# Video translator pipeline, modelled in Dafny

The system takes a video, either a YouTube URL downloaded with yt-dlp or a
local file, and produces one dubbed copy per selected language. Its steps are:

- ffmpeg extracts the soundtrack as 16 kHz mono WAV.
- whisper transcribes the soundtrack once.
- For each language code, in the order given:
  - the transcript is translated in 500-character chunks, joined with single spaces;
  - the translation is spoken by gTTS in 100-character chunks, each saved to
    `temp_tts_<i>.mp3`, decoded and appended to a buffer, then deleted;
  - the buffer is exported to `translated_audio_<code>.mp3`;
  - ffmpeg converts that to `translated_audio_<code>.aac`;
  - ffmpeg muxes it with the original video into
    `final_outputs/video_with_translated_audio_<code>.mp4`.
- The run returns the list of those output paths. The first stage that fails
  aborts the run, and no list is returned.

The model has eight modules, one per component:

- `Outcomes`: results and the failure of each stage.
- `Text`: the chunk comprehension, `' '.join`, `str.strip`.
- `Names`: the file names built from an index or a language code, decimal
  digits, and the language table.
- `Translation`: `translate_text`, as pure functions.
- `Files`: a `Workspace` class holding the file system as a map and a ghost
  history of calls, writes, removals and progress lines.
- `Speech`: `text_to_speech`, as a method with a `for` loop.
- `Stages`: the one-call stages; download, extraction, transcription,
  conversion and merge.
- `Batch`: the orchestrator loop and its two entry points.

Every imperative method is proved against a pure function of the services and
the initial disk. The method's result, its history, and its disk afterwards are
exactly what that function says. The properties are then proved as lemmas
about the functions.

The language loop, `LanguagesFrom`, is `Loop` applied to `RunOf`, the
function that runs one language. `Loop` takes any `Runner`, so the
all-or-nothing rule is proved once for every runner, in both directions: a
loop fails exactly when some language fails after those before it succeeded
(`StopsAt`), and it succeeds exactly when each language succeeds in its turn.

External programs and services are fields of a `Services` value: yt-dlp,
ffmpeg, whisper, the translator, gTTS and the MP3 decoder. Each is a
deterministic function, and `None` or a non-zero exit status stands for a call
that raises. An external program is described by its exit status and by
whether it writes its output file.

The current directory of a YouTube run is a parameter, `cwd`.

The merge checks the exit status and then only that the output path exists.
So a mux that exits with zero and writes nothing still succeeds when a file
of that name is already there (`Stages.MergeAcceptsStaleOutput`).

## Model

| member | source | states |
|---|---|---|
| `Text.ChunksConcat` | video_translator.py:64 | concatenating the chunks of a text, in order, gives the text back |
| `Text.ChunkAt` | video_translator.py:64 | the k-th chunk is the slice from k·size to min(k·size + size, len) |
| `Text.ChunksCount` | video_translator.py:64 | there are ceil(len / size) chunks |
| `Text.ChunkLengths` | video_translator.py:83 | every chunk is non-empty and at most `size` long, and every chunk but the last is exactly `size` long |
| `Text.ChunksOfEmpty` | video_translator.py:64 | the empty text has no chunks |
| `Text.SplitJoin` | video_translator.py:69 | splitting a space-joined list on the separator gives the list back when no part contains it |
| `Text.StripLeft` | video_translator.py:78 | removes exactly the leading whitespace: the rest is a suffix that starts with a non-space |
| `Text.StripRight` | video_translator.py:78 | removes exactly the trailing whitespace: the rest is a prefix that ends with a non-space |
| `Text.StripEmptyIffBlank` | video_translator.py:78 | `strip()` gives the empty string exactly when every character is whitespace |
| `Names.NatToString` | video_translator.py:88 | the decimal form of an index is non-empty, all digits, and has no leading zero |
| `Names.ParseNatToString` | video_translator.py:88 | reading the digits back gives the index |
| `Names.NatToStringInjective` | video_translator.py:88 | different indices have different decimal forms |
| `Names.TempNameIndex` | video_translator.py:88 | the index can be read back out of `temp_tts_<i>.mp3` |
| `Names.TempNameInjective` | video_translator.py:88 | different chunks use different temporary files |
| `Names.TempNamesCount` | video_translator.py:87-88 | k chunks use k distinct temporary files |
| `Names.FinalVideoIs` | video_translator.py:149 | each language's output is `final_outputs/video_with_translated_audio_<code>.mp4` |
| `Names.FinalVideoInjective` | video_translator.py:149 | different codes write different outputs |
| `Names.DownloadPathIs` | video_translator.py:15-27 | the download goes to `<cwd>/downloads/original_video.mp4` |
| `Names.DisplayNames` | video_translator.py:184-190 | the table maps exactly kn, hi, ta, te, ml; `get(code, code)` gives the table's name for a known code and the code itself otherwise, so "xx" gives "xx" |
| `Translation.TranslateText` | video_translator.py:60-73 | `translate_text` fails, with `TranslationFailed`, exactly when some chunk's call raises; the chunks it sent are the first ones of the text, in order (its text on success: `TranslateSuccess`; empty text: `TranslateEmpty`; the calls on failure: `TranslateFailure`) |
| `Translation.TranslateAll` | video_translator.py:65-68 | the comprehension succeeds iff every chunk's call does; on success it holds one translation per chunk, in order, and made exactly those calls; on failure the calls are a non-empty prefix of the chunks that ends at the first failing one |
| `Translation.TranslateEmpty` | video_translator.py:64-69 | empty text makes no call and gives "" |
| `Translation.TranslateSuccess` | video_translator.py:63-69 | success iff every chunk translates; then exactly ceil(len / 500) calls in chunk order, and the result is the chunk translations joined by one space |
| `Translation.TranslateFailure` | video_translator.py:65-73 | one failing chunk fails the whole translation with no text, after calls up to the first failing chunk only |
| `Translation.TranslationKeepsOrder` | video_translator.py:65-69 | when no translated chunk contains a space, splitting the result on spaces gives the chunk translations back in order |
| `Files.Workspace.Write` | video_translator.py:90 | writing creates or replaces exactly that file |
| `Files.Workspace.Remove` | video_translator.py:93 | `os.remove` deletes the file when present and otherwise fails, changing nothing |
| `Files.Workspace.RunTool` | video_translator.py:115-120 | a subprocess changes at most its output file |
| `Speech.TextToSpeech` | video_translator.py:76-98 | the outcome, history and disk are those of `Speak` |
| `Speech.SpeakChunks` | video_translator.py:87-93 | the loop's audio, history and disk are those of `SpeakFrom` from chunk 0 |
| `Speech.SpeakChunk` | video_translator.py:88-93 | one iteration: synthesise, save `temp_tts_<i>.mp3`, decode, remove; its audio, history and disk |
| `Speech.ChunkEventsCases` | video_translator.py:89-93 | one chunk has three outcomes: synthesis fails (nothing written); decoding fails (the temp file stays); or it is written and removed |
| `Speech.SpeakFromAudio` | video_translator.py:87-93 | the loop yields audio iff every chunk is synthesised and decoded, and then it is their segments in order; otherwise it names the first chunk that failed |
| `Speech.SpeakFromSuccess` | video_translator.py:87-93 | a successful loop writes and removes `temp_tts_<i>.mp3` once each, in index order, and leaves none of them |
| `Speech.SpeakFromFailure` | video_translator.py:87-93 | a failed loop writes nothing but MP3 data to temporary paths and changes nothing else |
| `Speech.SpeakFromEvents` | video_translator.py:87-93 | the loop from chunk i on only calls gTTS in the requested language, writes MP3 data to `temp_tts_<k>.mp3` for k >= i and removes those files |
| `Speech.SpeakBlank` | video_translator.py:78-79 | empty or whitespace-only text fails with no call and no file written |
| `Speech.SpeakSucceedsIff` | video_translator.py:78-95 | speech succeeds exactly when the text is not blank and every chunk is synthesised and decoded |
| `Speech.SpeakSuccess` | video_translator.py:82-95 | on success: ceil(len / 100) temp files are written and removed in order; the output then holds the chunk segments, concatenated in order; nothing else changes |
| `Speech.SpeakLeavesNoTempFiles` | video_translator.py:88-93 | after a successful run no `temp_tts_<i>.mp3` of the run is on disk |
| `Speech.SpeakFailure` | video_translator.py:78-98 | a failure is a speech failure: the output is never exported, and only temporary MP3 files may change |
| `Speech.SpeakEvents` | video_translator.py:76-98 | every event of `text_to_speech` is one of four: a gTTS call in the requested language; MP3 data written to one of its ceil(len / 100) temp files; the removal of one of them; or the exported buffer written to the output path |
| `Stages.DownloadVideoFromYoutube` | video_translator.py:14-33 | the result, history and disk are those of `DownloadRun` |
| `Stages.ExtractAudioFromVideo` | video_translator.py:36-46 | the result, history and disk are those of `ExtractRun` |
| `Stages.TranscribeAudio` | video_translator.py:49-57 | the result, history and disk are those of `TranscribeRun` |
| `Stages.ConvertMp3ToAac` | video_translator.py:101-109 | the result, history and disk are those of `ConvertRun` |
| `Stages.MergeAudioWithVideo` | video_translator.py:112-131 | the result, history and disk are those of `MergeRun` |
| `Stages.MergeRule` | video_translator.py:125-128 | non-zero exit is a failure with that status; exit 0 with no output file is a missing-output failure; success iff exit 0 and the file is present |
| `Stages.MergeAcceptsStaleOutput` | video_translator.py:127-128 | a mux that exits 0 and writes nothing succeeds, with the disk unchanged, when the output path already exists |
| `Stages.DownloadRule` | video_translator.py:25-31 | download succeeds iff yt-dlp returns and the file exists, and then it returns that file |
| `Stages.ExtractTouchesOnlyItsOutput` | video_translator.py:39-42 | extraction changes at most `extracted_audio.wav` |
| `Stages.ConvertTouchesOnlyItsOutput` | video_translator.py:104-106 | the conversion changes at most the AAC file |
| `Stages.MergeTouchesOnlyItsOutput` | video_translator.py:115-120 | the mux changes at most the output video |
| `Stages.TranscribeRule` | video_translator.py:49-57 | transcription changes no file; it succeeds iff the audio file exists and whisper returns text, and a missing file fails it |
| `Batch.ProcessLanguage` | video_translator.py:144-154 | one language: the result, history and disk are those of `LanguageRun` |
| `Batch.ProcessLanguages` | video_translator.py:141-156 | the loop's result, history and disk are those of `LanguagesFrom`; a successful loop returns `LanguageOutputs(langs)`; invariant: `output_files` holds the outputs of the languages done so far |
| `Batch.ProcessTranscriptionAndTranslation` | video_translator.py:134-159 | the result, history and disk are those of `Process` |
| `Batch.ProcessLocalVideo` | video_translator.py:179-194 | the result, history and disk are those of `LocalRun` |
| `Batch.ProcessYoutubeVideo` | video_translator.py:162-176 | the result, history and disk are those of `YoutubeRun` |
| `Batch.LanguageRunOutput` | video_translator.py:149-156 | a language that succeeds yields its own final video path |
| `Batch.LanguageRunShape` | video_translator.py:144-154 | a language's history starts with its progress line; no later event is a progress line, an extraction or a transcription |
| `Batch.LanguageRunFacts` | video_translator.py:144-145 | one language prints exactly its own progress line, and extracts and transcribes nothing |
| `Batch.LanguagesFromCounts` | video_translator.py:143-156 | the language loop never extracts or transcribes |
| `Batch.LanguagesFromSuccess` | video_translator.py:143-156 | a successful loop returns one path per language in order, and prints every language's progress line in order |
| `Batch.LoopSplit` | video_translator.py:143-156 | the loop from language i is the languages before k, when they all succeed, followed by the loop from k on the disk they left |
| `Batch.LoopStops` | video_translator.py:143-156 | if every language before k succeeds and k then fails on the disk they left, the loop stops at k (`StopsAt`): its history is theirs followed by k's, and the error is k's |
| `Batch.LoopFailure` | video_translator.py:143-156 | a loop that fails stopped at some language k in the sense of `StopsAt`: every language before k succeeded and k failed |
| `Batch.LoopSucceedsIff` | video_translator.py:143-156 | the loop succeeds exactly when every language succeeds when its turn comes (`EachSucceedsInTurn`) |
| `Batch.LoopLabels` | video_translator.py:144-145 | languages i to k - 1 that all succeed print their progress lines, in order |
| `Batch.LanguagesFromStops` | video_translator.py:143-156 | if the languages before k succeed and k fails, the language loop stops at k and has printed the progress lines of the languages up to and including k |
| `Batch.LanguagesFromFailure` | video_translator.py:143-156 | a failed language loop stopped at some language k (`StopsAt`): the languages before k succeeded, k failed, the history is theirs then k's, the error is k's, and the progress lines printed are exactly those of the languages up to and including k |
| `Batch.LanguagesFromSucceedsIff` | video_translator.py:143-156 | the language loop succeeds exactly when every language succeeds in its turn, and then returns every language's output path in order |
| `Batch.ProcessRunsStagesOnce` | video_translator.py:138-139 | extraction runs first and exactly once; transcription runs at most once, and exactly once on success |
| `Batch.ProcessSuccess` | video_translator.py:134-159 | success returns one path per selected language, in input order; the k-th is `final_outputs/video_with_translated_audio_<langs[k]>.mp4`; every progress line was printed, in order |
| `Batch.ProcessFailure` | video_translator.py:138-159 | failure returns no list, for one of three reasons: extraction failed and nothing else ran; transcription failed and no language started; or the loop stopped at some language k (`StopsAt`), after every language before it succeeded, with the progress lines of the languages up to k printed |
| `Batch.ProcessExtractionFails` | video_translator.py:138 | a failed extraction ends the run at once with `ExtractionFailed` |
| `Batch.ProcessTranscriptionFails` | video_translator.py:138-139 | after a successful extraction, a failed transcription ends the run with `TranscriptionFailed` before any language starts |
| `Batch.ProcessStopsAtLanguage` | video_translator.py:138-156 | once both stages succeed, if the languages before k succeed and k fails, the run ends with k's error, and its history is the stages', then those languages', then k's |
| `Batch.ProcessSucceedsIff` | video_translator.py:134-159 | the run succeeds exactly when extraction and transcription succeed and every language then succeeds in its turn; it then returns `LanguageOutputs(langs)` |
| `Batch.DisplayNameOnlyLabels` | video_translator.py:144 | the name table changes only the progress line: the result and the rest of the history are the same for any table |
| `Batch.LanguageWorkStarts` | video_translator.py:151 | the work on a language starts by sending the first chunk of a non-empty transcript to the translator, in that language |
| `Batch.RawCodeRun` | video_translator.py:144-154 | a code missing from the name table is announced under the raw code, and its rest is `LanguageWork` for that code, whatever the table |
| `Batch.LanguageRunStarts` | video_translator.py:151 | the event after a language's progress line sends the first chunk of a non-empty transcript to the translator, in that language |
| `Batch.UnmappedCodeProcessed` | video_translator.py:144 | the code "xx", not in the table, is announced as "xx". The rest of its history and its result are exactly `LanguageWork` for "xx"; for a non-empty transcript the next event translates the first chunk into "xx"; a success writes `..._xx.mp4` |
| `Batch.LocalMissingFile` | video_translator.py:181-182 | a local path that is not a file fails with an empty history (no stage runs) and touches nothing |
| `Batch.LocalExistingFile` | video_translator.py:179-194 | on an existing file the local run is the pipeline on that file: the same history, success exactly when the pipeline succeeds with the same list, and the pipeline's error wrapped |
| `Batch.LocalSuccess` | video_translator.py:179-194 | a successful local run had an existing file; its history is the pipeline's on that file, the first event extracts the audio of `path`, it transcribed once, returns one output per language in order, and printed every language's line |
| `Batch.YoutubeRunFacts` | video_translator.py:162-176 | a YouTube run downloads first to `downloads/original_video.mp4`; on success it extracted that file exactly once and returns one output per language in order |
| `Batch.YoutubeDownloadFails` | video_translator.py:172-176 | a failed download ends the YouTube run at once: its history is the download's only, no extraction runs, and the error is the download's, wrapped |
| `Batch.YoutubeSucceedsIff` | video_translator.py:172-176 | a YouTube run succeeds exactly when the download succeeds and the pipeline then succeeds on the downloaded file, on the disk the download left; it returns the pipeline's list |

## Left out

- `app.py`, the Flask front end (upload handling and file serving), is not
  part of this model.
- The directories made by `os.makedirs` (`downloads`, `final_outputs`) are not
  modelled. Paths are plain strings in one flat file map.
- `print` output other than the per-language progress line is left out, and so
  is the warnings filter. Neither affects the result. The progress line is kept
  because it is the only use of the display name.
- Error messages and the `RuntimeError` re-wrapping are left out. A failure
  records which stage failed; the entry points wrap it in `LocalRunFailed`
  or `YoutubeRunFailed`.
- What yt-dlp, ffmpeg, whisper, the translation service, gTTS and pydub do
  inside is left out. Each is a deterministic function of its arguments.
  - A program's run depends only on its command line; the contents of its
    input files are not consulted.
  - whisper's model loading and transcription are one call.
  - Audio contents, codecs and bit rates are abstract.
- `Speech.TextToSpeech`: the final `combined.export` (line 95) always
  succeeds in the model. A partial file that gTTS may leave when `save`
  raises is not modelled; a failed synthesis writes nothing.
- `Translation.TranslateFailure`: a translator call that returns something
  other than a string (such as `None`) is treated as a call that raises. In
  the source such a return does not stop the comprehension at lines 65-68.
  The remaining chunks are still sent, and only `' '.join` at line 69
  raises. So in that case the source makes more calls than "up to the first
  failing chunk"; the outcome, a failed translation with no text, is the same.
- A yt-dlp exception is modelled as a non-zero exit status.
- Concurrent runs are left out. They share the temporary and output file
  names, and the code has no locking.
