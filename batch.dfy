/** `_process_transcription_and_translation` and its two entry points. The
    audio is extracted and transcribed once; then, for each selected
    language in order, the transcript is translated, spoken into
    `translated_audio_<code>.mp3`, converted to `translated_audio_<code>.aac`
    and muxed into `final_outputs/video_with_translated_audio_<code>.mp4`,
    whose path is appended to the result. The first stage that fails ends
    the whole run with no list. */
module Batch {
  import opened Outcomes
  import opened Names
  import opened Files
  import opened Translation
  import opened Speech
  import opened Stages
  import opened Text

  // ---------------------------------------------------------------------
  // One language

  /** The calls a translation made, as history. */
  function TranslationEvents(calls: seq<string>, lang: string): seq<Event>
  {
    seq(|calls|, k requires 0 <= k < |calls| => Invoked(TranslateChunk(calls[k], lang)))
  }

  /** The body of the language loop for `code`: the progress line naming the
      language, then the work on it. */
  function LanguageRun(svc: Services, files: map<Path, Content>, text: string, video: Path,
                       names: map<string, string>, code: string): Stage<Path>
  {
    var work := LanguageWork(svc, files, text, video, code);
    Stage([Announced(DisplayName(names, code), code)] + work.events, work.result)
  }

  /** Translation, then speech, conversion and the mux, each run only if the
      one before it succeeded. The translation calls do not touch the disk. */
  function LanguageWork(svc: Services, files: map<Path, Content>, text: string, video: Path, code: string): Stage<Path>
  {
    var translation := TranslateText(text, code, svc.translate);
    var calls := TranslationEvents(translation.calls, code);
    match translation.result
    case Err(f) => Stage(calls, Err(f))
    case Ok(translated) =>
      var rest := AfterTranslation(svc, files, translated, video, code);
      Stage(calls + rest.events, rest.result)
  }

  /** `text_to_speech` into `translated_audio_<code>.mp3`, then the rest. */
  function AfterTranslation(svc: Services, files: map<Path, Content>, translated: string, video: Path, code: string): Stage<Path>
  {
    var speech := Speak(translated, Mp3Name(code), code, svc);
    match speech.outcome
    case Fail(f) => Stage(speech.events, Err(f))
    case Pass =>
      var rest := AfterSpeech(svc, Replay(files, speech.events), video, code);
      Stage(speech.events + rest.events, rest.result)
  }

  /** The conversion to `translated_audio_<code>.aac` and the mux into
      the language's final video, whose path is the result. */
  function AfterSpeech(svc: Services, files: map<Path, Content>, video: Path, code: string): Stage<Path>
  {
    var conversion := ConvertRun(svc, Mp3Name(code), AacName(code));
    match conversion.result
    case Err(f) => Stage(conversion.events, Err(f))
    case Ok(_) =>
      var merge := MergeRun(svc, Replay(files, conversion.events), video, AacName(code), FinalVideo(code));
      Stage(conversion.events + merge.events, if merge.result.Ok? then Ok(FinalVideo(code)) else Err(merge.result.error))
  }

  method ProcessLanguage(ws: Workspace, svc: Services, text: string, video: Path,
                         names: map<string, string>, code: string) returns (r: Result<Path, Failure>)
    modifies ws
    ensures r == LanguageRun(svc, old(ws.files), text, video, names, code).result
    ensures ws.log == old(ws.log) + LanguageRun(svc, old(ws.files), text, video, names, code).events
    ensures ws.files == Replay(old(ws.files), LanguageRun(svc, old(ws.files), text, video, names, code).events)
  {
    ghost var f0 := ws.files;
    ghost var l0 := ws.log;
    ghost var whole := LanguageRun(svc, f0, text, video, names, code);
    var heading := Announced(DisplayName(names, code), code);
    var translation := TranslateText(text, code, svc.translate);
    ghost var calls := TranslationEvents(translation.calls, code);
    TranslationQuiet(translation.calls, code);
    ws.Record(heading);
    ws.RecordAll(calls);
    ConcatAssoc(l0, [heading], calls);
    ReplayQuiet(f0, [heading] + calls);
    LanguageRunSplit(svc, f0, text, video, names, code);
    if translation.result.Err? {
      return Err(translation.result.error);
    }
    ghost var done := [heading] + calls;
    var translated := translation.result.value;
    var spoken := TextToSpeech(ws, svc, translated, Mp3Name(code), code);
    ghost var s := Speak(translated, Mp3Name(code), code, svc).events;
    AfterTranslationSplit(svc, f0, translated, video, code);
    ConcatAssoc(l0, done, s);
    ReplayAppend(f0, done, s);
    if spoken.Fail? {
      return Err(spoken.error);
    }
    ghost var f1 := Replay(f0, s);
    ghost var rest := AfterSpeech(svc, f1, video, code);
    assert whole.events == done + (s + rest.events);
    ConcatAssoc(done, s, rest.events);
    done := done + s;
    var converted := ConvertMp3ToAac(ws, svc, Mp3Name(code), AacName(code));
    ghost var c := ConvertRun(svc, Mp3Name(code), AacName(code)).events;
    AfterSpeechSplit(svc, f1, video, code);
    ConcatAssoc(l0, done, c);
    ReplayAppend(f0, done, c);
    ReplayAppend(f0, s, c);
    if converted.Err? {
      return Err(converted.error);
    }
    ghost var m := MergeRun(svc, Replay(f1, c), video, AacName(code), FinalVideo(code)).events;
    assert whole.events == done + (c + m);
    ConcatAssoc(done, c, m);
    done := done + c;
    var merged := MergeAudioWithVideo(ws, svc, video, AacName(code), FinalVideo(code));
    ConcatAssoc(l0, done, m);
    ReplayAppend(f0, done, m);
    if merged.Err? {
      return Err(merged.error);
    }
    return Ok(FinalVideo(code));
  }

  /** `LanguageRun` after the progress line and the translation. */
  lemma LanguageRunSplit(svc: Services, files: map<Path, Content>, text: string, video: Path,
                         names: map<string, string>, code: string)
    ensures var heading := Announced(DisplayName(names, code), code);
      var translation := TranslateText(text, code, svc.translate);
      var calls := TranslationEvents(translation.calls, code);
      var l := LanguageRun(svc, files, text, video, names, code);
      && (translation.result.Err? ==> l == Stage([heading] + calls, Err(translation.result.error)))
      && (translation.result.Ok? ==>
            var rest := AfterTranslation(svc, files, translation.result.value, video, code);
            l == Stage([heading] + calls + rest.events, rest.result))
  {
    var heading := Announced(DisplayName(names, code), code);
    var translation := TranslateText(text, code, svc.translate);
    var calls := TranslationEvents(translation.calls, code);
    if translation.result.Ok? {
      var rest := AfterTranslation(svc, files, translation.result.value, video, code);
      ConcatAssoc([heading], calls, rest.events);
    }
  }

  /** `AfterTranslation` after the speech. */
  lemma AfterTranslationSplit(svc: Services, files: map<Path, Content>, translated: string, video: Path, code: string)
    ensures var speech := Speak(translated, Mp3Name(code), code, svc);
      var a := AfterTranslation(svc, files, translated, video, code);
      && (speech.outcome.Fail? ==> a == Stage(speech.events, Err(speech.outcome.error)))
      && (speech.outcome.Pass? ==>
            var rest := AfterSpeech(svc, Replay(files, speech.events), video, code);
            a == Stage(speech.events + rest.events, rest.result))
  {
  }

  /** `AfterSpeech` after the conversion. */
  lemma AfterSpeechSplit(svc: Services, files: map<Path, Content>, video: Path, code: string)
    ensures var conversion := ConvertRun(svc, Mp3Name(code), AacName(code));
      var a := AfterSpeech(svc, files, video, code);
      && (conversion.result.Err? ==> a == Stage(conversion.events, Err(conversion.result.error)))
      && (conversion.result.Ok? ==>
            var merge := MergeRun(svc, Replay(files, conversion.events), video, AacName(code), FinalVideo(code));
            a == Stage(conversion.events + merge.events,
                       if merge.result.Ok? then Ok(FinalVideo(code)) else Err(merge.result.error)))
  {
  }

  /** The progress line and the translation calls do not touch the disk. */
  lemma TranslationQuiet(calls: seq<string>, code: string)
    ensures Quiet(TranslationEvents(calls, code))
    ensures forall heading: Event :: heading.Announced? ==> Quiet([heading] + TranslationEvents(calls, code))
  {
    forall heading: Event | heading.Announced?
      ensures Quiet([heading] + TranslationEvents(calls, code))
    {
      QuietAppend([heading], TranslationEvents(calls, code));
    }
  }

  // ---------------------------------------------------------------------
  // The language loop

  /** The run `events` and `outputs` precede. */
  function Then(events: seq<Event>, outputs: seq<Path>, rest: Stage<seq<Path>>): Stage<seq<Path>>
  {
    Stage(events + rest.events, if rest.result.Ok? then Ok(outputs + rest.result.value) else rest.result)
  }

  /** One language's run, by the disk it starts on and the language code. */
  type Runner = (map<Path, Content>, string) -> Stage<Path>

  /** The body of the language loop, for one transcript, video and name table. */
  function RunOf(svc: Services, text: string, video: Path, names: map<string, string>): Runner
  {
    (files: map<Path, Content>, code: string) => LanguageRun(svc, files, text, video, names, code)
  }

  /** The loop over the languages of `langs` from `i` up to, not including,
      `k`: each is run by `run` on the disk the languages before it left,
      its output is appended, and the first that fails ends the loop with
      its error. */
  function Loop(run: Runner, files: map<Path, Content>, langs: seq<string>, i: nat, k: nat): Stage<seq<Path>>
    requires i <= k <= |langs|
    decreases k - i
  {
    if i == k then Stage([], Ok([]))
    else
      var l := run(files, langs[i]);
      match l.result
      case Err(f) => Stage(l.events, Err(f))
      case Ok(out) => Then(l.events, [out], Loop(run, Replay(files, l.events), langs, i + 1, k))
  }

  /** The language loop from language `i` to the end, on the disk `files`
      that the languages before it left. */
  function LanguagesFrom(svc: Services, files: map<Path, Content>, text: string, video: Path,
                         names: map<string, string>, langs: seq<string>, i: nat): Stage<seq<Path>>
    requires i <= |langs|
  {
    Loop(RunOf(svc, text, video, names), files, langs, i, |langs|)
  }

  /** The output path of each language, in order. */
  function LanguageOutputs(langs: seq<string>): seq<Path>
  {
    seq(|langs|, k requires 0 <= k < |langs| => FinalVideo(langs[k]))
  }

  /** The for loop over `selected_langs`, appending each language's video. */
  method ProcessLanguages(ws: Workspace, svc: Services, text: string, video: Path,
                          names: map<string, string>, langs: seq<string>) returns (r: Result<seq<Path>, Failure>)
    modifies ws
    ensures r == LanguagesFrom(svc, old(ws.files), text, video, names, langs, 0).result
    ensures ws.log == old(ws.log) + LanguagesFrom(svc, old(ws.files), text, video, names, langs, 0).events
    ensures ws.files == Replay(old(ws.files), LanguagesFrom(svc, old(ws.files), text, video, names, langs, 0).events)
    ensures r.Ok? ==> r.value == LanguageOutputs(langs)
  {
    var outputs: seq<Path> := [];
    ghost var done: seq<Event> := [];
    ThenNil(LanguagesFrom(svc, old(ws.files), text, video, names, langs, 0));
    for i := 0 to |langs|
      invariant ws.log == old(ws.log) + done
      invariant ws.files == Replay(old(ws.files), done)
      invariant outputs == LanguageOutputs(langs[..i])
      invariant LanguagesFrom(svc, old(ws.files), text, video, names, langs, 0)
             == Then(done, outputs, LanguagesFrom(svc, Replay(old(ws.files), done), text, video, names, langs, i))
    {
      ghost var l := LanguageRun(svc, ws.files, text, video, names, langs[i]);
      var out := ProcessLanguage(ws, svc, text, video, names, langs[i]);
      LanguageStep(svc, old(ws.files), text, video, names, langs, i, done, outputs);
      ConcatAssoc(old(ws.log), done, l.events);
      if out.Err? {
        return Err(out.error);
      }
      OutputsSnoc(langs, i);
      outputs := outputs + [out.value];
      done := done + l.events;
    }
    assert done + [] == done && outputs + [] == outputs;
    assert langs[..|langs|] == langs;
    return Ok(outputs);
  }

  lemma ThenNil(rest: Stage<seq<Path>>)
    ensures Then([], [], rest) == rest
  {
    assert [] + rest.events == rest.events;
    if rest.result.Ok? {
      assert [] + rest.result.value == rest.result.value;
    }
  }

  lemma ThenAssoc(a: seq<Event>, s: seq<Path>, b: seq<Event>, t: seq<Path>, rest: Stage<seq<Path>>)
    ensures Then(a, s, Then(b, t, rest)) == Then(a + b, s + t, rest)
  {
    assert a + (b + rest.events) == (a + b) + rest.events;
    if rest.result.Ok? {
      assert s + (t + rest.result.value) == (s + t) + rest.result.value;
    }
  }

  lemma OutputsSnoc(langs: seq<string>, i: nat)
    requires i < |langs|
    ensures LanguageOutputs(langs[..i + 1]) == LanguageOutputs(langs[..i]) + [FinalVideo(langs[i])]
  {
  }

  /** A language that succeeds returns its own output path. */
  lemma LanguageRunOutput(svc: Services, files: map<Path, Content>, text: string, video: Path,
                          names: map<string, string>, code: string)
    ensures var l := LanguageRun(svc, files, text, video, names, code);
      l.result.Ok? ==> l.result.value == FinalVideo(code)
  {
  }

  /** The loop invariant carries over one language, or that language is the
      one that fails. */
  lemma LanguageStep(svc: Services, files: map<Path, Content>, text: string, video: Path,
                     names: map<string, string>, langs: seq<string>, i: nat,
                     done: seq<Event>, outputs: seq<Path>)
    requires i < |langs|
    requires LanguagesFrom(svc, files, text, video, names, langs, 0)
          == Then(done, outputs, LanguagesFrom(svc, Replay(files, done), text, video, names, langs, i))
    ensures var l := LanguageRun(svc, Replay(files, done), text, video, names, langs[i]);
      && Replay(files, done + l.events) == Replay(Replay(files, done), l.events)
      && (l.result.Err? ==>
            LanguagesFrom(svc, files, text, video, names, langs, 0) == Stage(done + l.events, Err(l.result.error)))
      && (l.result.Ok? ==>
            && l.result.value == FinalVideo(langs[i])
            && LanguagesFrom(svc, files, text, video, names, langs, 0)
               == Then(done + l.events, outputs + [l.result.value],
                       LanguagesFrom(svc, Replay(files, done + l.events), text, video, names, langs, i + 1)))
  {
    var before := Replay(files, done);
    var l := LanguageRun(svc, before, text, video, names, langs[i]);
    ReplayAppend(files, done, l.events);
    LanguageRunOutput(svc, before, text, video, names, langs[i]);
    if l.result.Ok? {
      ThenAssoc(done, outputs, l.events, [l.result.value],
                LanguagesFrom(svc, Replay(before, l.events), text, video, names, langs, i + 1));
    }
  }

  // ---------------------------------------------------------------------
  // The whole run

  function Process(svc: Services, files: map<Path, Content>, video: Path,
                   names: map<string, string>, langs: seq<string>): Stage<seq<Path>>
  {
    var ex := ExtractRun(svc, video);
    match ex.result
    case Err(f) => Stage(ex.events, Err(f))
    case Ok(wav) =>
      var tr := TranscribeRun(svc, Replay(files, ex.events), wav);
      match tr.result
      case Err(f) => Stage(ex.events + tr.events, Err(f))
      case Ok(text) =>
        var ls := LanguagesFrom(svc, Replay(files, ex.events + tr.events), text, video, names, langs, 0);
        Stage(ex.events + tr.events + ls.events, ls.result)
  }

  /** `_process_transcription_and_translation(video, langs, names)`. */
  method ProcessTranscriptionAndTranslation(ws: Workspace, svc: Services, video: Path,
                                            names: map<string, string>, langs: seq<string>)
    returns (r: Result<seq<Path>, Failure>)
    modifies ws
    ensures r == Process(svc, old(ws.files), video, names, langs).result
    ensures ws.log == old(ws.log) + Process(svc, old(ws.files), video, names, langs).events
    ensures ws.files == Replay(old(ws.files), Process(svc, old(ws.files), video, names, langs).events)
  {
    ghost var f0 := ws.files;
    ghost var l0 := ws.log;
    var wav := ExtractAudioFromVideo(ws, svc, video);
    if wav.Err? {
      return Err(wav.error);
    }
    ghost var ex := ExtractRun(svc, video).events;
    var text := TranscribeAudio(ws, svc, wav.value);
    ghost var tr := TranscribeRun(svc, Replay(f0, ex), wav.value).events;
    ConcatAssoc(l0, ex, tr);
    ReplayAppend(f0, ex, tr);
    if text.Err? {
      return Err(text.error);
    }
    r := ProcessLanguages(ws, svc, text.value, video, names, langs);
    ghost var ls := LanguagesFrom(svc, Replay(f0, ex + tr), text.value, video, names, langs, 0).events;
    ConcatAssoc(l0, ex + tr, ls);
    ReplayAppend(f0, ex + tr, ls);
  }

  // ---------------------------------------------------------------------
  // Entry points

  /** The history and the result of an entry point. */
  datatype Run = Run(events: seq<Event>, result: Result<seq<Path>, RunError>)

  /** `process_local_video(path, langs)`: the file must exist before any
      stage runs. */
  function LocalRun(svc: Services, files: map<Path, Content>, path: Path, langs: seq<string>): Run
  {
    if path !in files then Run([], Err(LocalRunFailed(VideoNotFound)))
    else
      var p := Process(svc, files, path, Languages(), langs);
      Run(p.events, if p.result.Ok? then Ok(p.result.value) else Err(LocalRunFailed(p.result.error)))
  }

  /** `process_youtube_video(url, langs)` run from directory `cwd`. */
  function YoutubeRun(svc: Services, files: map<Path, Content>, cwd: Path, url: string, langs: seq<string>): Run
  {
    var d := DownloadRun(svc, files, cwd, url, VideoFilename);
    match d.result
    case Err(f) => Run(d.events, Err(YoutubeRunFailed(f)))
    case Ok(video) =>
      var p := Process(svc, Replay(files, d.events), video, Languages(), langs);
      Run(d.events + p.events, if p.result.Ok? then Ok(p.result.value) else Err(YoutubeRunFailed(p.result.error)))
  }

  method ProcessLocalVideo(ws: Workspace, svc: Services, path: Path, langs: seq<string>)
    returns (r: Result<seq<Path>, RunError>)
    modifies ws
    ensures r == LocalRun(svc, old(ws.files), path, langs).result
    ensures ws.log == old(ws.log) + LocalRun(svc, old(ws.files), path, langs).events
    ensures ws.files == Replay(old(ws.files), LocalRun(svc, old(ws.files), path, langs).events)
  {
    var present := ws.Exists(path);
    if !present {
      assert old(ws.log) + [] == old(ws.log);
      return Err(LocalRunFailed(VideoNotFound));
    }
    var outputs := ProcessTranscriptionAndTranslation(ws, svc, path, Languages(), langs);
    if outputs.Err? {
      return Err(LocalRunFailed(outputs.error));
    }
    return Ok(outputs.value);
  }

  method ProcessYoutubeVideo(ws: Workspace, svc: Services, cwd: Path, url: string, langs: seq<string>)
    returns (r: Result<seq<Path>, RunError>)
    modifies ws
    ensures r == YoutubeRun(svc, old(ws.files), cwd, url, langs).result
    ensures ws.log == old(ws.log) + YoutubeRun(svc, old(ws.files), cwd, url, langs).events
    ensures ws.files == Replay(old(ws.files), YoutubeRun(svc, old(ws.files), cwd, url, langs).events)
  {
    ghost var f0 := ws.files;
    ghost var l0 := ws.log;
    var video := DownloadVideoFromYoutube(ws, svc, cwd, url, VideoFilename);
    if video.Err? {
      return Err(YoutubeRunFailed(video.error));
    }
    ghost var d := DownloadRun(svc, f0, cwd, url, VideoFilename).events;
    var outputs := ProcessTranscriptionAndTranslation(ws, svc, video.value, Languages(), langs);
    ghost var p := Process(svc, Replay(f0, d), video.value, Languages(), langs).events;
    ConcatAssoc(l0, d, p);
    ReplayAppend(f0, d, p);
    if outputs.Err? {
      return Err(YoutubeRunFailed(outputs.error));
    }
    return Ok(outputs.value);
  }

  // ---------------------------------------------------------------------
  // Counting what happened

  predicate IsExtraction(e: Event) { e.Invoked? && e.step.ExtractAudio? }

  predicate IsTranscription(e: Event) { e.Invoked? && e.step.Transcribe? }

  /** How many of `events` satisfy `p`. */
  function Count(events: seq<Event>, p: Event -> bool): nat
  {
    if events == [] then 0 else (if p(events[0]) then 1 else 0) + Count(events[1..], p)
  }

  /** The progress lines, as (display name, code) pairs, in order. */
  function Announcements(events: seq<Event>): seq<(string, string)>
  {
    if events == [] then []
    else (if events[0].Announced? then [(events[0].name, events[0].code)] else []) + Announcements(events[1..])
  }

  /** The progress lines the languages print when all of them are reached. */
  function Labels(names: map<string, string>, langs: seq<string>): seq<(string, string)>
  {
    seq(|langs|, k requires 0 <= k < |langs| => (DisplayName(names, langs[k]), langs[k]))
  }

  lemma {:induction false} CountAppend(a: seq<Event>, b: seq<Event>, p: Event -> bool)
    ensures Count(a + b, p) == Count(a, p) + Count(b, p)
    decreases |a|
  {
    if a == [] {
      assert a + b == b;
    } else {
      assert (a + b)[0] == a[0];
      assert (a + b)[1..] == a[1..] + b;
      CountAppend(a[1..], b, p);
    }
  }

  lemma {:induction false} AnnouncementsAppend(a: seq<Event>, b: seq<Event>)
    ensures Announcements(a + b) == Announcements(a) + Announcements(b)
    decreases |a|
  {
    if a == [] {
      assert a + b == b;
    } else {
      assert (a + b)[0] == a[0];
      assert (a + b)[1..] == a[1..] + b;
      AnnouncementsAppend(a[1..], b);
    }
  }

  /** Events from inside one language: no progress line, no extraction and
      no transcription. */
  ghost predicate Inner(events: seq<Event>)
  {
    forall j :: 0 <= j < |events| ==>
      !events[j].Announced? && !IsExtraction(events[j]) && !IsTranscription(events[j])
  }

  lemma InnerAppend(a: seq<Event>, b: seq<Event>)
    requires Inner(a) && Inner(b)
    ensures Inner(a + b)
  {
    forall j | |a| <= j < |a + b|
      ensures (a + b)[j] == b[j - |a|]
    {
    }
  }

  lemma {:induction false} InnerFacts(events: seq<Event>)
    requires Inner(events)
    ensures Announcements(events) == []
    ensures Count(events, IsExtraction) == 0 && Count(events, IsTranscription) == 0
    decreases |events|
  {
    if events != [] {
      assert Inner(events[1..]) by {
        forall j | 0 <= j < |events| - 1
          ensures events[1..][j] == events[j + 1]
        {
        }
      }
      InnerFacts(events[1..]);
    }
  }

  lemma ToolInner(step: Step, target: Path, run: ToolRun)
    requires !step.ExtractAudio? && !step.Transcribe?
    ensures Inner(ToolEvents(step, target, run))
  {
  }

  lemma SpeechInner(text: string, out: Path, lang: string, svc: Services)
    ensures Inner(Speak(text, out, lang, svc).events)
  {
    SpeakEvents(text, out, lang, svc);
  }

  lemma AfterSpeechInner(svc: Services, files: map<Path, Content>, video: Path, code: string)
    ensures Inner(AfterSpeech(svc, files, video, code).events)
  {
    var conversion := ConvertRun(svc, Mp3Name(code), AacName(code));
    ToolInner(ConvertToAac(Mp3Name(code), AacName(code)), AacName(code), svc.tool(ConvertToAac(Mp3Name(code), AacName(code))));
    if conversion.result.Ok? {
      var merge := MergeRun(svc, Replay(files, conversion.events), video, AacName(code), FinalVideo(code));
      ToolInner(Mux(video, AacName(code), FinalVideo(code)), FinalVideo(code), svc.tool(Mux(video, AacName(code), FinalVideo(code))));
      InnerAppend(conversion.events, merge.events);
    }
  }

  lemma AfterTranslationInner(svc: Services, files: map<Path, Content>, translated: string, video: Path, code: string)
    ensures Inner(AfterTranslation(svc, files, translated, video, code).events)
  {
    var speech := Speak(translated, Mp3Name(code), code, svc);
    SpeechInner(translated, Mp3Name(code), code, svc);
    if speech.outcome.Pass? {
      AfterSpeechInner(svc, Replay(files, speech.events), video, code);
      InnerAppend(speech.events, AfterSpeech(svc, Replay(files, speech.events), video, code).events);
    }
  }

  lemma LanguageWorkInner(svc: Services, files: map<Path, Content>, text: string, video: Path, code: string)
    ensures Inner(LanguageWork(svc, files, text, video, code).events)
  {
    var translation := TranslateText(text, code, svc.translate);
    var calls := TranslationEvents(translation.calls, code);
    assert Inner(calls);
    if translation.result.Ok? {
      AfterTranslationInner(svc, files, translation.result.value, video, code);
      InnerAppend(calls, AfterTranslation(svc, files, translation.result.value, video, code).events);
    }
  }

  /** A language's history starts with its progress line and holds no other
      progress line, extraction or transcription. */
  lemma LanguageRunShape(svc: Services, files: map<Path, Content>, text: string, video: Path,
                         names: map<string, string>, code: string)
    ensures var events := LanguageRun(svc, files, text, video, names, code).events;
      && |events| > 0
      && events[0] == Announced(DisplayName(names, code), code)
      && events[1..] == LanguageWork(svc, files, text, video, code).events
      && Inner(events[1..])
  {
    LanguageWorkInner(svc, files, text, video, code);
    var work := LanguageWork(svc, files, text, video, code);
    assert ([Announced(DisplayName(names, code), code)] + work.events)[1..] == work.events;
  }

  /** One language prints exactly its own progress line and runs neither
      extraction nor transcription. */
  lemma LanguageRunFacts(svc: Services, files: map<Path, Content>, text: string, video: Path,
                         names: map<string, string>, code: string)
    ensures var events := LanguageRun(svc, files, text, video, names, code).events;
      && Announcements(events) == [(DisplayName(names, code), code)]
      && Count(events, IsExtraction) == 0 && Count(events, IsTranscription) == 0
  {
    var events := LanguageRun(svc, files, text, video, names, code).events;
    LanguageRunShape(svc, files, text, video, names, code);
    assert events == [events[0]] + events[1..];
    InnerFacts(events[1..]);
    AnnouncementsAppend([events[0]], events[1..]);
    CountAppend([events[0]], events[1..], IsExtraction);
    CountAppend([events[0]], events[1..], IsTranscription);
    assert Announcements([events[0]]) == [(DisplayName(names, code), code)];
  }

  // ---------------------------------------------------------------------
  // Properties of the language loop

  lemma OutputsCons(names: map<string, string>, langs: seq<string>, i: nat)
    requires i < |langs|
    ensures LanguageOutputs(langs[i..]) == [FinalVideo(langs[i])] + LanguageOutputs(langs[i + 1..])
    ensures Labels(names, langs[i..]) == [(DisplayName(names, langs[i]), langs[i])] + Labels(names, langs[i + 1..])
  {
  }

  /** The language loop never extracts or transcribes. */
  lemma {:induction false} LanguagesFromCounts(svc: Services, files: map<Path, Content>, text: string, video: Path,
                                               names: map<string, string>, langs: seq<string>, i: nat)
    requires i <= |langs|
    ensures var s := LanguagesFrom(svc, files, text, video, names, langs, i);
      Count(s.events, IsExtraction) == 0 && Count(s.events, IsTranscription) == 0
    decreases |langs| - i
  {
    if i < |langs| {
      var l := LanguageRun(svc, files, text, video, names, langs[i]);
      LanguageRunFacts(svc, files, text, video, names, langs[i]);
      if l.result.Ok? {
        var rest := LanguagesFrom(svc, Replay(files, l.events), text, video, names, langs, i + 1);
        LanguagesFromCounts(svc, Replay(files, l.events), text, video, names, langs, i + 1);
        CountAppend(l.events, rest.events, IsExtraction);
        CountAppend(l.events, rest.events, IsTranscription);
      }
    }
  }

  /** A loop that succeeds returns one path per language from `i` on, in
      order, and prints every one of their progress lines, in order. */
  lemma {:induction false} LanguagesFromSuccess(svc: Services, files: map<Path, Content>, text: string, video: Path,
                                                names: map<string, string>, langs: seq<string>, i: nat)
    requires i <= |langs|
    requires LanguagesFrom(svc, files, text, video, names, langs, i).result.Ok?
    ensures var s := LanguagesFrom(svc, files, text, video, names, langs, i);
      && s.result.value == LanguageOutputs(langs[i..])
      && Announcements(s.events) == Labels(names, langs[i..])
    decreases |langs| - i
  {
    if i < |langs| {
      var l := LanguageRun(svc, files, text, video, names, langs[i]);
      LanguageRunFacts(svc, files, text, video, names, langs[i]);
      LanguageRunOutput(svc, files, text, video, names, langs[i]);
      var rest := LanguagesFrom(svc, Replay(files, l.events), text, video, names, langs, i + 1);
      LanguagesFromSuccess(svc, Replay(files, l.events), text, video, names, langs, i + 1);
      AnnouncementsAppend(l.events, rest.events);
      OutputsCons(names, langs, i);
    }
  }

  /** Language `k` succeeds when its turn comes: if every language from `i`
      before it succeeded, it succeeds too, on the disk they left. */
  ghost predicate SucceedsInTurn(run: Runner, files: map<Path, Content>, langs: seq<string>, i: nat, k: nat)
    requires i <= k < |langs|
  {
    var before := Loop(run, files, langs, i, k);
    before.result.Ok? ==> run(Replay(files, before.events), langs[k]).result.Ok?
  }

  /** Every language from `i` on succeeds when its turn comes. */
  ghost predicate EachSucceedsInTurn(run: Runner, files: map<Path, Content>, langs: seq<string>, i: nat)
    requires i <= |langs|
  {
    forall k :: i <= k < |langs| ==> SucceedsInTurn(run, files, langs, i, k)
  }

  /** `s` is a loop from language `i` on the disk `files` that stopped at
      language `k`: every language before `k` succeeded, `k` failed on the
      disk they left, the history is theirs followed by k's, and the error
      is k's. */
  ghost predicate StopsAt(s: Stage<seq<Path>>, run: Runner, files: map<Path, Content>, langs: seq<string>, i: nat, k: nat)
    requires i <= k < |langs|
  {
    var before := Loop(run, files, langs, i, k);
    var l := run(Replay(files, before.events), langs[k]);
    && before.result.Ok?
    && l.result.Err?
    && s == Stage(before.events + l.events, Err(l.result.error))
  }

  /** Every run of `run` prints exactly the progress line of its language. */
  ghost predicate Announces(run: Runner, names: map<string, string>)
  {
    forall files, code :: Announcements(run(files, code).events) == [(DisplayName(names, code), code)]
  }

  lemma RunOfAnnounces(svc: Services, text: string, video: Path, names: map<string, string>)
    ensures Announces(RunOf(svc, text, video, names), names)
  {
    forall files, code
      ensures Announcements(RunOf(svc, text, video, names)(files, code).events) == [(DisplayName(names, code), code)]
    {
      LanguageRunFacts(svc, files, text, video, names, code);
    }
  }

  /** Peeling language `i`, when it succeeds, off the loop up to `k`
      leaves the loop from `i + 1`, on the disk `i` left. */
  lemma LoopCons(run: Runner, files: map<Path, Content>, langs: seq<string>, i: nat, k: nat)
    requires i < k <= |langs|
    requires run(files, langs[i]).result.Ok?
    ensures var l := run(files, langs[i]);
      var after := Loop(run, Replay(files, l.events), langs, i + 1, k);
      && Loop(run, files, langs, i, k) == Then(l.events, [l.result.value], after)
      && Replay(files, Loop(run, files, langs, i, k).events) == Replay(Replay(files, l.events), after.events)
  {
    var l := run(files, langs[i]);
    ReplayAppend(files, l.events, Loop(run, Replay(files, l.events), langs, i + 1, k).events);
  }

  /** The loop from `i` to `n` is the loop from `i` to `k`, when it
      succeeds, followed by the loop from `k` to `n` on the disk it left. */
  lemma {:induction false} LoopSplit(run: Runner, files: map<Path, Content>, langs: seq<string>, i: nat, k: nat, n: nat)
    requires i <= k <= n <= |langs|
    requires Loop(run, files, langs, i, k).result.Ok?
    ensures var before := Loop(run, files, langs, i, k);
      Loop(run, files, langs, i, n)
      == Then(before.events, before.result.value, Loop(run, Replay(files, before.events), langs, k, n))
    decreases k - i
  {
    if i == k {
      ThenNil(Loop(run, files, langs, k, n));
    } else {
      var l := run(files, langs[i]);
      var f1 := Replay(files, l.events);
      var after := Loop(run, f1, langs, i + 1, k);
      LoopCons(run, files, langs, i, k);
      LoopCons(run, files, langs, i, n);
      LoopSplit(run, f1, langs, i + 1, k, n);
      ThenAssoc(l.events, [l.result.value], after.events, after.result.value,
                Loop(run, Replay(f1, after.events), langs, k, n));
    }
  }

  /** If every language before `k` succeeds and language `k` then fails on
      the disk they left, the loop stops at `k`. */
  lemma LoopStops(run: Runner, files: map<Path, Content>, langs: seq<string>, i: nat, k: nat)
    requires i <= k < |langs|
    ensures var before := Loop(run, files, langs, i, k);
      before.result.Ok? && run(Replay(files, before.events), langs[k]).result.Err?
      ==> StopsAt(Loop(run, files, langs, i, |langs|), run, files, langs, i, k)
  {
    var before := Loop(run, files, langs, i, k);
    if before.result.Ok? {
      LoopSplit(run, files, langs, i, k, |langs|);
    }
  }

  /** A loop that fails stopped at some language `k`. */
  lemma {:induction false} LoopFailure(run: Runner, files: map<Path, Content>, langs: seq<string>, i: nat)
    requires i <= |langs|
    requires Loop(run, files, langs, i, |langs|).result.Err?
    ensures exists k :: i <= k < |langs| && StopsAt(Loop(run, files, langs, i, |langs|), run, files, langs, i, k)
    decreases |langs| - i
  {
    var l := run(files, langs[i]);
    if l.result.Ok? {
      var f1 := Replay(files, l.events);
      LoopFailure(run, f1, langs, i + 1);
      var k :| i + 1 <= k < |langs| && StopsAt(Loop(run, f1, langs, i + 1, |langs|), run, f1, langs, i + 1, k);
      LoopCons(run, files, langs, i, k);
      LoopStops(run, files, langs, i, k);
    } else {
      LoopStops(run, files, langs, i, i);
    }
  }

  /** A loop that succeeds up to `k` and then on `k` succeeds up to `k + 1`. */
  lemma LoopSnoc(run: Runner, files: map<Path, Content>, langs: seq<string>, i: nat, k: nat)
    requires i <= k < |langs|
    requires SucceedsInTurn(run, files, langs, i, k)
    requires Loop(run, files, langs, i, k).result.Ok?
    ensures Loop(run, files, langs, i, k + 1).result.Ok?
  {
    LoopSplit(run, files, langs, i, k, k + 1);
  }

  /** When every language succeeds in its turn, the loop up to any `k`
      succeeds. */
  lemma {:induction false} LoopSucceedsUpTo(run: Runner, files: map<Path, Content>, langs: seq<string>, i: nat, k: nat)
    requires i <= k <= |langs|
    requires EachSucceedsInTurn(run, files, langs, i)
    ensures Loop(run, files, langs, i, k).result.Ok?
    decreases k
  {
    if i < k {
      LoopSucceedsUpTo(run, files, langs, i, k - 1);
      assert SucceedsInTurn(run, files, langs, i, k - 1);
      LoopSnoc(run, files, langs, i, k - 1);
    }
  }

  /** The loop succeeds exactly when every language succeeds in its turn. */
  lemma LoopSucceedsIff(run: Runner, files: map<Path, Content>, langs: seq<string>, i: nat)
    requires i <= |langs|
    ensures Loop(run, files, langs, i, |langs|).result.Ok? <==> EachSucceedsInTurn(run, files, langs, i)
  {
    if EachSucceedsInTurn(run, files, langs, i) {
      LoopSucceedsUpTo(run, files, langs, i, |langs|);
    }
    forall k | i <= k < |langs|
      ensures Loop(run, files, langs, i, |langs|).result.Ok? ==> SucceedsInTurn(run, files, langs, i, k)
    {
      LoopStops(run, files, langs, i, k);
    }
  }

  /** A loop that succeeds up to `k` printed the progress lines of the
      languages from `i` to `k - 1`, in order. */
  lemma {:induction false} LoopLabels(run: Runner, names: map<string, string>, files: map<Path, Content>,
                                      langs: seq<string>, i: nat, k: nat)
    requires i <= k <= |langs|
    requires Announces(run, names)
    requires Loop(run, files, langs, i, k).result.Ok?
    ensures Announcements(Loop(run, files, langs, i, k).events) == Labels(names, langs[i..k])
    decreases k - i
  {
    if i < k {
      var l := run(files, langs[i]);
      var after := Loop(run, Replay(files, l.events), langs, i + 1, k);
      LoopLabels(run, names, Replay(files, l.events), langs, i + 1, k);
      AnnouncementsAppend(l.events, after.events);
      assert langs[i..k] == [langs[i]] + langs[i + 1..k];
    }
  }

  /** If every language before `k` succeeds and language `k` then fails,
      the language loop stops at `k` (`StopsAt`), having printed the
      progress lines of the languages up to and including `k`. */
  lemma LanguagesFromStops(svc: Services, files: map<Path, Content>, text: string, video: Path,
                           names: map<string, string>, langs: seq<string>, i: nat, k: nat)
    requires i <= k < |langs|
    ensures var run := RunOf(svc, text, video, names);
      var before := Loop(run, files, langs, i, k);
      var s := LanguagesFrom(svc, files, text, video, names, langs, i);
      before.result.Ok? && LanguageRun(svc, Replay(files, before.events), text, video, names, langs[k]).result.Err?
      ==> StopsAt(s, run, files, langs, i, k) && Announcements(s.events) == Labels(names, langs[i..k + 1])
  {
    var run := RunOf(svc, text, video, names);
    var before := Loop(run, files, langs, i, k);
    LoopStops(run, files, langs, i, k);
    if before.result.Ok? {
      RunOfAnnounces(svc, text, video, names);
      StoppedLabels(run, names, files, langs, i, k);
    }
  }

  /** A loop that succeeds up to `k` and then runs `k` has printed the
      progress lines of the languages up to and including `k`. */
  lemma StoppedLabels(run: Runner, names: map<string, string>, files: map<Path, Content>,
                      langs: seq<string>, i: nat, k: nat)
    requires i <= k < |langs|
    requires Announces(run, names)
    requires Loop(run, files, langs, i, k).result.Ok?
    ensures var before := Loop(run, files, langs, i, k);
      Announcements(before.events + run(Replay(files, before.events), langs[k]).events) == Labels(names, langs[i..k + 1])
  {
    var before := Loop(run, files, langs, i, k);
    LoopLabels(run, names, files, langs, i, k);
    AnnouncementsAppend(before.events, run(Replay(files, before.events), langs[k]).events);
    assert langs[i..k + 1] == langs[i..k] + [langs[k]];
  }

  /** A language loop that fails stopped at some language `k`, after every
      language before it succeeded, and printed the progress lines of the
      languages up to and including `k`. */
  lemma LanguagesFromFailure(svc: Services, files: map<Path, Content>, text: string, video: Path,
                             names: map<string, string>, langs: seq<string>, i: nat)
    requires i <= |langs|
    requires LanguagesFrom(svc, files, text, video, names, langs, i).result.Err?
    ensures var s := LanguagesFrom(svc, files, text, video, names, langs, i);
      exists k :: i <= k < |langs| && StopsAt(s, RunOf(svc, text, video, names), files, langs, i, k)
                  && Announcements(s.events) == Labels(names, langs[i..k + 1])
  {
    var run := RunOf(svc, text, video, names);
    LoopFailure(run, files, langs, i);
    var k :| i <= k < |langs| && StopsAt(Loop(run, files, langs, i, |langs|), run, files, langs, i, k);
    RunOfAnnounces(svc, text, video, names);
    StoppedLabels(run, names, files, langs, i, k);
  }

  /** The language loop succeeds exactly when every language succeeds in
      its turn, and then it returns every language's output, in order. */
  lemma LanguagesFromSucceedsIff(svc: Services, files: map<Path, Content>, text: string, video: Path,
                                 names: map<string, string>, langs: seq<string>, i: nat)
    requires i <= |langs|
    ensures var s := LanguagesFrom(svc, files, text, video, names, langs, i);
      && (s.result.Ok? <==> EachSucceedsInTurn(RunOf(svc, text, video, names), files, langs, i))
      && (s.result.Ok? ==> s.result.value == LanguageOutputs(langs[i..]))
  {
    LoopSucceedsIff(RunOf(svc, text, video, names), files, langs, i);
    if LanguagesFrom(svc, files, text, video, names, langs, i).result.Ok? {
      LanguagesFromSuccess(svc, files, text, video, names, langs, i);
    }
  }

  // ---------------------------------------------------------------------
  // Properties of the whole run

  /** Extraction runs first and exactly once; transcription runs at most
      once, and exactly once when the run succeeds. */
  lemma ProcessRunsStagesOnce(svc: Services, files: map<Path, Content>, video: Path,
                              names: map<string, string>, langs: seq<string>)
    ensures var p := Process(svc, files, video, names, langs);
      && |p.events| > 0 && p.events[0] == Invoked(ExtractAudio(video, ExtractedAudio))
      && Count(p.events, IsExtraction) == 1
      && Count(p.events, IsTranscription) <= 1
      && (p.result.Ok? ==> Count(p.events, IsTranscription) == 1)
  {
    var ex := ExtractRun(svc, video);
    var p := Process(svc, files, video, names, langs);
    var step := ExtractAudio(video, ExtractedAudio);
    var w := if svc.tool(step).writesOutput then [Wrote(ExtractedAudio, ToolOutput(step))] else [];
    assert ex.events == [Invoked(step)] + w;
    CountAppend([Invoked(step)], w, IsExtraction);
    CountAppend([Invoked(step)], w, IsTranscription);
    if ex.result.Ok? {
      var tr := TranscribeRun(svc, Replay(files, ex.events), ex.result.value);
      CountAppend(ex.events, tr.events, IsExtraction);
      CountAppend(ex.events, tr.events, IsTranscription);
      if tr.result.Ok? {
        var ls := LanguagesFrom(svc, Replay(files, ex.events + tr.events), tr.result.value, video, names, langs, 0);
        LanguagesFromCounts(svc, Replay(files, ex.events + tr.events), tr.result.value, video, names, langs, 0);
        CountAppend(ex.events + tr.events, ls.events, IsExtraction);
        CountAppend(ex.events + tr.events, ls.events, IsTranscription);
        assert p.events == ex.events + tr.events + ls.events;
      } else {
        assert p.events == ex.events + tr.events;
      }
    }
  }

  /** A run that succeeds returns one path per selected language, in input
      order: the k-th is `final_outputs/video_with_translated_audio_<langs[k]>.mp4`,
      and every language's progress line was printed, in order. */
  lemma ProcessSuccess(svc: Services, files: map<Path, Content>, video: Path,
                       names: map<string, string>, langs: seq<string>)
    requires Process(svc, files, video, names, langs).result.Ok?
    ensures var p := Process(svc, files, video, names, langs);
      && p.result.value == LanguageOutputs(langs)
      && |p.result.value| == |langs|
      && (forall k :: 0 <= k < |langs| ==>
            p.result.value[k] == "final_outputs/video_with_translated_audio_" + langs[k] + ".mp4")
      && Announcements(p.events) == Labels(names, langs)
  {
    var ex := ExtractRun(svc, video);
    var tr := TranscribeRun(svc, Replay(files, ex.events), ex.result.value);
    var f := Replay(files, ex.events + tr.events);
    var ls := LanguagesFrom(svc, f, tr.result.value, video, names, langs, 0);
    LanguagesFromSuccess(svc, f, tr.result.value, video, names, langs, 0);
    assert langs[0..] == langs;
    forall k | 0 <= k < |langs|
      ensures LanguageOutputs(langs)[k] == "final_outputs/video_with_translated_audio_" + langs[k] + ".mp4"
    {
      FinalVideoIs(langs[k]);
    }
    StagesAnnounceNothing(svc, files, video);
    AnnouncementsAppend(ex.events + tr.events, ls.events);
  }

  /** Extraction and transcription print no language's progress line. */
  lemma StagesAnnounceNothing(svc: Services, files: map<Path, Content>, video: Path)
    ensures var ex := ExtractRun(svc, video);
      && Announcements(ex.events) == []
      && (ex.result.Ok? ==>
            Announcements(ex.events + TranscribeRun(svc, Replay(files, ex.events), ex.result.value).events) == [])
  {
    var ex := ExtractRun(svc, video);
    var step := ExtractAudio(video, ExtractedAudio);
    var w := if svc.tool(step).writesOutput then [Wrote(ExtractedAudio, ToolOutput(step))] else [];
    AnnouncementsAppend([Invoked(step)], w);
    if ex.result.Ok? {
      var tr := TranscribeRun(svc, Replay(files, ex.events), ex.result.value);
      AnnouncementsAppend(ex.events, tr.events);
    }
  }

  /** A run that fails returns no list, and it failed for one of three
      reasons: extraction failed, and nothing else ran; transcription
      failed, and no language was started; or the loop stopped at some
      language `k` (`StopsAt`), after every language before it succeeded,
      having printed the progress lines of the languages up to `k`. */
  lemma ProcessFailure(svc: Services, files: map<Path, Content>, video: Path,
                       names: map<string, string>, langs: seq<string>)
    requires Process(svc, files, video, names, langs).result.Err?
    ensures var p := Process(svc, files, video, names, langs);
      var ex := ExtractRun(svc, video);
      || (ex.result.Err? && p == Stage(ex.events, Err(ExtractionFailed)) && Announcements(p.events) == [])
      || (ex.result.Ok? &&
          var tr := TranscribeRun(svc, Replay(files, ex.events), ex.result.value);
          || (tr.result.Err? && p == Stage(ex.events + tr.events, Err(TranscriptionFailed))
              && Announcements(p.events) == [])
          || (tr.result.Ok? &&
              var f := Replay(files, ex.events + tr.events);
              var ls := LanguagesFrom(svc, f, tr.result.value, video, names, langs, 0);
              && p == Stage(ex.events + tr.events + ls.events, ls.result)
              && exists k :: 0 <= k < |langs| && StopsAt(ls, RunOf(svc, tr.result.value, video, names), f, langs, 0, k)
                             && Announcements(p.events) == Labels(names, langs[..k + 1])))
  {
    var p := Process(svc, files, video, names, langs);
    var ex := ExtractRun(svc, video);
    StagesAnnounceNothing(svc, files, video);
    if ex.result.Ok? {
      var tr := TranscribeRun(svc, Replay(files, ex.events), ex.result.value);
      if tr.result.Ok? {
        var text := tr.result.value;
        var f := Replay(files, ex.events + tr.events);
        var ls := LanguagesFrom(svc, f, text, video, names, langs, 0);
        LanguagesFromFailure(svc, f, text, video, names, langs, 0);
        var k :| 0 <= k < |langs| && StopsAt(ls, RunOf(svc, text, video, names), f, langs, 0, k)
                 && Announcements(ls.events) == Labels(names, langs[0..k + 1]);
        AnnouncementsAppend(ex.events + tr.events, ls.events);
        assert langs[0..k + 1] == langs[..k + 1];
      }
    }
  }

  /** A failed extraction ends the run at once with its error. */
  lemma ProcessExtractionFails(svc: Services, files: map<Path, Content>, video: Path,
                               names: map<string, string>, langs: seq<string>)
    ensures var ex := ExtractRun(svc, video);
      ex.result.Err? ==> Process(svc, files, video, names, langs) == Stage(ex.events, Err(ExtractionFailed))
  {
  }

  /** After a successful extraction, a failed transcription ends the run
      with its error before any language is started. */
  lemma ProcessTranscriptionFails(svc: Services, files: map<Path, Content>, video: Path,
                                  names: map<string, string>, langs: seq<string>)
    ensures var ex := ExtractRun(svc, video);
      ex.result.Ok? ==>
        var tr := TranscribeRun(svc, Replay(files, ex.events), ex.result.value);
        tr.result.Err? ==> Process(svc, files, video, names, langs) == Stage(ex.events + tr.events, Err(TranscriptionFailed))
  {
  }

  /** After both stages succeed, if every language before `k` succeeds and
      language `k` fails, the run ends with k's error and its history is
      the stages', then the languages before `k`, then k's own. */
  lemma ProcessStopsAtLanguage(svc: Services, files: map<Path, Content>, video: Path,
                               names: map<string, string>, langs: seq<string>, k: nat)
    requires k < |langs|
    ensures var ex := ExtractRun(svc, video);
      ex.result.Ok? ==>
        var tr := TranscribeRun(svc, Replay(files, ex.events), ex.result.value);
        tr.result.Ok? ==>
          var f := Replay(files, ex.events + tr.events);
          var before := Loop(RunOf(svc, tr.result.value, video, names), f, langs, 0, k);
          var l := LanguageRun(svc, Replay(f, before.events), tr.result.value, video, names, langs[k]);
          before.result.Ok? && l.result.Err? ==>
            Process(svc, files, video, names, langs)
            == Stage(ex.events + tr.events + before.events + l.events, Err(l.result.error))
  {
    var ex := ExtractRun(svc, video);
    if ex.result.Ok? {
      var tr := TranscribeRun(svc, Replay(files, ex.events), ex.result.value);
      if tr.result.Ok? {
        var f := Replay(files, ex.events + tr.events);
        var before := Loop(RunOf(svc, tr.result.value, video, names), f, langs, 0, k);
        LanguagesFromStops(svc, f, tr.result.value, video, names, langs, 0, k);
        ConcatAssoc(ex.events + tr.events, before.events,
                    LanguageRun(svc, Replay(f, before.events), tr.result.value, video, names, langs[k]).events);
      }
    }
  }

  /** The run succeeds exactly when extraction and transcription succeed
      and then every language succeeds in its turn; it then returns every
      language's output, in order. */
  lemma ProcessSucceedsIff(svc: Services, files: map<Path, Content>, video: Path,
                           names: map<string, string>, langs: seq<string>)
    ensures var p := Process(svc, files, video, names, langs);
      var ex := ExtractRun(svc, video);
      && (p.result.Ok? <==>
            ex.result.Ok? &&
            var tr := TranscribeRun(svc, Replay(files, ex.events), ex.result.value);
            tr.result.Ok? &&
            EachSucceedsInTurn(RunOf(svc, tr.result.value, video, names), Replay(files, ex.events + tr.events), langs, 0))
      && (p.result.Ok? ==> p.result.value == LanguageOutputs(langs))
  {
    var ex := ExtractRun(svc, video);
    if ex.result.Ok? {
      var tr := TranscribeRun(svc, Replay(files, ex.events), ex.result.value);
      if tr.result.Ok? {
        var ls := LanguagesFrom(svc, Replay(files, ex.events + tr.events), tr.result.value, video, names, langs, 0);
        assert Process(svc, files, video, names, langs).result == ls.result;
        LanguagesFromSucceedsIff(svc, Replay(files, ex.events + tr.events), tr.result.value, video, names, langs, 0);
        assert langs[0..] == langs;
      }
    }
  }

  /** The display name only labels the progress line: the result and the
      rest of a language's history are the same whatever the name table. */
  lemma DisplayNameOnlyLabels(svc: Services, files: map<Path, Content>, text: string, video: Path,
                              names: map<string, string>, others: map<string, string>, code: string)
    ensures var a := LanguageRun(svc, files, text, video, names, code);
      var b := LanguageRun(svc, files, text, video, others, code);
      && a.result == b.result
      && |a.events| == |b.events| > 0
      && a.events[1..] == b.events[1..]
      && a.events[0] == Announced(DisplayName(names, code), code)
  {
    var work := LanguageWork(svc, files, text, video, code);
    assert ([Announced(DisplayName(names, code), code)] + work.events)[1..] == work.events;
    assert ([Announced(DisplayName(others, code), code)] + work.events)[1..] == work.events;
  }

  /** The work on a language starts by sending the first chunk of a
      non-empty transcript to the translator, in that language. */
  lemma LanguageWorkStarts(svc: Services, files: map<Path, Content>, text: string, video: Path, code: string)
    requires text != []
    ensures var chunks := Chunks(text, TranslationChunk);
      var work := LanguageWork(svc, files, text, video, code);
      && |chunks| > 0 && |work.events| > 0
      && work.events[0] == Invoked(TranslateChunk(chunks[0], code))
  {
    var chunks := Chunks(text, TranslationChunk);
    ChunksCount(text, TranslationChunk);
    assert |chunks| > 0;
    var calls := TranslateText(text, code, svc.translate).calls;
    assert |calls| > 0 && calls[0] == chunks[0];
    var work := LanguageWork(svc, files, text, video, code);
    assert work.events[0] == TranslationEvents(calls, code)[0];
  }

  /** A code missing from the table, such as "xx", is announced under its
      raw code and then processed exactly as under any other name: the
      translator is called in "xx" first. */
  lemma UnmappedCodeProcessed(svc: Services, files: map<Path, Content>, text: string, video: Path)
    ensures var l := LanguageRun(svc, files, text, video, Languages(), "xx");
      var work := LanguageWork(svc, files, text, video, "xx");
      && l.events[0] == Announced("xx", "xx")
      && l.events[1..] == work.events
      && l.result == work.result
      && (text != [] ==> |l.events| > 1 && l.events[1] == Invoked(TranslateChunk(Chunks(text, TranslationChunk)[0], "xx")))
      && (l.result.Ok? ==> l.result.value == "final_outputs/video_with_translated_audio_" + "xx" + ".mp4")
  {
    DisplayNames("xx");
    RawCodeRun(svc, files, text, video, Languages(), "xx");
    var work := LanguageWork(svc, files, text, video, "xx");
    assert ([Announced("xx", "xx")] + work.events)[1..] == work.events;
    if text != [] {
      LanguageRunStarts(svc, files, text, video, Languages(), "xx");
    }
    LanguageRunOutput(svc, files, text, video, Languages(), "xx");
    FinalVideoIs("xx");
  }

  /** A code missing from the name table is announced under the raw code and
      then worked on like any other. */
  lemma RawCodeRun(svc: Services, files: map<Path, Content>, text: string, video: Path,
                   names: map<string, string>, code: string)
    requires code !in names
    ensures var l := LanguageRun(svc, files, text, video, names, code);
      var work := LanguageWork(svc, files, text, video, code);
      && l.events == [Announced(code, code)] + work.events
      && l.result == work.result
  {
  }

  /** After its progress line, a language's first event sends the first
      chunk of a non-empty transcript to the translator, in that language. */
  lemma LanguageRunStarts(svc: Services, files: map<Path, Content>, text: string, video: Path,
                          names: map<string, string>, code: string)
    requires text != []
    ensures var l := LanguageRun(svc, files, text, video, names, code);
      |l.events| > 1 && l.events[1] == Invoked(TranslateChunk(Chunks(text, TranslationChunk)[0], code))
  {
    LanguageWorkStarts(svc, files, text, video, code);
  }



  // ---------------------------------------------------------------------
  // Properties of the entry points

  /** A local path that is not a file fails before any stage runs and
      touches nothing. */
  lemma LocalMissingFile(svc: Services, files: map<Path, Content>, path: Path, langs: seq<string>)
    requires path !in files
    ensures LocalRun(svc, files, path, langs).result == Err(LocalRunFailed(VideoNotFound))
    ensures LocalRun(svc, files, path, langs).events == []
    ensures Count(LocalRun(svc, files, path, langs).events, IsExtraction) == 0
    ensures Replay(files, LocalRun(svc, files, path, langs).events) == files
  {
  }

  /** A local run on an existing file is the pipeline on that file with the
      language table: the same history, success exactly when the pipeline
      succeeds with the same list, and the pipeline's error wrapped. */
  lemma LocalExistingFile(svc: Services, files: map<Path, Content>, path: Path, langs: seq<string>)
    requires path in files
    ensures var r := LocalRun(svc, files, path, langs);
      var p := Process(svc, files, path, Languages(), langs);
      && r.events == p.events
      && (r.result.Ok? <==> p.result.Ok?)
      && (r.result.Ok? ==> r.result.value == p.result.value)
      && (r.result.Err? ==> r.result.error == LocalRunFailed(p.result.error))
  {
  }

  /** A local run that succeeds processed an existing file, extracted that
      file first and transcribed it once, and returns one output per
      language in order. */
  lemma LocalSuccess(svc: Services, files: map<Path, Content>, path: Path, langs: seq<string>)
    requires LocalRun(svc, files, path, langs).result.Ok?
    ensures var r := LocalRun(svc, files, path, langs);
      && path in files
      && r.events == Process(svc, files, path, Languages(), langs).events
      && |r.events| > 0 && r.events[0] == Invoked(ExtractAudio(path, ExtractedAudio))
      && r.result.value == LanguageOutputs(langs)
      && Count(r.events, IsExtraction) == 1 && Count(r.events, IsTranscription) == 1
      && Announcements(r.events) == Labels(Languages(), langs)
  {
    ProcessRunsStagesOnce(svc, files, path, Languages(), langs);
    ProcessSuccess(svc, files, path, Languages(), langs);
  }

  /** A YouTube run downloads first, into `downloads/original_video.mp4`
      under the working directory, and then runs the pipeline on that file;
      when it succeeds it returns one output per language in order. */
  lemma YoutubeRunFacts(svc: Services, files: map<Path, Content>, cwd: Path, url: string, langs: seq<string>)
    ensures var r := YoutubeRun(svc, files, cwd, url, langs);
      var video := DownloadPath(cwd, VideoFilename);
      && |r.events| > 0 && r.events[0] == Invoked(Download(url, video))
      && (r.result.Ok? ==>
            && r.result.value == LanguageOutputs(langs)
            && Count(r.events, IsExtraction) == 1
            && Invoked(ExtractAudio(video, ExtractedAudio)) in r.events)
  {
    var video := DownloadPath(cwd, VideoFilename);
    var d := DownloadRun(svc, files, cwd, url, VideoFilename);
    if d.result.Ok? {
      var p := Process(svc, Replay(files, d.events), video, Languages(), langs);
      ProcessRunsStagesOnce(svc, Replay(files, d.events), video, Languages(), langs);
      CountAppend(d.events, p.events, IsExtraction);
      var step := Download(url, video);
      var w := if svc.tool(step).writesOutput then [Wrote(video, ToolOutput(step))] else [];
      CountAppend([Invoked(step)], w, IsExtraction);
      var r := YoutubeRun(svc, files, cwd, url, langs);
      if r.result.Ok? {
        ProcessSuccess(svc, Replay(files, d.events), video, Languages(), langs);
        assert r.events[|d.events|] == p.events[0];
      }
    }
  }

  /** A failed download ends a YouTube run at once: the history is the
      download's only, and the error is the download's, wrapped. */
  lemma YoutubeDownloadFails(svc: Services, files: map<Path, Content>, cwd: Path, url: string, langs: seq<string>)
    ensures var d := DownloadRun(svc, files, cwd, url, VideoFilename);
      d.result.Err? ==>
        && YoutubeRun(svc, files, cwd, url, langs) == Run(d.events, Err(YoutubeRunFailed(d.result.error)))
        && Count(d.events, IsExtraction) == 0
  {
    var video := DownloadPath(cwd, VideoFilename);
    var step := Download(url, video);
    var w := if svc.tool(step).writesOutput then [Wrote(video, ToolOutput(step))] else [];
    CountAppend([Invoked(step)], w, IsExtraction);
  }

  /** A YouTube run succeeds exactly when the download succeeds and the
      pipeline then succeeds on the downloaded file, with the disk the
      download left; it then returns the pipeline's list. */
  lemma YoutubeSucceedsIff(svc: Services, files: map<Path, Content>, cwd: Path, url: string, langs: seq<string>)
    ensures var d := DownloadRun(svc, files, cwd, url, VideoFilename);
      var r := YoutubeRun(svc, files, cwd, url, langs);
      && (r.result.Ok? <==>
            d.result.Ok? && Process(svc, Replay(files, d.events), d.result.value, Languages(), langs).result.Ok?)
      && (r.result.Ok? ==>
            r.result.value == Process(svc, Replay(files, d.events), d.result.value, Languages(), langs).result.value)
  {
  }
}
