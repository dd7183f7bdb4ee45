/** The stages that hand their work to an external program: audio
    extraction and AAC conversion (ffmpeg, run with `check=True`), the
    whisper transcription, the final mux (ffmpeg, whose exit code and output
    file are checked by hand) and the yt-dlp download. Each stage is given
    twice: as a function from the services and the disk to the history it
    leaves and its result, and as a method on a `Workspace` proved to do
    exactly that. */
module Stages {
  import opened Outcomes
  import opened Names
  import opened Files

  /** The history a stage leaves and what it returns. */
  datatype Stage<+T> = Stage(events: seq<Event>, result: Result<T, Failure>)

  // ---------------------------------------------------------------------
  // Histories and results

  /** `extract_audio_from_video(video)`: ffmpeg writes `extracted_audio.wav`;
      a non-zero exit status raises. */
  function ExtractRun(svc: Services, video: Path): Stage<Path>
  {
    var step := ExtractAudio(video, ExtractedAudio);
    var run := svc.tool(step);
    Stage(ToolEvents(step, ExtractedAudio, run),
          if run.exitCode == 0 then Ok(ExtractedAudio) else Err(ExtractionFailed))
  }

  /** `transcribe_audio(wav)`: whisper reads the file; a missing file or a
      model that raises fails the stage. */
  function TranscribeRun(svc: Services, files: map<Path, Content>, wav: Path): Stage<string>
  {
    Stage([Invoked(Transcribe(wav))],
          if wav in files && svc.transcribe(files[wav]).Some? then Ok(svc.transcribe(files[wav]).value)
          else Err(TranscriptionFailed))
  }

  /** `convert_mp3_to_aac(mp3, aac)`: a non-zero exit status raises. */
  function ConvertRun(svc: Services, mp3: Path, aac: Path): Stage<()>
  {
    var step := ConvertToAac(mp3, aac);
    var run := svc.tool(step);
    Stage(ToolEvents(step, aac, run), if run.exitCode == 0 then Ok(()) else Err(ConversionFailed))
  }

  /** The two checks after the mux, in order: the exit status, then the
      existence of the output file. */
  function MergeVerdict(exitCode: int, outputExists: bool): Outcome<MergeFault>
  {
    if exitCode != 0 then Fail(ExitStatus(exitCode))
    else if !outputExists then Fail(OutputMissing)
    else Pass
  }

  /** `merge_audio_with_video(video, audio, out)`. */
  function MergeRun(svc: Services, files: map<Path, Content>, video: Path, audio: Path, out: Path): Stage<()>
  {
    var step := Mux(video, audio, out);
    var run := svc.tool(step);
    var events := ToolEvents(step, out, run);
    Stage(events,
          match MergeVerdict(run.exitCode, out in Replay(files, events))
          case Pass => Ok(())
          case Fail(fault) => Err(MergeFailed(fault)))
  }

  /** `download_video_from_youtube(url, filename)` run from directory `cwd`:
      yt-dlp must return normally and the file must then exist. */
  function DownloadRun(svc: Services, files: map<Path, Content>, cwd: Path, url: string, filename: Path): Stage<Path>
  {
    var target := DownloadPath(cwd, filename);
    var step := Download(url, target);
    var run := svc.tool(step);
    var events := ToolEvents(step, target, run);
    Stage(events,
          if run.exitCode == 0 && target in Replay(files, events) then Ok(target) else Err(DownloadFailed))
  }

  // ---------------------------------------------------------------------
  // The stages on a workspace

  method ExtractAudioFromVideo(ws: Workspace, svc: Services, video: Path) returns (r: Result<Path, Failure>)
    modifies ws
    ensures r == ExtractRun(svc, video).result
    ensures ws.log == old(ws.log) + ExtractRun(svc, video).events
    ensures ws.files == Replay(old(ws.files), ExtractRun(svc, video).events)
  {
    var run := ws.RunTool(svc, ExtractAudio(video, ExtractedAudio), ExtractedAudio);
    if run.exitCode != 0 {
      return Err(ExtractionFailed);
    }
    return Ok(ExtractedAudio);
  }

  method TranscribeAudio(ws: Workspace, svc: Services, wav: Path) returns (r: Result<string, Failure>)
    modifies ws
    ensures r == TranscribeRun(svc, old(ws.files), wav).result
    ensures ws.log == old(ws.log) + TranscribeRun(svc, old(ws.files), wav).events
    ensures ws.files == Replay(old(ws.files), TranscribeRun(svc, old(ws.files), wav).events)
  {
    ReplayOne(ws.files, Invoked(Transcribe(wav)));
    ws.Record(Invoked(Transcribe(wav)));
    var audio := ws.Read(wav);
    if audio.None? {
      return Err(TranscriptionFailed);
    }
    var text := svc.transcribe(audio.value);
    if text.None? {
      return Err(TranscriptionFailed);
    }
    return Ok(text.value);
  }

  method ConvertMp3ToAac(ws: Workspace, svc: Services, mp3: Path, aac: Path) returns (r: Result<(), Failure>)
    modifies ws
    ensures r == ConvertRun(svc, mp3, aac).result
    ensures ws.log == old(ws.log) + ConvertRun(svc, mp3, aac).events
    ensures ws.files == Replay(old(ws.files), ConvertRun(svc, mp3, aac).events)
  {
    var run := ws.RunTool(svc, ConvertToAac(mp3, aac), aac);
    if run.exitCode != 0 {
      return Err(ConversionFailed);
    }
    return Ok(());
  }

  method MergeAudioWithVideo(ws: Workspace, svc: Services, video: Path, audio: Path, out: Path)
    returns (r: Result<(), Failure>)
    modifies ws
    ensures r == MergeRun(svc, old(ws.files), video, audio, out).result
    ensures ws.log == old(ws.log) + MergeRun(svc, old(ws.files), video, audio, out).events
    ensures ws.files == Replay(old(ws.files), MergeRun(svc, old(ws.files), video, audio, out).events)
  {
    var run := ws.RunTool(svc, Mux(video, audio, out), out);
    if run.exitCode != 0 {
      return Err(MergeFailed(ExitStatus(run.exitCode)));
    }
    var created := ws.Exists(out);
    if !created {
      return Err(MergeFailed(OutputMissing));
    }
    return Ok(());
  }

  method DownloadVideoFromYoutube(ws: Workspace, svc: Services, cwd: Path, url: string, filename: Path)
    returns (r: Result<Path, Failure>)
    modifies ws
    ensures r == DownloadRun(svc, old(ws.files), cwd, url, filename).result
    ensures ws.log == old(ws.log) + DownloadRun(svc, old(ws.files), cwd, url, filename).events
    ensures ws.files == Replay(old(ws.files), DownloadRun(svc, old(ws.files), cwd, url, filename).events)
  {
    var target := DownloadPath(cwd, filename);
    var run := ws.RunTool(svc, Download(url, target), target);
    if run.exitCode != 0 {
      return Err(DownloadFailed);
    }
    var found := ws.Exists(target);
    if !found {
      return Err(DownloadFailed);
    }
    return Ok(target);
  }

  // ---------------------------------------------------------------------
  // Properties

  /** The merge is reported as failed when ffmpeg exits with a non-zero
      status, and also when it exits with zero but the output file is not
      there; it succeeds exactly when both checks pass. */
  lemma MergeRule(svc: Services, files: map<Path, Content>, video: Path, audio: Path, out: Path)
    ensures var run := svc.tool(Mux(video, audio, out));
      var m := MergeRun(svc, files, video, audio, out);
      var present := run.writesOutput || out in files;
      && (run.exitCode != 0 ==> m.result == Err(MergeFailed(ExitStatus(run.exitCode))))
      && (run.exitCode == 0 && !present ==> m.result == Err(MergeFailed(OutputMissing)))
      && (m.result.Ok? <==> run.exitCode == 0 && present)
  {
    var step := Mux(video, audio, out);
    ReplayToolEvents(files, step, out, svc.tool(step));
  }

  /** The existence check does not tell a fresh output from an older file
      at the same path: a mux that exits with zero and writes nothing still
      succeeds when `out` was already on disk. */
  lemma MergeAcceptsStaleOutput(svc: Services, files: map<Path, Content>, video: Path, audio: Path, out: Path)
    requires svc.tool(Mux(video, audio, out)) == ToolRun(0, false)
    requires out in files
    ensures MergeRun(svc, files, video, audio, out).result.Ok?
    ensures Replay(files, MergeRun(svc, files, video, audio, out).events) == files
  {
    MergeRule(svc, files, video, audio, out);
    ReplayToolEvents(files, Mux(video, audio, out), out, ToolRun(0, false));
  }

  /** A download succeeds exactly when yt-dlp returns normally and the file is
      then present, and it returns the path under `downloads`. */
  lemma DownloadRule(svc: Services, files: map<Path, Content>, cwd: Path, url: string, filename: Path)
    ensures var target := DownloadPath(cwd, filename);
      var run := svc.tool(Download(url, target));
      var d := DownloadRun(svc, files, cwd, url, filename);
      && (d.result.Ok? <==> run.exitCode == 0 && (run.writesOutput || target in files))
      && (d.result.Ok? ==> d.result.value == target && target in Replay(files, d.events))
  {
    var target := DownloadPath(cwd, filename);
    ReplayToolEvents(files, Download(url, target), target, svc.tool(Download(url, target)));
  }

  /** Extraction changes at most `extracted_audio.wav`. */
  lemma ExtractTouchesOnlyItsOutput(svc: Services, files: map<Path, Content>, video: Path)
    ensures Replay(files, ExtractRun(svc, video).events) - {ExtractedAudio} == files - {ExtractedAudio}
  {
    ReplayToolEvents(files, ExtractAudio(video, ExtractedAudio), ExtractedAudio,
                     svc.tool(ExtractAudio(video, ExtractedAudio)));
  }

  /** The conversion changes at most the AAC file. */
  lemma ConvertTouchesOnlyItsOutput(svc: Services, files: map<Path, Content>, mp3: Path, aac: Path)
    ensures Replay(files, ConvertRun(svc, mp3, aac).events) - {aac} == files - {aac}
  {
    ReplayToolEvents(files, ConvertToAac(mp3, aac), aac, svc.tool(ConvertToAac(mp3, aac)));
  }

  /** The mux changes at most the output video. */
  lemma MergeTouchesOnlyItsOutput(svc: Services, files: map<Path, Content>, video: Path, audio: Path, out: Path)
    ensures Replay(files, MergeRun(svc, files, video, audio, out).events) - {out} == files - {out}
  {
    ReplayToolEvents(files, Mux(video, audio, out), out, svc.tool(Mux(video, audio, out)));
  }

  /** Transcription reads the extracted audio and changes no file. */
  lemma TranscribeRule(svc: Services, files: map<Path, Content>, wav: Path)
    ensures var t := TranscribeRun(svc, files, wav);
      && Replay(files, t.events) == files
      && (t.result.Ok? <==> wav in files && svc.transcribe(files[wav]).Some?)
      && (wav !in files ==> t.result == Err(TranscriptionFailed))
  {
    ReplayOne(files, Invoked(Transcribe(wav)));
  }
}
