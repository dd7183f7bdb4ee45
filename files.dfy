/** The part of the world the pipeline touches: a file system (a map from
    path to contents), the external services and tools it calls (passed in
    as deterministic functions, since their insides are not modelled), and
    a history of what was invoked, written and removed. */
module Files {
  import opened Outcomes

  type Path = string
  type Bytes = seq<bv8>

  /** A decoded piece of audio (a pydub `AudioSegment`); its samples are
      left abstract. */
  datatype Segment = Segment(frames: seq<int>)

  /** One invocation of an external tool or service. */
  datatype Step =
    | Download(url: string, target: Path)            // yt-dlp
    | ExtractAudio(video: Path, wav: Path)           // ffmpeg, 16 kHz mono PCM
    | Transcribe(wav: Path)                          // whisper, "base" model
    | TranslateChunk(chunk: string, lang: string)    // Google translation service
    | SynthesizeChunk(chunk: string, lang: string)   // gTTS
    | ConvertToAac(mp3: Path, aac: Path)             // ffmpeg, AAC at 192k
    | Mux(video: Path, audio: Path, output: Path)    // ffmpeg, copy video, new audio

  /** What a file holds. */
  datatype Content =
    | Mp3Data(bytes: Bytes)                  // speech saved by gTTS
    | ExportedAudio(segments: seq<Segment>)  // a pydub buffer exported as mp3
    | ToolOutput(step: Step)                 // the file an external tool wrote

  datatype Event =
    | Invoked(step: Step)
    | Wrote(path: Path, content: Content)
    | Removed(path: Path)
    | Announced(name: string, code: string)  // the progress line naming a language

  /** How a run of an external process ended: its exit code (for yt-dlp, 0
      when the download call returned normally) and whether it wrote its
      output file. */
  datatype ToolRun = ToolRun(exitCode: int, writesOutput: bool)

  /** The collaborators the pipeline calls; `None` is a call that raises. */
  datatype Services = Services(
    tool: Step -> ToolRun,
    transcribe: Content -> Option<string>,
    translate: (string, string) -> Option<string>,
    synthesize: (string, string) -> Option<Bytes>,
    decode: Content -> Option<Segment>)

  /** The files after `events`: a write replaces a file's contents, a
      removal deletes it, and nothing else touches the disk. */
  function Replay(files: map<Path, Content>, events: seq<Event>): map<Path, Content>
    decreases |events|
  {
    if events == [] then files else Replay(Apply(files, events[0]), events[1..])
  }

  function Apply(files: map<Path, Content>, e: Event): map<Path, Content>
  {
    match e
    case Wrote(p, c) => files[p := c]
    case Removed(p) => files - {p}
    case _ => files
  }

  lemma {:induction false} ReplayAppend(files: map<Path, Content>, a: seq<Event>, b: seq<Event>)
    ensures Replay(files, a + b) == Replay(Replay(files, a), b)
    decreases |a|
  {
    if a != [] {
      assert (a + b)[0] == a[0];
      assert (a + b)[1..] == a[1..] + b;
      ReplayAppend(Apply(files, a[0]), a[1..], b);
    } else {
      assert a + b == b;
    }
  }

  lemma ReplaySnoc(files: map<Path, Content>, a: seq<Event>, e: Event)
    ensures Replay(files, a + [e]) == Apply(Replay(files, a), e)
  {
    ReplayAppend(files, a, [e]);
    assert [e][1..] == [];
  }

  lemma ConcatAssoc(a: seq<Event>, b: seq<Event>, c: seq<Event>)
    ensures a + b + c == a + (b + c)
  {
  }

  /** The paths written by `events`, in order. */
  function Written(events: seq<Event>): seq<Path>
  {
    if events == [] then []
    else (if events[0].Wrote? then [events[0].path] else []) + Written(events[1..])
  }

  /** The paths removed by `events`, in order. */
  function Deleted(events: seq<Event>): seq<Path>
  {
    if events == [] then []
    else (if events[0].Removed? then [events[0].path] else []) + Deleted(events[1..])
  }

  lemma WrittenDeletedAppend(a: seq<Event>, b: seq<Event>)
    ensures Written(a + b) == Written(a) + Written(b)
    ensures Deleted(a + b) == Deleted(a) + Deleted(b)
  {
    WrittenAppend(a, b);
    DeletedAppend(a, b);
  }

  lemma {:induction false} WrittenAppend(a: seq<Event>, b: seq<Event>)
    ensures Written(a + b) == Written(a) + Written(b)
    decreases |a|
  {
    if a == [] {
      assert a + b == b;
    } else {
      var w := if a[0].Wrote? then [a[0].path] else [];
      assert (a + b)[0] == a[0];
      assert (a + b)[1..] == a[1..] + b;
      WrittenAppend(a[1..], b);
      assert Written(a + b) == w + Written(a[1..] + b);
      assert w + (Written(a[1..]) + Written(b)) == (w + Written(a[1..])) + Written(b);
    }
  }

  lemma {:induction false} DeletedAppend(a: seq<Event>, b: seq<Event>)
    ensures Deleted(a + b) == Deleted(a) + Deleted(b)
    decreases |a|
  {
    if a == [] {
      assert a + b == b;
    } else {
      var d := if a[0].Removed? then [a[0].path] else [];
      assert (a + b)[0] == a[0];
      assert (a + b)[1..] == a[1..] + b;
      DeletedAppend(a[1..], b);
      assert Deleted(a + b) == d + Deleted(a[1..] + b);
      assert d + (Deleted(a[1..]) + Deleted(b)) == (d + Deleted(a[1..])) + Deleted(b);
    }
  }

  /** The effect of a single event. */
  lemma ReplayOne(files: map<Path, Content>, e: Event)
    ensures e.Wrote? ==> Replay(files, [e]) == files[e.path := e.content]
    ensures e.Removed? ==> Replay(files, [e]) == files - {e.path}
    ensures e.Invoked? || e.Announced? ==> Replay(files, [e]) == files
  {
    assert [e][1..] == [];
  }

  /** Events that do not touch the disk. */
  ghost predicate Quiet(events: seq<Event>)
  {
    forall j :: 0 <= j < |events| ==> !events[j].Wrote? && !events[j].Removed?
  }

  lemma {:induction false} ReplayQuiet(files: map<Path, Content>, events: seq<Event>)
    requires Quiet(events)
    ensures Replay(files, events) == files
    decreases |events|
  {
    if events != [] {
      assert Quiet(events[1..]) by {
        forall j | 0 <= j < |events| - 1
          ensures !events[1..][j].Wrote? && !events[1..][j].Removed?
        {
          assert events[1..][j] == events[j + 1];
        }
      }
      ReplayQuiet(files, events[1..]);
    }
  }

  lemma QuietAppend(a: seq<Event>, b: seq<Event>)
    requires Quiet(a) && Quiet(b)
    ensures Quiet(a + b)
  {
    forall j | 0 <= j < |a + b|
      ensures !(a + b)[j].Wrote? && !(a + b)[j].Removed?
    {
      if j >= |a| {
        assert (a + b)[j] == b[j - |a|];
      }
    }
  }

  /** The history an external process leaves: it is invoked and, if it
      writes its output, the target file then holds its output. */
  function ToolEvents(step: Step, target: Path, run: ToolRun): seq<Event>
  {
    [Invoked(step)] + (if run.writesOutput then [Wrote(target, ToolOutput(step))] else [])
  }

  /** An external process changes at most its target file. */
  lemma ReplayToolEvents(files: map<Path, Content>, step: Step, target: Path, run: ToolRun)
    ensures Replay(files, ToolEvents(step, target, run))
         == if run.writesOutput then files[target := ToolOutput(step)] else files
  {
    var w := if run.writesOutput then [Wrote(target, ToolOutput(step))] else [];
    ReplayAppend(files, [Invoked(step)], w);
    ReplayOne(files, Invoked(step));
    if run.writesOutput {
      ReplayOne(files, Wrote(target, ToolOutput(step)));
    }
  }

  class Workspace {
    var files: map<Path, Content>
    ghost var log: seq<Event>

    constructor (initial: map<Path, Content>)
      ensures files == initial && log == []
    {
      files := initial;
      log := [];
    }

    /** Creates or overwrites a file. */
    method Write(p: Path, c: Content)
      modifies this
      ensures log == old(log) + [Wrote(p, c)]
      ensures files == old(files)[p := c]
    {
      files := files[p := c];
      log := log + [Wrote(p, c)];
    }

    /** `os.remove(p)`: fails, changing nothing, when there is no such file. */
    method Remove(p: Path) returns (ok: bool)
      modifies this
      ensures ok == (p in old(files))
      ensures ok ==> log == old(log) + [Removed(p)] && files == old(files) - {p}
      ensures !ok ==> log == old(log) && files == old(files)
    {
      ok := p in files;
      if ok {
        files := files - {p};
        log := log + [Removed(p)];
      }
    }

    /** `os.path.exists(p)` / `os.path.isfile(p)`. */
    method Exists(p: Path) returns (b: bool)
      ensures b == (p in files)
    {
      b := p in files;
    }

    /** Reads a file, `None` when it is absent. */
    method Read(p: Path) returns (c: Option<Content>)
      ensures p in files ==> c == Some(files[p])
      ensures p !in files ==> c == None
    {
      c := if p in files then Some(files[p]) else None;
    }

    /** Notes a call into a service or a progress message in the history. */
    ghost method Record(e: Event)
      requires !e.Wrote? && !e.Removed?
      modifies this
      ensures log == old(log) + [e] && files == old(files)
    {
      log := log + [e];
    }

    /** Notes several service calls in the history. */
    ghost method RecordAll(events: seq<Event>)
      requires Quiet(events)
      modifies this
      ensures log == old(log) + events && files == old(files)
    {
      log := log + events;
    }

    /** Runs an external process that may write `target`. */
    method RunTool(svc: Services, step: Step, target: Path) returns (run: ToolRun)
      modifies this
      ensures run == svc.tool(step)
      ensures log == old(log) + ToolEvents(step, target, run)
      ensures files == Replay(old(files), ToolEvents(step, target, run))
    {
      run := svc.tool(step);
      ReplayToolEvents(files, step, target, run);
      log := log + [Invoked(step)];
      if run.writesOutput {
        files := files[target := ToolOutput(step)];
        log := log + [Wrote(target, ToolOutput(step))];
      }
    }
  }
}
