/** `text_to_speech`: blank text is refused before anything is synthesised;
    otherwise the text is cut into 100-character chunks and, chunk by chunk,
    speech is synthesised into `temp_tts_<i>.mp3`, decoded, appended to a
    running buffer, and the temporary file removed. The buffer is finally
    exported to the output path. A failing chunk stops the loop: the output
    is not exported and the temporary file of that chunk may remain. */
module Speech {
  import opened Outcomes
  import opened Text
  import opened Names
  import opened Files

  /** `max_chunk` of the synthesiser. */
  const SpeechChunk: nat := 100

  /** The audio a chunk becomes: synthesised by gTTS, saved, decoded back by pydub. */
  function ChunkAudio(svc: Services, chunk: string, lang: string): Option<Segment>
  {
    match svc.synthesize(chunk, lang)
    case None => None
    case Some(mp3) => svc.decode(Mp3Data(mp3))
  }

  /** The history of the chunk loop and either the decoded segments or the
      index of the chunk that failed. */
  datatype SpeechRun = SpeechRun(events: seq<Event>, audio: Result<seq<Segment>, nat>)

  /** A run that the given events and segments precede. */
  function Prepend(events: seq<Event>, segments: seq<Segment>, run: SpeechRun): SpeechRun
  {
    SpeechRun(events + run.events,
              if run.audio.Ok? then Ok(segments + run.audio.value) else run.audio)
  }

  /** The history of one pass of the loop body for chunk `i`: the synthesis
      call, then (if it returned) the save of `temp_tts_<i>.mp3`, then (if
      that decoded) its removal. */
  function ChunkEvents(svc: Services, chunk: string, i: nat, lang: string): seq<Event>
  {
    var call := Invoked(SynthesizeChunk(chunk, lang));
    match svc.synthesize(chunk, lang)
    case None => [call]
    case Some(mp3) =>
      [call, Wrote(TempName(i), Mp3Data(mp3))]
        + (if svc.decode(Mp3Data(mp3)).Some? then [Removed(TempName(i))] else [])
  }

  /** The chunk loop from chunk `i` on. */
  function SpeakFrom(chunks: seq<string>, i: nat, lang: string, svc: Services): SpeechRun
    requires i <= |chunks|
    decreases |chunks| - i
  {
    if i == |chunks| then SpeechRun([], Ok([]))
    else
      var head := ChunkEvents(svc, chunks[i], i, lang);
      match ChunkAudio(svc, chunks[i], lang)
      case None => SpeechRun(head, Err(i))
      case Some(seg) => Prepend(head, [seg], SpeakFrom(chunks, i + 1, lang, svc))
  }

  /** The loop yields audio exactly when every chunk from `i` on is
      synthesised and decoded, and then it is those chunks' audio in order;
      otherwise it reports the first chunk that failed. */
  lemma {:induction false} SpeakFromAudio(chunks: seq<string>, i: nat, lang: string, svc: Services)
    requires i <= |chunks|
    ensures AudioFrom(chunks, i, lang, svc, SpeakFrom(chunks, i, lang, svc).audio)
    decreases |chunks| - i
  {
    var r := SpeakFrom(chunks, i, lang, svc);
    if i < |chunks| {
      SpeakFromStep(chunks, i, lang, svc);
      var audio := ChunkAudio(svc, chunks[i], lang);
      if audio.Some? {
        var rest := SpeakFrom(chunks, i + 1, lang, svc);
        SpeakFromAudio(chunks, i + 1, lang, svc);
        assert AudioFrom(chunks, i + 1, lang, svc, rest.audio);
        assert r.audio == if rest.audio.Ok? then Ok([audio.value] + rest.audio.value) else rest.audio;
        AudioFromCons(chunks, i, lang, svc, audio.value, rest.audio);
      } else {
        assert r.audio == Err(i);
      }
    } else {
      assert r.audio == Ok([]);
    }
    assert AudioFrom(chunks, i, lang, svc, r.audio);
  }

  /** The audio of the chunks from `i` on is `audio`: `Ok` exactly when every
      one of them has audio, listing it in order, and otherwise naming the
      first chunk without one. */
  ghost predicate AudioFrom(chunks: seq<string>, i: nat, lang: string, svc: Services, audio: Result<seq<Segment>, nat>)
    requires i <= |chunks|
  {
    && (audio.Ok? <==> forall k :: i <= k < |chunks| ==> ChunkAudio(svc, chunks[k], lang).Some?)
    && (audio.Ok? ==>
          && |audio.value| == |chunks| - i
          && forall k :: i <= k < |chunks| ==> ChunkAudio(svc, chunks[k], lang) == Some(audio.value[k - i]))
    && (audio.Err? ==>
          && i <= audio.error < |chunks|
          && ChunkAudio(svc, chunks[audio.error], lang).None?
          && forall k :: i <= k < audio.error ==> ChunkAudio(svc, chunks[k], lang).Some?)
  }

  lemma AudioFromCons(chunks: seq<string>, i: nat, lang: string, svc: Services, seg: Segment,
                      rest: Result<seq<Segment>, nat>)
    requires i < |chunks|
    requires ChunkAudio(svc, chunks[i], lang) == Some(seg)
    requires AudioFrom(chunks, i + 1, lang, svc, rest)
    ensures AudioFrom(chunks, i, lang, svc, if rest.Ok? then Ok([seg] + rest.value) else rest)
  {
    if rest.Ok? {
      var all := [seg] + rest.value;
      forall k | i <= k < |chunks|
        ensures ChunkAudio(svc, chunks[k], lang) == Some(all[k - i])
      {
        if k > i {
          assert all[k - i] == rest.value[k - (i + 1)];
        }
      }
    }
  }


  /** The outcome of `text_to_speech(text, out, lang)` and its history. */
  datatype Speech = Speech(events: seq<Event>, outcome: Outcome<Failure>)

  function Speak(text: string, out: Path, lang: string, svc: Services): Speech
  {
    if Strip(text) == [] then Speech([], Fail(SpeechFailed(NoText)))
    else Finish(SpeakFrom(Chunks(text, SpeechChunk), 0, lang, svc), out)
  }

  /** After the loop: the buffer is exported if every chunk succeeded. */
  function Finish(run: SpeechRun, out: Path): Speech
  {
    match run.audio
    case Ok(segments) => Speech(run.events + [Wrote(out, ExportedAudio(segments))], Pass)
    case Err(i) => Speech(run.events, Fail(SpeechFailed(ChunkFailed(i))))
  }

  /** The three ways one pass of the loop body can go. */
  lemma ChunkEventsCases(svc: Services, chunk: string, i: nat, lang: string)
    ensures var call := Invoked(SynthesizeChunk(chunk, lang));
      var mp3 := svc.synthesize(chunk, lang);
      var e := ChunkEvents(svc, chunk, i, lang);
      && (mp3.None? ==> e == [call])
      && (mp3.Some? && svc.decode(Mp3Data(mp3.value)).None? ==>
            e == [call, Wrote(TempName(i), Mp3Data(mp3.value))])
      && (mp3.Some? && svc.decode(Mp3Data(mp3.value)).Some? ==>
            e == [call, Wrote(TempName(i), Mp3Data(mp3.value)), Removed(TempName(i))])
  {
    var call := Invoked(SynthesizeChunk(chunk, lang));
    var mp3 := svc.synthesize(chunk, lang);
    if mp3.Some? {
      var saved := [call, Wrote(TempName(i), Mp3Data(mp3.value))];
      assert saved + [] == saved;
      assert saved + [Removed(TempName(i))] == [call, Wrote(TempName(i), Mp3Data(mp3.value)), Removed(TempName(i))];
    }
  }

  /** What one pass of the loop body does to the disk. */
  lemma ChunkEventsEffect(files: map<Path, Content>, svc: Services, chunk: string, i: nat, lang: string)
    ensures var mp3 := svc.synthesize(chunk, lang);
      var t := TempName(i);
      var after := Replay(files, ChunkEvents(svc, chunk, i, lang));
      && (mp3.None? ==> after == files)
      && (mp3.Some? && svc.decode(Mp3Data(mp3.value)).None? ==> after == files[t := Mp3Data(mp3.value)])
      && (mp3.Some? && svc.decode(Mp3Data(mp3.value)).Some? ==> after == files[t := Mp3Data(mp3.value)] - {t})
  {
    ChunkEventsCases(svc, chunk, i, lang);
    var call := Invoked(SynthesizeChunk(chunk, lang));
    var mp3 := svc.synthesize(chunk, lang);
    ReplayOne(files, call);
    if mp3.Some? {
      var t := TempName(i);
      ChunkEffects(files, call, t, Mp3Data(mp3.value));
      ReplaySnoc(files, [call], Wrote(t, Mp3Data(mp3.value)));
      assert [call] + [Wrote(t, Mp3Data(mp3.value))] == [call, Wrote(t, Mp3Data(mp3.value))];
    }
  }

  lemma SpeakFromStep(chunks: seq<string>, i: nat, lang: string, svc: Services)
    requires i < |chunks|
    ensures var head := ChunkEvents(svc, chunks[i], i, lang);
      var r := SpeakFrom(chunks, i, lang, svc);
      var audio := ChunkAudio(svc, chunks[i], lang);
      && (audio.None? ==> r == SpeechRun(head, Err(i)))
      && (audio.Some? ==> r == Prepend(head, [audio.value], SpeakFrom(chunks, i + 1, lang, svc)))
  {
  }

  lemma PrependAssoc(a: seq<Event>, s: seq<Segment>, b: seq<Event>, t: seq<Segment>, run: SpeechRun)
    ensures Prepend(a, s, Prepend(b, t, run)) == Prepend(a + b, s + t, run)
  {
    assert a + (b + run.events) == (a + b) + run.events;
    if run.audio.Ok? {
      assert s + (t + run.audio.value) == (s + t) + run.audio.value;
    }
  }

  lemma PrependNil(run: SpeechRun)
    ensures Prepend([], [], run) == run
  {
    assert [] + run.events == run.events;
    if run.audio.Ok? {
      assert [] + run.audio.value == run.audio.value;
    }
  }

  /** `text_to_speech`: the disk and the history end up as `Speak` says. */
  method TextToSpeech(ws: Workspace, svc: Services, text: string, out: Path, lang: string)
    returns (r: Outcome<Failure>)
    modifies ws
    ensures r == Speak(text, out, lang, svc).outcome
    ensures ws.log == old(ws.log) + Speak(text, out, lang, svc).events
    ensures ws.files == Replay(old(ws.files), Speak(text, out, lang, svc).events)
  {
    if Strip(text) == [] {
      return Fail(SpeechFailed(NoText));
    }
    var chunks := Chunks(text, SpeechChunk);
    var audio := SpeakChunks(ws, svc, chunks, lang);
    ghost var run := SpeakFrom(chunks, 0, lang, svc);
    if audio.Err? {
      return Fail(SpeechFailed(ChunkFailed(audio.error)));
    }
    ws.Write(out, ExportedAudio(audio.value));
    ReplaySnoc(old(ws.files), run.events, Wrote(out, ExportedAudio(audio.value)));
    return Pass;
  }

  /** The loop over the chunks, appending each chunk's audio to the buffer;
      the first chunk that fails ends it. */
  method SpeakChunks(ws: Workspace, svc: Services, chunks: seq<string>, lang: string)
    returns (audio: Result<seq<Segment>, nat>)
    modifies ws
    ensures audio == SpeakFrom(chunks, 0, lang, svc).audio
    ensures ws.log == old(ws.log) + SpeakFrom(chunks, 0, lang, svc).events
    ensures ws.files == Replay(old(ws.files), SpeakFrom(chunks, 0, lang, svc).events)
  {
    var combined: seq<Segment> := [];
    ghost var done: seq<Event> := [];
    PrependNil(SpeakFrom(chunks, 0, lang, svc));
    for i := 0 to |chunks|
      invariant ws.log == old(ws.log) + done
      invariant ws.files == Replay(old(ws.files), done)
      invariant SpeakFrom(chunks, 0, lang, svc) == Prepend(done, combined, SpeakFrom(chunks, i, lang, svc))
    {
      var segment := SpeakChunk(ws, svc, chunks[i], i, lang);
      ghost var head := ChunkEvents(svc, chunks[i], i, lang);
      LoopStep(chunks, i, lang, svc, done, combined, old(ws.files));
      ConcatAssoc(old(ws.log), done, head);
      if segment.None? {
        return Err(i);
      }
      combined := combined + [segment.value];
      done := done + head;
    }
    assert done + [] == done && combined + [] == combined;
    return Ok(combined);
  }

  /** One pass of the loop body: synthesise chunk `i` with gTTS, save it as
      `temp_tts_<i>.mp3`, read it back with pydub and remove the file. A
      failing step ends the pass early. */
  method SpeakChunk(ws: Workspace, svc: Services, chunk: string, i: nat, lang: string)
    returns (audio: Option<Segment>)
    modifies ws
    ensures audio == ChunkAudio(svc, chunk, lang)
    ensures ws.log == old(ws.log) + ChunkEvents(svc, chunk, i, lang)
    ensures ws.files == Replay(old(ws.files), ChunkEvents(svc, chunk, i, lang))
  {
    ChunkEventsCases(svc, chunk, i, lang);
    ChunkEventsEffect(ws.files, svc, chunk, i, lang);
    var temp := TempName(i);
    ws.Record(Invoked(SynthesizeChunk(chunk, lang)));
    var mp3 := svc.synthesize(chunk, lang);
    if mp3.None? {
      return None;
    }
    ws.Write(temp, Mp3Data(mp3.value));
    var stored := ws.Read(temp);
    audio := svc.decode(stored.value);
    if audio.Some? {
      var removed := ws.Remove(temp);
    }
  }

  /** The loop invariant carries over one pass of the body, or the pass is
      the one that fails. */
  lemma LoopStep(chunks: seq<string>, i: nat, lang: string, svc: Services,
                 done: seq<Event>, combined: seq<Segment>, files: map<Path, Content>)
    requires i < |chunks|
    requires SpeakFrom(chunks, 0, lang, svc) == Prepend(done, combined, SpeakFrom(chunks, i, lang, svc))
    ensures var head := ChunkEvents(svc, chunks[i], i, lang);
      var audio := ChunkAudio(svc, chunks[i], lang);
      && Replay(files, done + head) == Replay(Replay(files, done), head)
      && (audio.None? ==> SpeakFrom(chunks, 0, lang, svc) == SpeechRun(done + head, Err(i)))
      && (audio.Some? ==>
            SpeakFrom(chunks, 0, lang, svc) == Prepend(done + head, combined + [audio.value], SpeakFrom(chunks, i + 1, lang, svc)))
  {
    var head := ChunkEvents(svc, chunks[i], i, lang);
    SpeakFromStep(chunks, i, lang, svc);
    ReplayAppend(files, done, head);
    var audio := ChunkAudio(svc, chunks[i], lang);
    if audio.Some? {
      PrependAssoc(done, combined, head, [audio.value], SpeakFrom(chunks, i + 1, lang, svc));
    } else {
      assert done + (head + []) == done + head;
    }
  }

  // ---------------------------------------------------------------------
  // What the loop leaves behind

  /** `temp_tts_<i>.mp3`, …, `temp_tts_<n-1>.mp3` in order. */
  function TempSeq(i: nat, n: nat): seq<Path>
    requires i <= n
  {
    seq(n - i, k requires 0 <= k < n - i => TempName(i + k))
  }

  function TempRange(i: nat, n: nat): set<Path>
  {
    set k | i <= k < n :: TempName(k)
  }

  lemma TempSeqCons(i: nat, n: nat)
    requires i < n
    ensures TempSeq(i, n) == [TempName(i)] + TempSeq(i + 1, n)
  {
  }

  lemma TempRangeCons(i: nat, n: nat)
    requires i < n
    ensures TempRange(i, n) == {TempName(i)} + TempRange(i + 1, n)
  {
  }

  /** An event `text_to_speech` may leave: a gTTS call in `lang`, MP3 data
      written to one of the temporary files `temps`, the removal of one of
      them, or the exported buffer written to `out`. */
  ghost predicate SpeechEvent(e: Event, lang: string, temps: set<Path>, out: Path)
  {
    || (e.Invoked? && e.step.SynthesizeChunk? && e.step.lang == lang)
    || (e.Wrote? && e.path in temps && e.content.Mp3Data?)
    || (e.Removed? && e.path in temps)
    || (e.Wrote? && e.path == out && e.content.ExportedAudio?)
  }

  ghost predicate AllSpeechEvents(events: seq<Event>, lang: string, temps: set<Path>, out: Path)
  {
    forall j :: 0 <= j < |events| ==> SpeechEvent(events[j], lang, temps, out)
  }

  lemma AllSpeechEventsWiden(events: seq<Event>, lang: string, temps: set<Path>, more: set<Path>, out: Path)
    requires AllSpeechEvents(events, lang, temps, out) && temps <= more
    ensures AllSpeechEvents(events, lang, more, out)
  {
    forall j | 0 <= j < |events|
      ensures SpeechEvent(events[j], lang, more, out)
    {
      assert SpeechEvent(events[j], lang, temps, out);
    }
  }

  /** The chunk loop from `i` on only calls gTTS in `lang`, writes MP3 data
      to `temp_tts_<k>.mp3` for k >= i and removes those files. */
  lemma {:induction false} SpeakFromEvents(chunks: seq<string>, i: nat, lang: string, svc: Services, out: Path)
    requires i <= |chunks|
    ensures AllSpeechEvents(SpeakFrom(chunks, i, lang, svc).events, lang, TempRange(i, |chunks|), out)
    decreases |chunks| - i
  {
    if i < |chunks| {
      var n := |chunks|;
      SpeakFromStep(chunks, i, lang, svc);
      ChunkEventsCases(svc, chunks[i], i, lang);
      TempRangeCons(i, n);
      assert TempName(i) in TempRange(i, n);
      var r := SpeakFrom(chunks, i, lang, svc);
      var mp3 := svc.synthesize(chunks[i], lang);
      if mp3.Some? && svc.decode(Mp3Data(mp3.value)).Some? {
        var rest := SpeakFrom(chunks, i + 1, lang, svc);
        SpeakFromEvents(chunks, i + 1, lang, svc, out);
        AllSpeechEventsWiden(rest.events, lang, TempRange(i + 1, n), TempRange(i, n), out);
        forall j | 0 <= j < |r.events|
          ensures SpeechEvent(r.events[j], lang, TempRange(i, n), out)
        {
          if j >= 3 {
            assert r.events[j] == rest.events[j - 3];
          }
        }
      }
    }
  }

  /** A loop where every chunk succeeds writes and then removes every
      temporary file, in chunk order, and so leaves none behind. */
  lemma {:induction false} SpeakFromSuccess(chunks: seq<string>, i: nat, lang: string, svc: Services,
                                            files: map<Path, Content>)
    requires i <= |chunks|
    requires SpeakFrom(chunks, i, lang, svc).audio.Ok?
    ensures var r := SpeakFrom(chunks, i, lang, svc);
      && Written(r.events) == TempSeq(i, |chunks|)
      && Deleted(r.events) == TempSeq(i, |chunks|)
      && Replay(files, r.events) == files - TempRange(i, |chunks|)
    decreases |chunks| - i
  {
    var n := |chunks|;
    if i == n {
      assert TempRange(i, n) == {};
    } else {
      SpeakFromStep(chunks, i, lang, svc);
      assert ChunkAudio(svc, chunks[i], lang).Some?;
      ChunkEventsCases(svc, chunks[i], i, lang);
      var call := Invoked(SynthesizeChunk(chunks[i], lang));
      var c := Mp3Data(svc.synthesize(chunks[i], lang).value);
      var t := TempName(i);
      var head := ChunkEvents(svc, chunks[i], i, lang);
      assert head == [call, Wrote(t, c), Removed(t)];
      ChunkEffects(files, call, t, c);
      var rest := SpeakFrom(chunks, i + 1, lang, svc);
      SpeakFromSuccess(chunks, i + 1, lang, svc, files[t := c] - {t});
      WrittenDeletedAppend(head, rest.events);
      ReplayAppend(files, head, rest.events);
      TempSeqCons(i, n);
      TempRangeCons(i, n);
      RemoveStep(files, t, c, TempRange(i + 1, n));
    }
  }

  /** Writing and then removing `t`, then removing `range`, removes `{t} + range`. */
  lemma RemoveStep(files: map<Path, Content>, t: Path, c: Content, range: set<Path>)
    ensures (files[t := c] - {t}) - range == files - ({t} + range)
  {
  }

  /** What one successful chunk does to the disk: its temporary file is
      written and then removed. */
  lemma ChunkEffects(files: map<Path, Content>, call: Event, t: Path, c: Content)
    requires call.Invoked?
    ensures var head := [call, Wrote(t, c), Removed(t)];
      && Written(head) == [t] && Deleted(head) == [t]
      && Replay(files, head) == files[t := c] - {t}
  {
    var head := [call, Wrote(t, c), Removed(t)];
    assert head == [call] + [Wrote(t, c)] + [Removed(t)];
    WrittenDeletedAppend([call] + [Wrote(t, c)], [Removed(t)]);
    WrittenDeletedAppend([call], [Wrote(t, c)]);
    WrittenDeletedOne(call);
    WrittenDeletedOne(Wrote(t, c));
    WrittenDeletedOne(Removed(t));
    ReplayOne(files, call);
    ReplaySnoc(files, [call], Wrote(t, c));
    ReplaySnoc(files, [call] + [Wrote(t, c)], Removed(t));
  }

  /** Every write among `events` saves an mp3 to one of `paths`. */
  ghost predicate WritesOnlyMp3To(events: seq<Event>, paths: set<Path>)
  {
    forall j :: 0 <= j < |events| && events[j].Wrote? ==>
      events[j].content.Mp3Data? && events[j].path in paths
  }

  /** A loop that fails at some chunk writes only mp3 files, and only to
      temporary paths: no other file changes. */
  lemma {:induction false} SpeakFromFailure(chunks: seq<string>, i: nat, lang: string, svc: Services,
                                            files: map<Path, Content>)
    requires i <= |chunks|
    requires SpeakFrom(chunks, i, lang, svc).audio.Err?
    ensures WritesOnlyMp3To(SpeakFrom(chunks, i, lang, svc).events, TempRange(i, |chunks|))
    ensures Replay(files, SpeakFrom(chunks, i, lang, svc).events) - TempRange(i, |chunks|)
         == files - TempRange(i, |chunks|)
    decreases |chunks| - i
  {
    var n := |chunks|;
    var t := TempName(i);
    var range := TempRange(i, n);
    SpeakFromStep(chunks, i, lang, svc);
    ChunkEventsCases(svc, chunks[i], i, lang);
    ChunkEventsEffect(files, svc, chunks[i], i, lang);
    TempRangeCons(i, n);
    assert t in range;
    var head := ChunkEvents(svc, chunks[i], i, lang);
    var r := SpeakFrom(chunks, i, lang, svc);
    var mp3 := svc.synthesize(chunks[i], lang);
    if mp3.Some? {
      var c := Mp3Data(mp3.value);
      UpdateInsideRange(files, t, c, range);
      if svc.decode(c).Some? {
        var rest := SpeakFrom(chunks, i + 1, lang, svc);
        var mid := files[t := c] - {t};
        SpeakFromFailure(chunks, i + 1, lang, svc, mid);
        ReplayAppend(files, head, rest.events);
        var after := Replay(files, r.events);
        MapMinusUnion(after, TempRange(i + 1, n), {t});
        MapMinusUnion(mid, TempRange(i + 1, n), {t});
        MapMinusUnion(files[t := c], {t}, TempRange(i + 1, n));
        MapMinusUnion(files, {t}, TempRange(i + 1, n));
        assert range == TempRange(i + 1, n) + {t};
        forall j | 0 <= j < |r.events| && r.events[j].Wrote?
          ensures r.events[j].content.Mp3Data? && r.events[j].path in range
        {
          if j >= 3 {
            assert r.events[j] == rest.events[j - 3];
          }
        }
      }
    }
  }

  /** Overwriting a path inside `range` is invisible outside `range`. */
  lemma UpdateInsideRange(files: map<Path, Content>, t: Path, c: Content, range: set<Path>)
    requires t in range
    ensures files[t := c] - range == files - range
    ensures (files[t := c] - {t}) - range == files - range
  {
  }

  lemma WrittenDeletedOne(e: Event)
    ensures Written([e]) == (if e.Wrote? then [e.path] else [])
    ensures Deleted([e]) == (if e.Removed? then [e.path] else [])
  {
    assert [e][1..] == [];
  }

  lemma MapMinusUnion(m: map<Path, Content>, a: set<Path>, b: set<Path>)
    ensures (m - a) - b == m - (a + b)
    ensures m - (a + b) == m - (b + a)
  {
    assert a + b == b + a;
  }

  // ---------------------------------------------------------------------
  // Properties of text_to_speech

  /** The decoded audio of every chunk of `text`, in chunk order. */
  ghost predicate SpokenChunks(text: string, lang: string, svc: Services, segments: seq<Segment>)
  {
    var chunks := Chunks(text, SpeechChunk);
    && |segments| == |chunks|
    && forall k :: 0 <= k < |chunks| ==> ChunkAudio(svc, chunks[k], lang) == Some(segments[k])
  }

  /** Empty or whitespace-only text fails before any synthesis call and
      touches no file. */
  lemma SpeakBlank(text: string, out: Path, lang: string, svc: Services)
    requires IsBlank(text)
    ensures Speak(text, out, lang, svc) == Speech([], Fail(SpeechFailed(NoText)))
  {
    StripEmptyIffBlank(text);
  }

  /** Synthesis succeeds exactly when the text is not blank and every chunk
      is synthesised and decoded. */
  lemma SpeakSucceedsIff(text: string, out: Path, lang: string, svc: Services)
    ensures var chunks := Chunks(text, SpeechChunk);
      Speak(text, out, lang, svc).outcome.Pass? <==>
        !IsBlank(text) && forall k :: 0 <= k < |chunks| ==> ChunkAudio(svc, chunks[k], lang).Some?
  {
    StripEmptyIffBlank(text);
    SpeakFromAudio(Chunks(text, SpeechChunk), 0, lang, svc);
  }

  /** On success the loop makes ceil(len(text) / 100) different temporary
      files `temp_tts_0.mp3` … in chunk order and removes each of them, and
      the exported file holds the chunks' audio in chunk order. */
  lemma SpeakSuccess(text: string, out: Path, lang: string, svc: Services,
                     segments: seq<Segment>, files: map<Path, Content>)
    requires !IsBlank(text) && SpokenChunks(text, lang, svc, segments)
    ensures var spoken := Speak(text, out, lang, svc);
      var k := CeilDiv(|text|, SpeechChunk);
      && spoken.outcome == Pass
      && Written(spoken.events) == TempSeq(0, k) + [out]
      && Deleted(spoken.events) == TempSeq(0, k)
      && |TempNames(k)| == k
      && Replay(files, spoken.events) == (files - TempNames(k))[out := ExportedAudio(segments)]
  {
    StripEmptyIffBlank(text);
    var chunks := Chunks(text, SpeechChunk);
    var n := |chunks|;
    ChunksCount(text, SpeechChunk);
    var run := SpeakFrom(chunks, 0, lang, svc);
    SpokenRun(text, lang, svc, segments);
    SpeakFromSuccess(chunks, 0, lang, svc, files);
    FinishSuccess(run, out, files, TempSeq(0, n), TempRange(0, n));
    assert TempRange(0, n) == TempNames(n);
    TempNamesCount(n);
  }

  /** The loop yields exactly the chunks' audio. */
  lemma SpokenRun(text: string, lang: string, svc: Services, segments: seq<Segment>)
    requires SpokenChunks(text, lang, svc, segments)
    ensures SpeakFrom(Chunks(text, SpeechChunk), 0, lang, svc).audio == Ok(segments)
  {
    var chunks := Chunks(text, SpeechChunk);
    SpeakFromAudio(chunks, 0, lang, svc);
    var run := SpeakFrom(chunks, 0, lang, svc);
    assert run.audio.value == segments;
  }

  /** Exporting the buffer after a successful loop adds one write, to `out`. */
  lemma FinishSuccess(run: SpeechRun, out: Path, files: map<Path, Content>, temps: seq<Path>, range: set<Path>)
    requires run.audio.Ok?
    requires Written(run.events) == temps && Deleted(run.events) == temps
    requires Replay(files, run.events) == files - range
    ensures var spoken := Finish(run, out);
      && spoken.outcome == Pass
      && Written(spoken.events) == temps + [out]
      && Deleted(spoken.events) == temps
      && Replay(files, spoken.events) == (files - range)[out := ExportedAudio(run.audio.value)]
  {
    var last := Wrote(out, ExportedAudio(run.audio.value));
    WrittenDeletedAppend(run.events, [last]);
    WrittenDeletedOne(last);
    ReplaySnoc(files, run.events, last);
    assert temps + [] == temps;
  }

  /** After a successful call none of the temporary files is on disk (the
      output path aside). */
  lemma SpeakLeavesNoTempFiles(text: string, out: Path, lang: string, svc: Services,
                               segments: seq<Segment>, files: map<Path, Content>, i: nat)
    requires !IsBlank(text) && SpokenChunks(text, lang, svc, segments)
    requires i < CeilDiv(|text|, SpeechChunk) && TempName(i) != out
    ensures TempName(i) !in Replay(files, Speak(text, out, lang, svc).events)
  {
    SpeakSuccess(text, out, lang, svc, segments, files);
    assert TempName(i) in TempNames(CeilDiv(|text|, SpeechChunk));
  }

  /** A failed call never exports: it writes nothing but mp3 files on
      temporary paths and leaves every other file as it was. */
  lemma SpeakFailure(text: string, out: Path, lang: string, svc: Services, files: map<Path, Content>)
    requires Speak(text, out, lang, svc).outcome.Fail?
    ensures Speak(text, out, lang, svc).outcome.error.SpeechFailed?
    ensures WritesOnlyMp3To(Speak(text, out, lang, svc).events, TempNames(CeilDiv(|text|, SpeechChunk)))
    ensures var k := CeilDiv(|text|, SpeechChunk);
      Replay(files, Speak(text, out, lang, svc).events) - TempNames(k) == files - TempNames(k)
  {
    var chunks := Chunks(text, SpeechChunk);
    var n := |chunks|;
    ChunksCount(text, SpeechChunk);
    assert TempRange(0, n) == TempNames(n);
    if Strip(text) != [] {
      var run := SpeakFrom(chunks, 0, lang, svc);
      assert run.audio.Err?;
      assert Speak(text, out, lang, svc) == Speech(run.events, Fail(SpeechFailed(ChunkFailed(run.audio.error))));
      SpeakFromFailure(chunks, 0, lang, svc, files);
    }
  }

  /** `text_to_speech` only calls gTTS in `lang`, writes MP3 data to its
      ceil(len / 100) temporary files, removes them, and writes the exported
      buffer to `out`. */
  lemma SpeakEvents(text: string, out: Path, lang: string, svc: Services)
    ensures AllSpeechEvents(Speak(text, out, lang, svc).events, lang, TempNames(CeilDiv(|text|, SpeechChunk)), out)
  {
    if Strip(text) != [] {
      var chunks := Chunks(text, SpeechChunk);
      var n := CeilDiv(|text|, SpeechChunk);
      ChunksCount(text, SpeechChunk);
      SpeakFromEvents(chunks, 0, lang, svc, out);
      assert TempRange(0, n) == TempNames(n);
      FinishEvents(SpeakFrom(chunks, 0, lang, svc), out, lang, TempNames(n));
    }
  }

  lemma FinishEvents(run: SpeechRun, out: Path, lang: string, temps: set<Path>)
    requires AllSpeechEvents(run.events, lang, temps, out)
    ensures AllSpeechEvents(Finish(run, out).events, lang, temps, out)
  {
    var spoken := Finish(run, out);
    forall j | 0 <= j < |spoken.events|
      ensures SpeechEvent(spoken.events[j], lang, temps, out)
    {
      if j < |run.events| {
        assert spoken.events[j] == run.events[j];
      }
    }
  }
}
