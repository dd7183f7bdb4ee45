/** `translate_text`: the transcript is cut into 500-character chunks, each
    chunk is sent to the translation service in order, and the translated
    chunks are joined with single spaces. The first chunk whose call raises
    fails the whole translation; no partial text is returned. */
module Translation {
  import opened Outcomes
  import opened Text

  /** `max_chunk` of the translator. */
  const TranslationChunk: nat := 500

  /** `GoogleTranslator(source='auto', target=lang).translate(chunk)`:
      `None` stands for a call that raises. */
  type Translator = (string, string) -> Option<string>

  /** A result together with the chunks that were passed to the service,
      in call order. */
  datatype Traced<T> = Traced(result: Option<T>, calls: seq<string>)

  /** The list comprehension over the chunks: calls are made in chunk order
      and the first call that raises ends the comprehension. */
  function TranslateAll(chunks: seq<string>, lang: string, tr: Translator): (r: Traced<seq<string>>)
    ensures r.result.Some? <==> forall k :: 0 <= k < |chunks| ==> tr(chunks[k], lang).Some?
    ensures r.result.Some? ==>
      && r.calls == chunks
      && |r.result.value| == |chunks|
      && forall k :: 0 <= k < |chunks| ==> r.result.value[k] == tr(chunks[k], lang).value
    ensures r.result.None? ==>
      && 0 < |r.calls| <= |chunks|
      && r.calls == chunks[..|r.calls|]
      && tr(chunks[|r.calls| - 1], lang).None?
      && forall k :: 0 <= k < |r.calls| - 1 ==> tr(chunks[k], lang).Some?
  {
    if chunks == [] then Traced(Some([]), [])
    else
      match tr(chunks[0], lang)
      case None => Traced(None, [chunks[0]])
      case Some(t) =>
        var rest := TranslateAll(chunks[1..], lang, tr);
        Traced(if rest.result.Some? then Some([t] + rest.result.value) else None,
               [chunks[0]] + rest.calls)
  }

  /** The translated text and the chunks sent to the service. */
  datatype Translation = Translation(result: Result<string, Failure>, calls: seq<string>)

  /** `translate_text(text, target_language=lang)`: it fails, with
      `TranslationFailed`, exactly when some chunk's call raises, and the
      chunks it sent are the first ones of the text, in order. */
  function TranslateText(text: string, lang: string, tr: Translator): (r: Translation)
    ensures var chunks := Chunks(text, TranslationChunk);
      && (r.result.Ok? <==> forall k :: 0 <= k < |chunks| ==> tr(chunks[k], lang).Some?)
      && (r.result.Err? ==> r.result.error == TranslationFailed)
      && |r.calls| <= |chunks| && r.calls == chunks[..|r.calls|]
  {
    var run := TranslateAll(Chunks(text, TranslationChunk), lang, tr);
    Translation(if run.result.Some? then Ok(Join(" ", run.result.value)) else Err(TranslationFailed),
                run.calls)
  }

  /** The translation of every chunk, in chunk order. */
  ghost predicate TranslatedChunks(text: string, lang: string, tr: Translator, parts: seq<string>)
  {
    var chunks := Chunks(text, TranslationChunk);
    && |parts| == |chunks|
    && forall k :: 0 <= k < |chunks| ==> tr(chunks[k], lang) == Some(parts[k])
  }

  /** Translating the empty text calls the service zero times and gives the
      empty text. */
  lemma TranslateEmpty(lang: string, tr: Translator)
    ensures TranslateText([], lang, tr) == Translation(Ok([]), [])
  {
    ChunksOfEmpty(TranslationChunk);
  }

  /** Translation succeeds exactly when every chunk's call does; it then
      calls the service once per chunk, ceil(len(text) / 500) times, in chunk
      order, and returns the chunk translations joined by single spaces. */
  lemma TranslateSuccess(text: string, lang: string, tr: Translator)
    ensures var r := TranslateText(text, lang, tr);
      var chunks := Chunks(text, TranslationChunk);
      && (r.result.Ok? <==> forall k :: 0 <= k < |chunks| ==> tr(chunks[k], lang).Some?)
      && (r.result.Ok? ==>
            && r.calls == chunks
            && |r.calls| == CeilDiv(|text|, TranslationChunk)
            && exists parts :: TranslatedChunks(text, lang, tr, parts) && r.result.value == Join(" ", parts))
  {
    var chunks := Chunks(text, TranslationChunk);
    var run := TranslateAll(chunks, lang, tr);
    ChunksCount(text, TranslationChunk);
    if run.result.Some? {
      assert TranslatedChunks(text, lang, tr, run.result.value);
    }
  }

  /** A failing chunk fails the whole translation with no text: the service
      was called for the chunks up to the first failing one and no further. */
  lemma TranslateFailure(text: string, lang: string, tr: Translator, k: nat)
    requires k < |Chunks(text, TranslationChunk)|
    requires tr(Chunks(text, TranslationChunk)[k], lang).None?
    ensures var r := TranslateText(text, lang, tr);
      var chunks := Chunks(text, TranslationChunk);
      && r.result == Err(TranslationFailed)
      && 0 < |r.calls| <= k + 1
      && r.calls == chunks[..|r.calls|]
      && tr(chunks[|r.calls| - 1], lang).None?
  {
  }

  /** When no translated chunk contains a space, splitting the translation on
      spaces gives back the chunk translations in chunk order. */
  lemma TranslationKeepsOrder(text: string, lang: string, tr: Translator, parts: seq<string>)
    requires text != []
    requires TranslatedChunks(text, lang, tr, parts)
    requires forall k :: 0 <= k < |parts| ==> ' ' !in parts[k]
    ensures TranslateText(text, lang, tr).result == Ok(Join(" ", parts))
    ensures Split(Join(" ", parts), ' ') == parts
  {
    var chunks := Chunks(text, TranslationChunk);
    ChunksCount(text, TranslationChunk);
    var run := TranslateAll(chunks, lang, tr);
    assert run.result.value == parts;
    SplitJoin(parts, ' ');
  }
}
