/** Character-level text handling used by translation and speech synthesis:
    fixed-size chunking (a slice taken every `size` characters, as a list
    comprehension over `range(0, len(text), size)` does), reassembly by
    concatenation or by joining with a separator, and whitespace stripping
    as Python's `str.strip()` does it. */
module Text {

  function Min(a: int, b: int): int { if a <= b then a else b }

  /** Python's `-(-n // c)`: the number of values in `range(0, n, c)`. */
  function CeilDiv(n: nat, c: nat): nat
    requires c > 0
  {
    (n + c - 1) / c
  }

  /** `[text[i:i + size] for i in range(lo, len(text), size)]`: Python's slice
      clamps its end at the length, so only the last piece can be short. */
  function ChunksFrom(text: string, size: nat, lo: nat): seq<string>
    requires size > 0
    decreases |text| - lo
  {
    if lo >= |text| then []
    else [text[lo..Min(lo + size, |text|)]] + ChunksFrom(text, size, lo + size)
  }

  function Chunks(text: string, size: nat): seq<string>
    requires size > 0
  {
    ChunksFrom(text, size, 0)
  }

  /** `''.join(parts)`. */
  function Concat(parts: seq<string>): string
  {
    if parts == [] then [] else parts[0] + Concat(parts[1..])
  }

  /** `sep.join(parts)`: the separator goes between neighbours only, and
      joining no parts gives the empty string. */
  function Join(sep: string, parts: seq<string>): string
  {
    if |parts| == 0 then []
    else if |parts| == 1 then parts[0]
    else parts[0] + sep + Join(sep, parts[1..])
  }

  /** `s.split(c)` for a one-character separator: every occurrence of `c`
      ends a piece, so the result always has at least one piece. */
  function Split(s: string, c: char): (r: seq<string>)
    ensures |r| > 0
  {
    if |s| == 0 then [[]]
    else
      var rest := Split(s[1..], c);
      if s[0] == c then [[]] + rest
      else [[s[0]] + rest[0]] + rest[1..]
  }

  // ---------------------------------------------------------------------
  // Chunking

  lemma {:induction false} ChunksFromConcat(text: string, size: nat, lo: nat)
    requires size > 0 && lo <= |text|
    ensures Concat(ChunksFrom(text, size, lo)) == text[lo..]
    decreases |text| - lo
  {
    if lo < |text| {
      var hi := Min(lo + size, |text|);
      if lo + size < |text| {
        ChunksFromConcat(text, size, lo + size);
      }
      calc {
        Concat(ChunksFrom(text, size, lo));
        text[lo..hi] + Concat(ChunksFrom(text, size, lo + size));
        text[lo..hi] + text[hi..];
        text[lo..];
      }
    }
  }

  /** Concatenating the chunks gives back the text: they cover it exactly
      once, in order. */
  lemma ChunksConcat(text: string, size: nat)
    requires size > 0
    ensures Concat(Chunks(text, size)) == text
  {
    ChunksFromConcat(text, size, 0);
  }

  lemma {:induction false} ChunksFromAt(text: string, size: nat, lo: nat, k: nat)
    requires size > 0 && k < |ChunksFrom(text, size, lo)|
    ensures lo + k * size < |text|
    ensures ChunksFrom(text, size, lo)[k] == text[lo + k * size..Min(lo + k * size + size, |text|)]
    decreases k
  {
    if k > 0 {
      assert lo < |text|;
      var rest := ChunksFrom(text, size, lo + size);
      assert ChunksFrom(text, size, lo)[k] == rest[k - 1];
      ChunksFromAt(text, size, lo + size, k - 1);
      assert (k - 1) * size + size == k * size by {
        MulSucc(k - 1, size);
      }
    }
  }

  /** The k-th chunk is `text[k*size : k*size + size]`, as the comprehension
      over `range(0, len(text), size)` produces it. */
  lemma ChunkAt(text: string, size: nat, k: nat)
    requires size > 0 && k < |Chunks(text, size)|
    ensures k * size < |text|
    ensures Chunks(text, size)[k] == text[k * size..Min(k * size + size, |text|)]
  {
    ChunksFromAt(text, size, 0, k);
  }

  lemma {:induction false} ChunksFromCount(text: string, size: nat, lo: nat)
    requires size > 0 && lo <= |text|
    ensures var n := |ChunksFrom(text, size, lo)|;
      |text| - lo <= n * size && (n == 0 || (n - 1) * size < |text| - lo)
    decreases |text| - lo
  {
    var n := |ChunksFrom(text, size, lo)|;
    if lo < |text| {
      if lo + size < |text| {
        ChunksFromCount(text, size, lo + size);
        assert n * size == (n - 1) * size + size;
      } else {
        assert ChunksFrom(text, size, lo + size) == [];
      }
    }
  }

  lemma DivUnique(m: nat, c: nat, q: nat)
    requires c > 0 && q * c <= m < q * c + c
    ensures m / c == q
  {
    var d, r := m / c, m % c;
    assert m == d * c + r && 0 <= r < c;
    if d < q {
      MulMonotone(d + 1, q, c);
      assert false;
    }
    if q < d {
      MulMonotone(q + 1, d, c);
      assert false;
    }
  }

  lemma MulSucc(a: nat, c: nat)
    ensures (a + 1) * c == a * c + c
  {
  }

  lemma MulMonotone(a: nat, b: nat, c: nat)
    requires a <= b
    ensures a * c <= b * c
  {
  }

  /** The number of chunks is ceil(len(text) / size). */
  lemma ChunksCount(text: string, size: nat)
    requires size > 0
    ensures |Chunks(text, size)| == CeilDiv(|text|, size)
  {
    var n := |Chunks(text, size)|;
    ChunksFromCount(text, size, 0);
    if n > 0 {
      DivUnique(|text| + size - 1, size, n);
    }
  }

  /** No chunk is empty, none is longer than `size`, and every chunk but
      the last has exactly `size` characters. */
  lemma ChunkLengths(text: string, size: nat)
    requires size > 0
    ensures var r := Chunks(text, size);
      && (forall k :: 0 <= k < |r| ==> 0 < |r[k]| <= size)
      && (forall k :: 0 <= k < |r| - 1 ==> |r[k]| == size)
  {
    var r := Chunks(text, size);
    forall k | 0 <= k < |r|
      ensures 0 < |r[k]| <= size
      ensures k < |r| - 1 ==> |r[k]| == size
    {
      ChunkAt(text, size, k);
      if k < |r| - 1 {
        ChunkAt(text, size, k + 1);
        assert k * size + size == (k + 1) * size;
      }
    }
  }

  lemma ChunksOfEmpty(size: nat)
    requires size > 0
    ensures Chunks([], size) == []
  {
  }

  // ---------------------------------------------------------------------
  // Joining and splitting

  /** Joining parts that do not contain the separator character can be
      undone by splitting on it: the join keeps every part, in order. */
  lemma {:induction false} SplitJoin(parts: seq<string>, c: char)
    requires |parts| > 0
    requires forall k :: 0 <= k < |parts| ==> c !in parts[k]
    ensures Split(Join([c], parts), c) == parts
    decreases |parts|
  {
    var p := parts[0];
    if |parts| == 1 {
      SplitPlain(p, [], c);
      assert p + [] == p;
      assert Split([], c) == [[]];
    } else {
      var tail := Join([c], parts[1..]);
      assert forall k :: 0 <= k < |parts| - 1 ==> parts[1..][k] == parts[k + 1];
      SplitJoin(parts[1..], c);
      var s := Split([c] + tail, c);
      assert ([c] + tail)[1..] == tail;
      assert s == [[]] + parts[1..];
      SplitPlain(p, [c] + tail, c);
      assert Join([c], parts) == p + ([c] + tail);
      assert s[0] == [] && s[1..] == parts[1..];
      assert p + [] == p;
      assert [p] + parts[1..] == parts;
    }
  }

  /** A prefix free of the separator ends up at the front of the first piece. */
  lemma {:induction false} SplitPlain(p: string, rest: string, c: char)
    requires c !in p
    ensures var s := Split(rest, c);
      Split(p + rest, c) == [p + s[0]] + s[1..]
    decreases |p|
  {
    var s := Split(rest, c);
    if |p| > 0 {
      assert p == [p[0]] + p[1..];
      SplitPlain(p[1..], rest, c);
      assert (p + rest)[0] == p[0];
      assert (p + rest)[1..] == p[1..] + rest;
      var t := Split(p[1..] + rest, c);
      assert t[0] == p[1..] + s[0] && t[1..] == s[1..];
      assert [p[0]] + (p[1..] + s[0]) == p + s[0];
    } else {
      assert p + rest == rest;
      assert p + s[0] == s[0];
      assert s == [s[0]] + s[1..];
    }
  }

  // ---------------------------------------------------------------------
  // Whitespace

  /** Python's `str.isspace()` for one character: the ASCII whitespace and
      separator controls and the Unicode space separators. */
  predicate IsSpace(ch: char)
  {
    var n := ch as int;
    (9 <= n <= 13) || (0x1c <= n <= 0x20) || n == 0x85 || n == 0xa0 ||
    n == 0x1680 || (0x2000 <= n <= 0x200a) || n == 0x2028 || n == 0x2029 ||
    n == 0x202f || n == 0x205f || n == 0x3000
  }

  predicate IsBlank(s: string)
  {
    forall i :: 0 <= i < |s| ==> IsSpace(s[i])
  }

  /** Removes the leading whitespace, and only that. */
  function StripLeft(s: string): (r: string)
    ensures |r| <= |s| && r == s[|s| - |r|..]
    ensures forall i :: 0 <= i < |s| - |r| ==> IsSpace(s[i])
    ensures r == [] || !IsSpace(r[0])
  {
    if |s| > 0 && IsSpace(s[0]) then StripLeft(s[1..]) else s
  }

  /** Removes the trailing whitespace, and only that. */
  function StripRight(s: string): (r: string)
    ensures |r| <= |s| && r == s[..|r|]
    ensures forall i :: |r| <= i < |s| ==> IsSpace(s[i])
    ensures r == [] || !IsSpace(r[|r| - 1])
  {
    if |s| > 0 && IsSpace(s[|s| - 1]) then StripRight(s[..|s| - 1]) else s
  }

  /** `s.strip()`. */
  function Strip(s: string): string
  {
    StripRight(StripLeft(s))
  }

  /** `not s.strip()` holds exactly for the empty and the all-whitespace strings. */
  lemma StripEmptyIffBlank(s: string)
    ensures Strip(s) == [] <==> IsBlank(s)
  {
  }
}
