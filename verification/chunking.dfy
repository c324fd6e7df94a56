/**
 Fixed-width splitting of the input text into the chunks that are sent, one
 per turn, to the assistants: the list comprehension
 `[text[i:i + max_chars] for i in range(0, len(text), max_chars)]`.
 */
module Chunking {
  import opened Wrappers

  /** The default `max_chars` of the conversation driver. */
  const DefaultMaxChars: nat := 32768

  /** `range(0, n, 0)` raises a `ValueError`: a zero step is refused. */
  datatype ChunkError = ZeroStep

  function Min(x: int, y: int): int
  {
    if x <= y then x else y
  }

  /** Python's `len(range(0, n, m))` for `m > 0`, that is the ceiling of `n / m`. */
  function CeilDiv(n: nat, m: nat): nat
    requires 0 < m
  {
    (n + m - 1) / m
  }

  /** The chunks concatenated in order. */
  function Flatten(xs: seq<string>): string
  {
    if |xs| == 0 then "" else xs[0] + Flatten(xs[1..])
  }

  /**
   The slices `text[i:i + m]` for `i` in `range(start, len(text), m)`; the
   slice end is clipped to the length of the text as Python clips it.
   */
  function ChunksFrom(text: string, start: nat, m: nat): (r: seq<string>)
    requires 0 < m
    ensures |r| == 0 <==> |text| <= start
    ensures forall k :: 0 <= k < |r| ==> 0 < |r[k]| <= m
    ensures forall k :: 0 <= k < |r| - 1 ==> |r[k]| == m
    decreases |text| - start
  {
    if |text| <= start then []
    else
      [text[start..Min(start + m, |text|)]] + ChunksFrom(text, start + m, m)
  }

  /** The chunks from `start`, concatenated in order, give back the text from `start`. */
  lemma {:induction false} ChunksReassemble(text: string, start: nat, m: nat)
    requires 0 < m && start <= |text|
    ensures Flatten(ChunksFrom(text, start, m)) == text[start..]
    decreases |text| - start
  {
    if start < |text| {
      var r := ChunksFrom(text, start, m);
      var rest := ChunksFrom(text, start + m, m);
      assert r[1..] == rest;
      if start + m <= |text| {
        ChunksReassemble(text, start + m, m);
        assert text[start..] == text[start..start + m] + text[start + m..];
      } else {
        assert rest == [];
      }
    }
  }

  /**
   The chunk list of `text` for a given `max_chars`. A zero width makes
   `range` raise; a negative width gives an empty range and so no chunks.
   */
  function Chunk(text: string, maxChars: int): (r: Result<seq<string>, ChunkError>)
    ensures r.Failure? <==> maxChars == 0
    ensures maxChars < 0 ==> r == Success([])
    ensures 0 < maxChars ==> r.Success? && Flatten(r.value) == text
    ensures 0 < maxChars ==> (r.Success? && (r.value == [] <==> text == ""))
    ensures 0 < maxChars && r.Success? ==>
              forall k :: 0 <= k < |r.value| ==> 0 < |r.value[k]| <= maxChars
    ensures 0 < maxChars && r.Success? ==>
              forall k :: 0 <= k < |r.value| - 1 ==> |r.value[k]| == maxChars
  {
    if maxChars == 0 then Failure(ZeroStep)
    else if maxChars < 0 then Success([])
    else
      ChunksReassemble(text, 0, maxChars);
      Success(ChunksFrom(text, 0, maxChars))
  }

  /** Multiplying one more time adds one more factor. */
  lemma MulStep(k: int, m: int)
    ensures (k + 1) * m == k * m + m
  {
  }

  /** A product of a whole number and a positive width is 0 or at least the width. */
  lemma MulAtLeast(d: int, m: int)
    requires 0 < m
    ensures d >= 1 ==> d * m >= m
    ensures d <= -1 ==> d * m <= -m
  {
  }

  /** Quotient and remainder are determined by any decomposition with a remainder below `m`. */
  lemma DivUnique(x: int, m: int, q: int, r: int)
    requires 0 < m && 0 <= r < m && x == q * m + r
    ensures x / m == q && x % m == r
  {
    var q', r' := x / m, x % m;
    assert x == q' * m + r';
    assert (q - q') * m == r' - r;
    MulAtLeast(q - q', m);
  }

  /** Adding the divisor once adds one to the quotient. */
  lemma DivStep(x: nat, m: nat)
    requires 0 < m
    ensures (x + m) / m == x / m + 1
  {
    var q, r := x / m, x % m;
    MulStep(q, m);
    DivUnique(x + m, m, q + 1, r);
  }

  /** A length of at most one width needs one chunk; each further width needs one more. */
  lemma CeilDivStep(n: nat, m: nat)
    requires 0 < m < n
    ensures CeilDiv(n, m) == CeilDiv(n - m, m) + 1
  {
    DivStep(n - 1, m);
  }

  lemma CeilDivOne(n: nat, m: nat)
    requires 0 < n <= m
    ensures CeilDiv(n, m) == 1
  {
  }

  /** How many widths of `m` it takes to cover `n` characters, counted one width at a time. */
  function Widths(n: nat, m: nat): nat
    requires 0 < m
  {
    if n == 0 then 0 else if n <= m then 1 else 1 + Widths(n - m, m)
  }

  lemma {:induction false} WidthsIsCeilDiv(n: nat, m: nat)
    requires 0 < m
    ensures Widths(n, m) == CeilDiv(n, m)
  {
    if n == 0 {
      assert (m - 1) / m == 0;
    } else if n <= m {
      CeilDivOne(n, m);
    } else {
      WidthsIsCeilDiv(n - m, m);
      CeilDivStep(n, m);
    }
  }

  lemma {:induction false} ChunkWidths(text: string, start: nat, m: nat)
    requires 0 < m && start <= |text|
    ensures |ChunksFrom(text, start, m)| == Widths(|text| - start, m)
    decreases |text| - start
  {
    if |text| - start > m {
      ChunkWidths(text, start + m, m);
    }
  }

  /** The number of chunks is the length of the `range`, the ceiling of the length over the width. */
  lemma ChunkCount(text: string, start: nat, m: nat)
    requires 0 < m && start <= |text|
    ensures |ChunksFrom(text, start, m)| == CeilDiv(|text| - start, m)
  {
    ChunkWidths(text, start, m);
    WidthsIsCeilDiv(|text| - start, m);
  }

  /** The `k`-th value of `range(start, _, m)`, stepping one width at a time. */
  function Offset(start: nat, k: nat, m: nat): nat
    decreases k
  {
    if k == 0 then start else Offset(start + m, k - 1, m)
  }

  lemma {:induction false} OffsetIsProduct(start: nat, k: nat, m: nat)
    ensures Offset(start, k, m) == start + k * m
    decreases k
  {
    if k > 0 {
      OffsetIsProduct(start + m, k - 1, m);
      MulStep(k - 1, m);
    }
  }

  lemma {:induction false} ChunkAtOffset(text: string, start: nat, m: nat, k: nat)
    requires 0 < m && k < |ChunksFrom(text, start, m)|
    ensures Offset(start, k, m) < |text|
    ensures ChunksFrom(text, start, m)[k] == text[Offset(start, k, m)..Min(Offset(start, k, m) + m, |text|)]
    decreases k
  {
    if k > 0 {
      ChunkAtOffset(text, start + m, m, k - 1);
    }
  }

  /**
   The `k`-th chunk is the slice at the comprehension's `k`-th offset,
   `start + k * m`, clipped at the end of the text.
   */
  lemma ChunkAt(text: string, start: nat, m: nat, k: nat)
    requires 0 < m && k < |ChunksFrom(text, start, m)|
    ensures start + k * m < |text|
    ensures ChunksFrom(text, start, m)[k] == text[start + k * m..Min(start + (k + 1) * m, |text|)]
  {
    ChunkAtOffset(text, start, m, k);
    OffsetIsProduct(start, k, m);
    MulStep(k, m);
  }

  /** The arithmetic of the last chunk: from its offset to the clipped end. */
  lemma LastWidth(L: nat, m: nat)
    requires 0 < m && 0 < L
    ensures var j := CeilDiv(L, m) - 1;
            0 <= j && j * m < L &&
            Min((j + 1) * m, L) - j * m == if L % m == 0 then m else L % m
  {
    var n := CeilDiv(L, m);
    var q, rm := L / m, L % m;
    assert L == q * m + rm;
    MulStep(n - 1, m);
    if rm == 0 {
      DivUnique(L + m - 1, m, q, m - 1);
      MulAtLeast(q, m);
    } else {
      MulStep(q, m);
      DivUnique(L + m - 1, m, q + 1, rm - 1);
    }
  }

  /** The last chunk is `len % m` long, or a full `m` when `m` divides the length. */
  lemma LastChunkLength(text: string, m: nat)
    requires 0 < m && 0 < |text|
    ensures var r := ChunksFrom(text, 0, m);
            |r| > 0 && |r[|r| - 1]| == if |text| % m == 0 then m else |text| % m
  {
    var r := ChunksFrom(text, 0, m);
    ChunkCount(text, 0, m);
    LastWidth(|text|, m);
    var j := |r| - 1;
    ChunkAt(text, 0, m, j);
    var lo, hi := j * m, Min((j + 1) * m, |text|);
    var want := if |text| % m == 0 then m else |text| % m;
    assert hi - lo == want;
    assert r[j] == text[lo..hi];
  }

  /**
   Example: 70000 characters at the default width
   give three chunks of 32768, 32768 and 4464 characters.
   */
  lemma SeventyThousandCharacters(text: string)
    requires |text| == 70000
    ensures var r := Chunk(text, DefaultMaxChars);
            r.Success? && |r.value| == 3 &&
            |r.value[0]| == 32768 && |r.value[1]| == 32768 && |r.value[2]| == 4464
  {
    ChunkCount(text, 0, DefaultMaxChars);
    LastChunkLength(text, DefaultMaxChars);
  }
}
