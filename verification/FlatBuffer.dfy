// The byte buffer as one flat byte sequence: the specification that the chunk chain refines.

// Products, quotients and remainders of the chunk size are written as recursive functions.
module Chunking {
  import opened Bytes

  /** The size of `k` chunks of `b` bytes. */
  function Span(k: nat, b: nat): nat {
    if k == 0 then 0 else Span(k - 1, b) + b
  }

  /** The chunk that byte `p` lies in. */
  function IndexOf(p: nat, b: nat): nat
    requires b > 0
  {
    if p < b then 0 else 1 + IndexOf(p - b, b)
  }

  /** Where in its chunk byte `p` lies. */
  function OffsetOf(p: nat, b: nat): (j: nat)
    requires b > 0
    ensures j < b && p == Span(IndexOf(p, b), b) + j
  {
    if p < b then p else OffsetOf(p - b, b)
  }

  lemma {:induction false} SpanIsProduct(k: nat, b: nat)
    ensures Span(k, b) == k * b
  {
    if k > 0 {
      SpanIsProduct(k - 1, b);
    }
  }

  /** They are the quotient and the remainder of the division by the chunk size. */
  lemma {:induction false} IndexIsQuotient(p: nat, b: nat)
    requires b > 0
    ensures IndexOf(p, b) == p / b && OffsetOf(p, b) == p % b
  {
    if p < b {
      Remainder(p, b, 0, p);
    } else {
      IndexIsQuotient(p - b, b);
      var q, r := (p - b) / b, (p - b) % b;
      assert p == b * (q + 1) + r;
      Remainder(p, b, q + 1, r);
    }
  }

  lemma {:induction false} SpanMonotone(j: nat, k: nat, b: nat)
    requires j <= k
    ensures Span(j, b) <= Span(k, b)
    ensures j < k ==> Span(j, b) + b <= Span(k, b)
  {
    if j < k {
      SpanMonotone(j, k - 1, b);
    }
  }

  lemma SpanBelow(j: nat, k: nat, b: nat)
    requires Span(j, b) < Span(k, b)
    ensures j < k
  {
    if k <= j {
      SpanMonotone(k, j, b);
    }
  }

  /** Chunk and offset determine the byte. */
  lemma IndexOfSpan(k: nat, j: nat, b: nat)
    requires j < b
    ensures IndexOf(Span(k, b) + j, b) == k && OffsetOf(Span(k, b) + j, b) == j
  {
    var i, offset := IndexOf(Span(k, b) + j, b), OffsetOf(Span(k, b) + j, b);
    if i < k {
      SpanMonotone(i, k, b);
    } else if k < i {
      SpanMonotone(k, i, b);
    }
  }

  lemma {:induction false} SpanAdd(j: nat, k: nat, b: nat)
    ensures Span(j + k, b) == Span(j, b) + Span(k, b)
  {
    if k > 0 {
      SpanAdd(j, k - 1, b);
    }
  }

  /** `x` rounded up to whole chunks. */
  function RoundUp(x: nat, b: nat): nat
    requires b > 0
  {
    Span(IndexOf(x + b - 1, b), b)
  }

  /** `after` has `piece` at `at`, and everywhere else the bytes of `before`. */
  ghost predicate Replaced(before: seq<byte>, after: seq<byte>, at: nat, piece: seq<byte>) {
    && |before| <= |after| && at + |piece| <= |after|
    && (forall i :: 0 <= i < |before| && !(at <= i < at + |piece|) ==> after[i] == before[i])
    && (forall i :: 0 <= i < |piece| ==> after[at + i] == piece[i])
  }

  /** The least number of whole chunks that holds `x` bytes. */
  lemma RoundUpIsLeast(x: nat, b: nat, k: nat)
    requires b > 0
    ensures x <= RoundUp(x, b) < x + b
    ensures x <= Span(k, b) ==> RoundUp(x, b) <= Span(k, b)
  {
    var i, offset := IndexOf(x + b - 1, b), OffsetOf(x + b - 1, b);
    if k < i {
      SpanMonotone(k, i, b);
    } else {
      SpanMonotone(i, k, b);
    }
  }
}

module FlatBuffer {
  import opened Bytes
  import opened Chunking

  /** All `capacity` bytes of the buffer, written or not, the position and the end marker. */
  datatype Flat = Flat(base: nat, content: seq<byte>, position: nat, size: nat) {
    predicate Valid() {
      && 0 < base <= |content|
      && |content| == RoundUp(|content|, base)
      && position <= size <= |content|
    }

    /** What a read may still return. */
    function Readable(): (bytes: seq<byte>)
      requires Valid()
      ensures |bytes| == size - position
    {
      content[position..size]
    }

    /** No room behind the readable bytes: when those run out, the cursor pointer is null. */
    predicate Full() {
      size == |content|
    }

    /** The buffer after a read that leaves `rest` readable. */
    function After(rest: seq<byte>): (g: Flat)
      requires Valid() && |rest| <= size - position
      ensures g.Valid() && g.content == content && g.size == size && |g.Readable()| == |rest|
    {
      this.(position := size - |rest|)
    }
  }

  lemma AfterSuffix(f: Flat, rest: seq<byte>, more: seq<byte>)
    requires f.Valid() && |more| <= |rest| <= f.size - f.position
    requires rest == f.Readable()[f.size - f.position - |rest|..]
    ensures f.After(rest).Readable() == rest && f.After(rest).Full() == f.Full()
    ensures f.After(rest).After(more) == f.After(more)
  {
  }

  lemma AfterNothing(f: Flat)
    requires f.Valid()
    ensures f.After(f.Readable()) == f
  {
  }

  lemma AfterOneByte(f: Flat, rest: seq<byte>)
    requires f.Valid() && 0 < |rest| <= f.size - f.position && f.After(rest).Readable() == rest
    ensures f.After(rest[1..]).Readable() == rest[1..]
    ensures f.After(rest).After(rest[1..]) == f.After(rest[1..])
  {
    assert f.content[f.size - |rest|..f.size][1..] == f.content[f.size - |rest| + 1..f.size];
  }

  function Max(a: nat, b: nat): nat {
    if a < b then b else a
  }

  function CapacityFor(f: Flat, n: nat): nat
    requires f.Valid()
  {
    Max(|f.content|, RoundUp(f.position + n, f.base))
  }

  /** Growing for `n` more bytes appends whole chunks of unknown bytes, and no more than needed. */
  ghost predicate Grows(f: Flat, g: Flat, n: nat) {
    && f.Valid() && g.Valid()
    && g == f.(content := g.content)
    && |g.content| == CapacityFor(f, n)
    && f.content <= g.content
  }

  /** Writing replaces the bytes at the position, growing if needed, and moves position and end. */
  ghost predicate Writes(f: Flat, g: Flat, bytes: seq<byte>) {
    && f.Valid() && g.Valid()
    && g.base == f.base
    && g.position == f.position + |bytes|
    && g.size == Max(f.size, g.position)
    && |g.content| == CapacityFor(f, |bytes|)
    && Replaced(f.content, g.content, f.position, bytes)
  }

  function Moved(f: Flat, v: nat): Flat {
    f.(position := v, size := Max(f.size, v))
  }

  lemma CapacityForNothing(f: Flat)
    requires f.Valid()
    ensures CapacityFor(f, 0) == |f.content|
  {
    RoundUpIsLeast(f.position, f.base, IndexOf(|f.content| + f.base - 1, f.base));
  }

  /** Two writes in a row are one write of both byte strings. */
  lemma WritesCompose(f: Flat, g: Flat, h: Flat, a: seq<byte>, b: seq<byte>)
    requires Writes(f, g, a) && Writes(g, h, b)
    ensures Writes(f, h, a + b)
  {
    RoundUpIsLeast(h.position, f.base, 0);
    RoundUpIsLeast(g.position, f.base, IndexOf(h.position + f.base - 1, f.base));
    forall i | 0 <= i < |a + b|
      ensures h.content[f.position + i] == (a + b)[i]
    {
      if i < |a| {
        assert g.content[f.position + i] == a[i];
      } else {
        assert h.content[g.position + (i - |a|)] == b[i - |a|];
      }
    }
  }

  /** Going back to where a write began, its bytes are what is read first. */
  lemma WritesReadBack(f: Flat, g: Flat, bytes: seq<byte>)
    requires Writes(f, g, bytes)
    ensures
      var back := Moved(g, f.position);
      && back.Valid() && back == g.(position := f.position)
      && back.Readable() == bytes + g.Readable()
      && back.Full() == g.Full()
  {
    forall i | 0 <= i < |bytes|
      ensures g.content[f.position..g.size][i] == bytes[i]
    {
      assert g.content[f.position + i] == bytes[i];
    }
    assert g.content[f.position..g.size] == bytes + g.content[g.position..g.size];
  }

  /** Writing over readable bytes uses up as many of them, and keeps those behind; writing on leaves
      nothing to read. What is in front of the position stays. */
  lemma WritesKeepTheRest(f: Flat, g: Flat, bytes: seq<byte>)
    requires Writes(f, g, bytes)
    ensures g.Readable() == if |bytes| <= |f.Readable()| then f.Readable()[|bytes|..] else []
    ensures g.content[..f.position] == f.content[..f.position]
  {
    if |bytes| <= |f.Readable()| {
      assert f.Readable()[|bytes|..] == f.content[g.position..f.size];
    }
  }

  /** Moving forgets no bytes. Behind the end there is nothing to read, and the end moves along. */
  lemma MovedLaw(f: Flat, v: nat)
    requires f.Valid() && v <= |f.content|
    ensures
      var g := Moved(f, v);
      && g.Valid() && g.content == f.content && g.position == v
      && g.Readable() == (if v <= f.size then f.content[v..f.size] else [])
      && g.size == if v <= f.size then f.size else v
  {
  }

  /** Taking `n` bytes off the front. A request for nothing still looks at the cursor, which is null
      when the position has reached the capacity. */
  function TakeBytes(bytes: seq<byte>, full: bool, n: nat): (p: Parsed<seq<byte>>)
    ensures |p.rest| <= |bytes| && p.rest == bytes[|bytes| - |p.rest|..]
  {
    if n > |bytes| then Stop(OutOfRange, bytes)
    else if n == 0 && bytes == [] && full then Stop(NullCursor, bytes)
    else Ok(bytes[..n], bytes[n..])
  }
}
