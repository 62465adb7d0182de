// The chunked byte buffer: a linked list of equal chunks with a cursor pointer kept in step with a
// numeric position. Every operation is proved against the flat buffer.

module Chunks {
  import opened Bytes
  import opened Chunking

  /** One node of the list. `data` is its memory, which it keeps for life. */
  class Chunk {
    const data: array<byte>
    const size: nat
    var next: Chunk?
    ghost const index: nat  // its place in the list

    constructor (s: nat, ghost place: nat)
      ensures index == place && data.Length == s && size == s && next == null && fresh(data)
    {
      data := new byte[s];
      size := s;
      index := place;
      next := null;
    }
  }

  /** The chunks are linked in order, equally large, and share no memory. */
  ghost predicate Linked(chain: seq<Chunk>, mem: seq<array<byte>>, base: nat)
    reads chain
  {
    && base > 0 && |chain| == |mem| > 0
    && (forall i :: 0 <= i < |chain| ==>
          && chain[i].data == mem[i] && chain[i].size == mem[i].Length == base
          && chain[i].index == i)
    && (forall i, j :: 0 <= i < j < |mem| ==> mem[i] != mem[j])
    && (forall i {:trigger chain[i].next} :: 0 <= i < |chain| - 1 ==>
          chain[i].next == chain[i + 1])
    && chain[|chain| - 1].next == null
  }

  lemma FirstChunk(chain: seq<Chunk>, mem: seq<array<byte>>, base: nat)
    requires Linked(chain, mem, base)
    ensures |chain| == |mem| > 0 && base > 0
    ensures chain[0].data == mem[0] && chain[0].size == mem[0].Length == base && chain[0].index == 0
  {
  }

  lemma LinkedOne(chunk: Chunk, data: array<byte>, base: nat)
    requires base > 0 && chunk.data == data && chunk.size == data.Length == base
    requires chunk.index == 0 && chunk.next == null
    ensures Linked([chunk], [data], base)
  {
  }

  /** The bytes in memory, chunk by chunk. */
  ghost function Blocks(mem: seq<array<byte>>): (blocks: seq<seq<byte>>)
    reads mem
    ensures |blocks| == |mem|
    ensures forall i :: 0 <= i < |mem| ==> blocks[i] == mem[i][..]
  {
    seq(|mem|, i requires 0 <= i < |mem| reads mem => mem[i][..])
  }

  ghost predicate Holds(mem: seq<array<byte>>, content: seq<byte>)
    reads mem
  {
    content == Concat(Blocks(mem))
  }

  lemma BlocksEqual(chain: seq<Chunk>, mem: seq<array<byte>>, base: nat)
    requires Linked(chain, mem, base)
    ensures Equal(Blocks(mem), base)
  {
  }

  lemma OneBlock(chain: seq<Chunk>, mem: seq<array<byte>>, base: nat, k: nat)
    requires Linked(chain, mem, base) && k < |chain|
    ensures forall i :: 0 <= i < |mem| && i != k ==> mem[i] != mem[k]
  {
  }

  function Concat(blocks: seq<seq<byte>>): seq<byte> {
    if blocks == [] then [] else blocks[0] + Concat(blocks[1..])
  }

  ghost predicate Equal(blocks: seq<seq<byte>>, base: nat) {
    forall i :: 0 <= i < |blocks| ==> |blocks[i]| == base
  }

  lemma {:induction false} ConcatAppend(a: seq<seq<byte>>, b: seq<seq<byte>>)
    ensures Concat(a + b) == Concat(a) + Concat(b)
  {
    if a == [] {
      assert a + b == b;
    } else {
      ConcatAppend(a[1..], b);
      assert (a + b)[1..] == a[1..] + b;
      assert Concat(a) + Concat(b) == a[0] + (Concat(a[1..]) + Concat(b));
    }
  }

  lemma HoldsOneMore(mem: seq<array<byte>>, content: seq<byte>, last: array<byte>)
    requires Holds(mem, content)
    ensures Holds(mem + [last], content + last[..])
  {
    ConcatAppend(Blocks(mem), [last[..]]);
    assert Blocks(mem + [last]) == Blocks(mem) + [last[..]];
    assert Concat([last[..]]) == last[..] + Concat([]);
  }

  lemma {:induction false} ConcatLength(blocks: seq<seq<byte>>, base: nat)
    requires Equal(blocks, base)
    ensures |Concat(blocks)| == Span(|blocks|, base)
  {
    if blocks != [] {
      ConcatLength(blocks[1..], base);
      assert Span(|blocks|, base) == Span(|blocks| - 1, base) + base;
    }
  }

  /** Block `k` sits at offset `Span(k, base)` of the flat content. */
  lemma ConcatSplit(blocks: seq<seq<byte>>, base: nat, k: nat)
    requires Equal(blocks, base) && k < |blocks|
    ensures Concat(blocks) == Concat(blocks[..k]) + blocks[k] + Concat(blocks[k + 1..])
    ensures |Concat(blocks[..k])| == Span(k, base)
    ensures Span(k, base) + base <= |Concat(blocks)| == Span(|blocks|, base)
  {
    assert blocks == blocks[..k] + blocks[k..];
    ConcatAppend(blocks[..k], blocks[k..]);
    assert blocks[k..][1..] == blocks[k + 1..];
    ConcatLength(blocks[..k], base);
    ConcatLength(blocks, base);
    SpanMonotone(k, |blocks|, base);
  }

  /** Reading inside one block is reading the flat content. */
  lemma ConcatSlice(blocks: seq<seq<byte>>, base: nat, k: nat, lo: nat, hi: nat)
    requires Equal(blocks, base) && k < |blocks|
    requires lo <= hi <= base
    ensures Span(k, base) + hi <= |Concat(blocks)|
    ensures Concat(blocks)[Span(k, base) + lo..Span(k, base) + hi] == blocks[k][lo..hi]
  {
    hide Concat;
    ConcatSplit(blocks, base, k);
    var before, after := Concat(blocks[..k]), Concat(blocks[k + 1..]);
    assert (before + blocks[k] + after)[|before| + lo..|before| + hi] == blocks[k][lo..hi];
  }

  /** Writing inside one block is writing the flat content. */
  lemma ConcatUpdate(blocks: seq<seq<byte>>, base: nat, k: nat, lo: nat, piece: seq<byte>,
                     updated: seq<seq<byte>>)
    requires Equal(blocks, base) && k < |blocks|
    requires lo + |piece| <= base
    requires |updated| == |blocks|
    requires forall i :: 0 <= i < |blocks| && i != k ==> updated[i] == blocks[i]
    requires |updated[k]| == base && Replaced(blocks[k], updated[k], lo, piece)
    ensures |Concat(updated)| == |Concat(blocks)|
    ensures Replaced(Concat(blocks), Concat(updated), Span(k, base) + lo, piece)
  {
    hide Concat, Replaced;
    ConcatSplit(blocks, base, k);
    assert Equal(updated, base);
    ConcatSplit(updated, base, k);
    assert updated[..k] == blocks[..k] && updated[k + 1..] == blocks[k + 1..];
    ReplacedInside(Concat(blocks[..k]), blocks[k], updated[k], Concat(blocks[k + 1..]), lo, piece);
  }

  lemma ReplacedInside(before: seq<byte>, block: seq<byte>, updated: seq<byte>, after: seq<byte>,
                       lo: nat, piece: seq<byte>)
    requires |block| == |updated| && Replaced(block, updated, lo, piece)
    ensures Replaced(before + block + after, before + updated + after, |before| + lo, piece)
  {
    forall i | 0 <= i < |piece|
      ensures (before + updated + after)[|before| + lo + i] == piece[i]
    {
      assert (before + updated + after)[|before| + (lo + i)] == updated[lo + i];
    }
  }

  /** Replacing the next piece of `buf` after its first `done` bytes. */
  lemma ReplacedMore(x: seq<byte>, y: seq<byte>, z: seq<byte>, at: nat, buf: seq<byte>, done: nat, n: nat)
    requires |x| == |y| == |z| && done + n <= |buf|
    requires Replaced(x, y, at, buf[..done])
    requires Replaced(y, z, at + done, buf[done..done + n])
    ensures Replaced(x, z, at, buf[..done + n])
  {
    forall i | 0 <= i < done + n
      ensures z[at + i] == buf[i]
    {
      if i < done {
        assert y[at + i] == buf[..done][i];
      } else {
        assert z[at + done + (i - done)] == buf[done..done + n][i - done];
      }
    }
  }
}

module Buffers {
  import opened Bytes
  import opened Codecs
  import opened Varint
  import opened Zigzag
  import opened Chunking
  import opened Chunks
  import opened FlatBuffer

  /** A piece of a chunk's memory handed out for scatter or gather input and output. */
  datatype Slice = Slice(data: array<byte>, offset: nat, length: nat)

  function Total(slices: seq<Slice>): nat {
    if slices == [] then 0 else Total(slices[..|slices| - 1]) + slices[|slices| - 1].length
  }

  /** The slices run through consecutive chunks from byte `j` of chunk `k` on, each but the last to
      the end of its chunk. */
  ghost predicate Consecutive(slices: seq<Slice>, chain: seq<Chunk>, base: nat, k: nat, j: nat) {
    && k + |slices| <= |chain|
    && (forall i :: 0 <= i < |slices| ==>
          && slices[i].data == chain[k + i].data
          && slices[i].offset == (if i == 0 then j else 0)
          && 0 < slices[i].length <= base - slices[i].offset)
    && (forall i :: 0 <= i < |slices| - 1 ==> slices[i].offset + slices[i].length == base)
  }

  lemma NoSlices(chain: seq<Chunk>, base: nat, k: nat, j: nat)
    requires k <= |chain|
    ensures Consecutive([], chain, base, k, j) && Total([]) == 0
  {
  }

  lemma OneMoreSlice(slices: seq<Slice>, s: Slice, chain: seq<Chunk>, base: nat, k: nat, j: nat)
    requires Consecutive(slices, chain, base, k, j) && k + |slices| < |chain|
    requires |slices| > 0 ==> slices[|slices| - 1].offset + slices[|slices| - 1].length == base
    requires s.data == chain[k + |slices|].data && s.offset == (if slices == [] then j else 0)
    requires 0 < s.length <= base - s.offset
    ensures Consecutive(slices + [s], chain, base, k, j)
    ensures Total(slices + [s]) == Total(slices) + s.length
  {
    hide Total;
    var more := slices + [s];
    forall i | 0 <= i < |more|
      ensures more[i].data == chain[k + i].data && more[i].offset == (if i == 0 then j else 0)
      ensures 0 < more[i].length <= base - more[i].offset
    {
      if i < |slices| {
        assert more[i] == slices[i];
      }
    }
    TotalMore(slices, s);
  }

  lemma TotalMore(slices: seq<Slice>, s: Slice)
    ensures Total(slices + [s]) == Total(slices) + s.length
  {
    assert (slices + [s])[..|slices|] == slices;
  }

  lemma {:induction false} TotalMonotone(slices: seq<Slice>, i: nat)
    requires i <= |slices|
    ensures Total(slices[..i]) <= Total(slices)
  {
    if i < |slices| {
      TotalMonotone(slices[..|slices| - 1], i);
      assert slices[..|slices| - 1][..i] == slices[..i];
    } else {
      assert slices[..i] == slices;
    }
  }

  lemma TotalStep(slices: seq<Slice>, i: nat)
    requires i < |slices|
    ensures Total(slices[..i + 1]) == Total(slices[..i]) + slices[i].length <= Total(slices)
  {
    assert slices[..i + 1][..i] == slices[..i];
    TotalMonotone(slices, i + 1);
  }

  lemma SliceAt(slices: seq<Slice>, chain: seq<Chunk>, base: nat, k: nat, j: nat, i: nat)
    requires Consecutive(slices, chain, base, k, j) && i < |slices|
    ensures k + i < |chain| && slices[i].data == chain[k + i].data
    ensures slices[i].offset == (if i == 0 then j else 0) && slices[i].offset + slices[i].length <= base
    ensures i + 1 < |slices| ==> slices[i].offset + slices[i].length == base && slices[i + 1].offset == 0
  {
  }

  ghost predicate InBounds(slices: seq<Slice>) {
    forall s | s in slices :: s.offset + s.length <= s.data.Length
  }

  /** The bytes a gathering write sends, slice after slice. */
  ghost function Gathered(slices: seq<Slice>): seq<byte>
    requires InBounds(slices)
    reads set s | s in slices :: s.data
  {
    if slices == [] then []
    else
      var last := slices[|slices| - 1];
      Gathered(slices[..|slices| - 1]) + last.data[last.offset..last.offset + last.length]
  }

  /** Copies `piece` into `data` at `offset`. */
  method Fill(data: array<byte>, offset: nat, piece: seq<byte>)
    requires offset + |piece| <= data.Length
    modifies data
    ensures Replaced(old(data[..]), data[..], offset, piece)
  {
    forall i | 0 <= i < |piece| {
      data[offset + i] := piece[i];
    }
  }

  /** The encoder's loop: emits seven bits a round into a small array. */
  method VarintBytes(number: nat, w: Width) returns (code: seq<byte>)
    requires IsUnsigned(number, w)
    ensures code == EncodeVarint(number)
  {
    EncodingFits(number, w);
    var tmp := new byte[Groups(w)];
    var value, i := number, 0;
    while value >= 0x80
      invariant 0 <= i && i + |EncodeVarint(value)| <= tmp.Length
      invariant EncodeVarint(number) == tmp[..i] + EncodeVarint(value)
    {
      tmp[i] := value % 0x80 + 0x80;
      i := i + 1;
      value := value / 0x80;
      assert tmp[..i] == tmp[..i - 1] + [tmp[i - 1]];
    }
    tmp[i] := value;
    i := i + 1;
    code := tmp[..i];
    assert code == tmp[..i - 1] + [tmp[i - 1]];
  }

  class ByteArray {
    const baseSize: nat
    var position: nat
    var capacity: nat
    var size: nat
    const root: Chunk
    var cur: Chunk?

    ghost var chain: seq<Chunk>
    ghost var mem: seq<array<byte>>
    ghost var content: seq<byte>
    ghost var index: nat
    ghost var offset: nat
    ghost var Repr: set<object>  // the buffer, its chunks and their memory

    /** The position is byte `offset` of chunk `index`, which the cursor points to; past the last
        chunk the cursor is null. */
    ghost predicate CursorInStep()
      reads this
    {
      && position == Span(index, baseSize) + offset && offset < baseSize
      && index <= |chain|
      && if index < |chain| then cur == chain[index] else offset == 0 && cur == null
    }

    /** The chain is sound and its memory holds `content`. */
    ghost predicate Chained()
      reads this, Repr
    {
      && this in Repr && |mem| == |chain|
      && (forall i :: 0 <= i < |chain| ==> chain[i] in Repr && mem[i] in Repr)
      && Linked(chain, mem, baseSize) && chain[0] == root
      && Holds(mem, content) && |content| == capacity == Span(|chain|, baseSize)
    }

    ghost predicate Shape()
      reads this, Repr
    {
      && this in Repr && |chain| > 0 && |content| == capacity == Span(|chain|, baseSize)
      && Chained() && CursorInStep()
    }

    ghost predicate Valid()
      reads this, Repr
    {
      Shape() && position <= size <= capacity
    }

    ghost function Model(): (f: Flat)
      requires Valid()
      reads this, Repr
      ensures f.Valid()
    {
      WholeChunks(|chain|, baseSize);
      Flat(baseSize, content, position, size)
    }

    lemma ChainFacts()
      requires Chained()
      ensures this in Repr && baseSize > 0 && |chain| > 0 && chain[0] == root
      ensures |content| == capacity == Span(|chain|, baseSize)
    {
    }

    lemma ChunkFacts(i: nat)
      requires Chained() && i < |chain|
      ensures chain[i].size == chain[i].data.Length == baseSize
      ensures chain[i] in Repr && chain[i].data in Repr
      ensures chain[i].next == if i + 1 < |chain| then chain[i + 1] else null
    {
    }

    /** What the cursor is: the quotient and the remainder of the position, and null exactly when the
        position has reached the capacity. */
    lemma CursorFacts()
      requires Shape()
      ensures position <= capacity && (cur == null <==> position == capacity)
      ensures IndexOf(position, baseSize) == index && OffsetOf(position, baseSize) == offset
      ensures cur != null ==>
                && cur == chain[index] && cur in Repr && cur.data in Repr
                && cur.size == cur.data.Length == baseSize
                && cur.next == if index + 1 < |chain| then chain[index + 1] else null
    {
      IndexOfSpan(index, offset, baseSize);
      SpanMonotone(index, |chain|, baseSize);
      if index < |chain| {
        ChunkFacts(index);
      }
    }

    constructor (base: nat)
      requires base > 0
      ensures Valid() && fresh(Repr)
      ensures var f := Model();
              f.base == |f.content| == base && f.position == f.size == 0
    {
      baseSize := base;
      position, capacity, size := 0, base, 0;
      var first := new Chunk(base, 0);
      root, cur := first, first;
      chain, mem := [first], [first.data];
      content := first.data[..];
      index, offset := 0, 0;
      Repr := {this, first, first.data};
      new;
      assert Blocks(mem) == [content];
      assert Concat([content]) == content + Concat([]);
    }

    function GetReadSize(): int
      reads this
    {
      size - position
    }

    function GetCapacity(): int
      reads this
    {
      capacity - position
    }

    /** Copies `piece` into the memory of chunk `k`. */
    method CopyTo(ghost k: nat, data: array<byte>, npos: nat, piece: seq<byte>)
      requires Shape() && k < |chain| && data == chain[k].data
      requires npos + |piece| <= baseSize
      modifies data, this`content
      ensures Shape()
      ensures Replaced(old(content), content, Span(k, baseSize) + npos, piece)
    {
      ghost var before := Blocks(mem);
      BlocksEqual(chain, mem, baseSize);
      OneBlock(chain, mem, baseSize, k);
      hide Linked;
      Fill(data, npos, piece);
      ghost var after := Blocks(mem);
      ConcatUpdate(before, baseSize, k, npos, piece, after);
      content := Concat(after);
    }

    /** Links a new chunk behind the last one. */
    method AppendChunk(last: Chunk) returns (chunk: Chunk)
      requires Chained() && last == chain[|chain| - 1]
      modifies this`capacity, this`chain, this`mem, this`content, this`Repr, last
      ensures Chained() && chain == old(chain) + [chunk] && old(content) <= content
      ensures old(Repr) <= Repr && fresh(Repr - old(Repr))
    {
      hide Holds;
      chunk := new Chunk(baseSize, |chain|);
      last.next := chunk;
      capacity := capacity + baseSize;
      chain, mem := chain + [chunk], mem + [chunk.data];
      Repr := Repr + {chunk, chunk.data};
      HoldsOneMore(old(mem), content, chunk.data);
      content := content + chunk.data[..];
    }

    method LastChunk() returns (last: Chunk)
      requires Chained()
      ensures last == chain[|chain| - 1]
    {
      last := root;
      ghost var at := 0;
      while last.next != null
        invariant 0 <= at < |chain| && last == chain[at]
        decreases |chain| - at
      {
        last := last.next;
        at := at + 1;
      }
    }

    /** Links `count` new chunks; returns the first of them. */
    method AppendChunks(count: nat) returns (first: Chunk?)
      requires Chained()
      modifies Repr
      ensures Chained() && |chain| == |old(chain)| + count
      ensures old(chain) <= chain && old(content) <= content
      ensures first == if count == 0 then null else chain[|old(chain)|]
      ensures unchanged(`position, `size, `cur, `index, `offset)
      ensures old(Repr) <= Repr && fresh(Repr - old(Repr))
    {
      hide Chained;
      ChainFacts();
      var tmp := LastChunk();
      ChunkFacts(|chain| - 1);
      first := null;
      var i := 0;
      while i < count
        invariant 0 <= i <= count
        invariant Chained() && |chain| == |old(chain)| + i
        invariant old(chain) <= chain && old(content) <= content
        invariant tmp == chain[|chain| - 1] && tmp in Repr && this in Repr
        invariant first == if i == 0 then null else chain[|old(chain)|]
        invariant unchanged(`position, `size, `cur, `index, `offset)
        invariant old(Repr) <= Repr && fresh(Repr - old(Repr))
      {
        tmp := AppendChunk(tmp);
        ChunkFacts(|chain| - 1);
        if first == null {
          first := tmp;
        }
        i := i + 1;
      }
    }

    /** Grows a chain that is too short; the cursor of a used-up chain moves to the first new chunk. */
    method Extend(count: nat)
      requires Valid() && count > 0
      modifies Repr
      ensures Valid() && fresh(Repr - old(Repr))
      ensures capacity == Span(|old(chain)| + count, baseSize) && old(content) <= content
      ensures unchanged(`position, `size)
    {
      hide Linked, Holds;
      ChainFacts();
      SpanMonotone(|chain|, |chain| + count, baseSize);
      var usedUp := GetCapacity() == 0;
      CursorFacts();
      var first := AppendChunks(count);
      assert chain[0] == old(chain)[0];
      if usedUp {
        cur := first;
        assert Linked(chain, mem, baseSize) && Holds(mem, content);
      } else {
        assert chain[index] == old(chain)[index];
      }
    }

    /** Makes room for `n` bytes from the position on. */
    method AddCapacity(n: nat)
      requires Valid()
      modifies Repr
      ensures Valid() && fresh(Repr - old(Repr))
      ensures Grows(old(Model()), Model(), n)
    {
      hide Chained;
      CapacityForNothing(Model());
      if n == 0 {
        return;
      }
      var oldCap := GetCapacity();
      GrowthCount(|chain|, baseSize, position, n);
      if oldCap >= n {
        return;
      }
      var missing := n - oldCap;
      Extend(IndexOf(missing + baseSize - 1, baseSize));
    }

    /** `buf` replaces the bytes at the position. */
    method Write(buf: seq<byte>)
      requires Valid()
      modifies Repr
      ensures Valid() && fresh(Repr - old(Repr))
      ensures Writes(old(Model()), Model(), buf)
    {
      hide Linked, Holds;
      CapacityForNothing(Model());
      if |buf| == 0 {
        return;
      }
      AddCapacity(|buf|);
      RoundUpIsLeast(position + |buf|, baseSize, 0);
      CopyAll(buf);
      if position > size {
        size := position;
      }
    }

    /** The copying loop, chunk by chunk. */
    method CopyAll(buf: seq<byte>)
      requires Shape() && |buf| > 0 && position + |buf| <= capacity
      modifies Repr
      ensures Shape() && Repr == old(Repr)
      ensures position == old(position) + |buf| && size == old(size) && capacity == old(capacity)
      ensures Replaced(old(content), content, old(position), buf)
    {
      hide Chained;
      ghost var start, before := position, content;
      CursorFacts();
      var remaining: nat := |buf|;
      var npos := OffsetOf(position, baseSize);
      var ncap := cur.size - npos;
      var bpos: nat := 0;
      while remaining > 0
        invariant Shape() && Repr == old(Repr) && size == old(size) && capacity == old(capacity)
        invariant bpos + remaining == |buf| && position == start + bpos
        invariant remaining > 0 ==> cur != null && npos == offset && ncap == baseSize - npos
        invariant Replaced(before, content, start, buf[..bpos])
      {
        ghost var halfway := content;
        var n := if ncap >= remaining then remaining else ncap;
        Step(npos, buf[bpos..bpos + n]);
        ReplacedMore(before, halfway, content, start, buf, bpos, n);
        bpos := bpos + n;
        if ncap >= remaining {
          remaining := 0;
        } else {
          remaining := remaining - n;
          CursorFacts();
          ncap := cur.size;
          npos := 0;
        }
      }
      assert buf[..bpos] == buf;
    }

    /** One round of the loop: the piece goes into the cursor's chunk, and position and cursor move
        behind it. */
    method Step(npos: nat, piece: seq<byte>)
      requires Shape() && cur != null && npos == offset
      requires 0 < |piece| <= baseSize - npos
      modifies Repr
      ensures Shape() && Repr == old(Repr)
      ensures position == old(position) + |piece| && size == old(size) && capacity == old(capacity)
      ensures offset == if npos + |piece| == baseSize then 0 else npos + |piece|
      ensures Replaced(old(content), content, old(position), piece)
    {
      CursorFacts();
      hide Chained;
      CopyTo(index, cur.data, npos, piece);
      Advance(npos, |piece|);
    }

    /** Moves the position `n` bytes on, within the cursor's chunk or to its end. */
    method Advance(npos: nat, n: nat)
      requires Shape() && cur != null && npos == offset && 0 < n <= baseSize - npos
      modifies this`cur, this`position, this`index, this`offset
      ensures Shape() && position == old(position) + n
      ensures offset == if npos + n == baseSize then 0 else npos + n
    {
      CursorFacts();
      hide Linked, Holds;
      if cur.size == npos + n {
        cur := cur.next;
        index, offset := index + 1, 0;
      } else {
        offset := offset + n;
      }
      position := position + n;
    }

    /** A piece of one chunk is a piece of the content. */
    lemma ChunkSlice(i: nat, lo: nat, hi: nat)
      requires Shape() && i < |chain| && lo <= hi <= baseSize
      ensures chain[i].data.Length == baseSize && Span(i, baseSize) + hi <= capacity
      ensures chain[i].data[lo..hi] == content[Span(i, baseSize) + lo..Span(i, baseSize) + hi]
    {
      BlocksEqual(chain, mem, baseSize);
      ConcatSlice(Blocks(mem), baseSize, i, lo, hi);
    }

    /** Takes `n` bytes at the position. */
    method Read(n: nat) returns (r: Result<seq<byte>>)
      requires Valid()
      modifies this`cur, this`position, this`index, this`offset
      ensures Valid()
      ensures
        var f := old(Model());
        var p := TakeBytes(f.Readable(), f.Full(), n);
        r == p.result && Model() == f.After(p.rest)
    {
      hide Linked, Holds, Chained;
      CursorFacts();
      if n > GetReadSize() {
        return Failure(OutOfRange);
      }
      if cur == null {
        return Failure(NullCursor);
      }
      var buf := TakeAll(n);
      SliceTake(content, old(position), size, n);
      r := Success(buf);
    }

    /** The copying loop, chunk by chunk. */
    method TakeAll(n: nat) returns (buf: seq<byte>)
      requires Shape() && cur != null && position + n <= capacity
      modifies this`cur, this`position, this`index, this`offset
      ensures Shape() && position == old(position) + n
      ensures buf == content[old(position)..position]
    {
      hide Linked, Holds;
      CursorFacts();
      var remaining: nat := n;
      var npos := OffsetOf(position, baseSize);
      var ncap := cur.size - npos;
      buf := [];
      while remaining > 0
        invariant |buf| + remaining == n && position == old(position) + |buf| <= |content|
        invariant Shape()
        invariant remaining > 0 ==> cur != null && npos == offset && ncap == baseSize - npos
        invariant buf == content[old(position)..position]
      {
        var count := if ncap >= remaining then remaining else ncap;
        var piece := TakeStep(npos, count);
        AppendSlice(content, old(position), |buf|, count);
        buf := buf + piece;
        if ncap >= remaining {
          remaining := 0;
        } else {
          remaining := remaining - count;
          CursorFacts();
          ncap := cur.size;
          npos := 0;
        }
      }
    }

    /** One round of the loop. */
    method TakeStep(npos: nat, n: nat) returns (piece: seq<byte>)
      requires Shape() && cur != null && npos == offset && 0 < n <= baseSize - npos
      modifies this`cur, this`position, this`index, this`offset
      ensures Shape() && position == old(position) + n <= |content|
      ensures offset == if npos + n == baseSize then 0 else npos + n
      ensures piece == content[old(position)..position]
    {
      hide Linked, Holds, Chained;
      CursorFacts();
      piece := CopyOut(index, cur, npos, n);
      Advance(npos, n);
    }

    /** Walks from the first chunk to position `v`. */
    method Seek(v: nat) returns (chunk: Chunk?, ghost at: nat, ghost rest: nat)
      requires Shape() && v <= capacity
      ensures v == Span(at, baseSize) + rest && rest < baseSize && at <= |chain|
      ensures if at < |chain| then chunk == chain[at] else rest == 0 && chunk == null
    {
      hide Linked, Holds, Chained;
      ChainFacts();
      ChunkFacts(0);
      var current, remaining: nat := root, v;
      at := 0;
      while remaining > current.size
        invariant at < |chain| && current == chain[at] && current.size == baseSize
        invariant v == Span(at, baseSize) + remaining
      {
        remaining := remaining - current.size;
        ChunkFacts(at);
        SpanBelow(at + 1, |chain|, baseSize);
        current := current.next;
        at := at + 1;
        ChunkFacts(at);
      }
      ChunkFacts(at);
      chunk, rest := current, remaining;
      if remaining == current.size {
        chunk, at, rest := current.next, at + 1, 0;
      }
    }

    /** Puts the position anywhere up to the capacity; the end marker follows even over bytes that
        were never written. */
    method SetPosition(v: nat) returns (r: Result<()>)
      requires Valid()
      modifies this`cur, this`position, this`size, this`index, this`offset
      ensures Valid()
      ensures r == if v <= capacity then Success(()) else Failure(OutOfRange)
      ensures Model() == if v <= capacity then Moved(old(Model()), v) else old(Model())
    {
      hide Linked, Holds;
      if v > capacity {
        return Failure(OutOfRange);
      }
      ghost var at, rest;
      var chunk;
      chunk, at, rest := Seek(v);
      position := v;
      if position > size {
        size := position;
      }
      cur, index, offset := chunk, at, rest;
      return Success(());
    }

    /** Walks over the chunks behind the first one, which the program deletes. */
    method Release()
      requires Chained()
    {
      var tmp := root.next;
      ghost var at := 1;
      while tmp != null
        invariant 1 <= at <= |chain| && tmp == if at < |chain| then chain[at] else null
        decreases |chain| - at
      {
        ChunkFacts(at);
        tmp := tmp.next;
        at := at + 1;
      }
    }

    /** Keeps only the first chunk, with the bytes it has. */
    method Clear()
      requires Valid()
      modifies this, root
      ensures Valid() && Repr == old(Repr)
      ensures Model() == Flat(baseSize, old(content)[..baseSize], 0, 0)
    {
      hide Linked, Holds;
      Release();
      FirstChunk(chain, mem, baseSize);
      FirstBlock(mem, content, baseSize);
      position, size := 0, 0;
      capacity := baseSize;
      cur := root;
      root.next := null;
      LinkedOne(root, mem[0], baseSize);
      chain, mem, content := [root], [mem[0]], content[..baseSize];
      index, offset := 0, 0;
      assert capacity == Span(|chain|, baseSize);
      assert Holds(mem, content);
    }

    /** Cuts the next `n` bytes into slices, without moving. */
    method SliceUp(n: nat) returns (slices: seq<Slice>)
      requires Shape() && position + n <= capacity && cur != null
      ensures Consecutive(slices, chain, baseSize, index, offset) && Total(slices) == n
    {
      hide Linked, Holds, Chained, Consecutive, Total;
      CursorFacts();
      NoSlices(chain, baseSize, index, offset);
      var remaining: nat := n;
      var npos := OffsetOf(position, baseSize);
      var ncap := cur.size - npos;
      var chunk: Chunk? := cur;
      slices := [];
      while remaining > 0
        invariant Consecutive(slices, chain, baseSize, index, offset)
        invariant Total(slices) + remaining == n
        invariant remaining > 0 ==> index + |slices| < |chain| && chunk == chain[index + |slices|]
        invariant remaining > 0 ==> npos == if slices == [] then offset else 0
        invariant remaining > 0 ==> ncap == baseSize - npos
        invariant remaining > 0 ==> position + Total(slices) == Span(index + |slices|, baseSize) + npos
        invariant remaining > 0 && |slices| > 0 ==>
                    slices[|slices| - 1].offset + slices[|slices| - 1].length == baseSize
      {
        ghost var at := index + |slices|;
        ChunkFacts(at);
        var slice := Slice(chunk.data, npos, if ncap >= remaining then remaining else ncap);
        OneMoreSlice(slices, slice, chain, baseSize, index, offset);
        slices := slices + [slice];
        if ncap >= remaining {
          remaining := 0;
        } else {
          remaining := remaining - ncap;
          SpanBelow(at + 1, |chain|, baseSize);
          chunk := chunk.next;
          ChunkFacts(at + 1);
          ncap := chunk.size;
          npos := 0;
        }
      }
    }

    /** Slices to receive the next `n` bytes, growing if needed; the position stays. */
    method GetWriteBuffers(n: nat) returns (slices: seq<Slice>, total: nat)
      requires Valid()
      modifies Repr
      ensures Valid() && fresh(Repr - old(Repr)) && total == n
      ensures Grows(old(Model()), Model(), n)
      ensures n > 0 ==> cur != null
      ensures Consecutive(slices, chain, baseSize, index, offset) && Total(slices) == n
    {
      hide Linked, Holds, Chained;
      CapacityForNothing(Model());
      if n == 0 {
        return [], 0;
      }
      AddCapacity(n);
      RoundUpIsLeast(position + n, baseSize, 0);
      CursorFacts();
      slices := SliceUp(n);
      total := n;
    }

    /** What a scattering read does with slices of this buffer: `bytes` fill them in order. */
    method Scatter(slices: seq<Slice>, bytes: seq<byte>)
      requires Shape() && Consecutive(slices, chain, baseSize, index, offset)
      requires Total(slices) == |bytes| && position + |bytes| <= capacity
      modifies Repr
      ensures Shape() && Repr == old(Repr) && unchanged(`position, `size, `capacity, `chain)
      ensures Replaced(old(content), content, position, bytes)
    {
      hide Linked, Holds, Chained, Consecutive, Total, Replaced;
      ghost var before := content;
      NothingReplaced(content, position);
      assert slices[..0] == [] && bytes[..0] == [];
      NoSlices(chain, baseSize, index, offset);
      if |slices| > 0 {
        SliceAt(slices, chain, baseSize, index, offset, 0);
      }
      var i, done: nat := 0, 0;
      while i < |slices|
        invariant 0 <= i <= |slices| && done == Total(slices[..i]) <= |bytes|
        invariant Shape() && Repr == old(Repr) && |content| == |before|
        invariant unchanged(`position, `size, `capacity, `chain, `index, `offset)
        invariant i < |slices| ==> position + done == Span(index + i, baseSize) + slices[i].offset
        invariant Replaced(before, content, position, bytes[..done])
      {
        var s := slices[i];
        SliceAt(slices, chain, baseSize, index, offset, i);
        TotalStep(slices, i);
        ChunkFacts(index + i);
        ghost var halfway := content;
        CopyTo(index + i, s.data, s.offset, bytes[done..done + s.length]);
        ReplacedMore(before, halfway, content, position, bytes, done, s.length);
        done := done + s.length;
        i := i + 1;
      }
      assert slices[..i] == slices && bytes[..done] == bytes;
    }

    /** Filling the slices and then moving the position is a write. */
    method WriteThroughBuffers(bytes: seq<byte>)
      requires Valid()
      modifies Repr
      ensures Valid() && fresh(Repr - old(Repr))
      ensures Writes(old(Model()), Model(), bytes)
    {
      hide Linked, Holds, Chained, Consecutive, Total, RoundUp;
      var slices, total := GetWriteBuffers(|bytes|);
      RoundUpIsLeast(position + |bytes|, baseSize, 0);
      Scatter(slices, bytes);
      var r := SetPosition(position + |bytes|);
    }

    /** Slices holding the next `n` readable bytes, or all of them when there are fewer. */
    method GetReadBuffers(n: nat) returns (slices: seq<Slice>, total: nat)
      requires Valid()
      ensures total == if n > |Model().Readable()| then |Model().Readable()| else n
      ensures Consecutive(slices, chain, baseSize, index, offset) && Total(slices) == total
      ensures InBounds(slices) && Gathered(slices) == Model().Readable()[..total]
    {
      hide Linked, Holds, Chained, Consecutive;
      CursorFacts();
      total := if n > GetReadSize() then GetReadSize() else n;
      if total == 0 {
        NoSlices(chain, baseSize, index, offset);
        return [], 0;
      }
      slices := SliceUp(total);
      SlicesInBounds(slices);
      GatheredIsContent(slices, |slices|);
      assert slices[..|slices|] == slices;
      SliceTake(content, position, size, total);
    }

    lemma SlicesInBounds(slices: seq<Slice>)
      requires Shape() && Consecutive(slices, chain, baseSize, index, offset)
      ensures InBounds(slices)
    {
      forall s | s in slices
        ensures s.offset + s.length <= s.data.Length
      {
        var i :| 0 <= i < |slices| && slices[i] == s;
        ChunkFacts(index + i);
      }
    }

    /** Where slice `i` starts. */
    lemma {:induction false} SliceStart(slices: seq<Slice>, i: nat)
      requires Shape() && Consecutive(slices, chain, baseSize, index, offset) && i < |slices|
      ensures position + Total(slices[..i]) == Span(index + i, baseSize) + slices[i].offset
      ensures slices[i].offset + slices[i].length <= baseSize
      ensures index + i < |chain| && slices[i].data == chain[index + i].data
    {
      hide Linked, Holds, Chained, Consecutive;
      SliceAt(slices, chain, baseSize, index, offset, i);
      if i > 0 {
        SliceStart(slices, i - 1);
        SliceAt(slices, chain, baseSize, index, offset, i - 1);
        TotalStep(slices, i - 1);
      }
    }

    /** Gathering the first `i` slices collects the content from the position on. */
    lemma {:induction false} GatheredIsContent(slices: seq<Slice>, i: nat)
      requires Shape() && Consecutive(slices, chain, baseSize, index, offset) && i <= |slices|
      requires InBounds(slices) && position + Total(slices) <= capacity
      ensures Total(slices[..i]) <= Total(slices) && InBounds(slices[..i])
      ensures Gathered(slices[..i]) == content[position..position + Total(slices[..i])]
    {
      hide Linked, Holds, Chained, Consecutive, Total;
      TotalMonotone(slices, i);
      if i == 0 {
        NoSlices(chain, baseSize, index, offset);
        assert slices[..0] == [];
      } else {
        GatheredIsContent(slices, i - 1);
        SliceStart(slices, i - 1);
        TotalStep(slices, i - 1);
        assert slices[..i][..i - 1] == slices[..i - 1];
        var last := slices[i - 1];
        ChunkSlice(index + i - 1, last.offset, last.offset + last.length);
        AppendSlice(content, position, Total(slices[..i - 1]), last.length);
      }
    }

    /** The overload of `Read` with a position of its own, which does not move the cursor. It starts
        in the cursor's chunk whatever that position is, so it reads at `ReadAtStart`. */
    method ReadAt(n: nat, at: nat) returns (r: Result<seq<byte>>)
      requires Valid()
      ensures
        var q := ReadAtStart(at);
        r == if n > Wrap(size - at, W64) then Failure(OutOfRange)
             else if cur == null || q + n > capacity then Failure(NullCursor)
             else Success(content[q..q + n])
    {
      hide Linked, Holds, Chained, Wrap;
      CursorFacts();
      if n > Wrap(size - at, W64) {
        return Failure(OutOfRange);
      }
      if cur == null {
        return Failure(NullCursor);
      }
      r := CopyFrom(n, OffsetOf(at, baseSize));
    }

    /** Its copying loop, which fails when it walks past the last chunk. */
    method CopyFrom(n: nat, start: nat) returns (r: Result<seq<byte>>)
      requires Shape() && cur != null && start < baseSize
      ensures
        var q := Span(index, baseSize) + start;
        r == if q + n > capacity then Failure(NullCursor) else Success(content[q..q + n])
    {
      hide Linked, Holds, Chained;
      ChunkFacts(index);
      SpanMonotone(index, |chain|, baseSize);
      var remaining: nat, npos: nat := n, start;
      var ncap: nat := cur.size - npos;
      var chunk: Chunk, buf: seq<byte> := cur, [];
      ghost var k: nat, q: nat := index, Span(index, baseSize) + start;
      while remaining > 0
        invariant |chain| > 0 && k < |chain| && chunk == chain[k] && |buf| + remaining == n
        invariant q + |buf| <= capacity && buf == content[q..q + |buf|]
        invariant remaining > 0 ==>
                    npos < baseSize && ncap == baseSize - npos && q + |buf| == Span(k, baseSize) + npos
      {
        var count := if ncap >= remaining then remaining else ncap;
        var piece := CopyOut(k, chunk, npos, count);
        AppendSlice(content, q, |buf|, count);
        buf := buf + piece;
        ChunkFacts(k);
        if ncap >= remaining {
          remaining := 0;
        } else {
          remaining := remaining - count;
          if chunk.next == null {
            return Failure(NullCursor);
          }
          chunk, k := chunk.next, k + 1;
          ChunkFacts(k);
          ncap, npos := chunk.size, 0;
        }
      }
      r := Success(buf);
    }

    method CopyOut(ghost k: nat, chunk: Chunk, npos: nat, n: nat) returns (piece: seq<byte>)
      requires Shape() && k < |chain| && chunk == chain[k] && npos + n <= baseSize
      ensures Span(k, baseSize) + npos + n <= capacity
      ensures piece == content[Span(k, baseSize) + npos..Span(k, baseSize) + npos + n]
    {
      ChunkFacts(k);
      ChunkSlice(k, npos, npos + n);
      piece := chunk.data[npos..npos + n];
    }

    /** Where `ReadAt` reads: the offset is that of `at`, the chunk that of the cursor. */
    ghost function ReadAtStart(at: nat): nat
      requires baseSize > 0
      reads this
    {
      Span(index, baseSize) + OffsetOf(at, baseSize)
    }

    /** That is the requested position exactly when it lies in the cursor's chunk. */
    lemma ReadAtIsRight(at: nat)
      requires Shape()
      ensures ReadAtStart(at) == at <==> IndexOf(at, baseSize) == IndexOf(position, baseSize)
    {
      CursorFacts();
      var k, j := IndexOf(at, baseSize), OffsetOf(at, baseSize);
      if k < index {
        SpanMonotone(k, index, baseSize);
      } else if index < k {
        SpanMonotone(index, k, baseSize);
      }
    }

    /** All readable bytes, leaving the buffer as it is. */
    method ToString() returns (text: seq<byte>)
      requires Valid() && size < Modulus(W64)
      ensures text == Model().Readable()
    {
      hide Linked, Holds, Chained;
      CursorFacts();
      if GetReadSize() == 0 {
        return [];
      }
      ReadAtIsRight(position);
      var r := ReadAt(GetReadSize(), position);
      text := r.value;
    }

    method WriteFint(n: nat, value: nat)
      requires Valid()
      modifies Repr
      ensures Valid() && fresh(Repr - old(Repr))
      ensures Writes(old(Model()), Model(), ToLittleEndian(n, value))
    {
      Write(ToLittleEndian(n, value));
    }

    method WriteUint(number: nat, w: Width)
      requires Valid() && IsUnsigned(number, w)
      modifies Repr
      ensures Valid() && fresh(Repr - old(Repr))
      ensures Writes(old(Model()), Model(), EncodeVarint(number))
    {
      var tmp := VarintBytes(number, w);
      Write(tmp);
    }

    method WriteInt(value: int, w: Width)
      requires Valid() && IsSigned(value, w)
      modifies Repr
      ensures Valid() && fresh(Repr - old(Repr))
      ensures Writes(old(Model()), Model(), EncodeInt(value, w))
    {
      WriteUint(EncodeZigzag(value, w), w);
    }

    method WriteStringF(n: nat, text: seq<byte>)
      requires Valid()
      modifies Repr
      ensures Valid() && fresh(Repr - old(Repr))
      ensures Writes(old(Model()), Model(), EncodeStringF(n, text))
    {
      hide Linked, Holds, Chained, Writes;
      WriteFint(n, |text|);
      ghost var halfway := Model();
      Write(text);
      WritesCompose(old(Model()), halfway, Model(), ToLittleEndian(n, |text|), text);
    }

    method WriteStringVint(text: seq<byte>)
      requires Valid() && |text| < Modulus(W64)
      modifies Repr
      ensures Valid() && fresh(Repr - old(Repr))
      ensures Writes(old(Model()), Model(), EncodeStringVint(text))
    {
      hide Linked, Holds, Chained, Writes;
      WriteUint(|text|, W64);
      ghost var halfway := Model();
      Write(text);
      WritesCompose(old(Model()), halfway, Model(), EncodeVarint(|text|), text);
    }

    method ReadFint(n: nat) returns (r: Result<nat>)
      requires Valid() && n > 0
      modifies this`cur, this`position, this`index, this`offset
      ensures Valid()
      ensures
        var p := DecodeFint(n, old(Model()).Readable());
        r == p.result && Model() == old(Model()).After(p.rest)
    {
      hide Linked, Holds, Chained;
      var bytes := Read(n);
      r := if bytes.Failure? then Failure(bytes.error) else Success(FromLittleEndian(bytes.value));
    }

    method ReadFuint8() returns (r: Result<byte>)
      requires Valid()
      modifies this`cur, this`position, this`index, this`offset
      ensures Valid()
      ensures
        var bytes := old(Model()).Readable();
        if bytes == [] then r == Failure(OutOfRange) && Model() == old(Model())
        else r == Success(bytes[0]) && Model() == old(Model()).After(bytes[1..])
    {
      hide Linked, Holds, Chained;
      var buf := Read(1);
      r := if buf.Failure? then Failure(buf.error) else Success(buf.value[0]);
    }

    /** Reads seven bits a round until a byte has its top bit clear or the width is exhausted. */
    method ReadUint(w: Width) returns (r: Result<nat>)
      requires Valid()
      modifies this`cur, this`position, this`index, this`offset
      ensures Valid()
      ensures
        var p := DecodeVarint(old(Model()).Readable(), w);
        r == p.result && Model() == old(Model()).After(p.rest)
    {
      hide Linked, Holds, Chained, DecodeGroups, ShiftGroup, Plus, Flat.Readable;
      var result: nat, k := 0, 0;
      ghost var f, bytes := Model(), Model().Readable();
      StartGroups(bytes, w);
      while k < Groups(w)
        invariant 0 <= k <= Groups(w) && Valid()
        invariant |bytes| <= f.size - f.position && Model() == f.After(bytes)
        invariant f.After(bytes).Readable() == bytes
        invariant DecodeVarint(f.Readable(), w) == Plus(result, DecodeGroups(bytes, k, w))
      {
        GroupStep(bytes, k, w, result);
        if bytes != [] {
          AfterOneByte(f, bytes);
        }
        var b := ReadFuint8();
        if b.Failure? {
          return Failure(b.error);
        }
        bytes := bytes[1..];
        if b.value < 0x80 {
          return Success(result + ShiftGroup(b.value, k, w));
        } else {
          result := result + ShiftGroup(b.value - 0x80, k, w);
        }
        k := k + 1;
      }
      OutOfGroups(bytes, w, result);
      r := Success(result);
    }

    method ReadInt(w: Width) returns (r: Result<int>)
      requires Valid()
      modifies this`cur, this`position, this`index, this`offset
      ensures Valid()
      ensures
        var p := DecodeInt(old(Model()).Readable(), w);
        r == p.result && Model() == old(Model()).After(p.rest)
    {
      hide Linked, Holds, Chained;
      DecodeVarintInRange(Model().Readable(), w);
      var u := ReadUint(w);
      r := if u.Failure? then Failure(u.error) else Success(DecodeZigzag(u.value, w));
    }

    method ReadStringF(n: nat) returns (r: Result<seq<byte>>)
      requires Valid() && n > 0
      modifies this`cur, this`position, this`index, this`offset
      ensures Valid()
      ensures
        var f := old(Model());
        var p := DecodeStringF(n, f.Readable(), f.Full());
        r == p.result && Model() == f.After(p.rest)
    {
      hide Linked, Holds, Chained, TakeBytes, Flat.After, Flat.Readable, DecodeFint;
      ghost var f := Model();
      ghost var p := DecodeFint(n, f.Readable());
      ghost var q := DecodeStringF(n, f.Readable(), f.Full());
      FintSuffix(n, f.Readable());
      AfterSuffix(f, p.rest, q.rest);
      var length := ReadFint(n);
      if length.Failure? {
        return Failure(length.error);
      }
      r := Read(length.value);
    }

    method ReadStringVint() returns (r: Result<seq<byte>>)
      requires Valid()
      modifies this`cur, this`position, this`index, this`offset
      ensures Valid()
      ensures
        var f := old(Model());
        var p := DecodeStringVint(f.Readable(), f.Full());
        r == p.result && Model() == f.After(p.rest)
    {
      hide Linked, Holds, Chained, TakeBytes, Flat.After, Flat.Readable, DecodeVarint;
      ghost var f := Model();
      ghost var p := DecodeVarint(f.Readable(), W64);
      ghost var q := DecodeStringVint(f.Readable(), f.Full());
      VarintSuffix(f.Readable(), W64);
      AfterSuffix(f, p.rest, q.rest);
      var length := ReadUint(W64);
      if length.Failure? {
        return Failure(length.error);
      }
      r := Read(length.value);
    }
  }

  lemma NothingReplaced(content: seq<byte>, at: nat)
    requires at <= |content|
    ensures Replaced(content, content, at, [])
  {
  }

  lemma SliceTake(s: seq<byte>, i: nat, j: nat, n: nat)
    requires i + n <= j <= |s|
    ensures s[i..j][..n] == s[i..i + n] && s[i..j][n..] == s[i + n..j]
  {
  }

  lemma AppendSlice(s: seq<byte>, start: nat, done: nat, n: nat)
    requires start + done + n <= |s|
    ensures s[start..start + done] + s[start + done..start + done + n] == s[start..start + done + n]
  {
  }

  lemma FirstBlock(mem: seq<array<byte>>, content: seq<byte>, base: nat)
    requires Holds(mem, content) && |mem| > 0 && mem[0].Length == base
    ensures base <= |content| && Holds([mem[0]], content[..base])
  {
    assert Blocks([mem[0]]) == [mem[0][..]];
    assert Concat([mem[0][..]]) == mem[0][..] + Concat([]);
  }

  lemma WholeChunks(k: nat, b: nat)
    requires b > 0 && k > 0
    ensures RoundUp(Span(k, b), b) == Span(k, b) >= b
  {
    RoundUpIsLeast(Span(k, b), b, k);
    SpanMonotone(1, k, b);
  }

  /** The number of chunks to append, and where the position is among the chunks. */
  lemma GrowthCount(k: nat, b: nat, p: nat, n: nat)
    requires b > 0 && p <= Span(k, b)
    ensures p + n <= Span(k, b) ==> RoundUp(p + n, b) <= Span(k, b)
    ensures
      p + n > Span(k, b) ==>
        var count := IndexOf(p + n - Span(k, b) + b - 1, b);
        count > 0 && RoundUp(p + n, b) == Span(k + count, b) && Span(k, b) < Span(k + count, b)
  {
    RoundUpIsLeast(p + n, b, k);
    if p + n > Span(k, b) {
      var m := p + n - Span(k, b) + b - 1;
      var count, offset := IndexOf(m, b), OffsetOf(m, b);
      SpanAdd(k, count, b);
      IndexOfSpan(k + count, offset, b);
      SpanMonotone(1, count, b);
    }
  }
}
