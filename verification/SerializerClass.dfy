// The serializer object: `<<` and `>>` on a byte buffer.

module Serializers {
  import opened Bytes
  import opened FlatBuffer
  import opened Zigzag
  import opened Varint
  import opened Codecs
  import opened Chunking
  import opened Chunks
  import opened Buffers
  import opened SerialTypes
  import opened SerialCodec
  import opened SerialProofs

  predicate IsSuffix(rest: seq<byte>, bytes: seq<byte>) {
    |rest| <= |bytes| && rest == bytes[|bytes| - |rest|..]
  }

  lemma SuffixTransitive(a: seq<byte>, b: seq<byte>, c: seq<byte>)
    requires IsSuffix(a, b) && IsSuffix(b, c)
    ensures IsSuffix(a, c)
  {
  }

  lemma StringVintSuffix(bytes: seq<byte>, full: bool)
    ensures IsSuffix(DecodeStringVint(bytes, full).rest, bytes)
  {
    hide DecodeVarint;
    VarintSuffix(bytes, W64);
  }

  lemma ScalarSuffix(s: Scalar, bytes: seq<byte>, full: bool)
    ensures IsSuffix(DecodeScalar(s, bytes, full).rest, bytes)
  {
    hide DecodeVarint, DecodeFint, DecodeStringVint;
    match s
    case Bool => FintSuffix(1, bytes);
    case Fixed(n, _) => FintSuffix(n, bytes);
    case Packed(w, _) => VarintSuffix(bytes, w);
    case Text => StringVintSuffix(bytes, full);
  }

  /** A read leaves the end of what was readable. */
  lemma {:induction false} DecodeSuffix(t: Type, bytes: seq<byte>, full: bool)
    ensures IsSuffix(Decode(t, bytes, full).rest, bytes)
    decreases Rank(t), 0
  {
    hide DecodeVarint, DecodeScalar, DecodeItems, IsSuffix;
    match t
    case Basic(s) => ScalarSuffix(s, bytes, full);
    case Pair(a, b) =>
      var p := Decode(a, bytes, full);
      DecodeSuffix(a, bytes, full);
      DecodeSuffix(b, p.rest, full);
      SuffixTransitive(Decode(b, p.rest, full).rest, p.rest, bytes);
    case _ =>
      var p := DecodeVarint(bytes, W64);
      LengthSuffix(bytes);
      if p.result.Success? {
        ItemsSuffix(t, p.result.value, [], p.rest, full);
        SuffixTransitive(DecodeItems(t, p.result.value, [], p.rest, full).rest, p.rest, bytes);
      }
  }

  lemma LengthSuffix(bytes: seq<byte>)
    ensures IsSuffix(DecodeVarint(bytes, W64).rest, bytes)
  {
    hide DecodeVarint;
    VarintSuffix(bytes, W64);
  }

  lemma {:induction false} ItemsSuffix(t: Type, n: nat, items: seq<Value>, bytes: seq<byte>, full: bool)
    requires t.Coll? || t.Assoc?
    ensures IsSuffix(DecodeItems(t, n, items, bytes, full).rest, bytes)
    decreases Rank(t) - 1, n + 1
  {
    hide DecodeElement, Emplace;
    if n > 0 {
      hide IsSuffix;
      ElementSuffix(t, bytes, full);
      var p := DecodeElement(t, bytes, full);
      if p.result.Success? {
        ItemsSuffix(t, n - 1, Emplace(items, p.result.value, t), p.rest, full);
        SuffixTransitive(DecodeItems(t, n, items, bytes, full).rest, p.rest, bytes);
      }
    }
  }

  lemma {:induction false} ElementSuffix(t: Type, bytes: seq<byte>, full: bool)
    requires t.Coll? || t.Assoc?
    ensures IsSuffix(DecodeElement(t, bytes, full).rest, bytes)
    decreases Rank(t) - 1, 0
  {
    hide Decode, DecodeScalar;
    match t
    case Coll(_, Basic(s)) => ScalarSuffix(s, bytes, full);
    case Coll(_, _) =>
    case Assoc(_, k, v) =>
      hide IsSuffix;
      var p := Decode(k, bytes, full);
      DecodeSuffix(k, bytes, full);
      DecodeSuffix(v, p.rest, full);
      SuffixTransitive(Decode(v, p.rest, full).rest, p.rest, bytes);
  }

  lemma WritesNothing(f: Flat)
    requires f.Valid()
    ensures Writes(f, f, [])
  {
    CapacityForNothing(f);
  }

  /** Reading a pair is reading its halves in turn, each from the buffer the other left. */
  lemma PairStep(a: Type, b: Type, f: Flat)
    requires f.Valid()
    ensures
      var p := Decode(a, f.Readable(), f.Full());
      var g := f.After(p.rest);
      var q := Decode(b, g.Readable(), g.Full());
      && g.Readable() == p.rest && g.Full() == f.Full() && g.After(q.rest) == f.After(q.rest)
      && Decode(Pair(a, b), f.Readable(), f.Full())
         == if p.result.Failure? then p
            else if q.result.Failure? then q
            else Ok(Two(p.result.value, q.result.value), q.rest)
  {
    hide Decode, Flat.Full;
    var p := Decode(a, f.Readable(), f.Full());
    DecodeSuffix(a, f.Readable(), f.Full());
    DecodeSuffix(b, p.rest, f.Full());
    AfterSuffix(f, p.rest, Decode(b, p.rest, f.Full()).rest);
    DecodeTwo(a, b, f.Readable(), f.Full());
  }

  lemma DecodeTwo(a: Type, b: Type, bytes: seq<byte>, full: bool)
    ensures
      var p := Decode(a, bytes, full);
      var q := Decode(b, p.rest, full);
      Decode(Pair(a, b), bytes, full)
      == if p.result.Failure? then p
         else if q.result.Failure? then q
         else Ok(Two(p.result.value, q.result.value), q.rest)
  {
    hide DecodeScalar, DecodeItems, DecodeVarint;
  }

  class Serializer {
    const bytes: ByteArray

    ghost predicate Valid()
      reads bytes, bytes.Repr
    {
      bytes.Valid()
    }

    ghost function Model(): (f: Flat)
      requires Valid()
      reads bytes, bytes.Repr
      ensures f.Valid()
    {
      bytes.Model()
    }

    constructor (base: nat)
      requires base > 0
      ensures Valid() && fresh(bytes.Repr) && fresh(bytes)
      ensures var f := Model();
              f.base == |f.content| == base && f.position == f.size == 0
    {
      bytes := new ByteArray(base);
    }

    method WriteScalar(v: Value, s: Scalar)
      requires Valid() && HasScalar(v, s)
      modifies bytes.Repr
      ensures Valid() && fresh(bytes.Repr - old(bytes.Repr))
      ensures Writes(old(Model()), Model(), EncodeScalar(v, s))
    {
      hide Linked, Holds, Writes, ByteArray.Chained;
      match s
      case Bool => bytes.WriteFint(1, v.n);
      case Fixed(n, signed) => bytes.WriteFint(n, if signed then ToUnsigned(n, v.n) else v.n);
      case Packed(w, signed) =>
        if signed {
          bytes.WriteInt(v.n, w);
        } else {
          bytes.WriteUint(v.n, w);
        }
      case Text => bytes.WriteStringVint(v.text);
    }

    /** `<<`. */
    method Write(v: Value, t: Type)
      requires Valid() && HasType(v, t)
      modifies bytes.Repr
      ensures Valid() && fresh(bytes.Repr - old(bytes.Repr))
      ensures Writes(old(Model()), Model(), Encode(v, t))
      decreases Rank(t), 0
    {
      hide Linked, Holds, Writes, ByteArray.Valid;
      match t
      case Basic(s) => WriteScalar(v, s);
      case Pair(a, b) =>
        Write(v.first, a);
        ghost var halfway := Model();
        Write(v.second, b);
        WritesCompose(old(Model()), halfway, Model(), Encode(v.first, a), Encode(v.second, b));
      case _ =>
        bytes.WriteUint(|v.items|, W64);
        ghost var halfway := Model();
        WriteItems(v.items, ElementType(t));
        WritesCompose(old(Model()), halfway, Model(), EncodeVarint(|v.items|),
                      EncodeAll(v.items, ElementType(t)));
    }

    /** The writing loop of a container. */
    method WriteItems(items: seq<Value>, t: Type)
      requires Valid() && AllHaveType(items, t)
      modifies bytes.Repr
      ensures Valid() && fresh(bytes.Repr - old(bytes.Repr))
      ensures Writes(old(Model()), Model(), EncodeAll(items, t))
      decreases Rank(t), 1
    {
      hide Linked, Holds, Writes, ByteArray.Valid, Encode, HasType;
      var i := 0;
      ghost var done: seq<byte> := [];
      WritesNothing(Model());
      while i < |items|
        invariant 0 <= i <= |items| && AllHaveType(items[i..], t)
        invariant Valid() && fresh(bytes.Repr - old(bytes.Repr))
        invariant EncodeAll(items, t) == done + EncodeAll(items[i..], t)
        invariant Writes(old(Model()), Model(), done)
      {
        ghost var halfway := Model();
        assert items[i..][1..] == items[i + 1..];
        Write(items[i], t);
        WritesCompose(old(Model()), halfway, Model(), done, Encode(items[i], t));
        done := done + Encode(items[i], t);
        i := i + 1;
      }
      assert done == EncodeAll(items, t);
    }

    method ReadScalar(s: Scalar) returns (r: Result<Value>)
      requires Valid()
      modifies bytes`cur, bytes`position, bytes`index, bytes`offset
      ensures Valid()
      ensures
        var f := old(Model());
        var p := DecodeScalar(s, f.Readable(), f.Full());
        r == p.result && Model() == f.After(p.rest)
    {
      hide Linked, Holds, ByteArray.Valid, DecodeInt, DecodeFint, DecodeVarint, DecodeStringVint;
      hide Flat.Readable, Flat.After, Flat.Full;
      match s
      case Bool =>
        var b := bytes.ReadFint(1);
        r := if b.Failure? then Failure(b.error) else Success(Num(if b.value == 0 then 0 else 1));
      case Fixed(n, signed) =>
        FintBound(n, Model().Readable());
        var b := bytes.ReadFint(n);
        if b.Failure? {
          return Failure(b.error);
        }
        r := Success(Num(if signed then ToSigned(n, b.value) else b.value));
      case Packed(w, signed) =>
        if signed {
          var b := bytes.ReadInt(w);
          r := if b.Failure? then Failure(b.error) else Success(Num(b.value));
        } else {
          var b := bytes.ReadUint(w);
          r := if b.Failure? then Failure(b.error) else Success(Num(b.value));
        }
      case Text =>
        var b := bytes.ReadStringVint();
        r := if b.Failure? then Failure(b.error) else Success(Str(b.value));
    }

    /** `>>` into a default-constructed object. */
    method Read(t: Type) returns (r: Result<Value>)
      requires Valid()
      modifies bytes`cur, bytes`position, bytes`index, bytes`offset
      ensures Valid()
      ensures
        var f := old(Model());
        var p := Decode(t, f.Readable(), f.Full());
        r == p.result && Model() == f.After(p.rest)
      decreases Rank(t), 0
    {
      hide Linked, Holds, ByteArray.Valid, DecodeScalar, DecodeVarint, DecodeItems;
      hide Flat.Readable, Flat.After, Flat.Full;
      ghost var f := Model();
      match t
      case Basic(s) => r := ReadScalar(s);
      case Pair(a, b) => r := ReadTwo(a, b);
      case _ =>
        ghost var p := DecodeVarint(f.Readable(), W64);
        VarintSuffix(f.Readable(), W64);
        var n := bytes.ReadUint(W64);
        if n.Failure? {
          return Failure(n.error);
        }
        AfterSuffix(f, p.rest, DecodeItems(t, n.value, [], p.rest, f.Full()).rest);
        r := ReadItems(t, n.value, []);
    }

    method ReadTwo(a: Type, b: Type) returns (r: Result<Value>)
      requires Valid()
      modifies bytes`cur, bytes`position, bytes`index, bytes`offset
      ensures Valid()
      ensures
        var f := old(Model());
        var p := Decode(Pair(a, b), f.Readable(), f.Full());
        r == p.result && Model() == f.After(p.rest)
      decreases Rank(a) + Rank(b), 1
    {
      hide Linked, Holds, ByteArray.Valid, Decode, IsSuffix;
      hide Flat.Readable, Flat.After, Flat.Full;
      ghost var f := Model();
      PairStep(a, b, f);
      ghost var p := Decode(a, f.Readable(), f.Full());
      var x := Read(a);
      if x.Failure? {
        return x;
      }
      var y := Read(b);
      r := if y.Failure? then y else Success(Two(x.value, y.value));
    }

    method ReadElement(t: Type) returns (r: Result<Value>)
      requires Valid() && (t.Coll? || t.Assoc?)
      modifies bytes`cur, bytes`position, bytes`index, bytes`offset
      ensures Valid()
      ensures
        var f := old(Model());
        var p := DecodeElement(t, f.Readable(), f.Full());
        r == p.result && Model() == f.After(p.rest)
      decreases Rank(t) - 1, 2
    {
      hide Linked, Holds, ByteArray.Valid, DecodeScalar, DecodeItems;
      hide Flat.Readable, Flat.Full;
      match t
      case Coll(_, Basic(s)) => r := ReadScalar(s);
      case Coll(_, e) => r := Success(Default(e));
      case Assoc(_, k, v) => r := ReadTwo(k, v);
    }

    /** The reading loop of a container that has `items` already. */
    method ReadItems(t: Type, n: nat, already: seq<Value>) returns (r: Result<Value>)
      requires Valid() && (t.Coll? || t.Assoc?)
      modifies bytes`cur, bytes`position, bytes`index, bytes`offset
      ensures Valid()
      ensures
        var f := old(Model());
        var p := DecodeItems(t, n, already, f.Readable(), f.Full());
        r == p.result && Model() == f.After(p.rest)
      decreases Rank(t) - 1, 3
    {
      hide Linked, Holds, ByteArray.Valid, DecodeElement, Emplace;
      hide Flat.Readable, Flat.Full, Flat.After;
      ghost var f, rest := Model(), Model().Readable();
      AfterNothing(f);
      var items, i := already, 0;
      while i < n
        invariant 0 <= i <= n && Valid()
        invariant |rest| <= f.size - f.position && rest == f.Readable()[f.size - f.position - |rest|..]
        invariant Model() == f.After(rest)
        invariant DecodeItems(t, n, already, f.Readable(), f.Full())
               == DecodeItems(t, n - i, items, rest, f.Full())
      {
        ghost var p := DecodeElement(t, rest, f.Full());
        ElementSuffix(t, rest, f.Full());
        AfterSuffix(f, rest, p.rest);
        var x := ReadElement(t);
        if x.Failure? {
          return x;
        }
        rest := p.rest;
        items := Emplace(items, x.value, t);
        i := i + 1;
      }
      r := Success(Items(items));
    }

    method Reset()
      requires Valid()
      modifies bytes`cur, bytes`position, bytes`size, bytes`index, bytes`offset
      ensures Valid() && Model() == Moved(old(Model()), 0)
    {
      var r := bytes.SetPosition(0);
    }

    /** Moves by `n` bytes, backwards too. A position before the start is beyond any capacity once it is
        a size. */
    method Offset(n: int) returns (r: Result<()>)
      requires Valid()
      modifies bytes`cur, bytes`position, bytes`size, bytes`index, bytes`offset
      ensures Valid()
      ensures
        var f := old(Model());
        var to := f.position + n;
        if 0 <= to <= |f.content| then r == Success(()) && Model() == Moved(f, to)
        else r == Failure(OutOfRange) && Model() == f
    {
      var to := bytes.position + n;
      if to < 0 {
        return Failure(OutOfRange);
      }
      r := bytes.SetPosition(to);
    }
  }

  lemma FintBound(n: nat, bytes: seq<byte>)
    ensures
      var r := DecodeFint(n, bytes).result;
      r.Success? ==> r.value < Pow256(n)
  {
  }
}
