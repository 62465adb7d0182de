// What sets and maps make of duplicates: of any bytes they read what a container that keeps everything
// reads, and keep the first of each.

module SerialDistinct {
  import opened Bytes
  import opened FlatBuffer
  import opened Zigzag
  import opened Varint
  import opened Codecs
  import opened SerialTypes
  import opened SerialCodec
  import opened SerialProofs

  /** Sets, and maps with unique keys. */
  predicate DropsDuplicates(t: Type) {
    (t.Coll? && t.kind == Distinct) || (t.Assoc? && t.unique)
  }

  /** The container of the same elements that keeps everything, in the order read. */
  function Keeping(t: Type): Type
    requires t.Coll? || t.Assoc?
  {
    match t
    case Coll(_, e) => Coll(Ordered, e)
    case Assoc(_, k, v) => Assoc(false, k, v)
  }

  /** What makes two elements duplicates: that they are equal, or have equal keys. */
  function Ids(t: Type, items: seq<Value>): (ids: seq<Value>)
    ensures |ids| == |items|
  {
    if t.Assoc? then Keys(items) else items
  }

  /** No two are duplicates, every element is a duplicate of one kept, and the one kept came first. */
  ghost predicate KeepsFirsts(t: Type, kept: seq<Value>, all: seq<Value>) {
    var ids := Ids(t, all);
    && NoDuplicates(Ids(t, kept))
    && (forall i :: 0 <= i < |all| ==> ids[i] in Ids(t, kept))
    && (forall m :: m in kept ==> IsFirst(ids, all, m))
  }

  ghost predicate IsFirst(ids: seq<Value>, all: seq<Value>, m: Value)
    requires |ids| == |all|
  {
    exists i :: 0 <= i < |all| && all[i] == m && forall j :: 0 <= j < i ==> ids[j] != ids[i]
  }

  lemma IdsOfMore(t: Type, items: seq<Value>, x: Value)
    ensures Ids(t, items + [x]) == Ids(t, items) + Ids(t, [x])
    ensures Ids(t, [x]) == [if t.Assoc? then KeyOf(x) else x]
  {
  }

  lemma StaysFirst(t: Type, all: seq<Value>, x: Value, m: Value)
    requires IsFirst(Ids(t, all), all, m)
    ensures IsFirst(Ids(t, all + [x]), all + [x], m)
  {
    IdsOfMore(t, all, x);
    hide Ids;
    var i :| 0 <= i < |all| && all[i] == m && forall j :: 0 <= j < i ==> Ids(t, all)[j] != Ids(t, all)[i];
    assert (all + [x])[i] == m;
  }

  /** One more element. */
  lemma EmplaceKeeps(t: Type, kept: seq<Value>, all: seq<Value>, x: Value)
    requires DropsDuplicates(t) && KeepsFirsts(t, kept, all)
    ensures KeepsFirsts(t, Emplace(kept, x, t), all + [x])
  {
    EmplaceIs(t, kept, x);
    IdsOfMore(t, all, x);
    IdsOfMore(t, kept, x);
    hide Emplace, Ids, IsFirst;
    var id, more := Ids(t, [x])[0], all + [x];
    forall m | m in Emplace(kept, x, t)
      ensures IsFirst(Ids(t, more), more, m)
    {
      if m in kept {
        StaysFirst(t, all, x, m);
      } else {
        NewIsFirst(t, kept, all, x);
      }
    }
  }

  lemma EmplaceIs(t: Type, kept: seq<Value>, x: Value)
    requires DropsDuplicates(t)
    ensures Emplace(kept, x, t) == if Ids(t, [x])[0] in Ids(t, kept) then kept else kept + [x]
  {
  }

  lemma NewIsFirst(t: Type, kept: seq<Value>, all: seq<Value>, x: Value)
    requires KeepsFirsts(t, kept, all) && Ids(t, [x])[0] !in Ids(t, kept)
    ensures IsFirst(Ids(t, all + [x]), all + [x], x)
  {
    IdsOfMore(t, all, x);
    hide Ids;
    assert (all + [x])[|all|] == x;
  }

  lemma SameElement(t: Type, bytes: seq<byte>, full: bool)
    requires t.Coll? || t.Assoc?
    ensures DecodeElement(Keeping(t), bytes, full) == DecodeElement(t, bytes, full)
  {
  }

  /** The two reading loops, side by side. */
  lemma {:induction false} ReadsFirsts(t: Type, n: nat, kept: seq<Value>, all: seq<Value>,
                                       bytes: seq<byte>, full: bool)
    requires DropsDuplicates(t) && KeepsFirsts(t, kept, all)
    ensures
      var p, q := DecodeItems(t, n, kept, bytes, full), DecodeItems(Keeping(t), n, all, bytes, full);
      && p.rest == q.rest
      && if q.result.Failure? then p.result == q.result
         else
           && p.result.Success? && p.result.value.Items? && q.result.value.Items?
           && KeepsFirsts(t, p.result.value.items, q.result.value.items)
    decreases n
  {
    hide KeepsFirsts, DecodeElement;
    if n > 0 {
      SameElement(t, bytes, full);
      var e := DecodeElement(t, bytes, full);
      if e.result.Success? {
        var x := e.result.value;
        EmplaceKeeps(t, kept, all, x);
        assert Emplace(all, x, Keeping(t)) == all + [x];
        ReadsFirsts(t, n - 1, Emplace(kept, x, t), all + [x], e.rest, full);
      }
    }
  }

  /** Of any bytes, a set or a map reads what a container that keeps everything reads, fails as it does,
      leaves the same rest, and has the first of each duplicate and no other. */
  lemma DuplicatesAreDropped(t: Type, bytes: seq<byte>, full: bool)
    requires DropsDuplicates(t)
    ensures
      var p, q := Decode(t, bytes, full), Decode(Keeping(t), bytes, full);
      && p.rest == q.rest
      && if q.result.Failure? then p.result == q.result
         else
           && p.result.Success? && p.result.value.Items? && q.result.value.Items?
           && KeepsFirsts(t, p.result.value.items, q.result.value.items)
  {
    var n := DecodeVarint(bytes, W64);
    assert KeepsFirsts(t, [], []);
    if n.result.Success? {
      ReadsFirsts(t, n.result.value, [], [], n.rest, full);
    }
    hide KeepsFirsts, DecodeItems;
  }

  lemma {:induction false} ReadsAll(t: Type, n: nat, items: seq<Value>, bytes: seq<byte>, full: bool)
    requires (t.Coll? || t.Assoc?) && !DropsDuplicates(t)
    ensures DecodeItems(t, n, items, bytes, full) == DecodeItems(Keeping(t), n, items, bytes, full)
    ensures
      var p := DecodeItems(t, n, items, bytes, full);
      p.result.Success? ==> p.result.value.Items? && |p.result.value.items| == |items| + n && items <= p.result.value.items
    decreases n
  {
    hide DecodeElement;
    if n > 0 {
      SameElement(t, bytes, full);
      var e := DecodeElement(t, bytes, full);
      if e.result.Success? {
        ReadsAll(t, n - 1, Emplace(items, e.result.value, t), e.rest, full);
      }
    }
  }

  /** The other containers keep all elements, as many as the length in front says, in the order read. */
  lemma OthersKeepAll(t: Type, bytes: seq<byte>, full: bool)
    requires (t.Coll? || t.Assoc?) && !DropsDuplicates(t)
    ensures Decode(t, bytes, full) == Decode(Keeping(t), bytes, full)
    ensures
      var n, p := DecodeVarint(bytes, W64), Decode(t, bytes, full);
      p.result.Success? ==> n.result.Success? && p.result.value.Items? && |p.result.value.items| == n.result.value
  {
    var n := DecodeVarint(bytes, W64);
    if n.result.Success? {
      ReadsAll(t, n.result.value, [], n.rest, full);
    }
    hide DecodeItems;
  }

  // ------------------------------------------------------------------ what is read is of the type

  lemma ScalarHasType(s: Scalar, bytes: seq<byte>, full: bool)
    ensures
      var r := DecodeScalar(s, bytes, full).result;
      r.Success? ==> HasScalar(r.value, s)
    ensures s.Bool? && bytes != [] ==> DecodeScalar(s, bytes, full) == Ok(Num(if bytes[0] == 0 then 0 else 1), bytes[1..])
  {
    hide DecodeStringVint, DecodeVarint;
    match s
    case Bool =>
      if bytes != [] {
        assert bytes[..1] == [bytes[0]];
        assert FromLittleEndian([bytes[0]]) == bytes[0] + 256 * FromLittleEndian([]);
      }
    case Fixed(n, _) => hide FromLittleEndian, HalfRange;
    case Packed(w, _) => DecodeVarintInRange(bytes, w);
    case Text => TextHasType(bytes, full);
  }

  lemma TextHasType(bytes: seq<byte>, full: bool)
    ensures
      var r := DecodeStringVint(bytes, full).result;
      r.Success? ==> |r.value| < Modulus(W64)
  {
    DecodeVarintInRange(bytes, W64);
    hide DecodeVarint;
  }

  lemma {:induction false} OneMoreTyped(items: seq<Value>, x: Value, t: Type)
    requires AllHaveType(items, t) && HasType(x, t)
    ensures AllHaveType(items + [x], t)
  {
    if items == [] {
      assert [x][1..] == [];
    } else {
      OneMoreTyped(items[1..], x, t);
      assert (items + [x])[1..] == items[1..] + [x];
    }
  }

  lemma {:induction false} ItemsHaveType(t: Type, n: nat, items: seq<Value>, bytes: seq<byte>, full: bool)
    requires (t.Coll? || t.Assoc?) && AllHaveType(items, ElementType(t))
    ensures
      var r := DecodeItems(t, n, items, bytes, full).result;
      r.Success? ==> r.value.Items? && AllHaveType(r.value.items, ElementType(t)) && |r.value.items| <= |items| + n
    decreases Rank(t), 1, n
  {
    hide DecodeElement;
    if n > 0 {
      var e := DecodeElement(t, bytes, full);
      if e.result.Success? {
        ElementHasType(t, bytes, full);
        OneMoreTyped(items, e.result.value, ElementType(t));
        ItemsHaveType(t, n - 1, Emplace(items, e.result.value, t), e.rest, full);
      }
    }
  }

  lemma {:induction false} ElementHasType(t: Type, bytes: seq<byte>, full: bool)
    requires t.Coll? || t.Assoc?
    ensures
      var r := DecodeElement(t, bytes, full).result;
      r.Success? ==> HasType(r.value, ElementType(t))
    decreases Rank(t), 0
  {
    hide DecodeScalar;
    match t
    case Coll(_, Basic(s)) => ScalarHasType(s, bytes, full);
    case Coll(_, e) => DefaultHasType(e);
    case Assoc(_, k, v) =>
      DecodeHasType(k, bytes, full);
      DecodeHasType(v, Decode(k, bytes, full).rest, full);
  }

  /** Whatever the bytes are, a value that is read is one of the type. */
  lemma {:induction false} DecodeHasType(t: Type, bytes: seq<byte>, full: bool)
    ensures
      var r := Decode(t, bytes, full).result;
      r.Success? ==> HasType(r.value, t)
    decreases Rank(t), 2
  {
    hide DecodeScalar, DecodeItems, DecodeVarint;
    match t
    case Basic(s) => ScalarHasType(s, bytes, full);
    case Pair(a, b) =>
      DecodeHasType(a, bytes, full);
      DecodeHasType(b, Decode(a, bytes, full).rest, full);
    case _ =>
      DecodeVarintInRange(bytes, W64);
      var n := DecodeVarint(bytes, W64);
      if n.result.Success? {
        ItemsHaveType(t, n.result.value, [], n.rest, full);
      }
      if DropsDuplicates(t) {
        DuplicatesAreDropped(t, bytes, full);
      }
  }
}
