// Reading back what the serializer wrote.

module SerialProofs {
  import opened Bytes
  import opened FlatBuffer
  import opened Zigzag
  import opened Varint
  import opened Codecs
  import opened SerialTypes
  import opened SerialCodec

  /** The types that can be read: a vector or a set needs scalar elements, because its elements are
      read with `read` and not with `>>`. */
  predicate Supported(t: Type) {
    match t
    case Basic(_) => true
    case Coll(_, e) => e.Basic?
    case Pair(a, b) => Supported(a) && Supported(b)
    case Assoc(_, k, v) => Supported(k) && Supported(v)
  }

  function ElementType(t: Type): (e: Type)
    requires t.Coll? || t.Assoc?
    ensures Rank(e) < Rank(t)
  {
    if t.Coll? then t.elem else Pair(t.key, t.val)
  }

  /** The last thing written is an empty string. */
  predicate EndsEmpty(v: Value, t: Type)
    requires HasType(v, t)
    decreases Rank(t)
  {
    match t
    case Basic(s) => s.Text? && v.text == []
    case Pair(_, b) => EndsEmpty(v.second, b)
    case _ =>
      v.items != [] && (AllAt(v.items, ElementType(t), |v.items| - 1);
                        EndsEmpty(v.items[|v.items| - 1], ElementType(t)))
  }

  lemma {:induction false} AllAt(items: seq<Value>, t: Type, i: nat)
    requires AllHaveType(items, t) && i < |items|
    ensures HasType(items[i], t)
  {
    if i > 0 {
      AllAt(items[1..], t, i - 1);
    }
  }

  /** No read can return: the last string is empty and its prefix ends where the last chunk ends. */
  predicate Blocked(v: Value, t: Type, rest: seq<byte>, full: bool)
    requires HasType(v, t)
  {
    full && rest == [] && EndsEmpty(v, t)
  }

  function Outcome(v: Value, rest: seq<byte>, blocked: bool): Parsed<Value> {
    if blocked then Stop(NullCursor, []) else Ok(v, rest)
  }

  lemma {:induction false} EncodingNotEmpty(v: Value, t: Type)
    requires HasType(v, t)
    ensures Encode(v, t) != []
    decreases Rank(t)
  {
    if t.Pair? {
      EncodingNotEmpty(v.first, t.first);
    }
  }

  lemma ScalarRoundTrip(v: Value, s: Scalar, rest: seq<byte>, full: bool)
    requires HasScalar(v, s)
    ensures DecodeScalar(s, EncodeScalar(v, s) + rest, full)
         == Outcome(v, rest, s.Text? && AtBrink(v.text, rest, full))
  {
    match s
    case Bool => FintRoundTrip(1, v.n, rest);
    case Fixed(n, signed) =>
      if signed {
        FintRoundTrip(n, ToUnsigned(n, v.n), rest);
        SignedRoundTrip(n, v.n);
      } else {
        FintRoundTrip(n, v.n, rest);
      }
    case Packed(w, signed) =>
      if signed {
        IntRoundTrip(v.n, rest, w);
      } else {
        VarintRoundTrip(v.n, rest, w);
      }
    case Text => StringVintRoundTrip(v.text, rest, full);
  }

  /** A value of a supported type is read back, and exactly its bytes are consumed, except when it
      ends with an empty string at the brink of the capacity; then the read fails. */
  lemma {:induction false} RoundTrip(v: Value, t: Type, rest: seq<byte>, full: bool)
    requires HasType(v, t) && Supported(t)
    ensures Decode(t, Encode(v, t) + rest, full) == Outcome(v, rest, Blocked(v, t, rest, full))
    decreases Rank(t), 0
  {
    hide Encode, Decode, DecodeItems, EncodeAll;
    match t
    case Basic(s) => BasicRoundTrip(v, t, rest, full);
    case Pair(a, b) =>
      EncodingNotEmpty(v.second, b);
      RoundTrip(v.first, a, Encode(v.second, b) + rest, full);
      RoundTrip(v.second, b, rest, full);
      PairRoundTrip(v, t, rest, full);
    case _ =>
      assert [] + v.items == v.items;
      ItemsRoundTrip(t, [], v.items, rest, full);
      ContainerRoundTrip(v, t, rest, full);
  }

  lemma BasicRoundTrip(v: Value, t: Type, rest: seq<byte>, full: bool)
    requires t.Basic? && HasType(v, t)
    ensures Decode(t, Encode(v, t) + rest, full) == Outcome(v, rest, Blocked(v, t, rest, full))
  {
    hide EncodeScalar, DecodeScalar;
    ScalarRoundTrip(v, t.scalar, rest, full);
  }

  lemma PairRoundTrip(v: Value, t: Type, rest: seq<byte>, full: bool)
    requires t.Pair? && HasType(v, t)
    requires Decode(t.first, Encode(v.first, t.first) + (Encode(v.second, t.second) + rest), full)
          == Outcome(v.first, Encode(v.second, t.second) + rest, false)
    requires Decode(t.second, Encode(v.second, t.second) + rest, full)
          == Outcome(v.second, rest, Blocked(v.second, t.second, rest, full))
    ensures Decode(t, Encode(v, t) + rest, full) == Outcome(v, rest, Blocked(v, t, rest, full))
  {
    hide Encode, Decode;
    EncodePair(v, t, rest);
    DecodePair(t, Encode(v, t) + rest, v.first, Encode(v.second, t.second) + rest, full);
  }

  lemma EncodePair(v: Value, t: Type, rest: seq<byte>)
    requires t.Pair? && HasType(v, t)
    ensures Encode(v, t) + rest == Encode(v.first, t.first) + (Encode(v.second, t.second) + rest)
  {
  }

  lemma DecodePair(t: Type, bytes: seq<byte>, x: Value, tail: seq<byte>, full: bool)
    requires t.Pair? && Decode(t.first, bytes, full) == Ok(x, tail)
    ensures
      var q := Decode(t.second, tail, full);
      Decode(t, bytes, full) == if q.result.Failure? then q else Ok(Two(x, q.result.value), q.rest)
  {
  }

  lemma ContainerRoundTrip(v: Value, t: Type, rest: seq<byte>, full: bool)
    requires (t.Coll? || t.Assoc?) && HasType(v, t)
    requires DecodeItems(t, |v.items|, [], EncodeAll(v.items, ElementType(t)) + rest, full)
          == Outcome(v, rest, Blocked(v, t, rest, full))
    ensures Decode(t, Encode(v, t) + rest, full) == Outcome(v, rest, Blocked(v, t, rest, full))
  {
    hide DecodeItems, EncodeAll, Blocked;
    var tail := EncodeAll(v.items, ElementType(t)) + rest;
    assert Encode(v, t) + rest == EncodeVarint(|v.items|) + tail;
    VarintRoundTrip(|v.items|, tail, W64);
  }

  /** No element of `todo` is one that `done` already has. */
  predicate Fresh(t: Type, done: seq<Value>, todo: seq<Value>) {
    match t
    case Coll(Distinct, _) => NoDuplicates(done + todo)
    case Assoc(true, _, _) => NoDuplicates(Keys(done + todo))
    case _ => true
  }

  lemma NotAmong(all: seq<Value>, n: nat)
    requires n < |all| && NoDuplicates(all)
    ensures all[n] !in all[..n]
  {
    forall i | 0 <= i < n
      ensures all[..n][i] != all[n]
    {
    }
  }

  lemma EmplaceFresh(t: Type, done: seq<Value>, todo: seq<Value>)
    requires todo != [] && Fresh(t, done, todo)
    ensures Emplace(done, todo[0], t) == done + [todo[0]]
    ensures Fresh(t, done + [todo[0]], todo[1..])
  {
    var all, n := done + todo, |done|;
    assert (done + [todo[0]]) + todo[1..] == all;
    assert all[..n] == done && Keys(all)[..n] == Keys(done) && Keys(all)[n] == KeyOf(todo[0]);
    if t.Coll? && t.kind.Distinct? {
      NotAmong(all, n);
    } else if t.Assoc? && t.unique {
      NotAmong(Keys(all), n);
    }
  }

  /** All items but the first, behind one that was read. */
  lemma OneItem(t: Type, done: seq<Value>, x: Value, n: nat, bytes: seq<byte>, rest: seq<byte>, full: bool)
    requires t.Coll? || t.Assoc?
    requires DecodeElement(t, bytes, full) == Ok(x, rest)
    ensures DecodeItems(t, n + 1, done, bytes, full) == DecodeItems(t, n, Emplace(done, x, t), rest, full)
  {
    hide DecodeElement, Emplace;
  }

  lemma LastItem(t: Type, done: seq<Value>, n: nat, bytes: seq<byte>, rest: seq<byte>, full: bool)
    requires t.Coll? || t.Assoc?
    requires DecodeElement(t, bytes, full) == Stop(NullCursor, rest)
    ensures DecodeItems(t, n + 1, done, bytes, full) == Stop(NullCursor, rest)
  {
    hide DecodeElement;
  }

  /** The reading loop, with `done` read and `todo` still encoded. */
  lemma {:induction false} ItemsRoundTrip(t: Type, done: seq<Value>, todo: seq<Value>, rest: seq<byte>,
                                          full: bool)
    requires (t.Coll? || t.Assoc?) && Supported(t)
    requires AllHaveType(todo, ElementType(t)) && Fresh(t, done, todo)
    ensures
      var e := ElementType(t);
      DecodeItems(t, |todo|, done, EncodeAll(todo, e) + rest, full)
      == Outcome(Items(done + todo), rest,
                 todo != [] && (AllAt(todo, e, |todo| - 1); Blocked(todo[|todo| - 1], e, rest, full)))
    decreases Rank(t), 0, |todo|
  {
    hide DecodeItems, DecodeElement, Emplace, Encode, EndsEmpty, HasType, Fresh, Supported;
    var e := ElementType(t);
    if todo == [] {
      NoItems(t, done, rest, full);
    } else {
      var x, more := todo[0], todo[1..];
      var tail := EncodeAll(more, e) + rest;
      assert EncodeAll(todo, e) + rest == Encode(x, e) + tail;
      ElementRoundTrip(t, x, tail, full);
      EmplaceFresh(t, done, todo);
      if more == [] {
        assert tail == rest;
        NoItems(t, done + [x], rest, full);
      } else {
        EncodingNotEmpty(more[0], e);
        assert more[|more| - 1] == todo[|todo| - 1];
        ItemsRoundTrip(t, done + [x], more, rest, full);
      }
      assert (done + [x]) + more == done + todo;
      if Blocked(x, e, tail, full) {
        LastItem(t, done, |more|, Encode(x, e) + tail, [], full);
      } else {
        OneItem(t, done, x, |more|, Encode(x, e) + tail, tail, full);
      }
    }
  }

  lemma NoItems(t: Type, done: seq<Value>, rest: seq<byte>, full: bool)
    requires t.Coll? || t.Assoc?
    ensures EncodeAll([], ElementType(t)) + rest == rest && done + [] == done
    ensures DecodeItems(t, 0, done, rest, full) == Ok(Items(done), rest)
  {
  }

  lemma {:induction false} ElementRoundTrip(t: Type, x: Value, rest: seq<byte>, full: bool)
    requires (t.Coll? || t.Assoc?) && Supported(t) && HasType(x, ElementType(t))
    ensures
      var e := ElementType(t);
      DecodeElement(t, Encode(x, e) + rest, full) == Outcome(x, rest, Blocked(x, e, rest, full))
    decreases Rank(ElementType(t)), 1
  {
    match t
    case Coll(_, e) => ScalarRoundTrip(x, e.scalar, rest, full);
    case Assoc(_, k, v) => RoundTrip(x, Pair(k, v), rest, full);
  }

  /** A value in a stream, with the type it is written and read as. */
  datatype Typed = Typed(t: Type, v: Value)

  predicate AllTyped(items: seq<Typed>) {
    forall i :: 0 <= i < |items| ==> HasType(items[i].v, items[i].t) && Supported(items[i].t)
  }

  function EncodeStream(items: seq<Typed>): seq<byte>
    requires AllTyped(items)
  {
    if items == [] then [] else Encode(items[0].v, items[0].t) + EncodeStream(items[1..])
  }

  /** Reading values of the same types one after the other. */
  function DecodeStream(items: seq<Typed>, bytes: seq<byte>, full: bool): (p: Parsed<seq<Value>>) {
    if items == [] then Ok([], bytes)
    else
      var p := Decode(items[0].t, bytes, full);
      if p.result.Failure? then Stop(p.result.error, p.rest)
      else
        var q := DecodeStream(items[1..], p.rest, full);
        if q.result.Failure? then q else Ok([p.result.value] + q.result.value, q.rest)
  }

  function Values(items: seq<Typed>): (values: seq<Value>)
    ensures |values| == |items|
  {
    seq(|items|, i requires 0 <= i < |items| => items[i].v)
  }

  /** A stream of mixed values is read back in order and exactly consumed, unless the very last read
      is blocked at the brink of the capacity. */
  lemma {:induction false} StreamRoundTrip(items: seq<Typed>, rest: seq<byte>, full: bool)
    requires AllTyped(items)
    ensures DecodeStream(items, EncodeStream(items) + rest, full) == Ok(Values(items), rest)
       <==> items == [] || !Blocked(items[|items| - 1].v, items[|items| - 1].t, rest, full)
  {
    hide Decode, Encode, HasType, Supported, Blocked, Values, DecodeStream;
    if items == [] {
      assert EncodeStream(items) + rest == rest;
      NoValues(items, rest, full);
    } else {
      var x, more := items[0], items[1..];
      var tail := EncodeStream(more) + rest;
      assert EncodeStream(items) + rest == Encode(x.v, x.t) + tail;
      RoundTrip(x.v, x.t, tail, full);
      StreamRoundTrip(more, rest, full);
      if more == [] {
        assert tail == rest;
        NoValues(more, rest, full);
      } else {
        EncodingNotEmpty(more[0].v, more[0].t);
        NotBlocked(x.v, x.t, tail, full);
        assert more[|more| - 1] == items[|items| - 1];
      }
      OneValue(items, EncodeStream(items) + rest, tail, Blocked(x.v, x.t, tail, full), rest, full);
    }
  }

  lemma NotBlocked(v: Value, t: Type, rest: seq<byte>, full: bool)
    requires HasType(v, t) && rest != []
    ensures !Blocked(v, t, rest, full)
  {
  }

  lemma NoValues(items: seq<Typed>, bytes: seq<byte>, full: bool)
    requires items == []
    ensures DecodeStream(items, bytes, full) == Ok(Values(items), bytes)
  {
  }

  lemma OneValue(items: seq<Typed>, bytes: seq<byte>, tail: seq<byte>, blocked: bool, rest: seq<byte>, full: bool)
    requires items != []
    requires Decode(items[0].t, bytes, full) == Outcome(items[0].v, tail, blocked)
    ensures DecodeStream(items, bytes, full) == Ok(Values(items), rest)
       <==> !blocked && DecodeStream(items[1..], tail, full) == Ok(Values(items[1..]), rest)
  {
    hide Decode;
    var q := DecodeStream(items[1..], tail, full);
    assert Values(items) == [items[0].v] + Values(items[1..]);
    if !blocked && q.result.Success? {
      assert ([items[0].v] + q.result.value)[1..] == q.result.value;
      assert Values(items)[1..] == Values(items[1..]);
    }
  }

  lemma {:induction false} DefaultHasType(t: Type)
    ensures HasType(Default(t), t)
  {
    if t.Pair? {
      DefaultHasType(t.first);
      DefaultHasType(t.second);
    }
  }

  /** Some value that a reader who skips the element does not come up with. */
  function Other(t: Type): Value {
    match t
    case Basic(Text) => Str([0])
    case Basic(_) => Num(1)
    case Pair(a, b) => Two(Other(a), Default(b))
    case Coll(_, e) => Items([Default(e)])
    case Assoc(_, k, v) => Items([Two(Default(k), Default(v))])
  }

  lemma {:induction false} OtherHasType(t: Type)
    ensures HasType(Other(t), t) && Other(t) != Default(t)
  {
    match t
    case Basic(s) => HalfRanges();
    case Pair(a, b) =>
      OtherHasType(a);
      DefaultHasType(b);
    case _ =>
      var e := ElementType(t);
      DefaultHasType(e);
      assert [Default(e)][1..] == [];
  }

  lemma HalfRanges()
    ensures forall n: Size :: HalfRange(n) > 1 && Pow256(n) > 1
  {
    forall n: Size
      ensures HalfRange(n) > 1 && Pow256(n) > 1
    {
      assert Pow256(n - 1) > 0;
    }
  }

  /** A value of a type with containers nested in vectors or sets, which is not read back. */
  function Lost(t: Type): Value
    requires !Supported(t)
  {
    match t
    case Coll(_, e) => Items([Other(e)])
    case Pair(a, b) => if Supported(a) then Two(Default(a), Lost(b)) else Two(Lost(a), Default(b))
    case Assoc(_, k, v) =>
      Items([if Supported(k) then Two(Default(k), Lost(v)) else Two(Lost(k), Default(v))])
  }

  lemma {:induction false} LostHasType(t: Type)
    requires !Supported(t)
    ensures HasType(Lost(t), t)
    decreases Rank(t)
  {
    match t
    case Coll(_, e) =>
      OtherHasType(e);
      assert [Other(e)][1..] == [];
    case Pair(a, b) =>
      DefaultHasType(a);
      DefaultHasType(b);
      if Supported(a) {
        LostHasType(b);
      } else {
        LostHasType(a);
      }
    case Assoc(_, k, v) =>
      LostHasType(Pair(k, v));
      assert [Lost(Pair(k, v))][1..] == [];
  }

  lemma {:induction false} LostIsLost(t: Type, rest: seq<byte>, full: bool)
    requires !Supported(t) && HasType(Lost(t), t)
    ensures Decode(t, Encode(Lost(t), t) + rest, full).result != Success(Lost(t))
    decreases Rank(t)
  {
    match t
    case Coll(_, e) =>
      OtherHasType(e);
      OneItemLost(t, Other(e), rest, full);
    case Pair(a, b) =>
      var v := Lost(t);
      var tail := Encode(v.second, b) + rest;
      assert Encode(v, t) + rest == Encode(v.first, a) + tail;
      if Supported(a) {
        EncodingNotEmpty(v.second, b);
        RoundTrip(v.first, a, tail, full);
        LostIsLost(b, rest, full);
      } else {
        LostIsLost(a, tail, full);
      }
    case Assoc(_, k, v) =>
      LostHasType(Pair(k, v));
      LostIsLost(Pair(k, v), rest, full);
      OneItemLost(t, Lost(Pair(k, v)), rest, full);
  }

  lemma EncodeOne(t: Type, x: Value)
    requires (t.Coll? || t.Assoc?) && HasType(x, ElementType(t)) && HasType(Items([x]), t)
    ensures Encode(Items([x]), t) == EncodeVarint(1) + Encode(x, ElementType(t))
  {
    var items, e := [x], ElementType(t);
    assert items[1..] == [] && EncodeAll([], e) == [];
    assert EncodeAll(items, e) == Encode(items[0], e) + EncodeAll(items[1..], e);
  }

  lemma OneItemLost(t: Type, x: Value, rest: seq<byte>, full: bool)
    requires (t.Coll? || t.Assoc?) && HasType(x, ElementType(t)) && HasType(Items([x]), t)
    requires DecodeElement(t, Encode(x, ElementType(t)) + rest, full).result != Success(x)
    ensures Decode(t, Encode(Items([x]), t) + rest, full).result != Success(Items([x]))
  {
    hide DecodeElement, HasType;
    var e := ElementType(t);
    var tail := Encode(x, e) + rest;
    EncodeOne(t, x);
    assert Encode(Items([x]), t) + rest == EncodeVarint(1) + tail;
    VarintRoundTrip(1, tail, W64);
    var p := DecodeElement(t, tail, full);
    if p.result.Success? {
      OneItem(t, [], p.result.value, 0, tail, p.rest, full);
      assert Emplace([], p.result.value, t) == [p.result.value];
    }
  }

  predicate ReadBack(v: Value, t: Type, rest: seq<byte>)
    requires HasType(v, t)
  {
    Decode(t, Encode(v, t) + rest, false) == Ok(v, rest)
  }

  /** The types all of whose values are read back are exactly the supported ones. */
  lemma SupportedExactly(t: Type)
    ensures Supported(t) <==> forall v, rest :: HasType(v, t) ==> ReadBack(v, t, rest)
  {
    if Supported(t) {
      forall v, rest | HasType(v, t)
        ensures ReadBack(v, t, rest)
      {
        RoundTrip(v, t, rest, false);
      }
    } else {
      LostHasType(t);
      LostIsLost(t, [], false);
      assert !ReadBack(Lost(t), t, []);
    }
  }

  /** A value written into a buffer is read back there and the read stops where the write stopped,
      except when the value ends with an empty string and the write ended where the chunks end. */
  lemma ReadBackFromBuffer(f: Flat, g: Flat, v: Value, t: Type)
    requires HasType(v, t) && Supported(t) && Writes(f, g, Encode(v, t))
    ensures
      var back := Moved(g, f.position);
      back.Valid()
      && (ReadsTo(Decode(t, back.Readable(), back.Full()), back, v, g)
          <==> !(g.position == g.size == |g.content| && EndsEmpty(v, t)))
  {
    hide Writes, Encode, Decode, EndsEmpty;
    WritesReadBack(f, g, Encode(v, t));
    WrittenSpan(f, g, Encode(v, t));
    var back := Moved(g, f.position);
    RoundTrip(v, t, g.Readable(), back.Full());
  }
}
