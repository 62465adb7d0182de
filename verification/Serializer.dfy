// The serializer: scalars, strings and containers, written with `<<` and read with `>>`.

module SerialTypes {
  import opened Bytes
  import opened FlatBuffer
  import opened Zigzag
  import opened Varint
  import opened Codecs

  type Size = n: nat | n == 1 || n == 2 || n == 4 || n == 8 witness 1

  /** The types `read` and `write` dispatch on. Fixed covers the 8-bit and 16-bit integers, and the
      bit patterns of float (four bytes) and double (eight); Packed the 32-bit and 64-bit integers. */
  datatype Scalar = Bool | Fixed(bytes: Size, signed: bool) | Packed(width: Width, signed: bool) | Text

  /** Vectors keep order and duplicates, sets drop duplicates, multisets keep them. */
  datatype Kind = Ordered | Distinct | Bag

  datatype Type =
    | Basic(scalar: Scalar)
    | Coll(kind: Kind, elem: Type)
    | Pair(first: Type, second: Type)
    | Assoc(unique: bool, key: Type, val: Type)

  /** A container is the sequence of its elements in the order it is iterated. */
  datatype Value =
    | Num(n: int)
    | Str(text: seq<byte>)
    | Items(items: seq<Value>)
    | Two(first: Value, second: Value)

  function Rank(t: Type): (r: nat)
    ensures r > 0
  {
    match t
    case Basic(_) => 1
    case Coll(_, e) => 1 + Rank(e)
    case Pair(a, b) => 1 + Rank(a) + Rank(b)
    case Assoc(_, k, v) => 2 + Rank(k) + Rank(v)
  }

  predicate HasScalar(v: Value, s: Scalar) {
    match s
    case Bool => v.Num? && 0 <= v.n <= 1
    case Fixed(n, signed) =>
      v.Num? &&
      if signed then 0 - HalfRange(n) <= v.n < HalfRange(n) else 0 <= v.n < Pow256(n)
    case Packed(w, signed) => v.Num? && if signed then IsSigned(v.n, w) else IsUnsigned(v.n, w)
    case Text => v.Str? && |v.text| < Modulus(W64)
  }

  predicate HasType(v: Value, t: Type)
    decreases Rank(t), 0
  {
    match t
    case Basic(s) => HasScalar(v, s)
    case Coll(kind, e) =>
      v.Items? && AllHaveType(v.items, e) && |v.items| < Modulus(W64)
      && (kind == Distinct ==> NoDuplicates(v.items))
    case Pair(a, b) => v.Two? && HasType(v.first, a) && HasType(v.second, b)
    case Assoc(unique, k, val) =>
      v.Items? && AllHaveType(v.items, Pair(k, val)) && |v.items| < Modulus(W64)
      && (unique ==> NoDuplicates(Keys(v.items)))
  }

  predicate AllHaveType(items: seq<Value>, t: Type)
    decreases Rank(t), |items|, 1
  {
    items == [] || (HasType(items[0], t) && AllHaveType(items[1..], t))
  }

  predicate NoDuplicates(items: seq<Value>) {
    forall i, j :: 0 <= i < j < |items| ==> items[i] != items[j]
  }

  function KeyOf(entry: Value): Value {
    if entry.Two? then entry.first else entry
  }

  function Keys(entries: seq<Value>): (keys: seq<Value>)
    ensures |keys| == |entries|
  {
    seq(|entries|, i requires 0 <= i < |entries| => KeyOf(entries[i]))
  }

  /** What a default-constructed object of the type is. */
  function Default(t: Type): Value {
    match t
    case Basic(Text) => Str([])
    case Basic(_) => Num(0)
    case Pair(a, b) => Two(Default(a), Default(b))
    case Coll(_, _) => Items([])
    case Assoc(_, _, _) => Items([])
  }
}

module SerialCodec {
  import opened Bytes
  import opened FlatBuffer
  import opened Zigzag
  import opened Varint
  import opened Codecs
  import opened SerialTypes

  function EncodeScalar(v: Value, s: Scalar): seq<byte>
    requires HasScalar(v, s)
  {
    match s
    case Bool => ToLittleEndian(1, v.n)
    case Fixed(n, signed) => ToLittleEndian(n, if signed then ToUnsigned(n, v.n) else v.n)
    case Packed(w, signed) => if signed then EncodeInt(v.n, w) else EncodeVarint(v.n)
    case Text => EncodeStringVint(v.text)
  }

  function AsNum(p: Parsed<int>): (q: Parsed<Value>)
    ensures q.rest == p.rest
  {
    if p.result.Failure? then Stop(p.result.error, p.rest) else Ok(Num(p.result.value), p.rest)
  }

  function AsStr(p: Parsed<seq<byte>>): (q: Parsed<Value>)
    ensures q.rest == p.rest
  {
    if p.result.Failure? then Stop(p.result.error, p.rest) else Ok(Str(p.result.value), p.rest)
  }

  function DecodeScalar(s: Scalar, bytes: seq<byte>, full: bool): (p: Parsed<Value>)
    ensures |p.rest| <= |bytes|
  {
    match s
    case Bool =>
      var p := DecodeFint(1, bytes);
      if p.result.Failure? then Stop(p.result.error, p.rest)
      else Ok(Num(if p.result.value == 0 then 0 else 1), p.rest)
    case Fixed(n, signed) =>
      var p := DecodeFint(n, bytes);
      if p.result.Failure? then Stop(p.result.error, p.rest)
      else if signed then Ok(Num(ToSigned(n, p.result.value)), p.rest)
      else Ok(Num(p.result.value), p.rest)
    case Packed(w, signed) => AsNum(if signed then DecodeInt(bytes, w) else DecodeVarint(bytes, w))
    case Text => AsStr(DecodeStringVint(bytes, full))
  }

  function Encode(v: Value, t: Type): seq<byte>
    requires HasType(v, t)
    decreases Rank(t), 0
  {
    match t
    case Basic(s) => EncodeScalar(v, s)
    case Coll(_, e) => EncodeVarint(|v.items|) + EncodeAll(v.items, e)
    case Pair(a, b) => Encode(v.first, a) + Encode(v.second, b)
    case Assoc(_, k, val) => EncodeVarint(|v.items|) + EncodeAll(v.items, Pair(k, val))
  }

  function EncodeAll(items: seq<Value>, t: Type): seq<byte>
    requires AllHaveType(items, t)
    decreases Rank(t), |items|, 1
  {
    if items == [] then [] else Encode(items[0], t) + EncodeAll(items[1..], t)
  }

  /** Adding an element to a container: sets and maps ignore one they have. */
  function Emplace(items: seq<Value>, x: Value, t: Type): seq<Value> {
    match t
    case Coll(Distinct, _) => if x in items then items else items + [x]
    case Assoc(true, _, _) => if KeyOf(x) in Keys(items) then items else items + [x]
    case _ => items + [x]
  }

  function Decode(t: Type, bytes: seq<byte>, full: bool): (p: Parsed<Value>)
    ensures |p.rest| <= |bytes|
    decreases Rank(t), 0
  {
    match t
    case Basic(s) => DecodeScalar(s, bytes, full)
    case Pair(a, b) =>
      var p := Decode(a, bytes, full);
      if p.result.Failure? then p
      else
        var q := Decode(b, p.rest, full);
        if q.result.Failure? then q else Ok(Two(p.result.value, q.result.value), q.rest)
    case _ =>
      var p := DecodeVarint(bytes, W64);
      if p.result.Failure? then Stop(p.result.error, p.rest)
      else DecodeItems(t, p.result.value, [], p.rest, full)
  }

  /** The reading loop of a container with `n` elements to come. */
  function DecodeItems(t: Type, n: nat, items: seq<Value>, bytes: seq<byte>, full: bool): (p: Parsed<Value>)
    requires t.Coll? || t.Assoc?
    ensures |p.rest| <= |bytes|
    decreases Rank(t) - 1, n + 1
  {
    if n == 0 then Ok(Items(items), bytes)
    else
      var p := DecodeElement(t, bytes, full);
      if p.result.Failure? then p
      else DecodeItems(t, n - 1, Emplace(items, p.result.value, t), p.rest, full)
  }

  /** One element: maps read pairs with `>>`; the other containers call `read`, which does nothing to
      an element that is not a scalar. */
  function DecodeElement(t: Type, bytes: seq<byte>, full: bool): (p: Parsed<Value>)
    requires t.Coll? || t.Assoc?
    ensures |p.rest| <= |bytes|
    decreases Rank(t) - 1, 0
  {
    match t
    case Coll(_, Basic(s)) => DecodeScalar(s, bytes, full)
    case Coll(_, e) => Ok(Default(e), bytes)
    case Assoc(_, k, v) =>
      var p := Decode(k, bytes, full);
      if p.result.Failure? then p
      else
        var q := Decode(v, p.rest, full);
        if q.result.Failure? then q else Ok(Two(p.result.value, q.result.value), q.rest)
  }
}
