// The message objects: encoding into a buffer, decoding from one, and the way through the content of
// a frame.

module Messages {
  import opened Bytes
  import opened FlatBuffer
  import opened Zigzag
  import opened Varint
  import opened Codecs
  import opened Chunking
  import opened Chunks
  import opened Buffers
  import opened Bodies
  import opened Names
  import opened SerialTypes
  import opened SerialCodec
  import opened Serializers

  /** A buffer that holds exactly `bytes` and stands at its start. */
  ghost predicate Filled(f: Flat, bytes: seq<byte>) {
    && f.Valid() && f.base == BASE_SIZE && f.position == 0 && f.Readable() == bytes
    && (bytes != [] ==> (f.Full() <==> |bytes| % BASE_SIZE == 0))
  }

  ghost predicate Empty(f: Flat) {
    f.Valid() && f.base == BASE_SIZE == |f.content| && f.position == f.size == 0
  }

  lemma RoundUpBase(n: nat)
    ensures RoundUp(n, BASE_SIZE) == (n + BASE_SIZE - 1) / BASE_SIZE * BASE_SIZE
  {
    IndexIsQuotient(n + BASE_SIZE - 1, BASE_SIZE);
    SpanIsProduct(IndexOf(n + BASE_SIZE - 1, BASE_SIZE), BASE_SIZE);
  }

  /** What a first write leaves behind, rewound. */
  lemma FilledByWrite(f: Flat, g: Flat, bytes: seq<byte>)
    requires Empty(f) && Writes(f, g, bytes)
    ensures g.Valid() && Filled(Moved(g, 0), bytes)
  {
    hide RoundUp;
    assert g.size == g.position == |bytes| && |g.content| == CapacityFor(f, |bytes|);
    RoundUpBase(|bytes|);
    Rewound(f, g, bytes);
  }

  lemma Rewound(f: Flat, g: Flat, bytes: seq<byte>)
    requires Empty(f) && Writes(f, g, bytes)
    ensures Moved(g, 0).Valid() && Moved(g, 0).Readable() == bytes
  {
    hide Writes, RoundUp;
    WritesReadBack(f, g, bytes);
    assert g.position == g.size by { AllWritten(f, g, bytes); }
    assert bytes + [] == bytes;
  }

  lemma AllWritten(f: Flat, g: Flat, bytes: seq<byte>)
    requires Empty(f) && Writes(f, g, bytes)
    ensures g.Valid() && g.position == g.size
  {
  }

  /** A buffer of the default chunk size. */
  method NewBuffer() returns (bt: ByteArray)
    ensures bt.Valid() && fresh(bt) && fresh(bt.Repr) && Empty(bt.Model())
  {
    bt := new ByteArray(BASE_SIZE);
  }

  /** Rewinds a buffer into which `bytes` was written. */
  method Rewind(bt: ByteArray, ghost f: Flat, ghost bytes: seq<byte>)
    requires bt.Valid() && Empty(f) && Writes(f, bt.Model(), bytes)
    modifies bt`cur, bt`position, bt`size, bt`index, bt`offset
    ensures bt.Valid() && Filled(bt.Model(), bytes)
  {
    hide Linked, Holds, ByteArray.Valid, RoundUp, Writes, Filled;
    FilledByWrite(f, bt.Model(), bytes);
    var r := bt.SetPosition(0);
  }

  method WriteName(bt: ByteArray, name: Name)
    requires bt.Valid()
    modifies bt.Repr
    ensures bt.Valid() && fresh(bt.Repr - old(bt.Repr))
    ensures Writes(old(bt.Model()), bt.Model(), EncodeName(name))
  {
    hide Linked, Holds, ByteArray.Valid, Writes;
    bt.WriteFint(8, name.v1);
    ghost var halfway := bt.Model();
    bt.WriteFint(8, name.v2);
    WritesCompose(old(bt.Model()), halfway, bt.Model(), ToLittleEndian(8, name.v1), ToLittleEndian(8, name.v2));
  }

  method ReadName(bt: ByteArray) returns (r: Result<Name>)
    requires bt.Valid()
    modifies bt`cur, bt`position, bt`index, bt`offset
    ensures bt.Valid()
    ensures
      var p := DecodeName(old(bt.Model()).Readable());
      r == p.result && bt.Model() == old(bt.Model()).After(p.rest)
  {
    hide Linked, Holds, ByteArray.Valid, DecodeFint, Flat.Readable, Flat.After;
    ghost var f := bt.Model();
    ghost var p := DecodeFint(8, f.Readable());
    FintSuffix(8, f.Readable());
    AfterSuffix(f, p.rest, DecodeFint(8, p.rest).rest);
    FintBound(8, f.Readable());
    FintBound(8, p.rest);
    Pow256Of8();
    var v1 := bt.ReadFint(8);
    if v1.Failure? {
      return Failure(v1.error);
    }
    var v2 := bt.ReadFint(8);
    if v2.Failure? {
      return Failure(v2.error);
    }
    r := Success(Name(v1.value, v2.value));
  }

  lemma NameSuffix(bytes: seq<byte>)
    ensures IsSuffix(DecodeName(bytes).rest, bytes)
  {
    hide IsSuffix, DecodeFint;
    var p := DecodeFint(8, bytes);
    FintIsSuffix(8, bytes);
    FintIsSuffix(8, p.rest);
    SuffixTransitive(DecodeFint(8, p.rest).rest, p.rest, bytes);
  }

  lemma FintIsSuffix(n: nat, bytes: seq<byte>)
    ensures IsSuffix(DecodeFint(n, bytes).rest, bytes)
  {
    FintSuffix(n, bytes);
  }

  /** AcceptInvitee, AcceptInvitation and ResponsePortMerge: two names. */
  class NamesMessage {
    const kind: MessageKind
    var first: Name
    var second: Name

    ghost function Value(): Body
      requires TwoNames(kind)
      reads this
    {
      OfNames(kind, first, second)
    }

    constructor (k: MessageKind, a: Name, b: Name)
      requires TwoNames(k)
      ensures kind == k && Value() == OfNames(k, a, b)
    {
      kind, first, second := k, a, b;
    }

    method Encode() returns (bt: ByteArray)
      requires TwoNames(kind)
      ensures bt.Valid() && fresh(bt) && fresh(bt.Repr)
      ensures Filled(bt.Model(), EncodeBody(Value()))
    {
      hide Linked, Holds, ByteArray.Valid, RoundUp, Writes, Filled, Empty, EncodeName, EncodeStringF;
      bt := NewBuffer();
      ghost var f := bt.Model();
      WriteName(bt, first);
      ghost var g := bt.Model();
      WriteName(bt, second);
      WritesCompose(f, g, bt.Model(), EncodeName(first), EncodeName(second));
      Rewind(bt, f, EncodeBody(Value()));
    }

    method Decode(bt: ByteArray) returns (r: Result<()>)
      requires bt.Valid() && this !in bt.Repr && TwoNames(kind)
      modifies this, bt`cur, bt`position, bt`index, bt`offset
      ensures bt.Valid()
      ensures
        var f := old(bt.Model());
        var p, a := DecodeBody(kind, f.Readable(), f.Full()), DecodeName(f.Readable()).result;
        && |p.rest| <= |f.Readable()| && bt.Model() == f.After(p.rest)
        && if p.result.Success? then r.Success? && Value() == p.result.value
           else
             && r == Failure(p.result.error) && second == old(second)
             && first == if a.Success? then a.value else old(first)
    {
      hide Linked, Holds, ByteArray.Valid, DecodeName, Flat.Readable, Flat.Full, Flat.After;
      ghost var f := bt.Model();
      AfterNames(f);
      var a := ReadName(bt);
      if a.Failure? {
        return Failure(a.error);
      }
      first := a.value;
      var b := ReadName(bt);
      if b.Failure? {
        return Failure(b.error);
      }
      second := b.value;
      r := Success(());
    }
  }

  /** The buffers in which the second name and what follows it are read. */
  lemma AfterNames(f: Flat)
    requires f.Valid()
    ensures
      var p := DecodeName(f.Readable());
      var q := DecodeName(p.rest);
      && f.After(p.rest).Readable() == p.rest && f.After(p.rest).Full() == f.Full()
      && f.After(q.rest).Readable() == q.rest && f.After(q.rest).Full() == f.Full()
      && f.After(p.rest).After(q.rest) == f.After(q.rest)
  {
    hide DecodeName, Flat.Full;
    var p := DecodeName(f.Readable());
    var q := DecodeName(p.rest);
    NameSuffix(f.Readable());
    NameSuffix(p.rest);
    SuffixTransitive(q.rest, p.rest, f.Readable());
    AfterSuffix(f, p.rest, q.rest);
    AfterSuffix(f, q.rest, q.rest);
  }

  lemma AfterTwice(f: Flat, rest: seq<byte>, more: seq<byte>)
    requires f.Valid() && |more| <= |rest| <= f.size - f.position
    ensures |more| <= f.After(rest).size - f.After(rest).position && f.After(rest).After(more) == f.After(more)
  {
  }

  class RequestMessage {
    var connector: Name
    var pipe: seq<byte>

    ghost function Value(): Body
      reads this
    {
      RequestPortMerge(connector, pipe)
    }

    constructor (c: Name, p: seq<byte>)
      ensures Value() == RequestPortMerge(c, p)
    {
      connector, pipe := c, p;
    }

    method Encode() returns (bt: ByteArray)
      ensures bt.Valid() && fresh(bt) && fresh(bt.Repr)
      ensures Filled(bt.Model(), EncodeBody(Value()))
    {
      hide Linked, Holds, ByteArray.Valid, RoundUp, Writes, Filled, Empty, EncodeName, EncodeStringF;
      bt := NewBuffer();
      ghost var f := bt.Model();
      WriteName(bt, connector);
      ghost var g := bt.Model();
      bt.WriteStringF(8, pipe);
      WritesCompose(f, g, bt.Model(), EncodeName(connector), EncodeStringF(8, pipe));
      Rewind(bt, f, EncodeBody(Value()));
    }

    method Decode(bt: ByteArray) returns (r: Result<()>)
      requires bt.Valid() && this !in bt.Repr
      modifies this, bt`cur, bt`position, bt`index, bt`offset
      ensures bt.Valid()
      ensures
        var f := old(bt.Model());
        var p := DecodeBody(MessageKind.Request, f.Readable(), f.Full());
        && |p.rest| <= |f.Readable()| && bt.Model() == f.After(p.rest)
        && if p.result.Success? then r.Success? && Value() == p.result.value
           else r == Failure(p.result.error) && Value() == old(Value())
    {
      hide Linked, Holds, ByteArray.Valid, DecodeName, DecodeStringF, Flat.Readable, Flat.Full, Flat.After;
      ghost var f := bt.Model();
      AfterNames(f);
      var a := ReadName(bt);
      if a.Failure? {
        return Failure(a.error);
      }
      ghost var p := DecodeName(f.Readable());
      AfterTwice(f, p.rest, DecodeStringF(8, p.rest, f.Full()).rest);
      var b := bt.ReadStringF(8);
      if b.Failure? {
        return Failure(b.error);
      }
      pipe := b.value;
      connector := a.value;
      r := Success(());
    }
  }

  class UserMessageObject {
    var from: Name
    var to: Name
    var data: seq<byte>

    ghost function Value(): Body
      reads this
    {
      UserMessage(from, to, data)
    }

    constructor (f: Name, t: Name, d: seq<byte>)
      ensures Value() == UserMessage(f, t, d)
    {
      from, to, data := f, t, d;
    }

    method Encode() returns (bt: ByteArray)
      ensures bt.Valid() && fresh(bt) && fresh(bt.Repr)
      ensures Filled(bt.Model(), EncodeBody(Value()))
    {
      hide Linked, Holds, ByteArray.Valid, RoundUp, Writes, Filled, Empty, EncodeName, EncodeStringF;
      bt := NewBuffer();
      ghost var f := bt.Model();
      WriteName(bt, from);
      ghost var g := bt.Model();
      WriteName(bt, to);
      ghost var h := bt.Model();
      WritesCompose(f, g, h, EncodeName(from), EncodeName(to));
      bt.WriteStringF(4, data);
      WritesCompose(f, h, bt.Model(), EncodeName(from) + EncodeName(to), EncodeStringF(4, data));
      Rewind(bt, f, EncodeBody(Value()));
    }

    method Decode(bt: ByteArray) returns (r: Result<()>)
      requires bt.Valid() && this !in bt.Repr
      modifies this, bt`cur, bt`position, bt`index, bt`offset
      ensures bt.Valid()
      ensures
        var f := old(bt.Model());
        var p, a := DecodeBody(MessageKind.User, f.Readable(), f.Full()), DecodeName(f.Readable());
        var b := DecodeName(a.rest).result;
        && |p.rest| <= |f.Readable()| && bt.Model() == f.After(p.rest)
        && if p.result.Success? then r.Success? && Value() == p.result.value
           else
             && r == Failure(p.result.error) && data == old(data)
             && from == (if a.result.Success? then a.result.value else old(from))
             && to == if a.result.Success? && b.Success? then b.value else old(to)
    {
      hide Linked, Holds, ByteArray.Valid, DecodeName, DecodeStringF, Flat.Readable, Flat.Full, Flat.After;
      ghost var f := bt.Model();
      AfterNames(f);
      var a := ReadName(bt);
      if a.Failure? {
        return Failure(a.error);
      }
      from := a.value;
      var b := ReadName(bt);
      if b.Failure? {
        return Failure(b.error);
      }
      to := b.value;
      ghost var q := DecodeName(DecodeName(f.Readable()).rest);
      AfterTwice(f, q.rest, DecodeStringF(4, q.rest, f.Full()).rest);
      var c := bt.ReadStringF(4);
      if c.Failure? {
        return Failure(c.error);
      }
      data := c.value;
      r := Success(());
    }
  }

  /** Writes the received bytes behind their varint length, rewinds, and skips one byte. */
  method Unwrap(raw: seq<byte>) returns (s: Serializer)
    requires |raw| <= MAX_STRING
    ensures fresh(s) && fresh(s.bytes) && fresh(s.bytes.Repr) && s.Valid()
    ensures s.Model().Readable() == Received(raw)
    ensures s.Model().Full() <==> FillsChunks(raw)
  {
    hide Linked, Holds, ByteArray.Valid, RoundUp, Writes, Encode, Filled;
    s := new Serializer(BASE_SIZE);
    ghost var f := s.Model();
    var text := Str(raw);
    assert HasType(text, Basic(Text));
    s.Write(text, Basic(Text));
    EncodeText(raw);
    FilledByWrite(f, s.Model(), EncodeStringVint(raw));
    s.Reset();
    ghost var g := s.Model();
    SkipOne(g, EncodeStringVint(raw));
    var r := s.Offset(1);
  }

  lemma EncodeText(raw: seq<byte>)
    requires HasType(Str(raw), Basic(Text))
    ensures Encode(Str(raw), Basic(Text)) == EncodeStringVint(raw) != []
  {
  }

  lemma SkipOne(g: Flat, bytes: seq<byte>)
    requires Filled(g, bytes) && bytes != []
    ensures 1 <= |g.content| && Moved(g, 1).Valid() && Moved(g, 1).Readable() == bytes[1..]
    ensures Moved(g, 1).Full() <==> |bytes| % BASE_SIZE == 0
  {
  }

  method SerializeNames(m: NamesMessage) returns (raw: seq<byte>)
    requires TwoNames(m.kind)
    ensures raw == EncodeBody(m.Value())
  {
    hide Linked, Holds, ByteArray.Valid;
    var bt := m.Encode();
    raw := bt.ToString();
  }

  method SerializeRequest(m: RequestMessage) returns (raw: seq<byte>)
    requires |EncodeBody(m.Value())| <= MAX_STRING
    ensures raw == EncodeBody(m.Value())
  {
    hide Linked, Holds, ByteArray.Valid;
    var bt := m.Encode();
    raw := bt.ToString();
  }

  method SerializeUser(m: UserMessageObject) returns (raw: seq<byte>)
    requires |EncodeBody(m.Value())| <= MAX_STRING
    ensures raw == EncodeBody(m.Value())
  {
    hide Linked, Holds, ByteArray.Valid;
    var bt := m.Encode();
    raw := bt.ToString();
  }

  /** Deserializes a body, as the dispatch on the type of a received frame does. */
  method DeserializeMessage(kind: MessageKind, raw: seq<byte>) returns (r: Result<Body>)
    requires |raw| <= MAX_STRING
    ensures r == Deserialize(kind, raw)
  {
    hide Linked, Holds, ByteArray.Valid, Received, FillsChunks, Flat.Readable, Flat.Full;
    var s := Unwrap(raw);
    var none := Name(0, 0);
    var ok;
    match kind
    case Request =>
      var m := new RequestMessage(none, []);
      ok := m.Decode(s.bytes);
      r := if ok.Failure? then Failure(ok.error) else Success(RequestPortMerge(m.connector, m.pipe));
    case User =>
      var m := new UserMessageObject(none, none, []);
      ok := m.Decode(s.bytes);
      r := if ok.Failure? then Failure(ok.error) else Success(UserMessage(m.from, m.to, m.data));
    case _ =>
      var m := new NamesMessage(kind, none, none);
      ok := m.Decode(s.bytes);
      r := if ok.Failure? then Failure(ok.error) else Success(OfNames(kind, m.first, m.second));
  }
}
