// The message bodies, and what the receiver makes of them.

module Bodies {
  import opened Bytes
  import opened FlatBuffer
  import opened Zigzag
  import opened Varint
  import opened Codecs
  import opened Names

  datatype MessageKind = Invitee | Invitation | Request | Response | User

  datatype Body =
    | AcceptInvitee(token: Name, inviter: Name)
    | AcceptInvitation(token: Name, invitee: Name)
    | RequestPortMerge(connector: Name, pipe: seq<byte>)
    | ResponsePortMerge(connector: Name, port: Name)
    | UserMessage(from: Name, to: Name, data: seq<byte>)

  function KindOf(b: Body): MessageKind {
    match b
    case AcceptInvitee(_, _) => Invitee
    case AcceptInvitation(_, _) => Invitation
    case RequestPortMerge(_, _) => Request
    case ResponsePortMerge(_, _) => Response
    case UserMessage(_, _, _) => User
  }

  /** Three of the bodies are two names. */
  predicate TwoNames(kind: MessageKind) {
    kind.Invitee? || kind.Invitation? || kind.Response?
  }

  function OfNames(kind: MessageKind, first: Name, second: Name): (b: Body)
    requires TwoNames(kind)
    ensures KindOf(b) == kind
  {
    match kind
    case Invitee => AcceptInvitee(first, second)
    case Invitation => AcceptInvitation(first, second)
    case Response => ResponsePortMerge(first, second)
  }

  function EncodeName(name: Name): (bytes: seq<byte>)
    ensures |bytes| == 16
  {
    ToLittleEndian(8, name.v1) + ToLittleEndian(8, name.v2)
  }

  function EncodeBody(b: Body): seq<byte> {
    match b
    case AcceptInvitee(token, inviter) => EncodeName(token) + EncodeName(inviter)
    case AcceptInvitation(token, invitee) => EncodeName(token) + EncodeName(invitee)
    case RequestPortMerge(connector, pipe) => EncodeName(connector) + EncodeStringF(8, pipe)
    case ResponsePortMerge(connector, port) => EncodeName(connector) + EncodeName(port)
    case UserMessage(from, to, data) => EncodeName(from) + EncodeName(to) + EncodeStringF(4, data)
  }

  function DecodeName(bytes: seq<byte>): (p: Parsed<Name>)
    ensures |p.rest| <= |bytes|
  {
    var p := DecodeFint(8, bytes);
    if p.result.Failure? then Stop(p.result.error, p.rest)
    else
      var q := DecodeFint(8, p.rest);
      if q.result.Failure? then Stop(q.result.error, q.rest)
      else
        Pow256Of8();
        Ok(Name(p.result.value, q.result.value), q.rest)
  }

  lemma Pow256Of8()
    ensures Pow256(8) == 0x1_0000_0000_0000_0000 && Pow256(7) == 0x100_0000_0000_0000
    ensures Pow256(4) == 0x1_0000_0000 && Pow256(3) == 0x100_0000
  {
    assert Pow256(2) == 0x1_0000;
    assert Pow256(4) == 256 * (256 * Pow256(2));
    assert Pow256(6) == 256 * (256 * Pow256(4));
  }

  function DecodeBody(kind: MessageKind, bytes: seq<byte>, full: bool): Parsed<Body> {
    var p := DecodeName(bytes);
    if p.result.Failure? then Stop(p.result.error, p.rest)
    else if kind.Request? then
      var s := DecodeStringF(8, p.rest, full);
      if s.result.Failure? then Stop(s.result.error, s.rest)
      else Ok(RequestPortMerge(p.result.value, s.result.value), s.rest)
    else
      var q := DecodeName(p.rest);
      if q.result.Failure? then Stop(q.result.error, q.rest)
      else if kind.User? then
        var s := DecodeStringF(4, q.rest, full);
        if s.result.Failure? then Stop(s.result.error, s.rest)
        else Ok(UserMessage(p.result.value, q.result.value, s.result.value), s.rest)
      else Ok(OfNames(kind, p.result.value, q.result.value), q.rest)
  }

  lemma NameRoundTrip(name: Name, rest: seq<byte>)
    ensures DecodeName(EncodeName(name) + rest) == Ok(name, rest)
  {
    hide DecodeFint, ToLittleEndian;
    Pow256Of8();
    var second := ToLittleEndian(8, name.v2) + rest;
    assert EncodeName(name) + rest == ToLittleEndian(8, name.v1) + second;
    FintRoundTrip(8, name.v1, second);
    FintRoundTrip(8, name.v2, rest);
  }

  /** The size of the length field in front of it. */
  function FieldSize(b: Body): nat {
    if b.UserMessage? then 4 else 8
  }

  /** The variable part of a body. */
  function Payload(b: Body): seq<byte> {
    match b
    case RequestPortMerge(_, pipe) => pipe
    case UserMessage(_, _, data) => data
    case _ => []
  }

  /** Where a name lies in its bytes. */
  predicate NameAt(bytes: seq<byte>, at: nat, name: Name) {
    at + 16 <= |bytes|
    && bytes[at..at + 8] == ToLittleEndian(8, name.v1) && bytes[at + 8..at + 16] == ToLittleEndian(8, name.v2)
  }

  /** The layout of the five bodies. */
  lemma Layout(b: Body)
    ensures
      var bytes := EncodeBody(b);
      match b
      case AcceptInvitee(token, inviter) => |bytes| == 32 && NameAt(bytes, 0, token) && NameAt(bytes, 16, inviter)
      case AcceptInvitation(token, invitee) => |bytes| == 32 && NameAt(bytes, 0, token) && NameAt(bytes, 16, invitee)
      case RequestPortMerge(connector, pipe) =>
        |bytes| == 24 + |pipe| && NameAt(bytes, 0, connector)
        && bytes[16..24] == ToLittleEndian(8, |pipe|) && bytes[24..] == pipe
      case ResponsePortMerge(connector, port) => |bytes| == 32 && NameAt(bytes, 0, connector) && NameAt(bytes, 16, port)
      case UserMessage(from, to, data) =>
        |bytes| == 36 + |data| && NameAt(bytes, 0, from) && NameAt(bytes, 16, to)
        && bytes[32..36] == ToLittleEndian(4, |data|) && bytes[36..] == data
  {
    hide ToLittleEndian;
  }

  /** Without anything in front, a body is decoded exactly when its length field holds the length of
      its payload and it does not end with an empty payload at the brink of the capacity. */
  lemma PlainRoundTrip(b: Body, rest: seq<byte>, full: bool)
    ensures DecodeBody(KindOf(b), EncodeBody(b) + rest, full) == Ok(b, rest)
       <==> TwoNames(KindOf(b))
            || (|Payload(b)| < Pow256(FieldSize(b)) && !AtBrink(Payload(b), rest, full))
  {
    hide DecodeName, EncodeName, DecodeStringF, EncodeStringF, Pow256;
    match b
    case RequestPortMerge(connector, pipe) =>
      var tail := EncodeStringF(8, pipe) + rest;
      assert EncodeBody(b) + rest == EncodeName(connector) + tail;
      NameRoundTrip(connector, tail);
      StringFRoundTrip(8, pipe, rest, full);
    case UserMessage(from, to, data) =>
      var tail := EncodeStringF(4, data) + rest;
      assert EncodeBody(b) + rest == EncodeName(from) + (EncodeName(to) + tail);
      NameRoundTrip(from, EncodeName(to) + tail);
      NameRoundTrip(to, tail);
      StringFRoundTrip(4, data, rest, full);
    case AcceptInvitee(first, second) => TwoNamesRoundTrip(b, first, second, rest, full);
    case AcceptInvitation(first, second) => TwoNamesRoundTrip(b, first, second, rest, full);
    case ResponsePortMerge(first, second) => TwoNamesRoundTrip(b, first, second, rest, full);
  }

  lemma TwoNamesRoundTrip(b: Body, first: Name, second: Name, rest: seq<byte>, full: bool)
    requires TwoNames(KindOf(b)) && b == OfNames(KindOf(b), first, second)
    ensures DecodeBody(KindOf(b), EncodeBody(b) + rest, full) == Ok(b, rest)
  {
    hide DecodeName, EncodeName;
    assert EncodeBody(b) + rest == EncodeName(first) + (EncodeName(second) + rest);
    NameRoundTrip(first, EncodeName(second) + rest);
    NameRoundTrip(second, rest);
  }

  /** The size of the default chunk. */
  const BASE_SIZE: nat := 4096

  /** The largest size of a string. */
  const MAX_STRING: nat := 0x7fff_ffff_ffff_ffff

  /** What the decoder is given: the received bytes were written into a buffer behind their varint
      length, and one byte of that length was skipped. */
  function Received(raw: seq<byte>): seq<byte> {
    EncodeStringVint(raw)[1..]
  }

  /** Whether the written bytes fill their chunks. */
  predicate FillsChunks(raw: seq<byte>) {
    |EncodeStringVint(raw)| % BASE_SIZE == 0
  }

  /** Deserializing a body from the content of a frame. */
  function Deserialize(kind: MessageKind, raw: seq<byte>): Result<Body> {
    DecodeBody(kind, Received(raw), FillsChunks(raw)).result
  }
}

// One byte of the length is skipped, but the length takes more than one byte from 128 on. Then no
// body is decoded to itself: it would have to repeat the rest of its own length over and over, and
// its length field would have to be a part of that.
module SkippedPrefix {
  import opened Bytes
  import opened FlatBuffer
  import opened Zigzag
  import opened Varint
  import opened Codecs
  import opened Names
  import opened Bodies

  /** Where the length field is. */
  function HeaderSize(b: Body): nat {
    if b.UserMessage? then 32 else 16
  }

  lemma EncodedParts(b: Body)
    requires !TwoNames(KindOf(b))
    ensures
      var raw := EncodeBody(b);
      var h, w := HeaderSize(b), FieldSize(b);
      && |raw| == h + w + |Payload(b)|
      && raw[h..h + w] == ToLittleEndian(w, |Payload(b)|)
      && raw[h + w..] == Payload(b)
  {
    hide ToLittleEndian;
  }

  lemma NameDetermined(bytes: seq<byte>, name: Name)
    requires DecodeName(bytes).result == Success(name)
    ensures |bytes| >= 16 && bytes[..16] == EncodeName(name) && DecodeName(bytes).rest == bytes[16..]
  {
    hide ToLittleEndian, DecodeFint;
    FintDetermined(8, bytes);
    FintDetermined(8, bytes[8..]);
    assert bytes[..16] == bytes[..8] + bytes[8..][..8];
    assert bytes[8..][8..] == bytes[16..];
  }

  lemma FintDetermined(n: nat, bytes: seq<byte>)
    requires DecodeFint(n, bytes).result.Success?
    ensures
      var p := DecodeFint(n, bytes);
      && |bytes| >= n && p.result.value < Pow256(n)
      && bytes[..n] == ToLittleEndian(n, p.result.value) && p.rest == bytes[n..]
  {
    hide ToLittleEndian, FromLittleEndian;
    var v := FromLittleEndian(bytes[..n]);
    LittleEndianRoundTrip(n, v);
    FromLittleEndianInjective(bytes[..n], ToLittleEndian(n, v));
  }

  lemma StringDetermined(n: nat, bytes: seq<byte>, text: seq<byte>, full: bool)
    requires DecodeStringF(n, bytes, full).result == Success(text)
    ensures |text| < Pow256(n) && |bytes| >= n + |text| && bytes[..n + |text|] == EncodeStringF(n, text)
  {
    hide ToLittleEndian, DecodeFint, Pow256;
    FintDetermined(n, bytes);
    Join(bytes, n, ToLittleEndian(n, |text|), text);
  }

  /** Bytes that are decoded to a body begin with its encoding. */
  lemma BodyDetermined(kind: MessageKind, bytes: seq<byte>, b: Body, full: bool)
    requires DecodeBody(kind, bytes, full).result == Success(b) && !TwoNames(KindOf(b))
    ensures |Payload(b)| < Pow256(FieldSize(b))
    ensures |EncodeBody(b)| <= |bytes| && bytes[..|EncodeBody(b)|] == EncodeBody(b)
  {
    hide DecodeName, EncodeName, DecodeStringF, EncodeStringF, Pow256;
    var p := DecodeName(bytes);
    NameDetermined(bytes, p.result.value);
    if b.RequestPortMerge? {
      StringDetermined(8, p.rest, b.pipe, full);
      Join(bytes, 16, EncodeName(b.connector), EncodeStringF(8, b.pipe));
    } else {
      var q := DecodeName(p.rest);
      NameDetermined(p.rest, q.result.value);
      StringDetermined(4, q.rest, b.data, full);
      Join(p.rest, 16, EncodeName(b.to), EncodeStringF(4, b.data));
      Join(bytes, 16, EncodeName(b.from), EncodeName(b.to) + EncodeStringF(4, b.data));
      assert EncodeBody(b) == EncodeName(b.from) + (EncodeName(b.to) + EncodeStringF(4, b.data));
    }
  }

  lemma Join(bytes: seq<byte>, n: nat, a: seq<byte>, c: seq<byte>)
    requires n <= |bytes| && bytes[..n] == a && |c| <= |bytes| - n && bytes[n..][..|c|] == c
    ensures |a + c| <= |bytes| && bytes[..|a + c|] == a + c
  {
    assert bytes[..n + |c|] == bytes[..n] + bytes[n..][..|c|];
  }

  /** The code of a number from 128 on has no zero byte, and all but the last have the top bit. */
  lemma {:induction false} CodeBytes(value: nat, i: nat)
    requires value > 0 && i < |EncodeVarint(value)|
    ensures EncodeVarint(value)[i] > 0
    ensures i + 1 < |EncodeVarint(value)| ==> EncodeVarint(value)[i] >= 0x80
  {
    if i > 0 {
      CodeBytes(value / 0x80, i - 1);
    }
  }

  /** A string that is a beginning of itself behind `word` repeats `word`. */
  lemma {:induction false} Periodic(word: seq<byte>, raw: seq<byte>, i: nat)
    requires word != [] && |raw| <= |word + raw| && (word + raw)[..|raw|] == raw && i < |raw|
    ensures raw[i] == word[i % |word|]
  {
    var q := |word|;
    assert raw[i] == (word + raw)[i];
    if i < q {
      Small(i, q);
    } else {
      Periodic(word, raw, i - q);
      Remainder(i, q, (i - q) / q + 1, (i - q) % q) by {
        assert q * ((i - q) / q + 1) == q * ((i - q) / q) + q;
      }
    }
  }

  function ByteAt(bytes: seq<byte>, i: nat): int
    requires i < |bytes|
  {
    bytes[i]
  }

  /** The number that four bytes from `i` on stand for as a fixed-width integer. */
  function Fixed4(f: seq<byte>, i: nat): int
    requires i + 4 <= |f|
  {
    ByteAt(f, i) + 0x100 * ByteAt(f, i + 1) + 0x1_0000 * ByteAt(f, i + 2) + 0x100_0000 * ByteAt(f, i + 3)
  }

  /** The number that four bytes of a code from `i` on stand for. */
  function Digits4(c: seq<byte>, i: nat): int
    requires i + 4 <= |c|
  {
    (ByteAt(c, i) - 0x80) + 0x80 * (ByteAt(c, i + 1) - 0x80) + 0x4000 * (ByteAt(c, i + 2) - 0x80)
    + 0x20_0000 * (ByteAt(c, i + 3) - 0x80)
  }

  lemma Field4(v: nat)
    requires v < 0x1_0000_0000
    ensures v == Fixed4(ToLittleEndian(4, v), 0)
  {
    var v1 := v / 0x100;
    var v2 := v1 / 0x100;
    var v3 := v2 / 0x100;
    assert ToLittleEndian(4, v) == [v % 0x100] + ToLittleEndian(3, v1);
    assert ToLittleEndian(3, v1) == [v1 % 0x100] + ToLittleEndian(2, v2);
    assert ToLittleEndian(2, v2) == [v2 % 0x100] + ToLittleEndian(1, v3);
    assert ToLittleEndian(1, v3) == [v3 % 0x100] + ToLittleEndian(0, v3 / 0x100);
  }

  lemma Field8(v: nat)
    requires v < 0x1_0000_0000_0000_0000
    ensures
      var f := ToLittleEndian(8, v);
      v == Fixed4(f, 0) + 0x1_0000_0000 * Fixed4(f, 4)
  {
    var v1 := v / 0x100;
    var v2 := v1 / 0x100;
    var v3 := v2 / 0x100;
    var v4 := v3 / 0x100;
    assert ToLittleEndian(8, v) == [v % 0x100] + ToLittleEndian(7, v1);
    assert ToLittleEndian(7, v1) == [v1 % 0x100] + ToLittleEndian(6, v2);
    assert ToLittleEndian(6, v2) == [v2 % 0x100] + ToLittleEndian(5, v3);
    assert ToLittleEndian(5, v3) == [v3 % 0x100] + ToLittleEndian(4, v4);
    assert ToLittleEndian(8, v)[4..] == ToLittleEndian(4, v4);
    Field4(v4);
    assert Fixed4(ToLittleEndian(8, v), 4) == Fixed4(ToLittleEndian(4, v4), 0);
  }

  lemma CodeStep(value: nat)
    requires value >= 0x80
    ensures
      var code := EncodeVarint(value);
      code[1..] == EncodeVarint(value / 0x80) && value == (ByteAt(code, 0) - 0x80) + 0x80 * (value / 0x80)
  {
  }

  /** Four digits and the rest. */
  lemma CodeSteps(n: nat, high: nat)
    requires |EncodeVarint(n)| > 4 && high == n / 0x80 / 0x80 / 0x80 / 0x80
    ensures
      var c := EncodeVarint(n);
      c[4..] == EncodeVarint(high) && n == Digits4(c, 0) + 0x1000_0000 * high
  {
    hide EncodeVarint;
    EncodingLength(n, 3);
    Pow128Values();
    CodeStep(n);
    CodeStep(n / 0x80);
    CodeStep(n / 0x80 / 0x80);
    CodeStep(n / 0x80 / 0x80 / 0x80);
    var c := EncodeVarint(n);
    assert c[1..][1..] == c[2..] && c[2..][1..] == c[3..] && c[3..][1..] == c[4..];
  }

  lemma Code4(n: nat)
    requires |EncodeVarint(n)| == 4
    ensures n == Digits4(EncodeVarint(n), 0) + 0x1000_0000
  {
    hide EncodeVarint;
    EncodingLength(n, 2);
    Pow128Values();
    CodeStep(n);
    CodeStep(n / 0x80);
    CodeStep(n / 0x80 / 0x80);
    var last := n / 0x80 / 0x80 / 0x80;
    var c := EncodeVarint(n);
    assert c[1..][1..] == c[2..] && c[2..][1..] == c[3..];
    OneByteCode(last);
  }

  lemma OneByteCode(value: nat)
    requires |EncodeVarint(value)| == 1
    ensures EncodeVarint(value) == [value]
  {
  }

  lemma Code5(n: nat)
    requires |EncodeVarint(n)| == 5
    ensures n == Digits4(EncodeVarint(n), 0) + 0x1000_0000 * ByteAt(EncodeVarint(n), 4)
  {
    hide EncodeVarint, Digits4;
    var high := n / 0x80 / 0x80 / 0x80 / 0x80;
    CodeSteps(n, high);
    OneByteCode(high);
  }

  lemma Code9(n: nat)
    requires |EncodeVarint(n)| == 9
    ensures
      var c := EncodeVarint(n);
      n == Digits4(c, 0) + 0x1000_0000 * (Digits4(c, 4) + 0x1000_0000 * ByteAt(c, 8))
  {
    hide EncodeVarint, Digits4;
    var high := n / 0x80 / 0x80 / 0x80 / 0x80;
    CodeSteps(n, high);
    Code5(high);
    ShiftDigits(EncodeVarint(n), 4);
  }

  lemma ShiftDigits(c: seq<byte>, i: nat)
    requires i + 4 < |c|
    ensures Digits4(c[i..], 0) == Digits4(c, i) && ByteAt(c[i..], 4) == ByteAt(c, i + 4)
  {
  }

  lemma TopBits(n: nat)
    requires n > 0
    ensures
      var code := EncodeVarint(n);
      forall j :: 0 <= j < |code| - 1 ==> ByteAt(code, j) >= 0x80
  {
    hide EncodeVarint;
    var code := EncodeVarint(n);
    forall j | 0 <= j < |code| - 1
      ensures ByteAt(code, j) >= 0x80
    {
      CodeBytes(n, j);
    }
  }

  ghost predicate Repeats(word: seq<byte>, raw: seq<byte>) {
    word != [] && (word + raw)[..|raw|] == raw
  }

  /** A field in a repeating string is a rotation of the word. */
  lemma RotatedField(n: nat, word: seq<byte>, raw: seq<byte>, h: nat, w: nat, field: seq<byte>)
    requires n > 0 && word == EncodeVarint(n)[1..] && Repeats(word, raw)
    requires h + w <= |raw| && raw[h..h + w] == field
    ensures forall j :: 0 <= j < w ==> ByteAt(field, j) == ByteAt(word, (h + j) % |word|) > 0
  {
    forall j | 0 <= j < w
      ensures ByteAt(field, j) == ByteAt(word, (h + j) % |word|) > 0
    {
      assert field[j] == raw[h + j];
      Periodic(word, raw, h + j);
      CodeBytes(n, 1 + (h + j) % |word|);
    }
  }

  /** With four bytes of length, the field is a rotation of a length of four or five bytes. */
  lemma UserNotPeriodic(b: Body)
    requires b.UserMessage? && |b.data| < 0x1_0000_0000 && |EncodeBody(b)| >= 0x80
    ensures !Repeats(EncodeVarint(|EncodeBody(b)|)[1..], EncodeBody(b))
  {
    hide EncodeVarint, ToLittleEndian, Repeats, EncodeBody;
    var raw, n, len := EncodeBody(b), |EncodeBody(b)|, |b.data|;
    var word, field := EncodeVarint(n)[1..], ToLittleEndian(4, len);
    EncodedParts(b);
    EncodingLength(n, 0);
    if Repeats(word, raw) {
      RotatedField(n, word, raw, 32, 4, field);
      UserRotation(n, len, word, field);
    }
  }

  lemma UserRotation(n: nat, len: nat, word: seq<byte>, field: seq<byte>)
    requires n >= 0x80 && word == EncodeVarint(n)[1..] && word != []
    requires len < 0x1_0000_0000 && field == ToLittleEndian(4, len)
    requires forall j :: 0 <= j < 4 ==> ByteAt(field, j) == ByteAt(word, (32 + j) % |word|) > 0
    ensures n != len + 36
  {
    hide EncodeVarint, ToLittleEndian, Digits4, Fixed4;
    var code := EncodeVarint(n);
    if n == len + 36 {
      Field4(len);
      FourOrFive(n, len, field);
      TopBits(n);
      if |code| == 4 {
        Code4(n);
        Rotation3(code, field);
      } else {
        Code5(n);
        Rotation4(code, field);
      }
    }
  }

  lemma FourOrFive(n: nat, len: nat, field: seq<byte>)
    requires len < 0x1_0000_0000 && n == len + 36 && field == ToLittleEndian(4, len)
    requires ByteAt(field, 3) > 0
    ensures 4 <= |EncodeVarint(n)| <= 5
  {
    hide EncodeVarint, ToLittleEndian, Pow128;
    Field4(len);
    Pow128Values();
    EncodingLength(n, 2);
    EncodingLength(n, 4);
  }

  lemma Nine(n: nat, len: nat, field: seq<byte>)
    requires n <= MAX_STRING && n == len + 24 && field == ToLittleEndian(8, len)
    requires ByteAt(field, 7) > 0
    ensures |EncodeVarint(n)| == 9
  {
    hide EncodeVarint, ToLittleEndian, Pow128;
    Field8(len);
    Pow128Values();
    EncodingLength(n, 7);
    EncodingLength(n, 8);
  }

  lemma Rotation3(code: seq<byte>, field: seq<byte>)
    requires |code| == 4 && |field| == 4
    requires ByteAt(field, 0) == ByteAt(code, 3) == ByteAt(field, 3)
    requires ByteAt(field, 1) == ByteAt(code, 1) >= 0x80 && ByteAt(field, 2) == ByteAt(code, 2) >= 0x80
    ensures Fixed4(field, 0) > Digits4(code, 0) + 0x1000_0000
  {
  }

  lemma Rotation4(code: seq<byte>, field: seq<byte>)
    requires |code| == 5 && |field| == 4
    requires forall j :: 0 <= j < 4 ==> ByteAt(field, j) == ByteAt(code, 1 + j) > 0
    requires forall j :: 0 <= j < 4 ==> ByteAt(code, j) >= 0x80
    ensures Fixed4(field, 0) + 36 < Digits4(code, 0) + 0x1000_0000 * ByteAt(code, 4)
  {
  }

  /** With eight bytes of length, the field is what follows the first byte of a length of nine. */
  lemma RequestNotPeriodic(b: Body)
    requires b.RequestPortMerge? && 0x80 <= |EncodeBody(b)| <= MAX_STRING
    ensures !Repeats(EncodeVarint(|EncodeBody(b)|)[1..], EncodeBody(b))
  {
    hide EncodeVarint, ToLittleEndian, Repeats, EncodeBody;
    var raw, n, len := EncodeBody(b), |EncodeBody(b)|, |b.pipe|;
    var word, field := EncodeVarint(n)[1..], ToLittleEndian(8, len);
    EncodedParts(b);
    EncodingLength(n, 0);
    if Repeats(word, raw) {
      RotatedField(n, word, raw, 16, 8, field);
      RequestRotation(n, len, word, field);
    }
  }

  lemma RequestRotation(n: nat, len: nat, word: seq<byte>, field: seq<byte>)
    requires 0x80 <= n <= MAX_STRING && word == EncodeVarint(n)[1..] && word != []
    requires len < 0x1_0000_0000_0000_0000 && field == ToLittleEndian(8, len)
    requires forall j :: 0 <= j < 8 ==> ByteAt(field, j) == ByteAt(word, (16 + j) % |word|) > 0
    ensures n != len + 24
  {
    hide EncodeVarint, ToLittleEndian, Digits4, Fixed4;
    var code := EncodeVarint(n);
    if n == len + 24 {
      Field8(len);
      Nine(n, len, field);
      TopBits(n);
      Code9(n);
      forall j | 0 <= j < 8
        ensures ByteAt(field, j) == ByteAt(code, 1 + j)
      {
        assert (16 + j) % 8 == j;
      }
      Rotation8(code, field);
    }
  }

  lemma Rotation8(code: seq<byte>, field: seq<byte>)
    requires |code| == 9 && |field| == 8
    requires forall j :: 0 <= j < 8 ==> ByteAt(field, j) == ByteAt(code, 1 + j) > 0
    requires forall j :: 0 <= j < 8 ==> ByteAt(code, j) >= 0x80
    ensures Fixed4(field, 0) + 0x1_0000_0000 * Fixed4(field, 4)
         >= Digits4(code, 0) + 0x1000_0000 * (Digits4(code, 4) + 0x1000_0000 * ByteAt(code, 8))
  {
  }

  /** A body survives the way through a frame's content exactly when its encoding is shorter than 128
      bytes. */
  lemma DeserializeExactly(b: Body, kind: MessageKind)
    requires kind == KindOf(b) && |EncodeBody(b)| <= MAX_STRING
    ensures Deserialize(kind, EncodeBody(b)) == Success(b) <==> |EncodeBody(b)| < 0x80
  {
    hide EncodeBody, DecodeBody, EncodeVarint;
    var raw := EncodeBody(b);
    var n := |raw|;
    EncodingLength(n, 0);
    if n < 0x80 {
      ShortBodies(b);
      assert Received(raw) == raw + [] by {
        assert EncodeVarint(n)[1..] == [];
      }
      PlainRoundTrip(b, [], FillsChunks(raw));
    } else if Deserialize(kind, raw) == Success(b) {
      ShortBodies(b);
      BodyDetermined(kind, Received(raw), b, FillsChunks(raw));
      assert Received(raw) == EncodeVarint(n)[1..] + raw;
      Pow256Of8();
      if b.UserMessage? {
        UserNotPeriodic(b);
      } else {
        RequestNotPeriodic(b);
      }
    }
  }

  /** That is every body of fixed size, user messages of up to 91 bytes, and requests with names of up
      to 103 bytes. */
  lemma ShortBodies(b: Body)
    ensures |EncodeBody(b)| < 0x80
       <==> TwoNames(KindOf(b)) || (b.UserMessage? && |b.data| <= 91) || (b.RequestPortMerge? && |b.pipe| <= 103)
  {
    hide ToLittleEndian;
  }

  // ------------------------------------------------------------------ what becomes of the others

  lemma BytesBelow(bytes: seq<byte>)
    requires |bytes| >= 4
    ensures FromLittleEndian(bytes) >= 0x100 * (bytes[1] as int + 0x100 * (bytes[2] as int + 0x100 * (bytes[3] as int)))
  {
    assert FromLittleEndian(bytes) == bytes[0] + 256 * FromLittleEndian(bytes[1..]);
    assert FromLittleEndian(bytes[1..]) == bytes[1] + 256 * FromLittleEndian(bytes[1..][1..]);
    assert bytes[1..][1..] == bytes[2..] && bytes[2..][1..] == bytes[3..];
  }

  lemma LowBytes(w: nat, len: nat)
    requires w >= 2 && len < 0x1_0000
    ensures
      var field := ToLittleEndian(w, len);
      |field| == w && len == field[0] as int + 0x100 * (field[1] as int)
  {
    assert ToLittleEndian(w, len) == [len % 256] + ToLittleEndian(w - 1, len / 256);
  }

  /** Shifted by one or two bytes, the length field reads as more than all the bytes there are. */
  lemma ShiftedField(b: Body, word: seq<byte>)
    requires !TwoNames(KindOf(b)) && 1 <= |word| <= 2 && 0 < |Payload(b)| < 0x1_0000
    ensures
      var h, w := HeaderSize(b), FieldSize(b);
      && h + w <= |EncodeBody(b)|
      && var tail := (word + EncodeBody(b))[h..];
      |tail| >= w && FromLittleEndian(tail[..w]) > |tail| - w
  {
    EncodedParts(b);
    hide ToLittleEndian, FromLittleEndian, EncodeBody;
    var raw, h, w := EncodeBody(b), HeaderSize(b), FieldSize(b);
    var tail := (word + raw)[h..];
    LowBytes(w, |Payload(b)|);
    BytesBelow(tail[..w]);
    assert tail[..w][|word|] == raw[h..h + w][0] && tail[..w][|word| + 1] == raw[h..h + w][1];
  }

  lemma AnyName(bytes: seq<byte>)
    requires |bytes| >= 16
    ensures DecodeName(bytes).result.Success? && DecodeName(bytes).rest == bytes[16..]
  {
    assert bytes[8..][8..] == bytes[16..];
  }

  lemma ShortWord(n: nat)
    requires 0x80 <= n < 0x1_0000
    ensures 1 <= |EncodeVarint(n)[1..]| <= 2
  {
    hide EncodeVarint, Pow128;
    Pow128Values();
    EncodingLength(n, 0);
    EncodingLength(n, 2);
  }

  /** A string whose length field says more than there is. */
  lemma TooLong(w: nat, tail: seq<byte>, full: bool)
    requires |tail| >= w && FromLittleEndian(tail[..w]) > |tail| - w
    ensures DecodeStringF(w, tail, full).result == Failure(OutOfRange)
  {
    hide FromLittleEndian;
  }

  /** A body whose length field says more than there is. */
  lemma FieldTooLong(kind: MessageKind, bytes: seq<byte>, full: bool)
    requires kind.User? || kind.Request?
    requires
      var h, w := if kind.User? then 32 else 16, if kind.User? then 4 else 8;
      |bytes| >= h + w && FromLittleEndian(bytes[h..][..w]) > |bytes| - h - w
    ensures DecodeBody(kind, bytes, full).result == Failure(OutOfRange)
  {
    hide DecodeName, DecodeStringF, FromLittleEndian;
    AnyName(bytes);
    if kind.User? {
      AnyName(bytes[16..]);
      assert bytes[16..][16..] == bytes[32..];
      TooLong(4, bytes[32..], full);
    } else {
      TooLong(8, bytes[16..], full);
    }
  }

  lemma LongPayload(b: Body)
    requires 0x80 <= |EncodeBody(b)| < 0x1_0000
    ensures !TwoNames(KindOf(b)) && 0 < |Payload(b)| < 0x1_0000
  {
    ShortBodies(b);
    EncodedParts(b);
    hide EncodeBody;
  }

  /** From 128 bytes on, and as long as a frame can hold it, decoding runs out of bytes. */
  lemma LongFails(b: Body)
    requires 0x80 <= |EncodeBody(b)| < 0x1_0000
    ensures Deserialize(KindOf(b), EncodeBody(b)) == Failure(OutOfRange)
  {
    hide EncodeBody, DecodeBody, FromLittleEndian, EncodeVarint, Payload;
    var raw, n := EncodeBody(b), |EncodeBody(b)|;
    var word := EncodeVarint(n)[1..];
    LongPayload(b);
    ShortWord(n);
    ShiftedField(b, word);
    assert Received(raw) == word + raw;
    FieldTooLong(KindOf(b), word + raw, FillsChunks(raw));
  }
}
