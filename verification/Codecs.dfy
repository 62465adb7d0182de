// What the buffer's typed reads return, as functions of the readable bytes.

module Codecs {
  import opened Bytes
  import opened FlatBuffer
  import opened Zigzag
  import opened Varint

  /** A fixed-width unsigned integer of `n` bytes. */
  function DecodeFint(n: nat, bytes: seq<byte>): (p: Parsed<nat>)
    ensures |p.rest| <= |bytes|
  {
    if n > |bytes| then Stop(OutOfRange, bytes)
    else Ok(FromLittleEndian(bytes[..n]), bytes[n..])
  }

  lemma FintSuffix(n: nat, bytes: seq<byte>)
    ensures
      var rest := DecodeFint(n, bytes).rest;
      |rest| <= |bytes| && rest == bytes[|bytes| - |rest|..]
  {
  }

  lemma FintRoundTrip(n: nat, value: nat, rest: seq<byte>)
    ensures
      var p := DecodeFint(n, ToLittleEndian(n, value) + rest);
      && p.result.Success? && p.rest == rest
      && p.result.value % Pow256(n) == value % Pow256(n) && p.result.value < Pow256(n)
    ensures value < Pow256(n) ==>
              DecodeFint(n, ToLittleEndian(n, value) + rest) == Ok(value, rest)
  {
    LittleEndianRoundTrip(n, value);
    var bytes := ToLittleEndian(n, value) + rest;
    assert bytes[..n] == ToLittleEndian(n, value) && bytes[n..] == rest;
  }

  /** Decoding an integer and then as many bytes as it says. */
  function ThenBytes(p: Parsed<nat>, full: bool): (q: Parsed<seq<byte>>)
    ensures |q.rest| <= |p.rest|
  {
    if p.result.Failure? then Stop(p.result.error, p.rest)
    else TakeBytes(p.rest, full, p.result.value)
  }

  /** A string behind a fixed-width length of `n` bytes. */
  function EncodeStringF(n: nat, text: seq<byte>): seq<byte> {
    ToLittleEndian(n, |text|) + text
  }

  function DecodeStringF(n: nat, bytes: seq<byte>, full: bool): (p: Parsed<seq<byte>>)
    ensures |p.rest| <= |bytes|
  {
    ThenBytes(DecodeFint(n, bytes), full)
  }

  /** A string behind a varint length. */
  function EncodeStringVint(text: seq<byte>): seq<byte> {
    EncodeVarint(|text|) + text
  }

  function DecodeStringVint(bytes: seq<byte>, full: bool): (p: Parsed<seq<byte>>)
    ensures |p.rest| <= |bytes|
  {
    ThenBytes(DecodeVarint(bytes, W64), full)
  }

  /** The one string that cannot be read back: an empty one whose length prefix ends exactly where
      the last chunk ends. */
  predicate AtBrink(text: seq<byte>, rest: seq<byte>, full: bool) {
    text == [] && rest == [] && full
  }

  lemma TakeBack(text: seq<byte>, rest: seq<byte>, full: bool)
    ensures TakeBytes(text + rest, full, |text|)
         == if AtBrink(text, rest, full) then Stop(NullCursor, rest) else Ok(text, rest)
  {
    assert (text + rest)[..|text|] == text && (text + rest)[|text|..] == rest;
  }

  /** A string with a fixed-width length is read back exactly when it is not at the brink and its
      length fits the prefix. */
  lemma StringFRoundTrip(n: nat, text: seq<byte>, rest: seq<byte>, full: bool)
    ensures DecodeStringF(n, EncodeStringF(n, text) + rest, full) == Ok(text, rest)
       <==> |text| < Pow256(n) && !AtBrink(text, rest, full)
  {
    FintRoundTrip(n, |text|, text + rest);
    assert EncodeStringF(n, text) + rest == ToLittleEndian(n, |text|) + (text + rest);
    TakeBack(text, rest, full);
  }

  /** A string with a varint length is read back exactly when it is not at the brink. */
  lemma StringVintRoundTrip(text: seq<byte>, rest: seq<byte>, full: bool)
    requires |text| < Modulus(W64)
    ensures DecodeStringVint(EncodeStringVint(text) + rest, full) == Ok(text, rest)
       <==> !AtBrink(text, rest, full)
    ensures AtBrink(text, rest, full) ==>
              DecodeStringVint(EncodeStringVint(text) + rest, full) == Stop(NullCursor, [])
  {
    VarintRoundTrip(|text|, text + rest, W64);
    assert EncodeStringVint(text) + rest == EncodeVarint(|text|) + (text + rest);
    TakeBack(text, rest, full);
  }

  /** A signed integer as the varint of its zigzag code. */
  function EncodeInt(value: int, w: Width): seq<byte>
    requires IsSigned(value, w)
  {
    EncodeVarint(EncodeZigzag(value, w))
  }

  function DecodeInt(bytes: seq<byte>, w: Width): (p: Parsed<int>)
    ensures |p.rest| <= |bytes|
  {
    DecodeVarintInRange(bytes, w);
    var p := DecodeVarint(bytes, w);
    if p.result.Failure? then Stop(p.result.error, p.rest)
    else Ok(DecodeZigzag(p.result.value, w), p.rest)
  }

  /** Every signed integer, the smallest included, is read back. */
  lemma IntRoundTrip(value: int, rest: seq<byte>, w: Width)
    requires IsSigned(value, w)
    ensures DecodeInt(EncodeInt(value, w) + rest, w) == Ok(value, rest)
  {
    VarintRoundTrip(EncodeZigzag(value, w), rest, w);
    ZigzagBijection(w);
  }

  /** The buffer after a read that returned and left `rest`. */
  ghost predicate ReadsTo<T>(p: Parsed<T>, back: Flat, value: T, g: Flat)
    requires back.Valid()
  {
    p.result == Success(value) && |p.rest| <= back.size - back.position && back.After(p.rest) == g
  }

  /** An unsigned integer written anywhere in a buffer of any chunk size, also across chunks and
      while growing, is read back there, and the read stops where the write stopped. */
  lemma UintReadBack(f: Flat, g: Flat, number: nat, w: Width)
    requires IsUnsigned(number, w) && Writes(f, g, EncodeVarint(number))
    ensures
      var back := Moved(g, f.position);
      back.Valid() && ReadsTo(DecodeVarint(back.Readable(), w), back, number, g)
  {
    hide Writes, EncodeVarint, DecodeVarint;
    WritesReadBack(f, g, EncodeVarint(number));
    WrittenSpan(f, g, EncodeVarint(number));
    VarintRoundTrip(number, g.Readable(), w);
  }

  lemma IntReadBack(f: Flat, g: Flat, value: int, w: Width)
    requires IsSigned(value, w) && Writes(f, g, EncodeInt(value, w))
    ensures
      var back := Moved(g, f.position);
      back.Valid() && ReadsTo(DecodeInt(back.Readable(), w), back, value, g)
  {
    hide Writes, EncodeInt, DecodeInt;
    WritesReadBack(f, g, EncodeInt(value, w));
    WrittenSpan(f, g, EncodeInt(value, w));
    IntRoundTrip(value, g.Readable(), w);
  }

  lemma WrittenSpan(f: Flat, g: Flat, bytes: seq<byte>)
    requires Writes(f, g, bytes)
    ensures f.position <= g.position && g.Valid() && Moved(g, f.position).Valid()
    ensures Moved(g, f.position).After(g.Readable()) == g
  {
  }
}
