// The framing of messages on a byte stream.

module Frames {
  import opened Bytes
  import opened FlatBuffer
  import opened Zigzag
  import opened Varint
  import opened Codecs
  import opened Bodies

  const MAGIC: byte := 0xcc
  const DEFAULT_VERSION: byte := 0x01

  /** The three bytes and the length in front, and the length of the string behind, which the reader
      takes for a part of the header. */
  const BASE_LENGTH: nat := 11

  datatype Frame = Frame(kind: byte, content: seq<byte>)

  function EncodeFields(magic: byte, version: byte, kind: byte, content: seq<byte>): seq<byte> {
    [magic, version, kind] + ToLittleEndian(4, |content|) + EncodeStringF(4, content)
  }

  function EncodeFrame(f: Frame): seq<byte> {
    EncodeFields(MAGIC, DEFAULT_VERSION, f.kind, f.content)
  }

  function EncodeFrames(frames: seq<Frame>): seq<byte> {
    if frames == [] then [] else EncodeFrame(frames[0]) + EncodeFrames(frames[1..])
  }

  datatype Meta = Meta(magic: byte, version: byte, kind: byte, length: nat)

  function MetaOf(bytes: seq<byte>): (p: Parsed<Meta>)
    ensures |p.rest| <= |bytes|
  {
    if |bytes| < 3 then Stop(OutOfRange, [])
    else
      var p := DecodeFint(4, bytes[3..]);
      if p.result.Failure? then Stop(p.result.error, p.rest)
      else Ok(Meta(bytes[0], bytes[1], bytes[2], p.result.value), p.rest)
  }

  datatype Reading = Waiting | Delivered(frame: Frame, rest: seq<byte>)

  /** The length of a string that is requested from the socket is a 16-bit integer. */
  function Truncated(length: nat): nat {
    length % 0x1_0000
  }

  /** One frame off the stream: header, then body. The magic number is not looked at. */
  function ReadFrame(stream: seq<byte>): (r: Reading)
    ensures r.Delivered? ==> |r.rest| < |stream|
  {
    if |stream| < BASE_LENGTH then Waiting
    else
      var meta := MetaOf(Received(stream[..BASE_LENGTH])).result;
      if meta.Failure? then Waiting
      else
        var n := Truncated(meta.value.length);
        if |stream| < BASE_LENGTH + n then Waiting
        else
          Delivered(Frame(meta.value.kind, stream[BASE_LENGTH..BASE_LENGTH + n]), stream[BASE_LENGTH + n..])
  }

  datatype Run = Run(frames: seq<Frame>, rest: seq<byte>)

  /** Reading up to `n` frames. */
  function ReadFrames(n: nat, stream: seq<byte>): Run {
    if n == 0 || ReadFrame(stream).Waiting? then Run([], stream)
    else
      var r := ReadFrame(stream);
      var more := ReadFrames(n - 1, r.rest);
      Run([r.frame] + more.frames, more.rest)
  }

  lemma SkippedLength(header: seq<byte>)
    requires |header| == BASE_LENGTH
    ensures Received(header) == header
  {
    assert EncodeVarint(BASE_LENGTH) == [BASE_LENGTH];
  }

  /** The header of an encoded frame, and what it is decoded to. */
  lemma HeaderOf(f: Frame, tail: seq<byte>)
    ensures
      var stream := EncodeFrame(f) + tail;
      && |stream| == BASE_LENGTH + |f.content| + |tail|
      && MetaOf(stream[..BASE_LENGTH])
         == Ok(Meta(MAGIC, DEFAULT_VERSION, f.kind, |f.content| % 0x1_0000_0000),
               ToLittleEndian(4, |f.content|))
      && stream[BASE_LENGTH..] == f.content + tail
  {
    hide ToLittleEndian, DecodeFint;
    var length := ToLittleEndian(4, |f.content|);
    var stream := EncodeFrame(f) + tail;
    assert stream[..BASE_LENGTH] == [MAGIC, DEFAULT_VERSION, f.kind] + length + length;
    assert stream[..BASE_LENGTH][3..] == length + length;
    FintRoundTrip(4, |f.content|, length);
    Pow256Of8();
    Small(DecodeFint(4, length + length).result.value, 0x1_0000_0000);
  }

  /** The reader takes the low 16 bits of the length for the length. */
  lemma ReadOne(f: Frame, tail: seq<byte>)
    ensures
      var n := Truncated(|f.content|);
      && n <= |f.content|
      && ReadFrame(EncodeFrame(f) + tail) == Delivered(Frame(f.kind, f.content[..n]), f.content[n..] + tail)
  {
    hide EncodeFrame, MetaOf, Received;
    var n := Truncated(|f.content|);
    assert n == (|f.content| % 0x1_0000_0000) % 0x1_0000;
    var stream := EncodeFrame(f) + tail;
    HeaderOf(f, tail);
    SkippedLength(stream[..BASE_LENGTH]);
    assert stream[BASE_LENGTH..BASE_LENGTH + n] == stream[BASE_LENGTH..][..n] == f.content[..n];
    assert stream[BASE_LENGTH + n..] == stream[BASE_LENGTH..][n..] == f.content[n..] + tail;
  }

  lemma ReadShort(f: Frame, tail: seq<byte>)
    requires |f.content| < 0x1_0000
    ensures ReadFrame(EncodeFrame(f) + tail) == Delivered(f, tail)
  {
    hide EncodeFrame, ReadFrame;
    ReadOne(f, tail);
    assert f.content[..|f.content|] == f.content && f.content[|f.content|..] + tail == tail;
  }

  predicate AllShort(frames: seq<Frame>) {
    forall i :: 0 <= i < |frames| ==> |frames[i].content| < 0x1_0000
  }

  /** A stream of frames is read back frame by frame, ending at a frame boundary, exactly when every
      content is shorter than 65536 bytes. */
  lemma {:induction false} StreamExactly(frames: seq<Frame>, rest: seq<byte>)
    ensures ReadFrames(|frames|, EncodeFrames(frames) + rest) == Run(frames, rest) <==> AllShort(frames)
  {
    hide EncodeFrame, ReadFrame;
    if frames == [] {
      assert EncodeFrames(frames) + rest == rest;
    } else {
      var f, more := frames[0], frames[1..];
      var tail := EncodeFrames(more) + rest;
      assert EncodeFrames(frames) + rest == EncodeFrame(f) + tail;
      ReadOne(f, tail);
      StreamExactly(more, rest);
      if |f.content| < 0x1_0000 {
        ReadShort(f, tail);
        assert frames == [f] + more;
        assert ([f] + ReadFrames(|more|, tail).frames)[1..] == ReadFrames(|more|, tail).frames;
        assert AllShort(frames) <==> AllShort(more);
      } else {
        var r := ReadFrame(EncodeFrame(f) + tail);
        assert ReadFrames(|frames|, EncodeFrame(f) + tail).frames[0] == r.frame != f;
        assert !AllShort(frames);
      }
    }
  }

  /** Whatever part of the stream has arrived, the frames read from it are the first ones sent, and all
      of them whose last byte has arrived. */
  lemma {:induction false} ArrivedPrefix(frames: seq<Frame>, k: nat)
    requires AllShort(frames) && k <= |EncodeFrames(frames)|
    ensures
      var read := ReadFrames(|frames|, EncodeFrames(frames)[..k]);
      && read.frames <= frames
      && EncodeFrames(frames)[..k] == EncodeFrames(read.frames) + read.rest
      && forall n :: 0 <= n <= |frames| ==> (n <= |read.frames| <==> |EncodeFrames(frames[..n])| <= k)
  {
    hide EncodeFrame, ReadFrame;
    if frames != [] {
      var f, more := frames[0], frames[1..];
      var stream := EncodeFrames(frames);
      var size := |EncodeFrame(f)|;
      assert stream == EncodeFrame(f) + EncodeFrames(more);
      forall n | 0 < n <= |frames|
        ensures EncodeFrames(frames[..n]) == EncodeFrame(f) + EncodeFrames(more[..n - 1])
      {
        assert frames[..n][0] == f && frames[..n][1..] == more[..n - 1];
      }
      if k < size {
        Incomplete(f, stream[..k], EncodeFrames(more));
        assert EncodeFrames([]) + stream[..k] == stream[..k];
      } else {
        var part := EncodeFrames(more)[..k - size];
        assert stream[..k] == EncodeFrame(f) + part;
        ReadShort(f, part);
        ArrivedPrefix(more, k - size);
        var read := ReadFrames(|more|, part);
        assert ([f] + read.frames)[1..] == read.frames;
        assert EncodeFrame(f) + (EncodeFrames(read.frames) + read.rest)
            == EncodeFrames([f] + read.frames) + read.rest;
        assert ReadFrames(|frames|, stream[..k]) == Run([f] + read.frames, read.rest);
        forall n | 0 < n <= |frames|
          ensures n <= |read.frames| + 1 <==> |EncodeFrames(frames[..n])| <= k
        {
          assert n - 1 <= |read.frames| <==> |EncodeFrames(more[..n - 1])| <= k - size;
        }
      }
    }
  }

  /** A frame that has not arrived completely is waited for. */
  lemma Incomplete(f: Frame, part: seq<byte>, tail: seq<byte>)
    requires |f.content| < 0x1_0000 && |part| < |EncodeFrame(f)|
    requires part == (EncodeFrame(f) + tail)[..|part|]
    ensures ReadFrame(part).Waiting?
  {
    hide EncodeFrame, MetaOf, Received;
    var stream := EncodeFrame(f) + tail;
    HeaderOf(f, tail);
    if |part| >= BASE_LENGTH {
      SkippedLength(stream[..BASE_LENGTH]);
      assert part[..BASE_LENGTH] == stream[..BASE_LENGTH];
      HeaderOf(f, []);
      assert EncodeFrame(f) + [] == EncodeFrame(f);
    }
  }
}
