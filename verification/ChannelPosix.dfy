// The frame object, and the channel that writes frames to a socket and reads them from it. The socket
// is a pair of byte streams: what was sent, and what has arrived and not been taken yet.

module Protocols {
  import opened Bytes
  import opened FlatBuffer
  import opened Zigzag
  import opened Varint
  import opened Codecs
  import opened Chunking
  import opened Chunks
  import opened Buffers
  import opened Bodies
  import opened Frames
  import opened Messages
  import opened Serializers

  class Protocol {
    var magic: byte
    var version: byte
    var kind: byte
    var contentLength: nat
    var data: seq<byte>

    ghost function Value(): Frame
      reads this
    {
      Frame(kind, data)
    }

    constructor (k: byte, content: seq<byte>)
      ensures magic == MAGIC && version == DEFAULT_VERSION && contentLength == 0
      ensures Value() == Frame(k, content)
    {
      magic, version := MAGIC, DEFAULT_VERSION;
      kind, data := k, content;
      contentLength := 0;
    }

    method Encode() returns (bt: ByteArray)
      ensures bt.Valid() && fresh(bt) && fresh(bt.Repr)
      ensures Filled(bt.Model(), EncodeFields(magic, version, kind, data))
    {
      hide Linked, Holds, ByteArray.Valid, RoundUp, Writes, Filled, Empty, EncodeStringF, EncodeFields;
      bt := NewBuffer();
      ghost var f := bt.Model();
      ghost var meta := [magic, version, kind] + ToLittleEndian(4, |data|);
      WriteMeta(bt);
      ghost var g := bt.Model();
      bt.WriteStringF(4, data);
      WritesCompose(f, g, bt.Model(), meta, EncodeStringF(4, data));
      FieldsAre(magic, version, kind, data);
      Rewind(bt, f, EncodeFields(magic, version, kind, data));
    }

    method WriteMeta(bt: ByteArray)
      requires bt.Valid() && this !in bt.Repr
      modifies bt.Repr
      ensures bt.Valid() && fresh(bt.Repr - old(bt.Repr))
      ensures Writes(old(bt.Model()), bt.Model(), [magic, version, kind] + ToLittleEndian(4, |data|))
    {
      hide Linked, Holds, ByteArray.Valid, Writes, ToLittleEndian;
      ghost var f := bt.Model();
      OneByte(magic);
      OneByte(version);
      OneByte(kind);
      bt.WriteFint(1, magic);
      ghost var g := bt.Model();
      bt.WriteFint(1, version);
      WritesCompose(f, g, bt.Model(), [magic], [version]);
      g := bt.Model();
      bt.WriteFint(1, kind);
      WritesCompose(f, g, bt.Model(), [magic] + [version], [kind]);
      g := bt.Model();
      bt.WriteFint(4, |data|);
      WritesCompose(f, g, bt.Model(), [magic] + [version] + [kind], ToLittleEndian(4, |data|));
      assert [magic] + [version] + [kind] == [magic, version, kind];
    }

    /** Fields are assigned one by one; those behind the first that cannot be read keep their values. */
    method DecodeMeta(bt: ByteArray) returns (r: Result<()>)
      requires bt.Valid() && this !in bt.Repr
      modifies this, bt`cur, bt`position, bt`index, bt`offset
      ensures bt.Valid() && data == old(data)
      ensures
        var f := old(bt.Model());
        var bytes := f.Readable();
        var p := MetaOf(bytes);
        && bt.Model() == f.After(p.rest)
        && if p.result.Success? then r.Success? && Meta(magic, version, kind, contentLength) == p.result.value
           else
             && r == Failure(p.result.error) && contentLength == old(contentLength)
             && magic == (if |bytes| > 0 then bytes[0] else old(magic))
             && version == (if |bytes| > 1 then bytes[1] else old(version))
             && kind == if |bytes| > 2 then bytes[2] else old(kind)
    {
      hide Linked, Holds, ByteArray.Valid, DecodeFint, Flat.Readable, Flat.After;
      ghost var f := bt.Model();
      ghost var bytes := f.Readable();
      AfterByte(f, 0);
      var b := bt.ReadFuint8();
      if b.Failure? {
        return Failure(b.error);
      }
      magic := b.value;
      AfterByte(f, 1);
      b := bt.ReadFuint8();
      if b.Failure? {
        return Failure(b.error);
      }
      version := b.value;
      AfterByte(f, 2);
      b := bt.ReadFuint8();
      if b.Failure? {
        return Failure(b.error);
      }
      kind := b.value;
      AfterByte(f, 3);
      FintBound(4, bytes[3..]);
      AfterTwice(f, bytes[3..], DecodeFint(4, bytes[3..]).rest);
      var length := bt.ReadFint(4);
      if length.Failure? {
        return Failure(length.error);
      }
      contentLength := length.value;
      r := Success(());
    }
  }

  lemma OneByte(b: byte)
    ensures ToLittleEndian(1, b) == [b]
  {
    assert ToLittleEndian(0, b / 256) == [];
  }

  lemma FieldsAre(magic: byte, version: byte, kind: byte, data: seq<byte>)
    ensures EncodeFields(magic, version, kind, data)
         == ([magic, version, kind] + ToLittleEndian(4, |data|)) + EncodeStringF(4, data)
  {
  }

  /** The buffers after the first three bytes are read. */
  /** The buffer from which byte `i` is read, and the one that leaves. */
  lemma AfterByte(f: Flat, i: nat)
    requires f.Valid() && i <= |f.Readable()|
    ensures
      var rest := f.Readable()[i..];
      && f.After(rest).Readable() == rest && (i == 0 ==> f.After(rest) == f)
      && (rest == [] <==> i == |f.Readable()|)
      && (rest != [] ==>
            rest[0] == f.Readable()[i] && rest[1..] == f.Readable()[i + 1..]
            && f.After(rest).After(rest[1..]) == f.After(f.Readable()[i + 1..]))
  {
    AfterNothing(f);
    if i < |f.Readable()| {
      AfterOneByte(f, f.Readable()[i..]);
    }
  }

  method SerializeProtocol(p: Protocol) returns (raw: seq<byte>)
    requires |p.data| <= MAX_STRING
    ensures raw == EncodeFields(p.magic, p.version, p.kind, p.data)
  {
    hide Linked, Holds, ByteArray.Valid;
    var bt := p.Encode();
    raw := bt.ToString();
  }

  /** Decodes a received header, if it is long enough. */
  method DeserializeProtocol(raw: seq<byte>) returns (r: Result<Protocol>)
    requires |raw| <= MAX_STRING
    ensures
      var meta := MetaOf(Received(raw)).result;
      if meta.Failure? then r == Failure(meta.error)
      else
        && r.Success? && fresh(r.value) && r.value.data == []
        && meta.value == Meta(r.value.magic, r.value.version, r.value.kind, r.value.contentLength)
  {
    hide Linked, Holds, ByteArray.Valid, FillsChunks, Received, Flat.Full, MetaOf;
    var s := Unwrap(raw);
    var p := new Protocol(5, []);
    var ok := p.DecodeMeta(s.bytes);
    r := if ok.Failure? then Failure(ok.error) else Success(p);
  }
}

module Channels {
  import opened Bytes
  import opened Bodies
  import opened Frames
  import opened Protocols

  class ChannelPosix {
    var writing: seq<Frame>      // the queue of frames to write
    var sent: seq<byte>          // the outgoing stream
    var arrived: seq<byte>       // the incoming stream, from the reader's position on
    var delivered: seq<Frame>    // what the delegate was called with
    ghost var written: seq<Frame>  // the frames already on the outgoing stream

    /** Nothing is lost, doubled or reordered between the queue and the stream. */
    ghost predicate Valid()
      reads this
    {
      && sent == EncodeFrames(written)
      && forall f :: f in writing ==> |f.content| <= MAX_STRING
    }

    /** All frames handed to `Write`, in order. */
    ghost function Handed(): seq<Frame>
      reads this
    {
      written + writing
    }

    constructor ()
      ensures Valid() && Handed() == [] && sent == arrived == [] && delivered == []
    {
      writing, sent, arrived, delivered, written := [], [], [], [], [];
    }

    method Write(f: Frame)
      requires Valid() && |f.content| <= MAX_STRING
      modifies this`writing
      ensures Valid() && Handed() == old(Handed()) + [f]
    {
      writing := writing + [f];
    }

    /** Takes the whole queue and writes it frame by frame. */
    method OnFdWriteable()
      requires Valid()
      modifies this`writing, this`sent, this`written
      ensures Valid() && Handed() == old(Handed()) && writing == []
      ensures sent == EncodeFrames(Handed())
    {
      hide EncodeFrame;
      var queue := writing;
      writing := [];
      while queue != []
        invariant writing == [] && sent == EncodeFrames(written) && written + queue == old(Handed())
        invariant forall f :: f in queue ==> |f.content| <= MAX_STRING
        decreases |queue|
      {
        var f := queue[0];
        assert f in queue;
        var p := new Protocol(f.kind, f.content);
        var data := SerializeProtocol(p);
        EncodeOneMore(written, f, data);
        sent := sent + data;
        written := written + [f];
        queue := queue[1..];
      }
      assert written + queue == written;
    }

    /** Reads a header and then a body. It waits when they have not arrived; then it does not return. */
    method OnFdReadable()
      requires Valid() && ReadFrame(arrived).Delivered?
      modifies this`arrived, this`delivered
      ensures Valid()
      ensures arrived == ReadFrame(old(arrived)).rest
      ensures delivered == old(delivered) + [ReadFrame(old(arrived)).frame]
    {
      ghost var stream := arrived;
      var header := ReadFixBuf(BASE_LENGTH);
      SkippedLength(header);
      var decoded := DeserializeProtocol(header);
      var protocol := decoded.value;
      var n := Truncated(protocol.contentLength);
      var body := ReadFixBuf(n);
      assert body == stream[BASE_LENGTH..BASE_LENGTH + n] && arrived == stream[BASE_LENGTH + n..];
      protocol.data := body;
      delivered := delivered + [Frame(protocol.kind, protocol.data)];
    }

    method ReadFixBuf(n: nat) returns (buf: seq<byte>)
      requires n <= |arrived|
      modifies this`arrived
      ensures buf == old(arrived)[..n] && arrived == old(arrived)[n..]
    {
      buf := arrived[..n];
      arrived := arrived[n..];
    }
  }

  lemma {:induction false} EncodeOneMore(frames: seq<Frame>, f: Frame, data: seq<byte>)
    requires data == EncodeFields(MAGIC, DEFAULT_VERSION, f.kind, f.content)
    ensures EncodeFrames(frames + [f]) == EncodeFrames(frames) + data
  {
    hide EncodeFields;
    if frames == [] {
      assert [f][1..] == [];
    } else {
      EncodeOneMore(frames[1..], f, data);
      assert (frames + [f])[1..] == frames[1..] + [f];
      assert EncodeFrame(frames[0]) + (EncodeFrames(frames[1..]) + data)
          == (EncodeFrame(frames[0]) + EncodeFrames(frames[1..])) + data;
    }
  }
}
