// From a message object to the one the other side dispatches on: body, frame, stream, frame, body.

module Transport {
  import opened Bytes
  import opened FlatBuffer
  import opened Zigzag
  import opened Varint
  import opened Codecs
  import opened Names
  import opened Bodies
  import opened SkippedPrefix
  import opened Frames

  function TypeCode(kind: MessageKind): byte {
    match kind
    case Invitee => 1
    case Invitation => 2
    case Request => 3
    case Response => 4
    case User => 5
  }

  /** A body as long as a string can be. */
  predicate IsMessage(b: Body) {
    |EncodeBody(b)| <= MAX_STRING
  }

  function ToFrame(b: Body): Frame
    requires IsMessage(b)
  {
    Frame(TypeCode(KindOf(b)), EncodeBody(b))
  }

  /** Which of the five messages the receiver dispatches a frame to, and what it decodes. */
  function FromFrame(f: Frame): Result<Body> {
    match f.kind
    case 1 => Deserialize(Invitee, f.content)
    case 2 => Deserialize(Invitation, f.content)
    case 3 => Deserialize(Request, f.content)
    case 4 => Deserialize(Response, f.content)
    case 5 => Deserialize(User, f.content)
    case _ => Failure(OutOfRange)
  }

  /** The layout of a message on the stream: magic number, version, type, the length twice, the content. */
  lemma FrameLayout(b: Body)
    requires IsMessage(b)
    ensures
      var bytes, content := EncodeFrame(ToFrame(b)), EncodeBody(b);
      && |bytes| == 11 + |content| && bytes[0] == 0xcc && bytes[1] == 1
      && bytes[2] == (match b
                      case AcceptInvitee(_, _) => 1
                      case AcceptInvitation(_, _) => 2
                      case RequestPortMerge(_, _) => 3
                      case ResponsePortMerge(_, _) => 4
                      case UserMessage(_, _, _) => 5)
      && bytes[3..7] == ToLittleEndian(4, |content|) == bytes[7..11] && bytes[11..] == content
  {
    hide EncodeBody, ToLittleEndian;
  }

  predicate AllMessages(messages: seq<Body>) {
    forall i :: 0 <= i < |messages| ==> IsMessage(messages[i])
  }

  function ToFrames(messages: seq<Body>): (frames: seq<Frame>)
    requires AllMessages(messages)
    ensures |frames| == |messages|
    ensures forall i :: 0 <= i < |messages| ==> frames[i] == ToFrame(messages[i])
  {
    seq(|messages|, i requires 0 <= i < |messages| => ToFrame(messages[i]))
  }

  /** The receiver reads as many frames as were sent and decodes each to the message sent. */
  ghost predicate Arrive(messages: seq<Body>, run: Run, rest: seq<byte>) {
    && run.rest == rest && |run.frames| == |messages|
    && forall i :: 0 <= i < |messages| ==> FromFrame(run.frames[i]) == Success(messages[i])
  }

  /** The frame the reader makes of one message. */
  lemma OneMessage(b: Body)
    requires IsMessage(b)
    ensures
      var f := ToFrame(b);
      FromFrame(Frame(f.kind, f.content[..Truncated(|f.content|)])) == Success(b) <==> |EncodeBody(b)| < 0x80
  {
    hide EncodeBody, Deserialize;
    var raw, kind := EncodeBody(b), KindOf(b);
    var cut := raw[..Truncated(|raw|)];
    if |raw| < 0x1_0000 {
      assert cut == raw;
      DeserializeExactly(b, kind);
    } else {
      CutNotDecoded(b, kind, cut);
    }
  }

  /** A content that lost 65536 bytes or more is too short. */
  lemma CutNotDecoded(b: Body, kind: MessageKind, cut: seq<byte>)
    requires kind == KindOf(b) && |cut| < 0x1_0000 && |EncodeBody(b)| >= |cut| + 0x1_0000
    ensures Deserialize(kind, cut) != Success(b)
  {
    hide DecodeBody, EncodeVarint, EncodeBody;
    EncodingFits(|cut|, W32);
    ShortBodies(b);
    if Deserialize(kind, cut) == Success(b) {
      BodyDetermined(kind, Received(cut), b, FillsChunks(cut));
    }
  }

  /** Messages sent over a reliable stream are received, each as it was sent and in order, exactly when
      every one of them is encoded in less than 128 bytes. */
  lemma {:induction false} MessagesArrive(messages: seq<Body>, rest: seq<byte>)
    requires AllMessages(messages)
    ensures
      Arrive(messages, ReadFrames(|messages|, EncodeFrames(ToFrames(messages)) + rest), rest)
      <==> forall i :: 0 <= i < |messages| ==> |EncodeBody(messages[i])| < 0x80
  {
    hide FromFrame, ReadFrame, EncodeFrame, EncodeBody, IsMessage;
    var frames := ToFrames(messages);
    if messages == [] {
      assert EncodeFrames(frames) + rest == rest;
    } else {
      var b, more := messages[0], messages[1..];
      var f, tail := frames[0], EncodeFrames(frames[1..]) + rest;
      assert frames[1..] == ToFrames(more);
      assert EncodeFrames(frames) + rest == EncodeFrame(f) + tail;
      var run := ReadFrames(|messages|, EncodeFrame(f) + tail);
      ReadOne(f, tail);
      OneMessage(b);
      FrameContent(b);
      MessagesArrive(more, rest);
      if |EncodeBody(b)| < 0x80 {
        ReadShort(f, tail);
        var next := ReadFrames(|more|, tail);
        assert run == Run([f] + next.frames, next.rest);
        FirstArrives(messages, next, f, rest);
      } else {
        assert run.frames[0] == Frame(f.kind, f.content[..Truncated(|f.content|)]);
        assert FromFrame(run.frames[0]) != Success(messages[0]);
      }
    }
  }

  lemma FrameContent(b: Body)
    requires IsMessage(b)
    ensures ToFrame(b).content == EncodeBody(b)
  {
  }

  lemma FirstArrives(messages: seq<Body>, next: Run, f: Frame, rest: seq<byte>)
    requires messages != [] && FromFrame(f) == Success(messages[0])
    ensures Arrive(messages, Run([f] + next.frames, next.rest), rest) <==> Arrive(messages[1..], next, rest)
  {
    hide FromFrame;
    var frames, more := [f] + next.frames, messages[1..];
    if Arrive(messages, Run(frames, next.rest), rest) {
      forall i | 0 <= i < |more|
        ensures FromFrame(next.frames[i]) == Success(more[i])
      {
        assert FromFrame(frames[i + 1]) == Success(messages[i + 1]);
      }
    }
    if Arrive(more, next, rest) {
      forall i | 0 <= i < |messages|
        ensures FromFrame(frames[i]) == Success(messages[i])
      {
        if i > 0 {
          assert FromFrame(next.frames[i - 1]) == Success(more[i - 1]);
        }
      }
    }
  }
}
