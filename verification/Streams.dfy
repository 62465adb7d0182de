// A channel as bytes: what the reader gets of the messages that were sent, at any place in the stream.

module Streams {
  import opened Bytes
  import opened Names
  import opened Bodies
  import opened SkippedPrefix
  import opened Frames
  import opened Transport

  function FrameOf(b: Body): Frame {
    Frame(TypeCode(KindOf(b)), EncodeBody(b))
  }

  /** The bytes of messages sent one after the other. */
  function Stream(messages: seq<Body>): seq<byte> {
    if messages == [] then []
    else Stream(messages[..|messages| - 1]) + EncodeFrame(FrameOf(messages[|messages| - 1]))
  }

  /** What comes of reading a frame: nothing yet, a content that is not decoded, or a message, and where
      the next frame begins. */
  datatype Heard = Silent | Broken | Message(body: Body, next: nat)

  function HearAt(messages: seq<Body>, at: nat): Heard {
    var stream := Stream(messages);
    if at > |stream| then Silent
    else
      match ReadFrame(stream[at..])
      case Waiting => Silent
      case Delivered(f, rest) =>
        var m := FromFrame(f);
        if m.Failure? then Broken else Message(m.value, |stream| - |rest|)
  }

  lemma {:induction false} StreamAt(messages: seq<Body>, i: nat)
    requires i < |messages|
    ensures
      var stream, at, next := Stream(messages), |Stream(messages[..i])|, |Stream(messages[..i + 1])|;
      at <= next <= |stream| && stream[at..] == EncodeFrame(FrameOf(messages[i])) + stream[next..]
  {
    hide EncodeFrame, FrameOf;
    var most, last := messages[..|messages| - 1], messages[|messages| - 1];
    var stream := Stream(messages);
    assert messages[..i + 1][..i] == messages[..i];
    if i == |most| {
      assert messages[..i + 1] == messages;
    } else {
      StreamAt(most, i);
      assert most[..i] == messages[..i] && most[..i + 1] == messages[..i + 1];
      var at, next := |Stream(messages[..i])|, |Stream(messages[..i + 1])|;
      assert stream[at..] == Stream(most)[at..] + EncodeFrame(FrameOf(last));
      assert stream[next..] == Stream(most)[next..] + EncodeFrame(FrameOf(last));
    }
  }

  /** At the beginning of a frame, the message is heard as it was sent, and the reader is at the
      beginning of the next, exactly when it is encoded in less than 128 bytes. */
  lemma HeardExactly(messages: seq<Body>, i: nat)
    requires i < |messages| && IsMessage(messages[i])
    ensures HearAt(messages, |Stream(messages[..i])|) == Message(messages[i], |Stream(messages[..i + 1])|)
       <==> |EncodeBody(messages[i])| < 0x80
  {
    hide EncodeFrame, EncodeBody, FromFrame, ReadFrame, Stream, IsMessage;
    StreamAt(messages, i);
    var b := messages[i];
    var rest := Stream(messages)[|Stream(messages[..i + 1])|..];
    ReadOne(FrameOf(b), rest);
    OneMessage(b);
    if |EncodeBody(b)| < 0x80 {
      assert EncodeBody(b)[..|EncodeBody(b)|] == EncodeBody(b);
      assert EncodeBody(b)[|EncodeBody(b)|..] + rest == rest;
    }
  }

  /** The receiver decodes the content of a message's frame as that kind of message. */
  lemma Dispatched(b: Body)
    ensures FrameOf(b).content == EncodeBody(b) && FromFrame(FrameOf(b)) == Deserialize(KindOf(b), EncodeBody(b))
  {
    hide EncodeBody, Deserialize;
  }

  /** From 128 bytes on, and as long as its content fits a frame, it is not decoded at all. */
  lemma LongBreaks(messages: seq<Body>, i: nat)
    requires i < |messages| && 0x80 <= |EncodeBody(messages[i])| < 0x1_0000
    ensures HearAt(messages, |Stream(messages[..i])|) == Broken
  {
    hide EncodeFrame, EncodeBody, Deserialize, ReadFrame, Stream, FromFrame, FrameOf;
    StreamAt(messages, i);
    LongFails(messages[i]);
    Dispatched(messages[i]);
    ReadShort(FrameOf(messages[i]), Stream(messages)[|Stream(messages[..i + 1])|..]);
  }

  /** Behind the last frame the reader waits. */
  lemma NothingMore(messages: seq<Body>)
    ensures HearAt(messages, |Stream(messages)|) == Silent
  {
    hide Stream;
    var stream := Stream(messages);
    assert stream[|stream|..] == [];
  }

  // ------------------------------------------------------------------ strays

  /** A message kept apart from the others of its channel, behind the first `place` of them. */
  datatype Stray = Stray(place: nat, message: Body)

  /** The channel they make up. */
  function Channel(others: seq<Body>, strays: seq<Stray>): seq<Body>
    decreases |strays|
  {
    if strays == [] then others
    else
      var last := strays[|strays| - 1];
      var at := if last.place <= |others| then last.place else |others|;
      Channel(others[..at], strays[..|strays| - 1]) + [last.message] + others[at..]
  }

  /** The strays are in order, behind `low` of the others at least and `high` at most. */
  predicate Placed(strays: seq<Stray>, low: nat, high: nat) {
    && (forall i :: 0 <= i < |strays| ==> low <= strays[i].place <= high)
    && (forall i, j :: 0 <= i < j < |strays| ==> strays[i].place <= strays[j].place)
  }

  /** Sending a message puts it at the end of the channel. */
  lemma SendEnds(others: seq<Body>, more: seq<Body>, strays: seq<Stray>)
    requires others <= more && forall i :: 0 <= i < |strays| ==> strays[i].place <= |others|
    ensures Channel(more, strays) == Channel(others, strays) + more[|others|..]
  {
    if strays != [] {
      var at := strays[|strays| - 1].place;
      assert more[..at] == others[..at] && more[at..] == others[at..] + more[|others|..];
    } else {
      assert more == others + more[|others|..];
    }
  }

  /** And so does a stray that is placed behind all others. */
  lemma StrayEnds(others: seq<Body>, strays: seq<Stray>, m: Body)
    ensures Channel(others, strays + [Stray(|others|, m)]) == Channel(others, strays) + [m]
  {
    var more := strays + [Stray(|others|, m)];
    assert more[..|strays|] == strays && others[..|others|] == others && others[|others|..] == [];
  }

  /** The channel up to the first stray, and what comes next. */
  lemma {:induction false} ChannelHead(others: seq<Body>, strays: seq<Stray>, taken: nat)
    requires taken <= |others| && Placed(strays, taken, |others|)
    ensures
      var channel := Channel(others, strays);
      && |channel| == |others| + |strays| && channel[..taken] == others[..taken]
      && (strays != [] && strays[0].place == taken ==> channel[taken] == strays[0].message)
      && ((strays == [] || strays[0].place > taken) && taken < |others| ==> channel[taken] == others[taken])
    decreases |strays|
  {
    if strays != [] {
      var front, last := strays[..|strays| - 1], strays[|strays| - 1];
      var at := last.place;
      ChannelHead(others[..at], front, taken);
      assert others[..at][..taken] == others[..taken];
      if front == [] {
        assert Channel(others[..at], front) == others[..at];
      }
    }
  }

  lemma {:induction false} InChannel(others: seq<Body>, strays: seq<Stray>, m: Body)
    ensures m in Channel(others, strays)
       <==> m in others || exists i :: 0 <= i < |strays| && strays[i].message == m
    decreases |strays|
  {
    if strays != [] {
      var front, last := strays[..|strays| - 1], strays[|strays| - 1];
      var at := if last.place <= |others| then last.place else |others|;
      InChannel(others[..at], front, m);
      assert others == others[..at] + others[at..];
      assert m in Channel(others, strays) <==> m in Channel(others[..at], front) || m == last.message || m in others[at..];
      if exists i :: 0 <= i < |strays| && strays[i].message == m {
        var i :| 0 <= i < |strays| && strays[i].message == m;
        assert i < |front| ==> front[i].message == m;
      }
    }
  }
}
