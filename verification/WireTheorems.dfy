// What holds in every run on the wire, as long as the application asks for no more than 91 bytes of
// data at a time, and for no pipe whose name is longer than 103 bytes; and what happens otherwise.

module WireTheorems {
  import opened Bytes
  import opened Names
  import opened Bodies
  import opened SkippedPrefix
  import opened Transport
  import opened PortTable
  import opened Controllers
  import opened Handshake
  import opened HandshakeInvariant
  import opened HandshakeInvitee
  import opened HandshakeInviter
  import opened HandshakeLaunch
  import opened HandshakeHear
  import opened HandshakeTheorems
  import opened HandshakeForever
  import opened HandshakeConservation
  import opened HandshakeGrowth
  import opened Streams
  import opened HandshakeWire
  import opened WireInvariant
  import opened WireSteps

  predicate BriefSteps(steps: seq<WireStep>) {
    forall i :: 0 <= i < |steps| ==> BriefWire(steps[i])
  }

  /** Reached by a run in which the application was brief, and no process has crashed. */
  ghost predicate BriefReachable(a: Name, w: Wire) {
    !w.s.crashed && exists steps :: BriefSteps(steps) && WireRun(a, steps) == Some(w)
  }

  /** A stray is what is heard next. */
  predicate HearsStray(w: Wire, step: WireStep) {
    match step
    case HearUp(k) => k in w.s.conns && StrayUpNext(w, k)
    case HearDown(k) => k in w.s.conns && StrayDownNext(w, k)
    case _ => false
  }

  lemma DoKeeps(a: Name, w: Wire, st: Step)
    requires a != NONE && WireInv(a, w) && Typed(w.s) && WireEnabled(w, Do(st)) && Brief(st)
    ensures WireInv(a, w.(s := Apply(w.s, st))) && !Apply(w.s, st).crashed
  {
    DrawnApart(w.s, st);
    hide WireInv, Typed, Enabled, Apply, Brief, DrawsUnused, DrawsApart;
    StepMoves(a, w, st);
  }

  lemma DrawnApart(s: System, st: Step)
    requires DrawsUnused(s, st)
    ensures DrawsApart(s, st)
  {
  }

  lemma ForwardKeeps(a: Name, w: Wire, i: nat)
    requires a != NONE && WireInv(a, w) && Typed(w.s) && !w.s.crashed && i in w.writers
    requires HasHandle(w.s, w.writers[i].side, w.writers[i].port)
    ensures WireInv(a, ForwardStep(w, i)) && !ForwardStep(w, i).s.crashed
  {
    hide WireInv, Typed, HasHandle, Whole, ForwardStep;
    if Whole(w, w.writers[i]) {
      WholeKeeps(a, w, i);
    } else {
      TornKeeps(a, w, i);
    }
  }

  /** A step crashes exactly when it hears a stray, and otherwise keeps what holds. */
  lemma WireStepExactly(a: Name, w: Wire, step: WireStep)
    requires a != NONE && WireInv(a, w) && Typed(w.s) && WireEnabled(w, step) && BriefWire(step)
    ensures
      var v := WireApply(w, step);
      if HearsStray(w, step) then v.s == Crashed(w.s) else WireInv(a, v) && !v.s.crashed
  {
    hide WireInv, Typed, Enabled, Apply, HasHandle, StrayUpNext, StrayDownNext, HearAt, DrawsUnused, Brief;
    hide ForwardStep, ReadPortStep, HearUpStep, HearDownStep, UpChannel, DownChannel;
    match step
    case Do(st) => DoKeeps(a, w, st);
    case ReadPort(i, side, p, data) =>
      ReadPortKeeps(a, w, i, side, p, data);
      ReadPortSame(w, i, side, p, data);
    case Forward(i) => ForwardKeeps(a, w, i);
    case HearUp(k) =>
      if StrayUpNext(w, k) {
        StrayUpCrashes(a, w, k);
      } else {
        HearUpKeeps(a, w, k);
      }
    case HearDown(k) =>
      if StrayDownNext(w, k) {
        StrayDownCrashes(a, w, k);
      } else {
        HearDownKeeps(a, w, k);
      }
  }

  lemma ReadPortSame(w: Wire, i: nat, side: Option<Socket>, p: Name, data: Text)
    requires HasHandle(w.s, side, p)
    ensures ReadPortStep(w, i, side, p, data).s == w.s
  {
    hide HasHandle;
  }

  lemma {:induction false} BriefRunHolds(a: Name, steps: seq<WireStep>)
    requires a != NONE && BriefSteps(steps) && WireRun(a, steps).Some?
    ensures WireRun(a, steps).value.s.crashed || WireInv(a, WireRun(a, steps).value)
  {
    hide WireInv, Typed, WireEnabled, WireApply, BriefWire, HearsStray;
    if steps == [] {
      StartHolds(a);
    } else {
      var before, step := WireRun(a, steps[..|steps| - 1]), steps[|steps| - 1];
      BriefRunHolds(a, steps[..|steps| - 1]);
      CrashedStops(before.value, step);
      WireStepExactly(a, before.value, step);
      CrashedIs(before.value.s);
    }
  }

  lemma CrashedStops(w: Wire, step: WireStep)
    requires Typed(w.s) && WireEnabled(w, step)
    ensures !w.s.crashed
  {
    hide Typed;
  }

  lemma CrashedIs(s: System)
    ensures Crashed(s).crashed
  {
  }

  lemma BriefHolds(a: Name, w: Wire)
    requires a != NONE && BriefReachable(a, w)
    ensures WireInv(a, w)
  {
    hide WireInv, WireRun;
    var steps :| BriefSteps(steps) && WireRun(a, steps) == Some(w);
    BriefRunHolds(a, steps);
  }

  /** In a run of a brief application a process crashes exactly when it hears a stray. */
  lemma CrashesExactly(a: Name, steps: seq<WireStep>)
    requires a != NONE && BriefSteps(steps) && steps != [] && WireRun(a, steps).Some?
    ensures WireRun(a, steps[..|steps| - 1]).Some?
    ensures WireRun(a, steps).value.s.crashed
       <==> HearsStray(WireRun(a, steps[..|steps| - 1]).value, steps[|steps| - 1])
  {
    hide WireInv, Typed, WireEnabled, WireApply, BriefWire, HearsStray;
    assert WireRun(a, steps) == LastWireStep(a, steps);
    var before, step := WireRun(a, steps[..|steps| - 1]), steps[|steps| - 1];
    BriefRunHolds(a, steps[..|steps| - 1]);
    CrashedStops(before.value, step);
    WireStepExactly(a, before.value, step);
    CrashedIs(before.value.s);
  }

  /** Strays apart, a run on the wire is one of the message machine. */
  lemma WireRefines(a: Name, w: Wire)
    requires a != NONE && BriefReachable(a, w)
    ensures Reachable(a, w.s)
  {
    hide BriefReachable, Reachable, ShortSystem, ProcessesApart, ChannelsOk, WriterOk;
    BriefHolds(a, w);
  }

  /** No peer is dropped, and at every node the reverse index agrees with the port table. */
  lemma TablesAgree(a: Name, w: Wire)
    requires a != NONE && BriefReachable(a, w)
    ensures !w.s.dropped && IndexAgrees(w.s.inviter.node) && LocalPairs(w.s.inviter.node)
    ensures forall k :: k in w.s.conns ==> IndexAgrees(w.s.conns[k].ctrl.node) && LocalPairs(w.s.conns[k].ctrl.node)
  {
    hide BriefReachable, Reachable, IndexAgrees, LocalPairs;
    WireRefines(a, w);
    NothingCrashes(a, w.s);
  }

  // ------------------------------------------------------------------ sizes

  lemma ChannelsOf(a: Name, w: Wire, k: Socket)
    requires WireInv(a, w) && k in w.s.conns
    ensures ChannelsOk(w, k) && ShortAll(UpChannel(w, k)) && ShortAll(DownChannel(w, k))
  {
    hide Reachable, ProcessesApart, WriterOk, ShortAll, ShortStrays, Channel, Up, Down, ShortSystem;
    assert ChannelsOk(w, k);
    hide ChannelsOk;
    SystemShort(w.s, k);
    StraysShort(w, k);
    ShortChannel(Up(w.s.conns[k], k), StraysOf(w.strayUp, k));
    ShortChannel(Down(w.s, k), StraysOf(w.strayDown, k));
  }

  /** Every message ever sent is encoded in less than 128 bytes. */
  lemma EverythingShort(a: Name, w: Wire, k: Socket, m: Body)
    requires a != NONE && BriefReachable(a, w) && k in w.s.conns
    requires m in UpChannel(w, k) || m in DownChannel(w, k)
    ensures |EncodeBody(m)| < 0x80
  {
    hide BriefReachable, UpChannel, DownChannel, EncodeBody, WireInv, ChannelsOk, Short;
    BriefHolds(a, w);
    ChannelsOf(a, w, k);
    ShortArrives(m);
  }

  /** A message that was not decoded ends the process that reads it. */
  lemma BrokenCrashes(w: Wire, k: Socket)
    requires Typed(w.s) && k in w.s.conns
    ensures k in w.s.inviter.remote && HearAt(UpChannel(w, k), Position(w.readUp, k)).Broken? ==>
              HearUpStep(w, k).s.crashed
    ensures HearAt(DownChannel(w, k), Position(w.readDown, k)).Broken? ==> HearDownStep(w, k).s.crashed
  {
    hide Typed, HearAt, UpChannel, DownChannel;
  }

  // ------------------------------------------------------------------ strays

  predicate IsStray(strays: seq<Stray>, m: Body) {
    exists i :: 0 <= i < |strays| && strays[i].message == m
  }

  /** The message went to the end of a channel, as a stray, and nothing else has happened. */
  predicate LeavesStray(w: Wire, v: Wire, x: Writer) {
    var m := HandshakeWire.Message(x);
    && v.s == w.s
    && match x.side
       case None =>
         && x.to in w.s.holder && w.s.holder[x.to].Merged? && w.s.holder[x.to].k in w.s.conns
         && var k := w.s.holder[x.to].k;
         DownChannel(v, k) == DownChannel(w, k) + [m] && IsStray(StraysOf(v.strayDown, k), m) && v.strayUp == w.strayUp
       case Some(k) =>
         && k in w.s.conns
         && UpChannel(v, k) == UpChannel(w, k) + [m] && IsStray(StraysOf(v.strayUp, k), m) && v.strayDown == w.strayDown
  }

  /** A write leaves a stray exactly when its port was spliced between its two reads; else it is a write
      of the message machine. */
  lemma ForwardExactly(a: Name, w: Wire, i: nat)
    requires a != NONE && BriefReachable(a, w) && Typed(w.s) && WireEnabled(w, Forward(i))
    ensures
      var x, v := w.writers[i], WireApply(w, Forward(i));
      if SplicedSince(w.s, x) then LeavesStray(w, v, x)
      else v.s == WriteWhole(w.s, x) && v.strayUp == w.strayUp && v.strayDown == w.strayDown
  {
    hide BriefReachable, Typed, WriteWhole, ForwardStep, WriterOk, ProcessesApart, SplicedSince, HasHandle, Whole, Inv;
    hide LeavesStray;
    BriefHolds(a, w);
    WireRefines(a, w);
    ReachableHolds(a, w.s);
    WriterOf(a, w, i);
    ProcessesOf(a, w);
    hide WireInv;
    TornExactly(w, w.writers[i]);
    if Whole(w, w.writers[i]) {
      WholeShape(w, i);
    } else {
      TornLeaves(w, i);
    }
  }

  lemma TornLeaves(w: Wire, i: nat)
    requires Inv(w.s) && Typed(w.s) && i in w.writers && WriterOk(w.s, w.writers[i])
    requires HasHandle(w.s, w.writers[i].side, w.writers[i].port) && !Whole(w, w.writers[i])
    ensures LeavesStray(w, ForwardStep(w, i), w.writers[i])
  {
    hide Inv, Typed, WriterOk, HasHandle, Whole, ForwardStep, StrayUpOk, StrayDownOk, UpChannel, DownChannel, IsStray;
    TornSends(w, i);
    var x, rest := w.writers[i], w.(writers := w.writers - {i});
    if x.side.None? {
      DownEnds(w, rest, w.s.holder[x.to].k, HandshakeWire.Message(x));
    } else {
      UpEnds(w, rest, x.side.value, HandshakeWire.Message(x));
    }
  }

  lemma ProcessesOf(a: Name, w: Wire)
    requires WireInv(a, w)
    ensures ProcessesApart(w.s)
  {
    hide Reachable, ShortSystem, ProcessesApart, ChannelsOk, WriterOk;
  }

  lemma DownEnds(w: Wire, rest: Wire, k: Socket, m: Body)
    requires rest.s == w.s && rest.strayDown == w.strayDown
    ensures DownChannel(SendsDown(rest, k, m), k) == DownChannel(w, k) + [m]
    ensures IsStray(StraysOf(SendsDown(rest, k, m).strayDown, k), m)
  {
    hide Channel;
    var strays := StraysOf(w.strayDown, k);
    StrayEnds(Down(w.s, k), strays, m);
    assert (strays + [Stray(|Down(w.s, k)|, m)])[|strays|].message == m;
  }

  lemma UpEnds(w: Wire, rest: Wire, k: Socket, m: Body)
    requires k in w.s.conns && rest.s == w.s && rest.strayUp == w.strayUp
    ensures UpChannel(SendsUp(rest, k, m), k) == UpChannel(w, k) + [m]
    ensures IsStray(StraysOf(SendsUp(rest, k, m).strayUp, k), m)
  {
    hide Channel;
    var strays := StraysOf(w.strayUp, k);
    StrayEnds(Up(w.s.conns[k], k), strays, m);
    assert (strays + [Stray(|Up(w.s.conns[k], k)|, m)])[|strays|].message == m;
  }

  /** A user message names a port in the table of the node it goes to exactly when it is no stray. */
  lemma FindsPortExactly(a: Name, w: Wire, k: Socket, m: Body)
    requires a != NONE && BriefReachable(a, w) && k in w.s.conns && m.UserMessage?
    ensures m in DownChannel(w, k) ==>
              (m.to in w.s.conns[k].ctrl.node.live <==> !IsStray(StraysOf(w.strayDown, k), m))
    ensures m in UpChannel(w, k) ==>
              (m.to in w.s.inviter.node.live <==> !IsStray(StraysOf(w.strayUp, k), m))
  {
    hide BriefReachable, Reachable, Down, Up, Channel, ShortSystem, ProcessesApart, WriterOk, Inv;
    BriefHolds(a, w);
    WireRefines(a, w);
    assert ChannelsOk(w, k);
    InChannel(Down(w.s, k), StraysOf(w.strayDown, k), m);
    InChannel(Up(w.s.conns[k], k), StraysOf(w.strayUp, k), m);
    MessagesFindPorts(a, w.s, k, m);
    ReachableTyped(a, w.s);
    hide Typed, ChannelOk;
    if IsStray(StraysOf(w.strayDown, k), m) {
      assert StrayDownOk(w.s, k, m);
      hide StrayDownOk, StrayUpOk, WireInv;
      StrayUnknown(a, w, k, m);
    }
    if IsStray(StraysOf(w.strayUp, k), m) {
      assert StrayUpOk(w.s.conns[k].track, m);
      hide StrayDownOk, StrayUpOk, WireInv;
      MateUnknown(a, w, k, m);
    }
  }

  lemma ReachableTyped(a: Name, s: System)
    requires a != NONE && Reachable(a, s)
    ensures Typed(s)
  {
    hide Reachable, Typed, InviterFacts, NamesApart, KeysUsed, InviterPorts, Reservations, InviterTallies, Connections;
    ReachableHolds(a, s);
  }

  // ------------------------------------------------------------------ requests

  predicate AllUsers(strays: seq<Stray>) {
    forall i :: 0 <= i < |strays| ==> strays[i].message.UserMessage?
  }

  /** Strays are neither requests nor responses. */
  lemma {:induction false} UnreadSame(others: seq<Body>, strays: seq<Stray>, taken: nat)
    requires taken <= |others| && Placed(strays, taken, |others|) && AllUsers(strays)
    ensures
      var channel := Channel(others, strays);
      && taken <= |channel| && Requests(channel[taken..]) == Requests(others[taken..])
      && Answers(channel[taken..]) == Answers(others[taken..])
    decreases |strays|
  {
    hide Requests, Answers;
    ChannelHead(others, strays, taken);
    if strays != [] {
      var front, last := strays[..|strays| - 1], strays[|strays| - 1];
      var at := last.place;
      var channel := Channel(others, strays);
      assert others[..at][..taken] == others[..taken];
      UnreadSame(others[..at], front, taken);
      ChannelHead(others[..at], front, taken);
      var head := Channel(others[..at], front)[taken..];
      assert channel[taken..] == head + [last.message] + others[at..];
      assert others[taken..] == others[..at][taken..] + others[at..];
      Appended(head, last.message, others[at..]);
      Joins(others[..at][taken..], others[at..]);
    }
  }

  lemma Appended(head: seq<Body>, m: Body, tail: seq<Body>)
    requires m.UserMessage?
    ensures Requests(head + [m] + tail) == Requests(head) + Requests(tail)
    ensures Answers(head + [m] + tail) == Answers(head) + Answers(tail)
  {
    Joins(head + [m], tail);
    RequestsAppend(head, m);
    AnswersAppend(head, m);
    assert RequestIn(m) == multiset{} && AnswerIn(m) == multiset{};
    hide Requests, Answers;
  }

  lemma Joins(head: seq<Body>, tail: seq<Body>)
    ensures Requests(head + tail) == Requests(head) + Requests(tail)
    ensures Answers(head + tail) == Answers(head) + Answers(tail)
  {
    RequestsJoin(head, tail);
    AnswersJoin(head, tail);
  }

  lemma {:induction false} RequestsJoin(head: seq<Body>, tail: seq<Body>)
    ensures Requests(head + tail) == Requests(head) + Requests(tail)
  {
    hide RequestIn;
    if head == [] {
      assert head + tail == tail;
    } else {
      RequestsJoin(head[1..], tail);
      assert (head + tail)[1..] == head[1..] + tail;
    }
  }

  lemma {:induction false} AnswersJoin(head: seq<Body>, tail: seq<Body>)
    ensures Answers(head + tail) == Answers(head) + Answers(tail)
  {
    hide AnswerIn;
    if head == [] {
      assert head + tail == tail;
    } else {
      AnswersJoin(head[1..], tail);
      assert (head + tail)[1..] == head[1..] + tail;
    }
  }

  lemma StraysAreUsers(w: Wire, k: Socket)
    requires k in w.s.conns && ChannelsOk(w, k)
    ensures AllUsers(StraysOf(w.strayUp, k)) && AllUsers(StraysOf(w.strayDown, k))
  {
    hide ChannelOk;
    forall i | 0 <= i < |StraysOf(w.strayUp, k)|
      ensures StraysOf(w.strayUp, k)[i].message.UserMessage?
    {
      assert StrayUpOk(w.s.conns[k].track, StraysOf(w.strayUp, k)[i].message);
    }
    forall i | 0 <= i < |StraysOf(w.strayDown, k)|
      ensures StraysOf(w.strayDown, k)[i].message.UserMessage?
    {
      assert StrayDownOk(w.s, k, StraysOf(w.strayDown, k)[i].message);
    }
  }

  /** The request for every extracted port is in exactly one place, and there at most once; and what the
      channels hold of requests and responses that were not read is what the place says. */
  lemma WireRequestInOnePlace(a: Name, w: Wire, k: Socket, p: Name, place: RequestPlace)
    requires a != NONE && BriefReachable(a, w) && k in w.s.conns && p in w.s.conns[k].track
    ensures w.s.conns[k].takenUp <= |Up(w.s.conns[k], k)| && w.s.conns[k].takenDown <= |Down(w.s, k)|
    ensures RequestAt(w.s, k, p, place) <==> place == PlaceOf(w.s.conns[k].track[p].state)
    ensures
      var c := w.s.conns[k];
      var m := Merge(c.track[p].pipe, p);
      && multiset(c.ctrl.pendingMerges)[m] <= 1 && multiset(Draining(c.io))[m] <= 1
      && c.takenUp <= |UpChannel(w, k)| && c.takenDown <= |DownChannel(w, k)|
      && Requests(UpChannel(w, k)[c.takenUp..])[m] <= 1
      && Requests(UpChannel(w, k)[c.takenUp..]) == Requests(Up(c, k)[c.takenUp..])
      && Answers(DownChannel(w, k)[c.takenDown..]) == Answers(Down(w.s, k)[c.takenDown..])
  {
    hide BriefReachable, Reachable, WireInv, ShortAll, Requests, Answers, Up, Down, Channel, RequestAt, Draining;
    BriefHolds(a, w);
    WireRefines(a, w);
    RequestInOnePlace(a, w.s, k, p, place);
    ChannelsOf(a, w, k);
    StraysAreUsers(w, k);
    hide StraysUpOk, StraysDownOk, Placed;
    var c := w.s.conns[k];
    UnreadSame(Up(c, k), StraysOf(w.strayUp, k), c.takenUp);
    UnreadSame(Down(w.s, k), StraysOf(w.strayDown, k), c.takenDown);
  }

  // ------------------------------------------------------------------ user messages

  /** The strays sent at a port. */
  function StraysFrom(strays: seq<Stray>, p: Name): multiset<Body> {
    if strays == [] then multiset{}
    else StraysFrom(strays[..|strays| - 1], p) + UserIfFrom(strays[|strays| - 1].message, p)
  }

  lemma UsersJoin(head: seq<Body>, tail: seq<Body>, p: Name)
    ensures UsersFrom(head + tail, p) == UsersFrom(head, p) + UsersFrom(tail, p)
    ensures UsersTo(head + tail, p) == UsersTo(head, p) + UsersTo(tail, p)
  {
    FromJoin(head, tail, p);
    ToJoin(head, tail, p);
  }

  lemma {:induction false} FromJoin(head: seq<Body>, tail: seq<Body>, p: Name)
    ensures UsersFrom(head + tail, p) == UsersFrom(head, p) + UsersFrom(tail, p)
  {
    hide UserIfFrom;
    if tail == [] {
      assert head + tail == head;
    } else {
      var most := tail[..|tail| - 1];
      FromJoin(head, most, p);
      assert (head + tail)[..|head + tail| - 1] == head + most;
    }
  }

  lemma {:induction false} ToJoin(head: seq<Body>, tail: seq<Body>, p: Name)
    ensures UsersTo(head + tail, p) == UsersTo(head, p) + UsersTo(tail, p)
  {
    hide UserIfTo;
    if tail == [] {
      assert head + tail == head;
    } else {
      var most := tail[..|tail| - 1];
      ToJoin(head, most, p);
      assert (head + tail)[..|head + tail| - 1] == head + most;
    }
  }

  lemma Reorder(a: multiset<Body>, b: multiset<Body>, c: multiset<Body>, d: multiset<Body>)
    ensures (a + c) + b + d == (a + b) + (c + d)
  {
  }

  lemma OneInBetween(head: seq<Body>, m: Body, tail: seq<Body>, p: Name)
    ensures UsersFrom(head + [m] + tail, p) == UsersFrom(head, p) + UsersFrom(tail, p) + UserIfFrom(m, p)
    ensures UsersTo(head + [m] + tail, p) == UsersTo(head, p) + UsersTo(tail, p) + UserIfTo(m, p)
  {
    UsersJoin(head + [m], tail, p);
    UsersAppend(head, m, p);
    hide UsersFrom, UsersTo, UserIfTo, UserIfFrom;
  }

  /** A channel ends with its last stray and what follows it. */
  lemma LastStray(others: seq<Body>, strays: seq<Stray>, p: Name) returns (at: nat)
    requires strays != []
    ensures
      var front, m := strays[..|strays| - 1], strays[|strays| - 1].message;
      && at <= |others| && others == others[..at] + others[at..]
      && Channel(others, strays) == Channel(others[..at], front) + [m] + others[at..]
      && StraysFrom(strays, p) == StraysFrom(front, p) + UserIfFrom(m, p)
  {
    hide UserIfFrom;
    var last := strays[|strays| - 1];
    at := if last.place <= |others| then last.place else |others|;
  }

  /** Everything a port ever sent is among the others or a stray. */
  lemma {:induction false} ChannelFrom(others: seq<Body>, strays: seq<Stray>, p: Name)
    ensures UsersFrom(Channel(others, strays), p) == UsersFrom(others, p) + StraysFrom(strays, p)
    decreases |strays|
  {
    hide UsersFrom, UserIfFrom;
    if strays != [] {
      hide Channel, StraysFrom;
      var front, m := strays[..|strays| - 1], strays[|strays| - 1].message;
      var at := LastStray(others, strays, p);
      var head, tail := others[..at], others[at..];
      ChannelFrom(head, front, p);
      FromJoin(head, tail, p);
      OneInBetween(Channel(head, front), m, tail, p);
      Reorder(UsersFrom(head, p), UsersFrom(tail, p), StraysFrom(front, p), UserIfFrom(m, p));
    }
  }

  predicate NoneTo(strays: seq<Stray>, p: Name) {
    forall i :: 0 <= i < |strays| ==> strays[i].message.UserMessage? && strays[i].message.to != p
  }

  lemma OtherInBetween(head: seq<Body>, m: Body, tail: seq<Body>, p: Name)
    requires m.UserMessage? && m.to != p
    ensures UsersTo(head + [m] + tail, p) == UsersTo(head, p) + UsersTo(tail, p)
  {
    OneInBetween(head, m, tail, p);
    hide UsersTo, UsersFrom, UserIfFrom;
  }

  /** What is on its way to a port is among the others. */
  lemma {:induction false} UnreadTo(others: seq<Body>, strays: seq<Stray>, taken: nat, p: Name)
    requires taken <= |others| && Placed(strays, taken, |others|) && NoneTo(strays, p)
    ensures
      var channel := Channel(others, strays);
      taken <= |channel| && UsersTo(channel[taken..], p) == UsersTo(others[taken..], p)
    decreases |strays|
  {
    hide UsersTo;
    ChannelHead(others, strays, taken);
    if strays != [] {
      var front, last := strays[..|strays| - 1], strays[|strays| - 1];
      var at := last.place;
      var channel := Channel(others, strays);
      assert others[..at][..taken] == others[..taken];
      UnreadTo(others[..at], front, taken, p);
      ChannelHead(others[..at], front, taken);
      var head := Channel(others[..at], front)[taken..];
      assert channel[taken..] == head + [last.message] + others[at..];
      assert others[taken..] == others[..at][taken..] + others[at..];
      OtherInBetween(head, last.message, others[at..], p);
      ToJoin(others[..at][taken..], others[at..], p);
    }
  }

  lemma NoneToEnds(a: Name, w: Wire, k: Socket, p: Name)
    requires a != NONE && WireInv(a, w) && k in w.s.conns && p in w.s.conns[k].track
    requires MergedAtInviter(w.s.conns[k].track[p].state)
    ensures NoneTo(StraysOf(w.strayDown, k), p)
    ensures NoneTo(StraysOf(w.strayUp, k), w.s.conns[k].track[p].state.local)
  {
    hide Reachable, ShortSystem, WriterOk, Inv, ChannelOk;
    ReachableHolds(a, w.s);
    assert ChannelsOk(w, k);
    TrackFaces(w.s, k, p);
    MergedBridge(w.s, k, p);
    EndFaces(w.s, w.s.conns[k].track[p].state.bridge);
    var l := w.s.conns[k].track[p].state.local;
    forall i | 0 <= i < |StraysOf(w.strayDown, k)|
      ensures StraysOf(w.strayDown, k)[i].message.UserMessage? && StraysOf(w.strayDown, k)[i].message.to != p
    {
      var m := StraysOf(w.strayDown, k)[i].message;
      assert StrayDownOk(w.s, k, m);
      EndFaces(w.s, m.to);
    }
    forall i | 0 <= i < |StraysOf(w.strayUp, k)|
      ensures StraysOf(w.strayUp, k)[i].message.UserMessage? && StraysOf(w.strayUp, k)[i].message.to != l
    {
      var m := StraysOf(w.strayUp, k)[i].message;
      assert StrayUpOk(w.s.conns[k].track, m);
      TrackFaces(w.s, k, m.from);
    }
  }

  /** What an end of a merged pipe has written onto the others' part of its channel. */
  lemma WrittenIs(a: Name, s: System, k: Socket, p: Name)
    requires a != NONE && Reachable(a, s) && k in s.conns && p in s.conns[k].track
    requires MergedAtInviter(s.conns[k].track[p].state)
    ensures Count(s.conns[k].written, p) == UsersFrom(Up(s.conns[k], k), p)
    ensures
      var l := s.conns[k].track[p].state.local;
      Count(s.written, l) == UsersFrom(Down(s, k), l)
  {
    hide Reachable, Inv, ConnInv, ViewOf, Connections, InviterFacts, InviterTallies, InviterPorts, Bones, Down;
    hide UsersFrom;
    hide UsersTo, Sent, Count, HeardFrom;
    ReachableHolds(a, s);
    InvConnections(s);
    Connection(s, k);
    TallyOfConn(ViewOf(s, k), s.conns[k], p);
    MergedBridge(s, k, p);
    TallyOf(s, s.conns[k].track[p].state.bridge, k, p);
  }

  /** End to end on the wire: everything an end of a merged pipe ever sent is on its way to the other
      end, queued there, read there, or a stray. Nothing is lost or doubled. */
  lemma WireMessagesConserved(a: Name, w: Wire, k: Socket, p: Name)
    requires a != NONE && BriefReachable(a, w) && k in w.s.conns && p in w.s.conns[k].track
    requires MergedAtInviter(w.s.conns[k].track[p].state)
    ensures
      var c, l := w.s.conns[k], w.s.conns[k].track[p].state.local;
      && c.takenUp <= |UpChannel(w, k)| && c.takenDown <= |DownChannel(w, k)|
      && UsersFrom(UpChannel(w, k), p)
         == UsersTo(UpChannel(w, k)[c.takenUp..], l) + Queued(w.s.inviter.node, l) + Count(w.s.read, l)
            + StraysFrom(StraysOf(w.strayUp, k), p)
      && UsersFrom(DownChannel(w, k), l)
         == UsersTo(DownChannel(w, k)[c.takenDown..], p) + Queued(c.ctrl.node, p) + Count(c.read, p)
            + StraysFrom(StraysOf(w.strayDown, k), l)
  {
    hide BriefReachable, Reachable, WireInv, ShortAll, Up, Down, Channel, UsersFrom, UsersTo, StraysFrom, Queued, Count;
    hide NoneTo;
    BriefHolds(a, w);
    WireRefines(a, w);
    MessagesConserved(a, w.s, k, p);
    WrittenIs(a, w.s, k, p);
    NoneToEnds(a, w, k, p);
    ChannelsOf(a, w, k);
    hide StraysUpOk, StraysDownOk, Placed;
    var c, l := w.s.conns[k], w.s.conns[k].track[p].state.local;
    ChannelFrom(Up(c, k), StraysOf(w.strayUp, k), p);
    ChannelFrom(Down(w.s, k), StraysOf(w.strayDown, k), l);
    UnreadTo(Up(c, k), StraysOf(w.strayUp, k), c.takenUp, l);
    UnreadTo(Down(w.s, k), StraysOf(w.strayDown, k), c.takenDown, p);
  }
}
