// What an application that is not brief meets: from 92 bytes of data on, and from 104 bytes of a
// pipe's name, the process that reads the message ends.

module WireFailures {
  import opened Bytes
  import opened Names
  import opened Bodies
  import opened SkippedPrefix
  import opened Transport
  import opened PortTable
  import opened Controllers
  import opened Handshake
  import opened HandshakeInvariant
  import opened HandshakeInvitee
  import opened HandshakeMessages
  import opened HandshakeInviteeSteps
  import opened HandshakeInviter
  import opened HandshakeInvitation
  import opened HandshakeLaunch
  import opened HandshakeHear
  import opened HandshakeMerge
  import opened HandshakeAnswer
  import opened HandshakeTheorems
  import opened HandshakeForever
  import opened HandshakeConservation
  import opened HandshakeGrowth
  import opened Streams
  import opened HandshakeWire
  import opened WireInvariant
  import opened WireSteps
  import opened WireTheorems

  lemma UserSize(from: Name, to: Name, data: Text)
    ensures |EncodeBody(UserMessage(from, to, data))| == 36 + |data|
  {
    EncodedParts(UserMessage(from, to, data));
  }

  /** Whoever comes to a message of 128 encoded bytes or more, a request too, ends there. */
  lemma LongIsFatal(w: Wire, k: Socket, i: nat)
    requires Typed(w.s) && !w.s.crashed && k in w.s.conns
    ensures
      var up := UpChannel(w, k);
      w.s.io.AtRest? && k in w.s.inviter.remote && i < |up| && Position(w.readUp, k) == |Stream(up[..i])|
      && 0x80 <= |EncodeBody(up[i])| < 0x1_0000
      ==> WireEnabled(w, HearUp(k)) && WireApply(w, HearUp(k)).s.crashed
    ensures
      var down := DownChannel(w, k);
      w.s.conns[k].io.Resting? && i < |down| && Position(w.readDown, k) == |Stream(down[..i])|
      && 0x80 <= |EncodeBody(down[i])| < 0x1_0000
      ==> WireEnabled(w, HearDown(k)) && WireApply(w, HearDown(k)).s.crashed
  {
    hide Typed, HearAt, UpChannel, DownChannel, EncodeBody, Stream;
    var up, down := UpChannel(w, k), DownChannel(w, k);
    if i < |up| && 0x80 <= |EncodeBody(up[i])| < 0x1_0000 {
      LongBreaks(up, i);
    }
    if i < |down| && 0x80 <= |EncodeBody(down[i])| < 0x1_0000 {
      LongBreaks(down, i);
    }
    BrokenCrashes(w, k);
    hide HearUpStep, HearDownStep;
  }

  /** Nothing is left to read for the invitee. */
  predicate CaughtUp(w: Wire, k: Socket) {
    k in w.s.conns && w.s.conns[k].io.Resting? && HearAt(DownChannel(w, k), Position(w.readDown, k)).Silent?
  }

  /** A write at the merged end of a pipe by the inviter's application. */
  lemma WriteSends(a: Name, s: System, k: Socket, p: Name, data: Text)
    requires a != NONE && Reachable(a, s) && Typed(s) && k in s.conns && p in s.conns[k].track
    requires MergedAtInviter(s.conns[k].track[p].state)
    ensures
      var l := s.conns[k].track[p].state.local;
      && HasHandle(s, None, l) && s.inviter.node.ports[l].peerPort == p
      && k in s.inviter.out
      && WriteAtInviter(s, l, data) == WrittenSystem(s, k, UserMessage(l, p, data))
  {
    hide Reachable, Inv, Typed, TypedConn, WellFormedController, WriteAtInviter, WrittenSystem;
    ReachableHolds(a, s);
    MergedBridge(s, k, p);
    var r, l := s.conns[k].track[p].state.bridge, s.conns[k].track[p].state.local;
    EndFaces(s, r);
    MergedEnd(s, r);
    assert s.ends[r] in s.ends.Values;
    TypedInviter(s);
    PeerHasChannel(s.inviter, NameOf(s.conns[k]));
    WriteShape(s, l, data, k);
  }

  lemma TypedInviter(s: System)
    requires Typed(s)
    ensures WellFormedController(s.inviter)
  {
  }

  /** The three steps in which a long message is written at port `l` and read by invitee `k`. */
  function WriteAndHear(i: nat, l: Name, data: Text, k: Socket): seq<WireStep> {
    [ReadPort(i, None, l, data), Forward(i), HearDown(k)]
  }

  lemma WrittenWire(w: Wire, i: nat, k: Socket, l: Name, p: Name, data: Text)
    requires Typed(w.s) && !w.s.crashed && i !in w.writers && HasHandle(w.s, None, l)
    requires w.s.inviter.node.ports[l].peerPort == p && k in w.s.inviter.out
    requires WriteAtInviter(w.s, l, data) == WrittenSystem(w.s, k, UserMessage(l, p, data))
    ensures WireEnabled(w, ReadPort(i, None, l, data))
    ensures
      var v := WireApply(w, ReadPort(i, None, l, data));
      && Typed(v.s) && WireEnabled(v, Forward(i))
      && WireApply(v, Forward(i)) == w.(s := WrittenSystem(w.s, k, UserMessage(l, p, data)))
  {
    hide Typed, WellFormedController, WriteAtInviter, WrittenSystem;
    assert w.writers[i := Writer(None, l, p, data, w.s.inviter.node.ports[l].peerNode)] - {i} == w.writers;
  }

  lemma RunOn(a: Name, steps: seq<WireStep>, w: Wire, step: WireStep)
    requires WireRun(a, steps) == Some(w) && Typed(w.s) && WireEnabled(w, step)
    ensures WireRun(a, steps + [step]) == Some(WireApply(w, step))
  {
    hide Typed, WireEnabled, WireApply;
    var more := steps + [step];
    assert more[..|more| - 1] == steps && more[|more| - 1] == step;
    assert WireRun(a, more) == LastWireStep(a, more);
  }

  /** One step that hears no stray. */
  lemma StepOn(a: Name, steps: seq<WireStep>, w: Wire, step: WireStep)
    requires a != NONE && WireRun(a, steps) == Some(w) && WireInv(a, w) && Typed(w.s) && WireEnabled(w, step)
    requires BriefWire(step) && !HearsStray(w, step)
    ensures WireRun(a, steps + [step]) == Some(WireApply(w, step))
    ensures WireInv(a, WireApply(w, step)) && !WireApply(w, step).s.crashed
  {
    hide WireInv, Typed, WireEnabled, WireApply, BriefWire, HearsStray, WireRun;
    WireStepExactly(a, w, step);
    RunOn(a, steps, w, step);
  }

  lemma NoStrayHeard(w: Wire, step: WireStep)
    requires !step.HearUp? && !step.HearDown?
    ensures !HearsStray(w, step)
  {
  }

  lemma CaughtUpFacts(a: Name, w: Wire, k: Socket)
    requires WireInv(a, w) && CaughtUp(w, k)
    ensures w.s.conns[k].takenDown == |Down(w.s, k)| && StraysOf(w.strayDown, k) == []
    ensures ChannelOk(Down(w.s, k), [], |Down(w.s, k)|, Position(w.readDown, k)) && ShortAll(Down(w.s, k))
  {
    hide Reachable, ProcessesApart, WriterOk, ShortAll, ShortStrays, ShortSystem, ChannelOk, HearAt, Channel, Down;
    assert ChannelsOk(w, k);
    SystemShort(w.s, k);
    StraysShort(w, k);
    SomethingHeard(Down(w.s, k), StraysOf(w.strayDown, k), w.s.conns[k].takenDown, Position(w.readDown, k));
  }

  /** The invitee hears the message that was written, or nothing it can decode. */
  lemma WrittenIsHeard(a: Name, w: Wire, k: Socket, m: Body)
    requires WireInv(a, w) && CaughtUp(w, k) && k in w.s.inviter.out && m.UserMessage?
    requires |EncodeBody(m)| < 0x1_0000
    ensures
      var heard := HearAt(DownChannel(w.(s := WrittenSystem(w.s, k, m)), k), Position(w.readDown, k));
      if |EncodeBody(m)| < 0x80 then heard.Message? && heard.body == m else heard.Broken?
  {
    hide WireInv, CaughtUp, HearAt, Stream, EncodeBody, ShortAll;
    CaughtUpFacts(a, w, k);
    var others := Down(w.s, k);
    var more := others + [m];
    assert more[..|others|] == others == others[..|others|];
    var v := w.(s := WrittenSystem(w.s, k, m));
    assert Down(v.s, k) == more;
    assert DownChannel(v, k) == more;
    if |EncodeBody(m)| < 0x80 {
      HeardExactly(more, |others|);
    } else {
      LongBreaks(more, |others|);
    }
  }

  lemma QueuesIt(c: Conn, k: Socket, down: seq<Body>, m: Body)
    requires TypedConn(c.ctrl, k) && c.takenDown < |down| && down[c.takenDown] == m && m.UserMessage?
    requires m.to in c.ctrl.node.live
    ensures m.to in c.ctrl.node.ports
    ensures
      var r := HearAtInvitee(c, k, down);
      && r.Done? && m.to in r.value.ctrl.node.ports
      && r.value.ctrl.node.ports[m.to].queue == c.ctrl.node.ports[m.to].queue + [m]
  {
    LiveKnown(c.ctrl);
    hide WellFormedController;
  }

  /** What comes of reading it: the message is the last in the port's queue, or the process ends. */
  lemma ReadsWritten(w: Wire, k: Socket, m: Body)
    requires Typed(w.s) && k in w.s.conns && m.UserMessage? && m.to in w.s.conns[k].ctrl.node.live
    requires m.to in w.s.conns[k].ctrl.node.ports
    requires
      var heard := HearAt(DownChannel(w, k), Position(w.readDown, k));
      heard.Broken? || (heard.Message? && heard.body == m)
    ensures
      var v := HearDownStep(w, k);
      if HearAt(DownChannel(w, k), Position(w.readDown, k)).Broken? then v.s == Crashed(w.s)
      else
        && v.s.crashed == w.s.crashed && k in v.s.conns && m.to in v.s.conns[k].ctrl.node.ports
        && v.s.conns[k].ctrl.node.ports[m.to].queue == w.s.conns[k].ctrl.node.ports[m.to].queue + [m]
  {
    hide HearAt, DownChannel, HearAtInvitee, Position;
    assert TypedConn(w.s.conns[k].ctrl, k);
    hide Typed, TypedConn;
    var c := w.s.conns[k];
    QueuesIt(c, k, Decoded(Down(w.s, k), c.takenDown, m), m);
    hide Decoded, Down;
  }

  lemma InvReachable(a: Name, w: Wire)
    requires WireInv(a, w)
    ensures Reachable(a, w.s)
  {
    hide Reachable, ShortSystem, ProcessesApart, ChannelsOk, WriterOk;
  }

  /** The state after the write is one of the message machine. */
  lemma WrittenReachable(a: Name, s: System, k: Socket, p: Name, data: Text)
    requires a != NONE && Reachable(a, s) && Typed(s) && !s.crashed && k in s.conns && p in s.conns[k].track
    requires MergedAtInviter(s.conns[k].track[p].state)
    ensures k in s.inviter.out
    ensures
      var m := UserMessage(s.conns[k].track[p].state.local, p, data);
      var t := WrittenSystem(s, k, m);
      && Reachable(a, t) && Typed(t) && p in s.conns[k].ctrl.node.live && p in s.conns[k].ctrl.node.ports
  {
    hide Reachable, Typed, WellFormedController;
    WriteSends(a, s, k, p, data);
    var l := s.conns[k].track[p].state.local;
    var m := UserMessage(l, p, data);
    var t := WrittenSystem(s, k, m);
    WriteIsStep(s, l, data);
    ReachableNext(a, s, WriteOwn(l, data));
    ReachableTyped(a, t);
    assert t.inviter.out[k] == s.inviter.out[k] + [m];
    assert m in Down(t, k);
    MessagesFindPorts(a, t, k, m);
    ConnTyped(s, k);
    LiveKnown(s.conns[k].ctrl);
  }

  lemma ConnTyped(s: System, k: Socket)
    requires Typed(s) && k in s.conns
    ensures WellFormedController(s.conns[k].ctrl)
  {
    hide WellFormedController;
  }

  lemma WriteIsStep(s: System, l: Name, data: Text)
    requires Typed(s) && !s.crashed && HasHandle(s, None, l)
    ensures Enabled(s, WriteOwn(l, data)) && Apply(s, WriteOwn(l, data)) == WriteAtInviter(s, l, data)
  {
    hide WriteAtInviter, WellFormedController;
  }

  lemma CanHear(w: Wire, v: Wire, k: Socket)
    requires CaughtUp(w, k) && Typed(v.s) && !v.s.crashed && v.s.conns == w.s.conns
    requires !HearAt(DownChannel(v, k), Position(v.readDown, k)).Silent?
    ensures WireEnabled(v, HearDown(k)) && WireApply(v, HearDown(k)) == HearDownStep(v, k)
  {
    hide HearAt, DownChannel, Typed, HearDownStep;
  }

  /** A write at the merged end of a pipe is read by the invitee at the other end, and is the last
      message in its queue, or ends its process: that exactly from 92 bytes on. */
  lemma WrittenExactly(a: Name, steps: seq<WireStep>, w: Wire, i: nat, k: Socket, p: Name, data: Text)
    requires a != NONE && BriefSteps(steps) && WireRun(a, steps) == Some(w) && !w.s.crashed
    requires CaughtUp(w, k) && k in w.s.conns && p in w.s.conns[k].track && MergedAtInviter(w.s.conns[k].track[p].state)
    requires i !in w.writers && |data| + 36 < 0x1_0000
    ensures p in w.s.conns[k].ctrl.node.ports
    ensures
      var l, queue := w.s.conns[k].track[p].state.local, w.s.conns[k].ctrl.node.ports[p].queue;
      var run := WireRun(a, steps + WriteAndHear(i, l, data, k));
      && run.Some? && (run.value.s.crashed <==> 92 <= |data|)
      && (|data| <= 91 ==>
            k in run.value.s.conns && p in run.value.s.conns[k].ctrl.node.ports
            && run.value.s.conns[k].ctrl.node.ports[p].queue == queue + [UserMessage(l, p, data)])
  {
    hide Reachable, WireInv, Typed, CaughtUp, WireRun, WireEnabled, WireApply, HearAt, EncodeBody, BriefSteps;
    hide HearDownStep, Enabled, Apply, HasHandle, WrittenSystem, WriteAtInviter, Position, DownChannel;
    BriefRunHolds(a, steps);
    InvReachable(a, w);
    var l := w.s.conns[k].track[p].state.local;
    var m := UserMessage(l, p, data);
    CaughtUpThere(w, k);
    InvTyped(a, w);
    WriteSends(a, w.s, k, p, data);
    WrittenReachable(a, w.s, k, p, data);
    WrittenWire(w, i, k, l, p, data);
    var first := ReadPort(i, None, l, data);
    var w1 := WireApply(w, first);
    var v := WireApply(w1, Forward(i));
    UserSize(l, p, data);
    WrittenIsHeard(a, w, k, m);
    WrittenFrame(w.s, k, m);
    ReadsWritten(v, k, m);
    CanHear(w, v, k);
    RunOn(a, steps, w, first);
    RunOn(a, steps + [first], w1, Forward(i));
    RunOn(a, steps + [first] + [Forward(i)], v, HearDown(k));
    assert steps + [first] + [Forward(i)] + [HearDown(k)] == steps + WriteAndHear(i, l, data, k);
  }

  lemma CaughtUpThere(w: Wire, k: Socket)
    requires CaughtUp(w, k)
    ensures k in w.s.conns
  {
  }

  lemma InvTyped(a: Name, w: Wire)
    requires a != NONE && WireInv(a, w)
    ensures Typed(w.s)
  {
    hide Reachable, WireInv, Typed;
    InvReachable(a, w);
    ReachableTyped(a, w.s);
  }

  lemma WrittenFrame(s: System, k: Socket, m: Body)
    requires k in s.inviter.out && m.UserMessage?
    ensures WrittenSystem(s, k, m).conns == s.conns && WrittenSystem(s, k, m).crashed == s.crashed
  {
  }

  // ------------------------------------------------------------------ a write in the middle of a merge

  lemma MergeIsStep(s: System)
    requires Typed(s) && Enabled(s, MergeBridge)
    ensures s.io.ToMerge? && s.io.k in s.conns && s.io.port in s.inviter.node.ports && WellFormedController(s.inviter)
    ensures Apply(s, MergeBridge) == MergeStep(s)
  {
    hide MergeStep, WellFormedController, TypedConn;
  }

  lemma MergedName(n: Node, r: Name, node: Name, port: Name)
    requires WellFormed(n) && r in n.ports
    ensures PortTable.MergePorts(n, r, node, port).1.name == n.name
  {
  }

  lemma MergeIs(s: System)
    requires Inv(s) && Typed(s) && Enabled(s, MergeBridge) && s.io.ToMerge? && s.io.k in s.conns && s.io.port in s.ends
    ensures
      exists n: Node :: n.name == s.inviter.node.name
        && Apply(s, MergeBridge) == MergedSystem(s, s.io.k, s.io.connector, s.io.port, n)
  {
    MergeKnows(s);
    LocalFacts(s.inviter.node, s.io.port, s.ends[s.io.port]);
    hide Inv, Typed, WellFormedController, Sound, EndsApart, LocalPair, PortTable.MergePorts, Enabled, Apply;
    MergeIsStep(s);
    hide MergeStep;
    MergeShape(s);
    NodeOf(s.inviter);
    MergedName(s.inviter.node, s.io.port, s.io.from, s.io.connector);
  }

  lemma NodeOf(c: Controller)
    requires WellFormedController(c)
    ensures WellFormed(c.node)
  {
    hide WellFormed;
  }

  /** What splicing the pair does to the end that the inviter's application holds. */
  lemma MergeSplices(s: System)
    requires Inv(s) && Typed(s) && s.io.ToMerge? && Enabled(s, MergeBridge)
    ensures
      var t, k, r := Apply(s, MergeBridge), s.io.k, s.io.port;
      && r in s.ends && t.ends == s.ends && k in s.conns && k in t.conns && t.conns[k].io == s.conns[k].io
      && t.conns[k].takenDown == s.conns[k].takenDown && Down(t, k) == Down(s, k)
      && r in s.holder && s.holder[r] == Merging(k, s.io.connector)
      && r in t.holder && t.holder[r] == Merged(k, s.io.connector) && t.crashed == s.crashed
      && t.inviter.node.name == s.inviter.node.name
  {
    hide Inv, Typed, WellFormedController, Sound, EndsApart, LocalPair, Enabled, Apply, Mark;
    MergeKnows(s);
    MergeIs(s);
  }

  /** The four steps: a write at `l` reads the port field, the pair is spliced, the write reads the node
      field, and the message is heard. */
  function RaceAt(i: nat, l: Name, data: Text, k: Socket): seq<WireStep> {
    [ReadPort(i, None, l, data), Do(MergeBridge), Forward(i), HearDown(k)]
  }

  /** The writer that read the port field before. */
  lemma RaceWriter(s: System, data: Text) returns (x: Writer)
    requires Inv(s) && Typed(s) && s.io.ToMerge? && Enabled(s, MergeBridge) && Inv(Apply(s, MergeBridge))
    ensures s.io.port in s.ends && HasHandle(s, None, s.ends[s.io.port])
    ensures
      var r, l, t := s.io.port, s.ends[s.io.port], Apply(s, MergeBridge);
      && x == Writer(None, l, r, data, s.inviter.node.ports[l].peerNode) && s.inviter.node.ports[l].peerPort == r
      && HasHandle(t, None, l) && SplicedSince(t, x)
      && r in t.holder && t.holder[r].Merged? && t.holder[r].k == s.io.k
  {
    hide Inv, Typed, Enabled, Apply, Down;
    MergeSplices(s);
    var r, l, t := s.io.port, s.ends[s.io.port], Apply(s, MergeBridge);
    EndFaces(s, r);
    EndFaces(t, r);
    assert l in s.ends.Values;
    x := Writer(None, l, r, data, s.inviter.node.ports[l].peerNode);
  }

  /** A stray that is sent when all has been read is next. */
  lemma StrayIsNext(w: Wire, v: Wire, k: Socket, m: Body)
    requires k in w.s.conns && v.strayDown == AddStray(w.strayDown, k, |Down(w.s, k)|, m) && v.s == w.s
    requires w.s.conns[k].takenDown == |Down(w.s, k)| && StraysOf(w.strayDown, k) == []
    ensures StrayDownNext(v, k)
  {
  }

  /** What the first two steps leave: the pair is spliced, and the writer has read the old port field. */
  predicate Racing(w: Wire, v: Wire, i: nat, x: Writer) {
    && w.s.io.ToMerge? && w.s.io.port in w.s.ends && x.side.None? && x.port == w.s.ends[w.s.io.port]
    && i in v.writers && v.writers[i] == x && HasHandle(v.s, None, x.port) && SplicedSince(v.s, x)
    && x.to in v.s.holder && v.s.holder[x.to].Merged? && v.s.holder[x.to].k == w.s.io.k
    && v.strayDown == w.strayDown && v.readDown == w.readDown
    && w.s.io.k in w.s.conns && w.s.io.k in v.s.conns
    && v.s.conns[w.s.io.k].takenDown == w.s.conns[w.s.io.k].takenDown
    && v.s.conns[w.s.io.k].io == w.s.conns[w.s.io.k].io && Down(v.s, w.s.io.k) == Down(w.s, w.s.io.k)
  }

  lemma RaceStarts(a: Name, steps: seq<WireStep>, w: Wire, i: nat, data: Text) returns (x: Writer, v: Wire)
    requires a != NONE && WireRun(a, steps) == Some(w) && WireInv(a, w) && Typed(w.s)
    requires !w.s.crashed && w.s.io.ToMerge? && i !in w.writers && |data| <= 91
    ensures Racing(w, v, i, x) && WireInv(a, v) && !v.s.crashed
    ensures WireRun(a, steps + [ReadPort(i, None, x.port, data), Do(MergeBridge)]) == Some(v)
  {
    hide WireInv, Reachable, Typed, Enabled, Apply, Inv, WireRun, HasHandle, SplicedSince, ReadPortStep, Down;
    hide WireEnabled, WireApply;
    InvReachable(a, w);
    ReachableHolds(a, w.s);
    IoThreadGoesOn(a, w.s);
    ReachableNext(a, w.s, MergeBridge);
    ReachableHolds(a, Apply(w.s, MergeBridge));
    MergeSplices(w.s);
    x := RaceWriter(w.s, data);
    var first := ReadPort(i, None, x.port, data);
    ReadsPort(w, i, data, x);
    var w1 := w.(writers := w.writers[i := x]);
    v := w1.(s := Apply(w.s, MergeBridge));
    NoStrayHeard(w, first);
    StepOn(a, steps, w, first);
    CanMerge(w1);
    NoStrayHeard(w1, Do(MergeBridge));
    StepOn(a, steps + [first], w1, Do(MergeBridge));
    assert steps + [first] + [Do(MergeBridge)] == steps + [first, Do(MergeBridge)];
  }

  lemma ReadsPort(w: Wire, i: nat, data: Text, x: Writer)
    requires Typed(w.s) && !w.s.crashed && i !in w.writers && x.side.None? && HasHandle(w.s, None, x.port)
    requires x.data == data && x.to == w.s.inviter.node.ports[x.port].peerPort
    requires x.faced == w.s.inviter.node.ports[x.port].peerNode
    ensures WireEnabled(w, ReadPort(i, None, x.port, data))
    ensures WireApply(w, ReadPort(i, None, x.port, data)) == w.(writers := w.writers[i := x])
  {
    hide Typed;
  }

  lemma CanMerge(w: Wire)
    requires Typed(w.s) && !w.s.crashed && Enabled(w.s, MergeBridge)
    ensures WireEnabled(w, Do(MergeBridge)) && BriefWire(Do(MergeBridge))
    ensures WireApply(w, Do(MergeBridge)) == w.(s := Apply(w.s, MergeBridge))
  {
    hide Typed, Enabled, Apply;
  }

  /** The message goes to the invitee's channel as a stray, and is next there. */
  lemma RaceSends(a: Name, w: Wire, v: Wire, i: nat, x: Writer)
    requires a != NONE && WireInv(a, w) && Racing(w, v, i, x) && CaughtUp(w, w.s.io.k)
    requires WireInv(a, v) && Typed(v.s) && !v.s.crashed
    ensures WireEnabled(v, Forward(i))
    ensures
      var u := WireApply(v, Forward(i));
      u.s == v.s && WireInv(a, u) && w.s.io.k in u.s.conns && StrayDownNext(u, w.s.io.k)
  {
    hide WireInv, Typed, Inv, CaughtUp, WriterOk, ForwardStep, ProcessesApart, Reachable, HasHandle, Whole, Down;
    CaughtUpFacts(a, w, w.s.io.k);
    InvReachable(a, v);
    ReachableHolds(a, v.s);
    WriterOf(a, v, i);
    ProcessesOf(a, v);
    TornExactly(v, x);
    TornSends(v, i);
    TornKeeps(a, v, i);
    hide Whole, SplicedSince, StrayDownOk;
    StrayIsNext(v.(writers := v.writers - {i}), ForwardStep(v, i), w.s.io.k, HandshakeWire.Message(x));
  }

  lemma SomethingThere(a: Name, u: Wire, k: Socket)
    requires WireInv(a, u) && k in u.s.conns && StrayDownNext(u, k)
    ensures !HearAt(DownChannel(u, k), Position(u.readDown, k)).Silent?
  {
    hide Reachable, ProcessesApart, WriterOk, ShortAll, ShortStrays, ShortSystem, ChannelOk, HearAt, Channel, Down;
    hide Stream;
    assert ChannelsOk(u, k);
    SystemShort(u.s, k);
    StraysShort(u, k);
    SomethingHeard(Down(u.s, k), StraysOf(u.strayDown, k), u.s.conns[k].takenDown, Position(u.readDown, k));
  }

  lemma StrayIsHeard(a: Name, u: Wire, k: Socket)
    requires a != NONE && WireInv(a, u) && Typed(u.s) && !u.s.crashed && k in u.s.conns && u.s.conns[k].io.Resting?
    requires StrayDownNext(u, k)
    ensures WireEnabled(u, HearDown(k)) && WireApply(u, HearDown(k)).s.crashed
  {
    hide WireInv, Typed, HearDownStep, StrayDownNext, HearAt, DownChannel;
    SomethingThere(a, u, k);
    StrayDownCrashes(a, u, k);
  }

  /** A write whose port is spliced between its two reads ends the process of the invitee that has read
      everything else. */
  lemma RaceCrashes(a: Name, steps: seq<WireStep>, w: Wire, i: nat, data: Text)
    requires a != NONE && BriefSteps(steps) && WireRun(a, steps) == Some(w) && !w.s.crashed
    requires w.s.io.ToMerge? && CaughtUp(w, w.s.io.k) && i !in w.writers && |data| <= 91
    ensures w.s.io.port in w.s.ends
    ensures
      var run := WireRun(a, steps + RaceAt(i, w.s.ends[w.s.io.port], data, w.s.io.k));
      run.Some? && run.value.s.crashed
  {
    hide WireInv, Typed, CaughtUp, WireRun, WireEnabled, WireApply, BriefSteps, Down, HasHandle, StrayDownNext;
    hide SplicedSince;
    BriefRunHolds(a, steps);
    InvTyped(a, w);
    var x, v := RaceStarts(a, steps, w, i, data);
    var k, l := w.s.io.k, w.s.ends[w.s.io.port];
    InvTyped(a, v);
    RaceSends(a, w, v, i, x);
    var u := WireApply(v, Forward(i));
    Rests(w, k);
    StrayIsHeard(a, u, k);
    var begun := steps + [ReadPort(i, None, l, data), Do(MergeBridge)];
    RunOn(a, begun, v, Forward(i));
    RunOn(a, begun + [Forward(i)], u, HearDown(k));
    assert begun + [Forward(i)] + [HearDown(k)] == steps + RaceAt(i, l, data, k);
  }

  lemma Rests(w: Wire, k: Socket)
    requires CaughtUp(w, k)
    ensures k in w.s.conns && w.s.conns[k].io.Resting?
  {
  }
}
