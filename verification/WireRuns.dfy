// Every run of the message machine whose application is brief, and which draws no name twice, can be
// made on the wire: a write is made in one go, and nothing comes between its two reads.

module WireRuns {
  import opened Bytes
  import opened Names
  import opened Bodies
  import opened PortTable
  import opened Controllers
  import opened Handshake
  import opened HandshakeInvariant
  import opened HandshakeInvitee
  import opened HandshakeMessages
  import opened HandshakeInviteeSteps
  import opened HandshakeInviter
  import opened HandshakeInvitation
  import opened HandshakeLaunch
  import opened HandshakeHear
  import opened HandshakeTheorems
  import opened HandshakeGrowth
  import opened Streams
  import opened HandshakeWire
  import opened WireInvariant
  import opened WireSteps
  import opened WireTheorems
  import opened WireFailures

  /** What a step is on the wire. */
  function OnWire(step: Step): seq<WireStep> {
    match step
    case AtInvitee(k, Write(p, data)) => [ReadPort(0, Some(k), p, data), Forward(0)]
    case WriteOwn(p, data) => [ReadPort(0, None, p, data), Forward(0)]
    case AtInvitee(k, Hear) => [HearDown(k)]
    case HearInvitee(k) => [HearUp(k)]
    case _ => [Do(step)]
  }

  function AllOnWire(steps: seq<Step>): seq<WireStep> {
    if steps == [] then []
    else AllOnWire(steps[..|steps| - 1]) + OnWire(steps[|steps| - 1])
  }

  /** The application is brief, and every name drawn is new in all processes. */
  ghost predicate BriefApart(a: Name, steps: seq<Step>) {
    steps == []
    || (var most, last := steps[..|steps| - 1], steps[|steps| - 1];
        BriefApart(a, most) && Brief(last) && (Run(a, most).Some? ==> DrawsUnused(Run(a, most).value, last)))
  }

  /** No write is under way, and none has been torn. */
  predicate Quiet(w: Wire) {
    w.writers == map[] && w.strayUp == map[] && w.strayDown == map[]
  }

  lemma HearsOnWire(a: Name, w: Wire, k: Socket)
    requires a != NONE && WireInv(a, w) && Typed(w.s) && Quiet(w) && Enabled(w.s, AtInvitee(k, Hear))
    ensures WireEnabled(w, HearDown(k)) && !StrayDownNext(w, k)
  {
    hide Typed, Reachable, ShortSystem, ProcessesApart, WriterOk, HearAt, Channel, Stream, Down, ChannelOk;
    assert ChannelsOk(w, k);
    SystemShort(w.s, k);
    StraysShort(w, k);
    SomethingHeard(Down(w.s, k), [], w.s.conns[k].takenDown, Position(w.readDown, k));
  }

  lemma InviterHearsOnWire(a: Name, w: Wire, k: Socket)
    requires a != NONE && WireInv(a, w) && Typed(w.s) && Quiet(w) && Enabled(w.s, HearInvitee(k))
    ensures WireEnabled(w, HearUp(k)) && !StrayUpNext(w, k)
  {
    hide Reachable, ShortSystem, ProcessesApart, WriterOk, HearAt, Channel, Stream, Up, ChannelOk, TypedConn;
    ChannelKeys(w.s.inviter);
    hide WellFormedController;
    assert ChannelsOk(w, k);
    SystemShort(w.s, k);
    StraysShort(w, k);
    SomethingHeard(Up(w.s.conns[k], k), [], w.s.conns[k].takenUp, Position(w.readUp, k));
  }

  /** A write of the message machine, made in one go. */
  function WriterOfStep(s: System, side: Option<Socket>, p: Name, data: Text): Writer
    requires HasHandle(s, side, p)
  {
    Writer(side, p, NodeAt(s, side).ports[p].peerPort, data, NodeAt(s, side).ports[p].peerNode)
  }

  lemma ReadThenForward(w: Wire, side: Option<Socket>, p: Name, data: Text)
    requires Typed(w.s) && !w.s.crashed && Quiet(w) && HasHandle(w.s, side, p)
    ensures WireEnabled(w, ReadPort(0, side, p, data))
    ensures
      var v, x := WireApply(w, ReadPort(0, side, p, data)), WriterOfStep(w.s, side, p, data);
      && v.s == w.s && Typed(v.s) && WireEnabled(v, Forward(0)) && HasHandle(v.s, x.side, x.port)
      && WireApply(v, Forward(0)) == w.(s := WriteWhole(w.s, x)) && Quiet(WireApply(v, Forward(0)))
  {
    hide Typed, WriteWhole;
    var x := WriterOfStep(w.s, side, p, data);
    var v := w.(writers := map[0 := x]);
    assert w.writers[0 := x] == map[0 := x];
    assert v.writers - {0} == map[];
    WholeShape(v, 0);
    hide ForwardStep, HasHandle;
  }

  /** The two steps of a write, one after the other. */
  lemma WriteOnWire(a: Name, steps: seq<WireStep>, w: Wire, side: Option<Socket>, p: Name, data: Text)
    requires a != NONE && WireRun(a, steps) == Some(w) && WireInv(a, w) && Typed(w.s) && !w.s.crashed && Quiet(w)
    requires HasHandle(w.s, side, p) && |data| <= 91
    ensures
      var v := w.(s := WriteWhole(w.s, WriterOfStep(w.s, side, p, data)));
      && WireRun(a, steps + [ReadPort(0, side, p, data), Forward(0)]) == Some(v)
      && Quiet(v) && WireInv(a, v) && !v.s.crashed
  {
    hide WireInv, Typed, HasHandle, WireEnabled, WireApply, WriteWhole, Quiet, WireRun;
    var first, more := ReadPort(0, side, p, data), steps + [ReadPort(0, side, p, data)];
    ReadThenForward(w, side, p, data);
    NoStrayHeard(w, first);
    StepOn(a, steps, w, first);
    var v := WireApply(w, first);
    NoStrayHeard(v, Forward(0));
    StepOn(a, more, v, Forward(0));
    assert more + [Forward(0)] == steps + [first, Forward(0)];
  }

  /** A step of the message machine, on the wire. */
  lemma StepOnWire(a: Name, steps: seq<WireStep>, w: Wire, step: Step)
    requires a != NONE && WireRun(a, steps) == Some(w) && WireInv(a, w) && Typed(w.s) && !w.s.crashed && Quiet(w)
    requires Enabled(w.s, step) && Brief(step) && DrawsUnused(w.s, step)
    ensures
      var run := WireRun(a, steps + OnWire(step));
      && run.Some? && run.value.s == Apply(w.s, step) && Quiet(run.value)
      && WireInv(a, run.value) && !run.value.s.crashed
  {
    hide WireInv, Typed, WireEnabled, WireApply, Enabled, Apply, DrawsUnused, WireRun, Quiet;
    match step
    case AtInvitee(k, Write(p, data)) => WriteAtInviteeOnWire(a, steps, w, k, p, data);
    case WriteOwn(p, data) => WriteOwnOnWire(a, steps, w, p, data);
    case AtInvitee(k, Hear) => HearOnWire(a, steps, w, k);
    case HearInvitee(k) => HearInviteeOnWire(a, steps, w, k);
    case _ => DoOnWire(a, steps, w, step);
  }

  lemma DoOnWire(a: Name, steps: seq<WireStep>, w: Wire, step: Step)
    requires a != NONE && WireRun(a, steps) == Some(w) && WireInv(a, w) && Typed(w.s) && !w.s.crashed && Quiet(w)
    requires Enabled(w.s, step) && Brief(step) && DrawsUnused(w.s, step) && !Talks(step)
    ensures
      var v := w.(s := Apply(w.s, step));
      WireRun(a, steps + [Do(step)]) == Some(v) && Quiet(v) && WireInv(a, v) && !v.s.crashed
  {
    hide WireInv, Typed, Enabled, Apply, DrawsUnused, Brief, WireRun, Talks;
    StepOn(a, steps, w, Do(step));
  }

  lemma WriteAtInviteeOnWire(a: Name, steps: seq<WireStep>, w: Wire, k: Socket, p: Name, data: Text)
    requires a != NONE && WireRun(a, steps) == Some(w) && WireInv(a, w) && Typed(w.s) && !w.s.crashed && Quiet(w)
    requires Enabled(w.s, AtInvitee(k, Write(p, data))) && |data| <= 91
    ensures
      var v := w.(s := Apply(w.s, AtInvitee(k, Write(p, data))));
      && WireRun(a, steps + [ReadPort(0, Some(k), p, data), Forward(0)]) == Some(v) && Quiet(v)
      && WireInv(a, v) && !v.s.crashed
  {
    WriteHandle(w.s, k, p, data);
    hide WireInv, Typed, WriteWhole, Enabled, Apply, WireRun, Quiet, HasHandle;
    WriteOnWire(a, steps, w, Some(k), p, data);
    WholeIsWrite(w.s, WriterOfStep(w.s, Some(k), p, data));
  }

  lemma WriteHandle(s: System, k: Socket, p: Name, data: Text)
    requires Typed(s) && Enabled(s, AtInvitee(k, Write(p, data)))
    ensures HasHandle(s, Some(k), p)
  {
    hide WellFormedController;
  }

  lemma WriteOwnOnWire(a: Name, steps: seq<WireStep>, w: Wire, p: Name, data: Text)
    requires a != NONE && WireRun(a, steps) == Some(w) && WireInv(a, w) && Typed(w.s) && !w.s.crashed && Quiet(w)
    requires Enabled(w.s, WriteOwn(p, data)) && |data| <= 91
    ensures
      var v := w.(s := Apply(w.s, WriteOwn(p, data)));
      && WireRun(a, steps + [ReadPort(0, None, p, data), Forward(0)]) == Some(v) && Quiet(v)
      && WireInv(a, v) && !v.s.crashed
  {
    OwnHandle(w.s, p, data);
    hide WireInv, Typed, WriteWhole, Enabled, Apply, WireRun, Quiet, HasHandle;
    WriteOnWire(a, steps, w, None, p, data);
    WholeIsWrite(w.s, WriterOfStep(w.s, None, p, data));
  }

  lemma OwnHandle(s: System, p: Name, data: Text)
    requires Typed(s) && Enabled(s, WriteOwn(p, data))
    ensures HasHandle(s, None, p)
  {
    hide Typed;
  }

  lemma HearOnWire(a: Name, steps: seq<WireStep>, w: Wire, k: Socket)
    requires a != NONE && WireRun(a, steps) == Some(w) && WireInv(a, w) && Typed(w.s) && !w.s.crashed && Quiet(w)
    requires Enabled(w.s, AtInvitee(k, Hear))
    ensures
      var run := WireRun(a, steps + [HearDown(k)]);
      && run.Some? && run.value.s == Apply(w.s, AtInvitee(k, Hear)) && Quiet(run.value)
      && WireInv(a, run.value) && !run.value.s.crashed
  {
    HearsOnWire(a, w, k);
    HearDownFacts(w, k);
    hide WireInv, Typed, Enabled, Apply, WireRun, HearAt, HearDownStep, StrayDownNext, DownChannel, WireEnabled;
    HearDownKeeps(a, w, k);
    RunOn(a, steps, w, HearDown(k));
  }

  lemma HearDownFacts(w: Wire, k: Socket)
    requires Typed(w.s) && WireEnabled(w, HearDown(k))
    ensures k in w.s.conns && w.s.conns[k].io.Resting? && !HearAt(DownChannel(w, k), Position(w.readDown, k)).Silent?
    ensures HearDownStep(w, k).writers == w.writers && HearDownStep(w, k).strayUp == w.strayUp
    ensures HearDownStep(w, k).strayDown == w.strayDown && WireApply(w, HearDown(k)) == HearDownStep(w, k)
  {
    hide Typed;
    HearDownFrame(w, k);
    hide HearAt, DownChannel, HearDownStep;
  }

  lemma HearDownFrame(w: Wire, k: Socket)
    requires Typed(w.s) && k in w.s.conns && !HearAt(DownChannel(w, k), Position(w.readDown, k)).Silent?
    ensures HearDownStep(w, k).writers == w.writers && HearDownStep(w, k).strayUp == w.strayUp
    ensures HearDownStep(w, k).strayDown == w.strayDown
  {
    hide HearAt, DownChannel, HearAtInvitee, Decoded, WellFormedController, Position;
  }

  lemma HearInviteeOnWire(a: Name, steps: seq<WireStep>, w: Wire, k: Socket)
    requires a != NONE && WireRun(a, steps) == Some(w) && WireInv(a, w) && Typed(w.s) && !w.s.crashed && Quiet(w)
    requires Enabled(w.s, HearInvitee(k))
    ensures
      var run := WireRun(a, steps + [HearUp(k)]);
      && run.Some? && run.value.s == Apply(w.s, HearInvitee(k)) && Quiet(run.value)
      && WireInv(a, run.value) && !run.value.s.crashed
  {
    InviterHearsOnWire(a, w, k);
    HearUpFacts(w, k);
    hide WireInv, Typed, Enabled, Apply, WireRun, HearAt, HearUpStep, StrayUpNext, UpChannel, WireEnabled;
    HearUpKeeps(a, w, k);
    RunOn(a, steps, w, HearUp(k));
  }

  lemma HearUpFacts(w: Wire, k: Socket)
    requires Typed(w.s) && WireEnabled(w, HearUp(k))
    ensures k in w.s.conns && w.s.io.AtRest? && k in w.s.inviter.remote
    ensures !HearAt(UpChannel(w, k), Position(w.readUp, k)).Silent?
    ensures HearUpStep(w, k).writers == w.writers && HearUpStep(w, k).strayUp == w.strayUp
    ensures HearUpStep(w, k).strayDown == w.strayDown && WireApply(w, HearUp(k)) == HearUpStep(w, k)
  {
    hide Typed;
    HearUpFrame(w, k);
    hide HearAt, UpChannel, HearUpStep;
  }

  lemma HearUpFrame(w: Wire, k: Socket)
    requires Typed(w.s) && k in w.s.conns && k in w.s.inviter.remote
    requires !HearAt(UpChannel(w, k), Position(w.readUp, k)).Silent?
    ensures HearUpStep(w, k).writers == w.writers && HearUpStep(w, k).strayUp == w.strayUp
    ensures HearUpStep(w, k).strayDown == w.strayDown
  {
    hide HearAt, UpChannel, HearAtInviter, Decoded, WellFormedController, Position;
  }

  /** A run of the message machine is one of the wire, and no process crashes in it. */
  lemma {:induction false} RunOnWire(a: Name, steps: seq<Step>)
    requires a != NONE && Run(a, steps).Some? && BriefApart(a, steps)
    ensures
      var run := WireRun(a, AllOnWire(steps));
      && run.Some? && run.value.s == Run(a, steps).value && Quiet(run.value)
      && WireInv(a, run.value) && !run.value.s.crashed
  {
    hide WireInv, Typed, Enabled, Apply, Quiet, Brief, DrawsUnused, OnWire;
    if steps == [] {
      StartHolds(a);
      StartQuiet(a);
    } else {
      var most, last := steps[..|steps| - 1], steps[|steps| - 1];
      assert Run(a, steps) == LastStep(a, steps);
      RunOnWire(a, most);
      hide WireRun, Run;
      StepOnWire(a, AllOnWire(most), WireRun(a, AllOnWire(most)).value, last);
    }
  }

  lemma StartQuiet(a: Name)
    ensures Quiet(Start(a)) && !Start(a).s.crashed
  {
  }

  lemma BriefOnWire(a: Name, steps: seq<Step>)
    requires BriefApart(a, steps)
    ensures BriefSteps(AllOnWire(steps))
  {
    hide DrawsUnused, Run;
    if steps != [] {
      BriefOnWire(a, steps[..|steps| - 1]);
    }
  }
}
