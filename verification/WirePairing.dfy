// What a run on the wire never takes back.

module WirePairing {
  import opened Bytes
  import opened Names
  import opened Bodies
  import opened PortTable
  import opened Controllers
  import opened Handshake
  import opened HandshakeInvariant
  import opened HandshakeInvitee
  import opened HandshakeMessages
  import opened HandshakeInviteeSteps
  import opened HandshakeTheorems
  import opened HandshakeForever
  import opened HandshakeGrowth
  import opened Streams
  import opened HandshakeWire
  import opened WireInvariant
  import opened WireSteps
  import opened WireTheorems

  lemma ForwardLater(a: Name, w: Wire, i: nat)
    requires a != NONE && WireInv(a, w) && Inv(w.s) && Typed(w.s) && !w.s.crashed && i in w.writers
    requires HasHandle(w.s, w.writers[i].side, w.writers[i].port)
    ensures Later(w.s, ForwardStep(w, i).s)
  {
    hide WireInv, Inv, Typed, HasHandle, Whole, ForwardStep, Later, Enabled, Apply;
    if Whole(w, w.writers[i]) {
      WholeKeeps(a, w, i);
      WholeIsWrite(w.s, w.writers[i]);
      StepLater(w.s, WriteOf(w.writers[i]));
    } else {
      TornKeeps(a, w, i);
      LaterSelf(w.s);
    }
  }

  /** A step that does not crash takes nothing back. */
  lemma WireStepLater(a: Name, w: Wire, step: WireStep)
    requires a != NONE && WireInv(a, w) && Inv(w.s) && Typed(w.s) && WireEnabled(w, step) && BriefWire(step)
    requires !HearsStray(w, step)
    ensures Later(w.s, WireApply(w, step).s)
  {
    hide WireInv, Inv, Typed, Enabled, Apply, HasHandle, StrayUpNext, StrayDownNext, HearAt, DrawsUnused, Brief, Later;
    hide ForwardStep, ReadPortStep, HearUpStep, HearDownStep, UpChannel, DownChannel;
    match step
    case Do(st) => StepLater(w.s, st);
    case ReadPort(i, side, p, data) =>
      ReadPortSame(w, i, side, p, data);
      LaterSelf(w.s);
    case Forward(i) => ForwardLater(a, w, i);
    case HearUp(k) =>
      HearUpKeeps(a, w, k);
      StepLater(w.s, HearInvitee(k));
    case HearDown(k) =>
      HearDownKeeps(a, w, k);
      StepLater(w.s, AtInvitee(k, Hear));
  }

  lemma InvOf(a: Name, w: Wire)
    requires a != NONE && WireInv(a, w)
    ensures Inv(w.s)
  {
    hide Reachable, ShortSystem, ProcessesApart, ChannelsOk, WriterOk, Inv;
    ReachableHolds(a, w.s);
  }

  /** In every continuation merged ports stay merged, and none is merged twice. */
  lemma {:induction false} WireLater(a: Name, steps: seq<WireStep>, n: nat)
    requires a != NONE && n <= |steps| && BriefSteps(steps)
    requires WireRun(a, steps).Some? && !WireRun(a, steps).value.s.crashed
    ensures WireRun(a, steps[..n]).Some? && Later(WireRun(a, steps[..n]).value.s, WireRun(a, steps).value.s)
  {
    hide WireInv, Typed, WireEnabled, WireApply, BriefWire, HearsStray, Later, Inv;
    if n == |steps| {
      assert steps[..n] == steps;
      LaterSelf(WireRun(a, steps).value.s);
    } else {
      assert WireRun(a, steps) == LastWireStep(a, steps);
      var most, step := steps[..|steps| - 1], steps[|steps| - 1];
      var before := WireRun(a, most).value;
      CrashedStops(before, step);
      BriefRunHolds(a, most);
      CrashesExactly(a, steps);
      InvOf(a, before);
      WireLater(a, most, n);
      assert most[..n] == steps[..n];
      WireStepLater(a, before, step);
      LaterTransitive(WireRun(a, steps[..n]).value.s, before.s, WireRun(a, steps).value.s);
    }
  }

  /** Once both sides have merged a pipe, its two ends name each other across the processes and both
      bridge halves are in no table, and that is so in every continuation. */
  lemma WirePairingForever(a: Name, steps: seq<WireStep>, n: nat, k: Socket, p: Name, r: Name, l: Name)
    requires a != NONE && n <= |steps| && BriefSteps(steps)
    requires WireRun(a, steps).Some? && !WireRun(a, steps).value.s.crashed
    requires WireRun(a, steps[..n]).Some? && SettledPipe(WireRun(a, steps[..n]).value.s, k, p, r, l)
    ensures
      var s := WireRun(a, steps).value.s;
      && SettledPipe(s, k, p, r, l)
      && var b, mate := s.conns[k].ctrl.node, s.conns[k].track[p].mate;
      && p in b.live && HasPeer(b, p, s.inviter.node.name, l) && mate in b.ports && mate !in b.live
      && l in s.inviter.node.live && HasPeer(s.inviter.node, l, b.name, p)
      && r in s.inviter.node.ports && r !in s.inviter.node.live
  {
    hide WireRun, BriefSteps, Reachable, WireInv;
    var w := WireRun(a, steps).value;
    BriefIsReachable(a, steps, w);
    hide BriefReachable;
    WireRefines(a, w);
    WireLater(a, steps, n);
    StaysSettled(WireRun(a, steps[..n]).value.s, w.s, k, p, r, l);
    SettledPairing(a, w.s, k, p, r, l);
  }

  lemma BriefIsReachable(a: Name, steps: seq<WireStep>, w: Wire)
    requires BriefSteps(steps) && WireRun(a, steps) == Some(w) && !w.s.crashed
    ensures BriefReachable(a, w)
  {
    hide BriefSteps, WireRun;
  }

  lemma StaysSettled(s: System, t: System, k: Socket, p: Name, r: Name, l: Name)
    requires Later(s, t) && SettledPipe(s, k, p, r, l)
    ensures SettledPipe(t, k, p, r, l)
  {
    assert Onward(s.conns[k].track, t.conns[k].track);
  }
}
