// Two runs on the wire that end badly: one writes 92 bytes at the end of a merged pipe, the other is in
// the middle of a write while the pipe is merged. With 91 bytes, or after the merge, both end well.

module WireExamples {
  import opened Bytes
  import opened Names
  import opened Bodies
  import opened PortTable
  import opened Controllers
  import opened Handshake
  import opened HandshakeInvariant
  import opened HandshakeTheorems
  import opened HandshakeMerge
  import opened HandshakeAnswer
  import opened HandshakeForever
  import opened HandshakeConservation
  import opened HandshakeGrowth
  import opened Streams
  import opened HandshakeWire
  import opened WireInvariant
  import opened WireSteps
  import opened WireTheorems
  import opened WireFailures
  import opened WireRuns
  import opened HandshakeExample

  /** A run of the example, made on the wire. */
  lemma AsWire(steps: seq<Step>, s: System) returns (w: Wire)
    requires ReachedBy(steps, s)
    ensures BriefSteps(AllOnWire(steps)) && WireRun(A, AllOnWire(steps)) == Some(w) && w.s == s && Quiet(w)
    ensures WireInv(A, w) && !s.crashed
  {
    hide WireInv, BriefSteps, WireRun, Run, BriefApart, Quiet;
    RunOnWire(A, steps);
    BriefOnWire(A, steps);
    w := WireRun(A, AllOnWire(steps)).value;
  }

  /** An invitee that has read all messages of the inviter. */
  lemma HasReadAll(w: Wire, k: Socket)
    requires WireInv(A, w) && Quiet(w) && k in w.s.conns && w.s.conns[k].io.Resting?
    requires w.s.conns[k].takenDown == |Down(w.s, k)|
    ensures CaughtUp(w, k)
  {
    hide Reachable, ProcessesApart, WriterOk, ShortAll, ShortStrays, ShortSystem, ChannelOk, HearAt, Channel, Down;
    hide Stream;
    assert ChannelsOk(w, k);
    SystemShort(w.s, k);
    StraysShort(w, k);
    SomethingHeard(Down(w.s, k), [], w.s.conns[k].takenDown, Position(w.readDown, k));
  }

  /** There is a run of a brief application after which a write in the middle of the merge crashes. */
  lemma RaceHappens() returns (steps: seq<WireStep>)
    ensures BriefSteps(steps)
    ensures forall data: Text :: |data| <= 91 ==>
      WireRun(A, steps + RaceAt(0, L, data, 0)).Some? && WireRun(A, steps + RaceAt(0, L, data, 0)).value.s.crashed
  {
    hide ReachedBy, BriefSteps, WireRun, Quiet, CaughtUp, WireInv, Down;
    var most, s := PipeIsAsked();
    var w := AsWire(most, s);
    NoWriter(w);
    HasReadAll(w, 0);
    steps := AllOnWire(most);
    forall data: Text | |data| <= 91
      ensures WireRun(A, steps + RaceAt(0, L, data, 0)).Some? && WireRun(A, steps + RaceAt(0, L, data, 0)).value.s.crashed
    {
      RaceCrashes(A, steps, w, 0, data);
    }
  }

  lemma NoWriter(w: Wire)
    requires Quiet(w)
    ensures 0 !in w.writers
  {
  }

  lemma IsSpliced(steps: seq<Step>, s: System) returns (more: seq<Step>, t: System)
    requires ReachedBy(steps, s) && AboutToSplice(s)
    ensures ReachedBy(more, t) && 0 in t.conns && P in t.conns[0].track && t.conns[0].track[P].state == Spliced(R, L)
    ensures t.conns[0].io.Resting? && t.conns[0].takenDown == |Down(t, 0)|
  {
    hide ReachedBy, Inv, Typed, Enabled, Apply, Down;
    AtTyped(steps, s);
    AtReachable(steps, s);
    IoThreadGoesOn(A, s);
    more, t := StepTo(steps, s, MergeBridge);
    MergeSplices(s);
    MergeKnows(s);
    MergeIs(s);
  }

  lemma AtReachable(steps: seq<Step>, s: System)
    requires ReachedBy(steps, s)
    ensures Reachable(A, s)
  {
    hide Run, BriefApart;
  }

  /** And one after which a write of up to 91 bytes is read, and one of 92 bytes or more crashes. */
  lemma SizeDecides() returns (steps: seq<WireStep>)
    ensures BriefSteps(steps)
    ensures forall data: Text :: |data| + 36 < 0x1_0000 ==>
      && WireRun(A, steps + WriteAndHear(0, L, data, 0)).Some?
      && (WireRun(A, steps + WriteAndHear(0, L, data, 0)).value.s.crashed <==> 92 <= |data|)
  {
    hide ReachedBy, BriefSteps, WireRun, Quiet, CaughtUp, WireInv, Down;
    var most, s := PipeIsAsked();
    most, s := IsSpliced(most, s);
    var w := AsWire(most, s);
    NoWriter(w);
    HasReadAll(w, 0);
    steps := AllOnWire(most);
    forall data: Text | |data| + 36 < 0x1_0000
      ensures WireRun(A, steps + WriteAndHear(0, L, data, 0)).Some?
      ensures WireRun(A, steps + WriteAndHear(0, L, data, 0)).value.s.crashed <==> 92 <= |data|
    {
      WrittenExactly(A, steps, w, 0, 0, P, data);
    }
  }
}
