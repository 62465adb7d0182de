// What holds in every run of one inviter and any number of invitees.

module HandshakeTheorems {
  import opened Bytes
  import opened Names
  import opened Bodies
  import opened PortTable
  import opened Controllers
  import opened Handshake
  import opened HandshakeInvariant
  import opened HandshakeInvitee
  import opened HandshakeMessages
  import opened HandshakeInviteeSteps
  import opened HandshakeInviter
  import opened HandshakeInvitation
  import opened HandshakeLaunch
  import opened HandshakeHear
  import opened HandshakeMerge
  import opened HandshakeAnswer

  /** Every step keeps the invariant. */
  lemma StepKeeps(s: System, step: Step)
    requires Inv(s) && Typed(s) && Enabled(s, step)
    ensures Inv(Apply(s, step))
  {
    hide Inv, WellFormedController, TypedConn, CanAtInvitee;
    hide AttachPipe, ExtractLocally, TakePorts, TakeAgain, ListPorts, InviteStep, WriteAtInviter, ReadAtInviter;
    match step
    case AtInvitee(k, st) => AtInviteeKeeps(s, k, st);
    case Connect(k, b) => ConnectKeeps(s, k, b);
    case Open(h) => OpenKeeps(s, h);
    case Attach(h, pipe, l, r) => AttachKeeps(s, h, pipe, l, r);
    case ExtractOwn(h, pipe) => ExtractOwnKeeps(s, h, pipe);
    case Take(h, k, temp) => TakeKeeps(s, h, k, temp);
    case TakeOver(k) => TakeAgainKeeps(s, k);
    case List(k) => ListKeeps(s, k);
    case Launch(k) => LaunchKeeps(s, k);
    case WriteOwn(p, data) => WriteOwnKeeps(s, p, data);
    case ReadOwn(p) => ReadOwnKeeps(s, p);
    case HearInvitee(k) => HearStepKeeps(s, k);
    case _ => IoStepKeeps(s, step);
  }

  lemma HearStepKeeps(s: System, k: Socket)
    requires Inv(s) && Typed(s) && Enabled(s, HearInvitee(k))
    ensures Inv(Apply(s, HearInvitee(k)))
  {
    hide Inv, WellFormedController, TypedConn, HearAtInviter;
    ChannelKeys(s.inviter);
    HearInviteeKeeps(s, k);
  }

  lemma IoStepKeeps(s: System, step: Step)
    requires Inv(s) && Typed(s) && Enabled(s, step) && OfIoThread(step)
    ensures Inv(Apply(s, step))
  {
    hide Inv, WellFormedController, TypedConn, RekeyStep, AdmitStep, FlushStep, MergeStep, RespondStep;
    match step
    case RekeyPorts => RekeyKeeps(s);
    case AdmitInvitee => AdmitKeeps(s);
    case FlushWaiting => FlushKeeps(s);
    case MergeBridge => MergeKeeps(s);
    case RespondTo => RespondKeeps(s);
  }

  lemma InitHolds(a: Name)
    requires a != NONE
    ensures Inv(Init(a))
  {
    var s := Init(a);
    assert Bones(s.conns) == map[];
  }

  /** The state after a run, if every step of it could be taken. */
  function Run(a: Name, steps: seq<Step>): Option<System>
    decreases |steps|, 1
  {
    if steps == [] then Some(Init(a)) else LastStep(a, steps)
  }

  function LastStep(a: Name, steps: seq<Step>): Option<System>
    requires steps != []
    decreases |steps|, 0
  {
    var before := Run(a, steps[..|steps| - 1]);
    var step := steps[|steps| - 1];
    if before.Some? && Typed(before.value) && Enabled(before.value, step)
    then Some(Apply(before.value, step)) else None
  }

  ghost predicate Reachable(a: Name, s: System) {
    exists steps :: Run(a, steps) == Some(s)
  }

  lemma {:induction false} RunHolds(a: Name, steps: seq<Step>)
    requires a != NONE && Run(a, steps).Some?
    ensures Inv(Run(a, steps).value)
  {
    hide Inv, Typed, Enabled, Apply;
    if steps == [] {
      InitHolds(a);
    } else {
      var before := Run(a, steps[..|steps| - 1]);
      RunHolds(a, steps[..|steps| - 1]);
      StepKeeps(before.value, steps[|steps| - 1]);
    }
  }

  lemma ReachableHolds(a: Name, s: System)
    requires a != NONE && Reachable(a, s)
    ensures Inv(s)
  {
    hide Inv, Run;
    var steps :| Run(a, steps) == Some(s);
    RunHolds(a, steps);
  }

  // ------------------------------------------------------------------ nothing crashes

  /** No run meets a null pointer or drops a peer, and the reverse index of every node always agrees with
      its port table. */
  lemma NothingCrashes(a: Name, s: System)
    requires a != NONE && Reachable(a, s)
    ensures !s.crashed && !s.dropped
    ensures IndexAgrees(s.inviter.node) && LocalPairs(s.inviter.node)
    ensures forall k :: k in s.conns ==> IndexAgrees(s.conns[k].ctrl.node) && LocalPairs(s.conns[k].ctrl.node)
  {
    hide Reachable, ConnInv, ViewOf, Typed, Reservations, InviterTallies, NamesApart, KeysUsed, Connections, EndsApart;
    ReachableHolds(a, s);
    forall k | k in s.conns
      ensures Sound(s.conns[k].ctrl.node)
    {
      Connection(s, k);
      ConnSound(ViewOf(s, k), s.conns[k]);
      hide Sound;
    }
  }

  lemma ConnSound(v: View, c: Conn)
    requires ConnInv(v, c)
    ensures Sound(c.ctrl.node)
  {
    hide Tallies, InviteeSide, InviterSide, Splices, UsersUp, UsersDown, Callers, RequestPlaces, Sound, Apart;
  }

  /** The step the inviter's IO thread takes next when it is not at rest. */
  function NextIoStep(io: InviterIo): Step
    requires !io.AtRest?
  {
    match io
    case ToRekey(_, _, _) => RekeyPorts
    case ToAdmit(_, _, _) => AdmitInvitee
    case ToFlush(_, _) => FlushWaiting
    case ToMerge(_, _, _, _) => MergeBridge
    case ToRespond(_, _, _, _) => RespondTo
  }

  /** Nothing stands in its way: what a step looks up is there. */
  lemma IoThreadGoesOn(a: Name, s: System)
    requires a != NONE && Reachable(a, s) && !s.io.AtRest?
    ensures Typed(s) && Enabled(s, NextIoStep(s.io))
  {
    hide Reachable, ConnInv, ViewOf, Reservations, InviterTallies, NamesApart, KeysUsed, Connections, InviterPorts;
    hide InviterSide, WellFormedController, TypedConn;
    ReachableHolds(a, s);
    Busy(s);
    var k := s.io.k;
    BusySide(ViewOf(s, k), s.conns[k].stage, NameOf(s.conns[k]), s.conns[k].takenUp);
    ViewDown(s, k);
    PendingOf(s, k);
    if s.io.ToFlush? {
      FlushedDown(ViewOf(s, k), s.conns[k].stage, NameOf(s.conns[k]), s.conns[k].takenUp);
    }
    if s.io.ToMerge? {
      MergeKnows(s);
      LocalNames(s.inviter.node, s.io.port, s.ends[s.io.port]);
    }
  }

  lemma FlushedDown(v: View, stage: Stage, b: Name, takenUp: nat)
    requires InviterSide(v, stage, b, takenUp) && stage.Joined?
    ensures v.down.Some?
  {
  }

  // ------------------------------------------------------------------ the two ends

  /** The inviter has merged the bridge `r` with port `p` of invitee `k`, and the invitee has heard. */
  predicate SettledPipe(s: System, k: Socket, p: Name, r: Name, l: Name) {
    k in s.conns && p in s.conns[k].track && s.conns[k].track[p].state == Settled(r, l)
  }

  lemma BridgeOfConn(v: View, c: Conn, p: Name)
    requires ConnInv(v, c) && p in c.track && MergedAtInviter(c.track[p].state)
    ensures
      var st := c.track[p].state;
      && st.bridge in v.mine && st.bridge in v.ends && v.ends[st.bridge] == st.local
      && v.mine[st.bridge] == Merged(v.k, p)
    ensures PairOrSpliced(c.ctrl.node, v.a, p, c.track[p])
  {
    hide Tallies, InviteeSide, InviterSide, UsersUp, UsersDown, Callers, RequestPlaces, Sound, Apart, LocalPair;
  }

  /** Then the two ends name each other, and both bridge halves are gone from their tables. */
  lemma SettledPairing(a: Name, s: System, k: Socket, p: Name, r: Name, l: Name)
    requires a != NONE && Reachable(a, s) && SettledPipe(s, k, p, r, l)
    ensures
      var b, mate := s.conns[k].ctrl.node, s.conns[k].track[p].mate;
      && p in b.live && HasPeer(b, p, s.inviter.node.name, l) && mate in b.ports && mate !in b.live
      && l in s.inviter.node.live && HasPeer(s.inviter.node, l, b.name, p)
      && r in s.inviter.node.ports && r !in s.inviter.node.live
  {
    hide Reachable, ConnInv, ViewOf, Reservations, InviterTallies, NamesApart, KeysUsed, Connections, Mine, MyEnds;
    hide WellFormedController, TypedConn, Sound, EndsApart;
    ReachableHolds(a, s);
    Connection(s, k);
    BridgeOfConn(ViewOf(s, k), s.conns[k], p);
    ViewDown(s, k);
    MineIs(s.holder, s.ends, k, r);
    BonesKeys(s.conns);
    hide Bones;
    assert EndOk(s.inviter.node, r, s.ends[r], s.holder[r], Bones(s.conns));
  }

  // ------------------------------------------------------------------ messages on their way

  /** Every user message on its way to a node names a port in that node's table, also one that overtakes
      the response that tells the invitee of the merge. */
  lemma MessagesFindPorts(a: Name, s: System, k: Socket, m: Body)
    requires a != NONE && Reachable(a, s) && k in s.conns && m.UserMessage?
    ensures m in Up(s.conns[k], k) ==> m.to in s.inviter.node.live
    ensures m in Down(s, k) ==> m.to in s.conns[k].ctrl.node.live
  {
    hide Reachable, ConnInv, ViewOf, Reservations, InviterTallies, NamesApart, KeysUsed, Connections, Inv, Sent;
    ReachableHolds(a, s);
    if m in Up(s.conns[k], k) {
      UserEnd(s, k, m);
    }
    if m in Down(s, k) {
      hide Down;
      InvConnections(s);
      Connection(s, k);
      ViewIncoming(s, k);
      DownPort(ViewOf(s, k), s.conns[k], m);
    }
  }

  lemma InvConnections(s: System)
    requires Inv(s)
    ensures Connections(s) && InviterFacts(s)
    ensures InviterTallies(s)
    ensures InviterPorts(s.inviter.node, s.ends, s.holder, Bones(s.conns))
  {
    hide Connections, InviterFacts, InviterTallies, InviterPorts;
  }

  lemma DownPort(v: View, c: Conn, m: Body)
    requires ConnInv(v, c) && m in Incoming(v) && m.UserMessage?
    ensures m.to in c.ctrl.node.live
  {
    hide Tallies, InviteeSide, InviterSide, UsersUp, Callers, RequestPlaces, Splices, Sound, Apart;
    assert PairOrSpliced(c.ctrl.node, v.a, m.to, c.track[m.to]);
  }

  // ------------------------------------------------------------------ the order of the handshake

  /** Of an invitee's messages AcceptInvitation is the first, and the only one of its kind. So by the
      time the inviter reads any other, the invitee's channel is that of a peer of its name, and its
      reserved ports are listed under its name and not under the token. */
  lemma AcceptanceFirst(a: Name, s: System, k: Socket)
    requires a != NONE && Reachable(a, s) && k in s.conns
    ensures
      var c, up := s.conns[k], Up(s.conns[k], k);
      && (up != [] ==> up[0] == AcceptInvitation(TempOf(c), NameOf(c)))
      && (forall j :: 0 < j < |up| ==> up[j].RequestPortMerge? || up[j].UserMessage?)
      && (c.takenUp > 1 ==>
            Lookup(s.inviter.peers, NameOf(c)) == Some(k) && Lookup(s.inviter.remote, k) == Some(NameOf(c))
            && TempOf(c) !in s.inviter.reserved)
  {
    hide Reachable, ConnInv, ViewOf, InviterTallies, NamesApart, KeysUsed, Connections, InviterPorts, Sent;
    hide WellFormedController, TypedConn, HeldOf, IsAt, ListedFor;
    ReachableHolds(a, s);
    Connection(s, k);
    ViewDown(s, k);
    OrderOfConn(ViewOf(s, k), s.conns[k]);
    BonesKeys(s.conns);
    hide Bones;
    assert ReservedOf(s.inviter.reserved, s.holder, k, Bones(s.conns)[k]);
  }

  lemma OrderOfConn(v: View, c: Conn)
    requires ConnInv(v, c)
    ensures UpShape(Sent(c.ctrl, v.k), TempOf(c), NameOf(c))
    ensures c.takenUp > 1 ==> c.stage.Joined? && v.peerAt == Some(v.k) && v.remote == Some(NameOf(c))
  {
    hide Tallies, UsersUp, UsersDown, Callers, RequestPlaces, Splices, InviteePorts, UpShape, TypedConn;
  }

  /** When the inviter honours a request, it does so for a peer. */
  lemma MergesForPeers(a: Name, s: System)
    requires a != NONE && Reachable(a, s) && (s.io.ToMerge? || s.io.ToRespond?)
    ensures s.io.k in s.conns && Lookup(s.inviter.peers, s.io.from) == Some(s.io.k)
  {
    hide Reachable, ConnInv, ViewOf, Reservations, InviterTallies, NamesApart, KeysUsed, Connections, InviterPorts;
    hide InviterSide;
    ReachableHolds(a, s);
    Busy(s);
    BusySide(ViewOf(s, s.io.k), s.conns[s.io.k].stage, NameOf(s.conns[s.io.k]), s.conns[s.io.k].takenUp);
    ViewDown(s, s.io.k);
  }
}
