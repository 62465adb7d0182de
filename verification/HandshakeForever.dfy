// What a run never takes back, and where attached ports are.

module HandshakeForever {
  import opened Bytes
  import opened Names
  import opened Bodies
  import opened PortTable
  import opened Controllers
  import opened Handshake
  import opened HandshakeInvariant
  import opened HandshakeInvitee
  import opened HandshakeMessages
  import opened HandshakeInviteeSteps
  import opened HandshakeInviter
  import opened HandshakeInvitation
  import opened HandshakeLaunch
  import opened HandshakeHear
  import opened HandshakeMerge
  import opened HandshakeAnswer
  import opened HandshakeTheorems

  /** Extracted ports stay on their way to the same partner, attached ports stay, and merged ports stay
      merged. */
  ghost predicate Later(s: System, s': System) {
    && (forall k :: k in s.conns ==> k in s'.conns && Onward(s.conns[k].track, s'.conns[k].track))
    && (forall r :: r in s.holder ==> r in s'.holder && (s.holder[r].Merged? ==> s'.holder[r] == s.holder[r]))
    && (forall r :: r in s.ends ==> r in s'.ends && s'.ends[r] == s.ends[r])
    && s'.inviter.node.name == s.inviter.node.name
  }

  lemma SameTracks(s: System, s': System)
    requires forall k :: k in s.conns ==> k in s'.conns && s'.conns[k].track == s.conns[k].track
    requires forall r :: r in s.holder ==> r in s'.holder && (s.holder[r].Merged? ==> s'.holder[r] == s.holder[r])
    requires forall r :: r in s.ends ==> r in s'.ends && s'.ends[r] == s.ends[r]
    requires s'.inviter.node.name == s.inviter.node.name
    ensures Later(s, s')
  {
    hide Onward;
    forall k | k in s.conns
      ensures Onward(s.conns[k].track, s.conns[k].track)
    {
      OnwardSelf(s.conns[k].track);
    }
  }

  lemma OneTrack(s: System, s': System, k: Socket)
    requires k in s.conns && k in s'.conns && s'.conns == s.conns[k := s'.conns[k]]
    requires Onward(s.conns[k].track, s'.conns[k].track)
    requires forall r :: r in s.holder ==> r in s'.holder && (s.holder[r].Merged? ==> s'.holder[r] == s.holder[r])
    requires forall r :: r in s.ends ==> r in s'.ends && s'.ends[r] == s.ends[r]
    requires s'.inviter.node.name == s.inviter.node.name
    ensures Later(s, s')
  {
    hide Onward;
    forall j | j in s.conns
      ensures Onward(s.conns[j].track, s'.conns[j].track)
    {
      OnwardSelf(s.conns[j].track);
    }
  }

  lemma InviteeLater(s: System, k: Socket, step: InviteeStep)
    requires Inv(s) && Typed(s) && Enabled(s, AtInvitee(k, step))
    ensures Later(s, Apply(s, AtInvitee(k, step)))
  {
    hide Inv, ConnInv, ViewOf, Connections, InviterFacts, InviterTallies, InviterPorts, Bones, TypedConn, CanAtInvitee;
    hide WellFormedController, Onward, DoAtInvitee, Down;
    InvConnections(s);
    Connection(s, k);
    ViewIncoming(s, k);
    InviteeStepKeeps(ViewOf(s, k), s.conns[k], step);
    OneTrack(s, Apply(s, AtInvitee(k, step)), k);
  }

  lemma AttachLater(s: System, h: nat, pipe: Text, l: Name, r: Name)
    requires Inv(s) && h in s.dispatchers && FreshPorts(s.inviter.node, l, r)
    ensures Later(s, AttachPipe(s, h, pipe, l, r))
  {
    hide ConnInv, NamesApart, InviterPorts, Reservations, InviterTallies, Bones, ViewOf, Connections;
    hide WellFormedController, CreatePair, Typed, InviterFacts, KeysUsed, WellFormed, Drawable, FreshPorts, AttachPipe;
    AttachPorts(s.inviter.node, s.ends, s.holder, Bones(s.conns), l, r, Attached(h, pipe));
    AttachShape(s, h, pipe, l, r);
    AttachTables(s, h, pipe, l, r);
    SameTracks(s, AttachPipe(s, h, pipe, l, r));
  }

  lemma ExtractLater(s: System, h: nat, x: Text)
    requires Inv(s) && h in s.dispatchers && x in s.dispatchers[h]
    ensures Later(s, ExtractLocally(s, h, x))
  {
    hide ConnInv, NamesApart, InviterPorts, InviterTallies, Bones, ViewOf, Connections;
    hide WellFormedController, Typed, InviterFacts, KeysUsed, HeldOf, ReservedOf, IsAt;
    assert Holds(s.holder, s.dispatchers[h][x], Attached(h, x));
    SameTracks(s, ExtractLocally(s, h, x));
  }

  lemma PreparedLater(s: System, step: Step)
    requires Typed(s) && Enabled(s, step)
    requires step.Connect? || step.Open? || step.Take? || step.TakeOver? || step.List?
    ensures Later(s, Apply(s, step))
  {
    hide WellFormedController, TypedConn, NewConn, Later;
    SameTracks(s, Apply(s, step));
  }

  lemma LaunchLater(s: System, k: Socket)
    requires k in s.conns && s.conns[k].stage.Listed?
    ensures Later(s, InviteStep(s, k))
  {
    hide Later;
    SameTracks(s, InviteStep(s, k));
  }

  lemma WriteLater(s: System, p: Name, data: Text)
    requires WellFormedController(s.inviter) && p in s.inviter.node.ports
    ensures Later(s, WriteAtInviter(s, p, data)) && Later(s, ReadAtInviter(s, p))
  {
    hide Later, WellFormedController;
    SameTracks(s, WriteAtInviter(s, p, data));
    SameTracks(s, ReadAtInviter(s, p));
  }

  lemma HearTakenLater(s: System, k: Socket)
    requires Inv(s) && s.io.AtRest? && k in s.conns && s.conns[k].stage.Joined?
    requires s.conns[k].takenUp < |Sent(s.conns[k].ctrl, k)|
    requires Sent(s.conns[k].ctrl, k)[s.conns[k].takenUp].RequestPortMerge?
    requires
      var m, b := Sent(s.conns[k].ctrl, k)[s.conns[k].takenUp], NameOf(s.conns[k]);
      b in s.inviter.reserved && m.pipe in s.inviter.reserved[b]
    ensures
      var m, b := Sent(s.conns[k].ctrl, k)[s.conns[k].takenUp], NameOf(s.conns[k]);
      var r := s.inviter.reserved[b][m.pipe];
      r in s.ends && Later(s, TakenSystem(s, k, m.connector, r, m.pipe))
  {
    hide Inv, Sent, Onward, Later, Mark, ConnInv, ViewOf, Connections, InviterFacts, InviterTallies, InviterPorts;
    hide Bones, Without, TakenSystem;
    var c, m := s.conns[k], Sent(s.conns[k].ctrl, k)[s.conns[k].takenUp];
    var r := s.inviter.reserved[NameOf(c)][m.pipe];
    InvConnections(s);
    Connection(s, k);
    AskedNext(ViewOf(s, k), c);
    HearTaken(s, k);
    ReservedFact(s, k, m.pipe);
    TakenParts(s, k, m.connector, r, m.pipe);
    MarkOnward(c.track, m.connector, Taken(r, s.ends[r]));
    OneTrack(s, TakenSystem(s, k, m.connector, r, m.pipe), k);
  }

  lemma HearRefusedLater(s: System, k: Socket)
    requires Inv(s) && k in s.conns && s.conns[k].takenUp < |Sent(s.conns[k].ctrl, k)|
    requires Sent(s.conns[k].ctrl, k)[s.conns[k].takenUp].RequestPortMerge?
    ensures Later(s, RefusedSystem(s, k, Sent(s.conns[k].ctrl, k)[s.conns[k].takenUp].connector))
  {
    hide Inv, Sent, Onward, Later, Mark, ConnInv, ViewOf, Connections, InviterFacts, InviterTallies, InviterPorts;
    hide Bones;
    var c, p := s.conns[k], Sent(s.conns[k].ctrl, k)[s.conns[k].takenUp].connector;
    InvConnections(s);
    Connection(s, k);
    AskedNext(ViewOf(s, k), c);
    MarkOnward(c.track, p, Refused);
    OneTrack(s, RefusedSystem(s, k, p), k);
  }

  lemma HearUserLater(s: System, k: Socket)
    requires Inv(s) && k in s.conns && s.conns[k].takenUp < |Sent(s.conns[k].ctrl, k)|
    requires Sent(s.conns[k].ctrl, k)[s.conns[k].takenUp].UserMessage? && WellFormed(s.inviter.node)
    ensures
      var m := Sent(s.conns[k].ctrl, k)[s.conns[k].takenUp];
      var r := Accept(s.inviter.node, m.to, m);
      r.Done? && Later(s, UserSystem(s, k, r.value))
  {
    hide Inv, Sent, Later, PortTable.Accept, SameBut, Sound;
    var m := Sent(s.conns[k].ctrl, k)[s.conns[k].takenUp];
    UserEndAt(s, k, s.conns[k].takenUp);
    AcceptExactly(s.inviter.node, m.to, m);
    var n := Accept(s.inviter.node, m.to, m).value;
    SameButFacts(s.inviter.node, n);
    SameTracks(s, UserSystem(s, k, n));
  }

  lemma HearLater(s: System, k: Socket)
    requires Inv(s) && s.io.AtRest? && k in s.conns && k in s.inviter.out
    requires s.conns[k].takenUp < |Up(s.conns[k], k)| && k in s.inviter.remote && WellFormedController(s.inviter)
    ensures Later(s, HearAtInviter(s, k, Up(s.conns[k], k)))
  {
    hide Inv, HearAtInviter, WellFormedController, TakeReserved, AcceptedSystem, RefusedSystem, TakenSystem, UserSystem;
    hide Sent, PortTable.Accept, Later;
    InviteeReads(s, k);
    var c, up := s.conns[k], Sent(s.conns[k].ctrl, k);
    var m := up[c.takenUp];
    if c.takenUp == 0 {
      AcceptedShape(s, k, up);
      AcceptedLater(s, k, c.stage.temp);
    } else if m.RequestPortMerge? {
      TakeFinds(s.inviter, NameOf(c), m.pipe);
      if NameOf(c) in s.inviter.reserved && m.pipe in s.inviter.reserved[NameOf(c)] {
        HearTakenLater(s, k);
        TakenShape(s, k, up);
      } else {
        HearRefusedLater(s, k);
        RefusedShape(s, k, up);
      }
    } else {
      HearUserLater(s, k);
      UserShape(s, k, up);
    }
  }

  lemma AcceptedLater(s: System, k: Socket, temp: Name)
    requires k in s.conns
    ensures Later(s, AcceptedSystem(s, k, temp))
  {
    hide Later;
    SameTracks(s, AcceptedSystem(s, k, temp));
  }

  lemma UserEndAt(s: System, k: Socket, i: nat)
    requires Inv(s) && k in s.conns && i < |Sent(s.conns[k].ctrl, k)| && Sent(s.conns[k].ctrl, k)[i].UserMessage?
    ensures Sent(s.conns[k].ctrl, k)[i].to in s.inviter.node.live && Sound(s.inviter.node)
  {
    hide Inv, Sound;
    UserEnd(s, k, Sent(s.conns[k].ctrl, k)[i]);
  }

  lemma AskedNext(v: View, c: Conn)
    requires ConnInv(v, c) && c.takenUp < |Sent(c.ctrl, v.k)| && Sent(c.ctrl, v.k)[c.takenUp].RequestPortMerge?
    ensures
      var p := Sent(c.ctrl, v.k)[c.takenUp].connector;
      p in c.track && c.track[p].state.Asked?
  {
    hide InviteePorts, UsersUp, UsersDown, TypedConn, SettledLater, InviteeSide, InviterSide, RequestPlaces, Tallies;
    hide Splices, Callers;
    NextRequest(c.ctrl.pendingMerges, Draining(c.io), Sent(c.ctrl, v.k), c.takenUp, Incoming(v)[c.takenDown..], c.track);
  }

  lemma ReservedFact(s: System, k: Socket, pipe: Text)
    requires Inv(s) && k in s.conns
    requires NameOf(s.conns[k]) in s.inviter.reserved && pipe in s.inviter.reserved[NameOf(s.conns[k])]
    ensures Holds(s.holder, s.inviter.reserved[NameOf(s.conns[k])][pipe], Reserved(k, pipe))
  {
    hide ConnInv, NamesApart, InviterPorts, InviterTallies, ViewOf, Connections;
    hide WellFormedController, Typed, InviterFacts, KeysUsed, HeldOf, IsAt;
    BonesKeys(s.conns);
    hide Bones;
    assert ReservedOf(s.inviter.reserved, s.holder, k, Bones(s.conns)[k]);
  }

  lemma IoLater(s: System, step: Step)
    requires Inv(s) && Typed(s) && Enabled(s, step) && OfIoThread(step)
    ensures Later(s, Apply(s, step))
  {
    hide Inv, WellFormedController, TypedConn, Later, RekeyStep, AdmitStep, FlushStep, MergeStep, RespondStep;
    match step
    case MergeBridge => MergeLater(s);
    case RespondTo => RespondLater(s);
    case RekeyPorts => RekeyLater(s);
    case AdmitInvitee => AdmitLater(s);
    case FlushWaiting => FlushLater(s);
  }

  lemma RekeyLater(s: System)
    requires s.io.ToRekey? && s.io.k in s.conns
    ensures Later(s, RekeyStep(s))
  {
    hide Later;
    SameTracks(s, RekeyStep(s));
  }

  lemma AdmitLater(s: System)
    requires s.io.ToAdmit? && s.io.k in s.conns && s.io.from in s.inviter.pendingInvitations
    requires WellFormedController(s.inviter)
    ensures Later(s, AdmitStep(s))
  {
    hide Later, WellFormedController;
    SameTracks(s, AdmitStep(s));
  }

  lemma FlushLater(s: System)
    requires s.io.ToFlush? && s.io.k in s.inviter.out
    ensures Later(s, FlushStep(s))
  {
    hide Later, FlushStep;
    FlushKeepsRest(s);
    SameTracks(s, FlushStep(s));
  }

  lemma FlushKeepsRest(s: System)
    requires s.io.ToFlush? && s.io.k in s.inviter.out
    ensures
      var s' := FlushStep(s);
      && s'.conns == s.conns && s'.holder == s.holder && s'.ends == s.ends
      && s'.inviter.node.name == s.inviter.node.name
  {
    hide WellFormedController;
  }

  lemma MergeLater(s: System)
    requires Inv(s) && s.io.ToMerge? && s.io.k in s.conns && s.io.port in s.inviter.node.ports
    requires WellFormedController(s.inviter)
    ensures Later(s, MergeStep(s))
  {
    hide Inv, WellFormedController, Onward, PortTable.MergePorts, Sound, EndsApart, LocalPair, BridgePeer, Splice;
    hide Later;
    MergeKnows(s);
    ChannelKeys(s.inviter);
    MergeKeepsName(s.inviter.node, s.io.port, s.io.from, s.io.connector);
    SpliceOnward(s.conns[s.io.k].track, s.io.connector);
    OneTrack(s, MergeStep(s), s.io.k);
  }

  lemma MergeKeepsName(n: Node, r: Name, node: Name, port: Name)
    requires WellFormed(n) && r in n.ports
    ensures PortTable.MergePorts(n, r, node, port).1.name == n.name
  {
  }

  lemma SpliceOnward(track: map<Name, Track>, p: Name)
    ensures Onward(track, Splice(track, p)) && Onward(track, AnswerTrack(track, p))
  {
  }

  lemma RespondLater(s: System)
    requires s.io.ToRespond? && s.io.k in s.conns && WellFormedController(s.inviter)
    ensures Later(s, RespondStep(s))
  {
    hide WellFormedController, Onward, AnswerTrack, Later, Splice, Send;
    SpliceOnward(s.conns[s.io.k].track, s.io.connector);
    OnwardSelf(s.conns[s.io.k].track);
    var r := Respond(s.inviter, s.io.from, s.io.connector, s.io.local);
    if r.Crash? {
      SameTracks(s, RespondStep(s));
    } else {
      RespondKeepsName(s.inviter, s.io.from, s.io.connector, s.io.local);
      OneTrack(s, RespondStep(s), s.io.k);
    }
  }

  lemma RespondKeepsName(c: Controller, from: Name, connector: Name, local: Name)
    requires WellFormedController(c) && Respond(c, from, connector, local).Done?
    ensures Respond(c, from, connector, local).value.node == c.node
  {
    hide WellFormedController;
  }

  lemma StepLater(s: System, step: Step)
    requires Inv(s) && Typed(s) && Enabled(s, step)
    ensures Later(s, Apply(s, step))
  {
    hide Inv, WellFormedController, TypedConn, CanAtInvitee, Later;
    hide AttachPipe, ExtractLocally, TakePorts, TakeAgain, ListPorts, InviteStep, WriteAtInviter, ReadAtInviter;
    match step
    case AtInvitee(k, st) => InviteeLater(s, k, st);
    case Attach(h, pipe, l, r) => AttachLater(s, h, pipe, l, r);
    case ExtractOwn(h, pipe) => ExtractLater(s, h, pipe);
    case Launch(k) => LaunchLater(s, k);
    case WriteOwn(p, data) => WriteLater(s, p, data);
    case ReadOwn(p) => WriteLater(s, p, []);
    case HearInvitee(k) => HearInviteeLater(s, k);
    case Connect(_, _) => PreparedLater(s, step);
    case Open(_) => PreparedLater(s, step);
    case Take(_, _, _) => PreparedLater(s, step);
    case TakeOver(_) => PreparedLater(s, step);
    case List(_) => PreparedLater(s, step);
    case _ => IoLater(s, step);
  }

  lemma HearInviteeLater(s: System, k: Socket)
    requires Inv(s) && Typed(s) && Enabled(s, HearInvitee(k))
    ensures Later(s, Apply(s, HearInvitee(k)))
  {
    hide Inv, WellFormedController, TypedConn, HearAtInviter, Later;
    ChannelKeys(s.inviter);
    HearLater(s, k);
  }

  lemma LaterTransitive(s: System, t: System, u: System)
    requires Later(s, t) && Later(t, u)
    ensures Later(s, u)
  {
    forall k | k in s.conns
      ensures k in u.conns && Onward(s.conns[k].track, u.conns[k].track)
    {
      OnwardTransitive(s.conns[k].track, t.conns[k].track, u.conns[k].track);
      hide Onward;
    }
  }

  lemma OnwardTransitive(t: map<Name, Track>, u: map<Name, Track>, w: map<Name, Track>)
    requires Onward(t, u) && Onward(u, w)
    ensures Onward(t, w)
  {
  }

  /** In every continuation of a run, what was merged stays merged: no port is merged twice, and no
      pairing changes. */
  lemma {:induction false} RunLater(a: Name, steps: seq<Step>, n: nat)
    requires a != NONE && n <= |steps| && Run(a, steps).Some?
    ensures Run(a, steps[..n]).Some? && Later(Run(a, steps[..n]).value, Run(a, steps).value)
  {
    hide Typed, Enabled, Apply, Inv, Later;
    if n == |steps| {
      assert steps[..n] == steps;
      LaterSelf(Run(a, steps).value);
    } else {
      var most := steps[..|steps| - 1];
      var before := Run(a, most);
      RunHolds(a, most);
      RunLater(a, most, n);
      assert most[..n] == steps[..n];
      StepLater(before.value, steps[|steps| - 1]);
      LaterTransitive(Run(a, steps[..n]).value, before.value, Run(a, steps).value);
    }
  }

  lemma LaterSelf(s: System)
    ensures Later(s, s)
  {
    hide Later;
    SameTracks(s, s);
  }

  /** A settled pairing is the same in every continuation of the run. */
  lemma PairingForever(a: Name, steps: seq<Step>, n: nat, k: Socket, p: Name, r: Name, l: Name)
    requires a != NONE && n <= |steps| && Run(a, steps).Some? && Run(a, steps[..n]).Some?
    requires SettledPipe(Run(a, steps[..n]).value, k, p, r, l)
    ensures SettledPipe(Run(a, steps).value, k, p, r, l)
  {
    hide Run;
    RunLater(a, steps, n);
  }

  // ------------------------------------------------------------------ attached ports

  /** The tables a port can be found in. */
  ghost predicate FoundAt(s: System, r: Name, place: Place) {
    match place
    case Attached(h, x) => h in s.dispatchers && x in s.dispatchers[h] && s.dispatchers[h][x] == r
    case Held(k, x) =>
      k in s.conns && s.conns[k].stage.Holding?
      && x in s.conns[k].stage.attached && s.conns[k].stage.attached[x] == r
    case Tokened(k, x) =>
      k in s.conns && !s.conns[k].stage.Connected? && Listing(s.inviter.reserved, s.conns[k].stage.temp, x, r)
    case Reserved(k, x) => k in s.conns && Listing(s.inviter.reserved, NameOf(s.conns[k]), x, r)
    case Merging(k, p) =>
      k in s.conns && s.io.ToMerge? && s.io.k == k && s.io.connector == p && s.io.port == r
    case Merged(k, p) =>
      k in s.conns && p in s.conns[k].track && MergedAtInviter(s.conns[k].track[p].state)
      && s.conns[k].track[p].state.bridge == r
    case Discarded => r in s.holder && s.holder[r].Discarded?
    case Extracted => r in s.holder && s.holder[r].Extracted?
  }

  lemma HolderIsFound(s: System, r: Name)
    requires Inv(s) && r in s.holder
    ensures FoundAt(s, r, s.holder[r])
  {
    hide ConnInv, NamesApart, InviterPorts, InviterTallies, ViewOf, Connections, HeldOf, ReservedOf, Mine, MyEnds;
    hide WellFormedController, Typed, InviterFacts, KeysUsed;
    BonesKeys(s.conns);
    hide Bones;
    assert IsAt(s.dispatchers, s.inviter.reserved, Bones(s.conns), r, s.holder[r]);
    if s.holder[r].Merging? || s.holder[r].Merged? {
      var k := s.holder[r].k;
      Connection(s, k);
      ViewDown(s, k);
      EndsKeys(s);
      MineMember(s.holder, s.ends, k, r);
      FoundSplice(ViewOf(s, k), s.conns[k], r);
    }
  }

  lemma EndsKeys(s: System)
    requires Inv(s)
    ensures s.ends.Keys == s.holder.Keys
  {
    hide ConnInv, NamesApart, Reservations, InviterTallies, ViewOf, Connections;
    hide WellFormedController, Typed, InviterFacts, KeysUsed, Sound, EndsApart;
  }

  lemma FoundSplice(v: View, c: Conn, r: Name)
    requires ConnInv(v, c) && r in v.mine
    ensures v.mine[r].connector in c.track && c.track[v.mine[r].connector].state.bridge == r
    ensures v.mine[r].Merging? ==> v.io.ToMerge? && v.io.connector == v.mine[r].connector && v.io.port == r
    ensures v.mine[r].Merged? ==> MergedAtInviter(c.track[v.mine[r].connector].state)
  {
    hide InviteePorts, Tallies, InviteeSide, InviterSide, UsersUp, UsersDown, Callers, RequestPlaces, TypedConn;
  }

  lemma FoundInConn(s: System, r: Name, place: Place)
    requires Inv(s) && FoundAt(s, r, place) && (place.Merging? || place.Merged?)
    ensures Holds(s.holder, r, place)
  {
    hide ConnInv, NamesApart, InviterPorts, Reservations, InviterTallies, ViewOf, Connections, Mine, MyEnds;
    hide WellFormedController, Typed, KeysUsed, InviterSide, Bones, LocalPair, Sound, EndsApart;
    if place.Merging? {
      MergeKnows(s);
    } else {
      Connection(s, place.k);
      ViewDown(s, place.k);
      BridgeOfConn(ViewOf(s, place.k), s.conns[place.k], place.connector);
      MineIs(s.holder, s.ends, place.k, r);
    }
  }

  lemma FoundIsHolder(s: System, r: Name, place: Place)
    requires Inv(s) && FoundAt(s, r, place)
    ensures Holds(s.holder, r, place)
  {
    hide ConnInv, NamesApart, InviterPorts, InviterTallies, ViewOf, Connections, IsAt;
    hide WellFormedController, Typed, InviterFacts, KeysUsed;
    BonesKeys(s.conns);
    hide Bones;
    if place.Merging? || place.Merged? {
      FoundInConn(s, r, place);
    } else if place.Tokened? || place.Reserved? {
      assert ReservedOf(s.inviter.reserved, s.holder, place.k, Bones(s.conns)[place.k]);
    } else if place.Held? {
      assert HeldOf(s.dispatchers, s.holder, place.k, s.conns[place.k].stage);
    }
  }

  /** Every attached port is in exactly one place: attached, taken for an invitation, reserved under a
      token, reserved under an invitee's name, being merged, merged, extracted by the inviter, or
      discarded because it was attached while the invitation was sent. */
  lemma PortInOnePlace(a: Name, s: System, r: Name, place: Place)
    requires a != NONE && Reachable(a, s) && r in s.holder
    ensures FoundAt(s, r, place) <==> place == s.holder[r]
  {
    hide Reachable, Inv, FoundAt;
    ReachableHolds(a, s);
    HolderIsFound(s, r);
    if FoundAt(s, r, place) {
      FoundIsHolder(s, r, place);
    }
  }

  /** Nothing is in those tables but attached ports. */
  lemma OnlyAttachedPorts(a: Name, s: System, r: Name, place: Place)
    requires a != NONE && Reachable(a, s) && FoundAt(s, r, place)
    ensures r in s.holder
  {
    hide Reachable, Inv, FoundAt;
    ReachableHolds(a, s);
    FoundIsHolder(s, r, place);
  }
}
