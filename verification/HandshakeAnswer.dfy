// The invitee becomes a peer; its ports are merged, and it is told.

module HandshakeAnswer {
  import opened Bytes
  import opened Names
  import opened Bodies
  import opened PortTable
  import opened Controllers
  import opened Handshake
  import opened HandshakeInvariant
  import opened HandshakeInvitee
  import opened HandshakeMessages
  import opened HandshakeInviteeSteps
  import opened HandshakeInviter
  import opened HandshakeInvitation
  import opened HandshakeLaunch
  import opened HandshakeHear
  import opened HandshakeMerge

  // ------------------------------------------------------------------ becoming a peer

  function AdmittedController(c: Controller, k: Socket, temp: Name, b: Name): Controller {
    c.(remote := c.remote[k := b], peers := c.peers[b := k], pendingInvitations := c.pendingInvitations - {temp})
  }

  function AdmittedSystem(s: System, k: Socket, temp: Name): System
    requires k in s.conns
  {
    var c := s.conns[k];
    s.(inviter := AdmittedController(s.inviter, k, temp, NameOf(c)),
       conns := s.conns[k := c.(stage := Joined(temp))], io := ToFlush(k, []))
  }

  lemma AdmitShape(s: System)
    requires s.io.ToAdmit? && s.io.k in s.conns && s.conns[s.io.k].stage == Admitting(s.io.from)
    requires WellFormedController(s.inviter) && Lookup(s.inviter.pendingInvitations, s.io.from) == Some(s.io.k)
    requires s.io.invitee == NameOf(s.conns[s.io.k]) && s.io.invitee !in s.inviter.peers && s.inviter.waiting == map[]
    ensures AdmitStep(s) == AdmittedSystem(s, s.io.k, s.io.from)
  {
    hide WellFormedController;
  }

  lemma AdmitWellFormed(c: Controller, k: Socket, temp: Name, b: Name)
    requires WellFormedController(c) && k in c.out
    ensures WellFormedController(AdmittedController(c, k, temp, b))
  {
    hide WellFormed;
  }

  lemma AdmitUsed(c: Controller, used: set<Name>, k: Socket, temp: Name, b: Name)
    requires KeysUsed(c, used) && b in used && b != NONE
    ensures KeysUsed(AdmittedController(c, k, temp, b), used)
  {
  }

  lemma AdmitTyped(s: System, k: Socket, temp: Name)
    requires Typed(s) && InviterFacts(s) && KeysUsed(s.inviter, s.used) && k in s.conns && k in s.inviter.out
    requires NameOf(s.conns[k]) in s.used && NameOf(s.conns[k]) != NONE
    ensures
      var s' := AdmittedSystem(s, k, temp);
      Typed(s') && InviterFacts(s') && KeysUsed(s'.inviter, s'.used)
  {
    hide TypedConn, WellFormedController, KeysUsed;
    AdmitWellFormed(s.inviter, k, temp, NameOf(s.conns[k]));
    AdmitUsed(s.inviter, s.used, k, temp, NameOf(s.conns[k]));
  }

  lemma AdmitViews(s: System, k: Socket, temp: Name, j: Socket)
    requires k in s.conns && j in s.conns && TempOf(s.conns[k]) == temp && !s.io.AtRest? && s.io.k == k
    requires j != k ==> TempOf(s.conns[j]) != temp && NameOf(s.conns[j]) != NameOf(s.conns[k])
    ensures
      var b := NameOf(s.conns[k]);
      ViewOf(AdmittedSystem(s, k, temp), j)
      == if j == k then
           ViewOf(s, k).(remote := Some(b), peerAt := Some(k), pendingAt := None, io := ToFlush(k, []))
         else ViewOf(s, j)
  {
    hide Mine, MyEnds;
  }

  lemma AdmittedSide(v: View, v': View, temp: Name, b: Name, takenUp: nat)
    requires InviterSide(v, Admitting(temp), b, takenUp)
    requires v' == v.(remote := Some(b), peerAt := Some(v.k), pendingAt := None, io := ToFlush(v.k, []))
    ensures InviterSide(v', Joined(temp), b, takenUp)
  {
  }

  lemma AdmitConn(v: View, c: Conn)
    requires ConnInv(v, c) && c.stage.Admitting? && v.io.ToAdmit?
    ensures
      var v' := v.(remote := Some(NameOf(c)), peerAt := Some(v.k), pendingAt := None, io := ToFlush(v.k, []));
      ConnInv(v', c.(stage := Joined(c.stage.temp)))
  {
    hide InviteePorts, UsersUp, UsersDown, TypedConn, SettledLater, InviteeSide, InviterSide, RequestPlaces, Tallies;
    hide Splices, Callers;
    var v' := v.(remote := Some(NameOf(c)), peerAt := Some(v.k), pendingAt := None, io := ToFlush(v.k, []));
    ConnSide(v, c);
    AdmittedSide(v, v', c.stage.temp, NameOf(c), c.takenUp);
    LaunchSide(v, v', c.ctrl, c.io, c.takenDown, c.takenUp, c.stage.temp);
    IdleSplices(v, v', NameOf(c), c.track, c.callers, c.lock, CanFind(c.io, c.takenDown), HasSwapped(c.io, c.takenDown));
  }

  lemma AdmitParts(s: System, k: Socket, temp: Name)
    requires k in s.conns
    ensures
      var s', c := AdmittedSystem(s, k, temp), s.conns[k];
      && s'.conns == s.conns[k := c.(stage := Joined(temp))]
      && s'.inviter.node == s.inviter.node && s'.inviter.out == s.inviter.out
      && s'.inviter.reserved == s.inviter.reserved
      && s'.holder == s.holder && s'.ends == s.ends && s'.dispatchers == s.dispatchers && s'.used == s.used
      && s'.written == s.written && s'.read == s.read
  {
  }

  lemma AdmitConnections(s: System, k: Socket, temp: Name)
    requires Connections(s) && k in s.conns && s.conns[k].stage == Admitting(temp)
    requires NamesApart(s.inviter.node.name, s.used, Bones(s.conns)) && !s.io.AtRest? && s.io.k == k && s.io.ToAdmit?
    ensures Connections(AdmittedSystem(s, k, temp))
  {
    hide ConnInv, ViewOf, Connections, AdmittedSystem, NamesApart, Bones;
    AdmitParts(s, k, temp);
    Connection(s, k);
    ViewDown(s, k);
    AdmitConn(ViewOf(s, k), s.conns[k]);
    BonesKeys(s.conns);
    TokenUsed(s.inviter.node.name, s.used, Bones(s.conns), k);
    AdmitViews(s, k, temp, k);
    forall j | j in s.conns && j != k
      ensures ViewOf(AdmittedSystem(s, k, temp), j) == ViewOf(s, j)
    {
      TokenOfOne2(s.inviter.node.name, s.used, Bones(s.conns), k, j);
      AdmitViews(s, k, temp, j);
    }
    AllConnections(s, AdmittedSystem(s, k, temp), k);
  }

  lemma SameMoved(holder: map<Name, Place>)
    ensures MovedPlainly(holder, holder)
  {
  }

  lemma AdmittedKeeps(s: System, k: Socket)
    requires Inv(s) && s.io.ToAdmit? && s.io.k == k && k in s.conns && s.conns[k].stage.Admitting? && k in s.inviter.out
    ensures Inv(AdmittedSystem(s, k, s.conns[k].stage.temp))
  {
    hide ConnInv, NamesApart, InviterPorts, Reservations, InviterTallies, Bones, ViewOf, WellFormedController;
    hide Connections, InviterFacts, KeysUsed, TypedConn, AdmittedSystem, MovedPlainly, Typed;
    var temp, bones := s.conns[k].stage.temp, Bones(s.conns);
    var s' := AdmittedSystem(s, k, temp);
    BonesKeys(s.conns);
    AdmitParts(s, k, temp);
    NameUsed(s.inviter.node.name, s.used, bones, k);
    AdmitTyped(s, k, temp);
    SameMoved(s.holder);
    StageTallies(s, s', k);
    StageBones(s.conns, k, Joined(temp));
    SameNames(s.inviter.node.name, s.used, bones, k, Joined(temp));
    NewBonePorts(s.inviter.node, s.ends, s.holder, bones, k, bones[k].(stage := Joined(temp)));
    SameReservations(s.dispatchers, s.inviter.reserved, s.holder, bones, k, Joined(temp));
    AdmitConnections(s, k, temp);
  }

  lemma AdmitKeeps(s: System)
    requires Inv(s) && s.io.ToAdmit? && s.io.k in s.conns && s.io.from in s.inviter.pendingInvitations
    requires WellFormedController(s.inviter)
    ensures Inv(AdmitStep(s))
  {
    hide ConnInv, NamesApart, InviterPorts, Reservations, InviterTallies, Bones, ViewOf, WellFormedController;
    hide Connections, KeysUsed, TypedConn, AdmittedSystem, AdmitStep, InviterSide;
    var k, c := s.io.k, s.conns[s.io.k];
    Busy(s);
    BusySide(ViewOf(s, k), c.stage, NameOf(c), c.takenUp);
    PendingOf(s, k);
    ViewDown(s, k);
    AdmitShape(s);
    AdmittedKeeps(s, k);
  }

  // ------------------------------------------------------------------ no waiting messages

  lemma FlushViews(s: System, j: Socket)
    requires s.io.ToFlush? && j in s.conns && s.io.k in s.conns
    ensures
      ViewOf(s.(io := AtRest), j) == if j == s.io.k then ViewOf(s, j).(io := AtRest) else ViewOf(s, j)
  {
    hide Mine, MyEnds;
  }

  lemma RestSide(v: View, v': View, stage: Stage, b: Name, takenUp: nat)
    requires InviterSide(v, stage, b, takenUp) && stage.Joined? && v' == v.(io := AtRest)
    ensures InviterSide(v', stage, b, takenUp)
  {
  }

  lemma RestConn(v: View, c: Conn)
    requires ConnInv(v, c) && c.stage.Joined? && NotMerging(v.io)
    ensures ConnInv(v.(io := AtRest), c)
  {
    hide InviteePorts, UsersUp, UsersDown, TypedConn, SettledLater, InviteeSide, InviterSide, RequestPlaces, Tallies;
    hide Splices, Callers;
    var v' := v.(io := AtRest);
    ConnSide(v, c);
    RestSide(v, v', c.stage, NameOf(c), c.takenUp);
    LaunchSide(v, v', c.ctrl, c.io, c.takenDown, c.takenUp, TempOf(c));
    IdleSplices(v, v', NameOf(c), c.track, c.callers, c.lock, CanFind(c.io, c.takenDown), HasSwapped(c.io, c.takenDown));
  }

  lemma FlushKeeps(s: System)
    requires Inv(s) && s.io.ToFlush? && s.io.k in s.inviter.out
    ensures Inv(FlushStep(s))
  {
    hide ConnInv, NamesApart, InviterPorts, Reservations, InviterTallies, Bones, ViewOf, WellFormedController;
    hide Connections, KeysUsed, TypedConn, InviterSide;
    var k := s.io.k;
    Busy(s);
    BusySide(ViewOf(s, k), s.conns[k].stage, NameOf(s.conns[k]), s.conns[k].takenUp);
    var s' := s.(io := AtRest);
    assert FlushStep(s) == s';
    SameTallies(s, s');
    RestConn(ViewOf(s, k), s.conns[k]);
    forall j | j in s.conns
      ensures ViewOf(s', j) == if j == k then ViewOf(s, j).(io := AtRest) else ViewOf(s, j)
    {
      FlushViews(s, j);
    }
    AllConnections(s, s', k);
  }

  // ------------------------------------------------------------------ merging

  function MergedSystem(s: System, k: Socket, p: Name, r: Name, n: Node): System
    requires k in s.conns && r in s.ends
  {
    var c, b := s.conns[k], NameOf(s.conns[k]);
    s.(inviter := s.inviter.(node := n), conns := s.conns[k := c.(track := Mark(c.track, p, Spliced(r, s.ends[r])))],
       io := ToRespond(k, b, p, s.ends[r]), holder := s.holder[r := Merged(k, p)])
  }

  lemma MergeShape(s: System)
    requires s.io.ToMerge? && s.io.k in s.conns && s.io.port in s.inviter.node.ports && s.io.port in s.ends
    requires WellFormedController(s.inviter) && s.io.from == NameOf(s.conns[s.io.k])
    requires BridgePeer(s.inviter.node, s.io.port) == s.ends[s.io.port]
    requires s.io.connector in s.conns[s.io.k].track
    requires s.conns[s.io.k].track[s.io.connector].state == Taken(s.io.port, s.ends[s.io.port])
    ensures
      MergeStep(s) == MergedSystem(s, s.io.k, s.io.connector, s.io.port,
                                   MergePorts(s.inviter.node, s.io.port, s.io.from, s.io.connector).1)
  {
    hide WellFormedController, PortTable.MergePorts, BridgePeer;
  }

  lemma MergedSplices(v: View, b: Name, track: map<Name, Track>, p: Name, r: Name)
    requires Splices(v, b, track) && v.io == ToMerge(v.k, b, p, r)
    ensures p in track && track[p].state.Taken? && track[p].state.bridge == r
    ensures
      var l := track[p].state.local;
      && r in v.mine && r in v.ends && v.ends[r] == l && v.mine[r] == Merging(v.k, p) && l != NONE
      && Splices(v.(io := ToRespond(v.k, b, p, l), mine := v.mine[r := Merged(v.k, p)], ends := v.ends[r := l]), b,
                 Mark(track, p, Spliced(r, l)))
  {
  }

  lemma SplicedPlaces(pending: seq<Merge>, draining: seq<Merge>, up: seq<Body>, down: seq<Body>,
                      track: map<Name, Track>, p: Name, st: MergeState)
    requires RequestPlaces(pending, draining, up, down, track) && p in track && track[p].state.Taken? && st.Spliced?
    ensures RequestPlaces(pending, draining, up, down, Mark(track, p, st))
  {
    hide InState, AnsweredIn, Requests, Answers, Mark;
    MarkMoves(track, p, st);
    MarkKeepsAnswered(track, p, st);
  }

  lemma SplicedRest(v: View, v': View, track: map<Name, Track>, p: Name, st: MergeState, up: seq<Body>,
                    down: seq<Body>, takenDown: nat, callers: map<Name, Caller>, lock: Option<Name>, canFind: bool,
                    hasSwapped: bool)
    requires p in track && track[p].state.Taken? && v'.a == v.a && v'.k == v.k
    requires st == Spliced(track[p].state.bridge, track[p].state.local)
    requires UsersUp(up, track) && UsersDown(down, track) && SettledLater(track, takenDown)
    requires Callers(v, callers, lock, track, canFind, hasSwapped)
    ensures
      var t := Mark(track, p, st);
      && UsersUp(up, t) && UsersDown(down, t) && SettledLater(t, takenDown) && t.Keys == track.Keys
      && Callers(v', callers, lock, t, canFind, hasSwapped)
  {
  }

  lemma MergeConn(v: View, c: Conn, p: Name, r: Name)
    requires ConnInv(v, c) && c.stage.Joined? && v.io == ToMerge(v.k, NameOf(c), p, r) && r in v.ends
    ensures
      var l := v.ends[r];
      var v' := v.(io := ToRespond(v.k, NameOf(c), p, l), mine := v.mine[r := Merged(v.k, p)], ends := v.ends[r := l]);
      ConnInv(v', c.(track := Mark(c.track, p, Spliced(r, l))))
  {
    hide InviteePorts, UsersUp, UsersDown, TypedConn, SettledLater, InviteeSide, InviterSide, RequestPlaces, Tallies;
    hide Splices, Callers, Mark;
    var up, down, l := Sent(c.ctrl, v.k), Incoming(v), v.ends[r];
    var v' := v.(io := ToRespond(v.k, NameOf(c), p, l), mine := v.mine[r := Merged(v.k, p)], ends := v.ends[r := l]);
    MergedSplices(v, NameOf(c), c.track, p, r);
    ConnSide(v, c);
    SplicedSide(v, v', c.stage, NameOf(c), c.takenUp);
    LaunchSide(v, v', c.ctrl, c.io, c.takenDown, c.takenUp, TempOf(c));
    SplicedPlaces(c.ctrl.pendingMerges, Draining(c.io), up[c.takenUp..], down[c.takenDown..], c.track, p, Spliced(r, l));
    TakenPorts(c.ctrl.node, v.a, c.track, p, Spliced(r, l));
    SplicedRest(v, v', c.track, p, Spliced(r, l), up, down, c.takenDown, c.callers, c.lock,
                CanFind(c.io, c.takenDown), HasSwapped(c.io, c.takenDown));
  }

  lemma SplicedSide(v: View, v': View, stage: Stage, b: Name, takenUp: nat)
    requires InviterSide(v, stage, b, takenUp) && stage.Joined?
    requires v' == v.(io := v'.io, mine := v'.mine, ends := v'.ends) && v'.io.ToRespond? && v'.io.from == b
    ensures InviterSide(v', stage, b, takenUp)
  {
  }

  /** The ends of the inviter's pipes after one of them was spliced. */
  lemma SplicedEnds(n: Node, n': Node, ends: map<Name, Name>, holder: map<Name, Place>, bones: map<Socket, Bone>,
                    k: Socket, p: Name, r: Name)
    requires InviterPorts(n, ends, holder, bones) && r in ends && holder[r] == Merging(k, p) && k in bones
    requires Sound(n') && n'.name == n.name && n'.live == n.live - {r}
    requires HasPeer(n', ends[r], bones[k].name, p) && n'.ports == n.ports[ends[r] := n'.ports[ends[r]]]
    ensures InviterPorts(n', ends, holder[r := Merged(k, p)], bones)
  {
    hide Sound;
    assert EndOk(n, r, ends[r], holder[r], bones);
    forall q | q in ends
      ensures EndOk(n', q, ends[q], holder[r := Merged(k, p)][q], bones)
    {
      assert EndOk(n, q, ends[q], holder[q], bones);
      EndsDiffer(ends, r, q);
      hide EndsApart;
    }
  }

  lemma EndsDiffer(ends: map<Name, Name>, r: Name, q: Name)
    requires EndsApart(ends) && r in ends && q in ends
    ensures ends[q] != r && ends[r] != q && (q != r ==> ends[q] != ends[r])
  {
  }

  lemma MergedReservations(dispatchers: Dispatchers, reserved: ReservedPorts, holder: map<Name, Place>,
                           bones: map<Socket, Bone>, k: Socket, p: Name, r: Name)
    requires Reservations(dispatchers, reserved, holder, bones) && r in holder && holder[r] == Merging(k, p)
    ensures Reservations(dispatchers, reserved, holder[r := Merged(k, p)], bones)
  {
    var holder' := holder[r := Merged(k, p)];
    forall q | q in holder'
      ensures IsAt(dispatchers, reserved, bones, q, holder'[q])
    {
      assert IsAt(dispatchers, reserved, bones, q, holder[q]);
    }
    hide IsAt;
    forall j | j in bones
      ensures HeldOf(dispatchers, holder', j, bones[j].stage) && ReservedOf(reserved, holder', j, bones[j])
    {
      assert HeldOf(dispatchers, holder, j, bones[j].stage) && ReservedOf(reserved, holder, j, bones[j]);
    }
    hide HeldOf, ReservedOf;
    forall g, y | g in dispatchers && y in dispatchers[g]
      ensures Holds(holder', dispatchers[g][y], Attached(g, y))
    {
      assert Holds(holder, dispatchers[g][y], Attached(g, y));
    }
  }

  /** Before it was merged no message went to or from the local end over the invitee's channel. */
  lemma NoMessagesYet(v: View, c: Conn, r: Name)
    requires ConnInv(v, c) && r in v.mine && r in v.ends && v.mine[r].Merging?
    requires forall q, w :: q in v.ends && w in v.ends && q != w ==> v.ends[q] != v.ends[w]
    ensures UsersFrom(Incoming(v), v.ends[r]) == multiset{}
    ensures forall n :: 0 <= n <= |Sent(c.ctrl, v.k)| ==> UsersTo(Sent(c.ctrl, v.k)[..n], v.ends[r]) == multiset{}
  {
    hide InviteePorts, Tallies, InviteeSide, InviterSide, Callers, RequestPlaces, TypedConn, SettledLater, Sent;
    hide UsersTo, UsersFrom;
    var l, up := v.ends[r], Sent(c.ctrl, v.k);
    forall m | m in Incoming(v) && m.UserMessage?
      ensures m.from != l
    {
      assert MergedAtInviter(c.track[m.to].state) && c.track[m.to].state.local == m.from;
    }
    NoUsers(Incoming(v), l);
    forall n | 0 <= n <= |up|
      ensures UsersTo(up[..n], l) == multiset{}
    {
      forall m | m in up[..n] && m.UserMessage?
        ensures m.to != l
      {
        assert m in up;
        assert c.track[m.from].state.Settled? && c.track[m.from].state.local == m.to;
      }
      NoUsers(up[..n], l);
    }
  }

  lemma MergeTallies(s: System, k: Socket, p: Name, r: Name, n: Node)
    requires InviterTallies(s) && k in s.conns && r in s.ends && r in s.holder && s.holder[r].Merging?
    requires n.ports.Keys == s.inviter.node.ports.Keys
    requires forall q :: q in n.ports ==> n.ports[q].queue == s.inviter.node.ports[q].queue
    requires UsersFrom(Down(s, k), s.ends[r]) == multiset{}
    requires UsersTo(HeardFrom(s.conns[k], k), s.ends[r]) == multiset{}
    ensures InviterTallies(MergedSystem(s, k, p, r, n))
  {
    hide UsersTo, UsersFrom, Count, HeardFrom, EndTally, Mark;
    var s' := MergedSystem(s, k, p, r, n);
    forall q | q in s'.ends && q in s'.holder
      ensures EndTally(s', s'.ends[q], s'.holder[q])
    {
      TallyPort(s, q);
      MergeTally(s, k, p, r, n, q);
    }
  }

  lemma MergeTally(s: System, k: Socket, p: Name, r: Name, n: Node, q: Name)
    requires k in s.conns && r in s.ends && r in s.holder && s.holder[r].Merging? && q in s.ends && q in s.holder
    requires EndTally(s, s.ends[q], s.holder[q]) && n.ports.Keys == s.inviter.node.ports.Keys
    requires forall w :: w in n.ports ==> n.ports[w].queue == s.inviter.node.ports[w].queue
    requires UsersFrom(Down(s, k), s.ends[r]) == multiset{}
    requires UsersTo(HeardFrom(s.conns[k], k), s.ends[r]) == multiset{}
    ensures EndTally(MergedSystem(s, k, p, r, n), s.ends[q], s.holder[r := Merged(k, p)][q])
  {
    hide UsersTo, UsersFrom, Count, HeardFrom, Mark, Down;
    var s' := MergedSystem(s, k, p, r, n);
    SameDown(s, s', s.holder[q]);
    SameDown(s, s', Merged(k, p));
    SameHeard(s'.conns[k], s.conns[k], k);
  }

  lemma MergeTyped(s: System, k: Socket, p: Name, r: Name, n: Node)
    requires Typed(s) && InviterFacts(s) && KeysUsed(s.inviter, s.used) && k in s.conns && r in s.ends
    requires WellFormed(n) && n.ports.Keys == s.inviter.node.ports.Keys
    ensures
      var s' := MergedSystem(s, k, p, r, n);
      Typed(s') && InviterFacts(s') && KeysUsed(s'.inviter, s'.used)
  {
    hide TypedConn, WellFormedController, WellFormed, Mark;
    NodeTyped(s, n);
  }

  lemma MergeViews(s: System, k: Socket, p: Name, r: Name, n: Node, j: Socket)
    requires k in s.conns && r in s.ends && r in s.holder && s.holder[r] == Merging(k, p) && j in s.conns
    requires !s.io.AtRest? && s.io.k == k && n.name == s.inviter.node.name
    ensures
      var v := ViewOf(s, k);
      ViewOf(MergedSystem(s, k, p, r, n), j)
      == if j == k then v.(io := ToRespond(k, NameOf(s.conns[k]), p, s.ends[r]), mine := v.mine[r := Merged(k, p)],
                           ends := v.ends[r := s.ends[r]])
         else ViewOf(s, j)
  {
    hide Mine, MyEnds, Mark;
    if j == k {
      MineAdd(s.holder, s.ends, k, r, Merged(k, p));
    } else {
      MineOther(s.holder, s.ends, j, r, Merged(k, p));
    }
  }

  lemma MergeParts(s: System, k: Socket, p: Name, r: Name, n: Node)
    requires k in s.conns && r in s.ends
    ensures
      var s', c := MergedSystem(s, k, p, r, n), s.conns[k];
      && s'.conns == s.conns[k := c.(track := Mark(c.track, p, Spliced(r, s.ends[r])))]
      && s'.inviter == s.inviter.(node := n) && s'.ends == s.ends && s'.holder == s.holder[r := Merged(k, p)]
      && s'.dispatchers == s.dispatchers && s'.used == s.used
  {
    hide Mark;
  }

  /** What is known when a port is about to be merged. */
  lemma MergeKnows(s: System)
    requires Inv(s) && s.io.ToMerge?
    ensures s.io.k in s.conns && s.io.port in s.ends && s.io.port in s.holder
    ensures s.holder[s.io.port] == Merging(s.io.k, s.io.connector)
    ensures
      var c, r := s.conns[s.io.k], s.io.port;
      && s.io.from == NameOf(c) && NameOf(c) != s.inviter.node.name && c.stage.Joined?
      && s.io.connector in c.track && c.track[s.io.connector].state == Taken(r, s.ends[r])
      && LocalPair(s.inviter.node, r, s.ends[r]) && Sound(s.inviter.node) && EndsApart(s.ends)
  {
    hide ConnInv, NamesApart, Reservations, InviterTallies, WellFormedController, Connections;
    hide KeysUsed, TypedConn, Typed, ViewOf, Sound, EndsApart, Mine, MyEnds, Bones, InviterSide, LocalPair;
    var k, c, v := s.io.k, s.conns[s.io.k], ViewOf(s, s.io.k);
    Busy(s);
    BusySide(v, c.stage, NameOf(c), c.takenUp);
    ViewDown(s, k);
    ConnSplices(v, c);
    MergedSplices(v, NameOf(c), c.track, s.io.connector, s.io.port);
    MineIs(s.holder, s.ends, k, s.io.port);
    assert EndOk(s.inviter.node, s.io.port, s.ends[s.io.port], s.holder[s.io.port], Bones(s.conns));
  }

  lemma ConnSplices(v: View, c: Conn)
    requires ConnInv(v, c)
    ensures Splices(v, NameOf(c), c.track)
  {
    hide InviteePorts, Tallies, InviteeSide, InviterSide, Splices, UsersUp, UsersDown, Callers, RequestPlaces;
  }

  lemma EndsOfConn(ends: map<Name, Name>, holder: map<Name, Place>, k: Socket)
    requires EndsApart(ends)
    ensures
      var mine := MyEnds(holder, ends, k);
      forall q, w :: q in mine && w in mine && q != w ==> mine[q] != mine[w]
  {
  }

  lemma MergeConnections(s: System, k: Socket, p: Name, r: Name, n: Node)
    requires Connections(s) && k in s.conns && s.io == ToMerge(k, NameOf(s.conns[k]), p, r)
    requires s.conns[k].stage.Joined? && r in s.ends && r in s.holder && s.holder[r] == Merging(k, p)
    requires n.name == s.inviter.node.name
    ensures Connections(MergedSystem(s, k, p, r, n))
  {
    hide ConnInv, ViewOf, Connections, MergedSystem, Mark, Mine, MyEnds;
    MergeParts(s, k, p, r, n);
    Connection(s, k);
    ViewDown(s, k);
    MineMember(s.holder, s.ends, k, r);
    MergeConn(ViewOf(s, k), s.conns[k], p, r);
    MergeViews(s, k, p, r, n, k);
    forall j | j in s.conns && j != k
      ensures ViewOf(MergedSystem(s, k, p, r, n), j) == ViewOf(s, j)
    {
      MergeViews(s, k, p, r, n, j);
    }
    AllConnections(s, MergedSystem(s, k, p, r, n), k);
  }

  lemma MergeQuiet(s: System, k: Socket, r: Name)
    requires Connections(s) && k in s.conns && r in s.ends && r in s.holder && s.holder[r].Merging?
    requires s.holder[r].k == k && EndsApart(s.ends)
    ensures UsersFrom(Down(s, k), s.ends[r]) == multiset{}
    ensures UsersTo(HeardFrom(s.conns[k], k), s.ends[r]) == multiset{}
  {
    hide ConnInv, ViewOf, Connections, Mine, MyEnds, UsersTo, UsersFrom, EndsApart, Down, Sent;
    Connection(s, k);
    ViewDown(s, k);
    ViewIncoming(s, k);
    MineMember(s.holder, s.ends, k, r);
    EndsOfConn(s.ends, s.holder, k);
    NoMessagesYet(ViewOf(s, k), s.conns[k], r);
    assert UsersTo([], s.ends[r]) == multiset{} by { NoUsers([], s.ends[r]); }
  }

  lemma MergeKeeps(s: System)
    requires Inv(s) && s.io.ToMerge? && s.io.k in s.conns && s.io.port in s.inviter.node.ports
    requires WellFormedController(s.inviter)
    ensures Inv(MergeStep(s))
  {
    hide Inv, MergeStep, MergedSystem, WellFormedController, PortTable.MergePorts, LocalPair, Sound, BridgePeer;
    hide EndsApart;
    MergeKnows(s);
    var k, c, r, p := s.io.k, s.conns[s.io.k], s.io.port, s.io.connector;
    ChannelKeys(s.inviter);
    LocalNames(s.inviter.node, r, s.ends[r]);
    MergeTarget(s);
    MergeSplicesPair(s.inviter.node, r, s.ends[r], NameOf(c), p);
    MergeShape(s);
    MergedKeeps(s, MergePorts(s.inviter.node, r, NameOf(c), p).1);
  }

  lemma LocalNames(n: Node, p: Name, q: Name)
    requires LocalPair(n, p, q)
    ensures p in n.ports && q in n.ports && p != NONE && q != NONE && p != q
  {
  }

  /** The port to face is a port of the invitee, so it has a name. */
  lemma MergeTarget(s: System)
    requires Inv(s) && s.io.ToMerge?
    ensures s.io.connector != NONE
  {
    hide ConnInv, NamesApart, Reservations, InviterTallies, WellFormedController, Connections, InviterPorts;
    hide KeysUsed, TypedConn, Typed, ViewOf, Mine, MyEnds, Bones, InviterSide;
    MergeKnows(s);
    Busy(s);
    TrackedName(ViewOf(s, s.io.k), s.conns[s.io.k], s.io.connector);
  }

  lemma TrackedName(v: View, c: Conn, p: Name)
    requires ConnInv(v, c) && p in c.track
    ensures p != NONE
  {
    hide Tallies, InviteeSide, InviterSide, Splices, UsersUp, UsersDown, Callers, RequestPlaces, Sound, Apart;
    assert PairOrSpliced(c.ctrl.node, v.a, p, c.track[p]);
  }

  lemma MergedKeeps(s: System, n: Node)
    requires Inv(s) && s.io.ToMerge? && s.io.k in s.conns && s.io.port in s.ends
    requires Sound(n) && n.name == s.inviter.node.name && n.live == s.inviter.node.live - {s.io.port}
    requires HasPeer(n, s.ends[s.io.port], NameOf(s.conns[s.io.k]), s.io.connector)
    requires s.ends[s.io.port] in s.inviter.node.ports
    requires n.ports == s.inviter.node.ports[s.ends[s.io.port] := s.inviter.node.ports[s.ends[s.io.port]]
                          .(peerNode := NameOf(s.conns[s.io.k]), peerPort := s.io.connector)]
    ensures Inv(MergedSystem(s, s.io.k, s.io.connector, s.io.port, n))
  {
    hide ConnInv, NamesApart, InviterPorts, Reservations, InviterTallies, Bones, ViewOf, WellFormedController;
    hide Connections, InviterFacts, KeysUsed, TypedConn, Typed, Mark, MergedSystem, EndsApart, Sound, LocalPair;
    hide UsersTo, UsersFrom, HeardFrom, Down;
    var k, p, r := s.io.k, s.io.connector, s.io.port;
    MergeKnows(s);
    MergeParts(s, k, p, r, n);
    BonesKeys(s.conns);
    SoundIsWellFormed(n);
    SplicedEnds(s.inviter.node, n, s.ends, s.holder, Bones(s.conns), k, p, r);
    MergedReservations(s.dispatchers, s.inviter.reserved, s.holder, Bones(s.conns), k, p, r);
    MergeQuiet(s, k, r);
    MergeTallies(s, k, p, r, n);
    MergeTyped(s, k, p, r, n);
    SameBones(s.conns, k, MergedSystem(s, k, p, r, n).conns[k]);
    MergeConnections(s, k, p, r, n);
  }

  // ------------------------------------------------------------------ answering

  function AnsweredSystem(s: System, k: Socket, p: Name, r: Name, l: Name): System
    requires k in s.conns && k in s.inviter.out
  {
    var c := s.conns[k];
    s.(inviter := Send(s.inviter, k, ResponsePortMerge(p, l)),
       conns := s.conns[k := c.(track := Mark(c.track, p, Answered(r, l)))], io := AtRest)
  }

  lemma RespondShape(s: System)
    requires s.io.ToRespond? && s.io.k in s.conns && WellFormedController(s.inviter) && s.io.k in s.inviter.out
    requires Lookup(s.inviter.peers, s.io.from) == Some(s.io.k) && s.io.connector in s.conns[s.io.k].track
    requires s.conns[s.io.k].track[s.io.connector].state.Spliced?
    requires s.conns[s.io.k].track[s.io.connector].state.local == s.io.local
    ensures
      var bridge := s.conns[s.io.k].track[s.io.connector].state.bridge;
      RespondStep(s) == AnsweredSystem(s, s.io.k, s.io.connector, bridge, s.io.local)
  {
    hide WellFormedController, Send;
  }

  lemma AnsweredPlaces(pending: seq<Merge>, draining: seq<Merge>, up: seq<Body>, down: seq<Body>,
                       track: map<Name, Track>, p: Name)
    requires RequestPlaces(pending, draining, up, down, track) && p in track && track[p].state.Spliced?
    ensures
      var st := track[p].state;
      RequestPlaces(pending, draining, up, down + [ResponsePortMerge(p, st.local)],
                    Mark(track, p, Answered(st.bridge, st.local)))
  {
    var st := track[p].state;
    var e, t := (p, st.local), Mark(track, p, Answered(st.bridge, st.local));
    AnswersAppend(down, ResponsePortMerge(p, st.local));
    AnswerOf(ResponsePortMerge(p, st.local), e);
    MarkAnswered(track, p, st.bridge, st.local);
    MarkMoves(track, p, Answered(st.bridge, st.local));
    hide InState, AnsweredIn, Requests, Answers, Mark;
    AddOne(AnsweredIn(track), e);
  }

  lemma AddOne<T>(all: set<T>, e: T)
    requires e !in all
    ensures multiset(all + {e}) == multiset(all) + multiset{e}
  {
  }

  lemma MarkAnswered(track: map<Name, Track>, p: Name, r: Name, l: Name)
    requires p in track && !track[p].state.Answered?
    ensures AnsweredIn(Mark(track, p, Answered(r, l))) == AnsweredIn(track) + {(p, l)} && (p, l) !in AnsweredIn(track)
  {
    var t := Mark(track, p, Answered(r, l));
    AnsweredMember(track, (p, l));
    forall x
      ensures x in AnsweredIn(t) <==> x in AnsweredIn(track) + {(p, l)}
    {
      AnsweredMember(track, x);
      AnsweredMember(t, x);
      assert x == (x.0, x.1);
    }
  }

  lemma AnsweredSplices(v: View, b: Name, track: map<Name, Track>, p: Name, l: Name)
    requires Splices(v, b, track) && v.io == ToRespond(v.k, b, p, l)
    ensures p in track && track[p].state.Spliced? && track[p].state.local == l && l != NONE
    ensures Splices(v.(io := AtRest), b, Mark(track, p, Answered(track[p].state.bridge, l)))
  {
  }

  lemma AnsweredRest(v: View, v': View, track: map<Name, Track>, p: Name, up: seq<Body>, m: Body,
                     down: seq<Body>, takenDown: nat, callers: map<Name, Caller>, lock: Option<Name>, canFind: bool,
                     hasSwapped: bool)
    requires p in track && track[p].state.Spliced? && v'.a == v.a && v'.k == v.k && !m.UserMessage?
    requires UsersUp(up, track) && UsersDown(down, track) && SettledLater(track, takenDown)
    requires Callers(v, callers, lock, track, canFind, hasSwapped)
    ensures
      var t := Mark(track, p, Answered(track[p].state.bridge, track[p].state.local));
      && UsersUp(up, t) && UsersDown(down + [m], t) && SettledLater(t, takenDown) && t.Keys == track.Keys
      && Callers(v', callers, lock, t, canFind, hasSwapped)
  {
  }

  lemma RespondConn(v: View, c: Conn, p: Name, l: Name)
    requires ConnInv(v, c) && c.stage.Joined? && v.io == ToRespond(v.k, NameOf(c), p, l) && v.down.Some?
    ensures p in c.track && c.track[p].state.Spliced? && c.track[p].state.local == l
    ensures
      var v' := v.(io := AtRest, down := Some(v.down.value + [ResponsePortMerge(p, l)]));
      ConnInv(v', c.(track := Mark(c.track, p, Answered(c.track[p].state.bridge, l))))
  {
    hide InviteePorts, UsersUp, UsersDown, TypedConn, SettledLater, InviteeSide, InviterSide, RequestPlaces, Tallies;
    hide Splices, Callers, Mark;
    var up, down, m := Sent(c.ctrl, v.k), Incoming(v), ResponsePortMerge(p, l);
    var v1 := v.(io := AtRest);
    var v' := v1.(down := Some(v.down.value + [m]));
    AnsweredSplices(v, NameOf(c), c.track, p, l);
    var st := Answered(c.track[p].state.bridge, l);
    AnsweredSplicesDown(v1, v', NameOf(c), Mark(c.track, p, st));
    ConnSide(v, c);
    RestSide(v, v1, c.stage, NameOf(c), c.takenUp);
    JoinedDown(v1, m, c.stage, NameOf(c), c.takenUp);
    LaunchSide(v, v', c.ctrl, c.io, c.takenDown, c.takenUp, TempOf(c));
    ConnCounts(v, c);
    assert Incoming(v') == down + [m];
    assert (down + [m])[c.takenDown..] == down[c.takenDown..] + [m];
    assert (down + [m])[..c.takenDown] == down[..c.takenDown];
    AnsweredPlaces(c.ctrl.pendingMerges, Draining(c.io), up[c.takenUp..], down[c.takenDown..], c.track, p);
    TakenPorts(c.ctrl.node, v.a, c.track, p, st);
    AnsweredRest(v, v', c.track, p, up, m, down, c.takenDown, c.callers, c.lock,
                 CanFind(c.io, c.takenDown), HasSwapped(c.io, c.takenDown));
  }

  lemma AnsweredSplicesDown(v: View, v': View, b: Name, track: map<Name, Track>)
    requires Splices(v, b, track) && v' == v.(down := v'.down)
    ensures Splices(v', b, track)
  {
  }

  lemma RespondViews(s: System, k: Socket, p: Name, r: Name, l: Name, j: Socket)
    requires k in s.conns && k in s.inviter.out && j in s.conns && !s.io.AtRest? && s.io.k == k
    ensures
      ViewOf(AnsweredSystem(s, k, p, r, l), j)
      == if j == k then ViewOf(s, k).(io := AtRest, down := Some(s.inviter.out[k] + [ResponsePortMerge(p, l)]))
         else ViewOf(s, j)
  {
    hide Mine, MyEnds, Mark;
  }

  lemma RespondParts(s: System, k: Socket, p: Name, r: Name, l: Name)
    requires k in s.conns && k in s.inviter.out
    ensures
      var s', c := AnsweredSystem(s, k, p, r, l), s.conns[k];
      && s'.conns == s.conns[k := c.(track := Mark(c.track, p, Answered(r, l)))]
      && s'.inviter == Send(s.inviter, k, ResponsePortMerge(p, l)) && s'.ends == s.ends && s'.holder == s.holder
      && s'.dispatchers == s.dispatchers && s'.used == s.used && s'.written == s.written && s'.read == s.read
      && s'.crashed == s.crashed && s'.dropped == s.dropped && s'.io == AtRest
  {
    hide Mark, Send;
  }

  lemma RespondTallies(s: System, k: Socket, p: Name, r: Name, l: Name)
    requires InviterTallies(s) && k in s.conns && k in s.inviter.out
    ensures InviterTallies(AnsweredSystem(s, k, p, r, l))
  {
    hide UsersTo, UsersFrom, Count, HeardFrom, Mark, EndTally;
    var s' := AnsweredSystem(s, k, p, r, l);
    forall q | q in s'.ends && q in s'.holder
      ensures EndTally(s', s'.ends[q], s'.holder[q])
    {
      TallyPort(s, q);
      RespondTally(s, k, p, r, l, q);
    }
  }

  lemma RespondTally(s: System, k: Socket, p: Name, r: Name, l: Name, q: Name)
    requires k in s.conns && k in s.inviter.out && q in s.ends && q in s.holder
    requires EndTally(s, s.ends[q], s.holder[q])
    ensures EndTally(AnsweredSystem(s, k, p, r, l), s.ends[q], s.holder[q])
  {
    hide UsersTo, UsersFrom, Count, HeardFrom, Mark;
    var s', m := AnsweredSystem(s, k, p, r, l), ResponsePortMerge(p, l);
    SameHeard(s'.conns[k], s.conns[k], k);
    UsersAppend(Down(s, k), m, s.ends[q]);
    assert Down(s', k) == Down(s, k) + [m];
    assert UserIfFrom(m, s.ends[q]) == multiset{};
    if s.holder[q].Merged? && s.holder[q].k != k {
      assert Down(s', s.holder[q].k) == Down(s, s.holder[q].k);
    }
  }

  lemma RespondTyped(s: System, k: Socket, p: Name, r: Name, l: Name)
    requires Typed(s) && InviterFacts(s) && KeysUsed(s.inviter, s.used) && k in s.conns && k in s.inviter.out
    ensures
      var s' := AnsweredSystem(s, k, p, r, l);
      Typed(s') && InviterFacts(s') && KeysUsed(s'.inviter, s'.used)
  {
    hide TypedConn, WellFormedController, Mark, Send;
    SentTyped(s, k, ResponsePortMerge(p, l));
  }

  lemma RespondConnections(s: System, k: Socket, p: Name, l: Name)
    requires Connections(s) && k in s.conns && s.io == ToRespond(k, NameOf(s.conns[k]), p, l)
    requires s.conns[k].stage.Joined? && k in s.inviter.out
    ensures p in s.conns[k].track && s.conns[k].track[p].state.Spliced? && s.conns[k].track[p].state.local == l
    ensures Connections(AnsweredSystem(s, k, p, s.conns[k].track[p].state.bridge, l))
  {
    hide ConnInv, ViewOf, Connections, AnsweredSystem, Mark, Send;
    Connection(s, k);
    ViewDown(s, k);
    RespondConn(ViewOf(s, k), s.conns[k], p, l);
    var r := s.conns[k].track[p].state.bridge;
    RespondParts(s, k, p, r, l);
    RespondViews(s, k, p, r, l, k);
    forall j | j in s.conns && j != k
      ensures ViewOf(AnsweredSystem(s, k, p, r, l), j) == ViewOf(s, j)
    {
      RespondViews(s, k, p, r, l, j);
    }
    AllConnections(s, AnsweredSystem(s, k, p, r, l), k);
  }

  lemma RespondKeeps(s: System)
    requires Inv(s) && s.io.ToRespond? && s.io.k in s.conns && WellFormedController(s.inviter)
    ensures Inv(RespondStep(s))
  {
    hide ConnInv, NamesApart, InviterPorts, Reservations, InviterTallies, Bones, ViewOf, WellFormedController;
    hide Connections, InviterFacts, KeysUsed, TypedConn, Typed, Mark, Send, InviterSide, RespondStep, AnsweredSystem;
    var k, c, p, l := s.io.k, s.conns[s.io.k], s.io.connector, s.io.local;
    Busy(s);
    BusySide(ViewOf(s, k), c.stage, NameOf(c), c.takenUp);
    ViewDown(s, k);
    RespondConnections(s, k, p, l);
    var r := c.track[p].state.bridge;
    RespondShape(s);
    RespondParts(s, k, p, r, l);
    RespondTyped(s, k, p, r, l);
    RespondTallies(s, k, p, r, l);
    SendKeepsRest(s.inviter, k, ResponsePortMerge(p, l));
    SameBones(s.conns, k, AnsweredSystem(s, k, p, r, l).conns[k]);
  }
}
