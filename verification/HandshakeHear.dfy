// The inviter reads a message of an invitee.

module HandshakeHear {
  import opened Bytes
  import opened Names
  import opened Bodies
  import opened PortTable
  import opened Controllers
  import opened Handshake
  import opened HandshakeInvariant
  import opened HandshakeInvitee
  import opened HandshakeMessages
  import opened HandshakeInviteeSteps
  import opened HandshakeInviter
  import opened HandshakeInvitation
  import opened HandshakeLaunch

  // ------------------------------------------------------------------ what is read next

  /** The first message of an invitee is AcceptInvitation, and it is read before the invitee joined; all
      others are read after. */
  lemma NextMessage(v: View, c: Conn)
    requires ConnInv(v, c) && c.takenUp < |Sent(c.ctrl, v.k)| && v.io.AtRest? && v.down.Some?
    ensures c.takenUp == 0 ==>
              c.stage.Invited? && Waiting(v, c.stage.temp)
              && Sent(c.ctrl, v.k)[0] == AcceptInvitation(c.stage.temp, NameOf(c))
    ensures c.takenUp > 0 ==>
              c.stage.Joined? && v.remote == Some(NameOf(c)) && v.peerAt == Some(v.k)
              && GoesUp(Sent(c.ctrl, v.k)[c.takenUp])
    ensures v.a != NameOf(c) && NameOf(c) != NONE
  {
    hide InviteePorts, Tallies, Splices, UsersUp, UsersDown, Callers, RequestPlaces, TypedConn, SettledLater;
  }

  lemma ReadUpSide(v: View, v': View, ctrl: Controller, io: InviteeIo, takenDown: nat, takenUp: nat, temp: Name)
    requires InviteeSide(v, Bare(ctrl), io, takenDown, takenUp, temp) && takenUp < |Sent(ctrl, v.k)|
    requires v'.a == v.a && v'.k == v.k && v'.down == v.down
    ensures InviteeSide(v', Bare(ctrl), io, takenDown, takenUp + 1, temp)
  {
  }

  lemma ReadUpPlaces(pending: seq<Merge>, draining: seq<Merge>, up: seq<Body>, n: nat, down: seq<Body>,
                     track: map<Name, Track>)
    requires n < |up| && RequestPlaces(pending, draining, up[n..], down, track)
    ensures Requests(up[n..]) == RequestIn(up[n]) + Requests(up[n + 1..])
    ensures !up[n].RequestPortMerge? ==> RequestPlaces(pending, draining, up[n + 1..], down, track)
  {
    assert up[n..][1..] == up[n + 1..];
  }

  lemma MarkCallers(v: View, callers: map<Name, Caller>, lock: Option<Name>, track: map<Name, Track>, p: Name,
                    st: MergeState, canFind: bool, hasSwapped: bool)
    requires Callers(v, callers, lock, track, canFind, hasSwapped)
    requires p in track && !track[p].state.Calling? && !st.Calling?
    ensures Callers(v, callers, lock, Mark(track, p, st), canFind, hasSwapped)
  {
  }

  /** What is heard of an invitee, one message on. */
  lemma HeardMore(c: Conn, k: Socket)
    requires c.takenUp < |Sent(c.ctrl, k)|
    ensures
      HeardFrom(c.(takenUp := c.takenUp + 1), k) == HeardFrom(c, k) + [Sent(c.ctrl, k)[c.takenUp]]
  {
  }

  /** A message that is no user message does not change the tallies. */
  lemma HeardTallies(s: System, s': System, k: Socket)
    requires InviterTallies(s) && k in s.conns && k in s'.conns && s.conns[k].takenUp < |Sent(s.conns[k].ctrl, k)|
    requires !Sent(s.conns[k].ctrl, k)[s.conns[k].takenUp].UserMessage?
    requires s'.conns[k].ctrl == s.conns[k].ctrl && s'.conns[k].takenUp == s.conns[k].takenUp + 1
    requires forall j :: j in s.conns && j != k ==> j in s'.conns && s'.conns[j] == s.conns[j]
    requires s'.inviter.node == s.inviter.node && s'.inviter.out == s.inviter.out
    requires s'.written == s.written && s'.read == s.read && s'.ends == s.ends && s'.holder.Keys == s.holder.Keys
    requires forall r :: r in s.holder ==>
               s'.holder[r] == s.holder[r] || (!s'.holder[r].Merged? && !s.holder[r].Merged?)
    ensures InviterTallies(s')
  {
    hide UsersTo, UsersFrom, Count, EndTally;
    forall r | r in s'.ends && r in s'.holder
      ensures EndTally(s', s'.ends[r], s'.holder[r])
    {
      TallyPort(s, r);
      HeardTally(s, s', k, r);
    }
  }

  lemma HeardTally(s: System, s': System, k: Socket, r: Name)
    requires r in s.ends && r in s.holder && EndTally(s, s.ends[r], s.holder[r])
    requires k in s.conns && k in s'.conns && s.conns[k].takenUp < |Sent(s.conns[k].ctrl, k)|
    requires !Sent(s.conns[k].ctrl, k)[s.conns[k].takenUp].UserMessage?
    requires s'.conns[k].ctrl == s.conns[k].ctrl && s'.conns[k].takenUp == s.conns[k].takenUp + 1
    requires forall j :: j in s.conns && j != k ==> j in s'.conns && s'.conns[j] == s.conns[j]
    requires s'.inviter.node == s.inviter.node && s'.inviter.out == s.inviter.out
    requires s'.written == s.written && s'.read == s.read && r in s'.ends && r in s'.holder && s'.ends[r] == s.ends[r]
    requires s'.holder[r] == s.holder[r] || (!s'.holder[r].Merged? && !s.holder[r].Merged?)
    ensures EndTally(s', s'.ends[r], s'.holder[r])
  {
    hide UsersTo, UsersFrom, Count, HeardFrom, Sent;
    var m := Sent(s.conns[k].ctrl, k)[s.conns[k].takenUp];
    HeardMore(s.conns[k], k);
    SameHeard(s'.conns[k], s.conns[k].(takenUp := s.conns[k].takenUp + 1), k);
    UsersAppend(HeardFrom(s.conns[k], k), m, s.ends[r]);
    SameDown(s, s', s.holder[r]);
  }

  lemma SameHeard(c: Conn, d: Conn, k: Socket)
    requires c.ctrl == d.ctrl && c.takenUp == d.takenUp
    ensures HeardFrom(c, k) == HeardFrom(d, k)
  {
  }

  // ------------------------------------------------------------------ AcceptInvitation

  lemma AcceptedConn(v: View, c: Conn)
    requires ConnInv(v, c) && c.stage.Invited? && c.takenUp == 0 < |Sent(c.ctrl, v.k)| && v.io.AtRest?
    requires Sent(c.ctrl, v.k)[0] == AcceptInvitation(c.stage.temp, NameOf(c))
    ensures
      var temp := c.stage.temp;
      ConnInv(v.(io := ToRekey(v.k, temp, NameOf(c))), c.(takenUp := 1, stage := Rekeying(temp)))
  {
    hide InviteePorts, UsersUp, UsersDown, TypedConn, SettledLater, InviteeSide, InviterSide, RequestPlaces, Tallies;
    hide Splices, Callers;
    var temp, up := c.stage.temp, Sent(c.ctrl, v.k);
    var v' := v.(io := ToRekey(v.k, temp, NameOf(c)));
    ConnSide(v, c);
    AcceptedSide(v, v', temp, NameOf(c));
    ReadUpSide(v, v', c.ctrl, c.io, c.takenDown, 0, temp);
    ReadUpPlaces(c.ctrl.pendingMerges, Draining(c.io), up, 0, Incoming(v)[c.takenDown..], c.track);
    IdleSplices(v, v', NameOf(c), c.track, c.callers, c.lock, CanFind(c.io, c.takenDown), HasSwapped(c.io, c.takenDown));
  }

  lemma AcceptedSide(v: View, v': View, temp: Name, b: Name)
    requires InviterSide(v, Invited(temp), b, 0) && v' == v.(io := ToRekey(v.k, temp, b))
    ensures InviterSide(v', Rekeying(temp), b, 1)
  {
  }

  /** The IO thread is busy with something else than merging ports of this connection. */
  predicate NotMerging(io: InviterIo) {
    !io.ToMerge? && !io.ToRespond?
  }

  lemma IdleSplices(v: View, v': View, b: Name, track: map<Name, Track>, callers: map<Name, Caller>,
                    lock: Option<Name>, canFind: bool, hasSwapped: bool)
    requires Splices(v, b, track) && Callers(v, callers, lock, track, canFind, hasSwapped)
    requires v'.a == v.a && v'.k == v.k && v'.mine == v.mine && v'.ends == v.ends
    requires NotMerging(v.io) && NotMerging(v'.io)
    ensures Splices(v', b, track) && Callers(v', callers, lock, track, canFind, hasSwapped)
  {
  }

  function AcceptedSystem(s: System, k: Socket, temp: Name): System
    requires k in s.conns
  {
    var c := s.conns[k];
    s.(conns := s.conns[k := c.(takenUp := c.takenUp + 1, stage := Rekeying(temp))],
       io := ToRekey(k, temp, NameOf(c)))
  }

  lemma AcceptedShape(s: System, k: Socket, up: seq<Body>)
    requires k in s.conns && s.conns[k].takenUp < |up| && k in s.inviter.remote && WellFormedController(s.inviter)
    requires s.conns[k].stage.Invited?
    requires
      var temp := s.conns[k].stage.temp;
      && up[s.conns[k].takenUp] == AcceptInvitation(temp, NameOf(s.conns[k]))
      && s.inviter.remote[k] == temp && temp in s.inviter.pendingInvitations
    ensures HearAtInviter(s, k, up) == AcceptedSystem(s, k, s.conns[k].stage.temp)
  {
    hide WellFormedController;
  }

  lemma ConnTyped(s: System, s': System, k: Socket)
    requires Typed(s) && InviterFacts(s) && k in s.conns && k in s'.conns
    requires s'.conns == s.conns[k := s'.conns[k]] && s'.conns[k].ctrl == s.conns[k].ctrl
    requires WellFormedController(s'.inviter) && s'.crashed == s.crashed && s'.dropped == s.dropped
    requires s'.inviter.inviterName == s.inviter.inviterName && s'.inviter.pendingMerges == s.inviter.pendingMerges
    requires s'.inviter.waiting == s.inviter.waiting && s'.inviter.out.Keys == s.inviter.out.Keys
    requires s'.io.AtRest? || s'.io.k in s.conns
    ensures Typed(s') && InviterFacts(s')
  {
    hide TypedConn, WellFormedController;
  }

  lemma AcceptedViews(s: System, k: Socket, temp: Name, j: Socket)
    requires k in s.conns && j in s.conns && s.io.AtRest? && TempOf(s.conns[k]) == temp
    ensures
      var s' := AcceptedSystem(s, k, temp);
      ViewOf(s', j)
      == if j == k then ViewOf(s, k).(io := ToRekey(k, temp, NameOf(s.conns[k]))) else ViewOf(s, j)
  {
    hide Mine, MyEnds;
  }

  lemma AcceptedTallies(s: System, k: Socket, temp: Name)
    requires InviterTallies(s) && k in s.conns && s.conns[k].takenUp < |Sent(s.conns[k].ctrl, k)|
    requires !Sent(s.conns[k].ctrl, k)[s.conns[k].takenUp].UserMessage?
    ensures InviterTallies(AcceptedSystem(s, k, temp))
  {
    hide InviterTallies, Sent;
    HeardTallies(s, AcceptedSystem(s, k, temp), k);
  }

  lemma HearAccept(s: System, k: Socket)
    requires Inv(s) && s.io.AtRest? && k in s.conns && s.conns[k].stage.Invited? && s.conns[k].takenUp == 0
    requires 0 < |Sent(s.conns[k].ctrl, k)|
    requires Sent(s.conns[k].ctrl, k)[0] == AcceptInvitation(s.conns[k].stage.temp, NameOf(s.conns[k]))
    ensures Inv(AcceptedSystem(s, k, s.conns[k].stage.temp))
  {
    hide ConnInv, NamesApart, InviterPorts, Reservations, InviterTallies, Bones, ViewOf, WellFormedController;
    hide Connections, InviterFacts, KeysUsed, TypedConn, Sent;
    var temp, bones := s.conns[k].stage.temp, Bones(s.conns);
    var s' := AcceptedSystem(s, k, temp);
    BonesAfter(s.conns, k, s'.conns[k]);
    BonesKeys(s.conns);
    ConnTyped(s, s', k);
    AcceptedTallies(s, k, temp);
    SameNames(s.inviter.node.name, s.used, bones, k, Rekeying(temp));
    NewBonePorts(s.inviter.node, s.ends, s.holder, bones, k, bones[k].(stage := Rekeying(temp)));
    SameReservations(s.dispatchers, s.inviter.reserved, s.holder, bones, k, Rekeying(temp));
    AcceptedConnections(s, k);
  }

  lemma AcceptedParts(s: System, k: Socket, temp: Name)
    requires k in s.conns
    ensures
      var c := s.conns[k];
      AcceptedSystem(s, k, temp).conns == s.conns[k := c.(takenUp := c.takenUp + 1, stage := Rekeying(temp))]
  {
  }

  lemma AcceptedConnections(s: System, k: Socket)
    requires Connections(s) && s.io.AtRest? && k in s.conns && s.conns[k].stage.Invited? && s.conns[k].takenUp == 0
    requires 0 < |Sent(s.conns[k].ctrl, k)|
    requires Sent(s.conns[k].ctrl, k)[0] == AcceptInvitation(s.conns[k].stage.temp, NameOf(s.conns[k]))
    ensures Connections(AcceptedSystem(s, k, s.conns[k].stage.temp))
  {
    hide ConnInv, ViewOf, Connections, Sent, AcceptedSystem;
    var temp := s.conns[k].stage.temp;
    AcceptedParts(s, k, temp);
    Connection(s, k);
    ViewDown(s, k);
    Idle(s.io, k);
    AcceptedConn(ViewOf(s, k), s.conns[k]);
    forall j | j in s.conns
      ensures ViewOf(AcceptedSystem(s, k, temp), j)
           == if j == k then ViewOf(s, k).(io := ToRekey(k, temp, NameOf(s.conns[k]))) else ViewOf(s, j)
    {
      AcceptedViews(s, k, temp, j);
    }
    AllConnections(s, AcceptedSystem(s, k, temp), k);
  }

  // ------------------------------------------------------------------ a request for no reserved port

  /** The request that is read next. */
  lemma NextRequest(pending: seq<Merge>, draining: seq<Merge>, up: seq<Body>, n: nat, down: seq<Body>,
                    track: map<Name, Track>)
    requires n < |up| && RequestPlaces(pending, draining, up[n..], down, track) && up[n].RequestPortMerge?
    ensures
      var m := Merge(up[n].pipe, up[n].connector);
      && m.port in track && track[m.port].pipe == m.pipe && track[m.port].state.Asked?
      && Requests(up[n + 1..]) == multiset(InState(track, Asked) - {m}) && m in InState(track, Asked)
  {
    ReadUpPlaces(pending, draining, up, n, down, track);
    var m := Merge(up[n].pipe, up[n].connector);
    assert RequestIn(up[n]) == multiset{m};
    assert m in Requests(up[n..]);
    assert m in InState(track, Asked);
    InStateMember(track, Asked, m);
    hide Requests, InState;
    RemoveOne(InState(track, Asked), m);
  }

  lemma RequestHandled(pending: seq<Merge>, draining: seq<Merge>, up: seq<Body>, n: nat, down: seq<Body>,
                       track: map<Name, Track>, st: MergeState)
    requires n < |up| && RequestPlaces(pending, draining, up[n..], down, track) && up[n].RequestPortMerge?
    requires st.Refused? || st.Taken?
    ensures RequestPlaces(pending, draining, up[n + 1..], down, Mark(track, up[n].connector, st))
  {
    NextRequest(pending, draining, up, n, down, track);
    hide Requests, InState, AnsweredIn, Answers, Mark;
    MarkMoves(track, up[n].connector, st);
    MarkKeepsAnswered(track, up[n].connector, st);
  }

  lemma RefusedConn(v: View, c: Conn)
    requires ConnInv(v, c) && c.takenUp < |Sent(c.ctrl, v.k)| && v.io.AtRest? && c.stage.Joined?
    requires Sent(c.ctrl, v.k)[c.takenUp].RequestPortMerge?
    ensures
      var p := Sent(c.ctrl, v.k)[c.takenUp].connector;
      ConnInv(v, c.(takenUp := c.takenUp + 1, track := Mark(c.track, p, Refused)))
  {
    hide InviteePorts, UsersUp, UsersDown, TypedConn, SettledLater, InviteeSide, InviterSide, RequestPlaces, Tallies;
    hide Splices, Callers, Mark;
    var up, down := Sent(c.ctrl, v.k), Incoming(v);
    var p := up[c.takenUp].connector;
    NextRequest(c.ctrl.pendingMerges, Draining(c.io), up, c.takenUp, down[c.takenDown..], c.track);
    RequestHandled(c.ctrl.pendingMerges, Draining(c.io), up, c.takenUp, down[c.takenDown..], c.track, Refused);
    ReadUpSide(v, v, c.ctrl, c.io, c.takenDown, c.takenUp, TempOf(c));
    JoinedSide(v, c.stage, NameOf(c), c.takenUp);
    MarkPlain(v, c.ctrl.node, c.track, p, Refused, up, down, c.takenDown);
    MarkCallers(v, c.callers, c.lock, c.track, p, Refused, CanFind(c.io, c.takenDown), HasSwapped(c.io, c.takenDown));
  }

  lemma JoinedSide(v: View, stage: Stage, b: Name, takenUp: nat)
    requires InviterSide(v, stage, b, takenUp) && stage.Joined?
    ensures InviterSide(v, stage, b, takenUp + 1)
  {
  }

  function RefusedSystem(s: System, k: Socket, p: Name): System
    requires k in s.conns
  {
    var c := s.conns[k];
    WithConn(s, k, c.(takenUp := c.takenUp + 1, track := Mark(c.track, p, Refused)))
  }

  lemma RefusedShape(s: System, k: Socket, up: seq<Body>)
    requires k in s.conns && s.conns[k].takenUp < |up| && k in s.inviter.remote && WellFormedController(s.inviter)
    requires up[s.conns[k].takenUp].RequestPortMerge?
    requires TakeReserved(s.inviter, s.inviter.remote[k], up[s.conns[k].takenUp].pipe).1.None?
    ensures HearAtInviter(s, k, up) == RefusedSystem(s, k, up[s.conns[k].takenUp].connector)
  {
    hide WellFormedController, Mark;
  }

  lemma RefusedTallies(s: System, k: Socket, p: Name)
    requires InviterTallies(s) && k in s.conns && s.conns[k].takenUp < |Sent(s.conns[k].ctrl, k)|
    requires !Sent(s.conns[k].ctrl, k)[s.conns[k].takenUp].UserMessage?
    ensures InviterTallies(RefusedSystem(s, k, p))
  {
    hide InviterTallies, Sent, Mark;
    HeardTallies(s, RefusedSystem(s, k, p), k);
  }

  lemma HearRefused(s: System, k: Socket)
    requires Inv(s) && s.io.AtRest? && k in s.conns && s.conns[k].stage.Joined?
    requires s.conns[k].takenUp < |Sent(s.conns[k].ctrl, k)|
    requires Sent(s.conns[k].ctrl, k)[s.conns[k].takenUp].RequestPortMerge?
    ensures Inv(RefusedSystem(s, k, Sent(s.conns[k].ctrl, k)[s.conns[k].takenUp].connector))
  {
    hide ConnInv, NamesApart, InviterPorts, Reservations, InviterTallies, Bones, ViewOf, WellFormedController;
    hide Connections, InviterFacts, KeysUsed, TypedConn, Sent, Mark;
    var p := Sent(s.conns[k].ctrl, k)[s.conns[k].takenUp].connector;
    var s' := RefusedSystem(s, k, p);
    SameBones(s.conns, k, s'.conns[k]);
    ConnTyped(s, s', k);
    RefusedTallies(s, k, p);
    Connection(s, k);
    ViewDown(s, k);
    Idle(s.io, k);
    RefusedConn(ViewOf(s, k), s.conns[k]);
    InviteeViews(s, k, s'.conns[k]);
    AllConnections(s, s', k);
  }

  // ------------------------------------------------------------------ a request for a reserved port

  lemma TakenSplices(v: View, b: Name, track: map<Name, Track>, p: Name, r: Name, l: Name)
    requires Splices(v, b, track) && p in track && Plain(track[p].state) && r !in v.mine && l != NONE
    requires NotMerging(v.io)
    ensures
      Splices(v.(io := ToMerge(v.k, b, p, r), mine := v.mine[r := Merging(v.k, p)], ends := v.ends[r := l]), b,
              Mark(track, p, Taken(r, l)))
  {
  }

  lemma TakenRest(v: View, v': View, n: Node, track: map<Name, Track>, p: Name, st: MergeState, up: seq<Body>,
                  down: seq<Body>, takenDown: nat, callers: map<Name, Caller>, lock: Option<Name>, canFind: bool,
                  hasSwapped: bool)
    requires p in track && track[p].state.Asked? && st.Taken? && v'.a == v.a && v'.k == v.k
    requires UsersUp(up, track) && UsersDown(down, track) && SettledLater(track, takenDown)
    requires Callers(v, callers, lock, track, canFind, hasSwapped)
    ensures
      var t := Mark(track, p, st);
      && UsersUp(up, t) && UsersDown(down, t) && SettledLater(t, takenDown) && t.Keys == track.Keys
      && Callers(v', callers, lock, t, canFind, hasSwapped)
  {
  }

  lemma TakenPorts(n: Node, a: Name, track: map<Name, Track>, p: Name, st: MergeState)
    requires InviteePorts(n, a, track) && p in track && !track[p].state.Settled? && !st.Settled?
    ensures InviteePorts(n, a, Mark(track, p, st))
  {
    hide Sound, LocalPair, HasPeer;
  }

  lemma TakenConn(v: View, c: Conn, r: Name, l: Name)
    requires ConnInv(v, c) && c.takenUp < |Sent(c.ctrl, v.k)| && v.io.AtRest? && c.stage.Joined?
    requires Sent(c.ctrl, v.k)[c.takenUp].RequestPortMerge? && r !in v.mine && l != NONE
    ensures
      var p := Sent(c.ctrl, v.k)[c.takenUp].connector;
      var v' := v.(io := ToMerge(v.k, NameOf(c), p, r), mine := v.mine[r := Merging(v.k, p)], ends := v.ends[r := l]);
      ConnInv(v', c.(takenUp := c.takenUp + 1, track := Mark(c.track, p, Taken(r, l))))
  {
    hide InviteePorts, UsersUp, UsersDown, TypedConn, SettledLater, InviteeSide, InviterSide, RequestPlaces, Tallies;
    hide Splices, Callers, Mark;
    var up, down := Sent(c.ctrl, v.k), Incoming(v);
    var p := up[c.takenUp].connector;
    var v' := v.(io := ToMerge(v.k, NameOf(c), p, r), mine := v.mine[r := Merging(v.k, p)], ends := v.ends[r := l]);
    NextRequest(c.ctrl.pendingMerges, Draining(c.io), up, c.takenUp, down[c.takenDown..], c.track);
    RequestHandled(c.ctrl.pendingMerges, Draining(c.io), up, c.takenUp, down[c.takenDown..], c.track, Taken(r, l));
    ReadUpSide(v, v', c.ctrl, c.io, c.takenDown, c.takenUp, TempOf(c));
    TakenSide(v, v', c.stage, NameOf(c), c.takenUp);
    TakenSplices(v, NameOf(c), c.track, p, r, l);
    TakenPorts(c.ctrl.node, v.a, c.track, p, Taken(r, l));
    TakenRest(v, v', c.ctrl.node, c.track, p, Taken(r, l), up, down, c.takenDown, c.callers, c.lock,
              CanFind(c.io, c.takenDown), HasSwapped(c.io, c.takenDown));
  }

  lemma TakenSide(v: View, v': View, stage: Stage, b: Name, takenUp: nat)
    requires InviterSide(v, stage, b, takenUp) && stage.Joined?
    requires v' == v.(io := v'.io, mine := v'.mine, ends := v'.ends) && v'.io.ToMerge? && v'.io.from == b
    ensures InviterSide(v', stage, b, takenUp + 1)
  {
  }

  /** The reserved ports without the one that is taken; a name without ports is removed. */
  function Without(reserved: ReservedPorts, b: Name, pipe: Text): ReservedPorts
    requires b in reserved && pipe in reserved[b]
  {
    var left := reserved[b] - {pipe};
    if left == map[] then reserved - {b} else reserved[b := left]
  }

  lemma TakenReservations(dispatchers: Dispatchers, reserved: ReservedPorts, holder: map<Name, Place>,
                          bones: map<Socket, Bone>, k: Socket, pipe: Text, p: Name, a: Name, used: set<Name>)
    requires Reservations(dispatchers, reserved, holder, bones) && k in bones && NamesApart(a, used, bones)
    requires bones[k].name in reserved && pipe in reserved[bones[k].name]
    ensures
      var r := reserved[bones[k].name][pipe];
      && Holds(holder, r, Reserved(k, pipe))
      && Reservations(dispatchers, Without(reserved, bones[k].name, pipe), holder[r := Merging(k, p)], bones)
  {
    var b, r := bones[k].name, reserved[bones[k].name][pipe];
    var reserved', holder' := Without(reserved, b, pipe), holder[r := Merging(k, p)];
    assert ReservedOf(reserved, holder, k, bones[k]);
    assert Holds(holder, r, Reserved(k, pipe));
    forall q | q in holder'
      ensures IsAt(dispatchers, reserved', bones, q, holder'[q])
    {
      assert IsAt(dispatchers, reserved, bones, q, holder[q]);
      TakenStays(dispatchers, reserved, bones, k, pipe, a, used, q, holder[q]);
      hide Without;
    }
    hide IsAt;
    forall j | j in bones
      ensures HeldOf(dispatchers, holder', j, bones[j].stage) && ReservedOf(reserved', holder', j, bones[j])
    {
      TokenOfOne2(a, used, bones, k, j);
      TakenConnection(dispatchers, reserved, holder, k, b, pipe, p, j, bones[j]);
      hide Without, HeldOf, ReservedOf;
    }
    hide HeldOf, ReservedOf, NamesApart, Without;
    forall g, y | g in dispatchers && y in dispatchers[g]
      ensures Holds(holder', dispatchers[g][y], Attached(g, y))
    {
      assert Holds(holder, dispatchers[g][y], Attached(g, y));
    }
  }

  /** The name of one connection is no name and no token of another. */
  lemma TokenOfOne2(a: Name, used: set<Name>, bones: map<Socket, Bone>, k: Socket, j: Socket)
    requires NamesApart(a, used, bones) && k in bones && j in bones
    ensures j != k ==> bones[j].name != bones[k].name
    ensures !bones[j].stage.Connected? ==> bones[j].stage.temp != bones[k].name
  {
    if j != k {
      assert Keys(bones[j]) !! Keys(bones[k]);
      assert bones[k].name in Keys(bones[k]) && bones[j].name in Keys(bones[j]);
      assert !bones[j].stage.Connected? ==> bones[j].stage.temp in Keys(bones[j]);
    }
  }

  lemma TakenConnection(dispatchers: Dispatchers, reserved: ReservedPorts, holder: map<Name, Place>, k: Socket,
                        b: Name, pipe: Text, p: Name, j: Socket, bone: Bone)
    requires HeldOf(dispatchers, holder, j, bone.stage) && ReservedOf(reserved, holder, j, bone)
    requires b in reserved && pipe in reserved[b] && Holds(holder, reserved[b][pipe], Reserved(k, pipe))
    requires (j == k <==> bone.name == b) && (!bone.stage.Connected? ==> bone.stage.temp != b)
    ensures
      var holder' := holder[reserved[b][pipe] := Merging(k, p)];
      HeldOf(dispatchers, holder', j, bone.stage) && ReservedOf(Without(reserved, b, pipe), holder', j, bone)
  {
  }

  lemma TakenStays(dispatchers: Dispatchers, reserved: ReservedPorts, bones: map<Socket, Bone>, k: Socket, pipe: Text,
                   a: Name, used: set<Name>, q: Name, place: Place)
    requires k in bones && NamesApart(a, used, bones)
    requires bones[k].name in reserved && pipe in reserved[bones[k].name]
    requires IsAt(dispatchers, reserved, bones, q, place)
    ensures q != reserved[bones[k].name][pipe] ==>
              IsAt(dispatchers, Without(reserved, bones[k].name, pipe), bones, q, place)
  {
    if place.Tokened? || place.Reserved? {
      TokenOfOne2(a, used, bones, k, place.k);
      var name := if place.Tokened? then bones[place.k].stage.temp else bones[place.k].name;
      ListingWithout(reserved, bones[k].name, pipe, name, place.pipe, q);
    }
  }

  lemma ListingWithout(reserved: ReservedPorts, b: Name, pipe: Text, name: Name, x: Text, q: Name)
    requires b in reserved && pipe in reserved[b] && Listing(reserved, name, x, q)
    ensures name != b || x != pipe ==> Listing(Without(reserved, b, pipe), name, x, q)
  {
    if name == b && x != pipe {
      assert x in reserved[b] - {pipe};
    }
  }

  function TakenSystem(s: System, k: Socket, p: Name, r: Name, pipe: Text): System
    requires k in s.conns && r in s.ends
    requires NameOf(s.conns[k]) in s.inviter.reserved && pipe in s.inviter.reserved[NameOf(s.conns[k])]
  {
    var c, b := s.conns[k], NameOf(s.conns[k]);
    s.(inviter := s.inviter.(reserved := Without(s.inviter.reserved, b, pipe)),
       conns := s.conns[k := c.(takenUp := c.takenUp + 1, track := Mark(c.track, p, Taken(r, s.ends[r])))],
       io := ToMerge(k, b, p, r), holder := s.holder[r := Merging(k, p)])
  }

  lemma TakenShape(s: System, k: Socket, up: seq<Body>)
    requires k in s.conns && s.conns[k].takenUp < |up| && k in s.inviter.remote && WellFormedController(s.inviter)
    requires up[s.conns[k].takenUp].RequestPortMerge? && s.inviter.remote[k] == NameOf(s.conns[k])
    requires
      var b, pipe := NameOf(s.conns[k]), up[s.conns[k].takenUp].pipe;
      b in s.inviter.reserved && pipe in s.inviter.reserved[b] && s.inviter.reserved[b][pipe] in s.ends
    ensures
      var m, b := up[s.conns[k].takenUp], NameOf(s.conns[k]);
      HearAtInviter(s, k, up) == TakenSystem(s, k, m.connector, s.inviter.reserved[b][m.pipe], m.pipe)
  {
    hide WellFormedController, Mark;
  }

  lemma MineAdd(holder: map<Name, Place>, ends: map<Name, Name>, k: Socket, r: Name, place: Place)
    requires r in ends && Belongs(place, k)
    ensures Mine(holder[r := place], k) == Mine(holder, k)[r := place]
    ensures MyEnds(holder[r := place], ends, k) == MyEnds(holder, ends, k)[r := ends[r]]
  {
  }

  lemma MineOther(holder: map<Name, Place>, ends: map<Name, Name>, j: Socket, r: Name, place: Place)
    requires !Belongs(place, j) && (r in holder ==> !Belongs(holder[r], j))
    ensures Mine(holder[r := place], j) == Mine(holder, j)
    ensures MyEnds(holder[r := place], ends, j) == MyEnds(holder, ends, j)
  {
  }

  lemma TakenViews(s: System, k: Socket, p: Name, r: Name, pipe: Text, j: Socket)
    requires k in s.conns && r in s.ends && r in s.holder && s.holder[r].Reserved? && s.io.AtRest?
    requires NameOf(s.conns[k]) in s.inviter.reserved && pipe in s.inviter.reserved[NameOf(s.conns[k])]
    requires j in s.conns
    ensures
      var v := ViewOf(s, k);
      ViewOf(TakenSystem(s, k, p, r, pipe), j)
      == if j == k then v.(io := ToMerge(k, NameOf(s.conns[k]), p, r), mine := v.mine[r := Merging(k, p)],
                           ends := v.ends[r := s.ends[r]])
         else ViewOf(s, j)
  {
    hide Mine, MyEnds, Mark, Without;
    if j == k {
      MineAdd(s.holder, s.ends, k, r, Merging(k, p));
    } else {
      MineOther(s.holder, s.ends, j, r, Merging(k, p));
    }
  }

  lemma FewerReserved(c: Controller, used: set<Name>, b: Name, pipe: Text)
    requires WellFormedController(c) && KeysUsed(c, used) && b in c.reserved && pipe in c.reserved[b]
    ensures
      var d := c.(reserved := Without(c.reserved, b, pipe));
      WellFormedController(d) && KeysUsed(d, used)
  {
    hide WellFormed;
  }

  lemma OnePlace(n: Node, ends: map<Name, Name>, holder: map<Name, Place>, bones: map<Socket, Bone>, r: Name,
                 place: Place)
    requires InviterPorts(n, ends, holder, bones) && r in holder && !holder[r].Merged? && !place.Merged?
    ensures InviterPorts(n, ends, holder[r := place], bones)
    ensures r in ends && LocalPair(n, r, ends[r]) && ends[r] != NONE
  {
    hide Sound, HasPeer, EndsApart;
    assert EndOk(n, r, ends[r], holder[r], bones);
    forall q | q in ends
      ensures EndOk(n, q, ends[q], holder[r := place][q], bones)
    {
      assert EndOk(n, q, ends[q], holder[q], bones);
    }
  }

  lemma TakenTallies(s: System, k: Socket, p: Name, r: Name, pipe: Text)
    requires InviterTallies(s) && k in s.conns && s.conns[k].takenUp < |Sent(s.conns[k].ctrl, k)|
    requires !Sent(s.conns[k].ctrl, k)[s.conns[k].takenUp].UserMessage?
    requires r in s.ends && r in s.holder && s.holder[r].Reserved?
    requires NameOf(s.conns[k]) in s.inviter.reserved && pipe in s.inviter.reserved[NameOf(s.conns[k])]
    ensures InviterTallies(TakenSystem(s, k, p, r, pipe))
  {
    hide InviterTallies, Sent, Mark, Without;
    HeardTallies(s, TakenSystem(s, k, p, r, pipe), k);
  }

  lemma TakenParts(s: System, k: Socket, p: Name, r: Name, pipe: Text)
    requires k in s.conns && r in s.ends
    requires NameOf(s.conns[k]) in s.inviter.reserved && pipe in s.inviter.reserved[NameOf(s.conns[k])]
    ensures
      var s', c := TakenSystem(s, k, p, r, pipe), s.conns[k];
      && s'.conns == s.conns[k := c.(takenUp := c.takenUp + 1, track := Mark(c.track, p, Taken(r, s.ends[r])))]
      && s'.inviter == s.inviter.(reserved := Without(s.inviter.reserved, NameOf(c), pipe))
      && s'.holder == s.holder[r := Merging(k, p)] && s'.ends == s.ends && s'.dispatchers == s.dispatchers
      && s'.used == s.used && s'.io == ToMerge(k, NameOf(c), p, r)
      && s'.crashed == s.crashed && s'.dropped == s.dropped
  {
    hide Mark, Without;
  }

  lemma TakenConnections(s: System, k: Socket, r: Name)
    requires Connections(s) && s.io.AtRest? && k in s.conns && s.conns[k].stage.Joined?
    requires s.conns[k].takenUp < |Sent(s.conns[k].ctrl, k)|
    requires Sent(s.conns[k].ctrl, k)[s.conns[k].takenUp].RequestPortMerge?
    requires r in s.ends && r in s.holder && s.holder[r].Reserved? && s.ends[r] != NONE
    requires
      var m, b := Sent(s.conns[k].ctrl, k)[s.conns[k].takenUp], NameOf(s.conns[k]);
      b in s.inviter.reserved && m.pipe in s.inviter.reserved[b]
    ensures
      var m := Sent(s.conns[k].ctrl, k)[s.conns[k].takenUp];
      Connections(TakenSystem(s, k, m.connector, r, m.pipe))
  {
    hide ConnInv, ViewOf, Connections, Sent, Mark, Without, TakenSystem;
    var m := Sent(s.conns[k].ctrl, k)[s.conns[k].takenUp];
    var s' := TakenSystem(s, k, m.connector, r, m.pipe);
    TakenParts(s, k, m.connector, r, m.pipe);
    Connection(s, k);
    ViewDown(s, k);
    Idle(s.io, k);
    assert r !in Mine(s.holder, k);
    TakenConn(ViewOf(s, k), s.conns[k], r, s.ends[r]);
    forall j | j in s.conns
      ensures j != k ==> ViewOf(s', j) == ViewOf(s, j)
    {
      TakenViews(s, k, m.connector, r, m.pipe, j);
    }
    TakenViews(s, k, m.connector, r, m.pipe, k);
    AllConnections(s, s', k);
  }

  lemma HearTaken(s: System, k: Socket)
    requires Inv(s) && s.io.AtRest? && k in s.conns && s.conns[k].stage.Joined?
    requires s.conns[k].takenUp < |Sent(s.conns[k].ctrl, k)|
    requires Sent(s.conns[k].ctrl, k)[s.conns[k].takenUp].RequestPortMerge?
    requires
      var m, b := Sent(s.conns[k].ctrl, k)[s.conns[k].takenUp], NameOf(s.conns[k]);
      b in s.inviter.reserved && m.pipe in s.inviter.reserved[b]
    ensures
      var m, b := Sent(s.conns[k].ctrl, k)[s.conns[k].takenUp], NameOf(s.conns[k]);
      var r := s.inviter.reserved[b][m.pipe];
      r in s.ends && Inv(TakenSystem(s, k, m.connector, r, m.pipe))
  {
    hide ConnInv, NamesApart, InviterPorts, Reservations, InviterTallies, Bones, ViewOf, WellFormedController;
    hide Connections, InviterFacts, KeysUsed, TypedConn, Sent, Mark, Without, TakenSystem, LocalPair;
    var m, b := Sent(s.conns[k].ctrl, k)[s.conns[k].takenUp], NameOf(s.conns[k]);
    var r, bones := s.inviter.reserved[b][m.pipe], Bones(s.conns);
    BonesKeys(s.conns);
    TakenReservations(s.dispatchers, s.inviter.reserved, s.holder, bones, k, m.pipe, m.connector,
                      s.inviter.node.name, s.used);
    OnePlace(s.inviter.node, s.ends, s.holder, bones, r, Merging(k, m.connector));
    var s' := TakenSystem(s, k, m.connector, r, m.pipe);
    TakenParts(s, k, m.connector, r, m.pipe);
    SameBones(s.conns, k, s'.conns[k]);
    FewerReserved(s.inviter, s.used, b, m.pipe);
    ConnTyped(s, s', k);
    TakenTallies(s, k, m.connector, r, m.pipe);
    TakenConnections(s, k, r);
  }

  // ------------------------------------------------------------------ a user message

  /** A user message of an invitee is for the local end of the pipe it comes from, which is live. */
  lemma UserEnd(s: System, k: Socket, m: Body)
    requires Inv(s) && k in s.conns && m in Sent(s.conns[k].ctrl, k) && m.UserMessage?
    ensures exists r :: r in s.ends && r in s.holder && s.holder[r] == Merged(k, m.from) && s.ends[r] == m.to
    ensures m.to in s.inviter.node.live && EndsApart(s.ends) && Sound(s.inviter.node)
  {
    hide ConnInv, NamesApart, Reservations, InviterTallies, WellFormedController, Connections, InviterFacts;
    hide KeysUsed, TypedConn, Typed, ViewOf, Sound, EndsApart, Mine, MyEnds, Sent, Bones;
    var v, c := ViewOf(s, k), s.conns[k];
    Connection(s, k);
    ViewDown(s, k);
    var r := UserTrack(v, c, m);
    MineIs(s.holder, s.ends, k, r);
    assert EndOk(s.inviter.node, r, s.ends[r], s.holder[r], Bones(s.conns));
  }

  lemma UserTrack(v: View, c: Conn, m: Body) returns (r: Name)
    requires ConnInv(v, c) && m in Sent(c.ctrl, v.k) && m.UserMessage?
    ensures r in v.mine && r in v.ends && v.mine[r] == Merged(v.k, m.from) && v.ends[r] == m.to
  {
    hide InviteePorts, Tallies, InviteeSide, InviterSide, UsersDown, Callers, RequestPlaces, TypedConn, SettledLater;
    hide Sent;
    r := c.track[m.from].state.bridge;
  }

  lemma MineIs(holder: map<Name, Place>, ends: map<Name, Name>, k: Socket, r: Name)
    requires r in Mine(holder, k) && r in MyEnds(holder, ends, k)
    ensures r in holder && r in ends && Mine(holder, k)[r] == holder[r] && MyEnds(holder, ends, k)[r] == ends[r]
  {
  }

  function UserSystem(s: System, k: Socket, n: Node): System
    requires k in s.conns
  {
    s.(inviter := s.inviter.(node := n), conns := s.conns[k := s.conns[k].(takenUp := s.conns[k].takenUp + 1)])
  }

  lemma UserShape(s: System, k: Socket, up: seq<Body>)
    requires k in s.conns && s.conns[k].takenUp < |up| && k in s.inviter.remote && WellFormedController(s.inviter)
    requires up[s.conns[k].takenUp].UserMessage?
    requires
      var m := up[s.conns[k].takenUp];
      Accept(s.inviter.node, m.to, m).Done?
    ensures
      var m := up[s.conns[k].takenUp];
      HearAtInviter(s, k, up) == UserSystem(s, k, Accept(s.inviter.node, m.to, m).value)
  {
    hide WellFormedController, PortTable.Accept;
  }

  lemma UserConn(v: View, c: Conn)
    requires ConnInv(v, c) && c.takenUp < |Sent(c.ctrl, v.k)| && v.io.AtRest? && c.stage.Joined?
    requires Sent(c.ctrl, v.k)[c.takenUp].UserMessage?
    ensures ConnInv(v, c.(takenUp := c.takenUp + 1))
  {
    hide InviteePorts, UsersUp, UsersDown, TypedConn, SettledLater, InviteeSide, InviterSide, RequestPlaces, Tallies;
    hide Splices, Callers, Sent, Requests, RequestIn;
    var up, d := Sent(c.ctrl, v.k), c.(takenUp := c.takenUp + 1);
    assert TempOf(d) == TempOf(c) && d.ctrl == c.ctrl && NameOf(d) == NameOf(c);
    ReadUpSide(v, v, c.ctrl, c.io, c.takenDown, c.takenUp, TempOf(c));
    JoinedSide(v, c.stage, NameOf(c), c.takenUp);
    ReadUpPlaces(c.ctrl.pendingMerges, Draining(c.io), up, c.takenUp, Incoming(v)[c.takenDown..], c.track);
  }

  lemma UserTallies(s: System, k: Socket, n: Node, m: Body, r: Name)
    requires InviterTallies(s) && k in s.conns && s.conns[k].takenUp < |Sent(s.conns[k].ctrl, k)|
    requires m == Sent(s.conns[k].ctrl, k)[s.conns[k].takenUp] && m.UserMessage?
    requires r in s.ends && r in s.holder && s.holder[r] == Merged(k, m.from) && s.ends[r] == m.to && EndsApart(s.ends)
    requires m.to in s.inviter.node.ports && n.ports.Keys == s.inviter.node.ports.Keys
    requires n.ports[m.to].queue == s.inviter.node.ports[m.to].queue + [m]
    requires forall p :: p in s.inviter.node.ports && p != m.to ==> n.ports[p] == s.inviter.node.ports[p]
    ensures InviterTallies(UserSystem(s, k, n))
  {
    hide UsersTo, UsersFrom, Count, EndTally, EndsApart, Sent;
    var s' := UserSystem(s, k, n);
    forall q | q in s'.ends && q in s'.holder
      ensures EndTally(s', s'.ends[q], s'.holder[q])
    {
      UserTally(s, k, n, m, r, q);
    }
  }

  lemma UserTally(s: System, k: Socket, n: Node, m: Body, r: Name, q: Name)
    requires InviterTallies(s) && k in s.conns && s.conns[k].takenUp < |Sent(s.conns[k].ctrl, k)|
    requires m == Sent(s.conns[k].ctrl, k)[s.conns[k].takenUp] && m.UserMessage?
    requires r in s.ends && r in s.holder && s.holder[r] == Merged(k, m.from) && s.ends[r] == m.to && EndsApart(s.ends)
    requires m.to in s.inviter.node.ports && n.ports.Keys == s.inviter.node.ports.Keys
    requires n.ports[m.to].queue == s.inviter.node.ports[m.to].queue + [m]
    requires forall p :: p in s.inviter.node.ports && p != m.to ==> n.ports[p] == s.inviter.node.ports[p]
    requires q in s.ends && q in s.holder
    ensures EndTally(UserSystem(s, k, n), s.ends[q], s.holder[q])
  {
    hide UsersTo, UsersFrom, Count, HeardFrom, Sent, Down;
    TallyPort(s, q);
    hide InviterTallies;
    var s', l := UserSystem(s, k, n), s.ends[q];
    assert q != r ==> l != m.to;
    hide EndsApart;
    HeardMore(s.conns[k], k);
    UsersAppend(HeardFrom(s.conns[k], k), m, l);
    SameDown(s, s', s.holder[q]);
    if q == r {
      assert multiset(n.ports[l].queue) == multiset(s.inviter.node.ports[l].queue) + multiset{m};
    }
  }

  lemma UserTyped(s: System, k: Socket, n: Node)
    requires Typed(s) && InviterFacts(s) && KeysUsed(s.inviter, s.used) && k in s.conns
    requires WellFormed(n) && n.ports.Keys == s.inviter.node.ports.Keys
    ensures
      var s' := UserSystem(s, k, n);
      Typed(s') && InviterFacts(s') && KeysUsed(s'.inviter, s'.used)
  {
    hide TypedConn, WellFormedController, WellFormed;
    NodeTyped(s, n);
  }

  lemma UserViews(s: System, k: Socket, n: Node, j: Socket)
    requires k in s.conns && j in s.conns && n.name == s.inviter.node.name
    ensures ViewOf(UserSystem(s, k, n), j) == ViewOf(s, j)
  {
    hide Mine, MyEnds, BusyWith;
  }

  lemma UserParts(s: System, k: Socket, n: Node)
    requires k in s.conns
    ensures
      var s' := UserSystem(s, k, n);
      && s'.conns == s.conns[k := s.conns[k].(takenUp := s.conns[k].takenUp + 1)]
      && s'.inviter == s.inviter.(node := n) && s'.ends == s.ends && s'.holder == s.holder
      && s'.dispatchers == s.dispatchers && s'.used == s.used
  {
  }

  /** The port a user message is for is in the table. */
  lemma HearUserMessage(s: System, k: Socket)
    requires Inv(s) && s.io.AtRest? && k in s.conns && s.conns[k].stage.Joined?
    requires s.conns[k].takenUp < |Sent(s.conns[k].ctrl, k)|
    requires Sent(s.conns[k].ctrl, k)[s.conns[k].takenUp].UserMessage? && WellFormed(s.inviter.node)
    ensures
      var m := Sent(s.conns[k].ctrl, k)[s.conns[k].takenUp];
      var r := Accept(s.inviter.node, m.to, m);
      r.Done? && Inv(UserSystem(s, k, r.value))
  {
    hide ConnInv, NamesApart, InviterPorts, Reservations, InviterTallies, Bones, ViewOf, WellFormedController;
    hide Connections, InviterFacts, KeysUsed, TypedConn, Typed, EndsApart, PortTable.Accept, SameBut, Sound, Sent;
    hide UserSystem;
    var m := Sent(s.conns[k].ctrl, k)[s.conns[k].takenUp];
    UserEnd(s, k, m);
    AcceptExactly(s.inviter.node, m.to, m);
    var n := Accept(s.inviter.node, m.to, m).value;
    UserParts(s, k, n);
    SameButFacts(s.inviter.node, n);
    QueuePorts(s.inviter.node, n, s.ends, s.holder, Bones(s.conns));
    var r :| r in s.ends && r in s.holder && s.holder[r] == Merged(k, m.from) && s.ends[r] == m.to;
    UserTallies(s, k, n, m, r);
    UserTyped(s, k, n);
    SameBones(s.conns, k, UserSystem(s, k, n).conns[k]);
    UserConnections(s, k, n);
  }

  lemma UserConnections(s: System, k: Socket, n: Node)
    requires Connections(s) && s.io.AtRest? && k in s.conns && s.conns[k].stage.Joined?
    requires s.conns[k].takenUp < |Sent(s.conns[k].ctrl, k)| && n.name == s.inviter.node.name
    requires Sent(s.conns[k].ctrl, k)[s.conns[k].takenUp].UserMessage?
    ensures Connections(UserSystem(s, k, n))
  {
    hide ConnInv, ViewOf, Connections, Sent, UserSystem;
    UserParts(s, k, n);
    Connection(s, k);
    ViewDown(s, k);
    Idle(s.io, k);
    UserConn(ViewOf(s, k), s.conns[k]);
    forall j | j in s.conns
      ensures ViewOf(UserSystem(s, k, n), j) == ViewOf(s, j)
    {
      UserViews(s, k, n, j);
    }
    AllConnections(s, UserSystem(s, k, n), k);
  }

  // ------------------------------------------------------------------ taken together

  /** Whether the invitee's next request finds a reserved port. */
  lemma TakeFinds(c: Controller, from: Name, pipe: Text)
    ensures TakeReserved(c, from, pipe).1.None? <==> from !in c.reserved || pipe !in c.reserved[from]
  {
  }

  lemma InviteeReads(s: System, k: Socket)
    requires Inv(s) && s.io.AtRest? && k in s.conns && k in s.inviter.out
    requires s.conns[k].takenUp < |Sent(s.conns[k].ctrl, k)|
    ensures k in s.inviter.remote && WellFormedController(s.inviter) && WellFormed(s.inviter.node)
    ensures
      var c, m := s.conns[k], Sent(s.conns[k].ctrl, k)[s.conns[k].takenUp];
      if c.takenUp == 0 then
        && c.stage.Invited? && m == AcceptInvitation(c.stage.temp, NameOf(c))
        && s.inviter.remote[k] == c.stage.temp && c.stage.temp in s.inviter.pendingInvitations
      else
        && c.stage.Joined? && GoesUp(m) && s.inviter.remote[k] == NameOf(c)
        && Lookup(s.inviter.peers, NameOf(c)) == Some(k)
  {
    hide ConnInv, NamesApart, InviterPorts, Reservations, InviterTallies, Bones, ViewOf, WellFormedController;
    hide Connections, KeysUsed, TypedConn, Sent, WellFormed;
    ChannelKeys(s.inviter);
    Connection(s, k);
    ViewDown(s, k);
    PendingOf(s, k);
    Idle(s.io, k);
    NextMessage(ViewOf(s, k), s.conns[k]);
  }

  lemma HearInviteeKeeps(s: System, k: Socket)
    requires Inv(s) && s.io.AtRest? && k in s.conns && k in s.inviter.out
    requires s.conns[k].takenUp < |Up(s.conns[k], k)| && k in s.inviter.remote && WellFormedController(s.inviter)
    ensures Inv(HearAtInviter(s, k, Up(s.conns[k], k)))
  {
    hide Inv, HearAtInviter, WellFormedController, TakeReserved, AcceptedSystem, RefusedSystem, TakenSystem, UserSystem;
    hide Sent, PortTable.Accept;
    InviteeReads(s, k);
    var c, up := s.conns[k], Sent(s.conns[k].ctrl, k);
    var m := up[c.takenUp];
    if c.takenUp == 0 {
      HearAccept(s, k);
      AcceptedShape(s, k, up);
    } else if m.RequestPortMerge? {
      TakeFinds(s.inviter, NameOf(c), m.pipe);
      if NameOf(c) in s.inviter.reserved && m.pipe in s.inviter.reserved[NameOf(c)] {
        HearTaken(s, k);
        TakenShape(s, k, up);
      } else {
        HearRefused(s, k);
        RefusedShape(s, k, up);
      }
    } else {
      HearUserMessage(s, k);
      UserShape(s, k, up);
    }
  }
}
