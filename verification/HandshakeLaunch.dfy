// The invitation is sent; the inviter's application writes to and reads from its pipes.

module HandshakeLaunch {
  import opened Bytes
  import opened Names
  import opened Bodies
  import opened PortTable
  import opened Controllers
  import opened Handshake
  import opened HandshakeInvariant
  import opened HandshakeInvitee
  import opened HandshakeMessages
  import opened HandshakeInviteeSteps
  import opened HandshakeInviter
  import opened HandshakeInvitation

  // ------------------------------------------------------------------ sending the invitation

  function InvitedController(c: Controller, temp: Name, s: Socket): Controller {
    c.(remote := c.remote[s := temp], out := c.out[s := [AcceptInvitee(temp, c.node.name)]],
       pendingInvitations := c.pendingInvitations[temp := s])
  }

  lemma InviteShape(c: Controller, temp: Name, s: Socket)
    requires temp !in c.pendingInvitations
    ensures Invite(c, temp, s) == InvitedController(c, temp, s)
  {
    var d := Invite(c, temp, s);
    var m := AcceptInvitee(temp, c.node.name);
    assert [] + [m] == [m];
    assert d.out == c.out[s := [m]];
    assert d.remote == c.remote[s := temp];
  }

  function LaunchedSystem(s: System, k: Socket, temp: Name): System
    requires k in s.conns
  {
    s.(inviter := InvitedController(s.inviter, temp, k),
       conns := s.conns[k := s.conns[k].(stage := Invited(temp))])
  }

  lemma LaunchShape(s: System, k: Socket)
    requires k in s.conns && s.conns[k].stage.Listed? && s.conns[k].stage.temp !in s.inviter.pendingInvitations
    ensures InviteStep(s, k) == LaunchedSystem(s, k, s.conns[k].stage.temp)
  {
    hide Invite, InvitedController;
    InviteShape(s.inviter, s.conns[k].stage.temp, k);
  }

  lemma LaunchTyped(s: System, k: Socket, temp: Name)
    requires Typed(s) && InviterFacts(s) && KeysUsed(s.inviter, s.used) && k in s.conns
    requires temp in s.used && temp != NONE
    ensures
      var s' := LaunchedSystem(s, k, temp);
      Typed(s') && InviterFacts(s') && KeysUsed(s'.inviter, s'.used)
  {
    hide TypedConn, WellFormed;
  }

  lemma LaunchTallies(s: System, k: Socket, temp: Name)
    requires InviterTallies(s) && k in s.conns && k !in s.inviter.out
    ensures InviterTallies(LaunchedSystem(s, k, temp))
  {
    hide UsersTo, Count;
    var s' := LaunchedSystem(s, k, temp);
    forall r | r in s'.ends && r in s'.holder
      ensures EndTally(s', s'.ends[r], s'.holder[r])
    {
      assert EndTally(s, s.ends[r], s.holder[r]);
      UsersAppend([], AcceptInvitee(temp, s.inviter.node.name), s.ends[r]);
      assert [] + [AcceptInvitee(temp, s.inviter.node.name)] == [AcceptInvitee(temp, s.inviter.node.name)];
    }
  }

  lemma LaunchViews(s: System, k: Socket, temp: Name, j: Socket)
    requires k in s.conns && j in s.conns && j != k && TempOf(s.conns[j]) != temp
    ensures ViewOf(LaunchedSystem(s, k, temp), j) == ViewOf(s, j)
  {
    hide Mine, MyEnds, BusyWith;
  }

  lemma LaunchedView(s: System, k: Socket)
    requires k in s.conns && s.conns[k].stage.Listed?
    ensures
      var temp := s.conns[k].stage.temp;
      ViewOf(LaunchedSystem(s, k, temp), k)
      == ViewOf(s, k).(down := Some([AcceptInvitee(temp, s.inviter.node.name)]), remote := Some(temp),
                       pendingAt := Some(k))
  {
    hide Mine, MyEnds, BusyWith;
  }

  /** Which threads can find the inviter, and which ports are spliced, does not depend on the channels. */
  lemma SameSplices(v: View, v': View, b: Name, track: map<Name, Track>, callers: map<Name, Caller>,
                    lock: Option<Name>, canFind: bool, hasSwapped: bool)
    requires Splices(v, b, track) && Callers(v, callers, lock, track, canFind, hasSwapped)
    requires v'.a == v.a && v'.k == v.k && v'.mine == v.mine && v'.ends == v.ends && v'.io == v.io
    ensures Splices(v', b, track) && Callers(v', callers, lock, track, canFind, hasSwapped)
  {
  }

  lemma LaunchSide(v: View, v': View, ctrl: Controller, io: InviteeIo, takenDown: nat, takenUp: nat, temp: Name)
    requires InviteeSide(v, Bare(ctrl), io, takenDown, takenUp, temp) && v'.a == v.a && v'.k == v.k
    requires |Incoming(v)| <= |Incoming(v')|
    ensures InviteeSide(v', Bare(ctrl), io, takenDown, takenUp, temp)
  {
  }

  lemma LaunchConn(v: View, c: Conn)
    requires ConnInv(v, c) && c.stage.Listed?
    ensures
      var temp := c.stage.temp;
      var v' := v.(down := Some([AcceptInvitee(temp, v.a)]), remote := Some(temp), pendingAt := Some(v.k));
      ConnInv(v', c.(stage := Invited(temp)))
  {
    hide InviteePorts, Splices, UsersUp, Callers, TypedConn, SettledLater, InviterSide, InviteeSide;
    hide InState, AnsweredIn, Requests, Tallies;
    var temp := c.stage.temp;
    var m := AcceptInvitee(temp, v.a);
    var v' := v.(down := Some([m]), remote := Some(temp), pendingAt := Some(v.k));
    ConnSide(v, c);
    NotYet(v, c.stage, NameOf(c), c.takenUp);
    HasToken(v, c.stage, NameOf(c), c.takenUp);
    SameSplices(v, v', NameOf(c), c.track, c.callers, c.lock, CanFind(c.io, c.takenDown), HasSwapped(c.io, c.takenDown));
    LaunchSide(v, v', c.ctrl, c.io, c.takenDown, c.takenUp, temp);
    LaunchedSide(v', temp, NameOf(c));
    AnswersAppend([], m);
    assert [] + [m] == [m] && Incoming(v')[0..] == [m] && Incoming(v)[0..] == [];
    assert Incoming(v')[..0] == Incoming(v)[..0];
  }

  lemma LaunchedSide(v: View, temp: Name, b: Name)
    requires Waiting(v, temp) && v.io.AtRest? && v.a != NONE && b != NONE && v.a != b && v.mine == map[]
    ensures InviterSide(v, Invited(temp), b, 0)
  {
  }

  /** A stage that keeps the ports under the same key. */
  lemma SameReservations(dispatchers: Dispatchers, reserved: ReservedPorts, holder: map<Name, Place>,
                         bones: map<Socket, Bone>, k: Socket, stage: Stage)
    requires Reservations(dispatchers, reserved, holder, bones) && k in bones
    requires !bones[k].stage.Connected? && !bones[k].stage.Holding? && !stage.Connected? && !stage.Holding?
    requires stage.temp == bones[k].stage.temp && UnderToken(stage) == UnderToken(bones[k].stage)
    ensures Reservations(dispatchers, reserved, holder, bones[k := bones[k].(stage := stage)])
  {
    var bones' := bones[k := bones[k].(stage := stage)];
    forall q | q in holder
      ensures IsAt(dispatchers, reserved, bones', q, holder[q])
    {
      assert IsAt(dispatchers, reserved, bones, q, holder[q]);
    }
    hide IsAt;
    forall j | j in bones
      ensures HeldOf(dispatchers, holder, j, bones'[j].stage) && ReservedOf(reserved, holder, j, bones'[j])
    {
      assert HeldOf(dispatchers, holder, j, bones[j].stage) && ReservedOf(reserved, holder, j, bones[j]);
    }
  }

  lemma StageBones(conns: map<Socket, Conn>, k: Socket, stage: Stage)
    requires k in conns
    ensures
      var bones := Bones(conns);
      k in bones && bones[k] == Bone(conns[k].stage, NameOf(conns[k]))
      && Bones(conns[k := conns[k].(stage := stage)]) == bones[k := bones[k].(stage := stage)]
  {
    BonesAfter(conns, k, conns[k].(stage := stage));
    BonesKeys(conns);
  }

  lemma TokenUsed(a: Name, used: set<Name>, bones: map<Socket, Bone>, k: Socket)
    requires NamesApart(a, used, bones) && k in bones && !bones[k].stage.Connected?
    ensures bones[k].stage.temp in used && bones[k].stage.temp != NONE
    ensures forall j :: j in bones && j != k && !bones[j].stage.Connected? ==> bones[j].stage.temp != bones[k].stage.temp
  {
    assert bones[k].stage.temp in Keys(bones[k]);
    forall j | j in bones && j != k && !bones[j].stage.Connected?
      ensures bones[j].stage.temp != bones[k].stage.temp
    {
      TokenOfOne(a, used, bones, k, j);
    }
  }

  lemma LaunchKeeps(s: System, k: Socket)
    requires Inv(s) && k in s.conns && s.conns[k].stage.Listed?
    ensures Inv(InviteStep(s, k))
  {
    hide ConnInv, NamesApart, InviterPorts, Reservations, InviterTallies, Bones, ViewOf, WellFormedController;
    hide Connections, InviterFacts, KeysUsed, InviterSide, TypedConn, InviteStep, Typed, InvitedController;
    var v, temp, bones := ViewOf(s, k), s.conns[k].stage.temp, Bones(s.conns);
    Connection(s, k);
    ConnSide(v, s.conns[k]);
    NotYet(v, s.conns[k].stage, NameOf(s.conns[k]), s.conns[k].takenUp);
    HasToken(v, s.conns[k].stage, NameOf(s.conns[k]), s.conns[k].takenUp);
    PendingOf(s, k);
    ViewDown(s, k);
    LaunchShape(s, k);
    StageBones(s.conns, k, Invited(temp));
    BonesKeys(s.conns);
    TokenUsed(s.inviter.node.name, s.used, bones, k);
    LaunchTyped(s, k, temp);
    LaunchTallies(s, k, temp);
    SameNames(s.inviter.node.name, s.used, bones, k, Invited(temp));
    NewBonePorts(s.inviter.node, s.ends, s.holder, bones, k, bones[k].(stage := Invited(temp)));
    SameReservations(s.dispatchers, s.inviter.reserved, s.holder, bones, k, Invited(temp));
    LaunchConnections(s, k);
    InvitedRest(s.inviter, temp, k);
  }

  lemma InvitedRest(c: Controller, temp: Name, s: Socket)
    ensures InvitedController(c, temp, s).node == c.node && InvitedController(c, temp, s).reserved == c.reserved
  {
  }

  lemma ViewDown(s: System, k: Socket)
    requires k in s.conns
    ensures ViewOf(s, k).down == Lookup(s.inviter.out, k) && ViewOf(s, k).a == s.inviter.node.name
    ensures ViewOf(s, k).remote == Lookup(s.inviter.remote, k)
    ensures ViewOf(s, k).peerAt == Lookup(s.inviter.peers, NameOf(s.conns[k]))
    ensures ViewOf(s, k).io == BusyWith(s.io, k)
    ensures ViewOf(s, k).mine == Mine(s.holder, k) && ViewOf(s, k).ends == MyEnds(s.holder, s.ends, k)
  {
  }

  lemma LaunchConnections(s: System, k: Socket)
    requires Connections(s) && k in s.conns && s.conns[k].stage.Listed?
    requires NamesApart(s.inviter.node.name, s.used, Bones(s.conns))
    ensures Connections(LaunchedSystem(s, k, s.conns[k].stage.temp))
  {
    hide ConnInv, NamesApart, Bones, ViewOf, Connections, InvitedController;
    var temp := s.conns[k].stage.temp;
    BonesKeys(s.conns);
    TokenUsed(s.inviter.node.name, s.used, Bones(s.conns), k);
    Connection(s, k);
    LaunchedView(s, k);
    LaunchConn(ViewOf(s, k), s.conns[k]);
    ViewDown(s, k);
    forall j | j in s.conns && j != k
      ensures ViewOf(LaunchedSystem(s, k, temp), j) == ViewOf(s, j)
    {
      LaunchViews(s, k, temp, j);
    }
    AllConnections(s, LaunchedSystem(s, k, temp), k);
  }

  // ------------------------------------------------------------------ the inviter writes

  /** A merged pipe's connection: the invitee is a peer, and the port is one of its tracked ports. */
  lemma MergedEnd(s: System, r: Name)
    requires Inv(s) && r in s.ends && s.holder[r].Merged?
    ensures
      var k, p := s.holder[r].k, s.holder[r].connector;
      && k in s.conns && s.conns[k].stage.Joined? && p in s.conns[k].track
      && MergedAtInviter(s.conns[k].track[p].state) && s.conns[k].track[p].state.local == s.ends[r]
      && s.conns[k].track[p].state.bridge == r
      && Lookup(s.inviter.peers, NameOf(s.conns[k])) == Some(k)
      && HasPeer(s.inviter.node, s.ends[r], NameOf(s.conns[k]), p) && s.ends[r] in s.inviter.node.live
      && NameOf(s.conns[k]) != s.inviter.node.name
  {
    hide ConnInv, NamesApart, Reservations, InviterTallies, WellFormedController, Connections, InviterFacts;
    hide KeysUsed, InviterSide, TypedConn, Typed, ViewOf, Sound, EndsApart, Splices, Mine, MyEnds;
    var k := s.holder[r].k;
    BonesKeys(s.conns);
    hide Bones;
    assert EndOk(s.inviter.node, r, s.ends[r], s.holder[r], Bones(s.conns));
    Connection(s, k);
    var v, c := ViewOf(s, k), s.conns[k];
    ViewDown(s, k);
    MineMember(s.holder, s.ends, k, r);
    MergedTrack(v, c, r);
  }

  lemma MineMember(holder: map<Name, Place>, ends: map<Name, Name>, k: Socket, r: Name)
    requires r in holder && r in ends && Belongs(holder[r], k)
    ensures r in Mine(holder, k) && Mine(holder, k)[r] == holder[r]
    ensures r in MyEnds(holder, ends, k) && MyEnds(holder, ends, k)[r] == ends[r]
  {
  }

  lemma MergedTrack(v: View, c: Conn, r: Name)
    requires ConnInv(v, c) && r in v.mine && v.mine[r].Merged? && r in v.ends
    ensures c.stage.Joined? && v.mine[r].connector in c.track && v.peerAt == Some(v.k) && NameOf(c) != v.a
    ensures v.down.Some? && v.remote == Some(NameOf(c))
    ensures
      var st := c.track[v.mine[r].connector].state;
      MergedAtInviter(st) && st.local == v.ends[r] && st.bridge == r
  {
    hide InviteePorts, Tallies, InviteeSide, UsersUp, UsersDown, Callers, RequestPlaces, TypedConn, SettledLater;
    assert v.mine != map[];
  }

  lemma WriteConn(v: View, c: Conn, m: Body, p: Name)
    requires ConnInv(v, c) && c.stage.Joined? && v.down.Some? && m.UserMessage? && m.to == p
    requires p in c.track && MergedAtInviter(c.track[p].state) && c.track[p].state.local == m.from
    ensures ConnInv(v.(down := Some(v.down.value + [m])), c)
  {
    hide InviteePorts, Splices, UsersUp, Callers, TypedConn, SettledLater, InviteeSide, Tallies;
    hide InState, AnsweredIn, Requests, Answers, InviterSide;
    var v' := v.(down := Some(v.down.value + [m]));
    var down := Incoming(v);
    SameSplices(v, v', NameOf(c), c.track, c.callers, c.lock, CanFind(c.io, c.takenDown), HasSwapped(c.io, c.takenDown));
    ConnCounts(v, c);
    LaunchSide(v, v', c.ctrl, c.io, c.takenDown, c.takenUp, TempOf(c));
    JoinedDown(v, m, c.stage, NameOf(c), c.takenUp);
    assert Incoming(v') == down + [m];
    assert (down + [m])[c.takenDown..] == down[c.takenDown..] + [m];
    assert (down + [m])[..c.takenDown] == down[..c.takenDown];
    AnswersAppend(down[c.takenDown..], m);
    assert AnswerIn(m) == multiset{};
    WrittenDown(down, m, c.track);
  }

  lemma WrittenDown(down: seq<Body>, m: Body, track: map<Name, Track>)
    requires UsersDown(down, track) && m.UserMessage? && m.to in track
    requires MergedAtInviter(track[m.to].state) && track[m.to].state.local == m.from
    ensures UsersDown(down + [m], track)
  {
  }

  lemma JoinedDown(v: View, m: Body, stage: Stage, b: Name, takenUp: nat)
    requires InviterSide(v, stage, b, takenUp) && stage.Joined? && v.down.Some? && GoesDown(m)
    ensures InviterSide(v.(down := Some(v.down.value + [m])), stage, b, takenUp)
  {
    var down := v.down.value + [m];
    forall j | 0 < j < |down|
      ensures GoesDown(down[j])
    {
      if j < |v.down.value| {
        assert down[j] == v.down.value[j];
      }
    }
  }

  function WrittenSystem(s: System, k: Socket, m: Body): System
    requires k in s.inviter.out && m.UserMessage?
  {
    s.(inviter := Send(s.inviter, k, m), written := Add(s.written, m.from, m))
  }

  lemma WriteShape(s: System, p: Name, data: Text, k: Socket)
    requires WellFormedController(s.inviter) && p in s.inviter.node.ports && k in s.inviter.out
    requires
      var port := s.inviter.node.ports[p];
      port.peerNode != s.inviter.node.name && Lookup(s.inviter.peers, port.peerNode) == Some(k)
    ensures
      WriteAtInviter(s, p, data)
      == WrittenSystem(s, k, UserMessage(p, s.inviter.node.ports[p].peerPort, data))
  {
    hide WellFormedController, Send, Add;
  }

  lemma DroppedShape(s: System, p: Name, data: Text)
    requires WellFormedController(s.inviter) && p in s.inviter.node.ports
    requires s.inviter.node.ports[p].peerNode == s.inviter.node.name
    ensures WriteAtInviter(s, p, data) == s
  {
    hide WellFormedController;
  }

  lemma SentTyped(s: System, k: Socket, m: Body)
    requires Typed(s) && InviterFacts(s) && KeysUsed(s.inviter, s.used) && k in s.inviter.out
    ensures
      var s' := s.(inviter := Send(s.inviter, k, m));
      Typed(s') && InviterFacts(s') && KeysUsed(s'.inviter, s'.used)
  {
    hide TypedConn, WellFormedController;
  }

  lemma WriteTallied(s: System, k: Socket, m: Body, r: Name)
    requires InviterTallies(s) && k in s.inviter.out && m.UserMessage? && r in s.ends && r in s.holder
    requires s.holder[r].Merged? && s.holder[r].k == k && s.ends[r] == m.from && EndsApart(s.ends)
    ensures InviterTallies(WrittenSystem(s, k, m))
  {
    hide UsersTo, UsersFrom, Count, Add, EndTally, EndsApart;
    var s' := WrittenSystem(s, k, m);
    AddKeys(s.written, m.from, m);
    assert m.from in s.inviter.node.ports by { TallyPort(s, r); }
    forall q | q in s'.ends && q in s'.holder
      ensures EndTally(s', s'.ends[q], s'.holder[q])
    {
      WriteTally(s, k, m, r, q);
    }
  }

  lemma TallyPort(s: System, r: Name)
    requires InviterTallies(s) && r in s.ends && r in s.holder
    ensures EndTally(s, s.ends[r], s.holder[r]) && s.ends[r] in s.inviter.node.ports
  {
    assert EndTally(s, s.ends[r], s.holder[r]);
  }

  lemma FromAppend(bodies: seq<Body>, m: Body, l: Name)
    requires m.UserMessage?
    ensures UsersFrom(bodies + [m], l) == if l == m.from then UsersFrom(bodies, l) + multiset{m} else UsersFrom(bodies, l)
  {
    UsersAppend(bodies, m, l);
  }

  /** What a write at `m.from` changes of the tallies of `l`. */
  lemma WrittenParts(s: System, k: Socket, m: Body, l: Name)
    requires k in s.inviter.out && m.UserMessage?
    ensures
      var s' := WrittenSystem(s, k, m);
      && s'.inviter.node == s.inviter.node && s'.conns == s.conns && s'.read == s.read
      && (l == m.from ==> Count(s'.written, l) == Count(s.written, l) + multiset{m})
      && (l != m.from ==> Count(s'.written, l) == Count(s.written, l))
      && UsersFrom(Down(s', k), l)
         == (if l == m.from then UsersFrom(Down(s, k), l) + multiset{m} else UsersFrom(Down(s, k), l))
      && forall j :: j != k ==> Down(s', j) == Down(s, j)
  {
    hide UsersFrom, Count, Add, Down, WellFormedController;
    CountAdd(s.written, m.from, m, l);
    FromAppend(Down(s, k), m, l);
    SentDown(s, k, m);
  }

  lemma WriteTally(s: System, k: Socket, m: Body, r: Name, q: Name)
    requires InviterTallies(s) && k in s.inviter.out && m.UserMessage? && r in s.ends && r in s.holder
    requires s.holder[r].Merged? && s.holder[r].k == k && s.ends[r] == m.from && EndsApart(s.ends)
    requires q in s.ends && q in s.holder
    ensures EndTally(WrittenSystem(s, k, m), s.ends[q], s.holder[q])
  {
    hide UsersTo, UsersFrom, Count, Down, HeardFrom, WellFormedController, WrittenSystem;
    TallyPort(s, q);
    hide InviterTallies;
    var l := s.ends[q];
    assert q != r ==> l != m.from;
    hide EndsApart;
    WrittenParts(s, k, m, l);
  }

  lemma SentDown(s: System, k: Socket, m: Body)
    requires k in s.inviter.out && m.UserMessage?
    ensures
      var s' := WrittenSystem(s, k, m);
      Down(s', k) == Down(s, k) + [m] && forall j :: j != k ==> Down(s', j) == Down(s, j)
  {
    hide Add;
  }

  lemma WriteViews(s: System, k: Socket, m: Body, j: Socket)
    requires k in s.inviter.out && j in s.conns
    ensures
      var s' := s.(inviter := Send(s.inviter, k, m));
      ViewOf(s', j) == if j == k then ViewOf(s, k).(down := Some(s.inviter.out[k] + [m])) else ViewOf(s, j)
  {
    hide Mine, MyEnds, BusyWith;
  }

  lemma OwnFacts(s: System, p: Name)
    requires InviterPorts(s.inviter.node, s.ends, s.holder, Bones(s.conns)) && OwnPort(s, p)
    ensures s.ends.Keys == s.holder.Keys && EndsApart(s.ends)
    ensures (exists r :: r in s.ends && s.ends[r] == p && s.holder[r].Merged?)
         || s.inviter.node.ports[p].peerNode == s.inviter.node.name
  {
    hide Sound, EndsApart, Bones;
    if p in s.holder && s.holder[p].Extracted? {
      assert EndOk(s.inviter.node, p, s.ends[p], s.holder[p], Bones(s.conns));
    } else {
      var r :| r in s.ends && s.ends[r] == p;
      assert EndOk(s.inviter.node, r, p, s.holder[r], Bones(s.conns));
    }
  }

  lemma WriteOwnKeeps(s: System, p: Name, data: Text)
    requires Inv(s) && OwnPort(s, p) && WellFormedController(s.inviter)
    ensures Inv(WriteAtInviter(s, p, data))
  {
    hide ConnInv, NamesApart, InviterPorts, Reservations, InviterTallies, Bones, ViewOf, WellFormedController;
    hide Connections, InviterFacts, KeysUsed, TypedConn, Typed, EndsApart, WriteAtInviter, Send;
    OwnFacts(s, p);
    if r :| r in s.ends && s.ends[r] == p && s.holder[r].Merged? {
      var k, q := s.holder[r].k, s.holder[r].connector;
      MergedEnd(s, r);
      PeerHasChannel(s.inviter, NameOf(s.conns[k]));
      var m := UserMessage(p, q, data);
      WriteShape(s, p, data, k);
      WrittenKeeps(s, k, m, r);
    } else {
      DroppedShape(s, p, data);
    }
  }

  lemma WrittenKeeps(s: System, k: Socket, m: Body, r: Name)
    requires Inv(s) && k in s.conns && k in s.inviter.out && m.UserMessage?
    requires r in s.ends && r in s.holder && s.holder[r] == Merged(k, m.to) && s.ends[r] == m.from
    requires s.conns[k].stage.Joined? && m.to in s.conns[k].track
    requires MergedAtInviter(s.conns[k].track[m.to].state) && s.conns[k].track[m.to].state.local == m.from
    ensures Inv(WrittenSystem(s, k, m))
  {
    hide ConnInv, NamesApart, InviterPorts, Reservations, InviterTallies, Bones, ViewOf, WellFormedController;
    hide Connections, InviterFacts, KeysUsed, TypedConn, Typed, EndsApart, Send, Add;
    var s' := WrittenSystem(s, k, m);
    var t := s.(inviter := Send(s.inviter, k, m));
    PortsApart(s);
    WriteTallied(s, k, m, r);
    SentTyped(s, k, m);
    TypedTally(t, s');
    SendKeepsRest(s.inviter, k, m);
    Connection(s, k);
    ViewDown(s, k);
    WriteConn(ViewOf(s, k), s.conns[k], m, m.to);
    forall j | j in s.conns
      ensures ViewOf(s', j)
           == if j == k then ViewOf(s, k).(down := Some(s.inviter.out[k] + [m])) else ViewOf(s, j)
    {
      WriteViews(s, k, m, j);
      TallyView(t, s', j);
    }
    AllConnections(s, s', k);
  }

  lemma PortsApart(s: System)
    requires InviterPorts(s.inviter.node, s.ends, s.holder, Bones(s.conns))
    ensures EndsApart(s.ends) && Sound(s.inviter.node) && s.ends.Keys == s.holder.Keys
  {
  }

  lemma TypedTally(s: System, s': System)
    requires Typed(s) && InviterFacts(s) && KeysUsed(s.inviter, s.used)
    requires s' == s.(written := s'.written, read := s'.read)
    ensures Typed(s') && InviterFacts(s') && KeysUsed(s'.inviter, s'.used)
  {
    hide TypedConn, WellFormedController;
  }

  lemma TallyView(s: System, s': System, j: Socket)
    requires s' == s.(written := s'.written, read := s'.read) && j in s.conns
    ensures ViewOf(s', j) == ViewOf(s, j)
  {
  }

  // ------------------------------------------------------------------ the inviter reads

  lemma QueuePorts(n: Node, n': Node, ends: map<Name, Name>, holder: map<Name, Place>, bones: map<Socket, Bone>)
    requires InviterPorts(n, ends, holder, bones) && SameBut(n, n')
    ensures InviterPorts(n', ends, holder, bones) && WellFormed(n')
  {
    SameIsSound(n, n');
    SoundIsWellFormed(n');
    hide Sound, EndsApart;
    forall r | r in ends
      ensures EndOk(n', r, ends[r], holder[r], bones)
    {
      assert EndOk(n, r, ends[r], holder[r], bones);
    }
  }

  function ReadSystem(s: System, n: Node, p: Name, m: Option<Body>): System {
    s.(inviter := s.inviter.(node := n), read := if m.Some? then Add(s.read, p, m.value) else s.read)
  }

  lemma ReadTallied(s: System, n: Node, p: Name, m: Option<Body>)
    requires InviterTallies(s) && p in s.inviter.node.ports && n.ports.Keys == s.inviter.node.ports.Keys
    requires forall q :: q in s.inviter.node.ports && q != p ==> n.ports[q] == s.inviter.node.ports[q]
    requires multiset(s.inviter.node.ports[p].queue)
          == multiset(n.ports[p].queue) + (if m.Some? then multiset{m.value} else multiset{})
    ensures InviterTallies(ReadSystem(s, n, p, m))
  {
    hide UsersTo, UsersFrom, Count, Add, EndTally;
    var s' := ReadSystem(s, n, p, m);
    if m.Some? {
      AddKeys(s.read, p, m.value);
    }
    forall r | r in s'.ends && r in s'.holder
      ensures EndTally(s', s'.ends[r], s'.holder[r])
    {
      ReadTally(s, n, p, m, r);
    }
  }

  lemma ReadTally(s: System, n: Node, p: Name, m: Option<Body>, r: Name)
    requires InviterTallies(s) && p in s.inviter.node.ports && n.ports.Keys == s.inviter.node.ports.Keys
    requires forall q :: q in s.inviter.node.ports && q != p ==> n.ports[q] == s.inviter.node.ports[q]
    requires multiset(s.inviter.node.ports[p].queue)
          == multiset(n.ports[p].queue) + (if m.Some? then multiset{m.value} else multiset{})
    requires r in s.ends && r in s.holder
    ensures EndTally(ReadSystem(s, n, p, m), s.ends[r], s.holder[r])
  {
    hide UsersTo, UsersFrom, Count, Add, Down, HeardFrom;
    TallyPort(s, r);
    hide InviterTallies;
    var s', l := ReadSystem(s, n, p, m), s.ends[r];
    var x := if m.Some? && p == l then multiset{m.value} else multiset{};
    assert Count(s'.read, l) == Count(s.read, l) + x by {
      if m.Some? {
        CountAdd(s.read, p, m.value, l);
      }
    }
    Balance(multiset(s.inviter.node.ports[l].queue), multiset(n.ports[l].queue), Count(s.read, l), x);
    SameDown(s, s', s.holder[r]);
  }

  lemma Balance(queue: multiset<Body>, queue': multiset<Body>, read: multiset<Body>, x: multiset<Body>)
    requires queue == queue' + x
    ensures queue' + (read + x) == queue + read
  {
  }

  lemma SameDown(s: System, s': System, place: Place)
    requires s'.inviter.out == s.inviter.out
    ensures place.Merged? ==> Down(s', place.k) == Down(s, place.k)
  {
  }

  lemma NodeTyped(s: System, n: Node)
    requires Typed(s) && InviterFacts(s) && KeysUsed(s.inviter, s.used)
    requires WellFormed(n) && s.inviter.node.ports.Keys <= n.ports.Keys
    ensures
      var s' := s.(inviter := s.inviter.(node := n));
      Typed(s') && InviterFacts(s') && KeysUsed(s'.inviter, s'.used)
  {
    AttachTyped(s, s.(inviter := s.inviter.(node := n)), n);
  }

  lemma NodeView(s: System, n: Node, j: Socket)
    requires n.name == s.inviter.node.name && j in s.conns
    ensures ViewOf(s.(inviter := s.inviter.(node := n)), j) == ViewOf(s, j)
  {
    hide Mine, MyEnds, BusyWith;
  }

  lemma ReadOwnKeeps(s: System, p: Name)
    requires Inv(s) && p in s.inviter.node.ports
    ensures Inv(ReadAtInviter(s, p))
  {
    hide ConnInv, NamesApart, InviterPorts, Reservations, InviterTallies, Bones, ViewOf, WellFormedController;
    hide Connections, InviterFacts, KeysUsed, TypedConn, Typed, EndsApart, PortTable.GetMessage, SameBut, Sound, Add;
    var (m, n) := PortTable.GetMessage(s.inviter.node, p);
    var t := s.(inviter := s.inviter.(node := n));
    var s' := ReadSystem(s, n, p, m);
    PortsApart(s);
    GetMessageTakesOne(s.inviter.node, p);
    SameButFacts(s.inviter.node, n);
    QueuePorts(s.inviter.node, n, s.ends, s.holder, Bones(s.conns));
    ReadTallied(s, n, p, m);
    NodeTyped(s, n);
    TypedTally(t, s');
    forall j | j in s.conns
      ensures ViewOf(s', j) == ViewOf(s, j)
    {
      NodeView(s, n, j);
      TallyView(t, s', j);
    }
    SameConnections(s, s');
  }
}
