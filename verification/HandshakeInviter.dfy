// The steps of the inviter's application, and of invitees seen from the whole system.

module HandshakeInviter {
  import opened Bytes
  import opened Names
  import opened Bodies
  import opened PortTable
  import opened Controllers
  import opened Handshake
  import opened HandshakeInvariant
  import opened HandshakeInvitee
  import opened HandshakeMessages
  import opened HandshakeInviteeSteps

  /** What a step that concerns one connection must show of the others. */
  lemma AllConnections(s: System, s': System, k: Socket)
    requires Connections(s) && s'.conns.Keys == s.conns.Keys && k in s.conns
    requires forall j :: j in s.conns && j != k ==> s'.conns[j] == s.conns[j] && ViewOf(s', j) == ViewOf(s, j)
    requires ConnInv(ViewOf(s', k), s'.conns[k])
    ensures Connections(s')
  {
    hide ConnInv, ViewOf;
  }

  lemma SameConnections(s: System, s': System)
    requires Connections(s) && s'.conns == s.conns
    requires forall j :: j in s.conns ==> ViewOf(s', j) == ViewOf(s, j)
    ensures Connections(s')
  {
    hide ConnInv, ViewOf;
  }

  lemma Connection(s: System, k: Socket)
    requires Connections(s) && k in s.conns
    ensures ConnInv(ViewOf(s, k), s.conns[k]) && ViewOf(s, k).k == k
  {
    hide ConnInv;
  }

  /** When a connection sees the same. */
  lemma SameView(s: System, s': System, j: Socket)
    requires j in s.conns && j in s'.conns
    requires TempOf(s'.conns[j]) == TempOf(s.conns[j]) && NameOf(s'.conns[j]) == NameOf(s.conns[j])
    requires s'.inviter.node.name == s.inviter.node.name
    requires Lookup(s'.inviter.out, j) == Lookup(s.inviter.out, j)
    requires Lookup(s'.inviter.remote, j) == Lookup(s.inviter.remote, j)
    requires Lookup(s'.inviter.pendingInvitations, TempOf(s.conns[j]))
          == Lookup(s.inviter.pendingInvitations, TempOf(s.conns[j]))
    requires Lookup(s'.inviter.peers, NameOf(s.conns[j])) == Lookup(s.inviter.peers, NameOf(s.conns[j]))
    requires BusyWith(s'.io, j) == BusyWith(s.io, j)
    requires Mine(s'.holder, j) == Mine(s.holder, j)
    requires MyEnds(s'.holder, s'.ends, j) == MyEnds(s.holder, s.ends, j)
    ensures ViewOf(s', j) == ViewOf(s, j)
  {
    hide Mine, MyEnds, BusyWith, TempOf;
  }

  /** What the inviter has of its channels and tables. */
  predicate SameTables(c: Controller, d: Controller) {
    && d.node.name == c.node.name && d.out == c.out && d.remote == c.remote && d.peers == c.peers
    && d.pendingInvitations == c.pendingInvitations
  }

  lemma SameTablesViews(s: System, s': System, j: Socket)
    requires j in s.conns && j in s'.conns && SameTables(s.inviter, s'.inviter)
    requires TempOf(s'.conns[j]) == TempOf(s.conns[j]) && NameOf(s'.conns[j]) == NameOf(s.conns[j])
    requires BusyWith(s'.io, j) == BusyWith(s.io, j)
    requires Mine(s'.holder, j) == Mine(s.holder, j)
    requires MyEnds(s'.holder, s'.ends, j) == MyEnds(s.holder, s.ends, j)
    ensures ViewOf(s', j) == ViewOf(s, j)
  {
    hide Mine, MyEnds, BusyWith, TempOf, ViewOf;
    SameView(s, s', j);
  }

  // ------------------------------------------------------------------ steps of an invitee

  lemma SameBones(conns: map<Socket, Conn>, k: Socket, c: Conn)
    requires k in conns && c.stage == conns[k].stage && NameOf(c) == NameOf(conns[k])
    ensures Bones(conns[k := c]) == Bones(conns)
  {
  }

  lemma InviteeTallies(s: System, k: Socket, c: Conn)
    requires InviterTallies(s) && k in s.conns && Extends(k, s.conns[k], c)
    requires s.conns[k].takenUp <= |Sent(s.conns[k].ctrl, k)|
    ensures InviterTallies(WithConn(s, k, c))
  {
    hide UsersTo, UsersFrom, Sent, Count;
    var s' := WithConn(s, k, c);
    assert HeardFrom(c, k) == HeardFrom(s.conns[k], k) by {
      SamePrefix(Sent(s.conns[k].ctrl, k), Sent(c.ctrl, k), c.takenUp);
    }
    hide HeardFrom;
    forall r | r in s'.ends && r in s'.holder
      ensures EndTally(s', s'.ends[r], s'.holder[r])
    {
      assert EndTally(s, s.ends[r], s.holder[r]);
    }
  }

  lemma SamePrefix(x: seq<Body>, y: seq<Body>, n: nat)
    requires x <= y && n <= |x|
    ensures y[..n] == x[..n]
  {
  }

  lemma ConnCounts(v: View, c: Conn)
    requires ConnInv(v, c)
    ensures TypedConn(c.ctrl, v.k) && c.takenUp <= |Sent(c.ctrl, v.k)| && c.takenDown <= |Incoming(v)|
  {
    hide InviteePorts, Tallies, InviteeSide, InviterSide, Splices, UsersUp, UsersDown, Callers, RequestPlaces;
  }

  lemma ViewIncoming(s: System, k: Socket)
    requires k in s.conns
    ensures Incoming(ViewOf(s, k)) == Down(s, k) && ViewOf(s, k).k == k
  {
  }

  lemma InviteeViews(s: System, k: Socket, d: Conn)
    requires k in s.conns && d.stage == s.conns[k].stage && NameOf(d) == NameOf(s.conns[k])
    ensures forall j :: j in s.conns ==> ViewOf(WithConn(s, k, d), j) == ViewOf(s, j)
  {
    hide ViewOf;
    forall j | j in s.conns
      ensures ViewOf(WithConn(s, k, d), j) == ViewOf(s, j)
    {
      SameViews(s, k, d, j);
    }
  }

  lemma InviteeTyped(s: System, k: Socket, d: Conn)
    requires Typed(s) && InviterFacts(s) && TypedConn(d.ctrl, k) && k in s.conns
    ensures Typed(WithConn(s, k, d)) && InviterFacts(WithConn(s, k, d))
  {
    hide TypedConn, WellFormedController;
  }

  lemma AtInviteeKeeps(s: System, k: Socket, step: InviteeStep)
    requires Inv(s) && k in s.conns && TypedConn(s.conns[k].ctrl, k)
    requires CanAtInvitee(s.conns[k], k, Down(s, k), step)
    ensures
      var r := DoAtInvitee(s.conns[k], k, Down(s, k), step);
      r.Done? && Inv(WithConn(s, k, r.value))
  {
    hide ConnInv, ViewOf, NamesApart, InviterPorts, Reservations, InviterTallies, DoAtInvitee, CanAtInvitee, Typed;
    hide TypedConn, Bones, Extends, Connections, InviterFacts, KeysUsed;
    var v, c := ViewOf(s, k), s.conns[k];
    Connection(s, k);
    ViewIncoming(s, k);
    InviteeStepKeeps(v, c, step);
    var d := DoAtInvitee(c, k, Down(s, k), step).value;
    ConnCounts(v, c);
    ConnCounts(v, d);
    ExtendsFacts(k, c, d);
    SameBones(s.conns, k, d);
    InviteeTallies(s, k, d);
    InviteeTyped(s, k, d);
    InviteeViews(s, k, d);
    AllConnections(s, WithConn(s, k, d), k);
  }

  lemma ExtendsFacts(k: Socket, c: Conn, d: Conn)
    requires Extends(k, c, d)
    ensures d.stage == c.stage && d.takenUp == c.takenUp && NameOf(d) == NameOf(c)
  {
  }

  lemma SameViews(s: System, k: Socket, d: Conn, j: Socket)
    requires k in s.conns && j in s.conns && d.stage == s.conns[k].stage && NameOf(d) == NameOf(s.conns[k])
    ensures ViewOf(WithConn(s, k, d), j) == ViewOf(s, j)
  {
  }

  // ------------------------------------------------------------------ a new invitee

  lemma NewConnHolds(v: View, b: Name)
    requires v.a != NONE && b != NONE && v.a != b
    requires v.down.None? && v.remote.None? && v.pendingAt.None? && v.peerAt.None? && v.io.AtRest?
    requires v.mine == map[]
    ensures ConnInv(v, NewConn(v.k, b))
  {
    var c := NewConn(v.k, b);
    assert Sent(c.ctrl, v.k) == [];
    assert InState(c.track, PutOff) == InState(c.track, Swapped) == InState(c.track, Asked) == {};
    assert AnsweredIn(c.track) == {};
  }

  lemma BonesAfter(conns: map<Socket, Conn>, k: Socket, c: Conn)
    ensures Bones(conns[k := c]) == Bones(conns)[k := Bone(c.stage, NameOf(c))]
  {
  }

  lemma NewName(a: Name, used: set<Name>, bones: map<Socket, Bone>, k: Socket, b: Name)
    requires NamesApart(a, used, bones) && b !in used && k !in bones
    ensures NamesApart(a, used + {b}, bones[k := Bone(Stage.Connected, b)]) && b != NONE && a != b && a != NONE
  {
  }

  lemma NewBonePorts(n: Node, ends: map<Name, Name>, holder: map<Name, Place>, bones: map<Socket, Bone>,
                     k: Socket, b: Bone)
    requires InviterPorts(n, ends, holder, bones) && (k in bones ==> bones[k].name == b.name)
    ensures InviterPorts(n, ends, holder, bones[k := b])
  {
    hide Sound, LocalPair, HasPeer, EndsApart;
    forall r | r in ends
      ensures EndOk(n, r, ends[r], holder[r], bones[k := b])
    {
      assert EndOk(n, r, ends[r], holder[r], bones);
    }
  }

  lemma NewBoneReservations(dispatchers: Dispatchers, reserved: ReservedPorts, holder: map<Name, Place>,
                            bones: map<Socket, Bone>, k: Socket, b: Name)
    requires Reservations(dispatchers, reserved, holder, bones) && k !in bones && b !in reserved
    ensures Reservations(dispatchers, reserved, holder, bones[k := Bone(Stage.Connected, b)])
    ensures Mine(holder, k) == map[]
  {
    forall r | r in holder
      ensures IsAt(dispatchers, reserved, bones[k := Bone(Stage.Connected, b)], r, holder[r]) && !Belongs(holder[r], k)
    {
      assert IsAt(dispatchers, reserved, bones, r, holder[r]);
    }
  }

  lemma SameTallies(s: System, s': System)
    requires InviterTallies(s) && s'.ends == s.ends && s'.holder == s.holder
    requires s'.inviter.node == s.inviter.node && s'.written == s.written && s'.read == s.read
    requires s'.inviter.out == s.inviter.out
    requires forall j :: j in s.conns ==> j in s'.conns && s'.conns[j].takenUp == s.conns[j].takenUp
                                          && s'.conns[j].ctrl == s.conns[j].ctrl
    ensures InviterTallies(s')
  {
    hide UsersTo, UsersFrom, Count;
    forall r | r in s'.ends && r in s'.holder
      ensures EndTally(s', s'.ends[r], s'.holder[r])
    {
      assert EndTally(s, s.ends[r], s.holder[r]);
    }
  }

  function Connected(s: System, k: Socket, b: Name): System {
    WithConn(s, k, NewConn(k, b)).(used := s.used + {b})
  }

  lemma ConnectViews(s: System, k: Socket, b: Name)
    requires k !in s.conns
    ensures forall j :: j in s.conns ==> ViewOf(Connected(s, k, b), j) == ViewOf(s, j)
  {
    hide Mine, MyEnds, BusyWith, NewConn;
  }

  lemma ConnectedHolds(s: System, k: Socket, b: Name)
    requires InviterFacts(s) && WellFormedController(s.inviter) && KeysUsed(s.inviter, s.used)
    requires k !in s.conns && b !in s.used && Mine(s.holder, k) == map[]
    requires s.inviter.node.name != NONE && b != NONE && s.inviter.node.name != b
    ensures ConnInv(ViewOf(Connected(s, k, b), k), NewConn(k, b))
  {
    hide ConnInv, Mine, MyEnds, BusyWith, WellFormedController, NewConn;
    NewConnFacts(k, b);
    ChannelKeys(s.inviter);
    Idle(s.io, k);
    NewConnHolds(ViewOf(Connected(s, k, b), k), b);
  }

  lemma ConnectTyped(s: System, k: Socket, b: Name)
    requires Typed(s) && InviterFacts(s) && KeysUsed(s.inviter, s.used)
    ensures
      var s' := Connected(s, k, b);
      Typed(s') && InviterFacts(s') && KeysUsed(s'.inviter, s'.used)
  {
    hide WellFormedController, TypedConn, NewConn;
    NewConnFacts(k, b);
  }

  lemma ConnectShape(s: System, k: Socket, b: Name)
    ensures
      var s' := Connected(s, k, b);
      && s'.inviter == s.inviter && s'.conns == s.conns[k := NewConn(k, b)] && s'.used == s.used + {b}
      && s'.dispatchers == s.dispatchers && s'.ends == s.ends && s'.holder == s.holder
      && s'.written == s.written && s'.read == s.read && s'.conns[k] == NewConn(k, b)
  {
    hide NewConn;
  }

  lemma ConnectTallies(s: System, k: Socket, b: Name)
    requires InviterTallies(s) && k !in s.conns
    ensures InviterTallies(Connected(s, k, b))
  {
    hide NewConn, InviterTallies;
    SameTallies(s, Connected(s, k, b));
  }

  lemma ConnectKeeps(s: System, k: Socket, b: Name)
    requires Inv(s) && k !in s.conns && b !in s.used
    ensures Inv(Connected(s, k, b))
  {
    hide ConnInv, NamesApart, InviterPorts, Reservations, InviterTallies, Bones, NewConn, Mine, ViewOf;
    hide WellFormedController, InviterFacts, TypedConn, Connections, Connected, KeysUsed;
    var bones := Bones(s.conns);
    ConnectShape(s, k, b);
    ConnectTyped(s, k, b);
    BonesKeys(s.conns);
    BonesAfter(s.conns, k, NewConn(k, b));
    NewConnFacts(k, b);
    NewName(s.inviter.node.name, s.used, bones, k, b);
    NewBonePorts(s.inviter.node, s.ends, s.holder, bones, k, Bone(Stage.Connected, b));
    UnusedKeys(s.inviter, s.used, b);
    NewBoneReservations(s.dispatchers, s.inviter.reserved, s.holder, bones, k, b);
    ConnectTallies(s, k, b);
    ConnectedHolds(s, k, b);
    ConnectViews(s, k, b);
    MoreConnections(s, Connected(s, k, b), k);
  }

  lemma UnusedKeys(c: Controller, used: set<Name>, b: Name)
    requires KeysUsed(c, used) && b !in used
    ensures b !in c.peers && b !in c.reserved && b !in c.pendingInvitations
  {
  }

  lemma MoreConnections(s: System, s': System, k: Socket)
    requires Connections(s) && s'.conns.Keys == s.conns.Keys + {k}
    requires forall j :: j in s.conns ==> s'.conns[j] == s.conns[j] && ViewOf(s', j) == ViewOf(s, j)
    requires ConnInv(ViewOf(s', k), s'.conns[k])
    ensures Connections(s')
  {
    hide ConnInv, ViewOf;
  }

  lemma Idle(io: InviterIo, k: Socket)
    requires io.AtRest? || io.k != k
    ensures BusyWith(io, k) == AtRest
  {
  }

  lemma BonesKeys(conns: map<Socket, Conn>)
    ensures Bones(conns).Keys == conns.Keys
    ensures forall k :: k in conns ==> Bones(conns)[k] == Bone(conns[k].stage, NameOf(conns[k]))
  {
  }

  lemma NewConnFacts(k: Socket, b: Name)
    ensures
      var c := NewConn(k, b);
      c.stage == Stage.Connected && NameOf(c) == b && TypedConn(c.ctrl, k)
  {
  }

  lemma ChannelKeys(c: Controller)
    requires WellFormedController(c)
    ensures c.out.Keys == c.remote.Keys && WellFormed(c.node)
  {
  }

  // ------------------------------------------------------------------ attaching and extracting

  lemma AttachPorts(n: Node, ends: map<Name, Name>, holder: map<Name, Place>, bones: map<Socket, Bone>,
                    l: Name, r: Name, place: Place)
    requires InviterPorts(n, ends, holder, bones) && FreshPorts(n, l, r) && !place.Merged?
    ensures
      var n' := CreatePair(n, l, r).1;
      && InviterPorts(n', ends[r := l], holder[r := place], bones) && InviterPorts(n', ends, holder, bones)
      && r !in holder && r !in ends && n'.name == n.name && WellFormed(n')
      && n.ports.Keys <= n'.ports.Keys && l in n'.ports && n'.ports[l].queue == []
      && (forall q :: q in ends ==> ends[q] != l && ends[q] in n.ports)
      && (forall q :: q in n.ports ==> n'.ports[q] == n.ports[q])
  {
    PairAdded(n, l, r);
    EndsInTable(n, ends, holder, bones);
    hide CreatePair, Sound, EndsApart, LocalPair, HasPeer;
    var n' := CreatePair(n, l, r).1;
    forall q | q in ends
      ensures EndOk(n', q, ends[q], holder[q], bones)
    {
      assert EndOk(n, q, ends[q], holder[q], bones);
    }
    StillEndsApart(ends, l, r);
  }

  lemma EndsInTable(n: Node, ends: map<Name, Name>, holder: map<Name, Place>, bones: map<Socket, Bone>)
    requires InviterPorts(n, ends, holder, bones)
    ensures forall q :: q in ends ==> q in n.ports && ends[q] in n.ports
  {
    hide EndsApart;
    forall q | q in ends
      ensures q in n.ports && ends[q] in n.ports
    {
      assert EndOk(n, q, ends[q], holder[q], bones);
    }
  }

  lemma StillEndsApart(ends: map<Name, Name>, l: Name, r: Name)
    requires EndsApart(ends) && l != r && l !in ends && r !in ends
    requires forall q :: q in ends ==> ends[q] != l && ends[q] != r
    ensures EndsApart(ends[r := l])
  {
  }

  lemma AttachReservations(dispatchers: Dispatchers, reserved: ReservedPorts, holder: map<Name, Place>,
                           bones: map<Socket, Bone>, h: nat, x: Text, r: Name)
    requires Reservations(dispatchers, reserved, holder, bones) && r !in holder && h in dispatchers
    requires x !in dispatchers[h]
    ensures Reservations(dispatchers[h := dispatchers[h][x := r]], reserved, holder[r := Attached(h, x)], bones)
  {
    var dispatchers', holder' := dispatchers[h := dispatchers[h][x := r]], holder[r := Attached(h, x)];
    forall q | q in holder'
      ensures IsAt(dispatchers', reserved, bones, q, holder'[q])
    {
      if q != r {
        assert IsAt(dispatchers, reserved, bones, q, holder[q]);
      }
    }
    forall k | k in bones
      ensures HeldOf(dispatchers', holder', k, bones[k].stage) && ReservedOf(reserved, holder', k, bones[k])
    {
      assert HeldOf(dispatchers, holder, k, bones[k].stage) && ReservedOf(reserved, holder, k, bones[k]);
    }
  }

  lemma AttachTallies(s: System, s': System, l: Name, r: Name, place: Place)
    requires InviterTallies(s) && !place.Merged? && r !in s.ends && r !in s.holder
    requires s'.ends == s.ends[r := l] && s'.holder == s.holder[r := place]
    requires s'.written == s.written && s'.read == s.read && s'.conns == s.conns && s'.inviter.out == s.inviter.out
    requires l !in s.inviter.node.ports && l in s'.inviter.node.ports && s'.inviter.node.ports[l].queue == []
    requires s.inviter.node.ports.Keys <= s'.inviter.node.ports.Keys
    requires forall q :: q in s.inviter.node.ports ==> s'.inviter.node.ports[q] == s.inviter.node.ports[q]
    ensures InviterTallies(s')
  {
    hide UsersTo, UsersFrom;
    forall q | q in s'.ends && q in s'.holder
      ensures EndTally(s', s'.ends[q], s'.holder[q])
    {
      if q != r {
        assert EndTally(s, s.ends[q], s.holder[q]);
      }
    }
  }

  lemma LostTallies(s: System, s': System)
    requires InviterTallies(s) && s'.ends == s.ends && s'.holder == s.holder
    requires s'.written == s.written && s'.read == s.read && s'.conns == s.conns && s'.inviter.out == s.inviter.out
    requires s.inviter.node.ports.Keys <= s'.inviter.node.ports.Keys
    requires forall q :: q in s.inviter.node.ports ==> s'.inviter.node.ports[q] == s.inviter.node.ports[q]
    ensures InviterTallies(s')
  {
    hide UsersTo, UsersFrom;
    forall q | q in s'.ends && q in s'.holder
      ensures EndTally(s', s'.ends[q], s'.holder[q])
    {
      assert EndTally(s, s.ends[q], s.holder[q]);
    }
  }

  lemma TypedInviter(c: Controller, n: Node)
    requires WellFormedController(c) && WellFormed(n) && c.node.ports.Keys <= n.ports.Keys
    ensures WellFormedController(c.(node := n))
  {
    hide WellFormed;
  }

  lemma MineAfterAttach(holder: map<Name, Place>, ends: map<Name, Name>, r: Name, place: Place, l: Name, k: Socket)
    requires r !in holder && !Belongs(place, k)
    ensures Mine(holder[r := place], k) == Mine(holder, k)
    ensures MyEnds(holder[r := place], ends[r := l], k) == MyEnds(holder, ends, k)
  {
  }

  lemma AttachViews(s: System, s': System, l: Name, r: Name, h: nat, pipe: Text, j: Socket)
    requires j in s.conns && s'.conns == s.conns && s'.io == s.io && SameTables(s.inviter, s'.inviter)
    requires r !in s.holder
    requires (s'.holder == s.holder && s'.ends == s.ends)
          || (s'.holder == s.holder[r := Attached(h, pipe)] && s'.ends == s.ends[r := l])
    ensures ViewOf(s', j) == ViewOf(s, j)
  {
    hide Mine, MyEnds, BusyWith, SameTables, ViewOf, TempOf;
    MineAfterAttach(s.holder, s.ends, r, Attached(h, pipe), l, j);
    SameTablesViews(s, s', j);
  }

  lemma AttachTyped(s: System, s': System, n: Node)
    requires Typed(s) && InviterFacts(s) && KeysUsed(s.inviter, s.used)
    requires WellFormed(n) && s.inviter.node.ports.Keys <= n.ports.Keys
    requires s'.inviter == s.inviter.(node := n) && s'.conns == s.conns && s'.io == s.io && s'.used == s.used
    requires s'.crashed == s.crashed && s'.dropped == s.dropped
    ensures Typed(s') && InviterFacts(s') && KeysUsed(s'.inviter, s'.used)
  {
    hide WellFormedController, TypedConn, WellFormed;
    TypedInviter(s.inviter, n);
  }

  lemma AttachShape(s: System, h: nat, pipe: Text, l: Name, r: Name)
    requires h in s.dispatchers && FreshPorts(s.inviter.node, l, r)
    ensures Drawable(s.inviter.node, l) && Drawable(s.inviter.node, r)
    ensures
      var s' := AttachPipe(s, h, pipe, l, r);
      && s'.inviter == s.inviter.(node := CreatePair(s.inviter.node, l, r).1)
      && s'.io == s.io && s'.conns == s.conns && s'.used == s.used
      && s'.crashed == s.crashed && s'.dropped == s.dropped && s'.written == s.written && s'.read == s.read
  {
    hide CreatePair, WithPair, FreshPorts;
    PairShape(s.inviter, l, r);
  }

  lemma AttachTables(s: System, h: nat, pipe: Text, l: Name, r: Name)
    requires h in s.dispatchers && FreshPorts(s.inviter.node, l, r)
    ensures
      var s' := AttachPipe(s, h, pipe, l, r);
      if pipe in s.dispatchers[h] then
        s'.holder == s.holder && s'.ends == s.ends && s'.dispatchers == s.dispatchers
      else
        && s'.holder == s.holder[r := Attached(h, pipe)] && s'.ends == s.ends[r := l]
        && s'.dispatchers == s.dispatchers[h := s.dispatchers[h][pipe := r]]
  {
    hide CreatePair, WithPair, FreshPorts;
  }

  lemma PairShape(c: Controller, l: Name, r: Name)
    requires FreshPorts(c.node, l, r)
    ensures Drawable(c.node, l) && Drawable(c.node, r) && l !in c.node.ports
    ensures WithPair(c, l, r) == c.(node := CreatePair(c.node, l, r).1)
  {
    hide CreatePair;
  }

  lemma OtherNode(c: Controller, n: Node)
    requires n.name == c.node.name
    ensures SameTables(c, c.(node := n)) && c.(node := n).reserved == c.reserved
  {
  }

  lemma AttachConnections(s: System, h: nat, pipe: Text, l: Name, r: Name)
    requires Inv(s) && h in s.dispatchers && FreshPorts(s.inviter.node, l, r)
    ensures
      var s' := AttachPipe(s, h, pipe, l, r);
      Typed(s') && InviterFacts(s') && KeysUsed(s'.inviter, s'.used) && Connections(s')
  {
    hide ConnInv, NamesApart, InviterPorts, Reservations, InviterTallies, Bones, ViewOf, Connections, SameTables;
    hide WellFormedController, CreatePair, Typed, InviterFacts, KeysUsed, WellFormed, Drawable, FreshPorts, AttachPipe;
    var s', place := AttachPipe(s, h, pipe, l, r), Attached(h, pipe);
    AttachPorts(s.inviter.node, s.ends, s.holder, Bones(s.conns), l, r, place);
    AttachShape(s, h, pipe, l, r);
    AttachTables(s, h, pipe, l, r);
    OtherNode(s.inviter, CreatePair(s.inviter.node, l, r).1);
    AttachTyped(s, s', CreatePair(s.inviter.node, l, r).1);
    forall j | j in s.conns
      ensures ViewOf(s', j) == ViewOf(s, j)
    {
      AttachViews(s, s', l, r, h, pipe, j);
    }
    SameConnections(s, s');
  }

  /** Of the pair that is made, `r` is attached, or lost when the name was taken. */
  lemma AttachKeeps(s: System, h: nat, pipe: Text, l: Name, r: Name)
    requires Inv(s) && h in s.dispatchers && FreshPorts(s.inviter.node, l, r)
    ensures Inv(AttachPipe(s, h, pipe, l, r))
  {
    hide ConnInv, NamesApart, InviterPorts, Reservations, InviterTallies, Bones, ViewOf, Connections, SameTables;
    hide WellFormedController, CreatePair, Typed, InviterFacts, KeysUsed, WellFormed, Drawable, FreshPorts, AttachPipe;
    var s', place := AttachPipe(s, h, pipe, l, r), Attached(h, pipe);
    AttachConnections(s, h, pipe, l, r);
    PairShape(s.inviter, l, r);
    AttachPorts(s.inviter.node, s.ends, s.holder, Bones(s.conns), l, r, place);
    AttachShape(s, h, pipe, l, r);
    AttachTables(s, h, pipe, l, r);
    if pipe in s.dispatchers[h] {
      LostTallies(s, s');
    } else {
      AttachReservations(s.dispatchers, s.inviter.reserved, s.holder, Bones(s.conns), h, pipe, r);
      AttachTallies(s, s', l, r, place);
    }
  }

  lemma OpenKeeps(s: System, h: nat)
    requires Inv(s) && h !in s.dispatchers
    ensures Inv(s.(dispatchers := s.dispatchers[h := map[]]))
  {
    hide ConnInv, NamesApart, InviterPorts, InviterTallies, Bones, Mine, MyEnds, WellFormedController, Reservations;
    hide TypedConn, Connections, KeysUsed;
    var s' := s.(dispatchers := s.dispatchers[h := map[]]);
    OpenReservations(s.dispatchers, s.inviter.reserved, s.holder, Bones(s.conns), h);
    SameTallies(s, s');
    forall j | j in s.conns
      ensures ViewOf(s', j) == ViewOf(s, j)
    {
    }
    SameConnections(s, s');
  }

  lemma OpenReservations(dispatchers: Dispatchers, reserved: ReservedPorts, holder: map<Name, Place>,
                         bones: map<Socket, Bone>, h: nat)
    requires Reservations(dispatchers, reserved, holder, bones) && h !in dispatchers
    ensures Reservations(dispatchers[h := map[]], reserved, holder, bones)
  {
    forall q | q in holder
      ensures IsAt(dispatchers[h := map[]], reserved, bones, q, holder[q])
    {
      assert IsAt(dispatchers, reserved, bones, q, holder[q]);
    }
    forall k | k in bones
      ensures HeldOf(dispatchers[h := map[]], holder, k, bones[k].stage)
    {
      assert HeldOf(dispatchers, holder, k, bones[k].stage);
    }
  }
}
