// The inviter extracts a port itself, and sends an invitation: it takes the attached ports, reserves
// them under a temporary name, and opens the channel.

module HandshakeInvitation {
  import opened Bytes
  import opened Names
  import opened Bodies
  import opened PortTable
  import opened Controllers
  import opened Handshake
  import opened HandshakeInvariant
  import opened HandshakeInvitee
  import opened HandshakeMessages
  import opened HandshakeInviteeSteps
  import opened HandshakeInviter

  // ------------------------------------------------------------------ ports change places

  predicate Bound(p: Place) {
    p.Merging? || p.Merged?
  }

  /** Only ports that are not being merged, or merged, change their places. */
  ghost predicate MovedPlainly(holder: map<Name, Place>, holder': map<Name, Place>) {
    && holder'.Keys == holder.Keys
    && forall r :: r in holder ==> holder'[r] == holder[r] || (!Bound(holder[r]) && !Bound(holder'[r]))
  }

  lemma PlainMine(holder: map<Name, Place>, holder': map<Name, Place>, ends: map<Name, Name>, k: Socket)
    requires MovedPlainly(holder, holder')
    ensures Mine(holder', k) == Mine(holder, k) && MyEnds(holder', ends, k) == MyEnds(holder, ends, k)
  {
    forall r
      ensures r in holder' && Belongs(holder'[r], k) <==> r in holder && Belongs(holder[r], k)
      ensures r in holder && Belongs(holder[r], k) ==> holder'[r] == holder[r]
    {
      assert r in holder ==> holder'[r] == holder[r] || (!Bound(holder[r]) && !Bound(holder'[r]));
    }
  }

  lemma PlainPorts(n: Node, ends: map<Name, Name>, holder: map<Name, Place>, holder': map<Name, Place>,
                   bones: map<Socket, Bone>)
    requires InviterPorts(n, ends, holder, bones) && MovedPlainly(holder, holder')
    ensures InviterPorts(n, ends, holder', bones)
  {
    hide Sound, LocalPair, HasPeer, EndsApart;
    forall r | r in ends
      ensures EndOk(n, r, ends[r], holder'[r], bones)
    {
      assert EndOk(n, r, ends[r], holder[r], bones);
    }
  }

  lemma PlainTallies(s: System, s': System)
    requires InviterTallies(s) && MovedPlainly(s.holder, s'.holder) && s'.ends == s.ends
    requires s'.inviter.node == s.inviter.node && s'.written == s.written && s'.read == s.read
    requires s'.inviter.out == s.inviter.out
    requires forall j :: j in s.conns ==> j in s'.conns && s'.conns[j].takenUp == s.conns[j].takenUp
                                          && s'.conns[j].ctrl == s.conns[j].ctrl
    ensures InviterTallies(s')
  {
    hide UsersTo, UsersFrom, Count;
    forall r | r in s'.ends && r in s'.holder
      ensures EndTally(s', s'.ends[r], s'.holder[r])
    {
      assert EndTally(s, s.ends[r], s.holder[r]);
    }
  }

  /** Nothing but places, dispatchers, reserved ports and the stage of one connection changed. */
  predicate Bookkeeping(s: System, s': System, k: Socket) {
    && s'.inviter == s.inviter.(reserved := s'.inviter.reserved) && s'.io == s.io
    && s'.crashed == s.crashed && s'.dropped == s.dropped && s'.ends == s.ends
    && s'.written == s.written && s'.read == s.read
    && k in s.conns && k in s'.conns && s'.conns == s.conns[k := s.conns[k].(stage := s'.conns[k].stage)]
  }

  lemma BookedView(s: System, s': System, k: Socket, j: Socket)
    requires Bookkeeping(s, s', k) && MovedPlainly(s.holder, s'.holder) && j in s.conns
    requires Lookup(s.inviter.pendingInvitations, TempOf(s'.conns[k]))
          == Lookup(s.inviter.pendingInvitations, TempOf(s.conns[k]))
    ensures ViewOf(s', j) == ViewOf(s, j)
  {
    hide Mine, MyEnds, BusyWith, MovedPlainly;
    PlainMine(s.holder, s'.holder, s.ends, j);
  }

  lemma BookedTallies(s: System, s': System, k: Socket)
    requires Bookkeeping(s, s', k) && MovedPlainly(s.holder, s'.holder) && InviterTallies(s)
    ensures InviterTallies(s')
  {
    hide InviterTallies, MovedPlainly;
    PlainTallies(s, s');
  }

  lemma BookedTyped(s: System, s': System, k: Socket)
    requires Bookkeeping(s, s', k) && Typed(s) && InviterFacts(s) && WellFormedController(s'.inviter)
    ensures Typed(s') && InviterFacts(s')
  {
    hide TypedConn, WellFormedController;
  }

  lemma BookedBones(s: System, s': System, k: Socket)
    requires Bookkeeping(s, s', k)
    ensures Bones(s'.conns) == Bones(s.conns)[k := Bone(s'.conns[k].stage, NameOf(s.conns[k]))]
    ensures Bones(s.conns).Keys == s.conns.Keys
    ensures Bones(s.conns)[k] == Bone(s.conns[k].stage, NameOf(s.conns[k]))
  {
    BonesAfter(s.conns, k, s'.conns[k]);
    BonesKeys(s.conns);
  }

  /** Before the invitation is sent the connection does not notice. */
  lemma Restage(v: View, c: Conn, stage: Stage)
    requires ConnInv(v, c) && v.down.None? && InviterSide(v, stage, NameOf(c), c.takenUp)
    ensures ConnInv(v, c.(stage := stage))
  {
    hide InviteePorts, Tallies, Splices, UsersUp, UsersDown, Callers, RequestPlaces, TypedConn, SettledLater;
    hide InviterSide;
    QuietSide(v, c.ctrl, c.io, c.takenDown, c.takenUp, TempOf(c), TempOf(c.(stage := stage)));
    hide InviteeSide;
  }

  lemma QuietSide(v: View, ctrl: Controller, io: InviteeIo, takenDown: nat, takenUp: nat, temp: Name, temp': Name)
    requires InviteeSide(v, Bare(ctrl), io, takenDown, takenUp, temp) && v.down.None?
    ensures InviteeSide(v, Bare(ctrl), io, takenDown, takenUp, temp')
  {
  }

  /** The three ways in which the inviter prepares an invitation have this in common. */
  lemma BookedKeeps(s: System, s': System, k: Socket)
    requires Inv(s) && Bookkeeping(s, s', k) && MovedPlainly(s.holder, s'.holder)
    requires WellFormedController(s'.inviter) && KeysUsed(s'.inviter, s'.used)
    requires NamesApart(s'.inviter.node.name, s'.used, Bones(s'.conns))
    requires Reservations(s'.dispatchers, s'.inviter.reserved, s'.holder, Bones(s'.conns))
    requires Lookup(s.inviter.pendingInvitations, TempOf(s'.conns[k]))
          == Lookup(s.inviter.pendingInvitations, TempOf(s.conns[k]))
    requires ViewOf(s, k).down.None?
    requires InviterSide(ViewOf(s, k), s'.conns[k].stage, NameOf(s.conns[k]), s.conns[k].takenUp)
    ensures Inv(s')
  {
    hide ConnInv, NamesApart, InviterPorts, Reservations, InviterTallies, Bones, ViewOf, WellFormedController;
    hide Connections, Typed, InviterFacts, MovedPlainly, InviterSide, TempOf, KeysUsed;
    BookedTyped(s, s', k);
    BookedTallies(s, s', k);
    BookedBones(s, s', k);
    NewBonePorts(s.inviter.node, s.ends, s.holder, Bones(s.conns), k, Bone(s'.conns[k].stage, NameOf(s.conns[k])));
    PlainPorts(s.inviter.node, s.ends, s.holder, s'.holder, Bones(s'.conns));
    forall j | j in s.conns
      ensures ViewOf(s', j) == ViewOf(s, j)
    {
      BookedView(s, s', k, j);
    }
    Connection(s, k);
    Restage(ViewOf(s, k), s.conns[k], s'.conns[k].stage);
    AllConnections(s, s', k);
  }

  // ------------------------------------------------------------------ extracting locally

  lemma ExtractReservations(dispatchers: Dispatchers, reserved: ReservedPorts, holder: map<Name, Place>,
                            bones: map<Socket, Bone>, h: nat, x: Text)
    requires Reservations(dispatchers, reserved, holder, bones) && h in dispatchers && x in dispatchers[h]
    ensures
      var r := dispatchers[h][x];
      && r in holder && MovedPlainly(holder, holder[r := Extracted])
      && Reservations(dispatchers[h := dispatchers[h] - {x}], reserved, holder[r := Extracted], bones)
  {
    var r := dispatchers[h][x];
    var dispatchers', holder' := dispatchers[h := dispatchers[h] - {x}], holder[r := Extracted];
    assert Holds(holder, r, Attached(h, x));
    forall q | q in holder'
      ensures IsAt(dispatchers', reserved, bones, q, holder'[q])
    {
      assert IsAt(dispatchers, reserved, bones, q, holder[q]);
    }
    forall k | k in bones
      ensures HeldOf(dispatchers', holder', k, bones[k].stage) && ReservedOf(reserved, holder', k, bones[k])
    {
      AttachedMoves(dispatchers, reserved, holder, r, h, x, k, bones[k]);
      hide HeldOf, ReservedOf;
    }
    hide HeldOf, ReservedOf, IsAt;
    forall g, y | g in dispatchers' && y in dispatchers'[g]
      ensures Holds(holder', dispatchers'[g][y], Attached(g, y))
    {
      assert Holds(holder, dispatchers[g][y], Attached(g, y));
    }
  }

  /** A port that was attached is neither held for an invitation nor reserved. */
  lemma AttachedMoves(dispatchers: Dispatchers, reserved: ReservedPorts, holder: map<Name, Place>, r: Name,
                      h: nat, x: Text, k: Socket, b: Bone)
    requires HeldOf(dispatchers, holder, k, b.stage) && ReservedOf(reserved, holder, k, b)
    requires Holds(holder, r, Attached(h, x)) && h in dispatchers
    ensures HeldOf(dispatchers[h := dispatchers[h] - {x}], holder[r := Extracted], k, b.stage)
    ensures ReservedOf(reserved, holder[r := Extracted], k, b)
  {
  }

  lemma ExtractOwnKeeps(s: System, h: nat, x: Text)
    requires Inv(s) && h in s.dispatchers && x in s.dispatchers[h]
    ensures Inv(ExtractLocally(s, h, x))
  {
    hide ConnInv, NamesApart, InviterPorts, Reservations, InviterTallies, Bones, ViewOf, WellFormedController;
    hide Connections, Typed, InviterFacts, MovedPlainly, KeysUsed;
    var s' := ExtractLocally(s, h, x);
    ExtractReservations(s.dispatchers, s.inviter.reserved, s.holder, Bones(s.conns), h, x);
    PlainPorts(s.inviter.node, s.ends, s.holder, s'.holder, Bones(s.conns));
    PlainTallies(s, s');
    ExtractTyped(s, h, x);
    forall j | j in s.conns
      ensures ViewOf(s', j) == ViewOf(s, j)
    {
      ExtractView(s, h, x, j);
    }
    SameConnections(s, s');
  }

  lemma ExtractTyped(s: System, h: nat, x: Text)
    requires Typed(s) && InviterFacts(s) && h in s.dispatchers && x in s.dispatchers[h]
    ensures Typed(ExtractLocally(s, h, x)) && InviterFacts(ExtractLocally(s, h, x))
  {
    hide TypedConn, WellFormedController;
  }

  lemma ExtractView(s: System, h: nat, x: Text, j: Socket)
    requires h in s.dispatchers && x in s.dispatchers[h] && j in s.conns
    requires MovedPlainly(s.holder, ExtractLocally(s, h, x).holder)
    ensures ViewOf(ExtractLocally(s, h, x), j) == ViewOf(s, j)
  {
    hide Mine, MyEnds, BusyWith, MovedPlainly;
    PlainMine(s.holder, ExtractLocally(s, h, x).holder, s.ends, j);
  }

  // ------------------------------------------------------------------ taking the ports

  function TakenHolder(holder: map<Name, Place>, h: nat, k: Socket): map<Name, Place> {
    map r | r in holder ::
      if holder[r].Attached? && holder[r].handle == h then Held(k, holder[r].pipe) else holder[r]
  }

  lemma TakeReservations(dispatchers: Dispatchers, reserved: ReservedPorts, holder: map<Name, Place>,
                         bones: map<Socket, Bone>, h: nat, k: Socket, temp: Name)
    requires Reservations(dispatchers, reserved, holder, bones) && h in dispatchers
    requires k in bones && bones[k].stage.Connected? && temp !in reserved
    ensures MovedPlainly(holder, TakenHolder(holder, h, k))
    ensures
      var stage := Holding(h, temp, dispatchers[h], false);
      Reservations(dispatchers[h := map[]], reserved, TakenHolder(holder, h, k), bones[k := bones[k].(stage := stage)])
  {
    var holder', dispatchers' := TakenHolder(holder, h, k), dispatchers[h := map[]];
    var bones' := bones[k := bones[k].(stage := Holding(h, temp, dispatchers[h], false))];
    forall q | q in holder'
      ensures IsAt(dispatchers', reserved, bones', q, holder'[q])
    {
      assert IsAt(dispatchers, reserved, bones, q, holder[q]);
    }
    forall j | j in bones
      ensures HeldOf(dispatchers', holder', j, bones'[j].stage) && ReservedOf(reserved, holder', j, bones'[j])
    {
      assert HeldOf(dispatchers, holder, j, bones[j].stage) && ReservedOf(reserved, holder, j, bones[j]);
      forall x | x in dispatchers[h]
        ensures Holds(holder', dispatchers[h][x], Held(k, x))
      {
        assert Holds(holder, dispatchers[h][x], Attached(h, x));
      }
    }
    forall g, y | g in dispatchers' && y in dispatchers'[g]
      ensures Holds(holder', dispatchers'[g][y], Attached(g, y))
    {
      assert Holds(holder, dispatchers[g][y], Attached(g, y));
    }
  }

  lemma NewToken(a: Name, used: set<Name>, bones: map<Socket, Bone>, k: Socket, h: nat, temp: Name,
                 attached: map<Text, Name>)
    requires NamesApart(a, used, bones) && k in bones && bones[k].stage.Connected? && temp !in used
    ensures NamesApart(a, used + {temp}, bones[k := bones[k].(stage := Holding(h, temp, attached, false))])
    ensures temp != NONE
  {
    var bones' := bones[k := bones[k].(stage := Holding(h, temp, attached, false))];
    forall i, j | i in bones' && j in bones' && i != j
      ensures Keys(bones'[i]) !! Keys(bones'[j])
    {
      assert Keys(bones[i]) !! Keys(bones[j]);
    }
  }

  /** Before the invitation is sent, the connection is not known to the inviter. */
  lemma NotYet(v: View, stage: Stage, b: Name, takenUp: nat)
    requires InviterSide(v, stage, b, takenUp) && (stage.Connected? || stage.Holding? || stage.Listed?)
    ensures v.down.None? && v.remote.None? && v.peerAt.None? && v.io.AtRest? && takenUp == 0
    ensures v.mine == map[]
    ensures v.a != NONE && b != NONE && v.a != b
  {
  }

  lemma Prepared(v: View, b: Name, stage: Stage)
    requires v.down.None? && v.remote.None? && v.peerAt.None? && v.io.AtRest? && v.pendingAt.None?
    requires v.mine == map[]
    requires v.a != NONE && b != NONE && v.a != b && (stage.Holding? || stage.Listed?) && stage.temp != NONE
    ensures InviterSide(v, stage, b, 0)
  {
  }

  lemma ConnSide(v: View, c: Conn)
    requires ConnInv(v, c)
    ensures InviterSide(v, c.stage, NameOf(c), c.takenUp)
  {
    hide InviteePorts, Tallies, InviteeSide, InviterSide, Splices, UsersUp, UsersDown, Callers, RequestPlaces;
  }

  lemma NoneIsNoKey(s: System)
    requires KeysUsed(s.inviter, s.used)
    ensures forall n :: n == NONE || n !in s.used ==>
              n !in s.inviter.pendingInvitations && n !in s.inviter.reserved && n !in s.inviter.peers
  {
  }

  lemma TakeShape(s: System, h: nat, k: Socket, temp: Name)
    requires h in s.dispatchers && k in s.conns
    ensures
      var s' := TakePorts(s, h, k, temp);
      && Bookkeeping(s, s', k) && s'.inviter == s.inviter && s'.used == s.used + {temp}
      && s'.dispatchers == s.dispatchers[h := map[]] && s'.holder == TakenHolder(s.holder, h, k)
      && s'.conns[k].stage == Holding(h, temp, s.dispatchers[h], false)
  {
  }

  lemma MoreUsed(c: Controller, used: set<Name>, temp: Name)
    requires KeysUsed(c, used)
    ensures KeysUsed(c, used + {temp})
  {
  }

  lemma TakeKeeps(s: System, h: nat, k: Socket, temp: Name)
    requires Inv(s) && h in s.dispatchers && k in s.conns && s.conns[k].stage.Connected? && temp !in s.used
    ensures Inv(TakePorts(s, h, k, temp))
  {
    hide ConnInv, NamesApart, InviterPorts, Reservations, InviterTallies, Bones, ViewOf, WellFormedController;
    hide Connections, InviterFacts, MovedPlainly, KeysUsed, Bookkeeping, TakePorts, InviterSide, TypedConn;
    var s', v := TakePorts(s, h, k, temp), ViewOf(s, k);
    TakeShape(s, h, k, temp);
    BookedBones(s, s', k);
    NoneIsNoKey(s);
    MoreUsed(s.inviter, s.used, temp);
    NewToken(s.inviter.node.name, s.used, Bones(s.conns), k, h, temp, s.dispatchers[h]);
    TakeReservations(s.dispatchers, s.inviter.reserved, s.holder, Bones(s.conns), h, k, temp);
    Connection(s, k);
    ConnSide(v, s.conns[k]);
    NotYet(v, s.conns[k].stage, NameOf(s.conns[k]), s.conns[k].takenUp);
    PendingOf(s, k);
    Prepared(v, NameOf(s.conns[k]), s'.conns[k].stage);
    BookedKeeps(s, s', k);
  }

  lemma PendingOf(s: System, k: Socket)
    requires k in s.conns
    ensures ViewOf(s, k).pendingAt == Lookup(s.inviter.pendingInvitations, TempOf(s.conns[k]))
  {
  }

  // ------------------------------------------------------------------ taking them again

  function DiscardedHolder(holder: map<Name, Place>, h: nat): map<Name, Place> {
    map r | r in holder :: if holder[r].Attached? && holder[r].handle == h then Discarded else holder[r]
  }

  lemma AgainReservations(dispatchers: Dispatchers, reserved: ReservedPorts, holder: map<Name, Place>,
                          bones: map<Socket, Bone>, k: Socket)
    requires Reservations(dispatchers, reserved, holder, bones) && k in bones && bones[k].stage.Holding?
    requires bones[k].stage.handle in dispatchers
    ensures
      var h := bones[k].stage.handle;
      var bones' := bones[k := bones[k].(stage := bones[k].stage.(again := true))];
      && MovedPlainly(holder, DiscardedHolder(holder, h))
      && Reservations(dispatchers[h := map[]], reserved, DiscardedHolder(holder, h), bones')
  {
    var h := bones[k].stage.handle;
    var bones' := bones[k := bones[k].(stage := bones[k].stage.(again := true))];
    var holder', dispatchers' := DiscardedHolder(holder, h), dispatchers[h := map[]];
    forall q | q in holder'
      ensures IsAt(dispatchers', reserved, bones', q, holder'[q])
    {
      assert IsAt(dispatchers, reserved, bones, q, holder[q]);
    }
    hide IsAt;
    forall j | j in bones
      ensures HeldOf(dispatchers', holder', j, bones'[j].stage) && ReservedOf(reserved, holder', j, bones'[j])
    {
      AgainConnection(dispatchers, reserved, holder, h, j, bones[j]);
      AgainConnection(dispatchers, reserved, holder, h, k, bones[k]);
      hide HeldOf, DiscardedHolder;
    }
    hide HeldOf, ReservedOf;
    forall g, y | g in dispatchers' && y in dispatchers'[g]
      ensures Holds(holder', dispatchers'[g][y], Attached(g, y))
    {
      assert Holds(holder, dispatchers[g][y], Attached(g, y));
    }
  }

  lemma AgainConnection(dispatchers: Dispatchers, reserved: ReservedPorts, holder: map<Name, Place>, h: nat,
                        k: Socket, b: Bone)
    requires HeldOf(dispatchers, holder, k, b.stage) && ReservedOf(reserved, holder, k, b)
    ensures
      var holder', dispatchers' := DiscardedHolder(holder, h), dispatchers[h := map[]];
      && HeldOf(dispatchers', holder', k, b.stage) && ReservedOf(reserved, holder', k, b)
      && (b.stage.Holding? ==>
            HeldOf(dispatchers', holder', k, b.stage.(again := true))
            && ReservedOf(reserved, holder', k, b.(stage := b.stage.(again := true))))
  {
  }

  /** The names of a connection do not change with its stage. */
  lemma SameNames(a: Name, used: set<Name>, bones: map<Socket, Bone>, k: Socket, stage: Stage)
    requires NamesApart(a, used, bones) && k in bones && !bones[k].stage.Connected? && !stage.Connected?
    requires stage.temp == bones[k].stage.temp
    ensures NamesApart(a, used, bones[k := bones[k].(stage := stage)])
  {
    var bones' := bones[k := bones[k].(stage := stage)];
    forall j | j in bones'
      ensures Keys(bones'[j]) == Keys(bones[j])
    {
    }
    forall i, j | i in bones' && j in bones' && i != j
      ensures Keys(bones'[i]) !! Keys(bones'[j])
    {
      assert Keys(bones[i]) !! Keys(bones[j]);
    }
  }

  lemma AgainShape(s: System, k: Socket)
    requires k in s.conns && s.conns[k].stage.Holding? && s.conns[k].stage.handle in s.dispatchers
    ensures
      var s', h := TakeAgain(s, k), s.conns[k].stage.handle;
      && Bookkeeping(s, s', k) && s'.inviter == s.inviter && s'.used == s.used
      && s'.dispatchers == s.dispatchers[h := map[]] && s'.holder == DiscardedHolder(s.holder, h)
      && s'.conns[k].stage == s.conns[k].stage.(again := true)
  {
  }

  /** What was attached since the ports were taken is discarded. */
  lemma TakeAgainKeeps(s: System, k: Socket)
    requires Inv(s) && k in s.conns && s.conns[k].stage.Holding? && s.conns[k].stage.handle in s.dispatchers
    ensures Inv(TakeAgain(s, k))
  {
    hide ConnInv, NamesApart, InviterPorts, Reservations, InviterTallies, Bones, ViewOf, WellFormedController;
    hide Connections, InviterFacts, MovedPlainly, KeysUsed, Bookkeeping, TakeAgain, InviterSide, TypedConn;
    var s', v := TakeAgain(s, k), ViewOf(s, k);
    AgainShape(s, k);
    BookedBones(s, s', k);
    SameNames(s.inviter.node.name, s.used, Bones(s.conns), k, s'.conns[k].stage);
    AgainReservations(s.dispatchers, s.inviter.reserved, s.holder, Bones(s.conns), k);
    Connection(s, k);
    ConnSide(v, s.conns[k]);
    NotYet(v, s.conns[k].stage, NameOf(s.conns[k]), s.conns[k].takenUp);
    HasToken(v, s.conns[k].stage, NameOf(s.conns[k]), s.conns[k].takenUp);
    Prepared(v, NameOf(s.conns[k]), s'.conns[k].stage);
    BookedKeeps(s, s', k);
  }

  lemma HasToken(v: View, stage: Stage, b: Name, takenUp: nat)
    requires InviterSide(v, stage, b, takenUp) && !stage.Connected?
    ensures stage.temp != NONE && (stage.Holding? || stage.Listed? ==> v.pendingAt.None?)
  {
  }

  // ------------------------------------------------------------------ reserving

  function ListedHolder(holder: map<Name, Place>, k: Socket): map<Name, Place> {
    map r | r in holder :: if holder[r].Held? && holder[r].k == k then Tokened(k, holder[r].pipe) else holder[r]
  }

  lemma ListReservations(dispatchers: Dispatchers, reserved: ReservedPorts, holder: map<Name, Place>,
                         bones: map<Socket, Bone>, k: Socket, a: Name, used: set<Name>)
    requires Reservations(dispatchers, reserved, holder, bones) && k in bones && bones[k].stage.Holding?
    requires NamesApart(a, used, bones)
    ensures
      var stage := bones[k].stage;
      && MovedPlainly(holder, ListedHolder(holder, k)) && stage.temp !in reserved
      && Reservations(dispatchers, reserved[stage.temp := stage.attached], ListedHolder(holder, k),
                      bones[k := bones[k].(stage := Listed(stage.temp))])
  {
    var stage, temp := bones[k].stage, bones[k].stage.temp;
    var holder', reserved' := ListedHolder(holder, k), reserved[temp := stage.attached];
    var bones' := bones[k := bones[k].(stage := Listed(temp))];
    assert HeldOf(dispatchers, holder, k, stage) && ReservedOf(reserved, holder, k, bones[k]);
    forall q | q in holder'
      ensures IsAt(dispatchers, reserved', bones', q, holder'[q])
    {
      assert IsAt(dispatchers, reserved, bones, q, holder[q]);
      ListedStays(dispatchers, reserved, holder, bones, k, a, used, q);
    }
    hide IsAt;
    forall j | j in bones
      ensures HeldOf(dispatchers, holder', j, bones'[j].stage) && ReservedOf(reserved', holder', j, bones'[j])
    {
      TokenOfOne(a, used, bones, k, j);
      ListedConnection(dispatchers, reserved, holder, k, stage, j, bones[j]);
      hide NamesApart, ReservedOf, HeldOf, ListedHolder;
    }
    hide HeldOf, ReservedOf, NamesApart;
    forall g, y | g in dispatchers && y in dispatchers[g]
      ensures Holds(holder', dispatchers[g][y], Attached(g, y))
    {
      assert Holds(holder, dispatchers[g][y], Attached(g, y));
    }
  }

  lemma ListedConnection(dispatchers: Dispatchers, reserved: ReservedPorts, holder: map<Name, Place>, k: Socket,
                         stage: Stage, j: Socket, b: Bone)
    requires HeldOf(dispatchers, holder, j, b.stage) && ReservedOf(reserved, holder, j, b)
    requires stage.Holding? && b.name != stage.temp && (j == k ==> b.stage == stage)
    requires j != k && !b.stage.Connected? ==> b.stage.temp != stage.temp
    ensures
      var holder', reserved' := ListedHolder(holder, k), reserved[stage.temp := stage.attached];
      var b' := if j == k then b.(stage := Listed(stage.temp)) else b;
      HeldOf(dispatchers, holder', j, b'.stage) && ReservedOf(reserved', holder', j, b')
  {
  }

  /** The token of one connection is no name of any. */
  lemma TokenOfOne(a: Name, used: set<Name>, bones: map<Socket, Bone>, k: Socket, j: Socket)
    requires NamesApart(a, used, bones) && k in bones && j in bones && !bones[k].stage.Connected?
    ensures bones[j].name != bones[k].stage.temp
    ensures j != k ==> bones[j].name != bones[k].name
    ensures j != k && !bones[j].stage.Connected? ==> bones[j].stage.temp != bones[k].stage.temp
    ensures !bones[j].stage.Connected? ==> bones[j].stage.temp != bones[k].name
  {
    if j != k {
      assert Keys(bones[j]) !! Keys(bones[k]);
      assert bones[k].stage.temp in Keys(bones[k]) && bones[k].name in Keys(bones[k]);
      assert bones[j].name in Keys(bones[j]);
      assert !bones[j].stage.Connected? ==> bones[j].stage.temp in Keys(bones[j]);
    }
  }

  lemma ListedStays(dispatchers: Dispatchers, reserved: ReservedPorts, holder: map<Name, Place>,
                    bones: map<Socket, Bone>, k: Socket, a: Name, used: set<Name>, q: Name)
    requires k in bones && bones[k].stage.Holding? && q in holder && NamesApart(a, used, bones)
    requires IsAt(dispatchers, reserved, bones, q, holder[q])
    ensures IsAt(dispatchers, reserved[bones[k].stage.temp := bones[k].stage.attached],
                 bones[k := bones[k].(stage := Listed(bones[k].stage.temp))], q, ListedHolder(holder, k)[q])
  {
    if holder[q].Tokened? || holder[q].Reserved? {
      TokenOfOne(a, used, bones, k, holder[q].k);
    }
  }

  lemma ListShape(s: System, k: Socket)
    requires k in s.conns && s.conns[k].stage.Holding? && s.conns[k].stage.temp !in s.inviter.reserved
    ensures
      var s', stage := ListPorts(s, k), s.conns[k].stage;
      && Bookkeeping(s, s', k) && s'.used == s.used && s'.dispatchers == s.dispatchers
      && s'.inviter == s.inviter.(reserved := s.inviter.reserved[stage.temp := stage.attached])
      && s'.holder == ListedHolder(s.holder, k) && s'.conns[k].stage == Listed(stage.temp)
  {
    var stage := s.conns[k].stage;
    assert EmplaceAll(map[], stage.attached) == stage.attached;
  }

  lemma ListTyped(c: Controller, temp: Name, attached: map<Text, Name>, used: set<Name>)
    requires WellFormedController(c) && KeysUsed(c, used) && temp in used && temp != NONE
    requires forall x :: x in attached ==> attached[x] in c.node.ports
    ensures WellFormedController(c.(reserved := c.reserved[temp := attached]))
    ensures KeysUsed(c.(reserved := c.reserved[temp := attached]), used)
  {
    hide WellFormed;
  }

  lemma HeldInTable(s: System, k: Socket)
    requires Inv(s) && k in s.conns && s.conns[k].stage.Holding?
    ensures
      var stage := s.conns[k].stage;
      && (forall x :: x in stage.attached ==> stage.attached[x] in s.inviter.node.ports)
      && stage.temp in s.used && stage.temp != NONE
  {
    hide ConnInv, InviterTallies, ViewOf, WellFormedController, Connections, InviterFacts, KeysUsed, TypedConn;
    hide ReservedOf, IsAt, Sound, EndsApart;
    BonesKeys(s.conns);
    hide Bones;
    var stage, bones := s.conns[k].stage, Bones(s.conns);
    assert stage.temp in Keys(bones[k]);
    assert HeldOf(s.dispatchers, s.holder, k, stage);
    forall x | x in stage.attached
      ensures stage.attached[x] in s.inviter.node.ports
    {
      var r := stage.attached[x];
      assert Holds(s.holder, r, Held(k, x));
      assert EndOk(s.inviter.node, r, s.ends[r], s.holder[r], bones);
    }
  }

  lemma ListKeeps(s: System, k: Socket)
    requires Inv(s) && k in s.conns && s.conns[k].stage.Holding?
    ensures Inv(ListPorts(s, k))
  {
    hide ConnInv, NamesApart, InviterPorts, Reservations, InviterTallies, Bones, ViewOf, WellFormedController;
    hide Connections, InviterFacts, MovedPlainly, KeysUsed, Bookkeeping, ListPorts, InviterSide, TypedConn;
    var s', v := ListPorts(s, k), ViewOf(s, k);
    BonesKeys(s.conns);
    ListReservations(s.dispatchers, s.inviter.reserved, s.holder, Bones(s.conns), k, s.inviter.node.name, s.used);
    ListShape(s, k);
    BookedBones(s, s', k);
    HeldInTable(s, k);
    ListTyped(s.inviter, s.conns[k].stage.temp, s.conns[k].stage.attached, s.used);
    SameNames(s.inviter.node.name, s.used, Bones(s.conns), k, s'.conns[k].stage);
    Connection(s, k);
    ConnSide(v, s.conns[k]);
    NotYet(v, s.conns[k].stage, NameOf(s.conns[k]), s.conns[k].takenUp);
    HasToken(v, s.conns[k].stage, NameOf(s.conns[k]), s.conns[k].takenUp);
    Prepared(v, NameOf(s.conns[k]), s'.conns[k].stage);
    BookedKeeps(s, s', k);
  }
}
