// The inviter's IO thread goes on: it reserves the ports under the invitee's name, makes it a peer, and
// merges and answers.

module HandshakeMerge {
  import opened Bytes
  import opened Names
  import opened Bodies
  import opened PortTable
  import opened Controllers
  import opened Handshake
  import opened HandshakeInvariant
  import opened HandshakeInvitee
  import opened HandshakeMessages
  import opened HandshakeInviteeSteps
  import opened HandshakeInviter
  import opened HandshakeInvitation
  import opened HandshakeLaunch
  import opened HandshakeHear

  // ------------------------------------------------------------------ whom the IO thread is busy with

  lemma BusySide(v: View, stage: Stage, b: Name, takenUp: nat)
    requires InviterSide(v, stage, b, takenUp)
    ensures v.io.ToRekey? ==> stage.Rekeying? && v.io == ToRekey(v.k, stage.temp, b) && Waiting(v, stage.temp)
    ensures v.io.ToAdmit? ==> stage.Admitting? && v.io == ToAdmit(v.k, stage.temp, b) && Waiting(v, stage.temp)
    ensures v.io.ToFlush? ==> stage.Joined? && v.io == ToFlush(v.k, [])
    ensures v.io.ToMerge? || v.io.ToRespond? ==>
              stage.Joined? && v.io.from == b && v.peerAt == Some(v.k) && v.down.Some?
    ensures v.a != NONE && b != NONE && v.a != b
  {
  }

  lemma Busy(s: System)
    requires Connections(s) && InviterFacts(s) && !s.io.AtRest?
    ensures s.io.k in s.conns
    ensures
      var v, c := ViewOf(s, s.io.k), s.conns[s.io.k];
      && ConnInv(v, c) && InviterSide(v, c.stage, NameOf(c), c.takenUp) && v.io == s.io && v.k == s.io.k
      && v.a == s.inviter.node.name
  {
    hide ConnInv, ViewOf, InviterSide, Connections;
    Connection(s, s.io.k);
    ConnSide(ViewOf(s, s.io.k), s.conns[s.io.k]);
    ViewDown(s, s.io.k);
  }

  // ------------------------------------------------------------------ the invitee's name

  function NamedHolder(holder: map<Name, Place>, k: Socket): map<Name, Place> {
    map r | r in holder :: if holder[r].Tokened? && holder[r].k == k then Reserved(k, holder[r].pipe) else holder[r]
  }

  function Rekeyed(reserved: ReservedPorts, temp: Name, b: Name): ReservedPorts
    requires temp in reserved
  {
    reserved[b := reserved[temp]] - {temp}
  }

  lemma RekeyReservations(dispatchers: Dispatchers, reserved: ReservedPorts, holder: map<Name, Place>,
                          bones: map<Socket, Bone>, k: Socket, a: Name, used: set<Name>)
    requires Reservations(dispatchers, reserved, holder, bones) && k in bones && bones[k].stage.Rekeying?
    requires NamesApart(a, used, bones)
    ensures
      var temp := bones[k].stage.temp;
      && temp in reserved && bones[k].name !in reserved && temp != bones[k].name
      && MovedPlainly(holder, NamedHolder(holder, k))
      && Reservations(dispatchers, Rekeyed(reserved, temp, bones[k].name), NamedHolder(holder, k),
                      bones[k := bones[k].(stage := Admitting(temp))])
  {
    var temp, b := bones[k].stage.temp, bones[k].name;
    TokenOfOne(a, used, bones, k, k);
    assert HeldOf(dispatchers, holder, k, bones[k].stage) && ReservedOf(reserved, holder, k, bones[k]);
    var holder', reserved' := NamedHolder(holder, k), Rekeyed(reserved, temp, b);
    var bones' := bones[k := bones[k].(stage := Admitting(temp))];
    forall q | q in holder'
      ensures IsAt(dispatchers, reserved', bones', q, holder'[q])
    {
      assert IsAt(dispatchers, reserved, bones, q, holder[q]);
      RekeyStays(dispatchers, reserved, holder, bones, k, a, used, q);
      hide Rekeyed, NamedHolder;
    }
    hide IsAt;
    forall j | j in bones
      ensures HeldOf(dispatchers, holder', j, bones'[j].stage) && ReservedOf(reserved', holder', j, bones'[j])
    {
      TokenOfOne(a, used, bones, k, j);
      RekeyConnection(dispatchers, reserved, holder, k, bones[k], j, bones[j]);
      hide Rekeyed, HeldOf, ReservedOf, NamedHolder;
    }
    hide HeldOf, ReservedOf, NamesApart, Rekeyed;
    forall g, y | g in dispatchers && y in dispatchers[g]
      ensures Holds(holder', dispatchers[g][y], Attached(g, y))
    {
      assert Holds(holder, dispatchers[g][y], Attached(g, y));
    }
  }

  lemma RekeyConnection(dispatchers: Dispatchers, reserved: ReservedPorts, holder: map<Name, Place>, k: Socket,
                        own: Bone, j: Socket, bone: Bone)
    requires HeldOf(dispatchers, holder, j, bone.stage) && ReservedOf(reserved, holder, j, bone)
    requires own.stage.Rekeying? && own.stage.temp in reserved && own.name !in reserved && own.stage.temp != own.name
    requires j == k ==> bone == own
    requires j != k ==> bone.name != own.name && bone.name != own.stage.temp
    requires j != k && !bone.stage.Connected? ==> bone.stage.temp != own.stage.temp && bone.stage.temp != own.name
    ensures
      var holder', reserved' := NamedHolder(holder, k), Rekeyed(reserved, own.stage.temp, own.name);
      var bone' := if j == k then own.(stage := Admitting(own.stage.temp)) else bone;
      HeldOf(dispatchers, holder', j, bone'.stage) && ReservedOf(reserved', holder', j, bone')
  {
  }

  lemma RekeyStays(dispatchers: Dispatchers, reserved: ReservedPorts, holder: map<Name, Place>,
                   bones: map<Socket, Bone>, k: Socket, a: Name, used: set<Name>, q: Name)
    requires k in bones && NamesApart(a, used, bones) && q in holder && bones[k].stage.Rekeying?
    requires bones[k].stage.temp in reserved && bones[k].name !in reserved
    requires IsAt(dispatchers, reserved, bones, q, holder[q])
    ensures
      var temp := bones[k].stage.temp;
      IsAt(dispatchers, Rekeyed(reserved, temp, bones[k].name), bones[k := bones[k].(stage := Admitting(temp))], q,
           NamedHolder(holder, k)[q])
  {
    if holder[q].Tokened? || holder[q].Reserved? {
      TokenOfOne(a, used, bones, k, holder[q].k);
    }
  }

  function RekeyedSystem(s: System, k: Socket, temp: Name): System
    requires k in s.conns && temp in s.inviter.reserved
  {
    var c := s.conns[k];
    s.(inviter := s.inviter.(reserved := Rekeyed(s.inviter.reserved, temp, NameOf(c))),
       conns := s.conns[k := c.(stage := Admitting(temp))],
       io := ToAdmit(k, temp, NameOf(c)), holder := NamedHolder(s.holder, k))
  }

  lemma RekeyShape(s: System)
    requires s.io.ToRekey? && s.io.k in s.conns && s.conns[s.io.k].stage == Rekeying(s.io.from)
    requires s.io.invitee == NameOf(s.conns[s.io.k])
    requires s.io.from in s.inviter.reserved && s.io.invitee !in s.inviter.reserved
    ensures RekeyStep(s) == RekeyedSystem(s, s.io.k, s.io.from)
  {
  }

  lemma RekeyTyped(c: Controller, used: set<Name>, temp: Name, b: Name)
    requires WellFormedController(c) && KeysUsed(c, used) && temp in c.reserved && b in used && b != NONE
    ensures
      var d := c.(reserved := Rekeyed(c.reserved, temp, b));
      WellFormedController(d) && KeysUsed(d, used)
  {
    hide WellFormed;
  }

  lemma RekeyViews(s: System, k: Socket, temp: Name, j: Socket)
    requires k in s.conns && temp in s.inviter.reserved && j in s.conns && TempOf(s.conns[k]) == temp
    requires !s.io.AtRest? && s.io.k == k && MovedPlainly(s.holder, NamedHolder(s.holder, k))
    ensures
      ViewOf(RekeyedSystem(s, k, temp), j)
      == if j == k then ViewOf(s, k).(io := ToAdmit(k, temp, NameOf(s.conns[k]))) else ViewOf(s, j)
  {
    hide Mine, MyEnds, Rekeyed, NamedHolder, MovedPlainly;
    PlainMine(s.holder, NamedHolder(s.holder, k), s.ends, j);
  }

  lemma RekeyedSide(v: View, v': View, temp: Name, b: Name, takenUp: nat)
    requires InviterSide(v, Rekeying(temp), b, takenUp) && v' == v.(io := ToAdmit(v.k, temp, b))
    ensures InviterSide(v', Admitting(temp), b, takenUp)
  {
  }

  lemma RekeyConn(v: View, c: Conn)
    requires ConnInv(v, c) && c.stage.Rekeying? && v.io.ToRekey?
    ensures
      var temp := c.stage.temp;
      ConnInv(v.(io := ToAdmit(v.k, temp, NameOf(c))), c.(stage := Admitting(temp)))
  {
    hide InviteePorts, UsersUp, UsersDown, TypedConn, SettledLater, InviteeSide, InviterSide, RequestPlaces, Tallies;
    hide Splices, Callers;
    var v' := v.(io := ToAdmit(v.k, c.stage.temp, NameOf(c)));
    ConnSide(v, c);
    RekeyedSide(v, v', c.stage.temp, NameOf(c), c.takenUp);
    LaunchSide(v, v', c.ctrl, c.io, c.takenDown, c.takenUp, c.stage.temp);
    IdleSplices(v, v', NameOf(c), c.track, c.callers, c.lock, CanFind(c.io, c.takenDown), HasSwapped(c.io, c.takenDown));
  }

  lemma StageTallies(s: System, s': System, k: Socket)
    requires InviterTallies(s) && MovedPlainly(s.holder, s'.holder) && s'.ends == s.ends && k in s.conns && k in s'.conns
    requires s'.inviter.node == s.inviter.node && s'.inviter.out == s.inviter.out
    requires s'.written == s.written && s'.read == s.read
    requires s'.conns == s.conns[k := s'.conns[k]]
    requires s'.conns[k].ctrl == s.conns[k].ctrl && s'.conns[k].takenUp == s.conns[k].takenUp
    ensures InviterTallies(s')
  {
    hide InviterTallies, MovedPlainly;
    PlainTallies(s, s');
  }

  lemma RekeyParts(s: System, k: Socket, temp: Name)
    requires k in s.conns && temp in s.inviter.reserved
    ensures
      var s', c := RekeyedSystem(s, k, temp), s.conns[k];
      && s'.inviter == s.inviter.(reserved := Rekeyed(s.inviter.reserved, temp, NameOf(c)))
      && s'.conns == s.conns[k := c.(stage := Admitting(temp))] && s'.io == ToAdmit(k, temp, NameOf(c))
      && s'.holder == NamedHolder(s.holder, k) && s'.ends == s.ends && s'.dispatchers == s.dispatchers
      && s'.used == s.used && s'.crashed == s.crashed && s'.dropped == s.dropped
      && s'.written == s.written && s'.read == s.read
  {
    hide Rekeyed, NamedHolder;
  }

  lemma NameUsed(a: Name, used: set<Name>, bones: map<Socket, Bone>, k: Socket)
    requires NamesApart(a, used, bones) && k in bones
    ensures bones[k].name in used && bones[k].name != NONE
  {
    assert bones[k].name in Keys(bones[k]);
  }

  lemma RekeyConnections(s: System, k: Socket, temp: Name)
    requires Connections(s) && k in s.conns && s.conns[k].stage == Rekeying(temp) && temp in s.inviter.reserved
    requires !s.io.AtRest? && s.io.k == k && s.io.ToRekey? && MovedPlainly(s.holder, NamedHolder(s.holder, k))
    ensures Connections(RekeyedSystem(s, k, temp))
  {
    hide ConnInv, ViewOf, Connections, RekeyedSystem, MovedPlainly, NamedHolder;
    RekeyParts(s, k, temp);
    Connection(s, k);
    ViewDown(s, k);
    RekeyConn(ViewOf(s, k), s.conns[k]);
    forall j | j in s.conns
      ensures ViewOf(RekeyedSystem(s, k, temp), j)
           == if j == k then ViewOf(s, k).(io := ToAdmit(k, temp, NameOf(s.conns[k]))) else ViewOf(s, j)
    {
      RekeyViews(s, k, temp, j);
    }
    AllConnections(s, RekeyedSystem(s, k, temp), k);
  }

  lemma RekeyKeeps(s: System)
    requires Inv(s) && s.io.ToRekey? && s.io.k in s.conns
    ensures Inv(RekeyStep(s))
  {
    hide ConnInv, NamesApart, InviterPorts, Reservations, InviterTallies, Bones, ViewOf, WellFormedController;
    hide Connections, InviterFacts, KeysUsed, TypedConn, RekeyedSystem, RekeyStep, Rekeyed, NamedHolder, InviterSide;
    hide MovedPlainly;
    var k, c, bones := s.io.k, s.conns[s.io.k], Bones(s.conns);
    Busy(s);
    BusySide(ViewOf(s, k), c.stage, NameOf(c), c.takenUp);
    BonesKeys(s.conns);
    RekeyReservations(s.dispatchers, s.inviter.reserved, s.holder, bones, k, s.inviter.node.name, s.used);
    RekeyShape(s);
    RekeyedKeeps(s, k);
  }

  lemma RekeyedKeeps(s: System, k: Socket)
    requires Inv(s) && s.io.ToRekey? && s.io.k == k && k in s.conns && s.conns[k].stage.Rekeying?
    ensures s.conns[k].stage.temp in s.inviter.reserved && Inv(RekeyedSystem(s, k, s.conns[k].stage.temp))
  {
    hide ConnInv, NamesApart, InviterPorts, Reservations, InviterTallies, Bones, ViewOf, WellFormedController;
    hide Connections, InviterFacts, KeysUsed, TypedConn, RekeyedSystem, Rekeyed, NamedHolder, MovedPlainly;
    var temp, bones := s.conns[k].stage.temp, Bones(s.conns);
    BonesKeys(s.conns);
    RekeyReservations(s.dispatchers, s.inviter.reserved, s.holder, bones, k, s.inviter.node.name, s.used);
    var s' := RekeyedSystem(s, k, temp);
    RekeyParts(s, k, temp);
    NameUsed(s.inviter.node.name, s.used, bones, k);
    RekeyTyped(s.inviter, s.used, temp, NameOf(s.conns[k]));
    ConnTyped(s, s', k);
    StageTallies(s, s', k);
    StageBones(s.conns, k, Admitting(temp));
    SameNames(s.inviter.node.name, s.used, bones, k, Admitting(temp));
    NewBonePorts(s.inviter.node, s.ends, s.holder, bones, k, bones[k].(stage := Admitting(temp)));
    PlainPorts(s.inviter.node, s.ends, s.holder, s'.holder, Bones(s'.conns));
    RekeyConnections(s, k, temp);
  }
}
