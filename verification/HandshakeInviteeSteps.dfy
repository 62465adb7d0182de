// Every step of an invitee, taken together.

module HandshakeInviteeSteps {
  import opened Bytes
  import opened Names
  import opened Bodies
  import opened PortTable
  import opened Controllers
  import opened Handshake
  import opened HandshakeInvariant
  import opened HandshakeInvitee
  import opened HandshakeMessages

  /** How far an extracted port got is never taken back once it has a partner. */
  ghost predicate Onward(t: map<Name, Track>, u: map<Name, Track>) {
    forall p :: p in t ==>
      && p in u && u[p].pipe == t[p].pipe && u[p].mate == t[p].mate
      && (HasBridge(t[p].state) ==>
            HasBridge(u[p].state) && u[p].state.bridge == t[p].state.bridge && u[p].state.local == t[p].state.local)
      && (MergedAtInviter(t[p].state) ==> MergedAtInviter(u[p].state))
      && (t[p].state.Settled? ==> u[p].state.Settled?)
  }

  /** What a step of the invitee leaves to the inviter. */
  ghost predicate Extends(k: Socket, c: Conn, d: Conn) {
    && d.stage == c.stage && d.takenUp == c.takenUp && NameOf(d) == NameOf(c)
    && Sent(c.ctrl, k) <= Sent(d.ctrl, k) && Onward(c.track, d.track)
  }

  lemma MarkOnward(track: map<Name, Track>, p: Name, st: MergeState)
    requires p in track ==> Plain(track[p].state)
    ensures Onward(track, Mark(track, p, st))
  {
  }

  lemma SendExtends(ctrl: Controller, s: Socket, m: Body, k: Socket)
    requires s in ctrl.out
    ensures Sent(ctrl, k) <= Sent(Send(ctrl, s, m), k) && Send(ctrl, s, m).node == ctrl.node
  {
  }

  lemma WriteExtends(c: Conn, k: Socket, p: Name, data: Text)
    requires WellFormedController(c.ctrl) && p in c.ctrl.node.ports
    ensures Extends(k, c, WriteAtInvitee(c, p, data))
  {
    hide WellFormedController, Send;
    var (node, m) := Outgoing(c.ctrl.node, p, data);
    var peer := GetPeerChannel(c.ctrl, node);
    if node != c.ctrl.node.name && peer.Some? {
      assert peer.value in c.ctrl.out by { PeerHasChannel(c.ctrl, node); }
      SendExtends(c.ctrl, peer.value, m, k);
    }
  }

  lemma PeerHasChannel(c: Controller, n: Name)
    requires WellFormedController(c)
    ensures n in c.peers ==> c.peers[n] in c.out
  {
  }

  lemma MessageKeepsOut(ctrl: Controller, k: Socket, m: Body)
    requires WellFormedController(ctrl) && k in ctrl.remote && GoesDown(m)
    requires OnChannelMessage(ctrl, k, m).Done?
    ensures
      var d := OnChannelMessage(ctrl, k, m).value;
      d.out == ctrl.out && d.node.name == ctrl.node.name
  {
  }

  lemma SettleOnward(track: map<Name, Track>, p: Name)
    ensures Onward(track, Settle(track, p))
  {
  }

  lemma HearExtends(v: View, c: Conn)
    requires ConnInv(v, c) && c.io.Resting? && c.takenDown < |Incoming(v)|
    requires WellFormedController(c.ctrl) && v.k in c.ctrl.remote && HearAtInvitee(c, v.k, Incoming(v)).Done?
    ensures Extends(v.k, c, HearAtInvitee(c, v.k, Incoming(v)).value)
  {
    hide InviteePorts, Tallies, InviteeSide, InviterSide, Splices, UsersUp, UsersDown, Callers, RequestPlaces;
    hide TypedConn, SettledLater, WellFormedController, OnChannelMessage, Settle, Onward;
    var m := Incoming(v)[c.takenDown];
    OnwardSelf(c.track);
    FirstHeard(v, c.stage, NameOf(c), c.takenUp);
    if c.takenDown > 0 {
      MessageKeepsOut(c.ctrl, v.k, m);
      if m.ResponsePortMerge? {
        SettleOnward(c.track, m.connector);
      }
    }
  }

  lemma AllMarkedOnward(track: map<Name, Track>, merges: seq<Merge>)
    requires multiset(merges) == multiset(InState(track, PutOff))
    ensures Onward(track, MarkAll(track, merges))
  {
    MarkAllStates(track, merges);
    hide MarkAll, InState;
  }

  lemma SwapExtends(v: View, c: Conn)
    requires ConnInv(v, c)
    ensures Extends(v.k, c, SwapStep(c))
  {
    hide InviteePorts, Tallies, InviteeSide, InviterSide, Splices, UsersUp, UsersDown, Callers;
    hide TypedConn, SettledLater, WellFormedController, MarkAll, InState, AnsweredIn, Requests, Answers, Onward;
    AllMarkedOnward(c.track, c.ctrl.pendingMerges);
  }

  lemma DrainExtends(v: View, c: Conn)
    requires ConnInv(v, c) && c.io.ToDrain? && WellFormedController(c.ctrl) && DrainStep(c).Done?
    ensures Extends(v.k, c, DrainStep(c).value)
  {
    hide InviteePorts, Tallies, InviteeSide, InviterSide, Splices, UsersUp, UsersDown, Callers, RequestPlaces;
    hide TypedConn, SettledLater, WellFormedController, Send, Mark, Onward;
    OnwardSelf(c.track);
    if c.io.merges != [] {
      var p, s := c.io.merges[0].port, GetInviterChannel(c.ctrl);
      DrainPlaces(c.ctrl.pendingMerges, c.io.merges, Sent(c.ctrl, v.k)[c.takenUp..], Incoming(v)[c.takenDown..], c.track);
      MarkOnward(c.track, p, Asked);
      PeerHasChannel(c.ctrl, c.ctrl.inviterName);
      SendExtends(c.ctrl, s.value, RequestBody(c.io.merges[0]), v.k);
    }
  }

  lemma OnwardSelf(track: map<Name, Track>)
    ensures Onward(track, track)
  {
  }

  lemma FindExtends(v: View, c: Conn, p: Name)
    requires ConnInv(v, c) && p in c.callers && c.callers[p].Named?
    ensures Extends(v.k, c, FindInviter(c, p))
  {
    hide InviteePorts, Tallies, InviteeSide, InviterSide, Splices, UsersUp, UsersDown, Callers, RequestPlaces;
    hide TypedConn, SettledLater, Mark, Onward, Sent;
    OnwardSelf(c.track);
    SameSent(c.ctrl, FindInviter(c, p).ctrl, v.k);
    CallerFacts(v, c.callers, c.lock, c.track, p, CanFind(c.io, c.takenDown), HasSwapped(c.io, c.takenDown));
    MarkOnward(c.track, p, PutOff);
  }

  lemma RequestExtends(v: View, c: Conn, p: Name)
    requires ConnInv(v, c) && p in c.callers && c.callers[p].Sending? && c.callers[p].socket in c.ctrl.out
    ensures Extends(v.k, c, SendRequest(c, p))
  {
    hide InviteePorts, Tallies, InviteeSide, InviterSide, Splices, UsersUp, UsersDown, Callers, RequestPlaces;
    hide TypedConn, SettledLater, Send, Sent, Mark, Onward;
    CallerFacts(v, c.callers, c.lock, c.track, p, CanFind(c.io, c.takenDown), HasSwapped(c.io, c.takenDown));
    MarkOnward(c.track, p, Asked);
    SendExtends(c.ctrl, c.callers[p].socket, RequestBody(Merge(c.callers[p].pipe, p)), v.k);
  }

  lemma ExtractExtends(v: View, c: Conn, pipe: Text, p0: Name, p1: Name)
    requires ConnInv(v, c) && FreshPorts(c.ctrl.node, p0, p1)
    ensures Extends(v.k, c, ExtractPipe(c, pipe, p0, p1))
  {
    hide InviteePorts, Tallies, InviteeSide, InviterSide, Splices, UsersUp, UsersDown, Callers, RequestPlaces;
    hide TypedConn, SettledLater, WellFormedController, CreatePair, Onward;
    ExtractPorts(c.ctrl.node, v.a, c.track, p0, p1, pipe);
    NewOnward(c.track, p0, Track(pipe, p1, Calling));
  }

  lemma NewOnward(track: map<Name, Track>, p0: Name, t: Track)
    requires p0 !in track
    ensures Onward(track, track[p0 := t])
  {
  }

  lemma AnswerExtends(c: Conn, k: Socket)
    requires TypedConn(c.ctrl, k) && c.io.ToAnswer?
    ensures Extends(k, c, AnswerStep(c))
  {
    hide WellFormedController, Onward, Send, Sent;
    OnwardSelf(c.track);
    SendExtends(SetRemote(c.ctrl, k, c.io.inviter), k, AcceptInvitation(c.io.token, c.ctrl.node.name), k);
    SameSent(c.ctrl, SetRemote(c.ctrl, k, c.io.inviter), k);
  }

  lemma SameSent(c: Controller, d: Controller, k: Socket)
    requires c.out == d.out
    ensures Sent(c, k) == Sent(d, k)
  {
  }

  lemma JoinExtends(c: Conn, k: Socket)
    requires TypedConn(c.ctrl, k) && c.io.ToJoin?
    ensures Extends(k, c, JoinStep(c))
  {
    hide WellFormedController, Onward;
    OnwardSelf(c.track);
  }

  lemma WaitingExtends(c: Conn, k: Socket)
    requires TypedConn(c.ctrl, k) && c.io.ToSend?
    ensures Extends(k, c, SendStep(c))
  {
    hide WellFormedController, Onward, Send, Sent;
    OnwardSelf(c.track);
    if c.io.messages != [] {
      SendExtends(c.ctrl, k, c.io.messages[0], k);
    }
  }

  /** No step of an invitee crashes; each keeps what holds of its connection, and only extends what the
      inviter has read of it. */
  lemma InviteeStepKeeps(v: View, c: Conn, step: InviteeStep)
    requires ConnInv(v, c) && TypedConn(c.ctrl, v.k) && CanAtInvitee(c, v.k, Incoming(v), step)
    ensures
      var r := DoAtInvitee(c, v.k, Incoming(v), step);
      r.Done? && ConnInv(v, r.value) && Extends(v.k, c, r.value)
  {
    hide ConnInv, Extends;
    match step
    case Extract(pipe, p0, p1) =>
      ExtractKeeps(v, c, pipe, p0, p1);
      ExtractExtends(v, c, pipe, p0, p1);
    case Lock(p) =>
      LockKeeps(v, c, p);
      SimpleExtends(c, v.k, LockPending(c, p));
    case ReadName(p) =>
      ReadNameKeeps(v, c, p);
      SimpleExtends(c, v.k, ReadInviterName(c, p));
    case Find(p) =>
      FindKeeps(v, c, p);
      FindExtends(v, c, p);
    case Request(p) =>
      RequestKeeps(v, c, p);
      RequestExtends(v, c, p);
    case Hear =>
      HearKeeps(v, c);
      HearExtends(v, c);
    case Answer =>
      AnswerKeeps(v, c);
      AnswerExtends(c, v.k);
    case Join =>
      JoinKeeps(v, c);
      JoinExtends(c, v.k);
    case SendWaiting =>
      SendStepKeeps(v, c);
      WaitingExtends(c, v.k);
    case Swap =>
      SwapKeeps(v, c);
      SwapExtends(v, c);
    case Drain =>
      DrainKeeps(v, c);
      DrainExtends(v, c);
    case Write(p, data) =>
      WriteKeeps(v, c, p, data);
      WriteExtends(c, v.k, p, data);
    case Read(p) =>
      ReadKeeps(v, c, p);
      SimpleExtends(c, v.k, ReadAtInvitee(c, p));
  }

  lemma SimpleExtends(c: Conn, k: Socket, d: Conn)
    requires d.stage == c.stage && d.takenUp == c.takenUp && NameOf(d) == NameOf(c)
    requires d.ctrl.out == c.ctrl.out && d.track == c.track
    ensures Extends(k, c, d)
  {
  }
}
