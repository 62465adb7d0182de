// Nothing is lost or doubled: merge requests, reserved ports, messages.

module HandshakeConservation {
  import opened Bytes
  import opened Names
  import opened Bodies
  import opened PortTable
  import opened Controllers
  import opened Handshake
  import opened HandshakeInvariant
  import opened HandshakeInvitee
  import opened HandshakeMessages
  import opened HandshakeInviteeSteps
  import opened HandshakeInviter
  import opened HandshakeInvitation
  import opened HandshakeLaunch
  import opened HandshakeHear
  import opened HandshakeMerge
  import opened HandshakeAnswer
  import opened HandshakeTheorems

  // ------------------------------------------------------------------ merge requests

  /** Where the request for an extracted port can be. */
  datatype RequestPlace =
    | WithThread     // in the hands of the thread that merges the port
    | InPending      // put off until the inviter is known
    | InSwapped      // taken over from there, and not sent yet
    | OnChannel      // on the channel to the inviter, not read yet
    | AtInviter      // in the hands of the inviter's IO thread
    | OnWayBack      // the response is on the channel, not read yet
    | Finished       // refused, or settled

  ghost predicate RequestAt(s: System, k: Socket, p: Name, place: RequestPlace)
    requires k in s.conns && p in s.conns[k].track
    requires s.conns[k].takenUp <= |Up(s.conns[k], k)| && s.conns[k].takenDown <= |Down(s, k)|
  {
    var c := s.conns[k];
    var m := Merge(c.track[p].pipe, p);
    match place
    case WithThread => p in c.callers
    case InPending => m in c.ctrl.pendingMerges
    case InSwapped => m in Draining(c.io)
    case OnChannel => m in Requests(Up(c, k)[c.takenUp..])
    case AtInviter => (s.io.ToMerge? || s.io.ToRespond?) && s.io.k == k && s.io.connector == p
    case OnWayBack => exists l :: (p, l) in Answers(Down(s, k)[c.takenDown..])
    case Finished => c.track[p].state.Refused? || c.track[p].state.Settled?
  }

  function PlaceOf(m: MergeState): RequestPlace {
    match m
    case Calling => WithThread
    case PutOff => InPending
    case Swapped => InSwapped
    case Asked => OnChannel
    case Taken(_, _) => AtInviter
    case Spliced(_, _) => AtInviter
    case Answered(_, _) => OnWayBack
    case _ => Finished
  }

  lemma InMultiset<T>(s: seq<T>, all: set<T>, x: T)
    requires multiset(s) == multiset(all)
    ensures x in s <==> x in all
    ensures multiset(s)[x] <= 1
  {
    assert x in s <==> x in multiset(s);
  }

  lemma CallerIs(v: View, callers: map<Name, Caller>, lock: Option<Name>, track: map<Name, Track>, p: Name,
                 canFind: bool, hasSwapped: bool)
    requires Callers(v, callers, lock, track, canFind, hasSwapped) && p in track
    ensures p in callers <==> track[p].state.Calling?
  {
  }

  lemma AtInviterIs(v: View, b: Name, track: map<Name, Track>, p: Name)
    requires Splices(v, b, track) && p in track
    ensures (v.io.ToMerge? || v.io.ToRespond?) && v.io.connector == p
       <==> track[p].state.Taken? || track[p].state.Spliced?
  {
  }

  lemma PlacesAre(pending: seq<Merge>, draining: seq<Merge>, up: seq<Body>, down: seq<Body>, track: map<Name, Track>,
                  p: Name)
    requires RequestPlaces(pending, draining, up, down, track) && p in track
    ensures
      var m := Merge(track[p].pipe, p);
      && (m in pending <==> track[p].state.PutOff?) && (m in draining <==> track[p].state.Swapped?)
      && (m in Requests(up) <==> track[p].state.Asked?)
      && ((exists l :: (p, l) in Answers(down)) <==> track[p].state.Answered?)
    ensures
      var m := Merge(track[p].pipe, p);
      multiset(pending)[m] <= 1 && multiset(draining)[m] <= 1 && Requests(up)[m] <= 1
  {
    var m := Merge(track[p].pipe, p);
    InMultiset(pending, InState(track, PutOff), m);
    InMultiset(draining, InState(track, Swapped), m);
    InStateMember(track, PutOff, m);
    InStateMember(track, Swapped, m);
    InStateMember(track, Asked, m);
    assert m in Requests(up) <==> m in InState(track, Asked);
    hide Requests, Answers, InState;
    if track[p].state.Answered? {
      AnsweredMember(track, (p, track[p].state.local));
      assert (p, track[p].state.local) in Answers(down);
    }
    forall l | (p, l) in Answers(down)
      ensures track[p].state.Answered?
    {
      AnsweredMember(track, (p, l));
      assert (p, l) in AnsweredIn(track);
    }
  }

  /** The request for every extracted port is in exactly one place, and there at most once. */
  lemma RequestInOnePlace(a: Name, s: System, k: Socket, p: Name, place: RequestPlace)
    requires a != NONE && Reachable(a, s) && k in s.conns && p in s.conns[k].track
    ensures s.conns[k].takenUp <= |Up(s.conns[k], k)| && s.conns[k].takenDown <= |Down(s, k)|
    ensures RequestAt(s, k, p, place) <==> place == PlaceOf(s.conns[k].track[p].state)
    ensures
      var c := s.conns[k];
      var m := Merge(c.track[p].pipe, p);
      && multiset(c.ctrl.pendingMerges)[m] <= 1 && multiset(Draining(c.io))[m] <= 1
      && Requests(Up(c, k)[c.takenUp..])[m] <= 1
  {
    hide Reachable, ConnInv, ViewOf, Inv, Connections, RequestPlaces, Sent, Down, Splices, Callers, Requests, Answers;
    hide InviterFacts, InviterTallies, InviterPorts, Bones;
    ReachableHolds(a, s);
    InvConnections(s);
    Connection(s, k);
    ViewIncoming(s, k);
    ViewDown(s, k);
    var v, c := ViewOf(s, k), s.conns[k];
    ConnCounts(v, c);
    ConnParts(v, c);
    PlacesAre(c.ctrl.pendingMerges, Draining(c.io), Sent(c.ctrl, k)[c.takenUp..], Down(s, k)[c.takenDown..], c.track, p);
    CallerIs(v, c.callers, c.lock, c.track, p, CanFind(c.io, c.takenDown), HasSwapped(c.io, c.takenDown));
    AtInviterIs(v, NameOf(c), c.track, p);
  }

  lemma ConnParts(v: View, c: Conn)
    requires ConnInv(v, c)
    ensures c.takenUp <= |Sent(c.ctrl, v.k)| && c.takenDown <= |Incoming(v)|
    ensures Callers(v, c.callers, c.lock, c.track, CanFind(c.io, c.takenDown), HasSwapped(c.io, c.takenDown))
    ensures Splices(v, NameOf(c), c.track)
    ensures RequestPlaces(c.ctrl.pendingMerges, Draining(c.io), Sent(c.ctrl, v.k)[c.takenUp..],
                          Incoming(v)[c.takenDown..], c.track)
  {
    hide Tallies, InviteeSide, InviterSide, UsersUp, UsersDown, Callers, RequestPlaces, Splices, InviteePorts;
  }

  /** Once the requests put off have been taken over, none is put off again. */
  lemma PendingStaysEmpty(a: Name, s: System, k: Socket)
    requires a != NONE && Reachable(a, s) && k in s.conns && HasSwapped(s.conns[k].io, s.conns[k].takenDown)
    ensures s.conns[k].ctrl.pendingMerges == []
  {
    hide Reachable, ConnInv, ViewOf, Inv, Connections, InviterFacts, InviterTallies, InviterPorts, Bones;
    ReachableHolds(a, s);
    InvConnections(s);
    Connection(s, k);
    SwappedPending(ViewOf(s, k), s.conns[k]);
  }

  lemma SwappedPending(v: View, c: Conn)
    requires ConnInv(v, c) && HasSwapped(c.io, c.takenDown)
    ensures c.ctrl.pendingMerges == [] && c.takenDown > 0
  {
    hide Tallies, InviterSide, UsersUp, UsersDown, Callers, RequestPlaces, Splices, InviteePorts;
  }

  /** And that stays so: no step takes the invitee back before the moment it took them over. */
  lemma SwappedForGood(a: Name, s: System, k: Socket, step: InviteeStep)
    requires a != NONE && Reachable(a, s) && k in s.conns && HasSwapped(s.conns[k].io, s.conns[k].takenDown)
    requires TypedConn(s.conns[k].ctrl, k) && CanAtInvitee(s.conns[k], k, Down(s, k), step)
    ensures
      var r := DoAtInvitee(s.conns[k], k, Down(s, k), step);
      r.Done? && HasSwapped(r.value.io, r.value.takenDown)
  {
    hide Reachable, ConnInv, ViewOf, Inv, Connections, InviterFacts, InviterTallies, InviterPorts, Bones;
    hide WellFormedController, Down;
    ReachableHolds(a, s);
    InvConnections(s);
    Connection(s, k);
    ViewIncoming(s, k);
    var v, c := ViewOf(s, k), s.conns[k];
    InviteeStepKeeps(v, c, step);
    SwappedPending(v, c);
    if step.Hear? {
      HeardLater(v, c);
    }
  }

  lemma HeardLater(v: View, c: Conn)
    requires ConnInv(v, c) && c.io.Resting? && 0 < c.takenDown < |Incoming(v)|
    ensures GoesDown(Incoming(v)[c.takenDown])
  {
    hide ConnInv;
    ConnSide(v, c);
    FirstHeard(v, c.stage, NameOf(c), c.takenUp);
  }

  // ------------------------------------------------------------------ user messages

  lemma {:induction false} UpEnds(up: seq<Body>, track: map<Name, Track>, p: Name, l: Name)
    requires UsersUp(up, track) && p in track && HasBridge(track[p].state) && track[p].state.local == l
    requires forall q :: q in track && track[q].state.Settled? && track[q].state.local == l ==> q == p
    ensures UsersFrom(up, p) == UsersTo(up, l)
  {
    if up != [] {
      var most, last := up[..|up| - 1], up[|up| - 1];
      assert forall m :: m in most ==> m in up;
      UpEnds(most, track, p, l);
      assert last in up;
    }
  }

  lemma {:induction false} DownEnds(down: seq<Body>, track: map<Name, Track>, p: Name, l: Name)
    requires UsersDown(down, track) && p in track && HasBridge(track[p].state) && track[p].state.local == l
    requires forall q :: q in track && MergedAtInviter(track[q].state) && track[q].state.local == l ==> q == p
    ensures UsersFrom(down, l) == UsersTo(down, p)
  {
    if down != [] {
      var most, last := down[..|down| - 1], down[|down| - 1];
      assert forall m :: m in most ==> m in down;
      DownEnds(most, track, p, l);
      assert last in down;
    }
  }

  /** Two extracted ports are not merged with the same port of the inviter. */
  lemma OneLocal(s: System, k: Socket, p: Name, q: Name)
    requires Inv(s) && k in s.conns && p in s.conns[k].track && q in s.conns[k].track
    requires MergedAtInviter(s.conns[k].track[p].state) && MergedAtInviter(s.conns[k].track[q].state)
    requires s.conns[k].track[p].state.local == s.conns[k].track[q].state.local
    ensures p == q
  {
    hide ConnInv, ViewOf, Reservations, InviterTallies, NamesApart, KeysUsed, Connections, Mine, MyEnds, Typed;
    hide WellFormedController, Sound, EndOk, Bones;
    Connection(s, k);
    ViewDown(s, k);
    MergedBridge(s, k, p);
    MergedBridge(s, k, q);
  }

  /** The bridge half of a merged port, in the inviter's tables. */
  lemma MergedBridge(s: System, k: Socket, p: Name)
    requires Inv(s) && k in s.conns && p in s.conns[k].track && MergedAtInviter(s.conns[k].track[p].state)
    ensures
      var r, l := s.conns[k].track[p].state.bridge, s.conns[k].track[p].state.local;
      && r in s.ends && s.ends[r] == l && r in s.holder && s.holder[r] == Merged(k, p)
  {
    hide Inv, ConnInv, ViewOf, Connections, InviterFacts, InviterTallies, InviterPorts, Bones, Mine, MyEnds;
    InvConnections(s);
    Connection(s, k);
    ViewDown(s, k);
    BridgeOfConn(ViewOf(s, k), s.conns[k], p);
    MineIs(s.holder, s.ends, k, s.conns[k].track[p].state.bridge);
  }

  function Queued(n: Node, p: Name): multiset<Body> {
    if p in n.ports then multiset(n.ports[p].queue) else multiset{}
  }

  lemma UsersOfConn(v: View, c: Conn)
    requires ConnInv(v, c)
    ensures c.takenUp <= |Sent(c.ctrl, v.k)| && c.takenDown <= |Incoming(v)|
    ensures UsersUp(Sent(c.ctrl, v.k), c.track) && UsersDown(Incoming(v), c.track)
  {
    hide Tallies, InviteeSide, InviterSide, UsersUp, UsersDown, Callers, RequestPlaces, Splices, InviteePorts;
  }

  lemma TallyOfConn(v: View, c: Conn, p: Name)
    requires ConnInv(v, c) && p in c.track
    ensures c.takenDown <= |Incoming(v)|
    ensures Count(c.written, p) == UsersFrom(Sent(c.ctrl, v.k), p)
    ensures UsersTo(Incoming(v)[..c.takenDown], p) == Queued(c.ctrl.node, p) + Count(c.read, p)
  {
    hide InviteeSide, InviterSide, UsersUp, UsersDown, Callers, RequestPlaces, Splices, InviteePorts, UsersTo;
    hide UsersFrom;
    hide Sent, Incoming, Count, TypedConn;
  }

  lemma NoOtherLocal(s: System, k: Socket, p: Name)
    requires Inv(s) && k in s.conns && p in s.conns[k].track && MergedAtInviter(s.conns[k].track[p].state)
    ensures
      var track := s.conns[k].track;
      forall q :: q in track && MergedAtInviter(track[q].state) && track[q].state.local == track[p].state.local ==> q == p
  {
    hide Inv;
    var track := s.conns[k].track;
    forall q | q in track && MergedAtInviter(track[q].state) && track[q].state.local == track[p].state.local
      ensures q == p
    {
      OneLocal(s, k, p, q);
    }
  }

  /** The messages still on their way to port `p` of invitee `k`, and to its partner `l`. */
  function OnWayDown(s: System, k: Socket, p: Name): multiset<Body>
    requires k in s.conns
  {
    if s.conns[k].takenDown <= |Down(s, k)| then UsersTo(Down(s, k)[s.conns[k].takenDown..], p) else multiset{}
  }

  function OnWayUp(s: System, k: Socket, l: Name): multiset<Body>
    requires k in s.conns
  {
    var c := s.conns[k];
    if c.takenUp <= |Up(c, k)| then UsersTo(Up(c, k)[c.takenUp..], l) else multiset{}
  }

  lemma DownConserved(s: System, k: Socket, p: Name)
    requires Inv(s) && k in s.conns && p in s.conns[k].track && MergedAtInviter(s.conns[k].track[p].state)
    ensures
      var c, l := s.conns[k], s.conns[k].track[p].state.local;
      Count(s.written, l) == OnWayDown(s, k, p) + Queued(c.ctrl.node, p) + Count(c.read, p)
  {
    hide Inv, ConnInv, ViewOf, Connections, InviterFacts, InviterTallies, InviterPorts, Bones, Down, UsersDown;
    hide UsersFrom;
    hide UsersTo, EndTally, Queued, Count;
    var c, l := s.conns[k], s.conns[k].track[p].state.local;
    InvConnections(s);
    Connection(s, k);
    ViewIncoming(s, k);
    UsersOfConn(ViewOf(s, k), c);
    TallyOfConn(ViewOf(s, k), c, p);
    MergedBridge(s, k, p);
    NoOtherLocal(s, k, p);
    DownEnds(Down(s, k), c.track, p, l);
    UsersSplit(Down(s, k), c.takenDown, p);
    TallyOf(s, c.track[p].state.bridge, k, p);
  }

  lemma TallyOf(s: System, r: Name, k: Socket, p: Name)
    requires Inv(s) && r in s.ends && r in s.holder && s.holder[r] == Merged(k, p) && k in s.conns
    ensures
      var l := s.ends[r];
      && Count(s.written, l) == UsersFrom(Down(s, k), l)
      && UsersTo(HeardFrom(s.conns[k], k), l) == Queued(s.inviter.node, l) + Count(s.read, l)
  {
    hide Inv, HeardFrom, Down, UsersFrom, UsersTo, InviterFacts, InviterPorts, Connections, Bones;
    InvConnections(s);
    assert EndTally(s, s.ends[r], s.holder[r]);
  }

  lemma UpConserved(s: System, k: Socket, p: Name)
    requires Inv(s) && k in s.conns && p in s.conns[k].track && MergedAtInviter(s.conns[k].track[p].state)
    ensures
      var c, l := s.conns[k], s.conns[k].track[p].state.local;
      Count(c.written, p) == OnWayUp(s, k, l) + Queued(s.inviter.node, l) + Count(s.read, l)
  {
    hide Inv, ConnInv, ViewOf, Connections, InviterFacts, InviterTallies, InviterPorts, Bones, Sent, UsersUp, UsersFrom;
    hide UsersTo, EndTally, Incoming, UsersDown, Queued, Count;
    var c, l := s.conns[k], s.conns[k].track[p].state.local;
    InvConnections(s);
    Connection(s, k);
    UsersOfConn(ViewOf(s, k), c);
    TallyOfConn(ViewOf(s, k), c, p);
    MergedBridge(s, k, p);
    NoOtherLocal(s, k, p);
    UpEnds(Up(c, k), c.track, p, l);
    UsersSplit(Up(c, k), c.takenUp, l);
    TallyOf(s, c.track[p].state.bridge, k, p);
  }

  /** Between the two ends of a merged pipe no message is lost or doubled, in either direction: what was
      written at one end and handed on is on its way, queued at the other end, or read there. */
  lemma MessagesConserved(a: Name, s: System, k: Socket, p: Name)
    requires a != NONE && Reachable(a, s) && k in s.conns && p in s.conns[k].track
    requires MergedAtInviter(s.conns[k].track[p].state)
    ensures
      var c, l := s.conns[k], s.conns[k].track[p].state.local;
      && Count(c.written, p) == OnWayUp(s, k, l) + Queued(s.inviter.node, l) + Count(s.read, l)
      && Count(s.written, l) == OnWayDown(s, k, p) + Queued(c.ctrl.node, p) + Count(c.read, p)
  {
    hide Reachable, Inv, OnWayUp, OnWayDown, Queued, Count;
    ReachableHolds(a, s);
    UpConserved(s, k, p);
    DownConserved(s, k, p);
  }

  lemma {:induction false} NoUsersTo(down: seq<Body>, track: map<Name, Track>, p: Name)
    requires UsersDown(down, track) && p in track && !MergedAtInviter(track[p].state)
    ensures UsersTo(down, p) == multiset{}
  {
    if down != [] {
      var most, last := down[..|down| - 1], down[|down| - 1];
      assert forall m :: m in most ==> m in down;
      NoUsersTo(most, track, p);
      assert last in down;
    }
  }

  lemma {:induction false} NoUsersFrom(up: seq<Body>, track: map<Name, Track>, p: Name)
    requires UsersUp(up, track) && p in track && !track[p].state.Settled?
    ensures UsersFrom(up, p) == multiset{}
  {
    if up != [] {
      var most, last := up[..|up| - 1], up[|up| - 1];
      assert forall m :: m in most ==> m in up;
      NoUsersFrom(most, track, p);
      assert last in up;
    }
  }

  /** Only what is written after the merge is handed on: an extracted port hands nothing on before the
      response has reached it, and nothing is queued or read there before the inviter has merged it. */
  lemma NothingBeforeMerge(a: Name, s: System, k: Socket, p: Name)
    requires a != NONE && Reachable(a, s) && k in s.conns && p in s.conns[k].track
    ensures
      var c := s.conns[k];
      && (!c.track[p].state.Settled? ==> Count(c.written, p) == multiset{})
      && (!MergedAtInviter(c.track[p].state) ==>
            Queued(c.ctrl.node, p) == Count(c.read, p) == OnWayDown(s, k, p) == multiset{})
  {
    hide Reachable, Inv, ConnInv, ViewOf, Connections, InviterFacts, InviterTallies, InviterPorts, Bones, Down, Sent;
    hide UsersDown, UsersUp, UsersTo, UsersFrom, Queued, Count;
    var c := s.conns[k];
    ReachableHolds(a, s);
    InvConnections(s);
    Connection(s, k);
    ViewIncoming(s, k);
    UsersOfConn(ViewOf(s, k), c);
    TallyOfConn(ViewOf(s, k), c, p);
    if !c.track[p].state.Settled? {
      NoUsersFrom(Sent(c.ctrl, k), c.track, p);
    }
    if !MergedAtInviter(c.track[p].state) {
      NoUsersTo(Down(s, k), c.track, p);
      UsersSplit(Down(s, k), c.takenDown, p);
      BothEmpty(UsersTo(Down(s, k)[..c.takenDown], p), UsersTo(Down(s, k)[c.takenDown..], p));
      BothEmpty(Queued(c.ctrl.node, p), Count(c.read, p));
    }
  }

  lemma BothEmpty<T>(a: multiset<T>, b: multiset<T>)
    requires a + b == multiset{}
    ensures a == multiset{} && b == multiset{}
  {
    assert a <= a + b && b <= a + b;
  }
}
