// An invitee reads from its channel, and its application writes to and reads from its pipes.

module HandshakeMessages {
  import opened Bytes
  import opened Names
  import opened Bodies
  import opened PortTable
  import opened Controllers
  import opened Handshake
  import opened HandshakeInvariant
  import opened HandshakeInvitee

  // ------------------------------------------------------------------ writing and reading

  lemma SettledCanFind(v: View, ctrl: Controller, io: InviteeIo, takenDown: nat, takenUp: nat, temp: Name)
    requires InviteeSide(v, Bare(ctrl), io, takenDown, takenUp, temp) && takenDown > 1
    ensures io.Resting? && CanFind(io, takenDown) && HasSwapped(io, takenDown)
    ensures ctrl.peers == map[v.a := v.k] && ctrl.remote.Keys == {v.k} && ctrl.remote[v.k] == v.a
    ensures ctrl.inviterName == v.a
  {
  }

  lemma UserPlaces(pending: seq<Merge>, draining: seq<Merge>, up: seq<Body>, down: seq<Body>,
                   track: map<Name, Track>, m: Body)
    requires RequestPlaces(pending, draining, up, down, track) && m.UserMessage?
    ensures RequestPlaces(pending, draining, up + [m], down, track)
  {
    RequestsAppend(up, m);
    assert RequestIn(m) == multiset{};
    hide Requests, InState, AnsweredIn, Answers;
  }

  lemma WriteTallies(up: seq<Body>, m: Body, heard: seq<Body>, ports: map<Name, Port>, tracked: set<Name>,
                     written: Tally, read: Tally)
    requires Tallies(up, heard, ports, tracked, written, read) && m.UserMessage? && m.from in tracked
    ensures Tallies(up + [m], heard, ports, tracked, Add(written, m.from, m), read)
  {
    hide UsersTo, UsersFrom, Count, Add;
    forall p
      ensures UsersFrom(up + [m], p) == UsersFrom(up, p) + UserIfFrom(m, p)
      ensures Count(Add(written, m.from, m), p)
           == Count(written, p) + (if p == m.from then multiset{m} else multiset{})
    {
      UsersAppend(up, m, p);
      CountAdd(written, m.from, m, p);
    }
    AddKeys(written, m.from, m);
  }

  lemma CountAdd(t: Tally, p: Name, m: Body, q: Name)
    ensures Count(Add(t, p, m), q) == if q == p then Count(t, q) + multiset{m} else Count(t, q)
  {
  }

  lemma AddKeys(t: Tally, p: Name, m: Body)
    ensures Add(t, p, m).Keys == t.Keys + {p}
  {
  }

  lemma WriteKeeps(v: View, c: Conn, p: Name, data: Text)
    requires ConnInv(v, c) && p in c.track && p in c.ctrl.node.ports && WellFormedController(c.ctrl)
    ensures ConnInv(v, WriteAtInvitee(c, p, data))
  {
    hide InviteePorts, Tallies, InviteeSide, InviterSide, RequestPlaces, Splices, UsersUp, UsersDown, Callers;
    hide TypedConn, Send, Sent, SettledLater, WellFormedController, Sound;
    SidesDiffer(v, c.stage, NameOf(c), c.takenUp);
    PortsFact(c.ctrl.node, v.a, c.track, p);
    if c.track[p].state.Settled? {
      var up, down := Sent(c.ctrl, v.k), Incoming(v);
      var m := UserMessage(p, c.track[p].state.local, data);
      SettledFact(c.track, p, c.takenDown);
      SettledCanFind(v, c.ctrl, c.io, c.takenDown, c.takenUp, TempOf(c));
      TypedSend(c.ctrl, v.k, m);
      SendSide(v, c.ctrl, c.io, c.takenDown, c.takenUp, TempOf(c), m);
      SendKeepsRest(c.ctrl, v.k, m);
      UserPlaces(c.ctrl.pendingMerges, Draining(c.io), up[c.takenUp..], down[c.takenDown..], c.track, m);
      WriteTallies(up, m, down[..c.takenDown], c.ctrl.node.ports, c.track.Keys, c.written, c.read);
      SettledUsers(up, m, c.track);
    }
  }

  lemma SettledFact(track: map<Name, Track>, p: Name, takenDown: nat)
    requires SettledLater(track, takenDown) && p in track && track[p].state.Settled?
    ensures takenDown > 1
  {
  }

  lemma SettledUsers(up: seq<Body>, m: Body, track: map<Name, Track>)
    requires UsersUp(up, track) && m.UserMessage?
    requires m.from in track && track[m.from].state.Settled? && track[m.from].state.local == m.to
    ensures UsersUp(up + [m], track)
  {
  }

  lemma QueuesOnly(n: Node, n': Node, a: Name, track: map<Name, Track>)
    requires InviteePorts(n, a, track) && SameBut(n, n')
    ensures InviteePorts(n', a, track) && WellFormed(n')
  {
    SameIsSound(n, n');
    hide Sound, Apart;
    forall p | p in track
      ensures PairOrSpliced(n', a, p, track[p])
    {
      assert PairOrSpliced(n, a, p, track[p]);
    }
    SoundIsWellFormed(n');
  }

  lemma TypedNode(ctrl: Controller, k: Socket, n: Node)
    requires TypedConn(ctrl, k) && WellFormed(n) && ctrl.node.ports.Keys <= n.ports.Keys
    ensures TypedConn(ctrl.(node := n), k)
  {
    hide WellFormed;
  }

  lemma ReadKeeps(v: View, c: Conn, p: Name)
    requires ConnInv(v, c) && p in c.track && p in c.ctrl.node.ports
    ensures ConnInv(v, ReadAtInvitee(c, p))
  {
    hide InviteePorts, Tallies, InviteeSide, InviterSide, RequestPlaces, Splices, UsersUp, UsersDown, Callers;
    hide TypedConn, SettledLater, WellFormedController, PortTable.GetMessage, SameBut, Sound;
    InvSound(c.ctrl.node, v.a, c.track);
    GetMessageTakesOne(c.ctrl.node, p);
    var (m, n) := PortTable.GetMessage(c.ctrl.node, p);
    QueuesOnly(c.ctrl.node, n, v.a, c.track);
    SameButFacts(c.ctrl.node, n);
    TypedNode(c.ctrl, v.k, n);
    ReadTallies(Sent(c.ctrl, v.k), Incoming(v)[..c.takenDown], c.ctrl.node.ports, n.ports, c.track.Keys,
                c.written, c.read, p, m);
  }

  lemma InvSound(n: Node, a: Name, track: map<Name, Track>)
    requires InviteePorts(n, a, track)
    ensures Sound(n)
  {
  }

  lemma SameButFacts(n: Node, n': Node)
    requires SameBut(n, n')
    ensures n'.name == n.name && n'.live == n.live && n'.ports.Keys == n.ports.Keys
  {
  }

  lemma ReadTallies(up: seq<Body>, heard: seq<Body>, ports: map<Name, Port>, ports': map<Name, Port>,
                    tracked: set<Name>, written: Tally, read: Tally, p: Name, m: Option<Body>)
    requires Tallies(up, heard, ports, tracked, written, read) && p in tracked && p in ports
    requires ports'.Keys == ports.Keys && forall q :: q in ports && q != p ==> ports'[q] == ports[q]
    requires multiset(ports[p].queue)
          == multiset(ports'[p].queue) + (if m.Some? then multiset{m.value} else multiset{})
    ensures Tallies(up, heard, ports', tracked, written, if m.Some? then Add(read, p, m.value) else read)
  {
    hide UsersTo, UsersFrom, Count, Add;
    if m.Some? {
      AddKeys(read, p, m.value);
      forall q
        ensures Count(Add(read, p, m.value), q)
             == Count(read, q) + (if q == p then multiset{m.value} else multiset{})
      {
        CountAdd(read, p, m.value, q);
      }
    }
  }

  // ------------------------------------------------------------------ hearing

  /** The first message of the inviter is AcceptInvitee. */
  lemma FirstHeard(v: View, stage: Stage, b: Name, takenUp: nat)
    requires InviterSide(v, stage, b, takenUp) && Incoming(v) != []
    ensures !stage.Connected? && Incoming(v)[0] == AcceptInvitee(stage.temp, v.a)
    ensures forall j :: 0 < j < |Incoming(v)| ==> GoesDown(Incoming(v)[j])
  {
  }

  lemma HeardSide(v: View, ctrl: Controller, io: InviteeIo, takenUp: nat, temp: Name)
    requires InviteeSide(v, Bare(ctrl), io, 0, takenUp, temp) && 0 < |Incoming(v)|
    ensures InviteeSide(v, Bare(NameInviter(ctrl, v.a)), ToAnswer(v.a, temp), 1, takenUp, temp)
  {
  }

  lemma NotFirst(v: View, ctrl: Controller, io: InviteeIo, takenDown: nat, takenUp: nat, temp: Name)
    requires InviteeSide(v, Bare(ctrl), io, takenDown, takenUp, temp) && io.Resting? && takenDown > 0
    requires takenDown < |Incoming(v)|
    ensures InviteeSide(v, Bare(ctrl), io, takenDown + 1, takenUp, temp)
    ensures ctrl.remote.Keys == {v.k} && ctrl.remote[v.k] == v.a
  {
  }

  lemma HeardNames(track: map<Name, Track>)
    requires SettledLater(track, 0)
    ensures SettledLater(track, 1)
  {
  }

  lemma TypedName(ctrl: Controller, k: Socket, inviter: Name)
    requires TypedConn(ctrl, k)
    ensures TypedConn(NameInviter(ctrl, inviter), k)
  {
  }

  /** A message that is no response and no user message passes by. */
  lemma PassBy(down: seq<Body>, n: nat, up: seq<Body>, ports: map<Name, Port>, tracked: set<Name>, written: Tally,
               read: Tally)
    requires n < |down| && Tallies(up, down[..n], ports, tracked, written, read) && !down[n].UserMessage?
    ensures Tallies(up, down[..n + 1], ports, tracked, written, read)
  {
    hide UsersTo, UsersFrom;
    assert down[..n + 1] == down[..n] + [down[n]];
    forall p | p in tracked
      ensures UsersTo(down[..n + 1], p) == UsersTo(down[..n], p)
    {
      UsersAppend(down[..n], down[n], p);
    }
  }

  lemma HearAcceptInvitee(v: View, c: Conn)
    requires ConnInv(v, c) && c.io.Resting? && c.takenDown == 0 < |Incoming(v)|
    requires WellFormedController(c.ctrl) && v.k in c.ctrl.remote
    ensures var r := HearAtInvitee(c, v.k, Incoming(v)); r.Done? && ConnInv(v, r.value)
  {
    hide InviteePorts, Tallies, InviteeSide, InviterSide, Splices, UsersUp, UsersDown, Callers;
    hide TypedConn, SettledLater, WellFormedController, InState, AnsweredIn, Requests;
    var down := Incoming(v);
    FirstHeard(v, c.stage, NameOf(c), c.takenUp);
    HeardSide(v, c.ctrl, c.io, c.takenUp, TempOf(c));
    TypedName(c.ctrl, v.k, v.a);
    HeardNames(c.track);
    PassBy(down, 0, Sent(c.ctrl, v.k), c.ctrl.node.ports, c.track.Keys, c.written, c.read);
    assert down[0..] == down && AnswerIn(down[0]) == multiset{};
  }

  lemma NextAnswer(pending: seq<Merge>, draining: seq<Merge>, up: seq<Body>, down: seq<Body>, n: nat,
                   track: map<Name, Track>)
    requires n < |down| && RequestPlaces(pending, draining, up, down[n..], track)
    ensures Answers(down[n..]) == AnswerIn(down[n]) + Answers(down[n + 1..])
    ensures !down[n].ResponsePortMerge? ==> RequestPlaces(pending, draining, up, down[n + 1..], track)
    ensures down[n].ResponsePortMerge? ==>
              down[n].connector in track && track[down[n].connector].state.Answered?
              && track[down[n].connector].state.local == down[n].port
  {
    assert down[n..][1..] == down[n + 1..];
    if down[n].ResponsePortMerge? {
      var e := (down[n].connector, down[n].port);
      assert e in Answers(down[n..]);
      assert e in AnsweredIn(track);
    }
  }

  lemma SettleStates(track: map<Name, Track>, p: Name)
    requires p in track && track[p].state.Answered?
    ensures
      var t := Settle(track, p);
      && InState(t, PutOff) == InState(track, PutOff) && InState(t, Swapped) == InState(track, Swapped)
      && InState(t, Asked) == InState(track, Asked)
  {
    var t := Settle(track, p);
    SameInState(track, t, PutOff);
    SameInState(track, t, Swapped);
    SameInState(track, t, Asked);
  }

  lemma SettlePlaces(pending: seq<Merge>, draining: seq<Merge>, up: seq<Body>, down: seq<Body>, n: nat,
                     track: map<Name, Track>, p: Name)
    requires n < |down| && RequestPlaces(pending, draining, up, down[n..], track)
    requires p in track && track[p].state.Answered? && down[n] == ResponsePortMerge(p, track[p].state.local)
    ensures RequestPlaces(pending, draining, up, down[n + 1..], Settle(track, p))
  {
    NextAnswer(pending, draining, up, down, n, track);
    SettleStates(track, p);
    SettleAnswered(track, p);
    hide Requests, Answers, AnswerIn, InState, AnsweredIn, Settle;
    var e := (p, track[p].state.local);
    AnswerOf(down[n], e);
    RemoveOne(AnsweredIn(track), e);
    Cancel(e, Answers(down[n + 1..]), multiset(AnsweredIn(track)));
  }

  lemma AnswerOf(m: Body, e: (Name, Name))
    requires m == ResponsePortMerge(e.0, e.1)
    ensures AnswerIn(m) == multiset{e}
  {
  }

  lemma RemoveOne<T>(all: set<T>, e: T)
    requires e in all
    ensures multiset(all - {e}) == multiset(all) - multiset{e}
  {
  }

  lemma Cancel<T>(e: T, x: multiset<T>, y: multiset<T>)
    requires multiset{e} + x == y
    ensures x == y - multiset{e}
  {
  }

  lemma SettleAnswered(track: map<Name, Track>, p: Name)
    requires p in track && track[p].state.Answered?
    ensures
      var e := (p, track[p].state.local);
      AnsweredIn(Settle(track, p)) == AnsweredIn(track) - {e} && e in AnsweredIn(track)
  {
    var t, e := Settle(track, p), (p, track[p].state.local);
    AnsweredMember(track, e);
    forall x
      ensures x in AnsweredIn(t) <==> x in AnsweredIn(track) - {e}
    {
      AnsweredMember(track, x);
      AnsweredMember(t, x);
    }
  }

  lemma AnsweredMember(track: map<Name, Track>, x: (Name, Name))
    ensures x in AnsweredIn(track)
       <==> x.0 in track && track[x.0].state.Answered? && track[x.0].state.local == x.1
  {
    assert x == (x.0, x.1);
  }

  lemma SettlePorts(n: Node, n': Node, a: Name, track: map<Name, Track>, p: Name)
    requires InviteePorts(n, a, track) && p in track && track[p].state.Answered?
    requires Sound(n') && n'.name == n.name && n'.live == n.live - {track[p].mate}
    requires HasPeer(n', p, a, track[p].state.local)
    requires n'.ports == n.ports[p := n'.ports[p]]
    ensures InviteePorts(n', a, Settle(track, p))
  {
    hide Sound;
    TrackedInTable(n, a, track);
    var t := Settle(track, p);
    SettleApart(track, p);
    PortsFact(n, a, track, p);
    forall q | q in t
      ensures PairOrSpliced(n', a, q, t[q])
    {
      PortsFact(n, a, track, q);
      ApartFact(track, p, q);
      hide InviteePorts;
      assert p in n.ports;
    }
  }

  lemma ApartFact(track: map<Name, Track>, p: Name, q: Name)
    requires Apart(track) && p in track && q in track
    ensures track[p].mate != q && track[q].mate != p && (p != q ==> track[p].mate != track[q].mate)
  {
  }

  lemma SettleApart(track: map<Name, Track>, p: Name)
    requires Apart(track) && p in track
    ensures Apart(Settle(track, p))
  {
  }

  lemma SettleRest(v: View, b: Name, track: map<Name, Track>, p: Name, up: seq<Body>, down: seq<Body>, takenDown: nat,
                   callers: map<Name, Caller>, lock: Option<Name>, canFind: bool, hasSwapped: bool)
    requires p in track && track[p].state.Answered? && takenDown > 0
    requires Splices(v, b, track) && UsersUp(up, track) && UsersDown(down, track) && SettledLater(track, takenDown)
    requires Callers(v, callers, lock, track, canFind, hasSwapped)
    ensures
      var t := Settle(track, p);
      && Splices(v, b, t) && UsersUp(up, t) && UsersDown(down, t) && SettledLater(t, takenDown + 1)
      && t.Keys == track.Keys
    ensures Callers(v, callers, lock, Settle(track, p), canFind, hasSwapped)
  {
    SettleSplices(v, b, track, p);
    hide Splices;
    SettleCallers(v, track, p, callers, lock, canFind, hasSwapped);
    hide Callers;
  }

  lemma SettleSplices(v: View, b: Name, track: map<Name, Track>, p: Name)
    requires p in track && track[p].state.Answered? && Splices(v, b, track)
    ensures Splices(v, b, Settle(track, p))
  {
  }

  lemma SettleCallers(v: View, track: map<Name, Track>, p: Name,
                      callers: map<Name, Caller>, lock: Option<Name>, canFind: bool, hasSwapped: bool)
    requires p in track && track[p].state.Answered? && Callers(v, callers, lock, track, canFind, hasSwapped)
    ensures Callers(v, callers, lock, Settle(track, p), canFind, hasSwapped)
  {
  }

  lemma BridgeLocal(v: View, b: Name, track: map<Name, Track>, p: Name)
    requires Splices(v, b, track) && p in track && HasBridge(track[p].state)
    ensures track[p].state.local != NONE
  {
  }

  lemma TalliesPorts(up: seq<Body>, heard: seq<Body>, ports: map<Name, Port>, ports': map<Name, Port>,
                     tracked: set<Name>, written: Tally, read: Tally)
    requires Tallies(up, heard, ports, tracked, written, read)
    requires forall p :: p in ports ==> p in ports' && ports'[p].queue == ports[p].queue
    ensures Tallies(up, heard, ports', tracked, written, read)
  {
    hide UsersTo, UsersFrom;
  }

  /** A response splices the pair of the port it is for. */
  lemma HearResponse(v: View, c: Conn)
    requires ConnInv(v, c) && c.io.Resting? && 0 < c.takenDown < |Incoming(v)|
    requires WellFormedController(c.ctrl) && v.k in c.ctrl.remote
    requires Incoming(v)[c.takenDown].ResponsePortMerge?
    ensures var r := HearAtInvitee(c, v.k, Incoming(v)); r.Done? && ConnInv(v, r.value)
  {
    hide InviteePorts, Tallies, InviteeSide, InviterSide, Splices, UsersUp, UsersDown, Callers, RequestPlaces;
    hide TypedConn, SettledLater, WellFormedController, Sound, Settle, PortTable.MergePortsResponse;
    var down, up, p := Incoming(v), Sent(c.ctrl, v.k), Incoming(v)[c.takenDown].connector;
    var n, canFind := c.ctrl.node, CanFind(c.io, c.takenDown);
    NextAnswer(c.ctrl.pendingMerges, Draining(c.io), up[c.takenUp..], down, c.takenDown, c.track);
    NotFirst(v, c.ctrl, c.io, c.takenDown, c.takenUp, TempOf(c));
    SidesDiffer(v, c.stage, NameOf(c), c.takenUp);
    BridgeLocal(v, NameOf(c), c.track, p);
    PortsFact(n, v.a, c.track, p);
    InvSound(n, v.a, c.track);
    ResponseSplicesPair(n, p, c.track[p].mate, v.a, c.track[p].state.local);
    var r := MergePortsResponse(n, p, v.a, c.track[p].state.local);
    var n' := r.value.1;
    SoundIsWellFormed(n');
    TypedNode(c.ctrl, v.k, n');
    SettlePorts(n, n', v.a, c.track, p);
    SettlePlaces(c.ctrl.pendingMerges, Draining(c.io), up[c.takenUp..], down, c.takenDown, c.track, p);
    SettleRest(v, NameOf(c), c.track, p, up, down, c.takenDown, c.callers, c.lock, canFind, HasSwapped(c.io, c.takenDown));
    PassBy(down, c.takenDown, up, n.ports, c.track.Keys, c.written, c.read);
    TalliesPorts(up, down[..c.takenDown + 1], n.ports, n'.ports, c.track.Keys, c.written, c.read);
  }

  lemma UserHeard(down: seq<Body>, track: map<Name, Track>, i: nat)
    requires UsersDown(down, track) && i < |down| && down[i].UserMessage?
    ensures down[i].to in track
  {
    assert down[i] in down;
  }

  lemma HeardTallies(up: seq<Body>, down: seq<Body>, n: nat, ports: map<Name, Port>, ports': map<Name, Port>,
                     tracked: set<Name>, written: Tally, read: Tally)
    requires n < |down| && down[n].UserMessage? && down[n].to in ports
    requires Tallies(up, down[..n], ports, tracked, written, read)
    requires ports'.Keys == ports.Keys && forall q :: q in ports && q != down[n].to ==> ports'[q] == ports[q]
    requires ports'[down[n].to].queue == ports[down[n].to].queue + [down[n]]
    ensures Tallies(up, down[..n + 1], ports', tracked, written, read)
  {
    hide UsersTo, UsersFrom, Count;
    assert down[..n + 1] == down[..n] + [down[n]];
    forall p
      ensures UsersTo(down[..n + 1], p) == UsersTo(down[..n], p) + UserIfTo(down[n], p)
    {
      UsersAppend(down[..n], down[n], p);
    }
  }

  /** The port a user message is for is in the table. */
  lemma HearUser(v: View, c: Conn)
    requires ConnInv(v, c) && c.io.Resting? && 0 < c.takenDown < |Incoming(v)|
    requires WellFormedController(c.ctrl) && v.k in c.ctrl.remote
    requires Incoming(v)[c.takenDown].UserMessage?
    ensures Incoming(v)[c.takenDown].to in c.ctrl.node.live
    ensures var r := HearAtInvitee(c, v.k, Incoming(v)); r.Done? && ConnInv(v, r.value)
  {
    hide InviteePorts, Tallies, InviteeSide, InviterSide, Splices, UsersUp, UsersDown, Callers, RequestPlaces;
    hide TypedConn, SettledLater, WellFormedController, Sound, PortTable.Accept, SameBut;
    var down, up, m := Incoming(v), Sent(c.ctrl, v.k), Incoming(v)[c.takenDown];
    var n := c.ctrl.node;
    NextAnswer(c.ctrl.pendingMerges, Draining(c.io), up[c.takenUp..], down, c.takenDown, c.track);
    NotFirst(v, c.ctrl, c.io, c.takenDown, c.takenUp, TempOf(c));
    UserHeard(down, c.track, c.takenDown);
    PortsFact(n, v.a, c.track, m.to);
    InvSound(n, v.a, c.track);
    AcceptExactly(n, m.to, m);
    var n' := Accept(n, m.to, m).value;
    QueuesOnly(n, n', v.a, c.track);
    SameButFacts(n, n');
    TypedNode(c.ctrl, v.k, n');
    SoundIsWellFormed(n);
    HeardTallies(up, down, c.takenDown, n.ports, n'.ports, c.track.Keys, c.written, c.read);
    LaterStill(c.track, c.takenDown);
  }

  lemma LaterStill(track: map<Name, Track>, takenDown: nat)
    requires SettledLater(track, takenDown)
    ensures SettledLater(track, takenDown + 1)
  {
  }

  lemma HearKeeps(v: View, c: Conn)
    requires ConnInv(v, c) && c.io.Resting? && c.takenDown < |Incoming(v)|
    requires WellFormedController(c.ctrl) && v.k in c.ctrl.remote
    ensures var r := HearAtInvitee(c, v.k, Incoming(v)); r.Done? && ConnInv(v, r.value)
  {
    hide InviteePorts, Tallies, InviteeSide, InviterSide, Splices, UsersUp, UsersDown, Callers, RequestPlaces;
    hide TypedConn, SettledLater, WellFormedController, HearAtInvitee;
    if c.takenDown == 0 {
      HearAcceptInvitee(v, c);
    } else {
      FirstHeard(v, c.stage, NameOf(c), c.takenUp);
      if Incoming(v)[c.takenDown].ResponsePortMerge? {
        HearResponse(v, c);
      } else {
        HearUser(v, c);
      }
    }
  }
}
