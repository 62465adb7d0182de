// The steps of an invitee keep what holds of its connection.

module HandshakeInvitee {
  import opened Bytes
  import opened Names
  import opened Bodies
  import opened PortTable
  import opened Controllers
  import opened Handshake
  import opened HandshakeInvariant

  lemma {:induction false} NoUsers(bodies: seq<Body>, p: Name)
    ensures (forall m :: m in bodies && m.UserMessage? ==> m.to != p) ==> UsersTo(bodies, p) == multiset{}
    ensures (forall m :: m in bodies && m.UserMessage? ==> m.from != p) ==> UsersFrom(bodies, p) == multiset{}
  {
    if bodies != [] {
      NoUsers(bodies[..|bodies| - 1], p);
    }
  }

  // ------------------------------------------------------------------ marks

  lemma MarkMoves(track: map<Name, Track>, p: Name, state: MergeState)
    requires p in track && track[p].state != state
    ensures
      var m := Merge(track[p].pipe, p);
      var t := Mark(track, p, state);
      && t.Keys == track.Keys
      && InState(t, state) == InState(track, state) + {m} && m !in InState(track, state)
      && InState(t, track[p].state) == InState(track, track[p].state) - {m} && m in InState(track, track[p].state)
      && (forall st :: st != state && st != track[p].state ==> InState(t, st) == InState(track, st))
  {
    var t := Mark(track, p, state);
    forall st, m
      ensures m in InState(t, st) <==> m.port in t && m == Merge(t[m.port].pipe, m.port) && t[m.port].state == st
      ensures m in InState(track, st)
         <==> m.port in track && m == Merge(track[m.port].pipe, m.port) && track[m.port].state == st
    {
    }
  }

  lemma MarkKeepsAnswered(track: map<Name, Track>, p: Name, state: MergeState)
    requires p in track && !track[p].state.Answered? && !state.Answered?
    ensures AnsweredIn(Mark(track, p, state)) == AnsweredIn(track)
  {
    SameAnswered(track, Mark(track, p, state));
  }

  predicate SameAt(t: map<Name, Track>, u: map<Name, Track>, p: Name) {
    (p in t <==> p in u) && (p in t ==> t[p] == u[p])
  }

  lemma SameAnswered(t: map<Name, Track>, u: map<Name, Track>)
    requires forall p :: SameAt(t, u, p) || ((p in t ==> !t[p].state.Answered?) && (p in u ==> !u[p].state.Answered?))
    ensures AnsweredIn(t) == AnsweredIn(u)
  {
    forall e
      ensures e in AnsweredIn(t) <==> e in AnsweredIn(u)
    {
      assert SameAt(t, u, e.0) || ((e.0 in t ==> !t[e.0].state.Answered?) && (e.0 in u ==> !u[e.0].state.Answered?));
      assert e == (e.0, e.1);
    }
  }

  lemma SameInState(t: map<Name, Track>, u: map<Name, Track>, st: MergeState)
    requires forall p :: SameAt(t, u, p) || ((p in t ==> t[p].state != st) && (p in u ==> u[p].state != st))
    ensures InState(t, st) == InState(u, st)
  {
    forall m
      ensures m in InState(t, st) <==> m in InState(u, st)
    {
      assert SameAt(t, u, m.port) || ((m.port in t ==> t[m.port].state != st) && (m.port in u ==> u[m.port].state != st));
    }
  }

  // ------------------------------------------------------------------ extracting

  /** Making a pair of new names adds it, and leaves the other ports as they are. */
  lemma PairAdded(n: Node, l: Name, r: Name)
    requires Sound(n) && FreshPorts(n, l, r)
    ensures
      var n' := CreatePair(n, l, r).1;
      && Sound(n') && WellFormed(n') && n'.name == n.name && n'.live == n.live + {l, r}
      && n'.ports.Keys == n.ports.Keys + {l, r} && n'.ports[l].queue == [] && LocalPair(n', l, r)
      && (forall q :: q in n.ports ==> n'.ports[q] == n.ports[q])
      && (forall x, y :: LocalPair(n, x, y) ==> LocalPair(n', x, y))
      && (forall x, node, port :: HasPeer(n, x, node, port) ==> HasPeer(n', x, node, port))
  {
    SoundIsWellFormed(n);
    CreatePairMakes(n, l, r);
    CreatePairIsSound(n, l, r);
    SoundIsWellFormed(CreatePair(n, l, r).1);
    hide CreatePair, Sound;
  }

  lemma ExtractPorts(n: Node, a: Name, track: map<Name, Track>, p0: Name, p1: Name, pipe: Text)
    requires InviteePorts(n, a, track) && FreshPorts(n, p0, p1)
    ensures p0 !in track
    ensures
      var n' := CreatePair(n, p0, p1).1;
      && InviteePorts(n', a, track[p0 := Track(pipe, p1, Calling)])
      && n'.name == n.name && n.ports.Keys <= n'.ports.Keys && WellFormed(n')
      && (forall p :: p in n.ports ==> n'.ports[p] == n.ports[p])
      && p0 in n'.ports && n'.ports[p0].queue == []
  {
    TrackedInTable(n, a, track);
    PairAdded(n, p0, p1);
    StillApart(track, p0, p1, pipe);
    hide CreatePair, Sound, Apart, LocalPair, HasPeer;
    var n', track' := CreatePair(n, p0, p1).1, track[p0 := Track(pipe, p1, Calling)];
    forall p | p in track'
      ensures PairOrSpliced(n', a, p, track'[p])
    {
      if p != p0 {
        PortsFact(n, a, track, p);
      }
    }
  }

  lemma StillApart(track: map<Name, Track>, p0: Name, p1: Name, pipe: Text)
    requires Apart(track) && p0 !in track && p1 !in track && p0 != p1
    requires forall p :: p in track ==> track[p].mate != p0 && track[p].mate != p1
    ensures Apart(track[p0 := Track(pipe, p1, Calling)])
  {
  }

  lemma PortsFact(n: Node, a: Name, track: map<Name, Track>, p: Name)
    requires InviteePorts(n, a, track) && p in track
    ensures PairOrSpliced(n, a, p, track[p])
  {
  }

  lemma SoundIsWellFormed(n: Node)
    requires Sound(n)
    ensures WellFormed(n)
  {
  }

  lemma TrackedInTable(n: Node, a: Name, track: map<Name, Track>)
    requires InviteePorts(n, a, track)
    ensures forall p :: p in track ==> p in n.live && p in n.ports && track[p].mate in n.ports
  {
    forall p | p in track
      ensures p in n.live && p in n.ports && track[p].mate in n.ports
    {
      assert PairOrSpliced(n, a, p, track[p]);
    }
  }

  lemma ExtractPlaces(track: map<Name, Track>, p0: Name, t: Track)
    requires p0 !in track && t.state.Calling?
    ensures
      var track' := track[p0 := t];
      && AnsweredIn(track') == AnsweredIn(track)
      && InState(track', PutOff) == InState(track, PutOff)
      && InState(track', Swapped) == InState(track, Swapped)
      && InState(track', Asked) == InState(track, Asked)
  {
    var track' := track[p0 := t];
    SameAnswered(track, track');
    SameInState(track, track', PutOff);
    SameInState(track, track', Swapped);
    SameInState(track, track', Asked);
  }

  lemma ExtractTallies(up: seq<Body>, down: seq<Body>, n: nat, ports: map<Name, Port>, ports': map<Name, Port>,
                       track: map<Name, Track>, written: Tally, read: Tally, p0: Name)
    requires n <= |down| && UsersUp(up, track) && UsersDown(down, track)
    requires Tallies(up, down[..n], ports, track.Keys, written, read)
    requires p0 !in track && p0 in ports' && ports'[p0].queue == []
    requires forall p :: p in ports ==> p in ports' && ports'[p] == ports[p]
    ensures Tallies(up, down[..n], ports', track.Keys + {p0}, written, read)
  {
    hide UsersTo, UsersFrom;
    NoUsers(up, p0);
    NoUsers(down[..n], p0);
  }

  lemma ExtractCallers(v: View, callers: map<Name, Caller>, lock: Option<Name>, track: map<Name, Track>,
                       canFind: bool, hasSwapped: bool, p0: Name, p1: Name, pipe: Text)
    requires Callers(v, callers, lock, track, canFind, hasSwapped) && p0 !in track
    ensures Callers(v, callers[p0 := Starting(pipe)], lock, track[p0 := Track(pipe, p1, Calling)],
                    canFind, hasSwapped)
  {
  }

  lemma ExtractSplices(v: View, b: Name, up: seq<Body>, down: seq<Body>, track: map<Name, Track>, p0: Name, t: Track)
    requires Splices(v, b, track) && UsersUp(up, track) && UsersDown(down, track)
    requires p0 !in track && t.state.Calling?
    ensures Splices(v, b, track[p0 := t]) && UsersUp(up, track[p0 := t]) && UsersDown(down, track[p0 := t])
    ensures forall n: nat :: SettledLater(track, n) ==> SettledLater(track[p0 := t], n)
  {
  }

  lemma ExtractTyped(c: Conn, k: Socket, pipe: Text, p0: Name, p1: Name)
    requires TypedConn(c.ctrl, k) && FreshPorts(c.ctrl.node, p0, p1)
    requires WellFormed(CreatePair(c.ctrl.node, p0, p1).1)
    requires c.ctrl.node.ports.Keys <= CreatePair(c.ctrl.node, p0, p1).1.ports.Keys
    ensures TypedConn(ExtractPipe(c, pipe, p0, p1).ctrl, k)
  {
    hide CreatePair, WellFormed;
  }

  lemma ExtractKeeps(v: View, c: Conn, pipe: Text, p0: Name, p1: Name)
    requires ConnInv(v, c) && FreshPorts(c.ctrl.node, p0, p1)
    ensures ConnInv(v, ExtractPipe(c, pipe, p0, p1))
  {
    hide CreatePair, InviteePorts, Tallies, InviteeSide, InviterSide, InState, AnsweredIn, Requests, Answers;
    hide Callers, Splices, UsersUp, UsersDown, TypedConn;
    var c' := ExtractPipe(c, pipe, p0, p1);
    var up, down := Sent(c.ctrl, v.k), Incoming(v);
    ExtractPorts(c.ctrl.node, v.a, c.track, p0, p1, pipe);
    ExtractTyped(c, v.k, pipe, p0, p1);
    ExtractPlaces(c.track, p0, Track(pipe, p1, Calling));
    ExtractTallies(up, down, c.takenDown, c.ctrl.node.ports, c'.ctrl.node.ports, c.track, c.written, c.read, p0);
    ExtractCallers(v, c.callers, c.lock, c.track, CanFind(c.io, c.takenDown), HasSwapped(c.io, c.takenDown), p0, p1, pipe);
    ExtractSplices(v, NameOf(c), up, down, c.track, p0, Track(pipe, p1, Calling));
    assert c'.track.Keys == c.track.Keys + {p0};
  }

  // ------------------------------------------------------------------ merging into the inviter

  lemma LockKeeps(v: View, c: Conn, p: Name)
    requires ConnInv(v, c) && c.lock.None? && p in c.callers && c.callers[p].Starting?
    ensures ConnInv(v, LockPending(c, p))
  {
    hide InviteePorts, Tallies, InviteeSide, InviterSide, RequestPlaces, Splices, UsersUp, UsersDown;
  }

  lemma NamedInviter(v: View, ctrl: Controller, io: InviteeIo, takenDown: nat, takenUp: nat, temp: Name)
    requires InviteeSide(v, Bare(ctrl), io, takenDown, takenUp, temp)
    ensures ctrl.inviterName == if takenDown > 0 then v.a else NONE
    ensures ctrl.peers == if CanFind(io, takenDown) then map[v.a := v.k] else map[]
    ensures ctrl.out.Keys == {v.k} == ctrl.remote.Keys
    ensures HasSwapped(io, takenDown) ==> takenDown > 0
  {
  }

  lemma ReadNameKeeps(v: View, c: Conn, p: Name)
    requires ConnInv(v, c) && p in c.callers && c.callers[p].Locking?
    ensures ConnInv(v, ReadInviterName(c, p))
  {
    hide InviteePorts, Tallies, InviteeSide, InviterSide, RequestPlaces, Splices, UsersUp, UsersDown;
    NamedInviter(v, c.ctrl, c.io, c.takenDown, c.takenUp, TempOf(c));
  }

  predicate Plain(st: MergeState) {
    !HasBridge(st)
  }

  /** A port that is not merged yet moves on: nothing else of it changes. */
  lemma MarkPlain(v: View, n: Node, track: map<Name, Track>, p: Name, st: MergeState, up: seq<Body>, down: seq<Body>,
                  takenDown: nat)
    requires p in track && Plain(track[p].state) && Plain(st)
    requires Splices(v, n.name, track) && UsersUp(up, track) && UsersDown(down, track) && InviteePorts(n, v.a, track)
    requires SettledLater(track, takenDown)
    ensures SettledLater(Mark(track, p, st), takenDown)
    ensures Splices(v, n.name, Mark(track, p, st))
    ensures UsersUp(up, Mark(track, p, st)) && UsersDown(down, Mark(track, p, st))
    ensures InviteePorts(n, v.a, Mark(track, p, st))
    ensures Mark(track, p, st).Keys == track.Keys
  {
    hide Splices, InviteePorts, UsersUp, UsersDown;
    MarkPlainSplices(v, n.name, track, p, st);
    MarkPlainPorts(n, v.a, track, p, st);
    MarkPlainUsers(up, down, track, p, st);
  }

  lemma MarkPlainUsers(up: seq<Body>, down: seq<Body>, track: map<Name, Track>, p: Name, st: MergeState)
    requires p in track && Plain(track[p].state) && Plain(st) && UsersUp(up, track) && UsersDown(down, track)
    ensures UsersUp(up, Mark(track, p, st)) && UsersDown(down, Mark(track, p, st))
  {
  }

  lemma MarkPlainSplices(v: View, b: Name, track: map<Name, Track>, p: Name, st: MergeState)
    requires p in track && Plain(track[p].state) && Plain(st) && Splices(v, b, track)
    ensures Splices(v, b, Mark(track, p, st))
  {
  }

  lemma MarkPlainPorts(n: Node, a: Name, track: map<Name, Track>, p: Name, st: MergeState)
    requires p in track && Plain(track[p].state) && Plain(st) && InviteePorts(n, a, track)
    ensures InviteePorts(n, a, Mark(track, p, st))
  {
    hide Sound, LocalPair, HasPeer;
  }

  lemma CallerDone(v: View, callers: map<Name, Caller>, lock: Option<Name>, track: map<Name, Track>, p: Name,
                   st: MergeState, canFind: bool, hasSwapped: bool)
    requires Callers(v, callers, lock, track, canFind, hasSwapped) && p in callers && !st.Calling?
    ensures Callers(v, callers - {p}, if lock == Some(p) then None else lock, Mark(track, p, st), canFind, hasSwapped)
  {
  }

  lemma PutOffPlaces(pending: seq<Merge>, draining: seq<Merge>, up: seq<Body>, down: seq<Body>,
                     track: map<Name, Track>, p: Name)
    requires RequestPlaces(pending, draining, up, down, track) && p in track && track[p].state.Calling?
    ensures RequestPlaces(pending + [Merge(track[p].pipe, p)], draining, up, down, Mark(track, p, PutOff))
  {
    hide InState, AnsweredIn, Requests, Answers, Mark;
    MarkMoves(track, p, PutOff);
    MarkKeepsAnswered(track, p, PutOff);
  }

  lemma PendingSide(v: View, ctrl: Controller, io: InviteeIo, takenDown: nat, takenUp: nat, temp: Name,
                    pending: seq<Merge>)
    requires InviteeSide(v, Bare(ctrl), io, takenDown, takenUp, temp) && !HasSwapped(io, takenDown)
    ensures InviteeSide(v, Bare(ctrl.(pendingMerges := pending)), io, takenDown, takenUp, temp)
  {
  }

  lemma TypedPending(ctrl: Controller, k: Socket, m: Merge)
    requires TypedConn(ctrl, k) && m.port in ctrl.node.ports
    ensures TypedConn(ctrl.(pendingMerges := ctrl.pendingMerges + [m]), k)
  {
  }

  lemma CallerFacts(v: View, callers: map<Name, Caller>, lock: Option<Name>, track: map<Name, Track>, p: Name,
                    canFind: bool, hasSwapped: bool)
    requires Callers(v, callers, lock, track, canFind, hasSwapped) && p in callers
    ensures p in track && track[p].state.Calling? && track[p].pipe == callers[p].pipe
    ensures callers[p].Named? ==> lock == Some(p)
    ensures callers[p].Named? ==> callers[p].inviter == v.a || (callers[p].inviter == NONE && !hasSwapped)
    ensures callers[p].Sending? ==> callers[p].socket == v.k && canFind && lock != Some(p)
  {
  }

  lemma FoundCallers(v: View, callers: map<Name, Caller>, lock: Option<Name>, track: map<Name, Track>, p: Name,
                     canFind: bool, hasSwapped: bool)
    requires Callers(v, callers, lock, track, canFind, hasSwapped) && p in callers && callers[p].Named? && canFind
    ensures Callers(v, callers[p := Sending(callers[p].pipe, v.k)], None, track, canFind, hasSwapped)
  {
  }

  lemma PutOffKeeps(v: View, c: Conn, p: Name)
    requires ConnInv(v, c) && p in c.callers && c.callers[p].Named? && !HasSwapped(c.io, c.takenDown)
    requires GetPeerChannel(c.ctrl, c.callers[p].inviter).None?
    ensures ConnInv(v, FindInviter(c, p))
  {
    hide InviteePorts, Tallies, InviteeSide, InviterSide, RequestPlaces, Splices, UsersUp, UsersDown, Callers;
    hide Mark, TypedConn, SettledLater;
    var canFind, hasSwapped := CanFind(c.io, c.takenDown), HasSwapped(c.io, c.takenDown);
    CallerFacts(v, c.callers, c.lock, c.track, p, canFind, hasSwapped);
    var m := Merge(c.callers[p].pipe, p);
    TrackedInTable(c.ctrl.node, v.a, c.track);
    TypedPending(c.ctrl, v.k, m);
    PendingSide(v, c.ctrl, c.io, c.takenDown, c.takenUp, TempOf(c), c.ctrl.pendingMerges + [m]);
    CallerDone(v, c.callers, c.lock, c.track, p, PutOff, canFind, hasSwapped);
    MarkPlain(v, c.ctrl.node, c.track, p, PutOff, Sent(c.ctrl, v.k), Incoming(v), c.takenDown);
    PutOffPlaces(c.ctrl.pendingMerges, Draining(c.io), Sent(c.ctrl, v.k)[c.takenUp..],
                 Incoming(v)[c.takenDown..], c.track, p);
  }

  /** The lookup either finds the inviter's channel or puts the request off; the latter does not happen
      any more once the requests put off have been taken over. */
  lemma FindKeeps(v: View, c: Conn, p: Name)
    requires ConnInv(v, c) && p in c.callers && c.callers[p].Named?
    ensures ConnInv(v, FindInviter(c, p))
    ensures HasSwapped(c.io, c.takenDown) ==> FindInviter(c, p).ctrl.pendingMerges == []
  {
    hide InviteePorts, Tallies, InviteeSide, InviterSide, RequestPlaces, Splices, UsersUp, UsersDown, Callers;
    hide Mark, TypedConn, SettledLater;
    var canFind, hasSwapped := CanFind(c.io, c.takenDown), HasSwapped(c.io, c.takenDown);
    NamedInviter(v, c.ctrl, c.io, c.takenDown, c.takenUp, TempOf(c));
    SwappedIsEmpty(v, c.ctrl, c.io, c.takenDown, c.takenUp, TempOf(c));
    SidesDiffer(v, c.stage, NameOf(c), c.takenUp);
    CallerFacts(v, c.callers, c.lock, c.track, p, canFind, hasSwapped);
    if GetPeerChannel(c.ctrl, c.callers[p].inviter).None? {
      PutOffKeeps(v, c, p);
    } else {
      FoundCallers(v, c.callers, c.lock, c.track, p, canFind, hasSwapped);
    }
  }

  lemma SwappedIsEmpty(v: View, ctrl: Controller, io: InviteeIo, takenDown: nat, takenUp: nat, temp: Name)
    requires InviteeSide(v, Bare(ctrl), io, takenDown, takenUp, temp)
    ensures HasSwapped(io, takenDown) ==> ctrl.pendingMerges == [] && CanFind(io, takenDown)
  {
  }

  lemma SidesDiffer(v: View, stage: Stage, b: Name, takenUp: nat)
    requires InviterSide(v, stage, b, takenUp)
    ensures v.a != NONE && b != NONE && v.a != b
  {
  }

  // ------------------------------------------------------------------ sending requests

  lemma SendSide(v: View, ctrl: Controller, io: InviteeIo, takenDown: nat, takenUp: nat, temp: Name, m: Body)
    requires InviteeSide(v, Bare(ctrl), io, takenDown, takenUp, temp) && v.k in ctrl.out
    requires CanFind(io, takenDown) && GoesUp(m)
    ensures InviteeSide(v, Bare(Send(ctrl, v.k, m)), io, takenDown, takenUp, temp)
    ensures Sent(Send(ctrl, v.k, m), v.k) == Sent(ctrl, v.k) + [m]
    ensures takenUp <= |Sent(ctrl, v.k)|
    ensures Sent(Send(ctrl, v.k, m), v.k)[takenUp..] == Sent(ctrl, v.k)[takenUp..] + [m]
  {
    var ctrl' := Send(ctrl, v.k, m);
    assert Sent(ctrl', v.k) == Sent(ctrl, v.k) + [m];
    assert ctrl'.out.Keys == ctrl.out.Keys;
  }

  lemma AskedPlaces(pending: seq<Merge>, draining: seq<Merge>, up: seq<Body>, down: seq<Body>,
                    track: map<Name, Track>, p: Name)
    requires RequestPlaces(pending, draining, up, down, track) && p in track
    requires track[p].state.Calling?
    ensures
      RequestPlaces(pending, draining, up + [RequestBody(Merge(track[p].pipe, p))], down, Mark(track, p, Asked))
  {
    var m := Merge(track[p].pipe, p);
    RequestsAppend(up, RequestBody(m));
    assert RequestIn(RequestBody(m)) == multiset{m};
    hide InState, AnsweredIn, Requests, Answers, Mark;
    MarkMoves(track, p, Asked);
    MarkKeepsAnswered(track, p, Asked);
  }

  lemma RequestUsers(up: seq<Body>, m: Body, track: map<Name, Track>)
    requires UsersUp(up, track) && !m.UserMessage?
    ensures UsersUp(up + [m], track)
  {
  }

  lemma RequestTallies(up: seq<Body>, m: Body, heard: seq<Body>, ports: map<Name, Port>, tracked: set<Name>,
                       written: Tally, read: Tally)
    requires Tallies(up, heard, ports, tracked, written, read) && !m.UserMessage?
    ensures Tallies(up + [m], heard, ports, tracked, written, read)
  {
    hide UsersTo, UsersFrom;
    forall p | p in tracked
      ensures UsersFrom(up + [m], p) == UsersFrom(up, p)
    {
      UsersAppend(up, m, p);
    }
  }

  lemma RequestKeeps(v: View, c: Conn, p: Name)
    requires ConnInv(v, c) && p in c.callers && c.callers[p].Sending? && c.callers[p].socket in c.ctrl.out
    ensures ConnInv(v, SendRequest(c, p))
  {
    hide InviteePorts, Tallies, InviteeSide, InviterSide, RequestPlaces, Splices, UsersUp, UsersDown, Callers;
    hide Mark, TypedConn, Send, Sent;
    var canFind, hasSwapped := CanFind(c.io, c.takenDown), HasSwapped(c.io, c.takenDown);
    CallerFacts(v, c.callers, c.lock, c.track, p, canFind, hasSwapped);
    var m := RequestBody(Merge(c.callers[p].pipe, p));
    SendSide(v, c.ctrl, c.io, c.takenDown, c.takenUp, TempOf(c), m);
    SendKeepsRest(c.ctrl, v.k, m);
    TypedSend(c.ctrl, v.k, m);
    CallerDone(v, c.callers, c.lock, c.track, p, Asked, canFind, hasSwapped);
    MarkPlain(v, c.ctrl.node, c.track, p, Asked, Sent(c.ctrl, v.k), Incoming(v), c.takenDown);
    RequestUsers(Sent(c.ctrl, v.k), m, Mark(c.track, p, Asked));
    RequestTallies(Sent(c.ctrl, v.k), m, Incoming(v)[..c.takenDown], c.ctrl.node.ports, c.track.Keys, c.written, c.read);
    AskedPlaces(c.ctrl.pendingMerges, Draining(c.io), Sent(c.ctrl, v.k)[c.takenUp..], Incoming(v)[c.takenDown..],
                c.track, p);
  }

  lemma SendKeepsRest(ctrl: Controller, s: Socket, m: Body)
    requires s in ctrl.out
    ensures
      var d := Send(ctrl, s, m);
      && d.node == ctrl.node && d.pendingMerges == ctrl.pendingMerges && d.out.Keys == ctrl.out.Keys
      && d.inviterChannel == ctrl.inviterChannel && d.remote == ctrl.remote
      && d.inviterName == ctrl.inviterName && d.peers == ctrl.peers && d.waiting == ctrl.waiting
      && d.reserved == ctrl.reserved && d.pendingInvitations == ctrl.pendingInvitations
  {
  }

  lemma TypedSend(ctrl: Controller, k: Socket, m: Body)
    requires TypedConn(ctrl, k)
    ensures k in ctrl.out && TypedConn(Send(ctrl, k, m), k)
  {
    hide WellFormedController;
  }

  // ------------------------------------------------------------------ answering AcceptInvitee

  lemma AnswerSide(v: View, ctrl: Controller, io: InviteeIo, takenDown: nat, takenUp: nat, temp: Name)
    requires InviteeSide(v, Bare(ctrl), io, takenDown, takenUp, temp) && io.ToAnswer? && TypedConn(ctrl, v.k)
    ensures ctrl.inviterChannel.Some? && takenUp == 0 && Sent(ctrl, v.k) == [] && io == ToAnswer(v.a, temp)
    ensures
      var d := AnswerInviter(ctrl, io.inviter, io.token);
      && InviteeSide(v, Bare(d), ToJoin(io.inviter), takenDown, takenUp, temp) && TypedConn(d, v.k)
      && Sent(d, v.k) == [AcceptInvitation(temp, ctrl.node.name)]
      && d.node == ctrl.node && d.pendingMerges == ctrl.pendingMerges
  {
    hide WellFormedController;
    var d := AnswerInviter(ctrl, io.inviter, io.token);
    assert d.out.Keys == ctrl.out.Keys && d.remote.Keys == ctrl.remote.Keys;
  }

  lemma AnswerKeeps(v: View, c: Conn)
    requires ConnInv(v, c) && c.io.ToAnswer? && c.ctrl.inviterChannel.Some? && WellFormedController(c.ctrl)
    ensures ConnInv(v, AnswerStep(c))
  {
    hide InviteePorts, Tallies, InviteeSide, InviterSide, Splices, UsersUp, UsersDown, Callers;
    hide TypedConn, SettledLater, AnswerInviter, WellFormedController, InState, AnsweredIn, Answers, Sent;
    AnswerSide(v, c.ctrl, c.io, c.takenDown, c.takenUp, TempOf(c));
    var m := AcceptInvitation(TempOf(c), NameOf(c));
    RequestUsers([], m, c.track);
    RequestTallies([], m, Incoming(v)[..c.takenDown], c.ctrl.node.ports, c.track.Keys, c.written, c.read);
    assert [] + [m] == [m] && [m][0..] == [m] && [m][1..] == [];
    assert RequestIn(m) == multiset{};
  }

  lemma JoinSide(v: View, ctrl: Controller, io: InviteeIo, takenDown: nat, takenUp: nat, temp: Name)
    requires InviteeSide(v, Bare(ctrl), io, takenDown, takenUp, temp) && io.ToJoin? && TypedConn(ctrl, v.k)
    ensures ctrl.inviterChannel == Some(v.k)
    ensures
      var r := InsertPeer(SetRemote(ctrl, v.k, io.inviter), io.inviter, v.k);
      && InviteeSide(v, Bare(r.0), ToSend(r.1), takenDown, takenUp, temp) && TypedConn(r.0, v.k)
      && Sent(r.0, v.k) == Sent(ctrl, v.k) && r.0.node == ctrl.node && r.0.pendingMerges == ctrl.pendingMerges
  {
    hide WellFormedController;
    var r := InsertPeer(SetRemote(ctrl, v.k, io.inviter), io.inviter, v.k);
    assert r.0.remote.Keys == ctrl.remote.Keys;
  }

  lemma MayFind(v: View, callers: map<Name, Caller>, lock: Option<Name>, track: map<Name, Track>)
    requires Callers(v, callers, lock, track, false, false)
    ensures Callers(v, callers, lock, track, true, false)
  {
  }

  lemma JoinKeeps(v: View, c: Conn)
    requires ConnInv(v, c) && c.io.ToJoin? && c.ctrl.inviterChannel.Some? && WellFormedController(c.ctrl)
    ensures ConnInv(v, JoinStep(c))
  {
    hide InviteePorts, Tallies, InviteeSide, InviterSide, Splices, UsersUp, UsersDown, Callers, RequestPlaces;
    hide TypedConn, SettledLater, InsertPeer, SetRemote, WellFormedController, Sent;
    JoinSide(v, c.ctrl, c.io, c.takenDown, c.takenUp, TempOf(c));
    MayFind(v, c.callers, c.lock, c.track);
  }

  lemma SendStepKeeps(v: View, c: Conn)
    requires ConnInv(v, c) && c.io.ToSend? && c.ctrl.inviterChannel.Some? && WellFormedController(c.ctrl)
    ensures ConnInv(v, SendStep(c))
  {
    hide InviteePorts, Tallies, InviterSide, Splices, UsersUp, UsersDown, Callers, RequestPlaces;
    hide TypedConn, SettledLater, WellFormedController, UpShape;
  }

  // ------------------------------------------------------------------ taking over what was put off

  lemma SwapSide(v: View, ctrl: Controller, io: InviteeIo, takenDown: nat, takenUp: nat, temp: Name)
    requires InviteeSide(v, Bare(ctrl), io, takenDown, takenUp, temp) && io.ToSwap?
    ensures InviteeSide(v, Bare(ctrl.(pendingMerges := [])), ToDrain(ctrl.pendingMerges), takenDown, takenUp, temp)
  {
  }

  /** The lock was free, so no thread holds an outdated name of the inviter. */
  lemma SwapCallers(v: View, callers: map<Name, Caller>, track: map<Name, Track>, merges: seq<Merge>)
    requires Callers(v, callers, None, track, true, false)
    requires multiset(merges) == multiset(InState(track, PutOff))
    ensures Callers(v, callers, None, MarkAll(track, merges), true, true)
  {
    MarkAllStates(track, merges);
    hide InState, MarkAll;
  }

  lemma MarkAllStates(track: map<Name, Track>, merges: seq<Merge>)
    requires multiset(merges) == multiset(InState(track, PutOff))
    ensures
      var t := MarkAll(track, merges);
      && t.Keys == track.Keys
      && forall p :: p in track ==>
           t[p] == if track[p].state.PutOff? then track[p].(state := Swapped) else track[p]
  {
    forall p | p in track
      ensures Merge(track[p].pipe, p) in merges <==> track[p].state.PutOff?
    {
      var m := Merge(track[p].pipe, p);
      assert m in merges <==> m in multiset(merges);
      assert m in InState(track, PutOff) <==> track[p].state.PutOff?;
    }
  }

  lemma NoneSwapped(track: map<Name, Track>)
    requires multiset{} == multiset(InState(track, Swapped))
    ensures forall p :: p in track ==> !track[p].state.Swapped?
  {
    forall p | p in track
      ensures !track[p].state.Swapped?
    {
      var m := Merge(track[p].pipe, p);
      assert multiset(InState(track, Swapped))[m] == 0;
      assert m in InState(track, Swapped) <==> track[p].state.Swapped?;
    }
  }

  lemma SwapPlaces(pending: seq<Merge>, up: seq<Body>, down: seq<Body>, track: map<Name, Track>)
    requires RequestPlaces(pending, [], up, down, track)
    ensures RequestPlaces([], pending, up, down, MarkAll(track, pending))
  {
    MarkAllStates(track, pending);
    hide MarkAll, Requests, Answers;
    var t := MarkAll(track, pending);
    NoneSwapped(track);
    forall m
      ensures m in InState(t, Swapped) <==> m in InState(track, PutOff)
    {
    }
    assert InState(t, Swapped) == InState(track, PutOff);
    assert InState(t, PutOff) == {};
    SameInState(track, t, Asked);
    SameAnswered(track, t);
  }

  lemma SwapRest(v: View, n: Node, track: map<Name, Track>, merges: seq<Merge>, up: seq<Body>, down: seq<Body>,
                 takenDown: nat)
    requires Splices(v, n.name, track) && UsersUp(up, track) && UsersDown(down, track)
    requires InviteePorts(n, v.a, track) && SettledLater(track, takenDown)
    requires multiset(merges) == multiset(InState(track, PutOff))
    ensures
      var t := MarkAll(track, merges);
      && Splices(v, n.name, t) && UsersUp(up, t) && UsersDown(down, t) && InviteePorts(n, v.a, t)
      && SettledLater(t, takenDown) && t.Keys == track.Keys
  {
    MarkAllStates(track, merges);
    hide MarkAll, InState, InviteePorts, Splices, UsersUp, UsersDown;
    SwapRestPorts(n, v.a, track, MarkAll(track, merges));
    SwapRestSplices(v, n.name, track, MarkAll(track, merges), up, down);
  }

  lemma SwapRestSplices(v: View, b: Name, track: map<Name, Track>, t: map<Name, Track>, up: seq<Body>, down: seq<Body>)
    requires Splices(v, b, track) && UsersUp(up, track) && UsersDown(down, track) && t.Keys == track.Keys
    requires forall p :: p in track ==>
               t[p] == if track[p].state.PutOff? then track[p].(state := Swapped) else track[p]
    ensures Splices(v, b, t) && UsersUp(up, t) && UsersDown(down, t)
  {
  }

  lemma SwapRestPorts(n: Node, a: Name, track: map<Name, Track>, t: map<Name, Track>)
    requires InviteePorts(n, a, track) && t.Keys == track.Keys
    requires forall p :: p in track ==>
               t[p] == if track[p].state.PutOff? then track[p].(state := Swapped) else track[p]
    ensures InviteePorts(n, a, t)
  {
    hide Sound, LocalPair, HasPeer;
  }

  lemma SwapKeeps(v: View, c: Conn)
    requires ConnInv(v, c) && c.io.ToSwap? && c.lock.None?
    ensures ConnInv(v, SwapStep(c))
    ensures SwapStep(c).ctrl.pendingMerges == []
  {
    hide InviteePorts, Tallies, InviteeSide, InviterSide, Splices, UsersUp, UsersDown, Callers;
    hide TypedConn, SettledLater, MarkAll, InState, AnsweredIn, Requests, Answers;
    var c' := SwapStep(c);
    SwapSide(v, c.ctrl, c.io, c.takenDown, c.takenUp, TempOf(c));
    SwapCallers(v, c.callers, c.track, c.ctrl.pendingMerges);
    SwapPlaces(c.ctrl.pendingMerges, Sent(c.ctrl, v.k)[c.takenUp..], Incoming(v)[c.takenDown..], c.track);
    SwapRest(v, c.ctrl.node, c.track, c.ctrl.pendingMerges, Sent(c.ctrl, v.k), Incoming(v), c.takenDown);
    TypedSwap(c.ctrl, v.k);
    SwapPositive(v, c.ctrl, c.io, c.takenDown, c.takenUp, TempOf(c));
  }

  lemma TypedSwap(ctrl: Controller, k: Socket)
    requires TypedConn(ctrl, k)
    ensures TypedConn(ctrl.(pendingMerges := []), k)
  {
  }

  lemma SwapPositive(v: View, ctrl: Controller, io: InviteeIo, takenDown: nat, takenUp: nat, temp: Name)
    requires InviteeSide(v, Bare(ctrl), io, takenDown, takenUp, temp) && (io.ToSwap? || io.ToDrain?)
    ensures takenDown > 0 && CanFind(io, takenDown)
    ensures io.ToDrain? ==> ctrl.inviterName == v.a && ctrl.peers == map[v.a := v.k]
  {
  }

  // ------------------------------------------------------------------ sending what was put off

  lemma InStateMember(track: map<Name, Track>, st: MergeState, m: Merge)
    ensures m in InState(track, st)
       <==> m.port in track && track[m.port].pipe == m.pipe && track[m.port].state == st
  {
  }

  lemma DrainPlaces(pending: seq<Merge>, draining: seq<Merge>, up: seq<Body>, down: seq<Body>, track: map<Name, Track>)
    requires RequestPlaces(pending, draining, up, down, track) && draining != []
    ensures
      var m := draining[0];
      && m.port in track && track[m.port] == Track(m.pipe, track[m.port].mate, Swapped)
      && RequestPlaces(pending, draining[1..], up + [RequestBody(m)], down, Mark(track, m.port, Asked))
  {
    var m := draining[0];
    FirstOf(draining, InState(track, Swapped));
    RequestsAppend(up, RequestBody(m));
    RequestIs(m);
    InStateMember(track, Swapped, m);
    hide InState, AnsweredIn, Requests, Answers, Mark, RequestIn;
    MarkMoves(track, m.port, Asked);
    MarkKeepsAnswered(track, m.port, Asked);
  }

  lemma RequestIs(m: Merge)
    ensures RequestIn(RequestBody(m)) == multiset{m}
  {
  }

  lemma FirstOf<T>(s: seq<T>, all: set<T>)
    requires multiset(s) == multiset(all) && s != []
    ensures s[0] in all && multiset(s[1..]) == multiset(all - {s[0]})
  {
    assert s == [s[0]] + s[1..];
    assert multiset(s) == multiset{s[0]} + multiset(s[1..]);
    assert s[0] in multiset(s);
    assert multiset(all - {s[0]}) == multiset(all) - multiset{s[0]};
  }

  lemma DrainSide(v: View, ctrl: Controller, io: InviteeIo, takenDown: nat, takenUp: nat, temp: Name, io': InviteeIo)
    requires InviteeSide(v, Bare(ctrl), io, takenDown, takenUp, temp) && io.ToDrain?
    requires io'.ToDrain? || (io'.Resting? && takenDown > 0)
    ensures InviteeSide(v, Bare(ctrl), io', takenDown, takenUp, temp)
  {
  }

  lemma DrainCallers(v: View, callers: map<Name, Caller>, lock: Option<Name>, track: map<Name, Track>, p: Name)
    requires Callers(v, callers, lock, track, true, true) && p in track && !track[p].state.Calling?
    ensures Callers(v, callers, lock, Mark(track, p, Asked), true, true)
  {
  }

  lemma DrainKeeps(v: View, c: Conn)
    requires ConnInv(v, c) && c.io.ToDrain? && WellFormedController(c.ctrl)
    ensures DrainStep(c).Done? && ConnInv(v, DrainStep(c).value)
  {
    hide InviteePorts, Tallies, InviteeSide, InviterSide, RequestPlaces, Splices, UsersUp, UsersDown, Callers;
    hide Mark, TypedConn, Send, Sent, SettledLater, WellFormedController;
    SwapPositive(v, c.ctrl, c.io, c.takenDown, c.takenUp, TempOf(c));
    if c.io.merges == [] {
      DrainSide(v, c.ctrl, c.io, c.takenDown, c.takenUp, TempOf(c), Resting);
    } else {
      DrainOne(v, c);
    }
  }

  lemma DrainOne(v: View, c: Conn)
    requires ConnInv(v, c) && c.io.ToDrain? && WellFormedController(c.ctrl) && c.io.merges != []
    ensures DrainStep(c).Done? && ConnInv(v, DrainStep(c).value)
  {
    hide InviteePorts, Tallies, InviteeSide, InviterSide, RequestPlaces, Splices, UsersUp, UsersDown, Callers;
    hide Mark, TypedConn, Send, Sent, SettledLater, WellFormedController;
    SwapPositive(v, c.ctrl, c.io, c.takenDown, c.takenUp, TempOf(c));
    var up, down, p := Sent(c.ctrl, v.k), Incoming(v), c.io.merges[0].port;
    var m := RequestBody(c.io.merges[0]);
    DrainPlaces(c.ctrl.pendingMerges, c.io.merges, up[c.takenUp..], down[c.takenDown..], c.track);
    TypedSend(c.ctrl, v.k, m);
    SendSide(v, c.ctrl, c.io, c.takenDown, c.takenUp, TempOf(c), m);
    SendKeepsRest(c.ctrl, v.k, m);
    DrainSide(v, Send(c.ctrl, v.k, m), c.io, c.takenDown, c.takenUp, TempOf(c), ToDrain(c.io.merges[1..]));
    DrainCallers(v, c.callers, c.lock, c.track, p);
    MarkPlain(v, c.ctrl.node, c.track, p, Asked, up, down, c.takenDown);
    RequestUsers(up, m, Mark(c.track, p, Asked));
    RequestTallies(up, m, down[..c.takenDown], c.ctrl.node.ports, c.track.Keys, c.written, c.read);
  }
}
