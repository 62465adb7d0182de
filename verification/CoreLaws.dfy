// What each call of an application does, field by field, and which steps of the handshake it is.

module CoreLaws {
  import opened Bytes
  import opened Names
  import opened Bodies
  import opened PortTable
  import opened Controllers
  import opened ControllerLaws
  import opened CoreSpec
  import opened Handshake
  import opened HandshakeWhole

  // ------------------------------------------------------------------ handles

  /** A new handle, which is that of an empty invitation; none when there are no more handles. */
  lemma CreateLaw(v: Core)
    requires HandlesFresh(v)
    ensures
      var (answer, h, w) := CreateInvitation(v);
      && HandlesFresh(w) && answer == (if h == INVALID_HANDLE then ResourceExhausted else Ok)
      && (h == INVALID_HANDLE <==> v.next == INVALID_HANDLE)
      && if h == INVALID_HANDLE then w == v
         else h !in v.invitations && h !in v.pipes && w == v.(invitations := v.invitations[h := map[]], next := w.next)
  {
    HandlesAreNew(v, NONE);
  }

  /** A new pair, seen from the outside. */
  ghost predicate NewPair(n: Node, n': Node, p: Name, q: Name) {
    && LocalPair(n', p, q) && n'.name == n.name && n'.live == n.live + {p, q} && Sound(n')
    && p !in n.ports && q !in n.ports
    && n'.ports == n.ports[p := Port(true, n.name, q, [])][q := Port(true, n.name, p, [])]
  }

  lemma PairIsNew(c: Controller, p: Name, q: Name)
    requires Sound(c.node) && FreshPorts(c.node, p, q)
    ensures NewPair(c.node, WithPair(c, p, q).node, p, q) && WithPair(c, p, q) == c.(node := WithPair(c, p, q).node)
  {
    CreatePairMakes(c.node, p, q);
    CreatePairIsSound(c.node, p, q);
    hide CreatePair, Sound;
  }

  /** Attaching makes a pair. The application gets a handle of the one half, and the other is attached,
      unless the name is taken. */
  lemma AttachLaw(v: Core, h: uint64, pipe: Text, l: Name, r: Name)
    requires FreshPorts(v.c.node, l, r) && HandlesFresh(v) && Sound(v.c.node)
    ensures
      var (answer, handle, w) := CoreSpec.Attach(v, h, pipe, l, r);
      && (answer == InvalidArgument <==> h !in v.invitations)
      && (answer == InvalidArgument ==> w == v)
      && (h in v.invitations ==>
            && NewPair(v.c.node, w.c.node, l, r) && w.c == v.c.(node := w.c.node) && HandlesFresh(w)
            && answer == (if v.next == INVALID_HANDLE then ResourceExhausted
                          else if pipe in v.invitations[h] then AlreadyExists else Ok)
            && w.pipes == (if answer.ResourceExhausted? then v.pipes else v.pipes[v.next := l])
            && w.invitations
               == (if answer.Ok? then v.invitations[h := v.invitations[h][pipe := r]] else v.invitations))
      && handle == (if answer.Ok? then v.next else INVALID_HANDLE)
  {
    PairIsNew(v.c, l, r);
    hide WithPair, NewPair, AddPipe;
    if h in v.invitations {
      HandlesAreNew(v.(c := WithPair(v.c, l, r)), l);
      SameHandles(v, h, pipe, l, r);
      hide HandlesFresh;
    }
  }

  lemma SameHandles(v: Core, h: uint64, pipe: Text, l: Name, r: Name)
    requires FreshPorts(v.c.node, l, r) && h in v.invitations && HandlesFresh(v)
    ensures HandlesFresh(CoreSpec.Attach(v, h, pipe, l, r).2)
  {
    hide WithPair;
  }

  /** It is an attachment of the handshake, and the port behind the handle is one the application has. */
  lemma AttachIsMachine(v: Core, h: uint64, pipe: Text, l: Name, r: Name, s: System)
    requires FreshPorts(v.c.node, l, r) && HandlesFresh(v) && Sound(v.c.node) && v.next != INVALID_HANDLE
    requires v.c == s.inviter && h in v.invitations && h in s.dispatchers && s.dispatchers[h] == v.invitations[h]
    ensures
      var (answer, handle, w) := CoreSpec.Attach(v, h, pipe, l, r);
      var t := AttachPipe(s, h, pipe, l, r);
      && w.c == t.inviter && h in w.invitations && h in t.dispatchers && t.dispatchers[h] == w.invitations[h]
      && (answer.Ok? ==>
            && handle in w.pipes && OwnPort(t, w.pipes[handle])
            && r in t.holder && t.holder[r] == Place.Attached(h, pipe) && r in t.ends && t.ends[r] == w.pipes[handle])
      && (!answer.Ok? ==> t.holder == s.holder && t.ends == s.ends)
  {
    AttachLaw(v, h, pipe, l, r);
    CreatePairMakes(v.c.node, l, r);
    var t := AttachPipe(s, h, pipe, l, r);
    if pipe !in v.invitations[h] {
      assert t.ends[r] == l && l in t.ends.Values;
    }
    hide CreatePair, Sound, NewPair;
  }

  // ------------------------------------------------------------------ extracting

  /** A new pair, of which the inviter is asked to merge `q` with its port of that name: the request is
      the last message on its channel, or put off. */
  ghost predicate Asks(c: Controller, d: Controller, q: Name, mate: Name, pipe: Text) {
    && NewPair(c.node, d.node, q, mate)
    && (c.inviterName in c.peers ==> c.peers[c.inviterName] in c.out)
    && d == if c.inviterName in c.peers
            then c.(node := d.node, out := Longer(c.out, c.peers[c.inviterName], [RequestPortMerge(q, pipe)]))
            else c.(node := d.node, pendingMerges := c.pendingMerges + [Merge(pipe, q)])
  }

  lemma AsksFor(c: Controller, p0: Name, p1: Name, pipe: Text)
    requires WellFormedController(c) && Sound(c.node) && FreshPorts(c.node, p0, p1)
    ensures WellFormedController(WithPair(c, p0, p1))
    ensures Asks(c, MergePortIntoInviter(WithPair(c, p0, p1), Merge(pipe, p0)), p0, p1, pipe)
  {
    PairIsNew(c, p0, p1);
    WithPairKeeps(c, p0, p1);
    RequestLaw(WithPair(c, p0, p1), pipe, p0);
    hide WithPair, NewPair, MergePortIntoInviter, WellFormedController, Longer;
  }

  lemma DetachLaw(v: Core, h: uint64, pipe: Text)
    requires h in v.invitations && HandlesFresh(v)
    ensures
      var (answer, handle, w) := DetachPort(v, h, pipe);
      && (answer.NotFound? <==> pipe !in v.invitations[h])
      && (answer.NotFound? ==> w == v)
      && (!answer.NotFound? ==>
            && w.invitations == v.invitations[h := v.invitations[h] - {pipe}] && w.c == v.c
            && answer == (if v.next == INVALID_HANDLE then ResourceExhausted else Ok)
            && (answer.Ok? ==> handle == v.next && w.pipes == v.pipes[handle := v.invitations[h][pipe]])
            && (!answer.Ok? ==> handle == INVALID_HANDLE && w.pipes == v.pipes))
      && HandlesFresh(w) && (!answer.Ok? ==> w.next == v.next)
  {
  }

  /** Extracting a pipe that is attached here gives a handle of its port. A pipe that is not gives a handle
      of the half `p0` of a new pair, and `p0` is also the port the inviter is asked to merge. */
  lemma ExtractLaw(v: Core, h: uint64, pipe: Text, p0: Name, p1: Name)
    requires WellFormedCore(v) && HandlesFresh(v) && Sound(v.c.node) && FreshPorts(v.c.node, p0, p1)
    ensures
      var (answer, handle, w) := CoreSpec.Extract(v, h, pipe, p0, p1);
      if h !in v.invitations then answer == InvalidArgument && w == v && handle == INVALID_HANDLE
      else
        && answer == (if v.next == INVALID_HANDLE then ResourceExhausted else Ok) && handle == v.next && HandlesFresh(w)
        && w.invitations
           == (if pipe in v.invitations[h] then v.invitations[h := v.invitations[h] - {pipe}] else v.invitations)
        && if pipe in v.invitations[h] && answer.Ok?
           then w.c == v.c && w.pipes == v.pipes[handle := v.invitations[h][pipe]]
           else
             && Asks(v.c, w.c, p0, p1, pipe)
             && w.pipes == if answer.Ok? then v.pipes[handle := p0] else v.pipes
  {
    if h in v.invitations {
      var (answer, handle, w) := DetachPort(v, h, pipe);
      DetachLaw(v, h, pipe);
      AsksFor(v.c, p0, p1, pipe);
      hide DetachPort, WithPair, MergePortIntoInviter, Asks, WellFormedController, AddPipe, HandlesOk;
      HandlesAreNew(w.(c := WithPair(w.c, p0, p1)), p0);
    }
  }

  /** Of an invitee, that is what its thread does that extracts the pipe, if it is not interrupted: the
      port behind the new handle is the one the handshake tracks. */
  lemma ExtractIsMachine(v: Core, h: uint64, pipe: Text, p0: Name, p1: Name, c: Conn)
    requires WellFormedCore(v) && HandlesFresh(v) && Sound(v.c.node) && FreshPorts(v.c.node, p0, p1)
    requires h in v.invitations && pipe !in v.invitations[h] && v.next != INVALID_HANDLE && c.ctrl == v.c
    ensures
      var (answer, handle, w) := CoreSpec.Extract(v, h, pipe, p0, p1);
      var d := ExtractWhole(c, pipe, p0, p1);
      && handle in w.pipes && w.pipes[handle] == p0 && p0 in d.track && d.track[p0].pipe == pipe && d.track[p0].mate == p1
      && d.track.Keys == c.track.Keys + {p0}
      && w.c == if p0 in d.callers && d.callers[p0].Sending? && d.callers[p0].socket in d.ctrl.out
                then SendRequest(d, p0).ctrl else d.ctrl
  {
    ExtractLaw(v, h, pipe, p0, p1);
    AloneExtracts(c, pipe, p0, p1);
    ExtractTracks(c, pipe, p0, p1);
    DetachLaw(v, h, pipe);
    hide ExtractWhole, WithPair, MergePortIntoInviter, Asks, WellFormedController, DetachPort;
  }

  lemma ExtractTracks(c: Conn, pipe: Text, p0: Name, p1: Name)
    requires FreshPorts(c.ctrl.node, p0, p1)
    ensures
      var d := ExtractWhole(c, pipe, p0, p1);
      && p0 in d.track && d.track[p0].pipe == pipe && d.track[p0].mate == p1 && d.track.Keys == c.track.Keys + {p0}
  {
    hide WithPair;
  }

  /** Of the inviter, it is an extraction of its own, of a port the application then has. */
  lemma ExtractOwnIsMachine(v: Core, h: uint64, pipe: Text, p0: Name, p1: Name, s: System)
    requires WellFormedCore(v) && HandlesFresh(v) && FreshPorts(v.c.node, p0, p1) && v.next != INVALID_HANDLE
    requires v.c == s.inviter && h in v.invitations && h in s.dispatchers && s.dispatchers[h] == v.invitations[h]
    requires pipe in v.invitations[h]
    ensures
      var (answer, handle, w) := CoreSpec.Extract(v, h, pipe, p0, p1);
      var t := ExtractLocally(s, h, pipe);
      && answer == Ok && w.c == t.inviter && h in w.invitations && h in t.dispatchers
      && t.dispatchers[h] == w.invitations[h] && handle in w.pipes && OwnPort(t, w.pipes[handle])
      && t.holder == s.holder[w.pipes[handle] := Place.Extracted]
  {
    DetachLaw(v, h, pipe);
    assert v.invitations[h][pipe] in v.c.node.ports;
    hide DetachPort, WellFormedController, WithPair, MergePortIntoInviter;
  }

  // ------------------------------------------------------------------ inviting

  /** All attached ports are reserved under the temporary name and none stays attached; the new channel
      carries AcceptInvitee alone. Nothing else changes. */
  lemma SendInvitationLaw(v: Core, h: uint64, temp: Name, s: Socket)
    requires temp !in v.c.reserved && temp !in v.c.pendingInvitations
    ensures
      var (answer, w) := CoreSpec.SendInvitation(v, h, temp, s);
      if h !in v.invitations then answer == InvalidArgument && w == v
      else
        && answer == Ok && w.pipes == v.pipes && w.next == v.next && w.invitations == v.invitations[h := map[]]
        && w.c == v.c.(reserved := v.c.reserved[temp := v.invitations[h]],
                       pendingInvitations := v.c.pendingInvitations[temp := s], remote := v.c.remote[s := temp],
                       out := v.c.out[s := [AcceptInvitee(temp, v.c.node.name)]])
  {
    if h in v.invitations {
      InviteLaw(v.c, temp, s, v.invitations[h]);
      var d := Controllers.SendInvitation(v.c, temp, s, v.invitations[h]);
      assert d.reserved == v.c.reserved[temp := v.invitations[h]];
      hide Controllers.SendInvitation;
    }
  }

  /** The four steps of the inviter. */
  function InviteWhole(s: System, h: nat, k: Socket, temp: Name): System
    requires h in s.dispatchers && k in s.conns
  {
    var taken := TakePorts(s, h, k, temp);
    InviteStep(ListPorts(TakeAgain(taken, k), k), k)
  }

  /** They leave what the call leaves, if they are not interrupted. */
  lemma InviteIsMachine(v: Core, h: uint64, temp: Name, s: System, k: Socket)
    requires v.c == s.inviter && h in v.invitations && h in s.dispatchers && s.dispatchers[h] == v.invitations[h]
    requires k in s.conns
    ensures
      var (_, w) := CoreSpec.SendInvitation(v, h, temp, k);
      var t := InviteWhole(s, h, k, temp);
      && t.inviter == w.c && h in t.dispatchers && h in w.invitations && t.dispatchers[h] == w.invitations[h]
      && k in t.conns && t.conns[k] == s.conns[k].(stage := Invited(temp)) && t.holder.Keys == s.holder.Keys
      && forall r :: r in s.holder ==>
           t.holder[r] == if s.holder[r].Attached? && s.holder[r].handle == h then Tokened(k, s.holder[r].pipe)
                          else if s.holder[r].Held? && s.holder[r].k == k then Tokened(k, s.holder[r].pipe)
                          else s.holder[r]
  {
    var again := TakeAgain(TakePorts(s, h, k, temp), k);
    AloneInvites(again, k);
    TakenTwice(s, h, k, temp);
    ListedAndInvited(again, k);
    hide Controllers.SendInvitation, TakePorts, TakeAgain, ListPorts, InviteStep;
  }

  lemma ListedAndInvited(s: System, k: Socket)
    requires k in s.conns && s.conns[k].stage.Holding?
    ensures
      var listed := ListPorts(s, k);
      && k in listed.conns && listed.conns[k].stage.Listed?
      && var t := InviteStep(listed, k);
      && t.dispatchers == s.dispatchers && k in t.conns
      && t.conns[k] == s.conns[k].(stage := Invited(s.conns[k].stage.temp)) && t.holder.Keys == s.holder.Keys
      && forall r :: r in s.holder ==>
           t.holder[r] == if s.holder[r].Held? && s.holder[r].k == k then Tokened(k, s.holder[r].pipe) else s.holder[r]
  {
    hide Reserve, Invite;
  }

  /** The second time there is nothing to discard. */
  lemma TakenTwice(s: System, h: nat, k: Socket, temp: Name)
    requires h in s.dispatchers && k in s.conns
    ensures
      var t := TakeAgain(TakePorts(s, h, k, temp), k);
      && t.inviter == s.inviter && t.dispatchers == s.dispatchers[h := map[]] && k in t.conns
      && t.conns[k] == s.conns[k].(stage := Holding(h, temp, s.dispatchers[h], true)) && t.holder.Keys == s.holder.Keys
      && forall r :: r in s.holder ==>
           t.holder[r] == if s.holder[r].Attached? && s.holder[r].handle == h then Held(k, s.holder[r].pipe)
                          else s.holder[r]
  {
    assert s.dispatchers[h := map[]][h := map[]] == s.dispatchers[h := map[]];
  }

  /** The invitee has a handle of an empty invitation, and a channel to an inviter with no name yet. */
  lemma AcceptInvitationLaw(v: Core, s: Socket)
    requires HandlesFresh(v)
    ensures
      var (answer, h, w) := CoreSpec.AcceptInvitation(v, s);
      && answer == (if h == INVALID_HANDLE then ResourceExhausted else Ok) && HandlesFresh(w)
      && (h == INVALID_HANDLE <==> v.next == INVALID_HANDLE)
      && if h == INVALID_HANDLE then w == v
         else
           && h !in v.invitations && h !in v.pipes && w.invitations == v.invitations[h := map[]] && w.pipes == v.pipes
           && w.c == v.c.(inviterName := NONE, inviterChannel := Some(s), remote := v.c.remote[s := NONE],
                          out := v.c.out[s := []])
  {
    HandlesAreNew(v, NONE);
    AcceptLaw(v.c, s);
    hide AcceptInvitationOn;
  }

  /** A process that accepts its invitation is the invitee the handshake starts with. */
  lemma AcceptIsMachine(v: Core, b: Name, k: Socket)
    requires v.c == NewController(b) && v.next != INVALID_HANDLE
    ensures CoreSpec.AcceptInvitation(v, k).2.c == NewConn(k, b).ctrl
  {
  }

  // ------------------------------------------------------------------ messages

  /** A write at a handle sends a message with the names of its port and of the port it faces, as the last
      on the channel to the node it faces, or the last that waits for that node. Data for a port of the
      same node is dropped. Nothing else changes. */
  lemma WriteMessageLaw(v: Core, h: uint64, data: Text)
    requires WellFormedCore(v)
    ensures
      var (answer, w) := CoreSpec.WriteMessage(v, h, data);
      if h !in v.pipes then answer == InvalidArgument && w == v
      else
        var p := v.pipes[h];
        && answer == Ok && w == v.(c := w.c) && p in v.c.node.ports
        && var n := v.c.node.ports[p].peerNode;
        var m := UserMessage(p, v.c.node.ports[p].peerPort, data);
        && (n in v.c.peers ==> v.c.peers[n] in v.c.out)
        && w.c == if n == v.c.node.name then v.c
                  else if n in v.c.peers then v.c.(out := Longer(v.c.out, v.c.peers[n], [m]))
                  else v.c.(waiting := v.c.waiting[n := WaitingFor(v.c, n) + [m]])
  {
    if h in v.pipes {
      assert v.pipes[h] in v.c.node.ports;
      hide WellFormedController, SendUserMessage, Longer;
      WriteLaw(v.c, v.pipes[h], data);
    }
  }

  /** It is a write of the handshake, at either side. */
  lemma WriteIsMachine(v: Core, h: uint64, data: Text, c: Conn, k: Socket, s: System)
    requires WellFormedCore(v) && h in v.pipes
    ensures v.pipes[h] in v.c.node.ports
    ensures v.c == c.ctrl ==> CoreSpec.WriteMessage(v, h, data).1.c == WriteAtInvitee(c, v.pipes[h], data).ctrl
    ensures v.c == s.inviter ==> CoreSpec.WriteMessage(v, h, data).1.c == WriteAtInviter(s, v.pipes[h], data).inviter
    ensures v.c == c.ctrl && TypedConn(c.ctrl, k) && v.pipes[h] in c.track ==>
              CanAtInvitee(c, k, [], Write(v.pipes[h], data)) && CanAtInvitee(c, k, [], InviteeStep.Read(v.pipes[h]))
    ensures v.c == s.inviter && v.pipes[h] in s.ends.Values ==> OwnPort(s, v.pipes[h])
  {
    hide WellFormedController, SendUserMessage, Forwarded;
  }

  /** A read at a handle takes the message that came last for its port, if there is one, and changes
      nothing else. An empty queue is no error. */
  lemma ReadMessageLaw(v: Core, h: uint64)
    requires WellFormedCore(v)
    ensures
      var (answer, m, w) := CoreSpec.ReadMessage(v, h);
      if h !in v.pipes then answer == InvalidArgument && m == None && w == v
      else
        var p := v.pipes[h];
        && answer == Ok && p in v.c.node.ports && p in w.c.node.ports
        && v.c.node.ports[p].queue == w.c.node.ports[p].queue + (if m.Some? then [m.value] else [])
        && (m.None? <==> v.c.node.ports[p].queue == [])
        && w == v.(c := v.c.(node := v.c.node.(ports :=
                     v.c.node.ports[p := v.c.node.ports[p].(queue := w.c.node.ports[p].queue)])))
  {
    if h in v.pipes {
      var p := v.pipes[h];
      assert p in v.c.node.ports;
      hide WellFormedController, GetUserMessage;
      ReadLaw(v.c, p);
      assert v.c.node.ports[p := v.c.node.ports[p].(queue := v.c.node.ports[p].queue)] == v.c.node.ports;
    }
  }

  lemma ReadIsMachine(v: Core, h: uint64, c: Conn, s: System)
    requires WellFormedCore(v) && h in v.pipes
    ensures v.pipes[h] in v.c.node.ports
    ensures v.c == c.ctrl ==> CoreSpec.ReadMessage(v, h).2.c == ReadAtInvitee(c, v.pipes[h]).ctrl
    ensures v.c == s.inviter ==> CoreSpec.ReadMessage(v, h).2.c == ReadAtInviter(s, v.pipes[h]).inviter
  {
    hide WellFormedController, GetUserMessage;
  }
}
