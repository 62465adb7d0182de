// What every step leaves of the channels: they only grow, by short messages when the application is
// brief, and ports are never forgotten.

module HandshakeGrowth {
  import opened Bytes
  import opened Names
  import opened Bodies
  import opened PortTable
  import opened Controllers
  import opened Handshake
  import opened HandshakeInvariant
  import opened HandshakeInvitee
  import opened HandshakeMessages
  import opened HandshakeInviteeSteps
  import opened HandshakeInviter
  import opened HandshakeInvitation
  import opened HandshakeLaunch
  import opened HandshakeHear
  import opened HandshakeMerge
  import opened HandshakeAnswer
  import opened HandshakeTheorems

  /** Small enough to arrive as it was sent. */
  predicate Short(m: Body) {
    match m
    case UserMessage(_, _, data) => |data| <= 91
    case RequestPortMerge(_, pipe) => |pipe| <= 103
    case _ => true
  }

  predicate ShortAll(messages: seq<Body>) {
    forall i :: 0 <= i < |messages| ==> Short(messages[i])
  }

  predicate ShortOut(out: map<Socket, seq<Body>>) {
    forall s :: s in out ==> ShortAll(out[s])
  }

  predicate ShortWaiting(waiting: map<Name, seq<Body>>) {
    forall n :: n in waiting ==> ShortAll(waiting[n])
  }

  predicate ShortMerges(merges: seq<Merge>) {
    forall i :: 0 <= i < |merges| ==> |merges[i].pipe| <= 103
  }

  predicate ShortCtrl(c: Controller) {
    ShortOut(c.out) && ShortWaiting(c.waiting) && ShortMerges(c.pendingMerges)
  }

  predicate ShortCallers(callers: map<Name, Caller>) {
    forall p :: p in callers ==> |callers[p].pipe| <= 103
  }

  predicate ShortConn(c: Conn) {
    && ShortCtrl(c.ctrl) && ShortCallers(c.callers)
    && (c.io.ToSend? ==> ShortAll(c.io.messages)) && (c.io.ToDrain? ==> ShortMerges(c.io.merges))
  }

  predicate ShortSystem(s: System) {
    && ShortCtrl(s.inviter) && (s.io.ToFlush? ==> ShortAll(s.io.messages))
    && forall k :: k in s.conns ==> ShortConn(s.conns[k])
  }

  /** What the application asks for: short data, and short names of pipes. */
  predicate Brief(step: Step) {
    match step
    case AtInvitee(_, Extract(pipe, _, _)) => |pipe| <= 103
    case AtInvitee(_, Write(_, data)) => |data| <= 91
    case WriteOwn(_, data) => |data| <= 91
    case _ => true
  }

  lemma ShortParts(c: Controller, d: Controller)
    requires d.out == c.out && d.waiting == c.waiting && d.pendingMerges == c.pendingMerges
    ensures ShortCtrl(d) <==> ShortCtrl(c)
  {
    hide ShortOut, ShortWaiting, ShortMerges;
  }

  lemma SendShort(c: Controller, s: Socket, m: Body)
    requires s in c.out && ShortCtrl(c) && Short(m)
    ensures ShortCtrl(Send(c, s, m))
  {
  }

  lemma InsertShort(c: Controller, n: Name, s: Socket)
    requires s in c.out && ShortCtrl(c)
    ensures ShortCtrl(InsertPeer(c, n, s).0) && ShortAll(InsertPeer(c, n, s).1)
  {
  }

  lemma WaitShort(c: Controller, n: Name, m: Body)
    requires ShortCtrl(c) && Short(m)
    ensures ShortCtrl(LetWait(c, n, m))
  {
  }

  lemma ForwardShort(c: Controller, p: Name, data: Text)
    requires WellFormedController(c) && p in c.node.ports && ShortCtrl(c) && |data| <= 91
    ensures ShortCtrl(SendUserMessage(c, p, data))
  {
    hide WellFormedController, ShortCtrl, Send, LetWait;
    var (node, m) := Outgoing(c.node, p, data);
    if node in c.peers {
      PeerHasChannel(c, node);
      SendShort(c, c.peers[node], m);
    } else {
      WaitShort(c, node, m);
    }
  }

  // ------------------------------------------------------------------ ports

  lemma MergeKeepsKeys(n: Node, r: Name, node: Name, port: Name)
    requires WellFormed(n) && r in n.ports
    ensures PortTable.MergePorts(n, r, node, port).1.ports.Keys == n.ports.Keys
  {
  }

  lemma ResponseKeepsKeys(n: Node, p: Name, node: Name, port: Name)
    requires WellFormed(n)
    ensures
      var r := PortTable.MergePortsResponse(n, p, node, port);
      r.Done? ==> r.value.1.ports.Keys == n.ports.Keys
  {
    hide PortTable.MergePorts;
    if p in n.live && (n.name, p, n.ports[p].peerPort) in n.index {
      MergeKeepsKeys(n, n.ports[p].peerPort, node, port);
    }
  }

  lemma AcceptKeepsKeys(n: Node, to: Name, m: Body)
    requires WellFormed(n)
    ensures PortTable.Accept(n, to, m).Done? ==> PortTable.Accept(n, to, m).value.ports.Keys == n.ports.Keys
  {
  }

  lemma GetKeepsKeys(n: Node, p: Name)
    requires p in n.ports
    ensures PortTable.GetMessage(n, p).1.ports.Keys == n.ports.Keys
  {
  }

  lemma PairAddsKeys(n: Node, p: Name, q: Name)
    requires WellFormed(n) && FreshPorts(n, p, q)
    ensures CreatePair(n, p, q).1.ports.Keys == n.ports.Keys + {p, q}
  {
    CreatePairMakes(n, p, q);
  }

  // ------------------------------------------------------------------ a connection

  function NewAt(step: InviteeStep): set<Name> {
    if step.Extract? then {step.p0, step.p1} else {}
  }

  lemma CallersMore(callers: map<Name, Caller>, p: Name, caller: Caller)
    requires ShortCallers(callers) && |caller.pipe| <= 103
    ensures ShortCallers(callers[p := caller]) && ShortCallers(callers - {p})
  {
  }

  /** The ports are those of before, and nothing is sent or put off. */
  ghost predicate Receives(c: Conn, d: Conn) {
    && d.takenDown == c.takenDown + 1 && d.ctrl.node.ports.Keys == c.ctrl.node.ports.Keys
    && (ShortConn(c) ==> ShortConn(d))
  }

  lemma HeardInvitee(c: Conn, k: Socket, down: seq<Body>)
    requires WellFormedController(c.ctrl) && k in c.ctrl.remote && c.takenDown < |down|
    requires down[c.takenDown].AcceptInvitee?
    ensures HearAtInvitee(c, k, down).Done? && Receives(c, HearAtInvitee(c, k, down).value)
  {
    hide WellFormedController, ShortCallers;
    ShortParts(c.ctrl, NameInviter(c.ctrl, down[c.takenDown].inviter));
    hide ShortCtrl;
  }

  lemma HeardResponse(c: Conn, k: Socket, down: seq<Body>)
    requires WellFormedController(c.ctrl) && k in c.ctrl.remote && c.takenDown < |down| && c.io.Resting?
    requires down[c.takenDown].ResponsePortMerge? && HearAtInvitee(c, k, down).Done?
    ensures Receives(c, HearAtInvitee(c, k, down).value)
  {
    var m := down[c.takenDown];
    NodeWellFormed(c.ctrl);
    ResponseKeepsKeys(c.ctrl.node, m.connector, c.ctrl.remote[k], m.port);
    hide WellFormedController, WellFormed, PortTable.MergePortsResponse, ShortCallers, Settle;
    ShortParts(c.ctrl, HearAtInvitee(c, k, down).value.ctrl);
    hide ShortCtrl;
  }

  lemma HeardUser(c: Conn, k: Socket, down: seq<Body>)
    requires WellFormedController(c.ctrl) && k in c.ctrl.remote && c.takenDown < |down| && c.io.Resting?
    requires down[c.takenDown].UserMessage? && HearAtInvitee(c, k, down).Done?
    ensures Receives(c, HearAtInvitee(c, k, down).value)
  {
    var m := down[c.takenDown];
    NodeWellFormed(c.ctrl);
    AcceptKeepsKeys(c.ctrl.node, m.to, m);
    hide WellFormedController, WellFormed, PortTable.Accept, ShortCallers;
    ShortParts(c.ctrl, HearAtInvitee(c, k, down).value.ctrl);
    hide ShortCtrl;
  }

  lemma HearShort(v: View, c: Conn)
    requires ConnInv(v, c) && c.io.Resting? && c.takenDown < |Incoming(v)|
    requires WellFormedController(c.ctrl) && v.k in c.ctrl.remote && HearAtInvitee(c, v.k, Incoming(v)).Done?
    ensures Receives(c, HearAtInvitee(c, v.k, Incoming(v)).value)
  {
    hide ConnInv, InviterSide, WellFormedController, HearAtInvitee, Receives;
    ConnSide(v, c);
    FirstHeard(v, c.stage, NameOf(c), c.takenUp);
    hide Incoming;
    var m := Incoming(v)[c.takenDown];
    if c.takenDown == 0 {
      HeardInvitee(c, v.k, Incoming(v));
    } else if m.ResponsePortMerge? {
      HeardResponse(c, v.k, Incoming(v));
    } else {
      HeardUser(c, v.k, Incoming(v));
    }
  }

  lemma NodeWellFormed(c: Controller)
    requires WellFormedController(c)
    ensures WellFormed(c.node)
  {
  }

  predicate BriefInvitee(step: InviteeStep) {
    match step
    case Extract(pipe, _, _) => |pipe| <= 103
    case Write(_, data) => |data| <= 91
    case _ => true
  }

  function HeardDown(step: InviteeStep): nat {
    if step.Hear? then 1 else 0
  }

  /** What the two lemmas on each step of an invitee say of it, the channel apart. */
  ghost predicate Goes(c: Conn, d: Conn, step: InviteeStep) {
    && d.takenDown == c.takenDown + HeardDown(step)
    && d.ctrl.node.ports.Keys <= c.ctrl.node.ports.Keys + NewAt(step)
    && (ShortConn(c) && BriefInvitee(step) ==> ShortConn(d))
  }

  lemma ExtractGoes(c: Conn, pipe: Text, p0: Name, p1: Name)
    requires WellFormedController(c.ctrl) && FreshPorts(c.ctrl.node, p0, p1)
    ensures Goes(c, ExtractPipe(c, pipe, p0, p1), Extract(pipe, p0, p1))
  {
    NodeWellFormed(c.ctrl);
    PairAddsKeys(c.ctrl.node, p0, p1);
    hide CreatePair, WellFormedController, ShortCtrl;
    ShortParts(c.ctrl, WithPair(c.ctrl, p0, p1));
    if ShortConn(c) && |pipe| <= 103 {
      CallersMore(c.callers, p0, Starting(pipe));
    }
    hide ShortCallers;
  }

  lemma CallerShort(callers: map<Name, Caller>, p: Name)
    requires ShortCallers(callers) && p in callers
    ensures |callers[p].pipe| <= 103
  {
  }

  lemma FindGoes(c: Conn, p: Name)
    requires p in c.callers && c.callers[p].Named?
    ensures Goes(c, FindInviter(c, p), Find(p))
  {
    hide Mark, ShortOut, ShortWaiting;
    if ShortConn(c) {
      CallerShort(c.callers, p);
      var peer := GetPeerChannel(c.ctrl, c.callers[p].inviter);
      CallersMore(c.callers, p, if peer.Some? then Sending(c.callers[p].pipe, peer.value) else c.callers[p]);
    }
    hide ShortCallers;
  }

  lemma RequestGoes(c: Conn, p: Name)
    requires p in c.callers && c.callers[p].Sending? && c.callers[p].socket in c.ctrl.out
    ensures Goes(c, SendRequest(c, p), InviteeStep.Request(p))
  {
    hide Mark, ShortCtrl;
    var m := RequestBody(Merge(c.callers[p].pipe, p));
    if ShortConn(c) {
      CallerShort(c.callers, p);
      SendShort(c.ctrl, c.callers[p].socket, m);
      CallersMore(c.callers, p, c.callers[p]);
    }
    hide ShortCallers;
  }

  lemma LockGoes(c: Conn, p: Name)
    requires p in c.callers
    ensures Goes(c, LockPending(c, p), Lock(p)) && Goes(c, ReadInviterName(c, p), ReadName(p))
  {
    hide ShortCtrl;
    if ShortConn(c) {
      CallerShort(c.callers, p);
      CallersMore(c.callers, p, Locking(c.callers[p].pipe));
      CallersMore(c.callers, p, Named(c.callers[p].pipe, c.ctrl.inviterName));
    }
    hide ShortCallers;
  }

  lemma AnswerGoes(c: Conn, k: Socket)
    requires TypedConn(c.ctrl, k) && c.io.ToAnswer?
    ensures Goes(c, AnswerStep(c), Answer)
  {
    hide WellFormedController, ShortCtrl, ShortCallers;
    var d := SetRemote(c.ctrl, k, c.io.inviter);
    ShortParts(c.ctrl, d);
    if ShortConn(c) {
      SendShort(d, k, AcceptInvitation(c.io.token, c.ctrl.node.name));
    }
  }

  lemma JoinGoes(c: Conn, k: Socket)
    requires TypedConn(c.ctrl, k) && c.io.ToJoin?
    ensures Goes(c, JoinStep(c), Join)
  {
    hide WellFormedController, ShortCtrl, ShortCallers, ShortAll;
    var d := SetRemote(c.ctrl, k, c.io.inviter);
    ShortParts(c.ctrl, d);
    if ShortConn(c) {
      InsertShort(d, c.io.inviter, k);
    }
  }

  lemma WaitingGoes(c: Conn, k: Socket)
    requires TypedConn(c.ctrl, k) && c.io.ToSend?
    ensures Goes(c, SendStep(c), SendWaiting)
  {
    hide WellFormedController, ShortCtrl, ShortCallers;
    if c.io.messages != [] && ShortConn(c) {
      SendShort(c.ctrl, k, c.io.messages[0]);
    }
  }

  lemma SwapGoes(c: Conn)
    ensures Goes(c, SwapStep(c), Swap)
  {
    hide MarkAll, ShortOut, ShortWaiting, ShortCallers;
  }

  lemma DrainGoes(c: Conn)
    requires WellFormedController(c.ctrl) && c.io.ToDrain? && DrainStep(c).Done?
    ensures Goes(c, DrainStep(c).value, Drain)
  {
    hide WellFormedController, Mark, ShortCtrl, ShortCallers;
    if c.io.merges != [] && ShortConn(c) {
      PeerHasChannel(c.ctrl, c.ctrl.inviterName);
      SendShort(c.ctrl, GetInviterChannel(c.ctrl).value, RequestBody(c.io.merges[0]));
    }
  }

  lemma WriteGoes(c: Conn, p: Name, data: Text)
    requires WellFormedController(c.ctrl) && p in c.ctrl.node.ports
    ensures Goes(c, WriteAtInvitee(c, p, data), Write(p, data))
  {
    hide WellFormedController, ShortCtrl, ShortCallers;
    WriteKeepsNode(c.ctrl, p, data);
    if ShortConn(c) && |data| <= 91 {
      ForwardShort(c.ctrl, p, data);
    }
    hide SendUserMessage, Forwarded;
  }

  lemma WriteKeepsNode(c: Controller, p: Name, data: Text)
    requires WellFormedController(c) && p in c.node.ports
    ensures SendUserMessage(c, p, data).node == c.node
  {
    hide WellFormedController;
  }

  lemma ReadGoes(c: Conn, p: Name)
    requires p in c.ctrl.node.ports
    ensures Goes(c, ReadAtInvitee(c, p), Read(p))
  {
    GetKeepsKeys(c.ctrl.node, p);
    hide PortTable.GetMessage, ShortCallers, Add;
    ShortParts(c.ctrl, ReadAtInvitee(c, p).ctrl);
    hide ShortCtrl;
  }

  lemma InviteeStepGoes(v: View, c: Conn, step: InviteeStep)
    requires ConnInv(v, c) && TypedConn(c.ctrl, v.k) && CanAtInvitee(c, v.k, Incoming(v), step)
    requires DoAtInvitee(c, v.k, Incoming(v), step).Done?
    ensures Goes(c, DoAtInvitee(c, v.k, Incoming(v), step).value, step)
  {
    hide ConnInv, Goes;
    match step
    case Extract(pipe, p0, p1) => ExtractGoes(c, pipe, p0, p1);
    case Lock(p) => LockGoes(c, p);
    case ReadName(p) => LockGoes(c, p);
    case Find(p) => FindGoes(c, p);
    case Request(p) => RequestGoes(c, p);
    case Hear => HearGoes(v, c);
    case Answer => AnswerGoes(c, v.k);
    case Join => JoinGoes(c, v.k);
    case SendWaiting => WaitingGoes(c, v.k);
    case Swap => SwapGoes(c);
    case Drain => DrainGoes(c);
    case Write(p, data) => WriteGoes(c, p, data);
    case Read(p) => ReadGoes(c, p);
  }

  lemma HearGoes(v: View, c: Conn)
    requires ConnInv(v, c) && c.io.Resting? && c.takenDown < |Incoming(v)|
    requires WellFormedController(c.ctrl) && v.k in c.ctrl.remote && HearAtInvitee(c, v.k, Incoming(v)).Done?
    ensures Goes(c, HearAtInvitee(c, v.k, Incoming(v)).value, Hear)
  {
    hide ConnInv, HearAtInvitee, ShortConn, WellFormedController;
    HearShort(v, c);
  }

  // ------------------------------------------------------------------ the system

  function UpHeard(step: Step, k: Socket): nat {
    if step == HearInvitee(k) then 1 else 0
  }

  function DownHeard(step: Step, k: Socket): nat {
    if step.AtInvitee? && step.k == k then HeardDown(step.step) else 0
  }

  function NamesAt(step: Step, k: Socket): set<Name> {
    if step.AtInvitee? && step.k == k then NewAt(step.step) else {}
  }

  function NamesAtInviter(step: Step): set<Name> {
    if step.Attach? then {step.l, step.r} else {}
  }

  ghost predicate OutGrows(out: map<Socket, seq<Body>>, out': map<Socket, seq<Body>>) {
    forall k :: k in out ==> k in out' && out[k] <= out'[k]
  }

  ghost predicate ConnGrows(k: Socket, c: Conn, d: Conn, step: Step) {
    && Sent(c.ctrl, k) <= Sent(d.ctrl, k) && NameOf(d) == NameOf(c)
    && d.takenUp == c.takenUp + UpHeard(step, k) && d.takenDown == c.takenDown + DownHeard(step, k)
    && d.ctrl.node.ports.Keys <= c.ctrl.node.ports.Keys + NamesAt(step, k)
  }

  /** Nothing was sent yet, in either direction. */
  ghost predicate Untouched(s: System, k: Socket)
    requires k in s.conns
  {
    var c := s.conns[k];
    && Sent(c.ctrl, k) == [] && Down(s, k) == [] && c.takenUp == 0 && c.takenDown == 0
    && c.ctrl.node.ports == map[]
  }

  /** What a step leaves of the channels and of the ports. */
  ghost predicate Grows(s: System, t: System, step: Step) {
    && OutGrows(s.inviter.out, t.inviter.out)
    && t.inviter.node.ports.Keys <= s.inviter.node.ports.Keys + NamesAtInviter(step)
    && (forall k :: k in s.conns ==> k in t.conns && ConnGrows(k, s.conns[k], t.conns[k], step))
    && (!step.Connect? ==> t.conns.Keys == s.conns.Keys)
    && (forall k :: k in t.conns && k !in s.conns ==> Untouched(t, k))
    && (ShortSystem(s) && Brief(step) ==> ShortSystem(t))
  }

  /** The parts of a connection that only the invitee changes. */
  predicate SameInside(c: Conn, d: Conn) {
    d.ctrl == c.ctrl && d.callers == c.callers && d.io == c.io && d.takenDown == c.takenDown
  }

  lemma SameShort(c: Conn, d: Conn)
    requires SameInside(c, d)
    ensures ShortConn(c) ==> ShortConn(d)
  {
    hide ShortCtrl, ShortCallers;
  }

  /** Of the connections only the histories change, and how many messages the inviter has read. */
  ghost predicate OnlyHistory(s: System, t: System, step: Step) {
    && t.conns.Keys == s.conns.Keys
    && forall k :: k in s.conns ==>
         SameInside(s.conns[k], t.conns[k]) && t.conns[k].takenUp == s.conns[k].takenUp + UpHeard(step, k)
  }

  lemma OneHistory(s: System, t: System, k: Socket, step: Step)
    requires k in s.conns && k in t.conns && t.conns == s.conns[k := t.conns[k]]
    requires SameInside(s.conns[k], t.conns[k]) && t.conns[k].takenUp == s.conns[k].takenUp + UpHeard(step, k)
    requires step.HearInvitee? ==> step.k == k
    ensures OnlyHistory(s, t, step)
  {
  }

  lemma NoHistory(s: System, t: System, step: Step)
    requires t.conns == s.conns && !step.HearInvitee?
    ensures OnlyHistory(s, t, step)
  {
  }

  predicate ShortIo(io: InviterIo) {
    io.ToFlush? ==> ShortAll(io.messages)
  }

  lemma InviterShort(s: System, t: System, step: Step)
    requires OnlyHistory(s, t, step) && ShortSystem(s) && ShortCtrl(t.inviter) && ShortIo(t.io)
    ensures ShortSystem(t)
  {
    hide ShortCtrl, ShortConn, SameInside, ShortAll;
    forall k | k in t.conns
      ensures ShortConn(t.conns[k])
    {
      SameShort(s.conns[k], t.conns[k]);
    }
  }

  lemma InsideGrows(k: Socket, c: Conn, d: Conn, step: Step)
    requires !step.AtInvitee? && SameInside(c, d) && d.takenUp == c.takenUp + UpHeard(step, k)
    ensures ConnGrows(k, c, d, step)
  {
  }

  /** A step of the inviter. */
  lemma InviterGrows(s: System, t: System, step: Step)
    requires !step.AtInvitee? && OnlyHistory(s, t, step)
    requires OutGrows(s.inviter.out, t.inviter.out)
    requires t.inviter.node.ports.Keys <= s.inviter.node.ports.Keys + NamesAtInviter(step)
    requires ShortSystem(s) && Brief(step) ==> ShortCtrl(t.inviter) && ShortIo(t.io)
    ensures Grows(s, t, step)
  {
    if ShortSystem(s) && Brief(step) {
      InviterShort(s, t, step);
    }
    hide OutGrows, ShortCtrl, ShortSystem, SameInside, ConnGrows, UpHeard, Brief, ShortIo, NamesAtInviter;
    forall k | k in s.conns
      ensures ConnGrows(k, s.conns[k], t.conns[k], step)
    {
      InsideGrows(k, s.conns[k], t.conns[k], step);
    }
  }

  lemma OutStays(out: map<Socket, seq<Body>>)
    ensures OutGrows(out, out)
  {
  }

  lemma OutSends(c: Controller, k: Socket, m: Body)
    requires k in c.out
    ensures OutGrows(c.out, Send(c, k, m).out)
  {
  }

  /** A step that changes no more of the inviter than its tables and histories. */
  lemma QuietGrows(s: System, t: System, step: Step)
    requires !step.AtInvitee? && OnlyHistory(s, t, step)
    requires t.inviter.out == s.inviter.out && t.inviter.waiting == s.inviter.waiting
    requires t.inviter.pendingMerges == s.inviter.pendingMerges
    requires t.inviter.node.ports.Keys <= s.inviter.node.ports.Keys + NamesAtInviter(step)
    requires ShortSystem(s) && Brief(step) ==> ShortIo(t.io)
    ensures Grows(s, t, step)
  {
    hide ShortConn, Grows;
    OutStays(s.inviter.out);
    ShortParts(s.inviter, t.inviter);
    hide OutGrows, ShortCtrl;
    InviterGrows(s, t, step);
  }

  lemma ConnectGrows(s: System, k: Socket, b: Name)
    requires Inv(s) && k !in s.conns
    ensures Grows(s, WithConn(s, k, NewConn(k, b)).(used := s.used + {b}), Connect(k, b))
  {
    hide ConnInv, NamesApart, InviterPorts, Reservations, InviterTallies, ViewOf, Connections, Bones, KeysUsed;
    hide WellFormedController, Typed;
    var step := Connect(k, b);
    OutStays(s.inviter.out);
    NewConnShort(k, b);
    hide OutGrows, ShortConn, ShortCtrl, NewConn;
  }

  lemma NewConnShort(k: Socket, b: Name)
    ensures
      var c := NewConn(k, b);
      ShortConn(c) && Sent(c.ctrl, k) == [] && c.takenUp == 0 && c.takenDown == 0 && c.ctrl.node.ports == map[]
  {
  }

  lemma AttachGrows(s: System, h: nat, pipe: Text, l: Name, r: Name)
    requires h in s.dispatchers && FreshPorts(s.inviter.node, l, r) && WellFormed(s.inviter.node)
    ensures Grows(s, AttachPipe(s, h, pipe, l, r), Attach(h, pipe, l, r))
  {
    hide Grows, ShortCtrl, ShortConn, WellFormed, FreshPorts;
    PairAddsKeys(s.inviter.node, l, r);
    hide CreatePair;
    QuietGrows(s, AttachPipe(s, h, pipe, l, r), Attach(h, pipe, l, r));
  }

  lemma PreparedGrows(s: System, step: Step)
    requires Typed(s) && Enabled(s, step)
    requires step.Open? || step.ExtractOwn? || step.Take? || step.TakeOver? || step.List?
    ensures Grows(s, Apply(s, step), step)
  {
    hide Grows, WellFormedController, TypedConn, ExtractLocally, TakePorts, TakeAgain, ListPorts;
    match step
    case Open(h) => OpenGrows(s, h);
    case ExtractOwn(h, pipe) => ExtractOwnGrows(s, h, pipe);
    case Take(h, k, temp) => TakeGrows(s, h, k, temp);
    case TakeOver(k) => TakeOverGrows(s, k);
    case List(k) => ListGrows(s, k);
  }

  lemma OpenGrows(s: System, h: nat)
    ensures Grows(s, s.(dispatchers := s.dispatchers[h := map[]]), Open(h))
  {
    hide Grows;
    var t := s.(dispatchers := s.dispatchers[h := map[]]);
    NoHistory(s, t, Open(h));
    QuietGrows(s, t, Open(h));
  }

  lemma ExtractOwnGrows(s: System, h: nat, pipe: Text)
    requires h in s.dispatchers && pipe in s.dispatchers[h]
    ensures Grows(s, ExtractLocally(s, h, pipe), ExtractOwn(h, pipe))
  {
    hide Grows;
    NoHistory(s, ExtractLocally(s, h, pipe), ExtractOwn(h, pipe));
    QuietGrows(s, ExtractLocally(s, h, pipe), ExtractOwn(h, pipe));
  }

  lemma TakeGrows(s: System, h: nat, k: Socket, temp: Name)
    requires h in s.dispatchers && k in s.conns
    ensures Grows(s, TakePorts(s, h, k, temp), Take(h, k, temp))
  {
    hide Grows, ShortConn, ShortCtrl;
    OneHistory(s, TakePorts(s, h, k, temp), k, Take(h, k, temp));
    hide OnlyHistory;
    QuietGrows(s, TakePorts(s, h, k, temp), Take(h, k, temp));
  }

  lemma TakeOverGrows(s: System, k: Socket)
    requires k in s.conns && s.conns[k].stage.Holding? && s.conns[k].stage.handle in s.dispatchers
    ensures Grows(s, TakeAgain(s, k), TakeOver(k))
  {
    hide Grows, ShortConn, ShortCtrl;
    OneHistory(s, TakeAgain(s, k), k, TakeOver(k));
    hide OnlyHistory;
    QuietGrows(s, TakeAgain(s, k), TakeOver(k));
  }

  lemma ListGrows(s: System, k: Socket)
    requires k in s.conns && s.conns[k].stage.Holding?
    ensures Grows(s, ListPorts(s, k), List(k))
  {
    hide Grows, ShortConn, ShortCtrl;
    OneHistory(s, ListPorts(s, k), k, List(k));
    hide OnlyHistory;
    QuietGrows(s, ListPorts(s, k), List(k));
  }

  lemma LaunchGrows(s: System, k: Socket)
    requires Inv(s) && k in s.conns && s.conns[k].stage.Listed?
    ensures Grows(s, InviteStep(s, k), Launch(k))
  {
    hide ConnInv, NamesApart, InviterPorts, Reservations, InviterTallies, Bones, ViewOf, WellFormedController;
    hide Connections, InviterFacts, KeysUsed, InviterSide, TypedConn, Typed, InviteStep;
    var v := ViewOf(s, k);
    Connection(s, k);
    ConnSide(v, s.conns[k]);
    NotYet(v, s.conns[k].stage, NameOf(s.conns[k]), s.conns[k].takenUp);
    ViewDown(s, k);
    LaunchedGrows(s, k);
  }

  lemma LaunchedGrows(s: System, k: Socket)
    requires k in s.conns && s.conns[k].stage.Listed? && k !in s.inviter.out
    ensures Grows(s, InviteStep(s, k), Launch(k))
  {
    hide Grows, ShortConn;
    LaunchedRest(s, k);
    hide InviteStep, ShortCtrl, OutGrows;
    OneHistory(s, InviteStep(s, k), k, Launch(k));
    hide OnlyHistory;
    InviterGrows(s, InviteStep(s, k), Launch(k));
  }

  lemma LaunchedRest(s: System, k: Socket)
    requires k in s.conns && s.conns[k].stage.Listed? && k !in s.inviter.out
    ensures
      var t := InviteStep(s, k);
      && k in t.conns && t.conns == s.conns[k := t.conns[k]] && SameInside(s.conns[k], t.conns[k])
      && t.conns[k].takenUp == s.conns[k].takenUp && t.io == s.io
      && OutGrows(s.inviter.out, t.inviter.out) && t.inviter.node == s.inviter.node
      && (ShortCtrl(s.inviter) ==> ShortCtrl(t.inviter))
  {
    LaunchedShort(s.inviter, s.conns[k].stage.temp, k);
    hide Invite;
  }

  lemma LaunchedShort(c: Controller, temp: Name, k: Socket)
    requires k !in c.out
    ensures
      var d := Invite(c, temp, k);
      && OutGrows(c.out, d.out) && d.node == c.node
      && d.out == c.out[k := [AcceptInvitee(temp, c.node.name)]] && (ShortCtrl(c) ==> ShortCtrl(d))
  {
    var d := Invite(c, temp, k);
    assert [] + [AcceptInvitee(temp, c.node.name)] == [AcceptInvitee(temp, c.node.name)];
    assert d.out == c.out[k := [AcceptInvitee(temp, c.node.name)]];
    assert d.waiting == c.waiting && d.pendingMerges == c.pendingMerges && d.node == c.node;
    hide Invite, ShortWaiting, ShortMerges;
  }

  lemma RekeyGrows(s: System)
    requires s.io.ToRekey? && s.io.k in s.conns
    ensures Grows(s, RekeyStep(s), RekeyPorts)
  {
    hide Grows, ShortCtrl, ShortConn;
    RekeyRest(s);
    hide RekeyStep;
    OneHistory(s, RekeyStep(s), s.io.k, RekeyPorts);
    hide OnlyHistory;
    QuietGrows(s, RekeyStep(s), RekeyPorts);
  }

  lemma RekeyRest(s: System)
    requires s.io.ToRekey? && s.io.k in s.conns
    ensures
      var t, k := RekeyStep(s), s.io.k;
      && k in t.conns && t.conns == s.conns[k := t.conns[k]] && SameInside(s.conns[k], t.conns[k])
      && t.conns[k].takenUp == s.conns[k].takenUp && t.io.ToAdmit?
      && t.inviter.out == s.inviter.out && t.inviter.waiting == s.inviter.waiting
      && t.inviter.pendingMerges == s.inviter.pendingMerges && t.inviter.node == s.inviter.node
  {
  }

  lemma AdmitGrows(s: System)
    requires s.io.ToAdmit? && s.io.k in s.conns && s.io.from in s.inviter.pendingInvitations
    requires WellFormedController(s.inviter)
    ensures Grows(s, AdmitStep(s), AdmitInvitee)
  {
    hide Grows, ShortConn;
    AdmitRest(s);
    hide AdmitStep, WellFormedController, ShortCtrl, OutGrows;
    OneHistory(s, AdmitStep(s), s.io.k, AdmitInvitee);
    hide OnlyHistory;
    InviterGrows(s, AdmitStep(s), AdmitInvitee);
  }

  lemma AdmitParts(s: System)
    requires s.io.ToAdmit? && s.io.k in s.conns && s.io.from in s.inviter.pendingInvitations
    requires WellFormedController(s.inviter)
    ensures
      var t, k, channel := AdmitStep(s), s.io.k, s.inviter.pendingInvitations[s.io.from];
      var taken := s.inviter.(pendingInvitations := s.inviter.pendingInvitations - {s.io.from});
      && channel in taken.out
      && var r := InsertPeer(SetRemote(taken, channel, s.io.invitee), s.io.invitee, channel);
      && t.inviter == r.0 && t.io == ToFlush(k, r.1) && k in t.conns && t.conns == s.conns[k := t.conns[k]]
      && SameInside(s.conns[k], t.conns[k]) && t.conns[k].takenUp == s.conns[k].takenUp
  {
    assert s.inviter.pendingInvitations[s.io.from] in s.inviter.out;
    hide WellFormedController, Controllers.InsertPeer, SetRemote;
  }

  lemma AdmitRest(s: System)
    requires s.io.ToAdmit? && s.io.k in s.conns && s.io.from in s.inviter.pendingInvitations
    requires WellFormedController(s.inviter)
    ensures
      var t, k := AdmitStep(s), s.io.k;
      && k in t.conns && t.conns == s.conns[k := t.conns[k]] && SameInside(s.conns[k], t.conns[k])
      && t.conns[k].takenUp == s.conns[k].takenUp && t.inviter.node == s.inviter.node
      && OutGrows(s.inviter.out, t.inviter.out)
      && (ShortCtrl(s.inviter) ==> ShortCtrl(t.inviter) && ShortIo(t.io))
  {
    AdmitParts(s);
    hide AdmitStep, WellFormedController, SameInside;
    var channel := s.inviter.pendingInvitations[s.io.from];
    var taken := s.inviter.(pendingInvitations := s.inviter.pendingInvitations - {s.io.from});
    InsertedRest(s.inviter, SetRemote(taken, channel, s.io.invitee), s.io.invitee, channel);
    hide OutGrows, ShortCtrl, ShortAll, Controllers.InsertPeer;
  }

  lemma InsertedRest(c: Controller, d: Controller, n: Name, s: Socket)
    requires s in d.out && d.out == c.out && d.waiting == c.waiting && d.pendingMerges == c.pendingMerges
    ensures
      var r := InsertPeer(d, n, s);
      && r.0.node == d.node && OutGrows(c.out, r.0.out)
      && (ShortCtrl(c) ==> ShortCtrl(r.0) && ShortAll(r.1))
  {
    OutStays(c.out);
    ShortParts(c, d);
    InsertedNode(d, n, s);
    if ShortCtrl(c) {
      InsertShort(d, n, s);
    }
    hide OutGrows, ShortCtrl, ShortAll;
  }

  lemma InsertedNode(c: Controller, n: Name, s: Socket)
    requires s in c.out
    ensures InsertPeer(c, n, s).0.node == c.node
  {
  }

  lemma FlushGrows(s: System)
    requires s.io.ToFlush? && s.io.k in s.inviter.out
    ensures Grows(s, FlushStep(s), FlushWaiting)
  {
    hide Grows, ShortConn, ShortCtrl, OutGrows;
    FlushRestOf(s);
    hide FlushStep;
    NoHistory(s, FlushStep(s), FlushWaiting);
    hide OnlyHistory;
    InviterGrows(s, FlushStep(s), FlushWaiting);
  }

  lemma FlushRestOf(s: System)
    requires s.io.ToFlush? && s.io.k in s.inviter.out
    ensures
      var t := FlushStep(s);
      && t.conns == s.conns && t.inviter.node == s.inviter.node && OutGrows(s.inviter.out, t.inviter.out)
      && (ShortCtrl(s.inviter) && ShortAll(s.io.messages) ==> ShortCtrl(t.inviter) && ShortIo(t.io))
  {
    OutStays(s.inviter.out);
    if s.io.messages != [] {
      OutSends(s.inviter, s.io.k, s.io.messages[0]);
      SentShort(s.inviter, s.io.k, s.io.messages);
    }
    FlushParts(s);
    hide OutGrows, FlushStep, ShortCtrl, ShortAll, Send;
  }

  lemma FlushParts(s: System)
    requires s.io.ToFlush? && s.io.k in s.inviter.out
    ensures
      var t := FlushStep(s);
      && t.conns == s.conns
      && if s.io.messages == [] then t.inviter == s.inviter && t.io.AtRest?
         else
           && t.inviter == Send(s.inviter, s.io.k, s.io.messages[0]) && t.inviter.node == s.inviter.node
           && t.io == ToFlush(s.io.k, s.io.messages[1..])
  {
    hide WellFormedController;
  }

  lemma SentShort(c: Controller, k: Socket, messages: seq<Body>)
    requires k in c.out && messages != []
    ensures ShortAll(messages) && ShortCtrl(c) ==> ShortCtrl(Send(c, k, messages[0])) && ShortAll(messages[1..])
  {
    if ShortAll(messages) && ShortCtrl(c) {
      SendShort(c, k, messages[0]);
    }
    hide ShortCtrl, Send;
  }

  lemma MergeGrows(s: System)
    requires s.io.ToMerge? && s.io.k in s.conns && s.io.port in s.inviter.node.ports && WellFormedController(s.inviter)
    ensures Grows(s, MergeStep(s), MergeBridge)
  {
    NodeWellFormed(s.inviter);
    MergeKeepsKeys(s.inviter.node, s.io.port, s.io.from, s.io.connector);
    hide Grows, ShortConn, ShortCtrl, WellFormedController, PortTable.MergePorts, Splice, BridgePeer;
    QuietGrows(s, MergeStep(s), MergeBridge);
  }

  lemma RespondGrows(s: System)
    requires s.io.ToRespond? && s.io.k in s.conns && WellFormedController(s.inviter)
    ensures Grows(s, RespondStep(s), RespondTo)
  {
    hide Grows, ShortConn, ShortCtrl, OutGrows, WellFormedController;
    RespondRest(s);
    hide RespondStep;
    OneHistory(s, RespondStep(s), s.io.k, RespondTo);
    hide OnlyHistory;
    InviterGrows(s, RespondStep(s), RespondTo);
  }

  lemma RespondRest(s: System)
    requires s.io.ToRespond? && s.io.k in s.conns && WellFormedController(s.inviter)
    ensures
      var t, k := RespondStep(s), s.io.k;
      && k in t.conns && t.conns == s.conns[k := t.conns[k]] && SameInside(s.conns[k], t.conns[k])
      && t.conns[k].takenUp == s.conns[k].takenUp && t.inviter.node == s.inviter.node
      && OutGrows(s.inviter.out, t.inviter.out)
      && (ShortCtrl(s.inviter) ==> ShortCtrl(t.inviter)) && !t.io.ToFlush?
  {
    hide ShortCtrl, WellFormedController, AnswerTrack;
    var r := GetPeerChannel(s.inviter, s.io.from);
    OutStays(s.inviter.out);
    if r.Some? {
      PeerHasChannel(s.inviter, s.io.from);
      var m := ResponsePortMerge(s.io.connector, s.io.local);
      OutSends(s.inviter, r.value, m);
      if ShortCtrl(s.inviter) {
        SendShort(s.inviter, r.value, m);
      }
    } else {
      assert s.conns == s.conns[s.io.k := s.conns[s.io.k]];
    }
    hide OutGrows;
  }

  lemma WriteGrows(s: System, p: Name, data: Text)
    requires WellFormedController(s.inviter) && p in s.inviter.node.ports
    ensures Grows(s, WriteAtInviter(s, p, data), WriteOwn(p, data))
  {
    hide Grows, ShortConn, ShortCtrl, WellFormedController, OutGrows;
    WriteKeepsNode(s.inviter, p, data);
    WriteOut(s.inviter, p, data);
    if ShortSystem(s) && |data| <= 91 {
      ForwardShort(s.inviter, p, data);
    }
    WriteParts(s, p, data);
    hide WriteAtInviter, SendUserMessage;
    NoHistory(s, WriteAtInviter(s, p, data), WriteOwn(p, data));
    hide OnlyHistory;
    InviterGrows(s, WriteAtInviter(s, p, data), WriteOwn(p, data));
  }

  lemma WriteParts(s: System, p: Name, data: Text)
    requires WellFormedController(s.inviter) && p in s.inviter.node.ports
    ensures
      var t := WriteAtInviter(s, p, data);
      t.conns == s.conns && t.io == s.io && t.inviter == SendUserMessage(s.inviter, p, data)
  {
    hide WellFormedController, SendUserMessage, Forwarded;
  }

  lemma WriteOut(c: Controller, p: Name, data: Text)
    requires WellFormedController(c) && p in c.node.ports
    ensures OutGrows(c.out, SendUserMessage(c, p, data).out)
  {
    hide WellFormedController;
    var (node, m) := Outgoing(c.node, p, data);
    OutStays(c.out);
    if node in c.peers {
      PeerHasChannel(c, node);
      OutSends(c, c.peers[node], m);
    }
    hide OutGrows;
  }

  lemma ReadGrows(s: System, p: Name)
    requires p in s.inviter.node.ports
    ensures Grows(s, ReadAtInviter(s, p), ReadOwn(p))
  {
    GetKeepsKeys(s.inviter.node, p);
    hide Grows, ShortConn, ShortCtrl, PortTable.GetMessage, Add;
    QuietGrows(s, ReadAtInviter(s, p), ReadOwn(p));
  }

  lemma HearGrows(s: System, k: Socket)
    requires Inv(s) && s.io.AtRest? && k in s.conns && k in s.inviter.out
    requires s.conns[k].takenUp < |Up(s.conns[k], k)| && k in s.inviter.remote && WellFormedController(s.inviter)
    ensures Grows(s, HearAtInviter(s, k, Up(s.conns[k], k)), HearInvitee(k))
  {
    hide Inv, HearAtInviter, WellFormedController, TakeReserved, Sent, PortTable.Accept, Grows, ShortCtrl, ShortConn;
    hide AcceptedSystem, RefusedSystem, TakenSystem, UserSystem;
    InviteeReads(s, k);
    var c, up := s.conns[k], Sent(s.conns[k].ctrl, k);
    var m := up[c.takenUp];
    if c.takenUp == 0 {
      AcceptedShape(s, k, up);
      AcceptedGrows(s, k, c.stage.temp);
    } else if m.RequestPortMerge? {
      TakeFinds(s.inviter, NameOf(c), m.pipe);
      if NameOf(c) in s.inviter.reserved && m.pipe in s.inviter.reserved[NameOf(c)] {
        HearTaken(s, k);
        TakenShape(s, k, up);
        TakenGrows(s, k, m.connector, s.inviter.reserved[NameOf(c)][m.pipe], m.pipe);
      } else {
        RefusedShape(s, k, up);
        RefusedGrows(s, k, m.connector);
      }
    } else {
      UserArrives(s, k);
      AcceptKeepsKeys(s.inviter.node, m.to, m);
      UserShape(s, k, up);
      UserGrows(s, k, Accept(s.inviter.node, m.to, m).value);
    }
  }

  lemma AcceptedGrows(s: System, k: Socket, temp: Name)
    requires k in s.conns && s.io.AtRest?
    ensures Grows(s, AcceptedSystem(s, k, temp), HearInvitee(k))
  {
    hide Grows, ShortConn, ShortCtrl;
    OneHistory(s, AcceptedSystem(s, k, temp), k, HearInvitee(k));
    hide OnlyHistory;
    QuietGrows(s, AcceptedSystem(s, k, temp), HearInvitee(k));
  }

  lemma TakenGrows(s: System, k: Socket, p: Name, r: Name, pipe: Text)
    requires k in s.conns && r in s.ends && s.io.AtRest?
    requires NameOf(s.conns[k]) in s.inviter.reserved && pipe in s.inviter.reserved[NameOf(s.conns[k])]
    ensures Grows(s, TakenSystem(s, k, p, r, pipe), HearInvitee(k))
  {
    hide Grows, ShortConn, ShortCtrl, Mark, Without;
    OneHistory(s, TakenSystem(s, k, p, r, pipe), k, HearInvitee(k));
    hide OnlyHistory;
    QuietGrows(s, TakenSystem(s, k, p, r, pipe), HearInvitee(k));
  }

  lemma RefusedGrows(s: System, k: Socket, p: Name)
    requires k in s.conns && s.io.AtRest?
    ensures Grows(s, RefusedSystem(s, k, p), HearInvitee(k))
  {
    hide Grows, ShortConn, ShortCtrl, Mark;
    OneHistory(s, RefusedSystem(s, k, p), k, HearInvitee(k));
    hide OnlyHistory;
    QuietGrows(s, RefusedSystem(s, k, p), HearInvitee(k));
  }

  lemma UserGrows(s: System, k: Socket, n: Node)
    requires k in s.conns && s.io.AtRest? && n.ports.Keys == s.inviter.node.ports.Keys
    ensures Grows(s, UserSystem(s, k, n), HearInvitee(k))
  {
    hide Grows, ShortConn, ShortCtrl;
    OneHistory(s, UserSystem(s, k, n), k, HearInvitee(k));
    hide OnlyHistory;
    QuietGrows(s, UserSystem(s, k, n), HearInvitee(k));
  }

  /** The user message the inviter reads next finds its port. */
  lemma UserArrives(s: System, k: Socket)
    requires Inv(s) && k in s.conns && s.conns[k].takenUp < |Sent(s.conns[k].ctrl, k)|
    requires Sent(s.conns[k].ctrl, k)[s.conns[k].takenUp].UserMessage? && WellFormed(s.inviter.node)
    ensures
      var m := Sent(s.conns[k].ctrl, k)[s.conns[k].takenUp];
      Accept(s.inviter.node, m.to, m).Done?
  {
    hide Inv, Sent, Sound;
    var m := Sent(s.conns[k].ctrl, k)[s.conns[k].takenUp];
    UserEnd(s, k, m);
  }

  lemma AtInviteeGrows(s: System, k: Socket, step: InviteeStep)
    requires Inv(s) && Typed(s) && Enabled(s, AtInvitee(k, step))
    ensures Grows(s, Apply(s, AtInvitee(k, step)), AtInvitee(k, step))
  {
    hide Inv, ConnInv, ViewOf, Connections, InviterFacts, InviterTallies, InviterPorts, Bones, TypedConn, CanAtInvitee;
    hide WellFormedController, Onward, DoAtInvitee, Down, ShortConn, ShortCtrl, Sent;
    InvConnections(s);
    Connection(s, k);
    ViewIncoming(s, k);
    InviteeStepKeeps(ViewOf(s, k), s.conns[k], step);
    InviteeStepGoes(ViewOf(s, k), s.conns[k], step);
    OutStays(s.inviter.out);
    hide OutGrows, NewAt;
  }

  /** Every step leaves the channels as they were or longer, reads at most one message, forgets no port,
      and puts on the channels short messages only, if the application is brief. */
  lemma StepGrows(s: System, step: Step)
    requires Inv(s) && Typed(s) && Enabled(s, step)
    ensures Grows(s, Apply(s, step), step)
  {
    hide Inv, WellFormedController, TypedConn, CanAtInvitee, Grows, WellFormed;
    hide AttachPipe, InviteStep, WriteAtInviter, ReadAtInviter, HearAtInviter;
    hide RekeyStep, AdmitStep, FlushStep, MergeStep, RespondStep, NewConn;
    ChannelKeys(s.inviter);
    NodeWellFormed(s.inviter);
    match step
    case AtInvitee(k, st) => AtInviteeGrows(s, k, st);
    case Connect(k, b) => ConnectGrows(s, k, b);
    case Attach(h, pipe, l, r) => AttachGrows(s, h, pipe, l, r);
    case Launch(k) => LaunchGrows(s, k);
    case WriteOwn(p, data) => WriteGrows(s, p, data);
    case ReadOwn(p) => ReadGrows(s, p);
    case HearInvitee(k) => HearGrows(s, k);
    case RekeyPorts => RekeyGrows(s);
    case AdmitInvitee => AdmitGrows(s);
    case FlushWaiting => FlushGrows(s);
    case MergeBridge => MergeGrows(s);
    case RespondTo => RespondGrows(s);
    case _ => PreparedGrows(s, step);
  }
}
