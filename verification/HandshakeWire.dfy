// The handshake on the wire: messages are bytes, decoded by the receiver, and a write reads the two
// fields of a port's peer one after the other. A message whose fields do not belong together is a
// stray; strays are kept apart from the other messages of a channel, each with its place among them.

module HandshakeWire {
  import opened Bytes
  import opened Names
  import opened Bodies
  import opened PortTable
  import opened Controllers
  import opened Handshake
  import opened Streams

  /** A thread that has read the port field of a port's peer, and not the node field yet. */
  datatype Writer = Writer(
    side: Option<Socket>,   // the invitee it runs in, if not the inviter
    port: Name,
    to: Name,
    data: Text,
    faced: Name)            // history: the node the port faced then

  datatype Wire = Wire(
    s: System,
    strayUp: map<Socket, seq<Stray>>,
    strayDown: map<Socket, seq<Stray>>,
    readUp: map<Socket, nat>,             // how many bytes the inviter has read of each invitee
    readDown: map<Socket, nat>,           // and each invitee of the inviter
    writers: map<nat, Writer>)

  function Start(a: Name): Wire {
    Wire(Init(a), map[], map[], map[], map[], map[])
  }

  function StraysOf(strays: map<Socket, seq<Stray>>, k: Socket): seq<Stray> {
    if k in strays then strays[k] else []
  }

  function Position(read: map<Socket, nat>, k: Socket): nat {
    if k in read then read[k] else 0
  }

  /** Everything sent to the inviter by invitee `k`, and everything sent to it. */
  function UpChannel(w: Wire, k: Socket): seq<Body>
    requires k in w.s.conns
  {
    Channel(Up(w.s.conns[k], k), StraysOf(w.strayUp, k))
  }

  function DownChannel(w: Wire, k: Socket): seq<Body> {
    Channel(Down(w.s, k), StraysOf(w.strayDown, k))
  }

  datatype WireStep =
    | Do(step: Step)       // whatever neither writes a user message nor reads a channel
    | ReadPort(i: nat, side: Option<Socket>, port: Name, data: Text)
    | Forward(i: nat)      // reads the node, and hands the message on
    | HearUp(k: Socket)
    | HearDown(k: Socket)

  predicate Talks(step: Step) {
    match step
    case AtInvitee(_, st) => st.Hear? || st.Write?
    case HearInvitee(_) => true
    case WriteOwn(_, _) => true
    case _ => false
  }

  predicate Unused(s: System, p: Name) {
    p !in s.inviter.node.ports && forall k :: k in s.conns ==> p !in s.conns[k].ctrl.node.ports
  }

  /** The names drawn are new in all processes. */
  predicate DrawsUnused(s: System, step: Step) {
    match step
    case AtInvitee(_, Extract(_, p0, p1)) => Unused(s, p0) && Unused(s, p1)
    case Attach(_, _, l, r) => Unused(s, l) && Unused(s, r)
    case _ => true
  }

  /** The application has a handle of the port. */
  predicate HasHandle(s: System, side: Option<Socket>, p: Name) {
    match side
    case None => OwnPort(s, p)
    case Some(k) => k in s.conns && p in s.conns[k].track && p in s.conns[k].ctrl.node.ports
  }

  function NodeAt(s: System, side: Option<Socket>): Node
    requires side.Some? ==> side.value in s.conns
  {
    if side.None? then s.inviter.node else s.conns[side.value].ctrl.node
  }

  predicate WireEnabled(w: Wire, step: WireStep)
    requires Typed(w.s)
  {
    !w.s.crashed &&
    match step
    case Do(st) => !Talks(st) && Enabled(w.s, st) && DrawsUnused(w.s, st)
    case ReadPort(i, side, p, _) => i !in w.writers && HasHandle(w.s, side, p)
    case Forward(i) => i in w.writers && HasHandle(w.s, w.writers[i].side, w.writers[i].port)
    case HearUp(k) =>
      k in w.s.conns && w.s.io.AtRest? && k in w.s.inviter.remote
      && !HearAt(UpChannel(w, k), Position(w.readUp, k)).Silent?
    case HearDown(k) =>
      k in w.s.conns && w.s.conns[k].io.Resting?
      && !HearAt(DownChannel(w, k), Position(w.readDown, k)).Silent?
  }

  /** The messages with what was decoded in place of the next one. */
  function Decoded(messages: seq<Body>, taken: nat, m: Body): (heard: seq<Body>)
    ensures taken < |heard| && heard[taken] == m
  {
    if taken < |messages| then messages[taken := m] else seq(taken + 1, i => m)
  }

  function HearUpStep(w: Wire, k: Socket): Wire
    requires Typed(w.s) && k in w.s.conns && k in w.s.inviter.remote
    requires !HearAt(UpChannel(w, k), Position(w.readUp, k)).Silent?
  {
    var heard := HearAt(UpChannel(w, k), Position(w.readUp, k));
    if heard.Broken? then w.(s := Crashed(w.s))
    else
      var c := w.s.conns[k];
      w.(s := HearAtInviter(w.s, k, Decoded(Up(c, k), c.takenUp, heard.body)), readUp := w.readUp[k := heard.next])
  }

  function HearDownStep(w: Wire, k: Socket): Wire
    requires Typed(w.s) && k in w.s.conns
    requires !HearAt(DownChannel(w, k), Position(w.readDown, k)).Silent?
  {
    var heard := HearAt(DownChannel(w, k), Position(w.readDown, k));
    if heard.Broken? then w.(s := Crashed(w.s))
    else
      var c := w.s.conns[k];
      var r := HearAtInvitee(c, k, Decoded(Down(w.s, k), c.takenDown, heard.body));
      w.(s := if r.Crash? then Crashed(w.s) else WithConn(w.s, k, r.value), readDown := w.readDown[k := heard.next])
  }

  function Message(x: Writer): Body {
    UserMessage(x.port, x.to, x.data)
  }

  /** The port field read before is still that of the port. */
  predicate Whole(w: Wire, x: Writer)
    requires HasHandle(w.s, x.side, x.port)
  {
    x.to == NodeAt(w.s, x.side).ports[x.port].peerPort
  }

  function WriteWhole(s: System, x: Writer): System
    requires Typed(s) && HasHandle(s, x.side, x.port)
  {
    match x.side
    case None => WriteAtInviter(s, x.port, x.data)
    case Some(k) => WithConn(s, k, WriteAtInvitee(s.conns[k], x.port, x.data))
  }

  function AddStray(strays: map<Socket, seq<Stray>>, k: Socket, place: nat, m: Body): map<Socket, seq<Stray>> {
    strays[k := StraysOf(strays, k) + [Stray(place, m)]]
  }

  /** The message goes to the node the port faces now, with the port name read before. */
  function WriteTorn(w: Wire, x: Writer): Wire
    requires HasHandle(w.s, x.side, x.port)
  {
    var node := NodeAt(w.s, x.side).ports[x.port].peerNode;
    if node == NodeAt(w.s, x.side).name then w
    else
      match x.side
      case None =>
        var peer := GetPeerChannel(w.s.inviter, node);
        if peer.Some? then w.(strayDown := AddStray(w.strayDown, peer.value, |Down(w.s, peer.value)|, Message(x)))
        else w.(s := w.s.(inviter := LetWait(w.s.inviter, node, Message(x))))
      case Some(k) =>
        var c := w.s.conns[k];
        if GetPeerChannel(c.ctrl, node).Some?
        then w.(strayUp := AddStray(w.strayUp, k, |Up(c, k)|, Message(x)))
        else w.(s := WithConn(w.s, k, c.(ctrl := LetWait(c.ctrl, node, Message(x)))))
  }

  function ForwardStep(w: Wire, i: nat): Wire
    requires Typed(w.s) && i in w.writers && HasHandle(w.s, w.writers[i].side, w.writers[i].port)
  {
    var x := w.writers[i];
    var rest := w.(writers := w.writers - {i});
    if Whole(w, x) then rest.(s := WriteWhole(w.s, x)) else WriteTorn(rest, x)
  }

  function ReadPortStep(w: Wire, i: nat, side: Option<Socket>, p: Name, data: Text): Wire
    requires HasHandle(w.s, side, p)
  {
    var port := NodeAt(w.s, side).ports[p];
    w.(writers := w.writers[i := Writer(side, p, port.peerPort, data, port.peerNode)])
  }

  function WireApply(w: Wire, step: WireStep): Wire
    requires Typed(w.s) && WireEnabled(w, step)
  {
    match step
    case Do(st) => w.(s := Apply(w.s, st))
    case ReadPort(i, side, p, data) => ReadPortStep(w, i, side, p, data)
    case Forward(i) => ForwardStep(w, i)
    case HearUp(k) => HearUpStep(w, k)
    case HearDown(k) => HearDownStep(w, k)
  }

  /** The state after a run, if every step of it could be taken. */
  function WireRun(a: Name, steps: seq<WireStep>): Option<Wire>
    decreases |steps|, 1
  {
    if steps == [] then Some(Start(a)) else LastWireStep(a, steps)
  }

  function LastWireStep(a: Name, steps: seq<WireStep>): Option<Wire>
    requires steps != []
    decreases |steps|, 0
  {
    var before := WireRun(a, steps[..|steps| - 1]);
    var step := steps[|steps| - 1];
    if before.Some? && Typed(before.value.s) && WireEnabled(before.value, step)
    then Some(WireApply(before.value, step)) else None
  }
}
