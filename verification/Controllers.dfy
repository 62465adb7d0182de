// What a node controller does, lock scope by lock scope, as functions of its state.

module Controllers {
  import opened Bytes
  import opened Names
  import opened Bodies
  import opened PortTable

  type Text = seq<byte>

  type Socket = nat

  /** A request that an extracted port be merged with the inviter's port attached under `pipe`. */
  datatype Merge = Merge(pipe: Text, port: Name)

  datatype Controller = Controller(
    node: Node,
    inviterName: Name,
    inviterChannel: Option<Socket>,
    remote: map<Socket, Name>,                // the remote name of every channel
    out: map<Socket, seq<Body>>,              // everything ever sent on every channel
    peers: map<Name, Socket>,
    waiting: map<Name, seq<Body>>,            // messages for nodes that are no peers yet
    reserved: map<Name, map<Text, Name>>,
    pendingMerges: seq<Merge>,
    pendingInvitations: map<Name, Socket>)

  predicate WellFormedController(c: Controller) {
    && WellFormed(c.node) && c.out.Keys == c.remote.Keys
    && (forall n :: n in c.peers ==> c.peers[n] in c.out)
    && (forall n :: n in c.pendingInvitations ==> c.pendingInvitations[n] in c.out)
    && (c.inviterChannel.Some? ==> c.inviterChannel.value in c.out)
    && (forall n, x :: n in c.reserved && x in c.reserved[n] ==> c.reserved[n][x] in c.node.ports)
    && (forall m :: m in c.pendingMerges ==> m.port in c.node.ports)
  }

  function NewController(name: Name): Controller {
    Controller(NewNode(name), NONE, None, map[], map[], map[], map[], map[], [], map[])
  }

  /** Two names that were not drawn before. */
  predicate FreshPorts(n: Node, p: Name, q: Name) {
    p !in n.ports && q !in n.ports && p != q && p != NONE && q != NONE
  }

  function WithPair(ctrl: Controller, p: Name, q: Name): Controller
    requires FreshPorts(ctrl.node, p, q)
  {
    ctrl.(node := CreatePair(ctrl.node, p, q).1)
  }

  function Lookup<K, V>(m: map<K, V>, k: K): Option<V> {
    if k in m then Some(m[k]) else None
  }

  function NewChannel(c: Controller, s: Socket): Controller {
    c.(remote := c.remote[s := NONE], out := c.out[s := []])
  }

  function Send(c: Controller, s: Socket, message: Body): (d: Controller)
    requires s in c.out
    ensures WellFormedController(c) ==> WellFormedController(d)
  {
    c.(out := c.out[s := c.out[s] + [message]])
  }

  function SendAll(c: Controller, s: Socket, messages: seq<Body>): (d: Controller)
    requires s in c.out
    ensures WellFormedController(c) ==> WellFormedController(d)
  {
    c.(out := c.out[s := c.out[s] + messages])
  }

  lemma SendNone(c: Controller, s: Socket)
    requires s in c.out
    ensures SendAll(c, s, []) == c
  {
    assert c.out[s] + [] == c.out[s];
    assert c.out == c.out[s := c.out[s]];
  }

  lemma SendOneMore(c: Controller, s: Socket, messages: seq<Body>)
    requires s in c.out && messages != []
    ensures SendAll(Send(c, s, messages[0]), s, messages[1..]) == SendAll(c, s, messages)
  {
    assert c.out[s] + [messages[0]] + messages[1..] == c.out[s] + messages;
  }

  function GetPeerChannel(c: Controller, name: Name): Option<Socket> {
    Lookup(c.peers, name)
  }

  function GetInviterChannel(c: Controller): Option<Socket> {
    GetPeerChannel(c, c.inviterName)
  }

  /** While the pending merges are locked: the inviter's channel, or the request is put off. */
  function RequestOrPend(c: Controller, m: Merge): (Controller, Option<Socket>) {
    var inviter := GetInviterChannel(c);
    (if inviter.None? then c.(pendingMerges := c.pendingMerges + [m]) else c, inviter)
  }

  function RequestBody(m: Merge): Body {
    RequestPortMerge(m.port, m.pipe)
  }

  function MergePortIntoInviter(c: Controller, m: Merge): Controller
    requires WellFormedController(c)
  {
    var (c1, inviter) := RequestOrPend(c, m);
    if inviter.None? then c1 else Send(c1, inviter.value, RequestBody(m))
  }

  function SetRemote(c: Controller, s: Socket, name: Name): (d: Controller)
    requires s in c.out
    ensures d.out == c.out
    ensures WellFormedController(c) ==> WellFormedController(d)
  {
    c.(remote := c.remote[s := name])
  }

  /** The scope of the peers lock when a peer is added, and the messages taken from its queue. A peer
      that is known already is ignored. */
  function InsertPeer(c: Controller, name: Name, s: Socket): (r: (Controller, seq<Body>))
    requires s in c.out
    ensures r.0.out == c.out
    ensures WellFormedController(c) ==> WellFormedController(r.0)
  {
    if name in c.peers then (c, [])
    else if name in c.waiting then
      (c.(peers := c.peers[name := s], waiting := c.waiting - {name}), c.waiting[name])
    else (c.(peers := c.peers[name := s]), [])
  }

  function AddPeer(c: Controller, name: Name, s: Socket): (d: Controller)
    requires WellFormedController(c) && s in c.out
    ensures WellFormedController(d)
  {
    var (c1, messages) := InsertPeer(SetRemote(c, s, name), name, s);
    SendAll(c1, s, messages)
  }

  function EraseAll(n: Node, ports: set<Name>): Node {
    n.(live := n.live - ports)
  }

  /** The scope of the peers lock when a peer is dropped. */
  function ForgetPeer(c: Controller, name: Name): Controller {
    c.(peers := c.peers - {name}, waiting := c.waiting - {name},
       pendingInvitations := c.pendingInvitations - {name})
  }

  function DropPeer(c: Controller, name: Name): Controller
    requires WellFormedController(c)
  {
    var c1 := ForgetPeer(c, name);
    if name !in c1.reserved then c1
    else c1.(reserved := c1.reserved - {name}, node := EraseAll(c1.node, c1.reserved[name].Values))
  }

  /** Ports are listed under a name unless the name has one already. */
  function EmplaceAll(m: map<Text, Name>, attached: map<Text, Name>): map<Text, Name> {
    attached + m
  }

  function Reserve(c: Controller, temp: Name, attached: map<Text, Name>): Controller {
    var before := if temp in c.reserved then c.reserved[temp] else map[];
    c.(reserved := c.reserved[temp := EmplaceAll(before, attached)])
  }

  /** Makes the channel to the invitee, known by a temporary name until it accepts. */
  function Invite(c: Controller, temp: Name, s: Socket): Controller {
    var c1 := NewChannel(c, s);
    var c2 := if temp in c1.pendingInvitations then c1
              else c1.(pendingInvitations := c1.pendingInvitations[temp := s]);
    Send(SetRemote(c2, s, temp), s, AcceptInvitee(temp, c.node.name))
  }

  function SendInvitation(c: Controller, temp: Name, s: Socket, attached: map<Text, Name>): Controller {
    Invite(Reserve(c, temp, attached), temp, s)
  }

  function AcceptInvitationOn(c: Controller, s: Socket): Controller {
    NewChannel(c, s).(inviterName := NONE, inviterChannel := Some(s))
  }

  /** The scope of the reserved-ports lock when a merge is requested: the port, no longer reserved. */
  function TakeReserved(c: Controller, from: Name, pipe: Text): (Controller, Option<Name>) {
    if from !in c.reserved || pipe !in c.reserved[from] then (c, None)
    else
      var left := c.reserved[from] - {pipe};
      (c.(reserved := if left == map[] then c.reserved - {from} else c.reserved[from := left]),
       Some(c.reserved[from][pipe]))
  }

  function MergeAt(c: Controller, port: Name, from: Name, connector: Name): Controller
    requires WellFormedController(c) && port in c.node.ports
  {
    c.(node := MergePorts(c.node, port, from, connector).1)
  }

  /** There must be a channel to the node that asked. */
  function Respond(c: Controller, from: Name, connector: Name, local: Name): Outcome<Controller>
    requires WellFormedController(c)
  {
    var peer := GetPeerChannel(c, from);
    if peer.None? then Crash else Done(Send(c, peer.value, ResponsePortMerge(connector, local)))
  }

  function OnRequestPortMerge(c: Controller, from: Name, connector: Name, pipe: Text): Outcome<Controller>
    requires WellFormedController(c)
  {
    var (c1, port) := TakeReserved(c, from, pipe);
    if port.None? then Done(c1)
    else Respond(MergeAt(c1, port.value, from, connector), from, connector, BridgePeer(c1.node, port.value))
  }

  /** The scope of the reserved-ports lock when an invitee accepts: its ports go under its real name.
      If that name has ports already, the invitee's are lost. */
  function Rekey(c: Controller, temp: Name, name: Name): Controller {
    if temp !in c.reserved then c
    else if name in c.reserved then c.(reserved := c.reserved - {temp})
    else c.(reserved := c.reserved[name := c.reserved[temp]] - {temp})
  }

  /** The invitee's channel is no longer pending; it becomes a peer. */
  function Admit(c: Controller, temp: Name, name: Name): Controller
    requires WellFormedController(c) && temp in c.pendingInvitations
  {
    AddPeer(c.(pendingInvitations := c.pendingInvitations - {temp}), name, c.pendingInvitations[temp])
  }

  function OnAcceptInvitation(c: Controller, from: Name, token: Name, invitee: Name): Controller
    requires WellFormedController(c)
  {
    if from !in c.pendingInvitations || token != from then DropPeer(c, from)
    else Admit(Rekey(c, from, invitee), from, invitee)
  }

  /** Names the inviter, and answers on its channel. */
  function NameInviter(c: Controller, inviter: Name): (d: Controller)
    ensures WellFormedController(c) ==> WellFormedController(d)
  {
    c.(inviterName := inviter)
  }

  function AnswerInviter(c: Controller, inviter: Name, token: Name): (d: Controller)
    requires WellFormedController(c) && c.inviterChannel.Some?
    ensures WellFormedController(d) && d.inviterChannel == c.inviterChannel
  {
    var s := c.inviterChannel.value;
    Send(SetRemote(c, s, inviter), s, AcceptInvitation(token, c.node.name))
  }

  /** The scope of the pending-merges lock when they are handled. */
  function SwapPending(c: Controller): (Controller, seq<Merge>) {
    (c.(pendingMerges := []), c.pendingMerges)
  }

  function RequestBodies(merges: seq<Merge>): (bodies: seq<Body>)
    ensures |bodies| == |merges|
    ensures forall i :: 0 <= i < |merges| ==> bodies[i] == RequestBody(merges[i])
  {
    seq(|merges|, i requires 0 <= i < |merges| => RequestBody(merges[i]))
  }

  /** Every put-off request is sent; without a channel to the inviter that crashes. */
  function HandlePendingMergePort(c: Controller): Outcome<Controller>
    requires WellFormedController(c)
  {
    var (c1, merges) := SwapPending(c);
    var inviter := GetInviterChannel(c1);
    if merges == [] then Done(c1)
    else if inviter.None? then Crash
    else Done(SendAll(c1, inviter.value, RequestBodies(merges)))
  }

  function OnAcceptInvitee(c: Controller, inviter: Name, token: Name): Outcome<Controller>
    requires WellFormedController(c)
  {
    if c.inviterChannel.None? then Crash
    else
      var c1 := AnswerInviter(NameInviter(c, inviter), inviter, token);
      HandlePendingMergePort(AddPeer(c1, inviter, c.inviterChannel.value))
  }

  function OnResponsePortMerge(c: Controller, from: Name, connector: Name, port: Name): Outcome<Controller>
    requires WellFormedController(c)
  {
    var r := MergePortsResponse(c.node, connector, from, port);
    if r.Crash? then Crash else Done(c.(node := r.value.1))
  }

  function OnUserMessage(c: Controller, message: Body): Outcome<Controller>
    requires WellFormedController(c) && message.UserMessage?
  {
    var r := Accept(c.node, message.to, message);
    if r.Crash? then Crash else Done(c.(node := r.value))
  }

  function LetWait(c: Controller, node: Name, message: Body): Controller {
    var queue := if node in c.waiting then c.waiting[node] else [];
    c.(waiting := c.waiting[node := queue + [message]])
  }

  /** A message for a node that is no peer yet waits. */
  function SendPeerEvent(c: Controller, node: Name, message: Body): Controller
    requires WellFormedController(c)
  {
    var peer := GetPeerChannel(c, node);
    if peer.Some? then Send(c, peer.value, message) else LetWait(c, node, message)
  }

  /** A message for this node itself is dropped. */
  function ForwardEvent(c: Controller, node: Name, message: Body): Controller
    requires WellFormedController(c)
  {
    if node == c.node.name then c else SendPeerEvent(c, node, message)
  }

  function SendUserMessage(c: Controller, port: Name, data: Text): Controller
    requires WellFormedController(c) && port in c.node.ports
  {
    var (node, message) := Outgoing(c.node, port, data);
    ForwardEvent(c, node, message)
  }

  function GetUserMessage(c: Controller, port: Name): (Option<Body>, Controller)
    requires port in c.node.ports
  {
    var (m, n) := GetMessage(c.node, port);
    (m, c.(node := n))
  }

  /** A received message goes to its handler, with the remote name of its channel. */
  function OnChannelMessage(c: Controller, s: Socket, message: Body): Outcome<Controller>
    requires WellFormedController(c) && s in c.remote
  {
    var from := c.remote[s];
    match message
    case AcceptInvitation(token, invitee) => Done(OnAcceptInvitation(c, from, token, invitee))
    case AcceptInvitee(token, inviter) => OnAcceptInvitee(c, inviter, token)
    case RequestPortMerge(connector, pipe) => OnRequestPortMerge(c, from, connector, pipe)
    case ResponsePortMerge(connector, port) => OnResponsePortMerge(c, from, connector, port)
    case UserMessage(_, _, _) => OnUserMessage(c, message)
  }
}
