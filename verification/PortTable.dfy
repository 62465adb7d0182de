// The port table of a node: what its operations do to the ports and to the reverse index.

module PortTable {
  import opened Bytes
  import opened Names
  import opened Bodies

  /** A port object. It outlives its entry in the table, because references to it do. */
  datatype Port = Port(initialized: bool, peerNode: Name, peerPort: Name, queue: seq<Body>)

  /** `live` are the names in the table; `index` has (n, q, p) when p is listed under peer q of node n. */
  datatype Node = Node(name: Name, ports: map<Name, Port>, live: set<Name>, index: set<(Name, Name, Name)>)

  datatype Status = OK | PortUnknown | PortExists | StateUnexpected

  /** A null pointer is dereferenced, or not. */
  datatype Outcome<+T> = Done(value: T) | Crash

  predicate WellFormed(n: Node) {
    && n.live <= n.ports.Keys
    && (forall e :: e in n.index ==> e.2 in n.ports)
  }

  predicate HasPeer(n: Node, p: Name, node: Name, port: Name) {
    p in n.ports && n.ports[p].initialized && n.ports[p].peerNode == node && n.ports[p].peerPort == port
  }

  /** The names drawn at random: one may hit a name in the table, but not that of an erased port. */
  predicate Drawable(n: Node, p: Name) {
    p in n.ports ==> p in n.live
  }

  function NewNode(name: Name): Node {
    Node(name, map[], {}, {})
  }

  function AddPort(n: Node, p: Name): (r: (Status, Node)) {
    if p in n.live then (PortExists, n)
    else (OK, n.(ports := n.ports[p := Port(false, NONE, NONE, [])], live := n.live + {p}))
  }

  function UpdatePeer(n: Node, p: Name, node: Name, port: Name): Node
    requires p in n.ports
  {
    var n1 := n.(ports := n.ports[p := n.ports[p].(peerNode := node, peerPort := port)]);
    if port == NONE then n1 else n1.(index := n1.index + {(node, port, p)})
  }

  function InitializePort(n: Node, p: Name, node: Name, port: Name): (r: (Status, Node))
    requires p in n.ports
  {
    if n.ports[p].initialized then (StateUnexpected, n)
    else (OK, UpdatePeer(n.(ports := n.ports[p := n.ports[p].(initialized := true)]), p, node, port))
  }

  /** The pair stays half made when a name is taken. */
  function CreatePair(n: Node, p0: Name, p1: Name): (r: (Status, Node))
    requires Drawable(n, p0) && Drawable(n, p1)
  {
    var a := AddPort(n, p0);
    if a.0 != OK then a
    else
      var b := AddPort(a.1, p1);
      if b.0 != OK then b
      else
        var c := InitializePort(b.1, p0, n.name, p1);
        if c.0 != OK then c else InitializePort(c.1, p1, n.name, p0)
  }

  function ErasePort(n: Node, p: Name): Node {
    n.(live := n.live - {p})
  }

  /** All entries under peer `port` of node `node` go. */
  function DropIndex(index: set<(Name, Name, Name)>, node: Name, port: Name): set<(Name, Name, Name)> {
    set e | e in index && !(e.0 == node && e.1 == port)
  }

  /** The local peer of the bridge half `r`. */
  function BridgePeer(n: Node, r: Name): Name
    requires r in n.ports
  {
    n.ports[r].peerPort
  }

  /** `r` is erased and its peer is told to face `port` of `node` instead. */
  function MergePorts(n: Node, r: Name, node: Name, port: Name): (s: (Status, Node))
    requires WellFormed(n) && r in n.ports
  {
    var l := BridgePeer(n, r);
    var n1 := ErasePort(n, r);
    if l !in n1.live then (PortUnknown, n1)
    else (OK, UpdatePeer(n1.(index := DropIndex(n1.index, n1.ports[l].peerNode, r)), l, node, port))
  }

  /** The reverse index leads from `p` to its other half; a missing entry gives a null port. */
  function MergePortsResponse(n: Node, p: Name, node: Name, port: Name): Outcome<(Status, Node)>
    requires WellFormed(n)
  {
    if p !in n.live then Done((PortUnknown, n))
    else if (n.name, p, n.ports[p].peerPort) !in n.index then Crash
    else Done((OK, MergePorts(n, n.ports[p].peerPort, node, port).1))
  }

  /** Where a message written to `p` goes. */
  function Outgoing(n: Node, p: Name, data: seq<byte>): (Name, Body)
    requires p in n.ports
  {
    (n.ports[p].peerNode, UserMessage(p, n.ports[p].peerPort, data))
  }

  /** A message for a port that is not in the table meets a null port. */
  function Accept(n: Node, to: Name, message: Body): Outcome<Node>
    requires WellFormed(n)
  {
    if to !in n.live then Crash
    else Done(n.(ports := n.ports[to := n.ports[to].(queue := n.ports[to].queue + [message])]))
  }

  datatype Option<+T> = None | Some(value: T)

  /** The last message that came in, if any. */
  function GetMessage(n: Node, p: Name): (Option<Body>, Node)
    requires p in n.ports
  {
    var queue := n.ports[p].queue;
    if queue == [] then (None, n)
    else
      (Some(queue[|queue| - 1]),
       n.(ports := n.ports[p := n.ports[p].(queue := queue[..|queue| - 1])]))
  }

  /** The reverse index agrees with the table: every live port with a peer is listed under it, and a
      live port is listed under no other peer. */
  ghost predicate IndexAgrees(n: Node) {
    && (forall p :: p in n.live && p in n.ports && n.ports[p].initialized && n.ports[p].peerPort != NONE ==>
          (n.ports[p].peerNode, n.ports[p].peerPort, p) in n.index)
    && (forall e :: e in n.index && e.2 in n.live ==> HasPeer(n, e.2, e.0, e.1) && e.1 != NONE)
  }

  /** A live port with a live local peer is that port's peer. */
  ghost predicate LocalPairs(n: Node) {
    forall p, q {:trigger HasPeer(n, p, n.name, q)} ::
      p in n.live && q in n.live && HasPeer(n, p, n.name, q) ==> HasPeer(n, q, n.name, p)
  }

  /** Local peers exist, or did. */
  ghost predicate Closed(n: Node) {
    forall p, q {:trigger HasPeer(n, p, n.name, q)} :: HasPeer(n, p, n.name, q) ==> q in n.ports
  }

  ghost predicate Sound(n: Node) {
    WellFormed(n) && IndexAgrees(n) && LocalPairs(n) && Closed(n)
  }

  /** What a pair that is made looks like. */
  lemma CreatePairMakes(n: Node, p0: Name, p1: Name)
    requires WellFormed(n) && Drawable(n, p0) && Drawable(n, p1) && p0 != NONE && p1 != NONE
    ensures
      var (status, n') := CreatePair(n, p0, p1);
      && (status == OK <==> p0 !in n.live && p1 !in n.live && p0 != p1)
      && (status == OK ==>
            n' == Node(n.name, n.ports[p0 := Port(true, n.name, p1, [])][p1 := Port(true, n.name, p0, [])],
                       n.live + {p0, p1}, n.index + {(n.name, p1, p0), (n.name, p0, p1)}))
      && (status != OK ==>
            n' == if p0 in n.live then n
                  else n.(ports := n.ports[p0 := Port(false, NONE, NONE, [])], live := n.live + {p0}))
  {
    var (status, n') := CreatePair(n, p0, p1);
    if status == OK {
      assert n'.ports == n.ports[p0 := Port(true, n.name, p1, [])][p1 := Port(true, n.name, p0, [])];
      assert n'.live == n.live + {p0, p1};
      assert n'.index == n.index + {(n.name, p1, p0), (n.name, p0, p1)};
    }
  }

  lemma CreatePairIsSound(n: Node, p0: Name, p1: Name)
    requires Sound(n) && Drawable(n, p0) && Drawable(n, p1) && p0 != NONE && p1 != NONE
    ensures Sound(CreatePair(n, p0, p1).1)
  {
    CreatePairMakes(n, p0, p1);
    hide CreatePair;
    var n' := CreatePair(n, p0, p1).1;
    forall p, q | HasPeer(n', p, n.name, q)
      ensures q in n'.ports
      ensures p in n'.live && q in n'.live ==> HasPeer(n', q, n.name, p)
    {
      if p != p0 && p != p1 {
        assert HasPeer(n, p, n.name, q);
      } else if p in n.ports {
        assert HasPeer(n, p, n.name, q);
      }
    }
  }

  /** Merging keeps the reverse index right exactly when nothing but the bridge half's peer faced the
      bridge half, or faces the new address already. */
  lemma MergeKeepsIndexExactly(n: Node, r: Name, node: Name, port: Name)
    requires WellFormed(n) && IndexAgrees(n) && r in n.ports && port != NONE
    requires MergePorts(n, r, node, port).0 == OK
    requires n.ports[BridgePeer(n, r)].initialized && n.ports[BridgePeer(n, r)].peerPort != NONE && r != NONE
    ensures
      var l := BridgePeer(n, r);
      var there := n.ports[l].peerNode;
      IndexAgrees(MergePorts(n, r, node, port).1)
      <==> && (HasPeer(n, l, there, r) || HasPeer(n, l, node, port))
           && (forall p :: p in n.live && p != l && p != r ==> !HasPeer(n, p, there, r))
  {
    var l := BridgePeer(n, r);
    var there := n.ports[l].peerNode;
    var n' := MergePorts(n, r, node, port).1;
    if IndexAgrees(n') {
      assert HasPeer(n, l, there, n.ports[l].peerPort) && HasPeer(n', l, node, port);
      forall p | p in n.live && p != l && p != r
        ensures !HasPeer(n, p, there, r)
      {
        assert n'.ports[p] == n.ports[p] && p in n'.live;
      }
    }
  }

  /** Two live ports of one node that face each other. */
  ghost predicate LocalPair(n: Node, p: Name, q: Name) {
    && p != q && p in n.live && q in n.live && p != NONE && q != NONE
    && HasPeer(n, p, n.name, q) && HasPeer(n, q, n.name, p)
  }

  lemma OnePeer(n: Node, r: Name, l: Name, p: Name)
    requires LocalPairs(n) && LocalPair(n, r, l) && p in n.live && HasPeer(n, p, n.name, r)
    ensures p == l
  {
    assert HasPeer(n, r, n.name, p);
  }

  /** Merging one half of a local pair with a port of another node: the half is gone, the other half
      faces the new address, and nothing else changes. */
  lemma MergeSplicesPair(n: Node, r: Name, l: Name, node: Name, port: Name)
    requires Sound(n) && LocalPair(n, r, l) && node != n.name && port != NONE
    ensures
      var (status, n') := MergePorts(n, r, node, port);
      && BridgePeer(n, r) == l && status == OK && Sound(n')
      && n'.name == n.name && n'.live == n.live - {r} && HasPeer(n', l, node, port)
      && n'.ports == n.ports[l := n.ports[l].(peerNode := node, peerPort := port)]
  {
    var n' := MergePorts(n, r, node, port).1;
    assert n'.ports == n.ports[l := n.ports[l].(peerNode := node, peerPort := port)];
    forall p, q | HasPeer(n', p, n.name, q)
      ensures q in n'.ports
      ensures p in n'.live && q in n'.live ==> HasPeer(n', q, n.name, p)
    {
      assert HasPeer(n, p, n.name, q);
    }
    forall p | p in n.live && p != l && p != r
      ensures !HasPeer(n, p, n.name, r)
    {
      if HasPeer(n, p, n.name, r) {
        OnePeer(n, r, l, p);
      }
    }
    MergeKeepsIndexExactly(n, r, node, port);
  }

  /** The response finds the real other half through the reverse index, and splices it out. */
  lemma ResponseSplicesPair(n: Node, p: Name, q: Name, node: Name, port: Name)
    requires Sound(n) && LocalPair(n, p, q) && node != n.name && port != NONE
    ensures
      var r := MergePortsResponse(n, p, node, port);
      && r.Done? && r.value.0 == OK && Sound(r.value.1)
      && r.value.1.name == n.name && r.value.1.live == n.live - {q} && HasPeer(r.value.1, p, node, port)
      && r.value.1.ports == n.ports[p := n.ports[p].(peerNode := node, peerPort := port)]
  {
    MergeSplicesPair(n, q, p, node, port);
  }

  /** A port that faces a new address is listed under it too, unless the address has no port. */
  lemma UpdateLists(n: Node, p: Name, node: Name, port: Name)
    requires p in n.ports
    ensures
      var n' := UpdatePeer(n, p, node, port);
      && n'.name == n.name && n'.live == n.live && n'.ports.Keys == n.ports.Keys
      && n'.ports[p] == n.ports[p].(peerNode := node, peerPort := port)
      && (forall q :: q in n.ports && q != p ==> n'.ports[q] == n.ports[q])
      && (forall e :: e in n'.index <==> e in n.index || (e == (node, port, p) && port != NONE))
  {
  }

  /** The errors: a port is initialised once; a merge whose other half is gone erases its own half all the
      same; a response for a port that is gone is ignored, and it crashes exactly when the index has no
      half for the port. */
  lemma PortErrors(n: Node, p: Name, node: Name, port: Name)
    requires WellFormed(n) && p in n.ports
    ensures InitializePort(n, p, node, port).0 == (if n.ports[p].initialized then StateUnexpected else OK)
    ensures n.ports[p].initialized ==> InitializePort(n, p, node, port).1 == n
    ensures
      var (status, n') := MergePorts(n, p, node, port);
      && (status == OK <==> n.ports[p].peerPort in n.live && n.ports[p].peerPort != p)
      && (status != OK ==> status == PortUnknown && n' == n.(live := n.live - {p}))
    ensures
      var r := MergePortsResponse(n, p, node, port);
      && (r.Crash? <==> p in n.live && (n.name, p, n.ports[p].peerPort) !in n.index)
      && (p !in n.live ==> r == Done((PortUnknown, n)))
  {
  }

  /** A second response for the same port crashes: the name of its new peer is not listed. */
  lemma SecondResponseCrashes(n: Node, p: Name, node: Name, port: Name)
    requires Sound(n) && p in n.live && n.ports[p].peerPort !in n.ports
    ensures MergePortsResponse(n, p, node, port).Crash?
  {
  }

  /** Messages change nothing but queues. */
  predicate SameBut(n: Node, n': Node) {
    && n'.name == n.name && n'.live == n.live && n'.index == n.index && n'.ports.Keys == n.ports.Keys
    && forall p :: p in n.ports ==> n'.ports[p].(queue := n.ports[p].queue) == n.ports[p]
  }

  lemma SameIsSound(n: Node, n': Node)
    requires Sound(n) && SameBut(n, n')
    ensures Sound(n')
  {
    forall p, q | HasPeer(n', p, n.name, q)
      ensures q in n'.ports
      ensures p in n'.live && q in n'.live ==> HasPeer(n', q, n.name, p)
    {
      assert HasPeer(n, p, n.name, q);
    }
    forall e | e in n'.index && e.2 in n'.live
      ensures HasPeer(n', e.2, e.0, e.1) && e.1 != NONE
    {
      assert HasPeer(n, e.2, e.0, e.1);
    }
  }

  /** A message is queued at its port and nothing crashes exactly when the port is in the table. */
  lemma AcceptExactly(n: Node, to: Name, message: Body)
    requires Sound(n)
    ensures
      var r := Accept(n, to, message);
      && (r.Done? <==> to in n.live)
      && (r.Done? ==> Sound(r.value) && SameBut(n, r.value)
                      && r.value.ports[to].queue == n.ports[to].queue + [message]
                      && forall p :: p in n.ports && p != to ==> r.value.ports[p] == n.ports[p])
  {
    if to in n.live {
      SameIsSound(n, Accept(n, to, message).value);
    }
  }

  /** Reading takes exactly one of the queued messages. */
  lemma GetMessageTakesOne(n: Node, p: Name)
    requires Sound(n) && p in n.ports
    ensures
      var (m, n') := GetMessage(n, p);
      && Sound(n') && SameBut(n, n')
      && (forall q :: q in n.ports && q != p ==> n'.ports[q] == n.ports[q])
      && multiset(n.ports[p].queue)
         == multiset(n'.ports[p].queue) + (if m.Some? then multiset{m.value} else multiset{})
      && (m.None? <==> n.ports[p].queue == [])
  {
    var (m, n') := GetMessage(n, p);
    SameIsSound(n, n');
    if m.Some? {
      var queue := n.ports[p].queue;
      assert queue == queue[..|queue| - 1] + [queue[|queue| - 1]];
    }
  }

  /** Erasing takes one port out of the table; the object and the index stay. */
  lemma EraseIsSound(n: Node, p: Name)
    requires Sound(n)
    ensures Sound(ErasePort(n, p)) && ErasePort(n, p) == n.(live := ErasePort(n, p).live)
    ensures forall q :: q in ErasePort(n, p).live <==> q in n.live && q != p
  {
    var n' := ErasePort(n, p);
    forall a, b | HasPeer(n', a, n.name, b)
      ensures b in n'.ports
      ensures a in n'.live && b in n'.live ==> HasPeer(n', b, n.name, a)
    {
      assert HasPeer(n, a, n.name, b);
    }
  }

  /** A message whose port was read before, and whose node after, a merge of the port's peer. */
  function TornOutgoing(before: Node, after: Node, p: Name, data: seq<byte>): (Name, Body)
    requires p in before.ports && p in after.ports
  {
    (after.ports[p].peerNode, UserMessage(p, before.ports[p].peerPort, data))
  }

  /** The two fields are read without a lock. When the port is spliced between the two reads, the
      message goes to the new node with the name of the erased half, unless both names coincide. */
  lemma TornOutgoingExactly(n: Node, r: Name, l: Name, node: Name, port: Name, data: seq<byte>)
    requires Sound(n) && LocalPair(n, r, l) && node != n.name && port != NONE
    ensures
      var n' := MergePorts(n, r, node, port).1;
      && TornOutgoing(n, n', l, data) == (node, UserMessage(l, r, data)) && r !in n'.live
      && (TornOutgoing(n, n', l, data) == Outgoing(n', l, data) <==> r == port)
      && TornOutgoing(n, n', l, data) != Outgoing(n, l, data)
  {
    MergeSplicesPair(n, r, l, node, port);
  }
}
