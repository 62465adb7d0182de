// The node object: port objects in a table, and the reverse index that refers to the same objects.

module PortNodes {
  import opened Bytes
  import opened Names
  import opened Bodies
  import opened PortTable

  class MessageQueue {
    var heap: seq<Body>
    var nextSequence: nat
    var signalable: bool
    ghost const owner: Name  // the port it belongs to

    constructor (ghost p: Name)
      ensures owner == p
      ensures heap == [] && nextSequence == 1 && signalable
    {
      owner := p;
      heap, nextSequence, signalable := [], 1, true;
    }

    predicate HasNextMessage()
      reads this
    {
      heap != []
    }

    method AcceptMessage(m: Body) returns (hasNext: bool)
      modifies this`heap
      ensures heap == old(heap) + [m] && hasNext == signalable
    {
      heap := heap + [m];
      hasNext := signalable;
    }

    /** Takes the message at the back. */
    method GetNextMessage() returns (m: Body)
      requires HasNextMessage()
      modifies this`heap
      ensures old(heap) == heap + [m]
    {
      m := heap[|heap| - 1];
      heap := heap[..|heap| - 1];
    }

    method TakeAllMessages() returns (messages: seq<Body>)
      modifies this`heap
      ensures messages == old(heap) && heap == []
    {
      messages := heap;
      heap := [];
    }
  }

  class PortObject {
    var initialized: bool
    var peerNode: Name
    var peerPort: Name
    const queue: MessageQueue
    ghost const name: Name

    constructor (ghost p: Name)
      ensures name == queue.owner == p
      ensures !initialized && peerNode == NONE && peerPort == NONE && fresh(queue) && queue.heap == []
    {
      initialized, peerNode, peerPort := false, NONE, NONE;
      name := p;
      queue := new MessageQueue(p);
    }

    ghost function Value(): Port
      reads this, queue
    {
      Port(initialized, peerNode, peerPort, queue.heap)
    }
  }

  ghost predicate Represents(port: PortObject, p: Name, value: Port)
    reads port, port.queue
  {
    port.name == port.queue.owner == p && value == port.Value()
  }

  datatype PortRef = PortRef(name: Name, port: PortObject?)

  type PeerIndex = map<Name, map<Name, map<Name, PortRef>>>

  /** The entries of the nested maps. */
  ghost function Entries(index: PeerIndex): (entries: set<(Name, Name, Name)>)
    ensures forall n, q, p ::
              (n, q, p) in entries <==> n in index && q in index[n] && p in index[n][q]
  {
    set n, q, p | n in index && q in index[n] && p in index[n][q] :: (n, q, p)
  }

  /** Looking up a key with the indexing operator inserts an empty map when there is none. */
  function At<V>(m: map<Name, map<Name, V>>, k: Name): map<Name, V> {
    if k in m then m[k] else map[]
  }

  function IndexAdd(index: PeerIndex, n: Name, q: Name, ref: PortRef): PeerIndex {
    var inner := At(index, n);
    var refs := At(inner, q);
    index[n := inner[q := if ref.name in refs then refs else refs[ref.name := ref]]]
  }

  function IndexDrop(index: PeerIndex, n: Name, q: Name): PeerIndex {
    index[n := At(index, n) - {q}]
  }

  lemma EntriesAfterAdd(index: PeerIndex, n: Name, q: Name, ref: PortRef)
    ensures Entries(IndexAdd(index, n, q, ref)) == Entries(index) + {(n, q, ref.name)}
  {
    var after := IndexAdd(index, n, q, ref);
    forall e
      ensures e in Entries(after) <==> e in Entries(index) + {(n, q, ref.name)}
    {
      assert e == (e.0, e.1, e.2);
    }
  }

  lemma EntriesAfterDrop(index: PeerIndex, n: Name, q: Name)
    ensures Entries(IndexDrop(index, n, q)) == DropIndex(Entries(index), n, q)
  {
    var after := IndexDrop(index, n, q);
    forall e
      ensures e in Entries(after) <==> e in DropIndex(Entries(index), n, q)
    {
      assert e == (e.0, e.1, e.2);
    }
  }

  /** Every entry refers to the port object of its name. */
  ghost predicate RefsAgree(index: PeerIndex, objects: map<Name, PortObject>) {
    forall n, q, p :: n in index && q in index[n] && p in index[n][q] ==>
      p in objects && index[n][q][p] == PortRef(p, objects[p])
  }

  lemma RefsAfterAdd(index: PeerIndex, objects: map<Name, PortObject>, n: Name, q: Name, ref: PortRef)
    requires RefsAgree(index, objects) && ref.name in objects && ref == PortRef(ref.name, objects[ref.name])
    ensures RefsAgree(IndexAdd(index, n, q, ref), objects)
  {
  }

  lemma RefsAfterDrop(index: PeerIndex, objects: map<Name, PortObject>, n: Name, q: Name)
    requires RefsAgree(index, objects)
    ensures RefsAgree(IndexDrop(index, n, q), objects)
  {
  }

  lemma RefFound(index: PeerIndex, objects: map<Name, PortObject>, n: Name, q: Name, p: Name)
    requires RefsAgree(index, objects)
    ensures p in At(At(index, n), q) <==> (n, q, p) in Entries(index)
    ensures p in At(At(index, n), q) ==> p in objects && At(At(index, n), q)[p] == PortRef(p, objects[p])
  {
  }

  lemma DrawableAfterAdd(n: PortTable.Node, p0: Name, p1: Name)
    requires Drawable(n, p1)
    ensures Drawable(AddPort(n, p0).1, p1)
  {
  }

  class Node {
    const name: Name
    var ports: map<Name, PortObject>
    var index: PeerIndex

    ghost var objects: map<Name, PortObject>  // every port object ever in the table
    ghost var values: map<Name, Port>         // and its value
    ghost var entries: set<(Name, Name, Name)>
    ghost var Repr: set<object>

    ghost predicate Valid()
      reads this, Repr
    {
      && this in Repr && values.Keys == objects.Keys
      && (forall p :: p in objects ==>
            objects[p] in Repr && objects[p].queue in Repr && Represents(objects[p], p, values[p]))
      && (forall p :: p in ports ==> p in objects && ports[p] == objects[p])
      && RefsAgree(index, objects) && entries == Entries(index)
      && (forall e :: e in entries ==> e.2 in objects)
    }

    ghost function Model(): (n: PortTable.Node)
      requires Valid()
      reads this, Repr
      ensures WellFormed(n)
    {
      PortTable.Node(name, values, ports.Keys, entries)
    }

    lemma ObjectFacts(p: Name)
      requires Valid() && p in objects
      ensures p in values && values[p] == objects[p].Value()
      ensures this in Repr && objects[p] in Repr && objects[p].queue in Repr
      ensures objects[p].name == objects[p].queue.owner == p
    {
    }

    lemma TableFacts(p: Name)
      requires Valid() && p in ports
      ensures p in objects && ports[p] == objects[p]
    {
    }

    /** A reference to a port of this node. */
    ghost predicate Refers(ref: PortRef)
      reads this
    {
      ref.name in objects && ref.port == objects[ref.name]
    }

    constructor (n: Name)
      ensures Valid() && fresh(Repr) && Model() == NewNode(n)
    {
      name := n;
      ports, index, objects, values, entries := map[], map[], map[], map[], {};
      Repr := {this};
    }

    method AddPortWithName(p: Name, port: PortObject) returns (r: Status)
      requires Valid() && Drawable(Model(), p)
      requires port.name == port.queue.owner == p && port !in Repr && port.queue !in Repr
      requires port.Value() == Port(false, NONE, NONE, [])
      modifies this
      ensures Valid() && Repr <= old(Repr) + {port, port.queue}
      ensures (r, Model()) == AddPort(old(Model()), p)
      ensures r == OK ==> Refers(PortRef(p, port))
      ensures forall q :: q in old(objects) ==> q in objects && objects[q] == old(objects)[q]
    {
      if p in ports {
        return PortExists;
      }
      objects := objects[p := port];
      ports := ports[p := port];
      values := values[p := port.Value()];
      Repr := Repr + {port, port.queue};
      assert ports.Keys == old(ports).Keys + {p};
      return OK;
    }

    method CreateUninitializedPort(p: Name) returns (r: Status, ref: PortRef)
      requires Valid() && Drawable(Model(), p)
      modifies this
      ensures Valid() && fresh(Repr - old(Repr))
      ensures (r, Model()) == AddPort(old(Model()), p)
      ensures r == OK ==> ref.name == p && Refers(ref) && fresh(ref.port)
      ensures forall q :: q in old(objects) ==> q in objects && objects[q] == old(objects)[q]
    {
      var port := new PortObject(p);
      r := AddPortWithName(p, port);
      ref := PortRef(p, port);
    }

    method SetPeer(p: Name, port: PortObject, peerNode: Name, peerPort: Name)
      requires Valid() && Refers(PortRef(p, port))
      modifies this`values, port
      ensures Valid() && p in old(values)
      ensures values == old(values)[p := old(values)[p].(peerNode := peerNode, peerPort := peerPort)]
    {
      hide RefsAgree, Entries;
      port.peerNode := peerNode;
      port.peerPort := peerPort;
      values := values[p := port.Value()];
    }

    method AddEntry(n: Name, q: Name, ref: PortRef)
      requires Valid() && Refers(ref)
      modifies this`index, this`entries
      ensures Valid() && entries == old(entries) + {(n, q, ref.name)}
    {
      hide RefsAgree, Entries, IndexAdd, Represents;
      EntriesAfterAdd(index, n, q, ref);
      RefsAfterAdd(index, objects, n, q, ref);
      index := IndexAdd(index, n, q, ref);
      entries := entries + {(n, q, ref.name)};
    }

    method DropEntries(n: Name, q: Name)
      requires Valid()
      modifies this`index, this`entries
      ensures Valid() && entries == DropIndex(old(entries), n, q)
    {
      hide RefsAgree, Entries, IndexDrop, Represents;
      EntriesAfterDrop(index, n, q);
      RefsAfterDrop(index, objects, n, q);
      index := IndexDrop(index, n, q);
      entries := DropIndex(entries, n, q);
    }

    method UpdatePortPeerAddress(p: Name, port: PortObject, peerNode: Name, peerPort: Name)
      requires Valid() && Refers(PortRef(p, port))
      modifies this`index, this`values, this`entries, port
      ensures Valid() && Model() == UpdatePeer(old(Model()), p, peerNode, peerPort)
    {
      hide Node.Valid;
      SetPeer(p, port, peerNode, peerPort);
      if peerPort != NONE {
        AddEntry(peerNode, peerPort, PortRef(p, port));
      }
    }

    method InitializePort(ref: PortRef, peerNode: Name, peerPort: Name) returns (r: Status)
      requires Valid() && Refers(ref)
      modifies this`index, this`values, this`entries, ref.port
      ensures Valid() && (r, Model()) == PortTable.InitializePort(old(Model()), ref.name, peerNode, peerPort)
    {
      var port := ref.port;
      if port.initialized {
        return StateUnexpected;
      }
      port.initialized := true;
      values := values[ref.name := port.Value()];
      UpdatePortPeerAddress(ref.name, port, peerNode, peerPort);
      return OK;
    }

    method CreatePortPair(p0: Name, p1: Name) returns (r: Status, ref0: PortRef, ref1: PortRef)
      requires Valid() && Drawable(Model(), p0) && Drawable(Model(), p1)
      modifies this
      ensures Valid() && fresh(Repr - old(Repr))
      ensures (r, Model()) == CreatePair(old(Model()), p0, p1)
      ensures r == OK ==> ref0.name == p0 && Refers(ref0) && ref1.name == p1 && Refers(ref1)
      ensures forall q :: q in old(objects) ==> q in objects && objects[q] == old(objects)[q]
    {
      hide Node.Valid, AddPort, PortTable.InitializePort;
      DrawableAfterAdd(Model(), p0, p1);
      ref1 := PortRef(NONE, null);
      r, ref0 := CreateUninitializedPort(p0);
      if r != OK {
        return;
      }
      r, ref1 := CreateUninitializedPort(p1);
      if r != OK {
        return;
      }
      ObjectFacts(p0);
      ObjectFacts(p1);
      r := InitializePort(ref0, name, ref1.name);
      if r != OK {
        return;
      }
      r := InitializePort(ref1, name, ref0.name);
    }

    method ErasePort(p: Name)
      requires Valid()
      modifies this`ports
      ensures Valid() && Model() == PortTable.ErasePort(old(Model()), p)
    {
      if p !in ports {
        assert old(Model()).live - {p} == old(Model()).live;
        return;
      }
      ports := ports - {p};
    }

    /** Pending messages are not looked at. */
    method ClosePort(ref: PortRef)
      requires Valid()
      modifies this`ports
      ensures Valid() && Model() == PortTable.ErasePort(old(Model()), ref.name)
    {
      ErasePort(ref.name);
    }

    method MergePorts(ref: PortRef, destNode: Name, destPort: Name) returns (r: Status, local: Name)
      requires Valid() && Refers(ref)
      modifies Repr
      ensures Valid() && Repr == old(Repr) && objects == old(objects)
      ensures (r, Model()) == PortTable.MergePorts(old(Model()), ref.name, destNode, destPort)
      ensures local == BridgePeer(old(Model()), ref.name)
    {
      hide Node.Valid, DropIndex;
      ObjectFacts(ref.name);
      ErasePort(ref.name);
      local := ref.port.peerPort;
      if local !in ports {
        return PortUnknown, local;
      }
      TableFacts(local);
      ObjectFacts(local);
      var port := ports[local];
      DropEntries(port.peerNode, ref.name);
      UpdatePortPeerAddress(local, port, destNode, destPort);
      r := OK;
    }

    /** `crashed`: the reverse index has no entry, and the null port it returns is used. */
    method MergePortsResponse(p: Name, destNode: Name, destPort: Name) returns (crashed: bool, r: Status)
      requires Valid()
      modifies Repr
      ensures Valid() && Repr == old(Repr) && objects == old(objects)
      ensures
        var outcome := PortTable.MergePortsResponse(old(Model()), p, destNode, destPort);
        if crashed then outcome.Crash? else outcome == Done((r, Model()))
    {
      hide RefsAgree, Entries, At;
      crashed, r := false, OK;
      if p !in ports {
        return false, PortUnknown;
      }
      var q := ports[p].peerPort;
      var refs := At(At(index, name), p);
      RefFound(index, objects, name, p, q);
      if q !in refs {
        return true, r;
      }
      var bridge := refs[q];
      var status, dummy := MergePorts(bridge, destNode, destPort);
    }

    /** What a write to the port hands on, and the node it is for. */
    method SendUserMessage(ref: PortRef, data: seq<byte>) returns (node: Name, m: Body)
      requires Valid() && Refers(ref)
      ensures (node, m) == Outgoing(Model(), ref.name, data)
    {
      m := UserMessage(ref.name, ref.port.peerPort, data);
      node := ref.port.peerNode;
    }

    /** `crashed`: the port is not in the table. */
    method OnUserMessage(to: Name, m: Body) returns (crashed: bool)
      requires Valid()
      modifies Repr
      ensures Valid() && Repr == old(Repr) && objects == old(objects)
      ensures var outcome := Accept(old(Model()), to, m);
              if crashed then outcome.Crash? else outcome == Done(Model())
    {
      if to !in ports {
        return true;
      }
      var signal := ports[to].queue.AcceptMessage(m);
      values := values[to := ports[to].Value()];
      crashed := false;
    }

    method GetMessage(ref: PortRef) returns (m: Option<Body>)
      requires Valid() && Refers(ref)
      modifies this`values, ref.port.queue
      ensures Valid() && (m, Model()) == PortTable.GetMessage(old(Model()), ref.name)
    {
      m := None;
      if ref.port.queue.HasNextMessage() {
        var last := ref.port.queue.GetNextMessage();
        m := Some(last);
        values := values[ref.name := ref.port.Value()];
      }
    }
  }
}
