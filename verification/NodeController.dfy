// The node controller object and its channels, proved against the functions of the controller's state.

module NodeControllers {
  import opened Bytes
  import opened Names
  import opened Bodies
  import opened PortTable
  import opened Controllers
  import Frames
  import Messages
  import PortNodes
  import Transport

  type PortRef = PortNodes.PortRef

  /** What becomes of a received frame. One that is not decoded, or is of no known kind, ends the process. */
  function OnFrame(c: Controller, s: Socket, f: Frames.Frame): Outcome<Controller>
    requires WellFormedController(c) && s in c.remote
  {
    var m := Transport.FromFrame(f);
    if m.Failure? then Crash else OnChannelMessage(c, s, m.value)
  }

  class NodeChannel {
    var remoteNodeName: Name
    var outbox: seq<Body>       // everything written on the channel
    ghost const socket: Socket

    constructor (ghost s: Socket)
      ensures socket == s && remoteNodeName == NONE && outbox == []
    {
      remoteNodeName, outbox := NONE, [];
      socket := s;
    }

    method SetRemoteNodeName(name: Name)
      modifies this`remoteNodeName
      ensures remoteNodeName == name
    {
      remoteNodeName := name;
    }

    method SendChannelMessage(m: Body)
      modifies this`outbox
      ensures outbox == old(outbox) + [m]
    {
      outbox := outbox + [m];
    }

    method RequestPortMerge(connector: Name, pipe: Text)
      modifies this`outbox
      ensures outbox == old(outbox) + [Body.RequestPortMerge(connector, pipe)]
    {
      SendChannelMessage(Body.RequestPortMerge(connector, pipe));
    }

    method AcceptInvitee(inviter: Name, token: Name)
      modifies this`outbox
      ensures outbox == old(outbox) + [Body.AcceptInvitee(token, inviter)]
    {
      SendChannelMessage(Body.AcceptInvitee(token, inviter));
    }

    method AcceptInvitation(token: Name, invitee: Name)
      modifies this`outbox
      ensures outbox == old(outbox) + [Body.AcceptInvitation(token, invitee)]
    {
      SendChannelMessage(Body.AcceptInvitation(token, invitee));
    }

    method ResponsePortMerge(connector: Name, port: Name)
      modifies this`outbox
      ensures outbox == old(outbox) + [Body.ResponsePortMerge(connector, port)]
    {
      SendChannelMessage(Body.ResponsePortMerge(connector, port));
    }
  }

  // ------------------------------------------------------------------ the tables and their values

  type Channels = map<Socket, NodeChannel>

  /** The channel objects are as the value says. */
  ghost predicate ChannelsAre(channels: Channels, remote: map<Socket, Name>, out: map<Socket, seq<Body>>)
    reads channels.Values
  {
    && channels.Keys == remote.Keys == out.Keys
    && forall s :: s in channels ==>
         channels[s].socket == s && channels[s].remoteNodeName == remote[s] && channels[s].outbox == out[s]
  }

  ghost predicate Lists(table: map<Name, NodeChannel>, value: map<Name, Socket>, channels: Channels) {
    && table.Keys == value.Keys
    && forall n :: n in table ==> value[n] in channels && channels[value[n]] == table[n]
  }

  ghost predicate IsChannel(ch: NodeChannel?, value: Option<Socket>, channels: Channels) {
    if value.None? then ch == null else value.value in channels && ch == channels[value.value]
  }

  function NamesOf(ports: map<Text, PortRef>): map<Text, Name> {
    map x | x in ports :: ports[x].name
  }

  type Objects = map<Name, PortNodes.PortObject>

  /** The reference is to a port object of the node. */
  ghost predicate IsPort(ref: PortRef, objects: Objects) {
    ref.name in objects && ref.port == objects[ref.name]
  }

  ghost predicate ArePorts(ports: map<Text, PortRef>, objects: Objects) {
    forall x :: x in ports ==> IsPort(ports[x], objects)
  }

  ghost predicate Reserves(table: map<Name, map<Text, PortRef>>, value: map<Name, map<Text, Name>>, objects: Objects) {
    && table.Keys == value.Keys
    && forall n :: n in table ==> value[n] == NamesOf(table[n]) && ArePorts(table[n], objects)
  }

  function MergeOf(m: (Text, PortRef)): Merge {
    Merge(m.0, m.1.name)
  }

  ghost predicate Puts(list: seq<(Text, PortRef)>, value: seq<Merge>, objects: Objects) {
    && |list| == |value|
    && forall i :: 0 <= i < |list| ==> value[i] == MergeOf(list[i]) && IsPort(list[i].1, objects)
  }

  /** Everything but the channels' contents. */
  ghost predicate TablesAre(
    channels: Channels, objects: Objects, model: Controller, inviterName: Name, inviterChannel: NodeChannel?,
    peers: map<Name, NodeChannel>, waiting: map<Name, seq<Body>>, reserved: map<Name, map<Text, PortRef>>,
    merges: seq<(Text, PortRef)>, invitations: map<Name, NodeChannel>)
  {
    && inviterName == model.inviterName && IsChannel(inviterChannel, model.inviterChannel, channels)
    && Lists(peers, model.peers, channels) && waiting == model.waiting
    && Reserves(reserved, model.reserved, objects) && Puts(merges, model.pendingMerges, objects)
    && Lists(invitations, model.pendingInvitations, channels)
  }

  // ------------------------------------------------------------------ what the loops add up to

  /** The attached ports by name; of two with one name, the first. */
  function Listed(attached: seq<(Text, PortRef)>): map<Text, Name> {
    if attached == [] then map[]
    else
      var last := attached[|attached| - 1];
      map[last.0 := last.1.name] + Listed(attached[..|attached| - 1])
  }

  lemma ListsWithout(table: map<Name, NodeChannel>, value: map<Name, Socket>, channels: Channels, n: Name)
    requires Lists(table, value, channels)
    ensures Lists(table - {n}, value - {n}, channels)
  {
  }

  lemma NoNames()
    ensures NamesOf(map[]) == map[]
  {
  }

  lemma NothingListed(before: map<Text, Name>)
    ensures EmplaceAll(before, Listed([])) == before
  {
  }

  lemma EmplaceOne(portMap: map<Text, PortRef>, before: map<Text, Name>, attached: seq<(Text, PortRef)>, i: nat)
    requires i < |attached| && NamesOf(portMap) == EmplaceAll(before, Listed(attached[..i]))
    ensures
      var (pipe, port) := attached[i];
      NamesOf(if pipe in portMap then portMap else portMap[pipe := port])
      == EmplaceAll(before, Listed(attached[..i + 1]))
  {
    var (pipe, port) := attached[i];
    assert attached[..i + 1][..i] == attached[..i];
    assert Listed(attached[..i + 1]) == map[pipe := port.name] + Listed(attached[..i]);
    assert pipe in portMap <==> pipe in NamesOf(portMap);
    hide Listed;
    var more := if pipe in portMap then portMap else portMap[pipe := port];
    assert NamesOf(more) == map[pipe := port.name] + NamesOf(portMap);
  }

  lemma NamesWithout(portMap: map<Text, PortRef>, pipe: Text)
    ensures NamesOf(portMap - {pipe}) == NamesOf(portMap) - {pipe}
    ensures portMap - {pipe} == map[] <==> NamesOf(portMap) - {pipe} == map[]
    ensures pipe in portMap <==> pipe in NamesOf(portMap)
    ensures pipe in portMap ==> NamesOf(portMap)[pipe] == portMap[pipe].name
  {
    assert (portMap - {pipe}).Keys == (NamesOf(portMap) - {pipe}).Keys;
    if portMap - {pipe} != map[] {
      var x :| x in portMap - {pipe};
      assert x in NamesOf(portMap) - {pipe};
    }
  }

  function PortNames(ports: seq<PortRef>): set<Name> {
    set i | 0 <= i < |ports| :: ports[i].name
  }

  function NamesUnder(portMap: map<Text, PortRef>, keys: set<Text>): set<Name>
    requires keys <= portMap.Keys
  {
    set x | x in keys :: portMap[x].name
  }

  lemma NamesOneMore(portMap: map<Text, PortRef>, keys: set<Text>, x: Text, ports: seq<PortRef>)
    requires keys <= portMap.Keys && x in portMap && PortNames(ports) == NamesUnder(portMap, keys)
    ensures PortNames(ports + [portMap[x]]) == NamesUnder(portMap, keys + {x})
  {
    NamesMore(ports, portMap[x]);
  }

  lemma NamesMore(ports: seq<PortRef>, p: PortRef)
    ensures PortNames(ports + [p]) == PortNames(ports) + {p.name}
  {
    var more := ports + [p];
    forall i | 0 <= i < |ports|
      ensures ports[i].name in PortNames(more)
    {
      assert more[i] == ports[i];
    }
    assert more[|ports|] == p;
  }

  lemma NamesUnderAll(portMap: map<Text, PortRef>)
    ensures NamesUnder(portMap, portMap.Keys) == NamesOf(portMap).Values
  {
    forall x | x in portMap
      ensures portMap[x].name in NamesOf(portMap).Values
    {
      assert NamesOf(portMap)[x] == portMap[x].name;
    }
  }

  lemma EraseNone(n: PortTable.Node)
    ensures EraseAll(n, PortNames([])) == n
  {
    assert n.live - {} == n.live;
  }

  lemma EraseOneMore(n: PortTable.Node, ports: seq<PortRef>, i: nat)
    requires i < |ports|
    ensures ErasePort(EraseAll(n, PortNames(ports[..i])), ports[i].name) == EraseAll(n, PortNames(ports[..i + 1]))
  {
    NamesMore(ports[..i], ports[i]);
    assert ports[..i + 1] == ports[..i] + [ports[i]];
  }

  lemma RekeyFacts(c: Controller, temp: Name, n: Name)
    ensures Rekey(c, temp, n).pendingInvitations == c.pendingInvitations
  {
  }

  /** The channel of the inviter. */
  function InviterOf(c: Controller): Socket
    requires Controllers.GetInviterChannel(c).Some?
  {
    Controllers.GetInviterChannel(c).value
  }

  /** The first `i` messages have been sent to the inviter. */
  function SentUpTo(c: Controller, bodies: seq<Body>, i: nat): Controller
    requires i <= |bodies| && (Controllers.GetInviterChannel(c).Some? ==> InviterOf(c) in c.out)
  {
    if Controllers.GetInviterChannel(c).None? then c else SendAll(c, InviterOf(c), bodies[..i])
  }

  lemma SentNoneYet(c: Controller, bodies: seq<Body>)
    requires Controllers.GetInviterChannel(c).Some? ==> InviterOf(c) in c.out
    ensures SentUpTo(c, bodies, 0) == c
  {
    if Controllers.GetInviterChannel(c).Some? {
      SendNone(c, InviterOf(c));
    }
  }

  lemma SentOneMore(c: Controller, bodies: seq<Body>, i: nat)
    requires i < |bodies| && Controllers.GetInviterChannel(c).Some? && InviterOf(c) in c.out
    ensures
      var s := InviterOf(c);
      && s in SentUpTo(c, bodies, i).out && Send(SentUpTo(c, bodies, i), s, bodies[i]) == SentUpTo(c, bodies, i + 1)
  {
    var s := InviterOf(c);
    assert c.out[s] + bodies[..i] + [bodies[i]] == c.out[s] + bodies[..i + 1];
  }

  lemma SentKeepsInviter(c: Controller, bodies: seq<Body>, i: nat)
    requires i <= |bodies| && (Controllers.GetInviterChannel(c).Some? ==> InviterOf(c) in c.out)
    ensures Controllers.GetInviterChannel(SentUpTo(c, bodies, i)) == Controllers.GetInviterChannel(c)
  {
  }

  lemma InviterInOut(c: Controller)
    requires WellFormedController(c)
    ensures
      var swapped := SwapPending(c).0;
      Controllers.GetInviterChannel(swapped).Some? ==> InviterOf(swapped) in swapped.out && swapped.out == c.out
  {
  }

  /** What the loop over the pending merges computes. */
  lemma AllRequestsSent(c: Controller, bodies: seq<Body>)
    requires WellFormedController(c) && bodies == RequestBodies(c.pendingMerges)
    requires Controllers.GetInviterChannel(SwapPending(c).0).Some? ==> InviterOf(SwapPending(c).0) in c.out
    ensures
      var inviter := Controllers.GetInviterChannel(SwapPending(c).0);
      Controllers.HandlePendingMergePort(c)
      == if bodies != [] && inviter.None? then Crash else Done(SentUpTo(SwapPending(c).0, bodies, |bodies|))
  {
    var swapped := SwapPending(c).0;
    assert bodies[..|bodies|] == bodies;
    if bodies == [] {
      SentNoneYet(swapped, bodies);
    }
  }

  class NodeController {
    const name: Name
    const node: PortNodes.Node
    var inviterName: Name
    var inviterChannel: NodeChannel?
    var peers: map<Name, NodeChannel>
    var pendingPeerMessages: map<Name, seq<Body>>
    var reservedPorts: map<Name, map<Text, PortRef>>
    var pendingPortMerges: seq<(Text, PortRef)>
    var pendingInvitations: map<Name, NodeChannel>

    ghost var channels: Channels  // every channel ever made
    ghost var model: Controller   // the value of all but the node

    ghost predicate NodeOk()
      reads this`channels, node, node.Repr
    {
      node.Valid() && node.name == name && this !in node.Repr && forall s :: s in channels ==> channels[s] !in node.Repr
    }

    ghost predicate Tables()
      reads this, node
    {
      TablesAre(channels, node.objects, model, inviterName, inviterChannel, peers, pendingPeerMessages,
                reservedPorts, pendingPortMerges, pendingInvitations)
    }

    ghost predicate Valid()
      reads this, node, node.Repr, channels.Values
    {
      NodeOk() && Tables() && ChannelsAre(channels, model.remote, model.out)
    }

    ghost function Model(): (c: Controller)
      requires Valid()
      reads this, node, node.Repr, channels.Values
      ensures WellFormedController(c) && c.node.name == name && c.out.Keys == channels.Keys
    {
      var c := model.(node := node.Model());
      WellFormedModel(c);
      c
    }

    lemma WellFormedModel(c: Controller)
      requires Valid() && c == model.(node := node.Model())
      ensures WellFormedController(c) && c.out.Keys == channels.Keys
    {
    }

    constructor (n: Name)
      ensures Valid() && fresh(node) && fresh(node.Repr) && channels == map[]
      ensures Model() == NewController(n)
    {
      name := n;
      node := new PortNodes.Node(n);
      inviterName, inviterChannel := NONE, null;
      peers, pendingPeerMessages, reservedPorts, pendingPortMerges := map[], map[], map[], [];
      pendingInvitations, channels := map[], map[];
      model := NewController(n);
    }

    /** A channel of this controller. */
    ghost predicate Owns(ch: NodeChannel)
      reads this
    {
      ch.socket in channels && channels[ch.socket] == ch
    }

    lemma NodeInRepr()
      requires Valid()
      ensures node.Valid() && node in node.Repr && this !in node.Repr
    {
    }

    lemma OwnFacts(ch: NodeChannel)
      requires Valid() && Owns(ch)
      ensures ch !in node.Repr && ch in channels.Values && this !in node.Repr && ch.socket in model.out
      ensures forall s :: s in channels ==> channels[s] !in node.Repr
    {
    }

    lemma ObjectKeys()
      requires Valid()
      ensures Model().node.ports.Keys == node.objects.Keys
    {
    }

    /** A message is about to be written on a channel. */
    ghost method Expect(ch: NodeChannel, m: Body)
      requires Valid() && Owns(ch)
      modifies this`model
      ensures NodeOk() && Tables() && ch.socket in old(model).out && model == Send(old(model), ch.socket, m)
      ensures ChannelsAre(channels, model.remote, old(model).out)
    {
      hide PortNodes.Node.Valid, PortNodes.Node.Model, WellFormedController, Lists, Reserves, Puts;
      model := Send(model, ch.socket, m);
    }

    method GetPeerChannel(n: Name) returns (ch: NodeChannel?)
      requires Valid()
      ensures IsChannel(ch, Controllers.GetPeerChannel(Model(), n), channels)
      ensures ch != null ==> ch in channels.Values && Owns(ch) && Controllers.GetPeerChannel(Model(), n) == Some(ch.socket)
    {
      if n !in peers {
        return null;
      }
      return peers[n];
    }

    method GetInviterChannel() returns (ch: NodeChannel?)
      requires Valid()
      ensures IsChannel(ch, Controllers.GetInviterChannel(Model()), channels)
      ensures ch != null ==> ch in channels.Values && Owns(ch) && Controllers.GetInviterChannel(Model()) == Some(ch.socket)
    {
      ch := GetPeerChannel(inviterName);
    }

    /** Random names are new; the pair is made. */
    method CreatePair(l: Name, r: Name) returns (left: PortNodes.PortRef, right: PortNodes.PortRef)
      requires Valid() && FreshPorts(Model().node, l, r)
      modifies node
      ensures Valid() && fresh(node.Repr - old(node.Repr)) && Model() == WithPair(old(Model()), l, r)
      ensures left.name == l && right.name == r && node.Refers(left) && node.Refers(right)
      ensures forall q :: q in old(node.objects) ==> q in node.objects && node.objects[q] == old(node.objects)[q]
    {
      hide PortNodes.Node.Valid, PortNodes.Node.Model, WellFormedController, TablesAre, ChannelsAre;
      hide PortTable.CreatePair;
      CreatePairMakes(node.Model(), l, r);
      ghost var was := node.objects;
      var status;
      status, left, right := node.CreatePortPair(l, r);
      TablesStay(was, node.objects);
    }

    lemma TablesStay(before: Objects, after: Objects)
      requires TablesAre(channels, before, model, inviterName, inviterChannel, peers, pendingPeerMessages,
                         reservedPorts, pendingPortMerges, pendingInvitations)
      requires forall q :: q in before ==> q in after && after[q] == before[q]
      ensures TablesAre(channels, after, model, inviterName, inviterChannel, peers, pendingPeerMessages,
                        reservedPorts, pendingPortMerges, pendingInvitations)
    {
      hide Lists, NamesOf;
    }

    method PutOff(pipe: Text, port: PortRef)
      requires Valid() && node.Refers(port)
      modifies this`pendingPortMerges, this`model
      ensures Valid()
      ensures Model() == old(Model()).(pendingMerges := old(Model()).pendingMerges + [Merge(pipe, port.name)])
    {
      hide PortNodes.Node.Valid, PortNodes.Node.Model, WellFormedController, ChannelsAre, Lists, Reserves;
      pendingPortMerges := pendingPortMerges + [(pipe, port)];
      model := model.(pendingMerges := model.pendingMerges + [Merge(pipe, port.name)]);
    }

    /** Writes a message on a channel of this controller. */
    method SendOn(ch: NodeChannel, m: Body)
      requires Valid() && Owns(ch)
      modifies this`model, ch`outbox
      ensures Valid() && Model() == Send(old(Model()), ch.socket, m)
    {
      hide PortNodes.Node.Valid, PortNodes.Node.Model, WellFormedController, TablesAre, NodeOk;
      OwnFacts(ch);
      Expect(ch, m);
      ch.SendChannelMessage(m);
    }

    /** Asks the node at the other end to merge a port. */
    method RequestOn(ch: NodeChannel, connector: Name, pipe: Text)
      requires Valid() && Owns(ch)
      modifies this`model, ch`outbox
      ensures Valid() && Model() == Send(old(Model()), ch.socket, Body.RequestPortMerge(connector, pipe))
    {
      hide PortNodes.Node.Valid, PortNodes.Node.Model, WellFormedController, TablesAre, NodeOk;
      OwnFacts(ch);
      Expect(ch, Body.RequestPortMerge(connector, pipe));
      ch.RequestPortMerge(connector, pipe);
    }

    method MergePortIntoInviter(pipe: Text, port: PortRef)
      requires Valid() && node.Refers(port)
      modifies this`pendingPortMerges, this`model, channels.Values
      ensures Valid()
      ensures Model() == Controllers.MergePortIntoInviter(old(Model()), Merge(pipe, port.name))
    {
      hide PortNodes.Node.Valid, PortNodes.Node.Model, WellFormedController, TablesAre, NodeOk, ChannelsAre;
      hide NodeController.Valid;
      hide NodeController.Model;
      var inviter := GetInviterChannel();
      if inviter == null {
        PutOff(pipe, port);
        return;
      }
      RequestOn(inviter, port.name, pipe);
    }

    method SetRemoteOn(ch: NodeChannel, n: Name)
      requires Valid() && Owns(ch)
      modifies this`model, ch`remoteNodeName
      ensures Valid() && Model() == SetRemote(old(Model()), ch.socket, n)
    {
      hide PortNodes.Node.Valid, PortNodes.Node.Model, WellFormedController, NodeOk, Lists, Reserves, Puts;
      OwnFacts(ch);
      ch.SetRemoteNodeName(n);
      model := SetRemote(model, ch.socket, n);
    }

    /** The scope of the peers lock when a node becomes a peer. */
    method InsertPeer(n: Name, ch: NodeChannel) returns (messages: seq<Body>)
      requires Valid() && Owns(ch)
      modifies this`peers, this`pendingPeerMessages, this`model
      ensures Valid() && (Model(), messages) == Controllers.InsertPeer(old(Model()), n, ch.socket)
    {
      hide PortNodes.Node.Valid, PortNodes.Node.Model, WellFormedController, NodeOk, ChannelsAre, Reserves, Puts;
      OwnFacts(ch);
      messages := [];
      if n in peers {
        return;
      }
      peers := peers[n := ch];
      if n in pendingPeerMessages {
        messages := pendingPeerMessages[n];
        pendingPeerMessages := pendingPeerMessages - {n};
      }
      model := Controllers.InsertPeer(model, n, ch.socket).0;
    }

    method AddPeer(n: Name, ch: NodeChannel)
      requires Valid() && Owns(ch)
      modifies this`peers, this`pendingPeerMessages, this`model, ch
      ensures Valid() && Model() == Controllers.AddPeer(old(Model()), n, ch.socket)
    {
      hide PortNodes.Node.Valid, PortNodes.Node.Model, WellFormedController, TablesAre, NodeOk, ChannelsAre;
      hide NodeController.Valid;
      hide NodeController.Model, Controllers.InsertPeer, SetRemote;
      SetRemoteOn(ch, n);
      var messages := InsertPeer(n, ch);
      while messages != []
        invariant Valid() && ch.socket in Model().out
        invariant SendAll(Model(), ch.socket, messages) == Controllers.AddPeer(old(Model()), n, ch.socket)
        decreases |messages|
      {
        SendOneMore(Model(), ch.socket, messages);
        SendOn(ch, messages[0]);
        messages := messages[1..];
      }
      SendNone(Model(), ch.socket);
    }

    // ---------------------------------------------------------------- invitations

    method NewChannelOf(ghost s: Socket) returns (ch: NodeChannel)
      requires Valid() && s !in channels
      modifies this`channels, this`model
      ensures Valid() && fresh(ch) && ch.socket == s && channels == old(channels)[s := ch]
      ensures Model() == NewChannel(old(Model()), s)
    {
      hide PortNodes.Node.Valid, PortNodes.Node.Model, WellFormedController, Puts, Reserves;
      ch := new NodeChannel(s);
      assert forall t :: t in old(channels) ==> channels[t] != ch;
      channels := channels[s := ch];
      model := NewChannel(model, s);
    }

    lemma ReservedFacts(n: Name)
      requires Valid()
      ensures n in reservedPorts <==> n in Model().reserved
      ensures n in reservedPorts ==>
                NamesOf(reservedPorts[n]) == Model().reserved[n] && ArePorts(reservedPorts[n], node.objects)
    {
      hide PortNodes.Node.Valid, PortNodes.Node.Model, WellFormedController, NodeOk, ChannelsAre, Lists, Puts;
    }

    method PutReserved(n: Name, portMap: map<Text, PortRef>)
      requires Valid() && ArePorts(portMap, node.objects)
      modifies this`reservedPorts, this`model
      ensures Valid() && reservedPorts == old(reservedPorts)[n := portMap]
      ensures Model() == old(Model()).(reserved := old(Model()).reserved[n := NamesOf(portMap)])
    {
      hide PortNodes.Node.Valid, PortNodes.Node.Model, WellFormedController, NodeOk, ChannelsAre, Lists, Puts;
      hide NamesOf, ArePorts;
      NodeInRepr();
      reservedPorts := reservedPorts[n := portMap];
      model := model.(reserved := model.reserved[n := NamesOf(portMap)]);
    }

    method EraseReserved(n: Name)
      requires Valid()
      modifies this`reservedPorts, this`model
      ensures Valid() && reservedPorts == old(reservedPorts) - {n}
      ensures Model() == old(Model()).(reserved := old(Model()).reserved - {n})
    {
      hide PortNodes.Node.Valid, PortNodes.Node.Model, WellFormedController, NodeOk, ChannelsAre, Lists, Puts;
      hide NamesOf, ArePorts;
      NodeInRepr();
      reservedPorts := reservedPorts - {n};
      model := model.(reserved := model.reserved - {n});
    }

    /** The scope of the reserved-ports lock when an invitation is sent. */
    method ReservePorts(temp: Name, attached: seq<(Text, PortRef)>)
      requires Valid() && forall i :: 0 <= i < |attached| ==> IsPort(attached[i].1, node.objects)
      modifies this`reservedPorts, this`model
      ensures Valid() && Model() == Reserve(old(Model()), temp, Listed(attached))
    {
      hide PortNodes.Node.Valid, PortNodes.Node.Model, WellFormedController, TablesAre, NodeOk, ChannelsAre;
      hide NodeController.Valid;
      hide NodeController.Model, Listed, NamesOf, EmplaceAll;
      var portMap := map[];
      ReservedFacts(temp);
      NoNames();
      if temp in reservedPorts {
        portMap := reservedPorts[temp];
      }
      ghost var before := NamesOf(portMap);
      NothingListed(before);
      for i := 0 to |attached|
        modifies {}
        invariant NamesOf(portMap) == EmplaceAll(before, Listed(attached[..i])) && ArePorts(portMap, node.objects)
      {
        var (pipe, port) := attached[i];
        EmplaceOne(portMap, before, attached, i);
        if pipe !in portMap {
          portMap := portMap[pipe := port];
        }
      }
      assert attached[..|attached|] == attached;
      PutReserved(temp, portMap);
    }

    method PendInvitation(temp: Name, ch: NodeChannel)
      requires Valid() && Owns(ch)
      modifies this`pendingInvitations, this`model
      ensures Valid()
      ensures
        var c := old(Model());
        Model() == if temp in c.pendingInvitations then c
                   else c.(pendingInvitations := c.pendingInvitations[temp := ch.socket])
    {
      hide PortNodes.Node.Valid, PortNodes.Node.Model, WellFormedController, NodeOk, ChannelsAre, Reserves, Puts;
      OwnFacts(ch);
      if temp !in pendingInvitations {
        pendingInvitations := pendingInvitations[temp := ch];
        model := model.(pendingInvitations := model.pendingInvitations[temp := ch.socket]);
      }
    }

    /** Tells the invitee who invites it, and by what token. */
    method InviteeOn(ch: NodeChannel, inviter: Name, token: Name)
      requires Valid() && Owns(ch)
      modifies this`model, ch`outbox
      ensures Valid() && Model() == Send(old(Model()), ch.socket, Body.AcceptInvitee(token, inviter))
    {
      hide PortNodes.Node.Valid, PortNodes.Node.Model, WellFormedController, TablesAre, NodeOk;
      OwnFacts(ch);
      Expect(ch, Body.AcceptInvitee(token, inviter));
      ch.AcceptInvitee(inviter, token);
    }

    /** Answers an invitation. */
    method InvitationOn(ch: NodeChannel, token: Name, invitee: Name)
      requires Valid() && Owns(ch)
      modifies this`model, ch`outbox
      ensures Valid() && Model() == Send(old(Model()), ch.socket, Body.AcceptInvitation(token, invitee))
    {
      hide PortNodes.Node.Valid, PortNodes.Node.Model, WellFormedController, TablesAre, NodeOk;
      OwnFacts(ch);
      Expect(ch, Body.AcceptInvitation(token, invitee));
      ch.AcceptInvitation(token, invitee);
    }

    /** Answers a merge request. */
    method ResponseOn(ch: NodeChannel, connector: Name, port: Name)
      requires Valid() && Owns(ch)
      modifies this`model, ch`outbox
      ensures Valid() && Model() == Send(old(Model()), ch.socket, Body.ResponsePortMerge(connector, port))
    {
      hide PortNodes.Node.Valid, PortNodes.Node.Model, WellFormedController, TablesAre, NodeOk;
      OwnFacts(ch);
      Expect(ch, Body.ResponsePortMerge(connector, port));
      ch.ResponsePortMerge(connector, port);
    }

    /** `temp` is drawn at random, `s` is the new channel. */
    method SendInvitation(temp: Name, ghost s: Socket, attached: seq<(Text, PortRef)>) returns (ch: NodeChannel)
      requires Valid() && s !in channels
      requires forall i :: 0 <= i < |attached| ==> IsPort(attached[i].1, node.objects)
      modifies this
      ensures Valid() && fresh(ch) && channels == old(channels)[s := ch]
      ensures Model() == Controllers.SendInvitation(old(Model()), temp, s, Listed(attached))
    {
      hide PortNodes.Node.Valid, PortNodes.Node.Model, WellFormedController, TablesAre, NodeOk, ChannelsAre;
      hide NodeController.Valid;
      hide NodeController.Model, Reserve, Listed, NewChannel;
      ReservePorts(temp, attached);
      ch := NewChannelOf(s);
      PendInvitation(temp, ch);
      SetRemoteOn(ch, temp);
      InviteeOn(ch, name, temp);
    }

    method SetInviter(ch: NodeChannel)
      requires Valid() && Owns(ch)
      modifies this`inviterName, this`inviterChannel, this`model
      ensures Valid() && Model() == old(Model()).(inviterName := NONE, inviterChannel := Some(ch.socket))
    {
      hide PortNodes.Node.Valid, PortNodes.Node.Model, WellFormedController, NodeOk, ChannelsAre, Reserves, Puts, Lists;
      NodeInRepr();
      inviterName := NONE;
      inviterChannel := ch;
      model := model.(inviterName := NONE, inviterChannel := Some(ch.socket));
    }

    method AcceptInvitation(ghost s: Socket) returns (ch: NodeChannel)
      requires Valid() && s !in channels
      modifies this
      ensures Valid() && fresh(ch) && channels == old(channels)[s := ch]
      ensures Model() == AcceptInvitationOn(old(Model()), s)
    {
      hide PortNodes.Node.Valid, PortNodes.Node.Model, WellFormedController, TablesAre, NodeOk, ChannelsAre;
      hide NodeController.Valid, NodeController.Model, NewChannel;
      ch := NewChannelOf(s);
      SetInviter(ch);
    }

    // ---------------------------------------------------------------- the inviter's handlers

    /** The scope of the reserved-ports lock when a merge is requested. */
    method TakeReservedPort(from: Name, pipe: Text) returns (port: PortNodes.PortRef)
      requires Valid()
      modifies this`reservedPorts, this`model
      ensures Valid()
      ensures (Model(), if port.port == null then None else Some(port.name)) == TakeReserved(old(Model()), from, pipe)
      ensures port.port != null ==> node.Refers(port)
    {
      hide PortNodes.Node.Valid, PortNodes.Node.Model, WellFormedController, TablesAre, NodeOk, ChannelsAre;
      hide NodeController.Valid;
      hide NodeController.Model, NamesOf;
      port := PortNodes.PortRef(NONE, null);
      ReservedFacts(from);
      if from !in reservedPorts {
        return;
      }
      var portMap := reservedPorts[from];
      NamesWithout(portMap, pipe);
      if pipe !in portMap {
        return;
      }
      port := portMap[pipe];
      portMap := portMap - {pipe};
      if portMap == map[] {
        EraseReserved(from);
      } else {
        PutReserved(from, portMap);
      }
    }

    method MergeNodePorts(port: PortRef, from: Name, connector: Name) returns (local: Name)
      requires Valid() && node.Refers(port) && port.name in node.objects
      modifies node.Repr
      ensures Valid() && Model() == MergeAt(old(Model()), port.name, from, connector)
      ensures local == BridgePeer(old(Model()).node, port.name)
      ensures node.objects == old(node.objects) && node.Repr == old(node.Repr)
    {
      hide PortNodes.Node.Valid, PortNodes.Node.Model, WellFormedController, TablesAre, ChannelsAre;
      hide PortTable.MergePorts;
      var status;
      status, local := node.MergePorts(port, from, connector);
    }

    method OnRequestPortMerge(from: Name, connector: Name, pipe: Text) returns (crashed: bool)
      requires Valid()
      modifies this, node.Repr, channels.Values
      ensures Valid()
      ensures
        var outcome := Controllers.OnRequestPortMerge(old(Model()), from, connector, pipe);
        if crashed then outcome.Crash? else outcome == Done(Model())
      ensures node.objects == old(node.objects) && node.Repr == old(node.Repr)
    {
      hide PortNodes.Node.Valid, PortNodes.Node.Model, WellFormedController, TablesAre, NodeOk, ChannelsAre;
      hide NodeController.Valid;
      hide NodeController.Model, TakeReserved, MergeAt, BridgePeer;
      NodeInRepr();
      crashed := false;
      var port := TakeReservedPort(from, pipe);
      if port.port == null {
        return;
      }
      var local := MergeNodePorts(port, from, connector);
      var peer := GetPeerChannel(from);
      if peer == null {
        return true;
      }
      ResponseOn(peer, connector, local);
    }

    /** The scope of the reserved-ports lock when an invitee accepts. */
    method RekeyPorts(temp: Name, n: Name)
      requires Valid()
      modifies this`reservedPorts, this`model
      ensures Valid() && Model() == Rekey(old(Model()), temp, n)
    {
      hide PortNodes.Node.Valid, PortNodes.Node.Model, WellFormedController, TablesAre, NodeOk, ChannelsAre;
      hide NodeController.Valid;
      hide NodeController.Model, NamesOf, ArePorts;
      ReservedFacts(temp);
      ReservedFacts(n);
      if temp in reservedPorts {
        if n !in reservedPorts {
          PutReserved(n, reservedPorts[temp]);
        }
        EraseReserved(temp);
      }
    }

    method TakePending(temp: Name) returns (ch: NodeChannel)
      requires Valid() && temp in pendingInvitations
      modifies this`pendingInvitations, this`model
      ensures Valid() && Owns(ch) && ch in channels.Values
      ensures temp in old(Model()).pendingInvitations && ch.socket == old(Model()).pendingInvitations[temp]
      ensures Model() == old(Model()).(pendingInvitations := old(Model()).pendingInvitations - {temp})
    {
      hide PortNodes.Node.Valid, PortNodes.Node.Model, WellFormedController, NodeOk, Reserves, Puts;
      NodeInRepr();
      ch := pendingInvitations[temp];
      pendingInvitations := pendingInvitations - {temp};
      model := model.(pendingInvitations := model.pendingInvitations - {temp});
    }

    lemma PendingKeys()
      requires Valid()
      ensures pendingInvitations.Keys == Model().pendingInvitations.Keys
      ensures reservedPorts.Keys == Model().reserved.Keys
    {
      hide PortNodes.Node.Valid, PortNodes.Node.Model, WellFormedController, ChannelsAre;
    }

    method OnAcceptInvitation(from: Name, token: Name, invitee: Name)
      requires Valid()
      modifies this, node.Repr, channels.Values
      ensures Valid() && Model() == Controllers.OnAcceptInvitation(old(Model()), from, token, invitee)
      ensures node.objects == old(node.objects) && node.Repr == old(node.Repr)
    {
      hide PortNodes.Node.Valid, PortNodes.Node.Model, WellFormedController, TablesAre, NodeOk, ChannelsAre;
      hide NodeController.Valid;
      hide NodeController.Model, Rekey, Controllers.AddPeer, Controllers.DropPeer;
      PendingKeys();
      if from !in pendingInvitations || token != from {
        DropPeer(from);
        return;
      }
      RekeyPorts(from, invitee);
      RekeyFacts(old(Model()), from, invitee);
      PendingKeys();
      var ch := TakePending(from);
      AddPeer(invitee, ch);
    }

    // ---------------------------------------------------------------- dropping a peer

    method ForgetPeer(n: Name)
      requires Valid()
      modifies this`peers, this`pendingPeerMessages, this`pendingInvitations, this`model
      ensures Valid() && Model() == Controllers.ForgetPeer(old(Model()), n)
    {
      hide PortNodes.Node.Valid, PortNodes.Node.Model, WellFormedController, NodeOk, ChannelsAre, Reserves, Puts, Lists;
      NodeInRepr();
      ListsWithout(peers, model.peers, channels, n);
      ListsWithout(pendingInvitations, model.pendingInvitations, channels, n);
      peers := peers - {n};
      pendingPeerMessages := pendingPeerMessages - {n};
      pendingInvitations := pendingInvitations - {n};
      model := Controllers.ForgetPeer(model, n);
    }

    /** All ports reserved for a node, in no particular order; they are no longer reserved. */
    method TakeAllReserved(n: Name) returns (ports: seq<PortRef>)
      requires Valid() && n in reservedPorts
      modifies this`reservedPorts, this`model
      ensures Valid() && n in old(Model()).reserved
      ensures Model() == old(Model()).(reserved := old(Model()).reserved - {n})
      ensures PortNames(ports) == old(Model()).reserved[n].Values
    {
      hide PortNodes.Node.Valid, PortNodes.Node.Model, WellFormedController, TablesAre, NodeOk, ChannelsAre;
      hide NodeController.Valid;
      hide NodeController.Model, NamesOf, ArePorts;
      ReservedFacts(n);
      var portMap := reservedPorts[n];
      var keys := portMap.Keys;
      ports := [];
      while keys != {}
        modifies {}
        invariant keys <= portMap.Keys && PortNames(ports) == NamesUnder(portMap, portMap.Keys - keys)
        decreases keys
      {
        var x :| x in keys;
        NamesOneMore(portMap, portMap.Keys - keys, x, ports);
        assert portMap.Keys - keys + {x} == portMap.Keys - (keys - {x});
        ports := ports + [portMap[x]];
        keys := keys - {x};
      }
      assert portMap.Keys - keys == portMap.Keys;
      NamesUnderAll(portMap);
      EraseReserved(n);
    }

    method ClosePort(port: PortRef)
      requires Valid()
      modifies node`ports
      ensures Valid() && Model() == old(Model()).(node := ErasePort(old(Model()).node, port.name))
      ensures node.objects == old(node.objects) && node.Repr == old(node.Repr)
    {
      hide PortNodes.Node.Valid, PortNodes.Node.Model, WellFormedController, TablesAre, ChannelsAre;
      NodeInRepr();
      node.ClosePort(port);
    }

    method DropPeer(n: Name)
      requires Valid()
      modifies this, node.Repr
      ensures Valid() && Model() == Controllers.DropPeer(old(Model()), n)
      ensures node.objects == old(node.objects) && node.Repr == old(node.Repr)
    {
      hide PortNodes.Node.Valid, PortNodes.Node.Model, WellFormedController, TablesAre, NodeOk, ChannelsAre;
      hide NodeController.Valid;
      hide NodeController.Model, Controllers.ForgetPeer, EraseAll, PortNames;
      ForgetPeer(n);
      PendingKeys();
      if n !in reservedPorts {
        return;
      }
      ghost var c := Model();
      var ports := TakeAllReserved(n);
      NodeInRepr();
      EraseNone(Model().node);
      for i := 0 to |ports|
        invariant Valid() && node.objects == old(node.objects) && node.Repr == old(node.Repr)
        invariant Model() == c.(reserved := c.reserved - {n}, node := EraseAll(c.node, PortNames(ports[..i])))
      {
        EraseOneMore(c.node, ports, i);
        ClosePort(ports[i]);
      }
      assert ports[..|ports|] == ports;
    }

    // ---------------------------------------------------------------- the invitee's handlers

    /** The scope of the pending-merges lock when they are handled. */
    method SwapPendingMerges() returns (merges: seq<(Text, PortRef)>)
      requires Valid()
      modifies this`pendingPortMerges, this`model
      ensures Valid() && |merges| == |old(Model()).pendingMerges|
      ensures Model() == SwapPending(old(Model())).0
      ensures forall i :: 0 <= i < |merges| ==> MergeOf(merges[i]) == old(Model()).pendingMerges[i]
    {
      hide PortNodes.Node.Valid, PortNodes.Node.Model, WellFormedController, NodeOk, ChannelsAre, Lists, Reserves;
      NodeInRepr();
      merges := pendingPortMerges;
      pendingPortMerges := [];
      model := SwapPending(model).0;
    }

    method HandlePendingMergePort() returns (crashed: bool)
      requires Valid()
      modifies this, channels.Values
      ensures Valid()
      ensures
        var outcome := Controllers.HandlePendingMergePort(old(Model()));
        if crashed then outcome.Crash? else outcome == Done(Model())
    {
      hide PortNodes.Node.Valid, PortNodes.Node.Model, WellFormedController, TablesAre, NodeOk, ChannelsAre;
      hide NodeController.Valid;
      hide NodeController.Model, RequestBodies, SentUpTo, SwapPending, Controllers.GetInviterChannel;
      hide Controllers.HandlePendingMergePort;
      ghost var before := Model();
      var merges := SwapPendingMerges();
      ghost var swapped, bodies := Model(), RequestBodies(before.pendingMerges);
      InviterInOut(before);
      AllRequestsSent(before, bodies);
      SentNoneYet(swapped, bodies);
      for i := 0 to |merges|
        invariant Valid() && channels == old(channels) && Model() == SentUpTo(swapped, bodies, i)
        invariant i > 0 ==> Controllers.GetInviterChannel(swapped).Some?
      {
        var inviter := GetInviterChannel();
        SentKeepsInviter(swapped, bodies, i);
        if inviter == null {
          return true;
        }
        SentOneMore(swapped, bodies, i);
        RequestOn(inviter, merges[i].1.name, merges[i].0);
      }
      crashed := false;
    }

    method NameInviter(inviter: Name)
      requires Valid()
      modifies this`inviterName, this`model
      ensures Valid() && Model() == Controllers.NameInviter(old(Model()), inviter)
    {
      hide PortNodes.Node.Valid, PortNodes.Node.Model, WellFormedController, NodeOk, ChannelsAre, Lists, Reserves, Puts;
      NodeInRepr();
      inviterName := inviter;
      model := Controllers.NameInviter(model, inviter);
    }

    lemma InviterChannelFacts()
      requires Valid()
      ensures inviterChannel == null <==> Model().inviterChannel.None?
      ensures inviterChannel != null ==>
                Owns(inviterChannel) && inviterChannel in channels.Values && Model().inviterChannel == Some(inviterChannel.socket)
    {
      hide PortNodes.Node.Valid, PortNodes.Node.Model, WellFormedController, NodeOk, Lists, Reserves, Puts;
    }

    method OnAcceptInvitee(inviter: Name, token: Name) returns (crashed: bool)
      requires Valid()
      modifies this, channels.Values
      ensures Valid()
      ensures
        var outcome := Controllers.OnAcceptInvitee(old(Model()), inviter, token);
        if crashed then outcome.Crash? else outcome == Done(Model())
    {
      hide PortNodes.Node.Valid, PortNodes.Node.Model, WellFormedController, TablesAre, NodeOk, ChannelsAre;
      hide NodeController.Valid;
      hide NodeController.Model, Controllers.AddPeer, SetRemote, Send, Controllers.HandlePendingMergePort;
      InviterChannelFacts();
      NameInviter(inviter);
      if inviterChannel == null {
        return true;
      }
      SetRemoteOn(inviterChannel, inviter);
      InvitationOn(inviterChannel, token, name);
      AddPeer(inviter, inviterChannel);
      crashed := HandlePendingMergePort();
    }

    method OnResponsePortMerge(from: Name, connector: Name, port: Name) returns (crashed: bool)
      requires Valid()
      modifies node.Repr
      ensures Valid()
      ensures
        var outcome := Controllers.OnResponsePortMerge(old(Model()), from, connector, port);
        if crashed then outcome.Crash? else outcome == Done(Model())
      ensures node.objects == old(node.objects) && node.Repr == old(node.Repr)
    {
      hide PortNodes.Node.Valid, PortNodes.Node.Model, WellFormedController, TablesAre, ChannelsAre;
      hide PortTable.MergePortsResponse;
      var status;
      crashed, status := node.MergePortsResponse(connector, from, port);
    }

    // ---------------------------------------------------------------- user messages

    method OnUserMessage(m: Body) returns (crashed: bool)
      requires Valid() && m.UserMessage?
      modifies node.Repr
      ensures Valid()
      ensures
        var outcome := Controllers.OnUserMessage(old(Model()), m);
        if crashed then outcome.Crash? else outcome == Done(Model())
      ensures node.objects == old(node.objects) && node.Repr == old(node.Repr)
    {
      hide PortNodes.Node.Valid, PortNodes.Node.Model, WellFormedController, TablesAre, ChannelsAre, PortTable.Accept;
      crashed := node.OnUserMessage(m.to, m);
    }

    method LetWait(n: Name, m: Body)
      requires Valid()
      modifies this`pendingPeerMessages, this`model
      ensures Valid() && Model() == Controllers.LetWait(old(Model()), n, m)
    {
      hide PortNodes.Node.Valid, PortNodes.Node.Model, WellFormedController, NodeOk, ChannelsAre, Lists, Reserves, Puts;
      NodeInRepr();
      var queue := if n in pendingPeerMessages then pendingPeerMessages[n] else [];
      pendingPeerMessages := pendingPeerMessages[n := queue + [m]];
      model := Controllers.LetWait(model, n, m);
    }

    /** The second lookup, under the lock: the message is sent or left waiting. */
    method SendOrLetWait(n: Name, m: Body)
      requires Valid()
      modifies this`pendingPeerMessages, this`model, channels.Values
      ensures Valid() && Model() == Controllers.SendPeerEvent(old(Model()), n, m)
    {
      hide PortNodes.Node.Valid, PortNodes.Node.Model, WellFormedController, TablesAre, NodeOk, ChannelsAre;
      hide NodeController.Valid;
      hide NodeController.Model, Controllers.GetPeerChannel, Controllers.LetWait, Send;
      var peer := GetPeerChannel(n);
      if peer == null {
        LetWait(n, m);
      } else {
        SendOn(peer, m);
      }
    }

    method SendPeerEvent(n: Name, m: Body)
      requires Valid()
      modifies this`pendingPeerMessages, this`model, channels.Values
      ensures Valid() && Model() == Controllers.SendPeerEvent(old(Model()), n, m)
    {
      hide PortNodes.Node.Valid, PortNodes.Node.Model, WellFormedController, TablesAre, NodeOk, ChannelsAre;
      hide NodeController.Valid;
      hide NodeController.Model, Controllers.GetPeerChannel, Controllers.LetWait, Send;
      var peer := GetPeerChannel(n);
      if peer != null {
        SendOn(peer, m);
      } else {
        SendOrLetWait(n, m);
      }
    }

    method ForwardEvent(n: Name, m: Body)
      requires Valid()
      modifies this`pendingPeerMessages, this`model, channels.Values
      ensures Valid() && Model() == Controllers.ForwardEvent(old(Model()), n, m)
    {
      hide PortNodes.Node.Valid, PortNodes.Node.Model, WellFormedController, TablesAre, NodeOk, ChannelsAre;
      hide NodeController.Valid;
      hide NodeController.Model, Controllers.SendPeerEvent;
      if n != name {
        SendPeerEvent(n, m);
      }
    }

    lemma PortKnown(port: PortRef)
      requires Valid() && node.Refers(port)
      ensures port.name in Model().node.ports
    {
      hide TablesAre, ChannelsAre;
      node.ObjectFacts(port.name);
    }

    lemma PortObjects(port: PortRef)
      requires Valid() && node.Refers(port)
      ensures node in node.Repr && port.port in node.Repr && port.port.queue in node.Repr
    {
      hide TablesAre, ChannelsAre;
      node.ObjectFacts(port.name);
    }

    method OutgoingOf(port: PortRef, data: Text) returns (n: Name, m: Body)
      requires Valid() && node.Refers(port)
      ensures port.name in Model().node.ports && (n, m) == Outgoing(Model().node, port.name, data)
    {
      hide PortNodes.Node.Valid, PortNodes.Node.Model, WellFormedController, TablesAre, ChannelsAre;
      PortKnown(port);
      n, m := node.SendUserMessage(port, data);
    }

    method SendUserMessage(port: PortRef, data: Text)
      requires Valid() && node.Refers(port)
      modifies this`pendingPeerMessages, this`model, channels.Values
      ensures Valid() && port.name in old(Model()).node.ports
      ensures Model() == Controllers.SendUserMessage(old(Model()), port.name, data)
    {
      hide PortNodes.Node.Valid, PortNodes.Node.Model, WellFormedController, TablesAre, NodeOk, ChannelsAre;
      hide NodeController.Valid;
      hide NodeController.Model, Outgoing, Controllers.ForwardEvent;
      var n, m := OutgoingOf(port, data);
      ForwardEvent(n, m);
    }

    method GetUserMessage(port: PortRef) returns (m: Option<Body>)
      requires Valid() && node.Refers(port)
      modifies node.Repr
      ensures Valid() && port.name in old(Model()).node.ports
      ensures (m, Model()) == Controllers.GetUserMessage(old(Model()), port.name)
      ensures node.objects == old(node.objects) && node.Repr == old(node.Repr)
    {
      hide PortNodes.Node.Valid, PortNodes.Node.Model, WellFormedController, TablesAre, ChannelsAre;
      hide PortTable.GetMessage;
      PortKnown(port);
      PortObjects(port);
      m := node.GetMessage(port);
    }

    lemma RemoteIs(ch: NodeChannel)
      requires Valid() && Owns(ch)
      ensures ch.socket in Model().remote && Model().remote[ch.socket] == ch.remoteNodeName
    {
      hide PortNodes.Node.Valid, PortNodes.Node.Model, WellFormedController, NodeOk, TablesAre;
    }

    /** A frame that came in on a channel is decoded, and its message goes to its handler. */
    method OnChannelMessage(ch: NodeChannel, kind: byte, content: seq<byte>) returns (crashed: bool)
      requires Valid() && Owns(ch) && |content| <= MAX_STRING
      modifies this, node.Repr, channels.Values
      ensures Valid()
      ensures
        ch.socket in old(Model()).remote &&
        var outcome := OnFrame(old(Model()), ch.socket, Frames.Frame(kind, content));
        if crashed then outcome.Crash? else outcome == Done(Model())
      ensures node.objects == old(node.objects) && node.Repr == old(node.Repr)
    {
      hide PortNodes.Node.Valid, PortNodes.Node.Model, WellFormedController, TablesAre, NodeOk, ChannelsAre;
      hide NodeController.Valid;
      hide NodeController.Model, Controllers.OnChannelMessage, Deserialize;
      RemoteIs(ch);
      var m: Result<Body>;
      match kind {
        case 1 => m := Messages.DeserializeMessage(Invitee, content);
        case 2 => m := Messages.DeserializeMessage(Invitation, content);
        case 3 => m := Messages.DeserializeMessage(Request, content);
        case 4 => m := Messages.DeserializeMessage(Response, content);
        case 5 => m := Messages.DeserializeMessage(User, content);
        case _ => return true;
      }
      if m.Failure? {
        return true;
      }
      crashed := Dispatch(ch, m.value);
    }

    /** Every kind of message has its handler. */
    method Dispatch(ch: NodeChannel, m: Body) returns (crashed: bool)
      requires Valid() && Owns(ch)
      modifies this, node.Repr, channels.Values
      ensures Valid()
      ensures
        ch.socket in old(Model()).remote &&
        var outcome := Controllers.OnChannelMessage(old(Model()), ch.socket, m);
        if crashed then outcome.Crash? else outcome == Done(Model())
      ensures node.objects == old(node.objects) && node.Repr == old(node.Repr)
    {
      hide PortNodes.Node.Valid, PortNodes.Node.Model, WellFormedController, TablesAre, NodeOk, ChannelsAre;
      hide NodeController.Valid;
      hide NodeController.Model, Controllers.OnAcceptInvitation, Controllers.OnAcceptInvitee;
      hide Controllers.OnRequestPortMerge, Controllers.OnResponsePortMerge, Controllers.OnUserMessage;
      RemoteIs(ch);
      crashed := false;
      match m
      case AcceptInvitation(token, invitee) => OnAcceptInvitation(ch.remoteNodeName, token, invitee);
      case AcceptInvitee(token, inviter) => crashed := OnAcceptInvitee(inviter, token);
      case RequestPortMerge(connector, pipe) => crashed := OnRequestPortMerge(ch.remoteNodeName, connector, pipe);
      case ResponsePortMerge(connector, port) => crashed := OnResponsePortMerge(ch.remoteNodeName, connector, port);
      case UserMessage(_, _, _) => crashed := OnUserMessage(m);
    }
  }
}
