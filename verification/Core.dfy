// What an application calls: invitations, message pipes and their handles.

module CoreSpec {
  import opened Bytes
  import opened Names
  import opened Bodies
  import opened PortTable
  import opened Controllers

  datatype Answer = Ok | InvalidArgument | NotFound | AlreadyExists | ResourceExhausted

  const INVALID_HANDLE: uint64 := 0

  /** The invitations with their attached ports, and the ports of the message pipes, by handle. */
  datatype Core = Core(c: Controller, invitations: map<uint64, map<Text, Name>>, pipes: map<uint64, Name>, next: uint64)

  function Successor(n: uint64): uint64 {
    if n == 0xFFFF_FFFF_FFFF_FFFF then 0 else n + 1
  }

  /** Handles are never used twice: when the counter has wrapped around there are no more. */
  ghost predicate HandlesOk(invitations: set<uint64>, pipes: set<uint64>, next: uint64) {
    && invitations !! pipes && INVALID_HANDLE !in invitations && INVALID_HANDLE !in pipes
    && (next != INVALID_HANDLE ==> forall h :: h in invitations || h in pipes ==> h < next)
  }

  ghost predicate HandlesFresh(v: Core) {
    HandlesOk(v.invitations.Keys, v.pipes.Keys, v.next)
  }

  predicate WellFormedCore(v: Core) {
    && WellFormedController(v.c)
    && (forall h, x :: h in v.invitations && x in v.invitations[h] ==> v.invitations[h][x] in v.c.node.ports)
    && (forall h :: h in v.pipes ==> v.pipes[h] in v.c.node.ports)
  }

  function AddInvitation(v: Core): (uint64, Core) {
    if v.next == INVALID_HANDLE then (INVALID_HANDLE, v)
    else (v.next, v.(invitations := v.invitations[v.next := map[]], next := Successor(v.next)))
  }

  function AddPipe(v: Core, port: Name): (uint64, Core) {
    if v.next == INVALID_HANDLE then (INVALID_HANDLE, v)
    else (v.next, v.(pipes := v.pipes[v.next := port], next := Successor(v.next)))
  }

  function CreateInvitation(v: Core): (Answer, uint64, Core) {
    var (h, w) := AddInvitation(v);
    (if h == INVALID_HANDLE then ResourceExhausted else Ok, h, w)
  }

  lemma PairWellFormed(c: Controller, n: Node)
    requires WellFormedController(c) && WellFormed(n) && c.node.ports.Keys <= n.ports.Keys
    ensures WellFormedController(c.(node := n))
  {
  }

  lemma WithPairKeeps(c: Controller, l: Name, r: Name)
    requires FreshPorts(c.node, l, r)
    ensures WellFormedController(c) ==> WellFormedController(WithPair(c, l, r))
  {
    if WellFormedController(c) {
      CreatePairMakes(c.node, l, r);
      PairWellFormed(c, CreatePair(c.node, l, r).1);
    }
  }

  /** Makes a pair of ports, attaches the one and returns a handle of the other. The pair is made, and
      the handle used up, also when the name is taken. */
  function Attach(v: Core, h: uint64, pipe: Text, l: Name, r: Name): (Answer, uint64, Core)
    requires FreshPorts(v.c.node, l, r)
  {
    if h !in v.invitations then (InvalidArgument, INVALID_HANDLE, v)
    else
      var (handle, w) := AddPipe(v.(c := WithPair(v.c, l, r)), l);
      if handle == INVALID_HANDLE then (ResourceExhausted, INVALID_HANDLE, w)
      else if pipe in w.invitations[h] then (AlreadyExists, INVALID_HANDLE, w)
      else (Ok, handle, w.(invitations := w.invitations[h := w.invitations[h][pipe := r]]))
  }

  function DetachPort(v: Core, h: uint64, pipe: Text): (Answer, uint64, Core)
    requires h in v.invitations
  {
    if pipe !in v.invitations[h] then (NotFound, INVALID_HANDLE, v)
    else
      var port := v.invitations[h][pipe];
      var (handle, w) := AddPipe(v.(invitations := v.invitations[h := v.invitations[h] - {pipe}]), port);
      (if handle == INVALID_HANDLE then ResourceExhausted else Ok, handle, w)
  }

  /** A pipe that is not attached here is a new pair, whose other half the inviter merges with its own. */
  function Extract(v: Core, h: uint64, pipe: Text, p0: Name, p1: Name): (Answer, uint64, Core)
    requires WellFormedCore(v) && FreshPorts(v.c.node, p0, p1)
  {
    if h !in v.invitations then (InvalidArgument, INVALID_HANDLE, v)
    else
      var (answer, handle, w) := DetachPort(v, h, pipe);
      if answer.Ok? then (Ok, handle, w)
      else
        WithPairKeeps(w.c, p0, p1);
        var (handle', x) := AddPipe(w.(c := WithPair(w.c, p0, p1)), p0);
        (if handle' == INVALID_HANDLE then ResourceExhausted else Ok, handle',
         x.(c := MergePortIntoInviter(x.c, Merge(pipe, p0))))
  }

  /** Sends all attached ports along; none stays attached. */
  function SendInvitation(v: Core, h: uint64, temp: Name, s: Socket): (Answer, Core) {
    if h !in v.invitations then (InvalidArgument, v)
    else
      (Ok, v.(c := Controllers.SendInvitation(v.c, temp, s, v.invitations[h]), invitations := v.invitations[h := map[]]))
  }

  function AcceptInvitation(v: Core, s: Socket): (Answer, uint64, Core) {
    var (h, w) := AddInvitation(v);
    if h == INVALID_HANDLE then (ResourceExhausted, h, w)
    else (Ok, h, w.(c := AcceptInvitationOn(w.c, s)))
  }

  function WriteMessage(v: Core, h: uint64, data: Text): (Answer, Core)
    requires WellFormedCore(v)
  {
    if h !in v.pipes then (InvalidArgument, v)
    else (Ok, v.(c := SendUserMessage(v.c, v.pipes[h], data)))
  }

  /** Reading an empty pipe is no error, and reads nothing. */
  function ReadMessage(v: Core, h: uint64): (Answer, Option<Body>, Core)
    requires WellFormedCore(v)
  {
    if h !in v.pipes then (InvalidArgument, None, v)
    else
      var (m, c) := GetUserMessage(v.c, v.pipes[h]);
      (Ok, m, v.(c := c))
  }

  /** A handle that is given out is a new one, and behind it is what was added. */
  lemma HandlesAreNew(v: Core, port: Name)
    requires HandlesFresh(v)
    ensures
      var (h, w) := AddPipe(v, port);
      && HandlesFresh(w) && (h == INVALID_HANDLE <==> v.next == INVALID_HANDLE)
      && if h == INVALID_HANDLE then w == v
         else h !in v.pipes && h !in v.invitations && w == v.(pipes := v.pipes[h := port], next := w.next)
    ensures
      var (h, w) := AddInvitation(v);
      && HandlesFresh(w) && (h == INVALID_HANDLE <==> v.next == INVALID_HANDLE)
      && if h == INVALID_HANDLE then w == v
         else h !in v.pipes && h !in v.invitations && w == v.(invitations := v.invitations[h := map[]], next := w.next)
  {
  }

  /** What attaching does when the handle is there and the name is free. */
  lemma AttachMakes(v: Core, h: uint64, pipe: Text, l: Name, r: Name)
    requires FreshPorts(v.c.node, l, r) && HandlesFresh(v) && Attach(v, h, pipe, l, r).0.Ok?
    ensures
      var (_, here, w) := Attach(v, h, pipe, l, r);
      && h in v.invitations && pipe !in v.invitations[h] && here == v.next != INVALID_HANDLE
      && w.c == WithPair(v.c, l, r) && w.pipes == v.pipes[here := l] && w.next == Successor(v.next)
      && w.invitations == v.invitations[h := v.invitations[h][pipe := r]]
  {
    hide WithPair;
  }

  lemma DetachMakes(w: Core, h: uint64, pipe: Text)
    requires h in w.invitations && DetachPort(w, h, pipe).0.Ok?
    ensures
      var (_, there, x) := DetachPort(w, h, pipe);
      && pipe in w.invitations[h] && there == w.next != INVALID_HANDLE && x.c == w.c
      && x.pipes == w.pipes[there := w.invitations[h][pipe]]
      && x.invitations == w.invitations[h := w.invitations[h] - {pipe}]
  {
  }

  /** Extracting a pipe on the side that attached it undoes attaching it: the invitation is as it was,
      and the two handles are those of the two ends of one local pair. */
  lemma ExtractUndoesAttach(v: Core, h: uint64, pipe: Text, l: Name, r: Name)
    requires Sound(v.c.node) && HandlesFresh(v) && FreshPorts(v.c.node, l, r) && Attach(v, h, pipe, l, r).0.Ok?
    requires h in Attach(v, h, pipe, l, r).2.invitations && DetachPort(Attach(v, h, pipe, l, r).2, h, pipe).0.Ok?
    ensures
      var (_, here, w) := Attach(v, h, pipe, l, r);
      var (_, there, x) := DetachPort(w, h, pipe);
      && x.invitations == v.invitations && x.c == w.c && here != there
      && x.pipes == v.pipes[here := l][there := r] && LocalPair(x.c.node, l, r)
  {
    hide Attach, DetachPort, CreatePair;
    AttachMakes(v, h, pipe, l, r);
    var w := Attach(v, h, pipe, l, r).2;
    DetachMakes(w, h, pipe);
    assert v.invitations[h][pipe := r] - {pipe} == v.invitations[h];
    assert w.invitations[h := v.invitations[h]] == v.invitations;
    CreatePairMakes(v.c.node, l, r);
    hide Sound;
  }
}

module Cores {
  import opened Bytes
  import opened Names
  import opened Bodies
  import opened PortTable
  import opened Controllers
  import opened NodeControllers
  import CoreSpec
  import PortNodes

  type Answer = CoreSpec.Answer

  class InvitationDispatcher {
    var attachedPorts: map<Text, PortNodes.PortRef>
    ghost const handle: uint64

    constructor (ghost h: uint64)
      ensures attachedPorts == map[] && handle == h
    {
      attachedPorts := map[];
      handle := h;
    }

    method AttachMessagePipe(pipe: Text, port: PortNodes.PortRef) returns (r: Answer)
      modifies this
      ensures r == if pipe in old(attachedPorts) then CoreSpec.AlreadyExists else CoreSpec.Ok
      ensures attachedPorts == if r.Ok? then old(attachedPorts)[pipe := port] else old(attachedPorts)
    {
      if pipe in attachedPorts {
        return CoreSpec.AlreadyExists;
      }
      attachedPorts := attachedPorts[pipe := port];
      return CoreSpec.Ok;
    }

    method ExtractPort(pipe: Text) returns (r: Answer, port: PortNodes.PortRef)
      modifies this
      ensures r == if pipe in old(attachedPorts) then CoreSpec.Ok else CoreSpec.NotFound
      ensures r.Ok? ==> port == old(attachedPorts)[pipe]
      ensures attachedPorts == old(attachedPorts) - {pipe}
    {
      port := PortNodes.PortRef(NONE, null);
      if pipe !in attachedPorts {
        assert attachedPorts - {pipe} == attachedPorts;
        return CoreSpec.NotFound, port;
      }
      port := attachedPorts[pipe];
      attachedPorts := attachedPorts - {pipe};
      r := CoreSpec.Ok;
    }

    method TakeAttachPorts() returns (ports: map<Text, PortNodes.PortRef>)
      modifies this
      ensures ports == old(attachedPorts) && attachedPorts == map[]
    {
      ports := attachedPorts;
      attachedPorts := map[];
    }
  }

  datatype Dispatcher = Invitation(invitation: InvitationDispatcher) | Pipe(port: PortNodes.PortRef)

  /** What is behind a handle. */
  ghost predicate IsBehind(h: uint64, d: Dispatcher, invitations: map<uint64, map<Text, Name>>, pipes: map<uint64, Name>,
                           objects: Objects)
    reads if d.Invitation? then {d.invitation} else {}
  {
    match d
    case Invitation(i) =>
      && i.handle == h && h in invitations && h !in pipes
      && NamesOf(i.attachedPorts) == invitations[h] && ArePorts(i.attachedPorts, objects)
    case Pipe(port) => h in pipes && h !in invitations && port.name == pipes[h] && IsPort(port, objects)
  }

  ghost predicate HandlesAre(
    handles: map<uint64, Dispatcher>, invitations: map<uint64, map<Text, Name>>, pipes: map<uint64, Name>,
    dispatchers: set<InvitationDispatcher>, objects: Objects)
    reads dispatchers
  {
    && handles.Keys == invitations.Keys + pipes.Keys
    && (forall h :: h in handles && handles[h].Invitation? ==> handles[h].invitation in dispatchers)
    && (forall h :: h in handles ==> IsBehind(h, handles[h], invitations, pipes, objects))
  }

  lemma PipeAdded(
    handles: map<uint64, Dispatcher>, invitations: map<uint64, map<Text, Name>>, pipes: map<uint64, Name>,
    dispatchers: set<InvitationDispatcher>, objects: Objects, h: uint64, port: PortNodes.PortRef)
    requires HandlesAre(handles, invitations, pipes, dispatchers, objects)
    requires h !in invitations && h !in pipes && IsPort(port, objects)
    ensures h !in handles
    ensures HandlesAre(handles[h := Pipe(port)], invitations, pipes[h := port.name], dispatchers, objects)
  {
    hide NamesOf, ArePorts;
  }

  lemma InvitationAdded(
    handles: map<uint64, Dispatcher>, invitations: map<uint64, map<Text, Name>>, pipes: map<uint64, Name>,
    dispatchers: set<InvitationDispatcher>, objects: Objects, h: uint64, d: InvitationDispatcher)
    requires HandlesAre(handles, invitations, pipes, dispatchers, objects)
    requires h !in invitations && h !in pipes && d.handle == h && d.attachedPorts == map[]
    ensures HandlesAre(handles[h := Dispatcher.Invitation(d)], invitations[h := map[]], pipes, dispatchers + {d}, objects)
  {
    NoNames();
    hide NamesOf;
  }

  /** Another port attached, or one less: the invitation behind `h` has changed, and nothing else. */
  lemma InvitationChanged(
    handles: map<uint64, Dispatcher>, invitations: map<uint64, map<Text, Name>>,
    pipes: map<uint64, Name>, dispatchers: set<InvitationDispatcher>, objects: Objects, h: uint64)
    requires h in invitations && h in handles && handles[h].Invitation? && handles[h].invitation in dispatchers
    requires handles[h].invitation.handle == h && h !in pipes && handles.Keys == invitations.Keys + pipes.Keys
    requires ArePorts(handles[h].invitation.attachedPorts, objects)
    requires forall g :: g in handles && handles[g].Invitation? ==> handles[g].invitation in dispatchers
    requires forall g :: g in handles && g != h ==> IsBehind(g, handles[g], invitations, pipes, objects)
    ensures HandlesAre(handles, invitations[h := NamesOf(handles[h].invitation.attachedPorts)], pipes, dispatchers, objects)
  {
    hide NamesOf, ArePorts;
  }

  lemma HandlesStay(
    handles: map<uint64, Dispatcher>, invitations: map<uint64, map<Text, Name>>, pipes: map<uint64, Name>,
    dispatchers: set<InvitationDispatcher>, before: Objects, after: Objects)
    requires HandlesAre(handles, invitations, pipes, dispatchers, before)
    requires forall q :: q in before ==> q in after && after[q] == before[q]
    ensures HandlesAre(handles, invitations, pipes, dispatchers, after)
  {
    hide NamesOf;
  }

  lemma OneMoreName(ports: map<Text, PortNodes.PortRef>, pipe: Text, port: PortNodes.PortRef, objects: Objects)
    requires ArePorts(ports, objects)
    ensures ArePorts(ports - {pipe}, objects) && (IsPort(port, objects) ==> ArePorts(ports[pipe := port], objects))
    ensures NamesOf(ports[pipe := port]) == NamesOf(ports)[pipe := port.name]
    ensures pipe in NamesOf(ports) <==> pipe in ports
    ensures NamesOf(ports - {pipe}) == NamesOf(ports) - {pipe}
    ensures pipe in ports ==> NamesOf(ports)[pipe] == ports[pipe].name
  {
  }

  lemma NameOfPort(ports: map<Text, PortNodes.PortRef>, x: Text, objects: Objects)
    requires x in NamesOf(ports) && ArePorts(ports, objects)
    ensures NamesOf(ports)[x] in objects
  {
  }

  lemma NothingAttached(objects: Objects)
    ensures NamesOf(map[]) == map[] && ArePorts(map[], objects)
  {
  }

  /** The ports of a map as a vector. */
  method ListPorts(ports: map<Text, PortNodes.PortRef>) returns (list: seq<(Text, PortNodes.PortRef)>)
    ensures Listed(list) == NamesOf(ports)
    ensures forall i :: 0 <= i < |list| ==> list[i].0 in ports && list[i].1 == ports[list[i].0]
  {
    var keys := ports.Keys;
    list := [];
    assert forall x :: x in ports ==> NamesOf(ports)[x] == ports[x].name;
    while keys != {}
      invariant keys <= ports.Keys && Listed(list).Keys == ports.Keys - keys
      invariant forall x :: x in Listed(list) ==> Listed(list)[x] == ports[x].name
      invariant forall i :: 0 <= i < |list| ==> list[i].0 in ports && list[i].1 == ports[list[i].0]
      decreases keys
    {
      var x :| x in keys;
      ListedMore(list, x, ports[x]);
      list := list + [(x, ports[x])];
      keys := keys - {x};
    }
  }

  lemma ListedMore(list: seq<(Text, PortNodes.PortRef)>, x: Text, port: PortNodes.PortRef)
    ensures Listed(list + [(x, port)]) == map[x := port.name] + Listed(list)
  {
    assert (list + [(x, port)])[..|list|] == list;
  }

  lemma PortsOf(ports: map<Text, PortNodes.PortRef>, objects: Objects)
    requires ArePorts(ports, objects)
    ensures forall x :: x in ports ==> IsPort(ports[x], objects)
  {
  }

  lemma Unchanged(invitations: map<uint64, map<Text, Name>>, h: uint64, pipe: Text)
    requires h in invitations && pipe !in invitations[h]
    ensures invitations[h := invitations[h] - {pipe}] == invitations
  {
    assert invitations[h] - {pipe} == invitations[h];
  }

  lemma DetachKeeps(v: CoreSpec.Core, h: uint64, pipe: Text)
    requires h in v.invitations
    ensures CoreSpec.DetachPort(v, h, pipe).2.c == v.c
  {
  }

  class Core {
    const controller: NodeController
    var handles: map<uint64, Dispatcher>
    var next: uint64
    ghost var invitations: map<uint64, map<Text, Name>>
    ghost var pipes: map<uint64, Name>
    ghost var dispatchers: set<InvitationDispatcher>

    /** Everything but what is behind the handles. */
    ghost predicate Rest()
      reads this, controller, controller.node, controller.node.Repr, controller.channels.Values
    {
      && controller.Valid()
      && this !in controller.node.Repr && controller !in controller.node.Repr
      && (forall d :: d in dispatchers ==> d !in controller.node.Repr)
      && CoreSpec.HandlesOk(invitations.Keys, pipes.Keys, next)
    }

    ghost predicate Valid()
      reads this, dispatchers, controller, controller.node, controller.node.Repr, controller.channels.Values
    {
      Rest() && HandlesAre(handles, invitations, pipes, dispatchers, controller.node.objects)
    }

    ghost function Model(): (v: CoreSpec.Core)
      requires Valid()
      reads this, dispatchers, controller, controller.node, controller.node.Repr, controller.channels.Values
      ensures CoreSpec.WellFormedCore(v)
    {
      var v := CoreSpec.Core(controller.Model(), invitations, pipes, next);
      CoreIsWellFormed(v);
      v
    }

    lemma CoreIsWellFormed(v: CoreSpec.Core)
      requires Valid() && v == CoreSpec.Core(controller.Model(), invitations, pipes, next)
      ensures CoreSpec.WellFormedCore(v)
    {
      hide WellFormedController, CoreSpec.HandlesOk, NamesOf, ArePorts, NodeController.Valid, NodeController.Model;
      controller.ObjectKeys();
      var objects := controller.node.objects;
      forall h, x | h in invitations && x in invitations[h]
        ensures invitations[h][x] in v.c.node.ports
      {
        assert IsBehind(h, handles[h], invitations, pipes, objects);
        hide IsBehind;
        NameOfPort(handles[h].invitation.attachedPorts, x, objects);
      }
      forall h | h in pipes
        ensures pipes[h] in v.c.node.ports
      {
        assert IsBehind(h, handles[h], invitations, pipes, objects);
      }
    }

    constructor (n: Name)
      ensures Valid() && Model() == CoreSpec.Core(NewController(n), map[], map[], 1)
    {
      controller := new NodeController(n);
      handles, next := map[], 1;
      invitations, pipes, dispatchers := map[], map[], {};
    }

    method AddPipe(port: PortNodes.PortRef) returns (h: uint64)
      requires Valid() && controller.node.Refers(port)
      modifies this`handles, this`next, this`pipes
      ensures Valid() && (h, Model()) == CoreSpec.AddPipe(old(Model()), port.name)
      ensures forall g :: g in old(handles) ==> g in handles && handles[g] == old(handles)[g]
    {
      hide NodeController.Valid, NodeController.Model, WellFormedController, CoreSpec.WellFormedCore, HandlesAre;
      hide CoreSpec.HandlesOk;
      if next == CoreSpec.INVALID_HANDLE {
        return CoreSpec.INVALID_HANDLE;
      }
      CoreSpec.HandlesAreNew(Model(), port.name);
      h := next;
      PipeAdded(handles, invitations, pipes, dispatchers, controller.node.objects, h, port);
      handles := handles[h := Pipe(port)];
      pipes := pipes[h := port.name];
      next := CoreSpec.Successor(next);
    }

    method AddInvitation() returns (h: uint64)
      requires Valid()
      modifies this`handles, this`next, this`invitations, this`dispatchers
      ensures Valid() && fresh(dispatchers - old(dispatchers))
      ensures (h, Model()) == CoreSpec.AddInvitation(old(Model()))
    {
      hide NodeController.Valid, NodeController.Model, WellFormedController, CoreSpec.WellFormedCore, HandlesAre;
      hide CoreSpec.HandlesOk;
      if next == CoreSpec.INVALID_HANDLE {
        return CoreSpec.INVALID_HANDLE;
      }
      CoreSpec.HandlesAreNew(Model(), NONE);
      h := next;
      var d := new InvitationDispatcher(h);
      InvitationAdded(handles, invitations, pipes, dispatchers, controller.node.objects, h, d);
      dispatchers := dispatchers + {d};
      handles := handles[h := Dispatcher.Invitation(d)];
      invitations := invitations[h := map[]];
      next := CoreSpec.Successor(next);
    }

    /** Whether a handle is that of an invitation. */
    predicate IsInvitation(h: uint64)
      reads this
    {
      h in handles && handles[h].Invitation?
    }

    predicate IsPipe(h: uint64)
      reads this
    {
      h in handles && handles[h].Pipe?
    }

    lemma HandleFacts(h: uint64)
      requires Valid()
      ensures IsInvitation(h) <==> h in Model().invitations
      ensures IsPipe(h) <==> h in Model().pipes
      ensures IsInvitation(h) ==>
                handles[h].invitation in dispatchers && handles[h].invitation.handle == h
                && NamesOf(handles[h].invitation.attachedPorts) == invitations[h]
                && ArePorts(handles[h].invitation.attachedPorts, controller.node.objects)
      ensures IsPipe(h) ==> handles[h].port.name == Model().pipes[h] && controller.node.Refers(handles[h].port)
      ensures handles.Keys == invitations.Keys + pipes.Keys
    {
      hide NodeController.Valid, NodeController.Model, WellFormedController, CoreSpec.WellFormedCore;
      hide CoreSpec.HandlesOk, NamesOf, ArePorts;
    }

    method CreateInvitation() returns (r: Answer, h: uint64)
      requires Valid()
      modifies this`handles, this`next, this`invitations, this`dispatchers
      ensures Valid() && fresh(dispatchers - old(dispatchers))
      ensures (r, h, Model()) == CoreSpec.CreateInvitation(old(Model()))
    {
      hide NodeController.Valid, NodeController.Model, WellFormedController, CoreSpec.WellFormedCore, HandlesAre;
      hide CoreSpec.HandlesOk, Core.Valid;
      hide Core.Model, CoreSpec.AddInvitation;
      h := AddInvitation();
      r := if h == CoreSpec.INVALID_HANDLE then CoreSpec.ResourceExhausted else CoreSpec.Ok;
    }

    method MakePair(l: Name, r: Name) returns (left: PortNodes.PortRef, right: PortNodes.PortRef)
      requires Valid() && FreshPorts(Model().c.node, l, r)
      modifies controller.node
      ensures Valid() && Model() == old(Model()).(c := WithPair(old(Model()).c, l, r))
      ensures left.name == l && right.name == r && controller.node.Refers(left) && controller.node.Refers(right)
    {
      hide NodeController.Valid, NodeController.Model, WellFormedController, CoreSpec.WellFormedCore, HandlesAre;
      hide CoreSpec.HandlesOk, WithPair;
      ghost var objects := controller.node.objects;
      NodeApart();
      left, right := controller.CreatePair(l, r);
      HandlesStay(handles, invitations, pipes, dispatchers, objects, controller.node.objects);
    }

    lemma NodeApart()
      requires Valid()
      ensures this !in controller.node.Repr && controller !in controller.node.Repr && controller.node in controller.node.Repr
      ensures forall d :: d in dispatchers ==> d !in controller.node.Repr
    {
      controller.NodeInRepr();
    }

    /** Attaches a port, or says that the name is taken. */
    method AttachTo(h: uint64, pipe: Text, port: PortNodes.PortRef) returns (r: Answer)
      requires Valid() && IsInvitation(h) && controller.node.Refers(port)
      modifies this`invitations, dispatchers
      ensures Valid() && h in old(Model()).invitations
      ensures
        var v := old(Model());
        && r == (if pipe in v.invitations[h] then CoreSpec.AlreadyExists else CoreSpec.Ok)
        && Model() == if r.Ok? then v.(invitations := v.invitations[h := v.invitations[h][pipe := port.name]]) else v
    {
      hide NodeController.Valid, NodeController.Model, WellFormedController, CoreSpec.WellFormedCore;
      hide CoreSpec.HandlesOk, NamesOf, IsBehind, ArePorts;
      HandleFacts(h);
      NodeApart();
      OtherInvitations(h);
      var d := handles[h].invitation;
      OneMoreName(d.attachedPorts, pipe, port, controller.node.objects);
      r := d.AttachMessagePipe(pipe, port);
      InvitationChanged(handles, invitations, pipes, dispatchers, controller.node.objects, h);
      NoteInvitation(h, NamesOf(d.attachedPorts));
    }

    /** Another port is attached to an invitation, or one less. */
    ghost method NoteInvitation(h: uint64, ports: map<Text, Name>)
      requires Rest() && h in invitations
      requires HandlesAre(handles, invitations[h := ports], pipes, dispatchers, controller.node.objects)
      modifies this`invitations
      ensures Valid() && invitations == old(invitations)[h := ports] && controller.Model() == old(controller.Model())
    {
      hide NodeController.Valid, NodeController.Model, WellFormedController, CoreSpec.WellFormedCore;
      hide CoreSpec.HandlesOk, NamesOf, IsBehind;
      hide HandlesAre;
      invitations := invitations[h := ports];
      assert invitations.Keys == old(invitations).Keys;
    }

    lemma OtherInvitations(h: uint64)
      requires Valid() && IsInvitation(h)
      ensures forall g :: g in handles && g != h && handles[g].Invitation? ==> handles[g].invitation != handles[h].invitation
      ensures h !in pipes && h in invitations
    {
      hide NodeController.Valid, NodeController.Model, WellFormedController, CoreSpec.WellFormedCore;
      hide CoreSpec.HandlesOk, NamesOf, ArePorts;
    }

    method AttachMessagePipeToInvitation(h: uint64, pipe: Text, l: Name, r: Name) returns (answer: Answer, handle: uint64)
      requires Valid() && FreshPorts(Model().c.node, l, r)
      modifies this`handles, this`next, this`pipes, this`invitations, dispatchers, controller.node
      ensures Valid() && (answer, handle, Model()) == CoreSpec.Attach(old(Model()), h, pipe, l, r)
    {
      hide NodeController.Valid, NodeController.Model, WellFormedController, CoreSpec.WellFormedCore, HandlesAre;
      hide CoreSpec.HandlesOk, Core.Valid;
      hide Core.Model, WithPair, CoreSpec.AddPipe;
      HandleFacts(h);
      if !IsInvitation(h) {
        return CoreSpec.InvalidArgument, CoreSpec.INVALID_HANDLE;
      }
      var left, right := MakePair(l, r);
      handle := AddPipe(left);
      if handle == CoreSpec.INVALID_HANDLE {
        return CoreSpec.ResourceExhausted, CoreSpec.INVALID_HANDLE;
      }
      answer := AttachTo(h, pipe, right);
      if answer != CoreSpec.Ok {
        handle := CoreSpec.INVALID_HANDLE;
      }
    }

    method DetachFrom(h: uint64, pipe: Text) returns (found: bool, port: PortNodes.PortRef)
      requires Valid() && IsInvitation(h)
      modifies this`invitations, dispatchers
      ensures Valid() && h in old(Model()).invitations
      ensures
        var v := old(Model());
        && found == (pipe in v.invitations[h])
        && (found ==> port.name == v.invitations[h][pipe] && controller.node.Refers(port))
        && Model() == if found then v.(invitations := v.invitations[h := v.invitations[h] - {pipe}]) else v
    {
      hide NodeController.Valid, NodeController.Model, WellFormedController, CoreSpec.WellFormedCore;
      hide CoreSpec.HandlesOk, NamesOf, IsBehind, ArePorts;
      HandleFacts(h);
      NodeApart();
      OtherInvitations(h);
      var d := handles[h].invitation;
      OneMoreName(d.attachedPorts, pipe, PortNodes.PortRef(NONE, null), controller.node.objects);
      PortsOf(d.attachedPorts, controller.node.objects);
      var r;
      r, port := d.ExtractPort(pipe);
      found := r.Ok?;
      InvitationChanged(handles, invitations, pipes, dispatchers, controller.node.objects, h);
      if !found {
        Unchanged(invitations, h, pipe);
      }
      NoteInvitation(h, NamesOf(d.attachedPorts));
    }

    /** The pipe attached here, under a new handle. */
    method ExtractMessagePipe(h: uint64, pipe: Text) returns (answer: Answer, handle: uint64)
      requires Valid() && IsInvitation(h)
      modifies this`handles, this`next, this`pipes, this`invitations, dispatchers
      ensures Valid() && h in old(Model()).invitations
      ensures (answer, handle, Model()) == CoreSpec.DetachPort(old(Model()), h, pipe)
      ensures answer.NotFound? || answer.Ok? || answer.ResourceExhausted?
    {
      hide NodeController.Valid, NodeController.Model, WellFormedController, CoreSpec.WellFormedCore, HandlesAre;
      hide CoreSpec.HandlesOk, Core.Valid;
      hide Core.Model, CoreSpec.AddPipe;
      var found, port := DetachFrom(h, pipe);
      if !found {
        return CoreSpec.NotFound, CoreSpec.INVALID_HANDLE;
      }
      handle := AddPipe(port);
      answer := if handle == CoreSpec.INVALID_HANDLE then CoreSpec.ResourceExhausted else CoreSpec.Ok;
    }

    method AskInviter(pipe: Text, port: PortNodes.PortRef)
      requires Valid() && controller.node.Refers(port)
      modifies controller, controller.channels.Values
      ensures Valid()
      ensures Model() == old(Model()).(c := MergePortIntoInviter(old(Model()).c, Merge(pipe, port.name)))
    {
      hide NodeController.Valid, NodeController.Model, WellFormedController, CoreSpec.WellFormedCore, HandlesAre;
      hide CoreSpec.HandlesOk;
      hide MergePortIntoInviter;
      NodeApart();
      controller.MergePortIntoInviter(pipe, port);
    }

    method ExtractMessagePipeFromInvitation(h: uint64, pipe: Text, p0: Name, p1: Name)
      returns (answer: Answer, handle: uint64)
      requires Valid() && FreshPorts(Model().c.node, p0, p1)
      modifies this`handles, this`next, this`pipes, this`invitations, dispatchers
      modifies controller, controller.node, controller.channels.Values
      ensures Valid() && (answer, handle, Model()) == CoreSpec.Extract(old(Model()), h, pipe, p0, p1)
    {
      hide NodeController.Valid, NodeController.Model, WellFormedController, CoreSpec.WellFormedCore, HandlesAre;
      hide CoreSpec.HandlesOk, Core.Valid;
      hide Core.Model, WithPair, CoreSpec.AddPipe, CoreSpec.DetachPort, MergePortIntoInviter;
      HandleFacts(h);
      if !IsInvitation(h) {
        return CoreSpec.InvalidArgument, CoreSpec.INVALID_HANDLE;
      }
      DetachKeeps(Model(), h, pipe);
      answer, handle := ExtractMessagePipe(h, pipe);
      if answer == CoreSpec.Ok {
        return;
      }
      var port0, port1 := MakePair(p0, p1);
      handle := AddPipe(port0);
      AskInviter(pipe, port0);
      answer := if handle == CoreSpec.INVALID_HANDLE then CoreSpec.ResourceExhausted else CoreSpec.Ok;
    }

    /** Takes all attached ports, in no particular order. */
    method TakePorts(h: uint64) returns (attached: seq<(Text, PortNodes.PortRef)>)
      requires Valid() && IsInvitation(h)
      modifies this`invitations, dispatchers
      ensures Valid() && h in old(Model()).invitations && Listed(attached) == old(Model()).invitations[h]
      ensures forall i :: 0 <= i < |attached| ==> IsPort(attached[i].1, controller.node.objects)
      ensures Model() == old(Model()).(invitations := old(Model()).invitations[h := map[]])
    {
      hide NodeController.Valid, NodeController.Model, WellFormedController, CoreSpec.WellFormedCore;
      hide CoreSpec.HandlesOk;
      hide NamesOf, IsBehind, ArePorts;
      HandleFacts(h);
      NodeApart();
      OtherInvitations(h);
      var d := handles[h].invitation;
      PortsOf(d.attachedPorts, controller.node.objects);
      var ports := d.TakeAttachPorts();
      NothingAttached(controller.node.objects);
      InvitationChanged(handles, invitations, pipes, dispatchers, controller.node.objects, h);
      NoteInvitation(h, NamesOf(d.attachedPorts));
      attached := ListPorts(ports);
    }

    method SendOver(temp: Name, ghost s: Socket, attached: seq<(Text, PortNodes.PortRef)>)
      requires Valid() && s !in controller.channels
      requires forall i :: 0 <= i < |attached| ==> IsPort(attached[i].1, controller.node.objects)
      modifies controller
      ensures Valid()
      ensures Model() == old(Model()).(c := Controllers.SendInvitation(old(Model()).c, temp, s, Listed(attached)))
    {
      hide NodeController.Valid, NodeController.Model, WellFormedController, CoreSpec.WellFormedCore, HandlesAre;
      hide CoreSpec.HandlesOk, Controllers.SendInvitation, Listed;
      NodeApart();
      var channel := controller.SendInvitation(temp, s, attached);
    }

    /** The ports are taken twice; what is found the second time is discarded. Uninterrupted, that is
        nothing. */
    method SendInvitation(h: uint64, temp: Name, ghost s: Socket) returns (answer: Answer)
      requires Valid() && s !in controller.channels
      modifies this`invitations, dispatchers, controller
      ensures Valid() && (answer, Model()) == CoreSpec.SendInvitation(old(Model()), h, temp, s)
    {
      hide NodeController.Valid, NodeController.Model, WellFormedController, CoreSpec.WellFormedCore, HandlesAre;
      hide CoreSpec.HandlesOk, Core.Valid, Core.Model, Controllers.SendInvitation, Listed;
      HandleFacts(h);
      if !IsInvitation(h) {
        return CoreSpec.InvalidArgument;
      }
      var attached := TakePorts(h);
      HandleFacts(h);
      var discarded := TakePorts(h);
      SendOver(temp, s, attached);
      assert old(Model()).invitations[h := map[]][h := map[]] == old(Model()).invitations[h := map[]];
      answer := CoreSpec.Ok;
    }

    method AcceptOver(ghost s: Socket)
      requires Valid() && s !in controller.channels
      modifies controller
      ensures Valid() && Model() == old(Model()).(c := AcceptInvitationOn(old(Model()).c, s))
    {
      hide NodeController.Valid, NodeController.Model, WellFormedController, CoreSpec.WellFormedCore, HandlesAre;
      hide CoreSpec.HandlesOk, AcceptInvitationOn;
      NodeApart();
      var channel := controller.AcceptInvitation(s);
    }

    method AcceptInvitation(ghost s: Socket) returns (answer: Answer, h: uint64)
      requires Valid() && s !in controller.channels
      modifies this`handles, this`next, this`invitations, this`dispatchers, controller
      ensures Valid() && fresh(dispatchers - old(dispatchers))
      ensures (answer, h, Model()) == CoreSpec.AcceptInvitation(old(Model()), s)
    {
      hide NodeController.Valid, NodeController.Model, WellFormedController, CoreSpec.WellFormedCore, HandlesAre;
      hide CoreSpec.HandlesOk, Core.Valid, Core.Model, CoreSpec.AddInvitation, AcceptInvitationOn;
      h := AddInvitation();
      if h == CoreSpec.INVALID_HANDLE {
        return CoreSpec.ResourceExhausted, h;
      }
      AcceptOver(s);
      answer := CoreSpec.Ok;
    }

    method WriteOver(port: PortNodes.PortRef, data: Text)
      requires Valid() && controller.node.Refers(port)
      modifies controller, controller.channels.Values
      ensures Valid() && port.name in old(Model()).c.node.ports
      ensures Model() == old(Model()).(c := SendUserMessage(old(Model()).c, port.name, data))
    {
      hide NodeController.Valid, NodeController.Model, WellFormedController, CoreSpec.WellFormedCore, HandlesAre;
      hide CoreSpec.HandlesOk, SendUserMessage;
      NodeApart();
      controller.SendUserMessage(port, data);
    }

    method WriteMessage(h: uint64, data: Text) returns (answer: Answer)
      requires Valid()
      modifies controller, controller.channels.Values
      ensures Valid() && (answer, Model()) == CoreSpec.WriteMessage(old(Model()), h, data)
    {
      hide NodeController.Valid, NodeController.Model, WellFormedController, CoreSpec.WellFormedCore, HandlesAre;
      hide CoreSpec.HandlesOk, Core.Valid, Core.Model, SendUserMessage;
      HandleFacts(h);
      if !IsPipe(h) {
        return CoreSpec.InvalidArgument;
      }
      WriteOver(handles[h].port, data);
      answer := CoreSpec.Ok;
    }

    method ReadOver(port: PortNodes.PortRef) returns (m: Option<Body>)
      requires Valid() && controller.node.Refers(port)
      modifies controller.node.Repr
      ensures Valid() && port.name in old(Model()).c.node.ports
      ensures m == GetUserMessage(old(Model()).c, port.name).0
      ensures Model() == old(Model()).(c := GetUserMessage(old(Model()).c, port.name).1)
    {
      hide NodeController.Valid, NodeController.Model, WellFormedController, CoreSpec.WellFormedCore, HandlesAre;
      hide CoreSpec.HandlesOk, GetUserMessage;
      NodeApart();
      m := controller.GetUserMessage(port);
    }

    method ReadMessage(h: uint64) returns (answer: Answer, m: Option<Body>)
      requires Valid()
      modifies controller.node.Repr
      ensures Valid() && (answer, m, Model()) == CoreSpec.ReadMessage(old(Model()), h)
    {
      hide NodeController.Valid, NodeController.Model, WellFormedController, CoreSpec.WellFormedCore, HandlesAre;
      hide CoreSpec.HandlesOk, Core.Valid, Core.Model, GetUserMessage;
      HandleFacts(h);
      if !IsPipe(h) {
        return CoreSpec.InvalidArgument, None;
      }
      m := ReadOver(handles[h].port);
      answer := CoreSpec.Ok;
    }
  }
}
