// One inviter and any number of invitees, as a state machine whose steps are the lock scopes and
// channel operations of the program. Each step applies the controller's own functions; the fields
// under "history" only record what happened and influence no step.

module Handshake {
  import opened Bytes
  import opened Names
  import opened Bodies
  import opened PortTable
  import opened Controllers

  /** A thread of an invitee that is merging an extracted port into the inviter. From Locking to the
      lookup of the channel it holds the lock on the pending merges. */
  datatype Caller =
    | Starting(pipe: Text)
    | Locking(pipe: Text)
    | Named(pipe: Text, inviter: Name)
    | Sending(pipe: Text, socket: Socket)

  /** Where an invitee's IO thread is in handling AcceptInvitee. */
  datatype InviteeIo =
    | Resting
    | ToAnswer(inviter: Name, token: Name)
    | ToJoin(inviter: Name)
    | ToSend(messages: seq<Body>)
    | ToSwap
    | ToDrain(merges: seq<Merge>)

  /** How far the inviter is with an invitee. */
  datatype Stage =
    | Connected
    | Holding(handle: nat, temp: Name, attached: map<Text, Name>, again: bool)
    | Listed(temp: Name)
    | Invited(temp: Name)
    | Rekeying(temp: Name)
    | Admitting(temp: Name)
    | Joined(temp: Name)

  /** How far an extracted port is on its way to be merged. `bridge` and `local` are the ports of the
      inviter's pair. */
  datatype MergeState =
    | Calling
    | PutOff
    | Swapped
    | Asked
    | Refused
    | Taken(bridge: Name, local: Name)
    | Spliced(bridge: Name, local: Name)
    | Answered(bridge: Name, local: Name)
    | Settled(bridge: Name, local: Name)

  datatype Track = Track(pipe: Text, mate: Name, state: MergeState)

  type Tally = map<Name, multiset<Body>>

  datatype Conn = Conn(
    ctrl: Controller,            // the invitee's controller
    io: InviteeIo,
    callers: map<Name, Caller>,
    lock: Option<Name>,          // who holds the lock on the pending merges
    takenDown: nat,              // how many messages of the inviter the invitee has read
    takenUp: nat,                // how many messages of the invitee the inviter has read
    // history
    stage: Stage,
    track: map<Name, Track>,     // the extracted ports
    written: Tally,
    read: Tally)

  /** Where the inviter's IO thread is in handling a message from invitee `k`. */
  datatype InviterIo =
    | AtRest
    | ToRekey(k: Socket, from: Name, invitee: Name)
    | ToAdmit(k: Socket, from: Name, invitee: Name)
    | ToFlush(k: Socket, messages: seq<Body>)
    | ToMerge(k: Socket, from: Name, connector: Name, port: Name)
    | ToRespond(k: Socket, from: Name, connector: Name, local: Name)

  /** Where a port attached to an invitation is. */
  datatype Place =
    | Attached(handle: nat, pipe: Text)
    | Held(k: Socket, pipe: Text)        // taken for the invitation of invitee k
    | Discarded                          // attached while the invitation was being sent
    | Tokened(k: Socket, pipe: Text)     // reserved under the temporary name
    | Reserved(k: Socket, pipe: Text)    // reserved under the invitee's name
    | Extracted                          // extracted by the inviter itself
    | Merging(k: Socket, connector: Name)
    | Merged(k: Socket, connector: Name)

  datatype System = System(
    inviter: Controller,
    io: InviterIo,
    dispatchers: map<nat, map<Text, Name>>,  // the attached ports of every invitation
    conns: map<Socket, Conn>,
    crashed: bool,
    // history
    used: set<Name>,                         // node names and tokens drawn so far
    ends: map<Name, Name>,                   // the local end of every attached port
    holder: map<Name, Place>,
    written: Tally,
    read: Tally,
    dropped: bool)                           // a peer was dropped

  function Init(a: Name): System {
    System(NewController(a), AtRest, map[], map[], false, {a, NONE}, map[], map[], map[], map[], false)
  }

  function NewConn(k: Socket, b: Name): Conn {
    Conn(AcceptInvitationOn(NewController(b), k), Resting, map[], None, 0, 0, Connected, map[], map[], map[])
  }

  // ------------------------------------------------------------------ the steps of an invitee

  function Mark(track: map<Name, Track>, p: Name, state: MergeState): map<Name, Track> {
    if p in track then track[p := track[p].(state := state)] else track
  }

  function MarkAll(track: map<Name, Track>, merges: seq<Merge>): map<Name, Track> {
    map p | p in track ::
      if Merge(track[p].pipe, p) in merges then track[p].(state := Swapped) else track[p]
  }

  function Count(t: Tally, p: Name): multiset<Body> {
    if p in t then t[p] else multiset{}
  }

  function Add(t: Tally, p: Name, m: Body): Tally {
    t[p := Count(t, p) + multiset{m}]
  }

  /** The application extracts a pipe that is not attached here. */
  function ExtractPipe(c: Conn, pipe: Text, p0: Name, p1: Name): Conn
    requires FreshPorts(c.ctrl.node, p0, p1)
  {
    c.(ctrl := WithPair(c.ctrl, p0, p1),
       callers := c.callers[p0 := Starting(pipe)],
       track := c.track[p0 := Track(pipe, p1, Calling)])
  }

  function LockPending(c: Conn, p: Name): Conn
    requires p in c.callers
  {
    c.(lock := Some(p), callers := c.callers[p := Locking(c.callers[p].pipe)])
  }

  function ReadInviterName(c: Conn, p: Name): Conn
    requires p in c.callers
  {
    c.(callers := c.callers[p := Named(c.callers[p].pipe, c.ctrl.inviterName)])
  }

  /** Looks the inviter's channel up, puts the request off if there is none, and unlocks. */
  function FindInviter(c: Conn, p: Name): Conn
    requires p in c.callers && c.callers[p].Named?
  {
    var caller := c.callers[p];
    var peer := GetPeerChannel(c.ctrl, caller.inviter);
    if peer.Some? then c.(lock := None, callers := c.callers[p := Sending(caller.pipe, peer.value)])
    else
      c.(ctrl := c.ctrl.(pendingMerges := c.ctrl.pendingMerges + [Merge(caller.pipe, p)]),
         lock := None, callers := c.callers - {p}, track := Mark(c.track, p, PutOff))
  }

  function SendRequest(c: Conn, p: Name): Conn
    requires p in c.callers && c.callers[p].Sending? && c.callers[p].socket in c.ctrl.out
  {
    c.(ctrl := Send(c.ctrl, c.callers[p].socket, RequestBody(Merge(c.callers[p].pipe, p))),
       callers := c.callers - {p}, track := Mark(c.track, p, Asked))
  }

  /** The IO thread reads the next message. */
  function HearAtInvitee(c: Conn, k: Socket, down: seq<Body>): Outcome<Conn>
    requires WellFormedController(c.ctrl) && k in c.ctrl.remote && c.takenDown < |down|
  {
    var m := down[c.takenDown];
    if m.AcceptInvitee? then
      Done(c.(ctrl := NameInviter(c.ctrl, m.inviter), io := ToAnswer(m.inviter, m.token),
              takenDown := c.takenDown + 1))
    else
      var r := OnChannelMessage(c.ctrl, k, m);
      if r.Crash? then Crash
      else
        Done(c.(ctrl := r.value, takenDown := c.takenDown + 1,
                track := if m.ResponsePortMerge? then Settle(c.track, m.connector) else c.track))
  }

  function Settle(track: map<Name, Track>, p: Name): map<Name, Track> {
    if p in track && track[p].state.Answered?
    then Mark(track, p, Settled(track[p].state.bridge, track[p].state.local))
    else track
  }

  function AnswerStep(c: Conn): Conn
    requires WellFormedController(c.ctrl) && c.ctrl.inviterChannel.Some? && c.io.ToAnswer?
  {
    c.(ctrl := AnswerInviter(c.ctrl, c.io.inviter, c.io.token), io := ToJoin(c.io.inviter))
  }

  function JoinStep(c: Conn): Conn
    requires WellFormedController(c.ctrl) && c.ctrl.inviterChannel.Some? && c.io.ToJoin?
  {
    var s := c.ctrl.inviterChannel.value;
    var (ctrl, messages) := InsertPeer(SetRemote(c.ctrl, s, c.io.inviter), c.io.inviter, s);
    c.(ctrl := ctrl, io := ToSend(messages))
  }

  function SendStep(c: Conn): Conn
    requires WellFormedController(c.ctrl) && c.ctrl.inviterChannel.Some? && c.io.ToSend?
  {
    if c.io.messages == [] then c.(io := ToSwap)
    else c.(ctrl := Send(c.ctrl, c.ctrl.inviterChannel.value, c.io.messages[0]), io := ToSend(c.io.messages[1..]))
  }

  function SwapStep(c: Conn): Conn {
    var (ctrl, merges) := SwapPending(c.ctrl);
    c.(ctrl := ctrl, io := ToDrain(merges), track := MarkAll(c.track, merges))
  }

  function DrainStep(c: Conn): Outcome<Conn>
    requires WellFormedController(c.ctrl) && c.io.ToDrain?
  {
    if c.io.merges == [] then Done(c.(io := Resting))
    else
      var inviter := GetInviterChannel(c.ctrl);
      var m := c.io.merges[0];
      if inviter.None? then Crash
      else
        Done(c.(ctrl := Send(c.ctrl, inviter.value, RequestBody(m)), io := ToDrain(c.io.merges[1..]),
                track := Mark(c.track, m.port, Asked)))
  }

  /** What a write hands on to a channel, if it is not for the node itself. */
  function Forwarded(ctrl: Controller, p: Name, data: Text, t: Tally): Tally
    requires p in ctrl.node.ports
  {
    var (node, message) := Outgoing(ctrl.node, p, data);
    if node == ctrl.node.name then t else Add(t, p, message)
  }

  function WriteAtInvitee(c: Conn, p: Name, data: Text): Conn
    requires WellFormedController(c.ctrl) && p in c.ctrl.node.ports
  {
    c.(ctrl := SendUserMessage(c.ctrl, p, data), written := Forwarded(c.ctrl, p, data, c.written))
  }

  function ReadAtInvitee(c: Conn, p: Name): Conn
    requires p in c.ctrl.node.ports
  {
    var (m, ctrl) := GetUserMessage(c.ctrl, p);
    c.(ctrl := ctrl, read := if m.Some? then Add(c.read, p, m.value) else c.read)
  }

  // ------------------------------------------------------------------ the steps of the inviter

  /** A pipe is attached to an invitation under a name. When the name is taken the pair is lost. */
  function AttachPipe(s: System, h: nat, pipe: Text, l: Name, r: Name): System
    requires h in s.dispatchers && FreshPorts(s.inviter.node, l, r)
  {
    var taken := pipe in s.dispatchers[h];
    s.(inviter := WithPair(s.inviter, l, r),
       dispatchers := if taken then s.dispatchers else s.dispatchers[h := s.dispatchers[h][pipe := r]],
       ends := if taken then s.ends else s.ends[r := l],
       holder := if taken then s.holder else s.holder[r := Attached(h, pipe)])
  }

  function ExtractLocally(s: System, h: nat, pipe: Text): System
    requires h in s.dispatchers && pipe in s.dispatchers[h]
  {
    s.(dispatchers := s.dispatchers[h := s.dispatchers[h] - {pipe}],
       holder := s.holder[s.dispatchers[h][pipe] := Extracted])
  }

  /** The invitation for invitee `k` takes the attached ports; a temporary name is drawn. */
  function TakePorts(s: System, h: nat, k: Socket, temp: Name): System
    requires h in s.dispatchers && k in s.conns
  {
    var attached := s.dispatchers[h];
    s.(dispatchers := s.dispatchers[h := map[]], used := s.used + {temp},
       conns := s.conns[k := s.conns[k].(stage := Holding(h, temp, attached, false))],
       holder := map r | r in s.holder ::
         if s.holder[r].Attached? && s.holder[r].handle == h then Held(k, s.holder[r].pipe) else s.holder[r])
  }

  /** The ports are taken a second time, and what is found then is discarded. */
  function TakeAgain(s: System, k: Socket): System
    requires k in s.conns && s.conns[k].stage.Holding? && s.conns[k].stage.handle in s.dispatchers
  {
    var h := s.conns[k].stage.handle;
    s.(dispatchers := s.dispatchers[h := map[]],
       conns := s.conns[k := s.conns[k].(stage := s.conns[k].stage.(again := true))],
       holder := map r | r in s.holder ::
         if s.holder[r].Attached? && s.holder[r].handle == h then Discarded else s.holder[r])
  }

  function ListPorts(s: System, k: Socket): System
    requires k in s.conns && s.conns[k].stage.Holding?
  {
    var stage := s.conns[k].stage;
    s.(inviter := Reserve(s.inviter, stage.temp, stage.attached),
       conns := s.conns[k := s.conns[k].(stage := Listed(stage.temp))],
       holder := map r | r in s.holder ::
         if s.holder[r].Held? && s.holder[r].k == k then Tokened(k, s.holder[r].pipe) else s.holder[r])
  }

  function InviteStep(s: System, k: Socket): System
    requires k in s.conns && s.conns[k].stage.Listed?
  {
    var temp := s.conns[k].stage.temp;
    s.(inviter := Invite(s.inviter, temp, k),
       conns := s.conns[k := s.conns[k].(stage := Invited(temp))])
  }

  function WithConn(s: System, k: Socket, c: Conn): System {
    s.(conns := s.conns[k := c])
  }

  function Crashed(s: System): System {
    s.(crashed := true)
  }

  /** The IO thread reads the next message of invitee `k`. */
  function HearAtInviter(s: System, k: Socket, up: seq<Body>): System
    requires k in s.conns && s.conns[k].takenUp < |up| && k in s.inviter.remote
    requires WellFormedController(s.inviter)
  {
    var c := s.conns[k];
    var m, from := up[c.takenUp], s.inviter.remote[k];
    var heard := c.(takenUp := c.takenUp + 1);
    match m
    case AcceptInvitation(token, invitee) =>
      if from !in s.inviter.pendingInvitations || token != from then
        WithConn(s, k, heard).(inviter := DropPeer(s.inviter, from), dropped := true)
      else
        WithConn(s, k, if c.stage.Invited? then heard.(stage := Rekeying(c.stage.temp)) else heard)
        .(io := ToRekey(k, from, invitee))
    case RequestPortMerge(connector, pipe) =>
      var (inviter, port) := TakeReserved(s.inviter, from, pipe);
      if port.None? then WithConn(s, k, heard.(track := Mark(c.track, connector, Refused)))
      else
        var local := if port.value in s.ends then s.ends[port.value] else NONE;
        WithConn(s, k, heard.(track := Mark(c.track, connector, Taken(port.value, local))))
        .(inviter := inviter, io := ToMerge(k, from, connector, port.value),
          holder := s.holder[port.value := Merging(k, connector)])
    case _ =>
      var r := OnChannelMessage(s.inviter, k, m);
      if r.Crash? then Crashed(s) else WithConn(s, k, heard).(inviter := r.value)
  }

  function RekeyStep(s: System): System
    requires s.io.ToRekey? && s.io.k in s.conns
  {
    var k, c := s.io.k, s.conns[s.io.k];
    WithConn(s, k, if c.stage.Rekeying? then c.(stage := Admitting(c.stage.temp)) else c)
    .(inviter := Rekey(s.inviter, s.io.from, s.io.invitee),
      io := ToAdmit(k, s.io.from, s.io.invitee),
      holder := map r | r in s.holder ::
        if s.holder[r].Tokened? && s.holder[r].k == k then Reserved(k, s.holder[r].pipe) else s.holder[r])
  }

  function AdmitStep(s: System): System
    requires s.io.ToAdmit? && s.io.k in s.conns && s.io.from in s.inviter.pendingInvitations
    requires WellFormedController(s.inviter)
  {
    var k, c := s.io.k, s.conns[s.io.k];
    var channel := s.inviter.pendingInvitations[s.io.from];
    var taken := s.inviter.(pendingInvitations := s.inviter.pendingInvitations - {s.io.from});
    var (inviter, messages) := InsertPeer(SetRemote(taken, channel, s.io.invitee), s.io.invitee, channel);
    WithConn(s, k, if c.stage.Admitting? then c.(stage := Joined(c.stage.temp)) else c)
    .(inviter := inviter, io := ToFlush(k, messages))
  }

  function FlushStep(s: System): System
    requires s.io.ToFlush? && s.io.k in s.inviter.out
  {
    var done := s.io.messages == [];
    s.(inviter := if done then s.inviter else Send(s.inviter, s.io.k, s.io.messages[0]),
       io := if done then AtRest else ToFlush(s.io.k, s.io.messages[1..]))
  }

  function Splice(track: map<Name, Track>, p: Name): map<Name, Track> {
    if p in track && track[p].state.Taken?
    then Mark(track, p, Spliced(track[p].state.bridge, track[p].state.local))
    else track
  }

  function MergeStep(s: System): System
    requires s.io.ToMerge? && s.io.k in s.conns && s.io.port in s.inviter.node.ports
    requires WellFormedController(s.inviter)
  {
    var k, c := s.io.k, s.conns[s.io.k];
    WithConn(s, k, c.(track := Splice(c.track, s.io.connector)))
    .(inviter := MergeAt(s.inviter, s.io.port, s.io.from, s.io.connector),
      io := ToRespond(k, s.io.from, s.io.connector, BridgePeer(s.inviter.node, s.io.port)),
      holder := s.holder[s.io.port := Merged(k, s.io.connector)])
  }

  function AnswerTrack(track: map<Name, Track>, p: Name): map<Name, Track> {
    if p in track && track[p].state.Spliced?
    then Mark(track, p, Answered(track[p].state.bridge, track[p].state.local))
    else track
  }

  function RespondStep(s: System): System
    requires s.io.ToRespond? && s.io.k in s.conns
    requires WellFormedController(s.inviter)
  {
    var k, c := s.io.k, s.conns[s.io.k];
    var r := Respond(s.inviter, s.io.from, s.io.connector, s.io.local);
    if r.Crash? then Crashed(s)
    else
      WithConn(s, k, c.(track := AnswerTrack(c.track, s.io.connector)))
      .(inviter := r.value, io := AtRest)
  }

  function WriteAtInviter(s: System, p: Name, data: Text): System
    requires WellFormedController(s.inviter) && p in s.inviter.node.ports
  {
    s.(inviter := SendUserMessage(s.inviter, p, data), written := Forwarded(s.inviter, p, data, s.written))
  }

  function ReadAtInviter(s: System, p: Name): System
    requires p in s.inviter.node.ports
  {
    var (m, inviter) := GetUserMessage(s.inviter, p);
    s.(inviter := inviter, read := if m.Some? then Add(s.read, p, m.value) else s.read)
  }

  // ------------------------------------------------------------------ runs

  datatype InviteeStep =
    | Extract(pipe: Text, p0: Name, p1: Name)
    | Lock(p: Name)
    | ReadName(p: Name)
    | Find(p: Name)
    | Request(p: Name)
    | Hear
    | Answer
    | Join
    | SendWaiting
    | Swap
    | Drain
    | Write(p: Name, data: Text)
    | Read(p: Name)

  datatype Step =
    | AtInvitee(k: Socket, step: InviteeStep)
    | Connect(k: Socket, b: Name)                      // an invitee and its socket pair
    | Open(h: nat)                                     // a new invitation
    | Attach(h: nat, pipe: Text, l: Name, r: Name)
    | ExtractOwn(h: nat, pipe: Text)
    | Take(h: nat, k: Socket, temp: Name)              // the invitation is sent
    | TakeOver(k: Socket)
    | List(k: Socket)
    | Launch(k: Socket)
    | HearInvitee(k: Socket)
    | RekeyPorts
    | AdmitInvitee
    | FlushWaiting
    | MergeBridge
    | RespondTo
    | WriteOwn(p: Name, data: Text)
    | ReadOwn(p: Name)

  predicate TypedConn(ctrl: Controller, k: Socket) {
    && WellFormedController(ctrl)
    && ctrl.inviterChannel == Some(k) && k in ctrl.out && k in ctrl.remote
  }

  predicate Typed(s: System) {
    && WellFormedController(s.inviter)
    && forall k :: k in s.conns ==> TypedConn(s.conns[k].ctrl, k)
  }

  function Down(s: System, k: Socket): seq<Body> {
    if k in s.inviter.out then s.inviter.out[k] else []
  }

  function Up(c: Conn, k: Socket): seq<Body> {
    Sent(c.ctrl, k)
  }

  function Sent(ctrl: Controller, k: Socket): seq<Body> {
    if k in ctrl.out then ctrl.out[k] else []
  }

  predicate CanAtInvitee(c: Conn, k: Socket, down: seq<Body>, step: InviteeStep)
    requires TypedConn(c.ctrl, k)
  {
    match step
    case Extract(_, p0, p1) => FreshPorts(c.ctrl.node, p0, p1)
    case Lock(p) => c.lock.None? && p in c.callers && c.callers[p].Starting?
    case ReadName(p) => p in c.callers && c.callers[p].Locking?
    case Find(p) => p in c.callers && c.callers[p].Named?
    case Request(p) => p in c.callers && c.callers[p].Sending? && c.callers[p].socket in c.ctrl.out
    case Hear => c.io.Resting? && c.takenDown < |down|
    case Answer => c.io.ToAnswer?
    case Join => c.io.ToJoin?
    case SendWaiting => c.io.ToSend?
    case Swap => c.io.ToSwap? && c.lock.None?
    case Drain => c.io.ToDrain?
    case Write(p, _) => p in c.track && p in c.ctrl.node.ports
    case Read(p) => p in c.track && p in c.ctrl.node.ports
  }

  function DoAtInvitee(c: Conn, k: Socket, down: seq<Body>, step: InviteeStep): Outcome<Conn>
    requires TypedConn(c.ctrl, k) && CanAtInvitee(c, k, down, step)
  {
    match step
    case Extract(pipe, p0, p1) => Done(ExtractPipe(c, pipe, p0, p1))
    case Lock(p) => Done(LockPending(c, p))
    case ReadName(p) => Done(ReadInviterName(c, p))
    case Find(p) => Done(FindInviter(c, p))
    case Request(p) => Done(SendRequest(c, p))
    case Hear => HearAtInvitee(c, k, down)
    case Answer => Done(AnswerStep(c))
    case Join => Done(JoinStep(c))
    case SendWaiting => Done(SendStep(c))
    case Swap => Done(SwapStep(c))
    case Drain => DrainStep(c)
    case Write(p, data) => Done(WriteAtInvitee(c, p, data))
    case Read(p) => Done(ReadAtInvitee(c, p))
  }

  /** The ports the inviter's application has handles of. */
  predicate OwnPort(s: System, p: Name) {
    p in s.inviter.node.ports
    && (p in s.ends.Values || (p in s.holder && s.holder[p].Extracted?))
  }

  predicate Enabled(s: System, step: Step)
    requires Typed(s)
  {
    !s.crashed &&
    match step
    case AtInvitee(k, step) => k in s.conns && CanAtInvitee(s.conns[k], k, Down(s, k), step)
    case Connect(k, b) => k !in s.conns && b !in s.used
    case Open(h) => h !in s.dispatchers
    case Attach(h, _, l, r) => h in s.dispatchers && FreshPorts(s.inviter.node, l, r)
    case ExtractOwn(h, pipe) => h in s.dispatchers && pipe in s.dispatchers[h]
    case Take(h, k, temp) => h in s.dispatchers && k in s.conns && s.conns[k].stage.Connected? && temp !in s.used
    case TakeOver(k) =>
      k in s.conns && s.conns[k].stage.Holding? && !s.conns[k].stage.again
      && s.conns[k].stage.handle in s.dispatchers
    case List(k) => k in s.conns && s.conns[k].stage.Holding? && s.conns[k].stage.again
    case Launch(k) => k in s.conns && s.conns[k].stage.Listed?
    case HearInvitee(k) =>
      k in s.conns && s.io.AtRest? && k in s.inviter.out && s.conns[k].takenUp < |Up(s.conns[k], k)|
    case RekeyPorts => s.io.ToRekey? && s.io.k in s.conns
    case AdmitInvitee => s.io.ToAdmit? && s.io.k in s.conns && s.io.from in s.inviter.pendingInvitations
    case FlushWaiting => s.io.ToFlush? && s.io.k in s.inviter.out
    case MergeBridge => s.io.ToMerge? && s.io.k in s.conns && s.io.port in s.inviter.node.ports
    case RespondTo => s.io.ToRespond? && s.io.k in s.conns
    case WriteOwn(p, _) => OwnPort(s, p)
    case ReadOwn(p) => OwnPort(s, p)
  }

  predicate OfIoThread(step: Step) {
    step.RekeyPorts? || step.AdmitInvitee? || step.FlushWaiting?
    || step.MergeBridge? || step.RespondTo?
  }

  function ApplyIo(s: System, step: Step): System
    requires Typed(s) && Enabled(s, step) && OfIoThread(step)
  {
    match step
    case RekeyPorts => RekeyStep(s)
    case AdmitInvitee => AdmitStep(s)
    case FlushWaiting => FlushStep(s)
    case MergeBridge => MergeStep(s)
    case RespondTo => RespondStep(s)
  }

  function ApplyInvitee(s: System, k: Socket, step: InviteeStep): System
    requires Typed(s) && Enabled(s, AtInvitee(k, step))
  {
    var r := DoAtInvitee(s.conns[k], k, Down(s, k), step);
    if r.Crash? then Crashed(s) else WithConn(s, k, r.value)
  }

  function Apply(s: System, step: Step): System
    requires Typed(s) && Enabled(s, step)
  {
    match step
    case AtInvitee(k, step) => ApplyInvitee(s, k, step)
    case Connect(k, b) => WithConn(s, k, NewConn(k, b)).(used := s.used + {b})
    case Open(h) => s.(dispatchers := s.dispatchers[h := map[]])
    case Attach(h, pipe, l, r) => AttachPipe(s, h, pipe, l, r)
    case ExtractOwn(h, pipe) => ExtractLocally(s, h, pipe)
    case Take(h, k, temp) => TakePorts(s, h, k, temp)
    case TakeOver(k) => TakeAgain(s, k)
    case List(k) => ListPorts(s, k)
    case Launch(k) => InviteStep(s, k)
    case WriteOwn(p, data) => WriteAtInviter(s, p, data)
    case ReadOwn(p) => ReadAtInviter(s, p)
    case HearInvitee(k) => HearAtInviter(s, k, Up(s.conns[k], k))
    case _ => ApplyIo(s, step)
  }
}
