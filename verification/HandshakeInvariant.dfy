// What holds in every reachable state of the handshake.

module HandshakeInvariant {
  import opened Bytes
  import opened Names
  import opened Bodies
  import opened PortTable
  import opened Controllers
  import opened Handshake

  // ------------------------------------------------------------------ messages in a channel

  /** The merge requests among messages, each as often as it occurs. */
  function Requests(bodies: seq<Body>): multiset<Merge> {
    if bodies == [] then multiset{}
    else RequestIn(bodies[0]) + Requests(bodies[1..])
  }

  function RequestIn(m: Body): multiset<Merge> {
    if m.RequestPortMerge? then multiset{Merge(m.pipe, m.connector)} else multiset{}
  }

  /** The responses among messages: the port they are for, and the port it shall face. */
  function Answers(bodies: seq<Body>): multiset<(Name, Name)> {
    if bodies == [] then multiset{}
    else AnswerIn(bodies[0]) + Answers(bodies[1..])
  }

  function AnswerIn(m: Body): multiset<(Name, Name)> {
    if m.ResponsePortMerge? then multiset{(m.connector, m.port)} else multiset{}
  }

  /** The user messages for a port, and those from a port. */
  function UsersTo(bodies: seq<Body>, p: Name): multiset<Body> {
    if bodies == [] then multiset{}
    else UsersTo(bodies[..|bodies| - 1], p) + UserIfTo(bodies[|bodies| - 1], p)
  }

  function UserIfTo(m: Body, p: Name): multiset<Body> {
    if m.UserMessage? && m.to == p then multiset{m} else multiset{}
  }

  function UsersFrom(bodies: seq<Body>, p: Name): multiset<Body> {
    if bodies == [] then multiset{}
    else UsersFrom(bodies[..|bodies| - 1], p) + UserIfFrom(bodies[|bodies| - 1], p)
  }

  function UserIfFrom(m: Body, p: Name): multiset<Body> {
    if m.UserMessage? && m.from == p then multiset{m} else multiset{}
  }

  lemma {:induction false} RequestsAppend(bodies: seq<Body>, m: Body)
    ensures Requests(bodies + [m]) == Requests(bodies) + RequestIn(m)
  {
    hide RequestIn;
    if bodies == [] {
      assert [m][1..] == [];
    } else {
      RequestsAppend(bodies[1..], m);
      assert (bodies + [m])[1..] == bodies[1..] + [m];
    }
  }

  lemma {:induction false} AnswersAppend(bodies: seq<Body>, m: Body)
    ensures Answers(bodies + [m]) == Answers(bodies) + AnswerIn(m)
  {
    hide AnswerIn;
    if bodies == [] {
      assert [m][1..] == [];
    } else {
      AnswersAppend(bodies[1..], m);
      assert (bodies + [m])[1..] == bodies[1..] + [m];
    }
  }

  lemma UsersAppend(bodies: seq<Body>, m: Body, p: Name)
    ensures UsersTo(bodies + [m], p) == UsersTo(bodies, p) + UserIfTo(m, p)
    ensures UsersFrom(bodies + [m], p) == UsersFrom(bodies, p) + UserIfFrom(m, p)
  {
    assert (bodies + [m])[..|bodies|] == bodies;
  }

  lemma {:induction false} UsersSplit(bodies: seq<Body>, n: nat, p: Name)
    requires n <= |bodies|
    ensures UsersTo(bodies, p) == UsersTo(bodies[..n], p) + UsersTo(bodies[n..], p)
  {
    hide UserIfTo;
    if n == |bodies| {
      assert bodies[..n] == bodies;
    } else {
      var most, last := bodies[..|bodies| - 1], bodies[|bodies| - 1];
      UsersSplit(most, n, p);
      assert most[..n] == bodies[..n] && bodies[n..] == most[n..] + [last];
      UsersAppend(most[n..], last, p);
    }
  }

  // ------------------------------------------------------------------ one connection

  /** What a connection sees of the inviter. */
  datatype View = View(
    a: Name,
    k: Socket,
    down: Option<seq<Body>>,       // the channel to the invitee, once there is one
    remote: Option<Name>,          // the name that channel is known by
    pendingAt: Option<Socket>,     // the channel pending under the temporary name
    peerAt: Option<Socket>,        // the channel of the peer of the invitee's name
    io: InviterIo,                 // the IO thread, when it is busy with this connection
    mine: map<Name, Place>,        // the ports being merged or merged with ports of the invitee
    ends: map<Name, Name>)         // and their local ends

  function TempOf(c: Conn): Name {
    if c.stage.Connected? then NONE else c.stage.temp
  }

  predicate Belongs(p: Place, k: Socket) {
    (p.Merging? || p.Merged?) && p.k == k
  }

  function Mine(holder: map<Name, Place>, k: Socket): map<Name, Place> {
    map r | r in holder && Belongs(holder[r], k) :: holder[r]
  }

  function MyEnds(holder: map<Name, Place>, ends: map<Name, Name>, k: Socket): map<Name, Name> {
    map r | r in holder && r in ends && Belongs(holder[r], k) :: ends[r]
  }

  function BusyWith(io: InviterIo, k: Socket): InviterIo {
    if io.AtRest? || io.k == k then io else AtRest
  }

  function ViewOf(s: System, k: Socket): View
    requires k in s.conns
  {
    View(s.inviter.node.name, k, Lookup(s.inviter.out, k), Lookup(s.inviter.remote, k),
         Lookup(s.inviter.pendingInvitations, TempOf(s.conns[k])),
         Lookup(s.inviter.peers, s.conns[k].ctrl.node.name),
         BusyWith(s.io, k), Mine(s.holder, k), MyEnds(s.holder, s.ends, k))
  }

  function Incoming(v: View): seq<Body> {
    if v.down.Some? then v.down.value else []
  }

  function NameOf(c: Conn): Name {
    c.ctrl.node.name
  }

  predicate GoesUp(m: Body) {
    m.RequestPortMerge? || m.UserMessage?
  }

  predicate GoesDown(m: Body) {
    m.ResponsePortMerge? || m.UserMessage?
  }

  /** The channel to the inviter starts with AcceptInvitation; nothing but requests and user messages
      follows. */
  ghost predicate UpShape(up: seq<Body>, temp: Name, b: Name) {
    && (up != [] ==> up[0] == AcceptInvitation(temp, b))
    && (forall j :: 0 < j < |up| ==> GoesUp(up[j]))
  }

  ghost predicate DownShape(down: seq<Body>, temp: Name, a: Name) {
    && down != [] && down[0] == AcceptInvitee(temp, a)
    && (forall j :: 0 < j < |down| ==> GoesDown(down[j]))
  }

  /** The invitee can find a channel to the inviter. */
  predicate CanFind(io: InviteeIo, takenDown: nat) {
    io.ToSend? || io.ToSwap? || io.ToDrain? || (io.Resting? && takenDown > 0)
  }

  /** The requests put off have been taken over. */
  predicate HasSwapped(io: InviteeIo, takenDown: nat) {
    io.ToDrain? || (io.Resting? && takenDown > 0)
  }

  /** A controller without its ports. */
  function Bare(c: Controller): Controller {
    c.(node := NewNode(c.node.name))
  }

  /** How the invitee stands, by what its IO thread is about to do. */
  ghost predicate InviteeSide(v: View, ctrl: Controller, io: InviteeIo, takenDown: nat, takenUp: nat, temp: Name) {
    var up := Sent(ctrl, v.k);
    && ctrl.inviterChannel == Some(v.k) && ctrl.out.Keys == {v.k} == ctrl.remote.Keys
    && ctrl.waiting == map[] && ctrl.reserved == map[] && ctrl.pendingInvitations == map[]
    && takenDown <= |Incoming(v)| && takenUp <= |up|
    && UpShape(up, temp, ctrl.node.name)
    && ctrl.inviterName == (if takenDown > 0 then v.a else NONE)
    && ctrl.peers == (if CanFind(io, takenDown) then map[v.a := v.k] else map[])
    && (takenDown == 0 ==> io.Resting?)
    && (takenDown > 1 ==> io.Resting?)
    && (io.ToAnswer? ==> io == ToAnswer(v.a, temp))
    && (io.ToJoin? ==> io.inviter == v.a && |up| == 1)
    && (io.ToSend? ==> io.messages == [])
    && (up != [] <==> CanFind(io, takenDown) || io.ToJoin?)
    && (CanFind(io, takenDown) ==> ctrl.remote[v.k] == v.a)
    && (HasSwapped(io, takenDown) ==> ctrl.pendingMerges == [])
  }

  /** How the inviter stands. */
  ghost predicate InviterSide(v: View, stage: Stage, b: Name, takenUp: nat) {
    && v.a != NONE && b != NONE && v.a != b && (!stage.Joined? ==> v.mine == map[])
    && match stage
       case Connected =>
         v.down.None? && v.remote.None? && v.peerAt.None? && v.io.AtRest? && takenUp == 0
       case Holding(_, temp, _, _) =>
         v.down.None? && v.remote.None? && v.peerAt.None? && v.io.AtRest? && takenUp == 0
         && temp != NONE && v.pendingAt.None?
       case Listed(temp) =>
         v.down.None? && v.remote.None? && v.peerAt.None? && v.io.AtRest? && takenUp == 0
         && temp != NONE && v.pendingAt.None?
       case Invited(temp) => Waiting(v, temp) && v.io.AtRest? && takenUp == 0
       case Rekeying(temp) => Waiting(v, temp) && v.io == ToRekey(v.k, temp, b) && takenUp == 1
       case Admitting(temp) => Waiting(v, temp) && v.io == ToAdmit(v.k, temp, b) && takenUp == 1
       case Joined(temp) =>
         && v.down.Some? && DownShape(v.down.value, temp, v.a) && takenUp > 0 && temp != NONE
         && v.remote == Some(b) && v.peerAt == Some(v.k) && v.pendingAt.None?
         && (v.io.AtRest? || v.io == ToFlush(v.k, [])
             || (v.io.ToMerge? && v.io.from == b) || (v.io.ToRespond? && v.io.from == b))
  }

  /** Invited, and known by the temporary name. */
  ghost predicate Waiting(v: View, temp: Name) {
    temp != NONE && v.down == Some([AcceptInvitee(temp, v.a)]) && v.remote == Some(temp)
    && v.pendingAt == Some(v.k) && v.peerAt.None?
  }

  /** The threads that merge ports into the inviter. Once the requests put off have been taken over,
      none of them can still find no channel. */
  ghost predicate Callers(v: View, callers: map<Name, Caller>, lock: Option<Name>, track: map<Name, Track>,
                          canFind: bool, hasSwapped: bool)
  {
    && (forall p :: p in callers ==>
          && p in track && track[p].state.Calling? && track[p].pipe == callers[p].pipe
          && (callers[p].Locking? || callers[p].Named? <==> lock == Some(p))
          && (callers[p].Sending? ==> callers[p].socket == v.k && canFind)
          && (callers[p].Named? ==>
                callers[p].inviter == v.a || (callers[p].inviter == NONE && !hasSwapped)))
    && (forall p :: p in track && track[p].state.Calling? ==> p in callers)
    && (lock.Some? ==> lock.value in callers)
  }

  function InState(track: map<Name, Track>, state: MergeState): set<Merge> {
    set p | p in track && track[p].state == state :: Merge(track[p].pipe, p)
  }

  function AnsweredIn(track: map<Name, Track>): set<(Name, Name)> {
    set p | p in track && track[p].state.Answered? :: (p, track[p].state.local)
  }

  function Draining(io: InviteeIo): seq<Merge> {
    if io.ToDrain? then io.merges else []
  }

  /** Every request is exactly once where its port says it is: put off, taken over, or on the channel
      and not yet read; and every response is on the channel exactly once. */
  ghost predicate RequestPlaces(pending: seq<Merge>, draining: seq<Merge>, up: seq<Body>, down: seq<Body>,
                                track: map<Name, Track>)
  {
    && multiset(pending) == multiset(InState(track, PutOff))
    && multiset(draining) == multiset(InState(track, Swapped))
    && Requests(up) == multiset(InState(track, Asked))
    && Answers(down) == multiset(AnsweredIn(track))
  }

  predicate HasBridge(m: MergeState) {
    m.Taken? || m.Spliced? || m.Answered? || m.Settled?
  }

  /** The extracted port and its other half: a local pair, until the response has spliced it. */
  ghost predicate PairOrSpliced(n: Node, a: Name, p: Name, t: Track) {
    if t.state.Settled? then
      && p in n.live && HasPeer(n, p, a, t.state.local) && p != NONE
      && t.mate in n.ports && t.mate !in n.live
    else LocalPair(n, p, t.mate)
  }

  ghost predicate InviteePorts(n: Node, a: Name, track: map<Name, Track>) {
    && Sound(n)
    && (forall p :: p in track ==> PairOrSpliced(n, a, p, track[p]))
    && Apart(track)
  }

  ghost predicate Apart(track: map<Name, Track>) {
    && (forall p, q :: p in track && q in track ==> track[p].mate != q)
    && (forall p, q :: p in track && q in track && p != q ==> track[p].mate != track[q].mate)
  }

  /** A port is settled by a response, which comes after AcceptInvitee. */
  ghost predicate SettledLater(track: map<Name, Track>, takenDown: nat) {
    forall p :: p in track && track[p].state.Settled? ==> takenDown > 1
  }

  /** The ports of the inviter that are merged, or about to be, and the extracted ports they go with. */
  ghost predicate Splices(v: View, b: Name, track: map<Name, Track>) {
    && (forall p :: p in track && HasBridge(track[p].state) ==>
          var st := track[p].state;
          && st.bridge in v.mine && st.bridge in v.ends && v.ends[st.bridge] == st.local && st.local != NONE
          && v.mine[st.bridge] == (if st.Taken? then Merging(v.k, p) else Merged(v.k, p)))
    && (forall r :: r in v.mine ==>
          && r in v.ends && Belongs(v.mine[r], v.k) && v.mine[r].connector in track
          && HasBridge(track[v.mine[r].connector].state) && track[v.mine[r].connector].state.bridge == r)
    && (forall p :: p in track && track[p].state.Taken? ==>
          v.io == ToMerge(v.k, b, p, track[p].state.bridge))
    && (forall p :: p in track && track[p].state.Spliced? ==>
          v.io == ToRespond(v.k, b, p, track[p].state.local))
    && (v.io.ToMerge? ==>
          v.io.connector in track && track[v.io.connector].state.Taken?
          && track[v.io.connector].state.bridge == v.io.port)
    && (v.io.ToRespond? ==>
          v.io.connector in track && track[v.io.connector].state.Spliced?
          && track[v.io.connector].state.local == v.io.local)
  }

  predicate MergedAtInviter(m: MergeState) {
    m.Spliced? || m.Answered? || m.Settled?
  }

  /** User messages go between the two ends of a merged pipe. */
  ghost predicate UsersUp(up: seq<Body>, track: map<Name, Track>) {
    forall m :: m in up && m.UserMessage? ==>
      m.from in track && track[m.from].state.Settled? && track[m.from].state.local == m.to
  }

  ghost predicate UsersDown(down: seq<Body>, track: map<Name, Track>) {
    forall m :: m in down && m.UserMessage? ==>
      m.to in track && MergedAtInviter(track[m.to].state) && track[m.to].state.local == m.from
  }

  /** What the invitee's application wrote is on the channel; what came for it is queued or read. */
  ghost predicate Tallies(up: seq<Body>, heard: seq<Body>, ports: map<Name, Port>, tracked: set<Name>,
                          written: Tally, read: Tally)
  {
    && written.Keys <= tracked && read.Keys <= tracked
    && forall p :: p in tracked ==>
         && Count(written, p) == UsersFrom(up, p)
         && p in ports && UsersTo(heard, p) == multiset(ports[p].queue) + Count(read, p)
  }

  ghost predicate ConnInv(v: View, c: Conn) {
    var up := Sent(c.ctrl, v.k);
    && TypedConn(c.ctrl, v.k)
    && InviteeSide(v, Bare(c.ctrl), c.io, c.takenDown, c.takenUp, TempOf(c))
    && InviterSide(v, c.stage, NameOf(c), c.takenUp)
    && c.takenDown <= |Incoming(v)| && c.takenUp <= |up|
    && Callers(v, c.callers, c.lock, c.track, CanFind(c.io, c.takenDown), HasSwapped(c.io, c.takenDown))
    && RequestPlaces(c.ctrl.pendingMerges, Draining(c.io), up[c.takenUp..], Incoming(v)[c.takenDown..], c.track)
    && InviteePorts(c.ctrl.node, v.a, c.track) && SettledLater(c.track, c.takenDown)
    && Splices(v, NameOf(c), c.track)
    && UsersUp(up, c.track) && UsersDown(Incoming(v), c.track)
    && Tallies(up, Incoming(v)[..c.takenDown], c.ctrl.node.ports, c.track.Keys, c.written, c.read)
  }

  // ------------------------------------------------------------------ the inviter

  /** What the inviter's own state depends on of a connection. */
  datatype Bone = Bone(stage: Stage, name: Name)

  function Bones(conns: map<Socket, Conn>): map<Socket, Bone> {
    map k | k in conns :: Bone(conns[k].stage, NameOf(conns[k]))
  }

  /** The names a connection is known by. */
  function Keys(b: Bone): set<Name> {
    if b.stage.Connected? then {b.name} else {b.name, b.stage.temp}
  }

  /** No two connections share a name or a token, and no name is the inviter's. */
  ghost predicate NamesApart(a: Name, used: set<Name>, bones: map<Socket, Bone>) {
    && a != NONE && a in used && NONE in used
    && (forall k :: k in bones ==>
          && Keys(bones[k]) <= used && a !in Keys(bones[k]) && NONE !in Keys(bones[k])
          && (!bones[k].stage.Connected? ==> bones[k].stage.temp != bones[k].name))
    && (forall j, k :: j in bones && k in bones && j != k ==> Keys(bones[j]) !! Keys(bones[k]))
  }

  /** The tables of the inviter have no other keys. */
  ghost predicate KeysUsed(c: Controller, used: set<Name>) {
    && c.peers.Keys <= used - {NONE} && c.reserved.Keys <= used - {NONE}
    && c.pendingInvitations.Keys <= used - {NONE}
  }

  ghost predicate InviterFacts(s: System) {
    && !s.crashed && !s.dropped
    && s.inviter.inviterName == NONE && s.inviter.pendingMerges == [] && s.inviter.waiting == map[]
    && s.inviter.out.Keys <= s.conns.Keys
    && (s.io.AtRest? || s.io.k in s.conns)
  }

  /** The ends of the attached pipes: local pairs until they are spliced. */
  ghost predicate InviterPorts(n: Node, ends: map<Name, Name>, holder: map<Name, Place>, bones: map<Socket, Bone>) {
    && Sound(n) && ends.Keys == holder.Keys && EndsApart(ends)
    && (forall r :: r in ends ==> EndOk(n, r, ends[r], holder[r], bones))
  }

  ghost predicate EndsApart(ends: map<Name, Name>) {
    && (forall r :: r in ends ==> ends[r] !in ends)
    && (forall r, q :: r in ends && q in ends && r != q ==> ends[r] != ends[q])
  }

  ghost predicate EndOk(n: Node, r: Name, l: Name, place: Place, bones: map<Socket, Bone>) {
    if place.Merged? then
      && r in n.ports && r !in n.live && l in n.live && l != NONE
      && place.k in bones && HasPeer(n, l, bones[place.k].name, place.connector)
    else LocalPair(n, r, l)
  }

  /** The temporary name is a key of the reserved ports. */
  predicate UnderToken(stage: Stage) {
    stage.Listed? || stage.Invited? || stage.Rekeying?
  }

  predicate UnderName(stage: Stage) {
    stage.Admitting? || stage.Joined?
  }

  type Dispatchers = map<nat, map<Text, Name>>

  type ReservedPorts = map<Name, map<Text, Name>>

  /** Every attached port is where its holder says, and only there. */
  ghost predicate Reservations(dispatchers: Dispatchers, reserved: ReservedPorts, holder: map<Name, Place>,
                               bones: map<Socket, Bone>)
  {
    && (forall h, x :: h in dispatchers && x in dispatchers[h] ==> Holds(holder, dispatchers[h][x], Attached(h, x)))
    && (forall k :: k in bones ==> HeldOf(dispatchers, holder, k, bones[k].stage))
    && (forall k :: k in bones ==> ReservedOf(reserved, holder, k, bones[k]))
    && (forall r :: r in holder ==> IsAt(dispatchers, reserved, bones, r, holder[r]))
  }

  ghost predicate Holds(holder: map<Name, Place>, r: Name, place: Place) {
    r in holder && holder[r] == place
  }

  ghost predicate HeldOf(dispatchers: Dispatchers, holder: map<Name, Place>, k: Socket, stage: Stage) {
    stage.Holding? ==>
      && stage.handle in dispatchers
      && (forall x :: x in stage.attached ==> Holds(holder, stage.attached[x], Held(k, x)))
  }

  ghost predicate ReservedOf(reserved: ReservedPorts, holder: map<Name, Place>, k: Socket, b: Bone) {
    && (!b.stage.Connected? ==> (b.stage.temp in reserved <==> UnderToken(b.stage)))
    && (UnderToken(b.stage) ==> ListedFor(reserved, holder, b.stage.temp, k, true))
    && (b.name in reserved ==> UnderName(b.stage))
    && ListedFor(reserved, holder, b.name, k, false)
  }

  function ReservedPlace(k: Socket, x: Text, token: bool): Place {
    if token then Tokened(k, x) else Reserved(k, x)
  }

  ghost predicate ListedFor(reserved: ReservedPorts, holder: map<Name, Place>, name: Name, k: Socket, token: bool) {
    name in reserved ==>
      forall x :: x in reserved[name] ==> Holds(holder, reserved[name][x], ReservedPlace(k, x, token))
  }

  /** The port is in the table its place names. */
  ghost predicate IsAt(dispatchers: Dispatchers, reserved: ReservedPorts, bones: map<Socket, Bone>, r: Name,
                       place: Place)
  {
    match place
    case Attached(h, x) => h in dispatchers && x in dispatchers[h] && dispatchers[h][x] == r
    case Held(k, x) =>
      k in bones && bones[k].stage.Holding? && x in bones[k].stage.attached && bones[k].stage.attached[x] == r
    case Tokened(k, x) =>
      k in bones && UnderToken(bones[k].stage) && Listing(reserved, bones[k].stage.temp, x, r)
    case Reserved(k, x) => k in bones && Listing(reserved, bones[k].name, x, r)
    case Merging(k, _) => k in bones
    case Merged(k, _) => k in bones
    case _ => true
  }

  predicate Listing(reserved: ReservedPorts, name: Name, x: Text, r: Name) {
    name in reserved && x in reserved[name] && reserved[name][x] == r
  }

  /** What the inviter's application wrote into a pipe is on the channel of its invitee; what came for
      it is queued or read. */
  ghost predicate InviterTallies(s: System) {
    && s.written.Keys <= s.inviter.node.ports.Keys && s.read.Keys <= s.inviter.node.ports.Keys
    && forall r :: r in s.ends && r in s.holder ==> EndTally(s, s.ends[r], s.holder[r])
  }

  /** What an invitee sent, as far as the inviter has read it. */
  function HeardFrom(c: Conn, k: Socket): seq<Body> {
    if c.takenUp <= |Sent(c.ctrl, k)| then Sent(c.ctrl, k)[..c.takenUp] else []
  }

  ghost predicate EndTally(s: System, l: Name, place: Place) {
    && l in s.inviter.node.ports
    && if place.Merged? then
         && place.k in s.conns
         && Count(s.written, l) == UsersFrom(Down(s, place.k), l)
         && UsersTo(HeardFrom(s.conns[place.k], place.k), l)
            == multiset(s.inviter.node.ports[l].queue) + Count(s.read, l)
       else Count(s.written, l) == multiset{} == multiset(s.inviter.node.ports[l].queue) + Count(s.read, l)
  }

  ghost predicate Inv(s: System) {
    && Typed(s) && InviterFacts(s)
    && NamesApart(s.inviter.node.name, s.used, Bones(s.conns)) && KeysUsed(s.inviter, s.used)
    && InviterPorts(s.inviter.node, s.ends, s.holder, Bones(s.conns))
    && Reservations(s.dispatchers, s.inviter.reserved, s.holder, Bones(s.conns))
    && InviterTallies(s) && Connections(s)
  }

  ghost predicate Connections(s: System) {
    forall k :: k in s.conns ==> ConnInv(ViewOf(s, k), s.conns[k])
  }
}
