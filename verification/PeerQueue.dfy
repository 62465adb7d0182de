// Threads that send to a node, while that node becomes a peer: any number of them, interleaved at the
// lock scopes of SendPeerEvent and AddPeer. The fields under "history" influence no step.

module PeerQueue {
  import opened Names
  import opened Bodies
  import opened PortTable
  import opened Controllers

  /** Where a thread is that sends a message to node `to`. */
  datatype Sender =
    | Looking(to: Name, message: Body)
    | Missing(to: Name, message: Body)                  // the first lookup found no channel
    | Holding(to: Name, message: Body, socket: Socket)  // it found one
    | Ended

  /** A thread that has made `to` a peer and sends the messages it took from the waiting ones. */
  datatype Flush = Flush(to: Name, socket: Socket, messages: seq<Body>)

  datatype Entry = Entry(to: Name, socket: Socket, message: Body, waited: bool)

  datatype State = State(
    c: Controller,
    senders: seq<Sender>,
    flushes: seq<Flush>,
    // history
    log: seq<Entry>,                  // everything sent, in order
    handed: map<Name, seq<Body>>,     // every message handed in for a node
    queued: map<Name, seq<Body>>,     // every message that ever waited for it, in order
    lost: map<Name, seq<Body>>,       // the waiting messages lost when it was dropped
    dropped: set<Name>)

  function Start(a: Name): State {
    State(NewController(a), [], [], [], map[], map[], map[], {})
  }

  function ListAt(m: map<Name, seq<Body>>, n: Name): seq<Body> {
    if n in m then m[n] else []
  }

  function Put(m: map<Name, seq<Body>>, n: Name, messages: seq<Body>): map<Name, seq<Body>> {
    m[n := ListAt(m, n) + messages]
  }

  function Logged(q: State, e: Entry): State
    requires e.socket in q.c.out
  {
    q.(c := Send(q.c, e.socket, e.message), log := q.log + [e])
  }

  datatype Step =
    | Create(socket: Socket)               // a channel
    | HandIn(to: Name, message: Body)      // a thread starts to send
    | LookUp(i: nat)                       // the peers lock is taken, the channel looked up
    | SendFound(i: nat)
    | LookAgain(i: nat)                    // the peers lock is taken again: queued, or sent under the lock
    | Add(to: Name, socket: Socket)        // a node becomes a peer
    | FlushOne(j: nat)
    | Forget(to: Name)                     // a peer is dropped

  predicate Enabled(q: State, step: Step) {
    match step
    case Create(s) => s !in q.c.out
    case HandIn(_, _) => true
    case LookUp(i) => i < |q.senders| && q.senders[i].Looking?
    case SendFound(i) => i < |q.senders| && q.senders[i].Holding? && q.senders[i].socket in q.c.out
    case LookAgain(i) => i < |q.senders| && q.senders[i].Missing? && Known(q.c, q.senders[i].to)
    case Add(_, s) => s in q.c.out
    case FlushOne(j) => j < |q.flushes| && q.flushes[j].messages != [] && q.flushes[j].socket in q.c.out
    case Forget(_) => true
  }

  /** The channel of a peer exists. */
  predicate Known(c: Controller, n: Name) {
    n in c.peers ==> c.peers[n] in c.out
  }

  function HandInStep(q: State, to: Name, m: Body): State {
    q.(senders := q.senders + [Looking(to, m)], handed := Put(q.handed, to, [m]))
  }

  function AfterLookUp(c: Controller, x: Sender): Sender
    requires x.Looking?
  {
    var peer := GetPeerChannel(c, x.to);
    if peer.Some? then Holding(x.to, x.message, peer.value) else Missing(x.to, x.message)
  }

  function LookUpStep(q: State, i: nat): State
    requires i < |q.senders| && q.senders[i].Looking?
  {
    q.(senders := q.senders[i := AfterLookUp(q.c, q.senders[i])])
  }

  function SendFoundStep(q: State, i: nat): State
    requires Enabled(q, SendFound(i))
  {
    var x := q.senders[i];
    Logged(q, Entry(x.to, x.socket, x.message, false)).(senders := q.senders[i := Ended])
  }

  function LookAgainStep(q: State, i: nat): State
    requires Enabled(q, LookAgain(i))
  {
    var x := q.senders[i];
    var peer := GetPeerChannel(q.c, x.to);
    q.(c := if peer.Some? then Send(q.c, peer.value, x.message) else LetWait(q.c, x.to, x.message),
       log := if peer.Some? then q.log + [Entry(x.to, peer.value, x.message, false)] else q.log,
       queued := if peer.Some? then q.queued else Put(q.queued, x.to, [x.message]),
       senders := q.senders[i := Ended])
  }

  function AddStep(q: State, to: Name, s: Socket): State
    requires s in q.c.out
  {
    var (c, messages) := InsertPeer(SetRemote(q.c, s, to), to, s);
    q.(c := c, flushes := q.flushes + [Flush(to, s, messages)])
  }

  function FlushStep(q: State, j: nat): State
    requires Enabled(q, FlushOne(j))
  {
    var f := q.flushes[j];
    Logged(q, Entry(f.to, f.socket, f.messages[0], true)).(flushes := q.flushes[j := f.(messages := f.messages[1..])])
  }

  function ForgetStep(q: State, to: Name): State {
    q.(c := ForgetPeer(q.c, to), lost := Put(q.lost, to, ListAt(q.c.waiting, to)), dropped := q.dropped + {to})
  }

  function Apply(q: State, step: Step): State
    requires Enabled(q, step)
  {
    match step
    case Create(s) => q.(c := NewChannel(q.c, s))
    case HandIn(to, m) => HandInStep(q, to, m)
    case LookUp(i) => LookUpStep(q, i)
    case SendFound(i) => SendFoundStep(q, i)
    case LookAgain(i) => LookAgainStep(q, i)
    case Add(to, s) => AddStep(q, to, s)
    case FlushOne(j) => FlushStep(q, j)
    case Forget(to) => ForgetStep(q, to)
  }

  // ------------------------------------------------------------------ the places of a message

  /** What was sent to a node. */
  function SentTo(log: seq<Entry>, n: Name): seq<Body> {
    if log == [] then []
    else
      var last := log[|log| - 1];
      SentTo(log[..|log| - 1], n) + (if last.to == n then [last.message] else [])
  }

  /** And what of it had waited. */
  function Flushed(log: seq<Entry>, n: Name): seq<Body> {
    if log == [] then []
    else
      var last := log[|log| - 1];
      Flushed(log[..|log| - 1], n) + (if last.to == n && last.waited then [last.message] else [])
  }

  /** What was sent on a channel. */
  function SentOn(log: seq<Entry>, s: Socket): seq<Body> {
    if log == [] then []
    else
      var last := log[|log| - 1];
      SentOn(log[..|log| - 1], s) + (if last.socket == s then [last.message] else [])
  }

  function InHand(x: Sender, n: Name): multiset<Body> {
    if !x.Ended? && x.to == n then multiset{x.message} else multiset{}
  }

  function InHands(senders: seq<Sender>, n: Name): multiset<Body> {
    if senders == [] then multiset{}
    else InHands(senders[..|senders| - 1], n) + InHand(senders[|senders| - 1], n)
  }

  function FlushOf(f: Flush, n: Name): seq<Body> {
    if f.to == n then f.messages else []
  }

  function InFlush(flushes: seq<Flush>, n: Name): seq<Body> {
    if flushes == [] then []
    else InFlush(flushes[..|flushes| - 1], n) + FlushOf(flushes[|flushes| - 1], n)
  }

  lemma LogMore(log: seq<Entry>, e: Entry, n: Name, s: Socket)
    ensures SentTo(log + [e], n) == if e.to == n then SentTo(log, n) + [e.message] else SentTo(log, n)
    ensures Flushed(log + [e], n) == if e.to == n && e.waited then Flushed(log, n) + [e.message] else Flushed(log, n)
    ensures SentOn(log + [e], s) == if e.socket == s then SentOn(log, s) + [e.message] else SentOn(log, s)
  {
    assert (log + [e])[..|log|] == log;
  }

  lemma HandsMore(senders: seq<Sender>, x: Sender, n: Name)
    ensures InHands(senders + [x], n) == InHands(senders, n) + InHand(x, n)
    ensures InHand(x, n) == multiset{} ==> InHands(senders + [x], n) == InHands(senders, n)
  {
    assert (senders + [x])[..|senders|] == senders;
  }

  lemma FlushMore(flushes: seq<Flush>, f: Flush, n: Name)
    ensures InFlush(flushes + [f], n) == InFlush(flushes, n) + FlushOf(f, n)
    ensures FlushOf(f, n) == [] ==> InFlush(flushes + [f], n) == InFlush(flushes, n)
  {
    assert (flushes + [f])[..|flushes|] == flushes;
  }

  lemma SameHands(a: multiset<Body>, b: multiset<Body>, c: multiset<Body>)
    requires a + b == c + b
    ensures a == c
  {
    assert a == (a + b) - b && c == (c + b) - b;
  }

  lemma {:induction false} HandsChange(senders: seq<Sender>, i: nat, x: Sender, n: Name)
    requires i < |senders|
    ensures InHands(senders[i := x], n) + InHand(senders[i], n) == InHands(senders, n) + InHand(x, n)
  {
    hide InHand;
    var most, last := senders[..|senders| - 1], senders[|senders| - 1];
    if i == |most| {
      assert senders[i := x] == most + [x];
      HandsMore(most, x, n);
    } else {
      HandsChange(most, i, x, n);
      assert senders[i := x] == most[i := x] + [last];
      HandsMore(most[i := x], last, n);
    }
  }

  lemma HandMoved(senders: seq<Sender>, i: nat, x: Sender, n: Name)
    requires i < |senders|
    ensures InHand(x, n) == InHand(senders[i], n) ==> InHands(senders[i := x], n) == InHands(senders, n)
    ensures InHand(x, n) == multiset{} ==> InHands(senders, n) == InHands(senders[i := x], n) + InHand(senders[i], n)
  {
    hide InHand, InHands;
    HandsChange(senders, i, x, n);
    if InHand(x, n) == InHand(senders[i], n) {
      SameHands(InHands(senders[i := x], n), InHand(x, n), InHands(senders, n));
    }
  }

  lemma Joined(a: seq<Body>, b: seq<Body>)
    ensures multiset(a + b) == multiset(a) + multiset(b)
  {
  }

  function Rest(f: Flush): Flush
    requires f.messages != []
  {
    f.(messages := f.messages[1..])
  }

  function First(f: Flush, n: Name): multiset<Body>
    requires f.messages != []
  {
    if f.to == n then multiset{f.messages[0]} else multiset{}
  }

  lemma FirstAndRest(f: Flush, n: Name)
    requires f.messages != []
    ensures multiset(FlushOf(f, n)) == multiset(FlushOf(Rest(f), n)) + First(f, n)
  {
    assert f.messages == [f.messages[0]] + f.messages[1..];
  }

  /** Taking the first message of one flush. */
  lemma {:induction false} FlushChange(flushes: seq<Flush>, j: nat, n: Name)
    requires j < |flushes| && flushes[j].messages != []
    ensures multiset(InFlush(flushes, n)) == multiset(InFlush(flushes[j := Rest(flushes[j])], n)) + First(flushes[j], n)
  {
    hide FlushOf, Rest, First;
    var g := Rest(flushes[j]);
    var most, last := flushes[..|flushes| - 1], flushes[|flushes| - 1];
    Joined(InFlush(most, n), FlushOf(last, n));
    if j == |most| {
      assert flushes[j := g] == most + [g];
      FlushMore(most, g, n);
      Joined(InFlush(most, n), FlushOf(g, n));
      FirstAndRest(last, n);
    } else {
      FlushChange(most, j, n);
      assert flushes[j := g] == most[j := g] + [last];
      FlushMore(most[j := g], last, n);
      Joined(InFlush(most[j := g], n), FlushOf(last, n));
    }
  }

  lemma {:induction false} NothingInFlush(flushes: seq<Flush>, n: Name)
    requires forall i :: 0 <= i < |flushes| && flushes[i].to == n ==> flushes[i].messages == []
    ensures InFlush(flushes, n) == []
  {
    if flushes != [] {
      NothingInFlush(flushes[..|flushes| - 1], n);
    }
  }

  /** One flush alone holds messages for `n`. */
  lemma {:induction false} OneInFlush(flushes: seq<Flush>, j: nat, n: Name)
    requires j < |flushes| && flushes[j].to == n
    requires forall i :: 0 <= i < |flushes| && i != j && flushes[i].to == n ==> flushes[i].messages == []
    ensures InFlush(flushes, n) == flushes[j].messages
  {
    if j == |flushes| - 1 {
      NothingInFlush(flushes[..|flushes| - 1], n);
    } else {
      OneInFlush(flushes[..|flushes| - 1], j, n);
    }
  }

  // ------------------------------------------------------------------ the invariant

  /** What is handed in is sent, waiting, being flushed, in a hand, or lost. */
  predicate Balance(handed: multiset<Body>, sent: multiset<Body>, waiting: multiset<Body>, flush: multiset<Body>,
                    hands: multiset<Body>, lost: multiset<Body>)
  {
    handed == sent + waiting + flush + hands + lost
  }

  lemma BalanceMoves(h: multiset<Body>, s: multiset<Body>, w: multiset<Body>, f: multiset<Body>,
                     k: multiset<Body>, l: multiset<Body>, d: multiset<Body>)
    ensures Balance(h, s, w, f, k, l) ==> Balance(h + d, s, w, f, k + d, l)
    ensures Balance(h, s, w, f, k + d, l) ==> Balance(h, s + d, w, f, k, l) && Balance(h, s, w + d, f, k, l)
    ensures Balance(h, s, w, f + d, k, l) ==> Balance(h, s + d, w, f, k, l)
    ensures Balance(h, s, w + d, f, k, l) ==> Balance(h, s, w, f + d, k, l) && Balance(h, s, w, f, k, l + d)
  {
  }

  /** Every message handed in for `n` is once among those sent, waiting, being flushed, in a thread's
      hand, or lost with a dropped peer. */
  ghost predicate Conserved(q: State, n: Name) {
    Balance(multiset(ListAt(q.handed, n)), multiset(SentTo(q.log, n)), multiset(ListAt(q.c.waiting, n)),
            multiset(InFlush(q.flushes, n)), InHands(q.senders, n), multiset(ListAt(q.lost, n)))
  }

  /** The messages that waited are sent in the order in which they were queued. */
  ghost predicate InOrder(q: State, n: Name) {
    && ListAt(q.queued, n) == Flushed(q.log, n) + InFlush(q.flushes, n) + ListAt(q.c.waiting, n)
    && ListAt(q.lost, n) == []
  }

  ghost predicate OneFlush(flushes: seq<Flush>, n: Name) {
    forall i, j :: 0 <= i < j < |flushes| && flushes[i].to == n && flushes[j].to == n ==>
      flushes[i].messages == [] || flushes[j].messages == []
  }

  ghost predicate Flushing(flushes: seq<Flush>, n: Name, isPeer: bool) {
    OneFlush(flushes, n) && forall i :: 0 <= i < |flushes| && flushes[i].to == n ==> isPeer
  }

  /** What holds of the messages for `n`. */
  ghost predicate NameInv(q: State, n: Name) {
    && Conserved(q, n) && (n in q.c.peers ==> n !in q.c.waiting)
    && (n !in q.dropped ==> InOrder(q, n) && Flushing(q.flushes, n, n in q.c.peers))
  }

  ghost predicate ChannelsExist(q: State) {
    && q.c.remote.Keys == q.c.out.Keys
    && (forall n :: n in q.c.peers ==> q.c.peers[n] in q.c.out)
    && (forall i :: 0 <= i < |q.senders| && q.senders[i].Holding? ==> q.senders[i].socket in q.c.out)
    && (forall j :: 0 <= j < |q.flushes| ==> q.flushes[j].socket in q.c.out)
  }

  ghost predicate ChannelsAgree(q: State) {
    && (forall s :: s in q.c.out ==> q.c.out[s] == SentOn(q.log, s))
    && (forall i :: 0 <= i < |q.log| ==> q.log[i].socket in q.c.out)
  }

  ghost predicate Inv(q: State) {
    ChannelsExist(q) && ChannelsAgree(q) && forall n :: NameInv(q, n)
  }

  lemma StartHolds(a: Name)
    ensures Inv(Start(a))
  {
  }

  // ------------------------------------------------------------------ the steps keep it

  /** Nothing about the messages for `n` changes. */
  ghost predicate SameFor(q: State, q': State, n: Name) {
    && ListAt(q'.handed, n) == ListAt(q.handed, n) && ListAt(q'.queued, n) == ListAt(q.queued, n)
    && ListAt(q'.lost, n) == ListAt(q.lost, n)
    && SentTo(q'.log, n) == SentTo(q.log, n) && Flushed(q'.log, n) == Flushed(q.log, n)
    && (n in q'.c.waiting <==> n in q.c.waiting) && ListAt(q'.c.waiting, n) == ListAt(q.c.waiting, n)
    && (n in q'.c.peers <==> n in q.c.peers) && (n in q'.dropped <==> n in q.dropped)
    && InHands(q'.senders, n) == InHands(q.senders, n)
    && InFlush(q'.flushes, n) == InFlush(q.flushes, n)
    && (Flushing(q.flushes, n, n in q.c.peers) ==> Flushing(q'.flushes, n, n in q.c.peers))
  }

  lemma SameNameInv(q: State, q': State, n: Name)
    requires NameInv(q, n) && SameFor(q, q', n)
    ensures NameInv(q', n)
  {
    hide SentTo, Flushed, SentOn, InHands, InFlush, Flushing, ListAt, Balance;
  }

  lemma CreateKeeps(q: State, s: Socket)
    requires Inv(q) && Enabled(q, Create(s))
    ensures Inv(Apply(q, Create(s)))
  {
    hide SentTo, Flushed, InHands, InFlush, Flushing, NameInv, ListAt;
    var q' := Apply(q, Create(s));
    NothingOn(q.log, s);
    forall n
      ensures NameInv(q', n)
    {
      SameNameInv(q, q', n);
    }
  }

  lemma {:induction false} NothingOn(log: seq<Entry>, s: Socket)
    requires forall i :: 0 <= i < |log| ==> log[i].socket != s
    ensures SentOn(log, s) == []
  {
    if log != [] {
      NothingOn(log[..|log| - 1], s);
    }
  }

  lemma HandInAt(q: State, to: Name, m: Body, n: Name)
    requires NameInv(q, n)
    ensures NameInv(HandInStep(q, to, m), n)
  {
    hide SentTo, Flushed, SentOn, InHands, InFlush, Flushing, Balance, ListAt, Put;
    var q' := HandInStep(q, to, m);
    HandsMore(q.senders, Looking(to, m), n);
    PutAt(q.handed, to, [m], n);
    if n == to {
      Joined(ListAt(q.handed, n), [m]);
      Moves(q, n, multiset{}, multiset{}, multiset{}, multiset{m});
    } else {
      SameNameInv(q, q', n);
    }
  }

  lemma PutAt(m: map<Name, seq<Body>>, to: Name, messages: seq<Body>, n: Name)
    ensures ListAt(Put(m, to, messages), n) == if n == to then ListAt(m, n) + messages else ListAt(m, n)
  {
  }

  /** A move of `d` between the parts of the balance for `n`. */
  lemma Moves(q: State, n: Name, w: multiset<Body>, f: multiset<Body>, k: multiset<Body>, d: multiset<Body>)
    ensures
      var sent, waiting := multiset(SentTo(q.log, n)), multiset(ListAt(q.c.waiting, n));
      var flush, hands := multiset(InFlush(q.flushes, n)), InHands(q.senders, n);
      var handed, lost := multiset(ListAt(q.handed, n)), multiset(ListAt(q.lost, n));
      Conserved(q, n) ==>
        && Balance(handed + d, sent, waiting, flush, hands + d, lost)
        && (hands == k + d ==> Balance(handed, sent + d, waiting, flush, k, lost))
        && (hands == k + d ==> Balance(handed, sent, waiting + d, flush, k, lost))
        && (flush == f + d ==> Balance(handed, sent + d, waiting, f, hands, lost))
        && (waiting == w + d ==> Balance(handed, sent, w, flush + d, hands, lost))
        && (waiting == w + d ==> Balance(handed, sent, w, flush, hands, lost + d))
  {
    hide Balance, SentTo, InFlush, InHands, ListAt;
    var sent, waiting := multiset(SentTo(q.log, n)), multiset(ListAt(q.c.waiting, n));
    var flush, hands := multiset(InFlush(q.flushes, n)), InHands(q.senders, n);
    var handed, lost := multiset(ListAt(q.handed, n)), multiset(ListAt(q.lost, n));
    BalanceMoves(handed, sent, waiting, flush, hands, lost, d);
    BalanceMoves(handed, sent, waiting, flush, k, lost, d);
    BalanceMoves(handed, sent, waiting, f, hands, lost, d);
    BalanceMoves(handed, sent, w, flush, hands, lost, d);
  }

  lemma HandInKeeps(q: State, to: Name, m: Body)
    requires Inv(q)
    ensures Inv(HandInStep(q, to, m))
  {
    hide NameInv, SentOn;
    forall n
      ensures NameInv(HandInStep(q, to, m), n)
    {
      HandInAt(q, to, m, n);
      hide HandInStep;
    }
  }

  lemma LookUpAt(q: State, i: nat, n: Name)
    requires NameInv(q, n) && Enabled(q, LookUp(i))
    ensures NameInv(LookUpStep(q, i), n)
  {
    hide SentTo, Flushed, SentOn, InHands, InFlush, Flushing, NameInv, ListAt, AfterLookUp, InHand;
    var q' := LookUpStep(q, i);
    SameHand(q.c, q.senders[i], n);
    HandMoved(q.senders, i, q'.senders[i], n);
    SameNameInv(q, q', n);
  }

  lemma SameHand(c: Controller, x: Sender, n: Name)
    requires x.Looking?
    ensures InHand(AfterLookUp(c, x), n) == InHand(x, n)
  {
  }

  lemma LookUpKeeps(q: State, i: nat)
    requires Inv(q) && Enabled(q, LookUp(i))
    ensures Inv(LookUpStep(q, i))
  {
    hide NameInv, SentOn;
    forall n
      ensures NameInv(LookUpStep(q, i), n)
    {
      LookUpAt(q, i, n);
      hide LookUpStep;
    }
  }

  /** A send of a message that is recorded. */
  lemma LoggedChannels(q: State, e: Entry)
    requires ChannelsAgree(q) && e.socket in q.c.out
    ensures ChannelsAgree(Logged(q, e))
  {
    hide SentOn;
    forall s | s in q.c.out
      ensures SentOn(q.log + [e], s) == if e.socket == s then SentOn(q.log, s) + [e.message] else SentOn(q.log, s)
    {
      LogMore(q.log, e, e.to, s);
    }
  }

  /** A thread's message goes on a channel. */
  function SentBy(q: State, i: nat, s: Socket): State
    requires i < |q.senders| && !q.senders[i].Ended? && s in q.c.out
  {
    Logged(q, Entry(q.senders[i].to, s, q.senders[i].message, false)).(senders := q.senders[i := Ended])
  }

  lemma SentOwn(q: State, i: nat, s: Socket)
    requires i < |q.senders| && !q.senders[i].Ended? && s in q.c.out && NameInv(q, q.senders[i].to)
    ensures NameInv(SentBy(q, i, s), q.senders[i].to)
  {
    hide SentTo, Flushed, SentOn, InHands, InFlush, Flushing, ListAt, Balance;
    var q', x := SentBy(q, i, s), q.senders[i];
    HandMoved(q.senders, i, Ended, x.to);
    LogMore(q.log, Entry(x.to, s, x.message, false), x.to, s);
    Joined(SentTo(q.log, x.to), [x.message]);
    Moves(q, x.to, multiset{}, multiset{}, InHands(q'.senders, x.to), multiset{x.message});
  }

  lemma SentByAt(q: State, i: nat, s: Socket, n: Name)
    requires NameInv(q, n) && i < |q.senders| && !q.senders[i].Ended? && s in q.c.out
    ensures NameInv(SentBy(q, i, s), n)
  {
    hide SentTo, Flushed, SentOn, InHands, InFlush, Flushing, ListAt, NameInv;
    var q', x := SentBy(q, i, s), q.senders[i];
    if n == x.to {
      SentOwn(q, i, s);
    } else {
      HandMoved(q.senders, i, Ended, n);
      LogMore(q.log, Entry(x.to, s, x.message, false), n, s);
      SameNameInv(q, q', n);
    }
  }

  lemma SentByKeeps(q: State, i: nat, s: Socket)
    requires Inv(q) && i < |q.senders| && !q.senders[i].Ended? && s in q.c.out
    ensures Inv(SentBy(q, i, s))
  {
    hide NameInv, SentOn;
    LoggedChannels(q, Entry(q.senders[i].to, s, q.senders[i].message, false));
    forall n
      ensures NameInv(SentBy(q, i, s), n)
    {
      SentByAt(q, i, s, n);
      hide SentBy;
    }
  }

  function QueuedStep(q: State, i: nat): State
    requires i < |q.senders| && !q.senders[i].Ended?
  {
    var x := q.senders[i];
    q.(c := LetWait(q.c, x.to, x.message), queued := Put(q.queued, x.to, [x.message]),
       senders := q.senders[i := Ended])
  }

  lemma QueuedShape(q: State, i: nat)
    requires Enabled(q, LookAgain(i)) && q.senders[i].to !in q.c.peers
    ensures LookAgainStep(q, i) == QueuedStep(q, i)
  {
    hide Put, LetWait;
  }

  lemma QueuedOwn(q: State, i: nat)
    requires i < |q.senders| && !q.senders[i].Ended? && q.senders[i].to !in q.c.peers && NameInv(q, q.senders[i].to)
    ensures NameInv(QueuedStep(q, i), q.senders[i].to)
  {
    hide SentTo, Flushed, SentOn, InHands, InFlush, Flushing, ListAt, Balance, Put, LetWait;
    var q', x := QueuedStep(q, i), q.senders[i];
    var n := x.to;
    HandMoved(q.senders, i, Ended, n);
    WaitAt(q.c, n, x.message, n);
    PutAt(q.queued, n, [x.message], n);
    Joined(ListAt(q.c.waiting, n), [x.message]);
    Moves(q, n, multiset{}, multiset{}, InHands(q'.senders, n), multiset{x.message});
    OneMoreWaits(Flushed(q.log, n), InFlush(q.flushes, n), ListAt(q.c.waiting, n), x.message);
  }

  lemma QueuedAt(q: State, i: nat, n: Name)
    requires NameInv(q, n) && i < |q.senders| && !q.senders[i].Ended? && q.senders[i].to !in q.c.peers
    ensures NameInv(QueuedStep(q, i), n)
  {
    hide SentTo, Flushed, SentOn, InHands, InFlush, Flushing, ListAt, NameInv, Put, LetWait;
    var q', x := QueuedStep(q, i), q.senders[i];
    if n == x.to {
      QueuedOwn(q, i);
    } else {
      HandMoved(q.senders, i, Ended, n);
      WaitAt(q.c, x.to, x.message, n);
      PutAt(q.queued, x.to, [x.message], n);
      SameNameInv(q, q', n);
    }
  }

  lemma WaitAt(c: Controller, to: Name, m: Body, n: Name)
    ensures ListAt(LetWait(c, to, m).waiting, n) == if n == to then ListAt(c.waiting, n) + [m] else ListAt(c.waiting, n)
    ensures n in LetWait(c, to, m).waiting <==> n in c.waiting || n == to
    ensures LetWait(c, to, m).peers == c.peers
  {
  }

  lemma OneMoreWaits(a: seq<Body>, b: seq<Body>, c: seq<Body>, m: Body)
    ensures (a + b + c) + [m] == a + b + (c + [m])
  {
  }

  lemma QueuedKeeps(q: State, i: nat)
    requires Inv(q) && Enabled(q, LookAgain(i)) && q.senders[i].to !in q.c.peers
    ensures Inv(LookAgainStep(q, i))
  {
    hide NameInv, SentOn, LookAgainStep;
    QueuedShape(q, i);
    forall n
      ensures NameInv(QueuedStep(q, i), n)
    {
      QueuedAt(q, i, n);
      hide QueuedStep;
    }
  }

  /** What a new peer's flush takes. */
  lemma AddedAt(q: State, to: Name, s: Socket, n: Name)
    requires NameInv(q, n) && s in q.c.out
    ensures NameInv(AddStep(q, to, s), n)
  {
    hide SentTo, Flushed, SentOn, InHands, InFlush, Flushing, ListAt, Balance;
    var q' := AddStep(q, to, s);
    var f := q'.flushes[|q.flushes|];
    FlushMore(q.flushes, f, n);
    FlushingMore(q.flushes, f, n, n in q.c.peers);
    TakenAt(q, to, s, n);
    if n == to && n !in q.c.peers {
      var waiting := ListAt(q.c.waiting, n);
      Joined(InFlush(q.flushes, n), waiting);
      Moves(q, n, multiset{}, multiset{}, multiset{}, multiset(waiting));
      AllTaken(Flushed(q.log, n), InFlush(q.flushes, n), waiting);
    } else {
      SameNameInv(q, q', n);
    }
  }

  lemma AllTaken(a: seq<Body>, b: seq<Body>, c: seq<Body>)
    ensures a + b + c == a + (b + c) + []
  {
  }

  lemma TakenAt(q: State, to: Name, s: Socket, n: Name)
    requires s in q.c.out
    ensures
      var q' := AddStep(q, to, s);
      var f := q'.flushes[|q.flushes|];
      && (n == to && n !in q.c.peers ==> f.messages == ListAt(q.c.waiting, n) && ListAt(q'.c.waiting, n) == [])
      && (n == to && n !in q.c.peers ==> n in q'.c.peers && n !in q'.c.waiting)
      && (n != to || n in q.c.peers ==>
            FlushOf(f, n) == [] && ListAt(q'.c.waiting, n) == ListAt(q.c.waiting, n)
            && (n in q'.c.waiting <==> n in q.c.waiting) && (n in q'.c.peers <==> n in q.c.peers))
  {
    Inserted(SetRemote(q.c, s, to), to, s, n);
    hide Controllers.InsertPeer, ListAt;
  }

  lemma Inserted(c: Controller, to: Name, s: Socket, n: Name)
    requires s in c.out
    ensures
      var (d, messages) := InsertPeer(c, to, s);
      && (to !in c.peers ==>
            messages == ListAt(c.waiting, to) && ListAt(d.waiting, to) == [] && to in d.peers && to !in d.waiting)
      && (to in c.peers ==> messages == [])
      && (n != to || n in c.peers ==>
            ListAt(d.waiting, n) == ListAt(c.waiting, n) && (n in d.waiting <==> n in c.waiting)
            && (n in d.peers <==> n in c.peers))
  {
  }

  lemma FlushingMore(flushes: seq<Flush>, f: Flush, n: Name, isPeer: bool)
    requires isPeer ==> FlushOf(f, n) == []
    ensures Flushing(flushes, n, isPeer) ==> Flushing(flushes + [f], n, isPeer || f.to == n)
  {
  }

  lemma AddKeeps(q: State, to: Name, s: Socket)
    requires Inv(q) && s in q.c.out
    ensures Inv(AddStep(q, to, s))
  {
    hide NameInv, SentOn;
    AddChannels(q, to, s);
    hide ChannelsExist, ChannelsAgree, AddStep;
    forall n
      ensures NameInv(AddStep(q, to, s), n)
    {
      AddedAt(q, to, s, n);
    }
  }

  lemma AddChannels(q: State, to: Name, s: Socket)
    requires ChannelsExist(q) && ChannelsAgree(q) && s in q.c.out
    ensures ChannelsExist(AddStep(q, to, s)) && ChannelsAgree(AddStep(q, to, s))
  {
    hide SentOn;
  }

  lemma {:induction false} SameFlush(flushes: seq<Flush>, j: nat, g: Flush, n: Name)
    requires j < |flushes| && FlushOf(g, n) == FlushOf(flushes[j], n)
    ensures InFlush(flushes[j := g], n) == InFlush(flushes, n)
  {
    var most, last := flushes[..|flushes| - 1], flushes[|flushes| - 1];
    if j == |most| {
      assert flushes[j := g] == most + [g];
      FlushMore(most, g, n);
    } else {
      SameFlush(most, j, g, n);
      assert flushes[j := g] == most[j := g] + [last];
      FlushMore(most[j := g], last, n);
    }
  }

  /** When one flush alone holds messages for its node, taking the first takes the first of all. */
  lemma FirstOfAll(flushes: seq<Flush>, j: nat, isPeer: bool)
    requires j < |flushes| && flushes[j].messages != [] && Flushing(flushes, flushes[j].to, isPeer)
    ensures
      var f := flushes[j];
      && InFlush(flushes, f.to) == [f.messages[0]] + InFlush(flushes[j := Rest(f)], f.to)
      && Flushing(flushes[j := Rest(f)], f.to, isPeer)
  {
    hide InFlush;
    var f := flushes[j];
    Alone(flushes, j);
    OneInFlush(flushes, j, f.to);
    OneInFlush(flushes[j := Rest(f)], j, f.to);
    hide OneFlush;
    assert f.messages == [f.messages[0]] + Rest(f).messages;
  }

  lemma Alone(flushes: seq<Flush>, j: nat)
    requires j < |flushes| && flushes[j].messages != [] && OneFlush(flushes, flushes[j].to)
    ensures
      var to := flushes[j].to;
      && (forall i :: 0 <= i < |flushes| && i != j && flushes[i].to == to ==> flushes[i].messages == [])
      && OneFlush(flushes[j := Rest(flushes[j])], to)
  {
  }

  lemma FlushOwn(q: State, j: nat)
    requires Enabled(q, FlushOne(j)) && NameInv(q, q.flushes[j].to)
    ensures NameInv(FlushStep(q, j), q.flushes[j].to)
  {
    hide SentTo, Flushed, SentOn, InHands, InFlush, Flushing, ListAt, Balance;
    var q', f := FlushStep(q, j), q.flushes[j];
    var m, n := f.messages[0], f.to;
    LogMore(q.log, Entry(f.to, f.socket, m, true), n, f.socket);
    FlushChange(q.flushes, j, n);
    Joined(SentTo(q.log, n), [m]);
    Moves(q, n, multiset{}, multiset(InFlush(q'.flushes, n)), multiset{}, multiset{m});
    if n !in q.dropped {
      FirstOfAll(q.flushes, j, n in q.c.peers);
      Regroup(Flushed(q.log, n), m, InFlush(q'.flushes, n), ListAt(q.c.waiting, n));
    }
  }

  lemma FlushAt(q: State, j: nat, n: Name)
    requires NameInv(q, n) && Enabled(q, FlushOne(j))
    ensures NameInv(FlushStep(q, j), n)
  {
    hide SentTo, Flushed, SentOn, InHands, InFlush, Flushing, ListAt, NameInv;
    var q', f := FlushStep(q, j), q.flushes[j];
    if f.to == n {
      FlushOwn(q, j);
    } else {
      LogMore(q.log, Entry(f.to, f.socket, f.messages[0], true), n, f.socket);
      SameFlush(q.flushes, j, Rest(f), n);
      OtherFlush(q.flushes, j, n, n in q.c.peers);
      SameNameInv(q, q', n);
    }
  }

  lemma OtherFlush(flushes: seq<Flush>, j: nat, n: Name, isPeer: bool)
    requires j < |flushes| && flushes[j].messages != [] && flushes[j].to != n
    ensures Flushing(flushes, n, isPeer) ==> Flushing(flushes[j := Rest(flushes[j])], n, isPeer)
  {
  }

  lemma Regroup(a: seq<Body>, m: Body, b: seq<Body>, c: seq<Body>)
    ensures a + ([m] + b) + c == a + [m] + b + c
  {
  }

  lemma FlushKeeps(q: State, j: nat)
    requires Inv(q) && Enabled(q, FlushOne(j))
    ensures Inv(FlushStep(q, j))
  {
    hide NameInv, SentOn;
    var f := q.flushes[j];
    LoggedChannels(q, Entry(f.to, f.socket, f.messages[0], true));
    forall n
      ensures NameInv(FlushStep(q, j), n)
    {
      FlushAt(q, j, n);
      hide FlushStep;
    }
  }

  lemma ForgetAt(q: State, to: Name, n: Name)
    requires NameInv(q, n)
    ensures NameInv(ForgetStep(q, to), n)
  {
    hide SentTo, Flushed, SentOn, InHands, InFlush, Flushing, ListAt, Balance, Put;
    var q' := ForgetStep(q, to);
    var waiting := ListAt(q.c.waiting, to);
    PutAt(q.lost, to, waiting, n);
    WaitsGone(q.c, to, n);
    if n == to {
      Joined(ListAt(q.lost, n), waiting);
      Moves(q, n, multiset{}, multiset{}, multiset{}, multiset(waiting));
    } else {
      SameNameInv(q, q', n);
    }
  }

  lemma WaitsGone(c: Controller, to: Name, n: Name)
    ensures ListAt(ForgetPeer(c, to).waiting, n) == if n == to then [] else ListAt(c.waiting, n)
  {
  }

  lemma ForgetKeeps(q: State, to: Name)
    requires Inv(q)
    ensures Inv(ForgetStep(q, to))
  {
    hide NameInv, SentOn;
    forall n
      ensures NameInv(ForgetStep(q, to), n)
    {
      ForgetAt(q, to, n);
      hide ForgetStep;
    }
  }

  lemma StepKeeps(q: State, step: Step)
    requires Inv(q) && Enabled(q, step)
    ensures Inv(Apply(q, step))
  {
    hide Inv;
    match step
    case Create(s) => CreateKeeps(q, s);
    case HandIn(to, m) => HandInKeeps(q, to, m);
    case LookUp(i) => LookUpKeeps(q, i);
    case SendFound(i) => SentByKeeps(q, i, q.senders[i].socket);
    case LookAgain(i) =>
      if q.senders[i].to in q.c.peers {
        SentByKeeps(q, i, q.c.peers[q.senders[i].to]);
      } else {
        QueuedKeeps(q, i);
      }
    case Add(to, s) => AddKeeps(q, to, s);
    case FlushOne(j) => FlushKeeps(q, j);
    case Forget(to) => ForgetKeeps(q, to);
  }

  // ------------------------------------------------------------------ every run

  /** The state after a run, if every step of it could be taken. */
  function Run(a: Name, steps: seq<Step>): Option<State>
    decreases |steps|, 1
  {
    if steps == [] then Some(Start(a)) else LastStep(a, steps)
  }

  function LastStep(a: Name, steps: seq<Step>): Option<State>
    requires steps != []
    decreases |steps|, 0
  {
    var before := Run(a, steps[..|steps| - 1]);
    var step := steps[|steps| - 1];
    if before.Some? && Enabled(before.value, step) then Some(Apply(before.value, step)) else None
  }

  ghost predicate Reachable(a: Name, q: State) {
    exists steps :: Run(a, steps) == Some(q)
  }

  lemma {:induction false} RunHolds(a: Name, steps: seq<Step>)
    requires Run(a, steps).Some?
    ensures Inv(Run(a, steps).value)
  {
    hide Inv, Enabled, Apply;
    if steps == [] {
      StartHolds(a);
    } else {
      var before := Run(a, steps[..|steps| - 1]);
      RunHolds(a, steps[..|steps| - 1]);
      StepKeeps(before.value, steps[|steps| - 1]);
    }
  }

  lemma ReachableHolds(a: Name, q: State)
    requires Reachable(a, q)
    ensures Inv(q)
  {
    hide Inv, Run;
    var steps :| Run(a, steps) == Some(q);
    RunHolds(a, steps);
  }

  /** Every message handed in for a node is in exactly one place, as often as it was handed in: sent on a
      channel, waiting, about to be flushed, in the hand of a thread, or lost because its node was
      dropped while it waited. No node is a peer while messages wait for it. */
  lemma MessageInOnePlace(a: Name, q: State, n: Name)
    requires Reachable(a, q)
    ensures multiset(ListAt(q.handed, n))
         == multiset(SentTo(q.log, n)) + multiset(ListAt(q.c.waiting, n)) + multiset(InFlush(q.flushes, n))
            + InHands(q.senders, n) + multiset(ListAt(q.lost, n))
    ensures !(n in q.c.peers && n in q.c.waiting)
    ensures n !in q.dropped ==> ListAt(q.lost, n) == []
  {
    hide Reachable, InFlush, InHands, SentTo, ListAt, ChannelsExist, ChannelsAgree, Flushing;
    ReachableHolds(a, q);
    assert NameInv(q, n);
  }

  /** A channel carries exactly what was sent on it, in that order. */
  lemma ChannelsCarry(a: Name, q: State, s: Socket)
    requires Reachable(a, q) && s in q.c.out
    ensures q.c.out[s] == SentOn(q.log, s)
  {
    hide Reachable, NameInv, SentOn, ChannelsExist;
    ReachableHolds(a, q);
  }

  /** As long as a node is not dropped, the messages that waited for it leave in the order in which they
      were queued. */
  lemma FlushKeepsOrder(a: Name, q: State, n: Name)
    requires Reachable(a, q) && n !in q.dropped
    ensures ListAt(q.queued, n) == Flushed(q.log, n) + InFlush(q.flushes, n) + ListAt(q.c.waiting, n)
  {
    hide Reachable, InFlush, Flushed, ListAt, ChannelsExist, ChannelsAgree, Flushing, Conserved;
    ReachableHolds(a, q);
    assert NameInv(q, n);
  }

  /** No thread is ever stuck: the channel it is about to use exists. */
  lemma ThreadsGoOn(a: Name, q: State, i: nat)
    requires Reachable(a, q)
    ensures i < |q.senders| ==>
              match q.senders[i]
              case Looking(_, _) => Enabled(q, LookUp(i))
              case Missing(_, _) => Enabled(q, LookAgain(i))
              case Holding(_, _, _) => Enabled(q, SendFound(i))
              case Ended => true
    ensures i < |q.flushes| && q.flushes[i].messages != [] ==> Enabled(q, FlushOne(i))
  {
    hide Reachable, NameInv, ChannelsAgree;
    ReachableHolds(a, q);
  }

  /** What waited can be overtaken: while it is being flushed, a message handed in later goes out first. */
  lemma FlushIsOvertaken(q: State, n: Name, m: Body)
    requires n in q.c.peers && q.c.peers[n] in q.c.out
    ensures
      var i := |q.senders|;
      var q1 := Apply(q, HandIn(n, m));
      && Enabled(q1, LookUp(i)) && Enabled(Apply(q1, LookUp(i)), SendFound(i))
      && var q2 := Apply(Apply(q1, LookUp(i)), SendFound(i));
      q2.flushes == q.flushes && q2.log == q.log + [Entry(n, q.c.peers[n], m, false)]
  {
  }

  // ------------------------------------------------------------------ uninterrupted

  /** A thread that is not interrupted does what SendPeerEvent does as a whole. */
  lemma AloneSends(q: State, i: nat)
    requires WellFormedController(q.c) && i < |q.senders| && q.senders[i].Looking?
    ensures
      var x := q.senders[i];
      var q1 := LookUpStep(q, i);
      if x.to in q.c.peers
      then Enabled(q1, SendFound(i)) && SendFoundStep(q1, i).c == SendPeerEvent(q.c, x.to, x.message)
      else Enabled(q1, LookAgain(i)) && LookAgainStep(q1, i).c == SendPeerEvent(q.c, x.to, x.message)
  {
  }

  /** Sends all that flush `j` holds. */
  function FlushAll(q: State, j: nat): State
    requires j < |q.flushes| && q.flushes[j].socket in q.c.out
    decreases |q.flushes[j].messages|
  {
    if q.flushes[j].messages == [] then q else FlushAll(FlushStep(q, j), j)
  }

  lemma {:induction false} FlushAllSends(q: State, j: nat)
    requires j < |q.flushes| && q.flushes[j].socket in q.c.out
    ensures FlushAll(q, j).c == SendAll(q.c, q.flushes[j].socket, q.flushes[j].messages)
    decreases |q.flushes[j].messages|
  {
    var f := q.flushes[j];
    if f.messages == [] {
      SendNone(q.c, f.socket);
    } else {
      FlushAllSends(FlushStep(q, j), j);
      SendOneMore(q.c, f.socket, f.messages);
    }
  }

  /** A node that becomes a peer without interruption is added as AddPeer adds it as a whole. */
  lemma AloneAdds(q: State, to: Name, s: Socket)
    requires WellFormedController(q.c) && s in q.c.out
    ensures
      var q1 := AddStep(q, to, s);
      FlushAll(q1, |q.flushes|).c == AddPeer(q.c, to, s)
  {
    hide FlushAll;
    FlushAllSends(AddStep(q, to, s), |q.flushes|);
  }
}
