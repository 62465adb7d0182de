// What holds on the wire as long as the application is brief: the others make up a run of the message
// machine, every reader is at the beginning of a frame, and strays are what torn writes sent.

module WireInvariant {
  import opened Bytes
  import opened Names
  import opened Bodies
  import opened SkippedPrefix
  import opened Transport
  import opened PortTable
  import opened Controllers
  import opened Handshake
  import opened HandshakeInvariant
  import opened HandshakeInvitee
  import opened HandshakeMessages
  import opened HandshakeInviteeSteps
  import opened HandshakeInviter
  import opened HandshakeInvitation
  import opened HandshakeLaunch
  import opened HandshakeHear
  import opened HandshakeTheorems
  import opened HandshakeForever
  import opened HandshakeConservation
  import opened HandshakeGrowth
  import opened Streams
  import opened HandshakeWire

  /** What the application asks for is small. */
  predicate BriefWire(step: WireStep) {
    match step
    case Do(st) => Brief(st)
    case ReadPort(_, _, _, data) => |data| <= 91
    case _ => true
  }

  /** No port name is used by the inviter and by an invitee. */
  ghost predicate ProcessesApart(s: System) {
    forall k :: k in s.conns ==> s.inviter.node.ports.Keys !! s.conns[k].ctrl.node.ports.Keys
  }

  ghost predicate ChannelOk(others: seq<Body>, strays: seq<Stray>, taken: nat, at: nat) {
    taken <= |others| && Placed(strays, taken, |others|) && at == |Stream(others[..taken])|
  }

  /** A stray of an invitee: sent at a settled port, under the name of its old mate. */
  predicate StrayUpOk(track: map<Name, Track>, m: Body) {
    && m.UserMessage? && Short(m) && m.from in track && track[m.from].state.Settled?
    && m.to == track[m.from].mate
  }

  /** A stray of the inviter: sent at a merged port, under the name of the bridge half. */
  predicate StrayDownOk(s: System, k: Socket, m: Body) {
    && m.UserMessage? && Short(m) && m.to in s.ends && s.ends[m.to] == m.from
    && m.to in s.holder && s.holder[m.to].Merged? && s.holder[m.to].k == k
  }

  ghost predicate StraysUpOk(w: Wire, k: Socket)
    requires k in w.s.conns
  {
    forall i :: 0 <= i < |StraysOf(w.strayUp, k)| ==> StrayUpOk(w.s.conns[k].track, StraysOf(w.strayUp, k)[i].message)
  }

  ghost predicate StraysDownOk(w: Wire, k: Socket) {
    forall i :: 0 <= i < |StraysOf(w.strayDown, k)| ==> StrayDownOk(w.s, k, StraysOf(w.strayDown, k)[i].message)
  }

  ghost predicate ChannelsOk(w: Wire, k: Socket)
    requires k in w.s.conns
  {
    var c := w.s.conns[k];
    && ChannelOk(Up(c, k), StraysOf(w.strayUp, k), c.takenUp, Position(w.readUp, k)) && StraysUpOk(w, k)
    && ChannelOk(Down(w.s, k), StraysOf(w.strayDown, k), c.takenDown, Position(w.readDown, k)) && StraysDownOk(w, k)
  }

  /** The port `l` is the local end of the attached port `r`. */
  predicate EndWriter(s: System, x: Writer, r: Name) {
    && r in s.ends && s.ends[r] == x.port && r in s.holder
    && ((x.to == r && x.faced == s.inviter.node.name)
        || (s.holder[r].Merged? && x.to == s.holder[r].connector && x.faced != s.inviter.node.name))
  }

  /** What a writer has read is what its port faces, or faced before it was spliced. */
  ghost predicate WriterOk(s: System, x: Writer) {
    && |x.data| <= 91
    && match x.side
       case None =>
         || (exists r :: EndWriter(s, x, r))
         || (x.port in s.ends && x.to == s.ends[x.port] && x.faced == s.inviter.node.name)
       case Some(k) =>
         && k in s.conns && x.port in s.conns[k].track
         && var t := s.conns[k].track[x.port];
         || (x.to == t.mate && x.faced == NameOf(s.conns[k]))
         || (t.state.Settled? && x.to == t.state.local && x.faced == s.inviter.node.name)
  }

  ghost predicate WireInv(a: Name, w: Wire) {
    && Reachable(a, w.s) && ShortSystem(w.s) && ProcessesApart(w.s)
    && w.strayUp.Keys <= w.s.conns.Keys && w.strayDown.Keys <= w.s.conns.Keys
    && w.readUp.Keys <= w.s.conns.Keys && w.readDown.Keys <= w.s.conns.Keys
    && (forall k :: k in w.s.conns ==> ChannelsOk(w, k))
    && (forall i :: i in w.writers ==> WriterOk(w.s, w.writers[i]))
  }

  lemma StartHolds(a: Name)
    requires a != NONE
    ensures WireInv(a, Start(a))
  {
    assert Run(a, []) == Some(Init(a));
  }

  lemma ReachableNext(a: Name, s: System, step: Step)
    requires Reachable(a, s) && Typed(s) && Enabled(s, step)
    ensures Reachable(a, Apply(s, step))
  {
    hide Typed, Enabled, Apply;
    var steps :| Run(a, steps) == Some(s);
    var more := steps + [step];
    assert more[..|more| - 1] == steps && more[|more| - 1] == step;
    assert Run(a, more) == LastStep(a, more);
  }

  // ------------------------------------------------------------------ what a step of the others leaves

  lemma ChannelStays(others: seq<Body>, more: seq<Body>, strays: seq<Stray>, taken: nat, at: nat)
    requires ChannelOk(others, strays, taken, at) && others <= more
    ensures ChannelOk(more, strays, taken, at)
  {
    assert more[..taken] == others[..taken];
  }

  lemma NewChannelOk()
    ensures ChannelOk([], [], 0, 0)
  {
  }

  lemma StrayUpStays(t: map<Name, Track>, u: map<Name, Track>, m: Body)
    requires Onward(t, u) && StrayUpOk(t, m)
    ensures StrayUpOk(u, m)
  {
  }

  lemma StrayDownStays(s: System, t: System, k: Socket, m: Body)
    requires Later(s, t) && StrayDownOk(s, k, m)
    ensures StrayDownOk(t, k, m)
  {
    hide Onward;
  }

  lemma WriterStays(s: System, t: System, x: Writer)
    requires Later(s, t) && WriterOk(s, x)
    requires forall k :: k in s.conns ==> k in t.conns && NameOf(t.conns[k]) == NameOf(s.conns[k])
    ensures WriterOk(t, x)
  {
    if x.side.None? {
      if exists r :: EndWriter(s, x, r) {
        var r :| EndWriter(s, x, r);
        assert EndWriter(t, x, r);
      }
    } else {
      assert Onward(s.conns[x.side.value].track, t.conns[x.side.value].track);
    }
  }

  /** The channels of one connection, when no message of it was read. */
  lemma ChannelsStay(w: Wire, t: System, k: Socket, step: Step)
    requires k in w.s.conns && k in t.conns && ChannelsOk(w, k) && Later(w.s, t)
    requires ConnGrows(k, w.s.conns[k], t.conns[k], step) && OutGrows(w.s.inviter.out, t.inviter.out)
    requires UpHeard(step, k) == DownHeard(step, k) == 0
    ensures ChannelsOk(w.(s := t), k)
  {
    hide ChannelOk, Onward, StrayUpOk, StrayDownOk, Later;
    DownGrows(w.s, t, k);
    var c, d := w.s.conns[k], t.conns[k];
    ChannelStays(Up(c, k), Up(d, k), StraysOf(w.strayUp, k), c.takenUp, Position(w.readUp, k));
    ChannelStays(Down(w.s, k), Down(t, k), StraysOf(w.strayDown, k), c.takenDown, Position(w.readDown, k));
    StraysStay(w, t, k);
    hide StraysUpOk, StraysDownOk, Down;
  }

  lemma DownGrows(s: System, t: System, k: Socket)
    requires OutGrows(s.inviter.out, t.inviter.out)
    ensures Down(s, k) <= Down(t, k)
  {
  }

  lemma StraysStay(w: Wire, t: System, k: Socket)
    requires k in w.s.conns && k in t.conns && Later(w.s, t)
    ensures StraysUpOk(w, k) ==> StraysUpOk(w.(s := t), k)
    ensures StraysDownOk(w, k) ==> StraysDownOk(w.(s := t), k)
  {
    assert Onward(w.s.conns[k].track, t.conns[k].track);
    hide Onward, StrayUpOk, StrayDownOk, Later;
    if StraysUpOk(w, k) {
      forall i | 0 <= i < |StraysOf(w.strayUp, k)|
        ensures StrayUpOk(t.conns[k].track, StraysOf(w.strayUp, k)[i].message)
      {
        StrayUpStays(w.s.conns[k].track, t.conns[k].track, StraysOf(w.strayUp, k)[i].message);
      }
    }
    if StraysDownOk(w, k) {
      forall i | 0 <= i < |StraysOf(w.strayDown, k)|
        ensures StrayDownOk(t, k, StraysOf(w.strayDown, k)[i].message)
      {
        StrayDownStays(w.s, t, k, StraysOf(w.strayDown, k)[i].message);
      }
    }
  }

  predicate DrawsApart(s: System, step: Step) {
    match step
    case AtInvitee(_, Extract(_, p0, p1)) => p0 !in s.inviter.node.ports && p1 !in s.inviter.node.ports
    case Attach(_, _, l, r) =>
      forall k :: k in s.conns ==> l !in s.conns[k].ctrl.node.ports && r !in s.conns[k].ctrl.node.ports
    case _ => true
  }

  lemma StillDisjoint(a: set<Name>, b: set<Name>, x: set<Name>, y: set<Name>, a': set<Name>, b': set<Name>)
    requires a !! b && a' <= a + x && b' <= b + y && x !! b && y !! a && (x == {} || y == {})
    ensures a' !! b'
  {
  }

  lemma DrawsDisjoint(s: System, step: Step, k: Socket)
    requires k in s.conns && DrawsApart(s, step)
    ensures NamesAtInviter(step) !! s.conns[k].ctrl.node.ports.Keys
    ensures NamesAt(step, k) !! s.inviter.node.ports.Keys
    ensures NamesAtInviter(step) == {} || NamesAt(step, k) == {}
  {
  }

  lemma ProcessesStayApart(s: System, t: System, step: Step)
    requires ProcessesApart(s) && Grows(s, t, step) && DrawsApart(s, step)
    ensures ProcessesApart(t)
  {
    hide OutGrows, ShortSystem, Brief, DrawsApart, NamesAt, NamesAtInviter;
    forall k | k in t.conns
      ensures t.inviter.node.ports.Keys !! t.conns[k].ctrl.node.ports.Keys
    {
      if k in s.conns {
        assert ConnGrows(k, s.conns[k], t.conns[k], step);
        hide ConnGrows;
        DrawsDisjoint(s, step, k);
        StillDisjoint(s.inviter.node.ports.Keys, s.conns[k].ctrl.node.ports.Keys, NamesAtInviter(step), NamesAt(step, k),
                      t.inviter.node.ports.Keys, t.conns[k].ctrl.node.ports.Keys);
      } else {
        assert Untouched(t, k);
        NoPorts(t, k);
      }
    }
  }

  lemma NoPorts(s: System, k: Socket)
    requires k in s.conns && Untouched(s, k)
    ensures s.conns[k].ctrl.node.ports.Keys == {}
  {
  }

  // ------------------------------------------------------------------ a step that reads no channel

  /** The histories of the wire belong to connections that are there. */
  predicate KeysThere(w: Wire) {
    && w.strayUp.Keys <= w.s.conns.Keys && w.strayDown.Keys <= w.s.conns.Keys
    && w.readUp.Keys <= w.s.conns.Keys && w.readDown.Keys <= w.s.conns.Keys
  }

  lemma NewChannelsOk(w: Wire, t: System, k: Socket)
    requires KeysThere(w) && k in t.conns && k !in w.s.conns && Untouched(t, k)
    ensures ChannelsOk(w.(s := t), k)
  {
    NewChannelOk();
    hide ChannelOk;
  }

  lemma AllWritersStay(w: Wire, t: System, step: Step)
    requires Later(w.s, t) && Grows(w.s, t, step)
    requires forall i :: i in w.writers ==> WriterOk(w.s, w.writers[i])
    ensures forall i :: i in w.writers ==> WriterOk(t, w.writers[i])
  {
    hide Later, WriterOk, OutGrows, ShortSystem, Brief, Untouched;
    forall i | i in w.writers
      ensures WriterOk(t, w.writers[i])
    {
      WriterStays(w.s, t, w.writers[i]);
    }
  }

  lemma AllChannelsStay(w: Wire, t: System, step: Step)
    requires KeysThere(w) && Later(w.s, t) && Grows(w.s, t, step) && forall k :: k in w.s.conns ==> ChannelsOk(w, k)
    requires forall k :: UpHeard(step, k) == DownHeard(step, k) == 0
    ensures KeysThere(w.(s := t)) && forall k :: k in t.conns ==> ChannelsOk(w.(s := t), k)
  {
    hide Later, OutGrows, ShortSystem, Brief, Untouched, ConnGrows, ChannelsOk;
    forall k | k in t.conns
      ensures ChannelsOk(w.(s := t), k)
    {
      if k in w.s.conns {
        ChannelsStay(w, t, k, step);
      } else {
        NewChannelsOk(w, t, k);
      }
    }
  }

  lemma ReadsNothing(step: Step)
    requires !step.HearInvitee? && !(step.AtInvitee? && step.step.Hear?)
    ensures forall k :: UpHeard(step, k) == DownHeard(step, k) == 0
  {
  }

  /** A step of the message machine that reads no channel. */
  lemma StepMoves(a: Name, w: Wire, step: Step)
    requires a != NONE && WireInv(a, w) && Typed(w.s) && Enabled(w.s, step) && Brief(step) && DrawsApart(w.s, step)
    requires !step.HearInvitee? && !(step.AtInvitee? && step.step.Hear?)
    ensures WireInv(a, w.(s := Apply(w.s, step))) && !Apply(w.s, step).crashed
  {
    hide Reachable, Inv, Typed, Enabled, Apply, Brief, DrawsApart, ShortSystem, ChannelsOk, WriterOk, Later, Grows;
    hide ProcessesApart, HandshakeTheorems.Run;
    var t := Apply(w.s, step);
    ReachableHolds(a, w.s);
    ReachableNext(a, w.s, step);
    ReachableHolds(a, t);
    NotCrashed(t);
    StepGrows(w.s, step);
    StepLater(w.s, step);
    ProcessesStayApart(w.s, t, step);
    StaysShort(w.s, t, step);
    ReadsNothing(step);
    AllChannelsStay(w, t, step);
    AllWritersStay(w, t, step);
  }

  lemma NotCrashed(s: System)
    requires Inv(s)
    ensures !s.crashed && !s.dropped
  {
    InvConnections(s);
    hide Inv;
  }

  lemma StaysShort(s: System, t: System, step: Step)
    requires Grows(s, t, step) && ShortSystem(s) && Brief(step)
    ensures ShortSystem(t)
  {
    hide OutGrows, ShortSystem, Brief, ConnGrows, Untouched;
  }
}
