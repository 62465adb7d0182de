// The steps of the wire, one by one.

module WireSteps {
  import opened Bytes
  import opened Names
  import opened Bodies
  import opened SkippedPrefix
  import opened Transport
  import opened PortTable
  import opened Controllers
  import opened Handshake
  import opened HandshakeInvariant
  import opened HandshakeInvitee
  import opened HandshakeMessages
  import opened HandshakeInviteeSteps
  import opened HandshakeInviter
  import opened HandshakeInvitation
  import opened HandshakeLaunch
  import opened HandshakeHear
  import opened HandshakeTheorems
  import opened HandshakeForever
  import opened HandshakeConservation
  import opened HandshakeGrowth
  import opened Streams
  import opened HandshakeWire
  import opened WireInvariant

  // ------------------------------------------------------------------ what the ports face

  lemma LocalFacts(n: Node, r: Name, l: Name)
    requires LocalPair(n, r, l)
    ensures r in n.ports && n.ports[r].peerPort == l && n.ports[r].peerNode == n.name
    ensures l in n.ports && n.ports[l].peerPort == r && n.ports[l].peerNode == n.name
  {
  }

  /** The end of an attached port that is not merged faces it; a merged one faces the invitee. */
  lemma EndFaces(s: System, r: Name)
    requires Inv(s) && r in s.ends && r in s.holder
    ensures
      var l, n := s.ends[r], s.inviter.node;
      && l in n.ports && r in n.ports
      && (if s.holder[r].Merged?
          then s.holder[r].k in s.conns && n.ports[l].peerPort == s.holder[r].connector
               && n.ports[l].peerNode == NameOf(s.conns[s.holder[r].k]) != n.name
          else n.ports[l].peerPort == r && n.ports[l].peerNode == n.name
               && n.ports[r].peerPort == l && n.ports[r].peerNode == n.name)
  {
    hide Inv, Sound, EndsApart, Bones, LocalPair, InviterFacts, InviterTallies, Connections, MergedAtInviter;
    InvConnections(s);
    assert EndOk(s.inviter.node, r, s.ends[r], s.holder[r], Bones(s.conns));
    if s.holder[r].Merged? {
      MergedEnd(s, r);
    } else {
      LocalFacts(s.inviter.node, r, s.ends[r]);
    }
  }

  /** An extracted port faces its mate, or the inviter's end once it is settled. */
  lemma TrackFaces(s: System, k: Socket, p: Name)
    requires Inv(s) && k in s.conns && p in s.conns[k].track
    ensures
      var c, t := s.conns[k], s.conns[k].track[p];
      && p in c.ctrl.node.ports && t.mate in c.ctrl.node.ports && NameOf(c) != s.inviter.node.name
      && (if t.state.Settled?
          then c.ctrl.node.ports[p].peerPort == t.state.local && c.ctrl.node.ports[p].peerNode == s.inviter.node.name
               && t.mate !in c.ctrl.node.live
          else c.ctrl.node.ports[p].peerPort == t.mate && c.ctrl.node.ports[p].peerNode == NameOf(c))
  {
    hide Inv, ConnInv, ViewOf, Connections, InviterFacts, InviterTallies, InviterPorts, Bones;
    InvConnections(s);
    Connection(s, k);
    ViewDown(s, k);
    TrackPort(ViewOf(s, k), s.conns[k], p);
  }

  lemma TrackPort(v: View, c: Conn, p: Name)
    requires ConnInv(v, c) && p in c.track
    ensures
      var t := c.track[p];
      && p in c.ctrl.node.ports && t.mate in c.ctrl.node.ports && NameOf(c) != v.a
      && (if t.state.Settled?
          then c.ctrl.node.ports[p].peerPort == t.state.local && c.ctrl.node.ports[p].peerNode == v.a
               && t.mate !in c.ctrl.node.live
          else c.ctrl.node.ports[p].peerPort == t.mate && c.ctrl.node.ports[p].peerNode == NameOf(c))
  {
    hide InviteeSide, Tallies, Splices, UsersUp, UsersDown, Callers, RequestPlaces, TypedConn, SettledLater, Apart;
    hide Sound;
    assert PairOrSpliced(c.ctrl.node, v.a, p, c.track[p]);
    if c.track[p].state.Settled? {
    } else {
      LocalFacts(c.ctrl.node, p, c.track[p].mate);
    }
  }

  /** A settled invitee finds the inviter's channel. */
  lemma SettledPeer(s: System, k: Socket, p: Name)
    requires Inv(s) && k in s.conns && p in s.conns[k].track && s.conns[k].track[p].state.Settled?
    ensures GetPeerChannel(s.conns[k].ctrl, s.inviter.node.name) == Some(k)
  {
    hide Inv, ConnInv, ViewOf, Connections, InviterFacts, InviterTallies, InviterPorts, Bones;
    InvConnections(s);
    Connection(s, k);
    ViewDown(s, k);
    SettledPeerAt(ViewOf(s, k), s.conns[k], p);
  }

  lemma SettledPeerAt(v: View, c: Conn, p: Name)
    requires ConnInv(v, c) && p in c.track && c.track[p].state.Settled?
    ensures GetPeerChannel(c.ctrl, v.a) == Some(v.k)
  {
    hide Tallies, Splices, UsersUp, UsersDown, Callers, RequestPlaces, TypedConn, InviteePorts, InviterSide;
  }

  /** A port attached to an invitation is no end of one. */
  lemma EndsDiffer(s: System, r: Name, q: Name)
    requires Inv(s) && r in s.ends && q in s.ends
    ensures s.ends[r] != q && s.ends.Keys == s.holder.Keys && (s.ends[r] == s.ends[q] ==> r == q)
  {
    hide Inv, InviterFacts, InviterTallies, Connections, Bones, Sound, EndOk;
    InvConnections(s);
  }

  // ------------------------------------------------------------------ ReadPort

  /** What the port field says, and the node field at that moment. */
  lemma ReadsOk(s: System, side: Option<Socket>, p: Name, data: Text)
    requires Inv(s) && HasHandle(s, side, p) && |data| <= 91
    ensures
      var port := NodeAt(s, side).ports[p];
      WriterOk(s, Writer(side, p, port.peerPort, data, port.peerNode))
  {
    hide Inv;
    var port := NodeAt(s, side).ports[p];
    var x := Writer(side, p, port.peerPort, data, port.peerNode);
    if side.Some? {
      TrackFaces(s, side.value, p);
    } else if p in s.ends.Values {
      var r :| r in s.ends && s.ends[r] == p;
      EndsDiffer(s, r, r);
      EndFaces(s, r);
      assert EndWriter(s, x, r);
    } else {
      EndsKeys(s);
      EndFaces(s, p);
    }
  }

  lemma ReadPortKeeps(a: Name, w: Wire, i: nat, side: Option<Socket>, p: Name, data: Text)
    requires a != NONE && WireInv(a, w) && HasHandle(w.s, side, p) && |data| <= 91
    ensures WireInv(a, ReadPortStep(w, i, side, p, data))
  {
    hide Reachable, Inv, ShortSystem, ProcessesApart, ChannelsOk, WriterOk, HasHandle;
    ReachableHolds(a, w.s);
    ReadsOk(w.s, side, p, data);
    var v := ReadPortStep(w, i, side, p, data);
    forall k | k in v.s.conns
      ensures ChannelsOk(v, k)
    {
      SameChannels(w, v, k);
    }
  }

  /** Nothing about the channels has changed. */
  lemma SameChannels(w: Wire, v: Wire, k: Socket)
    requires k in w.s.conns && ChannelsOk(w, k) && v.s == w.s && v.strayUp == w.strayUp && v.strayDown == w.strayDown
    requires v.readUp == w.readUp && v.readDown == w.readDown
    ensures ChannelsOk(v, k)
  {
    hide ChannelOk, StrayUpOk, StrayDownOk;
  }

  // ------------------------------------------------------------------ Forward

  /** The write the message machine makes of it. */
  function WriteOf(x: Writer): Step {
    match x.side
    case None => WriteOwn(x.port, x.data)
    case Some(k) => AtInvitee(k, Write(x.port, x.data))
  }

  lemma WholeIsWrite(s: System, x: Writer)
    requires Typed(s) && HasHandle(s, x.side, x.port) && !s.crashed
    ensures Enabled(s, WriteOf(x)) && Apply(s, WriteOf(x)) == WriteWhole(s, x)
  {
    hide WriteAtInviter, WriteAtInvitee, WellFormedController;
  }

  /** A writer in the inviter whose port field is out of date: its port was spliced since. */
  lemma TornAtInviter(s: System, x: Writer) returns (r: Name)
    requires Inv(s) && WriterOk(s, x) && x.side.None? && HasHandle(s, x.side, x.port)
    requires x.to != s.inviter.node.ports[x.port].peerPort
    ensures x.to == r && r in s.ends && s.ends[r] == x.port && r in s.holder && s.holder[r].Merged?
    ensures
      var k := s.holder[r].k;
      && k in s.conns && s.inviter.node.ports[x.port].peerNode == NameOf(s.conns[k]) != s.inviter.node.name
      && GetPeerChannel(s.inviter, NameOf(s.conns[k])) == Some(k)
    ensures x.faced == s.inviter.node.name
  {
    hide Inv;
    if exists q :: EndWriter(s, x, q) {
      r :| EndWriter(s, x, r);
      EndFaces(s, r);
      MergedEnd(s, r);
    } else {
      r := x.port;
      EndsKeys(s);
      if x.port in s.ends.Values {
        var q :| q in s.ends && s.ends[q] == x.port;
        EndsDiffer(s, q, x.port);
      }
      EndFaces(s, x.port);
    }
  }

  /** A writer in an invitee whose port field is out of date. */
  lemma TornAtInvitee(s: System, x: Writer)
    requires Inv(s) && WriterOk(s, x) && x.side.Some? && HasHandle(s, x.side, x.port)
    requires x.to != NodeAt(s, x.side).ports[x.port].peerPort
    ensures
      var k := x.side.value;
      var t := s.conns[k].track[x.port];
      && t.state.Settled? && x.to == t.mate && x.faced == NameOf(s.conns[k])
      && NodeAt(s, x.side).ports[x.port].peerNode == s.inviter.node.name != NameOf(s.conns[k])
      && GetPeerChannel(s.conns[k].ctrl, s.inviter.node.name) == Some(k)
  {
    hide Inv;
    TrackFaces(s, x.side.value, x.port);
    SettledPeer(s, x.side.value, x.port);
  }

  /** A writer in the inviter whose port field is still right. */
  lemma WholeAtInviter(s: System, x: Writer)
    requires Inv(s) && WriterOk(s, x) && x.side.None? && HasHandle(s, x.side, x.port) && ProcessesApart(s)
    requires x.to == s.inviter.node.ports[x.port].peerPort
    ensures x.faced == s.inviter.node.name <==> s.inviter.node.ports[x.port].peerNode == s.inviter.node.name
  {
    hide Inv;
    if exists q :: EndWriter(s, x, q) {
      var r :| EndWriter(s, x, r);
      EndFaces(s, r);
      if s.holder[r].Merged? {
        MergedEnd(s, r);
        ConnectorThere(s, r);
      }
    } else {
      EndsKeys(s);
      if x.port in s.ends.Values {
        var q :| q in s.ends && s.ends[q] == x.port;
        EndsDiffer(s, q, x.port);
      }
      EndFaces(s, x.port);
    }
  }

  lemma WholeAtInvitee(s: System, x: Writer)
    requires Inv(s) && WriterOk(s, x) && x.side.Some? && HasHandle(s, x.side, x.port) && ProcessesApart(s)
    requires x.to == NodeAt(s, x.side).ports[x.port].peerPort
    ensures x.faced == NodeAt(s, x.side).name <==> NodeAt(s, x.side).ports[x.port].peerNode == NodeAt(s, x.side).name
  {
    hide Inv;
    var k := x.side.value;
    TrackFaces(s, k, x.port);
    if s.conns[k].track[x.port].state.Settled? {
      SettledLocal(s, k, x.port);
    }
  }

  /** The port faced another port of its own node when the port field was read, and faces another node
      now. */
  predicate SplicedSince(s: System, x: Writer)
    requires HasHandle(s, x.side, x.port)
  {
    var n := NodeAt(s, x.side);
    x.faced == n.name && n.ports[x.port].peerNode != n.name
  }

  /** A write is torn exactly when its port was spliced between the two reads. */
  lemma TornExactly(w: Wire, x: Writer)
    requires Inv(w.s) && WriterOk(w.s, x) && HasHandle(w.s, x.side, x.port) && ProcessesApart(w.s)
    ensures !Whole(w, x) <==> SplicedSince(w.s, x)
  {
    hide Inv, WriterOk, ProcessesApart;
    if Whole(w, x) {
      if x.side.None? {
        WholeAtInviter(w.s, x);
      } else {
        WholeAtInvitee(w.s, x);
      }
    } else if x.side.None? {
      var r := TornAtInviter(w.s, x);
    } else {
      TornAtInvitee(w.s, x);
    }
  }

  lemma SettledLocal(s: System, k: Socket, p: Name)
    requires Inv(s) && k in s.conns && p in s.conns[k].track && s.conns[k].track[p].state.Settled?
    ensures s.conns[k].track[p].state.local in s.inviter.node.ports
  {
    hide Inv;
    MergedBridge(s, k, p);
    EndFaces(s, s.conns[k].track[p].state.bridge);
  }

  lemma ConnectorThere(s: System, r: Name)
    requires Inv(s) && r in s.ends && r in s.holder && s.holder[r].Merged?
    ensures s.holder[r].k in s.conns && s.holder[r].connector in s.conns[s.holder[r].k].ctrl.node.ports
  {
    hide Inv;
    MergedEnd(s, r);
    TrackFaces(s, s.holder[r].k, s.holder[r].connector);
  }

  // ------------------------------------------------------------------ a stray is sent

  lemma StrayAdded(others: seq<Body>, strays: seq<Stray>, taken: nat, at: nat, m: Body)
    requires ChannelOk(others, strays, taken, at)
    ensures ChannelOk(others, strays + [Stray(|others|, m)], taken, at)
  {
  }

  function SendsDown(w: Wire, k: Socket, m: Body): Wire {
    w.(strayDown := AddStray(w.strayDown, k, |Down(w.s, k)|, m))
  }

  function SendsUp(w: Wire, k: Socket, m: Body): Wire
    requires k in w.s.conns
  {
    w.(strayUp := AddStray(w.strayUp, k, |Up(w.s.conns[k], k)|, m))
  }

  lemma DownOk(w: Wire, k: Socket, m: Body, j: Socket)
    requires j in w.s.conns && ChannelsOk(w, j) && StrayDownOk(w.s, k, m)
    ensures ChannelsOk(SendsDown(w, k, m), j)
  {
    hide ChannelOk, StrayUpOk, StrayDownOk, Up, Down;
    if j == k {
      StrayAdded(Down(w.s, k), StraysOf(w.strayDown, k), w.s.conns[k].takenDown, Position(w.readDown, k), m);
    }
  }

  lemma UpOk(w: Wire, k: Socket, m: Body, j: Socket)
    requires j in w.s.conns && k in w.s.conns && ChannelsOk(w, j) && StrayUpOk(w.s.conns[k].track, m)
    ensures ChannelsOk(SendsUp(w, k, m), j)
  {
    hide ChannelOk, StrayUpOk, StrayDownOk, Up, Down;
    if j == k {
      StrayAdded(Up(w.s.conns[k], k), StraysOf(w.strayUp, k), w.s.conns[k].takenUp, Position(w.readUp, k), m);
    }
  }

  /** What a torn write does on the wire. */
  lemma TornSends(w: Wire, i: nat)
    requires Inv(w.s) && Typed(w.s) && i in w.writers && WriterOk(w.s, w.writers[i])
    requires HasHandle(w.s, w.writers[i].side, w.writers[i].port) && !Whole(w, w.writers[i])
    ensures
      var x, rest := w.writers[i], w.(writers := w.writers - {i});
      match x.side
      case None =>
        && x.to in w.s.holder && w.s.holder[x.to].Merged? && w.s.holder[x.to].k in w.s.conns
        && StrayDownOk(w.s, w.s.holder[x.to].k, HandshakeWire.Message(x))
        && ForwardStep(w, i) == SendsDown(rest, w.s.holder[x.to].k, HandshakeWire.Message(x))
      case Some(k) =>
        && k in w.s.conns && StrayUpOk(w.s.conns[k].track, HandshakeWire.Message(x))
        && ForwardStep(w, i) == SendsUp(rest, k, HandshakeWire.Message(x))
  {
    hide Inv, Typed;
    var x := w.writers[i];
    if x.side.None? {
      var r := TornAtInviter(w.s, x);
      hide GetPeerChannel;
    } else {
      TornAtInvitee(w.s, x);
      hide GetPeerChannel;
    }
  }

  lemma TornKeeps(a: Name, w: Wire, i: nat)
    requires a != NONE && WireInv(a, w) && Typed(w.s) && i in w.writers
    requires HasHandle(w.s, w.writers[i].side, w.writers[i].port) && !Whole(w, w.writers[i])
    ensures WireInv(a, ForwardStep(w, i)) && ForwardStep(w, i).s == w.s
  {
    hide Reachable, Inv, ShortSystem, ProcessesApart, ChannelsOk, WriterOk, HasHandle, Whole, Typed, ForwardStep;
    hide StrayUpOk, StrayDownOk;
    ReachableHolds(a, w.s);
    TornSends(w, i);
    var x, rest := w.writers[i], w.(writers := w.writers - {i});
    forall j | j in w.s.conns
      ensures ChannelsOk(ForwardStep(w, i), j)
    {
      SameChannels(w, rest, j);
      if x.side.None? {
        DownOk(rest, w.s.holder[x.to].k, HandshakeWire.Message(x), j);
      } else {
        UpOk(rest, x.side.value, HandshakeWire.Message(x), j);
      }
    }
  }

  lemma FewerWriters(a: Name, w: Wire, i: nat)
    requires WireInv(a, w)
    ensures WireInv(a, w.(writers := w.writers - {i}))
  {
    hide Reachable, ShortSystem, ProcessesApart, ChannelsOk, WriterOk;
    var v := w.(writers := w.writers - {i});
    forall k | k in v.s.conns
      ensures ChannelsOk(v, k)
    {
      SameChannels(w, v, k);
    }
  }

  lemma WholeShape(w: Wire, i: nat)
    requires Typed(w.s) && i in w.writers && HasHandle(w.s, w.writers[i].side, w.writers[i].port)
    requires Whole(w, w.writers[i])
    ensures ForwardStep(w, i) == w.(s := WriteWhole(w.s, w.writers[i])).(writers := w.writers - {i})
  {
    hide Typed, WriteWhole, HasHandle, Whole;
  }

  lemma WholeKeeps(a: Name, w: Wire, i: nat)
    requires a != NONE && WireInv(a, w) && Typed(w.s) && !w.s.crashed && i in w.writers
    requires HasHandle(w.s, w.writers[i].side, w.writers[i].port) && Whole(w, w.writers[i])
    ensures WireInv(a, ForwardStep(w, i)) && ForwardStep(w, i).s == WriteWhole(w.s, w.writers[i])
    ensures !ForwardStep(w, i).s.crashed
  {
    hide Typed, WriteWhole, HasHandle, Whole, Enabled, Apply, WriteOf;
    var x := w.writers[i];
    WholeShape(w, i);
    WholeIsWrite(w.s, x);
    WriterOf(a, w, i);
    hide WireInv, ForwardStep, WriterOk;
    BriefData(w.s, x);
    WriteDraws(w.s, x);
    StepMoves(a, w, WriteOf(x));
    FewerWriters(a, w.(s := WriteWhole(w.s, x)), i);
  }

  lemma WriterOf(a: Name, w: Wire, i: nat)
    requires WireInv(a, w) && i in w.writers
    ensures WriterOk(w.s, w.writers[i])
  {
    hide Reachable, ShortSystem, ProcessesApart, ChannelsOk, WriterOk;
  }

  lemma BriefData(s: System, x: Writer)
    requires WriterOk(s, x)
    ensures Brief(WriteOf(x))
  {
  }

  lemma WriteDraws(s: System, x: Writer)
    ensures DrawsApart(s, WriteOf(x)) && !WriteOf(x).HearInvitee? && !(WriteOf(x).AtInvitee? && WriteOf(x).step.Hear?)
  {
  }

  // ------------------------------------------------------------------ hearing

  predicate ShortStrays(strays: seq<Stray>) {
    forall i :: 0 <= i < |strays| ==> Short(strays[i].message)
  }

  lemma {:induction false} ShortChannel(others: seq<Body>, strays: seq<Stray>)
    requires ShortAll(others) && ShortStrays(strays)
    ensures ShortAll(Channel(others, strays))
    decreases |strays|
  {
    if strays != [] {
      var last := strays[|strays| - 1];
      var at := if last.place <= |others| then last.place else |others|;
      ShortChannel(others[..at], strays[..|strays| - 1]);
    }
  }

  lemma ShortArrives(m: Body)
    requires Short(m)
    ensures |EncodeBody(m)| < 0x80 && IsMessage(m)
  {
    ShortBodies(m);
    hide EncodeBody;
  }

  /** The reader of a channel hears the next message as it was sent: a stray, or the next of the others. */
  lemma NextHeard(others: seq<Body>, strays: seq<Stray>, taken: nat, at: nat)
    requires ChannelOk(others, strays, taken, at) && ShortAll(others) && ShortStrays(strays)
    requires !HearAt(Channel(others, strays), at).Silent?
    ensures
      var heard := HearAt(Channel(others, strays), at);
      && heard.Message? && taken < |others| + |strays|
      && if strays != [] && strays[0].place == taken then heard.body == strays[0].message
         else
           && taken < |others| && heard.body == others[taken] && heard.next == |Stream(others[..taken + 1])|
           && Placed(strays, taken + 1, |others|)
  {
    hide HearAt, Stream, Short, Channel, IsMessage;
    var channel := Channel(others, strays);
    ChannelHead(others, strays, taken);
    ShortChannel(others, strays);
    if taken == |channel| {
      assert channel[..taken] == channel;
      NothingMore(channel);
    } else {
      ShortArrives(channel[taken]);
      HeardExactly(channel, taken);
      if strays == [] || strays[0].place != taken {
        assert strays != [] ==> strays[0].place > taken;
        assert taken < |others|;
        assert channel[..taken + 1] == channel[..taken] + [channel[taken]];
        assert others[..taken + 1] == others[..taken] + [others[taken]];
      }
    }
  }

  /** And it hears something unless all has been read. */
  lemma SomethingHeard(others: seq<Body>, strays: seq<Stray>, taken: nat, at: nat)
    requires ChannelOk(others, strays, taken, at) && ShortAll(others) && ShortStrays(strays)
    ensures HearAt(Channel(others, strays), at).Silent? <==> taken == |others| && strays == []
  {
    hide HearAt, Stream, Short, Channel, IsMessage;
    var channel := Channel(others, strays);
    ChannelHead(others, strays, taken);
    ShortChannel(others, strays);
    if taken == |channel| {
      assert channel[..taken] == channel;
      NothingMore(channel);
    } else {
      ShortArrives(channel[taken]);
      HeardExactly(channel, taken);
    }
  }

  /** A stray of the inviter's is next on the channel to invitee `k`. */
  predicate StrayDownNext(w: Wire, k: Socket)
    requires k in w.s.conns
  {
    var strays := StraysOf(w.strayDown, k);
    strays != [] && strays[0].place == w.s.conns[k].takenDown
  }

  predicate StrayUpNext(w: Wire, k: Socket)
    requires k in w.s.conns
  {
    var strays := StraysOf(w.strayUp, k);
    strays != [] && strays[0].place == w.s.conns[k].takenUp
  }

  lemma SystemShort(s: System, k: Socket)
    requires ShortSystem(s) && k in s.conns
    ensures ShortAll(Up(s.conns[k], k)) && ShortAll(Down(s, k))
  {
    assert ShortConn(s.conns[k]);
    hide ShortAll, ShortWaiting, ShortMerges, ShortCallers;
    NoneShort();
  }

  lemma NoneShort()
    ensures ShortAll([])
  {
  }

  lemma StraysShort(w: Wire, k: Socket)
    requires k in w.s.conns && ChannelsOk(w, k)
    ensures ShortStrays(StraysOf(w.strayUp, k)) && ShortStrays(StraysOf(w.strayDown, k))
  {
    hide ChannelOk, Short;
    forall i | 0 <= i < |StraysOf(w.strayUp, k)|
      ensures Short(StraysOf(w.strayUp, k)[i].message)
    {
      assert StrayUpOk(w.s.conns[k].track, StraysOf(w.strayUp, k)[i].message);
    }
    forall i | 0 <= i < |StraysOf(w.strayDown, k)|
      ensures Short(StraysOf(w.strayDown, k)[i].message)
    {
      assert StrayDownOk(w.s, k, StraysOf(w.strayDown, k)[i].message);
    }
  }

  /** A stray names a port the invitee never had, so hearing it crashes. */
  lemma StrayDownCrashes(a: Name, w: Wire, k: Socket)
    requires a != NONE && WireInv(a, w) && Typed(w.s) && k in w.s.conns && w.s.conns[k].io.Resting?
    requires StrayDownNext(w, k) && !HearAt(DownChannel(w, k), Position(w.readDown, k)).Silent?
    ensures HearDownStep(w, k).s == Crashed(w.s)
  {
    hide Reachable, ShortAll, ShortStrays, HearAt, Channel, ChannelOk, Stream, Down, StrayUpOk;
    var c, m := w.s.conns[k], StraysOf(w.strayDown, k)[0].message;
    assert ChannelsOk(w, k);
    SystemShort(w.s, k);
    StraysShort(w, k);
    NextHeard(Down(w.s, k), StraysOf(w.strayDown, k), c.takenDown, Position(w.readDown, k));
    assert StrayDownOk(w.s, k, m);
    StrayUnknown(a, w, k, m);
    hide WireInv, Typed, ShortSystem;
    UnknownCrashes(c, k, Decoded(Down(w.s, k), c.takenDown, m));
  }

  lemma StrayUnknown(a: Name, w: Wire, k: Socket, m: Body)
    requires a != NONE && WireInv(a, w) && k in w.s.conns && StrayDownOk(w.s, k, m)
    requires Typed(w.s)
    ensures m.to !in w.s.conns[k].ctrl.node.live && TypedConn(w.s.conns[k].ctrl, k)
  {
    hide Reachable, ShortSystem, ChannelsOk, Inv, WriterOk;
    ReachableHolds(a, w.s);
    EndFaces(w.s, m.to);
    LiveKnown(w.s.conns[k].ctrl);
    hide WellFormedController;
  }

  lemma LiveKnown(c: Controller)
    requires WellFormedController(c)
    ensures c.node.live <= c.node.ports.Keys
  {
  }

  lemma UnknownCrashes(c: Conn, k: Socket, down: seq<Body>)
    requires TypedConn(c.ctrl, k) && c.takenDown < |down| && down[c.takenDown].UserMessage?
    requires down[c.takenDown].to !in c.ctrl.node.live
    ensures HearAtInvitee(c, k, down).Crash?
  {
    hide WellFormedController;
  }

  lemma StrayUpCrashes(a: Name, w: Wire, k: Socket)
    requires a != NONE && WireInv(a, w) && Typed(w.s) && k in w.s.conns && w.s.io.AtRest? && k in w.s.inviter.remote
    requires StrayUpNext(w, k) && !HearAt(UpChannel(w, k), Position(w.readUp, k)).Silent?
    ensures HearUpStep(w, k).s == Crashed(w.s)
  {
    hide Reachable, ShortAll, ShortStrays, HearAt, Channel, ChannelOk, Stream, Up, StrayDownOk;
    var c, m := w.s.conns[k], StraysOf(w.strayUp, k)[0].message;
    assert ChannelsOk(w, k);
    SystemShort(w.s, k);
    StraysShort(w, k);
    NextHeard(Up(c, k), StraysOf(w.strayUp, k), c.takenUp, Position(w.readUp, k));
    assert StrayUpOk(c.track, m);
    MateUnknown(a, w, k, m);
    hide WireInv, Typed, ShortSystem, HearAtInviter;
    UnknownAtInviter(w.s, k, Decoded(Up(c, k), c.takenUp, m));
  }

  lemma MateUnknown(a: Name, w: Wire, k: Socket, m: Body)
    requires a != NONE && WireInv(a, w) && k in w.s.conns && StrayUpOk(w.s.conns[k].track, m) && Typed(w.s)
    ensures m.to !in w.s.inviter.node.live && WellFormedController(w.s.inviter)
  {
    hide Reachable, ShortSystem, ChannelsOk, Inv, WriterOk;
    ReachableHolds(a, w.s);
    TrackFaces(w.s, k, m.from);
    LiveKnown(w.s.inviter);
    hide WellFormedController, TypedConn;
  }

  lemma UnknownAtInviter(s: System, k: Socket, up: seq<Body>)
    requires WellFormedController(s.inviter) && k in s.conns && k in s.inviter.remote && s.conns[k].takenUp < |up|
    requires up[s.conns[k].takenUp].UserMessage? && up[s.conns[k].takenUp].to !in s.inviter.node.live
    ensures HearAtInviter(s, k, up) == Crashed(s)
  {
    hide WellFormedController;
  }

  // ------------------------------------------------------------------ the others are heard

  lemma ReadOn(others: seq<Body>, more: seq<Body>, strays: seq<Stray>, taken: nat, next: nat)
    requires others <= more && taken < |others| && Placed(strays, taken + 1, |others|)
    requires next == |Stream(others[..taken + 1])|
    ensures ChannelOk(more, strays, taken + 1, next)
  {
    assert more[..taken + 1] == others[..taken + 1];
  }

  lemma HeardDownOk(w: Wire, t: System, k: Socket, next: nat)
    requires k in w.s.conns && k in t.conns && ChannelsOk(w, k) && Later(w.s, t)
    requires ConnGrows(k, w.s.conns[k], t.conns[k], AtInvitee(k, Hear)) && OutGrows(w.s.inviter.out, t.inviter.out)
    requires w.s.conns[k].takenDown < |Down(w.s, k)| && next == |Stream(Down(w.s, k)[..w.s.conns[k].takenDown + 1])|
    requires Placed(StraysOf(w.strayDown, k), w.s.conns[k].takenDown + 1, |Down(w.s, k)|)
    ensures ChannelsOk(w.(s := t, readDown := w.readDown[k := next]), k)
  {
    hide ChannelOk, Onward, StrayUpOk, StrayDownOk, Later, Placed, Stream;
    DownGrows(w.s, t, k);
    var c, d := w.s.conns[k], t.conns[k];
    ChannelStays(Up(c, k), Up(d, k), StraysOf(w.strayUp, k), c.takenUp, Position(w.readUp, k));
    ReadOn(Down(w.s, k), Down(t, k), StraysOf(w.strayDown, k), c.takenDown, next);
    StraysStay(w, t, k);
    hide Down;
  }

  lemma HeardUpOk(w: Wire, t: System, k: Socket, next: nat)
    requires k in w.s.conns && k in t.conns && ChannelsOk(w, k) && Later(w.s, t)
    requires ConnGrows(k, w.s.conns[k], t.conns[k], HearInvitee(k)) && OutGrows(w.s.inviter.out, t.inviter.out)
    requires
      var c := w.s.conns[k];
      && c.takenUp < |Up(c, k)| && next == |Stream(Up(c, k)[..c.takenUp + 1])|
      && Placed(StraysOf(w.strayUp, k), c.takenUp + 1, |Up(c, k)|)
    ensures ChannelsOk(w.(s := t, readUp := w.readUp[k := next]), k)
  {
    hide ChannelOk, Onward, StrayUpOk, StrayDownOk, Later, Placed, Stream;
    DownGrows(w.s, t, k);
    var c, d := w.s.conns[k], t.conns[k];
    ReadOn(Up(c, k), Up(d, k), StraysOf(w.strayUp, k), c.takenUp, next);
    ChannelStays(Down(w.s, k), Down(t, k), StraysOf(w.strayDown, k), c.takenDown, Position(w.readDown, k));
    StraysStay(w, t, k);
    hide Down;
  }

  /** What a step that hears a message of connection `k` leaves, its channels apart. */
  lemma HearMoves(a: Name, w: Wire, step: Step)
    requires a != NONE && WireInv(a, w) && Typed(w.s) && Enabled(w.s, step) && Brief(step) && DrawsApart(w.s, step)
    ensures
      var t := Apply(w.s, step);
      && Reachable(a, t) && !t.crashed && Later(w.s, t) && Grows(w.s, t, step)
      && ShortSystem(t) && ProcessesApart(t) && forall i :: i in w.writers ==> WriterOk(t, w.writers[i])
  {
    hide Reachable, Inv, Typed, Enabled, Apply, Brief, DrawsApart, ShortSystem, ChannelsOk, WriterOk, Later, Grows;
    hide ProcessesApart;
    ReachableHolds(a, w.s);
    ReachableNext(a, w.s, step);
    ReachableHolds(a, Apply(w.s, step));
    NotCrashed(Apply(w.s, step));
    StepGrows(w.s, step);
    StepLater(w.s, step);
    ProcessesStayApart(w.s, Apply(w.s, step), step);
    StaysShort(w.s, Apply(w.s, step), step);
    AllWritersStay(w, Apply(w.s, step), step);
  }

  lemma OtherChannels(w: Wire, t: System, k: Socket, j: Socket, step: Step)
    requires j in w.s.conns && ChannelsOk(w, j) && Later(w.s, t) && Grows(w.s, t, step) && j != k
    requires step == HearInvitee(k) || step == AtInvitee(k, Hear)
    ensures j in t.conns && ChannelsOk(w.(s := t), j)
  {
    hide Later, OutGrows, ShortSystem, Brief, Untouched, ConnGrows, ChannelsOk;
    ChannelsStay(w, t, j, step);
  }

  lemma SameReading(v: Wire, u: Wire, k: Socket, j: Socket)
    requires j in v.s.conns && ChannelsOk(v, j) && u.s == v.s && u.strayUp == v.strayUp && u.strayDown == v.strayDown
    requires j != k && Position(u.readUp, j) == Position(v.readUp, j) && Position(u.readDown, j) == Position(v.readDown, j)
    ensures ChannelsOk(u, j)
  {
    hide ChannelOk, StrayUpOk, StrayDownOk;
  }

  lemma GrownConn(s: System, t: System, step: Step, k: Socket)
    requires Grows(s, t, step) && k in s.conns
    ensures k in t.conns && ConnGrows(k, s.conns[k], t.conns[k], step) && OutGrows(s.inviter.out, t.inviter.out)
  {
    hide OutGrows, ConnGrows, ShortSystem, Brief, Untouched;
  }

  lemma ConnsStay(s: System, t: System, step: Step)
    requires Grows(s, t, step) && !step.Connect?
    ensures t.conns.Keys == s.conns.Keys
  {
    hide OutGrows, ConnGrows, ShortSystem, Brief, Untouched;
  }

  lemma SameDecoded(messages: seq<Body>, taken: nat)
    requires taken < |messages|
    ensures Decoded(messages, taken, messages[taken]) == messages
  {
  }

  lemma HearDownNext(a: Name, w: Wire, k: Socket)
    requires WireInv(a, w) && k in w.s.conns && !StrayDownNext(w, k)
    requires !HearAt(DownChannel(w, k), Position(w.readDown, k)).Silent?
    ensures
      var down, taken := Down(w.s, k), w.s.conns[k].takenDown;
      && taken < |down| && Placed(StraysOf(w.strayDown, k), taken + 1, |down|)
      && HearAt(DownChannel(w, k), Position(w.readDown, k)) == Streams.Message(down[taken], |Stream(down[..taken + 1])|)
  {
    hide Reachable, ShortAll, ShortStrays, HearAt, Channel, Stream, Down, StrayUpOk, StrayDownOk;
    assert ChannelsOk(w, k);
    hide ChannelOk, Placed;
    SystemShort(w.s, k);
    StraysShort(w, k);
    NextHeard(Down(w.s, k), StraysOf(w.strayDown, k), w.s.conns[k].takenDown, Position(w.readDown, k));
  }

  lemma HearUpNext(a: Name, w: Wire, k: Socket)
    requires WireInv(a, w) && k in w.s.conns && !StrayUpNext(w, k)
    requires !HearAt(UpChannel(w, k), Position(w.readUp, k)).Silent?
    ensures
      var up, taken := Up(w.s.conns[k], k), w.s.conns[k].takenUp;
      && taken < |up| && Placed(StraysOf(w.strayUp, k), taken + 1, |up|)
      && HearAt(UpChannel(w, k), Position(w.readUp, k)) == Streams.Message(up[taken], |Stream(up[..taken + 1])|)
  {
    hide Reachable, ShortAll, ShortStrays, HearAt, Channel, Stream, Up, StrayUpOk, StrayDownOk;
    assert ChannelsOk(w, k);
    hide ChannelOk, Placed;
    SystemShort(w.s, k);
    StraysShort(w, k);
    NextHeard(Up(w.s.conns[k], k), StraysOf(w.strayUp, k), w.s.conns[k].takenUp, Position(w.readUp, k));
  }

  /** Hearing the next of the others is the step of the message machine. */
  lemma HearDownIs(w: Wire, k: Socket, next: nat)
    requires Typed(w.s) && !w.s.crashed && k in w.s.conns && w.s.conns[k].io.Resting?
    requires w.s.conns[k].takenDown < |Down(w.s, k)|
    requires HearAt(DownChannel(w, k), Position(w.readDown, k))
          == Streams.Message(Down(w.s, k)[w.s.conns[k].takenDown], next)
    ensures Enabled(w.s, AtInvitee(k, Hear))
    ensures HearDownStep(w, k) == w.(s := Apply(w.s, AtInvitee(k, Hear)), readDown := w.readDown[k := next])
  {
    hide HearAt, DownChannel, Down, HearAtInvitee, WellFormedController, Position;
    SameDecoded(Down(w.s, k), w.s.conns[k].takenDown);
    hide Decoded;
  }

  lemma HearUpIs(w: Wire, k: Socket, next: nat)
    requires Typed(w.s) && !w.s.crashed && k in w.s.conns && w.s.io.AtRest? && k in w.s.inviter.remote
    requires w.s.conns[k].takenUp < |Up(w.s.conns[k], k)|
    requires HearAt(UpChannel(w, k), Position(w.readUp, k))
          == Streams.Message(Up(w.s.conns[k], k)[w.s.conns[k].takenUp], next)
    ensures Enabled(w.s, HearInvitee(k))
    ensures HearUpStep(w, k) == w.(s := Apply(w.s, HearInvitee(k)), readUp := w.readUp[k := next])
  {
    hide HearAt, UpChannel, Up, HearAtInviter, Position, TypedConn;
    ChannelKeys(w.s.inviter);
    hide WellFormedController;
    SameDecoded(Up(w.s.conns[k], k), w.s.conns[k].takenUp);
    hide Decoded;
  }

  lemma HearDownKeeps(a: Name, w: Wire, k: Socket)
    requires a != NONE && WireInv(a, w) && Typed(w.s) && !w.s.crashed && k in w.s.conns && w.s.conns[k].io.Resting?
    requires !HearAt(DownChannel(w, k), Position(w.readDown, k)).Silent? && !StrayDownNext(w, k)
    ensures
      && WireInv(a, HearDownStep(w, k)) && !HearDownStep(w, k).s.crashed
      && Enabled(w.s, AtInvitee(k, Hear)) && HearDownStep(w, k).s == Apply(w.s, AtInvitee(k, Hear))
  {
    hide Reachable, Inv, Typed, Enabled, Apply, ShortSystem, ProcessesApart, ChannelsOk, WriterOk, Later, Grows;
    hide HearDownStep, Placed, Stream, Down, StrayDownNext, HearAt;
    HearDownNext(a, w, k);
    var step, next := AtInvitee(k, Hear), |Stream(Down(w.s, k)[..w.s.conns[k].takenDown + 1])|;
    HearDownIs(w, k, next);
    HearMoves(a, w, step);
    var t := Apply(w.s, step);
    ConnsStay(w.s, t, step);
    var v := HearDownStep(w, k);
    hide Position, DownChannel;
    forall j | j in v.s.conns
      ensures ChannelsOk(v, j)
    {
      HeardDownChannels(w, t, k, j, next);
    }
  }

  lemma HeardDownChannels(w: Wire, t: System, k: Socket, j: Socket, next: nat)
    requires k in w.s.conns && j in w.s.conns && ChannelsOk(w, k) && ChannelsOk(w, j) && Later(w.s, t)
    requires Grows(w.s, t, AtInvitee(k, Hear)) && t.conns.Keys == w.s.conns.Keys
    requires w.s.conns[k].takenDown < |Down(w.s, k)| && next == |Stream(Down(w.s, k)[..w.s.conns[k].takenDown + 1])|
    requires Placed(StraysOf(w.strayDown, k), w.s.conns[k].takenDown + 1, |Down(w.s, k)|)
    ensures ChannelsOk(w.(s := t, readDown := w.readDown[k := next]), j)
  {
    hide ChannelsOk, Later, Grows, Placed, Stream, Down;
    var step, v := AtInvitee(k, Hear), w.(s := t, readDown := w.readDown[k := next]);
    if j == k {
      GrownConn(w.s, t, step, k);
      HeardDownOk(w, t, k, next);
    } else {
      OtherChannels(w, t, k, j, step);
      SameReading(w.(s := t), v, k, j);
    }
  }

  lemma HearUpKeeps(a: Name, w: Wire, k: Socket)
    requires a != NONE && WireInv(a, w) && Typed(w.s) && !w.s.crashed && k in w.s.conns && w.s.io.AtRest?
    requires k in w.s.inviter.remote
    requires !HearAt(UpChannel(w, k), Position(w.readUp, k)).Silent? && !StrayUpNext(w, k)
    ensures
      && WireInv(a, HearUpStep(w, k)) && !HearUpStep(w, k).s.crashed
      && Enabled(w.s, HearInvitee(k)) && HearUpStep(w, k).s == Apply(w.s, HearInvitee(k))
  {
    hide Reachable, Inv, Typed, Enabled, Apply, ShortSystem, ProcessesApart, ChannelsOk, WriterOk, Later, Grows;
    hide HearUpStep, Placed, Stream, Up, StrayUpNext, HearAt;
    HearUpNext(a, w, k);
    var step, next := HearInvitee(k), |Stream(Up(w.s.conns[k], k)[..w.s.conns[k].takenUp + 1])|;
    HearUpIs(w, k, next);
    HearMoves(a, w, step);
    var t := Apply(w.s, step);
    ConnsStay(w.s, t, step);
    var v := HearUpStep(w, k);
    hide Position, UpChannel;
    forall j | j in v.s.conns
      ensures ChannelsOk(v, j)
    {
      HeardUpChannels(w, t, k, j, next);
    }
  }

  lemma HeardUpChannels(w: Wire, t: System, k: Socket, j: Socket, next: nat)
    requires k in w.s.conns && j in w.s.conns && ChannelsOk(w, k) && ChannelsOk(w, j) && Later(w.s, t)
    requires Grows(w.s, t, HearInvitee(k)) && t.conns.Keys == w.s.conns.Keys
    requires
      var c := w.s.conns[k];
      && c.takenUp < |Up(c, k)| && next == |Stream(Up(c, k)[..c.takenUp + 1])|
      && Placed(StraysOf(w.strayUp, k), c.takenUp + 1, |Up(c, k)|)
    ensures ChannelsOk(w.(s := t, readUp := w.readUp[k := next]), j)
  {
    hide ChannelsOk, Later, Grows, Placed, Stream, Up;
    var step, v := HearInvitee(k), w.(s := t, readUp := w.readUp[k := next]);
    if j == k {
      GrownConn(w.s, t, step, k);
      HeardUpOk(w, t, k, next);
    } else {
      OtherChannels(w, t, k, j, step);
      SameReading(w.(s := t), v, k, j);
    }
  }
}
