// The steps of the handshake put together: a thread that is not interrupted does what the controller's
// function does as a whole.

module HandshakeWhole {
  import opened Bytes
  import opened Names
  import opened Bodies
  import opened PortTable
  import opened Controllers
  import opened Handshake
  import opened HandshakeHear
  import opened ControllerLaws
  import CoreSpec

  // ------------------------------------------------------------------ an invitee extracts a pipe

  function ExtractWhole(c: Conn, pipe: Text, p0: Name, p1: Name): Conn
    requires FreshPorts(c.ctrl.node, p0, p1)
  {
    FindInviter(ReadInviterName(LockPending(ExtractPipe(c, pipe, p0, p1), p0), p0), p0)
  }

  /** The four lock scopes and the request after them make up MergePortIntoInviter. */
  lemma AloneExtracts(c: Conn, pipe: Text, p0: Name, p1: Name)
    requires WellFormedController(c.ctrl) && FreshPorts(c.ctrl.node, p0, p1)
    ensures
      var d := ExtractWhole(c, pipe, p0, p1);
      WellFormedController(WithPair(c.ctrl, p0, p1)) &&
      var whole := MergePortIntoInviter(WithPair(c.ctrl, p0, p1), Merge(pipe, p0));
      if p0 in d.callers
      then d.callers[p0].Sending? && d.callers[p0].socket in d.ctrl.out && SendRequest(d, p0).ctrl == whole
      else d.ctrl == whole
  {
    CoreSpec.WithPairKeeps(c.ctrl, p0, p1);
    hide WithPair;
  }

  // ------------------------------------------------------------------ an invitee hears AcceptInvitee

  function SendRest(c: Conn): Conn
    requires WellFormedController(c.ctrl) && c.ctrl.inviterChannel.Some? && c.io.ToSend?
    decreases |c.io.messages|
  {
    if c.io.messages == [] then SendStep(c) else SendRest(SendStep(c))
  }

  lemma {:induction false} RestSent(c: Conn)
    requires WellFormedController(c.ctrl) && c.ctrl.inviterChannel.Some? && c.io.ToSend?
    ensures SendRest(c).ctrl == SendAll(c.ctrl, c.ctrl.inviterChannel.value, c.io.messages)
    ensures SendRest(c).io == ToSwap
    decreases |c.io.messages|
  {
    hide WellFormedController;
    var s := c.ctrl.inviterChannel.value;
    InviterChannelKnown(c.ctrl);
    if c.io.messages == [] {
      SendNone(c.ctrl, s);
    } else {
      SendOneMore(c.ctrl, s, c.io.messages);
      RestSent(SendStep(c));
    }
  }

  lemma InviterChannelKnown(ctrl: Controller)
    requires WellFormedController(ctrl)
    ensures ctrl.inviterChannel.Some? ==> ctrl.inviterChannel.value in ctrl.out
    ensures GetInviterChannel(ctrl).Some? ==> GetInviterChannel(ctrl).value in ctrl.out
  {
  }

  function DrainRest(c: Conn): Outcome<Conn>
    requires WellFormedController(c.ctrl) && c.io.ToDrain?
    decreases |c.io.merges|
  {
    var r := DrainStep(c);
    if c.io.merges == [] || r.Crash? then r else DrainRest(r.value)
  }

  lemma {:induction false} RestDrained(c: Conn)
    requires WellFormedController(c.ctrl) && c.io.ToDrain?
    ensures
      var inviter := GetInviterChannel(c.ctrl);
      && (inviter.Some? ==> inviter.value in c.ctrl.out)
      && (DrainRest(c).Crash? <==> c.io.merges != [] && inviter.None?)
      && (c.io.merges == [] ==> DrainRest(c).Done? && DrainRest(c).value.ctrl == c.ctrl)
      && (inviter.Some? ==>
            DrainRest(c).Done? && DrainRest(c).value.ctrl == SendAll(c.ctrl, inviter.value, RequestBodies(c.io.merges)))
    decreases |c.io.merges|
  {
    hide WellFormedController;
    InviterChannelKnown(c.ctrl);
    var inviter := GetInviterChannel(c.ctrl);
    if c.io.merges == [] {
      if inviter.Some? {
        SendNone(c.ctrl, inviter.value);
        assert RequestBodies([]) == [];
      }
    } else if inviter.Some? {
      var bodies := RequestBodies(c.io.merges);
      assert bodies[1..] == RequestBodies(c.io.merges[1..]);
      SendOneMore(c.ctrl, inviter.value, bodies);
      RestDrained(DrainStep(c).value);
    }
  }

  /** Hearing AcceptInvitee, answering, joining, sending, swapping and draining make up OnAcceptInvitee. */
  lemma AloneAnswers(c: Conn, k: Socket, down: seq<Body>)
    requires TypedConn(c.ctrl, k) && c.io.Resting? && c.takenDown < |down| && down[c.takenDown].AcceptInvitee?
    ensures
      var m := down[c.takenDown];
      var heard := HearAtInvitee(c, k, down);
      && heard.Done? && heard.value.io.ToAnswer?
      && var joined := JoinStep(AnswerStep(heard.value));
      && WellFormedController(joined.ctrl) && joined.ctrl.inviterChannel.Some? && joined.io.ToSend?
      && var swapped := SwapStep(SendRest(joined));
      && WellFormedController(swapped.ctrl)
      && var whole := OnAcceptInvitee(c.ctrl, m.inviter, m.token);
      if DrainRest(swapped).Crash? then whole.Crash? else whole == Done(DrainRest(swapped).value.ctrl)
  {
    hide WellFormedController, SendRest, DrainRest, SetRemote, AnswerInviter, Controllers.InsertPeer;
    var m := down[c.takenDown];
    var answered := AnswerStep(HearAtInvitee(c, k, down).value);
    InviterChannelKnown(answered.ctrl);
    var joined := JoinStep(answered);
    JoinTyped(answered);
    RestSent(joined);
    var sent := SendRest(joined);
    SwapTyped(sent.ctrl);
    RestDrained(SwapStep(sent));
  }

  lemma JoinTyped(c: Conn)
    requires WellFormedController(c.ctrl) && c.ctrl.inviterChannel.Some? && c.io.ToJoin?
    ensures WellFormedController(JoinStep(c).ctrl) && JoinStep(c).ctrl.inviterChannel == c.ctrl.inviterChannel
  {
    hide WellFormedController;
    InviterChannelKnown(c.ctrl);
  }

  lemma SwapTyped(ctrl: Controller)
    requires WellFormedController(ctrl)
    ensures WellFormedController(SwapPending(ctrl).0)
  {
  }

  // ------------------------------------------------------------------ the inviter merges a port

  /** The state after a request was heard for a port that is reserved. */
  function TakenWhole(s: System, k: Socket, m: Body, inviter: Controller, port: Name): System
    requires k in s.conns && m.RequestPortMerge? && k in s.inviter.remote
  {
    var c, local := s.conns[k], if port in s.ends then s.ends[port] else NONE;
    s.(inviter := inviter,
       conns := s.conns[k := c.(takenUp := c.takenUp + 1, track := Mark(c.track, m.connector, Taken(port, local)))],
       io := ToMerge(k, s.inviter.remote[k], m.connector, port), holder := s.holder[port := Merging(k, m.connector)])
  }

  lemma HeardTaken(s: System, k: Socket, up: seq<Body>)
    requires WellFormedController(s.inviter) && k in s.conns && s.conns[k].takenUp < |up| && k in s.inviter.remote
    requires up[s.conns[k].takenUp].RequestPortMerge?
    requires TakeReserved(s.inviter, s.inviter.remote[k], up[s.conns[k].takenUp].pipe).1.Some?
    ensures
      var m := up[s.conns[k].takenUp];
      var (c, port) := TakeReserved(s.inviter, s.inviter.remote[k], m.pipe);
      HearAtInviter(s, k, up) == TakenWhole(s, k, m, c, port.value)
  {
    hide WellFormedController, TakeReserved, Mark;
  }

  lemma HeardRequest(s: System, k: Socket, up: seq<Body>)
    requires WellFormedController(s.inviter) && k in s.conns && s.conns[k].takenUp < |up| && k in s.inviter.remote
    requires up[s.conns[k].takenUp].RequestPortMerge? && s.io.AtRest?
    ensures
      var m, from := up[s.conns[k].takenUp], s.inviter.remote[k];
      var (c, port) := TakeReserved(s.inviter, from, m.pipe);
      var heard := HearAtInviter(s, k, up);
      && heard.inviter == c && k in heard.conns
      && heard.io == if port.None? then AtRest else ToMerge(k, from, m.connector, port.value)
  {
    var m := up[s.conns[k].takenUp];
    var (c, port) := TakeReserved(s.inviter, s.inviter.remote[k], m.pipe);
    NothingTaken(s.inviter, s.inviter.remote[k], m.pipe);
    hide WellFormedController, TakeReserved, Mark, HearAtInviter;
    if port.None? {
      RefusedShape(s, k, up);
    } else {
      HeardTaken(s, k, up);
    }
  }

  lemma NothingTaken(c: Controller, from: Name, pipe: Text)
    ensures TakeReserved(c, from, pipe).1.None? ==> TakeReserved(c, from, pipe).0 == c
  {
  }

  lemma Merged(s: System)
    requires s.io.ToMerge? && s.io.k in s.conns && s.io.port in s.inviter.node.ports && WellFormedController(s.inviter)
    ensures
      var t := MergeStep(s);
      && t.inviter == MergeAt(s.inviter, s.io.port, s.io.from, s.io.connector) && s.io.k in t.conns
      && t.io == ToRespond(s.io.k, s.io.from, s.io.connector, BridgePeer(s.inviter.node, s.io.port))
  {
    hide WellFormedController, Splice, MergeAt, BridgePeer;
  }

  /** Taking the reserved port, splicing it and answering make up OnRequestPortMerge. */
  lemma AloneMerges(s: System, k: Socket, up: seq<Body>)
    requires WellFormedController(s.inviter) && k in s.conns && s.conns[k].takenUp < |up| && k in s.inviter.remote
    requires up[s.conns[k].takenUp].RequestPortMerge? && s.io.AtRest?
    ensures
      var m := up[s.conns[k].takenUp];
      var whole := OnRequestPortMerge(s.inviter, s.inviter.remote[k], m.connector, m.pipe);
      var taken := HearAtInviter(s, k, up);
      if taken.io.AtRest? then whole == Done(taken.inviter)
      else
        && taken.io.ToMerge? && taken.io.k in taken.conns && taken.io.port in taken.inviter.node.ports
        && WellFormedController(taken.inviter)
        && var merged := MergeStep(taken);
        && merged.io.ToRespond? && merged.io.k in merged.conns && WellFormedController(merged.inviter)
        && var answered := RespondStep(merged);
        if whole.Crash? then answered == Crashed(merged) else whole == Done(answered.inviter)
  {
    var m := up[s.conns[k].takenUp];
    TakenTyped(s.inviter, s.inviter.remote[k], m.pipe);
    HeardRequest(s, k, up);
    hide WellFormedController, MergeAt, BridgePeer, HearAtInviter, MergeStep, TakeReserved, Respond, AnswerTrack;
    var (c, port) := TakeReserved(s.inviter, s.inviter.remote[k], m.pipe);
    if port.Some? {
      MergedTyped(c, port.value, s.inviter.remote[k], m.connector);
      Merged(HearAtInviter(s, k, up));
    }
  }

  lemma TakenTyped(c: Controller, from: Name, pipe: Text)
    requires WellFormedController(c)
    ensures WellFormedController(TakeReserved(c, from, pipe).0)
    ensures
      var port := TakeReserved(c, from, pipe).1;
      port.Some? ==> port.value in TakeReserved(c, from, pipe).0.node.ports
  {
  }

  lemma MergedTyped(c: Controller, port: Name, from: Name, connector: Name)
    requires WellFormedController(c) && port in c.node.ports
    ensures WellFormedController(MergeAt(c, port, from, connector))
  {
    CoreSpec.PairWellFormed(c, PortTable.MergePorts(c.node, port, from, connector).1);
  }

  // ------------------------------------------------------------------ the inviter admits an invitee

  function FlushRest(s: System): System
    requires s.io.ToFlush? && s.io.k in s.inviter.out
    decreases |s.io.messages|
  {
    if s.io.messages == [] then FlushStep(s) else FlushRest(FlushStep(s))
  }

  lemma {:induction false} RestFlushed(s: System)
    requires s.io.ToFlush? && s.io.k in s.inviter.out
    ensures FlushRest(s).inviter == SendAll(s.inviter, s.io.k, s.io.messages) && FlushRest(s).io.AtRest?
    decreases |s.io.messages|
  {
    OneFlushed(s);
    hide FlushStep;
    if s.io.messages == [] {
      SendNone(s.inviter, s.io.k);
    } else {
      SendOneMore(s.inviter, s.io.k, s.io.messages);
      RestFlushed(FlushStep(s));
    }
  }

  lemma OneFlushed(s: System)
    requires s.io.ToFlush? && s.io.k in s.inviter.out
    ensures
      var t := FlushStep(s);
      if s.io.messages == [] then t.io.AtRest? && t.inviter == s.inviter
      else
        && t.io == ToFlush(s.io.k, s.io.messages[1..]) && s.io.k in t.inviter.out
        && t.inviter == Send(s.inviter, s.io.k, s.io.messages[0])
  {
  }

  lemma HeardAcceptance(s: System, k: Socket, up: seq<Body>)
    requires WellFormedController(s.inviter) && k in s.conns && s.conns[k].takenUp < |up| && k in s.inviter.remote
    requires up[s.conns[k].takenUp].AcceptInvitation?
    requires s.inviter.remote[k] in s.inviter.pendingInvitations && up[s.conns[k].takenUp].token == s.inviter.remote[k]
    ensures
      var m, from := up[s.conns[k].takenUp], s.inviter.remote[k];
      var heard := HearAtInviter(s, k, up);
      k in heard.conns && heard.inviter == s.inviter && heard.io == ToRekey(k, from, m.invitee)
  {
    hide WellFormedController;
  }

  lemma HeardUnexpected(s: System, k: Socket, up: seq<Body>)
    requires WellFormedController(s.inviter) && k in s.conns && s.conns[k].takenUp < |up| && k in s.inviter.remote
    requires up[s.conns[k].takenUp].AcceptInvitation?
    requires s.inviter.remote[k] !in s.inviter.pendingInvitations || up[s.conns[k].takenUp].token != s.inviter.remote[k]
    ensures HearAtInviter(s, k, up).inviter == DropPeer(s.inviter, s.inviter.remote[k])
  {
    hide WellFormedController, DropPeer;
  }

  lemma AdmitsAndFlushes(s: System)
    requires s.io.ToAdmit? && s.io.k in s.conns && WellFormedController(s.inviter)
    requires Lookup(s.inviter.pendingInvitations, s.io.from) == Some(s.io.k)
    ensures
      var admitted := AdmitStep(s);
      && admitted.io.ToFlush? && admitted.io.k in admitted.inviter.out
      && FlushRest(admitted).inviter == Admit(s.inviter, s.io.from, s.io.invitee)
  {
    hide FlushRest;
    assert s.io.k in s.inviter.out;
    hide WellFormedController, Controllers.InsertPeer, SetRemote;
    RestFlushed(AdmitStep(s));
  }

  /** Hearing AcceptInvitation, moving the reserved ports under the invitee's name, admitting it and
      flushing what waited make up OnAcceptInvitation. */
  lemma AloneAdmits(s: System, k: Socket, up: seq<Body>)
    requires WellFormedController(s.inviter) && k in s.conns && s.conns[k].takenUp < |up| && k in s.inviter.remote
    requires up[s.conns[k].takenUp].AcceptInvitation?
    requires Lookup(s.inviter.pendingInvitations, s.inviter.remote[k]) == Some(k)
    ensures
      var m, from := up[s.conns[k].takenUp], s.inviter.remote[k];
      var whole := OnAcceptInvitation(s.inviter, from, m.token, m.invitee);
      var heard := HearAtInviter(s, k, up);
      if m.token != from then heard.inviter == whole
      else
        && heard.io.ToRekey? && heard.io.k in heard.conns
        && var rekeyed := RekeyStep(heard);
        && rekeyed.io.ToAdmit? && rekeyed.io.k in rekeyed.conns && WellFormedController(rekeyed.inviter)
        && rekeyed.io.from in rekeyed.inviter.pendingInvitations
        && var admitted := AdmitStep(rekeyed);
        && admitted.io.ToFlush? && admitted.io.k in admitted.inviter.out
        && FlushRest(admitted).inviter == whole
  {
    var m, from := up[s.conns[k].takenUp], s.inviter.remote[k];
    RekeyTyped(s.inviter, from, m.invitee);
    hide WellFormedController, HearAtInviter, AdmitStep, FlushRest, Admit, DropPeer, Rekey;
    if m.token != from {
      HeardUnexpected(s, k, up);
    } else {
      HeardAcceptance(s, k, up);
      var heard := HearAtInviter(s, k, up);
      Rekeyed(heard);
      hide RekeyStep;
      AdmitsAndFlushes(RekeyStep(heard));
    }
  }

  lemma Rekeyed(s: System)
    requires s.io.ToRekey? && s.io.k in s.conns
    ensures
      var t := RekeyStep(s);
      && t.inviter == Rekey(s.inviter, s.io.from, s.io.invitee) && s.io.k in t.conns
      && t.io == ToAdmit(s.io.k, s.io.from, s.io.invitee)
  {
    hide Rekey;
  }

  // ------------------------------------------------------------------ the inviter sends an invitation

  /** Listing the ports and launching the channel make up SendInvitation. */
  lemma AloneInvites(s: System, k: Socket)
    requires k in s.conns && s.conns[k].stage.Holding?
    ensures
      var stage := s.conns[k].stage;
      var listed := ListPorts(s, k);
      && k in listed.conns && listed.conns[k].stage.Listed?
      && InviteStep(listed, k).inviter == Controllers.SendInvitation(s.inviter, stage.temp, k, stage.attached)
  {
    hide Reserve, Invite;
  }
}
