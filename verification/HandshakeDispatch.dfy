// From a frame that comes in to the steps of the handshake: the message in it reaches the handler of its
// kind, with its names where the handler expects them.

module HandshakeDispatch {
  import opened Bytes
  import opened Names
  import opened Bodies
  import opened SkippedPrefix
  import opened PortTable
  import opened Controllers
  import opened ControllerLaws
  import opened Handshake
  import opened HandshakeWhole
  import opened Frames
  import opened Transport
  import opened Streams
  import opened NodeControllers

  /** A short message goes to its handler, a longer one ends the process. */
  lemma DispatchExactly(c: Controller, k: Socket, m: Body)
    requires WellFormedController(c) && k in c.remote && |EncodeBody(m)| < 0x1_0000
    ensures OnFrame(c, k, FrameOf(m)) == if |EncodeBody(m)| < 0x80 then OnChannelMessage(c, k, m) else Crash
  {
    hide EncodeBody, Deserialize, FromFrame, FrameOf, OnChannelMessage, WellFormedController;
    Dispatched(m);
    if |EncodeBody(m)| < 0x80 {
      DeserializeExactly(m, KindOf(m));
    } else {
      LongFails(m);
    }
  }

  /** And so does a frame of no known kind. */
  lemma UnknownKind(c: Controller, k: Socket, f: Frame)
    requires WellFormedController(c) && k in c.remote && !(1 <= f.kind <= 5)
    ensures OnFrame(c, k, f) == Crash
  {
    hide WellFormedController;
  }

  lemma TwoNamesFit(m: Body)
    requires TwoNames(KindOf(m))
    ensures |EncodeBody(m)| < 0x80
  {
    ShortBodies(m);
  }

  lemma TypedIs(ctrl: Controller, k: Socket)
    requires TypedConn(ctrl, k)
    ensures WellFormedController(ctrl) && k in ctrl.remote
  {
    hide WellFormedController;
  }

  /** The frame of AcceptInvitee, at an invitee: hearing it, answering, joining, sending what waited,
      taking the requests put off over and sending them. */
  lemma FrameAnswers(c: Conn, k: Socket, down: seq<Body>)
    requires TypedConn(c.ctrl, k) && c.io.Resting? && c.takenDown < |down| && down[c.takenDown].AcceptInvitee?
    ensures WellFormedController(c.ctrl) && k in c.ctrl.remote
    ensures
      var m := down[c.takenDown];
      var heard := HearAtInvitee(c, k, down);
      && heard.Done? && heard.value.io.ToAnswer? && heard.value.io.inviter == m.inviter && heard.value.io.token == m.token
      && var joined := JoinStep(AnswerStep(heard.value));
      && WellFormedController(joined.ctrl) && joined.ctrl.inviterChannel.Some? && joined.io.ToSend?
      && var swapped := SwapStep(SendRest(joined));
      && WellFormedController(swapped.ctrl)
      && var whole := OnFrame(c.ctrl, k, FrameOf(m));
      if DrainRest(swapped).Crash? then whole.Crash? else whole == Done(DrainRest(swapped).value.ctrl)
  {
    var m := down[c.takenDown];
    TypedIs(c.ctrl, k);
    AloneAnswers(c, k, down);
    TwoNamesFit(m);
    DispatchExactly(c.ctrl, k, m);
    hide WellFormedController, SendRest, DrainRest, JoinStep, AnswerStep, SwapStep, OnAcceptInvitee, OnFrame, EncodeBody;
    hide FrameOf;
  }

  /** The frame of RequestPortMerge, at the inviter: taking the reserved port, splicing it and answering. A
      request for a pipe with too long a name ends the process. */
  lemma FrameMerges(s: System, k: Socket, up: seq<Body>)
    requires WellFormedController(s.inviter) && k in s.conns && s.conns[k].takenUp < |up| && k in s.inviter.remote
    requires up[s.conns[k].takenUp].RequestPortMerge? && s.io.AtRest?
    requires |EncodeBody(up[s.conns[k].takenUp])| < 0x1_0000
    ensures
      var m := up[s.conns[k].takenUp];
      var whole := OnFrame(s.inviter, k, FrameOf(m));
      var taken := HearAtInviter(s, k, up);
      if |m.pipe| > 103 then whole.Crash?
      else if taken.io.AtRest? then whole == Done(taken.inviter)
      else
        && taken.io.ToMerge? && taken.io.k in taken.conns && taken.io.port in taken.inviter.node.ports
        && taken.io.connector == m.connector
        && WellFormedController(taken.inviter)
        && var merged := MergeStep(taken);
        && merged.io.ToRespond? && merged.io.k in merged.conns && WellFormedController(merged.inviter)
        && var answered := RespondStep(merged);
        if whole.Crash? then answered == Crashed(merged) else whole == Done(answered.inviter)
  {
    var m := up[s.conns[k].takenUp];
    ShortBodies(m);
    DispatchExactly(s.inviter, k, m);
    AloneMerges(s, k, up);
    HeardRequest(s, k, up);
    hide WellFormedController, HearAtInviter, MergeStep, RespondStep, OnRequestPortMerge, OnFrame, EncodeBody, FrameOf;
    hide TakeReserved;
  }

  /** The frame of AcceptInvitation, at the inviter: moving the reserved ports, admitting the invitee and
      sending what waited for it, if the token is right. */
  lemma FrameAdmits(s: System, k: Socket, up: seq<Body>)
    requires WellFormedController(s.inviter) && k in s.conns && s.conns[k].takenUp < |up| && k in s.inviter.remote
    requires up[s.conns[k].takenUp].AcceptInvitation?
    requires Lookup(s.inviter.pendingInvitations, s.inviter.remote[k]) == Some(k)
    ensures
      var m, from := up[s.conns[k].takenUp], s.inviter.remote[k];
      var whole := OnFrame(s.inviter, k, FrameOf(m));
      var heard := HearAtInviter(s, k, up);
      if m.token != from then whole == Done(heard.inviter)
      else
        && heard.io == ToRekey(k, from, m.invitee) && k in heard.conns
        && var rekeyed := RekeyStep(heard);
        && rekeyed.io.ToAdmit? && rekeyed.io.k in rekeyed.conns && WellFormedController(rekeyed.inviter)
        && rekeyed.io.from in rekeyed.inviter.pendingInvitations
        && var admitted := AdmitStep(rekeyed);
        && admitted.io.ToFlush? && admitted.io.k in admitted.inviter.out
        && whole == Done(FlushRest(admitted).inviter)
  {
    var m := up[s.conns[k].takenUp];
    TwoNamesFit(m);
    DispatchExactly(s.inviter, k, m);
    AloneAdmits(s, k, up);
    if m.token == s.inviter.remote[k] {
      HeardAcceptance(s, k, up);
    }
    hide WellFormedController, HearAtInviter, RekeyStep, AdmitStep, FlushRest, OnAcceptInvitation, OnFrame, EncodeBody;
    hide FrameOf;
  }

  /** The frames that concern a port alone: the response splices the port it is for, and a user message is
      queued at the port it is for. */
  lemma FramesAtPorts(c: Controller, k: Socket, connector: Name, port: Name, m: Body)
    requires WellFormedController(c) && k in c.remote && m.UserMessage? && |EncodeBody(m)| < 0x1_0000
    ensures WellFormed(c.node)
    ensures
      var r := OnFrame(c, k, FrameOf(ResponsePortMerge(connector, port)));
      var s := MergePortsResponse(c.node, connector, c.remote[k], port);
      if s.Crash? then r.Crash? else r == Done(c.(node := s.value.1))
    ensures
      var r, s := OnFrame(c, k, FrameOf(m)), Accept(c.node, m.to, m);
      if s.Crash? || |m.data| > 91 then r.Crash? else r == Done(c.(node := s.value))
  {
    ShortBodies(m);
    TwoNamesFit(ResponsePortMerge(connector, port));
    DispatchExactly(c, k, ResponsePortMerge(connector, port));
    DispatchExactly(c, k, m);
    PortMessagesLaw(c, c.remote[k], connector, port, m);
    hide WellFormedController, OnResponsePortMerge, OnUserMessage, OnFrame, EncodeBody, FrameOf, MergePortsResponse, Accept;
  }

  function FreshInvitee(k: Socket, b: Name): Controller {
    Controller(NewNode(b), NONE, Some(k), map[k := NONE], map[k := []], map[], map[], map[], [], map[])
  }

  function JoinedInvitee(k: Socket, b: Name, token: Name, inviter: Name): Controller {
    Controller(NewNode(b), inviter, Some(k), map[k := inviter], map[k := [AcceptInvitation(token, b)]],
               map[inviter := k], map[], map[], [], map[])
  }

  lemma FreshTyped(k: Socket, b: Name)
    ensures NewConn(k, b).ctrl == FreshInvitee(k, b) && WellFormedController(FreshInvitee(k, b))
  {
    assert map[][k := NONE] == map[k := NONE];
  }

  lemma JoinsFirst(k: Socket, b: Name, token: Name, inviter: Name)
    requires WellFormedController(FreshInvitee(k, b))
    ensures OnAcceptInvitee(FreshInvitee(k, b), inviter, token) == Done(JoinedInvitee(k, b, token, inviter))
  {
    hide OnAcceptInvitee, WellFormedController;
    var c, m := FreshInvitee(k, b), AcceptInvitation(token, b);
    AcceptInviteeLaw(c, inviter, token);
    OneSent(k, [], m);
    NoneSent(k, [m]);
    assert RequestBodies([]) == [] && [] + [m] == [m] && WaitingFor(c, inviter) == [];
    assert map[k := NONE][k := inviter] == map[k := inviter] && map[][inviter := k] == map[inviter := k];
    assert c.waiting - {inviter} == c.waiting;
    hide Longer;
  }

  lemma OneSent(k: Socket, sent: seq<Body>, m: Body)
    ensures Longer(map[k := sent], k, [m]) == map[k := sent + [m]]
  {
  }

  lemma NoneSent(k: Socket, sent: seq<Body>)
    ensures Longer(map[k := sent], k, []) == map[k := sent]
  {
    assert sent + [] == sent;
  }

  /** The first frame of every handshake, at a fresh invitee: the sender is its inviter and only peer, and
      it has answered with the token and its own name. */
  lemma FirstFrame(k: Socket, b: Name, token: Name, inviter: Name)
    ensures NewConn(k, b).ctrl == FreshInvitee(k, b) && WellFormedController(FreshInvitee(k, b))
    ensures OnFrame(FreshInvitee(k, b), k, FrameOf(AcceptInvitee(token, inviter)))
         == Done(JoinedInvitee(k, b, token, inviter))
  {
    var m := AcceptInvitee(token, inviter);
    TwoNamesFit(m);
    FreshTyped(k, b);
    JoinsFirst(k, b, token, inviter);
    hide OnAcceptInvitee, OnFrame, FrameOf, EncodeBody, WellFormedController;
    DispatchExactly(FreshInvitee(k, b), k, m);
  }
}
