// A run in which an invitee extracts a pipe that was attached to its invitation, up to the moment the
// inviter is about to splice the pair.

module HandshakeExample {
  import opened Bytes
  import opened Names
  import opened Bodies
  import opened PortTable
  import opened Controllers
  import opened Handshake
  import opened HandshakeInvariant
  import opened HandshakeInvitee
  import opened HandshakeTheorems
  import opened HandshakeForever
  import opened HandshakeConservation
  import opened HandshakeGrowth
  import opened HandshakeWire
  import opened WireInvariant
  import opened WireTheorems
  import opened WireRuns

  // The names of the two processes, the token of the invitation, the pair the inviter makes when it
  // attaches the pipe, and the pair the invitee makes when it extracts it.
  const A := Name(1, 0)
  const B := Name(2, 0)
  const TOKEN := Name(3, 0)
  const L := Name(4, 0)
  const R := Name(5, 0)
  const P := Name(6, 0)
  const Q := Name(7, 0)
  const PIPE: Text := [0x70]

  /** Reached by a run that can be made on the wire. */
  ghost predicate ReachedBy(steps: seq<Step>, s: System) {
    Run(A, steps) == Some(s) && BriefApart(A, steps)
  }

  lemma AtTyped(steps: seq<Step>, s: System)
    requires ReachedBy(steps, s)
    ensures Typed(s) && Inv(s)
  {
    hide Typed, Inv;
    RunHolds(A, steps);
    InvTypedSystem(s);
  }

  lemma InvTypedSystem(s: System)
    requires Inv(s)
    ensures Typed(s)
  {
    hide Typed, InviterFacts, NamesApart, KeysUsed, InviterPorts, Reservations, InviterTallies, Connections;
  }

  lemma StepTo(steps: seq<Step>, s: System, step: Step) returns (more: seq<Step>, t: System)
    requires ReachedBy(steps, s) && Typed(s) && Enabled(s, step) && Brief(step) && DrawsUnused(s, step)
    ensures ReachedBy(more, t) && t == Apply(s, step) && Typed(t)
  {
    hide Typed, Enabled, Apply, Brief, DrawsUnused, Inv;
    more, t := steps + [step], Apply(s, step);
    assert more[..|more| - 1] == steps && more[|more| - 1] == step;
    assert Run(A, more) == LastStep(A, more);
    AtTyped(more, t);
  }

  /** What all later states have in common. */
  predicate Common(s: System) {
    && !s.crashed && s.io.AtRest? && s.ends == map[R := L]
    && s.inviter.node.name == A && s.inviter.node.ports.Keys == {L, R}
  }

  /** The pipe is attached. */
  predicate Prepared(s: System) {
    && Common(s) && s.used == {A, NONE, B} && s.conns == map[0 := NewConn(0, B)]
    && s.dispatchers == map[0 := map[PIPE := R]] && s.inviter == NewController(A).(node := s.inviter.node)
  }

  lemma ConnectAndOpen() returns (steps: seq<Step>, s: System)
    ensures ReachedBy(steps, s)
    ensures s == Init(A).(conns := map[0 := NewConn(0, B)], used := {A, NONE, B}, dispatchers := map[0 := map[]])
  {
    hide Typed, Inv, AttachPipe;
    steps, s := [], Init(A);
    AtTyped(steps, s);
    hide ReachedBy;
    steps, s := StepTo(steps, s, Connect(0, B));
    steps, s := StepTo(steps, s, Open(0));
  }

  lemma Prepare() returns (steps: seq<Step>, s: System)
    ensures ReachedBy(steps, s) && Prepared(s)
  {
    hide Typed, Inv, ReachedBy;
    steps, s := ConnectAndOpen();
    AtTyped(steps, s);
    steps, s := StepTo(steps, s, Attach(0, PIPE, L, R));
  }

  /** The ports are taken for the invitation. */
  predicate PortsTaken(s: System) {
    && Common(s) && s.inviter == NewController(A).(node := s.inviter.node)
    && s.conns == map[0 := NewConn(0, B).(stage := Holding(0, TOKEN, map[PIPE := R], true))]
  }

  lemma TakeAll(steps: seq<Step>, s: System) returns (more: seq<Step>, t: System)
    requires ReachedBy(steps, s) && Prepared(s)
    ensures ReachedBy(more, t) && PortsTaken(t)
  {
    hide ReachedBy, Typed, Inv;
    AtTyped(steps, s);
    more, t := StepTo(steps, s, Take(0, 0, TOKEN));
    more, t := StepTo(more, t, TakeOver(0));
  }

  /** The ports are reserved under the token. */
  predicate PortsListed(s: System) {
    && Common(s) && s.conns == map[0 := NewConn(0, B).(stage := Listed(TOKEN))]
    && s.inviter == NewController(A).(node := s.inviter.node, reserved := map[TOKEN := map[PIPE := R]])
  }

  lemma ListAll(steps: seq<Step>, s: System) returns (more: seq<Step>, t: System)
    requires ReachedBy(steps, s) && PortsTaken(s)
    ensures ReachedBy(more, t) && PortsListed(t)
  {
    hide ReachedBy, Typed, Inv;
    AtTyped(steps, s);
    assert EmplaceAll(map[], map[PIPE := R]) == map[PIPE := R];
    more, t := StepTo(steps, s, List(0));
  }

  /** The invitation is on its way. */
  predicate OnItsWay(s: System) {
    && Common(s) && s.conns == map[0 := NewConn(0, B).(stage := Invited(TOKEN))]
    && s.inviter.out == map[0 := [AcceptInvitee(TOKEN, A)]] && s.inviter.remote == map[0 := TOKEN]
    && s.inviter.reserved == map[TOKEN := map[PIPE := R]] && s.inviter.peers == map[] && s.inviter.waiting == map[]
    && s.inviter.pendingInvitations == map[TOKEN := 0]
  }

  lemma LaunchIt(steps: seq<Step>, s: System) returns (more: seq<Step>, t: System)
    requires ReachedBy(steps, s) && PortsListed(s)
    ensures ReachedBy(more, t) && OnItsWay(t)
  {
    hide ReachedBy, Typed, Inv;
    AtTyped(steps, s);
    more, t := StepTo(steps, s, Launch(0));
    assert [] + [AcceptInvitee(TOKEN, A)] == [AcceptInvitee(TOKEN, A)];
  }

  // ------------------------------------------------------------------ the invitee joins

  /** A step takes the invitee from `c` to `d`. */
  predicate Goes(c: Conn, down: seq<Body>, step: InviteeStep, d: Conn) {
    && TypedConn(c.ctrl, 0) && CanAtInvitee(c, 0, down, step) && DoAtInvitee(c, 0, down, step) == Done(d)
    && Brief(AtInvitee(0, step))
  }

  /** It leaves everything else as it is. */
  lemma InviteeTo(s0: System, steps: seq<Step>, c: Conn, step: InviteeStep, d: Conn) returns (more: seq<Step>)
    requires ReachedBy(steps, WithConn(s0, 0, c)) && !s0.crashed && Goes(c, Down(s0, 0), step, d)
    requires DrawsUnused(WithConn(s0, 0, c), AtInvitee(0, step))
    ensures ReachedBy(more, WithConn(s0, 0, d))
  {
    hide ReachedBy, Inv, WellFormedController, CanAtInvitee, DoAtInvitee, Brief, DrawsUnused;
    var s := WithConn(s0, 0, c);
    AtTyped(steps, s);
    var t: System;
    more, t := StepTo(steps, s, AtInvitee(0, step));
    assert t == WithConn(s, 0, d);
    assert s.conns[0 := d] == s0.conns[0 := d];
  }

  /** The invitee's controller once it has joined. */
  function JoinedCtrl(): Controller {
    Controller(NewNode(B), A, Some(0), map[0 := A], map[0 := [AcceptInvitation(TOKEN, B)]], map[A := 0],
               map[], map[], [], map[])
  }

  function JoinedConn(): Conn {
    Conn(JoinedCtrl(), Resting, map[], None, 1, 0, Invited(TOKEN), map[], map[], map[])
  }

  /** On the way there: the inviter is named, and answered, and known as a peer. */
  function NamedConn(): Conn {
    JoinedConn().(io := ToAnswer(A, TOKEN),
                  ctrl := JoinedCtrl().(remote := map[0 := NONE], out := map[0 := []], peers := map[]))
  }

  function AnsweredConn(): Conn {
    JoinedConn().(io := ToJoin(A), ctrl := JoinedCtrl().(peers := map[]))
  }

  lemma HearGoes()
    ensures Goes(NewConn(0, B).(stage := Invited(TOKEN)), [AcceptInvitee(TOKEN, A)], Hear, NamedConn())
  {
  }

  lemma AnswerGoes(down: seq<Body>)
    ensures Goes(NamedConn(), down, Answer, AnsweredConn())
  {
    assert [] + [AcceptInvitation(TOKEN, B)] == [AcceptInvitation(TOKEN, B)];
    assert map[0 := NONE][0 := A] == map[0 := A];
    assert map[0 := []][0 := [AcceptInvitation(TOKEN, B)]] == map[0 := [AcceptInvitation(TOKEN, B)]];
    assert AnswerStep(NamedConn()) == AnsweredConn();
  }

  lemma JoinGoes(down: seq<Body>)
    ensures Goes(AnsweredConn(), down, Join, JoinedConn().(io := ToSend([])))
  {
    assert map[0 := A][0 := A] == map[0 := A];
    assert map[][A := 0] == map[A := 0];
    assert JoinStep(AnsweredConn()) == JoinedConn().(io := ToSend([]));
  }

  lemma SendGoes(down: seq<Body>)
    ensures Goes(JoinedConn().(io := ToSend([])), down, SendWaiting, JoinedConn().(io := ToSwap))
  {
  }

  lemma SwapGoes(down: seq<Body>)
    ensures Goes(JoinedConn().(io := ToSwap), down, Swap, JoinedConn().(io := ToDrain([])))
  {
    assert MarkAll(map[], []) == map[];
  }

  lemma DrainGoes(down: seq<Body>)
    ensures Goes(JoinedConn().(io := ToDrain([])), down, Drain, JoinedConn())
  {
  }

  lemma Joins(s: System, steps: seq<Step>) returns (more: seq<Step>)
    requires ReachedBy(steps, s) && OnItsWay(s)
    ensures ReachedBy(more, WithConn(s, 0, JoinedConn()))
  {
    hide ReachedBy, Goes;
    var down, c := [AcceptInvitee(TOKEN, A)], JoinedConn();
    assert s.conns == s.conns[0 := s.conns[0]];
    hide JoinedConn, NewConn, NamedConn, AnsweredConn, WithConn;
    HearGoes();
    more := InviteeTo(s, steps, NewConn(0, B).(stage := Invited(TOKEN)), Hear, NamedConn());
    AnswerGoes(down);
    more := InviteeTo(s, more, NamedConn(), Answer, AnsweredConn());
    JoinGoes(down);
    more := InviteeTo(s, more, AnsweredConn(), Join, c.(io := ToSend([])));
    SendGoes(down);
    more := InviteeTo(s, more, c.(io := ToSend([])), SendWaiting, c.(io := ToSwap));
    SwapGoes(down);
    more := InviteeTo(s, more, c.(io := ToSwap), Swap, c.(io := ToDrain([])));
    DrainGoes(down);
    more := InviteeTo(s, more, c.(io := ToDrain([])), Drain, c);
  }

  // ------------------------------------------------------------------ it extracts the pipe

  function WithPorts(): Controller {
    JoinedCtrl().(node := CreatePair(NewNode(B), P, Q).1)
  }

  /** The thread that merges the extracted port. */
  function CallingConn(caller: Caller, lock: Option<Name>): Conn {
    JoinedConn().(ctrl := WithPorts(), callers := map[P := caller], lock := lock,
                  track := map[P := Track(PIPE, Q, Calling)])
  }

  function AskedConn(): Conn {
    JoinedConn().(ctrl := WithPorts().(out := map[0 := [AcceptInvitation(TOKEN, B), RequestPortMerge(P, PIPE)]]),
                  track := map[P := Track(PIPE, Q, Asked)])
  }

  lemma ExtractGoes(down: seq<Body>)
    ensures Goes(JoinedConn(), down, Extract(PIPE, P, Q), CallingConn(Starting(PIPE), None))
  {
    hide CreatePair;
    assert map[][P := Starting(PIPE)] == map[P := Starting(PIPE)];
    assert map[][P := Track(PIPE, Q, Calling)] == map[P := Track(PIPE, Q, Calling)];
  }

  lemma PairThere()
    ensures WellFormed(CreatePair(NewNode(B), P, Q).1) && WellFormedController(WithPorts())
    ensures P in WithPorts().node.ports && Q in WithPorts().node.ports
  {
  }

  lemma LockGoes(down: seq<Body>)
    ensures Goes(CallingConn(Starting(PIPE), None), down, Lock(P), CallingConn(Locking(PIPE), Some(P)))
  {
    PairThere();
    hide CreatePair, WellFormedController;
    assert map[P := Starting(PIPE)][P := Locking(PIPE)] == map[P := Locking(PIPE)];
  }

  lemma ReadNameGoes(down: seq<Body>)
    ensures Goes(CallingConn(Locking(PIPE), Some(P)), down, ReadName(P), CallingConn(Named(PIPE, A), Some(P)))
  {
    PairThere();
    hide CreatePair, WellFormedController;
    assert map[P := Locking(PIPE)][P := Named(PIPE, A)] == map[P := Named(PIPE, A)];
  }

  lemma FindGoes(down: seq<Body>)
    ensures Goes(CallingConn(Named(PIPE, A), Some(P)), down, Find(P), CallingConn(Sending(PIPE, 0), None))
  {
    PairThere();
    hide CreatePair, WellFormedController;
    assert map[P := Named(PIPE, A)][P := Sending(PIPE, 0)] == map[P := Sending(PIPE, 0)];
  }

  lemma RequestGoes(down: seq<Body>)
    ensures Goes(CallingConn(Sending(PIPE, 0), None), down, InviteeStep.Request(P), AskedConn())
  {
    PairThere();
    hide CreatePair, WellFormedController;
    var up := [AcceptInvitation(TOKEN, B)];
    assert up + [RequestPortMerge(P, PIPE)] == [AcceptInvitation(TOKEN, B), RequestPortMerge(P, PIPE)];
    assert map[0 := up][0 := up + [RequestPortMerge(P, PIPE)]] == map[0 := up + [RequestPortMerge(P, PIPE)]];
    assert map[P := Sending(PIPE, 0)] - {P} == map[];
    assert Mark(map[P := Track(PIPE, Q, Calling)], P, Asked) == map[P := Track(PIPE, Q, Asked)];
  }

  lemma Asks(s: System, steps: seq<Step>) returns (more: seq<Step>)
    requires ReachedBy(steps, WithConn(s, 0, JoinedConn())) && OnItsWay(s)
    ensures ReachedBy(more, WithConn(s, 0, AskedConn()))
  {
    hide ReachedBy, Goes;
    assert DrawsUnused(WithConn(s, 0, JoinedConn()), AtInvitee(0, Extract(PIPE, P, Q)));
    var down := [AcceptInvitee(TOKEN, A)];
    assert Down(s, 0) == down;
    hide JoinedConn, CallingConn, AskedConn, WithConn, OnItsWay;
    ExtractGoes(down);
    more := InviteeTo(s, steps, JoinedConn(), Extract(PIPE, P, Q), CallingConn(Starting(PIPE), None));
    LockGoes(down);
    more := InviteeTo(s, more, CallingConn(Starting(PIPE), None), Lock(P), CallingConn(Locking(PIPE), Some(P)));
    ReadNameGoes(down);
    more := InviteeTo(s, more, CallingConn(Locking(PIPE), Some(P)), ReadName(P), CallingConn(Named(PIPE, A), Some(P)));
    FindGoes(down);
    more := InviteeTo(s, more, CallingConn(Named(PIPE, A), Some(P)), Find(P), CallingConn(Sending(PIPE, 0), None));
    RequestGoes(down);
    more := InviteeTo(s, more, CallingConn(Sending(PIPE, 0), None), InviteeStep.Request(P), AskedConn());
  }

  // ------------------------------------------------------------------ the inviter admits it

  /** How the inviter stands. */
  datatype Standing = Standing(
    io: InviterIo, stage: Stage, takenUp: nat, remote: Name, peers: map<Name, Socket>,
    pending: map<Name, Socket>, reserved: map<Name, map<Text, Name>>)

  predicate Stands(s: System, x: Standing) {
    && !s.crashed && s.ends == map[R := L] && s.io == x.io
    && s.conns == map[0 := AskedConn().(stage := x.stage, takenUp := x.takenUp)]
    && s.inviter.out == map[0 := [AcceptInvitee(TOKEN, A)]] && s.inviter.remote == map[0 := x.remote]
    && s.inviter.peers == x.peers && s.inviter.pendingInvitations == x.pending && s.inviter.reserved == x.reserved
    && s.inviter.waiting == map[]
  }

  function Standing1(): Standing {
    Standing(AtRest, Invited(TOKEN), 0, TOKEN, map[], map[TOKEN := 0], map[TOKEN := map[PIPE := R]])
  }

  function Standing2(): Standing {
    Standing1().(io := ToRekey(0, TOKEN, B), stage := Rekeying(TOKEN), takenUp := 1)
  }

  function Standing3(): Standing {
    Standing2().(io := ToAdmit(0, TOKEN, B), stage := Admitting(TOKEN), reserved := map[B := map[PIPE := R]])
  }

  function Standing4(): Standing {
    Standing3().(io := ToFlush(0, []), stage := Joined(TOKEN), remote := B, peers := map[B := 0], pending := map[])
  }

  /** Once the invitee is a peer. */
  function Standing5(): Standing {
    Standing4().(io := AtRest)
  }

  lemma AsksStands(s: System)
    requires OnItsWay(s)
    ensures Stands(WithConn(s, 0, AskedConn()), Standing1())
  {
    assert s.conns[0 := AskedConn()] == map[0 := AskedConn()];
  }

  lemma UpIs()
    ensures Up(AskedConn(), 0) == [AcceptInvitation(TOKEN, B), RequestPortMerge(P, PIPE)]
  {
  }

  lemma HearsAcceptance(steps: seq<Step>, s: System) returns (more: seq<Step>, t: System)
    requires ReachedBy(steps, s) && Stands(s, Standing1())
    ensures ReachedBy(more, t) && Stands(t, Standing2())
  {
    hide ReachedBy, Typed, Inv;
    UpIs();
    hide AskedConn;
    AtTyped(steps, s);
    more, t := StepTo(steps, s, HearInvitee(0));
  }

  lemma Rekeys(steps: seq<Step>, s: System) returns (more: seq<Step>, t: System)
    requires ReachedBy(steps, s) && Stands(s, Standing2())
    ensures ReachedBy(more, t) && Stands(t, Standing3())
  {
    hide ReachedBy, Typed, Inv, AskedConn;
    AtTyped(steps, s);
    more, t := StepTo(steps, s, RekeyPorts);
    assert map[TOKEN := map[PIPE := R]][B := map[PIPE := R]] - {TOKEN} == map[B := map[PIPE := R]];
  }

  lemma Admits(steps: seq<Step>, s: System) returns (more: seq<Step>, t: System)
    requires ReachedBy(steps, s) && Stands(s, Standing3())
    ensures ReachedBy(more, t) && Stands(t, Standing4())
  {
    hide ReachedBy, Typed, Inv, AskedConn;
    AtTyped(steps, s);
    more, t := StepTo(steps, s, AdmitInvitee);
    assert map[TOKEN := 0] - {TOKEN} == map[];
  }

  lemma Flushes(steps: seq<Step>, s: System) returns (more: seq<Step>, t: System)
    requires ReachedBy(steps, s) && Stands(s, Standing4())
    ensures ReachedBy(more, t) && Stands(t, Standing5())
  {
    hide ReachedBy, Typed, Inv, AskedConn;
    AtTyped(steps, s);
    more, t := StepTo(steps, s, FlushWaiting);
  }

  /** The request has been read, and the pair is about to be spliced. */
  predicate AboutToSplice(s: System) {
    && !s.crashed && s.io == ToMerge(0, B, P, R) && R in s.ends && s.ends[R] == L
    && 0 in s.conns && s.conns[0].io.Resting? && s.conns[0].takenDown == |Down(s, 0)|
    && P in s.conns[0].track && s.conns[0].track[P].state == Taken(R, L)
  }

  lemma HearsRequest(steps: seq<Step>, s: System) returns (more: seq<Step>, t: System)
    requires ReachedBy(steps, s) && Stands(s, Standing5())
    ensures ReachedBy(more, t) && AboutToSplice(t)
  {
    hide ReachedBy, Typed, Inv;
    UpIs();
    AtTyped(steps, s);
    more, t := StepTo(steps, s, HearInvitee(0));
  }

  /** The whole run, up to there. */
  lemma PipeIsAsked() returns (steps: seq<Step>, s: System)
    ensures ReachedBy(steps, s) && AboutToSplice(s)
  {
    hide *;
    steps, s := Prepare();
    steps, s := TakeAll(steps, s);
    steps, s := ListAll(steps, s);
    steps, s := LaunchIt(steps, s);
    steps := Joins(s, steps);
    steps := Asks(s, steps);
    AsksStands(s);
    s := WithConn(s, 0, AskedConn());
    steps, s := HearsAcceptance(steps, s);
    steps, s := Rekeys(steps, s);
    steps, s := Admits(steps, s);
    steps, s := Flushes(steps, s);
    steps, s := HearsRequest(steps, s);
  }
}
