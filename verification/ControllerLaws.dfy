// What each handler of the node controller does, field by field.

module ControllerLaws {
  import opened Bytes
  import opened Names
  import opened Bodies
  import opened PortTable
  import opened Controllers

  type Channels = map<Socket, seq<Body>>

  /** More messages at the end of one channel. */
  function Longer(out: Channels, s: Socket, messages: seq<Body>): (more: Channels)
    requires s in out
    ensures more.Keys == out.Keys
    ensures forall k :: k in out ==> more[k] == if k == s then out[k] + messages else out[k]
  {
    out[s := out[s] + messages]
  }

  function WaitingFor(c: Controller, n: Name): seq<Body> {
    if n in c.waiting then c.waiting[n] else []
  }

  lemma ChannelsThere(c: Controller)
    requires WellFormedController(c)
    ensures c.inviterChannel.Some? ==> c.inviterChannel.value in c.out
    ensures forall n :: n in c.peers ==> c.peers[n] in c.out
    ensures forall n :: n in c.pendingInvitations ==> c.pendingInvitations[n] in c.out
    ensures WellFormed(c.node)
  {
    hide WellFormed;
  }

  // ------------------------------------------------------------------ peers

  /** A new peer gets all that waited for it, on its channel and in order. A known one is ignored, but
      the channel is renamed. */
  lemma AddPeerLaw(c: Controller, n: Name, s: Socket)
    requires WellFormedController(c) && s in c.out
    ensures
      AddPeer(c, n, s)
      == if n in c.peers then c.(remote := c.remote[s := n])
         else c.(remote := c.remote[s := n], peers := c.peers[n := s], waiting := c.waiting - {n},
                 out := Longer(c.out, s, WaitingFor(c, n)))
  {
    hide WellFormedController;
    var renamed := SetRemote(c, s, n);
    assert c.out[s] + [] == c.out[s];
    if n !in c.waiting {
      assert c.waiting - {n} == c.waiting;
    }
    if n in c.peers || n !in c.waiting {
      SendNone(InsertPeer(renamed, n, s).0, s);
      assert Longer(c.out, s, []) == c.out;
    }
  }

  /** A dropped node is no peer, has no invitation, and nothing waits for it; the ports reserved for it
      are erased, and no others. */
  lemma DropPeerLaw(c: Controller, n: Name)
    requires WellFormedController(c)
    ensures
      var d := DropPeer(c, n);
      && d == c.(peers := c.peers - {n}, waiting := c.waiting - {n},
                 pendingInvitations := c.pendingInvitations - {n}, reserved := c.reserved - {n}, node := d.node)
      && d.node == c.node.(live := d.node.live)
      && forall p :: p in d.node.live <==>
                       p in c.node.live && !(n in c.reserved && exists x :: x in c.reserved[n] && c.reserved[n][x] == p)
  {
    hide WellFormedController;
    if n !in c.reserved {
      assert c.reserved - {n} == c.reserved;
    }
  }

  // ------------------------------------------------------------------ sending

  /** What a write at a port sends. */
  lemma WriteLaw(c: Controller, p: Name, data: Text)
    requires WellFormedController(c) && p in c.node.ports
    ensures
      var n := c.node.ports[p].peerNode;
      var m := UserMessage(p, c.node.ports[p].peerPort, data);
      && (n in c.peers ==> c.peers[n] in c.out)
      && SendUserMessage(c, p, data)
         == if n == c.node.name then c
            else if n in c.peers then c.(out := Longer(c.out, c.peers[n], [m]))
            else c.(waiting := c.waiting[n := WaitingFor(c, n) + [m]])
  {
    ChannelsThere(c);
    hide WellFormedController;
  }

  /** Reading takes the message that came last, and changes nothing else. */
  lemma ReadLaw(c: Controller, p: Name)
    requires p in c.node.ports
    ensures
      var (m, d) := GetUserMessage(c, p);
      var port := c.node.ports[p];
      && (m.None? <==> port.queue == [])
      && (m.None? ==> d == c)
      && (m.Some? ==>
            d == c.(node := d.node) && d.node == c.node.(ports := d.node.ports) && p in d.node.ports
            && port.queue == d.node.ports[p].queue + [m.value]
            && d.node.ports == c.node.ports[p := port.(queue := d.node.ports[p].queue)])
  {
    var queue := c.node.ports[p].queue;
    if queue != [] {
      assert queue == queue[..|queue| - 1] + [queue[|queue| - 1]];
    }
  }

  /** The request for a port goes to the inviter, if it is a peer; otherwise it is put off. */
  lemma RequestLaw(c: Controller, pipe: Text, p: Name)
    requires WellFormedController(c)
    ensures c.inviterName in c.peers ==> c.peers[c.inviterName] in c.out
    ensures
      MergePortIntoInviter(c, Merge(pipe, p))
      == if c.inviterName in c.peers
         then c.(out := Longer(c.out, c.peers[c.inviterName], [RequestPortMerge(p, pipe)]))
         else c.(pendingMerges := c.pendingMerges + [Merge(pipe, p)])
  {
    ChannelsThere(c);
    hide WellFormedController;
  }

  // ------------------------------------------------------------------ invitations

  /** The attached ports are reserved under the temporary name, and the new channel carries AcceptInvitee
      with that name and the inviter's own. */
  lemma InviteLaw(c: Controller, temp: Name, s: Socket, attached: map<Text, Name>)
    ensures
      var d := SendInvitation(c, temp, s, attached);
      && d == c.(reserved := d.reserved, remote := c.remote[s := temp],
                 out := c.out[s := [AcceptInvitee(temp, c.node.name)]], pendingInvitations := d.pendingInvitations)
      && d.reserved.Keys == c.reserved.Keys + {temp}
      && (forall n :: n in c.reserved && n != temp ==> d.reserved[n] == c.reserved[n])
      && (temp !in c.reserved ==> d.reserved[temp] == attached)
      && (temp in c.reserved ==> d.reserved[temp] == attached + c.reserved[temp])
      && d.pendingInvitations
         == if temp in c.pendingInvitations then c.pendingInvitations else c.pendingInvitations[temp := s]
  {
    ReserveLaw(c, temp, attached);
    hide Reserve;
    assert [] + [AcceptInvitee(temp, c.node.name)] == [AcceptInvitee(temp, c.node.name)];
    assert c.remote[s := NONE][s := temp] == c.remote[s := temp];
    assert c.out[s := []][s := [AcceptInvitee(temp, c.node.name)]] == c.out[s := [AcceptInvitee(temp, c.node.name)]];
  }

  /** Of two ports of one name, the one reserved before stays. */
  lemma ReserveLaw(c: Controller, temp: Name, attached: map<Text, Name>)
    ensures
      var d := Reserve(c, temp, attached);
      && d == c.(reserved := d.reserved) && d.reserved.Keys == c.reserved.Keys + {temp}
      && (forall n :: n in c.reserved && n != temp ==> d.reserved[n] == c.reserved[n])
      && (temp !in c.reserved ==> d.reserved[temp] == attached)
      && (temp in c.reserved ==> d.reserved[temp] == attached + c.reserved[temp])
  {
    assert attached + map[] == attached;
  }

  /** An invitee knows the channel, and no name for it yet. */
  lemma AcceptLaw(c: Controller, s: Socket)
    ensures
      AcceptInvitationOn(c, s)
      == c.(inviterName := NONE, inviterChannel := Some(s), remote := c.remote[s := NONE], out := c.out[s := []])
  {
  }

  // ------------------------------------------------------------------ messages that come in

  function Answer(c: Controller, token: Name): Body {
    AcceptInvitation(token, c.node.name)
  }

  /** AcceptInvitee: the inviter is named and answered with its token, then becomes a peer, and all the
      requests put off are sent to it. Without a channel to an inviter this crashes. */
  lemma AcceptInviteeLaw(c: Controller, inviter: Name, token: Name)
    requires WellFormedController(c)
    ensures OnAcceptInvitee(c, inviter, token).Crash? <==> c.inviterChannel.None?
    ensures c.inviterChannel.Some? ==> c.inviterChannel.value in c.out
    ensures inviter in c.peers ==> c.peers[inviter] in c.out
    ensures c.inviterChannel.Some? ==>
      var s, requests := c.inviterChannel.value, RequestBodies(c.pendingMerges);
      var answered := Longer(c.out, s, [Answer(c, token)]);
      var d := OnAcceptInvitee(c, inviter, token).value;
      d == if inviter in c.peers
           then c.(inviterName := inviter, remote := c.remote[s := inviter], pendingMerges := [],
                   out := Longer(answered, c.peers[inviter], requests))
           else c.(inviterName := inviter, remote := c.remote[s := inviter], pendingMerges := [],
                   peers := c.peers[inviter := s], waiting := c.waiting - {inviter},
                   out := Longer(Longer(answered, s, WaitingFor(c, inviter)), s, requests))
  {
    hide WellFormedController, AnswerInviter, NameInviter, AddPeer, RequestBodies, HandlePendingMergePort, Longer;
    hide WaitingFor, Answer;
    ChannelsThere(c);
    if c.inviterChannel.Some? {
      var s := c.inviterChannel.value;
      AnswerLaw(c, inviter, token);
      JoinLaw(AnswerInviter(NameInviter(c, inviter), inviter, token), s);
      SameWaiting(c, AnswerInviter(NameInviter(c, inviter), inviter, token), inviter);
      assert c.remote[s := inviter][s := inviter] == c.remote[s := inviter];
    }
  }

  lemma SameWaiting(c: Controller, d: Controller, n: Name)
    requires d.waiting == c.waiting
    ensures WaitingFor(d, n) == WaitingFor(c, n)
  {
  }

  /** The inviter is added, and all requests put off are sent to it. */
  lemma JoinLaw(c: Controller, s: Socket)
    requires WellFormedController(c) && s in c.out
    ensures c.inviterName in c.peers ==> c.peers[c.inviterName] in c.out
    ensures
      var a, requests := c.inviterName, RequestBodies(c.pendingMerges);
      HandlePendingMergePort(AddPeer(c, a, s))
      == if a in c.peers
         then Done(c.(remote := c.remote[s := a], pendingMerges := [], out := Longer(c.out, c.peers[a], requests)))
         else Done(c.(remote := c.remote[s := a], pendingMerges := [], peers := c.peers[a := s],
                      waiting := c.waiting - {a}, out := Longer(Longer(c.out, s, WaitingFor(c, a)), s, requests)))
  {
    ChannelsThere(c);
    hide WellFormedController, AddPeer, RequestBodies, HandlePendingMergePort, Longer;
    AddPeerLaw(c, c.inviterName, s);
    PendingLaw(AddPeer(c, c.inviterName, s));
  }

  lemma AnswerLaw(c: Controller, inviter: Name, token: Name)
    requires WellFormedController(c) && c.inviterChannel.Some?
    ensures c.inviterChannel.value in c.out
    ensures
      var s := c.inviterChannel.value;
      AnswerInviter(NameInviter(c, inviter), inviter, token)
      == c.(inviterName := inviter, remote := c.remote[s := inviter], out := Longer(c.out, s, [Answer(c, token)]))
  {
    ChannelsThere(c);
    hide WellFormedController;
  }

  /** All requests put off are sent to the inviter, in order; it must be a peer if there are any. */
  lemma PendingLaw(c: Controller)
    requires WellFormedController(c)
    ensures HandlePendingMergePort(c).Crash? <==> c.pendingMerges != [] && c.inviterName !in c.peers
    ensures c.inviterName in c.peers ==> c.peers[c.inviterName] in c.out
    ensures c.inviterName in c.peers ==>
      HandlePendingMergePort(c)
      == Done(c.(pendingMerges := [], out := Longer(c.out, c.peers[c.inviterName], RequestBodies(c.pendingMerges))))
    ensures c.pendingMerges == [] ==> HandlePendingMergePort(c) == Done(c)
  {
    ChannelsThere(c);
    hide WellFormedController;
    if c.pendingMerges == [] {
      assert RequestBodies(c.pendingMerges) == [];
      if c.inviterName in c.peers {
        var s := c.peers[c.inviterName];
        assert c.out[s] + [] == c.out[s];
        assert Longer(c.out, s, []) == c.out;
      }
    }
  }

  /** RequestPortMerge: a port that is not reserved for the sender under that name is not there, and
      nothing happens. Otherwise it is reserved no longer, its pair is spliced, and its other half is
      named in the response; without a channel to the sender this crashes. */
  lemma RequestPortMergeLaw(c: Controller, from: Name, connector: Name, pipe: Text)
    requires WellFormedController(c)
    ensures from in c.peers ==> c.peers[from] in c.out
    ensures
      var r := OnRequestPortMerge(c, from, connector, pipe);
      if from !in c.reserved || pipe !in c.reserved[from] then r == Done(c)
      else
        var port := c.reserved[from][pipe];
        && port in c.node.ports && WellFormed(c.node)
        && (r.Crash? <==> from !in c.peers)
        && (r.Done? ==>
              var d := r.value;
              && d == c.(reserved := d.reserved, node := PortTable.MergePorts(c.node, port, from, connector).1,
                         out := Longer(c.out, c.peers[from],
                                       [ResponsePortMerge(connector, c.node.ports[port].peerPort)]))
              && Without(c.reserved, d.reserved, from, pipe))
  {
    ChannelsThere(c);
    if from in c.reserved && pipe in c.reserved[from] {
      assert c.reserved[from][pipe] in c.node.ports;
      hide WellFormedController, PortTable.MergePorts, Without;
      TakeLaw(c, from, pipe);
    }
  }

  /** One entry less, and nothing under a name without entries. */
  predicate Without(reserved: map<Name, map<Text, Name>>, left: map<Name, map<Text, Name>>, from: Name, pipe: Text) {
    && left.Keys + {from} == reserved.Keys
    && (forall n :: n in left && n != from ==> left[n] == reserved[n])
    && from in reserved
    && (from in left <==> exists x :: x in reserved[from] && x != pipe)
    && (from in left ==> left[from] == reserved[from] - {pipe})
  }

  lemma TakeLaw(c: Controller, from: Name, pipe: Text)
    requires from in c.reserved && pipe in c.reserved[from]
    ensures
      var (d, port) := TakeReserved(c, from, pipe);
      port == Some(c.reserved[from][pipe]) && d == c.(reserved := d.reserved) && Without(c.reserved, d.reserved, from, pipe)
  {
    var left := c.reserved[from] - {pipe};
    if left != map[] {
      var x :| x in left.Keys;
      assert x in c.reserved[from] && x != pipe;
    }
    forall x | x in c.reserved[from] && x != pipe
      ensures x in left && left != map[]
    {
    }
  }

  /** AcceptInvitation: an answer that is not the one expected on that channel drops the node. The one
      expected moves the reserved ports to the invitee's name, and the invitee becomes a peer. */
  lemma AcceptInvitationLaw(c: Controller, from: Name, token: Name, invitee: Name)
    requires WellFormedController(c)
    ensures from in c.pendingInvitations ==> c.pendingInvitations[from] in c.out
    ensures
      var d := OnAcceptInvitation(c, from, token, invitee);
      if from !in c.pendingInvitations || token != from then d == DropPeer(c, from)
      else
        var s := c.pendingInvitations[from];
        && Moved(c.reserved, d.reserved, from, invitee)
        && d == if invitee in c.peers
                then c.(reserved := d.reserved, pendingInvitations := c.pendingInvitations - {from},
                        remote := c.remote[s := invitee])
                else c.(reserved := d.reserved, pendingInvitations := c.pendingInvitations - {from},
                        remote := c.remote[s := invitee], peers := c.peers[invitee := s],
                        waiting := c.waiting - {invitee}, out := Longer(c.out, s, WaitingFor(c, invitee)))
  {
    ChannelsThere(c);
    if from in c.pendingInvitations && token == from {
      var s := c.pendingInvitations[from];
      RekeyLaw(c, from, invitee);
      RekeyTyped(c, from, invitee);
      var moved := Rekey(c, from, invitee);
      AdmitTyped(moved, from);
      AddPeerLaw(moved.(pendingInvitations := moved.pendingInvitations - {from}), invitee, s);
      hide WellFormedController, Rekey, AddPeer, Moved;
    }
  }

  lemma AdmitTyped(c: Controller, from: Name)
    requires WellFormedController(c)
    ensures WellFormedController(c.(pendingInvitations := c.pendingInvitations - {from}))
  {
  }

  /** What was under the one name is under the other, unless that had ports already; then it is lost. */
  predicate Moved(reserved: map<Name, map<Text, Name>>, moved: map<Name, map<Text, Name>>, from: Name, name: Name) {
    && moved.Keys == (if from in reserved then reserved.Keys + {name} else reserved.Keys) - {from}
    && (forall n :: n in moved && n in reserved ==> moved[n] == reserved[n])
    && (from in reserved && name in moved && name !in reserved ==> moved[name] == reserved[from])
  }

  lemma RekeyLaw(c: Controller, from: Name, name: Name)
    ensures Moved(c.reserved, Rekey(c, from, name).reserved, from, name)
    ensures Rekey(c, from, name) == c.(reserved := Rekey(c, from, name).reserved)
  {
  }

  lemma RekeyTyped(c: Controller, temp: Name, n: Name)
    requires WellFormedController(c)
    ensures WellFormedController(Rekey(c, temp, n))
    ensures Rekey(c, temp, n).pendingInvitations == c.pendingInvitations
  {
    if temp in c.reserved {
      ReservedTyped(c, c.reserved - {temp});
      ReservedTyped(c, c.reserved[n := c.reserved[temp]] - {temp});
    }
    hide WellFormedController;
  }

  lemma ReservedTyped(c: Controller, reserved: map<Name, map<Text, Name>>)
    requires WellFormedController(c)
    requires forall q :: q in reserved ==> reserved[q] in c.reserved.Values
    ensures WellFormedController(c.(reserved := reserved))
  {
    hide WellFormed;
    forall q, x | q in reserved && x in reserved[q]
      ensures reserved[q][x] in c.node.ports
    {
      var p :| p in c.reserved && c.reserved[p] == reserved[q];
    }
  }

  /** ResponsePortMerge and UserMessage concern the ports alone. */
  lemma PortMessagesLaw(c: Controller, from: Name, connector: Name, port: Name, m: Body)
    requires WellFormedController(c) && m.UserMessage?
    ensures WellFormed(c.node)
    ensures
      var r, s := OnResponsePortMerge(c, from, connector, port), MergePortsResponse(c.node, connector, from, port);
      if s.Crash? then r.Crash? else r == Done(c.(node := s.value.1))
    ensures
      var r, s := OnUserMessage(c, m), Accept(c.node, m.to, m);
      if s.Crash? then r.Crash? else r == Done(c.(node := s.value))
  {
    ChannelsThere(c);
    hide WellFormedController;
  }
}
