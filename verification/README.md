# Ports, invitations and codecs of mojo-impl

A Dafny model of the core of a message-pipe library. Two processes, or one and any number of others,
are joined by an invitation: each side makes a local pair of ports, a handshake over a socket merges
the two pairs into one pipe across the processes, and from then on messages written at one end are read
at the other. Under that lies a byte buffer made of chunks, and the codecs of everything on the socket.

`dafny verify dfyconfig.toml` checks the project.

## What is modelled

Bytes on the wire:

- `Bytes`, `Zigzag`, `Varint`, `Codecs`: little-endian numbers, the zigzag and base-128 codes (unsigned
  LEB128, section 7.6 of DWARF Debugging Information Format Version 5), strings with a length.
- `FlatBuffer` is the buffer as one sequence of all its bytes, with a position and an end marker.
  `ByteArray` is the linked chain of chunks with its cursor, proved to do the same.
- `Serializer`, `SerialProofs`, `SerialDistinct`, `SerializerClass`: scalars and containers, written with
  `<<` and read with `>>`.
- `Bodies`, `Messages`, `Frames`, `ChannelPosix`, `Transport`: message bodies, frames, the reader and
  the writer of the socket, and what arrives of what was sent.

Ports and the handshake:

- `PortTable` is the port table of a node and its reverse index as a value; `PortNode` has the node, its
  ports and message queues as objects, proved against it.
- `Controllers` has every handler of the node controller as a function of its state; `NodeController`
  has the controller and its channels as objects, proved against these functions. `Core` does the same
  for the calls of an application. `ControllerLaws` and `CoreLaws` say what each handler and each call
  does, as the whole new state, and which steps of the handshake it is; `HandshakeDispatch` does so for
  every frame that comes in.
- `PeerQueue` is a state machine of any number of threads that send to a node while it becomes a peer.
- `Handshake` is a state machine of one inviter and any number of invitees, whose steps are the lock
  scopes, the sends and the receives of the program, with messages that are heard as they were sent and
  writes that read both fields of a peer at once. `HandshakeInvariant` says what holds in every
  reachable state, and the files from `HandshakeInvitee` to `HandshakeAnswer` prove that each step keeps
  it. `HandshakeTheorems`, `HandshakeConservation` and `HandshakeForever` draw the conclusions about all
  runs, and `HandshakeWhole` ties the steps back to the functions the objects are proved against.
- `HandshakeWire` is the machine the program is: channels are the bytes of frames, what is heard is what
  decoding them gives (`Streams`), a content that is not decoded ends the process, and a write reads the
  port field of its peer in one step and the node field in another. A message whose two fields do not
  belong together is a stray. `WireInvariant`, `WireSteps`, `WireTheorems` and `WirePairing` prove what
  holds in every run of it as long as the application is brief, by way of the machine above, strays
  apart; `HandshakeGrowth` shows that then everything sent is short. `WireFailures` has what happens
  otherwise, `WireRuns` makes runs of the machine above on the wire, and `HandshakeExample` and
  `WireExamples` have runs from the two processes on.

An application is brief if it writes at most 91 bytes of data at a time and extracts pipes with names of
at most 103 bytes. All `Wire` results assume that, except those of `WireFailures` about longer data, and
`WireFailures.WrittenExactly` shows that the bound is exact.

The handshake assumes that random names are new in all processes, distinct and not (0, 0), that sockets
are reliable and first-in first-out, and that every invitee accepts one invitation, of the one inviter.
Threads, sockets, clocks and random numbers are parameters and steps of the machines.

## Where the program does less than it seems

Each of these is proved, with the exact condition where there is one.

- A message goes through the wrapper of its content only if its encoding is shorter than 128 bytes, that
  is, with up to 91 bytes of user data or a pipe name of up to 103 bytes (`SkippedPrefix.DeserializeExactly`).
  A longer one ends the process that reads it (`WireFailures.WrittenExactly`, `WireExamples.SizeDecides`).
- A frame's content must be shorter than 65536 bytes (`Frames.StreamExactly`).
- An empty string at the very end of the chunks cannot be read back, since a read of nothing looks at a
  null cursor (`Codecs.StringVintRoundTrip`, `SerialProofs.ReadBackFromBuffer`).
- The read with a position of its own starts in the chunk of the cursor (`Buffers.ByteArray.ReadAtIsRight`).
- Vectors and sets of containers can be written and not read (`SerialProofs.SupportedExactly`).
- The peer of a port is read without a lock; a merge in between sends the message to the new node with
  the old port's name (`WireTheorems.ForwardExactly`), and the process that reads it ends
  (`WireTheorems.CrashesExactly`, `WireFailures.RaceCrashes`, `WireExamples.RaceHappens`).
- Messages that waited for a peer can be overtaken by later ones (`PeerQueue.FlushIsOvertaken`).
- A second response for one port would crash the node (`PortTable.SecondResponseCrashes`); no run of the
  handshake gets there.

Where the comments and the code of the repository differ, the code is modelled: the comment on the frame
header counts its length field as the bytes from the 4th to the 8th (`src/core/protocol.h:50`), while the
code has four bytes from the 4th on and then the same length again; the serializer's comment
(`src/core/serializer.h:30-37`) lists lists and tuples, whose operators are commented out, and speaks of
32/16 bit numbers where those of 32 and 64 bits are packed.

## Model

| member | source | states |
|---|---|---|
| WireTheorems.CrashesExactly | src/core/node_channel.cc:57-109 | in every run on the wire in which the application asks for no more than 91 bytes of data and pipe names of 103 bytes, a process crashes at a step if and only if it hears a stray there: a message whose port was spliced while it was written |
| WireTheorems.WireStepExactly | src/core/node_controller.cc:13-335 | every step on the wire keeps the invariant, unless it hears a stray; then it crashes |
| WireTheorems.ForwardExactly | src/core/ports/node.cc:64-73 | a write sends a stray, to the node its port faces now under the name it faced before, if and only if the port was spliced between the two reads; otherwise it is the write of both fields at once |
| WireSteps.TornExactly | src/core/ports/node.cc:117-128 | the port field that was read is out of date if and only if the port faced its own node when it was read and faces another now |
| WireTheorems.FindsPortExactly | src/core/ports/node.cc:223-236 | a user message on a channel names a port in the table of the node it goes to if and only if it is no stray, also when it overtakes the response |
| WireFailures.RaceCrashes | src/core/ports/node.cc:64-73 | from every state in which the inviter is about to splice a pair: a write that reads one field before and one after ends the process of the invitee that has read everything else |
| WireFailures.WrittenExactly | src/core/channel.h:65-73 | from every state of a brief run: what is written at the inviter's end of a merged pipe is the last in the other end's queue once it is read, or ends the invitee's process, and this if and only if it has 92 bytes or more (and fits a frame) |
| WireExamples.SizeDecides | src/core/channel.h:65-73 | a run from the two processes on after which a write of 91 bytes is read and one of 92 crashes |
| WireExamples.RaceHappens | src/core/ports/node.cc:64-73 | a run from the two processes on after which a write torn by the merge crashes the invitee |
| WireTheorems.EverythingShort | src/core/node_channel.cc:120-176 | in a brief run every message ever sent is encoded in less than 128 bytes |
| WireTheorems.TablesAgree | src/core/ports/node.cc:86-216 | in a brief run no peer is dropped and the reverse index of every node agrees with its port table |
| WireTheorems.WireRequestInOnePlace | src/core/node_controller.cc:32-44 | the request for every extracted port is in exactly one place - with the thread, put off, taken over, on the channel, with the inviter, on the way back, finished - and there once, the channel being the bytes not yet read |
| WireTheorems.WireMessagesConserved | src/core/ports/node.cc:64-73 | end to end and in both directions, everything sent at an end of a merged pipe is on its way to the other end, queued there, read there, or a stray, as multisets |
| WirePairing.WirePairingForever | src/core/ports/node.cc:166-216 | once both sides have merged a pipe its two ends name each other across the processes and both bridge halves are in no table, in that state and every continuation |
| WirePairing.WireLater | src/core/ports/node.cc:166-216 | in every continuation merged ports stay merged and no port is merged twice |
| WireTheorems.WireRefines | src/core/channel_posix.cc:37-79 | strays apart, every brief run on the wire is one in which messages are heard as they were sent |
| WireRuns.RunOnWire | src/core/channel_posix.cc:37-79 | and every such run that draws no name twice can be made on the wire, without a crash |
| WireFailures.LongIsFatal | src/core/node_channel.cc:57-109 | on either side and for every kind of message, a request for a pipe with a name of 104 bytes too: the process that comes to a message of 128 encoded bytes or more that fits a frame ends there |
| HandshakeExample.PipeIsAsked | src/core/node_controller.cc:32-284 | a run from the two processes on in which an invitee extracts the pipe of its invitation and the inviter is about to splice it |
| HandshakeGrowth.StepGrows | src/core/node_controller.cc:32-284 | a step only appends to channels, takes at most one message off one, draws only the names it says, and keeps everything queued anywhere short if the application is brief |
| Streams.HeardExactly | src/core/channel_posix.cc:37-79 | at any place of a channel's bytes, the next message is heard as it was sent, and the reader is behind it, if and only if it is encoded in less than 128 bytes |
| Streams.LongBreaks | src/core/channel.h:65-73 | a longer one that fits a frame is not decoded |
| HandshakeTheorems.StepKeeps | src/core/node_controller.cc:32-284 | if messages are heard as they were sent, every step of the inviter and of any number of invitees keeps the invariant |
| HandshakeTheorems.RunHolds | src/core/node_controller.cc:32-284 | and it holds in every run |
| HandshakeTheorems.IoThreadGoesOn | src/core/node_controller.cc:161-249 | the inviter's IO thread finds what its next step looks up |
| HandshakeTheorems.SettledPairing | src/core/ports/node.cc:166-216 | once both sides have merged, the two ends name each other, across the processes, and both bridge halves are in no table |
| HandshakeForever.PairingForever | src/core/ports/node.cc:166-216 | a settled pairing is the same in every continuation |
| HandshakeTheorems.AcceptanceFirst | src/core/node_controller.cc:204-249 | AcceptInvitation is the first message of every invitee and the only one of its kind; when the inviter reads any other, the invitee is a peer and its ports are not under the token |
| HandshakeTheorems.MergesForPeers | src/core/node_controller.cc:161-192 | while a merge is carried out, the channel to answer on is there |
| HandshakeConservation.PendingStaysEmpty | src/core/node_controller.cc:269-277 | once the requests put off have been taken over, none is put off again |
| HandshakeConservation.SwappedForGood | src/core/node_controller.cc:269-277 | and no later step of the invitee takes that back |
| HandshakeConservation.NothingBeforeMerge | src/core/node_controller.cc:13-26 | an extracted port hands nothing on before the response reached it, and nothing reaches it before the inviter merged it |
| HandshakeForever.PortInOnePlace | src/core/invitation_dispatcher.cc:16-54 | every attached port is in exactly one place: attached, taken, under the token, under the invitee's name, being merged, merged, extracted locally, or discarded |
| HandshakeForever.OnlyAttachedPorts | src/core/node_controller.cc:123-147 | those tables hold nothing but attached ports |
| HandshakeWhole.AloneExtracts | src/core/node_controller.cc:32-44 | the lock scopes of MergePortIntoInviter, uninterrupted, do what the whole function does |
| HandshakeWhole.AloneAnswers | src/core/node_controller.cc:204-218 | so do those of OnAcceptInvitee |
| HandshakeWhole.AloneMerges | src/core/node_controller.cc:161-192 | so do those of OnRequestPortMerge, crashes included |
| HandshakeWhole.AloneAdmits | src/core/node_controller.cc:220-249 | so do those of OnAcceptInvitation |
| HandshakeWhole.AloneInvites | src/core/node_controller.cc:123-147 | so do those of SendInvitation |
| HandshakeDispatch.DispatchExactly | src/core/node_channel.cc:57-109 | a frame whose content fits it goes to the handler of its message if the encoding is shorter than 128 bytes, and ends the process otherwise |
| HandshakeDispatch.FirstFrame | src/core/node_channel.cc:70-78 | the first frame of every handshake, at a fresh invitee: the name in second place is its inviter and only peer, and it has answered with the name in first place, the token, and its own name |
| HandshakeDispatch.FrameAnswers | src/core/node_channel.cc:70-78 | the frame of AcceptInvitee does, crashes included, what the machine's steps from hearing it to sending the last request put off do, uninterrupted |
| HandshakeDispatch.FrameMerges | src/core/node_channel.cc:79-87 | the frame of RequestPortMerge does what hearing it, splicing and answering do, crashes included; from 104 bytes of pipe name on it ends the process |
| HandshakeDispatch.FrameAdmits | src/core/node_channel.cc:61-69 | the frame of AcceptInvitation does what hearing it, moving the ports, admitting and flushing do; with a wrong token what dropping does |
| HandshakeDispatch.FramesAtPorts | src/core/node_channel.cc:88-104 | the response splices the port named first with the port named second, and a user message is queued at the port it is to, or the process ends, exactly when the port table says so or the data has 92 bytes or more |
| PeerQueue.StepKeeps | src/core/node_controller.cc:46-77 | every step of any number of senders, peer additions, flushes and drops keeps the invariant |
| PeerQueue.RunHolds | src/core/node_controller.cc:295-325 | the invariant holds in every run |
| PeerQueue.MessageInOnePlace | src/core/node_controller.cc:46-77 | in every reachable state each message handed in is, as often as handed in, on a channel, waiting, being flushed, in a thread's hand, or lost with a dropped peer; no name is in both peers and waiting messages |
| PeerQueue.ChannelsCarry | src/core/node_controller.cc:295-325 | a channel carries exactly what was sent on it, in that order |
| PeerQueue.FlushKeepsOrder | src/core/node_controller.cc:61-76 | while a node is not dropped, the messages that waited for it leave in the order in which they were queued |
| PeerQueue.ThreadsGoOn | src/core/node_controller.cc:295-325 | no sender and no flush is ever stuck |
| PeerQueue.FlushIsOvertaken | src/core/node_controller.cc:305-310 | while waiting messages are flushed, a message handed in later can be sent before them |
| PeerQueue.AloneSends | src/core/node_controller.cc:295-325 | a sender that is not interrupted does what SendPeerEvent does as a whole |
| PeerQueue.AloneAdds | src/core/node_controller.cc:46-77 | a node added without interruption is added as AddPeer adds it as a whole |
| PortTable.CreatePairIsSound | src/core/ports/node.cc:130-144 | creating a pair keeps the reverse index in agreement with the table, and local pairs mutual |
| PortTable.MergeKeepsIndexExactly | src/core/ports/node.cc:166-192 | merging keeps the reverse index in agreement if and only if the bridge half's peer, and no other live port, faced the bridge half, or the peer faced the new address already |
| PortTable.MergeSplicesPair | src/core/ports/node.cc:166-192 | merging one half of a local pair: that half is gone, the other faces the new address, nothing else changes |
| PortTable.ResponseSplicesPair | src/core/ports/node.cc:194-216 | the reverse index leads to the real bridge half, which is spliced out |
| PortTable.SecondResponseCrashes | src/core/ports/node.cc:194-216 | a second response for a spliced port meets a null port |
| PortTable.AcceptExactly | src/core/ports/node.cc:223-236 | a message is queued at its port, and nothing else changes, if and only if the port is in the table; otherwise a null port is used |
| PortTable.PortErrors | src/core/ports/node.cc:101-216 | when a port cannot be initialised, a merge finds no other half, and a response is ignored or crashes, and what the table is then |
| PortNodes.EntriesAfterAdd | src/core/ports/node.cc:117-128 | adding to the nested maps adds one entry to the index |
| PortNodes.EntriesAfterDrop | src/core/ports/node.cc:186-186 | erasing an inner map drops all entries under that peer |
| PortNodes.Node.MergePorts | src/core/ports/node.cc:166-192 | the objects and maps hold what the value operation computes, and the local name is that of the bridge half's peer |
| PortNodes.Node.MergePortsResponse | src/core/ports/node.cc:194-216 | the same by way of the reverse index, and it crashes exactly when the value operation does |
| NodeControllers.NodeController.AddPeer | src/core/node_controller.cc:46-77 | the loop leaves on the channel all that waited, in order; a known peer is ignored |
| NodeControllers.NodeController.DropPeer | src/core/node_controller.cc:79-104 | peer, waiting messages and invitation are forgotten and all reserved ports closed |
| NodeControllers.NodeController.SendInvitation | src/core/node_controller.cc:123-147 | the loop reserves the first port of every name; the channel is pending under the temporary name and carries AcceptInvitee |
| NodeControllers.NodeController.HandlePendingMergePort | src/core/node_controller.cc:269-284 | the loop sends every request that was put off, once and in order; it crashes exactly when there is one and no inviter channel |
| NodeControllers.NodeController.OnChannelMessage | src/core/node_channel.cc:57-109 | the objects end as OnFrame says, or the process ends when it does; what OnFrame is, is in HandshakeDispatch |
| NodeControllers.EmplaceOne | src/core/node_controller.cc:123-136 | of two ports attached under one name the first stays |
| NodeControllers.AllRequestsSent | src/core/node_controller.cc:269-284 | what the loop over the pending merges sends is what the value function says |
| ControllerLaws.AcceptInviteeLaw | src/core/node_controller.cc:204-218 | the whole new state: the inviter named, the answer, then what waited, then all requests put off on the channel; it crashes if and only if there is no channel to an inviter |
| ControllerLaws.AcceptInvitationLaw | src/core/node_controller.cc:220-249 | the whole new state: ports moved to the invitee's name, invitation done, channel renamed, what waited sent; an unexpected answer drops the node |
| ControllerLaws.RequestPortMergeLaw | src/core/node_controller.cc:161-192 | the whole new state: one reservation less, the pair spliced, the bridge half's peer named in the response on the asker's channel; it crashes if and only if the asker is no peer |
| ControllerLaws.PendingLaw | src/core/node_controller.cc:269-284 | all requests put off are sent in order; it crashes if and only if there is one and the inviter is no peer |
| ControllerLaws.AddPeerLaw | src/core/node_controller.cc:46-77 | the whole new state: a new peer gets all that waited for it; a known one is ignored, but its channel renamed |
| ControllerLaws.DropPeerLaw | src/core/node_controller.cc:79-104 | the whole new state: peer, waiting messages, invitation and reservations gone, and exactly the ports reserved for it erased |
| ControllerLaws.InviteLaw | src/core/node_controller.cc:123-147 | the whole new state: the ports reserved under the temporary name, and a channel that carries AcceptInvitee with that name and the inviter's own |
| Cores.Core.AttachMessagePipeToInvitation | src/core/core.cc:69-90 | the objects end as the value function says, in every case |
| Cores.Core.ExtractMessagePipeFromInvitation | src/core/core.cc:92-121 | the objects end as CoreSpec.Extract says, in every case; what that is, is in CoreLaws.ExtractLaw |
| Cores.Core.SendInvitation | src/core/core.cc:123-147 | the objects end as CoreSpec.SendInvitation says; what that is, is in CoreLaws.SendInvitationLaw |
| Cores.Core.WriteMessage | src/core/core.cc:161-173 | the objects end as CoreSpec.WriteMessage says; what that is, is in CoreLaws.WriteMessageLaw |
| Cores.Core.ReadMessage | src/core/core.cc:175-188 | the objects end as CoreSpec.ReadMessage says; what that is, is in CoreLaws.ReadMessageLaw |
| Cores.Core.AcceptInvitation | src/core/core.cc:149-159 | the objects end as CoreSpec.AcceptInvitation says; what that is, is in CoreLaws.AcceptInvitationLaw |
| Cores.ListPorts | src/core/core.cc:135-140 | the vector made of the map lists every port once |
| CoreSpec.HandlesAreNew | src/core/handle_table.cc:12-23 | a handle given out was never given out before; when the counter wraps there are no more |
| CoreSpec.ExtractUndoesAttach | src/core/core.cc:69-121 | extracting a pipe where it was attached leaves the invitation as before, and gives the other end of the same local pair |
| CoreLaws.AttachLaw | src/core/core.cc:69-90 | in every case: the answer, the new local pair, the half behind the handle and the half attached |
| CoreLaws.AttachIsMachine | src/core/core.cc:69-90 | it is the attachment of the handshake, and the port behind the handle one the application has there |
| CoreLaws.ExtractLaw | src/core/core.cc:92-121 | in every case: of a pipe not attached here the application gets the one half of a new local pair, and that half is the port the inviter is asked to merge under the pipe's name, on its channel or put off |
| CoreLaws.ExtractIsMachine | src/core/core.cc:115-120 | it is the extraction of the handshake, uninterrupted, and the port behind the handle the one tracked there |
| CoreLaws.ExtractOwnIsMachine | src/core/invitation_dispatcher.cc:26-45 | a pipe attached here is the inviter's own extraction, and the port behind the handle one the application has |
| CoreLaws.SendInvitationLaw | src/core/core.cc:123-147 | under a new temporary name exactly the attached ports are reserved, none stays attached, the new channel carries AcceptInvitee alone, and nothing else changes |
| CoreLaws.InviteIsMachine | src/core/core.cc:123-147 | it is the four steps of the inviter, uninterrupted; every attached port ends reserved and none discarded |
| CoreLaws.AcceptInvitationLaw | src/core/core.cc:149-159 | a handle of an empty invitation, and a channel to an inviter without a name |
| CoreLaws.AcceptIsMachine | src/core/core.cc:149-159 | the controller of a process that accepts is that of the invitee the handshake starts with |
| CoreLaws.WriteMessageLaw | src/core/core.cc:161-173 | in every case the whole new state: a message with the port's name, that of the port it faces and the data is the last on the channel of the node it faces, or the last that waits for it; for the node itself nothing changes |
| CoreLaws.WriteIsMachine | src/core/core.cc:161-173 | it is the write of the handshake at either side, and one that can be made for every port the application has a handle of |
| CoreLaws.ReadMessageLaw | src/core/core.cc:175-188 | in every case the whole new state: the message that came last is taken, or there is none |
| CoreLaws.ReadIsMachine | src/core/core.cc:175-188 | it is the read of the handshake at either side |
| Frames.StreamExactly | src/core/channel_posix.cc:37-79 | a stream of frames is read back frame by frame, ending at a boundary, if and only if every content is shorter than 65536 bytes |
| Frames.ReadOne | src/core/channel_posix.cc:37-44 | of the first frame the reader takes the content modulo 65536 bytes, and leaves the rest in the stream |
| Frames.ArrivedPrefix | src/core/channel_posix.cc:37-79 | of any part of a stream the first frames are read, exactly those whose last byte has arrived |
| Frames.Incomplete | src/core/channel_posix.cc:63-79 | a frame that has not arrived completely is waited for |
| Protocols.Protocol.DecodeMeta | src/core/protocol.h:117-122 | the four fields of the header are assigned, one by one, from however many bytes there are; those behind the first that cannot be read stay |
| Protocols.DeserializeProtocol | src/core/channel.cc:31-39 | of any received bytes, a frame object with the header's fields and no content yet, or the failure of decoding them |
| Channels.ChannelPosix.OnFdWriteable | src/core/channel_posix.cc:46-61 | all queued frames are on the stream, once each and in order |
| Channels.ChannelPosix.OnFdReadable | src/core/channel_posix.cc:37-44 | header then body: one frame is taken off the stream and delivered |
| Transport.MessagesArrive | src/core/node_channel.cc:57-109 | messages sent over a reliable stream come out of the dispatch each as it went in, and in order, if and only if every one is encoded in less than 128 bytes |
| Transport.FrameLayout | src/core/protocol.h:107-116 | the bytes of a message on the stream, place by place |
| Bodies.PlainRoundTrip | src/core/protocols/user_message.h:39-58 | every body is decoded from its encoding if and only if its payload is not an empty one at the end of the capacity or too long for its prefix |
| Bodies.Layout | src/core/protocols/user_message.h:39-48 | the bytes of the five bodies, place by place |
| SkippedPrefix.DeserializeExactly | src/core/channel.h:65-73 | a body sent as the content of a frame is decoded as it was if and only if its encoding is shorter than 128 bytes |
| SkippedPrefix.LongFails | src/core/channel.h:65-73 | from 128 bytes on, and as long as its content fits a frame, decoding it runs out of bytes: the length field, read a byte or two early, says more than there is |
| SkippedPrefix.ShortBodies | src/core/protocols/request_port_marge.h:21-36 | that is all bodies of two names, user messages of up to 91 bytes and requests with names of up to 103 bytes |
| Messages.NamesMessage.Decode | src/core/protocols/accept_invitation.h:31-39 | the fields become the names decoded, in the order of the message, and the buffer stands behind them; after a failure the fields decoded before it are assigned and the others are as they were |
| Messages.RequestMessage.Decode | src/core/protocols/request_port_marge.h:30-36 | the fields become those decoded and the buffer stands behind them; after a failure both fields are as they were |
| Messages.UserMessageObject.Decode | src/core/protocols/user_message.h:49-58 | the fields become those decoded and the buffer stands behind them; after a failure the fields decoded before it are assigned and the others are as they were |
| Messages.DeserializeMessage | src/core/channel.h:65-73 | what decoding behind one skipped byte gives, for each of the five messages |
| SerialProofs.RoundTrip | src/core/serializer.h:98-417 | every value of a readable type is read back and exactly consumed, except when a last empty string ends at the capacity |
| SerialProofs.StreamRoundTrip | src/core/serializer.h:98-417 | a sequence of mixed values is read back in order and exactly consumed, if and only if the last read is not blocked so |
| SerialProofs.SupportedExactly | src/core/serializer.h:217-320 | the types all of whose values are read back are exactly those whose vectors and sets have scalar elements |
| SerialProofs.LostIsLost | src/core/serializer.h:217-320 | for every other type, a value that is not read back |
| SerialProofs.ReadBackFromBuffer | src/core/serializer.h:98-417 | a value written into a buffer is read back there, stopping where the write stopped, if and only if it does not end with an empty string at the end of the last chunk |
| Serializers.Serializer.WriteItems | src/core/serializer.h:229-236 | the loop over a container writes its elements in order |
| Serializers.Serializer.Read | src/core/serializer.h:98-125 | what is read is what decoding the readable bytes gives, and they are consumed alike; duplicates are the matter of SerialDistinct |
| Serializers.Serializer.ReadItems | src/core/serializer.h:217-227 | the loop that emplaces elements: duplicates are dropped where the container drops them |
| SerialDistinct.DuplicatesAreDropped | src/core/serializer.h:238-249 | of any bytes, a set or a map with unique keys reads what a container that keeps everything reads, fails as it does, and has the first of each duplicate and no other |
| SerialDistinct.OthersKeepAll | src/core/serializer.h:217-262 | of any bytes, the other containers keep all elements, as many as the length in front says |
| SerialDistinct.DecodeHasType | src/core/serializer.h:98-125 | whatever the bytes are, a value that is read is one of the type |
| Serializers.Serializer.Offset | src/core/serializer.h:72-75 | the position moves by any integer, backwards too; before the start and beyond the capacity it fails and stays |
| FlatBuffer.WritesReadBack | src/core/byte_array.cc:334-444 | after moving the position back to where a write began, its bytes are what is read first |
| FlatBuffer.WritesKeepTheRest | src/core/byte_array.cc:334-367 | writing over readable bytes uses up as many of them and keeps those behind; what is in front of the position stays |
| Chunking.RoundUpIsLeast | src/core/byte_array.cc:488-517 | the capacity is rounded up to the least number of whole chunks that holds the bytes |
| Buffers.ByteArray.AddCapacity | src/core/byte_array.cc:488-517 | whole new chunks are appended, no more than needed, and only at the end; a null cursor gets the first of them |
| Buffers.ByteArray.Write | src/core/byte_array.cc:334-367 | the chain refines a flat byte sequence: exactly the bytes at the position are replaced, the buffer grows as needed, position and end move |
| Buffers.ByteArray.Read | src/core/byte_array.cc:369-396 | the next n bytes, and the position moves by n; out of range and the null cursor at capacity are told apart, and change nothing |
| Buffers.ByteArray.SetPosition | src/core/byte_array.cc:428-444 | the position moves, and the end with it over bytes never written; beyond the capacity it fails |
| Buffers.ByteArray.Clear | src/core/byte_array.cc:321-332 | the first chunk alone is left, with its bytes |
| Buffers.ByteArray.GetWriteBuffers | src/core/byte_array.cc:613-641 | the slices are consecutive and together n bytes; the position stays |
| Buffers.ByteArray.WriteThroughBuffers | src/core/byte_array.cc:613-641 | filling the slices in order and moving the position leaves the buffer as a write of the bytes does |
| Buffers.ByteArray.GetReadBuffers | src/core/byte_array.cc:545-574 | the slices put together are the next min(n, readable) bytes, and nothing changes |
| Buffers.ByteArray.ReadAt | src/core/byte_array.cc:398-426 | the read with a position of its own starts in the chunk of the cursor |
| Buffers.ByteArray.ReadAtIsRight | src/core/byte_array.cc:403-406 | which is the position asked for if and only if both lie in one chunk |
| Buffers.ByteArray.ToString | src/core/byte_array.cc:519-527 | all readable bytes, and nothing changes |
| Buffers.VarintBytes | src/core/byte_array.cc:130-154 | the loop that fills the code bytes computes the varint of the number |
| Buffers.ByteArray.ReadUint | src/core/byte_array.cc:243-273 | the loop over single bytes decodes a varint and stops where it ends; on failure the bytes read stay read |
| Zigzag.ZigzagBijection | src/core/byte_array.cc:101-123 | the zigzag functions of both widths are inverse bijections between all signed and all unsigned numbers, the minimum included |
| Zigzag.EncodeZigzag | src/core/byte_array.cc:101-115 | despite the wrap-around on the minimum, the code of v is 2v or -2v - 1, as the Protocol Buffers encoding guide has it |
| Zigzag.DecodeZigzag | src/core/byte_array.cc:117-123 | the decoded number is u/2 for even u and -(u/2) - 1 for odd u |
| Zigzag.BitForms32 | src/core/byte_array.cc:101-154 | the bit expressions of the 32-bit source are the arithmetic the model computes with |
| Zigzag.BitForms64 | src/core/byte_array.cc:109-154 | the same for 64 bits |
| Varint.VarintRoundTrip | src/core/byte_array.cc:130-154 | every number of the width is decoded from its code, whatever follows, and exactly the code is consumed |
| Varint.EncodingIsShortest | src/core/byte_array.cc:130-139 | the code is a base-128 code of the number, no code of it is shorter, and no other is as short |
| Varint.DecodeVarintInRange | src/core/byte_array.cc:243-273 | whatever the bytes are, a decoded number is one of the width |
| Varint.ShiftGroupBound | src/core/byte_array.cc:243-273 | of every group but the last all bits stay in the width, of the last one the bits shifted out are lost; the sum of all groups never carries out of the width |
| Varint.OrAdds32 | src/core/byte_array.cc:243-254 | joining 32-bit patterns that share no bits by or is adding them, without wrap-around |
| Varint.OrAdds64 | src/core/byte_array.cc:262-273 | the same for 64 bits |
| Varint.Disjoint32 | src/core/byte_array.cc:243-254 | the groups joined so far share no bits with the next one at its place |
| Varint.Disjoint64 | src/core/byte_array.cc:262-273 | the same for 64 bits |
| Varint.Shift32 | src/core/byte_array.cc:243-254 | shifting a group to its place is the multiplication the model computes with, the bits shifted out of the last group lost |
| Varint.Shift64 | src/core/byte_array.cc:262-273 | the same for 64 bits |
| Codecs.FintRoundTrip | src/core/byte_array.cc:68-99 | a fixed-width number is read back modulo its width, and exactly its bytes are consumed |
| Bytes.LittleEndianDigit | src/core/byte_array.cc:68-99 | byte i of a written number is its base-256 digit i |
| Codecs.IntRoundTrip | src/core/byte_array.cc:239-259 | a signed number written by way of zigzag and varint is read back |
| Codecs.UintReadBack | src/core/byte_array.cc:130-154 | written anywhere in a buffer of any chunk size, also across chunks and while growing, a number is read back there and the read stops where the write stopped |
| Codecs.IntReadBack | src/core/byte_array.cc:126-143 | the same for signed numbers |
| Codecs.StringFRoundTrip | src/core/byte_array.cc:289-311 | a string with a fixed-width length is read back if and only if its length fits the prefix and it is not an empty string whose prefix ends where the chunks end |
| Codecs.StringVintRoundTrip | src/core/byte_array.cc:313-319 | a string with a varint length is read back if and only if it is not such an empty string; then the null cursor is dereferenced |

## Left out

- HandshakeTheorems.SettledPairing: is about the machine in which messages are heard as they were sent; WirePairing.WirePairingForever carries it to the wire.
- WireTheorems.WireMessagesConserved: counts the messages handed on to a channel, because a message whose peer is a local port is dropped before that.
- WireTheorems.ForwardExactly: takes the second read, the lookup of the peer and the send as one step, because both ends of a merged pipe are peers already; PeerQueue has SendPeerEvent split at its lookups.
- WireFailures.WrittenExactly: says nothing of data that does not fit a frame, of 65500 bytes and more, because the reader then leaves a part of it in the stream (Frames.ReadOne).
- Buffers.ByteArray.ReadStringVint: does not model running out of memory on a huge length, because the string is allocated before its bytes are looked for.
- PortNodes.Node.MergePortsResponse: leaves open what the maps hold after a crash, because an indexing operator has then inserted empty entries.
- Cores.Core.SendInvitation: takes the attached ports twice without interruption; ports attached between the two are discarded, which is a step of the handshake.
- NodeControllers.NodeController.DropPeer: is not reached in any run of the handshake, and is proved for the objects and in PeerQueue only.
- PortNodes.Node.AddPortWithName: takes a port without a peer, because the program makes no other call; for one with a peer the program would list it under that peer first.
- Serializers.Serializer.Offset: takes positions as unbounded integers, because a buffer of two gigabytes and more, whose position does not fit an `int`, is not modelled.
- A splice writes the two fields of a peer in one step. The program writes the node first; a write that reads the port field in between reads what it reads before both.
- The two 64-bit halves of a name are read and written at once.
- When one process ends, the run on the wire ends; what the others do then is not modelled.
- Lengths are those a string can have, and the host is little-endian.
- Creating a pair and attaching its half, and reserving a new channel and sending AcceptInvitee on it, are one step of the handshake each, because nothing else can see the names in between.
- An inviter that is itself an invitee of another process, an inviter that extracts a pipe it never attached, and an invitee that accepts a second invitation: the handshake is a star of one inviter.
- Sockets, short sends, errors and shutdown of channels, and `OnChannelError`: a channel is a reliable stream.
- The order in which a queue gives messages back is last-in first-out, so only conservation is claimed for it; sequence numbers are never looked at by the program.
- `BufferEvent`, `NextEvent`, control queues, `OnAddClient`, `OnClientAdded`, `OnAcceptClient`, `OnAcceptPeer` and broadcasts do nothing in the program.
- Files, hexadecimal printing, logging and the positional overload of `getReadBuffers`.
- Floats are their bit patterns, also when they are the elements of a set.
- SerialDistinct.DuplicatesAreDropped: lists the elements that were kept in the order in which they came; in which order a set or a map gives them back is not modelled.
- Tuples and lists, whose operators are commented out.
- `libuv`, threads, processes and singletons; `sock_pair_channel.h` and the log library.
