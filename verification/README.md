# A userspace VPN tunnel, modelled and proved

The repository runs an OpenVPN tunnel without a network interface: IP packets go to an in-process TCP/IP stack, and a SOCKS5
proxy connects clients to what the stack can reach. This project models the parts that decide whether that is correct, in the
form the source gives them, and proves what they promise.

| file | of the repository | what it holds |
|---|---|---|
| Engine.dfy, Tables.dfy, Evidence.dfy | src/netstack.rs, `Engine` | the engine as a class: lookups, flows, socket set, port cursor, both walks of a step; what entitles it to each outcome |
| Flow.dfy | src/netstack.rs, `Flow` | one proxied connection as a class, with the history of both directions |
| Vectors.dfy, Ports.dfy | src/netstack.rs | walking a vector under `swap_remove` and `push`; the cyclic port cursor and its reuse distance |
| Protocol.dfy | src/netstack.rs `run`, src/vpn.rs | callbacks, the two queues and the worker as a state machine; theorems over all its runs |
| Channels.dfy, Worker.dfy, Vpn.dfy | the same | the queues, the worker and the callbacks as classes whose every action is a step of that machine |
| System.dfy | the same | callbacks, requesters, queues and worker together, under an arbitrary scheduler |
| Socks.dfy, SocksLaws.dfy, Proxy.dfy | src/socks.rs | what a client's bytes mean (RFC 1928), the same by every byte, and the handshake read from a stream that comes in pieces |
| Settings.dfy, SettingsLaws.dfy, Dedup.dfy | src/settings.rs | the fold over option lines, and what it comes to by the words of the lines |
| Diagnostics.dfy, Wakeup.dfy | src/vpn.rs, src/main.rs | what the events add up to; the task that waits for CONNECTED and then saves, and the shutdown that waits for it or stops it |
| Tcp.dfy, Pipe.dfy, Resolver.dfy, Oneshot.dfy, Net.dfy, Wrappers.dfy | libraries | contracts of what the source builds on |

How the pieces fit: `Flow` and `Engine` keep their invariants through every call, whatever the network, the resolver, the clients
and the clock do. Part of the engine's invariant is that every outcome it has given was called for (`Justified` in Evidence.dfy:
what has to have been observed for each kind of outcome), so a step that gave a wrong answer would not keep it. `Worker` owns an
engine and a ghost copy of the protocol state; each of its methods changes the real state and lets the corresponding protocol
event happen. `UserspaceVpn` and `Channels` do the same for the callbacks and the requesters. `System` puts them together: a
scheduler lets any callback run its next section, any requester ask and the worker take its next atomic action, in any order,
and both sides' invariants hold throughout, so that a theorem about all runs of `Protocol` is a theorem about the real queues,
engine, tunnel and replies. `Proxy` adds the client: what it reads is decided by the settled outcome of its own request.

Library contracts. The bodies of the library classes only choose among what their contracts allow; callers see the contracts.
A TCP socket belongs to the request it was made for and has one local and one remote address; it may receive, acknowledge and
change state at any poll, but never re-enters a phase it has left; `recv` hands out a nonempty part of its buffer and consumes
what is reported; nothing is enqueued after `close`. A pipe end may take part of a write, refuse or fail. A DNS slot is freed by
a final result or by cancelling, may then be reused, and must not be touched while free (preconditions of `DnsSocket`). A reply
channel can be used once (preconditions of `Ledger`), and a receiver once gone stays gone. It can be answered with a connection (`Ledger.Succeed`) only while the
request's own socket is established, and with that socket's address, and with a refusal (`Ledger.FailOn`) only while that socket
is closed; the ledger keeps the sighting. A single sender may be let go unused only if its receiver is gone (`Ledger.Drop`).
Answers, acceptances, times, closed receivers and text parsers are arbitrary; ghost fields record what was observed of them
(`answers`, `barren`, `refused`, `gone`, `present`, `seen`, `broken`, `trouble`), and the statements refer to those. A client's stream may
break at any read or write, and run out of time while the handshake's time is running; what has gone wrong is on record
(`ByteStream.trouble`), so that nothing can be left undone on a stream with which nothing is wrong.

Two findings about the code, each with its proof:
- Start and stop do not always agree with the worker when callbacks overlap. `Protocol.ConcurrentStopBreaksAgreement` is a run of
  four events in which a stop comes between a start's taking its generation and its announcement, and is lost: the start goes
  through, and when all is over the tunnel is closed but the worker has an engine. `Protocol.AgreementIff` is the exact condition
  over all runs, in terms of their events: once no start is under way the two sides agree if and only if the last announcement
  was made while its start was the latest and not stopped, or nobody was left to act on it, or its engine has been taken away
  again (a stop of that generation, its own withdrawal, a failed step of its engine, a shutdown). `System.AgreedIff` says the same
  of the real worker and the real tunnel. Packet isolation needs no such assumption.
- Deduplicating DNS servers removes consecutive repeats only: servers given as a, b, a are accepted as a, b, a
  (`SettingsModel.RepeatedServerStays`); `SettingsModel.ServersDistinctIff` says for which options the accepted servers have no
  repeats at all.

## Model

| member | source | states |
|---|---|---|
| Vectors.SwapRemoveMembers | src/netstack.rs:503-557 | `swap_remove` loses the entry at the index and no other |
| Vectors.WalkAccounts | src/netstack.rs:499-562 | at every point of a walk, entries seen and entries ahead are those there were plus those pushed back, as multisets |
| Vectors.WalkCovers | src/netstack.rs:499-551 | a finished walk has seen every entry present at the start and every entry pushed back, each once, and left exactly those it kept |
| Tables.WorkShrinks | src/netstack.rs:499-551 | the measure (one per entry ahead, one more per remaining fallback) falls with every iteration, push-back included |
| Tables.PassedStayWanted | src/netstack.rs:499-551 | a lookup the walk has passed stays in place, pending and in time while a later one is handled |
| Tables.AheadAfter | src/netstack.rs:552-562 | after an iteration of the flow walk the entries ahead are those that were ahead, without the one handled, wherever `swap_remove` has moved them |
| Tables.LookupRemoved | src/netstack.rs:503-522 | taking a lookup out and freeing its slot keeps occupied slots equal to held handles |
| Tables.LookupAdded | src/netstack.rs:423-535 | parking a lookup on a fresh slot keeps occupied slots equal to held handles |
| Tables.FlowRemoved | src/netstack.rs:557-558 | removing a flow with its socket keeps the socket set equal to the DNS socket plus one socket per flow |
| Tables.FlowAdded | src/netstack.rs:479-491 | adding a flow on a fresh handle keeps that equality and all flows' sockets, pipes and ports apart |
| Tables.PlacedAnswered | src/netstack.rs:588-602 | answering the request of a flow moves it from waiting to settled and touches no other request |
| Ports.SkippedWasLive | src/netstack.rs:454-460 | a port skipped within a lap of a pick was already live at that pick |
| Ports.LapCount | src/netstack.rs:454-460 | within a lap every port looked at is picked or counts as one distinct skipped port |
| Ports.ReuseDistance | src/netstack.rs:384-460 | between two picks of the same port at least 16384 minus the limit other picks happen |
| Ports.SearchBound | src/netstack.rs:454-460 | as long as every port looked at was taken, fewer were looked at than are taken |
| Ports.SearchEndsIffPortFree | src/netstack.rs:454-460 | from any position the search finds a free port if and only if fewer than 16384 are taken |
| FlowModel.Flow.Answer | src/netstack.rs:576-610 | the requester is asked first, and one that has gone leaves the reply unused; otherwise the reply is used at most once: timeout, refusal or success by the state seen now; success only for an established socket before the deadline, with the flow's own address |
| FlowModel.Flow.DeliverOnce | src/netstack.rs:616-635 | one round moves a nonempty piece from socket to pipe in order, or nothing |
| FlowModel.Flow.Deliver | src/netstack.rs:615-636 | what was written only grows by what was received next; it stops only when empty, blocked, failed or after 64 rounds |
| FlowModel.Flow.SignalEnd | src/netstack.rs:637-646 | end-of-stream is signalled only when nothing more can arrive and everything received has been written |
| FlowModel.Flow.CollectOnce | src/netstack.rs:651-674 | one round moves a nonempty piece from pipe to socket in order; the socket is closed only at the pipe's true end of file |
| FlowModel.Flow.Collect | src/netstack.rs:647-675 | what was enqueued is what was read from the pipe; half-closing leaves receiving alone |
| FlowModel.Flow.Pump | src/netstack.rs:615-676 | both directions go as far as they can; afterwards the flow is kept exactly if its socket is not closed, and an abort has a broken pipe behind it |
| FlowModel.Flow.Poll | src/netstack.rs:569-677 | both stream invariants in every outcome; monotone half-close flags; who is answered what, on which sighting of the socket, and nobody who has gone; progress of each direction, 64 rounds or until nothing more can be moved; an open flow kept was active less than the idle timeout ago; kept exactly if the socket is not closed, and given up only for idleness, a passed deadline, a broken pipe, a socket closed by itself or a requester that has gone |
| FlowModel.Flow.EndToEnd | src/netstack.rs:615-675 | what the client has read is a prefix of what the peer sent, and the other way round; all of it once the flags are set |
| EvidenceModel.JustifiedLater | src/netstack.rs:392-677 | an outcome that was called for stays so whatever is observed afterwards |
| EvidenceModel.JustifiedMore | src/netstack.rs:392-677 | one more outcome that is called for leaves all of them so |
| EngineModel.Engine.constructor | src/netstack.rs:332-390 | a new engine satisfies the whole invariant, holds no request, has the settings, limit and timeouts it was given, and starts its cursor in range |
| EngineModel.Engine.LookAtPort | src/netstack.rs:455-457 | the cursor moves on cyclically; a port is taken exactly if a live flow has it |
| EngineModel.Engine.PickPort | src/netstack.rs:454-460 | the search ends, with the first port from the cursor on that no live flow uses, between 49152 and 65535 |
| EngineModel.Engine.OpenFlow | src/netstack.rs:454-491 | the request gets one new flow whose own new socket connects to the given address and port, still waiting, or the stack's refusal |
| EngineModel.Engine.ConnectIp | src/netstack.rs:439-492 | network unreachable exactly for a family without an assigned address, invalid input for port 0, unspecified and multicast addresses; any other address gets a flow, or the stack's refusal, which is on record |
| EngineModel.Engine.StartLookup | src/netstack.rs:418-535 | a query started is parked with its fresh handle and counted; a refused one changes nothing |
| EngineModel.Engine.LookUp | src/netstack.rs:403-435 | a name is parked on an A query, or AAAA if only IPv6 is assigned, with AAAA as fallback exactly if both are; it fails only without servers or if that question has been refused |
| EngineModel.Engine.Connect | src/netstack.rs:392-437 | the request is taken up, as what was asked for and under one deadline, unless its requester has gone or the limit is reached; taken up, it is parked here, or settled with the error its target calls for and with the evidence for it; no other request moves |
| EngineModel.Engine.ExpireLookup | src/netstack.rs:502-511 | a lookup that has expired, or whose requester has gone, loses its slot and its request times out |
| EngineModel.Engine.ReadResult | src/netstack.rs:513-522 | one reading, of the lookup's own held slot; a final result frees it and takes that lookup out; the addresses are answers to the question that slot was asking, and a result without address goes on record for that question |
| EngineModel.Engine.AskAgain | src/netstack.rs:526-548 | the fallback question is asked once, under the same deadline; not found only if there is none or it is refused |
| EngineModel.Engine.Resume | src/netstack.rs:523-548 | the flow opened goes to the first address of the result and the lookup's port, or that address's error is given; without an address the fallback is asked, and not found needs it refused or absent |
| EngineModel.Engine.StepLookup | src/netstack.rs:500-550 | the requester is asked first, and a lookup is kept or pushed back only if it is still there; the lookup leaves the table only if its requester is gone or its deadline has passed, and then times out, or on a final result just read for its slot, which decides what becomes of it; no other request is touched |
| EngineModel.Engine.PollLookup | src/netstack.rs:513-550 | a lookup still wanted is read exactly once and kept exactly if its result is pending |
| EngineModel.Engine.StepLookups | src/netstack.rs:499-551 | the walk ends, looks at every lookup and every pushed-back one exactly once, and what is left is pending, before its deadline, and its requester has been found present in this round |
| EngineModel.Engine.PollFlow | src/netstack.rs:554-556 | the flow is polled exactly once and kept exactly if its socket is not closed afterwards; kept and open it has moved what it could in both directions, not kept it has an excuse; a request that stops waiting has an outcome that was called for, or is dropped with its requester gone; other flows are untouched |
| EngineModel.Engine.StepFlow | src/netstack.rs:553-561 | one iteration polls the flow under the index once and keeps or removes it, with its socket, by that poll's answer |
| EngineModel.Engine.StepFlows | src/netstack.rs:552-562 | every flow present has been polled exactly once and is still in the vector exactly if its socket is not closed; if so it has time left and, once open, has moved what it could in both directions, if not it has an excuse |
| EngineModel.Engine.Step | src/netstack.rs:494-565 | the invariant holds, justified outcomes included; every flow has been polled exactly once and those gone have an excuse; nothing parked is past its deadline or without a requester found present, no open flow idle too long; requests parked before are parked still or settled; of the device's packets only the oldest may have been used up |
| EngineModel.Engine.OutcomesAreJustified | src/netstack.rs:392-677 | whatever the engine has answered to a request it took up, at once or later, it was entitled to: timeout only past the deadline or with the requester gone, refusal only on the request's own socket closed in time, success only on that socket established in time and with its address, not found only without servers or with every question answered empty or refused, a drop only with the requester gone |
| EngineModel.Engine.OpenFlowsAreAnswered | src/netstack.rs:577-610 | in every state an open flow's request has been answered with a connection from that flow's own address on sight of that flow's own established socket, and a waiting flow's request has not been answered |
| EngineModel.Engine.ParkedAreAttended | src/netstack.rs:393-581 | in every state nothing is parked for a requester that has been found gone |
| EngineModel.Engine.Discard | src/netstack.rs:182-214 | destroying the engine drops every request parked in it, and none that was settled |
| EngineModel.Engine.SlotsAreExact | src/netstack.rs:418-538 | occupied DNS slots are exactly the lookups' handles, all different, each asking its own lookup's question |
| EngineModel.Engine.SocketsAreExact | src/netstack.rs:375-558 | the socket set is exactly the DNS socket and one distinct socket per flow; live flows have different local ports |
| EngineModel.Engine.DeadlineIsCarried | src/netstack.rs:400-533 | the deadline fixed at `connect` is that of every lookup and flow of the request; at most two DNS queries are issued for it |
| EngineModel.Engine.PortsAreReusedLate | src/netstack.rs:384-460 | at least 16384 minus the limit other ports are really picked by this engine between two picks of one port |
| Protocol.PacketIsolation | src/netstack.rs:196-209 | for every interleaving, what reaches an engine's device was sent under its own tunnel, and no generation belongs to two starts |
| Protocol.DeliveredInOrder | src/netstack.rs:196-210 | the device gets exactly the packets consumed since its engine was made that carry its generation, in the order accepted; the queue holds those accepted last, at most 1024 |
| Protocol.MatchingMeans | src/netstack.rs:196-210 | the packets of a generation are those at the positions that carry it, all of them, in increasing order |
| Protocol.EngineAsAnnounced | src/netstack.rs:183-186 | in every run the worker's engine has the settings with which its own tunnel was announced |
| Protocol.RequestsAsMade | src/netstack.rs:140-150 | in every run a request in the queue has the target and port it was made for |
| Protocol.RequestConservation | src/netstack.rs:181-215 | in every run each request is once in the queue, or parked, or settled, never in two of these; none outlives the worker unsettled |
| Protocol.AnsweredOnce | src/netstack.rs:140-150 | in every run, once a request has an outcome it keeps it and is never queued or parked again |
| Protocol.LosingTheEngine | src/netstack.rs:181-215 | a request parked in an engine that is replaced, taken offline, fails or ends is settled as "not connected", and nothing moves to a new engine |
| Protocol.WorkerKeepsOutlook | src/netstack.rs:181-215 | the worker by itself never changes which engine the queue leads to, except by losing it when the device fails |
| Protocol.AnnounceAgreesIff | src/vpn.rs:212-231 | announcing a start makes both sides agree if and only if that start is still the latest and has not been stopped |
| Protocol.OthersKeepAgreement | src/vpn.rs:232-253 | no other callback and no worker step breaks the agreement; after a stop the queue leads to no engine |
| Protocol.OthersKeepStart | src/vpn.rs:203-241 | a start under way is carried on by nobody but itself |
| Protocol.StartStopAgreement | src/vpn.rs:203-246 | with serialised callbacks, once no start is under way the queue leads to no engine, or to the latest started one with its tunnel open |
| Protocol.TimelyAgreement | src/vpn.rs:203-246 | the same for every run, overlapping callbacks included, in which each start is announced while it is the latest and not stopped |
| Protocol.AnnouncementLostIff | src/vpn.rs:225-246 | over every run: nothing is left of the last announcement if and only if the worker had gone or been told to go, or since then its generation was stopped while the latest, withdrawn, its engine failed, or the worker was shut down |
| Protocol.AgreementIff | src/vpn.rs:203-246 | over every run, once no start is under way: the two sides agree if and only if the last announcement was made in time, or nobody was to act on it, or one of the events that take its engine away has happened since |
| Protocol.StopEmptiesIff | src/vpn.rs:242-246 | a stop leaves nothing to come if and only if what there was is of the current generation |
| Protocol.StopDrains | src/vpn.rs:242-246 | after a stop that found at most an engine of its own generation to come, whatever else happens short of another announcement, there is no engine once the queue is empty |
| Protocol.OtherOfflinesAreHarmless | src/netstack.rs:187-189 | over whole runs, an engine survives any number of `Offline`s for other generations, queued or still to come, until it is itself stopped, withdrawn, replaced, shut down or fails |
| Protocol.ConcurrentStopBreaksAgreement | src/vpn.rs:212-246 | a run in which an overlapping stop is lost: no start is under way, the tunnel is closed, and the worker is left with the engine |
| ChannelsModel.Channels.Receives | src/netstack.rs:136-138 | a packet is queued exactly if it is short enough, there is room and the worker lives |
| ChannelsModel.Channels.Request | src/netstack.rs:140-150 | a request is queued, or dropped if the worker has gone |
| WorkerModel.Worker.GoOnline | src/netstack.rs:183-186 | the new engine is empty, owned by the new generation, with the command's settings and this worker's limit and timeouts; the old one's requests are dropped |
| WorkerModel.Worker.TakeOffline | src/netstack.rs:187-189 | the engine goes exactly if the generation is its own |
| WorkerModel.Worker.TakeConnect | src/netstack.rs:190-193 | with an engine the request has been received there, target and port as made: parked, or refused with evidence, at the limit, or with its requester gone; without one it fails; never answered with a connection at once |
| WorkerModel.Worker.TakeShutdown | src/netstack.rs:194 | the loop ends; everything parked or queued is dropped |
| WorkerModel.Worker.TakePacket | src/netstack.rs:196-201 | one packet is consumed and appended to the engine's real device exactly if it carries the engine's generation; nothing else of the device changes |
| WorkerModel.Worker.Drain | src/netstack.rs:205-210 | all waiting packets, but at most 256, are consumed, those of the engine's generation appended to its real device in order, and none without an engine |
| WorkerModel.Worker.Select | src/netstack.rs:181-204 | one command, one packet or neither is taken, as one step of the protocol; a request taken has been received by the engine as made; no flow and no packet has gone from an engine that stays |
| WorkerModel.Worker.RunEngine | src/netstack.rs:211 | the engine has taken its step: every flow polled once, nothing left that is past its deadline or idle too long; the requests parked before are parked still or settled, exactly |
| WorkerModel.Worker.StepEngine | src/netstack.rs:205-215 | the engine has taken its step and is gone exactly if its device has failed; of the packets of one that stays only the oldest may have been used up, by its stack; all as one step of the protocol |
| WorkerModel.Worker.OthersKeepMirrors | src/netstack.rs:119-150 | nothing the callbacks and requesters do moves the worker |
| WorkerModel.Worker.OthersActed | src/netstack.rs:119-150 | after any event of the others the worker's invariant still holds, in the same phase, a request made of a worker that has gone included |
| WorkerModel.Worker.IncomingIsOwn | src/netstack.rs:196-209 | every packet in the real device was sent under the engine's own tunnel |
| WorkerModel.Worker.DeviceHasTheRest | src/netstack.rs:196-210 | the real device holds, in order, exactly the packets consumed since the engine was made that carry its generation, but for the oldest ones, which its stack has used up |
| WorkerModel.Worker.RequestsAccounted | src/netstack.rs:181-215 | every request is in exactly one of the real queue, the real engine's tables and the settled ones |
| VpnModel.ConfiguredMtuBounds | src/vpn.rs:192-211 | the configured MTU bounds every start from above, whatever its options say, and without one every start is rejected |
| VpnModel.UserspaceVpn.Begin | src/vpn.rs:212-224 | a start gets a generation of its own and becomes the current tunnel |
| VpnModel.UserspaceVpn.Activate | src/vpn.rs:232-240 | a start that cannot be activated takes its own generation offline again |
| VpnModel.UserspaceVpn.Start | src/vpn.rs:203-241 | rejected options change nothing; otherwise generation, announcement and activation or withdrawal happen in this order, with others before and in between |
| VpnModel.UserspaceVpn.Stop | src/vpn.rs:242-246 | the tunnel is closed and its current generation sent offline |
| VpnModel.UserspaceVpn.Send | src/vpn.rs:250-253 | a packet is accepted exactly with an open tunnel, short enough, with room and a worker, and then carries the current generation |
| SystemModel.System.constructor | src/netstack.rs:74-101 | queues, callbacks and worker start in agreement with each other and with the initial protocol state |
| SystemModel.System.StartReads | src/vpn.rs:203-211 | a start goes on with the settings its options mean, or not at all |
| SystemModel.System.StartBegins | src/vpn.rs:212-224 | a start takes a fresh generation as one protocol event, keeps its settings, moves no other start and leaves the worker alone |
| SystemModel.System.StartAnnounces | src/vpn.rs:225-231 | a start's announcement, made whenever the scheduler lets it, is one protocol event, moves that start only and leaves the worker alone |
| SystemModel.System.Iterate | src/netstack.rs:180-216 | one iteration of the loop adds to the run a selection, then unless that ended the loop a drain and a step, with only other sides' events in between; an engine left then has no failed device, nothing past its deadline and no open flow idle too long, and if it was there before, each of its flows has been polled exactly once and its device has lost only packets used up by its stack; both sides' invariants hold |
| SystemModel.System.Run | src/netstack.rs:156-216 | any schedule of callbacks, requesters and iterations keeps the whole system's invariant |
| SystemModel.System.IncomingIsOwn | src/netstack.rs:196-209 | under any schedule every packet in the real device was sent under the engine's own tunnel |
| SystemModel.System.DeviceHasTheRest | src/netstack.rs:196-210 | the same under any schedule of callbacks, requesters and worker |
| SystemModel.System.EngineAsAnnounced | src/netstack.rs:183-186 | under any schedule the real engine has the settings with which its tunnel was announced, and holds no more requests and flows than the worker's limit |
| SystemModel.System.RequestsAccounted | src/netstack.rs:140-215 | under any schedule every request is in exactly one of the real queue, the real engine and the settled ones |
| SystemModel.System.TimelyStartsAgree | src/vpn.rs:203-246 | with starts announced in time and none under way, an engine left with an empty queue has the generation the callbacks hold, and their tunnel is open |
| SystemModel.System.AgreedIff | src/vpn.rs:203-246 | the exact condition for that, about the real queue, worker and tunnel and the events of the run |
| SystemModel.System.StopLeavesNoEngine | src/vpn.rs:242-246 | after a stop that found both sides in agreement and without a later announcement, the real worker has no engine once its queue is empty |
| SystemModel.System.SuccessMeansEstablished | src/netstack.rs:577-610 | under any schedule a request has been answered with a connection only on sight of its own established socket, and with that socket's address |
| SystemModel.System.ClientsReadTheTruth | src/socks.rs:58-73 | under any schedule a client that reads code 0 for its settled request reads its own established socket's address |
| Socks.RoundTrip | src/socks.rs:78-143 | every encoded CONNECT to an acceptable target and nonzero port, with a method list offering no-auth, is accepted as itself, with 05 00 written and no byte after it consumed |
| Socks.AcceptedWasEncoded | src/socks.rs:78-143 | whatever is accepted is such an encoding, byte by byte |
| Socks.AcceptedIffEncoded | src/socks.rs:78-143 | a stream is accepted as a request if and only if it begins with an encoding of that request |
| Socks.VerdictIsFinal | src/socks.rs:78-143 | a verdict does not depend on later bytes; without one all bytes have been read |
| Socks.OutputShape | src/socks.rs:84-141 | what is written is nothing, the method choice, or the choice and one error reply whose code tells the reason |
| Socks.ReplyReadsBack | src/socks.rs:145-164 | a reply decodes, per section 6 of RFC 1928, to its code and address whatever follows |
| SocksLaws.EveryStream | src/socks.rs:78-164 | every stream there is, byte by byte: it is answered exactly if it begins with a bad greeting (nothing written), a method list without no-auth (05 FF), or 05 00 and then a bad version or reserved byte (code 1), a command other than CONNECT (7), an address type outside 1, 3, 4 (8), a bad name (4), port zero (1), or an acceptable address and port; exactly those bytes are read, and every other stream is read to its end |
| SocksLaws.FormDecides | src/socks.rs:78-143 | each of those forms has its verdict and its bytes written back, whatever follows it |
| SocksLaws.CommandRefused | src/socks.rs:103-106 | any command but CONNECT, BIND and UDP ASSOCIATE included, is refused with code 7 |
| SocksLaws.PortLaw | src/socks.rs:107-142 | an acceptable address of each type is accepted as itself with the port's high byte first, and refused with code 1 for port zero |
| SocksLaws.ReplyLayout | src/socks.rs:145-164 | a reply is version, code, zero, address type, address and port, high byte first |
| ProxyModel.ByteStream.ReadExact | src/socks.rs:82-137 | exactly the next bytes, however they come in; on failure no more than those, and then the client has stopped or the failure is on record |
| ProxyModel.ByteStream.WriteAll | src/socks.rs:90-163 | all of the bytes, or a prefix with the failure on record |
| ProxyModel.SendReply | src/socks.rs:145-164 | the bytes built step by step are the reply, and are written in full, or as a prefix with the failure on record |
| ProxyModel.ReadAddress | src/socks.rs:107-142 | address, name and port as their bytes mean, for any fragmentation, or a part of that with the failure on record |
| ProxyModel.ReadRequest | src/socks.rs:97-142 | the request phase as its bytes mean, or a part of that with the failure on record |
| ProxyModel.ReadMethods | src/socks.rs:87-96 | the method choice, and then the request phase, or a part of that with the failure on record |
| ProxyModel.Handshake | src/socks.rs:78-143 | for any fragmentation, and with no failure on record, the handshake comes to exactly what the bytes mean, in result, bytes consumed and bytes written; a failure it reports is on record, and it has done a part of that |
| ProxyModel.EncodedRequestIsServed | src/socks.rs:78-143 | an encoded request in any pieces is returned exactly, with 05 00 written and the payload unread; anything else needs a failed or late operation on record |
| ProxyModel.HandshakeByBytes | src/socks.rs:78-143 | on a healthy stream that begins in one of the forms of `SocksLaws`, the handshake's result, the bytes written and the bytes left are those of the form |
| ProxyModel.SuccessIffConnected | src/socks.rs:58-73 | a client reads success exactly if the tunnel's answer is a connection, and then its local address; code 3 exactly for network unreachable or not connected, 4 for not found, host unreachable or timed out, 5 for refused, 1 for anything else |
| ProxyModel.CodeZeroMeansEstablished | src/socks.rs:58-73 | a client reads code 0 exactly if its own request's outcome is a connection, and then that request's own socket was established and has the address read; a request that was dropped reads as code 3 |
| ProxyModel.AnswerClient | src/socks.rs:58-73 | one reply, which the settled outcome of this client's own request decides, written in full unless a write has failed; relaying only after a success reply in full |
| ProxyModel.Admit | src/socks.rs:55-58 | a request is made exactly when the handshake accepts one, for exactly the target and port it names; only the handshake is timed |
| ProxyModel.Handle | src/socks.rs:51-76 | the tunnel is asked exactly when the handshake accepts, for exactly its target; with no failure on record the one reply is written in full, that of the request's settled outcome; a reply is cut short only by a broken stream; relaying begins only if the request's own socket was established, whose address the reply names |
| SettingsModel.ParseServers | src/settings.rs:38-43 | all addresses of a line in order, or failure exactly if one does not parse |
| SettingsModel.ParseLine | src/settings.rs:25-49 | a line complains, or changes only the aspect it is about |
| SettingsModel.Parse | src/settings.rs:15-89 | the loop computes the meaning of the text: first complaint, else last addresses, collected or overridden servers and least MTU, checked |
| SettingsModel.AcceptedIsUsable | src/settings.rs:54-88 | accepted settings have an address, an MTU in 576..9000 (1280 and more with IPv6), plain addresses, and only servers of assigned families |
| SettingsModel.CheckIsIdempotent | src/settings.rs:54-88 | checking accepted settings again accepts them unchanged |
| SettingsModel.LeastIsMinimum | src/settings.rs:45-47 | the MTU is the minimum of the base and all values given |
| SettingsModel.MtuIgnoresOrder | src/settings.rs:45-47 | the MTU depends only on which lines there are, not on their order |
| SettingsModel.ComplaintIgnoresOrder | src/settings.rs:25-49 | whether the text parses does not depend on the order of the lines |
| SettingsModel.LastAssignmentWins | src/settings.rs:26-32 | the address is that of the last line assigning one |
| SettingsModel.DnsOfConcat | src/settings.rs:33-44 | servers are collected in the order of the lines |
| SettingsLaws.Acceptance | src/settings.rs:15-89 | by the words of the lines: the last three-word `ifconfig` and `ifconfig-ipv6` lines decide the addresses (the latter by what comes before the slash), the least `tun-mtu` the MTU, and the `dhcp-option DNS`, `DNS6` and `dns server _ address` lines or a nonempty override the servers; accepted exactly if there is an address, the MTU is in range and all addresses are neither unspecified nor multicast; servers of unassigned families are left out |
| SettingsLaws.LinesSay | src/settings.rs:25-49 | what that law asks for is said by any lines |
| SettingsLaws.UnreadableLine | src/settings.rs:25-49 | the first line one of whose texts cannot be read decides the complaint, by what kind of line it is |
| SettingsLaws.ServersOfWords | src/settings.rs:33-44 | the servers of each kind of line are those of its own words |
| SettingsLaws.ServersInOrder | src/settings.rs:38-43 | servers stand in the order of their words |
| SettingsLaws.RetainConcat | src/settings.rs:86 | filtering by family keeps the order of the servers |
| SettingsLaws.BeforeSlashIs | src/settings.rs:30 | the address is the text before the first slash |
| SettingsModel.ServersDistinctIff | src/settings.rs:85-87 | the servers of accepted options are all different if and only if equal ones of assigned families stood together |
| SettingsModel.RepeatedServerStays | src/settings.rs:38-87 | concrete options on which it fails: servers a, b, a are accepted as a, b, a |
| DedupModel.DedupMembers | src/settings.rs:87 | deduplication keeps the same servers and leaves no two equal neighbours |
| DedupModel.DedupUndone | src/settings.rs:87 | it removes repeats of neighbours and nothing else: repeating entries gives the original back |
| DedupModel.DistinctIffGrouped | src/settings.rs:87 | the result has no repeat at all if and only if equal servers stood together |
| DiagnosticsModel.EventCode | src/vpn.rs:114-125 | only a short symbolic code is ever shown |
| DiagnosticsModel.EventCodeIff | src/vpn.rs:114-125 | a name is shown as it is exactly if it is 1 to 80 ASCII capitals, digits and underscores |
| DiagnosticsModel.ContainsIff | src/vpn.rs:167-170 | a phrase is found exactly if it stands somewhere in the text |
| DiagnosticsModel.CertificateTroubleIff | src/vpn.rs:166-171 | certificate trouble is one of three phrases anywhere in the text, whatever its case |
| DiagnosticsModel.ReasonMeans | src/vpn.rs:72-80 | each explanation is given exactly for its event and what was heard and logged before |
| DiagnosticsModel.ExplainsOne | src/vpn.rs:59-81 | a trace explains at most one failure |
| DiagnosticsModel.FailureAppend | src/vpn.rs:59-81 | one more notice: a failing event gives its reason in the light of what came before, a clean CONNECTED clears it, anything else leaves it |
| DiagnosticsModel.CertificateAppend | src/vpn.rs:68-171 | a certificate failure counts until the next CONNECTED |
| DiagnosticsModel.ReconnectForgets | src/vpn.rs:65-70 | after a clean reconnect nothing that failed before is mentioned |
| DiagnosticsModel.Diagnostics.Record | src/vpn.rs:59-81 | each field still says of the whole trace what its name promises |
| DiagnosticsModel.Diagnostics.Log | src/vpn.rs:162-175 | likewise for a log line |
| DiagnosticsModel.Diagnostics.WasConnected | src/vpn.rs:93-95 | true exactly if some CONNECTED was recorded |
| DiagnosticsModel.Diagnostics.SessionEnd | src/vpn.rs:97-111 | the last failure at or since the last CONNECTED, else a certificate failure since then, else the status code |
| Wakeup.SafeRun | src/vpn.rs:59-91 | in every interleaving a waiter about to sleep, or asleep, has its wake-up stored or on the way once the flag is set |
| Wakeup.NoLostWakeup | src/vpn.rs:59-91 | no wake-up is lost, and the waiter returns only once connected |
| Wakeup.FewStepsLeft | src/vpn.rs:83-91 | once connected the save task takes at most seven more steps in any run |
| Wakeup.ShutdownCutsNoSave | src/main.rs:329-335 | a stopped save task has not begun to save and never connected; at exit the password has been saved exactly if the session was ever connected |
| Wakeup.AwaitedSaveFinishes | src/main.rs:292-335 | once the main task waits for the save task, that needs no one else and has saved after at most seven steps of its own, and the program can exit |

## Left out

- The TCP/IP and DNS code of smoltcp, the runtime and `copy_bidirectional` of Tokio, crossbeam's channels and OpenVPN Core: libraries, represented by the contracts above.
- What a flow still owes when its socket is found `Closed` (src/netstack.rs:676): the code gives the flow up, so only the prefix properties hold there, and those are proved.
- The duration types and the wall clock: time is a natural number that never goes back.
- The 20 ms poll interval and the `StackWake` channel (src/netstack.rs:156-203): the worker may wake at any time.
- Addresses and routes given to the interface in `Engine::new` (src/netstack.rs:340-372), Nagle and keep-alive settings.
- Wrap-around of the 64-bit generation, which takes 2^64 starts; generations are natural numbers.
- Splitting option text into lines and words, and the standard library's address and number parsers: the parsers are parameters, any total functions.
- `serve` (src/socks.rs:18-49): accepting connections, the permits that limit their number, and joining the tasks.
- That the handshake's time limit (src/socks.rs:55) is enforced: while it runs an operation may come too late, but none has to.
- `copy_bidirectional` after the success reply (src/socks.rs:74); the pipe's client end may read and write at any time.
- `apply_push_update`, `info` and `transport_contact` (src/vpn.rs:127-139, 254-261): one-branch reporting.
- Wording of messages; a failure is represented by its reason.
- src/main.rs apart from the save task, src/update.rs, src/connect.rs, src/connect/password.rs, install.sh and scripts: command line, files, network and process plumbing.
- Protocol.PacketIsolation: a packet carries the session it was sent under as a label the source does not have; only the statement needs it.
- ProxyModel.Handle: waits for the outcome in one step, in which the others may do anything that keeps the queues and the ledger sound; that they do act is `System`'s matter, and that an outcome comes at all is not stated.
- Wakeup.NoLostWakeup: one waiter, as in the source; a second one could take the only permit.
