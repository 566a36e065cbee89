# Verification of the packet pipeline

A Dafny model of the concurrent core of `bevy_slinet`, a networking crate for Bevy, with machine-checked
proofs of what it keeps over every input, every run and every interleaving. `dafny verify dfyconfig.toml`
checks all of it.

What the modules are about, and how they build on each other:

- `LossyQueue` is the bounded queue (items and bytes, drop newest or oldest, protected items). Its locked
  sections are functions; `SharedQueue` runs the source's loops in place and is proved to compute them.
- `Wakeups` interleaves the queue's locks, notifications and parking. `Notify` is a stored permit, a counter
  of broadcasts and the waiters.
- `Pipeline` is one endpoint: connect, reader and writer tasks, arriving datagrams, user disconnects and ECS
  frames, as steps in any order. `PipelineTrace`, `PipelineConservation`, `PipelineOrder` and `PipelineProgress`
  hold what every run of it keeps, `PipelineDelivery` what it does: who is handed over, who is charged, and that
  datagrams and closures get through from every reachable state. `EcsFrame` and `ReadHalf` are the loops of the ECS systems and of the UDP read half, each
  proved to be a run of those steps.
- `Outgoing` follows every accepted packet through the outgoing queue and the writer task to its one fate.
- `PeerRegistry` is the UDP listener: routing by address, replacement of closed peers, slots, drop counters.
- `Pacing` is the datagram pacer and its rate bound.
- `LengthCodec`, `Framing` and `XorCodec` are the length prefixes, the framing over a byte stream and the
  stateful XOR codec.
- `Sessions` and `Agreement` are the application session protocol of the UDP example: the server's tables and
  the client's requests over a network that loses, duplicates and reorders.
- `StreamDrain` is the one FIFO of stream transports and the registry it drives.

Two promises turn out to need a condition; both are proved exactly, with a run that shows why.

- A writer error that ends a connection is the reported cause of its closure if and only if the writer
  reported it before the reader's last look (`PipelineTrace.CausePreserved`). The reader can fail by itself,
  look, and be overtaken by the writer before it raises cancellation: then the closure carries the reader's own
  error (`PipelineProgress.LateReportRun`). It is never reported as an intentional disconnection.
- An address never has two open peers if registrations are dropped only after their peer is closed
  (`PeerRegistry.OneOpenPeerPerAddress`). Read halves see to that; a stream dropped before it is split does not,
  and then a datagram that arrives between its removal from the map and its cancellation opens a second peer
  exactly if it can be queued and given a slot (`PeerRegistry.TwinExactlyWhen`, `PeerRegistry.TwoOpenPeers`).

## Model

| member | source | states |
|---|---|---|
| `LossyQueue.EvictionIsMinimal` | src/connection/queue/lossy.rs:91-124 | under drop-oldest an item is admitted exactly when some fully evictable prefix makes room; what leaves is the shortest prefix that makes room; a refusal changes nothing |
| `LossyQueue.DropNewestNeverEvicts` | src/connection/queue/lossy.rs:91-124 | under drop-newest an item is admitted exactly when it fits, and nothing queued is touched |
| `LossyQueue.TrySendExactly` | src/connection/queue/lossy.rs:81-125 | a non-waiting send without protected items, in full: refused as closed exactly if closed; admitted exactly if it can ever be queued and there is room or the oldest may go; with room it evicts nothing |
| `LossyQueue.SendExactly` | src/connection/queue/lossy.rs:129-147 | one pass of a waiting send goes through exactly if the queue is open with room, and never evicts |
| `LossyQueue.TryRecvExactly` | src/connection/queue/lossy.rs:226-241 | the front item is taken exactly if there is one and it is ready; the end is reported exactly when nothing can come any more; otherwise nothing changes |
| `LossyQueue.ClosedForGood` | src/connection/queue/lossy.rs:180-190 | closing hands out everything in order; afterwards every send is refused as closed and every receive reports the end |
| `LossyQueue.AdmissionOrder` | src/connection/queue/lossy.rs:96-124 | evicted items followed by the new contents are the old contents followed by the new item |
| `LossyQueue.OfferKeeps` | src/connection/queue/lossy.rs:81-125 | a non-waiting send keeps the exact byte total, both bounds and emptiness after closing |
| `LossyQueue.TryRecvKeeps` | src/connection/queue/lossy.rs:226-241 | a receive keeps the bounds and the byte total, and what it takes is the front of what was queued |
| `LossyQueue.HistoryTheorem` | src/connection/queue/lossy.rs:81-241 | over every sequence of operations, accepted items are the departed ones in departure order followed by the contents; bounds hold, the byte total is exact, a closed queue is empty |
| `LossyQueue.HistoryRecords` | src/connection/queue/lossy.rs:49-241 | an item is recorded as accepted exactly by a send that went through, as departed exactly when received, evicted or drained |
| `LossyQueue.ScanOldest` | src/connection/queue/lossy.rs:96-110 | the scan finds the shortest prefix that makes room, or the first protected item within it |
| `LossyQueue.SharedQueue.EvictOldest` | src/connection/queue/lossy.rs:95-118 | evicts the shortest sufficient prefix, or nothing at all if one of its items is protected |
| `LossyQueue.SharedQueue.TrySendWhere` | src/connection/queue/lossy.rs:81-125 | computes the admission function in place; the last capacity check cannot fail under drop-oldest |
| `LossyQueue.SharedQueue.SendPass` | src/connection/queue/lossy.rs:129-147 | the entry check and one pass of the waiting send; it parks exactly on an admissible item that does not fit |
| `LossyQueue.SharedQueue.TryRecvIf` | src/connection/queue/lossy.rs:226-241 | the conditional receive in place takes the front item exactly if it is ready, byte total included |
| `Wakeups.NotifyOneKeeps` | src/connection/queue/lossy.rs:122-123 | a single notification adds one wakeup while somebody is unnotified, otherwise it is stored |
| `Wakeups.LeaveKeeps` | src/connection/queue/lossy.rs:134-152 | a waiter that leaves hands on the notification it had received and spends at most the wakeup it consumed |
| `Wakeups.EnableKeeps` | src/connection/queue/lossy.rs:135-137 | arming a wait consumes a stored permit only when nobody else is left waiting |
| `Wakeups.InvHolds` | src/connection/queue/lossy.rs:49-58 | the wakeup invariant holds in every interleaving |
| `Wakeups.NoLostWakeups` | src/connection/queue/lossy.rs:122-211 | a parked receiver with an item, or without senders, has a notification about to be issued, and none stays parked on a closed queue; while senders are parked, free slots never outnumber wakeups in flight; closing wakes everybody |
| `Wakeups.QuiescentMeansNothingToDo` | src/connection/queue/lossy.rs:129-211 | when nothing is in motion, a parked receiver faces an empty open queue with senders, a parked sender a full open queue |
| `Wakeups.ReceiverIsServed` | src/connection/queue/lossy.rs:199-211 | from every reachable state a receiver parked with an item queued can receive the oldest, and one parked after the last sender is gone can return |
| `Wakeups.SenderIsServed` | src/connection/queue/lossy.rs:129-153 | from every reachable state, while a sender is parked and a slot is free, some sender can queue its item |
| `Wakeups.ClosedSenderReturns` | src/connection/queue/lossy.rs:140-143 | from every reachable state a sender waiting on a closed queue can return |
| `Wakeups.CloseTakesEffect` | src/connection/queue/lossy.rs:180-189 | closing empties and closes the queue at once and has both sides woken |
| `PipelineTrace.LifecycleTrace` | src/client.rs:524-599 | in every run each connection's events are a prefix of Established, Packet*, Closed, although lifecycle and packets use different queues |
| `PipelineTrace.InvHolds` | src/client.rs:418-441 | the trace invariant behind it: what is shown followed by what is on its way has that shape, and packets in the ECS queue come from announced connections |
| `PipelineTrace.StepKeeps` | src/server.rs:478-555 | every step of every task, the network, the user and the frame keeps that invariant |
| `PipelineTrace.CauseHolds` | src/connection/tasks.rs:74-97 | the invariant tying report, cancellation and cause together, in every interleaving of reader and writer |
| `PipelineTrace.CausePreserved` | src/client.rs:550-594 | if a failed writer raised the cancellation, the closure is never reported as intentional and carries the writer's error exactly when it was reported before the reader's last look; otherwise it is the reader's own error |
| `PipelineProgress.LateReportRun` | src/server.rs:537-548 | a concrete run in which the writer's report comes too late to be the cause |
| `PipelineProgress.QueuedPacketsAreCovered` | src/client.rs:632-638 | every packet in the ECS queue has a connection that is published, cancelled, or has its establishment on the way |
| `PipelineProgress.PublishedInTime` | src/client.rs:657-677 | an establishment at position p is published once frames times budget exceeds p, whatever happens in between |
| `PipelineProgress.NoPermanentStall` | src/client.rs:626-655 | once the frames cover the lifecycle messages queued now, every packet queued now is removable |
| `PipelineProgress.PacketsLeave` | src/client.rs:626-655 | after frames that cover the lifecycle messages queued now, further frames with budget for its position take every packet queued now out of the ECS queue, whatever the tasks do |
| `PipelineProgress.QueueRemains` | src/connection/queue/lossy.rs:226-241 | the ECS queue is at any later time what it was, without the packets that left from its front and with later ones behind |
| `PipelineConservation.IncomingConservation` | src/protocols/udp/stream.rs:336-369 | per connection and at every moment, received datagrams are those shown, dropped for each of the seven reasons, or still held in a queue, by the reader or in a command |
| `PipelineConservation.DepositBalance` | src/protocols/udp/peer.rs:83-108 | an arriving datagram is queued or charged, together with whatever it evicts |
| `PipelineConservation.ReaderBalance` | src/client.rs:550-599 | no step of the reader loses or invents a datagram, cancelled or not |
| `PipelineConservation.ChargeBalance` | src/connection/queue/mod.rs:255-268 | each eviction from the ECS queue is charged to the evicted packet's own connection |
| `PipelineConservation.StepBalance` | src/client.rs:634-653 | every step of the endpoint keeps the balance of every connection |
| `PipelineOrder.DeliveryInOrder` | src/client.rs:524-655 | at every moment of every run the packets shown, then deferred, then in the ECS queue, then in hand, then in the raw queue are those of distinct arrivals in order of arrival, and every other arrival is charged once or waits undecodable |
| `PipelineOrder.StepKeeps` | src/connection/queue/mod.rs:255-268 | every step of the endpoint keeps that selection for every connection; which packets are selected is given by the hand-over and arrival theorems below |
| `PipelineDelivery.ForwardExactly` | src/connection/queue/mod.rs:255-268 | in every run a packet handed over joins the ECS queue with no counter moved if it fits; otherwise the shortest sufficient prefix is evicted and charged, each packet to its own connection, or the packet alone is refused and charged |
| `PipelineDelivery.DepositExactly` | src/protocols/udp/peer.rs:83-108 | an arriving datagram is counted and then queued with no counter moved if it fits, queued after charging the shortest sufficient prefix, refused and charged as full, or charged as closed |
| `PipelineDelivery.TakenExactly` | src/client.rs:633-641 | a packet a frame takes is the front one; it is deferred, or charged to its own connection as closed before delivery if that is cancelled |
| `PipelineDelivery.CommandExactly` | src/client.rs:642-652 | a command shows its event unless it is a packet whose connection has been cancelled by then, which is charged instead |
| `PipelineDelivery.EndedExactly` | src/protocols/udp/stream.rs:41-49 | however a connection ends, what is left in its raw queue is charged to it as closed before delivery and the queue is closed |
| `PipelineDelivery.DatagramIsShown` | src/client.rs:550-655 | from every reachable state, a datagram that finds an idle reader and an empty ECS queue is shown by the next frame of any budget, right behind the lifecycle messages it covers |
| `PipelineDelivery.ClosureIsReachable` | src/client.rs:550-599 | no deadlock: from every reachable state between frames every announced connection can be brought to show its closure, whatever tasks and queues are doing |
| `PipelineDelivery.AnnouncementIsReachable` | src/client.rs:418-430 | from every reachable state between frames a connection about to announce itself can be shown |
| `PipelineDelivery.NewConnectionIsShown` | src/client.rs:418-430 | a connection can be made and shown from every reachable state between frames |
| `PipelineDelivery.LateDatagramIsCharged` | src/protocols/udp/peer.rs:83-89 | in every run a datagram that arrives once its connection is over is charged as closed before delivery and queued nowhere |
| `EcsFrame.FrameIsRun` | src/scheduling.rs:185-194 | a frame that nothing interrupts always completes and is a run of the step system |
| `EcsFrame.FrameShows` | src/client.rs:626-696 | such a frame shows exactly the lifecycle messages its budget covers, then exactly the packets it takes that are not cancelled, and stops taking only at its budget or at a packet that is not ready |
| `EcsFrame.DeferPacketsTakes` | src/server.rs:645-674 | the packets taken are a prefix of those waiting; the live ones are deferred in order |
| `EcsFrame.RunAllShows` | src/server.rs:611-643 | applying the commands shows all of them but the packets of connections cancelled by then |
| `EcsFrame.World.IncomingSystem` | src/client.rs:657-696 | the lifecycle loop defers the first messages up to the budget |
| `EcsFrame.World.ReceiveDatagramPackets` | src/client.rs:626-655 | the packet loop computes the budgeted drain, charging packets of cancelled connections |
| `EcsFrame.World.ApplyCommands` | src/client.rs:642-652 | the deferred commands run in order, rechecking cancellation |
| `EcsFrame.World.Update` | src/scheduling.rs:185-194 | one whole frame: lifecycle commands are applied before packets are taken |
| `ReadHalf.FirstAcceptable` | src/protocols/udp/stream.rs:336-369 | the receive loop returns the first acceptable packet unless the peer is found closed before it; everything before is charged for its own reason and everything behind stays, whichever way the loop ends |
| `ReadHalf.LoopIsRun` | src/protocols/udp/stream.rs:336-369 | the receive loop is a run of read steps of the endpoint, wherever it is interrupted |
| `ReadHalf.LoopIsReadOn` | src/protocols/udp/stream.rs:336-369 | what the loop does to queue and counters is what those read steps do |
| `ReadHalf.UdpReadHalf.Receive` | src/protocols/udp/stream.rs:336-369 | the loop in place computes that outcome, the closed check before every datagram and both error paths included |
| `ReadHalf.UdpReadHalf.Close` | src/protocols/udp/stream.rs:41-49 | dropping the tracked queue charges everything still queued as closed before delivery |
| `Outgoing.ExactlyOneFate` | src/connection/tasks.rs:75-97 | accepted packets = sent + oversized + socket errors + evicted + closed before delivery + queued + in flight + at most one whose error ended the writer |
| `Outgoing.FateIsWhatHappened` | src/protocols/udp/stream.rs:392-447 | over every run a packet has a final fate exactly if at some step that is what happened to it: sent iff a transmission succeeded while the writer held it, socket error iff one failed with the peer open, oversized iff it encoded beyond the limit, evicted iff it was in the way of an accepted one, closed early iff interrupted, aborted or drained, ended the writer iff any other error did |
| `Outgoing.SentIsTransmitted` | src/protocols/udp/stream.rs:392-411 | the sent counter is the number of successful transmissions in the schedule |
| `Outgoing.SubmitExactly` | src/connection/queue/mod.rs:84-108 | a submitted packet is refused without a count if the queue is closed, accepted exactly if it can be queued and there is room or the oldest may go, and otherwise counted as full |
| `Outgoing.FatesNeverChange` | src/connection/queue/mod.rs:84-108 | a packet that has ended is never counted again, and each counter counts exactly the packets with its fate |
| `Outgoing.NothingLeftBehind` | src/connection/queue/mod.rs:145-166 | once the writer is gone and its queue dropped, every accepted packet has a final fate |
| `Outgoing.EnabledStepsAreTaken` | src/connection/tasks.rs:75-97 | in every state of every run each enabled step can be taken, so the theorems about runs leave none out |
| `Outgoing.StepKeeps` | src/protocols/udp/stream.rs:392-447 | every step and every cancellation point of the writer keeps the accounting |
| `Outgoing.SettlePending` | src/connection/tasks.rs:75-91 | a dequeued packet is charged by its guard exactly if its fate is closed before delivery |
| `PeerRegistry.AtMostOneOpenPeer` | src/protocols/udp/listener.rs:63-108 | over every history an open peer is the map's entry for its address exactly if its registration is not being dropped, and at most one registration per address is open |
| `PeerRegistry.OneOpenPeerPerAddress` | src/protocols/udp/stream.rs:296-300 | over every history in which registrations are dropped only after their peer is closed, as read halves do, no address ever has two open peers |
| `PeerRegistry.TwinExactlyWhen` | src/protocols/udp/peer.rs:132-147 | in any reachable state, dropping a registration and taking a datagram from its address before the drop finishes leaves two open peers exactly if the dropped peer was open and the datagram could be queued and given a slot |
| `PeerRegistry.TwoOpenPeers` | src/protocols/udp/peer.rs:132-147 | an instance from the start: opened, dropped while open, replaced before the drop has finished |
| `PeerRegistry.PeersAreBounded` | src/protocols/udp/listener.rs:77-80 | map size ≤ registrations ≤ `max_peers`, and free slots account for the rest |
| `PeerRegistry.ReplacementSurvives` | src/protocols/udp/peer.rs:132-147 | dropping an old registration removes its own entry if it has one and never its replacement, whose state it leaves alone |
| `PeerRegistry.StreamsAreInOrder` | src/protocols/udp/listener.rs:67-71 | what a stream receives is an in-order subsequence of the datagrams from its own address |
| `PeerRegistry.PeerConservation` | src/protocols/udp/peer.rs:83-108 | over every history each datagram counted for a peer is taken by its stream, queued, or charged to exactly one counter |
| `PeerRegistry.AcceptedExactlyWhen` | src/protocols/udp/listener.rs:60-108 | a datagram opens a peer exactly when it is within the limits, none is open and a slot is free; the new stream starts with exactly that datagram |
| `PeerRegistry.DeliveredExactly` | src/protocols/udp/listener.rs:67-71 | over every history a datagram for an open peer is counted there and queued, queued with charged evictions, refused and charged, or charged as closed, by exact conditions; no other peer and nothing else changes |
| `PeerRegistry.ReadTakesFront` | src/protocols/udp/stream.rs:66-78 | a stream takes its datagrams from the front of its own queue, one at a time |
| `PeerRegistry.DropIsComplete` | src/protocols/udp/peer.rs:132-147 | a dropped stream leaves its peer closed, its queue closed, emptied and charged, its slot free and every other peer untouched |
| `PeerRegistry.ShutdownClosesAll` | src/protocols/udp/listener.rs:111-122 | a dropped listener leaves no route and every registration with a closed peer |
| `PeerRegistry.InvHolds` | src/protocols/udp/listener.rs:54-122 | the routing, ordering and accounting invariant, over all dispatch, close, read, drop and listener-drop sequences, with peers closed in the middle of a dispatch and drops interleaved |
| `PeerRegistry.UdpListener.Receive` | src/protocols/udp/listener.rs:54-109 | dispatch in place computes the registry function, also when the peer is closed between lookup and push, and keeps the routing invariant |
| `PeerRegistry.UdpListener.Push` | src/protocols/udp/peer.rs:83-108 | the push rechecks the closed flag, then queues or charges the datagram and whatever it evicts; only that peer changes |
| `PeerRegistry.UdpListener.Release` | src/protocols/udp/peer.rs:132-144 | the identity-checked removal, with the lock held |
| `PeerRegistry.UdpListener.Shutdown` | src/protocols/udp/listener.rs:111-122 | dropping the listener closes every mapped peer and clears the map |
| `Pacing.SpacingIsExact` | src/protocols/udp/pacing.rs:48-54 | the spacing is the least number of nanoseconds that pays for the bytes; no conversion saturates and the product does not overflow |
| `Pacing.SpacingIsMonotone` | src/protocols/udp/pacing.rs:48-54 | spacing is antitone in the rate and monotone in the bytes |
| `Pacing.RateBound` | src/protocols/udp/pacing.rs:19-45 | over every window of a run, the bytes sent before its last send never exceed the highest observed rate times the elapsed time, whatever idle gaps and live rate changes occur |
| `Pacing.DataPacer.Wait` | src/protocols/udp/pacing.rs:19-41 | a wait ends at once if there is no deadline or it has passed, otherwise exactly at the deadline of the rate last observed plus the timer's lateness, or with the close or the loss of the rate source that came first |
| `Pacing.DataPacer.Transmit` | src/protocols/udp/stream.rs:436-438 | waiting, sending and recording keep the log of sends paced |
| `LengthCodec.EndianRoundTrip` | src/serializers/packet_length_serializer.rs:65-91 | for every width, order and word size, encoding fails exactly above the maximum and decoding undoes it, whatever follows |
| `LengthCodec.EndianRejection` | src/serializers/packet_length_serializer.rs:67-74 | a failed encoding names the length and the limit |
| `LengthCodec.DigitAt` | src/serializers/packet_length_serializer.rs:60-94 | byte i of a little-endian prefix, and byte i from the end of a big-endian one, is digit i of the length in base 256 |
| `LengthCodec.EndianDecoding` | src/serializers/packet_length_serializer.rs:75-91 | a short prefix asks for exactly the missing bytes, a value above the machine word is rejected, any other decodes to the length it encodes |
| `LengthCodec.EndianIsLawful` | src/serializers/packet_length_serializer.rs:60-94 | the fixed-width codecs meet the law that framing needs |
| `Framing.ReadLengthRecovers` | src/protocols/framing.rs:159-189 | for any lawful codec the prefix loop recovers the length, in as many steps as the decoder asks for, and stops right behind it |
| `Framing.FrameRoundTrip` | src/protocols/framing.rs:128-155 | a frame within the limit yields its packet and is consumed exactly; beyond the limit reading stops right after the prefix |
| `Framing.StreamRoundTrip` | src/protocols/framing.rs:195-215 | reading the concatenated writes of any list of packets returns that list and consumes exactly those bytes |
| `Framing.SentExactly` | src/protocols/framing.rs:195-215 | a packet is written exactly if it and its length can be encoded, as the encoded length followed by the payload |
| `Framing.CutPrefix` | src/protocols/framing.rs:167-188 | a stream cut inside a prefix ends in end of stream |
| `Framing.TruncatedFrame` | src/protocols/framing.rs:140-154 | no proper prefix of a frame yields a packet |
| `Framing.MalformedFrame` | src/protocols/framing.rs:140-154 | a frame whose payload does not decode is consumed exactly and reported as such |
| `Framing.RejectedLength` | src/protocols/framing.rs:159-189 | a prefix the codec rejects is consumed and reported as a length error |
| `Framing.FramedWriter.Send` | src/protocols/framing.rs:195-215 | a send appends one whole frame or, if an encoder fails, nothing |
| `Framing.FramedReader.ReadPrefix` | src/protocols/framing.rs:159-189 | the loop in place reads what the specification reads and terminates |
| `Framing.FramedReader.ReceivePacket` | src/protocols/framing.rs:128-155 | outcome and remaining stream are those of the specification, error paths included |
| `XorCodec.RecoversExactlyWhenAligned` | src/serializers/custom_crypt.rs:65-71 | masking at two positions restores the data exactly when the positions agree modulo 256 or there is no data |
| `XorCodec.MaskIs` | src/serializers/custom_crypt.rs:65-71 | byte i of a message at position p is combined bit by bit with p + i modulo 256 |
| `XorCodec.SessionRoundTrip` | src/serializers/custom_crypt.rs:83-124 | in any interleaving of both directions each side obtains exactly the first messages the other sent, and each position is the bytes processed in its direction modulo 256 |
| `XorCodec.XorPosition.TransformInPlace` | src/serializers/custom_crypt.rs:64-72 | the loop rewrites the buffer to the masked data and advances the wrapping position by its length |
| `Sessions.ReplaySafety` | examples/udp_application_sessions/session.rs:33-91 | over every sequence of packets and expiries generations never decrease, a closed generation never becomes active again, and at most eight channels exist |
| `Sessions.HandleFacts` | examples/udp_application_sessions/session.rs:33-84 | a packet changes at most its own channel, to its own session, and is answered only from there; an answered close is closed |
| `Sessions.HandleExactly` | examples/udp_application_sessions/session.rs:33-84 | what every packet does, in full: which Hello opens or refreshes and is welcomed, which Data and Ping are echoed, that Close ends its session and is echoed, and that nothing else has any effect |
| `Sessions.ExpireExactly` | examples/udp_application_sessions/session.rs:85-91 | expiry ends exactly the sessions idle for the timeout and changes nothing else |
| `Sessions.StepRefresh` | examples/udp_application_sessions/session.rs:44-82 | only an accepted refresh moves a generation's last-received time, to the maximum |
| `Sessions.LastReceivedIsLatest` | examples/udp_application_sessions/session.rs:33-91 | `last_received` is exactly the latest accepted refresh of the current generation |
| `Sessions.RefreshesCommute` | examples/udp_application_sessions/session.rs:33-84 | two data or ping packets commute, replies included |
| `Sessions.ReorderingChangesNothing` | examples/udp_application_sessions/session.rs:33-84 | any permutation of data and ping packets leads to the same table |
| `Sessions.ExpiryKeepsHistory` | examples/udp_application_sessions.rs:105-118 | expiry at address level never discards a non-empty history and drops only empty ones |
| `Sessions.ForgottenExactly` | examples/udp_application_sessions.rs:105-118 | an address is forgotten exactly if it has no session at all and its record is old |
| `Sessions.RecordedExactly` | examples/udp_application_sessions.rs:74-91 | a peer that appears is recorded with its connection, its time and the sessions its address had, exactly if admitted |
| `Sessions.AdmissionIsBounded` | examples/udp_application_sessions.rs:74-91 | one admission: exactly when the address is known or there is room, with every history kept |
| `Sessions.ServerSafety` | examples/udp_application_sessions.rs:74-118 | over every sequence of appearing peers, packets and expiries from the empty server: at most 64 addresses with at most eight channels each, and no address ever loses a channel, takes a generation back or revives a closed one, not even by leaving and returning |
| `Sessions.SessionTable.HandlePacket` | examples/udp_application_sessions/session.rs:33-84 | handling in place computes the table function and the reply |
| `Sessions.SessionTable.ExpireAll` | examples/udp_application_sessions/session.rs:85-91 | every idle entry and no other becomes inactive |
| `Sessions.SessionTable.CountActive` | examples/udp_application_sessions/session.rs:95-97 | the number of active channels |
| `Sessions.ServerSessions.ExpireIdle` | examples/udp_application_sessions.rs:105-118 | every peer's sessions are expired, and exactly the unused peers without history are removed |
| `Agreement.SessionAgreement` | examples/udp_application_sessions.rs:191-215 | over every lossy, duplicating, reordering run, a request in Echo or later has a server entry of generation 2 with its current identifier, and a request that is Done is closed there |
| `Agreement.RequestIsServed` | examples/udp_application_sessions.rs:169-215 | from every reachable world with the client known and room for an unused channel, the request on it can be taken through all phases to Done without moving any other |
| `Agreement.ServedFromTheStart` | examples/udp_application_sessions.rs:232-261 | any request with valid identifiers can be served from the start: Done at the client, closed at the server |
| `Agreement.OnlyTheAwaitedReplyAdvances` | examples/udp_application_sessions.rs:135-157 | a packet advances at most one request, by one phase, and only as the reply to what that request is sending now |
| `Agreement.AwaitedReplyAdvances` | examples/udp_application_sessions.rs:191-215 | conversely the awaited reply always advances the first matching request by exactly one phase |
| `Agreement.InvHolds` | examples/udp_application_sessions.rs:92-104 | the agreement invariant over client, wire and server table |
| `Agreement.ClientSessions.Observe` | examples/udp_application_sessions.rs:191-215 | the first matching request and no other is advanced in place |
| `StreamDrain.BudgetSplitInvariance` | src/client.rs:657-696 | under any budgets and arrivals the events and the registry are those of one unbounded drain of the same number of messages |
| `StreamDrain.MessageLandsInItsFrame` | src/client.rs:663-666 | with constant budget b, message k is shown in frame ceil(k / b) and not before |
| `StreamDrain.CurrentConnection` | src/client.rs:79-86 | the current-connection resource is the last registered connection, or absent if there is none |
| `StreamDrain.EstablishedIsCurrent` | src/client.rs:668-677 | a connection just established is the current one |
| `StreamDrain.RegistryIsOpenConnections` | src/client.rs:79-86 | a connection is registered exactly while it has been established and not closed since |
| `StreamDrain.RegistryIsInOrder` | src/client.rs:79-86 | the registry lists exactly the open connections in order of establishment |
| `StreamDrain.Endpoint.RemoveConnection` | src/client.rs:83-86 | every occurrence of the connection leaves the registry, the rest stays in order |
| `StreamDrain.Endpoint.Update` | src/client.rs:657-696 | the loop of one frame computes the budgeted drain |

## Left out

- Sockets, timers and the async runtime: their outcomes are nondeterministic steps or parameters; mutexes, channels and cancellation tokens have the semantics their documentation states.
- `Notify`: `notify_one` may pick any waiter, which includes the library's first-in-first-out choice.
- Waiting sends of more than one unit of weight: the wakeup theorem covers unit weights, the only ones `send` is called with; all other queue theorems cover any weight.
- Closing of the ECS receive queue at application shutdown: forwarding then deliberately records nothing, so the conservation theorem is about an open queue.
- Counters are unbounded: the source's 64-bit counters wrap, so conservation holds of them modulo 2^64. The byte counters of `src/protocols/udp/diagnostics.rs` are not modelled.
- Client and server: the shared pipeline is modelled once; of their differences only the client's current-connection resource is.
- The tasks of the pipeline and the writer task are modelled on values, one step per section between two awaits; the loops of the ECS systems, the read half, the queue, the listener, the pacer and the codecs are in place.
- A writer that stops because every handle was dropped: its cancellation is the step of a user disconnect followed by a quiet stop.
- The reader of stream transports waiting for queue space, and outgoing queues of stream transports.
- PeerRegistry.UdpListener.Receive: the class keeps the routing invariant only; stream order and accounting are proved over event histories of the same functions.
- Framing.FramedReader.ReadPrefix: a decoder that asks for zero more bytes makes the source loop forever; here it is an explicit outcome.
- Pacing.DataPacer.Wait: time is whole nanoseconds, the clock does not go back, and the list of wake-ups is a parameter that may run out.
- The client's retry timer, attempt limit and random identifiers in the session example: when a request is resent is nondeterministic, identifiers are arbitrary.
- Packet serializers (`bincode`, `bitcode` and their adapters): framing works with any packet codec whose decoder undoes its encoder.
- Thread and runtime management, WebAssembly support, plugin registration, settings and warnings: option chaining and plumbing.
- The other examples, benchmarks and test utilities, and any claim about remote liveness or security: the transport promises none.
