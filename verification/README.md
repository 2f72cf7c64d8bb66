# A verified model of ws-tunnel

ws-tunnel carries TCP connections from ports on a public server, over WebSocket and smux, to
services behind a client. This project models its three hard parts and proves what they are for.

**The stream-slot scheduler** (`internal/server/registry.go`). A node's data channels share a
changeable limit of streams; a request that finds no slot parks in an arrival-ordered queue.
`SlotCore` is the state guarded by `chMu` and what each operation makes of it, `NodeSession` is
the heap version with the channel map, the queue and its in-place removal, proved against that
core. `SlotSystem` is a state machine of whole requests: every `chMu` section is a step (a
hand-off is one step per slot it gives out, with the lock held), `SetConfig` is two, and a timeout,
a cancelled request, a dying channel or a failed open may come at any moment. `SlotInvariant` and
`SlotTheorems` prove conservation, no lost wake-up, order and bounded waiting over every run,
`SlotRequests` says exactly when a request keeps its timer and its place and when the limit holds,
and `SlotScenarios` has the runs in which each is lost. `SlotRefinement` numbers the heap objects
and shows that every method of `NodeSession` takes the steps of a run of that machine. `NodeStats`
adds up a node's counters over all its sessions. `Peak` is the compare-and-swap loop of the
peak-demand gauge.

**The stream protocol** (`internal/protocol`, `forward`, `handleStream`). `Varint`, `Frames`,
`FrameCodec` and `StreamHeader` are the codecs, with readers and writers as stateful objects over
streams that may be cut up anywhere. `Lane` is one direction of a stream, `Tunnel` both ends and
both directions as a state machine in which every step may interleave and any write, read, dial or
timeout may fail.

**Configuration and reload** (`internal/config`, `applyReload`, `listenerManager`). `Config` has
the validation loops of `Load`, lookups, and what a node is told. `Diff` is the change set,
`Rebuild` the argument that applying a change set gives what starting over would, over whole runs
of reloads, of nodes coming and going and of drains ending late, and `Server` the live listeners
and sessions with a reload, and nodes connecting, dying, draining and leaving. All of these keep
`Agree`: the listeners are what a rebuild from the current configuration would start (but for nodes
going away), and every online session was last told what its node is configured to be told.
`FinishDrain` keeps it under a condition, which is stated and exact.

`Basics`, `Counting`, `ByteStreams` and `Outcomes` hold what several of these share.

Numbers are unbounded except where the code's width matters: varints are 64 bits wide, frame
lengths capped, ports in 1..65535. The varint is unsigned LEB128 (section 7.6 of DWARF version 5)
as Go's `encoding/binary` reads and writes it: the reader takes non-minimal forms.

## Where the code and its documentation differ

- The comment at registry.go:363-364 says a request is never counted both as active and as queued.
  Between the reservation (477-478) and the decrement (407) it is; `DemandCountsTwice` says by how
  much the sum exceeds the number of requests.
- The design document has wire version 0x01 and raw payload; the code has 0x02 and framed payload.
- `queue_timeout` does not bound every request's wait. Its timer fires once; if a slot was handed
  over in the same moment and the open on it fails, the request parks again without one
  (`ParkedWithSpentTimer`). A parked request still has its timer if and only if no open of its own
  failed after the timer fired (`TimerProtects`). What bounds the wait in any case is
  `WaitIsBounded`.
- First come, first served holds for a request exactly as long as no open of its own has failed
  after it parked: then it parks at the tail with a new ticket (`KeepsItsPlace`), and whoever came
  later is served before it (`OvertakenAfterFailedOpen`). Every other request is served in its turn
  (`FirstComeFirstServed`).
- `active` can be above the limit: a lowered limit leaves channels above it (`AboveTheLimit`). A
  step leaves every channel within the limit if and only if it does not store a limit below a
  positive count (`OnlyALowerLimitUndercuts`); a channel above it takes nothing more until it is
  within (`AboveTheLimitDrains`).
- A write over 2^20 bytes is sent and then refused by the reader: the frame round trip holds if and
  only if no write is larger.
- A stream that ends right after a frame's type byte looks like a clean end; a cut anywhere else
  inside a frame is reported (`ReadCut` says exactly when).
- `Equal` takes an absent remote for an empty one, so it is exact only because `Load` drops empty
  remotes; `EqualExactIff` gives the exact condition.
- The goroutine that `drainNode` leaves behind stops listeners by node name. If the drained session
  is gone by then and a new one is online under that name, the new one loses its listeners
  (`FinishDrain`). Such a state is reached by removing a node, its leaving, configuring it again
  and its coming back, before the drain ends (`LateDrainLosesListeners`, and `ItHappens` with one
  node and one port). A later reload that leaves the ports' owner as it is does not bring the
  listeners back (`ReloadDoesNotRestore`). Over whole runs `ServesUnlessLost` says which ports are
  missing; they are none if and only if the listeners are what a rebuild would start, and they are
  none in every run without such a drain end (`OnlyLateDrainsLose`).

## Model

| member | source | states |
|---|---|---|
| SlotCore.HandoffCount | internal/server/registry.go:496-507 | a hand-off serves exactly the smaller of the queue's length and the spare capacity of the usable channels, from the front, leaves the rest in order, raises activeStreams by that number, and ends with an empty queue or a full pool |
| SlotCore.HandoffDelivers | internal/server/registry.go:496-507 | the i-th waiter in line gets the i-th slot reserved, and nobody else's mailbox changes |
| SlotCore.PickedFromThePool | internal/server/registry.go:460-481 | a channel may be picked if and only if it is in the pool, not dead, below the limit and carries no more than any other one alive; the pool is full if and only if every channel in it is dead or at the limit |
| SlotCore.ReleaseServesHead | internal/server/registry.go:483-507 | giving back a slot on a usable channel within the limit serves the head of a non-empty queue |
| SlotCore.BalancedLoads | internal/server/registry.go:460-481 | from an idle pool of k channels with limit M, m reservations leave every load at floor(m/k) or ceil(m/k), m never exceeds k*M, and the pool is full exactly at m = k*M, whichever of the least-loaded channels each reservation picks |
| SlotCore.WithoutIsRemoval | internal/server/registry.go:434-448 | taking a waiter out is removal at its index |
| SlotCore.WithoutKeepsOthers | internal/server/registry.go:434-448 | and keeps exactly the others |
| NodeSession.NodeSession.ReserveLocked | internal/server/registry.go:460-481 | null exactly when every channel in the pool is closed or at the limit, and then nothing changes; else a channel of the pool that is not closed, below the limit and carries no more than any other open one, which is charged one stream |
| NodeSession.NodeSession.HandoffLocked | internal/server/registry.go:496-507 | the loop terminates; from the front of the queue, each waiter served has in its buffer an open channel of the pool; it ends with nobody waiting or every channel of the pool closed or at the limit |
| NodeSession.NodeSession.Acquire | internal/server/registry.go:418-429 | a slot is taken directly, on an open channel of the pool, exactly when nobody is parked and there is one below the limit; else a new waiter with an empty buffer is at the tail |
| NodeSession.NodeSession.Abandon | internal/server/registry.go:434-448 | null exactly when the waiter had not been handed a slot, and then it is out of the queue with everybody else in order; else the slot it was handed |
| NodeSession.NodeSession.Release | internal/server/registry.go:483-492 | the slot is given back and served from the front of the queue to whoever waits; null is ignored |
| NodeSession.NodeSession.SetConfig | internal/server/registry.go:261-270 | the new limit is stored and a hand-off under it follows |
| NodeSession.NodeSession.AddChannel | internal/server/registry.go:307-313 | the channel is in the pool under its id and a hand-off follows |
| NodeSession.NodeSession.RemoveChannel | internal/server/registry.go:315-322 | the channel is closed and not in the pool; another one under its id stays |
| NodeSession.NodeSession.Close | internal/server/registry.go:515-536 | the pool is emptied, and exactly the channels that were in it are closed, once; loads, queue and mailboxes stay |
| SlotInvariant.InvStep | internal/server/registry.go:224-536 | every step of every request and of the channels keeps the whole invariant |
| SlotTheorems.SlotConservation | internal/server/registry.go:356-507 | in every run, each channel's count is the number of slots out on it, and activeStreams is both the sum of the counts over all channels ever added and the number of holders (in hand, handed over, or in an open stream) |
| SlotTheorems.LoadWithinLargestLimit | internal/server/registry.go:261-270 | a channel's count is never negative and never above the largest limit in force so far |
| SlotTheorems.Quiescent | internal/server/registry.go:356-507 | once no request is outstanding every counter and every channel is at zero and nobody is queued |
| SlotTheorems.NobodyWaitsForAFreeSlot | internal/server/registry.go:261-507 | whenever chMu is free and no SetConfig is between its store and its lock, a parked request means that every usable channel is at the limit |
| SlotTheorems.SlotsGoToLiveChannels | internal/server/registry.go:460-481 | in every run a slot goes only to a channel that is in the pool, alive, below the limit and the least loaded of those alive |
| SlotTheorems.ParksOnlyWhenFull | internal/server/registry.go:418-507 | in every run, with nobody parked a request parks, and with somebody parked a hand-off ends, only if every channel in the pool is dead or at the limit |
| SlotTheorems.NoSlotAfterDeath | internal/server/registry.go:315-322 | once a channel died, was removed or was dropped after a failed open, no run gives it another slot |
| SlotTheorems.GivesUpForAReason | internal/server/registry.go:376-403 | a parked request gives up on a timer that had not fired before, on a closed session or on its caller; after its timer it is told NoChannel if the pool is empty and Saturated otherwise, and after the others the error that says so |
| SlotTheorems.ErrorsHaveGrounds | internal/server/registry.go:376-403 | in every run, only a request whose own timer fired is told Saturated or NoChannel, and only one of a closed session that it is closed |
| SlotTheorems.NeverStuck | internal/server/registry.go:363-429 | a hand-off can always go on or end, an arrived request can always reserve or park |
| SlotTheorems.CollectNeverBlocks | internal/server/registry.go:434-448 | a request that abandons after being handed its slot always finds it in the buffer |
| SlotTheorems.WaiterLife | internal/server/registry.go:224-231 | a waiter is queued, once, exactly while neither handed nor abandoned; its buffer is full exactly from the hand-off to the collection by its own request; a queued waiter's buffer is empty, so the send never blocks |
| SlotTheorems.AbandonTakesOut | internal/server/registry.go:434-448 | abandoning either removes the waiter at its index or finds its slot ready to be collected |
| SlotTheorems.InOrder | internal/server/registry.go:418-507 | tickets are queued and served in the order they were given out, and whoever is still queued came after everybody served |
| SlotTheorems.NoOvertaking | internal/server/registry.go:496-507 | when a waiter is served, everybody who parked before it was served before it or gave up |
| SlotTheorems.NoBarging | internal/server/registry.go:418-429 | when a request reserves directly, everybody who ever parked was served or gave up |
| SlotTheorems.PositionStep | internal/server/registry.go:434-507 | a queued waiter never moves back and moves up whenever the head is served |
| SlotTheorems.OutAfterTurns | internal/server/registry.go:496-507 | the waiter at position k is out after at most k + 1 turns |
| SlotTheorems.ReleasesServe | internal/server/registry.go:483-507 | in every run, each undisturbed release of a slot on a usable channel within the limit serves somebody |
| SlotTheorems.WaitIsBounded | internal/server/registry.go:363-507 | a waiter at position k was served or gave up once k + 1 such releases happened |
| SlotTheorems.HandoffIsRun | internal/server/registry.go:496-507 | from a held lock, a whole hand-off of the core is a run of its rounds and the release of the lock |
| SlotTheorems.DemandCountsTwice | internal/server/registry.go:363-412 | queueDepth counts the requests inside OpenStream; active plus queued exceeds the outstanding requests by exactly those between reservation and decrement |
| SlotRequests.TimerProtects | internal/server/registry.go:360-412 | in every run, a parked request can still time out if and only if no open of its own failed after its timer had fired |
| SlotRequests.KeepsItsPlace | internal/server/registry.go:376-429 | in every run, a waiting request has the ticket it first parked with, and no other, if and only if no open of its own failed after it had parked |
| SlotRequests.FirstComeFirstServed | internal/server/registry.go:376-507 | once a ticket was served, every request that parked before it and had no such failed open was served before it or gave up, and is queued no more |
| SlotRequests.OnlyALowerLimitUndercuts | internal/server/registry.go:261-270 | a step leaves every channel that carries anything within the limit if and only if it does not store a limit below a positive count |
| SlotRequests.LimitHolds | internal/server/registry.go:261-507 | the limit holds throughout every run that stores no such limit |
| SlotRequests.AboveTheLimitDrains | internal/server/registry.go:460-481 | a channel above the limit is never given another stream |
| SlotScenarios.ParkedWithSpentTimer | internal/server/registry.go:380-406 | a run in which a request is parked with its timer spent |
| SlotScenarios.OvertakenAfterFailedOpen | internal/server/registry.go:395-406 | a run in which the request that parked first waits behind everybody and the one that parked second has its stream |
| SlotScenarios.AboveTheLimit | internal/server/registry.go:261-270 | a run in which a channel carries more than the limit |
| SlotRefinement.RunNew | internal/server/registry.go:233-256 | a session that was just made is in the machine's initial state |
| SlotRefinement.RunAcquire | internal/server/registry.go:418-429 | under a numbering of channels and waiters, Acquire is one Reserve of the channel it returns, or one JoinTail whose ticket the new waiter gets |
| SlotRefinement.RunAbandon | internal/server/registry.go:434-448 | Abandon is the step of that name, alone when it returns null, else followed by the collection of the slot it returns |
| SlotRefinement.RunRelease | internal/server/registry.go:483-507 | Release is a failed open or the end of a stream, followed by the rounds of its hand-off |
| SlotRefinement.RunSetConfig | internal/server/registry.go:261-270 | SetConfig is its store, its lock and the rounds of its hand-off |
| SlotRefinement.RunAddChannel | internal/server/registry.go:307-313 | AddChannel of a new channel is one step and the rounds of its hand-off, under the numbering with that channel |
| SlotRefinement.RunRemoveChannel | internal/server/registry.go:315-322 | RemoveChannel is one step |
| SlotRefinement.RunClose | internal/server/registry.go:515-536 | the first Close closes the session, empties the pool and lets exactly the channels that were in it die |
| SlotRefinement.LeavingMayAbandon | internal/server/registry.go:380-406 | what RunAbandon asks of a request holds in every reachable state of one that is about to abandon |
| SlotRefinement.TicketIsNew | internal/server/registry.go:418-429 | what RunAcquire asks of the next ticket holds in every reachable state |
| NodeStats.CountersAreSums | internal/server/registry.go:557-566 | over every run of sessions coming up, of their steps and of connections that find the node offline, each counter of the node is the sum over all its sessions, plus the connections turned away for rejected |
| NodeStats.OutcomesAddUp | internal/server/listener.go:298-376 | over all sessions a node ever had, the five result counters add up to the forwards that recorded an outcome, offline ones included, and the four that need a stream never exceed the streams opened |
| Peak.PeakIsHighWater | internal/server/registry.go:119-126 | under any interleaving of the compare-and-swap loop the peak is the maximum of its start value and of all returned observations, and never goes down |
| Varint.RoundTrip | internal/protocol/frame.go:59-61 | every number below 2^64 reads back as itself and what follows is untouched |
| Varint.DecodeExactly | internal/protocol/frame.go:115 | reading succeeds on exactly the LEB128 forms of at most 64 bits, minimal or not, and stops behind the form |
| Varint.DecodedFits | internal/protocol/frame.go:115 | every number read is below 2^64 |
| Varint.CutIsShort | internal/protocol/stream.go:117-129 | a cut inside an encoded number reads as an early end, unexpected once a byte was read |
| Varint.FailsExactly | internal/protocol/frame.go:115 | reading fails in exactly two ways: the input ends within less than ten bytes that all have the top bit set, or ten bytes do not end a 64-bit number |
| Varint.OnTheWire | internal/protocol/frame.go:115 | the bytes of 0, 127, 128, 300, 32768 and 65535 |
| Varint.AppendUvarint | internal/protocol/stream.go:73-79 | the append loop writes the LEB128 form |
| Varint.PutUvarint | internal/protocol/frame.go:59-61 | the in-place loop writes the form at its offset and no other byte |
| Varint.ReadUvarint | internal/protocol/frame.go:115 | the byte-by-byte loop reads what the decoder says, with its errors, and consumes no more |
| Frames.DecodeFrames | internal/protocol/frame.go:48-135 | everything written before a frame boundary is read back in order |
| Frames.FrameRoundTrip | internal/protocol/frame.go:48-135 | a closed stream reads back as exactly what was written, then the end marker, with the bytes after it untouched, if and only if no write is over 2^20 bytes |
| Frames.OversizeRefused | internal/protocol/frame.go:119-121 | a larger write is sent and then refused |
| Frames.Truncation | internal/protocol/frame.go:98-135 | a stream cut k bytes into a frame delivers the writes before it and as much of its own as is there, and ends visibly exactly from its second byte on |
| Frames.OnTheWire | internal/protocol/frame.go:23-33 | a data frame is a zero byte, the length and the payload, the marker is a one byte, the cap is 2^20 |
| Frames.BadType | internal/protocol/frame.go:103-113 | any other type byte is refused |
| Frames.BadLength | internal/protocol/frame.go:119-121 | so is a length of zero or over the cap |
| Frames.BadNumber | internal/protocol/frame.go:115-118 | a length that does not end in time is reported as such |
| Frames.DecodePrefix | internal/protocol/frame.go:98-135 | what a prefix of the input delivers is a prefix of what all of it delivers |
| Frames.TakeSome | internal/protocol/frame.go:123-134 | reading part of a frame takes it off the front of what is left |
| FrameCodec.FrameWriter.Write | internal/protocol/frame.go:48-68 | one frame goes out, or nothing for an empty write, or an error after CloseWrite; a failed write leaves a prefix of the frame |
| FrameCodec.FrameWriter.CloseWrite | internal/protocol/frame.go:73-82 | the end marker goes out once, or an error comes back and it is on the wire or not |
| FrameCodec.FrameReader.Read | internal/protocol/frame.go:98-135 | chunk by chunk, for any buffer size and any segmentation, the reader gives the payload and then one error: unexpected end exactly inside a frame, end of file at a boundary, after a type byte and for ever after the marker, bad frame exactly for malformed input |
| FrameCodec.ReadCut | internal/protocol/frame.go:98-135 | a stream of frames and the marker, cut anywhere and read to its end, gives the payload before the cut, and an unexpected end if and only if the cut lies inside a frame behind its type byte; else end of file |
| FrameCodec.CopyAll | internal/server/listener.go:366 | a whole copy delivers exactly the payload in the stream and stops behind the marker |
| FrameCodec.CopyFrames | internal/server/listener.go:336-337 | whatever write fails, on the wire are the frames of the writes before it and a prefix of its own |
| FrameCodec.CopyAndClose | internal/server/listener.go:336-340 | the same with at most the marker behind it, which is sent even after a failed copy; without a failure, all frames and one marker |
| FrameCodec.WriteThenRead | internal/protocol/frame.go:48-135 | writing, closing and reading back with any chunking and trailing bytes gives what was written, and end of file again and again |
| StreamHeader.HeaderRoundTrip | internal/protocol/stream.go:73-101 | the header of any port in 1..65535 reads back as that port and leaves what follows untouched |
| StreamHeader.ParseExactly | internal/protocol/stream.go:83-101 | a header is accepted exactly when it is version 2 and a LEB128 form of a number in 1..65535, and the reader stops right behind it |
| StreamHeader.RefusedExactly | internal/protocol/stream.go:83-101 | each refusal has its reason: end of file for nothing or nothing behind the version byte, a first byte that is not 2, a number that was cut, one that does not end in time |
| StreamHeader.OutOfRangeExactly | internal/protocol/stream.go:97-99 | and a number outside 1..65535 |
| StreamHeader.RefusedLeaves | internal/protocol/stream.go:81-101 | a refusal leaves unread everything behind the bytes that had to be looked at |
| StreamHeader.OnTheWire | internal/protocol/stream.go:18-29 | the header bytes of ports 80, 443 and 65535 |
| StreamHeader.LabelOfAck | internal/protocol/stream.go:40-53 | answer bytes 0 to 3 are recorded as ok, not allowed, dial failed and rejected, and any other as rejected |
| StreamHeader.WriteStreamHeader | internal/protocol/stream.go:73-79 | the header goes out, or a prefix of it with an error |
| StreamHeader.ReadStreamHeader | internal/protocol/stream.go:83-101 | the reader gives the port the header names, or the error of what is wrong with it, and leaves unread exactly what is behind the bytes it had to look at: all but the first byte for a wrong version, what is behind the number for a port out of range |
| StreamHeader.WriteAck | internal/protocol/stream.go:103-107 | the byte goes out, or an error comes back and it is on the wire or not |
| StreamHeader.Handshake | internal/protocol/stream.go:73-115 | header and answer arrive as they were sent with what follows them untouched, and the recorded label is the answer's |
| StreamHeader.ReadAck | internal/protocol/stream.go:109-115 | one byte is read, or end of file |
| Lane.StepKeeps | internal/protocol/frame.go:48-135 | in one direction, every step keeps delivered bytes plus the payload in the stream equal to what was read from the source |
| Lane.CanProceed | internal/protocol/frame.go:98-135 | a direction that is not finished and did not fail has a step to take |
| Tunnel.StepKeeps | internal/client/client.go:476-540 | every step of forward, handleStream and the stream between them keeps the invariant of the connection |
| Tunnel.DeliveredIsPrefix | internal/server/listener.go:298-376 | whatever fails, each application gets a prefix of what the other sent, and all that was read from the sender once that direction's marker was read |
| Tunnel.RefusalDeliversNothing | internal/server/listener.go:342-363 | any answer but OK, or none, delivers nothing in either direction and dials nothing; forward delivers nothing unless it recorded ok, and its label is the answer's |
| Tunnel.DecideAnswers | internal/client/client.go:489-516 | a decision answers rejected when draining, not allowed for a port without a service, dial failed when the dial fails and ok when it succeeds, in one byte, and relays only in the last case |
| Tunnel.BadHeaderAnswers | internal/client/client.go:481-488 | a bad header is answered with a refusal, except that nothing is answered to a stream that ends before or right after its first byte |
| Tunnel.AnswerIsTheDialsOutcome | internal/client/client.go:476-516 | in every run the client answers ok exactly when it was not draining, the port is in its configuration and the dial succeeded; dial failed or not allowed exactly when that is so; and it dialed the port exactly if it answered ok |
| Tunnel.ForwardGivesUp | internal/server/listener.go:322-349 | a forward that cannot send its header or gets no answer records that and stops |
| Tunnel.DialsOnlyItsPort | internal/client/client.go:497-512 | the client dials the service of the connection's port only, and only if that port is in its configuration |
| Tunnel.HalfCloseKeepsTheOtherDirection | internal/server/listener.go:331-375 | while nothing fails, finishing one direction loses no byte of the other |
| Tunnel.ResultIsTheAnswer | internal/protocol/stream.go:40-53 | a forward that returned without a failure recorded the label of the client's answer |
| Tunnel.CompleteWhenBothReturned | internal/server/listener.go:298-376 | when both ends returned and nothing failed, everything arrived both ways, or the stream was refused and nothing did |
| Tunnel.NeverStuck | internal/client/client.go:476-540 | until both ends returned, some step that is no failure changes the state |
| Config.ItoaInjective | internal/config/config.go:226-244 | different ports have different decimal keys |
| Config.LoadNodes | internal/config/config.go:150-183 | the loop keeps exactly the node entries that are valid and whose name and key no earlier kept entry has, in order |
| Config.LoadPorts | internal/config/config.go:185-219 | the loop keeps exactly the port entries that are valid, unreserved, owned by a kept node and not a repeated number, in order |
| Config.Load | internal/config/config.go:103-222 | only a missing listen address is an error; else the result is well-formed and holds exactly the surviving entries |
| Config.SettingsOrDefaults | internal/config/config.go:122-139 | each setting, and a node's number of channels, is the file's own if that is positive, and else its own default |
| Config.NodesAreFirstCome | internal/config/config.go:150-183 | every node is some entry's, with its key and channels; an entry that decodes and has a key is dropped only if its name or key is taken by a node whose entry comes first |
| Config.NodeOrderFollows | internal/config/config.go:182 | the node order is that of the entries the nodes are kept from |
| Config.PortOrderFollows | internal/config/config.go:218 | and the port order that of the entries the ports are kept from |
| Config.PortsAreFirstCome | internal/config/config.go:185-219 | a port is kept if and only if some entry for it is in range, no endpoint's, of a kept node and has a remote with a host and a port in 1..65535; the first such entry counts |
| Config.LoadedIsWellFormed | internal/config/config.go:142-219 | surviving entries form duplicate-free orders that match the maps, unique keys, and ports in range owned by kept nodes |
| Config.NodeByKey | internal/config/config.go:264-279 | the node with that key if there is one |
| Config.Authenticate | internal/server/server.go:266-286 | accepts exactly when the key is a node's and the name, if given, is that node's; every refusal has its reason |
| Config.KeyAloneIsEnough | internal/server/server.go:266-286 | a key authenticates as a node without a name exactly when it does with that node's name, and as no other node |
| Config.BuildNodeConfig | internal/config/config.go:226-244 | nothing for an unknown node, else its own channels, the configured heartbeat, dial timeout and stream limit, and the remotes of exactly its ports |
| Config.ToldItsOwn | internal/config/config.go:226-244 | and that is the only configuration a node can be told |
| Config.PortsOf | internal/config/config.go:247-255 | exactly the node's ports, once each, in document order |
| Config.ClientDialsItsPorts | internal/client/client.go:303-309 | from its pushed configuration a client finds a service for exactly the ports its node owns, and it is the configured one |
| Config.EqualIsExact | internal/protocol/message.go:88-105 | on configurations without empty remotes the comparison is equality |
| Config.EqualExactIff | internal/protocol/message.go:88-105 | the comparison with one configuration is equality for all others exactly when that one has no empty remote |
| Config.PushedRemotesNonEmpty | internal/config/config.go:213-217 | what a loaded configuration pushes has no empty remote |
| Diff.SortedPorts | internal/config/config.go:282-289 | all ports, increasing |
| Diff.MovedPorts | internal/config/diff.go:67-78 | exactly the ports whose owner is not the same in both, increasing |
| Diff.LostNodes | internal/config/diff.go:46-58 | the nodes that are gone and those under another key, in document order |
| Diff.DifferingNodes | internal/config/diff.go:80-91 | exactly the nodes in both that are told something else |
| Diff.ChangedNodes | internal/config/diff.go:80-97 | exactly the nodes that stay, under the same key, and are told something else |
| Diff.DiffConfig | internal/config/diff.go:38-99 | every field holds exactly the names or ports it stands for, once each |
| Diff.ChangedMeans | internal/config/diff.go:80-97 | a node is listed as changed if and only if it is in both under the same key and its channels, a port, a remote, or the heartbeat, dial timeout or stream limit is not the same |
| Diff.ListsMean | internal/config/diff.go:46-78 | nodes under a new key, and ports that are removed or added, told of the two configurations |
| Diff.EmptyMeansSame | internal/config/diff.go:25-28 | nothing listed and settings unchanged means the same nodes, ports and settings, and only that does |
| Rebuild.ReloadIsRebuild | internal/server/server.go:541-568 | from listeners that agree with the old configuration short of some ports, the listener steps of a reload end where a rebuild from the new one would, short of those among them that keep their owner, for every node not going away |
| Rebuild.ReloadDoesNotRestore | internal/server/server.go:552-568 | a port without a listener whose owner stays the same has none after a reload either |
| Rebuild.LeavingKeeps | internal/server/server.go:541-551 | nodes that start to leave take exactly their ports out of what is to be served, whatever is missing |
| Rebuild.LeftKeeps | internal/server/server.go:344-345 | a node that has left with its listeners changes nothing about the others' ports |
| Rebuild.JoinedKeeps | internal/server/listener.go:60-65 | starting the ports of a node that comes online adds exactly its ports to what is served |
| Rebuild.DroppingLoses | internal/server/server.go:686 | taking a node's listeners away loses exactly its ports |
| Rebuild.DroppingBreaks | internal/server/server.go:686 | and leaves agreement exactly when it is not online or owns no port |
| Rebuild.RunSettles | internal/server/server.go:297-348 | every run of reloads, arrivals, departures and ends of pending drains keeps the listeners at what a rebuild would start, short of the lost ports: a drain end that hits an online node adds that node's, and a port that changes hands or whose node leaves is lost no more |
| Rebuild.ServesUnlessLost | internal/server/server.go:297-348 | so after every run from a fresh server the listeners are what a rebuild would start if and only if nothing is lost |
| Rebuild.OnlyLateDrainsLose | internal/server/server.go:682-688 | nothing is lost in a run in which no drain ends while a node of that name is online and owns a port |
| Rebuild.HistoryDoesNotMatter | internal/server/server.go:531-585 | after runs without such a drain end, two servers with the same configuration and the same nodes online serve the same ports for the nodes not going away: those a rebuild starts |
| Rebuild.LateDrainLosesListeners | internal/server/server.go:682-688 | a node that is removed, leaves, is configured again and comes back before its drain ends is then online without listeners for any of its ports, for every pair of configurations |
| Rebuild.ItHappens | internal/server/server.go:682-688 | one node with one port is enough for that |
| Server.Server.StopPort | internal/server/listener.go:99-110 | the listener is gone and does not accept; only a hard stop closes its connections |
| Server.Server.StopNode | internal/server/listener.go:113-126 | the same for exactly the node's listeners |
| Server.Server.StartPort | internal/server/listener.go:68-94 | nothing for an unregistered owner; the same listener object for the same owner; else a new one, after stopping hard whatever was there |
| Server.Server.DrainNodes | internal/server/server.go:541-543 | exactly the named live nodes are draining and without listeners, and no connection is cut |
| Server.Server.CloseNodes | internal/server/server.go:544-551 | exactly the named live nodes are closed, without listeners and connections |
| Server.Server.StopPorts | internal/server/server.go:552-555 | exactly those listeners are stopped, and no connection is cut |
| Server.Server.StartAdded | internal/server/server.go:564-568 | exactly the given ports of registered owners are served for them; a listener whose port does not change hands is the same object, any other is stopped hard |
| Server.Server.MoveListeners | internal/server/server.go:541-568 | the listener steps move the port owners as ReloadIsRebuild needs, and cut only connections of nodes under a new key or of displaced listeners |
| Server.Server.PushConfig | internal/server/server.go:652-667 | exactly that session, if its node is registered and configured, is told the configuration, once |
| Server.Server.PushConfigs | internal/server/server.go:570-582 | exactly the changed nodes, or on changed settings all sessions, are told once each |
| Server.PushUpdates | internal/server/server.go:570-582 | pushing to the changed nodes, and to all on changed settings, brings every session that was up to date with the old configuration up to date with the new one |
| Server.PlanIsSound | internal/config/diff.go:38-99 | the difference of two configurations is what the steps rely on: owners end where a rebuild would, and no node that stays and changes is missed |
| Server.Server.ApplyReload | internal/server/server.go:531-585 | a reload takes a state that agrees with the configuration to one that agrees with the new one, sends away exactly removed and re-keyed nodes, and cuts no connection but of nodes under a new key or already going away |
| Server.SessionsAreTold | internal/server/server.go:652-667 | in a state that agrees every online session holds its node's channels and ports and the configured settings, each in its own field |
| Server.PortsAreServed | internal/server/listener.go:60-94 | in a state that agrees every configured port of an online node has an accepting listener for that node, and every listener is the configured owner's or of a node going away |
| Server.MayCutMeans | internal/server/server.go:544-551 | the connections a reload may cut are those of nodes under another key and of nodes whose session drains or is closed |
| Server.CutsAreDue | internal/server/server.go:531-585 | from listeners that agree, only those connections are cut |
| Server.StayersKeepListeners | internal/server/server.go:531-585 | after a reload a port kept by an online node has the very same listener, and every listener that is not there any more has stopped accepting |
| Server.ToldWhenChanged | internal/server/server.go:570-582 | a session is told anew, once, exactly when its node is configured and its configuration or a setting changed; else nothing it was told changes |
| Server.Server.Connect | internal/server/server.go:297-327 | refused for a vanished node or a taken name, or unregistered and closed when its welcome cannot be written, with registry and listeners as before; else its session is registered and its ports served; the state agrees in every case |
| Server.Server.Disconnect | internal/server/server.go:342-346 | the node's listeners and connections are gone, the session unregistered and closed, and the state agrees |
| Server.Server.CloseSession | internal/server/registry.go:515-536 | a session that closes makes its node one that goes away, and the state agrees |
| Server.Server.FinishDrain | internal/server/server.go:682-688 | the listeners of that name are gone and the session closed; the listeners agree exactly when nobody is online under the name or it owns no port |

## Left out

- WebSocket, smux, TCP, HTTP, fsnotify, signals, YAML and JSON decoding: a stream is two byte queues delivered in any pieces, a channel's death a flag that is never unset, a file an ordered list of decoded entries.
- Time: timers, heartbeats, backoff, ack deadlines and rate sampling; a timeout is a step that may come at any moment.
- OpenStream as one method with its select loop: its steps and their interleavings are events of SlotSystem.
- The scan of reserveLocked reads channel states one by one while channels may die; here the scan is atomic, and a death comes before or after it.
- The message and kind of a refused OpenStream beyond timeout, closed, cancelled, no channel and draining, and its Saturated counter.
- SlotSystem.Return: the check of the number of online channels and the decrement of queueDepth are one step.
- SlotSystem.Drop: RemoveChannel and the close of the channel are one step, as in NodeSession.
- SlotRefinement.RunAddChannel: is for a channel object that is not yet known to the session and carries nothing, as its one caller has it; NodeSession.AddChannel takes any.
- NodeSession.NodeSession.SetConfig: the store of the limit and the hand-off are one call here; SlotSystem has them as two steps.
- FrameCodec.FrameWriter.Write: writes of 2^35 bytes and more, whose length does not fit the header buffer.
- Lane reads a frame header in one step once all its bytes are there; FrameCodec reads it byte by byte.
- Registration and the start of listeners, and their undoing, are single steps, and a reload is one sequence, as if no node came or left in between.
- Server.Server.ApplyReload: rebinding of the entry point and the status endpoint; the order of changed nodes, which the program sorts; a failed reload_config message, which only logs.
- The difference from no configuration at all, which no caller asks for.
- The text of the warnings Load gives, and constant-time comparison of keys.
- Shutdown, status pages, metrics, labels, logging, random ids, command lines, the client's reconnect loops and its data-channel supervisor.
- The local_dial_errors counter, which is both incremented and overwritten by client reports.
