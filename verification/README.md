# A verified model of LAN agent messaging

This project models the in-memory protocol logic of the LAN agent system and proves what it keeps over all of its runs.
`dafny verify dfyconfig.toml` checks everything.

- **The relay server** (`cmd/lan-relay/main.go`) is a step machine. Every session's handler and every delivery goroutine
  is a thread with a program counter, and a step is one lock operation with the shared accesses next to it. Locks have
  explicit owners, writers of a `sync.RWMutex` announce themselves before they get it, and a recipient's mutex is taken by
  the sender's handler and handed to the goroutine that releases it. Connections, messages, read errors, send results and
  the order of map iteration are the environment's choices. `RelayModel` defines the machine; `RelayLocks`,
  `RelayProgress`, `RelaySolo` and `RelayDrain` prove that it never stops short, `RelayHand`, `RelayHandled` and
  `RelayAnswers` that it does for each message what the message asks, `RelayDelivery`, `RelayMembers` and
  `RelayArrival` to whom, in which order and how far it delivers, `RelayFold`, `RelayIndex`, `RelayRemains` and
  `RelayEmpty` what its channel index holds. `RelayGap` has the runs that show where that is too much, put together from
  the short runs of `RelayScenes`. `RelayServer` has the bodies of the critical sections as methods over the server's
  fields; those that are steps of the machine refine it.
- **The chunk sender** (`internal/fileservice/service.go`) is a step machine of a dispatcher and its workers with the
  semaphore, the wait group, the shared failure flag and the counting loop of the progress update, under any read and send
  failures, with Stop, pause, cancel and resume (`SenderModel`, `SenderInvariant`, `SenderResults`, `SenderStop`,
  `SenderProgress`).
- **The splitters and readers** (`Splitter`), **the receiver** (`Receiver`: a disk of byte sequences with the semantics of
  `WriteAt`), and the whole way of a file from one to the other (`EndToEnd`).
- **The channel manager** (`ChannelManager`: records with a backing array that a leave shifts in place) and
  **the folder diff** as a patch (`FolderDiff`).
- **The relay client** (`RelayClient`: the backoff in 64-bit arithmetic; `RelaySession`: its goroutines) and
  **the online table** (`Presence`).

`Wrappers` and `Sequences` hold what several of these share.

A run is any finite sequence of enabled steps from the initial state, so a statement about the state after a run is a
statement about every reachable state.

## What the proofs say about the code

Some promises of the code or its documentation do not hold everywhere. The model follows the code; the exact condition is
proved, and a run or an input that fails is given.

- *Reconnecting too soon stops the relay.* Registering an ID whose registered session has already closed its `done` closes
  it again, which panics while `s.mu` is held; no thread gets `s.mu` after that. `CrashCause` says that this is the only way,
  `HastyReconnectCrashes` gives the run, and `PoliteRunsAreDeadlockFree` says that with one live session per ID it cannot
  happen. Everything else about locks holds in every run.
- *Ending all sessions does not always end a membership*, for two reasons. Between the two halves of a leave another agent
  can name the leaver again; the second half then takes away the new back-pointer, and the teardown no longer finds the
  entry (`LeaverStays`). And a session that is replaced by a second one of its ID while it is live panics in its teardown
  and never cleans up (`ReplacedStays`). `RemainsExactly` says which entries stay in any run, `OnlyStraysRemain` which stay
  when each ID has one live session, and `MembersExactly` who is a member at any time.
- *A creation without members leaves an empty channel* (`EmptyChannelStays`) if it finds the channel not in the index, and
  nothing else does (`EmptyExactly`). Creations that name somebody never do (`NoEmptyChannels`).
- *Completed does not mean sent after Stop*: `FinalStatus` has the exact meaning of both final states, `StopCanComplete`
  a transfer that ends Completed with nothing sent, and `StopLosesExactly` the moments at which Stop can cost a chunk.
- *Progress never over-reports but can under-report for good*: with two chunks and two workers or more, a transfer can end
  Completed and report one chunk, because the worker that counted first writes last (`StaleProgress`). With one chunk or
  one worker it never does, and only then (`ProgressExactly`, `OneWorkerIsExact`).
- *A read that fails while the whole file is hashed goes unnoticed* (internal/fileservice/types.go:126): the transfer then
  carries the checksum of what was read before (`SplitIntoChunks`), of nothing if the first read fails
  (`FailureUnnoticed`). That is less than the file exactly if the first read that fails comes before the others have
  handed it all out (`HandedExactly`).
- *A creation whose channel ID has fewer than 12 bytes* ends its handler after the index is written and before the message
  is forwarded (cmd/lan-relay/main.go:156). It is the only message with a channel whose handler can go past it without a
  snapshot (`EveryMessageHandled`).
- *The receiver counts indices and does not look at them*: a chunk with an index past the end counts like any other, and
  can close a file that lacks a chunk (`StrayIndexCloses`; `ClosedAtCount` says exactly when a file is closed). With
  the file's own indices alone that is when all are there (`Reassembly`).
- *Reassembly needs full chunks.* The receiver writes chunk `k` at `k` times 64 KB, so the file is right exactly if all
  chunks but the last are full (`TargetIsConcat`). `SplitIntoChunks` gives such chunks when its reads are full. An empty
  file has no chunks and is never reported as received (`EmptyNeverAssembled`). When completion is reported, and how a
  failed reopening delays it to the next duplicate, is in `ReportedExactly`.
- *The backoff overflows.* docs/architecture.md:120 promises delays of 1, 2, 4, 8, 16 and then 30 seconds. That holds for
  the first 34 attempts since the last connection, then for eight more, and from attempt 56 on there is no delay at all
  (`BackoffExactly`).
- *Each reconnection starts another ping loop and another query loop*, and none ends before Stop (`LoopsPileUp`).
  `IsConnected` says that a connection was made once and Stop not called (`ConnectedExactly`), so it says yes all through
  an outage (`BlindToOutages`). After Stop at most one delay or connection happens
  (`StopIsFinal`), and none exactly if no goroutine is at a dial, about to set a connection or about to compute a delay
  when Stop sets its flag (`StopIsImmediate`); a connection made after Stop has returned is never closed
  (`StopOvertakes`).
- *Stale peers*: docs/architecture.md:128-130 says that peers not seen for 60 seconds are removed every 30 seconds. The
  code removes those not seen for more than 30 seconds, every 10 seconds; the bound proved is 40 seconds. A peer found
  again by mDNS loses its profile (`ProfileIsRecent` says which profile the table has), and messages on an open connection
  do not keep a peer online (`GoneAfterForty`).
- *Checksums*: docs/architecture.md:97 and docs/protocol.md:96 say that the receiver verifies the checksum. The code
  computes a hash and compares it with nothing, so nothing is claimed about checksums.
- *Channels that share a members slice corrupt each other*: a leave shifts the shared array in place (`SharedSlice`). The
  agent gives every channel a slice of its own.
- *Leaves commute without any condition*: distinct members and a host that is the first member are needed only for the
  order of succession (`Confluent`, `Succession`).

## Model

| member | source | states |
|---|---|---|
| RelayLocks.LockInvStep | cmd/lan-relay/main.go:70-206 | Every step, including the one that hands a recipient's mutex to a delivery goroutine, keeps lock owners equal to what the threads' control points hold, with writers excluding each other and all readers. |
| RelayLocks.CourierHeld | internal/protocol/message.go:72-76 | A delivery holds the recipient's mutex throughout, takes the connection's mutex for the write alone and inside it, and hands nothing on. |
| RelayProgress.LocksInOrder | cmd/lan-relay/main.go:139-206 | Whatever a thread holds is below what it asks for next, in the order channelIndexMu, s.mu, session mutex, connection mutex. |
| RelayProgress.AgentsFrozen | cmd/lan-relay/main.go:193-205 | While a handler holds s.mu for reading, no step of anybody changes the registry. |
| RelayProgress.WaiterHasMover | cmd/lan-relay/main.go:70-206 | In every well-formed state without a crash, a chain of threads, each waiting for a lock claim that the next one owns, leads from a waiting thread to one that can step. |
| RelayProgress.NobodyOvertakes | cmd/lan-relay/main.go:70-206 | While a writer has announced itself for a lock, nobody who has not got it already gets it or announces itself, so the readers it waits for only become fewer. |
| RelayProgress.DeadlockFree | cmd/lan-relay/main.go:70-206 | In every run without the registration crash, whenever some thread waits, some thread can step. |
| RelayProgress.CrashCause | cmd/lan-relay/main.go:70-75 | A step crashes a handler if and only if it registers an ID whose registered session has closed its done already. |
| RelayProgress.CrashIsForever | cmd/lan-relay/main.go:70-84 | After such a crash, in every continuation, each thread that needs s.mu waits forever and the registry never changes. |
| RelaySolo.PoliteRunsAreDeadlockFree | cmd/lan-relay/main.go:70-98 | With one live session per ID there is never a crash, and a waiting thread implies one that can step. |
| RelaySolo.HastyReconnectCrashes | cmd/lan-relay/main.go:70-84 | For every ID there is a run in which a reconnection before the old session's removal crashes holding s.mu while the old teardown waits for it. |
| RelayDrain.WorkDecreases | cmd/lan-relay/main.go:102-206 | Every step without new input lowers a measure of the work left, whatever the outcomes. |
| RelayDrain.InternalRunsEnd | cmd/lan-relay/main.go:102-206 | A run without new input is at most as long as the measure of the state it starts in. |
| RelayDrain.StoppedMeansQuiet | cmd/lan-relay/main.go:102-206 | Where no step without new input is possible, all handlers wait for input or have ended, every delivery is finished and every lock is free, or a registration has crashed. |
| RelayDrain.EveryRunDrains | cmd/lan-relay/main.go:102-206 | Every run without new input that cannot be continued ends like that, within the work there was; with one live session per ID, without a crash. |
| RelayDrain.Drains | cmd/lan-relay/main.go:102-206 | Such a run exists from every state. |
| RelayDelivery.PerSenderFifo | cmd/lan-relay/main.go:102-206 | In every interleaving, frames of one sender stand on a recipient's socket in the order its read loop read them, none twice, each with the message that was read. |
| RelayDelivery.ExactDelivery | cmd/lan-relay/main.go:174-206 | A handler that has gone through its snapshot has a message in hand that names a channel, and has spawned one delivery for exactly the sessions registered under the snapshot's IDs, never its own ID; if that is still all that channel's other members, for every registered one of them. |
| RelayMembers.ExactForever | cmd/lan-relay/main.go:174-206 | Whatever happens later, those remain all the deliveries ever spawned for that message. |
| RelayMembers.FramesReachMembers | cmd/lan-relay/main.go:174-205 | For every frame on any socket at any time of any run, some earlier step is the sender's snapshot for that very message, when the channel that the message names had the recipient's ID as a member other than the sender's, and another is the lookup that found the recipient's session under it. |
| RelayDelivery.OnlyRecipients | cmd/lan-relay/main.go:193-205 | Nothing reaches a socket but through a delivery spawned for that session. |
| RelayHandled.EveryMessageHandled | cmd/lan-relay/main.go:102-206 | Whatever text or file that names a channel a handler is past, an earlier step of its own has released the index after the write the message asks for, if any, and another took the snapshot for it: if the channel it names was in the index then, the handler has gone through all its other members. The only exception is the panic of a creation with a short ID, after its write. |
| RelayHandled.HandledOnce | cmd/lan-relay/main.go:102-206 | No message has a second write or a second snapshot. |
| RelayArrival.WireIsSent | cmd/lan-relay/main.go:198-203 | A frame is on a socket if and only if the send of a delivery of it to that session has succeeded. |
| RelayArrival.DeliveryArrives | cmd/lan-relay/main.go:195-203 | A delivery's message is on its recipient's socket if and only if its own send has succeeded. |
| RelayArrival.MessageArrives | cmd/lan-relay/main.go:174-206 | In any run in which no send fails and every delivery is past its send, every text or file with a channel that its handler is past is on exactly the sockets of the sessions that were registered, when the handler had gone through its snapshot, under the other members that the channel it names had at the snapshot; on none if that channel was not in the index. |
| RelayArrival.EverythingArrives | cmd/lan-relay/main.go:102-206 | Left without new input after any run, the relay comes to rest or a registration crashes, and at rest every message has arrived like that if no send has failed. |
| RelayAnswers.EveryQuestionAnswered | cmd/lan-relay/main.go:107-112 | Once a handler is past a ping or a question who is online, exactly one step has tried to send its answer: a pong, or the list of all IDs registered at an earlier step for this question. It is on the socket if and only if that step succeeded, and a failed pong has ended the handler. |
| RelayAnswers.AnswersInOrder | cmd/lan-relay/main.go:107-112 | The answers on a socket are pongs for pings and lists for questions, in the order these were asked and none twice. |
| RelayAnswers.HandlersEnd | cmd/lan-relay/main.go:102-118 | A handler leaves its loop if and only if a read fails, a pong fails, or it has created a channel with a short ID. |
| RelayAnswers.AnythingHappens | cmd/lan-relay/main.go:102-205 | Every connection, message, read error, result of a send and order of iteration is possible whenever the machine is there. |
| RelayFold.IndexIsFold | cmd/lan-relay/main.go:85-166 | At any moment of any run, while nobody writes the index, it is what all creations, leaves and teardowns released so far give, each applied as a whole as its message says, in the order of their releases. |
| RelayFold.CreationAddsAll | cmd/lan-relay/main.go:140-155 | A creation about to release the index has added every member its message names. |
| RelayHandled.CommitWrites | cmd/lan-relay/main.go:139-166 | The write of a message is the creation or the leave it names, by the session's own ID, and a leave is logged as that departure. |
| RelayIndex.IndexIsHistory | cmd/lan-relay/main.go:139-170 | In every run the index and all back-pointers equal a replay of the events: named and not taken out since by the own leave or a pinned session's teardown. |
| RelayHand.EventsHaveCauses | cmd/lan-relay/main.go:139-170 | In every run each of these events was caused by a creation in hand that names the ID, a leave in the ID's own hand, or a teardown. |
| RelayIndex.OnlySelfRemoves | cmd/lan-relay/main.go:85-95 | A step takes an ID out of a channel only if it is that ID's own leave of this channel or the teardown of its session pinned there; no other channel changes for it. |
| RelayIndex.OnlySelfDeregisters | cmd/lan-relay/main.go:70-84 | A registration ends only by the teardown of the very session or by a newer session of the same ID. |
| RelayRemains.MembersExactly | cmd/lan-relay/main.go:139-170 | With no creation under way, an ID is in a channel if and only if a session of it is pinned there since it was last named and has not cleaned up, or its last word there was loose: named while unregistered, or named again between the halves of its own leave. |
| RelayRemains.RemainsExactly | cmd/lan-relay/main.go:70-98 | When all sessions of an ID have ended, it is in a channel if and only if its last word there was loose or some step registered another session in the place of one pinned there, which so ended without cleaning up. |
| RelayRemains.OnlyStraysRemain | cmd/lan-relay/main.go:78-98 | With one live session per ID, when all sessions of an ID have ended, it is in a channel if and only if its last word there was loose. |
| RelayRemains.BackPointersAreIndexed | cmd/lan-relay/main.go:139-170 | With one live session per ID, every back-pointer of a session yet to clean up has its index entry, outside the gap between a leave's halves. |
| RelayEmpty.EmptyStep | cmd/lan-relay/main.go:85-166 | A step leaves a channel empty if and only if it enters it into the index, or the channel was empty and the step is no addition to it, no leave from it and no teardown of a session pinned to it. |
| RelayEmpty.EmptyIsHistory | cmd/lan-relay/main.go:85-166 | Over every run a channel is empty if and only if some step entered it and no later one touched it. |
| RelayEmpty.EmptyExactly | cmd/lan-relay/main.go:140-166 | Whenever nobody writes the index, that step was a creation that names nobody and found the channel not in the index. |
| RelayEmpty.NoEmptyChannels | cmd/lan-relay/main.go:140-166 | If every creation names somebody, no indexed channel is empty whenever nobody writes the index. |
| RelayGap.LeaverStays | cmd/lan-relay/main.go:158-170 | There is a run after which an agent has left, its sessions have ended and cleaned up, it was registered whenever it was named, and it is a member still. |
| RelayGap.ReplacedStays | cmd/lan-relay/main.go:71-79 | There is a run after which both sessions of an agent have ended, nothing was loose, and it is a member still, because the second session replaced the first. |
| RelayGap.EmptyChannelStays | cmd/lan-relay/main.go:141-155 | There is a run in which a creation without members leaves an empty channel with the index lock free. |
| RelayServer.Server.AddMember | cmd/lan-relay/main.go:145-146 | The server that reflects a state of the machine reflects the next one after a named member's entry. |
| RelayServer.Server.PinMember | cmd/lan-relay/main.go:149-151 | So it does after the member's back-pointer. |
| RelayServer.Server.CreateChannel | cmd/lan-relay/main.go:140-155 | With nothing in between, a creation adds exactly the named members to those there and gives exactly the registered ones their back-pointers. |
| RelayServer.Server.LeaveChannel | cmd/lan-relay/main.go:159-165 | The server that reflects a state of the machine reflects the next one after the first half of a leave. |
| RelayServer.Server.RemoveFrom | cmd/lan-relay/main.go:87-94 | The loop over the back-pointers, in any order, removes the ID from exactly these channels and drops those left empty. |
| RelayServer.Server.CleanUp | cmd/lan-relay/main.go:86-95 | With it, the server reflects the machine's cleanup step. |
| RelayServer.Server.Snapshot | cmd/lan-relay/main.go:180-190 | The targets list the members without the sender, each once, and are a choice the machine allows; nothing if the channel is unknown. |
| RelayServer.Server.Register | cmd/lan-relay/main.go:70-75 | It panics exactly when the machine crashes, on a replaced session whose done is closed; otherwise that done is closed, the ID maps to the new session, and the server reflects the next state. |
| RelayServer.Server.OnlineIds | cmd/lan-relay/main.go:209-214 | The answer lists every registered ID once. |
| SenderInvariant.StepKeepsInv | internal/fileservice/service.go:79-167 | Every step of dispatcher, workers, Stop, pause, cancel and resume keeps the counters equal to the live workers, the retry bounds, the meaning of the failure flag, the counting loop's bound and the shape of the trace. |
| SenderResults.FinalStatus | internal/fileservice/service.go:79-149 | The final write is Failed if and only if some chunk has failed exactly three times without having been sent; Completed if and only if every chunk has been sent or has failed less often; without Stop, Completed if and only if every chunk has been sent. |
| SenderResults.NeverGivenUp | internal/fileservice/service.go:103-137 | As long as Stop is not called, a worker that is through with its chunk, at any moment of any run, has sent it or has failed exactly three times with it. |
| SenderResults.StopCanComplete | internal/fileservice/service.go:103-148 | There is a run with Stop that ends Completed although its only chunk was never sent. |
| SenderStop.StopLosesExactly | internal/fileservice/service.go:79-149 | Some continuation after Stop ends Completed with a chunk undone if and only if, when Stop comes, the dispatcher has asked for it a last time, no chunk is exhausted, and some undone chunk's worker is yet to start, about to try, or in an attempt after which it would try again. |
| SenderResults.LifetimeSendBound | internal/fileservice/service.go:103-137 | Over any number of resumes a chunk reaches the send function at most three times, each time right after a successful read, and not again after a success; each failure of at most three costs one retry, and its status is what its reads and sends come to. |
| SenderResults.ExhaustedForever | internal/fileservice/service.go:187-197 | A chunk without retries left is never sent again, and no later run of the transfer ends Completed. |
| SenderResults.BoundedConcurrency | internal/fileservice/service.go:23-101 | At most as many workers as the service was made for, 4 if it was made for none, hold a slot, a chunk's worker is started only once per run, and at the end both counters are zero. |
| SenderResults.ProgressNeverOverReports | internal/fileservice/service.go:158-167 | In every interleaving of the counting loops, the recorded progress times the number of chunks is 100 times some number of chunks, no more than are done. |
| SenderResults.NothingToCount | internal/fileservice/service.go:158-167 | A transfer without chunks never updates its progress, so no update divides by zero. |
| SenderResults.StatusIsLast | internal/fileservice/service.go:140-211 | The status is that of the last pause (Paused), cancellation (Failed), resume (Running) or end of a run. |
| SenderProgress.ProgressExactly | internal/fileservice/service.go:124-167 | All runs that end Completed without Stop report 100 percent if and only if there is one chunk or the service has one worker. |
| SenderProgress.OneWorkerIsExact | internal/fileservice/service.go:124-167 | Then the progress at the end of every run, times the number of chunks, is 100 times the number of done chunks, whatever fails, with Stop and over resumes. |
| SenderProgress.StaleProgress | internal/fileservice/service.go:124-167 | For any two or more chunks and workers there is a run that ends Completed with all chunks done and the percentage of one of them. |
| SenderResults.TraceGrammar | internal/fileservice/service.go:68-155 | A finished run's events are transfer.start if it is the first, one chunk.done for exactly the chunks done in this run, then transfer.done. |
| SenderResults.WorkDecreases | internal/fileservice/service.go:85-142 | Every step of the dispatcher or a worker lowers a measure of attempts, positions and chunks left. |
| SenderResults.RunNeverBlocks | internal/fileservice/service.go:96-142 | Until the run is over the dispatcher or some worker can step. |
| SenderResults.RunEnds | internal/fileservice/service.go:79-156 | From every state the dispatcher and the workers alone end the run within the work left. |
| Splitter.CopyAll | internal/fileservice/types.go:125-127 | The hash is taken of exactly the bytes that the reads hand out before one fails, which leaves exactly the reads after that. |
| Splitter.SplitIntoChunks | internal/fileservice/types.go:112-157 | For any short reads it succeeds if and only if no read of the second pass fails, and then partitions the file: consecutive indices and offsets, sizes from 1 to the limit, each chunk's own hash, the size, and the checksum of exactly the bytes that the first pass got; with full reads all chunks but the last are full. |
| Splitter.HandedExactly | internal/fileservice/types.go:125-127 | Reading to the end gets less than the file if and only if the first read that fails comes before the reads ahead of it have handed it all out, and then what these hand out. |
| Splitter.FailureUnnoticed | internal/fileservice/types.go:126 | With the first read failing, it succeeds with the checksum of no bytes. |
| Splitter.PartitionAt | internal/fileservice/types.go:138-146 | What that partition says about one chunk: its index, its start at the end of the one before, its hash. |
| Splitter.SplitFile | internal/filetransfer/transfer.go:120-151 | For any short reads it succeeds if and only if no read fails; then the chunks concatenate to the file and the hash taken chunk by chunk equals that of the whole, for every streaming hash; full chunks with full reads. |
| Splitter.ReadChunk | internal/fileservice/types.go:159-173 | One read at the chunk's offset: an error if it fails or finds the end, otherwise a part of the chunk, and all of it if the read is full. |
| Splitter.SliceLoop | clients/typescript/src/mcp.ts:130-134 | The loop over subarrays gives the slices of the data. |
| Splitter.ConcatSlices | clients/typescript/src/mcp.ts:130-134 | The slices concatenate to the data. |
| Splitter.FullPiecesAreSlices | internal/filetransfer/transfer.go:131-148 | Pieces that are full but for the last are the slices of their concatenation, so SplitFile with full reads and the TypeScript loop agree piece for piece. |
| Splitter.SplittersAgree | internal/fileservice/types.go:129-156 | With full reads SplitIntoChunks describes the same pieces, and chunk k starts at k times the chunk size. |
| Splitter.SliceReader.Read | internal/protocol/message.go:105-112 | Copies as much as fits from the offset, leaves the rest of the buffer, and reports the end exactly when nothing is left. |
| Splitter.SliceReader.ReadAll | internal/protocol/message.go:93-112 | Reading to the end with any buffer sizes gives exactly the bytes left. |
| Receiver.Manager.Accept | internal/filetransfer/transfer.go:79-97 | The new state and the reply for every chunk: unknown transfers, negative indices, failed writes, duplicates, the last missing index, late chunks, and a file that cannot be read back. |
| Receiver.Manager.Assemble | internal/filetransfer/transfer.go:99-118 | The handle is closed and no byte changes; completion is reported if the file can be reopened and read, and an error is returned otherwise. |
| Receiver.FullSet | internal/filetransfer/transfer.go:92-93 | A set of indices below n has n elements if and only if it has all of them. |
| Receiver.Reassembly | internal/filetransfer/transfer.go:79-103 | For pieces of any sizes up to 64 KB in any order, with duplicates, failed writes and other transfers in between: assembled exactly when every index is written in full, and from then on the file is the target whatever arrives. |
| Receiver.TargetIsConcat | internal/filetransfer/transfer.go:86-91 | That target is the concatenation of the pieces if and only if all but the last are full. |
| Receiver.RoundTrip | internal/filetransfer/transfer.go:59-118 | A non-empty file split with full reads is assembled exactly when the last missing chunk is written, and then is the original for good. |
| Receiver.EmptyNeverAssembled | internal/filetransfer/transfer.go:92-95 | An empty file is never assembled, and its file stays empty. |
| Receiver.ReportedExactly | internal/filetransfer/transfer.go:92-118 | Completion is reported if and only if some chunk comes when every index has been written in full and the file can be read at that moment. |
| Receiver.AnswersExactly | internal/filetransfer/transfer.go:79-111 | A chunk of an announced transfer is answered without an error of its own if and only if it was written in full or came after assembly; a failed reopening is reported exactly if every index is there then and the file cannot be read. |
| Receiver.ConfirmedIsAssembled | internal/filetransfer/transfer.go:79-118 | Once every index has been answered with success, the file is assembled and is the target. |
| Receiver.UnknownExactly | internal/filetransfer/transfer.go:82-85 | Over any deliveries, a chunk is answered as unknown if and only if its transfer was neither known at the start nor announced before it. |
| Receiver.ClosedAtCount | internal/filetransfer/transfer.go:92-95 | Whatever indices come, the file is closed as complete exactly when the number of different ones written in full has reached the total. |
| Receiver.StrayIndexCloses | internal/filetransfer/transfer.go:92-95 | So one index past the end closes a file of two chunks that lacks one. |
| Receiver.RefusedExactly | internal/filetransfer/transfer.go:86-91 | A chunk of an announced transfer, whatever its index, is refused as not written exactly if the file is still open and the chunk is not written in full at an index from 0. |
| Receiver.UnannouncedIsLost | internal/filetransfer/transfer.go:82-85 | Chunks of transfers nobody has announced change nothing, whatever their number. |
| EndToEnd.EveryChunkSent | internal/fileservice/service.go:144-148 | Completed without Stop means that every chunk was sent successfully exactly once. |
| EndToEnd.CompletedMeansArrived | internal/fileservice/service.go:45-156 | If such a transfer's successful sends reach the receiver, in any order and with anything else in between, its file is the sender's. |
| ChannelManager.Manager.Create | internal/channel/channel.go:35-49 | The channel has the creator as host and keeps the members slice itself, shared or not; the others are untouched. |
| ChannelManager.Channel.Delete | internal/channel/channel.go:67 | The in-place shift: the slice without its element i, and the old last element left behind in the backing array. |
| ChannelManager.Channel.Drop | internal/channel/channel.go:65-74 | The record after the search, the deletion of the first occurrence and the succession of the host, and the array after the shift. |
| ChannelManager.Manager.Leave | internal/channel/channel.go:58-79 | The whole manager after a leave: an error for an unknown channel, the record's change, the channel gone if it is empty, and another channel changed only if it shares the array, then as the shift changes it. |
| ChannelManager.SharedSlice | internal/channel/channel.go:67 | Of two channels with one slice of two members, the second lists its second member twice after the first member has left the first. |
| ChannelManager.Manager.IsMember | internal/channel/channel.go:81-94 | Yes if and only if the channel exists and lists the agent. |
| ChannelManager.Manager.GetHost | internal/channel/channel.go:96-104 | The host of a channel that exists. |
| ChannelManager.Manager.ListByPeer | internal/channel/channel.go:116-129 | Exactly the channels that list the agent. |
| ChannelManager.LeavesAreOutcome | internal/channel/channel.go:58-79 | Any sequence of leaves has a closed form: the original order less one occurrence per leave, the host kept unless it left, the channel deleted when nobody remains. |
| ChannelManager.Confluent | internal/channel/channel.go:58-79 | The order of the leaves does not matter, for any channel. |
| ChannelManager.Succession | internal/channel/channel.go:65-77 | With distinct members and the host first, the host stays first, the rest keeps its order, and the channel is deleted if and only if all have left. |
| ChannelManager.ChannelByChannel | internal/channel/channel.go:58-79 | Each channel sees only its own leaves. |
| ChannelManager.ManagerConfluent | internal/channel/channel.go:58-79 | Leaves from any channels in any order come to the same manager. |
| FolderDiff.DiffFolders | internal/fileservice/types.go:198-217 | For any iteration order, adds, modifies and deletes list exactly the new paths, the paths of changed hash and the vanished paths, each once, with the new entries. |
| FolderDiff.DiffFoldersIsDiff | internal/fileservice/types.go:184-217 | For manifests as the folder walk builds them, that result is a diff in the sense of the theorems below. |
| FolderDiff.PatchIsExact | internal/fileservice/types.go:198-217 | Applied to any manifest of the old content, the diff gives the new content. |
| FolderDiff.PatchIsTidy | internal/fileservice/types.go:198-217 | Its three lists name disjoint paths without repeats, and other paths stay as they were. |
| FolderDiff.PatchIsMinimal | internal/fileservice/types.go:198-217 | Every patch with the same effect names at least its paths. |
| FolderDiff.EmptyDiff | internal/fileservice/types.go:198-217 | It is empty if and only if the contents agree. |
| FolderDiff.PatchesCompose | internal/fileservice/types.go:198-217 | Diffs through a middle manifest compose. |
| RelayClient.BackoffExactly | internal/relay/client.go:110-117 | The delay of attempt k is the documented one if and only if k is at most 34 or one of eight later numbers, and is zero from 56 on. |
| RelayClient.BackoffValue | internal/relay/client.go:110-117 | For every k it is the 64-bit number of nanoseconds in 2^(k-1) seconds, or 30 seconds if that is more. |
| RelaySession.SingleSession | internal/relay/client.go:56-108 | In every interleaving at most one goroutine reads, reconnects or connects, and from the first connection until Stop there always is one. |
| RelaySession.DelaysDocumented | internal/relay/client.go:81-117 | Over every run each delay is the documented one exactly if its attempt, counted from the last connection, is at most 34 or one of the eight. |
| RelaySession.RedialsAreDelayed | internal/relay/client.go:89-108 | Over every run, before each redial come, since the last connection, the first delay, slept to its end, the first redial, the second delay, and so on, and last the delay of this redial. |
| RelaySession.StoppedRunsEnd | internal/relay/client.go:65-217 | Once Stop has closed the channel, every step but a tick leaves less to do, and nothing is left exactly when every goroutine has ended. |
| RelaySession.StopIsFinal | internal/relay/client.go:65-108 | After Stop at most one more delay or connection happens. |
| RelaySession.StopIsImmediate | internal/relay/client.go:65-108 | In no continuation does any happen if and only if no goroutine is at a dial, about to set a connection or about to compute a delay when the flag is set. |
| RelaySession.StopOvertakes | internal/relay/client.go:56-73 | There is a run in which Stop has returned, having found no connection, and a connection is made after that. |
| RelaySession.LoopsPileUp | internal/relay/client.go:59-61 | Until Stop, as many ping loops and as many query loops run as connections were ever made. |
| RelaySession.ConnectedExactly | internal/relay/client.go:75-79 | IsConnected says yes if and only if a connection was ever made and Stop has not set its flag. |
| RelaySession.BlindToOutages | internal/relay/client.go:75-79 | IsConnected says yes at every moment of a reconnection before Stop. |
| Presence.OnlineTable.Register | internal/p2p/p2p.go:205-218 | A known peer keeps its address and, if none comes, its profile; an unknown one is entered. |
| Presence.OnlineTable.CleanupStalePeers | internal/p2p/p2p.go:80-87 | The loop removes exactly the entries older than 30 seconds, in any order of iteration. |
| Presence.OnlineTable.GetOnlinePeers | internal/p2p/p2p.go:106-114 | The list has every online peer once. |
| Presence.PresenceIsHistory | internal/p2p/p2p.go:73-251 | Over every run a peer is online if and only if a sighting still counts, and its entry's time is that sighting's. |
| Presence.BoundedStaleness | internal/p2p/p2p.go:73-91 | With a cleanup at least every period, no entry is ever older than 30 seconds plus the period. |
| Presence.GoneAfterForty | internal/p2p/p2p.go:73-91 | With the code's ten seconds a peer last sighted more than 40 seconds ago is not online. |
| Presence.FortyIsReached | internal/p2p/p2p.go:73-91 | A run in which an entry is exactly 40 seconds old. |
| Presence.RecentStay | internal/p2p/p2p.go:82-84 | A peer seen within the last 30 seconds is online unless it said goodbye or its connection broke. |
| Presence.AddressIsFirst | internal/p2p/p2p.go:206-217 | A peer's address is that of its last mDNS sighting or, without one since it came online, of the connection it came online with. |
| Presence.ProfileIsRecent | internal/p2p/p2p.go:73-251 | The table has a profile for a peer if and only if some event told it to a peer online after that event, and since then the peer has stayed online, was not found again by mDNS, and was told nothing else. |

## Left out

- The relay's handlers, the chunk sender and the relay client are machines over values, since their steps interleave with
  those of other goroutines; updates in place of their records are captured as new values of the state.
- RelayModel records the answers and the forwarded frames on a socket apart, not their order to each other, nor the
  answer to a registration, which is sent before the machine begins.
- RelayModel decides a send's result freely and lets every send return; a socket that blocks forever is outside.
- The iteration of a handler over the channel's set and of the teardown over the back-pointers is one step under the lock
  that covers it; the loops themselves are the methods of RelayServer.
- CreateChannel: is the section with no other goroutine in between; that others may register between two members is in the
  machine, whose steps AddMember and PinMember refine.
- A panic in a handler ends that handler alone, as the HTTP server recovers it.
- SenderModel takes runs of one transfer to be one after the other; `ResumeTransfer` does not check this. The unsynchronised
  fields are read and written one at a time.
- Percent: uses real numbers in place of 64-bit floats, so rounding is not modelled.
- CompletedMeansArrived: is about a transfer that is announced to the receiver under one ID, whose data messages carry that
  ID, and whose chunks are read in full; `ReadChunk` does not repeat a short read. The agent does none of the first two:
  its send function never sends a `file_meta` and gives every data message an ID of its own (cmd/lan-a2a/main.go:468-482),
  so its receiver drops all of them, as `UnannouncedIsLost` says. Its relay path announces a transfer but gives the data
  messages other IDs as well (cmd/lan-a2a/main.go:288-302).
- Receiver.RoundTrip: assumes that the file could be created and that no other transfer uses its path.
- The multiplication of a chunk index by the chunk size is not wrapped to 64 bits, nor is the client's attempt counter.
- Completion callbacks are recorded each time; a duplicate after assembly reports again, and nothing is claimed about how
  often.
- Opening the file, its size and the first `Seek` of the splitters succeed; a file does not change while it is read.
- Channel mode, name and time are not modelled, and the confluence theorems are about channels that share no slice.
- ListByPeer: returns a set; the order of the list is that of a map iteration.
- Presence keeps peers as values in the table: a record changed after it left the table is not modelled. The clock stands
  still during one cleanup pass, and the lock makes every operation one step.
- RelaySession does not model c.mu beyond making its critical sections atomic, and messages received change nothing there.
- Saving and loading the manifest in folder sync, walking directories, SHA-256 itself, JSON, WebSocket, dialing and mDNS.
- The wiring in cmd/lan-a2a, the command line, MCP tools, logging, the status page, profiles, plugins beyond their event
  trace, adapters, and the rest of the TypeScript client: they would add easy members only.
