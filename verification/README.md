# Verification of the HID bridge firmware

A Dafny 4.11 model of an RP2350 firmware that takes framed commands over USB CDC and
plays them out as USB keyboard and mouse reports, and of the host client that talks to
it. The project states and proves what keeps held input safe: who owns the executor, what
a STOP_ALL acknowledgement means, when running work is cancelled, what a batch does, and
how often a retried command is carried out.

`dafny verify dfyconfig.toml` checks everything.

## How the model is laid out

| module | what it holds |
|---|---|
| `Types`, `Crc`, `CrcDivision`, `Protocol`, `Wire` | machine integers, the CRC and the polynomial division it is, frames and their codec, everything on the wire in numbers |
| `FrameStream`, `Receiver` | the fixed receive buffer, resynchronisation, packets cut anywhere, and which frames become requests |
| `Commands`, `InputState`, `Ascii`, `Movement` | typed commands, the six-key state, pulses, text, movement steps |
| `ExecutionCore`, `Executor`, `Effects`, `Output` | execution under write faults and cancellation: scripts, the executor that runs them, what the host sees |
| `Batch` | collection on a shadow state, execution on the real one |
| `Coordinator`, `CoordinatorHistory`, `Decisions`, `Replay`, `Retention`, `Fingerprint` | admission, deduplication and replay, when exactly a request gets which decision, and what holds over every history of calls |
| `Cancellation` | generations, the last-value signal, the STOP_ALL core |
| `Runtime`, `Pipeline`, `Dispatcher`, `Guarantees`, `CancelGuarantees` | dispatcher and executor as a transition system, its invariant, and what follows |
| `DispatcherTask` | the dispatcher's handlers on mutable objects, each equal to its step |
| `Session` | the receiver's stamps, the reset paths, the safety-event and response queues around them |
| `Lease` | the wrapping lease and partial-frame clocks |
| `Ledger`, `Provenance` | what every run accepted, started and ended, and where each entry comes from |
| `Client`, `Agreement`, `Link` | the host's retry loop, what it makes of every answer, and host and coordinator over a lossy link |
| `EndToEnd`, `Progress`, `Success` | retry loop, link, dispatcher and executor together: nothing runs twice, and everything can succeed |

Objects the source updates in place are classes whose methods are proved equal to
specification functions; the properties are proved of those functions. The tasks of
`src/runtime.rs` form a transition system: everything between two awaits is one step,
channels are sequences bounded by their capacities, the signal is an option, a task blocked
on a send is a program point, and `FinishCommand` is tied to exactly the cancellations the
running job saw. A few fields exist only to be counted (`born`, `cancels`, `bumps`,
`appliedBumps`, `captured`, `since`, `answers`, `admitted`, `finished`, `sent` and the whole
`Ledger`); no step reads them.

The environment is left open: which report writes fail, what each cancellation point sees,
when packets, resets and safety events arrive, what Caps Lock is, which frames a link loses.
Results hold for every choice.

Where counters wrap, a result says how far it reaches: cancellation and session results need
fewer than 2^32 - 1 generations between two observations of them, the end-to-end result at
most 65535 commands in a session. `Cancellation.FullCycleRepeats` and
`Link.ReusedSequenceReplays` show that the bounds are needed.

Four places where the code does less than one might expect are stated as they are, with the exact
condition. An oversized header swallows as many of its first eleven bytes as happen to be buffered, so
how the stream is cut can matter, and does for some continuation exactly when a header declares more
than 240 bytes (`FrameStream.CuttingMattersExactly`). A `CommandType::Unknown` does not survive encoding
exactly when it holds an assigned byte (`Protocol.FromByteAsByte`). On the host, the buffer fails every
read for good exactly when it starts with a header that declares too much
(`Client.StuckExactlyWhenOversized`). The host estimate of how long a tap or click takes falls short exactly
when the key or button is already down (`Output.EstimateCoversDelays`).

## Model

| member | source | states |
|---|---|---|
| Guarantees.NoBlockedSend | src/runtime.rs:252-409 | In every reachable state a finished job finds room in RESULTS, and a dispatcher stuck behind a full JOBS leaves the executor idle with a job to start; both channels stay within their capacities. |
| Guarantees.InFlightBound | src/runtime.rs:58-81 | All the places a job or result can be hold at most two, a command before an emergency, and without an emergency in flight only a command. |
| Guarantees.NoUnreachableBranch | src/runtime.rs:289-299 | Every well-formed request can be handled: no admission lacks its token, and BATCH_END always finds the collector, so the nack for a missing one is never taken. |
| Guarantees.OwnershipTracksPipeline | src/coordinator.rs:462-464 | Exclusive ownership in the coordinator is exactly a live command in the pipeline; only with an emergency in flight may a disowned command still be under way. |
| Guarantees.StopAckedOnlyReleased | src/runtime.rs:379-389 | Every pending STOP_ALL is acknowledged in order when an emergency comes back, with the real and the copied input state cleared, the two zero reports attempted last, and nothing else in flight. |
| Guarantees.StopsWaitForRelease | src/runtime.rs:379-404 | No other step ends a pending STOP_ALL: until the emergency returns or the session is reset it stays pending and its entry live, so it is neither answered nor replayed. |
| Guarantees.PendingStopsAreLive | src/stop_core.rs:27-91 | The live cache entries are exactly the pending STOP_ALLs and the command in flight; the pending list has no duplicates and never exceeds its 64 slots. |
| Guarantees.StopIsRecorded | src/stop_core.rs:50-57 | An admitted STOP_ALL is appended to the pending list (the push never fails), an emergency is in flight and the new generation is in the signal. |
| Guarantees.CommandCompletes | src/runtime.rs:369-378 | A command result still owed completes its live entry and is answered once; one from before a reset changes nothing and is not answered; afterwards nobody owns the executor. |
| Guarantees.BatchEndsAsCollected | src/runtime.rs:463-490 | A batch starts in the real state it was collected from, so it ends in the collector's shadow or is interrupted and released; no other error is possible. |
| Guarantees.SingleEndsAsSpecified | src/runtime.rs:439-462 | A dispatched single command ends in its specified state, or interrupted and released, or refused for the one reason its state gives with nothing sent. |
| Guarantees.UnguardedIsReleased | src/runtime.rs:851-858 | When guarded work is reported absent and no emergency is in flight, the executor really holds nothing and nothing is in flight. |
| Guarantees.GuardedExactly | src/runtime.rs:851-858 | With no emergency in flight, work is guarded exactly if the executor holds input, a command is in flight or a batch is open. |
| Guarantees.CollectAnswered | src/runtime.rs:314-338 | A command sent into an open batch joins and is acknowledged, or is refused for the one reason the simulated state or the count of 32 gives, with the batch dropped, an emergency in flight and the signal set. |
| Dispatcher.StepKeeps | src/runtime.rs:252-409 | Every step of the dispatcher and of the executor keeps the pipeline invariant. |
| Dispatcher.ReachableFlow | src/runtime.rs:252-499 | The pipeline invariant (shape, ownership, batch, jobs, states, live entries) holds in every reachable state. |
| Dispatcher.BeginKeeps | src/runtime.rs:350-354 | At BATCH_BEGIN nothing is in flight and the copied input state is the real one, so the collector starts from the real state. |
| Dispatcher.StopKeeps | src/runtime.rs:343-346 | Handling STOP_ALL keeps the invariant and records exactly its token. |
| Dispatcher.PendingHasRoom | src/stop_core.rs:54-55 | There is always room for one more pending STOP_ALL because each holds a cache slot. |
| Dispatcher.SafetyEventKeeps | src/runtime.rs:391-404 | A safety event drops the batch, the pending STOP_ALLs, the whole cache and the owner, leaves an emergency in flight with the new generation in the signal, and keeps the invariant. |
| Dispatcher.ExecuteFacts | src/runtime.rs:287-313 | A request to execute finds no owner and no emergency; BATCH_END has a collector; a single command is typed and within the wait limit. |
| Pipeline.EmergencyTaken | src/runtime.rs:379-389 | When an emergency result is taken it was the only thing in flight, and every pending token is completed in order. |
| Pipeline.CommandTaken | src/runtime.rs:369-378 | When a command result is taken its live entry is completed and ownership ends; a stale one changes nothing. |
| Pipeline.AckAllCompletes | src/runtime.rs:383-388 | Distinct live tokens that expect an ACK are all completed in order, and no other entry is touched. |
| Pipeline.AnswersAck | src/runtime.rs:656-672 | Nothing that reaches the executor is a query, so a command or batch that succeeds answers with an ACK. |
| Dispatcher.ExecuteBodies | src/coordinator.rs:538-572 | An executed request is the end of a batch, or one batchable command the second decoding will accept, and expects an ACK. |
| Pipeline.Handovers | src/runtime.rs:434-499 | Moving a job or result from one channel or task to the next changes nothing the pipeline invariant sees. |
| CancelGuarantees.NoFalseCancellation | src/command_executor.rs:49-97 | A job comes back cancelled exactly when one of its cancellation points saw another generation, and then an emergency was scheduled after its dispatch; no bound on the number of cancellations is needed. |
| CancelGuarantees.NoLostCancellation | src/stop_core.rs:82-90 | Once an emergency has been scheduled after a job's dispatch, and within one full cycle of generations, the job is already cancelled or its next look, check or delay cancels it, whatever was left in the signal. |
| CancelGuarantees.ReachableCancel | src/runtime.rs:674-679 | In every reachable state the signal is empty or holds the newest generation, and every job knows the generation it was dispatched under. |
| CancelGuarantees.BatchHonest | src/execution_core.rs:236-251 | A batch is reported cancelled exactly when its last look at the signal saw a cancellation, all earlier ones having seen none. |
| CancelGuarantees.LookIsCheck | src/command_executor.rs:58-68 | One look of a running job is one check of its wait object on the same signal, and dropping a stale value is a check that sees nothing. |
| CancelGuarantees.UndisturbedUntilScheduled | src/command_executor.rs:71-87 | While nothing has been scheduled since its dispatch, no look of a running job and no interleaving of a delay fails. |
| Session.AdmittedUnderItsSession | src/runtime.rs:266-285 | A request is admitted only if its stamp is both the current and the applied session, with no reset outstanding; it is then handled as the dispatcher step says and its replies are queued under that stamp. |
| Session.ResetIsAlwaysFollowedUp | src/runtime.rs:686-696 | The current and the applied session differ only while a safety event is queued or being sent. |
| Session.CompletionCarriesItsStamp | src/runtime.rs:698-706 | What is queued for a completion carries the stamp the completed request was admitted under. |
| Session.WritesAreCurrent | src/runtime.rs:709-735 | A response write begins only if no reset has begun since the session the response belongs to. |
| Session.RequestsAreAlwaysTaken | src/runtime.rs:266-276 | A dispatcher at its select can always take the request in front of it. |
| Session.StaleRequestsDropped | src/runtime.rs:267-270 | A request captured under another session is taken and dropped, and nothing else changes. |
| Session.SafetyEventClears | src/runtime.rs:391-404 | A safety event leaves no request and no response from before queued, an empty coordinator under the newest session, and an emergency in flight. |
| Session.ResetsStrand | src/runtime.rs:686-696 | A reset by DTR, lease or USB starts another session, and no request read or being read before it bears the new stamp. |
| Session.CurrentIsWritten | src/runtime.rs:709-735 | A response of the current session at the front of the queue is written. |
| Session.AnswersQueued | src/runtime.rs:698-706 | Of several answers as many as the eight places leave room for are queued, stamped and in order; the rest is dropped. |
| Session.ResponsesBounded | src/static_resources.rs:16-20 | At most eight responses are ever queued. |
| Session.QueuesTakeMore | src/static_resources.rs:16-20 | An acceptable frame waits only for the eight places of the request queue, a safety event only for its four. |
| Session.QueuesAreServed | src/runtime.rs:252-266 | A dispatcher at its select can take any waiting result or safety event, and the response in front of its queue can always be taken. |
| Session.ReceiverRecovers | src/runtime.rs:96-104 | From every reachable state with the dispatcher at its select the receiver can read again under the newest session after at most the delivery and handling of one safety event; at once if the sessions agree. |
| Session.CoreOfSystem | src/runtime.rs:252-499 | Every state of the whole system contains a reachable state of dispatcher and executor, so all their guarantees hold in it. |
| Session.ReachableSystem | src/runtime.rs:83-108 | Session counters, stamps of captured and queued items and the origin of every live entry are consistent in every reachable state. |
| DispatcherTask.Dispatcher.constructor | src/runtime.rs:252-257 | The task's objects changed in place: starts as the initial state of the transition system. |
| DispatcherTask.Dispatcher.TryComplete | src/runtime.rs:375 | The task's objects changed in place: completes a live entry or leaves the coordinator as it was. |
| DispatcherTask.Dispatcher.ScheduleRelease | src/runtime.rs:674-679 | The task's objects changed in place: advances the generation and asks for one emergency job unless one is in flight. |
| DispatcherTask.Dispatcher.Execute | src/runtime.rs:287-313 | The task's objects changed in place: hands the job to the executor with the batch taken out of its slot, or refuses a batch without one. |
| DispatcherTask.Dispatcher.Collect | src/runtime.rs:314-338 | The task's objects changed in place: pushes the command and acknowledges, or drops the batch, aborts, refuses and schedules a release. |
| DispatcherTask.Dispatcher.CompleteBypass | src/runtime.rs:411-431 | The task's objects changed in place: answers a query at once and completes its entry. |
| DispatcherTask.Dispatcher.TakeRequest | src/runtime.rs:266-367 | The task's objects changed in place: one request handled exactly as the transition system's step says. |
| DispatcherTask.Dispatcher.AckStops | src/runtime.rs:383-388 | The task's objects changed in place: acknowledges each pending STOP_ALL whose entry is live, in order. |
| DispatcherTask.Dispatcher.TakeResult | src/runtime.rs:368-390 | The task's objects changed in place: one result handled exactly as the step says. |
| DispatcherTask.Dispatcher.TakeSafetyEvent | src/runtime.rs:391-404 | The task's objects changed in place: a safety event handled exactly as the step says. |
| Cancellation.GenerationAdvances | src/safety.rs:206-211 | Each cancellation moves to the next of the 2^32 - 1 nonzero generations, skipping zero. |
| Cancellation.GenerationsDistinct | src/safety.rs:183-191 | Snapshots fewer than a full cycle apart are equal only if no cancellation happened in between. |
| Cancellation.FullCycleRepeats | src/safety.rs:185-187 | After a full cycle an old snapshot looks current again, so the bound is necessary. |
| Cancellation.CancellationGeneration.Cancel | src/safety.rs:207-211 | Advances the stored generation once and returns it. |
| Cancellation.CancelSignal.TryTake | src/command_executor.rs:63 | Consumes whatever the signal holds. |
| Cancellation.CancelWait.Check | src/command_executor.rs:58-68 | Sticky nonblocking check: fails exactly when this or an earlier look saw another generation. |
| Cancellation.CancelWait.Delay | src/command_executor.rs:71-87 | A wait interleaved with any publications and polls ends exactly as the reference interleaving says. |
| Cancellation.BaselineNeverCancels | src/safety.rs:226-229 | While only the baseline generation is about, stale copies included, neither a check nor any interleaving of a delay fails. |
| Cancellation.OthersAlwaysCancel | src/command_executor.rs:71-97 | With another generation in the signal, or published while waiting, the check or the delay fails for every interleaving. |
| Cancellation.StopCore.constructor | src/stop_core.rs:36-42 | Whole new state: no pending STOP_ALL and no emergency. |
| Cancellation.StopCore.Schedule | src/stop_core.rs:82-90 | Whole new state: one new generation per call, one enqueued reset until it completes. |
| Cancellation.StopCore.Stop | src/stop_core.rs:50-57 | Whole new state: the token joins the list and a release is scheduled. |
| Cancellation.StopCore.CompleteEmergency | src/stop_core.rs:71-74 | Whole new state: yields the pending tokens and ends the emergency. |
| Cancellation.StopCore.ClearPendingStops | src/stop_core.rs:77-79 | Whole new state: forgets the tokens and nothing else. |
| Coordinator.Coordinator.constructor | src/coordinator.rs:445-454 | The object changed in place, equal to its specification: the initial state. |
| Coordinator.Coordinator.Find | src/coordinator.rs:523-528 | The object changed in place, equal to its specification: first entry with the sequence. |
| Coordinator.Coordinator.CountActive | src/coordinator.rs:686-690 | The object changed in place, equal to its specification: number of active entries. |
| Coordinator.Coordinator.ScanRing | src/coordinator.rs:698-709 | The object changed in place, equal to its specification: first completed slot at or after the eviction pointer. |
| Coordinator.Coordinator.Insert | src/coordinator.rs:685-730 | The object changed in place, equal to its specification: insertion into a free or completed slot, or no change. |
| Coordinator.Coordinator.CompleteRequest | src/coordinator.rs:575-605 | The object changed in place, equal to its specification: completion of exactly the active entry, or an error and no change. |
| Coordinator.Coordinator.AdmitPrepared | src/coordinator.rs:518-572 | The object changed in place, equal to its specification: the admission decision and new state. |
| Coordinator.Coordinator.BeginBatch | src/coordinator.rs:607-626 | The object changed in place, equal to its specification: opening a batch. |
| Coordinator.Coordinator.EndBatch | src/coordinator.rs:628-641 | The object changed in place, equal to its specification: closing a batch into exclusive execution. |
| Coordinator.Coordinator.PassBy | src/coordinator.rs:643-651 | The object changed in place, equal to its specification: queries and heartbeats. |
| Coordinator.Coordinator.StopNow | src/coordinator.rs:653-661 | The object changed in place, equal to its specification: STOP_ALL, using the reserved slot. |
| Coordinator.Coordinator.Mutate | src/coordinator.rs:663-683 | The object changed in place, equal to its specification: mutating commands: collected, executed or refused. |
| Coordinator.Coordinator.Abort | src/coordinator.rs:476-480 | The object changed in place, equal to its specification: dropping an open collection. |
| Coordinator.Coordinator.Clear | src/coordinator.rs:483-492 | The object changed in place, equal to its specification: a fresh session. |
| Coordinator.FindSequence | src/coordinator.rs:523-528 | The first entry with this sequence, or none at all. |
| Coordinator.FindActive | src/coordinator.rs:589-593 | The first active entry with this token, or none at all. |
| Coordinator.FirstCompleted | src/coordinator.rs:698-709 | The first completed slot of the ring from the pointer, everything before it being active. |
| Coordinator.ChooseSlot | src/coordinator.rs:685-709 | A free slot, or a completed slot of a full cache, or none. |
| Coordinator.FromFrameWellFormed | src/coordinator.rs:279-296 | An accepted request is unadmitted, and has sequence zero exactly if it is the no-response heartbeat. |
| Decisions.StopDecision | src/coordinator.rs:553-561 | A fresh STOP_ALL is accepted exactly if a slot and an identifier are left, whoever is busy; otherwise it gets BUSY. |
| Decisions.MutatingDecision | src/coordinator.rs:663-683 | A fresh mutating command is executed exactly if nothing external, no batch and no owner is in the way and there is room, collected exactly if a batch is open and there is room, told that a batch is executing exactly if one is, and otherwise that the executor is occupied. |
| Decisions.BeginDecision | src/coordinator.rs:607-626 | BATCH_BEGIN is acknowledged exactly over an idle executor with room, rejected exactly inside a batch, and otherwise gets BUSY. |
| Decisions.EndDecision | src/coordinator.rs:628-641 | BATCH_END is executed exactly if a batch is open and there is room, rejected exactly if none is, and otherwise gets BUSY. |
| Decisions.QueryDecision | src/coordinator.rs:643-651 | A query is answered exactly if it wants an answer and there is room, whoever is busy; the silent heartbeat is taken without one. |
| Decisions.UndecodableDecision | src/coordinator.rs:538-552 | A fresh request that does not decode is rejected with WAIT_TOO_LONG or BAD_COMMAND, whatever the state. |
| Decisions.KnownDecision | src/coordinator.rs:523-536 | A request with a cached sequence gets a conflict, the duplicate refusal or the stored response, from its entry alone. |
| Decisions.RejectedExactly | src/coordinator.rs:518-641 | For every state, request and error code: when exactly a request is rejected with that code. |
| Decisions.LeaseRefreshedExactly | src/runtime_safety.rs:71-101 | A request refreshes the lease exactly if it is of version 2 and is a retry or decodes. |
| CoordinatorHistory.HistoriesKeepInv | src/coordinator.rs:433-441 | After every history of calls: cached sequences nonzero and distinct, tokens distinct, answers bound to their entries, owners live, an executor owner only with the batch idle. |
| CoordinatorHistory.AdmitMeaning | src/coordinator.rs:518-683 | What each admission decision means for tokens, live entries and owners; a refusal, replay or heartbeat changes nothing; external work excludes execution and batches. |
| CoordinatorHistory.AdmitBodies | src/coordinator.rs:538-572 | An accepted request carries the body its bytes decode to, and the decision fits its class. |
| CoordinatorHistory.CompleteSucceeds | src/coordinator.rs:575-605 | Completion succeeds if and only if the token is active and the response is final and bound to it. |
| CoordinatorHistory.CompleteEffect | src/coordinator.rs:590-604 | A completion changes one entry and frees no other token. |
| CoordinatorHistory.AckExpected | src/coordinator.rs:746-751 | Every request that is not a query expects an ACK, and an accepted wait is within the limit. |
| CoordinatorHistory.InsertEffect | src/coordinator.rs:685-730 | An insertion writes one slot, free or completed, with a fresh identifier. |
| CoordinatorHistory.AbortOnlyClosesCollection | src/coordinator.rs:476-480 | An abort closes an open collection and touches no entry, owner or executing batch. |
| Replay.ExactReplay | src/coordinator.rs:523-536 | After any further history, a request reusing the sequence gets the duplicate refusal until the first completion and then exactly that response, or a conflict if it differs, unless evicted or reset. |
| Replay.StateOverHistory | src/coordinator.rs:575-605 | The state of a cached entry is decided by the first response completed for it. |
| Replay.CachedAnswer | src/coordinator.rs:523-536 | Any request with a cached sequence is answered from the cache alone. |
| Replay.AtMostOneCompletion | src/coordinator.rs:590-605 | Over the coordinator's whole life, across sessions, a token is completed at most once. |
| Replay.StaysForgotten | src/coordinator.rs:732-743 | An entry that left the cache never comes back. |
| Retention.RetentionFloor | src/coordinator.rs:685-730 | An entry inserted while a others are active survives every history with at most 63 - a further insertions. |
| Retention.RetentionCeiling | src/coordinator.rs:695-727 | Once the cache is full, 64 further insertions remove any completed entry. |
| Retention.ActiveNeverEvicted | src/coordinator.rs:698-709 | Within a session an active entry stays active until, and only until, its own completion. |
| Retention.StopAlwaysHasRoom | src/coordinator.rs:685-693 | Over every history at most 63 active entries are not STOP_ALLs, so a fresh STOP_ALL is refused for room only if all 64 are active and one is a STOP_ALL. |
| Retention.AdmitPlaces | src/coordinator.rs:685-730 | An admission rewrites nothing, or one slot chosen by the ring scan, and only STOP_ALL may take the last free one. |
| Fingerprint.FnvStepInjective | src/coordinator.rs:1081-1083 | One FNV-1a step modulo 2^64 determines the hash from the byte and the byte from the hash. |
| Fingerprint.OneByteChangesFingerprint | src/coordinator.rs:1072-1084 | Changing one byte of version, flags, type or payload always changes the fingerprint. |
| Fingerprint.ChangedRetryConflicts | src/coordinator.rs:529-531 | A retry with one byte changed is refused as a conflict in every state of the entry. |
| Fingerprint.ComputeFingerprint | src/coordinator.rs:1072-1084 | The fold over the chained bytes computes the fingerprint. |
| Fingerprint.CoversAllButSequence | src/coordinator.rs:1072-1079 | The hash covers exactly the bytes the frame checksum covers, except the sequence. |
| Fingerprint.InputTellsFrames | src/coordinator.rs:1072-1079 | Frames with the same hashed bytes differ at most in their sequence. |
| Fingerprint.HashOfLetterA | src/coordinator.rs:1072-1084 | The published FNV-1a check value: the letter a hashes to af63dc4c8601ec8c. |
| Batch.ValidationPredicts | src/batch.rs:78-119 | Validation accepts exactly the batchable commands the executor would not refuse, with the state it would leave; its error is the one the executor would give. |
| Batch.PushKeepsPromise | src/batch.rs:55-76 | Collecting keeps the prediction; a valid command is turned away only at 32 commands, the byte limit being unreachable. |
| Batch.JoinsExactly | src/batch.rs:55-119 | A command joins exactly if it may be batched, waits no longer than a minute, would not be refused in the simulated state and is at most the 32nd; otherwise the code names the first of these that fails. |
| Batch.ShadowPredictsExecution | src/execution_core.rs:236-251 | From the collected state, for every write fault, cancellation and Caps Lock history, the batch reaches exactly the shadow or is interrupted and released. |
| Batch.BatchOutcome | src/execution_core.rs:236-251 | A collected batch can fail only with Cancelled or HidWrite. |
| Batch.SingleOutcome | src/runtime.rs:547-571 | A single command run through encode and decode ends as specified, interrupted and released, or refused unsent. |
| Batch.StoredSurvives | src/runtime.rs:547-571 | Running a stored command through its encoding is running the command. |
| Batch.RunBatch | src/execution_core.rs:236-251 | The batch loop over the executor equals its specification: stop at the first error with one release, otherwise the response to the last command. |
| Batch.BatchDelivers | src/execution_core.rs:236-251 | A batch that ends without failure has sent exactly the reports of all its commands, in order. |
| Batch.BatchCollector.constructor | src/batch.rs:27-33 | An empty collection over the given state. |
| Batch.BatchCollector.PushCommand | src/batch.rs:55-76 | Validation, then command count, then byte count; a refusal leaves the collector unchanged. |
| ExecutionCore.OutcomeTrichotomy | src/execution_core.rs:56-162 | For every command, state and schedule: success is the specified state with every report delivered; interruption leaves everything released with the zero reports last; any other error sent nothing and changed nothing. |
| ExecutionCore.OnceEnds | src/execution_core.rs:73-162 | The same trichotomy for one attempt without recovery. |
| ExecutionCore.RunSucceeds | src/execution_core.rs:178-226 | A run that succeeds delivered every report in order and committed every state. |
| ExecutionCore.RunFails | src/execution_core.rs:178-226 | A run without a refusal fails only by a cancellation that was seen or a write that did not go out. |
| ExecutionCore.BodyMeaning | src/execution_core.rs:73-162 | A refused command does nothing but refuse; an accepted one commits exactly its next state and refuses nowhere in the middle. |
| ExecutionCore.ResetReleases | src/execution_core.rs:164-176 | A release clears the state and attempts both zero reports whatever happens to either. |
| Executor.HidExecutor.constructor | src/execution_core.rs:24-39 | The executor's loop or write, equal to its script on every schedule: idle, nothing sent. |
| Executor.HidExecutor.CheckCancelled | src/execution_core.rs:26 | The executor's loop or write, equal to its script on every schedule: one cancellation point. |
| Executor.HidExecutor.DelayFor | src/execution_core.rs:28 | The executor's loop or write, equal to its script on every schedule: a delay is a point before and after. |
| Executor.HidExecutor.SendReport | src/execution_core.rs:30-38 | The executor's loop or write, equal to its script on every schedule: one attempted report. |
| Executor.HidExecutor.CommitKeyboardState | src/execution_core.rs:178-186 | The executor's loop or write, equal to its script on every schedule: state committed only after its report went out. |
| Executor.HidExecutor.CommitMouseState | src/execution_core.rs:188-196 | The executor's loop or write, equal to its script on every schedule: state committed only after its report went out. |
| Executor.HidExecutor.SendMouse | src/execution_core.rs:32-38 | The executor's loop or write, equal to its script on every schedule: a movement or wheel report that leaves the held state alone. |
| Executor.HidExecutor.SendRelativeMouseStep | src/execution_core.rs:41-53 | The executor's loop or write, equal to its script on every schedule: a downward step as a compensated pair. |
| Executor.HidExecutor.ResetAll | src/execution_core.rs:164-176 | The executor's loop or write, equal to its script on every schedule: clear, then both zero reports. |
| Executor.HidExecutor.PressAndRestore | src/execution_core.rs:198-211 | The executor's loop or write, equal to its script on every schedule: press, delay, restore. |
| Executor.HidExecutor.ExecuteKeyboardPulse | src/execution_core.rs:198-211 | The executor's loop or write, equal to its script on every schedule: a tap's pulse. |
| Executor.HidExecutor.ClickAndRestore | src/execution_core.rs:213-226 | The executor's loop or write, equal to its script on every schedule: press, delay, restore. |
| Executor.HidExecutor.ExecuteMousePulse | src/execution_core.rs:213-226 | The executor's loop or write, equal to its script on every schedule: a click's pulse. |
| Executor.HidExecutor.TypeStrokes | src/execution_core.rs:112-116 | The executor's loop or write, equal to its script on every schedule: one cancellation point per stroke. |
| Executor.HidExecutor.MoveRelative | src/execution_core.rs:119-126 | The executor's loop or write, equal to its script on every schedule: one point before and after each step. |
| Executor.HidExecutor.TypeText | src/execution_core.rs:103-118 | The executor's loop or write, equal to its script on every schedule: refused unless idle and wholly supported. |
| Executor.HidExecutor.ExecuteBody | src/execution_core.rs:83-158 | The executor's loop or write, equal to its script on every schedule: the command itself. |
| Executor.HidExecutor.PressKey | src/execution_core.rs:86-91 | The executor's loop or write, equal to its script on every schedule: a key press. |
| Executor.HidExecutor.TapKey | src/execution_core.rs:98-102 | The executor's loop or write, equal to its script on every schedule: a tap. |
| Executor.HidExecutor.ExecuteCommandOnce | src/execution_core.rs:73-162 | The executor's loop or write, equal to its script on every schedule: one attempt. |
| Executor.HidExecutor.ExecuteCommand | src/execution_core.rs:56-70 | The executor's loop or write, equal to its script on every schedule: one attempt with release on interruption. |
| Effects.MovementConserved | src/execution_core.rs:119-126 | On success the delivered reports add up to exactly (dx, dy), compensation included, none of them straight down or with a wheel value; cancelled, they add up to a whole number of planned steps. |
| Effects.TypedTextReadsBack | src/execution_core.rs:103-118 | Typed text, read by a US-layout host on press edges under either Caps Lock state, is the text with CR and CR LF as LF. |
| Effects.ChecksFallBetweenSteps | src/execution_core.rs:119-126 | Every cancellation point of a movement lies between two complete steps. |
| Effects.CancelledRunStops | src/execution_core.rs:119-126 | A cancelled run stops at one cancellation point with everything before it delivered. |
| Output.ClickIsSeen | src/input_state.rs:195-209 | A successful click shows the host exactly that button going from up to down, whatever is held; no report touches another button or moves anything, and the host ends with the buttons it had. |
| InputState.ClickIsAPressEdge | src/input_state.rs:195-209 | The click plan has the button up before and down in its press, every other button unchanged, and restores the exact buttons. |
| Output.ButtonIsSent | src/execution_core.rs:127-138 | Pressing or releasing a button sends one report with exactly that button down or up and holds it so. |
| Output.WheelIsSent | src/execution_core.rs:144-147 | A wheel command sends one report with its wheel value, the held buttons and no movement. |
| Output.KeyPressIsSent | src/execution_core.rs:86-91 | A key press sends one report in which the key and its modifiers are down and everything else is as before. |
| Output.KeyReleaseIsSent | src/execution_core.rs:92-97 | A key release sends one report in which the key and its modifiers are up and everything else is as before. |
| Output.TapIsSent | src/execution_core.rs:98-102 | A tap sends a real press edge for its key or modifiers and then the very state it began in. |
| Output.NothingIsSent | src/execution_core.rs:83-85 | Waits and queries send no report. |
| Output.RefusedExactly | src/execution_core.rs:86-118 | All a dispatched command can be refused for: a seventh key, a text over anything held, a text with a byte that cannot be typed. |
| Output.PointsPassed | src/execution_core.rs:73-162 | How many cancellation points each successful command passes: one before and after, two per delay, two per movement step, one per stroke. |
| Output.EstimateCoversDelays | tools/hidctl/src/client.rs:448-464 | The host estimate for a tap, click, text or wait covers the delays of the device exactly if nothing has to be let go first; otherwise the device takes twice as long. |
| InputState.KeyDownEffect | src/input_state.rs:43-56 | Which keys and modifiers are held after a press, and exactly when it is refused. |
| InputState.KeyUpEffect | src/input_state.rs:58-69 | Exactly one key and the given modifiers are released, the order of the others kept. |
| InputState.TapIsAPressEdge | src/input_state.rs:75-107 | A tap plan always gives a real press edge, keeps every other key held and restores the exact prior state. |
| InputState.CanonicalIsUnique | src/input_state.rs:15-20 | Distinct, nonzero, zero-padded slots are determined by the held keys. |
| InputState.IdleIsUnique | src/input_state.rs:306-308 | There is one idle state. |
| InputState.HeldKeyboard.constructor | src/input_state.rs:23-29 | The six-slot array changed in place, equal to the value version: idle. |
| InputState.HeldKeyboard.Position | src/input_state.rs:109-115 | The six-slot array changed in place, equal to the value version: first slot holding the key. |
| InputState.HeldKeyboard.KeyDown | src/input_state.rs:43-56 | The six-slot array changed in place, equal to the value version: a refused key changes nothing. |
| InputState.HeldKeyboard.CloseGap | src/input_state.rs:66-68 | The six-slot array changed in place, equal to the value version: the slots behind move down and the last is zeroed. |
| InputState.HeldKeyboard.KeyUp | src/input_state.rs:58-69 | The six-slot array changed in place, equal to the value version: release in place. |
| Ascii.ComputeAsciiStrokes | src/input_state.rs:322-350 | The loop computes the strokes or the first unsupported byte. |
| Ascii.CapsLockNeverMatters | src/commands.rs:200-206 | Which texts are supported, which byte is refused, and how many strokes a text takes do not depend on Caps Lock. |
| Ascii.KeystrokeReadsBack | src/commands.rs:152-206 | The host decodes every mapped stroke, with no modifier but shift, back to its byte, CR as LF, under either Caps Lock state. |
| Ascii.TypeableExactly | src/commands.rs:152-198 | A text can be typed exactly if it is printable ASCII, backspace, tab and line ends; otherwise its first other byte is the one reported. |
| Movement.StepsConserve | src/input_state.rs:262-290 | For every 16-bit displacement the steps stay in range, are nonzero, sum to it and number the larger distance divided by 127, rounded up. |
| Movement.RelativeMovementSteps.constructor | src/input_state.rs:263-268 | The whole displacement remains. |
| Movement.RelativeMovementSteps.Next | src/input_state.rs:274-289 | Takes the first remaining step in place, or reports that none is left. |
| Commands.EncodedCommandSurvives | src/runtime.rs:602-654 | Writing an owned command out and decoding it gives it back if and only if its wait is within the limit. |
| Commands.StorableCommands | src/owned_command.rs:28-48 | The commands admission can store are exactly those that survive the second decoding. |
| Commands.EncodeInto | src/runtime.rs:602-654 | The payload is written over the front of the buffer and the rest is untouched. |
| FrameStream.StreamRoundTrip | src/frame_stream.rs:122-158 | Any frames with magic-free noise in front of each, cut into packets anyhow, come out complete, in order and decoded, with an empty buffer at the end. |
| FrameStream.PacketsDoNotMatter | src/runtime.rs:172-191 | On a stream whose drain refuses nothing, every way of cutting it gives the same frames and leftover bytes as one uncut drain. |
| FrameStream.RefusedExactlyWhenOversized | src/frame_stream.rs:128-150 | A drain refuses nothing if and only if a walk over the frame boundaries of the bytes reaches no header declaring more than 240. |
| FrameStream.SoundStreamsAgree | src/runtime.rs:172-191 | If that walk reaches no oversized header, every two ways of cutting the stream into packets agree in events and leftover bytes. |
| FrameStream.OversizedHeadersDependOnPackets | src/frame_stream.rs:143-150 | Behind anything that drains completely, an oversized header and a magic pair give the same refusal in one packet or two, but one packet leaves nothing and two leave the pair as the start of a frame. |
| FrameStream.CuttingMattersExactly | src/frame_stream.rs:143-150 | Behind anything that drains completely and in front of anything that reaches no further oversized header, the cut makes no difference if and only if the header declares at most 240. |
| FrameStream.DrainLeavesRoom | src/runtime.rs:196-248 | Draining never leaves a full buffer, so appending always makes progress. |
| FrameStream.FrameBuffer.ShiftLeft | src/frame_stream.rs:18-27 | Drops a prefix of the buffer in place. |
| FrameStream.FrameBuffer.AppendPacketChunk | src/frame_stream.rs:33-48 | Appends as much of the packet as fits. |
| FrameStream.FrameBuffer.TakeAction | src/runtime.rs:201-246 | One turn of the drain loop takes the front action and hands on its frame or refusal. |
| FrameStream.FrameBuffer.DrainFrames | src/runtime.rs:196-248 | The drain loop hands on everything the specification does and leaves the same bytes. |
| FrameStream.FrameBuffer.ReceiveChunk | src/runtime.rs:173-186 | One turn of the packet loop. |
| FrameStream.FrameBuffer.ReceivePacket | src/runtime.rs:172-191 | One packet through the fixed buffer gives exactly what the specification does. |
| Wire.FramesOnTheWire | src/protocol.rs:190-223 | A string is accepted exactly if it starts with A5 5A, has the length it declares, at most 240, and ends in the remainder of the rest; its fields are read big end first. |
| Wire.WrittenOnTheWire | src/protocol.rs:139-169 | A frame is written field by field at its offsets, big end first, and sealed with the remainder. |
| Wire.CommandsOnTheWire | src/commands.rs:66-150 | A frame asks for a command exactly if it has that type byte and payload, given in numbers. |
| Wire.LongWaitsOnTheWire | src/commands.rs:136-150 | The one request error with its own code is a four-byte wait of more than 60000 ms. |
| Wire.ErrorsOnTheWire | src/error.rs:10-53 | Every error has its own byte, decoded back to it, and exactly those bytes make a NACK final. |
| Receiver.AcceptedExactly | src/protocol.rs:171-188 | Every frame that can be sent: when exactly it becomes a request, with or without a reply, carrying what the frame carries, and otherwise the exact refusal. |
| Receiver.HostFrameAccepted | tools/hidctl/src/client.rs:216-228 | Every frame the client or its heartbeat thread writes becomes the request it is meant as. |
| Receiver.HostFramesArrive | src/runtime.rs:196-248 | Whatever the host writes, with noise in front of any frame and cut anyhow, arrives as exactly those requests in order, none refused. |
| Receiver.BrokenFramesRefused | src/runtime.rs:235-243 | A whole frame that does not decode is refused as BAD_FRAME under the version and sequence that can be read from it. |
| Receiver.OversizedRefused | src/runtime.rs:205-217 | A header that declares more than 240 is refused as BAD_FRAME under the version and sequence it shows and takes what is buffered of its first eleven bytes. |
| Protocol.DecodeEncoded | src/protocol.rs:139-223 | Decoding an encoded frame returns it if and only if its command type is not a disguised known byte. |
| Protocol.EncodeDecoded | src/protocol.rs:190-223 | Whatever the decoder accepts is exactly the encoding of what it returns. |
| Protocol.AcceptedFrames | src/protocol.rs:190-223 | A string is accepted if and only if magic, length and a zero CRC remainder agree. |
| Protocol.BurstRejected | src/protocol.rs:190-238 | A same-length string differing from a valid frame only in two adjacent bytes, anywhere in it, is rejected. |
| Protocol.FromByteAsByte | src/protocol.rs:36-91 | A command type survives its byte if and only if it does not hide an assigned code. |
| Protocol.EncodeFrameWithFlags | src/protocol.rs:139-169 | Fills the front of the caller's buffer with the encoding, or fails and touches nothing. |
| Crc.ComputeChecksum | src/protocol.rs:225-238 | The byte and bit loops compute the checksum. |
| Crc.ChecksumBurst | src/protocol.rs:225-238 | Two strings that differ only in two adjacent bytes have different checksums. |
| Crc.SealedChecksum | src/protocol.rs:212-218 | A string followed by its checksum, and by nothing else, leaves remainder zero. |
| CrcDivision.ChecksumIsRemainder | src/protocol.rs:225-238 | The checksum is the remainder of the data, sixteen zeros behind it and its first sixteen bits inverted, divided by x^16 + x^12 + x^5 + 1. |
| CrcDivision.CheckValue | src/protocol.rs:225-238 | The digits 1 to 9 give 29B1. |
| Lease.LeaseRefines | src/runtime_safety.rs:176-205 | Over every timely run the wrapping lease requests release exactly when one on an unbounded clock does. |
| Lease.WakeRefines | src/runtime_safety.rs:176-215 | One transition on wrapped times is one on true times: same release, same refresh remembered. |
| Lease.ReleasesAtTheFirstLapse | src/runtime_safety.rs:171-205 | Within a session nothing is released before a full duration passes without a refresh, and then release is requested exactly if work is guarded. |
| Lease.LateWakesAndStrangers | src/runtime_safety.rs:173-198 | A refresh observed in time wins over a late wake; another session's lease or refresh never releases anything. |
| Lease.ReachedTruly | src/safety.rs:24-26 | Within half the range the wrapped comparison tells the true order. |
| Lease.RuntimeLease.constructor | src/runtime_safety.rs:143-148 | Unarmed. |
| Lease.RuntimeLease.Clear | src/runtime_safety.rs:207-210 | Disarms lease and session together. |
| Lease.RuntimeLease.Expire | src/runtime_safety.rs:212-215 | Disarms, and requests release if work is guarded. |
| Lease.RuntimeLease.ShouldRelease | src/safety.rs:95-97 | Guarded, armed and reached. |
| Lease.RuntimeLease.Wake | src/runtime_safety.rs:176-205 | The transition in place, equal to its specification. |
| Lease.PartialTimesOutTruly | src/safety.rs:136-180 | The partial-frame timer expires after exactly its timeout of true time, and reports exactly the remainder. |
| Lease.PartialFrameTimeout.NoteProgress | src/frame_stream.rs:83-85 | Arms the deadline, or disarms it on an empty buffer. |
| Lease.PartialFrameTimeout.Expire | src/frame_stream.rs:55-66 | A reached deadline drops the whole buffer and disarms; otherwise nothing changes. |
| Lease.PartialFrameTimeout.RemainingMs | src/frame_stream.rs:104-111 | The time left, zero once reached. |
| EndToEnd.ExactlyOnceOrAtMostOnce | tools/hidctl/src/client.rs:205-277 | Client, link, dispatcher and executor in one session of at most 65535 commands, for every loss, timeout, BUSY, stale reply, write failure, schedule, cancellation and HID fault: what is handed to the executor is the command sent under its sequence, at most once each; success means accepted exactly once for what its class says, and alone executed exactly once and ended without failure, as BATCH_END one job without failure that handed over everything that had joined once each, as a batch member at most once and only inside a batch, as a query, BATCH_BEGIN or STOP_ALL not at all; reports follow commands one to one. |
| EndToEnd.SetupStepKeeps | src/runtime.rs:252-499 | Every step of client, link, dispatcher and executor keeps frames, cache, pipeline and ledger consistent, and every request under way the one begun under its sequence. |
| EndToEnd.ReceiveKeepsLink | src/runtime.rs:266-367 | Whatever the dispatcher decides about the frame in front and answers at once is a step the link invariant allows. |
| EndToEnd.ResultKeepsLink | src/runtime.rs:368-390 | Whatever the dispatcher completes and answers when a result comes back is a step the link invariant allows. |
| EndToEnd.CountsAreZeroOrOne | src/runtime.rs:252-499 | How often the command sent under a sequence was handed to the executor, and how often a job was started for it, is zero or one. |
| Ledger.StepLedger | src/runtime.rs:252-499 | Every step keeps the record of acceptances, starts and ends ordered, paired and matching the job in the pipeline. |
| Ledger.NothingRunsTwice | src/runtime.rs:434-499 | Over every run, resets included, no job is started or ended twice and no request's command is handed to the executor twice, alone or in a batch. |
| Ledger.RunningJobIsRecorded | src/runtime.rs:439-490 | What the executor is running is exactly what the last recorded start carries. |
| Ledger.EndedJobDelivered | src/runtime.rs:439-490 | A job that ends without failure has sent every report of every command its start records, in order. |
| Ledger.AckMeansExecutedOnce | src/runtime.rs:369-378 | A command result that comes back belongs to a job started exactly once and ended exactly once, and is an ACK exactly if that job ended without failure, otherwise the refusal with its error. |
| Provenance.StepBatched | src/runtime.rs:314-338 | Every step keeps each batch job made of exactly the requests that joined it since the batch was opened. |
| Provenance.RecordedFits | src/coordinator.rs:538-572 | What a request is accepted for fits its class, and what it adds to run is the command its bytes decode to. |
| Link.AcceptedAtMostOnce | tools/hidctl/src/client.rs:205-277 | With any completions at all in place of the device: success means accepted exactly once and completed; any command is accepted at most once; reports follow commands one to one. |
| Link.ReusedSequenceReplays | tools/hidctl/src/client.rs:273-277 | Past 65535 commands the bound is needed: the same command under the reused sequence gets the cached answer and is not executed. |
| Link.LinkStepKeeps | tools/hidctl/src/client.rs:205-277 | Every step of client, link and device keeps the order of frames and the newest accepted request in the cache. |
| Agreement.FinalAnswersUnderstood | tools/hidctl/src/client.rs:550-555 | Whatever can complete a command is taken by the client that sent it for a success with that payload, or, if a NACK, for exactly that error byte. |
| Agreement.RefusalsUnderstood | tools/hidctl/src/client.rs:245-251 | A refusal reaches the caller as the error it was. |
| Agreement.BusyUnderstood | tools/hidctl/src/client.rs:234-244 | A BUSY of the device is well formed, asks for ten milliseconds, gives its reason and makes the client try again unless it was the last try. |
| Agreement.QueriesSucceed | src/runtime.rs:411-431 | Every query is answered with a success for the client that sent it, telling version, limit and the capabilities of that version. |
| Agreement.JobsUnderstood | src/runtime.rs:656-672 | What a job answers is taken for success exactly if it ended without failure, and otherwise for the very error it ended with. |
| Agreement.DecisionsUnderstood | src/runtime.rs:266-367 | In every reachable state: what the client makes of the answer sent as soon as its request is decided, a rejection as its error, a BUSY as one more try, a query or an opened batch as success, a finished retry as its first answer, and no answer yet for what has to run. |
| Success.EveryCommandCanSucceed | tools/hidctl/src/client.rs:205-277 | From every idle state host and device can reach, every command that needs the executor, decodes and is not refused by the held input has a run in which it is sent once, executed with every report delivered, reported successful, and both sides are idle again. |
| Success.EveryQueryCanSucceed | tools/hidctl/src/client.rs:205-277 | The same for queries, with one frame each way and nothing executed. |
| Progress.JobRuns | src/runtime.rs:434-499 | A job handed over while nothing interferes is started, looks, ends and reports, for whatever it carries. |
| Client.AttemptsDecide | tools/hidctl/src/client.rs:230-268 | The loop decides by the first reply that is not a timeout or a well-formed BUSY, or by the last of its attempts, never earlier, and reports exactly what that reply says. |
| Client.SequencesCount | tools/hidctl/src/client.rs:273-277 | The n-th command has sequence n mod 65535 + 1, never zero. |
| Client.StaleRepliesSkipped | tools/hidctl/src/client.rs:502-548 | Stale replies and magic-free noise anywhere in front of the awaited reply are discarded, it is returned as sent, and what follows stays buffered. |
| Client.DamagedReplyFails | tools/hidctl/src/client.rs:531-537 | A whole reply with a wrong checksum, to whatever command, fails the read and is removed, never skipped. |
| Client.OversizedReplySticks | tools/hidctl/src/client.rs:523-527 | Behind any stale replies a header fails this read and every later one, and stays in the buffer, if and only if it declares more than 240. |
| Client.StuckExactlyWhenOversized | tools/hidctl/src/client.rs:502-548 | A buffer fails every read for every command without losing a byte if and only if it starts with an oversized header. |
| Client.OneHeaderSticks | tools/hidctl/src/client.rs:523-527 | A header declaring 241 bytes is enough. |
| Client.MovementEstimateIsExact | tools/hidctl/src/client.rs:454-458 | The host's estimate for a movement is exactly the number of steps the device sends. |
| Client.HidClient.constructor | tools/hidctl/src/client.rs:192-202 | First sequence one, empty buffer. |
| Client.HidClient.TakeSequence | tools/hidctl/src/client.rs:273-277 | Hands out the current sequence and moves to the next. |
| Client.HidClient.SendWithRetries | tools/hidctl/src/client.rs:230-270 | The retry loop returns exactly the specified verdict after the specified number of frames. |
| Client.HidClient.TryDecodeResponse | tools/hidctl/src/client.rs:502-548 | Works through the buffer in place exactly as specified. |

## Left out

- Client.HidClient.SendWithRetries: the replies of the attempts are a parameter; response timeouts, batch durations, sleeping and the serial port are not modelled.
- Executor.HidExecutor.DelayFor: a delay is only its cancellation points; real time does not pass in the execution model.
- Cancellation.CancelWait.Delay: the interleaving of publications and polls is a parameter, and the timer may fire at any point of it.
- The Caps Lock state each command sees is a parameter.
- EndToEnd.ExactlyOnceOrAtMostOnce: one session, so no session reset and no counter wrap within it; after a reset the cache is gone and a retry may run again.
- Session.WritesAreCurrent: says when a write may begin; a write that is under way when a reset arrives is cancelled by a signal that is not modelled.
- Liveness beyond enabled sends: that an executor job ever ends depends on the USB host.
- DTR and the signals that interrupt a read or a write after a reset; the receiver may do at any moment what it may do at all.
- Request arrival order and flow control beyond the queue capacities.
- RuntimeModel (src/coordinator.rs) and the other adapters used only by tests, which simplify the runtime modelled here.
- When the lease task samples the refresh and the guarded-work flag; what refreshes it and what is guarded is in Decisions and Guarantees.
- LED modes, USB descriptors and wiring, HID report bytes, the Caps Lock output report.
- The web interface, the hidctl script and key parsers, port discovery and the heartbeat thread.
- The serial fallback that runs a frame with cancellation disabled.
