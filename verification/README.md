# Verified model of the Buzz agent scheduler

Buzz runs AI agents as members of chat channels. The `buzz-acp` crate queues the events of each channel, hands
them to an agent as a turn, talks the Agent Client Protocol with it (JSON-RPC 2.0 over lines of text), lets new
messages steer a running turn, and retries what fails. This project models that scheduler and protocol loop in
Dafny, with five smaller parts of the repository: the configuration merge, channel subscriptions, the lazily
started agent pool, the Redis client of the relay benchmark, and the microphone tap of a huddle.

`dafny verify dfyconfig.toml` checks everything.

## How it is organised

State that the system updates in place is a class (`EventQueue`, `AcpClient`, `PoolLifecycle`, `Stream`,
`SttTapProcessor`), and each of its methods is proved to take exactly one transition of a value-level model. The
properties of whole runs are lemmas about that model.

| file | subject |
|---|---|
| `Events.dfy` | events, batches, the stable order of a batch |
| `QueueModel.dfy`, `EventQueue.dfy` | the queue's tables and transitions; the class that implements them |
| `QueueMeaning.dfy` | what each call does, told from the tables alone with every amount and bound written out |
| `QueueLocality.dfy`, `QueueInvariant.dfy` | a call touches one channel; table shape, mutual exclusion, questions against actions |
| `QueueRuns.dfy`, `QueueScenes.dfy` | runs of a caller that returns only what it was handed, once; small queues to build such runs from |
| `QueueLedger.dfy`, `QueueReturn.dfy`, `QueueOrder.dfy` | conservation of events; what handing a batch back restores, and in which order |
| `QueueSteer.dfy`, `QueueRedelivery.dfy`, `SteerSettlement.dfy`, `SteerJourney.dfy` | withholding for a steer; when a consumed event can come back; what settling does; a request and its event from sending to settling |
| `QueueCancel.dfy`, `QueueCancelRuns.dfy`, `QueueRetry.dfy` | repeated cancels, and runs of them that lose events; backoff and dead letters |
| `QueueCompaction.dfy`, `QueueOrphans.dfy` | compaction as a bisimulation; when it shows |
| `QueueFairness.dfy`, `QueueOvertaking.dfy` | no starvation of queued events; how long cancelled ones can be overtaken |
| `ReadLoop.dfy`, `AcpClient.dfy`, `TurnProperties.dfy`, `TurnExits.dfy` | one turn of the protocol; the client class; what holds over every turn; how it ends and what it answers |
| `Backstop.dfy` | queue and read loop running together |
| `Numbers.dfy`, `ConfigMerge.dfy`, `Subscription.dfy`, `PoolLifecycle.dfy`, `Resp.dfy`, `RespReplies.dfy`, `SttTap.dfy` | the smaller parts |

Clock readings are parameters, and a run's readings never decrease. Where the code takes whichever entry a hash
table yields first (equal heads, cancelled channels), the choice is free and every property holds for all choices.
The read loop is driven by a script of what the outside does: lines, steer requests, and whether each write succeeds.

## What the proofs turned up

- **Returning a batch can lose events.** `requeue` and `requeue_preserve_timestamps` restore only `events`, cut at
  the cap. `ReturnRestoresExactly`, for every batch and every later state: all it carries is restored if and only if
  nothing cancelled had been merged into it and it fits in front of its queue within the cap. Both ways of losing
  happen on honest runs from an empty queue: `MergedBatchLosesCancelled` (a merged batch, for any number of cancelled
  turns before it) and `CancelledBatchOverflows` (a batch of more than 500 cancelled events with nothing merged in). The
  main loop takes this path when no agent is free (`crates/buzz-acp/src/lib.rs:3727-3734`).
- **A returned batch may come back in another order.** `ReturnKeepsOrderExactly`: the queue is as before if and only
  if the drained events already were in creation order; `BounceReorders` is a run in which they were not.
  `UndeliveredRestoresExactly`: an undelivered steer released at once gives its event the old place back if and only if
  it was the head of the queue; in `ReleaseOvertakes` it was not.
- **Releasing a withheld event can push another one out.** `ReleaseRestoresExactly`: whatever happened while the
  acknowledgement was awaited, the release keeps every event if and only if the queue is below its cap; a full
  queue loses its newest. `FloodedReleaseLoses` brings any state with a withheld event there.
- **A delivered event can be delivered again.** `RemovedStaysGoneExactly`: after a steer consumed an event, no honest caller
  is handed it again if and only if no copy is among the cancelled events and no batch still out carries one.
  `RemovedIsRedelivered` is a run in which one does: the steered turn hangs and expires before the acknowledgement,
  and the event goes out in a batch of its own, which is then returned.
- **Compaction can reset a retry sequence.** `CompactionInvisibleExactly`: no later answer can tell whether the queue
  was compacted, if and only if no idle, unthrottled, empty channel still has a retry counter; otherwise even an honest
  caller can. Expiry can leave one: `ExpiryOrphansACounter` is such a run.
- **Cancelled events can wait for ever.** They are flushed on their own only when no queue anywhere is ready.
  `NewerTrafficOvertakes`: for every n there is an honest run in which n flushes for later events pass them over.
  `CancelledWaitsFor` bounds how often: by the rivals, cancels of them, and events queued elsewhere or brought in.
- **A pending steer can be dropped unanswered.** The comment at `crates/buzz-acp/src/acp.rs:1336` says the pending
  steer is drained on every return path. `TurnDropsExactly`: the error returns at lines 1709 and 1723 let it go, and
  they are the only ones that do; `SteerIsDropped` is such a turn. A third way is a control signal that abandons
  the turn (`crates/buzz-acp/src/pool.rs:2496-2510`), which `AbandonedTurnResolves` covers.
- **A cancel's drain can be renewed.** A signal that drops the turn while its prompt is still being written leaves the steer
  receiver installed, and only then (`DroppedPrompt`). The drain that follows can then take a steer, and each one
  delivered gives it the time it was granted anew (`DrainIsBounded`).
- **Rule scope is read in two ways.** Subscriptions parse listed channel ids, matching compares text. `ScopeGap`: a
  subscribed channel is unmatched exactly when it is listed only in spellings other than the printed one.
- **Jitter never lengthens a delay.** It is documented as plus or minus 20 %, but is drawn from a range whose upper
  end is below 90 % (`JitterOnlyShortens`).
- **The state machine comment on `mark_complete`** (`crates/buzz-acp/src/queue.rs:126-130`) always clears the retry
  count; the code keeps it while the channel is throttled, and so does the model.
- **The merge is not associative.** `AssociativeExactly` gives the exact condition, `OrderMatters` a case.

## Model

| member | source | states |
|---|---|---|
| Events.SortIsSortedAndStable | crates/buzz-acp/src/queue.rs:345-350 | a batch is in creation order, and events of one second keep their delivery order |
| Events.StableOrderIsUnique | crates/buzz-acp/src/queue.rs:349-350 | sortedness and stability determine the order completely |
| EventQueues.PushFrontAll | crates/buzz-acp/src/queue.rs:475-484 | pushing to the front in reverse keeps the order |
| EventQueues.TrimBack | crates/buzz-acp/src/queue.rs:485-495 | what is left is the longest prefix within the cap |
| EventQueues.EventQueue.constructor | crates/buzz-acp/src/queue.rs:179-194 | a new queue is the model's empty one |
| EventQueues.EventQueue.WithInFlightDeadline | crates/buzz-acp/src/queue.rs:197-201 | the in-flight span is the turn length plus the buffer; nothing else changes |
| EventQueues.EventQueue.ExtendInFlightDeadline | crates/buzz-acp/src/queue.rs:210-222 | a deadline only moves later, and only for a channel in flight |
| EventQueues.EventQueue.Push | crates/buzz-acp/src/queue.rs:230-251 | the push transition and its answer: drop mode, drop-oldest at the cap |
| EventQueues.EventQueue.RecoverWithheld | crates/buzz-acp/src/queue.rs:804-835 | withheld events go back in front, cut at the cap |
| EventQueues.EventQueue.ExpireInFlight | crates/buzz-acp/src/queue.rs:264-287 | expiring channels one by one, in any order, reaches the one state in which all are expired |
| EventQueues.EventQueue.OldestCandidate | crates/buzz-acp/src/queue.rs:289-303 | the pick is ready and no ready channel has an earlier head |
| EventQueues.EventQueue.FlushNext | crates/buzz-acp/src/queue.rs:260-380 | the pick is allowed, and tables and batch are those of the model for that pick; a servable queue is handed out whole, or its first 50 events, and the rest is left |
| EventQueues.EventQueue.MarkComplete | crates/buzz-acp/src/queue.rs:392-410 | the slot is freed; retry state is forgotten unless the channel is still throttled |
| EventQueues.EventQueue.Requeue | crates/buzz-acp/src/queue.rs:429-498 | front-loaded with backoff, or returned as a dead letter with both retry tables cleared |
| EventQueues.EventQueue.RequeuePreserveTimestamps | crates/buzz-acp/src/queue.rs:508-529 | front-loaded, cut at the cap, retry state untouched |
| EventQueues.EventQueue.RequeueAsCancelled | crates/buzz-acp/src/queue.rs:542-548 | earlier cancelled events, then those carried, then the batch's own, with the new reason |
| EventQueues.EventQueue.HasFlushableWork | crates/buzz-acp/src/queue.rs:556-593 | expires first, then answers whether a queue or a cancelled batch is ready |
| EventQueues.EventQueue.HasUndispatchedWork | crates/buzz-acp/src/queue.rs:610-624 | some queue, cancelled batch or withheld event belongs to a channel not in flight |
| EventQueues.EventQueue.DrainChannel | crates/buzz-acp/src/queue.rs:658-675 | every pending table forgets the channel; the ids of its queued events are returned |
| EventQueues.EventQueue.MarkNativeSteerPending | crates/buzz-acp/src/queue.rs:711-731 | the first event with the id moves to the withheld table, if there is one |
| EventQueues.EventQueue.ReleaseNativeSteer | crates/buzz-acp/src/queue.rs:741-768 | the withheld event moves to the front of its queue |
| EventQueues.EventQueue.RemoveEvent | crates/buzz-acp/src/queue.rs:776-789 | the id is gone from both tables, and emptied entries with it |
| EventQueues.EventQueue.CompactExpiredState | crates/buzz-acp/src/queue.rs:845-856 | only expired throttles and orphaned counters are dropped |
| QueueLocality.CallsAreLocal | crates/buzz-acp/src/queue.rs:230-827 | a call changes no table entry of a channel it is not about, expiry and compaction apart |
| QueueMeaning.FlushServes | crates/buzz-acp/src/queue.rs:289-320 | a flush serves a channel whose head is the oldest of all servable ones, without any an idle one with cancelled events, and none only when there is neither |
| QueueMeaning.FlushMayServe | crates/buzz-acp/src/queue.rs:289-320 | any such channel may be the one served |
| QueueMeaning.FlushTakesPrefix | crates/buzz-acp/src/queue.rs:335-379 | a servable queue of n events gives a batch of exactly min(n, 50): a permutation, in creation order, of that prefix, with all cancelled events merged in; the rest stays queued |
| QueueMeaning.FlushTakesCancelled | crates/buzz-acp/src/queue.rs:305-333 | without a servable queue, all cancelled events of the channel served come out, under their reason, and no queue changes |
| QueueMeaning.PushMeans | crates/buzz-acp/src/queue.rs:230-251 | an event is refused exactly in drop mode while its channel is in flight; else it comes last, and a queue of 500 loses its oldest |
| QueueMeaning.ExpiryMeans | crates/buzz-acp/src/queue.rs:264-287 | a channel is freed exactly when its deadline has come, and its withheld events go in front of its queue, cut at 500 |
| QueueMeaning.FailureMeans | crates/buzz-acp/src/queue.rs:429-498 | a failed batch goes back in front, cut at 500, and waits 5, 10, 20, 40, 80, 160 and then 300 seconds times the jitter |
| QueueMeaning.DrainMeans | crates/buzz-acp/src/queue.rs:658-675 | the ids reported are those of the queued events, in order; all that waits is forgotten and the turn in flight is not |
| QueueMeaning.UndispatchedMeans | crates/buzz-acp/src/queue.rs:610-624 | there is undispatched work if and only if some event is held for a channel not in flight |
| QueueInvariant.StepKeepsInv | crates/buzz-acp/src/queue.rs:137-171 | every call keeps the table shape: shared in-flight keys, non-empty queues within the cap, cancelled batches with a reason, retry counts within the limit |
| QueueInvariant.RunKeepsInv | crates/buzz-acp/src/queue.rs:137-171 | the shape holds at the end of every run |
| QueueRuns.HonestRunsKeepInv | crates/buzz-acp/src/queue.rs:137-171 | a caller that returns only what it was handed, each batch once and under any stamped reason, never returns an empty batch, so the shape holds |
| QueueInvariant.EmptyReturnLeavesEmptyQueue | crates/buzz-acp/src/queue.rs:508-529 | handing back a batch spoils the shape exactly when it is empty and its channel has no queue |
| QueueInvariant.HandedBatchShape | crates/buzz-acp/src/queue.rs:305-379 | a batch is never empty, at most 50 and in order when drained, and carries a reason whenever it carries cancelled events |
| QueueInvariant.TurnsExclude | crates/buzz-acp/src/queue.rs:352-379 | until completed or expired a channel in flight stays so, is in no flush, and its deadline never moves back |
| QueueInvariant.LeavesFlightExactly | crates/buzz-acp/src/queue.rs:264-287 | a channel leaves flight by completion or by a call at or after its deadline, and in no other way |
| QueueInvariant.ExpireTwice | crates/buzz-acp/src/queue.rs:556-575 | expiring at two instants is expiring at the later one |
| QueueInvariant.WorkAgreesWithFlush | crates/buzz-acp/src/queue.rs:556-593 | `has_flushable_work` is true if and only if a flush at that instant returns a batch, whatever it picks; a pick always exists |
| QueueInvariant.WorkStaysReady | crates/buzz-acp/src/queue.rs:556-593 | once true the answer stays true as time passes |
| QueueInvariant.IdleMeansEmpty | crates/buzz-acp/src/queue.rs:597-624 | nothing undispatched and nothing in flight if and only if no table holds an event |
| QueueLedger.CallBalances | crates/buzz-acp/src/queue.rs:230-827 | every call keeps the books of every channel and event balanced |
| QueueLedger.HistoryBalances | crates/buzz-acp/src/queue.rs:230-827 | so does every history of calls and finished batches |
| QueueLedger.NothingLostSilently | crates/buzz-acp/src/queue.rs:230-827 | from an empty queue: accepted equals held, out, orphaned, settled, steered, trimmed, dead-lettered, drained and carry-lost copies together |
| QueueLedger.AwayBalances | crates/buzz-acp/src/queue.rs:352-379 | copies away plus copies given back equal copies handed out |
| QueueLedger.HandedOutOncePerAcceptance | crates/buzz-acp/src/queue.rs:352-379 | no event is handed out more often than it was accepted or given back |
| QueueReturn.ReturnRestoresExactly | crates/buzz-acp/src/queue.rs:508-529 | for every batch and state: all a returned batch carries is back if and only if nothing cancelled was merged in and it fits within the cap |
| QueueReturn.RetryRestoresExactly | crates/buzz-acp/src/queue.rs:475-495 | the same condition, for a failed batch that is retried |
| QueueReturn.BounceRestoresExactly | crates/buzz-acp/src/lib.rs:3727-3734 | a flushed batch handed straight back restores every event if and only if it was drained with nothing merged in, or is a cancelled batch that fits with what is queued |
| QueueReturn.FlushConserves | crates/buzz-acp/src/queue.rs:305-379 | on both paths a flush moves events from the tables into the batch, and neither makes nor loses one |
| QueueReturn.CancelRestoresAlways | crates/buzz-acp/src/queue.rs:542-548 | cancelling instead keeps every event of any batch, in any state |
| QueueCancelRuns.MergedBatchLosesCancelled | crates/buzz-acp/src/lib.rs:3727-3734 | for any number of cancelled turns, an honest run from an empty queue in which the next batch, handed back, silently loses every event of those turns |
| QueueCancelRuns.CancelledBatchOverflows | crates/buzz-acp/src/queue.rs:305-333 | for any number of cancelled turns above the cap, an honest run whose batch has nothing merged in and, handed back, silently loses an event |
| QueueReturn.ReturnKeepsOrderExactly | crates/buzz-acp/src/queue.rs:508-529 | the queue comes back in its old order if and only if the drained events were in creation order |
| QueueOrder.BounceReorders | crates/buzz-acp/src/lib.rs:3727-3734 | an honest run after which a bounced batch is back the other way round |
| QueueSteer.SteeredIsNeverDispatched | crates/buzz-acp/src/queue.rs:776-789 | an event consumed by a steer and accepted only once is in no later batch, expiry included |
| QueueSteer.WithheldIsNotDispatched | crates/buzz-acp/src/queue.rs:690-731 | a withheld event is in no batch until it is released or its channel expires |
| QueueSteer.RecoveryKeepsOrder | crates/buzz-acp/src/queue.rs:804-835 | recovery puts withheld events in order ahead of the queue, and only the cap cuts the tail |
| QueueRedelivery.GoneStaysGone | crates/buzz-acp/src/queue.rs:776-789 | with no live copy left, an event is in no later batch of any history unless accepted anew |
| QueueRedelivery.OutstandingComesBack | crates/buzz-acp/src/queue.rs:542-548 | whoever has a batch that carries the event can return that batch, and an honest continuation hands the event out |
| QueueRedelivery.RemovedStaysGoneExactly | crates/buzz-acp/src/lib.rs:3327-3329 | after a delivered steer removed an event, no honest continuation without a new push hands it out if and only if no copy is among the cancelled events and no batch still out carries one |
| QueueRedelivery.GoneForGood | crates/buzz-acp/src/queue.rs:776-789 | with no copy in the tables or in a batch out, no honest run without a push of the event hands it out |
| QueueRedelivery.CancelledComesBack | crates/buzz-acp/src/queue.rs:305-333 | a cancelled event is handed out by an honest continuation, whatever else waits |
| QueueRedelivery.RemovedIsRedelivered | crates/buzz-acp/src/lib.rs:3327-3329 | an honest run from an empty queue in which a removed event is handed out again |
| SteerSettlement.DeliveredConsumes | crates/buzz-acp/src/lib.rs:3327-3329 | withholding and then consuming an event equals taking it out of the queue directly |
| SteerSettlement.DeliveredIsGone | crates/buzz-acp/src/queue.rs:776-789 | after a delivered steer neither table has an event with that id, and both keep every other event |
| SteerSettlement.UndeliveredRestoresExactly | crates/buzz-acp/src/lib.rs:3330-3332 | withholding and releasing at once is undone if and only if the event was the head of its queue |
| QueueOrder.ReleaseOvertakes | crates/buzz-acp/src/queue.rs:741-768 | an honest run in which a released event comes back ahead of one that was in front of it |
| SteerSettlement.ReleaseRestoresExactly | crates/buzz-acp/src/queue.rs:758-767 | after any traffic, a release keeps every event if and only if the queue is below its cap; a full queue loses its newest |
| SteerSettlement.FloodedReleaseLoses | crates/buzz-acp/src/queue.rs:758-760 | from any state with a withheld event, pushes in the window after which its release loses an event |
| SteerSettlement.WindowHolds | crates/buzz-acp/src/queue.rs:711-731 | through any calls that neither settle it nor drop or expire its channel, a withheld event stays first of its id |
| SteerJourneys.SteerIsSettled | crates/buzz-acp/src/lib.rs:3279-3332 | on any journey of requests, read loop, watchers and other calls: an unsettled request's own event is withheld unless its channel expired or was drained; settling it as its request was resolved leaves no copy if delivered, the event at the head of its queue if not, and changes nothing if it is no longer withheld |
| SteerJourneys.TravelKeepsCourse | crates/buzz-acp/src/lib.rs:3644-3691 | every move keeps each held event withheld under the id of its own request, and each request taken either resolved once or in flight |
| SteerJourneys.EveryRequestCanBeSettled | crates/buzz-acp/src/acp.rs:1331-1342 | when the turn is over every request sent has been answered, let go or never taken, and once all are settled none holds an event |
| QueueCancel.RoundsAccumulate | crates/buzz-acp/src/queue.rs:542-548 | over any run of flush-and-cancel rounds the events told so far wait in the table or are in the held batch |
| QueueCancel.CancelledEventsComeBack | crates/buzz-acp/src/queue.rs:305-333 | after n rounds, each batch returned under whatever reason was stamped on it, the next batch hands out E1 ++ ... ++ En with the latest reason, on both paths |
| QueueCancelRuns.RoundsHappen | crates/buzz-acp/src/pool.rs:3985-4000 | for every n there is an honest run from an empty queue with n rounds, each batch stamped with its reason before it is returned, whose new events are one per round |
| QueueRetry.DelaysIncrease | crates/buzz-acp/src/queue.rs:453-464 | for any jitter in 0.8 to 1.2 delays strictly increase up to the seventh attempt, then stay within 240 to 360 seconds |
| QueueRetry.JitterOnlyShortens | crates/buzz-acp/src/queue.rs:456-464 | every delay is at least 80 % and less than 90 % of its nominal value |
| QueueRetry.StepKeepsAnchor | crates/buzz-acp/src/queue.rs:392-410 | without expiry or single-event removal a retry count is tied to queued events or a turn in flight |
| QueueRetry.AttemptsCountFailures | crates/buzz-acp/src/queue.rs:429-498 | the retry count of a failing channel is its number of failures, whatever else happens |
| QueueRetry.EleventhFailureIsDeadLettered | crates/buzz-acp/src/queue.rs:429-451 | ten failures are retried; the next is a dead letter if and only if ten came before, and both tables forget the channel |
| QueueCompaction.StepAlike | crates/buzz-acp/src/queue.rs:845-856 | states equal up to expired throttles admit the same calls, give the same answers and stay alike |
| QueueCompaction.RunsAlike | crates/buzz-acp/src/queue.rs:845-856 | they admit the same runs with the same answers |
| QueueOrphans.FailuresTellTheCount | crates/buzz-acp/src/queue.rs:429-451 | a row of failures reveals the stored retry count |
| QueueOrphans.MiscountShows | crates/buzz-acp/src/queue.rs:392-410 | an honest caller tells a queue with a retry count on an idle channel from one without, by a single failure |
| QueueOrphans.CompactionInvisibleExactly | crates/buzz-acp/src/queue.rs:845-856 | compaction changes no later answer, to any caller or to any honest one, if and only if it finds no orphaned counter |
| QueueOrphans.CompactionIsInvisible | crates/buzz-acp/src/queue.rs:845-856 | at any point of any run from an empty queue without expiry, withholding or removal, compaction is invisible |
| QueueOrphans.ExpiryOrphansACounter | crates/buzz-acp/src/queue.rs:264-287 | an honest run with one expiry, after which an honest caller can tell whether the queue was compacted |
| QueueFairness.FlushPasses | crates/buzz-acp/src/queue.rs:289-303 | each flush that passes over a waiting channel strictly reduces the events ahead of it |
| QueueFairness.NoStarvation | crates/buzz-acp/src/queue.rs:289-350 | flushes that pass over a waiting channel are bounded by the events ahead of it plus old events brought in meanwhile |
| QueueFairness.CancelledIsServed | crates/buzz-acp/src/queue.rs:305-313 | each flush that passes a cancelled channel over serves a rival or takes from a queue |
| QueueFairness.QueueFlushesUseEvents | crates/buzz-acp/src/queue.rs:289-350 | flushes from queues are bounded by the events queued or withheld elsewhere and those brought in |
| QueueFairness.CancelledWaitsFor | crates/buzz-acp/src/queue.rs:289-333 | in any run not about it, a cancelled channel is passed over at most as often as it has rivals, cancels of them, and events queued elsewhere or brought in |
| QueueOvertaking.NewerTrafficOvertakes | crates/buzz-acp/src/queue.rs:289-313 | for every n, an honest run in which n flushes for later events pass over a channel with only cancelled events |
| AcpClients.AcpClient.InstallSteerRx | crates/buzz-acp/src/acp.rs:917-924 | a receiver is installed for the next turn, never over another one |
| AcpClients.AcpClient.SteerArm | crates/buzz-acp/src/acp.rs:1401-1486 | transport choice, id use and failure acks of the steer arm |
| AcpClients.AcpClient.RouteSteerResponse | crates/buzz-acp/src/acp.rs:1571-1676 | the ack for a steer response, and the deadline it renews |
| AcpClients.AcpClient.HandlePermissionRequest | crates/buzz-acp/src/acp.rs:1934-2009 | the reply, the error exits, and what is recorded as open |
| AcpClients.AcpClient.HandleSessionUpdate | crates/buzz-acp/src/acp.rs:1697-1704 | a tool call resets the idle clock; the run id follows the agent's reports |
| AcpClients.AcpClient.HandleMessage | crates/buzz-acp/src/acp.rs:1562-1728 | routing of one parsed message; the turn ends as a result exactly for a response to the prompt without an error, and as an error exactly for one with an error |
| AcpClients.AcpClient.Once | crates/buzz-acp/src/acp.rs:1349-1731 | one iteration takes the modelled step |
| AcpClients.AcpClient.ReadUntilResponse | crates/buzz-acp/src/acp.rs:1315-1732 | the loop takes the modelled turn over any script |
| AcpClients.AcpClient.SessionPrompt | crates/buzz-acp/src/acp.rs:777-840 | the whole turn; it ends in a result, or an error, exactly when its last line answers the prompt so; prompt id and deadline stay behind exactly after a timeout |
| AcpClients.AcpClient.DroppedPrompt | crates/buzz-acp/src/pool.rs:2496-2510 | a prompt dropped by a control signal leaves its id and deadline behind, and the steer receiver installed if and only if the prompt was still being written |
| AcpClients.AcpClient.TakeDrainDeadline | crates/buzz-acp/src/acp.rs:963-980 | the drain inherits the turn's deadline, and gets at least 30 seconds |
| AcpClients.AcpClient.CancelWithCleanup | crates/buzz-acp/src/acp.rs:1014-1061 | nothing is written without a prompt in flight; an open permission request is answered once before the cancel; then a drained turn |
| TurnProperties.ResponsesNeverCross | crates/buzz-acp/src/acp.rs:1571-1692 | no message answers both steer and prompt; the turn ends by a response if and only if the prompt was answered |
| TurnExits.PromptEndsExactly | crates/buzz-acp/src/acp.rs:1677-1690 | an iteration ends the turn in a result if and only if it reads, in time, a response to the prompt without an error, and in an error if and only if it carries one |
| TurnExits.TurnEndsExactly | crates/buzz-acp/src/acp.rs:1677-1690 | a whole turn ends in a result, or in an error, if and only if its last line is that answer to its prompt |
| TurnExits.TimeoutExactly | crates/buzz-acp/src/acp.rs:1349-1382 | a passed deadline ends the turn, as idle if and only if the idle deadline is the earlier one, and tells the silence |
| TurnExits.StreamEndsExactly | crates/buzz-acp/src/acp.rs:1514-1558 | the end of the stream, an overlong line and a broken read each have their own exit; blank and garbled lines change nothing |
| TurnExits.BrokenExitsExactly | crates/buzz-acp/src/acp.rs:1705-1727 | a permission request is refused if and only if it has no id or no usable option; the turn ends by a failed write if and only if an answer could not be written |
| TurnExits.RepliesExactly | crates/buzz-acp/src/acp.rs:1708-1726 | a permission reply goes out if and only if it answers that request with the permitted option, and an error reply if and only if it answers an unknown request |
| TurnExits.SteerGoesOutExactly | crates/buzz-acp/src/acp.rs:1430-1481 | a steer goes the goose way if and only if a run is known, the extension's way if none is and it is supported, and is refused otherwise or when the write fails |
| TurnExits.SteerRejectedExactly | crates/buzz-acp/src/acp.rs:1581-1672 | which error code or reported outcome a rejected steer is acked with |
| TurnExits.SteerDeliveredExactly | crates/buzz-acp/src/acp.rs:1590-1647 | a steer is acked as delivered if and only if its response has no error and it went the goose way or reports one of the two known outcomes |
| TurnExits.RenewalExactly | crates/buzz-acp/src/acp.rs:1616-1647 | the hard deadline moves if and only if a steer was injected into the running turn, and only later |
| TurnExits.RunExactly | crates/buzz-acp/src/acp.rs:1810-1842 | the run to steer is the last one reported, until it is reported over |
| TurnExits.AnsweredExactly | crates/buzz-acp/src/acp.rs:2005-2008 | a permission request counts as answered if and only if its reply was written |
| TurnProperties.SteerIdsIncrease | crates/buzz-acp/src/acp.rs:1453-1470 | over a turn the ids of steers strictly increase from the next free id |
| TurnProperties.SuccessExactly | crates/buzz-acp/src/acp.rs:1590-1673 | a request is acked as delivered if and only if its own response has no error and was sent the goose way or reports a recognised outcome |
| TurnProperties.IterationConserves | crates/buzz-acp/src/acp.rs:1349-1731 | requests taken or waiting before an iteration are resolved or waiting after it |
| TurnProperties.EachSteerResolvedOnce | crates/buzz-acp/src/acp.rs:1331-1342 | over a turn each steer request is resolved at most once, and exactly once when the turn is over |
| TurnProperties.PendingOnExit | crates/buzz-acp/src/acp.rs:1705-1727 | a pending steer is dropped unanswered if and only if the loop leaves through a failed permission answer or error reply; every other exit acks it as neutral |
| TurnProperties.TurnDropsExactly | crates/buzz-acp/src/acp.rs:1705-1727 | over a whole turn a request is dropped unanswered if and only if it is in flight as the turn ends through one of the two silent exits; every other exit acks it as neutral |
| TurnProperties.SteerIsDropped | crates/buzz-acp/src/acp.rs:1708-1710 | a turn from its start in which a steer is dropped unanswered |
| TurnProperties.AbandonedTurnResolves | crates/buzz-acp/src/pool.rs:2496-2510 | a turn dropped by a control signal, at its select or in any write, the prompt's included, resolves each request taken exactly once, and drops exactly the one in hand |
| TurnProperties.IterationOnTime | crates/buzz-acp/src/acp.rs:1562-1564 | one iteration keeps the deadline algebra |
| TurnProperties.TurnOnTime | crates/buzz-acp/src/acp.rs:1344-1382 | idle deadline = last heard + idle timeout; hard deadline = max(initial, last injected steer + turn length), in the field too; every iteration begins before it |
| TurnProperties.DeadlinesCutTheTurn | crates/buzz-acp/src/acp.rs:1359-1382 | over any turn every iteration begins before the hard deadline the turn ends with, but for a last one that times out; past the earlier deadline the turn is a timeout whatever was ready |
| TurnProperties.DrainIsBounded | crates/buzz-acp/src/acp.rs:1038-1061 | a drain ends by the deadline it was given or the time it was given after the last steer it delivered; without a receiver it takes no steer and keeps its deadline; every iteration begins before that deadline but a last one that times out |
| TurnProperties.TurnEarns | crates/buzz-acp/src/acp.rs:1634-1643 | over any turn, however it ends, the hard deadline is the later of the initial one and one turn length after the last injected steer, and it moves only with a success ack |
| TurnProperties.PermitPrefersAllow | crates/buzz-acp/src/acp.rs:1953-1989 | the first allow-once option if any, else the first reject-once, else no answer |
| TurnProperties.NoPermissionLeftOpen | crates/buzz-acp/src/acp.rs:1934-2009 | no permission request is open at a loop head, or after any exit but a failed reply to one |
| TurnProperties.OpenPermissionExactly | crates/buzz-acp/src/acp.rs:1028-1042 | a permission request is open after an abandoned turn if and only if the turn was dropped while answering it |
| Backstop.BackedFromTheStart | crates/buzz-acp/src/queue.rs:357-360 | the backstop is later than the turn's deadline at the start if and only if the prompt is sent less than 100 seconds after the flush |
| Backstop.RenewalIsDelivered | crates/buzz-acp/src/acp.rs:1634-1643 | the hard deadline moves only with a success ack in the same iteration |
| Backstop.JointRunKeepsBacked | crates/buzz-acp/src/queue.rs:197-222 | the backstop is later, or will be once an outstanding ack is handled, through every interleaving and whatever order acks are handled in |
| Backstop.BackstopOutlivesTheTurn | crates/buzz-acp/src/queue.rs:167-170 | with no ack outstanding the backstop is strictly later than the hard deadline, for any number of steers, so expiry only hits a turn past it |
| ConfigMerge.DeepMerge | crates/buzz-acp/src/acp.rs:222-242 | the key-by-key loop, in any key order, computes the recursive merge |
| ConfigMerge.MergeAtPath | crates/buzz-acp/src/acp.rs:222-242 | for every path, which value the merge holds there: the overlay's, or the base's where the overlay neither has nor shadows it |
| ConfigMerge.MergeTwice | crates/buzz-acp/src/acp.rs:222-242 | merging the same overlay again changes nothing |
| ConfigMerge.AssociativeExactly | crates/buzz-acp/src/acp.rs:222-242 | the merge is associative if and only if no value replaced an object whose keys a later object lacks |
| ConfigMerge.OrderMatters | crates/buzz-acp/src/acp.rs:316-327 | a case where the order of merging matters |
| ConfigMerge.ParseEntries | crates/buzz-acp/src/acp.rs:295-314 | the error of the first entry that is not an object, naming its source, or all entries parsed |
| ConfigMerge.FoldEntries | crates/buzz-acp/src/acp.rs:316-320 | over any number of entries, each value comes from the last entry that has one at its path, unless a later one shadows the path |
| ConfigMerge.BuildCodexConfigEnv | crates/buzz-acp/src/acp.rs:271-359 | when the configuration is built, from what, and which error is reported otherwise |
| ConfigMerge.ForcedPaths | crates/buzz-acp/src/acp.rs:341-357 | forcing network access sets one path and leaves all other values alone |
| ConfigMerge.BuiltConfigKeepsParent | crates/buzz-acp/src/acp.rs:271-359 | a built configuration allows network access and keeps every other value of the parent environment |
| ConfigMerge.FoldedAtPath | crates/buzz-acp/src/acp.rs:316-320 | a folded value is at a path if and only if some entry has it there and no later entry has or shadows the path |
| ConfigMerge.BuiltAtPath | crates/buzz-acp/src/acp.rs:271-359 | the same for a built configuration, entries in order and then the parent, at every path but the forced one, which is true |
| ConfigMerge.ShadowsExactly | crates/buzz-acp/src/acp.rs:222-242 | a path is shadowed if and only if some value on the way to it is not an object |
| ConfigMerge.EntriesOfJoined | crates/buzz-acp/src/acp.rs:283-287 | the entries are the values of the variables called CODEX_CONFIG, in the order of the environment |
| Subscription.ScopeGap | crates/buzz-acp/src/filter.rs:67-72 | matching never reaches past the subscription, and falls short exactly for ids listed only in another spelling |
| Subscription.MergeForChannel | crates/buzz-acp/src/config.rs:1327-1360 | the loop over rules computes the merged filter |
| Subscription.MergedExactly | crates/buzz-acp/src/config.rs:1327-1360 | kinds are the union or a wildcard; a mention is required if and only if all applicable rules require it |
| Subscription.MergedDistinct | crates/buzz-acp/src/config.rs:1338-1350 | no kind is asked for twice |
| Subscription.ModesExactly | crates/buzz-acp/src/config.rs:1298-1325 | the filters of the mention and all-event modes, with the default kinds, and which channels have one |
| Subscription.RulesModeExactly | crates/buzz-acp/src/config.rs:1327-1360 | an event passes a merged filter if and only if a rule heard for the channel has its kind, and, lacking a mention, one needs none |
| Subscription.ResolveDynamicChannelFilter | crates/buzz-acp/src/config.rs:1376-1453 | the filter of one channel, in every mode |
| Subscription.TargetChannels | crates/buzz-acp/src/config.rs:1281-1296 | exactly the discovered channels the override names |
| Subscription.ResolveChannelFilters | crates/buzz-acp/src/config.rs:1274-1364 | for every discovered channel the same answer as the dynamic resolver, in every mode, and none for others |
| Subscription.MatchExactly | crates/buzz-acp/src/filter.rs:368-460 | a rule wins if and only if it accepts and every earlier rule passes the event on |
| Subscription.RuleWinsExactly | crates/buzz-acp/src/filter.rs:368-460 | a rule is matched if and only if scope, kinds and mention fit, its expression if any has fewer than 5 timeouts and says yes, and every earlier rule passes the event on; it gives its tag or name |
| Subscription.NoneWinsExactly | crates/buzz-acp/src/filter.rs:368-460 | nothing is matched if and only if no rule wins |
| Subscription.CountersExactly | crates/buzz-acp/src/filter.rs:395-445 | a counter goes up exactly for an evaluated timeout, to zero for an answer, and stays otherwise |
| Subscription.MatchEvent | crates/buzz-acp/src/filter.rs:368-460 | the matched rule is exactly the one that wants the event, whose expression if any is enabled and says yes, and before which every rule passes the event on; only the counters of evaluated expressions change |
| Subscription.SubscriptionCoversMatching | crates/buzz-acp/src/config.rs:1327-1360 | any event matching accepts on a channel passes the filter the channel is subscribed with |
| Subscription.SubscriptionIsTight | crates/buzz-acp/src/config.rs:1327-1360 | what passes has a kind some applicable rule asks for, and a mention unless some rule needs none |
| Subscription.DisabledForGood | crates/buzz-acp/src/filter.rs:395-435 | counters never pass the limit; a rule at the limit stays disabled and neither accepts nor passes an event on |
| PoolLifecycles.RetryDelayIsExponential | crates/buzz-acp/src/pool_lifecycle.rs:123-132 | the saturating shift form equals min(5 * 2^(k-1), 300) for every 32-bit attempt from 1 |
| PoolLifecycles.WakeDueExactly | crates/buzz-acp/src/pool_lifecycle.rs:37-58 | a wake is due if and only if work is pending and nothing was tried or the delay is over; it gets the next number |
| PoolLifecycles.CompletionExactly | crates/buzz-acp/src/pool_lifecycle.rs:95-132 | a completion counts if and only if it is for the wake in progress; a failure is retried after min(5 * 2^(k-1), 300) seconds |
| PoolLifecycles.PoolLifecycle.StartWakeIfDue | crates/buzz-acp/src/pool_lifecycle.rs:37-58 | a token exactly when a wake is due, and the state that goes with it |
| PoolLifecycles.PoolLifecycle.TakeReady | crates/buzz-acp/src/pool_lifecycle.rs:60-68 | a ready pool is handed over once |
| PoolLifecycles.PoolLifecycle.CompleteWake | crates/buzz-acp/src/pool_lifecycle.rs:95-121 | accepted only for the current token while waking; otherwise the state is unchanged |
| PoolLifecycles.PoolLifecycle.CancelWake | crates/buzz-acp/src/pool_lifecycle.rs:91-93 | cancelling is failing the current wake |
| PoolLifecycles.CallTallies | crates/buzz-acp/src/pool_lifecycle.rs:37-121 | every call keeps the tallies of tokens, completions and waits |
| PoolLifecycles.WakeTokens | crates/buzz-acp/src/pool_lifecycle.rs:37-132 | tokens count 1, 2, 3, ...; completions are accepted in order and once; issued = accepted + 1 while waking; wake k+1 waits out the delay of failure k |
| Resp.EncodeCommand | perf/relay_bus_scaling.py:110-117 | the joined frames are an array of bulk strings |
| Resp.IntReadsBack | perf/relay_bus_scaling.py:138-140 | a printed length parses back and holds no line feed |
| Resp.Stream.NextLine | perf/relay_bus_scaling.py:120-126 | one line ending in CR LF, the end-of-stream and malformed cases, and what is left |
| Resp.Stream.NextBulk | perf/relay_bus_scaling.py:139-147 | a bulk string, nil, or the error of a short or unterminated one |
| Resp.Stream.Next | perf/relay_bus_scaling.py:129-153 | the recursive reader consumes the stream as specified, for every input; which first byte each kind of value comes from |
| RespReplies.LineReplies | perf/relay_bus_scaling.py:133-136 | `+` reads as a text and `-` as a server error, each of its whole line, leaving the rest |
| RespReplies.NumberReplies | perf/relay_bus_scaling.py:137-142 | `:` and a decimal of either sign read as that integer; `$-1` and `*-1` read as nil |
| RespReplies.NegativeLengths | perf/relay_bus_scaling.py:139-152 | below -1 a bulk string is malformed and an array has no items |
| RespReplies.BulkReplies | perf/relay_bus_scaling.py:139-147 | a bulk string takes as many bytes as it says and must then end its line |
| RespReplies.ArrayReplies | perf/relay_bus_scaling.py:148-152 | an array reads its items in order and fails with the first that fails |
| RespReplies.MalformedReplies | perf/relay_bus_scaling.py:120-153 | end of stream, unknown kinds and lines that do not end as they should |
| RespReplies.BadNumbers | perf/relay_bus_scaling.py:137-151 | an integer or a length that is no number is refused |
| RespReplies.PaddedReadsBack | perf/relay_bus_scaling.py:137-151 | a decimal of either sign reads back with any blanks around it |
| RespReplies.UnderscoreIsSkipped | perf/relay_bus_scaling.py:137-151 | single underscores may stand between digits, and nowhere else |
| RespReplies.OnlyDigitsRead | perf/relay_bus_scaling.py:137-151 | nothing but digits and underscores is a number, and it ends in a digit |
| RespReplies.CommandBytes | perf/relay_bus_scaling.py:110-117 | the bytes of a command, kind by kind |
| Resp.CommandReadsBack | perf/relay_bus_scaling.py:110-153 | a command followed by anything reads back as its parts, CR and LF included, leaving exactly the rest |
| Resp.CommandsReadBack | perf/relay_bus_scaling.py:110-153 | any concatenation of commands reads back as the same commands |
| Resp.ReplyExtends | perf/relay_bus_scaling.py:129-153 | more bytes never change a reply already complete |
| Resp.TruncatedCommandFails | perf/relay_bus_scaling.py:120-153 | no proper prefix of a command reads as a reply |
| SttTap.SttTapProcessor.constructor | desktop/public/worklet.js:19-32 | starts empty and transmitting |
| SttTap.SttTapProcessor.OnMessage | desktop/public/worklet.js:27-31 | push-to-talk changes only whether later blocks are gathered |
| SttTap.SttTapProcessor.Process | desktop/public/worklet.js:34-64 | the in-place buffer holds the model's partial frame, and posts when it does; it throws exactly when a transmitted block overruns two frames |
| SttTap.CutGrows | desktop/public/worklet.js:45-61 | recording less than two frames more completes at most one |
| SttTap.BlockAgreesExactly | desktop/public/worklet.js:45-61 | a block keeps frames and buffer in agreement with the recording if and only if it completes less than two frames |
| SttTap.SafeBlockExactly | desktop/public/worklet.js:56-60 | so a block is safe whatever is buffered if and only if it is at most one frame long |
| SttTap.SessionAgrees | desktop/public/worklet.js:34-64 | over any session frames are the recording cut into 960, the buffer is the rest, and a muted block discards only an unfinished frame |
| SttTap.TransmitsAsLastSaid | desktop/public/worklet.js:27-31 | the tap transmits as push-to-talk last said, whatever blocks come between |
| SttTap.CutKeepsAll | desktop/public/worklet.js:50-61 | frames and rest concatenate to the recording |
| SttTap.FramesAreWhole | desktop/public/worklet.js:50-54 | every frame posted is 960 long, whatever the block sizes |

## Left out

- Subprocess handling, stdio, task scheduling, logging and observer events: only a line arriving, a write succeeding or failing, and clock readings are modelled.
- The main loop, the agent pool and the relay client: their calls into queue and read loop are steps of the environment, under the conditions each lemma states.
- JSON text parsing: messages are values with the fields the loop reads, and the configuration parser is a parameter. UTF-8 decoding is a predicate, Nostr signatures and filter expressions are outcomes given by the environment.
- Prompt wording, context hints, reply anchors and merge framing: string templates with easy claims.
- Command line parsing, turn-duration limits, permission modes, model catalogues and usage tracking: one-branch facts.
- Floating-point jitter and 64-bit clock rounding: real numbers.
- The channel id stored inside a queued event: it is the key of the table that holds the event.
- The second clock reading that measures silence on a hard timeout: the reading of the deadline check stands for it.
- The grace variant of cancelling (`cancel_with_cleanup_grace`): the same drain under another deadline, with one error renamed.
- `read_until_response` without an idle timeout, and draining stale responses: simpler loops over the same lines.
- QueueFairness.NoStarvation: bounds how often a waiting channel is passed over; that flushes keep being called is up to the main loop.
- Backstop.BackstopOutlivesTheTurn: says nothing while a success ack is still unhandled, because the code promises nothing then.
