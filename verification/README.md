# Verification of php-rabbit-rs

This project models the parts of php-rabbit-rs whose correctness is hardest to see by reading,
and proves what they promise. It needs Dafny 4.11: `dafny verify dfyconfig.toml`.

## The consumer actor

`consumer/actor.rs` settles deliveries in batches: plain acknowledgements are only recorded, and
a flush later sends one cumulative `basic.ack` for the contiguous run above the settled watermark
(section 1.8.3.13 of the AMQP 0-9-1 reference). Around that sit a ledger per channel, two
settlement queues, an in-flight marker, byte budgets, a deque of parked deliveries and, for
best-effort subscriptions, a bounded ring of early-acknowledged tags.

- A *lane* (`Lanes`) is everything the actor keeps for one subscription's channel, next to what
  the outside has seen of it: the broker's unsettled tags, what is in transit, what arrived, was
  handed over and was settled. A subscription has exactly one channel for the life of an actor.
- `Dispatching`, `Receiving`, `SettleSteps`, `Throughs` and `Completing` define the steps of a
  lane; the `*Proofs` modules show that each keeps the invariant `Settling.Inv`.
- `LaneMaps`, `Passes` and `Handlers` lift this to all lanes and the deque they share.
- `Actor.ActorState` is the actor itself: fields, handlers with their loops, and `Run`, which
  takes any sequence of events of the broker, the network, the embedder and the actor. Its field
  `world` is not part of the actor; it is the outside half of the lanes.
- `Generations.Fleet` holds one actor per connection generation, old ones included: tags collide,
  settlement calls go to the actor of their token, settle-throughs to any.
- `PassEnds` says how far a dispatch pass gets. A subscription whose last buffered delivery is
  dropped as poison stays marked ready, and picking it again ends the pass although others still
  have deliveries and there is room; `PassEndsEarlyIff` says exactly when that can happen,
  `BlockedRun` gives a run from a fresh actor to such a state, and `Rest` shows what an actor at
  rest can then still hold back.
- `Theorems` says what the invariant means. `Collisions` shows what becomes of settlements that
  collide, for all lanes; `ExplicitRuns` gives the shortest runs.

The invariant of a lane has several strengths. `Tracked` holds in every run. The others depend on
what an embedder's own settle-throughs have run into, which the history of a lane records:

- The targets of the cumulative settlements climb, and so does the watermark, unless one was
  accepted for a token that a staged cumulative settlement already lists (`crossed`). The fence
  does not look there; `Throughs.AcceptClimbsIff` shows that it would have to look nowhere else.
- The broker's books agree with the ledger, and it never objects, unless that happened or a
  rejection or release was claimed too late (`stray`). Each of the two is fatal for the channel
  (`CrossingIsFatal`, `StrayIsFatal`).
- The byte count is exact unless a token came to be on its way to the broker twice (`overlapped`)
  or too late. Two settle-throughs in a row are enough for that (`PipelineLosesBytes`).
- As long as the cumulative settlements come from the flush (`explicit` is false), nothing of this
  happens, and each claimed tag stands in exactly one stage (`Exact`).

What is assumed of the outside: delivery tags of a channel increase strictly; an operation reaches
the broker between its launch and its completion; a successful answer means it has reached it, and
a transport error means the channel is dead; poison and early acknowledgements, which the actor
spawns as tasks, reach the broker when they are spawned; the scheduler may pick any ready
subscription. A settlement call reaches the actor that handed its token out, because the token
carries that actor's mailbox. The mailbox is kept per lane, which allows more interleavings than
the one control channel of the program. `try_settle` is one atomic step.

## The other components

- `Attempts`: attempt counting across delayed releases. With a cap of `u32::MAX` the saturating
  count equals its own successor, so releases need not end; with any lower cap they do.
- `ClientPool`: creation of one coordinator per broker, racing with `close`, as interleaved steps.
- `PublishBatch`: the batch publication that regroups by broker and restores the order, confirmed
  or blind.
- `Composite`: the fan-in consumer. A live source that keeps a delivery ready is served within n
  calls, whatever the others answer, except when the polling counter, a 64-bit `usize`, wraps
  around among those calls and n does not divide its range: then some source can be passed over.
- `Registry`: the pool registry with eviction. `Prefetch`: the adaptive window, over reals.
- `Chunking`: the greedy chunker of the Laravel queue against the native conversion bounds.

## Model

| member | source | states |
|---|---|---|
| `WireProofs.CumulativeAckIsFaithful` | crates/rabbit-rs-core/src/consumer/actor.rs:1455-1535 | unless settlements crossed or strayed, the broker's unsettled tags up to the target of a cumulative acknowledgement are exactly its listed tokens that are still in the ledger, and nothing queued, buffered, parked or unseen is covered; in flush-driven runs they are all its tokens, each acknowledged by the embedder, and nothing recorded is covered either |
| `WireProofs.ApplyInv` | crates/rabbit-rs-core/src/consumer/actor.rs:1809-1862 | whichever operation is in flight, its effect at the broker keeps the whole invariant of the lane |
| `Theorems.ActorNeverStuck` | crates/rabbit-rs-core/src/consumer/actor.rs:740-745 | no deadlock through deferred flushing: parked head over budget, stock drained, everything handed over settled and the mailbox empty imply a settlement in flight after the flush |
| `Theorems.LaneNeverStuck` | crates/rabbit-rs-core/src/consumer/actor.rs:684-719 | the same for one lane, whatever run and rest the flush found |
| `Theorems.StagesPartitionTheWork` | crates/rabbit-rs-core/src/consumer/actor.rs:1675-1706 | one settlement in flight per channel and no queue behind nothing, in every run; unless settlements overlapped or strayed, no tag is on its way to the broker twice, nor once it has left the ledger; in flush-driven runs a tag occurs exactly once over all stages while its token is claimed, and not at all otherwise |
| `Theorems.BrokerNeverObjects` | crates/rabbit-rs-core/src/consumer/actor.rs:1776-1862 | unless a settle-through was accepted for a listed token or a rejection or release came too late, no operation names a tag the broker has already settled; on best-effort channels none ever does |
| `Theorems.SuccessConfirmsTheCall` | crates/rabbit-rs-core/src/consumer/delivery.rs:296-334 | in every run the operation in flight carries out, for each of its tokens, something the embedder has asked for it, or the token is at or below the target of an accepted settle-through; in flush-driven runs it is what the embedder asked for last, and success leaves each token in the state the settlement call reported |
| `Theorems.LedgerIsConserved` | crates/rabbit-rs-core/src/consumer/actor.rs:1058-1078 | the ledger of a manual channel is the disjoint union of undelivered and handed-over unsettled deliveries, and equals arrivals minus terminal settlements |
| `Theorems.BytesWithinBudget` | crates/rabbit-rs-core/src/consumer/actor.rs:684-719 | counted bytes never exceed the budget nor what is held, equal what is held unless settlements overlapped or strayed, and no waiting delivery is larger than its budget |
| `Theorems.EarlyAckedAtMostOnce` | crates/rabbit-rs-core/src/consumer/actor.rs:289-305 | each tag is early-acknowledged at most once; for the buffer front the bounded ring answers as the unbounded set would |
| `Theorems.GenerationsDoNotMix` | crates/rabbit-rs-core/src/consumer/actor.rs:1758-1774 | every wire operation names a delivery received on the channel, and every token mailed to be settled, recorded or staged was made for it; a foreign settle-through with a colliding tag changes nothing but the mailbox |
| `Generations.EachGenerationSettlesItsOwn` | crates/rabbit-rs-core/src/consumer/composite.rs:42-45 | with one actor per generation and colliding tags: what reaches the broker on a generation's channel names a delivery received there, and what is mailed, recorded or staged there was handed out there |
| `Generations.Fleet.Step` | crates/rabbit-rs-core/src/consumer/delivery.rs:296-334 | a settlement call changes the actor of its token's generation and no other |
| `Generations.Fleet.Run` | crates/rabbit-rs-core/src/consumer/composite.rs:42-58 | every generation keeps its invariant, whatever happens to it and the others and however often the connection is recovered |
| `Theorems.HandedInArrivalOrder` | crates/rabbit-rs-core/src/consumer/actor.rs:349-540 | handed over, then waiting, is the arrival order minus poison and oversized deliveries, whatever the scheduler picks |
| `Theorems.LanesAreFifo` | crates/rabbit-rs-core/src/consumer/actor.rs:349-540 | the order result for every reachable lane |
| `Throughs.AcceptedCovers` | crates/rabbit-rs-core/src/consumer/actor.rs:1180-1262 | an accepted settle-through stages exactly the embedder's tokens for the tags between watermark and target, all of the live generation, its own token last |
| `Throughs.AcceptedIff` | crates/rabbit-rs-core/src/consumer/actor.rs:1286-1342 | it is accepted if and only if its token is free, above the watermark, and no tag in between has been settled |
| `Throughs.WalkOk` | crates/rabbit-rs-core/src/consumer/actor.rs:1987-2022 | the prefix walk succeeds if and only if every tag of the prefix is in the ledger, pending, and has a token, which a failed hand-off leaves too |
| `Scans.ValidateContiguousPrefix` | crates/rabbit-rs-core/src/consumer/actor.rs:1987-2022 | the scan over the ledger's keys returns the tokens of the whole prefix, or the error of its first faulty tag |
| `Scans.AckedRun` | crates/rabbit-rs-core/src/consumer/actor.rs:1477-1486 | the longest run of recorded acknowledgements above the watermark |
| `Scans.Stragglers` | crates/rabbit-rs-core/src/consumer/actor.rs:1488-1502 | the recorded acknowledgements beyond the run, in tag order, settled ones left out |
| `CompletionProofs.CompletionInv` | crates/rabbit-rs-core/src/consumer/actor.rs:880-1041 | a completion, with an arbitrary dispatch pass in its middle, leads from the invariant to the invariant |
| `CompletionProofs.DispatchedFinish` | crates/rabbit-rs-core/src/consumer/actor.rs:1352-1430 | a dispatch pass commutes with closing the books of a completed settlement |
| `FlushProofs.FlushInv` | crates/rabbit-rs-core/src/consumer/actor.rs:1455-1535 | the flush keeps the invariant for every run and rest it may find |
| `SettleProofs.HandleSettleInv` | crates/rabbit-rs-core/src/consumer/actor.rs:1128-1167 | handling a settlement keeps the invariant, refused or claimed |
| `Throughs.HandleThroughInv` | crates/rabbit-rs-core/src/consumer/actor.rs:1180-1276 | handling a settle-through keeps the invariant, refused or accepted |
| `Throughs.AcceptClimbsIff` | crates/rabbit-rs-core/src/consumer/actor.rs:1286-1342 | what the fence accepts keeps the targets climbing above the watermark if and only if no staged cumulative settlement lists its token |
| `Collisions.CrossingIsFatal` | crates/rabbit-rs-core/src/consumer/actor.rs:1180-1262 | a settle-through accepted for a listed token, everything before it succeeding, reaches the broker for a settled tag, which closes the channel, and its success moves the watermark back |
| `Collisions.StrayIsFatal` | crates/rabbit-rs-core/src/consumer/actor.rs:1128-1167 | a rejection or release claimed for a token that has left the ledger, or that the cumulative settlement in flight lists, reaches the broker for a settled tag when its turn comes |
| `Collisions.OverlapLosesBytes` | crates/rabbit-rs-core/src/consumer/actor.rs:1214-1258 | after an accepted settle-through and all before it have succeeded the count is what is held, if and only if it shares no bytes with what was on its way when it was accepted, or nothing is held any more |
| `Collisions.LandingIsExactIff` | crates/rabbit-rs-core/src/consumer/actor.rs:1364-1384 | releasing the bytes of a completed settlement keeps the count exact if and only if none of them were released before or nothing is held any more |
| `Collisions.AllSucceeds` | crates/rabbit-rs-core/src/consumer/actor.rs:2072-2088 | where nothing has collided, everything under way can succeed: the channel lives, all of it and nothing else is settled, and the watermark passes every target |
| `ExplicitRuns.CountCanFallBehind` | crates/rabbit-rs-core/src/consumer/actor.rs:1214-1258 | a run with an overlapping settle-through after which 20 bytes are counted and 30 are held |
| `ExplicitRuns.WatermarkCanMoveBack` | crates/rabbit-rs-core/src/consumer/actor.rs:1386-1393 | a run with overlapping settle-throughs in which the watermark moves from 2 back to 1 and the broker is told twice |
| `ExplicitRuns.WatermarkNeverMovesBack` | crates/rabbit-rs-core/src/consumer/actor.rs:1386-1393 | no completion lowers the watermark, in every run in which no settle-through was accepted for a token that a staged cumulative settlement lists |
| `ExplicitRuns.PipelineLosesBytes` | crates/rabbit-rs-core/src/consumer/actor.rs:1214-1258 | two settle-throughs in a row, both successful: 20 bytes are counted and 30 held, the watermark and the broker are content |
| `ExplicitRuns.RejectionCanComeTooLate` | crates/rabbit-rs-core/src/consumer/actor.rs:1128-1167 | whenever a settle-through in flight lists a pending token: a rejection mailed now and handled after its success is claimed, and makes the broker close the channel |
| `PassEnds.PassEndsEarlyIff` | crates/rabbit-rs-core/src/consumer/actor.rs:349-540 | some pass ends with room in the hand-off channel and something buffered, if and only if serving a subscription that is ready with an empty buffer, or whose last delivery is poison, leaves room while another has deliveries |
| `PassEnds.PassCanEndEarly` | crates/rabbit-rs-core/src/consumer/actor.rs:366-436 | in each such state, the pass that serves that subscription to the end and leaves the other's buffer as it was |
| `PassEnds.PassDeliversAll` | crates/rabbit-rs-core/src/consumer/actor.rs:349-540 | in all other states a pass that leaves room leaves nothing buffered, whatever the picks and the caps |
| `PassEnds.BlockersAreCapped` | crates/rabbit-rs-core/src/consumer/actor.rs:408-434 | only a manual subscription with a cap on attempts can end a pass early |
| `BlockedRun.BlockingIsReached` | crates/rabbit-rs-core/src/consumer/actor.rs:349-540 | from a fresh actor, for every capacity of the hand-off channel, such a state is reached |
| `Rest.RestOwesNothing` | crates/rabbit-rs-core/src/consumer/actor.rs:726-745 | when the last pass was not blocked, an actor at rest has nothing buffered and no settlement to carry out: ledger entries are parked or wait for the embedder, and so does a parked head that does not fit |
| `Rest.RestCanHoldBack` | crates/rabbit-rs-core/src/consumer/actor.rs:827-833 | after a blocked pass an actor at rest can hold back a delivery there is room for, and an acknowledgement |
| `Rest.DrainedTooEarly` | crates/rabbit-rs-core/src/consumer/actor.rs:352-362 | for every number of error items taken, a run after which the stock seems drained while a delivery waits in the hand-off channel, because the count of error items is never taken back |
| `Rest.DrainedIsWrongIff` | crates/rabbit-rs-core/src/consumer/actor.rs:740-745 | in every state the stock seems drained although a delivery waits in the hand-off channel, if and only if nothing is buffered and no more deliveries wait there than error items were ever taken |
| `Passes.AdmittedTwice` | crates/rabbit-rs-core/src/consumer/actor.rs:684-719 | after admission the head, if any, does not fit, and admitting again changes nothing |
| `Actor.ActorState.DrainPending` | crates/rabbit-rs-core/src/consumer/actor.rs:684-719 | parked deliveries are admitted in order until the head does not fit; every lane moves by `Dispatched` |
| `Actor.ActorState.TakePoison` | crates/rabbit-rs-core/src/consumer/actor.rs:587-631 | a poison front leaves buffer, budget and ledger and is settled on the wire |
| `Actor.ActorState.TakeEarly` | crates/rabbit-rs-core/src/consumer/actor.rs:437-488 | a best-effort front is acknowledged once, then handed over or put back |
| `Actor.ActorState.TakeManual` | crates/rabbit-rs-core/src/consumer/actor.rs:491-538 | a manual front gets its token, then is handed over or put back |
| `Actor.ActorState.PassErrors` | crates/rabbit-rs-core/src/consumer/actor.rs:352-362 | retained source errors are handed over as far as there is room |
| `Actor.ActorState.TakeTurns` | crates/rabbit-rs-core/src/consumer/actor.rs:363-538 | turns go on, for any scheduler, until a pick finds an empty buffer or a full hand-off channel, or nothing is ready; this ends |
| `Actor.ActorState.Dispatch` | crates/rabbit-rs-core/src/consumer/actor.rs:349-540 | a pass is admission, then errors, then turns for some order of picks, and moves every lane by `Dispatched` |
| `Actor.ActorState.TryDrainPending` | crates/rabbit-rs-core/src/consumer/actor.rs:721-724 | admitting before a pass, which admits again, is the same as the pass |
| `Actor.ActorState.HandleIncoming` | crates/rabbit-rs-core/src/consumer/actor.rs:1058-1126 | an oversized arrival is settled and changes nothing else; any other is claimed, then parked if it does not fit, else queued up and dispatched from; the park deque stays within its capacity |
| `Actor.ActorState.HandleSettle` | crates/rabbit-rs-core/src/consumer/actor.rs:1128-1167 | refused while the token is being settled, otherwise recorded, queued or launched |
| `Actor.ActorState.HandleSettleThrough` | crates/rabbit-rs-core/src/consumer/actor.rs:1180-1342 | refused with the right error and no change but to the mailbox, or staged |
| `Actor.ActorState.FlushAcked` | crates/rabbit-rs-core/src/consumer/actor.rs:1455-1535 | every idle channel with recorded acknowledgements flushes the longest run and the rest; the others are untouched |
| `Actor.ActorState.CompleteSettlement` | crates/rabbit-rs-core/src/consumer/actor.rs:880-1041 | frees the channel and bytes, dispatches, removes the entry, marks the token, settles poison, launches the next |
| `Actor.ActorState.CompleteSettleThrough` | crates/rabbit-rs-core/src/consumer/actor.rs:1352-1430 | the same for a cumulative settlement, with the watermark |
| `Actor.ActorState.FinishLanding` | crates/rabbit-rs-core/src/consumer/actor.rs:2072-2088 | the queue of individual settlements is served before that of cumulative ones |
| `Actor.ActorState.DispatchStockDrained` | crates/rabbit-rs-core/src/consumer/actor.rs:740-745 | true exactly when all buffers are empty and no more deliveries are in the hand-off channel than error items were ever taken from it |
| `Actor.ActorState.Take` | crates/rabbit-rs-core/src/consumer/set.rs:592-623 | the oldest item, if there is one; error items taken are counted for the specification only |
| `Actor.ActorState.TrySettle` | crates/rabbit-rs-core/src/consumer/delivery.rs:296-334 | a pending token becomes terminal and is mailed; a settled token or a full mailbox changes nothing |
| `Actor.ActorState.AskThrough` | crates/rabbit-rs-core/src/consumer/set.rs:569-582 | a settle-through is mailed without any claim on its token |
| `Actor.ActorState.Run` | crates/rabbit-rs-core/src/consumer/actor.rs:791-1050 | the invariant of every lane and all bounds hold after any sequence of events, and no channel changes its configuration |
| `Attempts.Resolve` | crates/rabbit-rs-core/src/consumer/attempts.rs:55-67 | the resolved count is a positive `u32`, within the cap when accepted |
| `Attempts.ReleaseRaisesCount` | crates/rabbit-rs-core/src/consumer/attempts.rs:69-83 | a released copy resolves to at least one more whatever the broker adds, exactly one more if it adds nothing |
| `Attempts.DelayedReleasesEndIff` | crates/rabbit-rs-core/src/consumer/attempts.rs:69-98 | a message is released at most cap - 1 times, if and only if the cap is below `u32::MAX` |
| `ClientPool.OneCoordinatorPerBroker` | crates/rabbit-rs-core/src/client.rs:1094-1126 | at most one coordinator is ever spawned per broker, none is closed twice, none registered is closed |
| `ClientPool.CallersShare` | crates/rabbit-rs-core/src/client.rs:1094-1126 | successful calls for a broker all return the same coordinator, and none is refused before the pool closes |
| `ClientPool.NothingLeaks` | crates/rabbit-rs-core/src/client.rs:973-1016 | once the closer and all callers are done every spawned coordinator was closed exactly once |
| `ClientPool.CommitNeverOverwrites` | crates/rabbit-rs-core/src/client.rs:1157-1175 | a commit never replaces a registered coordinator |
| `ClientPool.MissMeansNone` | crates/rabbit-rs-core/src/client.rs:1139-1155 | under the initializer lock of an open pool a registry miss means nothing was ever spawned |
| `ClientPool.CommitKeeps` | crates/rabbit-rs-core/src/client.rs:1157-1175 | a commit, successful or not, keeps every coordinator somebody's |
| `ClientPool.TakeAllKeeps` | crates/rabbit-rs-core/src/client.rs:992-1002 | taking the registry hands every registered coordinator to the closer |
| `ClientPool.Pool.SpawnCoordinator` | crates/rabbit-rs-core/src/client.rs:1119-1119 | nothing was spawned for this broker before |
| `ClientPool.Pool.CommitCoordinator` | crates/rabbit-rs-core/src/client.rs:1157-1175 | published if still open in the caller's generation, otherwise left to the caller to close |
| `ClientPool.Pool.Run` | crates/rabbit-rs-core/src/client.rs:973-1126 | the invariant holds under every interleaving of callers and closer |
| `PublishBatch.Publish` | crates/rabbit-rs-core/src/client.rs:207-309 | succeeds if and only if every request does, entry i belonging to request i; a reported error is a request's own; every accepted publication is awaited |
| `PublishBatch.PublishBlind` | crates/rabbit-rs-core/src/client.rs:207-309 | blind mode: succeeds if and only if every request is taken, entry i confirming request i; the first failure ends it, its request and those not yet tried are not out |
| `PublishBatch.GroupByBroker` | crates/rabbit-rs-core/src/client.rs:214-217 | every request is in the group of its broker, in order |
| `PublishBatch.AwaitAll` | crates/rabbit-rs-core/src/client.rs:277-289 | all waiters are awaited and every outcome is in place |
| `Composite.Consumer.TryNext` | crates/rabbit-rs-core/src/consumer/composite.rs:215-242 | the answer is that of the first live source of the rotation with something to say; else `Closed` once all are retired, the signal or the stashed error; retirement is permanent; a single source's answer is passed on |
| `Composite.Consumer.TryNextRepeatedly` | crates/rabbit-rs-core/src/consumer/composite.rs:215-242 | call after call is answered by the source that speaks first in its rotation, given those retired before |
| `Composite.NobodyStarvesIff` | crates/rabbit-rs-core/src/consumer/composite.rs:36-40 | a live source that keeps a delivery ready is served within n consecutive calls, whatever the others answer, if and only if the counter does not wrap around among them or n divides its range |
| `Composite.Consumer.TryNextBatch` | crates/rabbit-rs-core/src/consumer/composite.rs:256-300 | deliveries in polling order within the clamped bound, never lost to an error; a stashed error does not displace the signal; a reported failure is a live source's own or the stashed one; a single source's answer is passed on |
| `Composite.Consumer.Next` | crates/rabbit-rs-core/src/consumer/composite.rs:317-355 | for every order in which the sources resolve: a delivery, a source's error, the pending signal before the stashed error, or `Closed` once all are retired; a single source's answer is passed on |
| `Composite.Consumer.Retire` | crates/rabbit-rs-core/src/consumer/composite.rs:427-447 | idempotent; signals unless it was the last source or the owner has closed |
| `Composite.Consumer.TakePending` | crates/rabbit-rs-core/src/consumer/composite.rs:459-470 | the signal goes first and leaves a stashed error in place |
| `Composite.SignalsBounded` | crates/rabbit-rs-core/src/consumer/composite.rs:427-447 | at most n - 1 signals ever surface |
| `Composite.FairIff` | crates/rabbit-rs-core/src/consumer/composite.rs:404-411 | every source starts one of n consecutive calls, if and only if the counter does not wrap around among them or n divides its range |
| `Composite.AtIsModular` | crates/rabbit-rs-core/src/consumer/composite.rs:404-411 | the source polled at an offset is the remainder the program computes |
| `Registry.PoolRegistry.Acquire` | crates/rabbit-rs-core/src/runtime.rs:145-218 | the open pool of the key or a new one, those of a process that forked not counting; at most one other pool goes, the longest unused unclaimed one, and only above the cap; no pool without a runtime |
| `Registry.PoolRegistry.Enter` | crates/rabbit-rs-core/src/runtime.rs:149-178 | a forked process starts without its parent's pools |
| `Registry.OldestIdle` | crates/rabbit-rs-core/src/runtime.rs:270-291 | an unclaimed pool unused for the longest time, if there is an unclaimed one |
| `Registry.PoolRegistry.Run` | crates/rabbit-rs-core/src/runtime.rs:180-208 | never more pools than the larger of the cap and the most ever claimed at once |
| `Prefetch.AverageWithin` | crates/rabbit-rs-core/src/consumer/prefetch.rs:80-92 | the average stays within the range of the samples |
| `Prefetch.ErrorContracts` | crates/rabbit-rs-core/src/consumer/prefetch.rs:80-92 | under constant latency the error shrinks to three quarters per sample |
| `Prefetch.AdjustSettles` | crates/rabbit-rs-core/src/consumer/prefetch.rs:96-132 | after a tick the window is within the hysteresis band, and a second tick changes nothing |
| `Prefetch.DesiredIsLeast` | crates/rabbit-rs-core/src/consumer/prefetch.rs:105-125 | the desired window is the least one within the bounds that keeps the target buffered at the average latency, and the upper bound where none does |
| `Prefetch.Controller.Tick` | crates/rabbit-rs-core/src/consumer/prefetch.rs:96-132 | silent before warm-up; then moves to the desired window exactly if too far off, never leaving its bounds |
| `Prefetch.Controller.Observe` | crates/rabbit-rs-core/src/consumer/prefetch.rs:80-92 | the average of everything observed so far |
| `Prefetch.Controller.TickTwice` | crates/rabbit-rs-core/src/consumer/prefetch.rs:96-132 | the second of two ticks without a sample applies nothing |
| `Chunking.ChunkWithinBounds` | packages/laravel-queue/src/RabbitMqQueue.php:468-493 | chunks concatenate to the input, each is accepted natively or is one hopeless message, and none has room for the next message |
| `Chunking.GreedyIsOptimal` | packages/laravel-queue/src/RabbitMqQueue.php:468-493 | no order-preserving split into accepted parts has fewer parts |
| `Chunking.Accepts` | crates/rabbit-rs-php/src/conversion.rs:29-40 | the running budget check accepts exactly what is within both bounds |
| `Chunking.PublishChunked` | packages/laravel-queue/src/RabbitMqQueue.php:445-454 | identifiers come back in the order of the messages; a call that fails ends it, and what the calls before it published is a prefix of the chunks |

## Left out

- Theorems.BytesWithinBudget: claims equality only for budgets below `u64::MAX`, because at `u64::MAX` nothing is ever over budget and the saturating sum can lose bytes.
- Theorems.StagesPartitionTheWork: counts recorded acknowledgements only in flush-driven runs; a settle-through may list a delivery that is also recorded, and the flush then leaves it out.
- Theorems.SuccessConfirmsTheCall: compares token states only in flush-driven runs; a settle-through acknowledges deliveries whose tokens say pending, or rejected by a call that was refused.
- Actor.ActorState.TrySettle: the state change and the send are one step, and the branch for a stopped actor is not modelled.
- Actor.ActorState.Run: the close-time sweep (`close_set`), metrics, logging, adaptive ticks and the contents of the settlement-error channel are not modelled.
- Actor.ActorState.HandleIncoming: a source error is a separate event that only counts errors, not their texts.
- Actor.ActorState.AskThrough: tokens of a subscription the actor does not know are not modelled; they are only marked lost.
- Registry.PoolRegistry.Acquire: the closing of evicted clients, which happens outside the lock, is not modelled.
- BlockedRun.BlockingIsReached: lets the scheduler pick any ready subscription; its weights rule out some of these orders.
- Prefetch.Controller.Tick: rounding of floating point and durations beyond its range are not modelled.
- Chunking.ChunkWithinBounds: headers, which the chunker does not measure, are not modelled.
- Composite.Consumer.Next: says nothing about how long the call waits; the order in which the sources resolve is a parameter.
- The scheduler's weights, the publisher actor, the steps of a recovery, topology, transport and configuration parsing are left out.
- Publishers and consumers of `ClientPool` are created by the same protocol as coordinators; they would only repeat it.
