# Order processor: a verified model

The order processor is a Go service that takes orders over HTTP, hands them to Kafka through a transactional outbox,
consumes them again with one worker per partition, and runs a payment/stock/confirm saga for each of them behind
lock-free circuit breakers.  This project models the parts of it whose correctness depends on interleavings, on
transactions that may abort anywhere, or on compensation, and proves what they promise over all inputs and all runs.

Check everything with `dafny verify dfyconfig.toml`.

## How the model is built

* **Concurrency** is a labelled transition system: a `State`, a set of `Action`s with `Enabled` and `Apply`, and runs as
  sequences of states.  `Reachable` means the end of some run.  Every atomic access of a goroutine is an action of its own.
* **Code that updates fields** is a class whose methods have the loops of the source; their `ensures` tie the new state
  to a specification function, and the theorems are about that function or about the transition system it belongs to.
* **The environment** is unconstrained unless stated: the broker delivers any message with an offset larger than the
  earlier ones of the same assignment, and ends every assignment of a partition with a Revoked event before it delivers
  from that partition again; handlers return, with any result; a transaction may abort at any statement; a publish may or
  may not return without an error; clients return an id, an error, or panic; clocks do not go back.

| Files | Source | Subject |
|---|---|---|
| `Consumer*.dfy` | `pkg/kafka/consumer.go` | the poll goroutine, its workers, their bounded channels |
| `Breaker*.dfy` | `pkg/breaker/breaker.go` | the sequential breaker, N threads doing compare-and-swap, what becomes of a call, the object used by one thread |
| `Outbox*.dfy` | `pkg/outbox/relay.go`, `internal/storage/pg/outbox.go` | k relays and w writers on one database |
| `PgStorage.dfy` | `internal/storage/pg/*.go` | fresh transactions, both writes of an order, the idempotency insert |
| `Saga*.dfy`, `OrderSaga.dfy` | `pkg/saga/orchestrator.go`, `internal/service/order/process.go` | compensation as undo, and its instance for orders |
| `HandlerChain.dfy`, `Idempotency.dfy`, `Lineage*.dfy`, `Text.dfy` | `internal/kafka/handler/*.go` | retries, dead letters, duplicate deliveries, the whole life of a command |

## Main results

* **Backpressure.**  With channels of size B and W registered partitions, some run of the consumer deadlocks *if and only
  if* (W - 1)(B + 1) >= 16 B.  Below the bound a counting invariant, started when the drain last saw an empty commit
  channel, shows that the worker the poll goroutine waits for can always send; from the bound on a deadlocking run is
  constructed.  With the default B = 256, sixteen partitions are safe and seventeen are not.
* **Commit safety** and per-partition order over every run.  A cancellation and a fatal error, and nothing else, stop the
  consumer: it never polls again, can always go on until it has stopped, and then has handled all it got and tried to commit
  it.  A revocation closes the workers of its partitions and no others and can always be finished, with these partitions settled.
* **The lock-free breaker refines a sequential one** over the recorded operations, with pointer identity for the
  compare-and-swap and a separate probing flag; slot ownership, lock-freedom, cooldown and recovery follow.
* **Ack conservation** in the outbox, for any number of relays and any aborts: acknowledged publishes of a row = (1 if it is
  published) + those of aborted transactions + those of transactions still open.
* **The saga residue theorem**: what exactly is left after a failed, even poisoned, saga.
* **The life of a command**, with any message of it delivered again at any time: a retry is never further from the first message
  than the limit allows; a failure publishes exactly one message, provided that its counter can be read and the producer
  accepts; confirmations are bounded by lost outer commits plus stored keys; and the payment and stock reservations end up at
  one each when the order was confirmed and at none otherwise, provided that compensations work, no confirming delivery loses
  its outer commit, and no message is delivered again after it was handled or retried unless the guard skips it.

## Where the code does not keep a claim, and exactly when it does

* "Backpressure" is described without a limit.  A deadlock with W partitions is reachable if and only if
  (W - 1)(B + 1) >= 16 B (`ConsumerJam.DeadlockExactly`).
* "HalfOpen to Closed on successful probes": the breaker never compares generations.  For every sane configuration, an outcome
  that is not a probe's can be counted while half-open, can close the breaker, and can re-open it, if and only if at least
  two threads use it (`BreakerStale.StaleExactly`).  Whatever the number of threads, every outcome counted while half-open is
  that of the probe of this very phase, or of a call admitted on a closed snapshot of an earlier generation
  (`BreakerOutcome.HalfOpenOutcomes`).
* "No event is ever lost": a row can still be published in some continuation if and only if it is not parked, and can still be
  parked without any further acknowledgement if and only if it is not published (`OutboxParked.PublishableExactly`,
  `OutboxParked.LosableExactly`).  What holds of every order is `OutboxSafety.OrderKeepsItsCommand`.
* Idempotency, one delivery: the handler has been entered exactly once for each abort after an entry, and once more if the key is
  stored or held (`Idempotency.EntriesExactly`); it can be entered again if and only if the key is not stored
  (`Idempotency.EnterableExactly`).
* Idempotency, one command: the confirmation of an order is a transaction of its own, so a delivery whose outer commit is lost can
  confirm again when it is repeated or retried, and reserve everything again.  A command can be confirmed more than once if and
  only if it is well-formed, whatever its counter (`LineageTheorems.ConfirmedTwiceExactly`), and never more often than confirming
  deliveries lost their outer commit plus messages have their key stored (`LineageTheorems.ConfirmationsBounded`).
* Without any lost commit it can still be confirmed more than once, if and only if it is well-formed and its counter leaves a retry
  (`LineageTheorems.LosslessTwiceExactly`): a message may be delivered again beside its published retry
  (`LineageTheorems.RetryBesideRepeat`), and a handled message whose guard transaction fails at a second delivery is retried
  (`LineageTheorems.RetryAfterHandled`).

## Model

| member | source | states |
|---|---|---|
| ConsumerSafety.CommitSafety | pkg/kafka/consumer.go:196-256 | in every reachable state, whatever is handed to CommitOffsets for a partition is one past a handled message, and every delivered message of the partition below it has been handled |
| ConsumerSafety.OnlyDrainsCommit | pkg/kafka/consumer.go:196-256 | offsets reach CommitOffsets only from the default branch of the drain and the final drain of awaitWorkers |
| ConsumerSafety.PartitionOrder | pkg/kafka/consumer.go:164-192 | a handler runs only after all earlier deliveries of its partition were handled, and never beside another handler of the partition, also across revocation and reassignment |
| ConsumerSafety.DispatchTargetOpen | pkg/kafka/consumer.go:141-162 | the poll goroutine never sends on a closed channel and sends to a live worker of the right partition |
| ConsumerSafety.ReturnLeavesNothing | pkg/kafka/consumer.go:215-310 | when awaitWorkers returns, each stopped partition has no live worker, no queued message and no offset in the commit channel, and a commit covering every delivery of it was attempted |
| ConsumerSafety.StoppedSettled | pkg/kafka/consumer.go:286-310 | a stopped consumer has handled every message it got and tried to commit past each of them; all workers have exited |
| ConsumerShutdown.NoPollAfterEnd | pkg/kafka/consumer.go:93-120 | over every run: once the context is cancelled at the loop head, or a fatal error is being handled, the consumer never polls again and gets no further message |
| ConsumerShutdown.CancelCloses | pkg/kafka/consumer.go:94-96 | a cancellation seen at the loop head closes every worker, empties the map and waits for all of them, as the only way on |
| ConsumerShutdown.FatalCloses | pkg/kafka/consumer.go:113-120 | a fatal error does the same, after the drained offsets are handed over |
| ConsumerShutdown.ShutdownEnds | pkg/kafka/consumer.go:286-310 | as long as a shutdown has not ended, the number of steps since it began is bounded by the work there was, and some goroutine can move |
| ConsumerShutdown.StopReached | pkg/kafka/consumer.go:286-310 | from every such state some continuation ends with the consumer stopped |
| ConsumerShutdown.StopsOnlyWhenAsked | pkg/kafka/consumer.go:93-120 | a consumer that is shutting down or stopped was cancelled at the loop head, or met a fatal error, earlier in the run |
| ConsumerShutdown.RevocationCloses | pkg/kafka/consumer.go:258-284 | a revocation closes exactly the workers of the revoked partitions, unregisters these partitions and no others, and awaits exactly the workers that were registered, returning at once if there were none |
| ConsumerShutdown.RevocationSettles | pkg/kafka/consumer.go:258-284 | from every state in which a revocation is handled, some continuation is back at the loop head with every revoked partition unregistered and settled, and every other registration as it was |
| ConsumerShutdown.MessageToItsWorker | pkg/kafka/consumer.go:141-161 | a polled message goes to the worker registered for its partition, which is started if there was none |
| ConsumerShutdown.OtherEventsPass | pkg/kafka/consumer.go:105-137 | no event, an assignment, a commit report and a non-fatal error change nothing but what the drain commits |
| ConsumerInvariant.InvReachable | pkg/kafka/consumer.go:90-310 | the inductive invariant holds in every reachable state: who holds each undelivered or unhandled message, which workers are registered or stopping, and that no handled offset is forgotten |
| ConsumerProgress.BusyEnds | pkg/kafka/consumer.go:160-310 | any stretch of a run in which the poll goroutine is sending or awaiting workers is at most as long as a weighted count of queued, handled, sent and committed items at its start |
| ConsumerProgress.AwaitNeverStuck | pkg/kafka/consumer.go:215-241 | for any number of workers and any channel size some goroutine can move while workers are awaited |
| ConsumerDeadlock.TargetNotBlocked | pkg/kafka/consumer.go:150-187 | below the capacity bound, whenever dispatch blocks on a full channel the worker of that channel is not blocked on the commit channel |
| ConsumerDeadlock.OnlyDispatchBlocks | pkg/kafka/consumer.go:90-139 | everywhere but in dispatch somebody can always move, without any bound |
| ConsumerDeadlock.NoDeadlock | pkg/kafka/consumer.go:85-187 | below the capacity bound no reachable state is deadlocked |
| ConsumerDeadlock.LiveAreRegistered | pkg/kafka/consumer.go:147-166 | outside a shutdown or revocation the workers that are not done are exactly those in the map, and there are as many as partitions in it |
| ConsumerJam.DeadlockRun | pkg/kafka/consumer.go:150-187 | from the bound on there is a run, built step by step, that ends with everybody blocked |
| ConsumerJam.DeadlockExactly | pkg/kafka/consumer.go:85-187 | a deadlock with W registered partitions is reachable if and only if (W - 1)(B + 1) >= 16 B |
| ConsumerJam.ConfiguredLimit | pkg/kafka/consumer.go:12-85 | with the default channel size of 256: no deadlock with 16 partitions, a reachable one with 17 |
| ConsumerLoops.MergeAllKeepsMaxima | pkg/kafka/consumer.go:199-205 | a drain keeps exactly one entry for each partition it has seen, taken from the channel, and with the largest offset |
| ConsumerLoops.PollLoop.Drain | pkg/kafka/consumer.go:197-210 | the receive loop empties the channel and computes the merge of its entries |
| ConsumerLoops.PollLoop.CommitOffsets | pkg/kafka/consumer.go:243-256 | exactly the collected entries are handed to the broker, nothing when there are none |
| ConsumerLoops.PollLoop.DrainCommits | pkg/kafka/consumer.go:196-211 | the channel is empty afterwards and the merged entries were committed |
| ConsumerLoops.PollLoop.WorkerFor | pkg/kafka/consumer.go:142-158 | an existing worker is reused and nothing changes; otherwise one new idle worker is registered |
| ConsumerLoops.PollLoop.StopPartitions | pkg/kafka/consumer.go:258-273 | the loop closes, unregisters and collects the workers of the revoked partitions as the specification functions CloseAll and Targets say |
| ConsumerLoops.PollLoop.StopAll | pkg/kafka/consumer.go:286-294 | every registered worker is closed and the map is empty |
| ConsumerLoops.WaitsForThem | pkg/kafka/consumer.go:260-269 | the workers waited for are exactly the registered ones of the listed partitions, each once even if a partition is listed twice |
| ConsumerLoops.ClosesThem | pkg/kafka/consumer.go:260-269 | and exactly they get closed |
| BreakerSpec.WithDefaults | pkg/breaker/breaker.go:69-78 | each of MaxFailures, ResetTimeout and HalfOpenSuccesses is kept if it is positive and is 5, 30 s or 3 otherwise, whatever the other settings are; the slow-call threshold is always kept |
| BreakerSpec.SnapshotMeans | pkg/breaker/breaker.go:214-313 | for every legal history: closed failures are the trailing run of recorded failures, half-open successes the run of successes since the probe, and an open snapshot carries the time of the failure that opened it |
| BreakerSpec.OpensAtThreshold | pkg/breaker/breaker.go:268-283 | a closed breaker opens exactly at the MaxFailures-th failure in a row |
| BreakerSpec.ClosesAtThreshold | pkg/breaker/breaker.go:231-302 | a half-open breaker closes exactly at the HalfOpenSuccesses-th success in a row and opens with any failure, at the time of that failure |
| BreakerInvariant.InvReachable | pkg/breaker/breaker.go:97-313 | the inductive invariant of N threads: the installed snapshots and the recorded operations are sequential runs, every loaded pointer was installed, and the flag matches the owner |
| BreakerSafety.RefinesSequential | pkg/breaker/breaker.go:144-313 | in every reachable state of N threads the current snapshot is what the sequential breaker reaches on the recorded operations, and each installed snapshot is the sequential step of its immediate predecessor |
| BreakerSafety.OnlyLegalEdges | pkg/breaker/breaker.go:144-313 | the only edges between installed snapshots, with the counters: clearing or counting a failure while closed, counting a success while half-open, opening at the threshold or from half-open, half-opening after the cooldown, closing from half-open at the threshold, reset |
| BreakerOutcome.RecordedOnceBeforeRelease | pkg/breaker/breaker.go:103-130 | when a call releases, exactly one operation was recorded for it, a success if the function succeeded and a failure if it failed, panicked or was slow; none if it was neutral |
| BreakerOutcome.FailureTime | pkg/breaker/breaker.go:257-302 | the time recorded with a failure was read after the protected function was still executing and before the call releases |
| BreakerOutcome.AdmissionHistory | pkg/breaker/breaker.go:158-198 | a call is admitted only by a step of allow, and its recorded admission is the snapshot current after it, half-open for a probe and closed for any other call |
| BreakerOutcome.CallHistory | pkg/breaker/breaker.go:98-132 | the recorded outcome of a call is the one its function returned with, and neither that nor its admission changes until it leaves |
| BreakerOutcome.HalfOpenOutcomes | pkg/breaker/breaker.go:158-313 | every outcome installed on a half-open snapshot is that of the probe admitted in this very phase, or of a call admitted on a closed snapshot of a smaller generation |
| BreakerSafety.SlotOwnership | pkg/breaker/breaker.go:103-193 | the probing flag is set exactly when some thread owns the slot, there is one owner at most, and it is clear when nobody is calling |
| BreakerSafety.SingleProbe | pkg/breaker/breaker.go:184-193 | at most one probe executes at a time |
| BreakerSafety.OnlyOwnerClears | pkg/breaker/breaker.go:103-191 | only the owner clears the flag |
| BreakerSafety.OnlyOwnerHalfOpens | pkg/breaker/breaker.go:170-182 | an open breaker becomes half-open only by the owner of the slot, who still owns it afterwards |
| BreakerSafety.RejectsExactly | pkg/breaker/breaker.go:158-193 | a step of allow rejects if and only if less than ResetTimeout has passed since lastFailedAt of an open snapshot that was current during this call, or another thread owns the probe slot; a lost race never rejects |
| BreakerSafety.RetriesAreOthersProgress | pkg/breaker/breaker.go:145-307 | a call of allow, recordSuccess, recordFailure or Reset has retried at most once per snapshot installed since it began, all by other threads |
| BreakerSafety.OpenLeftOnlyByProbeOrReset | pkg/breaker/breaker.go:257-310 | an open snapshot is replaced only by a probe or a reset, so failures recorded while open never move lastFailedAt |
| BreakerSafety.OpenHeldForCooldown | pkg/breaker/breaker.go:166-180 | without a reset, no call begun after an open snapshot was installed is executing before its lastFailedAt plus ResetTimeout |
| BreakerSafety.ShapeAlways | pkg/breaker/breaker.go:70-301 | the bounds of failures and successes in each state, for every snapshot ever installed |
| BreakerSafety.GenerationCountsChanges | pkg/breaker/breaker.go:144-301 | between two snapshots the generation grows by exactly the number of state changes and resets, and no such change means the same state |
| BreakerSafety.SameGenerationSameState | pkg/breaker/breaker.go:144-301 | equal generations imply equal states |
| BreakerSafety.HalfOpenCounts | pkg/breaker/breaker.go:231-255 | within one half-open generation every installed snapshot counts one more success |
| BreakerSafety.HalfOpenBudget | pkg/breaker/breaker.go:231-302 | one half-open generation has at most HalfOpenSuccesses snapshots and is never left by a probe |
| BreakerStale.StaleExactly | pkg/breaker/breaker.go:158-313 | for every sane configuration and every n: with n threads an outcome that is not a probe's can replace a half-open snapshot, can close the breaker, can re-open it, each if and only if n >= 2 |
| BreakerStale.OldCallCloses | pkg/breaker/breaker.go:231-244 | for two or more threads a reachable state in which a call admitted while closed has closed the half-open breaker while the probe is still executing |
| BreakerRecovery.Recovery | pkg/breaker/breaker.go:97-255 | from every reachable state in which no thread owns the probe slot, so also when calls admitted while closed hang, from lastFailedAt plus ResetTimeout on, HalfOpenSuccesses successful calls in a row are all admitted and end in closed with no failures |
| BreakerClass.Breaker.Allow | pkg/breaker/breaker.go:158-199 | a closed breaker admits; an open one if and only if the slot is free and ResetTimeout has passed since lastFailedAt; a half-open one if and only if the slot is free; who gets the slot, and that a probe is recorded exactly when an open breaker turns half-open |
| BreakerClass.Breaker.RecordSuccess | pkg/breaker/breaker.go:214-261 | one recorded success, and the snapshot is that of the sequential breaker |
| BreakerClass.Breaker.RecordFailure | pkg/breaker/breaker.go:263-313 | one recorded failure, and the snapshot is that of the sequential breaker |
| BreakerClass.Breaker.Reset | pkg/breaker/breaker.go:144-156 | closed without failures, as a recorded reset |
| BreakerClass.Breaker.RecordOutcome | pkg/breaker/breaker.go:112-130 | a failure for a panic and for a slow call, a success for a fast call without an error, for a fast error whatever the configured IsFailure says (a failure without one), and nothing if the caller canceled and the error is that cancellation |
| BreakerClass.Breaker.Execute | pkg/breaker/breaker.go:97-133 | rejected without effect or admitted by the same conditions as in allow, recorded exactly once by the same conditions as above or not at all if neutral; the slot is as before afterwards, whatever the function did |
| OutboxInvariant.InvKept | pkg/outbox/relay.go:80-110 | every action of k relays and w writers, also an abort at any point, keeps the invariant: disjoint locked batches, row updates that match the acks, one command per order, and the conservation law |
| OutboxSafety.AckConservation | pkg/outbox/relay.go:83-107 | acknowledged publishes of a row = 1 if published + those of aborted transactions + those of open ones |
| OutboxSafety.PublishedWasAcked | internal/storage/pg/outbox.go:59-68 | a published row was acknowledged once plus once for each aborted transaction that had published it |
| OutboxSafety.ParkedAcksAborted | internal/storage/pg/outbox.go:46-57 | a parked row was acknowledged only in transactions that aborted |
| OutboxSafety.NoConcurrentPublish | internal/storage/pg/outbox.go:12-17 | two open relay transactions never share a row |
| OutboxSafety.RowLife | internal/storage/pg/outbox.go:14-68 | rows never disappear, published and parked rows never change, a pending row is published or counts one more failure |
| OutboxSafety.OrderKeepsItsCommand | internal/storage/pg/save-order.go:11-21 | every committed order has exactly one command row; it is published (and was acknowledged), pending with fewer than five failures, or parked with exactly five |
| OutboxSafety.CommandHasItsOrder | internal/service/order/create.go:20-28 | a command row never exists without its order |
| OutboxSafety.CommitSetsOrder | internal/storage/pg/update-status.go:10-24 | a writer's commit adds a new order as pending, or sets the status of the one order it is for if that exists; no other order changes |
| OutboxSafety.CommitAddsRow | internal/storage/pg/save-order.go:33-45 | and adds one unpublished row without failures, of this order, whose event type says what was done |
| OutboxSafety.OnlyCommitsChangeOrders | internal/storage/pg/storage.go:65-84 | no other step of a relay or writer changes an order |
| OutboxParked.PublishableExactly | internal/storage/pg/outbox.go:11-68 | from every reachable state with a relay and a batch size of at least 1, some continuation publishes the row if and only if it is not parked |
| OutboxParked.LosableExactly | internal/storage/pg/outbox.go:11-68 | and some continuation parks it, without another acknowledged publish, if and only if it is not published |
| OutboxParked.SettledForGood | internal/storage/pg/outbox.go:14-14 | along every continuation published and parked rows stay as they are and no row disappears |
| OutboxParked.CommandCanBeLost | internal/storage/pg/outbox.go:14-51 | for every batch size a reachable state with a committed order whose command was never acknowledged and is parked in every continuation |
| OutboxRelay.SoleRelay.GetBatch | internal/storage/pg/outbox.go:11-44 | the oldest pending rows, in order, without repetition, and all of them if they fit |
| OutboxRelay.SoleRelay.PublishAll | pkg/outbox/relay.go:90-106 | it succeeds exactly if every row update does; then each message of the batch is marked published if its publish was acknowledged and counts one more failure if not, with one ack for each published one |
| OutboxRelay.SoleRelay.ProcessBatch | pkg/outbox/relay.go:80-110 | a batch succeeds exactly if begin, query, every row update and commit do; a failed one changes no row, a successful one changes exactly the oldest pending rows, each as its publish was answered, with one ack for each row it published |
| OutboxRelay.SoleRelay.Drain | pkg/outbox/relay.go:61-78 | draining ends by a batch that is not full, a failed one, or the context; full batches times the batch size is at most 5 times the pending rows, however late the context ends; a clean return leaves pending only rows whose publish was just refused in the last batch; a batch size of 0 changes nothing and ends only by the context or a failure; nothing fails unless the database does |
| OutboxRelay.BatchSpends | pkg/outbox/relay.go:90-105 | a committed batch lowers the failures left over all pending rows by at least its length |
| OutboxRelay.BudgetBound | internal/storage/pg/outbox.go:14-14 | the failures left are at most five for each pending row |
| PgStorage.PairIsWriterCommit | internal/storage/pg/save-order.go:11-21 | committing the two statements of a write is the writer's commit step of the outbox protocol |
| PgStorage.Storage.Exec | internal/storage/pg/storage.go:58-63 | a statement goes to the transaction of its context if there is one, else takes effect at once; it fails only if the database does or the order it inserts exists |
| PgStorage.Storage.WriteTx | internal/storage/pg/update-status.go:10-24 | it succeeds exactly if begin, both statements and commit do and a new order is new; then the order is pending or has the new status, no other order changes, and one row with the matching event type is added; otherwise nothing changes; its transaction is its own whatever the context holds |
| PgStorage.Storage.TryInsertProcessedEvent | internal/storage/pg/event.go:8-18 | a stored key is reported and not inserted again |
| PgStorage.Storage.WithIdempotency | internal/kafka/handler/builder.go:46-65 | the handler runs exactly if the transaction begins, the insert succeeds and the key is new; the key is stored exactly when that run is acknowledged; a confirmed order that exists is CONFIRMED and no other order changes, also when the outer transaction aborts |
| PgStorage.WriteKeeps | internal/storage/pg/save-order.go:11-21 | a committed pair keeps one command for every order and an event for every changed status |
| Saga.Orchestrator.Compensate | pkg/saga/orchestrator.go:89-112 | the completed steps are compensated in reverse, and the failures are listed |
| Saga.Orchestrator.Execute | pkg/saga/orchestrator.go:46-130 | success means all steps were executed; failure means all steps before the failed one succeeded and exactly those were compensated, also when the context ended or a step panicked |
| SagaTheorems.CleanFailureRestores | pkg/saga/orchestrator.go:28-112 | if failed steps have no effect and successful compensations undo, a failed saga that is not poisoned restores the world it started from |
| SagaTheorems.FailureResidue | pkg/saga/orchestrator.go:73-112 | for steps on separate resources, exactly the steps listed in the compensation errors and those without compensation leave their effect, every other resource is as before |
| SagaTheorems.PoisonedExactly | pkg/saga/orchestrator.go:27-30 | for steps on separate resources a failed saga is poisoned if and only if the compensation of some completed step fails on what the step has done, and exactly those steps are listed |
| SagaTheorems.SuccessEffects | pkg/saga/orchestrator.go:46-71 | a successful saga leaves the effect of every step |
| OrderSaga.AttemptMeans | internal/service/order/process.go:19-96 | for every behaviour of the clients: when an attempt confirms, whether its error wraps ErrOpen, which reservations stay, and that no order is ever cancelled |
| OrderSaga.ProcessCommand | internal/service/order/process.go:12-109 | one processed command has that effect, starting with empty ids |
| OrderSaga.AttemptBalanced | internal/service/order/process.go:24-58 | if ids are non-empty and cancels succeed, an attempt holds both reservations if it confirmed, and neither otherwise |
| OrderSaga.FailureLeaves | internal/service/order/process.go:30-57 | a failed attempt leaves no reservation if and only if none had an empty id or a failing cancel |
| Text.PrintInjective | internal/kafka/handler/builder.go:48-51 | different numbers are printed differently |
| Text.PrintPlaces | internal/kafka/handler/builder.go:48-51 | numbers are printed in base ten, the last digit last, negative ones behind a minus sign |
| Text.ScanPrint | internal/kafka/handler/builder.go:103-126 | scanning reads back every 64-bit number that was printed |
| Text.ScanReads | internal/kafka/handler/builder.go:103-114 | a number behind blanks and an optional plus sign is read whatever follows it, exactly if it fits into 64 bits |
| Text.ScanRefuses | internal/kafka/handler/builder.go:103-114 | without a digit where the number should be, scanning fails |
| HandlerChain.BumpedReadsBack | internal/kafka/handler/builder.go:103-126 | the counter of a re-published message is the number written, and all other headers keep their order |
| HandlerChain.CounterIsFirst | internal/kafka/handler/builder.go:103-114 | the counter is read from the first x-retry-count header, wherever it is, and is 0 without one |
| HandlerChain.ValueIsFirst | internal/kafka/handler/handler.go:56-63 | a header value is that of the first header with the key, empty without one |
| HandlerChain.RetryHeaders | internal/kafka/handler/builder.go:116-126 | a re-published message has all headers but x-retry-count as often as before, and the new counter as its last one |
| HandlerChain.PoisonPill.RePublish | internal/kafka/handler/builder.go:116-131 | one message on the same topic with the same key and value and the counter replaced |
| HandlerChain.PoisonPill.SendToDLQ | internal/kafka/handler/builder.go:133-148 | one message on the dead-letter topic with all headers and five added ones |
| HandlerChain.PoisonPill.Handle | internal/kafka/handler/builder.go:67-101 | success publishes nothing; an unreadable counter is an error and publishes nothing; any other failure publishes exactly one message if the producer accepts: to the dead-letter topic if it is permanent or the counter has reached the limit, else the message again with the counter plus one |
| Idempotency.KeyInjective | internal/kafka/handler/builder.go:48-51 | the stored key determines topic, partition and offset, even for topics with colons |
| Idempotency.CommittedOnce | internal/kafka/handler/builder.go:53-63 | over all interleavings and aborts at most one transaction that ran the handler commits for a key, and the key is stored exactly when one did |
| Idempotency.HandlerExclusive | internal/storage/pg/event.go:8-18 | the handler never runs for a stored key, nor twice at a time for one key |
| Idempotency.NeverEnteredAgain | internal/kafka/handler/builder.go:53-63 | once a key is stored its handler is never entered again |
| Idempotency.EntriesConserved | internal/storage/pg/storage.go:65-84 | in every state of every run, entries of the handler for a key = committed runs + aborts after an entry + transactions still open in it |
| Idempotency.EntriesExactly | internal/storage/pg/storage.go:65-84 | the handler has been entered once for each such abort, and once more if the key is stored or held; more than once only after an abort |
| Idempotency.EnterableExactly | internal/kafka/handler/builder.go:53-63 | from every state some continuation enters the handler for the key once more if and only if the key is not stored |
| Lineage.KeyMeansCoordinates | internal/kafka/handler/builder.go:48-51 | two messages have the same idempotency key if and only if they have the same topic, partition and offset |
| Lineage.Process | internal/kafka/handler/handler.go:33-54 | a stored message is skipped; for any other, exactly an undecodable payload and an empty or missing order-id header are permanent failures, an open breaker and the database make retriable ones, and every other saga failure counts as handled |
| Lineage.HandleMessage | internal/kafka/handler/builder.go:28-44 | the composed handler: the guarded attempt decides the outcome, the outcome and the counter decide what is published, and the reply is an error if the counter cannot be read or the producer refuses |
| Lineage.Deliver | internal/kafka/handler/builder.go:46-101 | one delivery of any message of a command extends its history: the key is stored exactly when it is handled, a published retry joins the lineage, and the producer has acknowledged exactly its answers |
| Lineage.Consume | pkg/kafka/consumer.go:172-187 | for every schedule of deliveries, repeated ones included, the handler produces such a history and publishes the answers of the deliveries in their order |
| LineageTheorems.HeldExactly | internal/kafka/handler/builder.go:67-101 | over any deliveries, acknowledged payments (stock reservations) held = runs that confirmed or whose payment (stock) could not be cancelled; no order is ever cancelled |
| LineageTheorems.Balanced | internal/kafka/handler/builder.go:67-101 | over any deliveries, if compensations work, both reservations grow by exactly one per confirmation |
| LineageTheorems.ConfirmationsBounded | internal/kafka/handler/builder.go:53-99 | confirmations are at most the confirming deliveries whose outer commit was lost plus the messages whose key is stored |
| LineageTheorems.NoLossMeansBalanced | internal/kafka/handler/builder.go:46-101 | if compensations work, no confirming delivery loses its outer commit, and no message is delivered again after it was handled or retried unless the guard skips it: one reservation of each kind if some delivery confirmed, none otherwise |
| LineageTheorems.LineageBounded | internal/kafka/handler/builder.go:87-99 | under that condition on deliveries a command has at most maxRetries + 1 messages from a missing counter, fewer from a larger one, one from an unreadable one |
| LineageTheorems.LostCommitConfirmsTwice | internal/storage/pg/storage.go:65-84 | for every well-formed command, whatever its counter, a history in which it is delivered twice and confirmed twice |
| LineageTheorems.ConfirmedTwiceExactly | internal/kafka/handler/builder.go:46-101 | a history with two or more confirmations exists if and only if the command is well-formed |
| LineageTheorems.RetryBesideRepeat | internal/kafka/handler/builder.go:87-99 | a history without a lost commit in which a message is delivered again beside its retry and both confirm |
| LineageTheorems.RetryAfterHandled | internal/kafka/handler/builder.go:53-99 | a history without a lost commit in which a handled message is retried because the guard's transaction fails at its second delivery, and the retry confirms again |
| LineageTheorems.LosslessTwiceExactly | internal/kafka/handler/builder.go:46-101 | without a lost commit two or more confirmations are possible if and only if the command is well-formed and its counter is readable and below the limit |
| LineageTheorems.KeysDiffer | internal/kafka/handler/builder.go:48-51 | no two messages of a lineage share an idempotency key |
| LineageTheorems.RetryKeepsMessage | internal/kafka/handler/builder.go:103-131 | every message of a lineage has the topic, key, value, order id and other headers of the first, and its counter plus the number of retries that lead to it |
| LineageTheorems.RetriesBounded | internal/kafka/handler/builder.go:87-99 | no message is more retries away from the first one than there are counter values left, whatever is delivered again |
| LineageTheorems.DeadExactly | internal/kafka/handler/builder.go:79-99 | with a readable first counter a failed delivery asks for the dead-letter topic if it failed permanently or exactly at the last retry, else for the next retry |
| HandlerChain.DeadLetterKeepsHeaders | internal/kafka/handler/builder.go:133-142 | a dead letter has the message's headers as a prefix and the same counter |
| HandlerChain.DeadLetterTellsOrigin | internal/kafka/handler/builder.go:136-142 | topic, partition, offset, error and time can be read back from the added headers |

## Left out

- librdkafka, PostgreSQL and HTTP internals: a broker with increasing offsets, transactions that commit or abort, and
  clients that reserve, refuse or panic stand for them.
- HTTP handlers, configuration, logging, application wiring, getters and error wrappers: plumbing.
- The total computed by NewOrder, the texts of errors, the format of timestamps: easy members.
- Wrap-around of the breaker's generation (a uint64) and overflow of durations: both are unbounded here.
- A commit error after which the database has committed after all: a failed commit is an abort here.
- A publish that returns a context error although the message is delivered later: in the outbox the broker may hold more
  messages than were acknowledged, and only acknowledged publishes are counted; retries that arrive this way are part of a
  lineage.
- Closing several worker channels in one revocation or shutdown is one step here: interleavings in which one worker sees
  its closed channel before the next one is closed are not explored.
- Handlers that never return: a worker's handler call is assumed to end, with or without an error.
- Order of the commit call over partitions: CommitOffsets gets a set, since map iteration has no order.
- OutboxRelay.SoleRelay.Drain: one relay and no inserts while it runs; the other results hold for any number of both.
- A panic inside the configured IsFailure function: it is a pure function here.
- BreakerSafety.OpenHeldForCooldown: says nothing about calls rejected although they could have been admitted; a racing
  Reset can make allow reject spuriously.
- HandlerChain.RetryCount: blanks other than space, tab and carriage return before a counter are not modelled; no counter
  written by the service has any.
- Lineage.Consume: deliveries of one command follow one another; that two deliveries of one message overlap is covered by the
  Idempotency module, where the second insert of the key waits for the first transaction.
- LineageTheorems.HeldExactly: counts reservations that were acknowledged with an id or an empty one; a reservation made by a call
  that returned an error, for example because the reply did not decode, is not seen by the service and not counted.
- Exactly-once effects of the saga and orders that become CANCELLED: the code has neither, since the confirmation commits on
  its own and the last step is never compensated.
