# Concurrency labs: a verified model

This project models the protocols of a set of PostgreSQL and Redis concurrency labs and proves what they
promise, for every input, every interleaving and every crash between two database statements.

- **Order sagas** (`Saga*.dfy`). The tables and the eight steps; orchestration and event-bus choreography as one
  state machine over database actions; safety over all interleavings of any number of sagas; the equivalence of
  the two mechanisms; the log as a ledger of the tables; whose data the rows carry; what exactly a saga run by itself
  leaves and logs; and the database, the orchestrator and the event bus as objects whose methods are proved against
  the state machine.
- **Leased job queue** (`Job*.dfy`), **outbox** (`Outbox*.dfy`), **inbox** (`Inbox.dfy`) and
  **delivery** (`Delivery.dfy`). Claims, leases, stale workers, audit rows, duplicate deliveries and deduplication.
- **Seats** (`Seat*.dfy`). The row-lock reservation refines the conditional one; holds and their deadlines.
- **Redis lock and fencing** (`Fencing*.dfy`, `FencedLock.dfy`) and the **caches** (`LeaseRefill*.dfy`,
  `Coalescing*.dfy`, `StaleWhileRevalidate.dfy`, `RevalidationHistory.dfy`, `RevalidatingCache.dfy`).
- **Revenue report** (`RevenueReport.dfy`) and **unique e-mails** (`UniqueEmail.dfy`). A query rewrite that preserves
  meaning, and a loop whose termination counts a finite set.

Protocols are functions from states to states, one database statement or event-loop turn at a time; a theorem about
every run quantifies over every list of such steps. A step that is not possible in a state leaves it unchanged, so
these lists are all the interleavings. A worker that crashes takes no further step. Code that changes objects is
modelled by classes and methods as well, whose contracts tie each call to those functions. The `*History.dfy` files
and `SeatHolds.dfy` say what holds in a run in terms of the arguments and times of its steps. Clocks only move
forward; processing times, broker replies, network outcomes, generated names and UUIDs are arbitrary inputs, and
UUIDs used as tokens are fresh.

The code and its own comments disagree in four places, and the model follows the code.

- `acquireLockWithFencingToken` is said to give every acquisition a token above those of all prior acquisitions. SET and
  INCR are two commands, so this fails when a lease lapses between them: `Fencing.InOrderIffNoneOvertaken` says exactly
  when it holds, `Fencing.LateIncrFromStart` is a failing run.
- `claimJob` is said to leave one 'claimed' audit row per job at any instant. It expires earlier rows only of a job that is
  'processing', and after a stale worker's late `failJob` the job is 'pending' with another worker's row still 'claimed'.
  `JobQueue.OneOpenThroughoutIff` says exactly when no job has two, `JobQueue.StaleWorkerLeavesTwoClaimed` is a failing run;
  a job that is 'processing' always has one (`JobQueue.RunProcessingOpen`).
- An 'expired' audit row is said never to be touched again. A stale worker's late finish overwrites it:
  `JobQueue.ExpiredThroughoutIff` says exactly when it stays, `JobQueue.StaleWorkerRewritesExpired` is a failing run.
- The corrected report is said to have the true order counts. Orders without lines drop out of its inner join:
  `RevenueReport.CountsRightIff` says exactly when the counts are right, and `RevenueReport.OrderWithoutLinesIsMissed`
  how any report goes wrong.

A stale worker can also take a job out of 'completed' or 'failed': `JobQueue.TerminalThroughoutIff` says exactly when not,
and `JobQueue.StaleWorkerReopensJob` is such a run. `JobQueue.OrderlyThroughoutIffAllHarmless` is exact for all of it at
once together with claim windows that do not overlap, which asks for more than any one of these.

`dafny verify dfyconfig.toml` checks everything.

## Model

| member | source | states |
|---|---|---|
| SagaSafety.StockConservation | labs/20-sagas-and-distributed-workflows/src/domain/compensating-steps.ts:38-61 | In every interleaving, step by step, of any number of orchestrated and choreographed sagas: each item's available quantity plus its reservations still 'reserved' is the initial total, and available stays between 0 and what it was at the start; from any tables the schema admits |
| SagaSafety.ReleaseSucceeds | labs/20-sagas-and-distributed-workflows/src/domain/compensating-steps.ts:38-61 | In every interleaving the release, which no status guards, meets a reservation still 'reserved' and cannot overflow the stock column, so it succeeds |
| SagaSafety.FinishedSagasSettled | labs/20-sagas-and-distributed-workflows/src/orchestration/orchestrator.ts:43-133 | Under any interleaving a finished saga leaves its order completed (one reserved reservation, one captured payment, one shipment) or cancelled (none of them left); no other saga owns that order; an aborted saga left no order |
| SagaSafety.SagaFinishes | labs/20-sagas-and-distributed-workflows/src/choreography/event-bus.ts:53-75 | Whatever the others do, a saga has finished after as many turns as its rank |
| SagaSafety.RunKeepsInv | labs/20-sagas-and-distributed-workflows/src/domain/run-step.ts:30-72 | The invariant behind stock conservation, releases and settled orders holds after every schedule, crashes (sagas never picked again) included |
| SagaSafety.MoveIsGood | labs/20-sagas-and-distributed-workflows/src/domain/steps.ts:21-196 | Each step and compensation from a point where the saga owns its rows (and, before a release, the stock column has room) keeps the tables well formed, keeps stock, leaves every other order's rows alone, and hands the next step what it needs |
| SagaTables.HeldBelowRelease | labs/20-sagas-and-distributed-workflows/src/db/schema.ts:69-87 | Releasing a 'reserved' reservation lowers the amount held for its item by exactly its quantity |
| SagaProtocol.StepRefinesMove | labs/20-sagas-and-distributed-workflows/src/choreography/handlers.ts:63-207 | At every control point of either style the next database action is the orchestrator's next business move, or writes only a log row |
| SagaProtocol.StepLowersRank | labs/20-sagas-and-distributed-workflows/src/choreography/event-bus.ts:53-75 | Every action of an unfinished saga, orchestrated or event-driven, lowers its rank, so the cascade ends |
| SagaProtocol.HandlerLowersRank | labs/20-sagas-and-distributed-workflows/src/choreography/handlers.ts:63-207 | Every handler publishes only events of lower rank than the one it handles |
| SagaProtocol.OrderStays | labs/20-sagas-and-distributed-workflows/src/choreography/run.ts:37-64 | A saga that has an order ends with the same order |
| SagaEquivalence.ChoreographyEqualsOrchestration | labs/20-sagas-and-distributed-workflows/src/choreography/handlers.ts:63-207 | From any tables, input and failing step, both mechanisms end with the same orders, items, reservations, payments and shipments; without the published and consumed rows their new log rows agree in order, mechanism column aside; the cascade logs strictly more rows unless `createOrder` failed, and then equally many |
| SagaEquivalence.RunsMatch | labs/20-sagas-and-distributed-workflows/src/orchestration/orchestrator.ts:43-133 | The same agreement from every pair of matching control points, not only from the start |
| SagaEquivalence.CascadeLogsMore | labs/20-sagas-and-distributed-workflows/src/choreography/event-bus.ts:53-75 | Once the order exists, the cascade logs more rows than the orchestrator |
| SagaInterleaving.InterleavingsMatch | labs/20-sagas-and-distributed-workflows/src/choreography/handlers.ts:63-207 | Whatever the interleaving of any number of sagas of either style, the same sagas all orchestrated have an interleaving that reaches the same business tables with every saga at the same stage |
| SagaAccounting.LogAccountsForTables | labs/20-sagas-and-distributed-workflows/src/domain/run-step.ts:30-72 | In every interleaving the success rows alone account for each item's change of stock, for the status of every new order and the number of its payments and shipments, and for every refund and release: one for a refunded payment or released reservation, none for another |
| SagaAccounting.ReleasedAtMostOnce | labs/20-sagas-and-distributed-workflows/src/domain/compensating-steps.ts:38-61 | The log holds one release of a new reservation if it is 'released' and none otherwise: nothing is released twice |
| SagaRecords.OrdersCarryTheirInput | labs/20-sagas-and-distributed-workflows/src/domain/steps.ts:21-148 | In every interleaving of any number of sagas of both styles: an order row has the customer and amount of its saga's input; each payment of the order, captured or refunded, has that amount, and so has the row that logs the capture; each reservation has the input's quantity, of the item with the input's SKU; its success rows carry the saga's own mechanism |
| SagaRecords.RunKeepsRecords | labs/20-sagas-and-distributed-workflows/src/choreography/handlers.ts:63-141 | The invariant behind it: each success row logged since the start belongs to the saga that owns its order and repeats that saga's input |
| SagaOutcome.OrchestratedOutcome | labs/20-sagas-and-distributed-workflows/src/orchestration/orchestrator.ts:43-133 | From the tables, the input and the failing step alone: at which step a saga run by itself stops and why, or that it completes; every row it leaves in the five tables, column by column, with the ids it drew; and the exact list of its log rows |
| SagaTranscript.ChoreographedOutcome | labs/20-sagas-and-distributed-workflows/src/choreography/handlers.ts:63-207 | The same for the event-driven saga, with the published and consumed rows of every event and their services |
| SagaDatabase.Database.ReserveInventoryStep | labs/20-sagas-and-distributed-workflows/src/domain/steps.ts:76-121 | The step's result and its effect on all tables, with the log row inside the transaction on success and after the rollback on failure |
| SagaDatabase.Database.CreateOrderStep | labs/20-sagas-and-distributed-workflows/src/domain/steps.ts:21-74 | The same for the first step: an order with the input's customer and amount exactly if no failure is simulated and the amount is between 1 and 2147483647 |
| SagaDatabase.Database.CapturePaymentStep | labs/20-sagas-and-distributed-workflows/src/domain/steps.ts:123-148 | The same for the payment: one captured payment of the given amount exactly if no failure is simulated and the amount is between 1 and 2147483647 |
| SagaDatabase.Database.CreateShipmentStep | labs/20-sagas-and-distributed-workflows/src/domain/steps.ts:150-173 | The same for the shipment |
| SagaDatabase.Database.CompleteOrderStep | labs/20-sagas-and-distributed-workflows/src/domain/steps.ts:181-196 | The same for the order's completion |
| SagaDatabase.Database.RefundPaymentStep | labs/20-sagas-and-distributed-workflows/src/domain/compensating-steps.ts:19-36 | The same for the refund |
| SagaDatabase.Database.ReleaseInventoryStep | labs/20-sagas-and-distributed-workflows/src/domain/compensating-steps.ts:38-61 | The same for the release of stock |
| SagaDatabase.Database.CancelOrderStep | labs/20-sagas-and-distributed-workflows/src/domain/compensating-steps.ts:63-77 | The same for the cancellation |
| SagaDatabase.Database.EndStep | labs/20-sagas-and-distributed-workflows/src/domain/run-step.ts:30-72 | A failed step's work is undone, its consumed identity values excepted, and every step ends with exactly one log row |
| SagaDatabase.Database.InsertSagaLog | labs/20-sagas-and-distributed-workflows/src/domain/saga-log.ts:22-34 | Appends one row and changes nothing else |
| SagaOrchestrator.RunOrderSaga | labs/20-sagas-and-distributed-workflows/src/orchestration/orchestrator.ts:43-133 | The method ends in the tables of the saga's lone run and returns the outcome, order and failed step of its final stage; the reported failure is that of the first failed row it logged |
| SagaOrchestrator.PayShipAndComplete | labs/20-sagas-and-distributed-workflows/src/orchestration/orchestrator.ts:81-132 | The part after the reservation, with its reverse-order compensations |
| SagaOrchestrator.ReleaseAndCancel | labs/20-sagas-and-distributed-workflows/src/orchestration/compensation.ts:25-43 | Releasing, then cancelling, ends the saga's lone run cancelled |
| SagaEventBus.EventBus.On | labs/20-sagas-and-distributed-workflows/src/choreography/event-bus.ts:40-44 | Appends a subscriber to its own event's list and leaves the other lists |
| SagaEventBus.EventBus.RegisterHandlers | labs/20-sagas-and-distributed-workflows/src/choreography/handlers.ts:63-207 | Afterwards every event has exactly the subscribers of the wiring |
| SagaEventBus.EventBus.Publish | labs/20-sagas-and-distributed-workflows/src/choreography/event-bus.ts:53-75 | The recursive cascade returns, with the cascade over and the tables of the lone run |
| SagaEventBus.EventBus.Handle | labs/20-sagas-and-distributed-workflows/src/choreography/handlers.ts:63-207 | The handler of an event and all that it sets off end likewise |
| SagaEventBus.RunChoreographedOrderSaga | labs/20-sagas-and-distributed-workflows/src/choreography/run.ts:37-64 | The whole choreographed saga ends in the tables of its lone run and returns that run's order, or nothing if none was created |
| JobQueue.AttemptsNumberedOnce | labs/14-job-queue-skip-locked/src/queue/claim.ts:39-116 | In every run, stale workers included, a job's `attempts` is its number of audit rows, which are numbered 1 to `attempts`, each number once, in claim order |
| JobQueue.GuardedRunExclusive | labs/14-job-queue-skip-locked/src/queue/claim.ts:39-191 | While workers finish only attempts still theirs: a job is 'processing' exactly when it has one 'claimed' row, held by `locked_by`, and its claim windows never overlap |
| JobQueue.GuardedRunTerminal | labs/14-job-queue-skip-locked/src/queue/claim.ts:118-191 | In such a run 'completed' and 'failed' are never left |
| JobQueue.GuardedStep | labs/14-job-queue-skip-locked/src/queue/claim.ts:58-191 | One guarded step keeps that order of things |
| JobQueue.FinishSafeIffHarmless | labs/14-job-queue-skip-locked/src/queue/claim.ts:118-191 | `completeJob` and `failJob`, which do not check the lease holder, keep it if and only if the call is harmless, a condition on the rows before the call |
| JobQueue.OrderlyThroughoutIffAllHarmless | labs/14-job-queue-skip-locked/src/queue/claim.ts:39-191 | A whole run, stale workers included, keeps all of it (one holder per job, claim windows apart, terminal statuses final) throughout if and only if every finish was harmless when it ran |
| JobQueue.OneOpenThroughoutIff | labs/14-job-queue-skip-locked/src/queue/claim.ts:86-99 | In whole runs no job ever has two 'claimed' rows if and only if no claim took a job that was not 'processing', so that nothing was expired, and still had one |
| JobQueue.OneOpenKeptIff | labs/14-job-queue-skip-locked/src/queue/claim.ts:86-99 | The same for one step, on the rows before it |
| JobQueue.RunProcessingOpen | labs/14-job-queue-skip-locked/src/queue/claim.ts:68-116 | In every run, stale workers included, a job that is 'processing' has a 'claimed' row made by `locked_by` |
| JobQueue.TerminalThroughoutIff | labs/14-job-queue-skip-locked/src/queue/claim.ts:118-191 | 'completed' and 'failed' are never left in a run if and only if no finish wrote another status over one |
| JobQueue.TerminalKeptIff | labs/14-job-queue-skip-locked/src/queue/claim.ts:118-191 | The same for one step, on the rows before it |
| JobQueue.ExpiredThroughoutIff | labs/14-job-queue-skip-locked/src/db/schema.ts:79-83 | An 'expired' row is never touched again in a run if and only if no finish came for one |
| JobHistory.ClaimableIff | labs/14-job-queue-skip-locked/src/queue/claim.ts:39-191 | From the history alone, in every run, stale workers included: after a claim at time t with leaseMs a job can be claimed exactly at the times beyond t + leaseMs; after a completion never; after a failure exactly if it was claimed less often than its limit; and it names the claiming worker or nobody |
| JobHistory.LeaseExcludesOthers | labs/14-job-queue-skip-locked/src/queue/claim.ts:58-84 | After a claim at time t no other claim of the job is possible up to and including t + leaseMs, unless it was finished in between |
| JobHistory.RowTellsHistory | labs/14-job-queue-skip-locked/src/queue/claim.ts:86-191 | In every run each claim's audit row keeps its worker and time, and has the outcome and time of the last finish of it; with none, those of the first later claim that took the job over; with neither it is still 'claimed' |
| JobQueue.StaleWorkerRewritesExpired | labs/14-job-queue-skip-locked/src/db/schema.ts:79-83 | That promise fails: a stale worker's late finish overwrites its own 'expired' row |
| JobQueue.StaleWorkerLeavesTwoClaimed | labs/14-job-queue-skip-locked/src/queue/claim.ts:86-99 | The comment's one 'claimed' row per job at any instant fails: after a stale worker's late failure the next claim leaves two |
| JobQueue.StaleWorkerReopensJob | labs/14-job-queue-skip-locked/src/queue/claim.ts:154-191 | The guard is needed: from every state with a suitable pending job, a stale worker's late failure takes a completed job back to 'pending' |
| JobWorker.JobStore.SelectCandidate | labs/14-job-queue-skip-locked/src/queue/claim.ts:58-66 | Finds an oldest claimable job, and none only if no job is claimable |
| JobWorker.JobStore.ClaimJob | labs/14-job-queue-skip-locked/src/queue/claim.ts:39-116 | Claims the oldest claimable job until now + leaseMs: row, audit row, and the expiry of its open audit rows |
| JobWorker.JobStore.ExpireOpenAttempts | labs/14-job-queue-skip-locked/src/queue/claim.ts:89-99 | Expires exactly the job's 'claimed' audit rows |
| JobWorker.JobStore.CompleteJob | labs/14-job-queue-skip-locked/src/queue/claim.ts:118-139 | Completes the job and its audit row, whoever holds the lease |
| JobWorker.JobStore.FailJob | labs/14-job-queue-skip-locked/src/queue/claim.ts:154-191 | Back to 'pending', or 'failed' at the attempt limit, and reports which |
| JobWorker.RunWorkerUntilEmpty | labs/14-job-queue-skip-locked/src/queue/worker.ts:32-72 | Alone, the loop ends for every table, every outcome and every passing of time; it is a run of the queue whose claims are all this worker's with its lease; claims are completions plus failed attempts, job by job; no job is claimed more often than max(1, maxAttempts - attempts); nothing is claimable at the last claim |
| JobWorker.RoundUsesOneClaim | labs/14-job-queue-skip-locked/src/queue/worker.ts:44-69 | One round lowers the claims left of its job by at least one and touches no other job |
| Outbox.RunSafe | labs/17-outbox-workers-skip-locked/src/queue/claim-and-publish.ts:50-209 | In every run with crashes, lease expiry and stale workers: `locked_by` is set exactly while a row is 'processing'; deliveries of an event are at most its broker calls, these at most its attempts; a published event was delivered |
| Outbox.RunTerminal | labs/17-outbox-workers-skip-locked/src/queue/claim-and-publish.ts:128-152 | 'published' and 'failed' are never left |
| Outbox.FinaliseByLatestClaim | labs/17-outbox-workers-skip-locked/src/queue/claim-and-publish.ts:128-152 | With one sequential loop per worker id, a finalise changes a row only if that loop made the row's latest claim |
| Outbox.SharedWorkerIdFinalisesForOther | labs/17-outbox-workers-skip-locked/src/queue/claim-and-publish.ts:128-135 | That condition is needed: two loops under one worker id, and the first one's late finalise closes the second one's claim |
| OutboxHistory.RowTellsHistory | labs/17-outbox-workers-skip-locked/src/queue/claim-and-publish.ts:50-152 | From the history alone, in every run: after a claim at time t with leaseMs a row can be claimed exactly beyond t + leaseMs and names the claiming loop's worker; after a finalise by the named worker it names nobody and is published if the broker accepted the event, pending again if it was claimed less often than its limit, and else failed |
| OutboxHistory.LeaseExcludesOthers | labs/17-outbox-workers-skip-locked/src/queue/claim-and-publish.ts:67-91 | After a claim at time t no loop can claim the event up to and including t + leaseMs, unless the row was finalised in between |
| OutboxHistory.ConsumedIff | labs/17-outbox-workers-skip-locked/src/queue/idempotent-consumer.ts:36-55 | A delivery counts as consumed exactly if it was handed to the consumer, duplicates included |
| Outbox.EffectExactlyOnce | labs/17-outbox-workers-skip-locked/src/queue/idempotent-consumer.ts:36-55 | Each event takes effect at most once over the whole run; and exactly once, if it is published and its deliveries were consumed, if and only if the consumer did not die in mid-call on the first of them |
| Outbox.RunEffects | labs/17-outbox-workers-skip-locked/src/queue/idempotent-consumer.ts:36-55 | In every run an event's effect ran once if the event was consumed and its effect not lost, and otherwise never |
| Outbox.LostEffectStaysLost | labs/17-outbox-workers-skip-locked/src/queue/idempotent-consumer.ts:36-55 | A consumer that dies between its insert and its side effect loses the effect for every redelivery |
| OutboxPublisher.SimulatedBroker.Publish | labs/17-outbox-workers-skip-locked/src/queue/broker.ts:42-71 | Counts every call, in total and per event, and delivers unless it rejects |
| OutboxPublisher.OutboxStore.SelectCandidate | labs/17-outbox-workers-skip-locked/src/queue/claim-and-publish.ts:67-74 | Finds the oldest claimable event, ties by id, and none only if nothing is claimable |
| OutboxPublisher.OutboxStore.ClaimNextEvent | labs/17-outbox-workers-skip-locked/src/queue/claim-and-publish.ts:50-119 | Claims that event, or reports that there is none and changes nothing |
| OutboxPublisher.OutboxStore.MarkPublished | labs/17-outbox-workers-skip-locked/src/queue/claim-and-publish.ts:128-135 | Publishes the row if it is still locked by this worker, and otherwise does nothing |
| OutboxPublisher.OutboxStore.MarkPublishFailed | labs/17-outbox-workers-skip-locked/src/queue/claim-and-publish.ts:143-152 | Retries or fails the row by its attempts, under the same guard |
| OutboxPublisher.ClaimAndPublish | labs/17-outbox-workers-skip-locked/src/queue/claim-and-publish.ts:180-209 | Undisturbed, the loop body is exactly the protocol's claim, call, reply and finalise steps, or a crash after the call with `skipFinalize` |
| OutboxPublisher.Consumer.ConsumeIdempotently | labs/17-outbox-workers-skip-locked/src/queue/idempotent-consumer.ts:36-55 | Runs the effect exactly for an event not processed before |
| OutboxPublisher.Consumer.ConsumeAll | labs/17-outbox-workers-skip-locked/src/queue/idempotent-consumer.ts:36-55 | After any list of deliveries each delivered event has taken effect once and no other |
| OutboxDrain.FastDrainExactlyOnce | labs/17-outbox-workers-skip-locked/src/scenarios/parallel-publishers.ts:29-54 | However the loops interleave, if no lease lapsed before its finalise, no loop crashed and no call was rejected: no event is claimed twice, and once all have stopped every event is published and was delivered exactly once |
| OutboxDrain.FastDrainEnds | labs/17-outbox-workers-skip-locked/src/scenarios/parallel-publishers.ts:37-50 | However the loops interleave, under the same conditions every drain ends: steps taken and steps left sum up to four for each event all along, and when none are left every event is published |
| OutboxDrain.DrainWithWorkers | labs/17-outbox-workers-skip-locked/src/scenarios/parallel-publishers.ts:29-54 | The workers' loops, scheduled in any order round by round, end for every outbox and broker; the per-worker counts, the list and the total agree; with an accepting broker no event is listed twice and the deliveries are the list; nothing is claimable when the last loop stops |
| OutboxDrain.Round | labs/17-outbox-workers-skip-locked/src/queue/claim-and-publish.ts:180-209 | A round that claims an event lowers the sum of claims left; an accepted event is published |
| Inbox.RunBalanced | labs/18-inbox-pattern-and-idempotent-consumers/src/scenarios/idempotent-consumer.ts:39-78 | With the dedup insert blocking on an uncommitted key: every reachable committed state, under concurrency, redelivery and crashes, has each balance equal to the initial one plus the amounts of its `processed_messages` rows, one row per message |
| Inbox.FinalBalancesByMessages | labs/18-inbox-pattern-and-idempotent-consumers/src/scenarios/idempotent-consumer.ts:39-78 | When an id fixes its content, two runs that applied the same messages end with the same balances, whatever their order, redeliveries and crashes |
| Inbox.RacyOvercredit | labs/18-inbox-pattern-and-idempotent-consumers/src/scenarios/racy-check-then-insert-consumer.ts:38-81 | Without crashes the check-then-insert consumer ends with one extra credit per `applied-but-insert-conflicted` call, and no other |
| Inbox.RacyCreditsTwice | labs/18-inbox-pattern-and-idempotent-consumers/src/scenarios/racy-check-then-insert-consumer.ts:38-81 | From every state with room for it, two workers that both check a new message before either records it credit it twice, leave one row and report one conflict |
| Inbox.RollbackFrees | labs/18-inbox-pattern-and-idempotent-consumers/src/scenarios/idempotent-consumer.ts:39-78 | A rollback leaves the committed tables alone and makes nobody wait for its message or account |
| Inbox.InboxStore.ApplyIdempotent | labs/18-inbox-pattern-and-idempotent-consumers/src/scenarios/idempotent-consumer.ts:39-78 | One call is insert, update and commit; applied, it adds the amount to the account's balance and one row; duplicate exactly for a known id with an amount between 1 and 2147483647; an error exactly for another amount or, with a new id, for an unknown account or a balance outside 0 to 2147483647; nothing changes unless it was applied |
| Delivery.SendWithRetry | labs/19-message-delivery-semantics/src/delivery/sender.ts:90-117 | Attempts 1 to k, k the first acknowledged attempt or the limit, each with its script entry's outcome, past the end the last entry's; acknowledged exactly if the last attempt is; the naive receiver counts the attempts that arrived, the idempotent one counts 1 if any did and the id was new; other messages keep their counts |
| Delivery.AckedIffScripted | labs/19-message-delivery-semantics/src/delivery/network.ts:32-38 | Clamping never turns a failure into an acknowledgment: a send is acknowledged exactly if an acknowledging outcome stands among the script's first `maxAttempts` entries |
| Delivery.LastAttempt | labs/19-message-delivery-semantics/src/delivery/sender.ts:90-117 | No attempt before it is acknowledged, and it is acknowledged itself or is the limit |
| Delivery.AttemptLog | labs/19-message-delivery-semantics/src/delivery/sender.ts:17-26 | Attempt numbers count up from 1, each with the outcome of its script entry, or of the last entry past the end |
| Delivery.SendOnce | labs/19-message-delivery-semantics/src/delivery/sender.ts:44-50 | One attempt; a lost message leaves the receiver alone; any other outcome is counted, even if the acknowledgment is lost, except by an idempotent receiver that knows the id |
| Delivery.Receiver.NaiveProcess | labs/19-message-delivery-semantics/src/delivery/receiver.ts:12-17 | Counts every invocation |
| Delivery.Receiver.IdempotentProcess | labs/19-message-delivery-semantics/src/delivery/receiver.ts:40-66 | Counts exactly the first invocation of an id |
| SeatReservation.RunRefines | labs/12-ticket-reservation-system/src/scenarios/row-lock-reservation.ts:40-75 | Every interleaving of row-lock attempts (lock, read, write and commit apart), conditional reservations, payments, expirations and crashes leaves the table and outcomes of its atomic statements in order, where a finished row-lock attempt counts as one conditional reservation; tokens stay fresh |
| SeatReservation.RunSafe | labs/12-ticket-reservation-system/src/scenarios/expire-reservations.ts:29-41 | In every interleaving a seat's 'reserved' outcomes minus its expirations are 1 if it is RESERVED or SOLD and 0 if AVAILABLE (counted from an available start), and no token is both paid for and expired |
| SeatReservation.RunSoldIsFinal | labs/12-ticket-reservation-system/src/scenarios/complete-payment.ts:38-57 | From any reachable state on, a SOLD seat keeps its row |
| SeatHolds.PaymentTakenIff | labs/12-ticket-reservation-system/src/scenarios/complete-payment.ts:38-57 | In every interleaving a payment is taken exactly if its seat was reported reserved under this token, has not been paid for, and it comes strictly before the time the token was drawn plus holdMinutes * 60000 milliseconds, as the reservation asked |
| SeatHolds.EarlierPaymentTakenIff | labs/12-ticket-reservation-system/src/scenarios/complete-payment.ts:38-57 | The same for a token from before the run and the deadline in its row |
| SeatHolds.ExpiryIff | labs/12-ticket-reservation-system/src/scenarios/expire-reservations.ts:29-41 | In every interleaving the expiry worker reverts a reported reservation exactly if it was neither paid for nor reverted before and strictly past that time, and leaves the seat free |
| SeatHolds.ReservationTold | labs/12-ticket-reservation-system/src/scenarios/row-lock-reservation.ts:46-68 | In every interleaving the row of a reported reservation carries its token, its buyer and that time, reserved or, once paid for, sold, and was reverted only past that time |
| SeatHolds.AttemptAlone | labs/12-ticket-reservation-system/src/scenarios/row-lock-reservation.ts:40-75 | Lock, read, write and commit with nobody in between reserve an available seat for the minutes asked for; lock, read and give up report any other as unavailable |
| SeatReservation.AbortFreesRow | labs/12-ticket-reservation-system/src/scenarios/row-lock-reservation.ts:70-72 | A rollback leaves table and outcomes alone and frees the row's lock |
| SeatReservation.StepRefines | labs/12-ticket-reservation-system/src/scenarios/row-lock-reservation.ts:46-68 | Under the lock invariant each step is its atomic statement or changes nothing visible |
| SeatReservation.LockedRowStays | labs/12-ticket-reservation-system/src/scenarios/row-lock-reservation.ts:48-52 | No step but its own commit changes a row that a transaction has locked |
| Seats.SeatBalance | labs/12-ticket-reservation-system/src/scenarios/conditional-reservation.ts:39-55 | The same balance of reservations and expirations for any sequence of atomic statements on any table |
| Seats.NeverSoldAndExpired | labs/12-ticket-reservation-system/src/scenarios/complete-payment.ts:42-57 | With fresh tokens and any sequence of atomic statements, no token is both paid for and expired |
| Seats.SoldIsFinal | labs/12-ticket-reservation-system/src/scenarios/expire-reservations.ts:34-40 | No sequence of atomic statements changes a SOLD row |
| SeatTable.Table.AttemptRowLockReservation | labs/12-ticket-reservation-system/src/scenarios/row-lock-reservation.ts:40-75 | Undisturbed, it performs the conditional reservation: exactly for an available seat, held under the token for holdMinutes * 60000 milliseconds, and otherwise nothing changes |
| SeatTable.Table.AttemptConditionalReservation | labs/12-ticket-reservation-system/src/scenarios/conditional-reservation.ts:39-55 | Exactly for an available seat, held under the token for holdMinutes * 60000 milliseconds, and otherwise nothing changes |
| SeatTable.Table.CompletePayment | labs/12-ticket-reservation-system/src/scenarios/complete-payment.ts:38-57 | Sold exactly for a reserved seat with this token whose hold ends after now |
| SeatTable.Table.ExpireReservations | labs/12-ticket-reservation-system/src/scenarios/expire-reservations.ts:29-41 | Reverts every lapsed reservation and nothing else, and returns each such id once with their count |
| Fencing.TokensIncrease | labs/22-redis-leases-and-distributed-locks/src/db/schema.ts:9-25 | In every run, under any lapse, pause or crash, accepted fenced writes carry strictly increasing tokens, and the row's token is the largest accepted or the initial one |
| Fencing.InOrderIffNoneOvertaken | labs/22-redis-leases-and-distributed-locks/src/redis-lock/fencing-token.ts:45-58 | Token order is acquisition order, for every run, if and only if no INCR came after a later holder's: the source's comment promises the order without the condition |
| Fencing.IncrKeepsOrderIff | labs/22-redis-leases-and-distributed-locks/src/redis-lock/fencing-token.ts:52-57 | The same for a single INCR, and an INCR within its lease is never overtaken |
| Fencing.PromptWritesInOrder | labs/22-redis-leases-and-distributed-locks/src/redis-lock/fencing-token.ts:70-141 | If every INCR runs before its lease lapses, no earlier holder's write is accepted after a later holder's, however long workers pause |
| Fencing.LateIncrReordersWrites | labs/22-redis-leases-and-distributed-locks/src/redis-lock/fencing-token.ts:52-57 | The condition is needed: from any state in which a worker has lost its lease before its INCR, its write can be accepted on top of a later holder's |
| Fencing.LateIncrFromStart | labs/22-redis-leases-and-distributed-locks/src/redis-lock/fencing-token.ts:45-58 | Such a run from the start: accepted are the writes of holder 2 and then of holder 1 |
| Fencing.OneHolder | labs/22-redis-leases-and-distributed-locks/src/redis-lock/basic-lock.ts:16-57 | In every reachable state at most one worker holds an unexpired lease, and it loses it only by its own release or crash or by expiry |
| Fencing.UncheckedDeleteAdmitsTwo | labs/22-redis-leases-and-distributed-locks/src/redis-lock/basic-lock.ts:30-38 | A DEL that trusts an earlier GET lets a second worker in beside the holder |
| FencingHistory.AcquiresIff | labs/22-redis-leases-and-distributed-locks/src/redis-lock/basic-lock.ts:16-57 | In every run a worker that asks for the lock after an acquisition at time t with ttlMs gets it exactly if the holder has released it or t + ttlMs has come |
| FencingHistory.HolderIff | labs/22-redis-leases-and-distributed-locks/src/redis-lock/basic-lock.ts:16-19 | In every run the latest holder's lease lasts exactly until its acquisition time plus its ttlMs |
| FencingHistory.RowTellsWrites | labs/22-redis-leases-and-distributed-locks/src/redis-lock/support.ts:96-109 | In every run INCRs draw the counter's values one by one, and the row carries the token and worker of the latest write whose token was above the row's |
| FencingHistory.FlowAlone | labs/22-redis-leases-and-distributed-locks/src/redis-lock/fencing-token.ts:70-141 | Undisturbed and in time, a worker acquires the free lock, draws the next token, has its write accepted and leaves the lock free |
| FencedLock.Redis.AcquireLock | labs/22-redis-leases-and-distributed-locks/src/redis-lock/basic-lock.ts:16-19 | Sets the key exactly if it is absent or expired; a non-positive expiry is an error |
| FencedLock.Redis.ReleaseLock | labs/22-redis-leases-and-distributed-locks/src/redis-lock/basic-lock.ts:46-57 | Deletes exactly a live key that holds this owner's token |
| FencedLock.Redis.AcquireLockWithFencingToken | labs/22-redis-leases-and-distributed-locks/src/redis-lock/fencing-token.ts:45-58 | No acquisition, no token and no change; otherwise a token above every earlier value of its counter, and only that counter moves |
| FencedLock.ResourceTable.WriteResourceStateFenced | labs/22-redis-leases-and-distributed-locks/src/redis-lock/support.ts:96-109 | Updates the named row exactly if the token is strictly above the row's |
| FencedLock.WorkerFlow | labs/22-redis-leases-and-distributed-locks/src/redis-lock/fencing-token.ts:70-141 | Lock, token, work, fenced write: accepted exactly if the row exists and the token, or -1 without the lock, is above the row's; a worker without the lock has no write accepted; a refused expiry ends the flow before it changes anything |
| LeaseRefill.OverlapOnlyPastLease | labs/21-cache-aside-and-cache-stampede/src/cache/lease-based-refill.ts:77-117 | In every run of any number of processes, two database sections overlap only if one has lasted at least `leaseMs` |
| LeaseRefill.CallsBounded | labs/21-cache-aside-and-cache-stampede/src/cache/lease-based-refill.ts:77-117 | In every run each top-level call reads the database at most once, starts no attempt beyond `maxAttempts`, and gives up only after the last one without having read the database |
| LeaseRefill.ResultsSourced | labs/21-cache-aside-and-cache-stampede/src/cache/lease-based-refill.ts:77-117 | Every value cached or returned came from a database read of the run or was cached at its start |
| LeaseRefill.AgreesWithDatabase | labs/21-cache-aside-and-cache-stampede/src/cache/lease-based-refill.ts:77-117 | With an unchanging database every returned value is the database's |
| LeaseRefillHistory.ReadsLatestWrite | labs/21-cache-aside-and-cache-stampede/src/cache/lease-based-refill.ts:65-75 | In every run a read of the cache, the first one or a poll's, returns exactly what the latest write put there if less than `ttlMs` has passed since, and otherwise finds nothing; before any write, the entry from the start |
| LeaseRefillHistory.AcquiresIff | labs/21-cache-aside-and-cache-stampede/src/cache/lease-based-refill.ts:86-88 | In every run who asks for the lease after an acquisition at time t gets it exactly if the holder has given it back or t + leaseMs has come |
| LeaseRefillHistory.GivesUpLate | labs/21-cache-aside-and-cache-stampede/src/cache/lease-based-refill.ts:100-117 | In every run a call gives up only after `maxAttempts` attempts and only once leaseMs + 250 milliseconds have passed for each |
| LeaseRefillHistory.OverlapOnlyLate | labs/21-cache-aside-and-cache-stampede/src/cache/lease-based-refill.ts:77-117 | Two calls are between their lease and their cache write at once only if one of them asked for its lease at least `leaseMs` ago |
| LeaseRefillHistory.EndsAsDecided | labs/21-cache-aside-and-cache-stampede/src/cache/lease-based-refill.ts:77-117 | In every run a call that did not crash ends with what its last await decided (a hit, the product read and written, the database's error, the last deadline) or with a Redis error; one that read the database has given its lease back before, or failed to |
| LeaseRefillHistory.RefillAlone | labs/21-cache-aside-and-cache-stampede/src/cache/lease-based-refill.ts:88-98 | Undisturbed, a call that finds neither the cache nor the lease taken reads the database once, caches the product for `ttlMs`, gives the lease back and returns it |
| LeaseRefillCache.PollForCacheValue | labs/21-cache-aside-and-cache-stampede/src/cache/lease-based-refill.ts:65-75 | Ends, with what the cache held when the last GET was answered, even past the deadline, or with a Redis error for an unanswered GET, or after the whole wait; every GET before found nothing, and they are at least the poll interval apart |
| LeaseRefillCache.GetProduct | labs/21-cache-aside-and-cache-stampede/src/cache/lease-based-refill.ts:77-117 | Whatever other processes write at each await and whichever Redis command fails, over all attempts and polls: a product returned without a database read is what the cache held when the last GET was answered; one returned after the read was then written with `ttlMs`, and the lease given back after that; at most one read; a Redis error only for an unanswered command or an expiry Redis refuses; giving up takes at least (leaseMs + 250) milliseconds per attempt and no database read |
| LeaseRefillCache.RefillAndRelease | labs/21-cache-aside-and-cache-stampede/src/cache/lease-based-refill.ts:90-97 | The holder's `try` and `finally`: write, then give the lease back; after a database error give it back without a write |
| LeaseRefillCache.Store.ReleaseIfOwner | labs/21-cache-aside-and-cache-stampede/src/cache/lease-based-refill.ts:28-34 | Deletes the lease only if it is live and the caller's |
| Coalescing.OneCallPerKey | labs/21-cache-aside-and-cache-stampede/src/cache/request-coalescing.ts:42-67 | In every event-loop interleaving no two database calls for one key are in flight, and every caller that returned got what its shared promise settled with |
| Coalescing.BurstSharesOneFetch | labs/21-cache-aside-and-cache-stampede/src/cache/request-coalescing.ts:42-67 | Any number of calls in a row for a key not in flight start one fetch, created by the first, and all wait for it |
| Coalescing.AgreesWithDatabase | labs/21-cache-aside-and-cache-stampede/src/cache/request-coalescing.ts:42-67 | With an unchanging database every value returned is the slow read's for its key |
| CoalescingHistory.CallersGetWhatWasFetched | labs/21-cache-aside-and-cache-stampede/src/cache/request-coalescing.ts:48-66 | In every run a caller that returned got the product its fetch found in the cache, or after a miss the one the database gave that fetch, or an error exactly if one of the fetch's awaits failed |
| CoalescingCache.Cache.GetProduct | labs/21-cache-aside-and-cache-stampede/src/cache/request-coalescing.ts:42-61 | The synchronous part: joins the promise in flight or registers one, and keeps the map exact |
| CoalescingCache.Cache.CallerResumes | labs/21-cache-aside-and-cache-stampede/src/cache/request-coalescing.ts:62-66 | A caller gets its promise's result; the creator's `finally` removes its own promise and no other |
| CoalescingCache.Cache.CacheAnswers | labs/21-cache-aside-and-cache-stampede/src/cache/request-coalescing.ts:50-54 | A hit settles the promise, a miss starts the database call |
| CoalescingCache.Cache.CacheWritten | labs/21-cache-aside-and-cache-stampede/src/cache/request-coalescing.ts:56-58 | The promise settles with the product just cached |
| StaleWhileRevalidate.RunSafe | labs/21-cache-aside-and-cache-stampede/src/cache/stale-while-revalidate.ts:62-97 | In every interleaving `refreshInFlight` holds exactly the keys with a running refresh, no key has two, and every value served from the cache was stored less than `staleMs` before it was read |
| StaleWhileRevalidate.StaleServeRefreshes | labs/21-cache-aside-and-cache-stampede/src/cache/stale-while-revalidate.ts:77-97 | In every reachable state a caller past the fresh window is served the cached value at once with exactly one refresh of its key running; within the window nothing is started |
| RevalidationHistory.DecidesByReadTime | labs/21-cache-aside-and-cache-stampede/src/cache/stale-while-revalidate.ts:57-97 | In every run a caller that found a product which the database returned at time t is served it; deciding before t + freshMs starts nothing, deciding from then on leaves exactly one refresh of the key running, started with its database read if none was; and the product had been stored for less than `staleMs` when it was found |
| RevalidationHistory.LoadFoundIff | labs/21-cache-aside-and-cache-stampede/src/cache/stale-while-revalidate.ts:57-60 | In every run a caller finds the key's latest load exactly until `staleMs` after Redis stored it, and otherwise reads the database |
| RevalidationHistory.ColdCallerServed | labs/21-cache-aside-and-cache-stampede/src/cache/stale-while-revalidate.ts:91-97 | In every run a caller not served from the cache got what the database last returned to it |
| RevalidationHistory.ThrowsIffRejected | labs/21-cache-aside-and-cache-stampede/src/cache/stale-while-revalidate.ts:62-97 | In every run a caller's call throws exactly if one of its own awaits was rejected, never for a refresh |
| StaleWhileRevalidate.FailedRefreshIsOver | labs/21-cache-aside-and-cache-stampede/src/cache/stale-while-revalidate.ts:67-74 | A refresh that fails leaves Redis alone, and after its `finally` its key may be refreshed again |
| StaleWhileRevalidate.AgreesWithDatabase | labs/21-cache-aside-and-cache-stampede/src/cache/stale-while-revalidate.ts:77-97 | With an unchanging database every value served, fresh or stale, is the slow read's |
| RevalidatingCache.Cache.TriggerBackgroundRefresh | labs/21-cache-aside-and-cache-stampede/src/cache/stale-while-revalidate.ts:62-75 | Afterwards exactly one refresh of the key is running |
| RevalidatingCache.Cache.Decide | labs/21-cache-aside-and-cache-stampede/src/cache/stale-while-revalidate.ts:81-88 | Serves the cached product, and starts nothing while it is fresh |
| RevalidatingCache.Cache.RefreshStored | labs/21-cache-aside-and-cache-stampede/src/cache/stale-while-revalidate.ts:57-60 | The refreshed entry replaces the old one |
| RevalidatingCache.Cache.RefreshClears | labs/21-cache-aside-and-cache-stampede/src/cache/stale-while-revalidate.ts:72-74 | The key leaves `refreshInFlight` only with its refresh |
| RevalidatingCache.Cache.IsRefreshing | labs/21-cache-aside-and-cache-stampede/src/cache/stale-while-revalidate.ts:100-102 | True exactly while a refresh of the key has not run its `finally` |
| RevenueReport.RewritePreservesReport | labs/03-sql-querying-and-query-plans/src/scenarios/corrected-report.ts:34-64 | For all tables with unique customer and order ids the pre-aggregated report is the count-distinct report, row for row, and has the naive report's customers and revenues |
| RevenueReport.CountsRightIff | labs/03-sql-querying-and-query-plans/src/scenarios/naive-report.ts:30-63 | The naive count is the number of lines, and equals the corrected count if and only if no order of the customer has a second line; the corrected count is the true number of orders if and only if every order has a line |
| RevenueReport.OrderWithoutLinesIsMissed | labs/03-sql-querying-and-query-plans/src/scenarios/corrected-report.ts:56-58 | The corrected count misses orders: one more order without lines for any customer of any report, and the count is below the true one |
| RevenueReport.GroupOfReports | labs/03-sql-querying-and-query-plans/src/scenarios/aggregations.ts:24-36 | Each report's row for a customer in terms of the customer's own orders and lines, without the joins |
| RevenueReport.TotalsPerOrder | labs/03-sql-querying-and-query-plans/src/scenarios/corrected-report.ts:35-43 | The pre-aggregation has one row per order with lines, and its sum is theirs |
| RevenueReport.JoinGroup | labs/03-sql-querying-and-query-plans/src/scenarios/naive-report.ts:31-43 | A customer's group of the join has the customer's own items, sum and distinct orders; there is no other group |
| UniqueEmail.UsedEmails.ToUniqueEmail | packages/data-generators/src/unique-email.ts:10-29 | Ends for every finite set, with an address not used before, now used: the base, or the base with the least free suffix from 2 put in before its first '@' |
| UniqueEmail.GenerateEmails | packages/data-generators/src/payroll.ts:84-108 | For any base addresses the generated ones are pairwise distinct, and a base that no earlier result took is kept |
| UniqueEmail.CandidatesDistinct | packages/data-generators/src/unique-email.ts:16-25 | Different suffixes give different candidates |
| UniqueEmail.CandidatesFit | packages/data-generators/src/unique-email.ts:20-25 | As many candidates as are all used fit into the used set |
| UniqueEmail.CandidateSplits | packages/data-generators/src/unique-email.ts:16-18 | A candidate is the base with the suffix put in before its first '@', or before its last character if it has none |

## Left out

- Labs 01, 02, 04 to 11, 13, 15 and 16: checks on one row, two-insert transactions, planner behaviour, or outcomes decided inside PostgreSQL.
- Sagas: `public_id`, timestamps and the part of the JSON payloads that no property speaks of; columns of the log beyond order, mechanism, name, direction, outcome and that payload.
- Sagas: inputs that are not integers where the column is an integer.
- Sagas: `fetchOrderById` failing for a missing order, and foreign-key errors of steps called on orders that do not exist; orders are never deleted.
- Sagas: `runStep` takes the step's work as a closure; here each step is a method that ends with `EndStep`.
- Lost connections during COMMIT or ROLLBACK: a statement runs or its worker stops before it.
- Sagas: interleavings inside one step's transaction; the item's row stays locked from its first statement to the commit.
- JobQueue.GuardedRunExclusive: every transaction takes one instant, which is also its `now()`. PostgreSQL's `now()` is the time of BEGIN, so a claim that began before another worker's finish and selected the job after it would record a `claimed_at` before that `released_at`; such recorded times are not modelled. The outbox's leases make the same assumption.
- Job queue: `last_error` and `updated_at`; gaps in audit-row ids; in runs a claim may pass over any older candidate, which is what SKIP LOCKED allows, and only `JobWorker` takes the oldest.
- Outbox: real sleeps of the slow broker, and retention of `processed_events`.
- OutboxDrain.DrainWithWorkers: schedules the workers round by round; every finer interleaving is covered by `OutboxDrain.FastDrainEnds` and `OutboxDrain.FastDrainExactlyOnce`, and with lapsing leases by `Outbox.RunSafe`.
- Inbox: the naive consumer, whose over-credit needs no proof.
- Delivery: back-off and jitter between attempts.
- Seats: the naive reservation, `reserveSeat` of the payment scenario, and a `FOR UPDATE` over several rows.
- Seats: an UPDATE reads the clock when it takes effect, not when its transaction began; the caller's and the database's clocks are one.
- Fencing: lease renewal and the lease-expiry demonstration; Redis losing or evicting keys.
- FencedLock.WorkerFlow: runs undisturbed; interleaved workers are the runs of `Fencing`.
- LeaseRefill: a Redis command whose reply is lost after it ran; a command that fails has not run.
- LeaseRefill: one product key, since keys do not interact; JSON encoding of products.
- Coalescing: a second process, whose own map would let it call the database as well, as the source says.
- CoalescingCache and RevalidatingCache: turns that only hand a reply on (a database answer, a rejection, a first GET) have no method of their own; they are turns of `Coalescing` and `StaleWhileRevalidate`.
- StaleWhileRevalidate: logging of a failed refresh.
- RevenueReport: ORDER BY and LIMIT, and the second aggregation by category; `bigint` to string conversions.
- UniqueEmail.GenerateEmails: takes the base addresses of all companies as one list, in the order of the nested loops; random names and the other columns are not modelled.
