# Verified model of the load-test platform

The platform splits a load test ("run") into shards, hands each shard to a worker
through a Redis consumer group, and lets the last finishing shard aggregate the run
in PostgreSQL. This project models the three parts that make this work, and their
composition:

1. **Store** (`Database`, `Store`). The tables `test_runs` and `test_run_shards` under READ
   COMMITTED. Every client call advances one SQL statement at a time; a statement sees the
   committed rows plus its own transaction's writes, takes row locks, and waits for locks.
   `Database.State` holds the tables, the lock tables and the calls in flight; `Database.Apply`
   is one action of any client: the capacity check of `CreateTestRun`
   (`backend/internal/handlers/test_runs.go:60-72`), `CreateWithShards`, a new call, the next
   statement of a call, or its abort (rollback, lost connection). `startShard` is two
   autocommitted statements; `finishShard` is update, lock run row, count, sum, merge
   histograms, read status, write run, commit.
   `Store.TestRunStore` is the same store as an object with mutable tables.
2. **Broker and workers** (`Broker`, `Dispatch`, `Worker`). Undelivered messages, the pending list
   (owner, idle ticks, delivery count), workers that wait, execute, report, ack, sweep the
   pending list, dead-letter and crash at any point, and time as ticks. A backend call is a call of
   the store whose request or answer may be lost. `Dispatch.System` composes the
   two: every worker call is a call in flight in the store, next to those of any other client.
3. **Measurements** (`Histogram`, `OrderStatistics`, `Stats`, `Runner`, `Aggregation`). Requests are
   recorded into one tally per virtual user, merged per shard, and merged again per run.

`Barrier` holds the store's inductive invariant, `BarrierSteps`, `BarrierCommit` and `Safety` its
preservation by every statement, for any number of runs, shards and clients. `Theorems`,
`Protocol`, `Assignments`, `Conservation`, `Deadlock`, `Completion` and `EndToEnd` say what follows for every reachable state
and every later one. `Effects` and `WorkerSteps` state, without the model's own guards and row updates,
what each statement of a call and each step of a worker must do. `Calls` and `Links` relate calls and workers, `Lease`, `NoLostJob` and
`Retries` analyse the broker protocol, and `Conditions` names the four assumptions
their theorems may make about a behaviour: workers keep their deadlines (`timely`), a dead-letter
is acked only after `FailShard` succeeded (`confirmed`), no message is reclaimed before its
first start is resolved (`patient`), and a claim acts on the delivery count as it is rather than as
an earlier scan saw it (`current`). `Witnesses`, `Scenarios` and `BrokerWitnesses` build concrete
behaviours; `Exactness` combines both directions into if-and-only-if statements.

## Findings

- **A run can hang.** The comment at `backend/internal/store/test_run_store.go:611-613` says that
  failing the last shard marks the run terminal. The guard at `:502` writes only a run that is
  `running` or `cancelling`, while `FailShard` also accepts queued shards (`:618`). If every
  shard is dead-lettered before any start has reached the run row, the barrier fires on a `queued`
  run and writes nothing; a slow start can then move it to `running`, where it stays
  (`Witnesses.HungRunExists`). `Theorems.HungExactly` shows that this is the only way a run can
  hang, and `Links.HungOnlyByDeadLetter` that only dead-lettering can cause it.
- **The reclaim threshold needs more than "the heartbeat interval plus margin"**
  (`worker/cmd/worker/main.go:38-39`): the heartbeat starts after the claim has been answered and stops
  before the report is sent, so the threshold must exceed start latency, heartbeat interval and
  completion latency together. `Exactness.LeaseExactly` shows that this bound is exact.
- **A job can be lost** when a dead-letter is acked although `FailShard` failed (`:254-261`), or when a
  message is reclaimed while its first `StartShard` is still unanswered: the late start is refused
  with 409 and its worker acks the message another worker depends on (`:292-296`).
  `Exactness.NoJobLostExactly` shows that these are the only ways.
- **A message can be handled more than `maxDeliveries + 1` times** when another consumer claims it between
  a worker's scan and its claim (`:205`). `Exactness.DeliveriesBoundedExactly` shows when it cannot, and
  `Worker.SweepIndependent` that a worker's own sweep never makes its later entries stale
  by itself.

## Model

| member | source | states |
|---|---|---|
| Theorems.BarrierCorrect | backend/internal/store/test_run_store.go:543-581 | in every reachable state, a run not finished through a run-level method and whose barrier did not fire while it was queued is terminal iff all its shards are; the barrier then fired exactly once and the row is the aggregate of the shard rows |
| Theorems.HungExactly | backend/internal/store/test_run_store.go:496-507 | a run has all shards terminal and is not terminal itself iff its barrier fired while it was queued |
| Theorems.HungForever | backend/internal/store/test_run_store.go:422-424 | no start, take-over or cancellation ever frees a hung run |
| Theorems.AggregateStaysExact | backend/internal/store/test_run_store.go:446-509 | a run finished by the barrier never changes again and equals the sum over its shard rows in every later state |
| Theorems.ShardFinal | backend/internal/store/test_run_store.go:585-625 | a terminal shard row and the call that finished it never change |
| Theorems.OneAcceptedReport | backend/internal/store/test_run_store.go:585-625 | of all reports and failures sent for a shard one is accepted, and the row shows what it said in every later state |
| Theorems.CancellationFinal | backend/internal/store/test_run_store.go:347-372 | from cancelling no sequence of store calls reaches completed or failed; a terminal run is then cancelled, with the sum of its shards' partial results |
| Theorems.CancelledMeansBarrier | backend/internal/store/test_run_store.go:477-494 | only the barrier writes cancelled, having read cancelling |
| Theorems.BarrierVerdict | backend/internal/store/test_run_store.go:485-494 | a barrier-finished run is cancelled iff it was cancelling, else completed iff no shard failed, and otherwise failed with the number of its shard rows that are failed |
| Theorems.MonotoneLifecycle | backend/internal/store/test_run_store.go:201-372 | over all methods, run-level ones included, status ranks never decrease, terminal rows are immutable and completed_at is set exactly in terminal rows |
| Safety.StepInv | backend/internal/store/test_run_store.go:393-629 | every statement of every call, from any state satisfying the invariant, preserves it and moves rows only forward |
| Barrier.InitInv | backend/internal/store/test_run_store.go:43-45 | the empty store satisfies the invariant |
| Theorems.AnswersHold | backend/internal/store/test_run_store.go:378-441 | what an answer says of a shard or run (assigned, not queued, already done, accepted, cancelling) holds in every later state |
| Assignments.OneFirstAssignment | backend/internal/store/test_run_store.go:430-434 | however often a shard is delivered, at most one StartShard call is ever assigned it |
| EndToEnd.RunShowsOneTally | backend/internal/store/test_run_store.go:446-538 | in any interleaving, a barrier-finished run shows, now and later, the number of requests reported for its shards, their successes and failures, the mean, least and greatest latency, and as p50, p95 and p99 the bounds of the samples at ranks ceil(50n/100), ceil(95n/100) and ceil(99n/100) |
| Effects.FinishStatement | backend/internal/store/test_run_store.go:550-556 | in any interleaving, on an unlocked row a report opens its transaction iff the shard is running, a dead-letter also if it is queued, with the finished row it will commit; which other answer each remaining case gets |
| Effects.StartStatement | backend/internal/store/test_run_store.go:401-413 | in any interleaving, on an unlocked row a start takes a queued shard and a take-over a running one too, stamping started_at; which other answer each remaining case gets |
| Effects.MarkStatement | backend/internal/store/test_run_store.go:421-426 | the second statement turns a queued run running, stamps started_at, and leaves any other run alone |
| Effects.RunStatement | backend/internal/store/test_run_store.go:201-372 | what ClaimNext, StartByID, TakeOver, Fail, Complete and CancelRun write into which column, and which answer each case gets |
| Effects.AbortStatement | backend/internal/store/test_run_store.go:548-548 | any call may be cut off; nothing uncommitted remains and its locks are released |
| Completion.ReportAccepted | backend/internal/store/test_run_store.go:543-581 | from every reachable state in which shard and run row are unlocked, a report of a running shard, or a dead-letter of an unfinished one, can be accepted, and the row is then what it said |
| Completion.FinishesAlone | backend/internal/store/test_run_store.go:557-580 | a finishing transaction that is not blocked needs nobody else to reach its commit |
| Lifecycle.OutstandingCardinality | backend/internal/store/test_run_store.go:568-573 | the barrier's count is the number of the run's shards that are not terminal |
| Lifecycle.ActiveCardinality | backend/internal/store/test_run_store.go:629-639 | the capacity check counts exactly the runs that are not terminal |
| Protocol.HungByDeadLetter | backend/internal/store/test_run_store.go:611-625 | if shards are reported only under an assignment, a hung run was fired, and all its shards were finished, by FailShard |
| Protocol.AssignedHandedOut | backend/internal/store/test_run_store.go:420-426 | an assignment that is out implies that shard and run have left queued |
| Witnesses.HungRunExists | backend/internal/store/test_run_store.go:496-507 | a reachable run whose only shard is failed and which is running with no call left in flight |
| Witnesses.WithoutRunLockHangs | backend/internal/store/test_run_store.go:557-566 | without the row lock two finishers each count the other as outstanding and the run hangs |
| Deadlock.NoDeadlock | backend/internal/store/test_run_store.go:543-581 | a call that cannot execute waits for one that can, or for one that waits for one that can |
| Deadlock.SomeCallRuns | backend/internal/store/test_run_store.go:401-426 | while calls are in flight, some call can execute a statement |
| Conservation.VirtualUsersConserved | backend/internal/store/test_run_store.go:120-137 | in every reachable state a run's shards are an even split of its virtual users and shard_count is their number |
| Conservation.AdmissionBound | backend/internal/handlers/test_runs.go:60-76 | if at no point more than k creators are between check and insert, the runs that are not terminal plus admitted creators never exceed cap + k - 1 |
| Handlers.SplitVUs | backend/internal/handlers/test_runs.go:96-106 | the parts are positive, sum to the total, differ by at most one, larger ones first |
| Handlers.EvenSplitUnique | backend/internal/handlers/test_runs.go:94-106 | there is only one such split |
| Handlers.PlanShards | backend/internal/handlers/test_runs.go:122-152 | exactly which sizes are accepted, which problem is named first otherwise, and that an accepted request is split evenly |
| Store.TestRunStore.constructor | backend/internal/store/test_run_store.go:43-45 | a new store is the state machine's initial state |
| Store.TestRunStore.UpdateShard | backend/internal/store/test_run_store.go:401-417 | the guarded UPDATE of a shard call is the state machine's step, and has the effect and answers a start, take-over, report or dead-letter is promised |
| Store.TestRunStore.MarkRun | backend/internal/store/test_run_store.go:421-426 | the second UPDATE of startShard: a queued run becomes running, stamped with the time |
| Store.TestRunStore.UpdateRun | backend/internal/store/test_run_store.go:201-372 | for each of ClaimNext, StartByID, TakeOver, Fail, Complete and CancelRun: when it applies, what it writes, how it answers |
| Store.TestRunStore.NextStatement | backend/internal/store/test_run_store.go:557-577 | what each later statement of a finishing transaction reads and locks |
| Store.TestRunStore.AggregateRun | backend/internal/store/test_run_store.go:446-509 | under the run's lock, the row to be written is the aggregate of the visible shard rows if the run is running or cancelling, and nothing otherwise |
| Store.TestRunStore.CheckBarrier | backend/internal/store/test_run_store.go:557-579 | the run is aggregated iff no visible shard of it is outstanding |
| Store.TestRunStore.CommitTx | backend/internal/store/test_run_store.go:580-580 | commit publishes the shard's and the run's row, answers the caller and releases both locks |
| Store.TestRunStore.FinishShard | backend/internal/store/test_run_store.go:543-581 | uninterrupted, when CompleteShard and FailShard are accepted and which answer they get otherwise, the finished row's status, numbers and error, and the run's row if that was its last shard |
| Store.TestRunStore.ClaimShard | backend/internal/store/test_run_store.go:393-441 | uninterrupted, when StartShard and TakeOverShard are granted and which answer they get otherwise, and the rows they leave |
| Store.TestRunStore.Admit | backend/internal/handlers/test_runs.go:60-72 | a creator is admitted iff there is no cap or fewer runs than the cap are not terminal |
| Store.TestRunStore.CreateWithShards | backend/internal/store/test_run_store.go:98-143 | run and shard rows appear together, queued and without results, and the returned ids name the rows in order |
| Store.TestRunStore.Step | backend/internal/store/test_run_store.go:98-639 | one action of any client on the object is the state machine's action |
| Store.Perform | backend/internal/store/test_run_store.go:98-639 | any interleaving of clients on the object is a run of the state machine and keeps its invariant |
| Aggregation.RunPercentiles | backend/internal/store/test_run_store.go:514-538 | whatever samples the shards' histograms have counted, p50, p95 and p99 are the bounds of the samples at ranks ceil(50n/100), ceil(95n/100) and ceil(99n/100) |
| Aggregation.TotalsDescribed | backend/internal/store/test_run_store.go:451-461 | for any reports, the sums add up the columns with NULL as nothing, and MIN and MAX range over rows with samples only |
| Aggregation.ScanOrderIrrelevant | backend/internal/store/test_run_store.go:518-519 | without ORDER BY, any scan order gives the same result columns |
| Aggregation.TwoLevelMerge | backend/internal/store/test_run_store.go:446-509 | aggregating reported shards gives the columns of a single tally over all their requests, in any order |
| Aggregation.HierarchicalMerge | worker/internal/runner/stats.go:49-93 | the same from the per-virtual-user requests of every shard |
| Aggregation.RunResultPlausible | backend/internal/store/test_run_store.go:464-467 | at run level successes and failures add up, min <= avg <= max and p50 <= p95 <= p99 |
| Stats.VuStats.Record | worker/internal/runner/stats.go:26-46 | recording a request extends the tally by that request |
| Stats.MergeStats | worker/internal/runner/stats.go:49-93 | the result of absorbing all tallies |
| Stats.MergeRefinesFold | worker/internal/runner/stats.go:49-93 | merging per-user tallies equals one tally over all requests |
| Stats.FoldPermuted | worker/internal/runner/stats.go:26-46 | the order of requests is irrelevant |
| Stats.FoldDescribes | worker/internal/runner/stats.go:6-46 | totals, successes, sample count, sum, extremes and histogram are those of the list of requests |
| Stats.ResultReflects | worker/internal/runner/stats.go:77-92 | a result's numbers said of the requests: counts, mean, extremes and the three nearest-rank percentiles |
| Stats.DescriptionUnique | worker/internal/runner/stats.go:6-18 | that description determines the tally |
| Stats.FoldConsistent | worker/internal/runner/stats.go:26-46 | for the call shapes of doRequest, success <= samples <= total, buckets sum to the samples, extremes bound the mean |
| Stats.ConsistentIsPlausible | worker/internal/runner/stats.go:77-92 | so the reported result adds up and its percentiles are ordered |
| Runner.Run | worker/internal/runner/runner.go:61-94 | an error exactly for a bad config, naming it; otherwise, for every interleaving, the numbers of all requests |
| Runner.SlotIsOwnFold | worker/internal/runner/runner.go:76-90 | a slot depends only on its own virtual user's requests |
| Runner.InterleavingEqualsSequential | worker/internal/runner/runner.go:76-93 | any interleaving equals running the users one after another |
| Runner.ScheduleIrrelevant | worker/internal/runner/runner.go:82-91 | two interleavings of the same users give the same slots |
| Histogram.BucketIndex | worker/internal/runner/histogram.go:18-25 | the first bucket whose bound covers the sample, else the overflow bucket |
| Histogram.Percentile | worker/internal/runner/histogram.go:30-53 | the boundary of the bucket in which the cumulative count first reaches the nearest rank |
| Histogram.PercentileOfIsPercentile | backend/internal/store/histogram.go:28-48 | for any counts: 0 if they sum to 0, else the bound of the first bucket at which the running count reaches ceil(p*total), 5000 for the overflow bucket |
| Histogram.PercentileMonotone | backend/internal/store/histogram.go:28-48 | percentiles grow with p |
| Histogram.PercentilesOrdered | backend/internal/store/test_run_store.go:536-537 | p50 <= p95 <= p99 |
| Histogram.MergeBuckets | backend/internal/store/histogram.go:15-23 | column sums over all histograms; short ones contribute what they have |
| Histogram.MergeOrderIrrelevant | backend/internal/store/histogram.go:15-23 | the order of the shards is irrelevant |
| Histogram.MergeGroupingIrrelevant | backend/internal/store/histogram.go:12-14 | merging groups first gives the same histogram |
| Histogram.MergeConservesCount | backend/internal/store/histogram.go:12-23 | the merged count is the sum of the counts, for arrays of at most 13 buckets |
| OrderStatistics.PercentileNamesOrderStatistic | worker/internal/runner/histogram.go:27-53 | the percentile of a sample list's histogram stands for its ceil(p*n)-th smallest sample: the least boundary not below it, less than 2.5 times it if above 1, and 5000 beyond the last boundary |
| OrderStatistics.PercentileOfNothing | worker/internal/runner/histogram.go:35-37 | 0 without samples |
| Broker.ConsumerGroup.XReadGroup | worker/cmd/worker/main.go:103-110 | hands out an undelivered message if there is one |
| Broker.ConsumerGroup.XClaim | worker/cmd/worker/main.go:211-217 | claims exactly an entry idle for the threshold, raising its counter |
| Broker.ConsumerGroup.XClaimJustID | worker/cmd/worker/main.go:141-147 | resets the idle time, keeps the counter, never brings an acked message back |
| Worker.ExecuteShard | worker/cmd/worker/main.go:338-370 | a shard that cannot start is reported failed without numbers, one that ran completed with the tally of its requests |
| Worker.Heartbeat | worker/cmd/worker/main.go:133-153 | however many heartbeats get through, only owner and idle time change |
| Worker.HandleMessage | worker/cmd/worker/main.go:268-325 | which claim is made, when work is reported, and that the message is gone exactly if an ack arrives after a refusal or an accepted report, and otherwise still pending with its count |
| Worker.DeadLetter | worker/cmd/worker/main.go:234-262 | FailShard is sent for the shard and the message is acked whatever it answered |
| Worker.ReclaimStuck | worker/cmd/worker/main.go:188-229 | for each line of a distinct scan, the calls made and the entry left: past the limit FailShard and gone, else taken over with one more delivery and gone if settled, else untouched |
| Worker.SweepIndependent | worker/cmd/worker/main.go:204-228 | in an uninterrupted sweep each entry is treated as if it were the only one |
| Worker.SweepBounds | worker/cmd/worker/main.go:204-228 | such a sweep takes no counter past maxDeliveries + 1 and removes only messages past their limit, refused or completed |
| WorkerSteps.DeliverStep | worker/cmd/worker/main.go:103-123 | a first delivery is pending with count one and its worker asks to start the shard |
| WorkerSteps.ReclaimStep | worker/cmd/worker/main.go:204-227 | a scanned message can be taken over iff it is within its limit and still idle for the threshold; it then has one more delivery and its worker asks to take the shard over |
| WorkerSteps.DeadLetterStep | worker/cmd/worker/main.go:204-208 | a scanned message is dead-lettered iff its count is past the limit, and FailShard is sent |
| WorkerSteps.ClaimHeard | worker/cmd/worker/main.go:287-297 | an assignment is executed; not queued, already done and not found are acked; any error leaves the message pending |
| WorkerSteps.ReportHeard | worker/cmd/worker/main.go:317-324 | a report is acked iff it was accepted |
| WorkerSteps.FailureHeard | worker/cmd/worker/main.go:253-261 | a dead-letter is acked whatever FailShard answered |
| WorkerSteps.AnswerLost | worker/cmd/worker/main.go:287-291 | a lost answer leaves the message pending, except that a dead-letter is acked all the same |
| WorkerSteps.BeatStep | worker/cmd/worker/main.go:141-147 | a heartbeat renews owner and idle time and nothing else |
| WorkerSteps.AckStep | worker/cmd/worker/main.go:327-331 | an ack removes the message unless it is lost |
| Refinement.HandlingIsBehaviour | worker/cmd/worker/main.go:268-325 | every handling is a behaviour of the composed system, ending in the pending list HandleMessage leaves |
| Links.SystemStep | worker/cmd/worker/main.go:93-126 | every event of the composed system keeps workers and store in agreement: workers await calls they made and execute only what was assigned, and nobody has started an undelivered shard |
| Links.HungOnlyByDeadLetter | worker/cmd/worker/main.go:234-262 | in every state of the composed system a hung run was fired, and all its shards were finished, by dead-lettering |
| NoLostJob.NoJobLost | worker/cmd/worker/main.go:188-325 | with confirmed dead-letters and patient reclaims, a published unfinished shard has its message undelivered or pending, whatever crashes and losses happen |
| NoLostJob.RefusedMeansDone | worker/internal/client/client.go:242-253 | if the only start of a shard was refused as not queued, the shard is finished |
| Exactness.NoJobLostExactly | worker/cmd/worker/main.go:188-325 | no job is ever lost iff dead-letters are confirmed and starts cannot be overtaken: by assumption, because no redelivery is allowed, or because starts are answered in less than the reclaim threshold |
| Lease.LeaseSafety | worker/cmd/worker/main.go:309-324 | if start, heartbeat and completion latency together stay below the threshold, no message a live worker handles is reclaimed and at most one live worker handles a message |
| Exactness.LeaseExactly | worker/cmd/worker/main.go:34-50 | that holds in every reachable state iff deadlines are kept and the three latencies together are below the threshold |
| Retries.MeasureDrops | worker/cmd/worker/main.go:204-228 | (remaining deliveries, steps in hand) drops lexicographically on every delivery and handling step, crashes and losses included; heartbeats and ticks leave the deliveries alone and nothing else raises the measure |
| Retries.DeliveriesBounded | worker/cmd/worker/main.go:42-44 | a message is handled at most maxDeliveries + 1 times, and all its deliveries and handling steps number at most five times that |
| Exactness.DeliveriesBoundedExactly | worker/cmd/worker/main.go:204-217 | the bound on handlings holds in every reachable state iff claims act on current counts or no redelivery is allowed |
| BrokerWitnesses.BlindDeadLetterLoses | worker/cmd/worker/main.go:254-261 | for every configuration, an unconfirmed dead-letter can lose a job |
| BrokerWitnesses.ImpatientReclaimLoses | worker/cmd/worker/main.go:292-296 | a reclaim before the first start is resolved can leave a shard running for ever with no worker and no message |
| BrokerWitnesses.StaleClaimOverruns | worker/cmd/worker/main.go:204-228 | a claim from a stale scan hands a message out maxDeliveries + 2 times |
| BrokerWitnesses.LeaseRunsOut | worker/cmd/worker/main.go:309-317 | without deadlines or without slack, a message comes up for reclaim in its live handler's hands |

## Left out

- HTTP, JSON, SQL text, pgx, the Redis client, Prometheus, logging, configuration parsing: only the effect of a call is modelled; a call whose request or answer is lost is one that is aborted, never executed, or never heard.
- Floating point and machine integers: latencies and averages are `real`, counts are unbounded `int`, and the percentile's p is the exact rational 50/100, 95/100 or 99/100. Float addition is not associative, so the merge equalities hold up to rounding in the original.
- Ids are positions in the tables, and a message is identified with its shard id; a malformed or unknown shard id in a message is not modelled.
- The second look at a row after an UPDATE that matched nothing (`shardMiss`, `GetByID`) is part of the same step; rows are never deleted, so it can only tell a missing row from a wrong state.
- `Create` without shards, `GetByID`, `List` and `scanRow`: unused by the handlers modelled here, or plain reads.
- The publish gap (a shard row whose message was never published) and the group's start position: every message is published at most once, after its shard row is committed.
- `XPENDING` returns any list of stuck entries; its limit of 20 and its order are not used. The copy in the dead-letter stream is not modelled.
- `watchCancel`: cancellation only shortens a shard's list of requests, and the theorems hold for any list.
- A heartbeat still on its way when the report has been answered: heartbeats occur while executing or reporting.
- `targetAllowed`, header, body, URL and think-time validation: single-branch checks.
- Store.TestRunStore.FinishShard: states the outcome when no other transaction is open; interleavings are covered by Store.Perform, one statement at a time.
- Store.TestRunStore.ClaimShard: states the outcome when no other transaction is open; interleavings are covered by Store.Perform, one statement at a time.
- Worker.ReclaimStuck: states the outcome of a sweep that no other consumer interrupts; interruptions are covered by the composed system.
- Theorems.BarrierCorrect: excludes runs finished by the legacy run-level Complete or Fail, which may end a run while its shards are outstanding; the worker calls neither.
- Real goroutine, network and timer scheduling: any order of record calls, statements and events is allowed.
