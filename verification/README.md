# Conductor: a verified model of job delivery, bulk import, rule expressions, scheduling and reconciling

Conductor moves rows into project databases with jobs that are enqueued in PostgreSQL, relayed through an outbox to
RabbitMQ and executed by workers. This project models the parts of it whose correctness is not visible in any one
function, and proves what they promise, for every input, every run and every interleaving.

`dafny verify dfyconfig.toml` checks everything.

## How the model is laid out

**Job delivery** (`Delivery*.dfy`). `Delivery` is a machine: the jobs and outbox tables, the broker's messages, worker
liveness, slot counters and cancel flags. Each SQL statement, Lua call, publish and ack is one step, and steps of any
number of workers, relays, gateways and jobs interleave freely. A publish may be confirmed, lost, or delivered without
its confirm arriving. `DeliveryOwner`, `DeliveryTerminal`, `DeliveryOutbox`, `DeliveryClaims`, `DeliveryCover` and
`DeliverySlots` prove the invariants of all runs; `DeliveryRetry` and `DeliveryRunning` say exactly when a retrying, a
running or a cancelling job keeps a message and when it is stranded, `DeliveryFlag` what a cancel flag does to a replay,
`DeliveryRecovery` that another worker can take over from a dead one, and `DeliveryLost` holds runs that show these
conditions are needed.
`DeliveryWorld` is the same state as a class that single statements update in place, where every `Yield` (an await)
lets the other processes do whatever they like (or nothing: `Quiet`); `DeliveryRunner` (the worker shell), `DeliveryRelay` (enqueue and the
outbox relay) and `DeliveryGateway` (cancel and replay) are written on top of it, and each of their statements is
proved to be a step of the machine, so that the invariants hold for them too (`DeliverySafety`).

Assumptions of the delivery model: a worker whose heartbeat is older than 45 seconds takes no further step, and worker
ids are not reused; statements on the control database do not fail (a worker that cannot reach it counts as crashed); a
handler completes, throws `JobCancelled`, or throws, and writes after `completeJob` do not fail; all projects are on the
shared tier. The slot gate may throw, also after its script has run, and giving a slot back may fail.

**Bulk import** (`Staging*.dfy`, `Import*.dfy`, `Promote.dfy`, `Redelivery.dfy`). `Staging` is a table with
uniqueness per column (NULLs never clash) and data errors that depend on the row alone; `StagingDb` is the table as a
class. `ImportPlan` holds the chunk and sub-batch arithmetic and the statements of a chunk, `ImportRun` the machine of
chunk workers over the shared cursor, with the await between the loop guard and `cursor++` as a place where others
run. `ImportHandout`, `ImportOverrun`, `ImportRows`, `ImportCounts`, `ImportTally`, `ImportKeys` and `ImportOrder`
prove its properties;
`ImportChunk` and `ImportLookups` are `processChunk` and `enforceLookups` in imperative form, `Promote` the three
dialects' promotes, `Redelivery` whole sequences of attempts. `RowJob` is the same chunking with one action per row.

**Rule expressions** (`Expr*.dfy`). `ExprSyntax` has tokens, values, grammar trees and their meaning, for any choice of
the number operations; `ExprLexer` and `ExprParser` the lexer and the evaluating parser (a class with `pos`);
`ExprPrint` minimal printing and `evalExpression`; `ExprLaws` what a rule author may rely on: characters, grouping, mixed
values, errors.

**Scheduling** (`Scheduler.dfy` one pass, `SchedulerRun.dfy` many leaders) and **reconciling** (`Reconcile.dfy` one
project, `ReconcileLoop.dfy` the loops).

## What the proofs found

- The loop guard of the chunk workers and `cursor++` are separated by an await. With two or more workers and two or
  more chunks a worker can pass the guard and then index past the end of `chunks`, which makes the attempt fail although
  nothing is wrong; with one worker or one chunk it cannot (`ImportOverrun.OverrunIff`).
- A `queued` job always keeps a way back. A `retrying` job can lose it: its last live message is lost exactly when, after
  its retry was published and before `retrying` was written, the claim by that message is refused
  (`DeliveryRetry.WaitLostExactlyWhen`), and in a run without a refused claim it always has a message, however early the
  retry matured (`DeliveryRetry.RetryingJobHasMessage`). An early retry that is delivered only after `retrying` is
  written loses nothing; one that is delivered before strands the job (`DeliveryLost.RetryingCanBeLost`).
- A running or cancelling job keeps a message that is executed, waits or will be put back in every run in which no claim
  on it is refused, and loses its last such message exactly when the claim by that message is refused
  (`DeliveryRunning.ActiveJobHasMessage`, `DeliveryRunning.LostExactlyWhen`). Until the refused delivery is acked, its
  worker's death would still put the message back; the ack makes the loss final. That happens when a redelivery arrives
  before the 45 seconds are over (`DeliveryLost.RunningCanBeLost`) and when the publish of a retry is not confirmed and
  its original is requeued (`DeliveryLost.UnpublishedRetryCanBeLost`). A job without messages or unsent outbox row is
  stranded for good (`DeliveryRunning.StrandedForGood`).
- A `cancelling` job whose worker dies stays `cancelling` for ever: the claim takes over stale `running` jobs only, and
  a replay resets only `failed` and `cancelled` ones. It can still end if and only if a live worker executes it
  (`DeliveryRunning.CancellingEndsIff`, `DeliveryLost.CancellingCanBeOrphaned`).
- The cancel flag is set even when the cancel is answered with a conflict, and nothing clears it before it expires:
  `clearCancel` has no caller. A failed job that is replayed within that time can be cancelled by its first execution
  (`DeliveryFlag.ReplayedUnderFlag`, `DeliveryFlag.ReplayCanRunIntoTheFlag`).
- `packages/targetdb/src/sqlserver.ts:175-180` says the anti-join matches ON CONFLICT DO NOTHING. It does if and only if
  the target accepts every row the anti-join lets through and would refuse every row it leaves out
  (`Promote.PromotesAgreeIff`). It does not when the rule set names no column of a constraint
  (`Promote.UnnamedKeyDiffers`), when it names one without a constraint (`Promote.UnconstrainedNameDiffers`), when staged
  rows clash on a constraint it does not name (`Promote.ClashingStaging`), or at a second NULL under a SQL Server UNIQUE
  constraint (`Promote.SecondNullDiffers`).
- How many rows an import stages is independent of the schedule if and only if at most one column is unique
  (`ImportOrder.StagedCountIffOneKey`); with two, one import has finished runs that stage two rows and one
  (`ImportOrder.ScheduleDecides`).
- While a project stays wanted (or unwanted), `container_state` is wrong after every further tick, whatever its luck, if
  and only if it was stale at some point so far: the project as it should be and the record not saying so, which arises exactly when only the last write of a tick failed
  (`Reconcile.WrongForEverIff`, `ReconcileLoop.TickMakesStaleIff`, `Reconcile.RecordedErrorCanStick`).
- A string literal that is never closed is accepted (`ExprLaws.ClosingQuoteIsOptional`).
- A definition is due again right after a pass if and only if it was due and is neither one-time nor has a cron
  expression: such a one stays due for ever, and its key keeps it from firing twice (`Scheduler.DueForEverIff`).

## Model

| member | source | states |
|---|---|---|
| Delivery.ActIsFramed | packages/worker-runtime/src/runner.ts:109-255 | No act of the shell, broker or replay changes a job's project, key, limit or relay counters, moves a message to another job, or adds more than one message |
| DeliveryOwner.StepKeepsOwner | packages/worker-runtime/src/reporter.ts:85-120 | Every step keeps: each live execution is recorded in `worker_id` of a running or cancelling job, and no job has two |
| DeliveryOwner.OneOwner | packages/worker-runtime/src/reporter.ts:85-103 | In every reachable state at most one live worker executes a job, and it is the one in `worker_id`, with status running or cancelling |
| DeliveryOwner.ClaimableIsFree | packages/worker-runtime/src/reporter.ts:90-101 | A job that satisfies the claim's WHERE clause is executed by no live worker |
| DeliveryTerminal.StepOnEnded | packages/worker-runtime/src/reporter.ts:110-120 | No unconditional status write ever hits a completed job, or a failed or cancelled one that is not being reset |
| DeliveryTerminal.CompletedIsFinal | packages/worker-runtime/src/reporter.ts:110-120 | A completed job stays completed and is never executed again, along every run |
| DeliveryTerminal.EndedUntilReplay | services/gateway-api/src/rabbit.ts:59-67 | A failed or cancelled job keeps its status, claims and idleness until a replay resets it |
| DeliveryTerminal.CancelStops | services/gateway-api/src/routes/jobs.ts:172-176 | A cancel that hits a queued or retrying job finds it unexecuted, and nothing executes it before a replay |
| DeliveryTerminal.CancelIsObservable | services/gateway-api/src/routes/jobs.ts:168-183 | A job is cancelling only with its flag set, and every execution that begins after the flag can observe it |
| DeliveryOutbox.StepKeepsOutbox | services/scheduler/src/relay.ts:43-85 | Every step keeps the rows' accounting: locks, drafts, attempts and publications |
| DeliveryOutbox.EnqueueIsIdempotent | packages/core/src/enqueue.ts:90-158 | At most one job per non-null key; every job has exactly one outbox row and every row a job |
| DeliveryOutbox.RowsAccountForPublishes | services/scheduler/src/relay.ts:56-81 | Sent implies a publish, pending implies attempts left, given up implies that they are used up, and a row's publishes are at most one plus its rolled-back ticks and unconfirmed publishes, for any number of relays |
| DeliveryClaims.StepKeepsClaims | packages/worker-runtime/src/runner.ts:220-254 | Every step keeps claims made plus claims still possible within `max_attempts` for each entry into the broker |
| DeliveryClaims.ClaimsBounded | packages/worker-runtime/src/runner.ts:213-255 | Claims of a job are at most `max_attempts` times its publishes, requeues and replays, and so at most `max_attempts` times one plus its disturbances and replays |
| DeliveryClaims.UndisturbedClaims | packages/worker-runtime/src/runner.ts:213-255 | Without rollback, lost confirm, requeue or replay a job is executed at most `max_attempts` times |
| DeliveryCover.StepKeepsCover | packages/worker-runtime/src/runner.ts:228-246 | Every step keeps a way back for each waiting job: an unsent row or a message that is not lost |
| DeliveryCover.NoWaitingJobIsLost | packages/core/src/enqueue.ts:90-149 | A queued job has an unsent outbox row or a live message; a retrying job has a live message, unless its retry once matured too early |
| DeliveryRetry.WaitLostExactlyWhen | packages/worker-runtime/src/runner.ts:168-174 | A step leaves a job that waits, or whose retry is published and still to be written, without a way back exactly when it is a refused claim by the only live message of a job in that last position |
| DeliveryRetry.RetryingJobHasMessage | packages/worker-runtime/src/runner.ts:228-246 | In every run without a refused claim on it a retrying job has a live message, whenever its retries matured |
| DeliveryLost.RetryingCanBeLost | packages/worker-runtime/src/runner.ts:235-246 | A run that strands a retrying job: the claim by its early retry is refused |
| DeliveryRunning.LostExactlyWhen | packages/worker-runtime/src/reporter.ts:90-101 | A step leaves a running or cancelling job without a message that is executed, waits or will be put back exactly when it is a refused claim by the only such message |
| DeliveryRunning.ActiveJobHasMessage | packages/worker-runtime/src/runner.ts:167-193 | In every run without a refused claim on it, a running or cancelling job has such a message |
| DeliveryRunning.CancellingOrphanStays | packages/worker-runtime/src/reporter.ts:90-101 | A cancelling job that no live worker executes stays so, unexecuted, along every run |
| DeliveryRunning.CancellingEndsIff | services/gateway-api/src/routes/jobs.ts:177-178 | A cancelling job can still get another status if and only if a live worker executes it |
| DeliveryRunning.CancellingEndsByItsOwner | packages/worker-runtime/src/runner.ts:180-187 | Only an act of its own live execution takes a job out of cancelling |
| DeliveryRunning.StrandedForGood | packages/worker-runtime/src/runner.ts:168-174 | A job whose messages are all settled and whose row is sent is never executed again and changes status only by a cancel |
| DeliveryLost.RunningCanBeLost | packages/worker-runtime/src/runner.ts:168-174 | A run that strands a running job whose worker died: a redelivery before the heartbeat is stale |
| DeliveryLost.UnpublishedRetryCanBeLost | packages/worker-runtime/src/runner.ts:228-242 | A run that strands a running job whose worker lives: the publish of its retry was not confirmed |
| DeliveryLost.CancellingCanBeOrphaned | services/gateway-api/src/routes/jobs.ts:177-178 | A run in which an accepted cancel and a worker's death leave the job cancelling and unexecuted |
| DeliveryFlag.ReplayedUnderFlag | services/gateway-api/src/rabbit.ts:59-67 | Every execution of a failed or cancelled job whose flag is set follows a replay, and can be stopped by the flag while it executes |
| DeliveryFlag.ReplayCanRunIntoTheFlag | services/gateway-api/src/rabbit.ts:52-73 | From every such state with its message in the dead-letter queue, a live worker and a free slot, a replay can end in `cancelled` by its first execution |
| DeliveryRecovery.MessageCanBeExecuted | packages/worker-runtime/src/runner.ts:140-172 | A waiting message of a job that nobody with a fresh heartbeat has, and that is neither over nor cancelling, can be executed by any live worker while its project has a free slot |
| DeliveryRecovery.DeadWorkerIsReplaced | packages/worker-runtime/src/reporter.ts:85-103 | A running job whose worker died before it settled its message can be taken over by any other worker |
| DeliverySlots.StepKeepsSlots | packages/realtime/src/index.ts:146-166 | Every step keeps slots held at most the counter and the counter at most the limit |
| DeliverySlots.LiveExecutionsWithinLimit | packages/worker-runtime/src/runner.ts:140-165 | Slots held, by dead workers too, are at most the counter and that at most the limit; live executions of a project never exceed its limit, unless its key expired or its gate threw |
| DeliverySlots.FloorUnreachable | packages/realtime/src/index.ts:160-166 | The SET to zero is reached only for a project whose key has expired; until then a slot that is released finds the counter positive |
| DeliverySafety.WorldIsSafe | packages/worker-runtime/src/runner.ts:109-193 | All of this holds of every state the imperative services bring about |
| DeliveryWorld.World.Yield | packages/worker-runtime/src/runner.ts:141-165 | Whatever other processes do at an await, they leave alone the delivery, rows or message in hand, jobs' identity and settled messages |
| DeliveryWorld.World.ClaimJob | packages/worker-runtime/src/reporter.ts:85-103 | True exactly for a queued or retrying job or one running under another, stale worker; then the job is running under this worker |
| DeliveryWorld.World.WriteStatus | packages/worker-runtime/src/reporter.ts:110-120 | The unconditional status writes are the machine's steps |
| DeliveryWorld.World.AcquireSlot | packages/realtime/src/index.ts:146-158 | Takes a slot exactly when the counter stays within the limit, else leaves it |
| DeliveryWorld.World.ReleaseSlot | packages/realtime/src/index.ts:160-164 | The DECR gives back exactly the slot the delivery holds and reports whether the counter is negative |
| DeliveryWorld.World.FloorSlots | packages/realtime/src/index.ts:164-165 | The SET, a command of its own, sets the counter to 0 whatever others have done to it meanwhile |
| DeliveryWorld.World.PublishDelayed | packages/worker-runtime/src/runner.ts:146-160 | A delayed publish adds the deferred job or the next attempt; an unconfirmed one may have added it |
| DeliveryWorld.World.Settle | packages/worker-runtime/src/runner.ts:178-187 | Ack and dead-lettering settle the message once |
| DeliveryWorld.World.Requeue | packages/worker-runtime/src/runner.ts:238-242 | A nack with requeue puts the same attempt back |
| DeliveryRunner.Runner.OnMessage | packages/worker-runtime/src/runner.ts:109-193 | Under any interference the delivery goes through exactly the acts of one course: settled once, acked or dead-lettered only right after a durable write or publish or a refused claim, retry status only right after its confirmed publish, slot given back last; a handler that checks a flag set before it starts ends the job cancelled; `inFlight` is as before, refused exactly when draining, counter floored only after its key has expired. With nobody else at work the course and the job's final status follow from the state and what happens to the delivery |
| DeliveryRunner.Runner.Execute | packages/worker-runtime/src/runner.ts:167-193 | Claim, handler and settlement; the course taken is explained by the claim, the handler's outcome, the flag and the attempt number, and a flag that is set and checked ends it as cancelled; with nobody else at work all of this decides the course |
| DeliveryRunner.Runner.HandleFailure | packages/worker-runtime/src/runner.ts:213-255 | Below `max_attempts` the delayed copy comes first, then the status, then the ack; otherwise the job fails and the message is dead-lettered |
| DeliveryRelay.EnqueueJob | packages/core/src/enqueue.ts:90-158 | Job and outbox row appear together, exactly when no job has the key; otherwise nothing changes |
| DeliveryRelay.SelectPending | services/scheduler/src/relay.ts:46-54 | The picked rows are the oldest unlocked pending ones, all of them or as many as the batch allows |
| DeliveryRelay.OutboxRelay.Tick | services/scheduler/src/relay.ts:43-85 | Beside other relays, a tick that commits leaves each picked row with one more attempt, sent if its publish was confirmed, and else pending, or given up once the attempts are used up; one that fails anywhere, its COMMIT included, leaves the rows as they were; success is reported, with the number sent, only after a commit that was heard of |
| DeliveryGateway.CancelJob | services/gateway-api/src/routes/jobs.ts:164-183 | With others in between, an accepted cancel leaves the job cancelled or cancelling with the flag set; a conflict means that flag, queued/retrying update and running update were all tried, in this order, and the job is not running. With nobody else at work a queued or retrying job is cancelled, a running one is cancelling, and any other is left alone and refused |
| DeliveryGateway.HeadOfDlq | services/gateway-api/src/rabbit.ts:50-51 | The first dead-lettered message, or none if there is none |
| DeliveryGateway.ReplayOne | services/gateway-api/src/rabbit.ts:52-75 | A message is acked exactly when readable and republished, with attempt 1 and a confirm; else it is back in the queue; its acts are reset before republish before ack |
| DeliveryGateway.ReplayDlq | services/gateway-api/src/rabbit.ts:45-81 | Replays at most `max` and returns the number of distinct messages taken off for good; it stops before `max` only at an empty queue, or right after a message that was unreadable or whose publish was not confirmed |
| Staging.FittingBatch | services/worker-core/src/handlers/bulkImport.ts:185-192 | A multi-row INSERT that succeeds stages what inserting its rows one at a time stages |
| Staging.FitsIffNoError | services/worker-core/src/handlers/bulkImport.ts:193-211 | The multi-row INSERT succeeds exactly when none of its rows would be rejected on its own |
| Staging.InsertEachAppend | services/worker-core/src/handlers/bulkImport.ts:183-184 | Cutting the rows into sub-batches changes nothing |
| Staging.TwoKeysDependOnOrder | packages/targetdb/src/postgres.ts:104-111 | For any two unique columns, a row that clashes with two others keeps both out or is kept out by them, by the order of the inserts |
| StagingDb.StagingTable.InsertMany | services/worker-core/src/handlers/bulkImport.ts:186-192 | All rows or none, and never a statement beyond the parameter limit |
| StagingDb.StagingTable.DeleteRows | packages/targetdb/src/sqlserver.ts:196-207 | Deletes exactly the rows with the given numbers, in pieces of 1000 |
| ImportPlan.ChunksPartition | services/worker-core/src/handlers/bulkImport.ts:50-59 | Every row is in exactly one chunk |
| ImportPlan.ChunksAreFull | services/worker-core/src/handlers/bulkImport.ts:50-59 | Every chunk but the last has `chunkSize` rows, and none is empty if there are rows |
| ImportPlan.SubBatchFits | services/worker-core/src/handlers/bulkImport.ts:182 | A sub-batch needs at most `maxBindParams - 1` parameters whenever one row does |
| ImportPlan.SubBatchIsLargest | services/worker-core/src/handlers/bulkImport.ts:182 | One more row would exceed 1000 rows or `maxBindParams - 1` parameters |
| ImportPlan.SubBatchesAreFull | services/worker-core/src/handlers/bulkImport.ts:183-192 | The statements of a chunk carry its valid rows in order, each but the last a full sub-batch |
| ImportPlan.ProgramFits | services/worker-core/src/handlers/bulkImport.ts:182-192 | Every multi-row INSERT of a chunk fits whenever one row does |
| ImportRun.PerformCheaper | services/worker-core/src/handlers/bulkImport.ts:183-212 | Every statement of a chunk, fallbacks included, brings it nearer its end |
| ImportHandout.HandoutSafe | services/worker-core/src/handlers/bulkImport.ts:61-73 | No chunk is taken twice, and the cursor never exceeds chunks plus workers less one |
| ImportHandout.HandoutComplete | services/worker-core/src/handlers/bulkImport.ts:61-78 | If the import goes on to promote, every chunk was taken exactly once, in order, and is done |
| ImportHandout.LateStartsBounded | services/worker-core/src/handlers/bulkImport.ts:64-70 | After the cancel flag is set each worker starts at most one more chunk |
| ImportHandout.ObservedNeverProceeds | services/worker-core/src/handlers/bulkImport.ts:65-78 | Once a worker has observed the flag, promote is never reached |
| ImportOverrun.OverrunIff | services/worker-core/src/handlers/bulkImport.ts:63-70 | A worker can index past the last chunk if and only if there are at least two workers and two chunks |
| ImportRows.RowAccounting | services/worker-core/src/handlers/bulkImport.ts:162-215 | When all chunks are done every source row is either staged or reported, never both; staged rows are unchanged source rows without clashes; each report has its cause |
| ImportCounts.BatchCounters | packages/worker-runtime/src/reporter.ts:154-157 | `chunks_remaining` is then 0, `error_count` the number of error records, and the processed counts of the chunks add up to the staged rows |
| ImportKeys.StagedKeys | packages/targetdb/src/postgres.ts:104-111 | With one key column the staged keys are those of the acceptable rows, and all keyless ones are staged, in every interleaving |
| ImportKeys.StagedCount | services/worker-core/src/handlers/bulkImport.ts:61-73 | One staged row per distinct key, plus the keyless rows |
| ImportTally.StepTally | services/worker-core/src/handlers/bulkImport.ts:162-212 | Every step keeps: records of faulty rows written and still to be written add up to those of the source, and no row has two other records |
| ImportKeys.RecordCounts | services/worker-core/src/handlers/bulkImport.ts:162-212 | For any unique columns: one record per error of a faulty row, one per data error, one for each acceptable row that is not staged, and no other |
| ImportKeys.DuplicateCount | services/worker-core/src/handlers/bulkImport.ts:200-202 | With one key column the number of records for duplicates follows from the source alone |
| ImportKeys.ScheduleIndependent | services/worker-core/src/handlers/bulkImport.ts:61-73 | With at most one unique column two runs with different interleavings stage as many rows and the same keys, write as many records of each kind, and agree on `error_count` |
| ImportOrder.ScheduleDecides | services/worker-core/src/handlers/bulkImport.ts:61-73 | For any two unique columns there is an import with two finished runs that stage two rows and one |
| ImportOrder.StagedCountIffOneKey | packages/targetdb/src/postgres.ts:104-111 | The number of staged rows is the same in all runs of every import if and only if at most one column is unique |
| ImportChunk.Validate | services/worker-core/src/handlers/bulkImport.ts:163-175 | The valid rows of the chunk in order, and one record for each error of the others |
| ImportChunk.Stage | services/worker-core/src/handlers/bulkImport.ts:177-212 | Sub-batches with fallback leave the table, count and rejections of inserting the rows one at a time, for every sub-batch size; if a statement fails otherwise, those of a prefix of the rows |
| ImportChunk.ProcessChunk | services/worker-core/src/handlers/bulkImport.ts:138-220 | A chunk stages its valid rows one at a time in effect, reports all errors, and adds exactly these to the counters; one that throws has done so for a prefix, is marked failed, and leaves the batch row alone |
| ImportChunk.FallbackIsRowByRow | services/worker-core/src/handlers/bulkImport.ts:177-212 | The machine's statements for a chunk, run alone, have that effect too |
| ImportLookups.EnforceLookups | services/worker-core/src/handlers/bulkImport.ts:233-285 | Enforcing the lookup rules one after the other in place does what `Enforce` says, also when a rule cannot be enforced |
| ImportLookups.EnforceKeeps | services/worker-core/src/handlers/bulkImport.ts:262-283 | Exactly the rows that satisfy every rule stay, whatever the order of the rules |
| ImportLookups.EnforceReports | services/worker-core/src/handlers/bulkImport.ts:275-283 | A row is reported exactly when it is removed |
| ImportLookups.RowIsRemovedIffItMisses | services/worker-core/src/handlers/bulkImport.ts:262-283 | A row is removed and reported if and only if some lookup cell is not NULL and has no referent; one with NULL in all lookup cells is neither |
| ImportLookups.ReportsNameTheRule | services/worker-core/src/handlers/bulkImport.ts:275-283 | Every record names a staged row and the field of a rule that this row misses in |
| ImportLookups.DoneMeansEnforceable | services/worker-core/src/handlers/bulkImport.ts:244-256 | It ends normally exactly when every field is mapped and every entity configured |
| ImportLookups.AccountingAfterLookups | services/worker-core/src/handlers/bulkImport.ts:80-87 | After lookups every source row is still either staged or reported, and staged rows satisfy every rule |
| Promote.SkipInsertIsFresh | packages/targetdb/src/postgres.ts:132-136 | On conflict-free staging, row-at-a-time skipping is one anti-join against the table before the statement |
| Promote.AnyOrder | packages/targetdb/src/mysql.ts:137-140 | In any order of the staged rows the same rows are inserted, and as many |
| Promote.RepeatInsertsNothing | packages/targetdb/src/postgres.ts:118-145 | Promoting again, in any order, inserts nothing, if every row has a non-null key |
| Promote.PromotesAgreeIff | packages/targetdb/src/sqlserver.ts:175-194 | For any staged rows the anti-join ends as skip-on-conflict does if and only if the target accepts all rows it lets through and would refuse each one it leaves out |
| Promote.PromotesAgreeOnCleanStaging | packages/targetdb/src/sqlserver.ts:175-194 | For staging without conflicts on the target's constraints: iff both hit the target for the same rows |
| Promote.ClashingStaging | packages/targetdb/src/sqlserver.ts:189-192 | Two rows let through that clash on a constraint fail the whole statement, while skip-on-conflict goes through |
| Promote.UnnamedKeyDiffers | packages/targetdb/src/sqlserver.ts:181-192 | The two promotes differ where the rule set names no column of a constraint |
| Promote.UnconstrainedNameDiffers | packages/targetdb/src/sqlserver.ts:181-192 | They differ where it names a column without a constraint |
| Promote.SecondNullDiffers | packages/targetdb/src/sqlserver.ts:189-192 | They differ at a second NULL under a UNIQUE constraint of SQL Server |
| Promote.Table.PromoteSkipping | packages/targetdb/src/postgres.ts:118-145 | Inserts exactly the fresh rows in some order, keeps the constraints and returns the growth |
| Promote.Table.PromoteAntiJoin | packages/targetdb/src/sqlserver.ts:167-194 | Inserts the unmatched rows or, when that breaks a constraint, a second NULL included where the constraint has none, nothing; keeps the constraints and returns the growth |
| Redelivery.KeysAfter | services/worker-core/src/handlers/bulkImport.ts:45-135 | After any attempts, each with its own interleaving and crash point, the target's keys are the old ones, plus the valid rows' once one attempt promoted |
| Redelivery.LaterAttemptsPromoteNothing | services/worker-core/src/handlers/bulkImport.ts:89-95 | Every attempt after the first that promoted leaves the target as it is |
| Redelivery.TargetStaysUnique | packages/targetdb/src/postgres.ts:118-145 | No sequence of attempts breaks the target's constraints |
| Redelivery.StagedIsConflictFree | packages/targetdb/src/postgres.ts:104-111 | What reaches promote has no two rows that clash |
| RowJob.Counters.RunChunk | services/worker-core/src/rowPipeline.ts:62-94 | A chunk adds to the shared counters what its own rows come to |
| RowJob.Counters.RunRowJob | services/worker-core/src/rowPipeline.ts:50-104 | The counts returned are the sums over all rows, for every order in which the chunks end |
| RowJob.CountsExplained | services/worker-core/src/rowPipeline.ts:67-86 | With validation a faulty row counts once for each of its errors and is not acted on; every other row counts as its action went |
| RowJob.HandedOutAddsUp | services/worker-core/src/rowPipeline.ts:50-104 | The chunks handed out in any finished, uncancelled run of the workers add up to every row exactly once |
| RowJob.CountsAreOfAllRows | services/worker-core/src/rowPipeline.ts:45-104 | So do all chunks in any order |
| ExprLexer.Scan | packages/rule-engine/src/expression.ts:38-57 | The end of the longest run of characters of a kind |
| ExprLexer.Tokenize | packages/rule-engine/src/expression.ts:12-62 | The loop yields the token list of the lexical grammar, or its first bad character |
| ExprLexer.LexTerminated | packages/rule-engine/src/expression.ts:12-62 | The list ends with the end marker, which occurs nowhere else |
| ExprLexer.LexRender | packages/rule-engine/src/expression.ts:12-62 | Lexing gives back any list of spelled tokens, with any white space between them that keeps them apart |
| ExprParser.ParseSound | packages/rule-engine/src/expression.ts:82-186 | What is parsed is a tree of the grammar whose yield is the consumed tokens |
| ExprParser.ParseComplete | packages/rule-engine/src/expression.ts:82-186 | Every tree of the grammar followed by a token that cannot extend it is parsed whole |
| ExprParser.AcceptedIffYield | packages/rule-engine/src/expression.ts:82-87 | A token list is accepted, as a tree, if and only if it is the tree's yield |
| ExprParser.Unambiguous | packages/rule-engine/src/expression.ts:88-186 | No two trees of the grammar have the same yield |
| ExprParser.ChainedRelationalRejected | packages/rule-engine/src/expression.ts:115-128 | Two relational operators in a row are rejected as trailing input, whatever the operands |
| ExprParser.Parser.Run | packages/rule-engine/src/expression.ts:82-186 | The one-pass evaluation is the meaning of the parsed tree, or the parser's error; it stays within the tokens and ends |
| ExprParser.Parser.Comparison | packages/rule-engine/src/expression.ts:115-128 | At most one relational operator, on both operands as numbers |
| ExprParser.Parser.Primary | packages/rule-engine/src/expression.ts:165-186 | Literals, keywords, fields and parentheses mean what their trees mean |
| ExprPrint.ToTreeMinimal | packages/rule-engine/src/expression.ts:88-186 | No tree with the same meaning structure has a shorter yield than the printed one |
| ExprPrint.PrintThenEvaluate | packages/rule-engine/src/expression.ts:196-198 | Printing any expression minimally, with any white space, and evaluating the text gives the expression's value |
| ExprPrint.EvalIffTree | packages/rule-engine/src/expression.ts:196-198 | A text evaluates to a value if and only if it reads as a tree of the grammar with that meaning |
| ExprPrint.EvalExpression | packages/rule-engine/src/expression.ts:196-198 | The imperative lexer and parser together compute `Eval` |
| ExprLaws.CharacterClasses | packages/rule-engine/src/expression.ts:17-57 | White space, quotes, and the characters of numbers and words, one by one |
| ExprLaws.ClosingQuoteIsOptional | packages/rule-engine/src/expression.ts:33-43 | A string that is never closed lexes as the closed one does |
| ExprLaws.BadCharacter | packages/rule-engine/src/expression.ts:58 | A text that begins with a character that begins no token is rejected with that character |
| ExprLaws.Grouping | packages/rule-engine/src/expression.ts:88-153 | Of two binary operators in a row the tighter one takes its operands first, and the left one among equals |
| ExprLaws.PrefixGroups | packages/rule-engine/src/expression.ts:154-164 | A prefix operator binds tighter than every binary one |
| ExprLaws.EqualityLaws | packages/rule-engine/src/expression.ts:191-194 | Comparison is numeric as soon as one operand is a number, and of texts otherwise: null equals 'null', a missing field does not equal null |
| ExprLaws.NoExpression | packages/rule-engine/src/expression.ts:165-185 | A text that begins with a token that begins no expression, or is empty, is rejected with that token |
| ExprLaws.MissingParenthesis | packages/rule-engine/src/expression.ts:168-172 | A parenthesis around any expression must be closed |
| ExprLaws.NothingMayFollow | packages/rule-engine/src/expression.ts:82-86 | After any whole expression a token that is no operator is trailing input |
| ExprLaws.FieldText | packages/rule-engine/src/expression.ts:177-181 | The name of a field evaluates to its value in the row, and to undefined without one |
| Scheduler.KeysTellOccurrencesApart | services/scheduler/src/scheduler.ts:57-58 | Two keys are equal exactly for the same definition and occurrence |
| Scheduler.PassesMoveForward | services/scheduler/src/scheduler.ts:43-88 | Over any passes the run time of a definition only moves strictly forward, one that loses it is off, and an enabled cron definition is next due after the last pass |
| Scheduler.NoneSkipped | services/scheduler/src/scheduler.ts:27-30 | Over any passes the next run of an enabled cron definition is the first occurrence after some pass, and every later pass came before it: no occurrence is left out |
| Scheduler.DueForEverIff | services/scheduler/src/scheduler.ts:54-88 | After any passes a definition is still due right after the last if and only if it was due to begin with and is neither one-time nor has a cron expression |
| Scheduler.ScheduleDb.EvaluateSchedules | services/scheduler/src/scheduler.ts:32-91 | A pass advances every row, a due cron definition to the first occurrence of its expression after the pass; adds exactly the keys of the due occurrences and returns the number of new jobs |
| SchedulerRun.StepKeeps | services/scheduler/src/scheduler.ts:32-91 | Every step of any leader, stopped anywhere, keeps log, keys and times in agreement |
| SchedulerRun.EachOccurrenceOnce | services/scheduler/src/scheduler.ts:54-75 | Under any number of leaders with stale snapshots and crashes, each occurrence gets at most one job, never early; one that a leader has enqueued has its job |
| SchedulerRun.PassedMeansMade | services/scheduler/src/scheduler.ts:75-88 | Every due occurrence that some leader has moved past, however long ago, has its job |
| SchedulerRun.AloneIsOnePass | services/scheduler/src/scheduler.ts:32-91 | A leader that works alone through all its rows, in any order, does what the pass does |
| Reconcile.OneGoodTickIsEnough | services/provisioner/src/reconcile.ts:31-80 | After any history of failures one good tick is enough, for good, and every later tick makes no call |
| Reconcile.WrongForEverIff | services/provisioner/src/reconcile.ts:57-77 | While the desired state stays the same, the record is wrong after every continuation of the ticks if and only if it was stale at some point so far |
| Reconcile.RecordedErrorCanStick | services/provisioner/src/reconcile.ts:57-62 | For instance, a running worker whose last state write failed is recorded as in error for ever |
| ReconcileLoop.Provisioner.RemoveContainer | services/provisioner/src/docker.ts:131-137 | Stop then remove, each of which may fail; other projects' containers stay |
| ReconcileLoop.Provisioner.CreateContainer | services/provisioner/src/docker.ts:95-129 | Create then start, each of which may fail; only where no container is |
| ReconcileLoop.Provisioner.List | services/provisioner/src/docker.ts:80-93 | Every container once, with its project |
| ReconcileLoop.Provisioner.EnsureOne | services/provisioner/src/reconcile.ts:43-63 | One wanted project comes out as `Ensure` says, with its calls in that order, the others untouched; nothing at all changes for a healthy one |
| ReconcileLoop.Provisioner.TearDownOne | services/provisioner/src/reconcile.ts:66-77 | One unwanted project comes out as `TearDown` says, with its calls in that order, the others untouched |
| ReconcileLoop.Provisioner.ReconcileOnce | services/provisioner/src/reconcile.ts:31-80 | Every project's state, calls and place in the result lists depend on its own state and failures alone; at most one container per project is kept; containers of projects without calls are the very same |
| ReconcileLoop.TickCreatesLast | services/provisioner/src/reconcile.ts:48-57 | The calls a tick adds for a project create a container only right after readiness, and only once an old one is removed |
| ReconcileLoop.ListsAreTruthful | services/provisioner/src/reconcile.ts:57-77 | What a tick lists as created or removed was not so before and is now, and recorded; an error is listed exactly when a call the project needed failed |
| ReconcileLoop.TickMakesStaleIff | services/provisioner/src/reconcile.ts:57-77 | A tick makes a project's record stale exactly when all calls it needed succeeded but the last write |
| ReconcileLoop.TickRecords | services/provisioner/src/reconcile.ts:58-77 | After an error the record says `error`, or, if that cannot be written, how far the tick had come; an unwanted worker is recorded as `stopping` right before its removal |
| ReconcileLoop.IdleTick | services/provisioner/src/reconcile.ts:43-67 | A tick that finds every project as it should be makes no call, changes nothing and returns empty lists |
| ReconcileLoop.Provisioner.TwoTicks | services/provisioner/src/reconcile.ts:31-80 | After a failure-free tick there is exactly one running container for each desired project and none for others, and the next tick makes no call |

## Left out

- Dashboard, HTTP routing, authentication, seeding, health, metrics, server-sent events and tracing: no bearing on the properties.
- The clients of RabbitMQ, PostgreSQL, SQL Server, MySQL, Redis, S3, Docker and Excel: replaced by the atomic steps above.
- Dedicated-tier queues and schemas, and tier changes while jobs are under way: replay always uses the shared routing key, so the code makes no clean promise there.
- A consumer channel that closes under a live worker, so that its acks throw: the worker counts as crashed.
- Order, priority and time of messages: any ready message may be delivered next, any delayed one may mature.
- The 30-second cache of a project's concurrency limit: the limit is constant.
- The expiry of the cancel flag, and `failJob` called from inside handlers.
- `Runner.shutdown` and heartbeats as code: draining is a field, and a worker may stop or lapse at any step.
- Deliveries running side by side on one `Runner` object: their statements interleave through `World`, but `inFlight` is proved restored for one delivery at a time.
- Job events, logs and progress counters: no decision reads them.
- `sourceFieldFor` and `firstUnique`: searches with one branch. The hand-out of chunks in `runRowJob` is the import's (`ImportHandout`); `RowJob` takes what the action did with each row as given.
- `evaluateRow`, transforms and `coerce`: one deterministic function of the record.
- Chunk workers that go on after another worker has thrown and `Promise.all` has rejected: the model's attempt ends with the failure.
- A MySQL INSERT IGNORE that turns a data error into a warning and a changed value: rows that reach promote are taken to be storable.
- Error records left over from earlier attempts of the same job.
- `clearCancel`, progress keys and the rejects file.
- Number, string and object conversions of JavaScript: arbitrary functions, of which no property is needed; `row[name]` is a map lookup, without inherited properties of objects.
- The cron library: any set of occurrences, and the first of them after the time it is given; `last_run_at` is not kept.
- A job table that refuses or loses an enqueue during a pass with a single leader: `SchedulerRun` lets a leader stop there, `Scheduler.ScheduleDb.EvaluateSchedules` describes the pass that ends.
- `desiredProjectIds` or `list` throwing: the tick then does nothing.
- Containers that die or are removed by others during a tick; between ticks their state is arbitrary.
- RowJob.Counters.RunRowJob: takes the order in which the chunks end as given; workers and cancellation are those of the import's machine (`RowJob.HandedOutAddsUp`), and a cancelled job returns no counts.
- Scheduler.ScheduleDb.EvaluateSchedules: rows are taken in any order, since the query names none.
