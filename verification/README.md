# A verified model of the job lifecycle protocol

A job scheduler in which many workers, schedulers, outbox publishers and API callers share one
PostgreSQL database.  Nobody talks to anybody else: a job is claimed, started, completed, failed,
recovered, retried or cancelled only by transactions on the same rows, so what the system guarantees
follows from how guards in different files combine.  This project models those transactions and
proves what they guarantee over every run, for any number of participants, crashes, late reports and
duplicate hints.  `dafny verify dfyconfig.toml` checks all of it.

## How the model is built

| modules | what they hold |
|---|---|
| `Wrappers`, `Pages`, `RetryStrategy`, `Tables`, `JobStateMachine` | what an ordered, limited query answers, the delay arithmetic, the rows, the transition table |
| `Transactions`, `Effects` | each transaction as one function from the tables before to the tables after; what it accepts and writes, column by column |
| `Store` | the same transactions as methods of an object whose fields are the tables, statement by statement, each proved equal to its function |
| `Protocol` | the system as a state machine: a label for every step, `Apply`, `Run`, and per-job tallies of what has happened |
| `JobMoves`, `Lifecycle`, `History` | each step seen from one job, the invariant of every reachable state |
| `Counters`, `Ledger`, `SingleAttempt`, `OperatorRetries`, `Fencing`, `Termination`, `Backoff`, `AttemptSpacing`, `RetryTiming`, `RetryHorizon`, `Capacity`, `Attendance`, `Orphans`, `Starvation`, `Unblocking`, `Witnesses` | theorems about whole runs, and the runs that show where a guarantee ends |
| `PromotionQueue`, `RecoverySweep`, `RecoveryQueue` | the batches of the delayed-job scheduler and of recovery: what one does, how long a job waits for its turn, and what holds the first places for ever |
| `ClaimConcurrency`, `ClaimSelection` | the claiming transaction statement by statement, interleaved with everything; which job it picks |
| `Keys`, `JobCreation`, `Idempotency` | idempotency keys, `createJob`, `createBatch` |
| `RecurringSchedules`, `DueSchedules`, `RecurringScheduler` | cron schedules fired into the protocol, when a due one fires and when never again, one scheduler's batch |
| `Outbox`, `OutboxPublisher`, `OutboxBacklog` | the outbox reservation protocol, one publisher's batch, and the events that hold its first places |
| `WorkerLocal`, `RateLimiter` | one worker process, the request limiter |

A run is a sequence of labels from `INITIAL`.  A step that is not enabled changes nothing, so every
sequence is a run and a theorem about `Run(INITIAL, ls)` for all `ls` is a theorem about every
reachable state.  Clocks, random draws, row identifiers, the answers of Kafka and Redis and the rows that
`SKIP LOCKED` passes over are chosen by the environment, as label or method arguments.  A worker process
that crashes takes a label of its own, because nothing in the tables shows it.  So does a process that
drops a claim: the state counts the claims that processes have in hand, a claim gives one, only a start by
its holder uses it, and a shutdown or a crash before that drops it.

## Assumptions

- One monotone clock serves `NOW()` and `new Date()`.  Claim, promotion and cron firing may use a
  `NOW()` from before they waited for a lock (`at <= now`); the other transactions read the clock when
  they commit, also for `startedAt`, `completedAt` and `failedAt`, which the code takes a little earlier.
- Start, complete, fail, recover, promote, batch creation and dead-letter retry are atomic.  `cancelJob`
  and `retryJob` are a read and a write with anything in between; claiming is split into its statements.
- Every process of a worker identifier runs with the same lease time, so a heartbeat never shortens a lease.
  `Starvation.StuckStays` and what follows from it say so (`SteadyRun`); the other theorems allow any
  lease times.
- Archiving a queue is for good: every write to a queue asks that it is not deleted.
- Cron is an infinite set of instants whose parser returns the least instant after its base.
- Delays are doubles; every value they can reach is an integer, an infinity or NaN, and rounding above
  2^53 is absorbed by the clamp to 2^53 - 1.

## Where the code differs from what it is documented to do

- When recovery finds the attempts exhausted it does not make the job FAILED: the status stays CLAIMED or
  RUNNING with no lease and no worker, beside a dead-letter row.  Such a *parked* job keeps counting
  against the concurrency limit of its queue until an operator acts (`Witnesses.ParkedJobStarvesQueue`).
  So does a claimed job whose start is refused for want of attempts, and any claimed or running job that no
  process will start or report on and whose next instant cannot be stored
  (`Witnesses.DroppedClaimIsStuck`).  As far as claims, reports and leases go, a queued job can still be
  claimed some day without an operator if and only if fewer such jobs than the limit are in its queue
  (`Unblocking.StarvedExactly`).
- Recovery, the outbox publisher and the cron scheduler each take the first rows of an ordered query, and
  each leaves a row it can do nothing with in its place.  So a batch of such rows shuts out all others.
  Recovery offers the leases that ran out first: as many jobs as `max(1, concurrency)` whose next instant is
  no Date stop the recovery of every lease that runs out later (`RecoveryQueue.RecoveryStops`); with a
  concurrency of one a single dropped claim does (`Witnesses.DroppedClaimBlocksRecovery`).  The cron query does
  not ask whether a queue is archived: archiving one queue with `batchSize` schedules stops the schedules of
  all queues (`DueSchedules.ArchivingStopsCron`).  As many events as a batch holds, none of which can be sent,
  keep a lone publisher from every later event (`OutboxBacklog.FailingEventsBlock`).  The delayed-job query
  selects only what it can promote: there a job waits for d / batchSize calls at most, d being the jobs due
  before it (`PromotionQueue.PromotedInTime`).
- A due schedule fires if and only if no job of its queue carries the key of its next occurrence
  (`DueSchedules.FiresExactly`).  Keys of API callers are free text, and the API shows a schedule's id and
  next instant: a job created with that key stops the schedule for good, because the refused insert rolls
  the reservation back every time (`DueSchedules.CallersKeyStopsSchedule`).  Only a caller's job can do that
  (`DueSchedules.OnlyCallersTakeKeys`), and apart from a disabled schedule or an archived queue it is the only
  thing that stops one for good (`DueSchedules.FiresAgainExactly`).
- A start that the attempt check refuses leaves `executionId` set, though the execution row was rolled back
  (apps/worker/src/worker/worker.service.ts:164): the failure report that follows throws on the missing row,
  nobody handles the rejection, and by default that ends the worker process.  The tables are as
  `OperatorRetries.ExhaustedNeverRunsAgain` says; the job stays CLAIMED until its lease runs out.
- A RUNNING job is not always being run.  Its current attempt is carried out exactly until its worker
  crashes, reports completion without holding the job, or reports a failure worth a retry that is not
  written, because the worker does not hold the job or the retry instant is no Date
  (`Orphans.RunningJobsAreExecuted`).  A start checks that the job is CLAIMED but not by whom, so a worker
  can run a job that another one holds (`Witnesses.LateStartOrphansJob`); and heartbeats renew every RUNNING
  job of a worker identifier, so a process restarted under the same identifier keeps the jobs its
  predecessor was running (`Witnesses.CrashOrphansJob`).  Such a job stays as it is exactly until recovery
  finds its lease expired or an operator writes to it (`Orphans.OrphansStay`, `Orphans.OrphanLeaves`).
- An operator's retry is allowed whenever a dead-letter row exists, also for a job that is running; two
  executions can then run at once (`Witnesses.ForcedRetryRunsTwice`).  The missing guard is exact: a retry
  is safe if and only if no execution of the job is RUNNING, or no attempts are left, or its queue is archived
  (`OperatorRetries.RetryGuardIsExact`).
- An instant past the last Date cannot be stored, and the transaction that computes it aborts.  Attempt n of
  an uncapped exponential policy is beyond retry exactly when the clock plus min(2^53 - 1, init * 2^(n-1))
  passes that Date; from attempt 54 on that is so at any time.  Attempt 54 is reached inside the calendar
  only by jobs retried by hand (`Witnesses.RetriedJobGetsStuck`): for the others the waits before it have
  outlasted the calendar
  (`RetryHorizon.UnretriedJobsOutliveCalendar`).
- A publisher that takes longer than a minute to settle its reservation loses it, but does not notice: it can
  release the row another publisher has just reserved (`Outbox.StalePublisherStealsReservation`).
  Reservations are exclusive exactly as long as nobody is late (`Outbox.ReservationsAreExclusive`), and
  delivery is at least once, not once.
- The `activeJobs` map of a worker can show fewer executions than are live: a job that is claimed again by
  the process still executing it shares its key (`WorkerLocal.ReclaimsAreUnbounded`).
- Jobs created by a cron schedule carry no retry columns, so they retry at once.

## Model

| member | source | states |
|---|---|---|
| RetryStrategy.JitterRange | apps/worker/src/reliability/retry-strategy.service.ts:27-30 | the jitter can be every whole number from 0 to jitterMs and no other |
| RetryStrategy.DelayIsANumber | apps/worker/src/reliability/retry-strategy.service.ts:15-31 | a delay lies in [0, 2^53 - 1], except that it is NaN exactly for an exponential policy with initial delay 0 beyond attempt 1024 |
| RetryStrategy.JitterOnlyDelaysFurther | apps/worker/src/reliability/retry-strategy.service.ts:27-31 | with jitter the delay lies in [d(n), d(n) + jitterMs], clamped to 2^53 - 1 |
| RetryStrategy.ExponentialIsSaturatingDoubling | apps/worker/src/reliability/retry-strategy.service.ts:21-26 | without jitter the closed form is the recurrence d(1) = min(cap, init), d(n+1) = min(cap, 2 d(n)), for every attempt, overflow to Infinity included |
| RetryStrategy.DelayNeverShrinks | apps/worker/src/reliability/retry-strategy.service.ts:15-26 | under all three strategies a later attempt never waits less |
| RetryStrategy.GeometricBackoff | apps/worker/src/reliability/retry-strategy.service.ts:21-26 | the first n uncapped exponential delays add up to init * (2^n - 1) while the last is below the clamp |
| RetryStrategy.DelayClosedForm | apps/worker/src/reliability/retry-strategy.service.ts:15-26 | without jitter attempt n waits init (FIXED), init * n (LINEAR) or init * 2^(n-1) (EXPONENTIAL), at least 0, at most the policy's cap and 2^53 - 1; attempts below 1 count as 1 |
| RetryStrategy.DelayAddsJitter | apps/worker/src/reliability/retry-strategy.service.ts:27-31 | floor(random * (jitterMs + 1)) is added to that, and the sum clamped once more |
| RetryTiming.NullColumns | apps/worker/src/reliability/retry.service.ts:36-44 | null columns mean FIXED, no delay and no jitter; a null cap is no cap |
| RetryTiming.FailureSchedules | apps/worker/src/reliability/retry.service.ts:45-65 | a failure that sends a job to RETRYING sets scheduledAt between now + delay(attemptCount) and that plus jitterMs, to now + delay exactly without jitter, and never past the last Date |
| RetryTiming.RecoverySchedules | apps/worker/src/reliability/recovery.service.ts:49-71 | so does a recovery |
| RetryTiming.EveryInstantIsDrawn | apps/worker/src/reliability/retry.service.ts:45 | every whole number of the jitter's range can be the one that is added; there is no instant exactly when the sum is past 8640000000000000 |
| RetryHorizon.RetryIsStorable | apps/worker/src/reliability/retry.service.ts:35-67 | a retry instant exists for every draw of the jitter if and only if the longest wait ends before the last representable Date |
| RetryHorizon.CappedRetriesAreStorable | apps/worker/src/reliability/recovery.service.ts:49-63 | a policy cap inside the calendar always leaves room for the retry instant |
| RetryHorizon.NeverStorableExactly | apps/worker/src/reliability/recovery.service.ts:50-63 | no draw of the jitter gives a storable instant exactly when the clock plus the plain delay is past the last Date, or the arithmetic is degenerate |
| RetryHorizon.UncappedBackoffGetsStuck | apps/worker/src/reliability/recovery.service.ts:49-63 | attempt n of an uncapped exponential policy is unstorable exactly when the clock plus min(2^53 - 1, init * 2^(n-1)) is past the last Date; then neither recovery nor a retryable failure changes any table |
| RetryHorizon.Attempt54OutlastsCalendar | apps/worker/src/reliability/retry-strategy.service.ts:21-22 | from attempt 54 on that wait alone is longer than the calendar |
| RetryHorizon.UnretriedJobsOutliveCalendar | apps/worker/src/reliability/retry.service.ts:36-67 | in every run, a job no operator retried reaches attempt 54 of such a policy only when the calendar is over |
| Lifecycle.EveryLabelSteps | apps/worker/src/worker/worker.service.ts:148-225 | whatever transaction runs, each job makes one of twelve moves, executions change only forward, counters rise only with a new execution row |
| Effects.CreateEffect | packages/database/prisma/schema.prisma:235 | a row is refused exactly for a used id, an unknown queue, no attempts, a delayed job whose instant has come or a key in use in its queue; an accepted one is unclaimed, and announced |
| Effects.PromoteEffect | apps/scheduler/src/scheduling/delayed-job-scheduler.ts:24-53 | promotion takes distinct SCHEDULED or RETRYING jobs of live queues whose instant has come, changes their status alone and announces each once |
| Effects.ClaimEffect | apps/worker/src/claiming/job-claim.service.ts:62-93 | a job is claimed exactly when it is QUEUED and due and its queue is active, not archived and has fewer CLAIMED and RUNNING jobs than its limit; status, worker and lease change |
| Effects.TransitionTable | apps/worker/src/state/job-state-machine.ts:3-18 | the six transitions it lets through, and no other |
| Effects.StartEffect | apps/worker/src/worker/worker.service.ts:148-174 | a CLAIMED job with attempts left starts its next attempt, whoever holds it; anything else changes nothing |
| Effects.HeartbeatEffect | apps/worker/src/worker/worker.service.ts:129-142 | exactly the worker's RUNNING jobs are leased anew |
| Effects.CompleteEffect | apps/worker/src/worker/worker.service.ts:192-225 | the execution of a RUNNING job is completed whatever its status was, the job only for its holder |
| Effects.BuriedEffect | apps/worker/src/reliability/retry.service.ts:81-96 | a dead letter has the attempts of the burial, keeps retriedAt, and its last execution unless another is named |
| Effects.FailEffect | apps/worker/src/reliability/retry.service.ts:21-97 | a failure counts while job and execution are RUNNING; retryable with attempts left it sends the holder's job to RETRYING or aborts for want of an instant; else it fails and buries the job, whoever holds it |
| Effects.RecoverEffect | apps/worker/src/reliability/recovery.service.ts:30-103 | recovery takes CLAIMED and RUNNING jobs whose lease has run out: RETRYING with attempts left, or an abort for want of an instant; parked and buried without |
| Effects.ReadEffect | apps/api/src/jobs/service.ts:251-276 | a cancel goes ahead for QUEUED and SCHEDULED jobs, a retry for FAILED and dead-lettered ones |
| Effects.OperatorEffect | apps/api/src/jobs/service.ts:259-289 | a cancel changes the status alone; a retry queues the job with its attempts and its instant, free of worker and lease |
| Effects.DeadLetterEffect | apps/api/src/dlq/service.ts:42-70 | a dead letter is retried if it has not been, and marked in the same step |
| Effects.QueueEffect | apps/api/src/queues/service.ts:111-136 | a queue is written with a positive limit, and an archived one stays archived |
| Counters.TalliesCount | apps/worker/src/reliability/recovery.service.ts:30-103 | the tallies that the theorems on runs speak of are a count of what the steps did to the row: one that leaves it alone leaves its tally alone, one that changes it is recorded once, under its own name |
| Counters.HandEffect | apps/worker/src/worker/worker.service.ts:66-92 | a claim gives its worker one claim in hand; a start, refused or not, and a drop take one; nothing else does either |
| Counters.StartNeedsHand | apps/worker/src/worker/worker.service.ts:73-74 | without a claim in hand a start does nothing |
| Counters.ExecutingEffect | apps/worker/src/worker/worker.service.ts:148-248 | an execution is in progress from its start until it crashes, is completed or has reported a failure; a refused completion leaves it in progress |
| Counters.PeakWasALimit | apps/api/src/queues/service.ts:79-109 | in every run the peak of a queue is one of the limits somebody gave it |
| History.NoStrandedJob | apps/worker/src/reliability/recovery.service.ts:49-101 | in every reachable state a job is finished, dead-lettered, waiting with an instant, queued with attempts left or leased to a worker; FAILED jobs are dead-lettered; an active job without a lease is exhausted, ownerless and dead-lettered |
| History.AttemptHistory | apps/worker/src/worker/worker.service.ts:149-174 | in every reachable state a job's executions are numbered exactly 1..attemptCount, each once, attemptCount <= maxAttempts, and a COMPLETED job has a COMPLETED execution |
| History.UniqueIndexNeverRefuses | packages/database/prisma/migrations/20260823084000_phase_1_relational_model/migration.sql:235 | a start succeeds if and only if the job is CLAIMED with attempts left; the unique (job, attempt) index never refuses one |
| History.ReportsAreFinal | apps/worker/src/reliability/retry.service.ts:25-34 | a COMPLETED or FAILED execution never changes again, in any continuation |
| History.StatusChangesAreExpected | apps/worker/src/state/job-state-machine.ts:3-18 | every status change of every run is one of the table's, a promotion, a retry after failure or expiry, a dead-lettered job's retry or a cancellation |
| Ledger.ClaimConservation | apps/worker/src/reliability/recovery.service.ts:30-103 | claims = completions + failures + recoveries + operator seizures + one if held, less failures reported after parking; without forced retries and late cancels there are no seizures |
| SingleAttempt.DisciplinedConservation | apps/worker/src/worker/worker.service.ts:192-225 | when operators retry only FAILED or parked jobs and no cancel comes late, claims = completions + failures + recoveries + one if a lease is held |
| Ledger.EventConservation | apps/scheduler/src/scheduling/delayed-job-scheduler.ts:24-53 | JOB_READY rows of a job = 1 + promotions; starts = attemptCount <= claims <= events + operator retries |
| SingleAttempt.SingleLiveAttempt | apps/worker/src/worker/worker.service.ts:148-225 | under the same discipline a job has at most one RUNNING execution, it is the current attempt, and waiting, queued, claimed, failed and parked jobs have none |
| OperatorRetries.RetryGuardIsExact | apps/api/src/jobs/service.ts:266-290 | an operator's retry keeps at most one RUNNING execution in every continuation if and only if no execution of the job is RUNNING at the write, or no attempts are left, or its queue is archived |
| OperatorRetries.CarefulOperatorsKeepOneAttempt | apps/api/src/dlq/service.ts:42-70 | in every run whose retries by hand all met that guard a job has at most one RUNNING execution, whatever else happened |
| OperatorRetries.ExhaustedNeverRunsAgain | packages/database/prisma/migrations/20260823084000_phase_1_relational_model/migration.sql:275 | a job without attempts left gets no further execution in any continuation, operator retries included |
| OperatorRetries.DeadLetterIsRetriedOnce | apps/api/src/dlq/service.ts:50-52 | once retried through the dead-letter endpoint a job is never retried there again, because a later burial keeps retriedAt |
| Fencing.CompletionReachesJob | apps/worker/src/worker/worker.service.ts:218-225 | a completion changes the job row exactly when its worker has not reported yet and owns the RUNNING job |
| Fencing.RecoveryFences | apps/worker/src/reliability/recovery.service.ts:41-72 | recovery leaves the execution it abandons without a claim on the job |
| Fencing.OwnershipNeedsClaim | apps/worker/src/claiming/job-claim.service.ts:82-89 | in any continuation a worker owns a job it did not own only by claiming it |
| Fencing.AbandonedIsFenced | apps/worker/src/worker/worker.service.ts:218-225 | after recovery, in every continuation in which the worker has not claimed the job again, its late completion or failure changes no job row |
| Termination.ChangesAreBounded | apps/worker/src/reliability/recovery.service.ts:49-101 | status changes and parkings so far plus the remaining potential <= 4 maxAttempts + 1 + 3 per lease expired before the start + 4 per operator retry + failures after parking; cancels cost nothing |
| Termination.UnretriedJobsComeToRest | apps/worker/src/worker/worker.service.ts:149-174 | without operator retries a job changes at most 4 maxAttempts + 1 + 3 E times, E counting leases that expire while CLAIMED, however often and late it is cancelled |
| Backoff.ScheduleNeverRewinds | apps/api/src/jobs/service.ts:276-289 | scheduledAt never decreases in any continuation, operator retries included |
| Backoff.NoEarlyClaimOrStart | apps/worker/src/claiming/job-claim.service.ts:72 | no step of any continuation claims or starts a job before the instant it is scheduled at now |
| Backoff.RetryingJobWaits | apps/worker/src/reliability/retry.service.ts:35-67 | after a job goes to RETRYING at attempt k nothing claims or starts it before delay(k) has passed, operators or not |
| AttemptSpacing.AttemptsAreSpaced | apps/worker/src/reliability/recovery.service.ts:49-71 | without operator retries attempt n starts no earlier than the first start plus delay(1) + ... + delay(n-1) |
| AttemptSpacing.ExponentialSpacing | apps/worker/src/reliability/retry-strategy.service.ts:21 | for an uncapped exponential policy that is init * (2^(n-1) - 1) |
| Starvation.ParkedStaysParked | apps/worker/src/reliability/recovery.service.ts:73-101 | a parked job no operator touches is the same row in every continuation |
| Starvation.StuckStays | apps/worker/src/reliability/recovery.service.ts:36-101 | a job in its slot that no process can start or report on, and that is parked, exhausted or beyond a storable retry instant, keeps its slot in every continuation in which no operator writes to it and no heartbeat shortens a lease |
| Starvation.ParkedIsStuck | apps/worker/src/reliability/recovery.service.ts:73-101 | a parked job that no operator has forced is such a job |
| Starvation.StuckJobsStarveQueue | apps/worker/src/claiming/job-claim.service.ts:73-77 | a queue whose limit is used up by such jobs can claim nothing, in any continuation in which operators leave them alone |
| Unblocking.UnstuckQueueGetsThere | apps/worker/src/claiming/job-claim.service.ts:66-80 | if fewer than the limit are stuck, processes that hold a claim or an execution, recovery and the clock alone can free a slot for any queued job that is due, without a heartbeat |
| Unblocking.StarvedExactly | apps/worker/src/claiming/job-claim.service.ts:66-80 | a queued, due job can be claimed in some continuation without operators, whose heartbeats shorten no lease, if and only if fewer jobs of its queue are stuck than its limit |
| Capacity.OnlyClaimsOccupy | apps/worker/src/claiming/job-claim.service.ts:73-77 | no step but a claim raises the number of CLAIMED and RUNNING jobs of a queue |
| Capacity.QueueCap | apps/worker/src/claiming/job-claim.service.ts:62-93 | with atomic claims the active jobs of a queue never exceed the largest limit it has had |
| ClaimConcurrency.CommitIsAllowed | apps/worker/src/claiming/job-claim.service.ts:48-93 | the update, which re-checks neither count nor limit, is still within the limit and on an eligible row when it commits |
| ClaimConcurrency.ActionRefines | apps/worker/src/claiming/job-claim.service.ts:26-97 | each statement of a claimer changes nothing or is one step of the atomic system |
| ClaimConcurrency.InterleavingRefinesAtomic | apps/worker/src/claiming/job-claim.service.ts:26-97 | every interleaving of claim statements with each other and with all other transactions reaches a state the atomic system reaches |
| ClaimConcurrency.QueueCapUnderConcurrency | apps/worker/src/claiming/job-claim.service.ts:48-95 | the queue cap holds under every such interleaving |
| ClaimConcurrency.ClaimGoesThrough | apps/worker/src/claiming/job-claim.service.ts:26-97 | the locks keep nothing out: a claimable job in a queue and a row that nobody holds is claimed by the five statements in turn, whoever else is under way |
| ClaimConcurrency.OthersGoThrough | apps/worker/src/claiming/job-claim.service.ts:49-60 | a claimer's locks delay another transaction only when that would change a queue or a row the claimer holds |
| ClaimSelection.FirstExists | apps/worker/src/claiming/job-claim.service.ts:63-81 | a queue with an eligible job has a first one by priority descending, createdAt, id |
| ClaimSelection.CandidateQueues | apps/worker/src/claiming/job-claim.service.ts:31-47 | an active queue, not archived, with a queued job that is due and let through by the filter is looked at, unless a hundred such queues have smaller ids |
| ClaimSelection.CandidateQueue | apps/worker/src/claiming/job-claim.service.ts:31-47 | and every queue that is looked at is such a queue |
| ClaimSelection.ClaimedIsUrgent | apps/worker/src/claiming/job-claim.service.ts:63-81 | no job of the same queue that could have been claimed has a higher priority than the claimed one, or the same and an earlier createdAt, or the same again and a smaller id |
| ClaimSelection.FirstQueueWithRoom | apps/worker/src/claiming/job-claim.service.ts:48-95 | every candidate queue with a smaller id, and every one when there is no answer, has as many CLAIMED and RUNNING jobs as its limit |
| ClaimSelection.SelectionIsBest | apps/worker/src/claiming/job-claim.service.ts:31-98 | the claimed job beats every other claimable job of the candidate queues by (queue id, priority, createdAt, id); nothing is claimed only if all claimable jobs lie beyond the first hundred candidate queues |
| Attendance.UnattendedStep | apps/worker/src/worker/worker.service.ts:66-248 | a job in its slot that no claim in hand can start and no pending report can move changes nothing but its lease, and that only by a heartbeat while it runs, in any step that is neither its recovery nor an operator's write; and it stays out of reach |
| Orphans.RunningJobsAreExecuted | apps/worker/src/worker/worker.service.ts:148-248 | in every reachable state a leased RUNNING job has exactly one execution for its current attempt; a worker carries it out exactly as long as it has not crashed, completed without holding the job, or failed without the retry being written; its row is RUNNING unless a worker other than the holder started it |
| Orphans.OrphansStay | apps/worker/src/worker/worker.service.ts:129-225 | a RUNNING job beyond every report stays the same row but for its lease in every continuation without an operator's write to it or its recovery |
| Orphans.OrphanLeaves | apps/worker/src/reliability/recovery.service.ts:30-103 | such a job stops being RUNNING and leased in the next step exactly when that step is its recovery or an operator's effective write |
| Orphans.HeartbeatsKeepOrphan | apps/worker/src/worker/worker.service.ts:129-142 | as long as its lease is renewed before it runs out, such a job stays RUNNING, leased and beyond every report in every continuation, whatever everybody else does |
| Witnesses.LateStartOrphansJob | apps/worker/src/worker/worker.service.ts:149-225 | a run after which the only execution is COMPLETED while the job is RUNNING, leased to another worker and beyond every report |
| Witnesses.CrashOrphansJob | apps/worker/src/worker/worker.service.ts:136-139 | a run after which the holder has crashed: the execution row is RUNNING, nothing executes it and no report can come |
| Witnesses.ParkedJobStarvesQueue | apps/worker/src/reliability/recovery.service.ts:73-101 | a run after which a parked job fills a queue of limit one and no continuation without operators can claim the job waiting in it |
| Witnesses.RetriedJobGetsStuck | apps/worker/src/reliability/retry.service.ts:35-67 | a run, at instant 0, of failures for good and retries by hand after which attempt n, for any n from 54 on, runs and can be neither retried nor recovered |
| Witnesses.DroppedClaimIsStuck | apps/worker/src/worker/worker.service.ts:66-73 | a run after which a job with attempts left is CLAIMED, in nobody's hands, and stuck: its recovery can never be recorded |
| Witnesses.DroppedClaimBlocksRecovery | apps/worker/src/worker/worker.service.ts:62 | once that job's lease has run out, no continuation that leaves it alone has a recovery batch of one that offers a lease still valid at that time |
| Witnesses.ForcedRetryRunsTwice | apps/api/src/jobs/service.ts:266-290 | a run with a forced operator retry after which a job has two RUNNING executions |
| Keys.RunKeepsKeys | packages/database/prisma/schema.prisma:235 | in every continuation a job keeps its queue and key and no two jobs of a queue share a key |
| JobCreation.ScheduleOf | apps/api/src/jobs/service.ts:21-104 | an input is accepted exactly when IMMEDIATE has no instant, DELAYED and SCHEDULED have a future one and BATCH has none or a future one |
| JobCreation.CreatedJob | apps/api/src/jobs/service.ts:56-135 | an accepted input becomes the row it asks for: its instant, exactly, or none; its key; its priority or the queue's; QUEUED or, for DELAYED and SCHEDULED, SCHEDULED; unclaimed, announced once |
| JobCreation.DelayedJobIsQueued | apps/scheduler/src/scheduling/delayed-job-scheduler.ts:24-41 | a DELAYED or SCHEDULED job of a live queue can be queued from its instant on, and not before |
| JobCreation.BatchRows | apps/api/src/jobs/service.ts:184-208 | every new row of a successful batch is the row its entry asks for, and that entry's answer |
| JobCreation.KeylessCreation | apps/api/src/jobs/service.ts:138-155 | a creation without a key, or with an empty one, adds the row it asks for, or fails for its schedule or because the empty key is in use; it never answers with another job |
| JobCreation.ExistingJobAnswers | apps/api/src/jobs/service.ts:140-147 | a key that a job of the queue carries answers with that job and adds nothing |
| JobCreation.ScheduleAnswers | apps/api/src/jobs/service.ts:148-151 | a key that no job but a cron schedule of the queue carries answers with that schedule and adds nothing |
| JobCreation.CreatedJobRetries | apps/api/src/jobs/service.ts:76-90 | its retries follow the policy copied from the queue, the same whatever is drawn; without a policy there is one attempt |
| JobCreation.SameKeySameJob | apps/api/src/jobs/service.ts:192-204 | entries of a successful batch with the same queue and key get the same job, which carries the key |
| JobCreation.BatchConserves | apps/api/src/jobs/service.ts:188-207 | a successful batch adds one row and one JOB_READY event, in order, per distinct unseen (queue, key) and per keyless entry, and nothing else |
| JobCreation.BatchSucceeds | apps/api/src/jobs/service.ts:188-207 | a batch succeeds exactly when every entry not answered by an existing job or an earlier entry has an acceptable schedule |
| JobCreation.ReplayIsNoOp | apps/api/src/jobs/service.ts:192-203 | replaying a fully keyed batch adds nothing and returns the jobs that carry the keys, whatever its schedules say by then |
| JobCreation.KeyedCreation | apps/api/src/jobs/service.ts:138-182 | a keyed createJob racing others answers with the one job that carries the key, fails only for its schedule, never with a conflict, and adds a row only if the key was free |
| JobCreation.AcceptsExactly | apps/api/src/jobs/service.ts:42-54 | an entry is let through exactly when its queue is the caller's and not archived |
| JobCreation.JobService.CheckQueues | apps/api/src/jobs/service.ts:42-54 | the error is that of the first entry whose queue is not the caller's (not found) or is archived (archived) |
| JobCreation.JobService.CreateBatch | apps/api/src/jobs/service.ts:184-208 | all or nothing: an error leaves the tables as they were, success leaves what the fold over the entries gives, each new row being the one its entry asks for |
| Idempotency.BatchIsRun | apps/api/src/jobs/service.ts:184-208 | a successful batch is a run of ordinary creations of the protocol |
| Idempotency.ReplayAfterAnything | apps/api/src/jobs/service.ts:192-203 | submit a fully keyed batch in any reachable state, let the system run on in any way, submit it again: the same ids, and no table changes |
| RecurringSchedules.CronAccounting | apps/scheduler/src/scheduling/recurring-schedule-service.ts:48-135 | over every run of any number of schedulers: fired occurrences are cron instants after creation and strictly increase, each has exactly one job for ever, and every instant up to the last firing was fired or lies between a fired occurrence and the instant it was fired |
| RecurringSchedules.FiredJob | apps/scheduler/src/scheduling/recurring-schedule-service.ts:111-133 | a firing creates one job, queued and due at once, with one JOB_READY event, whose retries wait for nothing |
| RecurringScheduler.ProcessingTurns | apps/scheduler/src/scheduling/recurring-schedule-service.ts:81-123 | processing turns one occurrence into one QUEUED job that carries it as instant and key, and moves the schedule to the next cron instant after now, leaving the rest of its row alone; or it changes nothing |
| DueSchedules.FiresExactly | apps/scheduler/src/scheduling/recurring-schedule-service.ts:54-123 | in every run, processing a schedule creates its job if and only if it is due and no job of its queue carries the key of its next occurrence, whoever wrote that key |
| DueSchedules.DueInColumns | apps/scheduler/src/scheduling/recurring-schedule-service.ts:58-72 | a schedule is due exactly when it is enabled, its instant has come by the transaction's NOW() and its queue is not archived |
| DueSchedules.AddedSchedule | apps/api/src/jobs/service.ts:105-122 | a schedule is made for a queue that is not archived, and waits for the first cron instant after now |
| DueSchedules.DeadStays | apps/scheduler/src/scheduling/recurring-schedule-service.ts:92-123 | a schedule whose next key is taken, whose queue is archived or which is disabled keeps its row and its firings in every continuation |
| DueSchedules.FiresAgainExactly | apps/scheduler/src/scheduling/recurring-schedule-service.ts:54-123 | a schedule fires in some continuation if and only if it is enabled, its queue is not archived and the key of its next occurrence is free |
| DueSchedules.CallersKeyStopsSchedule | apps/api/src/jobs/service.ts:138-182 | three acts of a caller after which an enabled schedule of a live queue never fires: make a queue, make the schedule, create a job with its next occurrence as key |
| DueSchedules.OnlyCallersTakeKeys | apps/scheduler/src/scheduling/recurring-schedule-service.ts:84-123 | in every run a next occurrence whose key is taken has it from a caller's creation of a job of that queue with that key: the schedulers never stand in their own way |
| DueSchedules.DeadSchedulesBlock | apps/scheduler/src/scheduling/recurring-schedule-service.ts:23-33 | as many enabled schedules that never fire again as a batch holds keep every schedule with a later instant out of the batches of every continuation |
| DueSchedules.ArchivingStopsCron | apps/scheduler/src/scheduling/recurring-schedule-service.ts:29-33 | for every batch size a run that archives one queue with that many schedules, after which no batch of any continuation offers a later instant of any queue |
| RecurringScheduler.Scheduler.ProcessRecurringSchedule | apps/scheduler/src/scheduling/recurring-schedule-service.ts:41-146 | reserving the occurrence before inserting the job, with rollback, does to the tables what the protocol's one step does |
| RecurringScheduler.Scheduler.ProcessCandidates | apps/scheduler/src/scheduling/recurring-schedule-service.ts:34-38 | of a candidate list of any age exactly the schedules that could fire at the start fire and are counted; each fires once, for the occurrence that was next, and no other schedule moves |
| RecurringScheduler.Scheduler.PromoteRecurringSchedules | apps/scheduler/src/scheduling/recurring-schedule-service.ts:19-39 | the batch is the enabled schedules due first, of whatever queues; exactly those of them that can fire do |
| Outbox.AtLeastOnce | apps/scheduler/src/events/outbox-publisher.ts:31-56 | under every interleaving a published event reached the broker, and sends never exceed attempts, those still pending included |
| OutboxPublisher.RowEffect | apps/scheduler/src/events/outbox-publisher.ts:33-54 | a row is reserved exactly while it is unpublished and free or its reservation is more than a minute old; reserving counts an attempt, publishing sets publishedAt, both publishing and releasing free the row |
| Outbox.EligibleAgain | apps/scheduler/src/events/outbox-publisher.ts:35-36 | an unpublished event is refused to publishers for at most a minute after its last reservation, whoever released it |
| Outbox.PublicationIsFinal | apps/scheduler/src/events/outbox-publisher.ts:50 | publishedAt never returns to null, a published event is never reserved again and only pending publishers can still send it, once each |
| Outbox.ReservationsAreExclusive | apps/scheduler/src/events/outbox-publisher.ts:31-56 | as long as every publisher settles within a minute of its own reservation at most one holds the event; and the next step can give it a second holder exactly when one is late |
| Outbox.StalePublisherStealsReservation | apps/scheduler/src/events/outbox-publisher.ts:52-54 | a run in which a stale release lets two publishers hold and deliver one event |
| Pages.Page | apps/scheduler/src/events/outbox-publisher.ts:33-40 | an ordered query with a limit answers the first rows, in order, and leaves out none that comes earlier |
| OutboxPublisher.CandidateExactly | apps/scheduler/src/events/outbox-publisher.ts:33-40 | the query looks at exactly the rows that are unpublished, free or reserved more than a minute ago, and not locked |
| Pages.PageIsUnique | apps/scheduler/src/scheduling/delayed-job-scheduler.ts:32-34 | with the id as tie-break it has one answer only |
| Pages.OnPageExactly | apps/worker/src/reliability/recovery.service.ts:9-15 | a row is in the answer if and only if fewer rows than the limit come before it |
| PromotionQueue.CandidateExactly | apps/scheduler/src/scheduling/delayed-job-scheduler.ts:24-35 | a row is a candidate if and only if it is SCHEDULED or RETRYING, its instant has come, its queue is not archived and it is not locked |
| PromotionQueue.PageExactly | apps/scheduler/src/scheduling/delayed-job-scheduler.ts:24-35 | a page lists such rows only, and leaves one out only when it is full of rows that are due earlier |
| PromotionQueue.RoomPromotesAll | apps/scheduler/src/scheduling/delayed-job-scheduler.ts:24-53 | a call whose batch has room, with nothing locked, queues every SCHEDULED and RETRYING job of a live queue whose instant has come |
| PromotionQueue.EveryCallCounts | apps/scheduler/src/scheduling/delayed-job-scheduler.ts:5-56 | while a job whose instant is past waits, in any run, batchSize per call that finds nothing locked plus the jobs still before it are at most the jobs that were before it: nobody overtakes it |
| PromotionQueue.PromotedInTime | apps/scheduler/src/scheduling/delayed-job-scheduler.ts:5-56 | with d jobs before it, it has been promoted after d / batchSize + 1 such calls, unless an operator took it away or archived its queue |
| RecoveryQueue.RecoveredExactly | apps/worker/src/reliability/recovery.service.ts:8-21 | a batch recovers an expired job if and only if fewer leases than the batch holds ran out before its own and its next instant can be stored |
| RecoveryQueue.RecoveryProceeds | apps/worker/src/reliability/recovery.service.ts:8-21 | with fewer unrecoverable expired jobs than a batch holds, a batch recovers something as long as anything can be recovered |
| RecoveryQueue.BlockerStays | apps/worker/src/reliability/recovery.service.ts:49-63 | an expired job with attempts left whose next instant is no Date, and which nobody will start or report on, is the same row in every continuation without an operator's write to it or a heartbeat for it |
| RecoveryQueue.RecoveryStops | apps/worker/src/reliability/recovery.service.ts:9-15 | as many such jobs as a batch holds: no batch of any such continuation offers a lease that was still valid then |
| OutboxBacklog.OlderEventsCrowdOut | apps/scheduler/src/events/outbox-publisher.ts:33-40 | with as many older eligible events as a batch holds, an event is left out |
| OutboxBacklog.OldEventIsTaken | apps/scheduler/src/events/outbox-publisher.ts:33-40 | with fewer that are as old, it is taken |
| OutboxBacklog.FailingEventsBlock | apps/scheduler/src/events/outbox-publisher.ts:30-56 | as many events as a batch holds, each released after a failed send, keep a lone publisher from a later event for ever, whatever is written and however often it tries |
| OutboxPublisher.Publisher.ReserveBatch | apps/scheduler/src/events/outbox-publisher.ts:31-45 | the oldest eligible events that nobody has locked, up to the batch size, are reserved, one attempt each, and no other row changes |
| OutboxPublisher.Publisher.PublishOne | apps/scheduler/src/events/outbox-publisher.ts:48-55 | an event is sent once and ends published, released, or still reserved when even the release fails |
| OutboxPublisher.Publisher.PublishBatch | apps/scheduler/src/events/outbox-publisher.ts:30-58 | a batch is a run of the outbox protocol; without a producer it returns 0 with the rows reserved; otherwise each event is settled in order up to the first whose error cannot be recorded |
| RateLimiter.Redis.AllowRequest | apps/api/src/common/rate-limiter.ts:7-22 | the commands it sends leave the counters, and give the answer, of the request function |
| RateLimiter.CountersAreExact | apps/api/src/common/rate-limiter.ts:14-16 | a counter equals the requests of its key in its window and never expires before the window ends |
| RateLimiter.AlignedWindow | apps/api/src/common/rate-limiter.ts:14-17 | with Redis up exactly min(limit, requests) pass per key and aligned window; each request answered without Redis adds at most one |
| RateLimiter.FailOpen | apps/api/src/common/rate-limiter.ts:12-21 | whatever happens to Redis, the first `limit` requests it counts in a window pass, and so does every request it never hears of |
| RateLimiter.ErrorsLetThrough | apps/api/src/common/rate-limiter.ts:15-21 | a lost INCR lets its request through, a lost EXPIRE the first one of a window; any other request passes exactly when fewer than the limit were counted before it |
| RateLimiter.TwiceTheLimit | apps/api/src/common/rate-limiter.ts:14-17 | at most twice the limit passes in any half-open interval of the window's length, plus the requests answered without Redis |
| RateLimiter.TwiceIsReached | apps/api/src/common/rate-limiter.ts:14-17 | two requests one millisecond apart that both pass a limit of one |
| WorkerLocal.StepKeepsBound | apps/worker/src/worker/worker.service.ts:58-92 | every step keeps one poller at most, and active jobs plus claims in flight within concurrency plus hints |
| WorkerLocal.LocalWorkerBound | apps/worker/src/worker/worker.service.ts:58-92 | over every interleaving of pollers, hints, settling executions and shutdown, activeJobs.size <= concurrency + k |
| WorkerLocal.BoundIsReached | apps/worker/src/worker/worker.service.ts:58-92 | for every concurrency of at least one and every k a run, without a job claimed twice, with concurrency + k jobs executing at once |
| WorkerLocal.ExecutionsBounded | apps/worker/src/worker/worker.service.ts:71-91 | the map shows every live execution throughout a run if and only if the run never launches a job that is still executing here; their number then obeys the bound too |
| WorkerLocal.ReclaimsAreUnbounded | apps/worker/src/worker/worker.service.ts:71-73 | otherwise the process can execute any number of attempts while the map shows one |
| WorkerLocal.ShutdownDrains | apps/worker/src/worker/worker.service.ts:58-92 | once claims are refused no poll, recovery, claim or hint begins in any continuation, and executions plus waiting hints never grow |
| WorkerLocal.WorkerService.BeginPoll | apps/worker/src/worker/worker.service.ts:58-60 | a poll that starts finds no other poll in progress |
| WorkerLocal.WorkerService.AfterRecovery | apps/worker/src/worker/worker.service.ts:61-63 | the loop is entered only with spare concurrency; an error ends the poll and clears the flag |
| WorkerLocal.WorkerService.AfterClaim | apps/worker/src/worker/worker.service.ts:63-77 | a claim is launched unless the worker is shutting down, and the loop goes on |
| WorkerLocal.WorkerService.BeginHint | apps/worker/src/worker/worker.service.ts:80-81 | a hint claims only with spare concurrency |
| WorkerLocal.WorkerService.AfterHintClaim | apps/worker/src/worker/worker.service.ts:82-91 | a hint's claim is launched even while the worker is shutting down |
| WorkerLocal.WorkerService.Settle | apps/worker/src/worker/worker.service.ts:91 | a settled execution removes its job's key, whichever execution the key stood for |
| Store.Store.PromoteDueJobs | apps/scheduler/src/scheduling/delayed-job-scheduler.ts:5-56 | the earliest due jobs that nobody has locked, at most batchSize, become QUEUED with one JOB_READY row each in that order; if fewer, no SCHEDULED or RETRYING job whose instant has come is left but locked ones and those of archived queues; every other row is untouched |
| Store.Store.ClaimNextJob | apps/worker/src/claiming/job-claim.service.ts:20-99 | with no row locked elsewhere it selects the first hundred candidate queues and claims, in the least-id one with capacity, the job of highest priority, oldest createdAt and least id; it returns nothing only when every one of them is full |
| Store.Store.StartExecution | apps/worker/src/worker/worker.service.ts:148-174 | the inserted execution is rolled back when the attempt check refuses the job row |
| Store.Store.Heartbeat | apps/worker/src/worker/worker.service.ts:129-142 | exactly the RUNNING jobs of the worker's identifier get a lease that recovery can take exactly when leaseMs is over; no other row and no other column changes |
| Store.Store.CompleteExecution | apps/worker/src/worker/worker.service.ts:192-226 | the execution is completed whatever its status was; the job only if still RUNNING and still this worker's |
| Store.Store.RecordExecutionFailure | apps/worker/src/reliability/retry.service.ts:13-99 | a late report is ignored; otherwise retry, or FAILED with a dead-letter row, or nothing at all when the retry instant is invalid |
| Store.Store.TopRunning | apps/worker/src/reliability/recovery.service.ts:36-41 | the RUNNING execution with the highest attempt, if there is one |
| Store.Store.RecoverExpiredJob | apps/worker/src/reliability/recovery.service.ts:23-112 | abandon, then retry or park, or nothing at all when the retry instant is invalid; the answer says which |
| Store.Store.RecoverCandidates | apps/worker/src/reliability/recovery.service.ts:16-20 | of a candidate list of any age exactly the expired, recoverable jobs are recovered and counted; exactly their top RUNNING executions are abandoned; exactly the exhausted ones are buried, with that execution and their attempts; no other row changes |
| Store.Store.RecoverExpiredJobs | apps/worker/src/reliability/recovery.service.ts:8-21 | the same of the batch, which is the expired leases that ran out first, recoverable or not |
| Store.Store.CancelJob | apps/api/src/jobs/service.ts:251-264 | QUEUED and SCHEDULED jobs are cancelled; an unknown, a COMPLETED, a RUNNING and any other job each give their own error and change nothing |
| Store.Store.RetryJob | apps/api/src/jobs/service.ts:266-290 | a FAILED or dead-lettered job is requeued with its attempts and schedule kept; an unknown one and any other each give their own error |
| Store.Store.RetryDeadLetter | apps/api/src/dlq/service.ts:42-70 | a dead letter is retried once; the job is requeued in the same transaction; an unknown one and a retried one each give their own error |

## Left out

- Where a query leaves ties open (events of the same instant), the methods break them by id; `OutboxPublisher.IsSelection` allows any order.
- The gap between read and write inside start, complete, fail and recover under READ COMMITTED: these transactions are atomic here.
- CRON entries of createJob and createBatch: a schedule row is added by a label of module RecurringSchedules instead.
- JobCreation.CreateJob is a function of two snapshots, not a method: other callers commit between its lookup and its transaction.
- The empty idempotency key: the request schema forbids it; `JobCreation.LooksUp` treats it as the code does, but BatchSucceeds and the replay lemmas assume it away.
- A concurrent insert of the same key while a batch runs: the unique violation aborts the whole batch, which is then as if it had not been submitted.
- Unblocking.StarvedExactly: its "some continuation" lets recovery take any expired job, while the code offers the first max(1, concurrency) leases; when those are blocked for ever is stated by `RecoveryQueue.RecoveryStops`, in terms of the jobs of all queues.
- Unblocking.UnstuckQueueGetsThere: the same.
- OutboxBacklog.FailingEventsBlock: one publisher that works alone; several publishers skip each other's locked and reserved rows, so each further one takes a batch further down.
- The end of a worker process by an unhandled rejection: a crash is a label anybody may take at any time.
- Enabling, disabling and editing schedules after creation: no code does it.
- Worker registration, worker status and stale-worker cleanup: a worker is its identifier.
- Job logs, payloads, outputs, error texts and durations: no guard reads them.
- The unique index on the last execution of a dead letter: a dead letter only ever names executions of its own job.
- A request that reads the clock in one window and reaches Redis after that window's counter expired: a request happens at one instant.
- Kafka topics, consumer groups and the broker: the broker may lose, repeat and reorder; consumers only trigger claims.
- The dashboard, routes, serializers, authentication, audit log, metrics, health checks and retention scripts.
- Process timers, start and the wait for active jobs during shutdown.
