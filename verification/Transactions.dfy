// The database transactions of the job lifecycle, each as one function from the tables before to
// the tables after.  A transaction whose guard fails, or that a constraint refuses, leaves every
// table as it was.
module Transactions {
  import opened Wrappers
  import opened Tables
  import JobStateMachine

  // ---- apps/api/src/jobs/service.ts: createOne; recurring-schedule-service.ts: job create ----

  datatype NewJob = NewJob(
    queueId: QueueId,
    priority: nat,
    immediate: bool,
    maxAttempts: nat,
    retry: RetryColumns,
    scheduledAt: Option<Time>,
    idempotencyKey: Option<Key>)

  predicate KeyTaken(db: Db, q: QueueId, key: Key) {
    exists j :: j in db.jobs && Keyed(db, j, q, key)
  }

  // A job that is not immediate carries a future scheduledAt; max_attempts is positive; the
  // (queue, key) pair is unique.
  predicate CanCreate(db: Db, j: JobId, row: NewJob) {
    && j !in db.jobs && row.queueId in db.queues && row.maxAttempts >= 1
    && (!row.immediate ==> row.scheduledAt.Some? && row.scheduledAt.value > db.now)
    && (row.idempotencyKey.Some? ==> !KeyTaken(db, row.queueId, row.idempotencyKey.value))
  }

  function FreshJob(row: NewJob, now: Time): Job {
    Job(row.queueId, row.priority, if row.immediate then Queued else Scheduled, 0, row.maxAttempts,
        row.retry, row.scheduledAt, now, None, None, row.idempotencyKey)
  }

  function Create(db: Db, j: JobId, row: NewJob): Db {
    if CanCreate(db, j, row) then
      db.(jobs := db.jobs[j := FreshJob(row, db.now)], ready := db.ready + [j])
    else db
  }

  // ---- apps/scheduler/src/scheduling/delayed-job-scheduler.ts ----

  predicate CanPromote(db: Db, j: JobId, at: Time) {
    && j in db.jobs && (db.jobs[j].status.Scheduled? || db.jobs[j].status.Retrying?)
    && db.jobs[j].scheduledAt.Some? && db.jobs[j].scheduledAt.value <= at
    && db.jobs[j].queueId in db.queues && !db.queues[db.jobs[j].queueId].archived
  }

  predicate Distinct(ids: seq<JobId>) {
    forall a, b :: 0 <= a < b < |ids| ==> ids[a] != ids[b]
  }

  // SKIP LOCKED makes any selection of due rows possible; `at` is the transaction's NOW().
  predicate CanPromoteAll(db: Db, ids: seq<JobId>, at: Time) {
    at <= db.now && Distinct(ids) && forall j :: j in ids ==> CanPromote(db, j, at)
  }

  function Promoted(jobs: map<JobId, Job>, ids: seq<JobId>): map<JobId, Job> {
    map j | j in jobs :: if j in ids then jobs[j].(status := Queued) else jobs[j]
  }

  function Promote(db: Db, ids: seq<JobId>, at: Time): Db {
    if CanPromoteAll(db, ids, at) then
      db.(jobs := Promoted(db.jobs, ids), ready := db.ready + ids)
    else db
  }

  // ---- apps/worker/src/claiming/job-claim.service.ts ----

  predicate CanClaimRow(db: Db, j: JobId, at: Time) {
    j in db.jobs && db.jobs[j].status.Queued? && IsDue(db.jobs[j], at)
  }

  predicate HasCapacity(db: Db, q: QueueId) {
    && q in db.queues && db.queues[q].active && !db.queues[q].archived
    && |ActiveJobs(db.jobs, q)| < db.queues[q].concurrencyLimit
  }

  // `at` is the claiming transaction's NOW(), taken before it waited for its locks.
  predicate CanClaim(db: Db, j: JobId, at: Time) {
    at <= db.now && CanClaimRow(db, j, at) && HasCapacity(db, db.jobs[j].queueId)
  }

  function ClaimedJob(job: Job, w: WorkerId, leaseMs: nat, at: Time): Job {
    job.(status := Claimed, workerId := Some(w), leaseExpiresAt := Some(at + leaseMs))
  }

  function Claim(db: Db, j: JobId, w: WorkerId, leaseMs: nat, at: Time): Db {
    if CanClaim(db, j, at) then
      db.(jobs := db.jobs[j := ClaimedJob(db.jobs[j], w, leaseMs, at)])
    else db
  }

  // ---- apps/worker/src/worker/worker.service.ts ----

  // The state machine is consulted, the unique (job, attempt) index and the check
  // attempt_count <= max_attempts may refuse; the claimed worker is not compared.
  predicate CanStart(db: Db, j: JobId, x: ExecId) {
    && j in db.jobs && JobStateMachine.Permits(db.jobs[j].status, Running) && x !in db.execs
    && !HasAttempt(db, j, db.jobs[j].attemptCount + 1)
    && db.jobs[j].attemptCount + 1 <= db.jobs[j].maxAttempts
  }

  function Start(db: Db, j: JobId, w: WorkerId, x: ExecId): Db {
    if CanStart(db, j, x) then
      var attempt := db.jobs[j].attemptCount + 1;
      db.(execs := db.execs[x := Exec(j, w, attempt, ExecRunning, db.now)],
          jobs := db.jobs[j := db.jobs[j].(status := Running, attemptCount := attempt)])
    else db
  }

  function Heartbeat(db: Db, w: WorkerId, leaseMs: nat): Db {
    db.(jobs := map j | j in db.jobs ::
          if db.jobs[j].workerId == Some(w) && db.jobs[j].status.Running?
          then db.jobs[j].(leaseExpiresAt := Some(db.now + leaseMs))
          else db.jobs[j])
  }

  predicate CanComplete(db: Db, x: ExecId) {
    x in db.execs && db.execs[x].jobId in db.jobs
    && JobStateMachine.Permits(db.jobs[db.execs[x].jobId].status, Completed)
  }

  // The conditional UPDATE of the job row matches: still RUNNING and still this worker's.
  predicate OwnsRunning(db: Db, x: ExecId)
    requires x in db.execs
  {
    var j := db.execs[x].jobId;
    j in db.jobs && db.jobs[j].status.Running? && db.jobs[j].workerId == Some(db.execs[x].workerId)
  }

  // The execution row is updated whatever its status was.
  function Complete(db: Db, x: ExecId): Db {
    if CanComplete(db, x) then
      var j := db.execs[x].jobId;
      db.(execs := db.execs[x := db.execs[x].(status := ExecCompleted)],
          jobs := if OwnsRunning(db, x)
                  then db.jobs[j := db.jobs[j].(status := Completed, leaseExpiresAt := None)]
                  else db.jobs)
    else db
  }

  // ---- apps/worker/src/reliability/retry.service.ts ----

  predicate CanFail(db: Db, x: ExecId) {
    x in db.execs && db.execs[x].status.ExecRunning?
    && db.execs[x].jobId in db.jobs && db.jobs[db.execs[x].jobId].status.Running?
  }

  predicate WantsRetry(job: Job, retryable: bool) {
    retryable && job.attemptCount < job.maxAttempts
  }

  function Rescheduled(job: Job, retryAt: Time): Job {
    job.(status := Retrying, scheduledAt := Some(retryAt), workerId := None, leaseExpiresAt := None)
  }

  function Buried(dead: map<JobId, DeadLetter>, j: JobId, x: Option<ExecId>, attempts: nat): map<JobId, DeadLetter> {
    if j in dead
    then dead[j := DeadLetter(if x.Some? then x else dead[j].lastExecution, attempts, dead[j].retriedAt)]
    else dead[j := DeadLetter(x, attempts, None)]
  }

  // `retryAt` is the instant computed for a retry; None aborts the transaction when one is wanted.
  predicate FailureCommits(db: Db, x: ExecId, retryable: bool, retryAt: Option<Time>) {
    CanFail(db, x) && (WantsRetry(db.jobs[db.execs[x].jobId], retryable) ==> retryAt.Some?)
  }

  // The UPDATE of the job row matches: a retry must still own the job, a burial need not.
  predicate FailureReachesJob(db: Db, x: ExecId, retryable: bool)
    requires CanFail(db, x)
  {
    WantsRetry(db.jobs[db.execs[x].jobId], retryable) ==> OwnsRunning(db, x)
  }

  function FailedJob(job: Job, retryable: bool, retryAt: Option<Time>): Job
    requires WantsRetry(job, retryable) ==> retryAt.Some?
  {
    if WantsRetry(job, retryable) then Rescheduled(job, retryAt.value)
    else job.(status := Failed, leaseExpiresAt := None)
  }

  function Fail(db: Db, x: ExecId, retryable: bool, retryAt: Option<Time>): Db {
    if FailureCommits(db, x, retryable, retryAt) then
      var j := db.execs[x].jobId;
      var job := db.jobs[j];
      db.(execs := db.execs[x := db.execs[x].(status := ExecFailed)],
          jobs := if FailureReachesJob(db, x, retryable)
                  then db.jobs[j := FailedJob(job, retryable, retryAt)]
                  else db.jobs,
          dead := if WantsRetry(job, retryable) then db.dead else Buried(db.dead, j, Some(x), job.attemptCount))
    else db
  }

  // ---- apps/worker/src/reliability/recovery.service.ts ----

  predicate CanRecover(db: Db, j: JobId) {
    j in db.jobs && Held(db.jobs[j]) && db.jobs[j].leaseExpiresAt.value < db.now
  }

  function Abandoned(execs: map<ExecId, Exec>, top: Option<ExecId>): map<ExecId, Exec>
    requires top.Some? ==> top.value in execs
  {
    if top.Some? then execs[top.value := execs[top.value].(status := ExecAbandoned)] else execs
  }

  // `top` is the execution the include query returned.
  predicate RecoveryCommits(db: Db, j: JobId, top: Option<ExecId>, retryAt: Option<Time>) {
    && CanRecover(db, j) && IsTopRunning(db, j, top)
    && (db.jobs[j].attemptCount < db.jobs[j].maxAttempts ==> retryAt.Some?)
  }

  function RecoveredJob(job: Job, retryAt: Option<Time>): Job
    requires job.attemptCount < job.maxAttempts ==> retryAt.Some?
  {
    if job.attemptCount < job.maxAttempts then Rescheduled(job, retryAt.value)
    else job.(workerId := None, leaseExpiresAt := None)
  }

  function Recover(db: Db, j: JobId, top: Option<ExecId>, retryAt: Option<Time>): Db {
    if RecoveryCommits(db, j, top, retryAt) then
      var job := db.jobs[j];
      db.(execs := Abandoned(db.execs, top),
          jobs := db.jobs[j := RecoveredJob(job, retryAt)],
          dead := if job.attemptCount < job.maxAttempts then db.dead else Buried(db.dead, j, top, job.attemptCount))
    else db
  }

  // ---- apps/api/src/jobs/service.ts: cancelJob, retryJob; apps/api/src/dlq/service.ts ----

  predicate Cancellable(job: Job) {
    job.status.Queued? || job.status.Scheduled?
  }

  // The unconditional write that follows the status check.
  function CancelWrite(db: Db, j: JobId): Db {
    if j in db.jobs then db.(jobs := db.jobs[j := db.jobs[j].(status := Cancelled)]) else db
  }

  predicate OperatorRetryable(db: Db, j: JobId) {
    j in db.jobs && (db.jobs[j].status.Failed? || j in db.dead)
  }

  function Requeued(job: Job): Job {
    job.(status := Queued, workerId := None, leaseExpiresAt := None)
  }

  function RetryWrite(db: Db, j: JobId): Db {
    if j in db.jobs then db.(jobs := db.jobs[j := Requeued(db.jobs[j])]) else db
  }

  predicate CanRetryDeadLetter(db: Db, j: JobId) {
    j in db.dead && j in db.jobs && db.dead[j].retriedAt.None?
  }

  function RetryDeadLetter(db: Db, j: JobId): Db {
    if CanRetryDeadLetter(db, j) then
      db.(dead := db.dead[j := db.dead[j].(retriedAt := Some(db.now))],
          jobs := db.jobs[j := Requeued(db.jobs[j])])
    else db
  }
}
