// The rows the job lifecycle reads and writes (packages/database/prisma/schema.prisma), with the
// columns that no guard and no property depends on dropped.
module Tables {
  import opened Wrappers
  import opened RetryStrategy

  type JobId = nat
  type ExecId = nat
  type QueueId = nat
  type WorkerId = nat

  // The largest instant a JavaScript Date can hold; the client refuses to write a later one.
  const MAX_DATE: Time := 8640000000000000

  datatype JobStatus =
    Scheduled | Queued | Claimed | Running | Completed | Failed | Retrying | Cancelled

  datatype ExecStatus = ExecRunning | ExecCompleted | ExecFailed | ExecAbandoned

  // An idempotency key is chosen by an API caller or derived from a cron occurrence.
  datatype Key = CallerKey(text: string) | OccurrenceKey(schedule: nat, occurrence: Time)

  datatype RetryColumns = RetryColumns(
    strategy: Option<Strategy>,
    initialDelayMs: Option<int>,
    maxDelayMs: Option<int>,
    jitterMs: Option<int>)

  datatype Job = Job(
    queueId: QueueId,
    priority: nat,
    status: JobStatus,
    attemptCount: nat,
    maxAttempts: nat,
    retry: RetryColumns,
    scheduledAt: Option<Time>,
    createdAt: Time,
    workerId: Option<WorkerId>,
    leaseExpiresAt: Option<Time>,
    idempotencyKey: Option<Key>)

  datatype Exec = Exec(jobId: JobId, workerId: WorkerId, attempt: nat, status: ExecStatus, startedAt: Time)

  datatype DeadLetter = DeadLetter(lastExecution: Option<ExecId>, attemptCount: nat, retriedAt: Option<Time>)

  datatype Queue = Queue(active: bool, archived: bool, concurrencyLimit: nat)

  // `ready` lists the aggregate ids of the JOB_READY outbox rows in insertion order; the
  // reservation columns of those rows are the business of module Outbox.
  datatype Db = Db(
    now: Time,
    queues: map<QueueId, Queue>,
    jobs: map<JobId, Job>,
    execs: map<ExecId, Exec>,
    dead: map<JobId, DeadLetter>,
    ready: seq<JobId>)

  const EMPTY_DB := Db(0, map[], map[], map[], map[], [])

  predicate Occupies(job: Job) {
    job.status.Claimed? || job.status.Running?
  }

  // A claim that nobody has resolved yet.
  predicate Held(job: Job) {
    Occupies(job) && job.leaseExpiresAt.Some?
  }

  // What recovery leaves behind when attempts are exhausted: the status is untouched.
  predicate Parked(job: Job) {
    Occupies(job) && job.leaseExpiresAt.None?
  }

  predicate IsDue(job: Job, at: Time) {
    job.scheduledAt.None? || job.scheduledAt.value <= at
  }

  // The jobs that count against a queue's concurrency limit.
  function ActiveJobs(jobs: map<JobId, Job>, q: QueueId): set<JobId> {
    set j | j in jobs && jobs[j].queueId == q && Occupies(jobs[j])
  }

  predicate Keyed(db: Db, j: JobId, q: QueueId, key: Key) {
    j in db.jobs && db.jobs[j].queueId == q && db.jobs[j].idempotencyKey == Some(key)
  }

  // The unique index on (queue, idempotency key).
  ghost predicate KeysUnique(db: Db) {
    forall j, k, q, key :: Keyed(db, j, q, key) && Keyed(db, k, q, key) ==> j == k
  }

  predicate RunsFor(db: Db, x: ExecId, j: JobId) {
    x in db.execs && db.execs[x].jobId == j && db.execs[x].status.ExecRunning?
  }

  predicate IsAttempt(db: Db, x: ExecId, j: JobId, n: nat) {
    x in db.execs && db.execs[x].jobId == j && db.execs[x].attempt == n
  }

  predicate HasAttempt(db: Db, j: JobId, n: nat) {
    exists x :: x in db.execs && IsAttempt(db, x, j, n)
  }

  // The execution that a query for RUNNING rows, attempt descending, limit one returns.
  predicate IsTopRunning(db: Db, j: JobId, top: Option<ExecId>) {
    match top
    case None => forall x :: x in db.execs ==> !RunsFor(db, x, j)
    case Some(t) =>
      RunsFor(db, t, j)
      && forall x :: x in db.execs && RunsFor(db, x, j) ==> db.execs[x].attempt <= db.execs[t].attempt
  }

  // The retry columns with the defaults the code applies to nulls.
  function PolicyOf(retry: RetryColumns): RetryConfiguration {
    RetryConfiguration(
      if retry.strategy.Some? then retry.strategy.value else Fixed,
      if retry.initialDelayMs.Some? then retry.initialDelayMs.value else 0,
      retry.maxDelayMs,
      if retry.jitterMs.Some? then retry.jitterMs.value else 0)
  }

  // new Date(now + delay), or None when that is an Invalid Date and the write is refused.
  function RetryInstant(job: Job, now: Time, roll: nat): Option<Time> {
    var c := PolicyOf(job.retry);
    var delay := DelayWith(c, job.attemptCount, Draw(c, roll));
    if delay.Finite? && now + delay.value <= MAX_DATE then Some(now + delay.value) else None
  }
}
