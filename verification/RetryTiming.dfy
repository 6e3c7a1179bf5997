// When the next attempt of a job is due: what a failure and a recovery write into scheduledAt, read off
// the tables before and after.
module RetryTiming {
  import opened Wrappers
  import opened RetryStrategy
  import opened Tables
  import opened Protocol
  import T = Transactions

  // Null columns mean FIXED, no delay and no jitter; a null cap is no cap.
  lemma NullColumns(retry: RetryColumns)
    ensures
      var c := PolicyOf(retry);
      && c.strategy == (if retry.strategy.None? then Fixed else retry.strategy.value)
      && c.initialDelayMs == (if retry.initialDelayMs.None? then 0 else retry.initialDelayMs.value)
      && c.maxDelayMs == retry.maxDelayMs
      && c.jitterMs == (if retry.jitterMs.None? then 0 else retry.jitterMs.value)
  {
  }

  // The instant lies between the delay of the attempt and that plus the jitter, is the delay exactly when
  // there is no jitter, and can be written into a Date.
  ghost predicate DueAfterDelay(before: Job, now: Time, at: Time) {
    var c := PolicyOf(before.retry);
    var delay := PlainDelay(c, before.attemptCount);
    && delay.Finite? && now + delay.value <= at <= now + delay.value + Max(0, c.jitterMs)
    && at <= now + 9007199254740991 && at <= 8640000000000000
    && (c.jitterMs <= 0 ==> at == now + delay.value)
  }

  lemma InstantIsDelayed(job: Job, now: Time, roll: nat)
    requires RetryInstant(job, now, roll).Some?
    ensures DueAfterDelay(job, now, RetryInstant(job, now, roll).value)
  {
    var c := PolicyOf(job.retry);
    DelayIsANumber(c, job.attemptCount, 0);
    DelayIsANumber(c, job.attemptCount, Draw(c, roll));
  }

  // Every instant of that range can come up.
  lemma EveryInstantIsDrawn(job: Job, now: Time, extra: nat)
    requires extra <= Max(0, PolicyOf(job.retry).jitterMs) && PlainDelay(PolicyOf(job.retry), job.attemptCount).Finite?
    ensures
      var at := now + Min(9007199254740991, PlainDelay(PolicyOf(job.retry), job.attemptCount).value + extra);
      RetryInstant(job, now, extra) == if at <= 8640000000000000 then Some(at) else None
  {
    DelayIsANumber(PolicyOf(job.retry), job.attemptCount, 0);
  }

  // The row a failure sends to RETRYING.
  lemma FailureSchedules(db: Db, x: ExecId, retryable: bool, roll: nat, j: JobId)
    requires j in db.jobs && !db.jobs[j].status.Retrying?
    requires T.Fail(db, x, retryable, RetryInstantOf(db, x, roll)).jobs[j].status.Retrying?
    ensures
      var after := T.Fail(db, x, retryable, RetryInstantOf(db, x, roll)).jobs[j];
      after.scheduledAt.Some? && DueAfterDelay(db.jobs[j], db.now, after.scheduledAt.value)
  {
    InstantIsDelayed(db.jobs[j], db.now, roll);
  }

  // ... and the row a recovery does.
  lemma RecoverySchedules(db: Db, k: JobId, top: Option<ExecId>, roll: nat, j: JobId)
    requires j in db.jobs && !db.jobs[j].status.Retrying?
    requires T.Recover(db, k, top, RetryInstantFor(db, k, roll)).jobs[j].status.Retrying?
    ensures
      var after := T.Recover(db, k, top, RetryInstantFor(db, k, roll)).jobs[j];
      after.scheduledAt.Some? && DueAfterDelay(db.jobs[j], db.now, after.scheduledAt.value)
  {
    InstantIsDelayed(db.jobs[j], db.now, roll);
  }
}
