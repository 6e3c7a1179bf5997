// Retries wait: no claim or start before the instant a job was rescheduled to, and the starts of a
// job's attempts are spaced by the retry policy.
module Backoff {
  import opened Wrappers
  import opened RetryStrategy
  import opened Tables
  import opened Protocol
  import opened JobMoves
  import opened Lifecycle
  import opened History
  import T = Transactions

  // The wait the policy columns ask for after attempt n, jitter aside.
  function PolicyDelay(retry: RetryColumns, n: nat): int {
    DelayOrZero(PlainDelay(PolicyOf(retry), n))
  }

  predicate ClaimsOrStarts(before: Job, after: Job) {
    (Occupies(after) && !Occupies(before)) || after.attemptCount != before.attemptCount
  }

  // ---- scheduledAt never moves back ----

  lemma MoveNeverRewinds(job: Job, buried: bool, now: Time, m: Move)
    requires RowOk(job, buried, now) && Enabled(job, buried, now, m)
    ensures job.scheduledAt.Some? ==>
      After(job, now, m).scheduledAt.Some? && job.scheduledAt.value <= After(job, now, m).scheduledAt.value
    ensures After(job, now, m).retry == job.retry
    ensures ClaimsOrStarts(job, After(job, now, m)) ==> IsDue(job, now)
  {
  }

  lemma StepNeverRewinds(s: Sys, t: Sys, newcomer: Option<ExecId>, j: JobId)
    requires RowsOk(s.db) && Step(s, t, newcomer) && j in s.db.jobs
    ensures j in t.db.jobs && t.db.jobs[j].retry == s.db.jobs[j].retry
    ensures s.db.jobs[j].scheduledAt.Some? ==>
      t.db.jobs[j].scheduledAt.Some? && s.db.jobs[j].scheduledAt.value <= t.db.jobs[j].scheduledAt.value
    ensures ClaimsOrStarts(s.db.jobs[j], t.db.jobs[j]) ==> IsDue(s.db.jobs[j], s.db.now)
  {
    assert HasMove(s, t, j);
    var m :| Moves(s, t, j, m);
    MoveNeverRewinds(s.db.jobs[j], j in s.db.dead, s.db.now, m);
  }

  lemma {:induction false} ScheduleNeverRewinds(s: Sys, ls: seq<Label>, j: JobId)
    requires Inv(s) && j in s.db.jobs && s.db.jobs[j].scheduledAt.Some?
    ensures
      var t := Run(s, ls);
      && j in t.db.jobs && t.db.jobs[j].scheduledAt.Some?
      && s.db.jobs[j].scheduledAt.value <= t.db.jobs[j].scheduledAt.value
  {
    if ls != [] {
      ScheduleNeverRewinds(s, ls[..|ls| - 1], j);
      var u, newcomer := LastStep(s, ls);
      StepNeverRewinds(u, Run(s, ls), newcomer, j);
    }
  }

  // However the run continues, operators included, a job is not claimed and does not start before
  // the instant it is scheduled at now.
  lemma {:induction false} NoEarlyClaimOrStart(s: Sys, ls: seq<Label>, l: Label, j: JobId)
    requires Inv(s) && j in s.db.jobs && s.db.jobs[j].scheduledAt.Some?
    ensures
      var t := Run(s, ls);
      var u := Apply(t, l);
      && j in t.db.jobs && j in u.db.jobs
      && (ClaimsOrStarts(t.db.jobs[j], u.db.jobs[j]) ==>
            s.db.jobs[j].scheduledAt.value <= t.db.now)
  {
    ScheduleNeverRewinds(s, ls, j);
    RunKeepsInv(s, ls);
    var newcomer := EveryLabelSteps(Run(s, ls), l);
    StepNeverRewinds(Run(s, ls), Apply(Run(s, ls), l), newcomer, j);
  }

  // ---- going to RETRYING sets the wait ----

  // If the step sends j to RETRYING, it schedules it at least `wait` ahead.
  ghost predicate RetryWaits(s: Sys, t: Sys, j: JobId, wait: int) {
    j in s.db.jobs && j in t.db.jobs && t.db.jobs[j].status.Retrying? && !s.db.jobs[j].status.Retrying? ==>
      t.db.jobs[j].scheduledAt.Some? && s.db.now + wait <= t.db.jobs[j].scheduledAt.value
  }

  // Whatever the jitter draws, the instant computed for j lies at least `wait` ahead.
  ghost predicate InstantsWait(db: Db, j: JobId, wait: int) {
    forall roll: nat :: RetryInstantFor(db, j, roll).Some? ==> db.now + wait <= RetryInstantFor(db, j, roll).value
  }

  lemma InstantWaits(db: Db, j: JobId, roll: nat)
    requires j in db.jobs && RetryInstantFor(db, j, roll).Some?
    ensures db.now + PolicyDelay(db.jobs[j].retry, db.jobs[j].attemptCount) <= RetryInstantFor(db, j, roll).value
  {
    var c := PolicyOf(db.jobs[j].retry);
    DelayIsANumber(c, db.jobs[j].attemptCount, Draw(c, roll));
    DelayIsANumber(c, db.jobs[j].attemptCount, 0);
  }

  lemma FailWaits(s: Sys, x: ExecId, retryable: bool, retryAt: Option<Time>, j: JobId, wait: int)
    requires x in s.db.execs && j in s.db.jobs
    requires s.db.execs[x].jobId == j && retryAt.Some? ==> s.db.now + wait <= retryAt.value
    ensures RetryWaits(s, DoFail(s, x, retryable, retryAt), j, wait)
  {
  }

  lemma RecoverWaits(s: Sys, k: JobId, top: Option<ExecId>, retryAt: Option<Time>, j: JobId, wait: int)
    requires k == j && retryAt.Some? ==> s.db.now + wait <= retryAt.value
    ensures RetryWaits(s, DoRecover(s, k, top, retryAt), j, wait)
  {
  }

  lemma QuietDoesNotRetry(s: Sys, t: Sys, j: JobId, wait: int)
    requires SameProgress(s, t)
    ensures RetryWaits(s, t, j, wait)
  {
  }

  lemma CreateDoesNotRetry(s: Sys, k: JobId, input: T.NewJob, j: JobId, wait: int)
    ensures RetryWaits(s, DoCreate(s, k, input), j, wait)
  {
  }

  lemma HeartbeatDoesNotRetry(s: Sys, w: WorkerId, leaseMs: nat, j: JobId, wait: int)
    ensures RetryWaits(s, DoHeartbeat(s, w, leaseMs), j, wait)
  {
  }

  lemma StartDoesNotRetry(s: Sys, k: JobId, w: WorkerId, x: ExecId, j: JobId, wait: int)
    ensures RetryWaits(s, DoStart(s, k, w, x), j, wait)
  {
  }

  lemma CompleteDoesNotRetry(s: Sys, x: ExecId, j: JobId, wait: int)
    ensures RetryWaits(s, DoComplete(s, x), j, wait)
  {
  }

  lemma QuietLabelWaits(s: Sys, l: Label, j: JobId, wait: int)
    requires !l.Fail? && !l.Recover? && !l.Create? && !l.Heartbeat? && !l.Crash? && !l.Start? && !l.Complete?
    ensures RetryWaits(s, Apply(s, l), j, wait)
  {
    QuietDoesNotRetry(s, Apply(s, l), j, wait);
  }

  lemma CrashDoesNotRetry(s: Sys, x: ExecId, j: JobId, wait: int)
    ensures RetryWaits(s, DoCrash(s, x), j, wait)
  {
  }

  lemma ReliabilityLabelWaits(s: Sys, l: Label, j: JobId, wait: int)
    requires j in s.db.jobs && InstantsWait(s.db, j, wait) && (l.Fail? || l.Recover?)
    ensures RetryWaits(s, Apply(s, l), j, wait)
  {
    match l
    case Fail(x, retryable, roll) =>
      if x in s.executing && x in s.db.execs {
        FailWaits(s, x, retryable, RetryInstantOf(s.db, x, roll), j, wait);
      }
    case Recover(k, top, roll) => RecoverWaits(s, k, top, RetryInstantFor(s.db, k, roll), j, wait);
  }

  lemma OtherLabelWaits(s: Sys, l: Label, j: JobId, wait: int)
    requires !l.Fail? && !l.Recover?
    ensures RetryWaits(s, Apply(s, l), j, wait)
  {
    match l
    case Create(k, input) => CreateDoesNotRetry(s, k, input, j, wait);
    case Heartbeat(w, leaseMs) => HeartbeatDoesNotRetry(s, w, leaseMs, j, wait);
    case Crash(x) => CrashDoesNotRetry(s, x, j, wait);
    case Start(k, w, x) => StartDoesNotRetry(s, k, w, x, j, wait);
    case Complete(x) => CompleteDoesNotRetry(s, x, j, wait);
    case _ => QuietLabelWaits(s, l, j, wait);
  }

  function WaitOf(job: Job): int {
    PolicyDelay(job.retry, job.attemptCount)
  }

  lemma EveryRetryWaits(s: Sys, l: Label, j: JobId)
    requires DomainsOk(s) && j in s.db.jobs
    ensures RetryWaits(s, Apply(s, l), j, WaitOf(s.db.jobs[j]))
  {
    forall roll: nat | RetryInstantFor(s.db, j, roll).Some?
      ensures s.db.now + WaitOf(s.db.jobs[j]) <= RetryInstantFor(s.db, j, roll).value
    {
      InstantWaits(s.db, j, roll);
    }
    if l.Fail? || l.Recover? {
      ReliabilityLabelWaits(s, l, j, WaitOf(s.db.jobs[j]));
    } else {
      OtherLabelWaits(s, l, j, WaitOf(s.db.jobs[j]));
    }
  }

  // Backoff over whole runs: when a job goes to RETRYING after attempt k, nothing claims or starts
  // it until the policy's delay(k) has passed, even if operators retry it meanwhile.
  lemma {:induction false} RetryingJobWaits(s: Sys, l: Label, ls: seq<Label>, l': Label, j: JobId)
    requires Inv(s) && j in s.db.jobs && !s.db.jobs[j].status.Retrying?
    requires j in Apply(s, l).db.jobs && Apply(s, l).db.jobs[j].status.Retrying?
    ensures
      var t := Run(Apply(s, l), ls);
      var u := Apply(t, l');
      && j in t.db.jobs && j in u.db.jobs
      && (ClaimsOrStarts(t.db.jobs[j], u.db.jobs[j]) ==>
            s.db.now + WaitOf(s.db.jobs[j]) <= t.db.now)
  {
    EveryRetryWaits(s, l, j);
    var newcomer := EveryLabelSteps(s, l);
    StepKeepsInv(s, Apply(s, l), newcomer);
    NoEarlyClaimOrStart(Apply(s, l), ls, l', j);
  }
}
