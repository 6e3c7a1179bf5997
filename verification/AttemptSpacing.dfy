// The starts of a job's attempts are spaced by its retry policy, so attempt n starts no earlier
// than the first start plus delay(1) + ... + delay(n - 1).
module AttemptSpacing {
  import opened Wrappers
  import opened RetryStrategy
  import opened Tables
  import opened Protocol
  import opened JobMoves
  import opened Lifecycle
  import opened History
  import opened Backoff

  // A job between attempts is scheduled a full delay after the start of its last attempt.
  ghost predicate PendingOk(job: Job, start: Time) {
    job.status.Retrying? || job.status.Queued? || job.status.Claimed? ==>
      job.scheduledAt.Some? && start + PolicyDelay(job.retry, job.attemptCount) <= job.scheduledAt.value
  }

  ghost predicate Spaced(db: Db, j: JobId, x: ExecId, y: ExecId)
    requires j in db.jobs && x in db.execs && y in db.execs
  {
    db.execs[x].startedAt + PolicyDelay(db.jobs[j].retry, db.execs[x].attempt) <= db.execs[y].startedAt
  }

  ghost predicate SpacingOk(db: Db, j: JobId)
    requires j in db.jobs
  {
    && (forall x, y | x in db.execs && y in db.execs && db.execs[x].jobId == j && db.execs[y].jobId == j
          :: db.execs[y].attempt == db.execs[x].attempt + 1 ==> Spaced(db, j, x, y))
    && (forall x | x in db.execs && db.execs[x].jobId == j
          :: db.execs[x].attempt == db.jobs[j].attemptCount ==> PendingOk(db.jobs[j], db.execs[x].startedAt))
  }

  ghost predicate Unretried(s: Sys, j: JobId) {
    TallyOf(s.tally, j).retries == 0
  }

  ghost predicate AllSpaced(s: Sys) {
    forall j :: j in s.db.jobs && Unretried(s, j) ==> SpacingOk(s.db, j)
  }

  lemma PendingMove(job: Job, buried: bool, now: Time, m: Move, c: Tally, start: Time)
    requires RowOk(job, buried, now) && Enabled(job, buried, now, m) && job.attemptCount >= 1
    requires PendingOk(job, start) && start <= now && Noted(c, job, m).retries == c.retries
    requires After(job, now, m).attemptCount == job.attemptCount
    requires After(job, now, m).status.Retrying? && !job.status.Retrying? ==>
      After(job, now, m).scheduledAt.Some?
      && now + PolicyDelay(job.retry, job.attemptCount) <= After(job, now, m).scheduledAt.value
    ensures PendingOk(After(job, now, m), start)
  {
  }

  lemma StartingMove(job: Job, buried: bool, now: Time, m: Move, c: Tally)
    requires RowOk(job, buried, now) && Enabled(job, buried, now, m)
    ensures After(job, now, m).attemptCount != job.attemptCount ==>
      job.status.Claimed? && After(job, now, m).status.Running? && IsDue(job, now)
    ensures After(job, now, m).retry == job.retry && c.retries <= Noted(c, job, m).retries
  {
  }

  lemma OldPairSpaced(s: Sys, t: Sys, newcomer: Option<ExecId>, j: JobId, x: ExecId, y: ExecId)
    requires j in s.db.jobs && j in t.db.jobs && t.db.jobs[j].retry == s.db.jobs[j].retry
    requires ExecsStep(s, t, newcomer) && x in s.db.execs && y in s.db.execs && Spaced(s.db, j, x, y)
    ensures x in t.db.execs && y in t.db.execs && Spaced(t.db, j, x, y)
  {
    assert ExecStep(s.db.execs[x], t.db.execs[x], x in s.executing);
    assert ExecStep(s.db.execs[y], t.db.execs[y], y in s.executing);
  }

  lemma NewPairSpaced(s: Sys, t: Sys, j: JobId, x: ExecId, y: ExecId)
    requires j in s.db.jobs && j in t.db.jobs && t.db.jobs[j].retry == s.db.jobs[j].retry
    requires SpacingOk(s.db, j) && s.db.jobs[j].status.Claimed? && IsDue(s.db.jobs[j], s.db.now)
    requires x in s.db.execs && s.db.execs[x].jobId == j && s.db.execs[x].attempt == s.db.jobs[j].attemptCount
    requires x in t.db.execs && t.db.execs[x].startedAt == s.db.execs[x].startedAt
    requires t.db.execs[x].attempt == s.db.execs[x].attempt
    requires y in t.db.execs && t.db.execs[y].startedAt == s.db.now
    ensures Spaced(t.db, j, x, y)
  {
    assert PendingOk(s.db.jobs[j], s.db.execs[x].startedAt);
  }

  // What a step without an operator retry does to the row, as far as spacing is concerned.
  ghost predicate RowStep(s: Sys, t: Sys, j: JobId)
    requires j in s.db.jobs && j in t.db.jobs
  {
    var before, after := s.db.jobs[j], t.db.jobs[j];
    && after.retry == before.retry
    && (after.attemptCount != before.attemptCount ==>
          before.status.Claimed? && after.status.Running? && IsDue(before, s.db.now))
    && (after.attemptCount == before.attemptCount >= 1 ==>
          forall start :: start <= s.db.now && PendingOk(before, start) ==> PendingOk(after, start))
  }

  lemma RowSteps(s: Sys, t: Sys, j: JobId, m: Move)
    requires j in s.db.jobs && RowOk(s.db.jobs[j], j in s.db.dead, s.db.now)
    requires Moves(s, t, j, m) && RetryWaits(s, t, j, WaitOf(s.db.jobs[j])) && Unretried(t, j)
    ensures RowStep(s, t, j) && Unretried(s, j)
  {
    var job, c := s.db.jobs[j], TallyOf(s.tally, j);
    StartingMove(job, j in s.db.dead, s.db.now, m, c);
    if t.db.jobs[j].attemptCount == job.attemptCount >= 1 {
      forall start | start <= s.db.now && PendingOk(job, start)
        ensures PendingOk(t.db.jobs[j], start)
      {
        PendingMove(job, j in s.db.dead, s.db.now, m, c, start);
      }
    }
  }

  ghost predicate ExecsOk(db: Db) {
    forall x :: x in db.execs ==> ExecOk(db, x)
  }

  lemma PairSpaced(s: Sys, t: Sys, newcomer: Option<ExecId>, j: JobId, x: ExecId, y: ExecId)
    requires ExecsOk(s.db) && ExecsStep(s, t, newcomer) && j in s.db.jobs && j in t.db.jobs
    requires SpacingOk(s.db, j) && RowStep(s, t, j)
    requires x in t.db.execs && y in t.db.execs && t.db.execs[x].jobId == j && t.db.execs[y].jobId == j
    requires t.db.execs[y].attempt == t.db.execs[x].attempt + 1
    ensures Spaced(t.db, j, x, y)
  {
    assert x in s.db.execs ==> ExecStep(s.db.execs[x], t.db.execs[x], x in s.executing) && ExecOk(s.db, x);
    assert y in s.db.execs ==> ExecStep(s.db.execs[y], t.db.execs[y], y in s.executing) && ExecOk(s.db, y);
    assert x !in s.db.execs ==> Started(s, t, x);
    if x in s.db.execs && y in s.db.execs {
      OldPairSpaced(s, t, newcomer, j, x, y);
    } else if x in s.db.execs {
      assert Started(s, t, y);
      NewPairSpaced(s, t, j, x, y);
    }
  }

  lemma LastPending(s: Sys, t: Sys, newcomer: Option<ExecId>, j: JobId, x: ExecId)
    requires ExecsOk(s.db) && ExecsStep(s, t, newcomer) && j in s.db.jobs && j in t.db.jobs
    requires SpacingOk(s.db, j) && RowStep(s, t, j)
    requires x in t.db.execs && t.db.execs[x].jobId == j && t.db.execs[x].attempt == t.db.jobs[j].attemptCount
    ensures PendingOk(t.db.jobs[j], t.db.execs[x].startedAt)
  {
    if x in s.db.execs {
      assert ExecStep(s.db.execs[x], t.db.execs[x], x in s.executing) && ExecOk(s.db, x);
    } else {
      assert Started(s, t, x);
    }
  }

  lemma SpacingKept(s: Sys, t: Sys, newcomer: Option<ExecId>, j: JobId)
    requires Inv(s) && AllSpaced(s) && Step(s, t, newcomer) && j in t.db.jobs && Unretried(t, j)
    requires j in s.db.jobs ==> RetryWaits(s, t, j, WaitOf(s.db.jobs[j]))
    ensures SpacingOk(t.db, j)
  {
    if j in s.db.jobs {
      assert HasMove(s, t, j);
      var m :| Moves(s, t, j, m);
      RowSteps(s, t, j, m);
      forall x, y | x in t.db.execs && y in t.db.execs && t.db.execs[x].jobId == j && t.db.execs[y].jobId == j
        && t.db.execs[y].attempt == t.db.execs[x].attempt + 1
        ensures Spaced(t.db, j, x, y)
      {
        PairSpaced(s, t, newcomer, j, x, y);
      }
      forall x | x in t.db.execs && t.db.execs[x].jobId == j && t.db.execs[x].attempt == t.db.jobs[j].attemptCount
        ensures PendingOk(t.db.jobs[j], t.db.execs[x].startedAt)
      {
        LastPending(s, t, newcomer, j, x);
      }
    } else {
      NewJobHasNoExecs(s, t, newcomer, j);
    }
  }

  lemma {:induction false} AlwaysSpaced(ls: seq<Label>)
    ensures AllSpaced(Run(INITIAL, ls))
  {
    if ls != [] {
      AlwaysSpaced(ls[..|ls| - 1]);
      var u, newcomer := LastStep(INITIAL, ls);
      forall j | j in Run(INITIAL, ls).db.jobs && Unretried(Run(INITIAL, ls), j)
        ensures SpacingOk(Run(INITIAL, ls).db, j)
      {
        if j in u.db.jobs {
          EveryRetryWaits(u, ls[|ls| - 1], j);
        }
        SpacingKept(u, Run(INITIAL, ls), newcomer, j);
      }
    }
  }

  lemma {:induction false} SpacingAddsUp(db: Db, j: JobId, x: ExecId, y: ExecId, n: nat)
    requires j in db.jobs && SpacingOk(db, j) && NoGap(db) && NoRepeat(db) && ExecsOk(db)
    requires n >= 1 && IsAttempt(db, x, j, 1) && IsAttempt(db, y, j, n)
    ensures db.execs[x].startedAt + SumOfDelays(PolicyOf(db.jobs[j].retry), n - 1) <= db.execs[y].startedAt
    decreases n
  {
    if n == 1 {
      assert x == y;
    } else {
      assert ExecOk(db, y);
      assert HasAttempt(db, j, n - 1);
      var z :| z in db.execs && IsAttempt(db, z, j, n - 1);
      SpacingAddsUp(db, j, x, z, n - 1);
      assert Spaced(db, j, z, y);
    }
  }

  // Without operator retries, attempt n starts no earlier than the first start plus the delays of
  // the attempts between.
  lemma AttemptsAreSpaced(ls: seq<Label>, j: JobId, x: ExecId, y: ExecId, n: nat)
    requires j in Run(INITIAL, ls).db.jobs && Unretried(Run(INITIAL, ls), j)
    requires n >= 1 && IsAttempt(Run(INITIAL, ls).db, x, j, 1) && IsAttempt(Run(INITIAL, ls).db, y, j, n)
    ensures
      var db := Run(INITIAL, ls).db;
      db.execs[x].startedAt + SumOfDelays(PolicyOf(db.jobs[j].retry), n - 1) <= db.execs[y].startedAt
  {
    Reachable(ls);
    AlwaysSpaced(ls);
    SpacingAddsUp(Run(INITIAL, ls).db, j, x, y, n);
  }

  // For an uncapped exponential policy that is init * (2^(n - 1) - 1) milliseconds.
  lemma ExponentialSpacing(ls: seq<Label>, j: JobId, x: ExecId, y: ExecId, n: nat)
    requires j in Run(INITIAL, ls).db.jobs && Unretried(Run(INITIAL, ls), j)
    requires 1 <= n <= LARGEST_EXPONENT && IsAttempt(Run(INITIAL, ls).db, x, j, 1)
    requires IsAttempt(Run(INITIAL, ls).db, y, j, n)
    requires
      var c := PolicyOf(Run(INITIAL, ls).db.jobs[j].retry);
      && c.strategy.Exponential? && c.initialDelayMs >= 0 && c.maxDelayMs.None?
      && (n >= 2 ==> c.initialDelayMs * Pow2(n - 2) <= MAX_SAFE_INTEGER)
    ensures
      var db := Run(INITIAL, ls).db;
      db.execs[x].startedAt + PolicyOf(db.jobs[j].retry).initialDelayMs * (Pow2(n - 1) - 1) <= db.execs[y].startedAt
  {
    AttemptsAreSpaced(ls, j, x, y, n);
    GeometricBackoff(PolicyOf(Run(INITIAL, ls).db.jobs[j].retry), n - 1);
  }
}
