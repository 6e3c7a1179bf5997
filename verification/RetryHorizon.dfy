// When a retry can be written at all: the delay is clamped to 2^53 - 1 milliseconds, but a Date ends
// at 8.64e15, so a late enough instant is an Invalid Date and the transaction aborts.
module RetryHorizon {
  import opened Wrappers
  import opened RetryStrategy
  import opened Tables
  import opened Protocol
  import opened Lifecycle
  import opened History
  import opened AttemptSpacing
  import T = Transactions

  function LongestJitter(c: RetryConfiguration): nat {
    Max(0, c.jitterMs)
  }

  // Whatever the jitter draws, the instant exists exactly when the longest possible wait ends within
  // the calendar and the arithmetic stays within the numbers.
  lemma RetryIsStorable(job: Job, now: Time)
    ensures
      var c := PolicyOf(job.retry);
      (forall roll: nat :: RetryInstant(job, now, roll).Some?)
      <==> !Degenerate(c, job.attemptCount)
           && now + DelayOrZero(DelayWith(c, job.attemptCount, LongestJitter(c))) <= MAX_DATE
  {
    var c := PolicyOf(job.retry);
    DelayIsANumber(c, job.attemptCount, LongestJitter(c));
    assert Draw(c, LongestJitter(c)) == LongestJitter(c);
    var longest := DelayOrZero(DelayWith(c, job.attemptCount, LongestJitter(c)));
    if !Degenerate(c, job.attemptCount) && now + longest <= MAX_DATE {
      forall roll: nat
        ensures RetryInstant(job, now, roll).Some?
      {
        DelayIsANumber(c, job.attemptCount, Draw(c, roll));
      }
    } else {
      assert RetryInstant(job, now, LongestJitter(c)).None?;
    }
  }

  // A policy cap inside the calendar always leaves room.
  lemma CappedRetriesAreStorable(job: Job, now: Time, roll: nat)
    requires !Degenerate(PolicyOf(job.retry), job.attemptCount) && job.retry.maxDelayMs.Some?
    requires now + Max(0, job.retry.maxDelayMs.value) + LongestJitter(PolicyOf(job.retry)) <= MAX_DATE
    ensures RetryInstant(job, now, roll).Some?
  {
    var c := PolicyOf(job.retry);
    DelayIsANumber(c, job.attemptCount, Draw(c, roll));
  }

  // No draw of the jitter gives an instant that can be written.
  ghost predicate NeverStorable(job: Job, now: Time) {
    forall roll: nat :: RetryInstant(job, now, roll).None?
  }

  // That is so exactly when the plain delay already ends beyond the calendar, or the arithmetic leaves
  // the numbers.
  lemma NeverStorableExactly(job: Job, now: Time)
    ensures
      var c := PolicyOf(job.retry);
      NeverStorable(job, now)
      <==> Degenerate(c, job.attemptCount) || now + DelayOrZero(PlainDelay(c, job.attemptCount)) > MAX_DATE
  {
    var c := PolicyOf(job.retry);
    DelayIsANumber(c, job.attemptCount, 0);
    assert Draw(c, 0) == 0;
    if Degenerate(c, job.attemptCount) || now + DelayOrZero(PlainDelay(c, job.attemptCount)) > MAX_DATE {
      forall roll: nat
        ensures RetryInstant(job, now, roll).None?
      {
        DelayIsANumber(c, job.attemptCount, Draw(c, roll));
      }
    } else {
      assert RetryInstant(job, now, 0).Some?;
    }
  }

  // Neither a retryable failure nor an expired lease of the job changes any table.
  ghost predicate RetriesAbort(db: Db, j: JobId) {
    && (forall top: Option<ExecId>, roll: nat :: T.Recover(db, j, top, RetryInstantFor(db, j, roll)) == db)
    && (forall x: ExecId, roll: nat ::
          x in db.execs && db.execs[x].jobId == j ==> T.Fail(db, x, true, RetryInstantOf(db, x, roll)) == db)
  }

  lemma UnstorableAborts(db: Db, j: JobId)
    requires j in db.jobs && db.jobs[j].attemptCount < db.jobs[j].maxAttempts && NeverStorable(db.jobs[j], db.now)
    ensures RetriesAbort(db, j)
  {
    forall roll: nat
      ensures RetryInstantFor(db, j, roll).None?
    {
      assert RetryInstant(db.jobs[j], db.now, roll).None?;
    }
  }

  // Attempt n of an uncapped exponential policy cannot be retried exactly when the clock plus
  // min(2^53 - 1, init * 2^(n - 1)) is past the last Date; nothing about the job can then be recorded
  // but success, a failure for good or an operator's write.
  lemma UncappedBackoffGetsStuck(db: Db, j: JobId)
    requires j in db.jobs && 1 <= db.jobs[j].attemptCount < db.jobs[j].maxAttempts
    requires
      var c := PolicyOf(db.jobs[j].retry);
      c.strategy.Exponential? && c.initialDelayMs >= 1 && c.maxDelayMs.None?
    ensures
      var job := db.jobs[j];
      var wait := Min(MAX_SAFE_INTEGER, PolicyOf(job.retry).initialDelayMs * Pow2(job.attemptCount - 1));
      && (NeverStorable(job, db.now) <==> db.now + wait > MAX_DATE)
      && (db.now + wait > MAX_DATE ==> RetriesAbort(db, j))
  {
    var job := db.jobs[j];
    var c := PolicyOf(job.retry);
    ExponentialIsSaturatingDoubling(c, job.attemptCount);
    DoublingIsClampedPower(c.initialDelayMs, Cap(c), job.attemptCount);
    NeverStorableExactly(job, db.now);
    if NeverStorable(job, db.now) {
      UnstorableAborts(db, j);
    }
  }

  // From attempt 54 on the wait alone is longer than the calendar, whatever the first delay.
  lemma Attempt54OutlastsCalendar(initialDelayMs: nat, n: nat)
    requires initialDelayMs >= 1 && n >= 54
    ensures Min(MAX_SAFE_INTEGER, initialDelayMs * Pow2(n - 1)) == MAX_SAFE_INTEGER > MAX_DATE
  {
    HugePowersSaturate(initialDelayMs, MAX_SAFE_INTEGER, n);
    DoublingIsClampedPower(initialDelayMs, MAX_SAFE_INTEGER, n);
  }

  // ---- jobs that no operator retries get there only when the calendar is over ----

  ghost predicate StartsAfterEpoch(s: Sys) {
    s.db.now >= 0 && forall x :: x in s.db.execs ==> s.db.execs[x].startedAt >= 0
  }

  lemma EpochKept(s: Sys, t: Sys, newcomer: Option<ExecId>)
    requires StartsAfterEpoch(s) && ExecsStep(s, t, newcomer) && s.db.now <= t.db.now
    ensures StartsAfterEpoch(t)
  {
    forall x | x in t.db.execs
      ensures t.db.execs[x].startedAt >= 0
    {
      if x in s.db.execs {
        assert ExecStep(s.db.execs[x], t.db.execs[x], x in s.executing);
      } else {
        assert Started(s, t, x);
      }
    }
  }

  lemma {:induction false} AlwaysAfterEpoch(ls: seq<Label>)
    ensures StartsAfterEpoch(Run(INITIAL, ls))
  {
    if ls != [] {
      AlwaysAfterEpoch(ls[..|ls| - 1]);
      var u, newcomer := LastStep(INITIAL, ls);
      EpochKept(u, Run(INITIAL, ls), newcomer);
    }
  }

  lemma {:induction false} DelaysAddUp(c: RetryConfiguration, n: nat)
    requires c.strategy.Exponential? && c.initialDelayMs >= 1 && c.maxDelayMs.None?
    ensures SumOfDelays(c, n) >= Pow2(if n <= 53 then n else 53) - 1
  {
    if n > 0 {
      DelaysAddUp(c, n - 1);
      ExponentialIsSaturatingDoubling(c, n);
      if n <= 53 {
        AtLeastPower(c.initialDelayMs, n);
      }
    }
  }

  lemma AtLeastPower(initialDelayMs: nat, n: nat)
    requires initialDelayMs >= 1 && 1 <= n <= 53
    ensures Doubling(initialDelayMs, MAX_SAFE_INTEGER, n) >= Pow2(n - 1)
  {
    DoublingIsClampedPower(initialDelayMs, MAX_SAFE_INTEGER, n);
    Pow2Grows(n - 1, 52);
    Pow2Of53();
    assert Pow2(53) == 2 * Pow2(52);
    assert initialDelayMs * Pow2(n - 1) >= Pow2(n - 1);
  }

  // Without an operator's retry, attempt 54 of such a policy starts when the calendar is over already:
  // the waits before it have used it up.  Inside the calendar it takes retries by hand to get there
  // (Witnesses.RetriedJobGetsStuck).
  lemma {:induction false} UnretriedJobsOutliveCalendar(ls: seq<Label>, j: JobId)
    requires j in Run(INITIAL, ls).db.jobs && Unretried(Run(INITIAL, ls), j)
    requires Run(INITIAL, ls).db.jobs[j].attemptCount >= 54
    requires
      var c := PolicyOf(Run(INITIAL, ls).db.jobs[j].retry);
      c.strategy.Exponential? && c.initialDelayMs >= 1 && c.maxDelayMs.None?
    ensures Run(INITIAL, ls).db.now > MAX_DATE
  {
    var n := Run(INITIAL, ls).db.jobs[j].attemptCount;
    var x := AttemptStarted(ls, j, 1);
    var y := AttemptStarted(ls, j, n);
    AttemptsAreSpaced(ls, j, x, y, n);
    LongWaits(PolicyOf(Run(INITIAL, ls).db.jobs[j].retry), n);
  }

  lemma LongWaits(c: RetryConfiguration, n: nat)
    requires c.strategy.Exponential? && c.initialDelayMs >= 1 && c.maxDelayMs.None? && n >= 54
    ensures SumOfDelays(c, n - 1) >= MAX_SAFE_INTEGER
  {
    DelaysAddUp(c, n - 1);
    Pow2Of53();
  }

  lemma {:induction false} AttemptStarted(ls: seq<Label>, j: JobId, n: nat) returns (x: ExecId)
    requires j in Run(INITIAL, ls).db.jobs && 1 <= n <= Run(INITIAL, ls).db.jobs[j].attemptCount
    ensures IsAttempt(Run(INITIAL, ls).db, x, j, n)
    ensures 0 <= Run(INITIAL, ls).db.execs[x].startedAt <= Run(INITIAL, ls).db.now
  {
    Reachable(ls);
    AlwaysAfterEpoch(ls);
    x := StartedIn(Run(INITIAL, ls), j, n);
  }

  lemma StartedIn(s: Sys, j: JobId, n: nat) returns (x: ExecId)
    requires NoGap(s.db) && StartsAfterEpoch(s) && j in s.db.jobs && 1 <= n <= s.db.jobs[j].attemptCount
    requires forall y :: y in s.db.execs ==> ExecOk(s.db, y)
    ensures IsAttempt(s.db, x, j, n) && 0 <= s.db.execs[x].startedAt <= s.db.now
  {
    assert HasAttempt(s.db, j, n);
    x :| x in s.db.execs && IsAttempt(s.db, x, j, n);
  }
}
