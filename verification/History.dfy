// The invariant of every reachable state, and the two theorems a reader wants from it.
module History {
  import opened Wrappers
  import opened Tables
  import opened Protocol
  import opened JobMoves
  import opened Lifecycle
  import JobStateMachine
  import T = Transactions

  lemma NoRepeatKept(s: Sys, t: Sys, newcomer: Option<ExecId>)
    requires HistoryOk(s) && Step(s, t, newcomer)
    ensures NoRepeat(t.db)
  {
    assert forall x :: x in s.db.execs ==> ExecStep(s.db.execs[x], t.db.execs[x], x in s.executing);
  }

  lemma NoGapKept(s: Sys, t: Sys, newcomer: Option<ExecId>)
    requires HistoryOk(s) && Step(s, t, newcomer)
    ensures NoGap(t.db)
  {
    forall j, n | j in t.db.jobs && 1 <= n <= t.db.jobs[j].attemptCount
      ensures HasAttempt(t.db, j, n)
    {
      assert j !in s.db.jobs ==> Born(s, t, j);
      assert ProgressStep(s, t, j, newcomer);
      if n <= s.db.jobs[j].attemptCount {
        assert HasAttempt(s.db, j, n);
        var x :| x in s.db.execs && IsAttempt(s.db, x, j, n);
        assert ExecStep(s.db.execs[x], t.db.execs[x], x in s.executing);
        assert IsAttempt(t.db, x, j, n);
      }
    }
  }

  lemma SuccessKept(s: Sys, t: Sys, newcomer: Option<ExecId>, j: JobId)
    requires HistoryOk(s) && Step(s, t, newcomer) && j in t.db.jobs && t.db.jobs[j].status.Completed?
    ensures HasSuccess(t.db, j)
  {
    assert j !in s.db.jobs ==> Born(s, t, j);
    assert ProgressStep(s, t, j, newcomer);
    if s.db.jobs[j].status.Completed? {
      var x :| Succeeded(s.db, x, j);
      assert ExecStep(s.db.execs[x], t.db.execs[x], x in s.executing);
      assert Succeeded(t.db, x, j);
    }
  }

  lemma ExecsKept(s: Sys, t: Sys, newcomer: Option<ExecId>, x: ExecId)
    requires HistoryOk(s) && Step(s, t, newcomer) && x in t.db.execs
    ensures ExecOk(t.db, x)
    ensures x in t.executing ==> !Reported(t.db.execs[x])
  {
    if x in s.db.execs {
      assert ExecStep(s.db.execs[x], t.db.execs[x], x in s.executing);
      assert ProgressStep(s, t, s.db.execs[x].jobId, newcomer);
    }
  }

  lemma StepKeepsInv(s: Sys, t: Sys, newcomer: Option<ExecId>)
    requires Inv(s) && Step(s, t, newcomer)
    ensures Inv(t)
  {
    RowsKept(s, t, newcomer);
    NoRepeatKept(s, t, newcomer);
    NoGapKept(s, t, newcomer);
    forall x | x in t.db.execs
      ensures ExecOk(t.db, x) && (x in t.executing ==> !Reported(t.db.execs[x]))
    {
      ExecsKept(s, t, newcomer, x);
    }
    forall j | j in t.db.jobs && t.db.jobs[j].status.Completed?
      ensures HasSuccess(t.db, j)
    {
      SuccessKept(s, t, newcomer, j);
    }
  }

  lemma NewJobHasNoExecs(s: Sys, t: Sys, newcomer: Option<ExecId>, j: JobId)
    requires (forall x :: x in s.db.execs ==> ExecOk(s.db, x)) && ExecsStep(s, t, newcomer) && j !in s.db.jobs
    ensures forall x :: x in t.db.execs ==> t.db.execs[x].jobId != j
  {
    forall x | x in t.db.execs
      ensures t.db.execs[x].jobId != j
    {
      if x in s.db.execs {
        assert ExecStep(s.db.execs[x], t.db.execs[x], x in s.executing) && ExecOk(s.db, x);
      }
    }
  }

  // The last step of a run.
  lemma LastStep(s: Sys, ls: seq<Label>) returns (u: Sys, newcomer: Option<ExecId>)
    requires Inv(s) && ls != []
    ensures u == Run(s, ls[..|ls| - 1]) && Inv(u) && Step(u, Run(s, ls), newcomer)
    decreases |ls|, 0
  {
    u := Run(s, ls[..|ls| - 1]);
    RunKeepsInv(s, ls[..|ls| - 1]);
    newcomer := EveryLabelSteps(u, ls[|ls| - 1]);
  }

  lemma {:induction false} RunKeepsInv(s: Sys, ls: seq<Label>)
    requires Inv(s)
    ensures Inv(Run(s, ls))
    decreases |ls|, 1
  {
    if ls != [] {
      var u, newcomer := LastStep(s, ls);
      StepKeepsInv(u, Run(s, ls), newcomer);
    }
  }

  lemma Reachable(ls: seq<Label>)
    ensures Inv(Run(INITIAL, ls))
  {
    RunKeepsInv(INITIAL, ls);
  }

  // No stranded job: in every reachable state a job is finished, dead-lettered, waiting with a due
  // instant, queued with attempts left, or leased to a worker; a failed job is dead-lettered, and an
  // active job without a lease is one that recovery has parked: exhausted, ownerless, dead-lettered.
  lemma {:induction false} NoStrandedJob(ls: seq<Label>, j: JobId)
    requires j in Run(INITIAL, ls).db.jobs
    ensures
      var db := Run(INITIAL, ls).db;
      var job := db.jobs[j];
      && (|| job.status.Completed?
          || job.status.Cancelled?
          || j in db.dead
          || ((job.status.Scheduled? || job.status.Retrying?) && job.scheduledAt.Some?)
          || (job.status.Queued? && job.attemptCount < job.maxAttempts)
          || (Occupies(job) && job.leaseExpiresAt.Some? && job.workerId.Some?))
      && (job.status.Failed? ==> j in db.dead)
      && (Occupies(job) && job.leaseExpiresAt.None? ==>
            job.workerId.None? && job.attemptCount == job.maxAttempts && j in db.dead)
  {
    Reachable(ls);
  }

  // Attempt history: the executions of a job are numbered 1 .. attemptCount, each number once, and
  // attemptCount never passes maxAttempts.
  lemma AttemptHistory(ls: seq<Label>, j: JobId, n: nat)
    requires j in Run(INITIAL, ls).db.jobs
    ensures
      var db := Run(INITIAL, ls).db;
      && db.jobs[j].attemptCount <= db.jobs[j].maxAttempts
      && (HasAttempt(db, j, n) <==> 1 <= n <= db.jobs[j].attemptCount)
      && (forall x, y :: IsAttempt(db, x, j, n) && IsAttempt(db, y, j, n) ==> x == y)
      && (db.jobs[j].status.Completed? ==> HasSuccess(db, j))
  {
    Reachable(ls);
  }

  // The unique index on (job, attempt) never refuses a start: only the state machine and the
  // attempt limit do.
  lemma {:induction false} UniqueIndexNeverRefuses(ls: seq<Label>, j: JobId, x: ExecId)
    requires j in Run(INITIAL, ls).db.jobs && x !in Run(INITIAL, ls).db.execs
    ensures
      var db := Run(INITIAL, ls).db;
      T.CanStart(db, j, x) <==> db.jobs[j].status.Claimed? && db.jobs[j].attemptCount < db.jobs[j].maxAttempts
  {
    Reachable(ls);
    AttemptHistory(ls, j, Run(INITIAL, ls).db.jobs[j].attemptCount + 1);
  }

  lemma ReportStays(s: Sys, t: Sys, newcomer: Option<ExecId>, x: ExecId)
    requires Inv(s) && Step(s, t, newcomer) && x in s.db.execs && Reported(s.db.execs[x])
    ensures x in t.db.execs && t.db.execs[x] == s.db.execs[x]
  {
    assert ExecStep(s.db.execs[x], t.db.execs[x], x in s.executing);
  }

  // A reported execution never changes again, over every continuation of the run.
  lemma {:induction false} ReportsAreFinal(s: Sys, ls: seq<Label>, x: ExecId)
    requires Inv(s) && x in s.db.execs && Reported(s.db.execs[x])
    ensures x in Run(s, ls).db.execs && Run(s, ls).db.execs[x] == s.db.execs[x]
  {
    if ls != [] {
      ReportsAreFinal(s, ls[..|ls| - 1], x);
      var u, newcomer := LastStep(s, ls);
      ReportStays(u, Run(s, ls), newcomer, x);
    }
  }

  // Every status change of every run: the state machine's own transitions, promotion, a retry after
  // failure or expiry, an operator's retry of a dead-lettered job, and cancellation.
  predicate Expected(before: JobStatus, after: JobStatus, buried: bool) {
    || after == before
    || JobStateMachine.Permits(before, after)
    || ((before.Scheduled? || before.Retrying?) && after.Queued?)
    || ((before.Claimed? || before.Running?) && after.Retrying?)
    || (buried && after.Queued?)
    || after.Cancelled?
  }

  lemma MoveIsExpected(job: Job, buried: bool, now: Time, m: Move)
    requires Enabled(job, buried, now, m)
    ensures Expected(job.status, After(job, now, m).status, buried)
  {
  }

  lemma {:induction false} StatusChangesAreExpected(ls: seq<Label>, l: Label, j: JobId)
    requires j in Run(INITIAL, ls).db.jobs
    ensures
      var s := Run(INITIAL, ls);
      j in Apply(s, l).db.jobs && Expected(s.db.jobs[j].status, Apply(s, l).db.jobs[j].status, j in s.db.dead)
  {
    var s := Run(INITIAL, ls);
    Reachable(ls);
    var newcomer := EveryLabelSteps(s, l);
    assert HasMove(s, Apply(s, l), j);
    var m :| Moves(s, Apply(s, l), j, m);
    MoveIsExpected(s.db.jobs[j], j in s.db.dead, s.db.now, m);
  }
}
