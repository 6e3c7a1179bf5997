// RUNNING jobs that nobody runs: exactly how a job gets there, and exactly what gets it out.
module Orphans {
  import opened Wrappers
  import opened Tables
  import opened Protocol
  import opened JobMoves
  import opened Lifecycle
  import opened History
  import opened Attendance
  import T = Transactions

  predicate RunningHeld(job: Job) {
    job.status.Running? && Held(job)
  }

  // The current attempt of a running job still runs, or belongs to a worker that does not hold the job.
  ghost predicate CurrentOk(db: Db, j: JobId)
    requires j in db.jobs
  {
    forall x | x in db.execs && IsAttempt(db, x, j, db.jobs[j].attemptCount) ::
      RunningHeld(db.jobs[j]) ==> db.execs[x].status.ExecRunning? || db.jobs[j].workerId != Some(db.execs[x].workerId)
  }

  ghost predicate AllCurrentOk(db: Db) {
    forall j :: j in db.jobs ==> CurrentOk(db, j)
  }

  // ---- one step: an execution that ends takes its job along if its worker holds it ----

  predicate RunsByHolder(db: Db, x: ExecId) {
    && x in db.execs && db.execs[x].status.ExecRunning?
    && db.execs[x].jobId in db.jobs && db.jobs[db.execs[x].jobId].status.Running?
    && db.jobs[db.execs[x].jobId].workerId == Some(db.execs[x].workerId)
  }

  ghost predicate OwnerSettles(s: Sys, t: Sys, x: ExecId) {
    x in t.db.execs && !t.db.execs[x].status.ExecRunning?
    && RunsByHolder(s.db, x) && s.db.execs[x].jobId in t.db.jobs ==>
      !RunningHeld(t.db.jobs[s.db.execs[x].jobId])
  }

  lemma CompleteSettles(s: Sys, y: ExecId, x: ExecId)
    ensures OwnerSettles(s, DoComplete(s, y), x)
  {
  }

  lemma FailSettles(s: Sys, y: ExecId, retryable: bool, retryAt: Option<Time>, x: ExecId)
    ensures OwnerSettles(s, DoFail(s, y, retryable, retryAt), x)
  {
  }

  lemma RecoverSettles(s: Sys, j: JobId, top: Option<ExecId>, retryAt: Option<Time>, x: ExecId)
    ensures OwnerSettles(s, DoRecover(s, j, top, retryAt), x)
  {
  }

  lemma StartSettles(s: Sys, j: JobId, w: WorkerId, y: ExecId, x: ExecId)
    ensures OwnerSettles(s, DoStart(s, j, w, y), x)
  {
  }

  lemma LabelLeavesExecs(s: Sys, l: Label)
    requires !l.Complete? && !l.Fail? && !l.Recover? && !l.Start?
    ensures Apply(s, l).db.execs == s.db.execs
  {
  }

  lemma EveryLabelSettles(s: Sys, l: Label, x: ExecId)
    ensures OwnerSettles(s, Apply(s, l), x)
  {
    match l
    case Complete(y) => CompleteSettles(s, y, x);
    case Fail(y, retryable, roll) => FailSettles(s, y, retryable, RetryInstantOf(s.db, y, roll), x);
    case Recover(j, top, roll) => RecoverSettles(s, j, top, RetryInstantFor(s.db, j, roll), x);
    case Start(j, w, y) => StartSettles(s, j, w, y, x);
    case _ => LabelLeavesExecs(s, l);
  }

  lemma RowStaysRunning(job: Job, buried: bool, now: Time, m: Move)
    requires RowOk(job, buried, now) && Enabled(job, buried, now, m)
    requires RunningHeld(After(job, now, m)) && After(job, now, m).attemptCount == job.attemptCount
    ensures RunningHeld(job) && After(job, now, m).workerId == job.workerId
  {
  }

  lemma CurrentKept(s: Sys, t: Sys, newcomer: Option<ExecId>, j: JobId, x: ExecId, m: Move)
    requires j in s.db.jobs && j in t.db.jobs && CurrentOk(s.db, j) && OwnerSettles(s, t, x)
    requires RowOk(s.db.jobs[j], j in s.db.dead, s.db.now) && Moves(s, t, j, m)
    requires ExecsStep(s, t, newcomer) && (x in s.db.execs ==> ExecOk(s.db, x))
    requires t.db.jobs[j].attemptCount >= s.db.jobs[j].attemptCount
    requires IsAttempt(t.db, x, j, t.db.jobs[j].attemptCount) && RunningHeld(t.db.jobs[j])
    ensures t.db.execs[x].status.ExecRunning? || t.db.jobs[j].workerId != Some(t.db.execs[x].workerId)
  {
    if x in s.db.execs {
      assert ExecStep(s.db.execs[x], t.db.execs[x], x in s.executing);
      RowStaysRunning(s.db.jobs[j], j in s.db.dead, s.db.now, m);
      assert IsAttempt(s.db, x, j, s.db.jobs[j].attemptCount);
    }
  }

  lemma StepKeepsCurrent(s: Sys, l: Label)
    requires Inv(s) && AllCurrentOk(s.db)
    ensures AllCurrentOk(Apply(s, l).db)
  {
    var t := Apply(s, l);
    var newcomer := EveryLabelSteps(s, l);
    forall j, x | j in t.db.jobs && x in t.db.execs && RunningHeld(t.db.jobs[j])
                  && IsAttempt(t.db, x, j, t.db.jobs[j].attemptCount)
      ensures t.db.execs[x].status.ExecRunning? || t.db.jobs[j].workerId != Some(t.db.execs[x].workerId)
    {
      if j in s.db.jobs {
        EveryLabelSettles(s, l, x);
        assert HasMove(s, t, j) && ProgressStep(s, t, j, newcomer);
        var m :| Moves(s, t, j, m);
        CurrentKept(s, t, newcomer, j, x, m);
      } else {
        NewJobHasNoExecs(s, t, newcomer, j);
      }
    }
  }

  lemma {:induction false} AlwaysCurrentOk(ls: seq<Label>)
    ensures AllCurrentOk(Run(INITIAL, ls).db)
  {
    if ls != [] {
      AlwaysCurrentOk(ls[..|ls| - 1]);
      Reachable(ls[..|ls| - 1]);
      StepKeepsCurrent(Run(INITIAL, ls[..|ls| - 1]), ls[|ls| - 1]);
    }
  }

  // ---- how the current attempt is lost ----

  // The step by which x stops being carried out without moving its job: its worker crashes, reports
  // completion without holding the job, or reports a failure worth a retry that is not written,
  // because it does not hold the job or because the retry instant is no Date.
  predicate Loses(s: Sys, l: Label, x: ExecId) {
    && x in s.executing && x in s.db.execs && s.db.execs[x].jobId in s.db.jobs
    && match l
       case Crash(y) => y == x
       case Complete(y) => y == x && !T.OwnsRunning(s.db, x)
       case Fail(y, retryable, roll) =>
         y == x && T.WantsRetry(s.db.jobs[s.db.execs[x].jobId], retryable)
         && (!T.OwnsRunning(s.db, x) || RetryInstantOf(s.db, x, roll).None?)
       case _ => false
  }

  // ... at some step of the run.
  predicate LostBy(ls: seq<Label>, x: ExecId) {
    ls != [] && (LostBy(ls[..|ls| - 1], x) || Loses(Run(INITIAL, ls[..|ls| - 1]), ls[|ls| - 1], x))
  }

  predicate IsCurrent(db: Db, j: JobId, x: ExecId) {
    j in db.jobs && x in db.execs && IsAttempt(db, x, j, db.jobs[j].attemptCount) && RunningHeld(db.jobs[j])
  }

  // How the set of executions that are carried out may change.
  ghost predicate ExecutingStep(s: Sys, t: Sys, l: Label, x: ExecId) {
    && (x in t.executing && x in s.db.execs ==> x in s.executing)
    && (x in t.db.execs && x !in s.db.execs ==> x in t.executing)
    && (x in s.executing && x !in t.executing ==> (l.Crash? || l.Complete? || l.Fail?) && l.x == x)
  }

  lemma StartCarriesOut(s: Sys, k: JobId, w: WorkerId, y: ExecId, x: ExecId)
    ensures ExecutingStep(s, DoStart(s, k, w, y), Start(k, w, y), x)
  {
  }

  lemma CompleteCarriesOut(s: Sys, y: ExecId, x: ExecId)
    ensures ExecutingStep(s, DoComplete(s, y), Complete(y), x)
  {
  }

  lemma FailCarriesOut(s: Sys, y: ExecId, retryable: bool, roll: nat, x: ExecId)
    ensures ExecutingStep(s, DoFail(s, y, retryable, RetryInstantOf(s.db, y, roll)), Fail(y, retryable, roll), x)
  {
  }

  lemma RecoverCarriesOut(s: Sys, k: JobId, top: Option<ExecId>, roll: nat, x: ExecId)
    ensures ExecutingStep(s, DoRecover(s, k, top, RetryInstantFor(s.db, k, roll)), Recover(k, top, roll), x)
  {
  }

  // An execution is carried out from its start until its worker reports or crashes, never again.
  lemma CarriedOut(s: Sys, l: Label, x: ExecId)
    ensures ExecutingStep(s, Apply(s, l), l, x)
  {
    match l
    case Start(k, w, y) => StartCarriesOut(s, k, w, y, x);
    case Complete(y) => CompleteCarriesOut(s, y, x);
    case Fail(y, retryable, roll) => FailCarriesOut(s, y, retryable, roll, x);
    case Recover(k, top, roll) => RecoverCarriesOut(s, k, top, roll, x);
    case _ => OthersCarryOn(s, l);
  }

  lemma OthersCarryOn(s: Sys, l: Label)
    requires !l.Start? && !l.Complete? && !l.Fail? && !l.Recover?
    ensures Apply(s, l).db.execs == s.db.execs
    ensures Apply(s, l).executing == if l.Crash? then s.executing - {l.x} else s.executing
  {
  }

  lemma LosingEndsIt(s: Sys, l: Label, x: ExecId)
    requires Loses(s, l, x) && RunningHeld(s.db.jobs[s.db.execs[x].jobId])
    ensures x !in Apply(s, l).executing
  {
  }

  // A current attempt that is still carried out has a RUNNING row.
  lemma CompletionLeavesOthers(s: Sys, y: ExecId, x: ExecId)
    requires x in s.db.execs
    ensures x in DoComplete(s, y).db.execs
    ensures DoComplete(s, y).db.execs[x] == s.db.execs[x] || (x == y && x !in DoComplete(s, y).executing)
  {
  }

  lemma FailureLeavesOthers(s: Sys, y: ExecId, retryable: bool, retryAt: Option<Time>, x: ExecId)
    requires x in s.db.execs
    ensures x in DoFail(s, y, retryable, retryAt).db.execs
    ensures
      var t := DoFail(s, y, retryable, retryAt);
      t.db.execs[x] == s.db.execs[x] || (x == y && x !in t.executing)
  {
  }

  lemma RecoveryLeavesOthers(s: Sys, k: JobId, top: Option<ExecId>, retryAt: Option<Time>, x: ExecId)
    requires x in s.db.execs
    ensures
      var t := DoRecover(s, k, top, retryAt);
      && x in t.db.execs
      && (t.db.execs[x] == s.db.execs[x]
          || (s.db.execs[x].jobId == k && k in t.db.jobs && !RunningHeld(t.db.jobs[k])))
  {
  }

  lemma OtherLabelsKeepExecs(s: Sys, l: Label, x: ExecId)
    requires x in s.db.execs && !l.Complete? && !l.Fail? && !l.Recover?
    ensures x in Apply(s, l).db.execs && Apply(s, l).db.execs[x] == s.db.execs[x]
  {
    if !l.Start? {
      LabelLeavesExecs(s, l);
    }
  }

  lemma RowsStopWithReports(s: Sys, l: Label, x: ExecId)
    requires x in s.db.execs
    ensures
      var t := Apply(s, l);
      && x in t.db.execs
      && (t.db.execs[x] == s.db.execs[x] || x !in t.executing
          || (s.db.execs[x].jobId in t.db.jobs && !RunningHeld(t.db.jobs[s.db.execs[x].jobId])))
  {
    match l
    case Complete(y) => CompletionLeavesOthers(s, y, x);
    case Fail(y, retryable, roll) => FailureLeavesOthers(s, y, retryable, RetryInstantOf(s.db, y, roll), x);
    case Recover(k, top, roll) => RecoveryLeavesOthers(s, k, top, RetryInstantFor(s.db, k, roll), x);
    case _ => OtherLabelsKeepExecs(s, l, x);
  }

  // A report of the current attempt that moves nothing loses it.
  lemma FutileReportLoses(s: Sys, l: Label, x: ExecId, j: JobId)
    requires IsCurrent(s.db, j, x) && x in s.executing && s.db.execs[x].status.ExecRunning?
    requires x !in Apply(s, l).executing && j in Apply(s, l).db.jobs && RunningHeld(Apply(s, l).db.jobs[j])
    requires (l.Complete? || l.Fail?) && l.x == x
    ensures Loses(s, l, x)
  {
  }

  ghost predicate AttemptOk(s: Sys, lost: bool, j: JobId, x: ExecId) {
    IsCurrent(s.db, j, x) ==> (x in s.executing ==> s.db.execs[x].status.ExecRunning?) && (x in s.executing <==> !lost)
  }

  lemma OldAttemptKept(s: Sys, l: Label, lost: bool, j: JobId, x: ExecId)
    requires IsCurrent(s.db, j, x) && AttemptOk(s, lost, j, x)
    requires j in Apply(s, l).db.jobs && RunningHeld(Apply(s, l).db.jobs[j]) && x in Apply(s, l).db.execs
    ensures x in Apply(s, l).executing ==> Apply(s, l).db.execs[x].status.ExecRunning?
    ensures x in Apply(s, l).executing <==> !lost && !Loses(s, l, x)
  {
    CarriedOut(s, l, x);
    RowsStopWithReports(s, l, x);
    if Loses(s, l, x) {
      LosingEndsIt(s, l, x);
    } else if x in s.executing && x !in Apply(s, l).executing && !l.Crash? {
      FutileReportLoses(s, l, x, j);
    }
  }

  lemma EarlierWasCurrent(s: Sys, t: Sys, newcomer: Option<ExecId>, j: JobId, x: ExecId)
    requires x in s.db.execs && ExecOk(s.db, x) && IsCurrent(t.db, j, x) && ExecsStep(s, t, newcomer)
    requires j in s.db.jobs && RowOk(s.db.jobs[j], j in s.db.dead, s.db.now)
    requires HasMove(s, t, j) && ProgressStep(s, t, j, newcomer)
    ensures IsCurrent(s.db, j, x)
  {
    assert ExecStep(s.db.execs[x], t.db.execs[x], x in s.executing);
    var m :| Moves(s, t, j, m);
    RowStaysRunning(s.db.jobs[j], j in s.db.dead, s.db.now, m);
  }

  lemma JobOfExec(s: Sys, t: Sys, newcomer: Option<ExecId>, x: ExecId)
    requires Inv(s) && Step(s, t, newcomer) && x in s.db.execs
    ensures ExecOk(s.db, x) && x in t.db.execs && t.db.execs[x].jobId == s.db.execs[x].jobId
    ensures
      var j := s.db.execs[x].jobId;
      && RowOk(s.db.jobs[j], j in s.db.dead, s.db.now)
      && j in t.db.jobs && HasMove(s, t, j) && ProgressStep(s, t, j, newcomer)
  {
    assert ExecStep(s.db.execs[x], t.db.execs[x], x in s.executing);
  }

  lemma NewAttempt(s: Sys, l: Label, newcomer: Option<ExecId>, x: ExecId)
    requires x !in s.db.execs && x in Apply(s, l).db.execs && x !in s.executing
    requires ExecsStep(s, Apply(s, l), newcomer)
    ensures x in Apply(s, l).executing && Apply(s, l).db.execs[x].status.ExecRunning? && !Loses(s, l, x)
  {
    CarriedOut(s, l, x);
    assert Started(s, Apply(s, l), x);
  }

  lemma AttemptKept(s: Sys, l: Label, lost: bool, j: JobId, x: ExecId)
    requires Inv(s) && IsCurrent(Apply(s, l).db, j, x) && AttemptOk(s, lost, j, x) && (x !in s.db.execs ==> !lost)
    ensures AttemptOk(Apply(s, l), lost || Loses(s, l, x), j, x)
  {
    var newcomer := EveryLabelSteps(s, l);
    if x in s.db.execs {
      JobOfExec(s, Apply(s, l), newcomer, x);
      EarlierWasCurrent(s, Apply(s, l), newcomer, j, x);
      OldAttemptKept(s, l, lost, j, x);
    } else {
      NewAttempt(s, l, newcomer, x);
    }
  }

  lemma LostWasThere(s: Sys, l: Label, x: ExecId)
    requires x in s.db.execs
    ensures x in Apply(s, l).db.execs
  {
    RowsStopWithReports(s, l, x);
  }

  lemma {:induction false} AttemptsAccounted(ls: seq<Label>, j: JobId, x: ExecId)
    ensures AttemptOk(Run(INITIAL, ls), LostBy(ls, x), j, x)
    ensures x !in Run(INITIAL, ls).db.execs ==> !LostBy(ls, x)
  {
    if ls != [] {
      var front, u := ls[..|ls| - 1], Run(INITIAL, ls[..|ls| - 1]);
      AttemptsAccounted(front, j, x);
      Reachable(front);
      if x in u.db.execs {
        LostWasThere(u, ls[|ls| - 1], x);
      }
      if IsCurrent(Run(INITIAL, ls).db, j, x) {
        AttemptKept(u, ls[|ls| - 1], LostBy(front, x), j, x);
      }
    }
  }

  // In every reachable state a leased RUNNING job has exactly one execution for its current attempt.
  // A worker carries that attempt out exactly as long as no step of the run has lost it; and its row
  // is RUNNING unless a worker other than the holder started it.
  lemma {:induction false} RunningJobsAreExecuted(ls: seq<Label>, j: JobId) returns (x: ExecId)
    requires j in Run(INITIAL, ls).db.jobs && RunningHeld(Run(INITIAL, ls).db.jobs[j])
    ensures
      var s := Run(INITIAL, ls);
      && IsAttempt(s.db, x, j, s.db.jobs[j].attemptCount)
      && (forall y :: IsAttempt(s.db, y, j, s.db.jobs[j].attemptCount) ==> y == x)
      && (x in s.executing <==> !LostBy(ls, x))
      && (RunsFor(s.db, x, j) || (x !in s.executing && s.db.jobs[j].workerId != Some(s.db.execs[x].workerId)))
  {
    var db := Run(INITIAL, ls).db;
    Reachable(ls);
    AlwaysCurrentOk(ls);
    AttemptHistory(ls, j, db.jobs[j].attemptCount);
    assert HasAttempt(db, j, db.jobs[j].attemptCount);
    x :| x in db.execs && IsAttempt(db, x, j, db.jobs[j].attemptCount);
    AttemptsAccounted(ls, j, x);
  }

  // ---- what gets an orphaned job out ----

  // No step of the run is an operator's on the job or recovers it.
  predicate LeftToItself(s: Sys, ls: seq<Label>, j: JobId) {
    ls == []
    || (LeftToItself(s, ls[..|ls| - 1], j)
        && !Operates(ls[|ls| - 1], j) && !Recovers(Run(s, ls[..|ls| - 1]), ls[|ls| - 1], j))
  }

  // A RUNNING job that no pending report can move stays the same row but for its lease, and out of
  // every report's reach, over every continuation, until an operator writes to it or recovery
  // finds its lease expired: starts, late reports, crashes, other jobs' recoveries, schedulers and
  // heartbeats of anybody do not matter.
  lemma {:induction false} OrphansStay(s: Sys, ls: seq<Label>, j: JobId)
    requires Inv(s) && j in s.db.jobs && RunningHeld(s.db.jobs[j]) && !Attended(s, j)
    requires LeftToItself(s, ls, j)
    ensures
      var t := Run(s, ls);
      j in t.db.jobs && OnlyLease(s.db.jobs[j], t.db.jobs[j]) && RunningHeld(t.db.jobs[j]) && !Attended(t, j)
  {
    if ls != [] {
      var front := ls[..|ls| - 1];
      OrphansStay(s, front, j);
      RunKeepsInv(s, front);
      UnattendedStep(Run(s, front), ls[|ls| - 1], j);
    }
  }

  // An operator's write to the job that takes effect.
  predicate Writes(s: Sys, l: Label, j: JobId) {
    match l
    case CancelWrite(k) => k == j && j in s.cancelReads
    case RetryWrite(k) => k == j && j in s.retryReads
    case RetryDeadLetter(k) => k == j && T.CanRetryDeadLetter(s.db, j)
    case _ => false
  }

  // The next step leaves such a job RUNNING and leased exactly when it is neither a recovery of it
  // nor an operator's write to it.
  lemma OrphanLeaves(s: Sys, l: Label, j: JobId)
    requires Inv(s) && j in s.db.jobs && RunningHeld(s.db.jobs[j]) && !Attended(s, j)
    ensures j in Apply(s, l).db.jobs
    ensures RunningHeld(Apply(s, l).db.jobs[j]) <==> !Writes(s, l, j) && !Recovers(s, l, j)
  {
    if Operates(l, j) {
      OperatorMoves(s, l, j);
    } else {
      UnattendedStep(s, l, j);
    }
  }

  lemma OperatorMoves(s: Sys, l: Label, j: JobId)
    requires j in s.db.jobs && Operates(l, j)
    ensures j in Apply(s, l).db.jobs
    ensures if Writes(s, l, j) then !RunningHeld(Apply(s, l).db.jobs[j]) else Apply(s, l).db.jobs[j] == s.db.jobs[j]
  {
  }

  // The lease is read whenever a recovery looks: what keeps it away is that the holder's lease, as
  // last renewed, has not run out.
  lemma LeaseKeepsRecoveryAway(s: Sys, l: Label, j: JobId)
    requires j in s.db.jobs && s.db.jobs[j].leaseExpiresAt.Some? && s.db.now <= s.db.jobs[j].leaseExpiresAt.value
    ensures !Recovers(s, l, j)
  {
  }

  // Every lease the holder has is renewed in time along the run.
  predicate RenewedInTime(s: Sys, ls: seq<Label>, j: JobId) {
    ls == []
    || (RenewedInTime(s, ls[..|ls| - 1], j)
        && var u := Run(s, ls[..|ls| - 1]);
        j in u.db.jobs && u.db.jobs[j].leaseExpiresAt.Some? && u.db.now <= u.db.jobs[j].leaseExpiresAt.value)
  }

  predicate Unoperated(ls: seq<Label>, j: JobId) {
    forall i :: 0 <= i < |ls| ==> !Operates(ls[i], j)
  }

  lemma {:induction false} TimelyBeatsKeepAway(s: Sys, ls: seq<Label>, j: JobId)
    requires RenewedInTime(s, ls, j) && Unoperated(ls, j)
    ensures LeftToItself(s, ls, j)
  {
    if ls != [] {
      var front := ls[..|ls| - 1];
      TimelyBeatsKeepAway(s, front, j);
      LeaseKeepsRecoveryAway(Run(s, front), ls[|ls| - 1], j);
    }
  }

  // Heartbeats in time keep an orphan for ever: as long as its lease is renewed before it runs out
  // and no operator writes to it, the job stays RUNNING, leased and beyond any report, in every
  // continuation.  The holder renews every RUNNING job of its identifier, so it need not be the
  // process that started this one.
  lemma {:induction false} HeartbeatsKeepOrphan(s: Sys, ls: seq<Label>, j: JobId)
    requires Inv(s) && j in s.db.jobs && RunningHeld(s.db.jobs[j]) && !Attended(s, j)
    requires RenewedInTime(s, ls, j) && Unoperated(ls, j)
    ensures
      var t := Run(s, ls);
      j in t.db.jobs && OnlyLease(s.db.jobs[j], t.db.jobs[j]) && RunningHeld(t.db.jobs[j]) && !Attended(t, j)
  {
    TimelyBeatsKeepAway(s, ls, j);
    OrphansStay(s, ls, j);
  }
}
