// What every reachable state satisfies, whatever operators do and however stale workers race:
// no job is stranded, and the attempt history has no gap and no repeat.
module Lifecycle {
  import opened Wrappers
  import opened Tables
  import opened Protocol
  import opened JobMoves
  import T = Transactions

  // One job row, given whether a dead-letter row exists for it and what the clock reads.
  ghost predicate RowOk(job: Job, buried: bool, now: Time) {
    && 1 <= job.maxAttempts && job.attemptCount <= job.maxAttempts
    && (job.status.Scheduled? || job.status.Retrying? ==> job.scheduledAt.Some?)
    && (job.status.Scheduled? ==> job.attemptCount == 0)
    && (job.status.Failed? ==> buried)
    && (!buried && !job.status.Running? && !job.status.Completed? && !job.status.Cancelled?
        ==> job.attemptCount < job.maxAttempts)
    && (job.status.Running? ==> job.attemptCount >= 1)
    && (Occupies(job) ==> IsDue(job, now))
    && (Held(job) ==> job.workerId.Some?)
    && (Parked(job) ==> job.workerId.None? && job.attemptCount == job.maxAttempts && buried)
  }

  ghost predicate RowsOk(db: Db) {
    forall j :: j in db.jobs ==> RowOk(db.jobs[j], j in db.dead, db.now)
  }

  ghost predicate DomainsOk(s: Sys) {
    && s.tally.Keys == s.db.jobs.Keys && s.db.dead.Keys <= s.db.jobs.Keys
    && s.retryReads <= s.db.dead.Keys && s.cancelReads <= s.db.jobs.Keys
    && (forall j :: j in s.db.jobs ==> s.db.jobs[j].queueId in s.db.queues)
  }

  ghost predicate ExecOk(db: Db, x: ExecId)
    requires x in db.execs
  {
    var exec := db.execs[x];
    exec.jobId in db.jobs && 1 <= exec.attempt <= db.jobs[exec.jobId].attemptCount && exec.startedAt <= db.now
  }

  ghost predicate NoRepeat(db: Db) {
    forall x, y | x in db.execs && y in db.execs && db.execs[x].jobId == db.execs[y].jobId
      :: db.execs[x].attempt == db.execs[y].attempt ==> x == y
  }

  ghost predicate NoGap(db: Db) {
    forall j, n :: j in db.jobs && 1 <= n <= db.jobs[j].attemptCount ==> HasAttempt(db, j, n)
  }

  ghost predicate Succeeded(db: Db, x: ExecId, j: JobId) {
    x in db.execs && db.execs[x].jobId == j && db.execs[x].status.ExecCompleted?
  }

  ghost predicate HasSuccess(db: Db, j: JobId) {
    exists x :: Succeeded(db, x, j)
  }

  ghost predicate Reported(exec: Exec) {
    exec.status.ExecCompleted? || exec.status.ExecFailed?
  }

  ghost predicate HistoryOk(s: Sys) {
    && (forall x :: x in s.db.execs ==> ExecOk(s.db, x))
    && NoRepeat(s.db) && NoGap(s.db)
    && (forall j :: j in s.db.jobs && s.db.jobs[j].status.Completed? ==> HasSuccess(s.db, j))
    && (forall x :: x in s.executing ==> x in s.db.execs && !Reported(s.db.execs[x]))
  }

  ghost predicate Inv(s: Sys) {
    DomainsOk(s) && RowsOk(s.db) && HistoryOk(s)
  }

  // ---- rows ----

  lemma MoveKeepsRow(job: Job, buried: bool, now: Time, later: Time, m: Move)
    requires RowOk(job, buried, now) && Enabled(job, buried, now, m) && now <= later
    ensures RowOk(After(job, now, m), buried || Buries(m), later)
  {
  }

  // ---- executions ----

  // How one execution row may change: its identity is fixed, a report is final, and only a
  // worker that has not reported yet can complete it.
  ghost predicate ExecStep(before: Exec, after: Exec, executing: bool) {
    && after == before.(status := after.status)
    && (after.status == before.status
        || (before.status.ExecRunning? && (after.status.ExecFailed? || after.status.ExecAbandoned?))
        || (executing && after.status.ExecCompleted?))
  }

  ghost predicate Started(s: Sys, t: Sys, x: ExecId) {
    && x in t.db.execs && t.db.execs[x].jobId in s.db.jobs && t.db.execs[x].jobId in t.db.jobs
    && t.db.execs[x].status.ExecRunning? && t.db.execs[x].startedAt == s.db.now
    && t.db.execs[x].attempt == s.db.jobs[t.db.execs[x].jobId].attemptCount + 1
    && t.db.jobs[t.db.execs[x].jobId].attemptCount == t.db.execs[x].attempt
  }

  ghost predicate ExecsStep(s: Sys, t: Sys, newcomer: Option<ExecId>) {
    && (forall x :: x in s.db.execs ==>
          x in t.db.execs && ExecStep(s.db.execs[x], t.db.execs[x], x in s.executing))
    && (forall x :: x in t.db.execs && x !in s.db.execs ==> newcomer == Some(x) && Started(s, t, x))
    && (forall x :: x in t.executing ==> x in s.executing || (x in t.db.execs && x !in s.db.execs))
    && (forall x :: x in t.executing && x in s.db.execs && Reported(t.db.execs[x]) ==> Reported(s.db.execs[x]))
  }

  ghost predicate HasRunning(db: Db, j: JobId) {
    exists x :: RunsFor(db, x, j)
  }

  ghost predicate StopsOne(s: Sys, t: Sys, j: JobId) {
    HasRunning(s.db, j) ==> exists x :: RunsFor(s.db, x, j) && x in t.db.execs && !t.db.execs[x].status.ExecRunning?
  }

  // A job's attempt counter rises only together with a new execution row of that number; a job
  // becomes COMPLETED only together with one of its executions; and it fails, retries or parks
  // only when one of its running executions, if there is any, is stopped.
  ghost predicate ProgressStep(s: Sys, t: Sys, j: JobId, newcomer: Option<ExecId>)
    requires j in s.db.jobs && j in t.db.jobs
  {
    var n, n' := s.db.jobs[j].attemptCount, t.db.jobs[j].attemptCount;
    && (n' == n || (n' == n + 1 && newcomer.Some? && IsAttempt(t.db, newcomer.value, j, n')))
    && (t.db.jobs[j].status.Completed? ==> s.db.jobs[j].status.Completed? || HasSuccess(t.db, j))
    && (t.db.jobs[j] != s.db.jobs[j] && Settled(t.db.jobs[j]) ==> StopsOne(s, t, j))
    && (TallyOf(t.tally, j).failuresAfterPark != TallyOf(s.tally, j).failuresAfterPark ==> HasRunning(s.db, j))
  }

  lemma StartExecs(s: Sys, j: JobId, w: WorkerId, x: ExecId)
    ensures ExecsStep(s, DoStart(s, j, w, x), Some(x))
  {
  }

  lemma StartProgress(s: Sys, k: JobId, w: WorkerId, x: ExecId, j: JobId)
    requires j in s.db.jobs && RowOk(s.db.jobs[j], j in s.db.dead, s.db.now)
    ensures ProgressStep(s, DoStart(s, k, w, x), j, Some(x))
  {
    var t := DoStart(s, k, w, x);
    if T.CanStart(s.db, k, x) && InHand(s.hands, k, w) > 0 && k == j {
      assert IsAttempt(t.db, x, j, t.db.jobs[j].attemptCount);
      assert !Parked(s.db.jobs[j]);
    } else {
      assert t.db.jobs[j] == s.db.jobs[j];
    }
  }

  lemma CompleteExecs(s: Sys, x: ExecId)
    ensures ExecsStep(s, DoComplete(s, x), None)
  {
  }

  lemma CompleteProgress(s: Sys, x: ExecId, j: JobId)
    requires j in s.db.jobs
    ensures ProgressStep(s, DoComplete(s, x), j, None)
  {
    var t := DoComplete(s, x);
    if x in s.executing && T.CanComplete(s.db, x) && T.OwnsRunning(s.db, x) && s.db.execs[x].jobId == j {
      assert Succeeded(t.db, x, j);
    }
  }

  lemma FailWritesExecs(db: Db, x: ExecId, retryable: bool, retryAt: Option<Time>)
    ensures
      T.Fail(db, x, retryable, retryAt).execs
      == if T.FailureCommits(db, x, retryable, retryAt)
         then db.execs[x := db.execs[x].(status := ExecFailed)]
         else db.execs
  {
  }

  lemma FailDbOf(s: Sys, x: ExecId, retryable: bool, retryAt: Option<Time>)
    ensures
      var t := DoFail(s, x, retryable, retryAt);
      t.db == T.Fail(s.db, x, retryable, retryAt) && t.executing == s.executing - {x}
  {
  }

  // A failure marks one RUNNING execution, the one that reports it.
  lemma FailMarksOne(s: Sys, t: Sys, x: ExecId, marks: bool)
    requires marks ==> x in s.db.execs && s.db.execs[x].status.ExecRunning?
    requires t.db.execs == if marks then s.db.execs[x := s.db.execs[x].(status := ExecFailed)] else s.db.execs
    requires t.executing == s.executing - {x}
    ensures ExecsStep(s, t, None)
  {
  }

  lemma FailExecs(s: Sys, x: ExecId, retryable: bool, retryAt: Option<Time>)
    ensures ExecsStep(s, DoFail(s, x, retryable, retryAt), None)
  {
    FailWritesExecs(s.db, x, retryable, retryAt);
    FailDbOf(s, x, retryable, retryAt);
    FailMarksOne(s, DoFail(s, x, retryable, retryAt), x, T.FailureCommits(s.db, x, retryable, retryAt));
  }

  lemma FailProgress(s: Sys, x: ExecId, retryable: bool, retryAt: Option<Time>, j: JobId)
    requires j in s.db.jobs
    ensures ProgressStep(s, DoFail(s, x, retryable, retryAt), j, None)
  {
    var t := DoFail(s, x, retryable, retryAt);
    if T.FailureCommits(s.db, x, retryable, retryAt) && s.db.execs[x].jobId == j {
      assert RunsFor(s.db, x, j) && !t.db.execs[x].status.ExecRunning?;
    } else {
      assert t.db.jobs[j] == s.db.jobs[j] && TallyOf(t.tally, j) == TallyOf(s.tally, j);
    }
  }

  lemma RecoverExec(s: Sys, j: JobId, top: Option<ExecId>, retryAt: Option<Time>, y: ExecId)
    requires y in s.db.execs
    ensures
      var t := DoRecover(s, j, top, retryAt);
      && y in t.db.execs && ExecStep(s.db.execs[y], t.db.execs[y], y in s.executing)
      && (y in t.executing && Reported(t.db.execs[y]) ==> Reported(s.db.execs[y]))
  {
  }

  lemma RecoverDomains(s: Sys, j: JobId, top: Option<ExecId>, retryAt: Option<Time>)
    ensures
      var t := DoRecover(s, j, top, retryAt);
      t.db.execs.Keys == s.db.execs.Keys && t.executing == s.executing
  {
  }

  lemma RecoverExecs(s: Sys, j: JobId, top: Option<ExecId>, retryAt: Option<Time>)
    ensures ExecsStep(s, DoRecover(s, j, top, retryAt), None)
  {
    var t := DoRecover(s, j, top, retryAt);
    RecoverDomains(s, j, top, retryAt);
    forall y | y in s.db.execs
      ensures y in t.db.execs && ExecStep(s.db.execs[y], t.db.execs[y], y in s.executing)
      ensures y in t.executing && Reported(t.db.execs[y]) ==> Reported(s.db.execs[y])
    {
      RecoverExec(s, j, top, retryAt, y);
    }
  }

  lemma RecoverProgress(s: Sys, k: JobId, top: Option<ExecId>, retryAt: Option<Time>, j: JobId)
    requires j in s.db.jobs
    ensures ProgressStep(s, DoRecover(s, k, top, retryAt), j, None)
  {
  }

  // ---- one step, without saying which ----

  ghost predicate Born(s: Sys, t: Sys, j: JobId)
    requires j in t.db.jobs
  {
    && j !in t.db.dead && j in t.tally && t.tally[j] == NOTHING && t.db.now == s.db.now
    && exists input :: T.CanCreate(s.db, j, input) && t.db.jobs[j] == T.FreshJob(input, s.db.now)
  }

  ghost predicate Grows(s: Sys, t: Sys) {
    && DomainsOk(t)
    && s.db.jobs.Keys <= t.db.jobs.Keys && s.db.dead.Keys <= t.db.dead.Keys && s.db.now <= t.db.now
  }

  ghost predicate HasMove(s: Sys, t: Sys, j: JobId)
    requires j in s.db.jobs
  {
    exists m :: Moves(s, t, j, m)
  }

  ghost predicate Step(s: Sys, t: Sys, newcomer: Option<ExecId>) {
    && Grows(s, t)
    && (forall j :: j in s.db.jobs ==> HasMove(s, t, j) && ProgressStep(s, t, j, newcomer))
    && (forall j :: j in t.db.jobs && j !in s.db.jobs ==> Born(s, t, j))
    && ExecsStep(s, t, newcomer)
  }

  lemma FramedGrows(s: Sys, t: Sys)
    requires DomainsOk(s) && Framed(s, t)
    ensures Grows(s, t)
  {
  }

  lemma QuietExecs(s: Sys, t: Sys)
    requires SameProgress(s, t)
    ensures ExecsStep(s, t, None)
  {
  }

  lemma QuietProgress(s: Sys, t: Sys, j: JobId)
    requires SameProgress(s, t) && j in s.db.jobs && j in t.db.jobs
    ensures ProgressStep(s, t, j, None)
  {
  }

  // A transaction that touches no execution.
  lemma QuietSteps(s: Sys, t: Sys)
    requires DomainsOk(s) && Grows(s, t) && SameProgress(s, t) && t.db.jobs.Keys == s.db.jobs.Keys
    requires forall j :: j in s.db.jobs ==> HasMove(s, t, j)
    ensures Step(s, t, None)
  {
    QuietExecs(s, t);
    forall j | j in s.db.jobs
      ensures ProgressStep(s, t, j, None)
    {
      QuietProgress(s, t, j);
    }
  }

  lemma PromoteSteps(s: Sys, ids: seq<JobId>, at: Time)
    requires DomainsOk(s)
    ensures Step(s, DoPromote(s, ids, at), None)
  {
    var t := DoPromote(s, ids, at);
    FramedGrows(s, t);
    forall j | j in s.db.jobs
      ensures HasMove(s, t, j)
    {
      var m := PromoteMoves(s, ids, at, j);
    }
    QuietSteps(s, t);
  }

  lemma ClaimSteps(s: Sys, k: JobId, w: WorkerId, leaseMs: nat, at: Time)
    requires DomainsOk(s)
    ensures Step(s, DoClaim(s, k, w, leaseMs, at), None)
  {
    var t := DoClaim(s, k, w, leaseMs, at);
    FramedGrows(s, t);
    forall j | j in s.db.jobs
      ensures HasMove(s, t, j)
    {
      var m := ClaimMoves(s, k, w, leaseMs, at, j);
    }
    QuietSteps(s, t);
  }

  lemma StartSteps(s: Sys, k: JobId, w: WorkerId, x: ExecId)
    requires DomainsOk(s) && RowsOk(s.db)
    ensures Step(s, DoStart(s, k, w, x), Some(x))
  {
    var t := DoStart(s, k, w, x);
    FramedGrows(s, t);
    StartExecs(s, k, w, x);
    forall j | j in s.db.jobs
      ensures HasMove(s, t, j) && ProgressStep(s, t, j, Some(x))
    {
      var m := StartMoves(s, k, w, x, j);
      StartProgress(s, k, w, x, j);
    }
  }

  lemma CompleteSteps(s: Sys, x: ExecId)
    requires DomainsOk(s)
    ensures Step(s, DoComplete(s, x), None)
  {
    var t := DoComplete(s, x);
    FramedGrows(s, t);
    CompleteExecs(s, x);
    forall j | j in s.db.jobs
      ensures HasMove(s, t, j) && ProgressStep(s, t, j, None)
    {
      var m := CompleteMoves(s, x, j);
      CompleteProgress(s, x, j);
    }
  }

  lemma FailSteps(s: Sys, x: ExecId, retryable: bool, retryAt: Option<Time>)
    requires DomainsOk(s) && x in s.db.execs && (retryAt.Some? ==> s.db.now <= retryAt.value)
    ensures Step(s, DoFail(s, x, retryable, retryAt), None)
  {
    var t := DoFail(s, x, retryable, retryAt);
    FramedGrows(s, t);
    FailExecs(s, x, retryable, retryAt);
    forall j | j in s.db.jobs
      ensures HasMove(s, t, j) && ProgressStep(s, t, j, None)
    {
      var m := FailMoves(s, x, retryable, retryAt, j);
      FailProgress(s, x, retryable, retryAt, j);
    }
  }

  lemma RecoverSteps(s: Sys, k: JobId, top: Option<ExecId>, retryAt: Option<Time>)
    requires DomainsOk(s) && (retryAt.Some? ==> s.db.now <= retryAt.value)
    ensures Step(s, DoRecover(s, k, top, retryAt), None)
  {
    var t := DoRecover(s, k, top, retryAt);
    FramedGrows(s, t);
    RecoverExecs(s, k, top, retryAt);
    forall j | j in s.db.jobs
      ensures HasMove(s, t, j) && ProgressStep(s, t, j, None)
    {
      var m := RecoverMoves(s, k, top, retryAt, j);
      RecoverProgress(s, k, top, retryAt, j);
    }
  }

  lemma CancelSteps(s: Sys, k: JobId)
    requires DomainsOk(s)
    ensures Step(s, DoCancelWrite(s, k), None)
  {
    var t := DoCancelWrite(s, k);
    FramedGrows(s, t);
    forall j | j in s.db.jobs
      ensures HasMove(s, t, j)
    {
      var m := CancelMoves(s, k, j);
    }
    QuietSteps(s, t);
  }

  lemma RetrySteps(s: Sys, k: JobId)
    requires DomainsOk(s)
    ensures Step(s, DoRetryWrite(s, k), None)
  {
    var t := DoRetryWrite(s, k);
    FramedGrows(s, t);
    forall j | j in s.db.jobs
      ensures HasMove(s, t, j)
    {
      var m := RetryMoves(s, k, j);
    }
    QuietSteps(s, t);
  }

  lemma RetryDeadLetterSteps(s: Sys, k: JobId)
    requires DomainsOk(s)
    ensures Step(s, DoRetryDeadLetter(s, k), None)
  {
    var t := DoRetryDeadLetter(s, k);
    FramedGrows(s, t);
    forall j | j in s.db.jobs
      ensures HasMove(s, t, j)
    {
      var m := RetryDeadLetterMoves(s, k, j);
    }
    QuietSteps(s, t);
  }

  lemma HeartbeatSteps(s: Sys, w: WorkerId, leaseMs: nat)
    requires DomainsOk(s)
    ensures Step(s, DoHeartbeat(s, w, leaseMs), None)
  {
    var t := DoHeartbeat(s, w, leaseMs);
    forall j | j in s.db.jobs
      ensures HasMove(s, t, j)
    {
      assert Moves(s, t, j, if s.db.jobs[j].workerId == Some(w) && s.db.jobs[j].status.Running?
                            then Beat(s.db.now + leaseMs) else Stay);
    }
    QuietSteps(s, t);
  }

  // A step that leaves every job row alone.
  lemma IdleSteps(s: Sys, t: Sys)
    requires DomainsOk(s) && Grows(s, t) && t.db.jobs == s.db.jobs && t.db.dead == s.db.dead
    requires t.db.execs == s.db.execs && t.executing == s.executing && t.tally == s.tally
    ensures Step(s, t, None)
  {
    forall j | j in s.db.jobs
      ensures HasMove(s, t, j)
    {
      assert Moves(s, t, j, Stay);
    }
    QuietSteps(s, t);
  }

  lemma EnvironmentSteps(s: Sys, elapsed: nat, q: QueueId, row: Queue)
    requires DomainsOk(s)
    ensures Step(s, DoTick(s, elapsed), None) && Step(s, DoPutQueue(s, q, row), None)
  {
    IdleSteps(s, DoTick(s, elapsed));
    IdleSteps(s, DoPutQueue(s, q, row));
  }

  lemma CrashSteps(s: Sys, x: ExecId)
    requires DomainsOk(s)
    ensures Step(s, DoCrash(s, x), None)
  {
    var t := DoCrash(s, x);
    forall j | j in s.db.jobs
      ensures HasMove(s, t, j) && ProgressStep(s, t, j, None)
    {
      assert Moves(s, t, j, Stay);
    }
  }

  lemma CancelReadSteps(s: Sys, j: JobId)
    requires DomainsOk(s)
    ensures Step(s, DoCancelRead(s, j), None)
  {
    IdleSteps(s, DoCancelRead(s, j));
  }

  lemma RetryReadSteps(s: Sys, j: JobId)
    requires DomainsOk(s) && RowsOk(s.db)
    ensures Step(s, DoRetryRead(s, j), None)
  {
    var t := DoRetryRead(s, j);
    assert T.OperatorRetryable(s.db, j) ==> j in s.db.dead;
    IdleSteps(s, t);
  }

  // Creation adds one row and leaves the others alone.
  lemma CreateKeeps(s: Sys, k: JobId, input: T.NewJob, j: JobId)
    requires DomainsOk(s) && j in s.db.jobs
    ensures HasMove(s, DoCreate(s, k, input), j) && ProgressStep(s, DoCreate(s, k, input), j, None)
  {
    var t := DoCreate(s, k, input);
    assert t.db.jobs[j] == s.db.jobs[j] && t.tally[j] == s.tally[j];
    assert Moves(s, t, j, Stay);
  }

  lemma CreateSteps(s: Sys, k: JobId, input: T.NewJob)
    requires DomainsOk(s)
    ensures Step(s, DoCreate(s, k, input), None)
  {
    var t := DoCreate(s, k, input);
    assert Grows(s, t);
    assert ExecsStep(s, t, None);
    forall j | j in s.db.jobs
      ensures HasMove(s, t, j) && ProgressStep(s, t, j, None)
    {
      CreateKeeps(s, k, input, j);
    }
  }

  lemma WorkerLabelSteps(s: Sys, l: Label) returns (newcomer: Option<ExecId>)
    requires DomainsOk(s) && RowsOk(s.db)
    requires l.Claim? || l.Start? || l.Heartbeat? || l.Complete? || l.Fail? || l.Recover?
    ensures Step(s, Apply(s, l), newcomer)
  {
    newcomer := None;
    match l
    case Claim(k, w, leaseMs, at) => ClaimSteps(s, k, w, leaseMs, at);
    case Start(k, w, x) => StartSteps(s, k, w, x); newcomer := Some(x);
    case Heartbeat(w, leaseMs) => HeartbeatSteps(s, w, leaseMs);
    case Complete(x) => CompleteSteps(s, x);
    case Fail(x, retryable, roll) =>
      if x in s.executing && x in s.db.execs {
        RetryIsNotEarlier(s.db, s.db.execs[x].jobId, roll);
        FailSteps(s, x, retryable, RetryInstantOf(s.db, x, roll));
      } else {
        IdleSteps(s, s);
      }
    case Recover(k, top, roll) =>
      RetryIsNotEarlier(s.db, k, roll);
      RecoverSteps(s, k, top, RetryInstantFor(s.db, k, roll));
  }

  lemma EnvironmentLabelSteps(s: Sys, l: Label)
    requires DomainsOk(s) && RowsOk(s.db)
    requires l.Tick? || l.PutQueue? || l.Drop? || l.Crash? || l.CancelRead? || l.RetryRead?
    ensures Step(s, Apply(s, l), None)
  {
    match l
    case Tick(elapsed) => EnvironmentSteps(s, elapsed, 0, Queue(true, false, 0));
    case PutQueue(q, row) => EnvironmentSteps(s, 0, q, row);
    case Drop(k, w) => IdleSteps(s, DoDrop(s, k, w));
    case Crash(x) => CrashSteps(s, x);
    case CancelRead(j) => CancelReadSteps(s, j);
    case RetryRead(j) => RetryReadSteps(s, j);
  }

  // Whatever the label, one step of the system is a Step.
  lemma {:induction false} EveryLabelSteps(s: Sys, l: Label) returns (newcomer: Option<ExecId>)
    requires DomainsOk(s) && RowsOk(s.db)
    ensures Step(s, Apply(s, l), newcomer)
  {
    newcomer := None;
    match l
    case Create(k, input) => CreateSteps(s, k, input);
    case Promote(ids, at) => PromoteSteps(s, ids, at);
    case CancelWrite(k) => CancelSteps(s, k);
    case RetryWrite(k) => RetrySteps(s, k);
    case RetryDeadLetter(k) => RetryDeadLetterSteps(s, k);
    case Claim(_, _, _, _) => newcomer := WorkerLabelSteps(s, l);
    case Start(_, _, _) => newcomer := WorkerLabelSteps(s, l);
    case Heartbeat(_, _) => newcomer := WorkerLabelSteps(s, l);
    case Complete(_) => newcomer := WorkerLabelSteps(s, l);
    case Fail(_, _, _) => newcomer := WorkerLabelSteps(s, l);
    case Recover(_, _, _) => newcomer := WorkerLabelSteps(s, l);
    case _ => EnvironmentLabelSteps(s, l);
  }

  lemma RowsKept(s: Sys, t: Sys, newcomer: Option<ExecId>)
    requires Step(s, t, newcomer) && RowsOk(s.db)
    ensures RowsOk(t.db)
  {
    forall j | j in t.db.jobs
      ensures RowOk(t.db.jobs[j], j in t.db.dead, t.db.now)
    {
      if j in s.db.jobs {
        assert HasMove(s, t, j);
        var m :| Moves(s, t, j, m);
        MoveKeepsRow(s.db.jobs[j], j in s.db.dead, s.db.now, t.db.now, m);
      } else {
        assert Born(s, t, j);
      }
    }
  }
}
