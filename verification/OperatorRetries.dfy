// What an operator's retry can lead to: exactly when it can make a job run twice, why an exhausted
// job never runs again, and why the dead-letter endpoint works once.
module OperatorRetries {
  import opened Wrappers
  import opened Tables
  import opened Protocol
  import opened JobMoves
  import opened Lifecycle
  import opened History
  import opened Capacity
  import opened SingleAttempt
  import opened Unblocking
  import T = Transactions

  ghost predicate AtMostOne(db: Db, j: JobId) {
    forall x, y :: RunsFor(db, x, j) && RunsFor(db, y, j) ==> x == y
  }

  predicate Exhausted(job: Job) {
    job.attemptCount >= job.maxAttempts
  }

  // The job's queue is archived and nobody has claimed the job: nobody ever will, because no code
  // restores an archived queue.
  predicate Shelved(db: Db, j: JobId)
    requires j in db.jobs
  {
    QueueArchived(db, db.jobs[j].queueId) && !db.jobs[j].status.Claimed?
  }

  // No second attempt can begin beside a RUNNING one unless an operator forces it.
  ghost predicate Solo(db: Db, j: JobId)
    requires j in db.jobs
  {
    AtMostOne(db, j) && (LiveRow(db, j) || Exhausted(db.jobs[j]) || Shelved(db, j))
  }

  // An operator's retry of the job that takes effect, through either endpoint.
  predicate Requeues(s: Sys, l: Label, j: JobId) {
    && j in s.db.jobs
    && match l
       case RetryWrite(k) => k == j && j in s.retryReads
       case RetryDeadLetter(k) => k == j && T.CanRetryDeadLetter(s.db, j)
       case _ => false
  }

  predicate RetriesByHand(l: Label, j: JobId) {
    (l.RetryWrite? || l.RetryDeadLetter?) && l.j == j
  }

  // What the operator could check: no execution of the job is RUNNING, or no attempts are left, or the
  // job's queue is archived.
  ghost predicate SafeToRetry(db: Db, j: JobId)
    requires j in db.jobs
  {
    (forall x :: !RunsFor(db, x, j)) || Exhausted(db.jobs[j]) || QueueArchived(db, db.jobs[j].queueId)
  }

  // ---- one step ----

  lemma LiveRowIsSingle(db: Db, j: JobId)
    requires j in db.jobs && LiveRow(db, j) && NoRepeat(db)
    ensures AtMostOne(db, j)
  {
  }

  // Whatever the step, an exhausted job starts nothing: its executions are the ones it had, and none
  // of them starts to run.
  ghost predicate NothingStarts(s: Sys, t: Sys, j: JobId) {
    && j in s.db.jobs && j in t.db.jobs && t.db.jobs[j].attemptCount == s.db.jobs[j].attemptCount
    && t.db.jobs[j].maxAttempts == s.db.jobs[j].maxAttempts
    && (forall x :: x in t.db.execs && t.db.execs[x].jobId == j ==> x in s.db.execs && s.db.execs[x].jobId == j)
    && (forall x :: RunsFor(t.db, x, j) ==> RunsFor(s.db, x, j))
  }

  lemma ExhaustedMove(job: Job, buried: bool, now: Time, m: Move)
    requires RowOk(job, buried, now) && Enabled(job, buried, now, m) && Exhausted(job)
    ensures After(job, now, m).attemptCount == job.attemptCount && After(job, now, m).maxAttempts == job.maxAttempts
  {
  }

  lemma ExhaustedStep(s: Sys, t: Sys, newcomer: Option<ExecId>, j: JobId)
    requires j in s.db.jobs && j in t.db.jobs && RowOk(s.db.jobs[j], j in s.db.dead, s.db.now)
    requires Exhausted(s.db.jobs[j])
    requires HasMove(s, t, j) && ExecsStep(s, t, newcomer)
    ensures NothingStarts(s, t, j)
  {
    var m :| Moves(s, t, j, m);
    ExhaustedMove(s.db.jobs[j], j in s.db.dead, s.db.now, m);
    forall x | x in t.db.execs && t.db.execs[x].jobId == j
      ensures x in s.db.execs && s.db.execs[x].jobId == j && (RunsFor(t.db, x, j) ==> RunsFor(s.db, x, j))
    {
      assert x !in s.db.execs ==> Started(s, t, x);
      if x in s.db.execs {
        assert ExecStep(s.db.execs[x], t.db.execs[x], x in s.executing);
      }
    }
  }

  lemma ReportsKeepRetries(s: Sys, l: Label, j: JobId)
    requires j in s.db.jobs && (l.Complete? || l.Fail? || l.Recover?)
    ensures TallyOf(Apply(s, l).tally, j).forcedRetries == TallyOf(s.tally, j).forcedRetries
  {
  }

  lemma MachineKeepsRetries(s: Sys, l: Label, j: JobId)
    requires j in s.db.jobs && !l.RetryWrite? && !l.RetryDeadLetter? && !l.CancelWrite?
    ensures TallyOf(Apply(s, l).tally, j).forcedRetries == TallyOf(s.tally, j).forcedRetries
  {
    if l.Complete? || l.Fail? || l.Recover? {
      ReportsKeepRetries(s, l, j);
    }
  }

  lemma OperatorsKeepRetries(s: Sys, l: Label, j: JobId)
    requires j in s.db.jobs && !Requeues(s, l, j) && (l.RetryWrite? || l.RetryDeadLetter? || l.CancelWrite?)
    ensures TallyOf(Apply(s, l).tally, j).forcedRetries == TallyOf(s.tally, j).forcedRetries
  {
  }

  lemma OthersKeepRetries(s: Sys, l: Label, j: JobId)
    requires j in s.db.jobs && !Requeues(s, l, j)
    ensures TallyOf(Apply(s, l).tally, j).forcedRetries == TallyOf(s.tally, j).forcedRetries
  {
    if l.RetryWrite? || l.RetryDeadLetter? || l.CancelWrite? {
      OperatorsKeepRetries(s, l, j);
    } else {
      MachineKeepsRetries(s, l, j);
    }
  }

  lemma RequeueWrites(s: Sys, l: Label, j: JobId)
    requires Requeues(s, l, j)
    ensures
      var t := Apply(s, l);
      && t.db.execs == s.db.execs && t.executing == s.executing && t.db.queues == s.db.queues && t.db.now == s.db.now
      && t.db.jobs == s.db.jobs[j := T.Requeued(s.db.jobs[j])]
  {
  }

  lemma ExhaustedStaysSolo(s: Sys, t: Sys, newcomer: Option<ExecId>, j: JobId)
    requires j in s.db.jobs && j in t.db.jobs && RowOk(s.db.jobs[j], j in s.db.dead, s.db.now)
    requires Exhausted(s.db.jobs[j])
    requires HasMove(s, t, j) && ExecsStep(s, t, newcomer) && AtMostOne(s.db, j)
    ensures Solo(t.db, j)
  {
    ExhaustedStep(s, t, newcomer, j);
  }

  // ---- archived queues ----

  lemma NoClaimFromShelf(s: Sys, l: Label, j: JobId)
    requires j in s.db.jobs && Shelved(s.db, j)
    ensures l.Claim? && l.j == j ==> !T.CanClaim(s.db, j, l.at)
  {
  }

  lemma OthersDoNotClaimJob(s: Sys, l: Label, j: JobId)
    requires j in s.db.jobs && (l.Claim? && l.j == j ==> !T.CanClaim(s.db, j, l.at))
    ensures TallyOf(Apply(s, l).tally, j).claimants == TallyOf(s.tally, j).claimants
  {
    if l.Claim? {
      ClaimApplies(s, l.j, l.w, l.leaseMs, l.at);
    } else {
      MachineDoesNotClaim(s, l, j);
    }
  }

  lemma MachineDoesNotClaim(s: Sys, l: Label, j: JobId)
    requires !l.Claim? && j in s.db.jobs
    ensures TallyOf(Apply(s, l).tally, j).claimants == TallyOf(s.tally, j).claimants
  {
  }

  lemma ShelvedMove(job: Job, buried: bool, now: Time, m: Move, c: Tally)
    requires Enabled(job, buried, now, m) && !job.status.Claimed? && Noted(c, job, m).claimants == c.claimants
    ensures !After(job, now, m).status.Claimed?
    ensures After(job, now, m).attemptCount == job.attemptCount && After(job, now, m).queueId == job.queueId
  {
    assert m.BeClaimed? ==> |Noted(c, job, m).claimants| == |c.claimants| + 1;
  }

  // A step that starts no attempt of the job adds no RUNNING execution.
  lemma NoStartKeepsOne(s: Sys, t: Sys, newcomer: Option<ExecId>, j: JobId)
    requires ExecsStep(s, t, newcomer) && j in s.db.jobs && j in t.db.jobs && AtMostOne(s.db, j)
    requires t.db.jobs[j].attemptCount == s.db.jobs[j].attemptCount
    ensures AtMostOne(t.db, j)
  {
    forall x | RunsFor(t.db, x, j)
      ensures RunsFor(s.db, x, j)
    {
      assert x !in s.db.execs ==> Started(s, t, x);
      if x in s.db.execs {
        assert ExecStep(s.db.execs[x], t.db.execs[x], x in s.executing);
      }
    }
  }

  lemma ShelvedStaysSolo(s: Sys, l: Label, newcomer: Option<ExecId>, j: JobId)
    requires j in s.db.jobs && j in Apply(s, l).db.jobs && Shelved(s.db, j) && AtMostOne(s.db, j)
    requires HasMove(s, Apply(s, l), j) && ExecsStep(s, Apply(s, l), newcomer)
    ensures Solo(Apply(s, l).db, j)
  {
    var t := Apply(s, l);
    NoClaimFromShelf(s, l, j);
    OthersDoNotClaimJob(s, l, j);
    ArchivedStays(s, l, s.db.jobs[j].queueId);
    var m :| Moves(s, t, j, m);
    ShelvedMove(s.db.jobs[j], j in s.db.dead, s.db.now, m, TallyOf(s.tally, j));
    NoStartKeepsOne(s, t, newcomer, j);
  }

  lemma ArchivedRequeueStaysSolo(s: Sys, l: Label, j: JobId)
    requires Requeues(s, l, j) && QueueArchived(s.db, s.db.jobs[j].queueId) && AtMostOne(s.db, j)
    ensures j in Apply(s, l).db.jobs && Solo(Apply(s, l).db, j)
  {
    RequeueWrites(s, l, j);
    assert forall x :: RunsFor(Apply(s, l).db, x, j) ==> RunsFor(s.db, x, j);
  }

  lemma IdleRequeueStaysSolo(s: Sys, l: Label, j: JobId)
    requires Requeues(s, l, j) && forall x :: !RunsFor(s.db, x, j)
    ensures j in Apply(s, l).db.jobs && Solo(Apply(s, l).db, j)
  {
    RequeueWrites(s, l, j);
    assert forall x :: RunsFor(Apply(s, l).db, x, j) ==> RunsFor(s.db, x, j);
  }

  // A retry that is safe, like any other step, keeps the job solo.
  lemma SoloStep(s: Sys, l: Label, j: JobId)
    requires Inv(s) && j in s.db.jobs && Solo(s.db, j) && (Requeues(s, l, j) ==> SafeToRetry(s.db, j))
    ensures j in Apply(s, l).db.jobs && Solo(Apply(s, l).db, j)
  {
    var t := Apply(s, l);
    var newcomer := EveryLabelSteps(s, l);
    assert HasMove(s, t, j) && ProgressStep(s, t, j, newcomer);
    if Exhausted(s.db.jobs[j]) {
      ExhaustedStaysSolo(s, t, newcomer, j);
    } else if Shelved(s.db, j) {
      ShelvedStaysSolo(s, l, newcomer, j);
    } else if Requeues(s, l, j) && QueueArchived(s.db, s.db.jobs[j].queueId) {
      ArchivedRequeueStaysSolo(s, l, j);
    } else if Requeues(s, l, j) {
      IdleRequeueStaysSolo(s, l, j);
    } else {
      OthersKeepRetries(s, l, j);
      LiveRowKept(s, t, newcomer, j);
      NoRepeatKept(s, t, newcomer);
      LiveRowIsSingle(t.db, j);
    }
  }

  // ---- careful operators ----

  // Every retry by hand along the run was safe when it was written.
  ghost predicate Careful(s: Sys, ls: seq<Label>, j: JobId) {
    ls == []
    || (Careful(s, ls[..|ls| - 1], j)
        && var u := Run(s, ls[..|ls| - 1]);
        Requeues(u, ls[|ls| - 1], j) ==> SafeToRetry(u.db, j))
  }

  lemma {:induction false} CarefulRun(s: Sys, ls: seq<Label>, j: JobId)
    requires Inv(s) && j in s.db.jobs && Solo(s.db, j) && Careful(s, ls, j)
    ensures j in Run(s, ls).db.jobs && Solo(Run(s, ls).db, j)
  {
    if ls != [] {
      CarefulRun(s, ls[..|ls| - 1], j);
      RunKeepsInv(s, ls[..|ls| - 1]);
      SoloStep(Run(s, ls[..|ls| - 1]), ls[|ls| - 1], j);
    }
  }

  lemma NewJobIsSolo(s: Sys, t: Sys, newcomer: Option<ExecId>, j: JobId)
    requires Inv(s) && Step(s, t, newcomer) && j in t.db.jobs && j !in s.db.jobs
    ensures Solo(t.db, j)
  {
    NewJobHasNoExecs(s, t, newcomer, j);
  }

  // One live attempt, with careful operators: in every run in which each retry by hand came when no
  // execution of the job was RUNNING, no attempts were left or the queue was archived, the job has at
  // most one RUNNING execution, however many retries, cancels, crashes and late workers there were.
  lemma {:induction false} CarefulOperatorsKeepOneAttempt(ls: seq<Label>, j: JobId)
    requires Careful(INITIAL, ls, j)
    ensures j in Run(INITIAL, ls).db.jobs ==> Solo(Run(INITIAL, ls).db, j)
  {
    if ls != [] {
      CarefulOperatorsKeepOneAttempt(ls[..|ls| - 1], j);
      var u, newcomer := LastStep(INITIAL, ls);
      if j in u.db.jobs {
        SoloStep(u, ls[|ls| - 1], j);
      } else if j in Run(INITIAL, ls).db.jobs {
        NewJobIsSolo(u, Run(INITIAL, ls), newcomer, j);
      }
    }
  }

  // ---- careless operators ----

  predicate Untouched(ls: seq<Label>, j: JobId) {
    forall i :: 0 <= i < |ls| ==> !RetriesByHand(ls[i], j)
  }

  lemma UntouchedFront(ls: seq<Label>, j: JobId)
    requires ls != [] && Untouched(ls, j)
    ensures Untouched(ls[..|ls| - 1], j) && !RetriesByHand(ls[|ls| - 1], j)
  {
  }

  lemma {:induction false} UntouchedIsCareful(s: Sys, ls: seq<Label>, j: JobId)
    requires Untouched(ls, j)
    ensures Careful(s, ls, j)
  {
    if ls != [] {
      UntouchedFront(ls, j);
      UntouchedIsCareful(s, ls[..|ls| - 1], j);
    }
  }

  lemma RoomIsMade(s: Sys, j: JobId, limit: nat, wait: nat) returns (ls: seq<Label>)
    requires j in s.db.jobs && limit > 0 && !QueueArchived(s.db, s.db.jobs[j].queueId)
    ensures Untouched(ls, j)
    ensures
      var t := Run(s, ls);
      && t.db.jobs == s.db.jobs && t.db.execs == s.db.execs && t.db.now == s.db.now + wait
      && s.db.jobs[j].queueId in t.db.queues && t.db.queues[s.db.jobs[j].queueId] == Queue(true, false, limit)
  {
    var put, tick := PutQueue(s.db.jobs[j].queueId, Queue(true, false, limit)), Tick(wait);
    ls := [put, tick];
    RunTwo(s, put, tick);
  }

  lemma ClaimsAndStarts(s: Sys, j: JobId, x: ExecId) returns (ls: seq<Label>)
    requires T.CanClaim(s.db, j, s.db.now) && x !in s.db.execs && !Exhausted(s.db.jobs[j])
    requires !HasAttempt(s.db, j, s.db.jobs[j].attemptCount + 1)
    ensures Untouched(ls, j) && AddsRunning(s, Run(s, ls), j, x)
  {
    var u := ClaimStep(s, j, x);
    var t := StartStep(u, j, x);
    ls := [Claim(j, 0, 0, s.db.now), Start(j, 0, x)];
    TwoSteps(s, Claim(j, 0, 0, s.db.now), u, Start(j, 0, x), t);
  }

  lemma ClaimStep(s: Sys, j: JobId, x: ExecId) returns (u: Sys)
    requires T.CanClaim(s.db, j, s.db.now) && x !in s.db.execs && !Exhausted(s.db.jobs[j])
    requires !HasAttempt(s.db, j, s.db.jobs[j].attemptCount + 1)
    ensures Apply(s, Claim(j, 0, 0, s.db.now)) == u
    ensures T.CanStart(u.db, j, x) && u.db.execs == s.db.execs && InHand(u.hands, j, 0) > 0
  {
    u := DoClaim(s, j, 0, 0, s.db.now);
    ClaimApplies(s, j, 0, 0, s.db.now);
    ClaimedCanStart(s, u, j, x);
  }

  lemma StartStep(u: Sys, j: JobId, x: ExecId) returns (t: Sys)
    requires T.CanStart(u.db, j, x) && InHand(u.hands, j, 0) > 0
    ensures Apply(u, Start(j, 0, x)) == t && AddsRunning(u, t, j, x)
  {
    t := DoStart(u, j, 0, x);
    StartApplies(u, j, 0, x);
    StartRuns(u, j, x);
  }

  // x is a new RUNNING execution of job j, and the executions that were there are as they were.
  ghost predicate AddsRunning(s: Sys, t: Sys, j: JobId, x: ExecId) {
    RunsFor(t.db, x, j) && forall y :: y in s.db.execs ==> y in t.db.execs && t.db.execs[y] == s.db.execs[y]
  }

  lemma StartRuns(u: Sys, j: JobId, x: ExecId)
    requires T.CanStart(u.db, j, x) && InHand(u.hands, j, 0) > 0
    ensures AddsRunning(u, DoStart(u, j, 0, x), j, x)
  {
  }

  lemma ClaimedCanStart(s: Sys, u: Sys, j: JobId, x: ExecId)
    requires T.CanClaim(s.db, j, s.db.now) && u == DoClaim(s, j, 0, 0, s.db.now)
    requires x !in s.db.execs && !Exhausted(s.db.jobs[j])
    requires !HasAttempt(s.db, j, s.db.jobs[j].attemptCount + 1)
    ensures T.CanStart(u.db, j, x) && u.db.execs == s.db.execs && InHand(u.hands, j, 0) > 0
  {
    assert u.db.execs == s.db.execs && u.db.jobs[j].attemptCount == s.db.jobs[j].attemptCount;
    assert forall y :: y in u.db.execs ==> !IsAttempt(s.db, y, j, s.db.jobs[j].attemptCount + 1);
  }

  lemma NextAttemptIsFree(s: Sys, j: JobId)
    requires Inv(s) && j in s.db.jobs
    ensures !HasAttempt(s.db, j, s.db.jobs[j].attemptCount + 1)
  {
    assert forall x :: x in s.db.execs ==> ExecOk(s.db, x);
  }

  // A queued job with attempts left can be made to start, whatever else runs.
  lemma QueuedStarts(t: Sys, j: JobId) returns (ls: seq<Label>, x: ExecId)
    requires Inv(t) && j in t.db.jobs && t.db.jobs[j].status.Queued? && !Exhausted(t.db.jobs[j])
    requires !QueueArchived(t.db, t.db.jobs[j].queueId)
    ensures Untouched(ls, j) && x !in t.db.execs && RunsFor(Run(t, ls).db, x, j)
    ensures forall y :: y in t.db.execs ==> y in Run(t, ls).db.execs && Run(t, ls).db.execs[y] == t.db.execs[y]
  {
    var job := t.db.jobs[j];
    var limit := |ActiveJobs(t.db.jobs, job.queueId)| + 1;
    var wait := if job.scheduledAt.Some? then Max(0, job.scheduledAt.value - t.db.now) else 0;
    var room := RoomIsMade(t, j, limit, wait);
    var u := Run(t, room);
    RunKeepsInv(t, room);
    NextAttemptIsFree(u, j);
    x := FreshExec(u.db.execs);
    assert T.CanClaim(u.db, j, u.db.now);
    var more := ClaimsAndStarts(u, j, x);
    RunConcat(t, room, more);
    ls := room + more;
  }

  lemma CarelessRetryRunsTwice(s: Sys, l: Label, j: JobId, x: ExecId) returns (ls: seq<Label>)
    requires Inv(s) && Requeues(s, l, j) && RunsFor(s.db, x, j) && !Exhausted(s.db.jobs[j])
    requires !QueueArchived(s.db, s.db.jobs[j].queueId)
    ensures Untouched(ls, j) && !AtMostOne(Run(Apply(s, l), ls).db, j)
  {
    var t := Apply(s, l);
    RequeueWrites(s, l, j);
    var newcomer := EveryLabelSteps(s, l);
    StepKeepsInv(s, t, newcomer);
    var y;
    ls, y := QueuedStarts(t, j);
    assert RunsFor(Run(t, ls).db, x, j) && RunsFor(Run(t, ls).db, y, j) && x != y;
  }

  // The guard of an operator's retry, exactly: the write keeps one live attempt in every continuation
  // (in which no further retry by hand is written) if and only if no execution of the job is RUNNING
  // when it is written, or no attempts are left, or the queue is archived.  The code checks none of it.
  lemma RetryGuardIsExact(s: Sys, l: Label, j: JobId)
    requires Inv(s) && Requeues(s, l, j) && Solo(s.db, j)
    ensures (forall ls :: Untouched(ls, j) ==> AtMostOne(Run(Apply(s, l), ls).db, j)) <==> SafeToRetry(s.db, j)
  {
    if SafeToRetry(s.db, j) {
      SoloStep(s, l, j);
      var newcomer := EveryLabelSteps(s, l);
      StepKeepsInv(s, Apply(s, l), newcomer);
      forall ls | Untouched(ls, j)
        ensures AtMostOne(Run(Apply(s, l), ls).db, j)
      {
        UntouchedIsCareful(Apply(s, l), ls, j);
        CarefulRun(Apply(s, l), ls, j);
      }
    } else {
      var x :| RunsFor(s.db, x, j);
      var ls := CarelessRetryRunsTwice(s, l, j, x);
    }
  }

  // ---- exhausted jobs, and the endpoint that works once ----

  // A job without attempts left never executes again, whatever operators do: over every continuation
  // it has the executions it had.  A retry by hand only makes it claimed, refused and parked again.
  lemma {:induction false} ExhaustedNeverRunsAgain(s: Sys, ls: seq<Label>, j: JobId)
    requires Inv(s) && j in s.db.jobs && Exhausted(s.db.jobs[j])
    ensures NothingStarts(s, Run(s, ls), j)
  {
    if ls != [] {
      var front := ls[..|ls| - 1];
      ExhaustedNeverRunsAgain(s, front, j);
      var u, newcomer := LastStep(s, ls);
      assert HasMove(u, Run(s, ls), j);
      ExhaustedStep(u, Run(s, ls), newcomer, j);
    }
  }

  lemma FailureKeepsRetried(s: Sys, x: ExecId, retryable: bool, retryAt: Option<Time>, j: JobId)
    requires j in s.db.dead
    ensures
      var t := DoFail(s, x, retryable, retryAt);
      j in t.db.dead && t.db.dead[j].retriedAt == s.db.dead[j].retriedAt
  {
  }

  lemma RecoveryKeepsRetried(s: Sys, k: JobId, top: Option<ExecId>, retryAt: Option<Time>, j: JobId)
    requires j in s.db.dead
    ensures
      var t := DoRecover(s, k, top, retryAt);
      j in t.db.dead && t.db.dead[j].retriedAt == s.db.dead[j].retriedAt
  {
  }

  lemma EndpointKeepsRetried(s: Sys, k: JobId, j: JobId)
    requires j in s.db.dead && s.db.dead[j].retriedAt.Some?
    ensures
      var t := DoRetryDeadLetter(s, k);
      j in t.db.dead && t.db.dead[j].retriedAt == s.db.dead[j].retriedAt
  {
  }

  lemma ReportsKeepDead(s: Sys, x: ExecId)
    ensures DoComplete(s, x).db.dead == s.db.dead
  {
  }

  lemma StartsKeepDead(s: Sys, k: JobId, w: WorkerId, x: ExecId)
    ensures DoStart(s, k, w, x).db.dead == s.db.dead
  {
  }

  lemma OthersKeepDead(s: Sys, l: Label)
    requires !l.Fail? && !l.Recover? && !l.RetryDeadLetter? && !l.Complete? && !l.Start?
    ensures Apply(s, l).db.dead == s.db.dead
  {
  }

  lemma RetriedStays(s: Sys, l: Label, j: JobId)
    requires j in s.db.dead && s.db.dead[j].retriedAt.Some?
    ensures j in Apply(s, l).db.dead && Apply(s, l).db.dead[j].retriedAt == s.db.dead[j].retriedAt
  {
    match l
    case Fail(x, retryable, roll) => FailureKeepsRetried(s, x, retryable, RetryInstantOf(s.db, x, roll), j);
    case Recover(k, top, roll) => RecoveryKeepsRetried(s, k, top, RetryInstantFor(s.db, k, roll), j);
    case RetryDeadLetter(k) => EndpointKeepsRetried(s, k, j);
    case Complete(x) => ReportsKeepDead(s, x);
    case Start(k, w, x) => StartsKeepDead(s, k, w, x);
    case _ => OthersKeepDead(s, l);
  }

  // The dead-letter endpoint retries a job at most once ever: a later burial keeps retriedAt.
  lemma {:induction false} DeadLetterIsRetriedOnce(s: Sys, ls: seq<Label>, j: JobId)
    requires j in s.db.dead && s.db.dead[j].retriedAt.Some?
    ensures j in Run(s, ls).db.dead && Run(s, ls).db.dead[j].retriedAt == s.db.dead[j].retriedAt
    ensures !T.CanRetryDeadLetter(Run(s, ls).db, j)
  {
    if ls != [] {
      DeadLetterIsRetriedOnce(s, ls[..|ls| - 1], j);
      RetriedStays(Run(s, ls[..|ls| - 1]), ls[|ls| - 1], j);
    }
  }
}
