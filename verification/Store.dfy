// The tables as one mutable object with a method per transaction, statement by statement: the
// guards, the writes and the rollbacks of the source in their order.  Each method is proved to do
// to the tables what its function in module Transactions does, so it is a step of the protocol.
module Store {
  import opened Wrappers
  import opened Tables
  import opened Protocol
  import opened ClaimSelection
  import opened Pages
  import opened PromotionQueue
  import opened RecoverySweep
  import JobStateMachine
  import T = Transactions

  datatype ApiError =
    | JobNotFound
    | JobAlreadyCompleted
    | JobAlreadyRunning
    | JobNotCancellable
    | JobNotRetryable
    | DlqNotFound
    | DlqAlreadyRetried

  lemma PageIsCandidateList(db: Db, f: Filter, at: Time, rows: set<QueueId>, key: nat -> int, qs: seq<QueueId>)
    requires rows == (set q | q in db.queues && IsCandidate(db, f, at, q)) && (forall q :: key(q) == 0)
    requires IsPage(rows, key, CANDIDATE_QUEUES, qs)
    ensures IsCandidateList(db, f, at, qs)
  {
    assert forall a, b :: InOrder(key, a, b) ==> a < b;
    assert forall q :: IsCandidate(db, f, at, q) ==> q in rows;
  }

  predicate Beats(job: Job, w: WorkerId) {
    job.workerId == Some(w) && job.status.Running?
  }

  // If nothing else happens, recovery can take the job exactly when `until` is over.
  ghost predicate LeasedUntil(db: Db, j: JobId, until: Time) {
    forall later: Time :: T.CanRecover(db.(now := later), j) <==> until < later
  }

  predicate OnlyLeaseDiffers(before: Job, after: Job) {
    after == before.(leaseExpiresAt := after.leaseExpiresAt)
  }

  class Store {
    var now: Time
    var queues: map<QueueId, Queue>
    var jobs: map<JobId, Job>
    var execs: map<ExecId, Exec>
    var dead: map<JobId, DeadLetter>
    var ready: seq<JobId>

    constructor ()
      ensures View() == EMPTY_DB
    {
      now, queues, jobs, execs, dead, ready := 0, map[], map[], map[], map[], [];
    }

    function View(): Db
      reads this
    {
      Db(now, queues, jobs, execs, dead, ready)
    }

    // ---- apps/scheduler/src/scheduling/delayed-job-scheduler.ts ----

    // The candidate query; `locked` are the rows SKIP LOCKED passes over.
    method SelectDueJobs(batchSize: nat, queue: Option<QueueId>, locked: set<JobId>, at: Time) returns (ids: seq<JobId>)
      ensures IsDuePage(View(), at, batchSize, queue, locked, ids)
      ensures forall j :: j in ids ==> T.CanPromote(View(), j, at)
    {
      var rows := jobs;
      var key := j => if j in rows && rows[j].scheduledAt.Some? then rows[j].scheduledAt.value else 0;
      ids := Page(DueRows(View(), at, queue, locked), key, batchSize);
      PageIsDuePage(View(), at, batchSize, queue, locked, key, ids);
    }

    // One JOB_READY row per promoted job.
    method Announce(ids: seq<JobId>)
      modifies this`ready
      ensures ready == old(ready) + ids
    {
      for n := 0 to |ids|
        invariant ready == old(ready) + ids[..n]
      {
        ready := ready + [ids[n]];
      }
      assert ids[..|ids|] == ids;
    }

    // promoteDueJobs.  The page leaves out a job that is due, in a live queue and not locked only when it
    // is full (PromotionQueue.PageExactly).
    method PromoteDueJobs(batchSize: nat, queue: Option<QueueId>, locked: set<JobId>, at: Time)
      returns (promoted: nat, ids: seq<JobId>)
      requires at <= now
      modifies this`jobs, this`ready
      ensures IsDuePage(old(View()), at, batchSize, queue, locked, ids) && promoted == |ids|
      ensures View() == T.Promote(old(View()), ids, at)
      ensures ready == old(ready) + ids
      ensures jobs.Keys == old(jobs).Keys
      ensures forall j :: j in jobs && j !in ids ==> jobs[j] == old(jobs)[j]
      ensures forall j :: j in jobs && j in ids ==> jobs[j] == old(jobs)[j].(status := Queued)
      ensures forall k :: k in jobs && (jobs[k].status == Scheduled || jobs[k].status == Retrying) ==>
        || promoted == batchSize || jobs[k].scheduledAt.None? || at < jobs[k].scheduledAt.value || k in locked
        || jobs[k].queueId !in queues || queues[jobs[k].queueId].archived
        || (queue.Some? && queue.value != jobs[k].queueId)
    {
      ids := SelectDueJobs(batchSize, queue, locked, at);
      PageExactly(View(), at, batchSize, queue, locked, ids);
      assert T.CanPromoteAll(View(), ids, at);
      jobs := map j | j in jobs :: if j in ids then jobs[j].(status := Queued) else jobs[j];
      Announce(ids);
      return |ids|, ids;
    }

    // ---- apps/worker/src/claiming/job-claim.service.ts ----

    // claimNextJob, with no row locked elsewhere; `candidates` are the queues its first query selects.
    method ClaimNextJob(w: WorkerId, leaseMs: nat, filter: Filter, at: Time)
      returns (claimed: Option<JobId>, candidates: seq<QueueId>)
      requires at <= now
      modifies this`jobs
      ensures IsCandidateList(old(View()), filter, at, candidates)
      ensures Selects(old(View()), filter, at, candidates, claimed)
      ensures View() == if claimed.Some? then T.Claim(old(View()), claimed.value, w, leaseMs, at) else old(View())
      ensures claimed.Some? ==> T.CanClaim(old(View()), claimed.value, at)
      ensures claimed.Some? ==>
        && claimed.value in old(jobs) && old(jobs)[claimed.value].status == Queued
        && jobs == old(jobs)[claimed.value := old(jobs)[claimed.value].(
             status := Claimed, workerId := Some(w), leaseExpiresAt := Some(at + leaseMs))]
      ensures claimed.Some? ==>
        var j, rows := claimed.value, old(jobs);
        forall k :: k in rows && k != j && rows[k].status == Queued && rows[k].queueId == rows[j].queueId
                    && (rows[k].scheduledAt.None? || rows[k].scheduledAt.value <= at)
                    && (filter.job.None? || filter.job == Some(k)) ==>
          || rows[k].priority < rows[j].priority
          || (rows[k].priority == rows[j].priority
              && (rows[j].createdAt < rows[k].createdAt || (rows[j].createdAt == rows[k].createdAt && j < k)))
    {
      var eligible := set q | q in queues && IsCandidate(View(), filter, at, q);
      candidates := Page(eligible, id => 0, CANDIDATE_QUEUES);
      PageIsCandidateList(View(), filter, at, eligible, id => 0, candidates);
      for n := 0 to |candidates|
        invariant View() == old(View())
        invariant forall i :: 0 <= i < n ==> !T.HasCapacity(View(), candidates[i])
      {
        var q := candidates[n];
        assert IsCandidate(View(), filter, at, q);
        if |ActiveJobs(jobs, q)| < queues[q].concurrencyLimit {
          FirstExists(View(), filter, q, at);
          var j :| j in jobs && IsFirst(View(), filter, q, at, j);
          assert Selects(View(), filter, at, candidates, Some(j));
          ClaimedIsUrgent(View(), filter, at, candidates, j);
          jobs := jobs[j := jobs[j].(status := Claimed, workerId := Some(w), leaseExpiresAt := Some(at + leaseMs))];
          return Some(j), candidates;
        }
      }
      return None, candidates;
    }

    // ---- apps/worker/src/worker/worker.service.ts ----

    // The start transaction.  The execution row is inserted first; when the update of the job row
    // violates the attempt check, the insert is rolled back.
    method StartExecution(j: JobId, w: WorkerId, x: ExecId) returns (started: bool)
      requires x !in execs
      modifies this`jobs, this`execs
      ensures started <==> T.CanStart(old(View()), j, x)
      ensures View() == T.Start(old(View()), j, w, x)
    {
      if j !in jobs || !JobStateMachine.Permits(jobs[j].status, Running) {
        return false;
      }
      var attempt := jobs[j].attemptCount + 1;
      if exists y :: y in execs && execs[y].jobId == j && execs[y].attempt == attempt {
        assert HasAttempt(View(), j, attempt);
        return false;
      }
      var saved := execs;
      execs := execs[x := Exec(j, w, attempt, ExecRunning, now)];
      if attempt > jobs[j].maxAttempts {
        execs := saved;
        return false;
      }
      jobs := jobs[j := jobs[j].(status := Running, attemptCount := attempt)];
      return true;
    }

    // The RUNNING jobs of the worker, whichever process of that identifier started them, are leased
    // for leaseMs from now: none of them can be recovered before that time is over.  No other row and
    // no other table changes.
    method Heartbeat(w: WorkerId, leaseMs: nat)
      modifies this`jobs
      ensures jobs.Keys == old(jobs).Keys
      ensures forall j :: j in jobs && !Beats(old(jobs)[j], w) ==> jobs[j] == old(jobs)[j]
      ensures forall j :: j in jobs && Beats(old(jobs)[j], w) ==>
        jobs[j].leaseExpiresAt == Some(now + leaseMs) && OnlyLeaseDiffers(old(jobs)[j], jobs[j])
      ensures forall j :: j in jobs && Beats(old(jobs)[j], w) ==> LeasedUntil(View(), j, now + leaseMs)
      ensures View() == T.Heartbeat(old(View()), w, leaseMs)
    {
      jobs := map j | j in jobs ::
        if Beats(jobs[j], w) then jobs[j].(leaseExpiresAt := Some(now + leaseMs)) else jobs[j];
    }

    // The completion transaction.  The execution is marked before the job row is matched.
    method CompleteExecution(x: ExecId) returns (accepted: bool)
      modifies this`jobs, this`execs
      ensures accepted <==> T.CanComplete(old(View()), x)
      ensures View() == T.Complete(old(View()), x)
    {
      if x !in execs || execs[x].jobId !in jobs || !JobStateMachine.Permits(jobs[execs[x].jobId].status, Completed) {
        return false;
      }
      var j := execs[x].jobId;
      var w := execs[x].workerId;
      execs := execs[x := execs[x].(status := ExecCompleted)];
      if jobs[j].workerId == Some(w) && jobs[j].status.Running? {
        jobs := jobs[j := jobs[j].(status := Completed, leaseExpiresAt := None)];
      }
      return true;
    }

    // ---- apps/worker/src/reliability/retry.service.ts ----

    method UpsertDeadLetter(j: JobId, x: Option<ExecId>, attempts: nat)
      modifies this`dead
      ensures dead == T.Buried(old(dead), j, x, attempts)
    {
      if j in dead {
        var lastExecution := if x.Some? then x else dead[j].lastExecution;
        dead := dead[j := DeadLetter(lastExecution, attempts, dead[j].retriedAt)];
      } else {
        dead := dead[j := DeadLetter(x, attempts, None)];
      }
    }

    // recordExecutionFailure.  An Invalid Date aborts the transaction after the execution was marked.
    method RecordExecutionFailure(x: ExecId, retryable: bool, roll: nat)
      modifies this`jobs, this`execs, this`dead
      ensures View() == T.Fail(old(View()), x, retryable, RetryInstantOf(old(View()), x, roll))
    {
      if x !in execs || execs[x].jobId !in jobs {
        return;
      }
      var j := execs[x].jobId;
      var job := jobs[j];
      if !execs[x].status.ExecRunning? || !job.status.Running? {
        return;
      }
      var w := execs[x].workerId;
      var saved := execs;
      execs := execs[x := execs[x].(status := ExecFailed)];
      if retryable && job.attemptCount < job.maxAttempts {
        var retryAt := RetryInstant(job, now, roll);
        if retryAt.None? {
          execs := saved;
          return;
        }
        if job.workerId == Some(w) {
          jobs := jobs[j := T.Rescheduled(job, retryAt.value)];
        }
        return;
      }
      jobs := jobs[j := job.(status := Failed, leaseExpiresAt := None)];
      UpsertDeadLetter(j, Some(x), job.attemptCount);
    }

    // ---- apps/worker/src/reliability/recovery.service.ts ----

    // The RUNNING execution of the job with the highest attempt number.
    method TopRunning(j: JobId) returns (top: Option<ExecId>)
      ensures IsTopRunning(View(), j, top)
      ensures top.Some? ==> top.value in execs && execs[top.value].jobId == j && execs[top.value].status == ExecRunning
      ensures forall x :: x in execs && execs[x].jobId == j && execs[x].status == ExecRunning ==>
        top.Some? && execs[x].attempt <= execs[top.value].attempt
    {
      top := None;
      var rest := execs.Keys;
      while rest != {}
        invariant rest <= execs.Keys
        invariant top.Some? ==> top.value !in rest && RunsFor(View(), top.value, j)
        invariant forall x :: x in execs && x !in rest && RunsFor(View(), x, j) ==>
          top.Some? && execs[x].attempt <= execs[top.value].attempt
        decreases |rest|
      {
        var x :| x in rest;
        rest := rest - {x};
        if execs[x].jobId == j && execs[x].status.ExecRunning?
           && (top.None? || execs[top.value].attempt < execs[x].attempt) {
          top := Some(x);
        }
      }
    }

    method RecoverExpiredJob(j: JobId, roll: nat) returns (recovered: bool, top: Option<ExecId>)
      modifies this`jobs, this`execs, this`dead
      ensures IsTopRunning(old(View()), j, top)
      ensures recovered <==> T.RecoveryCommits(old(View()), j, top, RetryInstantFor(old(View()), j, roll))
      ensures View() == T.Recover(old(View()), j, top, RetryInstantFor(old(View()), j, roll))
    {
      top := TopRunning(j);
      if j !in jobs || !Occupies(jobs[j]) || jobs[j].leaseExpiresAt.None? || jobs[j].leaseExpiresAt.value >= now {
        return false, top;
      }
      var job := jobs[j];
      var saved := execs;
      if top.Some? {
        execs := execs[top.value := execs[top.value].(status := ExecAbandoned)];
      }
      if job.attemptCount < job.maxAttempts {
        var retryAt := RetryInstant(job, now, roll);
        if retryAt.None? {
          execs := saved;
          return false, top;
        }
        jobs := jobs[j := T.Rescheduled(job, retryAt.value)];
      } else {
        jobs := jobs[j := job.(workerId := None, leaseExpiresAt := None)];
        UpsertDeadLetter(j, top, job.attemptCount);
      }
      return true, top;
    }

    // The loop of recoverExpiredJobs, however stale the candidates are: exactly the expired ones whose
    // next instant can be stored are recovered and counted.
    method RecoverCandidates(candidates: seq<JobId>, roll: JobId -> nat)
      returns (recovered: nat, ghost tops: Tops)
      requires T.Distinct(candidates)
      modifies this`jobs, this`execs, this`dead
      ensures Swept(old(View()), View(), Sweep(old(View()), candidates, roll), roll, tops)
      ensures recovered == |Sweep(old(View()), candidates, roll)|
    {
      recovered, tops := 0, map[];
      for n := 0 to |candidates|
        invariant recovered == |Sweep(old(View()), candidates[..n], roll)|
        invariant Swept(old(View()), View(), Sweep(old(View()), candidates[..n], roll), roll, tops)
      {
        ghost var mid := View();
        var ok, top := RecoverExpiredJob(candidates[n], roll(candidates[n]));
        tops := SweepNext(old(View()), mid, candidates, n, roll, tops, top);
        if ok {
          recovered := recovered + 1;
        }
      }
      assert candidates[..|candidates|] == candidates;
    }

    // recoverExpiredJobs: the batch is what ran out first, whether it can be recovered or not.
    method RecoverExpiredJobs(batchSize: nat, at: Time, roll: JobId -> nat)
      returns (recovered: nat, page: seq<JobId>, ghost tops: Tops)
      modifies this`jobs, this`execs, this`dead
      ensures IsPage(ExpiredRows(old(View()), at), LeaseKey(old(View())), batchSize, page)
      ensures forall j :: j in old(jobs) ==>
        (j in ExpiredRows(old(View()), at) <==>
         && (old(jobs)[j].status == Claimed || old(jobs)[j].status == Running)
         && old(jobs)[j].leaseExpiresAt.Some? && old(jobs)[j].leaseExpiresAt.value < at)
      ensures Swept(old(View()), View(), Sweep(old(View()), page, roll), roll, tops)
      ensures recovered == |Sweep(old(View()), page, roll)|
    {
      page := Page(ExpiredRows(View(), at), LeaseKey(View()), batchSize);
      recovered, tops := RecoverCandidates(page, roll);
    }

    // ---- apps/api/src/jobs/service.ts, apps/api/src/dlq/service.ts ----

    // cancelJob when nothing comes between its read and its write.
    method CancelJob(j: JobId) returns (error: Option<ApiError>)
      modifies this`jobs
      ensures error.None? <==> j in old(jobs) && T.Cancellable(old(jobs)[j])
      ensures View() == if error.None? then T.CancelWrite(old(View()), j) else old(View())
      ensures error == Some(JobNotFound) <==> j !in old(jobs)
      ensures error == Some(JobNotCancellable) <==>
              && j in old(jobs) && old(jobs)[j].status != Completed && old(jobs)[j].status != Running
              && old(jobs)[j].status != Queued && old(jobs)[j].status != Scheduled
      ensures error == Some(JobAlreadyCompleted) <==> j in old(jobs) && old(jobs)[j].status.Completed?
      ensures error == Some(JobAlreadyRunning) <==> j in old(jobs) && old(jobs)[j].status.Running?
    {
      if j !in jobs {
        return Some(JobNotFound);
      }
      if jobs[j].status.Completed? {
        return Some(JobAlreadyCompleted);
      }
      if jobs[j].status.Running? {
        return Some(JobAlreadyRunning);
      }
      if !jobs[j].status.Queued? && !jobs[j].status.Scheduled? {
        return Some(JobNotCancellable);
      }
      jobs := jobs[j := jobs[j].(status := Cancelled)];
      return None;
    }

    method RetryJob(j: JobId) returns (error: Option<ApiError>)
      modifies this`jobs
      ensures error.None? <==> T.OperatorRetryable(old(View()), j)
      ensures View() == if error.None? then T.RetryWrite(old(View()), j) else old(View())
      ensures error == Some(JobNotFound) <==> j !in old(jobs)
      ensures error == Some(JobNotRetryable) <==> j in old(jobs) && old(jobs)[j].status != Failed && j !in old(dead)
    {
      if j !in jobs {
        return Some(JobNotFound);
      }
      if !jobs[j].status.Failed? && j !in dead {
        return Some(JobNotRetryable);
      }
      jobs := jobs[j := jobs[j].(status := Queued, workerId := None, leaseExpiresAt := None)];
      return None;
    }

    method RetryDeadLetter(j: JobId) returns (error: Option<ApiError>)
      requires dead.Keys <= jobs.Keys
      modifies this`jobs, this`dead
      ensures error.None? <==> T.CanRetryDeadLetter(old(View()), j)
      ensures View() == T.RetryDeadLetter(old(View()), j)
      ensures error == Some(DlqNotFound) <==> j !in old(dead)
      ensures error == Some(DlqAlreadyRetried) <==> j in old(dead) && old(dead)[j].retriedAt.Some?
    {
      if j !in dead {
        return Some(DlqNotFound);
      }
      if dead[j].retriedAt.Some? {
        return Some(DlqAlreadyRetried);
      }
      dead := dead[j := dead[j].(retriedAt := Some(now))];
      jobs := jobs[j := jobs[j].(status := Queued, workerId := None, leaseExpiresAt := None)];
      return None;
    }
  }
}
