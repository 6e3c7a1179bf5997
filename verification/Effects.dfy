// The transactions of the job lifecycle in terms of the columns alone: when each one takes effect, which
// rows it writes and what it leaves as it was.
module Effects {
  import opened Wrappers
  import opened Tables
  import opened Protocol
  import JobStateMachine
  import T = Transactions

  // ---- creation, promotion, claim ----

  // A row is refused for a used id, an unknown queue, no attempts, a delayed job whose instant has come,
  // and a key that some job of the queue carries.
  lemma CreateEffect(db: Db, j: JobId, row: T.NewJob)
    ensures
      var accepted :=
        && j !in db.jobs && row.queueId in db.queues && 1 <= row.maxAttempts
        && (row.immediate || (row.scheduledAt.Some? && db.now < row.scheduledAt.value))
        && forall k :: k in db.jobs && db.jobs[k].queueId == row.queueId ==>
          row.idempotencyKey.None? || db.jobs[k].idempotencyKey != row.idempotencyKey;
      && (T.CanCreate(db, j, row) <==> accepted)
      && (!accepted ==> T.Create(db, j, row) == db)
      && (accepted ==>
            T.Create(db, j, row) == db.(
              jobs := db.jobs[j := Job(row.queueId, row.priority, if row.immediate then Queued else Scheduled, 0,
                                       row.maxAttempts, row.retry, row.scheduledAt, db.now, None, None,
                                       row.idempotencyKey)],
              ready := db.ready + [j]))
  {
    if row.idempotencyKey.Some? {
      var key := row.idempotencyKey.value;
      forall k
        ensures Keyed(db, k, row.queueId, key) <==>
                k in db.jobs && db.jobs[k].queueId == row.queueId && db.jobs[k].idempotencyKey == row.idempotencyKey
      {
      }
      if j in db.jobs && Keyed(db, j, row.queueId, key) {
        assert T.KeyTaken(db, row.queueId, key);
      }
    }
  }

  // Promotion queues the listed jobs, announces them in that order, and does nothing else.
  lemma PromoteEffect(db: Db, ids: seq<JobId>, at: Time, j: JobId)
    requires j in db.jobs
    ensures
      var accepted :=
        && at <= db.now && (forall a, b :: 0 <= a < b < |ids| ==> ids[a] != ids[b])
        && forall k :: k in ids ==>
          && k in db.jobs && (db.jobs[k].status == Scheduled || db.jobs[k].status == Retrying)
          && db.jobs[k].scheduledAt.Some? && db.jobs[k].scheduledAt.value <= at
          && db.jobs[k].queueId in db.queues && !db.queues[db.jobs[k].queueId].archived;
      var t := T.Promote(db, ids, at);
      && t == db.(jobs := t.jobs, ready := t.ready) && t.jobs.Keys == db.jobs.Keys
      && t.ready == (if accepted then db.ready + ids else db.ready)
      && t.jobs[j] == (if accepted && j in ids then db.jobs[j].(status := Queued) else db.jobs[j])
  {
  }

  // A job is claimed when it is queued and due and its queue is active, not archived and below its limit,
  // counting what is CLAIMED or RUNNING; the lease starts at the claim's NOW().
  lemma ClaimEffect(db: Db, j: JobId, w: WorkerId, leaseMs: nat, at: Time)
    ensures
      var accepted :=
        && at <= db.now && j in db.jobs && db.jobs[j].status == Queued
        && (db.jobs[j].scheduledAt.None? || db.jobs[j].scheduledAt.value <= at)
        && db.jobs[j].queueId in db.queues
        && var queue := db.queues[db.jobs[j].queueId];
        && queue.active && !queue.archived
        && |set k | k in db.jobs && db.jobs[k].queueId == db.jobs[j].queueId
                    && (db.jobs[k].status == Claimed || db.jobs[k].status == Running)| < queue.concurrencyLimit;
      && (T.CanClaim(db, j, at) <==> accepted)
      && (!accepted ==> T.Claim(db, j, w, leaseMs, at) == db)
      && (accepted ==>
            T.Claim(db, j, w, leaseMs, at) == db.(
              jobs := db.jobs[j := db.jobs[j].(status := Claimed, workerId := Some(w),
                                               leaseExpiresAt := Some(at + leaseMs))]))
  {
    if j in db.jobs {
      var q := db.jobs[j].queueId;
      assert ActiveJobs(db.jobs, q) == set k | k in db.jobs && db.jobs[k].queueId == q
                                               && (db.jobs[k].status == Claimed || db.jobs[k].status == Running);
    }
  }

  // ---- the worker's transactions ----

  // The state machine lets a CLAIMED job start, a RUNNING one complete or fail, and a QUEUED one be
  // claimed; the operators' changes and those of the schedulers do not go through it.
  lemma TransitionTable(from: JobStatus, to: JobStatus)
    ensures JobStateMachine.Permits(from, to) <==>
            || (from == Claimed && to == Running) || (from == Running && (to == Completed || to == Failed))
            || (from == Queued && (to == Claimed || to == Cancelled)) || (from == Scheduled && to == Cancelled)
  {
  }

  // A start takes the next attempt number, whoever holds the job.
  lemma StartEffect(db: Db, j: JobId, w: WorkerId, x: ExecId)
    ensures
      var accepted :=
        && j in db.jobs && db.jobs[j].status == Claimed && db.jobs[j].attemptCount < db.jobs[j].maxAttempts
        && x !in db.execs
        && forall y :: y in db.execs && db.execs[y].jobId == j ==> db.execs[y].attempt != db.jobs[j].attemptCount + 1;
      && (T.CanStart(db, j, x) <==> accepted)
      && (!accepted ==> T.Start(db, j, w, x) == db)
      && (accepted ==>
            var attempt := db.jobs[j].attemptCount + 1;
            T.Start(db, j, w, x) == db.(
              jobs := db.jobs[j := db.jobs[j].(status := Running, attemptCount := attempt)],
              execs := db.execs[x := Exec(j, w, attempt, ExecRunning, db.now)]))
  {
    if j in db.jobs {
      TransitionTable(db.jobs[j].status, Running);
      forall y | y in db.execs
        ensures IsAttempt(db, y, j, db.jobs[j].attemptCount + 1) <==>
                db.execs[y].jobId == j && db.execs[y].attempt == db.jobs[j].attemptCount + 1
      {
      }
    }
  }

  // A heartbeat leases the RUNNING jobs of its worker anew, and no others.
  lemma HeartbeatEffect(db: Db, w: WorkerId, leaseMs: nat, j: JobId)
    requires j in db.jobs
    ensures
      var t := T.Heartbeat(db, w, leaseMs);
      && t == db.(jobs := t.jobs) && t.jobs.Keys == db.jobs.Keys
      && t.jobs[j] == if db.jobs[j].status == Running && db.jobs[j].workerId == Some(w)
                      then db.jobs[j].(leaseExpiresAt := Some(db.now + leaseMs)) else db.jobs[j]
  {
  }

  // A completion of a RUNNING job marks the execution, whatever its status was, and the job if the
  // execution's worker still holds it.
  lemma CompleteEffect(db: Db, x: ExecId)
    ensures
      var accepted := x in db.execs && db.execs[x].jobId in db.jobs && db.jobs[db.execs[x].jobId].status == Running;
      && (T.CanComplete(db, x) <==> accepted)
      && (!accepted ==> T.Complete(db, x) == db)
      && (accepted ==>
            var j := db.execs[x].jobId;
            var job := db.jobs[j];
            T.Complete(db, x) == db.(
              execs := db.execs[x := db.execs[x].(status := ExecCompleted)],
              jobs := if job.workerId == Some(db.execs[x].workerId)
                      then db.jobs[j := job.(status := Completed, leaseExpiresAt := None)] else db.jobs))
  {
    if x in db.execs && db.execs[x].jobId in db.jobs {
      TransitionTable(db.jobs[db.execs[x].jobId].status, Completed);
    }
  }

  // The dead letter of a job names the execution that ended it, if there is one, and the attempts it
  // took; one that was retried before stays so.
  lemma BuriedEffect(dead: map<JobId, DeadLetter>, j: JobId, x: Option<ExecId>, attempts: nat, k: JobId)
    ensures
      var t := T.Buried(dead, j, x, attempts);
      && t.Keys == dead.Keys + {j} && (k in dead && k != j ==> t[k] == dead[k])
      && t[j].attemptCount == attempts
      && t[j].retriedAt == (if j in dead then dead[j].retriedAt else None)
      && t[j].lastExecution == (if x.None? && j in dead then dead[j].lastExecution else x)
  {
  }

  // A failure counts while execution and job are both RUNNING.  A retryable one with attempts left ends
  // the execution and, if its worker still holds the job, sends that to RETRYING; it aborts when there
  // is no instant to retry at.  Any other ends the job too, whoever holds it, and buries it.
  lemma FailEffect(db: Db, x: ExecId, retryable: bool, retryAt: Option<Time>)
    ensures
      if !(x in db.execs && db.execs[x].status == ExecRunning && db.execs[x].jobId in db.jobs
           && db.jobs[db.execs[x].jobId].status == Running)
      then T.Fail(db, x, retryable, retryAt) == db
      else
        var j := db.execs[x].jobId;
        var job := db.jobs[j];
        var execs := db.execs[x := db.execs[x].(status := ExecFailed)];
        T.Fail(db, x, retryable, retryAt)
        == if !retryable || job.attemptCount >= job.maxAttempts
           then db.(execs := execs, jobs := db.jobs[j := job.(status := Failed, leaseExpiresAt := None)],
                    dead := T.Buried(db.dead, j, Some(x), job.attemptCount))
           else if retryAt.None? then db
           else if job.workerId != Some(db.execs[x].workerId) then db.(execs := execs)
           else db.(execs := execs,
                    jobs := db.jobs[j := job.(status := Retrying, scheduledAt := retryAt, workerId := None,
                                              leaseExpiresAt := None)])
  {
  }

  // Recovery takes a job that is CLAIMED or RUNNING with a lease that has run out.  It abandons the
  // execution it was given; with attempts left the job goes to RETRYING, or nothing happens for want of
  // an instant; without, the job keeps its status, loses worker and lease, and is buried.
  lemma RecoverEffect(db: Db, j: JobId, top: Option<ExecId>, retryAt: Option<Time>)
    requires IsTopRunning(db, j, top)
    ensures
      if !(j in db.jobs && (db.jobs[j].status == Claimed || db.jobs[j].status == Running)
           && db.jobs[j].leaseExpiresAt.Some? && db.jobs[j].leaseExpiresAt.value < db.now)
      then T.Recover(db, j, top, retryAt) == db
      else
        var job := db.jobs[j];
        var execs := if top.None? then db.execs
                     else db.execs[top.value := db.execs[top.value].(status := ExecAbandoned)];
        T.Recover(db, j, top, retryAt)
        == if job.attemptCount >= job.maxAttempts
           then db.(execs := execs, jobs := db.jobs[j := job.(workerId := None, leaseExpiresAt := None)],
                    dead := T.Buried(db.dead, j, top, job.attemptCount))
           else if retryAt.None? then db
           else db.(execs := execs,
                    jobs := db.jobs[j := job.(status := Retrying, scheduledAt := retryAt, workerId := None,
                                              leaseExpiresAt := None)])
  {
  }

  // ---- operators ----

  // What the reads let pass: a cancel of a QUEUED or SCHEDULED job, a retry of a FAILED or dead-lettered one.
  lemma ReadEffect(s: Sys, j: JobId, k: JobId)
    ensures
      k in DoCancelRead(s, j).cancelReads <==>
      || k in s.cancelReads
      || (k == j && j in s.db.jobs && (s.db.jobs[j].status == Queued || s.db.jobs[j].status == Scheduled))
    ensures
      k in DoRetryRead(s, j).retryReads <==>
      k in s.retryReads || (k == j && j in s.db.jobs && (s.db.jobs[j].status == Failed || j in s.db.dead))
    ensures DoCancelRead(s, j) == s.(cancelReads := DoCancelRead(s, j).cancelReads)
    ensures DoRetryRead(s, j) == s.(retryReads := DoRetryRead(s, j).retryReads)
  {
  }

  // The writes that follow them whatever has happened since: a cancel changes the status alone, a retry
  // queues the job with its attempts and its instant, free of worker and lease.
  lemma OperatorEffect(db: Db, j: JobId)
    requires j in db.jobs
    ensures T.CancelWrite(db, j) == db.(jobs := db.jobs[j := db.jobs[j].(status := Cancelled)])
    ensures
      T.RetryWrite(db, j)
      == db.(jobs := db.jobs[j := db.jobs[j].(status := Queued, workerId := None, leaseExpiresAt := None)])
  {
  }

  // The dead-letter endpoint retries a dead letter that has not been retried, and marks it in the same step.
  lemma DeadLetterEffect(db: Db, j: JobId)
    ensures
      var accepted := j in db.dead && j in db.jobs && db.dead[j].retriedAt.None?;
      && (T.CanRetryDeadLetter(db, j) <==> accepted)
      && (!accepted ==> T.RetryDeadLetter(db, j) == db)
      && (accepted ==>
            T.RetryDeadLetter(db, j) == db.(
              dead := db.dead[j := db.dead[j].(retriedAt := Some(db.now))],
              jobs := db.jobs[j := db.jobs[j].(status := Queued, workerId := None, leaseExpiresAt := None)]))
  {
  }

  // A queue is made or edited with a positive limit; an archived one stays archived.
  lemma QueueEffect(s: Sys, q: QueueId, row: Queue)
    ensures
      var accepted := row.concurrencyLimit > 0 && (q in s.db.queues && s.db.queues[q].archived ==> row.archived);
      DoPutQueue(s, q, row).db == if accepted then s.db.(queues := s.db.queues[q := row]) else s.db
  {
  }
}
