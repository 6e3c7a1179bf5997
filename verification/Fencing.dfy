// A worker whose lease was recovered is fenced off: its late reports cannot touch the job again
// until it has claimed the job anew.
module Fencing {
  import opened Wrappers
  import opened Tables
  import opened Protocol
  import opened JobMoves
  import opened Lifecycle
  import opened History
  import T = Transactions

  function Claimants(s: Sys, j: JobId): seq<WorkerId> {
    TallyOf(s.tally, j).claimants
  }

  // The workers that claimed j between s and t.
  ghost predicate ClaimedSince(s: Sys, t: Sys, j: JobId, w: WorkerId) {
    |Claimants(s, j)| <= |Claimants(t, j)| && w in Claimants(t, j)[|Claimants(s, j)|..]
  }

  lemma MoveOfWorker(job: Job, now: Time, m: Move, c: Tally, w: WorkerId)
    ensures c.claimants <= Noted(c, job, m).claimants
    ensures After(job, now, m).workerId == Some(w) ==>
      job.workerId == Some(w) || Noted(c, job, m).claimants == c.claimants + [w]
  {
  }

  lemma StepOfWorker(s: Sys, t: Sys, newcomer: Option<ExecId>, j: JobId, w: WorkerId)
    requires Step(s, t, newcomer) && j in s.db.jobs
    ensures j in t.db.jobs && Claimants(s, j) <= Claimants(t, j)
    ensures t.db.jobs[j].workerId == Some(w) ==>
      s.db.jobs[j].workerId == Some(w) || Claimants(t, j) == Claimants(s, j) + [w]
  {
    assert HasMove(s, t, j);
    var m :| Moves(s, t, j, m);
    MoveOfWorker(s.db.jobs[j], s.db.now, m, TallyOf(s.tally, j), w);
  }

  lemma ClaimedLater(before: seq<WorkerId>, mid: seq<WorkerId>, after: seq<WorkerId>, w: WorkerId)
    requires before <= mid <= after && (w in mid[|before|..] || after == mid + [w])
    ensures w in after[|before|..]
  {
    if after == mid + [w] {
      assert after[|before|..][|mid| - |before|] == w;
    } else {
      var i :| 0 <= i < |mid[|before|..]| && mid[|before|..][i] == w;
      assert after[|before|..][i] == w;
    }
  }

  // Only a claim by w makes w the owner, over every continuation.
  lemma {:induction false} OwnershipNeedsClaim(s: Sys, ls: seq<Label>, j: JobId, w: WorkerId)
    requires Inv(s) && j in s.db.jobs && s.db.jobs[j].workerId != Some(w)
    ensures j in Run(s, ls).db.jobs && Claimants(s, j) <= Claimants(Run(s, ls), j)
    ensures Run(s, ls).db.jobs[j].workerId == Some(w) ==> ClaimedSince(s, Run(s, ls), j, w)
  {
    if ls != [] {
      OwnershipNeedsClaim(s, ls[..|ls| - 1], j, w);
      var u, newcomer := LastStep(s, ls);
      StepOfWorker(u, Run(s, ls), newcomer, j, w);
      if Run(s, ls).db.jobs[j].workerId == Some(w) {
        ClaimedLater(Claimants(s, j), Claimants(u, j), Claimants(Run(s, ls), j), w);
      }
    }
  }

  // Execution x of job j has been stopped and its worker does not own the job.
  ghost predicate Fenced(s: Sys, j: JobId, x: ExecId) {
    && j in s.db.jobs && x in s.db.execs && s.db.execs[x].jobId == j
    && !s.db.execs[x].status.ExecRunning? && s.db.jobs[j].workerId != Some(s.db.execs[x].workerId)
  }

  lemma StoppedStep(s: Sys, t: Sys, newcomer: Option<ExecId>, x: ExecId)
    requires ExecsStep(s, t, newcomer) && x in s.db.execs && !s.db.execs[x].status.ExecRunning?
    ensures
      && x in t.db.execs && !t.db.execs[x].status.ExecRunning?
      && t.db.execs[x].jobId == s.db.execs[x].jobId && t.db.execs[x].workerId == s.db.execs[x].workerId
  {
    assert ExecStep(s.db.execs[x], t.db.execs[x], x in s.executing);
  }

  // Once it is not RUNNING, an execution never runs again.
  lemma {:induction false} StoppedStaysStopped(s: Sys, ls: seq<Label>, x: ExecId)
    requires Inv(s) && x in s.db.execs && !s.db.execs[x].status.ExecRunning?
    ensures
      var t := Run(s, ls);
      && x in t.db.execs && !t.db.execs[x].status.ExecRunning?
      && t.db.execs[x].jobId == s.db.execs[x].jobId && t.db.execs[x].workerId == s.db.execs[x].workerId
  {
    if ls != [] {
      StoppedStaysStopped(s, ls[..|ls| - 1], x);
      var u, newcomer := LastStep(s, ls);
      StoppedStep(u, Run(s, ls), newcomer, x);
    }
  }

  // Exactly when a completion report changes the job row: its worker has not reported before and
  // owns the running job, whatever has become of the execution meanwhile.
  lemma CompletionReachesJob(t: Sys, x: ExecId)
    requires x in t.db.execs
    ensures DoComplete(t, x).db.jobs != t.db.jobs <==> x in t.executing && T.OwnsRunning(t.db, x)
  {
    if x in t.executing && T.OwnsRunning(t.db, x) {
      var j := t.db.execs[x].jobId;
      assert DoComplete(t, x).db.jobs[j].status != t.db.jobs[j].status;
    }
  }

  lemma StoppedCannotFail(t: Sys, x: ExecId, retryable: bool, retryAt: Option<Time>)
    requires x in t.db.execs && !t.db.execs[x].status.ExecRunning?
    ensures DoFail(t, x, retryable, retryAt).db == t.db
  {
  }

  // Recovery fences off the execution it marks ABANDONED.
  lemma RecoveryFences(s: Sys, j: JobId, x: ExecId, retryAt: Option<Time>)
    requires T.RecoveryCommits(s.db, j, Some(x), retryAt)
    ensures Fenced(DoRecover(s, j, Some(x), retryAt), j, x)
    ensures DoRecover(s, j, Some(x), retryAt).db.execs[x].status.ExecAbandoned?
  {
  }

  // Fencing: once recovery has marked execution x of worker w ABANDONED, then in every continuation
  // of the run in which w has not claimed the job again, x stays fenced, and neither a completion
  // nor a failure it reports changes any job row.
  lemma {:induction false} AbandonedIsFenced(s: Sys, ls: seq<Label>, j: JobId, x: ExecId, retryable: bool,
                                             retryAt: Option<Time>)
    requires Inv(s) && Fenced(s, j, x)
    requires !ClaimedSince(s, Run(s, ls), j, s.db.execs[x].workerId)
    ensures
      var t := Run(s, ls);
      && Fenced(t, j, x)
      && DoComplete(t, x).db.jobs == t.db.jobs
      && DoFail(t, x, retryable, retryAt).db == t.db
  {
    OwnershipNeedsClaim(s, ls, j, s.db.execs[x].workerId);
    StoppedStaysStopped(s, ls, x);
    CompletionReachesJob(Run(s, ls), x);
    StoppedCannotFail(Run(s, ls), x, retryable, retryAt);
  }
}
