// What recoverExpiredJobs of apps/worker/src/reliability/recovery.service.ts does to the tables: which
// expired jobs its query offers, and what its loop makes of any list of candidates.
module RecoverySweep {
  import opened Wrappers
  import opened Tables
  import opened Protocol
  import T = Transactions

  // The query: expired at the instant `at` of its statement, by lease.
  function ExpiredRows(db: Db, at: Time): set<JobId> {
    set j | j in db.jobs && Held(db.jobs[j]) && db.jobs[j].leaseExpiresAt.value < at
  }

  function LeaseKey(db: Db): nat -> Time {
    j => if j in db.jobs && db.jobs[j].leaseExpiresAt.Some? then db.jobs[j].leaseExpiresAt.value else 0
  }

  // The expired jobs among the candidates that recovery can move.
  predicate Recoverable(db: Db, j: JobId, roll: nat) {
    T.CanRecover(db, j) && (db.jobs[j].attemptCount < db.jobs[j].maxAttempts ==> RetryInstantFor(db, j, roll).Some?)
  }

  ghost function Sweep(db: Db, candidates: seq<JobId>, roll: JobId -> nat): set<JobId> {
    set j | j in candidates && Recoverable(db, j, roll(j))
  }

  lemma NextSweep(db: Db, candidates: seq<JobId>, roll: JobId -> nat, n: nat)
    requires n < |candidates|
    ensures
      var j := candidates[n];
      Sweep(db, candidates[..n + 1], roll)
      == Sweep(db, candidates[..n], roll) + (if Recoverable(db, j, roll(j)) then {j} else {})
  {
    assert candidates[..n + 1] == candidates[..n] + [candidates[n]];
  }

  // The execution each recovery finds RUNNING with the highest attempt.
  type Tops = map<JobId, Option<ExecId>>

  ghost predicate TopsOk(before: Db, sweep: set<JobId>, tops: Tops) {
    forall j :: j in sweep ==> j in tops && IsTopRunning(before, j, tops[j])
  }

  predicate IsTopOf(tops: Tops, sweep: set<JobId>, x: ExecId, j: JobId) {
    j in sweep && j in tops && tops[j] == Some(x)
  }

  ghost predicate SweptJobs(before: Db, after: Db, sweep: set<JobId>, roll: JobId -> nat) {
    && (forall j :: j in sweep ==> Recoverable(before, j, roll(j)))
    && after.jobs.Keys == before.jobs.Keys
    && (forall j :: j in before.jobs ==> after.jobs[j] == SweptJob(before, j, j in sweep, roll(j)))
  }

  ghost predicate SweptExecs(before: Db, after: Db, sweep: set<JobId>, tops: Tops) {
    && after.execs.Keys == before.execs.Keys
    && forall x :: x in before.execs ==>
      after.execs[x] == SweptExec(before.execs[x], IsTopOf(tops, sweep, x, before.execs[x].jobId))
  }

  ghost predicate SweptLetters(before: Db, after: Db, sweep: set<JobId>, tops: Tops) {
    && after.dead.Keys <= before.dead.Keys + before.jobs.Keys
    && forall j :: j in before.dead || j in before.jobs ==> SweptLetter(before, after, j, j in sweep, TopFor(tops, j))
  }

  // Exactly the swept jobs are rescheduled or parked, exactly their top executions are abandoned, and
  // exactly the exhausted ones among them are buried, with that execution and their attempts.
  ghost predicate Swept(before: Db, after: Db, sweep: set<JobId>, roll: JobId -> nat, tops: Tops) {
    && after == before.(jobs := after.jobs, execs := after.execs, dead := after.dead)
    && TopsOk(before, sweep, tops)
    && SweptJobs(before, after, sweep, roll)
    && SweptExecs(before, after, sweep, tops)
    && SweptLetters(before, after, sweep, tops)
  }

  function TopFor(tops: Tops, j: JobId): Option<ExecId> {
    if j in tops then tops[j] else None
  }

  function SweptJob(before: Db, j: JobId, swept: bool, roll: nat): Job
    requires j in before.jobs && (swept ==> Recoverable(before, j, roll))
  {
    if swept then T.RecoveredJob(before.jobs[j], RetryInstantFor(before, j, roll)) else before.jobs[j]
  }

  function SweptExec(exec: Exec, isTop: bool): Exec {
    if isTop then exec.(status := ExecAbandoned) else exec
  }

  predicate Buries(before: Db, j: JobId, swept: bool) {
    swept && j in before.jobs && before.jobs[j].attemptCount >= before.jobs[j].maxAttempts
  }

  predicate SweptLetter(before: Db, after: Db, j: JobId, swept: bool, top: Option<ExecId>) {
    if Buries(before, j, swept)
    then j in after.dead && after.dead[j] == T.Buried(before.dead, j, top, before.jobs[j].attemptCount)[j]
    else (j in after.dead <==> j in before.dead) && (j in before.dead ==> after.dead[j] == before.dead[j])
  }

  // ---- one recovery ----

  lemma RecoversJob(mid: Db, j: JobId, roll: nat, top: Option<ExecId>, k: JobId)
    requires IsTopRunning(mid, j, top) && k in mid.jobs
    ensures
      var ok, after := Recoverable(mid, j, roll), T.Recover(mid, j, top, RetryInstantFor(mid, j, roll));
      && (ok <==> T.RecoveryCommits(mid, j, top, RetryInstantFor(mid, j, roll)))
      && after == mid.(jobs := after.jobs, execs := after.execs, dead := after.dead)
      && after.jobs.Keys == mid.jobs.Keys && after.execs.Keys == mid.execs.Keys
      && after.jobs[k] == SweptJob(mid, k, ok && k == j, roll)
  {
  }

  lemma RecoversExec(mid: Db, j: JobId, roll: nat, top: Option<ExecId>, x: ExecId)
    requires IsTopRunning(mid, j, top) && x in mid.execs
    ensures
      var after := T.Recover(mid, j, top, RetryInstantFor(mid, j, roll));
      x in after.execs && after.execs[x] == SweptExec(mid.execs[x], Recoverable(mid, j, roll) && top == Some(x))
  {
  }

  lemma RecoversLetter(mid: Db, j: JobId, roll: nat, top: Option<ExecId>, k: JobId)
    requires IsTopRunning(mid, j, top)
    ensures
      var after := T.Recover(mid, j, top, RetryInstantFor(mid, j, roll));
      && SweptLetter(mid, after, k, Recoverable(mid, j, roll) && k == j, top)
      && after.dead.Keys <= mid.dead.Keys + mid.jobs.Keys
  {
  }

  // ---- one more candidate ----

  // The rows of a job that has not been swept yet are the ones it started with.
  lemma Unswept(before: Db, mid: Db, sweep: set<JobId>, roll: JobId -> nat, tops: Tops, j: JobId)
    requires Swept(before, mid, sweep, roll, tops) && j !in sweep
    ensures Recoverable(mid, j, roll(j)) <==> Recoverable(before, j, roll(j))
    ensures j in mid.jobs <==> j in before.jobs
    ensures j in mid.jobs ==> mid.jobs[j] == before.jobs[j]
    ensures RetryInstantFor(mid, j, roll(j)) == RetryInstantFor(before, j, roll(j))
  {
  }

  lemma UnsweptTop(before: Db, mid: Db, sweep: set<JobId>, roll: JobId -> nat, tops: Tops, j: JobId,
                   top: Option<ExecId>)
    requires Swept(before, mid, sweep, roll, tops) && j !in sweep && IsTopRunning(mid, j, top)
    ensures IsTopRunning(before, j, top)
  {
    assert forall x :: x in before.execs && before.execs[x].jobId == j ==> mid.execs[x] == before.execs[x];
    assert forall x :: x in before.execs && mid.execs[x].jobId == j ==> before.execs[x].jobId == j;
  }

  lemma SweepNone(before: Db, mid: Db, sweep: set<JobId>, roll: JobId -> nat, tops: Tops, j: JobId,
                  top: Option<ExecId>)
    requires Swept(before, mid, sweep, roll, tops) && j !in sweep && IsTopRunning(mid, j, top)
    requires !Recoverable(mid, j, roll(j))
    ensures T.Recover(mid, j, top, RetryInstantFor(mid, j, roll(j))) == mid
  {
  }

  lemma SweptJobsGrow(before: Db, mid: Db, after: Db, sweep: set<JobId>, roll: JobId -> nat,
                      tops: Tops, j: JobId, k: JobId)
    requires Swept(before, mid, sweep, roll, tops) && j !in sweep && Recoverable(mid, j, roll(j)) && k in before.jobs
    requires k in after.jobs && after.jobs[k] == SweptJob(mid, k, k == j, roll(j))
    ensures Recoverable(before, j, roll(j)) && after.jobs[k] == SweptJob(before, k, k in sweep + {j}, roll(k))
  {
    Unswept(before, mid, sweep, roll, tops, j);
  }

  lemma SweptExecsGrow(before: Db, mid: Db, sweep: set<JobId>, roll: JobId -> nat, tops: Tops, j: JobId,
                       top: Option<ExecId>, x: ExecId)
    requires Swept(before, mid, sweep, roll, tops) && j !in sweep && IsTopRunning(mid, j, top) && x in before.execs
    ensures SweptExec(mid.execs[x], top == Some(x))
            == SweptExec(before.execs[x], IsTopOf(tops[j := top], sweep + {j}, x, before.execs[x].jobId))
  {
    assert mid.execs[x].jobId == before.execs[x].jobId;
  }

  lemma SweptLettersGrow(before: Db, mid: Db, after: Db, sweep: set<JobId>, roll: JobId -> nat,
                         tops: Tops, j: JobId, top: Option<ExecId>, k: JobId)
    requires Swept(before, mid, sweep, roll, tops) && j !in sweep && j in before.jobs
    requires SweptLetter(mid, after, k, k == j, top) && (k in before.dead || k in before.jobs)
    ensures SweptLetter(before, after, k, k in sweep + {j}, TopFor(tops[j := top], k))
  {
    Unswept(before, mid, sweep, roll, tops, j);
    assert SweptLetter(before, mid, k, k in sweep, TopFor(tops, k));
  }

  lemma SweepJobs(before: Db, mid: Db, sweep: set<JobId>, roll: JobId -> nat, tops: Tops, j: JobId,
                  top: Option<ExecId>)
    requires Swept(before, mid, sweep, roll, tops) && j !in sweep && IsTopRunning(mid, j, top)
    requires Recoverable(mid, j, roll(j))
    ensures
      var after := T.Recover(mid, j, top, RetryInstantFor(mid, j, roll(j)));
      && after == before.(jobs := after.jobs, execs := after.execs, dead := after.dead)
      && SweptJobs(before, after, sweep + {j}, roll)
  {
    var after := T.Recover(mid, j, top, RetryInstantFor(mid, j, roll(j)));
    Unswept(before, mid, sweep, roll, tops, j);
    RecoversJob(mid, j, roll(j), top, j);
    forall k | k in before.jobs
      ensures after.jobs[k] == SweptJob(before, k, k in sweep + {j}, roll(k))
    {
      RecoversJob(mid, j, roll(j), top, k);
      SweptJobsGrow(before, mid, after, sweep, roll, tops, j, k);
    }
  }

  lemma SweepExecs(before: Db, mid: Db, sweep: set<JobId>, roll: JobId -> nat, tops: Tops, j: JobId,
                   top: Option<ExecId>)
    requires Swept(before, mid, sweep, roll, tops) && j !in sweep && IsTopRunning(mid, j, top)
    requires Recoverable(mid, j, roll(j))
    ensures
      var after := T.Recover(mid, j, top, RetryInstantFor(mid, j, roll(j)));
      SweptExecs(before, after, sweep + {j}, tops[j := top])
  {
    var after := T.Recover(mid, j, top, RetryInstantFor(mid, j, roll(j)));
    assert after.execs.Keys == mid.execs.Keys;
    forall x | x in before.execs
      ensures x in after.execs
        && after.execs[x] == SweptExec(before.execs[x], IsTopOf(tops[j := top], sweep + {j}, x, before.execs[x].jobId))
    {
      RecoversExec(mid, j, roll(j), top, x);
      SweptExecsGrow(before, mid, sweep, roll, tops, j, top, x);
    }
  }

  lemma SweepLetters(before: Db, mid: Db, sweep: set<JobId>, roll: JobId -> nat, tops: Tops, j: JobId,
                     top: Option<ExecId>)
    requires Swept(before, mid, sweep, roll, tops) && j !in sweep && IsTopRunning(mid, j, top)
    requires Recoverable(mid, j, roll(j))
    ensures
      var after := T.Recover(mid, j, top, RetryInstantFor(mid, j, roll(j)));
      SweptLetters(before, after, sweep + {j}, tops[j := top])
  {
    var after := T.Recover(mid, j, top, RetryInstantFor(mid, j, roll(j)));
    RecoversLetter(mid, j, roll(j), top, j);
    forall k | k in before.dead || k in before.jobs
      ensures SweptLetter(before, after, k, k in sweep + {j}, TopFor(tops[j := top], k))
    {
      RecoversLetter(mid, j, roll(j), top, k);
      SweptLettersGrow(before, mid, after, sweep, roll, tops, j, top, k);
    }
  }

  lemma SweepOne(before: Db, mid: Db, sweep: set<JobId>, roll: JobId -> nat, tops: Tops, j: JobId,
                 top: Option<ExecId>)
    requires Swept(before, mid, sweep, roll, tops) && j !in sweep && IsTopRunning(mid, j, top)
    requires Recoverable(mid, j, roll(j))
    ensures Swept(before, T.Recover(mid, j, top, RetryInstantFor(mid, j, roll(j))), sweep + {j}, roll, tops[j := top])
  {
    assert TopsOk(before, sweep + {j}, tops[j := top]) by {
      UnsweptTop(before, mid, sweep, roll, tops, j, top);
    }
    SweepJobs(before, mid, sweep, roll, tops, j, top);
    SweepExecs(before, mid, sweep, roll, tops, j, top);
    SweepLetters(before, mid, sweep, roll, tops, j, top);
  }

  // One turn of the loop over the candidates.
  lemma SweepNext(before: Db, mid: Db, candidates: seq<JobId>, n: nat, roll: JobId -> nat, tops: Tops,
                  top: Option<ExecId>) returns (more: Tops)
    requires n < |candidates| && T.Distinct(candidates)
    requires Swept(before, mid, Sweep(before, candidates[..n], roll), roll, tops)
    requires IsTopRunning(mid, candidates[n], top)
    ensures
      var j := candidates[n];
      var ok := Recoverable(mid, j, roll(j));
      && (ok <==> T.RecoveryCommits(mid, j, top, RetryInstantFor(mid, j, roll(j))))
      && Swept(before, T.Recover(mid, j, top, RetryInstantFor(mid, j, roll(j))),
               Sweep(before, candidates[..n + 1], roll), roll, more)
      && |Sweep(before, candidates[..n + 1], roll)| == |Sweep(before, candidates[..n], roll)| + One(ok)
  {
    var j, sweep := candidates[n], Sweep(before, candidates[..n], roll);
    assert j !in candidates[..n];
    NextSweep(before, candidates, roll, n);
    Unswept(before, mid, sweep, roll, tops, j);
    if Recoverable(mid, j, roll(j)) {
      SweepOne(before, mid, sweep, roll, tops, j, top);
      more := tops[j := top];
    } else {
      SweepNone(before, mid, sweep, roll, tops, j, top);
      more := tops;
    }
  }
}
