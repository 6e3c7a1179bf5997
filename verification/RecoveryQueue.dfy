// Head-of-line blocking in recovery: a batch takes the expired jobs whose leases ran out first, and a job
// whose recovery cannot be recorded stays expired, with the same lease.
module RecoveryQueue {
  import opened Wrappers
  import opened Tables
  import opened Protocol
  import opened Lifecycle
  import opened History
  import opened Attendance
  import opened Starvation
  import opened Pages
  import opened RecoverySweep
  import T = Transactions

  // ---- one batch ----

  // A batch recovers an expired job exactly when fewer leases than the batch holds ran out before its
  // own and its next instant can be stored.
  lemma RecoveredExactly(db: Db, at: Time, batchSize: nat, page: seq<JobId>, roll: JobId -> nat, j: JobId)
    requires at <= db.now && IsPage(ExpiredRows(db, at), LeaseKey(db), batchSize, page)
    ensures
      j in Sweep(db, page, roll) <==>
      j in ExpiredRows(db, at) && |Ahead(ExpiredRows(db, at), LeaseKey(db), j)| < batchSize
      && (db.jobs[j].attemptCount < db.jobs[j].maxAttempts ==> RetryInstantFor(db, j, roll(j)).Some?)
  {
    if j in ExpiredRows(db, at) {
      OnPageExactly(ExpiredRows(db, at), LeaseKey(db), batchSize, page, j);
    }
  }

  ghost function Unrecoverable(db: Db, at: Time, roll: JobId -> nat): set<JobId> {
    set j | j in ExpiredRows(db, at) && !Recoverable(db, j, roll(j))
  }

  // With fewer unrecoverable jobs than a batch holds, every batch makes progress as long as there is
  // anything to recover.
  lemma RecoveryProceeds(db: Db, at: Time, batchSize: nat, page: seq<JobId>, roll: JobId -> nat, j: JobId)
    requires at <= db.now && IsPage(ExpiredRows(db, at), LeaseKey(db), batchSize, page)
    requires |Unrecoverable(db, at, roll)| < batchSize && j in ExpiredRows(db, at) && Recoverable(db, j, roll(j))
    ensures Sweep(db, page, roll) != {}
  {
    if Sweep(db, page, roll) == {} {
      forall k | k in Elements(page)
        ensures k in Unrecoverable(db, at, roll)
      {
        assert k !in Sweep(db, page, roll);
      }
      ElementsOf(page);
      assert j !in page;
      SubsetSize(Elements(page), Unrecoverable(db, at, roll));
    }
  }

  // ---- for ever ----

  // The lease has run out, attempts are left, no instant for the next one can be stored, and nobody is
  // left to start the job or to report on it.
  ghost predicate Blocker(s: Sys, j: JobId) {
    && T.CanRecover(s.db, j) && s.db.jobs[j].attemptCount < s.db.jobs[j].maxAttempts
    && !Storable(s.db.jobs[j], s.db.now) && !Attended(s, j)
  }

  // Operators leave the job alone, and no heartbeat renews its lease; a CLAIMED job gets none anyway.
  predicate Leaves(l: Label, job: Job, j: JobId) {
    !Operates(l, j) && !(l.Heartbeat? && job.status.Running? && job.workerId == Some(l.w))
  }

  lemma BlockerStep(s: Sys, l: Label, j: JobId)
    requires Inv(s) && Blocker(s, j) && Leaves(l, s.db.jobs[j], j)
    ensures Blocker(Apply(s, l), j) && Apply(s, l).db.jobs[j] == s.db.jobs[j]
  {
    UnattendedStep(s, l, j);
    ClockRuns(s, l);
    var job := s.db.jobs[j];
    if Recovers(s, l, j) {
      EarlierIsStorable(job, s.db.now, s.db.now, l.roll);
    }
    if Storable(job, Apply(s, l).db.now) {
      EarlierIsStorable(job, s.db.now, Apply(s, l).db.now, 0);
    }
  }

  // A blocker is the same row in every continuation that leaves it alone.
  lemma {:induction false} BlockerStays(s: Sys, ls: seq<Label>, j: JobId)
    requires Inv(s) && Blocker(s, j) && forall i :: 0 <= i < |ls| ==> Leaves(ls[i], s.db.jobs[j], j)
    ensures Blocker(Run(s, ls), j) && Run(s, ls).db.jobs[j] == s.db.jobs[j]
  {
    if ls != [] {
      BlockerStays(s, ls[..|ls| - 1], j);
      RunKeepsInv(s, ls[..|ls| - 1]);
      BlockerStep(Run(s, ls[..|ls| - 1]), ls[|ls| - 1], j);
    }
  }

  ghost predicate Undisturbed(s: Sys, ls: seq<Label>, blockers: set<JobId>) {
    forall i, j :: 0 <= i < |ls| && j in blockers ==> j in s.db.jobs && Leaves(ls[i], s.db.jobs[j], j)
  }

  // As many blockers as a batch holds stop recovery: whatever workers, schedulers, callers and operators
  // of other jobs do from then on, no batch ever offers a job whose lease was still valid at that time.
  lemma RecoveryStops(s: Sys, ls: seq<Label>, blockers: set<JobId>, batchSize: nat, at: Time, page: seq<JobId>)
    requires Inv(s) && (forall j :: j in blockers ==> Blocker(s, j)) && batchSize <= |blockers|
    requires Undisturbed(s, ls, blockers)
    requires IsPage(ExpiredRows(Run(s, ls).db, at), LeaseKey(Run(s, ls).db), batchSize, page)
    ensures forall k :: k in page ==> LeaseKey(Run(s, ls).db)(k) < s.db.now
  {
    var db := Run(s, ls).db;
    forall k | k in page
      ensures LeaseKey(db)(k) < s.db.now
    {
      if s.db.now <= LeaseKey(db)(k) {
        forall b | b in blockers
          ensures b in ExpiredRows(db, at) && InOrder(LeaseKey(db), b, k)
        {
          BlockerStays(s, ls, b);
        }
        CrowdedOut(ExpiredRows(db, at), LeaseKey(db), batchSize, page, blockers, k);
      }
    }
  }
}
