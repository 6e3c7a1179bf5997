// Jobs that keep their slot: recovery leaves the status of a parked job active, so it counts against
// the queue's concurrency limit until an operator acts, and it is not the only one that does.
module Starvation {
  import opened Wrappers
  import opened RetryStrategy
  import opened Tables
  import opened Protocol
  import opened JobMoves
  import opened Lifecycle
  import opened History
  import opened SingleAttempt
  import opened Attendance
  import T = Transactions

  // No operator writes to the job.
  ghost predicate LeftAlone(s: Sys, t: Sys, j: JobId) {
    && TallyOf(s.tally, j).retries == TallyOf(t.tally, j).retries
    && TallyOf(s.tally, j).cancels == TallyOf(t.tally, j).cancels
  }

  lemma ParkedMove(job: Job, buried: bool, now: Time, m: Move, c: Tally)
    requires RowOk(job, buried, now) && Enabled(job, buried, now, m) && Parked(job)
    requires Noted(c, job, m).retries == c.retries && Noted(c, job, m).cancels == c.cancels
    requires Noted(c, job, m).failuresAfterPark == c.failuresAfterPark
    ensures After(job, now, m) == job
  {
  }

  lemma OperatorsOnlyAdd(job: Job, m: Move, c: Tally)
    ensures c.retries <= Noted(c, job, m).retries && c.cancels <= Noted(c, job, m).cancels
    ensures Noted(c, job, m).forcedRetries - c.forcedRetries <= Noted(c, job, m).retries - c.retries
  {
  }

  lemma OperatorStep(s: Sys, t: Sys, newcomer: Option<ExecId>, j: JobId)
    requires Step(s, t, newcomer) && j in s.db.jobs
    ensures
      var c, c' := TallyOf(s.tally, j), TallyOf(t.tally, j);
      c.retries <= c'.retries && c.cancels <= c'.cancels && c'.forcedRetries - c.forcedRetries <= c'.retries - c.retries
  {
    assert HasMove(s, t, j);
    var m :| Moves(s, t, j, m);
    OperatorsOnlyAdd(s.db.jobs[j], m, TallyOf(s.tally, j));
  }

  lemma ParkedStep(s: Sys, t: Sys, newcomer: Option<ExecId>, j: JobId)
    requires RowsOk(s.db) && Step(s, t, newcomer) && j in s.db.jobs && Parked(s.db.jobs[j])
    requires LeftAlone(s, t, j)
    requires TallyOf(s.tally, j).failuresAfterPark == 0 && TallyOf(t.tally, j).failuresAfterPark == 0
    ensures j in t.db.jobs && t.db.jobs[j] == s.db.jobs[j]
  {
    assert HasMove(s, t, j);
    var m :| Moves(s, t, j, m);
    ParkedMove(s.db.jobs[j], j in s.db.dead, s.db.now, m, TallyOf(s.tally, j));
  }

  // Invariants needed to follow a parked job along a run.
  ghost predicate Sound(s: Sys) {
    Inv(s) && LiveOk(s)
  }

  lemma {:induction false} RunKeepsSound(s: Sys, ls: seq<Label>)
    requires Sound(s)
    ensures Sound(Run(s, ls))
  {
    RunKeepsInv(s, ls);
    if ls != [] {
      RunKeepsSound(s, ls[..|ls| - 1]);
      var u, newcomer := LastStep(s, ls);
      LiveKept(u, Run(s, ls), newcomer);
    }
  }

  lemma {:induction false} OperatorsOnlyAccumulate(s: Sys, ls: seq<Label>, j: JobId)
    requires Inv(s) && j in s.db.jobs
    ensures
      var c, c' := TallyOf(s.tally, j), TallyOf(Run(s, ls).tally, j);
      && j in Run(s, ls).db.jobs
      && c.retries <= c'.retries && c.cancels <= c'.cancels
      && c'.forcedRetries - c.forcedRetries <= c'.retries - c.retries
  {
    if ls != [] {
      OperatorsOnlyAccumulate(s, ls[..|ls| - 1], j);
      var u, newcomer := LastStep(s, ls);
      OperatorStep(u, Run(s, ls), newcomer, j);
    }
  }

  // A parked job that no operator touches is the same row in every continuation: no worker, no
  // heartbeat, no late report and no further recovery ever moves it.
  lemma {:induction false} ParkedStaysParked(s: Sys, ls: seq<Label>, j: JobId)
    requires Sound(s) && j in s.db.jobs && Parked(s.db.jobs[j]) && Disciplined(s, j)
    requires LeftAlone(s, Run(s, ls), j)
    ensures j in Run(s, ls).db.jobs && Run(s, ls).db.jobs[j] == s.db.jobs[j]
  {
    if ls != [] {
      var front := ls[..|ls| - 1];
      var u, newcomer := LastStep(s, ls);
      OperatorsOnlyAccumulate(s, front, j);
      OperatorStep(u, Run(s, ls), newcomer, j);
      ParkedStaysParked(s, front, j);
      RunKeepsSound(s, front);
      RunKeepsSound(s, ls);
      assert Disciplined(u, j) && Disciplined(Run(s, ls), j);
      ParkedStep(u, Run(s, ls), newcomer, j);
    }
  }

  // ---- the jobs that keep their slot for ever ----

  // Some draw of the jitter gives a retry instant that can be written at `at`.
  predicate Storable(job: Job, at: Time) {
    RetryInstant(job, at, 0).Some?
  }

  // When recovery may first find the lease expired, unless it is renewed.
  function Soonest(job: Job, now: Time): Time {
    if job.leaseExpiresAt.None? || job.leaseExpiresAt.value < now then now else job.leaseExpiresAt.value + 1
  }

  // What can take a job off its slot without an operator: a process that has its claim in hand, a
  // report, or the recovery of an attempt that may be retried.
  ghost predicate CanLeave(s: Sys, j: JobId)
    requires j in s.db.jobs
  {
    var job := s.db.jobs[j];
    || Attended(s, j)
    || (Held(job) && job.attemptCount < job.maxAttempts && Storable(job, Soonest(job, s.db.now)))
  }

  // Parked jobs that no late report can fail, claimed jobs that nobody will start and running jobs that
  // nobody will report on, as far as they have no attempts left or no retry instant that can be stored.
  ghost predicate Stuck(s: Sys, j: JobId) {
    j in s.db.jobs && Occupies(s.db.jobs[j]) && !CanLeave(s, j)
  }

  ghost function StuckSlots(s: Sys, q: QueueId): set<JobId> {
    set j | j in s.db.jobs && s.db.jobs[j].queueId == q && Stuck(s, j)
  }

  // The smallest draw gives the earliest instant, and waiting only makes it harder to store.
  lemma EarlierIsStorable(job: Job, at: Time, later: Time, roll: nat)
    requires at <= later && RetryInstant(job, later, roll).Some?
    ensures Storable(job, at)
  {
    var c := PolicyOf(job.retry);
    DelayIsANumber(c, job.attemptCount, Draw(c, roll));
    DelayIsANumber(c, job.attemptCount, 0);
  }

  lemma SameInstant(job: Job, lease: Option<Time>, at: Time)
    ensures Storable(job.(leaseExpiresAt := lease), at) <==> Storable(job, at)
  {
  }

  // A heartbeat never shortens a lease: every process of an identifier runs with the same lease time,
  // and the clock does not run backwards.
  predicate Steady(s: Sys, l: Label) {
    l.Heartbeat? ==> forall j :: j in s.db.jobs && s.db.jobs[j].status.Running? && s.db.jobs[j].workerId == Some(l.w)
                                 && s.db.jobs[j].leaseExpiresAt.Some? ==>
      s.db.jobs[j].leaseExpiresAt.value <= s.db.now + l.leaseMs
  }

  // ... along the run.
  predicate SteadyRun(s: Sys, ls: seq<Label>) {
    ls == [] || (SteadyRun(s, ls[..|ls| - 1]) && Steady(Run(s, ls[..|ls| - 1]), ls[|ls| - 1]))
  }

  predicate NotShortened(before: Job, after: Job) {
    after.leaseExpiresAt.Some? && before.leaseExpiresAt.Some? ==>
      before.leaseExpiresAt.value <= after.leaseExpiresAt.value
  }

  lemma LaterIsNoSooner(before: Job, after: Job, now: Time, later: Time)
    requires Held(before) && Held(after) && now <= later && NotShortened(before, after)
    ensures Soonest(before, now) <= Soonest(after, later)
  {
  }

  lemma StuckHoldsSlot(s: Sys, j: JobId)
    requires Stuck(s, j)
    ensures !Attended(s, j)
    ensures T.CanRecover(s.db, j) && s.db.jobs[j].attemptCount < s.db.jobs[j].maxAttempts ==>
      forall roll: nat :: RetryInstantFor(s.db, j, roll).None?
  {
    var job := s.db.jobs[j];
    if T.CanRecover(s.db, j) && job.attemptCount < job.maxAttempts {
      forall roll: nat
        ensures RetryInstantFor(s.db, j, roll).None?
      {
        if RetryInstantFor(s.db, j, roll).Some? {
          EarlierIsStorable(job, s.db.now, s.db.now, roll);
        }
      }
    }
  }

  lemma StuckRow(s: Sys, t: Sys, j: JobId)
    requires Stuck(s, j) && j in t.db.jobs && !Attended(t, j) && s.db.now <= t.db.now
    requires OnlyLease(s.db.jobs[j], t.db.jobs[j]) && NotShortened(s.db.jobs[j], t.db.jobs[j])
    ensures Stuck(t, j)
  {
    var before, after := s.db.jobs[j], t.db.jobs[j];
    if Held(after) && after.attemptCount < after.maxAttempts && Storable(after, Soonest(after, t.db.now)) {
      LaterIsNoSooner(before, after, s.db.now, t.db.now);
      EarlierIsStorable(after, Soonest(before, s.db.now), Soonest(after, t.db.now), 0);
      SameInstant(before, after.leaseExpiresAt, Soonest(before, s.db.now));
    }
  }

  lemma ClockRuns(s: Sys, l: Label)
    requires Inv(s)
    ensures s.db.now <= Apply(s, l).db.now
  {
    var newcomer := EveryLabelSteps(s, l);
  }

  lemma StuckStep(s: Sys, l: Label, j: JobId)
    requires Inv(s) && Stuck(s, j) && !Operates(l, j) && Steady(s, l)
    ensures Stuck(Apply(s, l), j) && Apply(s, l).db.jobs[j].queueId == s.db.jobs[j].queueId
  {
    StuckHoldsSlot(s, j);
    UnattendedStep(s, l, j);
    ClockRuns(s, l);
    if !Recovers(s, l, j) {
      StuckRow(s, Apply(s, l), j);
    }
  }

  // A stuck job keeps its slot in every continuation in which no operator writes to it: no start, no
  // report however late, no recovery, no heartbeat and no passing of time ever frees it.
  lemma {:induction false} StuckStays(s: Sys, ls: seq<Label>, j: JobId)
    requires Inv(s) && Stuck(s, j) && SteadyRun(s, ls) && forall i :: 0 <= i < |ls| ==> !Operates(ls[i], j)
    ensures Stuck(Run(s, ls), j) && Run(s, ls).db.jobs[j].queueId == s.db.jobs[j].queueId
  {
    if ls != [] {
      StuckStays(s, ls[..|ls| - 1], j);
      RunKeepsInv(s, ls[..|ls| - 1]);
      StuckStep(Run(s, ls[..|ls| - 1]), ls[|ls| - 1], j);
    }
  }

  // A parked job no operator has forced is stuck.
  lemma ParkedIsStuck(s: Sys, j: JobId)
    requires Sound(s) && j in s.db.jobs && Parked(s.db.jobs[j]) && Disciplined(s, j)
    ensures Stuck(s, j)
  {
    assert OneLive(s, j);
    assert RowOk(s.db.jobs[j], j in s.db.dead, s.db.now);
    assert forall x :: Reports(s, j, x) ==> RunsFor(s.db, x, j);
  }

  // A queue whose limit is used up by stuck jobs takes no claim, now or in any continuation in which
  // operators leave those jobs alone and the limit stays used up.
  lemma {:induction false} StuckJobsStarveQueue(s: Sys, ls: seq<Label>, q: QueueId, k: JobId, at: Time)
    requires Inv(s) && SteadyRun(s, ls)
    requires forall i, j :: 0 <= i < |ls| && j in StuckSlots(s, q) ==> !Operates(ls[i], j)
    requires q in Run(s, ls).db.queues && Run(s, ls).db.queues[q].concurrencyLimit <= |StuckSlots(s, q)|
    requires k in Run(s, ls).db.jobs && Run(s, ls).db.jobs[k].queueId == q
    ensures !T.CanClaim(Run(s, ls).db, k, at)
  {
    var t := Run(s, ls);
    forall j | j in StuckSlots(s, q)
      ensures j in ActiveJobs(t.db.jobs, q)
    {
      StuckStays(s, ls, j);
    }
    SubsetSize(StuckSlots(s, q), ActiveJobs(t.db.jobs, q));
  }
}
