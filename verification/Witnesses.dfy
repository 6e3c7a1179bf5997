// Concrete runs that show where the code's guarantees end: why SingleAttempt asks for operators who
// retry only failed or parked jobs, and why Orphans cannot promise that every RUNNING job runs.
module Witnesses {
  import opened Wrappers
  import opened RetryStrategy
  import opened Tables
  import opened Protocol
  import opened History
  import opened Attendance
  import opened Lifecycle
  import opened Orphans
  import opened RetryHorizon
  import opened Pages
  import opened RecoveryQueue
  import opened RecoverySweep
  import opened Starvation
  import opened Unblocking
  import T = Transactions

  const PLAIN := RetryColumns(None, None, None, None)

  // A system with one queue of limit one and one job.
  datatype Scene = Scene(
    now: Time,
    job: Job,
    hands: map<Hand, nat>,
    execs: map<ExecId, Exec>,
    executing: set<ExecId>,
    buried: bool,
    reading: bool)

  function Newborn(maxAttempts: nat, retry: RetryColumns): Job {
    Job(0, 0, Queued, 0, maxAttempts, retry, None, 0, None, None, None)
  }

  ghost predicate Depicts(s: Sys, c: Scene) {
    && s.db.now == c.now && s.db.queues == map[0 := Queue(true, false, 1)] && s.db.jobs == map[0 := c.job]
    && s.hands == c.hands && s.db.execs == c.execs && s.executing == c.executing && (0 in s.db.dead <==> c.buried)
    && (c.reading ==> 0 in s.retryReads)
  }

  ghost predicate Shows(ls: seq<Label>, c: Scene) {
    Depicts(Run(INITIAL, ls), c)
  }

  // A run one step longer shows what the step leads to.
  lemma Further(ls: seq<Label>, l: Label, t: Sys, c: Scene)
    requires Apply(Run(INITIAL, ls), l) == t && Depicts(t, c)
    ensures Shows(ls + [l], c)
  {
    RunSnoc(INITIAL, ls, l);
  }

  lemma Opens(maxAttempts: nat, retry: RetryColumns) returns (ls: seq<Label>)
    requires maxAttempts >= 1
    ensures Shows(ls, Scene(0, Newborn(maxAttempts, retry), map[], map[], {}, false, false))
  {
    var put := PutQueue(0, Queue(true, false, 1));
    var create := Create(0, T.NewJob(0, 0, true, maxAttempts, retry, None, None));
    RunSnoc(INITIAL, [], put);
    RunSnoc(INITIAL, [put], create);
    assert [] + [put] == [put] && [put] + [create] == [put, create];
    ls := [put, create];
    assert Run(INITIAL, [put]).db.queues == map[0 := Queue(true, false, 1)];
  }

  lemma Opening(maxAttempts: nat) returns (ls: seq<Label>)
    requires maxAttempts >= 1
    ensures Shows(ls, Scene(0, Newborn(maxAttempts, PLAIN), map[], map[], {}, false, false))
  {
    ls := Opens(maxAttempts, PLAIN);
  }

  lemma Ticks(ls: seq<Label>, c: Scene, elapsed: nat)
    requires Shows(ls, c)
    ensures Shows(ls + [Tick(elapsed)], c.(now := c.now + elapsed))
  {
    RunSnoc(INITIAL, ls, Tick(elapsed));
  }

  lemma QueueHasRoom(db: Db, job: Job)
    requires db.queues == map[0 := Queue(true, false, 1)] && db.jobs == map[0 := job] && job.status.Queued?
    ensures T.HasCapacity(db, 0)
  {
    assert ActiveJobs(db.jobs, 0) == {};
  }

  lemma ClaimWrites(s: Sys, job: Job, w: WorkerId, leaseMs: nat, at: Time)
    requires s.db.jobs == map[0 := job] && T.CanClaim(s.db, 0, at)
    ensures
      var t := DoClaim(s, 0, w, leaseMs, at);
      && t.db == s.db.(jobs := map[0 := T.ClaimedJob(job, w, leaseMs, at)])
      && t.hands == Given(s.hands, 0, w) && t.executing == s.executing && t.retryReads == s.retryReads
  {
  }

  lemma PromoteWrites(s: Sys, job: Job, at: Time)
    requires s.db.jobs == map[0 := job] && T.CanPromoteAll(s.db, [0], at)
    ensures
      var t := DoPromote(s, [0], at);
      && t.db == s.db.(jobs := map[0 := job.(status := Queued)], ready := s.db.ready + [0])
      && t.hands == s.hands && t.executing == s.executing && t.retryReads == s.retryReads
  {
    assert T.Promoted(s.db.jobs, [0]) == map[0 := job.(status := Queued)];
  }

  function WithClaim(c: Scene, w: WorkerId, leaseMs: nat): Scene {
    c.(job := T.ClaimedJob(c.job, w, leaseMs, c.now), hands := Given(c.hands, 0, w))
  }

  lemma ClaimsDepicted(s: Sys, c: Scene, w: WorkerId, leaseMs: nat)
    requires Depicts(s, c) && c.job.status.Queued? && IsDue(c.job, c.now) && c.job.queueId == 0
    ensures Depicts(DoClaim(s, 0, w, leaseMs, c.now), WithClaim(c, w, leaseMs))
  {
    QueueHasRoom(s.db, c.job);
    ClaimWrites(s, c.job, w, leaseMs, c.now);
  }

  lemma Claims(ls: seq<Label>, c: Scene, w: WorkerId, leaseMs: nat)
    requires Shows(ls, c) && c.job.status.Queued? && IsDue(c.job, c.now) && c.job.queueId == 0
    ensures Shows(ls + [Claim(0, w, leaseMs, c.now)], WithClaim(c, w, leaseMs))
  {
    var s := Run(INITIAL, ls);
    ClaimsDepicted(s, c, w, leaseMs);
    Further(ls, Claim(0, w, leaseMs, c.now), DoClaim(s, 0, w, leaseMs, c.now), WithClaim(c, w, leaseMs));
  }

  function Attempt(c: Scene, w: WorkerId): Exec {
    Exec(0, w, c.job.attemptCount + 1, ExecRunning, c.now)
  }

  function WithStart(c: Scene, w: WorkerId, x: ExecId): Scene
    requires InHand(c.hands, 0, w) > 0
  {
    c.(job := c.job.(status := Running, attemptCount := c.job.attemptCount + 1), hands := Taken(c.hands, 0, w),
       execs := c.execs[x := Attempt(c, w)], executing := c.executing + {x})
  }

  lemma Starts(ls: seq<Label>, c: Scene, w: WorkerId, x: ExecId)
    requires Shows(ls, c) && c.job.status.Claimed? && c.job.attemptCount < c.job.maxAttempts && x !in c.execs
    requires forall y :: y in c.execs ==> c.execs[y].attempt <= c.job.attemptCount
    requires InHand(c.hands, 0, w) > 0
    ensures Shows(ls + [Start(0, w, x)], WithStart(c, w, x))
  {
    RunSnoc(INITIAL, ls, Start(0, w, x));
    assert T.CanStart(Run(INITIAL, ls).db, 0, x);
  }

  lemma CompletesLate(ls: seq<Label>, c: Scene, x: ExecId)
    requires Shows(ls, c) && x in c.executing && x in c.execs && c.execs[x].jobId == 0
    requires c.job.status.Running? && c.job.workerId != Some(c.execs[x].workerId)
    ensures Shows(ls + [Complete(x)],
                  c.(execs := c.execs[x := c.execs[x].(status := ExecCompleted)], executing := c.executing - {x}))
  {
    RunSnoc(INITIAL, ls, Complete(x));
  }

  function WithFailure(c: Scene, x: ExecId): Scene
    requires x in c.execs
  {
    c.(job := c.job.(status := Failed, leaseExpiresAt := None), buried := true,
       execs := c.execs[x := c.execs[x].(status := ExecFailed)], executing := c.executing - {x})
  }

  lemma FailsDepicted(s: Sys, c: Scene, x: ExecId)
    requires Depicts(s, c) && x in c.execs && c.execs[x].jobId == 0 && c.execs[x].status.ExecRunning?
    requires c.job.status.Running?
    ensures Depicts(DoFail(s, x, false, None), WithFailure(c, x))
  {
  }

  lemma FailsForGood(ls: seq<Label>, c: Scene, x: ExecId)
    requires Shows(ls, c) && x in c.execs && c.execs[x].jobId == 0 && c.execs[x].status.ExecRunning?
    requires c.job.status.Running? && x in c.executing
    ensures Shows(ls + [Fail(x, false, 0)], WithFailure(c, x))
  {
    var s := Run(INITIAL, ls);
    FailApplies(s, x);
    FailsDepicted(s, c, x);
    Further(ls, Fail(x, false, 0), DoFail(s, x, false, None), WithFailure(c, x));
  }

  lemma Expires(ls: seq<Label>, c: Scene)
    requires Shows(ls, c) && c.execs == map[] && Held(c.job) && c.job.leaseExpiresAt.value < c.now
    requires c.job.attemptCount < c.job.maxAttempts && c.job.retry == PLAIN && 0 <= c.now <= MAX_DATE
    ensures Shows(ls + [Recover(0, None, 0)], c.(job := T.Rescheduled(c.job, c.now)))
  {
    RunSnoc(INITIAL, ls, Recover(0, None, 0));
    assert RetryInstant(c.job, c.now, 0) == Some(c.now);
  }

  lemma PromotesDepicted(s: Sys, c: Scene)
    requires Depicts(s, c) && c.job.status.Retrying? && c.job.scheduledAt == Some(c.now) && c.job.queueId == 0
    ensures Depicts(DoPromote(s, [0], c.now), c.(job := c.job.(status := Queued)))
  {
    assert T.CanPromoteAll(s.db, [0], c.now);
    PromoteWrites(s, c.job, c.now);
  }

  lemma Promotes(ls: seq<Label>, c: Scene)
    requires Shows(ls, c) && c.job.status.Retrying? && c.job.scheduledAt == Some(c.now) && c.job.queueId == 0
    ensures Shows(ls + [Promote([0], c.now)], c.(job := c.job.(status := Queued)))
  {
    var s := Run(INITIAL, ls);
    PromotesDepicted(s, c);
    Further(ls, Promote([0], c.now), DoPromote(s, [0], c.now), c.(job := c.job.(status := Queued)));
  }

  lemma ReadsForRetry(ls: seq<Label>, c: Scene)
    requires Shows(ls, c) && c.buried
    ensures Shows(ls + [RetryRead(0)], c.(reading := true))
  {
    RunSnoc(INITIAL, ls, RetryRead(0));
  }

  lemma WritesRetryDepicted(s: Sys, c: Scene)
    requires Depicts(s, c) && c.reading
    ensures Depicts(DoRetryWrite(s, 0), c.(job := T.Requeued(c.job)))
  {
  }

  lemma WritesRetry(ls: seq<Label>, c: Scene)
    requires Shows(ls, c) && c.reading
    ensures Shows(ls + [RetryWrite(0)], c.(job := T.Requeued(c.job)))
  {
    var s := Run(INITIAL, ls);
    WritesRetryDepicted(s, c);
    Further(ls, RetryWrite(0), DoRetryWrite(s, 0), c.(job := T.Requeued(c.job)));
  }

  // Worker 2 has a claim of the job in hand; so has worker 1, whose claim has lapsed.
  const LAPSED := Job(0, 0, Claimed, 0, 2, PLAIN, Some(11), 0, Some(2), Some(21), None)

  lemma ClaimLapses() returns (ls: seq<Label>)
    ensures Shows(ls, Scene(11, LAPSED, map[Hand(0, 1) := 1, Hand(0, 2) := 1], map[], {}, false, false))
  {
    var c := Scene(0, Newborn(2, PLAIN), map[], map[], {}, false, false);
    ls := Opening(2);
    Claims(ls, c, 1, 10);
    ls, c := ls + [Claim(0, 1, 10, c.now)], WithClaim(c, 1, 10);
    Ticks(ls, c, 11);
    ls, c := ls + [Tick(11)], c.(now := 11);
    Expires(ls, c);
    ls, c := ls + [Recover(0, None, 0)], c.(job := T.Rescheduled(c.job, 11));
    Promotes(ls, c);
    ls, c := ls + [Promote([0], c.now)], c.(job := c.job.(status := Queued));
    Claims(ls, c, 2, 10);
    ls := ls + [Claim(0, 2, 10, c.now)];
  }

  // Worker 1's claim lapses before it starts; the job is recovered and claimed by worker 2; worker 1
  // starts it after all and completes it.  The execution is COMPLETED, the job is RUNNING, and
  // worker 2's heartbeats keep it so (Orphans.HeartbeatsKeepOrphan).
  lemma LateStartOrphansJob() returns (ls: seq<Label>)
    ensures
      var db := Run(INITIAL, ls).db;
      && 0 in db.jobs && RunningHeld(db.jobs[0]) && db.jobs[0].workerId == Some(2)
      && db.execs == map[0 := Exec(0, 1, 1, ExecCompleted, 11)] && !Attended(Run(INITIAL, ls), 0)
  {
    ls := ClaimLapses();
    var c := Scene(11, LAPSED, map[Hand(0, 1) := 1, Hand(0, 2) := 1], map[], {}, false, false);
    Starts(ls, c, 1, 0);
    ls, c := ls + [Start(0, 1, 0)], WithStart(c, 1, 0);
    CompletesLate(ls, c, 0);
    ls := ls + [Complete(0)];
  }

  lemma ClaimsAndStarts(ls: seq<Label>, c: Scene, w: WorkerId, x: ExecId) returns (more: seq<Label>, d: Scene)
    requires Shows(ls, c) && c.job.status.Queued? && IsDue(c.job, c.now) && c.job.queueId == 0
    requires c.job.attemptCount < c.job.maxAttempts && x !in c.execs
    requires forall y :: y in c.execs ==> c.execs[y].attempt <= c.job.attemptCount
    ensures Shows(more, d)
    ensures d == WithStart(WithClaim(c, w, 10), w, x)
  {
    Claims(ls, c, w, 10);
    more := ls + [Claim(0, w, 10, c.now)];
    d := WithClaim(c, w, 10);
    Starts(more, d, w, x);
    more, d := more + [Start(0, w, x)], WithStart(d, w, x);
  }

  // A failed job, retried by hand, runs again.
  lemma RetriedJobRuns() returns (ls: seq<Label>, c: Scene)
    ensures Shows(ls, c) && c.now == 0 && c.reading && c.job.status.Running? && c.job.queueId == 0
    ensures c.job.attemptCount == 2 && c.job.maxAttempts == 3 && c.job.scheduledAt.None?
    ensures c.execs == map[0 := Exec(0, 1, 1, ExecFailed, 0), 1 := Exec(0, 1, 2, ExecRunning, 0)]
  {
    c := Scene(0, Newborn(3, PLAIN), map[], map[], {}, false, false);
    ls := Opening(3);
    ls, c := ClaimsAndStarts(ls, c, 1, 0);
    FailsForGood(ls, c, 0);
    ls, c := ls + [Fail(0, false, 0)], WithFailure(c, 0);
    ReadsForRetry(ls, c);
    ls, c := ls + [RetryRead(0)], c.(reading := true);
    WritesRetry(ls, c);
    ls, c := ls + [RetryWrite(0)], c.(job := T.Requeued(c.job));
    ls, c := ClaimsAndStarts(ls, c, 1, 1);
  }

  // A job with a dead-letter row is retried by hand while it runs: two RUNNING executions.
  lemma ForcedRetryRunsTwice() returns (ls: seq<Label>)
    ensures RunsFor(Run(INITIAL, ls).db, 1, 0) && RunsFor(Run(INITIAL, ls).db, 2, 0)
  {
    var c;
    ls, c := RetriedJobRuns();
    WritesRetry(ls, c);
    ls, c := ls + [RetryWrite(0)], c.(job := T.Requeued(c.job));
    ls, c := ClaimsAndStarts(ls, c, 2, 2);
  }

  // ---- a worker that crashes ----

  lemma Crashes(ls: seq<Label>, c: Scene, x: ExecId)
    requires Shows(ls, c)
    ensures Shows(ls + [Crash(x)], c.(executing := c.executing - {x}))
  {
    RunSnoc(INITIAL, ls, Crash(x));
  }

  // The worker that holds a job crashes while it executes: the execution row stays RUNNING, nothing
  // executes it, and no report will come.  A process restarted under the same identifier renews the
  // lease, because heartbeats go by identifier (Orphans.HeartbeatsKeepOrphan).
  lemma CrashOrphansJob() returns (ls: seq<Label>)
    ensures
      var s := Run(INITIAL, ls);
      && 0 in s.db.jobs && RunningHeld(s.db.jobs[0]) && s.db.jobs[0].workerId == Some(1)
      && s.db.execs == map[0 := Exec(0, 1, 1, ExecRunning, 0)] && s.executing == {} && !Attended(s, 0)
  {
    var c := Scene(0, Newborn(2, PLAIN), map[], map[], {}, false, false);
    ls := Opening(2);
    ls, c := ClaimsAndStarts(ls, c, 1, 0);
    Crashes(ls, c, 0);
    ls := ls + [Crash(0)];
  }

  // ---- a parked job that starves its queue ----

  lemma RecoverParks(s: Sys, x: ExecId, retryAt: Option<Time>)
    requires 0 in s.db.jobs && RunsFor(s.db, x, 0) && s.db.execs.Keys == {x}
    requires T.CanRecover(s.db, 0) && s.db.jobs[0].attemptCount >= s.db.jobs[0].maxAttempts
    ensures
      var t := DoRecover(s, 0, Some(x), retryAt);
      && t.db.jobs == s.db.jobs[0 := s.db.jobs[0].(workerId := None, leaseExpiresAt := None)]
      && t.db.execs == s.db.execs[x := s.db.execs[x].(status := ExecAbandoned)]
      && t.db.queues == s.db.queues && t.db.now == s.db.now && 0 in t.db.dead && t.executing == s.executing
      && t.retryReads == s.retryReads && t.hands == s.hands
  {
  }

  lemma Parks(ls: seq<Label>, c: Scene, x: ExecId)
    requires Shows(ls, c) && c.execs.Keys == {x} && c.execs[x].jobId == 0 && c.execs[x].status.ExecRunning?
    requires Held(c.job) && c.job.leaseExpiresAt.value < c.now && c.job.attemptCount >= c.job.maxAttempts
    ensures Shows(ls + [Recover(0, Some(x), 0)],
                  c.(job := c.job.(workerId := None, leaseExpiresAt := None), buried := true,
                     execs := c.execs[x := c.execs[x].(status := ExecAbandoned)]))
  {
    var s := Run(INITIAL, ls);
    var t := DoRecover(s, 0, Some(x), RetryInstantFor(s.db, 0, 0));
    RecoverParks(s, x, RetryInstantFor(s.db, 0, 0));
    assert Apply(s, Recover(0, Some(x), 0)) == t;
    Further(ls, Recover(0, Some(x), 0), t,
            c.(job := c.job.(workerId := None, leaseExpiresAt := None), buried := true,
               execs := c.execs[x := c.execs[x].(status := ExecAbandoned)]));
  }

  const PARKED := Job(0, 0, Running, 1, 1, PLAIN, None, 0, None, None, None)
  const ABANDONED := Exec(0, 1, 1, ExecAbandoned, 0)

  lemma JobParks() returns (ls: seq<Label>)
    ensures Shows(ls, Scene(11, PARKED, map[Hand(0, 1) := 0], map[0 := ABANDONED], {0}, true, false))
  {
    var c := Scene(0, Newborn(1, PLAIN), map[], map[], {}, false, false);
    ls := Opening(1);
    ls, c := ClaimsAndStarts(ls, c, 1, 0);
    Ticks(ls, c, 11);
    ls, c := ls + [Tick(11)], c.(now := 11);
    Parks(ls, c, 0);
    ls := ls + [Recover(0, Some(0), 0)];
  }

  lemma SecondJob(s: Sys, row: T.NewJob)
    requires s.db.jobs.Keys == {0} && 0 in s.db.queues && row == T.NewJob(0, 0, true, 1, PLAIN, None, None)
    ensures Apply(s, Create(1, row)).db == s.db.(jobs := s.db.jobs[1 := T.FreshJob(row, s.db.now)],
                                                 ready := s.db.ready + [1])
  {
    assert T.CanCreate(s.db, 1, row);
  }

  lemma SecondJobShows(ls: seq<Label>, c: Scene, row: T.NewJob)
    requires Shows(ls, c) && row == T.NewJob(0, 0, true, 1, PLAIN, None, None)
    ensures
      var db := Run(INITIAL, ls + [Create(1, row)]).db;
      && db.jobs == map[0 := c.job, 1 := T.FreshJob(row, c.now)] && db.queues == map[0 := Queue(true, false, 1)]
      && db.execs == c.execs && db.now == c.now
  {
    RunSnoc(INITIAL, ls, Create(1, row));
    SecondJob(Run(INITIAL, ls), row);
  }

  // The only worker loses its lease on the last attempt of job 0; job 1 then waits in the same queue,
  // whose limit is one: it is queued and due, and no continuation without operators can claim it.
  lemma ParkedJobStarvesQueue() returns (ls: seq<Label>)
    ensures
      var s := Run(INITIAL, ls);
      && s.db.jobs.Keys == {0, 1} && Parked(s.db.jobs[0]) && Stuck(s, 0) && StuckSlots(s, 0) == {0}
      && s.db.jobs[1].queueId == 0 && s.db.jobs[1].status.Queued? && IsDue(s.db.jobs[1], s.db.now)
    ensures forall more, at :: !CanBeClaimed(Run(INITIAL, ls), more, 1, at)
  {
    var before := JobParks();
    var row := T.NewJob(0, 0, true, 1, PLAIN, None, None);
    ls := before + [Create(1, row)];
    SecondJobShows(before, Scene(11, PARKED, map[Hand(0, 1) := 0], map[0 := ABANDONED], {0}, true, false), row);
    Reachable(ls);
    NothingClaimsBeside(Run(INITIAL, ls), T.FreshJob(row, 11));
  }

  lemma NothingClaimsBeside(s: Sys, waiting: Job)
    requires Inv(s) && s.db.jobs == map[0 := PARKED, 1 := waiting] && waiting.status.Queued? && waiting.queueId == 0
    requires s.db.execs == map[0 := ABANDONED] && s.db.queues == map[0 := Queue(true, false, 1)]
    requires IsDue(waiting, s.db.now)
    ensures Stuck(s, 0) && StuckSlots(s, 0) == {0}
    ensures forall more, at :: !CanBeClaimed(s, more, 1, at)
  {
    StuckBesideQueued(s, waiting);
    StarvedExactly(s, 0, 1);
  }

  lemma StuckBesideQueued(s: Sys, waiting: Job)
    requires s.db.jobs == map[0 := PARKED, 1 := waiting] && waiting.status.Queued?
    requires s.db.execs == map[0 := ABANDONED]
    ensures Stuck(s, 0) && StuckSlots(s, 0) == {0} && |StuckSlots(s, 0)| == 1
  {
    assert !Attended(s, 0);
    assert StuckSlots(s, 0) == {0};
  }

  // ---- a backoff that leaves the calendar ----

  const EAGER := RetryColumns(Some(Exponential), Some(1), None, None)

  // The job has failed for good n times, each time retried by hand, all at instant 0.
  ghost predicate FailedBy(c: Scene, n: nat, maxAttempts: nat) {
    && c.now == 0 && c.job.status.Failed? && c.job.attemptCount == n && c.job.maxAttempts == maxAttempts
    && c.job.retry == EAGER && c.job.queueId == 0 && c.job.scheduledAt.None? && c.buried && c.reading
    && (forall y :: y in c.execs ==> y < n && c.execs[y].attempt <= n && c.execs[y].jobId == 0)
    && EmptyHanded(c)
  }

  predicate EmptyHanded(c: Scene) {
    forall h :: h in c.hands ==> c.hands[h] == 0
  }

  lemma FailsAgain(ls: seq<Label>, c: Scene, n: nat) returns (more: seq<Label>, d: Scene)
    requires Shows(ls, c) && c.now == 0 && c.job.status.Queued? && c.job.attemptCount == n < c.job.maxAttempts
    requires c.job.retry == EAGER && c.job.queueId == 0 && c.job.scheduledAt.None?
    requires forall y :: y in c.execs ==> y < n && c.execs[y].attempt <= n && c.execs[y].jobId == 0
    requires EmptyHanded(c)
    ensures Shows(more, d) && FailedBy(d, n + 1, c.job.maxAttempts)
  {
    more, d := ClaimsAndStarts(ls, c, 1, n);
    FailsForGood(more, d, n);
    more, d := more + [Fail(n, false, 0)], WithFailure(d, n);
    ReadsForRetry(more, d);
    more, d := more + [RetryRead(0)], d.(reading := true);
  }

  lemma {:induction false} FailsManyTimes(n: nat, maxAttempts: nat) returns (ls: seq<Label>, c: Scene)
    requires 1 <= n <= maxAttempts
    ensures Shows(ls, c) && FailedBy(c, n, maxAttempts)
    decreases n
  {
    if n == 1 {
      c := Scene(0, Newborn(maxAttempts, EAGER), map[], map[], {}, false, false);
      ls := Opens(maxAttempts, EAGER);
    } else {
      ls, c := FailsManyTimes(n - 1, maxAttempts);
      WritesRetry(ls, c);
      ls, c := ls + [RetryWrite(0)], c.(job := T.Requeued(c.job));
    }
    ls, c := FailsAgain(ls, c, n - 1);
  }

  // The execution of a running job that its worker holds, and neither its failure nor its recovery can be
  // recorded.
  ghost predicate RunsBeyondRetry(s: Sys, x: ExecId, n: nat) {
    && s.db.now == 0 && 0 in s.db.jobs && RunningHeld(s.db.jobs[0]) && s.db.jobs[0].attemptCount == n
    && x in s.executing && Reports(s, 0, x) && RunsByHolder(s.db, x) && RetriesAbort(s.db, 0)
  }

  lemma BeyondRetry(s: Sys, c: Scene, x: ExecId)
    requires Depicts(s, c) && c.now == 0 && RunningHeld(c.job) && c.job.retry == EAGER
    requires 54 <= c.job.attemptCount < c.job.maxAttempts
    requires x in c.executing && x in c.execs && c.execs[x] == Exec(0, 1, c.job.attemptCount, ExecRunning, 0)
    requires c.job.workerId == Some(1)
    ensures RunsBeyondRetry(s, x, c.job.attemptCount)
  {
    Attempt54OutlastsCalendar(1, c.job.attemptCount);
    UncappedBackoffGetsStuck(s.db, 0);
  }

  // At instant 0 of the calendar: a job with an uncapped exponential policy has failed for good n - 1
  // times and been retried by hand each time.  Attempt n, for any n from 54 on, runs; its worker holds
  // it; and neither its retryable failure nor the expiry of its lease can be recorded.
  lemma RetriedJobGetsStuck(n: nat, maxAttempts: nat) returns (ls: seq<Label>)
    requires 54 <= n < maxAttempts
    ensures RunsBeyondRetry(Run(INITIAL, ls), n - 1, n)
  {
    var c;
    ls, c := FailsManyTimes(n - 1, maxAttempts);
    WritesRetry(ls, c);
    ls, c := ls + [RetryWrite(0)], c.(job := T.Requeued(c.job));
    ls, c := ClaimsAndStarts(ls, c, 1, n - 1);
    BeyondRetry(Run(INITIAL, ls), c, n - 1);
  }

  // ---- a claim that is dropped ----

  lemma DropsClaim(ls: seq<Label>, c: Scene, w: WorkerId)
    requires Shows(ls, c) && InHand(c.hands, 0, w) > 0
    ensures Shows(ls + [Drop(0, w)], c.(hands := Taken(c.hands, 0, w)))
  {
    RunSnoc(INITIAL, ls, Drop(0, w));
  }

  // A scene whose job is claimed and in nobody's hands, with a retry that leaves the calendar.
  lemma NobodyStarts(s: Sys, c: Scene)
    requires Depicts(s, c) && Held(c.job) && c.job.status.Claimed? && EmptyHanded(c) && c.now == 0
    requires c.job.retry == EAGER && 54 <= c.job.attemptCount < c.job.maxAttempts
    ensures Stuck(s, 0)
  {
    Attempt54OutlastsCalendar(1, c.job.attemptCount);
    UncappedBackoffGetsStuck(s.db, 0);
    if Storable(c.job, Soonest(c.job, 0)) {
      EarlierIsStorable(c.job, 0, Soonest(c.job, 0), 0);
    }
  }

  // The same job, retried by hand once more and claimed by a worker that shuts down before it starts
  // it: CLAIMED, with attempts left, and stuck, because its recovery can never be recorded.
  lemma DroppedClaimIsStuck(n: nat, maxAttempts: nat) returns (ls: seq<Label>, c: Scene)
    requires 54 <= n < maxAttempts
    ensures
      var s := Run(INITIAL, ls);
      && Stuck(s, 0) && Held(s.db.jobs[0]) && s.db.jobs[0].status.Claimed? && s.db.jobs[0].attemptCount == n
      && s.db.jobs[0].maxAttempts == maxAttempts
    ensures Shows(ls, c) && c.now == 0 && c.job.leaseExpiresAt == Some(10)
  {
    ls, c := FailsManyTimes(n, maxAttempts);
    WritesRetry(ls, c);
    ls, c := ls + [RetryWrite(0)], c.(job := T.Requeued(c.job));
    Claims(ls, c, 1, 10);
    ls, c := ls + [Claim(0, 1, 10, c.now)], WithClaim(c, 1, 10);
    DropsClaim(ls, c, 1);
    ls, c := ls + [Drop(0, 1)], c.(hands := Taken(c.hands, 0, 1));
    NobodyStarts(Run(INITIAL, ls), c);
  }

  // Once its lease has run out, that job blocks the recovery of a worker of concurrency one, whose batch
  // it fills (RecoveryQueue.RecoveryStops).
  lemma DroppedClaimBlocksRecovery(n: nat, maxAttempts: nat) returns (ls: seq<Label>)
    requires 54 <= n < maxAttempts
    ensures Blocker(Run(INITIAL, ls), 0)
    ensures forall more, at, page :: NeverRecovers(Run(INITIAL, ls), more, at, page)
  {
    var before, c := DroppedClaimIsStuck(n, maxAttempts);
    ls := before + [Tick(11)];
    Reachable(before);
    RunSnoc(INITIAL, before, Tick(11));
    StuckLapses(Run(INITIAL, before), 11);
    Reachable(ls);
    forall more, at, page
      ensures NeverRecovers(Run(INITIAL, ls), more, at, page)
    {
      if Undisturbed(Run(INITIAL, ls), more, {0})
         && IsPage(ExpiredRows(Run(Run(INITIAL, ls), more).db, at), LeaseKey(Run(Run(INITIAL, ls), more).db), 1, page) {
        RecoveryStops(Run(INITIAL, ls), more, {0}, 1, at, page);
      }
    }
  }

  // A batch of one, after any continuation that leaves job 0 alone, holds no lease that is valid in s.
  ghost predicate NeverRecovers(s: Sys, more: seq<Label>, at: Time, page: seq<JobId>) {
    var db := Run(s, more).db;
    Undisturbed(s, more, {0}) && IsPage(ExpiredRows(db, at), LeaseKey(db), 1, page) ==>
      forall k :: k in page ==> LeaseKey(db)(k) < s.db.now
  }

  lemma StuckLapses(s: Sys, elapsed: nat)
    requires Inv(s) && Stuck(s, 0) && Held(s.db.jobs[0]) && s.db.jobs[0].attemptCount < s.db.jobs[0].maxAttempts
    requires s.db.jobs[0].leaseExpiresAt.value < s.db.now + elapsed
    ensures Blocker(Apply(s, Tick(elapsed)), 0)
  {
    StuckStep(s, Tick(elapsed), 0);
  }
}
