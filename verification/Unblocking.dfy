// The other half of Starvation: when fewer jobs are stuck than the queue's limit, the system can free
// enough slots on its own for any queued job that is due.
module Unblocking {
  import opened Wrappers
  import opened Tables
  import opened Protocol
  import opened JobMoves
  import opened Keys
  import opened Lifecycle
  import opened Capacity
  import opened History
  import opened Attendance
  import opened Starvation
  import T = Transactions

  // No operator writes to a job, and nobody edits a queue.
  predicate HandsOff(ls: seq<Label>) {
    forall i :: 0 <= i < |ls| ==>
      !ls[i].CancelWrite? && !ls[i].RetryWrite? && !ls[i].RetryDeadLetter? && !ls[i].PutQueue?
  }

  // ... and no heartbeat is sent.
  predicate Unaided(ls: seq<Label>) {
    HandsOff(ls) && forall i :: 0 <= i < |ls| ==> !ls[i].Heartbeat?
  }

  lemma {:induction false} UnaidedIsSteady(s: Sys, ls: seq<Label>)
    requires Unaided(ls)
    ensures SteadyRun(s, ls)
  {
    if ls != [] {
      assert Unaided(ls[..|ls| - 1]) && !ls[|ls| - 1].Heartbeat?;
      UnaidedIsSteady(s, ls[..|ls| - 1]);
    }
  }

  lemma {:induction false} RunConcat(s: Sys, a: seq<Label>, b: seq<Label>)
    ensures Run(s, a + b) == Run(Run(s, a), b)
  {
    if b == [] {
      assert a + b == a;
    } else {
      RunConcat(s, a, b[..|b| - 1]);
      assert (a + b)[..|a + b| - 1] == a + b[..|b| - 1];
    }
  }

  lemma UnaidedConcat(a: seq<Label>, b: seq<Label>)
    requires Unaided(a) && Unaided(b)
    ensures Unaided(a + b)
  {
  }

  lemma RunTwo(s: Sys, l: Label, l': Label)
    ensures Run(s, [l, l']) == Apply(Apply(s, l), l')
  {
    assert [l, l'][..1] == [l] && [l][..0] == [];
    assert Run(s, []) == s;
  }

  lemma TwoSteps(s: Sys, l: Label, u: Sys, l': Label, t: Sys)
    requires Apply(s, l) == u && Apply(u, l') == t
    ensures Run(s, [l, l']) == t
  {
    RunTwo(s, l, l');
  }

  lemma RunOne(s: Sys, l: Label)
    ensures Run(s, [l]) == Apply(s, l)
  {
    assert [l][..0] == [];
    assert Run(s, []) == s;
  }

  // ---- freeing one slot ----

  // CanLeave, with nothing left to wait for.
  ghost predicate Movable(s: Sys, j: JobId)
    requires j in s.db.jobs
  {
    var job := s.db.jobs[j];
    || Attended(s, j)
    || (T.CanRecover(s.db, j) && job.attemptCount < job.maxAttempts && Storable(job, s.db.now))
  }

  // Job j has left its slot; every other row, the queues and the clock are as they were, and whoever
  // attended to another job still does.
  ghost predicate OnlyFreed(s: Sys, t: Sys, j: JobId)
    requires j in s.db.jobs
  {
    && j in t.db.jobs && !Occupies(t.db.jobs[j]) && t.db.jobs[j].queueId == s.db.jobs[j].queueId
    && t.db.jobs == s.db.jobs[j := t.db.jobs[j]] && t.db.queues == s.db.queues && t.db.now == s.db.now
    && (forall k, x :: k != j && Reports(s, k, x) ==> Reports(t, k, x))
    && (forall k, w :: k != j ==> InHand(t.hands, k, w) == InHand(s.hands, k, w))
  }

  lemma FreshExec(execs: map<ExecId, Exec>) returns (x: ExecId)
    ensures x !in execs
  {
    x := FreshFor(execs.Keys);
  }

  lemma StartWrites(s: Sys, j: JobId, w: WorkerId, x: ExecId)
    requires T.CanStart(s.db, j, x) && s.db.jobs[j].status.Claimed? && InHand(s.hands, j, w) > 0
    ensures
      var t := DoStart(s, j, w, x);
      var job := s.db.jobs[j];
      && t.db == s.db.(jobs := s.db.jobs[j := job.(status := Running, attemptCount := job.attemptCount + 1)],
                       execs := s.db.execs[x := Exec(j, w, job.attemptCount + 1, ExecRunning, s.db.now)])
      && t.executing == s.executing + {x} && t.hands == Taken(s.hands, j, w)
  {
  }

  lemma FailWrites(s: Sys, j: JobId, x: ExecId)
    requires T.CanFail(s.db, x) && s.db.execs[x].jobId == j
    ensures
      var t := DoFail(s, x, false, None);
      && t.db.jobs == s.db.jobs[j := s.db.jobs[j].(status := Failed, leaseExpiresAt := None)]
      && t.db.execs == s.db.execs[x := s.db.execs[x].(status := ExecFailed)]
      && t.executing == s.executing - {x} && t.db.queues == s.db.queues && t.db.now == s.db.now && t.hands == s.hands
  {
  }

  lemma NoRetryFails(s: Sys, x: ExecId, retryAt: Option<Time>)
    requires T.CanFail(s.db, x)
    ensures DoFail(s, x, false, retryAt) == DoFail(s, x, false, None)
  {
  }

  lemma FailApplies(s: Sys, x: ExecId)
    requires T.CanFail(s.db, x) && x in s.executing
    ensures Apply(s, Fail(x, false, 0)) == DoFail(s, x, false, None)
  {
    NoRetryFails(s, x, RetryInstantOf(s.db, x, 0));
  }

  lemma StartApplies(s: Sys, j: JobId, w: WorkerId, x: ExecId)
    ensures Apply(s, Start(j, w, x)) == DoStart(s, j, w, x)
  {
  }

  lemma ReporterFails(s: Sys, j: JobId, x: ExecId)
    requires Reports(s, j, x) && s.db.execs[x].status.ExecRunning?
    ensures OnlyFreed(s, DoFail(s, x, false, None), j)
  {
    FailWrites(s, j, x);
  }

  lemma ReporterCompletes(s: Sys, j: JobId, x: ExecId)
    requires Reports(s, j, x) && !s.db.execs[x].status.ExecRunning?
    ensures OnlyFreed(s, DoComplete(s, x), j)
  {
  }

  lemma StartableLeaves(s: Sys, j: JobId) returns (ls: seq<Label>)
    requires Inv(s) && Startable(s, j)
    ensures Unaided(ls) && OnlyFreed(s, Run(s, ls), j)
  {
    var w :| InHand(s.hands, j, w) > 0;
    var x := FreshExec(s.db.execs);
    assert !HasAttempt(s.db, j, s.db.jobs[j].attemptCount + 1) by {
      assert forall y :: y in s.db.execs ==> ExecOk(s.db, y);
    }
    assert x !in s.executing;
    ls := [Start(j, w, x), Fail(x, false, 0)];
    StartThenFail(s, j, w, x);
  }

  lemma StartThenFail(s: Sys, j: JobId, w: WorkerId, x: ExecId)
    requires T.CanStart(s.db, j, x) && x !in s.executing && InHand(s.hands, j, w) > 0
    ensures OnlyFreed(s, Run(s, [Start(j, w, x), Fail(x, false, 0)]), j)
  {
    var u := DoStart(s, j, w, x);
    RunTwo(s, Start(j, w, x), Fail(x, false, 0));
    StartApplies(s, j, w, x);
    StartWrites(s, j, w, x);
    FailApplies(u, x);
    FailWrites(u, j, x);
    FreedByStartAndFail(s, u, DoFail(u, x, false, None), j, w, x);
  }

  lemma FreedByStartAndFail(s: Sys, u: Sys, t: Sys, j: JobId, w: WorkerId, x: ExecId)
    requires InHand(s.hands, j, w) > 0 && u.hands == Taken(s.hands, j, w) && t.hands == u.hands
    requires j in s.db.jobs && x !in s.db.execs && x !in s.executing && j in u.db.jobs && x in u.db.execs
    requires u.db.jobs == s.db.jobs[j := u.db.jobs[j]] && u.db.queues == s.db.queues && u.db.now == s.db.now
    requires u.db.jobs[j].queueId == s.db.jobs[j].queueId
    requires u.db.execs == s.db.execs[x := u.db.execs[x]] && u.executing == s.executing + {x}
    requires t.db.jobs == u.db.jobs[j := u.db.jobs[j].(status := Failed, leaseExpiresAt := None)]
    requires t.db.execs == u.db.execs[x := u.db.execs[x].(status := ExecFailed)]
    requires t.executing == u.executing - {x} && t.db.queues == u.db.queues && t.db.now == u.db.now
    ensures OnlyFreed(s, t, j)
  {
    assert t.db.jobs == s.db.jobs[j := t.db.jobs[j]];
  }

  lemma ReportedLeaves(s: Sys, j: JobId, x: ExecId) returns (ls: seq<Label>)
    requires Reports(s, j, x)
    ensures Unaided(ls) && OnlyFreed(s, Run(s, ls), j)
  {
    if s.db.execs[x].status.ExecRunning? {
      ls := [Fail(x, false, 0)];
      RunOne(s, Fail(x, false, 0));
      FailApplies(s, x);
      ReporterFails(s, j, x);
    } else {
      ls := [Complete(x)];
      RunOne(s, Complete(x));
      assert Apply(s, Complete(x)) == DoComplete(s, x);
      ReporterCompletes(s, j, x);
    }
  }

  lemma {:induction false} TopExists(db: Db, j: JobId, ids: set<ExecId>) returns (top: Option<ExecId>)
    requires ids <= db.execs.Keys
    ensures top.Some? ==> top.value in ids && RunsFor(db, top.value, j)
    ensures forall x :: x in ids && RunsFor(db, x, j) ==>
      top.Some? && db.execs[x].attempt <= db.execs[top.value].attempt
    decreases |ids|
  {
    top := None;
    if ids != {} {
      var y :| y in ids;
      top := TopExists(db, j, ids - {y});
      if RunsFor(db, y, j) && (top.None? || db.execs[top.value].attempt <= db.execs[y].attempt) {
        top := Some(y);
      }
      assert forall x :: x in ids ==> x == y || x in ids - {y};
    }
  }

  lemma RecoveryFrees(s: Sys, j: JobId, top: Option<ExecId>, retryAt: Option<Time>)
    requires T.RecoveryCommits(s.db, j, top, retryAt) && s.db.jobs[j].attemptCount < s.db.jobs[j].maxAttempts
    ensures OnlyFreed(s, DoRecover(s, j, top, retryAt), j)
  {
  }

  lemma LapsedLeaves(s: Sys, j: JobId) returns (ls: seq<Label>)
    requires T.CanRecover(s.db, j) && s.db.jobs[j].attemptCount < s.db.jobs[j].maxAttempts
    requires Storable(s.db.jobs[j], s.db.now)
    ensures Unaided(ls) && OnlyFreed(s, Run(s, ls), j)
  {
    var top := TopExists(s.db, j, s.db.execs.Keys);
    ls := [Recover(j, top, 0)];
    RunOne(s, Recover(j, top, 0));
    assert Apply(s, Recover(j, top, 0)) == DoRecover(s, j, top, RetryInstantFor(s.db, j, 0));
    RecoveryFrees(s, j, top, RetryInstantFor(s.db, j, 0));
  }

  lemma MovableLeaves(s: Sys, j: JobId) returns (ls: seq<Label>)
    requires Inv(s) && j in s.db.jobs && Movable(s, j)
    ensures Unaided(ls) && OnlyFreed(s, Run(s, ls), j)
  {
    if Startable(s, j) {
      ls := StartableLeaves(s, j);
    } else if x :| Reports(s, j, x) {
      ls := ReportedLeaves(s, j, x);
    } else {
      ls := LapsedLeaves(s, j);
    }
  }

  // ---- freeing all that can leave ----

  // Some of q's jobs have left their slots while time passed; whoever attended to the others still does,
  // and what could leave still can.
  ghost predicate SomeFreed(s: Sys, t: Sys, q: QueueId) {
    && t.db.jobs.Keys == s.db.jobs.Keys && t.db.queues == s.db.queues && s.db.now <= t.db.now
    && (forall k :: k in s.db.jobs ==> t.db.jobs[k].queueId == s.db.jobs[k].queueId)
    && (forall k :: k in s.db.jobs && t.db.jobs[k] != s.db.jobs[k] ==>
          Occupies(s.db.jobs[k]) && !Occupies(t.db.jobs[k]))
    && (forall k :: k in ActiveJobs(t.db.jobs, q) && CanLeave(s, k) ==> CanLeave(t, k))
  }

  lemma StillAttended(s: Sys, t: Sys, j: JobId, k: JobId)
    requires j in s.db.jobs && OnlyFreed(s, t, j) && k != j && Attended(s, k)
    ensures Attended(t, k)
  {
    if Startable(s, k) {
      var w :| InHand(s.hands, k, w) > 0;
      assert InHand(t.hands, k, w) > 0;
    } else {
      var x :| Reports(s, k, x);
      assert Reports(t, k, x);
    }
  }

  lemma FreedMore(s: Sys, u: Sys, t: Sys, q: QueueId, j: JobId)
    requires SomeFreed(s, u, q) && j in ActiveJobs(u.db.jobs, q) && OnlyFreed(u, t, j)
    ensures SomeFreed(s, t, q)
    ensures ActiveJobs(t.db.jobs, q) == ActiveJobs(u.db.jobs, q) - {j}
  {
    forall k | k in ActiveJobs(t.db.jobs, q) && CanLeave(s, k)
      ensures CanLeave(t, k)
    {
      assert k != j && t.db.jobs[k] == u.db.jobs[k];
      assert k in ActiveJobs(u.db.jobs, q);
      if Attended(u, k) {
        StillAttended(u, t, j, k);
      }
    }
  }

  // What waits for its lease to run out, and for nothing else.
  ghost predicate Waits(s: Sys, j: JobId) {
    j in s.db.jobs && Occupies(s.db.jobs[j]) && CanLeave(s, j) && !Movable(s, j)
  }

  lemma WaitsForLease(s: Sys, j: JobId)
    requires Waits(s, j)
    ensures
      var job := s.db.jobs[j];
      && Held(job) && job.attemptCount < job.maxAttempts && s.db.now <= job.leaseExpiresAt.value
      && Storable(job, job.leaseExpiresAt.value + 1)
  {
  }

  function LeaseOf(db: Db, j: JobId): Time {
    if j in db.jobs && db.jobs[j].leaseExpiresAt.Some? then db.jobs[j].leaseExpiresAt.value else 0
  }

  lemma {:induction false} FirstToLapse(db: Db, ids: set<JobId>) returns (j: JobId)
    requires ids != {}
    ensures j in ids && forall k :: k in ids ==> LeaseOf(db, j) <= LeaseOf(db, k)
    decreases |ids|
  {
    var any :| any in ids;
    j := any;
    if ids - {any} != {} {
      var other := FirstToLapse(db, ids - {any});
      if LeaseOf(db, other) < LeaseOf(db, any) {
        j := other;
      }
    }
    assert forall k :: k in ids ==> k == any || k in ids - {any};
  }

  // Job j waits, and no lease of a waiting job of q runs out before its own.
  ghost predicate FirstWaiting(s: Sys, q: QueueId, j: JobId) {
    && j in ActiveJobs(s.db.jobs, q) && Waits(s, j)
    && (forall k :: k in ActiveJobs(s.db.jobs, q) && CanLeave(s, k) ==>
          Waits(s, k) && LeaseOf(s.db, j) <= LeaseOf(s.db, k))
  }

  lemma WhoIsFirst(s: Sys, q: QueueId, some: JobId) returns (j: JobId)
    requires some in ActiveJobs(s.db.jobs, q) && CanLeave(s, some)
    requires forall k :: k in ActiveJobs(s.db.jobs, q) ==> !Movable(s, k)
    ensures FirstWaiting(s, q, j) && s.db.now <= LeaseOf(s.db, j)
  {
    var waiting := set k | k in ActiveJobs(s.db.jobs, q) && CanLeave(s, k);
    assert some in waiting;
    j := FirstToLapse(s.db, waiting);
    WaitsForLease(s, j);
  }

  // Waiting until the first lease has run out makes its job movable and takes nothing from the others.
  lemma LetLapse(s: Sys, q: QueueId, j: JobId, elapsed: nat)
    requires FirstWaiting(s, q, j) && s.db.now + elapsed == LeaseOf(s.db, j) + 1
    ensures
      var t := DoTick(s, elapsed);
      Movable(t, j) && SomeFreed(s, t, q)
  {
    var t := DoTick(s, elapsed);
    WaitsForLease(s, j);
    forall k | k in ActiveJobs(t.db.jobs, q) && CanLeave(s, k)
      ensures CanLeave(t, k)
    {
      assert k in ActiveJobs(s.db.jobs, q);
      WaitsForLease(s, k);
    }
  }

  lemma FreedChain(s: Sys, u: Sys, t: Sys, q: QueueId)
    requires SomeFreed(s, u, q) && SomeFreed(u, t, q)
    ensures SomeFreed(s, t, q)
  {
    forall k | k in ActiveJobs(t.db.jobs, q) && CanLeave(s, k)
      ensures CanLeave(t, k)
    {
      assert k in ActiveJobs(u.db.jobs, q);
    }
  }

  // One more job of q that can leave does, after waiting for its lease if need be.
  lemma FreeMovable(s: Sys, q: QueueId, j: JobId) returns (ls: seq<Label>)
    requires Inv(s) && j in ActiveJobs(s.db.jobs, q) && Movable(s, j)
    ensures Unaided(ls) && Inv(Run(s, ls)) && SomeFreed(s, Run(s, ls), q)
    ensures ActiveJobs(Run(s, ls).db.jobs, q) == ActiveJobs(s.db.jobs, q) - {j}
  {
    ls := MovableLeaves(s, j);
    RunKeepsInv(s, ls);
    FreedMore(s, s, Run(s, ls), q, j);
  }

  lemma FreeAfter(s: Sys, u: Sys, first: seq<Label>, q: QueueId, j: JobId) returns (ls: seq<Label>)
    requires Unaided(first) && u == Run(s, first) && Inv(u) && SomeFreed(s, u, q)
    requires ActiveJobs(u.db.jobs, q) == ActiveJobs(s.db.jobs, q) && j in ActiveJobs(u.db.jobs, q) && Movable(u, j)
    ensures Unaided(ls) && Inv(Run(s, ls)) && SomeFreed(s, Run(s, ls), q)
    ensures ActiveJobs(Run(s, ls).db.jobs, q) == ActiveJobs(s.db.jobs, q) - {j}
  {
    var more := FreeMovable(u, q, j);
    RunConcat(s, first, more);
    UnaidedConcat(first, more);
    FreedChain(s, u, Run(u, more), q);
    ls := first + more;
  }

  lemma FreeWaiting(s: Sys, q: QueueId, j: JobId) returns (ls: seq<Label>)
    requires Inv(s) && FirstWaiting(s, q, j) && s.db.now <= LeaseOf(s.db, j)
    ensures Unaided(ls) && Inv(Run(s, ls)) && SomeFreed(s, Run(s, ls), q)
    ensures ActiveJobs(Run(s, ls).db.jobs, q) == ActiveJobs(s.db.jobs, q) - {j}
  {
    var elapsed := LeaseOf(s.db, j) + 1 - s.db.now;
    LetLapse(s, q, j, elapsed);
    TickRuns(s, elapsed);
    ls := FreeAfter(s, DoTick(s, elapsed), [Tick(elapsed)], q, j);
  }

  lemma TickRuns(s: Sys, elapsed: nat)
    requires Inv(s)
    ensures Run(s, [Tick(elapsed)]) == DoTick(s, elapsed) && Inv(DoTick(s, elapsed))
  {
    RunOne(s, Tick(elapsed));
    RunKeepsInv(s, [Tick(elapsed)]);
  }

  ghost predicate AllFreed(t: Sys, q: QueueId) {
    forall j :: j in ActiveJobs(t.db.jobs, q) ==> !CanLeave(t, j)
  }

  lemma FreeOne(s: Sys, q: QueueId) returns (ls: seq<Label>, j: JobId)
    requires Inv(s) && !AllFreed(s, q)
    ensures Unaided(ls) && Inv(Run(s, ls)) && SomeFreed(s, Run(s, ls), q)
    ensures j in ActiveJobs(s.db.jobs, q) && ActiveJobs(Run(s, ls).db.jobs, q) == ActiveJobs(s.db.jobs, q) - {j}
  {
    if k :| k in ActiveJobs(s.db.jobs, q) && Movable(s, k) {
      j := k;
      ls := FreeMovable(s, q, k);
    } else {
      var some :| some in ActiveJobs(s.db.jobs, q) && CanLeave(s, some);
      j := WhoIsFirst(s, q, some);
      ls := FreeWaiting(s, q, j);
    }
  }

  lemma {:induction false} FreeAll(s: Sys, q: QueueId, active: set<JobId>) returns (ls: seq<Label>)
    requires Inv(s) && active == ActiveJobs(s.db.jobs, q)
    ensures Unaided(ls) && SomeFreed(s, Run(s, ls), q) && AllFreed(Run(s, ls), q)
    decreases |active|
  {
    if AllFreed(s, q) {
      ls := [];
      assert Run(s, []) == s;
    } else {
      var first, j := FreeOne(s, q);
      var rest := FreeAll(Run(s, first), q, active - {j});
      RunConcat(s, first, rest);
      UnaidedConcat(first, rest);
      FreedChain(s, Run(s, first), Run(Run(s, first), rest), q);
      ls := first + rest;
    }
  }

  lemma OnlyStuckRemain(s: Sys, t: Sys, q: QueueId)
    requires SomeFreed(s, t, q) && AllFreed(t, q)
    ensures |ActiveJobs(t.db.jobs, q)| <= |StuckSlots(s, q)|
  {
    forall j | j in ActiveJobs(t.db.jobs, q)
      ensures j in StuckSlots(s, q)
    {
      assert t.db.jobs[j] == s.db.jobs[j] && !CanLeave(t, j);
    }
    SubsetSize(ActiveJobs(t.db.jobs, q), StuckSlots(s, q));
  }

  lemma FreedIsClaimable(s: Sys, t: Sys, q: QueueId, k: JobId)
    requires SomeFreed(s, t, q) && AllFreed(t, q)
    requires q in s.db.queues && s.db.queues[q].active && !s.db.queues[q].archived
    requires k in s.db.jobs && s.db.jobs[k].queueId == q
    requires s.db.jobs[k].status.Queued? && IsDue(s.db.jobs[k], s.db.now)
    requires |StuckSlots(s, q)| < s.db.queues[q].concurrencyLimit
    ensures T.CanClaim(t.db, k, t.db.now)
  {
    OnlyStuckRemain(s, t, q);
    assert t.db.jobs[k] == s.db.jobs[k];
  }

  // If fewer jobs are stuck than the limit, some continuation, in which only workers, recovery and the
  // clock act, can claim any queued job that is due.
  lemma UnstuckQueueGetsThere(s: Sys, q: QueueId, k: JobId) returns (ls: seq<Label>)
    requires Inv(s) && q in s.db.queues && s.db.queues[q].active && !s.db.queues[q].archived
    requires k in s.db.jobs && s.db.jobs[k].queueId == q
    requires s.db.jobs[k].status.Queued? && IsDue(s.db.jobs[k], s.db.now)
    requires |StuckSlots(s, q)| < s.db.queues[q].concurrencyLimit
    ensures Unaided(ls) && T.CanClaim(Run(s, ls).db, k, Run(s, ls).db.now)
  {
    ls := FreeAll(s, q, ActiveJobs(s.db.jobs, q));
    FreedIsClaimable(s, Run(s, ls), q, k);
  }

  lemma {:induction false} QueuesKept(s: Sys, ls: seq<Label>)
    requires HandsOff(ls)
    ensures Run(s, ls).db.queues == s.db.queues
  {
    if ls != [] {
      QueuesKept(s, ls[..|ls| - 1]);
      OthersKeepQueues(Run(s, ls[..|ls| - 1]), ls[|ls| - 1]);
    }
  }

  lemma StepKeepsQueue(s: Sys, t: Sys, newcomer: Option<ExecId>, k: JobId)
    requires Step(s, t, newcomer) && k in s.db.jobs
    ensures k in t.db.jobs && t.db.jobs[k].queueId == s.db.jobs[k].queueId
  {
    assert HasMove(s, t, k);
    var m :| Moves(s, t, k, m);
    MoveKeepsKey(s.db.jobs[k], s.db.now, m);
  }

  lemma {:induction false} JobsKept(s: Sys, ls: seq<Label>, k: JobId)
    requires Inv(s) && k in s.db.jobs
    ensures k in Run(s, ls).db.jobs && Run(s, ls).db.jobs[k].queueId == s.db.jobs[k].queueId
  {
    if ls != [] {
      JobsKept(s, ls[..|ls| - 1], k);
      var u, newcomer := LastStep(s, ls);
      StepKeepsQueue(u, Run(s, ls), newcomer, k);
    }
  }

  // After ls, in which operators do nothing, a claim with NOW() = at can take k.
  ghost predicate CanBeClaimed(s: Sys, ls: seq<Label>, k: JobId, at: Time) {
    HandsOff(ls) && SteadyRun(s, ls) && T.CanClaim(Run(s, ls).db, k, at)
  }

  // Starvation, exactly: a queued job that is due can be claimed in some continuation without operators
  // if and only if fewer jobs of its queue are stuck than the queue's limit.
  lemma {:induction false} StarvedExactly(s: Sys, q: QueueId, k: JobId)
    requires Inv(s) && q in s.db.queues && s.db.queues[q].active && !s.db.queues[q].archived
    requires k in s.db.jobs && s.db.jobs[k].queueId == q && s.db.jobs[k].status.Queued? && IsDue(s.db.jobs[k], s.db.now)
    ensures (exists ls, at :: CanBeClaimed(s, ls, k, at)) <==> |StuckSlots(s, q)| < s.db.queues[q].concurrencyLimit
  {
    if |StuckSlots(s, q)| < s.db.queues[q].concurrencyLimit {
      var ls := UnstuckQueueGetsThere(s, q, k);
      UnaidedIsSteady(s, ls);
      assert CanBeClaimed(s, ls, k, Run(s, ls).db.now);
    } else {
      forall ls, at
        ensures !CanBeClaimed(s, ls, k, at)
      {
        if HandsOff(ls) && SteadyRun(s, ls) {
          QueuesKept(s, ls);
          JobsKept(s, ls, k);
          StuckJobsStarveQueue(s, ls, q, k, at);
        }
      }
    }
  }
}
