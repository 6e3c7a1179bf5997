// Which reports can still move a job that holds a slot of its queue, and what happens to it when
// none can: without an operator only recovery changes the row, and heartbeats only its lease.
module Attendance {
  import opened Wrappers
  import opened Tables
  import opened Protocol
  import opened Lifecycle
  import T = Transactions

  // A worker still carries out execution x, and its report would move the RUNNING job j: a failure
  // as long as the execution row is RUNNING, a completion if the worker holds the job.
  predicate Reports(s: Sys, j: JobId, x: ExecId) {
    && x in s.executing && x in s.db.execs && s.db.execs[x].jobId == j && j in s.db.jobs && s.db.jobs[j].status.Running?
    && (s.db.execs[x].status.ExecRunning? || s.db.jobs[j].workerId == Some(s.db.execs[x].workerId))
  }

  // A process has a claim of the job in hand and can still start it.
  ghost predicate Startable(s: Sys, j: JobId) {
    && j in s.db.jobs && s.db.jobs[j].status.Claimed? && s.db.jobs[j].attemptCount < s.db.jobs[j].maxAttempts
    && exists w :: InHand(s.hands, j, w) > 0
  }

  ghost predicate Attended(s: Sys, j: JobId) {
    Startable(s, j) || exists x :: Reports(s, j, x)
  }

  // An operator writes to the job.
  predicate Operates(l: Label, j: JobId) {
    (l.CancelWrite? || l.RetryWrite? || l.RetryDeadLetter?) && l.j == j
  }

  // A recovery of the job that commits.
  predicate Recovers(s: Sys, l: Label, j: JobId) {
    l.Recover? && l.j == j && T.RecoveryCommits(s.db, j, l.top, RetryInstantFor(s.db, j, l.roll))
  }

  predicate OnlyLease(before: Job, after: Job) {
    && after == before.(leaseExpiresAt := after.leaseExpiresAt)
    && (after.leaseExpiresAt.Some? <==> before.leaseExpiresAt.Some?)
  }

  // A lease changes only by a heartbeat of its worker, and only while the job is RUNNING.
  predicate LeaseRenewed(before: Job, after: Job, l: Label, now: Time) {
    || after.leaseExpiresAt == before.leaseExpiresAt
    || (l.Heartbeat? && before.status.Running? && before.workerId == Some(l.w)
        && after.leaseExpiresAt == Some(now + l.leaseMs))
  }

  // ---- one step, label by label ----

  lemma CompletionMoves(s: Sys, x: ExecId, j: JobId)
    requires j in s.db.jobs && !Reports(s, j, x) && x in s.db.execs
    ensures DoComplete(s, x).db.jobs[j] == s.db.jobs[j]
  {
  }

  lemma FailureMoves(s: Sys, x: ExecId, retryable: bool, retryAt: Option<Time>, j: JobId)
    requires j in s.db.jobs && !Reports(s, j, x) && x in s.executing && x in s.db.execs
    ensures DoFail(s, x, retryable, retryAt).db.jobs[j] == s.db.jobs[j]
  {
    assert s.db.execs[x].jobId == j ==> !T.CanFail(s.db, x);
  }

  lemma ReportLabelsMove(s: Sys, l: Label, j: JobId)
    requires j in s.db.jobs && !Attended(s, j) && (l.Complete? || l.Fail?)
    ensures j in Apply(s, l).db.jobs && Apply(s, l).db.jobs[j] == s.db.jobs[j]
  {
    if l.x in s.executing && l.x in s.db.execs {
      if l.Complete? {
        CompletionMoves(s, l.x, j);
      } else {
        FailureMoves(s, l.x, l.retryable, RetryInstantOf(s.db, l.x, l.roll), j);
      }
    }
  }

  lemma HeartbeatMoves(s: Sys, w: WorkerId, leaseMs: nat, j: JobId)
    requires j in s.db.jobs && RowOk(s.db.jobs[j], j in s.db.dead, s.db.now)
    ensures
      var after := DoHeartbeat(s, w, leaseMs).db.jobs[j];
      !Occupies(s.db.jobs[j]) || (OnlyLease(s.db.jobs[j], after)
                                    && LeaseRenewed(s.db.jobs[j], after, Heartbeat(w, leaseMs), s.db.now))
  {
  }

  lemma ClaimAndStartMove(s: Sys, k: JobId, w: WorkerId, leaseMs: nat, at: Time, x: ExecId, j: JobId)
    requires j in s.db.jobs && Occupies(s.db.jobs[j]) && !Startable(s, j)
    ensures DoClaim(s, k, w, leaseMs, at).db.jobs[j] == s.db.jobs[j]
    ensures DoStart(s, k, w, x).db.jobs[j] == s.db.jobs[j]
  {
  }

  lemma PromotionMoves(s: Sys, ids: seq<JobId>, at: Time, j: JobId)
    requires j in s.db.jobs && Occupies(s.db.jobs[j])
    ensures DoPromote(s, ids, at).db.jobs[j] == s.db.jobs[j]
  {
  }

  lemma CreationMoves(s: Sys, k: JobId, input: T.NewJob, j: JobId)
    requires j in s.db.jobs
    ensures j in DoCreate(s, k, input).db.jobs && DoCreate(s, k, input).db.jobs[j] == s.db.jobs[j]
  {
  }

  lemma RecoverMovesSlot(s: Sys, k: JobId, top: Option<ExecId>, retryAt: Option<Time>, j: JobId)
    requires j in s.db.jobs
    ensures
      var t := DoRecover(s, k, top, retryAt);
      t.db.jobs[j] == (if k == j && T.RecoveryCommits(s.db, j, top, retryAt) then T.RecoveredJob(s.db.jobs[j], retryAt)
                       else s.db.jobs[j])
  {
  }

  lemma OtherOperators(s: Sys, l: Label, j: JobId)
    requires j in s.db.jobs && !Operates(l, j) && (l.CancelWrite? || l.RetryWrite? || l.RetryDeadLetter?)
    ensures j in Apply(s, l).db.jobs && Apply(s, l).db.jobs[j] == s.db.jobs[j]
  {
  }

  lemma UnattendedRow(s: Sys, l: Label, j: JobId)
    requires j in s.db.jobs && RowOk(s.db.jobs[j], j in s.db.dead, s.db.now)
    requires Occupies(s.db.jobs[j]) && !Attended(s, j) && !Operates(l, j)
    ensures j in Apply(s, l).db.jobs
    ensures
      var after := Apply(s, l).db.jobs[j];
      if Recovers(s, l, j) then after == T.RecoveredJob(s.db.jobs[j], RetryInstantFor(s.db, j, l.roll))
      else OnlyLease(s.db.jobs[j], after) && LeaseRenewed(s.db.jobs[j], after, l, s.db.now)
  {
    match l
    case Heartbeat(w, leaseMs) => HeartbeatMoves(s, w, leaseMs, j);
    case Recover(k, top, roll) => RecoverMovesSlot(s, k, top, RetryInstantFor(s.db, k, roll), j);
    case _ => UnattendedRowElsewhere(s, l, j);
  }

  lemma UnattendedRowElsewhere(s: Sys, l: Label, j: JobId)
    requires j in s.db.jobs && Occupies(s.db.jobs[j]) && !Attended(s, j) && !Operates(l, j)
    requires !l.Heartbeat? && !l.Recover?
    ensures j in Apply(s, l).db.jobs && Apply(s, l).db.jobs[j] == s.db.jobs[j]
  {
    if l.Complete? || l.Fail? {
      ReportLabelsMove(s, l, j);
    } else if l.CancelWrite? || l.RetryWrite? || l.RetryDeadLetter? {
      OtherOperators(s, l, j);
    } else {
      SchedulingLabelMoves(s, l, j);
    }
  }

  lemma SchedulingLabelMoves(s: Sys, l: Label, j: JobId)
    requires j in s.db.jobs && Occupies(s.db.jobs[j]) && !Startable(s, j)
    requires !l.Heartbeat? && !l.Recover? && !l.Complete? && !l.Fail?
    requires !l.CancelWrite? && !l.RetryWrite? && !l.RetryDeadLetter?
    ensures j in Apply(s, l).db.jobs && Apply(s, l).db.jobs[j] == s.db.jobs[j]
  {
    match l
    case Claim(k, w, leaseMs, at) => ClaimAndStartMove(s, k, w, leaseMs, at, 0, j);
    case Start(k, w, x) => ClaimAndStartMove(s, k, w, 0, 0, x, j);
    case Promote(ids, at) => PromotionMoves(s, ids, at, j);
    case Create(k, input) => CreationMoves(s, k, input, j);
    case _ =>
  }

  // ---- nobody starts to attend ----

  lemma HandsGrowByClaims(s: Sys, l: Label, j: JobId, w: WorkerId)
    requires InHand(Apply(s, l).hands, j, w) > InHand(s.hands, j, w)
    ensures l.Claim? && l.j == j && T.CanClaim(s.db, j, l.at)
  {
  }

  // Seen from s, nothing can start to attend job j that did not before.
  ghost predicate NobodyComes(s: Sys, t: Sys, j: JobId)
    requires j in s.db.jobs && j in t.db.jobs
  {
    && t.db.jobs[j].attemptCount == s.db.jobs[j].attemptCount && t.db.jobs[j].maxAttempts == s.db.jobs[j].maxAttempts
    && (t.db.jobs[j].workerId == s.db.jobs[j].workerId || t.db.jobs[j].workerId.None?)
    && (t.db.jobs[j].status.Running? ==> s.db.jobs[j].status.Running?)
    && (t.db.jobs[j].status.Claimed? ==> s.db.jobs[j].status.Claimed?)
    && (forall w :: InHand(t.hands, j, w) > 0 ==> InHand(s.hands, j, w) > 0)
  }

  lemma StaysUnattended(s: Sys, t: Sys, newcomer: Option<ExecId>, j: JobId)
    requires ExecsStep(s, t, newcomer) && j in s.db.jobs && j in t.db.jobs && !Attended(s, j) && NobodyComes(s, t, j)
    ensures !Attended(t, j)
  {
    assert Startable(t, j) ==> Startable(s, j);
    forall x
      ensures !Reports(t, j, x)
    {
      if Reports(t, j, x) {
        if x in s.db.execs {
          assert ExecStep(s.db.execs[x], t.db.execs[x], x in s.executing);
          assert Reports(s, j, x);
        }
      }
    }
  }

  lemma HandsKept(s: Sys, l: Label, j: JobId)
    requires j in s.db.jobs && Occupies(s.db.jobs[j])
    ensures forall w :: InHand(Apply(s, l).hands, j, w) > 0 ==> InHand(s.hands, j, w) > 0
  {
    forall w | InHand(Apply(s, l).hands, j, w) > 0
      ensures InHand(s.hands, j, w) > 0
    {
      if InHand(s.hands, j, w) == 0 {
        HandsGrowByClaims(s, l, j, w);
      }
    }
  }

  // What a step leaves of a job that holds a slot and that nobody attends to.
  ghost predicate LeftAs(s: Sys, l: Label, j: JobId, after: Job)
    requires j in s.db.jobs
  {
    if Recovers(s, l, j) then after == T.RecoveredJob(s.db.jobs[j], RetryInstantFor(s.db, j, l.roll))
    else OnlyLease(s.db.jobs[j], after) && LeaseRenewed(s.db.jobs[j], after, l, s.db.now)
  }

  lemma LeftRow(s: Sys, l: Label, j: JobId, after: Job)
    requires j in s.db.jobs && LeftAs(s, l, j, after)
    ensures
      var before := s.db.jobs[j];
      && after.attemptCount == before.attemptCount && after.maxAttempts == before.maxAttempts
      && (after.workerId == before.workerId || after.workerId.None?)
      && (Occupies(after) ==> after.status == before.status)
  {
  }

  // One step: a job that holds a slot, and that no start and no report can move, changes nothing but
  // its lease, and that only if it runs, unless the step recovers it; and it stays out of reach.
  lemma UnattendedStep(s: Sys, l: Label, j: JobId)
    requires Inv(s) && j in s.db.jobs && Occupies(s.db.jobs[j]) && !Attended(s, j) && !Operates(l, j)
    ensures j in Apply(s, l).db.jobs && !Attended(Apply(s, l), j) && LeftAs(s, l, j, Apply(s, l).db.jobs[j])
  {
    UnattendedRow(s, l, j);
    LeftRow(s, l, j, Apply(s, l).db.jobs[j]);
    HandsKept(s, l, j);
    var newcomer := EveryLabelSteps(s, l);
    StaysUnattended(s, Apply(s, l), newcomer, j);
  }
}
