// What the history kept beside the tables means: the tallies count what happens to the rows, the hands and
// the executions in progress follow the labels, and the peak of a queue is a limit it has had.
module Counters {
  import opened Wrappers
  import opened Tables
  import opened Protocol
  import opened History
  import T = Transactions

  // ---- the peak ----

  ghost predicate HadLimit(ls: seq<Label>, q: QueueId, limit: nat) {
    exists i :: 0 <= i < |ls| && ls[i].PutQueue? && ls[i].q == q && ls[i].row.concurrencyLimit == limit
  }

  lemma HadLimitStill(ls: seq<Label>, l: Label, q: QueueId, limit: nat)
    requires HadLimit(ls, q, limit)
    ensures HadLimit(ls + [l], q, limit)
  {
    var i :| 0 <= i < |ls| && ls[i].PutQueue? && ls[i].q == q && ls[i].row.concurrencyLimit == limit;
    assert (ls + [l])[i] == ls[i];
  }

  lemma PeakStep(s: Sys, l: Label, q: QueueId)
    requires q in Apply(s, l).peak
    ensures
      || (q in s.peak && Apply(s, l).peak[q] == s.peak[q])
      || (l.PutQueue? && l.q == q && Apply(s, l).peak[q] == l.row.concurrencyLimit)
  {
  }

  // In every run the peak of a queue is one of the limits somebody gave it.
  lemma {:induction false} PeakWasALimit(ls: seq<Label>, q: QueueId)
    requires q in Run(INITIAL, ls).peak
    ensures HadLimit(ls, q, Run(INITIAL, ls).peak[q])
  {
    if ls != [] {
      var front, l := ls[..|ls| - 1], ls[|ls| - 1];
      var s := Run(INITIAL, front);
      assert ls == front + [l];
      PeakStep(s, l, q);
      if q in s.peak && Run(INITIAL, ls).peak[q] == s.peak[q] {
        PeakWasALimit(front, q);
        HadLimitStill(front, l, q, s.peak[q]);
      } else {
        assert ls[|ls| - 1] == l;
      }
    }
  }

  // ---- claims in hand, executions in progress ----

  // A claim puts one into its worker's hands; a start or a drop of it takes one out, also a start that is
  // refused; and nothing else does either.
  lemma HandEffect(s: Sys, l: Label, j: JobId, w: WorkerId)
    ensures
      InHand(Apply(s, l).hands, j, w) == InHand(s.hands, j, w)
        + One(l.Claim? && l.j == j && l.w == w && T.CanClaim(s.db, j, l.at))
        - One((l.Start? || l.Drop?) && l.j == j && l.w == w && InHand(s.hands, j, w) > 0)
  {
    if !l.Claim? && !l.Start? && !l.Drop? {
      OthersLeaveHands(s, l);
    }
  }

  lemma OthersLeaveHands(s: Sys, l: Label)
    requires !l.Claim? && !l.Start? && !l.Drop?
    ensures Apply(s, l).hands == s.hands
  {
  }

  // Without a claim in hand a start does nothing.
  lemma StartNeedsHand(s: Sys, j: JobId, w: WorkerId, x: ExecId)
    ensures DoStart(s, j, w, x).db == if InHand(s.hands, j, w) > 0 then T.Start(s.db, j, w, x) else s.db
  {
  }

  // An execution is in progress from its start until it crashes, is completed or has reported a failure.
  lemma ExecutingEffect(s: Sys, l: Label, x: ExecId)
    ensures
      x in Apply(s, l).executing <==>
      || (l.Start? && l.x == x && InHand(s.hands, l.j, l.w) > 0 && T.CanStart(s.db, l.j, x))
      || (x in s.executing && !(l.Crash? && l.x == x) && !(l.Fail? && l.x == x && x in s.db.execs)
          && !(l.Complete? && l.x == x && T.CanComplete(s.db, x)))
  {
    if l.Start? {
      StartExecutes(s, l.j, l.w, l.x, x);
    } else if l.Complete? || l.Fail? || l.Crash? {
      ReportsEnd(s, l, x);
    } else {
      OthersLeaveExecuting(s, l);
    }
  }

  lemma StartExecutes(s: Sys, j: JobId, w: WorkerId, y: ExecId, x: ExecId)
    ensures x in DoStart(s, j, w, y).executing <==>
            x in s.executing || (x == y && InHand(s.hands, j, w) > 0 && T.CanStart(s.db, j, y))
  {
  }

  lemma ReportsEnd(s: Sys, l: Label, x: ExecId)
    requires l.Complete? || l.Fail? || l.Crash?
    ensures x in Apply(s, l).executing <==>
            && x in s.executing && !(l.Crash? && l.x == x) && !(l.Fail? && l.x == x && x in s.db.execs)
            && !(l.Complete? && l.x == x && T.CanComplete(s.db, x))
  {
  }

  lemma OthersLeaveExecuting(s: Sys, l: Label)
    requires !l.Start? && !l.Complete? && !l.Fail? && !l.Crash?
    ensures Apply(s, l).executing == s.executing
  {
    if l.Recover? {
      RecoveryLeavesExecuting(s, l.j, l.top, RetryInstantFor(s.db, l.j, l.roll));
    }
  }

  lemma RecoveryLeavesExecuting(s: Sys, j: JobId, top: Option<ExecId>, retryAt: Option<Time>)
    ensures DoRecover(s, j, top, retryAt).executing == s.executing
  {
  }

  // ---- the tallies ----

  predicate WasParked(job: Job) {
    (job.status == Claimed || job.status == Running) && job.leaseExpiresAt.None?
  }

  predicate WasHeld(job: Job) {
    (job.status == Claimed || job.status == Running) && job.leaseExpiresAt.Some?
  }

  // An operator's write that goes ahead, whether it changes the row or not.
  predicate Operated(s: Sys, l: Label) {
    match l
    case CancelWrite(k) => k in s.cancelReads
    case RetryWrite(k) => k in s.retryReads
    case RetryDeadLetter(k) => k in s.db.dead && s.db.dead[k].retriedAt.None?
    case _ => false
  }

  // The tally of a job after a step that turned its row from `before` into `after`.
  function Recorded(l: Label, c: Tally, before: Job, after: Job): Tally {
    match l
    case Claim(_, w, _, _) => c.(claimants := c.claimants + [w])
    case Start(_, _, _) => c.(starts := c.starts + 1)
    case Promote(_, _) => c.(promotions := c.promotions + 1)
    case Complete(_) => c.(completions := c.completions + 1)
    case Fail(_, _, _) =>
      c.(failures := c.failures + 1, failuresAfterPark := c.failuresAfterPark + One(WasParked(before)))
    case Recover(_, _, _) =>
      c.(recoveries := c.recoveries + 1, expiredClaims := c.expiredClaims + One(before.status == Claimed))
    case CancelWrite(_) =>
      c.(cancels := c.cancels + 1, seizures := c.seizures + One(WasHeld(before)),
         lateCancels := c.lateCancels + One(before.status != Queued && before.status != Scheduled))
    case RetryWrite(_) => RecordedRetry(c, before)
    case RetryDeadLetter(_) => RecordedRetry(c, before)
    case _ => c
  }

  function RecordedRetry(c: Tally, before: Job): Tally {
    c.(retries := c.retries + 1, seizures := c.seizures + One(WasHeld(before)),
       forcedRetries := c.forcedRetries + One(before.status != Failed && !WasParked(before)))
  }

  // The step changed the row of the job, or was an operator's write to it.
  ghost predicate Touches(s: Sys, l: Label, t: Sys, j: JobId)
    requires j in s.db.jobs && j in t.db.jobs
  {
    if l.CancelWrite? || l.RetryWrite? || l.RetryDeadLetter? then l.j == j && Operated(s, l)
    else t.db.jobs[j] != s.db.jobs[j]
  }

  ghost predicate Counts(s: Sys, l: Label, t: Sys, j: JobId)
    requires j in s.db.jobs && j in t.db.jobs
  {
    var c := TallyOf(s.tally, j);
    TallyOf(t.tally, j) == if Touches(s, l, t, j) then Recorded(l, c, s.db.jobs[j], t.db.jobs[j]) else c
  }

  lemma ScheduledCounts(s: Sys, l: Label, j: JobId)
    requires j in s.db.jobs && j in s.tally && (l.Promote? || l.Claim? || l.Start?)
    ensures j in Apply(s, l).db.jobs && Counts(s, l, Apply(s, l), j)
  {
    match l
    case Promote(ids, at) => PromotionCounts(s, ids, at, j);
    case Claim(k, w, leaseMs, at) => ClaimCounts(s, k, w, leaseMs, at, j);
    case Start(k, w, x) => StartCounts(s, k, w, x, j);
  }

  lemma PromotionCounts(s: Sys, ids: seq<JobId>, at: Time, j: JobId)
    requires j in s.db.jobs && j in s.tally
    ensures Counts(s, Promote(ids, at), DoPromote(s, ids, at), j)
  {
    assert T.CanPromoteAll(s.db, ids, at) && j in ids ==> T.CanPromote(s.db, j, at);
  }

  lemma ClaimCounts(s: Sys, k: JobId, w: WorkerId, leaseMs: nat, at: Time, j: JobId)
    requires j in s.db.jobs && j in s.tally
    ensures Counts(s, Claim(k, w, leaseMs, at), DoClaim(s, k, w, leaseMs, at), j)
  {
  }

  lemma StartCounts(s: Sys, k: JobId, w: WorkerId, x: ExecId, j: JobId)
    requires j in s.db.jobs && j in s.tally
    ensures Counts(s, Start(k, w, x), DoStart(s, k, w, x), j)
  {
  }

  lemma CompletionCounts(s: Sys, x: ExecId, j: JobId)
    requires j in s.db.jobs && j in s.tally
    ensures Counts(s, Complete(x), DoComplete(s, x), j)
  {
  }

  lemma FailureCounts(s: Sys, x: ExecId, retryable: bool, roll: nat, retryAt: Option<Time>, j: JobId)
    requires j in s.db.jobs && j in s.tally
    ensures Counts(s, Fail(x, retryable, roll), DoFail(s, x, retryable, retryAt), j)
  {
    if x in s.db.execs && s.db.execs[x].jobId == j {
      OwnFailureCounts(s, x, retryable, roll, retryAt, j);
    } else {
      FailureElsewhere(s, x, retryable, retryAt, j);
    }
  }

  lemma OwnFailureCounts(s: Sys, x: ExecId, retryable: bool, roll: nat, retryAt: Option<Time>, j: JobId)
    requires j in s.db.jobs && j in s.tally && x in s.db.execs && s.db.execs[x].jobId == j
    ensures Counts(s, Fail(x, retryable, roll), DoFail(s, x, retryable, retryAt), j)
  {
  }

  lemma FailureElsewhere(s: Sys, x: ExecId, retryable: bool, retryAt: Option<Time>, j: JobId)
    requires j in s.db.jobs && !(x in s.db.execs && s.db.execs[x].jobId == j)
    ensures
      var t := DoFail(s, x, retryable, retryAt);
      t.db.jobs[j] == s.db.jobs[j] && TallyOf(t.tally, j) == TallyOf(s.tally, j)
  {
  }

  lemma RecoveryCounts(s: Sys, k: JobId, top: Option<ExecId>, roll: nat, retryAt: Option<Time>, j: JobId)
    requires j in s.db.jobs && j in s.tally
    ensures Counts(s, Recover(k, top, roll), DoRecover(s, k, top, retryAt), j)
  {
  }

  lemma ReportedCounts(s: Sys, l: Label, j: JobId)
    requires j in s.db.jobs && j in s.tally && (l.Complete? || l.Fail? || l.Recover?)
    ensures j in Apply(s, l).db.jobs && Counts(s, l, Apply(s, l), j)
  {
    match l
    case Complete(x) => CompletionCounts(s, x, j);
    case Fail(x, retryable, roll) =>
      if x in s.executing && x in s.db.execs {
        FailureCounts(s, x, retryable, roll, RetryInstantOf(s.db, x, roll), j);
      }
    case Recover(k, top, roll) => RecoveryCounts(s, k, top, roll, RetryInstantFor(s.db, k, roll), j);
  }

  // What the notes of the operators' writes amount to.
  lemma NotesAgree(c: Tally, job: Job, k: JobId)
    ensures NoteCancel(c, job) == Recorded(CancelWrite(k), c, job, job)
    ensures NoteRetry(c, job) == RecordedRetry(c, job)
  {
  }

  // Whether job j is the one that is written, and what its tally is then.
  ghost predicate Noted(s: Sys, t: Sys, j: JobId, own: bool, noted: Tally)
    requires j in s.db.jobs
  {
    && j in t.db.jobs && (own ==> TallyOf(t.tally, j) == noted)
    && (!own ==> t.db.jobs[j] == s.db.jobs[j] && TallyOf(t.tally, j) == TallyOf(s.tally, j))
  }

  lemma CancelNotes(s: Sys, k: JobId, j: JobId)
    requires j in s.db.jobs && j in s.tally
    ensures Noted(s, DoCancelWrite(s, k), j, k == j && j in s.cancelReads,
                  NoteCancel(TallyOf(s.tally, j), s.db.jobs[j]))
  {
  }

  lemma RetryNotes(s: Sys, k: JobId, j: JobId)
    requires j in s.db.jobs && j in s.tally
    ensures Noted(s, DoRetryWrite(s, k), j, k == j && j in s.retryReads, NoteRetry(TallyOf(s.tally, j), s.db.jobs[j]))
  {
  }

  lemma DeadLetterNotes(s: Sys, k: JobId, j: JobId)
    requires j in s.db.jobs && j in s.tally
    ensures Noted(s, DoRetryDeadLetter(s, k), j, k == j && j in s.db.dead && s.db.dead[j].retriedAt.None?,
                  NoteRetry(TallyOf(s.tally, j), s.db.jobs[j]))
  {
  }

  lemma NotedCounts(s: Sys, l: Label, t: Sys, j: JobId)
    requires j in s.db.jobs && (l.CancelWrite? || l.RetryWrite? || l.RetryDeadLetter?)
    requires Noted(s, t, j, l.j == j && Operated(s, l),
                   if l.CancelWrite? then NoteCancel(TallyOf(s.tally, j), s.db.jobs[j])
                   else NoteRetry(TallyOf(s.tally, j), s.db.jobs[j]))
    ensures Counts(s, l, t, j)
  {
    NotesAgree(TallyOf(s.tally, j), s.db.jobs[j], j);
  }

  lemma CancelCounts(s: Sys, k: JobId, j: JobId)
    requires j in s.db.jobs && j in s.tally
    ensures Counts(s, CancelWrite(k), DoCancelWrite(s, k), j)
  {
    CancelNotes(s, k, j);
    NotedCounts(s, CancelWrite(k), DoCancelWrite(s, k), j);
  }

  lemma RetryCounts(s: Sys, k: JobId, j: JobId)
    requires j in s.db.jobs && j in s.tally
    ensures Counts(s, RetryWrite(k), DoRetryWrite(s, k), j)
  {
    RetryNotes(s, k, j);
    NotedCounts(s, RetryWrite(k), DoRetryWrite(s, k), j);
  }

  lemma DeadLetterCounts(s: Sys, k: JobId, j: JobId)
    requires j in s.db.jobs && j in s.tally
    ensures Counts(s, RetryDeadLetter(k), DoRetryDeadLetter(s, k), j)
  {
    DeadLetterNotes(s, k, j);
    NotedCounts(s, RetryDeadLetter(k), DoRetryDeadLetter(s, k), j);
  }

  lemma OperatorCounts(s: Sys, l: Label, j: JobId)
    requires j in s.db.jobs && j in s.tally && (l.CancelWrite? || l.RetryWrite? || l.RetryDeadLetter?)
    ensures j in Apply(s, l).db.jobs && Counts(s, l, Apply(s, l), j)
  {
    match l
    case CancelWrite(k) => CancelCounts(s, k, j);
    case RetryWrite(k) => RetryCounts(s, k, j);
    case RetryDeadLetter(k) => DeadLetterCounts(s, k, j);
  }

  lemma OtherCounts(s: Sys, l: Label, j: JobId)
    requires j in s.db.jobs && j in s.tally
    requires !l.Promote? && !l.Claim? && !l.Start? && !l.Complete? && !l.Fail? && !l.Recover?
    requires !l.CancelWrite? && !l.RetryWrite? && !l.RetryDeadLetter?
    ensures j in Apply(s, l).db.jobs && Counts(s, l, Apply(s, l), j)
  {
  }

  // The tallies are no more and no less than a count of what the steps of a run did to the row: a step
  // that leaves it alone leaves its tally alone, and one that changes it is recorded once.
  lemma TalliesCount(ls: seq<Label>, l: Label, j: JobId)
    requires j in Run(INITIAL, ls).db.jobs
    ensures
      var s := Run(INITIAL, ls);
      j in Apply(s, l).db.jobs && Counts(s, l, Apply(s, l), j)
  {
    Reachable(ls);
    var s := Run(INITIAL, ls);
    if l.Promote? || l.Claim? || l.Start? {
      ScheduledCounts(s, l, j);
    } else if l.Complete? || l.Fail? || l.Recover? {
      ReportedCounts(s, l, j);
    } else if l.CancelWrite? || l.RetryWrite? || l.RetryDeadLetter? {
      OperatorCounts(s, l, j);
    } else {
      OtherCounts(s, l, j);
    }
  }
}
