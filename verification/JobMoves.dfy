// The life of one job.  Seen from a single job, every step of the whole system is one of a dozen
// moves of its row; the properties of whole runs are proved about these moves.
module JobMoves {
  import opened Wrappers
  import opened RetryStrategy
  import opened Tables
  import opened Protocol
  import T = Transactions

  datatype Move =
    | Stay
    | Beat(lease: Time)
    | BePromoted
    | BeClaimed(w: WorkerId, leaseMs: nat, at: Time)
    | BeStarted
    | BeCompleted
    | FailAndRetry(retryAt: Time)
    | FailForGood
    | ExpireAndRetry(retryAt: Time)
    | ExpireAndPark
    | BeCancelled
    | BeRequeued

  predicate Enabled(job: Job, buried: bool, now: Time, m: Move) {
    match m
    case Stay => true
    case Beat(_) => job.status.Running? && job.workerId.Some?
    case BePromoted =>
      (job.status.Scheduled? || job.status.Retrying?) && job.scheduledAt.Some? && job.scheduledAt.value <= now
    case BeClaimed(_, _, at) => job.status.Queued? && at <= now && IsDue(job, at)
    case BeStarted => job.status.Claimed? && job.attemptCount < job.maxAttempts
    case BeCompleted => job.status.Running? && job.workerId.Some?
    case FailAndRetry(retryAt) =>
      job.status.Running? && job.workerId.Some? && job.attemptCount < job.maxAttempts && now <= retryAt
    case FailForGood => job.status.Running?
    case ExpireAndRetry(retryAt) => Held(job) && job.attemptCount < job.maxAttempts && now <= retryAt
    case ExpireAndPark => Held(job) && job.attemptCount >= job.maxAttempts
    case BeCancelled => true
    case BeRequeued => buried
  }

  function After(job: Job, now: Time, m: Move): Job {
    match m
    case Stay => job
    case Beat(lease) => job.(leaseExpiresAt := Some(lease))
    case BePromoted => job.(status := Queued)
    case BeClaimed(w, leaseMs, at) => T.ClaimedJob(job, w, leaseMs, at)
    case BeStarted => job.(status := Running, attemptCount := job.attemptCount + 1)
    case BeCompleted => job.(status := Completed, leaseExpiresAt := None)
    case FailAndRetry(retryAt) => T.Rescheduled(job, retryAt)
    case FailForGood => job.(status := Failed, leaseExpiresAt := None)
    case ExpireAndRetry(retryAt) => T.Rescheduled(job, retryAt)
    case ExpireAndPark => job.(workerId := None, leaseExpiresAt := None)
    case BeCancelled => job.(status := Cancelled)
    case BeRequeued => T.Requeued(job)
  }

  predicate Buries(m: Move) {
    m.FailForGood? || m.ExpireAndPark?
  }

  function Noted(t: Tally, job: Job, m: Move): Tally {
    match m
    case Stay => t
    case Beat(_) => t
    case BePromoted => t.(promotions := t.promotions + 1)
    case BeClaimed(w, _, _) => t.(claimants := t.claimants + [w])
    case BeStarted => t.(starts := t.starts + 1)
    case BeCompleted => t.(completions := t.completions + 1)
    case FailAndRetry(_) => NoteFailure(t, job)
    case FailForGood => NoteFailure(t, job)
    case ExpireAndRetry(_) => NoteRecovery(t, job)
    case ExpireAndPark => NoteRecovery(t, job)
    case BeCancelled => NoteCancel(t, job)
    case BeRequeued => NoteRetry(t, job)
  }

  // The step from s to t is move m of job j.
  ghost predicate Moves(s: Sys, t: Sys, j: JobId, m: Move)
    requires j in s.db.jobs
  {
    var job := s.db.jobs[j];
    && j in t.db.jobs && t.db.jobs[j] == After(job, s.db.now, m)
    && Enabled(job, j in s.db.dead, s.db.now, m)
    && (j in t.db.dead <==> j in s.db.dead || Buries(m))
    && j in t.tally && t.tally[j] == Noted(TallyOf(s.tally, j), job, m)
  }

  lemma RetryIsNotEarlier(db: Db, j: JobId, roll: nat)
    ensures RetryInstantFor(db, j, roll).Some? ==> db.now <= RetryInstantFor(db, j, roll).value
  {
    if j in db.jobs {
      DelayIsANumber(PolicyOf(db.jobs[j].retry), db.jobs[j].attemptCount, Draw(PolicyOf(db.jobs[j].retry), roll));
    }
  }

  // The row, its dead letter and its tally are as they were.
  lemma Stays(s: Sys, t: Sys, j: JobId)
    requires j in s.db.jobs && j in t.db.jobs && t.db.jobs[j] == s.db.jobs[j] && (j in t.db.dead <==> j in s.db.dead)
    requires j in s.tally && j in t.tally && t.tally[j] == s.tally[j]
    ensures Moves(s, t, j, Stay)
  {
  }

  lemma PromoteMoves(s: Sys, ids: seq<JobId>, at: Time, j: JobId) returns (m: Move)
    requires j in s.db.jobs && j in s.tally
    ensures Moves(s, DoPromote(s, ids, at), j, m)
  {
    if T.CanPromoteAll(s.db, ids, at) && j in ids {
      m := BePromoted;
      assert T.CanPromote(s.db, j, at);
    } else {
      m := Stay;
      Stays(s, DoPromote(s, ids, at), j);
    }
  }

  lemma ClaimMoves(s: Sys, k: JobId, w: WorkerId, leaseMs: nat, at: Time, j: JobId) returns (m: Move)
    requires j in s.db.jobs && j in s.tally
    ensures Moves(s, DoClaim(s, k, w, leaseMs, at), j, m)
  {
    m := if k == j && T.CanClaim(s.db, j, at) then BeClaimed(w, leaseMs, at) else Stay;
  }

  lemma StartMoves(s: Sys, k: JobId, w: WorkerId, x: ExecId, j: JobId) returns (m: Move)
    requires j in s.db.jobs && j in s.tally
    ensures Moves(s, DoStart(s, k, w, x), j, m)
  {
    m := if k == j && InHand(s.hands, j, w) > 0 && T.CanStart(s.db, j, x) then BeStarted else Stay;
  }

  lemma CompleteMoves(s: Sys, x: ExecId, j: JobId) returns (m: Move)
    requires j in s.db.jobs && j in s.tally
    ensures Moves(s, DoComplete(s, x), j, m)
  {
    m := if x in s.executing && T.CanComplete(s.db, x) && s.db.execs[x].jobId == j && T.OwnsRunning(s.db, x)
         then BeCompleted else Stay;
  }

  function FailMove(db: Db, x: ExecId, retryable: bool, retryAt: Option<Time>, j: JobId): Move
    requires j in db.jobs && x in db.execs
  {
    if !T.FailureCommits(db, x, retryable, retryAt) || db.execs[x].jobId != j || !T.FailureReachesJob(db, x, retryable)
    then Stay
    else if T.WantsRetry(db.jobs[j], retryable) then FailAndRetry(retryAt.value)
    else FailForGood
  }

  lemma FailMovesRow(db: Db, x: ExecId, retryable: bool, retryAt: Option<Time>, j: JobId)
    requires j in db.jobs && x in db.execs && (retryAt.Some? ==> db.now <= retryAt.value)
    ensures
      var m, after := FailMove(db, x, retryable, retryAt, j), T.Fail(db, x, retryable, retryAt);
      && Enabled(db.jobs[j], j in db.dead, db.now, m)
      && j in after.jobs && after.jobs[j] == After(db.jobs[j], db.now, m)
      && (j in after.dead <==> j in db.dead || Buries(m))
  {
  }

  lemma FailNotes(s: Sys, x: ExecId, retryable: bool, retryAt: Option<Time>, j: JobId)
    requires j in s.db.jobs && j in s.tally && x in s.db.execs
    ensures
      var t, m := DoFail(s, x, retryable, retryAt), FailMove(s.db, x, retryable, retryAt, j);
      && t.db == T.Fail(s.db, x, retryable, retryAt)
      && j in t.tally && t.tally[j] == Noted(TallyOf(s.tally, j), s.db.jobs[j], m)
  {
  }

  lemma FailMoves(s: Sys, x: ExecId, retryable: bool, retryAt: Option<Time>, j: JobId) returns (m: Move)
    requires j in s.db.jobs && j in s.tally && x in s.db.execs
    requires retryAt.Some? ==> s.db.now <= retryAt.value
    ensures Moves(s, DoFail(s, x, retryable, retryAt), j, m)
  {
    m := FailMove(s.db, x, retryable, retryAt, j);
    FailMovesRow(s.db, x, retryable, retryAt, j);
    FailNotes(s, x, retryable, retryAt, j);
  }

  function RecoverMove(db: Db, k: JobId, top: Option<ExecId>, retryAt: Option<Time>, j: JobId): Move
    requires j in db.jobs
  {
    if k != j || !T.RecoveryCommits(db, j, top, retryAt) then Stay
    else if db.jobs[j].attemptCount < db.jobs[j].maxAttempts then ExpireAndRetry(retryAt.value)
    else ExpireAndPark
  }

  lemma RecoverMovesRow(db: Db, k: JobId, top: Option<ExecId>, retryAt: Option<Time>, j: JobId)
    requires j in db.jobs && (retryAt.Some? ==> db.now <= retryAt.value)
    ensures
      var m, after := RecoverMove(db, k, top, retryAt, j), T.Recover(db, k, top, retryAt);
      && Enabled(db.jobs[j], j in db.dead, db.now, m)
      && j in after.jobs && after.jobs[j] == After(db.jobs[j], db.now, m)
      && (j in after.dead <==> j in db.dead || Buries(m))
  {
  }

  lemma RecoverMoves(s: Sys, k: JobId, top: Option<ExecId>, retryAt: Option<Time>, j: JobId) returns (m: Move)
    requires j in s.db.jobs && j in s.tally
    requires retryAt.Some? ==> s.db.now <= retryAt.value
    ensures Moves(s, DoRecover(s, k, top, retryAt), j, m)
  {
    m := RecoverMove(s.db, k, top, retryAt, j);
    RecoverMovesRow(s.db, k, top, retryAt, j);
  }

  lemma CancelMoves(s: Sys, k: JobId, j: JobId) returns (m: Move)
    requires j in s.db.jobs && j in s.tally
    ensures Moves(s, DoCancelWrite(s, k), j, m)
  {
    if k == j && j in s.cancelReads {
      m := BeCancelled;
    } else {
      m := Stay;
      Stays(s, DoCancelWrite(s, k), j);
    }
  }

  lemma RetryMoves(s: Sys, k: JobId, j: JobId) returns (m: Move)
    requires j in s.db.jobs && j in s.tally && s.retryReads <= s.db.dead.Keys
    ensures Moves(s, DoRetryWrite(s, k), j, m)
  {
    m := if k == j && j in s.retryReads then BeRequeued else Stay;
  }

  lemma RetryDeadLetterMoves(s: Sys, k: JobId, j: JobId) returns (m: Move)
    requires j in s.db.jobs && j in s.tally
    ensures Moves(s, DoRetryDeadLetter(s, k), j, m)
  {
    m := if k == j && T.CanRetryDeadLetter(s.db, j) then BeRequeued else Stay;
  }
}
