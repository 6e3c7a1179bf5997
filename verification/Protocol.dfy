// The whole system as a state machine: every worker, scheduler, publisher and API caller takes
// steps on one store.  A step names everything the environment chooses; a step that is not enabled
// changes nothing, so every sequence of steps is a run.
module Protocol {
  import opened Wrappers
  import opened Tables
  import T = Transactions

  datatype Label =
    | Tick(elapsed: nat)
    | PutQueue(q: QueueId, row: Queue)
    | Create(j: JobId, input: T.NewJob)
    | Promote(ids: seq<JobId>, at: Time)
    | Claim(j: JobId, w: WorkerId, leaseMs: nat, at: Time)
    | Start(j: JobId, w: WorkerId, x: ExecId)
    | Drop(j: JobId, w: WorkerId)
    | Heartbeat(w: WorkerId, leaseMs: nat)
    | Complete(x: ExecId)
    | Fail(x: ExecId, retryable: bool, roll: nat)
    | Crash(x: ExecId)
    | Recover(j: JobId, top: Option<ExecId>, roll: nat)
    | CancelRead(j: JobId)
    | CancelWrite(j: JobId)
    | RetryRead(j: JobId)
    | RetryWrite(j: JobId)
    | RetryDeadLetter(j: JobId)

  // What has happened to one job so far.
  datatype Tally = Tally(
    claimants: seq<WorkerId>,   // the worker of every claim, oldest first
    starts: nat,
    promotions: nat,
    completions: nat,           // the job row became COMPLETED
    failures: nat,              // a failure changed the job row
    failuresAfterPark: nat,     // ... which recovery had already given up
    recoveries: nat,
    expiredClaims: nat,         // ... of a claim that never started
    retries: nat,               // operator retries, through either endpoint
    forcedRetries: nat,         // ... of a job that was neither FAILED nor parked
    cancels: nat,
    lateCancels: nat,           // ... of a job that was no longer cancellable
    seizures: nat)              // operator writes that took a held claim away

  const NOTHING := Tally([], 0, 0, 0, 0, 0, 0, 0, 0, 0, 0, 0, 0)

  // A claim that a process of worker w has been given and has not tried to start yet.
  datatype Hand = Hand(j: JobId, w: WorkerId)

  // `hands` counts the claims in hand: only the process that was given a claim starts the job, once,
  // and a claim is dropped unstarted when that process shuts down or crashes first;
  // `executing` holds the executions that a worker still carries out or has yet to report on: a crash
  // removes one without a trace in the tables, a refused completion is followed by a failure report;
  // `cancelReads` and `retryReads` the API calls between their check and their write; `peak` the
  // largest limit each queue has had.
  datatype Sys = Sys(
    db: Db,
    hands: map<Hand, nat>,
    executing: set<ExecId>,
    cancelReads: set<JobId>,
    retryReads: set<JobId>,
    peak: map<QueueId, nat>,
    tally: map<JobId, Tally>)

  const INITIAL := Sys(EMPTY_DB, map[], {}, {}, {}, map[], map[])

  function InHand(hands: map<Hand, nat>, j: JobId, w: WorkerId): nat {
    if Hand(j, w) in hands then hands[Hand(j, w)] else 0
  }

  function Given(hands: map<Hand, nat>, j: JobId, w: WorkerId): map<Hand, nat> {
    hands[Hand(j, w) := InHand(hands, j, w) + 1]
  }

  function Taken(hands: map<Hand, nat>, j: JobId, w: WorkerId): map<Hand, nat>
    requires InHand(hands, j, w) > 0
  {
    hands[Hand(j, w) := InHand(hands, j, w) - 1]
  }

  function TallyOf(tally: map<JobId, Tally>, j: JobId): Tally {
    if j in tally then tally[j] else NOTHING
  }

  function NoteFailure(t: Tally, job: Job): Tally {
    t.(failures := t.failures + 1, failuresAfterPark := t.failuresAfterPark + One(Parked(job)))
  }

  function NoteRecovery(t: Tally, job: Job): Tally {
    t.(recoveries := t.recoveries + 1, expiredClaims := t.expiredClaims + One(job.status.Claimed?))
  }

  function NoteCancel(t: Tally, job: Job): Tally {
    t.(cancels := t.cancels + 1, lateCancels := t.lateCancels + One(!T.Cancellable(job)),
       seizures := t.seizures + One(Held(job)))
  }

  function NoteRetry(t: Tally, job: Job): Tally {
    t.(retries := t.retries + 1, forcedRetries := t.forcedRetries + One(!job.status.Failed? && !Parked(job)),
       seizures := t.seizures + One(Held(job)))
  }

  function PeakAfter(peak: map<QueueId, nat>, q: QueueId, limit: nat): map<QueueId, nat> {
    peak[q := if q in peak then Max(peak[q], limit) else limit]
  }

  // What no transaction on jobs changes: which jobs exist and in which queue, the queues, the
  // clock and the reads in progress.  Dead-letter rows are never removed.
  ghost predicate Framed(s: Sys, t: Sys) {
    && t.db.jobs.Keys == s.db.jobs.Keys && t.db.queues == s.db.queues && t.db.now == s.db.now
    && t.cancelReads == s.cancelReads && t.retryReads == s.retryReads && t.peak == s.peak
    && s.db.dead.Keys <= t.db.dead.Keys <= s.db.dead.Keys + s.db.jobs.Keys
    && s.tally.Keys <= t.tally.Keys <= s.tally.Keys + s.db.jobs.Keys
    && (forall j :: j in s.db.jobs ==> t.db.jobs[j].queueId == s.db.jobs[j].queueId)
  }

  // The job rows that only a failure or a recovery produces.
  predicate Settled(job: Job) {
    job.status.Retrying? || job.status.Failed? || Parked(job)
  }

  // ... and what the transactions that touch no execution leave alone besides.
  ghost predicate SameProgress(s: Sys, t: Sys) {
    && t.db.execs == s.db.execs && t.executing == s.executing
    && (forall j :: j in s.db.jobs && j in t.db.jobs ==>
          && t.db.jobs[j].attemptCount == s.db.jobs[j].attemptCount
          && (t.db.jobs[j] == s.db.jobs[j] || !(t.db.jobs[j].status.Completed? || Settled(t.db.jobs[j])))
          && TallyOf(t.tally, j).failuresAfterPark == TallyOf(s.tally, j).failuresAfterPark)
  }

  // ... and, outside claiming, who has claimed what.
  ghost predicate Unclaimed(s: Sys, t: Sys) {
    forall j :: TallyOf(t.tally, j).claimants == TallyOf(s.tally, j).claimants
  }

  // ... and, outside creation and promotion, the outbox.
  ghost predicate Silent(s: Sys, t: Sys) {
    && t.db.ready == s.db.ready
    && (forall j :: TallyOf(t.tally, j).promotions == TallyOf(s.tally, j).promotions)
  }

  function DoPromote(s: Sys, ids: seq<JobId>, at: Time): (t: Sys)
    ensures Framed(s, t) && Unclaimed(s, t) && SameProgress(s, t)
  {
    if T.CanPromoteAll(s.db, ids, at)
    then s.(db := T.Promote(s.db, ids, at),
            tally := map j | j in s.tally ::
              if j in ids then s.tally[j].(promotions := s.tally[j].promotions + 1) else s.tally[j])
    else s
  }

  function DoClaim(s: Sys, j: JobId, w: WorkerId, leaseMs: nat, at: Time): (t: Sys)
    ensures Framed(s, t) && Silent(s, t) && SameProgress(s, t)
  {
    if T.CanClaim(s.db, j, at)
    then
         var c := TallyOf(s.tally, j);
         s.(db := T.Claim(s.db, j, w, leaseMs, at), hands := Given(s.hands, j, w),
            tally := s.tally[j := c.(claimants := c.claimants + [w])])
    else s
  }

  function DoStart(s: Sys, j: JobId, w: WorkerId, x: ExecId): (t: Sys)
    ensures Framed(s, t) && Unclaimed(s, t) && Silent(s, t)
  {
    if InHand(s.hands, j, w) == 0 then s
    else if T.CanStart(s.db, j, x)
    then
         var c := TallyOf(s.tally, j);
         s.(db := T.Start(s.db, j, w, x), hands := Taken(s.hands, j, w), executing := s.executing + {x},
            tally := s.tally[j := c.(starts := c.starts + 1)])
    else s.(hands := Taken(s.hands, j, w))
  }

  function DoComplete(s: Sys, x: ExecId): (t: Sys)
    ensures Framed(s, t) && Unclaimed(s, t) && Silent(s, t)
  {
    if x in s.executing && T.CanComplete(s.db, x) then
      var u := s.(db := T.Complete(s.db, x), executing := s.executing - {x});
      if T.OwnsRunning(s.db, x) then
        var j := s.db.execs[x].jobId;
        var c := TallyOf(s.tally, j);
        u.(tally := s.tally[j := c.(completions := c.completions + 1)])
      else u
    else s
  }

  function DoFail(s: Sys, x: ExecId, retryable: bool, retryAt: Option<Time>): (t: Sys)
    ensures Framed(s, t) && Unclaimed(s, t) && Silent(s, t)
  {
    var u := s.(db := T.Fail(s.db, x, retryable, retryAt), executing := s.executing - {x});
    if T.FailureCommits(s.db, x, retryable, retryAt) && T.FailureReachesJob(s.db, x, retryable) then
      var j := s.db.execs[x].jobId;
      u.(tally := s.tally[j := NoteFailure(TallyOf(s.tally, j), s.db.jobs[j])])
    else u
  }

  function DoRecover(s: Sys, j: JobId, top: Option<ExecId>, retryAt: Option<Time>): (t: Sys)
    ensures Framed(s, t) && Unclaimed(s, t) && Silent(s, t)
  {
    if T.RecoveryCommits(s.db, j, top, retryAt)
    then s.(db := T.Recover(s.db, j, top, retryAt),
            tally := s.tally[j := NoteRecovery(TallyOf(s.tally, j), s.db.jobs[j])])
    else s
  }

  function DoCancelWrite(s: Sys, j: JobId): (t: Sys)
    ensures Framed(s, t) && Unclaimed(s, t) && Silent(s, t) && SameProgress(s, t)
  {
    if j in s.cancelReads && j in s.db.jobs
    then s.(db := T.CancelWrite(s.db, j), tally := s.tally[j := NoteCancel(TallyOf(s.tally, j), s.db.jobs[j])])
    else s
  }

  function DoRetryWrite(s: Sys, j: JobId): (t: Sys)
    ensures Framed(s, t) && Unclaimed(s, t) && Silent(s, t) && SameProgress(s, t)
  {
    if j in s.retryReads && j in s.db.jobs
    then s.(db := T.RetryWrite(s.db, j), tally := s.tally[j := NoteRetry(TallyOf(s.tally, j), s.db.jobs[j])])
    else s
  }

  function DoRetryDeadLetter(s: Sys, j: JobId): (t: Sys)
    ensures Framed(s, t) && Unclaimed(s, t) && Silent(s, t) && SameProgress(s, t)
  {
    if T.CanRetryDeadLetter(s.db, j)
    then s.(db := T.RetryDeadLetter(s.db, j), tally := s.tally[j := NoteRetry(TallyOf(s.tally, j), s.db.jobs[j])])
    else s
  }

  function DoTick(s: Sys, elapsed: nat): Sys {
    s.(db := s.db.(now := s.db.now + elapsed))
  }

  function DoPutQueue(s: Sys, q: QueueId, row: Queue): Sys {
    if row.concurrencyLimit > 0 && (q in s.db.queues && s.db.queues[q].archived ==> row.archived)
    then s.(db := s.db.(queues := s.db.queues[q := row]), peak := PeakAfter(s.peak, q, row.concurrencyLimit))
    else s
  }

  function DoCreate(s: Sys, j: JobId, input: T.NewJob): Sys {
    if T.CanCreate(s.db, j, input) then s.(db := T.Create(s.db, j, input), tally := s.tally[j := NOTHING]) else s
  }

  function DoHeartbeat(s: Sys, w: WorkerId, leaseMs: nat): Sys {
    s.(db := T.Heartbeat(s.db, w, leaseMs))
  }

  function DoDrop(s: Sys, j: JobId, w: WorkerId): Sys {
    if InHand(s.hands, j, w) == 0 then s else s.(hands := Taken(s.hands, j, w))
  }

  function DoCrash(s: Sys, x: ExecId): Sys {
    s.(executing := s.executing - {x})
  }

  function DoCancelRead(s: Sys, j: JobId): Sys {
    if j in s.db.jobs && T.Cancellable(s.db.jobs[j]) then s.(cancelReads := s.cancelReads + {j}) else s
  }

  function DoRetryRead(s: Sys, j: JobId): Sys {
    if T.OperatorRetryable(s.db, j) then s.(retryReads := s.retryReads + {j}) else s
  }

  function RetryInstantFor(db: Db, j: JobId, roll: nat): Option<Time> {
    if j in db.jobs then RetryInstant(db.jobs[j], db.now, roll) else None
  }

  function RetryInstantOf(db: Db, x: ExecId, roll: nat): Option<Time> {
    if x in db.execs then RetryInstantFor(db, db.execs[x].jobId, roll) else None
  }

  function Apply(s: Sys, l: Label): Sys {
    match l
    case Tick(elapsed) => DoTick(s, elapsed)
    case PutQueue(q, row) => DoPutQueue(s, q, row)
    case Create(j, input) => DoCreate(s, j, input)
    case Promote(ids, at) => DoPromote(s, ids, at)
    case Claim(j, w, leaseMs, at) => DoClaim(s, j, w, leaseMs, at)
    case Start(j, w, x) => DoStart(s, j, w, x)
    case Heartbeat(w, leaseMs) => DoHeartbeat(s, w, leaseMs)
    case Complete(x) => DoComplete(s, x)
    case Fail(x, retryable, roll) =>
      if x in s.executing && x in s.db.execs then DoFail(s, x, retryable, RetryInstantOf(s.db, x, roll)) else s
    case Drop(j, w) => DoDrop(s, j, w)
    case Crash(x) => DoCrash(s, x)
    case Recover(j, top, roll) => DoRecover(s, j, top, RetryInstantFor(s.db, j, roll))
    case CancelRead(j) => DoCancelRead(s, j)
    case CancelWrite(j) => DoCancelWrite(s, j)
    case RetryRead(j) => DoRetryRead(s, j)
    case RetryWrite(j) => DoRetryWrite(s, j)
    case RetryDeadLetter(j) => DoRetryDeadLetter(s, j)
  }

  function Run(s: Sys, ls: seq<Label>): Sys {
    if ls == [] then s else Apply(Run(s, ls[..|ls| - 1]), ls[|ls| - 1])
  }

  lemma RunSnoc(s: Sys, ls: seq<Label>, l: Label)
    ensures Run(s, ls + [l]) == Apply(Run(s, ls), l)
  {
    assert (ls + [l])[..|ls|] == ls;
  }

  lemma ClaimApplies(s: Sys, j: JobId, w: WorkerId, leaseMs: nat, at: Time)
    ensures Apply(s, Claim(j, w, leaseMs, at)) == DoClaim(s, j, w, leaseMs, at)
  {
  }
}
