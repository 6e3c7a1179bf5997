// The batches of apps/scheduler/src/scheduling/delayed-job-scheduler.ts, and how long a due job waits for
// its turn: only jobs that were due before it can be promoted before it.
module PromotionQueue {
  import opened Wrappers
  import opened Tables
  import opened Protocol
  import opened JobMoves
  import opened Lifecycle
  import opened Capacity
  import opened History
  import opened Pages
  import T = Transactions

  // The rows the candidate query of promoteDueJobs looks at: due, in a live queue, not locked elsewhere.
  function DueRows(db: Db, at: Time, queue: Option<QueueId>, locked: set<JobId>): set<JobId> {
    set j | j in db.jobs && j !in locked && T.CanPromote(db, j, at)
            && (queue.None? || queue.value == db.jobs[j].queueId)
  }

  predicate DueBefore(db: Db, j: JobId, k: JobId) {
    && j in db.jobs && k in db.jobs && db.jobs[j].scheduledAt.Some? && db.jobs[k].scheduledAt.Some?
    && (db.jobs[j].scheduledAt.value < db.jobs[k].scheduledAt.value
        || (db.jobs[j].scheduledAt.value == db.jobs[k].scheduledAt.value && j < k))
  }

  // What that query selects: the earliest rows, at most `limit`, and no earlier one left out.
  ghost predicate IsDuePage(db: Db, at: Time, limit: nat, queue: Option<QueueId>, locked: set<JobId>, ids: seq<JobId>) {
    var rows := DueRows(db, at, queue, locked);
    && |ids| <= limit && T.Distinct(ids)
    && (forall j :: j in ids ==> j in rows)
    && (forall a, b :: 0 <= a < b < |ids| ==> DueBefore(db, ids[a], ids[b]))
    && (forall j :: j in rows && j !in ids ==>
          |ids| == limit && forall a :: 0 <= a < |ids| ==> DueBefore(db, ids[a], j))
  }

  lemma PageIsDuePage(db: Db, at: Time, limit: nat, queue: Option<QueueId>, locked: set<JobId>, key: nat -> int,
                      ids: seq<JobId>)
    requires forall j :: j in db.jobs && db.jobs[j].scheduledAt.Some? ==> key(j) == db.jobs[j].scheduledAt.value
    requires IsPage(DueRows(db, at, queue, locked), key, limit, ids)
    ensures IsDuePage(db, at, limit, queue, locked, ids) && forall j :: j in ids ==> T.CanPromote(db, j, at)
  {
    var rows := DueRows(db, at, queue, locked);
    assert forall a, b :: a in rows && b in rows && InOrder(key, a, b) ==> DueBefore(db, a, b);
  }

  // ---- what a call promotes ----

  // The candidates in the columns of the row and of its queue.
  lemma CandidateExactly(db: Db, at: Time, queue: Option<QueueId>, locked: set<JobId>, j: JobId)
    ensures
      j in DueRows(db, at, queue, locked) <==>
      && j in db.jobs && (db.jobs[j].status == Scheduled || db.jobs[j].status == Retrying)
      && db.jobs[j].scheduledAt.Some? && db.jobs[j].scheduledAt.value <= at
      && db.jobs[j].queueId in db.queues && !db.queues[db.jobs[j].queueId].archived
      && j !in locked && (queue.None? || queue == Some(db.jobs[j].queueId))
  {
  }

  // A page lists candidates only, at most `limit`, earliest first, and leaves one out only when it is full
  // of earlier ones.
  lemma PageExactly(db: Db, at: Time, limit: nat, queue: Option<QueueId>, locked: set<JobId>, ids: seq<JobId>)
    requires IsDuePage(db, at, limit, queue, locked, ids)
    ensures |ids| <= limit
    ensures forall j :: j in ids ==>
      && j in db.jobs && (db.jobs[j].status == Scheduled || db.jobs[j].status == Retrying)
      && db.jobs[j].scheduledAt.Some? && db.jobs[j].scheduledAt.value <= at && j !in locked
      && db.jobs[j].queueId in db.queues && !db.queues[db.jobs[j].queueId].archived
    ensures forall j, k :: j in ids && k !in ids && k in db.jobs
                           && (db.jobs[k].status == Scheduled || db.jobs[k].status == Retrying) ==>
      || db.jobs[k].scheduledAt.None? || at < db.jobs[k].scheduledAt.value || k in locked
      || db.jobs[k].queueId !in db.queues || db.queues[db.jobs[k].queueId].archived
      || (queue.Some? && queue.value != db.jobs[k].queueId)
      || (|ids| == limit
          && (db.jobs[j].scheduledAt.value < db.jobs[k].scheduledAt.value
              || (db.jobs[j].scheduledAt.value == db.jobs[k].scheduledAt.value && j < k)))
    ensures forall k :: k in db.jobs && (db.jobs[k].status == Scheduled || db.jobs[k].status == Retrying) ==>
      || k in ids || |ids| == limit
      || db.jobs[k].scheduledAt.None? || at < db.jobs[k].scheduledAt.value || k in locked
      || db.jobs[k].queueId !in db.queues || db.queues[db.jobs[k].queueId].archived
      || (queue.Some? && queue.value != db.jobs[k].queueId)
  {
    forall j, k | j in ids && k in DueRows(db, at, queue, locked) && k !in ids
      ensures DueBefore(db, j, k)
    {
    }
  }

  // A page with room to spare is all of them: every job that waits for an instant that has come is
  // queued, delayed ones and retries alike.
  lemma RoomPromotesAll(db: Db, at: Time, batchSize: nat, ids: seq<JobId>, j: JobId)
    requires at <= db.now && IsDuePage(db, at, batchSize, None, {}, ids) && |ids| < batchSize
    requires j in db.jobs && (db.jobs[j].status == Scheduled || db.jobs[j].status == Retrying)
    requires db.jobs[j].scheduledAt.Some? && db.jobs[j].scheduledAt.value <= at
    requires db.jobs[j].queueId in db.queues && !db.queues[db.jobs[j].queueId].archived
    ensures T.Promote(db, ids, at).jobs[j] == db.jobs[j].(status := Queued) && j in T.Promote(db, ids, at).ready
  {
    CandidateExactly(db, at, None, {}, j);
  }

  // ---- who is promoted before a job ----

  // The job is scheduled or retrying, and its queue is live.
  predicate Pending(db: Db, j: JobId) {
    && j in db.jobs && (db.jobs[j].status.Scheduled? || db.jobs[j].status.Retrying?)
    && db.jobs[j].scheduledAt.Some? && db.jobs[j].queueId in db.queues && !db.queues[db.jobs[j].queueId].archived
  }

  // The job waits to be promoted, for the instant `due`.
  predicate Waits(db: Db, j: JobId, due: Time) {
    Pending(db, j) && db.jobs[j].scheduledAt == Some(due)
  }

  // The waiting jobs that come before it.
  function Before(db: Db, j: JobId, due: Time): set<JobId> {
    set k | k in db.jobs && Pending(db, k)
            && (db.jobs[k].scheduledAt.value < due || (db.jobs[k].scheduledAt.value == due && k < j))
  }

  // A move ends in a waiting row whose instant is past only if it starts there.
  lemma WaitedAlready(job: Job, buried: bool, now: Time, m: Move)
    requires Enabled(job, buried, now, m)
    requires
      var after := After(job, now, m);
      (after.status.Scheduled? || after.status.Retrying?) && after.scheduledAt.Some? && after.scheduledAt.value < now
    ensures (job.status.Scheduled? || job.status.Retrying?) && job.scheduledAt == After(job, now, m).scheduledAt
    ensures job.queueId == After(job, now, m).queueId
  {
  }

  lemma RowWaitedBefore(s: Sys, t: Sys, newcomer: Option<ExecId>, k: JobId, due: Time)
    requires Step(s, t, newcomer) && due < s.db.now && Pending(t.db, k) && t.db.jobs[k].scheduledAt.value <= due
    ensures k in s.db.jobs
    ensures
      var job := s.db.jobs[k];
      && (job.status.Scheduled? || job.status.Retrying?) && job.scheduledAt == t.db.jobs[k].scheduledAt
      && job.queueId == t.db.jobs[k].queueId
  {
    assert k !in s.db.jobs ==> Born(s, t, k);
    assert HasMove(s, t, k);
    var m :| Moves(s, t, k, m);
    WaitedAlready(s.db.jobs[k], k in s.db.dead, s.db.now, m);
  }

  lemma WaitedBefore(s: Sys, l: Label, k: JobId, due: Time)
    requires Inv(s) && due < s.db.now && Pending(Apply(s, l).db, k)
    requires Apply(s, l).db.jobs[k].scheduledAt.value <= due
    ensures Pending(s.db, k) && s.db.jobs[k].scheduledAt == Apply(s, l).db.jobs[k].scheduledAt
  {
    var newcomer := EveryLabelSteps(s, l);
    RowWaitedBefore(s, Apply(s, l), newcomer, k, due);
    if s.db.queues[s.db.jobs[k].queueId].archived {
      ArchivedStays(s, l, s.db.jobs[k].queueId);
    }
  }

  // Nobody overtakes a job whose instant is past.
  lemma NobodyOvertakes(s: Sys, l: Label, j: JobId, due: Time)
    requires Inv(s) && due < s.db.now
    ensures Before(Apply(s, l).db, j, due) <= Before(s.db, j, due)
  {
    forall k | k in Before(Apply(s, l).db, j, due)
      ensures k in Before(s.db, j, due)
    {
      WaitedBefore(s, l, k, due);
    }
  }

  // A call of promoteDueJobs for all queues, made after the job was due, that finds no row locked.
  ghost predicate FullCall(s: Sys, l: Label, due: Time, batchSize: nat) {
    l.Promote? && due <= l.at <= s.db.now && IsDuePage(s.db, l.at, batchSize, None, {}, l.ids)
  }

  ghost function FullCalls(s: Sys, ls: seq<Label>, due: Time, batchSize: nat): nat {
    if ls == [] then 0
    else
      var front, l := ls[..|ls| - 1], ls[|ls| - 1];
      FullCalls(s, front, due, batchSize) + One(FullCall(Run(s, front), l, due, batchSize))
  }

  lemma PromotedRows(s: Sys, ids: seq<JobId>, at: Time, k: JobId)
    requires T.CanPromoteAll(s.db, ids, at) && k in ids
    ensures
      var t := Apply(s, Promote(ids, at)).db;
      k in t.jobs && t.jobs[k].status.Queued?
  {
  }

  // A page that leaves out a waiting job is full of jobs that come before it.
  lemma PageIsBefore(db: Db, at: Time, batchSize: nat, ids: seq<JobId>, j: JobId, due: Time)
    requires IsDuePage(db, at, batchSize, None, {}, ids) && Waits(db, j, due) && due <= at && j !in ids
    ensures |ids| == batchSize && forall k :: k in ids ==> k in Before(db, j, due)
  {
    assert j in DueRows(db, at, None, {});
    forall k | k in ids
      ensures k in Before(db, j, due)
    {
      var i :| 0 <= i < |ids| && ids[i] == k;
      assert DueBefore(db, k, j);
    }
  }

  lemma PromotedAreGone(s: Sys, ids: seq<JobId>, at: Time)
    requires T.CanPromoteAll(s.db, ids, at)
    ensures forall k :: k in ids ==> !Pending(Apply(s, Promote(ids, at)).db, k)
  {
    forall k | k in ids
      ensures !Pending(Apply(s, Promote(ids, at)).db, k)
    {
      PromotedRows(s, ids, at, k);
    }
  }

  lemma Fewer(before: set<JobId>, after: set<JobId>, batch: seq<JobId>)
    requires after <= before && T.Distinct(batch) && forall k :: k in batch ==> k in before && k !in after
    ensures |after| + |batch| <= |before|
  {
    ElementsOf(batch);
    SubsetSize(after + Elements(batch), before);
    assert after !! Elements(batch);
  }

  // A call that leaves the job waiting has promoted a full batch of those before it.
  lemma BatchComesFirst(s: Sys, ids: seq<JobId>, at: Time, j: JobId, due: Time, batchSize: nat)
    requires Inv(s) && due < s.db.now && FullCall(s, Promote(ids, at), due, batchSize)
    requires Waits(Apply(s, Promote(ids, at)).db, j, due) && Waits(s.db, j, due)
    ensures |Before(Apply(s, Promote(ids, at)).db, j, due)| + batchSize <= |Before(s.db, j, due)|
  {
    assert T.CanPromoteAll(s.db, ids, at);
    PromotedAreGone(s, ids, at);
    PageIsBefore(s.db, at, batchSize, ids, j, due);
    NobodyOvertakes(s, Promote(ids, at), j, due);
    Fewer(Before(s.db, j, due), Before(Apply(s, Promote(ids, at)).db, j, due), ids);
  }

  lemma OneStep(s: Sys, l: Label, j: JobId, due: Time, batchSize: nat)
    requires Inv(s) && due < s.db.now && Waits(Apply(s, l).db, j, due)
    ensures Waits(s.db, j, due)
    ensures
      var promoted := if FullCall(s, l, due, batchSize) then batchSize else 0;
      promoted + |Before(Apply(s, l).db, j, due)| <= |Before(s.db, j, due)|
  {
    WaitedBefore(s, l, j, due);
    if FullCall(s, l, due, batchSize) {
      BatchComesFirst(s, l.ids, l.at, j, due, batchSize);
    } else {
      NobodyOvertakes(s, l, j, due);
      SubsetSize(Before(Apply(s, l).db, j, due), Before(s.db, j, due));
    }
  }

  // The places in the batches of those calls.
  ghost function Places(s: Sys, ls: seq<Label>, due: Time, batchSize: nat): nat {
    if ls == [] then 0
    else
      var front, l := ls[..|ls| - 1], ls[|ls| - 1];
      Places(s, front, due, batchSize) + if FullCall(Run(s, front), l, due, batchSize) then batchSize else 0
  }

  lemma CallsAdd(batchSize: nat, calls: nat, called: bool)
    ensures batchSize * (calls + One(called)) == batchSize * calls + (if called then batchSize else 0)
  {
  }

  lemma {:induction false} PlacesOfCalls(s: Sys, ls: seq<Label>, due: Time, batchSize: nat)
    ensures Places(s, ls, due, batchSize) == batchSize * FullCalls(s, ls, due, batchSize)
  {
    if ls != [] {
      var front, l := ls[..|ls| - 1], ls[|ls| - 1];
      PlacesOfCalls(s, front, due, batchSize);
      CallsAdd(batchSize, FullCalls(s, front, due, batchSize), FullCall(Run(s, front), l, due, batchSize));
    }
  }

  // While a job waits, every call pays for itself: the jobs promoted before it and the jobs still before
  // it are together no more than the jobs that were before it at the start.
  lemma {:induction false} EveryCallCounts(s: Sys, ls: seq<Label>, j: JobId, due: Time, batchSize: nat)
    requires Inv(s) && due < s.db.now && Waits(Run(s, ls).db, j, due)
    ensures Waits(s.db, j, due)
    ensures Places(s, ls, due, batchSize) + |Before(Run(s, ls).db, j, due)| <= |Before(s.db, j, due)|
    decreases |ls|
  {
    if ls != [] {
      var front, l := ls[..|ls| - 1], ls[|ls| - 1];
      RunKeepsInv(s, front);
      ClockOnlyRuns(s, front);
      OneStep(Run(s, front), l, j, due, batchSize);
      EveryCallCounts(s, front, j, due, batchSize);
    }
  }

  lemma {:induction false} ClockOnlyRuns(s: Sys, ls: seq<Label>)
    requires Inv(s)
    ensures s.db.now <= Run(s, ls).db.now
  {
    if ls != [] {
      ClockOnlyRuns(s, ls[..|ls| - 1]);
      var u, newcomer := LastStep(s, ls);
    }
  }

  lemma TooManyBatches(batchSize: nat, calls: nat, d: nat)
    requires batchSize >= 1 && calls > d / batchSize
    ensures batchSize * calls > d
  {
    var q := d / batchSize;
    assert d < batchSize * (q + 1);
    assert batchSize * (q + 1) <= batchSize * calls;
  }

  // A job with d jobs before it waits through d / batchSize calls at most, whatever else happens: after
  // one more it has been promoted, unless an operator took it away or archived its queue.
  lemma PromotedInTime(s: Sys, ls: seq<Label>, j: JobId, due: Time, batchSize: nat)
    requires Inv(s) && due < s.db.now && batchSize >= 1
    requires FullCalls(s, ls, due, batchSize) > |Before(s.db, j, due)| / batchSize
    ensures !Waits(Run(s, ls).db, j, due)
  {
    if Waits(Run(s, ls).db, j, due) {
      EveryCallCounts(s, ls, j, due, batchSize);
      PlacesOfCalls(s, ls, due, batchSize);
      TooManyBatches(batchSize, FullCalls(s, ls, due, batchSize), |Before(s.db, j, due)|);
    }
  }
}
