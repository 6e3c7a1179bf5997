// Which job claimNextJob of apps/worker/src/claiming/job-claim.service.ts picks when no row is locked
// by anybody else: its two queries, stated as what they return.
module ClaimSelection {
  import opened Wrappers
  import opened Tables
  import T = Transactions

  const CANDIDATE_QUEUES := 100

  // The optional queue and job filters of a poll or of a Kafka hint.
  datatype Filter = Filter(queue: Option<QueueId>, job: Option<JobId>)

  predicate Matches(f: Filter, q: QueueId, j: JobId) {
    (f.queue.None? || f.queue.value == q) && (f.job.None? || f.job.value == j)
  }

  predicate Eligible(db: Db, f: Filter, q: QueueId, at: Time, j: JobId) {
    T.CanClaimRow(db, j, at) && db.jobs[j].queueId == q && Matches(f, q, j)
  }

  predicate IsCandidate(db: Db, f: Filter, at: Time, q: QueueId) {
    && q in db.queues && db.queues[q].active && !db.queues[q].archived
    && exists j :: j in db.jobs && Eligible(db, f, q, at, j)
  }

  // The candidate query: the first hundred candidate queues in order of their ids.
  ghost predicate IsCandidateList(db: Db, f: Filter, at: Time, qs: seq<QueueId>) {
    && |qs| <= CANDIDATE_QUEUES
    && (forall i :: 0 <= i < |qs| ==> IsCandidate(db, f, at, qs[i]))
    && (forall i, k :: 0 <= i < k < |qs| ==> qs[i] < qs[k])
    && (forall q :: IsCandidate(db, f, at, q) && q !in qs ==>
          |qs| == CANDIDATE_QUEUES && forall i :: 0 <= i < |qs| ==> qs[i] < q)
  }

  // priority DESC, created_at ASC, id ASC.
  predicate Before(jobs: map<JobId, Job>, a: JobId, b: JobId)
    requires a in jobs && b in jobs
  {
    || jobs[a].priority > jobs[b].priority
    || (jobs[a].priority == jobs[b].priority
        && (jobs[a].createdAt < jobs[b].createdAt || (jobs[a].createdAt == jobs[b].createdAt && a < b)))
  }

  // The candidate_job query: the first eligible row.
  predicate IsFirst(db: Db, f: Filter, q: QueueId, at: Time, j: JobId) {
    j in db.jobs && Eligible(db, f, q, at, j)
    && forall k :: k in db.jobs && k != j && Eligible(db, f, q, at, k) ==> Before(db.jobs, j, k)
  }

  lemma {:induction false} LeastOf(jobs: map<JobId, Job>, s: set<JobId>) returns (j: JobId)
    requires s != {} && forall k :: k in s ==> k in jobs
    ensures j in s && forall k :: k in s && k != j ==> Before(jobs, j, k)
    decreases |s|
  {
    var any :| any in s;
    j := any;
    if s - {any} != {} {
      var other := LeastOf(jobs, s - {any});
      if Before(jobs, other, any) {
        j := other;
      }
    }
    assert forall k :: k in s ==> k == any || k in s - {any};
  }

  lemma FirstExists(db: Db, f: Filter, q: QueueId, at: Time)
    requires exists j :: j in db.jobs && Eligible(db, f, q, at, j)
    ensures exists j :: j in db.jobs && IsFirst(db, f, q, at, j)
  {
    var s := set j | j in db.jobs && Eligible(db, f, q, at, j);
    var some :| some in db.jobs && Eligible(db, f, q, at, some);
    assert some in s;
    var first := LeastOf(db.jobs, s);
    assert IsFirst(db, f, q, at, first);
  }

  // What a call of claimNextJob answers: the first job of the least-id candidate queue that has
  // spare capacity, or nothing when no candidate has any.
  ghost predicate Selects(db: Db, f: Filter, at: Time, qs: seq<QueueId>, claimed: Option<JobId>) {
    match claimed
    case None => forall i :: 0 <= i < |qs| ==> !T.HasCapacity(db, qs[i])
    case Some(j) =>
      exists i :: 0 <= i < |qs| && T.HasCapacity(db, qs[i]) && IsFirst(db, f, qs[i], at, j)
                  && forall k :: 0 <= k < i ==> !T.HasCapacity(db, qs[k])
  }

  // The queues a call looks at, in the columns: the first hundred, by id, that are active, not archived and
  // have a queued job that is due and that the filter lets through.
  lemma CandidateQueues(db: Db, f: Filter, at: Time, qs: seq<QueueId>, q: QueueId, j: JobId)
    requires IsCandidateList(db, f, at, qs)
    requires q in db.queues && db.queues[q].active && !db.queues[q].archived
    requires j in db.jobs && db.jobs[j].queueId == q && db.jobs[j].status == Queued
    requires db.jobs[j].scheduledAt.None? || db.jobs[j].scheduledAt.value <= at
    requires (f.queue.None? || f.queue == Some(q)) && (f.job.None? || f.job == Some(j))
    ensures q in qs || (|qs| == 100 && forall i :: 0 <= i < |qs| ==> qs[i] < q)
  {
    assert Eligible(db, f, q, at, j);
    assert IsCandidate(db, f, at, q);
  }

  lemma CandidateQueue(db: Db, f: Filter, at: Time, qs: seq<QueueId>, i: nat) returns (j: JobId)
    requires IsCandidateList(db, f, at, qs) && i < |qs|
    ensures qs[i] in db.queues && db.queues[qs[i]].active && !db.queues[qs[i]].archived
    ensures j in db.jobs && db.jobs[j].queueId == qs[i] && db.jobs[j].status == Queued
    ensures db.jobs[j].scheduledAt.None? || db.jobs[j].scheduledAt.value <= at
    ensures (f.queue.None? || f.queue == Some(qs[i])) && (f.job.None? || f.job == Some(j))
  {
    assert IsCandidate(db, f, at, qs[i]);
    j :| j in db.jobs && Eligible(db, f, qs[i], at, j);
  }

  // The claimed job in the columns: it is queued, due and let through; and no other such job of its queue
  // has a higher priority, or the same and an earlier createdAt, or the same and a smaller id.
  lemma ClaimedIsUrgent(db: Db, f: Filter, at: Time, qs: seq<QueueId>, j: JobId)
    requires Selects(db, f, at, qs, Some(j))
    ensures
      && j in db.jobs && db.jobs[j].status == Queued && db.jobs[j].queueId in qs
      && (db.jobs[j].scheduledAt.None? || db.jobs[j].scheduledAt.value <= at)
      && (f.queue.None? || f.queue == Some(db.jobs[j].queueId)) && (f.job.None? || f.job == Some(j))
    ensures forall k :: k in db.jobs && k != j && db.jobs[k].queueId == db.jobs[j].queueId
                        && db.jobs[k].status == Queued
                        && (db.jobs[k].scheduledAt.None? || db.jobs[k].scheduledAt.value <= at)
                        && (f.job.None? || f.job == Some(k)) ==>
      || db.jobs[k].priority < db.jobs[j].priority
      || (db.jobs[k].priority == db.jobs[j].priority
          && (db.jobs[j].createdAt < db.jobs[k].createdAt
              || (db.jobs[j].createdAt == db.jobs[k].createdAt && j < k)))
  {
    var i :| 0 <= i < |qs| && T.HasCapacity(db, qs[i]) && IsFirst(db, f, qs[i], at, j);
    forall k | k in db.jobs && k != j && Eligible(db, f, qs[i], at, k)
      ensures Before(db.jobs, j, k)
    {
    }
  }

  // Its queue is the first candidate, by id, with spare capacity; if there is no answer, none has any.
  lemma FirstQueueWithRoom(db: Db, f: Filter, at: Time, qs: seq<QueueId>, claimed: Option<JobId>, i: nat)
    requires IsCandidateList(db, f, at, qs) && Selects(db, f, at, qs, claimed) && i < |qs|
    requires claimed.Some? ==> claimed.value in db.jobs && qs[i] < db.jobs[claimed.value].queueId
    ensures
      qs[i] in db.queues
      && db.queues[qs[i]].concurrencyLimit
         <= |set k | k in db.jobs && db.jobs[k].queueId == qs[i]
                     && (db.jobs[k].status == Claimed || db.jobs[k].status == Running)|
  {
    assert IsCandidate(db, f, at, qs[i]);
    assert ActiveJobs(db.jobs, qs[i]) == set k | k in db.jobs && db.jobs[k].queueId == qs[i]
                                                 && (db.jobs[k].status == Claimed || db.jobs[k].status == Running);
  }

  ghost predicate Claimable(db: Db, f: Filter, at: Time, j: JobId) {
    j in db.jobs && Eligible(db, f, db.jobs[j].queueId, at, j) && T.HasCapacity(db, db.jobs[j].queueId)
  }

  // The answer does not depend on how the rows are searched: it beats every
  // other claimable job of the first hundred candidate queues, and when nothing is answered the only
  // claimable jobs are in queues beyond the first hundred candidates.
  lemma SelectionIsBest(db: Db, f: Filter, at: Time, qs: seq<QueueId>, claimed: Option<JobId>)
    requires IsCandidateList(db, f, at, qs) && Selects(db, f, at, qs, claimed)
    ensures claimed.Some? ==> Claimable(db, f, at, claimed.value)
    ensures claimed.Some? ==> forall k :: Claimable(db, f, at, k) && db.jobs[k].queueId in qs && k != claimed.value ==>
      || db.jobs[claimed.value].queueId < db.jobs[k].queueId
      || (db.jobs[claimed.value].queueId == db.jobs[k].queueId && Before(db.jobs, claimed.value, k))
    ensures claimed.None? ==> forall k :: Claimable(db, f, at, k) ==>
      |qs| == CANDIDATE_QUEUES && forall i :: 0 <= i < |qs| ==> qs[i] < db.jobs[k].queueId
  {
    if claimed.None? {
      forall k | Claimable(db, f, at, k)
        ensures |qs| == CANDIDATE_QUEUES && forall i :: 0 <= i < |qs| ==> qs[i] < db.jobs[k].queueId
      {
        assert IsCandidate(db, f, at, db.jobs[k].queueId);
      }
    }
  }
}
