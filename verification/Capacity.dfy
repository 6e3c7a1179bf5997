// The concurrency limit of a queue, with every claim taken as one step.
module Capacity {
  import opened Wrappers
  import opened Tables
  import opened Protocol
  import opened JobMoves
  import opened Lifecycle
  import opened History
  import T = Transactions

  // No queue holds more active jobs than the largest limit it has had.
  ghost predicate CapOk(s: Sys) {
    && s.peak.Keys == s.db.queues.Keys
    && (forall q :: q in s.db.queues ==> s.db.queues[q].concurrencyLimit <= s.peak[q])
    && (forall q :: q in s.db.queues ==> |ActiveJobs(s.db.jobs, q)| <= s.peak[q])
  }

  lemma MoveOccupies(job: Job, buried: bool, now: Time, m: Move, c: Tally)
    requires Enabled(job, buried, now, m) && Noted(c, job, m).claimants == c.claimants
    ensures Occupies(After(job, now, m)) ==> Occupies(job)
    ensures After(job, now, m).queueId == job.queueId
  {
    assert m.BeClaimed? ==> |Noted(c, job, m).claimants| == |c.claimants| + 1;
  }

  // Only claims raise the number of active jobs of a queue.
  lemma OnlyClaimsOccupy(s: Sys, t: Sys, newcomer: Option<ExecId>, q: QueueId)
    requires Step(s, t, newcomer) && Unclaimed(s, t)
    ensures ActiveJobs(t.db.jobs, q) <= ActiveJobs(s.db.jobs, q)
    ensures |ActiveJobs(t.db.jobs, q)| <= |ActiveJobs(s.db.jobs, q)|
  {
    forall j | j in ActiveJobs(t.db.jobs, q)
      ensures j in ActiveJobs(s.db.jobs, q)
    {
      assert j !in s.db.jobs ==> Born(s, t, j);
      assert HasMove(s, t, j);
      var m :| Moves(s, t, j, m);
      MoveOccupies(s.db.jobs[j], j in s.db.dead, s.db.now, m, TallyOf(s.tally, j));
    }
    SubsetSize(ActiveJobs(t.db.jobs, q), ActiveJobs(s.db.jobs, q));
  }

  lemma OthersDoNotClaim(s: Sys, l: Label)
    requires DomainsOk(s) && !l.Claim?
    ensures Unclaimed(s, Apply(s, l))
  {
  }

  // Occupying one more row adds it to its own queue's active jobs and to no other's.
  lemma OneMoreActive(jobs: map<JobId, Job>, j: JobId, job: Job, q: QueueId)
    requires j in jobs && !Occupies(jobs[j]) && Occupies(job) && job.queueId == jobs[j].queueId
    ensures ActiveJobs(jobs[j := job], q) == ActiveJobs(jobs, q) + (if job.queueId == q then {j} else {})
    ensures |ActiveJobs(jobs[j := job], q)| == |ActiveJobs(jobs, q)| + One(job.queueId == q)
  {
    assert j !in ActiveJobs(jobs, q);
    if job.queueId == q {
      assert ActiveJobs(jobs[j := job], q) == ActiveJobs(jobs, q) + {j};
    } else {
      assert ActiveJobs(jobs[j := job], q) == ActiveJobs(jobs, q);
    }
  }

  lemma ClaimAddsOne(s: Sys, j: JobId, w: WorkerId, leaseMs: nat, at: Time, q: QueueId)
    requires T.CanClaim(s.db, j, at)
    ensures
      var t := DoClaim(s, j, w, leaseMs, at);
      ActiveJobs(t.db.jobs, q) == ActiveJobs(s.db.jobs, q) + (if s.db.jobs[j].queueId == q then {j} else {})
      && |ActiveJobs(t.db.jobs, q)| == |ActiveJobs(s.db.jobs, q)| + One(s.db.jobs[j].queueId == q)
  {
    OneMoreActive(s.db.jobs, j, T.ClaimedJob(s.db.jobs[j], w, leaseMs, at), q);
  }

  lemma NewQueueIsEmpty(s: Sys, q: QueueId)
    requires (forall j :: j in s.db.jobs ==> s.db.jobs[j].queueId in s.db.queues) && q !in s.db.queues
    ensures ActiveJobs(s.db.jobs, q) == {}
  {
  }

  ghost predicate PeakCovers(s: Sys, k: QueueId) {
    && k in s.db.queues && k in s.peak
    && s.db.queues[k].concurrencyLimit <= s.peak[k] && |ActiveJobs(s.db.jobs, k)| <= s.peak[k]
  }

  lemma PutQueueCovers(s: Sys, q: QueueId, row: Queue, k: QueueId)
    requires CapOk(s) && (forall j :: j in s.db.jobs ==> s.db.jobs[j].queueId in s.db.queues)
    requires k in DoPutQueue(s, q, row).db.queues
    ensures PeakCovers(DoPutQueue(s, q, row), k)
  {
    if k !in s.db.queues {
      NewQueueIsEmpty(s, k);
    }
  }

  lemma PutQueueKeepsCap(s: Sys, q: QueueId, row: Queue)
    requires CapOk(s) && (forall j :: j in s.db.jobs ==> s.db.jobs[j].queueId in s.db.queues)
    ensures CapOk(DoPutQueue(s, q, row))
  {
    forall k | k in DoPutQueue(s, q, row).db.queues
      ensures PeakCovers(DoPutQueue(s, q, row), k)
    {
      PutQueueCovers(s, q, row, k);
    }
  }

  lemma OthersKeepQueues(s: Sys, l: Label)
    requires !l.PutQueue?
    ensures Apply(s, l).db.queues == s.db.queues && Apply(s, l).peak == s.peak
  {
  }

  predicate QueueArchived(db: Db, q: QueueId) {
    q in db.queues && db.queues[q].archived
  }

  // Archiving is for good.
  lemma ArchivedStays(s: Sys, l: Label, q: QueueId)
    requires QueueArchived(s.db, q)
    ensures QueueArchived(Apply(s, l).db, q)
  {
  }

  lemma StepKeepsCap(s: Sys, l: Label)
    requires Inv(s) && CapOk(s)
    ensures CapOk(Apply(s, l))
  {
    var t := Apply(s, l);
    if l.PutQueue? {
      PutQueueKeepsCap(s, l.q, l.row);
    } else {
      OthersKeepQueues(s, l);
      var newcomer := EveryLabelSteps(s, l);
      forall q | q in s.db.queues
        ensures |ActiveJobs(t.db.jobs, q)| <= t.peak[q]
      {
        if !l.Claim? {
          OthersDoNotClaim(s, l);
          OnlyClaimsOccupy(s, t, newcomer, q);
        } else if T.CanClaim(s.db, l.j, l.at) {
          ClaimAddsOne(s, l.j, l.w, l.leaseMs, l.at, q);
        }
      }
    }
  }

  lemma {:induction false} QueueCap(ls: seq<Label>, q: QueueId)
    ensures CapOk(Run(INITIAL, ls))
    ensures q in Run(INITIAL, ls).db.queues ==>
      |ActiveJobs(Run(INITIAL, ls).db.jobs, q)| <= Run(INITIAL, ls).peak[q]
  {
    if ls != [] {
      QueueCap(ls[..|ls| - 1], q);
      Reachable(ls[..|ls| - 1]);
      StepKeepsCap(Run(INITIAL, ls[..|ls| - 1]), ls[|ls| - 1]);
    }
  }
}
