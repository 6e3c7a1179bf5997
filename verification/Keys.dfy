// Idempotency keys over runs: a job keeps its queue and key for ever, and no two jobs share them.
module Keys {
  import opened Wrappers
  import opened Tables
  import opened Protocol
  import opened JobMoves
  import opened Lifecycle
  import opened History
  import T = Transactions

  lemma MoveKeepsKey(job: Job, now: Time, m: Move)
    ensures After(job, now, m).queueId == job.queueId && After(job, now, m).idempotencyKey == job.idempotencyKey
  {
  }

  // A job's queue and key never change.
  lemma KeysKept(s: Sys, t: Sys, newcomer: Option<ExecId>, j: JobId, q: QueueId, key: Key)
    requires Step(s, t, newcomer) && j in s.db.jobs
    ensures Keyed(t.db, j, q, key) <==> Keyed(s.db, j, q, key)
  {
    assert HasMove(s, t, j);
    var m :| Moves(s, t, j, m);
    MoveKeepsKey(s.db.jobs[j], s.db.now, m);
  }

  // A new job's key was free.
  lemma NewKeyWasFree(s: Sys, t: Sys, newcomer: Option<ExecId>, j: JobId, q: QueueId, key: Key)
    requires Step(s, t, newcomer) && j !in s.db.jobs && Keyed(t.db, j, q, key)
    ensures !T.KeyTaken(s.db, q, key)
  {
    assert Born(s, t, j);
  }

  // A step creates at most one job.
  ghost predicate OneBirth(s: Sys, t: Sys) {
    forall j, k :: j in t.db.jobs && k in t.db.jobs && j !in s.db.jobs && k !in s.db.jobs ==> j == k
  }

  lemma KeyHasOneJob(s: Sys, t: Sys, newcomer: Option<ExecId>, j: JobId, k: JobId, q: QueueId, key: Key)
    requires KeysUnique(s.db) && Step(s, t, newcomer) && OneBirth(s, t)
    requires Keyed(t.db, j, q, key) && Keyed(t.db, k, q, key)
    ensures j == k
  {
    if j in s.db.jobs {
      KeysKept(s, t, newcomer, j, q, key);
      if k in s.db.jobs {
        KeysKept(s, t, newcomer, k, q, key);
      } else {
        NewKeyWasFree(s, t, newcomer, k, q, key);
      }
    } else {
      NewKeyWasFree(s, t, newcomer, j, q, key);
      if k in s.db.jobs {
        KeysKept(s, t, newcomer, k, q, key);
      }
    }
  }

  lemma StepKeepsKeysUnique(s: Sys, t: Sys, newcomer: Option<ExecId>)
    requires KeysUnique(s.db) && Step(s, t, newcomer) && OneBirth(s, t)
    ensures KeysUnique(t.db)
  {
    forall j, k, q, key | Keyed(t.db, j, q, key) && Keyed(t.db, k, q, key)
      ensures j == k
    {
      KeyHasOneJob(s, t, newcomer, j, k, q, key);
    }
  }

  lemma NewRowsAreCreated(s: Sys, l: Label, j: JobId)
    requires j in Apply(s, l).db.jobs && j !in s.db.jobs
    ensures
      var job := Apply(s, l).db.jobs[j];
      l.Create? && l.j == j && job.idempotencyKey == l.input.idempotencyKey && job.queueId == l.input.queueId
  {
  }

  lemma LabelStepsOnce(s: Sys, l: Label) returns (newcomer: Option<ExecId>)
    requires Inv(s)
    ensures Step(s, Apply(s, l), newcomer) && OneBirth(s, Apply(s, l))
  {
    newcomer := EveryLabelSteps(s, l);
    forall j | j in Apply(s, l).db.jobs && j !in s.db.jobs
      ensures l.Create? && l.j == j
    {
      NewRowsAreCreated(s, l, j);
    }
  }

  // Over every continuation a key keeps its job and stays unique.
  lemma {:induction false} RunKeepsKeys(s: Sys, ls: seq<Label>)
    requires Inv(s) && KeysUnique(s.db)
    ensures Inv(Run(s, ls)) && KeysUnique(Run(s, ls).db)
    ensures forall j, q, key :: Keyed(s.db, j, q, key) ==> Keyed(Run(s, ls).db, j, q, key)
  {
    if ls != [] {
      var u, t := Run(s, ls[..|ls| - 1]), Run(s, ls);
      RunKeepsKeys(s, ls[..|ls| - 1]);
      var newcomer := LabelStepsOnce(u, ls[|ls| - 1]);
      StepKeepsInv(u, t, newcomer);
      StepKeepsKeysUnique(u, t, newcomer);
      forall j, q, key | Keyed(u.db, j, q, key)
        ensures Keyed(t.db, j, q, key)
      {
        KeysKept(u, t, newcomer, j, q, key);
      }
    }
  }
}
