// Every job comes to rest: an amortised bound on how often its status can change.
module Termination {
  import opened Wrappers
  import opened Tables
  import opened Protocol
  import opened JobMoves
  import opened Lifecycle
  import opened History
  import opened Ledger
  import opened SingleAttempt

  // How many more changes the current attempt can go through.
  function Rank(job: Job): nat {
    if Parked(job) then 1
    else match job.status
      case Running => if job.attemptCount < job.maxAttempts then 5 else 2
      case Scheduled => 4
      case Retrying => 4
      case Queued => 3
      case Claimed => 2
      case Completed => 1
      case Failed => 1
      case Cancelled => 0
  }

  function Potential(job: Job): int {
    4 * (job.maxAttempts - job.attemptCount) + Rank(job) - (if job.attemptCount < job.maxAttempts then 3 else 0)
  }

  // A change of status, or the moment recovery gives the job up.
  predicate Changed(before: Job, after: Job) {
    before.status != after.status || (Parked(after) && !Parked(before))
  }

  // What the environment contributed: leases that expired before the job started, operator
  // retries, failures of a job already given up.  Cancellations, late or not, pay for themselves.
  function Disturbances(c: Tally): nat {
    3 * c.expiredClaims + 4 * c.retries + c.failuresAfterPark
  }

  // How often job j changed along the run.
  function Changes(s: Sys, ls: seq<Label>, j: JobId): nat {
    if ls == [] then 0
    else
      var u, t := Run(s, ls[..|ls| - 1]), Run(s, ls);
      Changes(s, ls[..|ls| - 1], j) + One(j in u.db.jobs && j in t.db.jobs && Changed(u.db.jobs[j], t.db.jobs[j]))
  }

  lemma MovePays(job: Job, buried: bool, now: Time, m: Move, c: Tally)
    requires RowOk(job, buried, now) && Enabled(job, buried, now, m)
    ensures One(Changed(job, After(job, now, m))) + Potential(After(job, now, m)) + Disturbances(c)
      <= Potential(job) + Disturbances(Noted(c, job, m))
    ensures After(job, now, m).maxAttempts == job.maxAttempts
  {
  }

  lemma StepPays(s: Sys, t: Sys, newcomer: Option<ExecId>, j: JobId)
    requires RowsOk(s.db) && Step(s, t, newcomer) && j in s.db.jobs
    ensures j in t.db.jobs && t.db.jobs[j].maxAttempts == s.db.jobs[j].maxAttempts
    ensures One(Changed(s.db.jobs[j], t.db.jobs[j])) + Potential(t.db.jobs[j]) + Disturbances(TallyOf(s.tally, j))
      <= Potential(s.db.jobs[j]) + Disturbances(TallyOf(t.tally, j))
  {
    assert HasMove(s, t, j);
    var m :| Moves(s, t, j, m);
    MovePays(s.db.jobs[j], j in s.db.dead, s.db.now, m, TallyOf(s.tally, j));
  }

  lemma BirthPays(s: Sys, t: Sys, newcomer: Option<ExecId>, j: JobId)
    requires Step(s, t, newcomer) && j in t.db.jobs && j !in s.db.jobs
    ensures Potential(t.db.jobs[j]) <= 4 * t.db.jobs[j].maxAttempts + 1
  {
    assert Born(s, t, j);
  }

  lemma {:induction false} NothingChangesBeforeBirth(ls: seq<Label>, j: JobId)
    requires j !in Run(INITIAL, ls).db.jobs
    ensures Changes(INITIAL, ls, j) == 0
  {
    if ls != [] {
      var u, newcomer := LastStep(INITIAL, ls);
      assert j !in u.db.jobs;
      NothingChangesBeforeBirth(ls[..|ls| - 1], j);
    }
  }

  // Amortised termination: over any run, the changes a job has gone through and the potential it
  // has left are paid for by its attempts and by the disturbances.
  lemma {:induction false} ChangesAreBounded(ls: seq<Label>, j: JobId)
    requires j in Run(INITIAL, ls).db.jobs
    ensures
      var s := Run(INITIAL, ls);
      Changes(INITIAL, ls, j) + Potential(s.db.jobs[j])
        <= 4 * s.db.jobs[j].maxAttempts + 1 + Disturbances(TallyOf(s.tally, j))
    ensures Potential(Run(INITIAL, ls).db.jobs[j]) >= 0
  {
    Reachable(ls);
    if ls != [] {
      var u, newcomer := LastStep(INITIAL, ls);
      if j in u.db.jobs {
        ChangesAreBounded(ls[..|ls| - 1], j);
        StepPays(u, Run(INITIAL, ls), newcomer, j);
      } else {
        NothingChangesBeforeBirth(ls[..|ls| - 1], j);
        BirthPays(u, Run(INITIAL, ls), newcomer, j);
      }
    }
  }

  // Without operator retries the only disturbances left are leases that expire before the start:
  // however often and however late it is cancelled, a job changes at most four times per attempt,
  // three times per lost claim, and once more.
  lemma {:induction false} UnretriedJobsComeToRest(ls: seq<Label>, j: JobId)
    requires j in Run(INITIAL, ls).db.jobs && TallyOf(Run(INITIAL, ls).tally, j).retries == 0
    ensures
      var s := Run(INITIAL, ls);
      var c := TallyOf(s.tally, j);
      Changes(INITIAL, ls, j) <= 4 * s.db.jobs[j].maxAttempts + 1 + 3 * c.expiredClaims
  {
    ChangesAreBounded(ls, j);
    BooksAlwaysBalance(ls);
    AlwaysLiveOk(ls);
    var s := Run(INITIAL, ls);
    assert LedgerOk(s.db.jobs[j], TallyOf(s.tally, j));
    assert OneLive(s, j);
  }
}
