// Conservation of claims, attempts and events over every run.
module Ledger {
  import opened Wrappers
  import opened Tables
  import opened Protocol
  import opened JobMoves
  import opened Lifecycle
  import opened History
  import T = Transactions

  // Every claim is resolved once, or still held.
  ghost predicate ClaimsOk(job: Job, t: Tally) {
    |t.claimants| + t.failuresAfterPark == t.completions + t.failures + t.recoveries + t.seizures + One(Held(job))
  }

  // Every start consumes a claim, every claim an entry into the queue.
  ghost predicate EntriesOk(job: Job, t: Tally) {
    && t.starts == job.attemptCount
    && t.starts + One(job.status.Claimed?) <= |t.claimants|
    && |t.claimants| + One(job.status.Queued?) <= 1 + t.promotions + t.retries
  }

  // Only an operator can take a claim away, and only from a live or cancelled-too-late job.
  ghost predicate KindsOk(t: Tally) {
    && t.seizures <= t.forcedRetries + t.lateCancels
    && t.forcedRetries <= t.retries && t.lateCancels <= t.cancels
    && t.expiredClaims <= t.recoveries && t.failuresAfterPark <= t.failures
  }

  ghost predicate LedgerOk(job: Job, t: Tally) {
    ClaimsOk(job, t) && EntriesOk(job, t) && KindsOk(t)
  }

  ghost predicate BooksOk(s: Sys) {
    forall j :: j in s.db.jobs ==> LedgerOk(s.db.jobs[j], TallyOf(s.tally, j))
  }

  lemma MoveKeepsClaims(job: Job, buried: bool, now: Time, m: Move, t: Tally)
    requires RowOk(job, buried, now) && Enabled(job, buried, now, m) && ClaimsOk(job, t)
    ensures ClaimsOk(After(job, now, m), Noted(t, job, m))
  {
  }

  lemma MoveKeepsEntries(job: Job, buried: bool, now: Time, m: Move, t: Tally)
    requires RowOk(job, buried, now) && Enabled(job, buried, now, m) && EntriesOk(job, t)
    ensures EntriesOk(After(job, now, m), Noted(t, job, m))
  {
  }

  lemma MoveKeepsKinds(job: Job, now: Time, m: Move, t: Tally)
    requires KindsOk(t)
    ensures KindsOk(Noted(t, job, m))
  {
  }

  lemma MoveKeepsLedger(job: Job, buried: bool, now: Time, m: Move, t: Tally)
    requires RowOk(job, buried, now) && Enabled(job, buried, now, m) && LedgerOk(job, t)
    ensures LedgerOk(After(job, now, m), Noted(t, job, m))
  {
    MoveKeepsClaims(job, buried, now, m, t);
    MoveKeepsEntries(job, buried, now, m, t);
    MoveKeepsKinds(job, now, m, t);
  }

  lemma BooksKept(s: Sys, t: Sys, newcomer: Option<ExecId>)
    requires Inv(s) && BooksOk(s) && Step(s, t, newcomer)
    ensures BooksOk(t)
  {
    forall j | j in t.db.jobs
      ensures LedgerOk(t.db.jobs[j], TallyOf(t.tally, j))
    {
      if j in s.db.jobs {
        assert HasMove(s, t, j);
        var m :| Moves(s, t, j, m);
        MoveKeepsLedger(s.db.jobs[j], j in s.db.dead, s.db.now, m, TallyOf(s.tally, j));
      } else {
        assert Born(s, t, j);
      }
    }
  }

  lemma {:induction false} BooksAlwaysBalance(ls: seq<Label>)
    ensures BooksOk(Run(INITIAL, ls))
  {
    if ls != [] {
      BooksAlwaysBalance(ls[..|ls| - 1]);
      var u, newcomer := LastStep(INITIAL, ls);
      BooksKept(u, Run(INITIAL, ls), newcomer);
    }
  }

  // Claim conservation: however completion, failure, recovery and operators race, each claim is
  // resolved at most once.  The one disturbance is a failure report that reaches a job recovery
  // had already parked.
  lemma {:induction false} ClaimConservation(ls: seq<Label>, j: JobId)
    requires j in Run(INITIAL, ls).db.jobs
    ensures
      var s := Run(INITIAL, ls);
      var t := TallyOf(s.tally, j);
      && |t.claimants| + t.failuresAfterPark
         == t.completions + t.failures + t.recoveries + t.seizures + One(Held(s.db.jobs[j]))
      && (t.forcedRetries == 0 && t.lateCancels == 0 ==> t.seizures == 0)
  {
    BooksAlwaysBalance(ls);
  }

  // ---- JOB_READY events ----

  function Occurrences(ready: seq<JobId>, j: JobId): nat {
    multiset(ready)[j]
  }

  lemma {:induction false} DistinctOnce(ids: seq<JobId>, j: JobId)
    requires T.Distinct(ids)
    ensures Occurrences(ids, j) == One(j in ids)
  {
    if ids != [] {
      var front, last := ids[..|ids| - 1], ids[|ids| - 1];
      DistinctOnce(front, j);
      assert ids == front + [last];
      assert last !in front;
    }
  }

  ghost predicate EventsStep(s: Sys, t: Sys, j: JobId) {
    Occurrences(t.db.ready, j) - Occurrences(s.db.ready, j)
      == TallyOf(t.tally, j).promotions - TallyOf(s.tally, j).promotions
         + One(j in t.db.jobs && j !in s.db.jobs)
  }

  lemma PromoteEvents(s: Sys, ids: seq<JobId>, at: Time, j: JobId)
    requires DomainsOk(s)
    ensures EventsStep(s, DoPromote(s, ids, at), j)
  {
    if T.CanPromoteAll(s.db, ids, at) {
      DistinctOnce(ids, j);
    }
  }

  lemma CreateEvents(s: Sys, k: JobId, input: T.NewJob, j: JobId)
    requires DomainsOk(s)
    ensures EventsStep(s, DoCreate(s, k, input), j)
  {
  }

  lemma SilentEvents(s: Sys, t: Sys, j: JobId)
    requires Silent(s, t) && t.db.jobs.Keys == s.db.jobs.Keys
    ensures EventsStep(s, t, j)
  {
  }

  lemma SilentLabel(s: Sys, l: Label)
    requires !l.Promote? && !l.Create?
    ensures Silent(s, Apply(s, l)) && Apply(s, l).db.jobs.Keys == s.db.jobs.Keys
  {
  }

  lemma EveryLabelEvents(s: Sys, l: Label, j: JobId)
    requires DomainsOk(s)
    ensures EventsStep(s, Apply(s, l), j)
  {
    match l
    case Promote(ids, at) => PromoteEvents(s, ids, at, j);
    case Create(k, input) => CreateEvents(s, k, input, j);
    case _ =>
      SilentLabel(s, l);
      SilentEvents(s, Apply(s, l), j);
  }

  lemma {:induction false} EventsCounted(ls: seq<Label>, j: JobId)
    ensures
      var s := Run(INITIAL, ls);
      Occurrences(s.db.ready, j) == TallyOf(s.tally, j).promotions + One(j in s.db.jobs)
  {
    if ls != [] {
      EventsCounted(ls[..|ls| - 1], j);
      var u, newcomer := LastStep(INITIAL, ls);
      EveryLabelEvents(u, ls[|ls| - 1], j);
      assert j in u.db.jobs ==> j in Run(INITIAL, ls).db.jobs;
    }
  }

  // Event and execution conservation: a job has one JOB_READY row for its creation and one for
  // every promotion; attempts never exceed claims, and claims never exceed those events plus the
  // operator retries.  A hint delivered twice, late or never therefore cannot add an execution.
  lemma {:induction false} EventConservation(ls: seq<Label>, j: JobId)
    requires j in Run(INITIAL, ls).db.jobs
    ensures
      var s := Run(INITIAL, ls);
      var t := TallyOf(s.tally, j);
      && Occurrences(s.db.ready, j) == 1 + t.promotions
      && t.starts == s.db.jobs[j].attemptCount <= |t.claimants|
      && |t.claimants| <= Occurrences(s.db.ready, j) + t.retries
  {
    BooksAlwaysBalance(ls);
    EventsCounted(ls, j);
  }
}
