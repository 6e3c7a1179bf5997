// At most one live attempt per job, as long as operators retry only failed or parked jobs.
module SingleAttempt {
  import opened Wrappers
  import opened Tables
  import opened Protocol
  import opened JobMoves
  import opened Lifecycle
  import opened History
  import opened Ledger

  // The job rows beside which a RUNNING execution may stand.
  ghost predicate MayRun(job: Job) {
    (job.status.Running? && job.leaseExpiresAt.Some?) || job.status.Completed? || job.status.Cancelled?
  }

  // A RUNNING execution is the current attempt of a job that may run.
  ghost predicate LiveRow(db: Db, j: JobId)
    requires j in db.jobs
  {
    forall x :: RunsFor(db, x, j) ==> db.execs[x].attempt == db.jobs[j].attemptCount && MayRun(db.jobs[j])
  }

  ghost predicate OneLive(s: Sys, j: JobId)
    requires j in s.db.jobs
  {
    LiveRow(s.db, j) && TallyOf(s.tally, j).failuresAfterPark == 0
  }

  ghost predicate Disciplined(s: Sys, j: JobId) {
    TallyOf(s.tally, j).forcedRetries == 0
  }

  ghost predicate LiveOk(s: Sys) {
    forall j :: j in s.db.jobs && Disciplined(s, j) ==> OneLive(s, j)
  }

  // ---- one row ----

  lemma RowMayStillRun(job: Job, buried: bool, now: Time, m: Move, c: Tally)
    requires RowOk(job, buried, now) && Enabled(job, buried, now, m) && MayRun(job)
    requires Noted(c, job, m).forcedRetries == c.forcedRetries
    ensures After(job, now, m).attemptCount == job.attemptCount
    ensures MayRun(After(job, now, m)) || (After(job, now, m) != job && Settled(After(job, now, m)))
  {
  }

  lemma RowStarts(job: Job, buried: bool, now: Time, m: Move)
    requires RowOk(job, buried, now) && Enabled(job, buried, now, m)
    requires After(job, now, m).attemptCount != job.attemptCount
    ensures MayRun(After(job, now, m)) && job.status.Claimed?
  {
  }

  lemma LateFailureNeedsPark(job: Job, now: Time, m: Move, c: Tally)
    ensures c.failuresAfterPark <= Noted(c, job, m).failuresAfterPark
    ensures c.forcedRetries <= Noted(c, job, m).forcedRetries
    ensures Noted(c, job, m).failuresAfterPark != c.failuresAfterPark ==> Parked(job)
  {
  }

  // ---- one step ----

  // A settled job had its one running execution stopped.
  lemma SettlingStops(s: Sys, t: Sys, j: JobId, x: ExecId)
    requires j in s.db.jobs && LiveRow(s.db, j) && NoRepeat(s.db)
    requires StopsOne(s, t, j) && RunsFor(s.db, x, j)
    ensures !RunsFor(t.db, x, j)
  {
    assert HasRunning(s.db, j);
    forall y | RunsFor(s.db, y, j)
      ensures y == x
    {
      assert s.db.execs[x].attempt == s.db.execs[y].attempt;
    }
  }

  lemma SurvivorMayRun(s: Sys, t: Sys, newcomer: Option<ExecId>, j: JobId, m: Move, x: ExecId)
    requires j in s.db.jobs && LiveRow(s.db, j) && NoRepeat(s.db) && RowOk(s.db.jobs[j], j in s.db.dead, s.db.now)
    requires Moves(s, t, j, m) && ProgressStep(s, t, j, newcomer)
    requires TallyOf(t.tally, j).forcedRetries == TallyOf(s.tally, j).forcedRetries
    requires RunsFor(s.db, x, j) && RunsFor(t.db, x, j) && t.db.execs[x] == s.db.execs[x]
    ensures t.db.execs[x].attempt == t.db.jobs[j].attemptCount && MayRun(t.db.jobs[j])
  {
    RowMayStillRun(s.db.jobs[j], j in s.db.dead, s.db.now, m, TallyOf(s.tally, j));
    if StopsOne(s, t, j) {
      SettlingStops(s, t, j, x);
    }
  }

  lemma NewcomerMayRun(s: Sys, t: Sys, j: JobId, m: Move, x: ExecId)
    requires j in s.db.jobs && RowOk(s.db.jobs[j], j in s.db.dead, s.db.now)
    requires Moves(s, t, j, m) && Started(s, t, x) && t.db.execs[x].jobId == j
    ensures t.db.execs[x].attempt == t.db.jobs[j].attemptCount && MayRun(t.db.jobs[j])
  {
    RowStarts(s.db.jobs[j], j in s.db.dead, s.db.now, m);
  }

  lemma NoLateFailure(s: Sys, t: Sys, newcomer: Option<ExecId>, j: JobId, m: Move)
    requires j in s.db.jobs && OneLive(s, j)
    requires Moves(s, t, j, m) && ProgressStep(s, t, j, newcomer)
    ensures TallyOf(t.tally, j).failuresAfterPark == 0 && (Disciplined(t, j) ==> Disciplined(s, j))
  {
    LateFailureNeedsPark(s.db.jobs[j], s.db.now, m, TallyOf(s.tally, j));
    assert Parked(s.db.jobs[j]) ==> !MayRun(s.db.jobs[j]);
  }

  // Without a forced retry, a live row stays live.
  lemma LiveRowKept(s: Sys, t: Sys, newcomer: Option<ExecId>, j: JobId)
    requires NoRepeat(s.db) && ExecsStep(s, t, newcomer)
    requires j in s.db.jobs && j in t.db.jobs && LiveRow(s.db, j) && RowOk(s.db.jobs[j], j in s.db.dead, s.db.now)
    requires HasMove(s, t, j) && ProgressStep(s, t, j, newcomer)
    requires TallyOf(t.tally, j).forcedRetries == TallyOf(s.tally, j).forcedRetries
    ensures LiveRow(t.db, j)
  {
    var m :| Moves(s, t, j, m);
    forall x | RunsFor(t.db, x, j)
      ensures t.db.execs[x].attempt == t.db.jobs[j].attemptCount && MayRun(t.db.jobs[j])
    {
      if x in s.db.execs {
        assert ExecStep(s.db.execs[x], t.db.execs[x], x in s.executing);
        SurvivorMayRun(s, t, newcomer, j, m, x);
      } else {
        NewcomerMayRun(s, t, j, m, x);
      }
    }
  }

  lemma LiveJobKept(s: Sys, t: Sys, newcomer: Option<ExecId>, j: JobId)
    requires Inv(s) && Step(s, t, newcomer)
    requires j in s.db.jobs && Disciplined(t, j) && (Disciplined(s, j) ==> OneLive(s, j))
    ensures OneLive(t, j)
  {
    assert HasMove(s, t, j) && ProgressStep(s, t, j, newcomer);
    var m :| Moves(s, t, j, m);
    LateFailureNeedsPark(s.db.jobs[j], s.db.now, m, TallyOf(s.tally, j));
    NoLateFailure(s, t, newcomer, j, m);
    LiveRowKept(s, t, newcomer, j);
  }

  lemma LiveKept(s: Sys, t: Sys, newcomer: Option<ExecId>)
    requires Inv(s) && LiveOk(s) && Step(s, t, newcomer)
    ensures LiveOk(t)
  {
    forall j | j in t.db.jobs && Disciplined(t, j)
      ensures OneLive(t, j)
    {
      if j in s.db.jobs {
        LiveJobKept(s, t, newcomer, j);
      } else {
        assert Born(s, t, j);
        NewJobHasNoExecs(s, t, newcomer, j);
      }
    }
  }

  lemma {:induction false} AlwaysLiveOk(ls: seq<Label>)
    ensures LiveOk(Run(INITIAL, ls))
  {
    if ls != [] {
      AlwaysLiveOk(ls[..|ls| - 1]);
      var u, newcomer := LastStep(INITIAL, ls);
      LiveKept(u, Run(INITIAL, ls), newcomer);
    }
  }

  // Single live attempt: even with workers that start or report late, a job never forced by an
  // operator has at most one RUNNING execution, it is the current attempt, and a job that waits,
  // is queued, claimed, failed or parked has none.
  lemma {:induction false} SingleLiveAttempt(ls: seq<Label>, j: JobId, x: ExecId, y: ExecId)
    requires
      var s := Run(INITIAL, ls);
      j in s.db.jobs && Disciplined(s, j) && RunsFor(s.db, x, j) && RunsFor(s.db, y, j)
    ensures
      var db := Run(INITIAL, ls).db;
      && x == y && db.execs[x].attempt == db.jobs[j].attemptCount
      && (db.jobs[j].status.Running? || db.jobs[j].status.Completed? || db.jobs[j].status.Cancelled?)
      && !Parked(db.jobs[j])
  {
    Reachable(ls);
    AlwaysLiveOk(ls);
  }

  // Under that discipline claim conservation is exact: completions, failures and recoveries
  // account for every claim that is no longer held, one each.
  lemma {:induction false} DisciplinedConservation(ls: seq<Label>, j: JobId)
    requires j in Run(INITIAL, ls).db.jobs && Disciplined(Run(INITIAL, ls), j)
    requires TallyOf(Run(INITIAL, ls).tally, j).lateCancels == 0
    ensures
      var s := Run(INITIAL, ls);
      var t := TallyOf(s.tally, j);
      |t.claimants| == t.completions + t.failures + t.recoveries + One(Held(s.db.jobs[j]))
  {
    ClaimConservation(ls, j);
    AlwaysLiveOk(ls);
  }
}
