// Models processRecurringSchedule and promoteRecurringSchedules of
// apps/scheduler/src/scheduling/recurring-schedule-service.ts statement by statement, for one scheduler.
module RecurringScheduler {
  import opened Wrappers
  import opened Tables
  import opened Protocol
  import opened DueSchedules
  import opened Pages
  import opened RecurringSchedules
  import T = Transactions

  // What the environment supplies for one schedule: the new row's id, the queue's priority and the
  // retry policy's limit, one when there is none.
  datatype Choice = Choice(j: JobId, priority: nat, maxAttempts: nat)

  class Scheduler {
    var plant: Plant

    constructor (plant: Plant)
      ensures this.plant == plant
    {
      this.plant := plant;
    }

    // The occurrence is reserved before the job is inserted; a refused insert undoes it.
    method ProcessRecurringSchedule(next: Time -> Time, sid: ScheduleId, choice: Choice, at: Time) returns (fired: bool)
      modifies this
      ensures plant == ProcessSchedule(old(plant), next, sid, choice.j, choice.priority, choice.maxAttempts, at)
      ensures fired <==> Fires(old(plant), next, sid, choice.j, choice.priority, choice.maxAttempts, at)
    {
      if !IsDueSchedule(plant, sid, at) {
        return false;
      }
      var saved := plant;
      var row := plant.schedules[sid];
      var now := plant.sys.db.now;
      var nextRunAt := NextCronOccurrence(next, if row.nextRunAt > now then row.nextRunAt else now);
      if nextRunAt.None? {
        return false;
      }
      var reserved := row.(lastRunAt := Some(row.nextRunAt), nextRunAt := nextRunAt.value);
      plant := plant.(schedules := plant.schedules[sid := reserved]);
      var job := OccurrenceJob(sid, row, choice.priority, choice.maxAttempts);
      if !T.CanCreate(plant.sys.db, choice.j, job) {
        plant := saved;
        return false;
      }
      plant := plant.(sys := DoCreate(plant.sys, choice.j, job),
                      fired := plant.fired[sid := plant.fired[sid] + [Firing(row.nextRunAt, now, choice.j)]]);
      return true;
    }

    // Every candidate, however stale the list, is tried once; those that fire are the ones that could
    // at the start, and the answer counts them.
    method ProcessCandidates(next: Time -> Time, candidates: seq<ScheduleId>, choice: ScheduleId -> Choice, at: Time)
      returns (processed: nat, ghost done: set<ScheduleId>)
      requires Differ(candidates, choice)
      modifies this
      ensures processed == |done| && done == FiringOf(old(plant), next, candidates, choice, at)
      ensures plant.schedules.Keys == old(plant.schedules.Keys) && plant.fired.Keys == old(plant.fired.Keys)
      ensures forall sid :: sid in plant.fired ==> FiredOnce(old(plant), plant, sid, sid in done)
    {
      processed, done := 0, {};
      for n := 0 to |candidates|
        invariant processed == |done| && done == FiringOf(old(plant), next, candidates[..n], choice, at)
        invariant Processed(old(plant), plant, next, candidates, choice, at, n)
      {
        Turn(old(plant), plant, next, candidates, choice, at, n);
        var c := choice(candidates[n]);
        var fired := ProcessRecurringSchedule(next, candidates[n], c, at);
        if fired {
          processed, done := processed + 1, done + {candidates[n]};
        }
      }
      AllProcessed(old(plant), plant, next, candidates, choice, at);
    }

    // The batch: the enabled schedules that are due, earliest first, whatever their queues are.
    method PromoteRecurringSchedules(next: Time -> Time, batchSize: nat, choice: ScheduleId -> Choice, at: Time)
      returns (processed: nat, page: seq<ScheduleId>, ghost done: set<ScheduleId>)
      requires forall a, b :: a != b ==> choice(a).j != choice(b).j
      modifies this
      ensures IsPage(DueRows(old(plant), at), NextRun(old(plant)), batchSize, page)
      ensures forall sid :: sid in page ==>
        sid in old(plant).schedules && old(plant).schedules[sid].enabled && old(plant).schedules[sid].nextRunAt <= at
      ensures |page| == batchSize || forall sid :: sid in old(plant).schedules && sid !in page ==>
        !old(plant).schedules[sid].enabled || at < old(plant).schedules[sid].nextRunAt
      ensures forall early, late :: early in page && late !in page && late in old(plant).schedules ==>
        || !old(plant).schedules[late].enabled
        || old(plant).schedules[early].nextRunAt <= old(plant).schedules[late].nextRunAt
      ensures processed == |done| && done == FiringOf(old(plant), next, page, choice, at)
      ensures plant.schedules.Keys == old(plant.schedules.Keys) && plant.fired.Keys == old(plant.fired.Keys)
      ensures forall sid :: sid in plant.fired ==> FiredOnce(old(plant), plant, sid, sid in done)
    {
      page := Page(DueRows(plant, at), NextRun(plant), batchSize);
      processed, done := ProcessCandidates(next, page, choice, at);
    }
  }

  // One occurrence has become one job: the schedule was enabled and due, its queue live; the job is queued,
  // carries the occurrence as its instant and its key, and the schedule waits for the next cron instant
  // after now.  Nothing else about it, and no other row, has changed.
  ghost predicate Turned(before: Plant, after: Plant, next: Time -> Time, sid: ScheduleId, choice: Choice, at: Time) {
    && sid in before.schedules && sid in before.fired
    && var row, db := before.schedules[sid], before.sys.db;
    && row.enabled && row.nextRunAt <= at <= db.now && row.queueId in db.queues && !db.queues[row.queueId].archived
    && choice.j !in db.jobs && choice.maxAttempts >= 1
    && after.schedules == before.schedules[
         sid := Schedule(row.queueId, row.createdAt, next(db.now), Some(row.nextRunAt), row.enabled)]
    && after.fired == before.fired[sid := before.fired[sid] + [Firing(row.nextRunAt, db.now, choice.j)]]
    && after.sys.db == db.(
         jobs := db.jobs[choice.j := Job(row.queueId, choice.priority, Queued, 0, choice.maxAttempts,
                                         RetryColumns(None, None, None, None), Some(row.nextRunAt), db.now, None, None,
                                         Some(OccurrenceKey(sid, row.nextRunAt)))],
         ready := db.ready + [choice.j])
  }

  // That is what processing a schedule does, or nothing at all.
  lemma ProcessingTurns(p: Plant, next: Time -> Time, sid: ScheduleId, choice: Choice, at: Time)
    ensures
      var after := ProcessSchedule(p, next, sid, choice.j, choice.priority, choice.maxAttempts, at);
      if Fires(p, next, sid, choice.j, choice.priority, choice.maxAttempts, at)
      then Turned(p, after, next, sid, choice, at) else after == p
  {
  }

  predicate Differ(candidates: seq<ScheduleId>, choice: ScheduleId -> Choice) {
    forall a, b :: 0 <= a < b < |candidates| ==>
      candidates[a] != candidates[b] && choice(candidates[a]).j != choice(candidates[b]).j
  }

  predicate FiresFor(p: Plant, next: Time -> Time, sid: ScheduleId, choice: ScheduleId -> Choice, at: Time) {
    Fires(p, next, sid, choice(sid).j, choice(sid).priority, choice(sid).maxAttempts, at)
  }

  ghost function FiringOf(p: Plant, next: Time -> Time, candidates: seq<ScheduleId>, choice: ScheduleId -> Choice,
                        at: Time): set<ScheduleId> {
    set sid | sid in candidates && FiresFor(p, next, sid, choice, at)
  }

  lemma NextFiring(p: Plant, next: Time -> Time, candidates: seq<ScheduleId>, choice: ScheduleId -> Choice, at: Time,
                   n: nat)
    requires n < |candidates|
    ensures
      var sid := candidates[n];
      FiringOf(p, next, candidates[..n + 1], choice, at)
      == FiringOf(p, next, candidates[..n], choice, at) + (if FiresFor(p, next, sid, choice, at) then {sid} else {})
  {
    assert candidates[..n + 1] == candidates[..n] + [candidates[n]];
  }

  // Another schedule's firing writes another job with another key.
  lemma OtherStillFires(p: Plant, next: Time -> Time, sid: ScheduleId, other: ScheduleId,
                        choice: ScheduleId -> Choice, at: Time)
    requires sid != other && choice(sid).j != choice(other).j
    ensures
      var c := choice(sid);
      FiresFor(ProcessSchedule(p, next, sid, c.j, c.priority, c.maxAttempts, at), next, other, choice, at)
      <==> FiresFor(p, next, other, choice, at)
  {
    if FiresFor(p, next, sid, choice, at) && IsDueSchedule(p, other, at) {
      var key := OccurrenceKey(other, p.schedules[other].nextRunAt);
      var c := choice(sid);
      var after := DoCreate(p.sys, c.j, OccurrenceJob(sid, p.schedules[sid], c.priority, c.maxAttempts)).db;
      KeyStillFree(p.sys.db, after, c.j, p.schedules[other].queueId, key);
    }
  }

  lemma KeyStillFree(before: Db, after: Db, j: JobId, q: QueueId, key: Key)
    requires j !in before.jobs && j in after.jobs && after.jobs == before.jobs[j := after.jobs[j]]
    requires after.jobs[j].idempotencyKey != Some(key)
    ensures T.KeyTaken(after, q, key) <==> T.KeyTaken(before, q, key)
  {
    forall k
      ensures Keyed(after, k, q, key) <==> Keyed(before, k, q, key)
    {
    }
    if T.KeyTaken(before, q, key) {
      var k :| k in before.jobs && Keyed(before, k, q, key);
      assert Keyed(after, k, q, key);
    }
  }

  lemma OthersStillFire(p: Plant, next: Time -> Time, candidates: seq<ScheduleId>, choice: ScheduleId -> Choice,
                        at: Time, n: nat)
    requires n < |candidates| && Differ(candidates, choice)
    ensures
      var c := choice(candidates[n]);
      var p' := ProcessSchedule(p, next, candidates[n], c.j, c.priority, c.maxAttempts, at);
      forall m :: n < m < |candidates| ==>
        (FiresFor(p', next, candidates[m], choice, at) <==> FiresFor(p, next, candidates[m], choice, at))
  {
    forall m | n < m < |candidates|
      ensures
        var c := choice(candidates[n]);
        var p' := ProcessSchedule(p, next, candidates[n], c.j, c.priority, c.maxAttempts, at);
        FiresFor(p', next, candidates[m], choice, at) <==> FiresFor(p, next, candidates[m], choice, at)
    {
      OtherStillFires(p, next, candidates[n], candidates[m], choice, at);
    }
  }

  // The first n candidates have been tried; the others would fire as they would have at the start.
  ghost predicate Processed(before: Plant, after: Plant, next: Time -> Time, candidates: seq<ScheduleId>,
                            choice: ScheduleId -> Choice, at: Time, n: nat)
    requires n <= |candidates|
  {
    && after.schedules.Keys == before.schedules.Keys && after.fired.Keys == before.fired.Keys
    && (forall sid :: sid in after.fired ==>
          FiredOnce(before, after, sid, sid in FiringOf(before, next, candidates[..n], choice, at)))
    && (forall m :: n <= m < |candidates| ==>
          (FiresFor(after, next, candidates[m], choice, at) <==> FiresFor(before, next, candidates[m], choice, at)))
  }

  lemma FiresOnce(p: Plant, next: Time -> Time, sid: ScheduleId, choice: ScheduleId -> Choice, at: Time,
                  other: ScheduleId)
    requires other in p.fired
    ensures
      var c := choice(sid);
      var p' := ProcessSchedule(p, next, sid, c.j, c.priority, c.maxAttempts, at);
      && p'.schedules.Keys == p.schedules.Keys && p'.fired.Keys == p.fired.Keys
      && FiredOnce(p, p', other, other == sid && FiresFor(p, next, sid, choice, at))
  {
  }

  lemma FiredOnceThen(before: Plant, mid: Plant, after: Plant, sid: ScheduleId, first: bool, second: bool)
    requires before.schedules.Keys == mid.schedules.Keys == after.schedules.Keys
    requires sid in before.fired && sid in mid.fired && sid in after.fired && !(first && second)
    requires FiredOnce(before, mid, sid, first) && FiredOnce(mid, after, sid, second)
    ensures FiredOnce(before, after, sid, first || second)
  {
  }

  lemma OneMore(before: Plant, mid: Plant, next: Time -> Time, candidates: seq<ScheduleId>,
                choice: ScheduleId -> Choice, at: Time, n: nat)
    requires n < |candidates| && Differ(candidates, choice)
    requires Processed(before, mid, next, candidates, choice, at, n)
    ensures
      var c := choice(candidates[n]);
      Processed(before, ProcessSchedule(mid, next, candidates[n], c.j, c.priority, c.maxAttempts, at), next, candidates,
                choice, at, n + 1)
  {
    var sid := candidates[n];
    var c := choice(sid);
    var after := ProcessSchedule(mid, next, sid, c.j, c.priority, c.maxAttempts, at);
    OthersStillFire(mid, next, candidates, choice, at, n);
    NextFiring(before, next, candidates, choice, at, n);
    assert sid !in candidates[..n];
    forall k | k in after.fired
      ensures FiredOnce(before, after, k, k in FiringOf(before, next, candidates[..n + 1], choice, at))
    {
      FiresOnce(mid, next, sid, choice, at, k);
      FiredOnceThen(before, mid, after, k, k in FiringOf(before, next, candidates[..n], choice, at),
                    k == sid && FiresFor(mid, next, sid, choice, at));
    }
  }

  // One turn of the loop.
  lemma Turn(before: Plant, mid: Plant, next: Time -> Time, candidates: seq<ScheduleId>,
             choice: ScheduleId -> Choice, at: Time, n: nat)
    requires n < |candidates| && Differ(candidates, choice)
    requires Processed(before, mid, next, candidates, choice, at, n)
    ensures
      var sid, c := candidates[n], choice(candidates[n]);
      && Processed(before, ProcessSchedule(mid, next, sid, c.j, c.priority, c.maxAttempts, at), next, candidates,
                   choice, at, n + 1)
      && sid !in FiringOf(before, next, candidates[..n], choice, at)
      && FiringOf(before, next, candidates[..n + 1], choice, at)
         == FiringOf(before, next, candidates[..n], choice, at)
            + if Fires(mid, next, sid, c.j, c.priority, c.maxAttempts, at) then {sid} else {}
  {
    OneMore(before, mid, next, candidates, choice, at, n);
    NextFiring(before, next, candidates, choice, at, n);
  }

  lemma AllProcessed(before: Plant, after: Plant, next: Time -> Time, candidates: seq<ScheduleId>,
                     choice: ScheduleId -> Choice, at: Time)
    requires Processed(before, after, next, candidates, choice, at, |candidates|)
    ensures FiringOf(before, next, candidates[..|candidates|], choice, at)
            == FiringOf(before, next, candidates, choice, at)
    ensures after.schedules.Keys == before.schedules.Keys && after.fired.Keys == before.fired.Keys
    ensures forall sid :: sid in after.fired ==>
      FiredOnce(before, after, sid, sid in FiringOf(before, next, candidates, choice, at))
  {
    assert candidates[..|candidates|] == candidates;
  }

  // Between two states a schedule fired once, for the occurrence that was next, or did not move.
  ghost predicate FiredOnce(before: Plant, after: Plant, sid: ScheduleId, fired: bool)
    requires sid in before.fired && sid in after.fired && before.schedules.Keys == after.schedules.Keys
  {
    if fired then
      && sid in before.schedules && |after.fired[sid]| == |before.fired[sid]| + 1
      && after.fired[sid][..|before.fired[sid]|] == before.fired[sid]
      && after.fired[sid][|before.fired[sid]|].occurrence == before.schedules[sid].nextRunAt
      && after.schedules[sid].lastRunAt == Some(before.schedules[sid].nextRunAt)
    else
      && after.fired[sid] == before.fired[sid]
      && (sid in before.schedules ==> after.schedules[sid] == before.schedules[sid])
  }
}
