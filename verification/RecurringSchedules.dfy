// Models apps/scheduler/src/scheduling/recurring-schedule-service.ts and cron-calculator.ts on top of
// the job protocol: any number of schedulers, with candidate lists of any age, fire schedules.
module RecurringSchedules {
  import opened Wrappers
  import opened Tables
  import opened Protocol
  import opened Lifecycle
  import opened History
  import opened Keys
  import T = Transactions

  type ScheduleId = nat

  datatype Schedule = Schedule(
    queueId: QueueId,
    createdAt: Time,
    nextRunAt: Time,
    lastRunAt: Option<Time>,
    enabled: bool)

  // An occurrence, the instant at which it was turned into a job, and that job.
  datatype Firing = Firing(occurrence: Time, at: Time, job: JobId)

  datatype Plant = Plant(sys: Sys, schedules: map<ScheduleId, Schedule>, fired: map<ScheduleId, seq<Firing>>)

  datatype Act =
    | AddSchedule(sid: ScheduleId, queueId: QueueId, enabled: bool)
    | Process(sid: ScheduleId, j: JobId, priority: nat, maxAttempts: nat, at: Time)
    | Elsewhere(l: Label)

  // nextCronOccurrence around the parser: an occurrence that does not lie after its base throws.
  function NextCronOccurrence(next: Time -> Time, base: Time): Option<Time> {
    if next(base) <= base then None else Some(next(base))
  }

  // `at` is the transaction's NOW(), taken before it waited for the advisory lock.
  predicate IsDueSchedule(p: Plant, sid: ScheduleId, at: Time) {
    && at <= p.sys.db.now
    && sid in p.schedules && sid in p.fired && p.schedules[sid].enabled && p.schedules[sid].nextRunAt <= at
    && p.schedules[sid].queueId in p.sys.db.queues && !p.sys.db.queues[p.schedules[sid].queueId].archived
  }

  function OccurrenceJob(sid: ScheduleId, row: Schedule, priority: nat, maxAttempts: nat): T.NewJob {
    T.NewJob(row.queueId, priority, true, maxAttempts, RetryColumns(None, None, None, None),
             Some(row.nextRunAt), Some(OccurrenceKey(sid, row.nextRunAt)))
  }

  function Advanced(row: Schedule, nextRunAt: Time): Schedule {
    row.(lastRunAt := Some(row.nextRunAt), nextRunAt := nextRunAt)
  }

  predicate Fires(p: Plant, next: Time -> Time, sid: ScheduleId, j: JobId, priority: nat, maxAttempts: nat, at: Time) {
    && IsDueSchedule(p, sid, at)
    && NextCronOccurrence(next, Max(p.schedules[sid].nextRunAt, p.sys.db.now)).Some?
    && T.CanCreate(p.sys.db, j, OccurrenceJob(sid, p.schedules[sid], priority, maxAttempts))
  }

  // processRecurringSchedule: the advisory lock makes it one step; the row is read inside, so a
  // stale candidate list does no harm; a refused job insert rolls the reservation back.
  function ProcessSchedule(p: Plant, next: Time -> Time, sid: ScheduleId, j: JobId, priority: nat, maxAttempts: nat,
                           at: Time): Plant {
    if Fires(p, next, sid, j, priority, maxAttempts, at) then
      var row := p.schedules[sid];
      var nextRunAt := NextCronOccurrence(next, Max(row.nextRunAt, p.sys.db.now)).value;
      Plant(DoCreate(p.sys, j, OccurrenceJob(sid, row, priority, maxAttempts)),
            p.schedules[sid := Advanced(row, nextRunAt)],
            p.fired[sid := p.fired[sid] + [Firing(row.nextRunAt, p.sys.db.now, j)]])
    else p
  }

  function Do(p: Plant, next: Time -> Time, a: Act): Plant {
    match a
    case AddSchedule(sid, queueId, enabled) =>
      if sid in p.schedules || queueId !in p.sys.db.queues || p.sys.db.queues[queueId].archived then p
      else p.(schedules := p.schedules[sid := Schedule(queueId, p.sys.db.now, next(p.sys.db.now), None, enabled)],
              fired := p.fired[sid := []])
    case Process(sid, j, priority, maxAttempts, at) => ProcessSchedule(p, next, sid, j, priority, maxAttempts, at)
    case Elsewhere(l) => p.(sys := Apply(p.sys, l))
  }

  function Operate(next: Time -> Time, acts: seq<Act>): Plant {
    if acts == [] then Plant(INITIAL, map[], map[])
    else Do(Operate(next, acts[..|acts| - 1]), next, acts[|acts| - 1])
  }

  // The job a firing creates is queued and due at once, and for want of retry columns any retry of
  // it is due at once too.
  lemma FiredJob(p: Plant, next: Time -> Time, sid: ScheduleId, j: JobId, priority: nat, maxAttempts: nat,
                 at: Time, attempt: nat,
                 roll: nat)
    requires Fires(p, next, sid, j, priority, maxAttempts, at) && p.sys.db.now <= MAX_DATE
    ensures
      var p' := ProcessSchedule(p, next, sid, j, priority, maxAttempts, at);
      && j !in p.sys.db.jobs && j in p'.sys.db.jobs && p'.sys.db.ready == p.sys.db.ready + [j]
      && var job := p'.sys.db.jobs[j];
      && job.status.Queued? && job.scheduledAt == Some(p.schedules[sid].nextRunAt) && IsDue(job, p.sys.db.now)
      && job.priority == priority && job.maxAttempts == maxAttempts && job.attemptCount == 0
      && RetryInstant(job.(attemptCount := attempt), p.sys.db.now, roll) == Some(p.sys.db.now)
  {
  }

  // ---- cron as a set of instants ----

  ghost predicate IsNext(instants: iset<Time>, base: Time, n: Time) {
    n in instants && base < n && forall u :: u in instants && base < u ==> n <= u
  }

  // The parser returns the least instant after its base.
  ghost predicate IsCron(instants: iset<Time>, next: Time -> Time) {
    forall t :: IsNext(instants, t, next(t))
  }

  function LastBase(row: Schedule, fired: seq<Firing>): Time {
    if fired == [] then row.createdAt else fired[|fired| - 1].at
  }

  // c was fired, or was skipped because an occurrence o <= c was turned into a job at or after c.
  ghost predicate Accounted(fired: seq<Firing>, c: Time) {
    exists i :: 0 <= i < |fired| && fired[i].occurrence <= c <= fired[i].at
  }

  ghost predicate Increasing(fired: seq<Firing>) {
    && (forall i :: 0 <= i < |fired| ==> fired[i].occurrence <= fired[i].at)
    && (forall i, k :: 0 <= i < k < |fired| ==> fired[i].at < fired[k].occurrence)
  }

  ghost predicate Covered(instants: iset<Time>, row: Schedule, fired: seq<Firing>) {
    forall c :: c in instants && row.createdAt < c <= LastBase(row, fired) ==> Accounted(fired, c)
  }

  ghost predicate ScheduleOk(instants: iset<Time>, row: Schedule, fired: seq<Firing>, now: Time) {
    && row.createdAt <= LastBase(row, fired) <= now
    && Increasing(fired)
    && (forall i :: 0 <= i < |fired| ==> fired[i].occurrence in instants && row.createdAt < fired[i].occurrence)
    && (forall i :: 0 <= i < |fired| ==> fired[i].at <= LastBase(row, fired))
    && IsNext(instants, LastBase(row, fired), row.nextRunAt)
    && row.lastRunAt == (if fired == [] then None else Some(fired[|fired| - 1].occurrence))
    && Covered(instants, row, fired)
  }

  lemma FiringCovers(instants: iset<Time>, row: Schedule, fired: seq<Firing>, firing: Firing, n: Time)
    requires Covered(instants, row, fired) && IsNext(instants, LastBase(row, fired), firing.occurrence)
    ensures Covered(instants, Advanced(row, n), fired + [firing])
  {
    var fired' := fired + [firing];
    forall c | c in instants && row.createdAt < c <= firing.at
      ensures Accounted(fired', c)
    {
      if c <= LastBase(row, fired) {
        var i :| 0 <= i < |fired| && fired[i].occurrence <= c <= fired[i].at;
        assert fired'[i] == fired[i];
      } else {
        assert fired'[|fired|] == firing;
      }
    }
  }

  lemma FiringIncreases(instants: iset<Time>, row: Schedule, fired: seq<Firing>, firing: Firing)
    requires ScheduleOk(instants, row, fired, firing.at) && row.nextRunAt == firing.occurrence <= firing.at
    ensures Increasing(fired + [firing])
  {
    var fired' := fired + [firing];
    forall i, k | 0 <= i < k < |fired'|
      ensures fired'[i].at < fired'[k].occurrence
    {
      assert fired'[i] == fired[i];
      if k < |fired| {
        assert fired'[k] == fired[k];
      }
    }
  }

  lemma FiringIsLater(instants: iset<Time>, row: Schedule, fired: seq<Firing>, firing: Firing)
    requires ScheduleOk(instants, row, fired, firing.at) && row.nextRunAt == firing.occurrence <= firing.at
    ensures
      var fired' := fired + [firing];
      forall i :: 0 <= i < |fired'| ==>
        fired'[i].occurrence in instants && row.createdAt < fired'[i].occurrence && fired'[i].at <= firing.at
  {
    var fired' := fired + [firing];
    forall i | 0 <= i < |fired'|
      ensures fired'[i].occurrence in instants && row.createdAt < fired'[i].occurrence && fired'[i].at <= firing.at
    {
      if i < |fired| {
        assert fired'[i] == fired[i];
      }
    }
  }

  lemma FiringKeepsSchedule(instants: iset<Time>, row: Schedule, fired: seq<Firing>, firing: Firing, n: Time)
    requires ScheduleOk(instants, row, fired, firing.at) && row.nextRunAt == firing.occurrence <= firing.at
    requires IsNext(instants, firing.at, n)
    ensures ScheduleOk(instants, Advanced(row, n), fired + [firing], firing.at)
  {
    FiringCovers(instants, row, fired, firing, n);
    FiringIncreases(instants, row, fired, firing);
    FiringIsLater(instants, row, fired, firing);
  }

  // What an act does to the job tables: nothing, a job creation, or a step of the protocol.
  lemma ActSteps(p: Plant, next: Time -> Time, a: Act) returns (newcomer: Option<ExecId>)
    requires Inv(p.sys)
    ensures Step(p.sys, Do(p, next, a).sys, newcomer) && OneBirth(p.sys, Do(p, next, a).sys)
  {
    newcomer := None;
    match a
    case AddSchedule(_, _, _) => IdleSteps(p.sys, p.sys);
    case Process(sid, j, priority, maxAttempts, at) =>
      if Fires(p, next, sid, j, priority, maxAttempts, at) {
        CreateSteps(p.sys, j, OccurrenceJob(sid, p.schedules[sid], priority, maxAttempts));
      } else {
        IdleSteps(p.sys, p.sys);
      }
    case Elsewhere(l) =>
      newcomer := LabelStepsOnce(p.sys, l);
  }

  // ---- the invariant of every run ----

  ghost predicate SchedulesOk(instants: iset<Time>, p: Plant) {
    && p.schedules.Keys == p.fired.Keys
    && forall sid :: sid in p.schedules ==> ScheduleOk(instants, p.schedules[sid], p.fired[sid], p.sys.db.now)
  }

  ghost predicate FiringsOk(db: Db, sid: ScheduleId, q: QueueId, fired: seq<Firing>) {
    forall i :: 0 <= i < |fired| ==> Keyed(db, fired[i].job, q, OccurrenceKey(sid, fired[i].occurrence))
  }

  ghost predicate AllFiringsOk(p: Plant) {
    forall sid :: sid in p.schedules && sid in p.fired ==>
      FiringsOk(p.sys.db, sid, p.schedules[sid].queueId, p.fired[sid])
  }

  lemma ScheduleKeptLater(instants: iset<Time>, row: Schedule, fired: seq<Firing>, now: Time, later: Time)
    requires ScheduleOk(instants, row, fired, now) && now <= later
    ensures ScheduleOk(instants, row, fired, later)
  {
  }

  lemma FreshScheduleOk(instants: iset<Time>, queueId: QueueId, now: Time, enabled: bool, n: Time)
    requires IsNext(instants, now, n)
    ensures ScheduleOk(instants, Schedule(queueId, now, n, None, enabled), [], now)
  {
  }

  lemma ProcessKeepsSchedule(instants: iset<Time>, p: Plant, next: Time -> Time, a: Act, sid: ScheduleId)
    requires IsCron(instants, next) && a.Process? && sid in p.schedules && sid in p.fired
    requires ScheduleOk(instants, p.schedules[sid], p.fired[sid], p.sys.db.now)
    ensures
      var p' := ProcessSchedule(p, next, a.sid, a.j, a.priority, a.maxAttempts, a.at);
      sid in p'.schedules && sid in p'.fired && ScheduleOk(instants, p'.schedules[sid], p'.fired[sid], p.sys.db.now)
  {
    var now := p.sys.db.now;
    if a.sid == sid && Fires(p, next, sid, a.j, a.priority, a.maxAttempts, a.at) {
      assert IsNext(instants, now, next(now));
      var firing := Firing(p.schedules[sid].nextRunAt, now, a.j);
      FiringKeepsSchedule(instants, p.schedules[sid], p.fired[sid], firing, next(now));
    }
  }

  lemma ActKeepsSchedule(instants: iset<Time>, p: Plant, next: Time -> Time, a: Act, sid: ScheduleId)
    requires IsCron(instants, next) && p.schedules.Keys == p.fired.Keys
    requires sid in p.schedules ==> ScheduleOk(instants, p.schedules[sid], p.fired[sid], p.sys.db.now)
    requires !a.Elsewhere? && sid in Do(p, next, a).schedules
    ensures ScheduleOk(instants, Do(p, next, a).schedules[sid], Do(p, next, a).fired[sid], p.sys.db.now)
  {
    if sid !in p.schedules {
      assert IsNext(instants, p.sys.db.now, next(p.sys.db.now));
      FreshScheduleOk(instants, a.queueId, p.sys.db.now, a.enabled, next(p.sys.db.now));
    } else if a.Process? {
      ProcessKeepsSchedule(instants, p, next, a, sid);
    }
  }

  lemma SchedulesKeptLater(instants: iset<Time>, p: Plant, sys: Sys)
    requires SchedulesOk(instants, p) && p.sys.db.now <= sys.db.now
    ensures SchedulesOk(instants, p.(sys := sys))
  {
    forall sid | sid in p.schedules
      ensures ScheduleOk(instants, p.schedules[sid], p.fired[sid], sys.db.now)
    {
      ScheduleKeptLater(instants, p.schedules[sid], p.fired[sid], p.sys.db.now, sys.db.now);
    }
  }

  lemma SchedulerKeepsSchedules(instants: iset<Time>, p: Plant, next: Time -> Time, a: Act)
    requires IsCron(instants, next) && SchedulesOk(instants, p) && !a.Elsewhere?
    ensures SchedulesOk(instants, Do(p, next, a))
  {
    var p' := Do(p, next, a);
    assert p'.schedules.Keys == p'.fired.Keys && p'.sys.db.now == p.sys.db.now;
    forall sid | sid in p'.schedules
      ensures ScheduleOk(instants, p'.schedules[sid], p'.fired[sid], p.sys.db.now)
    {
      ActKeepsSchedule(instants, p, next, a, sid);
    }
  }

  lemma ActKeepsSchedules(instants: iset<Time>, p: Plant, next: Time -> Time, a: Act)
    requires IsCron(instants, next) && SchedulesOk(instants, p) && p.sys.db.now <= Do(p, next, a).sys.db.now
    ensures SchedulesOk(instants, Do(p, next, a))
  {
    if a.Elsewhere? {
      SchedulesKeptLater(instants, p, Apply(p.sys, a.l));
    } else {
      SchedulerKeepsSchedules(instants, p, next, a);
    }
  }

  lemma FiringsKept(s: Sys, t: Sys, newcomer: Option<ExecId>, sid: ScheduleId, q: QueueId, fired: seq<Firing>)
    requires Step(s, t, newcomer) && FiringsOk(s.db, sid, q, fired)
    ensures FiringsOk(t.db, sid, q, fired)
  {
    forall i | 0 <= i < |fired|
      ensures Keyed(t.db, fired[i].job, q, OccurrenceKey(sid, fired[i].occurrence))
    {
      KeysKept(s, t, newcomer, fired[i].job, q, OccurrenceKey(sid, fired[i].occurrence));
    }
  }

  lemma ActKeepsFirings(p: Plant, next: Time -> Time, a: Act, newcomer: Option<ExecId>)
    requires AllFiringsOk(p) && p.schedules.Keys == p.fired.Keys
    requires Step(p.sys, Do(p, next, a).sys, newcomer)
    ensures AllFiringsOk(Do(p, next, a))
  {
    var p' := Do(p, next, a);
    forall sid | sid in p'.schedules && sid in p'.fired
      ensures FiringsOk(p'.sys.db, sid, p'.schedules[sid].queueId, p'.fired[sid])
    {
      if sid in p.schedules {
        FiringsKept(p.sys, p'.sys, newcomer, sid, p.schedules[sid].queueId, p.fired[sid]);
      }
    }
  }

  ghost predicate PlantOk(instants: iset<Time>, p: Plant) {
    Inv(p.sys) && SchedulesOk(instants, p) && AllFiringsOk(p) && KeysUnique(p.sys.db)
  }

  lemma {:induction false} OperateKeeps(instants: iset<Time>, next: Time -> Time, acts: seq<Act>)
    requires IsCron(instants, next)
    ensures PlantOk(instants, Operate(next, acts))
  {
    if acts != [] {
      var p, a := Operate(next, acts[..|acts| - 1]), acts[|acts| - 1];
      OperateKeeps(instants, next, acts[..|acts| - 1]);
      var newcomer := ActSteps(p, next, a);
      StepKeepsInv(p.sys, Do(p, next, a).sys, newcomer);
      StepKeepsKeysUnique(p.sys, Do(p, next, a).sys, newcomer);
      ActKeepsSchedules(instants, p, next, a);
      ActKeepsFirings(p, next, a, newcomer);
    }
  }

  ghost predicate Accounts(instants: iset<Time>, row: Schedule, fired: seq<Firing>, now: Time) {
    && (forall i :: 0 <= i < |fired| ==>
          fired[i].occurrence in instants && row.createdAt < fired[i].occurrence <= fired[i].at <= now)
    && (forall i, k :: 0 <= i < k < |fired| ==> fired[i].occurrence <= fired[i].at < fired[k].occurrence)
    && (forall c, k :: c in instants && 0 <= k < |fired| && row.createdAt < c <= fired[k].at ==> Accounted(fired, c))
    && (forall c :: c in instants && LastBase(row, fired) < c ==> row.nextRunAt <= c)
  }

  ghost predicate OneJobEach(db: Db, sid: ScheduleId, q: QueueId, fired: seq<Firing>) {
    forall i, j :: 0 <= i < |fired| ==>
      (Keyed(db, j, q, OccurrenceKey(sid, fired[i].occurrence)) <==> j == fired[i].job)
  }

  lemma ScheduleAccounts(instants: iset<Time>, row: Schedule, fired: seq<Firing>, now: Time)
    requires ScheduleOk(instants, row, fired, now)
    ensures Accounts(instants, row, fired, now)
  {
  }

  // Cron accounting, over every run of any number of schedulers, workers and API callers: the
  // fired occurrences of a schedule are cron instants after its creation that strictly increase;
  // each is fired no earlier than it was due and has exactly one job, ever; every cron instant
  // after creation and up to the last firing was fired or lies between an occurrence and the
  // instant that occurrence was fired; and no instant is fired twice.
  lemma {:induction false} CronAccounting(instants: iset<Time>, next: Time -> Time, acts: seq<Act>, sid: ScheduleId)
    requires IsCron(instants, next) && sid in Operate(next, acts).schedules
    ensures
      var p := Operate(next, acts);
      && sid in p.fired
      && Accounts(instants, p.schedules[sid], p.fired[sid], p.sys.db.now)
      && OneJobEach(p.sys.db, sid, p.schedules[sid].queueId, p.fired[sid])
  {
    OperateKeeps(instants, next, acts);
    var p := Operate(next, acts);
    ScheduleAccounts(instants, p.schedules[sid], p.fired[sid], p.sys.db.now);
    assert FiringsOk(p.sys.db, sid, p.schedules[sid].queueId, p.fired[sid]);
  }
}
