// When a due schedule fires, when it never will again, and what such schedules do to the others.
module DueSchedules {
  import opened Wrappers
  import opened Tables
  import opened Protocol
  import opened Lifecycle
  import opened Capacity
  import opened Keys
  import opened Pages
  import opened RecurringSchedules
  import T = Transactions

  // The key of the schedule's next occurrence is in use in its queue.
  predicate NextKeyTaken(p: Plant, sid: ScheduleId)
    requires sid in p.schedules
  {
    T.KeyTaken(p.sys.db, p.schedules[sid].queueId, OccurrenceKey(sid, p.schedules[sid].nextRunAt))
  }

  // When a schedule is due, in the columns of the two rows.
  lemma DueInColumns(p: Plant, sid: ScheduleId, at: Time)
    requires p.schedules.Keys == p.fired.Keys
    ensures
      IsDueSchedule(p, sid, at) <==>
      && sid in p.schedules && p.schedules[sid].enabled && p.schedules[sid].nextRunAt <= at <= p.sys.db.now
      && p.schedules[sid].queueId in p.sys.db.queues && !p.sys.db.queues[p.schedules[sid].queueId].archived
  {
  }

  // A schedule is made for a live queue, and waits for the first cron instant after now.
  lemma AddedSchedule(p: Plant, next: Time -> Time, sid: ScheduleId, queueId: QueueId, enabled: bool)
    requires sid !in p.schedules && queueId in p.sys.db.queues
    ensures
      Do(p, next, AddSchedule(sid, queueId, enabled))
      == if p.sys.db.queues[queueId].archived then p
         else Plant(p.sys,
                    p.schedules[sid := Schedule(queueId, p.sys.db.now, next(p.sys.db.now), None, enabled)],
                    p.fired[sid := []])
  {
  }

  // A due schedule fires exactly when no job of its queue carries the key of its next occurrence,
  // whoever wrote that key: keys of callers are free text.
  lemma FiresExactly(instants: iset<Time>, next: Time -> Time, acts: seq<Act>, sid: ScheduleId, j: JobId,
                     priority: nat, maxAttempts: nat, at: Time)
    requires IsCron(instants, next) && j !in Operate(next, acts).sys.db.jobs && maxAttempts >= 1
    ensures
      var p := Operate(next, acts);
      Fires(p, next, sid, j, priority, maxAttempts, at) <==> IsDueSchedule(p, sid, at) && !NextKeyTaken(p, sid)
  {
    var now := Operate(next, acts).sys.db.now;
    assert IsNext(instants, now, next(now));
  }

  // ---- schedules that never fire again ----

  // Disabled, in an archived queue, or with its next occurrence's key in use.
  predicate Dead(p: Plant, sid: ScheduleId) {
    && sid in p.schedules && sid in p.fired
    && (!p.schedules[sid].enabled || QueueArchived(p.sys.db, p.schedules[sid].queueId) || NextKeyTaken(p, sid))
  }

  lemma KeyStaysTaken(s: Sys, t: Sys, newcomer: Option<ExecId>, q: QueueId, key: Key)
    requires Step(s, t, newcomer) && T.KeyTaken(s.db, q, key)
    ensures T.KeyTaken(t.db, q, key)
  {
    var j :| j in s.db.jobs && Keyed(s.db, j, q, key);
    KeysKept(s, t, newcomer, j, q, key);
  }

  ghost predicate SameSchedule(p: Plant, p': Plant, sid: ScheduleId)
    requires sid in p.schedules && sid in p.fired
  {
    && sid in p'.schedules && sid in p'.fired
    && p'.schedules[sid] == p.schedules[sid] && p'.fired[sid] == p.fired[sid]
  }

  lemma DeadDoesNotFire(p: Plant, next: Time -> Time, a: Act, sid: ScheduleId)
    requires Dead(p, sid)
    ensures SameSchedule(p, Do(p, next, a), sid)
  {
  }

  lemma DeadAct(p: Plant, next: Time -> Time, a: Act, sid: ScheduleId)
    requires Inv(p.sys) && Dead(p, sid)
    ensures SameSchedule(p, Do(p, next, a), sid) && Dead(Do(p, next, a), sid)
  {
    DeadDoesNotFire(p, next, a, sid);
    var newcomer := ActSteps(p, next, a);
    var q := p.schedules[sid].queueId;
    if NextKeyTaken(p, sid) {
      KeyStaysTaken(p.sys, Do(p, next, a).sys, newcomer, q, OccurrenceKey(sid, p.schedules[sid].nextRunAt));
    } else if QueueArchived(p.sys.db, q) {
      if a.Elsewhere? {
        ArchivedStays(p.sys, a.l, q);
      }
    }
  }

  lemma OperateSnoc(next: Time -> Time, acts: seq<Act>, more: seq<Act>)
    requires more != []
    ensures Operate(next, acts + more) == Do(Operate(next, acts + more[..|more| - 1]), next, more[|more| - 1])
  {
    assert (acts + more)[..|acts + more| - 1] == acts + more[..|more| - 1];
  }

  lemma OneAct(next: Time -> Time, acts: seq<Act>, a: Act)
    ensures Operate(next, acts + [a]) == Do(Operate(next, acts), next, a)
  {
    OperateSnoc(next, acts, [a]);
    assert [a][..0] == [] && acts + [] == acts;
  }

  // Whatever anybody does, such a schedule keeps its row, its due instant included, for ever.
  lemma {:induction false} DeadStays(instants: iset<Time>, next: Time -> Time, acts: seq<Act>, more: seq<Act>,
                                     sid: ScheduleId)
    requires IsCron(instants, next) && Dead(Operate(next, acts), sid)
    ensures SameSchedule(Operate(next, acts), Operate(next, acts + more), sid)
    ensures Dead(Operate(next, acts + more), sid)
  {
    if more == [] {
      assert acts + more == acts;
    } else {
      var front := more[..|more| - 1];
      DeadStays(instants, next, acts, front, sid);
      OperateKeeps(instants, next, acts + front);
      OperateSnoc(next, acts, more);
      DeadAct(Operate(next, acts + front), next, more[|more| - 1], sid);
    }
  }

  lemma QueuesStay(s: Sys, l: Label, q: QueueId)
    requires q in s.db.queues
    ensures q in Apply(s, l).db.queues
  {
    if !l.PutQueue? {
      OthersKeepQueues(s, l);
    }
  }

  lemma ActKeepsQueues(p: Plant, next: Time -> Time, a: Act, q: QueueId)
    requires q in p.sys.db.queues
    ensures q in Do(p, next, a).sys.db.queues
  {
    if a.Elsewhere? {
      QueuesStay(p.sys, a.l, q);
    }
  }

  lemma QueueOfSchedule(p: Plant, next: Time -> Time, a: Act, sid: ScheduleId)
    requires sid in Do(p, next, a).schedules && sid !in p.schedules
    ensures Do(p, next, a).schedules[sid].queueId in p.sys.db.queues
  {
  }

  lemma QueueIsKept(p: Plant, next: Time -> Time, a: Act, sid: ScheduleId)
    requires sid in p.schedules
    ensures sid in Do(p, next, a).schedules && Do(p, next, a).schedules[sid].queueId == p.schedules[sid].queueId
  {
  }

  lemma {:induction false} ScheduledQueuesExist(next: Time -> Time, acts: seq<Act>, sid: ScheduleId)
    requires sid in Operate(next, acts).schedules
    ensures Operate(next, acts).schedules[sid].queueId in Operate(next, acts).sys.db.queues
  {
    if acts != [] {
      var p, a := Operate(next, acts[..|acts| - 1]), acts[|acts| - 1];
      if sid in p.schedules {
        ScheduledQueuesExist(next, acts[..|acts| - 1], sid);
        QueueIsKept(p, next, a, sid);
      } else {
        QueueOfSchedule(p, next, a, sid);
      }
      ActKeepsQueues(p, next, a, Do(p, next, a).schedules[sid].queueId);
    }
  }

  // Some later act fires the schedule.
  ghost predicate FiresIn(next: Time -> Time, acts: seq<Act>, more: seq<Act>, sid: ScheduleId) {
    && sid in Operate(next, acts).fired && sid in Operate(next, acts + more).fired
    && Operate(next, acts + more).fired[sid] != Operate(next, acts).fired[sid]
  }

  // Once it is due, a schedule that is not dead fires in the next act.
  lemma FiresNow(instants: iset<Time>, next: Time -> Time, acts: seq<Act>, sid: ScheduleId) returns (fire: Act)
    requires IsCron(instants, next) && sid in Operate(next, acts).schedules && !Dead(Operate(next, acts), sid)
    requires Operate(next, acts).schedules[sid].nextRunAt <= Operate(next, acts).sys.db.now
    ensures FiresIn(next, acts, [fire], sid)
  {
    var p := Operate(next, acts);
    var j := FreshFor(p.sys.db.jobs.Keys);
    fire := Process(sid, j, 0, 1, p.sys.db.now);
    OperateKeeps(instants, next, acts);
    ScheduledQueuesExist(next, acts, sid);
    FiresExactly(instants, next, acts, sid, j, 0, 1, p.sys.db.now);
    OneAct(next, acts, fire);
    assert |Do(p, next, fire).fired[sid]| == |p.fired[sid]| + 1;
  }

  lemma WaitingChangesNothing(next: Time -> Time, acts: seq<Act>, elapsed: nat)
    ensures
      var p, p' := Operate(next, acts), Operate(next, acts + [Elsewhere(Tick(elapsed))]);
      && p'.schedules == p.schedules && p'.fired == p.fired && p'.sys.db == p.sys.db.(now := p.sys.db.now + elapsed)
  {
    OneAct(next, acts, Elsewhere(Tick(elapsed)));
  }

  lemma WaitAndFire(instants: iset<Time>, next: Time -> Time, acts: seq<Act>, sid: ScheduleId)
    requires IsCron(instants, next) && sid in Operate(next, acts).schedules && sid in Operate(next, acts).fired
    requires !Dead(Operate(next, acts), sid)
    ensures exists more :: FiresIn(next, acts, more, sid)
  {
    var p := Operate(next, acts);
    var elapsed := Max(0, p.schedules[sid].nextRunAt - p.sys.db.now);
    var wait := Elsewhere(Tick(elapsed));
    WaitingChangesNothing(next, acts, elapsed);
    var fire := FiresNow(instants, next, acts + [wait], sid);
    assert acts + [wait] + [fire] == acts + [wait, fire];
    assert FiresIn(next, acts, [wait, fire], sid);
  }

  // A schedule fires again some day if and only if it is enabled, its queue is not archived and the
  // key of its next occurrence is free.
  lemma FiresAgainExactly(instants: iset<Time>, next: Time -> Time, acts: seq<Act>, sid: ScheduleId)
    requires IsCron(instants, next) && sid in Operate(next, acts).schedules
    ensures (exists more :: FiresIn(next, acts, more, sid)) <==> !Dead(Operate(next, acts), sid)
  {
    OperateKeeps(instants, next, acts);
    if Dead(Operate(next, acts), sid) {
      forall more
        ensures !FiresIn(next, acts, more, sid)
      {
        DeadStays(instants, next, acts, more, sid);
      }
    } else {
      WaitAndFire(instants, next, acts, sid);
    }
  }

  const LIVE := Queue(true, false, 1)

  // The three acts of a caller that knows the schedule's id and its next instant.
  function CallersKey(next: Time -> Time): seq<Act> {
    [Elsewhere(PutQueue(0, LIVE)), AddSchedule(0, 0, true),
     Elsewhere(Create(0, T.NewJob(0, 0, true, 1, RetryColumns(None, None, None, None), None,
                                  Some(OccurrenceKey(0, next(0))))))]
  }

  lemma ThreeActs(next: Time -> Time, acts: seq<Act>) returns (p: Plant)
    requires |acts| == 3
    ensures
      p == Operate(next, acts)
      && p == Do(Do(Do(Plant(INITIAL, map[], map[]), next, acts[0]), next, acts[1]), next, acts[2])
  {
    assert acts[..2][..1][..0] == [] && acts[..2][..1] == acts[..1];
    assert Operate(next, []) == Plant(INITIAL, map[], map[]);
    assert Operate(next, acts[..1]) == Do(Operate(next, []), next, acts[0]);
    assert Operate(next, acts[..2]) == Do(Operate(next, acts[..1]), next, acts[1]);
    p := Operate(next, acts);
  }

  // A job created with the schedule's next occurrence as its key stops the schedule for good: it is
  // enabled, its queue is live, and it never fires.
  lemma CallersKeyStopsSchedule(instants: iset<Time>, next: Time -> Time)
    requires IsCron(instants, next)
    ensures
      var p := Operate(next, CallersKey(next));
      && 0 in p.schedules && 0 in p.fired && p.schedules[0].enabled && p.fired[0] == []
      && 0 in p.sys.db.queues && !p.sys.db.queues[0].archived && NextKeyTaken(p, 0)
      && forall more :: !FiresIn(next, CallersKey(next), more, 0)
  {
    var acts := CallersKey(next);
    var p := ThreeActs(next, acts);
    assert Keyed(p.sys.db, 0, 0, OccurrenceKey(0, next(0)));
    FiresAgainExactly(instants, next, acts, 0);
  }

  // ---- what they do to the others ----

  // The rows the candidate query looks at; it does not ask whether the queue is archived.
  function DueRows(p: Plant, at: Time): set<ScheduleId> {
    set sid | sid in p.schedules && p.schedules[sid].enabled && p.schedules[sid].nextRunAt <= at
  }

  function NextRun(p: Plant): nat -> Time {
    sid => if sid in p.schedules then p.schedules[sid].nextRunAt else 0
  }

  lemma {:induction false} DeadOnesStay(instants: iset<Time>, next: Time -> Time, acts: seq<Act>, more: seq<Act>,
                                        dead: set<ScheduleId>)
    requires IsCron(instants, next)
    requires forall d :: d in dead ==> Dead(Operate(next, acts), d) && Operate(next, acts).schedules[d].enabled
    ensures
      var p, p' := Operate(next, acts), Operate(next, acts + more);
      forall d :: d in dead ==> d in p.schedules && d in p'.schedules && p'.schedules[d] == p.schedules[d]
  {
    forall d | d in dead
      ensures d in Operate(next, acts + more).schedules
      ensures Operate(next, acts + more).schedules[d] == Operate(next, acts).schedules[d]
    {
      DeadStays(instants, next, acts, more, d);
    }
  }

  // Enabled schedules that never fire again keep the first places of the candidate query: as many of
  // them as a batch holds keep every schedule with a later due instant out of it, for ever.
  lemma DeadSchedulesBlock(instants: iset<Time>, next: Time -> Time, acts: seq<Act>, more: seq<Act>,
                           dead: set<ScheduleId>, batchSize: nat, at: Time, page: seq<ScheduleId>, sid: ScheduleId)
    requires IsCron(instants, next) && batchSize <= |dead|
    requires forall d :: d in dead ==> Dead(Operate(next, acts), d) && Operate(next, acts).schedules[d].enabled
    requires IsPage(DueRows(Operate(next, acts + more), at), NextRun(Operate(next, acts + more)), batchSize, page)
    requires forall d :: d in dead ==> InOrder(NextRun(Operate(next, acts + more)), d, sid)
    ensures sid !in page
  {
    DeadOnesStay(instants, next, acts, more, dead);
    var p := Operate(next, acts + more);
    if sid in DueRows(p, at) {
      assert dead <= DueRows(p, at);
      CrowdedOut(DueRows(p, at), NextRun(p), batchSize, page, dead, sid);
    }
  }

  // The schedules `ids` of queue 0, all made at instant 0.
  predicate OneQueue(p: Plant, next: Time -> Time, ids: set<ScheduleId>) {
    && p.sys.db.queues == map[0 := LIVE] && p.sys.db.now == 0 && p.schedules.Keys == ids && p.fired.Keys == ids
    && forall sid :: sid in ids ==> p.schedules[sid] == Schedule(0, 0, next(0), None, true)
  }

  lemma NoSchedulesYet(next: Time -> Time)
    ensures OneQueue(Operate(next, [Elsewhere(PutQueue(0, LIVE))]), next, {})
  {
    OneAct(next, [], Elsewhere(PutQueue(0, LIVE)));
    assert [] + [Elsewhere(PutQueue(0, LIVE))] == [Elsewhere(PutQueue(0, LIVE))];
  }

  lemma OneMoreSchedule(p: Plant, next: Time -> Time, ids: set<ScheduleId>, sid: ScheduleId)
    requires OneQueue(p, next, ids) && sid !in ids
    ensures OneQueue(Do(p, next, AddSchedule(sid, 0, true)), next, ids + {sid})
  {
  }

  lemma {:induction false} MakesSchedules(next: Time -> Time, n: nat) returns (acts: seq<Act>, ids: set<ScheduleId>)
    ensures |ids| == n && OneQueue(Operate(next, acts), next, ids)
  {
    if n == 0 {
      NoSchedulesYet(next);
      acts, ids := [Elsewhere(PutQueue(0, LIVE))], {};
    } else {
      var before, others := MakesSchedules(next, n - 1);
      var sid := FreshFor(others);
      OneAct(next, before, AddSchedule(sid, 0, true));
      OneMoreSchedule(Operate(next, before), next, others, sid);
      acts, ids := before + [AddSchedule(sid, 0, true)], others + {sid};
    }
  }

  // A batch offers a schedule that is due later than the first instant after 0.
  ghost predicate OffersLater(next: Time -> Time, acts: seq<Act>, batchSize: nat, at: Time, page: seq<ScheduleId>,
                              sid: ScheduleId) {
    var p := Operate(next, acts);
    IsPage(DueRows(p, at), NextRun(p), batchSize, page) && sid in page && NextRun(p)(sid) > next(0)
  }

  // Archiving one queue with as many schedules as a batch holds stops the schedules of all queues: from
  // then on no batch offers one whose instant comes later.
  lemma ArchivingStopsCron(instants: iset<Time>, next: Time -> Time, batchSize: nat) returns (acts: seq<Act>)
    requires IsCron(instants, next)
    ensures |Operate(next, acts).schedules| == batchSize
    ensures forall more, at, page, sid :: !OffersLater(next, acts + more, batchSize, at, page, sid)
  {
    var before, ids := MakesSchedules(next, batchSize);
    var archive := Elsewhere(PutQueue(0, Queue(true, true, 1)));
    acts := before + [archive];
    OneAct(next, before, archive);
    var p := Operate(next, acts);
    assert p.schedules.Keys == ids;
    assert forall d :: d in ids ==> Dead(p, d) && p.schedules[d].enabled;
    forall more, at, page, sid
      ensures !OffersLater(next, acts + more, batchSize, at, page, sid)
    {
      if OffersLater(next, acts + more, batchSize, at, page, sid) {
        DeadOnesStay(instants, next, acts, more, ids);
        DeadSchedulesBlock(instants, next, acts, more, ids, batchSize, at, page, sid);
      }
    }
  }

  // ---- who takes the keys ----

  // A caller creates a job of queue q with this key.
  predicate Writes(a: Act, q: QueueId, key: Key) {
    a.Elsewhere? && a.l.Create? && a.l.input.queueId == q && a.l.input.idempotencyKey == Some(key)
  }

  predicate WrittenByCaller(acts: seq<Act>, q: QueueId, key: Key) {
    exists i :: 0 <= i < |acts| && Writes(acts[i], q, key)
  }

  ghost predicate HasFired(p: Plant, sid: ScheduleId, occurrence: Time) {
    sid in p.fired && exists i :: 0 <= i < |p.fired[sid]| && p.fired[sid][i].occurrence == occurrence
  }

  // An occurrence key is in use only for an occurrence that has been fired, or for a caller's job.
  ghost predicate KeysExplained(p: Plant, acts: seq<Act>) {
    forall j, q, sid, o :: Keyed(p.sys.db, j, q, OccurrenceKey(sid, o)) ==>
      HasFired(p, sid, o) || WrittenByCaller(acts, q, OccurrenceKey(sid, o))
  }

  lemma FiringsOnlyGrow(p: Plant, next: Time -> Time, a: Act, sid: ScheduleId, o: Time)
    requires HasFired(p, sid, o) && p.schedules.Keys == p.fired.Keys
    ensures HasFired(Do(p, next, a), sid, o)
  {
    var i :| 0 <= i < |p.fired[sid]| && p.fired[sid][i].occurrence == o;
    assert Do(p, next, a).fired[sid][i].occurrence == o;
  }

  lemma WritingsOnlyGrow(acts: seq<Act>, a: Act, q: QueueId, key: Key)
    requires WrittenByCaller(acts, q, key)
    ensures WrittenByCaller(acts + [a], q, key)
  {
    var i :| 0 <= i < |acts| && Writes(acts[i], q, key);
    assert Writes((acts + [a])[i], q, key);
  }

  lemma ActExplainsKey(p: Plant, next: Time -> Time, acts: seq<Act>, a: Act, newcomer: Option<ExecId>, j: JobId,
                       q: QueueId, sid: ScheduleId, o: Time)
    requires KeysExplained(p, acts) && p.schedules.Keys == p.fired.Keys
    requires Step(p.sys, Do(p, next, a).sys, newcomer) && Keyed(Do(p, next, a).sys.db, j, q, OccurrenceKey(sid, o))
    ensures HasFired(Do(p, next, a), sid, o) || WrittenByCaller(acts + [a], q, OccurrenceKey(sid, o))
  {
    var p' := Do(p, next, a);
    if j in p.sys.db.jobs {
      KeysKept(p.sys, p'.sys, newcomer, j, q, OccurrenceKey(sid, o));
      if HasFired(p, sid, o) {
        FiringsOnlyGrow(p, next, a, sid, o);
      } else {
        WritingsOnlyGrow(acts, a, q, OccurrenceKey(sid, o));
      }
    } else if a.Elsewhere? {
      NewRowsAreCreated(p.sys, a.l, j);
      assert Writes((acts + [a])[|acts|], q, OccurrenceKey(sid, o));
    } else {
      assert p'.fired[sid][|p.fired[sid]|].occurrence == o;
    }
  }

  lemma ActExplainsKeys(p: Plant, next: Time -> Time, acts: seq<Act>, a: Act, newcomer: Option<ExecId>)
    requires KeysExplained(p, acts) && p.schedules.Keys == p.fired.Keys
    requires Step(p.sys, Do(p, next, a).sys, newcomer)
    ensures KeysExplained(Do(p, next, a), acts + [a])
  {
    forall j, q, sid, o | Keyed(Do(p, next, a).sys.db, j, q, OccurrenceKey(sid, o))
      ensures HasFired(Do(p, next, a), sid, o) || WrittenByCaller(acts + [a], q, OccurrenceKey(sid, o))
    {
      ActExplainsKey(p, next, acts, a, newcomer, j, q, sid, o);
    }
  }

  lemma {:induction false} KeysAreExplained(instants: iset<Time>, next: Time -> Time, acts: seq<Act>)
    requires IsCron(instants, next)
    ensures KeysExplained(Operate(next, acts), acts)
  {
    if acts != [] {
      var front, a := acts[..|acts| - 1], acts[|acts| - 1];
      var p := Operate(next, front);
      KeysAreExplained(instants, next, front);
      OperateKeeps(instants, next, front);
      var newcomer := ActSteps(p, next, a);
      assert acts == front + [a];
      ActExplainsKeys(p, next, front, a, newcomer);
    }
  }

  lemma FiringIsOld(instants: iset<Time>, row: Schedule, fired: seq<Firing>, now: Time, i: nat)
    requires ScheduleOk(instants, row, fired, now) && i < |fired|
    ensures fired[i].occurrence < row.nextRunAt
  {
  }

  // The schedulers never stand in their own way: in every run, a next occurrence whose key is taken has
  // it from a caller who created a job of that queue with it.
  lemma OnlyCallersTakeKeys(instants: iset<Time>, next: Time -> Time, acts: seq<Act>, sid: ScheduleId)
    requires IsCron(instants, next) && sid in Operate(next, acts).schedules && NextKeyTaken(Operate(next, acts), sid)
    ensures
      var row := Operate(next, acts).schedules[sid];
      WrittenByCaller(acts, row.queueId, OccurrenceKey(sid, row.nextRunAt))
  {
    var p := Operate(next, acts);
    var row := p.schedules[sid];
    OperateKeeps(instants, next, acts);
    KeysAreExplained(instants, next, acts);
    var j :| j in p.sys.db.jobs && Keyed(p.sys.db, j, row.queueId, OccurrenceKey(sid, row.nextRunAt));
    if HasFired(p, sid, row.nextRunAt) {
      var i :| 0 <= i < |p.fired[sid]| && p.fired[sid][i].occurrence == row.nextRunAt;
      FiringIsOld(instants, row, p.fired[sid], p.sys.db.now, i);
    }
  }

  // So, as long as no caller has written the key of its next occurrence, the unique key refuses nothing:
  // a fresh row for an enabled schedule of a live queue is created exactly when it is due.
  lemma DueSchedulesFire(instants: iset<Time>, next: Time -> Time, acts: seq<Act>, sid: ScheduleId, j: JobId,
                         priority: nat, maxAttempts: nat, at: Time)
    requires IsCron(instants, next) && sid in Operate(next, acts).schedules
    requires
      var row := Operate(next, acts).schedules[sid];
      !WrittenByCaller(acts, row.queueId, OccurrenceKey(sid, row.nextRunAt))
    requires j !in Operate(next, acts).sys.db.jobs && maxAttempts >= 1
    ensures Fires(Operate(next, acts), next, sid, j, priority, maxAttempts, at)
            <==> IsDueSchedule(Operate(next, acts), sid, at)
  {
    FiresExactly(instants, next, acts, sid, j, priority, maxAttempts, at);
    if NextKeyTaken(Operate(next, acts), sid) {
      OnlyCallersTakeKeys(instants, next, acts, sid);
    }
  }
}
