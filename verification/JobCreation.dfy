// Models createOne, createJob and createBatch of apps/api/src/jobs/service.ts for every job type but
// CRON.  The identifiers of new rows are chosen by the environment.
module JobCreation {
  import opened Wrappers
  import opened RetryStrategy
  import opened Tables
  import T = Transactions

  datatype JobType = ImmediateJob | DelayedJob | ScheduledJob | BatchJob

  datatype Instant = At(t: Time) | Unparsable

  datatype JobInput = JobInput(
    queueId: QueueId,
    kind: JobType,
    priority: Option<nat>,
    scheduledAt: Option<Instant>,
    key: Option<string>)

  datatype Policy = Policy(strategy: Strategy, maxAttempts: nat, initialDelayMs: int, maxDelayMs: Option<int>)

  datatype QueueConfig = QueueConfig(priority: nat, policy: Option<Policy>)

  type Configs = map<QueueId, QueueConfig>

  datatype Error = InvalidSchedule | Refused | QueueNotFound | QueueArchived | IdempotencyConflict

  datatype Result<+V> = Ok(value: V) | Err(error: Error)

  // ---- one row ----

  function ValidateSchedule(input: JobInput, now: Time): Result<Option<Time>> {
    match input.scheduledAt
    case None => Ok(None)
    case Some(At(t)) => if t <= now then Err(InvalidSchedule) else Ok(Some(t))
    case Some(Unparsable) => Err(InvalidSchedule)
  }

  // Which inputs are meant to be accepted.
  predicate Schedulable(input: JobInput, now: Time) {
    match input.kind
    case ImmediateJob => input.scheduledAt.None?
    case BatchJob => input.scheduledAt.None? || (input.scheduledAt.value.At? && now < input.scheduledAt.value.t)
    case _ => input.scheduledAt.Some? && input.scheduledAt.value.At? && now < input.scheduledAt.value.t
  }

  // The checks of createOne, in its order.
  function ScheduleOf(input: JobInput, now: Time): (r: Result<Option<Time>>)
    ensures r.Ok? <==> Schedulable(input, now)
    ensures r.Err? ==> r.error == InvalidSchedule
    ensures r.Ok? ==> (r.value.Some? <==> input.scheduledAt.Some?)
    ensures r.Ok? && r.value.Some? ==> input.scheduledAt == Some(At(r.value.value)) && now < r.value.value
  {
    var scheduledAt := ValidateSchedule(input, now);
    if scheduledAt.Err? then scheduledAt
    else if input.kind.ImmediateJob? && input.scheduledAt.Some? then Err(InvalidSchedule)
    else if (input.kind.DelayedJob? || input.kind.ScheduledJob?) && scheduledAt.value.None? then Err(InvalidSchedule)
    else scheduledAt
  }

  function JobData(input: JobInput, config: QueueConfig, scheduledAt: Option<Time>): T.NewJob {
    T.NewJob(
      input.queueId,
      if input.priority.Some? then input.priority.value else config.priority,
      input.kind.ImmediateJob? || input.kind.BatchJob?,
      if config.policy.Some? then config.policy.value.maxAttempts else 1,
      if config.policy.Some?
      then RetryColumns(Some(config.policy.value.strategy), Some(config.policy.value.initialDelayMs),
                        config.policy.value.maxDelayMs, Some(0))
      else RetryColumns(None, None, None, Some(0)),
      scheduledAt,
      if input.key.Some? then Some(CallerKey(input.key.value)) else None)
  }

  function CreateOne(db: Db, config: QueueConfig, input: JobInput, id: JobId): Result<Db> {
    var scheduledAt := ScheduleOf(input, db.now);
    if scheduledAt.Err? then Err(scheduledAt.error)
    else
      var row := JobData(input, config, scheduledAt.value);
      if T.CanCreate(db, id, row) then Ok(T.Create(db, id, row)) else Err(Refused)
  }

  // The row that an accepted input asks for: the instant and the key of the input, its priority or the
  // queue's, the attempts and the delays of the queue's policy, no jitter.
  ghost predicate AsAsked(job: Job, input: JobInput, config: QueueConfig, now: Time) {
    && job.queueId == input.queueId
    && job.priority == (if input.priority.None? then config.priority else input.priority.value)
    && job.status == (if input.kind == DelayedJob || input.kind == ScheduledJob then Scheduled else Queued)
    && (input.scheduledAt.None? <==> job.scheduledAt.None?)
    && (job.scheduledAt.Some? ==> input.scheduledAt == Some(At(job.scheduledAt.value)) && now < job.scheduledAt.value)
    && (input.key.None? <==> job.idempotencyKey.None?)
    && (input.key.Some? ==> job.idempotencyKey == Some(CallerKey(input.key.value)))
    && job.attemptCount == 0 && job.createdAt == now && job.workerId.None? && job.leaseExpiresAt.None?
    && (match config.policy
        case None => job.maxAttempts == 1 && job.retry == RetryColumns(None, None, None, Some(0))
        case Some(p) =>
          job.maxAttempts == p.maxAttempts
          && job.retry == RetryColumns(Some(p.strategy), Some(p.initialDelayMs), p.maxDelayMs, Some(0)))
  }

  // The row an accepted input becomes ...
  lemma CreatedJob(db: Db, config: QueueConfig, input: JobInput, id: JobId)
    requires CreateOne(db, config, input, id).Ok?
    ensures
      var after := CreateOne(db, config, input, id).value;
      && id !in db.jobs && id in after.jobs && AsAsked(after.jobs[id], input, config, db.now)
      && after == db.(jobs := db.jobs[id := after.jobs[id]], ready := db.ready + [id])
    ensures
      var job := CreateOne(db, config, input, id).value.jobs[id];
      && (input.scheduledAt.None? <==> job.scheduledAt.None?)
      && (input.scheduledAt.Some? ==> input.scheduledAt.value.At? && job.scheduledAt == Some(input.scheduledAt.value.t))
      && (job.status == Queued <==> input.kind == ImmediateJob || input.kind == BatchJob)
      && (job.status == Scheduled <==> input.kind == DelayedJob || input.kind == ScheduledJob)
      && (input.scheduledAt.None? <==> IsDue(job, db.now))
      && (input.priority.None? ==> job.priority == config.priority)
      && (input.priority.Some? ==> job.priority == input.priority.value)
  {
  }

  // A delayed job can be queued from its instant on, and not before, as long as its queue is live.
  lemma DelayedJobIsQueued(db: Db, config: QueueConfig, input: JobInput, id: JobId, later: Time, at: Time)
    requires CreateOne(db, config, input, id).Ok? && (input.kind == DelayedJob || input.kind == ScheduledJob)
    requires input.queueId in db.queues && !db.queues[input.queueId].archived && at <= later
    ensures input.scheduledAt.Some? && input.scheduledAt.value.At?
    ensures
      var after := CreateOne(db, config, input, id).value.(now := later);
      T.Promote(after, [id], at).jobs[id].status == Queued <==> input.scheduledAt.value.t <= at
  {
    CreatedJob(db, config, input, id);
  }

  // ... and its retries: none of the draws matters, and without a policy there is one attempt only.
  lemma CreatedJobRetries(db: Db, config: QueueConfig, input: JobInput, id: JobId, now: Time, roll: nat)
    requires CreateOne(db, config, input, id).Ok?
    ensures id in CreateOne(db, config, input, id).value.jobs
    ensures
      var job := CreateOne(db, config, input, id).value.jobs[id];
      && RetryInstant(job, now, roll) == RetryInstant(job, now, 0)
      && (config.policy.None? ==> job.maxAttempts == 1)
      && (config.policy.Some? ==>
            var p := config.policy.value;
            job.maxAttempts == p.maxAttempts
            && PolicyOf(job.retry) == RetryConfiguration(p.strategy, p.initialDelayMs, p.maxDelayMs, 0))
  {
    var job := CreateOne(db, config, input, id).value.jobs[id];
    assert PolicyOf(job.retry).jitterMs == 0;
    assert Draw(PolicyOf(job.retry), roll) == Draw(PolicyOf(job.retry), 0);
  }

  // The empty string is falsy: an input that carries it is not looked up.
  predicate LooksUp(input: JobInput) {
    input.key.Some? && input.key.value != ""
  }

  predicate Known(db: Db, input: JobInput) {
    LooksUp(input) && T.KeyTaken(db, input.queueId, CallerKey(input.key.value))
  }

  // ---- the batch as a fold over its entries ----

  datatype Outcome = Outcome(db: Db, results: seq<JobId>)

  ghost function Entry(o: Outcome, configs: Configs, input: JobInput, id: JobId): Result<Outcome>
    requires input.queueId in configs
  {
    if Known(o.db, input) then
      var j :| Keyed(o.db, j, input.queueId, CallerKey(input.key.value));
      Ok(Outcome(o.db, o.results + [j]))
    else
      var created := CreateOne(o.db, configs[input.queueId], input, id);
      if created.Ok? then Ok(Outcome(created.value, o.results + [id])) else Err(created.error)
  }

  ghost predicate Sane(db: Db, configs: Configs, inputs: seq<JobInput>, ids: seq<JobId>) {
    && |ids| == |inputs| && KeysUnique(db)
    && (forall i, k :: 0 <= i < k < |ids| ==> ids[i] != ids[k])
    && (forall i :: 0 <= i < |ids| ==> ids[i] !in db.jobs)
    && (forall i :: 0 <= i < |inputs| ==> inputs[i].queueId in configs && inputs[i].queueId in db.queues)
    && (forall q :: q in configs && configs[q].policy.Some? ==> configs[q].policy.value.maxAttempts >= 1)
  }

  ghost function Batch(db: Db, configs: Configs, inputs: seq<JobInput>, ids: seq<JobId>): Result<Outcome>
    requires |ids| == |inputs| && forall i :: 0 <= i < |inputs| ==> inputs[i].queueId in configs
  {
    if inputs == [] then Ok(Outcome(db, []))
    else
      var n := |inputs| - 1;
      var o := Batch(db, configs, inputs[..n], ids[..n]);
      if o.Err? then o else Entry(o.value, configs, inputs[n], ids[n])
  }

  // ---- one entry ----

  predicate Answers(db: Db, input: JobInput, j: JobId) {
    && j in db.jobs && db.jobs[j].queueId == input.queueId
    && (input.key.Some? ==> db.jobs[j].idempotencyKey == Some(CallerKey(input.key.value)))
  }

  // The entry found its job, or created one and announced it.
  ghost predicate EntryStep(o: Outcome, input: JobInput, id: JobId, p: Outcome) {
    if Known(o.db, input) then p.db == o.db && |p.results| == |o.results| + 1 && p.results[..|o.results|] == o.results
                               && Answers(o.db, input, p.results[|o.results|])
    else
      && id in p.db.jobs && p.db == o.db.(jobs := o.db.jobs[id := p.db.jobs[id]], ready := o.db.ready + [id])
      && p.results == o.results + [id] && Answers(p.db, input, id)
      && p.db.jobs[id].idempotencyKey == (if input.key.Some? then Some(CallerKey(input.key.value)) else None)
  }

  // ... and the job it created is what it asks for.
  lemma EntryRow(o: Outcome, configs: Configs, input: JobInput, id: JobId)
    requires input.queueId in configs && Entry(o, configs, input, id).Ok? && !Known(o.db, input)
    ensures
      var p := Entry(o, configs, input, id).value;
      && id in p.db.jobs && AsAsked(p.db.jobs[id], input, configs[input.queueId], o.db.now)
      && p.results == o.results + [id]
  {
    CreatedJob(o.db, configs[input.queueId], input, id);
  }

  lemma EntrySteps(o: Outcome, configs: Configs, input: JobInput, id: JobId)
    requires input.queueId in configs && Entry(o, configs, input, id).Ok?
    ensures EntryStep(o, input, id, Entry(o, configs, input, id).value)
    ensures Known(o.db, input) || (Schedulable(input, o.db.now) && id !in o.db.jobs
            && (input.key.Some? ==> !T.KeyTaken(o.db, input.queueId, CallerKey(input.key.value))))
  {
  }

  // ---- the whole batch ----

  // Other tables and existing rows are untouched; keys stay unique; each entry has its answer.
  ghost predicate BatchOk(db: Db, inputs: seq<JobInput>, ids: seq<JobId>, o: Outcome) {
    && |o.results| == |inputs| && KeysUnique(o.db)
    && o.db == db.(jobs := o.db.jobs, ready := o.db.ready)
    && (forall j :: j in db.jobs ==> j in o.db.jobs && o.db.jobs[j] == db.jobs[j])
    && (forall j :: j in o.db.jobs && j !in db.jobs ==> j in ids)
    && (forall i :: 0 <= i < |inputs| ==> Answers(o.db, inputs[i], o.results[i]))
  }

  lemma EntryKeepsUnique(o: Outcome, input: JobInput, id: JobId, p: Outcome)
    requires KeysUnique(o.db) && EntryStep(o, input, id, p) && id !in o.db.jobs
    requires input.key.Some? ==> !T.KeyTaken(o.db, input.queueId, CallerKey(input.key.value)) || Known(o.db, input)
    ensures KeysUnique(p.db)
  {
    if !Known(o.db, input) {
      forall j, k, q, key | Keyed(p.db, j, q, key) && Keyed(p.db, k, q, key)
        ensures j == k
      {
        assert j != id ==> Keyed(o.db, j, q, key);
        assert k != id ==> Keyed(o.db, k, q, key);
      }
    }
  }

  lemma EntryKeepsBatch(db: Db, inputs: seq<JobInput>, ids: seq<JobId>, o: Outcome, input: JobInput, id: JobId,
                        p: Outcome)
    requires BatchOk(db, inputs, ids, o) && EntryStep(o, input, id, p) && KeysUnique(p.db) && id !in db.jobs
    requires id !in o.db.jobs
    ensures BatchOk(db, inputs + [input], ids + [id], p)
  {
    forall i | 0 <= i < |inputs| + 1
      ensures Answers(p.db, (inputs + [input])[i], p.results[i])
    {
      if i < |inputs| {
        assert Answers(o.db, inputs[i], o.results[i]) && p.results[i] == p.results[..|o.results|][i];
      }
    }
  }

  // A successful batch is a successful shorter batch and one more entry.
  lemma LastEntry(db: Db, configs: Configs, inputs: seq<JobInput>, ids: seq<JobId>) returns (o: Outcome)
    requires Sane(db, configs, inputs, ids) && inputs != [] && Batch(db, configs, inputs, ids).Ok?
    ensures
      var n, p := |inputs| - 1, Batch(db, configs, inputs, ids).value;
      && Sane(db, configs, inputs[..n], ids[..n]) && Batch(db, configs, inputs[..n], ids[..n]) == Ok(o)
      && EntryStep(o, inputs[n], ids[n], p) && ids[n] !in db.jobs && ids[n] !in ids[..n]
      && inputs[..n] + [inputs[n]] == inputs && ids[..n] + [ids[n]] == ids
      && (inputs[n].key.Some? ==>
            !T.KeyTaken(o.db, inputs[n].queueId, CallerKey(inputs[n].key.value)) || Known(o.db, inputs[n]))
  {
    var n := |inputs| - 1;
    o := Batch(db, configs, inputs[..n], ids[..n]).value;
    EntrySteps(o, configs, inputs[n], ids[n]);
  }

  lemma {:induction false} BatchAnswers(db: Db, configs: Configs, inputs: seq<JobInput>, ids: seq<JobId>)
    requires Sane(db, configs, inputs, ids) && Batch(db, configs, inputs, ids).Ok?
    ensures BatchOk(db, inputs, ids, Batch(db, configs, inputs, ids).value)
  {
    if inputs != [] {
      var n, p := |inputs| - 1, Batch(db, configs, inputs, ids).value;
      var o := LastEntry(db, configs, inputs, ids);
      BatchAnswers(db, configs, inputs[..n], ids[..n]);
      EntryKeepsUnique(o, inputs[n], ids[n], p);
      EntryKeepsBatch(db, inputs[..n], ids[..n], o, inputs[n], ids[n], p);
    }
  }

  // Every new row is the one its entry asks for, and the answer to that entry.
  ghost predicate RowsAsAsked(db: Db, configs: Configs, inputs: seq<JobInput>, ids: seq<JobId>, o: Outcome)
    requires |ids| == |inputs| && forall i :: 0 <= i < |inputs| ==> inputs[i].queueId in configs
  {
    && |o.results| == |inputs| && o.db.now == db.now
    && forall i :: 0 <= i < |inputs| && ids[i] in o.db.jobs ==>
      o.results[i] == ids[i] && AsAsked(o.db.jobs[ids[i]], inputs[i], configs[inputs[i].queueId], db.now)
  }

  lemma {:induction false} BatchRows(db: Db, configs: Configs, inputs: seq<JobInput>, ids: seq<JobId>)
    requires Sane(db, configs, inputs, ids) && Batch(db, configs, inputs, ids).Ok?
    ensures RowsAsAsked(db, configs, inputs, ids, Batch(db, configs, inputs, ids).value)
  {
    if inputs != [] {
      var n, p := |inputs| - 1, Batch(db, configs, inputs, ids).value;
      var o := LastEntry(db, configs, inputs, ids);
      BatchRows(db, configs, inputs[..n], ids[..n]);
      BatchAnswers(db, configs, inputs[..n], ids[..n]);
      if !Known(o.db, inputs[n]) {
        EntryRow(o, configs, inputs[n], ids[n]);
      }
      RowsGrow(db, configs, inputs, ids, o, p);
    }
  }

  lemma RowsGrow(db: Db, configs: Configs, inputs: seq<JobInput>, ids: seq<JobId>, o: Outcome, p: Outcome)
    requires Sane(db, configs, inputs, ids) && inputs != []
    requires RowsAsAsked(db, configs, inputs[..|inputs| - 1], ids[..|inputs| - 1], o)
    requires EntryStep(o, inputs[|inputs| - 1], ids[|inputs| - 1], p) && ids[|inputs| - 1] !in o.db.jobs
    requires !Known(o.db, inputs[|inputs| - 1]) ==>
      AsAsked(p.db.jobs[ids[|inputs| - 1]], inputs[|inputs| - 1], configs[inputs[|inputs| - 1].queueId], db.now)
    ensures RowsAsAsked(db, configs, inputs, ids, p)
  {
    var n := |inputs| - 1;
    forall i | 0 <= i < n && ids[i] in p.db.jobs
      ensures p.results[i] == ids[i] && AsAsked(p.db.jobs[ids[i]], inputs[i], configs[inputs[i].queueId], db.now)
    {
      assert ids[i] != ids[n] && ids[..n][i] == ids[i] && inputs[..n][i] == inputs[i];
      assert ids[i] in o.db.jobs && p.db.jobs[ids[i]] == o.db.jobs[ids[i]];
      assert p.results[..|o.results|] == o.results;
      assert p.results[i] == o.results[i];
    }
  }

  // Entries with the same queue and key get the same job, which carries that key.
  lemma SameKeySameJob(db: Db, configs: Configs, inputs: seq<JobInput>, ids: seq<JobId>, i: nat, k: nat)
    requires Sane(db, configs, inputs, ids) && Batch(db, configs, inputs, ids).Ok?
    requires i < |inputs| && k < |inputs| && inputs[i].key.Some?
    requires inputs[i].queueId == inputs[k].queueId && inputs[i].key == inputs[k].key
    ensures
      var o := Batch(db, configs, inputs, ids).value;
      && i < |o.results| && k < |o.results| && o.results[i] == o.results[k]
      && Keyed(o.db, o.results[i], inputs[i].queueId, CallerKey(inputs[i].key.value))
  {
    BatchAnswers(db, configs, inputs, ids);
    var o := Batch(db, configs, inputs, ids).value;
    assert Answers(o.db, inputs[i], o.results[i]) && Answers(o.db, inputs[k], o.results[k]);
    assert Keyed(o.db, o.results[i], inputs[i].queueId, CallerKey(inputs[i].key.value));
    assert Keyed(o.db, o.results[k], inputs[i].queueId, CallerKey(inputs[i].key.value));
  }

  // ---- conservation ----

  ghost function Unseen(db: Db, inputs: seq<JobInput>): set<(QueueId, string)> {
    set i | 0 <= i < |inputs| && LooksUp(inputs[i]) && !Known(db, inputs[i]) :: (inputs[i].queueId, inputs[i].key.value)
  }

  function Keyless(inputs: seq<JobInput>): nat {
    if inputs == [] then 0 else Keyless(inputs[..|inputs| - 1]) + (if LooksUp(inputs[|inputs| - 1]) then 0 else 1)
  }

  // `news` lists the new rows in the order in which they are announced.
  ghost predicate Announces(db: Db, o: Outcome, news: seq<JobId>) {
    && o.db.ready == db.ready + news
    && (forall a, b :: 0 <= a < b < |news| ==> news[a] != news[b])
    && (forall j :: j in news <==> j in o.db.jobs && j !in db.jobs)
  }

  ghost predicate KnowsBatch(db: Db, inputs: seq<JobInput>, o: Outcome) {
    forall input: JobInput | LooksUp(input) ::
      Known(o.db, input) <==> Known(db, input) || (input.queueId, input.key.value) in Unseen(db, inputs)
  }

  ghost predicate Counts(db: Db, inputs: seq<JobInput>, o: Outcome, news: seq<JobId>) {
    Announces(db, o, news) && KnowsBatch(db, inputs, o) && |news| == |Unseen(db, inputs)| + Keyless(inputs)
  }

  lemma UnseenGrows(db: Db, inputs: seq<JobInput>, input: JobInput)
    ensures Unseen(db, inputs + [input]) == Unseen(db, inputs)
            + (if LooksUp(input) && !Known(db, input) then {(input.queueId, input.key.value)} else {})
    ensures Keyless(inputs + [input]) == Keyless(inputs) + (if LooksUp(input) then 0 else 1)
  {
    var more := inputs + [input];
    assert more[..|inputs|] == inputs;
    assert forall i :: 0 <= i < |inputs| ==> more[i] == inputs[i];
    assert more[|inputs|] == input;
  }

  lemma EntryKnows(o: Outcome, input: JobInput, id: JobId, p: Outcome, other: JobInput)
    requires EntryStep(o, input, id, p) && id !in o.db.jobs && LooksUp(other)
    ensures Known(p.db, other)
            <==> Known(o.db, other) || (LooksUp(input) && other.queueId == input.queueId && other.key == input.key)
  {
    if !Known(o.db, input) {
      forall j | j in o.db.jobs
        ensures Keyed(p.db, j, other.queueId, CallerKey(other.key.value))
                <==> Keyed(o.db, j, other.queueId, CallerKey(other.key.value))
      {
      }
      assert LooksUp(input) && other.queueId == input.queueId && other.key == input.key
        ==> Keyed(p.db, id, other.queueId, CallerKey(other.key.value));
    }
  }

  lemma EntryAnnounces(db: Db, o: Outcome, news: seq<JobId>, input: JobInput, id: JobId, p: Outcome)
    requires Announces(db, o, news) && EntryStep(o, input, id, p) && id !in o.db.jobs && id !in db.jobs
    ensures Announces(db, p, if Known(o.db, input) then news else news + [id])
  {
    assert o.db.ready + [id] == db.ready + (news + [id]);
  }

  lemma EntryKnowsBatch(db: Db, inputs: seq<JobInput>, o: Outcome, input: JobInput, id: JobId, p: Outcome)
    requires KnowsBatch(db, inputs, o) && EntryStep(o, input, id, p) && id !in o.db.jobs
    ensures KnowsBatch(db, inputs + [input], p)
  {
    UnseenGrows(db, inputs, input);
    forall other: JobInput | LooksUp(other)
      ensures Known(p.db, other)
              <==> Known(db, other) || (other.queueId, other.key.value) in Unseen(db, inputs + [input])
    {
      EntryKnows(o, input, id, p, other);
    }
  }

  lemma UnseenCounts(db: Db, inputs: seq<JobInput>, o: Outcome, input: JobInput)
    requires KnowsBatch(db, inputs, o)
    ensures |Unseen(db, inputs + [input])| + Keyless(inputs + [input])
            == |Unseen(db, inputs)| + Keyless(inputs) + (if Known(o.db, input) then 0 else 1)
  {
    UnseenGrows(db, inputs, input);
    if Known(o.db, input) {
      assert Unseen(db, inputs + [input]) == Unseen(db, inputs);
    }
  }

  lemma EntryCounts(db: Db, inputs: seq<JobInput>, o: Outcome, news: seq<JobId>, input: JobInput, id: JobId, p: Outcome)
    returns (news': seq<JobId>)
    requires Counts(db, inputs, o, news) && EntryStep(o, input, id, p) && id !in o.db.jobs && id !in db.jobs
    ensures Counts(db, inputs + [input], p, news')
  {
    news' := if Known(o.db, input) then news else news + [id];
    EntryAnnounces(db, o, news, input, id, p);
    EntryKnowsBatch(db, inputs, o, input, id, p);
    UnseenCounts(db, inputs, o, input);
  }

  // Conservation: a successful batch adds one row, and one JOB_READY event in order, for each
  // distinct unseen (queue, key) pair and for each entry without a key, and nothing else.
  lemma {:induction false} BatchConserves(db: Db, configs: Configs, inputs: seq<JobInput>, ids: seq<JobId>)
    returns (news: seq<JobId>)
    requires Sane(db, configs, inputs, ids) && Batch(db, configs, inputs, ids).Ok?
    ensures Counts(db, inputs, Batch(db, configs, inputs, ids).value, news)
  {
    if inputs == [] {
      news := [];
      assert Unseen(db, []) == {};
    } else {
      var n, p := |inputs| - 1, Batch(db, configs, inputs, ids).value;
      var o := LastEntry(db, configs, inputs, ids);
      news := BatchConserves(db, configs, inputs[..n], ids[..n]);
      BatchAnswers(db, configs, inputs[..n], ids[..n]);
      news := EntryCounts(db, inputs[..n], o, news, inputs[n], ids[n], p);
    }
  }

  // ---- when a batch succeeds ----

  // The key is in the table already, or an earlier entry of the batch carries it.
  ghost predicate Redundant(db: Db, inputs: seq<JobInput>, i: nat)
    requires i < |inputs|
  {
    LooksUp(inputs[i]) && (Known(db, inputs[i]) || (inputs[i].queueId, inputs[i].key.value) in Unseen(db, inputs[..i]))
  }

  lemma EntrySucceeds(o: Outcome, configs: Configs, input: JobInput, id: JobId)
    requires input.queueId in configs && input.queueId in o.db.queues && id !in o.db.jobs && input.key != Some("")
    requires configs[input.queueId].policy.Some? ==> configs[input.queueId].policy.value.maxAttempts >= 1
    ensures Entry(o, configs, input, id).Ok? <==> Known(o.db, input) || Schedulable(input, o.db.now)
  {
  }

  ghost predicate Acceptable(db: Db, inputs: seq<JobInput>) {
    forall i :: 0 <= i < |inputs| ==> Redundant(db, inputs, i) || Schedulable(inputs[i], db.now)
  }

  lemma AcceptableSnoc(db: Db, inputs: seq<JobInput>)
    requires inputs != []
    ensures
      var n := |inputs| - 1;
      Acceptable(db, inputs)
      <==> Acceptable(db, inputs[..n]) && (Redundant(db, inputs, n) || Schedulable(inputs[n], db.now))
  {
    var n := |inputs| - 1;
    forall i | 0 <= i < n
      ensures Redundant(db, inputs[..n], i) <==> Redundant(db, inputs, i)
    {
      assert inputs[..n][..i] == inputs[..i];
    }
  }

  lemma LastEntrySucceeds(db: Db, configs: Configs, inputs: seq<JobInput>, ids: seq<JobId>)
    requires Sane(db, configs, inputs, ids) && inputs != [] && inputs[|inputs| - 1].key != Some("")
    requires Batch(db, configs, inputs[..|inputs| - 1], ids[..|inputs| - 1]).Ok?
    ensures
      var n := |inputs| - 1;
      Batch(db, configs, inputs, ids).Ok? <==> Redundant(db, inputs, n) || Schedulable(inputs[n], db.now)
  {
    var n := |inputs| - 1;
    var o := Batch(db, configs, inputs[..n], ids[..n]).value;
    assert Sane(db, configs, inputs[..n], ids[..n]);
    BatchAnswers(db, configs, inputs[..n], ids[..n]);
    var news := BatchConserves(db, configs, inputs[..n], ids[..n]);
    EntrySucceeds(o, configs, inputs[n], ids[n]);
  }

  // A batch succeeds exactly when every entry that is not answered by an existing job or an
  // earlier entry has an acceptable schedule.  (The request schema admits no empty key.)
  lemma {:induction false} BatchSucceeds(db: Db, configs: Configs, inputs: seq<JobInput>, ids: seq<JobId>)
    requires Sane(db, configs, inputs, ids) && forall i :: 0 <= i < |inputs| ==> inputs[i].key != Some("")
    ensures Batch(db, configs, inputs, ids).Ok? <==> Acceptable(db, inputs)
  {
    if inputs != [] {
      var n := |inputs| - 1;
      BatchSucceeds(db, configs, inputs[..n], ids[..n]);
      AcceptableSnoc(db, inputs);
      if Batch(db, configs, inputs[..n], ids[..n]).Ok? {
        LastEntrySucceeds(db, configs, inputs, ids);
      }
    }
  }

  // ---- replay ----

  ghost predicate Carries(db: Db, inputs: seq<JobInput>, results: seq<JobId>) {
    && |results| == |inputs|
    && forall i :: 0 <= i < |inputs| ==>
      LooksUp(inputs[i]) && Keyed(db, results[i], inputs[i].queueId, CallerKey(inputs[i].key.value))
  }

  lemma EntryFound(o: Outcome, configs: Configs, input: JobInput, id: JobId, j: JobId)
    requires input.queueId in configs && KeysUnique(o.db)
    requires LooksUp(input) && Keyed(o.db, j, input.queueId, CallerKey(input.key.value))
    ensures Entry(o, configs, input, id) == Ok(Outcome(o.db, o.results + [j]))
  {
  }

  // Replaying a fully keyed batch adds nothing and returns the jobs that carry the keys, whatever
  // its schedules say by then.
  lemma {:induction false} ReplayIsNoOp(db: Db, configs: Configs, inputs: seq<JobInput>, ids: seq<JobId>,
                                        results: seq<JobId>)
    requires |ids| == |inputs| && KeysUnique(db) && Carries(db, inputs, results)
    requires forall i :: 0 <= i < |inputs| ==> inputs[i].queueId in configs
    ensures Batch(db, configs, inputs, ids) == Ok(Outcome(db, results))
  {
    if inputs != [] {
      var n := |inputs| - 1;
      ReplayIsNoOp(db, configs, inputs[..n], ids[..n], results[..n]);
      EntryFound(Outcome(db, results[..n]), configs, inputs[n], ids[n], results[n]);
      assert results[..n] + [results[n]] == results;
    }
  }

  lemma BatchCarries(db: Db, configs: Configs, inputs: seq<JobInput>, ids: seq<JobId>)
    requires Sane(db, configs, inputs, ids) && Batch(db, configs, inputs, ids).Ok?
    requires forall i :: 0 <= i < |inputs| ==> LooksUp(inputs[i])
    ensures
      var o := Batch(db, configs, inputs, ids).value;
      KeysUnique(o.db) && Carries(o.db, inputs, o.results)
  {
    BatchAnswers(db, configs, inputs, ids);
    var o := Batch(db, configs, inputs, ids).value;
    forall i | 0 <= i < |inputs|
      ensures Keyed(o.db, o.results[i], inputs[i].queueId, CallerKey(inputs[i].key.value))
    {
      assert Answers(o.db, inputs[i], o.results[i]);
    }
  }

  // ---- a single creation, racing others ----

  datatype Created = JobRow(j: JobId) | ScheduleRow(schedule: nat)

  datatype Creation = Creation(db: Db, row: Created)

  // createJob: `seen` holds the tables when the key was looked up, `db` when the transaction ran;
  // `schedules` maps the keys of cron schedules.  A unique violation sends the caller back to the
  // row that won.
  ghost function CreateJob(seen: Db, db: Db, schedules: map<(QueueId, string), nat>, config: QueueConfig,
                           input: JobInput,
                           id: JobId): Result<Creation>
  {
    if Known(seen, input) then
      var j :| Keyed(seen, j, input.queueId, CallerKey(input.key.value));
      Ok(Creation(db, JobRow(j)))
    else if LooksUp(input) && (input.queueId, input.key.value) in schedules then
      Ok(Creation(db, ScheduleRow(schedules[(input.queueId, input.key.value)])))
    else
      var created := CreateOne(db, config, input, id);
      if created.Ok? then Ok(Creation(created.value, JobRow(id)))
      else if created.error.Refused? && LooksUp(input) then
        if Known(db, input) then
          var j :| Keyed(db, j, input.queueId, CallerKey(input.key.value));
          Ok(Creation(db, JobRow(j)))
        else Err(IdempotencyConflict)
      else Err(created.error)
  }

  ghost predicate KeepsKeys(seen: Db, db: Db) {
    forall j, q, key :: Keyed(seen, j, q, key) ==> Keyed(db, j, q, key)
  }

  // A keyed creation whose key no cron schedule uses answers with the one job that carries the
  // key, however many other callers create in between: it fails only for its schedule, never with
  // a conflict, and adds a row only if the key was still free.
  lemma KeyedCreation(seen: Db, db: Db, schedules: map<(QueueId, string), nat>, config: QueueConfig,
                      input: JobInput, id: JobId)
    requires KeepsKeys(seen, db) && id !in db.jobs && input.queueId in db.queues
    requires LooksUp(input) && (input.queueId, input.key.value) !in schedules
    requires config.policy.Some? ==> config.policy.value.maxAttempts >= 1
    ensures
      var r := CreateJob(seen, db, schedules, config, input, id);
      && (r.Ok? <==> Known(seen, input) || Schedulable(input, db.now))
      && (r.Err? ==> r.error.InvalidSchedule?)
      && (r.Ok? ==>
            && r.value.row.JobRow? && Keyed(r.value.db, r.value.row.j, input.queueId, CallerKey(input.key.value))
            && r.value.db.jobs.Keys == db.jobs.Keys + (if Known(db, input) then {} else {id})
            && r.value.db.ready == db.ready + (if Known(db, input) then [] else [id])
            && (!Known(db, input) && !Known(seen, input) ==> AsAsked(r.value.db.jobs[id], input, config, db.now)))
  {
  }

  // A creation without a key, or with an empty one, is never answered with another caller's job or schedule:
  // it adds the row it asks for, or fails for its schedule or, the key being a key after all, because it is
  // in use.
  lemma KeylessCreation(seen: Db, db: Db, schedules: map<(QueueId, string), nat>, config: QueueConfig,
                        input: JobInput, id: JobId)
    requires id !in db.jobs && input.queueId in db.queues && (input.key.None? || input.key == Some(""))
    requires config.policy.Some? ==> config.policy.value.maxAttempts >= 1
    ensures
      var r := CreateJob(seen, db, schedules, config, input, id);
      var free := input.key.None? || forall j :: j in db.jobs && db.jobs[j].queueId == input.queueId ==>
        db.jobs[j].idempotencyKey != Some(CallerKey(""));
      && (r.Ok? <==> Schedulable(input, db.now) && free)
      && (r.Err? ==> r.error == if Schedulable(input, db.now) then Refused else InvalidSchedule)
      && (r.Ok? ==>
            && r.value.row == JobRow(id) && id in r.value.db.jobs && AsAsked(r.value.db.jobs[id], input, config, db.now)
            && r.value.db == db.(jobs := db.jobs[id := r.value.db.jobs[id]], ready := db.ready + [id]))
  {
    var r := CreateJob(seen, db, schedules, config, input, id);
    forall j
      ensures Keyed(db, j, input.queueId, CallerKey("")) <==>
              j in db.jobs && db.jobs[j].queueId == input.queueId && db.jobs[j].idempotencyKey == Some(CallerKey(""))
    {
    }
    if r.Ok? {
      CreatedJob(db, config, input, id);
    }
  }

  // A key that a job of the queue carries already answers with that job, whatever the schedules are.
  lemma ExistingJobAnswers(seen: Db, db: Db, schedules: map<(QueueId, string), nat>, config: QueueConfig,
                           input: JobInput, id: JobId, j: JobId)
    requires KeysUnique(seen) && input.key.Some? && input.key.value != ""
    requires j in seen.jobs && seen.jobs[j].queueId == input.queueId
    requires seen.jobs[j].idempotencyKey == Some(CallerKey(input.key.value))
    ensures CreateJob(seen, db, schedules, config, input, id) == Ok(Creation(db, JobRow(j)))
  {
    assert Keyed(seen, j, input.queueId, CallerKey(input.key.value));
  }

  // A key that no job but a cron schedule of the queue carries answers with that schedule, and adds nothing.
  lemma ScheduleAnswers(seen: Db, db: Db, schedules: map<(QueueId, string), nat>, config: QueueConfig,
                        input: JobInput, id: JobId)
    requires input.key.Some? && input.key.value != "" && (input.queueId, input.key.value) in schedules
    requires forall j :: j in seen.jobs && seen.jobs[j].queueId == input.queueId ==>
      seen.jobs[j].idempotencyKey != Some(CallerKey(input.key.value))
    ensures
      CreateJob(seen, db, schedules, config, input, id)
      == Ok(Creation(db, ScheduleRow(schedules[(input.queueId, input.key.value)])))
  {
  }

  lemma BatchGoesOn(db: Db, configs: Configs, inputs: seq<JobInput>, ids: seq<JobId>, input: JobInput, id: JobId,
                    o: Outcome)
    requires |ids| == |inputs| && input.queueId in configs
    requires (forall i :: 0 <= i < |inputs| ==> inputs[i].queueId in configs)
    requires Batch(db, configs, inputs, ids) == Ok(o)
    ensures forall i :: 0 <= i < |inputs + [input]| ==> (inputs + [input])[i].queueId in configs
    ensures Batch(db, configs, inputs + [input], ids + [id]) == Entry(o, configs, input, id)
  {
    assert (inputs + [input])[..|inputs|] == inputs && (ids + [id])[..|inputs|] == ids;
  }

  lemma PrefixIsSane(db: Db, configs: Configs, inputs: seq<JobInput>, ids: seq<JobId>, n: nat)
    requires Sane(db, configs, inputs, ids) && n <= |inputs|
    ensures Sane(db, configs, inputs[..n], ids[..n])
  {
  }

  lemma OneMoreEntry(inputs: seq<JobInput>, ids: seq<JobId>, n: nat)
    requires n < |inputs| && |ids| == |inputs|
    ensures inputs[..n + 1] == inputs[..n] + [inputs[n]] && ids[..n + 1] == ids[..n] + [ids[n]]
  {
  }

  lemma NextEntry(db: Db, configs: Configs, inputs: seq<JobInput>, ids: seq<JobId>, n: nat, o: Outcome)
    requires n < |inputs| && |ids| == |inputs| && forall i :: 0 <= i < |inputs| ==> inputs[i].queueId in configs
    requires Batch(db, configs, inputs[..n], ids[..n]) == Ok(o)
    ensures Batch(db, configs, inputs[..n + 1], ids[..n + 1]) == Entry(o, configs, inputs[n], ids[n])
  {
    OneMoreEntry(inputs, ids, n);
    BatchGoesOn(db, configs, inputs[..n], ids[..n], inputs[n], ids[n], o);
  }

  lemma KeysStayUnique(db: Db, configs: Configs, inputs: seq<JobInput>, ids: seq<JobId>, n: nat)
    requires Sane(db, configs, inputs, ids) && n <= |inputs| && Batch(db, configs, inputs[..n], ids[..n]).Ok?
    ensures KeysUnique(Batch(db, configs, inputs[..n], ids[..n]).value.db)
  {
    PrefixIsSane(db, configs, inputs, ids, n);
    BatchAnswers(db, configs, inputs[..n], ids[..n]);
  }

  // ---- the service ----

  class JobService {
    var db: Db

    constructor (db: Db)
      ensures this.db == db
    {
      this.db := db;
    }

    // authorizedQueue, for every entry before the transaction starts.
    method CheckQueues(inputs: seq<JobInput>, authorized: set<QueueId>) returns (error: Option<Error>)
      requires authorized <= db.queues.Keys
      ensures error.None? <==> forall i :: 0 <= i < |inputs| ==> Accepts(db, authorized, inputs[i])
      ensures error.Some? ==> exists i :: 0 <= i < |inputs| && FirstRejected(db, authorized, inputs, i)
                                          && error == Some(if inputs[i].queueId in authorized then QueueArchived
                                                           else QueueNotFound)
    {
      for n := 0 to |inputs|
        invariant forall i :: 0 <= i < n ==> Accepts(db, authorized, inputs[i])
      {
        if inputs[n].queueId !in authorized {
          return Some(QueueNotFound);
        }
        if db.queues[inputs[n].queueId].archived {
          return Some(QueueArchived);
        }
      }
      return None;
    }

    // createBatch: all or nothing, and what it does is what Batch says.
    method CreateBatch(inputs: seq<JobInput>, ids: seq<JobId>, authorized: set<QueueId>, configs: Configs)
      returns (r: Result<seq<JobId>>)
      requires authorized <= db.queues.Keys && authorized <= configs.Keys
      requires (forall i :: 0 <= i < |inputs| ==> Accepts(db, authorized, inputs[i])) ==> Sane(db, configs, inputs, ids)
      modifies this
      ensures r.Err? ==> db == old(db)
      ensures
        if forall i :: 0 <= i < |inputs| ==> Accepts(old(db), authorized, inputs[i])
        then |ids| == |inputs| && r == (match Batch(old(db), configs, inputs, ids)
                                        case Ok(o) => Ok(o.results) case Err(e) => Err(e))
             && (r.Ok? ==> db == Batch(old(db), configs, inputs, ids).value.db)
        else r.Err? && exists i :: 0 <= i < |inputs| && FirstRejected(old(db), authorized, inputs, i)
                                   && r.error == (if inputs[i].queueId in authorized then QueueArchived
                                                  else QueueNotFound)
      ensures r.Ok? ==> |ids| == |inputs| == |r.value| && forall i :: 0 <= i < |inputs| && ids[i] in db.jobs ==>
        && r.value[i] == ids[i] && inputs[i].queueId in configs
        && AsAsked(db.jobs[ids[i]], inputs[i], configs[inputs[i].queueId], old(db).now)
    {
      var error := CheckQueues(inputs, authorized);
      if error.Some? {
        return Err(error.value);
      }
      var saved := db;
      var results: seq<JobId> := [];
      for n := 0 to |inputs|
        invariant Sane(saved, configs, inputs, ids)
        invariant Batch(saved, configs, inputs[..n], ids[..n]) == Ok(Outcome(db, results))
      {
        var input := inputs[n];
        KeysStayUnique(saved, configs, inputs, ids, n);
        NextEntry(saved, configs, inputs, ids, n, Outcome(db, results));
        if Known(db, input) {
          var existing :| existing in db.jobs && Keyed(db, existing, input.queueId, CallerKey(input.key.value));
          EntryFound(Outcome(db, results), configs, input, ids[n], existing);
          results := results + [existing];
          continue;
        }
        var created := CreateOne(db, configs[input.queueId], input, ids[n]);
        if created.Err? {
          FailureSticks(saved, configs, inputs, ids, n + 1);
          db := saved;
          return Err(created.error);
        }
        db, results := created.value, results + [ids[n]];
      }
      assert inputs[..|inputs|] == inputs && ids[..|inputs|] == ids;
      BatchRows(saved, configs, inputs, ids);
      return Ok(results);
    }
  }

  predicate Accepts(db: Db, authorized: set<QueueId>, input: JobInput) {
    input.queueId in authorized && input.queueId in db.queues && !db.queues[input.queueId].archived
  }

  ghost predicate FirstRejected(db: Db, authorized: set<QueueId>, inputs: seq<JobInput>, i: nat)
    requires i < |inputs|
  {
    !Accepts(db, authorized, inputs[i]) && forall k :: 0 <= k < i ==> Accepts(db, authorized, inputs[k])
  }

  // An entry is let through when its queue is the caller's and not archived.
  lemma AcceptsExactly(db: Db, authorized: set<QueueId>, input: JobInput)
    requires authorized <= db.queues.Keys
    ensures Accepts(db, authorized, input) <==> input.queueId in authorized && !db.queues[input.queueId].archived
  {
  }

  // The first error of a batch is its error.
  lemma {:induction false} FailureSticks(db: Db, configs: Configs, inputs: seq<JobInput>, ids: seq<JobId>, n: nat)
    requires |ids| == |inputs| && n <= |inputs| && forall i :: 0 <= i < |inputs| ==> inputs[i].queueId in configs
    requires Batch(db, configs, inputs[..n], ids[..n]).Err?
    ensures Batch(db, configs, inputs, ids) == Batch(db, configs, inputs[..n], ids[..n])
    decreases |inputs|
  {
    if n < |inputs| {
      var m := |inputs| - 1;
      assert inputs[..m][..n] == inputs[..n] && ids[..m][..n] == ids[..n];
      FailureSticks(db, configs, inputs[..m], ids[..m], n);
    } else {
      assert inputs[..n] == inputs && ids[..n] == ids;
    }
  }
}
