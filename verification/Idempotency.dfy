// Keyed batches inside runs of the whole system: a batch is a sequence of ordinary creations, and
// replaying it after anything else has happened returns the same jobs.
module Idempotency {
  import opened Wrappers
  import opened Tables
  import opened Protocol
  import opened History
  import opened Keys
  import opened JobCreation
  import T = Transactions

  lemma EntryIsCreation(o: Outcome, configs: Configs, input: JobInput, id: JobId) returns (row: Option<T.NewJob>)
    requires input.queueId in configs && Entry(o, configs, input, id).Ok?
    ensures
      var p := Entry(o, configs, input, id).value;
      if row.None? then p.db == o.db else T.CanCreate(o.db, id, row.value) && p.db == T.Create(o.db, id, row.value)
  {
    if Known(o.db, input) {
      row := None;
    } else {
      row := Some(JobData(input, configs[input.queueId], ScheduleOf(input, o.db.now).value));
    }
  }

  lemma CreateApplies(s: Sys, id: JobId, row: T.NewJob)
    requires T.CanCreate(s.db, id, row)
    ensures Apply(s, Label.Create(id, row)).db == T.Create(s.db, id, row)
  {
  }

  // A successful batch is a run of creations.
  lemma {:induction false} BatchIsRun(s: Sys, configs: Configs, inputs: seq<JobInput>, ids: seq<JobId>)
    returns (ls: seq<Label>)
    requires Sane(s.db, configs, inputs, ids) && Batch(s.db, configs, inputs, ids).Ok?
    ensures Run(s, ls).db == Batch(s.db, configs, inputs, ids).value.db
    ensures forall i :: 0 <= i < |ls| ==> ls[i].Create?
  {
    ls := [];
    if inputs != [] {
      var n := |inputs| - 1;
      var o := LastEntry(s.db, configs, inputs, ids);
      ls := BatchIsRun(s, configs, inputs[..n], ids[..n]);
      var row := EntryIsCreation(o, configs, inputs[n], ids[n]);
      if row.Some? {
        RunSnoc(s, ls, Label.Create(ids[n], row.value));
        CreateApplies(Run(s, ls), ids[n], row.value);
        ls := ls + [Label.Create(ids[n], row.value)];
      }
    }
  }

  // Keyed batches: submit a fully keyed batch in any reachable state, let the system run on in any
  // way, and submit it again: the second answer is the first, and no table changes.
  lemma {:induction false} ReplayAfterAnything(before: seq<Label>, configs: Configs, inputs: seq<JobInput>,
                                               ids: seq<JobId>)
    returns (batch: seq<Label>)
    requires Sane(Run(INITIAL, before).db, configs, inputs, ids)
    requires Batch(Run(INITIAL, before).db, configs, inputs, ids).Ok?
    requires forall i :: 0 <= i < |inputs| ==> LooksUp(inputs[i])
    ensures Run(Run(INITIAL, before), batch).db == Batch(Run(INITIAL, before).db, configs, inputs, ids).value.db
    ensures forall after: seq<Label>, ids': seq<JobId> | |ids'| == |inputs| ::
      var db := Run(Run(Run(INITIAL, before), batch), after).db;
      Batch(db, configs, inputs, ids')
      == Ok(Outcome(db, Batch(Run(INITIAL, before).db, configs, inputs, ids).value.results))
  {
    var s := Run(INITIAL, before);
    batch := BatchIsRun(s, configs, inputs, ids);
    Reachable(before);
    RunKeepsInv(s, batch);
    BatchCarries(s.db, configs, inputs, ids);
    var results := Batch(s.db, configs, inputs, ids).value.results;
    forall after: seq<Label>, ids': seq<JobId> | |ids'| == |inputs|
      ensures
        var db := Run(Run(s, batch), after).db;
        Batch(db, configs, inputs, ids') == Ok(Outcome(db, results))
    {
      var db := Run(Run(s, batch), after).db;
      RunKeepsKeys(Run(s, batch), after);
      assert Carries(db, inputs, results);
      ReplayIsNoOp(db, configs, inputs, ids', results);
    }
  }
}
