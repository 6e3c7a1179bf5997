// Head-of-line blocking in the outbox: a publisher that works alone takes the oldest eligible events, and
// an event it cannot send is eligible again as soon as it has been released.
module OutboxBacklog {
  import opened Wrappers
  import opened Outbox
  import opened OutboxPublisher
  import opened Pages

  // ---- which events a batch takes ----

  ghost function OlderThan(o: Outbox, at: Time, locked: set<EventId>, k: EventId): set<EventId>
    requires k in o.entries
  {
    set id | id in Candidates(o, at, locked) && o.entries[id].row.createdAt < o.entries[k].row.createdAt
  }

  ghost function NotYoungerThan(o: Outbox, at: Time, locked: set<EventId>, k: EventId): set<EventId>
    requires k in o.entries
  {
    set id | id in Candidates(o, at, locked) && id != k && o.entries[id].row.createdAt <= o.entries[k].row.createdAt
  }

  // With as many older events as a batch holds, k is left out ...
  lemma OlderEventsCrowdOut(o: Outbox, at: Time, locked: set<EventId>, limit: nat, ids: seq<EventId>, k: EventId)
    requires IsSelection(o, at, locked, limit, ids) && k in o.entries && limit <= |OlderThan(o, at, locked, k)|
    ensures k !in ids
  {
    if k in ids {
      var older := OlderThan(o, at, locked, k);
      forall id | id in older + {k}
        ensures id in Elements(ids)
      {
        assert id in ids;
        var i :| 0 <= i < |ids| && ids[i] == id;
      }
      ElementsOf(ids);
      SubsetSize(older + {k}, Elements(ids));
    }
  }

  // ... and taken once fewer than that are as old.  Only events of the same instant, whose order the
  // query leaves open, lie between the two.
  lemma OldEventIsTaken(o: Outbox, at: Time, locked: set<EventId>, limit: nat, ids: seq<EventId>, k: EventId)
    requires IsSelection(o, at, locked, limit, ids) && k in Candidates(o, at, locked)
    requires |NotYoungerThan(o, at, locked, k)| < limit
    ensures k in ids
  {
    if k !in ids {
      ElementsOf(ids);
      forall id | id in Elements(ids)
        ensures id in NotYoungerThan(o, at, locked, k)
      {
        assert id in ids;
      }
      SubsetSize(Elements(ids), NotYoungerThan(o, at, locked, k));
    }
  }

  // ---- events that cannot be sent ----

  predicate Open(e: Entry) {
    e.row.publishedAt.None? && e.row.reservedAt.None?
  }

  // Time passes, or an event is written.
  predicate Idles(before: Outbox, after: Outbox, l: Label) {
    (l.Tick? || l.Insert?) && after == Apply(before, l)
  }

  // One batch of a connected publisher that works alone: every event it cannot publish is released, and
  // it can publish none of `failing`.
  ghost predicate Batches(before: Outbox, after: Outbox, limit: nat, failing: set<EventId>, at: Time,
                          ids: seq<EventId>, outcome: EventId -> Outcome) {
    && at <= before.now && IsSelection(before, at, {}, limit, ids)
    && (forall id :: id in ids ==> !Throws(outcome(id)) && (id in failing ==> !Publishes(outcome(id))))
    && Progress(before, after, ids, at, outcome, |ids|)
  }

  ghost predicate Turns(before: Outbox, after: Outbox, limit: nat, failing: set<EventId>) {
    || (exists l :: Idles(before, after, l))
    || exists at, ids, outcome :: Batches(before, after, limit, failing, at, ids, outcome)
  }

  ghost predicate Follows(os: seq<Outbox>, limit: nat, failing: set<EventId>) {
    os != [] && forall i :: 0 <= i < |os| - 1 ==> Turns(os[i], os[i + 1], limit, failing)
  }

  // The failing events are open and older than event k.
  predicate Blocks(o: Outbox, failing: set<EventId>, k: EventId) {
    && k in o.entries
    && forall id :: id in failing ==>
      id in o.entries && Open(o.entries[id]) && o.entries[id].row.createdAt < o.entries[k].row.createdAt
  }

  lemma BatchPassesBy(before: Outbox, after: Outbox, limit: nat, failing: set<EventId>, k: EventId, at: Time,
                      ids: seq<EventId>, outcome: EventId -> Outcome)
    requires Batches(before, after, limit, failing, at, ids, outcome)
    requires Blocks(before, failing, k) && limit <= |failing|
    ensures Blocks(after, failing, k) && after.entries[k] == before.entries[k]
  {
    SubsetSize(failing, OlderThan(before, at, {}, k));
    OlderEventsCrowdOut(before, at, {}, limit, ids, k);
    forall id | id in failing
      ensures Open(after.entries[id]) && after.entries[id].row.createdAt == before.entries[id].row.createdAt
    {
      if id in ids {
        var i :| 0 <= i < |ids| && ids[i] == id;
        assert Settled(Moved(before.entries[id], before.now, Reserve(at)), after.entries[id], outcome(id));
      }
    }
  }

  lemma TurnPassesBy(before: Outbox, after: Outbox, limit: nat, failing: set<EventId>, k: EventId)
    requires Turns(before, after, limit, failing) && Blocks(before, failing, k) && limit <= |failing|
    ensures Blocks(after, failing, k) && after.entries[k] == before.entries[k]
  {
    if l :| Idles(before, after, l) {
    } else {
      var at, ids, outcome :| Batches(before, after, limit, failing, at, ids, outcome);
      BatchPassesBy(before, after, limit, failing, k, at, ids, outcome);
    }
  }

  // As many events as a batch holds, none of which can be sent, keep a lone publisher from every later
  // event for ever: each failure releases the row, which is then the oldest again.
  lemma {:induction false} FailingEventsBlock(os: seq<Outbox>, limit: nat, failing: set<EventId>, k: EventId)
    requires Follows(os, limit, failing) && Blocks(os[0], failing, k) && limit <= |failing|
    ensures Blocks(os[|os| - 1], failing, k) && os[|os| - 1].entries[k] == os[0].entries[k]
  {
    if |os| > 1 {
      var front := os[..|os| - 1];
      FailingEventsBlock(front, limit, failing, k);
      assert Turns(os[|os| - 2], os[|os| - 2 + 1], limit, failing);
      TurnPassesBy(os[|os| - 2], os[|os| - 1], limit, failing, k);
    }
  }
}
