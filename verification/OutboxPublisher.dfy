// Models publishBatch of apps/scheduler/src/events/outbox-publisher.ts as one publisher executes it
// while no other publisher interferes; module Outbox covers every interleaving.
module OutboxPublisher {
  import opened Wrappers
  import opened Outbox
  import opened Pages

  // The environment's answers for one event: did the message reach the broker, did the send
  // return, did the update that records publication succeed, did the update that releases the row?
  datatype Outcome = Outcome(delivered: bool, acked: bool, marked: bool, released: bool)

  predicate Publishes(o: Outcome) {
    o.acked && o.marked
  }

  // Neither publication nor the error could be recorded: publishBatch itself throws.
  predicate Throws(o: Outcome) {
    !Publishes(o) && !o.released
  }

  function FirstThrow(ids: seq<EventId>, outcome: EventId -> Outcome): (n: nat)
    ensures n <= |ids| && (n < |ids| ==> Throws(outcome(ids[n])))
    ensures forall i :: 0 <= i < n ==> !Throws(outcome(ids[i]))
  {
    if ids == [] || Throws(outcome(ids[0])) then 0 else 1 + FirstThrow(ids[1..], outcome)
  }

  // The rows the reserving query looks at: eligible, and not locked by another publisher.
  function Candidates(o: Outbox, at: Time, locked: set<EventId>): set<EventId> {
    set id | id in o.entries && id !in locked && Eligible(o.entries[id].row, at)
  }

  // What each statement asks of the row and writes into it.  A publisher reserves an unpublished row that
  // is free or whose reservation is more than a minute old, and counts the attempt; the row is published or
  // released whoever has reserved it by then.
  lemma RowEffect(e: Entry, now: Time, m: Move)
    ensures m.Reserve? ==>
      (CanMove(e, now, m) <==>
       && m.at <= now && e.row.publishedAt.None?
       && (e.row.reservedAt.None? || e.row.reservedAt.value + 60000 < m.at))
    ensures CanMove(e, now, m) ==>
      && (m.Reserve? ==> Moved(e, now, m).row == Row(e.row.createdAt, None, Some(now), e.row.attempts + 1))
      && (m.MarkPublished? ==> Moved(e, now, m).row == Row(e.row.createdAt, Some(now), None, e.row.attempts))
      && (m.MarkFailed? ==> Moved(e, now, m).row == Row(e.row.createdAt, e.row.publishedAt, None, e.row.attempts))
      && (m.Send? || m.MarkRefused? ==> Moved(e, now, m).row == e.row)
  {
  }

  lemma CandidateExactly(o: Outbox, at: Time, locked: set<EventId>, id: EventId)
    ensures
      id in Candidates(o, at, locked) <==>
      && id in o.entries && id !in locked && o.entries[id].row.publishedAt.None?
      && (o.entries[id].row.reservedAt.None? || o.entries[id].row.reservedAt.value + 60000 < at)
  {
  }

  // What the reserving query selects: candidates, oldest first, at most `limit`, and no older one left
  // out; all of them if they are fewer.
  ghost predicate IsSelection(o: Outbox, at: Time, locked: set<EventId>, limit: nat, ids: seq<EventId>) {
    && |ids| <= limit
    && (forall i :: 0 <= i < |ids| ==> ids[i] in Candidates(o, at, locked))
    && (forall i, k :: 0 <= i < k < |ids| ==> ids[i] != ids[k])
    && (forall i, k :: 0 <= i < k < |ids| ==> o.entries[ids[i]].row.createdAt <= o.entries[ids[k]].row.createdAt)
    && (forall id, i :: id in Candidates(o, at, locked) && id !in ids && 0 <= i < |ids| ==>
          o.entries[ids[i]].row.createdAt <= o.entries[id].row.createdAt)
    && (|ids| < limit ==> forall id :: id in Candidates(o, at, locked) ==> id in ids)
  }

  // The reservation a row was last given.
  function TicketOf(e: Entry): nat {
    e.row.attempts
  }

  // What publishing does to a reserved row: one send, and the reservation settled unless the release
  // fails too.
  ghost predicate Settled(reserved: Entry, after: Entry, o: Outcome) {
    var n := TicketOf(reserved);
    && after.sends == reserved.sends + 1 && after.delivered == reserved.delivered + One(o.delivered)
    && after.acks == reserved.acks + One(o.acked)
    && (if Throws(o)
        then Stands(after, n, Failing) && after.tickets - {n} == reserved.tickets - {n}
        else after.tickets == reserved.tickets - {n})
    && (after.row.publishedAt.Some? <==> reserved.row.publishedAt.Some? || Publishes(o))
    && after.row.reservedAt == (if Throws(o) then reserved.row.reservedAt else None)
    && after.row.attempts == reserved.row.attempts && after.reservations == reserved.reservations
    && after.row.createdAt == reserved.row.createdAt
  }

  // Only event `id` differs between two states of the outbox.
  ghost predicate Only(before: Outbox, after: Outbox, id: EventId) {
    && after.now == before.now && after.entries.Keys == before.entries.Keys
    && forall k :: k in after.entries && k != id ==> after.entries[k] == before.entries[k]
  }

  function SentStage(o: Outcome): Stage {
    if o.acked then Acked else Failing
  }

  // The statements of the loop body, one after the other.
  function Sent(e: Entry, now: Time, o: Outcome): (after: Entry)
    requires Stands(e, TicketOf(e), Pending) && (o.acked ==> o.delivered)
    ensures TicketOf(after) == TicketOf(e) && Stands(after, TicketOf(after), SentStage(o))
  {
    Moved(e, now, Send(TicketOf(e), o.delivered, o.acked))
  }

  function Marked(e: Entry, now: Time, o: Outcome): (after: Entry)
    requires Stands(e, TicketOf(e), SentStage(o))
    ensures TicketOf(after) == TicketOf(e) && (!Publishes(o) ==> Stands(after, TicketOf(after), Failing))
  {
    if !o.acked then e
    else Moved(e, now, if o.marked then MarkPublished(TicketOf(e)) else MarkRefused(TicketOf(e)))
  }

  function Released(e: Entry, now: Time, o: Outcome): Entry
    requires !Publishes(o) ==> Stands(e, TicketOf(e), Failing)
  {
    if Publishes(o) || !o.released then e else Moved(e, now, MarkFailed(TicketOf(e)))
  }

  lemma PublishedIsSettled(e: Entry, now: Time, o: Outcome)
    requires Stands(e, TicketOf(e), Pending) && (o.acked ==> o.delivered)
    ensures Settled(e, Released(Marked(Sent(e, now, o), now, o), now, o), o)
  {
    var sent := Sent(e, now, o);
    var marked := Marked(sent, now, o);
    if Publishes(o) {
      assert marked.tickets == e.tickets - {TicketOf(e)};
    } else if o.released {
      assert Released(marked, now, o).tickets == e.tickets - {TicketOf(e)};
    }
  }

  // The batch was reserved, its first n events were sent and settled, and no other row changed.
  ghost predicate Progress(before: Outbox, after: Outbox, ids: seq<EventId>, at: Time, outcome: EventId -> Outcome,
                           n: nat)
    requires at <= before.now
    requires forall i :: 0 <= i < |ids| ==> ids[i] in before.entries && Eligible(before.entries[ids[i]].row, at)
  {
    && after.now == before.now && after.entries.Keys == before.entries.Keys
    && (forall id :: id in after.entries && id !in ids ==> after.entries[id] == before.entries[id])
    && (forall i :: 0 <= i < |ids| ==>
          var reserved := Moved(before.entries[ids[i]], before.now, Reserve(at));
          if i < n then Settled(reserved, after.entries[ids[i]], outcome(ids[i]))
          else after.entries[ids[i]] == reserved)
  }

  // The first n rows of the batch are reserved, and no other row changed.
  ghost predicate ReservedTo(before: Outbox, after: Outbox, ids: seq<EventId>, at: Time, n: nat)
    requires at <= before.now
    requires forall i :: 0 <= i < |ids| ==> ids[i] in before.entries && Eligible(before.entries[ids[i]].row, at)
  {
    && after.now == before.now && after.entries.Keys == before.entries.Keys
    && (forall id :: id in after.entries && id !in ids ==> after.entries[id] == before.entries[id])
    && (forall i :: 0 <= i < |ids| ==>
          after.entries[ids[i]] == ReservedRow(before.entries[ids[i]], before.now, at, i < n))
  }

  function ReservedRow(e: Entry, now: Time, at: Time, reserved: bool): Entry
    requires at <= now && Eligible(e.row, at)
  {
    if reserved then Moved(e, now, Reserve(at)) else e
  }

  lemma OneReserved(before: Outbox, mid: Outbox, ids: seq<EventId>, at: Time, locked: set<EventId>, limit: nat, n: nat)
    requires at <= before.now && IsSelection(before, at, locked, limit, ids) && n < |ids|
    requires ReservedTo(before, mid, ids, at, n)
    ensures ids[n] in mid.entries && CanMove(mid.entries[ids[n]], mid.now, Reserve(at))
    ensures ReservedTo(before, Apply(mid, Touch(ids[n], Reserve(at))), ids, at, n + 1)
  {
    assert mid.entries[ids[n]] == before.entries[ids[n]];
    var after := Apply(mid, Touch(ids[n], Reserve(at)));
    forall i | 0 <= i < |ids|
      ensures after.entries[ids[i]] == ReservedRow(before.entries[ids[i]], before.now, at, i < n + 1)
    {
      assert i != n ==> ids[i] != ids[n];
    }
  }

  lemma OneFurther(before: Outbox, mid: Outbox, after: Outbox, ids: seq<EventId>, at: Time, locked: set<EventId>,
                   limit: nat, outcome: EventId -> Outcome, n: nat)
    requires at <= before.now && IsSelection(before, at, locked, limit, ids) && n < |ids|
    requires Progress(before, mid, ids, at, outcome, n)
    requires Only(mid, after, ids[n])
    requires Settled(mid.entries[ids[n]], after.entries[ids[n]], outcome(ids[n]))
    ensures Progress(before, after, ids, at, outcome, n + 1)
  {
    assert mid.entries[ids[n]] == Moved(before.entries[ids[n]], before.now, Reserve(at));
    forall i | 0 <= i < |ids| && i != n
      ensures after.entries[ids[i]] == mid.entries[ids[i]]
    {
      assert ids[i] != ids[n];
    }
  }

  class Publisher {
    const batchSize: nat
    var connected: bool
    var outbox: Outbox

    constructor (batchSize: nat, outbox: Outbox)
      ensures this.batchSize == batchSize && this.outbox == outbox && !connected
    {
      this.batchSize := batchSize;
      this.outbox := outbox;
      connected := false;
    }

    method Connect()
      modifies this`connected
      ensures connected
    {
      connected := true;
    }

    // One statement on one row, which lengthens the run that led here by one step.
    method Execute(id: EventId, m: Move, ghost before: Outbox, ghost prefix: seq<Label>) returns (ghost ls: seq<Label>)
      requires id in outbox.entries && CanMove(outbox.entries[id], outbox.now, m)
      requires outbox == Run(before, prefix)
      modifies this`outbox
      ensures ls == prefix + [Touch(id, m)] && outbox == Run(before, ls)
      ensures outbox == Apply(old(outbox), Touch(id, m))
    {
      LongerRun(before, prefix, Touch(id, m));
      outbox := outbox.(entries := outbox.entries[id := Moved(outbox.entries[id], outbox.now, m)]);
      ls := prefix + [Touch(id, m)];
    }

    method SelectBatch(at: Time, locked: set<EventId>) returns (ids: seq<EventId>)
      ensures IsSelection(outbox, at, locked, batchSize, ids)
    {
      var o := outbox;
      var createdAt := id => if id in o.entries then o.entries[id].row.createdAt else 0;
      ids := Page(Candidates(o, at, locked), createdAt, batchSize);
    }

    // The oldest eligible events that nobody else has locked are reserved, and no other row changes.
    method ReserveBatch(at: Time, locked: set<EventId>, ghost outcome: EventId -> Outcome)
      returns (ids: seq<EventId>, ghost ls: seq<Label>)
      requires at <= outbox.now
      modifies this`outbox
      ensures outbox == Run(old(outbox), ls)
      ensures IsSelection(old(outbox), at, locked, batchSize, ids)
      ensures Progress(old(outbox), outbox, ids, at, outcome, 0)
    {
      ids := SelectBatch(at, locked);
      ls := [];
      for n := 0 to |ids|
        invariant outbox == Run(old(outbox), ls)
        invariant ReservedTo(old(outbox), outbox, ids, at, n)
      {
        OneReserved(old(outbox), outbox, ids, at, locked, batchSize, n);
        ls := Execute(ids[n], Reserve(at), old(outbox), ls);
      }
    }

    // What follows an acknowledgement: the update that records publication.
    method Mark(id: EventId, o: Outcome, ghost before: Outbox, ghost prefix: seq<Label>) returns (ghost ls: seq<Label>)
      requires id in outbox.entries && Stands(outbox.entries[id], TicketOf(outbox.entries[id]), SentStage(o))
      requires outbox == Run(before, prefix)
      modifies this`outbox
      ensures outbox == Run(before, ls) && Only(old(outbox), outbox, id)
      ensures outbox.entries[id] == Marked(old(outbox.entries[id]), outbox.now, o)
    {
      ls := prefix;
      var n := TicketOf(outbox.entries[id]);
      if o.acked {
        ls := Execute(id, if o.marked then MarkPublished(n) else MarkRefused(n), before, prefix);
      }
    }

    // The catch block: the row is released, or the error escapes.
    method Release(id: EventId, o: Outcome, ghost before: Outbox, ghost prefix: seq<Label>)
      returns (caught: bool, ghost ls: seq<Label>)
      requires id in outbox.entries
      requires !Publishes(o) ==> Stands(outbox.entries[id], TicketOf(outbox.entries[id]), Failing)
      requires outbox == Run(before, prefix)
      modifies this`outbox
      ensures outbox == Run(before, ls) && Only(old(outbox), outbox, id)
      ensures outbox.entries[id] == Released(old(outbox.entries[id]), outbox.now, o)
      ensures caught == !Throws(o)
    {
      ls := prefix;
      if !Publishes(o) {
        if !o.released {
          return false, ls;
        }
        ls := Execute(id, MarkFailed(TicketOf(outbox.entries[id])), before, prefix);
      }
      return true, ls;
    }

    // The body of the loop over the reserved events; false when an error escapes it.
    method PublishOne(id: EventId, o: Outcome, ghost before: Outbox, ghost prefix: seq<Label>)
      returns (caught: bool, ghost ls: seq<Label>)
      requires id in outbox.entries && Stands(outbox.entries[id], TicketOf(outbox.entries[id]), Pending)
      requires o.acked ==> o.delivered
      requires outbox == Run(before, prefix)
      modifies this`outbox
      ensures outbox == Run(before, ls)
      ensures caught == !Throws(o)
      ensures Only(old(outbox), outbox, id)
      ensures Settled(old(outbox.entries[id]), outbox.entries[id], o)
      ensures o.acked && o.marked ==> outbox.entries[id].row.publishedAt == Some(outbox.now)
      ensures !(o.acked && o.marked) ==>
        outbox.entries[id].row.publishedAt == old(outbox.entries[id]).row.publishedAt
    {
      PublishedIsSettled(outbox.entries[id], outbox.now, o);
      ls := Execute(id, Send(TicketOf(outbox.entries[id]), o.delivered, o.acked), before, prefix);
      ls := Mark(id, o, before, ls);
      caught, ls := Release(id, o, before, ls);
    }

    // The oldest eligible events are reserved; without a producer nothing else happens; otherwise
    // each is sent once, in order, and ends published, or released for the next batch, up to the
    // first one whose error cannot be recorded.  The whole is a run of the outbox protocol.
    method PublishBatch(at: Time, locked: set<EventId>, outcome: EventId -> Outcome)
      returns (count: Option<nat>, ids: seq<EventId>, ghost ls: seq<Label>)
      requires at <= outbox.now && forall id :: outcome(id).acked ==> outcome(id).delivered
      modifies this`outbox
      ensures outbox == Run(old(outbox), ls)
      ensures IsSelection(old(outbox), at, locked, batchSize, ids)
      ensures count == if !connected then Some(0) else if FirstThrow(ids, outcome) < |ids| then None else Some(|ids|)
      ensures Progress(old(outbox), outbox, ids, at, outcome, if connected then FirstThrow(ids, outcome) + 1 else 0)
    {
      ids, ls := ReserveBatch(at, locked, outcome);
      if !connected || |ids| == 0 {
        return Some(0), ids, ls;
      }
      for n := 0 to |ids|
        invariant n <= FirstThrow(ids, outcome)
        invariant outbox == Run(old(outbox), ls)
        invariant Progress(old(outbox), outbox, ids, at, outcome, n)
      {
        ghost var mid := outbox;
        assert mid.entries[ids[n]] == Moved(old(outbox).entries[ids[n]], old(outbox).now, Reserve(at));
        var caught;
        caught, ls := PublishOne(ids[n], outcome(ids[n]), old(outbox), ls);
        OneFurther(old(outbox), mid, outbox, ids, at, locked, batchSize, outcome, n);
        if !caught {
          return None, ids, ls;
        }
      }
      return Some(|ids|), ids, ls;
    }
  }
}
