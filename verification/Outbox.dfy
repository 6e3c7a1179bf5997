// Models apps/scheduler/src/events/outbox-publisher.ts: publishers reserve outbox rows, send them to
// Kafka and mark them.  Publishers interleave freely, sends may be lost or acknowledged late, and a
// publisher that crashes simply takes no further step.
module Outbox {
  import opened Wrappers

  type EventId = nat

  const RESERVATION_MS: Time := 60000

  datatype Row = Row(createdAt: Time, publishedAt: Option<Time>, reservedAt: Option<Time>, attempts: nat)

  // Where the publisher that made a reservation stands: about to send, acknowledged but not recorded,
  // or about to release the row after an error.
  datatype Stage = Pending | Acked | Failing

  datatype Ticket = Ticket(since: Time, stage: Stage)

  // A row with its history: the reservations that have not been settled yet, by attempt number; how
  // often it was sent, reached the broker and was acknowledged; and when it was reserved.
  datatype Entry = Entry(
    row: Row,
    tickets: map<nat, Ticket>,
    sends: nat,
    delivered: nat,
    acks: nat,
    reservations: seq<Time>)

  datatype Outbox = Outbox(now: Time, entries: map<EventId, Entry>)

  const EMPTY := Outbox(0, map[])

  predicate Eligible(row: Row, at: Time) {
    row.publishedAt.None? && (row.reservedAt.None? || row.reservedAt.value < at - RESERVATION_MS)
  }

  // ---- what one statement of a publisher does to one row ----

  datatype Move =
    | Reserve(at: Time)                        // `at` is the transaction's NOW()
    | Send(n: nat, delivered: bool, acked: bool)
    | MarkPublished(n: nat)
    | MarkRefused(n: nat)                      // the update that records publication throws
    | MarkFailed(n: nat)

  predicate Stands(e: Entry, n: nat, stage: Stage) {
    n in e.tickets && e.tickets[n].stage == stage
  }

  predicate CanMove(e: Entry, now: Time, m: Move) {
    match m
    case Reserve(at) => at <= now && Eligible(e.row, at)
    case Send(n, delivered, acked) => Stands(e, n, Pending) && (acked ==> delivered)
    case MarkPublished(n) => Stands(e, n, Acked)
    case MarkRefused(n) => Stands(e, n, Acked)
    case MarkFailed(n) => Stands(e, n, Failing)
  }

  function Advanced(e: Entry, n: nat, stage: Stage): map<nat, Ticket>
    requires n in e.tickets
  {
    e.tickets[n := e.tickets[n].(stage := stage)]
  }

  function Moved(e: Entry, now: Time, m: Move): Entry
    requires CanMove(e, now, m)
  {
    match m
    case Reserve(_) =>
      e.(row := e.row.(reservedAt := Some(now), attempts := e.row.attempts + 1),
         tickets := e.tickets[e.row.attempts + 1 := Ticket(now, Pending)], reservations := e.reservations + [now])
    case Send(n, delivered, acked) =>
      e.(tickets := Advanced(e, n, if acked then Acked else Failing), sends := e.sends + 1,
         delivered := e.delivered + One(delivered), acks := e.acks + One(acked))
    case MarkPublished(n) =>
      e.(row := e.row.(publishedAt := Some(now), reservedAt := None), tickets := e.tickets - {n})
    case MarkRefused(n) => e.(tickets := Advanced(e, n, Failing))
    case MarkFailed(n) => e.(row := e.row.(reservedAt := None), tickets := e.tickets - {n})
  }

  // ---- the outbox as a state machine ----

  datatype Label = Tick(elapsed: nat) | Insert(id: EventId) | Touch(id: EventId, m: Move)

  function FreshEntry(now: Time): Entry {
    Entry(Row(now, None, None, 0), map[], 0, 0, 0, [])
  }

  function Apply(s: Outbox, l: Label): Outbox {
    match l
    case Tick(elapsed) => s.(now := s.now + elapsed)
    case Insert(id) => if id in s.entries then s else s.(entries := s.entries[id := FreshEntry(s.now)])
    case Touch(id, m) =>
      if id in s.entries && CanMove(s.entries[id], s.now, m)
      then s.(entries := s.entries[id := Moved(s.entries[id], s.now, m)])
      else s
  }

  function Run(s: Outbox, ls: seq<Label>): Outbox {
    if ls == [] then s else Apply(Run(s, ls[..|ls| - 1]), ls[|ls| - 1])
  }

  function PendingIn(tickets: map<nat, Ticket>): set<nat> {
    set n | n in tickets && tickets[n].stage.Pending?
  }

  // The publishers that are about to send the event.
  function PendingOf(e: Entry): set<nat> {
    PendingIn(e.tickets)
  }

  ghost predicate EntryOk(e: Entry, now: Time) {
    && e.row.attempts == |e.reservations|
    && e.sends + |PendingOf(e)| <= e.row.attempts
    && e.acks <= e.delivered <= e.sends
    && (e.row.publishedAt.Some? ==> e.acks >= 1)
    && (forall n :: n in e.tickets ==> n <= e.row.attempts && (e.tickets[n].stage.Acked? ==> e.acks >= 1))
    && (e.row.reservedAt.Some? ==>
          e.reservations != [] && e.row.reservedAt.value == e.reservations[|e.reservations| - 1])
    && (forall i :: 0 <= i < |e.reservations| ==> e.reservations[i] <= now)
  }

  lemma PendingAfter(tickets: map<nat, Ticket>, n: nat, ticket: Ticket)
    ensures PendingIn(tickets[n := ticket]) == PendingIn(tickets) - {n} + (if ticket.stage.Pending? then {n} else {})
  {
  }

  lemma ReservePends(e: Entry, now: Time, at: Time)
    requires CanMove(e, now, Reserve(at)) && (forall n :: n in e.tickets ==> n <= e.row.attempts)
    ensures |PendingOf(Moved(e, now, Reserve(at)))| == |PendingOf(e)| + 1
  {
    var n := e.row.attempts + 1;
    PendingAfter(e.tickets, n, Ticket(now, Pending));
    assert n !in PendingIn(e.tickets);
    assert PendingOf(Moved(e, now, Reserve(at))) == PendingIn(e.tickets) + {n};
  }

  lemma SendSettlesPending(e: Entry, now: Time, n: nat, delivered: bool, acked: bool)
    requires CanMove(e, now, Send(n, delivered, acked))
    ensures |PendingOf(Moved(e, now, Send(n, delivered, acked)))| == |PendingOf(e)| - 1
  {
    PendingAfter(e.tickets, n, e.tickets[n].(stage := if acked then Acked else Failing));
    assert n in PendingIn(e.tickets);
    assert PendingOf(Moved(e, now, Send(n, delivered, acked))) == PendingIn(e.tickets) - {n};
  }

  lemma MarkKeepsPending(e: Entry, now: Time, m: Move)
    requires CanMove(e, now, m) && !m.Reserve? && !m.Send?
    ensures PendingOf(Moved(e, now, m)) == PendingOf(e)
  {
  }

  lemma PendingMoves(e: Entry, now: Time, m: Move)
    requires CanMove(e, now, m) && (forall n :: n in e.tickets ==> n <= e.row.attempts)
    ensures |PendingOf(Moved(e, now, m))| == |PendingOf(e)| + (if m.Reserve? then 1 else if m.Send? then -1 else 0)
  {
    match m
    case Reserve(at) => ReservePends(e, now, at);
    case Send(n, delivered, acked) => SendSettlesPending(e, now, n, delivered, acked);
    case _ => MarkKeepsPending(e, now, m);
  }

  lemma MoveKeepsEntry(e: Entry, now: Time, m: Move)
    requires EntryOk(e, now) && CanMove(e, now, m)
    ensures EntryOk(Moved(e, now, m), now)
  {
    PendingMoves(e, now, m);
  }

  lemma {:induction false} RunKeepsEntries(s: Outbox, ls: seq<Label>)
    requires forall id :: id in s.entries ==> EntryOk(s.entries[id], s.now)
    ensures forall id :: id in Run(s, ls).entries ==> EntryOk(Run(s, ls).entries[id], Run(s, ls).now)
  {
    if ls != [] {
      var u, l := Run(s, ls[..|ls| - 1]), ls[|ls| - 1];
      RunKeepsEntries(s, ls[..|ls| - 1]);
      if l.Touch? && l.id in u.entries && CanMove(u.entries[l.id], u.now, l.m) {
        MoveKeepsEntry(u.entries[l.id], u.now, l.m);
      } else if l.Insert? {
        assert PendingOf(FreshEntry(u.now)) == {};
      }
    }
  }

  // At least once, over every interleaving of publishers, crashes, lost sends and late
  // acknowledgements: a published event reached the broker, and an event is sent at most once per
  // reservation.
  lemma AtLeastOnce(ls: seq<Label>, id: EventId)
    requires id in Run(EMPTY, ls).entries
    ensures
      var e := Run(EMPTY, ls).entries[id];
      && (e.row.publishedAt.Some? ==> e.delivered >= 1)
      && e.delivered <= e.sends && e.sends + |PendingOf(e)| <= e.row.attempts == |e.reservations|
  {
    RunKeepsEntries(EMPTY, ls);
  }

  // An unpublished event is refused to publishers for at most one minute after its last
  // reservation, whoever reserved or released it meanwhile.
  lemma EligibleAgain(ls: seq<Label>, id: EventId, at: Time)
    requires id in Run(EMPTY, ls).entries && Run(EMPTY, ls).entries[id].row.publishedAt.None?
    requires !Eligible(Run(EMPTY, ls).entries[id].row, at)
    ensures
      var e := Run(EMPTY, ls).entries[id];
      e.reservations != [] && at <= e.reservations[|e.reservations| - 1] + RESERVATION_MS
  {
    RunKeepsEntries(EMPTY, ls);
  }

  lemma MoveAfterPublication(e: Entry, now: Time, m: Move)
    requires e.row.publishedAt.Some? && CanMove(e, now, m) && (forall n :: n in e.tickets ==> n <= e.row.attempts)
    ensures
      var e' := Moved(e, now, m);
      && e'.row.publishedAt.Some? && e'.reservations == e.reservations && e'.row.attempts == e.row.attempts
      && e'.sends + |PendingOf(e')| == e.sends + |PendingOf(e)| && e'.tickets.Keys <= e.tickets.Keys
  {
    PendingMoves(e, now, m);
  }

  // Publication is final, over every continuation: the event is never reserved again, and only
  // publishers that already held it can still send it, once each.
  lemma {:induction false} PublicationIsFinal(s: Outbox, ls: seq<Label>, id: EventId)
    requires id in s.entries && s.entries[id].row.publishedAt.Some? && EntryOk(s.entries[id], s.now)
    ensures
      id in Run(s, ls).entries
      && var e, e' := s.entries[id], Run(s, ls).entries[id];
      && e'.row.publishedAt.Some? && e'.reservations == e.reservations && e'.row.attempts == e.row.attempts
      && e'.sends + |PendingOf(e')| == e.sends + |PendingOf(e)| && e'.tickets.Keys <= e.tickets.Keys
  {
    if ls != [] {
      var u, l := Run(s, ls[..|ls| - 1]), ls[|ls| - 1];
      PublicationIsFinal(s, ls[..|ls| - 1], id);
      if l.Touch? && l.id == id && CanMove(u.entries[id], u.now, l.m) {
        MoveAfterPublication(u.entries[id], u.now, l.m);
      }
    }
  }

  // ---- one publisher at a time ----

  // At most one publisher holds the event: pending, acknowledged or about to release it.
  ghost predicate OneHolder(e: Entry) {
    forall a, b :: a in e.tickets && b in e.tickets ==> a == b
  }

  // A publisher has held its reservation for longer than a minute.
  ghost predicate Late(e: Entry, now: Time) {
    exists n :: n in e.tickets && e.tickets[n].since + RESERVATION_MS < now
  }

  // The row still carries the holder's own reservation.
  ghost predicate OwnsReservation(e: Entry) {
    forall n :: n in e.tickets ==> e.row.publishedAt.None? && e.row.reservedAt == Some(e.tickets[n].since)
  }

  lemma TimelyMove(e: Entry, now: Time, m: Move)
    requires OneHolder(e) && OwnsReservation(e) && !Late(e, now) && CanMove(e, now, m)
    ensures OneHolder(Moved(e, now, m)) && OwnsReservation(Moved(e, now, m))
  {
    assert forall n :: n in e.tickets ==> now <= e.tickets[n].since + RESERVATION_MS;
  }

  lemma LateMove(e: Entry, now: Time)
    requires OneHolder(e) && OwnsReservation(e) && Late(e, now) && forall n :: n in e.tickets ==> n <= e.row.attempts
    ensures CanMove(e, now, Reserve(now)) && !OneHolder(Moved(e, now, Reserve(now)))
  {
    var n :| n in e.tickets && e.tickets[n].since + RESERVATION_MS < now;
    var after := Moved(e, now, Reserve(now));
    assert n in after.tickets && e.row.attempts + 1 in after.tickets && n != e.row.attempts + 1;
  }

  // Before every step of the run, whoever held the event had held it for a minute at most.
  ghost predicate Timely(ls: seq<Label>, id: EventId) {
    ls == []
    || (Timely(ls[..|ls| - 1], id)
        && var u := Run(EMPTY, ls[..|ls| - 1]); id in u.entries ==> !Late(u.entries[id], u.now))
  }

  lemma {:induction false} TimelyRun(ls: seq<Label>, id: EventId)
    requires Timely(ls, id)
    ensures id in Run(EMPTY, ls).entries ==>
      OneHolder(Run(EMPTY, ls).entries[id]) && OwnsReservation(Run(EMPTY, ls).entries[id])
  {
    if ls != [] {
      var u, l := Run(EMPTY, ls[..|ls| - 1]), ls[|ls| - 1];
      TimelyRun(ls[..|ls| - 1], id);
      if l.Touch? && l.id == id && id in u.entries && CanMove(u.entries[id], u.now, l.m) {
        TimelyMove(u.entries[id], u.now, l.m);
      }
    }
  }

  // The next step cannot give the event a second holder.
  ghost predicate StaysExclusive(s: Outbox, id: EventId)
    requires id in s.entries
  {
    forall m: Move :: CanMove(s.entries[id], s.now, m) ==> OneHolder(Moved(s.entries[id], s.now, m))
  }

  // Reservations are exclusive exactly as long as every publisher settles within a minute of its own
  // reservation, whether by publishing the event or by releasing it: until then at most one publisher
  // holds the event, and as soon as one is late the next step can give it a second.
  lemma ReservationsAreExclusive(ls: seq<Label>, id: EventId)
    requires Timely(ls, id) && id in Run(EMPTY, ls).entries
    ensures
      var s := Run(EMPTY, ls);
      && |s.entries[id].tickets| <= 1
      && (StaysExclusive(s, id) <==> !Late(s.entries[id], s.now))
  {
    var s := Run(EMPTY, ls);
    var e := s.entries[id];
    TimelyRun(ls, id);
    RunKeepsEntries(EMPTY, ls);
    AtMostOneTicket(e);
    if Late(e, s.now) {
      LateMove(e, s.now);
    } else {
      forall m: Move | CanMove(e, s.now, m)
        ensures OneHolder(Moved(e, s.now, m))
      {
        TimelyMove(e, s.now, m);
      }
    }
  }

  lemma AtMostOneTicket(e: Entry)
    requires OneHolder(e)
    ensures |e.tickets| <= 1
  {
    if e.tickets != map[] {
      var n :| n in e.tickets;
      assert e.tickets == map[n := e.tickets[n]];
    }
  }

  // ---- what a late publisher can do ----

  lemma LongerRun(s: Outbox, ls: seq<Label>, l: Label)
    ensures Run(s, ls + [l]) == Apply(Run(s, ls), l)
  {
    assert (ls + [l])[..|ls|] == ls;
  }

  // One event, one move further.
  lemma Extend(ls: seq<Label>, now: Time, e: Entry, m: Move, after: Entry)
    requires Run(EMPTY, ls) == Outbox(now, map[0 := e]) && CanMove(e, now, m) && after == Moved(e, now, m)
    ensures Run(EMPTY, ls + [Touch(0, m)]) == Outbox(now, map[0 := after])
  {
    LongerRun(EMPTY, ls, Touch(0, m));
  }

  const STALE := Entry(Row(0, None, Some(60001), 2), map[1 := Ticket(0, Failing), 2 := Ticket(60001, Pending)],
                       1, 0, 0, [0, 60001])

  lemma StaleReservation() returns (ls: seq<Label>)
    ensures Run(EMPTY, ls) == Outbox(60001, map[0 := STALE])
  {
    ls := [Insert(0)];
    LongerRun(EMPTY, [], Insert(0));
    var e := FreshEntry(0);
    var e1 := Entry(Row(0, None, Some(0), 1), map[1 := Ticket(0, Pending)], 0, 0, 0, [0]);
    assert [] + [0] == [0];
    Extend(ls, 0, e, Reserve(0), e1);
    ls := ls + [Touch(0, Reserve(0))];
    var e2 := Entry(Row(0, None, Some(0), 1), map[1 := Ticket(0, Failing)], 1, 0, 0, [0]);
    Extend(ls, 0, e1, Send(1, false, false), e2);
    ls := ls + [Touch(0, Send(1, false, false))];
    LongerRun(EMPTY, ls, Tick(60001));
    ls := ls + [Tick(60001)];
    assert [0] + [60001] == [0, 60001];
    Extend(ls, 60001, e2, Reserve(60001), STALE);
    ls := ls + [Touch(0, Reserve(60001))];
  }

  // A late publisher releases the row that another one has just reserved, a third reserves it at the
  // same instant, and both deliver it.
  lemma StalePublisherStealsReservation() returns (ls: seq<Label>)
    ensures
      var e := Run(EMPTY, ls).entries;
      0 in e && e[0].reservations == [0, 60001, 60001] && e[0].delivered == 2
  {
    ls := StaleReservation();
    var e1 := Entry(Row(0, None, None, 2), map[2 := Ticket(60001, Pending)], 1, 0, 0, [0, 60001]);
    Extend(ls, 60001, STALE, MarkFailed(1), e1);
    ls := ls + [Touch(0, MarkFailed(1))];
    var e2 := Entry(Row(0, None, Some(60001), 3), map[2 := Ticket(60001, Pending), 3 := Ticket(60001, Pending)],
                    1, 0, 0, [0, 60001, 60001]);
    assert [0, 60001] + [60001] == [0, 60001, 60001];
    Extend(ls, 60001, e1, Reserve(60001), e2);
    ls := ls + [Touch(0, Reserve(60001))];
    var e3 := Entry(Row(0, None, Some(60001), 3), map[2 := Ticket(60001, Acked), 3 := Ticket(60001, Pending)], 2, 1, 1,
                    [0, 60001, 60001]);
    Extend(ls, 60001, e2, Send(2, true, true), e3);
    ls := ls + [Touch(0, Send(2, true, true))];
    var e4 := Entry(Row(0, None, Some(60001), 3), map[2 := Ticket(60001, Acked), 3 := Ticket(60001, Acked)], 3, 2, 2,
                    [0, 60001, 60001]);
    Extend(ls, 60001, e3, Send(3, true, true), e4);
    ls := ls + [Touch(0, Send(3, true, true))];
  }
}
