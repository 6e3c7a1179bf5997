// Models apps/api/src/common/rate-limiter.ts: a fixed-window request counter in Redis, with Redis as
// a table of counters that expire.
module RateLimiter {
  import opened Wrappers

  type Millis = nat
  type Window = x: nat | 0 < x witness 1

  datatype Bucket = Bucket(window: nat, key: string)

  // expiresAt is absent when the expiry could not be set.
  datatype Counter = Counter(count: nat, expiresAt: Option<Millis>)

  // What the client saw of the two commands; a lost command may have been executed all the same.
  datatype Reply = Up | IncrLost(executed: bool) | ExpireLost(executed: bool)

  datatype Request = Request(key: string, at: Millis, reply: Reply)

  function BucketOf(r: Request, w: Window): Bucket {
    Bucket(r.at / w, r.key)
  }

  // INCR: an expired counter is an absent one.
  function CountAfter(counters: map<Bucket, Counter>, b: Bucket, at: Millis): nat {
    if Live(counters, b, at) then counters[b].count + 1 else 1
  }

  predicate Live(counters: map<Bucket, Counter>, b: Bucket, at: Millis) {
    b in counters && (counters[b].expiresAt.None? || at < counters[b].expiresAt.value)
  }

  function Visit(counters: map<Bucket, Counter>, r: Request, w: Window): map<Bucket, Counter> {
    var b := BucketOf(r, w);
    if r.reply == IncrLost(false) then counters
    else
      var count := CountAfter(counters, b, r.at);
      var kept := if count > 1 then counters[b].expiresAt else None;
      var expires := count == 1 && (r.reply.Up? || r.reply == ExpireLost(true));
      counters[b := Counter(count, if expires then Some(r.at + w) else kept)]
  }

  // An error on either command lets the request through; EXPIRE is only sent at a count of one.
  function Allows(counters: map<Bucket, Counter>, r: Request, w: Window, limit: nat): bool {
    var count := CountAfter(counters, BucketOf(r, w), r.at);
    r.reply.IncrLost? || (r.reply.ExpireLost? && count == 1) || count <= limit
  }

  class Redis {
    var counters: map<Bucket, Counter>

    // Redis deletes a counter rather than keep it at zero.
    ghost predicate Valid()
      reads this
    {
      forall b :: b in counters ==> counters[b].count >= 1
    }

    constructor ()
      ensures Valid() && counters == map[]
    {
      counters := map[];
    }

    method Incr(b: Bucket, at: Millis) returns (count: nat)
      modifies this
      ensures count == CountAfter(old(counters), b, at)
      ensures counters == old(counters)[b := Counter(count, if count > 1 then old(counters)[b].expiresAt else None)]
    {
      if Live(counters, b, at) {
        count := counters[b].count + 1;
        counters := counters[b := Counter(count, if count > 1 then counters[b].expiresAt else None)];
      } else {
        count := 1;
        counters := counters[b := Counter(1, None)];
      }
    }

    method Expire(b: Bucket, at: Millis, w: Window)
      requires b in counters
      modifies this
      ensures counters == old(counters)[b := old(counters)[b].(expiresAt := Some(at + w))]
    {
      counters := counters[b := counters[b].(expiresAt := Some(at + w))];
    }

    // allowRequest.
    method AllowRequest(r: Request, w: Window, limit: nat) returns (allowed: bool)
      requires Valid()
      modifies this
      ensures allowed == Allows(old(counters), r, w, limit)
      ensures counters == Visit(old(counters), r, w)
      ensures Valid()
      ensures r.reply.IncrLost? ==> allowed
      ensures r.reply.Up? && BucketOf(r, w) !in old(counters) ==>
        counters == old(counters)[BucketOf(r, w) := Counter(1, Some(r.at + w))]
      ensures r.reply.Up? && BucketOf(r, w) !in old(counters) ==> (allowed <==> 1 <= limit)
      ensures r.reply.Up? && BucketOf(r, w) in old(counters) && old(counters)[BucketOf(r, w)].expiresAt.None? ==>
        (allowed <==> old(counters)[BucketOf(r, w)].count < limit)
    {
      var bucket := BucketOf(r, w);
      if r.reply == IncrLost(false) {
        return true;
      }
      var count := Incr(bucket, r.at);
      if r.reply.IncrLost? {
        return true;
      }
      if count == 1 {
        if r.reply == ExpireLost(false) {
          return true;
        }
        Expire(bucket, r.at, w);
        if r.reply.ExpireLost? {
          return true;
        }
      }
      return count <= limit;
    }
  }

  // ---- traces of requests ----

  function After(reqs: seq<Request>, w: Window): map<Bucket, Counter> {
    if reqs == [] then map[] else Visit(After(reqs[..|reqs| - 1], w), reqs[|reqs| - 1], w)
  }

  // How many requests of a bucket executed INCR, were answered without Redis, and were let through.
  function Counted(reqs: seq<Request>, b: Bucket, w: Window): nat {
    if reqs == [] then 0
    else
      var r := reqs[|reqs| - 1];
      Counted(reqs[..|reqs| - 1], b, w) + One(BucketOf(r, w) == b && r.reply != IncrLost(false))
  }

  function Lost(reqs: seq<Request>, b: Bucket, w: Window): nat {
    if reqs == [] then 0
    else
      var r := reqs[|reqs| - 1];
      Lost(reqs[..|reqs| - 1], b, w) + One(BucketOf(r, w) == b && !r.reply.Up?)
  }

  function Passed(reqs: seq<Request>, b: Bucket, w: Window, limit: nat): nat {
    if reqs == [] then 0
    else
      var earlier, r := reqs[..|reqs| - 1], reqs[|reqs| - 1];
      Passed(earlier, b, w, limit) + One(BucketOf(r, w) == b && Allows(After(earlier, w), r, w, limit))
  }

  lemma WindowBounds(at: Millis, w: Window)
    ensures (at / w) * w <= at < (at / w + 1) * w
  {
  }

  // The counter of a bucket is exact, and it does not expire before its window ends.
  ghost predicate CounterOk(counters: map<Bucket, Counter>, b: Bucket, n: nat, w: Window) {
    && (b in counters <==> n > 0)
    && (n > 0 ==> counters[b].count == n)
    && (n > 0 && counters[b].expiresAt.Some? ==> (b.window + 1) * w <= counters[b].expiresAt.value)
  }

  lemma VisitKeepsCounter(counters: map<Bucket, Counter>, r: Request, b: Bucket, n: nat, w: Window)
    requires CounterOk(counters, b, n, w)
    ensures CounterOk(Visit(counters, r, w), b, n + One(BucketOf(r, w) == b && r.reply != IncrLost(false)), w)
    ensures BucketOf(r, w) == b ==> CountAfter(counters, b, r.at) == n + 1
  {
    if BucketOf(r, w) == b {
      WindowBounds(r.at, w);
      NextWindow(r.at, w);
    }
  }

  lemma NextWindow(at: Millis, w: Window)
    ensures (at / w + 1) * w <= at + w
  {
    WindowBounds(at, w);
    assert (at / w + 1) * w == (at / w) * w + w;
  }

  lemma {:induction false} CountersAreExact(reqs: seq<Request>, b: Bucket, w: Window)
    ensures CounterOk(After(reqs, w), b, Counted(reqs, b, w), w)
  {
    if reqs != [] {
      CountersAreExact(reqs[..|reqs| - 1], b, w);
      VisitKeepsCounter(After(reqs[..|reqs| - 1], w), reqs[|reqs| - 1], b, Counted(reqs[..|reqs| - 1], b, w), w);
    }
  }

  // Per aligned window: with Redis up, exactly the first `limit` requests of a key pass; each
  // request answered without Redis can let one more through.
  lemma {:induction false} AlignedWindow(reqs: seq<Request>, b: Bucket, w: Window, limit: nat)
    ensures Passed(reqs, b, w, limit) <= limit + Lost(reqs, b, w)
    ensures Lost(reqs, b, w) == 0 ==> Passed(reqs, b, w, limit) == Min(limit, Counted(reqs, b, w))
    ensures Passed(reqs, b, w, limit) <= Min(limit, Counted(reqs, b, w)) + Lost(reqs, b, w)
  {
    if reqs != [] {
      var earlier, r := reqs[..|reqs| - 1], reqs[|reqs| - 1];
      AlignedWindow(earlier, b, w, limit);
      CountersAreExact(earlier, b, w);
      VisitKeepsCounter(After(earlier, w), r, b, Counted(earlier, b, w), w);
    }
  }

  // The requests of a bucket whose INCR never reached Redis.
  function Unreached(reqs: seq<Request>, b: Bucket, w: Window): nat {
    if reqs == [] then 0
    else
      var r := reqs[|reqs| - 1];
      Unreached(reqs[..|reqs| - 1], b, w) + One(BucketOf(r, w) == b && r.reply == IncrLost(false))
  }

  // Fail open: whatever happens to Redis, the first `limit` requests it counts pass, and so does every
  // request it never hears of.
  lemma {:induction false} FailOpen(reqs: seq<Request>, b: Bucket, w: Window, limit: nat)
    ensures Passed(reqs, b, w, limit) >= Min(limit, Counted(reqs, b, w)) + Unreached(reqs, b, w)
  {
    if reqs != [] {
      var earlier, r := reqs[..|reqs| - 1], reqs[|reqs| - 1];
      FailOpen(earlier, b, w, limit);
      CountersAreExact(earlier, b, w);
      VisitKeepsCounter(After(earlier, w), r, b, Counted(earlier, b, w), w);
    }
  }

  // An error of either command lets its own request through: a lost INCR any, a lost EXPIRE the first.
  lemma ErrorsLetThrough(reqs: seq<Request>, r: Request, w: Window, limit: nat)
    ensures r.reply.IncrLost? ==> Allows(After(reqs, w), r, w, limit)
    ensures r.reply.ExpireLost? ==>
      (Allows(After(reqs, w), r, w, limit) <==>
       Counted(reqs, Bucket(r.at / w, r.key), w) == 0 || Counted(reqs, Bucket(r.at / w, r.key), w) < limit)
    ensures r.reply.Up? ==>
      (Allows(After(reqs, w), r, w, limit) <==> Counted(reqs, Bucket(r.at / w, r.key), w) < limit)
  {
    var b := Bucket(r.at / w, r.key);
    CountersAreExact(reqs, b, w);
    VisitKeepsCounter(After(reqs, w), r, b, Counted(reqs, b, w), w);
  }

  // ---- intervals that are not aligned ----

  predicate Within(r: Request, key: string, lo: Millis, hi: Millis) {
    r.key == key && lo <= r.at < hi
  }

  function PassedWithin(reqs: seq<Request>, key: string, lo: Millis, hi: Millis, w: Window, limit: nat): nat {
    if reqs == [] then 0
    else
      var earlier, r := reqs[..|reqs| - 1], reqs[|reqs| - 1];
      PassedWithin(earlier, key, lo, hi, w, limit)
      + One(Within(r, key, lo, hi) && Allows(After(earlier, w), r, w, limit))
  }

  lemma LaterWindow(m: nat, n: nat, w: Window)
    ensures m <= n ==> m * w <= n * w
  {
    if m <= n {
      assert n * w == m * w + (n - m) * w;
    }
  }

  lemma TwoWindows(at: Millis, lo: Millis, w: Window)
    requires lo <= at < lo + w
    ensures at / w == lo / w || at / w == lo / w + 1
  {
    var m, n := lo / w, at / w;
    WindowBounds(at, w);
    WindowBounds(lo, w);
    assert (m + 2) * w == (m + 1) * w + w;
    LaterWindow(n + 1, m, w);
    LaterWindow(m + 2, n, w);
  }

  lemma {:induction false} IntervalSplits(reqs: seq<Request>, key: string, lo: Millis, w: Window, limit: nat)
    ensures PassedWithin(reqs, key, lo, lo + w, w, limit)
            <= Passed(reqs, Bucket(lo / w, key), w, limit) + Passed(reqs, Bucket(lo / w + 1, key), w, limit)
  {
    if reqs != [] {
      var r := reqs[|reqs| - 1];
      IntervalSplits(reqs[..|reqs| - 1], key, lo, w, limit);
      if Within(r, key, lo, lo + w) {
        TwoWindows(r.at, lo, w);
      }
    }
  }

  // In any half-open interval of one window's length at most twice the limit pass, plus the
  // requests of its two aligned windows that were answered without Redis.
  lemma TwiceTheLimit(reqs: seq<Request>, key: string, lo: Millis, w: Window, limit: nat)
    ensures PassedWithin(reqs, key, lo, lo + w, w, limit)
            <= 2 * limit + Lost(reqs, Bucket(lo / w, key), w) + Lost(reqs, Bucket(lo / w + 1, key), w)
  {
    IntervalSplits(reqs, key, lo, w, limit);
    AlignedWindow(reqs, Bucket(lo / w, key), w, limit);
    AlignedWindow(reqs, Bucket(lo / w + 1, key), w, limit);
  }

  // ... and twice the limit is reached: one request at the end of a window, one at the start of the next.
  lemma TwiceIsReached(key: string)
    ensures PassedWithin([Request(key, 999, Up), Request(key, 1000, Up)], key, 999, 1999, 1000, 1) == 2
  {
    var first, second := Request(key, 999, Up), Request(key, 1000, Up);
    assert [first, second][..1] == [first] && [first][..0] == [];
    assert After([], 1000) == map[];
    assert After([first], 1000) == map[Bucket(0, key) := Counter(1, Some(1999))];
    assert PassedWithin([], key, 999, 1999, 1000, 1) == 0;
    assert PassedWithin([first], key, 999, 1999, 1000, 1) == 1;
    assert Allows(After([first], 1000), second, 1000, 1);
  }
}
