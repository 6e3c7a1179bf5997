// Models apps/worker/src/reliability/retry-strategy.service.ts.
//
// Delays are JavaScript doubles.  Every value the computation can reach is an
// integer, an infinity or NaN, so Number has exactly those cases.  A finite
// product above 2^53 may be rounded, or may overflow to Infinity, but both are
// absorbed by the clamp to MAX_SAFE_INTEGER, so Finite carries the exact
// integer.
module RetryStrategy {
  import opened Wrappers

  const MAX_SAFE_INTEGER := 9007199254740991
  const LARGEST_EXPONENT := 1023

  datatype Strategy = Fixed | Linear | Exponential

  datatype RetryConfiguration = RetryConfiguration(
    strategy: Strategy,
    initialDelayMs: int,
    maxDelayMs: Option<int>,
    jitterMs: int)

  // What Math.random() returns.
  type Fraction = r: real | 0.0 <= r < 1.0 witness 0.0

  datatype Number = Finite(value: int) | Infinity | NegativeInfinity | NotANumber

  function Pow2(n: nat): (p: nat)
    ensures p >= 1
  {
    if n == 0 then 1 else 2 * Pow2(n - 1)
  }

  // 2 ** exponent on doubles.
  function PowerOfTwo(exponent: nat): Number {
    if exponent <= LARGEST_EXPONENT then Finite(Pow2(exponent)) else Infinity
  }

  function Times(a: int, x: Number): Number {
    match x
    case Finite(v) => Finite(a * v)
    case NotANumber => NotANumber
    case Infinity => if a > 0 then Infinity else if a < 0 then NegativeInfinity else NotANumber
    case NegativeInfinity => if a > 0 then NegativeInfinity else if a < 0 then Infinity else NotANumber
  }

  // Math.max(bound, x) and Math.min(bound, x); both return NaN for NaN.
  function AtLeast(bound: int, x: Number): Number {
    match x
    case Finite(v) => Finite(Max(bound, v))
    case Infinity => Infinity
    case NegativeInfinity => Finite(bound)
    case NotANumber => NotANumber
  }

  function AtMost(bound: int, x: Number): Number {
    match x
    case Finite(v) => Finite(Min(bound, v))
    case Infinity => Finite(bound)
    case NegativeInfinity => NegativeInfinity
    case NotANumber => NotANumber
  }

  function Plus(x: Number, d: int): Number {
    if x.Finite? then Finite(x.value + d) else x
  }

  function BaseDelay(c: RetryConfiguration, safeAttempt: int): Number
    requires safeAttempt >= 1
  {
    match c.strategy
    case Fixed => Finite(c.initialDelayMs)
    case Linear => Finite(c.initialDelayMs * safeAttempt)
    case Exponential => Times(c.initialDelayMs, PowerOfTwo(safeAttempt - 1))
  }

  function Jitter(jitterMs: int, random: Fraction): int {
    if jitterMs > 0 then (random * (jitterMs + 1) as real).Floor else 0
  }

  // The delay once the random part has been drawn.
  function DelayWith(c: RetryConfiguration, attempt: int, jitter: int): Number {
    var safeAttempt := Max(1, attempt);
    var bounded := AtMost(MAX_SAFE_INTEGER, AtLeast(0, BaseDelay(c, safeAttempt)));
    var capped := if c.maxDelayMs.None? then bounded else AtMost(Max(0, c.maxDelayMs.value), bounded);
    AtMost(MAX_SAFE_INTEGER, Plus(capped, jitter))
  }

  function CalculateRetryDelay(c: RetryConfiguration, attempt: int, random: Fraction): Number {
    DelayWith(c, attempt, Jitter(c.jitterMs, random))
  }

  // What a draw can come to: any whole number up to jitterMs, and nothing else (JitterRange).
  function Draw(c: RetryConfiguration, roll: nat): nat {
    Min(roll, Max(0, c.jitterMs))
  }

  // The smaller of the policy cap and the safe-integer clamp.
  function Cap(c: RetryConfiguration): (cap: nat)
  {
    if c.maxDelayMs.None? then MAX_SAFE_INTEGER else Min(MAX_SAFE_INTEGER, Max(0, c.maxDelayMs.value))
  }

  // The delay with the random part switched off.
  function PlainDelay(c: RetryConfiguration, attempt: int): Number {
    DelayWith(c, attempt, 0)
  }

  // The one family of inputs on which the arithmetic leaves the numbers: zero times 2 ** 1024.
  predicate Degenerate(c: RetryConfiguration, attempt: int) {
    c.strategy.Exponential? && c.initialDelayMs == 0 && attempt > LARGEST_EXPONENT + 1
  }

  // The exponential schedule as the saturating doubling it is meant to be.
  function Doubling(start: nat, cap: nat, n: nat): (d: nat)
    requires n >= 1
    ensures d <= cap
  {
    if n == 1 then Min(cap, start) else Min(cap, 2 * Doubling(start, cap, n - 1))
  }

  function DelayOrZero(x: Number): int {
    if x.Finite? then x.value else 0
  }

  // delay(1) + ... + delay(n), without jitter.
  function SumOfDelays(c: RetryConfiguration, n: nat): int {
    if n == 0 then 0 else SumOfDelays(c, n - 1) + DelayOrZero(PlainDelay(c, n))
  }

  lemma PositiveProduct(a: real, b: real)
    requires a > 0.0 && b > 0.0
    ensures a * b > 0.0
  {
  }

  lemma FractionOf(random: real, m: real)
    requires 0.0 <= random < 1.0 && m > 0.0
    ensures 0.0 <= random * m < m
  {
    if random > 0.0 {
      PositiveProduct(random, m);
    }
    PositiveProduct(1.0 - random, m);
    assert (1.0 - random) * m == m - random * m;
  }

  lemma FloorBelow(x: real, n: int)
    requires 0.0 <= x < (n as real)
    ensures 0 <= x.Floor < n
  {
    assert x.Floor as real <= x;
  }

  lemma JitterIsBounded(jitterMs: int, random: Fraction)
    ensures 0 <= Jitter(jitterMs, random) <= Max(0, jitterMs)
  {
    if jitterMs > 0 {
      var m := (jitterMs + 1) as real;
      FractionOf(random, m);
      FloorBelow(random * m, jitterMs + 1);
    }
  }

  lemma Quotient(a: real, m: real)
    requires 0.0 <= a < m
    ensures 0.0 <= a / m < 1.0 && (a / m) * m == a
  {
  }

  // The draws of Math.floor(random() * (jitterMs + 1)) are exactly 0 .. jitterMs.
  lemma JitterRange(jitterMs: int, extra: int)
    ensures 0 <= extra <= Max(0, jitterMs) <==> exists random: Fraction :: Jitter(jitterMs, random) == extra
  {
    if 0 <= extra <= Max(0, jitterMs) {
      var m := (Max(0, jitterMs) + 1) as real;
      Quotient(extra as real, m);
      var random: Fraction := extra as real / m;
      assert Jitter(jitterMs, random) == extra;
    } else {
      forall random: Fraction {
        JitterIsBounded(jitterMs, random);
      }
    }
  }

  // A delay is a number between 0 and 2^53 - 1, or NaN, and NaN exactly on the degenerate family.
  lemma DelayIsANumber(c: RetryConfiguration, attempt: int, jitter: nat)
    ensures DelayWith(c, attempt, jitter) == NotANumber <==> Degenerate(c, attempt)
    ensures !Degenerate(c, attempt) ==>
      DelayWith(c, attempt, jitter).Finite? && 0 <= DelayWith(c, attempt, jitter).value <= MAX_SAFE_INTEGER
  {
  }

  // Jitter only adds, and by at most jitterMs.
  lemma JitterOnlyDelaysFurther(c: RetryConfiguration, attempt: int, random: Fraction)
    requires !Degenerate(c, attempt)
    ensures PlainDelay(c, attempt).Finite? && CalculateRetryDelay(c, attempt, random).Finite?
    ensures
      var plain := PlainDelay(c, attempt).value;
      plain <= CalculateRetryDelay(c, attempt, random).value
        <= Min(MAX_SAFE_INTEGER, plain + Max(0, c.jitterMs))
  {
    JitterIsBounded(c.jitterMs, random);
    DelayIsANumber(c, attempt, Jitter(c.jitterMs, random));
  }

  lemma HalvesAgain(a: int, n: nat)
    requires n >= 2
    ensures a * Pow2(n - 1) == 2 * (a * Pow2(n - 2))
  {
    var p := Pow2(n - 2);
    assert a * (2 * p) == 2 * (a * p);
  }

  lemma ClampedTwice(cap: nat, x: nat)
    ensures Min(cap, 2 * Min(cap, x)) == Min(cap, 2 * x)
  {
  }

  lemma {:induction false} DoublingIsClampedPower(start: nat, cap: nat, n: nat)
    requires n >= 1
    ensures Doubling(start, cap, n) == Min(cap, start * Pow2(n - 1))
  {
    if n > 1 {
      DoublingIsClampedPower(start, cap, n - 1);
      HalvesAgain(start, n);
      ClampedTwice(cap, start * Pow2(n - 2));
    }
  }

  lemma {:induction false} Pow2Grows(m: nat, n: nat)
    requires m <= n
    ensures Pow2(m) <= Pow2(n)
  {
    if m < n {
      Pow2Grows(m, n - 1);
    }
  }

  lemma {:induction false} Pow2Doubles(m: nat, n: nat)
    ensures Pow2(m + n) == Pow2(m) * Pow2(n)
  {
    if n > 0 {
      Pow2Doubles(m, n - 1);
    }
  }

  lemma Pow2Of53()
    ensures Pow2(53) == MAX_SAFE_INTEGER + 1
  {
    assert Pow2(9) == 512;
    Pow2Doubles(9, 9);
    Pow2Doubles(18, 9);
    Pow2Doubles(18, 8);
    Pow2Doubles(27, 26);
  }

  // An overflow to Infinity loses nothing: the exact product is far above the clamp already.
  lemma HugePowersSaturate(start: nat, cap: nat, n: nat)
    requires start >= 1 && cap <= MAX_SAFE_INTEGER && n >= 54
    ensures Doubling(start, cap, n) == cap
  {
    DoublingIsClampedPower(start, cap, n);
    Pow2Grows(53, n - 1);
    Pow2Of53();
    assert start * Pow2(n - 1) >= Pow2(n - 1);
  }

  lemma FiniteBase(c: RetryConfiguration, n: nat, b: int)
    requires n >= 1 && BaseDelay(c, n) == Finite(b)
    ensures PlainDelay(c, n) == Finite(Min(Cap(c), Max(0, b)))
  {
  }

  lemma ProductSign(a: int, p: nat)
    ensures a >= 0 ==> a * p >= 0
    ensures a <= 0 ==> a * p <= 0
  {
  }

  lemma {:induction false} NothingDoubled(cap: nat, n: nat)
    requires n >= 1
    ensures Doubling(0, cap, n) == 0
  {
    if n > 1 {
      NothingDoubled(cap, n - 1);
    }
  }

  // The factor 2 ** (n - 1) is still a number.
  lemma SmallExponent(c: RetryConfiguration, n: nat)
    requires 1 <= n <= LARGEST_EXPONENT + 1 && c.strategy.Exponential?
    ensures PlainDelay(c, n) == Finite(Doubling(Max(0, c.initialDelayMs), Cap(c), n))
  {
    var b := c.initialDelayMs * Pow2(n - 1);
    ProductSign(c.initialDelayMs, Pow2(n - 1));
    FiniteBase(c, n, b);
    if c.initialDelayMs > 0 {
      DoublingIsClampedPower(c.initialDelayMs, Cap(c), n);
    } else {
      NothingDoubled(Cap(c), n);
    }
  }

  // ... and where it is Infinity.
  lemma LargeExponent(c: RetryConfiguration, n: nat)
    requires n > LARGEST_EXPONENT + 1 && c.strategy.Exponential? && c.initialDelayMs != 0
    ensures PlainDelay(c, n) == Finite(Doubling(Max(0, c.initialDelayMs), Cap(c), n))
  {
    if c.initialDelayMs > 0 {
      HugePowersSaturate(c.initialDelayMs, Cap(c), n);
    } else {
      NothingDoubled(Cap(c), n);
    }
  }

  // The closed form used by the code is the saturating recurrence d(1) = min(cap, init),
  // d(n + 1) = min(cap, 2 * d(n)).
  lemma ExponentialIsSaturatingDoubling(c: RetryConfiguration, n: nat)
    requires n >= 1 && c.strategy.Exponential? && !Degenerate(c, n)
    ensures PlainDelay(c, n) == Finite(Doubling(Max(0, c.initialDelayMs), Cap(c), n))
  {
    if n - 1 > LARGEST_EXPONENT {
      LargeExponent(c, n);
    } else {
      SmallExponent(c, n);
    }
  }

  lemma {:induction false} DoublingNeverShrinks(start: nat, cap: nat, m: nat, n: nat)
    requires 1 <= m <= n
    ensures Doubling(start, cap, m) <= Doubling(start, cap, n)
  {
    if m < n {
      DoublingNeverShrinks(start, cap, m, n - 1);
    }
  }

  lemma LinearNeverShrinks(c: RetryConfiguration, a: int, b: int)
    requires 1 <= a <= b && c.strategy.Linear?
    ensures PlainDelay(c, a).Finite? && PlainDelay(c, b).Finite?
    ensures PlainDelay(c, a).value <= PlainDelay(c, b).value
  {
    var x, y := c.initialDelayMs * a, c.initialDelayMs * b;
    if c.initialDelayMs >= 0 {
      assert x <= y;
    } else {
      assert x <= 0 && y <= 0;
    }
    assert PlainDelay(c, a).value == Min(Cap(c), Max(0, x));
    assert PlainDelay(c, b).value == Min(Cap(c), Max(0, y));
  }

  // Whatever the strategy, waiting never gets shorter from one attempt to a later one.
  lemma DelayNeverShrinks(c: RetryConfiguration, m: int, n: int)
    requires m <= n && !Degenerate(c, n)
    ensures PlainDelay(c, m).Finite? && PlainDelay(c, n).Finite?
    ensures PlainDelay(c, m).value <= PlainDelay(c, n).value
  {
    var a, b := Max(1, m), Max(1, n);
    assert PlainDelay(c, m) == PlainDelay(c, a) && PlainDelay(c, n) == PlainDelay(c, b);
    if c.strategy.Linear? {
      LinearNeverShrinks(c, a, b);
    } else if c.strategy.Exponential? {
      ExponentialIsSaturatingDoubling(c, a);
      ExponentialIsSaturatingDoubling(c, b);
      DoublingNeverShrinks(Max(0, c.initialDelayMs), Cap(c), a, b);
    }
  }

  lemma UncappedDelay(c: RetryConfiguration, n: nat)
    requires c.strategy.Exponential? && c.initialDelayMs >= 0 && c.maxDelayMs.None?
    requires 1 <= n <= LARGEST_EXPONENT + 1 && c.initialDelayMs * Pow2(n - 1) <= MAX_SAFE_INTEGER
    ensures PlainDelay(c, n) == Finite(c.initialDelayMs * Pow2(n - 1))
  {
    ExponentialIsSaturatingDoubling(c, n);
    DoublingIsClampedPower(c.initialDelayMs, Cap(c), n);
  }

  lemma NextTerm(a: int, sum: int, p: int)
    requires sum == a * (p - 1)
    ensures sum + a * p == a * (2 * p - 1)
  {
  }

  // Uncapped doubling adds up to a geometric series while the last term is below the clamp.
  lemma {:induction false} GeometricBackoff(c: RetryConfiguration, n: nat)
    requires c.strategy.Exponential? && c.initialDelayMs >= 0 && c.maxDelayMs.None?
    requires n <= LARGEST_EXPONENT + 1
    requires n >= 1 ==> c.initialDelayMs * Pow2(n - 1) <= MAX_SAFE_INTEGER
    ensures SumOfDelays(c, n) == c.initialDelayMs * (Pow2(n) - 1)
  {
    if n >= 1 {
      if n >= 2 {
        HalvesAgain(c.initialDelayMs, n);
      }
      GeometricBackoff(c, n - 1);
      UncappedDelay(c, n);
      NextTerm(c.initialDelayMs, SumOfDelays(c, n - 1), Pow2(n - 1));
    }
  }

  // ---- the delay outright ----

  // FIXED waits the same at every attempt, LINEAR the attempt's multiple of it, EXPONENTIAL its double
  // every time; all of them at least 0 and at most the policy's cap and 2^53 - 1.
  lemma DelayClosedForm(c: RetryConfiguration, attempt: int)
    requires !(c.strategy.Exponential? && c.initialDelayMs == 0 && attempt > 1024)
    ensures
      var n := Max(1, attempt);
      var cap := if c.maxDelayMs.None? then 9007199254740991 else Min(9007199254740991, Max(0, c.maxDelayMs.value));
      PlainDelay(c, attempt) == Finite(
        match c.strategy
        case Fixed => Min(cap, Max(0, c.initialDelayMs))
        case Linear => Min(cap, Max(0, c.initialDelayMs * n))
        case Exponential => Min(cap, Max(0, c.initialDelayMs * Pow2(n - 1))))
  {
    var n := Max(1, attempt);
    assert PlainDelay(c, attempt) == PlainDelay(c, n);
    match c.strategy
    case Fixed => FiniteBase(c, n, c.initialDelayMs);
    case Linear => FiniteBase(c, n, c.initialDelayMs * n);
    case Exponential => ExponentialClosedForm(c, n);
  }

  lemma ExponentialClosedForm(c: RetryConfiguration, n: nat)
    requires n >= 1 && c.strategy.Exponential? && !Degenerate(c, n)
    ensures PlainDelay(c, n) == Finite(Min(Cap(c), Max(0, c.initialDelayMs * Pow2(n - 1))))
  {
    ExponentialIsSaturatingDoubling(c, n);
    ProductSign(c.initialDelayMs, Pow2(n - 1));
    if c.initialDelayMs > 0 {
      DoublingIsClampedPower(c.initialDelayMs, Cap(c), n);
    } else {
      NothingDoubled(Cap(c), n);
    }
  }

  // The draw is added at the end, whole, and clamped once more.
  lemma DelayAddsJitter(c: RetryConfiguration, attempt: int, random: Fraction)
    requires PlainDelay(c, attempt).Finite?
    ensures
      var draw := if c.jitterMs > 0 then ((random as real) * ((c.jitterMs + 1) as real)).Floor else 0;
      CalculateRetryDelay(c, attempt, random) == Finite(Min(9007199254740991, PlainDelay(c, attempt).value + draw))
  {
    DelayIsANumber(c, attempt, 0);
    JitterIsBounded(c.jitterMs, random);
  }
}
