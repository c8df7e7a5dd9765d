/** Capped exponential backoff (src/application/retry/backoff.py), over the reals. */
module Backoff {
  import opened Base

  /** Python cannot convert 2 ** 1024 to a float: `delay_for` raises from this many attempts on. */
  const OVERFLOW_ATTEMPTS: int := 1025

  datatype Schedule = Schedule(initial: real, cap: real)

  predicate ValidSchedule(s: Schedule) {
    0.0 <= s.initial && 0.0 <= s.cap
  }

  function Pow2(n: nat): real {
    if n == 0 then 1.0 else 2.0 * Pow2(n - 1)
  }

  /** The delay before the cap is applied: the initial delay, doubled for each further attempt. */
  function Uncapped(s: Schedule, attempts: nat): real
    requires attempts >= 1
  {
    if attempts == 1 then s.initial else 2.0 * Uncapped(s, attempts - 1)
  }

  /** Doubling step by step is the power the code computes. */
  lemma {:induction false} UncappedIsPower(s: Schedule, attempts: nat)
    requires attempts >= 1
    ensures Uncapped(s, attempts) == s.initial * Pow2(attempts - 1)
  {
    if attempts == 1 {
    } else {
      UncappedIsPower(s, attempts - 1);
      var p := Pow2(attempts - 2);
      assert s.initial * (2.0 * p) == 2.0 * (s.initial * p);
    }
  }

  function Min(a: real, b: real): real {
    if b < a then b else a
  }

  /** Scaling by a random factor leaves between half of the delay and all of it. */
  function Jittered(delay: real, u: real): (r: real)
    ensures 0.0 <= delay && IsDraw(u) ==> delay / 2.0 <= r <= delay && (r == delay <==> delay == 0.0)
  {
    var r := delay * (0.5 + u * 0.5);
    if 0.0 <= delay && IsDraw(u) then ScaleRange(delay, 0.5 + u * 0.5, r); r else r
  }

  lemma ScaleRange(whole: real, factor: real, r: real)
    requires 0.0 <= whole && 0.5 <= factor < 1.0 && r == whole * factor
    ensures whole / 2.0 <= r <= whole && (r == whole <==> whole == 0.0)
  {
    assert whole * 0.5 <= whole * factor;
    if whole > 0.0 {
      assert whole * factor < whole * 1.0;
    }
  }

  /** `delay_for`; `draw` is the random number when jitter is on, None is the OverflowError. */
  function DelayFor(s: Schedule, attempts: int, draw: Option<real>): Option<real> {
    if attempts < 1 then Some(0.0)
    else if attempts >= OVERFLOW_ATTEMPTS then None
    else
      var delay := Min(Uncapped(s, attempts), s.cap);
      match draw
      case None => Some(delay)
      case Some(u) => Some(Jittered(delay, u))
  }

  /** A value `random.random()` can return. */
  predicate IsDraw(u: real) {
    0.0 <= u < 1.0
  }

  lemma {:induction false} UncappedNonNegative(s: Schedule, attempts: nat)
    requires attempts >= 1 && 0.0 <= s.initial
    ensures 0.0 <= Uncapped(s, attempts)
  {
    if attempts > 1 {
      UncappedNonNegative(s, attempts - 1);
    }
  }

  lemma {:induction false} UncappedGrows(s: Schedule, j: nat, k: nat)
    requires 1 <= j <= k && 0.0 <= s.initial
    ensures Uncapped(s, j) <= Uncapped(s, k)
    decreases k
  {
    if j < k {
      UncappedGrows(s, j, k - 1);
      UncappedNonNegative(s, k - 1);
    }
  }

  /** The initial delay, doubled n - 1 times, up to the cap. */
  function Doubled(s: Schedule, n: nat): real
    requires n >= 1
  {
    Min(s.initial * Pow2(n - 1), s.cap)
  }

  lemma UnjitteredIsDoubled(s: Schedule, n: nat)
    requires 1 <= n < OVERFLOW_ATTEMPTS
    ensures DelayFor(s, n, None) == Some(Doubled(s, n))
  {
    UncappedIsPower(s, n);
    var power := Uncapped(s, n);
    assert DelayFor(s, n, None) == Some(Min(power, s.cap));
    assert power == s.initial * Pow2(n - 1);
    assert Doubled(s, n) == Min(power, s.cap);
  }

  /** Without jitter the delay never shrinks as attempts grow, stays in [0, cap], and is the
      doubled initial delay exactly while that does not exceed the cap. */
  lemma DelayShape(s: Schedule, j: int, k: int)
    requires ValidSchedule(s) && 1 <= j <= k < OVERFLOW_ATTEMPTS
    ensures DelayFor(s, j, None).Some? && DelayFor(s, k, None).Some?
    ensures 0.0 <= DelayFor(s, j, None).value <= DelayFor(s, k, None).value <= s.cap
    ensures DelayFor(s, k, None).value == s.initial * Pow2(k - 1)
            <==> s.initial * Pow2(k - 1) <= s.cap
  {
    UncappedGrows(s, j, k);
    UncappedNonNegative(s, j);
    UncappedIsPower(s, k);
  }

  /** Jitter keeps the delay between half of the unjittered one and all of it. */
  lemma JitterRange(s: Schedule, attempts: int, u: real)
    requires ValidSchedule(s) && 1 <= attempts < OVERFLOW_ATTEMPTS && IsDraw(u)
    ensures DelayFor(s, attempts, Some(u)).Some?
    ensures var whole := DelayFor(s, attempts, None).value;
            var drawn := DelayFor(s, attempts, Some(u)).value;
            && whole / 2.0 <= drawn <= whole
            && (drawn == whole <==> whole == 0.0)
  {
    UncappedNonNegative(s, attempts);
  }

  /** With or without jitter, no delay is negative or above the cap. */
  lemma DelayBounded(s: Schedule, attempts: int, draw: Option<real>)
    requires ValidSchedule(s) && (draw.Some? ==> IsDraw(draw.value))
    ensures DelayFor(s, attempts, draw).Some? ==> 0.0 <= DelayFor(s, attempts, draw).value <= s.cap
  {
    if 1 <= attempts < OVERFLOW_ATTEMPTS {
      DelayShape(s, attempts, attempts);
      if draw.Some? {
        JitterRange(s, attempts, draw.value);
      }
    }
  }

  /** Total unjittered wait over the first n attempts. */
  function TotalDelay(s: Schedule, n: nat): real
    requires n < OVERFLOW_ATTEMPTS
  {
    if n == 0 then 0.0 else TotalDelay(s, n - 1) + DelayFor(s, n, None).value
  }

  /** How many of the first n attempts wait less than the cap. */
  function UncappedAttempts(s: Schedule, n: nat): (m: nat)
    ensures m <= n
  {
    if n == 0 then 0
    else UncappedAttempts(s, n - 1) + if Uncapped(s, n) < s.cap then 1 else 0
  }

  lemma {:induction false} AllUncapped(s: Schedule, n: nat)
    requires ValidSchedule(s) && (n > 0 ==> Uncapped(s, n) < s.cap)
    ensures UncappedAttempts(s, n) == n
  {
    if n > 1 {
      UncappedGrows(s, n - 1, n);
    }
    if n > 0 {
      AllUncapped(s, n - 1);
    }
  }

  lemma {:induction false} TotalWhileUncapped(s: Schedule, n: nat)
    requires ValidSchedule(s) && 1 <= n < OVERFLOW_ATTEMPTS && Uncapped(s, n) < s.cap
    ensures TotalDelay(s, n) == 2.0 * Uncapped(s, n) - s.initial
  {
    if n > 1 {
      UncappedGrows(s, n - 1, n);
      TotalWhileUncapped(s, n - 1);
    } else {
      assert TotalDelay(s, 0) == 0.0;
    }
  }

  function Times(k: nat, a: real): real {
    if k == 0 then 0.0 else Times(k - 1, a) + a
  }

  lemma {:induction false} TimesIsProduct(k: nat, a: real)
    ensures Times(k, a) == (k as real) * a
  {
    if k > 0 {
      TimesIsProduct(k - 1, a);
      var j := (k - 1) as real;
      assert k as real == j + 1.0;
      assert (j + 1.0) * a == j * a + a;
    }
  }

  lemma {:induction false} TotalAfterCap(s: Schedule, n: nat)
    requires ValidSchedule(s) && n < OVERFLOW_ATTEMPTS
    ensures var m := UncappedAttempts(s, n);
            && TotalDelay(s, n) == TotalDelay(s, m) + Times(n - m, s.cap)
            && (m > 0 ==> Uncapped(s, m) < s.cap)
  {
    if n > 0 {
      TotalAfterCap(s, n - 1);
      if Uncapped(s, n) < s.cap {
        AllUncapped(s, n);
      }
    }
  }

  lemma GeometricSum(s: Schedule, m: nat)
    requires ValidSchedule(s) && m < OVERFLOW_ATTEMPTS && (m > 0 ==> Uncapped(s, m) < s.cap)
    ensures TotalDelay(s, m) == s.initial * (Pow2(m) - 1.0)
  {
    if m > 0 {
      TotalWhileUncapped(s, m);
      UncappedIsPower(s, m);
      assert s.initial * (2.0 * Pow2(m - 1) - 1.0) == 2.0 * (s.initial * Pow2(m - 1)) - s.initial;
    }
  }

  /** A geometric series: the first m delays when none reaches the cap. */
  function Series(s: Schedule, m: nat): real {
    s.initial * (Pow2(m) - 1.0)
  }

  function AtCap(s: Schedule, k: nat): real {
    (k as real) * s.cap
  }

  lemma SeriesPart(s: Schedule, n: nat, m: nat)
    requires ValidSchedule(s) && n < OVERFLOW_ATTEMPTS && m == UncappedAttempts(s, n)
    ensures TotalDelay(s, m) == Series(s, m)
  {
    TotalAfterCap(s, n);
    GeometricSum(s, m);
  }

  lemma CapPart(s: Schedule, k: nat)
    ensures Times(k, s.cap) == AtCap(s, k)
  {
    TimesIsProduct(k, s.cap);
  }

  lemma TwoParts(total: real, x: real, y: real, series: real, flat: real)
    requires total == x + y && x == series && y == flat
    ensures total == series + flat
  {
  }

  /** The total is a geometric series up to the cap, then the cap once per further attempt. */
  lemma TotalDelayClosedForm(s: Schedule, n: nat)
    requires ValidSchedule(s) && n < OVERFLOW_ATTEMPTS
    ensures var m := UncappedAttempts(s, n); TotalDelay(s, n) == Series(s, m) + AtCap(s, n - m)
  {
    var m := UncappedAttempts(s, n);
    SeriesPart(s, n, m);
    CapPart(s, n - m);
    TotalAfterCap(s, n);
    TwoParts(TotalDelay(s, n), TotalDelay(s, m), Times(n - m, s.cap), Series(s, m), AtCap(s, n - m));
  }
}
