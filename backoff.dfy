/**
 * The retry back-off strategies of the swarm client: how long the client
 * waits after a failed connection attempt before it tries again.
 * Attempt numbers start at 1; the delay is in whole seconds.
 */
module BackOff {

  datatype RetryBackOffStrategy = NONE | LINEAR | EXPONENTIAL

  /** Configured intervals are validated before use: a positive base interval
      and a cap that is not below it. */
  predicate ValidIntervals(interval: int, cap: int) {
    1 <= interval <= cap
  }

  function Min(a: int, b: int): int {
    if a <= b then a else b
  }

  function Pow2(k: nat): (r: nat)
    ensures r >= 1
  {
    if k == 0 then 1 else 2 * Pow2(k - 1)
  }

  /** `d` doubled `k` times and clamped at `cap` (see DoubledIsCappedPower).
      Doubling stops as soon as the running value reaches the cap, so no value
      it computes is more than twice the cap, however large `k` is. */
  function Doubled(d: int, k: nat, cap: int): (r: int)
    requires 0 < d
    ensures Min(d, cap) <= r <= cap
    decreases k
  {
    if d >= cap then cap
    else if k == 0 then d
    else Doubled(2 * d, k - 1, cap)
  }

  lemma {:induction false} DoubledIsCappedPower(d: int, k: nat, cap: int)
    requires 0 < d
    ensures Doubled(d, k, cap) == Min(d * Pow2(k), cap)
    decreases k
  {
    if d >= cap {
      Scale(d, Pow2(k) - 1);
    } else if k > 0 {
      DoubledIsCappedPower(2 * d, k - 1, cap);
      assert d * Pow2(k) == (2 * d) * Pow2(k - 1) by {
        assert Pow2(k) == 2 * Pow2(k - 1);
      }
    }
  }

  /** The wait before retrying after failed attempt number `attempt`: never
      less than the base interval and never more than the cap. */
  function Delay(strategy: RetryBackOffStrategy, attempt: nat, interval: int, cap: int): (r: int)
    requires attempt >= 1 && ValidIntervals(interval, cap)
    ensures interval <= r <= cap
  {
    match strategy
    case NONE => interval
    case LINEAR =>
      assert interval * attempt >= interval * 1;
      Min(interval * attempt, cap)
    case EXPONENTIAL => Doubled(interval, attempt - 1, cap)
  }

  /** The delay of each strategy in closed form: constant, growing linearly,
      or doubling from the interval, clamped at the cap in the last two. */
  lemma {:induction false} DelayFormula(strategy: RetryBackOffStrategy, attempt: nat, interval: int, cap: int)
    requires attempt >= 1 && ValidIntervals(interval, cap)
    ensures strategy == NONE ==> Delay(strategy, attempt, interval, cap) == interval
    ensures strategy == LINEAR ==> Delay(strategy, attempt, interval, cap) == Min(interval * attempt, cap)
    ensures strategy == EXPONENTIAL ==> Delay(strategy, attempt, interval, cap) == Min(interval * Pow2(attempt - 1), cap)
  {
    if strategy == EXPONENTIAL {
      DoubledIsCappedPower(interval, attempt - 1, cap);
    }
  }

  /** The waits of the first `k` retries, for attempt numbers 1 to `k` in order. */
  function Schedule(strategy: RetryBackOffStrategy, interval: int, cap: int, k: nat): (s: seq<int>)
    requires ValidIntervals(interval, cap)
    ensures |s| == k
    decreases k
  {
    if k == 0 then [] else Schedule(strategy, interval, cap, k - 1) + [Delay(strategy, k, interval, cap)]
  }

  /** The `j`-th wait of a schedule (counting from 0) is the wait for attempt number `j + 1`. */
  lemma {:induction false} ScheduleAt(strategy: RetryBackOffStrategy, interval: int, cap: int, k: nat, j: nat)
    requires ValidIntervals(interval, cap) && j < k
    ensures Schedule(strategy, interval, cap, k)[j] == Delay(strategy, j + 1, interval, cap)
    decreases k
  {
    if j < k - 1 {
      ScheduleAt(strategy, interval, cap, k - 1, j);
    }
  }

  /** The sum of a sequence of waits, taken from the back. */
  function Sum(s: seq<int>): int {
    SumTo(s, |s|)
  }

  function SumTo(s: seq<int>, i: nat): int
    requires i <= |s|
    decreases i
  {
    if i == 0 then 0 else SumTo(s, i - 1) + s[i - 1]
  }

  lemma {:induction false} SumToPrefix(s: seq<int>, x: int, i: nat)
    requires i <= |s|
    ensures SumTo(s + [x], i) == SumTo(s, i)
    decreases i
  {
    if i > 0 {
      SumToPrefix(s, x, i - 1);
    }
  }

  lemma {:induction false} SumSnoc(s: seq<int>, x: int)
    ensures Sum(s + [x]) == Sum(s) + x
  {
    SumToPrefix(s, x, |s|);
  }

  lemma {:induction false} ScheduleSnoc(strategy: RetryBackOffStrategy, interval: int, cap: int, k: nat)
    requires ValidIntervals(interval, cap)
    ensures Sum(Schedule(strategy, interval, cap, k + 1))
         == Sum(Schedule(strategy, interval, cap, k)) + Delay(strategy, k + 1, interval, cap)
  {
    SumSnoc(Schedule(strategy, interval, cap, k), Delay(strategy, k + 1, interval, cap));
  }

  /** Without back-off, `k` retries wait `k` times the interval. */
  lemma {:induction false} NoBackOffTotal(interval: int, cap: int, k: nat)
    requires ValidIntervals(interval, cap)
    ensures Sum(Schedule(NONE, interval, cap, k)) == interval * k
    decreases k
  {
    if k > 0 {
      NoBackOffTotal(interval, cap, k - 1);
      ScheduleSnoc(NONE, interval, cap, k - 1);
      MulStep(interval, k - 1);
    }
  }

  /** Linear back-off below the cap waits interval times 1 + 2 + ... + k. */
  lemma {:induction false} LinearTotal(interval: int, cap: int, k: nat)
    requires ValidIntervals(interval, cap) && interval * k <= cap
    ensures 2 * Sum(Schedule(LINEAR, interval, cap, k)) == interval * k * (k + 1)
    decreases k
  {
    if k > 0 {
      MulStep(interval, k - 1);
      LinearTotal(interval, cap, k - 1);
      ScheduleSnoc(LINEAR, interval, cap, k - 1);
      DelayFormula(LINEAR, k, interval, cap);
      TriangleStep(interval, k, Sum(Schedule(LINEAR, interval, cap, k - 1)));
    }
  }

  lemma {:induction false} TriangleStep(a: int, k: int, prev: int)
    requires 2 * prev == a * (k - 1) * k
    ensures 2 * (prev + a * k) == a * k * (k + 1)
  {
  }

  /** Exponential back-off below the cap waits interval times 1 + 2 + 4 + ... + 2^(k-1). */
  lemma {:induction false} ExponentialTotal(interval: int, cap: int, k: nat)
    requires ValidIntervals(interval, cap) && (k == 0 || interval * Pow2(k - 1) <= cap)
    ensures Sum(Schedule(EXPONENTIAL, interval, cap, k)) == interval * (Pow2(k) - 1)
    decreases k
  {
    if k > 0 {
      if k > 1 {
        HalfBelowCap(interval, cap, k - 1);
      }
      ExponentialTotal(interval, cap, k - 1);
      ScheduleSnoc(EXPONENTIAL, interval, cap, k - 1);
      DelayFormula(EXPONENTIAL, k, interval, cap);
      GeometricStep(interval, Pow2(k - 1), Pow2(k), Sum(Schedule(EXPONENTIAL, interval, cap, k - 1)));
    }
  }

  lemma {:induction false} HalfBelowCap(interval: int, cap: int, k: nat)
    requires 1 <= interval && k >= 1 && interval * Pow2(k) <= cap
    ensures interval * Pow2(k - 1) <= cap
  {
  }

  lemma {:induction false} Scale(a: int, q: int)
    requires a >= 1 && q >= 0
    ensures a * q <= a * (2 * q) && a * (2 * q) == 2 * (a * q) && a * (q + 1) >= a
  {
  }

  lemma {:induction false} GeometricStep(a: int, p: int, q: int, prev: int)
    requires prev == a * (p - 1) && q == 2 * p
    ensures prev + a * p == a * (q - 1)
  {
  }

  /** With exponential back-off each wait doubles the previous one until the cap is reached. */
  lemma {:induction false} ExponentialDoubles(interval: int, cap: int, n: nat)
    requires ValidIntervals(interval, cap) && n >= 1
    requires 2 * Delay(EXPONENTIAL, n, interval, cap) <= cap
    ensures Delay(EXPONENTIAL, n + 1, interval, cap) == 2 * Delay(EXPONENTIAL, n, interval, cap)
  {
    DelayFormula(EXPONENTIAL, n, interval, cap);
    DelayFormula(EXPONENTIAL, n + 1, interval, cap);
    assert interval * Pow2(n) == 2 * (interval * Pow2(n - 1));
  }

  lemma {:induction false} Pow2AtLeast(k: nat)
    ensures Pow2(k) >= k + 1
  {
    if k > 0 {
      Pow2AtLeast(k - 1);
    }
  }

  /** For every attempt number beyond the cap (in seconds), exponential back-off
      waits exactly the cap. */
  lemma {:induction false} ExponentialReachesCap(interval: int, cap: int, n: nat)
    requires ValidIntervals(interval, cap) && n > cap
    ensures Delay(EXPONENTIAL, n, interval, cap) == cap
  {
    DelayFormula(EXPONENTIAL, n, interval, cap);
    Pow2AtLeast(n - 1);
    AtLeastFactor(interval, Pow2(n - 1));
  }

  lemma {:induction false} AtLeastFactor(a: int, b: int)
    requires a >= 1 && b >= 0
    ensures a * b >= b
  {
  }

  /** Waits never shrink from one attempt to the next, whatever the strategy. */
  lemma {:induction false} DelayMonotone(strategy: RetryBackOffStrategy, interval: int, cap: int, n: nat)
    requires ValidIntervals(interval, cap) && n >= 1
    ensures Delay(strategy, n, interval, cap) <= Delay(strategy, n + 1, interval, cap)
  {
    DelayFormula(strategy, n, interval, cap);
    DelayFormula(strategy, n + 1, interval, cap);
    match strategy
    case NONE =>
    case LINEAR =>
      MulStep(interval, n);
    case EXPONENTIAL =>
      assert Pow2(n) == 2 * Pow2(n - 1);
      Scale(interval, Pow2(n - 1));
  }

  lemma {:induction false} MulStep(a: int, n: int)
    ensures a * (n + 1) == a * n + a
  {
  }

  /** Waiting through more retries never waits less in total. */
  lemma {:induction false} ScheduleTotalMonotone(strategy: RetryBackOffStrategy, interval: int, cap: int, k: nat, k': nat)
    requires ValidIntervals(interval, cap) && k <= k'
    ensures Sum(Schedule(strategy, interval, cap, k)) <= Sum(Schedule(strategy, interval, cap, k'))
    decreases k' - k
  {
    if k < k' {
      ScheduleTotalMonotone(strategy, interval, cap, k, k' - 1);
      ScheduleSnoc(strategy, interval, cap, k' - 1);
    }
  }
}
