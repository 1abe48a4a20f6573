/** The generic retry loop and its exponential backoff, over the reals. */
module Retry {
  import opened Prelude

  datatype Config = Config(maxRetries: int, initial: real, maxBackoff: real, multiplier: real, jitter: real)

  /** What fn returned on a call. */
  datatype Try<+T> = Fine(value: T) | Wrong(error: string, retryable: bool)

  datatype Result<+T> = Success(value: T) | Failure(error: string) | Cancelled | NotCalled

  function Pow(m: real, n: nat): real {
    if n == 0 then 1.0 else m * Pow(m, n - 1)
  }

  /** The exponential part, cut off at the maximum. */
  function Capped(cfg: Config, attempt: nat): real {
    MinReal(cfg.initial * Pow(cfg.multiplier, attempt), cfg.maxBackoff)
  }

  /** A wait as it is computed: the capped backoff, the width of the jitter, and the outcome. */
  datatype Wait = Wait(capped: real, range: real, length: real)

  /** `draw` is the random number in [0, 1). */
  predicate IsWait(cfg: Config, attempt: nat, draw: real, w: Wait) {
    && w.capped == Capped(cfg, attempt)
    && w.range == (if cfg.jitter > 0.0 then w.capped * cfg.jitter else 0.0)
    && w.length == w.capped + (draw * 2.0 * w.range - w.range)
  }

  method CalculateBackoff(cfg: Config, attempt: nat, draw: real) returns (w: Wait)
    ensures IsWait(cfg, attempt, draw, w)
  {
    var mult := Pow(cfg.multiplier, attempt);
    var backoff := cfg.initial * mult;
    if backoff > cfg.maxBackoff {
      backoff := cfg.maxBackoff;
    }
    var capped := backoff;
    var range := 0.0;
    if cfg.jitter > 0.0 {
      range := backoff * cfg.jitter;
      var jitter := draw * 2.0 * range - range;
      backoff := backoff + jitter;
    }
    w := Wait(capped, range, backoff);
  }

  /** `calls` attempts that end in `result`: every call but the last met a retryable error and an
      undisturbed wait, and the last one decides. */
  ghost predicate EndsWith<T>(cfg: Config, fn: nat -> Try<T>, cancelled: nat -> bool, calls: nat, result: Result<T>) {
    && 1 <= calls <= cfg.maxRetries + 1
    && (forall k :: 0 <= k < calls - 1 ==> fn(k).Wrong? && fn(k).retryable && !cancelled(k))
    && var last := fn(calls - 1);
       if last.Fine? then result == Success(last.value)
       else if last.retryable && calls <= cfg.maxRetries then cancelled(calls - 1) && result == Cancelled
       else result == Failure(last.error)
  }

  /** The loop itself. */
  method CallUntilItEnds<T>(cfg: Config, fn: nat -> Try<T>, draw: nat -> real, cancelled: nat -> bool)
    returns (result: Result<T>, calls: nat, waits: seq<Wait>)
    ensures cfg.maxRetries < 0 ==> result == NotCalled && calls == 0
    ensures cfg.maxRetries >= 0 ==> EndsWith(cfg, fn, cancelled, calls, result)
    ensures |waits| == if result.Cancelled? then calls else if calls == 0 then 0 else calls - 1
    ensures forall k :: 0 <= k < |waits| ==> IsWait(cfg, k, draw(k), waits[k])
  {
    calls, waits := 0, [];
    var attempt := 0;
    while attempt <= cfg.maxRetries
      invariant 0 <= attempt && calls == attempt && |waits| == attempt
      invariant if cfg.maxRetries >= 0 then attempt <= cfg.maxRetries else attempt == 0
      invariant forall k :: 0 <= k < attempt ==> fn(k).Wrong? && fn(k).retryable && !cancelled(k)
      invariant forall k :: 0 <= k < |waits| ==> IsWait(cfg, k, draw(k), waits[k])
      decreases cfg.maxRetries - attempt
    {
      var outcome := fn(attempt);
      calls := calls + 1;
      if outcome.Fine? {
        return Success(outcome.value), calls, waits;
      }
      if !outcome.retryable && attempt < cfg.maxRetries {
        return Failure(outcome.error), calls, waits;
      }
      if attempt == cfg.maxRetries {
        return Failure(outcome.error), calls, waits;
      }
      var backoff := CalculateBackoff(cfg, attempt, draw(attempt));
      waits := waits + [backoff];
      if cancelled(attempt) {
        return Cancelled, calls, waits;
      }
      attempt := attempt + 1;
    }
    result := NotCalled;
  }

  /** The calls, how they end, the waits between them, and how long those are together at most. */
  method RetryWithResult<T>(cfg: Config, fn: nat -> Try<T>, draw: nat -> real, cancelled: nat -> bool)
    returns (result: Result<T>, calls: nat, waits: seq<Wait>)
    ensures cfg.maxRetries < 0 ==> result == NotCalled && calls == 0
    ensures cfg.maxRetries >= 0 ==> EndsWith(cfg, fn, cancelled, calls, result)
    ensures |waits| == if result.Cancelled? then calls else if calls == 0 then 0 else calls - 1
    ensures forall k :: 0 <= k < |waits| ==> IsWait(cfg, k, draw(k), waits[k])
    ensures Sensible(cfg) && (forall k :: 0.0 <= draw(k) < 1.0) ==>
      && Total(waits) <= (cfg.maxBackoff + cfg.maxBackoff * cfg.jitter) * |waits| as real
      && Total(waits) <= (cfg.initial + cfg.initial * cfg.jitter) * Geometric(cfg.multiplier, |waits|)
    ensures cfg.multiplier >= 1.0 && cfg.maxBackoff >= 0.0 && waits != [] ==>
      && waits[0].capped == MinReal(cfg.initial, cfg.maxBackoff)
      && forall k :: 1 <= k < |waits| ==> waits[k].capped == Next(cfg, waits[k - 1].capped)
  {
    result, calls, waits := CallUntilItEnds(cfg, fn, draw, cancelled);
    if Sensible(cfg) && forall k :: 0.0 <= draw(k) < 1.0 {
      TotalWaitIsBounded(cfg, draw, waits);
    }
    if cfg.multiplier >= 1.0 && cfg.maxBackoff >= 0.0 && waits != [] {
      WaitsMultiply(cfg, draw, waits);
    }
  }

  /** The wait after one that was `capped`, before the jitter. */
  function Next(cfg: Config, capped: real): real {
    MinReal(cfg.multiplier * capped, cfg.maxBackoff)
  }

  lemma NextWaitMultiplies(cfg: Config, k: nat, d0: real, d1: real, w0: Wait, w1: Wait)
    requires cfg.multiplier >= 1.0 && cfg.maxBackoff >= 0.0 && IsWait(cfg, k, d0, w0) && IsWait(cfg, k + 1, d1, w1)
    ensures w1.capped == Next(cfg, w0.capped)
  {
    EachWaitMultipliesTheLast(cfg, k, w0.capped);
  }

  lemma WaitsMultiply(cfg: Config, draw: nat -> real, waits: seq<Wait>)
    requires cfg.multiplier >= 1.0 && cfg.maxBackoff >= 0.0 && waits != []
    requires forall k :: 0 <= k < |waits| ==> IsWait(cfg, k, draw(k), waits[k])
    ensures waits[0].capped == MinReal(cfg.initial, cfg.maxBackoff)
    ensures forall k :: 1 <= k < |waits| ==> waits[k].capped == Next(cfg, waits[k - 1].capped)
  {
    hide Next;
    EachWaitMultipliesTheLast(cfg, 0, Capped(cfg, 0));
    assert IsWait(cfg, 0, draw(0), waits[0]);
    forall k | 1 <= k < |waits|
      ensures waits[k].capped == Next(cfg, waits[k - 1].capped)
    {
      NextWaitMultiplies(cfg, k - 1, draw(k - 1), draw(k), waits[k - 1], waits[k]);
    }
  }

  /** How a loop over the same calls ends is settled by the calls alone. */
  lemma TheEndIsUnique<T>(cfg: Config, fn: nat -> Try<T>, cancelled: nat -> bool, c1: nat, r1: Result<T>, c2: nat, r2: Result<T>)
    requires EndsWith(cfg, fn, cancelled, c1, r1) && EndsWith(cfg, fn, cancelled, c2, r2)
    ensures c1 == c2 && r1 == r2
  {
  }

  // ---------------------------------------------------------------- how long the waits are together

  function Total(waits: seq<Wait>): real {
    if waits == [] then 0.0 else Total(waits[..|waits| - 1]) + waits[|waits| - 1].length
  }

  function SumOf(c: nat -> real, n: nat): real {
    if n == 0 then 0.0 else SumOf(c, n - 1) + c(n - 1)
  }

  function Powers(m: real): nat -> real {
    (k: nat) => Pow(m, k)
  }

  function Ones(): nat -> real {
    (k: nat) => 1.0
  }

  function Geometric(m: real, n: nat): real {
    SumOf(Powers(m), n)
  }

  lemma GeometricStep(g: real, p: real, m: real)
    requires g * (m - 1.0) == p - 1.0
    ensures (g + p) * (m - 1.0) == m * p - 1.0
  {
    calc {
      (g + p) * (m - 1.0);
      g * (m - 1.0) + p * (m - 1.0);
      p - 1.0 + (m * p - p);
      m * p - 1.0;
    }
  }

  lemma {:induction false} GeometricSum(m: real, n: nat)
    ensures Geometric(m, n) * (m - 1.0) == Pow(m, n) - 1.0
  {
    if n > 0 {
      GeometricSum(m, n - 1);
      GeometricStep(Geometric(m, n - 1), Pow(m, n - 1), m);
    }
  }

  lemma {:induction false} PowIsPositive(m: real, n: nat)
    requires m > 0.0
    ensures Pow(m, n) > 0.0
  {
    if n > 0 {
      PowIsPositive(m, n - 1);
    }
  }

  lemma {:induction false} TotalBelow(waits: seq<Wait>, c: nat -> real)
    requires forall k :: 0 <= k < |waits| ==> waits[k].length <= c(k)
    ensures Total(waits) <= SumOf(c, |waits|)
  {
    if waits != [] {
      TotalBelow(waits[..|waits| - 1], c);
    }
  }

  lemma Distribute(a: real, b: real, c: real)
    ensures a * (b + c) == a * b + a * c
  {
  }

  lemma {:induction false} SumScaled(c: nat -> real, f: real, d: nat -> real, n: nat)
    requires forall k :: d(k) == f * c(k)
    ensures SumOf(d, n) == f * SumOf(c, n)
  {
    if n > 0 {
      SumScaled(c, f, d, n - 1);
      Distribute(f, SumOf(c, n - 1), c(n - 1));
    }
  }

  lemma {:induction false} SumOfOnes(n: nat)
    ensures SumOf(Ones(), n) == n as real
  {
    if n > 0 {
      SumOfOnes(n - 1);
    }
  }

  lemma DrawIsBounded(draw: real, range: real)
    requires 0.0 <= draw < 1.0 && range >= 0.0
    ensures -range <= draw * 2.0 * range - range <= range
  {
    assert 0.0 <= draw * range <= range;
    assert draw * 2.0 * range == 2.0 * (draw * range);
  }

  /** A wait stays within the jitter on both sides of the capped backoff. */
  lemma WaitStaysWithinJitter(cfg: Config, attempt: nat, draw: real, w: Wait)
    requires IsWait(cfg, attempt, draw, w) && 0.0 <= draw < 1.0 && w.range >= 0.0
    ensures w.capped - w.range <= w.length <= w.capped + w.range
  {
    DrawIsBounded(draw, w.range);
  }

  lemma MoreIsMore(a: real, b: real, jitter: real)
    requires a <= b && jitter >= 0.0
    ensures a + a * jitter <= b + b * jitter
  {
  }

  lemma Factor(initial: real, p: real, jitter: real)
    ensures initial * p + initial * p * jitter == (initial + initial * jitter) * p
  {
  }

  lemma ProductIsNotNegative(a: real, b: real)
    requires a >= 0.0 && b >= 0.0
    ensures a * b >= 0.0
  {
  }

  /** With p for the power, so that nothing is known about it but its sign. */
  lemma BoundIsBounded(initial: real, p: real, top: real, jitter: real, capped: real, range: real)
    requires initial >= 0.0 && p > 0.0 && top >= 0.0 && jitter >= 0.0
    requires capped == MinReal(initial * p, top)
    requires range == if jitter > 0.0 then capped * jitter else 0.0
    ensures range >= 0.0
    ensures capped + range <= top + top * jitter
    ensures capped + range <= (initial + initial * jitter) * p
  {
    ProductIsNotNegative(initial, p);
    ProductIsNotNegative(capped, jitter);
    MoreIsMore(capped, top, jitter);
    MoreIsMore(capped, initial * p, jitter);
    Factor(initial, p, jitter);
  }

  ghost predicate Sensible(cfg: Config) {
    cfg.initial >= 0.0 && cfg.maxBackoff >= 0.0 && cfg.multiplier > 0.0 && cfg.jitter >= 0.0
  }

  lemma WaitIsBounded(cfg: Config, k: nat, draw: real, w: Wait)
    requires Sensible(cfg) && 0.0 <= draw < 1.0 && IsWait(cfg, k, draw, w)
    ensures w.length <= cfg.maxBackoff + cfg.maxBackoff * cfg.jitter
    ensures w.length <= (cfg.initial + cfg.initial * cfg.jitter) * Pow(cfg.multiplier, k)
  {
    PowIsPositive(cfg.multiplier, k);
    LengthIsBounded(cfg.initial, Pow(cfg.multiplier, k), cfg.maxBackoff, cfg.jitter, draw, w);
  }

  lemma LengthIsBounded(initial: real, p: real, top: real, jitter: real, draw: real, w: Wait)
    requires initial >= 0.0 && p > 0.0 && top >= 0.0 && jitter >= 0.0 && 0.0 <= draw < 1.0
    requires w.capped == MinReal(initial * p, top)
    requires w.range == if jitter > 0.0 then w.capped * jitter else 0.0
    requires w.length == w.capped + (draw * 2.0 * w.range - w.range)
    ensures w.length <= top + top * jitter
    ensures w.length <= (initial + initial * jitter) * p
  {
    BoundIsBounded(initial, p, top, jitter, w.capped, w.range);
    DrawIsBounded(draw, w.range);
    AddUp(w, draw, top + top * jitter);
    AddUp(w, draw, (initial + initial * jitter) * p);
  }

  lemma AddUp(w: Wait, draw: real, bound: real)
    requires draw * 2.0 * w.range - w.range <= w.range && w.capped + w.range <= bound
    requires w.length == w.capped + (draw * 2.0 * w.range - w.range)
    ensures w.length <= bound
  {
  }

  lemma CapBound(cfg: Config, draw: nat -> real, waits: seq<Wait>, top: real)
    requires Sensible(cfg) && forall k :: 0.0 <= draw(k) < 1.0
    requires forall k :: 0 <= k < |waits| ==> IsWait(cfg, k, draw(k), waits[k])
    requires top == cfg.maxBackoff + cfg.maxBackoff * cfg.jitter
    ensures Total(waits) <= top * |waits| as real
  {
    forall k | 0 <= k < |waits| ensures waits[k].length <= top {
      WaitIsBounded(cfg, k, draw(k), waits[k]);
    }
    ScaledBound(waits, top, Ones());
    SumOfOnes(|waits|);
  }

  lemma SeriesBound(cfg: Config, draw: nat -> real, waits: seq<Wait>, f: real)
    requires Sensible(cfg) && forall k :: 0.0 <= draw(k) < 1.0
    requires forall k :: 0 <= k < |waits| ==> IsWait(cfg, k, draw(k), waits[k])
    requires f == cfg.initial + cfg.initial * cfg.jitter
    ensures Total(waits) <= f * Geometric(cfg.multiplier, |waits|)
  {
    var m := cfg.multiplier;
    var p := Powers(m);
    forall k | 0 <= k < |waits| ensures waits[k].length <= f * p(k) {
      InSeries(cfg, k, draw(k), waits[k], f, p(k));
    }
    ScaledBound(waits, f, p);
  }

  lemma InSeries(cfg: Config, k: nat, draw: real, w: Wait, f: real, p: real)
    requires Sensible(cfg) && 0.0 <= draw < 1.0 && IsWait(cfg, k, draw, w)
    requires f == cfg.initial + cfg.initial * cfg.jitter && p == Pow(cfg.multiplier, k)
    ensures w.length <= f * p
  {
    WaitIsBounded(cfg, k, draw, w);
  }

  lemma ScaledBound(waits: seq<Wait>, f: real, p: nat -> real)
    requires forall k :: 0 <= k < |waits| ==> waits[k].length <= f * p(k)
    ensures Total(waits) <= f * SumOf(p, |waits|)
  {
    TotalBelow(waits, (k: nat) => f * p(k));
    SumScaled(p, f, (k: nat) => f * p(k), |waits|);
  }

  /** The waits of a call together last at most (1 + jitter) times the cap per wait, and at most
      (1 + jitter) times the geometric series, whose closed form is (m^n - 1)/(m - 1). */
  lemma TotalWaitIsBounded(cfg: Config, draw: nat -> real, waits: seq<Wait>)
    requires Sensible(cfg) && forall k :: 0.0 <= draw(k) < 1.0
    requires forall k :: 0 <= k < |waits| ==> IsWait(cfg, k, draw(k), waits[k])
    ensures Total(waits) <= (cfg.maxBackoff + cfg.maxBackoff * cfg.jitter) * |waits| as real
    ensures Total(waits) <= (cfg.initial + cfg.initial * cfg.jitter) * Geometric(cfg.multiplier, |waits|)
    ensures Geometric(cfg.multiplier, |waits|) * (cfg.multiplier - 1.0) == Pow(cfg.multiplier, |waits|) - 1.0
  {
    CapBound(cfg, draw, waits, cfg.maxBackoff + cfg.maxBackoff * cfg.jitter);
    SeriesBound(cfg, draw, waits, cfg.initial + cfg.initial * cfg.jitter);
    GeometricSum(cfg.multiplier, |waits|);
  }

  lemma {:induction false} TotalAbove(waits: seq<Wait>, c: nat -> real)
    requires forall k :: 0 <= k < |waits| ==> waits[k].length >= c(k)
    ensures Total(waits) >= SumOf(c, |waits|)
  {
    if waits != [] {
      TotalAbove(waits[..|waits| - 1], c);
    }
  }

  lemma FactorLess(initial: real, p: real, jitter: real)
    ensures initial * p - initial * p * jitter == (initial - initial * jitter) * p
  {
  }

  lemma LengthIsAtLeast(initial: real, p: real, jitter: real, draw: real, w: Wait)
    requires initial >= 0.0 && p > 0.0 && jitter >= 0.0 && 0.0 <= draw < 1.0
    requires w.capped == initial * p
    requires w.range == if jitter > 0.0 then w.capped * jitter else 0.0
    requires w.length == w.capped + (draw * 2.0 * w.range - w.range)
    ensures w.length >= (initial - initial * jitter) * p
  {
    ProductIsNotNegative(initial, p);
    ProductIsNotNegative(w.capped, jitter);
    DrawIsBounded(draw, w.range);
    FactorLess(initial, p, jitter);
  }

  lemma InSeriesFromBelow(cfg: Config, k: nat, draw: real, w: Wait, f: real, p: real)
    requires Sensible(cfg) && 0.0 <= draw < 1.0 && IsWait(cfg, k, draw, w)
    requires f == cfg.initial - cfg.initial * cfg.jitter && p == Pow(cfg.multiplier, k) && cfg.initial * p <= cfg.maxBackoff
    ensures w.length >= f * p
  {
    PowIsPositive(cfg.multiplier, k);
    LengthIsAtLeast(cfg.initial, p, cfg.jitter, draw, w);
  }

  lemma ScaledBoundFromBelow(waits: seq<Wait>, f: real, p: nat -> real)
    requires forall k :: 0 <= k < |waits| ==> waits[k].length >= f * p(k)
    ensures Total(waits) >= f * SumOf(p, |waits|)
  {
    TotalAbove(waits, (k: nat) => f * p(k));
    SumScaled(p, f, (k: nat) => f * p(k), |waits|);
  }

  lemma SeriesBoundFromBelow(cfg: Config, draw: nat -> real, waits: seq<Wait>, f: real)
    requires Sensible(cfg) && forall k :: 0.0 <= draw(k) < 1.0
    requires forall k :: 0 <= k < |waits| ==> IsWait(cfg, k, draw(k), waits[k])
    requires forall k :: 0 <= k < |waits| ==> cfg.initial * Pow(cfg.multiplier, k) <= cfg.maxBackoff
    requires f == cfg.initial - cfg.initial * cfg.jitter
    ensures Total(waits) >= f * Geometric(cfg.multiplier, |waits|)
  {
    hide IsWait, Pow;
    var p := Powers(cfg.multiplier);
    forall k | 0 <= k < |waits| ensures waits[k].length >= f * p(k) {
      InSeriesFromBelow(cfg, k, draw(k), waits[k], f, p(k));
    }
    ScaledBoundFromBelow(waits, f, p);
  }

  /** As long as no wait is cut off they last at least (1 - jitter) times the geometric series. */
  lemma TotalWaitIsAtLeast(cfg: Config, draw: nat -> real, waits: seq<Wait>)
    requires Sensible(cfg) && forall k :: 0.0 <= draw(k) < 1.0
    requires forall k :: 0 <= k < |waits| ==> IsWait(cfg, k, draw(k), waits[k])
    requires forall k :: 0 <= k < |waits| ==> cfg.initial * Pow(cfg.multiplier, k) <= cfg.maxBackoff
    ensures Total(waits) >= (cfg.initial - cfg.initial * cfg.jitter) * Geometric(cfg.multiplier, |waits|)
  {
    hide IsWait, Pow, Total, Sensible, Geometric;
    SeriesBoundFromBelow(cfg, draw, waits, cfg.initial - cfg.initial * cfg.jitter);
  }

  lemma TimesAtLeastOne(m: real, x: real)
    requires m >= 1.0 && x >= 0.0
    ensures m * x >= x
  {
    ProductIsNotNegative(m - 1.0, x);
  }

  /** With x for the last power: cutting off before or after the multiplication makes no difference. */
  lemma CutOffTwice(m: real, x: real, top: real)
    requires m >= 1.0 && top >= 0.0
    ensures MinReal(m * x, top) == MinReal(m * MinReal(x, top), top)
  {
    if x >= top {
      TimesAtLeastOne(m, x);
      TimesAtLeastOne(m, top);
    }
  }

  lemma Reorder(a: real, m: real, p: real, q: real)
    requires q == m * p
    ensures a * q == m * (a * p)
  {
  }

  lemma MultipliedAndCutOff(initial: real, m: real, p: real, q: real, top: real, capped: real)
    requires m >= 1.0 && top >= 0.0 && q == m * p && capped == MinReal(initial * p, top)
    ensures MinReal(initial * q, top) == MinReal(m * capped, top)
  {
    Reorder(initial, m, p, q);
    CutOffTwice(m, initial * p, top);
  }

  /** Before the jitter the first wait is the initial one and each next one the last times the multiplier, all
      cut off at the maximum. */
  lemma EachWaitMultipliesTheLast(cfg: Config, k: nat, capped: real)
    requires cfg.multiplier >= 1.0 && cfg.maxBackoff >= 0.0 && capped == Capped(cfg, k)
    ensures Capped(cfg, 0) == MinReal(cfg.initial, cfg.maxBackoff)
    ensures Capped(cfg, k + 1) == MinReal(cfg.multiplier * capped, cfg.maxBackoff)
  {
    assert cfg.initial * Pow(cfg.multiplier, 0) == cfg.initial;
    var p, q := Pow(cfg.multiplier, k), Pow(cfg.multiplier, k + 1);
    MultipliedAndCutOff(cfg.initial, cfg.multiplier, p, q, cfg.maxBackoff, capped);
  }
}
