/** The delay before a failed job's next attempt, in 64-bit nanoseconds. */
module JobBackoff {
  import opened Prelude

  const TWO_63: int := 0x8000_0000_0000_0000

  const TWO_64: int := 0x1_0000_0000_0000_0000

  const SECOND: int := 1_000_000_000

  function Wrap(x: int): int {
    (x + TWO_63) % TWO_64 - TWO_63
  }

  predicate IsInt64(x: int) {
    -TWO_63 <= x < TWO_63
  }

  function Pow2(n: nat): nat {
    if n == 0 then 1 else 2 * Pow2(n - 1)
  }

  /** base * 2^(attempt-1), cut off at the maximum: what the delay is meant to be. */
  function Ideal(base: int, max: int, attempt: nat): int
    requires attempt >= 1
  {
    Min(base * Pow2(attempt - 1), max)
  }

  /** The delay before the jitter, with every operation wrapping around at 64 bits. */
  function Delay(base: int, max: int, attempt: nat): int
    requires attempt >= 1
  {
    var delay := Wrap(base * Wrap(Pow2(attempt - 1)));
    if delay > max then max else delay
  }

  /** A duration in nanoseconds. */
  function Nanos(seconds: int): int {
    Wrap(seconds * SECOND)
  }

  /** A negative shift count, or a random draw from an empty range. */
  predicate Panics(attempt: int, baseSec: int, maxSec: int) {
    attempt < 1 || Delay(Nanos(baseSec), Nanos(maxSec), attempt) < 5
  }

  /** None stands for a panic.  The jitter adds less than a fifth of the delay; a sum beyond 64 bits wraps
      to a negative duration.  `draw` is the random source, asked for a number below `n`. */
  method CalculateBackoffWithJitter(attempt: int, baseSec: int, maxSec: int, draw: int -> int) returns (r: Option<int>)
    requires forall n :: n > 0 ==> 0 <= draw(n) < n
    ensures r.None? <==> Panics(attempt, baseSec, maxSec)
    ensures r.Some? ==> var d := Delay(Nanos(baseSec), Nanos(maxSec), attempt);
      d <= r.value < Min(d + d / 5, TWO_63) || (-TWO_63 <= r.value < d + d / 5 - TWO_64)
  {
    var base := Wrap(baseSec * SECOND);
    var max := Wrap(maxSec * SECOND);
    if attempt < 1 {
      return None;
    }
    var delay := Wrap(base * Wrap(Pow2(attempt - 1)));
    if delay > max {
      delay := max;
    }
    if delay < 5 {
      return None;
    }
    var jitter := draw(delay / 5);
    WrapKeepsInt64(base * Wrap(Pow2(attempt - 1)));
    JitterIsSmall(delay, jitter);
    r := Some(Wrap(delay + jitter));
  }

  lemma JitterIsSmall(d: int, jitter: int)
    requires 5 <= d < TWO_63 && 0 <= jitter < d / 5
    ensures d <= Wrap(d + jitter) < Min(d + d / 5, TWO_63) || (-TWO_63 <= Wrap(d + jitter) < d + d / 5 - TWO_64)
  {
    if IsInt64(d + jitter) {
      WrapKeepsInt64(d + jitter);
    } else {
      WrapKeepsInt64(d + jitter - TWO_64);
      WrapForgetsMultiples(d + jitter, 1);
    }
  }

  lemma WrapKeepsInt64(x: int)
    ensures IsInt64(Wrap(x))
    ensures IsInt64(x) ==> Wrap(x) == x
  {
  }

  lemma {:induction false} Pow2IsPositive(n: nat)
    ensures Pow2(n) >= 1
  {
    if n > 0 {
      Pow2IsPositive(n - 1);
    }
  }

  lemma ProductBounds(base: int, p: int)
    requires base >= 1 && p >= 1
    ensures p <= base * p
  {
  }

  lemma WrapForgetsMultiples(x: int, m: int)
    ensures Wrap(x - TWO_64 * m) == Wrap(x)
  {
  }

  lemma TimesDifference(b: int, p: int, m: int)
    ensures b * (p - TWO_64 * m) == b * p - TWO_64 * (b * m)
  {
  }

  /** Wrapping the power before the multiplication makes no difference. */
  lemma WrappedOnce(b: int, p: int)
    ensures Wrap(b * Wrap(p)) == Wrap(b * p)
  {
    var m := (p + TWO_63) / TWO_64;
    assert Wrap(p) == p - TWO_64 * m;
    TimesDifference(b, p, m);
    WrapForgetsMultiples(b * p, b * m);
  }

  /** The signed reading of a number modulo 2^64. */
  lemma WrapIsTheSignedResidue(x: int)
    ensures Wrap(x) == if x % TWO_64 < TWO_63 then x % TWO_64 else x % TWO_64 - TWO_64
  {
  }

  /** The code computes min(base * 2^(attempt-1), max) exactly when the product is below 2^63, or leaves a
      remainder modulo 2^64 between the maximum and 2^63. */
  lemma DelayIsIdealIff(base: int, max: int, attempt: nat)
    requires attempt >= 1 && 0 < base && 0 < max < TWO_63
    ensures var product := base * Pow2(attempt - 1);
      Delay(base, max, attempt) == Ideal(base, max, attempt)
      <==> product < TWO_63 || max <= product % TWO_64 < TWO_63
  {
    hide Wrap, Pow2;
    var p := Pow2(attempt - 1);
    Pow2IsPositive(attempt - 1);
    ProductBounds(base, p);
    WrappedOnce(base, p);
    WrapIsTheSignedResidue(base * p);
  }

  /** The first attempt, the only one that is ever made, panics exactly on a duration that is not positive. */
  lemma FirstAttemptPanicsIff(baseSec: int, maxSec: int)
    requires IsInt64(baseSec * 1_000_000_000) && IsInt64(maxSec * 1_000_000_000)
    ensures Panics(1, baseSec, maxSec) <==> baseSec <= 0 || maxSec <= 0
  {
    assert Pow2(0) == 1;
    WrapKeepsInt64(baseSec * SECOND);
    WrapKeepsInt64(maxSec * SECOND);
    WrappedOnce(baseSec * SECOND, 1);
  }

  lemma {:induction false} Pow2Grows(m: nat, n: nat)
    requires m <= n
    ensures Pow2(m) <= Pow2(n)
    decreases n
  {
    if m < n {
      Pow2Grows(m, n - 1);
    }
  }

  lemma SmallerFactor(base: int, p: int, q: int)
    requires 0 < base && 0 < p <= q
    ensures 0 < base * p <= base * q
  {
  }

  /** The delay grows with the attempt and stays at the maximum once it got there. */
  lemma DelayIsMonotoneAndSticky(base: int, max: int, a: nat, b: nat)
    requires 1 <= a <= b && 0 < base && 0 < max < TWO_63
    requires IsInt64(base * Pow2(b - 1))
    ensures Delay(base, max, a) <= Delay(base, max, b)
    ensures Delay(base, max, a) == max ==> Delay(base, max, b) == max
  {
    Pow2Grows(a - 1, b - 1);
    Pow2IsPositive(a - 1);
    SmallerFactor(base, Pow2(a - 1), Pow2(b - 1));
    DelayIsIdealIff(base, max, a);
    DelayIsIdealIff(base, max, b);
  }

  /** Half a minute doubled twenty-nine times does not fit: the wrapped delay is negative, and the
      random draw panics. */
  lemma TheThirtiethAttemptOverflows()
    ensures Delay(Nanos(30), Nanos(600), 30) < 0
    ensures !IsInt64(30_000_000_000 * Pow2(29)) && Nanos(30) == 30_000_000_000 && Nanos(600) == 600_000_000_000
  {
    assert Pow2(9) == 512;
    assert Pow2(19) == 1024 * Pow2(9);
    assert Pow2(29) == 1024 * Pow2(19);
    assert Pow2(29) == 536870912;
  }
}
