/**
 * `ExpBackoff.delay` of retry.go: `Base * Factor^attempt`, converted to a duration and
 * clamped. Durations are integer nanoseconds; `math.Pow` is the exact real power.
 */
module Backoff {
  import opened Durations

  datatype ExpBackoff = ExpBackoff(base: int, max: int, factor: real)

  /** The backoff `Do` starts from: 100 ms base, 2 s maximum, factor 2. */
  const DefaultBackoff := ExpBackoff(100 * Millisecond, 2 * Second, 2.0)

  function Pow(x: real, n: nat): real
  {
    if n == 0 then 1.0 else x * Pow(x, n - 1)
  }

  /** The conversion of a float to an integer, which truncates toward zero. */
  function Trunc(x: real): int
  {
    if x >= 0.0 then x.Floor else -((-x).Floor)
  }

  /** The clamp of `delay`: below `Base` gives `Base`, else above `Max` gives `Max`. */
  function Clamp(b: ExpBackoff, d: int): (r: int)
    ensures b.base <= b.max ==> b.base <= r <= b.max
    ensures b.base <= d <= b.max ==> r == d
  {
    if d < b.base then b.base else if d > b.max then b.max else d
  }

  /** `float64(Base) * math.Pow(Factor, float64(attempt))`, before conversion. */
  function Product(b: ExpBackoff, attempt: nat): real
  {
    b.base as real * Pow(b.factor, attempt)
  }

  /**
   * `delay(attempt)`, with the product converted exactly (a value beyond the duration range
   * behaves as a very long delay and is clamped to `Max`).
   */
  function Delay(b: ExpBackoff, attempt: nat): (d: int)
    ensures b.base <= b.max ==> b.base <= d <= b.max
    ensures d == b.base || d == b.max || b.base <= d <= b.max
  {
    Clamp(b, Trunc(Product(b, attempt)))
  }

  // ---------------------------------------------------------------- the conversion as compiled

  const MinInt64: int := -0x8000_0000_0000_0000
  const MaxInt64: int := 0x7FFF_FFFF_FFFF_FFFF

  /**
   * `time.Duration(f)` as the amd64 conversion instruction computes it: a value whose
   * truncation does not fit in 64 bits becomes the smallest 64-bit integer.
   */
  function ConvertAmd64(x: real): (r: int)
    ensures MinInt64 <= r <= MaxInt64
    ensures MinInt64 <= Trunc(x) <= MaxInt64 ==> r == Trunc(x)
  {
    var t := Trunc(x);
    if MinInt64 <= t <= MaxInt64 then t else MinInt64
  }

  /** `delay(attempt)` as written, with the amd64 conversion of the product. */
  function DelayAsCompiled(b: ExpBackoff, attempt: nat): (d: int)
    ensures b.base <= b.max ==> b.base <= d <= b.max
  {
    Clamp(b, ConvertAmd64(Product(b, attempt)))
  }

  // ---------------------------------------------------------------- lemmas

  lemma {:induction false} PowAtLeastOne(x: real, n: nat)
    requires x >= 1.0
    ensures Pow(x, n) >= 1.0
  {
    if n > 0 {
      PowAtLeastOne(x, n - 1);
    }
  }

  lemma TruncMonotone(x: real, y: real)
    requires 0.0 <= x <= y
    ensures 0 <= Trunc(x) <= Trunc(y)
  {
  }

  /**
   * With `0 <= Base <= Max` and `Factor >= 1` the un-jittered delays never decrease from
   * one attempt to the next, and stay within `[Base, Max]`.
   */
  lemma DelayNondecreasing(b: ExpBackoff, attempt: nat)
    requires 0 <= b.base <= b.max && b.factor >= 1.0
    ensures b.base <= Delay(b, attempt) <= Delay(b, attempt + 1) <= b.max
  {
    ProductNondecreasing(b, attempt);
    TruncMonotone(Product(b, attempt), Product(b, attempt + 1));
  }

  /** The unconverted product grows with the attempt and is never negative. */
  lemma ProductNondecreasing(b: ExpBackoff, attempt: nat)
    requires 0 <= b.base && b.factor >= 1.0
    ensures 0.0 <= Product(b, attempt) <= Product(b, attempt + 1)
  {
    var p := Pow(b.factor, attempt);
    PowAtLeastOne(b.factor, attempt);
    ProductGrows(b.base as real, p, b.factor);
  }

  lemma ProductGrows(base: real, p: real, f: real)
    requires base >= 0.0 && p >= 0.0 && f >= 1.0
    ensures 0.0 <= base * p <= base * (f * p)
  {
    MulAtLeastOne(f, p);
    MulLeft(base, p, f * p);
    MulLeft(base, 0.0, p);
  }

  lemma MulAtLeastOne(f: real, p: real)
    requires f >= 1.0 && p >= 0.0
    ensures p <= f * p
  {
    assert f * p - p == (f - 1.0) * p;
  }

  lemma MulLeft(c: real, x: real, y: real)
    requires c >= 0.0 && x <= y
    ensures c * x <= c * y
  {
    assert c * y - c * x == c * (y - x);
  }

  /** The default curve: 100 ms, 200 ms, 400 ms, 800 ms, 1.6 s, then 2 s. */
  lemma DefaultDelays()
    ensures Delay(DefaultBackoff, 0) == 100 * Millisecond
    ensures Delay(DefaultBackoff, 1) == 200 * Millisecond
    ensures Delay(DefaultBackoff, 2) == 400 * Millisecond
    ensures Delay(DefaultBackoff, 3) == 800 * Millisecond
    ensures Delay(DefaultBackoff, 5) == 2 * Second
  {
    assert Pow(2.0, 5) == 32.0;
  }

  lemma {:induction false} PowTwo(n: nat)
    ensures Pow(2.0, n) == TwoTo(n) as real
  {
    if n > 0 {
      PowTwo(n - 1);
    }
  }

  function TwoTo(n: nat): nat
  {
    if n == 0 then 1 else 2 * TwoTo(n - 1)
  }

  lemma {:induction false} TwoToAdd(a: nat, b: nat)
    ensures TwoTo(a + b) == TwoTo(a) * TwoTo(b)
  {
    if b > 0 {
      var p, q := TwoTo(a), TwoTo(b - 1);
      calc {
        TwoTo(a + b);
        2 * TwoTo(a + (b - 1));
        { TwoToAdd(a, b - 1); }
        2 * (p * q);
        p * (2 * q);
      }
    }
  }

  /**
   * As compiled for amd64, the default curve collapses: attempt 36 waits `Max` (2 s), but at
   * attempt 37 the product 100 ms * 2^37 overflows the conversion, and the delay drops back to
   * `Base` (100 ms), while the exact conversion keeps it at `Max`.
   */
  lemma CompiledDelayCollapses()
    ensures DelayAsCompiled(DefaultBackoff, 36) == 2 * Second
    ensures DelayAsCompiled(DefaultBackoff, 37) == 100 * Millisecond
    ensures Delay(DefaultBackoff, 37) == 2 * Second
  {
    LargeProducts();
    assert Trunc(6_871_947_673_600_000_000.0) == 6_871_947_673_600_000_000;
    assert Trunc(13_743_895_347_200_000_000.0) == 13_743_895_347_200_000_000;
  }

  /** 100 ms * 2^36 fits in 64 bits; 100 ms * 2^37 does not. */
  lemma LargeProducts()
    ensures Product(DefaultBackoff, 36) == 6_871_947_673_600_000_000.0
    ensures Product(DefaultBackoff, 37) == 13_743_895_347_200_000_000.0
  {
    LargePowers();
    PowTwo(36);
    PowTwo(37);
  }

  lemma LargePowers()
    ensures TwoTo(36) == 68_719_476_736
    ensures TwoTo(37) == 137_438_953_472
  {
    assert TwoTo(6) == 64;
    TwoToAdd(6, 6);
    assert TwoTo(12) == 4096;
    TwoToAdd(12, 12);
    assert TwoTo(24) == 16_777_216;
    TwoToAdd(24, 12);
    assert TwoTo(36) == 68_719_476_736;
  }
}
