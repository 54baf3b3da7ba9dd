/**
 * `Jitter.jitter` of jitter.go. The random number `rand.Float64()` is a parameter `u`,
 * which the standard library draws from `[0, 1)`.
 */
module Jitters {
  import opened Backoff
  import opened Durations

  /** Delays in `[d/2, d)`. */
  const EqualJitter: real := 0.5
  /** Delays in `[0, d)`; the default. */
  const FullJitter: real := 1.0
  /** Jitter switched off: the delay is returned unchanged. */
  const WithoutJitter: real := -1.0

  /** A sample `rand.Float64()` may return. */
  predicate Sample(u: real)
  {
    0.0 <= u < 1.0
  }

  /** `j.jitter(d)` with random sample `u`. */
  function Jitter(j: real, d: int, u: real): (r: int)
    ensures j < 0.0 ==> r == d
    ensures d == 0 ==> r == 0
  {
    if j < 0.0 then d
    else
      var r := u * d as real;
      var r' := if 0.0 < j < 1.0 then j * r + (1.0 - j) * d as real else r;
      Trunc(r')
  }

  // ---------------------------------------------------------------- lemmas

  /**
   * The special cases: a negative jitter returns the delay unchanged, and jitter 0 as well as
   * any jitter of 1 or more behave exactly like `FullJitter`.
   */
  lemma SpecialCases(j: real, d: int, u: real)
    ensures j < 0.0 ==> Jitter(j, d, u) == d
    ensures j == 0.0 || j >= 1.0 ==> Jitter(j, d, u) == Jitter(FullJitter, d, u)
  {
  }

  lemma ScaleBelow(u: real, x: real)
    requires Sample(u) && x > 0.0
    ensures 0.0 <= u * x < x
  {
    assert x - u * x == (1.0 - u) * x;
  }

  lemma FloorBelow(x: real, d: int)
    requires 0.0 <= x < d as real
    ensures 0 <= Trunc(x) < d
  {
  }

  /** `FullJitter` picks a delay in `[0, d)`. */
  lemma FullJitterRange(d: int, u: real)
    requires Sample(u) && d > 0
    ensures 0 <= Jitter(FullJitter, d, u) < d
  {
    ScaleBelow(u, d as real);
    FloorBelow(u * d as real, d);
  }

  /**
   * A jitter strictly between 0 and 1 picks a delay of at least `(1 - j) * d` (rounded down)
   * and below `d`: `j * random_between(0, d) + (1 - j) * d`.
   */
  lemma PartialJitterRange(j: real, d: int, u: real)
    requires 0.0 < j < 1.0 && Sample(u) && d > 0
    ensures 0 <= ((1.0 - j) * d as real).Floor <= Jitter(j, d, u) < d
  {
    PartialJitterValue(j, d, u);
    PartialBounds(j, d, u);
  }

  lemma PartialJitterValue(j: real, d: int, u: real)
    requires 0.0 < j < 1.0
    ensures Jitter(j, d, u) == Trunc(j * (u * d as real) + (1.0 - j) * d as real)
  {
  }

  lemma PartialBounds(j: real, d: int, u: real)
    requires 0.0 < j < 1.0 && Sample(u) && d > 0
    ensures 0 <= ((1.0 - j) * d as real).Floor <= Trunc(j * (u * d as real) + (1.0 - j) * d as real) < d
  {
    var x := d as real;
    MixedSample(j, u, x);
    FloorMonotone((1.0 - j) * x, j * (u * x) + (1.0 - j) * x, d);
  }

  /** A sample of `[0, x)` mixed with `x` by weight `j` stays in `[(1 - j) x, x)`. */
  lemma MixedSample(j: real, u: real, x: real)
    requires 0.0 < j < 1.0 && Sample(u) && x > 0.0
    ensures 0.0 <= (1.0 - j) * x <= j * (u * x) + (1.0 - j) * x < x
  {
    ScaleBelow(u, x);
    Mix(j, u * x, x);
  }

  lemma Mix(j: real, r: real, x: real)
    requires 0.0 < j < 1.0 && 0.0 <= r < x
    ensures 0.0 <= (1.0 - j) * x <= j * r + (1.0 - j) * x < x
  {
    NonNegativeProduct(1.0 - j, x);
    NonNegativeProduct(j, r);
    assert x - (j * r + (1.0 - j) * x) == j * (x - r);
    assert j * (x - r) > 0.0;
  }

  lemma NonNegativeProduct(a: real, b: real)
    requires a >= 0.0 && b >= 0.0
    ensures a * b >= 0.0
  {
  }

  lemma FloorMonotone(a: real, b: real, d: int)
    requires 0.0 <= a <= b < d as real
    ensures 0 <= a.Floor <= Trunc(b) < d
  {
  }

  /** `EqualJitter` picks a delay in `[d/2, d)`. */
  lemma EqualJitterRange(d: int, u: real)
    requires Sample(u) && d > 0
    ensures d / 2 <= Jitter(EqualJitter, d, u) < d
  {
    PartialJitterRange(EqualJitter, d, u);
    assert ((1.0 - EqualJitter) * d as real).Floor == d / 2;
  }

  /** The documented example: jitter 0.2 on a 100 ms delay gives a delay in `[80, 100)` ms. */
  lemma DocumentedExample(u: real)
    requires Sample(u)
    ensures 80 * Millisecond <= Jitter(0.2, 100 * Millisecond, u) < 100 * Millisecond
  {
    PartialJitterRange(0.2, 100 * Millisecond, u);
  }

  /** Jitter never lengthens a non-negative delay, and never makes it negative. */
  lemma NeverLonger(j: real, d: int, u: real)
    requires Sample(u) && d >= 0
    ensures 0 <= Jitter(j, d, u) <= d
  {
    if j < 0.0 {
    } else if d == 0 {
      ZeroDelay(j, u);
    } else if 0.0 < j < 1.0 {
      PartialJitterRange(j, d, u);
    } else {
      SpecialCases(j, d, u);
      FullJitterRange(d, u);
    }
  }

  /** A zero delay stays zero under every non-negative jitter. */
  lemma ZeroDelay(j: real, u: real)
    requires j >= 0.0
    ensures Jitter(j, 0, u) == 0
  {
    assert u * 0.0 == 0.0;
    assert j * 0.0 + (1.0 - j) * 0.0 == 0.0;
  }
}
