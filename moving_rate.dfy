/**
 * The moving-window rate estimator of budget.go (`movingRate`): a list of per-bucket event
 * counts, at most BucketNum+1 long, and the time of the last update. The oldest and the
 * newest bucket are only partly inside the window, so the window length stays constant.
 *
 * Time is an integer number of nanoseconds since Go's zero time, so `t.IsZero()` is
 * `t == 0`; durations are integer nanoseconds. The value-level state (`RateState`) and
 * the functions over it specify the class `MovingRate` at the end of the module.
 */
module MovingRates {
  import opened Floats
  import opened Durations

  /** `time.Time.Round(d)` for a positive `d`: the nearest multiple of `d`, halfway rounds up. */
  function Round(t: int, d: int): (rt: int)
    requires d > 0
    ensures rt % d == 0
    ensures -d < 2 * (rt - t) <= d
  {
    var r := t % d;
    MultipleOf(t, d);
    if r + r < d then t - r
    else
      UniqueDivision(t + (d - r), d, t / d + 1, 0);
      t + (d - r)
  }

  /** `timeRoundDown`: the start of the bucket of length `d` that holds `t`. */
  function RoundDown(t: int, d: int): (rt: int)
    requires d > 0
    ensures rt <= t < rt + d
    ensures rt % d == 0
  {
    var rt := Round(t, d);
    var down := if rt > t then rt - d else rt;
    assert down == t - t % d;
    MultipleOf(t, d);
    down
  }

  lemma MultipleOf(t: int, d: int)
    requires d > 0
    ensures (t - t % d) % d == 0
  {
    UniqueDivision(t - t % d, d, t / d, 0);
  }

  /** Euclidean division is determined by any quotient and remainder that fit. */
  lemma UniqueDivision(x: int, d: int, q: int, r: int)
    requires d > 0 && x == q * d + r && 0 <= r < d
    ensures x / d == q && x % d == r
  {
    var q', r' := x / d, x % d;
    assert (q - q') * d == r' - r;
    ProductBetween(q - q', d);
  }

  lemma ProductBetween(k: int, d: int)
    requires d > 0 && -d < k * d < d
    ensures k == 0
  {
    if k >= 1 {
      MulMonotone(1, k, d);
    } else if k <= -1 {
      MulMonotone(k, -1, d);
    }
  }

  /** How far `t` lies inside its bucket. */
  function Offset(t: int, d: int): (o: int)
    requires d > 0
    ensures 0 <= o < d
  {
    t - RoundDown(t, d)
  }

  /** `BucketLength` and `BucketNum` of a `movingRate`. */
  datatype RateConfig = RateConfig(bucketLength: int, bucketNum: nat)
  {
    predicate Valid() { bucketLength > 0 }
  }

  /** The configuration `newMovingRate` uses: one-second buckets, a sixty-second window. */
  const DefaultConfig := RateConfig(Second, 60)

  datatype RateState = RateState(counts: seq<int>, lastUpdate: int)

  /** A freshly allocated `movingRate`: no buckets, zero last-update time. */
  const Empty := RateState([], 0)

  /** What every reachable state satisfies: the length bound, and buckets exist once time was set. */
  predicate Inv(s: RateState, cfg: RateConfig)
  {
    |s.counts| <= cfg.bucketNum + 1 && (s.counts == [] ==> s.lastUpdate == 0)
  }

  function Zeros(n: nat): (z: seq<int>)
    ensures |z| == n && forall k :: 0 <= k < n ==> z[k] == 0
  {
    seq(n, _ => 0)
  }

  /** The number of zero buckets `shift(n)` appends: `n`, capped at BucketNum+1. */
  function ShiftAmount(n: int, cfg: RateConfig): (m: nat)
    requires n >= 0
    ensures m <= cfg.bucketNum + 1 && m <= n
    ensures n <= cfg.bucketNum + 1 ==> m == n
  {
    if n > cfg.bucketNum + 1 then cfg.bucketNum + 1 else n
  }

  /** `shift(n)`: append zero buckets, drop the oldest beyond BucketNum+1, move the bucket start. */
  function ShiftSpec(s: RateState, n: int, cfg: RateConfig): (s': RateState)
    requires cfg.Valid() && n >= 0
    ensures ShiftAmount(n, cfg) <= |s'.counts| <= cfg.bucketNum + 1
  {
    var m := ShiftAmount(n, cfg);
    var c := s.counts + Zeros(m);
    var del := |c| - (cfg.bucketNum + 1);
    RateState(if del > 0 then c[del..] else c,
              RoundDown(s.lastUpdate, cfg.bucketLength) + m * cfg.bucketLength)
  }

  /** `forward(t)`: bring the window up to time `t`; the last update becomes `t`. */
  function ForwardSpec(s: RateState, t: int, cfg: RateConfig): (s': RateState)
    requires cfg.Valid() && Inv(s, cfg)
    ensures s'.lastUpdate == t && |s'.counts| >= 1 && Inv(s', cfg)
  {
    if s.lastUpdate == 0 then RateState([0], t)
    else
      var rt := RoundDown(t, cfg.bucketLength);
      if rt <= s.lastUpdate then s.(lastUpdate := t)
      else
        var n := (rt - RoundDown(s.lastUpdate, cfg.bucketLength)) / cfg.bucketLength;
        ForwardShiftsAtLeastOne(s.lastUpdate, t, cfg);
        ShiftShape(s, n, cfg);
        ShiftSpec(s, n, cfg).(lastUpdate := t)
  }

  /** `Add(t, n)`: ignored before the last update, otherwise `n` more events in the newest bucket. */
  function AddSpec(s: RateState, t: int, n: int, cfg: RateConfig): (s': RateState)
    requires cfg.Valid() && Inv(s, cfg)
    ensures Inv(s', cfg)
  {
    if t < s.lastUpdate then s
    else
      var f := ForwardSpec(s, t, cfg);
      f.(counts := f.counts[|f.counts| - 1 := f.counts[|f.counts| - 1] + n])
  }

  /** The state `Rate(t)` leaves behind: forwarded to `t`, unless `t` is in the past. */
  function Advance(s: RateState, t: int, cfg: RateConfig): (s': RateState)
    requires cfg.Valid() && Inv(s, cfg)
    ensures Inv(s', cfg)
  {
    if t < s.lastUpdate then s else ForwardSpec(s, t, cfg)
  }

  function Sum(c: seq<int>): real
  {
    if c == [] then 0.0 else Sum(c[..|c| - 1]) + c[|c| - 1] as real
  }

  /** The share of the oldest bucket still inside a full window. */
  function OldestFraction(s: RateState, cfg: RateConfig): (w: real)
    requires cfg.Valid()
    ensures 0.0 < w <= 1.0
  {
    var o, d := Offset(s.lastUpdate, cfg.bucketLength) as real, cfg.bucketLength as real;
    DivBelowOne(o, d);
    1.0 - o / d
  }

  /** `count()`: the plain sum during warm-up, else the oldest bucket weighted by its share. */
  function Count(s: RateState, cfg: RateConfig): (c: real)
    requires cfg.Valid()
    ensures NonNegative(s.counts) ==> 0.0 <= c
  {
    if |s.counts| <= cfg.bucketNum then
      SumNonNegativeWhen(s.counts);
      Sum(s.counts)
    else
      SumNonNegativeWhen(s.counts[1..]);
      WeightNonNegative(OldestFraction(s, cfg), s.counts[0]);
      OldestFraction(s, cfg) * s.counts[0] as real + Sum(s.counts[1..])
  }

  /** `second()`: the observed duration during warm-up, else the nominal window, in seconds. */
  function Seconds(s: RateState, cfg: RateConfig): (secs: real)
    requires cfg.Valid()
    ensures 0.0 <= secs
  {
    if |s.counts| == 0 then 0.0
    else if |s.counts| <= cfg.bucketNum then
      var x := (|s.counts| - 1) * cfg.bucketLength + Offset(s.lastUpdate, cfg.bucketLength);
      MulMonotone(0, |s.counts| - 1, cfg.bucketLength);
      SecondsBetween(x, x);
      x as real / Second as real
    else
      MulMonotone(0, cfg.bucketNum, cfg.bucketLength);
      SecondsBetween(cfg.bucketNum * cfg.bucketLength, cfg.bucketNum * cfg.bucketLength);
      (cfg.bucketNum * cfg.bucketLength) as real / Second as real
  }

  /** `Rate(t)`: NaN before the last update, else count over seconds of the forwarded window. */
  function RateAt(s: RateState, t: int, cfg: RateConfig): (r: Float)
    requires cfg.Valid() && Inv(s, cfg)
    ensures t < s.lastUpdate ==> r.NaN?
    ensures t >= s.lastUpdate ==> (r.Finite? <==> Seconds(ForwardSpec(s, t, cfg), cfg) != 0.0)
  {
    if t < s.lastUpdate then NaN
    else
      var f := ForwardSpec(s, t, cfg);
      Div(Finite(Count(f, cfg)), Finite(Seconds(f, cfg)))
  }

  // ---------------------------------------------------------------- lemmas

  /**
   * `shift(n)` keeps an in-order suffix of the old buckets followed by the appended zero
   * buckets, never holds more than BucketNum+1 buckets, and restarts the clock at the start
   * of the old bucket moved forward by the appended buckets.
   */
  lemma ShiftShape(s: RateState, n: int, cfg: RateConfig)
    requires cfg.Valid() && n >= 0
    ensures var m := ShiftAmount(n, cfg);
            var k := if |s.counts| + m > cfg.bucketNum + 1 then |s.counts| + m - (cfg.bucketNum + 1) else 0;
            && k <= |s.counts|
            && ShiftSpec(s, n, cfg).counts == s.counts[k..] + Zeros(m)
            && |ShiftSpec(s, n, cfg).counts| <= cfg.bucketNum + 1
            && |ShiftSpec(s, n, cfg).counts| >= m
            && ShiftSpec(s, n, cfg).lastUpdate == RoundDown(s.lastUpdate, cfg.bucketLength) + m * cfg.bucketLength
  {
    var m := ShiftAmount(n, cfg);
    var c := s.counts + Zeros(m);
    var k := if |s.counts| + m > cfg.bucketNum + 1 then |s.counts| + m - (cfg.bucketNum + 1) else 0;
    if k > 0 {
      assert c[k..] == s.counts[k..] + Zeros(m);
    } else {
      assert s.counts[0..] == s.counts;
    }
  }

  /** A gap of BucketNum+1 buckets or more leaves only zero buckets behind. */
  lemma {:induction false} ShiftHugeGapResets(s: RateState, n: int, cfg: RateConfig)
    requires cfg.Valid() && n >= cfg.bucketNum + 1
    ensures ShiftSpec(s, n, cfg).counts == Zeros(cfg.bucketNum + 1)
  {
    ShiftShape(s, n, cfg);
    var k := |s.counts|;
    assert s.counts[k..] == [];
  }

  /**
   * When `forward` shifts, the number of whole buckets between the two bucket starts is at
   * least one, so the assertion panic in `forward` cannot fire.
   */
  lemma ForwardShiftsAtLeastOne(lastUpdate: int, t: int, cfg: RateConfig)
    requires cfg.Valid() && RoundDown(t, cfg.bucketLength) > lastUpdate
    ensures (RoundDown(t, cfg.bucketLength) - RoundDown(lastUpdate, cfg.bucketLength)) / cfg.bucketLength >= 1
  {
    var d := cfg.bucketLength;
    var rt, rl := RoundDown(t, d), RoundDown(lastUpdate, d);
    var k := rt / d - rl / d;
    assert rt - rl == k * d;
    UniqueDivision(rt - rl, d, k, 0);
    PositiveFactor(k, d);
  }

  lemma MulMonotone(a: int, b: int, d: int)
    requires a <= b && d > 0
    ensures a * d <= b * d
  {
    assert b * d - a * d == (b - a) * d;
  }

  lemma PositiveFactor(k: int, d: int)
    requires d > 0
    ensures k * d > 0 ==> k > 0
  {
    if k <= 0 {
      MulMonotone(k, 0, d);
    }
  }

  /** `forward` does not shift while `t` is still in a bucket that starts no later than the last update. */
  lemma ForwardWithoutShift(s: RateState, t: int, cfg: RateConfig)
    requires cfg.Valid() && Inv(s, cfg)
    requires s.lastUpdate != 0 && RoundDown(t, cfg.bucketLength) <= s.lastUpdate
    ensures ForwardSpec(s, t, cfg) == RateState(s.counts, t)
  {
  }

  /**
   * `Add(t, n)` before the last update changes nothing; otherwise it changes only the newest
   * bucket of the forwarded window, by exactly `n`, so the total grows by `n`.
   */
  lemma AddBumpsNewest(s: RateState, t: int, n: int, cfg: RateConfig)
    requires cfg.Valid() && Inv(s, cfg)
    ensures t < s.lastUpdate ==> AddSpec(s, t, n, cfg) == s
    ensures t >= s.lastUpdate ==>
              var f, a := ForwardSpec(s, t, cfg), AddSpec(s, t, n, cfg);
              && a.lastUpdate == t
              && |a.counts| == |f.counts|
              && a.counts[..|a.counts| - 1] == f.counts[..|f.counts| - 1]
              && a.counts[|a.counts| - 1] == f.counts[|f.counts| - 1] + n
              && Sum(a.counts) == Sum(f.counts) + n as real
  {
    if t >= s.lastUpdate {
      var f, a := ForwardSpec(s, t, cfg), AddSpec(s, t, n, cfg);
      assert a.counts[..|a.counts| - 1] == f.counts[..|f.counts| - 1];
    }
  }

  /** The oldest bucket of a full window counts with a weight in (0, 1]. */
  lemma DivBelowOne(o: real, d: real)
    requires 0.0 <= o < d
    ensures 0.0 <= o / d < 1.0
  {
  }

  lemma {:induction false} SumNonNegative(c: seq<int>)
    requires NonNegative(c)
    ensures Sum(c) >= 0.0
  {
    if c != [] {
      SumNonNegative(c[..|c| - 1]);
    }
  }

  lemma {:induction false} SumFront(c: seq<int>)
    requires c != []
    ensures Sum(c) == c[0] as real + Sum(c[1..])
  {
    if |c| > 1 {
      SumFront(c[..|c| - 1]);
      assert c[..|c| - 1][1..] == c[1..][..|c[1..]| - 1];
    }
  }

  /**
   * With non-negative buckets, the weighted count lies between the total without the
   * oldest bucket and the plain total: the oldest bucket is never over-counted.
   */
  lemma CountBetween(s: RateState, cfg: RateConfig)
    requires cfg.Valid() && s.counts != [] && NonNegative(s.counts)
    ensures Sum(s.counts[1..]) <= Count(s, cfg) <= Sum(s.counts)
  {
    var rest := Sum(s.counts[1..]);
    SumFront(s.counts);
    assert NonNegative(s.counts[1..]);
    SumNonNegative(s.counts[1..]);
    var c0 := s.counts[0] as real;
    assert 0.0 <= c0 && Sum(s.counts) == c0 + rest;
    if |s.counts| > cfg.bucketNum {
      var w := OldestFraction(s, cfg);
      assert Count(s, cfg) == w * c0 + rest;
      WeightBelow(w, c0);
    } else {
      assert Count(s, cfg) == Sum(s.counts);
    }
  }

  /** Every bucket holds a non-negative count. */
  predicate NonNegative(c: seq<int>)
  {
    forall k :: 0 <= k < |c| ==> c[k] >= 0
  }

  lemma SumNonNegativeWhen(c: seq<int>)
    ensures NonNegative(c) ==> Sum(c) >= 0.0
  {
    if NonNegative(c) {
      SumNonNegative(c);
    }
  }

  lemma WeightNonNegative(w: real, x: int)
    requires 0.0 < w
    ensures x >= 0 ==> 0.0 <= w * x as real
  {
  }

  lemma WeightBelow(w: real, c: real)
    requires 0.0 < w <= 1.0 && c >= 0.0
    ensures 0.0 <= w * c <= c
  {
  }

  /** The divisor never exceeds the nominal window of BucketNum buckets. */
  lemma SecondsAtMostWindow(s: RateState, cfg: RateConfig)
    requires cfg.Valid() && Inv(s, cfg)
    ensures 0.0 <= Seconds(s, cfg) <= (cfg.bucketNum * cfg.bucketLength) as real / Second as real
  {
    var n, d := |s.counts|, cfg.bucketLength;
    var w := cfg.bucketNum * d;
    MulMonotone(0, cfg.bucketNum, d);
    if 0 < n <= cfg.bucketNum {
      var o := Offset(s.lastUpdate, d);
      var x := (n - 1) * d + o;
      assert 0 <= x <= w by {
        MulMonotone(0, n - 1, d);
        assert x < n * d;
        MulMonotone(n, cfg.bucketNum, d);
      }
      SecondsBetween(x, w);
    } else {
      SecondsBetween(0, w);
      SecondsBetween(w, w);
    }
  }

  lemma SecondsBetween(x: int, y: int)
    requires 0 <= x <= y
    ensures 0.0 <= x as real / Second as real <= y as real / Second as real
  {
  }

  // ---------------------------------------------------------------- test vectors

  /** The configuration of the estimator test: one-second buckets, a ten-second window. */
  const TestConfig := RateConfig(Second, 10)

  /** Five events in one bucket, 0.2 s into it: count 5, 0.2 s, rate 25 per second. */
  lemma SingleBucketVector(lastUpdate: int)
    requires lastUpdate > 0 && lastUpdate % Second == 200 * Millisecond
    ensures var s := RateState([5], lastUpdate);
            && Count(s, TestConfig) == 5.0
            && Seconds(s, TestConfig) == 0.2
            && RateAt(s, lastUpdate, TestConfig) == Finite(25.0)
  {
    var s := RateState([5], lastUpdate);
    assert Offset(lastUpdate, Second) == 200 * Millisecond;
    assert Sum([5]) == 5.0 by { assert [5][..0] == []; }
    ForwardWithoutShift(s, lastUpdate, TestConfig);
  }

  /** Eleven buckets in a ten-bucket window, 0.2 s into the newest: 5*0.8 + 9*5 + 1 events over 10 s. */
  lemma FullWindowVector(lastUpdate: int)
    requires lastUpdate > 0 && lastUpdate % Second == 200 * Millisecond
    ensures var s := RateState([5, 5, 5, 5, 5, 5, 5, 5, 5, 5, 1], lastUpdate);
            && Count(s, TestConfig) == 5.0 * 0.8 + 9.0 * 5.0 + 1.0
            && Seconds(s, TestConfig) == 10.0
            && RateAt(s, lastUpdate, TestConfig) == Finite(5.0)
  {
    var s := RateState([5, 5, 5, 5, 5, 5, 5, 5, 5, 5, 1], lastUpdate);
    assert Offset(lastUpdate, Second) == 200 * Millisecond;
    SumOfTenBuckets([5, 5, 5, 5, 5, 5, 5, 5, 5, 1]);
    assert s.counts[1..] == [5, 5, 5, 5, 5, 5, 5, 5, 5, 1];
    ForwardWithoutShift(s, lastUpdate, TestConfig);
  }

  lemma SumOfTenBuckets(c: seq<int>)
    requires c == [5, 5, 5, 5, 5, 5, 5, 5, 5, 1]
    ensures Sum(c) == 46.0
  {
    assert c == seq(9, _ => 5) + [1];
    SumSnoc(seq(9, _ => 5), 1);
    SumOfFives(9);
  }

  lemma SumSnoc(c: seq<int>, x: int)
    ensures Sum(c + [x]) == Sum(c) + x as real
  {
    assert (c + [x])[..|c|] == c;
  }

  lemma {:induction false} SumOfFives(k: nat)
    ensures Sum(seq(k, _ => 5)) == 5.0 * k as real
  {
    if k > 0 {
      SumOfFives(k - 1);
      assert seq(k, _ => 5) == seq(k - 1, _ => 5) + [5];
      SumSnoc(seq(k - 1, _ => 5), 5);
    }
  }

  /**
   * Five events in one second and three in the next, added one at a time through `Add`
   * from a fresh estimator: two buckets, count 8 over 1.2 s, a rate of 8 / 1.2 per second.
   */
  lemma TwoBucketAddVector(t: int)
    requires t > 0 && t % Second == 200 * Millisecond
    ensures var s := AddSeq(AddSeq(Empty, t, 5, TestConfig), t + Second, 3, TestConfig);
            && s == RateState([5, 3], t + Second)
            && Count(s, TestConfig) == 8.0
            && Seconds(s, TestConfig) == 1.2
            && RateAt(s, t + Second, TestConfig) == Finite(8.0 / 1.2)
  {
    FirstSecondAdds(t);
    NextSecondAdds(t);
    assert Offset(t + Second, Second) == 200 * Millisecond;
    assert Sum([5, 3]) == 8.0 by { SumSnoc([5], 3); SumSnoc([], 5); }
    ForwardWithoutShift(RateState([5, 3], t + Second), t + Second, TestConfig);
  }

  /** Five adds into an empty estimator fill one bucket. */
  lemma FirstSecondAdds(t: int)
    requires t > 0
    ensures AddSeq(Empty, t, 5, TestConfig) == RateState([5], t)
  {
    var one := AddSpec(Empty, t, 1, TestConfig);
    assert one == RateState([1], t);
    AddSeqInBucket(one, t, 4, TestConfig);
  }

  /** Three adds one second later open a second bucket and fill it. */
  lemma NextSecondAdds(t: int)
    requires t > 0
    ensures AddSeq(RateState([5], t), t + Second, 3, TestConfig) == RateState([5, 3], t + Second)
  {
    var s1 := RateState([5], t);
    var t2 := t + Second;
    assert RoundDown(t2, Second) == RoundDown(t, Second) + Second;
    ForwardShiftsAtLeastOne(t, t2, TestConfig);
    ShiftShape(s1, 1, TestConfig);
    assert ForwardSpec(s1, t2, TestConfig) == RateState([5, 0], t2);
    var two := AddSpec(s1, t2, 1, TestConfig);
    assert two == RateState([5, 1], t2);
    AddSeqInBucket(two, t2, 2, TestConfig);
  }

  /** `k` calls of `Add(t, 1)`, as the estimator test issues them. */
  function AddSeq(s: RateState, t: int, k: nat, cfg: RateConfig): (s': RateState)
    requires cfg.Valid() && Inv(s, cfg)
    ensures Inv(s', cfg)
    decreases k
  {
    if k == 0 then s else AddSeq(AddSpec(s, t, 1, cfg), t, k - 1, cfg)
  }

  /** Repeated adds at the time of the last update all land in the newest bucket. */
  lemma {:induction false} AddSeqInBucket(s: RateState, t: int, k: nat, cfg: RateConfig)
    requires cfg.Valid() && Inv(s, cfg) && s.counts != [] && s.lastUpdate == t && t != 0
    ensures var last := |s.counts| - 1;
            AddSeq(s, t, k, cfg) == s.(counts := s.counts[last := s.counts[last] + k])
    decreases k
  {
    if k > 0 {
      var last := |s.counts| - 1;
      ForwardWithoutShift(s, t, cfg);
      var s' := s.(counts := s.counts[last := s.counts[last] + 1]);
      assert AddSpec(s, t, 1, cfg) == s';
      AddSeqInBucket(s', t, k - 1, cfg);
    }
  }

  // ---------------------------------------------------------------- the object

  /** `movingRate`: the buckets and the last update are updated in place. */
  class MovingRate {
    const BucketLength: int
    const BucketNum: nat
    var counts: seq<int>
    var lastUpdate: int

    function Config(): RateConfig { RateConfig(BucketLength, BucketNum) }

    function State(): RateState
      reads this
    {
      RateState(counts, lastUpdate)
    }

    ghost predicate Valid()
      reads this
    {
      Config().Valid() && Inv(State(), Config())
    }

    constructor (bucketLength: int, bucketNum: nat)
      requires bucketLength > 0
      ensures Valid() && State() == Empty && Config() == RateConfig(bucketLength, bucketNum)
    {
      BucketLength, BucketNum := bucketLength, bucketNum;
      counts, lastUpdate := [], 0;
    }

    /** `shift(n)` */
    method Shift(n: int)
      requires Valid() && n >= 0
      modifies this
      ensures Valid() && State() == ShiftSpec(old(State()), n, Config())
    {
      ghost var s := State();
      ghost var spec := ShiftSpec(s, n, Config());
      ShiftShape(s, n, Config());
      var m := n;
      if m > BucketNum + 1 {
        m := BucketNum + 1;
      }
      assert m == ShiftAmount(n, Config());
      counts := counts + Zeros(m);
      var del := |counts| - (BucketNum + 1);
      if del > 0 {
        counts := counts[del..];
      }
      assert counts == spec.counts;
      lastUpdate := RoundDown(lastUpdate, BucketLength) + m * BucketLength;
      assert lastUpdate == spec.lastUpdate;
      if counts == [] {
        assert m == 0;
      }
    }

    /** `forward(t)`; the deferred assignment of `t` to the last update runs on every path. */
    method Forward(t: int)
      requires Valid()
      modifies this
      ensures Valid() && State() == ForwardSpec(old(State()), t, Config())
    {
      if lastUpdate == 0 {
        counts := [0];
      } else {
        var rt := RoundDown(t, BucketLength);
        if rt > lastUpdate {
          var n := (rt - RoundDown(lastUpdate, BucketLength)) / BucketLength;
          ForwardShiftsAtLeastOne(lastUpdate, t, Config());
          if n <= 0 {
            // the source panics here ("assertion failure"); the lemma shows it cannot happen
            assert false;
          }
          Shift(n);
        }
      }
      lastUpdate := t;
    }

    /** `Add(t, n)` */
    method Add(t: int, n: int)
      requires Valid()
      modifies this
      ensures Valid() && State() == AddSpec(old(State()), t, n, Config())
    {
      if t < lastUpdate {
        return;
      }
      Forward(t);
      counts := counts[|counts| - 1 := counts[|counts| - 1] + n];
    }

    /** `Rate(t)` */
    method Rate(t: int) returns (r: Float)
      requires Valid()
      modifies this
      ensures Valid()
      ensures State() == Advance(old(State()), t, Config())
      ensures r == RateAt(old(State()), t, Config())
      ensures t < old(lastUpdate) ==> r == NaN && State() == old(State())
    {
      if t < lastUpdate {
        return NaN;
      }
      Forward(t);
      r := Div(Finite(Count(State(), Config())), Finite(Seconds(State(), Config())));
    }
  }

  /** `newMovingRate()` */
  method NewMovingRate() returns (mr: MovingRate)
    ensures fresh(mr) && mr.Valid() && mr.State() == Empty && mr.Config() == DefaultConfig
  {
    mr := new MovingRate(Second, 60);
  }
}
