/**
 * The client-side retry budget of budget.go: two moving-rate estimators, one for initial
 * calls and one for retries, and the admission rule `check`. The mutex of the source is not
 * modelled: a `Budget` is used by one caller at a time here.
 */
module Budgets {
  import opened Floats
  import opened MovingRates
  import opened Wrappers

  /** The two estimators; an estimator the source has not yet allocated is `Empty`. */
  datatype BudgetState = BudgetState(initial: RateState, retried: RateState)

  /** A budget's thresholds and estimator state. */
  datatype BudgetModel = BudgetModel(rate: real, ratio: real, state: BudgetState)
  {
    predicate Valid()
    {
      Inv(state.initial, DefaultConfig) && Inv(state.retried, DefaultConfig)
    }
  }

  datatype Decision = Decision(ok: bool, after: BudgetModel)

  /** Whether a retry is refused, given the two rates: `initialRate > Rate && retriedRate/initialRate > Ratio`. */
  predicate Refuses(initialRate: Float, retriedRate: Float, rate: real, ratio: real)
    ensures initialRate.NaN? || retriedRate.NaN? ==> !Refuses(initialRate, retriedRate, rate, ratio)
  {
    Greater(initialRate, rate) && Greater(Div(retriedRate, initialRate), ratio)
  }

  /**
   * `check(isRetry)` on a non-nil budget: an initial call is always admitted and counted
   * among the initial calls; a retry reads both rates, is refused by `Refuses`, and is
   * counted among the retries only when admitted.
   */
  function CheckSpec(m: BudgetModel, isRetry: bool, now: int): (d: Decision)
    requires m.Valid()
    ensures d.after.Valid() && d.after.rate == m.rate && d.after.ratio == m.ratio
    ensures !isRetry ==> d.ok && d.after.state.retried == m.state.retried
  {
    var s := m.state;
    if !isRetry then
      Decision(true, m.(state := s.(initial := AddSpec(s.initial, now, 1, DefaultConfig))))
    else
      var initialRate := RateAt(s.initial, now, DefaultConfig);
      var retriedRate := RateAt(s.retried, now, DefaultConfig);
      var initial := Advance(s.initial, now, DefaultConfig);
      var retried := Advance(s.retried, now, DefaultConfig);
      if Refuses(initialRate, retriedRate, m.rate, m.ratio) then
        Decision(false, m.(state := BudgetState(initial, retried)))
      else
        Decision(true, m.(state := BudgetState(initial, AddSpec(retried, now, 1, DefaultConfig))))
  }

  /** `check` including its nil receiver: a nil budget admits everything and has no state. */
  function Consult(b: Option<BudgetModel>, isRetry: bool, now: int): (r: (bool, Option<BudgetModel>))
    requires b.Some? ==> b.value.Valid()
    ensures b.None? ==> r == (true, None)
    ensures b.Some? ==> r.1.Some? && r.1.value.Valid()
    ensures !isRetry ==> r.0
  {
    match b
    case None => (true, None)
    case Some(m) =>
      var d := CheckSpec(m, isRetry, now);
      (d.ok, Some(d.after))
  }

  // ---------------------------------------------------------------- lemmas

  /**
   * An initial call is admitted, adds exactly one event to the newest bucket of the initial
   * calls (when its time is not before their last update) and leaves the retries untouched.
   */
  lemma InitialCallCounted(m: BudgetModel, now: int)
    requires m.Valid() && now >= m.state.initial.lastUpdate
    ensures var d := CheckSpec(m, false, now);
            var f := ForwardSpec(m.state.initial, now, DefaultConfig);
            var c := d.after.state.initial.counts;
            && d.ok
            && d.after.state.retried == m.state.retried
            && |c| == |f.counts|
            && c[|c| - 1] == f.counts[|f.counts| - 1] + 1
            && c[..|c| - 1] == f.counts[..|f.counts| - 1]
  {
    AddBumpsNewest(m.state.initial, now, 1, DefaultConfig);
  }

  /**
   * A retry is refused exactly when the initial rate exceeds `Rate` and the ratio of the
   * retry rate to the initial rate exceeds `Ratio`. A refused retry adds no event to the
   * retry estimator; an admitted one adds exactly one.
   */
  lemma RetryAdmission(m: BudgetModel, now: int)
    requires m.Valid()
    ensures var d := CheckSpec(m, true, now);
            var ir := RateAt(m.state.initial, now, DefaultConfig);
            var rr := RateAt(m.state.retried, now, DefaultConfig);
            var r := Advance(m.state.retried, now, DefaultConfig);
            && (!d.ok <==> Greater(ir, m.rate) && Greater(Div(rr, ir), m.ratio))
            && (!d.ok ==> d.after.state.retried == r)
            && (d.ok && now > 0 && now >= m.state.retried.lastUpdate ==>
                  Sum(d.after.state.retried.counts) == Sum(r.counts) + 1.0)
            && d.after.state.initial == Advance(m.state.initial, now, DefaultConfig)
  {
    var r := Advance(m.state.retried, now, DefaultConfig);
    if now > 0 && now >= m.state.retried.lastUpdate {
      AddBumpsNewest(r, now, 1, DefaultConfig);
      ForwardWithoutShift(r, now, DefaultConfig);
    }
  }

  /**
   * With finite rates, the refusal rule reads as arithmetic: a retry is refused exactly when
   * the initial rate is above `Rate` and the retry-to-initial ratio is above `Ratio`.
   */
  lemma RefusalOnFiniteRates(initialRate: real, retriedRate: real, rate: real, ratio: real)
    requires rate >= 0.0
    ensures Refuses(Finite(initialRate), Finite(retriedRate), rate, ratio) <==>
              initialRate > rate && retriedRate / initialRate > ratio
  {
  }

  /** While no initial call has been seen, no retry is refused: the initial rate is 0 or NaN. */
  lemma NoInitialCallsNoRefusal(rt: RateState, rate: real, ratio: real, now: int)
    requires Inv(rt, DefaultConfig) && rate >= 0.0
    ensures !Refuses(RateAt(Empty, now, DefaultConfig), RateAt(rt, now, DefaultConfig), rate, ratio)
  {
    var ir := RateAt(Empty, now, DefaultConfig);
    if now >= 0 {
      var f := ForwardSpec(Empty, now, DefaultConfig);
      assert f == RateState([0], now);
      assert Count(f, DefaultConfig) == 0.0 by { assert [0][..0] == []; }
    }
    assert ir == Finite(0.0) || ir.NaN?;
    ZeroRateNeverRefuses(ir, RateAt(rt, now, DefaultConfig), rate, ratio);
  }

  /**
   * The threshold `Rate` applies to the rate of initial calls, not to the rate of retries:
   * with finite rates, a retry is refused exactly when the initial rate exceeds `Rate` and
   * the retry ratio exceeds `Ratio`, whatever the retry rate itself. With 100 initial calls
   * and 5 retries per second, `Rate` 10 and `Ratio` 0.01, a retry is refused although
   * retries run below 10 per second.
   */
  lemma ThresholdOnInitialRate(initial: real, retried: real, rate: real, ratio: real)
    requires initial > 0.0
    ensures Refuses(Finite(initial), Finite(retried), rate, ratio) <==> initial > rate && retried / initial > ratio
    ensures Refuses(Finite(100.0), Finite(5.0), 10.0, 0.01)
  {
  }

  lemma ZeroRateNeverRefuses(initialRate: Float, retriedRate: Float, rate: real, ratio: real)
    requires initialRate == Finite(0.0) || initialRate.NaN?
    requires rate >= 0.0
    ensures !Refuses(initialRate, retriedRate, rate, ratio)
  {
  }

  // ---------------------------------------------------------------- the object

  /** `Budget`: thresholds and two lazily allocated estimators, updated in place by `check`. */
  class Budget {
    const Rate: real
    const Ratio: real
    var initialCalls: MovingRate?
    var retriedCalls: MovingRate?
    ghost var Repr: set<object>

    ghost predicate Valid()
      reads this, Repr
    {
      && this in Repr
      && (initialCalls != null ==>
            initialCalls in Repr && initialCalls.Valid() && initialCalls.Config() == DefaultConfig)
      && (retriedCalls != null ==>
            retriedCalls in Repr && retriedCalls.Valid() && retriedCalls.Config() == DefaultConfig)
      && (initialCalls != null && retriedCalls != null ==> initialCalls != retriedCalls)
    }

    ghost function Model(): (m: BudgetModel)
      reads this, Repr
      requires Valid()
      ensures m.Valid()
    {
      BudgetModel(Rate, Ratio, BudgetState(
        if initialCalls == null then Empty else initialCalls.State(),
        if retriedCalls == null then Empty else retriedCalls.State()))
    }

    /** `Budget{Rate: rate, Ratio: ratio}` */
    constructor (rate: real, ratio: real)
      ensures Valid() && fresh(Repr)
      ensures Model() == BudgetModel(rate, ratio, BudgetState(Empty, Empty))
    {
      Rate, Ratio := rate, ratio;
      initialCalls, retriedCalls := null, null;
      Repr := {this};
    }

    /** `check(isRetry)` on a non-nil budget at time `now`. */
    method Check(isRetry: bool, now: int) returns (ok: bool)
      requires Valid()
      modifies Repr
      ensures Valid() && fresh(Repr - old(Repr))
      ensures initialCalls != null && retriedCalls != null
      ensures ok == CheckSpec(old(Model()), isRetry, now).ok
      ensures Model() == CheckSpec(old(Model()), isRetry, now).after
    {
      if retriedCalls == null {
        retriedCalls := NewMovingRate();
        Repr := Repr + {retriedCalls};
      }
      if initialCalls == null {
        initialCalls := NewMovingRate();
        Repr := Repr + {initialCalls};
      }
      assert Model().state == old(Model()).state;

      if !isRetry {
        initialCalls.Add(now, 1);
        return true;
      }

      var initialRate := initialCalls.Rate(now);
      var retriedRate := retriedCalls.Rate(now);
      if Greater(initialRate, Rate) && Greater(Div(retriedRate, initialRate), Ratio) {
        return false;
      }

      retriedCalls.Add(now, 1);
      ok := true;
    }
  }

  /** The abstract state of a possibly nil budget. */
  ghost function ModelOf(b: Budget?): (m: Option<BudgetModel>)
    reads b, if b != null then b.Repr else {}
    requires b != null ==> b.Valid()
    ensures m.Some? ==> m.value.Valid()
  {
    if b == null then None else Some(b.Model())
  }

  /** `b.check(isRetry)` for a possibly nil `b`: the nil budget admits at once. */
  method Admits(b: Budget?, isRetry: bool, now: int) returns (ok: bool)
    requires b != null ==> b.Valid()
    modifies if b != null then b.Repr else {}
    ensures b != null ==> b.Valid() && fresh(b.Repr - old(b.Repr))
    ensures (ok, ModelOf(b)) == Consult(old(ModelOf(b)), isRetry, now)
  {
    if b == null {
      return true;
    }
    ok := b.Check(isRetry, now);
  }
}
