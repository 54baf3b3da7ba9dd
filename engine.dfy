/**
 * The retry loop `do` of retry.go and its entry point `Do`.
 *
 * What the outside world does during attempt `i` is `env[i]`: the clock reading the budget
 * sees, whether the per-attempt timeout fired before the callback returned, whether the
 * caller's context was cancelled while the callback ran or while the loop waited, and the
 * random sample the jitter draws. The callback is a function of the context it receives, so
 * it can tell attempts apart through `Attempt(ctx)`. `Loop` is the specification; `DoLoop`
 * is the loop itself, updating the budget object in place.
 */
module Engine {
  import opened Wrappers
  import opened Errors
  import opened Backoff
  import opened Jitters
  import opened Budgets
  import opened RetryOptions

  /** What happens around attempt `i`. */
  datatype AttemptEnv = AttemptEnv(
    now: int,
    timedOut: bool,
    cancelledDuringCall: bool,
    sample: real,
    cancelledDuringWait: bool)

  /** How `do` ends: with the error it returns, or still running when `env` runs out. */
  datatype Outcome = Returned(err: Option<Error>) | Unfinished

  /** An outcome, the number of callback invocations, the delays waited, and the budget after. */
  datatype Run = Run(outcome: Outcome, calls: nat, waits: seq<int>, budget: Option<BudgetModel>)

  datatype WaitResult = Elapsed | Cancelled | Panicked

  /**
   * The wait as written: `time.NewTicker(delay)` panics on a delay that is not positive;
   * otherwise the wait ends by the tick or by the context, whichever comes first.
   */
  function TickerWait(d: int, cancelled: bool): (w: WaitResult)
    ensures w == Panicked <==> d <= 0
    ensures d > 0 ==> (w == Cancelled <==> cancelled)
  {
    if d <= 0 then Panicked else if cancelled then Cancelled else Elapsed
  }

  /** The wait as intended: a delay that is not positive ends at once, and nothing panics. */
  function Wait(d: int, cancelled: bool): (w: WaitResult)
    ensures w != Panicked
    ensures d > 0 ==> w == TickerWait(d, cancelled)
    ensures w == Cancelled <==> cancelled
  {
    if cancelled then Cancelled else Elapsed
  }

  /**
   * The result an attempt delivers: with a per-attempt timeout that fires, `callWithTimeout`
   * returns `context.DeadlineExceeded`; otherwise the callback's own result (`None` is nil).
   */
  function CallResult(opts: Options, cb: Context -> Option<Error>, ctx: Context, timedOut: bool): (r: Option<Error>)
    ensures opts.timeout == 0 ==> r == cb(ctx)
    ensures opts.timeout != 0 && timedOut ==> r == Some(DeadlineExceeded)
    ensures !timedOut ==> r == cb(ctx)
  {
    if opts.timeout != 0 && timedOut then Some(DeadlineExceeded) else cb(ctx)
  }

  /** Whether the loop condition `Attempts(i) < opts.Attempts || opts.Attempts == 0` holds. */
  predicate Continues(opts: Options, i: int)
    ensures opts.attempts == 0 ==> Continues(opts, i)
    ensures opts.attempts < 0 && i >= 0 ==> !Continues(opts, i)
    ensures opts.attempts > 0 ==> (Continues(opts, i) <==> i < opts.attempts)
  {
    i < opts.attempts || opts.attempts == 0
  }

  /**
   * The delay waited after failed attempt `i`: the backoff delay, then jittered. Without
   * jitter it is the backoff delay itself; with a sample `rand.Float64()` can draw it never
   * exceeds `Max` nor goes below 0.
   */
  function DelayAfter(opts: Options, i: nat, sample: real): (r: int)
    ensures opts.jitter < 0.0 ==> r == Delay(opts.backoff, i)
    ensures Sample(sample) && 0 <= opts.backoff.base <= opts.backoff.max ==> 0 <= r <= opts.backoff.max
  {
    var d := Delay(opts.backoff, i);
    if Sample(sample) && d >= 0 then
      NeverLonger(opts.jitter, d, sample);
      Jitter(opts.jitter, d, sample)
    else
      Jitter(opts.jitter, d, sample)
  }

  /**
   * One pass of the loop body: the attempt ends `do` (having called the callback or not, and
   * having waited or not), or it failed with a retryable error and the loop waited `delay`.
   */
  datatype Step = Finished(outcome: Outcome, called: bool, waited: seq<int>) | Retry(err: Error, delay: int)

  /** The body of the loop for attempt `i`, with the budget state before and after. */
  function AttemptSpec(opts: Options, budget: Option<BudgetModel>, ctx: Context, ctxErr: Error,
                       cb: Context -> Option<Error>, e: AttemptEnv, i: nat): (r: (Step, Option<BudgetModel>))
    requires budget.Some? ==> budget.value.Valid()
    ensures r.1.Some? ==> r.1.value.Valid()
    ensures i == 0 ==> r.0 != Finished(Returned(Some(BudgetExhausted)), false, [])
    ensures r.0.Retry? ==> !StopsRetrying(r.0.err)
  {
    var (ok, budget') := Consult(budget, i != 0, e.now);
    if !ok then (Finished(Returned(Some(BudgetExhausted)), false, []), budget')
    else if e.cancelledDuringCall then (Finished(Returned(Some(ctxErr)), true, []), budget')
    else
      var res := CallResult(opts, cb, WithAttempt(ctx, i), e.timedOut);
      if res.None? then (Finished(Returned(None), true, []), budget')
      else if StopsRetrying(res.value) then (Finished(Returned(Some(Surfaced(res.value))), true, []), budget')
      else
        var d := DelayAfter(opts, i, e.sample);
        if Wait(d, e.cancelledDuringWait) == Cancelled then
          (Finished(Returned(Some(ctxErr)), true, [d]), budget')
        else
          (Retry(res.value, d), budget')
  }

  /**
   * `do` from attempt `i` on, with `err` the error of the previous attempt and `waits` the
   * delays waited so far.
   */
  function Loop(opts: Options, budget: Option<BudgetModel>, ctx: Context, ctxErr: Error,
                cb: Context -> Option<Error>, env: seq<AttemptEnv>,
                i: nat, err: Option<Error>, waits: seq<int>): (r: Run)
    requires budget.Some? ==> budget.value.Valid()
    requires i <= |env|
    ensures i <= r.calls <= |env|
    ensures r.budget.Some? ==> r.budget.value.Valid()
    decreases |env| - i
  {
    if !Continues(opts, i) then Run(Returned(err), i, waits, budget)
    else if i == |env| then Run(Unfinished, i, waits, budget)
    else
      var (step, budget') := AttemptSpec(opts, budget, ctx, ctxErr, cb, env[i], i);
      match step
      case Finished(outcome, called, waited) =>
        Run(outcome, if called then i + 1 else i, waits + waited, budget')
      case Retry(e, d) =>
        Loop(opts, budget', ctx, ctxErr, cb, env, i + 1, Some(e), waits + [d])
  }

  /** One turn of `Loop`: the attempt's step decides between ending and going on. */
  lemma LoopStep(opts: Options, budget: Option<BudgetModel>, ctx: Context, ctxErr: Error,
                 cb: Context -> Option<Error>, env: seq<AttemptEnv>,
                 i: nat, err: Option<Error>, waits: seq<int>, step: Step, after: Option<BudgetModel>)
    requires budget.Some? ==> budget.value.Valid()
    requires i < |env| && Continues(opts, i)
    requires (step, after) == AttemptSpec(opts, budget, ctx, ctxErr, cb, env[i], i)
    ensures after.Some? ==> after.value.Valid()
    ensures step.Finished? ==>
              Loop(opts, budget, ctx, ctxErr, cb, env, i, err, waits) ==
              Run(step.outcome, if step.called then i + 1 else i, waits + step.waited, after)
    ensures step.Retry? ==>
              Loop(opts, budget, ctx, ctxErr, cb, env, i, err, waits) ==
              Loop(opts, after, ctx, ctxErr, cb, env, i + 1, Some(step.err), waits + [step.delay])
  {
  }

  /** `do(ctx, cb, opts)`, with `budget` the state of `opts.budget`. */
  function DoSpec(opts: Options, budget: Option<BudgetModel>, ctx: Context, ctxErr: Error,
                  cb: Context -> Option<Error>, env: seq<AttemptEnv>): (r: Run)
    requires budget.Some? ==> budget.value.Valid()
    ensures r.calls <= |env|
  {
    Loop(opts, budget, ctx, ctxErr, cb, env, 0, None, [])
  }

  // ---------------------------------------------------------------- the loop

  /** The body of the loop for attempt `i`: consults the budget, calls, classifies and waits. */
  method TryAttempt(opts: Options, ctx: Context, ctxErr: Error, cb: Context -> Option<Error>, e: AttemptEnv, i: nat)
    returns (step: Step)
    requires opts.budget != null ==> opts.budget.Valid()
    modifies if opts.budget != null then opts.budget.Repr else {}
    ensures opts.budget != null ==> opts.budget.Valid() && fresh(opts.budget.Repr - old(opts.budget.Repr))
    ensures (step, ModelOf(opts.budget)) == AttemptSpec(opts, old(ModelOf(opts.budget)), ctx, ctxErr, cb, e, i)
  {
    var ok := Admits(opts.budget, i != 0, e.now);
    if !ok {
      return Finished(Returned(Some(BudgetExhausted)), false, []);
    }
    if e.cancelledDuringCall {
      return Finished(Returned(Some(ctxErr)), true, []);
    }
    var err := CallResult(opts, cb, WithAttempt(ctx, i), e.timedOut);
    if err.None? {
      return Finished(Returned(None), true, []);
    }
    if StopsRetrying(err.value) {
      return Finished(Returned(Some(Surfaced(err.value))), true, []);
    }
    var delay := Delay(opts.backoff, i);
    delay := Jitter(opts.jitter, delay, e.sample);
    if Wait(delay, e.cancelledDuringWait) == Cancelled {
      return Finished(Returned(Some(ctxErr)), true, [delay]);
    }
    step := Retry(err.value, delay);
  }

  /** `do(ctx, cb, opts)`: runs attempts until one ends the loop or the attempts run out. */
  method DoLoop(opts: Options, ctx: Context, ctxErr: Error, cb: Context -> Option<Error>, env: seq<AttemptEnv>)
    returns (outcome: Outcome, ghost calls: nat, ghost waits: seq<int>)
    requires opts.budget != null ==> opts.budget.Valid()
    modifies if opts.budget != null then opts.budget.Repr else {}
    ensures opts.budget != null ==> opts.budget.Valid() && fresh(opts.budget.Repr - old(opts.budget.Repr))
    ensures Run(outcome, calls, waits, ModelOf(opts.budget)) ==
            DoSpec(opts, old(ModelOf(opts.budget)), ctx, ctxErr, cb, env)
  {
    var err: Option<Error> := None;
    var i: nat := 0;
    waits := [];
    while Continues(opts, i) && i < |env|
      invariant i <= |env|
      invariant opts.budget != null ==> opts.budget.Valid() && fresh(opts.budget.Repr - old(opts.budget.Repr))
      invariant DoSpec(opts, old(ModelOf(opts.budget)), ctx, ctxErr, cb, env) ==
                Loop(opts, ModelOf(opts.budget), ctx, ctxErr, cb, env, i, err, waits)
      decreases |env| - i
    {
      ghost var before := ModelOf(opts.budget);
      var step := TryAttempt(opts, ctx, ctxErr, cb, env[i], i);
      LoopStep(opts, before, ctx, ctxErr, cb, env, i, err, waits, step, ModelOf(opts.budget));
      match step
      case Finished(o, called, waited) =>
        return o, if called then i + 1 else i, waits + waited;
      case Retry(e, delay) =>
        err := Some(e);
        waits := waits + [delay];
        i := i + 1;
    }
    outcome := if Continues(opts, i) then Unfinished else Returned(err);
    calls := i;
  }

  /** `Do(ctx, cb, opts...)`: applies the options over the defaults, then runs `do`. */
  method Do(ctx: Context, ctxErr: Error, cb: Context -> Option<Error>, os: seq<DoOption>, env: seq<AttemptEnv>)
    returns (outcome: Outcome, ghost calls: nat, ghost waits: seq<int>)
    requires var o := ApplyAll(Defaults, os); o.budget != null ==> o.budget.Valid()
    modifies var o := ApplyAll(Defaults, os); if o.budget != null then o.budget.Repr else {}
    ensures var o := ApplyAll(Defaults, os);
            && (o.budget != null ==> o.budget.Valid() && fresh(o.budget.Repr - old(o.budget.Repr)))
            && Run(outcome, calls, waits, ModelOf(o.budget)) ==
               DoSpec(o, old(ModelOf(o.budget)), ctx, ctxErr, cb, env)
  {
    var opts := ApplyAll(Defaults, os);
    outcome, calls, waits := DoLoop(opts, ctx, ctxErr, cb, env);
  }
}
