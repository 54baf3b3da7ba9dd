/**
 * What `Do` promises about every run: how many times the callback is called, which delays
 * are waited, which error comes back, and the runs the package's own tests describe.
 */
module EngineProperties {
  import opened Wrappers
  import opened Errors
  import opened Backoff
  import opened Jitters
  import opened Budgets
  import opened RetryOptions
  import opened Engine
  import opened Durations

  /** What attempt `k` delivers to the loop. */
  function Delivered(opts: Options, cb: Context -> Option<Error>, ctx: Context, env: seq<AttemptEnv>, k: nat): Option<Error>
    requires k < |env|
  {
    CallResult(opts, cb, WithAttempt(ctx, k), env[k].timedOut)
  }

  /** `e` is what `do` returns for the delivered result `d`: `d` itself, or its unwrapped cause. */
  predicate Reports(e: Error, d: Option<Error>)
  {
    d == Some(e) || (d.Some? && StopsRetrying(d.value) && Surfaced(d.value) == e)
  }

  /** The error `do` carries into attempt `i`: none before the first, else the last one delivered. */
  predicate CarriedError(opts: Options, cb: Context -> Option<Error>, ctx: Context, env: seq<AttemptEnv>, i: nat, err: Option<Error>)
    requires i <= |env|
  {
    if i == 0 then err == None else err == Delivered(opts, cb, ctx, env, i - 1) && err.Some?
  }

  /** The delays waited before attempt `i`: one per failed attempt, jittered backoff delays. */
  predicate WaitedSoFar(opts: Options, env: seq<AttemptEnv>, i: nat, waits: seq<int>)
    requires i <= |env|
  {
    |waits| == i && forall k :: 0 <= k < i ==> waits[k] == DelayAfter(opts, k, env[k].sample)
  }

  // ---------------------------------------------------------------- the attempt limit

  lemma {:induction false} LoopWithinAttempts(opts: Options, b: Option<BudgetModel>, ctx: Context, ctxErr: Error,
                                              cb: Context -> Option<Error>, env: seq<AttemptEnv>,
                                              i: nat, err: Option<Error>, waits: seq<int>)
    requires b.Some? ==> b.value.Valid()
    requires i <= |env| && 0 < opts.attempts && i <= opts.attempts
    ensures var r := Loop(opts, b, ctx, ctxErr, cb, env, i, err, waits);
            r.calls <= opts.attempts && (opts.attempts <= |env| ==> r.outcome.Returned?)
    decreases |env| - i
  {
    if Continues(opts, i) && i < |env| {
      var (step, b') := AttemptSpec(opts, b, ctx, ctxErr, cb, env[i], i);
      if step.Retry? {
        LoopWithinAttempts(opts, b', ctx, ctxErr, cb, env, i + 1, Some(step.err), waits + [step.delay]);
      }
    }
  }

  /**
   * `Attempts(n)` with `n > 0` calls the callback at most `n` times, and given room for `n`
   * attempts the loop has returned by then.
   */
  lemma AttemptsCap(opts: Options, b: Option<BudgetModel>, ctx: Context, ctxErr: Error,
                    cb: Context -> Option<Error>, env: seq<AttemptEnv>)
    requires b.Some? ==> b.value.Valid()
    requires opts.attempts > 0
    ensures var r := DoSpec(opts, b, ctx, ctxErr, cb, env);
            r.calls <= opts.attempts && (opts.attempts <= |env| ==> r.outcome.Returned?)
  {
    LoopWithinAttempts(opts, b, ctx, ctxErr, cb, env, 0, None, []);
  }

  /**
   * A negative attempt count never enters the loop and returns nil; any other count calls the
   * callback at least once, because the budget never refuses the first attempt.
   */
  lemma FirstAttempt(opts: Options, b: Option<BudgetModel>, ctx: Context, ctxErr: Error,
                     cb: Context -> Option<Error>, env: seq<AttemptEnv>)
    requires b.Some? ==> b.value.Valid()
    ensures opts.attempts < 0 ==> DoSpec(opts, b, ctx, ctxErr, cb, env) == Run(Returned(None), 0, [], b)
    ensures opts.attempts >= 0 && |env| > 0 ==> DoSpec(opts, b, ctx, ctxErr, cb, env).calls >= 1
  {
  }

  /**
   * When attempt 0 is not cancelled and its callback succeeds, `do` returns nil after exactly
   * one call and no wait.
   */
  lemma ImmediateSuccess(opts: Options, b: Option<BudgetModel>, ctx: Context, ctxErr: Error,
                         cb: Context -> Option<Error>, env: seq<AttemptEnv>)
    requires b.Some? ==> b.value.Valid()
    requires opts.attempts >= 0 && |env| > 0 && !env[0].cancelledDuringCall
    requires Delivered(opts, cb, ctx, env, 0) == None
    ensures var r := DoSpec(opts, b, ctx, ctxErr, cb, env);
            r.outcome == Returned(None) && r.calls == 1 && r.waits == []
  {
  }

  lemma {:induction false} LoopZeroAttempts(opts: Options, ctx: Context, ctxErr: Error,
                                            cb: Context -> Option<Error>, env: seq<AttemptEnv>,
                                            i: nat, err: Option<Error>, waits: seq<int>)
    requires opts.attempts == 0 && i <= |env|
    requires AllRetryable(opts, cb, ctx, env, |env|)
    ensures var r := Loop(opts, None, ctx, ctxErr, cb, env, i, err, waits);
            r.outcome == Unfinished && r.calls == |env| && |r.waits| == |waits| + |env| - i
    decreases |env| - i
  {
    if i < |env| {
      RetryStep(opts, ctx, ctxErr, cb, env, i, err, waits);
      LoopZeroAttempts(opts, ctx, ctxErr, cb, env, i + 1, Delivered(opts, cb, ctx, env, i),
                       waits + [DelayAfter(opts, i, env[i].sample)]);
    }
  }

  /**
   * `Attempts(0)` places no bound: without a budget, however many attempts the environment
   * describes, if each of them fails with a retryable error and nothing is cancelled, the
   * loop calls the callback every time, waits after every failure, and is still running.
   */
  lemma ZeroAttemptsUnbounded(opts: Options, ctx: Context, ctxErr: Error,
                              cb: Context -> Option<Error>, env: seq<AttemptEnv>)
    requires opts.attempts == 0
    requires AllRetryable(opts, cb, ctx, env, |env|)
    ensures var r := DoSpec(opts, None, ctx, ctxErr, cb, env);
            r.outcome == Unfinished && r.calls == |env| && |r.waits| == |env|
  {
    LoopZeroAttempts(opts, ctx, ctxErr, cb, env, 0, None, []);
  }

  // ---------------------------------------------------------------- what ends the loop

  /**
   * At whatever attempt the loop has reached, a budget that refuses the attempt ends `do`
   * with "retry budget exhausted", without calling the callback and without waiting.
   */
  lemma RefusalEndsLoop(opts: Options, b: Option<BudgetModel>, ctx: Context, ctxErr: Error,
                        cb: Context -> Option<Error>, env: seq<AttemptEnv>,
                        i: nat, err: Option<Error>, waits: seq<int>)
    requires b.Some? ==> b.value.Valid()
    requires i < |env| && Continues(opts, i)
    requires !Consult(b, i != 0, env[i].now).0
    ensures Loop(opts, b, ctx, ctxErr, cb, env, i, err, waits) ==
            Run(Returned(Some(BudgetExhausted)), i, waits, Consult(b, i != 0, env[i].now).1)
  {
    assert waits + [] == waits;
  }

  /**
   * At whatever attempt the loop has reached, once the budget admits it, a context cancelled
   * while the callback runs ends `do` with the context's error after that call; one cancelled
   * while the loop waits after a retryable failure ends it the same way, after that wait.
   */
  lemma CancelEndsLoop(opts: Options, b: Option<BudgetModel>, ctx: Context, ctxErr: Error,
                       cb: Context -> Option<Error>, env: seq<AttemptEnv>,
                       i: nat, err: Option<Error>, waits: seq<int>)
    requires b.Some? ==> b.value.Valid()
    requires i < |env| && Continues(opts, i)
    requires Consult(b, i != 0, env[i].now).0
    ensures env[i].cancelledDuringCall ==>
              Loop(opts, b, ctx, ctxErr, cb, env, i, err, waits) ==
              Run(Returned(Some(ctxErr)), i + 1, waits, Consult(b, i != 0, env[i].now).1)
    ensures !env[i].cancelledDuringCall && env[i].cancelledDuringWait &&
            Delivered(opts, cb, ctx, env, i).Some? && !StopsRetrying(Delivered(opts, cb, ctx, env, i).value) ==>
              Loop(opts, b, ctx, ctxErr, cb, env, i, err, waits) ==
              Run(Returned(Some(ctxErr)), i + 1, waits + [DelayAfter(opts, i, env[i].sample)], Consult(b, i != 0, env[i].now).1)
  {
    assert waits + [] == waits;
  }

  /**
   * At whatever attempt the loop has reached, once the budget admits it and nothing is
   * cancelled, a call that returns nil ends `do` with nil after `i + 1` calls and no further
   * wait, and a call that fails permanently ends it with the error unwrapped.
   */
  lemma OutcomeEndsLoop(opts: Options, b: Option<BudgetModel>, ctx: Context, ctxErr: Error,
                        cb: Context -> Option<Error>, env: seq<AttemptEnv>,
                        i: nat, err: Option<Error>, waits: seq<int>)
    requires b.Some? ==> b.value.Valid()
    requires i < |env| && Continues(opts, i)
    requires Consult(b, i != 0, env[i].now).0 && !env[i].cancelledDuringCall
    ensures Delivered(opts, cb, ctx, env, i) == None ==>
              Loop(opts, b, ctx, ctxErr, cb, env, i, err, waits) ==
              Run(Returned(None), i + 1, waits, Consult(b, i != 0, env[i].now).1)
    ensures Delivered(opts, cb, ctx, env, i).Some? && StopsRetrying(Delivered(opts, cb, ctx, env, i).value) ==>
              Loop(opts, b, ctx, ctxErr, cb, env, i, err, waits) ==
              Run(Returned(Some(Surfaced(Delivered(opts, cb, ctx, env, i).value))), i + 1, waits,
                  Consult(b, i != 0, env[i].now).1)
  {
    assert waits + [] == waits;
  }

  // ---------------------------------------------------------------- the delays

  /** What one attempt adds to the waits: nothing, or the jittered delay for its own index. */
  lemma StepWaits(opts: Options, b: Option<BudgetModel>, ctx: Context, ctxErr: Error,
                  cb: Context -> Option<Error>, e: AttemptEnv, i: nat)
    requires b.Some? ==> b.value.Valid()
    ensures var step := AttemptSpec(opts, b, ctx, ctxErr, cb, e, i).0;
            && (step.Retry? ==> step.delay == DelayAfter(opts, i, e.sample))
            && (step.Finished? ==> step.waited == [] || (step.called && step.waited == [DelayAfter(opts, i, e.sample)]))
  {
  }

  /** One more wait at the right delay extends the record of the waits. */
  lemma WaitedOneMore(opts: Options, env: seq<AttemptEnv>, i: nat, waits: seq<int>)
    requires i < |env| && WaitedSoFar(opts, env, i, waits)
    ensures WaitedSoFar(opts, env, i + 1, waits + [DelayAfter(opts, i, env[i].sample)])
  {
  }

  lemma {:induction false} LoopWaits(opts: Options, b: Option<BudgetModel>, ctx: Context, ctxErr: Error,
                                     cb: Context -> Option<Error>, env: seq<AttemptEnv>,
                                     i: nat, err: Option<Error>, waits: seq<int>)
    requires b.Some? ==> b.value.Valid()
    requires i <= |env| && WaitedSoFar(opts, env, i, waits)
    ensures var r := Loop(opts, b, ctx, ctxErr, cb, env, i, err, waits);
            |r.waits| <= r.calls && WaitedSoFar(opts, env, |r.waits|, r.waits)
    decreases |env| - i
  {
    if Continues(opts, i) && i < |env| {
      var (step, b') := AttemptSpec(opts, b, ctx, ctxErr, cb, env[i], i);
      StepWaits(opts, b, ctx, ctxErr, cb, env[i], i);
      WaitedOneMore(opts, env, i, waits);
      if step.Retry? {
        LoopWaits(opts, b', ctx, ctxErr, cb, env, i + 1, Some(step.err), waits + [step.delay]);
      } else if step.waited == [] {
        assert waits + step.waited == waits;
      }
    }
  }

  /**
   * The `k`-th wait follows the `k`-th failed attempt and lasts the jittered backoff delay
   * `jitter(delay(k))`; there is at most one wait per call.
   */
  lemma WaitsFollowBackoff(opts: Options, b: Option<BudgetModel>, ctx: Context, ctxErr: Error,
                           cb: Context -> Option<Error>, env: seq<AttemptEnv>)
    requires b.Some? ==> b.value.Valid()
    ensures var r := DoSpec(opts, b, ctx, ctxErr, cb, env);
            && |r.waits| <= r.calls
            && forall k :: 0 <= k < |r.waits| ==> r.waits[k] == Jitter(opts.jitter, Delay(opts.backoff, k), env[k].sample)
  {
    LoopWaits(opts, b, ctx, ctxErr, cb, env, 0, None, []);
  }

  /**
   * With `0 <= Base <= Max` and every sample drawn from `[0, 1)`, no wait is negative or
   * longer than `Max`, whatever the jitter.
   */
  lemma WaitsBounded(opts: Options, b: Option<BudgetModel>, ctx: Context, ctxErr: Error,
                     cb: Context -> Option<Error>, env: seq<AttemptEnv>)
    requires b.Some? ==> b.value.Valid()
    requires 0 <= opts.backoff.base <= opts.backoff.max
    requires forall k :: 0 <= k < |env| ==> Sample(env[k].sample)
    ensures var r := DoSpec(opts, b, ctx, ctxErr, cb, env);
            forall k :: 0 <= k < |r.waits| ==> 0 <= r.waits[k] <= opts.backoff.max
  {
    WaitsFollowBackoff(opts, b, ctx, ctxErr, cb, env);
    var r := DoSpec(opts, b, ctx, ctxErr, cb, env);
    forall k | 0 <= k < |r.waits|
      ensures 0 <= r.waits[k] <= opts.backoff.max
    {
      NeverLonger(opts.jitter, Delay(opts.backoff, k), env[k].sample);
    }
  }

  // ---------------------------------------------------------------- the returned error

  /** What one attempt contributes to the returned error. */
  lemma StepReports(opts: Options, b: Option<BudgetModel>, ctx: Context, ctxErr: Error,
                    cb: Context -> Option<Error>, env: seq<AttemptEnv>, i: nat)
    requires b.Some? ==> b.value.Valid()
    requires i < |env|
    ensures var step := AttemptSpec(opts, b, ctx, ctxErr, cb, env[i], i).0;
            && (step.Retry? ==> Delivered(opts, cb, ctx, env, i) == Some(step.err))
            && (step.Finished? ==> step.outcome.Returned?)
            && (step.Finished? && step.outcome.err.None? ==> step.called && Delivered(opts, cb, ctx, env, i) == None)
            && (step.Finished? && step.outcome.err.Some? ==>
                  var e := step.outcome.err.value;
                  e == ctxErr || e == BudgetExhausted || (step.called && Reports(e, Delivered(opts, cb, ctx, env, i))))
  {
  }

  lemma {:induction false} LoopSuccessReported(opts: Options, b: Option<BudgetModel>, ctx: Context, ctxErr: Error,
                                               cb: Context -> Option<Error>, env: seq<AttemptEnv>,
                                               i: nat, err: Option<Error>, waits: seq<int>)
    requires b.Some? ==> b.value.Valid()
    requires i <= |env| && CarriedError(opts, cb, ctx, env, i, err)
    ensures var r := Loop(opts, b, ctx, ctxErr, cb, env, i, err, waits);
            r.outcome == Returned(None) ==>
              opts.attempts < 0 || (0 < r.calls && Delivered(opts, cb, ctx, env, r.calls - 1) == None)
    decreases |env| - i
  {
    if Continues(opts, i) && i < |env| {
      var (step, b') := AttemptSpec(opts, b, ctx, ctxErr, cb, env[i], i);
      StepReports(opts, b, ctx, ctxErr, cb, env, i);
      if step.Retry? {
        LoopSuccessReported(opts, b', ctx, ctxErr, cb, env, i + 1, Some(step.err), waits + [step.delay]);
      }
    }
  }

  lemma {:induction false} LoopErrorReported(opts: Options, b: Option<BudgetModel>, ctx: Context, ctxErr: Error,
                                             cb: Context -> Option<Error>, env: seq<AttemptEnv>,
                                             i: nat, err: Option<Error>, waits: seq<int>)
    requires b.Some? ==> b.value.Valid()
    requires i <= |env| && CarriedError(opts, cb, ctx, env, i, err)
    ensures var r := Loop(opts, b, ctx, ctxErr, cb, env, i, err, waits);
            r.outcome.Returned? && r.outcome.err.Some? ==>
              var e := r.outcome.err.value;
              || e == ctxErr
              || e == BudgetExhausted
              || exists k :: 0 <= k < r.calls && Reports(e, Delivered(opts, cb, ctx, env, k))
    decreases |env| - i
  {
    if !Continues(opts, i) {
      if i > 0 {
        assert Reports(err.value, Delivered(opts, cb, ctx, env, i - 1));
      }
    } else if i < |env| {
      var (step, b') := AttemptSpec(opts, b, ctx, ctxErr, cb, env[i], i);
      StepReports(opts, b, ctx, ctxErr, cb, env, i);
      if step.Retry? {
        LoopErrorReported(opts, b', ctx, ctxErr, cb, env, i + 1, Some(step.err), waits + [step.delay]);
      } else if step.outcome.err.Some? {
        var e := step.outcome.err.value;
        if e != ctxErr && e != BudgetExhausted {
          assert Reports(e, Delivered(opts, cb, ctx, env, i));
        }
      }
    }
  }

  /**
   * `do` invents no error: it returns nil only when the attempt count is negative or the last
   * call succeeded, and a non-nil error is the context's error, the budget's refusal, or what
   * one of the calls delivered (unwrapped when it was permanent).
   */
  lemma ReturnedErrorProvenance(opts: Options, b: Option<BudgetModel>, ctx: Context, ctxErr: Error,
                                cb: Context -> Option<Error>, env: seq<AttemptEnv>)
    requires b.Some? ==> b.value.Valid()
    ensures var r := DoSpec(opts, b, ctx, ctxErr, cb, env);
            && (r.outcome == Returned(None) ==>
                  opts.attempts < 0 || (0 < r.calls && Delivered(opts, cb, ctx, env, r.calls - 1) == None))
            && (r.outcome.Returned? && r.outcome.err.Some? ==>
                  var e := r.outcome.err.value;
                  || e == ctxErr
                  || e == BudgetExhausted
                  || exists k :: 0 <= k < r.calls && Reports(e, Delivered(opts, cb, ctx, env, k)))
  {
    LoopSuccessReported(opts, b, ctx, ctxErr, cb, env, 0, None, []);
    LoopErrorReported(opts, b, ctx, ctxErr, cb, env, 0, None, []);
  }

  /** Every one of the first `n` attempts runs uncancelled and fails with a retryable error. */
  predicate AllRetryable(opts: Options, cb: Context -> Option<Error>, ctx: Context, env: seq<AttemptEnv>, n: nat)
    requires n <= |env|
  {
    forall k :: 0 <= k < n ==>
      && !env[k].cancelledDuringCall
      && !env[k].cancelledDuringWait
      && Delivered(opts, cb, ctx, env, k).Some?
      && !StopsRetrying(Delivered(opts, cb, ctx, env, k).value)
  }

  /**
   * The budget, threaded through the run, admits every attempt from `i` up to the attempt
   * limit. A run without a budget always qualifies (`NoBudgetAdmits`).
   */
  predicate AdmittedFrom(opts: Options, b: Option<BudgetModel>, env: seq<AttemptEnv>, i: nat)
    requires b.Some? ==> b.value.Valid()
    requires opts.attempts <= |env|
    decreases |env| - i
  {
    || i >= opts.attempts
    || (var (ok, b') := Consult(b, i != 0, env[i].now); ok && AdmittedFrom(opts, b', env, i + 1))
  }

  lemma {:induction false} NoBudgetAdmits(opts: Options, env: seq<AttemptEnv>, i: nat)
    requires opts.attempts <= |env|
    ensures AdmittedFrom(opts, None, env, i)
    decreases |env| - i
  {
    if i < opts.attempts {
      NoBudgetAdmits(opts, env, i + 1);
    }
  }

  lemma {:induction false} LoopExhausts(opts: Options, b: Option<BudgetModel>, ctx: Context, ctxErr: Error,
                                        cb: Context -> Option<Error>, env: seq<AttemptEnv>,
                                        i: nat, err: Option<Error>, waits: seq<int>)
    requires b.Some? ==> b.value.Valid()
    requires 0 < opts.attempts <= |env| && i <= opts.attempts
    requires AllRetryable(opts, cb, ctx, env, opts.attempts)
    requires AdmittedFrom(opts, b, env, i)
    requires CarriedError(opts, cb, ctx, env, i, err)
    ensures var r := Loop(opts, b, ctx, ctxErr, cb, env, i, err, waits);
            && r.outcome == Returned(Delivered(opts, cb, ctx, env, opts.attempts - 1))
            && r.calls == opts.attempts
            && |r.waits| == |waits| + opts.attempts - i
    decreases opts.attempts - i
  {
    if i < opts.attempts {
      var (step, b') := AttemptSpec(opts, b, ctx, ctxErr, cb, env[i], i);
      assert b' == Consult(b, i != 0, env[i].now).1;
      assert step.Retry?;
      LoopExhausts(opts, b', ctx, ctxErr, cb, env, i + 1, Some(step.err), waits + [step.delay]);
    }
  }

  /**
   * When the budget (if any) admits every attempt and all `n = Attempts` attempts fail with
   * retryable errors, the callback is called `n` times, the loop waits after each failure
   * (after the last one too), and `do` returns the error of the last call.
   */
  lemma ExhaustionReturnsLastError(opts: Options, b: Option<BudgetModel>, ctx: Context, ctxErr: Error,
                                   cb: Context -> Option<Error>, env: seq<AttemptEnv>)
    requires b.Some? ==> b.value.Valid()
    requires 0 < opts.attempts <= |env|
    requires AllRetryable(opts, cb, ctx, env, opts.attempts)
    requires AdmittedFrom(opts, b, env, 0)
    ensures var r := DoSpec(opts, b, ctx, ctxErr, cb, env);
            && r.outcome == Returned(Delivered(opts, cb, ctx, env, opts.attempts - 1))
            && r.calls == opts.attempts
            && |r.waits| == opts.attempts
  {
    LoopExhausts(opts, b, ctx, ctxErr, cb, env, 0, None, []);
  }

  // ---------------------------------------------------------------- the package's tests

  /** An environment in which nothing is cancelled and no timeout fires. */
  predicate Calm(env: seq<AttemptEnv>)
  {
    forall k :: 0 <= k < |env| ==> !env[k].cancelledDuringCall && !env[k].cancelledDuringWait && !env[k].timedOut
  }

  /** The callback of `TestAbort`: its first call fails with "n = 1", its second aborts with "n = 2". */
  function AbortingCallback(ctx: Context): Option<Error>
  {
    if Attempt(ctx) == 0 then Some(Message("n = 1")) else Some(Abort(Message("n = 2")))
  }

  /** Without a budget, an uncancelled attempt failing with a retryable error moves on to the next. */
  lemma RetryStep(opts: Options, ctx: Context, ctxErr: Error, cb: Context -> Option<Error>, env: seq<AttemptEnv>,
                  i: nat, err: Option<Error>, waits: seq<int>)
    requires i < |env| && Continues(opts, i)
    requires !env[i].cancelledDuringCall && !env[i].cancelledDuringWait
    requires Delivered(opts, cb, ctx, env, i).Some? && !StopsRetrying(Delivered(opts, cb, ctx, env, i).value)
    ensures Loop(opts, None, ctx, ctxErr, cb, env, i, err, waits) ==
            Loop(opts, None, ctx, ctxErr, cb, env, i + 1, Delivered(opts, cb, ctx, env, i), waits + [DelayAfter(opts, i, env[i].sample)])
  {
  }

  /** `TestAbort`: with the default options, `Do` returns "n = 2" after exactly two calls. */
  lemma AbortVector(ctx: Context, ctxErr: Error, env: seq<AttemptEnv>)
    requires |env| >= 2 && Calm(env)
    ensures var r := DoSpec(Defaults, None, ctx, ctxErr, AbortingCallback, env);
            r.outcome == Returned(Some(Message("n = 2"))) && r.calls == 2 && |r.waits| == 1
  {
    AttemptRoundTrip(ctx, 0);
    AttemptRoundTrip(ctx, 1);
    RetryStep(Defaults, ctx, ctxErr, AbortingCallback, env, 0, None, []);
  }

  /** The callback of `TestDo`: three failures, then success. */
  function ThirdTimeLucky(ctx: Context): Option<Error>
  {
    var a := Attempt(ctx);
    if a == 0 then Some(Message("n=2"))
    else if a == 1 then Some(Message("n=1"))
    else if a == 2 then Some(Message("n=0"))
    else None
  }

  /** What `ThirdTimeLucky` delivers on each of its four attempts when no timeout is set. */
  lemma ThirdTimeLuckyDelivers(opts: Options, ctx: Context, env: seq<AttemptEnv>)
    requires opts.timeout == 0 && |env| >= 4
    ensures Delivered(opts, ThirdTimeLucky, ctx, env, 0) == Some(Message("n=2"))
    ensures Delivered(opts, ThirdTimeLucky, ctx, env, 1) == Some(Message("n=1"))
    ensures Delivered(opts, ThirdTimeLucky, ctx, env, 2) == Some(Message("n=0"))
    ensures Delivered(opts, ThirdTimeLucky, ctx, env, 3) == None
  {
    AttemptRoundTrip(ctx, 0);
    AttemptRoundTrip(ctx, 1);
    AttemptRoundTrip(ctx, 2);
    AttemptRoundTrip(ctx, 3);
  }

  /** Without a budget and with four attempts, `ThirdTimeLucky` succeeds on its fourth call after three waits. */
  lemma ThirdTimeLuckyRun(opts: Options, ctx: Context, ctxErr: Error, env: seq<AttemptEnv>)
    requires opts.timeout == 0 && opts.attempts == 4
    requires |env| >= 4 && Calm(env)
    ensures var d0, d1, d2 := DelayAfter(opts, 0, env[0].sample), DelayAfter(opts, 1, env[1].sample), DelayAfter(opts, 2, env[2].sample);
            DoSpec(opts, None, ctx, ctxErr, ThirdTimeLucky, env) == Run(Returned(None), 4, [d0, d1, d2], None)
  {
    var cb := ThirdTimeLucky;
    ThirdTimeLuckyDelivers(opts, ctx, env);
    var d0, d1, d2 := DelayAfter(opts, 0, env[0].sample), DelayAfter(opts, 1, env[1].sample), DelayAfter(opts, 2, env[2].sample);
    RetryStep(opts, ctx, ctxErr, cb, env, 0, None, []);
    RetryStep(opts, ctx, ctxErr, cb, env, 1, Delivered(opts, cb, ctx, env, 0), [d0]);
    RetryStep(opts, ctx, ctxErr, cb, env, 2, Delivered(opts, cb, ctx, env, 1), [d0, d1]);
    assert [] + [d0] == [d0] && [d0] + [d1] == [d0, d1] && [d0, d1] + [d2] == [d0, d1, d2];
    assert Loop(opts, None, ctx, ctxErr, cb, env, 3, Delivered(opts, cb, ctx, env, 2), [d0, d1, d2])
        == Run(Returned(None), 4, [d0, d1, d2], None);
  }

  /**
   * `TestDo`: the callback succeeds on its fourth call and `Do` returns nil. The three waits
   * are the jittered 100 ms, 200 ms and 400 ms; without jitter they are exactly those, so the
   * calls start at 0, 100, 300 and 700 ms.
   */
  lemma RetryUntilSuccessVector(os: seq<DoOption>, ctx: Context, ctxErr: Error, env: seq<AttemptEnv>)
    requires os == [] || os == [JitterOption(WithoutJitter)]
    requires |env| >= 4 && Calm(env)
    ensures var r := DoSpec(ApplyAll(Defaults, os), None, ctx, ctxErr, ThirdTimeLucky, env);
            && r.outcome == Returned(None) && r.calls == 4
            && |r.waits| == 3
            && (os == [] ==> forall k :: 0 <= k < 3 ==> r.waits[k] == Jitter(FullJitter, Delay(DefaultBackoff, k), env[k].sample))
            && (os != [] ==> r.waits == [100 * Millisecond, 200 * Millisecond, 400 * Millisecond])
  {
    var opts := ApplyAll(Defaults, os);
    if os != [] {
      assert os[..|os| - 1] == [] && os[|os| - 1] == JitterOption(WithoutJitter);
      assert ApplyAll(Defaults, os[..|os| - 1]) == Defaults;
    }
    assert opts == Defaults.(jitter := if os == [] then FullJitter else WithoutJitter);
    ThirdTimeLuckyRun(opts, ctx, ctxErr, env);
    DefaultDelays();
  }

  /**
   * `TestCancelInCallback`: the callback blocks until the context is cancelled, so the
   * cancellation falls in the first call and `do` returns the context's error after that
   * call, without a wait.
   */
  lemma CancelInCallbackVector(opts: Options, ctx: Context, ctxErr: Error, cb: Context -> Option<Error>, env: seq<AttemptEnv>)
    requires opts.attempts >= 0 && |env| > 0
    requires env[0].cancelledDuringCall
    ensures var r := DoSpec(opts, None, ctx, ctxErr, cb, env);
            r.outcome == Returned(Some(ctxErr)) && r.calls == 1 && r.waits == []
  {
  }

  /** The callback of `TestCancelInTimer`: every call fails at once with "oh no". */
  function OhNo(ctx: Context): Option<Error>
  {
    Some(Message("oh no"))
  }

  /**
   * Without a budget, retryable failures from attempt `i` up to attempt `k`, with the
   * context cancelled during the wait after attempt `k`, end `do` with the context's error
   * after `k + 1` calls and one wait per call.
   */
  lemma {:induction false} CancelledWaitAfterRetries(opts: Options, ctx: Context, ctxErr: Error,
                                                     cb: Context -> Option<Error>, env: seq<AttemptEnv>,
                                                     i: nat, k: nat, err: Option<Error>, waits: seq<int>)
    requires i <= k < |env| && (opts.attempts == 0 || k < opts.attempts)
    requires AllRetryable(opts, cb, ctx, env, k)
    requires !env[k].cancelledDuringCall && env[k].cancelledDuringWait
    requires Delivered(opts, cb, ctx, env, k).Some? && !StopsRetrying(Delivered(opts, cb, ctx, env, k).value)
    ensures var r := Loop(opts, None, ctx, ctxErr, cb, env, i, err, waits);
            r.outcome == Returned(Some(ctxErr)) && r.calls == k + 1 && |r.waits| == |waits| + k + 1 - i
    decreases k - i
  {
    if i < k {
      RetryStep(opts, ctx, ctxErr, cb, env, i, err, waits);
      CancelledWaitAfterRetries(opts, ctx, ctxErr, cb, env, i + 1, k, Delivered(opts, cb, ctx, env, i),
                                waits + [DelayAfter(opts, i, env[i].sample)]);
    } else {
      CancelEndsLoop(opts, None, ctx, ctxErr, cb, env, i, err, waits);
    }
  }

  /**
   * `TestCancelInTimer`: with the default options every call fails with "oh no". A context
   * cancelled during the wait after attempt `k` ends `do` with the context's error after
   * `k + 1` calls. If no wait is cancelled, `do` returns "oh no" after all four calls.
   *
   * In the test the deadline is 500 ms, and the jittered waits are below 100, 200, 400 and
   * 800 ms. So a deadline that falls in a wait falls in wait 1, 2 or 3. When the four waits
   * add up to less than 500 ms, no wait is cancelled, and the test's expectation fails.
   */
  lemma CancelInTimerVector(ctx: Context, ctxErr: Error, env: seq<AttemptEnv>, k: nat)
    requires k < 4 <= |env|
    requires forall j :: 0 <= j < k ==> !env[j].cancelledDuringCall && !env[j].cancelledDuringWait
    ensures !env[k].cancelledDuringCall && env[k].cancelledDuringWait ==>
              var r := DoSpec(Defaults, None, ctx, ctxErr, OhNo, env);
              r.outcome == Returned(Some(ctxErr)) && r.calls == k + 1 && |r.waits| == k + 1
    ensures (forall j :: 0 <= j < 4 ==> !env[j].cancelledDuringCall && !env[j].cancelledDuringWait) ==>
              var r := DoSpec(Defaults, None, ctx, ctxErr, OhNo, env);
              r.outcome == Returned(Some(Message("oh no"))) && r.calls == 4 && |r.waits| == 4
  {
    var opts, cb := Defaults, OhNo;
    forall j | 0 <= j < |env|
      ensures Delivered(opts, cb, ctx, env, j) == Some(Message("oh no"))
    {
    }
    if !env[k].cancelledDuringCall && env[k].cancelledDuringWait {
      assert AllRetryable(opts, cb, ctx, env, k);
      CancelledWaitAfterRetries(opts, ctx, ctxErr, cb, env, 0, k, None, []);
    }
    if forall j :: 0 <= j < 4 ==> !env[j].cancelledDuringCall && !env[j].cancelledDuringWait {
      assert AllRetryable(opts, cb, ctx, env, 4);
      NoBudgetAdmits(opts, env, 0);
      ExhaustionReturnsLastError(opts, None, ctx, ctxErr, cb, env);
    }
  }

  // ---------------------------------------------------------------- the ticker

  /**
   * As written, the wait panics whenever the jittered delay is not positive: with
   * `ExpBackoff{Base: 0}` every delay is 0, and under full jitter a sample of 0 turns the
   * default 100 ms into 0. The model's loop uses `Wait`, which returns at once instead.
   */
  lemma TickerPanicsOnZeroDelay(j: real, u: real, attempt: nat, factor: real, cancelled: bool)
    requires Sample(u)
    ensures TickerWait(Jitter(j, Delay(ExpBackoff(0, 0, factor), attempt), u), cancelled) == Panicked
    ensures TickerWait(Jitter(FullJitter, Delay(DefaultBackoff, 0), 0.0), cancelled) == Panicked
    ensures Wait(Jitter(FullJitter, Delay(DefaultBackoff, 0), 0.0), cancelled) != Panicked
  {
    DefaultDelays();
    NeverLonger(j, Delay(ExpBackoff(0, 0, factor), attempt), u);
  }
}
