# octo/retry in Dafny

This project models the core of the Go package `retry`. The package calls a callback
repeatedly until it succeeds. Between attempts it waits an exponentially growing,
optionally jittered delay. It can limit retries with a client-side retry budget.

- **Budget** (`budget.go`): `Budget.check` and the `movingRate` estimator behind it. Both are
  classes whose methods update their fields in place. Each is specified by pure functions on
  its abstract state (`RateState`, `BudgetModel`) in `moving_rate.dfy` and `budget.dfy`.
- **Backoff, jitter, options** (`retry.go`, `jitter.go`): `ExpBackoff.delay`,
  `Jitter.jitter` and the `Option` fold of `Do`. These are pure functions, in `backoff.dfy`,
  `jitter.dfy` and `options.dfy`.
- **Errors and the attempt counter** (`retry.go`): the `Error` classification, `Abort`,
  `withAttempt` and `Attempt`, in `errors.dfy`. A Go `error` is one of three shapes. The
  context is a chain of `WithValue` layers.
- **The loop** `do` (`retry.go`): the function `Engine.Loop` specifies `do` with the two
  corrections listed under Findings applied. It waits with `Engine.Wait`, which never
  panics, instead of the ticker as written (`Engine.TickerWait`). It computes delays with
  `Backoff.Delay` instead of the amd64 conversion as compiled (`Backoff.DelayAsCompiled`).
  The method `Engine.DoLoop` runs the same `while` loop and updates the budget object in place,
  and `Engine.Do` applies the options first. Everything outside the loop is an explicit
  per-attempt environment `AttemptEnv`:
  - the clock reading the budget sees;
  - whether the per-attempt timeout fired;
  - whether the caller's context was cancelled during the call or during the wait;
  - the random sample `rand.Float64()` returns.

  The callback is a function of the context it is given, so it tells attempts apart through
  `Attempt(ctx)`. `engine_properties.dfy` states what `Do` promises about every run and
  replays the package's own tests.
- **HTTP** (`http.go`): `checkResponse`, the status classes, the `Retry-Attempt` header,
  `Transport.RoundTrip` on top of the loop, and `BudgetHandler.ServeHTTP` with
  `overloadResponseWriter.WriteHeader`, in `http.dfy`.

Time is an integer count of nanoseconds, and the zero time is `0` (`durations.dfy`). The
rates that `movingRate.Rate` computes, and the ratio `check` divides out of them, are
`float64` values that may be a real number, +Inf, -Inf or NaN (`floats.dfy`). This keeps
the NaN of `Rate` and the divisions of `check` faithful. The `float64` settings (`Rate`,
`Ratio`, `Jitter`, `Factor`) are finite reals. Conversions from `float64` to
`time.Duration` truncate toward zero (`Backoff.Trunc`).

The doc comment of `Budget` (`budget.go:16-19`, `budget.go:23-25`) says retries are dropped
when the rate of *retries* exceeds `Rate`, and never below it. The code (`budget.go:62-66`)
compares the rate of *initial calls* with `Rate`. The model follows the code, and
`Budgets.ThresholdOnInitialRate` states the difference.

## Model

| member | source | states |
|---|---|---|
| Floats.Div | budget.go:186-193 | float division: NaN propagates, x/0 is +Inf, -Inf or NaN by the sign of x, and finite non-zero divisors give the exact quotient |
| MovingRates.Round | budget.go:74 | `t.Round(d)` is a multiple of d less than half a bucket away from t, a halfway time rounding up |
| MovingRates.RoundDown | budget.go:73-80 | `timeRoundDown(t, d)` is the start of t's bucket: a multiple of d with `rt <= t < rt + d` |
| MovingRates.Offset | budget.go:127 | `lastUpdate - timeRoundDown(lastUpdate)` lies in `[0, BucketLength)` |
| MovingRates.ShiftAmount | budget.go:136-138 | `shift` appends at most BucketNum+1 zero buckets, and exactly n when n is within that cap |
| MovingRates.ShiftSpec | budget.go:135-151 | after `shift(n)` at most BucketNum+1 buckets remain, and at least the (capped) number appended |
| MovingRates.ShiftShape | budget.go:135-151 | after `shift(n)` the buckets are an in-order suffix of the old ones followed by the zero buckets, at most BucketNum+1 of them; the last update moves to the old bucket start plus the appended buckets |
| MovingRates.ShiftHugeGapResets | budget.go:136-147 | a gap of BucketNum+1 buckets or more leaves only BucketNum+1 zero buckets |
| MovingRates.ForwardSpec | budget.go:153-175 | after `forward(t)` the last update is t, there is at least one bucket, and the length bound holds |
| MovingRates.ForwardShiftsAtLeastOne | budget.go:168-172 | when `forward` shifts, the bucket count n is at least 1, so its assertion panic cannot fire |
| MovingRates.ForwardWithoutShift | budget.go:163-166 | a time inside the current bucket changes only the last-update time |
| MovingRates.AddSpec | budget.go:177-184 | `Add` keeps the length bound and the "buckets exist once time is set" invariant |
| MovingRates.AddBumpsNewest | budget.go:177-184 | `Add(t, n)` before the last update changes nothing; otherwise only the newest bucket of the forwarded window grows, by exactly n, and so does the sum |
| MovingRates.AddSeqInBucket | budget.go:182-183 | k repeated adds at the last-update time all land in the newest bucket, adding k |
| MovingRates.Advance | budget.go:186-191 | the state `Rate(t)` leaves behind keeps the invariant |
| MovingRates.OldestFraction | budget.go:107-109 | the weight of the oldest bucket in a full window lies in (0, 1] |
| MovingRates.Count | budget.go:97-117 | with non-negative buckets `count()` is never negative |
| MovingRates.CountBetween | budget.go:97-117 | `count()` lies between the sum without the oldest bucket and the sum of all buckets |
| MovingRates.Seconds | budget.go:119-133 | `second()` is never negative |
| MovingRates.SecondsAtMostWindow | budget.go:119-133 | `second()` is between 0 and the nominal window BucketNum*BucketLength |
| MovingRates.RateAt | budget.go:186-193 | `Rate(t)` is NaN for a time before the last update; otherwise it is finite exactly when the forwarded window has a non-zero length, and a division by a zero length gives an infinity or NaN |
| MovingRates.SingleBucketVector | budget_test.go:112-116 | five events 0.2 s into one bucket: count 5, 0.2 s, rate 25/s |
| MovingRates.TwoBucketAddVector | budget_test.go:117-121 | five `Add`s, then three one second later, from a fresh estimator: buckets [5, 3], count 8, 1.2 s, rate 8 / 1.2 per second |
| MovingRates.FullWindowVector | budget_test.go:132-138 | eleven buckets in a ten-bucket window: count 5*0.8 + 9*5 + 1, 10 s |
| MovingRates.MovingRate.constructor | budget.go:82-88 | a new estimator has no buckets, a zero last update, and the given configuration |
| MovingRates.MovingRate.Shift | budget.go:135-151 | in place, the new state is `ShiftSpec` of the old |
| MovingRates.MovingRate.Forward | budget.go:153-175 | in place, the new state is `ForwardSpec` of the old |
| MovingRates.MovingRate.Add | budget.go:177-184 | in place, the new state is `AddSpec` of the old |
| MovingRates.MovingRate.Rate | budget.go:186-193 | returns `RateAt` of the old state and leaves the forwarded state; a time before the last update gives NaN and changes nothing |
| MovingRates.NewMovingRate | budget.go:90-95 | a fresh empty estimator with one-second buckets and a 60-bucket window |
| Budgets.Refuses | budget.go:64-65 | a NaN rate on either side never refuses a retry, because every comparison with NaN is false |
| Budgets.CheckSpec | budget.go:40-71 | an initial call is admitted and leaves the retry estimator alone; thresholds never change; the invariant holds after |
| Budgets.Consult | budget.go:40-43 | a nil budget admits everything and has no state; an initial call is always admitted |
| Budgets.InitialCallCounted | budget.go:57-60 | an initial call adds exactly one event to the newest initial-call bucket and leaves the retries untouched |
| Budgets.RetryAdmission | budget.go:62-70 | a retry is refused exactly when initialRate > Rate and retriedRate/initialRate > Ratio (float comparisons); a refused retry is not counted and an admitted one adds exactly one event |
| Budgets.RefusalOnFiniteRates | budget.go:64-66 | with finite rates the refusal rule is the plain arithmetic comparison |
| Budgets.ThresholdOnInitialRate | budget.go:62-66 | with finite rates a retry is refused exactly when the initial rate exceeds Rate and the ratio exceeds Ratio, whatever the retry rate: 100 initial and 5 retried calls per second with Rate 10 and Ratio 0.01 refuse, although retries run below Rate |
| Budgets.NoInitialCallsNoRefusal | budget.go:62-66 | before any initial call is recorded no retry is refused (the initial rate is 0 or NaN) |
| Budgets.Budget.constructor | budget.go:22-34 | a new budget has the given thresholds and no estimators |
| Budgets.Budget.Check | budget.go:40-71 | allocates both estimators on first use; the verdict and the new state are `CheckSpec` of the old state |
| Budgets.Admits | retry.go:173 | `opts.budget.check(i != 0)` on a possibly nil budget: the verdict and the new state are `Consult` of the old state |
| Errors.ImplementsError | retry.go:192 | whether `err.(Error)` succeeds: a `permanentError` always implements `Error`, a plain error never does; `Errors.Classification` characterises how this decides the loop |
| Errors.Temporary | retry.go:99-109 | an error is temporary exactly when it implements `Error` and reports true; a `permanentError` never is |
| Errors.Abort | retry.go:111-115 | the wrapped error implements `Error`, is not temporary, and reports the wrapped message |
| Errors.StopsRetrying | retry.go:192 | an error without `Temporary()` never stops the loop, and a `permanentError` always does |
| Errors.Surfaced | retry.go:193-197 | the error `do` returns reports the same message as the one that stopped the loop; only a `permanentError` is unwrapped |
| Errors.Classification | retry.go:189-197 | an error stops the loop exactly when it implements `Error` with `Temporary() == false`; plain errors are retried; `Abort(e)` stops the loop and surfaces e itself |
| Errors.TimeoutIsRetried | retry.go:226-228 | the deadline error of a timed-out attempt is retried, and so is a cancellation error |
| Errors.WithAttempt | retry.go:119-121 | the new context holds the attempt and every other key reads as before |
| Errors.Attempt | retry.go:127-134 | the attempt stored in the context, or 0 when none is stored |
| Errors.AttemptRoundTrip | retry.go:119-134 | `Attempt(withAttempt(ctx, a)) == a`, and 0 outside a retried function |
| Errors.NoAttemptValue | retry.go:127-131 | a context without an attempt layer has no attempt value |
| Backoff.Clamp | retry.go:60-65 | with Base <= Max the clamped delay lies in [Base, Max], and a delay already in that range is kept |
| Backoff.ConvertAmd64 | retry.go:59 | the amd64 conversion always gives an int64, and the truncated value itself whenever it fits in int64 |
| Backoff.Delay | retry.go:56-66 | with Base <= Max the delay lies in [Base, Max]; in every case it is Base, Max, or between them |
| Backoff.DelayNondecreasing | retry.go:40-43 | with 0 <= Base <= Max and Factor >= 1, the delays never shrink from one attempt to the next and stay in [Base, Max] |
| Backoff.DefaultDelays | retry.go:140-157 | the default backoff waits 100, 200, 400, 800 ms and reaches 2 s by attempt 5 |
| Backoff.LargeProducts | retry.go:57 | `Base * Factor^attempt` for the default backoff at attempts 36 and 37, exactly |
| Backoff.DelayAsCompiled | retry.go:56-66 | as compiled for amd64 the clamp still keeps the delay in [Base, Max] when Base <= Max; its collapse at attempt 37 is `CompiledDelayCollapses` |
| Backoff.CompiledDelayCollapses | retry.go:57-63 | as compiled for amd64, attempt 36 waits 2 s but attempt 37 drops to 100 ms, while the exact conversion stays at 2 s |
| Jitters.Jitter | jitter.go:45-56 | a negative jitter returns the delay unchanged, and a zero delay stays zero under every jitter |
| Jitters.SpecialCases | jitter.go:19-20 | a negative jitter returns the delay unchanged; jitter 0 and jitter >= 1 behave like `FullJitter` |
| Jitters.FullJitterRange | jitter.go:34-36 | full jitter picks a delay in [0, d) |
| Jitters.PartialJitterRange | jitter.go:11-17 | a jitter j in (0, 1) picks a delay in [floor((1-j)d), d) |
| Jitters.EqualJitterRange | jitter.go:29-32 | equal jitter picks a delay in [d/2, d) |
| Jitters.DocumentedExample | jitter.go:11-14 | jitter 0.2 on 100 ms gives a delay in [80, 100) ms |
| Jitters.NeverLonger | jitter.go:45-56 | for a non-negative delay, jitter never lengthens it and never makes it negative |
| Jitters.ZeroDelay | jitter.go:45-55 | a zero delay stays zero under any non-negative jitter |
| RetryOptions.Apply | retry.go:52-54 | each option's `apply` sets its own field and no other (also retry.go:77-79, retry.go:90-92, budget.go:36-38, jitter.go:41-43) |
| RetryOptions.ApplyAll | retry.go:159-161 | without options the defaults are kept; otherwise the field of the last option holds its value |
| RetryOptions.LastOptionWins | retry.go:159-161 | after the fold, each option's field holds the value of its last occurrence |
| RetryOptions.UnsetFieldKept | retry.go:159-161 | a field no option sets keeps its default |
| RetryOptions.DefaultOptions | retry.go:149-157 | with no options: 4 attempts, backoff 100 ms..2 s with factor 2, no budget, full jitter, no timeout |
| Engine.TickerWait | retry.go:203-210 | as written: the wait panics exactly when the delay is not positive, and otherwise ends by cancellation exactly when the context is cancelled |
| Engine.Wait | retry.go:203-210 | the wait never panics, agrees with the ticker for positive delays, and ends by cancellation exactly when the context is cancelled |
| Engine.CallResult | retry.go:177-183 | without a per-attempt timeout, or when it does not fire, the attempt delivers the callback's own result; a timeout that fires delivers `context.DeadlineExceeded` |
| Engine.Continues | retry.go:170 | the loop condition: `Attempts(0)` always goes on, a negative count never starts, and a positive count goes on exactly below it |
| Engine.DelayAfter | retry.go:200-201 | the delay after attempt i: without jitter the backoff delay itself, and with 0 <= Base <= Max never negative nor above Max |
| Engine.AttemptSpec | retry.go:171-210 | one loop body: the first attempt is never refused by the budget, and an attempt that moves on carried a retryable error |
| Engine.Loop | retry.go:166-214 | the loop makes between i and |env| calls and keeps the budget invariant |
| Engine.DoSpec | retry.go:166-214 | `do` from the first attempt: never more calls than the environment describes; its properties are the `EngineProperties` lemmas |
| Engine.LoopStep | retry.go:170-211 | one turn of the loop: a finished step ends the run with its outcome and waits, a retry continues at i + 1 with the error and the delay recorded |
| Engine.TryAttempt | retry.go:171-210 | one loop body on the budget object: the step and the new budget state are `AttemptSpec` of the old |
| Engine.DoLoop | retry.go:166-214 | the loop on the budget object: outcome, call count, waits and new budget state are `Loop` from attempt 0 |
| Engine.Do | retry.go:148-164 | applies the options over the defaults, then runs the loop: the result is `DoSpec` of the folded options |
| EngineProperties.LoopWithinAttempts | retry.go:170 | with Attempts > 0 the loop calls the callback at most Attempts times, and returns once the environment covers them |
| EngineProperties.AttemptsCap | retry.go:68-70 | `Do` calls the callback at most Attempts times when Attempts > 0 |
| EngineProperties.LoopZeroAttempts | retry.go:170 | without a budget and with Attempts(0), from any attempt on, retryable failures keep the loop calling and waiting to the end of the environment |
| EngineProperties.ZeroAttemptsUnbounded | retry.go:72 | without a budget, `Attempts(0)` places no bound: as many retryable failures as the environment describes give as many calls and waits, and the loop is still running |
| EngineProperties.FirstAttempt | retry.go:170 | a negative attempt count returns nil without a call; otherwise the callback is called at least once |
| EngineProperties.ImmediateSuccess | retry.go:189-191 | a first call that succeeds ends `Do` with nil after one call and no wait |
| EngineProperties.RefusalEndsLoop | retry.go:173-175 | at any attempt, a budget refusal ends `do` with "retry budget exhausted", without a call and without a wait |
| EngineProperties.CancelEndsLoop | retry.go:185-206 | at any admitted attempt, cancellation during the call ends `do` with the context's error after that call; cancellation during the wait after a retryable failure ends it after that wait |
| EngineProperties.OutcomeEndsLoop | retry.go:188-197 | at any admitted, uncancelled attempt, a nil result ends `do` with nil after i + 1 calls and no further wait; a permanent failure ends it with the unwrapped error |
| EngineProperties.StepWaits | retry.go:200-210 | an attempt waits nothing, or the jittered backoff delay for its own index |
| EngineProperties.LoopWaits | retry.go:200-210 | from any point of the loop, the waits recorded are the jittered backoff delays in order, at most one per call |
| EngineProperties.WaitsFollowBackoff | retry.go:200-201 | the k-th wait of `Do` is `jitter(delay(k))`, and there are no more waits than calls |
| EngineProperties.WaitsBounded | retry.go:40-43 | with 0 <= Base <= Max, no wait is negative or longer than Max, whatever the jitter |
| EngineProperties.StepReports | retry.go:185-198 | an attempt's error is the context's, the budget's, or what its call delivered (unwrapped if permanent) |
| EngineProperties.LoopSuccessReported | retry.go:189-191 | nil comes back only with a negative attempt count or when the last call succeeded |
| EngineProperties.LoopErrorReported | retry.go:185-213 | a non-nil error is the context's error, the budget's refusal, or what one of the calls delivered |
| EngineProperties.ReturnedErrorProvenance | retry.go:166-214 | `Do` invents no error: both directions above, from the first attempt |
| EngineProperties.LoopExhausts | retry.go:68-70 | when the budget (if any) admits every attempt and every attempt fails with a retryable error, the loop makes exactly Attempts calls and returns the last error |
| EngineProperties.NoBudgetAdmits | budget.go:40-43 | a nil budget admits every attempt |
| EngineProperties.ExhaustionReturnsLastError | retry.go:68-70 | when the budget (if any) admits every attempt, `Do` returns the error of the last of Attempts failing calls, after Attempts calls and as many waits |
| EngineProperties.RetryStep | retry.go:188-210 | an uncancelled attempt failing with a retryable error moves on to the next, recording its delay |
| EngineProperties.AbortVector | retry_test.go:99-116 | `TestAbort`: `Do` returns "n = 2" after two calls and one wait |
| EngineProperties.ThirdTimeLuckyDelivers | retry_test.go:28-38 | the `TestDo` callback fails with n=2, n=1, n=0 and then succeeds |
| EngineProperties.ThirdTimeLuckyRun | retry_test.go:24-56 | with four attempts that callback succeeds on the fourth call after three waits |
| EngineProperties.RetryUntilSuccessVector | retry_test.go:24-56 | `TestDo`: nil after four calls; the waits are the jittered 100/200/400 ms by default, and exactly 100/200/400 ms without jitter |
| EngineProperties.CancelInCallbackVector | retry_test.go:58-77 | `TestCancelInCallback`: cancelling during the first call returns the context's error after that one call, without a wait |
| EngineProperties.CancelledWaitAfterRetries | retry.go:170-210 | retryable failures up to attempt k, then a cancellation during the wait after k, return the context's error after k + 1 calls and k + 1 waits |
| EngineProperties.CancelInTimerVector | retry_test.go:79-97 | `TestCancelInTimer` with default options: a cancellation during wait k (k < 4) returns the context's error after k + 1 calls; without one, `Do` returns "oh no" after four calls and four waits |
| EngineProperties.TickerPanicsOnZeroDelay | retry.go:203 | the ticker panics on a zero jittered delay (Base 0, or a zero sample under full jitter); the corrected wait does not |
| Http.TemporaryErrorCode | http.go:69-72 | a temporary code is a 4xx or 5xx status |
| Http.PermanentErrorCode | http.go:74-77 | a permanent code is a 4xx or 5xx status |
| Http.CodeClasses | http.go:69-77 | the temporary and permanent classes are disjoint and together cover exactly 400..599 |
| Http.Decimal | http.go:134 | the decimal form of a number is never empty |
| Http.Itoa | http.go:134 | `strconv.Itoa` never gives the empty string |
| Http.DecimalRoundTrip | http.go:134 | parsing the decimal form gives back the number |
| Http.MarkAttempt | http.go:133-135 | attempt a > 0 sets "Retry-Attempt" to `Itoa(a)`; the first attempt leaves the header unchanged; other keys never change |
| Http.IsRetry | http.go:211 | a request is a retry only when it carries a non-empty "Retry-Attempt" header; `Http.RetryAttemptHeader` says which attempts do |
| Http.RetryAttemptHeader | http.go:211 | the server sees attempt a > 0 as a retry and reads a back; attempt 0 is a retry only if the caller marked it |
| Http.MarkOverwrites | http.go:133-135 | marking the request in place attempt after attempt leaves the header attempt b sends equal to the original marked once with b |
| Http.CheckResponse | http.go:88-106 | a transport error always becomes an error; a retried response reports its status text |
| Http.TransportClassification | http.go:88-106 | a response is retried exactly when its status is temporary, or permanent with "Retry-After"; 2xx/3xx are returned; a plain transport error is aborted and surfaces unwrapped |
| Http.TransportCallback | http.go:119-144 | the callback reports success only when the round tripper returned a response |
| Http.RoundTrip | http.go:146-152 | a response and an error are never returned together |
| Http.RoundTripResponseFinal | http.go:109-152 | `RoundTrip` never returns both a response and an error; on success it returns a response the transport would not retry |
| Http.TestTransport | http_test.go:19-52 | `testTransport` answers exactly the calls within its status list whose "Retry-Attempt" header matches the attempt, with that attempt's status code; every other call gets a transport error |
| Http.TransportVectors | http_test.go:61-73 | 500 then 200 gives 200; 599 then 403 gives 403; 503, 502 with two attempts gives an error |
| Http.TwoCalls | http_test.go:61-68 | a retryable first response followed by a final one succeeds on the second call |
| Http.OverloadStatus | http.go:226-233 | in overload a temporary status becomes 429, which is permanent; every other status is kept |
| Http.OverloadedResponsesNotRetried | http.go:226-233 | a response rewritten in overload is never retried by the client transport, and the rewrite is idempotent |
| Http.ResponseWriter.constructor | http.go:222-224 | a new writer has an empty header and no status written |
| Http.ResponseWriter.WriteHeader | http.go:232 | appends the status and leaves the header alone |
| Http.OverloadResponseWriter.constructor | http.go:222-224 | the overload writer wraps the given writer |
| Http.OverloadResponseWriter.WriteHeader | http.go:226-233 | in place, removes "Retry-After" and writes `OverloadStatus` of the status |
| Http.ServeHTTP | http.go:210-220 | in overload the handler's status goes through the overload writer, otherwise unchanged |

## Left out

- Goroutines, channels and `select` races are not modelled. Which of "callback returned", "timeout fired" and "context cancelled" happens first is an input of `AttemptEnv`.
- A timed-out callback keeps running in the background. The model only sees the `DeadlineExceeded` that `callWithTimeout` returns.
- The budget's mutex is not modelled. A `Budget` is used by one caller at a time.
- `time.Now`, tickers and `rand.Float64` are parameters: `AttemptEnv.now`, the cancellation flags, and `AttemptEnv.sample`, taken to lie in [0, 1).
- Floating-point rounding is not modelled. A computed rate is an exact real, or an infinity, or NaN. `Pow` is the exact power, and the truncating conversion to `time.Duration` is `Trunc`.
- The `float64` settings `Budget.Rate`, `Budget.Ratio`, `Jitter` and `ExpBackoff.Factor` are finite reals. NaN and infinite settings cannot be expressed: in Go a NaN `Jitter` fails both tests and gives `u*d`, and a NaN `Ratio` or an infinite `Rate` never refuses.
- Engine.AttemptSpec: the loop models `do` with both Findings corrected, not as written. With `ExpBackoff{Base: 0, Max: 0}` and one retryable failure, Go panics in `time.NewTicker(0)` (retry.go:203), while the model waits 0 and retries. With the default backoff, `Attempts(0)` and 37 retryable failures on amd64, Go waits the jittered 100 ms after attempt 37 (retry.go:57-63), while the model waits the jittered 2 s.
- Backoff.Delay: int64 overflow of `time.Duration` is not modelled, except the out-of-range float conversion described under Findings.
- `Attempts(0)`, which retries forever, is bounded by the length of the environment. A run that exhausts the environment ends as `Unfinished` (`StillRetrying` in `RoundTrip`). `ZeroAttemptsUnbounded` shows the loop never stops on its own before that.
- The backoff is always an `ExpBackoff`. The unexported `backoff` interface has no other implementation in these sources.
- Callbacks that count calls in a captured variable, such as `TestDo`'s `n` and `TestAbort`'s `n`, are written as functions of `Attempt(ctx)`. They agree with the counters because the loop passes attempt i to call i.
- `Abort(nil)` is not modelled. `Abort` always wraps an error.
- `RoundTrip` marks the caller's request header in place. The model marks the original header once per attempt instead, and `MarkOverwrites` shows the two give the same header.
- Request bodies are not modelled: `seekableBody`, the rewinding in `RoundTrip`, `Body.Close`, and the body checks of `testTransport`.
- `NewTransport` and the `http.DefaultTransport` fallback are not modelled. The underlying round tripper is the parameter `rt`.
- How the transport derives a response's status text from its code is not modelled. `Response.status` is given with the response, and `TestTransport` answers with an empty one.
- `BudgetHandler.overload` is not defined in the source files this model covers. It is the parameter `overload: bool -> bool`.
- The wrapped `http.Handler` is reduced to the status it writes (`ServeHTTP`'s `status`). The handler is assumed to call `WriteHeader` itself. A handler that only calls `Write` gets an implicit 200 from the embedded writer, so the overload writer's `WriteHeader` never runs and "Retry-After" stays.
- `Http.RoundTrip`: with a negative `Attempts`, `Do` returns nil without calling, so `RoundTrip` returns neither a response nor an error. `RoundTripResponseFinal` states the "response on success" half only for non-negative attempt counts.
- Http.RoundTripResponseFinal: assumes no per-attempt timeout. With a timeout, the response the callback stored can come from an attempt whose result the loop ignored.
- `TestCancelInTimer` expects the context's error, but with the default `FullJitter` the four waits can add up to less than its 500 ms deadline, and then `Do` returns "oh no". `CancelInTimerVector` states both runs. Timing is not modelled, so which run happens is an input.
- `TestDo` expects calls at 0, 100, 300 and 700 ms. This holds only without jitter, but `Do`'s default is `FullJitter`. `RetryUntilSuccessVector` therefore states the exact waits for `WithoutJitter`, and the jittered ones for the default.
- The timing tolerance of the tests (`durationEqual`) is not modelled. The statistical checks of the budget tests are not modelled either.

## Findings

| source | as written | input that shows it | evidently intended | confidence | as-written member | corrected member |
|---|---|---|---|---|---|---|
| retry.go:203 | `time.NewTicker(delay)` panics when the jittered delay is not positive | `ExpBackoff{Base: 0, Max: 0}` (every delay is 0), or `FullJitter` with `rand.Float64()` returning 0 | a zero delay retries at once, and the loop never panics | not executed | Engine.TickerWait, EngineProperties.TickerPanicsOnZeroDelay | Engine.Wait |
| retry.go:57-59 | `time.Duration(f)` of a float beyond int64 gives the minimum int64 on amd64, so `d < b.Base` holds and the delay falls back to `Base` | default backoff at attempt 37: 100 ms * 2^37 overflows, so the delay is 100 ms after 2 s at attempt 36 | delays grow until `Max` and stay there | not executed | Backoff.DelayAsCompiled, Backoff.CompiledDelayCollapses | Backoff.Delay, Backoff.DelayNondecreasing |
