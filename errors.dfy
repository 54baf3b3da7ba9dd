/**
 * The error values retry.go classifies, and the context value that carries the attempt
 * number. Go errors are polymorphic; the model keeps the three shapes the source
 * distinguishes: an error without a `Temporary()` method, an error implementing the
 * package's `Error` interface, and the `permanentError` wrapper built by `Abort`.
 */
module Errors {
  import opened Wrappers

  datatype Error =
    | Message(text: string)                        // e.g. errors.New / fmt.Errorf: no Temporary()
    | Classified(text: string, temporary: bool)    // implements Error, e.g. a net.Error
    | Permanent(cause: Error)                      // permanentError{cause}

  /** `err.Error()`: a permanent error reports the message of the error it wraps. */
  function Text(e: Error): string
  {
    match e
    case Message(t) => t
    case Classified(t, _) => t
    case Permanent(c) => Text(c)
  }

  /** Whether `err.(Error)` succeeds: the error has a `Temporary()` method. */
  predicate ImplementsError(e: Error)
    ensures e.Permanent? ==> ImplementsError(e)
    ensures e.Message? ==> !ImplementsError(e)
  {
    !e.Message?
  }

  /** `Temporary()`: a `permanentError` always reports false. */
  function Temporary(e: Error): (t: bool)
    requires ImplementsError(e)
    ensures t <==> e.Classified? && e.temporary
  {
    match e
    case Classified(_, t) => t
    case Permanent(_) => false
  }

  /** `Abort(err)`: wrap `err` so that it reports a permanent condition. */
  function Abort(e: Error): (p: Error)
    ensures ImplementsError(p) && !Temporary(p)
    ensures Text(p) == Text(e)
  {
    Permanent(e)
  }

  /** The test `do` applies to a failed attempt: an `Error` whose `Temporary()` is false ends the loop. */
  predicate StopsRetrying(e: Error)
    ensures e.Message? ==> !StopsRetrying(e)
    ensures e.Permanent? ==> StopsRetrying(e)
  {
    ImplementsError(e) && !Temporary(e)
  }

  /** What `do` returns for an error that ends the loop: a `permanentError` is unwrapped once. */
  function Surfaced(e: Error): (s: Error)
    ensures Text(s) == Text(e)
    ensures !e.Permanent? ==> s == e
  {
    if e.Permanent? then e.cause else e
  }

  /** The error `do` returns when the budget refuses a retry: `errors.New("retry budget exhausted")`. */
  const BudgetExhausted := Message("retry budget exhausted")

  /** `context.DeadlineExceeded`, which reports `Temporary() == true`. */
  const DeadlineExceeded := Classified("context deadline exceeded", true)

  /** `context.Canceled`, which has no `Temporary()` method. */
  const Canceled := Message("context canceled")

  // ---------------------------------------------------------------- lemmas

  /**
   * Classification: an error stops the loop exactly when it implements `Error` and reports
   * `Temporary() == false`; errors without the method and temporary ones are retried, and
   * `Abort(e)` always stops the loop and surfaces `e` itself.
   */
  lemma Classification(e: Error)
    ensures e.Message? ==> !StopsRetrying(e) && Surfaced(e) == e
    ensures e.Classified? ==> (StopsRetrying(e) <==> !e.temporary) && Surfaced(e) == e
    ensures StopsRetrying(Abort(e)) && Surfaced(Abort(e)) == e
  {
  }

  /** A timed-out attempt is retried: `context.DeadlineExceeded` is temporary. */
  lemma TimeoutIsRetried()
    ensures !StopsRetrying(DeadlineExceeded) && !StopsRetrying(Canceled)
  {
  }

  // ---------------------------------------------------------------- the attempt in the context

  /** The key under which `withAttempt` stores the attempt, or a key of the caller's. */
  datatype Key = AttemptKey | OtherKey(name: string)

  /** A `context.Context` as a chain of `WithValue` layers over the background context. */
  datatype Context = Background | WithValue(parent: Context, key: Key, value: int)

  /** `ctx.Value(key)`: the innermost layer with that key wins. */
  function Value(ctx: Context, key: Key): Option<int>
  {
    match ctx
    case Background => None
    case WithValue(p, k, v) => if k == key then Some(v) else Value(p, key)
  }

  /** `withAttempt(ctx, attempt)` */
  function WithAttempt(ctx: Context, attempt: int): (c: Context)
    ensures Value(c, AttemptKey) == Some(attempt)
    ensures forall name :: Value(c, OtherKey(name)) == Value(ctx, OtherKey(name))
  {
    WithValue(ctx, AttemptKey, attempt)
  }

  /** `Attempt(ctx)`: the stored attempt, or 0 when none is stored. */
  function Attempt(ctx: Context): (a: int)
    ensures Value(ctx, AttemptKey) == Some(a) || (Value(ctx, AttemptKey) == None && a == 0)
  {
    match Value(ctx, AttemptKey)
    case None => 0
    case Some(a) => a
  }

  /** No layer of `ctx` holds an attempt. */
  predicate NoAttempt(ctx: Context)
  {
    match ctx
    case Background => true
    case WithValue(p, k, _) => k != AttemptKey && NoAttempt(p)
  }

  /** `Attempt` reads back what `withAttempt` stored, and gives 0 outside a retried function. */
  lemma {:induction false} AttemptRoundTrip(ctx: Context, attempt: int)
    ensures Attempt(WithAttempt(ctx, attempt)) == attempt
    ensures NoAttempt(ctx) ==> Attempt(ctx) == 0
  {
    if NoAttempt(ctx) {
      NoAttemptValue(ctx);
    }
  }

  lemma {:induction false} NoAttemptValue(ctx: Context)
    requires NoAttempt(ctx)
    ensures Value(ctx, AttemptKey) == None
  {
    if ctx.WithValue? {
      NoAttemptValue(ctx.parent);
    }
  }
}
