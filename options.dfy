/**
 * The options of `Do` in retry.go, budget.go and jitter.go: each option value sets one field
 * of `internalOptions`, and `Do` applies them in order over its defaults.
 */
module RetryOptions {
  import opened Backoff
  import opened Jitters
  import opened Budgets
  import opened Durations

  /** `internalOptions`. The backoff is always an `ExpBackoff`, the only implementation. */
  datatype Options = Options(attempts: int, backoff: ExpBackoff, budget: Budget?, jitter: real, timeout: int)

  /** The values implementing `Option`: `Attempts`, `ExpBackoff`, `*Budget`, `Jitter`, `Timeout`. */
  datatype DoOption =
    | AttemptsOption(n: int)
    | BackoffOption(b: ExpBackoff)
    | BudgetOption(budget: Budget?)
    | JitterOption(j: real)
    | TimeoutOption(d: int)

  /** The options `Do` starts from: 4 attempts, the default backoff, full jitter, no budget, no timeout. */
  const Defaults := Options(4, DefaultBackoff, null, FullJitter, 0)

  /** `o.apply(&opts)`: the option overwrites its own field and no other. */
  function Apply(opts: Options, o: DoOption): (r: Options)
    ensures Holds(r, o)
    ensures !o.AttemptsOption? ==> r.attempts == opts.attempts
    ensures !o.BackoffOption? ==> r.backoff == opts.backoff
    ensures !o.BudgetOption? ==> r.budget == opts.budget
    ensures !o.JitterOption? ==> r.jitter == opts.jitter
    ensures !o.TimeoutOption? ==> r.timeout == opts.timeout
  {
    match o
    case AttemptsOption(n) => opts.(attempts := n)
    case BackoffOption(b) => opts.(backoff := b)
    case BudgetOption(b) => opts.(budget := b)
    case JitterOption(j) => opts.(jitter := j)
    case TimeoutOption(d) => opts.(timeout := d)
  }

  /** The loop `for _, o := range opts { o.apply(&intOpts) }`. */
  function ApplyAll(opts: Options, os: seq<DoOption>): (r: Options)
    ensures os == [] ==> r == opts
    ensures os != [] ==> Holds(r, os[|os| - 1])
    decreases |os|
  {
    if os == [] then opts else Apply(ApplyAll(opts, os[..|os| - 1]), os[|os| - 1])
  }

  /** Two options that set the same field. */
  predicate SameKind(o: DoOption, p: DoOption)
  {
    match (o, p)
    case (AttemptsOption(_), AttemptsOption(_)) => true
    case (BackoffOption(_), BackoffOption(_)) => true
    case (BudgetOption(_), BudgetOption(_)) => true
    case (JitterOption(_), JitterOption(_)) => true
    case (TimeoutOption(_), TimeoutOption(_)) => true
    case _ => false
  }

  /** The field that `o` sets holds `o`'s value in `opts`. */
  predicate Holds(opts: Options, o: DoOption)
  {
    match o
    case AttemptsOption(n) => opts.attempts == n
    case BackoffOption(b) => opts.backoff == b
    case BudgetOption(b) => opts.budget == b
    case JitterOption(j) => opts.jitter == j
    case TimeoutOption(d) => opts.timeout == d
  }

  // ---------------------------------------------------------------- lemmas

  /**
   * The last option of each kind wins: if no later option sets the same field as `os[k]`,
   * the applied options hold `os[k]`'s value in that field.
   */
  lemma {:induction false} LastOptionWins(opts: Options, os: seq<DoOption>, k: nat)
    requires k < |os|
    requires forall i :: k < i < |os| ==> !SameKind(os[i], os[k])
    ensures Holds(ApplyAll(opts, os), os[k])
    decreases |os|
  {
    var front := os[..|os| - 1];
    if k < |os| - 1 {
      assert front[k] == os[k];
      LastOptionWins(opts, front, k);
    }
  }

  /** A field that no option sets keeps the value it had before the options were applied. */
  lemma {:induction false} UnsetFieldKept(opts: Options, os: seq<DoOption>, p: DoOption)
    requires Holds(opts, p)
    requires forall i :: 0 <= i < |os| ==> !SameKind(os[i], p)
    ensures Holds(ApplyAll(opts, os), p)
    decreases |os|
  {
    if os != [] {
      UnsetFieldKept(opts, os[..|os| - 1], p);
      assert !SameKind(os[|os| - 1], p);
    }
  }

  /** With no options, `Do` runs with 4 attempts, the default backoff and full jitter. */
  lemma DefaultOptions()
    ensures var o := ApplyAll(Defaults, []);
            && o.attempts == 4
            && o.backoff == ExpBackoff(100 * Millisecond, 2 * Second, 2.0)
            && o.budget == null && o.jitter == FullJitter && o.timeout == 0
  {
  }
}
