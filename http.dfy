/**
 * The HTTP side of http.go: how `Transport` classifies a round trip, the "Retry-Attempt"
 * header it sets on re-sent requests, and how `BudgetHandler` rewrites responses when the
 * server is in overload.
 */
module Http {
  import opened Wrappers
  import opened Errors
  import opened Budgets
  import opened RetryOptions
  import opened Engine
  import opened EngineProperties

  const StatusLocked := 423
  const StatusNotImplemented := 501
  const StatusTooManyRequests := 429

  /** A status code that asks for a retry: 5xx except 501, and 423 "Locked". */
  predicate TemporaryErrorCode(c: int)
    ensures TemporaryErrorCode(c) ==> 400 <= c < 600
  {
    (500 <= c < 600 && c != StatusNotImplemented) || c == StatusLocked
  }

  /** A status code that reports a lasting failure: 4xx except 423, and 501 "Not Implemented". */
  predicate PermanentErrorCode(c: int)
    ensures PermanentErrorCode(c) ==> 400 <= c < 600
  {
    (400 <= c < 500 && c != StatusLocked) || c == StatusNotImplemented
  }

  /**
   * The two classes are disjoint and together make up exactly the 4xx and 5xx codes; the
   * exceptions are 423 (temporary) and 501 (permanent).
   */
  lemma CodeClasses(c: int)
    ensures !(TemporaryErrorCode(c) && PermanentErrorCode(c))
    ensures TemporaryErrorCode(c) || PermanentErrorCode(c) <==> 400 <= c < 600
    ensures TemporaryErrorCode(c) <==> (500 <= c < 600 || c == 423) && c != 501
  {
  }

  // ---------------------------------------------------------------- headers

  /** `http.Header`, keyed by canonical header names. */
  type Header = map<string, seq<string>>

  const RetryAttempt := "Retry-Attempt"
  const RetryAfter := "Retry-After"

  /** `h.Get(key)`: the first value, or "" when there is none. */
  function Get(h: Header, key: string): string
  {
    if key in h && |h[key]| > 0 then h[key][0] else ""
  }

  function DigitChar(d: nat): char
    requires d < 10
  {
    "0123456789"[d]
  }

  function DigitValue(c: char): nat
  {
    if '0' <= c <= '9' then (c as int - '0' as int) as nat else 0
  }

  /** The decimal digits of `n`, most significant first. */
  function Decimal(n: nat): (s: string)
    ensures |s| > 0
    decreases n
  {
    if n < 10 then [DigitChar(n)] else Decimal(n / 10) + [DigitChar(n % 10)]
  }

  /** `strconv.Itoa(n)` */
  function Itoa(n: int): (s: string)
    ensures s != ""
  {
    if n < 0 then "-" + Decimal(-n) else Decimal(n)
  }

  /** The value of a string of decimal digits. */
  function ParseDecimal(s: string): nat
  {
    if s == [] then 0 else 10 * ParseDecimal(s[..|s| - 1]) + DigitValue(s[|s| - 1])
  }

  /** Reading back the digits `Itoa` writes gives the number again. */
  lemma {:induction false} DecimalRoundTrip(n: nat)
    ensures ParseDecimal(Decimal(n)) == n
    decreases n
  {
    var s := Decimal(n);
    if n >= 10 {
      DecimalRoundTrip(n / 10);
      assert s[..|s| - 1] == Decimal(n / 10);
    }
  }

  /**
   * The header of the request that attempt `a` sends: from the second attempt on,
   * `req.Header.Set("Retry-Attempt", strconv.Itoa(a))`; the first attempt sends it unchanged.
   */
  function MarkAttempt(h: Header, a: int): (h': Header)
    ensures a > 0 ==> RetryAttempt in h' && h'[RetryAttempt] == [Itoa(a)]
    ensures a <= 0 ==> h' == h
    ensures forall k :: k != RetryAttempt ==> (k in h' <==> k in h) && (k in h ==> h'[k] == h[k])
  {
    if a > 0 then h[RetryAttempt := [Itoa(a)]] else h
  }

  /** `req.Header.Get("Retry-Attempt") != ""`: the server's test for a retried request. */
  predicate IsRetry(h: Header)
    ensures IsRetry(h) ==> RetryAttempt in h && |h[RetryAttempt]| > 0
  {
    Get(h, RetryAttempt) != ""
  }

  /**
   * The header carries the retry count: a server sees attempt `a > 0` as a retry and reads
   * `a` back from the header; the first attempt is a retry only if the caller marked it so.
   */
  lemma RetryAttemptHeader(h: Header, a: int)
    ensures a > 0 ==> IsRetry(MarkAttempt(h, a)) && ParseDecimal(Get(MarkAttempt(h, a), RetryAttempt)) == a
    ensures a <= 0 ==> (IsRetry(MarkAttempt(h, a)) <==> IsRetry(h))
  {
    if a > 0 {
      DecimalRoundTrip(a);
    }
  }

  /**
   * `RoundTrip` sets the mark on the caller's request header in place, attempt after
   * attempt. Each retry overwrites the previous mark, so the header attempt `b` sends is the
   * original header marked once with `b`, whatever attempt marked it before.
   */
  lemma MarkOverwrites(h: Header, a: int, b: int)
    requires 0 <= a < b
    ensures MarkAttempt(MarkAttempt(h, a), b) == MarkAttempt(h, b)
  {
  }

  // ---------------------------------------------------------------- the transport

  /** The part of an `*http.Response` the transport inspects. */
  datatype Response = Response(statusCode: int, status: string, header: Header)

  /** What the underlying round tripper returns: an error, or a response. */
  datatype RoundTripResult = TransportError(err: Error) | Received(res: Response)

  /** `checkResponse(res, err)`: the error handed back to the retry loop, if any. */
  function CheckResponse(r: RoundTripResult): (e: Option<Error>)
    ensures r.TransportError? ==> e.Some?
    ensures r.Received? && e.Some? ==> e.value == Message(r.res.status)
  {
    match r
    case TransportError(err) => if ImplementsError(err) then Some(err) else Some(Abort(err))
    case Received(res) =>
      if TemporaryErrorCode(res.statusCode) then Some(Message(res.status))
      else if PermanentErrorCode(res.statusCode) && RetryAfter in res.header then Some(Message(res.status))
      else None
  }

  /**
   * The transport's retry decision: a response is retried exactly when its status is
   * temporary, or permanent with a "Retry-After" header, and every other response (2xx, 3xx,
   * other 4xx) is handed to the caller. A transport error that does not implement `Error` is
   * not retried and surfaces unwrapped; one that does is classified by its `Temporary()`.
   */
  lemma TransportClassification(r: RoundTripResult)
    ensures r.Received? ==>
              (CheckResponse(r).Some? <==>
                 TemporaryErrorCode(r.res.statusCode) ||
                 (PermanentErrorCode(r.res.statusCode) && RetryAfter in r.res.header))
    ensures r.Received? && CheckResponse(r).Some? ==> !StopsRetrying(CheckResponse(r).value)
    ensures r.TransportError? && !ImplementsError(r.err) ==>
              StopsRetrying(CheckResponse(r).value) && Surfaced(CheckResponse(r).value) == r.err
    ensures r.TransportError? && ImplementsError(r.err) ==> CheckResponse(r) == Some(r.err)
    ensures r.Received? && 200 <= r.res.statusCode < 400 ==> CheckResponse(r) == None
  {
  }

  /** The callback `RoundTrip` passes to `Do`: mark the attempt, send, check the result. */
  function TransportCallback(rt: (Context, Header) -> RoundTripResult, h: Header): (cb: Context -> Option<Error>)
    ensures forall ctx :: cb(ctx) == None ==> rt(ctx, MarkAttempt(h, Attempt(ctx))).Received?
  {
    (ctx: Context) => CheckResponse(rt(ctx, MarkAttempt(h, Attempt(ctx))))
  }

  /** How `RoundTrip` ends: with a response and/or an error, or still retrying when `env` runs out. */
  datatype TransportResult = Responded(response: Option<Response>, err: Option<Error>) | StillRetrying

  /**
   * `t.RoundTrip(req)`: `Do` with the transport's options and the callback above; on success
   * the response of the last call is returned, otherwise no response and `Do`'s error.
   */
  function RoundTrip(os: seq<DoOption>, budget: Option<BudgetModel>, rt: (Context, Header) -> RoundTripResult,
                     h: Header, ctx: Context, ctxErr: Error, env: seq<AttemptEnv>): (t: TransportResult)
    requires budget.Some? ==> budget.value.Valid()
    ensures t.Responded? && t.err.Some? ==> t.response.None?
  {
    var opts := ApplyAll(Defaults, os);
    var run := DoSpec(opts, budget, ctx, ctxErr, TransportCallback(rt, h), env);
    match run.outcome
    case Unfinished => StillRetrying
    case Returned(err) =>
      if err.Some? then Responded(None, err)
      else if run.calls == 0 then Responded(None, None)
      else
        var last := WithAttempt(ctx, run.calls - 1);
        var r := rt(last, MarkAttempt(h, Attempt(last)));
        Responded(if r.Received? then Some(r.res) else None, None)
  }

  /**
   * `RoundTrip` returns a response or an error, never both; after a successful round trip
   * (with a non-negative attempt count and no per-attempt timeout) it returns the response of
   * the last call, and that response is one the transport does not retry: its status is
   * neither temporary nor permanent with "Retry-After".
   */
  lemma RoundTripResponseFinal(os: seq<DoOption>, budget: Option<BudgetModel>, rt: (Context, Header) -> RoundTripResult,
                               h: Header, ctx: Context, ctxErr: Error, env: seq<AttemptEnv>)
    requires budget.Some? ==> budget.value.Valid()
    requires ApplyAll(Defaults, os).timeout == 0
    ensures var t := RoundTrip(os, budget, rt, h, ctx, ctxErr, env);
            && (t.Responded? && t.err.Some? ==> t.response.None?)
            && (t.Responded? && t.err.None? && ApplyAll(Defaults, os).attempts >= 0 ==> t.response.Some?)
            && (t.Responded? && t.response.Some? ==>
                  !TemporaryErrorCode(t.response.value.statusCode) &&
                  !(PermanentErrorCode(t.response.value.statusCode) && RetryAfter in t.response.value.header))
  {
    var opts := ApplyAll(Defaults, os);
    var cb := TransportCallback(rt, h);
    ReturnedErrorProvenance(opts, budget, ctx, ctxErr, cb, env);
    var run := DoSpec(opts, budget, ctx, ctxErr, cb, env);
    if run.outcome == Returned(None) && run.calls > 0 {
      var last := WithAttempt(ctx, run.calls - 1);
      assert Delivered(opts, cb, ctx, env, run.calls - 1) == cb(last);
      TransportClassification(rt(last, MarkAttempt(h, Attempt(last))));
    }
  }

  /**
   * `testTransport`: answers call `a` with `status[a]`, checking the "Retry-Attempt" header
   * first; a retry whose header disagrees with the attempt, or a call past the last status
   * code, gets a transport error instead.
   */
  function TestTransport(status: seq<int>): (rt: (Context, Header) -> RoundTripResult)
    ensures forall ctx, h :: rt(ctx, h).Received? <==>
              (0 <= Attempt(ctx) < |status| && (Attempt(ctx) == 0 || Get(h, RetryAttempt) == Itoa(Attempt(ctx))))
    ensures forall ctx, h :: rt(ctx, h).Received? ==> rt(ctx, h).res == Response(status[Attempt(ctx)], "", map[])
  {
    (ctx: Context, h: Header) =>
      var a := Attempt(ctx);
      if a != 0 && Get(h, RetryAttempt) != Itoa(a) then TransportError(Message("wrong Retry-Attempt"))
      else if a < 0 || a >= |status| then TransportError(Message("no more status codes"))
      else Received(Response(status[a], "", map[]))
  }

  /**
   * `TestTransport`: 500 then 200 succeeds with 200; 599 then 403 succeeds with 403 (403 is
   * not retried); 503, 502, 200 with `Attempts(2)` fails with the 502.
   */
  lemma TransportVectors(ctx: Context, ctxErr: Error, env: seq<AttemptEnv>)
    requires |env| >= 2 && Calm(env)
    ensures RoundTrip([], None, TestTransport([500, 200]), map[], ctx, ctxErr, env)
            == Responded(Some(Response(200, "", map[])), None)
    ensures RoundTrip([], None, TestTransport([599, 403]), map[], ctx, ctxErr, env)
            == Responded(Some(Response(403, "", map[])), None)
    ensures RoundTrip([AttemptsOption(2)], None, TestTransport([503, 502, 200]), map[], ctx, ctxErr, env)
            == Responded(None, Some(Message("")))
  {
    AttemptRoundTrip(ctx, 0);
    AttemptRoundTrip(ctx, 1);
    RetryAttemptHeader(map[], 1);
    TwoCalls(TestTransport([500, 200]), ctx, ctxErr, env);
    TwoCalls(TestTransport([599, 403]), ctx, ctxErr, env);
    var opts := ApplyAll(Defaults, [AttemptsOption(2)]);
    assert [AttemptsOption(2)][..0] == [];
    assert opts == Defaults.(attempts := 2);
    var cb := TransportCallback(TestTransport([503, 502, 200]), map[]);
    var w0, w1 := WithAttempt(ctx, 0), WithAttempt(ctx, 1);
    assert cb(w0) == CheckResponse(TestTransport([503, 502, 200])(w0, MarkAttempt(map[], 0)));
    assert cb(w1) == CheckResponse(TestTransport([503, 502, 200])(w1, MarkAttempt(map[], 1)));
    assert Delivered(opts, cb, ctx, env, 0) == cb(w0) == Some(Message(""));
    assert Delivered(opts, cb, ctx, env, 1) == cb(w1) == Some(Message(""));
    NoBudgetAdmits(opts, env, 0);
    ExhaustionReturnsLastError(opts, None, ctx, ctxErr, cb, env);
  }

  /** Two calls with the default options: a retried failure, then a response that is not retried. */
  lemma TwoCalls(rt: (Context, Header) -> RoundTripResult, ctx: Context, ctxErr: Error, env: seq<AttemptEnv>)
    requires |env| >= 2 && Calm(env)
    requires var d := CheckResponse(rt(WithAttempt(ctx, 0), map[])); d.Some? && !StopsRetrying(d.value)
    requires CheckResponse(rt(WithAttempt(ctx, 1), MarkAttempt(map[], 1))) == None
    ensures var run := DoSpec(Defaults, None, ctx, ctxErr, TransportCallback(rt, map[]), env);
            run.outcome == Returned(None) && run.calls == 2
  {
    AttemptRoundTrip(ctx, 0);
    AttemptRoundTrip(ctx, 1);
    var cb := TransportCallback(rt, map[]);
    var w0 := WithAttempt(ctx, 0);
    assert cb(w0) == CheckResponse(rt(w0, MarkAttempt(map[], Attempt(w0))));
    assert MarkAttempt(map[], 0) == map[];
    assert Delivered(Defaults, cb, ctx, env, 0) == cb(w0);
    assert Delivered(Defaults, cb, ctx, env, 1) == CheckResponse(rt(WithAttempt(ctx, 1), MarkAttempt(map[], 1)));
    RetryStep(Defaults, ctx, ctxErr, cb, env, 0, None, []);
  }

  // ---------------------------------------------------------------- the server side

  /** The status `overloadResponseWriter.WriteHeader` writes: temporary codes become 429. */
  function OverloadStatus(c: int): (s: int)
    ensures !TemporaryErrorCode(s)
    ensures TemporaryErrorCode(c) ==> s == StatusTooManyRequests && PermanentErrorCode(s)
    ensures !TemporaryErrorCode(c) ==> s == c
  {
    if TemporaryErrorCode(c) then StatusTooManyRequests else c
  }

  /**
   * In overload no response invites a retry: whatever status the handler writes, the rewritten
   * response, stripped of "Retry-After", is one the client transport hands back without retrying.
   */
  lemma OverloadedResponsesNotRetried(c: int, status: string, h: Header)
    ensures CheckResponse(Received(Response(OverloadStatus(c), status, h - {RetryAfter}))) == None
    ensures OverloadStatus(OverloadStatus(c)) == OverloadStatus(c)
  {
  }

  /** An `http.ResponseWriter`: its header map and the status codes written so far. */
  class ResponseWriter {
    var header: Header
    var written: seq<int>

    constructor ()
      ensures header == map[] && written == []
    {
      header, written := map[], [];
    }

    method WriteHeader(code: int)
      modifies this
      ensures header == old(header) && written == old(written) + [code]
    {
      written := written + [code];
    }
  }

  /** `overloadResponseWriter`: wraps the writer of a request served in overload. */
  class OverloadResponseWriter {
    const inner: ResponseWriter

    constructor (w: ResponseWriter)
      ensures inner == w
    {
      inner := w;
    }

    /** Drops "Retry-After" and turns a temporary status into 429 before writing it. */
    method WriteHeader(statusCode: int)
      modifies inner
      ensures inner.header == old(inner.header) - {RetryAfter}
      ensures inner.written == old(inner.written) + [OverloadStatus(statusCode)]
    {
      inner.header := inner.header - {RetryAfter};
      var code := statusCode;
      if TemporaryErrorCode(code) {
        code := StatusTooManyRequests;
      }
      inner.WriteHeader(code);
    }
  }

  /**
   * `BudgetHandler.ServeHTTP` for a handler that writes the status `status`: in overload (as
   * decided by `overload` for this request's retry flag) the status goes through the overload
   * writer, otherwise unchanged.
   */
  method ServeHTTP(w: ResponseWriter, req: Header, overload: bool -> bool, status: int)
    modifies w
    ensures var over := overload(IsRetry(req));
            && w.written == old(w.written) + [if over then OverloadStatus(status) else status]
            && w.header == if over then old(w.header) - {RetryAfter} else old(w.header)
  {
    var isRetry := Get(req, RetryAttempt) != "";
    if overload(isRetry) {
      var ow := new OverloadResponseWriter(w);
      ow.WriteHeader(status);
    } else {
      w.WriteHeader(status);
    }
  }
}
