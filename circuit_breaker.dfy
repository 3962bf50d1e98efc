/**
 * `CircuitBreaker` (transform/CircuitBreaker.java): after `failLimit`
 * qualifying failures the circuit opens, and selects fail fast with
 * `Tripped(lastError)` until `halfOpenTimeout` milliseconds have passed
 * since the last failure. The clock is a parameter (`now`).
 */
module CircuitBreaker {
  import opened Outcomes
  import Try
  import Recover
  import Retry

  /** `CircuitBreaker.Partial`: the limit, the timeout and the guard. */
  datatype Config = Config(failLimit: int, halfOpenTimeout: int, guard: Error -> Outcome<bool>)

  /** `CircuitBreaker.of(failLimit, halfOpenTimeout)`, with the default guard `t -> true`. */
  function Of(failLimit: int, halfOpenTimeout: int): (c: Config)
    ensures c.failLimit == failLimit && c.halfOpenTimeout == halfOpenTimeout
    ensures forall t :: c.guard(t) == Ok(true)
  {
    Config(failLimit, halfOpenTimeout, (t: Error) => Ok(true))
  }

  /** `Partial.guard(predicate)`. */
  function Guard(c: Config, guard: Error -> Outcome<bool>): (d: Config)
    ensures d.failLimit == c.failLimit && d.halfOpenTimeout == c.halfOpenTimeout && d.guard == guard
  {
    c.(guard := guard)
  }

  /** The mutable fields `failCount`, `lastFailTime` and `lastError`. */
  datatype Tally = Tally(failCount: int, lastFailTime: int, lastError: Option<Error>)

  /** The fields of a new breaker, and after every success. */
  const Closed: Tally := Tally(0, 0, None)

  /** `isCircuitOpen`. */
  predicate IsOpen(c: Config, s: Tally, now: int) {
    s.failCount >= c.failLimit && now - s.lastFailTime < c.halfOpenTimeout
  }

  /** The breaker's fields are consistent: a count is never negative and a counted failure is recorded. */
  predicate Valid(s: Tally) {
    s.failCount >= 0 && (s.failCount == 0 <==> s.lastError.None?)
  }

  /** What a callback passes on, and the fields it leaves behind. */
  datatype Reply<T> = Reply(signal: Signal<T>, tally: Tally)

  /** The inner `Case.error(t)` at time `now`. */
  function AfterError<T>(c: Config, s: Tally, now: int, t: Error): (r: Reply<T>)
  {
    match c.guard(t)
    case Ok(true) => Reply(Deliver(Err(t)), Tally(s.failCount + 1, now, Some(t)))
    case Ok(false) => Reply(Deliver(Err(t)), s)
    case Err(e) => Reply(CatchRuntime(e), s)
  }

  /** One select: what reaches the continuation, whether the source was selected, and the new fields. */
  datatype Stepped<T> = Stepped(signal: Signal<T>, selected: bool, tally: Tally)

  /** `CircuitBreaker.select` at time `now`, for a source that answers with `inner` when selected. */
  function Step<T>(c: Config, s: Tally, now: int, inner: Signal<T>): (r: Stepped<T>)
  {
    if c.failLimit < 1 then Stepped(inner, true, s)
    else if IsOpen(c, s, now) then Stepped(Deliver(Err(Tripped(s.lastError))), false, s)
    else match inner
      case Deliver(Ok(t)) => Stepped(Deliver(Ok(t)), true, Closed)
      case Deliver(Err(t)) =>
        var r := AfterError(c, s, now, t);
        Stepped(r.signal, true, r.tally)
      case Escape(e) => Stepped(Escape(e), true, s)
      case Quiet => Stepped(Quiet, true, s)
  }

  /**
   * The breaker object. `OnOk` and `OnError` are the callbacks of the case
   * it passes to its source; a source that answers later calls them then.
   */
  class Breaker<T> {
    const config: Config
    var failCount: int
    var lastFailTime: int
    var lastError: Option<Error>

    function State(): Tally
      reads this
    {
      Tally(failCount, lastFailTime, lastError)
    }

    constructor(config: Config)
      ensures this.config == config && State() == Closed
    {
      this.config := config;
      failCount, lastFailTime, lastError := 0, 0, None;
    }

    /** The inner `ok(t)`: reset, then forward. */
    method OnOk(t: T) returns (s: Signal<T>)
      modifies this
      ensures s == Deliver(Ok(t)) && State() == Closed
    {
      failCount, lastFailTime, lastError := 0, 0, None;
      s := Deliver(Ok(t));
    }

    /** The inner `error(t)` at time `now`. */
    method OnError(now: int, t: Error) returns (s: Signal<T>)
      modifies this
      ensures Reply(s, State()) == AfterError(config, old(State()), now, t)
    {
      var shouldCount := config.guard(t);
      if shouldCount.Err? {
        s := CatchRuntime(shouldCount.error);
        return;
      }
      if shouldCount.value {
        failCount := failCount + 1;
        lastFailTime := now;
        lastError := Some(t);
      }
      s := Deliver(Err(t));
    }

    /** `select` at time `now`; `inner` is what the source does if it is selected. */
    method Select(now: int, inner: Signal<T>) returns (s: Signal<T>, selected: bool)
      modifies this
      ensures Stepped(s, selected, State()) == Step(config, old(State()), now, inner)
    {
      if config.failLimit < 1 {
        return inner, true;
      }
      var isCircuitOpen := failCount >= config.failLimit && now - lastFailTime < config.halfOpenTimeout;
      if isCircuitOpen {
        return Deliver(Err(Tripped(lastError))), false;
      }
      selected := true;
      match inner {
        case Deliver(Ok(t)) => s := OnOk(t);
        case Deliver(Err(t)) => s := OnError(now, t);
        case Escape(e) => s := inner;
        case Quiet => s := inner;
      }
    }
  }

  // ---------------------------------------------------------------------
  // Properties of one select

  /** With `failLimit < 1` the breaker is transparent and keeps its fields. */
  lemma DisabledIsTransparent<T>(c: Config, s: Tally, now: int, inner: Signal<T>)
    requires c.failLimit < 1
    ensures Step(c, s, now, inner) == Stepped(inner, true, s)
  {
  }

  /** An open circuit fails fast with the last error and does not select the source. */
  lemma OpenFailsFast<T>(c: Config, s: Tally, now: int, inner: Signal<T>)
    requires c.failLimit >= 1 && IsOpen(c, s, now)
    ensures Step(c, s, now, inner) == Stepped(Deliver(Err(Tripped(s.lastError))), false, s)
  {
  }

  /** The source is selected exactly when the breaker is disabled or closed. */
  lemma SelectedIffNotOpen<T>(c: Config, s: Tally, now: int, inner: Signal<T>)
    ensures Step(c, s, now, inner).selected <==> c.failLimit < 1 || !IsOpen(c, s, now)
  {
  }

  /** Once selected: a success resets, a counted failure is stamped, an uncounted one changes nothing. */
  lemma ClosedOutcomes<T>(c: Config, s: Tally, now: int, inner: Signal<T>)
    requires c.failLimit >= 1 && !IsOpen(c, s, now)
    ensures inner.Deliver? && inner.outcome.Ok? ==> Step(c, s, now, inner) == Stepped(inner, true, Closed)
    ensures inner.Deliver? && inner.outcome.Err? && c.guard(inner.outcome.error) == Ok(true) ==>
              Step(c, s, now, inner) == Stepped(inner, true, Tally(s.failCount + 1, now, Some(inner.outcome.error)))
    ensures inner.Deliver? && inner.outcome.Err? && c.guard(inner.outcome.error) == Ok(false) ==>
              Step(c, s, now, inner) == Stepped(inner, true, s)
    ensures inner.Deliver? && inner.outcome.Err? && c.guard(inner.outcome.error).Err? ==>
              Step(c, s, now, inner) == Stepped(CatchRuntime(c.guard(inner.outcome.error).error), true, s)
  {
  }

  /** Every select keeps the fields consistent. */
  lemma StepKeepsValid<T>(c: Config, s: Tally, now: int, inner: Signal<T>)
    requires Valid(s)
    ensures Valid(Step(c, s, now, inner).tally)
  {
  }

  /** From a consistent state, `Tripped` always carries the error that opened the circuit, never null. */
  lemma TrippedHasCause<T>(c: Config, s: Tally, now: int, inner: Signal<T>)
    requires Valid(s) && c.failLimit >= 1 && IsOpen(c, s, now)
    ensures Step(c, s, now, inner).signal == Deliver(Err(Tripped(Some(s.lastError.value))))
  {
  }

  /**
   * Half-open: once `halfOpenTimeout` has passed the source is tried again,
   * and a further counted failure reopens the circuit for another timeout.
   */
  lemma HalfOpenRetriesThenReopens<T>(c: Config, s: Tally, now: int, x: Error, later: int)
    requires c.failLimit >= 1 && s.failCount >= c.failLimit && now - s.lastFailTime >= c.halfOpenTimeout
    requires c.guard(x) == Ok(true) && now <= later < now + c.halfOpenTimeout
    ensures Step(c, s, now, Signal<T>.Deliver(Err(x))).selected
    ensures IsOpen(c, Step(c, s, now, Signal<T>.Deliver(Err(x))).tally, later)
  {
  }

  // ---------------------------------------------------------------------
  // Successive selects

  /** What successive selects of one breaker produce, with the number of source selects. */
  datatype Trace<T> = Trace(outputs: seq<Signal<T>>, selected: nat, tally: Tally)

  /**
   * The breaker selected at the times `nows`, over a source whose k-th
   * select does `inners[k]`. The trace stops when the source is needed and
   * no more of its answers are supplied.
   */
  function Feed<T>(c: Config, s: Tally, nows: seq<int>, inners: seq<Signal<T>>): (r: Trace<T>)
    decreases |nows|
  {
    if |nows| == 0 then Trace([], 0, s)
    else if c.failLimit >= 1 && IsOpen(c, s, nows[0]) then
      var rest := Feed(c, s, nows[1..], inners);
      Trace([Deliver(Err(Tripped(s.lastError)))] + rest.outputs, rest.selected, rest.tally)
    else if |inners| == 0 then Trace([], 0, s)
    else
      var st := Step(c, s, nows[0], inners[0]);
      var rest := Feed(c, st.tally, nows[1..], inners[1..]);
      Trace([st.signal] + rest.outputs, rest.selected + 1, rest.tally)
  }

  /**
   * A source that always fails with a counted error `x`, selected at one
   * instant: the breaker lets exactly the remaining `failLimit - j` selects
   * through, forwarding the error, and trips on every select after that.
   */
  lemma {:induction false} FailuresTrip<T>(c: Config, s: Tally, t: int, x: Error, m: nat)
    requires c.failLimit >= 1 && c.halfOpenTimeout > 0 && c.guard(x) == Ok(true)
    requires s.failCount > 0 ==> s.lastFailTime == t && s.lastError == Some(x)
    requires 0 <= s.failCount <= c.failLimit && m >= c.failLimit - s.failCount
    ensures var n := c.failLimit - s.failCount;
            Feed(c, s, Repeat(t, m), Repeat(Signal<T>.Deliver(Err(x)), n)) ==
            Trace(Repeat(Deliver(Err(x)), n) + Repeat(Deliver(Err(Tripped(Some(x)))), m - n),
                  n, Tally(c.failLimit, t, Some(x)))
    decreases m
  {
    var n := c.failLimit - s.failCount;
    if n == 0 {
      OpenTrips<T>(c, s, t, m, Repeat(Signal<T>.Deliver(Err(x)), 0));
      assert Repeat(Signal<T>.Deliver(Err(x)), 0) + Repeat(Deliver(Err(Tripped(Some(x)))), m) == Repeat(Deliver(Err(Tripped(Some(x)))), m);
    } else {
      var s' := Tally(s.failCount + 1, t, Some(x));
      FeedCountedStep<T>(c, s, t, x, m, n);
      FailuresTrip<T>(c, s', t, x, m - 1);
      assert Repeat(Signal<T>.Deliver(Err(x)), n) + Repeat(Deliver(Err(Tripped(Some(x)))), m - n) ==
             [Deliver(Err(x))] + (Repeat(Signal<T>.Deliver(Err(x)), n - 1) + Repeat(Deliver(Err(Tripped(Some(x)))), m - n));
    }
  }

  /** An open breaker selected at the time of its last failure trips every time, never selecting its source. */
  lemma {:induction false} OpenTrips<T>(c: Config, s: Tally, t: int, m: nat, inners: seq<Signal<T>>)
    requires c.failLimit >= 1 && c.halfOpenTimeout > 0 && s.failCount >= c.failLimit && s.lastFailTime == t
    ensures Feed(c, s, Repeat(t, m), inners) == Trace(Repeat(Deliver(Err(Tripped(s.lastError))), m), 0, s)
    decreases m
  {
    if m > 0 {
      FeedOpenStep(c, s, t, m, inners);
      OpenTrips(c, s, t, m - 1, inners);
      assert Repeat(Signal<T>.Deliver(Err(Tripped(s.lastError))), m) ==
             [Deliver(Err(Tripped(s.lastError)))] + Repeat(Signal<T>.Deliver(Err(Tripped(s.lastError))), m - 1);
    }
  }

  /** One select of an open breaker at the time of its last failure. */
  lemma FeedOpenStep<T>(c: Config, s: Tally, t: int, m: nat, inners: seq<Signal<T>>)
    requires c.failLimit >= 1 && c.halfOpenTimeout > 0 && s.failCount >= c.failLimit && s.lastFailTime == t && m > 0
    ensures var rest := Feed(c, s, Repeat(t, m - 1), inners);
      Feed(c, s, Repeat(t, m), inners) == Trace([Deliver(Err(Tripped(s.lastError)))] + rest.outputs, rest.selected, rest.tally)
  {
    assert Repeat(t, m)[1..] == Repeat(t, m - 1);
  }

  /** One select of a closed breaker whose source fails with a counted error. */
  lemma FeedCountedStep<T>(c: Config, s: Tally, t: int, x: Error, m: nat, n: nat)
    requires c.failLimit >= 1 && c.guard(x) == Ok(true) && s.failCount < c.failLimit && m > 0 && n > 0
    ensures var rest := Feed(c, Tally(s.failCount + 1, t, Some(x)), Repeat(t, m - 1), Repeat(Signal<T>.Deliver(Err(x)), n - 1));
      Feed(c, s, Repeat(t, m), Repeat(Signal<T>.Deliver(Err(x)), n)) == Trace([Deliver(Err(x))] + rest.outputs, rest.selected + 1, rest.tally)
  {
    assert Repeat(t, m)[1..] == Repeat(t, m - 1);
    assert Repeat(Signal<T>.Deliver(Err(x)), n)[1..] == Repeat(Signal<T>.Deliver(Err(x)), n - 1);
    assert Step(c, s, t, Signal<T>.Deliver(Err(x))) == Stepped(Deliver(Err(x)), true, Tally(s.failCount + 1, t, Some(x)));
  }

  // ---------------------------------------------------------------------
  // A breaker under a retry

  /** The guard `t -> t instanceof X` for the exception kind `x`. */
  function IsKind(x: Error): (g: Error -> Outcome<bool>)
    ensures forall e :: g(e) == Ok(e == x)
  {
    (e: Error) => Ok(e == x)
  }

  /** `Retry.forever()` retries, on the caller's thread, every attempt in `k..n` that fails with an accepted `x`. */
  lemma {:induction false} RetriesThrough<T>(p: Retry.Partial, attempts: seq<Signal<T>>, k: nat, n: nat, x: Error)
    requires p.maxRetries < 1 && p.guard(x) == Ok(true) && forall i :: p.delay(i) == Ok(0)
    requires k <= n < |attempts| && forall i :: k <= i < n ==> attempts[i] == Deliver(Err(x))
    ensures Retry.Drive(p, attempts, k, false, false) == Retry.Drive(p, attempts, n, false, false)
    decreases n - k
  {
    if k < n {
      assert p.delay(k) == Ok(0);
      RetriesThrough(p, attempts, k + 1, n, x);
    }
  }

  /**
   * A source that always raises `x`, recovered by a handler that counts
   * and rethrows, behind a breaker of limit `limit`, behind
   * `Retry.forever()` that retries only `x`, all selected at one instant:
   * the source (and so the handler) is selected exactly `limit` times, then
   * the breaker's Tripped error is not retried, and `unwrap` throws it.
   */
  lemma TripStopsRetry(limit: int, timeout: int, x: Error, t: int, m: nat)
    requires 1 <= limit < m && timeout > 0 && !x.Tripped?
    ensures var raised := Recover.Select(Try.Raise<int>(Some(x)).value, Recover.From<int>((e: Error) => Err(e)));
      var fed := Feed(Of(limit, timeout), Closed, Repeat(t, m), Repeat(raised, limit));
      var run := Retry.Drive(Retry.Guard(Retry.Forever(), IsKind(x)), fed.outputs, 0, false, false);
      raised == Deliver(Err(x)) && fed.selected == limit &&
      run == Retry.Run(Retry.Settled(Err(Tripped(Some(x)))), limit + 1) &&
      Try.Unwrap(Deliver(run.result.outcome)) == Try.Throws(Tripped(Some(x)))
  {
    var raised := Recover.Select(Try.Raise<int>(Some(x)).value, Recover.From<int>((e: Error) => Err(e)));
    Recover.FromRethrowIsIdentity<int>(Deliver(Err(x)));
    assert raised == Deliver(Err(x));
    var c := Of(limit, timeout);
    FailuresTrip<int>(c, Closed, t, x, m);
    var fed := Feed(c, Closed, Repeat(t, m), Repeat(raised, limit));
    RetryStopsAtTripped(limit, x, fed.outputs, m);
  }

  /** What the retry makes of the breaker's outputs: `limit` retried failures, then Tripped, forwarded. */
  lemma RetryStopsAtTripped(limit: int, x: Error, outs: seq<Signal<int>>, m: nat)
    requires 1 <= limit < m && !x.Tripped?
    requires outs == Repeat(Deliver(Err(x)), limit) + Repeat(Deliver(Err(Tripped(Some(x)))), m - limit)
    ensures var run := Retry.Drive(Retry.Guard(Retry.Forever(), IsKind(x)), outs, 0, false, false);
      run == Retry.Run(Retry.Settled(Err(Tripped(Some(x)))), limit + 1) &&
      Try.Unwrap(Deliver(run.result.outcome)) == Try.Throws(Tripped(Some(x)))
  {
    var p := Retry.Guard(Retry.Forever(), IsKind(x));
    var fails, trips := Repeat(Deliver(Err(x)), limit), Repeat(Deliver(Err(Tripped(Some(x)))), m - limit);
    assert |fails| == limit && outs == fails + trips;
    assert forall i :: 0 <= i < limit ==> outs[i] == fails[i];
    RetriesThrough(p, outs, 0, limit, x);
    assert outs[limit] == trips[0];
    assert p.guard(Tripped(Some(x))) == Ok(false);
  }
}
