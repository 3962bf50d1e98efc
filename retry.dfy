/**
 * `Retry` (transform/Retry.java): re-selects a failing source while a
 * guard predicate allows it, up to `maxRetries` retries (unbounded when
 * `maxRetries < 1`), waiting `delay(retries)` milliseconds between attempts.
 *
 * The source is modelled by the signals its successive selects produce:
 * `attempts[k]` is what the (k+1)-th select of the source does. A retry
 * with a positive delay runs on the scheduler's thread, so an exception
 * that is not caught there is lost instead of reaching the caller.
 */
module Retry {
  import opened Outcomes

  /** `Retry.Partial`: the limit, the guard and the backoff. */
  datatype Partial = Partial(maxRetries: int, guard: Error -> Outcome<bool>, delay: int -> Outcome<int>)

  /** `Retry.until(n)`, with the defaults `t -> true` and `i -> 0L`. */
  function Until(maxRetries: int): (p: Partial)
    ensures p.maxRetries == maxRetries
    ensures forall t :: p.guard(t) == Ok(true)
    ensures forall i :: p.delay(i) == Ok(0)
  {
    Partial(maxRetries, (t: Error) => Ok(true), (i: int) => Ok(0))
  }

  /** `Retry.forever()`: `until(0)`, i.e. no limit. */
  function Forever(): (p: Partial)
    ensures p.maxRetries < 1
  {
    Until(0)
  }

  /** `Partial.guard(predicate)`: replaces the guard only. */
  function Guard(p: Partial, guard: Error -> Outcome<bool>): (q: Partial)
    ensures q.maxRetries == p.maxRetries && q.delay == p.delay && q.guard == guard
  {
    p.(guard := guard)
  }

  /** `Partial.backoff(delay)`: replaces the delay only. */
  function Backoff(p: Partial, delay: int -> Outcome<int>): (q: Partial)
    ensures q.maxRetries == p.maxRetries && q.guard == p.guard && q.delay == delay
  {
    p.(delay := delay)
  }

  /** `canRetry = maxRetries < 1 || retries < maxRetries`. */
  predicate CanRetry(maxRetries: int, retries: nat) {
    maxRetries < 1 || retries < maxRetries
  }

  /**
   * How one outer select ends: the continuation eventually receives an
   * outcome; an exception escapes the outer `select` call; nothing ever
   * reaches the continuation or the caller; or the supplied attempts ran
   * out while the retry was still going.
   */
  datatype Settled<T> = Settled(outcome: Outcome<T>) | Thrown(thrown: Error) | Silent | Unsettled

  /** The end of one outer select, with the number of source selects it made. */
  datatype Run<T> = Run(result: Settled<T>, selects: nat)

  /**
   * An exception thrown inside the error handler: a RuntimeException is
   * caught and delivered; anything else climbs to the thread that started
   * the current chain of synchronous calls.
   */
  function Caught<T>(e: Error, hopped: bool): (s: Settled<T>)
  {
    if IsRuntime(e) then Settled(Err(e)) else if hopped then Silent else Thrown(e)
  }

  /**
   * The retry loop from attempt `k` on. `k` is also the value of the
   * `retries` counter; `hopped` says that some earlier retry was scheduled,
   * `scheduled` that the retry making attempt `k` was.
   */
  function Drive<T>(p: Partial, attempts: seq<Signal<T>>, k: nat, hopped: bool, scheduled: bool): (r: Run<T>)
    decreases |attempts| - k
  {
    if k >= |attempts| then Run(Unsettled, k)
    else match attempts[k]
      case Quiet => Run(Silent, k + 1)
      case Escape(e) =>
        Run(if k == 0 then Thrown(e) else if scheduled then Silent else Caught(e, hopped), k + 1)
      case Deliver(Ok(t)) => Run(Settled(Ok(t)), k + 1)
      case Deliver(Err(t)) =>
        if !CanRetry(p.maxRetries, k) then Run(Settled(Err(t)), k + 1)
        else match p.guard(t)
          case Err(e) => Run(Caught(e, hopped), k + 1)
          case Ok(false) => Run(Settled(Err(t)), k + 1)
          case Ok(true) =>
            (match p.delay(k)
             case Err(e) => Run(Caught(e, hopped), k + 1)
             case Ok(millis) => Drive(p, attempts, k + 1, hopped || millis > 0, millis > 0))
  }

  /**
   * `Retry.select`: one outer select. The `retries` counter starts at 0 for
   * every call; each retry calls `delay(retries)` before incrementing it.
   */
  method Select<T>(p: Partial, attempts: seq<Signal<T>>) returns (result: Settled<T>, selects: nat)
    ensures Run(result, selects) == Drive(p, attempts, 0, false, false)
  {
    var retries: nat := 0;
    var hopped, scheduled := false, false;
    while true
      invariant Drive(p, attempts, 0, false, false) == Drive(p, attempts, retries, hopped, scheduled)
      decreases |attempts| - retries
    {
      if retries >= |attempts| {
        return Unsettled, retries;
      }
      match attempts[retries] {
        case Quiet =>
          return Silent, retries + 1;
        case Escape(e) =>
          if retries == 0 {
            result := Thrown(e);
          } else if scheduled {
            result := Silent;
          } else {
            result := Caught(e, hopped);
          }
          return result, retries + 1;
        case Deliver(Ok(t)) =>
          return Settled(Ok(t)), retries + 1;
        case Deliver(Err(t)) =>
          var canRetry := p.maxRetries < 1 || retries < p.maxRetries;
          if !canRetry {
            return Settled(Err(t)), retries + 1;
          }
          var shouldRetry := p.guard(t);
          if shouldRetry.Err? {
            return Caught(shouldRetry.error, hopped), retries + 1;
          }
          if !shouldRetry.value {
            return Settled(Err(t)), retries + 1;
          }
          var millis := p.delay(retries);
          if millis.Err? {
            return Caught(millis.error, hopped), retries + 1;
          }
          retries := retries + 1;
          hopped, scheduled := hopped || millis.value > 0, millis.value > 0;
      }
    }
  }

  // ---------------------------------------------------------------------
  // Properties

  /** Every run makes at least one more select than it started from, and never more than the attempts supplied. */
  lemma {:induction false} SelectsInRange<T>(p: Partial, attempts: seq<Signal<T>>, k: nat, hopped: bool, scheduled: bool)
    requires k <= |attempts|
    ensures k <= Drive(p, attempts, k, hopped, scheduled).selects <= |attempts|
    ensures Drive(p, attempts, k, hopped, scheduled).result.Unsettled? <==>
            Drive(p, attempts, k, hopped, scheduled).selects == |attempts| && !EndsAt(p, attempts, |attempts| - 1, k)
    decreases |attempts| - k
  {
    if k < |attempts| && attempts[k].Deliver? && attempts[k].outcome.Err? && CanRetry(p.maxRetries, k)
       && p.guard(attempts[k].outcome.error) == Ok(true) && p.delay(k).Ok? {
      var ms := p.delay(k).value;
      SelectsInRange(p, attempts, k + 1, hopped || ms > 0, ms > 0);
    }
  }

  /** The attempt at index `i` ends the run begun at `k`: it is not a retried failure. */
  ghost predicate EndsAt<T>(p: Partial, attempts: seq<Signal<T>>, i: int, k: nat)
  {
    k <= i < |attempts| &&
    !(attempts[i].Deliver? && attempts[i].outcome.Err? && CanRetry(p.maxRetries, i)
      && p.guard(attempts[i].outcome.error) == Ok(true) && p.delay(i).Ok?)
  }

  /** A delivered success is the value of the last attempt made, unchanged. */
  lemma {:induction false} SuccessIsLastAttempt<T>(p: Partial, attempts: seq<Signal<T>>, k: nat, hopped: bool, scheduled: bool)
    requires Drive(p, attempts, k, hopped, scheduled).result.Settled?
    requires Drive(p, attempts, k, hopped, scheduled).result.outcome.Ok?
    ensures var r := Drive(p, attempts, k, hopped, scheduled);
            1 <= r.selects <= |attempts| && attempts[r.selects - 1] == Deliver(r.result.outcome)
    decreases |attempts| - k
  {
    if k < |attempts| && attempts[k].Deliver? && attempts[k].outcome.Err? && CanRetry(p.maxRetries, k)
       && p.guard(attempts[k].outcome.error) == Ok(true) && p.delay(k).Ok? {
      var ms := p.delay(k).value;
      SuccessIsLastAttempt(p, attempts, k + 1, hopped || ms > 0, ms > 0);
    }
  }

  /** With `maxRetries = n >= 1` no run selects the source more than n + 1 times. */
  lemma {:induction false} AtMostLimitPlusOne<T>(p: Partial, attempts: seq<Signal<T>>, k: nat, hopped: bool, scheduled: bool)
    requires 1 <= p.maxRetries && k <= p.maxRetries
    ensures Drive(p, attempts, k, hopped, scheduled).selects <= p.maxRetries + 1
    decreases |attempts| - k
  {
    if k < |attempts| && attempts[k].Deliver? && attempts[k].outcome.Err? && CanRetry(p.maxRetries, k)
       && p.guard(attempts[k].outcome.error) == Ok(true) && p.delay(k).Ok? {
      var ms := p.delay(k).value;
      AtMostLimitPlusOne(p, attempts, k + 1, hopped || ms > 0, ms > 0);
    }
  }

  /** Every attempt from `k` on fails. */
  ghost predicate FailsFrom<T>(attempts: seq<Signal<T>>, k: nat)
  {
    forall i :: k <= i < |attempts| ==> attempts[i].Deliver? && attempts[i].outcome.Err?
  }

  /** The guard accepts every error and the backoff always answers. */
  ghost predicate Persistent(p: Partial)
  {
    (forall t :: p.guard(t) == Ok(true)) && (forall i :: p.delay(i).Ok?)
  }

  /**
   * An always-failing source under `maxRetries = n >= 1` and a guard that
   * accepts everything is selected exactly n + 1 times, and the last error
   * is forwarded.
   */
  lemma {:induction false} ExhaustsLimit<T>(p: Partial, attempts: seq<Signal<T>>, k: nat, hopped: bool, scheduled: bool)
    requires 1 <= p.maxRetries && k <= p.maxRetries < |attempts|
    requires Persistent(p) && FailsFrom(attempts, k)
    ensures Drive(p, attempts, k, hopped, scheduled) ==
            Run(Settled(Err(attempts[p.maxRetries].outcome.error)), p.maxRetries + 1)
    decreases |attempts| - k
  {
    if k < p.maxRetries {
      var ms := p.delay(k).value;
      assert p.guard(attempts[k].outcome.error) == Ok(true);
      ExhaustsLimit(p, attempts, k + 1, hopped || ms > 0, ms > 0);
    } else {
      assert !CanRetry(p.maxRetries, k);
    }
  }

  /** `forever()`: an always-failing source is retried through every supplied attempt. */
  lemma {:induction false} ForeverKeepsRetrying<T>(p: Partial, attempts: seq<Signal<T>>, k: nat, hopped: bool, scheduled: bool)
    requires p.maxRetries < 1 && k <= |attempts|
    requires Persistent(p) && FailsFrom(attempts, k)
    ensures Drive(p, attempts, k, hopped, scheduled) == Run(Unsettled, |attempts|)
    decreases |attempts| - k
  {
    if k < |attempts| {
      var ms := p.delay(k).value;
      assert p.guard(attempts[k].outcome.error) == Ok(true);
      ForeverKeepsRetrying(p, attempts, k + 1, hopped || ms > 0, ms > 0);
    }
  }

  /**
   * A failure the guard rejects, at any retry count and on whichever thread
   * the retry runs, is forwarded at once, with no further attempt.
   */
  lemma RejectedFailureForwarded<T>(p: Partial, attempts: seq<Signal<T>>, k: nat, hopped: bool, scheduled: bool, t: Error)
    requires k < |attempts| && attempts[k] == Deliver(Err(t)) && p.guard(t) == Ok(false)
    ensures Drive(p, attempts, k, hopped, scheduled) == Run(Settled(Err(t)), k + 1)
  {
  }

  /**
   * An exception from the guard or the backoff, at any retry count, ends
   * retrying: a RuntimeException becomes the error; any other throwable
   * escapes the caller's `select` unless a retry was scheduled, in which
   * case it is lost on the scheduler's thread.
   */
  lemma UserExceptionStops<T>(p: Partial, attempts: seq<Signal<T>>, k: nat, hopped: bool, scheduled: bool, t: Error, e: Error)
    requires k < |attempts| && attempts[k] == Deliver(Err(t)) && CanRetry(p.maxRetries, k)
    requires p.guard(t) == Err(e) || (p.guard(t) == Ok(true) && p.delay(k) == Err(e))
    ensures Drive(p, attempts, k, hopped, scheduled) == Run(Caught(e, hopped), k + 1)
    ensures IsRuntime(e) ==> Drive(p, attempts, k, hopped, scheduled).result == Settled(Err(e))
    ensures !IsRuntime(e) && !hopped ==> Drive(p, attempts, k, hopped, scheduled).result == Thrown(e)
    ensures !IsRuntime(e) && hopped ==> Drive(p, attempts, k, hopped, scheduled).result.Silent?
  {
  }

  /** A success on a later attempt is delivered after exactly that many selects. */
  lemma SucceedsAfterFailures<T>(attempts: seq<Signal<T>>, n: nat, v: T)
    requires n < |attempts| && FailsFrom(attempts[..n], 0) && attempts[n] == Deliver(Ok(v))
    ensures Drive(Until(n), attempts, 0, false, false) == Run(Settled(Ok(v)), n + 1)
  {
    SucceedsFrom(attempts, n, v, 0);
  }

  lemma {:induction false} SucceedsFrom<T>(attempts: seq<Signal<T>>, n: nat, v: T, k: nat)
    requires k <= n < |attempts| && FailsFrom(attempts[..n], 0) && attempts[n] == Deliver(Ok(v))
    ensures Drive(Until(n), attempts, k, false, false) == Run(Settled(Ok(v)), n + 1)
    decreases n - k
  {
    if k < n {
      assert attempts[..n][k] == attempts[k];
      SucceedsFrom(attempts, n, v, k + 1);
    }
  }
}
