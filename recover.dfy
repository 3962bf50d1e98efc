/**
 * `Recover` (transform/Recover.java): replaces a failure by the result of a
 * handler computation.
 */
module Recover {
  import opened Outcomes
  import Try

  /**
   * `Recover.Partial`: the handler, `Function<Throwable, Try<T>>`. It may
   * throw, or return a computation; the model holds what selecting that
   * computation once does.
   */
  datatype Partial<T> = Partial(handler: Error -> Outcome<Signal<T>>)

  /** `Recover.flatFrom(handler)`. */
  function FlatFrom<T>(handler: Error -> Outcome<Signal<T>>): (tr: Partial<T>)
    ensures tr.handler == handler
  {
    Partial(handler)
  }

  /**
   * `Recover.from(h)`: `h` is a checked function; its value becomes
   * `Try.just(value)` and anything it throws becomes `Try.raise(thrown)`.
   */
  function From<T>(h: Error -> Outcome<T>): (tr: Partial<T>)
  {
    FlatFrom((t: Error) => match h(t)
                           case Ok(v) => Ok(Try.Just(v))
                           case Err(e) => Try.Raise(Some(e)))
  }

  /**
   * `Recover.select`: a success is forwarded; on `error(t)` the handler's
   * computation is selected with the same continuation, and a
   * RuntimeException thrown meanwhile becomes `error(e)`.
   */
  function Select<T>(src: Signal<T>, tr: Partial<T>): (s: Signal<T>)
  {
    match src
    case Deliver(Ok(t)) => Deliver(Ok(t))
    case Deliver(Err(t)) => Try.SelectGuarded(tr.handler(t))
    case Escape(e) => Escape(e)
    case Quiet => Quiet
  }

  // ---------------------------------------------------------------------
  // Properties

  /** Successes, escapes and silence pass through; the handler is not consulted. */
  lemma SuccessPassesThrough<T>(src: Signal<T>, tr: Partial<T>)
    ensures !(src.Deliver? && src.outcome.Err?) ==> Select(src, tr) == src
  {
  }

  /** On failure the handler's computation decides, with RuntimeExceptions routed to `error`. */
  lemma FailureUsesHandler<T>(t: Error, tr: Partial<T>)
    ensures tr.handler(t).Ok? && tr.handler(t).value.Deliver? ==>
              Select(Deliver(Err(t)), tr) == tr.handler(t).value
    ensures tr.handler(t).Err? && IsRuntime(tr.handler(t).error) ==>
              Select(Deliver(Err(t)), tr) == Deliver(Err(tr.handler(t).error))
    ensures tr.handler(t).Err? && !IsRuntime(tr.handler(t).error) ==>
              Select(Deliver(Err(t)), tr) == Escape(tr.handler(t).error)
  {
  }

  /**
   * `from(h)` never lets the handler's exception escape: on `error(t)` the
   * continuation receives exactly what `h(t)` returned or threw.
   */
  lemma FromDeliversHandlerOutcome<T>(t: Error, h: Error -> Outcome<T>)
    ensures Select(Deliver(Err(t)), From(h)) == Deliver(h(t))
  {
  }

  /** With a handler that rethrows what it gets, `from` is the identity on answered selects. */
  lemma FromRethrowIsIdentity<T>(src: Signal<T>)
    ensures Select(src, From<T>((t: Error) => Err(t))) == src
  {
    if src.Deliver? && src.outcome.Err? {
      FromDeliversHandlerOutcome<T>(src.outcome.error, (t: Error) => Err(t));
    }
  }
}
