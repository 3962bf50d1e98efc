/**
 * `Function` (Function.java): composition, identity, and the adapters that
 * turn a `Callable` or a `Runnable` into a function producing a `Try`.
 * A function that may throw returns an `Outcome`; `Err(e)` means "throws e".
 */
module Function {
  import opened Outcomes
  import Try

  /** `f.then(g)`: `d -> g.apply(f.apply(d))`; an exception from `f` skips `g`. */
  function Then<D, R, S>(f: D -> Outcome<R>, g: R -> Outcome<S>): D -> Outcome<S>
  {
    (d: D) => match f(d)
              case Ok(r) => g(r)
              case Err(e) => Err(e)
  }

  /** `Function.id()`: returns its input. */
  function Id<T>(): T -> Outcome<T>
  {
    (t: T) => Ok(t)
  }

  /**
   * `Function.of(Callable)`: ignores its (Void) argument and returns a
   * computation that calls the block on every select.
   */
  function OfCallable<T>(call: Outcome<T>): (()) -> Outcome<Signal<T>>
  {
    (_: ()) => Ok(Try.Of(call))
  }

  /** `Function.of(Runnable)`: ignores its argument; the computation runs the block. */
  function OfRunnable(run: Outcome<()>): (()) -> Outcome<Signal<()>>
  {
    (_: ()) => Ok(Try.OfRunnable(run))
  }

  // ---------------------------------------------------------------------
  // Properties

  /** Composition applies `g` to what `f` returned, and stops at `f`'s exception. */
  lemma ThenApplies<D, R, S>(f: D -> Outcome<R>, g: R -> Outcome<S>, d: D)
    ensures f(d).Ok? ==> Then(f, g)(d) == g(f(d).value)
    ensures f(d).Err? ==> Then(f, g)(d) == Err(f(d).error)
  {
  }

  /** `id` is a unit of `then` on both sides. */
  lemma IdIsUnit<D, R>(f: D -> Outcome<R>, d: D)
    ensures Then(Id(), f)(d) == f(d)
    ensures Then(f, Id())(d) == f(d)
  {
  }

  /** `then` is associative. */
  lemma ThenAssociative<A, B, C, D>(f: A -> Outcome<B>, g: B -> Outcome<C>, h: C -> Outcome<D>, a: A)
    ensures Then(Then(f, g), h)(a) == Then(f, Then(g, h))(a)
  {
  }

  /** `t.map(id())` selects like `t`. */
  lemma MapId<T>(src: Signal<T>)
    ensures Try.Map(src, Id()) == src
  {
  }

  /** Map fusion: `t.map(f).map(g)` selects like `t.map(f.then(g))`. */
  lemma MapThen<T, U, W>(src: Signal<T>, f: T -> Outcome<U>, g: U -> Outcome<W>)
    ensures Try.Map(Try.Map(src, f), g) == Try.Map(src, Then(f, g))
  {
    match src
    case Deliver(Ok(t)) =>
      match f(t) {
        case Ok(u) =>
        case Err(e) =>
      }
    case Deliver(Err(e)) =>
    case Escape(e) =>
    case Quiet =>
  }

  /**
   * Chaining `Function.of(callable)` after a successful void computation
   * selects exactly like `Try.of(callable)`; a failed void computation
   * short-circuits the callable.
   */
  lemma ChainCallable<T>(run: Outcome<()>, call: Outcome<T>)
    ensures run.Ok? ==> Try.FlatMap(Try.OfRunnable(run), OfCallable(call)) == Try.Of(call)
    ensures run.Err? ==> Try.FlatMap(Try.OfRunnable(run), OfCallable(call)) == CatchRuntime(run.error)
  {
  }
}
