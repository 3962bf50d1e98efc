/**
 * The `Try` outcome algebra (Try.java). A `Try` is a lazy computation that
 * is run again on every `select`; the model describes ONE `select` of it by
 * the `Signal` that call produces. A user function that may throw is a total
 * function returning an `Outcome` (`Err(e)` meaning "throws e"). The
 * plain forms (`Just`, `Of`, `Map`, …) take the continuation passed to
 * `select` never to throw; the `Guarded` forms also give the catch clauses
 * around the continuation call, which decide what happens when it throws.
 */
module Try {
  import opened Outcomes

  /** `Try.just(t)`: every select delivers `ok(t)`. */
  function Just<T>(t: T): (s: Signal<T>)
    ensures s.Deliver? && s.outcome.Ok? && s.outcome.value == t
  {
    Deliver(Ok(t))
  }

  /**
   * `Try.raise(t)`: building the computation from a null throwable throws
   * a NullPointerException; otherwise every select delivers `error(t)`.
   */
  function Raise<T>(t: Option<Error>): (built: Outcome<Signal<T>>)
    ensures t.None? <==> built == Err(NullPointer)
    ensures t.Some? ==> built == Ok(Deliver(Err(t.value)))
  {
    match t
    case None => Err(NullPointer)
    case Some(e) => Ok(Deliver(Err(e)))
  }

  /**
   * `Try.of(Callable)`: each select calls the block; a value goes to `ok`,
   * an `Exception` to `error`, and any other throwable escapes `select`.
   */
  function Of<T>(call: Outcome<T>): (s: Signal<T>)
    ensures call.Ok? ==> s == Deliver(Ok(call.value))
    ensures call.Err? && IsException(call.error) ==> s == Deliver(Err(call.error))
    ensures call.Err? && !IsException(call.error) ==> s == Escape(call.error)
  {
    match call
    case Ok(v) => Deliver(Ok(v))
    case Err(e) => if IsException(e) then Deliver(Err(e)) else Escape(e)
  }

  /**
   * `Try.of(Runnable)`: each select runs the block and delivers `ok(null)`;
   * only a RuntimeException is routed to `error`.
   */
  function OfRunnable(run: Outcome<()>): (s: Signal<()>)
    ensures run.Ok? ==> s == Deliver(Ok(()))
    ensures run.Err? ==> s == CatchRuntime(run.error)
  {
    match run
    case Ok(_) => Deliver(Ok(()))
    case Err(e) => CatchRuntime(e)
  }

  /**
   * `f.apply(t).select(continuation)` inside `try … catch (RuntimeException e)
   * { continuation.error(e); }`: `next` is what `f.apply(t)` did (threw, or
   * returned a computation whose select produced the signal inside).
   */
  function SelectGuarded<U>(next: Outcome<Signal<U>>): (s: Signal<U>)
    ensures next.Ok? && next.value.Deliver? ==> s == next.value
    ensures next.Ok? && next.value.Quiet? ==> s.Quiet?
    ensures next.Err? ==> s == CatchRuntime(next.error)
    ensures next.Ok? && next.value.Escape? ==> s == CatchRuntime(next.value.thrown)
  {
    match next
    case Err(e) => CatchRuntime(e)
    case Ok(Escape(e)) => CatchRuntime(e)
    case Ok(other) => other
  }

  /** `map(f)`: transforms the success value; errors pass and `f` is not called. */
  function Map<T, U>(src: Signal<T>, f: T -> Outcome<U>): (s: Signal<U>)
  {
    match src
    case Deliver(Ok(t)) =>
      (match f(t)
       case Ok(u) => Deliver(Ok(u))
       case Err(e) => CatchRuntime(e))
    case Deliver(Err(e)) => Deliver(Err(e))
    case Escape(e) => Escape(e)
    case Quiet => Quiet
  }

  /** `flatMap(f)`: the computation `f(t)` is selected with the same continuation. */
  function FlatMap<T, U>(src: Signal<T>, f: T -> Outcome<Signal<U>>): (s: Signal<U>)
  {
    match src
    case Deliver(Ok(t)) => SelectGuarded(f(t))
    case Deliver(Err(e)) => Deliver(Err(e))
    case Escape(e) => Escape(e)
    case Quiet => Quiet
  }

  /** `pipe(transformer)`: the transformer applied to this computation. */
  function Pipe<A, B>(src: A, transformer: A -> B): B
  {
    transformer(src)
  }

  /** What `unwrap()` does: return a value, throw, or wait forever. */
  datatype Unwrapped<T> = Returns(value: T) | Throws(thrown: Error) | Blocks

  /**
   * `unwrap()`: selects once and waits. A success returns its value; an
   * error (delivered, or thrown by `select` itself) is thrown as a
   * RuntimeException; a computation that never answers blocks.
   */
  function Unwrap<T>(s: Signal<T>): (r: Unwrapped<T>)
  {
    match s
    case Deliver(Ok(v)) => Returns(v)
    case Deliver(Err(e)) => Throws(AsRuntime(e))
    case Escape(e) => Throws(AsRuntime(e))
    case Quiet => Blocks
  }

  /** `Case.accept(result)`: a null result calls neither branch. */
  function Accept<T>(result: Option<Signal<T>>): (s: Signal<T>)
    ensures result.None? ==> s.Quiet?
    ensures result.Some? ==> s == result.value
  {
    match result
    case None => Quiet
    case Some(sig) => sig
  }

  // ---------------------------------------------------------------------
  // Selects with their catch clauses

  /** `just(t)`: `ok(t)` is called outside any clause. */
  function GuardedJust<T>(t: T): Guarded<T>
  {
    Guarded(Just(t), [])
  }

  /** `raise(t)` for a non-null `t`: `error(t)` is called outside any clause. */
  function GuardedRaise<T>(t: Error): Guarded<T>
  {
    Guarded(Deliver(Err(t)), [])
  }

  /**
   * `Try.of(Callable)`: the block and the `ok` call share one `catch
   * (Exception e)`, so an Exception thrown by `ok` is handed to `error`;
   * the `error` call sits inside the catch block, outside any clause.
   */
  function GuardedOf<T>(call: Outcome<T>): Guarded<T>
  {
    match call
    case Ok(v) => Guarded(Deliver(Ok(v)), [CatchesException])
    case Err(e) => Raised([CatchesException], e)
  }

  /** `Try.of(Runnable)`: as `of(Callable)`, with `catch (RuntimeException e)`. */
  function GuardedOfRunnable(run: Outcome<()>): Guarded<()>
  {
    match run
    case Ok(_) => Guarded(Deliver(Ok(())), [CatchesRuntime])
    case Err(e) => Raised([CatchesRuntime], e)
  }

  /**
   * `map(f)`: the source's `ok` applies `f` and calls the continuation's
   * `ok` inside one more `catch (RuntimeException e)`; the source's `error`
   * is passed on inside the clauses the source put around it.
   */
  function GuardedMap<T, U>(src: Guarded<T>, f: T -> Outcome<U>): Guarded<U>
  {
    match src.signal
    case Deliver(Ok(t)) =>
      var clauses := [CatchesRuntime] + src.clauses;
      (match f(t)
       case Ok(u) => Guarded(Deliver(Ok(u)), clauses)
       case Err(e) => Raised(clauses, e))
    case Deliver(Err(e)) => Guarded(Deliver(Err(e)), src.clauses)
    case Escape(e) => Guarded(Escape(e), [])
    case Quiet => Guarded(Quiet, [])
  }

  /**
   * `flatMap(f)`: `f(t)` is built and selected with the continuation inside
   * one more `catch (RuntimeException e)`; the clauses of `f(t)` itself sit
   * inside that one.
   */
  function GuardedFlatMap<T, U>(src: Guarded<T>, f: T -> Outcome<Guarded<U>>): Guarded<U>
  {
    match src.signal
    case Deliver(Ok(t)) =>
      var clauses := [CatchesRuntime] + src.clauses;
      (match f(t)
       case Err(e) => Raised(clauses, e)
       case Ok(Guarded(Escape(e), _)) => Raised(clauses, e)
       case Ok(Guarded(Quiet, _)) => Guarded(Quiet, [])
       case Ok(Guarded(Deliver(o), inner)) => Guarded(Deliver(o), inner + clauses))
    case Deliver(Err(e)) => Guarded(Deliver(Err(e)), src.clauses)
    case Escape(e) => Guarded(Escape(e), [])
    case Quiet => Guarded(Quiet, [])
  }

  /** A flat-map function seen through the plain signals of its computations. */
  function Signals<T, U>(f: T -> Outcome<Guarded<U>>): T -> Outcome<Signal<U>>
  {
    (t: T) => match f(t)
              case Ok(g) => Ok(g.signal)
              case Err(e) => Err(e)
  }

  /**
   * The clauses change nothing for a continuation that never throws:
   * `of` selects as `Of`, and, since a `Function` and a `select` throw no
   * checked exception, `map` and `flatMap` select as `Map` and `FlatMap`
   * over every source, whatever clauses it has.
   */
  lemma GuardedAgrees<T, U>(call: Outcome<T>, run: Outcome<()>, src: Guarded<T>, f: T -> Outcome<U>, g: T -> Outcome<Guarded<U>>)
    ensures GuardedOf(call).signal == Of(call)
    ensures GuardedOfRunnable(run).signal == OfRunnable(run)
    ensures (forall t :: f(t).Err? ==> !f(t).error.Checked?) ==> GuardedMap(src, f).signal == Map(src.signal, f)
    ensures (forall t :: g(t).Err? ==> !g(t).error.Checked?) &&
            (forall t :: g(t).Ok? && g(t).value.signal.Escape? ==> !g(t).value.signal.thrown.Checked?) ==>
            GuardedFlatMap(src, g).signal == FlatMap(src.signal, Signals(g))
  {
    assert [CatchesException][1..] == [];
    if call.Err? {
      RaisedOutcomes<T>([CatchesException], call.error);
    }
    assert [CatchesRuntime][1..] == [];
    if run.Err? {
      RaisedOutcomes<()>([CatchesRuntime], run.error);
    }
    if src.signal.Deliver? && src.signal.outcome.Ok? {
      var t := src.signal.outcome.value;
      var clauses := [CatchesRuntime] + src.clauses;
      if f(t).Err? {
        RaisedOutcomes<U>(clauses, f(t).error);
      }
      if g(t).Err? {
        RaisedOutcomes<U>(clauses, g(t).error);
      } else if g(t).value.signal.Escape? {
        RaisedOutcomes<U>(clauses, g(t).value.signal.thrown);
      }
    }
  }

  /**
   * Where a throwing continuation goes after `of`: an Exception from `ok`
   * is handed to `error` once, and what `error` then throws escapes; an
   * exception from `error` escapes at once.
   */
  lemma OfReroutesOk<T>(call: Outcome<T>, e: Error, more: seq<Option<Error>>)
    requires IsException(e)
    ensures call.Ok? ==> Rerouted(Some(e), GuardedOf(call).clauses, more) == ([e], Nth(more, 0))
    ensures call.Err? ==> Rerouted(Some(e), GuardedOf(call).clauses, more) == ([], Some(e))
  {
    assert [CatchesException][1..] == [];
    if call.Err? {
      RaisedOutcomes<T>([CatchesException], call.error);
    } else {
      var cl := [CatchesException];
      assert GuardedOf(call).clauses == cl && Catches(cl[0], e);
      var next := Rerouted(Nth(more, 0), cl[1..], Tail(more));
      assert next == ([], Nth(more, 0));
      assert Rerouted(Some(e), cl, more) == ([e] + next.0, next.1);
      assert [e] + next.0 == [e];
    }
  }

  /**
   * `map` and `flatMap` add one clause around a success, which hands a
   * RuntimeException thrown by the continuation's `ok` to its `error`;
   * an error from the source is passed on inside the source's own clauses.
   */
  lemma MapFlatMapCatchOk<T, U>(src: Guarded<T>, f: T -> Outcome<U>, g: T -> Outcome<Guarded<U>>, e: Error, more: seq<Option<Error>>)
    requires IsRuntime(e)
    ensures GuardedMap(src, f).signal.Deliver? && GuardedMap(src, f).signal.outcome.Ok? ==>
              |Rerouted(Some(e), GuardedMap(src, f).clauses, more).0| > 0 &&
              |GuardedMap(src, f).clauses| == |src.clauses| + 1
    ensures src.signal.Deliver? && src.signal.outcome.Ok? && g(src.signal.outcome.value).Ok? &&
            g(src.signal.outcome.value).value.signal.Deliver? ==>
              |Rerouted(Some(e), GuardedFlatMap(src, g).clauses, more).0| > 0 &&
              |GuardedFlatMap(src, g).clauses| == |g(src.signal.outcome.value).value.clauses| + 1 + |src.clauses|
    ensures src.signal.Deliver? && src.signal.outcome.Err? ==>
              GuardedMap(src, f) == Guarded(Deliver(Err(src.signal.outcome.error)), src.clauses) &&
              GuardedFlatMap(src, g) == Guarded(Deliver(Err(src.signal.outcome.error)), src.clauses)
  {
    if src.signal.Deliver? && src.signal.outcome.Ok? {
      var t := src.signal.outcome.value;
      if f(t).Err? {
        RaisedOutcomes<U>([CatchesRuntime] + src.clauses, f(t).error);
      } else {
        ReroutedCatches(e, [CatchesRuntime] + src.clauses, more, 0);
      }
    }
    if src.signal.Deliver? && src.signal.outcome.Ok? && g(src.signal.outcome.value).Ok? &&
       g(src.signal.outcome.value).value.signal.Deliver? {
      var inner := g(src.signal.outcome.value).value.clauses;
      var all := inner + ([CatchesRuntime] + src.clauses);
      assert GuardedFlatMap(src, g).clauses == all;
      ReroutedCatches(e, all, more, |inner|);
    }
  }

  // ---------------------------------------------------------------------
  // Properties

  /** `map` passes errors through untouched and never calls `f` on them. */
  lemma MapRoutesErrors<T, U>(src: Signal<T>, f: T -> Outcome<U>)
    ensures src.Deliver? && src.outcome.Err? ==> Map(src, f) == Deliver(Err(src.outcome.error))
    ensures src.Deliver? && src.outcome.Ok? && f(src.outcome.value).Ok? ==>
              Map(src, f) == Deliver(Ok(f(src.outcome.value).value))
    ensures src.Deliver? && src.outcome.Ok? && f(src.outcome.value).Err? ==>
              (Map(src, f) == Deliver(Err(f(src.outcome.value).error)) <==> IsRuntime(f(src.outcome.value).error))
  {
  }

  /** A success never turns into a thrown exception unless `f` throws a non-RuntimeException. */
  lemma MapEscapesOnlyNonRuntime<T, U>(src: Signal<T>, f: T -> Outcome<U>)
    requires !src.Escape?
    ensures Map(src, f).Escape? <==>
              (src.Deliver? && src.outcome.Ok? && f(src.outcome.value).Err? && !IsRuntime(f(src.outcome.value).error))
  {
  }

  /** Left identity: flat-mapping a `just` selects `f(t)` directly. */
  lemma FlatMapJust<T, U>(t: T, f: T -> Outcome<Signal<U>>)
    ensures FlatMap(Just(t), f) == SelectGuarded(f(t))
  {
  }

  /** Right identity: flat-mapping into `just` changes nothing. */
  lemma FlatMapIntoJust<T>(src: Signal<T>)
    ensures FlatMap(src, (t: T) => Ok(Just(t))) == src
  {
  }

  /** `SelectGuarded` normalises: running it twice is the same as once. */
  lemma SelectGuardedIdempotent<U>(s: Signal<U>)
    ensures SelectGuarded(Ok(SelectGuarded(Ok(s)))) == SelectGuarded(Ok(s))
  {
  }

  /** Flat-mapping after a guarded select equals guarding the flat-map. */
  lemma FlatMapGuarded<T, U>(s: Signal<T>, g: T -> Outcome<Signal<U>>)
    ensures FlatMap(SelectGuarded(Ok(s)), g) == SelectGuarded(Ok(FlatMap(s, g)))
  {
    match s
    case Deliver(Ok(t)) =>
      SelectGuardedIdempotentOn(g(t));
    case Deliver(Err(e)) =>
    case Escape(e) =>
    case Quiet =>
  }

  lemma SelectGuardedIdempotentOn<U>(next: Outcome<Signal<U>>)
    ensures SelectGuarded(Ok(SelectGuarded(next))) == SelectGuarded(next)
  {
  }

  /** Kleisli composition of two flat-map functions. */
  function Compose<T, U, W>(f: T -> Outcome<Signal<U>>, g: U -> Outcome<Signal<W>>): T -> Outcome<Signal<W>>
  {
    (t: T) => match f(t)
              case Err(e) => Err(e)
              case Ok(s) => Ok(FlatMap(s, g))
  }

  /** Associativity: `src.flatMap(f).flatMap(g) == src.flatMap(t -> f(t).flatMap(g))`. */
  lemma FlatMapAssociative<T, U, W>(src: Signal<T>, f: T -> Outcome<Signal<U>>, g: U -> Outcome<Signal<W>>)
    ensures FlatMap(FlatMap(src, f), g) == FlatMap(src, Compose(f, g))
  {
    match src
    case Deliver(Ok(t)) =>
      match f(t) {
        case Err(e) =>
        case Ok(s) => FlatMapGuarded(s, g);
      }
    case Deliver(Err(e)) =>
    case Escape(e) =>
    case Quiet =>
  }

  /** A mapping function lifted to a flat-map function through `just`. */
  function Lift<T, U>(f: T -> Outcome<U>): T -> Outcome<Signal<U>>
  {
    (t: T) => match f(t)
              case Ok(u) => Ok(Just(u))
              case Err(e) => Err(e)
  }

  /** `map` is `flatMap` through `just`, as the documentation of `pipe` says. */
  lemma MapIsFlatMap<T, U>(src: Signal<T>, f: T -> Outcome<U>)
    ensures Map(src, f) == FlatMap(src, Lift(f))
  {
  }

  /** `unwrap` only ever throws RuntimeExceptions, and returns exactly on success. */
  lemma UnwrapThrowsRuntime<T>(s: Signal<T>)
    ensures Unwrap(s).Throws? ==> IsRuntime(Unwrap(s).thrown)
    ensures Unwrap(s).Returns? <==> (s.Deliver? && s.outcome.Ok?)
    ensures Unwrap(s).Blocks? <==> s.Quiet?
  {
  }

  /** `unwrap` treats an error thrown by `select` like a delivered one. */
  lemma UnwrapEscapeAsError<T>(e: Error)
    ensures Unwrap<T>(Escape(e)) == Unwrap<T>(Deliver(Err(e)))
  {
  }

  /** `just(v).unwrap()` returns `v`; `raise(e).unwrap()` rethrows or wraps `e`. */
  lemma UnwrapJustRaise<T>(v: T, e: Error)
    ensures Unwrap(Just(v)) == Returns(v)
    ensures Raise<T>(Some(e)).Ok? && Unwrap(Raise<T>(Some(e)).value) == Throws(AsRuntime(e))
    ensures IsRuntime(e) ==> Unwrap(Raise<T>(Some(e)).value) == Throws(e)
    ensures !IsRuntime(e) ==> Unwrap(Raise<T>(Some(e)).value) == Throws(Wrapped(e))
  {
  }

  /** What `unwrap()` means to a callable: return the value, or throw. */
  function UnwrapAsCall<T>(u: Unwrapped<T>): (call: Outcome<T>)
    requires !u.Blocks?
  {
    match u
    case Returns(v) => Ok(v)
    case Throws(e) => Err(e)
  }

  /** Round trip: `Try.of(() -> t.unwrap()).unwrap()` behaves as `t.unwrap()`. */
  lemma UnwrapRoundTrip<T>(s: Signal<T>)
    requires !s.Quiet?
    ensures !Unwrap(s).Blocks?
    ensures Unwrap(Of(UnwrapAsCall(Unwrap(s)))) == Unwrap(s)
  {
    UnwrapThrowsRuntime(s);
  }
}
