/**
 * Shared vocabulary of the model: the exceptions the library throws or
 * routes, the two branches of a computation, and what a single `select`
 * call does before it returns.
 */
module Outcomes {

  datatype Option<T> = None | Some(value: T)

  /**
   * The Java throwables that matter to the library, by kind. `Unchecked`,
   * `Checked` and `Fault` stand for any user exception of that kind; the
   * others are the specific classes the library creates or tests for.
   */
  datatype Error =
    | Unchecked(tag: nat)          // some RuntimeException thrown by user code
    | Arithmetic                   // java.lang.ArithmeticException
    | NullPointer                  // java.lang.NullPointerException
    | IllegalArgument              // java.lang.IllegalArgumentException
    | ConcurrentModification       // java.util.ConcurrentModificationException
    | NotFound                     // Filter.NotFound, a NoSuchElementException
    | Tripped(reason: Option<Error>) // CircuitBreaker.Tripped, an IllegalStateException; the cause may be null
    | Wrapped(cause: Error)        // new RuntimeException(cause)
    | Checked(tag: nat)            // an Exception that is not a RuntimeException
    | Fault(tag: nat)              // a Throwable that is not an Exception

  /** `instanceof RuntimeException`. */
  predicate IsRuntime(e: Error) {
    !e.Checked? && !e.Fault?
  }

  /** `instanceof Exception`. */
  predicate IsException(e: Error) {
    !e.Fault?
  }

  /** The branch a computation reports: `Case.ok(value)` or `Case.error(error)`. */
  datatype Outcome<T> = Ok(value: T) | Err(error: Error)

  /**
   * What one `select(continuation)` call does before it returns: it calls
   * the continuation with an outcome, or throws out of `select`, or returns
   * without calling the continuation (an asynchronous source, a cancelled
   * computation).
   */
  datatype Signal<T> = Deliver(outcome: Outcome<T>) | Escape(thrown: Error) | Quiet

  /**
   * A `catch` clause around a call to the continuation that hands what it
   * catches to the continuation's `error`: `catch (RuntimeException e)` or
   * `catch (Exception e)`.
   */
  datatype Clause = CatchesRuntime | CatchesException

  /** Whether the clause catches `e`. */
  predicate Catches(c: Clause, e: Error) {
    match c
    case CatchesRuntime => IsRuntime(e)
    case CatchesException => IsException(e)
  }

  /**
   * One `select(continuation)` call together with the catch clauses,
   * innermost first, that surround the continuation call it makes. For a
   * continuation that never throws only `signal` matters; a continuation
   * that throws runs into `clauses` (see `Rerouted`).
   */
  datatype Guarded<T> = Guarded(signal: Signal<T>, clauses: seq<Clause>)

  /**
   * A throwable raised inside `clauses` during a select: the innermost
   * clause that catches it hands it to the continuation's `error`, which
   * then runs inside the clauses outside that one; when none catches it,
   * it escapes `select`.
   */
  function Raised<T>(clauses: seq<Clause>, e: Error): Guarded<T>
  {
    if |clauses| == 0 then Guarded(Escape(e), [])
    else if Catches(clauses[0], e) then Guarded(Deliver(Err(e)), clauses[1..])
    else Raised(clauses[1..], e)
  }

  /**
   * A raised throwable is either handed to `error` or escapes; one that is
   * not an Exception is caught by no clause, and the innermost clause
   * catches what it can.
   */
  lemma {:induction false} RaisedOutcomes<T>(clauses: seq<Clause>, e: Error)
    ensures Raised<T>(clauses, e).signal in {Signal<T>.Deliver(Err(e)), Signal<T>.Escape(e)}
    ensures !IsException(e) ==> Raised<T>(clauses, e) == Guarded(Escape(e), [])
    ensures |clauses| > 0 && Catches(clauses[0], e) ==> Raised<T>(clauses, e) == Guarded(Deliver(Err(e)), clauses[1..])
    decreases |clauses|
  {
    if |clauses| > 0 && !Catches(clauses[0], e) {
      RaisedOutcomes<T>(clauses[1..], e);
    }
  }

  /** The `i`-th of `xs`; a missing entry is `None`. */
  function Nth<X>(xs: seq<Option<X>>, i: nat): (x: Option<X>)
    ensures i >= |xs| ==> x.None?
    ensures i < |xs| ==> x == xs[i]
  {
    if i < |xs| then xs[i] else None
  }

  /** `xs` without its first entry. */
  function Tail<X>(xs: seq<X>): (t: seq<X>)
    ensures |xs| > 0 ==> t == xs[1..]
    ensures |xs| == 0 ==> t == []
  {
    if |xs| > 0 then xs[1..] else []
  }

  /**
   * What a throwing continuation runs into: one of its calls threw
   * `thrown` inside `clauses`. Going outwards, each clause that catches the
   * throwable calls the continuation's `error` with it inside the clauses
   * outside it, and `more` lists what those calls throw in turn (a missing
   * entry throws nothing). The result is the errors handed to `error`, in
   * order, and the throwable left uncaught.
   */
  function Rerouted(thrown: Option<Error>, clauses: seq<Clause>, more: seq<Option<Error>>): (seq<Error>, Option<Error>)
    decreases |clauses|
  {
    if thrown.None? || |clauses| == 0 then ([], thrown)
    else if Catches(clauses[0], thrown.value) then
      var next := Rerouted(Nth(more, 0), clauses[1..], Tail(more));
      ([thrown.value] + next.0, next.1)
    else Rerouted(thrown, clauses[1..], more)
  }

  /**
   * The errors handed on form a chain: the first is the throwable that
   * started it, each later one is what the `error` call before it threw,
   * there are no more than there are clauses, and what is left is what
   * the last call threw. A throwable that is not an Exception is never
   * caught.
   */
  lemma {:induction false} ReroutedChain(thrown: Option<Error>, clauses: seq<Clause>, more: seq<Option<Error>>)
    decreases |clauses|
    ensures var r := Rerouted(thrown, clauses, more);
      |r.0| <= |clauses| &&
      (|r.0| == 0 ==> r.1 == thrown) &&
      (|r.0| > 0 ==> thrown == Some(r.0[0]) && r.1 == Nth(more, |r.0| - 1)) &&
      (forall i :: 1 <= i < |r.0| ==> Nth(more, i - 1) == Some(r.0[i])) &&
      (thrown.Some? && !IsException(thrown.value) ==> r == ([], thrown))
  {
    if thrown.None? || |clauses| == 0 {
    } else if Catches(clauses[0], thrown.value) {
      var rest := Tail(more);
      ReroutedChain(Nth(more, 0), clauses[1..], rest);
      var next := Rerouted(Nth(more, 0), clauses[1..], rest);
      assert forall i: nat :: Nth(rest, i) == Nth(more, i + 1);
      var r := Rerouted(thrown, clauses, more);
      assert r == ([thrown.value] + next.0, next.1);
      assert forall i :: 1 <= i < |r.0| ==> r.0[i] == next.0[i - 1];
    } else {
      ReroutedChain(thrown, clauses[1..], more);
    }
  }

  /** When some clause catches the throwable, at least one error is handed on. */
  lemma {:induction false} ReroutedCatches(e: Error, clauses: seq<Clause>, more: seq<Option<Error>>, i: nat)
    requires i < |clauses| && Catches(clauses[i], e)
    ensures |Rerouted(Some(e), clauses, more).0| > 0
    decreases i
  {
    if !Catches(clauses[0], e) {
      ReroutedCatches(e, clauses[1..], more, i - 1);
    }
  }

  /** No clause catches: the throwable is left as it is, and nothing is rerouted. */
  lemma {:induction false} ReroutedStop(thrown: Option<Error>, clauses: seq<Clause>, more: seq<Option<Error>>)
    requires thrown.None? || forall i :: 0 <= i < |clauses| ==> !Catches(clauses[i], thrown.value)
    ensures Rerouted(thrown, clauses, more) == ([], thrown)
    decreases |clauses|
  {
    if thrown.Some? && |clauses| > 0 {
      assert forall i :: 0 <= i < |clauses| - 1 ==> clauses[1..][i] == clauses[i + 1];
      ReroutedStop(thrown, clauses[1..], more);
    }
  }

  /** The innermost clause catches: its `error` call comes first, then what the outer clauses do with its throw. */
  lemma ReroutedStep(e: Error, clauses: seq<Clause>, next: Option<Error>, rest: seq<Option<Error>>)
    requires |clauses| > 0 && Catches(clauses[0], e)
    ensures var r := Rerouted(next, clauses[1..], rest);
      Rerouted(Some(e), clauses, [next] + rest) == ([e] + r.0, r.1)
  {
    assert Nth([next] + rest, 0) == next && Tail([next] + rest) == rest;
  }

  /** What is rerouted depends only on what the calls it makes throw. */
  lemma {:induction false} ReroutedExtends(thrown: Option<Error>, clauses: seq<Clause>, more: seq<Option<Error>>, extra: seq<Option<Error>>)
    requires |more| >= |Rerouted(thrown, clauses, more).0|
    ensures Rerouted(thrown, clauses, more + extra) == Rerouted(thrown, clauses, more)
    decreases |clauses|
  {
    if thrown.None? || |clauses| == 0 {
    } else if Catches(clauses[0], thrown.value) {
      assert |more| > 0;
      assert Nth(more + extra, 0) == Nth(more, 0) && Tail(more + extra) == Tail(more) + extra;
      ReroutedExtends(Nth(more, 0), clauses[1..], Tail(more), extra);
    } else {
      ReroutedExtends(thrown, clauses[1..], more, extra);
    }
  }

  /**
   * The effect of an exception thrown inside a `try { … } catch
   * (RuntimeException e) { continuation.error(e); }` block.
   */
  function CatchRuntime<T>(e: Error): (s: Signal<T>)
    ensures s.Deliver? <==> IsRuntime(e)
    ensures s.Deliver? ==> s.outcome == Err(e)
    ensures s.Escape? ==> s.thrown == e
  {
    if IsRuntime(e) then Deliver(Err(e)) else Escape(e)
  }

  /**
   * The exception `unwrap()` and the default `Progress.failed` throw for an
   * error: a RuntimeException as is, anything else wrapped in one.
   */
  function AsRuntime(e: Error): (thrown: Error)
    ensures IsRuntime(thrown)
    ensures IsRuntime(e) <==> thrown == e
    ensures !IsRuntime(e) ==> thrown == Wrapped(e)
  {
    if IsRuntime(e) then e else Wrapped(e)
  }

  /** `n` copies of `x`. */
  function Repeat<X>(x: X, n: nat): (r: seq<X>)
    ensures |r| == n && forall i :: 0 <= i < n ==> r[i] == x
  {
    if n == 0 then [] else [x] + Repeat(x, n - 1)
  }
}
