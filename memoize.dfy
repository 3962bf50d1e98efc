/**
 * `Memoize` (transform/Memoize.java): remembers the first outcome of its
 * source and replays it on every later select until `clear()`.
 */
module Memoize {
  import opened Outcomes

  /** The cache fields `value`, `error` and `done`; `None` stands for null. */
  datatype Cache<T> = Cache(value: Option<T>, error: Option<Error>, done: bool)

  /** A new or cleared cache. */
  function Empty<T>(): (c: Cache<T>)
    ensures !c.done && c.value.None? && c.error.None?
  {
    Cache(None, None, false)
  }

  /**
   * The cache is consistent: once done without an error, a value was
   * stored. Both callbacks set `done`, and only `clear()` unsets it.
   */
  predicate Valid<T>(c: Cache<T>) {
    c.done && c.error.None? ==> c.value.Some?
  }

  /** The inner `ok(t)`: stores the value only. */
  function AfterOk<T>(c: Cache<T>, t: T): (d: Cache<T>)
    ensures d.value == Some(t) && d.error == c.error && d.done
  {
    c.(value := Some(t), done := true)
  }

  /** The inner `error(t)`: stores the error only. */
  function AfterError<T>(c: Cache<T>, t: Error): (d: Cache<T>)
    ensures d.error == Some(t) && d.value == c.value && d.done
  {
    c.(error := Some(t), done := true)
  }

  /** What a done cache delivers: `ok(value)` when no error was stored, else `error(error)`. */
  function Answer<T>(c: Cache<T>): Signal<T>
    requires Valid(c) && c.done
  {
    if c.error.None? then Deliver(Ok(c.value.value)) else Deliver(Err(c.error.value))
  }

  /** One select: what reaches the continuation, whether the source was selected, and the new cache. */
  datatype Stepped<T> = Stepped(signal: Signal<T>, selected: bool, cache: Cache<T>)

  /** `Memoize.select`, for a source that would do `inner` if selected. */
  function Step<T>(c: Cache<T>, inner: Signal<T>): (r: Stepped<T>)
    requires Valid(c)
    ensures Valid(r.cache)
    ensures r.selected <==> !c.done
    ensures c.done ==> r == Stepped(Answer(c), false, c)
    ensures !c.done ==> r.signal == inner
  {
    if !c.done then
      match inner
      case Deliver(Ok(t)) => Stepped(inner, true, AfterOk(c, t))
      case Deliver(Err(t)) => Stepped(inner, true, AfterError(c, t))
      case Escape(_) => Stepped(inner, true, c)
      case Quiet => Stepped(inner, true, c)
    else if c.error.None? then Stepped(Deliver(Ok(c.value.value)), false, c)
    else Stepped(Deliver(Err(c.error.value)), false, c)
  }

  /** The memoizing computation. `OnOk` and `OnError` are the callbacks of the case it hands its source. */
  class Memo<T> {
    var value: Option<T>
    var error: Option<Error>
    var done: bool

    function State(): Cache<T>
      reads this
    {
      Cache(value, error, done)
    }

    constructor()
      ensures State() == Empty()
    {
      value, error, done := None, None, false;
    }

    /** `clear()`. */
    method Clear()
      modifies this
      ensures State() == Empty()
    {
      value := None;
      error := None;
      done := false;
    }

    method OnOk(t: T) returns (s: Signal<T>)
      modifies this
      ensures s == Deliver(Ok(t)) && State() == AfterOk(old(State()), t)
    {
      value := Some(t);
      done := true;
      s := Deliver(Ok(t));
    }

    method OnError(t: Error) returns (s: Signal<T>)
      modifies this
      ensures s == Deliver(Err(t)) && State() == AfterError(old(State()), t)
    {
      error := Some(t);
      done := true;
      s := Deliver(Err(t));
    }

    /** `select`; `inner` is what the source does if it is selected. */
    method Select(inner: Signal<T>) returns (s: Signal<T>, selected: bool)
      requires Valid(State())
      modifies this
      ensures Valid(State())
      ensures Stepped(s, selected, State()) == Step(old(State()), inner)
    {
      if !done {
        selected := true;
        match inner {
          case Deliver(Ok(t)) => s := OnOk(t);
          case Deliver(Err(t)) => s := OnError(t);
          case Escape(_) => s := inner;
          case Quiet => s := inner;
        }
      } else if error.None? {
        return Deliver(Ok(value.value)), false;
      } else {
        return Deliver(Err(error.value)), false;
      }
    }
  }

  // ---------------------------------------------------------------------
  // Properties

  /** The callbacks and `clear()` keep the cache consistent, whatever order late answers arrive in. */
  lemma OperationsKeepValid<T>(c: Cache<T>, t: T, e: Error)
    requires Valid(c)
    ensures Valid(AfterOk(c, t)) && Valid(AfterError(c, e)) && Valid(Empty<T>())
  {
  }

  /** What successive selects produce, and how many of them reached the source. */
  datatype Trace<T> = Trace(outputs: seq<Signal<T>>, selected: nat, cache: Cache<T>)

  /** `inners[k]` is what the source would do on its (k+1)-th select. */
  function Feed<T>(c: Cache<T>, selects: nat, inners: seq<Signal<T>>): (r: Trace<T>)
    requires Valid(c)
    decreases selects
  {
    if selects == 0 then Trace([], 0, c)
    else if !c.done && |inners| == 0 then Trace([], 0, c)
    else
      var st := Step(c, if c.done then Quiet else inners[0]);
      var rest := Feed(st.cache, selects - 1, if st.selected then inners[1..] else inners);
      Trace([st.signal] + rest.outputs, rest.selected + (if st.selected then 1 else 0), rest.cache)
  }

  /** A done cache answers every select by itself and never selects the source. */
  lemma {:induction false} DoneReplays<T>(c: Cache<T>, selects: nat, inners: seq<Signal<T>>)
    requires Valid(c) && c.done
    ensures Feed(c, selects, inners) == Trace(Repeat(Answer(c), selects), 0, c)
    decreases selects
  {
    if selects > 0 {
      DoneReplays(c, selects - 1, inners);
      assert Repeat(Answer(c), selects) == [Answer(c)] + Repeat(Answer(c), selects - 1);
    }
  }

  /**
   * On a fresh (or cleared) cache, the first select calls the source once;
   * when it answers `o` there and then, every later select replays `o`
   * without calling the source again, a null value included.
   */
  lemma FirstOutcomeReplayed<T>(selects: nat, inners: seq<Signal<T>>, o: Outcome<T>)
    requires selects >= 1 && |inners| >= 1 && inners[0] == Deliver(o)
    ensures Feed(Empty(), selects, inners) == Trace(Repeat(Deliver(o), selects), 1, Step(Empty(), Deliver(o)).cache)
  {
    var c := Step(Empty<T>(), Deliver(o)).cache;
    DoneReplays(c, selects - 1, inners[1..]);
    assert Answer(c) == Deliver(o);
    assert Repeat(Deliver(o), selects) == [Deliver(o)] + Repeat(Deliver(o), selects - 1);
  }

  /**
   * While the first answer is still pending, the cache is not done, so a
   * second select calls the source again.
   */
  lemma PendingSelectsAgain<T>(c: Cache<T>, later: Signal<T>)
    requires Valid(c) && !c.done
    ensures Step(c, Quiet).cache == c
    ensures Step(Step(c, Quiet).cache, later).selected
  {
  }

  /** `clear()` forgets the answer: the next select reaches the source again. */
  lemma ClearReselects<T>(inner: Signal<T>)
    ensures Step(Empty(), inner).selected && Step(Empty(), inner).signal == inner
  {
  }

  /**
   * Two selects both pending: if one answers `error(e)`, a later `ok` from
   * the other does not replace the error, which is replayed until `clear()`.
   */
  lemma StoredErrorWins<T>(c: Cache<T>, e: Error, t: T, inner: Signal<T>)
    requires Valid(c)
    ensures Step(AfterOk(AfterError(c, e), t), inner).signal == Deliver(Err(e))
    ensures Step(AfterError(AfterOk(c, t), e), inner).signal == Deliver(Err(e))
  {
  }
}
