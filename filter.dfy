/**
 * `Filter` (transform/Filter.java): forwards a success only when a
 * predicate accepts it. The predicate may throw, so it returns an
 * `Outcome<bool>`.
 */
module Filter {
  import opened Outcomes

  /** `Filter.Partial`: the transformer waiting for its source. */
  datatype Partial<!T> = Partial(pred: T -> Outcome<bool>)

  /** `Filter.accept(p)`. */
  function Accept<T>(pred: T -> Outcome<bool>): (tr: Partial<T>)
    ensures tr.pred == pred
  {
    Partial(pred)
  }

  /** The predicate `t -> !p.apply(t)`; an exception from `p` is kept. */
  function Not<T>(p: T -> Outcome<bool>): T -> Outcome<bool>
  {
    (t: T) => match p(t)
              case Ok(b) => Ok(!b)
              case Err(e) => Err(e)
  }

  /** `Filter.reject(p)`: `accept(t -> !p.apply(t))`. */
  function Reject<T>(pred: T -> Outcome<bool>): (tr: Partial<T>)
  {
    Accept(Not(pred))
  }

  /**
   * `Filter.select`: a success the predicate accepts is forwarded, one it
   * refuses becomes `error(NotFound.INSTANCE)`, a RuntimeException from the
   * predicate becomes `error(e)`; source errors pass without calling it.
   */
  function Select<T>(src: Signal<T>, tr: Partial<T>): (s: Signal<T>)
  {
    match src
    case Deliver(Ok(t)) =>
      (match tr.pred(t)
       case Ok(true) => Deliver(Ok(t))
       case Ok(false) => Deliver(Err(NotFound))
       case Err(e) => CatchRuntime(e))
    case Deliver(Err(e)) => Deliver(Err(e))
    case Escape(e) => Escape(e)
    case Quiet => Quiet
  }

  /**
   * `Filter.select` with its clauses: the predicate and the continuation
   * call it leads to (`ok(t)` or `error(NotFound.INSTANCE)`) sit inside one
   * more `catch (RuntimeException e)`; a source error is passed on inside
   * the source's own clauses.
   */
  function GuardedSelect<T>(src: Guarded<T>, tr: Partial<T>): Guarded<T>
  {
    match src.signal
    case Deliver(Ok(t)) =>
      var clauses := [CatchesRuntime] + src.clauses;
      (match tr.pred(t)
       case Ok(true) => Guarded(Deliver(Ok(t)), clauses)
       case Ok(false) => Guarded(Deliver(Err(NotFound)), clauses)
       case Err(e) => Raised(clauses, e))
    case Deliver(Err(e)) => Guarded(Deliver(Err(e)), src.clauses)
    case Escape(e) => Guarded(Escape(e), [])
    case Quiet => Guarded(Quiet, [])
  }

  /**
   * For a continuation that never throws the clauses change nothing: a
   * predicate throws no checked exception, so the guarded select is
   * `Select` over every source. A continuation that throws a
   * RuntimeException from the call a decided value leads to, `ok` or
   * `error(NotFound)`, has it handed to `error`.
   */
  lemma GuardedSelectAgrees<T>(src: Guarded<T>, tr: Partial<T>, e: Error, more: seq<Option<Error>>)
    ensures (forall t :: tr.pred(t).Err? ==> !tr.pred(t).error.Checked?) ==>
            GuardedSelect(src, tr).signal == Select(src.signal, tr)
    ensures src.signal.Deliver? && src.signal.outcome.Ok? && tr.pred(src.signal.outcome.value).Ok? && IsRuntime(e) ==>
            |Rerouted(Some(e), GuardedSelect(src, tr).clauses, more).0| > 0 &&
            |GuardedSelect(src, tr).clauses| == |src.clauses| + 1
  {
    if src.signal.Deliver? && src.signal.outcome.Ok? && tr.pred(src.signal.outcome.value).Err? {
      RaisedOutcomes<T>([CatchesRuntime] + src.clauses, tr.pred(src.signal.outcome.value).error);
    }
  }

  // ---------------------------------------------------------------------
  // Properties

  /** The three fates of a success, and the pass-through of an error. */
  lemma SelectCases<T>(src: Signal<T>, p: T -> Outcome<bool>)
    ensures src.Deliver? && src.outcome.Ok? && p(src.outcome.value) == Ok(true) ==>
              Select(src, Accept(p)) == src
    ensures src.Deliver? && src.outcome.Ok? && p(src.outcome.value) == Ok(false) ==>
              Select(src, Accept(p)) == Deliver(Err(NotFound))
    ensures src.Deliver? && src.outcome.Ok? && p(src.outcome.value).Err? && IsRuntime(p(src.outcome.value).error) ==>
              Select(src, Accept(p)) == Deliver(Err(p(src.outcome.value).error))
    ensures !(src.Deliver? && src.outcome.Ok?) ==> Select(src, Accept(p)) == src
  {
  }

  /** A successful result of a filter is always the source's own success. */
  lemma SelectOkIsSourceOk<T>(src: Signal<T>, tr: Partial<T>)
    requires Select(src, tr).Deliver? && Select(src, tr).outcome.Ok?
    ensures src == Select(src, tr)
    ensures tr.pred(src.outcome.value) == Ok(true)
  {
  }

  /**
   * `accept(p)` and `reject(p)` split the successes: when `p` answers,
   * exactly one of them forwards the value and the other yields NotFound.
   */
  lemma AcceptRejectPartition<T>(t: T, p: T -> Outcome<bool>)
    requires p(t).Ok?
    ensures Select(Deliver(Ok(t)), Accept(p)) == Deliver(Ok(t)) <==>
            Select(Deliver(Ok(t)), Reject(p)) == Deliver(Err(NotFound))
    ensures Select(Deliver(Ok(t)), Accept(p)) == Deliver(Ok(t)) ||
            Select(Deliver(Ok(t)), Reject(p)) == Deliver(Ok(t))
  {
  }

  /** Rejecting by `not p` is accepting by `p`, on every source, even where `p` throws. */
  lemma RejectNotIsAccept<T>(src: Signal<T>, p: T -> Outcome<bool>)
    ensures Select(src, Reject(Not(p))) == Select(src, Accept(p))
  {
    match src
    case Deliver(Ok(t)) =>
      match p(t) {
        case Ok(b) =>
        case Err(e) =>
      }
    case Deliver(Err(e)) =>
    case Escape(e) =>
    case Quiet =>
  }

  /** Short-circuit conjunction of two predicates. */
  function Both<T>(p: T -> Outcome<bool>, q: T -> Outcome<bool>): T -> Outcome<bool>
  {
    (t: T) => match p(t)
              case Ok(true) => q(t)
              case Ok(false) => Ok(false)
              case Err(e) => Err(e)
  }

  /** Filtering twice is filtering once by the conjunction (for RuntimeExceptions). */
  lemma FilterTwice<T>(src: Signal<T>, p: T -> Outcome<bool>, q: T -> Outcome<bool>)
    requires forall t :: p(t).Err? ==> IsRuntime(p(t).error)
    ensures Select(Select(src, Accept(p)), Accept(q)) == Select(src, Accept(Both(p, q)))
  {
    match src
    case Deliver(Ok(t)) =>
      match p(t) {
        case Ok(b) =>
        case Err(e) =>
      }
    case Deliver(Err(e)) =>
    case Escape(e) =>
    case Quiet =>
  }
}
