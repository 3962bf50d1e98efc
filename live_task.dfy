/**
 * `LiveTask` (LiveTask.java): publishes the progress of a keyed
 * computation into a `LiveField`. Posting a key publishes `running(key,
 * value)`, applies the producer to the key and selects the computation it
 * returns; its success is remembered in `value` and published as
 * `done(key, v)`, its failure as `failed(key, e)`. A RuntimeException
 * thrown on the way (by the producer, by `select`, or by an observer
 * called from a callback) is published as `failed(key, e)` too. An
 * observer's throw from a callback first meets the catch clauses the
 * computation put around that callback (`Try.of`, `map`, `flatMap`,
 * `Filter`): each clause that catches it calls `error`, which publishes
 * `failed(key, e)` once more.
 *
 * The producer is a total function: `Err(e)` means `apply` throws `e`,
 * `Ok(g)` that it returns a computation whose select does `g.signal`
 * inside the clauses `g.clauses`. A published progress of `None` is the
 * null that `postValue(null)` publishes.
 */
module LiveTask {
  import opened Outcomes
  import Task
  import Try
  import LiveField
  import LiveFieldFacts
  import Lifecycle

  /** The publications of one post, in order, the remembered value after it, and what escaped it. */
  datatype Posted<P, V> = Posted(published: seq<P>, value: V, thrown: Option<Error>)

  /** The publications `failed(k, e)` of the errors `es`, in order. */
  function Failures<I, O>(k: I, es: seq<Error>): (ps: seq<Option<Task.Task<I, O>>>)
    ensures |ps| == |es|
  {
    seq(|es|, i requires 0 <= i < |es| => Some(Task.Failed(k, es[i])))
  }

  /** The failure of `e` comes before those of the errors after it. */
  lemma FailuresCons<I, O>(k: I, e: Error, es: seq<Error>)
    ensures Failures<I, O>(k, [e] + es) == [Some(Task.Failed(k, e))] + Failures<I, O>(k, es)
  {
  }

  /**
   * The `catch (RuntimeException t)` clause around the producer and the
   * select: a RuntimeException is published as `failed(k, e)`; anything
   * else escapes `postValue`.
   */
  function Catch<I, O>(k: I, published: seq<Option<Task.Task<I, O>>>, value: Option<O>, e: Error,
                       throws: seq<Option<Error>>): Posted<Option<Task.Task<I, O>>, Option<O>>
  {
    if IsRuntime(e) then Posted(published + [Some(Task.Failed(k, e))], value, Nth(throws, |published|))
    else Posted(published, value, Some(e))
  }

  /**
   * The try block of `postValue(key)`, once `running(k, current)` is
   * published: the publications so far, the remembered value, and the
   * throwable the block ends with, not yet caught. A callback's
   * publication is the second one of the post; when it throws, the
   * computation's clauses around the callback publish a failure for each
   * clause that catches, the `i`-th publication throwing `throws[i]`.
   */
  function TryBlock<I, O>(k: I, current: Option<O>, producer: I -> Outcome<Guarded<O>>,
                          throws: seq<Option<Error>>): Posted<Option<Task.Task<I, O>>, Option<O>>
  {
    match producer(k)
    case Err(e) => Posted([Some(Task.Running(k, current))], current, Some(e))
    case Ok(Guarded(Quiet, _)) => Posted([Some(Task.Running(k, current))], current, None)
    case Ok(Guarded(Escape(e), _)) => Posted([Some(Task.Running(k, current))], current, Some(e))
    case Ok(Guarded(Deliver(o), clauses)) => Callback(k, current, o, clauses, throws)
  }

  /**
   * A callback with `o` made inside `clauses`, after `running(k, current)`:
   * `done(k, v)` remembering `v`, or `failed(k, t)`; then a `failed` for
   * each clause that catches what the publication before it threw.
   */
  function Callback<I, O>(k: I, current: Option<O>, o: Outcome<O>, clauses: seq<Clause>,
                          throws: seq<Option<Error>>): Posted<Option<Task.Task<I, O>>, Option<O>>
  {
    var r := Rerouted(Nth(throws, 1), clauses, if |throws| > 2 then throws[2..] else []);
    match o
    case Ok(v) => Posted([Some(Task.Running(k, current)), Some(Task.Done(k, v))] + Failures(k, r.0), Some(v), r.1)
    case Err(t) => Posted([Some(Task.Running(k, current)), Some(Task.Failed(k, t))] + Failures(k, r.0), current, r.1)
  }

  /**
   * The publications of a callback: `running`, the callback's own, then
   * at most one `failed` per clause, each reporting what the publication
   * before it threw; what is left is what the last publication threw.
   */
  lemma CallbackShape<I, O>(k: I, current: Option<O>, o: Outcome<O>, clauses: seq<Clause>, throws: seq<Option<Error>>)
    ensures var p := Callback(k, current, o, clauses, throws);
      2 <= |p.published| <= 2 + |clauses| && p.thrown == Nth(throws, |p.published| - 1) &&
      p.published[0] == Some(Task.Running(k, current)) &&
      p.published[1] == (if o.Ok? then Some(Task.Done(k, o.value)) else Some(Task.Failed(k, o.error))) &&
      p.value == (if o.Ok? then Some(o.value) else current)
    ensures var p := Callback(k, current, o, clauses, throws);
      forall j :: 1 <= j < |p.published| - 1 ==> Nth(throws, j).Some? && p.published[j + 1] == Some(Task.Failed(k, Nth(throws, j).value))
  {
    var after := if |throws| > 2 then throws[2..] else [];
    assert forall i: nat :: Nth(after, i) == Nth(throws, i + 2);
    ReroutedChain(Nth(throws, 1), clauses, after);
    var r := Rerouted(Nth(throws, 1), clauses, after);
    var p := Callback(k, current, o, clauses, throws);
    forall j | 1 <= j < |p.published| - 1
      ensures Nth(throws, j).Some? && p.published[j + 1] == Some(Task.Failed(k, Nth(throws, j).value))
    {
      assert p.published[j + 1] == Failures<I, O>(k, r.0)[j - 1];
      if j > 1 {
        assert Nth(after, j - 2) == Some(r.0[j - 1]);
      }
    }
  }

  /** The catch clause applied to what the try block ended with. */
  function Caught<I, O>(k: I, tried: Posted<Option<Task.Task<I, O>>, Option<O>>,
                        throws: seq<Option<Error>>): Posted<Option<Task.Task<I, O>>, Option<O>>
  {
    match tried.thrown
    case None => tried
    case Some(e) => Catch(k, tried.published, tried.value, e, throws)
  }

  /**
   * `postValue(key)` from the remembered value `current`, when the
   * successive publications throw `throws` out of the field.
   */
  function PostPlan<I, O>(key: Option<I>, current: Option<O>, producer: I -> Outcome<Guarded<O>>,
                          throws: seq<Option<Error>>): Posted<Option<Task.Task<I, O>>, Option<O>>
  {
    match key
    case None => Posted([None], current, Nth(throws, 0))
    case Some(k) =>
      if Nth(throws, 0).Some? then Posted([Some(Task.Running(k, current))], current, Nth(throws, 0))
      else Caught(k, TryBlock(k, current, producer, throws), throws)
  }

  /** What the try block does depends only on what its own publications threw. */
  lemma TryBlockExtends<I, O>(k: I, current: Option<O>, producer: I -> Outcome<Guarded<O>>,
                              throws: seq<Option<Error>>, more: seq<Option<Error>>)
    requires |throws| >= |TryBlock(k, current, producer, throws).published|
    ensures TryBlock(k, current, producer, throws + more) == TryBlock(k, current, producer, throws)
  {
    match producer(k)
    case Ok(Guarded(Deliver(_), clauses)) =>
      var after := if |throws| > 2 then throws[2..] else [];
      CallbackShape(k, current, producer(k).value.signal.outcome, clauses, throws);
      assert (if |throws + more| > 2 then (throws + more)[2..] else []) == after + more;
      ReroutedExtends(Nth(throws, 1), clauses, after, more);
    case _ =>
  }

  class LiveTask<I, O> {
    const delegate: LiveField.LiveField<Option<Task.Task<I, O>>>
    const producer: I -> Outcome<Guarded<O>>
    /** The last success, `null` at first. */
    var value: Option<O>
    /** Everything posted to the delegate so far. */
    ghost var published: seq<Option<Task.Task<I, O>>>
    /** The keys the producer has been applied to so far. */
    ghost var applied: seq<I>

    /** `new LiveTask(delegate, producer)`. */
    constructor(delegate: LiveField.LiveField<Option<Task.Task<I, O>>>, producer: I -> Outcome<Guarded<O>>)
      ensures this.delegate == delegate && this.producer == producer
      ensures value.None? && published == [] && applied == []
    {
      this.delegate := delegate;
      this.producer := producer;
      value := None;
      published, applied := [], [];
    }

    /** The delegate is consistent, as every `LiveField` operation keeps it. */
    ghost predicate Valid()
      reads delegate
    {
      LiveFieldFacts.Valid(delegate.Abs())
    }

    /** `delegate.postValue(t)`, recorded. */
    method Publish(t: Option<Task.Task<I, O>>) returns (thrown: Option<Error>, ghost order: seq<LiveField.Owner>)
      requires Valid()
      modifies this, delegate
      ensures published == old(published) + [t] && value == old(value) && applied == old(applied)
      ensures LiveField.Step(delegate.Abs(), thrown) == LiveField.SetValueF(delegate.react, old(delegate.Abs()), t, order)
      ensures var a := LiveField.SetValueAsWritten(delegate.react, old(delegate.Abs()), t, order);
        a == LiveField.Step(delegate.Abs(), thrown) || (a.thrown == Some(ConcurrentModification) && a.field.log <= delegate.log)
      ensures Valid() && delegate.hasValue && delegate.value == Some(t)
      ensures (forall id, x :: !delegate.react(id, x).Throw?) ==> thrown.None?
    {
      ghost var before := delegate.Abs();
      thrown, order := delegate.PostValue(t);
      published := published + [t];
      LiveFieldFacts.SetValueAsWrittenIsCutShort(delegate.react, before, t, order);
      LiveFieldFacts.SetValueKeepsValid(delegate.react, before, t, order);
      if forall id, x :: !delegate.react(id, x).Throw? {
        LiveFieldFacts.SetValueQuiet(delegate.react, before, t, order);
      }
    }

    /** `Case.ok(o)` of the case handed to the computation: remember, then publish `done`. */
    method OnOk(k: I, o: O) returns (thrown: Option<Error>)
      requires Valid()
      modifies this, delegate
      ensures value == Some(o) && published == old(published) + [Some(Task.Done(k, o))] && applied == old(applied)
      ensures Valid() && delegate.value == Some(Some(Task.Done(k, o)))
      ensures (forall id, x :: !delegate.react(id, x).Throw?) ==> thrown.None?
    {
      value := Some(o);
      ghost var order;
      thrown, order := Publish(Some(Task.Done(k, o)));
    }

    /** `Case.error(t)`: publish `failed`, leaving the value alone. */
    method OnError(k: I, t: Error) returns (thrown: Option<Error>)
      requires Valid()
      modifies this, delegate
      ensures value == old(value) && published == old(published) + [Some(Task.Failed(k, t))] && applied == old(applied)
      ensures Valid() && delegate.value == Some(Some(Task.Failed(k, t)))
      ensures (forall id, x :: !delegate.react(id, x).Throw?) ==> thrown.None?
    {
      ghost var order;
      thrown, order := Publish(Some(Task.Failed(k, t)));
    }

    /**
     * `postValue(key)`. `throws` lists what each publication threw out of
     * the field; they are ended by the first exception that escapes.
     */
    method PostValue(key: Option<I>) returns (thrown: Option<Error>, ghost throws: seq<Option<Error>>)
      requires Valid()
      modifies this, delegate
      ensures var plan := PostPlan(key, old(value), producer, throws);
        published == old(published) + plan.published && value == plan.value && thrown == plan.thrown &&
        |throws| == |plan.published|
      ensures applied == old(applied) + (if key.Some? && throws[0].None? then [key.value] else [])
      ensures Valid() && delegate.value == Some(published[|published| - 1])
      ensures (forall id, x :: !delegate.react(id, x).Throw?) ==> forall i :: 0 <= i < |throws| ==> throws[i].None?
    {
      if key.None? {
        ghost var order;
        thrown, order := Publish(None);
        throws := [thrown];
      } else {
        thrown, throws := PostKey(key.value);
      }
    }

    /** `postValue(key)` for a non-null key. */
    method PostKey(k: I) returns (thrown: Option<Error>, ghost throws: seq<Option<Error>>)
      requires Valid()
      modifies this, delegate
      ensures var plan := PostPlan(Some(k), old(value), producer, throws);
        published == old(published) + plan.published && value == plan.value && thrown == plan.thrown &&
        |throws| == |plan.published|
      ensures applied == old(applied) + (if throws[0].None? then [k] else [])
      ensures Valid() && delegate.value == Some(published[|published| - 1])
      ensures (forall id, x :: !delegate.react(id, x).Throw?) ==> forall i :: 0 <= i < |throws| ==> throws[i].None?
    {
      var oldValue := value;
      ghost var order;
      thrown, order := Publish(Some(Task.Running(k, oldValue)));
      throws := [thrown];
      if thrown.None? {
        ghost var rest;
        thrown, rest := Run(k);
        throws := throws + rest;
        assert throws == [None] + rest;
        PlanStartsRunning(k, oldValue, producer, throws);
      }
    }

    /**
     * The try block of `postValue(key)` and its catch clause, once
     * `running(key, value)` has been published without a throw; `rest`
     * lists what the later publications threw out of the field.
     */
    method Run(k: I) returns (thrown: Option<Error>, ghost rest: seq<Option<Error>>)
      requires Valid() && |published| > 0 && delegate.value == Some(published[|published| - 1])
      modifies this, delegate
      ensures var plan := PostPlan(Some(k), old(value), producer, [None] + rest);
        |plan.published| == |rest| + 1 && published == old(published) + plan.published[1..] &&
        value == plan.value && thrown == plan.thrown
      ensures applied == old(applied) + [k]
      ensures Valid() && delegate.value == Some(published[|published| - 1])
      ensures (forall id, x :: !delegate.react(id, x).Throw?) ==> forall i :: 0 <= i < |rest| ==> rest[i].None?
    {
      var failure: Option<Error>;
      failure, rest := TryProducer(k);
      ghost var tried := TryBlock(k, old(value), producer, [None] + rest);
      if failure.Some? && IsRuntime(failure.value) {
        ghost var order;
        thrown, order := Publish(Some(Task.Failed(k, failure.value)));
        TryBlockExtends(k, old(value), producer, [None] + rest, [thrown]);
        assert [None] + (rest + [thrown]) == [None] + rest + [thrown];
        rest := rest + [thrown];
      } else {
        thrown := failure;
      }
    }

    /**
     * The try block of `postValue(key)`: the producer applied to the key
     * and the computation it returns selected. `failure` is the throwable
     * the block ends with, for the catch clause to look at.
     */
    method TryProducer(k: I) returns (failure: Option<Error>, ghost rest: seq<Option<Error>>)
      requires Valid() && |published| > 0 && delegate.value == Some(published[|published| - 1])
      modifies this, delegate
      ensures var tried := TryBlock(k, old(value), producer, [None] + rest);
        |tried.published| == |rest| + 1 && published == old(published) + tried.published[1..] &&
        value == tried.value && failure == tried.thrown
      ensures applied == old(applied) + [k]
      ensures Valid() && delegate.value == Some(published[|published| - 1])
      ensures (forall id, x :: !delegate.react(id, x).Throw?) ==> forall i :: 0 <= i < |rest| ==> rest[i].None?
    {
      applied := applied + [k];
      failure, rest := None, [];
      match producer(k) {
        case Err(e) => failure := Some(e);
        case Ok(Guarded(Quiet, _)) =>
        case Ok(Guarded(Escape(e), _)) => failure := Some(e);
        case Ok(Guarded(Deliver(o), clauses)) => failure, rest := Answer(k, o, clauses);
      }
    }

    /**
     * The case handed to the computation, called with `o` inside the
     * computation's `clauses`: `ok` or `error`, then what the clauses do
     * with the publication's throw.
     */
    method Answer(k: I, o: Outcome<O>, clauses: seq<Clause>) returns (failure: Option<Error>, ghost rest: seq<Option<Error>>)
      requires Valid() && |published| > 0 && delegate.value == Some(published[|published| - 1])
      modifies this, delegate
      ensures var p := Callback(k, old(value), o, clauses, [None] + rest);
        |p.published| == |rest| + 1 && published == old(published) + p.published[1..] &&
        value == p.value && failure == p.thrown
      ensures applied == old(applied)
      ensures Valid() && delegate.value == Some(published[|published| - 1])
      ensures (forall id, x :: !delegate.react(id, x).Throw?) ==> forall i :: 0 <= i < |rest| ==> rest[i].None?
    {
      var thrown;
      if o.Ok? {
        thrown := OnOk(k, o.value);
      } else {
        thrown := OnError(k, o.error);
      }
      ghost var more;
      failure, more := Reroute(k, thrown, clauses);
      rest := [thrown] + more;
      assert Nth([None] + rest, 1) == thrown && ([None] + rest)[2..] == more;
    }

    /**
     * The computation's catch clauses around a callback that threw
     * `thrown`: each clause that catches the throwable calls `error`,
     * which publishes `failed(k, e)`, and what that publication throws
     * goes on to the clauses outside it. `more` lists what those
     * publications threw; `left` is what no clause caught.
     */
    method Reroute(k: I, thrown: Option<Error>, clauses: seq<Clause>) returns (left: Option<Error>, ghost more: seq<Option<Error>>)
      requires Valid() && |published| > 0 && delegate.value == Some(published[|published| - 1])
      modifies this, delegate
      decreases |clauses|
      ensures var r := Rerouted(thrown, clauses, more);
        published == old(published) + Failures(k, r.0) && left == r.1 && |more| == |r.0|
      ensures value == old(value) && applied == old(applied)
      ensures Valid() && |published| > 0 && delegate.value == Some(published[|published| - 1])
      ensures thrown.None? ==> more == []
    {
      if thrown.None? || |clauses| == 0 {
        left, more := thrown, [];
        return;
      }
      var e := thrown.value;
      if Catches(clauses[0], e) {
        var next := OnError(k, e);
        ghost var rest;
        left, rest := Reroute(k, next, clauses[1..]);
        more := [next] + rest;
        ReroutedStep(e, clauses, next, rest);
        FailuresCons<I, O>(k, e, Rerouted(next, clauses[1..], rest).0);
      } else {
        left, more := Reroute(k, thrown, clauses[1..]);
      }
    }

    /** `observe(owner, observer)`: delegated. */
    method Observe(o: LiveField.Owner, s: Lifecycle.State, r: LiveField.Receiver) returns (thrown: Option<Error>)
      modifies delegate
      ensures LiveField.Step(delegate.Abs(), thrown) ==
              LiveField.ObserveF(delegate.config, delegate.react, old(delegate.Abs()), o, s, r)
    {
      thrown := delegate.Observe(o, s, r);
    }

    /** `observeForever(observer)`: the inherited default, through `observe`. */
    method ObserveForever(r: LiveField.Receiver) returns (thrown: Option<Error>)
      modifies delegate
      ensures LiveField.Step(delegate.Abs(), thrown) ==
              LiveField.ObserveF(delegate.config, delegate.react, old(delegate.Abs()), LiveField.Eternal, Lifecycle.Resumed, r)
    {
      thrown := delegate.ObserveForever(r);
    }

    /** `removeObservers(owner)`: delegated. */
    method RemoveObservers(o: LiveField.Owner)
      modifies delegate
      ensures delegate.Abs() == LiveField.RemoveObserversF(old(delegate.Abs()), o)
    {
      delegate.RemoveObservers(o);
    }

    /** `removeObserver(observer)`: delegated. */
    method RemoveObserver(r: LiveField.Receiver) returns (thrown: Option<Error>)
      modifies delegate
      ensures LiveField.Step(delegate.Abs(), thrown) == LiveField.RemoveObserverF(old(delegate.Abs()), r)
    {
      thrown := delegate.RemoveObserver(r);
    }
  }

  // ---------------------------------------------------------------------
  // Properties

  /** A post of a key that `running` did not throw from starts with `running`. */
  lemma PlanStartsRunning<I, O>(k: I, current: Option<O>, producer: I -> Outcome<Guarded<O>>, throws: seq<Option<Error>>)
    ensures var p := PostPlan(Some(k), current, producer, throws);
      |p.published| >= 1 && p.published[0] == Some(Task.Running(k, current))
  {
    match producer(k)
    case Ok(Guarded(Deliver(o), clauses)) => CallbackShape(k, current, o, clauses, throws);
    case _ =>
  }

  /** How many catch clauses a built computation puts around its callback. */
  function ClauseCount<O>(built: Outcome<Guarded<O>>): nat
  {
    if built.Ok? then |built.value.clauses| else 0
  }

  /**
   * A non-null key is published as `running(key, current)` first, then
   * `done` or `failed` for that key; every publication after the second is
   * a `failed` reporting what the publication before it threw, one for
   * each of the computation's clauses that caught it and one for the
   * catch of `postValue` itself.
   */
  lemma RunningComesFirst<I, O>(k: I, current: Option<O>, producer: I -> Outcome<Guarded<O>>, throws: seq<Option<Error>>)
    ensures var p := PostPlan(Some(k), current, producer, throws);
      1 <= |p.published| <= 3 + ClauseCount(producer(k)) && p.published[0] == Some(Task.Running(k, current)) &&
      (forall i :: 1 <= i < |p.published| ==>
         p.published[i].Some? && !p.published[i].value.Running? && p.published[i].value.key == k) &&
      (forall j :: 1 <= j < |p.published| - 1 ==>
         Nth(throws, j).Some? && p.published[j + 1] == Some(Task.Failed(k, Nth(throws, j).value)))
  {
    if Nth(throws, 0).None? {
      match producer(k)
      case Ok(Guarded(Deliver(o), clauses)) => CallbackShape(k, current, o, clauses, throws);
      case _ =>
    }
  }

  /**
   * The remembered value changes only through a published `done`, and
   * then it is that done's value; a failure leaves it alone.
   */
  lemma ValueFollowsDone<I, O>(key: Option<I>, current: Option<O>, producer: I -> Outcome<Guarded<O>>, throws: seq<Option<Error>>)
    ensures var p := PostPlan(key, current, producer, throws);
      (forall i :: 0 <= i < |p.published| && p.published[i].Some? && p.published[i].value.Done? ==>
         p.value == Some(p.published[i].value.value)) &&
      (p.value != current ==>
         exists i :: 0 <= i < |p.published| && p.published[i].Some? && p.published[i].value.Done? &&
                     p.value == Some(p.published[i].value.value))
  {
    var p := PostPlan(key, current, producer, throws);
    if p.value != current {
      assert p.published[1].Some? && p.published[1].value.Done?;
    }
  }

  /**
   * When no observer throws, a post publishes `running`, then `done` or
   * `failed` according to the computation; a RuntimeException from the
   * producer or from `select` becomes `failed`, any other throwable
   * escapes, and a computation that answers later leaves `running` alone.
   */
  lemma QuietPost<I, O>(k: I, current: Option<O>, producer: I -> Outcome<Guarded<O>>)
    ensures var p := PostPlan(Some(k), current, producer, []);
      var running := Some(Task.Running(k, current));
      match producer(k)
      case Ok(Guarded(Deliver(Ok(o)), _)) => p == Posted([running, Some(Task.Done(k, o))], Some(o), None)
      case Ok(Guarded(Deliver(Err(t)), _)) => p == Posted([running, Some(Task.Failed(k, t))], current, None)
      case Ok(Guarded(Quiet, _)) => p == Posted([running], current, None)
      case Ok(Guarded(Escape(e), _)) =>
        p == if IsRuntime(e) then Posted([running, Some(Task.Failed(k, e))], current, None) else Posted([running], current, Some(e))
      case Err(e) =>
        p == if IsRuntime(e) then Posted([running, Some(Task.Failed(k, e))], current, None) else Posted([running], current, Some(e))
  {
  }

  /**
   * An observer relying on the inherited `failed` rethrows a failure: the
   * rethrown error is caught and published again as `failed`, the observer
   * rethrows it once more, and this time it escapes `postValue`.
   */
  lemma DefaultFailedCrashesCaller<I, O>(k: I, current: Option<O>, producer: I -> Outcome<Guarded<O>>, t: Error,
                                         running: (I, Option<O>) -> (), done: (I, O) -> ())
    requires producer(k) == Ok(Try.GuardedRaise(t)) && IsRuntime(t)
    ensures Task.Select(Task.Failed(k, t), Task.WithDefaultFailed(running, done)) == Err(t)
    ensures PostPlan(Some(k), current, producer, [None, Some(t), Some(t)]) ==
            Posted([Some(Task.Running(k, current)), Some(Task.Failed(k, t)), Some(Task.Failed(k, t))], current, Some(t))
  {
  }

  /**
   * `Try.of(() -> o)` with an observer that throws `r1` from `done` and
   * `r2` from the `failed` after it: the clause of `of` publishes
   * `failed(r1)`, the catch of `postValue` publishes `failed(r2)`, and
   * nothing escapes.
   */
  lemma ObserverThrowsIntoOf<I, O>(k: I, current: Option<O>, producer: I -> Outcome<Guarded<O>>, o: O, r1: Error, r2: Error)
    requires producer(k) == Ok(Try.GuardedOf(Ok(o))) && IsRuntime(r1) && IsRuntime(r2)
    ensures PostPlan(Some(k), current, producer, [None, Some(r1), Some(r2)]) ==
            Posted([Some(Task.Running(k, current)), Some(Task.Done(k, o)), Some(Task.Failed(k, r1)), Some(Task.Failed(k, r2))],
                   Some(o), None)
  {
    Try.OfReroutesOk(Ok(o), r1, [Some(r2)]);
  }

  /** Successive posts with quiet observers: everything published, and the value remembered at the end. */
  function Session<I, O>(keys: seq<Option<I>>, current: Option<O>, producer: I -> Outcome<Guarded<O>>): (r: (seq<Option<Task.Task<I, O>>>, Option<O>))
    decreases |keys|
  {
    if |keys| == 0 then ([], current)
    else
      var p := PostPlan(keys[0], current, producer, []);
      var rest := Session(keys[1..], p.value, producer);
      (p.published + rest.0, rest.1)
  }

  /**
   * The producer `key -> Try.of(() -> 12 / key)`: Java's `12 / key`
   * truncates toward zero and throws ArithmeticException on zero, which
   * `of` hands to `error`.
   */
  function DivideTwelve(key: int): (r: Outcome<Guarded<int>>)
    ensures r.Ok? && r.value.signal.Deliver?
    ensures key == 0 <==> r.value.signal.outcome == Err(Arithmetic)
    ensures key > 0 ==> r.value.signal.outcome == Ok(12 / key) && r.value.signal.outcome.value * key <= 12
    ensures key < 0 ==> r.value.signal.outcome == Ok(-(12 / -key)) && r.value.signal.outcome.value * key <= 12
  {
    Ok(Try.GuardedOf(if key == 0 then Err(Arithmetic) else if key > 0 then Ok(12 / key) else Ok(-(12 / -key))))
  }

  /**
   * A task producing `Try.of(() -> 12 / key)`, run inline (without the
   * `.pipe(Execute.on(BG))` of LiveTaskTest.java:43, so each key completes
   * before the next is posted), posted 6, 4, 3, 2 and 0: each key runs with
   * the previous key's result and completes with its own, and the zero key
   * fails with ArithmeticException, in submission order; unwrapping the
   * last progress rethrows that exception.
   */
  lemma DivisionScenario()
    ensures Session([Some(6), Some(4), Some(3), Some(2), Some(0)], None, DivideTwelve) ==
            ([Some(Task.Running(6, None)), Some(Task.Done(6, 2)),
              Some(Task.Running(4, Some(2))), Some(Task.Done(4, 3)),
              Some(Task.Running(3, Some(3))), Some(Task.Done(3, 4)),
              Some(Task.Running(2, Some(4))), Some(Task.Done(2, 6)),
              Some(Task.Running(0, Some(6))), Some(Task.Failed(0, Arithmetic))], Some(6))
    ensures var last := Session([Some(6), Some(4), Some(3), Some(2), Some(0)], None, DivideTwelve).0[9];
      last.Some? && Try.Unwrap(Task.ToTry(last.value)) == Try.Throws(Arithmetic)
  {
    DivisionFrom4();
    SessionDone(6, [Some(4), Some(3), Some(2), Some(0)], None, DivideTwelve, 2);
    assert [Some(6)] + [Some(4), Some(3), Some(2), Some(0)] == [Some(6), Some(4), Some(3), Some(2), Some(0)];
    assert [Some(Task.Running(6, None)), Some(Task.Done(6, 2))] + [Some(Task.Running(4, Some(2))), Some(Task.Done(4, 3)),
              Some(Task.Running(3, Some(3))), Some(Task.Done(3, 4)),
              Some(Task.Running(2, Some(4))), Some(Task.Done(2, 6)),
              Some(Task.Running(0, Some(6))), Some(Task.Failed(0, Arithmetic))] ==
           [Some(Task.Running(6, None)), Some(Task.Done(6, 2)),
              Some(Task.Running(4, Some(2))), Some(Task.Done(4, 3)),
              Some(Task.Running(3, Some(3))), Some(Task.Done(3, 4)),
              Some(Task.Running(2, Some(4))), Some(Task.Done(2, 6)),
              Some(Task.Running(0, Some(6))), Some(Task.Failed(0, Arithmetic))];
  }

  /** A post whose computation succeeds at once, followed by more posts. */
  lemma SessionDone<I, O>(k: I, keys: seq<Option<I>>, current: Option<O>, producer: I -> Outcome<Guarded<O>>, o: O)
    requires producer(k).Ok? && producer(k).value.signal == Deliver(Ok(o))
    ensures var rest := Session(keys, Some(o), producer);
      Session([Some(k)] + keys, current, producer) == ([Some(Task.Running(k, current)), Some(Task.Done(k, o))] + rest.0, rest.1)
  {
    var p := PostPlan(Some(k), current, producer, []);
    assert p == Posted([Some(Task.Running(k, current)), Some(Task.Done(k, o))], Some(o), None);
    assert ([Some(k)] + keys)[1..] == keys;
    var rest := Session(keys, Some(o), producer);
    assert Session([Some(k)] + keys, current, producer) == (p.published + rest.0, rest.1);
  }

  lemma DivisionFrom0()
    ensures Session([Some(0)], Some(6), DivideTwelve) ==
            ([Some(Task.Running(0, Some(6))), Some(Task.Failed(0, Arithmetic))], Some(6))
  {
    var p := PostPlan(Some(0), Some(6), DivideTwelve, []);
    assert p.published == [Some(Task.Running(0, Some(6))), Some(Task.Failed(0, Arithmetic))] && p.value == Some(6);
    var tail := Session([], Some(6), DivideTwelve);
    assert [Some(0)][1..] == [] && tail == ([], Some(6));
    assert Session([Some(0)], Some(6), DivideTwelve) == (p.published + tail.0, tail.1);
    assert p.published + tail.0 == p.published;
  }

  lemma DivisionFrom2()
    ensures Session([Some(2), Some(0)], Some(4), DivideTwelve) ==
            ([Some(Task.Running(2, Some(4))), Some(Task.Done(2, 6)),
              Some(Task.Running(0, Some(6))), Some(Task.Failed(0, Arithmetic))], Some(6))
  {
    DivisionFrom0();
    SessionDone(2, [Some(0)], Some(4), DivideTwelve, 6);
    assert [Some(2)] + [Some(0)] == [Some(2), Some(0)];
    assert [Some(Task.Running(2, Some(4))), Some(Task.Done(2, 6))] + [Some(Task.Running(0, Some(6))), Some(Task.Failed(0, Arithmetic))] == [Some(Task.Running(2, Some(4))), Some(Task.Done(2, 6)),
              Some(Task.Running(0, Some(6))), Some(Task.Failed(0, Arithmetic))];
  }

  lemma DivisionFrom3()
    ensures Session([Some(3), Some(2), Some(0)], Some(3), DivideTwelve) ==
            ([Some(Task.Running(3, Some(3))), Some(Task.Done(3, 4)),
              Some(Task.Running(2, Some(4))), Some(Task.Done(2, 6)),
              Some(Task.Running(0, Some(6))), Some(Task.Failed(0, Arithmetic))], Some(6))
  {
    DivisionFrom2();
    SessionDone(3, [Some(2), Some(0)], Some(3), DivideTwelve, 4);
    assert [Some(3)] + [Some(2), Some(0)] == [Some(3), Some(2), Some(0)];
    assert [Some(Task.Running(3, Some(3))), Some(Task.Done(3, 4))] + [Some(Task.Running(2, Some(4))), Some(Task.Done(2, 6)),
              Some(Task.Running(0, Some(6))), Some(Task.Failed(0, Arithmetic))] == [Some(Task.Running(3, Some(3))), Some(Task.Done(3, 4)),
              Some(Task.Running(2, Some(4))), Some(Task.Done(2, 6)),
              Some(Task.Running(0, Some(6))), Some(Task.Failed(0, Arithmetic))];
  }

  lemma DivisionFrom4()
    ensures Session([Some(4), Some(3), Some(2), Some(0)], Some(2), DivideTwelve) ==
            ([Some(Task.Running(4, Some(2))), Some(Task.Done(4, 3)),
              Some(Task.Running(3, Some(3))), Some(Task.Done(3, 4)),
              Some(Task.Running(2, Some(4))), Some(Task.Done(2, 6)),
              Some(Task.Running(0, Some(6))), Some(Task.Failed(0, Arithmetic))], Some(6))
  {
    DivisionFrom3();
    SessionDone(4, [Some(3), Some(2), Some(0)], Some(2), DivideTwelve, 3);
    assert [Some(4)] + [Some(3), Some(2), Some(0)] == [Some(4), Some(3), Some(2), Some(0)];
    assert [Some(Task.Running(4, Some(2))), Some(Task.Done(4, 3))] + [Some(Task.Running(3, Some(3))), Some(Task.Done(3, 4)),
              Some(Task.Running(2, Some(4))), Some(Task.Done(2, 6)),
              Some(Task.Running(0, Some(6))), Some(Task.Failed(0, Arithmetic))] == [Some(Task.Running(4, Some(2))), Some(Task.Done(4, 3)),
              Some(Task.Running(3, Some(3))), Some(Task.Done(3, 4)),
              Some(Task.Running(2, Some(4))), Some(Task.Done(2, 6)),
              Some(Task.Running(0, Some(6))), Some(Task.Failed(0, Arithmetic))];
  }
}
