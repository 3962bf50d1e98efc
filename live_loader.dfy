/**
 * `LiveLoader` (LiveLoader.java): publishes the progress of a computation
 * handed in as a `Try` into a `LiveField`. Posting a computation publishes
 * `running(value)` and selects it; its success is remembered in `value`
 * and published as `done(v)`, its failure as `failed(e)`. Unlike
 * `LiveTask`, `postValue` itself catches nothing: what the select throws
 * escapes it. An observer's throw from a callback first meets the catch
 * clauses the computation put around that callback (`Try.of`, `map`,
 * `flatMap`, `Filter`); each clause that catches it calls `error`, which
 * publishes `failed(e)`, and only what no clause catches escapes.
 *
 * A posted computation is the `Guarded` select it makes; `None` is the
 * null that `postValue(null)` publishes.
 */
module LiveLoader {
  import opened Outcomes
  import Task
  import Loader
  import LiveField
  import LiveFieldFacts
  import Lifecycle
  import LiveTask
  import Try

  /** The publications `failed(e)` of the errors `es`, in order. */
  function LoadFailures<T>(es: seq<Error>): (ps: seq<Option<Loader.Loader<T>>>)
    ensures |ps| == |es|
  {
    seq(|es|, i requires 0 <= i < |es| => Some(Loader.Failed(es[i])))
  }

  /** The failure of `e` comes before those of the errors after it. */
  lemma LoadFailuresCons<T>(e: Error, es: seq<Error>)
    ensures LoadFailures<T>([e] + es) == [Some(Loader.Failed(e))] + LoadFailures<T>(es)
  {
  }

  /**
   * A callback with `o` made inside `clauses`, after `running(current)`:
   * `done(t)` remembering `t`, or `failed(e)`; then a `failed` for each
   * clause that catches what the publication before it threw.
   */
  function LoadCallback<T>(current: Option<T>, o: Outcome<T>, clauses: seq<Clause>, throws: seq<Option<Error>>)
    : LiveTask.Posted<Option<Loader.Loader<T>>, Option<T>>
  {
    var r := Rerouted(Nth(throws, 1), clauses, if |throws| > 2 then throws[2..] else []);
    match o
    case Ok(t) => LiveTask.Posted([Some(Loader.Running(current)), Some(Loader.Done(t))] + LoadFailures(r.0), Some(t), r.1)
    case Err(e) => LiveTask.Posted([Some(Loader.Running(current)), Some(Loader.Failed(e))] + LoadFailures(r.0), current, r.1)
  }

  /**
   * The publications of a callback: `running`, the callback's own, then
   * at most one `failed` per clause, each reporting what the publication
   * before it threw; what is left is what the last publication threw.
   */
  lemma LoadCallbackShape<T>(current: Option<T>, o: Outcome<T>, clauses: seq<Clause>, throws: seq<Option<Error>>)
    ensures var p := LoadCallback(current, o, clauses, throws);
      2 <= |p.published| <= 2 + |clauses| && p.thrown == Nth(throws, |p.published| - 1) &&
      p.published[0] == Some(Loader.Running(current)) &&
      p.published[1] == (if o.Ok? then Some(Loader.Done(o.value)) else Some(Loader.Failed(o.error))) &&
      p.value == (if o.Ok? then Some(o.value) else current)
    ensures var p := LoadCallback(current, o, clauses, throws);
      forall j :: 1 <= j < |p.published| - 1 ==> Nth(throws, j).Some? && p.published[j + 1] == Some(Loader.Failed(Nth(throws, j).value))
    ensures Nth(throws, 1).Some? && !IsException(Nth(throws, 1).value) ==> |LoadCallback(current, o, clauses, throws).published| == 2
  {
    var after := if |throws| > 2 then throws[2..] else [];
    assert forall i: nat :: Nth(after, i) == Nth(throws, i + 2);
    ReroutedChain(Nth(throws, 1), clauses, after);
    var r := Rerouted(Nth(throws, 1), clauses, after);
    var p := LoadCallback(current, o, clauses, throws);
    forall j | 1 <= j < |p.published| - 1
      ensures Nth(throws, j).Some? && p.published[j + 1] == Some(Loader.Failed(Nth(throws, j).value))
    {
      assert p.published[j + 1] == LoadFailures<T>(r.0)[j - 1];
      if j > 1 {
        assert Nth(after, j - 2) == Some(r.0[j - 1]);
      }
    }
  }

  /**
   * `postValue(loader)` from the remembered value `current`, when the
   * successive publications throw `throws` out of the field.
   */
  function LoadPlan<T>(loader: Option<Guarded<T>>, current: Option<T>, throws: seq<Option<Error>>)
    : LiveTask.Posted<Option<Loader.Loader<T>>, Option<T>>
  {
    match loader
    case None => LiveTask.Posted([None], current, Nth(throws, 0))
    case Some(g) =>
      var running := Some(Loader.Running(current));
      if Nth(throws, 0).Some? then LiveTask.Posted([running], current, Nth(throws, 0))
      else match g.signal
        case Deliver(o) => LoadCallback(current, o, g.clauses, throws)
        case Escape(e) => LiveTask.Posted([running], current, Some(e))
        case Quiet => LiveTask.Posted([running], current, None)
  }

  class LiveLoader<T> {
    const delegate: LiveField.LiveField<Option<Loader.Loader<T>>>
    /** The last success, `null` at first. */
    var value: Option<T>
    /** Everything posted to the delegate so far. */
    ghost var published: seq<Option<Loader.Loader<T>>>

    /** `new LiveLoader(delegate)`. */
    constructor(delegate: LiveField.LiveField<Option<Loader.Loader<T>>>)
      ensures this.delegate == delegate && value.None? && published == []
    {
      this.delegate := delegate;
      value := None;
      published := [];
    }

    /** The delegate is consistent, as every `LiveField` operation keeps it. */
    ghost predicate Valid()
      reads delegate
    {
      LiveFieldFacts.Valid(delegate.Abs())
    }

    /** `delegate.postValue(l)`, recorded. */
    method Publish(l: Option<Loader.Loader<T>>) returns (thrown: Option<Error>, ghost order: seq<LiveField.Owner>)
      requires Valid()
      modifies this, delegate
      ensures published == old(published) + [l] && value == old(value)
      ensures LiveField.Step(delegate.Abs(), thrown) == LiveField.SetValueF(delegate.react, old(delegate.Abs()), l, order)
      ensures var a := LiveField.SetValueAsWritten(delegate.react, old(delegate.Abs()), l, order);
        a == LiveField.Step(delegate.Abs(), thrown) || (a.thrown == Some(ConcurrentModification) && a.field.log <= delegate.log)
      ensures Valid() && delegate.hasValue && delegate.value == Some(l)
      ensures (forall id, x :: !delegate.react(id, x).Throw?) ==> thrown.None?
    {
      ghost var before := delegate.Abs();
      thrown, order := delegate.PostValue(l);
      published := published + [l];
      LiveFieldFacts.SetValueAsWrittenIsCutShort(delegate.react, before, l, order);
      LiveFieldFacts.SetValueKeepsValid(delegate.react, before, l, order);
      if forall id, x :: !delegate.react(id, x).Throw? {
        LiveFieldFacts.SetValueQuiet(delegate.react, before, l, order);
      }
    }

    /** `Case.ok(t)` of the case handed to the computation: remember, then publish `done`. */
    method OnOk(t: T) returns (thrown: Option<Error>)
      requires Valid()
      modifies this, delegate
      ensures value == Some(t) && published == old(published) + [Some(Loader.Done(t))]
      ensures Valid() && delegate.value == Some(Some(Loader.Done(t)))
      ensures (forall id, x :: !delegate.react(id, x).Throw?) ==> thrown.None?
    {
      value := Some(t);
      ghost var order;
      thrown, order := Publish(Some(Loader.Done(t)));
    }

    /** `Case.error(e)`: publish `failed`, leaving the value alone. */
    method OnError(e: Error) returns (thrown: Option<Error>)
      requires Valid()
      modifies this, delegate
      ensures value == old(value) && published == old(published) + [Some(Loader.Failed(e))]
      ensures Valid() && delegate.value == Some(Some(Loader.Failed(e)))
      ensures (forall id, x :: !delegate.react(id, x).Throw?) ==> thrown.None?
    {
      ghost var order;
      thrown, order := Publish(Some(Loader.Failed(e)));
    }

    /**
     * `postValue(loader)`. `throws` lists what each publication threw out
     * of the field; they are ended by the first exception that escapes.
     */
    method PostValue(loader: Option<Guarded<T>>) returns (thrown: Option<Error>, ghost throws: seq<Option<Error>>)
      requires Valid()
      modifies this, delegate
      ensures var plan := LoadPlan(loader, old(value), throws);
        published == old(published) + plan.published && value == plan.value && thrown == plan.thrown &&
        |throws| == |plan.published|
      ensures Valid() && delegate.value == Some(published[|published| - 1])
      ensures (forall id, x :: !delegate.react(id, x).Throw?) ==> forall i :: 0 <= i < |throws| ==> throws[i].None?
    {
      if loader.None? {
        ghost var order;
        thrown, order := Publish(None);
        throws := [thrown];
        return;
      }
      var oldValue := value;
      ghost var order;
      thrown, order := Publish(Some(Loader.Running(oldValue)));
      throws := [thrown];
      if thrown.Some? {
        return;
      }
      match loader.value.signal {
        case Deliver(o) =>
          ghost var rest;
          thrown, rest := Answer(o, loader.value.clauses);
          throws := throws + rest;
          assert throws == [None] + rest;
        case Escape(e) => thrown := Some(e);
        case Quiet =>
      }
    }

    /**
     * The case handed to the computation, called with `o` inside the
     * computation's `clauses`: `ok` or `error`, then what the clauses do
     * with the publication's throw.
     */
    method Answer(o: Outcome<T>, clauses: seq<Clause>) returns (failure: Option<Error>, ghost rest: seq<Option<Error>>)
      requires Valid() && |published| > 0 && delegate.value == Some(published[|published| - 1])
      modifies this, delegate
      ensures var p := LoadCallback(old(value), o, clauses, [None] + rest);
        |p.published| == |rest| + 1 && published == old(published) + p.published[1..] &&
        value == p.value && failure == p.thrown
      ensures Valid() && delegate.value == Some(published[|published| - 1])
      ensures (forall id, x :: !delegate.react(id, x).Throw?) ==> forall i :: 0 <= i < |rest| ==> rest[i].None?
    {
      var thrown;
      if o.Ok? {
        thrown := OnOk(o.value);
      } else {
        thrown := OnError(o.error);
      }
      ghost var more;
      failure, more := Reroute(thrown, clauses);
      rest := [thrown] + more;
      assert Nth([None] + rest, 1) == thrown && ([None] + rest)[2..] == more;
    }

    /**
     * The computation's catch clauses around a callback that threw
     * `thrown`: each clause that catches the throwable calls `error`,
     * which publishes `failed(e)`, and what that publication throws goes
     * on to the clauses outside it. `more` lists what those publications
     * threw; `left` is what no clause caught, and escapes `postValue`.
     */
    method Reroute(thrown: Option<Error>, clauses: seq<Clause>) returns (left: Option<Error>, ghost more: seq<Option<Error>>)
      requires Valid() && |published| > 0 && delegate.value == Some(published[|published| - 1])
      modifies this, delegate
      decreases |clauses|
      ensures var r := Rerouted(thrown, clauses, more);
        published == old(published) + LoadFailures(r.0) && left == r.1 && |more| == |r.0|
      ensures value == old(value)
      ensures Valid() && |published| > 0 && delegate.value == Some(published[|published| - 1])
      ensures thrown.None? ==> more == []
    {
      if thrown.None? || |clauses| == 0 {
        left, more := thrown, [];
        return;
      }
      var e := thrown.value;
      if Catches(clauses[0], e) {
        var next := OnError(e);
        ghost var rest;
        left, rest := Reroute(next, clauses[1..]);
        more := [next] + rest;
        ReroutedStep(e, clauses, next, rest);
        LoadFailuresCons<T>(e, Rerouted(next, clauses[1..], rest).0);
      } else {
        left, more := Reroute(thrown, clauses[1..]);
      }
    }

    /** `observe(owner, observer)`: delegated. */
    method Observe(o: LiveField.Owner, s: Lifecycle.State, r: LiveField.Receiver) returns (thrown: Option<Error>)
      modifies delegate
      ensures LiveField.Step(delegate.Abs(), thrown) ==
              LiveField.ObserveF(delegate.config, delegate.react, old(delegate.Abs()), o, s, r)
    {
      thrown := delegate.Observe(o, s, r);
    }

    /** `removeObservers(owner)`: delegated. */
    method RemoveObservers(o: LiveField.Owner)
      modifies delegate
      ensures delegate.Abs() == LiveField.RemoveObserversF(old(delegate.Abs()), o)
    {
      delegate.RemoveObservers(o);
    }

    /** `removeObserver(observer)`: delegated. */
    method RemoveObserver(r: LiveField.Receiver) returns (thrown: Option<Error>)
      modifies delegate
      ensures LiveField.Step(delegate.Abs(), thrown) == LiveField.RemoveObserverF(old(delegate.Abs()), r)
    {
      thrown := delegate.RemoveObserver(r);
    }
  }

  // ---------------------------------------------------------------------
  // Properties

  /** The loader publications seen as publications of a task with the trivial key. */
  function AsTasks<T>(ps: seq<Option<Loader.Loader<T>>>): (ts: seq<Option<Task.Task<(), T>>>)
    ensures |ts| == |ps|
    ensures forall i :: 0 <= i < |ps| ==> ts[i].Some? == ps[i].Some?
    ensures forall i :: 0 <= i < |ps| && ps[i].Some? ==> Loader.FromTask(ts[i].value) == ps[i].value
  {
    if |ps| == 0 then []
    else
      var head := if ps[0].None? then None else Some(Loader.AsTask(ps[0].value));
      [head] + AsTasks(ps[1..])
  }

  /**
   * A non-null post is published as `running(current)` first, then `done`
   * or `failed`; every publication after the second is a `failed`
   * reporting what the publication before it threw, one for each of the
   * computation's clauses that caught it. The value changes only through
   * the `done`.
   */
  lemma RunningComesFirst<T>(g: Guarded<T>, current: Option<T>, throws: seq<Option<Error>>)
    ensures var p := LoadPlan(Some(g), current, throws);
      1 <= |p.published| <= 2 + |g.clauses| && p.published[0] == Some(Loader.Running(current)) &&
      (forall i :: 1 <= i < |p.published| ==> p.published[i].Some? && !p.published[i].value.Running?) &&
      (p.value != current ==> |p.published| >= 2 && p.published[1] == Some(Loader.Done(p.value.value)))
    ensures var p := LoadPlan(Some(g), current, throws);
      forall j :: 1 <= j < |p.published| - 1 ==> Nth(throws, j).Some? && p.published[j + 1] == Some(Loader.Failed(Nth(throws, j).value))
  {
    if Nth(throws, 0).None? && g.signal.Deliver? {
      LoadCallbackShape(current, g.signal.outcome, g.clauses, throws);
    }
  }

  /**
   * `postValue` catches nothing itself: a throw from the select ends the
   * post and escapes, and a throw from a publication either escapes as
   * the last thing the post does, or is published as `failed` right after
   * by a clause of the computation. Without clauses, or for a throwable
   * that is not an Exception, the callback's throw escapes at once.
   */
  lemma ThrowsEscapeOrFail<T>(g: Guarded<T>, current: Option<T>, throws: seq<Option<Error>>)
    ensures var p := LoadPlan(Some(g), current, throws);
      (g.signal.Escape? && Nth(throws, 0).None? ==> p.published == [Some(Loader.Running(current))] && p.thrown == Some(g.signal.thrown)) &&
      (g.signal.Deliver? && Nth(throws, 0).None? ==> p.thrown == Nth(throws, |p.published| - 1))
    ensures var p := LoadPlan(Some(g), current, throws);
      forall j :: 0 <= j < |p.published| && Nth(throws, j).Some? ==>
        (j == |p.published| - 1 && p.thrown == Nth(throws, j)) ||
        (j + 1 < |p.published| && p.published[j + 1] == Some(Loader.Failed(Nth(throws, j).value)))
    ensures var p := LoadPlan(Some(g), current, throws);
      (g.clauses == [] || (Nth(throws, 1).Some? && !IsException(Nth(throws, 1).value))) ==> |p.published| <= 2
  {
    if Nth(throws, 0).None? && g.signal.Deliver? {
      LoadCallbackShape(current, g.signal.outcome, g.clauses, throws);
    }
  }

  /**
   * `Try.of(() -> v)` whose `done(v)` an observer answers by throwing the
   * RuntimeException `r1`: the clause of `of` publishes `failed(r1)`, and
   * whatever that publication throws, `r2`, escapes `postValue`.
   */
  lemma ObserverThrowsIntoOf<T>(v: T, current: Option<T>, r1: Error, r2: Option<Error>)
    requires IsRuntime(r1)
    ensures LoadPlan(Some(Try.GuardedOf(Ok(v))), current, [None, Some(r1), r2]) ==
            LiveTask.Posted([Some(Loader.Running(current)), Some(Loader.Done(v)), Some(Loader.Failed(r1))], Some(v), r2)
  {
    Try.OfReroutesOk(Ok(v), r1, [r2]);
  }

  /**
   * With the trivial key, a posted computation behaves like a task whose
   * producer returns it, as long as no RuntimeException escapes the
   * loader's post: `LiveTask` would catch that one and publish it as
   * `failed`.
   */
  lemma LoaderIsUnitTask<T>(g: Guarded<T>, current: Option<T>, throws: seq<Option<Error>>)
    requires var l := LoadPlan(Some(g), current, throws); l.thrown.Some? ==> !IsRuntime(l.thrown.value)
    ensures var l := LoadPlan(Some(g), current, throws);
      var t := LiveTask.PostPlan(Some(()), current, (_: ()) => Ok(g), throws);
      t.published == AsTasks(l.published) && t.value == l.value && t.thrown == l.thrown
  {
    if Nth(throws, 0).None? && g.signal.Deliver? {
      CallbackIsUnitTask(current, g.signal.outcome, g.clauses, throws);
    } else {
      var l := LoadPlan(Some(g), current, throws);
      assert AsTasks(l.published)[0] == Some(Task.Running((), current));
    }
  }

  /** A loader's callback publishes what a task's callback with the trivial key does. */
  lemma CallbackIsUnitTask<T>(current: Option<T>, o: Outcome<T>, clauses: seq<Clause>, throws: seq<Option<Error>>)
    ensures var l := LoadCallback(current, o, clauses, throws);
      var t := LiveTask.Callback((), current, o, clauses, throws);
      t.published == AsTasks(l.published) && t.value == l.value && t.thrown == l.thrown
  {
    var l := LoadCallback(current, o, clauses, throws);
    var t := LiveTask.Callback((), current, o, clauses, throws);
    var ts := AsTasks(l.published);
    LoadCallbackShape(current, o, clauses, throws);
    LiveTask.CallbackShape((), current, o, clauses, throws);
    forall i | 0 <= i < |l.published|
      ensures t.published[i] == ts[i]
    {
      if i >= 2 {
        assert Nth(throws, i - 1).Some?;
      }
      Loader.AsTaskRoundTrip(l.published[i].value, ts[i].value);
    }
  }

  /** Where the two differ: a RuntimeException from the select is published by `LiveTask`, but escapes `LiveLoader`. */
  lemma RuntimeEscapesLoaderOnly<T>(e: Error, current: Option<T>)
    requires IsRuntime(e)
    ensures LoadPlan(Some(Guarded(Escape(e), [])), current, []) ==
            LiveTask.Posted([Some(Loader.Running(current))], current, Some(e))
    ensures LiveTask.PostPlan(Some(()), current, (_: ()) => Ok(Guarded(Escape(e), [])), []) ==
            LiveTask.Posted([Some(Task.Running((), current)), Some(Task.Failed((), e))], current, None)
  {
  }
}
