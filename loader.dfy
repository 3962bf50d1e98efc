/**
 * `Loader` (Loader.java): the keyless counterpart of `Task`: one published
 * state of a computation with a pending branch, read through a `Progress`
 * visitor.
 */
module Loader {
  import opened Outcomes
  import Try
  import Task

  /** The visitor call a loader makes: `running(current)`, `done(value)` or `failed(error)`. */
  datatype Loader<T> = Running(current: Option<T>) | Done(value: T) | Failed(error: Error)

  /** A `Loader.Progress`: the effect of each of its methods. */
  datatype Progress<!T, R> = Progress(running: Option<T> -> R, done: T -> R, failed: Error -> R)

  /** `loader.select(p)`. */
  function Select<T, R>(l: Loader<T>, p: Progress<T, R>): R
  {
    match l
    case Running(c) => p.running(c)
    case Done(v) => p.done(v)
    case Failed(e) => p.failed(e)
  }

  /** `Progress.accept(l)`: a null loader calls nothing; any other is selected with this visitor. */
  function Accept<T, R>(l: Option<Loader<T>>, p: Progress<T, R>): (r: Option<R>)
    ensures r.None? <==> l.None?
    ensures l.Some? ==> r.value == Select(l.value, p)
  {
    match l
    case None => None
    case Some(loader) => Some(Select(loader, p))
  }

  function ToTryCase<T>(): Progress<T, Outcome<Option<T>>>
  {
    Progress((c: Option<T>) => Ok(c), (v: T) => Ok(Some(v)), (e: Error) => Err(e))
  }

  /** `toTry()`: running and done become `ok` (the current value may be null), failed becomes `error`. */
  function ToTry<T>(l: Loader<T>): (s: Signal<Option<T>>)
    ensures s.Deliver?
    ensures s.outcome.Err? <==> l.Failed?
    ensures l.Failed? ==> s.outcome.error == l.error
    ensures l.Running? ==> s.outcome.value == l.current
    ensures l.Done? ==> s.outcome.value == Some(l.value)
  {
    Deliver(Select(l, ToTryCase()))
  }

  /** `whenDone(receiver)`: what the receiver is handed, if anything. */
  function WhenDone<T>(): Progress<T, Option<T>>
  {
    Progress((c: Option<T>) => None, (v: T) => Some(v), (e: Error) => None)
  }

  /** A visitor that overrides `running` and `done` only; `Err(x)` is what a method throws. */
  function WithDefaultFailed<T, R>(running: Option<T> -> R, done: T -> R): Progress<T, Outcome<R>>
  {
    Progress((c: Option<T>) => Ok(running(c)), (v: T) => Ok(done(v)), (e: Error) => Err(AsRuntime(e)))
  }

  // ---------------------------------------------------------------------
  // A loader is a task with a trivial key

  function AsTask<T>(l: Loader<T>): (t: Task.Task<(), T>)
  {
    match l
    case Running(c) => Task.Running((), c)
    case Done(v) => Task.Done((), v)
    case Failed(e) => Task.Failed((), e)
  }

  function FromTask<T>(t: Task.Task<(), T>): (l: Loader<T>)
  {
    match t
    case Running(_, c) => Running(c)
    case Done(_, v) => Done(v)
    case Failed(_, e) => Failed(e)
  }

  /** The visitor a keyless progress amounts to on tasks. */
  function Keyed<T, R>(p: Progress<T, R>): Task.Progress<(), T, R>
  {
    Task.Progress((k: (), c: Option<T>) => p.running(c), (k: (), v: T) => p.done(v), (k: (), e: Error) => p.failed(e))
  }

  // ---------------------------------------------------------------------
  // Properties

  lemma AsTaskRoundTrip<T>(l: Loader<T>, t: Task.Task<(), T>)
    ensures FromTask(AsTask(l)) == l
    ensures AsTask(FromTask(t)) == t
  {
    match t
    case Running(k, _) => assert k == ();
    case Done(k, _) => assert k == ();
    case Failed(k, _) => assert k == ();
  }

  /** Selecting a loader is selecting the corresponding task with the corresponding visitor. */
  lemma SelectAsTask<T, R>(l: Loader<T>, p: Progress<T, R>)
    ensures Select(l, p) == Task.Select(AsTask(l), Keyed(p))
  {
  }

  /** `toTry` here and in `Task` agree. */
  lemma ToTryAsTask<T>(l: Loader<T>)
    ensures ToTry(l) == Task.ToTry(AsTask(l))
  {
  }

  /** `whenDone` sees done values only: running and failed are ignored, nothing is thrown. */
  lemma WhenDoneOnlyDone<T>(l: Loader<T>)
    ensures Select(l, WhenDone()) == Task.Select(AsTask(l), Task.WhenDone())
    ensures Select(l, WhenDone()).Some? <==> l.Done?
  {
  }

  /** The inherited `failed` throws: a RuntimeException unchanged, any other error wrapped. */
  lemma DefaultFailedRethrows<T, R>(running: Option<T> -> R, done: T -> R, l: Loader<T>)
    ensures Select(l, WithDefaultFailed(running, done)).Err? <==> l.Failed?
    ensures l.Failed? ==> Select(l, WithDefaultFailed(running, done)) == Err(AsRuntime(l.error))
  {
  }

  /** `toTry().unwrap()` throws a failed loader's error as a RuntimeException. */
  lemma UnwrapToTry<T>(l: Loader<T>)
    ensures l.Failed? ==> Try.Unwrap(ToTry(l)) == Try.Throws(AsRuntime(l.error))
    ensures !l.Failed? ==> Try.Unwrap(ToTry(l)).Returns?
  {
  }
}
