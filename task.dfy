/**
 * `Task` (Task.java): one published state of a keyed computation, read
 * through a `Progress` visitor. A task's `select` calls exactly one of the
 * visitor's three methods, so a task is modelled by which one it calls and
 * with what, and a visitor by what each method does (its effect `R`).
 */
module Task {
  import opened Outcomes
  import Try

  /** The visitor call a task makes: `running(key, current)`, `done(key, value)` or `failed(key, error)`. */
  datatype Task<I, O> = Running(key: I, current: Option<O>) | Done(key: I, value: O) | Failed(key: I, error: Error)

  /** A `Task.Progress`: the effect of each of its methods. */
  datatype Progress<!I, !O, R> = Progress(running: (I, Option<O>) -> R, done: (I, O) -> R, failed: (I, Error) -> R)

  /** `task.select(p)`. */
  function Select<I, O, R>(t: Task<I, O>, p: Progress<I, O, R>): R
  {
    match t
    case Running(k, c) => p.running(k, c)
    case Done(k, v) => p.done(k, v)
    case Failed(k, e) => p.failed(k, e)
  }

  /** `Progress.accept(t)`: a null task calls nothing; any other is selected with this visitor. */
  function Accept<I, O, R>(t: Option<Task<I, O>>, p: Progress<I, O, R>): (r: Option<R>)
    ensures r.None? <==> t.None?
    ensures t.Some? ==> r.value == Select(t.value, p)
  {
    match t
    case None => None
    case Some(task) => Some(Select(task, p))
  }

  /** The visitor `toTry()` passes: running and done succeed (the current value may be null), failed fails. */
  function ToTryCase<I, O>(): Progress<I, O, Outcome<Option<O>>>
  {
    Progress((k: I, c: Option<O>) => Ok(c), (k: I, v: O) => Ok(Some(v)), (k: I, e: Error) => Err(e))
  }

  /** `toTry()`: a computation whose every select delivers the task's outcome. */
  function ToTry<I, O>(t: Task<I, O>): (s: Signal<Option<O>>)
    ensures s.Deliver?
    ensures s.outcome.Err? <==> t.Failed?
    ensures t.Failed? ==> s.outcome.error == t.error
    ensures t.Running? ==> s.outcome.value == t.current
    ensures t.Done? ==> s.outcome.value == Some(t.value)
  {
    Deliver(Select(t, ToTryCase()))
  }

  /** `whenDone(receiver)`: what the receiver is handed, if anything. */
  function WhenDone<I, O>(): Progress<I, O, Option<O>>
  {
    Progress((k: I, c: Option<O>) => None, (k: I, v: O) => Some(v), (k: I, e: Error) => None)
  }

  /** `whenDone(case)`: what reaches the case, if anything. */
  function WhenDoneCase<I, O>(): Progress<I, O, Option<Outcome<O>>>
  {
    Progress((k: I, c: Option<O>) => None, (k: I, v: O) => Some(Ok(v)), (k: I, e: Error) => Some(Err(e)))
  }

  /**
   * A visitor that overrides `running` and `done` only; `Err(x)` is the
   * exception a method throws, which for the inherited `failed` is the
   * error itself when it is a RuntimeException and a wrapper otherwise.
   */
  function WithDefaultFailed<I, O, R>(running: (I, Option<O>) -> R, done: (I, O) -> R): Progress<I, O, Outcome<R>>
  {
    Progress((k: I, c: Option<O>) => Ok(running(k, c)), (k: I, v: O) => Ok(done(k, v)), (k: I, e: Error) => Err(AsRuntime(e)))
  }

  // ---------------------------------------------------------------------
  // Properties

  /** The receiver of `whenDone` sees done values only: running and failed are ignored, nothing is thrown. */
  lemma WhenDoneOnlyDone<I, O>(t: Task<I, O>)
    ensures Select(t, WhenDone()).Some? <==> t.Done?
    ensures t.Done? ==> Select(t, WhenDone()) == Some(t.value)
  {
  }

  /** `whenDone(case)` agrees with `toTry()` on done and failed tasks and ignores running ones. */
  lemma WhenDoneCaseAgreesWithToTry<I, O>(t: Task<I, O>)
    ensures Select(t, WhenDoneCase()).None? <==> t.Running?
    ensures t.Done? <==> Select(t, WhenDoneCase()).Some? && Select(t, WhenDoneCase()).value.Ok?
    ensures t.Done? ==> Select(t, WhenDoneCase()) == Some(Ok(t.value))
    ensures t.Failed? ==> Select(t, WhenDoneCase()) == Some(Err(ToTry(t).outcome.error))
  {
  }

  /** The two `whenDone` forms hand over the same done values. */
  lemma WhenDoneForms<I, O>(t: Task<I, O>)
    ensures Select(t, WhenDone()) == match Select(t, WhenDoneCase()) case Some(Ok(v)) => Some(v) case _ => None
  {
  }

  /** The inherited `failed` throws: a RuntimeException unchanged, any other error wrapped; the other methods return. */
  lemma DefaultFailedRethrows<I, O, R>(running: (I, Option<O>) -> R, done: (I, O) -> R, t: Task<I, O>)
    ensures Select(t, WithDefaultFailed(running, done)).Err? <==> t.Failed?
    ensures t.Failed? && IsRuntime(t.error) ==> Select(t, WithDefaultFailed(running, done)) == Err(t.error)
    ensures t.Failed? && !IsRuntime(t.error) ==> Select(t, WithDefaultFailed(running, done)) == Err(Wrapped(t.error))
  {
  }

  /** `toTry().unwrap()` returns a running or done task's value and throws a failed task's error as a RuntimeException. */
  lemma UnwrapToTry<I, O>(t: Task<I, O>)
    ensures t.Failed? ==> Try.Unwrap(ToTry(t)) == Try.Throws(AsRuntime(t.error))
    ensures t.Running? ==> Try.Unwrap(ToTry(t)) == Try.Returns(t.current)
    ensures t.Done? ==> Try.Unwrap(ToTry(t)) == Try.Returns(Some(t.value))
  {
  }
}
