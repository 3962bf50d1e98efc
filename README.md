# AltLiveData core, modelled in Dafny

This project models the sequential core of AltLiveData, a small Java
library for Android-style reactive state. Each source file of the core has
one Dafny module of the same name.

- **`LiveField`** is a lifecycle-gated broadcast cell. It keeps two indices:
  owner → (receiver list, active flag) and receiver → owner. It also keeps a
  value, a `hasValue` flag and a fixed configuration: activator event,
  deactivator event, sticky flag.
  - The functional core is a `Field` datatype and one function per
    operation: `ObserveF`, `SetValueF`, `RemoveObserverF` and the rest.
  - The `LiveField` class holds the same state in `map` and `seq` fields.
    Each of its methods is proved to change that state exactly as its
    function says. A ghost log records every receiver call.
  - `LiveFieldFacts` proves the registry invariant (`Valid`) and the
    delivery rules: exactly-once delivery to active owners, replay on
    activation and registration, the `observe` error cases, the
    self-removing `observeOnce` wrapper, and what happens when receivers
    throw.
- **`Immortal`** is the always-resumed owner. **`Life`** is the test
  lifecycle owner, a class with its own state machine. The `observeForever`
  and `observeOnce` defaults of `Live` are methods of the field class.
- **`Try`** is the outcome algebra. A computation is the `Signal` its one
  `select` call produces: `Deliver(ok or error)`, `Escape(thrown)` out of
  `select`, or `Quiet` (nothing delivered during the call). User functions
  that may throw are total functions returning an `Outcome`, whose `Err`
  means "throws". A RuntimeException is any `Error` that is neither
  `Checked` nor `Fault`, where `Fault` stands for a Java `Error`.
  - A continuation may itself throw, as a `LiveTask` callback does when an
    observer throws. A `Guarded` computation pairs the signal with the
    `catch` clauses around the continuation call, innermost first.
    `Outcomes.Rerouted` follows such a throw: every clause that catches it
    calls `error`, and what that call throws goes on outwards.
    `Try.of`, `map`, `flatMap` and `Filter` have `Guarded` forms.
- **`Function`, `Filter`, `Recover`, `Retry`, `CircuitBreaker`, `Memoize`
  and `Canceller`** are the combinators.
  - The stateful ones are classes whose `Select` method is proved against a
    step function: `CircuitBreaker.Breaker`, `Memoize.Memo` and
    `Canceller.Cancellable`.
  - `Retry.Select` is the retry loop, proved against the recursive `Drive`.
  - A source that is re-selected is a sequence of signals, consumed one
    per select. This lets the lemmas count invocations.
- **`Task` and `Loader`** are the progress visitors: a datatype of
  running/done/failed, with `toTry`, `whenDone` and the inherited `failed`.
- **`LiveTask` and `LiveLoader`** publish progress into a `LiveField`.
  - `PostPlan` and `LoadPlan` say what one `postValue` publishes, what
    value it remembers and what escapes it.
  - Their inputs are what the computation does, with its catch clauses,
    and what each publication throws out of the field.
  - The class methods are proved to publish exactly that.

The clock (`System.currentTimeMillis`) is a parameter `now`. Executors run
inline, so `postValue` is `setValue`.

The Javadoc of `LiveField.Builder.activate` lists `ON_PAUSE` among the
accepted activators. The code accepts `ON_RESUME` instead, and rejects
`ON_PAUSE`. The model follows the code: `LiveField.Activate` accepts
exactly the up events.

## Model

| member | source | states |
|---|---|---|
| Outcomes.CatchRuntime | core/src/main/java/ph/codeia/altlive/Try.java:104-109 | inside a `catch (RuntimeException e)` block a thrown error is delivered as `error(e)` exactly when it is a RuntimeException, and escapes otherwise |
| Outcomes.RaisedOutcomes | core/src/main/java/ph/codeia/altlive/Try.java:104-109 | a throwable raised inside catch clauses is handed to `error` by the innermost clause that catches it, with the outer clauses still around that call, and escapes when none does; a non-Exception is never caught |
| Outcomes.ReroutedChain | core/src/main/java/ph/codeia/altlive/Try.java:104-109 | a continuation's throw inside catch clauses is handed to `error` once per catching clause, at most once per clause: the first time the original throwable, then each time what the previous `error` call threw; what is left uncaught is what the last call threw, and a non-Exception is never caught |
| Outcomes.ReroutedCatches | core/src/main/java/ph/codeia/altlive/Try.java:104-109 | when any clause catches the throwable, `error` is called at least once |
| Outcomes.ReroutedStop | core/src/main/java/ph/codeia/altlive/Try.java:104-109 | when no clause catches the throwable, no `error` call is made and the throwable is left as it was |
| Outcomes.ReroutedStep | core/src/main/java/ph/codeia/altlive/Try.java:104-109 | when the innermost clause catches, its `error` call comes first and what that call throws goes on to the outer clauses |
| Outcomes.ReroutedExtends | core/src/main/java/ph/codeia/altlive/Try.java:104-109 | the rerouting depends only on what its own `error` calls threw |
| Outcomes.AsRuntime | core/src/main/java/ph/codeia/altlive/Try.java:33-43 | a RuntimeException is rethrown unchanged; any other throwable is wrapped in a RuntimeException whose cause it is |
| Try.Just | core/src/main/java/ph/codeia/altlive/Try.java:167-169 | `just(v)` delivers `ok(v)` |
| Try.Raise | core/src/main/java/ph/codeia/altlive/Try.java:177-182 | `raise(null)` throws NullPointerException when built; `raise(e)` delivers `error(e)` |
| Try.Of | core/src/main/java/ph/codeia/altlive/Try.java:189-198 | `of(callable)` delivers the returned value, turns a thrown Exception into `error`, and lets a non-Exception throwable escape |
| Try.OfRunnable | core/src/main/java/ph/codeia/altlive/Try.java:203-213 | `of(runnable)` delivers `ok(null)` after running; a RuntimeException becomes `error`, anything else escapes |
| Try.SelectGuarded | core/src/main/java/ph/codeia/altlive/Try.java:130-135 | selecting a computation inside the `try`: its delivery or silence passes through, and an exception from building or selecting it is routed by the RuntimeException catch |
| Try.Accept | core/src/main/java/ph/codeia/altlive/Try.java:245-249 | `Case.accept(null)` does nothing; `accept(t)` is `t.select(this)` |
| Try.GuardedAgrees | core/src/main/java/ph/codeia/altlive/Try.java:100-213 | for a continuation that never throws, `of(callable)`, `of(runnable)`, `map` and `flatMap` with their catch clauses select exactly as the plain `Of`, `OfRunnable`, `Map` and `FlatMap` (for `map` and `flatMap`, when the function throws no checked exception), for every source and whatever clauses the source has |
| Try.OfReroutesOk | core/src/main/java/ph/codeia/altlive/Try.java:189-198 | after `of` succeeds, an Exception thrown by `ok` is handed to `error` once, and what `error` then throws escapes; after `of` fails, what `error` throws escapes at once |
| Try.MapFlatMapCatchOk | core/src/main/java/ph/codeia/altlive/Try.java:100-143 | `map` and `flatMap` put one `catch (RuntimeException)` around a success, so a RuntimeException thrown by the continuation's `ok` reaches `error`; a source's error is passed on inside the source's own clauses only |
| Try.MapRoutesErrors | core/src/main/java/ph/codeia/altlive/Try.java:100-117 | `map(f)`: an error passes through without calling `f`; `ok(t)` becomes `ok(f(t))`; a RuntimeException from `f` becomes `error` exactly when it is runtime |
| Try.MapEscapesOnlyNonRuntime | core/src/main/java/ph/codeia/altlive/Try.java:100-117 | on a source that does not throw, `map(f)` throws out of `select` iff `f` threw a non-runtime throwable |
| Try.FlatMapJust | core/src/main/java/ph/codeia/altlive/Try.java:126-143 | `just(t).flatMap(f)` selects `f(t)` under the RuntimeException guard |
| Try.FlatMapIntoJust | core/src/main/java/ph/codeia/altlive/Try.java:126-143 | `flatMap(just)` is the identity on every computation |
| Try.SelectGuardedIdempotent | core/src/main/java/ph/codeia/altlive/Try.java:130-135 | guarding an already guarded selection changes nothing |
| Try.FlatMapGuarded | core/src/main/java/ph/codeia/altlive/Try.java:126-143 | `flatMap` commutes with the guard of an enclosing `flatMap` |
| Try.SelectGuardedIdempotentOn | core/src/main/java/ph/codeia/altlive/Try.java:130-135 | guarding twice is guarding once, for a function result that may itself throw |
| Try.FlatMapAssociative | core/src/main/java/ph/codeia/altlive/Try.java:126-143 | `flatMap` is associative: `src.flatMap(f).flatMap(g)` equals `src.flatMap(t -> f(t).flatMap(g))` |
| Try.MapIsFlatMap | core/src/main/java/ph/codeia/altlive/Try.java:100-143 | `map(f)` equals `flatMap(t -> just(f(t)))` |
| Try.UnwrapThrowsRuntime | core/src/main/java/ph/codeia/altlive/Try.java:33-43 | `unwrap` returns iff the computation succeeded, blocks iff it delivers nothing, and only ever throws a RuntimeException |
| Try.UnwrapEscapeAsError | core/src/main/java/ph/codeia/altlive/Try.java:33-43 | `unwrap` treats a throwable escaping `select` like one delivered to `error` |
| Try.UnwrapJustRaise | core/src/main/java/ph/codeia/altlive/Try.java:33-43 | `just(v).unwrap()` returns `v`; `raise(e).unwrap()` throws `e` if it is runtime and a wrapper of `e` otherwise |
| Try.UnwrapRoundTrip | core/src/main/java/ph/codeia/altlive/Try.java:33-43 | turning the result of `unwrap` back into a computation with `of` and unwrapping again gives the same result |
| Function.ThenApplies | core/src/main/java/ph/codeia/altlive/Function.java:43-45 | `f.then(g)` applied to `d` is `g(f(d))`, and an exception from `f` skips `g` |
| Function.IdIsUnit | core/src/main/java/ph/codeia/altlive/Function.java:43-55 | `id()` is a unit of `then` on both sides |
| Function.ThenAssociative | core/src/main/java/ph/codeia/altlive/Function.java:43-45 | `then` is associative |
| Function.MapId | core/src/main/java/ph/codeia/altlive/Function.java:53-55 | `map(id())` is the identity on computations |
| Function.MapThen | core/src/main/java/ph/codeia/altlive/Function.java:43-45 | `map(f).map(g)` equals `map(f.then(g))` |
| Function.ChainCallable | core/src/main/java/ph/codeia/altlive/Function.java:64-91 | `of(runnable).flatMap(of(callable))` runs the callable after the runnable, or reports the runnable's RuntimeException |
| Filter.Accept | core/src/main/java/ph/codeia/altlive/transform/Filter.java:36-38 | `accept(p)` keeps the predicate |
| Filter.Reject | core/src/main/java/ph/codeia/altlive/transform/Filter.java:41-43 | `reject(p)` is `accept` of the negated predicate (see `Filter.RejectNotIsAccept`) |
| Filter.SelectCases | core/src/main/java/ph/codeia/altlive/transform/Filter.java:54-75 | `ok(t)` passes iff the predicate holds, becomes `error(NotFound)` iff it does not, becomes `error(e)` if the predicate throws a RuntimeException; an error or silence of the source passes unchanged |
| Filter.GuardedSelectAgrees | core/src/main/java/ph/codeia/altlive/transform/Filter.java:54-75 | for a predicate that throws no checked exception and a continuation that never throws, the filter with its catch clause selects as `Select` on every source; a RuntimeException thrown by `ok(t)` or `error(NotFound)` is handed to `error`, inside one more clause than the source has |
| Filter.SelectOkIsSourceOk | core/src/main/java/ph/codeia/altlive/transform/Filter.java:54-75 | every success a filter delivers is the source's own success and satisfied the predicate |
| Filter.AcceptRejectPartition | core/src/main/java/ph/codeia/altlive/transform/Filter.java:36-43 | on a value the predicate decides, exactly one of `accept(p)` and `reject(p)` lets it through |
| Filter.RejectNotIsAccept | core/src/main/java/ph/codeia/altlive/transform/Filter.java:36-43 | `reject(not p)` behaves as `accept(p)` on every source |
| Filter.FilterTwice | core/src/main/java/ph/codeia/altlive/transform/Filter.java:54-75 | filtering by `p` then `q` equals filtering by `p && q` when `p` throws only RuntimeExceptions |
| Recover.FlatFrom | core/src/main/java/ph/codeia/altlive/transform/Recover.java:27-29 | `flatFrom(h)` keeps the handler |
| Recover.SuccessPassesThrough | core/src/main/java/ph/codeia/altlive/transform/Recover.java:52-58 | anything but an error passes through without calling the handler |
| Recover.FailureUsesHandler | core/src/main/java/ph/codeia/altlive/transform/Recover.java:60-67 | on `error(t)` the handler's computation is selected with the same continuation; a RuntimeException from the handler becomes `error`, anything else escapes |
| Recover.FromDeliversHandlerOutcome | core/src/main/java/ph/codeia/altlive/transform/Recover.java:32-41 | `from(h)` delivers `just(h(t))`, or `raise` of whatever `h` throws |
| Recover.FromRethrowIsIdentity | core/src/main/java/ph/codeia/altlive/transform/Recover.java:32-41 | `from(t -> { throw t; })` leaves every computation unchanged |
| Retry.Until | core/src/main/java/ph/codeia/altlive/transform/Retry.java:43-45 | `until(n)` has limit `n`, retries every error and waits 0 |
| Retry.Forever | core/src/main/java/ph/codeia/altlive/transform/Retry.java:48-50 | `forever()` has a limit below 1, which `canRetry` reads as unbounded |
| Retry.Guard | core/src/main/java/ph/codeia/altlive/transform/Retry.java:25-29 | `guard(p)` replaces only the predicate |
| Retry.Backoff | core/src/main/java/ph/codeia/altlive/transform/Retry.java:31-35 | `backoff(d)` replaces only the delay |
| Retry.Select | core/src/main/java/ph/codeia/altlive/transform/Retry.java:70-107 | the retry loop over successive source selects produces exactly the result and number of selects of the recursive definition `Drive` |
| Retry.SelectsInRange | core/src/main/java/ph/codeia/altlive/transform/Retry.java:70-107 | the number of selects stays within the attempts supplied; the run is unsettled iff they all ran out while retrying |
| Retry.SuccessIsLastAttempt | core/src/main/java/ph/codeia/altlive/transform/Retry.java:75-77 | a delivered success is the outcome of the last attempt, unchanged |
| Retry.AtMostLimitPlusOne | core/src/main/java/ph/codeia/altlive/transform/Retry.java:82-99 | with a limit `n >= 1` the source is selected at most `n + 1` times |
| Retry.ExhaustsLimit | core/src/main/java/ph/codeia/altlive/transform/Retry.java:82-99 | an always-failing source with an accepting predicate and limit `n >= 1` is selected exactly `n + 1` times and the last error is forwarded |
| Retry.ForeverKeepsRetrying | core/src/main/java/ph/codeia/altlive/transform/Retry.java:80-99 | with `forever()` an always-failing source is retried as long as attempts last |
| Retry.RejectedFailureForwarded | core/src/main/java/ph/codeia/altlive/transform/Retry.java:80-86 | at any attempt, a failure the predicate rejects is forwarded as `error` and ends the run after that attempt, wherever the retry runs |
| Retry.UserExceptionStops | core/src/main/java/ph/codeia/altlive/transform/Retry.java:80-105 | at any attempt that may retry, a throwable from the predicate or the backoff ends the run: a RuntimeException is delivered as `error`; anything else escapes `select` on the caller's thread and is lost on a scheduled one |
| Retry.SucceedsAfterFailures | core/src/main/java/ph/codeia/altlive/transform/Retry.java:75-99 | `until(n)` over `n` failures then `ok(v)` delivers `ok(v)` after `n + 1` selects |
| Retry.SucceedsFrom | core/src/main/java/ph/codeia/altlive/transform/Retry.java:75-99 | the same, from any retry count already reached |
| CircuitBreaker.Of | core/src/main/java/ph/codeia/altlive/transform/CircuitBreaker.java:45-48 | `of(limit, timeout)` keeps both and counts every error |
| CircuitBreaker.Guard | core/src/main/java/ph/codeia/altlive/transform/CircuitBreaker.java:33-37 | `guard(p)` replaces only the predicate |
| CircuitBreaker.Breaker.constructor | core/src/main/java/ph/codeia/altlive/transform/CircuitBreaker.java:62-73 | a new breaker is closed: no failures, no time, no error |
| CircuitBreaker.Breaker.OnOk | core/src/main/java/ph/codeia/altlive/transform/CircuitBreaker.java:88-96 | a success resets the fields to closed and is delivered |
| CircuitBreaker.Breaker.OnError | core/src/main/java/ph/codeia/altlive/transform/CircuitBreaker.java:98-110 | an error updates the fields and is forwarded as `AfterError` says |
| CircuitBreaker.Breaker.Select | core/src/main/java/ph/codeia/altlive/transform/CircuitBreaker.java:75-111 | one select gives the signal, whether the source was selected, and the new fields that `Step` defines |
| CircuitBreaker.DisabledIsTransparent | core/src/main/java/ph/codeia/altlive/transform/CircuitBreaker.java:76-79 | with a limit below 1 the source is selected, its signal passes and no field changes |
| CircuitBreaker.OpenFailsFast | core/src/main/java/ph/codeia/altlive/transform/CircuitBreaker.java:80-85 | an open circuit delivers `error(Tripped(lastError))` without selecting the source or changing a field |
| CircuitBreaker.SelectedIffNotOpen | core/src/main/java/ph/codeia/altlive/transform/CircuitBreaker.java:76-86 | the source is selected iff the breaker is disabled or not open |
| CircuitBreaker.ClosedOutcomes | core/src/main/java/ph/codeia/altlive/transform/CircuitBreaker.java:88-110 | success closes; a counted failure adds one, stamps `now` and keeps the error; a rejected failure changes nothing; a throwing predicate yields its exception |
| CircuitBreaker.StepKeepsValid | core/src/main/java/ph/codeia/altlive/transform/CircuitBreaker.java:88-110 | every step keeps the count non-negative and an error recorded exactly when failures are counted |
| CircuitBreaker.TrippedHasCause | core/src/main/java/ph/codeia/altlive/transform/CircuitBreaker.java:80-85 | in a consistent breaker the Tripped error always carries the last error as its cause |
| CircuitBreaker.HalfOpenRetriesThenReopens | core/src/main/java/ph/codeia/altlive/transform/CircuitBreaker.java:80-104 | after the timeout the source is tried again, and a further counted failure reopens the circuit for another timeout |
| CircuitBreaker.FailuresTrip | core/src/main/java/ph/codeia/altlive/transform/CircuitBreaker.java:80-105 | repeated counted failures are forwarded until the limit is reached, after which every select fails fast with Tripped carrying the last failure, and the source is not selected again |
| CircuitBreaker.OpenTrips | core/src/main/java/ph/codeia/altlive/transform/CircuitBreaker.java:80-85 | an open breaker selected within the timeout fails fast with Tripped on every select, selects no source and keeps its fields |
| CircuitBreaker.TripStopsRetry | core/src/test/java/ph/codeia/altlive/transform/CircuitBreakerTest.java:17-34 | a source raising `x`, recovered by a handler that rethrows, behind `CircuitBreaker.of(limit, timeout)` and `Retry.forever().guard(t -> t == x)`: the source and handler are selected exactly `limit` times, then Tripped(x) is not retried and `unwrap` throws it |
| CircuitBreaker.RetryStopsAtTripped | core/src/main/java/ph/codeia/altlive/transform/Retry.java:80-92 | the retry loop over the breaker's outputs retries each `x`, and delivers the first Tripped as `error` after `limit + 1` attempts |
| CircuitBreaker.RetriesThrough | core/src/main/java/ph/codeia/altlive/transform/Retry.java:82-91 | an unlimited retry with an accepting predicate and no delay re-selects through every failing attempt on the caller's thread |
| Memoize.Empty | core/src/main/java/ph/codeia/altlive/transform/Memoize.java:17-19 | a fresh cache has no value, no error and is not done |
| Memoize.AfterOk | core/src/main/java/ph/codeia/altlive/transform/Memoize.java:33-38 | `ok(t)` stores the value, marks done and keeps the error |
| Memoize.AfterError | core/src/main/java/ph/codeia/altlive/transform/Memoize.java:40-45 | `error(t)` stores the error, marks done and keeps the value |
| Memoize.Step | core/src/main/java/ph/codeia/altlive/transform/Memoize.java:28-54 | the source is selected iff the cache is not done; a done cache answers from the cache unchanged; otherwise the source's signal is forwarded |
| Memoize.Memo.constructor | core/src/main/java/ph/codeia/altlive/transform/Memoize.java:17-19 | the cache starts empty |
| Memoize.Memo.Clear | core/src/main/java/ph/codeia/altlive/transform/Memoize.java:21-25 | `clear()` resets value, error and done |
| Memoize.Memo.OnOk | core/src/main/java/ph/codeia/altlive/transform/Memoize.java:33-38 | stores the value and forwards `ok` |
| Memoize.Memo.OnError | core/src/main/java/ph/codeia/altlive/transform/Memoize.java:40-45 | stores the error and forwards `error` |
| Memoize.Memo.Select | core/src/main/java/ph/codeia/altlive/transform/Memoize.java:28-54 | one select behaves as `Step` and keeps the cache consistent |
| Memoize.OperationsKeepValid | core/src/main/java/ph/codeia/altlive/transform/Memoize.java:21-45 | every update keeps "done without an error means a value is stored" |
| Memoize.DoneReplays | core/src/main/java/ph/codeia/altlive/transform/Memoize.java:48-52 | once done, every select replays the cached answer without calling the source |
| Memoize.FirstOutcomeReplayed | core/src/main/java/ph/codeia/altlive/transform/Memoize.java:29-52 | on a fresh instance the source is called once and its first outcome is delivered on every select |
| Memoize.PendingSelectsAgain | core/src/main/java/ph/codeia/altlive/transform/Memoize.java:34-42 | a select while the first resolution is pending leaves the cache not done, so the next select calls the source again |
| Memoize.ClearReselects | core/src/main/java/ph/codeia/altlive/transform/Memoize.java:21-25 | after `clear()` the next select calls the source and forwards its signal |
| Memoize.StoredErrorWins | core/src/main/java/ph/codeia/altlive/transform/Memoize.java:48-52 | once an error is stored, the cache answers that error whether or not a value is also stored |
| Canceller.Gate | core/src/main/java/ph/codeia/altlive/transform/Canceller.java:57-71 | an outcome is dropped iff the canceller is cancelled, and forwarded unchanged otherwise |
| Canceller.Cancellable.constructor | core/src/main/java/ph/codeia/altlive/transform/Canceller.java:35-39 | a new canceller is not cancelled and has run nothing |
| Canceller.Cancellable.NoAction | core/src/main/java/ph/codeia/altlive/transform/Canceller.java:41-43 | the one-argument constructor uses a no-op `onCancel` |
| Canceller.Cancellable.Cancel | core/src/main/java/ph/codeia/altlive/transform/Canceller.java:45-50 | `cancel()` sets the flag and runs `onCancel` only if not already cancelled, letting its exception escape |
| Canceller.Cancellable.OnOutcome | core/src/main/java/ph/codeia/altlive/transform/Canceller.java:57-71 | an outcome arriving later is gated by the current flag |
| Canceller.Cancellable.Select | core/src/main/java/ph/codeia/altlive/transform/Canceller.java:53-72 | the source is selected iff not cancelled, and its signal passes unchanged |
| Canceller.CancelRepeatedly | core/src/main/java/ph/codeia/altlive/transform/Canceller.java:45-50 | `cancel()` called `n` times: the flag ends set iff it was set or `n >= 1`; `onCancel` runs once if the first call found the canceller uncancelled and not at all otherwise; only that first call can throw, exactly what `onCancel` throws |
| Canceller.PassCases | core/src/main/java/ph/codeia/altlive/transform/Canceller.java:53-72 | before cancellation signals pass unchanged; after it nothing is delivered |
| Canceller.LateAnswerDropped | core/src/main/java/ph/codeia/altlive/transform/Canceller.java:57-71 | one example, not a general law: an outcome arriving after `cancel()` is dropped although the source was selected |
| Canceller.CancelTwice | core/src/main/java/ph/codeia/altlive/transform/Canceller.java:45-56 | one example, not a general law: cancelling twice runs `onCancel` once and a later select neither selects nor delivers |
| Task.Accept | core/src/main/java/ph/codeia/altlive/Task.java:80-84 | `accept(null)` does nothing; `accept(task)` selects it with this visitor |
| Task.ToTry | core/src/main/java/ph/codeia/altlive/Task.java:12-29 | `toTry` maps running to `ok(current)`, done to `ok(value)` and failed to `error(e)` |
| Task.WhenDoneOnlyDone | core/src/main/java/ph/codeia/altlive/Task.java:31-46 | `whenDone(receiver)` receives something iff the task is done, and then its value |
| Task.WhenDoneCaseAgreesWithToTry | core/src/main/java/ph/codeia/altlive/Task.java:48-64 | `whenDone(case)` ignores running, maps done to `ok` and failed to `error` as `toTry` does |
| Task.WhenDoneForms | core/src/main/java/ph/codeia/altlive/Task.java:31-64 | the receiver form of `whenDone` is the success branch of the case form |
| Task.DefaultFailedRethrows | core/src/main/java/ph/codeia/altlive/Task.java:70-77 | with the inherited `failed`, selecting throws iff the task failed: its error if runtime, a wrapper otherwise |
| Task.UnwrapToTry | core/src/main/java/ph/codeia/altlive/Task.java:12-29 | `toTry().unwrap()` returns the current or done value and throws the failure as a RuntimeException |
| Loader.Accept | core/src/main/java/ph/codeia/altlive/Loader.java:82-86 | `accept(null)` does nothing; `accept(loader)` selects it |
| Loader.ToTry | core/src/main/java/ph/codeia/altlive/Loader.java:32-49 | `toTry` maps running to `ok(current)`, done to `ok(value)` and failed to `error(e)` |
| Loader.AsTaskRoundTrip | core/src/main/java/ph/codeia/altlive/Loader.java:19-23 | a loader is a task with the trivial key: the two conversions are inverse |
| Loader.SelectAsTask | core/src/main/java/ph/codeia/altlive/Loader.java:68-87 | selecting a loader is selecting its task with the keyless visitor |
| Loader.ToTryAsTask | core/src/main/java/ph/codeia/altlive/Loader.java:32-49 | the loader's `toTry` agrees with the task's |
| Loader.WhenDoneOnlyDone | core/src/main/java/ph/codeia/altlive/Loader.java:51-66 | `whenDone` receives something iff the loader is done |
| Loader.DefaultFailedRethrows | core/src/main/java/ph/codeia/altlive/Loader.java:72-79 | with the inherited `failed`, selecting throws iff failed, and what it throws is a RuntimeException |
| Loader.UnwrapToTry | core/src/main/java/ph/codeia/altlive/Loader.java:32-49 | `toTry().unwrap()` throws iff the loader failed |
| Immortal.CurrentState | core/src/main/java/ph/codeia/altlive/Immortal.java:50-52 | the state is always RESUMED |
| Immortal.RemoveObserver | core/src/main/java/ph/codeia/altlive/Immortal.java:45-46 | removing an observer fires nothing |
| Immortal.NeverDestroyed | core/src/main/java/ph/codeia/altlive/Immortal.java:50-52 | the owner is never DESTROYED, so `observe` never ignores it |
| Immortal.BehavesLikeResumedLife | core/src/main/java/ph/codeia/altlive/Immortal.java:28-42 | adding a lifecycle observer fires exactly the catch-up events of a resumed `Life` |
| Immortal.NoDownEvents | core/src/main/java/ph/codeia/altlive/Immortal.java:28-46 | no pause, stop or destroy event is ever fired |
| Immortal.EveryActivatorFires | core/src/main/java/ph/codeia/altlive/Immortal.java:28-42 | every event a field accepts as activator is fired on registration |
| Life.Broadcast | core/src/test/java/ph/codeia/altlive/Life.java:39-42 | one notice per observer, in list order |
| Life.RemoveFirst | core/src/test/java/ph/codeia/altlive/Life.java:119-123 | removal drops one occurrence, or nothing if absent |
| Life.Life.constructor | core/src/test/java/ph/codeia/altlive/Life.java:12-14 | a new owner is INITIALIZED with no observers |
| Life.Life.Created | core/src/test/java/ph/codeia/altlive/Life.java:16-20 | `created()` sets CREATED without firing |
| Life.Life.Started | core/src/test/java/ph/codeia/altlive/Life.java:22-26 | `started()` sets STARTED without firing |
| Life.Life.Resumed | core/src/test/java/ph/codeia/altlive/Life.java:28-32 | `resumed()` sets RESUMED without firing |
| Life.Life.Fire | core/src/test/java/ph/codeia/altlive/Life.java:39-42 | the state is updated first, then every observer is notified with the new state |
| Life.Life.Progress | core/src/test/java/ph/codeia/altlive/Life.java:34-59 | `progress` takes the `Up` move and notifies every observer of its event |
| Life.Life.Regress | core/src/test/java/ph/codeia/altlive/Life.java:61-87 | `regress` takes the `Down` move and notifies every observer of its event |
| Life.Life.AddObserver | core/src/test/java/ph/codeia/altlive/Life.java:94-116 | the observer is appended and receives the catch-up events for the current state |
| Life.Life.RemoveObserver | core/src/test/java/ph/codeia/altlive/Life.java:119-123 | the first occurrence of the observer is removed |
| Life.UpWalk | core/src/test/java/ph/codeia/altlive/Life.java:34-55 | `progress` goes INITIALIZED to CREATED to STARTED to RESUMED firing create, start, resume |
| Life.Directions | core/src/test/java/ph/codeia/altlive/Life.java:34-87 | `progress` fires only up events and `regress` only down events |
| Life.DestroyedIsAbsorbing | core/src/test/java/ph/codeia/altlive/Life.java:36-64 | DESTROYED is the only state both moves leave unchanged |
| Life.UpIdleStates | core/src/test/java/ph/codeia/altlive/Life.java:34-59 | `progress` fires nothing exactly at RESUMED and DESTROYED, and then stays put |
| Life.DownUndoesUp | core/src/test/java/ph/codeia/altlive/Life.java:34-87 | `regress` undoes `progress` from CREATED and STARTED |
| Life.UpUndoesDown | core/src/test/java/ph/codeia/altlive/Life.java:34-87 | `progress` undoes `regress` from STARTED and RESUMED |
| Life.CatchUpIsTheWayUp | core/src/test/java/ph/codeia/altlive/Life.java:94-116 | the catch-up events are exactly the events `progress` fires from INITIALIZED to the current state |
| Life.CatchUpShape | core/src/test/java/ph/codeia/altlive/Life.java:98-114 | catch-up is a prefix of create, start, resume, and empty exactly for INITIALIZED and DESTROYED |
| LiveField.Activate | core/src/main/java/ph/codeia/altlive/LiveField.java:93-103 | `activate(e)` succeeds iff `e` is ON_CREATE, ON_START or ON_RESUME, changing only the activator; anything else is IllegalArgumentException |
| LiveField.Deactivate | core/src/main/java/ph/codeia/altlive/LiveField.java:117-127 | `deactivate(e)` succeeds iff `e` is ON_DESTROY, ON_STOP or ON_PAUSE, changing only the deactivator; anything else is IllegalArgumentException |
| LiveField.Sticky | core/src/main/java/ph/codeia/altlive/LiveField.java:139-142 | `sticky(b)` changes only the sticky flag |
| LiveField.Empty | core/src/main/java/ph/codeia/altlive/LiveField.java:151-153 | a built field has no owners, no receivers, no value and no subscriptions |
| LiveField.ClearF | core/src/main/java/ph/codeia/altlive/LiveField.java:209-212 | `clear()` drops the value and changes nothing else |
| LiveField.LiveField.constructor | core/src/main/java/ph/codeia/altlive/LiveField.java:151-153 | a field built without a seed is empty |
| LiveField.LiveField.Seeded | core/src/main/java/ph/codeia/altlive/LiveField.java:160-164 | `build(seed)` is an empty field holding the seed |
| LiveField.LiveField.GetValue | core/src/main/java/ph/codeia/altlive/LiveField.java:217-219 | reads the stored value |
| LiveField.LiveField.Clear | core/src/main/java/ph/codeia/altlive/LiveField.java:209-212 | updates the state as `ClearF` |
| LiveField.LiveField.RemoveObservers | core/src/main/java/ph/codeia/altlive/LiveField.java:290-298 | updates the state as `RemoveObserversF`: the owner, its receivers and the subscription go |
| LiveField.LiveField.RemoveObserver | core/src/main/java/ph/codeia/altlive/LiveField.java:301-311 | updates the state as `RemoveObserverF` |
| LiveField.LiveField.Accept | core/src/main/java/ph/codeia/altlive/LiveField.java:365-369 | calls one receiver and applies what it does, as `AcceptF`: a user receiver returns, removes itself, removes an owner's receivers or throws; an `observeOnce` wrapper does what its user receiver does and then, unless that threw, removes itself |
| LiveField.LiveField.NotifyOwner | core/src/main/java/ph/codeia/altlive/LiveField.java:365-369 | the loop over a snapshot of an active owner's receivers, as `NotifyOwnerF` |
| LiveField.LiveField.SetValue | core/src/main/java/ph/codeia/altlive/LiveField.java:227-235 | stores the value and visits every owner once, in some order of the owner map, as `SetValueF`: this is the corrected owner loop of the first Findings row; the loop as written is `SetValueAsWritten`, related by `LiveFieldFacts.SetValueAsWrittenIsCutShort` |
| LiveField.LiveField.PostValue | core/src/main/java/ph/codeia/altlive/LiveField.java:238-240 | with the inline executor `postValue` is `setValue`, with the corrected owner loop as for `SetValue` |
| LiveField.LiveField.MaybeActivate | core/src/main/java/ph/codeia/altlive/LiveField.java:345-353 | as `MaybeActivateF` |
| LiveField.LiveField.MaybeDeactivate | core/src/main/java/ph/codeia/altlive/LiveField.java:355-359 | as `MaybeDeactivateF` |
| LiveField.LiveField.OnEvent | core/src/main/java/ph/codeia/altlive/LiveField.java:314-343 | one lifecycle callback, as `OnEventF` |
| LiveField.LiveField.Dispatch | core/src/main/java/ph/codeia/altlive/LiveField.java:314-343 | the callbacks fired while subscribing, in order, as `DispatchF` |
| LiveField.LiveField.Observe | core/src/main/java/ph/codeia/altlive/LiveField.java:250-287 | `observe(owner, r)`, as `ObserveF` |
| LiveField.LiveField.Subscribe | core/src/main/java/ph/codeia/altlive/LiveField.java:274-279 | a first receiver for an owner: the owner gets a new inactive meta holding only that receiver, is subscribed, and is caught up with the lifecycle events up to its current state |
| LiveField.LiveField.Enlist | core/src/main/java/ph/codeia/altlive/LiveField.java:280-285 | a further receiver is appended to its owner's list and, when sticky with a value and an active owner, called once with the current value |
| LiveField.LiveField.ObserveForever | core/src/main/java/ph/codeia/altlive/Live.java:62-64 | `observeForever(r)` is `observe(Immortal.INSTANCE, r)` |
| LiveField.LiveField.ObserveOnce | core/src/main/java/ph/codeia/altlive/Live.java:77-85 | registers, through `observe`, a fresh wrapper around the user receiver `id`, never one already bound |
| LiveField.LiveField.ObserveOnceForever | core/src/main/java/ph/codeia/altlive/Live.java:70-72 | `observeOnce(r)` is `observeOnce(Immortal.INSTANCE, r)` |
| LiveField.FreshOnceTag | core/src/main/java/ph/codeia/altlive/Live.java:78-84 | a new wrapper object is distinct from every registered wrapper, whatever receiver it wraps |
| LiveField.Enumerate | core/src/main/java/ph/codeia/altlive/LiveField.java:232-234 | the owner loop visits each key of the owner map exactly once |
| LiveFieldFacts.EmptyValid | core/src/main/java/ph/codeia/altlive/LiveField.java:151-153 | a built field satisfies the registry invariant |
| LiveFieldFacts.ClearKeepsValid | core/src/main/java/ph/codeia/altlive/LiveField.java:209-212 | `clear` keeps the registry invariant |
| LiveFieldFacts.RemoveObserverKeepsValid | core/src/main/java/ph/codeia/altlive/LiveField.java:301-311 | `removeObserver(r)` unbinds `r` and only `r`, removes it from its owner's list, keeps active flags and other owners, never throws on a consistent field, and does nothing for an unknown receiver |
| LiveFieldFacts.RemoveObserversKeepsValid | core/src/main/java/ph/codeia/altlive/LiveField.java:290-298 | `removeObservers(o)` drops the owner, its subscription and exactly its receivers, leaving other owners alone |
| LiveFieldFacts.AcceptKeepsValid | core/src/main/java/ph/codeia/altlive/LiveField.java:365-369 | calling a receiver logs one call and keeps the invariant and the value; it throws exactly when the user receiver throws, and exactly that; a wrapper whose user receiver did not throw is unbound |
| LiveFieldFacts.NotifyKeepsValid | core/src/main/java/ph/codeia/altlive/LiveField.java:365-369 | a pass over a receiver snapshot logs a prefix of one call per snapshot entry, all of them unless a receiver throws |
| LiveFieldFacts.SetValueKeepsValid | core/src/main/java/ph/codeia/altlive/LiveField.java:227-235 | `setValue(v)` keeps the invariant and leaves `v` stored with `hasValue` set |
| LiveFieldFacts.OnDestroyRemoves | core/src/main/java/ph/codeia/altlive/LiveField.java:339-343 | ON_DESTROY removes the owner with all its receivers |
| LiveFieldFacts.OnEventKeepsValid | core/src/main/java/ph/codeia/altlive/LiveField.java:314-343 | every lifecycle callback keeps the invariant |
| LiveFieldFacts.ActivateKeepsValid | core/src/main/java/ph/codeia/altlive/LiveField.java:345-353 | activation keeps the invariant |
| LiveFieldFacts.DispatchKeepsValid | core/src/main/java/ph/codeia/altlive/LiveField.java:314-343 | a sequence of callbacks keeps the invariant |
| LiveFieldFacts.ObserveKeepsValid | core/src/main/java/ph/codeia/altlive/LiveField.java:250-287 | `observe` keeps the invariant |
| LiveFieldFacts.SetValueDeliversOnce | core/src/main/java/ph/codeia/altlive/LiveField.java:227-235 | with the corrected owner loop, when receivers throw nothing and remove at most themselves, and no wrapped receiver is also registered directly, `setValue(v)` calls each receiver of an active owner exactly once with `v` and no receiver of an inactive owner |
| LiveFieldFacts.OnceReceiverBreaksIteration | core/src/main/java/ph/codeia/altlive/LiveField.java:227-235 | a once-wrapper whose owner empties during the owner loop makes the loop as written throw ConcurrentModificationException before the second owner; the corrected loop reaches both receivers |
| LiveFieldFacts.ActivationReplays | core/src/main/java/ph/codeia/altlive/LiveField.java:345-353 | the activator marks the owner active and, if sticky with a value, replays the value to each of its receivers |
| LiveFieldFacts.DeactivationSilences | core/src/main/java/ph/codeia/altlive/LiveField.java:355-359 | the deactivator clears the active flag and delivers nothing |
| LiveFieldFacts.UnknownOwnerThrows | core/src/main/java/ph/codeia/altlive/LiveField.java:345-359 | an activator or deactivator event for an unregistered owner throws NullPointerException |
| LiveFieldFacts.OtherEventsIgnored | core/src/main/java/ph/codeia/altlive/LiveField.java:314-337 | an event that is neither activator, deactivator nor ON_DESTROY changes nothing |
| LiveFieldFacts.DispatchUp | core/src/main/java/ph/codeia/altlive/LiveField.java:345-353 | catching up through distinct up events activates the owner iff the activator is among them |
| LiveFieldFacts.CatchUpEventsAreUp | core/src/main/java/ph/codeia/altlive/Immortal.java:28-42 | the events fired on subscription are distinct up events: create, start, resume for the immortal owner, the `Life` catch-up for a mortal one |
| LiveFieldFacts.ObserveNewOwner | core/src/main/java/ph/codeia/altlive/LiveField.java:273-279 | a new owner gets a one-receiver entry, is subscribed, is active iff the activator fires while catching up, and replays the value only if active, sticky and set |
| LiveFieldFacts.ImmortalOwnerIsActive | core/src/test/java/ph/codeia/altlive/LiveFieldTest.java:243-250 | a receiver registered through the immortal owner is active at once and gets the value immediately on a sticky field that has one, for any allowed activator |
| LiveFieldFacts.ObserveKnownOwner | core/src/main/java/ph/codeia/altlive/LiveField.java:280-285 | a new receiver of a known owner is appended and gets the value at once iff the owner is active and the field sticky with a value |
| LiveFieldFacts.ObserveDestroyedIgnored | core/src/main/java/ph/codeia/altlive/LiveField.java:251-254 | a DESTROYED owner is ignored |
| LiveFieldFacts.ObserveOtherOwnerRejected | core/src/main/java/ph/codeia/altlive/LiveField.java:256-266 | a receiver bound to another owner throws IllegalArgumentException and changes nothing |
| LiveFieldFacts.ObserveAgainIsNoOp | core/src/main/java/ph/codeia/altlive/LiveField.java:268-271 | re-registering the same owner and receiver changes nothing |
| LiveFieldFacts.SilentWithoutReplay | core/src/main/java/ph/codeia/altlive/LiveField.java:345-359 | a non-sticky or empty field delivers nothing on a lifecycle event |
| LiveFieldFacts.DispatchSilentWithoutReplay | core/src/main/java/ph/codeia/altlive/LiveField.java:345-353 | a non-sticky or empty field delivers nothing while catching up |
| LiveFieldFacts.ObserveSilentWithoutReplay | core/src/main/java/ph/codeia/altlive/LiveField.java:250-287 | a non-sticky or empty field never delivers on registration |
| LiveFieldFacts.NotifyQuiet | core/src/main/java/ph/codeia/altlive/LiveField.java:365-369 | receivers that do not throw make a pass that does not throw |
| LiveFieldFacts.NotifyOwnersQuiet | core/src/main/java/ph/codeia/altlive/LiveField.java:232-234 | receivers that do not throw make the corrected owner loop not throw; as written see `AsWrittenWithoutRemovals` |
| LiveFieldFacts.SetValueQuiet | core/src/main/java/ph/codeia/altlive/LiveField.java:227-235 | receivers that do not throw make `setValue` with the corrected owner loop not throw; as written see `AsWrittenWithoutRemovals` |
| LiveFieldFacts.NotifyOwnersLogGrows | core/src/main/java/ph/codeia/altlive/LiveField.java:232-234 | the owner loop only appends calls to the log |
| LiveFieldFacts.AsWrittenIsCutShort | core/src/main/java/ph/codeia/altlive/LiveField.java:232-234 | the owner loop as written ends exactly as the corrected loop, or throws ConcurrentModificationException having made a prefix of the corrected loop's calls |
| LiveFieldFacts.SetValueAsWrittenIsCutShort | core/src/main/java/ph/codeia/altlive/LiveField.java:227-235 | `setValue` as written ends exactly as with the corrected loop, or throws ConcurrentModificationException having made a prefix of its calls |
| LiveFieldFacts.NotifyKeepsRegistry | core/src/main/java/ph/codeia/altlive/LiveField.java:365-369 | a pass over user receivers that remove nothing leaves the owner and receiver indices unchanged |
| LiveFieldFacts.AsWrittenAgrees | core/src/main/java/ph/codeia/altlive/LiveField.java:232-234 | when no receiver removes anything and no wrapper is listed, no owner disappears mid-iteration and the loop as written is the corrected loop |
| LiveFieldFacts.AsWrittenWithoutRemovals | core/src/main/java/ph/codeia/altlive/LiveField.java:227-235 | on a consistent cell with no wrapper registered and receivers that remove nothing, `setValue` as written is the corrected `setValue`, and throws nothing when every receiver returns |
| LiveFieldFacts.NotifyShrinks | core/src/main/java/ph/codeia/altlive/LiveField.java:365-369 | a delivery pass never binds a receiver, it can only unbind |
| LiveFieldFacts.NotifyOwnerCallsBound | core/src/main/java/ph/codeia/altlive/LiveField.java:365-369 | a pass over one owner never calls a receiver that was not bound before it |
| LiveFieldFacts.NotifyCallsOnly | core/src/main/java/ph/codeia/altlive/LiveField.java:365-369 | a pass over a receiver snapshot only extends the log, and never calls a receiver outside the snapshot |
| LiveFieldFacts.SetValueSkipsUnbound | core/src/main/java/ph/codeia/altlive/LiveField.java:227-235 | `setValue` never calls a receiver that is not bound when it begins |
| LiveFieldFacts.AcceptLog | core/src/main/java/ph/codeia/altlive/LiveField.java:365-368 | calling a receiver logs exactly that call, whatever it then does, and leaves the value alone |
| LiveFieldFacts.AcceptSelfOnly | core/src/main/java/ph/codeia/altlive/LiveField.java:365-368 | a receiver that at most removes itself, and that is not a wrapper around a directly registered receiver, throws nothing, keeps the invariant, only unbinds and leaves every other owner untouched |
| LiveFieldFacts.UnboundNeverCalled | core/src/main/java/ph/codeia/altlive/LiveField.java:227-235 | `setValue` never calls a receiver that was not bound when it started |
| LiveFieldFacts.OnceWrapperFiresOnce | core/src/main/java/ph/codeia/altlive/Live.java:77-85 | a wrapper whose user receiver does not throw is called once, unbinds itself, and no later `setValue` calls it |
| LiveFieldFacts.OnceAcceptUnbinds | core/src/main/java/ph/codeia/altlive/Live.java:80-83 | calling a bound wrapper whose user receiver does not throw logs the call, throws nothing, keeps the invariant and leaves the wrapper unbound |
| LiveFieldFacts.OnceThrowStaysBound | core/src/main/java/ph/codeia/altlive/Live.java:80-83 | as written, a wrapper whose user receiver throws forwards that exception and leaves both indices as they were, so it stays bound |
| LiveFieldFacts.ThrowingOnceFiresTwice | core/src/main/java/ph/codeia/altlive/Live.java:74-85 | a wrapper around a receiver that always throws is called by `setValue(7)` and again by `setValue(8)`, though it is to be invoked at most once |
| LiveFieldFacts.OnceFinallyFiresOnce | core/src/main/java/ph/codeia/altlive/Live.java:74-85 | with `removeObserver(this)` in a `finally` block the wrapper throws exactly what its receiver throws, is unbound whatever the receiver does, is never called by a later `setValue`, and behaves as the wrapper as written whenever the receiver does not throw |
| LiveFieldFacts.RemoveDropsOrphanOwner | core/src/main/java/ph/codeia/altlive/LiveField.java:301-311 | removing a receiver drops its owner and the subscription iff it was the owner's last receiver; otherwise only the receiver leaves the list |
| LiveTask.LiveTask.constructor | core/src/main/java/ph/codeia/altlive/LiveTask.java:16-22 | a new task has no value and has published and applied nothing |
| LiveTask.LiveTask.Publish | core/src/main/java/ph/codeia/altlive/LiveField.java:238-240 | one `delegate.postValue`, recorded: the field moves as `SetValueF` (corrected owner loop) and then holds the progress, and observers that do not throw make it not throw; as written it ends the same way or throws ConcurrentModificationException after a prefix of the calls |
| LiveTask.LiveTask.OnOk | core/src/main/java/ph/codeia/altlive/LiveTask.java:46-49 | the value is set first, then `done(key, o)` is published |
| LiveTask.LiveTask.OnError | core/src/main/java/ph/codeia/altlive/LiveTask.java:52-54 | `failed(key, t)` is published and the value is unchanged |
| LiveTask.LiveTask.PostValue | core/src/main/java/ph/codeia/altlive/LiveTask.java:36-60 | publishes exactly the progress `PostPlan` gives, applies the producer only to a non-null key after `running` was published, leaves the field holding the last publication, and, when no observer throws, no publication throws (what the computation itself throws is stated by `PostPlan`) |
| LiveTask.LiveTask.PostKey | core/src/main/java/ph/codeia/altlive/LiveTask.java:41-59 | a non-null key: `running(key, old value)` is published first and the producer is applied only when that publication threw nothing; the whole post is `PostPlan`, including a `failed` for each catch clause of the computation that catches an observer's throw from a callback |
| LiveTask.LiveTask.Run | core/src/main/java/ph/codeia/altlive/LiveTask.java:43-59 | the try block and its RuntimeException catch: a RuntimeException left by the producer or `select`, or thrown by an observer and caught by none of the computation's clauses, is published as `failed`; any other throwable escapes |
| LiveTask.LiveTask.TryProducer | core/src/main/java/ph/codeia/altlive/LiveTask.java:44-55 | applies the producer once and publishes what its computation delivers (`done` after setting the value, or `failed`), then a `failed` for each clause of the computation that catches what the publication before threw; reports what is left, as `TryBlock` |
| LiveTask.LiveTask.Answer | core/src/main/java/ph/codeia/altlive/LiveTask.java:44-55 | the case handed to the computation, called inside its clauses: `ok` or `error` publishes, then the clauses reroute the publication's throw; the whole is `Callback` |
| LiveTask.LiveTask.Reroute | core/src/main/java/ph/codeia/altlive/LiveTask.java:51-54 | each clause that catches the throw calls `error`, which publishes `failed(key, e)`; the publications are exactly the failures of `Rerouted`, and what is left is what it leaves |
| LiveTask.CallbackShape | core/src/main/java/ph/codeia/altlive/LiveTask.java:44-55 | a callback publishes `running`, then `done` (remembering the value) or `failed`, then at most one `failed` per clause, each reporting what the publication before it threw; what is left is what the last publication threw |
| LiveTask.PlanStartsRunning | core/src/main/java/ph/codeia/altlive/LiveTask.java:41-42 | every post of a key starts with `running(key, previous value)` |
| LiveTask.TryBlockExtends | core/src/main/java/ph/codeia/altlive/LiveTask.java:44-55 | the try block depends only on the publications it makes: further entries of `throws` do not change it |
| LiveTask.LiveTask.Observe | core/src/main/java/ph/codeia/altlive/LiveTask.java:62-68 | delegates to the field's `observe` |
| LiveTask.LiveTask.ObserveForever | core/src/main/java/ph/codeia/altlive/Live.java:62-64 | delegates through `observe` with the immortal owner |
| LiveTask.LiveTask.RemoveObservers | core/src/main/java/ph/codeia/altlive/LiveTask.java:70-73 | delegates to the field |
| LiveTask.LiveTask.RemoveObserver | core/src/main/java/ph/codeia/altlive/LiveTask.java:75-78 | delegates to the field |
| LiveTask.RunningComesFirst | core/src/main/java/ph/codeia/altlive/LiveTask.java:41-59 | `running(key, previous value)` is published first, then `done` or `failed` for that key; every later publication is `failed` of what the publication before it threw; there are at most three more than the computation has clauses |
| LiveTask.ValueFollowsDone | core/src/main/java/ph/codeia/altlive/LiveTask.java:46-54 | the value changes only through a published `done`, and becomes that done's value; `failed` leaves it alone |
| LiveTask.QuietPost | core/src/main/java/ph/codeia/altlive/LiveTask.java:41-59 | with quiet observers: success publishes running then done; failure running then failed; a RuntimeException from the producer or `select` running then failed; any other throwable escapes after running; a pending computation leaves running |
| LiveTask.DefaultFailedCrashesCaller | core/src/test/java/ph/codeia/altlive/LiveTaskTest.java:187-202 | an observer with the inherited `failed` rethrows a failure; it is caught and published again as failed, and the second rethrow escapes `postValue` |
| LiveTask.ObserverThrowsIntoOf | core/src/main/java/ph/codeia/altlive/LiveTask.java:41-59 | `Try.of(() -> o)` with an observer throwing `r1` from `done` and `r2` from the next `failed`: publishes running, done, failed(r1), failed(r2) and returns normally |
| LiveTask.DivideTwelve | core/src/test/java/ph/codeia/altlive/LiveTaskTest.java:44 | `Try.of(() -> 12 / key)`: delivers `error(ArithmeticException)` exactly for key 0 and otherwise `ok` of the quotient of 12 by `key` truncated toward zero |
| LiveTask.DivisionScenario | core/src/test/java/ph/codeia/altlive/LiveTaskTest.java:39-77 | the test with `.pipe(Execute.on(BG))` removed, so `Try.of(() -> 12 / key)` runs inline: posting 6, 4, 3, 2, 0 publishes running and done for each key, each running carrying the previous result, then running and failed(ArithmeticException) for 0; unwrapping the last progress throws ArithmeticException |
| LiveLoader.LiveLoader.constructor | core/src/main/java/ph/codeia/altlive/LiveLoader.java:16-18 | a new loader has no value and has published nothing |
| LiveLoader.LiveLoader.Publish | core/src/main/java/ph/codeia/altlive/LiveField.java:238-240 | one `delegate.postValue`, recorded: the field moves as `SetValueF` (corrected owner loop) and then holds the progress, and observers that do not throw make it not throw; as written it ends the same way or throws ConcurrentModificationException after a prefix of the calls |
| LiveLoader.LiveLoader.OnOk | core/src/main/java/ph/codeia/altlive/LiveLoader.java:38-41 | the value is set first, then `done(t)` is published |
| LiveLoader.LiveLoader.OnError | core/src/main/java/ph/codeia/altlive/LiveLoader.java:44-46 | `failed(t)` is published and the value is unchanged |
| LiveLoader.LiveLoader.PostValue | core/src/main/java/ph/codeia/altlive/LiveLoader.java:29-48 | publishes exactly the progress `LoadPlan` gives, leaves the field holding the last publication, and, when no observer throws, no publication throws (what the computation itself throws is stated by `LoadPlan`) |
| LiveLoader.LiveLoader.Observe | core/src/main/java/ph/codeia/altlive/LiveLoader.java:50-56 | delegates to the field's `observe` |
| LiveLoader.LiveLoader.RemoveObservers | core/src/main/java/ph/codeia/altlive/LiveLoader.java:58-61 | delegates to the field |
| LiveLoader.LiveLoader.RemoveObserver | core/src/main/java/ph/codeia/altlive/LiveLoader.java:63-66 | delegates to the field |
| LiveLoader.RunningComesFirst | core/src/main/java/ph/codeia/altlive/LiveLoader.java:34-47 | `running(previous value)` is published first, then `done` or `failed`; every later publication is `failed` of what the publication before it threw, at most one per clause of the computation; the value changes only through the `done` |
| LiveLoader.ThrowsEscapeOrFail | core/src/main/java/ph/codeia/altlive/LiveLoader.java:29-48 | `postValue` catches nothing itself: a throw from `select` ends the post and escapes; a throw from a publication either escapes as the last thing the post does or is published as `failed` right after by a clause of the computation; with no clauses, or for a non-Exception, the callback's throw escapes at once |
| LiveLoader.ObserverThrowsIntoOf | core/src/main/java/ph/codeia/altlive/LiveLoader.java:29-48 | `Try.of(() -> v)` whose `done(v)` an observer answers with a RuntimeException `r1`: publishes running, done(v), failed(r1), and what that last publication throws escapes |
| LiveLoader.LoadCallbackShape | core/src/main/java/ph/codeia/altlive/LiveLoader.java:36-47 | a callback publishes `running`, then `done` (remembering the value) or `failed`, then at most one `failed` per clause, each reporting what the publication before it threw; what is left escapes |
| LiveLoader.CallbackIsUnitTask | core/src/main/java/ph/codeia/altlive/LiveLoader.java:36-47 | a loader's callback publishes, remembers and leaves exactly what a task's callback with the trivial key does |
| LiveLoader.LiveLoader.Answer | core/src/main/java/ph/codeia/altlive/LiveLoader.java:36-47 | the case handed to the computation, called inside its clauses: `ok` or `error` publishes, then the clauses reroute the publication's throw; the whole is `LoadCallback` |
| LiveLoader.LiveLoader.Reroute | core/src/main/java/ph/codeia/altlive/LiveLoader.java:43-46 | each clause that catches the throw calls `error`, which publishes `failed(e)`; the publications are exactly the failures of `Rerouted`, and what is left escapes |
| LiveLoader.LoaderIsUnitTask | core/src/main/java/ph/codeia/altlive/LiveLoader.java:29-48 | as long as no RuntimeException escapes the loader's post, a post behaves exactly as a LiveTask post with the trivial key |
| LiveLoader.RuntimeEscapesLoaderOnly | core/src/main/java/ph/codeia/altlive/LiveLoader.java:36-47 | a RuntimeException from `select` escapes a LiveLoader, where LiveTask publishes it as failed |

## Left out

- Timing and thread-hop combinators (`Delay`, `TimeLimit`, `Timed`, `Execute`, `Receive`): their behaviour is scheduling and races between threads.
- `Try.unwrapChecked`'s lock and condition wait: `Try.Unwrap` models only how an outcome becomes a returned value or a thrown exception, and says `Blocks` where nothing is delivered.
- Concurrency inside `LiveField`, `Memoize` and `Canceller`: the `synchronized` blocks, `volatile` fields and double-checked reads are not modelled. Every operation runs to completion before the next starts.
- Executors: `postValue` runs `setValue` inline. A computation that answers on another thread is `Quiet` during `select`, so its later `done` or `failed` is not part of a post.
- The `android/` and `app/` modules, the declaration-only interfaces, and `Receiver.forSome`.
- `LeakTest`'s garbage-collection checks: their intent, that no registry entry outlives its receivers, is the `LiveFieldFacts.Valid` invariant.
- `Try.Pipe`: it is modelled as plain application `tr(src)` and has no contract of its own, because that is all `pipe` promises.
- The order in which `setValue` visits owners: a `HashMap` order is unspecified, so the model takes any enumeration of the owner keys as a parameter.
- A receiver's behaviour is a function `react` of its id and the value: return, remove itself, remove all receivers of an owner, or throw. An `observeOnce` wrapper is `Once(tag, id)`: it forwards to the user receiver `id`, which behaves as `react(id, v)` like any other.
- Integer widths: `Retry`'s counter, `CircuitBreaker`'s fail count and the millisecond timestamps are unbounded integers, so overflow of `int` and `long` is not modelled.
- CircuitBreaker.Step: the clock is read once per select, at time `now`. The source reads it separately for the open check and for the failure stamp.
- Life.Life.AddObserver: every observer is treated as a `DefaultLifecycleObserver`; the `instanceof` filter is not modelled.
- LiveTask.PostPlan: a producer that returns `null` (a NullPointerException caught as failed) is not modelled. The producer is a total function.
- LiveField.LiveField.SetValue: follows the corrected owner loop of the first Findings row. The loop as written is `LiveField.SetValueAsWritten`; it ends the same way or throws ConcurrentModificationException after a prefix of the calls (`LiveFieldFacts.SetValueAsWrittenIsCutShort`).
- LiveField.LiveField.PostValue: is `SetValue`, with the same corrected owner loop.
- LiveFieldFacts.NotifyOwnersQuiet: proved for the corrected owner loop only. As written, the loop throws ConcurrentModificationException when a receiver empties an owner before the last one visited, even if no receiver throws. It is quiet as written when no receiver removes anything and no wrapper is registered (`LiveFieldFacts.AsWrittenWithoutRemovals`).
- LiveFieldFacts.SetValueQuiet: proved for the corrected owner loop only, as for `NotifyOwnersQuiet`.
- LiveFieldFacts.SetValueDeliversOnce: proved for the corrected owner loop only. It also assumes no wrapped receiver is registered on its own; such a receiver removing itself from inside the wrapper unbinds its own registration as well.
- LiveTask.LiveTask.Publish: the field moves as the corrected owner loop. Its second postcondition relates the loop as written. That loop's ConcurrentModificationException is a RuntimeException, so `LiveTask.PostPlan` treats it like any other exception in `throws`. A catch clause of the computation or the catch of `postValue` publishes it as failed. It escapes when thrown by the first publication, `running`, or by the `failed` that the catch of `postValue` publishes.
- LiveTask.LiveTask.PostValue: its `throws` come from `Publish`, so the same caveat applies.
- LiveLoader.LiveLoader.Publish: the field moves as the corrected owner loop, as for `LiveTask.LiveTask.Publish`. As written, the ConcurrentModificationException is treated like any other exception in `throws`. Thrown by a callback's publication, it is published as failed by a catch clause of the computation (`Try.of`, `map`, `flatMap`, `Filter`) when one catches it. Thrown by `running`, or caught by no clause, it escapes `postValue`.
- LiveLoader.LiveLoader.PostValue: its `throws` come from `Publish`, so the same caveat applies.
- LiveFieldFacts.OnceWrapperFiresOnce: holds only for a wrapper whose user receiver does not throw. As written, a throwing receiver leaves the wrapper bound (second Findings row).
- LiveFieldFacts.OnceAcceptUnbinds: holds only for a wrapper whose user receiver does not throw, as for `OnceWrapperFiresOnce`.
- LiveField.AcceptF: keeps the wrapper as written (second Findings row). The corrected wrapper `LiveFieldFacts.AcceptFinallyF` agrees with it on every receiver that does not throw (`LiveFieldFacts.OnceFinallyFiresOnce`). Every delivery theorem about wrappers assumes such a receiver.
- Try.Of, Try.Map, Try.FlatMap and Filter.Select: the plain signals assume a continuation that never throws. The catch clauses these put around the continuation are in `Try.GuardedOf`, `Try.GuardedMap`, `Try.GuardedFlatMap` and `Filter.GuardedSelect`, which agree with the plain forms on every continuation that does not throw, provided the mapping function or the predicate throws no checked exception (`Try.GuardedAgrees`, `Filter.GuardedSelectAgrees`).
- Try.GuardedAgrees: assumes the mapping function throws no checked exception, which a Java `Function` can throw only by a sneaky throw.
- Filter.GuardedSelectAgrees: assumes the predicate throws no checked exception, which a Java `Predicate` can throw only by a sneaky throw. Such an exception passes Filter's `catch (RuntimeException)`; a source whose own clause is `catch (Exception)` (as `Try.of`'s) then delivers it to `error`, while the plain `Filter.Select` lets it escape.
- LiveTask.DivisionScenario: runs the test's producer inline. With `.pipe(Execute.on(BG))` the keys may overlap, and a `running` can then carry a null current value, which the test allows (LiveTaskTest.java:51-53); thread interleaving is not modelled.
- Recover, Retry, Memoize, Canceller and CircuitBreaker are modelled on plain signals only, for a continuation that never throws. Their own catch blocks around the continuation are not composed into a `Guarded` computation, so a throwing observer of a `LiveTask` or `LiveLoader` fed by them is not modelled.
- Retry.Drive: the delay of a scheduled retry is not modelled. Only whether the retry was scheduled matters, for where an exception thrown later ends up.

## Findings

| source | as written | input that shows it | evidently intended | confidence | as-written member | corrected member |
|---|---|---|---|---|---|---|
| core/src/main/java/ph/codeia/altlive/LiveField.java:232-234 | `setValue` iterates `metaByOwner.values()` directly. A receiver that removes the last receiver of its owner (the `observeOnce` wrapper of `Live.java:77-85` does) removes an entry from that `HashMap` mid-iteration, so the next step of the loop throws ConcurrentModificationException and the remaining owners get nothing. | One `observeOnce` wrapper on the immortal owner, visited first, and one ordinary receiver of a second active owner; `setValue(7)`. | Every receiver of every owner active when `setValue` starts is called once, as with the `CopyOnWriteArrayList` snapshot used for receivers. For example, iterate over a copy of the owners. | not executed | LiveFieldFacts.OnceReceiverBreaksIteration | LiveFieldFacts.SetValueDeliversOnce |
| core/src/main/java/ph/codeia/altlive/Live.java:77-85 | The `observeOnce` wrapper runs `receiver.accept(t); removeObserver(this);`. When the receiver throws, the removal is skipped and the wrapper stays registered, so the next `setValue` calls it again, although `Live.java:74-76` promises a receiver invoked at most once. | One `observeOnce` wrapper on the immortal owner, around a receiver that always throws a RuntimeException; `setValue(7)`, then `setValue(8)`. | The wrapper is invoked at most once, for example by removing itself in a `finally` block. | medium, not executed | LiveFieldFacts.ThrowingOnceFiresTwice | LiveFieldFacts.OnceFinallyFiresOnce |
