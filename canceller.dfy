/**
 * `Canceller` (transform/Canceller.java): a computation that can be
 * cancelled once; after that it neither selects its source nor forwards
 * answers that arrive late.
 */
module Canceller {
  import opened Outcomes

  /**
   * What the gate does with an answer of the source: forwarded while not
   * cancelled, dropped afterwards.
   */
  function Gate<T>(cancelled: bool, answer: Outcome<T>): (s: Signal<T>)
    ensures cancelled <==> s.Quiet?
    ensures !cancelled ==> s == Deliver(answer)
  {
    if cancelled then Quiet else Deliver(answer)
  }

  /** `select`: nothing at all once cancelled, otherwise the source's signal through the gate. */
  function Pass<T>(cancelled: bool, inner: Signal<T>): (s: Signal<T>)
  {
    if cancelled then Quiet
    else match inner
      case Deliver(o) => Gate(false, o)
      case Escape(e) => Escape(e)
      case Quiet => Quiet
  }

  /** The cancellable computation. */
  class Cancellable<T> {
    /** `isCancelled`. */
    var isCancelled: bool
    /** How many times `onCancel.run()` has been called. */
    var onCancelRuns: nat
    /** What `onCancel.run()` does: return, or throw. */
    const onCancel: Outcome<()>

    /** `new Canceller(source, onCancel)`. */
    constructor(onCancel: Outcome<()>)
      ensures !isCancelled && onCancelRuns == 0 && this.onCancel == onCancel
    {
      isCancelled := false;
      onCancelRuns := 0;
      this.onCancel := onCancel;
    }

    /** `new Canceller(source)`: the cancel action is a no-op. */
    constructor NoAction()
      ensures !isCancelled && onCancelRuns == 0 && onCancel == Ok(())
    {
      isCancelled := false;
      onCancelRuns := 0;
      onCancel := Ok(());
    }

    /**
     * `cancel()`: the first call sets the flag and then runs `onCancel`,
     * whose exception (if any) reaches the caller; later calls do nothing.
     */
    method Cancel() returns (thrown: Option<Error>)
      modifies this
      ensures isCancelled
      ensures onCancelRuns == old(onCancelRuns) + (if old(isCancelled) then 0 else 1)
      ensures thrown.Some? <==> !old(isCancelled) && onCancel.Err?
      ensures thrown.Some? ==> thrown.value == onCancel.error
    {
      thrown := None;
      if !isCancelled {
        isCancelled := true;
        onCancelRuns := onCancelRuns + 1;
        if onCancel.Err? {
          thrown := Some(onCancel.error);
        }
      }
    }

    /** The callbacks of the case handed to the source. */
    method OnOutcome(answer: Outcome<T>) returns (s: Signal<T>)
      ensures s == Gate(isCancelled, answer)
    {
      if !isCancelled {
        s := Deliver(answer);
      } else {
        s := Quiet;
      }
    }

    /** `select`; `inner` is what the source does if it is selected. */
    method Select(inner: Signal<T>) returns (s: Signal<T>, selected: bool)
      ensures selected <==> !isCancelled
      ensures s == Pass(isCancelled, inner)
    {
      if isCancelled {
        return Quiet, false;
      }
      selected := true;
      match inner {
        case Deliver(o) => s := OnOutcome(o);
        case Escape(e) => s := Escape(e);
        case Quiet => s := Quiet;
      }
    }
  }

  // ---------------------------------------------------------------------
  // Properties

  /**
   * `calls` successive calls of `cancel()`, each made by a caller that
   * catches what it throws: `onCancel` runs once from a live canceller
   * and never from a cancelled one, and only the first call can throw.
   */
  method CancelRepeatedly<T>(c: Cancellable<T>, calls: nat) returns (thrown: seq<Option<Error>>)
    modifies c
    ensures c.isCancelled == (old(c.isCancelled) || calls >= 1)
    ensures c.onCancelRuns == old(c.onCancelRuns) + (if calls >= 1 && !old(c.isCancelled) then 1 else 0)
    ensures |thrown| == calls
    ensures forall i :: 0 <= i < calls ==> (thrown[i].Some? <==> i == 0 && !old(c.isCancelled) && c.onCancel.Err?)
  {
    thrown := [];
    var i := 0;
    while i < calls
      invariant 0 <= i <= calls && |thrown| == i
      invariant c.isCancelled == (old(c.isCancelled) || i >= 1)
      invariant c.onCancelRuns == old(c.onCancelRuns) + (if i >= 1 && !old(c.isCancelled) then 1 else 0)
      invariant forall j :: 0 <= j < i ==> (thrown[j].Some? <==> j == 0 && !old(c.isCancelled) && c.onCancel.Err?)
    {
      var t := c.Cancel();
      thrown := thrown + [t];
      i := i + 1;
    }
  }

  /** Before cancellation the canceller is transparent; after it, nothing is delivered. */
  lemma PassCases<T>(cancelled: bool, inner: Signal<T>)
    ensures !cancelled ==> Pass(cancelled, inner) == inner
    ensures cancelled ==> Pass(cancelled, inner) == Quiet
  {
  }

  /**
   * A select made before `cancel()` whose answer arrives after it: the
   * source was selected, but the answer is dropped.
   */
  method LateAnswerDropped<T>(answer: Outcome<T>) returns (selected: bool, delivered: Signal<T>)
    ensures selected && delivered == Quiet
  {
    var c := new Cancellable<T>.NoAction();
    var first;
    first, selected := c.Select(Quiet);
    var _ := c.Cancel();
    delivered := c.OnOutcome(answer);
  }

  /** Cancelling twice runs the action once; a later select neither selects nor delivers. */
  method CancelTwice<T>(inner: Signal<T>) returns (runs: nat, selected: bool, s: Signal<T>)
    ensures runs == 1 && !selected && s == Quiet
  {
    var c := new Cancellable<T>(Ok(()));
    var _ := c.Cancel();
    var _ := c.Cancel();
    runs := c.onCancelRuns;
    s, selected := c.Select(inner);
  }
}
