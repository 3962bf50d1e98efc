/**
 * `Immortal` (Immortal.java): the lifecycle owner that is always RESUMED.
 * It keeps no registry: every `addObserver` brings the observer up with
 * create, start and resume, and `removeObserver` does nothing.
 */
module Immortal {
  import opened Lifecycle
  import Life

  /** The observer interfaces `addObserver` distinguishes. */
  datatype ObserverKind = DefaultObserver | GenericObserver | OtherObserver

  /** `getCurrentState()`. */
  function CurrentState(): (s: State)
    ensures s == Resumed
  {
    Resumed
  }

  /**
   * The callbacks `addObserver` makes, in order: `onCreate`, `onStart`,
   * `onResume` for a default observer, the same three events through
   * `onStateChanged` for a generic one, and none for anything else.
   */
  function AddObserver(kind: ObserverKind): (events: seq<Event>)
  {
    match kind
    case DefaultObserver => [OnCreate, OnStart, OnResume]
    case GenericObserver => [OnCreate, OnStart, OnResume]
    case OtherObserver => []
  }

  /** `removeObserver(o)`: no callback, no state. */
  function RemoveObserver(kind: ObserverKind): (events: seq<Event>)
    ensures events == []
  {
    []
  }

  // ---------------------------------------------------------------------
  // Properties

  /** Immortal is never DESTROYED, so a field never drops a registration with it. */
  lemma NeverDestroyed()
    ensures CurrentState() != Destroyed
  {
  }

  /** Adding an observer replays exactly what a RESUMED `Life` replays. */
  lemma BehavesLikeResumedLife(kind: ObserverKind)
    requires kind != OtherObserver
    ensures AddObserver(kind) == Life.CatchUp(CurrentState())
  {
  }

  /** No pause, stop or destroy event is ever emitted. */
  lemma NoDownEvents(kind: ObserverKind)
    ensures forall i :: 0 <= i < |AddObserver(kind)| ==> IsUp(AddObserver(kind)[i])
  {
  }

  /** Every event a field may activate on is among those fired on registration. */
  lemma EveryActivatorFires(kind: ObserverKind, activator: Event)
    requires kind != OtherObserver && IsUp(activator)
    ensures activator in AddObserver(kind)
  {
  }
}
