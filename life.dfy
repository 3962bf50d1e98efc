/**
 * `Life` (core/src/test/java/ph/codeia/altlive/Life.java): the test
 * lifecycle owner, a small state machine with a list of observers. Calling
 * an observer is returned as a `Notice`; the caller delivers it, in order.
 */
module Life {
  import opened Lifecycle
  import opened Outcomes

  /** One `observer.onX(this)` call, with the state the owner reports during it. */
  datatype Notice = Notice(observer: object, event: Event, state: State)

  /** A transition: the new state and the event it fires, if any. */
  datatype Move = Move(state: State, event: Option<Event>)

  /** The `switch` of `progress()`. */
  function Up(s: State): (m: Move)
  {
    match s
    case Destroyed => Move(Destroyed, None)
    case Initialized => Move(Created, Some(OnCreate))
    case Created => Move(Started, Some(OnStart))
    case Started => Move(Resumed, Some(OnResume))
    case Resumed => Move(Resumed, None)
  }

  /** The `switch` of `regress()`. */
  function Down(s: State): (m: Move)
  {
    match s
    case Destroyed => Move(Destroyed, None)
    case Initialized => Move(Destroyed, Some(OnDestroy))
    case Created => Move(Destroyed, Some(OnDestroy))
    case Started => Move(Created, Some(OnStop))
    case Resumed => Move(Started, Some(OnPause))
  }

  /** The events `addObserver` replays to a new observer in state `s`. */
  function CatchUp(s: State): (events: seq<Event>)
  {
    match s
    case Destroyed => []
    case Initialized => []
    case Created => [OnCreate]
    case Started => [OnCreate, OnStart]
    case Resumed => [OnCreate, OnStart, OnResume]
  }

  /** The notices of one event to every observer in the list, in order. */
  function Broadcast(observers: seq<object>, e: Event, s: State): (notices: seq<Notice>)
    ensures |notices| == |observers|
    ensures forall i :: 0 <= i < |observers| ==> notices[i] == Notice(observers[i], e, s)
  {
    if |observers| == 0 then [] else [Notice(observers[0], e, s)] + Broadcast(observers[1..], e, s)
  }

  /** `observers.remove(o)`: drops the first occurrence. */
  function RemoveFirst(observers: seq<object>, o: object): (rest: seq<object>)
    ensures o !in observers ==> rest == observers
    ensures o in observers ==> |rest| == |observers| - 1
  {
    if |observers| == 0 then []
    else if observers[0] == o then observers[1..]
    else [observers[0]] + RemoveFirst(observers[1..], o)
  }

  class Life {
    var state: State
    var observers: seq<object>

    /** `new Life()`. */
    constructor()
      ensures state == Initialized && observers == []
    {
      state := Initialized;
      observers := [];
    }

    /** `Life.created()`: the state is set and nothing is fired. */
    constructor Created()
      ensures state == Lifecycle.Created && observers == []
    {
      state := Lifecycle.Created;
      observers := [];
    }

    /** `Life.started()`. */
    constructor Started()
      ensures state == Lifecycle.Started && observers == []
    {
      state := Lifecycle.Started;
      observers := [];
    }

    /** `Life.resumed()`. */
    constructor Resumed()
      ensures state == Lifecycle.Resumed && observers == []
    {
      state := Lifecycle.Resumed;
      observers := [];
    }

    /** `getCurrentState()`. */
    function CurrentState(): State
      reads this
    {
      state
    }

    /** Sets the state, then notifies a snapshot of the observers. */
    method Fire(m: Move) returns (notices: seq<Notice>)
      modifies this
      ensures state == m.state && observers == old(observers)
      ensures m.event.None? ==> notices == []
      ensures m.event.Some? ==> notices == Broadcast(observers, m.event.value, m.state)
    {
      state := m.state;
      notices := [];
      if m.event.Some? {
        var snapshot := observers;
        var i := 0;
        while i < |snapshot|
          invariant 0 <= i <= |snapshot|
          invariant state == m.state && observers == snapshot
          invariant notices == Broadcast(snapshot[..i], m.event.value, m.state)
        {
          notices := notices + [Notice(snapshot[i], m.event.value, state)];
          i := i + 1;
          assert snapshot[..i] == snapshot[..i - 1] + [snapshot[i - 1]];
          BroadcastAppend(snapshot[..i - 1], snapshot[i - 1], m.event.value, m.state);
        }
        assert snapshot[..i] == snapshot;
      }
    }

    /** `progress()`. */
    method Progress() returns (notices: seq<Notice>)
      modifies this
      ensures state == Up(old(state)).state && observers == old(observers)
      ensures Up(old(state)).event.None? ==> notices == []
      ensures Up(old(state)).event.Some? ==> notices == Broadcast(observers, Up(old(state)).event.value, state)
    {
      notices := Fire(Up(state));
    }

    /** `regress()`. */
    method Regress() returns (notices: seq<Notice>)
      modifies this
      ensures state == Down(old(state)).state && observers == old(observers)
      ensures Down(old(state)).event.None? ==> notices == []
      ensures Down(old(state)).event.Some? ==> notices == Broadcast(observers, Down(old(state)).event.value, state)
    {
      notices := Fire(Down(state));
    }

    /** `addObserver(o)`: appends `o` and returns the events replayed to it, in order. */
    method AddObserver(o: object) returns (events: seq<Event>)
      modifies this
      ensures observers == old(observers) + [o] && state == old(state)
      ensures events == CatchUp(state)
    {
      observers := observers + [o];
      match state {
        case Destroyed => events := [];
        case Initialized => events := [];
        case Created => events := [OnCreate];
        case Started => events := [OnCreate, OnStart];
        case Resumed => events := [OnCreate, OnStart, OnResume];
      }
    }

    /** `removeObserver(o)`. */
    method RemoveObserver(o: object)
      modifies this
      ensures observers == RemoveFirst(old(observers), o) && state == old(state)
    {
      var xs := observers;
      var i := 0;
      while i < |xs| && xs[i] != o
        invariant 0 <= i <= |xs|
        invariant unchanged(this) && xs == observers
        invariant RemoveFirst(xs, o) == xs[..i] + RemoveFirst(xs[i..], o)
      {
        RemoveFirstStep(xs, i, o);
        i := i + 1;
      }
      if i < |xs| {
        assert xs[i..] == [o] + xs[i + 1..];
        observers := xs[..i] + xs[i + 1..];
      } else {
        assert xs[i..] == [];
        assert xs[..i] == xs;
      }
    }
  }

  lemma BroadcastAppend(observers: seq<object>, o: object, e: Event, s: State)
    ensures Broadcast(observers + [o], e, s) == Broadcast(observers, e, s) + [Notice(o, e, s)]
  {
  }

  lemma RemoveFirstStep(xs: seq<object>, i: nat, o: object)
    requires i < |xs| && xs[i] != o
    ensures xs[..i] + RemoveFirst(xs[i..], o) == xs[..i + 1] + RemoveFirst(xs[i + 1..], o)
  {
    assert xs[i..][1..] == xs[i + 1..];
    assert xs[..i + 1] == xs[..i] + [xs[i]];
  }

  // ---------------------------------------------------------------------
  // Properties

  /** `progress` walks INITIALIZED, CREATED, STARTED, RESUMED with create, start, resume. */
  lemma UpWalk()
    ensures Up(Initialized) == Move(Created, Some(OnCreate))
    ensures Up(Created) == Move(Started, Some(OnStart))
    ensures Up(Started) == Move(Resumed, Some(OnResume))
  {
  }

  /** `progress` fires only up events, `regress` only down events. */
  lemma Directions(s: State)
    ensures Up(s).event.Some? ==> IsUp(Up(s).event.value)
    ensures Down(s).event.Some? ==> IsDown(Down(s).event.value)
  {
  }

  /** DESTROYED is absorbing, and it is the only state both moves leave unchanged. */
  lemma DestroyedIsAbsorbing(s: State)
    ensures Up(Destroyed) == Move(Destroyed, None) && Down(Destroyed) == Move(Destroyed, None)
    ensures Up(s).state == s && Down(s).state == s <==> s == Destroyed
  {
  }

  /** `progress` is a no-op exactly at RESUMED and DESTROYED. */
  lemma UpIdleStates(s: State)
    ensures Up(s).event.None? <==> s == Resumed || s == Destroyed
    ensures Up(s).event.None? ==> Up(s).state == s
  {
  }

  /** `regress` undoes `progress` above CREATED: pause undoes resume, stop undoes start. */
  lemma DownUndoesUp(s: State)
    requires s == Created || s == Started
    ensures Down(Up(s).state).state == s
  {
  }

  /** `progress` undoes `regress` from STARTED and RESUMED. */
  lemma UpUndoesDown(s: State)
    requires s == Started || s == Resumed
    ensures Up(Down(s).state).state == s
  {
  }

  /** The replayed events are what `progress` fires on the way from INITIALIZED to the current state. */
  lemma {:induction false} CatchUpIsTheWayUp(s: State)
    requires s != Destroyed
    ensures CatchUp(s) == WayUp(Initialized, s)
  {
    match s {
      case Initialized =>
      case Created =>
        assert WayUp(Initialized, Created) == [OnCreate] + WayUp(Created, Created);
      case Started =>
        assert WayUp(Created, Started) == [OnStart] + WayUp(Started, Started);
        assert WayUp(Initialized, Started) == [OnCreate] + WayUp(Created, Started);
      case Resumed =>
        assert WayUp(Started, Resumed) == [OnResume] + WayUp(Resumed, Resumed);
        assert WayUp(Created, Resumed) == [OnStart] + WayUp(Started, Resumed);
        assert WayUp(Initialized, Resumed) == [OnCreate] + WayUp(Created, Resumed);
    }
  }

  /** Rank of the live states, INITIALIZED lowest. */
  function Height(s: State): nat {
    match s
    case Destroyed => 0
    case Initialized => 0
    case Created => 1
    case Started => 2
    case Resumed => 3
  }

  /** The events `progress` fires going from `from` until `to` is reached. */
  function WayUp(from: State, to: State): seq<Event>
    decreases 4 - Height(from)
  {
    if from == to || from == Destroyed || from == Resumed then []
    else [Up(from).event.value] + WayUp(Up(from).state, to)
  }

  /** A new observer of a DESTROYED or INITIALIZED owner gets nothing; any catch-up is ordered create, start, resume. */
  lemma CatchUpShape(s: State)
    ensures CatchUp(s) == [] <==> s == Destroyed || s == Initialized
    ensures CatchUp(s) == [OnCreate, OnStart, OnResume][..|CatchUp(s)|]
  {
  }
}
