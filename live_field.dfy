/**
 * `LiveField` (LiveField.java): a lifecycle-gated broadcast cell. It keeps
 * two indices that must agree, owner -> (receivers, active) and
 * receiver -> owner, the current value, and a fixed configuration: the
 * event that activates an owner, the one that deactivates it, and whether
 * the cell replays its value (sticky).
 *
 * The executor is the default inline one, so `postValue` is `setValue`.
 * A receiver is a user function whose effect on the cell is fixed by
 * `react`; a `Once` receiver is the wrapper `Live.observeOnce` registers
 * around a user receiver, which calls it and then removes itself. Every
 * call of a registered receiver is recorded in `log`.
 */
module LiveField {
  import opened Outcomes
  import opened Lifecycle
  import Life
  import Immortal

  /** A `LifecycleOwner`: `Immortal.INSTANCE`, or a mortal owner such as a `Life`. */
  datatype Owner = Eternal | Mortal(id: nat)

  /**
   * A registered `Receiver`: the user receiver `id`, or the `observeOnce`
   * wrapper `tag` around the user receiver `id`.
   */
  datatype Receiver = User(id: nat) | Once(tag: nat, id: nat)

  /** What a user receiver does to the cell when it is called. */
  datatype Reaction =
    | Return                   // nothing
    | RemoveSelf               // field.removeObserver(this)
    | RemoveAll(owner: Owner)  // field.removeObservers(owner)
    | Throw(thrown: Error)     // throws out of accept

  /** `OwnerMeta`: the receivers of one owner, in registration order, and its active flag. */
  datatype Meta = Meta(receivers: seq<Receiver>, active: bool)

  /** One call `receiver.accept(value)`. */
  datatype Call<T> = Call(receiver: Receiver, value: T)

  /**
   * The state of a cell. `value` is `None` when null after `clear()`;
   * `subscribed` are the owners whose lifecycle the cell has added itself to.
   */
  datatype Field<T> = Field(
    metas: map<Owner, Meta>,
    owners: map<Receiver, Owner>,
    hasValue: bool,
    value: Option<T>,
    subscribed: set<Owner>,
    log: seq<Call<T>>)

  /** The configuration a `Builder` copies into the cell. */
  datatype Config = Config(activator: Event, deactivator: Event, sticky: bool)

  /** The state after an operation, and the exception it threw, if any. */
  datatype Step<T> = Step(field: Field<T>, thrown: Option<Error>)

  // ---------------------------------------------------------------------
  // Builder

  /** `new Builder()`: active from ON_RESUME to ON_PAUSE, sticky. */
  const Default: Config := Config(OnResume, OnPause, true)

  /** `Builder.activate(e)`: accepts ON_CREATE, ON_START and ON_RESUME. */
  function Activate(c: Config, e: Event): (r: Outcome<Config>)
    ensures r.Ok? <==> IsUp(e)
    ensures r.Ok? ==> r.value == Config(e, c.deactivator, c.sticky)
    ensures r.Err? ==> r.error == IllegalArgument
  {
    match e
    case OnCreate => Ok(c.(activator := e))
    case OnStart => Ok(c.(activator := e))
    case OnResume => Ok(c.(activator := e))
    case _ => Err(IllegalArgument)
  }

  /** `Builder.deactivate(e)`: accepts ON_DESTROY, ON_STOP and ON_PAUSE. */
  function Deactivate(c: Config, e: Event): (r: Outcome<Config>)
    ensures r.Ok? <==> IsDown(e)
    ensures r.Ok? ==> r.value == Config(c.activator, e, c.sticky)
    ensures r.Err? ==> r.error == IllegalArgument
  {
    match e
    case OnDestroy => Ok(c.(deactivator := e))
    case OnStop => Ok(c.(deactivator := e))
    case OnPause => Ok(c.(deactivator := e))
    case _ => Err(IllegalArgument)
  }

  /** `Builder.sticky(b)`. */
  function Sticky(c: Config, sticky: bool): (d: Config)
    ensures d == Config(c.activator, c.deactivator, sticky)
  {
    c.(sticky := sticky)
  }

  /** A configuration a `Builder` can produce. */
  predicate Buildable(c: Config) {
    IsUp(c.activator) && IsDown(c.deactivator)
  }

  /** `Builder.build()`: no owners, no receivers, no value. */
  function Empty<T>(): (f: Field<T>)
    ensures f.metas == map[] && f.owners == map[] && !f.hasValue && f.value.None? && f.subscribed == {} && f.log == []
  {
    Field(map[], map[], false, None, {}, [])
  }

  // ---------------------------------------------------------------------
  // Registry

  /** `CopyOnWriteArrayList.remove(r)`: drops the first occurrence. */
  function RemoveFirst(rs: seq<Receiver>, r: Receiver): (out: seq<Receiver>)
  {
    if |rs| == 0 then []
    else if rs[0] == r then rs[1..]
    else [rs[0]] + RemoveFirst(rs[1..], r)
  }

  /** The receiver index without the receivers in `rs`. */
  function Unbind(owners: map<Receiver, Owner>, rs: seq<Receiver>): (m: map<Receiver, Owner>)
  {
    map k | k in owners && k !in rs :: owners[k]
  }

  /**
   * `removeObserver(r)`: unbinds `r`, drops it from its owner's list, and
   * drops the owner (unsubscribing) when that leaves the list empty.
   */
  function RemoveObserverF<T>(f: Field<T>, r: Receiver): (s: Step<T>)
  {
    if r !in f.owners then Step(f, None)
    else
      var o := f.owners[r];
      var f1 := f.(owners := f.owners - {r});
      if o !in f1.metas then Step(f1, Some(NullPointer))
      else
        var rs := RemoveFirst(f1.metas[o].receivers, r);
        if |rs| == 0 then Step(f1.(metas := f1.metas - {o}, subscribed := f1.subscribed - {o}), None)
        else Step(f1.(metas := f1.metas[o := f1.metas[o].(receivers := rs)]), None)
  }

  /** `removeObservers(o)`: drops the owner, unsubscribes, and unbinds all its receivers. */
  function RemoveObserversF<T>(f: Field<T>, o: Owner): (g: Field<T>)
  {
    if o !in f.metas then f
    else f.(metas := f.metas - {o}, subscribed := f.subscribed - {o},
            owners := Unbind(f.owners, f.metas[o].receivers))
  }

  // ---------------------------------------------------------------------
  // Delivery

  /** What the user receiver `self` does to the cell once it has been called. */
  function ReactF<T>(f: Field<T>, self: Receiver, x: Reaction): (s: Step<T>)
  {
    match x
    case Return => Step(f, None)
    case RemoveSelf => RemoveObserverF(f, self)
    case RemoveAll(o) => Step(RemoveObserversF(f, o), None)
    case Throw(e) => Step(f, Some(e))
  }

  /**
   * `receiver.accept(v)`, recorded. A user receiver then does what it does;
   * a wrapper calls its user receiver and, unless that threw, removes itself.
   */
  function AcceptF<T>(react: (nat, T) -> Reaction, f: Field<T>, r: Receiver, v: T): (s: Step<T>)
  {
    var f1 := f.(log := f.log + [Call(r, v)]);
    var s1 := ReactF(f1, User(r.id), react(r.id, v));
    if r.User? || s1.thrown.Some? then s1 else RemoveObserverF(s1.field, r)
  }

  /** The loop over a snapshot `rs` of a receiver list; an exception ends it. */
  function NotifyF<T>(react: (nat, T) -> Reaction, f: Field<T>, rs: seq<Receiver>, v: T): (s: Step<T>)
    decreases |rs|
  {
    if |rs| == 0 then Step(f, None)
    else
      var s1 := AcceptF(react, f, rs[0], v);
      if s1.thrown.Some? then s1 else NotifyF(react, s1.field, rs[1..], v)
  }

  /** `OwnerMeta.notifyReceivers(v)` for the owner `o`, if it is (still) registered. */
  function NotifyOwnerF<T>(react: (nat, T) -> Reaction, f: Field<T>, o: Owner, v: T): (s: Step<T>)
  {
    if o in f.metas && f.metas[o].active then NotifyF(react, f, f.metas[o].receivers, v)
    else Step(f, None)
  }

  /** `order` lists every element of `keys` exactly once: an iteration order of the owner map. */
  ghost predicate IsEnumeration(order: seq<Owner>, keys: set<Owner>) {
    (forall i, j :: 0 <= i < j < |order| ==> order[i] != order[j]) &&
    (forall o :: o in keys <==> o in order)
  }

  /**
   * The owner loop of `setValue`, visiting the owners in `order` and
   * skipping one that an earlier receiver removed.
   */
  function NotifyOwners<T>(react: (nat, T) -> Reaction, f: Field<T>, order: seq<Owner>, v: T): (s: Step<T>)
    decreases |order|
  {
    if |order| == 0 then Step(f, None)
    else
      var s1 := NotifyOwnerF(react, f, order[0], v);
      if s1.thrown.Some? then s1 else NotifyOwners(react, s1.field, order[1..], v)
  }

  /** `setValue(v)`: stores the value, then notifies every active owner's receivers. */
  function SetValueF<T>(react: (nat, T) -> Reaction, f: Field<T>, v: T, order: seq<Owner>): (s: Step<T>)
  {
    NotifyOwners(react, f.(value := Some(v), hasValue := true), order, v)
  }

  /**
   * The owner loop of `setValue` as written: it walks the `HashMap` itself,
   * whose iterator throws ConcurrentModificationException on the next step
   * once a receiver has removed an owner.
   */
  function NotifyOwnersAsWritten<T>(react: (nat, T) -> Reaction, f: Field<T>, order: seq<Owner>, keys: set<Owner>, v: T): (s: Step<T>)
    decreases |order|
  {
    if |order| == 0 then Step(f, None)
    else
      var s1 := NotifyOwnerF(react, f, order[0], v);
      if s1.thrown.Some? then s1
      else if |order| > 1 && s1.field.metas.Keys != keys then Step(s1.field, Some(ConcurrentModification))
      else NotifyOwnersAsWritten(react, s1.field, order[1..], keys, v)
  }

  /** `setValue(v)` as written. */
  function SetValueAsWritten<T>(react: (nat, T) -> Reaction, f: Field<T>, v: T, order: seq<Owner>): (s: Step<T>)
  {
    NotifyOwnersAsWritten(react, f.(value := Some(v), hasValue := true), order, f.metas.Keys, v)
  }

  /** `clear()`. */
  function ClearF<T>(f: Field<T>): (g: Field<T>)
    ensures !g.hasValue && g.value.None?
    ensures g.metas == f.metas && g.owners == f.owners && g.subscribed == f.subscribed && g.log == f.log
  {
    f.(value := None, hasValue := false)
  }

  // ---------------------------------------------------------------------
  // Lifecycle callbacks

  /** `maybeActivate(e, o)`: the owner's meta must exist, or a NullPointerException is thrown. */
  function MaybeActivateF<T>(c: Config, react: (nat, T) -> Reaction, f: Field<T>, e: Event, o: Owner): (s: Step<T>)
  {
    if c.activator != e then Step(f, None)
    else if o !in f.metas then Step(f, Some(NullPointer))
    else
      var f1 := f.(metas := f.metas[o := f.metas[o].(active := true)]);
      if c.sticky && f1.hasValue && f1.value.Some? then NotifyOwnerF(react, f1, o, f1.value.value)
      else Step(f1, None)
  }

  /** `maybeDeactivate(e, o)`. */
  function MaybeDeactivateF<T>(c: Config, f: Field<T>, e: Event, o: Owner): (s: Step<T>)
  {
    if c.deactivator != e then Step(f, None)
    else if o !in f.metas then Step(f, Some(NullPointer))
    else Step(f.(metas := f.metas[o := f.metas[o].(active := false)]), None)
  }

  /** The `DefaultLifecycleObserver` callbacks of the cell. */
  function OnEventF<T>(c: Config, react: (nat, T) -> Reaction, f: Field<T>, o: Owner, e: Event): (s: Step<T>)
  {
    match e
    case OnCreate => MaybeActivateF(c, react, f, e, o)
    case OnStart => MaybeActivateF(c, react, f, e, o)
    case OnResume => MaybeActivateF(c, react, f, e, o)
    case OnPause => MaybeDeactivateF(c, f, e, o)
    case OnStop => MaybeDeactivateF(c, f, e, o)
    case OnDestroy => Step(RemoveObserversF(f.(subscribed := f.subscribed - {o}), o), None)
    case OnAny => Step(f, None)
  }

  /** Callbacks delivered in order; an exception ends the sequence. */
  function DispatchF<T>(c: Config, react: (nat, T) -> Reaction, f: Field<T>, o: Owner, events: seq<Event>): (s: Step<T>)
    decreases |events|
  {
    if |events| == 0 then Step(f, None)
    else
      var s1 := OnEventF(c, react, f, o, events[0]);
      if s1.thrown.Some? then s1 else DispatchF(c, react, s1.field, o, events[1..])
  }

  /** What `o.getLifecycle().addObserver(cell)` calls back, given the owner's state. */
  function CatchUpEvents(o: Owner, s: State): (events: seq<Event>)
  {
    if o.Eternal? then Immortal.AddObserver(Immortal.DefaultObserver) else Life.CatchUp(s)
  }

  /**
   * `observe(o, r)`, where `s` is the owner's current state. A new owner
   * is subscribed to, which calls the cell back with the catch-up events.
   */
  function ObserveF<T>(c: Config, react: (nat, T) -> Reaction, f: Field<T>, o: Owner, s: State, r: Receiver): (st: Step<T>)
  {
    if s == Destroyed then Step(f, None)
    else if r in f.owners && f.owners[r] != o then Step(f, Some(IllegalArgument))
    else
      var f1 := if r in f.owners then f else f.(owners := f.owners[r := o]);
      if o in f1.metas && r in f1.metas[o].receivers then Step(f1, None)
      else if o !in f1.metas then
        DispatchF(c, react, f1.(metas := f1.metas[o := Meta([r], false)], subscribed := f1.subscribed + {o}),
                  o, CatchUpEvents(o, s))
      else
        var f2 := f1.(metas := f1.metas[o := f1.metas[o].(receivers := f1.metas[o].receivers + [r])]);
        if c.sticky && f2.hasValue && f2.metas[o].active && f2.value.Some? then AcceptF(react, f2, r, f2.value.value)
        else Step(f2, None)
  }

  // ---------------------------------------------------------------------
  // The cell object

  class LiveField<T> {
    const config: Config
    /** What each user receiver does when called. */
    const react: (nat, T) -> Reaction
    var metaByOwner: map<Owner, Meta>
    var ownerByObserver: map<Receiver, Owner>
    var hasValue: bool
    var value: Option<T>
    ghost var subscribed: set<Owner>
    ghost var log: seq<Call<T>>

    ghost function Abs(): Field<T>
      reads this
    {
      Field(metaByOwner, ownerByObserver, hasValue, value, subscribed, log)
    }

    /** `builder.build()`. */
    constructor(config: Config, react: (nat, T) -> Reaction)
      ensures this.config == config && this.react == react
      ensures Abs() == Empty()
    {
      this.config := config;
      this.react := react;
      metaByOwner, ownerByObserver := map[], map[];
      hasValue, value := false, None;
      subscribed, log := {}, [];
    }

    /** `builder.build(seed)`: a new cell, then `setValue(seed)`, which has nobody to notify yet. */
    constructor Seeded(config: Config, react: (nat, T) -> Reaction, seed: T)
      ensures this.config == config && this.react == react
      ensures Abs() == Empty().(hasValue := true, value := Some(seed))
    {
      this.config := config;
      this.react := react;
      metaByOwner, ownerByObserver := map[], map[];
      hasValue, value := false, None;
      subscribed, log := {}, [];
      new;
      var thrown, order := SetValue(seed);
    }

    /** `getValue()`. */
    function GetValue(): (v: Option<T>)
      reads this
      ensures v == Abs().value
    {
      value
    }

    /** `clear()`. */
    method Clear()
      modifies this
      ensures Abs() == ClearF(old(Abs()))
    {
      value := None;
      hasValue := false;
    }

    method RemoveObservers(o: Owner)
      modifies this
      ensures Abs() == RemoveObserversF(old(Abs()), o)
    {
      if o in metaByOwner {
        var meta := metaByOwner[o];
        metaByOwner := metaByOwner - {o};
        subscribed := subscribed - {o};
        var rs := meta.receivers;
        var i := 0;
        while i < |rs|
          invariant 0 <= i <= |rs|
          invariant Abs() == old(Abs()).(metas := old(metaByOwner) - {o}, subscribed := old(subscribed) - {o},
                                         owners := Unbind(old(ownerByObserver), rs[..i]))
        {
          UnbindStep(old(ownerByObserver), rs, i);
          ownerByObserver := ownerByObserver - {rs[i]};
          i := i + 1;
        }
        assert rs[..i] == rs;
      }
    }

    method RemoveObserver(r: Receiver) returns (thrown: Option<Error>)
      modifies this
      ensures Step(Abs(), thrown) == RemoveObserverF(old(Abs()), r)
    {
      thrown := None;
      if r in ownerByObserver {
        var o := ownerByObserver[r];
        ownerByObserver := ownerByObserver - {r};
        if o !in metaByOwner {
          thrown := Some(NullPointer);
          return;
        }
        var rs := RemoveFirst(metaByOwner[o].receivers, r);
        if |rs| == 0 {
          metaByOwner := metaByOwner - {o};
          subscribed := subscribed - {o};
        } else {
          metaByOwner := metaByOwner[o := metaByOwner[o].(receivers := rs)];
        }
      }
    }

    /** One receiver call. */
    method Accept(r: Receiver, v: T) returns (thrown: Option<Error>)
      modifies this
      ensures Step(Abs(), thrown) == AcceptF(react, old(Abs()), r, v)
    {
      log := log + [Call(r, v)];
      match react(r.id, v) {
        case Return => thrown := None;
        case RemoveSelf => thrown := RemoveObserver(User(r.id));
        case RemoveAll(o) =>
          RemoveObservers(o);
          thrown := None;
        case Throw(e) => thrown := Some(e);
      }
      if r.Once? && thrown.None? {
        thrown := RemoveObserver(r);
      }
    }

    /** `metaByOwner.get(o).notifyReceivers(v)`, over a snapshot of the receiver list. */
    method NotifyOwner(o: Owner, v: T) returns (thrown: Option<Error>)
      modifies this
      ensures Step(Abs(), thrown) == NotifyOwnerF(react, old(Abs()), o, v)
    {
      thrown := None;
      if o in metaByOwner && metaByOwner[o].active {
        var rs := metaByOwner[o].receivers;
        var i := 0;
        while i < |rs|
          invariant 0 <= i <= |rs|
          invariant thrown.None?
          invariant NotifyF(react, old(Abs()), rs, v) == NotifyF(react, Abs(), rs[i..], v)
        {
          assert rs[i..][1..] == rs[i + 1..];
          thrown := Accept(rs[i], v);
          if thrown.Some? {
            return;
          }
          i := i + 1;
        }
      }
    }

    /** `setValue(v)`, returning the owner order the map iteration happened to take. */
    method SetValue(v: T) returns (thrown: Option<Error>, order: seq<Owner>)
      modifies this
      ensures IsEnumeration(order, old(metaByOwner).Keys)
      ensures Step(Abs(), thrown) == SetValueF(react, old(Abs()), v, order)
    {
      value := Some(v);
      hasValue := true;
      order := Enumerate(metaByOwner.Keys);
      thrown := None;
      var i := 0;
      while i < |order|
        invariant 0 <= i <= |order|
        invariant thrown.None?
        invariant SetValueF(react, old(Abs()), v, order) == NotifyOwners(react, Abs(), order[i..], v)
      {
        assert order[i..][1..] == order[i + 1..];
        thrown := NotifyOwner(order[i], v);
        if thrown.Some? {
          return;
        }
        i := i + 1;
      }
    }

    /** `postValue(v)` with the inline executor. */
    method PostValue(v: T) returns (thrown: Option<Error>, order: seq<Owner>)
      modifies this
      ensures IsEnumeration(order, old(metaByOwner).Keys)
      ensures Step(Abs(), thrown) == SetValueF(react, old(Abs()), v, order)
    {
      thrown, order := SetValue(v);
    }

    method MaybeActivate(e: Event, o: Owner) returns (thrown: Option<Error>)
      modifies this
      ensures Step(Abs(), thrown) == MaybeActivateF(config, react, old(Abs()), e, o)
    {
      thrown := None;
      if config.activator == e {
        if o !in metaByOwner {
          return Some(NullPointer);
        }
        metaByOwner := metaByOwner[o := metaByOwner[o].(active := true)];
        if config.sticky && hasValue && value.Some? {
          thrown := NotifyOwner(o, value.value);
        }
      }
    }

    method MaybeDeactivate(e: Event, o: Owner) returns (thrown: Option<Error>)
      modifies this
      ensures Step(Abs(), thrown) == MaybeDeactivateF(config, old(Abs()), e, o)
    {
      thrown := None;
      if config.deactivator == e {
        if o !in metaByOwner {
          return Some(NullPointer);
        }
        metaByOwner := metaByOwner[o := metaByOwner[o].(active := false)];
      }
    }

    /** The lifecycle callback for event `e` of owner `o`. */
    method OnEvent(o: Owner, e: Event) returns (thrown: Option<Error>)
      modifies this
      ensures Step(Abs(), thrown) == OnEventF(config, react, old(Abs()), o, e)
    {
      match e {
        case OnCreate => thrown := MaybeActivate(e, o);
        case OnStart => thrown := MaybeActivate(e, o);
        case OnResume => thrown := MaybeActivate(e, o);
        case OnPause => thrown := MaybeDeactivate(e, o);
        case OnStop => thrown := MaybeDeactivate(e, o);
        case OnDestroy =>
          subscribed := subscribed - {o};
          RemoveObservers(o);
          thrown := None;
        case OnAny => thrown := None;
      }
    }

    /** The owner's catch-up calls, made while the cell subscribes to it. */
    method Dispatch(o: Owner, events: seq<Event>) returns (thrown: Option<Error>)
      modifies this
      ensures Step(Abs(), thrown) == DispatchF(config, react, old(Abs()), o, events)
    {
      thrown := None;
      var i := 0;
      while i < |events|
        invariant 0 <= i <= |events|
        invariant thrown.None?
        invariant DispatchF(config, react, old(Abs()), o, events) == DispatchF(config, react, Abs(), o, events[i..])
      {
        assert events[i..][1..] == events[i + 1..];
        thrown := OnEvent(o, events[i]);
        if thrown.Some? {
          return;
        }
        i := i + 1;
      }
    }

    /** `observe(o, r)`, for an owner currently in state `s`. */
    method Observe(o: Owner, s: State, r: Receiver) returns (thrown: Option<Error>)
      modifies this
      ensures Step(Abs(), thrown) == ObserveF(config, react, old(Abs()), o, s, r)
    {
      thrown := None;
      if s == Destroyed {
        return;
      }
      if r in ownerByObserver && ownerByObserver[r] != o {
        return Some(IllegalArgument);
      }
      ghost var f := old(Abs());
      ghost var f1 := if r in f.owners then f else f.(owners := f.owners[r := o]);
      if r !in ownerByObserver {
        ownerByObserver := ownerByObserver[r := o];
      }
      assert Abs() == f1;
      if o in metaByOwner && r in metaByOwner[o].receivers {
        return;
      }
      if o !in metaByOwner {
        thrown := Subscribe(o, s, r);
      } else {
        thrown := Enlist(o, r);
      }
    }

    /** `observe` for an owner without receivers: register `r` alone, subscribe, and take the catch-up events. */
    method Subscribe(o: Owner, s: State, r: Receiver) returns (thrown: Option<Error>)
      requires o !in metaByOwner
      modifies this
      ensures Step(Abs(), thrown) ==
              DispatchF(config, react, old(Abs()).(metas := old(Abs()).metas[o := Meta([r], false)],
                                                 subscribed := old(Abs()).subscribed + {o}), o, CatchUpEvents(o, s))
    {
      metaByOwner := metaByOwner[o := Meta([r], false)];
      subscribed := subscribed + {o};
      thrown := Dispatch(o, CatchUpEvents(o, s));
    }

    /** `observe` for an owner that has receivers: append `r`, and hand it a sticky value if the owner is active. */
    method Enlist(o: Owner, r: Receiver) returns (thrown: Option<Error>)
      requires o in metaByOwner
      modifies this
      ensures var f := old(Abs()).(metas := old(Abs()).metas[o := old(Abs()).metas[o].(receivers := old(Abs()).metas[o].receivers + [r])]);
        Step(Abs(), thrown) ==
        if config.sticky && f.hasValue && f.metas[o].active && f.value.Some? then AcceptF(react, f, r, f.value.value)
        else Step(f, None)
    {
      thrown := None;
      metaByOwner := metaByOwner[o := metaByOwner[o].(receivers := metaByOwner[o].receivers + [r])];
      if config.sticky && hasValue && metaByOwner[o].active && value.Some? {
        thrown := Accept(r, value.value);
      }
    }

    /** `observeForever(r)`: `observe(Immortal.INSTANCE, r)`. */
    method ObserveForever(r: Receiver) returns (thrown: Option<Error>)
      modifies this
      ensures Step(Abs(), thrown) == ObserveF(config, react, old(Abs()), Eternal, Immortal.CurrentState(), r)
    {
      thrown := Observe(Eternal, Immortal.CurrentState(), r);
    }

    /**
     * `observeOnce(o, r)` for the user receiver `id`: registers a new
     * wrapper that hands the value to `id` and then removes itself; the
     * wrapper is returned.
     */
    method ObserveOnce(o: Owner, s: State, id: nat) returns (thrown: Option<Error>, wrapper: Receiver)
      modifies this
      ensures wrapper.Once? && wrapper.id == id && wrapper !in old(ownerByObserver)
      ensures Step(Abs(), thrown) == ObserveF(config, react, old(Abs()), o, s, wrapper)
    {
      var tag := FreshOnceTag(ownerByObserver.Keys);
      wrapper := Once(tag, id);
      thrown := Observe(o, s, wrapper);
    }

    /** `observeOnce(r)`: `observeOnce(Immortal.INSTANCE, r)`. */
    method ObserveOnceForever(id: nat) returns (thrown: Option<Error>, wrapper: Receiver)
      modifies this
      ensures wrapper.Once? && wrapper.id == id && wrapper !in old(ownerByObserver)
      ensures Step(Abs(), thrown) == ObserveF(config, react, old(Abs()), Eternal, Immortal.CurrentState(), wrapper)
    {
      thrown, wrapper := ObserveOnce(Eternal, Immortal.CurrentState(), id);
    }
  }

  /**
   * A wrapper tag no registered wrapper uses: `observeOnce` allocates a new
   * anonymous receiver on every call, so its wrapper is never already known,
   * whatever receiver it wraps.
   */
  method FreshOnceTag(keys: set<Receiver>) returns (tag: nat)
    ensures forall id :: Once(tag, id) !in keys
  {
    tag := 0;
    var rest := keys;
    while rest != {}
      invariant rest <= keys
      invariant forall r :: r in keys && r !in rest && r.Once? ==> r.tag < tag
      decreases rest
    {
      var r :| r in rest;
      if r.Once? && r.tag >= tag {
        tag := r.tag + 1;
      }
      rest := rest - {r};
    }
  }

  /** Lists the elements of `keys` in some order, as iterating a `HashMap` does. */
  method Enumerate(keys: set<Owner>) returns (order: seq<Owner>)
    ensures IsEnumeration(order, keys)
  {
    order := [];
    var rest := keys;
    while rest != {}
      invariant rest !! set o | o in order
      invariant forall o :: o in keys <==> o in rest || o in order
      invariant forall i, j :: 0 <= i < j < |order| ==> order[i] != order[j]
      decreases rest
    {
      var o :| o in rest;
      order := order + [o];
      rest := rest - {o};
    }
  }

  lemma UnbindStep(owners: map<Receiver, Owner>, rs: seq<Receiver>, i: nat)
    requires i < |rs|
    ensures Unbind(owners, rs[..i + 1]) == Unbind(owners, rs[..i]) - {rs[i]}
  {
    assert rs[..i + 1] == rs[..i] + [rs[i]];
  }
}
