/**
 * What `LiveField` guarantees: the two indices stay consistent, a value
 * reaches each receiver of each active owner exactly once, registration
 * and activation replay the value only when the cell is sticky, and the
 * lifecycle callbacks do what their owners' events mean.
 */
module LiveFieldFacts {
  import opened Outcomes
  import opened Lifecycle
  import Life
  import Immortal
  import opened LiveField

  // ---------------------------------------------------------------------
  // The representation invariant

  ghost predicate NoDup(rs: seq<Receiver>) {
    forall i, j :: 0 <= i < j < |rs| ==> rs[i] != rs[j]
  }

  /**
   * Every owner has a non-empty list of distinct receivers; a receiver is
   * bound to an owner exactly when it is in that owner's list; the cell
   * listens to exactly the owners it has receivers for; and a value is
   * present whenever one was set.
   */
  ghost predicate Valid<T>(f: Field<T>) {
    (forall o :: o in f.metas ==> |f.metas[o].receivers| > 0 && NoDup(f.metas[o].receivers)) &&
    (forall r :: r in f.owners ==> f.owners[r] in f.metas && r in f.metas[f.owners[r]].receivers) &&
    (forall o, r :: o in f.metas && r in f.metas[o].receivers ==> r in f.owners && f.owners[r] == o) &&
    f.subscribed == f.metas.Keys &&
    (f.hasValue ==> f.value.Some?)
  }

  /** `g` has the same value and the same registration as `f` for every owner other than `o`. */
  ghost predicate KeepsOthers<T>(f: Field<T>, g: Field<T>, o: Owner) {
    (forall p :: p != o ==> (p in g.metas <==> p in f.metas)) &&
    (forall p :: p != o && p in f.metas ==> g.metas[p] == f.metas[p]) &&
    g.value == f.value && g.hasValue == f.hasValue
  }

  /** No receiver of `g` is bound differently from `f`; receivers can only be unbound. */
  ghost predicate Shrinks<T>(f: Field<T>, g: Field<T>) {
    forall r :: r in g.owners ==> r in f.owners && g.owners[r] == f.owners[r]
  }

  lemma EmptyValid<T>()
    ensures Valid(Empty<T>())
  {
  }

  lemma ClearKeepsValid<T>(f: Field<T>)
    requires Valid(f)
    ensures Valid(ClearF(f))
  {
  }

  lemma {:induction false} RemoveFirstFacts(rs: seq<Receiver>, r: Receiver)
    requires NoDup(rs)
    ensures NoDup(RemoveFirst(rs, r))
    ensures forall x :: x in RemoveFirst(rs, r) <==> x in rs && x != r
    ensures r in rs ==> |RemoveFirst(rs, r)| == |rs| - 1
    ensures r !in rs ==> RemoveFirst(rs, r) == rs
    decreases |rs|
  {
    if |rs| > 0 {
      assert NoDup(rs[1..]) by {
        forall i, j | 0 <= i < j < |rs[1..]|
          ensures rs[1..][i] != rs[1..][j]
        {
          assert rs[1..][i] == rs[i + 1] && rs[1..][j] == rs[j + 1];
        }
      }
      assert rs[0] !in rs[1..] by {
        forall j | 0 <= j < |rs[1..]|
          ensures rs[1..][j] != rs[0]
        {
          assert rs[1..][j] == rs[j + 1];
        }
      }
      assert rs == [rs[0]] + rs[1..];
      if rs[0] != r {
        RemoveFirstFacts(rs[1..], r);
        var tail := RemoveFirst(rs[1..], r);
        assert RemoveFirst(rs, r) == [rs[0]] + tail;
        forall i, j | 0 <= i < j < |[rs[0]] + tail|
          ensures ([rs[0]] + tail)[i] != ([rs[0]] + tail)[j]
        {
          if i == 0 {
            assert ([rs[0]] + tail)[j] == tail[j - 1];
            assert tail[j - 1] in tail;
          } else {
            assert ([rs[0]] + tail)[i] == tail[i - 1] && ([rs[0]] + tail)[j] == tail[j - 1];
          }
        }
      }
    }
  }

  /**
   * `removeObserver(r)` on a consistent cell throws nothing, unbinds `r`,
   * leaves every other owner as it was, and keeps the cell consistent.
   */
  lemma RemoveObserverKeepsValid<T>(f: Field<T>, r: Receiver)
    requires Valid(f)
    ensures var s := RemoveObserverF(f, r);
      s.thrown.None? && Valid(s.field) &&
      s.field.owners == f.owners - {r} && s.field.log == f.log &&
      (forall o :: o in s.field.metas ==> r !in s.field.metas[o].receivers) &&
      (forall o :: o in s.field.metas ==> o in f.metas && s.field.metas[o].active == f.metas[o].active)
    ensures r in f.owners ==> KeepsOthers(f, RemoveObserverF(f, r).field, f.owners[r])
    ensures r !in f.owners ==> RemoveObserverF(f, r) == Step(f, None)
  {
    RemoveObserverValid(f, r);
    RemoveObserverOthers(f, r);
  }

  lemma RemoveObserverValid<T>(f: Field<T>, r: Receiver)
    requires Valid(f)
    ensures var s := RemoveObserverF(f, r);
      s.thrown.None? && Valid(s.field) && (forall o :: o in s.field.metas ==> r !in s.field.metas[o].receivers)
  {
    if r in f.owners {
      var o := f.owners[r];
      var rs := RemoveFirst(f.metas[o].receivers, r);
      RemoveFirstFacts(f.metas[o].receivers, r);
      if |rs| == 0 {
        UnlistLastValid(f, r, o);
      } else {
        UnlistValid(f, r, o, rs);
      }
    }
  }

  lemma RemoveObserverOthers<T>(f: Field<T>, r: Receiver)
    requires Valid(f)
    ensures var s := RemoveObserverF(f, r);
      s.field.owners == f.owners - {r} && s.field.log == f.log &&
      (forall o :: o in s.field.metas ==> o in f.metas && s.field.metas[o].active == f.metas[o].active)
    ensures r in f.owners ==> KeepsOthers(f, RemoveObserverF(f, r).field, f.owners[r])
    ensures r !in f.owners ==> RemoveObserverF(f, r) == Step(f, None)
  {
    if r in f.owners {
      var o := f.owners[r];
      assert o in f.metas;
      var rs := RemoveFirst(f.metas[o].receivers, r);
      var g := RemoveObserverF(f, r).field;
      if |rs| == 0 {
        assert g == f.(owners := f.owners - {r}, metas := f.metas - {o}, subscribed := f.subscribed - {o});
      } else {
        assert g == f.(owners := f.owners - {r}, metas := f.metas[o := f.metas[o].(receivers := rs)]);
      }
    }
  }

  /** Removing a receiver that is not its owner's last. */
  lemma UnlistValid<T>(f: Field<T>, r: Receiver, o: Owner, rs: seq<Receiver>)
    requires Valid(f) && r in f.owners && f.owners[r] == o
    requires NoDup(rs) && |rs| > 0 && forall x :: x in rs <==> x in f.metas[o].receivers && x != r
    ensures var g := f.(owners := f.owners - {r}, metas := f.metas[o := f.metas[o].(receivers := rs)]);
      Valid(g) && (forall p :: p in g.metas ==> r !in g.metas[p].receivers)
  {
    UnlistBound(f, r, o, rs);
    UnlistListed(f, r, o, rs);
  }

  lemma UnlistBound<T>(f: Field<T>, r: Receiver, o: Owner, rs: seq<Receiver>)
    requires Valid(f) && r in f.owners && f.owners[r] == o
    requires forall x :: x in rs <==> x in f.metas[o].receivers && x != r
    ensures var g := f.(owners := f.owners - {r}, metas := f.metas[o := f.metas[o].(receivers := rs)]);
      forall x :: x in g.owners ==> g.owners[x] in g.metas && x in g.metas[g.owners[x]].receivers
  {
    var g := f.(owners := f.owners - {r}, metas := f.metas[o := f.metas[o].(receivers := rs)]);
    forall x | x in g.owners
      ensures g.owners[x] in g.metas && x in g.metas[g.owners[x]].receivers
    {
      assert x in f.owners && x != r;
    }
  }

  lemma UnlistListed<T>(f: Field<T>, r: Receiver, o: Owner, rs: seq<Receiver>)
    requires Valid(f) && r in f.owners && f.owners[r] == o
    requires forall x :: x in rs <==> x in f.metas[o].receivers && x != r
    ensures var g := f.(owners := f.owners - {r}, metas := f.metas[o := f.metas[o].(receivers := rs)]);
      forall p, x :: p in g.metas && x in g.metas[p].receivers ==> x in g.owners && g.owners[x] == p && x != r
  {
    var g := f.(owners := f.owners - {r}, metas := f.metas[o := f.metas[o].(receivers := rs)]);
    forall p, x | p in g.metas && x in g.metas[p].receivers
      ensures x in g.owners && g.owners[x] == p && x != r
    {
      if p == o {
        assert x in f.metas[o].receivers && x != r;
      } else {
        assert x in f.metas[p].receivers;
        assert x != r;
      }
    }
  }

  /** Removing an owner's last receiver, which drops the owner. */
  lemma UnlistLastValid<T>(f: Field<T>, r: Receiver, o: Owner)
    requires Valid(f) && r in f.owners && f.owners[r] == o
    requires forall x :: x in f.metas[o].receivers ==> x == r
    ensures var g := f.(owners := f.owners - {r}, metas := f.metas - {o}, subscribed := f.subscribed - {o});
      Valid(g) && (forall p :: p in g.metas ==> r !in g.metas[p].receivers)
  {
    UnlistLastBound(f, r, o);
    UnlistLastListed(f, r, o);
  }

  lemma UnlistLastBound<T>(f: Field<T>, r: Receiver, o: Owner)
    requires Valid(f) && r in f.owners && f.owners[r] == o
    requires forall x :: x in f.metas[o].receivers ==> x == r
    ensures var g := f.(owners := f.owners - {r}, metas := f.metas - {o}, subscribed := f.subscribed - {o});
      forall x :: x in g.owners ==> g.owners[x] in g.metas && x in g.metas[g.owners[x]].receivers
  {
    var g := f.(owners := f.owners - {r}, metas := f.metas - {o}, subscribed := f.subscribed - {o});
    forall x | x in g.owners
      ensures g.owners[x] in g.metas && x in g.metas[g.owners[x]].receivers
    {
      assert x in f.owners && x != r;
      assert f.owners[x] != o;
    }
  }

  lemma UnlistLastListed<T>(f: Field<T>, r: Receiver, o: Owner)
    requires Valid(f) && r in f.owners && f.owners[r] == o
    ensures var g := f.(owners := f.owners - {r}, metas := f.metas - {o}, subscribed := f.subscribed - {o});
      forall p, x :: p in g.metas && x in g.metas[p].receivers ==> x in g.owners && g.owners[x] == p && x != r
  {
    var g := f.(owners := f.owners - {r}, metas := f.metas - {o}, subscribed := f.subscribed - {o});
    forall p, x | p in g.metas && x in g.metas[p].receivers
      ensures x in g.owners && g.owners[x] == p && x != r
    {
      assert x in f.metas[p].receivers;
      assert x != r;
    }
  }

  /**
   * `removeObservers(o)` drops the owner and unbinds exactly its receivers,
   * leaving every other owner as it was.
   */
  lemma RemoveObserversKeepsValid<T>(f: Field<T>, o: Owner)
    requires Valid(f)
    ensures var g := RemoveObserversF(f, o);
      Valid(g) && o !in g.metas && o !in g.subscribed && KeepsOthers(f, g, o) && Shrinks(f, g) && g.log == f.log &&
      (forall r :: r in g.owners <==> r in f.owners && f.owners[r] != o)
  {
    if o in f.metas {
      DropOwnerUnbinds(f, o);
      DropOwnerBound(f, o);
      DropOwnerListed(f, o);
    }
  }

  /** Unbinding the receivers of `o` unbinds exactly the receivers bound to `o`. */
  lemma DropOwnerUnbinds<T>(f: Field<T>, o: Owner)
    requires Valid(f) && o in f.metas
    ensures forall r :: r in Unbind(f.owners, f.metas[o].receivers) <==> r in f.owners && f.owners[r] != o
  {
    forall r | r in f.owners
      ensures r in f.metas[o].receivers <==> f.owners[r] == o
    {
    }
  }

  lemma DropOwnerBound<T>(f: Field<T>, o: Owner)
    requires Valid(f) && o in f.metas
    ensures var g := RemoveObserversF(f, o);
      forall x :: x in g.owners ==> g.owners[x] in g.metas && x in g.metas[g.owners[x]].receivers
  {
    var g := RemoveObserversF(f, o);
    forall x | x in g.owners
      ensures g.owners[x] in g.metas && x in g.metas[g.owners[x]].receivers
    {
      assert x in f.owners && x !in f.metas[o].receivers;
      assert f.owners[x] != o;
    }
  }

  lemma DropOwnerListed<T>(f: Field<T>, o: Owner)
    requires Valid(f) && o in f.metas
    ensures var g := RemoveObserversF(f, o);
      forall p, x :: p in g.metas && x in g.metas[p].receivers ==> x in g.owners && g.owners[x] == p
  {
    var g := RemoveObserversF(f, o);
    forall p, x | p in g.metas && x in g.metas[p].receivers
      ensures x in g.owners && g.owners[x] == p
    {
      assert x in f.metas[p].receivers && f.owners[x] == p;
      assert x !in f.metas[o].receivers;
    }
  }

  /**
   * One receiver call, whatever that receiver does, keeps the cell
   * consistent, records exactly this call, and throws only what the user
   * receiver itself throws; a wrapper whose receiver did not throw has
   * unbound itself.
   */
  lemma AcceptKeepsValid<T>(react: (nat, T) -> Reaction, f: Field<T>, r: Receiver, v: T)
    requires Valid(f)
    ensures var s := AcceptF(react, f, r, v);
      Valid(s.field) && s.field.log == f.log + [Call(r, v)] && Shrinks(f, s.field) &&
      s.field.value == f.value && s.field.hasValue == f.hasValue &&
      (s.thrown.Some? <==> react(r.id, v).Throw?) &&
      (s.thrown.Some? ==> react(r.id, v) == Throw(s.thrown.value)) &&
      (r.Once? && s.thrown.None? ==> r !in s.field.owners)
  {
    AcceptValid(react, f, r, v);
    AcceptLog(react, f, r, v);
  }

  /** What a user receiver does keeps the cell consistent, only unbinds, and throws only its own exception. */
  lemma ReactKeepsValid<T>(f: Field<T>, self: Receiver, x: Reaction)
    requires Valid(f)
    ensures var s := ReactF(f, self, x);
      Valid(s.field) && Shrinks(f, s.field) && s.field.log == f.log &&
      s.field.value == f.value && s.field.hasValue == f.hasValue &&
      (s.thrown.Some? <==> x.Throw?) && (s.thrown.Some? ==> x == Throw(s.thrown.value))
  {
    match x
    case Return =>
    case RemoveSelf => RemoveObserverKeepsValid(f, self);
    case RemoveAll(o) => RemoveObserversKeepsValid(f, o);
    case Throw(e) =>
  }

  lemma AcceptValid<T>(react: (nat, T) -> Reaction, f: Field<T>, r: Receiver, v: T)
    requires Valid(f)
    ensures var s := AcceptF(react, f, r, v);
      Valid(s.field) && Shrinks(f, s.field) &&
      (s.thrown.Some? <==> react(r.id, v).Throw?) &&
      (s.thrown.Some? ==> react(r.id, v) == Throw(s.thrown.value)) &&
      (r.Once? && s.thrown.None? ==> r !in s.field.owners)
  {
    var f1 := f.(log := f.log + [Call(r, v)]);
    assert Valid(f1);
    var s1 := ReactF(f1, User(r.id), react(r.id, v));
    ReactKeepsValid(f1, User(r.id), react(r.id, v));
    if r.Once? && s1.thrown.None? {
      RemoveObserverKeepsValid(s1.field, r);
    }
  }

  /** The receivers `rs` called in order with `v`. */
  function Calls<T>(rs: seq<Receiver>, v: T): (cs: seq<Call<T>>)
    ensures |cs| == |rs|
    ensures forall i :: 0 <= i < |rs| ==> cs[i] == Call(rs[i], v)
  {
    if |rs| == 0 then [] else [Call(rs[0], v)] + Calls(rs[1..], v)
  }

  /** Calling a receiver logs exactly that call, whatever the receiver then does, and leaves the value alone. */
  lemma AcceptLog<T>(react: (nat, T) -> Reaction, f: Field<T>, r: Receiver, v: T)
    ensures var s := AcceptF(react, f, r, v);
      s.field.log == f.log + [Call(r, v)] && s.field.value == f.value && s.field.hasValue == f.hasValue
  {
    var f1 := f.(log := f.log + [Call(r, v)]);
    var s1 := ReactF(f1, User(r.id), react(r.id, v));
    assert s1.field.log == f1.log && s1.field.value == f.value && s1.field.hasValue == f.hasValue;
  }

  /** A log that extends `l + [c]` by a prefix of `tail` extends `l` by a prefix of `[c] + tail`. */
  lemma PrefixStep<C>(l: seq<C>, c: C, s: seq<C>, tail: seq<C>)
    requires l + [c] <= s && s[|l| + 1..] <= tail
    ensures l <= s && s[|l|..] <= [c] + tail
  {
    assert s[..|l|] == (l + [c])[..|l|] == l;
    assert s[|l|..] == [c] + s[|l| + 1..];
  }

  /** A log that extends `l` by a prefix of `cs` has, at each new index, the matching entry of `cs`. */
  lemma PrefixAt<C>(l: seq<C>, s: seq<C>, cs: seq<C>, i: nat)
    requires l <= s && s[|l|..] <= cs && |l| <= i < |s|
    ensures i - |l| < |cs| && s[i] == cs[i - |l|]
  {
    assert s[i] == s[|l|..][i - |l|];
  }

  /** A loop over a snapshot leaves the value alone. */
  lemma {:induction false} NotifyValue<T>(react: (nat, T) -> Reaction, f: Field<T>, rs: seq<Receiver>, v: T)
    ensures var s := NotifyF(react, f, rs, v);
      s.field.value == f.value && s.field.hasValue == f.hasValue
    decreases |rs|
  {
    if |rs| > 0 {
      AcceptLog(react, f, rs[0], v);
      NotifyValue(react, AcceptF(react, f, rs[0], v).field, rs[1..], v);
    }
  }

  /** A loop over a snapshot that nothing interrupts calls every receiver of the snapshot, in order. */
  lemma {:induction false} NotifyLogAll<T>(react: (nat, T) -> Reaction, f: Field<T>, rs: seq<Receiver>, v: T)
    ensures var s := NotifyF(react, f, rs, v);
      s.thrown.None? ==> s.field.log == f.log + Calls(rs, v)
    decreases |rs|
  {
    if |rs| > 0 {
      var s1 := AcceptF(react, f, rs[0], v);
      AcceptLog(react, f, rs[0], v);
      if s1.thrown.None? {
        NotifyLogAll(react, s1.field, rs[1..], v);
        assert Calls(rs, v) == [Call(rs[0], v)] + Calls(rs[1..], v);
      }
    }
  }

  /** A loop over a snapshot calls a prefix of the snapshot. */
  lemma {:induction false} NotifyLogPrefix<T>(react: (nat, T) -> Reaction, f: Field<T>, rs: seq<Receiver>, v: T)
    ensures var s := NotifyF(react, f, rs, v);
      f.log <= s.field.log && s.field.log[|f.log|..] <= Calls(rs, v)
    decreases |rs|
  {
    if |rs| > 0 {
      var s1 := AcceptF(react, f, rs[0], v);
      AcceptLog(react, f, rs[0], v);
      assert Calls(rs, v) == [Call(rs[0], v)] + Calls(rs[1..], v);
      if s1.thrown.None? {
        NotifyLogPrefix(react, s1.field, rs[1..], v);
        PrefixStep(f.log, Call(rs[0], v), NotifyF(react, s1.field, rs[1..], v).field.log, Calls(rs[1..], v));
      } else {
        PrefixStep(f.log, Call(rs[0], v), s1.field.log, Calls(rs[1..], v));
      }
    }
  }

  lemma {:induction false} NotifyValid<T>(react: (nat, T) -> Reaction, f: Field<T>, rs: seq<Receiver>, v: T)
    requires Valid(f)
    ensures Valid(NotifyF(react, f, rs, v).field)
    decreases |rs|
  {
    if |rs| > 0 {
      var s1 := AcceptF(react, f, rs[0], v);
      AcceptKeepsValid(react, f, rs[0], v);
      if s1.thrown.None? {
        assert NotifyF(react, f, rs, v) == NotifyF(react, s1.field, rs[1..], v);
        NotifyValid(react, s1.field, rs[1..], v);
      } else {
        assert NotifyF(react, f, rs, v) == s1;
      }
    }
  }

  /** A loop over a snapshot keeps the cell consistent and calls a prefix of the snapshot. */
  lemma NotifyKeepsValid<T>(react: (nat, T) -> Reaction, f: Field<T>, rs: seq<Receiver>, v: T)
    requires Valid(f)
    ensures var s := NotifyF(react, f, rs, v);
      Valid(s.field) && s.field.value == f.value && s.field.hasValue == f.hasValue &&
      f.log <= s.field.log && s.field.log[|f.log|..] <= Calls(rs, v) &&
      (s.thrown.None? ==> s.field.log == f.log + Calls(rs, v))
  {
    NotifyValid(react, f, rs, v);
    NotifyValue(react, f, rs, v);
    NotifyLogPrefix(react, f, rs, v);
    NotifyLogAll(react, f, rs, v);
  }

  lemma NotifyOwnerKeepsValid<T>(react: (nat, T) -> Reaction, f: Field<T>, o: Owner, v: T)
    requires Valid(f)
    ensures var s := NotifyOwnerF(react, f, o, v);
      Valid(s.field) && s.field.value == f.value && s.field.hasValue == f.hasValue
  {
    if o in f.metas && f.metas[o].active {
      NotifyKeepsValid(react, f, f.metas[o].receivers, v);
    }
  }

  lemma {:induction false} NotifyOwnersKeepsValid<T>(react: (nat, T) -> Reaction, f: Field<T>, order: seq<Owner>, v: T)
    requires Valid(f)
    ensures var s := NotifyOwners(react, f, order, v);
      Valid(s.field) && s.field.value == f.value && s.field.hasValue == f.hasValue
    decreases |order|
  {
    if |order| > 0 {
      NotifyOwnerKeepsValid(react, f, order[0], v);
      NotifyOwnersKeepsValid(react, NotifyOwnerF(react, f, order[0], v).field, order[1..], v);
    }
  }

  /** `setValue(v)` keeps the cell consistent, whatever its receivers do, and leaves `v` stored. */
  lemma SetValueKeepsValid<T>(react: (nat, T) -> Reaction, f: Field<T>, v: T, order: seq<Owner>)
    requires Valid(f)
    ensures var s := SetValueF(react, f, v, order);
      Valid(s.field) && s.field.value == Some(v) && s.field.hasValue
  {
    NotifyOwnersKeepsValid(react, f.(value := Some(v), hasValue := true), order, v);
  }

  /** The `ON_DESTROY` callback is `removeObservers(o)`. */
  lemma OnDestroyRemoves<T>(c: Config, react: (nat, T) -> Reaction, f: Field<T>, o: Owner)
    requires Valid(f)
    ensures OnEventF(c, react, f, o, OnDestroy) == Step(RemoveObserversF(f, o), None)
    ensures o !in RemoveObserversF(f, o).metas
  {
    if o !in f.metas {
      assert f.(subscribed := f.subscribed - {o}) == f;
    }
  }

  /** Every lifecycle callback keeps the cell consistent. */
  lemma OnEventKeepsValid<T>(c: Config, react: (nat, T) -> Reaction, f: Field<T>, o: Owner, e: Event)
    requires Valid(f)
    ensures Valid(OnEventF(c, react, f, o, e).field)
  {
    match e
    case OnDestroy =>
      OnDestroyRemoves(c, react, f, o);
      RemoveObserversKeepsValid(f, o);
    case OnCreate => ActivateKeepsValid(c, react, f, e, o);
    case OnStart => ActivateKeepsValid(c, react, f, e, o);
    case OnResume => ActivateKeepsValid(c, react, f, e, o);
    case OnPause => DeactivateKeepsValid(c, f, e, o);
    case OnStop => DeactivateKeepsValid(c, f, e, o);
    case OnAny =>
  }

  /** Switching an owner's activity flag leaves the registration consistent. */
  lemma SetActiveValid<T>(f: Field<T>, o: Owner, active: bool)
    requires Valid(f) && o in f.metas
    ensures Valid(f.(metas := f.metas[o := f.metas[o].(active := active)]))
  {
    var g := f.(metas := f.metas[o := f.metas[o].(active := active)]);
    assert g.metas.Keys == f.metas.Keys;
    forall p | p in g.metas
      ensures g.metas[p].receivers == f.metas[p].receivers
    {
    }
    assert forall x :: x in g.owners ==> g.owners[x] in g.metas && x in g.metas[g.owners[x]].receivers;
  }

  lemma ActivateKeepsValid<T>(c: Config, react: (nat, T) -> Reaction, f: Field<T>, e: Event, o: Owner)
    requires Valid(f)
    ensures Valid(MaybeActivateF(c, react, f, e, o).field)
  {
    if c.activator == e && o in f.metas {
      var f1 := f.(metas := f.metas[o := f.metas[o].(active := true)]);
      SetActiveValid(f, o, true);
      if c.sticky && f1.hasValue && f1.value.Some? {
        NotifyOwnerKeepsValid(react, f1, o, f1.value.value);
      }
    }
  }

  lemma DeactivateKeepsValid<T>(c: Config, f: Field<T>, e: Event, o: Owner)
    requires Valid(f)
    ensures Valid(MaybeDeactivateF(c, f, e, o).field)
  {
    if c.deactivator == e && o in f.metas {
      SetActiveValid(f, o, false);
    }
  }

  lemma {:induction false} DispatchKeepsValid<T>(c: Config, react: (nat, T) -> Reaction, f: Field<T>, o: Owner, events: seq<Event>)
    requires Valid(f)
    ensures Valid(DispatchF(c, react, f, o, events).field)
    decreases |events|
  {
    if |events| > 0 {
      OnEventKeepsValid(c, react, f, o, events[0]);
      DispatchKeepsValid(c, react, OnEventF(c, react, f, o, events[0]).field, o, events[1..]);
    }
  }

  /** `observe(o, r)` keeps the cell consistent in every branch. */
  lemma ObserveKeepsValid<T>(c: Config, react: (nat, T) -> Reaction, f: Field<T>, o: Owner, s: State, r: Receiver)
    requires Valid(f)
    ensures Valid(ObserveF(c, react, f, o, s, r).field)
  {
    if s != Destroyed && r !in f.owners {
      if o !in f.metas {
        ObserveFirstValid(c, react, f, o, s, r);
      } else {
        ObserveAppendValid(c, react, f, o, s, r);
      }
    } else if s != Destroyed && f.owners[r] == o {
      assert r in f.metas[o].receivers;
      assert ObserveF(c, react, f, o, s, r) == Step(f, None);
    }
  }

  lemma ObserveFirstValid<T>(c: Config, react: (nat, T) -> Reaction, f: Field<T>, o: Owner, s: State, r: Receiver)
    requires Valid(f) && s != Destroyed && r !in f.owners && o !in f.metas
    ensures Valid(ObserveF(c, react, f, o, s, r).field)
  {
    var f2 := f.(owners := f.owners[r := o], metas := f.metas[o := Meta([r], false)], subscribed := f.subscribed + {o});
    assert ObserveF(c, react, f, o, s, r) == DispatchF(c, react, f2, o, CatchUpEvents(o, s));
    NewOwnerValid(f, o, r);
    DispatchKeepsValid(c, react, f2, o, CatchUpEvents(o, s));
  }

  lemma ObserveAppendValid<T>(c: Config, react: (nat, T) -> Reaction, f: Field<T>, o: Owner, s: State, r: Receiver)
    requires Valid(f) && s != Destroyed && r !in f.owners && o in f.metas
    ensures Valid(ObserveF(c, react, f, o, s, r).field)
  {
    var f1 := f.(owners := f.owners[r := o]);
    assert r !in f1.metas[o].receivers;
    var f2 := f1.(metas := f1.metas[o := f1.metas[o].(receivers := f1.metas[o].receivers + [r])]);
    AppendValid(f, o, r);
    if c.sticky && f2.hasValue && f2.metas[o].active && f2.value.Some? {
      assert ObserveF(c, react, f, o, s, r) == AcceptF(react, f2, r, f2.value.value);
      AcceptValid(react, f2, r, f2.value.value);
    } else {
      assert ObserveF(c, react, f, o, s, r) == Step(f2, None);
    }
  }

  /** Binding a new receiver to a new owner, as the first of its list. */
  lemma NewOwnerValid<T>(f: Field<T>, o: Owner, r: Receiver)
    requires Valid(f) && o !in f.metas && r !in f.owners
    ensures Valid(f.(owners := f.owners[r := o], metas := f.metas[o := Meta([r], false)], subscribed := f.subscribed + {o}))
  {
    NewOwnerBound(f, o, r);
    NewOwnerListed(f, o, r);
  }

  lemma NewOwnerBound<T>(f: Field<T>, o: Owner, r: Receiver)
    requires Valid(f) && o !in f.metas && r !in f.owners
    ensures var g := f.(owners := f.owners[r := o], metas := f.metas[o := Meta([r], false)], subscribed := f.subscribed + {o});
      forall x :: x in g.owners ==> g.owners[x] in g.metas && x in g.metas[g.owners[x]].receivers
  {
    var g := f.(owners := f.owners[r := o], metas := f.metas[o := Meta([r], false)], subscribed := f.subscribed + {o});
    forall x | x in g.owners
      ensures g.owners[x] in g.metas && x in g.metas[g.owners[x]].receivers
    {
      if x != r {
        assert f.owners[x] in f.metas && f.owners[x] != o;
      }
    }
  }

  lemma NewOwnerListed<T>(f: Field<T>, o: Owner, r: Receiver)
    requires Valid(f) && o !in f.metas && r !in f.owners
    ensures var g := f.(owners := f.owners[r := o], metas := f.metas[o := Meta([r], false)], subscribed := f.subscribed + {o});
      forall p, x :: p in g.metas && x in g.metas[p].receivers ==> x in g.owners && g.owners[x] == p
  {
    var g := f.(owners := f.owners[r := o], metas := f.metas[o := Meta([r], false)], subscribed := f.subscribed + {o});
    forall p, x | p in g.metas && x in g.metas[p].receivers
      ensures x in g.owners && g.owners[x] == p
    {
      if p != o {
        assert x in f.metas[p].receivers;
        assert x != r;
      }
    }
  }

  /** Binding a new receiver to a known owner, at the end of its list. */
  lemma AppendValid<T>(f: Field<T>, o: Owner, r: Receiver)
    requires Valid(f) && o in f.metas && r !in f.owners
    ensures Valid(f.(owners := f.owners[r := o], metas := f.metas[o := f.metas[o].(receivers := f.metas[o].receivers + [r])]))
  {
    var rs := f.metas[o].receivers + [r];
    assert r !in f.metas[o].receivers;
    NoDupAppend(f.metas[o].receivers, r);
    AppendBound(f, o, r);
    AppendListed(f, o, r);
  }

  lemma NoDupAppend(rs: seq<Receiver>, r: Receiver)
    requires NoDup(rs) && r !in rs
    ensures NoDup(rs + [r])
  {
    var ts := rs + [r];
    forall i, j | 0 <= i < j < |ts|
      ensures ts[i] != ts[j]
    {
      if j == |rs| {
        assert ts[i] == rs[i];
      } else {
        assert ts[i] == rs[i] && ts[j] == rs[j];
      }
    }
  }

  lemma AppendBound<T>(f: Field<T>, o: Owner, r: Receiver)
    requires Valid(f) && o in f.metas && r !in f.owners
    ensures var g := f.(owners := f.owners[r := o], metas := f.metas[o := f.metas[o].(receivers := f.metas[o].receivers + [r])]);
      forall x :: x in g.owners ==> g.owners[x] in g.metas && x in g.metas[g.owners[x]].receivers
  {
    var g := f.(owners := f.owners[r := o], metas := f.metas[o := f.metas[o].(receivers := f.metas[o].receivers + [r])]);
    forall x | x in g.owners
      ensures g.owners[x] in g.metas && x in g.metas[g.owners[x]].receivers
    {
      if x != r && f.owners[x] == o {
        assert x in f.metas[o].receivers;
      }
    }
  }

  lemma AppendListed<T>(f: Field<T>, o: Owner, r: Receiver)
    requires Valid(f) && o in f.metas && r !in f.owners
    ensures var g := f.(owners := f.owners[r := o], metas := f.metas[o := f.metas[o].(receivers := f.metas[o].receivers + [r])]);
      forall p, x :: p in g.metas && x in g.metas[p].receivers ==> x in g.owners && g.owners[x] == p
  {
    var g := f.(owners := f.owners[r := o], metas := f.metas[o := f.metas[o].(receivers := f.metas[o].receivers + [r])]);
    forall p, x | p in g.metas && x in g.metas[p].receivers
      ensures x in g.owners && g.owners[x] == p
    {
      if p != o {
        assert x in f.metas[p].receivers;
        assert x != r;
      } else if x != r {
        assert x in f.metas[o].receivers;
      }
    }
  }

  // ---------------------------------------------------------------------
  // Exactly-once delivery

  /** Every user receiver, given `v`, either returns or removes itself. */
  ghost predicate SelfRemovalOnly<T>(react: (nat, T) -> Reaction, v: T) {
    forall id :: react(id, v) == Return || react(id, v) == RemoveSelf
  }

  /**
   * No wrapper among `rs` wraps a user receiver that is itself registered,
   * so the wrapped receiver removing itself touches no registration.
   */
  ghost predicate InnersUnbound<T>(f: Field<T>, rs: seq<Receiver>) {
    forall r :: r in rs && r.Once? ==> User(r.id) !in f.owners
  }

  /** No registered wrapper wraps a registered user receiver. */
  ghost predicate WrapsUnbound<T>(f: Field<T>) {
    forall r :: r in f.owners && r.Once? ==> User(r.id) !in f.owners
  }

  lemma AcceptSelfOnly<T>(react: (nat, T) -> Reaction, f: Field<T>, r: Receiver, v: T, o: Owner)
    requires Valid(f) && SelfRemovalOnly(react, v)
    requires r in f.owners ==> f.owners[r] == o
    requires r.Once? ==> User(r.id) !in f.owners
    ensures var s := AcceptF(react, f, r, v);
      s.thrown.None? && Valid(s.field) && s.field.log == f.log + [Call(r, v)] &&
      KeepsOthers(f, s.field, o) && Shrinks(f, s.field)
  {
    AcceptKeepsValid(react, f, r, v);
    AcceptSelfOnlyOthers(react, f, r, v, o);
  }

  lemma AcceptSelfOnlyOthers<T>(react: (nat, T) -> Reaction, f: Field<T>, r: Receiver, v: T, o: Owner)
    requires Valid(f) && (react(r.id, v) == Return || react(r.id, v) == RemoveSelf)
    requires r in f.owners ==> f.owners[r] == o
    requires r.Once? ==> User(r.id) !in f.owners
    ensures KeepsOthers(f, AcceptF(react, f, r, v).field, o)
  {
    var f1 := f.(log := f.log + [Call(r, v)]);
    assert Valid(f1);
    var s1 := ReactF(f1, User(r.id), react(r.id, v));
    if react(r.id, v) == RemoveSelf {
      RemoveObserverOthers(f1, User(r.id));
    }
    if r.Once? {
      assert s1 == Step(f1, None);
      RemoveObserverOthers(f1, r);
    }
  }

  /**
   * Going through a snapshot of `o`'s receivers calls every receiver of the
   * snapshot once, in order, even those an earlier call removed.
   */
  lemma {:induction false} NotifySelfOnlyQuiet<T>(react: (nat, T) -> Reaction, f: Field<T>, rs: seq<Receiver>, v: T, o: Owner)
    requires Valid(f) && SelfRemovalOnly(react, v) && InnersUnbound(f, rs)
    requires forall r :: r in rs && r in f.owners ==> f.owners[r] == o
    ensures NotifyF(react, f, rs, v).thrown.None?
    decreases |rs|
  {
    if |rs| > 0 {
      AcceptSelfOnly(react, f, rs[0], v, o);
      var s1 := AcceptF(react, f, rs[0], v);
      SnapshotStaysWithOwner(f, s1.field, rs, o);
      NotifySelfOnlyQuiet(react, s1.field, rs[1..], v, o);
    }
  }

  lemma NotifySelfOnly<T>(react: (nat, T) -> Reaction, f: Field<T>, rs: seq<Receiver>, v: T, o: Owner)
    requires Valid(f) && SelfRemovalOnly(react, v) && InnersUnbound(f, rs)
    requires forall r :: r in rs && r in f.owners ==> f.owners[r] == o
    ensures var s := NotifyF(react, f, rs, v);
      s.thrown.None? && s.field.log == f.log + Calls(rs, v) && Shrinks(f, s.field)
  {
    NotifySelfOnlyQuiet(react, f, rs, v, o);
    NotifyLogAll(react, f, rs, v);
    NotifyShrinks(react, f, rs, v);
  }

  lemma SnapshotStaysWithOwner<T>(f: Field<T>, g: Field<T>, rs: seq<Receiver>, o: Owner)
    requires |rs| > 0 && Shrinks(f, g) && InnersUnbound(f, rs)
    requires forall r :: r in rs && r in f.owners ==> f.owners[r] == o
    ensures forall r :: r in rs[1..] && r in g.owners ==> g.owners[r] == o
    ensures InnersUnbound(g, rs[1..])
  {
    forall x | x in rs[1..] && x.Once?
      ensures User(x.id) !in g.owners
    {
      assert x in rs;
    }
    forall x | x in rs[1..] && x in g.owners
      ensures g.owners[x] == o
    {
      assert x in rs;
    }
  }

  /** The same loop leaves every other owner's registration alone. */
  lemma {:induction false} NotifySelfOnlyKeepsOthers<T>(react: (nat, T) -> Reaction, f: Field<T>, rs: seq<Receiver>, v: T, o: Owner)
    requires Valid(f) && SelfRemovalOnly(react, v) && InnersUnbound(f, rs)
    requires forall r :: r in rs && r in f.owners ==> f.owners[r] == o
    ensures KeepsOthers(f, NotifyF(react, f, rs, v).field, o)
    decreases |rs|
  {
    if |rs| > 0 {
      AcceptSelfOnly(react, f, rs[0], v, o);
      var s1 := AcceptF(react, f, rs[0], v);
      SnapshotStaysWithOwner(f, s1.field, rs, o);
      NotifySelfOnlyKeepsOthers(react, s1.field, rs[1..], v, o);
      KeepsOthersTrans(f, s1.field, NotifyF(react, s1.field, rs[1..], v).field, o);
    }
  }

  lemma KeepsOthersTrans<T>(f: Field<T>, g: Field<T>, h: Field<T>, o: Owner)
    requires KeepsOthers(f, g, o) && KeepsOthers(g, h, o)
    ensures KeepsOthers(f, h, o)
  {
  }

  /** The calls one owner's turn contributes. */
  function OwnerCalls<T>(metas: map<Owner, Meta>, o: Owner, v: T): (cs: seq<Call<T>>)
  {
    if o in metas && metas[o].active then Calls(metas[o].receivers, v) else []
  }

  /** The calls an owner loop over `order` makes when no receiver changes any other owner. */
  function Deliveries<T>(metas: map<Owner, Meta>, order: seq<Owner>, v: T): (cs: seq<Call<T>>)
    decreases |order|
  {
    if |order| == 0 then [] else OwnerCalls(metas, order[0], v) + Deliveries(metas, order[1..], v)
  }

  ghost predicate Distinct(order: seq<Owner>) {
    forall i, j :: 0 <= i < j < |order| ==> order[i] != order[j]
  }

  lemma {:induction false} DeliveriesAgree<T>(m1: map<Owner, Meta>, m2: map<Owner, Meta>, order: seq<Owner>, v: T)
    requires forall p :: p in order ==> (p in m1 <==> p in m2)
    requires forall p :: p in order && p in m1 ==> m1[p] == m2[p]
    ensures Deliveries(m1, order, v) == Deliveries(m2, order, v)
    decreases |order|
  {
    if |order| > 0 {
      DeliveriesAgree(m1, m2, order[1..], v);
    }
  }

  lemma DistinctTail(order: seq<Owner>)
    requires |order| > 0 && Distinct(order)
    ensures Distinct(order[1..]) && order[0] !in order[1..]
  {
    forall i, j | 0 <= i < j < |order[1..]|
      ensures order[1..][i] != order[1..][j]
    {
      assert order[1..][i] == order[i + 1] && order[1..][j] == order[j + 1];
    }
    forall j | 0 <= j < |order[1..]|
      ensures order[1..][j] != order[0]
    {
      assert order[1..][j] == order[j + 1];
    }
  }

  /** One owner's turn: its receivers, if it is active, are each called once; other owners are untouched. */
  lemma NotifyOwnerSelfOnly<T>(react: (nat, T) -> Reaction, f: Field<T>, o: Owner, v: T)
    requires Valid(f) && SelfRemovalOnly(react, v) && WrapsUnbound(f)
    ensures var s := NotifyOwnerF(react, f, o, v);
      s.thrown.None? && Valid(s.field) && KeepsOthers(f, s.field, o) && WrapsUnbound(s.field) &&
      s.field.log == f.log + OwnerCalls(f.metas, o, v)
  {
    if o in f.metas && f.metas[o].active {
      assert InnersUnbound(f, f.metas[o].receivers) by {
        forall x | x in f.metas[o].receivers && x.Once?
          ensures User(x.id) !in f.owners
        {
          assert x in f.owners;
        }
      }
      NotifySelfOnly(react, f, f.metas[o].receivers, v, o);
      NotifySelfOnlyKeepsOthers(react, f, f.metas[o].receivers, v, o);
      NotifyKeepsValid(react, f, f.metas[o].receivers, v);
    }
  }

  lemma {:induction false} NotifyOwnersSelfOnly<T>(react: (nat, T) -> Reaction, f: Field<T>, order: seq<Owner>, v: T)
    requires Valid(f) && SelfRemovalOnly(react, v) && WrapsUnbound(f) && Distinct(order)
    ensures var s := NotifyOwners(react, f, order, v);
      s.thrown.None? && s.field.log == f.log + Deliveries(f.metas, order, v)
    decreases |order|
  {
    if |order| > 0 {
      var o := order[0];
      DistinctTail(order);
      var s1 := NotifyOwnerF(react, f, o, v);
      NotifyOwnerSelfOnly(react, f, o, v);
      NotifyOwnersStep(react, f, order, v);
      NotifyOwnersSelfOnly(react, s1.field, order[1..], v);
      DeliveriesAgree(s1.field.metas, f.metas, order[1..], v);
      DeliveriesHead(f.metas, order, v);
      SeqAssoc(f.log, OwnerCalls(f.metas, o, v), Deliveries(f.metas, order[1..], v));
    }
  }

  lemma NotifyOwnersStep<T>(react: (nat, T) -> Reaction, f: Field<T>, order: seq<Owner>, v: T)
    requires |order| > 0 && NotifyOwnerF(react, f, order[0], v).thrown.None?
    ensures NotifyOwners(react, f, order, v) == NotifyOwners(react, NotifyOwnerF(react, f, order[0], v).field, order[1..], v)
  {
  }

  lemma DeliveriesHead<T>(metas: map<Owner, Meta>, order: seq<Owner>, v: T)
    requires |order| > 0
    ensures Deliveries(metas, order, v) == OwnerCalls(metas, order[0], v) + Deliveries(metas, order[1..], v)
  {
  }

  lemma SeqAssoc<C>(a: seq<C>, b: seq<C>, c: seq<C>)
    ensures (a + b) + c == a + (b + c)
  {
  }

  lemma {:induction false} CallsCount<T>(rs: seq<Receiver>, v: T, r: Receiver)
    requires NoDup(rs)
    ensures multiset(Calls(rs, v))[Call(r, v)] == if r in rs then 1 else 0
    decreases |rs|
  {
    if |rs| > 0 {
      RemoveFirstFacts(rs, rs[0]);
      assert RemoveFirst(rs, rs[0]) == rs[1..];
      CallsCount(rs[1..], v, r);
      assert Calls(rs, v) == [Call(rs[0], v)] + Calls(rs[1..], v);
      assert rs == [rs[0]] + rs[1..];
    }
  }

  lemma OwnerCallsCount<T>(f: Field<T>, o: Owner, v: T, r: Receiver)
    requires Valid(f)
    ensures multiset(OwnerCalls(f.metas, o, v))[Call(r, v)] ==
            if r in f.owners && f.owners[r] == o && f.metas[o].active then 1 else 0
  {
    if o in f.metas && f.metas[o].active {
      CallsCount(f.metas[o].receivers, v, r);
      assert r in f.metas[o].receivers <==> r in f.owners && f.owners[r] == o;
    } else {
      assert OwnerCalls(f.metas, o, v) == [];
      assert !(r in f.owners && f.owners[r] == o && f.metas[o].active);
    }
  }

  lemma {:induction false} DeliveriesCount<T>(f: Field<T>, order: seq<Owner>, v: T, r: Receiver)
    requires Valid(f) && Distinct(order)
    ensures multiset(Deliveries(f.metas, order, v))[Call(r, v)] ==
            if r in f.owners && f.owners[r] in order && f.metas[f.owners[r]].active then 1 else 0
    decreases |order|
  {
    if |order| > 0 {
      var o := order[0];
      DistinctTail(order);
      DeliveriesCount(f, order[1..], v, r);
      OwnerCallsCount(f, o, v, r);
      var head := OwnerCalls(f.metas, o, v);
      var tail := Deliveries(f.metas, order[1..], v);
      assert Deliveries(f.metas, order, v) == head + tail;
      assert multiset(head + tail)[Call(r, v)] == multiset(head)[Call(r, v)] + multiset(tail)[Call(r, v)];
      assert order == [o] + order[1..];
    }
  }

  /**
   * `setValue(v)` on a consistent cell whose receivers at most remove
   * themselves, none of them wrapped by a wrapper while also registered on
   * its own: no exception, and every receiver bound to an active owner
   * is called exactly once with `v`, and no other receiver is called.
   */
  lemma SetValueDeliversOnce<T>(react: (nat, T) -> Reaction, f: Field<T>, v: T, order: seq<Owner>, r: Receiver)
    requires Valid(f) && SelfRemovalOnly(react, v) && WrapsUnbound(f) && IsEnumeration(order, f.metas.Keys)
    ensures var s := SetValueF(react, f, v, order);
      s.thrown.None? && s.field.log == f.log + Deliveries(f.metas, order, v)
    ensures multiset(Deliveries(f.metas, order, v))[Call(r, v)] ==
            if r in f.owners && f.metas[f.owners[r]].active then 1 else 0
  {
    var f1 := f.(value := Some(v), hasValue := true);
    assert Valid(f1) && f1.metas == f.metas && f1.owners == f.owners;
    assert Distinct(order);
    NotifyOwnersSelfOnly(react, f1, order, v);
    DeliveriesCount(f1, order, v, r);
    if r in f.owners {
      assert f.owners[r] in f.metas.Keys;
    }
  }

  /** Every call an owner loop makes hands over the value being set. */
  lemma {:induction false} DeliveriesValue<T>(metas: map<Owner, Meta>, order: seq<Owner>, v: T, k: nat)
    requires k < |Deliveries(metas, order, v)|
    ensures Deliveries(metas, order, v)[k].value == v
    decreases |order|
  {
    var head := OwnerCalls(metas, order[0], v);
    if k >= |head| {
      DeliveriesValue(metas, order[1..], v, k - |head|);
    }
  }

  // ---------------------------------------------------------------------
  // The iteration as written

  /**
   * When the map happens to visit the immortal owner first and its only
   * receiver is an `observeOnce` wrapper, that receiver removes the owner
   * mid-iteration: as written, `setValue` then throws
   * ConcurrentModificationException and the other owner's receiver never
   * sees the value; the corrected loop reaches both.
   */
  lemma OnceReceiverBreaksIteration()
    ensures var f := TwoOwners();
      Valid(f) && IsEnumeration([Eternal, Mortal(1)], f.metas.Keys) &&
      SetValueAsWritten(Passive, f, 7, [Eternal, Mortal(1)]).thrown == Some(ConcurrentModification) &&
      SetValueAsWritten(Passive, f, 7, [Eternal, Mortal(1)]).field.log == [Call(Once(0, 0), 7)] &&
      SetValueF(Passive, f, 7, [Eternal, Mortal(1)]).thrown.None? &&
      SetValueF(Passive, f, 7, [Eternal, Mortal(1)]).field.log == [Call(Once(0, 0), 7), Call(User(1), 7)]
  {
    TwoOwnersValid();
    AsWrittenStopsAfterOnce();
    CorrectedReachesBoth();
  }

  /** A receiver that only returns. */
  function Passive(id: nat, v: int): Reaction {
    Return
  }

  /** An `observeOnce` wrapper on the immortal owner and a plain receiver on an active mortal owner, no value yet. */
  function TwoOwners(): Field<int> {
    Field(map[Eternal := Meta([Once(0, 0)], true), Mortal(1) := Meta([User(1)], true)],
          map[Once(0, 0) := Eternal, User(1) := Mortal(1)], false, None, {Eternal, Mortal(1)}, [])
  }

  /** `TwoOwners()` once `setValue(7)` has stored 7 and the wrapper has fired and unbound itself. */
  function AfterOnce(): Field<int> {
    Field(map[Mortal(1) := Meta([User(1)], true)], map[User(1) := Mortal(1)], true, Some(7), {Mortal(1)},
          [Call(Once(0, 0), 7)])
  }

  lemma TwoOwnersValid()
    ensures Valid(TwoOwners()) && IsEnumeration([Eternal, Mortal(1)], TwoOwners().metas.Keys)
  {
  }

  lemma EternalTurnUnlists()
    ensures NotifyOwnerF(Passive, TwoOwners().(value := Some(7), hasValue := true), Eternal, 7) == Step(AfterOnce(), None)
  {
    var f1 := TwoOwners().(value := Some(7), hasValue := true);
    assert f1.owners - {Once(0, 0)} == map[User(1) := Mortal(1)];
    assert f1.metas - {Eternal} == map[Mortal(1) := Meta([User(1)], true)];
  }

  lemma AsWrittenStopsAfterOnce()
    ensures SetValueAsWritten(Passive, TwoOwners(), 7, [Eternal, Mortal(1)]) == Step(AfterOnce(), Some(ConcurrentModification))
  {
    EternalTurnUnlists();
    assert AfterOnce().metas.Keys != TwoOwners().metas.Keys by {
      assert Eternal !in AfterOnce().metas.Keys;
    }
  }

  lemma CorrectedReachesBoth()
    ensures var s := SetValueF(Passive, TwoOwners(), 7, [Eternal, Mortal(1)]);
      s.thrown.None? && s.field.log == [Call(Once(0, 0), 7), Call(User(1), 7)]
  {
    EternalTurnUnlists();
    var g := AfterOnce();
    assert NotifyOwnerF(Passive, g, Mortal(1), 7) == Step(g.(log := g.log + [Call(User(1), 7)]), None);
  }

  // ---------------------------------------------------------------------
  // Registration and activation

  /** Receivers that only return when given `v`. */
  ghost predicate PassiveUsers<T>(react: (nat, T) -> Reaction, rs: seq<Receiver>, v: T) {
    forall r :: r in rs ==> r.User? && react(r.id, v) == Return
  }

  lemma {:induction false} NotifyPassive<T>(react: (nat, T) -> Reaction, f: Field<T>, rs: seq<Receiver>, v: T)
    requires PassiveUsers(react, rs, v)
    ensures NotifyF(react, f, rs, v) == Step(f.(log := f.log + Calls(rs, v)), None)
    decreases |rs|
  {
    if |rs| > 0 {
      var f1 := f.(log := f.log + [Call(rs[0], v)]);
      assert rs[0] in rs;
      NotifyPassiveHead(react, f, rs, v);
      PassiveTail(react, rs, v);
      NotifyPassive(react, f1, rs[1..], v);
      CallsHead(rs, v);
      SeqAssoc(f.log, [Call(rs[0], v)], Calls(rs[1..], v));
    }
  }

  lemma NotifyPassiveHead<T>(react: (nat, T) -> Reaction, f: Field<T>, rs: seq<Receiver>, v: T)
    requires |rs| > 0 && rs[0].User? && react(rs[0].id, v) == Return
    ensures NotifyF(react, f, rs, v) == NotifyF(react, f.(log := f.log + [Call(rs[0], v)]), rs[1..], v)
  {
    AcceptPassive(react, f, rs[0], v);
  }

  /** `Calls` of a non-empty snapshot: its first call, then the rest. */
  lemma CallsHead<T>(rs: seq<Receiver>, v: T)
    requires |rs| > 0
    ensures Calls(rs, v) == [Call(rs[0], v)] + Calls(rs[1..], v)
  {
  }

  lemma PassiveTail<T>(react: (nat, T) -> Reaction, rs: seq<Receiver>, v: T)
    requires |rs| > 0 && PassiveUsers(react, rs, v)
    ensures PassiveUsers(react, rs[1..], v)
  {
    forall x | x in rs[1..]
      ensures x.User? && react(x.id, v) == Return
    {
      assert x in rs;
    }
  }

  lemma AcceptPassive<T>(react: (nat, T) -> Reaction, f: Field<T>, r: Receiver, v: T)
    requires r.User? && react(r.id, v) == Return
    ensures AcceptF(react, f, r, v) == Step(f.(log := f.log + [Call(r, v)]), None)
  {
  }

  /** The cell after the activator event reached owner `o`: active, its receivers given the value when sticky. */
  function Activated<T>(c: Config, f: Field<T>, o: Owner): (g: Field<T>)
    requires o in f.metas
  {
    f.(metas := f.metas[o := f.metas[o].(active := true)],
       log := f.log + (if c.sticky && f.hasValue && f.value.Some? then Calls(f.metas[o].receivers, f.value.value) else []))
  }

  /**
   * The activator event marks the owner active and, when the cell is
   * sticky and holds a value, hands that value once to each of its
   * receivers; a non-sticky or empty cell calls nobody.
   */
  lemma ActivationReplays<T>(c: Config, react: (nat, T) -> Reaction, f: Field<T>, o: Owner)
    requires o in f.metas && IsUp(c.activator)
    requires f.hasValue && f.value.Some? ==> PassiveUsers(react, f.metas[o].receivers, f.value.value)
    ensures OnEventF(c, react, f, o, c.activator) == Step(Activated(c, f, o), None)
  {
    var f1 := f.(metas := f.metas[o := f.metas[o].(active := true)]);
    if c.sticky && f.hasValue && f.value.Some? {
      NotifyPassive(react, f1, f.metas[o].receivers, f.value.value);
    }
  }

  /** The deactivator event only clears the owner's active flag. */
  lemma DeactivationSilences<T>(c: Config, react: (nat, T) -> Reaction, f: Field<T>, o: Owner)
    requires o in f.metas && IsDown(c.deactivator) && c.deactivator != OnDestroy
    ensures OnEventF(c, react, f, o, c.deactivator) == Step(f.(metas := f.metas[o := f.metas[o].(active := false)]), None)
  {
  }

  /** An activator or deactivator event for an owner the cell has no entry for throws NullPointerException. */
  lemma UnknownOwnerThrows<T>(c: Config, react: (nat, T) -> Reaction, f: Field<T>, o: Owner, e: Event)
    requires Buildable(c) && o !in f.metas && e != OnDestroy && (e == c.activator || e == c.deactivator)
    ensures OnEventF(c, react, f, o, e) == Step(f, Some(NullPointer))
  {
  }

  /** Some other event does nothing. */
  lemma OtherEventsIgnored<T>(c: Config, react: (nat, T) -> Reaction, f: Field<T>, o: Owner, e: Event)
    requires e != c.activator && e != c.deactivator && e != OnDestroy
    ensures OnEventF(c, react, f, o, e) == Step(f, None)
  {
  }

  ghost predicate DistinctEvents(events: seq<Event>) {
    forall i, j :: 0 <= i < j < |events| ==> events[i] != events[j]
  }

  /** Catching up through distinct activating events activates the owner exactly when the activator is among them. */
  lemma {:induction false} DispatchUp<T>(c: Config, react: (nat, T) -> Reaction, f: Field<T>, o: Owner, events: seq<Event>)
    requires o in f.metas && IsUp(c.activator)
    requires f.hasValue && f.value.Some? ==> PassiveUsers(react, f.metas[o].receivers, f.value.value)
    requires forall i :: 0 <= i < |events| ==> IsUp(events[i])
    requires DistinctEvents(events)
    ensures DispatchF(c, react, f, o, events) ==
            Step(if c.activator in events then Activated(c, f, o) else f, None)
    decreases |events|
  {
    if |events| > 0 {
      var e := events[0];
      assert DistinctEvents(events[1..]) by {
        forall i, j | 0 <= i < j < |events[1..]|
          ensures events[1..][i] != events[1..][j]
        {
          assert events[1..][i] == events[i + 1] && events[1..][j] == events[j + 1];
        }
      }
      assert forall i :: 0 <= i < |events[1..]| ==> IsUp(events[1..][i]) by {
        forall i | 0 <= i < |events[1..]|
          ensures IsUp(events[1..][i])
        {
          assert events[1..][i] == events[i + 1];
        }
      }
      if e == c.activator {
        ActivationReplays(c, react, f, o);
        assert c.activator !in events[1..] by {
          forall j | 0 <= j < |events[1..]|
            ensures events[1..][j] != e
          {
            assert events[1..][j] == events[j + 1];
          }
        }
        DispatchUp(c, react, Activated(c, f, o), o, events[1..]);
      } else {
        assert IsUp(e);
        assert OnEventF(c, react, f, o, e) == Step(f, None);
        DispatchUp(c, react, f, o, events[1..]);
        assert c.activator in events <==> c.activator in events[1..] by {
          assert events == [e] + events[1..];
        }
      }
    }
  }

  /** The callbacks an owner makes as the cell subscribes: distinct activating events. */
  lemma CatchUpEventsAreUp(o: Owner, s: State)
    ensures forall i :: 0 <= i < |CatchUpEvents(o, s)| ==> IsUp(CatchUpEvents(o, s)[i])
    ensures DistinctEvents(CatchUpEvents(o, s))
    ensures o.Eternal? ==> CatchUpEvents(o, s) == [OnCreate, OnStart, OnResume]
    ensures o.Mortal? ==> CatchUpEvents(o, s) == Life.CatchUp(s)
  {
    Life.CatchUpShape(s);
    Immortal.BehavesLikeResumedLife(Immortal.DefaultObserver);
  }

  /**
   * Registering a receiver with a new owner in state `s` binds it, opens
   * a one-receiver list, subscribes to the owner, and lets the owner's
   * catch-up events activate it: the owner ends up active exactly when
   * its current state is at or past the activator, and then a sticky cell
   * with a value hands that value to the receiver once.
   */
  lemma ObserveNewOwner<T>(c: Config, react: (nat, T) -> Reaction, f: Field<T>, o: Owner, s: State, r: Receiver)
    requires Valid(f) && Buildable(c) && s != Destroyed && o !in f.metas && r !in f.owners
    requires f.hasValue ==> PassiveUsers(react, [r], f.value.value)
    ensures var active := c.activator in CatchUpEvents(o, s);
      ObserveF(c, react, f, o, s, r) ==
        Step(f.(owners := f.owners[r := o], metas := f.metas[o := Meta([r], active)], subscribed := f.subscribed + {o},
                log := f.log + (if active && c.sticky && f.hasValue then [Call(r, f.value.value)] else [])), None)
  {
    var f2 := f.(owners := f.owners[r := o], metas := f.metas[o := Meta([r], false)], subscribed := f.subscribed + {o});
    CatchUpEventsAreUp(o, s);
    DispatchUp(c, react, f2, o, CatchUpEvents(o, s));
    if f.hasValue {
      assert Calls([r], f.value.value) == [Call(r, f.value.value)];
    }
  }

  /**
   * `observeForever`: the immortal owner is resumed, so whatever the
   * activator, a new receiver is active at once and a sticky cell with a
   * value hands it that value.
   */
  lemma ImmortalOwnerIsActive<T>(c: Config, react: (nat, T) -> Reaction, f: Field<T>, r: Receiver)
    requires Valid(f) && Buildable(c) && Eternal !in f.metas && r !in f.owners
    requires f.hasValue ==> PassiveUsers(react, [r], f.value.value)
    ensures Eternal in ObserveF(c, react, f, Eternal, Resumed, r).field.metas
    ensures ObserveF(c, react, f, Eternal, Resumed, r).field.metas[Eternal] == Meta([r], true)
    ensures ObserveF(c, react, f, Eternal, Resumed, r).field.log ==
            f.log + (if c.sticky && f.hasValue then [Call(r, f.value.value)] else [])
  {
    ObserveNewOwner(c, react, f, Eternal, Resumed, r);
    Immortal.EveryActivatorFires(Immortal.DefaultObserver, c.activator);
  }

  /**
   * Registering another receiver with an owner that has one appends it;
   * it is handed the value at once only when the cell is sticky, holds a
   * value and the owner is active.
   */
  lemma ObserveKnownOwner<T>(c: Config, react: (nat, T) -> Reaction, f: Field<T>, o: Owner, s: State, r: Receiver)
    requires Valid(f) && s != Destroyed && o in f.metas && r !in f.owners
    requires f.hasValue ==> PassiveUsers(react, [r], f.value.value)
    ensures var replay := c.sticky && f.hasValue && f.metas[o].active;
      ObserveF(c, react, f, o, s, r) ==
        Step(f.(owners := f.owners[r := o], metas := f.metas[o := f.metas[o].(receivers := f.metas[o].receivers + [r])],
                log := f.log + (if replay then [Call(r, f.value.value)] else [])), None)
  {
  }

  /** `observe` for a destroyed owner does nothing. */
  lemma ObserveDestroyedIgnored<T>(c: Config, react: (nat, T) -> Reaction, f: Field<T>, o: Owner, r: Receiver)
    ensures ObserveF(c, react, f, o, Destroyed, r) == Step(f, None)
  {
  }

  /** A receiver bound to one owner cannot be registered with another: IllegalArgumentException, nothing changes. */
  lemma ObserveOtherOwnerRejected<T>(c: Config, react: (nat, T) -> Reaction, f: Field<T>, o: Owner, s: State, r: Receiver)
    requires s != Destroyed && r in f.owners && f.owners[r] != o
    ensures ObserveF(c, react, f, o, s, r) == Step(f, Some(IllegalArgument))
  {
  }

  /** Registering a receiver again with its own owner does nothing, and calls nobody. */
  lemma ObserveAgainIsNoOp<T>(c: Config, react: (nat, T) -> Reaction, f: Field<T>, o: Owner, s: State, r: Receiver)
    requires Valid(f) && r in f.owners && f.owners[r] == o
    ensures ObserveF(c, react, f, o, s, r) == Step(f, None)
  {
  }

  /** A non-sticky or cleared cell never calls a receiver from a lifecycle callback. */
  lemma SilentWithoutReplay<T>(c: Config, react: (nat, T) -> Reaction, f: Field<T>, o: Owner, e: Event)
    requires !c.sticky || !f.hasValue
    ensures OnEventF(c, react, f, o, e).field.log == f.log
    ensures OnEventF(c, react, f, o, e).field.hasValue == f.hasValue
  {
  }

  lemma {:induction false} DispatchSilentWithoutReplay<T>(c: Config, react: (nat, T) -> Reaction, f: Field<T>, o: Owner, events: seq<Event>)
    requires !c.sticky || !f.hasValue
    ensures DispatchF(c, react, f, o, events).field.log == f.log
    decreases |events|
  {
    if |events| > 0 {
      SilentWithoutReplay(c, react, f, o, events[0]);
      DispatchSilentWithoutReplay(c, react, OnEventF(c, react, f, o, events[0]).field, o, events[1..]);
    }
  }

  /** A non-sticky or cleared cell never calls a receiver on registration. */
  lemma ObserveSilentWithoutReplay<T>(c: Config, react: (nat, T) -> Reaction, f: Field<T>, o: Owner, s: State, r: Receiver)
    requires !c.sticky || !f.hasValue
    ensures ObserveF(c, react, f, o, s, r).field.log == f.log
  {
    if s != Destroyed && !(r in f.owners && f.owners[r] != o) {
      var f1 := if r in f.owners then f else f.(owners := f.owners[r := o]);
      if o !in f1.metas {
        DispatchSilentWithoutReplay(c, react, f1.(metas := f1.metas[o := Meta([r], false)], subscribed := f1.subscribed + {o}),
                                    o, CatchUpEvents(o, s));
      }
    }
  }

  // ---------------------------------------------------------------------
  // Who can be called

  lemma {:induction false} NotifyQuiet<T>(react: (nat, T) -> Reaction, f: Field<T>, rs: seq<Receiver>, v: T)
    requires Valid(f) && (forall id, x :: !react(id, x).Throw?)
    ensures NotifyF(react, f, rs, v).thrown.None?
    decreases |rs|
  {
    if |rs| > 0 {
      AcceptKeepsValid(react, f, rs[0], v);
      NotifyQuiet(react, AcceptF(react, f, rs[0], v).field, rs[1..], v);
    }
  }

  lemma {:induction false} NotifyOwnersQuiet<T>(react: (nat, T) -> Reaction, f: Field<T>, order: seq<Owner>, v: T)
    requires Valid(f) && (forall id, x :: !react(id, x).Throw?)
    ensures NotifyOwners(react, f, order, v).thrown.None?
    decreases |order|
  {
    if |order| > 0 {
      if order[0] in f.metas && f.metas[order[0]].active {
        NotifyQuiet(react, f, f.metas[order[0]].receivers, v);
      }
      NotifyOwnerKeepsValid(react, f, order[0], v);
      NotifyOwnersQuiet(react, NotifyOwnerF(react, f, order[0], v).field, order[1..], v);
    }
  }

  /**
   * On a consistent cell whose receivers never throw, `setValue` throws
   * nothing, whatever the receivers remove and whatever order the owners
   * are visited in.
   */
  lemma SetValueQuiet<T>(react: (nat, T) -> Reaction, f: Field<T>, v: T, order: seq<Owner>)
    requires Valid(f) && (forall id, x :: !react(id, x).Throw?)
    ensures SetValueF(react, f, v, order).thrown.None?
  {
    NotifyOwnersQuiet(react, f.(value := Some(v), hasValue := true), order, v);
  }

  // ---------------------------------------------------------------------
  // The owner loop as written, against the corrected one

  /** An owner loop only ever appends to the log. */
  lemma {:induction false} NotifyOwnersLogGrows<T>(react: (nat, T) -> Reaction, f: Field<T>, order: seq<Owner>, v: T)
    ensures f.log <= NotifyOwners(react, f, order, v).field.log
    decreases |order|
  {
    if |order| > 0 {
      var o := order[0];
      if o in f.metas && f.metas[o].active {
        NotifyLogPrefix(react, f, f.metas[o].receivers, v);
      }
      NotifyOwnersLogGrows(react, NotifyOwnerF(react, f, o, v).field, order[1..], v);
    }
  }

  /**
   * The owner loop as written does what the corrected loop does, or stops
   * early with ConcurrentModificationException after a prefix of the
   * corrected loop's calls.
   */
  lemma {:induction false} AsWrittenIsCutShort<T>(react: (nat, T) -> Reaction, f: Field<T>, order: seq<Owner>, keys: set<Owner>, v: T)
    ensures var a := NotifyOwnersAsWritten(react, f, order, keys, v);
      var c := NotifyOwners(react, f, order, v);
      a == c || (a.thrown == Some(ConcurrentModification) && a.field.log <= c.field.log)
    decreases |order|
  {
    if |order| > 0 {
      var s1 := NotifyOwnerF(react, f, order[0], v);
      if s1.thrown.None? {
        if |order| > 1 && s1.field.metas.Keys != keys {
          NotifyOwnersLogGrows(react, s1.field, order[1..], v);
        } else {
          AsWrittenIsCutShort(react, s1.field, order[1..], keys, v);
        }
      }
    }
  }

  /** `setValue` as written: the corrected outcome, or ConcurrentModificationException after a prefix of its calls. */
  lemma SetValueAsWrittenIsCutShort<T>(react: (nat, T) -> Reaction, f: Field<T>, v: T, order: seq<Owner>)
    ensures var a := SetValueAsWritten(react, f, v, order);
      var c := SetValueF(react, f, v, order);
      a == c || (a.thrown == Some(ConcurrentModification) && a.field.log <= c.field.log)
  {
    AsWrittenIsCutShort(react, f.(value := Some(v), hasValue := true), order, f.metas.Keys, v);
  }

  /** Every receiver listed in `metas` is a user receiver, not a wrapper. */
  ghost predicate UsersOnly(metas: map<Owner, Meta>) {
    forall o, r :: o in metas && r in metas[o].receivers ==> r.User?
  }

  lemma {:induction false} NotifyKeepsRegistry<T>(react: (nat, T) -> Reaction, f: Field<T>, rs: seq<Receiver>, v: T)
    requires (forall id, x :: react(id, x) == Return || react(id, x).Throw?) && forall r :: r in rs ==> r.User?
    ensures var g := NotifyF(react, f, rs, v).field;
      g.metas == f.metas && g.owners == f.owners
    decreases |rs|
  {
    if |rs| > 0 {
      assert rs[0] in rs;
      var s1 := AcceptF(react, f, rs[0], v);
      assert s1.field.metas == f.metas && s1.field.owners == f.owners;
      if s1.thrown.None? {
        assert forall r :: r in rs[1..] ==> r in rs;
        NotifyKeepsRegistry(react, s1.field, rs[1..], v);
      }
    }
  }

  lemma {:induction false} AsWrittenAgrees<T>(react: (nat, T) -> Reaction, f: Field<T>, order: seq<Owner>, v: T)
    requires (forall id, x :: react(id, x) == Return || react(id, x).Throw?) && UsersOnly(f.metas)
    ensures NotifyOwnersAsWritten(react, f, order, f.metas.Keys, v) == NotifyOwners(react, f, order, v)
    decreases |order|
  {
    if |order| > 0 {
      var o := order[0];
      if o in f.metas && f.metas[o].active {
        NotifyKeepsRegistry(react, f, f.metas[o].receivers, v);
      }
      var s1 := NotifyOwnerF(react, f, o, v);
      assert s1.field.metas == f.metas;
      AsWrittenAgrees(react, s1.field, order[1..], v);
    }
  }

  /**
   * When no receiver removes anything and no wrapper is registered, no
   * owner disappears mid-iteration: `setValue` as written is the corrected
   * loop, and throws nothing when every receiver returns.
   */
  lemma AsWrittenWithoutRemovals<T>(react: (nat, T) -> Reaction, f: Field<T>, v: T, order: seq<Owner>)
    requires Valid(f) && (forall id, x :: react(id, x) == Return || react(id, x).Throw?) && (forall r :: r in f.owners ==> r.User?)
    ensures SetValueAsWritten(react, f, v, order) == SetValueF(react, f, v, order)
    ensures (forall id, x :: react(id, x) == Return) ==> SetValueAsWritten(react, f, v, order).thrown.None?
  {
    var f1 := f.(value := Some(v), hasValue := true);
    assert UsersOnly(f1.metas);
    AsWrittenAgrees(react, f1, order, v);
    if forall id, x :: react(id, x) == Return {
      SetValueQuiet(react, f, v, order);
    }
  }

  /** No call recorded in `log` from index `from` on is made to `r`. */
  ghost predicate NoCallsTo<T>(log: seq<Call<T>>, from: nat, r: Receiver) {
    forall i :: from <= i < |log| ==> log[i].receiver != r
  }

  lemma {:induction false} NotifyShrinks<T>(react: (nat, T) -> Reaction, f: Field<T>, rs: seq<Receiver>, v: T)
    requires Valid(f)
    ensures Shrinks(f, NotifyF(react, f, rs, v).field)
    decreases |rs|
  {
    if |rs| > 0 {
      AcceptKeepsValid(react, f, rs[0], v);
      NotifyShrinks(react, AcceptF(react, f, rs[0], v).field, rs[1..], v);
    }
  }

  /** A loop over a snapshot calls no receiver outside the snapshot. */
  lemma NotifyCallsOnly<T>(react: (nat, T) -> Reaction, f: Field<T>, rs: seq<Receiver>, v: T, r: Receiver)
    requires r !in rs
    ensures var g := NotifyF(react, f, rs, v).field;
      f.log <= g.log && NoCallsTo(g.log, |f.log|, r)
  {
    NotifyLogPrefix(react, f, rs, v);
    var g := NotifyF(react, f, rs, v).field;
    forall i | |f.log| <= i < |g.log|
      ensures g.log[i].receiver != r
    {
      PrefixAt(f.log, g.log, Calls(rs, v), i);
      assert rs[i - |f.log|] in rs;
    }
  }

  /** One owner's turn calls only receivers bound to that owner when the turn began. */
  lemma NotifyOwnerCallsBound<T>(react: (nat, T) -> Reaction, f: Field<T>, o: Owner, v: T, r: Receiver)
    requires Valid(f) && r !in f.owners
    ensures var g := NotifyOwnerF(react, f, o, v).field;
      Valid(g) && Shrinks(f, g) && f.log <= g.log && NoCallsTo(g.log, |f.log|, r)
  {
    if o in f.metas && f.metas[o].active {
      var rs := f.metas[o].receivers;
      assert r !in rs;
      NotifyKeepsValid(react, f, rs, v);
      NotifyShrinks(react, f, rs, v);
      NotifyCallsOnly(react, f, rs, v, r);
    }
  }

  /**
   * `setValue` never calls a receiver that was not bound when it began:
   * a receiver that was removed, by itself or with its owner, is not
   * called again.
   */
  lemma {:induction false} UnboundNeverCalled<T>(react: (nat, T) -> Reaction, f: Field<T>, order: seq<Owner>, v: T, r: Receiver)
    requires Valid(f) && r !in f.owners
    ensures var g := NotifyOwners(react, f, order, v).field;
      f.log <= g.log && NoCallsTo(g.log, |f.log|, r)
    decreases |order|
  {
    if |order| > 0 {
      NotifyOwnerCallsBound(react, f, order[0], v, r);
      var g1 := NotifyOwnerF(react, f, order[0], v).field;
      UnboundNeverCalled(react, g1, order[1..], v, r);
    }
  }

  /**
   * The `observeOnce` wrapper, once called with a value its receiver does
   * not throw on, has unbound itself: the call throws nothing and is
   * recorded, the cell stays consistent, and no later `setValue` calls it
   * again.
   */
  lemma OnceWrapperFiresOnce<T>(react: (nat, T) -> Reaction, f: Field<T>, w: Receiver, v: T, next: T, order: seq<Owner>)
    requires Valid(f) && w.Once? && w in f.owners && !react(w.id, v).Throw?
    ensures var s := AcceptF(react, f, w, v);
      s.thrown.None? && Valid(s.field) && s.field.log == f.log + [Call(w, v)] && w !in s.field.owners
    ensures var g := AcceptF(react, f, w, v).field;
      var h := SetValueF(react, g, next, order).field;
      g.log <= h.log && NoCallsTo(h.log, |g.log|, w)
  {
    OnceAcceptUnbinds(react, f, w, v);
    SetValueSkipsUnbound(react, AcceptF(react, f, w, v).field, next, order, w);
  }

  lemma OnceAcceptUnbinds<T>(react: (nat, T) -> Reaction, f: Field<T>, w: Receiver, v: T)
    requires Valid(f) && w.Once? && w in f.owners && !react(w.id, v).Throw?
    ensures var s := AcceptF(react, f, w, v);
      s.thrown.None? && Valid(s.field) && s.field.log == f.log + [Call(w, v)] && w !in s.field.owners
  {
    AcceptKeepsValid(react, f, w, v);
  }

  /**
   * As written, a wrapper whose receiver throws forwards the exception
   * before it reaches `removeObserver(this)`: it stays bound to its owner.
   */
  lemma OnceThrowStaysBound<T>(react: (nat, T) -> Reaction, f: Field<T>, w: Receiver, v: T)
    requires Valid(f) && w.Once? && w in f.owners && react(w.id, v).Throw?
    ensures var s := AcceptF(react, f, w, v);
      s.thrown == Some(react(w.id, v).thrown) && Valid(s.field) && s.field.log == f.log + [Call(w, v)] &&
      s.field.owners == f.owners && s.field.metas == f.metas
  {
    AcceptKeepsValid(react, f, w, v);
  }

  /** A receiver that throws on every value. */
  function Thrower(id: nat, v: int): Reaction {
    Throw(Unchecked(0))
  }

  /** One `observeOnce` wrapper, around user receiver 0, on the immortal owner, which is active. */
  function OnceOnly(): Field<int> {
    Field(map[Eternal := Meta([Once(0, 0)], true)], map[Once(0, 0) := Eternal], false, None, {Eternal}, [])
  }

  /**
   * A wrapper whose receiver throws is "invoked at most once" no more:
   * `setValue(7)` calls it and throws, and `setValue(8)` calls it again.
   */
  lemma ThrowingOnceFiresTwice()
    ensures var s1 := SetValueF(Thrower, OnceOnly(), 7, [Eternal]);
      var s2 := SetValueF(Thrower, s1.field, 8, [Eternal]);
      Valid(OnceOnly()) && IsEnumeration([Eternal], OnceOnly().metas.Keys) &&
      s1.thrown == Some(Unchecked(0)) && Once(0, 0) in s1.field.owners &&
      s2.thrown == Some(Unchecked(0)) && s2.field.log == [Call(Once(0, 0), 7), Call(Once(0, 0), 8)]
  {
    var w := Once(0, 0);
    var f1 := OnceOnly().(value := Some(7), hasValue := true);
    assert AcceptF(Thrower, f1, w, 7) == Step(f1.(log := [Call(w, 7)]), Some(Unchecked(0)));
    var g := f1.(log := [Call(w, 7)]);
    assert SetValueF(Thrower, OnceOnly(), 7, [Eternal]) == Step(g, Some(Unchecked(0)));
    var g1 := g.(value := Some(8), hasValue := true);
    assert AcceptF(Thrower, g1, w, 8) == Step(g1.(log := [Call(w, 7), Call(w, 8)]), Some(Unchecked(0)));
  }

  /**
   * The wrapper with its `removeObserver(this)` in a `finally` block: it
   * unbinds itself whether or not its receiver throws, and forwards what
   * the receiver threw.
   */
  function AcceptFinallyF<T>(react: (nat, T) -> Reaction, f: Field<T>, r: Receiver, v: T): (s: Step<T>)
  {
    var f1 := f.(log := f.log + [Call(r, v)]);
    var s1 := ReactF(f1, User(r.id), react(r.id, v));
    if r.User? then s1
    else
      var s2 := RemoveObserverF(s1.field, r);
      Step(s2.field, if s1.thrown.Some? then s1.thrown else s2.thrown)
  }

  /**
   * With the removal in a `finally` block the wrapper is invoked at most
   * once whatever its receiver does: the call throws exactly what the
   * receiver throws, the wrapper is unbound, and no later `setValue` calls
   * it; on a receiver that does not throw it is the wrapper as written.
   */
  lemma OnceFinallyFiresOnce<T>(react: (nat, T) -> Reaction, f: Field<T>, w: Receiver, v: T, next: T, order: seq<Owner>)
    requires Valid(f) && w.Once? && w in f.owners
    ensures var s := AcceptFinallyF(react, f, w, v);
      (s.thrown.Some? <==> react(w.id, v).Throw?) && (s.thrown.Some? ==> react(w.id, v) == Throw(s.thrown.value)) &&
      Valid(s.field) && s.field.log == f.log + [Call(w, v)] && w !in s.field.owners
    ensures var g := AcceptFinallyF(react, f, w, v).field;
      var h := SetValueF(react, g, next, order).field;
      g.log <= h.log && NoCallsTo(h.log, |g.log|, w)
    ensures !react(w.id, v).Throw? ==> AcceptFinallyF(react, f, w, v) == AcceptF(react, f, w, v)
  {
    var f1 := f.(log := f.log + [Call(w, v)]);
    assert Valid(f1);
    var s1 := ReactF(f1, User(w.id), react(w.id, v));
    ReactKeepsValid(f1, User(w.id), react(w.id, v));
    RemoveObserverKeepsValid(s1.field, w);
    SetValueSkipsUnbound(react, AcceptFinallyF(react, f, w, v).field, next, order, w);
  }

  /** `setValue` as a whole never calls a receiver that is not bound when it begins. */
  lemma SetValueSkipsUnbound<T>(react: (nat, T) -> Reaction, g: Field<T>, v: T, order: seq<Owner>, r: Receiver)
    requires Valid(g) && r !in g.owners
    ensures var h := SetValueF(react, g, v, order).field;
      g.log <= h.log && NoCallsTo(h.log, |g.log|, r)
  {
    var g1 := g.(value := Some(v), hasValue := true);
    assert Valid(g1);
    UnboundNeverCalled(react, g1, order, v, r);
  }

  /**
   * Removing a receiver drops its owner exactly when it was that owner's
   * last receiver; the owner's other receivers stay, in order.
   */
  lemma RemoveDropsOrphanOwner<T>(f: Field<T>, r: Receiver)
    requires Valid(f) && r in f.owners
    ensures var o := f.owners[r];
      var g := RemoveObserverF(f, r).field;
      (o in g.metas <==> |f.metas[o].receivers| > 1) &&
      (o in g.subscribed <==> |f.metas[o].receivers| > 1) &&
      (o in g.metas ==> g.metas[o].receivers == RemoveFirst(f.metas[o].receivers, r))
  {
    var o := f.owners[r];
    RemoveFirstFacts(f.metas[o].receivers, r);
  }
}
