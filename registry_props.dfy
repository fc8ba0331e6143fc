/**
 * What the registry's resolution guarantees: which map changes and how, what is
 * cached after a hit, a successful miss or a failure, that the downcast never
 * fails, and that shared fields point at the cached instances.
 */
module RegistryProps {
  import opened Wrappers
  import opened Syntax
  import opened Beans
  import opened Registry

  /** The types a resolution of `key` may add to its map: `key` and its transitive dependencies. */
  ghost function Closure(cat: Catalog, tr: Trait, key: Type): set<Type>
    requires WellFormed(cat) && (tr, key) in cat.ctors
    decreases cat.depth[(tr, key)], 1
  {
    {key} + DepsClosure(cat, tr, key, cat.ctors[(tr, key)].deps)
  }

  ghost function DepsClosure(cat: Catalog, tr: Trait, owner: Type, deps: seq<Dep>): set<Type>
    requires WellFormed(cat) && (tr, owner) in cat.ctors
    requires DepsBelow(cat, tr, deps, cat.depth[(tr, owner)])
    decreases cat.depth[(tr, owner)], 0, |deps|
  {
    if deps == [] then {} else Closure(cat, tr, deps[0].key) + DepsClosure(cat, tr, owner, deps[1..])
  }

  lemma {:induction false} ClosureBelow(cat: Catalog, tr: Trait, key: Type, k: Type)
    requires WellFormed(cat) && (tr, key) in cat.ctors && k in Closure(cat, tr, key)
    ensures (tr, k) in cat.ctors && (tr, k) in cat.depth && cat.depth[(tr, k)] <= cat.depth[(tr, key)]
    decreases cat.depth[(tr, key)], 1
  {
    if k != key {
      DepsClosureBelow(cat, tr, key, cat.ctors[(tr, key)].deps, k);
    }
  }

  lemma {:induction false} DepsClosureBelow(cat: Catalog, tr: Trait, owner: Type, deps: seq<Dep>, k: Type)
    requires WellFormed(cat) && (tr, owner) in cat.ctors
    requires DepsBelow(cat, tr, deps, cat.depth[(tr, owner)])
    requires k in DepsClosure(cat, tr, owner, deps)
    ensures (tr, k) in cat.ctors && (tr, k) in cat.depth && cat.depth[(tr, k)] < cat.depth[(tr, owner)]
    decreases cat.depth[(tr, owner)], 0, |deps|
  {
    if k in Closure(cat, tr, deps[0].key) {
      ClosureBelow(cat, tr, deps[0].key, k);
    } else {
      DepsClosureBelow(cat, tr, owner, deps[1..], k);
    }
  }

  /** `m'` keeps every entry of `m` unchanged. */
  ghost predicate Keeps(m: map<Type, Arc>, m': map<Type, Arc>)
  {
    forall k :: k in m ==> k in m' && m'[k] == m[k]
  }

  /** How a resolution under `tr` may change the state: its own map keeps every entry and
      gains only keys in `added`, the other family's map is untouched, the allocation
      counter never goes back and the constructor log only grows. */
  ghost predicate Frame(tr: Trait, s: State, s': State, added: set<Type>)
  {
    var f := FamilyOf(tr);
    Keeps(Entries(s, f), Entries(s', f))
    && (forall k :: k in Entries(s', f) ==> k in Entries(s, f) || k in added)
    && Entries(s', OtherFamily(f)) == Entries(s, OtherFamily(f))
    && s.nextId <= s'.nextId
    && s.trace <= s'.trace
  }

  lemma FrameTrans(tr: Trait, s1: State, s2: State, s3: State, a: set<Type>, b: set<Type>)
    requires Frame(tr, s1, s2, a) && Frame(tr, s2, s3, b)
    ensures Frame(tr, s1, s3, a + b)
  {
  }

  lemma {:induction false} ResolveFrame(cat: Catalog, tr: Trait, key: Type, s: State)
    requires WellFormed(cat) && (tr, key) in cat.ctors
    ensures var (o, s') := Resolve(cat, tr, key, s);
      Frame(tr, s, s', Closure(cat, tr, key))
      && (o.Resolved? ==> key in Entries(s', FamilyOf(tr)) && Entries(s', FamilyOf(tr))[key] == o.arc)
      && (key !in Entries(s, FamilyOf(tr)) && !o.Resolved? ==> key !in Entries(s', FamilyOf(tr)))
      && (key !in Entries(s, FamilyOf(tr)) && o.Resolved? ==> o.arc.id >= s.nextId)
    decreases cat.depth[(tr, key)], 1
  {
    var f := FamilyOf(tr);
    if key !in Entries(s, f) {
      var ctor := cat.ctors[(tr, key)];
      var s0 := s.(trace := s.trace + [Created(tr, key)]);
      BuildFrame(cat, tr, key, ctor.deps, [], s0);
      var (b, s1) := Build(cat, tr, key, ctor.deps, [], s0);
      if key in Entries(s1, f) {
        DepsClosureBelow(cat, tr, key, ctor.deps, key);
      }
      assert Frame(tr, s, s1, Closure(cat, tr, key));
    }
  }

  lemma {:induction false} BuildFrame(cat: Catalog, tr: Trait, owner: Type, deps: seq<Dep>, fields: seq<FieldVal>, s: State)
    requires WellFormed(cat) && (tr, owner) in cat.ctors
    requires DepsBelow(cat, tr, deps, cat.depth[(tr, owner)])
    ensures var (b, s') := Build(cat, tr, owner, deps, fields, s);
      Frame(tr, s, s', DepsClosure(cat, tr, owner, deps))
      && (b.stop.Some? ==> !b.stop.value.Resolved?)
    decreases cat.depth[(tr, owner)], 0, |deps|
  {
    if deps != [] {
      ResolveFrame(cat, tr, deps[0].key, s);
      var (o, s1) := Resolve(cat, tr, deps[0].key, s);
      if o.Resolved? {
        BuildFrame(cat, tr, owner, deps[1..], fields + [FieldOf(deps[0], o.arc)], s1);
        var (b, s2) := Build(cat, tr, owner, deps[1..], fields + [FieldOf(deps[0], o.arc)], s1);
        FrameTrans(tr, s, s1, s2, Closure(cat, tr, deps[0].key), DepsClosure(cat, tr, owner, deps[1..]));
      }
    }
  }

  /** No constructor of `tr` reports an error of its own (true of every derived constructor). */
  ghost predicate NoOwnFailures(cat: Catalog, tr: Trait)
  {
    forall k :: (tr, k) in cat.ctors ==> cat.ctors[(tr, k)].failure == None
  }

  /** The type-safety invariant is preserved, so the downcast's "bean type mismatch" abort
      never happens; under a non-fallible trait, or when no constructor fails on its own,
      resolution always yields a handle, of the requested type. */
  lemma {:induction false} ResolveValid(cat: Catalog, tr: Trait, key: Type, s: State)
    requires WellFormed(cat) && (tr, key) in cat.ctors && Valid(s)
    ensures var (o, s') := Resolve(cat, tr, key, s);
      Valid(s') && !o.Mismatch?
      && (o.Resolved? ==> o.arc.value.ty == key && o.arc.id < s'.nextId)
      && (!Fallible(tr) || NoOwnFailures(cat, tr) ==> o.Resolved?)
    decreases cat.depth[(tr, key)], 1
  {
    var f := FamilyOf(tr);
    if key !in Entries(s, f) {
      var ctor := cat.ctors[(tr, key)];
      var s0 := s.(trace := s.trace + [Created(tr, key)]);
      BuildValid(cat, tr, key, ctor.deps, [], s0);
    }
  }

  lemma {:induction false} BuildValid(cat: Catalog, tr: Trait, owner: Type, deps: seq<Dep>, fields: seq<FieldVal>, s: State)
    requires WellFormed(cat) && (tr, owner) in cat.ctors && Valid(s)
    requires DepsBelow(cat, tr, deps, cat.depth[(tr, owner)])
    ensures var (b, s') := Build(cat, tr, owner, deps, fields, s);
      Valid(s') && (b.stop.Some? ==> b.stop.value.Failed? && Fallible(tr) && !NoOwnFailures(cat, tr))
    decreases cat.depth[(tr, owner)], 0, |deps|
  {
    if deps != [] {
      ResolveValid(cat, tr, deps[0].key, s);
      var (o, s1) := Resolve(cat, tr, deps[0].key, s);
      if o.Resolved? {
        BuildValid(cat, tr, owner, deps[1..], fields + [FieldOf(deps[0], o.arc)], s1);
      }
    }
  }

  /** `fields` are the fields filled for `deps`, one each and in order, from the entries of `m`. */
  ghost predicate Wired(deps: seq<Dep>, fields: seq<FieldVal>, m: map<Type, Arc>)
  {
    |fields| == |deps|
    && forall j :: 0 <= j < |deps| ==> deps[j].key in m && fields[j] == FieldOf(deps[j], m[deps[j].key])
  }

  lemma WiredKept(deps: seq<Dep>, fields: seq<FieldVal>, m: map<Type, Arc>, m': map<Type, Arc>)
    requires Wired(deps, fields, m) && Keeps(m, m')
    ensures Wired(deps, fields, m')
  {
  }

  /** `out` extends `fields` with one field per dependency of a prefix of `deps`,
      each filled from the entry `m` has for that dependency's type. */
  ghost predicate Filled(deps: seq<Dep>, fields: seq<FieldVal>, out: seq<FieldVal>, m: map<Type, Arc>)
  {
    |fields| <= |out| <= |fields| + |deps|
    && out[..|fields|] == fields
    && forall i :: 0 <= i < |out| - |fields| ==>
         deps[i].key in m && out[|fields| + i] == FieldOf(deps[i], m[deps[i].key])
  }

  lemma FilledStep(deps: seq<Dep>, fields: seq<FieldVal>, a: Arc, out: seq<FieldVal>, m: map<Type, Arc>)
    requires deps != [] && deps[0].key in m && m[deps[0].key] == a
    requires Filled(deps[1..], fields + [FieldOf(deps[0], a)], out, m)
    ensures Filled(deps, fields, out, m)
  {
    var fields1 := fields + [FieldOf(deps[0], a)];
    assert out[..|fields1|] == fields1;
    forall i | 0 <= i < |out| - |fields|
      ensures deps[i].key in m && out[|fields| + i] == FieldOf(deps[i], m[deps[i].key])
    {
      if i == 0 {
        assert out[|fields|] == fields1[|fields|];
      } else {
        assert deps[1..][i - 1] == deps[i];
      }
    }
    assert out[..|fields|] == fields1[..|fields|];
  }

  lemma {:induction false} BuildWired(cat: Catalog, tr: Trait, owner: Type, deps: seq<Dep>, fields: seq<FieldVal>, s: State)
    requires WellFormed(cat) && (tr, owner) in cat.ctors
    requires DepsBelow(cat, tr, deps, cat.depth[(tr, owner)])
    ensures var (b, s') := Build(cat, tr, owner, deps, fields, s);
      Filled(deps, fields, b.fields, Entries(s', FamilyOf(tr)))
      && (b.stop.None? ==> |b.fields| == |fields| + |deps|)
    decreases |deps|
  {
    if deps != [] {
      ResolveFrame(cat, tr, deps[0].key, s);
      var (o, s1) := Resolve(cat, tr, deps[0].key, s);
      if o.Resolved? {
        var fields1 := fields + [FieldOf(deps[0], o.arc)];
        BuildWired(cat, tr, owner, deps[1..], fields1, s1);
        BuildFrame(cat, tr, owner, deps[1..], fields1, s1);
        var (b, s2) := Build(cat, tr, owner, deps[1..], fields1, s1);
        FilledStep(deps, fields, o.arc, b.fields, Entries(s2, FamilyOf(tr)));
      }
    }
  }

  /** A freshly constructed handle's fields are wired to the entries its dependencies
      have in the final map. */
  lemma ResolveWired(cat: Catalog, tr: Trait, key: Type, s: State)
    requires WellFormed(cat) && (tr, key) in cat.ctors && key !in Entries(s, FamilyOf(tr))
    ensures var (o, s') := Resolve(cat, tr, key, s);
      o.Resolved? ==> Wired(cat.ctors[(tr, key)].deps, o.arc.value.fields, Entries(s', FamilyOf(tr)))
  {
    var f := FamilyOf(tr);
    var ctor := cat.ctors[(tr, key)];
    var s0 := s.(trace := s.trace + [Created(tr, key)]);
    BuildWired(cat, tr, key, ctor.deps, [], s0);
    BuildFrame(cat, tr, key, ctor.deps, [], s0);
    var (b, s1) := Build(cat, tr, key, ctor.deps, [], s0);
    if key in Entries(s1, f) {
      DepsClosureBelow(cat, tr, key, ctor.deps, key);
    }
    if b.stop.None? && ctor.failure.None? {
      var s2 := Finish(tr, key, ctor, b, s1).1;
      FilledWired(ctor.deps, b.fields, Entries(s1, f));
      WiredKept(ctor.deps, b.fields, Entries(s1, f), Entries(s2, f));
    }
  }

  lemma FilledWired(deps: seq<Dep>, out: seq<FieldVal>, m: map<Type, Arc>)
    requires Filled(deps, [], out, m) && |out| == |deps|
    ensures Wired(deps, out, m)
  {
    forall j | 0 <= j < |deps|
      ensures deps[j].key in m && out[j] == FieldOf(deps[j], m[deps[j].key])
    {
      assert out[0 + j] == out[j];
    }
  }

  /** Every cached entry of `tr`'s map was built by `tr`'s constructor for its key, and each of
      its fields is filled from the entry the map holds for that field's dependency. */
  ghost predicate Coherent(cat: Catalog, tr: Trait, s: State)
  {
    var m := Entries(s, FamilyOf(tr));
    forall k :: k in m ==> (tr, k) in cat.ctors && Wired(cat.ctors[(tr, k)].deps, m[k].value.fields, m)
  }

  lemma {:induction false} ResolveCoherent(cat: Catalog, tr: Trait, key: Type, s: State)
    requires WellFormed(cat) && (tr, key) in cat.ctors && Coherent(cat, tr, s)
    ensures Coherent(cat, tr, Resolve(cat, tr, key, s).1)
    decreases cat.depth[(tr, key)], 1
  {
    var f := FamilyOf(tr);
    if key !in Entries(s, f) {
      var ctor := cat.ctors[(tr, key)];
      var s0 := s.(trace := s.trace + [Created(tr, key)]);
      BuildCoherent(cat, tr, key, ctor.deps, [], s0);
      BuildFrame(cat, tr, key, ctor.deps, [], s0);
      var (b, s1) := Build(cat, tr, key, ctor.deps, [], s0);
      if b.stop.None? && ctor.failure.None? {
        if key in Entries(s1, f) {
          DepsClosureBelow(cat, tr, key, ctor.deps, key);
        }
        ResolveWired(cat, tr, key, s);
        var (o, s') := Resolve(cat, tr, key, s);
        var m1, m' := Entries(s1, f), Entries(s', f);
        assert m' == m1[key := o.arc];
        forall k | k in m'
          ensures (tr, k) in cat.ctors && Wired(cat.ctors[(tr, k)].deps, m'[k].value.fields, m')
        {
          if k != key {
            WiredKept(cat.ctors[(tr, k)].deps, m1[k].value.fields, m1, m');
          }
        }
      }
    }
  }

  lemma {:induction false} BuildCoherent(cat: Catalog, tr: Trait, owner: Type, deps: seq<Dep>, fields: seq<FieldVal>, s: State)
    requires WellFormed(cat) && (tr, owner) in cat.ctors && Coherent(cat, tr, s)
    requires DepsBelow(cat, tr, deps, cat.depth[(tr, owner)])
    ensures Coherent(cat, tr, Build(cat, tr, owner, deps, fields, s).1)
    decreases cat.depth[(tr, owner)], 0, |deps|
  {
    if deps != [] {
      ResolveCoherent(cat, tr, deps[0].key, s);
      var (o, s1) := Resolve(cat, tr, deps[0].key, s);
      if o.Resolved? {
        BuildCoherent(cat, tr, owner, deps[1..], fields + [FieldOf(deps[0], o.arc)], s1);
      }
    }
  }

  // ---------------------------------------------------------------------------
  // The guarantees of one resolution, and of two in a row.

  /** Fast path: a cached key is answered with the stored handle, and nothing changes
      (no constructor runs, no map is written, no handle is allocated). */
  lemma FastPath(cat: Catalog, tr: Trait, key: Type, s: State)
    requires WellFormed(cat) && (tr, key) in cat.ctors && Valid(s)
    requires key in Entries(s, FamilyOf(tr))
    ensures Resolve(cat, tr, key, s) == (Resolved(Entries(s, FamilyOf(tr))[key]), s)
  {
  }

  /** Slow path: on a miss the constructor runs, the handle returned is new and of the
      requested type, it is what the map then holds under `key`, its fields are filled from
      the cached dependencies, earlier entries are kept, the only keys added are `key` and
      its transitive dependencies, the other map is untouched, and a failure is not cached. */
  lemma SlowPath(cat: Catalog, tr: Trait, key: Type, s: State)
    requires WellFormed(cat) && (tr, key) in cat.ctors && Valid(s)
    requires key !in Entries(s, FamilyOf(tr))
    ensures var (o, s') := Resolve(cat, tr, key, s);
      var m' := Entries(s', FamilyOf(tr));
      |s'.trace| > |s.trace| && s'.trace[|s.trace|] == Created(tr, key)
      && Frame(tr, s, s', Closure(cat, tr, key))
      && !o.Mismatch?
      && (!Fallible(tr) ==> o.Resolved?)
      && (o.Resolved? ==>
            key in m' && m'[key] == o.arc && o.arc.id >= s.nextId && o.arc.value.ty == key
            && Wired(cat.ctors[(tr, key)].deps, o.arc.value.fields, m'))
      && (o.Failed? ==> key !in m')
  {
    var ctor := cat.ctors[(tr, key)];
    var s0 := s.(trace := s.trace + [Created(tr, key)]);
    BuildFrame(cat, tr, key, ctor.deps, [], s0);
    ResolveFrame(cat, tr, key, s);
    ResolveValid(cat, tr, key, s);
    ResolveWired(cat, tr, key, s);
  }

  /** Resolving the same type twice in a row yields the same instance, and the second call
      changes nothing; this holds across the two traits that share a map (`Bean` and
      `TryBean`, or `AsyncBean` and `AsyncTryBean`). */
  lemma Idempotent(cat: Catalog, tr: Trait, tr2: Trait, key: Type, s: State)
    requires WellFormed(cat) && (tr, key) in cat.ctors && (tr2, key) in cat.ctors && Valid(s)
    requires FamilyOf(tr2) == FamilyOf(tr)
    ensures var (o1, s1) := Resolve(cat, tr, key, s);
      o1.Resolved? ==> Resolve(cat, tr2, key, s1) == (o1, s1)
  {
    ResolveFrame(cat, tr, key, s);
    ResolveValid(cat, tr, key, s);
  }

  /** A failed construction leaves no entry for the type, keeps every entry that existed,
      and a later resolution of the same type runs its constructor again. */
  lemma FailureNotCached(cat: Catalog, tr: Trait, key: Type, s: State)
    requires WellFormed(cat) && (tr, key) in cat.ctors && Valid(s)
    ensures var (o1, s1) := Resolve(cat, tr, key, s);
      o1.Failed? ==>
        Fallible(tr) && key !in Entries(s1, FamilyOf(tr)) && Keeps(Entries(s, FamilyOf(tr)), Entries(s1, FamilyOf(tr)))
        && var s2 := Resolve(cat, tr, key, s1).1;
           |s2.trace| > |s1.trace| && s2.trace[|s1.trace|] == Created(tr, key)
  {
    var (o1, s1) := Resolve(cat, tr, key, s);
    ResolveValid(cat, tr, key, s);
    if o1.Failed? {
      SlowPath(cat, tr, key, s);
      SlowPath(cat, tr, key, s1);
    }
  }

  /** The dependency phase of a miss: the constructor's resolution of its dependencies. */
  ghost function Attempt(cat: Catalog, tr: Trait, key: Type, s: State): (Built, State)
    requires WellFormed(cat) && (tr, key) in cat.ctors
  {
    Build(cat, tr, key, cat.ctors[(tr, key)].deps, [], s.(trace := s.trace + [Created(tr, key)]))
  }

  /** The dependencies resolved before construction stopped stay cached whatever the outcome;
      a constructor's own error comes only after all of its dependencies have resolved. */
  lemma DepsStayCached(cat: Catalog, tr: Trait, key: Type, s: State)
    requires WellFormed(cat) && (tr, key) in cat.ctors
    requires key !in Entries(s, FamilyOf(tr))
    ensures var (b, _) := Attempt(cat, tr, key, s);
      var deps := cat.ctors[(tr, key)].deps;
      var (o, s') := Resolve(cat, tr, key, s);
      |b.fields| <= |deps|
      && (forall i :: 0 <= i < |b.fields| ==> deps[i].key in Entries(s', FamilyOf(tr)))
      && (b.stop.None? ==> |b.fields| == |deps|)
      && (b.stop.None? && cat.ctors[(tr, key)].failure.Some? ==> o == Failed(cat.ctors[(tr, key)].failure.value))
  {
    var ctor := cat.ctors[(tr, key)];
    var s0 := s.(trace := s.trace + [Created(tr, key)]);
    BuildWired(cat, tr, key, ctor.deps, [], s0);
    var (b, s1) := Build(cat, tr, key, ctor.deps, [], s0);
    var (o, s') := Resolve(cat, tr, key, s);
    assert Filled(ctor.deps, [], b.fields, Entries(s1, FamilyOf(tr)));
    if o.Resolved? {
      if key in Entries(s1, FamilyOf(tr)) {
        BuildFrame(cat, tr, key, ctor.deps, [], s0);
        DepsClosureBelow(cat, tr, key, ctor.deps, key);
      }
      assert Keeps(Entries(s1, FamilyOf(tr)), Entries(s', FamilyOf(tr)));
    }
  }

  /** The error a fallible resolution returns is one a constructor reported: that of the
      requested type or of one of its transitive dependencies, passed on unchanged by each
      field's `?` and by `create(self)?`. */
  lemma {:induction false} ErrorOrigin(cat: Catalog, tr: Trait, key: Type, s: State)
    requires WellFormed(cat) && (tr, key) in cat.ctors
    ensures var o := Resolve(cat, tr, key, s).0;
      o.Failed? ==> exists k :: k in Closure(cat, tr, key) && (tr, k) in cat.ctors && cat.ctors[(tr, k)].failure == Some(o.error)
    decreases cat.depth[(tr, key)], 1
  {
    if key !in Entries(s, FamilyOf(tr)) {
      var ctor := cat.ctors[(tr, key)];
      var s0 := s.(trace := s.trace + [Created(tr, key)]);
      BuildErrorOrigin(cat, tr, key, ctor.deps, [], s0);
      var (b, _) := Build(cat, tr, key, ctor.deps, [], s0);
      if b.stop.None? && ctor.failure.Some? {
        assert key in Closure(cat, tr, key);
      }
    }
  }

  lemma {:induction false} BuildErrorOrigin(cat: Catalog, tr: Trait, owner: Type, deps: seq<Dep>, fields: seq<FieldVal>, s: State)
    requires WellFormed(cat) && (tr, owner) in cat.ctors
    requires DepsBelow(cat, tr, deps, cat.depth[(tr, owner)])
    ensures var b := Build(cat, tr, owner, deps, fields, s).0;
      b.stop.Some? && b.stop.value.Failed? ==>
        exists k :: k in DepsClosure(cat, tr, owner, deps) && (tr, k) in cat.ctors && cat.ctors[(tr, k)].failure == Some(b.stop.value.error)
    decreases cat.depth[(tr, owner)], 0, |deps|
  {
    if deps != [] {
      ErrorOrigin(cat, tr, deps[0].key, s);
      var (o, s1) := Resolve(cat, tr, deps[0].key, s);
      if o.Resolved? {
        BuildErrorOrigin(cat, tr, owner, deps[1..], fields + [FieldOf(deps[0], o.arc)], s1);
      }
    }
  }

  /** A resolution never touches the other family's map. */
  lemma FamiliesSeparate(cat: Catalog, tr: Trait, key: Type, s: State)
    requires WellFormed(cat) && (tr, key) in cat.ctors
    ensures var s' := Resolve(cat, tr, key, s).1;
      Entries(s', OtherFamily(FamilyOf(tr))) == Entries(s, OtherFamily(FamilyOf(tr)))
  {
    ResolveFrame(cat, tr, key, s);
  }

  /** A family's view of the state: its own map, the handle counter and the constructor log.
      The other family's map is not part of it. */
  ghost predicate SameView(tr: Trait, s: State, t: State)
  {
    Entries(s, FamilyOf(tr)) == Entries(t, FamilyOf(tr)) && s.nextId == t.nextId && s.trace == t.trace
  }

  /** A resolution never reads the other family's map: two states with the same view give
      the same outcome and again states with the same view. */
  lemma {:induction false} ResolveReadsOwnFamily(cat: Catalog, tr: Trait, key: Type, s: State, t: State)
    requires WellFormed(cat) && (tr, key) in cat.ctors && SameView(tr, s, t)
    ensures Resolve(cat, tr, key, s).0 == Resolve(cat, tr, key, t).0
    ensures SameView(tr, Resolve(cat, tr, key, s).1, Resolve(cat, tr, key, t).1)
    decreases cat.depth[(tr, key)], 1
  {
    if key !in Entries(s, FamilyOf(tr)) {
      var ctor := cat.ctors[(tr, key)];
      BuildReadsOwnFamily(cat, tr, key, ctor.deps, [],
        s.(trace := s.trace + [Created(tr, key)]), t.(trace := t.trace + [Created(tr, key)]));
    }
  }

  lemma {:induction false} BuildReadsOwnFamily(cat: Catalog, tr: Trait, owner: Type, deps: seq<Dep>, fields: seq<FieldVal>, s: State, t: State)
    requires WellFormed(cat) && (tr, owner) in cat.ctors
    requires DepsBelow(cat, tr, deps, cat.depth[(tr, owner)]) && SameView(tr, s, t)
    ensures Build(cat, tr, owner, deps, fields, s).0 == Build(cat, tr, owner, deps, fields, t).0
    ensures SameView(tr, Build(cat, tr, owner, deps, fields, s).1, Build(cat, tr, owner, deps, fields, t).1)
    decreases cat.depth[(tr, owner)], 0, |deps|
  {
    if deps != [] {
      ResolveReadsOwnFamily(cat, tr, deps[0].key, s, t);
      var (o, s1) := Resolve(cat, tr, deps[0].key, s);
      var (_, t1) := Resolve(cat, tr, deps[0].key, t);
      if o.Resolved? {
        BuildReadsOwnFamily(cat, tr, owner, deps[1..], fields + [FieldOf(deps[0], o.arc)], s1, t1);
      }
    }
  }

  /** A foreign entry takes the fatal path: an entry whose value's type is not the key it is
      stored under makes the downcast fail (`expect("bean type mismatch")`), and nothing changes.
      The registry's own inserts never create such an entry (see `ResolveValid`). */
  lemma MismatchOnForeignEntry(cat: Catalog, tr: Trait, key: Type, s: State)
    requires WellFormed(cat) && (tr, key) in cat.ctors
    requires key in Entries(s, FamilyOf(tr)) && Entries(s, FamilyOf(tr))[key].value.ty != key
    ensures Resolve(cat, tr, key, s) == (Mismatch, s)
  {
  }

  /** A type cached by one family is built again, as a distinct instance, by the other. */
  lemma OtherFamilyRebuilds(cat: Catalog, tr1: Trait, tr2: Trait, key: Type, s: State)
    requires WellFormed(cat) && (tr1, key) in cat.ctors && (tr2, key) in cat.ctors && Valid(s)
    requires FamilyOf(tr1) != FamilyOf(tr2) && key !in Entries(s, FamilyOf(tr2))
    ensures var (o1, s1) := Resolve(cat, tr1, key, s);
      var (o2, s2) := Resolve(cat, tr2, key, s1);
      |s2.trace| > |s1.trace| && s2.trace[|s1.trace|] == Created(tr2, key)
      && (o1.Resolved? && o2.Resolved? ==> o1.arc.id != o2.arc.id)
  {
    var (o1, s1) := Resolve(cat, tr1, key, s);
    ResolveValid(cat, tr1, key, s);
    ResolveFrame(cat, tr1, key, s);
    assert OtherFamily(FamilyOf(tr1)) == FamilyOf(tr2);
    SlowPath(cat, tr2, key, s1);
  }
}
