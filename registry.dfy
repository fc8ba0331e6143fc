/**
 * The bean registry (`BeansContext`) as a function of its state: two maps from a
 * type key to a shared handle, one per family, and the check-then-insert
 * resolution that all four public operations run.
 */
module Registry {
  import opened Wrappers
  import opened Syntax
  import opened Beans

  /** A shared handle (`Arc`): `id` is the allocation's identity, `value` what it points at. */
  datatype Arc = Arc(id: nat, value: Value)

  /** A constructed struct: its runtime type and its fields in declaration order. */
  datatype Value = Value(ty: Type, fields: seq<FieldVal>)

  datatype FieldVal = FieldVal(name: string, slot: Slot)

  /** A field holds either a shared handle or its own clone of a value. */
  datatype Slot = Held(arc: Arc) | Owned(value: Value)

  /** One invocation of a type's `create` under a trait. */
  datatype Event = Created(tr: Trait, ty: Type)

  /** The registry's state. `nextId` numbers the handles allocated so far; `trace` records
      every constructor invocation, in order. */
  datatype State = State(beans: map<Type, Arc>, asyncBeans: map<Type, Arc>, nextId: nat, trace: seq<Event>)

  /** The state of a freshly created registry. */
  function Empty(): State
  {
    State(map[], map[], 0, [])
  }

  /** What a resolution yields: a handle, a constructor's error, or the
      "bean type mismatch" abort of a failed downcast. */
  datatype Outcome = Resolved(arc: Arc) | Failed(error: Error) | Mismatch

  /** The constructors of every (trait, type) pair that implements a trait, and a depth
      for each pair that strictly decreases along dependencies (an acyclic graph). */
  datatype Catalog = Catalog(ctors: map<(Trait, Type), Ctor>, depth: map<(Trait, Type), nat>)

  ghost predicate WellFormed(cat: Catalog)
  {
    forall c :: c in cat.ctors ==>
      c in cat.depth
      && (!Fallible(c.0) ==> cat.ctors[c].failure == None)
      && forall d :: d in cat.ctors[c].deps ==>
           (c.0, d.key) in cat.ctors && (c.0, d.key) in cat.depth && cat.depth[(c.0, d.key)] < cat.depth[c]
  }

  function Entries(s: State, f: Family): map<Type, Arc>
  {
    if f == Sync then s.beans else s.asyncBeans
  }

  function Store(s: State, f: Family, m: map<Type, Arc>): (s': State)
    ensures Entries(s', f) == m && Entries(s', OtherFamily(f)) == Entries(s, OtherFamily(f))
    ensures s'.nextId == s.nextId && s'.trace == s.trace
  {
    if f == Sync then s.(beans := m) else s.(asyncBeans := m)
  }

  /** The checked cast from the type-erased handle back to the requested type. */
  function Downcast(a: Arc, key: Type): Option<Arc>
  {
    if a.value.ty == key then Some(a) else None
  }

  /** The field a resolved dependency fills: the handle itself, or a copy of its value. */
  function FieldOf(d: Dep, a: Arc): FieldVal
  {
    FieldVal(d.field, if d.access == Shared then Held(a) else Owned(a.value))
  }

  /** The type-safety invariant: every entry holds a value of the type named by its key,
      and every handle in the maps was allocated before `nextId`. */
  ghost predicate Valid(s: State)
  {
    (forall k :: k in s.beans ==> s.beans[k].value.ty == k && s.beans[k].id < s.nextId)
    && (forall k :: k in s.asyncBeans ==> s.asyncBeans[k].value.ty == k && s.asyncBeans[k].id < s.nextId)
  }

  ghost predicate DepsBelow(cat: Catalog, tr: Trait, deps: seq<Dep>, bound: nat)
  {
    forall d :: d in deps ==> (tr, d.key) in cat.ctors && (tr, d.key) in cat.depth && cat.depth[(tr, d.key)] < bound
  }

  /** Resolution of `key` under trait `tr`: on a hit the stored handle is downcast and
      returned with the state unchanged; on a miss the constructor runs (its dependencies
      resolve through the same registry), and only a successful construction is inserted. */
  function Resolve(cat: Catalog, tr: Trait, key: Type, s: State): (Outcome, State)
    requires WellFormed(cat) && (tr, key) in cat.ctors
    decreases cat.depth[(tr, key)], 1
  {
    var m := Entries(s, FamilyOf(tr));
    if key in m then
      (match Downcast(m[key], key)
       case Some(a) => Resolved(a)
       case None => Mismatch, s)
    else
      var ctor := cat.ctors[(tr, key)];
      var (b, s1) := Build(cat, tr, key, ctor.deps, [], s.(trace := s.trace + [Created(tr, key)]));
      Finish(tr, key, ctor, b, s1)
  }

  /** The end of a miss, once the dependencies are resolved: a stopped construction passes
      its outcome on, a constructor's own error is returned, and otherwise the new value is
      wrapped in a freshly allocated handle and inserted under `key`. Nothing is inserted
      unless construction succeeds. */
  function Finish(tr: Trait, key: Type, ctor: Ctor, b: Built, s1: State): (Outcome, State)
  {
    if b.stop.Some? then (b.stop.value, s1)
    else if ctor.failure.Some? then (Failed(ctor.failure.value), s1)
    else
      var a := Arc(s1.nextId, Value(key, b.fields));
      (Resolved(a), Store(s1, FamilyOf(tr), Entries(s1, FamilyOf(tr))[key := a]).(nextId := s1.nextId + 1))
  }

  /** The fields built so far, and the outcome that stopped construction, if any. */
  datatype Built = Built(fields: seq<FieldVal>, stop: Option<Outcome>)

  /** Resolves the dependencies `deps` of `owner`'s constructor in order, appending each
      filled field to `fields`; the first one that does not resolve stops construction. */
  function Build(cat: Catalog, tr: Trait, owner: Type, deps: seq<Dep>, fields: seq<FieldVal>, s: State): (Built, State)
    requires WellFormed(cat) && (tr, owner) in cat.ctors
    requires DepsBelow(cat, tr, deps, cat.depth[(tr, owner)])
    decreases cat.depth[(tr, owner)], 0, |deps|
  {
    if deps == [] then (Built(fields, None), s)
    else
      var (o, s1) := Resolve(cat, tr, deps[0].key, s);
      if o.Resolved? then Build(cat, tr, owner, deps[1..], fields + [FieldOf(deps[0], o.arc)], s1)
      else (Built(fields, Some(o)), s1)
  }
}
