/**
 * `BeansContext` as an object: its two maps are fields that the resolution
 * methods update in place, and each method is proved to do what
 * `Registry.Resolve` says.
 */
module Context {
  import opened Wrappers
  import opened Syntax
  import opened Beans
  import opened Registry
  import RegistryProps

  class BeansContext {
    /** The entries of `get` and `try_get`. */
    var beans: map<Type, Arc>
    /** The entries of `get_async` and `try_get_async`. */
    var asyncBeans: map<Type, Arc>
    /** The number of handles allocated so far; a new handle takes this as its identity. */
    var nextId: nat
    /** Every constructor invocation so far, in order. */
    ghost var trace: seq<Event>

    ghost function St(): State
      reads this
    {
      State(beans, asyncBeans, nextId, trace)
    }

    ghost predicate Valid()
      reads this
    {
      Registry.Valid(St())
    }

    /** `BeansContext::default()`: both maps empty. */
    constructor ()
      ensures St() == Empty() && Valid()
      ensures beans == map[] && asyncBeans == map[]
    {
      beans := map[];
      asyncBeans := map[];
      nextId := 0;
      trace := [];
    }

    /** The lookup-then-construct algorithm shared by the four public operations. */
    method Resolve(cat: Catalog, tr: Trait, key: Type) returns (o: Outcome)
      requires WellFormed(cat) && (tr, key) in cat.ctors
      modifies this
      ensures (o, St()) == Registry.Resolve(cat, tr, key, old(St()))
      decreases cat.depth[(tr, key)], 1
    {
      var m := if FamilyOf(tr) == Sync then beans else asyncBeans;
      if key in m {
        // fast path: hand out the stored handle
        match Downcast(m[key], key)
        case Some(a) => return Resolved(a);
        case None => return Mismatch;
      }
      var ctor := cat.ctors[(tr, key)];
      trace := trace + [Created(tr, key)];
      var b := ResolveDeps(cat, tr, key);
      if b.stop.Some? {
        return b.stop.value;
      }
      if ctor.failure.Some? {
        return Failed(ctor.failure.value);
      }
      var a := Arc(nextId, Value(key, b.fields));
      nextId := nextId + 1;
      if FamilyOf(tr) == Sync {
        beans := beans[key := a];
      } else {
        asyncBeans := asyncBeans[key := a];
      }
      return Resolved(a);
    }

    /** The dependency resolutions of `key`'s constructor, one field at a time. */
    method ResolveDeps(cat: Catalog, tr: Trait, key: Type) returns (b: Built)
      requires WellFormed(cat) && (tr, key) in cat.ctors
      modifies this
      ensures (b, St()) == Build(cat, tr, key, cat.ctors[(tr, key)].deps, [], old(St()))
      decreases cat.depth[(tr, key)], 0
    {
      var deps := cat.ctors[(tr, key)].deps;
      var fields: seq<FieldVal> := [];
      var i := 0;
      while i < |deps|
        invariant 0 <= i <= |deps|
        invariant Build(cat, tr, key, deps, [], old(St())) == Build(cat, tr, key, deps[i..], fields, St())
      {
        var r := Resolve(cat, tr, deps[i].key);
        if !r.Resolved? {
          return Built(fields, Some(r));
        }
        fields := fields + [FieldOf(deps[i], r.arc)];
        i := i + 1;
      }
      assert deps[i..] == [];
      return Built(fields, None);
    }

    /** `get::<T>()`: through `beans`, with a constructor that cannot fail. */
    method Get(cat: Catalog, key: Type) returns (a: Arc)
      requires WellFormed(cat) && (Bean, key) in cat.ctors && Valid()
      modifies this
      ensures Valid() && asyncBeans == old(asyncBeans)
      ensures (Resolved(a), St()) == Registry.Resolve(cat, Bean, key, old(St()))
    {
      RegistryProps.ResolveValid(cat, Bean, key, St());
      RegistryProps.FamiliesSeparate(cat, Bean, key, St());
      var o := Resolve(cat, Bean, key);
      a := o.arc;
    }

    /** `get_async::<T>()`: through `asyncBeans`, with a constructor that cannot fail. */
    method GetAsync(cat: Catalog, key: Type) returns (a: Arc)
      requires WellFormed(cat) && (AsyncBean, key) in cat.ctors && Valid()
      modifies this
      ensures Valid() && beans == old(beans)
      ensures (Resolved(a), St()) == Registry.Resolve(cat, AsyncBean, key, old(St()))
    {
      RegistryProps.ResolveValid(cat, AsyncBean, key, St());
      RegistryProps.FamiliesSeparate(cat, AsyncBean, key, St());
      var o := Resolve(cat, AsyncBean, key);
      a := o.arc;
    }

    /** `try_get::<T>()`: through `beans`; a constructor error is returned and nothing cached. */
    method TryGet(cat: Catalog, key: Type) returns (r: Result<Arc, Error>)
      requires WellFormed(cat) && (TryBean, key) in cat.ctors && Valid()
      modifies this
      ensures Valid() && asyncBeans == old(asyncBeans)
      ensures r.Success? ==> (Resolved(r.value), St()) == Registry.Resolve(cat, TryBean, key, old(St()))
      ensures r.Failure? ==> (Failed(r.error), St()) == Registry.Resolve(cat, TryBean, key, old(St()))
      ensures r.Failure? ==> key !in beans
    {
      RegistryProps.ResolveValid(cat, TryBean, key, St());
      RegistryProps.FamiliesSeparate(cat, TryBean, key, St());
      RegistryProps.FailureNotCached(cat, TryBean, key, St());
      var o := Resolve(cat, TryBean, key);
      r := if o.Resolved? then Success(o.arc) else Failure(o.error);
    }

    /** `try_get_async::<T>()`: through `asyncBeans`; a constructor error is returned and nothing cached. */
    method TryGetAsync(cat: Catalog, key: Type) returns (r: Result<Arc, Error>)
      requires WellFormed(cat) && (AsyncTryBean, key) in cat.ctors && Valid()
      modifies this
      ensures Valid() && beans == old(beans)
      ensures r.Success? ==> (Resolved(r.value), St()) == Registry.Resolve(cat, AsyncTryBean, key, old(St()))
      ensures r.Failure? ==> (Failed(r.error), St()) == Registry.Resolve(cat, AsyncTryBean, key, old(St()))
      ensures r.Failure? ==> key !in asyncBeans
    {
      RegistryProps.ResolveValid(cat, AsyncTryBean, key, St());
      RegistryProps.FamiliesSeparate(cat, AsyncTryBean, key, St());
      RegistryProps.FailureNotCached(cat, AsyncTryBean, key, St());
      var o := Resolve(cat, AsyncTryBean, key);
      r := if o.Resolved? then Success(o.arc) else Failure(o.error);
    }
  }
}
