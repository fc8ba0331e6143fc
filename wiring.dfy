/**
 * How a derived implementation becomes a registry constructor, and the
 * dependency chains of the crate's own tests (`TestService` has a `Messager`
 * clone, `Messager` holds an `Arc<Message>`, `Message` is a unit struct) for
 * each of the four traits.
 */
module Wiring {
  import opened Wrappers
  import opened Syntax
  import opened Beans
  import opened Codegen
  import opened Registry
  import opened RegistryProps
  import opened Context

  /** The type `T` that the compiler infers for `context.get()` filling a field of type
      `...::Arc<T>`: the only generic argument of the path's last segment. */
  function ArcTarget(ty: Type): Option<Type>
  {
    if ty.Path? && |ty.segments| > 0 && |ty.segments[|ty.segments| - 1].args| == 1
    then Some(ty.segments[|ty.segments| - 1].args[0])
    else None
  }

  /** The dependency an initialiser resolves; `None` when the field's type does not
      determine it (the generated code would not compile). */
  function DepOf(init: Init): Option<Dep>
  {
    if init.access == Shared then
      match ArcTarget(init.fieldTy)
      case Some(t) => Some(Dep(init.field, Shared, t))
      case None => None
    else Some(Dep(init.field, Cloned, init.fieldTy))
  }

  function DepsOf(inits: seq<Init>): (r: Option<seq<Dep>>)
    ensures r.Some? <==> forall i :: 0 <= i < |inits| ==> DepOf(inits[i]).Some?
    ensures r.Some? ==> |r.value| == |inits| && forall i :: 0 <= i < |inits| ==> Some(r.value[i]) == DepOf(inits[i])
  {
    if inits == [] then Some([])
    else match (DepOf(inits[0]), DepsOf(inits[1..]))
      case (Some(d), Some(ds)) =>
        assert forall i :: 1 <= i < |inits| ==> inits[i] == inits[1..][i - 1];
        Some([d] + ds)
      case _ =>
        assert forall i :: 1 <= i < |inits| ==> inits[i] == inits[1..][i - 1];
        None
  }

  /** The registry constructor of a derived implementation: its initialisers' dependencies,
      in field order, and no error of its own. A tuple struct with fields has none: the
      generated `Self {}` leaves its fields unset and does not compile. */
  function DerivedCtor(input: DeriveInput, tr: Trait): Option<Ctor>
  {
    match ImplDerive(input, tr)
    case Failure(_) => None
    case Success(impl) =>
      if input.data.fields.Unnamed? && input.data.fields.unnamed != [] then None
      else match DepsOf(impl.inits)
      case Some(deps) => Some(Ctor(deps, None))
      case None => None
  }

  /** A derived constructor resolves one dependency per named field, in order: the `Arc`'s
      argument, shared, for an `Arc` field, and the field's own type, cloned, otherwise;
      it never fails on its own. */
  lemma DerivedCtorShape(input: DeriveInput, tr: Trait)
    requires DerivedCtor(input, tr).Some?
    ensures var c := DerivedCtor(input, tr).value;
      c.failure == None
      && input.data.Struct?
      && (!input.data.fields.Named? ==> c.deps == [])
      && (input.data.fields.Unnamed? ==> input.data.fields.unnamed == [])
      && (input.data.fields.Named? ==>
            var named := input.data.fields.named;
            |c.deps| == |named|
            && forall i :: 0 <= i < |named| ==>
                 c.deps[i].field == named[i].ident
                 && (if IsArcType(named[i].ty)
                     then c.deps[i].access == Shared && Some(c.deps[i].key) == ArcTarget(named[i].ty)
                     else c.deps[i].access == Cloned && c.deps[i].key == named[i].ty))
  {
    if input.data.fields.Named? {
      InitsFollowFields(input, tr);
    }
  }

  // ---------------------------------------------------------------------------
  // The dependency chains of the crate's tests.

  /** The test structs' names under each trait (`Message`, `AsyncMessage`, `TryMessage`, ...). */
  function MessageName(tr: Trait): string
  {
    match tr
    case Bean => "Message"
    case AsyncBean => "AsyncMessage"
    case TryBean => "TryMessage"
    case AsyncTryBean => "AsyncTryMessage"
  }

  function MessagerName(tr: Trait): string
  {
    match tr
    case Bean => "Messager"
    case AsyncBean => "AsyncMessager"
    case TryBean => "TryMessager"
    case AsyncTryBean => "AsyncTryMessager"
  }

  function TestServiceName(tr: Trait): string
  {
    match tr
    case Bean => "TestService"
    case AsyncBean => "AsyncTestService"
    case TryBean => "TryTestService"
    case AsyncTryBean => "AsyncTryTestService"
  }

  function MessageTy(tr: Trait): Type { Named1(MessageName(tr)) }
  function MessagerTy(tr: Trait): Type { Named1(MessagerName(tr)) }
  function TestServiceTy(tr: Trait): Type { Named1(TestServiceName(tr)) }

  /** `struct Message;` */
  function MessageInput(tr: Trait): DeriveInput
  {
    DeriveInput(MessageName(tr), Struct(Unit))
  }

  /** `struct Messager { message: Arc<Message> }` */
  function MessagerInput(tr: Trait): DeriveInput
  {
    DeriveInput(MessagerName(tr), Struct(Named([NamedField([], "message", ArcOf(MessageTy(tr)))])))
  }

  /** `struct TestService { messager: Messager }` */
  function TestServiceInput(tr: Trait): DeriveInput
  {
    DeriveInput(TestServiceName(tr), Struct(Named([NamedField([], "messager", MessagerTy(tr))])))
  }

  /** The constructors of a chain `top -> mid -> leaf` as the tests' structs have it:
      `top` clones a `mid` into its field `messager`, `mid` shares a `leaf` in its field `message`. */
  function ChainCatalog(tr: Trait, leaf: Type, mid: Type, top: Type): Catalog
  {
    Catalog(
      map[(tr, leaf) := Ctor([], None),
          (tr, mid) := Ctor([Dep("message", Shared, leaf)], None),
          (tr, top) := Ctor([Dep("messager", Cloned, mid)], None)],
      map[(tr, leaf) := 0, (tr, mid) := 1, (tr, top) := 2])
  }

  function TestCatalog(tr: Trait): Catalog
  {
    ChainCatalog(tr, MessageTy(tr), MessagerTy(tr), TestServiceTy(tr))
  }

  lemma TestTypesDistinct(tr: Trait)
    ensures MessageTy(tr) != MessagerTy(tr) && MessagerTy(tr) != TestServiceTy(tr) && MessageTy(tr) != TestServiceTy(tr)
  {
  }

  /** A chain of three distinct types is acyclic and no constructor in it fails on its own. */
  lemma ChainCatalogWellFormed(tr: Trait, leaf: Type, mid: Type, top: Type)
    requires leaf != mid && mid != top && leaf != top
    ensures WellFormed(ChainCatalog(tr, leaf, mid, top)) && NoOwnFailures(ChainCatalog(tr, leaf, mid, top), tr)
  {
    var cat := ChainCatalog(tr, leaf, mid, top);
    var a, b, c := (tr, leaf), (tr, mid), (tr, top);
    assert cat.ctors.Keys == {a, b, c};
    forall k | k in cat.ctors
      ensures k in cat.depth
        && (!Fallible(k.0) ==> cat.ctors[k].failure == None)
        && forall d :: d in cat.ctors[k].deps ==>
             (k.0, d.key) in cat.ctors && (k.0, d.key) in cat.depth && cat.depth[(k.0, d.key)] < cat.depth[k]
    {
      assert k in {a, b, c};
    }
  }

  /** The test types' dependency graph is acyclic and no constructor fails on its own. */
  lemma TestCatalogWellFormed(tr: Trait)
    ensures WellFormed(TestCatalog(tr)) && NoOwnFailures(TestCatalog(tr), tr)
  {
    TestTypesDistinct(tr);
    ChainCatalogWellFormed(tr, MessageTy(tr), MessagerTy(tr), TestServiceTy(tr));
  }

  /** The catalog's constructors are exactly what the derive macros generate for the three structs. */
  lemma TestCatalogDerived(tr: Trait)
    ensures DerivedCtor(MessageInput(tr), tr) == Some(Ctor([], None))
    ensures DerivedCtor(MessagerInput(tr), tr) == Some(Ctor([Dep("message", Shared, MessageTy(tr))], None))
    ensures DerivedCtor(TestServiceInput(tr), tr) == Some(Ctor([Dep("messager", Cloned, MessagerTy(tr))], None))
    ensures TestCatalog(tr).ctors[(tr, MessageTy(tr))] == DerivedCtor(MessageInput(tr), tr).value
    ensures TestCatalog(tr).ctors[(tr, MessagerTy(tr))] == DerivedCtor(MessagerInput(tr), tr).value
    ensures TestCatalog(tr).ctors[(tr, TestServiceTy(tr))] == DerivedCtor(TestServiceInput(tr), tr).value
  {
    TestTypesDistinct(tr);
    var inits := ImplDerive(MessagerInput(tr), tr).value.inits;
    assert inits == [Init("message", Shared, ArcOf(MessageTy(tr)), tr, FamilyOf(tr) == Async, Fallible(tr))];
    assert ArcTarget(ArcOf(MessageTy(tr))) == Some(MessageTy(tr));
    assert DepOf(inits[0]) == Some(Dep("message", Shared, MessageTy(tr)));
    assert DepsOf(inits).value == [Dep("message", Shared, MessageTy(tr))];
    var inits2 := ImplDerive(TestServiceInput(tr), tr).value.inits;
    assert inits2 == [Init("messager", Cloned, MessagerTy(tr), tr, FamilyOf(tr) == Async, Fallible(tr))];
    assert DepOf(inits2[0]) == Some(Dep("messager", Cloned, MessagerTy(tr)));
    assert DepsOf(inits2).value == [Dep("messager", Cloned, MessagerTy(tr))];
  }

  /** A chain `top -> mid -> leaf` in which `top` holds a clone of `mid` and `mid` holds a
      shared `leaf`: resolving `top` caches all three, and the `leaf` handle inside `top`'s
      copy of `mid` is the one a later resolution of `leaf` returns. */
  lemma ChainShares(cat: Catalog, tr: Trait, top: Type, mid: Type, leaf: Type, f1: string, f2: string, s: State)
    requires WellFormed(cat) && (tr, top) in cat.ctors && NoOwnFailures(cat, tr)
    requires cat.ctors[(tr, top)].deps == [Dep(f1, Cloned, mid)]
    requires (tr, mid) in cat.ctors && cat.ctors[(tr, mid)].deps == [Dep(f2, Shared, leaf)]
    requires Valid(s) && Coherent(cat, tr, s)
    ensures var (o, s1) := Resolve(cat, tr, top, s);
      var m := Entries(s1, FamilyOf(tr));
      o.Resolved? && Valid(s1)
      && top in m && mid in m && leaf in m
      && o.arc == m[top]
      && o.arc.value == Value(top, [FieldVal(f1, Owned(m[mid].value))])
      && m[mid].value == Value(mid, [FieldVal(f2, Held(m[leaf]))])
      && Resolve(cat, tr, leaf, s1) == (Resolved(m[leaf]), s1)
  {
    ResolveValid(cat, tr, top, s);
    ResolveFrame(cat, tr, top, s);
    ResolveCoherent(cat, tr, top, s);
    var (o, s1) := Resolve(cat, tr, top, s);
    var m := Entries(s1, FamilyOf(tr));
    assert Wired(cat.ctors[(tr, top)].deps, m[top].value.fields, m);
    assert Wired(cat.ctors[(tr, mid)].deps, m[mid].value.fields, m);
    assert m[top].value.fields == [FieldVal(f1, Owned(m[mid].value))];
    assert m[mid].value.fields == [FieldVal(f2, Held(m[leaf]))];
    assert (tr, leaf) in cat.ctors by {
      assert Dep(f2, Shared, leaf) in cat.ctors[(tr, mid)].deps;
    }
    FastPath(cat, tr, leaf, s1);
  }

  /** Resolving `TestService` on a fresh registry succeeds and leaves all three types cached;
      the `Messager` inside it is a clone of the cached one, whose `message` is the very
      instance a later resolution of `Message` returns, without constructing anything. */
  lemma DependencyChain(tr: Trait)
    ensures WellFormed(TestCatalog(tr))
    ensures var cat := TestCatalog(tr);
      var (o, s1) := Resolve(cat, tr, TestServiceTy(tr), Empty());
      var m := Entries(s1, FamilyOf(tr));
      o.Resolved? && Valid(s1)
      && TestServiceTy(tr) in m && MessagerTy(tr) in m && MessageTy(tr) in m
      && o.arc == m[TestServiceTy(tr)]
      && o.arc.value == Value(TestServiceTy(tr), [FieldVal("messager", Owned(m[MessagerTy(tr)].value))])
      && m[MessagerTy(tr)].value == Value(MessagerTy(tr), [FieldVal("message", Held(m[MessageTy(tr)]))])
      && Resolve(cat, tr, MessageTy(tr), s1) == (Resolved(m[MessageTy(tr)]), s1)
  {
    TestCatalogWellFormed(tr);
    TestTypesDistinct(tr);
    var cat := TestCatalog(tr);
    assert cat.ctors[(tr, TestServiceTy(tr))].deps == [Dep("messager", Cloned, MessagerTy(tr))];
    assert cat.ctors[(tr, MessagerTy(tr))].deps == [Dep("message", Shared, MessageTy(tr))];
    ChainShares(cat, tr, TestServiceTy(tr), MessagerTy(tr), MessageTy(tr), "messager", "message", Empty());
  }

  /** `test_di`: `ctx.get::<TestService>()` on a fresh context. */
  method TestDi() returns (service: Arc, message: Arc)
    ensures service.value.fields == [FieldVal("messager", Owned(Value(MessagerTy(Bean), [FieldVal("message", Held(message))])))]
  {
    DependencyChain(Bean);
    var ctx := new BeansContext();
    service := ctx.Get(TestCatalog(Bean), TestServiceTy(Bean));
    message := ctx.Get(TestCatalog(Bean), MessageTy(Bean));
  }

  /** `test_async_di`: `ctx.get_async::<AsyncTestService>()` on a fresh context. */
  method TestAsyncDi() returns (service: Arc, message: Arc)
    ensures service.value.fields == [FieldVal("messager", Owned(Value(MessagerTy(AsyncBean), [FieldVal("message", Held(message))])))]
  {
    DependencyChain(AsyncBean);
    var ctx := new BeansContext();
    service := ctx.GetAsync(TestCatalog(AsyncBean), TestServiceTy(AsyncBean));
    message := ctx.GetAsync(TestCatalog(AsyncBean), MessageTy(AsyncBean));
  }

  /** `test_try_di`: `ctx.try_get::<TryTestService>().unwrap()` on a fresh context never panics. */
  method TestTryDi() returns (service: Arc, message: Arc)
    ensures service.value.fields == [FieldVal("messager", Owned(Value(MessagerTy(TryBean), [FieldVal("message", Held(message))])))]
  {
    DependencyChain(TryBean);
    var ctx := new BeansContext();
    var r := ctx.TryGet(TestCatalog(TryBean), TestServiceTy(TryBean));
    service := r.value;
    var q := ctx.TryGet(TestCatalog(TryBean), MessageTy(TryBean));
    message := q.value;
  }

  /** `test_async_try_di`: `ctx.try_get_async::<AsyncTryTestService>().await.unwrap()` never panics. */
  method TestAsyncTryDi() returns (service: Arc, message: Arc)
    ensures service.value.fields == [FieldVal("messager", Owned(Value(MessagerTy(AsyncTryBean), [FieldVal("message", Held(message))])))]
  {
    DependencyChain(AsyncTryBean);
    var ctx := new BeansContext();
    var r := ctx.TryGetAsync(TestCatalog(AsyncTryBean), TestServiceTy(AsyncTryBean));
    service := r.value;
    var q := ctx.TryGetAsync(TestCatalog(AsyncTryBean), MessageTy(AsyncTryBean));
    message := q.value;
  }
}
