# beany: a verified model of the bean registry and its derive rule

beany is a small dependency-injection runtime for Rust. A `BeansContext` is a
lazily filled, type-keyed memo cache: asking it for a type `T` returns the one
shared instance (`Arc<T>`) it holds for `T`, and builds that instance first if
there is none, by running `T`'s constructor, which may ask the same context
for its own dependencies. There are four ways to ask: `get`, `get_async`,
`try_get` and `try_get_async`. They use four constructor traits: `Bean`,
`AsyncBean`, `TryBean` and `AsyncTryBean`. The sync operations use the map
`beans` and the async ones the map `async_beans`. The fallible ones return a
constructor's error and cache nothing for it. A derive macro for each trait
writes the constructor from the struct's fields. A field of type `Arc<U>` gets
the shared handle for `U`. Any other field gets a clone of the value cached
for its own type.

This project models both halves and proves what they promise.

- `Syntax` (syntax.dfy): the parsed derive input the macros look at: the item's
  name, whether it is a struct, enum or union, the kind of its fields, and
  each named field's identifier and type (a path of segments with generic
  arguments, or any other type form).
- `Beans` (beans.dfy): the four traits, the two map families, and the abstract
  constructor. A constructor lists its dependencies in field order. Each
  dependency names the field, whether the field holds the shared handle or a
  clone, and the type to resolve. A constructor may also carry an error of its
  own.
- `Codegen` (codegen.dfy): `get_fields`, `is_arc_type` and the per-field
  initialisers of the four `impl_derive_*` functions, as pure functions on
  that input. The four functions differ only in the trait, so one
  `ImplDerive(input, trait)` stands for all of them.
- `Registry` (registry.dfy): the registry's state and the shared
  check-then-insert algorithm as the functions `Resolve` and `Build`. The
  state holds the two maps, a handle counter and a log of constructor calls.
  A handle is `Arc(id, value)`: `id` is taken from the counter, so "the same
  instance" is equality of handles. `Build` resolves a constructor's
  dependencies in order and stops at the first one that does not resolve.
- `RegistryProps` (registry_props.dfy): lemmas about `Resolve`: the fast path,
  the slow path, idempotence, failures not being cached, map separation, the
  type-safety invariant under which the downcast cannot fail, and the
  invariant that every cached instance's fields point at the instances cached
  for their types.
- `Context` (context.dfy): the `BeansContext` class. Its fields `beans` and
  `asyncBeans` are updated in place by `Resolve`, which recurses through
  `ResolveDeps` for a constructor's fields. Each method is proved equal to the
  `Registry` function of the old state. `Get`, `GetAsync`, `TryGet` and
  `TryGetAsync` are the four public operations.
- `Wiring` (wiring.dfy): turns a derived implementation into the constructor
  the registry runs. It also states the dependency chains of the crate's four
  tests (`TestService` clones a `Messager`, `Messager` holds an
  `Arc<Message>`, `Message` is a unit struct) as lemmas and as client methods
  of the class.

Type identity (`TypeId::of::<T>()`) is modelled by equality of the type syntax,
so distinct types never collide. The Rust compiler's requirement that `T`
implements the trait becomes the precondition `(trait, T) in cat.ctors`. A
constructor resolves its dependencies under its own trait, because that is
what each derive macro generates. The log of constructor calls is a ghost
field. It stands for the side effect a test would observe when a constructor
runs.

## Model

| member | source | states |
|---|---|---|
| Context.BeansContext.constructor | src/lib.rs:9-13 | a new context (`#[derive(Default)]`) has both maps empty and satisfies the type-safety invariant |
| Context.BeansContext.Resolve | src/lib.rs:16-86 | the in-place lookup, construct-on-miss and insert, for any of the four traits, leaves the outcome and the new fields equal to `Registry.Resolve` of the old state |
| Context.BeansContext.ResolveDeps | beany_codegen/src/lib.rs:36-60 | a generated `create` resolves its fields' dependencies one by one through the same context and stops at the first that does not resolve, as `Registry.Build` says |
| Context.BeansContext.Get | src/lib.rs:16-32 | `get` always yields a handle, keeps the type-safety invariant, leaves `asyncBeans` unchanged and agrees with `Registry.Resolve` under `Bean` |
| Context.BeansContext.GetAsync | src/lib.rs:34-50 | `get_async` always yields a handle, leaves `beans` unchanged and agrees with `Registry.Resolve` under `AsyncBean` |
| Context.BeansContext.TryGet | src/lib.rs:52-68 | `try_get` returns the handle or the constructor's error, leaves `asyncBeans` unchanged, and after an error `beans` has no entry for the type |
| Context.BeansContext.TryGetAsync | src/lib.rs:70-86 | `try_get_async` returns the handle or the constructor's error, leaves `beans` unchanged, and after an error `asyncBeans` has no entry for the type |
| RegistryProps.ResolveFrame | src/lib.rs:20-31 | a resolution keeps every existing entry of its map, adds only the type and its transitive dependencies, leaves the other map alone, and a resolved handle is what the map holds under the key |
| RegistryProps.FastPath | src/lib.rs:30 | a cached key is answered with the stored handle and the state does not change: nothing is constructed, written or allocated |
| RegistryProps.SlowPath | src/lib.rs:23-28 | on a miss the constructor runs; a resolved handle is fresh, of the requested type, bound to the key, and its fields come from the cached dependencies; a failure leaves no entry |
| RegistryProps.Idempotent | src/lib.rs:20-31 | two resolutions of the same type in a row return the same instance and the second changes nothing, also across `Bean`/`TryBean` (or `AsyncBean`/`AsyncTryBean`), which share a map |
| RegistryProps.ResolveValid | src/lib.rs:22-30 | every entry's value has the type named by its key and this stays so, so the `expect("bean type mismatch")` abort never happens; non-fallible resolutions, and fallible ones whose constructors never fail on their own, always yield a handle |
| RegistryProps.FailureNotCached | src/lib.rs:58-64 | when construction fails the trait is fallible, no entry for the type is added, every earlier entry is kept, and the next resolution runs the constructor again |
| RegistryProps.DepsStayCached | beany_codegen/src/lib.rs:119-126 | the dependencies resolved before a construction stopped stay cached whatever the outcome, and a constructor's own error comes only after all its dependencies resolved |
| RegistryProps.ErrorOrigin | src/lib.rs:61 | the error a fallible resolution returns is one a constructor reported, that of the requested type or of one of its transitive dependencies, passed on unchanged by each field's `?` and by `create(self)?` |
| RegistryProps.FamiliesSeparate | src/lib.rs:9-13 | a resolution never changes the other family's map (for constructors of the derived shape) |
| RegistryProps.ResolveReadsOwnFamily | src/lib.rs:16-86 | a resolution reads only its own family's map (`beans` for `get`/`try_get`, `async_beans` for the async pair), the handle counter and the log (for constructors of the derived shape): states that agree on these give the same outcome and again agree on them |
| RegistryProps.MismatchOnForeignEntry | src/lib.rs:30 | an entry whose value's type is not its key makes the downcast fail: resolution takes the `expect("bean type mismatch")` path and changes nothing (the registry's own inserts never create such an entry) |
| RegistryProps.OtherFamilyRebuilds | src/lib.rs:34-50 | a type cached by the sync operations is constructed again by the async ones (and the reverse), as a distinct instance |
| RegistryProps.ResolveWired | beany_codegen/src/lib.rs:42-50 | a freshly built value has one field per dependency in order: the dependency's cached handle for a shared field, a copy of its value for a cloned one |
| RegistryProps.ResolveCoherent | src/lib.rs:117-128 | resolutions keep the invariant that every cached instance's fields point at the instances cached for their types |
| Codegen.Project | beany_codegen/src/lib.rs:197-205 | the named fields are copied in count and order, identifier and type unchanged |
| Codegen.GetFields | beany_codegen/src/lib.rs:185-206 | an enum or union gives the error "Bean can only be used on structs"; a tuple or unit struct gives no fields; a named struct gives its fields in order |
| Codegen.IsArcTypeIff | beany_codegen/src/lib.rs:68-75 | `is_arc_type` holds exactly of the paths ending in a segment named `Arc`, whatever precedes it and whatever its generic arguments |
| Codegen.IsArcTypeIgnoresPrefix | beany_codegen/src/lib.rs:70-71 | only the last segment of a path decides `is_arc_type` |
| Codegen.IsArcTypeNotOther | beany_codegen/src/lib.rs:69-74 | a non-path type, or a path without segments, is not an `Arc` |
| Codegen.FieldInits | beany_codegen/src/lib.rs:36-52 | every field yields one initialiser in field order: the shared handle when its type is an `Arc`, the cloned value of its own type otherwise, calling the trait's operation |
| Codegen.ImplDerive | beany_codegen/src/lib.rs:34-66 | a derivation fails exactly on non-structs with the struct-only error; otherwise it implements the trait for the item, wrapping the struct in `Ok` and declaring a boxed error type exactly for the fallible traits |
| Codegen.InitsFollowFields | beany_codegen/src/lib.rs:38-52 | the initialisers of a named struct follow its fields one to one, with the access the field's type calls for |
| Codegen.NoNamedFieldsNoInits | beany_codegen/src/lib.rs:193-195 | a tuple or unit struct gets a constructor with no field initialisers |
| Codegen.DerivationsAgree | beany_codegen/src/lib.rs:77-183 | the four derivations agree on success and on fields, access and order; they differ only in the operation called, with `?` on every field of the fallible ones and `.await` on every field of the async ones |
| Wiring.DepsOf | beany_codegen/src/lib.rs:44-48 | initialisers become dependencies one to one, and exactly when each field's type determines the type to resolve |
| Wiring.DerivedCtorShape | beany_codegen/src/lib.rs:54-63 | a derived constructor exists only for named, unit or empty tuple structs, and resolves, in field order, the `Arc`'s argument (shared) for an `Arc` field and the field's own type (cloned) otherwise, and never fails on its own |
| Wiring.TestCatalogDerived | src/lib.rs:117-128 | the test structs `Message`, `Messager { message: Arc<Message> }` and `TestService { messager: Messager }` derive exactly the constructors of the test catalog |
| Wiring.TestCatalogWellFormed | src/lib.rs:117-128 | the test structs' dependency graph is acyclic and none of their constructors fails on its own |
| Wiring.ChainShares | src/lib.rs:117-135 | resolving the top of a clone/shared chain caches all three types, and the handle inside the top's copy of the middle is the one a later resolution of the leaf returns |
| Wiring.DependencyChain | src/lib.rs:130-135 | on a fresh context, resolving `TestService` succeeds, caches `Messager` and `Message`, and `Messager.message` is the instance a later `get::<Message>()` returns without constructing anything |
| Wiring.TestDi | src/lib.rs:130-135 | `test_di` as a client of the class: `get::<TestService>()` on a fresh context yields a service whose cloned `Messager` holds exactly the `Message` handle that a following `get::<Message>()` returns; that second call is the model's addition, the test itself makes only the first |
| Wiring.TestAsyncDi | src/lib.rs:150-155 | `test_async_di` as a client of the class: the same sharing for the `Async*` structs through `get_async`, with the second `get_async::<AsyncMessage>()` added by the model |
| Wiring.TestTryDi | src/lib.rs:170-175 | `test_try_di` as a client of the class: the `unwrap` never panics, and the same sharing holds for the `Try*` structs through `try_get`, with the second `try_get::<TryMessage>()` added by the model |
| Wiring.TestAsyncTryDi | src/lib.rs:190-195 | `test_async_try_di` as a client of the class: the `unwrap` never panics, and the same sharing holds for the `AsyncTry*` structs through `try_get_async`, with the second `try_get_async::<AsyncTryMessage>()` added by the model |

## Left out

- Locking: the `parking_lot` and `tokio` read/write locks, their guards and `drop(read)` are not modelled. Each map access is one atomic step of a sequential model.
- Concurrency: the check-then-act race between two first resolutions of the same type is not modelled. Under contention a type can be constructed twice and the last insert wins. Only sequential runs are modelled.
- Async machinery: `.await` suspension, futures and cancellation are not modelled. The async operations differ from the sync ones only in the map they use.
- `Arc` reference counts and drop are not modelled. A handle is an id and a value. Dropping the context releases nothing in the model.
- `TypeId` hashing and `Any` internals are not modelled. A key is the type's syntax, so two spellings of one type (`Message` and `crate::Message`) are different keys in the model.
- A real `TypeId` collision between two distinct types cannot be expressed, because keys are the types themselves. The source's downcast compares `TypeId`s, so it would not catch one either: the value would be silently taken for the other type. `RegistryProps.MismatchOnForeignEntry` covers only an entry whose value's type differs from its key.
- Cyclic dependency graphs are not modelled. They are unsupported in the source: `get`/`try_get` would recurse forever, since no lock is held while a constructor runs (the async pair is not characterised further). The catalog must give every constructor a depth greater than its dependencies' depths.
- Hand-written constructors are modelled only in the derived shape: dependencies resolved in order under the same trait, then an optional error. A constructor that calls another trait's operation, fails before its dependencies, or has other side effects is not modelled.
- `Clone` is modelled as the derived structural copy. A cloned value keeps the same handles in its `Arc` fields.
- The `?` conversion of a dependency's error into `Box<dyn std::error::Error>` is the identity on an opaque error string.
- `pub mod codegen` (src/lib.rs:7) is not part of this model.
- Proc-macro plumbing is not modelled: `TokenStream`, `quote!` text, `parse_macro_input!`, `to_compile_error` (beany_codegen/src/lib.rs:10-32) and `syn` parsing. The textual difference between `async fn create` and `fn create -> impl Future { async move { .. } }` is not modelled either.
- Compile errors in the generated code are not modelled, for example an `Arc` field without exactly one generic argument, or a field type without the trait. `Wiring.DerivedCtor` gives `None` for an `Arc` field whose type argument cannot be read off, and for a tuple struct with fields (the generated `Self {}` leaves them unset), and such types stay out of the catalog.
- `Codegen.GetFields`: the `unwrap` of a named field's identifier is not modelled, because a named field always has one.
- RegistryProps.ResolveCoherent: the invariant is stated for one trait at a time. When both traits of a family (`Bean` and `TryBean`, say) fill the same map, the lemma does not relate one trait's cached instances to the other trait's constructors.
