/**
 * The four constructor contracts a type can implement (`Bean`, `AsyncBean`,
 * `TryBean`, `AsyncTryBean`) and the abstract shape of one constructor: the
 * dependencies it resolves, in order, through the same registry, and whether it
 * then reports an error of its own.
 */
module Beans {
  import opened Wrappers
  import opened Syntax

  datatype Trait = Bean | AsyncBean | TryBean | AsyncTryBean

  /** Which of the registry's two maps a trait's resolutions use. */
  datatype Family = Sync | Async

  function FamilyOf(tr: Trait): Family
  {
    if tr == Bean || tr == TryBean then Sync else Async
  }

  function OtherFamily(f: Family): Family
  {
    if f == Sync then Async else Sync
  }

  /** True for the traits whose `create` returns a `Result`. */
  predicate Fallible(tr: Trait)
  {
    tr == TryBean || tr == AsyncTryBean
  }

  /** The opaque error value a fallible constructor reports. */
  type Error = string

  /** How a dependency ends up in its field: the shared handle itself (an `Arc<T>` field),
      or a clone of the value behind the handle (a field of type `T`). */
  datatype Access = Shared | Cloned

  /** One dependency: the field it fills, how, and the type resolved for it. */
  datatype Dep = Dep(field: string, access: Access, key: Type)

  /** A constructor: resolve `deps` in order, then fail with `failure` if it is present. */
  datatype Ctor = Ctor(deps: seq<Dep>, failure: Option<Error>)
}
