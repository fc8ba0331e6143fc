/**
 * The decision procedure under the four derive macros: which fields a struct
 * has, whether a field's type is an `Arc`, and the initialiser each field gets
 * in the generated `create`.
 */
module Codegen {
  import opened Wrappers
  import opened Syntax
  import opened Beans

  /** A field the derivations fill: its identifier and its declared type. */
  datatype Field = Field(ident: string, ty: Type)

  const NotAStruct := "Bean can only be used on structs"

  /** The named fields of a parsed field list, identifier and type copied, in order. */
  function Project(named: seq<NamedField>): (r: seq<Field>)
    ensures |r| == |named|
    ensures forall i :: 0 <= i < |named| ==> r[i].ident == named[i].ident && r[i].ty == named[i].ty
  {
    if named == [] then [] else [Field(named[0].ident, named[0].ty)] + Project(named[1..])
  }

  /** The fields of a deriving item: an error for an enum or a union, no fields for a
      tuple or unit struct, and for a struct with named fields those fields in order. */
  function GetFields(input: DeriveInput): (r: Result<seq<Field>, string>)
    ensures r.Failure? <==> !input.data.Struct?
    ensures r.Failure? ==> r.error == NotAStruct
    ensures input.data.Struct? && !input.data.fields.Named? ==> r == Success([])
    ensures input.data.Struct? && input.data.fields.Named? ==>
      var named := input.data.fields.named;
      r.Success? && |r.value| == |named|
      && forall i :: 0 <= i < |named| ==> r.value[i] == Field(named[i].ident, named[i].ty)
  {
    match input.data
    case Struct(Named(named)) => Success(Project(named))
    case Struct(_) => Success([])
    case _ => Failure(NotAStruct)
  }

  /** True when the type is a path whose last segment is `Arc`. */
  function IsArcType(ty: Type): bool
  {
    match ty
    case Path(segments) => |segments| > 0 && segments[|segments| - 1].ident == "Arc"
    case Other(_) => false
  }

  /** The initialiser of one field in a generated constructor:
      `field: context.get()` (`access == Shared`, the resolved type left to inference from
      the field type) or `field: (*context.get::<ty>()).clone()` (`access == Cloned`).
      `call` is the trait whose registry operation is called (`get`, `get_async`, `try_get`,
      `try_get_async`), `awaited` marks `.await`, `propagated` marks `?`. */
  datatype Init = Init(field: string, access: Access, fieldTy: Type, call: Trait, awaited: bool, propagated: bool)

  function FieldInit(f: Field, tr: Trait): Init
  {
    Init(f.ident, if IsArcType(f.ty) then Shared else Cloned, f.ty, tr, (FamilyOf(tr) == Async), Fallible(tr))
  }

  /** One initialiser per field, in field order. */
  function FieldInits(fs: seq<Field>, tr: Trait): (r: seq<Init>)
    ensures |r| == |fs|
    ensures forall i :: 0 <= i < |fs| ==>
      r[i].field == fs[i].ident && r[i].fieldTy == fs[i].ty
      && (r[i].access == Shared <==> IsArcType(fs[i].ty))
      && r[i].call == tr && r[i].awaited == (FamilyOf(tr) == Async) && r[i].propagated == Fallible(tr)
  {
    if fs == [] then [] else [FieldInit(fs[0], tr)] + FieldInits(fs[1..], tr)
  }

  /** The generated `impl`: the struct it is for, the trait, the field initialisers, whether
      the struct literal is wrapped in `Ok`, and whether `type Error = Box<dyn Error>` is declared. */
  datatype Impl = Impl(self: string, tr: Trait, inits: seq<Init>, wrapsOk: bool, boxedError: bool)

  /** `impl_derive_bean`, `impl_derive_async_bean`, `impl_derive_try_bean` and
      `impl_derive_async_try_bean`, which differ only in the trait. */
  function ImplDerive(input: DeriveInput, tr: Trait): (r: Result<Impl, string>)
    ensures r.Failure? <==> !input.data.Struct?
    ensures r.Failure? ==> r.error == NotAStruct
    ensures r.Success? ==>
      r.value.self == input.ident && r.value.tr == tr
      && r.value.wrapsOk == Fallible(tr) && r.value.boxedError == Fallible(tr)
  {
    match GetFields(input)
    case Failure(e) => Failure(e)
    case Success(fs) => Success(Impl(input.ident, tr, FieldInits(fs, tr), Fallible(tr), Fallible(tr)))
  }

  // ---------------------------------------------------------------------------
  // Properties

  /** `IsArcType` holds exactly of the paths that end in a segment named `Arc`, whatever
      precedes it and whatever its generic arguments. */
  lemma IsArcTypeIff(ty: Type)
    ensures IsArcType(ty) <==> exists prefix: seq<Segment>, args: seq<Type> :: ty == Path(prefix + [Segment("Arc", args)])
  {
    if IsArcType(ty) {
      var segs := ty.segments;
      var last := segs[|segs| - 1];
      assert ty == Path(segs[..|segs| - 1] + [Segment("Arc", last.args)]);
    }
  }

  lemma IsArcTypeIgnoresPrefix(prefix: seq<Segment>, segs: seq<Segment>)
    requires segs != []
    ensures IsArcType(Path(prefix + segs)) == IsArcType(Path(segs))
  {
    assert (prefix + segs)[|prefix + segs| - 1] == segs[|segs| - 1];
  }

  lemma IsArcTypeNotOther(ty: Type)
    requires ty.Other? || ty == Path([])
    ensures !IsArcType(ty)
  {
  }

  /** Every named field yields exactly one initialiser, in field order: the shared handle
      when its type is an `Arc`, the cloned value of its own type otherwise. */
  lemma InitsFollowFields(input: DeriveInput, tr: Trait)
    requires input.data.Struct? && input.data.fields.Named?
    ensures var named := input.data.fields.named;
      var r := ImplDerive(input, tr);
      r.Success? && |r.value.inits| == |named|
      && forall i :: 0 <= i < |named| ==>
           var init := r.value.inits[i];
           init.field == named[i].ident && init.fieldTy == named[i].ty
           && (init.access == if IsArcType(named[i].ty) then Shared else Cloned)
  {
  }

  /** A tuple or a unit struct gets a constructor with no initialisers. */
  lemma NoNamedFieldsNoInits(input: DeriveInput, tr: Trait)
    requires input.data.Struct? && !input.data.fields.Named?
    ensures ImplDerive(input, tr) == Success(Impl(input.ident, tr, [], Fallible(tr), Fallible(tr)))
  {
  }

  /** The four derivations agree on everything but the registry operation called: the
      same success or failure, and the same fields with the same access in the same order.
      A fallible derivation propagates the error of every field and wraps the result in `Ok`;
      an async one awaits every field. */
  lemma DerivationsAgree(input: DeriveInput, tr1: Trait, tr2: Trait)
    ensures ImplDerive(input, tr1).Success? == ImplDerive(input, tr2).Success?
    ensures ImplDerive(input, tr1).Success? ==>
      var i1, i2 := ImplDerive(input, tr1).value.inits, ImplDerive(input, tr2).value.inits;
      |i1| == |i2|
      && forall i :: 0 <= i < |i1| ==>
           i1[i].field == i2[i].field && i1[i].access == i2[i].access && i1[i].fieldTy == i2[i].fieldTy
           && i1[i].call == tr1 && i1[i].propagated == Fallible(tr1) && i1[i].awaited == (FamilyOf(tr1) == Async)
  {
    if input.data.Struct? {
      var fs := GetFields(input).value;
      var i1, i2 := FieldInits(fs, tr1), FieldInits(fs, tr2);
      assert ImplDerive(input, tr1).value.inits == i1;
      assert ImplDerive(input, tr2).value.inits == i2;
      forall i | 0 <= i < |i1|
        ensures i1[i].field == i2[i].field && i1[i].access == i2[i].access && i1[i].fieldTy == i2[i].fieldTy
      {
        assert i1[i].field == fs[i].ident == i2[i].field;
      }
    }
  }
}
