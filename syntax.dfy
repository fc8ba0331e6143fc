/**
 * The part of a derive macro's parsed input that the bean derivations look at:
 * the deriving item's name, whether it is a struct, enum or union, the kind of
 * its fields, and each named field's identifier and type.
 */
module Syntax {

  /** One segment of a type path, such as `Arc<Message>`: its identifier and generic arguments. */
  datatype Segment = Segment(ident: string, args: seq<Type>)

  /** A field type: a path (`std::sync::Arc<Message>`, `Messager`) or any other type form
      (reference, tuple, slice, ...), told apart by its text. */
  datatype Type = Path(segments: seq<Segment>) | Other(text: string)

  /** A named field as the parser delivers it; attributes are carried but never looked at. */
  datatype NamedField = NamedField(attrs: seq<string>, ident: string, ty: Type)

  datatype Fields = Named(named: seq<NamedField>) | Unnamed(unnamed: seq<Type>) | Unit

  datatype Data = Struct(fields: Fields) | Enum | Union

  datatype DeriveInput = DeriveInput(ident: string, data: Data)

  /** The type named by a single identifier without generic arguments, such as `Message`. */
  function Named1(name: string): Type
  {
    Path([Segment(name, [])])
  }

  /** `Arc<t>` written without a path prefix. */
  function ArcOf(t: Type): Type
  {
    Path([Segment("Arc", [t])])
  }
}
