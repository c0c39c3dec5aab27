/**
  The part of facet's reflection data that the schema compiler reads: a
  shape's type identifier, its layout size, its type kind, its generic type
  parameters and its pointee, plus the fields, attributes and variants of
  user-defined types.
*/
module Facet {
  import opened Wrappers

  datatype NumericType = Integer(signed: bool) | Float

  datatype TextualType = Char | Str

  datatype PrimitiveType = Boolean | Numeric(numeric: NumericType) | Textual(textual: TextualType) | Never

  /** How a struct or enum variant carries its data. */
  datatype StructKind = Unit | TupleStruct | Struct | Tuple

  /** A `#[facet(ns::key)]` field attribute; `ns` is absent for un-namespaced keys. */
  datatype Attr = Attr(ns: Option<string>, key: string)

  datatype Field = Field(name: string, shape: Shape, attributes: seq<Attr>)

  datatype Variant = Variant(name: string, kind: StructKind, fields: seq<Field>)

  datatype UserType = Struct(fields: seq<Field>) | Enum(variants: seq<Variant>) | Union | Opaque

  datatype Type = Primitive(prim: PrimitiveType) | Sequence | User(user: UserType) | Pointer

  /**
    A reflected type. `layoutSize` is the size of a sized layout and None for
    an unsized one; `inner` is the pointee of pointers and smart pointers.
  */
  datatype Shape = Shape(
    typeIdentifier: string,
    layoutSize: Option<nat>,
    ty: Type,
    typeParams: seq<Shape>,
    inner: Option<Shape>)
}
