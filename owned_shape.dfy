/**
  The owned shape tree: a fully owned, immutable description of a type's
  structure. `type_identifier` names the type, `def` classifies its container
  semantics and `ty` its payload.
*/
module OwnedShape {

  datatype Shape = Shape(typeIdentifier: string, def: Def, ty: Type)

  /** Container semantics; `Option` is the only nullability signal. */
  datatype Def =
    | Undefined
    | Scalar
    | Map(k: Shape, v: Shape)
    | Set(t: Shape)
    | List(t: Shape)
    | Array(t: Shape, n: nat)
    | Option(t: Shape)

  datatype NumericType = Integer(signed: bool) | Float

  datatype TextualType = Char | Str

  datatype PrimitiveType = Boolean | Numeric(numeric: NumericType) | Textual(textual: TextualType) | Never

  datatype Field = Field(name: string, shape: Shape, doc: seq<string>)

  datatype StructType = StructType(fields: seq<Field>)

  datatype UnionType = UnionType(fields: seq<Field>)

  datatype Variant = Variant(name: string, data: StructType, doc: seq<string>)

  datatype EnumType = EnumType(variants: seq<Variant>)

  datatype UserType = Struct(st: StructType) | Enum(en: EnumType) | Union(un: UnionType) | Opaque

  /** Payload kind. */
  datatype Type = Primitive(prim: PrimitiveType) | Sequence(t: Shape) | User(user: UserType)
}
