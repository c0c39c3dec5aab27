/**
  The copy-on-write shape tree. It has the same structure as the owned tree,
  except that the `def` and `ty` children of a shape are held in a `BoxCow`:
  either borrowed from the reflection front end or owned. Both hold the same
  kind of value; which one it is matters only for how the tree is printed.
*/
module CowShape {

  /** A child that is either borrowed or owned; `value` is its content either way. */
  datatype BoxCow<T> = Borrowed(value: T) | Owned(value: T)

  datatype Shape = Shape(typeIdentifier: string, def: BoxCow<Def>, ty: BoxCow<Type>)

  datatype Def =
    | Undefined
    | Scalar
    | Map(k: Shape, v: Shape)
    | Set(t: Shape)
    | List(t: Shape)
    | Array(t: Shape, n: nat)
    | Option(t: Shape)

  datatype NumericType = Integer(signed: bool) | Float

  datatype TextualType = Char | Str

  datatype PrimitiveType = Boolean | Numeric(numeric: NumericType) | Textual(textual: TextualType) | Never

  datatype Field = Field(name: string, shape: Shape, doc: seq<string>)

  datatype StructType = StructType(fields: seq<Field>)

  datatype UnionType = UnionType(fields: seq<Field>)

  datatype Variant = Variant(name: string, data: StructType, doc: seq<string>)

  datatype EnumType = EnumType(variants: seq<Variant>)

  datatype UserType = Struct(st: StructType) | Enum(en: EnumType) | Union(un: UnionType) | Opaque

  datatype Type = Primitive(prim: PrimitiveType) | Sequence(t: Shape) | User(user: UserType)
}
