/**
  The `From` conversions between the copy-on-write and the owned shape trees.

  Cow -> Owned takes the content of every `BoxCow` child whether it is borrowed
  or owned; Owned -> Cow wraps every child as `Owned`. Both are
  structure-preserving maps: identifiers, names, docs, array lengths and the
  `signed` flag are copied, and field and variant lists keep their order.
*/
module ShapeConversion {
  import O = OwnedShape
  import C = CowShape

  // ---------------------------------------------------------------------------
  // Cow -> Owned
  // ---------------------------------------------------------------------------

  function ShapeToOwned(s: C.Shape): (r: O.Shape)
    ensures r.typeIdentifier == s.typeIdentifier
    decreases s, 2
  {
    O.Shape(s.typeIdentifier, DefToOwned(s.def.value), TypeToOwned(s.ty.value))
  }

  function DefToOwned(d: C.Def): (r: O.Def)
    ensures d.Undefined? <==> r.Undefined?
    ensures d.Scalar? <==> r.Scalar?
    ensures d.Map? <==> r.Map?
    ensures d.Set? <==> r.Set?
    ensures d.List? <==> r.List?
    ensures d.Option? <==> r.Option?
    ensures d.Array? <==> r.Array?
    ensures d.Array? ==> r.n == d.n
    decreases d, 2
  {
    match d
    case Undefined => O.Undefined
    case Scalar => O.Scalar
    case Map(k, v) => O.Map(ShapeToOwned(k), ShapeToOwned(v))
    case Set(t) => O.Set(ShapeToOwned(t))
    case List(t) => O.List(ShapeToOwned(t))
    case Array(t, n) => O.Array(ShapeToOwned(t), n)
    case Option(t) => O.Option(ShapeToOwned(t))
  }

  function TypeToOwned(t: C.Type): (r: O.Type)
    ensures t.Primitive? <==> r.Primitive?
    ensures t.Sequence? <==> r.Sequence?
    ensures t.User? <==> r.User?
    decreases t, 2
  {
    match t
    case Primitive(p) => O.Primitive(PrimitiveToOwned(p))
    case Sequence(e) => O.Sequence(ShapeToOwned(e))
    case User(u) => O.User(UserTypeToOwned(u))
  }

  function PrimitiveToOwned(p: C.PrimitiveType): (r: O.PrimitiveType)
    ensures p.Boolean? <==> r.Boolean?
    ensures p.Never? <==> r.Never?
    ensures p.Numeric? <==> r.Numeric?
    ensures p.Textual? <==> r.Textual?
    ensures p.Numeric? ==> (p.numeric.Float? <==> r.numeric.Float?)
    ensures p.Numeric? && p.numeric.Integer? ==> r.numeric.signed == p.numeric.signed
    ensures p.Textual? ==> (p.textual.Char? <==> r.textual.Char?)
  {
    match p
    case Boolean => O.Boolean
    case Numeric(n) => O.Numeric(NumericToOwned(n))
    case Textual(x) => O.Textual(TextualToOwned(x))
    case Never => O.Never
  }

  function NumericToOwned(n: C.NumericType): (r: O.NumericType)
    ensures n.Float? <==> r.Float?
    ensures n.Integer? ==> r.signed == n.signed
  {
    match n
    case Integer(signed) => O.Integer(signed)
    case Float => O.Float
  }

  function TextualToOwned(x: C.TextualType): (r: O.TextualType)
    ensures x.Char? <==> r.Char?
  {
    match x
    case Char => O.Char
    case Str => O.Str
  }

  function UserTypeToOwned(u: C.UserType): (r: O.UserType)
    ensures u.Struct? <==> r.Struct?
    ensures u.Enum? <==> r.Enum?
    ensures u.Union? <==> r.Union?
    ensures u.Opaque? <==> r.Opaque?
    decreases u, 2
  {
    match u
    case Struct(s) => O.Struct(StructToOwned(s))
    case Enum(e) => O.Enum(EnumToOwned(e))
    case Union(x) => O.Union(UnionToOwned(x))
    case Opaque => O.Opaque
  }

  function StructToOwned(s: C.StructType): (r: O.StructType)
    ensures |r.fields| == |s.fields|
    ensures forall i :: 0 <= i < |s.fields| ==> r.fields[i] == FieldToOwned(s.fields[i])
    decreases s, 2
  {
    O.StructType(seq(|s.fields|, i requires 0 <= i < |s.fields| => FieldToOwned(s.fields[i])))
  }

  function FieldToOwned(f: C.Field): (r: O.Field)
    ensures r.name == f.name && r.doc == f.doc
    decreases f, 2
  {
    O.Field(f.name, ShapeToOwned(f.shape), f.doc)
  }

  function EnumToOwned(e: C.EnumType): (r: O.EnumType)
    ensures |r.variants| == |e.variants|
    ensures forall i :: 0 <= i < |e.variants| ==> r.variants[i] == VariantToOwned(e.variants[i])
    decreases e, 2
  {
    O.EnumType(seq(|e.variants|, i requires 0 <= i < |e.variants| => VariantToOwned(e.variants[i])))
  }

  function VariantToOwned(v: C.Variant): (r: O.Variant)
    ensures r.name == v.name && r.doc == v.doc
    decreases v, 2
  {
    O.Variant(v.name, StructToOwned(v.data), v.doc)
  }

  function UnionToOwned(x: C.UnionType): (r: O.UnionType)
    ensures |r.fields| == |x.fields|
    ensures forall i :: 0 <= i < |x.fields| ==> r.fields[i] == FieldToOwned(x.fields[i])
    decreases x, 2
  {
    O.UnionType(seq(|x.fields|, i requires 0 <= i < |x.fields| => FieldToOwned(x.fields[i])))
  }

  // ---------------------------------------------------------------------------
  // Owned -> Cow
  // ---------------------------------------------------------------------------

  function ShapeToCow(s: O.Shape): (r: C.Shape)
    ensures r.typeIdentifier == s.typeIdentifier
    ensures r.def.Owned? && r.ty.Owned?
    decreases s, 2
  {
    C.Shape(s.typeIdentifier, C.Owned(DefToCow(s.def)), C.Owned(TypeToCow(s.ty)))
  }

  function DefToCow(d: O.Def): (r: C.Def)
    ensures d.Undefined? <==> r.Undefined?
    ensures d.Scalar? <==> r.Scalar?
    ensures d.Map? <==> r.Map?
    ensures d.Set? <==> r.Set?
    ensures d.List? <==> r.List?
    ensures d.Option? <==> r.Option?
    ensures d.Array? <==> r.Array?
    ensures d.Array? ==> r.n == d.n
    decreases d, 2
  {
    match d
    case Undefined => C.Undefined
    case Scalar => C.Scalar
    case Map(k, v) => C.Map(ShapeToCow(k), ShapeToCow(v))
    case Set(t) => C.Set(ShapeToCow(t))
    case List(t) => C.List(ShapeToCow(t))
    case Array(t, n) => C.Array(ShapeToCow(t), n)
    case Option(t) => C.Option(ShapeToCow(t))
  }

  function TypeToCow(t: O.Type): (r: C.Type)
    ensures t.Primitive? <==> r.Primitive?
    ensures t.Sequence? <==> r.Sequence?
    ensures t.User? <==> r.User?
    decreases t, 2
  {
    match t
    case Primitive(p) => C.Primitive(PrimitiveToCow(p))
    case Sequence(e) => C.Sequence(ShapeToCow(e))
    case User(u) => C.User(UserTypeToCow(u))
  }

  function PrimitiveToCow(p: O.PrimitiveType): (r: C.PrimitiveType)
    ensures p.Boolean? <==> r.Boolean?
    ensures p.Never? <==> r.Never?
    ensures p.Numeric? <==> r.Numeric?
    ensures p.Textual? <==> r.Textual?
    ensures p.Numeric? ==> (p.numeric.Float? <==> r.numeric.Float?)
    ensures p.Numeric? && p.numeric.Integer? ==> r.numeric.signed == p.numeric.signed
    ensures p.Textual? ==> (p.textual.Char? <==> r.textual.Char?)
  {
    match p
    case Boolean => C.Boolean
    case Numeric(n) => C.Numeric(NumericToCow(n))
    case Textual(x) => C.Textual(TextualToCow(x))
    case Never => C.Never
  }

  function NumericToCow(n: O.NumericType): (r: C.NumericType)
    ensures n.Float? <==> r.Float?
    ensures n.Integer? ==> r.signed == n.signed
  {
    match n
    case Integer(signed) => C.Integer(signed)
    case Float => C.Float
  }

  function TextualToCow(x: O.TextualType): (r: C.TextualType)
    ensures x.Char? <==> r.Char?
  {
    match x
    case Char => C.Char
    case Str => C.Str
  }

  function UserTypeToCow(u: O.UserType): (r: C.UserType)
    ensures u.Struct? <==> r.Struct?
    ensures u.Enum? <==> r.Enum?
    ensures u.Union? <==> r.Union?
    ensures u.Opaque? <==> r.Opaque?
    decreases u, 2
  {
    match u
    case Struct(s) => C.Struct(StructToCow(s))
    case Enum(e) => C.Enum(EnumToCow(e))
    case Union(x) => C.Union(UnionToCow(x))
    case Opaque => C.Opaque
  }

  function StructToCow(s: O.StructType): (r: C.StructType)
    ensures |r.fields| == |s.fields|
    ensures forall i :: 0 <= i < |s.fields| ==> r.fields[i] == FieldToCow(s.fields[i])
    decreases s, 2
  {
    C.StructType(seq(|s.fields|, i requires 0 <= i < |s.fields| => FieldToCow(s.fields[i])))
  }

  function FieldToCow(f: O.Field): (r: C.Field)
    ensures r.name == f.name && r.doc == f.doc
    decreases f, 2
  {
    C.Field(f.name, ShapeToCow(f.shape), f.doc)
  }

  function EnumToCow(e: O.EnumType): (r: C.EnumType)
    ensures |r.variants| == |e.variants|
    ensures forall i :: 0 <= i < |e.variants| ==> r.variants[i] == VariantToCow(e.variants[i])
    decreases e, 2
  {
    C.EnumType(seq(|e.variants|, i requires 0 <= i < |e.variants| => VariantToCow(e.variants[i])))
  }

  function VariantToCow(v: O.Variant): (r: C.Variant)
    ensures r.name == v.name && r.doc == v.doc
    decreases v, 2
  {
    C.Variant(v.name, StructToCow(v.data), v.doc)
  }

  function UnionToCow(x: O.UnionType): (r: C.UnionType)
    ensures |r.fields| == |x.fields|
    ensures forall i :: 0 <= i < |x.fields| ==> r.fields[i] == FieldToCow(x.fields[i])
    decreases x, 2
  {
    C.UnionType(seq(|x.fields|, i requires 0 <= i < |x.fields| => FieldToCow(x.fields[i])))
  }

  // ---------------------------------------------------------------------------
  // Re-tagging a cow tree: every BoxCow child becomes Owned (or Borrowed)
  // ---------------------------------------------------------------------------

  function Tag<T>(owned: bool, x: T): C.BoxCow<T> {
    if owned then C.Owned(x) else C.Borrowed(x)
  }

  /** The same tree with every `BoxCow` child tagged `Owned` (owned = true) or `Borrowed`. */
  function Retag(s: C.Shape, owned: bool): (r: C.Shape)
    ensures r.typeIdentifier == s.typeIdentifier
    decreases s, 2
  {
    C.Shape(s.typeIdentifier, Tag(owned, RetagDef(s.def.value, owned)), Tag(owned, RetagType(s.ty.value, owned)))
  }

  function RetagDef(d: C.Def, owned: bool): C.Def
    decreases d, 2
  {
    match d
    case Undefined => C.Undefined
    case Scalar => C.Scalar
    case Map(k, v) => C.Map(Retag(k, owned), Retag(v, owned))
    case Set(t) => C.Set(Retag(t, owned))
    case List(t) => C.List(Retag(t, owned))
    case Array(t, n) => C.Array(Retag(t, owned), n)
    case Option(t) => C.Option(Retag(t, owned))
  }

  function RetagType(t: C.Type, owned: bool): C.Type
    decreases t, 2
  {
    match t
    case Primitive(p) => C.Primitive(p)
    case Sequence(e) => C.Sequence(Retag(e, owned))
    case User(u) => C.User(RetagUser(u, owned))
  }

  function RetagUser(u: C.UserType, owned: bool): C.UserType
    decreases u, 2
  {
    match u
    case Struct(s) => C.Struct(RetagStruct(s, owned))
    case Enum(e) => C.Enum(C.EnumType(seq(|e.variants|, i requires 0 <= i < |e.variants| =>
                      C.Variant(e.variants[i].name, RetagStruct(e.variants[i].data, owned), e.variants[i].doc))))
    case Union(x) => C.Union(C.UnionType(RetagFields(x.fields, owned)))
    case Opaque => C.Opaque
  }

  function RetagStruct(s: C.StructType, owned: bool): C.StructType
    decreases s, 2
  {
    C.StructType(RetagFields(s.fields, owned))
  }

  function RetagFields(fs: seq<C.Field>, owned: bool): seq<C.Field>
    decreases fs, 1
  {
    seq(|fs|, i requires 0 <= i < |fs| => C.Field(fs[i].name, Retag(fs[i].shape, owned), fs[i].doc))
  }

  // ---------------------------------------------------------------------------
  // Round trips
  // ---------------------------------------------------------------------------

  /** Owned -> Cow -> Owned gives back the original owned shape. */
  lemma {:induction false} OwnedRoundTrip(s: O.Shape)
    ensures ShapeToOwned(ShapeToCow(s)) == s
    decreases s, 2
  {
    OwnedDefRoundTrip(s.def);
    OwnedTypeRoundTrip(s.ty);
  }

  lemma {:induction false} OwnedDefRoundTrip(d: O.Def)
    ensures DefToOwned(DefToCow(d)) == d
    decreases d, 2
  {
    match d
    case Undefined =>
    case Scalar =>
    case Map(k, v) => OwnedRoundTrip(k); OwnedRoundTrip(v);
    case Set(t) => OwnedRoundTrip(t);
    case List(t) => OwnedRoundTrip(t);
    case Array(t, n) => OwnedRoundTrip(t);
    case Option(t) => OwnedRoundTrip(t);
  }

  lemma {:induction false} OwnedTypeRoundTrip(t: O.Type)
    ensures TypeToOwned(TypeToCow(t)) == t
    decreases t, 2
  {
    match t
    case Primitive(p) =>
      match p {
        case Boolean =>
        case Never =>
        case Numeric(n) =>
        case Textual(x) =>
      }
    case Sequence(e) => OwnedRoundTrip(e);
    case User(u) =>
      match u {
        case Struct(st) => OwnedStructRoundTrip(st);
        case Enum(e) =>
          forall i | 0 <= i < |e.variants|
            ensures VariantToOwned(VariantToCow(e.variants[i])) == e.variants[i]
          {
            OwnedStructRoundTrip(e.variants[i].data);
          }
          assert EnumToOwned(EnumToCow(e)).variants == e.variants;
        case Union(x) =>
          OwnedFieldsRoundTrip(x.fields);
          assert UnionToOwned(UnionToCow(x)).fields == x.fields;
        case Opaque =>
      }
  }

  lemma {:induction false} OwnedStructRoundTrip(st: O.StructType)
    ensures StructToOwned(StructToCow(st)) == st
    decreases st, 2
  {
    OwnedFieldsRoundTrip(st.fields);
    assert StructToOwned(StructToCow(st)).fields == st.fields;
  }

  lemma {:induction false} OwnedFieldsRoundTrip(fs: seq<O.Field>)
    ensures forall i :: 0 <= i < |fs| ==> FieldToOwned(FieldToCow(fs[i])) == fs[i]
    decreases fs, 1
  {
    forall i | 0 <= i < |fs|
      ensures FieldToOwned(FieldToCow(fs[i])) == fs[i]
    {
      OwnedRoundTrip(fs[i].shape);
    }
  }

  /**
    Cow -> Owned -> Cow gives back the original tree with every child tagged
    `Owned`; for a tree that is owned throughout (which is what the reflection
    front end builds) that is the original tree itself.
  */
  lemma {:induction false} CowRoundTrip(s: C.Shape)
    ensures ShapeToCow(ShapeToOwned(s)) == Retag(s, true)
    ensures Retag(s, true) == s ==> ShapeToCow(ShapeToOwned(s)) == s
    decreases s, 2
  {
    CowDefRoundTrip(s.def.value);
    CowTypeRoundTrip(s.ty.value);
  }

  lemma {:induction false} CowDefRoundTrip(d: C.Def)
    ensures DefToCow(DefToOwned(d)) == RetagDef(d, true)
    decreases d, 2
  {
    match d
    case Undefined =>
    case Scalar =>
    case Map(k, v) => CowRoundTrip(k); CowRoundTrip(v);
    case Set(t) => CowRoundTrip(t);
    case List(t) => CowRoundTrip(t);
    case Array(t, n) => CowRoundTrip(t);
    case Option(t) => CowRoundTrip(t);
  }

  lemma {:induction false} CowTypeRoundTrip(t: C.Type)
    ensures TypeToCow(TypeToOwned(t)) == RetagType(t, true)
    decreases t, 2
  {
    match t
    case Primitive(p) =>
      match p {
        case Boolean =>
        case Never =>
        case Numeric(n) =>
        case Textual(x) =>
      }
    case Sequence(e) => CowRoundTrip(e);
    case User(u) =>
      match u {
        case Struct(st) => CowStructRoundTrip(st);
        case Enum(e) =>
          forall i | 0 <= i < |e.variants|
            ensures VariantToCow(VariantToOwned(e.variants[i]))
                 == C.Variant(e.variants[i].name, RetagStruct(e.variants[i].data, true), e.variants[i].doc)
          {
            CowStructRoundTrip(e.variants[i].data);
          }
        case Union(x) =>
          CowFieldsRoundTrip(x.fields);
          assert UnionToCow(UnionToOwned(x)).fields == RetagFields(x.fields, true);
        case Opaque =>
      }
  }

  lemma {:induction false} CowStructRoundTrip(st: C.StructType)
    ensures StructToCow(StructToOwned(st)) == RetagStruct(st, true)
    decreases st, 2
  {
    CowFieldsRoundTrip(st.fields);
    assert StructToCow(StructToOwned(st)).fields == RetagFields(st.fields, true);
  }

  lemma {:induction false} CowFieldsRoundTrip(fs: seq<C.Field>)
    ensures forall i :: 0 <= i < |fs| ==> FieldToCow(FieldToOwned(fs[i])) == RetagFields(fs, true)[i]
    decreases fs, 1
  {
    forall i | 0 <= i < |fs|
      ensures FieldToCow(FieldToOwned(fs[i])) == RetagFields(fs, true)[i]
    {
      CowRoundTrip(fs[i].shape);
    }
  }

  /**
    Whether a child is borrowed or owned makes no difference to the owned
    value it converts to, at any depth of the tree.
  */
  lemma {:induction false} OwnershipIrrelevant(s: C.Shape, owned: bool)
    ensures ShapeToOwned(Retag(s, owned)) == ShapeToOwned(s)
    decreases s, 2
  {
    RetagDefIrrelevant(s.def.value, owned);
    RetagTypeIrrelevant(s.ty.value, owned);
  }

  lemma {:induction false} RetagDefIrrelevant(d: C.Def, owned: bool)
    ensures DefToOwned(RetagDef(d, owned)) == DefToOwned(d)
    decreases d, 2
  {
    match d
    case Undefined =>
    case Scalar =>
    case Map(k, v) => OwnershipIrrelevant(k, owned); OwnershipIrrelevant(v, owned);
    case Set(t) => OwnershipIrrelevant(t, owned);
    case List(t) => OwnershipIrrelevant(t, owned);
    case Array(t, n) => OwnershipIrrelevant(t, owned);
    case Option(t) => OwnershipIrrelevant(t, owned);
  }

  lemma {:induction false} RetagTypeIrrelevant(t: C.Type, owned: bool)
    ensures TypeToOwned(RetagType(t, owned)) == TypeToOwned(t)
    decreases t, 2
  {
    match t
    case Primitive(p) =>
    case Sequence(e) => OwnershipIrrelevant(e, owned);
    case User(u) =>
      match u {
        case Struct(st) => RetagStructIrrelevant(st, owned);
        case Enum(e) =>
          var e' := RetagUser(u, owned).en;
          forall i | 0 <= i < |e.variants|
            ensures VariantToOwned(e'.variants[i]) == VariantToOwned(e.variants[i])
          {
            RetagStructIrrelevant(e.variants[i].data, owned);
          }
          assert EnumToOwned(e').variants == EnumToOwned(e).variants;
        case Union(x) =>
          RetagFieldsIrrelevant(x.fields, owned);
          assert UnionToOwned(C.UnionType(RetagFields(x.fields, owned))).fields == UnionToOwned(x).fields;
        case Opaque =>
      }
  }

  lemma {:induction false} RetagStructIrrelevant(st: C.StructType, owned: bool)
    ensures StructToOwned(RetagStruct(st, owned)) == StructToOwned(st)
    decreases st, 2
  {
    RetagFieldsIrrelevant(st.fields, owned);
    assert StructToOwned(RetagStruct(st, owned)).fields == StructToOwned(st).fields;
  }

  lemma {:induction false} RetagFieldsIrrelevant(fs: seq<C.Field>, owned: bool)
    ensures |RetagFields(fs, owned)| == |fs|
    ensures forall i :: 0 <= i < |fs| ==> FieldToOwned(RetagFields(fs, owned)[i]) == FieldToOwned(fs[i])
    decreases fs, 1
  {
    forall i | 0 <= i < |fs|
      ensures FieldToOwned(RetagFields(fs, owned)[i]) == FieldToOwned(fs[i])
    {
      OwnershipIrrelevant(fs[i].shape, owned);
    }
  }
}
