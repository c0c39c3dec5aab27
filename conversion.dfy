/**
  Compiling a reflected Rust type into relational tables
  (`TryFrom<&facet::Shape> for PartialSchema`).

  A struct becomes one table whose columns are its fields. An enum becomes a
  main table holding an identity key, a discriminant and one nullable
  reference column per data-carrying variant, plus one table per such
  variant; a check constraint keeps the discriminant and the reference
  columns in lockstep.
*/
module Conversion {
  import opened Wrappers
  import opened Text
  import F = Facet
  import opened SchemaModel

  /** Why a field type has no column type. */
  datatype Unsupported =
    | UnsizedInteger
    | UnsizedFloat
    | FloatSize(size: nat)
    | PointerType(typeIdentifier: string)
    | PrimitiveKind(prim: F.PrimitiveType)
    | TypeKind(typeIdentifier: string)
    | UserKind(typeIdentifier: string)

  datatype ConversionError =
    | UnsupportedType(reason: Unsupported)
    | NotAStruct(typeIdentifier: string)
    | MissingTypeInfo
    | MultiplePrimaryKeys(table: string, columns: seq<string>)

  // ---------------------------------------------------------------------------
  // Field types
  // ---------------------------------------------------------------------------

  /** `is_option_type`: recognised by name alone. */
  predicate IsOptionType(s: F.Shape) {
    Contains(s.typeIdentifier, "Option")
  }

  /**
    Any identifier with `Option` somewhere in it counts, such as
    `Vec<Option<u8>>`; one shorter than `Option` never does.
  */
  lemma OptionByName(s: F.Shape)
    ensures IsOptionType(s) <==> exists i :: OccursAt(s.typeIdentifier, "Option", i)
    ensures IsPrefix("Option", s.typeIdentifier) ==> IsOptionType(s)
    ensures |s.typeIdentifier| < 6 ==> !IsOptionType(s)
  {
    ContainsOccurs(s.typeIdentifier, "Option");
    if |s.typeIdentifier| < 6 {
      ContainsShort(s.typeIdentifier, "Option");
    }
  }

  predicate HasTupleFirstField(s: F.Shape) {
    s.ty.User? && s.ty.user.Enum? && |s.ty.user.variants| > 0
    && s.ty.user.variants[0].kind == F.Tuple && |s.ty.user.variants[0].fields| > 0
  }

  /**
    `get_option_inner_type`: the first type parameter, or else the first
    field of the first variant when that variant is a non-empty tuple.
  */
  function OptionInnerType(s: F.Shape): (r: Option<F.Shape>)
    ensures r.None? <==> s.typeParams == [] && !HasTupleFirstField(s)
    ensures s.typeParams != [] ==> r == Some(s.typeParams[0])
    ensures s.typeParams == [] && HasTupleFirstField(s) ==> r == Some(s.ty.user.variants[0].fields[0].shape)
  {
    if s.typeParams != [] then Some(s.typeParams[0])
    else if HasTupleFirstField(s) then Some(s.ty.user.variants[0].fields[0].shape)
    else None
  }

  /** The column types the compiler can produce for a field. */
  predicate IsColumnType(t: DataType) {
    t in {Boolean, SmallInt, Integer, BigInt, Real, DoublePrecision, Char(Some(1)), Text, Jsonb}
  }

  /** `primitive_to_data_type`; `layoutSize` is None for an unsized layout. */
  function PrimitiveToDataType(p: F.PrimitiveType, layoutSize: Option<nat>): (r: Result<DataType, ConversionError>)
    ensures r.Ok? ==> IsColumnType(r.value)
    ensures p.Numeric? && layoutSize.None? ==>
              r == Err(UnsupportedType(if p.numeric.Integer? then UnsizedInteger else UnsizedFloat))
    ensures p == F.Numeric(F.Float) && layoutSize.Some? ==>
              (r == Ok(Real) <==> layoutSize.value == 4)
              && (r == Ok(DoublePrecision) <==> layoutSize.value == 8)
              && (r.Err? <==> layoutSize.value != 4 && layoutSize.value != 8)
    ensures r.Err? <==>
              (p == F.Never || (p.Numeric? && layoutSize.None?)
               || (p == F.Numeric(F.Float) && layoutSize.Some? && layoutSize.value != 4 && layoutSize.value != 8))
    ensures p == F.Boolean ==> r == Ok(Boolean)
    ensures p == F.Textual(F.Char) ==> r == Ok(Char(Some(1)))
    ensures p == F.Textual(F.Str) ==> r == Ok(Text)
    ensures p.Numeric? && p.numeric.Integer? && layoutSize.Some? ==> r == Ok(IntegerDataType(layoutSize.value))
  {
    match p
    case Boolean => Ok(Boolean)
    case Numeric(n) =>
      if n.Integer? then
        if layoutSize.None? then Err(UnsupportedType(UnsizedInteger))
        else Ok(IntegerDataType(layoutSize.value))
      else
        if layoutSize.None? then Err(UnsupportedType(UnsizedFloat))
        else if layoutSize.value == 4 then Ok(Real)
        else if layoutSize.value == 8 then Ok(DoublePrecision)
        else Err(UnsupportedType(FloatSize(layoutSize.value)))
    case Textual(t) => if t == F.Char then Ok(Char(Some(1))) else Ok(Text)
    case Never => Err(UnsupportedType(PrimitiveKind(p)))
  }

  /** Integer columns by the Rust integer's size in bytes; the sign is not looked at. */
  function IntegerDataType(size: nat): DataType {
    if size == 1 || size == 2 then SmallInt
    else if size == 4 then Integer
    else BigInt
  }

  function Pow2(n: nat): (r: nat)
    ensures r >= 1
  {
    if n == 0 then 1 else 2 * Pow2(n - 1)
  }

  /** Width in bytes of the PostgreSQL integer types. */
  function PgIntegerBytes(t: DataType): nat
    requires t == SmallInt || t == Integer || t == BigInt
  {
    if t == SmallInt then 2 else if t == Integer then 4 else 8
  }

  /**
    Sized integers of 1, 2, 4 and 8 bytes go to the narrowest PostgreSQL
    integer type at least as wide; wider ones (i128, u128) get bigint.
  */
  lemma IntegerWidths(size: nat)
    ensures size in {1, 2, 4, 8} ==> PgIntegerBytes(IntegerDataType(size)) >= size
    ensures forall u | u in {SmallInt, Integer, BigInt} && size in {1, 2, 4, 8} && PgIntegerBytes(u) >= size ::
              PgIntegerBytes(u) >= PgIntegerBytes(IntegerDataType(size))
    ensures size !in {1, 2, 4} ==> IntegerDataType(size) == BigInt
  {
  }

  /** Largest value of a Rust integer of `size` bytes. */
  function RustMax(size: nat, signed: bool): nat
    requires size >= 1
  {
    if signed then Pow2(8 * size - 1) - 1 else Pow2(8 * size) - 1
  }

  lemma {:induction false} Pow2Monotone(a: nat, b: nat)
    requires a <= b
    ensures Pow2(a) <= Pow2(b)
    decreases b
  {
    if a < b {
      Pow2Monotone(a, b - 1);
    }
  }

  /**
    Signed integers of 1 to 8 bytes always fit their column (the column is at
    least as wide and also signed); unsigned integers of 2, 4 and 8 bytes
    do not: their largest value exceeds the column's largest value.
  */
  lemma IntegerRanges(size: nat, signed: bool)
    requires size in {1, 2, 4, 8}
    ensures var w := PgIntegerBytes(IntegerDataType(size));
            signed ==> RustMax(size, true) <= RustMax(w, true)
    ensures var w := PgIntegerBytes(IntegerDataType(size));
            !signed ==> (RustMax(size, false) <= RustMax(w, true) <==> size == 1)
  {
    var w := PgIntegerBytes(IntegerDataType(size));
    Pow2Monotone(8 * size - 1, 8 * w - 1);
    if !signed && size != 1 {
      assert w == size;
      assert Pow2(8 * size) == 2 * Pow2(8 * size - 1);
      assert Pow2(8 * size - 1) >= 1 by { Pow2Monotone(0, 8 * size - 1); }
    }
    if !signed && size == 1 {
      assert Pow2(8) == 256 && Pow2(15) == 32768;
    }
  }

  /** `String`, `...::String` or anything mentioning `alloc::string::String` */
  predicate IsStringIdentifier(id: string) {
    id == "String" || EndsWith(id, "::String") || Contains(id, "alloc::string::String")
  }

  /** Vectors and hash maps, recognised by name. */
  predicate IsCollectionIdentifier(id: string) {
    Contains(id, "Vec") || Contains(id, "::vec::Vec") || Contains(id, "HashMap")
  }

  /**
    `user_type_to_data_type`: the type identifier is looked at first
    (strings, then collections); only then the kind of user type.
  */
  function UserTypeToDataType(u: F.UserType, id: string): (r: Result<DataType, ConversionError>)
    ensures r == Ok(Text) <==> IsStringIdentifier(id)
    ensures r == Ok(Jsonb) <==> !IsStringIdentifier(id) && (IsCollectionIdentifier(id) || u.Struct?)
    ensures r == Ok(Integer) <==> !IsStringIdentifier(id) && !IsCollectionIdentifier(id) && u.Enum?
    ensures r.Err? <==> !IsStringIdentifier(id) && !IsCollectionIdentifier(id) && (u.Union? || u.Opaque?)
  {
    if IsStringIdentifier(id) then Ok(Text)
    else if Contains(id, "Vec") || Contains(id, "::vec::Vec") then Ok(Jsonb)
    else if Contains(id, "HashMap") then Ok(Jsonb)
    else match u
      case Struct(_) => Ok(Jsonb)
      case Enum(_) => Ok(Integer)
      case _ => Err(UnsupportedType(UserKind(id)))
  }

  /**
    `shape_to_data_type`: the column type of a field and whether it is
    nullable. An `Option` with a recognisable inner type takes the inner
    type's column type and is nullable; nothing else is nullable.
  */
  function ShapeToDataType(s: F.Shape): (r: Result<(DataType, bool), ConversionError>)
    ensures r.Ok? ==> IsColumnType(r.value.0)
    ensures r.Ok? && r.value.1 <==> IsOptionType(s) && OptionInnerType(s).Some? && ShapeToDataType(OptionInnerType(s).value).Ok?
    decreases s
  {
    var inner := if IsOptionType(s) then OptionInnerType(s) else None;
    if inner.Some? then
      match ShapeToDataType(inner.value)
      case Ok((t, _)) => Ok((t, true))
      case Err(e) => Err(e)
    else
      match s.ty
      case Primitive(p) =>
        (match PrimitiveToDataType(p, s.layoutSize)
         case Ok(t) => Ok((t, false))
         case Err(e) => Err(e))
      case User(u) =>
        (match UserTypeToDataType(u, s.typeIdentifier)
         case Ok(t) => Ok((t, false))
         case Err(e) => Err(e))
      case Pointer =>
        if s.inner.Some? && Contains(s.inner.value.typeIdentifier, "str") then Ok((Text, false))
        else if Contains(s.typeIdentifier, "str") then Ok((Text, false))
        else Err(UnsupportedType(PointerType(s.typeIdentifier)))
      case Sequence => Err(UnsupportedType(TypeKind(s.typeIdentifier)))
  }

  /**
    A shape that is not an `Option` with a recognisable inner type is never
    nullable: a primitive compiles as `primitive_to_data_type` does, a user
    type as `user_type_to_data_type` does, a pointer to text is `text`
    and any other pointer an error, and a sequence is an error.
  */
  lemma NonOptionDataType(s: F.Shape)
    requires !(IsOptionType(s) && OptionInnerType(s).Some?)
    ensures var r := ShapeToDataType(s);
            s.ty.Primitive? ==>
              var pr := PrimitiveToDataType(s.ty.prim, s.layoutSize);
              (r.Ok? <==> pr.Ok?) && (r.Ok? ==> r.value == (pr.value, false)) && (r.Err? ==> r.error == pr.error)
    ensures var r := ShapeToDataType(s);
            s.ty.User? ==>
              var ur := UserTypeToDataType(s.ty.user, s.typeIdentifier);
              (r.Ok? <==> ur.Ok?) && (r.Ok? ==> r.value == (ur.value, false)) && (r.Err? ==> r.error == ur.error)
    ensures var r := ShapeToDataType(s);
            s.ty.Pointer? ==>
              (r.Ok? <==> (s.inner.Some? && Contains(s.inner.value.typeIdentifier, "str")) || Contains(s.typeIdentifier, "str"))
              && (r.Ok? ==> r.value == (Text, false))
              && (r.Err? ==> r.error == UnsupportedType(PointerType(s.typeIdentifier)))
    ensures var r := ShapeToDataType(s);
            s.ty.Sequence? ==> r.Err? && r.error.UnsupportedType?
  {
  }

  /**
    An `Option` with a recognisable inner type is transparent: it compiles
    exactly as the inner type does, except that the column is nullable.
  */
  lemma OptionIsTransparent(s: F.Shape)
    requires IsOptionType(s) && OptionInnerType(s).Some?
    ensures var r := ShapeToDataType(s);
            var ri := ShapeToDataType(OptionInnerType(s).value);
            (r.Ok? <==> ri.Ok?)
            && (r.Ok? ==> r.value == (ri.value.0, true))
            && (r.Err? ==> r.error == ri.error)
  {
  }

  /** `field_to_column`: a plain column with no default, collation, generation or identity. */
  function FieldToColumn(f: F.Field): (r: Result<Column, ConversionError>)
    ensures r.Ok? <==> ShapeToDataType(f.shape).Ok?
    ensures r.Err? ==> r.error == ShapeToDataType(f.shape).error
    ensures r.Ok? ==> r.value.name == f.name
                      && (r.value.dataType, r.value.nullable) == ShapeToDataType(f.shape).value
                      && r.value.default.None? && r.value.collation.None?
                      && !r.value.isGenerated && !r.value.isIdentity
  {
    match ShapeToDataType(f.shape)
    case Ok((t, nullable)) => Ok(Column(f.name, t, None, nullable, None, false, None, false, None, None))
    case Err(e) => Err(e)
  }

  // ---------------------------------------------------------------------------
  // Fields to columns and primary key
  // ---------------------------------------------------------------------------

  /** `#[facet(psql::primary_key)]` */
  predicate IsPrimaryKeyAttr(a: F.Attr) {
    a.key == "primary_key" && a.ns == Some("psql")
  }

  predicate HasPrimaryKeyAttr(f: F.Field) {
    exists a :: a in f.attributes && IsPrimaryKeyAttr(a)
  }

  /** The field's name once per primary-key attribute it carries. */
  function PkMarks(name: string, attrs: seq<F.Attr>): (r: seq<string>)
    ensures forall x :: x in r ==> x == name
    ensures r != [] <==> exists a :: a in attrs && IsPrimaryKeyAttr(a)
    decreases |attrs|
  {
    if attrs == [] then []
    else
      var init := attrs[..|attrs| - 1];
      assert forall a :: a in attrs <==> a in init || a == attrs[|attrs| - 1];
      PkMarks(name, init) + (if IsPrimaryKeyAttr(attrs[|attrs| - 1]) then [name] else [])
  }

  /** The primary-key column names, in field order, as collected by `process_fields`. */
  function PkNames(fields: seq<F.Field>): seq<string>
    decreases |fields|
  {
    if fields == [] then []
    else PkNames(fields[..|fields| - 1]) + PkMarks(fields[|fields| - 1].name, fields[|fields| - 1].attributes)
  }

  /** The columns of all fields, in order, or the error of the first field that fails. */
  function FieldColumns(fields: seq<F.Field>): Result<seq<Column>, ConversionError>
    decreases |fields|
  {
    if fields == [] then Ok([])
    else
      match FieldColumns(fields[..|fields| - 1])
      case Err(e) => Err(e)
      case Ok(cs) =>
        match FieldToColumn(fields[|fields| - 1])
        case Err(e) => Err(e)
        case Ok(c) => Ok(cs + [c])
  }

  /** What `process_fields` returns: columns, then at most one primary-key column. */
  function ProcessedFields(fields: seq<F.Field>, tableName: string): Result<(seq<Column>, Option<PrimaryKey>), ConversionError> {
    match FieldColumns(fields)
    case Err(e) => Err(e)
    case Ok(cs) =>
      var pks := PkNames(fields);
      if |pks| > 1 then Err(MultiplePrimaryKeys(tableName, pks))
      else Ok((cs, if pks == [] then None else Some(PrimaryKey(None, pks))))
  }

  /** One column per field, in field order, each the field's own column. */
  lemma FieldColumnsPerField(fields: seq<F.Field>)
    ensures FieldColumns(fields).Ok? <==> forall i :: 0 <= i < |fields| ==> FieldToColumn(fields[i]).Ok?
    ensures FieldColumns(fields).Ok? ==>
              |FieldColumns(fields).value| == |fields|
              && forall i :: 0 <= i < |fields| ==> FieldColumns(fields).value[i] == FieldToColumn(fields[i]).value
  {
    FieldColumnsOk(fields);
    if FieldColumns(fields).Ok? {
      FieldColumnsValues(fields);
    }
  }

  lemma {:induction false} FieldColumnsOk(fields: seq<F.Field>)
    ensures FieldColumns(fields).Ok? <==> forall i :: 0 <= i < |fields| ==> FieldToColumn(fields[i]).Ok?
    decreases |fields|
  {
    if fields != [] {
      var n := |fields| - 1;
      var init := fields[..n];
      FieldColumnsOk(init);
      assert forall i :: 0 <= i < n ==> init[i] == fields[i];
    }
  }

  lemma {:induction false} FieldColumnsValues(fields: seq<F.Field>)
    requires FieldColumns(fields).Ok?
    ensures |FieldColumns(fields).value| == |fields|
    ensures forall i :: 0 <= i < |fields| ==>
              FieldToColumn(fields[i]).Ok? && FieldColumns(fields).value[i] == FieldToColumn(fields[i]).value
    decreases |fields|
  {
    if fields != [] {
      var n := |fields| - 1;
      var init := fields[..n];
      FieldColumnsValues(init);
      var cs := FieldColumns(init).value;
      var c := FieldToColumn(fields[n]).value;
      assert FieldColumns(fields).value == cs + [c];
      forall i | 0 <= i < |fields|
        ensures FieldToColumn(fields[i]).Ok? && FieldColumns(fields).value[i] == FieldToColumn(fields[i]).value
      {
        if i < n {
          assert init[i] == fields[i];
        }
      }
    }
  }

  /** The error reported is that of the first field whose type is not supported. */
  lemma {:induction false} FieldColumnsFirstError(fields: seq<F.Field>)
    requires FieldColumns(fields).Err?
    ensures exists i :: 0 <= i < |fields| && FieldToColumn(fields[i]).Err?
              && FieldColumns(fields).error == FieldToColumn(fields[i]).error
              && forall j :: 0 <= j < i ==> FieldToColumn(fields[j]).Ok?
    decreases |fields|
  {
    var init := fields[..|fields| - 1];
    assert forall i :: 0 <= i < |init| ==> init[i] == fields[i];
    if FieldColumns(init).Err? {
      FieldColumnsFirstError(init);
    } else {
      FieldColumnsPerField(init);
    }
  }

  /** The primary-key names are exactly the names of the fields marked as primary key. */
  lemma PkMarksMembers(name: string, attrs: seq<F.Attr>)
    ensures forall x :: x in PkMarks(name, attrs) <==> x == name && exists a :: a in attrs && IsPrimaryKeyAttr(a)
  {
    var marks := PkMarks(name, attrs);
    if marks != [] {
      assert marks[0] in marks;
    }
  }

  lemma PkNamesMembers(fields: seq<F.Field>)
    ensures forall x :: x in PkNames(fields) <==> exists i :: 0 <= i < |fields| && fields[i].name == x && HasPrimaryKeyAttr(fields[i])
  {
    forall x | x in PkNames(fields)
      ensures exists i :: 0 <= i < |fields| && fields[i].name == x && HasPrimaryKeyAttr(fields[i])
    {
      PkNamesSound(fields, x);
    }
    forall x, i | 0 <= i < |fields| && fields[i].name == x && HasPrimaryKeyAttr(fields[i])
      ensures x in PkNames(fields)
    {
      PkNamesComplete(fields, i);
    }
  }

  lemma {:induction false} PkNamesSound(fields: seq<F.Field>, x: string)
    requires x in PkNames(fields)
    ensures exists i :: 0 <= i < |fields| && fields[i].name == x && HasPrimaryKeyAttr(fields[i])
    decreases |fields|
  {
    var n := |fields| - 1;
    var init := fields[..n];
    var last := fields[n];
    assert PkNames(fields) == PkNames(init) + PkMarks(last.name, last.attributes);
    if x in PkNames(init) {
      PkNamesSound(init, x);
      var i :| 0 <= i < |init| && init[i].name == x && HasPrimaryKeyAttr(init[i]);
      assert fields[i] == init[i];
    } else {
      PkMarksMembers(last.name, last.attributes);
      assert fields[n].name == x && HasPrimaryKeyAttr(fields[n]);
    }
  }

  lemma {:induction false} PkNamesComplete(fields: seq<F.Field>, i: nat)
    requires i < |fields| && HasPrimaryKeyAttr(fields[i])
    ensures fields[i].name in PkNames(fields)
    decreases |fields|
  {
    var n := |fields| - 1;
    var init := fields[..n];
    var last := fields[n];
    assert PkNames(fields) == PkNames(init) + PkMarks(last.name, last.attributes);
    if i < n {
      assert init[i] == fields[i];
      PkNamesComplete(init, i);
    } else {
      PkMarksMembers(last.name, last.attributes);
    }
  }

  /** Two distinct marked fields always make the primary key ambiguous. */
  lemma {:induction false} PkNamesTwoMarked(fields: seq<F.Field>, i: nat, j: nat)
    requires i < j < |fields| && HasPrimaryKeyAttr(fields[i]) && HasPrimaryKeyAttr(fields[j])
    ensures |PkNames(fields)| >= 2
    decreases |fields|
  {
    var init := fields[..|fields| - 1];
    assert forall k :: 0 <= k < |init| ==> init[k] == fields[k];
    var last := fields[|fields| - 1];
    if j < |fields| - 1 {
      PkNamesTwoMarked(init, i, j);
    } else {
      PkNamesMembers(init);
      assert fields[i].name in PkNames(init);
      assert PkMarks(last.name, last.attributes) != [];
    }
  }

  /**
    `process_fields` yields one column per field, in field order, each the
    field's own column.
  */
  lemma ProcessedFieldsColumns(fields: seq<F.Field>, tableName: string)
    ensures var r := ProcessedFields(fields, tableName);
            r.Ok? ==> |r.value.0| == |fields|
                      && (forall i :: 0 <= i < |fields| ==> FieldToColumn(fields[i]).Ok? && r.value.0[i] == FieldToColumn(fields[i]).value)
  {
    FieldColumnsPerField(fields);
  }

  /** The primary key, when present, is the one marked field; when absent, no field is marked. */
  lemma ProcessedFieldsKey(fields: seq<F.Field>, tableName: string)
    ensures var r := ProcessedFields(fields, tableName);
            r.Ok? && r.value.1.Some? ==>
              exists i :: 0 <= i < |fields| && HasPrimaryKeyAttr(fields[i]) && r.value.1.value == PrimaryKey(None, [fields[i].name])
    ensures var r := ProcessedFields(fields, tableName);
            r.Ok? && r.value.1.None? ==> forall i :: 0 <= i < |fields| ==> !HasPrimaryKeyAttr(fields[i])
  {
    PkNamesMembers(fields);
    var pks := PkNames(fields);
    var r := ProcessedFields(fields, tableName);
    if r.Ok? {
      if |pks| == 1 {
        assert pks[0] in pks;
      } else {
        assert pks == [];
        forall i | 0 <= i < |fields| ensures !HasPrimaryKeyAttr(fields[i]) {
          assert fields[i].name !in pks;
        }
      }
    }
  }

  /** Two marked fields are rejected once all columns are built. */
  lemma ProcessedFieldsTwoKeys(fields: seq<F.Field>, tableName: string, i: nat, j: nat)
    requires i < j < |fields| && HasPrimaryKeyAttr(fields[i]) && HasPrimaryKeyAttr(fields[j])
    requires FieldColumns(fields).Ok?
    ensures ProcessedFields(fields, tableName) == Err(MultiplePrimaryKeys(tableName, PkNames(fields)))
  {
    PkNamesTwoMarked(fields, i, j);
  }

  lemma FieldColumnsStep(fields: seq<F.Field>, i: nat)
    requires i < |fields|
    ensures FieldColumns(fields[..i + 1])
            == match FieldColumns(fields[..i])
               case Err(e) => Err(e)
               case Ok(cs) =>
                 match FieldToColumn(fields[i])
                 case Err(e) => Err(e)
                 case Ok(c) => Ok(cs + [c])
  {
    assert fields[..i + 1][..i] == fields[..i];
  }

  lemma PkNamesStep(fields: seq<F.Field>, i: nat)
    requires i < |fields|
    ensures PkNames(fields[..i + 1]) == PkNames(fields[..i]) + PkMarks(fields[i].name, fields[i].attributes)
  {
    assert fields[..i + 1][..i] == fields[..i];
  }

  lemma PkMarksStep(name: string, attrs: seq<F.Attr>, j: nat)
    requires j < |attrs|
    ensures PkMarks(name, attrs[..j + 1]) == PkMarks(name, attrs[..j]) + (if IsPrimaryKeyAttr(attrs[j]) then [name] else [])
  {
    assert attrs[..j + 1][..j] == attrs[..j];
  }

  /** The inner loop of `process_fields`: the field's name once per `psql::primary_key` attribute. */
  method FieldPkMarks(field: F.Field) returns (marks: seq<string>)
    ensures marks == PkMarks(field.name, field.attributes)
  {
    marks := [];
    for j := 0 to |field.attributes|
      invariant marks == PkMarks(field.name, field.attributes[..j])
    {
      PkMarksStep(field.name, field.attributes, j);
      var attr := field.attributes[j];
      if attr.key == "primary_key" && attr.ns == Some("psql") {
        marks := marks + [field.name];
      }
    }
    assert field.attributes[..|field.attributes|] == field.attributes;
  }

  /** `process_fields` */
  method ProcessFields(fields: seq<F.Field>, tableName: string) returns (r: Result<(seq<Column>, Option<PrimaryKey>), ConversionError>)
    ensures r == ProcessedFields(fields, tableName)
  {
    var columns: seq<Column> := [];
    var pkColumns: seq<string> := [];
    for i := 0 to |fields|
      invariant FieldColumns(fields[..i]) == Ok(columns)
      invariant pkColumns == PkNames(fields[..i])
    {
      FieldColumnsStep(fields, i);
      PkNamesStep(fields, i);
      var field := fields[i];
      var column := FieldToColumn(field);
      if column.Err? {
        FieldColumnsErrSticky(fields, i + 1);
        return Err(column.error);
      }
      columns := columns + [column.value];
      var marks := FieldPkMarks(field);
      pkColumns := pkColumns + marks;
    }
    assert fields[..|fields|] == fields;
    if |pkColumns| > 1 {
      return Err(MultiplePrimaryKeys(tableName, pkColumns));
    }
    var primaryKey := if pkColumns != [] then Some(PrimaryKey(None, pkColumns)) else None;
    r := Ok((columns, primaryKey));
  }

  /** Once a prefix of the fields fails, the whole list fails the same way. */
  lemma {:induction false} FieldColumnsErrSticky(fields: seq<F.Field>, n: nat)
    requires n <= |fields| && FieldColumns(fields[..n]).Err?
    ensures FieldColumns(fields) == FieldColumns(fields[..n])
    decreases |fields| - n
  {
    if n < |fields| {
      assert fields[..n + 1][..n] == fields[..n];
      FieldColumnsErrSticky(fields, n + 1);
    } else {
      assert fields[..n] == fields;
    }
  }

  // ---------------------------------------------------------------------------
  // Structs
  // ---------------------------------------------------------------------------

  /** The table of a struct: named by its lower-cased type identifier, no constraints besides the key. */
  function StructTable(s: F.Shape, fields: seq<F.Field>): (r: Result<Table, ConversionError>)
    ensures r.Ok? ==> r.value.name == ToLower(s.typeIdentifier)
                      && |r.value.columns| == |fields|
                      && r.value.uniques == [] && r.value.foreignKeys == [] && r.value.checks == []
    ensures r.Ok? <==> FieldColumns(fields).Ok? && |PkNames(fields)| <= 1
    ensures r.Ok? ==> forall i :: 0 <= i < |fields| ==> Ok(r.value.columns[i]) == FieldToColumn(fields[i])
    ensures r.Ok? && r.value.primaryKey.Some? ==>
              exists i :: 0 <= i < |fields| && HasPrimaryKeyAttr(fields[i]) && r.value.primaryKey.value == PrimaryKey(None, [fields[i].name])
    ensures r.Ok? && r.value.primaryKey.None? ==> forall i :: 0 <= i < |fields| ==> !HasPrimaryKeyAttr(fields[i])
    ensures r.Err? && FieldColumns(fields).Err? ==> r.error == FieldColumns(fields).error
    ensures r.Err? && FieldColumns(fields).Ok? ==> r.error == MultiplePrimaryKeys(ToLower(s.typeIdentifier), PkNames(fields))
  {
    var name := ToLower(s.typeIdentifier);
    ProcessedFieldsColumns(fields, name);
    ProcessedFieldsKey(fields, name);
    match ProcessedFields(fields, name)
    case Err(e) => Err(e)
    case Ok((columns, primaryKey)) => Ok(Table(name, columns, primaryKey, [], [], [], None))
  }

  /** `shape_to_table` */
  method ShapeToTable(s: F.Shape) returns (r: Result<Table, ConversionError>)
    ensures !(s.ty.User? && s.ty.user.Struct?) ==> r == Err(NotAStruct(s.typeIdentifier))
    ensures s.ty.User? && s.ty.user.Struct? ==> r == StructTable(s, s.ty.user.fields)
  {
    if !(s.ty.User? && s.ty.user.Struct?) {
      return Err(NotAStruct(s.typeIdentifier));
    }
    var tableName := ToLower(s.typeIdentifier);
    var processed := ProcessFields(s.ty.user.fields, tableName);
    if processed.Err? {
      return Err(processed.error);
    }
    var (columns, primaryKey) := processed.value;
    r := Ok(Table(tableName, columns, primaryKey, [], [], [], None));
  }

  // ---------------------------------------------------------------------------
  // Enums
  // ---------------------------------------------------------------------------

  function IdColumn(): Column {
    Column("id", BigSerial, None, false, None, true, None, true, Some(Always), None)
  }

  function DiscriminantColumn(): Column {
    Column("discriminant", Integer, None, false, None, false, None, false, None, Some("Discriminant for enum variant"))
  }

  predicate IsDataVariant(v: F.Variant) {
    v.kind != F.Unit
  }

  function VariantTableName(base: string, v: F.Variant): string {
    base + "_" + ToLower(v.name)
  }

  function VariantIdColumnName(v: F.Variant): string {
    ToLower(v.name) + "_id"
  }

  /** The nullable reference column the main table holds for a data variant. */
  function VariantIdColumn(v: F.Variant): Column {
    Column(VariantIdColumnName(v), BigInt, None, true, None, false, None, false, None, None)
  }

  function VariantForeignKey(base: string, v: F.Variant): ForeignKey {
    ForeignKey(None, [VariantIdColumnName(v)], QualifiedName(None, VariantTableName(base, v)),
               Some(["id"]), Some(Cascade), Some(NoAction))
  }

  /**
    The table of a data variant: an identity key `id` followed by the
    variant's field columns. A primary-key attribute on a variant field is not
    used, but two of them are still an error.
  */
  function VariantTable(base: string, v: F.Variant): (r: Result<Table, ConversionError>)
    ensures r.Ok? <==> ProcessedFields(v.fields, VariantTableName(base, v)).Ok?
    ensures r.Err? ==> r.error == ProcessedFields(v.fields, VariantTableName(base, v)).error
    ensures r.Ok? ==> r.value.name == VariantTableName(base, v)
                      && r.value.columns == [IdColumn()] + FieldColumns(v.fields).value
                      && r.value.primaryKey == Some(PrimaryKey(None, ["id"]))
                      && r.value.foreignKeys == [] && r.value.checks == []
  {
    var name := VariantTableName(base, v);
    match ProcessedFields(v.fields, name)
    case Err(e) => Err(e)
    case Ok((columns, _)) => Ok(Table(name, [IdColumn()] + columns, Some(PrimaryKey(None, ["id"])), [], [], [], None))
  }

  function DataVariants(vs: seq<F.Variant>): (r: seq<F.Variant>)
    ensures |r| <= |vs|
    ensures forall v :: v in r ==> IsDataVariant(v)
    decreases |vs|
  {
    if vs == [] then []
    else DataVariants(vs[..|vs| - 1]) + (if IsDataVariant(vs[|vs| - 1]) then [vs[|vs| - 1]] else [])
  }

  /** The variant tables, in variant order, or the error of the first variant that fails. */
  function VariantTables(base: string, vs: seq<F.Variant>): Result<seq<Table>, ConversionError>
    decreases |vs|
  {
    if vs == [] then Ok([])
    else
      match VariantTables(base, vs[..|vs| - 1])
      case Err(e) => Err(e)
      case Ok(ts) =>
        var v := vs[|vs| - 1];
        if !IsDataVariant(v) then Ok(ts)
        else match VariantTable(base, v)
          case Err(e) => Err(e)
          case Ok(t) => Ok(ts + [t])
  }

  function RefColumns(vs: seq<F.Variant>): seq<Column>
    decreases |vs|
  {
    if vs == [] then []
    else RefColumns(vs[..|vs| - 1]) + (if IsDataVariant(vs[|vs| - 1]) then [VariantIdColumn(vs[|vs| - 1])] else [])
  }

  function RefForeignKeys(base: string, vs: seq<F.Variant>): seq<ForeignKey>
    decreases |vs|
  {
    if vs == [] then []
    else RefForeignKeys(base, vs[..|vs| - 1])
         + (if IsDataVariant(vs[|vs| - 1]) then [VariantForeignKey(base, vs[|vs| - 1])] else [])
  }

  /**
    The lockstep clauses: for each data variant, its position among all
    variants (unit variants included) and its reference column.
  */
  function ClausePairs(vs: seq<F.Variant>): seq<(nat, string)>
    decreases |vs|
  {
    if vs == [] then []
    else ClausePairs(vs[..|vs| - 1])
         + (if IsDataVariant(vs[|vs| - 1]) then [(|vs| - 1, VariantIdColumnName(vs[|vs| - 1]))] else [])
  }

  function CheckClause(index: nat, column: string): string {
    "(CASE WHEN discriminant = " + NatToString(index) + " THEN " + column + " IS NOT NULL ELSE "
      + column + " IS NULL END)"
  }

  function RenderClausePairs(pairs: seq<(nat, string)>): (r: seq<string>)
    ensures |r| == |pairs|
    ensures forall k :: 0 <= k < |pairs| ==> r[k] == CheckClause(pairs[k].0, pairs[k].1)
    decreases |pairs|
  {
    if pairs == [] then []
    else
      var init := pairs[..|pairs| - 1];
      var p := pairs[|pairs| - 1];
      assert forall k :: 0 <= k < |init| ==> init[k] == pairs[k];
      RenderClausePairs(init) + [CheckClause(p.0, p.1)]
  }

  function CheckExpression(vs: seq<F.Variant>): string {
    var parts := RenderClausePairs(ClausePairs(vs));
    if parts == [] then "1=1" else Join(parts, " AND ")
  }

  /** The main table: `id`, `discriminant`, then one reference column and foreign key per data variant. */
  function MainTable(base: string, vs: seq<F.Variant>): Table {
    Table(base, [IdColumn(), DiscriminantColumn()] + RefColumns(vs), Some(PrimaryKey(None, ["id"])), [],
          RefForeignKeys(base, vs), [CheckConstraint(Some("variant_integrity"), CheckExpression(vs), false)], None)
  }

  /** What `enum_to_partial_schema` returns: the variant tables, then the main table last. */
  function EnumSchema(base: string, vs: seq<F.Variant>): Result<PartialSchema, ConversionError> {
    match VariantTables(base, vs)
    case Err(e) => Err(e)
    case Ok(ts) => Ok(PartialSchema(ts + [MainTable(base, vs)]))
  }

  lemma {:induction false} VariantTablesErrSticky(base: string, vs: seq<F.Variant>, n: nat)
    requires n <= |vs| && VariantTables(base, vs[..n]).Err?
    ensures VariantTables(base, vs) == VariantTables(base, vs[..n])
    decreases |vs| - n
  {
    if n < |vs| {
      assert vs[..n + 1][..n] == vs[..n];
      VariantTablesErrSticky(base, vs, n + 1);
    } else {
      assert vs[..n] == vs;
    }
  }

  lemma CheckPartsStep(vs: seq<F.Variant>, i: nat)
    requires i < |vs|
    ensures RenderClausePairs(ClausePairs(vs[..i + 1]))
            == RenderClausePairs(ClausePairs(vs[..i]))
               + (if IsDataVariant(vs[i]) then [CheckClause(i, VariantIdColumnName(vs[i]))] else [])
  {
    var pre := vs[..i + 1];
    assert pre[..i] == vs[..i];
    var pairs := ClausePairs(pre);
    if IsDataVariant(vs[i]) {
      assert pairs[..|pairs| - 1] == ClausePairs(vs[..i]);
    }
  }

  /** The lockstep clauses of the check constraint, one per data variant, in variant order. */
  method CheckParts(variants: seq<F.Variant>) returns (checkParts: seq<string>)
    ensures checkParts == RenderClausePairs(ClausePairs(variants))
  {
    checkParts := [];
    for index := 0 to |variants|
      invariant checkParts == RenderClausePairs(ClausePairs(variants[..index]))
    {
      CheckPartsStep(variants, index);
      var variant := variants[index];
      if variant.kind != F.Unit {
        var colName := ToLower(variant.name) + "_id";
        checkParts := checkParts + [CheckClause(index, colName)];
      }
    }
    assert variants[..|variants|] == variants;
  }

  /** `enum_to_partial_schema` */
  method EnumToPartialSchema(s: F.Shape, variants: seq<F.Variant>) returns (r: Result<PartialSchema, ConversionError>)
    ensures r == EnumSchema(ToLower(s.typeIdentifier), variants)
  {
    var base := ToLower(s.typeIdentifier);
    var tables: seq<Table> := [];
    var foreignKeys: seq<ForeignKey> := [];
    var mainColumns := [IdColumn(), DiscriminantColumn()];
    for i := 0 to |variants|
      invariant VariantTables(base, variants[..i]) == Ok(tables)
      invariant foreignKeys == RefForeignKeys(base, variants[..i])
      invariant mainColumns == [IdColumn(), DiscriminantColumn()] + RefColumns(variants[..i])
    {
      assert variants[..i + 1][..i] == variants[..i];
      var variant := variants[i];
      var variantName := ToLower(variant.name);
      var variantTableName := base + "_" + variantName;
      if variant.kind != F.Unit {
        var processed := ProcessFields(variant.fields, variantTableName);
        if processed.Err? {
          VariantTablesErrSticky(base, variants, i + 1);
          return Err(processed.error);
        }
        var (fieldColumns, _) := processed.value;
        var variantTable := Table(variantTableName, [IdColumn()] + fieldColumns,
                                  Some(PrimaryKey(None, ["id"])), [], [], [], None);
        tables := tables + [variantTable];
        var fkColumnName := variantName + "_id";
        mainColumns := mainColumns + [Column(fkColumnName, BigInt, None, true, None, false, None, false, None, None)];
        foreignKeys := foreignKeys + [ForeignKey(None, [fkColumnName], QualifiedName(None, variantTableName),
                                                 Some(["id"]), Some(Cascade), Some(NoAction))];
      }
    }
    assert variants[..|variants|] == variants;
    var checkParts := CheckParts(variants);
    var checkExpression := if checkParts == [] then "1=1" else Join(checkParts, " AND ");
    var mainTable := Table(base, mainColumns, Some(PrimaryKey(None, ["id"])), [], foreignKeys,
                           [CheckConstraint(Some("variant_integrity"), checkExpression, false)], None);
    r := Ok(PartialSchema(tables + [mainTable]));
  }

  // ---------------------------------------------------------------------------
  // Properties of the enum layout
  // ---------------------------------------------------------------------------

  /** The data variants in order, each with its position in the full variant list. */
  lemma {:induction false} DataVariantsSpec(vs: seq<F.Variant>)
    ensures forall k :: 0 <= k < |DataVariants(vs)| ==> DataVariants(vs)[k] in vs
    ensures forall v :: v in vs && IsDataVariant(v) ==> v in DataVariants(vs)
    decreases |vs|
  {
    if vs != [] {
      DataVariantsSpec(vs[..|vs| - 1]);
      assert forall v :: v in vs <==> v in vs[..|vs| - 1] || v == vs[|vs| - 1];
    }
  }

  /**
    Selecting data variants is an order-preserving filter: it keeps a single
    variant iff it carries data, and distributes over concatenation.
  */
  lemma {:induction false} DataVariantsFilter(a: seq<F.Variant>, b: seq<F.Variant>)
    ensures |a| == 1 ==> DataVariants(a) == if IsDataVariant(a[0]) then a else []
    ensures DataVariants(a + b) == DataVariants(a) + DataVariants(b)
    decreases |b|
  {
    if |a| == 1 {
      assert a[..0] == [];
    }
    if b == [] {
      assert a + b == a;
    } else {
      var init := b[..|b| - 1];
      DataVariantsFilter(a, init);
      assert (a + b)[..|a + b| - 1] == a + init;
      assert (a + b)[|a + b| - 1] == b[|b| - 1];
    }
  }

  /** Reference columns and foreign keys line up one-to-one with the data variants, in variant order. */
  lemma {:induction false} RefPartsAligned(base: string, vs: seq<F.Variant>)
    ensures |RefColumns(vs)| == |RefForeignKeys(base, vs)| == |DataVariants(vs)|
    ensures forall k :: 0 <= k < |DataVariants(vs)| ==>
              RefColumns(vs)[k] == VariantIdColumn(DataVariants(vs)[k])
              && RefForeignKeys(base, vs)[k] == VariantForeignKey(base, DataVariants(vs)[k])
    decreases |vs|
  {
    if vs != [] {
      var init := vs[..|vs| - 1];
      RefPartsAligned(base, init);
    }
  }

  /** Variant tables line up one-to-one with the data variants, in variant order. */
  lemma {:induction false} VariantTablesAligned(base: string, vs: seq<F.Variant>)
    ensures VariantTables(base, vs).Ok? <==>
              forall k :: 0 <= k < |DataVariants(vs)| ==> VariantTable(base, DataVariants(vs)[k]).Ok?
    ensures VariantTables(base, vs).Ok? ==>
              |VariantTables(base, vs).value| == |DataVariants(vs)|
              && forall k :: 0 <= k < |DataVariants(vs)| ==>
                   VariantTable(base, DataVariants(vs)[k]).Ok?
                   && VariantTables(base, vs).value[k] == VariantTable(base, DataVariants(vs)[k]).value
    decreases |vs|
  {
    if vs != [] {
      var init := vs[..|vs| - 1];
      VariantTablesAligned(base, init);
      var d := DataVariants(init);
      var last := vs[|vs| - 1];
      assert DataVariants(vs) == d + (if IsDataVariant(last) then [last] else []);
      assert forall k :: 0 <= k < |d| ==> DataVariants(vs)[k] == d[k];
      if IsDataVariant(last) {
        assert DataVariants(vs)[|d|] == last;
      }
    }
  }

  /**
    A successful enum compilation yields one table per data variant, in
    variant order, then the main table; the main table's k-th foreign key
    goes from the k-th reference column to the k-th variant table's `id`.
  */
  lemma EnumSchemaLayout(base: string, vs: seq<F.Variant>)
    requires EnumSchema(base, vs).Ok?
    ensures var ts := EnumSchema(base, vs).value.tables;
            var dv := DataVariants(vs);
            |ts| == |dv| + 1
            && ts[|ts| - 1] == MainTable(base, vs)
            && ts[|ts| - 1].name == base
            && ts[|ts| - 1].columns[..2] == [IdColumn(), DiscriminantColumn()]
            && |ts[|ts| - 1].columns| == |dv| + 2
            && |ts[|ts| - 1].foreignKeys| == |dv|
            && forall k :: 0 <= k < |dv| ==>
                 ts[k].name == VariantTableName(base, dv[k])
                 && |ts[k].columns| > 0 && ts[k].columns[0] == IdColumn()
                 && ts[|ts| - 1].columns[k + 2].name == VariantIdColumnName(dv[k])
                 && ts[|ts| - 1].columns[k + 2].nullable
                 && ts[|ts| - 1].foreignKeys[k].columns == [ts[|ts| - 1].columns[k + 2].name]
                 && ts[|ts| - 1].foreignKeys[k].referencedTable == QualifiedName(None, ts[k].name)
                 && ts[|ts| - 1].foreignKeys[k].referencedColumns == Some(["id"])
  {
    RefPartsAligned(base, vs);
    VariantTablesAligned(base, vs);
  }

  /** The compilation fails exactly when some data variant's fields fail, and then with that variant's error. */
  lemma {:induction false} EnumSchemaFirstError(base: string, vs: seq<F.Variant>)
    requires EnumSchema(base, vs).Err?
    ensures exists k :: 0 <= k < |vs| && IsDataVariant(vs[k]) && VariantTable(base, vs[k]).Err?
              && EnumSchema(base, vs).error == VariantTable(base, vs[k]).error
              && forall j :: 0 <= j < k && IsDataVariant(vs[j]) ==> VariantTable(base, vs[j]).Ok?
    decreases |vs|
  {
    var init := vs[..|vs| - 1];
    assert forall j :: 0 <= j < |init| ==> init[j] == vs[j];
    if VariantTables(base, init).Err? {
      EnumSchemaFirstError(base, init);
    } else {
      VariantTablesAligned(base, init);
      DataVariantsSpec(init);
      forall j | 0 <= j < |vs| - 1 && IsDataVariant(vs[j]) ensures VariantTable(base, vs[j]).Ok? {
        assert vs[j] in init;
        var k :| 0 <= k < |DataVariants(init)| && DataVariants(init)[k] == vs[j];
      }
    }
  }

  /** The clause pairs are exactly the data variants with their positions, in order. */
  lemma {:induction false} ClausePairsMembers(vs: seq<F.Variant>)
    ensures forall p :: p in ClausePairs(vs) <==>
              0 <= p.0 < |vs| && IsDataVariant(vs[p.0]) && p.1 == VariantIdColumnName(vs[p.0])
    decreases |vs|
  {
    if vs != [] {
      var init := vs[..|vs| - 1];
      ClausePairsMembers(init);
      assert forall j :: 0 <= j < |init| ==> init[j] == vs[j];
    }
  }

  /** The meaning of the check constraint for a row with discriminant `d` whose non-null reference columns are `nonNull`. */
  predicate CheckHolds(pairs: seq<(nat, string)>, d: int, nonNull: set<string>) {
    forall k :: 0 <= k < |pairs| ==> ((d == pairs[k].0) <==> pairs[k].1 in nonNull)
  }

  function RefColumnNames(vs: seq<F.Variant>): set<string> {
    set j | 0 <= j < |vs| && IsDataVariant(vs[j]) :: VariantIdColumnName(vs[j])
  }

  function LockstepTarget(vs: seq<F.Variant>, d: int): set<string> {
    if 0 <= d < |vs| && IsDataVariant(vs[d]) then {VariantIdColumnName(vs[d])} else {}
  }

  lemma LockstepSound(vs: seq<F.Variant>, d: int, nonNull: set<string>)
    requires CheckHolds(ClausePairs(vs), d, nonNull)
    ensures RefColumnNames(vs) * nonNull == LockstepTarget(vs, d)
  {
    var pairs := ClausePairs(vs);
    ClausePairsMembers(vs);
    forall c | c in RefColumnNames(vs) * nonNull ensures c in LockstepTarget(vs, d) {
      var j :| 0 <= j < |vs| && IsDataVariant(vs[j]) && VariantIdColumnName(vs[j]) == c;
      assert (j, c) in pairs;
      var k :| 0 <= k < |pairs| && pairs[k] == (j, c);
    }
    forall c | c in LockstepTarget(vs, d) ensures c in RefColumnNames(vs) * nonNull {
      assert (d, c) in pairs;
      var k :| 0 <= k < |pairs| && pairs[k] == (d, c);
    }
  }

  lemma LockstepCompleteAt(vs: seq<F.Variant>, d: int, nonNull: set<string>, k: nat)
    requires forall i, j :: 0 <= i < |vs| && 0 <= j < |vs| && i != j && IsDataVariant(vs[i]) && IsDataVariant(vs[j]) ==>
               VariantIdColumnName(vs[i]) != VariantIdColumnName(vs[j])
    requires RefColumnNames(vs) * nonNull == LockstepTarget(vs, d)
    requires k < |ClausePairs(vs)|
    ensures (d == ClausePairs(vs)[k].0) <==> ClausePairs(vs)[k].1 in nonNull
  {
    var pairs := ClausePairs(vs);
    ClausePairsMembers(vs);
    var p := pairs[k];
    assert p in pairs;
    assert p.1 in RefColumnNames(vs);
    if p.1 in nonNull {
      assert p.1 in LockstepTarget(vs, d);
    }
    if d == p.0 {
      assert p.1 in LockstepTarget(vs, d);
    }
  }

  lemma LockstepComplete(vs: seq<F.Variant>, d: int, nonNull: set<string>)
    requires forall i, j :: 0 <= i < |vs| && 0 <= j < |vs| && i != j && IsDataVariant(vs[i]) && IsDataVariant(vs[j]) ==>
               VariantIdColumnName(vs[i]) != VariantIdColumnName(vs[j])
    requires RefColumnNames(vs) * nonNull == LockstepTarget(vs, d)
    ensures CheckHolds(ClausePairs(vs), d, nonNull)
  {
    forall k | 0 <= k < |ClausePairs(vs)| {
      LockstepCompleteAt(vs, d, nonNull, k);
    }
  }

  /**
    Lockstep: when data variants have distinct reference columns, a row
    satisfies the check iff, among the reference columns, exactly the active
    variant's column is set (none when the active variant carries no data or
    the discriminant names no variant).
  */
  lemma Lockstep(vs: seq<F.Variant>, d: int, nonNull: set<string>)
    requires forall i, j :: 0 <= i < |vs| && 0 <= j < |vs| && i != j && IsDataVariant(vs[i]) && IsDataVariant(vs[j]) ==>
               VariantIdColumnName(vs[i]) != VariantIdColumnName(vs[j])
    ensures CheckHolds(ClausePairs(vs), d, nonNull) <==> RefColumnNames(vs) * nonNull == LockstepTarget(vs, d)
  {
    if CheckHolds(ClausePairs(vs), d, nonNull) {
      LockstepSound(vs, d, nonNull);
    } else if RefColumnNames(vs) * nonNull == LockstepTarget(vs, d) {
      LockstepComplete(vs, d, nonNull);
    }
  }

  /** The check expression renders one clause per data variant, joined with AND, or `1=1` when there is none. */
  lemma CheckExpressionShape(vs: seq<F.Variant>)
    ensures |RenderClausePairs(ClausePairs(vs))| == |ClausePairs(vs)|
    ensures ClausePairs(vs) == [] ==> CheckExpression(vs) == "1=1"
    ensures |ClausePairs(vs)| == 1 ==>
              CheckExpression(vs) == CheckClause(ClausePairs(vs)[0].0, ClausePairs(vs)[0].1)
  {
  }

  /**
    How the variant-integrity check grows as variants are appended: a unit
    variant adds nothing, the first data variant becomes the whole expression
    (replacing `1=1`), and every later data variant is attached with ` AND `.
  */
  lemma CheckExpressionAppend(vs: seq<F.Variant>, v: F.Variant)
    ensures !IsDataVariant(v) ==> CheckExpression(vs + [v]) == CheckExpression(vs)
    ensures IsDataVariant(v) && ClausePairs(vs) == [] ==>
              CheckExpression(vs + [v]) == CheckClause(|vs|, VariantIdColumnName(v))
    ensures IsDataVariant(v) && ClausePairs(vs) != [] ==>
              CheckExpression(vs + [v]) == CheckExpression(vs) + " AND " + CheckClause(|vs|, VariantIdColumnName(v))
  {
    var ws := vs + [v];
    assert ws[..|ws| - 1] == vs;
    var prior := RenderClausePairs(ClausePairs(vs));
    if IsDataVariant(v) {
      var p := (|vs|, VariantIdColumnName(v));
      assert ClausePairs(ws) == ClausePairs(vs) + [p];
      assert RenderClausePairs(ClausePairs(ws)) == prior + [CheckClause(p.0, p.1)];
      if prior != [] {
        Text.JoinAppend(prior, CheckClause(p.0, p.1), " AND ");
      }
    } else {
      assert ClausePairs(ws) == ClausePairs(vs);
    }
  }

  /**
    The main table's name is a proper prefix of every variant table's name,
    so it sorts before all of them.
  */
  lemma MainTableSortsFirst(base: string, v: F.Variant)
    ensures Less(base, VariantTableName(base, v))
  {
    ProperPrefixLess(base, VariantTableName(base, v));
  }

  // ---------------------------------------------------------------------------
  // Entry point
  // ---------------------------------------------------------------------------

  /** What `PartialSchema::try_from` returns for a shape. */
  function Compiled(s: F.Shape): Result<PartialSchema, ConversionError> {
    if s.ty.User? && s.ty.user.Struct? then
      match StructTable(s, s.ty.user.fields)
      case Err(e) => Err(e)
      case Ok(t) => Ok(PartialSchema([t]))
    else if s.ty.User? && s.ty.user.Enum? then EnumSchema(ToLower(s.typeIdentifier), s.ty.user.variants)
    else Err(NotAStruct(s.typeIdentifier))
  }

  /** Only structs and enums compile; a struct yields one table, an enum at least its main table. */
  lemma CompiledKinds(s: F.Shape)
    ensures !(s.ty.User? && (s.ty.user.Struct? || s.ty.user.Enum?)) ==> Compiled(s) == Err(NotAStruct(s.typeIdentifier))
    ensures Compiled(s).Ok? && s.ty.user.Struct? ==>
              |Compiled(s).value.tables| == 1
              && Compiled(s).value.tables[0].name == ToLower(s.typeIdentifier)
              && |Compiled(s).value.tables[0].columns| == |s.ty.user.fields|
              && (forall i :: 0 <= i < |s.ty.user.fields| ==>
                    Compiled(s).value.tables[0].columns[i].name == s.ty.user.fields[i].name)
    ensures Compiled(s).Ok? && s.ty.user.Enum? ==>
              |Compiled(s).value.tables| >= 1
              && Compiled(s).value.tables[|Compiled(s).value.tables| - 1].name == ToLower(s.typeIdentifier)
  {
    if Compiled(s).Ok? && s.ty.user.Enum? {
      EnumSchemaLayout(ToLower(s.typeIdentifier), s.ty.user.variants);
    }
  }

  /** `PartialSchema::try_from(&facet::Shape)` */
  method Compile(s: F.Shape) returns (r: Result<PartialSchema, ConversionError>)
    ensures r == Compiled(s)
  {
    if s.ty.User? && s.ty.user.Struct? {
      var table := ShapeToTable(s);
      if table.Err? {
        return Err(table.error);
      }
      r := Ok(PartialSchema([table.value]));
    } else if s.ty.User? && s.ty.user.Enum? {
      r := EnumToPartialSchema(s, s.ty.user.variants);
    } else {
      r := Err(NotAStruct(s.typeIdentifier));
    }
  }
}
