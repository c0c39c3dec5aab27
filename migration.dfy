/**
  Migration statements built from shapes and diffs: a CREATE TABLE for a
  struct shape, and an ALTER TABLE for the field-level diff of two struct
  shapes. Statements are modelled as the column definitions and operations
  they carry; rendering them to SQL text belongs to the query builder.
*/
module Migration {
  import opened Wrappers
  import C = CowShape
  import O = OwnedShape
  import SC = ShapeConversion
  import opened Differ

  /** The column types the statements use. */
  datatype ColumnType =
    | TinyInteger
    | SmallInteger
    | Integer
    | BigInteger
    | Float
    | Double
    | Boolean
    | CharLen(len: nat)
    | String

  datatype ColumnDef = ColumnDef(name: string, nullable: bool, colType: ColumnType)

  datatype TableCreate = TableCreate(table: string, columns: seq<ColumnDef>)

  datatype AlterOp = AddColumn(col: ColumnDef) | ModifyColumn(col: ColumnDef) | DropColumn(name: string)

  datatype TableAlter = TableAlter(table: string, ops: seq<AlterOp>)

  datatype MigrationError =
    | NotAStruct
    | EqualDiff
    | DifferentDiff
    | SequenceDiff
    | ToNotStruct
    | FieldNotFound(field: string)
    | IncompatibleChange(field: string)
    | NeverType
    | UnsupportedOpaque(typeIdentifier: string)
    | UnsupportedType(typeIdentifier: string)
    | NoColumnChanges

  // ---------------------------------------------------------------------------
  // Column types
  // ---------------------------------------------------------------------------

  /** Every `Option` layer removed (`unwrap_option_type`). */
  function UnwrapOptionType(s: C.Shape): (r: C.Shape)
    ensures !r.def.value.Option?
    ensures !s.def.value.Option? ==> r == s
    decreases s
  {
    if s.def.value.Option? then UnwrapOptionType(s.def.value.t) else s
  }

  /** Unwrapping is idempotent. */
  lemma UnwrapOptionTypeIdempotent(s: C.Shape)
    ensures UnwrapOptionType(UnwrapOptionType(s)) == UnwrapOptionType(s)
  {
  }

  /** The shape `Option<s>`. */
  function OptionOf(s: C.Shape, id: string, ty: C.Type): C.Shape {
    C.Shape(id, C.Owned(C.Option(s)), C.Owned(ty))
  }

  /** `s` wrapped in `n` layers of `Option`. */
  function Wrapped(s: C.Shape, n: nat, id: string, ty: C.Type): C.Shape {
    if n == 0 then s else OptionOf(Wrapped(s, n - 1, id, ty), id, ty)
  }

  /**
    Unwrapping sees through any number of `Option` layers: `s` wrapped in
    `n` of them unwraps to what `s` itself unwraps to, which is `s` when it
    is not an `Option`.
  */
  lemma {:induction false} UnwrapOptionLayers(s: C.Shape, n: nat, id: string, ty: C.Type)
    ensures UnwrapOptionType(Wrapped(s, n, id, ty)) == UnwrapOptionType(s)
    ensures !s.def.value.Option? ==> UnwrapOptionType(Wrapped(s, n, id, ty)) == s
  {
    if n > 0 {
      UnwrapOptionLayers(s, n - 1, id, ty);
    }
  }

  /** The shape a column's type is read from: one `Option` layer removed. */
  function ColumnShape(s: C.Shape): C.Shape {
    if s.def.value.Option? then s.def.value.t else s
  }

  /** Integer column by Rust type identifier; unknown identifiers fall back to INTEGER. */
  function IntegerColumn(id: string): (r: ColumnType)
    ensures r.TinyInteger? || r.SmallInteger? || r.Integer? || r.BigInteger?
  {
    if id == "u8" || id == "i8" then TinyInteger
    else if id == "u16" || id == "i16" then SmallInteger
    else if id == "u32" || id == "i32" then Integer
    else if id == "u64" || id == "i64" || id == "usize" || id == "isize" then BigInteger
    else Integer
  }

  /** Storage width of an integer column type in bytes. */
  function ColumnBytes(t: ColumnType): nat {
    match t
    case TinyInteger => 1
    case SmallInteger => 2
    case Integer => 4
    case BigInteger => 8
    case _ => 0
  }

  /** Width in bytes of a fixed-width Rust integer type (pointer-sized taken as 64 bits), 0 otherwise. */
  function RustIntegerBytes(id: string): nat {
    if id in {"u8", "i8"} then 1
    else if id in {"u16", "i16"} then 2
    else if id in {"u32", "i32"} then 4
    else if id in {"u64", "i64", "usize", "isize"} then 8
    else if id in {"u128", "i128"} then 16
    else 0
  }

  /**
    Every Rust integer up to 64 bits gets a column of exactly its width;
    128-bit integers fall back to a 4-byte INTEGER column.
  */
  lemma IntegerColumnWidths(id: string)
    ensures 1 <= RustIntegerBytes(id) <= 8 ==> ColumnBytes(IntegerColumn(id)) == RustIntegerBytes(id)
    ensures RustIntegerBytes(id) == 16 ==> ColumnBytes(IntegerColumn(id)) == 4
  {
  }

  /** `set_column_type_from_shape` */
  function ColumnTypeOf(s: C.Shape): (r: Result<ColumnType, MigrationError>)
    ensures var inner := ColumnShape(s);
            var t := inner.ty.value;
            r.Ok? <==> (t.Primitive? && !t.prim.Never?)
                       || (t.User? && t.user.Enum?)
                       || (t.User? && t.user.Opaque? && inner.typeIdentifier in {"String", "str"})
    ensures var inner := ColumnShape(s);
            var t := inner.ty.value;
            r == Ok(String) <==> (t.Primitive? && t.prim == C.Textual(C.Str))
                                 || (t.User? && t.user.Enum?)
                                 || (t.User? && t.user.Opaque? && inner.typeIdentifier in {"String", "str"})
    ensures var inner := ColumnShape(s);
            var t := inner.ty.value;
            t.Primitive? && t.prim.Numeric? && t.prim.numeric.Integer? ==>
              r == Ok(IntegerColumn(inner.typeIdentifier)) && ColumnBytes(r.value) > 0
    ensures var inner := ColumnShape(s);
            var t := inner.ty.value;
            t.Primitive? && t.prim == C.Numeric(C.Float) ==> r == Ok(if inner.typeIdentifier == "f32" then Float else Double)
    ensures var t := ColumnShape(s).ty.value;
            t.Primitive? && t.prim == C.Textual(C.Char) ==> r == Ok(CharLen(1))
    ensures var t := ColumnShape(s).ty.value;
            t.Primitive? && t.prim == C.Boolean ==> r == Ok(Boolean)
    ensures var t := ColumnShape(s).ty.value;
            t.Primitive? && t.prim == C.Never ==> r == Err(NeverType)
    ensures var inner := ColumnShape(s);
            var t := inner.ty.value;
            t.User? && t.user.Opaque? && inner.typeIdentifier !in {"String", "str"} ==>
              r == Err(UnsupportedOpaque(inner.typeIdentifier))
    ensures var inner := ColumnShape(s);
            var t := inner.ty.value;
            t.Sequence? || (t.User? && (t.user.Struct? || t.user.Union?)) ==>
              r == Err(UnsupportedType(inner.typeIdentifier))
  {
    var inner := ColumnShape(s);
    match inner.ty.value
    case Primitive(p) =>
      (match p
       case Boolean => Ok(Boolean)
       case Numeric(n) =>
         if n.Integer? then Ok(IntegerColumn(inner.typeIdentifier))
         else if inner.typeIdentifier == "f32" then Ok(Float)
         else Ok(Double)
       case Textual(x) => if x.Char? then Ok(CharLen(1)) else Ok(String)
       case Never => Err(NeverType))
    case User(u) =>
      if u.Enum? then Ok(String)
      else if u.Opaque? then
        (if inner.typeIdentifier == "String" || inner.typeIdentifier == "str" then Ok(String)
         else Err(UnsupportedOpaque(inner.typeIdentifier)))
      else Err(UnsupportedType(inner.typeIdentifier))
    case Sequence(_) => Err(UnsupportedType(inner.typeIdentifier))
  }

  /** A column's type does not depend on whether the field is optional. */
  lemma ColumnTypeIgnoresOption(s: C.Shape, id: string, ty: C.Type)
    requires !s.def.value.Option?
    ensures ColumnTypeOf(OptionOf(s, id, ty)) == ColumnTypeOf(s)
  {
  }

  /** The column for a field: named after it, nullable iff it is an `Option`. */
  function ColumnFor(f: C.Field): (r: Result<ColumnDef, MigrationError>)
    ensures r.Ok? <==> ColumnTypeOf(f.shape).Ok?
    ensures r.Ok? ==> r.value.name == f.name && (r.value.nullable <==> f.shape.def.value.Option?)
                      && r.value.colType == ColumnTypeOf(f.shape).value
    ensures r.Err? ==> r.error == ColumnTypeOf(f.shape).error
  {
    match ColumnTypeOf(f.shape)
    case Ok(t) => Ok(ColumnDef(f.name, f.shape.def.value.Option?, t))
    case Err(e) => Err(e)
  }

  // ---------------------------------------------------------------------------
  // CREATE TABLE
  // ---------------------------------------------------------------------------

  /** `TableCreateStatement::try_from` */
  method CreateTable(shape: O.Shape) returns (r: Result<TableCreate, MigrationError>)
    ensures var s := SC.ShapeToCow(shape);
            !IsStruct(s) ==> r == Err(NotAStruct)
    ensures var s := SC.ShapeToCow(shape);
            IsStruct(s) ==> (r.Ok? <==> forall i :: 0 <= i < |StructFields(s)| ==> ColumnFor(StructFields(s)[i]).Ok?)
    ensures var s := SC.ShapeToCow(shape);
            r.Ok? ==> IsStruct(s) && r.value.table == s.typeIdentifier
                      && |r.value.columns| == |StructFields(s)|
                      && forall i :: 0 <= i < |r.value.columns| ==> Ok(r.value.columns[i]) == ColumnFor(StructFields(s)[i])
    ensures var s := SC.ShapeToCow(shape);
            r.Err? && IsStruct(s) ==>
              exists i :: 0 <= i < |StructFields(s)| && ColumnFor(StructFields(s)[i]) == Err(r.error)
                          && forall j :: 0 <= j < i ==> ColumnFor(StructFields(s)[j]).Ok?
  {
    var s := SC.ShapeToCow(shape);
    if !IsStruct(s) {
      return Err(NotAStruct);
    }
    var fields := StructFields(s);
    var columns: seq<ColumnDef> := [];
    for i := 0 to |fields|
      invariant |columns| == i
      invariant forall k :: 0 <= k < i ==> Ok(columns[k]) == ColumnFor(fields[k])
    {
      var col := ColumnFor(fields[i]);
      if col.Err? {
        return Err(col.error);
      }
      columns := columns + [col.value];
    }
    return Ok(TableCreate(s.typeIdentifier, columns));
  }

  // ---------------------------------------------------------------------------
  // Type-change compatibility
  // ---------------------------------------------------------------------------

  /** What a changed column's type is, once every `Option` layer is removed. */
  datatype ChangeKind = NumericKind | TextualKind | StringKind | OtherKind

  function KindOf(s: C.Shape): ChangeKind {
    var u := UnwrapOptionType(s);
    var t := u.ty.value;
    if t.Primitive? && t.prim.Numeric? then NumericKind
    else if t.Primitive? && t.prim.Textual? then TextualKind
    else if t.User? && t.user.Opaque? && u.typeIdentifier == "String" then StringKind
    else OtherKind
  }

  /**
    `is_compatible_type_change`: nested struct and sequence diffs pass; a
    change of incompatible shapes passes only between numbers and text.
  */
  function IsCompatibleTypeChange(d: Diff): (r: bool)
    ensures !d.Different? ==> r
    ensures d.Different? ==>
              var a := KindOf(d.from);
              var b := KindOf(d.to);
              (r <==> (a in {NumericKind, TextualKind} && b in {NumericKind, TextualKind})
                      || (a == StringKind && b == NumericKind)
                      || (a == NumericKind && b == StringKind))
  {
    match d
    case Different(from, to) =>
      var a := UnwrapOptionType(from);
      var b := UnwrapOptionType(to);
      var ta := a.ty.value;
      var tb := b.ty.value;
      if ta.Primitive? && tb.Primitive? then
        (ta.prim.Numeric? || ta.prim.Textual?) && (tb.prim.Numeric? || tb.prim.Textual?)
      else if ta.User? && ta.user.Opaque? && tb.Primitive? && tb.prim.Numeric? then
        a.typeIdentifier == "String"
      else if ta.Primitive? && ta.prim.Numeric? && tb.User? && tb.user.Opaque? then
        b.typeIdentifier == "String"
      else false
    case _ => true
  }

  // ---------------------------------------------------------------------------
  // ALTER TABLE
  // ---------------------------------------------------------------------------

  /** The first field of `fs` named `name` (`iter().find`). */
  function FindFirst(fs: seq<C.Field>, name: string): (r: Option<C.Field>)
    ensures r.None? <==> forall i :: 0 <= i < |fs| ==> fs[i].name != name
    ensures r.Some? ==> exists i :: 0 <= i < |fs| && fs[i] == r.value && r.value.name == name
                                    && forall j :: 0 <= j < i ==> fs[j].name != name
    decreases |fs|
  {
    if fs == [] then None
    else if fs[0].name == name then Some(fs[0])
    else
      var r := FindFirst(fs[1..], name);
      assert forall i :: 0 <= i < |fs| - 1 ==> fs[1..][i] == fs[i + 1];
      r
  }

  /** An inserted field that can be added: it is found and its type converts. */
  predicate CanAdd(tf: seq<C.Field>, name: string) {
    FindFirst(tf, name).Some? && ColumnFor(FindFirst(tf, name).value).Ok?
  }

  /** An updated field that can be modified: found, compatible, and its type converts. */
  predicate CanModify(tf: seq<C.Field>, name: string, change: Diff) {
    FindFirst(tf, name).Some? && IsCompatibleTypeChange(change) && ColumnFor(FindFirst(tf, name).value).Ok?
  }

  /** The column definition a field named `name` of `to` yields. */
  function NewColumn(tf: seq<C.Field>, name: string): ColumnDef
    requires FindFirst(tf, name).Some? && ColumnFor(FindFirst(tf, name).value).Ok?
  {
    ColumnFor(FindFirst(tf, name).value).value
  }

  function OpName(op: AlterOp): string {
    match op
    case AddColumn(c) => c.name
    case ModifyColumn(c) => c.name
    case DropColumn(n) => n
  }

  function OpNames(ops: seq<AlterOp>): set<string> {
    set i | 0 <= i < |ops| :: OpName(ops[i])
  }

  lemma OpNamesSnoc(ops: seq<AlterOp>, op: AlterOp)
    ensures OpNames(ops + [op]) == OpNames(ops) + {OpName(op)}
  {
    assert forall i :: 0 <= i < |ops| ==> (ops + [op])[i] == ops[i];
    assert (ops + [op])[|ops|] == op;
  }

  /** Moving one element from the pending set to the processed set. */
  lemma MoveOne<T>(done: set<T>, rest: set<T>, x: T)
    requires x in rest && done !! rest
    ensures |done + {x}| == |done| + 1
    ensures (done + {x}) + (rest - {x}) == done + rest && (done + {x}) !! (rest - {x})
  {
  }

  /** An ADD COLUMN of the column the `to` field of its name yields. */
  predicate IsAdd(op: AlterOp, tf: seq<C.Field>) {
    op.AddColumn? && CanAdd(tf, op.col.name) && op.col == NewColumn(tf, op.col.name)
  }

  /** A MODIFY COLUMN of an updated name, with the column the `to` field of that name yields. */
  predicate IsModify(op: AlterOp, updates: map<string, Diff>, tf: seq<C.Field>) {
    op.ModifyColumn? && op.col.name in updates
    && CanModify(tf, op.col.name, updates[op.col.name]) && op.col == NewColumn(tf, op.col.name)
  }

  /** The column an inserted field adds: the field is looked up, then its type converted. */
  function AddedColumn(tf: seq<C.Field>, name: string): (r: Result<ColumnDef, MigrationError>)
    ensures r.Ok? <==> CanAdd(tf, name)
    ensures r.Ok? ==> r.value == NewColumn(tf, name) && IsAdd(AddColumn(r.value), tf)
    ensures r.Err? ==> r.error != NoColumnChanges
    ensures FindFirst(tf, name).None? ==> r == Err(FieldNotFound(name))
    ensures FindFirst(tf, name).Some? && r.Err? ==> r.error == ColumnFor(FindFirst(tf, name).value).error
  {
    match FindFirst(tf, name)
    case None => Err(FieldNotFound(name))
    case Some(f) => ColumnFor(f)
  }

  /**
    The column an updated field modifies to: the field is looked up, the
    change checked for compatibility, then its type converted.
  */
  function ModifiedColumn(tf: seq<C.Field>, name: string, change: Diff): (r: Result<ColumnDef, MigrationError>)
    ensures r.Ok? <==> CanModify(tf, name, change)
    ensures r.Ok? ==> r.value == NewColumn(tf, name)
    ensures r.Err? ==> r.error != NoColumnChanges
    ensures FindFirst(tf, name).None? ==> r == Err(FieldNotFound(name))
    ensures FindFirst(tf, name).Some? && !IsCompatibleTypeChange(change) ==> r == Err(IncompatibleChange(name))
    ensures FindFirst(tf, name).Some? && IsCompatibleTypeChange(change) && r.Err? ==>
              r.error == ColumnFor(FindFirst(tf, name).value).error
  {
    match FindFirst(tf, name)
    case None => Err(FieldNotFound(name))
    case Some(f) => if !IsCompatibleTypeChange(change) then Err(IncompatibleChange(name)) else ColumnFor(f)
  }

  lemma AddsSnoc(ops: seq<AlterOp>, op: AlterOp, tf: seq<C.Field>)
    requires forall i :: 0 <= i < |ops| ==> IsAdd(ops[i], tf)
    requires IsAdd(op, tf)
    ensures forall i :: 0 <= i < |ops + [op]| ==> IsAdd((ops + [op])[i], tf)
  {
  }

  lemma ModifiesSnoc(ops: seq<AlterOp>, op: AlterOp, updates: map<string, Diff>, tf: seq<C.Field>)
    requires forall i :: 0 <= i < |ops| ==> IsModify(ops[i], updates, tf)
    requires IsModify(op, updates, tf)
    ensures forall i :: 0 <= i < |ops + [op]| ==> IsModify((ops + [op])[i], updates, tf)
  {
  }

  /** One ADD COLUMN per name, each with the column of the `to` field of that name. */
  predicate IsAdds(ops: seq<AlterOp>, names: set<string>, tf: seq<C.Field>) {
    |ops| == |names| && OpNames(ops) == names
    && forall i :: 0 <= i < |ops| ==> IsAdd(ops[i], tf)
  }

  /** One MODIFY COLUMN per updated name, each with the column of the `to` field of that name. */
  predicate IsModifies(ops: seq<AlterOp>, updates: map<string, Diff>, tf: seq<C.Field>) {
    |ops| == |updates.Keys| && OpNames(ops) == updates.Keys
    && forall i :: 0 <= i < |ops| ==> IsModify(ops[i], updates, tf)
  }

  /** One DROP COLUMN per deleted name. */
  predicate IsDrops(ops: seq<AlterOp>, names: set<string>) {
    |ops| == |names| && OpNames(ops) == names && forall i :: 0 <= i < |ops| ==> ops[i].DropColumn?
  }

  /** The inserted columns, in some order; fails on the first one that cannot be added. */
  method AddColumns(names: set<string>, tf: seq<C.Field>) returns (r: Result<seq<AlterOp>, MigrationError>)
    ensures r.Ok? <==> forall n :: n in names ==> CanAdd(tf, n)
    ensures r.Ok? ==> IsAdds(r.value, names, tf)
    ensures r.Err? ==> r.error != NoColumnChanges
    ensures r.Err? ==> exists n :: n in names && AddedColumn(tf, n) == Err(r.error)
  {
    var ops: seq<AlterOp> := [];
    var done: set<string> := {};
    var rest := names;
    while rest != {}
      invariant done + rest == names && done !! rest
      invariant |ops| == |done| && OpNames(ops) == done
      invariant forall n :: n in done ==> CanAdd(tf, n)
      invariant forall i :: 0 <= i < |ops| ==> IsAdd(ops[i], tf)
      decreases rest
    {
      var n :| n in rest;
      var col := AddedColumn(tf, n);
      if col.Err? {
        return Err(col.error);
      }
      AddsSnoc(ops, AddColumn(col.value), tf);
      OpNamesSnoc(ops, AddColumn(col.value));
      ops := ops + [AddColumn(col.value)];
      MoveOne(done, rest, n);
      done := done + {n};
      rest := rest - {n};
    }
    return Ok(ops);
  }

  /** The updated columns, in some order; fails on the first one that cannot be modified. */
  method ModifyColumns(updates: map<string, Diff>, tf: seq<C.Field>) returns (r: Result<seq<AlterOp>, MigrationError>)
    ensures r.Ok? <==> forall n :: n in updates ==> CanModify(tf, n, updates[n])
    ensures r.Ok? ==> IsModifies(r.value, updates, tf)
    ensures r.Err? ==> r.error != NoColumnChanges
    ensures r.Err? ==> exists n :: n in updates && ModifiedColumn(tf, n, updates[n]) == Err(r.error)
  {
    var ops: seq<AlterOp> := [];
    var done: set<string> := {};
    var rest := updates.Keys;
    while rest != {}
      invariant done + rest == updates.Keys && done !! rest
      invariant |ops| == |done| && OpNames(ops) == done
      invariant forall n :: n in done ==> CanModify(tf, n, updates[n])
      invariant forall i :: 0 <= i < |ops| ==> IsModify(ops[i], updates, tf)
      decreases rest
    {
      var n :| n in rest;
      var col := ModifiedColumn(tf, n, updates[n]);
      if col.Err? {
        return Err(col.error);
      }
      ModifiesSnoc(ops, ModifyColumn(col.value), updates, tf);
      OpNamesSnoc(ops, ModifyColumn(col.value));
      ops := ops + [ModifyColumn(col.value)];
      MoveOne(done, rest, n);
      done := done + {n};
      rest := rest - {n};
    }
    return Ok(ops);
  }

  /** The deleted columns, in some order. */
  method DropColumns(names: set<string>) returns (ops: seq<AlterOp>)
    ensures IsDrops(ops, names)
  {
    ops := [];
    var done: set<string> := {};
    var rest := names;
    while rest != {}
      invariant done + rest == names && done !! rest
      invariant |ops| == |done| && OpNames(ops) == done
      invariant forall i :: 0 <= i < |ops| ==> ops[i].DropColumn?
      decreases rest
    {
      var n :| n in rest;
      OpNamesSnoc(ops, DropColumn(n));
      ops := ops + [DropColumn(n)];
      MoveOne(done, rest, n);
      done := done + {n};
      rest := rest - {n};
    }
  }

  predicate NoChanges(v: Value) {
    v.insertions == {} && v.deletions == {} && v.updates == map[]
  }

  /** When an ALTER TABLE can be built from a struct diff. */
  predicate AlterSucceeds(v: Value, tf: seq<C.Field>) {
    (forall n :: n in v.insertions ==> CanAdd(tf, n))
    && (forall n :: n in v.updates ==> CanModify(tf, n, v.updates[n]))
    && !NoChanges(v)
  }

  /** Some inserted field cannot be added, and `e` is its own error. */
  predicate FailedAdd(v: Value, tf: seq<C.Field>, e: MigrationError) {
    exists n :: n in v.insertions && AddedColumn(tf, n) == Err(e)
  }

  /** Every inserted field can be added, and some updated field fails with its own error `e`. */
  predicate FailedModify(v: Value, tf: seq<C.Field>, e: MigrationError) {
    (forall n :: n in v.insertions ==> CanAdd(tf, n))
    && exists n :: n in v.updates && ModifiedColumn(tf, n, v.updates[n]) == Err(e)
  }

  /** Additions first, then modifications, then drops. */
  predicate IsAlterOps(ops: seq<AlterOp>, v: Value, tf: seq<C.Field>) {
    var a := |v.insertions|;
    var m := |v.updates.Keys|;
    |ops| == a + m + |v.deletions|
    && IsAdds(ops[..a], v.insertions, tf)
    && IsModifies(ops[a..a + m], v.updates, tf)
    && IsDrops(ops[a + m..], v.deletions)
  }

  lemma AlterOpsConcat(adds: seq<AlterOp>, mods: seq<AlterOp>, drops: seq<AlterOp>, v: Value, tf: seq<C.Field>)
    requires IsAdds(adds, v.insertions, tf) && IsModifies(mods, v.updates, tf) && IsDrops(drops, v.deletions)
    ensures IsAlterOps(adds + mods + drops, v, tf)
  {
    var ops := adds + mods + drops;
    assert ops[..|v.insertions|] == adds;
    assert ops[|v.insertions|..|v.insertions| + |v.updates.Keys|] == mods;
    assert ops[|v.insertions| + |v.updates.Keys|..] == drops;
  }

  /** `TableAlterStatement::try_from` */
  method AlterTable(d: Diff) returns (r: Result<TableAlter, MigrationError>)
    ensures d.Equal? ==> r == Err(EqualDiff)
    ensures d.Different? ==> r == Err(DifferentDiff)
    ensures d.Sequence? ==> r == Err(SequenceDiff)
    ensures d.User? && !IsStruct(d.to) ==> r == Err(ToNotStruct)
    ensures d.User? && IsStruct(d.to) ==> (r.Ok? <==> AlterSucceeds(d.value, StructFields(d.to)))
    ensures d.User? && IsStruct(d.to) ==> (r == Err(NoColumnChanges) <==> NoChanges(d.value))
    ensures r.Ok? ==> d.User? && IsStruct(d.to) && r.value.table == d.to.typeIdentifier
                      && IsAlterOps(r.value.ops, d.value, StructFields(d.to))
    ensures d.User? && IsStruct(d.to) && r.Err? && r.error != NoColumnChanges ==>
              FailedAdd(d.value, StructFields(d.to), r.error) || FailedModify(d.value, StructFields(d.to), r.error)
  {
    match d
    case Equal => return Err(EqualDiff);
    case Different(_, _) => return Err(DifferentDiff);
    case Sequence(_, _) => return Err(SequenceDiff);
    case User(_, to, v) =>
      if !IsStruct(to) {
        return Err(ToNotStruct);
      }
      var tf := StructFields(to);
      var adds := AddColumns(v.insertions, tf);
      if adds.Err? {
        return Err(adds.error);
      }
      var mods := ModifyColumns(v.updates, tf);
      if mods.Err? {
        return Err(mods.error);
      }
      var drops := DropColumns(v.deletions);
      if NoChanges(v) {
        return Err(NoColumnChanges);
      }
      AlterOpsConcat(adds.value, mods.value, drops, v, tf);
      return Ok(TableAlter(to.typeIdentifier, adds.value + mods.value + drops));
  }

  // ---------------------------------------------------------------------------
  // Diffs and migrations together
  // ---------------------------------------------------------------------------

  /**
    A computed struct diff never names a field that the `to` struct lacks:
    every inserted and every updated name is found there.
  */
  lemma DiffNamesFound(from: C.Shape, to: C.Shape)
    requires DiffOf(from, to).User?
    ensures var v := DiffOf(from, to).value;
            forall n :: n in v.insertions + v.updates.Keys ==> FindFirst(StructFields(to), n).Some?
  {
    var ff := StructFields(from);
    var tf := StructFields(to);
    var toMap := FieldMap(tf);
    ScanUpdates(ff, toMap, |ff|);
    var v := DiffOf(from, to).value;
    forall n | n in v.insertions + v.updates.Keys ensures FindFirst(tf, n).Some? {
      if n in v.updates.Keys {
        var i :| 0 <= i < |ff| && ff[i].name == n && Changed(ff, toMap, i);
        assert n in toMap;
      }
    }
  }

  /**
    Reordering the fields of a struct yields no migration: the diff is a
    struct diff without changes, so no ALTER TABLE can be built from it.
  */
  lemma ReorderedFieldsCannotMigrate(from: C.Shape, to: C.Shape)
    requires IsStruct(from) && IsStruct(to) && !ShapesEqual(from, to)
    requires DistinctNames(StructFields(from)) && DistinctNames(StructFields(to))
    requires Names(StructFields(from)) == Names(StructFields(to))
    requires forall i, j :: (0 <= i < |StructFields(from)| && 0 <= j < |StructFields(to)|
               && StructFields(from)[i].name == StructFields(to)[j].name) ==>
               ShapesEqual(StructFields(from)[i].shape, StructFields(to)[j].shape)
    ensures DiffOf(from, to).User? && NoChanges(DiffOf(from, to).value)
    ensures !AlterSucceeds(DiffOf(from, to).value, StructFields(to))
  {
    ReorderedFieldsHaveNoChanges(from, to);
  }
}
