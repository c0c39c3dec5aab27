/**
  Rendering a whole schema to DDL text (`Schema::to_ddl`).

  The statements come in a fixed order of passes: the schema itself, enum
  types, sequences, composite types, domains, tables (each followed by its
  unique, check and foreign-key constraints), views and materialized views.
  Inside a pass the objects are taken in sorted key order, so the output is a
  function of the schema alone. Statements are joined with newlines.
*/
module Ddl {
  import opened Wrappers
  import opened Text
  import opened SchemaModel

  // ---------------------------------------------------------------------------
  // Quote escaping
  // ---------------------------------------------------------------------------

  function Quotes(s: string): nat {
    if s == [] then 0 else (if s[0] == '\'' then 1 else 0) + Quotes(s[1..])
  }

  /** `esc`: every single quote is doubled, nothing else changes. */
  function Esc(s: string): (r: string)
    ensures |r| == |s| + Quotes(s)
    ensures Quotes(s) == 0 ==> r == s
  {
    if s == [] then []
    else (if s[0] == '\'' then "''" else [s[0]]) + Esc(s[1..])
  }

  /**
    Reading an escaped SQL string body back: `''` stands for one quote, and a
    lone quote is malformed (None).
  */
  function Unescape(r: string): Option<string>
    decreases |r|
  {
    if r == [] then Some([])
    else if r[0] != '\'' then
      match Unescape(r[1..])
      case Some(t) => Some([r[0]] + t)
      case None => None
    else if |r| >= 2 && r[1] == '\'' then
      match Unescape(r[2..])
      case Some(t) => Some("'" + t)
      case None => None
    else None
  }

  /** Escaping leaves no unpaired quote: the escaped text reads back as the original. */
  lemma {:induction false} EscRoundTrip(s: string)
    ensures Unescape(Esc(s)) == Some(s)
    decreases |s|
  {
    if s != [] {
      EscRoundTrip(s[1..]);
      var e := Esc(s);
      if s[0] == '\'' {
        assert e[2..] == Esc(s[1..]);
      } else {
        assert e[1..] == Esc(s[1..]);
      }
      assert s == [s[0]] + s[1..];
    }
  }

  // ---------------------------------------------------------------------------
  // Data types
  // ---------------------------------------------------------------------------

  /** Built-in types render as a non-empty keyword; only a named type with an empty name renders as nothing. */
  function RenderDataType(dt: DataType): (r: string)
    ensures !(dt.Enum? || dt.Composite? || dt.Domain? || dt.Custom?) ==> r != []
  {
    match dt
    case Boolean => "boolean"
    case SmallInt => "smallint"
    case Integer => "integer"
    case BigInt => "bigint"
    case Real => "real"
    case DoublePrecision => "double precision"
    case Numeric(precision, scale) =>
      if precision.Some? && scale.Some? then
        "numeric(" + NatToString(precision.value) + "," + NatToString(scale.value) + ")"
      else if precision.Some? then "numeric(" + NatToString(precision.value) + ")"
      else "numeric"
    case Serial => "serial"
    case BigSerial => "bigserial"
    case Text => "text"
    case Varchar(len) => if len.Some? then "varchar(" + NatToString(len.value) + ")" else "varchar"
    case Char(len) => if len.Some? then "char(" + NatToString(len.value) + ")" else "char"
    case Bytea => "bytea"
    case Timestamp(tz) => if tz then "timestamp with time zone" else "timestamp without time zone"
    case Date => "date"
    case Time(tz) => if tz then "time with time zone" else "time without time zone"
    case Interval => "interval"
    case Json => "json"
    case Jsonb => "jsonb"
    case Uuid => "uuid"
    case Inet => "inet"
    case MacAddr => "macaddr"
    case TsVector => "tsvector"
    case Array(inner) => RenderDataType(inner) + "[]"
    case Enum(schema, name) => QualifiedNameToString(QualifiedName(schema, name))
    case Composite(schema, name) => QualifiedNameToString(QualifiedName(schema, name))
    case Domain(schema, name) => QualifiedNameToString(QualifiedName(schema, name))
    case Custom(schema, name) => QualifiedNameToString(QualifiedName(schema, name))
    case Any => "any"
    case Unknown => "unknown"
  }

  function ArrayOf(t: DataType, depth: nat): DataType {
    if depth == 0 then t else Array(ArrayOf(t, depth - 1))
  }

  function Repeat(s: string, n: nat): string {
    if n == 0 then "" else Repeat(s, n - 1) + s
  }

  /** An array type renders as its element type followed by one `[]` per level of nesting. */
  lemma {:induction false} RenderArray(t: DataType, depth: nat)
    ensures RenderDataType(ArrayOf(t, depth)) == RenderDataType(t) + Repeat("[]", depth)
  {
    if depth > 0 {
      RenderArray(t, depth - 1);
    }
  }

  /** `numeric(p,s)`, `numeric(p)`, or plain `numeric` when no precision is given, even with a scale. */
  lemma RenderNumeric(precision: Option<nat>, scale: Option<nat>)
    ensures RenderDataType(Numeric(precision, scale)) ==
              "numeric" + (if precision.Some? then
                             "(" + Join([NatToString(precision.value)] + (if scale.Some? then [NatToString(scale.value)] else []), ",") + ")"
                           else "")
  {
    if precision.Some? {
      var p := NatToString(precision.value);
      if scale.Some? {
        var sc := NatToString(scale.value);
        assert Join([p] + [sc], ",") == p + "," + sc by {
          assert ([p] + [sc])[1..] == [sc];
        }
        NumericWords("numeric(" + p + "," + sc, p + "," + sc);
      } else {
        assert [p] + [] == [p];
        NumericWords("numeric(" + p, p);
      }
    }
  }

  lemma NumericWords(whole: string, inner: string)
    requires whole == "numeric(" + inner
    ensures whole + ")" == "numeric" + ("(" + inner + ")")
  {
  }

  /** `varchar(n)` and `char(n)` carry their length only when one is given. */
  lemma RenderSizedText(len: Option<nat>)
    ensures RenderDataType(Varchar(len)) == "varchar" + (if len.Some? then "(" + NatToString(len.value) + ")" else "")
    ensures RenderDataType(Char(len)) == "char" + (if len.Some? then "(" + NatToString(len.value) + ")" else "")
  {
    if len.Some? {
      var n := NatToString(len.value);
      assert "varchar(" + n + ")" == "varchar" + ("(" + n + ")");
      assert "char(" + n + ")" == "char" + ("(" + n + ")");
    }
  }

  /**
    User-defined types render as their (optionally schema-qualified) name, the
    same text as the qualified name of a table.
  */
  lemma RenderNamedType(dt: DataType)
    requires dt.Enum? || dt.Composite? || dt.Domain? || dt.Custom?
    ensures RenderDataType(dt) == QualifiedNameToString(QualifiedName(dt.schema, dt.name))
    ensures dt.schema.None? ==> RenderDataType(dt) == dt.name
    ensures dt.schema.Some? ==> RenderDataType(dt) == dt.schema.value + "." + dt.name
  {
  }

  // ---------------------------------------------------------------------------
  // Columns
  // ---------------------------------------------------------------------------

  /** The optional modifiers of a column definition, in the order they are written. */
  datatype ColumnClause =
    | Collate(collation: string)
    | Identity(mode: string)
    | GeneratedStored(expr: string)
    | DefaultValue(expr: string)
    | NotNull

  predicate IsValueModifier(cl: ColumnClause) {
    cl.Identity? || cl.GeneratedStored? || cl.DefaultValue?
  }

  /**
    Collation first, then at most one of identity, generated-stored and
    default (identity wins, then generation; a generated column without an
    expression gets neither), then NOT NULL iff the column is not nullable.
  */
  function ColumnClauses(c: Column): (r: seq<ColumnClause>)
    ensures NotNull in r <==> !c.nullable
    ensures !c.nullable ==> r[|r| - 1] == NotNull
    ensures c.collation.Some? <==> (|r| > 0 && r[0].Collate?)
    ensures c.collation.Some? ==> r[0] == Collate(c.collation.value)
    ensures forall i, j :: 0 <= i < |r| && 0 <= j < |r| && IsValueModifier(r[i]) && IsValueModifier(r[j]) ==> i == j
    ensures c.isIdentity <==> exists cl :: cl in r && cl.Identity?
    ensures c.isIdentity ==> Identity(if c.identityGeneration == Some(Always) then "ALWAYS" else "BY DEFAULT") in r
    ensures (exists cl :: cl in r && cl.GeneratedStored?) <==>
              !c.isIdentity && c.isGenerated && c.generationExpression.Some?
    ensures (exists cl :: cl in r && cl.DefaultValue?) <==>
              !c.isIdentity && !c.isGenerated && c.default.Some?
  {
    var collate := if c.collation.Some? then [Collate(c.collation.value)] else [];
    var modifier := ValueModifier(c);
    var notNull := if !c.nullable then [NotNull] else [];
    var r := collate + modifier + notNull;
    ValueModifierAtMostOnce(collate, modifier, notNull);
    ModifierKinds(collate, modifier, notNull);
    r
  }

  /** Identity wins over generation, generation over a default; a generated column without an expression gets none. */
  function ValueModifier(c: Column): (r: seq<ColumnClause>)
    ensures |r| <= 1
    ensures c.isIdentity <==> (|r| == 1 && r[0].Identity?)
    ensures c.isIdentity ==> r[0] == Identity(if c.identityGeneration == Some(Always) then "ALWAYS" else "BY DEFAULT")
    ensures (|r| == 1 && r[0].GeneratedStored?) <==> !c.isIdentity && c.isGenerated && c.generationExpression.Some?
    ensures (|r| == 1 && r[0].DefaultValue?) <==> !c.isIdentity && !c.isGenerated && c.default.Some?
    ensures !c.isIdentity && c.isGenerated && c.generationExpression.Some? ==>
              r == [GeneratedStored(c.generationExpression.value)]
    ensures !c.isIdentity && !c.isGenerated && c.default.Some? ==> r == [DefaultValue(c.default.value)]
    ensures r == [] <==> !c.isIdentity && (if c.isGenerated then c.generationExpression.None? else c.default.None?)
  {
    if c.isIdentity then
      [Identity(match c.identityGeneration
                case Some(Always) => "ALWAYS"
                case Some(ByDefault) => "BY DEFAULT"
                case None => "BY DEFAULT")]
    else if c.isGenerated then
      (if c.generationExpression.Some? then [GeneratedStored(c.generationExpression.value)] else [])
    else if c.default.Some? then [DefaultValue(c.default.value)]
    else []
  }

  /** The value modifiers of `collate + modifier + notNull` are exactly those of `modifier`. */
  lemma ModifierKinds(collate: seq<ColumnClause>, modifier: seq<ColumnClause>, notNull: seq<ColumnClause>)
    requires forall k :: 0 <= k < |collate| ==> collate[k].Collate?
    requires forall k :: 0 <= k < |notNull| ==> notNull[k].NotNull?
    ensures forall cl :: cl in collate + modifier + notNull && IsValueModifier(cl) <==> cl in modifier && IsValueModifier(cl)
  {
  }

  /** Between clauses that are not value modifiers, at most one value modifier stays unique. */
  lemma ValueModifierAtMostOnce(collate: seq<ColumnClause>, modifier: seq<ColumnClause>, notNull: seq<ColumnClause>)
    requires |modifier| <= 1
    requires forall k :: 0 <= k < |collate| ==> !IsValueModifier(collate[k])
    requires forall k :: 0 <= k < |notNull| ==> !IsValueModifier(notNull[k])
    ensures var r := collate + modifier + notNull;
            forall i, j :: 0 <= i < |r| && 0 <= j < |r| && IsValueModifier(r[i]) && IsValueModifier(r[j]) ==> i == j
  {
    var r := collate + modifier + notNull;
    forall i | 0 <= i < |r| ensures IsValueModifier(r[i]) ==> i == |collate| {
      if i < |collate| {
        assert r[i] == collate[i];
      } else if i >= |collate| + |modifier| {
        assert r[i] == notNull[i - |collate| - |modifier|];
      }
    }
  }

  function RenderClause(cl: ColumnClause): string {
    match cl
    case Collate(coll) => " COLLATE " + coll
    case Identity(mode) => " GENERATED " + mode + " AS IDENTITY"
    case GeneratedStored(expr) => " GENERATED ALWAYS AS (" + expr + ") STORED"
    case DefaultValue(d) => " DEFAULT " + d
    case NotNull => " NOT NULL"
  }

  function RenderClauses(cls: seq<ColumnClause>): string {
    if cls == [] then "" else RenderClause(cls[0]) + RenderClauses(cls[1..])
  }

  /** Rendering a list of clauses is rendering each part in turn. */
  lemma {:induction false} RenderClausesAppend(a: seq<ColumnClause>, b: seq<ColumnClause>)
    ensures RenderClauses(a + b) == RenderClauses(a) + RenderClauses(b)
    decreases |a|
  {
    if a == [] {
      assert a + b == b;
    } else {
      assert (a + b)[0] == a[0];
      assert (a + b)[1..] == a[1..] + b;
      RenderClausesAppend(a[1..], b);
    }
  }

  /** The text of the value modifier a column gets, if any. */
  function ModifierText(c: Column): (r: string)
    ensures c.isIdentity ==>
              r == " GENERATED " + (if c.identityGeneration == Some(Always) then "ALWAYS" else "BY DEFAULT") + " AS IDENTITY"
    ensures !c.isIdentity && c.isGenerated && c.generationExpression.Some? ==>
              r == " GENERATED ALWAYS AS (" + c.generationExpression.value + ") STORED"
    ensures !c.isIdentity && !c.isGenerated && c.default.Some? ==> r == " DEFAULT " + c.default.value
    ensures r == "" <==> !c.isIdentity && (if c.isGenerated then c.generationExpression.None? else c.default.None?)
  {
    var m := ValueModifier(c);
    RenderAtMostOne(m);
    RenderClauses(m)
  }

  lemma RenderAtMostOne(m: seq<ColumnClause>)
    requires |m| <= 1
    ensures m == [] ==> RenderClauses(m) == ""
    ensures m != [] ==> RenderClauses(m) == RenderClause(m[0])
  {
    if m != [] {
      assert m[1..] == [];
    }
  }

  /** `name type [COLLATE c] [identity | generated | default] [NOT NULL]` */
  function RenderColumn(c: Column): (r: string)
    ensures IsPrefix(c.name + " " + RenderDataType(c.dataType), r)
    ensures c.collation.Some? ==> IsPrefix(c.name + " " + RenderDataType(c.dataType) + " COLLATE " + c.collation.value, r)
    ensures !c.nullable ==> EndsWith(r, " NOT NULL")
  {
    var head := c.name + " " + RenderDataType(c.dataType);
    var collate := if c.collation.Some? then " COLLATE " + c.collation.value else "";
    var notNull := if c.nullable then "" else " NOT NULL";
    PrefixOfConcat(head, collate);
    PrefixOfConcat(head + collate, ModifierText(c));
    PrefixOfConcat(head + collate + ModifierText(c), notNull);
    PrefixTransitive(head, head + collate, head + collate + ModifierText(c));
    PrefixTransitive(head + collate, head + collate + ModifierText(c), head + collate + ModifierText(c) + notNull);
    PrefixTransitive(head, head + collate + ModifierText(c), head + collate + ModifierText(c) + notNull);
    SuffixOfConcat(head + collate + ModifierText(c), notNull);
    head + collate + ModifierText(c) + notNull
  }

  /** A column definition is its name and type followed by its clause list, rendered in order. */
  lemma ColumnClausesText(c: Column)
    ensures RenderColumn(c) == c.name + " " + RenderDataType(c.dataType) + RenderClauses(ColumnClauses(c))
  {
    var collate := if c.collation.Some? then [Collate(c.collation.value)] else [];
    var notNull := if !c.nullable then [NotNull] else [];
    assert ColumnClauses(c) == collate + ValueModifier(c) + notNull;
    RenderClausesAppend(collate + ValueModifier(c), notNull);
    RenderClausesAppend(collate, ValueModifier(c));
    RenderAtMostOne(collate);
    RenderAtMostOne(notNull);
    ConcatAssoc(c.name + " " + RenderDataType(c.dataType), RenderClauses(collate), ModifierText(c), RenderClauses(notNull));
  }

  lemma ConcatAssoc(h: string, a: string, b: string, d: string)
    ensures h + (a + b + d) == h + a + b + d
  {
  }


  // ---------------------------------------------------------------------------
  // Tables and their constraints
  // ---------------------------------------------------------------------------

  /** The column definitions of a table, one per column, in order. */
  function RenderedColumns(t: Table): (r: seq<string>)
    ensures |r| == |t.columns|
    ensures forall i :: 0 <= i < |t.columns| ==> r[i] == RenderColumn(t.columns[i])
  {
    seq(|t.columns|, i requires 0 <= i < |t.columns| => RenderColumn(t.columns[i]))
  }

  /**
    `CREATE TABLE q (columns)`, then `, PRIMARY KEY (cols)` exactly when the
    table has a primary key, then `;`. The primary key clause is written after
    the parenthesis that closes the column list.
  */
  function CreateTableStatement(q: string, t: Table): (r: string)
    ensures IsPrefix("CREATE TABLE " + q + " (" + Join(RenderedColumns(t), ", ") + ")", r)
    ensures t.primaryKey.Some? ==> EndsWith(r, ", PRIMARY KEY (" + Join(t.primaryKey.value.columns, ", ") + ");")
    ensures t.primaryKey.None? ==> r == "CREATE TABLE " + q + " (" + Join(RenderedColumns(t), ", ") + ")" + ";"
  {
    var head := "CREATE TABLE " + q + " (" + Join(RenderedColumns(t), ", ") + ")";
    if t.primaryKey.Some? then
      var pk := Join(t.primaryKey.value.columns, ", ");
      SuffixOfParts(head, ", PRIMARY KEY (", pk, ");");
      PrefixOfConcat(head, ", PRIMARY KEY (");
      PrefixOfConcat(head + ", PRIMARY KEY (", pk);
      PrefixOfConcat(head + ", PRIMARY KEY (" + pk, ");");
      PrefixTransitive(head, head + ", PRIMARY KEY (", head + ", PRIMARY KEY (" + pk);
      PrefixTransitive(head, head + ", PRIMARY KEY (" + pk, head + ", PRIMARY KEY (" + pk + ");");
      head + ", PRIMARY KEY (" + pk + ");"
    else
      PrefixOfConcat(head, ";");
      head + ";"
  }

  function PrimaryKeyElement(pk: PrimaryKey): string {
    "PRIMARY KEY (" + Join(pk.columns, ", ") + ")"
  }

  /**
    The primary key as one more element of the parenthesised table-element
    list, after the column definitions: the placement that `CREATE TABLE`
    accepts.
  */
  function InlineCreateTableStatement(q: string, t: Table): (r: string)
    ensures t.primaryKey.None? ==> r == CreateTableStatement(q, t)
    ensures t.primaryKey.Some? && t.columns != [] ==>
              r == "CREATE TABLE " + q + " (" + Join(RenderedColumns(t), ", ") + ", " + PrimaryKeyElement(t.primaryKey.value) + ");"
  {
    var cols := RenderedColumns(t);
    if t.primaryKey.Some? then
      var pk := PrimaryKeyElement(t.primaryKey.value);
      if t.columns != [] then
        JoinAppend(cols, pk, ", ");
        ConcatAssoc("CREATE TABLE " + q + " (", Join(cols, ", "), ", ", pk);
        "CREATE TABLE " + q + " (" + Join(cols + [pk], ", ") + ");"
      else
        "CREATE TABLE " + q + " (" + Join(cols + [pk], ", ") + ");"
    else
      "CREATE TABLE " + q + " (" + Join(cols, ", ") + ")" + ";"
  }

  /**
    As written, a table with columns and a primary key closes its column list
    before the key: the character after the last column definition is `)` in
    the rendered statement, where the inline placement has `,`.
  */
  lemma PrimaryKeyOutsideColumnList(q: string, t: Table)
    requires t.primaryKey.Some? && t.columns != []
    ensures var p := "CREATE TABLE " + q + " (" + Join(RenderedColumns(t), ", ");
            |p| < |CreateTableStatement(q, t)| && |p| < |InlineCreateTableStatement(q, t)|
            && CreateTableStatement(q, t)[|p|] == ')' && InlineCreateTableStatement(q, t)[|p|] == ','
    ensures CreateTableStatement(q, t) != InlineCreateTableStatement(q, t)
  {
    var p := "CREATE TABLE " + q + " (" + Join(RenderedColumns(t), ", ");
    var asWritten := CreateTableStatement(q, t);
    var inline := InlineCreateTableStatement(q, t);
    assert IsPrefix(p + ")", asWritten);
    assert asWritten[|p|] == (p + ")")[|p|];
    var rest := ", " + PrimaryKeyElement(t.primaryKey.value) + ");";
    ConcatAssoc(p, ", ", PrimaryKeyElement(t.primaryKey.value), ");");
    assert inline == p + rest;
    assert inline[|p|] == rest[0];
  }

  /** An explicit constraint name, or `<table>_<cols joined by _>_<suffix>`. */
  function ConstraintName(explicit: Option<string>, table: string, columns: seq<string>, suffix: string): (r: string)
    ensures explicit.Some? ==> r == explicit.value
    ensures explicit.None? ==> r == table + "_" + Join(columns, "_") + "_" + suffix
  {
    match explicit
    case Some(n) => n
    case None => table + "_" + Join(columns, "_") + "_" + suffix
  }

  /** `ALTER TABLE q ADD CONSTRAINT <name> UNIQUE (cols);` */
  function UniqueStatement(q: string, t: Table, u: UniqueConstraint): (r: string)
    ensures IsPrefix("ALTER TABLE " + q + " ADD CONSTRAINT " + ConstraintName(u.name, t.name, u.columns, "key"), r)
    ensures EndsWith(r, " UNIQUE (" + Join(u.columns, ", ") + ");")
  {
    var head := "ALTER TABLE " + q + " ADD CONSTRAINT " + ConstraintName(u.name, t.name, u.columns, "key");
    var cols := Join(u.columns, ", ");
    SuffixOfParts(head, " UNIQUE (", cols, ");");
    PrefixOfConcat(head, " UNIQUE (" + cols + ");");
    ConcatAssoc(head, " UNIQUE (", cols, ");");
    head + " UNIQUE (" + cols + ");"
  }

  /** A named check is added as a named constraint; an unnamed one with a bare `ADD CHECK`. */
  function CheckStatement(q: string, ck: CheckConstraint): (r: string)
    ensures ck.name.Some? ==> IsPrefix("ALTER TABLE " + q + " ADD CONSTRAINT " + ck.name.value, r)
    ensures ck.name.None? ==> r == "ALTER TABLE " + q + " ADD" + " CHECK (" + ck.expression + ");"
    ensures EndsWith(r, " CHECK (" + ck.expression + ");")
  {
    var head := "ALTER TABLE " + q + (if ck.name.Some? then " ADD CONSTRAINT " + ck.name.value else " ADD");
    SuffixOfParts(head, " CHECK (", ck.expression, ");");
    PrefixOfConcat(head, " CHECK (" + ck.expression + ");");
    ConcatAssoc(head, " CHECK (", ck.expression, ");");
    head + " CHECK (" + ck.expression + ");"
  }

  function ActionText(a: ReferentialAction): string {
    match a
    case NoAction => "NO ACTION"
    case Restrict => "RESTRICT"
    case Cascade => "CASCADE"
    case SetNull => "SET NULL"
    case SetDefault => "SET DEFAULT"
  }

  /** `[ON DELETE action] [ON UPDATE action]`, each present iff set. */
  function ReferentialActions(fk: ForeignKey): (r: string)
    ensures r == "" <==> fk.onDelete.None? && fk.onUpdate.None?
    ensures fk.onDelete.Some? ==> IsPrefix(" ON DELETE " + ActionText(fk.onDelete.value), r)
    ensures fk.onUpdate.Some? ==> EndsWith(r, " ON UPDATE " + ActionText(fk.onUpdate.value))
    ensures fk.onDelete.None? && fk.onUpdate.Some? ==> r == " ON UPDATE " + ActionText(fk.onUpdate.value)
  {
    var onDelete := if fk.onDelete.Some? then " ON DELETE " + ActionText(fk.onDelete.value) else "";
    var onUpdate := if fk.onUpdate.Some? then " ON UPDATE " + ActionText(fk.onUpdate.value) else "";
    PrefixOfConcat(onDelete, onUpdate);
    SuffixOfConcat(onDelete, onUpdate);
    onDelete + onUpdate
  }

  /** `ALTER TABLE q ADD CONSTRAINT <name> FOREIGN KEY (cols) REFERENCES <table>` */
  function ForeignKeyHead(q: string, t: Table, fk: ForeignKey): string {
    "ALTER TABLE " + q + " ADD CONSTRAINT " + ConstraintName(fk.name, t.name, fk.columns, "fkey")
      + " FOREIGN KEY (" + Join(fk.columns, ", ") + ") REFERENCES " + QualifiedNameToString(fk.referencedTable)
  }

  /**
    The referenced column list follows the referenced table exactly when it is
    given; the referential actions and `;` close the statement.
  */
  function ForeignKeyStatement(q: string, t: Table, fk: ForeignKey): (r: string)
    ensures IsPrefix(ForeignKeyHead(q, t, fk), r)
    ensures EndsWith(r, ReferentialActions(fk) + ";")
    ensures fk.referencedColumns.Some? ==>
              IsPrefix(ForeignKeyHead(q, t, fk) + " (" + Join(fk.referencedColumns.value, ", ") + ")", r)
    ensures fk.referencedColumns.None? ==> r == ForeignKeyHead(q, t, fk) + ReferentialActions(fk) + ";"
  {
    var head := ForeignKeyHead(q, t, fk);
    var tail := ReferentialActions(fk) + ";";
    if fk.referencedColumns.Some? then
      var refcols := " (" + Join(fk.referencedColumns.value, ", ") + ")";
      ConcatAssoc(head, " (", Join(fk.referencedColumns.value, ", "), ")");
      PrefixOfConcat(head, refcols);
      PrefixOfConcat(head + refcols, tail);
      PrefixTransitive(head, head + refcols, head + refcols + tail);
      SuffixOfConcat(head + refcols, tail);
      head + refcols + tail
    else
      PrefixOfConcat(head, tail);
      SuffixOfConcat(head, tail);
      head + tail
  }

  function UniqueStatements(q: string, t: Table): (r: seq<string>)
    ensures |r| == |t.uniques|
    ensures forall i :: 0 <= i < |t.uniques| ==> r[i] == UniqueStatement(q, t, t.uniques[i])
  {
    seq(|t.uniques|, i requires 0 <= i < |t.uniques| => UniqueStatement(q, t, t.uniques[i]))
  }

  function CheckStatements(q: string, t: Table): (r: seq<string>)
    ensures |r| == |t.checks|
    ensures forall i :: 0 <= i < |t.checks| ==> r[i] == CheckStatement(q, t.checks[i])
  {
    seq(|t.checks|, i requires 0 <= i < |t.checks| => CheckStatement(q, t.checks[i]))
  }

  function ForeignKeyStatements(q: string, t: Table): (r: seq<string>)
    ensures |r| == |t.foreignKeys|
    ensures forall i :: 0 <= i < |t.foreignKeys| ==> r[i] == ForeignKeyStatement(q, t, t.foreignKeys[i])
  {
    seq(|t.foreignKeys|, i requires 0 <= i < |t.foreignKeys| => ForeignKeyStatement(q, t, t.foreignKeys[i]))
  }

  /** A table's statements: CREATE TABLE, then its uniques, then its checks, then its foreign keys. */
  function TableBlock(schemaName: string, t: Table): (r: seq<string>)
    ensures |r| == 1 + |t.uniques| + |t.checks| + |t.foreignKeys|
    ensures r[0] == CreateTableStatement(schemaName + "." + t.name, t)
    ensures r[1..1 + |t.uniques|] == UniqueStatements(schemaName + "." + t.name, t)
    ensures r[1 + |t.uniques|..1 + |t.uniques| + |t.checks|] == CheckStatements(schemaName + "." + t.name, t)
    ensures forall i :: 0 <= i < |t.foreignKeys| ==>
              r[1 + |t.uniques| + |t.checks| + i] == ForeignKeyStatement(schemaName + "." + t.name, t, t.foreignKeys[i])
  {
    var q := schemaName + "." + t.name;
    var create := CreateTableStatement(q, t);
    var uniques := UniqueStatements(q, t);
    var checks := CheckStatements(q, t);
    var fks := ForeignKeyStatements(q, t);
    BlockLayout(create, uniques, checks, fks);
    [create] + uniques + checks + fks
  }

  /** Where the head and each of the three following parts sit in a four-part sequence. */
  lemma BlockLayout<T>(x: T, u: seq<T>, c: seq<T>, f: seq<T>)
    ensures |[x] + u + c + f| == 1 + |u| + |c| + |f|
    ensures ([x] + u + c + f)[0] == x
    ensures ([x] + u + c + f)[1..1 + |u|] == u
    ensures ([x] + u + c + f)[1 + |u|..1 + |u| + |c|] == c
    ensures forall i :: 0 <= i < |f| ==> ([x] + u + c + f)[1 + |u| + |c| + i] == f[i]
  {
    var s := [x] + u + c + f;
    assert s[1..1 + |u|] == u by {
      forall k | 0 <= k < |u| ensures s[1 + k] == u[k] { }
    }
    assert s[1 + |u|..1 + |u| + |c|] == c by {
      forall k | 0 <= k < |c| ensures s[1 + |u| + k] == c[k] { }
    }
  }

  // ---------------------------------------------------------------------------
  // Types, sequences, domains and views
  // ---------------------------------------------------------------------------

  /**
    `COMMENT ON <kind> <name> IS '<text>';` when a comment is set, nothing
    otherwise; the quoted text reads back as the comment.
  */
  function CommentStatement(kind: string, q: string, comment: Option<string>): (r: seq<string>)
    ensures |r| == (if comment.Some? then 1 else 0)
    ensures comment.Some? ==>
              var p := "COMMENT ON " + kind + " " + q + " IS '";
              |p| + 2 <= |r[0]| && IsPrefix(p, r[0]) && EndsWith(r[0], "';")
              && Unescape(r[0][|p|..|r[0]| - 2]) == Some(comment.value)
  {
    if comment.Some? then
      var p := "COMMENT ON " + kind + " " + q + " IS '";
      var e := Esc(comment.value);
      var line := p + e + "';";
      EscRoundTrip(comment.value);
      PrefixOfConcat(p, e);
      PrefixOfConcat(p + e, "';");
      PrefixTransitive(p, p + e, line);
      SuffixOfConcat(p + e, "';");
      assert line[|p|..|line| - 2] == e;
      [line]
    else []
  }

  function EnumBlock(e: EnumType): seq<string> {
    var q := QualifiedNameToString(QualifiedName(e.schema, e.name));
    var vars := Join(seq(|e.variants|, i requires 0 <= i < |e.variants| => "'" + Esc(e.variants[i]) + "'"), ", ");
    ["CREATE TYPE " + q + " AS ENUM (" + vars + ");"] + CommentStatement("TYPE", q, e.comment)
  }

  /** 1 when the option is set, 0 otherwise. */
  function Present(o: Option<int>): nat {
    if o.Some? then 1 else 0
  }

  /**
    The words of a CREATE SEQUENCE statement: START, INCREMENT, MINVALUE,
    MAXVALUE and CACHE, each only when set and in that order, and always a
    final CYCLE or NO CYCLE.
  */
  function SequenceParts(sq: Sequence): (r: seq<string>)
    ensures |r| >= 2
    ensures r[0] == "CREATE SEQUENCE " + QualifiedNameToString(QualifiedName(sq.schema, sq.name))
    ensures r[|r| - 1] == if sq.cycle then "CYCLE" else "NO CYCLE"
    ensures |r| == 2 + Present(sq.start) + Present(sq.increment) + Present(sq.minValue)
                     + Present(sq.maxValue) + Present(sq.cache)
    ensures sq.start.Some? ==> r[1] == "START WITH " + IntToString(sq.start.value)
    ensures sq.increment.Some? ==>
              r[1 + Present(sq.start)] == "INCREMENT BY " + IntToString(sq.increment.value)
    ensures sq.minValue.Some? ==>
              r[1 + Present(sq.start) + Present(sq.increment)] == "MINVALUE " + IntToString(sq.minValue.value)
    ensures sq.maxValue.Some? ==>
              r[1 + Present(sq.start) + Present(sq.increment) + Present(sq.minValue)]
              == "MAXVALUE " + IntToString(sq.maxValue.value)
    ensures sq.cache.Some? ==> r[|r| - 2] == "CACHE " + IntToString(sq.cache.value)
  {
    var start := OptionalWord("START WITH ", sq.start);
    var inc := OptionalWord("INCREMENT BY ", sq.increment);
    var minv := OptionalWord("MINVALUE ", sq.minValue);
    var maxv := OptionalWord("MAXVALUE ", sq.maxValue);
    var cache := OptionalWord("CACHE ", sq.cache);
    var head := "CREATE SEQUENCE " + QualifiedNameToString(QualifiedName(sq.schema, sq.name));
    var cycle := if sq.cycle then "CYCLE" else "NO CYCLE";
    SlotLayout(head, start, inc, minv, maxv, cache, cycle);
    [head] + start + inc + minv + maxv + cache + [cycle]
  }

  /** `prefix` followed by the value when it is set; nothing otherwise. */
  function OptionalWord(prefix: string, v: Option<int>): (r: seq<string>)
    ensures |r| == Present(v)
    ensures v.Some? ==> r[0] == prefix + IntToString(v.value)
  {
    if v.Some? then [prefix + IntToString(v.value)] else []
  }

  /** Where the first element of each slot, and the frame, sit in `[h] + a + b + c + d + e + [z]`. */
  lemma SlotLayout<T>(h: T, a: seq<T>, b: seq<T>, c: seq<T>, d: seq<T>, e: seq<T>, z: T)
    ensures var w := [h] + a + b + c + d + e + [z];
            |w| == 2 + |a| + |b| + |c| + |d| + |e|
            && w[0] == h && w[|w| - 1] == z
            && (|a| > 0 ==> w[1] == a[0])
            && (|b| > 0 ==> w[1 + |a|] == b[0])
            && (|c| > 0 ==> w[1 + |a| + |b|] == c[0])
            && (|d| > 0 ==> w[1 + |a| + |b| + |c|] == d[0])
            && (|e| > 0 ==> w[1 + |a| + |b| + |c| + |d|] == e[0])
  {
  }

  function SequenceBlock(sq: Sequence): seq<string> {
    var q := QualifiedNameToString(QualifiedName(sq.schema, sq.name));
    [Join(SequenceParts(sq), " ") + ";"] + CommentStatement("SEQUENCE", q, sq.comment)
  }

  function CompositeBlock(ct: CompositeType): seq<string> {
    var q := QualifiedNameToString(QualifiedName(ct.schema, ct.name));
    var fields := Join(seq(|ct.fields|, i requires 0 <= i < |ct.fields| =>
                         ct.fields[i].name + " " + RenderDataType(ct.fields[i].dataType)), ", ");
    ["CREATE TYPE " + q + " AS (" + fields + ");"] + CommentStatement("TYPE", q, ct.comment)
  }

  function DomainBlock(d: DomainType): seq<string> {
    var q := QualifiedNameToString(QualifiedName(d.schema, d.name));
    var line := "CREATE DOMAIN " + q + " AS " + RenderDataType(d.baseType)
                + (if d.notNull then " NOT NULL" else "")
                + (if d.default.Some? then " DEFAULT " + d.default.value else "") + ";";
    [line] + CommentStatement("DOMAIN", q, d.comment)
  }

  function ViewBlock(schemaName: string, v: View): seq<string> {
    var q := schemaName + "." + v.name;
    [(if v.materialized then "CREATE MATERIALIZED VIEW " else "CREATE VIEW ") + q + " AS\n" + v.definition + ";"]
    + CommentStatement("VIEW", q, v.comment)
  }

  function MaterializedViewBlock(schemaName: string, mv: MaterializedView): seq<string> {
    var q := schemaName + "." + mv.name;
    ["CREATE MATERIALIZED VIEW " + q + " AS\n" + mv.definition + ";"]
    + CommentStatement("MATERIALIZED VIEW", q, mv.comment)
  }

  /** The per-object renderers of the passes that need the schema's name. */
  function TableBlockIn(schemaName: string): Table -> seq<string> {
    t => TableBlock(schemaName, t)
  }

  function ViewBlockIn(schemaName: string): View -> seq<string> {
    v => ViewBlock(schemaName, v)
  }

  function MaterializedViewBlockIn(schemaName: string): MaterializedView -> seq<string> {
    mv => MaterializedViewBlock(schemaName, mv)
  }

  // ---------------------------------------------------------------------------
  // Sorted keys
  // ---------------------------------------------------------------------------

  predicate IsLeast(m: string, keys: set<string>) {
    m in keys && forall x | x in keys :: x == m || Less(m, x)
  }

  lemma {:induction false} LeastExists(keys: set<string>)
    requires keys != {}
    ensures exists m :: IsLeast(m, keys)
    decreases |keys|
  {
    var x :| x in keys;
    var rest := keys - {x};
    if rest == {} {
      assert keys == {x};
      assert IsLeast(x, keys);
    } else {
      LeastExists(rest);
      var y :| IsLeast(y, rest);
      LessTotal(x, y);
      if Less(x, y) {
        forall z | z in keys ensures z == x || Less(x, z) {
          if z != x && z != y { LessTransitive(x, y, z); }
        }
        assert IsLeast(x, keys);
      } else {
        assert IsLeast(y, keys);
      }
    }
  }

  lemma LeastUnique(m1: string, m2: string, keys: set<string>)
    requires IsLeast(m1, keys) && IsLeast(m2, keys)
    ensures m1 == m2
  {
    if m1 != m2 {
      assert Less(m1, m2) && Less(m2, m1);
      LessTransitive(m1, m2, m1);
      LessIrreflexive(m1);
    }
  }

  /** The keys in increasing order (what `keys().cloned().collect()` followed by `sort()` gives). */
  ghost function SortedKeys(keys: set<string>): seq<string>
    decreases |keys|
  {
    if keys == {} then []
    else
      LeastExists(keys);
      var m :| IsLeast(m, keys);
      [m] + SortedKeys(keys - {m})
  }

  predicate StrictlySorted(ks: seq<string>) {
    forall i, j :: 0 <= i < j < |ks| ==> Less(ks[i], ks[j])
  }

  /** The sorted key list holds every key exactly once, in strictly increasing order. */
  lemma {:induction false} SortedKeysCorrect(keys: set<string>)
    ensures |SortedKeys(keys)| == |keys|
    ensures forall k :: k in keys <==> k in SortedKeys(keys)
    ensures StrictlySorted(SortedKeys(keys))
    decreases |keys|
  {
    if keys != {} {
      var ks := SortedKeys(keys);
      var m := ks[0];
      assert IsLeast(m, keys);
      SortedKeysCorrect(keys - {m});
      assert ks == [m] + SortedKeys(keys - {m});
      forall k ensures k in keys <==> k in ks {
        if k in keys && k != m { assert k in SortedKeys(keys - {m}); }
      }
    }
  }

  lemma SortedKeysStep(keys: set<string>, m: string)
    requires IsLeast(m, keys)
    ensures SortedKeys(keys) == [m] + SortedKeys(keys - {m})
  {
    var ks := SortedKeys(keys);
    LeastUnique(ks[0], m, keys);
  }

  method SortKeys(keys: set<string>) returns (ks: seq<string>)
    ensures ks == SortedKeys(keys)
  {
    var rest := keys;
    ks := [];
    while rest != {}
      invariant ks + SortedKeys(rest) == SortedKeys(keys)
      decreases |rest|
    {
      LeastExists(rest);
      var m :| IsLeast(m, rest);
      SortedKeysStep(rest, m);
      ks := ks + [m];
      rest := rest - {m};
    }
  }

  // ---------------------------------------------------------------------------
  // Passes and the whole rendering
  // ---------------------------------------------------------------------------

  /** The statements of the objects named by `ks`, in the order of `ks`. */
  function Section<V>(m: map<string, V>, ks: seq<string>, block: V -> seq<string>): seq<string>
    decreases |ks|
  {
    if ks == [] then []
    else Section(m, ks[..|ks| - 1], block) + (if ks[|ks| - 1] in m then block(m[ks[|ks| - 1]]) else [])
  }

  ghost function Pass<V>(m: map<string, V>, block: V -> seq<string>): seq<string> {
    Section(m, SortedKeys(m.Keys), block)
  }

  function Header(s: Schema): seq<string> {
    ["CREATE SCHEMA IF NOT EXISTS " + s.name + ";"] + CommentStatement("SCHEMA", s.name, s.comment)
  }

  /** Everything emitted before the tables: the schema, enums, sequences, composite types and domains. */
  ghost function Prelude(s: Schema): seq<string> {
    Header(s)
    + Pass(s.enums, EnumBlock)
    + Pass(s.sequences, SequenceBlock)
    + Pass(s.compositeTypes, CompositeBlock)
    + Pass(s.domains, DomainBlock)
  }

  /** Everything emitted after the tables: views, then materialized views. */
  ghost function Postlude(s: Schema): seq<string> {
    Pass(s.views, ViewBlockIn(s.name))
    + Pass(s.materializedViews, MaterializedViewBlockIn(s.name))
  }

  ghost function TablePass(s: Schema): seq<string> {
    Pass(s.tables, TableBlockIn(s.name))
  }

  /** The statements `to_ddl` emits, in order. */
  ghost function Statements(s: Schema): seq<string> {
    Prelude(s) + TablePass(s) + Postlude(s)
  }

  /** Appends the statements of every object of `m`, in sorted key order. */
  method EmitPass<V>(stmts: seq<string>, m: map<string, V>, block: V -> seq<string>) returns (out: seq<string>)
    ensures out == stmts + Pass(m, block)
  {
    var keys := SortKeys(m.Keys);
    out := stmts;
    for i := 0 to |keys|
      invariant out == stmts + Section(m, keys[..i], block)
    {
      assert keys[..i + 1][..i] == keys[..i];
      var k := keys[i];
      if k in m {
        out := out + block(m[k]);
      }
    }
    assert keys[..|keys|] == keys;
  }

  lemma {:induction false} JoinPrefix(parts: seq<string>, sep: string)
    requires |parts| > 0
    ensures IsPrefix(parts[0], Join(parts, sep))
  {
  }

  /** `Schema::to_ddl`: the statements of every pass, joined with newlines. */
  method ToDdl(s: Schema) returns (ddl: string)
    ensures ddl == Join(Statements(s), "\n")
    ensures IsPrefix("CREATE SCHEMA IF NOT EXISTS " + s.name + ";", ddl)
  {
    var stmts := Header(s);
    stmts := EmitPass(stmts, s.enums, EnumBlock);
    stmts := EmitPass(stmts, s.sequences, SequenceBlock);
    stmts := EmitPass(stmts, s.compositeTypes, CompositeBlock);
    stmts := EmitPass(stmts, s.domains, DomainBlock);
    assert stmts == Prelude(s);
    stmts := EmitPass(stmts, s.tables, TableBlockIn(s.name));
    var beforeViews := stmts;
    stmts := EmitPass(stmts, s.views, ViewBlockIn(s.name));
    stmts := EmitPass(stmts, s.materializedViews, MaterializedViewBlockIn(s.name));
    assert stmts == beforeViews + Postlude(s);
    ddl := Join(stmts, "\n");
    JoinPrefix(stmts, "\n");
  }

  // ---------------------------------------------------------------------------
  // Where statements land
  // ---------------------------------------------------------------------------

  lemma {:induction false} SectionAppend<V>(m: map<string, V>, ks1: seq<string>, ks2: seq<string>, block: V -> seq<string>)
    ensures Section(m, ks1 + ks2, block) == Section(m, ks1, block) + Section(m, ks2, block)
    decreases |ks2|
  {
    if ks2 == [] {
      assert ks1 + ks2 == ks1;
    } else {
      var init := ks2[..|ks2| - 1];
      assert (ks1 + ks2)[..|ks1 + ks2| - 1] == ks1 + init;
      SectionAppend(m, ks1, init, block);
    }
  }

  /** The objects before `ks[j]`, then `ks[j]` itself, then the objects after it. */
  lemma SectionSplit<V>(m: map<string, V>, ks: seq<string>, j: nat, block: V -> seq<string>)
    requires j < |ks| && ks[j] in m
    ensures Section(m, ks, block) == Section(m, ks[..j], block) + block(m[ks[j]]) + Section(m, ks[j + 1..], block)
  {
    assert ks == ks[..j] + [ks[j]] + ks[j + 1..];
    SectionAppend(m, ks[..j] + [ks[j]], ks[j + 1..], block);
    SectionAppend(m, ks[..j], [ks[j]], block);
    assert Section(m, [ks[j]], block) == block(m[ks[j]]) by {
      assert [ks[j]][..0] == [];
    }
  }

  lemma SectionContains<V>(m: map<string, V>, ks: seq<string>, k: string, block: V -> seq<string>, x: string)
    requires k in ks && k in m && x in block(m[k])
    ensures x in Section(m, ks, block)
  {
    var j :| 0 <= j < |ks| && ks[j] == k;
    SectionSplit(m, ks, j, block);
  }

  lemma SortedIndexOrder(ks: seq<string>, ia: nat, ib: nat)
    requires StrictlySorted(ks) && ia < |ks| && ib < |ks| && Less(ks[ia], ks[ib])
    ensures ia < ib
  {
    if ib == ia {
      LessIrreflexive(ks[ia]);
    } else if ib < ia {
      LessTransitive(ks[ia], ks[ib], ks[ia]);
      LessIrreflexive(ks[ia]);
    }
  }

  /** Every table of the schema gets its CREATE TABLE statement. */
  lemma EveryTableCreated(s: Schema, k: string)
    requires k in s.tables
    ensures CreateTableStatement(s.name + "." + s.tables[k].name, s.tables[k]) in Statements(s)
  {
    SortedKeysCorrect(s.tables.Keys);
    SectionContains(s.tables, SortedKeys(s.tables.Keys), k, TableBlockIn(s.name),
                    CreateTableStatement(s.name + "." + s.tables[k].name, s.tables[k]));
  }

  /** The `j`th element of the middle part of a three-part sequence. */
  lemma ConcatIndex<T>(st: seq<T>, a: seq<T>, b: seq<T>, c: seq<T>, j: nat, x: T)
    requires st == a + b + c && j < |b| && b[j] == x
    ensures |a| + j < |st| && st[|a| + j] == x
  {
  }

  /** An element of the second of four parts precedes an element of the third. */
  lemma ConcatOrder<T>(st: seq<T>, a: seq<T>, b: seq<T>, c: seq<T>, d: seq<T>, j: nat, k: nat, x: T, y: T)
    requires st == a + b + c + d && j < |b| && k < |c| && b[j] == x && c[k] == y
    ensures |a| + j < |a| + |b| + k < |st| && st[|a| + j] == x && st[|a| + |b| + k] == y
  {
  }

  /** Inside a pass, every statement of an earlier object precedes every statement of a later one. */
  lemma SectionOrder<V>(m: map<string, V>, ks: seq<string>, ia: nat, ib: nat, block: V -> seq<string>, ox: nat, oy: nat)
    requires ia < ib < |ks| && ks[ia] in m && ks[ib] in m
    requires ox < |block(m[ks[ia]])| && oy < |block(m[ks[ib]])|
    ensures exists p, q :: 0 <= p < q < |Section(m, ks, block)|
              && Section(m, ks, block)[p] == block(m[ks[ia]])[ox]
              && Section(m, ks, block)[q] == block(m[ks[ib]])[oy]
  {
    SectionSplit(m, ks, ib, block);
    SectionSplit(m, ks[..ib], ia, block);
    assert ks[..ib][..ia] == ks[..ia];
    assert ks[..ib][ia] == ks[ia];
    var sec := Section(m, ks, block);
    var before := Section(m, ks[..ib], block);
    var pre := Section(m, ks[..ia], block);
    var ba := block(m[ks[ia]]);
    var bb := block(m[ks[ib]]);
    PairOrder(sec, before, pre, ba, Section(m, ks[..ib][ia + 1..], block), bb, Section(m, ks[ib + 1..], block), ox, oy);
    var p := |pre| + ox;
    var q := |before| + oy;
    assert 0 <= p < q < |sec| && sec[p] == ba[ox] && sec[q] == bb[oy];
  }

  /** Where an element of `ba` and one of `bb` sit in `(pre + ba + mid) + bb + post`. */
  lemma PairOrder<T>(st: seq<T>, before: seq<T>, pre: seq<T>, ba: seq<T>, mid: seq<T>, bb: seq<T>, post: seq<T>, ox: nat, oy: nat)
    requires before == pre + ba + mid && st == before + bb + post && ox < |ba| && oy < |bb|
    ensures |pre| + ox < |before| + oy < |st|
    ensures st[|pre| + ox] == ba[ox] && st[|before| + oy] == bb[oy]
  {
  }

  /**
    As written, a table's foreign keys are emitted right after its own CREATE
    TABLE, so a foreign key of table `a` that references a table `b` whose key
    sorts after `a` is added before `b` exists.
  */
  lemma ForeignKeyBeforeReferencedTable(s: Schema, a: string, b: string, i: nat)
    requires a in s.tables && b in s.tables && Less(a, b)
    requires i < |s.tables[a].foreignKeys|
    requires s.tables[a].foreignKeys[i].referencedTable.name == s.tables[b].name
    ensures exists p, q :: 0 <= p < q < |Statements(s)|
              && Statements(s)[p] == ForeignKeyStatement(s.name + "." + s.tables[a].name, s.tables[a], s.tables[a].foreignKeys[i])
              && Statements(s)[q] == CreateTableStatement(s.name + "." + s.tables[b].name, s.tables[b])
  {
    var sec := TablePass(s);
    var fk := ForeignKeyStatement(s.name + "." + s.tables[a].name, s.tables[a], s.tables[a].foreignKeys[i]);
    var create := CreateTableStatement(s.name + "." + s.tables[b].name, s.tables[b]);
    ForeignKeyBeforeTableInPass(s, a, b, i);
    var p, q :| 0 <= p < q < |sec| && sec[p] == fk && sec[q] == create;
    assert Statements(s) == Prelude(s) + sec + Postlude(s);
    ConcatIndex(Statements(s), Prelude(s), sec, Postlude(s), p, fk);
    ConcatIndex(Statements(s), Prelude(s), sec, Postlude(s), q, create);
  }

  /** Within the table pass, the foreign key of `a` precedes the CREATE TABLE of `b`. */
  lemma ForeignKeyBeforeTableInPass(s: Schema, a: string, b: string, i: nat)
    requires a in s.tables && b in s.tables && Less(a, b)
    requires i < |s.tables[a].foreignKeys|
    ensures exists p, q :: 0 <= p < q < |TablePass(s)|
              && TablePass(s)[p] == ForeignKeyStatement(s.name + "." + s.tables[a].name, s.tables[a], s.tables[a].foreignKeys[i])
              && TablePass(s)[q] == CreateTableStatement(s.name + "." + s.tables[b].name, s.tables[b])
  {
    var m := s.tables;
    var block := TableBlockIn(s.name);
    var ks := SortedKeys(m.Keys);
    var ia, ib := SortedPositions(m.Keys, a, b);
    var ta := m[a];
    var ox := 1 + |ta.uniques| + |ta.checks| + i;
    var fk := ForeignKeyStatement(s.name + "." + ta.name, ta, ta.foreignKeys[i]);
    var create := CreateTableStatement(s.name + "." + m[b].name, m[b]);
    TableBlockAt(s.name, ta, i);
    TableBlockAt(s.name, m[b], 0);
    SectionOrder(m, ks, ia, ib, block, ox, 0);
    assert TablePass(s) == Section(m, ks, block);
  }

  lemma TableBlockAt(schemaName: string, t: Table, i: nat)
    ensures |TableBlockIn(schemaName)(t)| > 0
    ensures TableBlockIn(schemaName)(t)[0] == CreateTableStatement(schemaName + "." + t.name, t)
    ensures i < |t.foreignKeys| ==>
              TableBlockIn(schemaName)(t)[1 + |t.uniques| + |t.checks| + i]
              == ForeignKeyStatement(schemaName + "." + t.name, t, t.foreignKeys[i])
  {
    assert TableBlockIn(schemaName)(t) == TableBlock(schemaName, t);
  }

  /** Where two keys sit in the sorted key list: the smaller one first. */
  lemma SortedPositions(keys: set<string>, a: string, b: string) returns (ia: nat, ib: nat)
    requires a in keys && b in keys && Less(a, b)
    ensures ia < ib < |SortedKeys(keys)| && SortedKeys(keys)[ia] == a && SortedKeys(keys)[ib] == b
  {
    var ks := SortedKeys(keys);
    SortedKeysCorrect(keys);
    ia :| 0 <= ia < |ks| && ks[ia] == a;
    ib :| 0 <= ib < |ks| && ks[ib] == b;
    SortedIndexOrder(ks, ia, ib);
  }

  /** A table's CREATE TABLE statement with its unique and check constraints, without foreign keys. */
  function CreateBlock(schemaName: string, t: Table): (r: seq<string>)
    ensures r + ForeignKeyStatements(schemaName + "." + t.name, t) == TableBlock(schemaName, t)
    ensures |r| > 0 && r[0] == CreateTableStatement(schemaName + "." + t.name, t)
  {
    var q := schemaName + "." + t.name;
    [CreateTableStatement(q, t)] + UniqueStatements(q, t) + CheckStatements(q, t)
  }

  function ForeignKeyBlock(schemaName: string, t: Table): seq<string> {
    ForeignKeyStatements(schemaName + "." + t.name, t)
  }

  function CreateBlockIn(schemaName: string): Table -> seq<string> {
    t => CreateBlock(schemaName, t)
  }

  function ForeignKeyBlockIn(schemaName: string): Table -> seq<string> {
    t => ForeignKeyBlock(schemaName, t)
  }

  /**
    The intended order: all tables (with their unique and check constraints)
    are created before any foreign key is added.
  */
  ghost function DeferredStatements(s: Schema): seq<string> {
    Prelude(s)
    + Pass(s.tables, CreateBlockIn(s.name))
    + Pass(s.tables, ForeignKeyBlockIn(s.name))
    + Postlude(s)
  }

  /** With deferral, every foreign key of every table comes after the CREATE TABLE of every table. */
  lemma DeferredForeignKeysFollowTables(s: Schema, a: string, b: string, i: nat)
    requires a in s.tables && b in s.tables
    requires i < |s.tables[a].foreignKeys|
    ensures exists p, q :: 0 <= q < p < |DeferredStatements(s)|
              && DeferredStatements(s)[p] == ForeignKeyStatement(s.name + "." + s.tables[a].name, s.tables[a], s.tables[a].foreignKeys[i])
              && DeferredStatements(s)[q] == CreateTableStatement(s.name + "." + s.tables[b].name, s.tables[b])
  {
    var m := s.tables;
    var ks := SortedKeys(m.Keys);
    SortedKeysCorrect(m.Keys);
    CreateBlockHead(s.name, m[b]);
    ForeignKeyBlockAt(s.name, m[a], i);
    var st := DeferredStatements(s);
    assert st == Prelude(s) + Section(m, ks, CreateBlockIn(s.name)) + Section(m, ks, ForeignKeyBlockIn(s.name)) + Postlude(s);
    var q, p := TwoPassOrder(m, ks, CreateBlockIn(s.name), ForeignKeyBlockIn(s.name), b, a, 0, i, Prelude(s), Postlude(s));
    assert 0 <= q < p < |st|;
  }

  /** An element of the first of two passes over the same objects precedes every element of the second. */
  lemma TwoPassOrder<V>(m: map<string, V>, ks: seq<string>, first: V -> seq<string>, second: V -> seq<string>,
                        kx: string, ky: string, ox: nat, oy: nat, pre: seq<string>, post: seq<string>)
    returns (p: nat, q: nat)
    requires kx in ks && kx in m && ky in ks && ky in m
    requires ox < |first(m[kx])| && oy < |second(m[ky])|
    ensures p < q < |pre + Section(m, ks, first) + Section(m, ks, second) + post|
    ensures (pre + Section(m, ks, first) + Section(m, ks, second) + post)[p] == first(m[kx])[ox]
    ensures (pre + Section(m, ks, first) + Section(m, ks, second) + post)[q] == second(m[ky])[oy]
  {
    var x := first(m[kx])[ox];
    var y := second(m[ky])[oy];
    SectionContains(m, ks, kx, first, x);
    SectionContains(m, ks, ky, second, y);
    var cs := Section(m, ks, first);
    var fs := Section(m, ks, second);
    var jc :| 0 <= jc < |cs| && cs[jc] == x;
    var jf :| 0 <= jf < |fs| && fs[jf] == y;
    ConcatOrder(pre + cs + fs + post, pre, cs, fs, post, jc, jf, x, y);
    p, q := |pre| + jc, |pre| + |cs| + jf;
  }

  lemma CreateBlockHead(schemaName: string, t: Table)
    ensures |CreateBlockIn(schemaName)(t)| > 0
    ensures CreateBlockIn(schemaName)(t)[0] == CreateTableStatement(schemaName + "." + t.name, t)
  {
    assert CreateBlockIn(schemaName)(t) == CreateBlock(schemaName, t);
  }

  lemma ForeignKeyBlockAt(schemaName: string, t: Table, i: nat)
    requires i < |t.foreignKeys|
    ensures i < |ForeignKeyBlockIn(schemaName)(t)|
    ensures ForeignKeyBlockIn(schemaName)(t)[i] == ForeignKeyStatement(schemaName + "." + t.name, t, t.foreignKeys[i])
  {
    assert ForeignKeyBlockIn(schemaName)(t) == ForeignKeyStatements(schemaName + "." + t.name, t);
  }

  lemma {:induction false} SectionRegroup(m: map<string, Table>, ks: seq<string>, schemaName: string)
    ensures multiset(Section(m, ks, TableBlockIn(schemaName)))
            == multiset(Section(m, ks, CreateBlockIn(schemaName)))
               + multiset(Section(m, ks, ForeignKeyBlockIn(schemaName)))
    decreases |ks|
  {
    if ks != [] {
      var init, k := ks[..|ks| - 1], ks[|ks| - 1];
      SectionRegroup(m, init, schemaName);
      var tb, cb, fb := TableBlockIn(schemaName), CreateBlockIn(schemaName), ForeignKeyBlockIn(schemaName);
      var t, c, f := [], [], [];
      if k in m {
        t, c, f := tb(m[k]), cb(m[k]), fb(m[k]);
        assert t == c + f by {
          assert t == TableBlock(schemaName, m[k]) && c == CreateBlock(schemaName, m[k]);
        }
      }
      assert Section(m, ks, tb) == Section(m, init, tb) + t;
      assert Section(m, ks, cb) == Section(m, init, cb) + c;
      assert Section(m, ks, fb) == Section(m, init, fb) + f;
    }
  }

  /** Deferring foreign keys only reorders the statements: none is added or lost. */
  lemma DeferredIsReordering(s: Schema)
    ensures multiset(DeferredStatements(s)) == multiset(Statements(s))
  {
    SectionRegroup(s.tables, SortedKeys(s.tables.Keys), s.name);
  }
}
