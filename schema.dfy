/**
  The relational schema the compiler produces and the DDL renderer consumes:
  tables with columns, keys and constraints, plus the named types, sequences
  and views a schema can hold.
*/
module SchemaModel {
  import opened Wrappers

  /** PostgreSQL data types: built-ins, arrays and user-defined types by name. */
  datatype DataType =
    | Boolean
    | SmallInt
    | Integer
    | BigInt
    | Real
    | DoublePrecision
    | Numeric(precision: Option<nat>, scale: Option<nat>)
    | Serial
    | BigSerial
    | Text
    | Varchar(len: Option<nat>)
    | Char(len: Option<nat>)
    | Bytea
    | Timestamp(withTimeZone: bool)
    | Date
    | Time(withTimeZone: bool)
    | Interval
    | Json
    | Jsonb
    | Uuid
    | Inet
    | MacAddr
    | TsVector
    | Array(elem: DataType)
    | Enum(schema: Option<string>, name: string)
    | Composite(schema: Option<string>, name: string)
    | Domain(schema: Option<string>, name: string)
    | Custom(schema: Option<string>, name: string)
    | Any
    | Unknown

  /** `GENERATED { ALWAYS | BY DEFAULT } AS IDENTITY` */
  datatype IdentityGeneration = Always | ByDefault

  datatype Column = Column(
    name: string,
    dataType: DataType,
    default: Option<string>,
    nullable: bool,
    collation: Option<string>,
    isGenerated: bool,
    generationExpression: Option<string>,
    isIdentity: bool,
    identityGeneration: Option<IdentityGeneration>,
    comment: Option<string>)

  datatype PrimaryKey = PrimaryKey(name: Option<string>, columns: seq<string>)

  datatype UniqueConstraint = UniqueConstraint(name: Option<string>, columns: seq<string>)

  datatype QualifiedName = QualifiedName(schema: Option<string>, name: string)

  datatype ReferentialAction = NoAction | Restrict | Cascade | SetNull | SetDefault

  datatype ForeignKey = ForeignKey(
    name: Option<string>,
    columns: seq<string>,
    referencedTable: QualifiedName,
    referencedColumns: Option<seq<string>>,
    onDelete: Option<ReferentialAction>,
    onUpdate: Option<ReferentialAction>)

  datatype CheckConstraint = CheckConstraint(name: Option<string>, expression: string, noInherit: bool)

  datatype Table = Table(
    name: string,
    columns: seq<Column>,
    primaryKey: Option<PrimaryKey>,
    uniques: seq<UniqueConstraint>,
    foreignKeys: seq<ForeignKey>,
    checks: seq<CheckConstraint>,
    comment: Option<string>)

  datatype View = View(name: string, definition: string, materialized: bool, comment: Option<string>)

  datatype MaterializedView = MaterializedView(name: string, definition: string, comment: Option<string>)

  datatype Sequence = Sequence(
    name: string,
    schema: Option<string>,
    start: Option<int>,
    increment: Option<int>,
    minValue: Option<int>,
    maxValue: Option<int>,
    cache: Option<int>,
    cycle: bool,
    comment: Option<string>)

  datatype EnumType = EnumType(schema: Option<string>, name: string, variants: seq<string>, comment: Option<string>)

  datatype DomainType = DomainType(
    schema: Option<string>,
    name: string,
    baseType: DataType,
    default: Option<string>,
    notNull: bool,
    comment: Option<string>)

  datatype CompositeType = CompositeType(schema: Option<string>, name: string, fields: seq<Column>, comment: Option<string>)

  /** A whole schema; every collection is keyed by object name. */
  datatype Schema = Schema(
    name: string,
    tables: map<string, Table>,
    views: map<string, View>,
    materializedViews: map<string, MaterializedView>,
    enums: map<string, EnumType>,
    domains: map<string, DomainType>,
    compositeTypes: map<string, CompositeType>,
    sequences: map<string, Sequence>,
    comment: Option<string>)

  /** What compiling one shape yields: its tables, in creation order. */
  datatype PartialSchema = PartialSchema(tables: seq<Table>)

  /** Name of a table or other object, optionally schema-qualified. */
  function QualifiedNameToString(q: QualifiedName): (r: string)
    ensures |r| == |q.name| + (if q.schema.Some? then |q.schema.value| + 1 else 0)
    ensures r[|r| - |q.name|..] == q.name
    ensures q.schema.Some? ==> r[..|q.schema.value|] == q.schema.value && r[|q.schema.value|] == '.'
  {
    match q.schema
    case Some(s) => s + "." + q.name
    case None => q.name
  }
}
