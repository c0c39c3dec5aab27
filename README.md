# facet-owned-shape: a Dafny model

`facet-owned-shape` turns the reflection data of Rust types (facet shapes) into
relational schemas and migrations. This project models its core:

- **Shape IR** (`OwnedShape`, `CowShape`, `ShapeConversion`). There are two isomorphic trees of
  shapes: definitions, types, structs, enums, fields and variants. Conversions
  run in both directions. In the cow tree every child sits in a `BoxCow` that
  is either `Borrowed` or `Owned`; both tags are kept so that the round trips
  can be stated exactly.
- **Compiler** (`Facet`, `Conversion`). It compiles a reflected type into tables
  (`TryFrom<&facet::Shape> for PartialSchema`):
  - a struct becomes one table;
  - an enum becomes one table per data-carrying variant, then a main table
    with an identity key, a discriminant, one nullable reference column and
    foreign key per such variant, and a `variant_integrity` check that keeps
    them in lockstep.
- **Differ** (`Differ`). Recursive structural equality of cow shapes and
  `Diff::new`. For two unequal structs, `Diff::new` partitions field names
  into updates, deletions, insertions and unchanged. `Diff::is_equal` is the
  discriminator `Diff.Equal?`.
- **Migrations** (`Migration`). `CREATE TABLE` from an owned struct shape, and
  `ALTER TABLE` from a `Diff`. The statement builder is modelled as a table
  name plus a list of abstract column operations. The model also covers the
  rule for compatible type changes and the typing of columns by type
  identifier.
- **DDL** (`SchemaModel`, `Ddl`). `Schema::to_ddl` renders a schema as a list of
  statements joined by newlines:
  - it covers quote escaping, data-type rendering and the precedence of column modifiers;
  - unnamed constraints get automatic names;
  - the passes come in a fixed order, and keys are visited in sorted order inside each pass.

`Wrappers` holds `Option` and `Result`. `Text` holds string helpers:
containment, suffixes, joining, ASCII lower-casing, decimal rendering, and
the lexicographic order on strings with its order lemmas.

### Where the code and its documented intent differ (the model follows the code)

- **Field diffs are positional.** Field lists are compared position by position,
  `structs_equal` in `src/diff.rs:189-197`. So two structs whose fields differ
  only in order are not equal. For such structs `Diff::new` returns a `User`
  diff with no updates, deletions or insertions
  (`Differ.ReorderedFieldsHaveNoChanges`). `ALTER TABLE` then fails with
  "No column changes found" (`Migration.ReorderedFieldsCannotMigrate`).
- **No deferred foreign keys, no indexes.** `Schema::to_ddl` emits each table's
  foreign keys right after that table, not after all tables, and renders no
  indexes. See the finding below.
- **Two field lookups disagree on duplicate names.**
  - `Diff::new` looks `to` fields up in a hash map built by inserting the
    fields in order, so the last field of a given name wins (`Differ.FieldMap`).
  - The ALTER builder uses `find`, so the first field of that name wins
    (`Migration.FindFirst`).
  - The two agree when names are distinct. The partition lemmas assume
    distinct names in `from`.
- **128-bit integers get a narrower column.** `set_column_type_from_shape`
  maps any integer identifier it does not list (`u128`, `i128`) to a 4-byte
  `integer` column (`Migration.IntegerColumnWidths`).
- **Unsigned columns can overflow.** The compiler's integer mapping keeps the
  byte width but ignores the sign. The largest `u16`, `u32` and `u64` values do
  not fit the chosen PostgreSQL column (`Conversion.IntegerRanges`).

## Model

| member | source | states |
|---|---|---|
| ShapeConversion.ShapeToOwned | src/owned_shape.rs:126-140 | the type identifier is copied unchanged |
| ShapeConversion.DefToOwned | src/owned_shape.rs:142-160 | the definition kind is preserved in both directions, and an array's length `n` is copied exactly |
| ShapeConversion.TypeToOwned | src/owned_shape.rs:162-170 | primitive, sequence and user types stay of the same kind |
| ShapeConversion.PrimitiveToOwned | src/owned_shape.rs:172-181 | boolean, never, numeric and textual kinds are preserved, as are the float/integer split, the `signed` flag and char/str |
| ShapeConversion.NumericToOwned | src/owned_shape.rs:183-190 | float stays float, and an integer keeps its `signed` flag |
| ShapeConversion.TextualToOwned | src/owned_shape.rs:192-199 | char stays char and str stays str |
| ShapeConversion.UserTypeToOwned | src/owned_shape.rs:201-210 | struct, enum, union and opaque are preserved |
| ShapeConversion.StructToOwned | src/owned_shape.rs:212-218 | same number of fields, and field i is the conversion of field i (order kept) |
| ShapeConversion.FieldToOwned | src/owned_shape.rs:220-228 | the name and the doc lines are kept |
| ShapeConversion.EnumToOwned | src/owned_shape.rs:230-236 | same number of variants, and variant i is the conversion of variant i |
| ShapeConversion.VariantToOwned | src/owned_shape.rs:238-246 | the name and the doc lines are kept |
| ShapeConversion.UnionToOwned | src/owned_shape.rs:248-254 | same number of fields, in order, each converted |
| ShapeConversion.ShapeToCow | src/cow_shape.rs:127-135 | the type identifier is carried over, and both children are tagged `Owned` |
| ShapeConversion.DefToCow | src/cow_shape.rs:137-155 | the definition kind is preserved in both directions, and the array length is copied |
| ShapeConversion.TypeToCow | src/cow_shape.rs:157-165 | the type kind is preserved |
| ShapeConversion.PrimitiveToCow | src/cow_shape.rs:167-176 | primitive kinds are preserved, including `signed` and char/str |
| ShapeConversion.NumericToCow | src/cow_shape.rs:178-185 | float stays float, and an integer keeps `signed` |
| ShapeConversion.TextualToCow | src/cow_shape.rs:187-194 | char stays char and str stays str |
| ShapeConversion.UserTypeToCow | src/cow_shape.rs:196-205 | the user-type kind is preserved |
| ShapeConversion.StructToCow | src/cow_shape.rs:207-213 | same number of fields, in order, each converted |
| ShapeConversion.FieldToCow | src/cow_shape.rs:215-223 | the name and the doc lines are kept |
| ShapeConversion.EnumToCow | src/cow_shape.rs:225-231 | same number of variants, in order, each converted |
| ShapeConversion.VariantToCow | src/cow_shape.rs:233-241 | the name and the doc lines are kept |
| ShapeConversion.UnionToCow | src/cow_shape.rs:243-249 | same number of fields, in order, each converted |
| ShapeConversion.Retag | src/owned_shape.rs:130-137 | re-tagging every child keeps the type identifier |
| ShapeConversion.OwnedRoundTrip | tests/shape_conversion_tests.rs:86-92 | owned to cow to owned gives back exactly the original shape |
| ShapeConversion.OwnedDefRoundTrip | src/cow_shape.rs:137-155 | the owned, cow, owned round trip is the identity on definitions |
| ShapeConversion.OwnedTypeRoundTrip | src/cow_shape.rs:157-165 | the round trip is the identity on types, including every enum variant |
| ShapeConversion.OwnedStructRoundTrip | src/cow_shape.rs:207-213 | the round trip is the identity on structs |
| ShapeConversion.OwnedFieldsRoundTrip | src/cow_shape.rs:215-223 | the round trip is the identity on every field |
| ShapeConversion.CowRoundTrip | tests/shape_conversion_tests.rs:13-26 | cow to owned to cow gives the same tree with every child tagged `Owned`, so it is exactly the original when the original was all `Owned` |
| ShapeConversion.CowDefRoundTrip | src/owned_shape.rs:142-160 | on definitions, the cow round trip only re-tags children as `Owned` |
| ShapeConversion.CowTypeRoundTrip | src/owned_shape.rs:162-170 | on types, the cow round trip only re-tags children as `Owned` |
| ShapeConversion.CowStructRoundTrip | src/owned_shape.rs:212-218 | on structs, the cow round trip only re-tags children as `Owned` |
| ShapeConversion.CowFieldsRoundTrip | src/owned_shape.rs:220-228 | on fields, the cow round trip only re-tags children as `Owned` |
| ShapeConversion.OwnershipIrrelevant | src/owned_shape.rs:130-137 | borrowed and owned children convert to the same owned shape |
| ShapeConversion.RetagDefIrrelevant | src/owned_shape.rs:142-160 | the borrowed/owned tag has no effect on a converted definition |
| ShapeConversion.RetagTypeIrrelevant | src/owned_shape.rs:162-170 | the tag has no effect on a converted type |
| ShapeConversion.RetagStructIrrelevant | src/owned_shape.rs:212-218 | the tag has no effect on a converted struct |
| ShapeConversion.RetagFieldsIrrelevant | src/owned_shape.rs:220-228 | the tag has no effect on converted fields |
| Text.ToLower | src/conversion.rs:63 | keeps the length, lowers every ASCII capital (its code point plus 32), keeps every other character, and leaves no ASCII capital behind |
| Conversion.OptionByName | src/conversion.rs:536-539 | a shape is an Option iff `Option` occurs somewhere in its type identifier; an identifier starting with `Option` always counts, one shorter than six characters never does |
| Text.ContainsOccurs | src/conversion.rs:538 | `contains` holds iff the text occurs at some position |
| Conversion.OptionInnerType | src/conversion.rs:541-567 | gives the first type parameter if there is one; otherwise the first field of a first variant that is a non-empty tuple; otherwise none |
| Conversion.PrimitiveToDataType | src/conversion.rs:428-488 | a boolean maps to `boolean`, a char to `char(1)`, a str to `text`, and a sized integer to the integer type of its byte width; an unsized number is an error; a float maps to `real` iff 4 bytes and to `double precision` iff 8 bytes, any other size is an error; never is an error |
| Conversion.IntegerWidths | src/conversion.rs:437-456 | 1, 2, 4 and 8 bytes map to the narrowest PostgreSQL integer at least as wide; any other size maps to `bigint` |
| Conversion.IntegerRanges | src/conversion.rs:437-456 | every signed value fits its column; the largest unsigned value fits only for 1-byte integers |
| Conversion.UserTypeToDataType | src/conversion.rs:491-533 | `text` iff a String identifier; `jsonb` iff not that and a Vec/HashMap identifier or a struct; `integer` iff not those and an enum; an error iff a union or opaque type is left |
| Conversion.ShapeToDataType | src/conversion.rs:384-426 | results are column types, and the column is nullable iff the shape is an Option whose inner type resolves and compiles |
| Conversion.NonOptionDataType | src/conversion.rs:393-425 | outside the Option case nothing is nullable: a primitive compiles as `primitive_to_data_type`, a user type as `user_type_to_data_type` (same result or same error); a pointer is `text` iff its inner or its own identifier contains `str`, and an unsupported-pointer error otherwise; a sequence is an unsupported-type error |
| Conversion.OptionIsTransparent | src/conversion.rs:386-391 | an Option compiles exactly as its inner type, with the same error, except that the column is nullable |
| Conversion.FieldToColumn | src/conversion.rs:89-108 | Ok iff the field type compiles, with the same error otherwise; the column takes the field's name, type and nullability, and has no default, collation, generation or identity |
| Conversion.PkMarks | src/conversion.rs:121-126 | only the field's own name is collected, and something is collected iff some attribute is `psql::primary_key` |
| Conversion.PkMarksMembers | src/conversion.rs:121-126 | a name is collected iff it is the field's name and the field carries the key attribute |
| Conversion.PkNamesMembers | src/conversion.rs:117-127 | the collected names are exactly the names of the fields carrying the key attribute |
| Conversion.PkNamesTwoMarked | src/conversion.rs:129-136 | two distinct tagged fields give at least two key names |
| Conversion.FieldPkMarks | src/conversion.rs:121-126 | the inner attribute loop collects exactly the field's marks |
| Conversion.FieldColumnsPerField | src/conversion.rs:117-119 | all columns are built iff every field converts; then there is one column per field, in order, each the field's own column |
| Conversion.FieldColumnsFirstError | src/conversion.rs:118 | a failure comes from some field that fails to convert |
| Conversion.FieldColumnsErrSticky | src/conversion.rs:118 | once a prefix of the fields fails, the whole list fails with that error |
| Conversion.ProcessedFieldsColumns | src/conversion.rs:110-150 | on success there is one column per field, in declaration order |
| Conversion.ProcessedFieldsKey | src/conversion.rs:138-147 | a primary key, when present, is `[name]` of a tagged field; when absent, no field is tagged |
| Conversion.ProcessedFieldsTwoKeys | src/conversion.rs:129-136 | two tagged fields give `MultiplePrimaryKeys` once the columns are built |
| Conversion.ProcessFields | src/conversion.rs:110-150 | the loop over fields and attributes returns exactly the specified columns and primary key, or the error |
| Conversion.StructTable | src/conversion.rs:55-86 | named by the lower-cased type identifier; Ok iff every field converts and at most one field carries a primary-key mark; column i is field i's own column; the key is `[name]` of the tagged field, or absent when none is tagged; no uniques, foreign keys or checks; otherwise the first failing field's error or `MultiplePrimaryKeys` with the tagged names |
| Conversion.ShapeToTable | src/conversion.rs:55-86 | a non-struct gives `NotAStruct`; a struct gives its table |
| Conversion.VariantTable | src/conversion.rs:197-239 | Ok iff the variant's fields process; the table is `<base>_<variant>` with `id` first, then the field columns, primary key `(id)`, and no foreign keys or checks |
| Conversion.DataVariants | src/conversion.rs:193-284 | selects only variants that carry data |
| Conversion.DataVariantsSpec | src/conversion.rs:193-284 | the selected variants are exactly the data variants of the enum |
| Conversion.DataVariantsFilter | src/conversion.rs:193-284 | selecting data variants is an order-preserving filter: a single variant is kept iff it carries data, and the selection of `a + b` is that of `a` followed by that of `b` |
| Conversion.VariantTablesErrSticky | src/conversion.rs:219 | the first failing variant's error aborts the whole compilation |
| Conversion.RenderClausePairs | src/conversion.rs:301-306 | one `CASE WHEN discriminant = i THEN c IS NOT NULL ELSE c IS NULL END` clause per pair, in order |
| Conversion.CheckParts | src/conversion.rs:296-321 | the loop builds exactly the clauses of the data variants, in order, with their indexes in the full variant list |
| Conversion.EnumToPartialSchema | src/conversion.rs:152-371 | the loops return exactly the specified variant tables, then the main table |
| Conversion.RefPartsAligned | src/conversion.rs:243-272 | reference column k and foreign key k belong to data variant k, and there is one of each per data variant |
| Conversion.VariantTablesAligned | src/conversion.rs:193-239 | variant table k is the table of data variant k, and the tables are built iff every data variant's table is |
| Conversion.EnumSchemaLayout | src/conversion.rs:152-358 | k+1 tables with the main table last; the main table has `id` and `discriminant`, then one nullable reference column per data variant; foreign key k goes from reference column k to variant table k |
| Conversion.EnumSchemaFirstError | src/conversion.rs:219 | a failure comes from the table of some data variant |
| Conversion.ClausePairsMembers | src/conversion.rs:297-313 | the check covers exactly the data variants, each with its index in the full variant list (unit variants counted) and its `<variant>_id` column |
| Conversion.LockstepSound | src/conversion.rs:296-313 | a row satisfying the check has exactly the active variant's reference column non-null, and none for a unit variant |
| Conversion.LockstepCompleteAt | src/conversion.rs:296-313 | with distinct reference columns, a lockstep row satisfies each single clause |
| Conversion.LockstepComplete | src/conversion.rs:296-313 | with distinct reference columns, every lockstep row satisfies the check |
| Conversion.Lockstep | src/conversion.rs:296-327 | with distinct reference columns, the check holds iff only the active variant's reference column is non-null |
| Conversion.CheckExpressionShape | src/conversion.rs:323-327 | with no clauses the expression is `1=1`; with one clause it is that clause |
| Conversion.CheckExpressionAppend | src/conversion.rs:295-327 | appending a unit variant leaves the check unchanged; the first data variant's clause becomes the whole check in place of `1=1`; each later data variant's clause is attached with ` AND ` |
| Text.JoinAppend | src/conversion.rs:326 | joining one more part appends the separator and that part |
| Conversion.MainTableSortsFirst | src/conversion.rs:195 | the main table's name sorts before every variant table's name |
| Conversion.CompiledKinds | src/conversion.rs:30-52 | a type that is neither struct nor enum gives `NotAStruct`; a struct gives one table named by its lower-cased identifier, with column i named after field i; an enum gives its main table last |
| Conversion.Compile | src/conversion.rs:30-52 | returns exactly the specified compilation |
| Differ.ShapesEqualIffNormal | src/diff.rs:143-156 | shapes are equal iff they coincide once docs are dropped and every child is tagged alike; so the comparison covers identifiers, array lengths, and field and variant names and order |
| Differ.DefsEqualIffNormal | src/diff.rs:158-169 | definitions are equal iff their normal forms coincide |
| Differ.TypesEqualIffNormal | src/diff.rs:171-187 | types are equal iff their normal forms coincide |
| Differ.FieldsEqualIffNormal | src/diff.rs:189-197 | field lists are equal iff they have the same length and agree position by position |
| Differ.VariantsEqualIffNormal | src/diff.rs:199-207 | variant lists are equal iff they agree position by position |
| Differ.ShapesEqualEquivalence | src/diff.rs:143-217 | structural equality is reflexive, symmetric and transitive |
| Differ.FieldOrderMatters | src/diff.rs:189-197 | swapping two differently named fields makes a field list unequal to itself |
| Differ.FieldMap | src/diff.rs:81-86 | the map's keys are exactly the names of the `to` fields |
| Differ.FieldMapLast | src/diff.rs:81-86 | with distinct names, each name maps to its own field |
| Differ.DiffOf | src/diff.rs:64-139 | `Equal` iff structurally equal; `User` iff unequal structs; `Sequence` iff unequal sequences; every other case is `Different`; non-equal diffs carry both shapes |
| Differ.BuildFieldMap | src/diff.rs:81-86 | the loop builds exactly the field map |
| Differ.CollectNames | src/diff.rs:103-104 | the loop collects exactly the `from` field names |
| Differ.NewNames | src/diff.rs:106-110 | the insertions are exactly the `to` names not among the `from` names |
| Differ.NewDiff | src/diff.rs:64-139 | the recursive method with its field loops returns exactly the specified diff |
| Differ.ScanDeletions | src/diff.rs:89-100 | a name is deleted iff some `from` field of that name has no `to` field |
| Differ.ScanUnchanged | src/diff.rs:89-100 | a name is unchanged iff some `from` field of that name has a `to` field with an `Equal` diff |
| Differ.ScanUpdates | src/diff.rs:89-100 | a name is updated iff some `from` field of that name has a `to` field with a non-`Equal` diff |
| Differ.ScanUpdateValues | src/diff.rs:91-96 | with distinct names, each update holds the field's own recursive diff, which is not `Equal` |
| Differ.StructDiffPartition | src/diff.rs:76-110 | deletions are from minus to; insertions are to minus from; updates and unchanged split from ∩ to without overlap |
| Differ.DiffOfSelf | src/diff.rs:64-68 | every shape diffs as `Equal` against itself |
| Differ.ReorderedFieldsHaveNoChanges | src/diff.rs:189-197 | structs with the same fields in a different order give a `User` diff with no updates, deletions or insertions |
| Migration.UnwrapOptionType | src/sea_query.rs:192-198 | the result is not an Option, and a non-Option shape is returned unchanged |
| Migration.UnwrapOptionTypeIdempotent | src/sea_query.rs:192-198 | unwrapping twice is unwrapping once |
| Migration.UnwrapOptionLayers | src/sea_query.rs:192-198 | a shape wrapped in any number of Option layers unwraps to what the shape itself unwraps to, and to the shape itself when it is not an Option |
| Migration.IntegerColumn | src/sea_query.rs:213-228 | integers always get an integer column |
| Migration.IntegerColumnWidths | src/sea_query.rs:213-228 | integers of 1 to 8 bytes get a column of exactly their width; 16-byte integers get 4 bytes |
| Migration.ColumnTypeOf | src/sea_query.rs:200-277 | after removing one Option layer: an integer gets the column of its type identifier (positive width); a float is `float` iff `f32`, else `double`; char is `char(1)`; bool is `boolean`; `string` iff str, an enum or an opaque `String`/`str`; never is `NeverType`; another opaque is `UnsupportedOpaque(id)`; a struct, union or sequence is `UnsupportedType(id)` |
| Migration.ColumnTypeIgnoresOption | src/sea_query.rs:201-205 | one Option layer around a non-Option shape does not change the column type |
| Migration.ColumnFor | src/sea_query.rs:20-31 | Ok iff the type maps; the column keeps the field name and is nullable iff the field is an Option |
| Migration.CreateTable | src/sea_query.rs:10-43 | a non-struct gives an error; otherwise Ok iff every field maps, with one column per field in order; on failure, the error is the first failing field's |
| Migration.IsCompatibleTypeChange | src/sea_query.rs:144-189 | non-`Different` diffs are compatible; otherwise, after stripping Options, compatible iff numeric/textual on both sides or opaque `String` against numeric |
| Migration.FindFirst | src/sea_query.rs:77-83 | finds the first field with the name, and none iff no field has it |
| Migration.AddedColumn | src/sea_query.rs:76-97 | an add succeeds iff the field exists and its type maps, and then gives that field's column; a missing field is `FieldNotFound(name)`, otherwise the error is the field type's own |
| Migration.ModifiedColumn | src/sea_query.rs:99-127 | a modify succeeds iff the field exists, the change is compatible and the type maps; a missing field is `FieldNotFound(name)`, an incompatible change `IncompatibleChange(name)`, otherwise the error is the field type's own |
| Migration.AddColumns | src/sea_query.rs:76-97 | Ok iff every insertion can be added, then one add per insertion; a failure is the own error of some inserted field |
| Migration.ModifyColumns | src/sea_query.rs:99-127 | Ok iff every update can be applied, then one modify per update; a failure is the own error of some updated field |
| Migration.DropColumns | src/sea_query.rs:129-131 | one drop per deletion |
| Migration.AlterTable | src/sea_query.rs:45-142 | `Equal`, `Different` and `Sequence` diffs are errors; Ok iff every add and modify succeeds and something changes; "no column changes" iff nothing changes; any other failure is the own error of an inserted field, or, when all insertions can be added, of an updated field; on Ok the target is `to`'s identifier, with adds, then modifies, then drops |
| Migration.DiffNamesFound | src/sea_query.rs:77-104 | every insertion and update name of a computed diff is found among the `to` fields |
| Migration.ReorderedFieldsCannotMigrate | src/sea_query.rs:133-135 | reordering a struct's fields yields a diff that cannot be migrated |
| Ddl.Esc | src/lib.rs:415-417 | the length grows by the number of quotes, and quote-free text is unchanged |
| Ddl.EscRoundTrip | src/lib.rs:415-417 | escaped text reads back as the original, so it has no unpaired quote |
| Ddl.RenderDataType | src/lib.rs:419-486 | every built-in type renders as a non-empty keyword; the parameterised cases are pinned by Ddl.RenderNumeric, Ddl.RenderSizedText, Ddl.RenderArray and Ddl.RenderNamedType |
| Ddl.RenderNumeric | src/lib.rs:427-431 | `numeric(p,s)` with both, `numeric(p)` with a precision only, and plain `numeric` without a precision even when a scale is set |
| Ddl.RenderSizedText | src/lib.rs:435-442 | `varchar` and `char` carry `(n)` exactly when a length is given |
| Ddl.RenderArray | src/lib.rs:466 | an array type renders as its element type plus one `[]` per level |
| SchemaModel.QualifiedNameToString | src/lib.rs:393-400 | the text ends with the name; with a schema it starts with the schema followed by `.`, and is one character longer than both together |
| Ddl.RenderNamedType | src/lib.rs:467-482 | enum, composite, domain and custom types render as `schema.name` or `name` |
| Ddl.ColumnClauses | src/lib.rs:619-640 | COLLATE comes first when set; at most one of identity, generated and default, with identity first, and identity without a mode is BY DEFAULT; NOT NULL comes last, iff not nullable |
| Ddl.ValueModifier | src/lib.rs:623-636 | identity wins over generation, and generation over a default; a generated column with an expression gets exactly `GeneratedStored(expr)`, a plain column with a default exactly `DefaultValue(d)`; a generated column without an expression gets none |
| Ddl.ModifierText | src/lib.rs:623-636 | identity renders as `GENERATED ALWAYS AS IDENTITY` or `GENERATED BY DEFAULT AS IDENTITY`, a generation as `GENERATED ALWAYS AS (expr) STORED`, a default as `DEFAULT d`; the text is empty iff the column gets no modifier |
| Ddl.RenderColumn | src/lib.rs:619-641 | a column starts with its name and its rendered type, followed directly by `COLLATE c` when a collation is set, and ends with `NOT NULL` when it is not nullable |
| Ddl.ColumnClausesText | src/lib.rs:619-641 | a rendered column is its name and type followed by its clause list, rendered in order |
| Ddl.CreateTableStatement | src/lib.rs:643-650 | `CREATE TABLE q (columns)` comes first; with a primary key the statement ends with `, PRIMARY KEY (cols);`, and without one `;` follows the column list directly |
| Ddl.UniqueStatement | src/lib.rs:652-669 | starts `ALTER TABLE q ADD CONSTRAINT <name>` and ends ` UNIQUE (cols);` |
| Ddl.CheckStatement | src/lib.rs:671-684 | a named check starts `ALTER TABLE q ADD CONSTRAINT <name>`, an unnamed one is `ALTER TABLE q ADD CHECK (expr);`; both end ` CHECK (expr);` |
| Ddl.ReferentialActions | src/lib.rs:713-732 | `ON DELETE` comes first when set, `ON UPDATE` last when set; the text is empty iff neither is set |
| Ddl.ForeignKeyStatements | src/lib.rs:686-735 | one statement per foreign key, in order |
| Ddl.CommentStatement | src/lib.rs:491-493 | a statement exactly when a comment is set: `COMMENT ON <kind> <name> IS '`, then the escaped text, which reads back as the comment, then `';` |
| Ddl.ForeignKeyStatement | src/lib.rs:685-736 | starts with `ALTER TABLE q ADD CONSTRAINT <name> FOREIGN KEY (cols) REFERENCES <table>`; the referenced column list follows iff it is given, and the actions and `;` close the statement |
| Ddl.UniqueStatements | src/lib.rs:652-669 | one statement per unique constraint, in order |
| Ddl.CheckStatements | src/lib.rs:671-684 | one statement per check constraint, in order |
| Ddl.ConstraintName | src/lib.rs:655-661 | an explicit name is used as is; otherwise the name is `<table>_<cols joined by _>_<suffix>` |
| Ddl.TableBlock | src/lib.rs:643-736 | the CREATE TABLE comes first, then exactly the table's unique statements, then exactly its check statements, then its foreign keys in order |
| Ddl.SequenceParts | src/lib.rs:528-549 | starts with CREATE SEQUENCE and ends with CYCLE or NO CYCLE; in between, START WITH, INCREMENT BY, MINVALUE, MAXVALUE and CACHE each appear iff set, with their value, at the position that follows the options set before them |
| Ddl.SortedKeysCorrect | src/lib.rs:609-610 | the sorted key list holds every key exactly once, in strictly increasing order |
| Ddl.SortKeys | src/lib.rs:609-610 | the loop produces the sorted key list |
| Ddl.EmitPass | src/lib.rs:611-738 | a pass appends each object's statements in sorted key order |
| Ddl.ToDdl | src/lib.rs:414-779 | the output is the fixed sequence of passes joined by newlines, and it starts with `CREATE SCHEMA IF NOT EXISTS <name>;` |
| Ddl.EveryTableCreated | src/lib.rs:609-650 | every table of the schema gets its CREATE TABLE statement |
| Ddl.SectionOrder | src/lib.rs:609-612 | within a pass, an earlier key's statements precede a later key's |
| Ddl.ForeignKeyBeforeTableInPass | src/lib.rs:685-736 | in the table pass, a foreign key of table `a` precedes the CREATE TABLE of any table sorting after `a` |
| Ddl.ForeignKeyBeforeReferencedTable | src/lib.rs:685-736 | as written, a foreign key to a table that sorts later is emitted before that table exists |
| Ddl.DeferredForeignKeysFollowTables | src/lib.rs:685-736 | with foreign keys deferred to a pass of their own, every foreign key follows every CREATE TABLE |
| Ddl.PrimaryKeyOutsideColumnList | src/lib.rs:643-650 | as written, with columns and a primary key, the column list is closed by `)` before `, PRIMARY KEY`, where the inline placement continues with `,` |
| Ddl.InlineCreateTableStatement | src/lib.rs:643-650 | with columns and a primary key, the key is one more element inside the parenthesised list; without a key the statement is unchanged |
| Ddl.DeferredIsReordering | src/lib.rs:609-738 | deferring foreign keys only reorders statements: the multiset of statements is unchanged |

## Left out

- `TryFrom<&facet::*>` for the owned and cow shapes. These are the reflection front ends over facet's own types; shapes are taken as given values.
- The facet reflection input of the compiler is reduced to what it reads (`Facet` module). The layout is a size or "unsized"; there are no function pointers into facet.
- `src/box_cow.rs`, `src/vec_cow.rs` and `src/relations.rs` are not part of this model. `BoxCow` survives as a two-tag wrapper, `Cow<str>` as a plain string, and `VecCow` as a sequence.
- The sea_query builder and the SQL text it prints, such as `varchar` and `bool`. The builder is modelled as a table name plus abstract add, modify and drop operations, and its column types are a datatype.
- HashMap and HashSet iteration order. In `Diff` values these are Dafny maps and sets. The ALTER builder's loops take elements in any order (`:|`), so which failing field is reported when several fail is not pinned down.
- `PartialSchema::to_ddl`, which is not part of this model. `Schema::to_ddl` is modelled; index rendering does not exist there.
- In `Schema::to_ddl`, table options, indexes, owned sequences, privileges, collations, functions and view columns are not rendered, so they are not in the schema datatypes. Foreign-key match type and deferrability, and primary-key `using` and `deferrable`, are likewise absent.
- The `Display` and `Error` implementations of the error types. Error kinds are datatypes, and the message strings are not modelled.
- `MissingTypeInfo` is declared but never produced.
- Text.ToLower: lower-cases ASCII letters only, not Unicode case mapping.
- Debug-string comparison of primitive types in `types_equal` is modelled as structural equality of the primitive kinds.
- Differ.StructDiffPartition: stated for `from` structs with distinct field names. With duplicates the sets can overlap.
- Ddl.Header, Ddl.EnumBlock, Ddl.SequenceBlock, Ddl.CompositeBlock, Ddl.DomainBlock, Ddl.ViewBlock and Ddl.MaterializedViewBlock: each is one fixed statement template followed by Ddl.CommentStatement. They carry no contract of their own; their parts are stated by Ddl.SequenceParts, Ddl.CommentStatement and Ddl.RenderDataType, and their placement by Ddl.ToDdl and Ddl.SectionOrder.
- Ddl.RenderColumn: the converse of the NOT NULL clause is not stated as a suffix test, because a default or generation expression may itself end in ` NOT NULL`. Ddl.ColumnClauses states it exactly on the clause list, and Ddl.ColumnClausesText ties the text to that list.
- Conversion.CheckParts is a separate method for the second variant loop of `enum_to_partial_schema`. The Rust code runs it inline.
- Ddl.SortedKeysCorrect: keys are ordered by character code. This is Rust's `Ord` for `String` on byte-equal text; UTF-8 byte order is not modelled separately.

## Findings

| source | as written | input that shows it | evidently intended | confidence | as-written member | corrected member |
|---|---|---|---|---|---|---|
| src/lib.rs:685-736 | each table's foreign keys are emitted right after its own CREATE TABLE, in sorted key order | the compiled enum `Thingy` with data variant `A`: the main table `thingy` sorts before `thingy_a`, so `ALTER TABLE public.thingy ADD CONSTRAINT ... REFERENCES thingy_a` precedes `CREATE TABLE public.thingy_a` | all tables are created before any foreign key is added | high, not executed | Ddl.ForeignKeyBeforeReferencedTable | Ddl.DeferredForeignKeysFollowTables |
| src/lib.rs:643-650 | the primary key clause is appended after the parenthesis that closes the column list | a table `t` with column `id` and primary key `(id)` renders as `CREATE TABLE public.t (id ...), PRIMARY KEY (id);`, which PostgreSQL rejects | the key is one more element inside the parentheses: `CREATE TABLE public.t (id ..., PRIMARY KEY (id));` | high, not executed | Ddl.PrimaryKeyOutsideColumnList | Ddl.InlineCreateTableStatement |
