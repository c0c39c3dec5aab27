/**
  Structural difference between two shapes (`Diff::new`).

  Two shapes are equal when they agree on type identifiers, definitions,
  types, and on the names and shapes of their fields and variants,
  compared position by position; docs and whether a child is borrowed or
  owned do not matter. Two unequal struct shapes yield a field-level diff:
  fields updated, deleted, inserted or unchanged, matched by name.
*/
module Differ {
  import C = CowShape

  // ---------------------------------------------------------------------------
  // Structural equality
  // ---------------------------------------------------------------------------

  /** `shapes_equal` */
  predicate ShapesEqual(a: C.Shape, b: C.Shape)
    decreases a, 3
  {
    a.typeIdentifier == b.typeIdentifier && DefsEqual(a.def.value, b.def.value) && TypesEqual(a.ty.value, b.ty.value)
  }

  /** `defs_equal`: same kind of definition, equal children, equal array lengths. */
  predicate DefsEqual(a: C.Def, b: C.Def)
    decreases a, 3
  {
    match (a, b)
    case (Undefined, Undefined) => true
    case (Scalar, Scalar) => true
    case (Map(ak, av), Map(bk, bv)) => ShapesEqual(ak, bk) && ShapesEqual(av, bv)
    case (Set(at), Set(bt)) => ShapesEqual(at, bt)
    case (List(at), List(bt)) => ShapesEqual(at, bt)
    case (Array(at, an), Array(bt, bn)) => an == bn && ShapesEqual(at, bt)
    case (Option(at), Option(bt)) => ShapesEqual(at, bt)
    case _ => false
  }

  /** `types_equal`; primitives compare by their printed form, which is equality of the value. */
  predicate TypesEqual(a: C.Type, b: C.Type)
    decreases a, 3
  {
    match (a, b)
    case (Primitive(ap), Primitive(bp)) => ap == bp
    case (Sequence(at), Sequence(bt)) => ShapesEqual(at, bt)
    case (User(au), User(bu)) =>
      (match (au, bu)
       case (Struct(x), Struct(y)) => FieldsEqual(x.fields, y.fields)
       case (Enum(x), Enum(y)) => VariantsEqual(x.variants, y.variants)
       case (Union(x), Union(y)) => FieldsEqual(x.fields, y.fields)
       case (Opaque, Opaque) => true
       case _ => false)
    case _ => false
  }

  /** `structs_equal` / `unions_equal`: same length, then names and shapes pairwise. */
  predicate FieldsEqual(a: seq<C.Field>, b: seq<C.Field>)
    decreases a, 2
  {
    |a| == |b| && forall i :: 0 <= i < |a| ==> a[i].name == b[i].name && ShapesEqual(a[i].shape, b[i].shape)
  }

  /** `enums_equal`: same length, then names and payload fields pairwise. */
  predicate VariantsEqual(a: seq<C.Variant>, b: seq<C.Variant>)
    decreases a, 2
  {
    |a| == |b| && forall i :: 0 <= i < |a| ==> a[i].name == b[i].name && FieldsEqual(a[i].data.fields, b[i].data.fields)
  }

  // ---------------------------------------------------------------------------
  // Normal form: the reference for structural equality
  // ---------------------------------------------------------------------------

  /** A shape with every child marked owned and every doc comment dropped. */
  function Normal(s: C.Shape): C.Shape
    decreases s, 3
  {
    C.Shape(s.typeIdentifier, C.Owned(NormalDef(s.def.value)), C.Owned(NormalType(s.ty.value)))
  }

  function NormalDef(d: C.Def): C.Def
    decreases d, 3
  {
    match d
    case Undefined => C.Undefined
    case Scalar => C.Scalar
    case Map(k, v) => C.Map(Normal(k), Normal(v))
    case Set(t) => C.Set(Normal(t))
    case List(t) => C.List(Normal(t))
    case Array(t, n) => C.Array(Normal(t), n)
    case Option(t) => C.Option(Normal(t))
  }

  function NormalType(t: C.Type): C.Type
    decreases t, 3
  {
    match t
    case Primitive(p) => C.Primitive(p)
    case Sequence(e) => C.Sequence(Normal(e))
    case User(u) =>
      C.User(match u
             case Struct(x) => C.Struct(C.StructType(NormalFields(x.fields)))
             case Enum(x) => C.Enum(C.EnumType(NormalVariants(x.variants)))
             case Union(x) => C.Union(C.UnionType(NormalFields(x.fields)))
             case Opaque => C.Opaque)
  }

  function NormalFields(fs: seq<C.Field>): (r: seq<C.Field>)
    ensures |r| == |fs|
    decreases fs, 2
  {
    seq(|fs|, i requires 0 <= i < |fs| => C.Field(fs[i].name, Normal(fs[i].shape), []))
  }

  function NormalVariants(vs: seq<C.Variant>): (r: seq<C.Variant>)
    ensures |r| == |vs|
    decreases vs, 2
  {
    seq(|vs|, i requires 0 <= i < |vs| => C.Variant(vs[i].name, C.StructType(NormalFields(vs[i].data.fields)), []))
  }

  /** Two shapes are structurally equal iff their normal forms are identical. */
  lemma {:induction false} ShapesEqualIffNormal(a: C.Shape, b: C.Shape)
    ensures ShapesEqual(a, b) <==> Normal(a) == Normal(b)
    decreases a, 3
  {
    DefsEqualIffNormal(a.def.value, b.def.value);
    TypesEqualIffNormal(a.ty.value, b.ty.value);
  }

  lemma {:induction false} DefsEqualIffNormal(a: C.Def, b: C.Def)
    ensures DefsEqual(a, b) <==> NormalDef(a) == NormalDef(b)
    decreases a, 2
  {
    match (a, b)
    case (Map(ak, av), Map(bk, bv)) =>
      ShapesEqualIffNormal(ak, bk);
      ShapesEqualIffNormal(av, bv);
    case (Set(at), Set(bt)) => ShapesEqualIffNormal(at, bt);
    case (List(at), List(bt)) => ShapesEqualIffNormal(at, bt);
    case (Array(at, _), Array(bt, _)) => ShapesEqualIffNormal(at, bt);
    case (Option(at), Option(bt)) => ShapesEqualIffNormal(at, bt);
    case _ =>
  }

  lemma {:induction false} TypesEqualIffNormal(a: C.Type, b: C.Type)
    ensures TypesEqual(a, b) <==> NormalType(a) == NormalType(b)
    decreases a, 2
  {
    match (a, b)
    case (Sequence(at), Sequence(bt)) => ShapesEqualIffNormal(at, bt);
    case (User(au), User(bu)) =>
      match (au, bu) {
        case (Struct(x), Struct(y)) => FieldsEqualIffNormal(x.fields, y.fields);
        case (Enum(x), Enum(y)) => VariantsEqualIffNormal(x.variants, y.variants);
        case (Union(x), Union(y)) => FieldsEqualIffNormal(x.fields, y.fields);
        case _ =>
      }
    case _ =>
  }

  lemma {:induction false} FieldsEqualIffNormal(a: seq<C.Field>, b: seq<C.Field>)
    ensures FieldsEqual(a, b) <==> NormalFields(a) == NormalFields(b)
    decreases a, 1
  {
    if |a| == |b| {
      forall i | 0 <= i < |a| {
        ShapesEqualIffNormal(a[i].shape, b[i].shape);
      }
      if NormalFields(a) == NormalFields(b) {
        forall i | 0 <= i < |a| ensures a[i].name == b[i].name && ShapesEqual(a[i].shape, b[i].shape) {
          assert NormalFields(a)[i] == NormalFields(b)[i];
        }
      }
    }
  }

  lemma {:induction false} VariantsEqualIffNormal(a: seq<C.Variant>, b: seq<C.Variant>)
    ensures VariantsEqual(a, b) <==> NormalVariants(a) == NormalVariants(b)
    decreases a, 1
  {
    if |a| == |b| {
      forall i | 0 <= i < |a| {
        FieldsEqualIffNormal(a[i].data.fields, b[i].data.fields);
      }
      if NormalVariants(a) == NormalVariants(b) {
        forall i | 0 <= i < |a| ensures a[i].name == b[i].name && FieldsEqual(a[i].data.fields, b[i].data.fields) {
          assert NormalVariants(a)[i] == NormalVariants(b)[i];
        }
      }
    }
  }

  /** Structural equality is an equivalence relation. */
  lemma ShapesEqualEquivalence(a: C.Shape, b: C.Shape, c: C.Shape)
    ensures ShapesEqual(a, a)
    ensures ShapesEqual(a, b) ==> ShapesEqual(b, a)
    ensures ShapesEqual(a, b) && ShapesEqual(b, c) ==> ShapesEqual(a, c)
  {
    ShapesEqualIffNormal(a, a);
    ShapesEqualIffNormal(a, b);
    ShapesEqualIffNormal(b, a);
    ShapesEqualIffNormal(b, c);
    ShapesEqualIffNormal(a, c);
  }

  /** Field order matters: swapping two differently named fields makes the structs unequal. */
  lemma FieldOrderMatters(a: seq<C.Field>, i: nat, j: nat)
    requires i < j < |a| && a[i].name != a[j].name
    ensures !FieldsEqual(a, a[i := a[j]][j := a[i]])
  {
    assert a[i := a[j]][j := a[i]][i] == a[j];
  }

  // ---------------------------------------------------------------------------
  // The diff
  // ---------------------------------------------------------------------------

  datatype Diff =
    | Equal
    | Different(from: C.Shape, to: C.Shape)
    | User(from: C.Shape, to: C.Shape, value: Value)
    | Sequence(from: C.Shape, to: C.Shape)

  /** Field-level differences between two structs. */
  datatype Value = Struct(
    updates: map<string, Diff>,
    deletions: set<string>,
    insertions: set<string>,
    unchangedFields: set<string>)

  predicate IsStruct(s: C.Shape) {
    s.ty.value.User? && s.ty.value.user.Struct?
  }

  function StructFields(s: C.Shape): seq<C.Field>
    requires IsStruct(s)
  {
    s.ty.value.user.st.fields
  }

  /** The `to` fields by name; of two fields with one name, the later one is kept. */
  function FieldMap(fs: seq<C.Field>): (m: map<string, C.Field>)
    ensures forall name :: name in m <==> exists i :: 0 <= i < |fs| && fs[i].name == name
    decreases |fs|
  {
    if fs == [] then map[]
    else
      var init := fs[..|fs| - 1];
      var m := FieldMap(init);
      assert forall i :: 0 <= i < |init| ==> init[i] == fs[i];
      m[fs[|fs| - 1].name := fs[|fs| - 1]]
  }

  function Names(fs: seq<C.Field>): set<string> {
    set i | 0 <= i < |fs| :: fs[i].name
  }

  /** Updates, deletions and unchanged names from the first `n` fields of `from`. */
  function ScanFields(fromFields: seq<C.Field>, toMap: map<string, C.Field>, n: nat): Value
    requires n <= |fromFields|
    decreases fromFields, 1, n
  {
    if n == 0 then Struct(map[], {}, {}, {})
    else
      var v := ScanFields(fromFields, toMap, n - 1);
      var f := fromFields[n - 1];
      if f.name in toMap then
        var d := DiffOf(f.shape, toMap[f.name].shape);
        if d == Equal then v.(unchangedFields := v.unchangedFields + {f.name})
        else v.(updates := v.updates[f.name := d])
      else v.(deletions := v.deletions + {f.name})
  }

  /** What `Diff::new` returns. */
  function DiffOf(from: C.Shape, to: C.Shape): (r: Diff)
    ensures r == Equal <==> ShapesEqual(from, to)
    ensures r.User? <==> !ShapesEqual(from, to) && IsStruct(from) && IsStruct(to)
    ensures r.Sequence? <==> !ShapesEqual(from, to) && from.ty.value.Sequence? && to.ty.value.Sequence?
    ensures !r.Equal? ==> r.from == from && r.to == to
    decreases from, 2
  {
    if ShapesEqual(from, to) then Equal
    else if IsStruct(from) && IsStruct(to) then
      var ff := StructFields(from);
      var tf := StructFields(to);
      var v := ScanFields(ff, FieldMap(tf), |ff|);
      User(from, to, v.(insertions := Names(tf) - Names(ff)))
    else if from.ty.value.User? && from.ty.value.user.Enum? && to.ty.value.User? && to.ty.value.user.Enum? then
      Different(from, to)
    else if from.ty.value.Sequence? && to.ty.value.Sequence? then Sequence(from, to)
    else Different(from, to)
  }

  /** The `to_fields` map: each `to` field inserted in order. */
  method BuildFieldMap(fs: seq<C.Field>) returns (m: map<string, C.Field>)
    ensures m == FieldMap(fs)
  {
    m := map[];
    for i := 0 to |fs|
      invariant m == FieldMap(fs[..i])
    {
      assert fs[..i + 1][..i] == fs[..i];
      m := m[fs[i].name := fs[i]];
    }
    assert fs[..|fs|] == fs;
  }

  lemma NamesSnoc(fs: seq<C.Field>, i: nat)
    requires i < |fs|
    ensures Names(fs[..i + 1]) == Names(fs[..i]) + {fs[i].name}
  {
    assert fs[..i + 1] == fs[..i] + [fs[i]];
  }

  /** The names of `fs`, collected in order. */
  method CollectNames(fs: seq<C.Field>) returns (names: set<string>)
    ensures names == Names(fs)
  {
    names := {};
    for i := 0 to |fs|
      invariant names == Names(fs[..i])
    {
      NamesSnoc(fs, i);
      names := names + {fs[i].name};
    }
    assert fs[..|fs|] == fs;
  }

  /** The `to` names that are not `from` names. */
  method NewNames(tf: seq<C.Field>, fromNames: set<string>) returns (insertions: set<string>)
    ensures insertions == Names(tf) - fromNames
  {
    insertions := {};
    for i := 0 to |tf|
      invariant insertions == Names(tf[..i]) - fromNames
    {
      NamesSnoc(tf, i);
      if tf[i].name !in fromNames {
        insertions := insertions + {tf[i].name};
      }
    }
    assert tf[..|tf|] == tf;
  }

  /** `Diff::new` */
  method NewDiff(from: C.Shape, to: C.Shape) returns (d: Diff)
    ensures d == DiffOf(from, to)
    decreases from
  {
    if ShapesEqual(from, to) {
      return Equal;
    }
    if IsStruct(from) && IsStruct(to) {
      var ff := StructFields(from);
      var tf := StructFields(to);
      var toFields := BuildFieldMap(tf);
      var updates: map<string, Diff> := map[];
      var deletions: set<string> := {};
      var unchangedFields: set<string> := {};
      for i := 0 to |ff|
        invariant ScanFields(ff, toFields, i) == Struct(updates, deletions, {}, unchangedFields)
      {
        var f := ff[i];
        if f.name in toFields {
          var fieldDiff := NewDiff(f.shape, toFields[f.name].shape);
          if fieldDiff.Equal? {
            unchangedFields := unchangedFields + {f.name};
          } else {
            updates := updates[f.name := fieldDiff];
          }
        } else {
          deletions := deletions + {f.name};
        }
      }
      var fromNames := CollectNames(ff);
      var insertions := NewNames(tf, fromNames);
      return User(from, to, Struct(updates, deletions, insertions, unchangedFields));
    }
    if from.ty.value.User? && from.ty.value.user.Enum? && to.ty.value.User? && to.ty.value.user.Enum? {
      d := Different(from, to);
    } else if from.ty.value.Sequence? && to.ty.value.Sequence? {
      d := Sequence(from, to);
    } else {
      d := Different(from, to);
    }
  }

  // ---------------------------------------------------------------------------
  // Properties of the field-level diff
  // ---------------------------------------------------------------------------

  predicate DistinctNames(fs: seq<C.Field>) {
    forall i, j :: 0 <= i < j < |fs| ==> fs[i].name != fs[j].name
  }

  /** The `i`-th `from` field has a `to` field of the same name and an equal shape. */
  predicate Kept(ff: seq<C.Field>, toMap: map<string, C.Field>, i: int)
    requires 0 <= i < |ff|
  {
    ff[i].name in toMap && DiffOf(ff[i].shape, toMap[ff[i].name].shape) == Equal
  }

  /** The `i`-th `from` field has a `to` field of the same name and a different shape. */
  predicate Changed(ff: seq<C.Field>, toMap: map<string, C.Field>, i: int)
    requires 0 <= i < |ff|
  {
    ff[i].name in toMap && DiffOf(ff[i].shape, toMap[ff[i].name].shape) != Equal
  }

  /** A name is deleted iff some scanned field of that name has no `to` field. */
  lemma {:induction false} ScanDeletions(ff: seq<C.Field>, toMap: map<string, C.Field>, n: nat)
    requires n <= |ff|
    ensures forall name :: name in ScanFields(ff, toMap, n).deletions <==>
              exists i :: 0 <= i < n && ff[i].name == name && name !in toMap
    decreases n
  {
    if n > 0 {
      ScanDeletions(ff, toMap, n - 1);
    }
  }

  /** A name is unchanged iff some scanned field of that name is kept. */
  lemma {:induction false} ScanUnchanged(ff: seq<C.Field>, toMap: map<string, C.Field>, n: nat)
    requires n <= |ff|
    ensures forall name :: name in ScanFields(ff, toMap, n).unchangedFields <==>
              exists i :: 0 <= i < n && ff[i].name == name && Kept(ff, toMap, i)
    decreases n
  {
    if n > 0 {
      ScanUnchanged(ff, toMap, n - 1);
    }
  }

  /** A name is updated iff some scanned field of that name changed. */
  lemma {:induction false} ScanUpdates(ff: seq<C.Field>, toMap: map<string, C.Field>, n: nat)
    requires n <= |ff|
    ensures forall name :: name in ScanFields(ff, toMap, n).updates <==>
              exists i :: 0 <= i < n && ff[i].name == name && Changed(ff, toMap, i)
    decreases n
  {
    if n > 0 {
      ScanUpdates(ff, toMap, n - 1);
    }
  }

  /** With distinct names, the update recorded for a changed field is that field's own diff. */
  lemma {:induction false} ScanUpdateValues(ff: seq<C.Field>, toMap: map<string, C.Field>, n: nat)
    requires n <= |ff| && DistinctNames(ff)
    ensures forall i :: 0 <= i < n && Changed(ff, toMap, i) ==>
              ff[i].name in ScanFields(ff, toMap, n).updates
              && ScanFields(ff, toMap, n).updates[ff[i].name] == DiffOf(ff[i].shape, toMap[ff[i].name].shape)
    decreases n
  {
    if n > 0 {
      ScanUpdateValues(ff, toMap, n - 1);
      var v := ScanFields(ff, toMap, n - 1);
      var w := ScanFields(ff, toMap, n);
      var f := ff[n - 1];
      forall i | 0 <= i < n && Changed(ff, toMap, i)
        ensures ff[i].name in w.updates && w.updates[ff[i].name] == DiffOf(ff[i].shape, toMap[ff[i].name].shape)
      {
        if i < n - 1 {
          assert ff[i].name != f.name;
          assert ff[i].name in v.updates;
        }
      }
    }
  }

  /**
    The field-level diff of two structs with distinct field names: every
    `from` name is exactly one of updated, deleted or unchanged; deletions are
    the names missing from `to`, insertions the names missing from `from`.
  */
  lemma StructDiffPartition(from: C.Shape, to: C.Shape)
    requires DiffOf(from, to).User? && DistinctNames(StructFields(from))
    ensures var v := DiffOf(from, to).value;
            var fromNames := Names(StructFields(from));
            var toNames := Names(StructFields(to));
            v.deletions == fromNames - toNames
            && v.insertions == toNames - fromNames
            && v.updates.Keys + v.unchangedFields == fromNames * toNames
            && v.updates.Keys !! v.unchangedFields
  {
    var ff := StructFields(from);
    var tf := StructFields(to);
    var toMap := FieldMap(tf);
    ScanDeletions(ff, toMap, |ff|);
    ScanUnchanged(ff, toMap, |ff|);
    ScanUpdates(ff, toMap, |ff|);
    assert forall name :: name in toMap <==> name in Names(tf);
    var v := DiffOf(from, to).value;
    forall name | name in v.updates.Keys ensures name !in v.unchangedFields {
      var i :| 0 <= i < |ff| && ff[i].name == name && Changed(ff, toMap, i);
      forall j | 0 <= j < |ff| && ff[j].name == name ensures !Kept(ff, toMap, j) {
        assert i == j;
      }
    }
  }

  /** A shape compared with itself has no diff. */
  lemma DiffOfSelf(s: C.Shape)
    ensures DiffOf(s, s) == Equal
  {
    ShapesEqualEquivalence(s, s, s);
  }

  /**
    Matching is by name but equality is positional: when `to` lists the same
    fields as `from` (distinct names, each name's shape equal) in another
    order, the diff is a struct diff that records no change at all.
  */
  lemma ReorderedFieldsHaveNoChanges(from: C.Shape, to: C.Shape)
    requires IsStruct(from) && IsStruct(to) && !ShapesEqual(from, to)
    requires DistinctNames(StructFields(from)) && DistinctNames(StructFields(to))
    requires Names(StructFields(from)) == Names(StructFields(to))
    requires forall i, j :: (0 <= i < |StructFields(from)| && 0 <= j < |StructFields(to)|
               && StructFields(from)[i].name == StructFields(to)[j].name) ==>
               ShapesEqual(StructFields(from)[i].shape, StructFields(to)[j].shape)
    ensures DiffOf(from, to) == User(from, to, Struct(map[], {}, {}, Names(StructFields(from))))
  {
    var ff := StructFields(from);
    var tf := StructFields(to);
    var toMap := FieldMap(tf);
    var v := ScanFields(ff, toMap, |ff|);
    assert DiffOf(from, to) == User(from, to, v.(insertions := Names(tf) - Names(ff)));
    FieldMapLast(tf);
    forall i | 0 <= i < |ff| ensures ff[i].name in toMap && Kept(ff, toMap, i) {
      assert ff[i].name in Names(tf);
      var j :| 0 <= j < |tf| && tf[j].name == ff[i].name;
      assert toMap[ff[i].name] == tf[j];
    }
    ScanDeletions(ff, toMap, |ff|);
    ScanUnchanged(ff, toMap, |ff|);
    ScanUpdates(ff, toMap, |ff|);
    assert v.updates == map[];
    assert v.deletions == {};
    assert v.unchangedFields == Names(ff);
  }

  /** With distinct names, the map holds each `to` field under its own name. */
  lemma {:induction false} FieldMapLast(fs: seq<C.Field>)
    requires DistinctNames(fs)
    ensures forall i :: 0 <= i < |fs| ==> fs[i].name in FieldMap(fs) && FieldMap(fs)[fs[i].name] == fs[i]
    decreases |fs|
  {
    if fs != [] {
      var init := fs[..|fs| - 1];
      FieldMapLast(init);
      assert forall i :: 0 <= i < |init| ==> init[i] == fs[i];
    }
  }
}
