/** The schemas the relational rules give the plans of the validator's
  * union, cogroup, foreach and cross cases. Key and generate plans appear
  * through the fields their leaves produce; the plans' own typing is the
  * business of the expression scenarios. */
module RelationalScenarios {
  import opened Wrappers
  import opened DataTypes
  import opened Schemas
  import opened LogicalPlans
  import TypeCheckingValidator

  /** A column with an alias. */
  function Named(alias: string, t: Type): FieldSchema {
    FieldSchema(Some(alias), t, [])
  }

  /** The first input of the four-column union. */
  const MixedLeft: Schema := [Named("field1a", INTEGER), Named("field2a", LONG), Atom(BYTEARRAY), Atom(CHARARRAY)]

  /** The second input of the four-column union. */
  const MixedRight: Schema := [Named("field1b", DOUBLE), Atom(INTEGER), Named("field3b", FLOAT), Named("field4b", CHARARRAY)]

  /** Column `c` of the union of two inputs whose columns merge to `t`. */
  lemma PairColumn(l: Schema, r: Schema, c: nat, t: Type)
    requires |l| == |r| && c < |l| && MergeType(l[c].t, r[c].t) == Some(t)
    ensures SameWidth([l, r]) && |UnionSchema([l, r])| == |l|
    ensures UnionSchema([l, r])[c] == FieldSchema(if l[c].alias.Some? then l[c].alias else r[c].alias, t, l[c].inner)
  {
    var fss := ColumnOf([l, r], c);
    assert fss == [l[c], r[c]];
    assert Types(fss) == [l[c].t, r[c].t];
    FoldPair(l[c].t, r[c].t);
    assert fss[1..] == [r[c]];
  }

  /** The first two union columns: INTEGER and DOUBLE merge to DOUBLE,
    * LONG and INTEGER to LONG; both keep the first input's alias. */
  lemma MixedUnionFirstColumns()
    ensures UnionSchema([MixedLeft, MixedRight])[0] == Named("field1a", DOUBLE)
    ensures UnionSchema([MixedLeft, MixedRight])[1] == Named("field2a", LONG)
  {
    PairColumn(MixedLeft, MixedRight, 0, DOUBLE);
    PairColumn(MixedLeft, MixedRight, 1, LONG);
  }

  /** The last two union columns: BYTEARRAY and FLOAT merge to FLOAT, two
    * CHARARRAY columns stay CHARARRAY; the first input names neither, so
    * both take the second input's alias. */
  lemma MixedUnionLastColumns()
    ensures UnionSchema([MixedLeft, MixedRight])[2] == Named("field3b", FLOAT)
    ensures UnionSchema([MixedLeft, MixedRight])[3] == Named("field4b", CHARARRAY)
  {
    PairColumn(MixedLeft, MixedRight, 2, FLOAT);
    PairColumn(MixedLeft, MixedRight, 3, CHARARRAY);
  }

  /** Both inputs of the four-column union are read through a casting
    * foreach: the first casts its columns 0 and 2 (to DOUBLE and FLOAT),
    * the second its column 1 (to LONG); every other column is projected as
    * it is. */
  lemma MixedUnionCasts()
    ensures var out := UnionSchema([MixedLeft, MixedRight]);
      [UnionCast(MixedLeft[0], out[0]), UnionCast(MixedLeft[1], out[1]),
       UnionCast(MixedLeft[2], out[2]), UnionCast(MixedLeft[3], out[3])]
      == [Some(DOUBLE), None, Some(FLOAT), None]
    ensures var out := UnionSchema([MixedLeft, MixedRight]);
      [UnionCast(MixedRight[0], out[0]), UnionCast(MixedRight[1], out[1]),
       UnionCast(MixedRight[2], out[2]), UnionCast(MixedRight[3], out[3])]
      == [None, Some(LONG), None, None]
    ensures var out := UnionSchema([MixedLeft, MixedRight]);
      NeedsUnionCasts(MixedLeft, out) && NeedsUnionCasts(MixedRight, out)
  {
    var out := MixedUnionColumns();
    MixedColumnCasts(out);
  }

  /** The four union columns, as the two lemmas above give them. */
  lemma MixedUnionColumns() returns (out: Schema)
    ensures out == UnionSchema([MixedLeft, MixedRight]) && |out| == 4
    ensures out[0] == Named("field1a", DOUBLE) && out[1] == Named("field2a", LONG)
    ensures out[2] == Named("field3b", FLOAT) && out[3] == Named("field4b", CHARARRAY)
  {
    MixedUnionFirstColumns();
    MixedUnionLastColumns();
    out := UnionSchema([MixedLeft, MixedRight]);
  }

  /** The casts of each input column into the four union columns. */
  lemma MixedColumnCasts(out: Schema)
    requires |out| == 4
    requires out[0] == Named("field1a", DOUBLE) && out[1] == Named("field2a", LONG)
    requires out[2] == Named("field3b", FLOAT) && out[3] == Named("field4b", CHARARRAY)
    ensures [UnionCast(MixedLeft[0], out[0]), UnionCast(MixedLeft[1], out[1]),
             UnionCast(MixedLeft[2], out[2]), UnionCast(MixedLeft[3], out[3])]
      == [Some(DOUBLE), None, Some(FLOAT), None]
    ensures [UnionCast(MixedRight[0], out[0]), UnionCast(MixedRight[1], out[1]),
             UnionCast(MixedRight[2], out[2]), UnionCast(MixedRight[3], out[3])]
      == [None, Some(LONG), None, None]
    ensures NeedsUnionCasts(MixedLeft, out) && NeedsUnionCasts(MixedRight, out)
  {
    assert UnionCast(MixedLeft[0], out[0]).Some? && UnionCast(MixedRight[1], out[1]).Some?;
  }

  /** The first input of the two-column union. */
  const NarrowLeft: Schema := [Named("field1a", INTEGER), Named("field2a", BYTEARRAY)]

  /** The second input of the two-column union. */
  const WideRight: Schema := [Named("field1b", DOUBLE), Named("field2b", DOUBLE)]

  /** Both union columns are DOUBLE; only the first input needs casting, the
    * second stays wired directly to the union. */
  lemma WideningUnion()
    ensures SameWidth([NarrowLeft, WideRight]) && |UnionSchema([NarrowLeft, WideRight])| == 2
    ensures UnionSchema([NarrowLeft, WideRight])[0] == Named("field1a", DOUBLE)
    ensures UnionSchema([NarrowLeft, WideRight])[1] == Named("field2a", DOUBLE)
  {
    PairColumn(NarrowLeft, WideRight, 0, DOUBLE);
    PairColumn(NarrowLeft, WideRight, 1, DOUBLE);
  }

  /** Both columns of the first input are cast to DOUBLE, so it is read
    * through a casting foreach. */
  lemma WideningUnionCasts()
    ensures var out := UnionSchema([NarrowLeft, WideRight]);
      |out| == 2 && UnionCast(NarrowLeft[0], out[0]) == Some(DOUBLE) && UnionCast(NarrowLeft[1], out[1]) == Some(DOUBLE)
      && NeedsUnionCasts(NarrowLeft, out)
  {
    WideningUnion();
    var out := UnionSchema([NarrowLeft, WideRight]);
    assert UnionCast(NarrowLeft[0], out[0]).Some?;
  }

  /** The second input already has the union's types and stays wired
    * directly to the union. */
  lemma WideningUnionDirect()
    ensures var out := UnionSchema([NarrowLeft, WideRight]);
      |out| == 2 && !NeedsUnionCasts(WideRight, out)
  {
    WideningUnion();
  }

  /** The plan that loads the two-column inputs and unions them. */
  function UnionPlan(k: nat): (p: seq<RelNode>)
    ensures RelWellFormed(p)
  {
    [ RelNode(k, Load(NarrowLeft), [], None),
      RelNode(k + 1, Load(WideRight), [], None),
      RelNode(k + 2, Union, [0, 1], None) ]
  }

  /** The union's output schema, inferred through the plan from the loads'
    * declared schemas. */
  lemma UnionPlanSchema(k: nat)
    ensures RelInfer(UnionPlan(k), 2) == Ok(UnionSchema([NarrowLeft, WideRight]))
  {
    var p := UnionPlan(k);
    RelInferStep(p, 0, []);
    RelInferStep(p, 1, []);
    assert SameWidth([NarrowLeft, WideRight]);
    RelInferStep(p, 2, [NarrowLeft, WideRight]);
  }

  /** The union of the plan reads the two loads' schemas; its first input
    * is wrapped in a casting foreach and its second is not. */
  lemma UnionPlanInputs(k: nat)
    ensures var ins := [NarrowLeft, WideRight];
      InputSchemas(UnionPlan(k), 2) == Ok(ins)
      && TypeCheckingValidator.Wraps(Union, ins, 0) && !TypeCheckingValidator.Wraps(Union, ins, 1)
  {
    var p := UnionPlan(k);
    UnionPlanSchema(k);
    RelInferStep(p, 0, []);
    RelInferStep(p, 1, []);
    assert InputSchemas(p, 2).Ok?;
    var found := InputSchemas(p, 2).value;
    assert found[0] == NarrowLeft && found[1] == WideRight;
    assert found == [NarrowLeft, WideRight];
    WideningUnionCasts();
    WideningUnionDirect();
  }

  /** After validating the union plan, the first load is read only by a
    * casting foreach, which reads nothing else and is read only by the
    * union; the second load is read only by the union itself. */
  lemma UnionPlanWiring(k: nat, res: seq<RelNode>) returns (pos: seq<nat>)
    requires TypeCheckingValidator.IsValidationOf(UnionPlan(k), res)
    ensures |pos| == 3 && pos[2] < |res| && |res[pos[2]].inputs| == 2 && res[pos[2]].op == Union
    ensures var a := res[pos[2]].inputs[0];
      a < |res| && res[a].op.ForEach? && res[a].inputs == [pos[0]]
      && (forall y :: 0 <= y < |res| && pos[0] in res[y].inputs ==> y == a)
      && (forall y :: 0 <= y < |res| && a in res[y].inputs ==> y == pos[2])
    ensures res[pos[2]].inputs[1] == pos[1]
    ensures forall y :: 0 <= y < |res| && pos[1] in res[y].inputs ==> y == pos[2]
  {
    var p := UnionPlan(k);
    pos := TypeCheckingValidator.ValidatedLayout(p, res);
    var ins := [NarrowLeft, WideRight];
    UnionPlanInputs(k);
    assert TypeCheckingValidator.RelRewrote(p, res, pos, 2);
    TypeCheckingValidator.InputReaders(p, res, pos, 2, 0);
    TypeCheckingValidator.InputReaders(p, res, pos, 2, 1);
    var a := res[pos[2]].inputs[0];
    var key: nat :| res[a] == UnionWrapper(key, pos[0], ins[0], UnionSchema(ins));
  }

  /** The union of the two-column inputs, reading the first one twice. */
  const DoubledInputs: seq<Schema> := [NarrowLeft, NarrowLeft, WideRight]

  /** Column `c` of the doubled union folds the first input's type twice
    * and the second input's DOUBLE once, which gives DOUBLE. */
  lemma DoubledColumn(c: nat)
    requires c < 2
    ensures SameWidth(DoubledInputs) && |UnionSchema(DoubledInputs)| == 2
    ensures UnionSchema(DoubledInputs)[c].t == DOUBLE
  {
    var t := NarrowLeft[c].t;
    var ts := Types(ColumnOf(DoubledInputs, c));
    assert ts == [t, t, DOUBLE];
    assert ts[..2] == [t, t] && ts[..2][..1] == [t];
    assert FoldMerge(ts[..2]) == Some(t);
  }

  /** Both columns of the doubled union are DOUBLE: both reads of the first
    * input need casting, the second input does not. */
  lemma DoubledUnionCasts()
    ensures SameWidth(DoubledInputs) && |UnionSchema(DoubledInputs)| == 2
    ensures NeedsUnionCasts(NarrowLeft, UnionSchema(DoubledInputs))
    ensures !NeedsUnionCasts(WideRight, UnionSchema(DoubledInputs))
  {
    var out := DoubledColumns();
    WideningCasts(out);
  }

  /** Into two DOUBLE columns, the (INTEGER,BYTEARRAY) input needs casts
    * and the (DOUBLE,DOUBLE) input does not. */
  lemma WideningCasts(out: Schema)
    requires |out| == 2 && out[0].t == DOUBLE && out[1].t == DOUBLE
    ensures NeedsUnionCasts(NarrowLeft, out) && !NeedsUnionCasts(WideRight, out)
  {
    assert UnionCast(NarrowLeft[0], out[0]).Some?;
  }

  /** Both columns of the doubled union, as `DoubledColumn` gives them. */
  lemma DoubledColumns() returns (out: Schema)
    ensures SameWidth(DoubledInputs) && out == UnionSchema(DoubledInputs) && |out| == 2
    ensures out[0].t == DOUBLE && out[1].t == DOUBLE
  {
    DoubledColumn(0);
    DoubledColumn(1);
    out := UnionSchema(DoubledInputs);
  }

  /** The plan that loads the two-column inputs and unions the first with
    * itself and the second. */
  function DoubledUnionPlan(k: nat): (p: seq<RelNode>)
    ensures RelWellFormed(p)
  {
    [ RelNode(k, Load(NarrowLeft), [], None),
      RelNode(k + 1, Load(WideRight), [], None),
      RelNode(k + 2, Union, [0, 0, 1], None) ]
  }

  /** The doubled union reads the loads' schemas; its first two inputs are
    * wrapped in casting foreaches and its third is not. */
  lemma DoubledUnionInputs(k: nat)
    ensures InputSchemas(DoubledUnionPlan(k), 2) == Ok(DoubledInputs)
    ensures TypeCheckingValidator.Wraps(Union, DoubledInputs, 0) && TypeCheckingValidator.Wraps(Union, DoubledInputs, 1)
    ensures !TypeCheckingValidator.Wraps(Union, DoubledInputs, 2)
  {
    var p := DoubledUnionPlan(k);
    RelInferStep(p, 0, []);
    RelInferStep(p, 1, []);
    assert InputSchemas(p, 2).Ok?;
    var found := InputSchemas(p, 2).value;
    assert found[0] == NarrowLeft && found[1] == NarrowLeft && found[2] == WideRight;
    assert found == DoubledInputs;
    DoubledUnionCasts();
  }

  /** In a validation of the doubled union, input `j < 2` of the union is
    * read through a casting foreach over the first load. */
  lemma DoubledWrapper(k: nat, res: seq<RelNode>, pos: seq<nat>, j: nat)
    requires RelWellFormed(res) && TypeCheckingValidator.ValidatedAt(DoubledUnionPlan(k), res, pos) && j < 2
    ensures TypeCheckingValidator.WrapperAt(DoubledUnionPlan(k), res, pos, 2, j)
    ensures var a := res[pos[2]].inputs[j]; a < |res| && res[a].op.ForEach? && res[a].inputs == [pos[0]]
  {
    var p := DoubledUnionPlan(k);
    DoubledUnionInputs(k);
    TypeCheckingValidator.ValidatedWrapper(p, res, pos, 2, j);
    assert p[2].inputs[j] == 0;
  }

  /** After validating the doubled union, each read of the first load goes
    * through its own casting foreach over that load, and the second load
    * is read directly. */
  lemma DoubledUnionWiring(k: nat, res: seq<RelNode>) returns (pos: seq<nat>)
    requires TypeCheckingValidator.IsValidationOf(DoubledUnionPlan(k), res)
    ensures |pos| == 3 && pos[2] < |res| && |res[pos[2]].inputs| == 3 && res[pos[2]].op == Union
    ensures var a0 := res[pos[2]].inputs[0]; var a1 := res[pos[2]].inputs[1];
      a0 != a1 && a0 < |res| && a1 < |res|
      && res[a0].op.ForEach? && res[a0].inputs == [pos[0]]
      && res[a1].op.ForEach? && res[a1].inputs == [pos[0]]
    ensures res[pos[2]].inputs[2] == pos[1]
  {
    var p := DoubledUnionPlan(k);
    pos :| TypeCheckingValidator.ValidatedAt(p, res, pos);
    DoubledWrapper(k, res, pos, 0);
    DoubledWrapper(k, res, pos, 1);
    if res[pos[2]].inputs[0] == res[pos[2]].inputs[1] {
      TypeCheckingValidator.WrapperServesOneInput(p, res, pos, 2, 0, 1);
      assert false;
    }
    DoubledUnionInputs(k);
    assert TypeCheckingValidator.RelRewrote(p, res, pos, 2) && TypeCheckingValidator.Stretched(p, res, pos, 2);
    TypeCheckingValidator.DirectRead(p, res, pos, 2, 2);
  }

  /** Folding the merge over two types merges the two. */
  lemma FoldPair(a: Type, b: Type)
    ensures FoldMerge([a, b]) == MergeType(a, b)
  {
    assert [a, b][..1] == [a];
  }

  /** The two inputs of the cogroups. */
  const GroupLeft: Schema := [Named("field1a", INTEGER), Named("field2a", LONG)]
  const GroupRight: Schema := [Named("field1b", DOUBLE), Atom(INTEGER)]

  /** Grouping by (INTEGER - FLOAT, INTEGER + LONG) and (DOUBLE - INTEGER,
    * INTEGER): the key positions merge to DOUBLE and LONG. */
  lemma CogroupByTupleKeys()
    ensures var fields := [[Atom(FLOAT), Atom(LONG)], [Atom(DOUBLE), Atom(INTEGER)]];
      Rectangular(fields) && KeyTypes(fields) == [DOUBLE, LONG]
  {
    var fields := [[Atom(FLOAT), Atom(LONG)], [Atom(DOUBLE), Atom(INTEGER)]];
    assert PositionTypes(fields, 0) == [FLOAT, DOUBLE];
    assert PositionTypes(fields, 1) == [LONG, INTEGER];
    FoldPair(FLOAT, DOUBLE);
    FoldPair(LONG, INTEGER);
    assert KeyTypes(fields)[0] == DOUBLE && KeyTypes(fields)[1] == LONG;
  }

  /** With a key of two positions the group column is a tuple of the key
    * types, followed by a bag of each input's rows. */
  lemma CogroupByTupleSchema()
    ensures var s := CogroupSchema([DOUBLE, LONG], [GroupLeft, GroupRight]);
      |s| == 3 && s[0].t == TUPLE && Types(s[0].inner) == [DOUBLE, LONG]
      && s[1].t == BAG && Types(s[1].inner) == [INTEGER, LONG]
      && s[2].t == BAG && Types(s[2].inner) == [DOUBLE, INTEGER]
  {
    var s := CogroupSchema([DOUBLE, LONG], [GroupLeft, GroupRight]);
    assert s[1].inner == GroupLeft && s[2].inner == GroupRight;
  }

  /** Grouping by INTEGER - FLOAT and DOUBLE - INTEGER: the group column is
    * DOUBLE, and no position is left without a common type. */
  lemma CogroupByAtom()
    ensures var fields := [[Atom(FLOAT)], [Atom(DOUBLE)]];
      Rectangular(fields) && KeyTypes(fields) == [DOUBLE] && TypeCheckingValidator.Unmerged(fields) == [false]
    ensures var s := CogroupSchema([DOUBLE], [GroupLeft, GroupRight]);
      |s| == 3 && s[0].t == DOUBLE && s[1].t == BAG && s[2].t == BAG
  {
    var fields := [[Atom(FLOAT)], [Atom(DOUBLE)]];
    assert PositionTypes(fields, 0) == [FLOAT, DOUBLE];
    FoldPair(FLOAT, DOUBLE);
    assert KeyTypes(fields)[0] == DOUBLE;
    assert TypeCheckingValidator.Unmerged(fields)[0] == false;
  }

  /** Grouping by INTEGER - FLOAT and a CHARARRAY constant: the keys have no
    * common type, so the group column is BYTEARRAY, and that position is
    * the one reported with a warning. */
  lemma CogroupIncompatible()
    ensures var fields := [[Atom(FLOAT)], [Atom(CHARARRAY)]];
      Rectangular(fields) && KeyTypes(fields) == [BYTEARRAY] && TypeCheckingValidator.Unmerged(fields) == [true]
    ensures var s := CogroupSchema([BYTEARRAY], [GroupLeft, GroupRight]);
      |s| == 3 && s[0].t == BYTEARRAY && s[1].t == BAG && s[2].t == BAG
  {
    var fields := [[Atom(FLOAT)], [Atom(CHARARRAY)]];
    assert PositionTypes(fields, 0) == [FLOAT, CHARARRAY];
    FoldPair(FLOAT, CHARARRAY);
    assert KeyTypes(fields)[0] == BYTEARRAY;
    assert TypeCheckingValidator.Unmerged(fields)[0];
  }

  /** Generating INTEGER - FLOAT (flattened) and INTEGER + LONG: flattening a
    * non-bag leaves its field as it is, so the output is (FLOAT, LONG). */
  lemma ForEachFlattensScalar()
    ensures GenerateSchema([Atom(FLOAT), Atom(LONG)], [true, false]) == [Atom(FLOAT), Atom(LONG)]
  {
    var parts := Contributions([Atom(FLOAT), Atom(LONG)], [true, false]);
    assert parts == [[Atom(FLOAT)], [Atom(LONG)]];
    assert Concat(parts[1..]) == [Atom(LONG)] + Concat([]);
  }

  /** The bag column of the foreach input: (a INTEGER, b LONG, c BYTEARRAY). */
  const Bag: FieldSchema := FieldSchema(Some("field3a"), BAG, [Named("a", INTEGER), Named("b", LONG), Named("c", BYTEARRAY)])

  /** Projecting positions 1 and 2 of the bag column gives a bag of (LONG,
    * BYTEARRAY); flattening it and generating INTEGER + LONG beside it
    * gives (LONG, BYTEARRAY, LONG). */
  lemma ForEachFlattensBag()
    ensures ProjectField(Bag, [1, 2]) == Some(FieldSchema(None, BAG, [Named("b", LONG), Named("c", BYTEARRAY)]))
    ensures Types(GenerateSchema([ProjectField(Bag, [1, 2]).value, Atom(LONG)], [true, false])) == [LONG, BYTEARRAY, LONG]
  {
    var projected := FieldSchema(None, BAG, [Named("b", LONG), Named("c", BYTEARRAY)]);
    assert ProjectField(Bag, [1, 2]).value.inner == projected.inner;
    var leaves := [projected, Atom(LONG)];
    var parts := Contributions(leaves, [true, false]);
    assert parts == [projected.inner, [Atom(LONG)]];
    assert Concat(parts[1..]) == [Atom(LONG)] + Concat([]);
    assert GenerateSchema(leaves, [true, false]) == projected.inner + [Atom(LONG)];
  }

  /** The inputs of the cross. */
  const CrossLeft: Schema := [Named("a", INTEGER), Named("b", LONG), Named("c", BYTEARRAY)]
  const CrossRight: Schema := [Named("e", FLOAT), Named("f", DOUBLE)]

  /** The cross of a three-column and a two-column input has their five
    * columns, in order. */
  lemma CrossOfTwo()
    ensures CrossSchema([CrossLeft, CrossRight]) == CrossLeft + CrossRight
    ensures Types(CrossSchema([CrossLeft, CrossRight])) == [INTEGER, LONG, BYTEARRAY, FLOAT, DOUBLE]
  {
    var ins := [CrossLeft, CrossRight];
    assert ins[1..][1..] == [];
    assert Concat(ins[1..]) == CrossRight + Concat([]);
  }
}
