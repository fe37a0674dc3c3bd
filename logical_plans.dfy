/** Relational operators of a logical plan and the schema each produces.
  * A plan is a list of operators in which every operator's inputs come
  * before it. `RelRule` gives one operator's output schema from its
  * inputs' schemas (type-checking its inner expression plans on the way),
  * and `RelInfer` applies it throughout the plan: the reference the
  * validator is proved against. */
module LogicalPlans {
  import opened Wrappers
  import opened DataTypes
  import opened Schemas
  import opened Diagnostics
  import opened ExpressionPlans

  datatype RelOp =
    | Load(declared: Schema)                                  // a source with a declared schema
    | Filter(cond: ExprPlan)
    | Distinct
    | Sort(keys: seq<ExprPlan>, ascending: seq<bool>)
    | Split
    | SplitOutput(index: nat, cond: ExprPlan)                 // one branch of a split
    | Union
    | Cogroup(groupBy: seq<seq<ExprPlan>>, isInner: seq<bool>)  // per input, its key plans
    | ForEach(generate: seq<ExprPlan>, flatten: seq<bool>)
    | Cross

  /** An operator: its key, its kind with its inner plans, the positions of
    * its inputs, and its output schema (known after validation). */
  datatype RelNode = RelNode(key: nat, op: RelOp, inputs: seq<nat>, schema: Option<Schema>)

  /** The operator takes `arity` inputs and its inner plans are plans. */
  predicate OpWellFormed(op: RelOp, arity: nat) {
    match op
    case Load(_) => arity == 0
    case Filter(c) => arity == 1 && IsPlan(c)
    case Distinct => arity == 1
    case Sort(keys, asc) => arity == 1 && |keys| == |asc| && forall k :: 0 <= k < |keys| ==> IsPlan(keys[k])
    case Split => arity == 1
    case SplitOutput(_, c) => arity == 1 && IsPlan(c)
    case Union => arity > 0
    case Cogroup(gb, inner) =>
      arity > 0 && |gb| == arity && |inner| == arity &&
      forall k :: 0 <= k < |gb| ==> |gb[k]| > 0 && forall p :: 0 <= p < |gb[k]| ==> IsPlan(gb[k][p])
    case ForEach(gen, fl) => arity == 1 && |gen| == |fl| && forall k :: 0 <= k < |gen| ==> IsPlan(gen[k])
    case Cross => arity > 0
  }

  /** Every operator is well formed and its inputs come before it. */
  predicate RelWellFormed(nodes: seq<RelNode>) {
    forall i :: 0 <= i < |nodes| ==>
      OpWellFormed(nodes[i].op, |nodes[i].inputs|) && forall k :: 0 <= k < |nodes[i].inputs| ==> nodes[i].inputs[k] < i
  }

  /** The typing of every node of an inner plan, in plan order. */
  function Typings(nodes: seq<ExprNode>, input: Schema): (ts: seq<Result<Typing, Problem>>)
    requires WellFormed(nodes)
    ensures |ts| == |nodes| && forall i :: 0 <= i < |nodes| ==> ts[i] == Typed(nodes, i, input)
  {
    seq(|nodes|, i requires 0 <= i < |nodes| => Typed(nodes, i, input))
  }

  /** The typings are all present exactly when every node type-checks. */
  lemma TypingsAllOk(nodes: seq<ExprNode>, input: Schema)
    requires WellFormed(nodes)
    ensures var rs := Typings(nodes, input);
      (forall i :: 0 <= i < |rs| ==> rs[i].Ok?) ==> (forall i :: 0 <= i < |nodes| ==> Typed(nodes, i, input).Ok?)
    ensures var rs := Typings(nodes, input);
      (forall i :: 0 <= i < |nodes| ==> Typed(nodes, i, input).Ok?) ==> (forall i :: 0 <= i < |rs| ==> rs[i].Ok?)
  {
    var rs := Typings(nodes, input);
    if forall i :: 0 <= i < |rs| ==> rs[i].Ok? {
      forall i | 0 <= i < |nodes| ensures Typed(nodes, i, input).Ok? {
        assert rs[i].Ok?;
      }
    }
    if forall i :: 0 <= i < |nodes| ==> Typed(nodes, i, input).Ok? {
      forall i | 0 <= i < |rs| ensures rs[i].Ok? {
        assert rs[i] == Typed(nodes, i, input);
      }
    }
  }

  /** When the typings do not all succeed, their combined problem is that
    * of the first node that does not type-check. */
  lemma TypingsFirstError(nodes: seq<ExprNode>, input: Schema, e: Problem)
    requires WellFormed(nodes) && AllOk(Typings(nodes, input)) == Err(e)
    ensures exists i :: FirstFailing(nodes, input, i, e)
  {
    var rs := Typings(nodes, input);
    AllOkFirstError(rs);
    var k :| 0 <= k < |rs| && rs[k] == Err(AllOk(rs).error) && forall j :: 0 <= j < k ==> rs[j].Ok?;
    assert Typed(nodes, k, input) == rs[k];
    assert FirstFailing(nodes, input, k, e);
  }

  /** Node `i` is the first node, in plan order, that does not type-check,
    * and it fails with `e`. */
  ghost predicate FirstFailing(nodes: seq<ExprNode>, input: Schema, i: nat, e: Problem)
    requires WellFormed(nodes)
  {
    i < |nodes| && Typed(nodes, i, input) == Err(e) && forall j :: 0 <= j < i ==> Typed(nodes, j, input).Ok?
  }

  /** When the typings all succeed, they are the typings of the nodes. */
  lemma TypingsOk(nodes: seq<ExprNode>, input: Schema, typings: seq<Typing>)
    requires WellFormed(nodes) && AllOk(Typings(nodes, input)) == Ok(typings)
    ensures |typings| == |nodes| && forall i :: 0 <= i < |nodes| ==> Typed(nodes, i, input) == Ok(typings[i])
  {
  }

  /** The field an inner plan produces over rows of schema `input`, or the
    * problem of its first node (in plan order) that does not type-check. */
  function PlanField(p: ExprPlan, input: Schema): (r: Result<FieldSchema, Problem>)
    requires IsPlan(p)
    ensures r.Ok? ==> forall i :: 0 <= i < |p.nodes| ==> Typed(p.nodes, i, input).Ok?
    ensures (forall i :: 0 <= i < |p.nodes| ==> Typed(p.nodes, i, input).Ok?) ==> r.Ok?
    ensures r.Ok? ==> r.value == Typed(p.nodes, |p.nodes| - 1, input).value.fs
    ensures r.Err? ==> exists i :: FirstFailing(p.nodes, input, i, r.error)
  {
    match AllOk(Typings(p.nodes, input))
    case Err(e) =>
      TypingsFirstError(p.nodes, input, e);
      Err(e)
    case Ok(typings) =>
      TypingsOk(p.nodes, input, typings);
      Ok(typings[|typings| - 1].fs)
  }

  /** The fields of several inner plans over the same rows, or the first
    * problem among them. */
  function PlanFields(plans: seq<ExprPlan>, input: Schema): (r: Result<seq<FieldSchema>, Problem>)
    requires forall k :: 0 <= k < |plans| ==> IsPlan(plans[k])
    ensures r.Ok? ==> |r.value| == |plans| && forall k :: 0 <= k < |plans| ==> PlanField(plans[k], input) == Ok(r.value[k])
    ensures (forall k :: 0 <= k < |plans| ==> PlanField(plans[k], input).Ok?) ==> r.Ok?
  {
    var rs := seq(|plans|, k requires 0 <= k < |plans| => PlanField(plans[k], input));
    assert (forall k :: 0 <= k < |plans| ==> PlanField(plans[k], input).Ok?) ==> forall k :: 0 <= k < |rs| ==> rs[k].Ok?;
    AllOk(rs)
  }

  /** Inner plans that each produce their field produce the list of them. */
  lemma PlanFieldsOk(plans: seq<ExprPlan>, input: Schema, fields: seq<FieldSchema>)
    requires forall k :: 0 <= k < |plans| ==> IsPlan(plans[k])
    requires |fields| == |plans| && forall k :: 0 <= k < |plans| ==> PlanField(plans[k], input) == Ok(fields[k])
    ensures PlanFields(plans, input) == Ok(fields)
  {
    var r := PlanFields(plans, input);
    assert r.Ok?;
    assert forall k :: 0 <= k < |plans| ==> r.value[k] == fields[k];
    assert r.value == fields;
  }

  /** One inner plan that fails makes the whole list fail. */
  lemma PlanFieldsFail(plans: seq<ExprPlan>, input: Schema, k: nat)
    requires forall j :: 0 <= j < |plans| ==> IsPlan(plans[j])
    requires k < |plans| && PlanField(plans[k], input).Err?
    ensures PlanFields(plans, input).Err?
  {
  }

  /** A filter or split condition: it must type-check and be boolean; the
    * rows pass through unchanged. */
  function ConditionRule(c: ExprPlan, input: Schema): (r: Result<Schema, Problem>)
    requires IsPlan(c)
    ensures r.Ok? <==> PlanField(c, input).Ok? && PlanField(c, input).value.t == BOOLEAN
    ensures r.Ok? ==> r.value == input
  {
    match PlanField(c, input)
    case Err(e) => Err(e)
    case Ok(f) => if f.t == BOOLEAN then Ok(input) else Err(NonBooleanCondition)
  }

  /** The key fields of a cogroup: for each input, the fields of its key
    * plans over that input's rows. */
  function KeyFields(gb: seq<seq<ExprPlan>>, ins: seq<Schema>): (r: Result<seq<seq<FieldSchema>>, Problem>)
    requires |gb| == |ins|
    requires forall k :: 0 <= k < |gb| ==> forall p :: 0 <= p < |gb[k]| ==> IsPlan(gb[k][p])
    ensures r.Ok? ==> |r.value| == |gb| && forall k :: 0 <= k < |gb| ==> PlanFields(gb[k], ins[k]) == Ok(r.value[k])
    ensures (forall k :: 0 <= k < |gb| ==> PlanFields(gb[k], ins[k]).Ok?) ==> r.Ok?
  {
    var rs := seq(|gb|, k requires 0 <= k < |gb| => PlanFields(gb[k], ins[k]));
    assert (forall k :: 0 <= k < |gb| ==> PlanFields(gb[k], ins[k]).Ok?) ==> forall k :: 0 <= k < |rs| ==> rs[k].Ok?;
    AllOk(rs)
  }

  /** Every input groups by the same number of key positions. */
  predicate Rectangular<T>(rows: seq<seq<T>>) {
    |rows| > 0 && |rows[0]| > 0 && forall k :: 0 <= k < |rows| ==> |rows[k]| == |rows[0]|
  }

  /** The type of key position `p` in every input. */
  function PositionTypes(fields: seq<seq<FieldSchema>>, p: nat): (ts: seq<Type>)
    requires forall k :: 0 <= k < |fields| ==> p < |fields[k]|
    ensures |ts| == |fields| && forall k :: 0 <= k < |fields| ==> ts[k] == fields[k][p].t
  {
    seq(|fields|, k requires 0 <= k < |fields| => fields[k][p].t)
  }

  /** The group key type of every key position. */
  function KeyTypes(fields: seq<seq<FieldSchema>>): (ts: seq<Type>)
    requires Rectangular(fields)
    ensures |ts| == |fields[0]|
    ensures forall p :: 0 <= p < |ts| ==> ts[p] == GroupKeyType(PositionTypes(fields, p))
  {
    seq(|fields[0]|, p requires 0 <= p < |fields[0]| => GroupKeyType(PositionTypes(fields, p)))
  }

  /** A cogroup: its key plans must type-check and every input must group
    * by the same number of positions. */
  function CogroupRule(gb: seq<seq<ExprPlan>>, ins: seq<Schema>): (r: Result<Schema, Problem>)
    requires |gb| == |ins|
    requires forall k :: 0 <= k < |gb| ==> forall p :: 0 <= p < |gb[k]| ==> IsPlan(gb[k][p])
    ensures r.Ok? <==> KeyFields(gb, ins).Ok? && Rectangular(KeyFields(gb, ins).value)
    ensures r.Ok? ==> r.value == CogroupSchema(KeyTypes(KeyFields(gb, ins).value), ins)
  {
    match KeyFields(gb, ins)
    case Err(e) => Err(e)
    case Ok(fields) =>
      if Rectangular(fields) then Ok(CogroupSchema(KeyTypes(fields), ins)) else Err(GroupKeyArityMismatch)
  }

  /** The output schema of one operator, given its inputs' schemas. */
  function RelRule(op: RelOp, ins: seq<Schema>): (r: Result<Schema, Problem>)
    requires OpWellFormed(op, |ins|)
    ensures r.Ok? && (op.Filter? || op.Distinct? || op.Sort? || op.Split? || op.SplitOutput?) ==> r.value == ins[0]
    ensures r.Ok? && op.Union? ==> SameWidth(ins) && r.value == UnionSchema(ins)
    ensures op.Union? && SameWidth(ins) ==> r.Ok?
  {
    match op
    case Load(s) => Ok(s)
    case Filter(c) => ConditionRule(c, ins[0])
    case Distinct => Ok(ins[0])
    case Sort(keys, _) =>
      (match PlanFields(keys, ins[0])
       case Err(e) => Err(e)
       case Ok(_) => Ok(ins[0]))
    case Split => Ok(ins[0])
    case SplitOutput(_, c) => ConditionRule(c, ins[0])
    case Union => if SameWidth(ins) then Ok(UnionSchema(ins)) else Err(UnionWidthMismatch)
    case Cogroup(gb, _) => CogroupRule(gb, ins)
    case ForEach(gen, fl) =>
      (match PlanFields(gen, ins[0])
       case Err(e) => Err(e)
       case Ok(leaves) => Ok(GenerateSchema(leaves, fl)))
    case Cross => Ok(CrossSchema(ins))
  }

  /** The output schema of operator `i`: its inputs first; the first input
    * that fails makes it fail. */
  function RelInfer(nodes: seq<RelNode>, i: nat): Result<Schema, Problem>
    requires RelWellFormed(nodes) && i < |nodes|
    decreases i
  {
    var n := nodes[i];
    match AllOk(seq(|n.inputs|, k requires 0 <= k < |n.inputs| => RelInfer(nodes, n.inputs[k])))
    case Err(e) => Err(e)
    case Ok(ins) => RelRule(n.op, ins)
  }

  /** With its inputs' schemas known, an operator's schema is given by its
    * own rule. */
  lemma RelInferStep(nodes: seq<RelNode>, i: nat, ins: seq<Schema>)
    requires RelWellFormed(nodes) && i < |nodes|
    requires |ins| == |nodes[i].inputs|
    requires forall k :: 0 <= k < |ins| ==> RelInfer(nodes, nodes[i].inputs[k]) == Ok(ins[k])
    ensures RelInfer(nodes, i) == RelRule(nodes[i].op, ins)
  {
    var n := nodes[i];
    var results := seq(|n.inputs|, k requires 0 <= k < |n.inputs| => RelInfer(nodes, n.inputs[k]));
    assert AllOk(results).value == ins;
  }

  /** An operator has a schema only when all its inputs have one; a filter,
    * distinct, sort, split or split branch passes its input's schema on. */
  lemma RelInferInputsFirst(nodes: seq<RelNode>, i: nat)
    requires RelWellFormed(nodes) && i < |nodes|
    ensures RelInfer(nodes, i).Ok? ==> forall k :: 0 <= k < |nodes[i].inputs| ==> RelInfer(nodes, nodes[i].inputs[k]).Ok?
    ensures var op := nodes[i].op;
      RelInfer(nodes, i).Ok? && (op.Filter? || op.Distinct? || op.Sort? || op.Split? || op.SplitOutput?) ==>
        RelInfer(nodes, i) == RelInfer(nodes, nodes[i].inputs[0])
  {
    var r := InputSchemas(nodes, i);
    if r.Ok? {
      assert OpWellFormed(nodes[i].op, |nodes[i].inputs|);
    }
  }

  /** Every operator's schema result, in plan order. */
  function Inferred(nodes: seq<RelNode>): (rs: seq<Result<Schema, Problem>>)
    requires RelWellFormed(nodes)
    ensures |rs| == |nodes| && forall i :: 0 <= i < |nodes| ==> rs[i] == RelInfer(nodes, i)
  {
    seq(|nodes|, i requires 0 <= i < |nodes| => RelInfer(nodes, i))
  }

  /** The schemas of operator `i`'s inputs, or the first problem among
    * them. */
  function InputSchemas(nodes: seq<RelNode>, i: nat): (r: Result<seq<Schema>, Problem>)
    requires RelWellFormed(nodes) && i < |nodes|
    ensures r.Ok? ==> |r.value| == |nodes[i].inputs|
    ensures r.Ok? ==> forall k :: 0 <= k < |nodes[i].inputs| ==> RelInfer(nodes, nodes[i].inputs[k]) == Ok(r.value[k])
    ensures r.Ok? ==> RelInfer(nodes, i) == RelRule(nodes[i].op, r.value)
    ensures r.Err? ==> RelInfer(nodes, i).Err?
  {
    AllOk(seq(|nodes[i].inputs|, k requires 0 <= k < |nodes[i].inputs| => RelInfer(nodes, nodes[i].inputs[k])))
  }

  /** The field every inner plan produces, read from its leaf. */
  function Leaves(plans: seq<ExprPlan>): (r: seq<FieldSchema>)
    requires forall k :: 0 <= k < |plans| ==> IsPlan(plans[k])
    ensures |r| == |plans| && forall k :: 0 <= k < |plans| ==> IsPlan(plans[k]) && r[k] == LeafField(plans[k])
  {
    seq(|plans|, k requires 0 <= k < |plans| && IsPlan(plans[k]) => LeafField(plans[k]))
  }

  /** A cogroup key plan after its leaf is brought to the group key type
    * `t`: unchanged when the leaf already has it, otherwise with a Cast
    * node (key `key`) over the old leaf appended as the new leaf. */
  function CastLeaf(q: ExprPlan, t: Type, key: nat): (r: ExprPlan)
    requires IsPlan(q)
    ensures IsPlan(r) && LeafField(r).t == t
    ensures LeafField(q).t == t ==> r == q
    ensures LeafField(q).t != t ==>
      |r.nodes| == |q.nodes| + 1 && r.nodes[..|q.nodes|] == q.nodes
      && r.nodes[|q.nodes|].op == Cast(Retype(LeafField(q), t)) && r.nodes[|q.nodes|].args == [|q.nodes| - 1]
  {
    var leaf := LeafField(q);
    if leaf.t == t then q
    else
      var r := ExprPlan(q.nodes + [ExprNode(key, Cast(Retype(leaf, t)), [|q.nodes| - 1], Retype(leaf, t))]);
      assert r.nodes[..|q.nodes|] == q.nodes;
      r
  }

  /** The results are all present exactly when every operator's schema is. */
  lemma InferredAllOk(nodes: seq<RelNode>)
    requires RelWellFormed(nodes)
    ensures var rs := Inferred(nodes);
      (forall i :: 0 <= i < |rs| ==> rs[i].Ok?) ==> (forall i :: 0 <= i < |nodes| ==> RelInfer(nodes, i).Ok?)
    ensures var rs := Inferred(nodes);
      (forall i :: 0 <= i < |nodes| ==> RelInfer(nodes, i).Ok?) ==> (forall i :: 0 <= i < |rs| ==> rs[i].Ok?)
  {
    var rs := Inferred(nodes);
    if forall i :: 0 <= i < |rs| ==> rs[i].Ok? {
      forall i | 0 <= i < |nodes| ensures RelInfer(nodes, i).Ok? {
        assert rs[i].Ok?;
      }
    }
    if forall i :: 0 <= i < |nodes| ==> RelInfer(nodes, i).Ok? {
      forall i | 0 <= i < |rs| ensures rs[i].Ok? {
        assert rs[i] == RelInfer(nodes, i);
      }
    }
  }

  /** Every operator's schema, or the problem of the first operator (in plan
    * order) that fails. */
  function PlanSchemas(nodes: seq<RelNode>): (r: Result<seq<Schema>, Problem>)
    requires RelWellFormed(nodes)
    ensures r.Ok? ==> forall i :: 0 <= i < |nodes| ==> RelInfer(nodes, i).Ok?
    ensures (forall i :: 0 <= i < |nodes| ==> RelInfer(nodes, i).Ok?) ==> r.Ok?
    ensures r.Ok? ==> |r.value| == |nodes| && forall i :: 0 <= i < |nodes| ==> RelInfer(nodes, i) == Ok(r.value[i])
    ensures r.Err? ==>
      exists i :: 0 <= i < |nodes| && RelInfer(nodes, i) == Err(r.error) && forall j :: 0 <= j < i ==> RelInfer(nodes, j).Ok?
  {
    var rs := Inferred(nodes);
    InferredAllOk(nodes);
    if AllOk(rs).Err? then AllOkFirstError(rs); AllOk(rs) else AllOk(rs)
  }

  /** The plan a union input is read through when some of its columns must
    * be cast: column `c` is projected, then cast to the union's type of
    * that column when the two differ (and the union's type is known). */
  function CastingColumn(c: nat, inField: FieldSchema, outField: FieldSchema, key: nat): (p: ExprPlan)
    ensures IsPlan(p)
    ensures p.nodes[0] == ExprNode(key, Project([c]), [], inField)
    ensures UnionCast(inField, outField).None? ==> |p.nodes| == 1
    ensures UnionCast(inField, outField).Some? ==>
      |p.nodes| == 2 && p.nodes[1].op == Cast(Retype(inField, outField.t)) && p.nodes[1].args == [0]
      && LeafField(p).t == outField.t
  {
    var project := ExprNode(key, Project([c]), [], inField);
    match UnionCast(inField, outField)
    case None => ExprPlan([project])
    case Some(t) => ExprPlan([project, ExprNode(key + 1, Cast(Retype(inField, t)), [0], Retype(inField, t))])
  }

  /** The schema a casting foreach in front of a union produces. */
  function WrappedSchema(from: Schema, to: Schema): (r: Schema)
    requires |from| == |to|
    ensures |r| == |from|
    ensures forall c :: 0 <= c < |from| ==> r[c] == (if UnionCast(from[c], to[c]).Some? then Retype(from[c], to[c].t) else from[c])
  {
    seq(|from|, c requires 0 <= c < |from| => if UnionCast(from[c], to[c]).Some? then Retype(from[c], to[c].t) else from[c])
  }

  /** The foreach inserted between the union input at position `input`
    * (schema `from`) and a union whose schema is `to`: one casting column
    * per input column, nothing flattened. Keys are drawn from `key` on. */
  function UnionWrapper(key: nat, input: nat, from: Schema, to: Schema): (w: RelNode)
    requires |from| == |to|
    ensures w.key == key && w.inputs == [input] && w.schema == Some(WrappedSchema(from, to))
    ensures OpWellFormed(w.op, 1)
    ensures w.op.ForEach? && |w.op.generate| == |from|
  {
    var plans := seq(|from|, c requires 0 <= c < |from| => CastingColumn(c, from[c], to[c], key + 1 + 2 * c));
    RelNode(key, ForEach(plans, seq(|from|, c => false)), [input], Some(WrappedSchema(from, to)))
  }

  /** Behind its casting foreach, every column of a union input has the
    * union's type, except the columns the union could not type. */
  lemma WrappedColumnsHaveUnionTypes(inputs: seq<Schema>, k: nat, c: nat)
    requires SameWidth(inputs) && k < |inputs| && c < |inputs[0]|
    ensures var out := UnionSchema(inputs);
      out[c].t != UNKNOWN ==> WrappedSchema(inputs[k], out)[c].t == out[c].t
    ensures var out := UnionSchema(inputs);
      out[c].t == UNKNOWN ==> WrappedSchema(inputs[k], out)[c] == inputs[k][c]
  {
  }

  /** Column `c` of an input's casting foreach is the casting plan of input
    * column `c`, not flattened. */
  lemma UnionWrapperColumns(key: nat, input: nat, from: Schema, to: Schema)
    requires |from| == |to|
    ensures var w := UnionWrapper(key, input, from, to);
      forall c :: 0 <= c < |from| ==> w.op.generate[c] == CastingColumn(c, from[c], to[c], key + 1 + 2 * c) && !w.op.flatten[c]
  {
  }

  /** In front of a union, an input's casting foreach type-checks and
    * produces exactly the schema it is annotated with: every column is
    * projected, and cast to the union's type where the two differ. */
  lemma UnionWrapperTypes(inputs: seq<Schema>, k: nat, key: nat, input: nat)
    requires SameWidth(inputs) && k < |inputs|
    ensures var out := UnionSchema(inputs);
      RelRule(UnionWrapper(key, input, inputs[k], out).op, [inputs[k]]) == Ok(WrappedSchema(inputs[k], out))
  {
    var out := UnionSchema(inputs);
    var w := UnionWrapper(key, input, inputs[k], out);
    var leaves := WrappedSchema(inputs[k], out);
    UnionWrapperFields(inputs, k, key, input);
    UnionWrapperColumns(key, input, inputs[k], out);
    assert RelRule(w.op, [inputs[k]]) == Ok(GenerateSchema(leaves, w.op.flatten));
    GenerateWithoutFlatten(leaves, w.op.flatten);
  }

  /** Every casting plan of an input's foreach yields the column it is
    * annotated with. */
  lemma UnionWrapperFields(inputs: seq<Schema>, k: nat, key: nat, input: nat)
    requires SameWidth(inputs) && k < |inputs|
    ensures var out := UnionSchema(inputs);
      var w := UnionWrapper(key, input, inputs[k], out);
      PlanFields(w.op.generate, inputs[k]) == Ok(WrappedSchema(inputs[k], out))
  {
    var out := UnionSchema(inputs);
    var from := inputs[k];
    var plans := UnionWrapper(key, input, from, out).op.generate;
    forall c | 0 <= c < |from|
      ensures PlanField(plans[c], from) == Ok(WrappedSchema(from, out)[c])
    {
      WrapperColumnField(inputs, k, key, input, c);
    }
    PlanFieldsOk(plans, from, WrappedSchema(from, out));
  }

  /** Column `c` of an input's casting foreach yields the column it is
    * annotated with. */
  lemma WrapperColumnField(inputs: seq<Schema>, k: nat, key: nat, input: nat, c: nat)
    requires SameWidth(inputs) && k < |inputs| && c < |inputs[k]|
    ensures var out := UnionSchema(inputs);
      var w := UnionWrapper(key, input, inputs[k], out);
      IsPlan(w.op.generate[c]) && PlanField(w.op.generate[c], inputs[k]) == Ok(WrappedSchema(inputs[k], out)[c])
  {
    var out := UnionSchema(inputs);
    UnionWrapperColumns(key, input, inputs[k], out);
    CastingColumnTypes(inputs, k, c, key + 1 + 2 * c);
  }

  /** The casting plan of one union input column yields that column with
    * the union's type (or unchanged when no cast is needed). */
  lemma CastingColumnTypes(inputs: seq<Schema>, k: nat, c: nat, key: nat)
    requires SameWidth(inputs) && k < |inputs| && c < |inputs[0]|
    ensures var out := UnionSchema(inputs);
      PlanField(CastingColumn(c, inputs[k][c], out[c], key), inputs[k]) == Ok(WrappedSchema(inputs[k], out)[c])
  {
    var out := UnionSchema(inputs);
    var from := inputs[k];
    var p := CastingColumn(c, from[c], out[c], key);
    assert ProjectField(Row(from), [c]) == Some(from[c]);
    assert Typed(p.nodes, 0, from) == Ok(Typing(from[c], []));
    if UnionCast(from[c], out[c]).Some? {
      var ts := Types(ColumnOf(inputs, c));
      assert forall j :: 0 <= j < |inputs| ==> ts[j] == inputs[j][c].t;
      FoldMergeKnown(ts);
      UnionCastsAreLegal(inputs, k, c);
      assert Castable(from[c], Retype(from[c], out[c].t));
      assert Typed(p.nodes, 1, from) == Ok(Typing(Retype(from[c], out[c].t), [None]));
    }
  }
}
