/** The type-checking validator of a logical plan. The plan object holds its
  * operators in an arena in which every operator's inputs come before it.
  * Validation rebuilds the arena operator by operator, inputs first: every
  * operator is copied with its inner plans type-checked (implicit casts
  * inserted) and its output schema set; a union input whose columns must
  * be cast is read through a new casting foreach; cogroup key plans get a
  * trailing cast to the group key type. The rebuilt arena replaces the old
  * one once every operator has been checked. The first operator that does
  * not type-check stops validation with an ERROR message collected. */
module TypeCheckingValidator {
  import opened Wrappers
  import opened DataTypes
  import opened Schemas
  import opened Diagnostics
  import opened ExpressionPlans
  import opened ExpressionChecker
  import opened LogicalPlans

  /** Every operator carries its output schema. */
  predicate Annotated(nodes: seq<RelNode>) {
    forall x :: 0 <= x < |nodes| ==> nodes[x].schema.Some?
  }

  /** `qs` are the inner plans `plans`, each checked against rows of
    * schema `input`. */
  ghost predicate PlansChecked(plans: seq<ExprPlan>, input: Schema, qs: seq<ExprPlan>) {
    |qs| == |plans| && forall k :: 0 <= k < |plans| ==> IsCheckOf(plans[k], input, qs[k])
  }

  /** The leaves of every row of checked key plans. */
  function KeyLeaves(qs: seq<seq<ExprPlan>>): (r: seq<seq<FieldSchema>>)
    requires forall k :: 0 <= k < |qs| ==> forall p :: 0 <= p < |qs[k]| ==> IsPlan(qs[k][p])
    ensures |r| == |qs| && forall k :: 0 <= k < |qs| ==> r[k] == Leaves(qs[k])
  {
    seq(|qs|, k requires 0 <= k < |qs| => Leaves(qs[k]))
  }

  /** `final` is the checked key plan `q` with its leaf brought to type `t`. */
  ghost predicate CastsLeaf(q: ExprPlan, final: ExprPlan, t: Type) {
    IsPlan(q) && exists key: nat :: final == CastLeaf(q, t, key)
  }

  /** A cogroup key plan `orig` ended up as `final`: checked against the
    * rows of its input, then its leaf brought to the group key type `t`. */
  ghost predicate KeyRewrote(orig: ExprPlan, input: Schema, final: ExprPlan, t: Type) {
    exists checked: ExprPlan :: IsCheckOf(orig, input, checked) && CastsLeaf(checked, final, t)
  }

  /** `op'` is operator `op` with its inner plans checked against the rows of
    * its inputs `ins`; operators without inner plans are kept as they are. */
  ghost predicate CheckedOp(op: RelOp, op': RelOp, ins: seq<Schema>) {
    OpWellFormed(op, |ins|) &&
    match op
    case Filter(c) => op'.Filter? && IsCheckOf(c, ins[0], op'.cond)
    case SplitOutput(index, c) => op'.SplitOutput? && op'.index == index && IsCheckOf(c, ins[0], op'.cond)
    case Sort(keys, asc) => op'.Sort? && op'.ascending == asc && PlansChecked(keys, ins[0], op'.keys)
    case ForEach(gen, fl) => op'.ForEach? && op'.flatten == fl && PlansChecked(gen, ins[0], op'.generate)
    case Cogroup(gb, inner) =>
      op'.Cogroup? && op'.isInner == inner && |op'.groupBy| == |gb|
      && KeyFields(gb, ins).Ok? && Rectangular(KeyFields(gb, ins).value)
      && var types := KeyTypes(KeyFields(gb, ins).value);
      forall k :: 0 <= k < |gb| ==>
        |op'.groupBy[k]| == |gb[k]| == |types| &&
        forall p :: 0 <= p < |gb[k]| ==> KeyRewrote(gb[k][p], ins[k], op'.groupBy[k][p], types[p])
    case Load(_) | Distinct | Split | Union | Cross => op' == op
  }

  /** The rebuilt operator reads input `k` (rebuilt at position `orig`)
    * through position `a`: through a casting foreach when it is a union
    * input that needs casts, directly otherwise. */
  ghost predicate InputWired(out: seq<RelNode>, a: nat, orig: nat, op: RelOp, ins: seq<Schema>, k: nat) {
    a < |out| && orig < |out| &&
    if Wraps(op, ins, k)
    then exists key: nat :: out[a] == UnionWrapper(key, orig, ins[k], UnionSchema(ins))
    else a == orig
  }

  /** Input `k` of operator `op`, whose inputs have schemas `ins`, is read
    * through a casting foreach: `op` is a union and that input has a column
    * whose type differs from the union's. */
  predicate Wraps(op: RelOp, ins: seq<Schema>, k: nat) {
    op.Union? && SameWidth(ins) && k < |ins| && NeedsUnionCasts(ins[k], UnionSchema(ins))
  }

  /** Operator `i` of the original plan sits at position `pos[i]` of the
    * rebuilt one, with its key, its inner plans checked, the schema
    * `RelInfer` gives it, and each input wired. */
  ghost predicate RelRewrote(nodes: seq<RelNode>, out: seq<RelNode>, pos: seq<nat>, i: nat) {
    RelWellFormed(nodes) && i < |nodes| && i < |pos| && pos[i] < |out| &&
    InputSchemas(nodes, i).Ok? && RelInfer(nodes, i).Ok? &&
    var n := nodes[i];
    var m := out[pos[i]];
    var ins := InputSchemas(nodes, i).value;
    m.key == n.key && m.schema == Some(RelInfer(nodes, i).value) && |m.inputs| == |n.inputs| &&
    CheckedOp(n.op, m.op, ins) &&
    forall k :: 0 <= k < |n.inputs| ==> n.inputs[k] < |pos| && InputWired(out, m.inputs[k], pos[n.inputs[k]], n.op, ins, k)
  }

  /** Where the stretch of the rebuilt plan that belongs to original
    * operator `i` begins: just after the rebuilt operator `i - 1`. */
  function Start(pos: seq<nat>, i: nat): nat
    requires i < |pos|
  {
    if i == 0 then 0 else pos[i - 1] + 1
  }

  /** The rebuilt plan is laid out as one stretch per original operator, in
    * order: the stretch ends with the rebuilt operator at `pos[i]`, and every
    * position before it in the stretch is read by that operator. The plan
    * holds nothing else. */
  ghost predicate Laid(res: seq<RelNode>, pos: seq<nat>) {
    Ordered(res, pos) &&
    forall i :: 0 <= i < |pos| && pos[i] < |res| ==>
      forall x :: Start(pos, i) <= x < pos[i] ==> x in res[pos[i]].inputs
  }

  /** The stretches follow one another and the last one ends the plan. */
  ghost predicate Ordered(res: seq<RelNode>, pos: seq<nat>) {
    (if |pos| == 0 then |res| == 0 else pos[|pos| - 1] == |res| - 1) &&
    forall i {:trigger Start(pos, i)} :: 0 <= i < |pos| ==> Start(pos, i) <= pos[i] < |res|
  }

  /** The rebuilt operator `i` reads an input from its own stretch of the
    * rebuilt plan exactly when it reads that input through a casting
    * foreach, and no two such inputs share a foreach; every other input is
    * read where it was rebuilt. */
  ghost predicate Stretched(nodes: seq<RelNode>, res: seq<RelNode>, pos: seq<nat>, i: nat) {
    RelWellFormed(nodes) && i < |nodes| && i < |pos| && pos[i] < |res| &&
    InputSchemas(nodes, i).Ok? && |res[pos[i]].inputs| == |nodes[i].inputs| &&
    (forall k :: 0 <= k < |nodes[i].inputs| ==>
      (Start(pos, i) <= res[pos[i]].inputs[k] <==> Wraps(nodes[i].op, InputSchemas(nodes, i).value, k))) &&
    OwnWrappers(nodes[i].op, InputSchemas(nodes, i).value, res[pos[i]].inputs)
  }

  /** No two inputs an operator reads through a casting foreach are read
    * through the same one. */
  predicate OwnWrappers(op: RelOp, ins: seq<Schema>, args: seq<nat>) {
    forall k1, k2 :: 0 <= k1 < k2 < |args| && Wraps(op, ins, k1) && Wraps(op, ins, k2) ==> args[k1] != args[k2]
  }

  /** Original operator `i` was rebuilt at `pos[i]` of `res`, in its own
    * stretch of the layout. */
  ghost predicate ValidatedAt(orig: seq<RelNode>, res: seq<RelNode>, pos: seq<nat>) {
    |pos| == |orig| && Laid(res, pos) &&
    forall i :: 0 <= i < |orig| ==> RelRewrote(orig, res, pos, i) && Stretched(orig, res, pos, i)
  }

  /** `res` is what validating `orig` produces: a well-formed plan in which
    * every operator has a schema, every original operator was rebuilt, and
    * nothing else was added but the casting foreaches the rebuilt unions
    * read. */
  ghost predicate IsValidationOf(orig: seq<RelNode>, res: seq<RelNode>) {
    RelWellFormed(orig) && RelWellFormed(res) && Annotated(res) &&
    exists pos: seq<nat> :: ValidatedAt(orig, res, pos)
  }

  /** The positions of the set flags. */
  function SetFlags(flags: seq<bool>): set<nat> {
    set j: nat | j < |flags| && flags[j]
  }

  /** One WARN message per set flag, in order. */
  function Warnings(flags: seq<bool>, event: Event): (ms: seq<Message>)
    ensures |ms| <= |flags|
    ensures |ms| == |SetFlags(flags)|
    ensures forall j :: 0 <= j < |ms| ==> ms[j] == Message(Warning, event)
    ensures (exists j :: 0 <= j < |flags| && flags[j]) ==> |ms| > 0
  {
    if |flags| == 0 then []
    else
      var n := |flags| - 1;
      assert SetFlags(flags) == SetFlags(flags[..n]) + (if flags[n] then {n} else {});
      Warnings(flags[..n], event) + (if flags[n] then [Message(Warning, event)] else [])
  }

  /** Checked plans are plans. */
  lemma CheckedArePlans(plans: seq<ExprPlan>, input: Schema, qs: seq<ExprPlan>)
    requires PlansChecked(plans, input, qs)
    ensures forall k :: 0 <= k < |qs| ==> IsPlan(qs[k])
  {
    forall k | 0 <= k < |qs|
      ensures IsPlan(qs[k])
    {
      assert IsCheckOf(plans[k], input, qs[k]);
    }
  }

  /** Input wiring survives appending to the rebuilt plan. */
  lemma InputWiredGrows(out: seq<RelNode>, out': seq<RelNode>, a: nat, orig: nat, op: RelOp, ins: seq<Schema>, k: nat)
    requires InputWired(out, a, orig, op, ins, k)
    requires |out| <= |out'| && out'[..|out|] == out
    ensures InputWired(out', a, orig, op, ins, k)
  {
    assert out'[a] == out[a];
  }

  /** Rebuilding facts survive appending to the rebuilt plan. */
  lemma RelRewroteGrows(nodes: seq<RelNode>, out: seq<RelNode>, out': seq<RelNode>,
                        pos: seq<nat>, pos': seq<nat>, i: nat)
    requires RelRewrote(nodes, out, pos, i)
    requires |out| <= |out'| && out'[..|out|] == out
    requires |pos| <= |pos'| && pos'[..|pos|] == pos
    ensures RelRewrote(nodes, out', pos', i)
  {
    var n := nodes[i];
    assert pos'[i] == pos[i];
    assert out'[pos[i]] == out[pos[i]];
    var m := out[pos[i]];
    var ins := InputSchemas(nodes, i).value;
    forall k | 0 <= k < |n.inputs|
      ensures n.inputs[k] < |pos'| && InputWired(out', m.inputs[k], pos'[n.inputs[k]], n.op, ins, k)
    {
      assert pos'[n.inputs[k]] == pos[n.inputs[k]];
      InputWiredGrows(out, out', m.inputs[k], pos[n.inputs[k]], n.op, ins, k);
    }
  }

  /** With its inputs rebuilt, operator `i`'s input schemas are the schemas
    * its inputs carry in the rebuilt plan. */
  lemma InputsFromRewritten(nodes: seq<RelNode>, out: seq<RelNode>, pos: seq<nat>, i: nat, ins: seq<Schema>)
    requires RelWellFormed(nodes) && i < |nodes| && |pos| == i
    requires forall j :: 0 <= j < i ==> RelRewrote(nodes, out, pos, j)
    requires |ins| == |nodes[i].inputs|
    requires forall k :: 0 <= k < |ins| ==> pos[nodes[i].inputs[k]] < |out| && out[pos[nodes[i].inputs[k]]].schema == Some(ins[k])
    ensures InputSchemas(nodes, i) == Ok(ins)
    ensures RelInfer(nodes, i) == RelRule(nodes[i].op, ins)
  {
    var n := nodes[i];
    forall k | 0 <= k < |ins|
      ensures RelInfer(nodes, n.inputs[k]) == Ok(ins[k])
    {
      assert RelRewrote(nodes, out, pos, n.inputs[k]);
    }
    var rs := seq(|n.inputs|, k requires 0 <= k < |n.inputs| => RelInfer(nodes, n.inputs[k]));
    assert forall k :: 0 <= k < |rs| ==> rs[k].Ok?;
    assert AllOk(rs).value == ins;
  }

  /** Appending operator `i`, rebuilt as `m` after its inputs were wired,
    * keeps every earlier operator rebuilt and rebuilds operator `i`. */
  lemma RelRewriteStep(nodes: seq<RelNode>, out: seq<RelNode>, pos: seq<nat>, wired: seq<RelNode>,
                       m: RelNode, ins: seq<Schema>, i: nat)
    requires RelWellFormed(nodes) && i < |nodes| && |pos| == i
    requires forall j :: 0 <= j < i ==> RelRewrote(nodes, out, pos, j)
    requires |out| <= |wired| && wired[..|out|] == out
    requires InputSchemas(nodes, i) == Ok(ins) && RelInfer(nodes, i).Ok?
    requires m.key == nodes[i].key && m.schema == Some(RelInfer(nodes, i).value)
    requires |m.inputs| == |nodes[i].inputs| && CheckedOp(nodes[i].op, m.op, ins)
    requires forall k :: 0 <= k < |m.inputs| ==>
      nodes[i].inputs[k] < i && InputWired(wired, m.inputs[k], pos[nodes[i].inputs[k]], nodes[i].op, ins, k)
    ensures forall j :: 0 <= j <= i ==> RelRewrote(nodes, wired + [m], pos + [|wired|], j)
  {
    var n := nodes[i];
    var out' := wired + [m];
    var pos' := pos + [|wired|];
    assert out'[..|out|] == out;
    assert out'[..|wired|] == wired;
    assert pos'[..|pos|] == pos;
    forall j | 0 <= j < i
      ensures RelRewrote(nodes, out', pos', j)
    {
      RelRewroteGrows(nodes, out, out', pos, pos', j);
    }
    forall k | 0 <= k < |n.inputs|
      ensures InputWired(out', m.inputs[k], pos'[n.inputs[k]], n.op, ins, k)
    {
      assert pos'[n.inputs[k]] == pos[n.inputs[k]];
      InputWiredGrows(wired, out', m.inputs[k], pos[n.inputs[k]], n.op, ins, k);
    }
    assert out'[pos'[i]] == m;
    assert RelRewrote(nodes, out', pos', i);
  }

  /** Collects one WARN message with `event` for every set flag. */
  method WarnEach(flags: seq<bool>, event: Event, collector: MessageCollector)
    modifies collector
    ensures collector.messages == old(collector.messages) + Warnings(flags, event)
    ensures collector.HasError() <==> old(collector.HasError())
  {
    ghost var log0 := collector.messages;
    ghost var hadError := collector.HasError();
    var j := 0;
    while j < |flags|
      invariant 0 <= j <= |flags|
      invariant collector.messages == log0 + Warnings(flags[..j], event)
      invariant collector.HasError() <==> hadError
    {
      assert flags[..j + 1][..j] == flags[..j];
      if flags[j] {
        collector.Collect(Warning, event);
      }
      j := j + 1;
    }
    assert flags[..j] == flags;
  }

  /** The field a checked plan's leaf carries is the one its original
    * produces. */
  lemma PlanFieldOfCheck(p: ExprPlan, input: Schema, q: ExprPlan)
    requires IsCheckOf(p, input, q)
    ensures PlanField(p, input) == Ok(LeafField(q))
  {
    CheckedLeaf(p, input, q);
    var pos :| RewroteAll(p.nodes, input, q.nodes, pos) && pos[|p.nodes| - 1] == |q.nodes| - 1;
    forall i | 0 <= i < |p.nodes|
      ensures Typed(p.nodes, i, input).Ok?
    {
      assert Rewrote(p.nodes, input, q.nodes, pos, i);
    }
  }

  /** Validates one inner plan over rows of schema `input`: the checked
    * plan, or the first problem in it with an ERROR message collected. */
  method CheckInnerPlan(p: ExprPlan, input: Schema, collector: MessageCollector, firstKey: nat)
    returns (r: Result<ExprPlan, Problem>, nextKey: nat)
    requires IsPlan(p)
    modifies collector
    ensures r.Ok? ==> IsCheckOf(p, input, r.value) && PlanField(p, input) == Ok(LeafField(r.value))
    ensures r.Err? ==> PlanField(p, input).Err?
    ensures nextKey >= firstKey
    ensures Extends(old(collector.messages), collector.messages)
    ensures r.Ok? ==> (collector.HasError() <==> old(collector.HasError()))
    ensures r.Err? ==> collector.HasError()
  {
    r, nextKey := CheckExpressionPlan(p, input, collector, firstKey);
    if r.Ok? {
      PlanFieldOfCheck(p, input, r.value);
    }
  }

  /** Checks a filter or split condition: it must type-check and be
    * boolean, otherwise an ERROR message is collected. */
  method CheckCondition(c: ExprPlan, input: Schema, collector: MessageCollector, firstKey: nat)
    returns (r: Result<ExprPlan, Problem>, nextKey: nat)
    requires IsPlan(c)
    modifies collector
    ensures r.Ok? ==> ConditionRule(c, input) == Ok(input) && IsCheckOf(c, input, r.value)
    ensures r.Err? ==> ConditionRule(c, input).Err?
    ensures nextKey >= firstKey
    ensures Extends(old(collector.messages), collector.messages)
    ensures r.Ok? ==> (collector.HasError() <==> old(collector.HasError()))
    ensures r.Err? ==> collector.HasError()
  {
    var checked;
    checked, nextKey := CheckInnerPlan(c, input, collector, firstKey);
    if checked.Err? {
      return Err(checked.error), nextKey;
    }
    var q := checked.value;
    if LeafField(q).t != BOOLEAN {
      ghost var log1 := collector.messages;
      collector.Collect(Error, Failed(NonBooleanCondition));
      ExtendsTransitive(old(collector.messages), log1, collector.messages);
      return Err(NonBooleanCondition), nextKey;
    }
    r := Ok(q);
  }

  /** The leaves of checked plans carry the fields the original plans
    * produce. */
  lemma PlansCheckedFields(plans: seq<ExprPlan>, input: Schema, qs: seq<ExprPlan>)
    requires PlansChecked(plans, input, qs)
    ensures forall k :: 0 <= k < |plans| ==> IsPlan(plans[k])
    ensures forall k :: 0 <= k < |qs| ==> IsPlan(qs[k])
    ensures PlanFields(plans, input) == Ok(Leaves(qs))
  {
    forall k | 0 <= k < |plans|
      ensures IsPlan(plans[k]) && IsPlan(qs[k]) && PlanField(plans[k], input) == Ok(LeafField(qs[k]))
    {
      PlanFieldOfCheck(plans[k], input, qs[k]);
    }
    assert PlanFields(plans, input).Ok?;
    assert PlanFields(plans, input).value == Leaves(qs);
  }

  /** Checks several inner plans over the same rows, stopping at the first
    * that does not type-check. */
  method CheckPlans(plans: seq<ExprPlan>, input: Schema, collector: MessageCollector, firstKey: nat)
    returns (r: Result<seq<ExprPlan>, Problem>, nextKey: nat)
    requires forall k :: 0 <= k < |plans| ==> IsPlan(plans[k])
    modifies collector
    ensures r.Ok? ==> PlansChecked(plans, input, r.value)
    ensures r.Err? ==> PlanFields(plans, input).Err?
    ensures nextKey >= firstKey
    ensures Extends(old(collector.messages), collector.messages)
    ensures r.Ok? ==> (collector.HasError() <==> old(collector.HasError()))
    ensures r.Err? ==> collector.HasError()
  {
    ghost var log0 := collector.messages;
    ghost var hadError := collector.HasError();
    var checked: seq<ExprPlan> := [];
    nextKey := firstKey;
    var k := 0;
    while k < |plans|
      invariant 0 <= k <= |plans| && |checked| == k
      invariant forall j :: 0 <= j < k ==> IsCheckOf(plans[j], input, checked[j])
      invariant nextKey >= firstKey
      invariant Extends(log0, collector.messages)
      invariant collector.HasError() <==> hadError
    {
      ghost var log1 := collector.messages;
      var q;
      q, nextKey := CheckInnerPlan(plans[k], input, collector, nextKey);
      ExtendsTransitive(log0, log1, collector.messages);
      if q.Err? {
        PlanFieldsFail(plans, input, k);
        return Err(q.error), nextKey;
      }
      checked := checked + [q.value];
      k := k + 1;
    }
    r := Ok(checked);
  }

  /** Checks the key plans of every cogroup input against that input's rows,
    * stopping at the first that does not type-check. */
  method CheckGroupKeys(gb: seq<seq<ExprPlan>>, ins: seq<Schema>, collector: MessageCollector, firstKey: nat)
    returns (r: Result<seq<seq<ExprPlan>>, Problem>, nextKey: nat)
    requires |gb| == |ins|
    requires forall k :: 0 <= k < |gb| ==> forall p :: 0 <= p < |gb[k]| ==> IsPlan(gb[k][p])
    modifies collector
    ensures r.Ok? ==> |r.value| == |gb| && forall k :: 0 <= k < |gb| ==> PlansChecked(gb[k], ins[k], r.value[k])
    ensures r.Err? ==> KeyFields(gb, ins).Err?
    ensures nextKey >= firstKey
    ensures Extends(old(collector.messages), collector.messages)
    ensures r.Ok? ==> (collector.HasError() <==> old(collector.HasError()))
    ensures r.Err? ==> collector.HasError()
  {
    ghost var log0 := collector.messages;
    ghost var hadError := collector.HasError();
    var checked: seq<seq<ExprPlan>> := [];
    nextKey := firstKey;
    var k := 0;
    while k < |gb|
      invariant 0 <= k <= |gb| && |checked| == k
      invariant forall j :: 0 <= j < k ==> PlansChecked(gb[j], ins[j], checked[j])
      invariant nextKey >= firstKey
      invariant Extends(log0, collector.messages)
      invariant collector.HasError() <==> hadError
    {
      ghost var log1 := collector.messages;
      var qs;
      qs, nextKey := CheckPlans(gb[k], ins[k], collector, nextKey);
      ExtendsTransitive(log0, log1, collector.messages);
      if qs.Err? {
        return Err(qs.error), nextKey;
      }
      ghost var prev := checked;
      checked := checked + [qs.value];
      forall j | 0 <= j <= k
        ensures PlansChecked(gb[j], ins[j], checked[j])
      {
        if j < k {
          assert checked[j] == prev[j];
        }
      }
      k := k + 1;
    }
    r := Ok(checked);
  }

  /** The key fields of a cogroup are the leaves of its checked key plans. */
  lemma GroupKeysFields(gb: seq<seq<ExprPlan>>, ins: seq<Schema>, qs: seq<seq<ExprPlan>>)
    requires |gb| == |ins| == |qs|
    requires forall k :: 0 <= k < |gb| ==> PlansChecked(gb[k], ins[k], qs[k])
    ensures forall k :: 0 <= k < |gb| ==> forall p :: 0 <= p < |gb[k]| ==> IsPlan(gb[k][p])
    ensures forall k :: 0 <= k < |qs| ==> forall p :: 0 <= p < |qs[k]| ==> IsPlan(qs[k][p])
    ensures KeyFields(gb, ins) == Ok(KeyLeaves(qs))
  {
    forall k | 0 <= k < |gb|
      ensures (forall p :: 0 <= p < |gb[k]| ==> IsPlan(gb[k][p])) && (forall p :: 0 <= p < |qs[k]| ==> IsPlan(qs[k][p]))
      ensures PlanFields(gb[k], ins[k]) == Ok(Leaves(qs[k]))
    {
      PlansCheckedFields(gb[k], ins[k], qs[k]);
    }
    assert KeyFields(gb, ins).Ok?;
    assert KeyFields(gb, ins).value == KeyLeaves(qs);
  }

  /** Checked key plans are plans, as many per input as it has key plans. */
  lemma CheckedKeysArePlans(gb: seq<seq<ExprPlan>>, ins: seq<Schema>, qs: seq<seq<ExprPlan>>)
    requires |gb| == |ins| == |qs|
    requires forall k :: 0 <= k < |gb| ==> PlansChecked(gb[k], ins[k], qs[k])
    ensures forall k :: 0 <= k < |qs| ==> |qs[k]| == |gb[k]| && forall p :: 0 <= p < |qs[k]| ==> IsPlan(qs[k][p])
  {
    forall k | 0 <= k < |qs|
      ensures |qs[k]| == |gb[k]| && forall p :: 0 <= p < |qs[k]| ==> IsPlan(qs[k][p])
    {
      CheckedArePlans(gb[k], ins[k], qs[k]);
    }
  }

  /** Inputs that group by different numbers of positions fail the cogroup
    * rule. */
  lemma CogroupArityFails(gb: seq<seq<ExprPlan>>, inner: seq<bool>, ins: seq<Schema>, qs: seq<seq<ExprPlan>>)
    requires OpWellFormed(Cogroup(gb, inner), |ins|) && |qs| == |gb|
    requires forall k :: 0 <= k < |gb| ==> PlansChecked(gb[k], ins[k], qs[k])
    requires forall k :: 0 <= k < |qs| ==> forall p :: 0 <= p < |qs[k]| ==> IsPlan(qs[k][p])
    requires !Rectangular(KeyLeaves(qs))
    ensures RelRule(Cogroup(gb, inner), ins).Err?
  {
    GroupKeysFields(gb, ins, qs);
  }

  /** Checked key plans whose leaves were then cast are rewritten key
    * plans. */
  lemma KeysRewroteFromCasts(gb: seq<seq<ExprPlan>>, ins: seq<Schema>, qs: seq<seq<ExprPlan>>,
                             types: seq<Type>, final: seq<seq<ExprPlan>>)
    requires |gb| == |ins| == |qs| == |final|
    requires forall k :: 0 <= k < |gb| ==> PlansChecked(gb[k], ins[k], qs[k])
    requires forall k :: 0 <= k < |qs| ==>
      |qs[k]| == |final[k]| == |types| && forall p :: 0 <= p < |types| ==> CastsLeaf(qs[k][p], final[k][p], types[p])
    ensures forall k :: 0 <= k < |gb| ==>
      |final[k]| == |gb[k]| == |types| &&
      forall p :: 0 <= p < |gb[k]| ==> KeyRewrote(gb[k][p], ins[k], final[k][p], types[p])
  {
    forall k | 0 <= k < |gb|
      ensures |final[k]| == |gb[k]| == |types|
      ensures forall p :: 0 <= p < |gb[k]| ==> KeyRewrote(gb[k][p], ins[k], final[k][p], types[p])
    {
      assert PlansChecked(gb[k], ins[k], qs[k]);
      forall p | 0 <= p < |gb[k]|
        ensures KeyRewrote(gb[k][p], ins[k], final[k][p], types[p])
      {
        assert IsCheckOf(gb[k][p], ins[k], qs[k][p]) && CastsLeaf(qs[k][p], final[k][p], types[p]);
      }
    }
  }

  /** Key plans cast to the group key types make a well-formed cogroup. */
  lemma CastKeysWellFormed(final: seq<seq<ExprPlan>>, inner: seq<bool>, ins: seq<Schema>, types: seq<Type>)
    requires |final| == |inner| == |ins| > 0 && |types| > 0
    requires forall k :: 0 <= k < |final| ==> |final[k]| == |types| && forall p :: 0 <= p < |types| ==> IsPlan(final[k][p])
    ensures OpWellFormed(Cogroup(final, inner), |ins|)
  {
  }

  /** Key plans checked and then cast to the group key types make a
    * checked cogroup with the schema the cogroup rule gives. */
  lemma CogroupChecked(gb: seq<seq<ExprPlan>>, inner: seq<bool>, ins: seq<Schema>, qs: seq<seq<ExprPlan>>,
                       types: seq<Type>, final: seq<seq<ExprPlan>>)
    requires OpWellFormed(Cogroup(gb, inner), |ins|) && |qs| == |gb|
    requires forall k :: 0 <= k < |gb| ==> PlansChecked(gb[k], ins[k], qs[k])
    requires forall k :: 0 <= k < |qs| ==> forall p :: 0 <= p < |qs[k]| ==> IsPlan(qs[k][p])
    requires Rectangular(KeyLeaves(qs)) && types == KeyTypes(KeyLeaves(qs))
    requires |final| == |qs|
    requires forall k :: 0 <= k < |qs| ==>
      |qs[k]| == |final[k]| == |types| && forall p :: 0 <= p < |types| ==> CastsLeaf(qs[k][p], final[k][p], types[p])
    ensures CheckedOp(Cogroup(gb, inner), Cogroup(final, inner), ins)
    ensures RelRule(Cogroup(gb, inner), ins) == Ok(CogroupSchema(types, ins))
    ensures OpWellFormed(Cogroup(final, inner), |ins|)
  {
    GroupKeysFields(gb, ins, qs);
    KeysRewroteFromCasts(gb, ins, qs, types, final);
    CogroupRewrote(gb, inner, ins, types, final);
    KeyTypesFit(qs);
    forall k | 0 <= k < |final|
      ensures |final[k]| == |types| && forall p :: 0 <= p < |types| ==> IsPlan(final[k][p])
    {
      forall p | 0 <= p < |types| ensures IsPlan(final[k][p]) {
        assert CastsLeaf(qs[k][p], final[k][p], types[p]);
      }
    }
    CastKeysWellFormed(final, inner, ins, types);
  }

  /** Key plans rewritten to the group key types make a checked cogroup. */
  lemma CogroupRewrote(gb: seq<seq<ExprPlan>>, inner: seq<bool>, ins: seq<Schema>, types: seq<Type>, final: seq<seq<ExprPlan>>)
    requires OpWellFormed(Cogroup(gb, inner), |ins|) && |final| == |gb|
    requires KeyFields(gb, ins).Ok? && Rectangular(KeyFields(gb, ins).value)
    requires types == KeyTypes(KeyFields(gb, ins).value)
    requires forall k :: 0 <= k < |gb| ==>
      |final[k]| == |gb[k]| == |types| &&
      forall p :: 0 <= p < |gb[k]| ==> KeyRewrote(gb[k][p], ins[k], final[k][p], types[p])
    ensures CheckedOp(Cogroup(gb, inner), Cogroup(final, inner), ins)
  {
  }

  /** Brings the leaf of every key plan of one cogroup input to its
    * position's group key type, collecting an INFO message per cast. */
  method CastRow(row: seq<ExprPlan>, types: seq<Type>, collector: MessageCollector, firstKey: nat)
    returns (final: seq<ExprPlan>, nextKey: nat)
    requires |row| == |types| && forall p :: 0 <= p < |row| ==> IsPlan(row[p])
    modifies collector
    ensures |final| == |row| && forall p :: 0 <= p < |row| ==> CastsLeaf(row[p], final[p], types[p])
    ensures forall p :: 0 <= p < |final| ==> IsPlan(final[p])
    ensures nextKey >= firstKey
    ensures Extends(old(collector.messages), collector.messages)
    ensures collector.HasError() <==> old(collector.HasError())
  {
    ghost var log0 := collector.messages;
    ghost var hadError := collector.HasError();
    final := [];
    nextKey := firstKey;
    var p := 0;
    while p < |row|
      invariant 0 <= p <= |row| && |final| == p
      invariant forall j :: 0 <= j < p ==> CastsLeaf(row[j], final[j], types[j])
      invariant forall j :: 0 <= j < p ==> IsPlan(final[j])
      invariant nextKey >= firstKey
      invariant Extends(log0, collector.messages)
      invariant collector.HasError() <==> hadError
    {
      var cast := CastLeaf(row[p], types[p], nextKey);
      if LeafField(row[p]).t != types[p] {
        ghost var log1 := collector.messages;
        collector.Collect(Info, CastInserted);
        ExtendsTransitive(log0, log1, collector.messages);
      }
      assert CastsLeaf(row[p], cast, types[p]);
      final := final + [cast];
      nextKey := nextKey + 1;
      p := p + 1;
    }
  }

  /** Brings every cogroup key plan's leaf to its position's group key type. */
  method CastGroupKeys(qs: seq<seq<ExprPlan>>, types: seq<Type>, collector: MessageCollector, firstKey: nat)
    returns (final: seq<seq<ExprPlan>>, nextKey: nat)
    requires forall k :: 0 <= k < |qs| ==> |qs[k]| == |types| && forall p :: 0 <= p < |qs[k]| ==> IsPlan(qs[k][p])
    modifies collector
    ensures |final| == |qs|
    ensures forall k :: 0 <= k < |qs| ==>
      |qs[k]| == |final[k]| == |types| && forall p :: 0 <= p < |types| ==> CastsLeaf(qs[k][p], final[k][p], types[p])
    ensures forall k :: 0 <= k < |final| ==> |final[k]| == |types| && forall p :: 0 <= p < |types| ==> IsPlan(final[k][p])
    ensures nextKey >= firstKey
    ensures Extends(old(collector.messages), collector.messages)
    ensures collector.HasError() <==> old(collector.HasError())
  {
    ghost var log0 := collector.messages;
    ghost var hadError := collector.HasError();
    final := [];
    nextKey := firstKey;
    var k := 0;
    while k < |qs|
      invariant 0 <= k <= |qs| && |final| == k
      invariant forall j :: 0 <= j < k ==>
        |final[j]| == |types| && forall p :: 0 <= p < |types| ==> CastsLeaf(qs[j][p], final[j][p], types[p])
      invariant forall j :: 0 <= j < k ==> |final[j]| == |types| && forall p :: 0 <= p < |types| ==> IsPlan(final[j][p])
      invariant nextKey >= firstKey
      invariant Extends(log0, collector.messages)
      invariant collector.HasError() <==> hadError
    {
      ghost var log1 := collector.messages;
      var row;
      row, nextKey := CastRow(qs[k], types, collector, nextKey);
      ExtendsTransitive(log0, log1, collector.messages);
      final := final + [row];
      k := k + 1;
    }
  }

  /** For each key position, whether its inputs have no common type. */
  function Unmerged(fields: seq<seq<FieldSchema>>): (flags: seq<bool>)
    requires Rectangular(fields)
    ensures |flags| == |fields[0]|
    ensures forall p :: 0 <= p < |flags| ==> (flags[p] <==> FoldMerge(PositionTypes(fields, p)).None?)
  {
    seq(|fields[0]|, p requires 0 <= p < |fields[0]| => FoldMerge(PositionTypes(fields, p)).None?)
  }

  /** Every input's key row has one plan per group key type. */
  lemma KeyTypesFit(qs: seq<seq<ExprPlan>>)
    requires forall k :: 0 <= k < |qs| ==> forall p :: 0 <= p < |qs[k]| ==> IsPlan(qs[k][p])
    requires Rectangular(KeyLeaves(qs))
    ensures |KeyTypes(KeyLeaves(qs))| > 0
    ensures forall k :: 0 <= k < |qs| ==> |qs[k]| == |KeyTypes(KeyLeaves(qs))|
  {
    var fields := KeyLeaves(qs);
    forall k | 0 <= k < |qs|
      ensures |qs[k]| == |KeyTypes(fields)|
    {
      assert |fields[k]| == |Leaves(qs[k])|;
    }
  }

  /** Brings the checked key plans `qs` of a cogroup to the group key
    * types, with a WARN message for every position whose inputs have no
    * common type (its key becomes BYTEARRAY). */
  method GroupByKeyTypes(gb: seq<seq<ExprPlan>>, inner: seq<bool>, ins: seq<Schema>, qs: seq<seq<ExprPlan>>,
                         collector: MessageCollector, firstKey: nat)
    returns (op': RelOp, schema: Schema, nextKey: nat)
    requires OpWellFormed(Cogroup(gb, inner), |ins|) && |qs| == |gb|
    requires forall k :: 0 <= k < |gb| ==> PlansChecked(gb[k], ins[k], qs[k])
    requires forall k :: 0 <= k < |qs| ==> |qs[k]| == |gb[k]| && forall p :: 0 <= p < |qs[k]| ==> IsPlan(qs[k][p])
    requires Rectangular(KeyLeaves(qs))
    modifies collector
    ensures RelRule(Cogroup(gb, inner), ins) == Ok(schema) && CheckedOp(Cogroup(gb, inner), op', ins)
    ensures OpWellFormed(op', |ins|)
    ensures nextKey >= firstKey
    ensures Extends(old(collector.messages), collector.messages)
    ensures collector.HasError() <==> old(collector.HasError())
  {
    var fields := KeyLeaves(qs);
    var types := KeyTypes(fields);
    KeyTypesFit(qs);
    ghost var log0 := collector.messages;
    WarnEach(Unmerged(fields), GroupKeyAsBytes, collector);
    ghost var log1 := collector.messages;
    var final;
    final, nextKey := CastGroupKeys(qs, types, collector, firstKey);
    ExtendsTransitive(log0, log1, collector.messages);
    CogroupChecked(gb, inner, ins, qs, types, final);
    op', schema := Cogroup(final, inner), CogroupSchema(types, ins);
  }

  /** Checks a cogroup: its key plans, then that every input groups by the
    * same number of positions; the key plans' leaves are then cast to the
    * group key types, with a WARN message for every position whose inputs
    * have no common type (its key becomes BYTEARRAY). */
  method CheckCogroup(gb: seq<seq<ExprPlan>>, inner: seq<bool>, ins: seq<Schema>,
                      collector: MessageCollector, firstKey: nat)
    returns (r: Result<(RelOp, Schema), Problem>, nextKey: nat)
    requires OpWellFormed(Cogroup(gb, inner), |ins|)
    modifies collector
    ensures r.Ok? ==> RelRule(Cogroup(gb, inner), ins) == Ok(r.value.1) && CheckedOp(Cogroup(gb, inner), r.value.0, ins)
    ensures r.Ok? ==> OpWellFormed(r.value.0, |ins|)
    ensures r.Err? ==> RelRule(Cogroup(gb, inner), ins).Err?
    ensures nextKey >= firstKey
    ensures Extends(old(collector.messages), collector.messages)
    ensures r.Ok? ==> (collector.HasError() <==> old(collector.HasError()))
    ensures r.Err? ==> collector.HasError()
  {
    ghost var log0 := collector.messages;
    var checked;
    checked, nextKey := CheckGroupKeys(gb, ins, collector, firstKey);
    if checked.Err? {
      return Err(checked.error), nextKey;
    }
    var qs := checked.value;
    CheckedKeysArePlans(gb, ins, qs);
    ghost var log1 := collector.messages;
    if !Rectangular(KeyLeaves(qs)) {
      CogroupArityFails(gb, inner, ins, qs);
      collector.Collect(Error, Failed(GroupKeyArityMismatch));
      ExtendsTransitive(log0, log1, collector.messages);
      return Err(GroupKeyArityMismatch), nextKey;
    }
    var op', schema;
    op', schema, nextKey := GroupByKeyTypes(gb, inner, ins, qs, collector, nextKey);
    ExtendsTransitive(log0, log1, collector.messages);
    r := Ok((op', schema));
  }

  /** Checks one operator's inner plans against its inputs' schemas `ins`
    * and computes its output schema; the first problem stops it with an
    * ERROR message collected. */
  method CheckOperator(op: RelOp, ins: seq<Schema>, collector: MessageCollector, firstKey: nat)
    returns (r: Result<(RelOp, Schema), Problem>, nextKey: nat)
    requires OpWellFormed(op, |ins|)
    modifies collector
    ensures r.Ok? ==> RelRule(op, ins) == Ok(r.value.1) && CheckedOp(op, r.value.0, ins)
    ensures r.Ok? ==> OpWellFormed(r.value.0, |ins|)
    ensures r.Err? ==> RelRule(op, ins).Err?
    ensures nextKey >= firstKey
    ensures Extends(old(collector.messages), collector.messages)
    ensures r.Ok? ==> (collector.HasError() <==> old(collector.HasError()))
    ensures r.Err? ==> collector.HasError()
  {
    nextKey := firstKey;
    match op {
      case Load(declared) =>
        r := Ok((op, declared));
      case Filter(c) =>
        var q;
        q, nextKey := CheckCondition(c, ins[0], collector, firstKey);
        if q.Err? {
          return Err(q.error), nextKey;
        }
        r := Ok((Filter(q.value), ins[0]));
      case Distinct =>
        r := Ok((op, ins[0]));
      case Sort(keys, asc) =>
        var qs;
        qs, nextKey := CheckPlans(keys, ins[0], collector, firstKey);
        if qs.Err? {
          return Err(qs.error), nextKey;
        }
        PlansCheckedFields(keys, ins[0], qs.value);
        r := Ok((Sort(qs.value, asc), ins[0]));
      case Split =>
        r := Ok((op, ins[0]));
      case SplitOutput(index, c) =>
        var q;
        q, nextKey := CheckCondition(c, ins[0], collector, firstKey);
        if q.Err? {
          return Err(q.error), nextKey;
        }
        r := Ok((SplitOutput(index, q.value), ins[0]));
      case Union =>
        if !SameWidth(ins) {
          collector.Collect(Error, Failed(UnionWidthMismatch));
          return Err(UnionWidthMismatch), nextKey;
        }
        var u := UnionSchema(ins);
        WarnEach(seq(|u|, c requires 0 <= c < |u| => u[c].t == UNKNOWN), UnionColumnUnknown, collector);
        r := Ok((op, u));
      case Cogroup(gb, inner) =>
        r, nextKey := CheckCogroup(gb, inner, ins, collector, firstKey);
      case ForEach(gen, fl) =>
        var qs;
        qs, nextKey := CheckPlans(gen, ins[0], collector, firstKey);
        if qs.Err? {
          return Err(qs.error), nextKey;
        }
        PlansCheckedFields(gen, ins[0], qs.value);
        r := Ok((ForEach(qs.value, fl), GenerateSchema(Leaves(qs.value), fl)));
      case Cross =>
        r := Ok((op, CrossSchema(ins)));
    }
  }

  /** Reading union input `k` through a new casting foreach appended to
    * the rebuilt plan wires it, and keeps the earlier inputs wired. */
  lemma UnionInputWrapped(out0: seq<RelNode>, out: seq<RelNode>, args: seq<nat>, origs: seq<nat>,
                          ins: seq<Schema>, k: nat, key: nat)
    requires SameWidth(ins) && |origs| == |ins| && k < |ins| && |args| == k
    requires NeedsUnionCasts(ins[k], UnionSchema(ins))
    requires |out0| <= |out| && out[..|out0|] == out0
    requires RelWellFormed(out) && Annotated(out) && origs[k] < |out|
    requires forall j :: 0 <= j < k ==> InputWired(out, args[j], origs[j], Union, ins, j)
    ensures var grown := out + [UnionWrapper(key, origs[k], ins[k], UnionSchema(ins))];
      |out0| <= |grown| && grown[..|out0|] == out0 && RelWellFormed(grown) && Annotated(grown) &&
      forall j :: 0 <= j <= k ==> InputWired(grown, (args + [|out|])[j], origs[j], Union, ins, j)
  {
    var w := UnionWrapper(key, origs[k], ins[k], UnionSchema(ins));
    var grown := out + [w];
    AppendRebuilt(out, w);
    assert grown[..|out|] == out;
    assert grown[..|out0|] == out0;
    forall j | 0 <= j <= k
      ensures InputWired(grown, (args + [|out|])[j], origs[j], Union, ins, j)
    {
      if j < k {
        assert (args + [|out|])[j] == args[j];
        InputWiredGrows(out, grown, args[j], origs[j], Union, ins, j);
      } else {
        assert (args + [|out|])[j] == |out| && grown[|out|] == UnionWrapper(key, origs[k], ins[k], UnionSchema(ins));
      }
    }
  }

  /** Wires input `k` of a union after the inputs before it: directly when
    * its columns all have the union's types (or an UNKNOWN union type),
    * otherwise through a new casting foreach, with an INFO message. */
  method WireUnionInput(out0: seq<RelNode>, out: seq<RelNode>, args: seq<nat>, ghost wrapped: seq<bool>,
                        origs: seq<nat>, ins: seq<Schema>, k: nat, collector: MessageCollector, firstKey: nat)
    returns (out': seq<RelNode>, args': seq<nat>, nextKey: nat)
    requires SameWidth(ins) && |origs| == |ins| && k < |ins| && |args| == k
    requires |out0| <= |out| && out[..|out0|] == out0
    requires RelWellFormed(out) && Annotated(out)
    requires forall j :: 0 <= j < |origs| ==> origs[j] < |out0|
    requires forall j :: 0 <= j < k ==> InputWired(out, args[j], origs[j], Union, ins, j)
    requires FreshArgs(|out0|, |out|, args, wrapped)
    modifies collector
    ensures |out0| <= |out'| && out'[..|out0|] == out0
    ensures RelWellFormed(out') && Annotated(out')
    ensures |args'| == k + 1 && forall j :: 0 <= j <= k ==> InputWired(out', args'[j], origs[j], Union, ins, j)
    ensures FreshArgs(|out0|, |out'|, args', wrapped + [NeedsUnionCasts(ins[k], UnionSchema(ins))])
    ensures nextKey >= firstKey
    ensures Extends(old(collector.messages), collector.messages)
    ensures collector.HasError() <==> old(collector.HasError())
  {
    var u := UnionSchema(ins);
    if NeedsUnionCasts(ins[k], u) {
      UnionInputWrapped(out0, out, args, origs, ins, k, firstKey);
      FreshArgsStep(|out0|, |out|, args, wrapped, |out|, true);
      out' := out + [UnionWrapper(firstKey, origs[k], ins[k], u)];
      args' := args + [|out|];
      nextKey := firstKey + 1 + 2 * |ins[k]|;
      collector.Collect(Info, CastInserted);
    } else {
      FreshArgsStep(|out0|, |out|, args, wrapped, origs[k], false);
      out', args', nextKey := out, args + [origs[k]], firstKey;
      forall j | 0 <= j <= k
        ensures InputWired(out', args'[j], origs[j], Union, ins, j)
      {
        if j < k {
          assert args'[j] == args[j];
        }
      }
    }
  }

  /** Wires the inputs of a union: an input whose columns all have the
    * union's types (or an UNKNOWN union type) is read directly; any other
    * is read through a new casting foreach, with an INFO message. */
  method AddUnionWrappers(out: seq<RelNode>, origs: seq<nat>, ins: seq<Schema>,
                          collector: MessageCollector, firstKey: nat)
    returns (out': seq<RelNode>, args: seq<nat>, nextKey: nat)
    requires SameWidth(ins) && |origs| == |ins|
    requires RelWellFormed(out) && Annotated(out)
    requires forall k :: 0 <= k < |origs| ==> origs[k] < |out|
    modifies collector
    ensures |out| <= |out'| && out'[..|out|] == out
    ensures RelWellFormed(out') && Annotated(out')
    ensures |args| == |ins| && forall k :: 0 <= k < |ins| ==> InputWired(out', args[k], origs[k], Union, ins, k)
    ensures FreshArgs(|out|, |out'|, args, seq(|ins|, k requires 0 <= k < |ins| => NeedsUnionCasts(ins[k], UnionSchema(ins))))
    ensures nextKey >= firstKey
    ensures Extends(old(collector.messages), collector.messages)
    ensures collector.HasError() <==> old(collector.HasError())
  {
    ghost var log0 := collector.messages;
    ghost var hadError := collector.HasError();
    out' := out;
    args := [];
    nextKey := firstKey;
    ghost var flags := seq(|ins|, k requires 0 <= k < |ins| => NeedsUnionCasts(ins[k], UnionSchema(ins)));
    var k := 0;
    while k < |ins|
      invariant 0 <= k <= |ins| && |args| == k
      invariant |out| <= |out'| && out'[..|out|] == out
      invariant RelWellFormed(out') && Annotated(out')
      invariant forall j :: 0 <= j < k ==> InputWired(out', args[j], origs[j], Union, ins, j)
      invariant FreshArgs(|out|, |out'|, args, flags[..k])
      invariant nextKey >= firstKey
      invariant Extends(log0, collector.messages)
      invariant collector.HasError() <==> hadError
    {
      ghost var log1 := collector.messages;
      out', args, nextKey := WireUnionInput(out, out', args, flags[..k], origs, ins, k, collector, nextKey);
      ExtendsTransitive(log0, log1, collector.messages);
      assert flags[..k + 1] == flags[..k] + [flags[k]];
      k := k + 1;
    }
    assert flags[..k] == flags;
  }

  /** The inputs of operator `i` are rebuilt when every operator before
    * it is. */
  lemma RebuiltInputs(nodes: seq<RelNode>, out: seq<RelNode>, pos: seq<nat>, i: nat)
    requires RelWellFormed(nodes) && i < |nodes| && |pos| == i
    requires forall j :: 0 <= j < i ==> RelRewrote(nodes, out, pos, j)
    ensures forall k :: 0 <= k < |nodes[i].inputs| ==> nodes[i].inputs[k] < |pos| && pos[nodes[i].inputs[k]] < |out|
  {
    forall k | 0 <= k < |nodes[i].inputs|
      ensures nodes[i].inputs[k] < |pos| && pos[nodes[i].inputs[k]] < |out|
    {
      assert RelRewrote(nodes, out, pos, nodes[i].inputs[k]);
    }
  }

  /** An operator other than a union reads its rebuilt inputs directly. */
  lemma DirectlyWired(out: seq<RelNode>, origs: seq<nat>, op: RelOp, ins: seq<Schema>)
    requires !op.Union? && forall k :: 0 <= k < |origs| ==> origs[k] < |out|
    ensures forall k :: 0 <= k < |origs| ==> InputWired(out, origs[k], origs[k], op, ins, k)
    ensures forall k :: 0 <= k < |origs| ==> (|out| <= origs[k] <==> Wraps(op, ins, k))
    ensures OwnWrappers(op, ins, origs)
  {
  }

  /** A union reads past `base` exactly the inputs it reads through a
    * casting foreach. */
  lemma UnionArgsWrap(base: nat, size: nat, args: seq<nat>, ins: seq<Schema>)
    requires SameWidth(ins) && |args| == |ins|
    requires FreshArgs(base, size, args, seq(|ins|, k requires 0 <= k < |ins| => NeedsUnionCasts(ins[k], UnionSchema(ins))))
    ensures forall k :: 0 <= k < |args| ==> (base <= args[k] <==> Wraps(Union, ins, k))
    ensures OwnWrappers(Union, ins, args)
  {
  }

  /** Appending a well-formed operator with a schema, whose inputs come
    * before it, keeps the rebuilt plan well formed and annotated. */
  lemma AppendRebuilt(wired: seq<RelNode>, m: RelNode)
    requires RelWellFormed(wired) && Annotated(wired)
    requires OpWellFormed(m.op, |m.inputs|) && m.schema.Some?
    requires forall k :: 0 <= k < |m.inputs| ==> m.inputs[k] < |wired|
    ensures RelWellFormed(wired + [m]) && Annotated(wired + [m])
  {
    var out' := wired + [m];
    forall x | 0 <= x < |out'|
      ensures OpWellFormed(out'[x].op, |out'[x].inputs|) && forall k :: 0 <= k < |out'[x].inputs| ==> out'[x].inputs[k] < x
      ensures out'[x].schema.Some?
    {
      if x < |wired| {
        assert out'[x] == wired[x];
      }
    }
  }

  /** Every operator rebuilt so far has a schema under the reference rules. */
  lemma RebuiltInfer(nodes: seq<RelNode>, out: seq<RelNode>, pos: seq<nat>, i: nat)
    requires RelWellFormed(nodes) && i <= |nodes|
    requires forall j :: 0 <= j < i ==> RelRewrote(nodes, out, pos, j)
    ensures forall j :: 0 <= j < i ==> RelInfer(nodes, j).Ok?
  {
    forall j | 0 <= j < i
      ensures RelInfer(nodes, j).Ok?
    {
      assert RelRewrote(nodes, out, pos, j);
    }
  }

  /** Appending a rebuilt operator `m` after the positions it alone reads
    * adds one stretch to the layout of the rebuilt plan. */
  lemma LaidStep(out: seq<RelNode>, pos: seq<nat>, wired: seq<RelNode>, m: RelNode)
    requires Laid(out, pos)
    requires |out| <= |wired| && wired[..|out|] == out
    requires forall x :: |out| <= x < |wired| ==> x in m.inputs
    ensures Laid(wired + [m], pos + [|wired|])
    ensures Start(pos + [|wired|], |pos|) == |out|
  {
    var res := wired + [m];
    var pos' := pos + [|wired|];
    forall i | 0 <= i < |pos'|
      ensures Start(pos', i) <= pos'[i] < |res|
      ensures forall x :: Start(pos', i) <= x < pos'[i] ==> x in res[pos'[i]].inputs
    {
      if i < |pos| {
        var p := pos[i];
        assert Start(pos', i) == Start(pos, i) && pos'[i] == p && p < |out|;
        assert res[p] == wired[p] == wired[..|out|][p] == out[p];
        forall x | Start(pos, i) <= x < p
          ensures x in res[p].inputs
        {
        }
      } else {
        assert Start(pos', i) == |out| && pos'[i] == |wired|;
      }
    }
  }

  /** A rebuilt operator keeps its stretch when the rebuilt plan and the
    * positions grow. */
  lemma StretchedGrows(nodes: seq<RelNode>, out: seq<RelNode>, pos: seq<nat>, res: seq<RelNode>, pos': seq<nat>, j: nat)
    requires Stretched(nodes, out, pos, j)
    requires |out| <= |res| && res[..|out|] == out
    requires |pos| <= |pos'| && pos'[..|pos|] == pos
    ensures Stretched(nodes, res, pos', j)
  {
    var p := pos[j];
    assert pos'[j] == p && res[p] == out[p];
    assert Start(pos', j) == Start(pos, j) by {
      if j > 0 {
        assert pos'[j - 1] == pos[j - 1];
      }
    }
  }

  /** The operator appended at the end of the rebuilt plan, with its
    * stretch starting at `base`, reads past `base` exactly the inputs it
    * reads through a casting foreach. */
  lemma StretchedLast(nodes: seq<RelNode>, wired: seq<RelNode>, m: RelNode, pos: seq<nat>, ins: seq<Schema>, i: nat, base: nat)
    requires RelWellFormed(nodes) && i < |nodes| && |pos| == i + 1 && pos[i] == |wired| && Start(pos, i) == base
    requires InputSchemas(nodes, i) == Ok(ins) && |m.inputs| == |nodes[i].inputs|
    requires forall k :: 0 <= k < |m.inputs| ==> (base <= m.inputs[k] <==> Wraps(nodes[i].op, ins, k))
    requires OwnWrappers(nodes[i].op, ins, m.inputs)
    ensures Stretched(nodes, wired + [m], pos, i)
  {
    assert (wired + [m])[pos[i]] == m;
  }

  /** Appending the rebuilt operator `m`, whose inputs past `out` are
    * exactly the ones it reads through a casting foreach, keeps every
    * rebuilt operator in its own stretch. */
  lemma StretchStep(nodes: seq<RelNode>, out: seq<RelNode>, pos: seq<nat>, wired: seq<RelNode>,
                    m: RelNode, ins: seq<Schema>, i: nat)
    requires RelWellFormed(nodes) && i < |nodes| && |pos| == i && Start(pos + [|wired|], i) == |out|
    requires forall j :: 0 <= j < i ==> Stretched(nodes, out, pos, j)
    requires |out| <= |wired| && wired[..|out|] == out
    requires InputSchemas(nodes, i) == Ok(ins) && |m.inputs| == |nodes[i].inputs|
    requires forall k :: 0 <= k < |m.inputs| ==> (|out| <= m.inputs[k] <==> Wraps(nodes[i].op, ins, k))
    requires OwnWrappers(nodes[i].op, ins, m.inputs)
    ensures forall j :: 0 <= j <= i ==> Stretched(nodes, wired + [m], pos + [|wired|], j)
  {
    var res := wired + [m];
    var pos' := pos + [|wired|];
    assert res[..|out|] == out && pos'[..|pos|] == pos;
    forall j | 0 <= j < i
      ensures Stretched(nodes, res, pos', j)
    {
      StretchedGrows(nodes, out, pos, res, pos', j);
    }
    StretchedLast(nodes, wired, m, pos', ins, i, |out|);
  }

  /** Wires the inputs at positions `origs` of `out` for one operator: a
    * union reads each input directly or through a new casting foreach,
    * every other operator reads its inputs directly. */
  method WireInputs(out: seq<RelNode>, origs: seq<nat>, op: RelOp, ins: seq<Schema>,
                    collector: MessageCollector, firstKey: nat)
    returns (wired: seq<RelNode>, args: seq<nat>, nextKey: nat)
    requires RelWellFormed(out) && Annotated(out) && |origs| == |ins|
    requires forall k :: 0 <= k < |origs| ==> origs[k] < |out|
    requires op.Union? ==> SameWidth(ins)
    modifies collector
    ensures |out| <= |wired| && wired[..|out|] == out && RelWellFormed(wired) && Annotated(wired)
    ensures |args| == |origs| && forall k :: 0 <= k < |origs| ==>
      InputWired(wired, args[k], origs[k], op, ins, k) && args[k] < |wired| && (|out| <= args[k] <==> Wraps(op, ins, k))
    ensures forall x :: |out| <= x < |wired| ==> x in args
    ensures OwnWrappers(op, ins, args)
    ensures nextKey >= firstKey
    ensures Extends(old(collector.messages), collector.messages)
    ensures collector.HasError() <==> old(collector.HasError())
  {
    if op.Union? {
      wired, args, nextKey := AddUnionWrappers(out, origs, ins, collector, firstKey);
      UnionArgsWrap(|out|, |wired|, args, ins);
    } else {
      wired, args, nextKey := out, origs, firstKey;
      DirectlyWired(out, origs, op, ins);
    }
  }

  /** Appending operator `i`, accepted as `op'` with `schema` and reading
    * `args` after the casting foreach operators its inputs need, keeps the
    * rebuilt plan well formed, laid out stretch by stretch, and every
    * operator up to `i` rebuilt. */
  lemma AppendOperator(nodes: seq<RelNode>, out: seq<RelNode>, pos: seq<nat>, wired: seq<RelNode>,
                       origs: seq<nat>, args: seq<nat>, op': RelOp, schema: Schema, ins: seq<Schema>, i: nat)
    requires RelWellFormed(nodes) && i < |nodes| && |pos| == i
    requires forall j :: 0 <= j < i ==> RelRewrote(nodes, out, pos, j) && Stretched(nodes, out, pos, j)
    requires Laid(out, pos)
    requires |out| <= |wired| && wired[..|out|] == out && RelWellFormed(wired) && Annotated(wired)
    requires |origs| == |ins| == |nodes[i].inputs|
    requires forall k :: 0 <= k < |origs| ==> nodes[i].inputs[k] < i && origs[k] == pos[nodes[i].inputs[k]]
    requires InputSchemas(nodes, i) == Ok(ins) && RelInfer(nodes, i) == Ok(schema)
    requires CheckedOp(nodes[i].op, op', ins) && OpWellFormed(op', |ins|)
    requires |args| == |origs| && forall k :: 0 <= k < |origs| ==>
      InputWired(wired, args[k], origs[k], nodes[i].op, ins, k) && args[k] < |wired| && (|out| <= args[k] <==> Wraps(nodes[i].op, ins, k))
    requires forall x :: |out| <= x < |wired| ==> x in args
    requires OwnWrappers(nodes[i].op, ins, args)
    ensures var res := wired + [RelNode(nodes[i].key, op', args, Some(schema))];
      RelWellFormed(res) && Annotated(res) && Laid(res, pos + [|wired|])
      && forall j :: 0 <= j <= i ==> RelRewrote(nodes, res, pos + [|wired|], j) && Stretched(nodes, res, pos + [|wired|], j)
  {
    var m := RelNode(nodes[i].key, op', args, Some(schema));
    RelRewriteStep(nodes, out, pos, wired, m, ins, i);
    AppendRebuilt(wired, m);
    LaidStep(out, pos, wired, m);
    StretchStep(nodes, out, pos, wired, m, ins, i);
  }

  /** Checks operator `i`, whose inputs are already rebuilt, and appends it
    * (after any casting foreach its inputs need) to the rebuilt plan. */
  method RewriteRel(nodes: seq<RelNode>, out: seq<RelNode>, pos: seq<nat>, i: nat,
                    collector: MessageCollector, firstKey: nat)
    returns (failure: Option<Problem>, out': seq<RelNode>, pos': seq<nat>, nextKey: nat)
    requires RelWellFormed(nodes) && i < |nodes| && |pos| == i
    requires RelWellFormed(out) && Annotated(out)
    requires forall j :: 0 <= j < i ==> RelRewrote(nodes, out, pos, j) && Stretched(nodes, out, pos, j)
    requires Laid(out, pos)
    modifies collector
    ensures failure.Some? ==> RelInfer(nodes, i).Err? && collector.HasError()
    ensures failure.None? ==>
      |pos'| == i + 1 && RelWellFormed(out') && Annotated(out') && Laid(out', pos')
      && (forall j :: 0 <= j <= i ==> RelRewrote(nodes, out', pos', j) && Stretched(nodes, out', pos', j))
      && (collector.HasError() <==> old(collector.HasError()))
    ensures nextKey >= firstKey
    ensures Extends(old(collector.messages), collector.messages)
  {
    var n := nodes[i];
    RebuiltInputs(nodes, out, pos, i);
    var origs := seq(|n.inputs|, k requires 0 <= k < |n.inputs| => pos[n.inputs[k]]);
    var ins := seq(|n.inputs|, k requires 0 <= k < |n.inputs| => out[origs[k]].schema.value);
    InputsFromRewritten(nodes, out, pos, i, ins);
    ghost var log0 := collector.messages;
    var checked;
    checked, nextKey := CheckOperator(n.op, ins, collector, firstKey);
    if checked.Err? {
      return Some(checked.error), out, pos, nextKey;
    }
    var (op', schema) := checked.value;
    ghost var log1 := collector.messages;
    var wired, args;
    wired, args, nextKey := WireInputs(out, origs, n.op, ins, collector, nextKey);
    ExtendsTransitive(log0, log1, collector.messages);
    AppendOperator(nodes, out, pos, wired, origs, args, op', schema, ins, i);
    out' := wired + [RelNode(n.key, op', args, Some(schema))];
    pos' := pos + [|wired|];
    failure := None;
  }

  /** In a validated plan every original operator has a counterpart with
    * its key, the schema the reference rules give it, and its inner plans
    * checked against its inputs' schemas. */
  lemma ValidatedOperator(orig: seq<RelNode>, res: seq<RelNode>, i: nat)
    requires IsValidationOf(orig, res) && i < |orig|
    ensures RelInfer(orig, i).Ok? && InputSchemas(orig, i).Ok?
    ensures exists j :: (0 <= j < |res| && res[j].key == orig[i].key && res[j].schema == Some(RelInfer(orig, i).value)
      && CheckedOp(orig[i].op, res[j].op, InputSchemas(orig, i).value))
  {
    var pos: seq<nat> :| ValidatedAt(orig, res, pos);
    assert RelRewrote(orig, res, pos, i);
  }

  /** Position `res[pos[i]].inputs[k]` holds the casting foreach inserted
    * in front of input `k` of the rebuilt union `i`, inside the union's own
    * stretch of the rebuilt plan. */
  ghost predicate WrapperAt(orig: seq<RelNode>, res: seq<RelNode>, pos: seq<nat>, i: nat, k: nat) {
    RelWellFormed(orig) && i < |orig| && i < |pos| && pos[i] < |res| &&
    k < |orig[i].inputs| && k < |res[pos[i]].inputs| && orig[i].inputs[k] < |pos| && InputSchemas(orig, i).Ok? &&
    var ins := InputSchemas(orig, i).value;
    var x := res[pos[i]].inputs[k];
    Wraps(orig[i].op, ins, k) && Start(pos, i) <= x < pos[i] &&
    exists key: nat :: res[x] == UnionWrapper(key, pos[orig[i].inputs[k]], ins[k], UnionSchema(ins))
  }

  /** The rebuilt operators keep the order of the original ones, each
    * after the stretch of the one before it. */
  lemma {:induction false} LaidInOrder(res: seq<RelNode>, pos: seq<nat>, i: nat, j: nat)
    requires Ordered(res, pos) && i < j < |pos|
    ensures pos[i] < Start(pos, j) <= pos[j]
    decreases j - i
  {
    if i + 1 < j {
      LaidInOrder(res, pos, i, j - 1);
    }
  }

  /** Two original operators rebuilt at the same position are the same. */
  lemma RebuiltOnce(res: seq<RelNode>, pos: seq<nat>, i: nat, j: nat)
    requires Ordered(res, pos) && i < |pos| && j < |pos| && pos[i] == pos[j]
    ensures i == j
  {
    if i < j {
      LaidInOrder(res, pos, i, j);
    } else if j < i {
      LaidInOrder(res, pos, j, i);
    }
  }

  /** A position strictly inside a stretch holds no rebuilt operator. */
  lemma StretchHoldsNoRebuilt(res: seq<RelNode>, pos: seq<nat>, i: nat, x: nat)
    requires Ordered(res, pos) && i < |pos| && Start(pos, i) <= x < pos[i]
    ensures x !in pos
  {
    if x in pos {
      var j :| 0 <= j < |pos| && pos[j] == x;
      if j < i {
        LaidInOrder(res, pos, j, i);
      } else if i < j {
        LaidInOrder(res, pos, i, j);
      }
    }
  }

  /** Every position of the rebuilt plan lies in the stretch of some
    * rebuilt operator. */
  lemma FindStretch(res: seq<RelNode>, pos: seq<nat>, x: nat) returns (i: nat)
    requires Ordered(res, pos) && x < |res|
    ensures i < |pos| && Start(pos, i) <= x <= pos[i]
  {
    i := 0;
    while pos[i] < x
      invariant i < |pos| && Start(pos, i) <= x
      decreases |pos| - i
    {
      i := i + 1;
    }
  }

  /** A casting foreach read by a rebuilt union sits in the union's stretch. */
  lemma WrappedInput(orig: seq<RelNode>, res: seq<RelNode>, pos: seq<nat>, i: nat, k: nat)
    requires RelWellFormed(orig) && RelWellFormed(res) && i < |orig| && k < |orig[i].inputs|
    requires RelRewrote(orig, res, pos, i) && Stretched(orig, res, pos, i)
    requires Wraps(orig[i].op, InputSchemas(orig, i).value, k)
    ensures WrapperAt(orig, res, pos, i, k)
  {
  }

  /** A rebuilt operator reads an input outside its own stretch directly,
    * at the position where that input was rebuilt. */
  lemma DirectRead(orig: seq<RelNode>, res: seq<RelNode>, pos: seq<nat>, j: nat, k: nat)
    requires RelWellFormed(orig) && j < |orig| && k < |orig[j].inputs|
    requires RelRewrote(orig, res, pos, j) && Stretched(orig, res, pos, j)
    requires res[pos[j]].inputs[k] < Start(pos, j)
    ensures !Wraps(orig[j].op, InputSchemas(orig, j).value, k)
    ensures orig[j].inputs[k] < |pos| && res[pos[j]].inputs[k] == pos[orig[j].inputs[k]]
  {
  }

  /** A position of the validated plan that holds no rebuilt operator holds
    * a casting foreach read by a rebuilt union. */
  lemma NotRebuiltIsWrapper(orig: seq<RelNode>, res: seq<RelNode>, pos: seq<nat>, x: nat) returns (i: nat, k: nat)
    requires RelWellFormed(orig) && RelWellFormed(res) && ValidatedAt(orig, res, pos) && x < |res| && x !in pos
    ensures WrapperAt(orig, res, pos, i, k) && res[pos[i]].inputs[k] == x
  {
    i := FindStretch(res, pos, x);
    assert pos[i] in pos;
    assert x in res[pos[i]].inputs;
    k :| 0 <= k < |res[pos[i]].inputs| && res[pos[i]].inputs[k] == x;
    assert RelRewrote(orig, res, pos, i) && Stretched(orig, res, pos, i);
    WrappedInput(orig, res, pos, i, k);
  }

  /** The layout of a validated plan: the rebuilt operators in their
    * original order, and at every other position a casting foreach read by
    * a rebuilt union. */
  lemma ValidatedLayout(orig: seq<RelNode>, res: seq<RelNode>) returns (pos: seq<nat>)
    requires IsValidationOf(orig, res)
    ensures ValidatedAt(orig, res, pos)
    ensures forall i, j :: 0 <= i < j < |pos| ==> pos[i] < pos[j]
    ensures forall x :: 0 <= x < |res| && x !in pos ==>
      exists i: nat, k: nat :: WrapperAt(orig, res, pos, i, k) && res[pos[i]].inputs[k] == x
  {
    pos :| ValidatedAt(orig, res, pos);
    forall i, j | 0 <= i < j < |pos|
      ensures pos[i] < pos[j]
    {
      LaidInOrder(res, pos, i, j);
    }
    forall x | 0 <= x < |res| && x !in pos
      ensures exists i: nat, k: nat :: WrapperAt(orig, res, pos, i, k) && res[pos[i]].inputs[k] == x
    {
      var i, k := NotRebuiltIsWrapper(orig, res, pos, x);
    }
  }

  /** A rebuilt operator placed before another one was rebuilt from an
    * earlier operator, and lies before the other's stretch. */
  lemma RebuiltBefore(res: seq<RelNode>, pos: seq<nat>, l: nat, j: nat)
    requires Ordered(res, pos) && l < |pos| && j < |pos| && pos[l] < pos[j]
    ensures l < j && pos[l] < Start(pos, j)
  {
    if j < l {
      LaidInOrder(res, pos, j, l);
    }
    if l < j {
      LaidInOrder(res, pos, l, j);
    }
  }

  /** A rebuilt operator `j` that reads the rebuilt operator `l` reads it
    * directly, as an input it has in the original plan. */
  lemma RebuiltReadsRebuilt(orig: seq<RelNode>, res: seq<RelNode>, pos: seq<nat>, l: nat, j: nat, k: nat)
    requires RelWellFormed(orig) && Ordered(res, pos) && l < |pos| && j < |orig| && |pos| == |orig|
    requires RelRewrote(orig, res, pos, j) && Stretched(orig, res, pos, j)
    requires k < |res[pos[j]].inputs| && res[pos[j]].inputs[k] == pos[l] < pos[j]
    ensures k < |orig[j].inputs| && orig[j].inputs[k] == l && !Wraps(orig[j].op, InputSchemas(orig, j).value, k)
  {
    RebuiltBefore(res, pos, l, j);
    DirectRead(orig, res, pos, j, k);
    RebuiltOnce(res, pos, orig[j].inputs[k], l);
  }

  /** A casting foreach that reads the rebuilt operator `l` stands in front
    * of an input that is `l` in the original plan. */
  lemma WrapperReadsRebuilt(orig: seq<RelNode>, res: seq<RelNode>, pos: seq<nat>, l: nat, j: nat, k: nat)
    requires Ordered(res, pos) && l < |pos| && WrapperAt(orig, res, pos, j, k)
    requires pos[l] in res[res[pos[j]].inputs[k]].inputs
    ensures orig[j].inputs[k] == l
  {
    var ins := InputSchemas(orig, j).value;
    var key: nat :| res[res[pos[j]].inputs[k]] == UnionWrapper(key, pos[orig[j].inputs[k]], ins[k], UnionSchema(ins));
    RebuiltOnce(res, pos, orig[j].inputs[k], l);
  }

  /** Whoever reads the rebuilt operator `l` in the validated plan is a
    * rebuilt operator `j` reading it directly as its input `k`, or the
    * casting foreach in front of input `k` of the rebuilt union `j`; either
    * way `l` is input `k` of `j` in the original plan. */
  lemma ReaderOfRebuilt(orig: seq<RelNode>, res: seq<RelNode>, pos: seq<nat>, l: nat, y: nat) returns (j: nat, k: nat)
    requires RelWellFormed(orig) && RelWellFormed(res) && ValidatedAt(orig, res, pos) && l < |orig| && y < |res|
    requires pos[l] in res[y].inputs
    ensures j < |orig| && k < |orig[j].inputs| && orig[j].inputs[k] == l && InputSchemas(orig, j).Ok?
    ensures (y == pos[j] && !Wraps(orig[j].op, InputSchemas(orig, j).value, k))
         || (WrapperAt(orig, res, pos, j, k) && y == res[pos[j]].inputs[k])
  {
    if y in pos {
      j :| 0 <= j < |pos| && pos[j] == y;
      assert RelRewrote(orig, res, pos, j) && Stretched(orig, res, pos, j);
      k :| 0 <= k < |res[y].inputs| && res[y].inputs[k] == pos[l];
      RebuiltReadsRebuilt(orig, res, pos, l, j, k);
    } else {
      j, k := NotRebuiltIsWrapper(orig, res, pos, y);
      WrapperReadsRebuilt(orig, res, pos, l, j, k);
    }
  }

  /** A casting foreach in the validated plan is read by its union alone. */
  lemma ReaderOfWrapper(orig: seq<RelNode>, res: seq<RelNode>, pos: seq<nat>, i: nat, k: nat, y: nat)
    requires RelWellFormed(orig) && RelWellFormed(res) && ValidatedAt(orig, res, pos) && WrapperAt(orig, res, pos, i, k)
    requires y < |res| && res[pos[i]].inputs[k] in res[y].inputs
    ensures y == pos[i]
  {
    var a := res[pos[i]].inputs[k];
    StretchHoldsNoRebuilt(res, pos, i, a);
    if y in pos {
      var j :| 0 <= j < |pos| && pos[j] == y;
      var k' :| 0 <= k' < |res[y].inputs| && res[y].inputs[k'] == a;
      RebuiltReadsWrapper(orig, res, pos, i, k, j, k');
    } else {
      var j, k'' := NotRebuiltIsWrapper(orig, res, pos, y);
      assert false;
    }
  }

  /** The only rebuilt operator that reads the casting foreach in front of
    * input `k` of union `i` is that union. */
  lemma RebuiltReadsWrapper(orig: seq<RelNode>, res: seq<RelNode>, pos: seq<nat>, i: nat, k: nat, j: nat, k': nat)
    requires RelWellFormed(orig) && RelWellFormed(res) && ValidatedAt(orig, res, pos) && WrapperAt(orig, res, pos, i, k)
    requires j < |pos| && pos[j] < |res| && k' < |res[pos[j]].inputs| && res[pos[j]].inputs[k'] == res[pos[i]].inputs[k]
    ensures j == i
  {
    var a := res[pos[i]].inputs[k];
    StretchHoldsNoRebuilt(res, pos, i, a);
    if j < i {
      LaidInOrder(res, pos, j, i);
      assert false;
    } else if i < j {
      LaidInOrder(res, pos, i, j);
      assert RelRewrote(orig, res, pos, j) && Stretched(orig, res, pos, j);
      DirectRead(orig, res, pos, j, k');
      assert false;
    }
  }

  /** The casting foreach in front of input `k` of a rebuilt union is a
    * foreach that reads the rebuilt input alone. */
  lemma WrapperOver(orig: seq<RelNode>, res: seq<RelNode>, pos: seq<nat>, i: nat, k: nat)
    requires WrapperAt(orig, res, pos, i, k)
    ensures var a := res[pos[i]].inputs[k];
      a < |res| && res[a].op.ForEach? && res[a].inputs == [pos[orig[i].inputs[k]]]
  {
    var ins := InputSchemas(orig, i).value;
    var key: nat :| res[res[pos[i]].inputs[k]] == UnionWrapper(key, pos[orig[i].inputs[k]], ins[k], UnionSchema(ins));
  }

  /** In a validated plan, an input a union reads through a casting foreach
    * is read through a foreach over that input's rebuilt operator. */
  lemma ValidatedWrapper(orig: seq<RelNode>, res: seq<RelNode>, pos: seq<nat>, i: nat, k: nat)
    requires RelWellFormed(orig) && RelWellFormed(res) && ValidatedAt(orig, res, pos) && i < |orig| && k < |orig[i].inputs|
    requires InputSchemas(orig, i).Ok? && Wraps(orig[i].op, InputSchemas(orig, i).value, k)
    ensures WrapperAt(orig, res, pos, i, k)
    ensures var a := res[pos[i]].inputs[k];
      a < |res| && res[a].op.ForEach? && res[a].inputs == [pos[orig[i].inputs[k]]]
  {
    assert RelRewrote(orig, res, pos, i) && Stretched(orig, res, pos, i);
    WrappedInput(orig, res, pos, i, k);
    WrapperOver(orig, res, pos, i, k);
  }

  /** A casting foreach in front of input `k` of a rebuilt union stands in
    * front of that input alone: the union reads it as no other input. */
  lemma WrapperServesOneInput(orig: seq<RelNode>, res: seq<RelNode>, pos: seq<nat>, i: nat, k: nat, k': nat)
    requires ValidatedAt(orig, res, pos) && WrapperAt(orig, res, pos, i, k)
    requires k' < |res[pos[i]].inputs| && res[pos[i]].inputs[k'] == res[pos[i]].inputs[k]
    ensures k' == k
  {
    assert Stretched(orig, res, pos, i);
    var ins := InputSchemas(orig, i).value;
    assert Wraps(orig[i].op, ins, k');
    assert OwnWrappers(orig[i].op, ins, res[pos[i]].inputs);
  }

  /** The wiring around input `k` of operator `i` after validation, when
    * no other operator reads that input in the original plan. If the
    * input is read through a casting foreach, the input's only reader is
    * that foreach, the foreach reads nothing else, and the foreach's only
    * reader is operator `i`. Otherwise operator `i` reads the input
    * directly and is its only reader. */
  lemma InputReaders(orig: seq<RelNode>, res: seq<RelNode>, pos: seq<nat>, i: nat, k: nat)
    requires RelWellFormed(orig) && RelWellFormed(res) && ValidatedAt(orig, res, pos)
    requires i < |orig| && k < |orig[i].inputs|
    requires forall y, k' :: 0 <= y < |orig| && 0 <= k' < |orig[y].inputs| && orig[y].inputs[k'] == orig[i].inputs[k] ==>
      y == i && k' == k
    ensures InputSchemas(orig, i).Ok? && pos[i] < |res| && k < |res[pos[i]].inputs| && orig[i].inputs[k] < |pos|
    ensures var l := orig[i].inputs[k]; var a := res[pos[i]].inputs[k];
      Wraps(orig[i].op, InputSchemas(orig, i).value, k) ==>
        WrapperAt(orig, res, pos, i, k) && res[a].inputs == [pos[l]]
        && (forall y :: 0 <= y < |res| && pos[l] in res[y].inputs ==> y == a)
        && (forall y :: 0 <= y < |res| && a in res[y].inputs ==> y == pos[i])
    ensures var l := orig[i].inputs[k]; var a := res[pos[i]].inputs[k];
      !Wraps(orig[i].op, InputSchemas(orig, i).value, k) ==>
        a == pos[l] && forall y :: 0 <= y < |res| && pos[l] in res[y].inputs ==> y == pos[i]
  {
    assert RelRewrote(orig, res, pos, i) && Stretched(orig, res, pos, i);
    var l := orig[i].inputs[k];
    var a := res[pos[i]].inputs[k];
    var ins := InputSchemas(orig, i).value;
    forall y | 0 <= y < |res| && pos[l] in res[y].inputs
      ensures if Wraps(orig[i].op, ins, k) then y == a else y == pos[i]
    {
      var j, k' := ReaderOfRebuilt(orig, res, pos, l, y);
    }
    if Wraps(orig[i].op, ins, k) {
      WrappedInput(orig, res, pos, i, k);
      forall y | 0 <= y < |res| && a in res[y].inputs
        ensures y == pos[i]
      {
        ReaderOfWrapper(orig, res, pos, i, k, y);
      }
    }
  }

  /** A checked filter or split condition that the rules accept ends in a
    * boolean leaf. */
  lemma CheckedConditionIsBoolean(op: RelOp, op': RelOp, ins: seq<Schema>)
    requires op.Filter? || op.SplitOutput?
    requires CheckedOp(op, op', ins) && RelRule(op, ins).Ok?
    ensures IsPlan(op'.cond) && LeafField(op'.cond).t == BOOLEAN
  {
    CheckedLeaf(op.cond, ins[0], op'.cond);
  }

  /** Every key plan of a checked cogroup ends in a leaf of its position's
    * group key type. */
  lemma CheckedKeyLeaves(gb: seq<seq<ExprPlan>>, inner: seq<bool>, op': RelOp, ins: seq<Schema>, k: nat, p: nat)
    requires CheckedOp(Cogroup(gb, inner), op', ins)
    requires k < |gb| && p < |gb[k]|
    ensures KeyFields(gb, ins).Ok? && Rectangular(KeyFields(gb, ins).value)
    ensures var types := KeyTypes(KeyFields(gb, ins).value);
      p < |types| && k < |op'.groupBy| && p < |op'.groupBy[k]|
      && IsPlan(op'.groupBy[k][p]) && LeafField(op'.groupBy[k][p]).t == types[p]
  {
    var t := CogroupKeyRewrote(gb, inner, op', ins, k, p);
    RewroteKeyLeaf(gb[k][p], ins[k], op'.groupBy[k][p], t);
  }

  /** A checked cogroup rewrote each of its key plans. */
  lemma CogroupKeyRewrote(gb: seq<seq<ExprPlan>>, inner: seq<bool>, op': RelOp, ins: seq<Schema>, k: nat, p: nat)
    returns (t: Type)
    requires CheckedOp(Cogroup(gb, inner), op', ins)
    requires k < |gb| && p < |gb[k]|
    ensures KeyFields(gb, ins).Ok? && Rectangular(KeyFields(gb, ins).value)
    ensures var types := KeyTypes(KeyFields(gb, ins).value);
      p < |types| && t == types[p] && k < |op'.groupBy| && p < |op'.groupBy[k]|
    ensures KeyRewrote(gb[k][p], ins[k], op'.groupBy[k][p], t)
  {
    t := KeyTypes(KeyFields(gb, ins).value)[p];
  }

  /** A rewritten key plan ends in a leaf of the type it was cast to. */
  lemma RewroteKeyLeaf(orig: ExprPlan, input: Schema, final: ExprPlan, t: Type)
    requires KeyRewrote(orig, input, final, t)
    ensures IsPlan(final) && LeafField(final).t == t
  {
    var checked :| IsCheckOf(orig, input, checked) && CastsLeaf(checked, final, t);
    var key: nat :| final == CastLeaf(checked, t, key);
  }

  /** A logical plan: its operators, every operator's inputs before it. */
  class LogicalPlan {
    var nodes: seq<RelNode>

    ghost predicate Valid()
      reads this
    {
      RelWellFormed(nodes)
    }

    constructor(operators: seq<RelNode>)
      requires RelWellFormed(operators)
      ensures nodes == operators && Valid()
    {
      nodes := operators;
    }

    /** Type-checks the plan. On success the plan is replaced by its
      * validated form and the collector gains no error; on failure the plan
      * is left as it was and the collector has an error. Inserted operators
      * and Cast nodes take their keys from a counter that starts at
      * `firstKey` and ends at `nextKey`, which is never below it. */
    method Validate(collector: MessageCollector, firstKey: nat) returns (failure: Option<Problem>, nextKey: nat)
      requires Valid()
      modifies this, collector
      ensures Valid()
      ensures failure.None? ==> forall i :: 0 <= i < |old(nodes)| ==> RelInfer(old(nodes), i).Ok?
      ensures failure.Some? ==>
        exists i :: 0 <= i < |old(nodes)| && RelInfer(old(nodes), i).Err? && forall j :: 0 <= j < i ==> RelInfer(old(nodes), j).Ok?
      ensures failure.None? ==> IsValidationOf(old(nodes), nodes)
      ensures failure.None? ==> (collector.HasError() <==> old(collector.HasError()))
      ensures failure.Some? ==> nodes == old(nodes) && collector.HasError()
      ensures nextKey >= firstKey
      ensures Extends(old(collector.messages), collector.messages)
    {
      var orig := nodes;
      var out: seq<RelNode> := [];
      var pos: seq<nat> := [];
      nextKey := firstKey;
      ghost var log0 := collector.messages;
      ghost var hadError := collector.HasError();
      var i := 0;
      while i < |orig|
        invariant 0 <= i <= |orig| && |pos| == i
        invariant nodes == orig
        invariant RelWellFormed(out) && Annotated(out)
        invariant forall j :: 0 <= j < i ==> RelRewrote(orig, out, pos, j) && Stretched(orig, out, pos, j)
        invariant Laid(out, pos)
        invariant nextKey >= firstKey
        invariant Extends(log0, collector.messages)
        invariant collector.HasError() <==> hadError
      {
        ghost var log1 := collector.messages;
        RebuiltInfer(orig, out, pos, i);
        failure, out, pos, nextKey := RewriteRel(orig, out, pos, i, collector, nextKey);
        ExtendsTransitive(log0, log1, collector.messages);
        if failure.Some? {
          return failure, nextKey;
        }
        i := i + 1;
      }
      RebuiltInfer(orig, out, pos, |orig|);
      assert ValidatedAt(orig, out, pos);
      nodes := out;
      failure := None;
    }
  }
}
