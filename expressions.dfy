/** Expression plans and their typing rules. A plan is a list of nodes in
  * which every node's operands come before it; the last node is the
  * plan's leaf, the value the plan produces. `TypeNode` is the rule for
  * one node, and `Typed` applies it throughout the plan, operands first:
  * it is the reference the validator's rewriting is proved against. */
module ExpressionPlans {
  import opened Wrappers
  import opened DataTypes
  import opened Schemas
  import opened Diagnostics

  datatype ExprOp =
    | Const                       // a literal; the planner sets its type
    | Project(cols: seq<nat>)     // columns of the input row, or of its one operand
    | Cast(target: FieldSchema)
    | Negative
    | Not
    | Add | Subtract | Multiply | Divide | Mod
    | Equal | NotEqual | GreaterThan | GreaterThanEqual | LessThan | LessThanEqual
    | And | Or
    | Regexp(pattern: string)     // the pattern is a string, not an operand
    | BinCond                     // condition, then-branch, else-branch
  {
    predicate IsArithmetic() {
      Add? || Subtract? || Multiply? || Divide? || Mod?
    }

    predicate IsComparison() {
      Equal? || NotEqual? || GreaterThan? || GreaterThanEqual? || LessThan? || LessThanEqual?
    }
  }

  /** A node: its operator key, its operator, the positions of its operands,
    * and its field schema (the planner's type for a constant; after
    * validation, the inferred type of every node). */
  datatype ExprNode = ExprNode(key: nat, op: ExprOp, args: seq<nat>, fs: FieldSchema)

  datatype ExprPlan = ExprPlan(nodes: seq<ExprNode>)

  /** How many operands each operator takes. */
  predicate ArityOk(op: ExprOp, n: nat) {
    match op
    case Const => n == 0
    case Project(_) => n <= 1
    case Cast(_) => n == 1
    case Negative => n == 1
    case Not => n == 1
    case Regexp(_) => n == 1
    case BinCond => n == 3
    case _ => n == 2
  }

  /** Every node has as many operands as its operator takes, and they come
    * before it. */
  predicate WellFormed(nodes: seq<ExprNode>) {
    forall i :: 0 <= i < |nodes| ==>
      ArityOk(nodes[i].op, |nodes[i].args|) && forall k :: 0 <= k < |nodes[i].args| ==> nodes[i].args[k] < i
  }

  /** A plan the validator accepts as input: well formed, with a leaf. */
  predicate IsPlan(p: ExprPlan) {
    |p.nodes| > 0 && WellFormed(p.nodes)
  }

  /** The field the plan produces, read from its leaf. */
  function LeafField(p: ExprPlan): FieldSchema
    requires |p.nodes| > 0
  {
    p.nodes[|p.nodes| - 1].fs
  }

  /** The result of typing one node: its field schema, and for each operand
    * the type it must be cast to (None: used as it is). */
  datatype Typing = Typing(fs: FieldSchema, casts: seq<Option<Type>>)

  /** No operand is cast. */
  function NoCasts(n: nat): (cs: seq<Option<Type>>)
    ensures |cs| == n && forall k :: 0 <= k < n ==> cs[k].None?
  {
    seq(n, k => None)
  }

  /** The typing rule for one node whose operands have the fields
    * `operands`, in a plan that reads rows of schema `input`. */
  function TypeNode(op: ExprOp, declared: FieldSchema, operands: seq<FieldSchema>, input: Schema): (r: Result<Typing, Problem>)
    requires ArityOk(op, |operands|)
    ensures r.Ok? ==> |r.value.casts| == |operands|
    ensures r.Ok? && (op.IsComparison() || op.And? || op.Or? || op.Not? || op.Regexp?) ==> r.value.fs.t == BOOLEAN
  {
    match op
    case Const => Ok(Typing(declared, []))
    case Project(cols) =>
      var src := if |operands| == 0 then Row(input) else operands[0];
      var f := ProjectField(src, cols);
      if f.Some? then Ok(Typing(f.value, NoCasts(|operands|))) else Err(ProjectionOutOfRange)
    case Cast(target) =>
      if Castable(operands[0], target) then Ok(Typing(target, [None])) else Err(IllegalCast)
    case Negative =>
      if IsNumericOrBytes(operands[0].t) then Ok(Typing(Atom(operands[0].t), [None])) else Err(ArithmeticOperands)
    case Not =>
      if operands[0].t == BOOLEAN then Ok(Typing(Atom(BOOLEAN), [None])) else Err(BooleanOperands)
    case And =>
      if operands[0].t == BOOLEAN && operands[1].t == BOOLEAN then Ok(Typing(Atom(BOOLEAN), [None, None]))
      else Err(BooleanOperands)
    case Or =>
      if operands[0].t == BOOLEAN && operands[1].t == BOOLEAN then Ok(Typing(Atom(BOOLEAN), [None, None]))
      else Err(BooleanOperands)
    case Regexp(_) =>
      if operands[0].t == CHARARRAY then Ok(Typing(Atom(BOOLEAN), [None]))
      else if operands[0].t == BYTEARRAY then Ok(Typing(Atom(BOOLEAN), [Some(CHARARRAY)]))
      else Err(RegexpSubject)
    case BinCond =>
      var l := operands[1].t;
      var r := operands[2].t;
      var m := BinCondType(l, r);
      if operands[0].t == BOOLEAN && m.Some? then
        Ok(Typing(Atom(m.value), [None, CastTo(l, m.value), CastTo(r, m.value)]))
      else Err(BinCondOperands)
    case Add | Subtract | Multiply | Divide | Mod =>
      var m := ArithmeticType(operands[0].t, operands[1].t);
      if m.Some? then Ok(Typing(Atom(m.value), [CastTo(operands[0].t, m.value), CastTo(operands[1].t, m.value)]))
      else Err(ArithmeticOperands)
    case Equal | NotEqual | GreaterThan | GreaterThanEqual | LessThan | LessThanEqual =>
      var m := ComparisonType(operands[0].t, operands[1].t);
      if m.Some? then Ok(Typing(Atom(BOOLEAN), [CastTo(operands[0].t, m.value), CastTo(operands[1].t, m.value)]))
      else Err(ComparisonOperands)
  }

  /** The typing of node `i`: its operands are typed first; the first
    * operand that fails makes the node fail. */
  function Typed(nodes: seq<ExprNode>, i: nat, input: Schema): Result<Typing, Problem>
    requires WellFormed(nodes) && i < |nodes|
    decreases i
  {
    var n := nodes[i];
    var results := seq(|n.args|, k requires 0 <= k < |n.args| => Typed(nodes, n.args[k], input));
    match AllOk(results)
    case Err(e) => Err(e)
    case Ok(typings) => TypeNode(n.op, n.fs, seq(|typings|, k requires 0 <= k < |typings| => typings[k].fs), input)
  }

  /** A node is typed only after all its operands are; it then says for
    * each operand whether to cast it, and comparisons and boolean
    * operators are BOOLEAN. */
  lemma TypedOperandsFirst(nodes: seq<ExprNode>, i: nat, input: Schema)
    requires WellFormed(nodes) && i < |nodes|
    ensures Typed(nodes, i, input).Ok? ==> forall k :: 0 <= k < |nodes[i].args| ==> Typed(nodes, nodes[i].args[k], input).Ok?
    ensures Typed(nodes, i, input).Ok? ==> |Typed(nodes, i, input).value.casts| == |nodes[i].args|
    ensures var n := nodes[i];
      Typed(nodes, i, input).Ok? && (n.op.IsComparison() || n.op.And? || n.op.Or? || n.op.Not? || n.op.Regexp?) ==>
        Typed(nodes, i, input).value.fs.t == BOOLEAN
  {
    var n := nodes[i];
    var results := seq(|n.args|, k requires 0 <= k < |n.args| => Typed(nodes, n.args[k], input));
    if Typed(nodes, i, input).Ok? {
      assert AllOk(results).Ok?;
      forall k | 0 <= k < |n.args|
        ensures Typed(nodes, n.args[k], input).Ok?
      {
        assert results[k].Ok?;
      }
    }
  }

  /** With its operands typed, a node is typed by its own rule. */
  lemma TypedStep(nodes: seq<ExprNode>, i: nat, input: Schema, operands: seq<FieldSchema>)
    requires WellFormed(nodes) && i < |nodes|
    requires |operands| == |nodes[i].args|
    requires forall k :: 0 <= k < |operands| ==>
      Typed(nodes, nodes[i].args[k], input).Ok? && Typed(nodes, nodes[i].args[k], input).value.fs == operands[k]
    ensures Typed(nodes, i, input) == TypeNode(nodes[i].op, nodes[i].fs, operands, input)
  {
    var n := nodes[i];
    var results := seq(|n.args|, k requires 0 <= k < |n.args| => Typed(nodes, n.args[k], input));
    var typings := AllOk(results).value;
    assert seq(|typings|, k requires 0 <= k < |typings| => typings[k].fs) == operands;
  }

  /** The field schemas of a list of typings. */
  function Fields(ts: seq<Typing>): (fs: seq<FieldSchema>)
    ensures |fs| == |ts| && forall k :: 0 <= k < |ts| ==> fs[k] == ts[k].fs
  {
    seq(|ts|, k requires 0 <= k < |ts| => ts[k].fs)
  }

  /** With the exact typings of its operands known (an operator takes at
    * most three), a node is typed by its own rule over their fields. */
  lemma TypedFrom(nodes: seq<ExprNode>, i: nat, input: Schema, ts: seq<Typing>)
    requires WellFormed(nodes) && i < |nodes| && |nodes[i].args| == |ts| <= 3
    requires |ts| > 0 ==> Typed(nodes, nodes[i].args[0], input) == Ok(ts[0])
    requires |ts| > 1 ==> Typed(nodes, nodes[i].args[1], input) == Ok(ts[1])
    requires |ts| > 2 ==> Typed(nodes, nodes[i].args[2], input) == Ok(ts[2])
    ensures Typed(nodes, i, input) == TypeNode(nodes[i].op, nodes[i].fs, Fields(ts), input)
  {
    var n := nodes[i];
    var results := seq(|n.args|, k requires 0 <= k < |n.args| => Typed(nodes, n.args[k], input));
    AllOkOfFew(results, ts);
  }

  /** The operand fields after the inserted casts have been applied. */
  function Applied(operands: seq<FieldSchema>, casts: seq<Option<Type>>): (r: seq<FieldSchema>)
    requires |casts| == |operands|
    ensures |r| == |operands|
  {
    seq(|operands|, k requires 0 <= k < |operands| =>
      if casts[k].Some? then Retype(operands[k], casts[k].value) else operands[k])
  }

  /** Typing is settled by one pass: a node whose operands already went
    * through the casts its rule asked for gets the same field again and
    * asks for no further cast. */
  lemma TypingSettles(op: ExprOp, declared: FieldSchema, operands: seq<FieldSchema>, input: Schema)
    requires ArityOk(op, |operands|)
    requires TypeNode(op, declared, operands, input).Ok?
    ensures TypeNode(op, declared, Applied(operands, TypeNode(op, declared, operands, input).value.casts), input)
      == Ok(Typing(TypeNode(op, declared, operands, input).value.fs, NoCasts(|operands|)))
  {
    var typing := TypeNode(op, declared, operands, input).value;
    var after := Applied(operands, typing.casts);
    if op.Const? || op.Project? || op.Cast? || op.Negative? || op.Not? || op.And? || op.Or? {
      assert typing.casts == NoCasts(|operands|);
      assert after == operands;
    } else if op.Regexp? {
      assert after[0].t == CHARARRAY;
      assert NoCasts(1) == [None];
    } else if op.BinCond? {
      var m := BinCondType(operands[1].t, operands[2].t).value;
      assert after[0] == operands[0];
      assert after[1].t == m && after[2].t == m;
      assert NoCasts(3) == [None, None, None];
    } else if op.IsArithmetic() {
      var m := ArithmeticType(operands[0].t, operands[1].t).value;
      assert after[0].t == m && after[1].t == m;
      assert ArithmeticType(m, m) == Some(m);
      assert NoCasts(2) == [None, None];
    } else {
      var m := ComparisonType(operands[0].t, operands[1].t).value;
      assert after[0].t == m && after[1].t == m;
      assert ComparisonType(m, m) == Some(m);
      assert NoCasts(2) == [None, None];
    }
  }

  /** Every cast the rule asks for changes the operand's type, and is legal. */
  lemma InsertedCastsAreLegal(op: ExprOp, declared: FieldSchema, operands: seq<FieldSchema>, input: Schema, k: nat)
    requires ArityOk(op, |operands|) && k < |operands|
    requires TypeNode(op, declared, operands, input).Ok?
    requires TypeNode(op, declared, operands, input).value.casts[k].Some?
    ensures TypeNode(op, declared, operands, input).value.casts[k].value != operands[k].t
    ensures ScalarCastable(operands[k].t, TypeNode(op, declared, operands, input).value.casts[k].value)
  {
    var t := TypeNode(op, declared, operands, input).value.casts[k].value;
    if op.BinCond? {
      WideningIsCastable(operands[k].t, t);
    } else if op.IsArithmetic() || op.IsComparison() {
      WideningIsCastable(operands[k].t, t);
    }
  }

  /** After validation an operator node other than a constant, a projection
    * or a cast has a known type: typing never yields UNKNOWN for it. */
  lemma ComputedTypeIsKnown(op: ExprOp, declared: FieldSchema, operands: seq<FieldSchema>, input: Schema)
    requires ArityOk(op, |operands|)
    requires !op.Const? && !op.Project? && !op.Cast?
    requires TypeNode(op, declared, operands, input).Ok?
    ensures TypeNode(op, declared, operands, input).value.fs.t != UNKNOWN
  {
  }

  /** Arithmetic on two BYTEARRAY operands is rejected, whatever the operator. */
  lemma ArithmeticOnTwoByteArraysFails(op: ExprOp, declared: FieldSchema, operands: seq<FieldSchema>, input: Schema)
    requires op.IsArithmetic() && |operands| == 2
    requires operands[0].t == BYTEARRAY && operands[1].t == BYTEARRAY
    ensures TypeNode(op, declared, operands, input) == Err(ArithmeticOperands)
  {
  }

  /** Of two numeric operands, exactly the narrower one is cast, to the
    * wider type, and the result has the wider type. */
  lemma ArithmeticCastsTheNarrowerOperand(op: ExprOp, declared: FieldSchema, operands: seq<FieldSchema>, input: Schema)
    requires op.IsArithmetic() && |operands| == 2
    requires IsNumeric(operands[0].t) && IsNumeric(operands[1].t)
    ensures TypeNode(op, declared, operands, input).Ok?
    ensures var w := Wider(operands[0].t, operands[1].t);
      TypeNode(op, declared, operands, input).value == Typing(Atom(w), [CastTo(operands[0].t, w), CastTo(operands[1].t, w)])
  {
    ArithmeticPromotesToWider(operands[0].t, operands[1].t);
  }
}
