/** Worked expression plans: the typing the rules give to small plans of
  * constants, operators and casts, the casts they ask for, and the shape
  * of a checked plan around an inserted cast. Plans read no rows (the
  * input schema is empty) unless they project. */
module ExpressionScenarios {
  import opened Wrappers
  import opened DataTypes
  import opened Schemas
  import opened Diagnostics
  import opened ExpressionPlans
  import opened ExpressionChecker

  /** A constant node whose planner-given type is `t`. */
  function Lit(key: nat, t: Type): ExprNode {
    ExprNode(key, Const, [], Atom(t))
  }

  /** An operator node not typed yet. */
  function Apply(key: nat, op: ExprOp, args: seq<nat>): ExprNode {
    ExprNode(key, op, args, Atom(UNKNOWN))
  }

  /** A node without operands is typed by its rule alone. */
  lemma Leaf(nodes: seq<ExprNode>, i: nat, input: Schema)
    requires WellFormed(nodes) && i < |nodes| && nodes[i].args == []
    ensures Typed(nodes, i, input) == TypeNode(nodes[i].op, nodes[i].fs, [], input)
  {
    TypedStep(nodes, i, input, []);
  }

  /** A node over two constants is typed by its rule over their declared
    * fields. */
  lemma OverConstants(nodes: seq<ExprNode>, i: nat, input: Schema)
    requires WellFormed(nodes) && i < |nodes| && |nodes[i].args| == 2
    requires nodes[nodes[i].args[0]].op == Const && nodes[nodes[i].args[0]].args == []
    requires nodes[nodes[i].args[1]].op == Const && nodes[nodes[i].args[1]].args == []
    ensures Typed(nodes, i, input)
         == TypeNode(nodes[i].op, nodes[i].fs, Fields([Typing(nodes[nodes[i].args[0]].fs, []), Typing(nodes[nodes[i].args[1]].fs, [])]), input)
  {
    var a, b := nodes[i].args[0], nodes[i].args[1];
    Leaf(nodes, a, input);
    Leaf(nodes, b, input);
    TypedFrom(nodes, i, input, [Typing(nodes[a].fs, []), Typing(nodes[b].fs, [])]);
  }

  /** A node over one constant is typed by its rule over the constant's
    * declared field. */
  lemma OverConstant(nodes: seq<ExprNode>, i: nat, input: Schema)
    requires WellFormed(nodes) && i < |nodes| && |nodes[i].args| == 1
    requires nodes[nodes[i].args[0]].op == Const && nodes[nodes[i].args[0]].args == []
    ensures Typed(nodes, i, input) == TypeNode(nodes[i].op, nodes[i].fs, Fields([Typing(nodes[nodes[i].args[0]].fs, [])]), input)
  {
    var a := nodes[i].args[0];
    Leaf(nodes, a, input);
    TypedFrom(nodes, i, input, [Typing(nodes[a].fs, [])]);
  }

  /** The typing of a constant of type `t`. */
  function Given(t: Type): Typing {
    Typing(Atom(t), [])
  }

  /** (INTEGER + DOUBLE) * (CHARARRAY cast to BYTEARRAY). */
  function MixedArithmetic(k: nat): (p: seq<ExprNode>)
    ensures WellFormed(p)
  {
    [ Lit(k, INTEGER), Lit(k + 1, DOUBLE), Lit(k + 2, CHARARRAY),
      Apply(k + 3, Cast(Atom(BYTEARRAY)), [2]),
      Apply(k + 4, Add, [0, 1]),
      Apply(k + 5, Multiply, [4, 3]) ]
  }

  /** The sum is DOUBLE with its INTEGER side cast to DOUBLE. */
  lemma MixedArithmeticSum(k: nat)
    ensures Typed(MixedArithmetic(k), 4, []) == Ok(Typing(Atom(DOUBLE), [Some(DOUBLE), None]))
  {
    OverConstants(MixedArithmetic(k), 4, []);
  }

  /** The explicit cast of the CHARARRAY constant to BYTEARRAY is accepted. */
  lemma MixedArithmeticCast(k: nat)
    ensures Typed(MixedArithmetic(k), 3, []) == Ok(Typing(Atom(BYTEARRAY), [None]))
  {
    OverConstant(MixedArithmetic(k), 3, []);
  }

  /** The product of the sum and the cast is DOUBLE with its BYTEARRAY side
    * cast to DOUBLE. */
  lemma MixedArithmeticTypes(k: nat)
    ensures Typed(MixedArithmetic(k), 5, []) == Ok(Typing(Atom(DOUBLE), [None, Some(DOUBLE)]))
  {
    MixedArithmeticSum(k);
    MixedArithmeticCast(k);
    TypedFrom(MixedArithmetic(k), 5, [], [Typing(Atom(DOUBLE), [Some(DOUBLE), None]), Typing(Atom(BYTEARRAY), [None])]);
  }

  /** not ((INTEGER - BYTEARRAY) > LONG and BOOLEAN). */
  function BooleanChain(k: nat): (p: seq<ExprNode>)
    ensures WellFormed(p)
  {
    [ Lit(k, INTEGER), Lit(k + 1, BYTEARRAY), Lit(k + 2, LONG), Lit(k + 3, BOOLEAN),
      Apply(k + 4, Subtract, [0, 1]),
      Apply(k + 5, GreaterThan, [4, 2]),
      Apply(k + 6, And, [5, 3]),
      Apply(k + 7, Not, [6]) ]
  }

  /** The difference is INTEGER, its BYTEARRAY side cast to INTEGER. */
  lemma BooleanChainDifference(k: nat)
    ensures Typed(BooleanChain(k), 4, []) == Ok(Typing(Atom(INTEGER), [None, Some(INTEGER)]))
  {
    OverConstants(BooleanChain(k), 4, []);
  }

  /** The comparison is BOOLEAN and casts the INTEGER difference to LONG. */
  lemma BooleanChainComparison(k: nat)
    ensures Typed(BooleanChain(k), 5, []) == Ok(Typing(Atom(BOOLEAN), [Some(LONG), None]))
  {
    var p := BooleanChain(k);
    BooleanChainDifference(k);
    Leaf(p, 2, []);
    var ts := [Typing(Atom(INTEGER), [None, Some(INTEGER)]), Given(LONG)];
    assert p[5] == Apply(k + 5, GreaterThan, [4, 2]);
    assert Fields(ts) == [Atom(INTEGER), Atom(LONG)];
    TypedFrom(p, 5, [], ts);
  }

  /** The and of the comparison with a BOOLEAN is BOOLEAN and casts nothing. */
  lemma BooleanChainConjunction(k: nat)
    ensures Typed(BooleanChain(k), 6, []) == Ok(Typing(Atom(BOOLEAN), [None, None]))
  {
    var p := BooleanChain(k);
    BooleanChainComparison(k);
    Leaf(p, 3, []);
    var ts := [Typing(Atom(BOOLEAN), [Some(LONG), None]), Given(BOOLEAN)];
    assert p[6] == Apply(k + 6, And, [5, 3]);
    assert Fields(ts) == [Atom(BOOLEAN), Atom(BOOLEAN)];
    TypedFrom(p, 6, [], ts);
    AndBooleans();
  }

  /** The and of two BOOLEAN operands is BOOLEAN and casts nothing. */
  lemma AndBooleans()
    ensures TypeNode(And, Atom(UNKNOWN), [Atom(BOOLEAN), Atom(BOOLEAN)], []) == Ok(Typing(Atom(BOOLEAN), [None, None]))
  {
  }

  /** The not over the and is BOOLEAN and casts nothing. */
  lemma BooleanChainTypes(k: nat)
    ensures Typed(BooleanChain(k), 7, []) == Ok(Typing(Atom(BOOLEAN), [None]))
  {
    var p := BooleanChain(k);
    var ts := [Typing(Atom(BOOLEAN), [None, None])];
    BooleanChainConjunction(k);
    assert p[7] == Apply(k + 7, Not, [6]);
    assert Fields(ts) == [Atom(BOOLEAN)];
    TypedFrom(p, 7, [], ts);
    NotBoolean();
  }

  /** The not of a BOOLEAN is BOOLEAN and casts nothing. */
  lemma NotBoolean()
    ensures TypeNode(Not, Atom(UNKNOWN), [Atom(BOOLEAN)], []) == Ok(Typing(Atom(BOOLEAN), [None]))
  {
  }

  /** (BYTEARRAY % LONG) == INTEGER. */
  function ModEqual(k: nat): (p: seq<ExprNode>)
    ensures WellFormed(p)
  {
    [ Lit(k, BYTEARRAY), Lit(k + 1, LONG), Lit(k + 2, INTEGER),
      Apply(k + 3, Mod, [0, 1]),
      Apply(k + 4, Equal, [3, 2]) ]
  }

  /** The remainder is LONG, its BYTEARRAY side cast to LONG. */
  lemma ModEqualRemainder(k: nat)
    ensures Typed(ModEqual(k), 3, []) == Ok(Typing(Atom(LONG), [Some(LONG), None]))
  {
    OverConstants(ModEqual(k), 3, []);
  }

  /** The equality is BOOLEAN and casts its INTEGER side to LONG. */
  lemma ModEqualTypes(k: nat)
    ensures Typed(ModEqual(k), 4, []) == Ok(Typing(Atom(BOOLEAN), [None, Some(LONG)]))
  {
    var p := ModEqual(k);
    ModEqualRemainder(k);
    Leaf(p, 2, []);
    TypedFrom(p, 4, [], [Typing(Atom(LONG), [Some(LONG), None]), Given(INTEGER)]);
  }

  /** (INTEGER / DOUBLE) != (CHARARRAY cast to BYTEARRAY). */
  function DivideNotEqual(k: nat): (p: seq<ExprNode>)
    ensures WellFormed(p)
  {
    [ Lit(k, INTEGER), Lit(k + 1, DOUBLE), Lit(k + 2, CHARARRAY),
      Apply(k + 3, Divide, [0, 1]),
      Apply(k + 4, Cast(Atom(BYTEARRAY)), [2]),
      Apply(k + 5, NotEqual, [3, 4]) ]
  }

  /** The quotient is DOUBLE, its INTEGER side cast to DOUBLE. */
  lemma DivideNotEqualQuotient(k: nat)
    ensures Typed(DivideNotEqual(k), 3, []) == Ok(Typing(Atom(DOUBLE), [Some(DOUBLE), None]))
  {
    OverConstants(DivideNotEqual(k), 3, []);
  }

  /** The explicit cast of the CHARARRAY constant to BYTEARRAY is accepted. */
  lemma DivideNotEqualCast(k: nat)
    ensures Typed(DivideNotEqual(k), 4, []) == Ok(Typing(Atom(BYTEARRAY), [None]))
  {
    OverConstant(DivideNotEqual(k), 4, []);
  }

  /** The inequality is BOOLEAN and casts its BYTEARRAY side to DOUBLE. */
  lemma DivideNotEqualTypes(k: nat)
    ensures Typed(DivideNotEqual(k), 5, []) == Ok(Typing(Atom(BOOLEAN), [None, Some(DOUBLE)]))
  {
    DivideNotEqualQuotient(k);
    DivideNotEqualCast(k);
    var p := DivideNotEqual(k);
    var ts := [Typing(Atom(DOUBLE), [Some(DOUBLE), None]), Typing(Atom(BYTEARRAY), [None])];
    assert p[5] == Apply(k + 5, NotEqual, [3, 4]);
    assert Fields(ts) == [Atom(DOUBLE), Atom(BYTEARRAY)];
    TypedFrom(p, 5, [], ts);
  }

  /** (FLOAT <= LONG) ? FLOAT : DOUBLE. */
  function Conditional(k: nat): (p: seq<ExprNode>)
    ensures WellFormed(p)
  {
    [ Lit(k, FLOAT), Lit(k + 1, LONG), Lit(k + 2, FLOAT), Lit(k + 3, DOUBLE),
      Apply(k + 4, LessThanEqual, [0, 1]),
      Apply(k + 5, BinCond, [4, 2, 3]) ]
  }

  /** The comparison is BOOLEAN with both sides FLOAT, the LONG side cast. */
  lemma ConditionalTest(k: nat)
    ensures Typed(Conditional(k), 4, []) == Ok(Typing(Atom(BOOLEAN), [None, Some(FLOAT)]))
  {
    OverConstants(Conditional(k), 4, []);
  }

  /** The conditional is DOUBLE with its FLOAT branch cast to DOUBLE. */
  lemma ConditionalTypes(k: nat)
    ensures Typed(Conditional(k), 5, []) == Ok(Typing(Atom(DOUBLE), [None, Some(DOUBLE), None]))
  {
    var p := Conditional(k);
    ConditionalTest(k);
    Leaf(p, 2, []);
    Leaf(p, 3, []);
    var ts := [Typing(Atom(BOOLEAN), [None, Some(FLOAT)]), Given(FLOAT), Given(DOUBLE)];
    assert p[5] == Apply(k + 5, BinCond, [4, 2, 3]);
    assert Fields(ts) == [Atom(BOOLEAN), Atom(FLOAT), Atom(DOUBLE)];
    TypedFrom(p, 5, [], ts);
    BinCondFloatDouble();
  }

  /** A conditional choosing between FLOAT and DOUBLE is DOUBLE, with its
    * FLOAT branch cast. */
  lemma BinCondFloatDouble()
    ensures TypeNode(BinCond, Atom(UNKNOWN), [Atom(BOOLEAN), Atom(FLOAT), Atom(DOUBLE)], [])
      == Ok(Typing(Atom(DOUBLE), [None, Some(DOUBLE), None]))
  {
  }

  /** CHARARRAY + LONG. */
  function TextPlusLong(k: nat): (p: seq<ExprNode>)
    ensures WellFormed(p)
  {
    [Lit(k, CHARARRAY), Lit(k + 1, LONG), Apply(k + 2, Add, [0, 1])]
  }

  /** Text and a number cannot be added. */
  lemma TextPlusLongRejected(k: nat)
    ensures Typed(TextPlusLong(k), 2, []) == Err(ArithmeticOperands)
  {
    OverConstants(TextPlusLong(k), 2, []);
  }

  /** (INTEGER > BYTEARRAY) == LONG. */
  function BooleanEqualsLong(k: nat): (p: seq<ExprNode>)
    ensures WellFormed(p)
  {
    [ Lit(k, INTEGER), Lit(k + 1, BYTEARRAY), Lit(k + 2, LONG),
      Apply(k + 3, GreaterThan, [0, 1]),
      Apply(k + 4, Equal, [3, 2]) ]
  }

  /** The inner comparison is accepted, its BYTEARRAY side cast to INTEGER. */
  lemma BooleanEqualsLongInner(k: nat)
    ensures Typed(BooleanEqualsLong(k), 3, []) == Ok(Typing(Atom(BOOLEAN), [None, Some(INTEGER)]))
  {
    OverConstants(BooleanEqualsLong(k), 3, []);
  }

  /** The BOOLEAN result of the inner comparison cannot be compared with a
    * number. */
  lemma BooleanEqualsLongRejected(k: nat)
    ensures Typed(BooleanEqualsLong(k), 4, []) == Err(ComparisonOperands)
  {
    var p := BooleanEqualsLong(k);
    BooleanEqualsLongInner(k);
    Leaf(p, 2, []);
    var ts := [Typing(Atom(BOOLEAN), [None, Some(INTEGER)]), Given(LONG)];
    assert p[4] == Apply(k + 4, Equal, [3, 2]);
    assert Fields(ts) == [Atom(BOOLEAN), Atom(LONG)];
    TypedFrom(p, 4, [], ts);
    EqualBooleanLong();
  }

  /** Equality between a BOOLEAN and a LONG is rejected. */
  lemma EqualBooleanLong()
    ensures TypeNode(Equal, Atom(UNKNOWN), [Atom(BOOLEAN), Atom(LONG)], []) == Err(ComparisonOperands)
  {
  }

  /** A tuple of four integers. */
  const IntQuad: FieldSchema := FieldSchema(None, TUPLE, [Atom(INTEGER), Atom(INTEGER), Atom(INTEGER), Atom(INTEGER)])

  /** A tuple (chararray, int, tuple of four integers). */
  const NestedTuple: FieldSchema := FieldSchema(None, TUPLE, [Atom(CHARARRAY), Atom(INTEGER), IntQuad])

  /** Three chararrays. */
  const TextTriple: FieldSchema := FieldSchema(None, TUPLE, [Atom(CHARARRAY), Atom(CHARARRAY), Atom(CHARARRAY)])

  /** (four integers cast to a tuple of three chararrays) == the nested tuple. */
  function TupleEquality(k: nat): (p: seq<ExprNode>)
    ensures WellFormed(p)
  {
    [ ExprNode(k, Const, [], IntQuad),
      ExprNode(k + 1, Const, [], NestedTuple),
      Apply(k + 2, Cast(TextTriple), [0]),
      Apply(k + 3, Equal, [2, 1]) ]
  }

  /** The explicit cast of the four integers to three chararrays is
    * accepted. */
  lemma TupleEqualityCast(k: nat)
    ensures Typed(TupleEquality(k), 2, []) == Ok(Typing(TextTriple, [None]))
  {
    assert Castable(IntQuad, TextTriple);
    OverConstant(TupleEquality(k), 2, []);
  }

  /** Two tuples compare to a BOOLEAN with neither side cast. */
  lemma TupleEqualityTypes(k: nat)
    ensures Typed(TupleEquality(k), 3, []) == Ok(Typing(Atom(BOOLEAN), [None, None]))
  {
    var p := TupleEquality(k);
    TupleEqualityCast(k);
    Leaf(p, 1, []);
    TypedFrom(p, 3, [], [Typing(TextTriple, [None]), Typing(NestedTuple, [])]);
  }

  /** Four chararray-chararray-int-chararray fields. */
  const MixedQuad: FieldSchema := FieldSchema(None, TUPLE, [Atom(CHARARRAY), Atom(CHARARRAY), Atom(INTEGER), Atom(CHARARRAY)])

  /** The right-hand constant (chararray, int, mixed quad). */
  const MixedNested: FieldSchema := FieldSchema(None, TUPLE, [Atom(CHARARRAY), Atom(INTEGER), MixedQuad])

  /** The cast target (chararray, chararray, double, int). */
  const BadTarget: FieldSchema := FieldSchema(None, TUPLE, [Atom(CHARARRAY), Atom(CHARARRAY), Atom(DOUBLE), Atom(INTEGER)])

  /** (mixed quad cast to the bad target) == mixed nested tuple. */
  function TupleBadCast(k: nat): (p: seq<ExprNode>)
    ensures WellFormed(p)
  {
    [ ExprNode(k, Const, [], MixedQuad),
      ExprNode(k + 1, Const, [], MixedNested),
      Apply(k + 2, Cast(BadTarget), [0]),
      Apply(k + 3, Equal, [2, 1]) ]
  }

  /** A tuple cast that turns a chararray field into an integer is rejected,
    * and so is the comparison above it. */
  lemma TupleBadCastRejected(k: nat)
    ensures Typed(TupleBadCast(k), 2, []) == Err(IllegalCast)
    ensures Typed(TupleBadCast(k), 3, []) == Err(IllegalCast)
  {
    var p := TupleBadCast(k);
    Leaf(p, 0, []);
    assert !Castable(MixedQuad.inner[3], BadTarget.inner[3]);
    TypedFrom(p, 2, [], [Typing(MixedQuad, [])]);
  }

  /** CHARARRAY matches, BYTEARRAY matches through a cast, INTEGER does not. */
  function TextMatch(k: nat): (p: seq<ExprNode>)
    ensures WellFormed(p)
  {
    [Lit(k, CHARARRAY), Apply(k + 1, Regexp("Regex"), [0])]
  }

  function BytesMatch(k: nat): (p: seq<ExprNode>)
    ensures WellFormed(p)
  {
    [Lit(k, BYTEARRAY), Apply(k + 1, Regexp("Regex"), [0])]
  }

  function NumberMatch(k: nat): (p: seq<ExprNode>)
    ensures WellFormed(p)
  {
    [Lit(k, INTEGER), Apply(k + 1, Regexp("Regex"), [0])]
  }

  /** A match is BOOLEAN; a BYTEARRAY subject is cast to CHARARRAY. */
  lemma RegexpTypes(k: nat)
    ensures Typed(TextMatch(k), 1, []) == Ok(Typing(Atom(BOOLEAN), [None]))
    ensures Typed(BytesMatch(k), 1, []) == Ok(Typing(Atom(BOOLEAN), [Some(CHARARRAY)]))
  {
    OverConstant(TextMatch(k), 1, []);
    OverConstant(BytesMatch(k), 1, []);
  }

  /** An INTEGER subject of a match is rejected. */
  lemma NumberMatchRejected(k: nat)
    ensures Typed(NumberMatch(k), 1, []) == Err(RegexpSubject)
  {
    OverConstant(NumberMatch(k), 1, []);
  }

  /** After checking, the BYTEARRAY subject of a match is read through a
    * CHARARRAY cast whose operand is the original constant. */
  lemma BytesMatchChecked(k: nat, q: ExprPlan)
    requires IsCheckOf(ExprPlan(BytesMatch(k)), [], q)
    ensures LeafField(q).t == BOOLEAN
    ensures var m := q.nodes[|q.nodes| - 1];
      |m.args| == 1 && m.args[0] < |q.nodes| && q.nodes[m.args[0]].op.Cast? && q.nodes[m.args[0]].fs.t == CHARARRAY
      && |q.nodes[m.args[0]].args| == 1 && q.nodes[m.args[0]].args[0] < |q.nodes|
      && q.nodes[q.nodes[m.args[0]].args[0]].key == k
  {
    RegexpTypes(k);
    CheckedLeaf(ExprPlan(BytesMatch(k)), [], q);
    CheckedOperand(ExprPlan(BytesMatch(k)), [], q, 0);
  }

  /** INTEGER * DOUBLE. */
  function IntTimesDouble(k: nat): (p: seq<ExprNode>)
    ensures WellFormed(p)
  {
    [Lit(k, INTEGER), Lit(k + 1, DOUBLE), Apply(k + 2, Multiply, [0, 1])]
  }

  /** The untyped product is typed DOUBLE, its INTEGER side cast. */
  lemma IntTimesDoubleTypes(k: nat)
    ensures IntTimesDouble(k)[2].fs.t == UNKNOWN
    ensures Typed(IntTimesDouble(k), 2, []) == Ok(Typing(Atom(DOUBLE), [Some(DOUBLE), None]))
  {
    OverConstants(IntTimesDouble(k), 2, []);
  }

  /** -INTEGER - LONG. */
  function NegativeMinusLong(k: nat): (p: seq<ExprNode>)
    ensures WellFormed(p)
  {
    [Lit(k, INTEGER), Apply(k + 1, Negative, [0]), Lit(k + 2, LONG), Apply(k + 3, Subtract, [1, 2])]
  }

  /** The untyped difference is typed LONG, its negated INTEGER side cast. */
  lemma NegativeMinusLongTypes(k: nat)
    ensures NegativeMinusLong(k)[3].fs.t == UNKNOWN
    ensures Typed(NegativeMinusLong(k), 3, []) == Ok(Typing(Atom(LONG), [Some(LONG), None]))
  {
    var p := NegativeMinusLong(k);
    OverConstant(p, 1, []);
    Leaf(p, 2, []);
    TypedFrom(p, 3, [], [Typing(Atom(INTEGER), [None]), Given(LONG)]);
  }

  /** BYTEARRAY % LONG. */
  function BytesModLong(k: nat): (p: seq<ExprNode>)
    ensures WellFormed(p)
  {
    [Lit(k, BYTEARRAY), Lit(k + 1, LONG), Apply(k + 2, Mod, [0, 1])]
  }

  /** The untyped remainder is typed LONG, its BYTEARRAY side cast. */
  lemma BytesModLongTypes(k: nat)
    ensures BytesModLong(k)[2].fs.t == UNKNOWN
    ensures Typed(BytesModLong(k), 2, []) == Ok(Typing(Atom(LONG), [Some(LONG), None]))
  {
    OverConstants(BytesModLong(k), 2, []);
  }

  /** After checking, the difference reads the negation through a LONG cast
    * and the remainder reads the BYTEARRAY constant through a LONG cast;
    * their right sides are used as they are. */
  lemma CastInsertChecked(k: nat, q1: ExprPlan, q2: ExprPlan)
    requires IsCheckOf(ExprPlan(NegativeMinusLong(k)), [], q1)
    requires IsCheckOf(ExprPlan(BytesModLong(k)), [], q2)
    ensures LeafField(q1).t == LONG && LeafField(q2).t == LONG
    ensures var m := q1.nodes[|q1.nodes| - 1];
      |m.args| == 2 && m.args[0] < |q1.nodes| && q1.nodes[m.args[0]].op.Cast? && q1.nodes[m.args[0]].fs.t == LONG
      && |q1.nodes[m.args[0]].args| == 1 && q1.nodes[m.args[0]].args[0] < |q1.nodes|
      && q1.nodes[q1.nodes[m.args[0]].args[0]].key == k + 1
      && m.args[1] < |q1.nodes| && q1.nodes[m.args[1]].key == k + 2
    ensures var m := q2.nodes[|q2.nodes| - 1];
      |m.args| == 2 && m.args[0] < |q2.nodes| && q2.nodes[m.args[0]].op.Cast? && q2.nodes[m.args[0]].fs.t == LONG
      && |q2.nodes[m.args[0]].args| == 1 && q2.nodes[m.args[0]].args[0] < |q2.nodes|
      && q2.nodes[q2.nodes[m.args[0]].args[0]].key == k
      && m.args[1] < |q2.nodes| && q2.nodes[m.args[1]].key == k + 1
  {
    NegativeMinusLongTypes(k);
    BytesModLongTypes(k);
    CheckedLeaf(ExprPlan(NegativeMinusLong(k)), [], q1);
    CheckedOperand(ExprPlan(NegativeMinusLong(k)), [], q1, 0);
    CheckedOperand(ExprPlan(NegativeMinusLong(k)), [], q1, 1);
    CheckedLeaf(ExprPlan(BytesModLong(k)), [], q2);
    CheckedOperand(ExprPlan(BytesModLong(k)), [], q2, 0);
    CheckedOperand(ExprPlan(BytesModLong(k)), [], q2, 1);
  }
}
