/** The type tags of the logical plan and the rules that combine them:
  * numeric promotion, the untyped BYTEARRAY wildcard, and which scalar
  * conversions an explicit or inserted cast may perform. */
module DataTypes {
  import opened Wrappers

  /** The type a column or an expression node carries. UNKNOWN is the tag of
    * a node whose type has not been inferred yet, or of a union column whose
    * inputs could not be merged. */
  datatype Type = INTEGER | LONG | FLOAT | DOUBLE | CHARARRAY | BYTEARRAY | BOOLEAN | TUPLE | BAG | UNKNOWN

  predicate IsNumeric(t: Type) {
    t == INTEGER || t == LONG || t == FLOAT || t == DOUBLE
  }

  /** A numeric type, or BYTEARRAY, which can stand in for any numeric type. */
  predicate IsNumericOrBytes(t: Type) {
    IsNumeric(t) || t == BYTEARRAY
  }

  /** CHARARRAY, or BYTEARRAY standing in for it. */
  predicate IsText(t: Type) {
    t == CHARARRAY || t == BYTEARRAY
  }

  predicate IsComplex(t: Type) {
    t == TUPLE || t == BAG
  }

  /** Position in the promotion order INTEGER < LONG < FLOAT < DOUBLE. */
  function Rank(t: Type): (r: nat)
    requires IsNumeric(t)
    ensures r < 4
    ensures t == INTEGER <==> r == 0
    ensures t == DOUBLE <==> r == 3
  {
    match t
    case INTEGER => 0
    case LONG => 1
    case FLOAT => 2
    case _ => 3
  }

  /** The rank identifies the numeric type. */
  lemma RankInjective(a: Type, b: Type)
    requires IsNumeric(a) && IsNumeric(b) && Rank(a) == Rank(b)
    ensures a == b
  {
  }

  /** The wider of two numeric types. */
  function Wider(a: Type, b: Type): (r: Type)
    requires IsNumeric(a) && IsNumeric(b)
    ensures r == a || r == b
    ensures Rank(a) <= Rank(r) && Rank(b) <= Rank(r)
  {
    if Rank(a) >= Rank(b) then a else b
  }

  /** The type two values of types a and b are both widened to when they
    * meet: equal types stay, two numeric types go to the wider one, and
    * BYTEARRAY takes on the other side's type. None when there is no common
    * type (for instance CHARARRAY and LONG, or BOOLEAN and LONG). */
  function MergeType(a: Type, b: Type): (r: Option<Type>)
    ensures r.Some? ==> r.value == a || r.value == b
    ensures r.Some? ==> r.value != UNKNOWN
    ensures a == BYTEARRAY && b != UNKNOWN ==> r == Some(b)
  {
    if a == UNKNOWN || b == UNKNOWN then None
    else if a == b then Some(a)
    else if IsNumeric(a) && IsNumeric(b) then Some(Wider(a, b))
    else if a == BYTEARRAY then Some(b)
    else if b == BYTEARRAY then Some(a)
    else None
  }

  /** `a` can be widened to `u`: merging the two yields `u`. */
  predicate Below(a: Type, u: Type) {
    MergeType(a, u) == Some(u)
  }

  /** Below is the promotion order: a known type lies below itself, a
    * numeric type below every numeric type of at least its rank, BYTEARRAY
    * below every known type, and nothing else below anything. */
  lemma BelowIsPromotion(a: Type, u: Type)
    ensures Below(a, u) <==>
      (a == u && a != UNKNOWN) || (IsNumeric(a) && IsNumeric(u) && Rank(a) <= Rank(u)) || (a == BYTEARRAY && u != UNKNOWN)
  {
    if IsNumeric(a) && IsNumeric(u) && Rank(a) == Rank(u) {
      RankInjective(a, u);
    }
  }

  lemma MergeCommutative(a: Type, b: Type)
    ensures MergeType(a, b) == MergeType(b, a)
  {
  }

  /** A successful merge is an upper bound of both sides. */
  lemma MergeIsUpperBound(a: Type, b: Type)
    ensures MergeType(a, b).Some? ==> Below(a, MergeType(a, b).value) && Below(b, MergeType(a, b).value)
  {
  }

  /** A successful merge lies below every other upper bound of both sides,
    * and two types with a common upper bound always merge: MergeType is
    * the least upper bound under Below. */
  lemma MergeIsLeast(a: Type, b: Type, u: Type)
    ensures Below(a, u) && Below(b, u) ==> MergeType(a, b).Some? && Below(MergeType(a, b).value, u)
  {
    if Below(a, u) && Below(b, u) && IsNumeric(a) && IsNumeric(b) && a != b {
      assert IsNumeric(u);
      assert Rank(a) <= Rank(u) && Rank(b) <= Rank(u);
    }
  }

  /** Below is a partial order on the usable types. */
  lemma BelowIsPartialOrder(a: Type, b: Type, c: Type)
    ensures a != UNKNOWN ==> Below(a, a)
    ensures Below(a, b) && Below(b, a) ==> a == b
    ensures Below(a, b) && Below(b, c) ==> Below(a, c)
  {
  }

  /** Merging in either grouping gives the same answer, so folding the
    * merge over a list of inputs does not depend on how it is bracketed. */
  lemma MergeAssociative(a: Type, b: Type, c: Type)
    ensures MergeOpt(MergeType(a, b), Some(c)) == MergeOpt(Some(a), MergeType(b, c))
  {
  }

  /** MergeType lifted to partial results: a failure stays a failure. */
  function MergeOpt(x: Option<Type>, y: Option<Type>): (r: Option<Type>)
    ensures r.Some? ==> x.Some? && y.Some?
  {
    if x.Some? && y.Some? then MergeType(x.value, y.value) else None
  }

  /** The common type of the operands of +, -, *, / and %: both must be
    * numeric or BYTEARRAY, and not both BYTEARRAY; a BYTEARRAY side takes the
    * other side's numeric type. */
  function ArithmeticType(l: Type, r: Type): (t: Option<Type>)
    ensures t.Some? <==> IsNumericOrBytes(l) && IsNumericOrBytes(r) && !(l == BYTEARRAY && r == BYTEARRAY)
    ensures t.Some? ==> IsNumeric(t.value) && Below(l, t.value) && Below(r, t.value)
  {
    if IsNumericOrBytes(l) && IsNumericOrBytes(r) && !(l == BYTEARRAY && r == BYTEARRAY)
    then MergeType(l, r)
    else None
  }

  /** Two numeric operands meet at the wider of the two types. */
  lemma ArithmeticPromotesToWider(l: Type, r: Type)
    requires IsNumeric(l) && IsNumeric(r)
    ensures ArithmeticType(l, r) == Some(Wider(l, r))
  {
  }

  /** The type both operands of a comparison are brought to: numeric (or
    * BYTEARRAY) operands meet as for arithmetic, two BYTEARRAYs stay as
    * they are, CHARARRAY and BYTEARRAY meet at CHARARRAY, and two tuples
    * are compared without looking at their fields. */
  function ComparisonType(l: Type, r: Type): (t: Option<Type>)
    ensures t.Some? <==>
      (IsNumericOrBytes(l) && IsNumericOrBytes(r)) || (IsText(l) && IsText(r)) || (l == TUPLE && r == TUPLE)
    ensures t.Some? ==> Below(l, t.value) && Below(r, t.value)
  {
    if (IsNumericOrBytes(l) && IsNumericOrBytes(r)) || (IsText(l) && IsText(r)) || (l == TUPLE && r == TUPLE)
    then MergeType(l, r)
    else None
  }

  /** The type of a conditional expression's two branches: identical types,
    * or types that meet as for arithmetic. */
  function BinCondType(l: Type, r: Type): (t: Option<Type>)
    ensures t.Some? <==> (l == r && l != UNKNOWN) || ArithmeticType(l, r).Some?
    ensures t.Some? ==> Below(l, t.value) && Below(r, t.value)
  {
    if l == r && l != UNKNOWN then Some(l) else ArithmeticType(l, r)
  }

  /** Whether a value of scalar type `from` may be cast to the type `to`
    * (the target is not a tuple or a bag). CHARARRAY never becomes a number. */
  predicate ScalarCastable(from: Type, to: Type) {
    to != UNKNOWN && from != UNKNOWN &&
    (from == to
     || from == BYTEARRAY
     || (to == BYTEARRAY && !IsComplex(from))
     || (IsNumeric(from) && (IsNumeric(to) || to == CHARARRAY)))
  }

  /** Text never becomes a number or a boolean by a cast, while a number may
    * be cast to any number and to text, and BYTEARRAY to any known type. */
  lemma ScalarCastDirections(t: Type)
    ensures ScalarCastable(CHARARRAY, t) <==> t == CHARARRAY || t == BYTEARRAY
    ensures IsNumeric(t) ==> ScalarCastable(t, CHARARRAY) && forall u :: IsNumeric(u) ==> ScalarCastable(t, u)
    ensures ScalarCastable(BYTEARRAY, t) <==> t != UNKNOWN
  {
  }

  /** Every widening the merge rules ask for is a legal cast, so the casts
    * the validator inserts never need checking themselves. */
  lemma WideningIsCastable(a: Type, u: Type)
    requires Below(a, u) && !IsComplex(u)
    ensures ScalarCastable(a, u)
  {
  }

  /** The cast an operand of type `t` needs to reach `target`: none when it
    * already has that type. */
  function CastTo(t: Type, target: Type): Option<Type> {
    if t == target then None else Some(target)
  }

  /** Folds MergeType over the inputs from the first to the last; None as
    * soon as one step has no common type. */
  function FoldMerge(ts: seq<Type>): (r: Option<Type>)
    requires |ts| > 0
    ensures r.Some? ==> r.value in ts
  {
    if |ts| == 1 then Some(ts[0])
    else MergeOpt(FoldMerge(ts[..|ts| - 1]), Some(ts[|ts| - 1]))
  }

  /** A fold that yields a known type has seen only known types. */
  lemma {:induction false} FoldMergeKnown(ts: seq<Type>)
    requires |ts| > 0 && FoldMerge(ts).Some? && FoldMerge(ts).value != UNKNOWN
    ensures forall k :: 0 <= k < |ts| ==> ts[k] != UNKNOWN
  {
    if |ts| > 1 {
      var front := ts[..|ts| - 1];
      FoldMergeKnown(front);
      forall k | 0 <= k < |ts| - 1
        ensures ts[k] != UNKNOWN
      {
        assert ts[k] == front[k];
      }
    }
  }

  /** A successful fold is an upper bound of every input (when the inputs are
    * usable types). */
  lemma {:induction false} FoldMergeIsUpperBound(ts: seq<Type>)
    requires |ts| > 0 && FoldMerge(ts).Some?
    requires forall k :: 0 <= k < |ts| ==> ts[k] != UNKNOWN
    ensures forall k :: 0 <= k < |ts| ==> Below(ts[k], FoldMerge(ts).value)
  {
    if |ts| > 1 {
      var front := ts[..|ts| - 1];
      var last := ts[|ts| - 1];
      FoldMergeIsUpperBound(front);
      var p := FoldMerge(front).value;
      var r := FoldMerge(ts).value;
      assert MergeType(p, last) == Some(r);
      MergeIsUpperBound(p, last);
      forall k | 0 <= k < |ts|
        ensures Below(ts[k], r)
      {
        if k < |ts| - 1 {
          assert ts[k] == front[k];
          BelowIsPartialOrder(ts[k], p, r);
        }
      }
    }
  }

  /** If the inputs have any common upper bound `u`, the fold succeeds and
    * its result lies below `u`: the fold finds the least common type. */
  lemma {:induction false} FoldMergeIsLeast(ts: seq<Type>, u: Type)
    requires |ts| > 0
    requires forall k :: 0 <= k < |ts| ==> Below(ts[k], u)
    ensures FoldMerge(ts).Some? && Below(FoldMerge(ts).value, u)
  {
    if |ts| > 1 {
      var front := ts[..|ts| - 1];
      forall k | 0 <= k < |front|
        ensures Below(front[k], u)
      {
        assert front[k] == ts[k];
      }
      FoldMergeIsLeast(front, u);
      MergeIsLeast(FoldMerge(front).value, ts[|ts| - 1], u);
    }
  }

  /** The fold of numeric types is the widest of them. */
  lemma {:induction false} FoldMergeOfNumerics(ts: seq<Type>)
    requires |ts| > 0 && forall k :: 0 <= k < |ts| ==> IsNumeric(ts[k])
    ensures FoldMerge(ts).Some? && IsNumeric(FoldMerge(ts).value)
    ensures forall k :: 0 <= k < |ts| ==> Rank(ts[k]) <= Rank(FoldMerge(ts).value)
  {
    if |ts| > 1 {
      var front := ts[..|ts| - 1];
      assert forall k :: 0 <= k < |front| ==> front[k] == ts[k];
      FoldMergeOfNumerics(front);
    }
  }
}
