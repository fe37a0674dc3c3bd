/** The physical filter operator: it pulls rows from its input, evaluates
  * its predicate plan on each, and hands on the rows the predicate accepts
  * until its input reports end of processing. Rows are integer tuples;
  * predicates are built from column projections, integer constants,
  * greater-than, equal-to and a short-circuit and. */
module PhysicalFilter {
  import opened Wrappers

  /** A tuple of integer columns. */
  type Row = seq<int>

  /** A predicate plan over one row. */
  datatype Expr =
    | Project(column: nat)
    | Const(value: int)
    | GreaterThan(lhs: Expr, rhs: Expr)
    | EqualTo(lhs: Expr, rhs: Expr)
    | And(lhs: Expr, rhs: Expr)

  datatype Value = Int(i: int) | Bool(b: bool)

  /** The value of `e` on `row`; None plays the part of a null result: a
    * projection past the end of the row, or an operand of the wrong kind. */
  function Eval(e: Expr, row: Row): (v: Option<Value>)
    ensures e.Project? ==> (v.Some? <==> e.column < |row|)
    ensures e.Project? && e.column < |row| ==> v == Some(Int(row[e.column]))
    ensures e.GreaterThan? || e.EqualTo? || e.And? ==> v.None? || v.value.Bool?
  {
    match e
    case Project(c) => if c < |row| then Some(Int(row[c])) else None
    case Const(x) => Some(Int(x))
    case GreaterThan(l, r) =>
      var a, b := Eval(l, row), Eval(r, row);
      if a.Some? && a.value.Int? && b.Some? && b.value.Int? then Some(Bool(a.value.i > b.value.i)) else None
    case EqualTo(l, r) =>
      var a, b := Eval(l, row), Eval(r, row);
      if a.Some? && a.value.Int? && b.Some? && b.value.Int? then Some(Bool(a.value.i == b.value.i)) else None
    case And(l, r) =>
      var a := Eval(l, row);
      if a.None? || !a.value.Bool? then None
      else if !a.value.b then Some(Bool(false))
      else
        var b := Eval(r, row);
        if b.Some? && b.value.Bool? then b else None
  }

  /** The predicate accepts the row: it evaluates to true (not false, not null). */
  predicate Holds(e: Expr, row: Row) {
    Eval(e, row) == Some(Bool(true))
  }

  /** The kinds of value an expression produces. */
  datatype Kind = IntKind | BoolKind

  /** The kind of `e` over rows of `width` columns, if it is well typed. */
  function KindOf(e: Expr, width: nat): Option<Kind> {
    match e
    case Project(c) => if c < width then Some(IntKind) else None
    case Const(_) => Some(IntKind)
    case GreaterThan(l, r) =>
      if KindOf(l, width) == Some(IntKind) && KindOf(r, width) == Some(IntKind) then Some(BoolKind) else None
    case EqualTo(l, r) =>
      if KindOf(l, width) == Some(IntKind) && KindOf(r, width) == Some(IntKind) then Some(BoolKind) else None
    case And(l, r) =>
      if KindOf(l, width) == Some(BoolKind) && KindOf(r, width) == Some(BoolKind) then Some(BoolKind) else None
  }

  /** A well-typed expression never evaluates to null on a row of the
    * width it was typed for, and its value has the kind it was typed with. */
  lemma {:induction false} EvalTotal(e: Expr, row: Row)
    requires KindOf(e, |row|).Some?
    ensures Eval(e, row).Some?
    ensures Eval(e, row).value.Int? <==> KindOf(e, |row|) == Some(IntKind)
  {
    match e
    case Project(_) =>
    case Const(_) =>
    case GreaterThan(l, r) =>
      EvalTotal(l, row);
      EvalTotal(r, row);
    case EqualTo(l, r) =>
      EvalTotal(l, row);
      EvalTotal(r, row);
    case And(l, r) =>
      EvalTotal(l, row);
      EvalTotal(r, row);
  }

  /** A well-typed and accepts exactly the rows both conjuncts accept. */
  lemma AndHolds(l: Expr, r: Expr, row: Row)
    requires KindOf(And(l, r), |row|).Some?
    ensures Holds(And(l, r), row) <==> Holds(l, row) && Holds(r, row)
  {
    EvalTotal(l, row);
    EvalTotal(r, row);
  }

  /** The rows of `rows` the predicate accepts, in input order. */
  function Filtered(rows: seq<Row>, e: Expr): (out: seq<Row>)
    ensures |out| <= |rows|
  {
    if rows == [] then []
    else if Holds(e, rows[0]) then [rows[0]] + Filtered(rows[1..], e)
    else Filtered(rows[1..], e)
  }

  /** Every row the filter emits is an input row the predicate accepts. */
  lemma {:induction false} FilteredSound(rows: seq<Row>, e: Expr)
    ensures forall x :: x in Filtered(rows, e) ==> x in rows && Holds(e, x)
  {
    if rows != [] {
      FilteredSound(rows[1..], e);
    }
  }

  /** Every input row the predicate accepts is emitted. */
  lemma {:induction false} FilteredComplete(rows: seq<Row>, e: Expr)
    ensures forall x :: x in rows && Holds(e, x) ==> x in Filtered(rows, e)
  {
    if rows != [] {
      FilteredComplete(rows[1..], e);
      assert forall x :: x in rows ==> x == rows[0] || x in rows[1..];
    }
  }

  /** Filtering keeps the input order: filtering a concatenation filters
    * each part. */
  lemma {:induction false} FilteredAppend(a: seq<Row>, b: seq<Row>, e: Expr)
    ensures Filtered(a + b, e) == Filtered(a, e) + Filtered(b, e)
  {
    if a != [] {
      assert (a + b)[1..] == a[1..] + b;
      FilteredAppend(a[1..], b, e);
    } else {
      assert a + b == b;
    }
  }

  /** What one pull from the filter returns. */
  datatype Status = StatusOk(row: Row) | StatusEop

  /** One pull: the first row of `rows` the predicate accepts and the rows
    * after it, or end of processing once the rows run out. */
  function Pull(rows: seq<Row>, e: Expr): (r: (Status, seq<Row>))
    ensures |r.1| <= |rows| && r.1 == rows[|rows| - |r.1|..]
    ensures r.0.StatusOk? ==> |r.1| < |rows| && Holds(e, r.0.row) && Filtered(rows, e) == [r.0.row] + Filtered(r.1, e)
    ensures r.0.StatusEop? ==> r.1 == [] && Filtered(rows, e) == []
  {
    if rows == [] then (StatusEop, [])
    else if Holds(e, rows[0]) then (StatusOk(rows[0]), rows[1..])
    else Pull(rows[1..], e)
  }

  /** A filter operator with its predicate plan and the rows still to come
    * from its input. */
  class POFilter {
    var plan: Expr
    var input: seq<Row>

    /** A filter reading `rows` from the operator connected before it. */
    constructor(plan: Expr, rows: seq<Row>)
      ensures this.plan == plan && input == rows
    {
      this.plan := plan;
      input := rows;
    }

    /** Makes `t` the only row the filter reads next. */
    method AttachInput(t: Row)
      modifies this
      ensures input == [t] && plan == old(plan)
    {
      input := [t];
    }

    /** Reads rows until one passes the predicate and returns it, or
      * returns end of processing once the input is exhausted. */
    method GetNext() returns (status: Status)
      modifies this
      ensures (status, input) == Pull(old(input), plan)
      ensures plan == old(plan)
    {
      while input != []
        invariant plan == old(plan)
        invariant Pull(input, plan) == Pull(old(input), plan)
        decreases |input|
      {
        var row := input[0];
        input := input[1..];
        if Holds(plan, row) {
          return StatusOk(row);
        }
      }
      return StatusEop;
    }

    /** Pulls until end of processing, collecting every row returned. */
    method Drain() returns (outbag: seq<Row>, last: Status)
      modifies this
      ensures outbag == Filtered(old(input), plan) && last == StatusEop
      ensures input == [] && plan == old(plan)
    {
      outbag := [];
      while true
        invariant plan == old(plan)
        invariant outbag + Filtered(input, plan) == Filtered(old(input), plan)
        decreases |input|
      {
        last := GetNext();
        if last.StatusEop? {
          return;
        }
        outbag := outbag + [last.row];
      }
    }
  }

  /** A filter whose condition holds hands on the attached row; one whose
    * condition fails reports end of processing. */
  lemma ConstantFilters(t: Row)
    ensures Pull([t], GreaterThan(Const(50), Const(25))) == (StatusOk(t), [])
    ensures Pull([t], GreaterThan(Const(25), Const(50))) == (StatusEop, [])
  {
    assert Eval(Const(50), t) == Some(Int(50)) && Eval(Const(25), t) == Some(Int(25));
    assert Holds(GreaterThan(Const(50), Const(25)), t) && !Holds(GreaterThan(Const(25), Const(50)), t);
    assert [t][1..] == [];
  }

  /** Every row emitted by the filter `column 1 > 50` is an input row whose
    * column 1 exceeds 50. */
  lemma ColumnFilterEmits(rows: seq<Row>)
    ensures forall x :: x in Filtered(rows, GreaterThan(Project(1), Const(50))) ==> x in rows && |x| > 1 && x[1] > 50
  {
    var e := GreaterThan(Project(1), Const(50));
    FilteredSound(rows, e);
    forall x | Holds(e, x)
      ensures |x| > 1 && x[1] > 50
    {
      assert Eval(Const(50), x) == Some(Int(50));
      assert Eval(Project(1), x).Some?;
    }
  }

  /** The rows (0,1), (1,0), (1,1) of the simple and the conjunctive filter. */
  const SampleRows: seq<Row> := [[0, 1], [1, 0], [1, 1]]

  /** `column 0 > column 1` keeps exactly (1,0), a two-column row. */
  lemma SimpleFilterScenario()
    ensures Filtered(SampleRows, GreaterThan(Project(0), Project(1))) == [[1, 0]]
  {
    var e := GreaterThan(Project(0), Project(1));
    assert !Holds(e, [0, 1]) && Holds(e, [1, 0]) && !Holds(e, [1, 1]);
    assert SampleRows[1..][1..] == [[1, 1]];
  }

  /** `column 0 > 0 and column 1 == 1` keeps exactly (1,1). */
  lemma AndFilterScenario()
    ensures Filtered(SampleRows, And(GreaterThan(Project(0), Const(0)), EqualTo(Project(1), Const(1)))) == [[1, 1]]
  {
    var e := And(GreaterThan(Project(0), Const(0)), EqualTo(Project(1), Const(1)));
    assert !Holds(e, [0, 1]) && !Holds(e, [1, 0]) && Holds(e, [1, 1]);
    assert SampleRows[1..][1..] == [[1, 1]];
  }
}
