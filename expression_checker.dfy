/** Type-checking one expression plan. The plan is rebuilt node by node,
  * operands first: every node is copied with its inferred field schema,
  * and where its typing rule asks for an operand to be cast, a new Cast
  * node is added whose only operand is the original operand, and the
  * consumer is wired to the cast instead. The plan built so far replaces
  * the old one once every node has been typed. */
module ExpressionChecker {
  import opened Wrappers
  import opened DataTypes
  import opened Schemas
  import opened Diagnostics
  import opened ExpressionPlans

  /** The rewritten consumer reads operand `orig` through position `a`:
    * `orig` itself when no cast is asked for, otherwise a Cast node to the
    * asked-for type whose only operand is `orig`. */
  ghost predicate Wired(out: seq<ExprNode>, a: nat, orig: nat, cast: Option<Type>) {
    orig < |out| && a < |out| &&
    match cast
    case None => a == orig
    case Some(t) =>
      out[a].op == Cast(Retype(out[orig].fs, t)) && out[a].args == [orig] && out[a].fs == Retype(out[orig].fs, t)
  }

  /** Node `i` of the original plan sits at position `pos[i]` of the
    * rewritten one, with its key and operator, the field schema `Typed`
    * gives it, and each operand wired through the cast its rule asks for. */
  ghost predicate Rewrote(nodes: seq<ExprNode>, input: Schema, out: seq<ExprNode>, pos: seq<nat>, i: nat) {
    WellFormed(nodes) && i < |nodes| && i < |pos| && pos[i] < |out| && Typed(nodes, i, input).Ok? &&
    var n := nodes[i];
    var m := out[pos[i]];
    var typing := Typed(nodes, i, input).value;
    m.key == n.key && m.op == n.op && m.fs == typing.fs &&
    |m.args| == |n.args| && |typing.casts| == |n.args| &&
    forall k :: 0 <= k < |n.args| ==> n.args[k] < |pos| && Wired(out, m.args[k], pos[n.args[k]], typing.casts[k])
  }

  /** Every node of the original plan has been rewritten. */
  ghost predicate RewroteAll(nodes: seq<ExprNode>, input: Schema, out: seq<ExprNode>, pos: seq<nat>) {
    |pos| == |nodes| && forall i :: 0 <= i < |nodes| ==> Rewrote(nodes, input, out, pos, i)
  }

  /** `q` is what validating `p` against rows of schema `input` produces:
    * a well-formed plan in which every node of `p` was rewritten, and whose
    * leaf is the rewritten leaf of `p`. */
  ghost predicate IsCheckOf(p: ExprPlan, input: Schema, q: ExprPlan) {
    IsPlan(p) && IsPlan(q) &&
    exists pos :: RewroteAll(p.nodes, input, q.nodes, pos) && pos[|p.nodes| - 1] == |q.nodes| - 1
  }

  /** The leaf of a checked plan carries the type `Typed` gives the
    * original leaf. */
  lemma CheckedLeaf(p: ExprPlan, input: Schema, q: ExprPlan)
    requires IsCheckOf(p, input, q)
    ensures Typed(p.nodes, |p.nodes| - 1, input).Ok?
    ensures LeafField(q) == Typed(p.nodes, |p.nodes| - 1, input).value.fs
  {
    var pos :| RewroteAll(p.nodes, input, q.nodes, pos) && pos[|p.nodes| - 1] == |q.nodes| - 1;
    assert Rewrote(p.nodes, input, q.nodes, pos, |p.nodes| - 1);
  }

  /** Operand `k` of the leaf of a checked plan: when the leaf's rule asks
    * for no cast, the rewritten leaf reads the rewritten operand itself
    * (same key, its inferred field); otherwise it reads a Cast node to the
    * asked-for type whose only operand is the rewritten original operand. */
  lemma CheckedOperand(p: ExprPlan, input: Schema, q: ExprPlan, k: nat)
    requires IsCheckOf(p, input, q)
    requires k < |p.nodes[|p.nodes| - 1].args|
    ensures var last := |p.nodes| - 1;
      Typed(p.nodes, last, input).Ok? && |Typed(p.nodes, last, input).value.casts| == |p.nodes[last].args|
    ensures var last := |p.nodes| - 1; var n := p.nodes[last]; var m := q.nodes[|q.nodes| - 1];
      m.key == n.key && |m.args| == |n.args| && m.args[k] < |q.nodes| && Typed(p.nodes, n.args[k], input).Ok? &&
      match Typed(p.nodes, last, input).value.casts[k]
      case None =>
        q.nodes[m.args[k]].key == p.nodes[n.args[k]].key
        && q.nodes[m.args[k]].fs == Typed(p.nodes, n.args[k], input).value.fs
      case Some(t) =>
        var c := q.nodes[m.args[k]];
        c.op.Cast? && c.fs.t == t && |c.args| == 1 && c.args[0] < |q.nodes|
        && q.nodes[c.args[0]].key == p.nodes[n.args[k]].key
        && q.nodes[c.args[0]].fs == Typed(p.nodes, n.args[k], input).value.fs
  {
    var last := |p.nodes| - 1;
    var pos :| RewroteAll(p.nodes, input, q.nodes, pos) && pos[last] == |q.nodes| - 1;
    assert Rewrote(p.nodes, input, q.nodes, pos, last);
    var n := p.nodes[last];
    assert n.args[k] < last;
    assert Rewrote(p.nodes, input, q.nodes, pos, n.args[k]);
  }

  /** Rewriting facts survive appending to the rewritten plan. */
  lemma RewroteGrows(nodes: seq<ExprNode>, input: Schema, out: seq<ExprNode>, out': seq<ExprNode>,
                     pos: seq<nat>, pos': seq<nat>, i: nat)
    requires Rewrote(nodes, input, out, pos, i)
    requires |out| <= |out'| && out'[..|out|] == out
    requires |pos| <= |pos'| && pos'[..|pos|] == pos
    ensures Rewrote(nodes, input, out', pos', i)
  {
    var n := nodes[i];
    assert pos'[i] == pos[i];
    assert out'[pos[i]] == out[pos[i]];
    var typing := Typed(nodes, i, input).value;
    forall k | 0 <= k < |n.args|
      ensures n.args[k] < |pos'| && Wired(out', out'[pos'[i]].args[k], pos'[n.args[k]], typing.casts[k])
    {
      assert Wired(out, out[pos[i]].args[k], pos[n.args[k]], typing.casts[k]);
      assert pos'[n.args[k]] == pos[n.args[k]];
      var a := out[pos[i]].args[k];
      assert out'[a] == out[a];
      assert out'[pos[n.args[k]]] == out[pos[n.args[k]]];
    }
  }

  /** Appending node `i`, rewired to `args`, after the operands were wired
    * keeps every earlier node rewritten and rewrites node `i`. */
  lemma RewriteStep(nodes: seq<ExprNode>, input: Schema, out: seq<ExprNode>, pos: seq<nat>,
                    wired: seq<ExprNode>, args: seq<nat>, i: nat)
    requires WellFormed(nodes) && i < |nodes| && |pos| == i
    requires forall j :: 0 <= j < i ==> Rewrote(nodes, input, out, pos, j)
    requires |out| <= |wired| && wired[..|out|] == out
    requires Typed(nodes, i, input).Ok?
    requires |args| == |nodes[i].args| && |Typed(nodes, i, input).value.casts| == |args|
    requires forall k :: 0 <= k < |args| ==>
      nodes[i].args[k] < i && Wired(wired, args[k], pos[nodes[i].args[k]], Typed(nodes, i, input).value.casts[k])
    ensures var out' := wired + [ExprNode(nodes[i].key, nodes[i].op, args, Typed(nodes, i, input).value.fs)];
      forall j :: 0 <= j <= i ==> Rewrote(nodes, input, out', pos + [|wired|], j)
  {
    var n := nodes[i];
    var typing := Typed(nodes, i, input).value;
    var out' := wired + [ExprNode(n.key, n.op, args, typing.fs)];
    var pos' := pos + [|wired|];
    assert out'[..|out|] == out;
    assert pos'[..|pos|] == pos;
    forall j | 0 <= j < i
      ensures Rewrote(nodes, input, out', pos', j)
    {
      RewroteGrows(nodes, input, out, out', pos, pos', j);
    }
    forall k | 0 <= k < |n.args|
      ensures Wired(out', args[k], pos'[n.args[k]], typing.casts[k])
    {
      assert Wired(wired, args[k], pos[n.args[k]], typing.casts[k]);
      assert pos'[n.args[k]] == pos[n.args[k]];
      assert out'[pos[n.args[k]]] == wired[pos[n.args[k]]];
      assert out'[args[k]] == wired[args[k]];
    }
    assert Rewrote(nodes, input, out', pos', i);
  }

  /** With its operands rewritten, node `i` is typed by its rule applied to
    * the fields its operands have in the rewritten plan. */
  lemma TypedFromRewritten(nodes: seq<ExprNode>, input: Schema, out: seq<ExprNode>, pos: seq<nat>, i: nat)
    requires WellFormed(nodes) && i < |nodes| && |pos| == i
    requires forall j :: 0 <= j < i ==> Rewrote(nodes, input, out, pos, j)
    ensures forall k :: 0 <= k < |nodes[i].args| ==> nodes[i].args[k] < i && pos[nodes[i].args[k]] < |out|
    ensures Typed(nodes, i, input) == TypeNode(nodes[i].op, nodes[i].fs,
      seq(|nodes[i].args|, k requires 0 <= k < |nodes[i].args| => out[pos[nodes[i].args[k]]].fs), input)
  {
    var n := nodes[i];
    assert forall k :: 0 <= k < |n.args| ==> n.args[k] < i && Rewrote(nodes, input, out, pos, n.args[k]);
    var operands := seq(|n.args|, k requires 0 <= k < |n.args| => out[pos[n.args[k]]].fs);
    TypedStep(nodes, i, input, operands);
  }

  /** A consumer's inputs `args` against the `base` positions that were
    * there before it: input `j` is read at a position appended for it
    * exactly when `wrapped[j]`, no two inputs share an appended position, and
    * every appended position is read. */
  ghost predicate FreshArgs(base: nat, size: nat, args: seq<nat>, wrapped: seq<bool>) {
    |wrapped| == |args| &&
    (forall j :: 0 <= j < |args| ==> if wrapped[j] then base <= args[j] < size else args[j] < base) &&
    (forall i, j :: 0 <= i < j < |args| && wrapped[i] && wrapped[j] ==> args[i] < args[j]) &&
    (forall x :: base <= x < size ==> x in args)
  }

  /** Reading one more position, either an old one or one appended just
    * now, keeps the record of appended positions. */
  lemma FreshArgsStep(base: nat, size: nat, args: seq<nat>, wrapped: seq<bool>, a: nat, appended: bool)
    requires FreshArgs(base, size, args, wrapped)
    requires if appended then a == size && base <= a else a < base
    ensures FreshArgs(base, if appended then size + 1 else size, args + [a], wrapped + [appended])
  {
    var args' := args + [a];
    var size' := if appended then size + 1 else size;
    forall x | base <= x < size'
      ensures x in args'
    {
      if x < size {
        assert x in args;
        var j :| 0 <= j < |args| && args[j] == x;
        assert args'[j] == x;
      } else {
        assert args'[|args|] == x;
      }
    }
  }

  /** Wires operand `k` after the operands before it: as it is, or through
    * a new Cast node appended to `out` with an INFO message. */
  method WireOperand(out0: seq<ExprNode>, out: seq<ExprNode>, args: seq<nat>, ghost wrapped: seq<bool>,
                     origs: seq<nat>, casts: seq<Option<Type>>, k: nat, collector: MessageCollector, firstKey: nat)
    returns (out': seq<ExprNode>, args': seq<nat>, nextKey: nat)
    requires |casts| == |origs| && k < |origs| && |args| == k
    requires |out0| <= |out| && out[..|out0|] == out0 && WellFormed(out)
    requires forall j :: 0 <= j < |origs| ==> origs[j] < |out0|
    requires forall j :: 0 <= j < k ==> Wired(out, args[j], origs[j], casts[j])
    requires FreshArgs(|out0|, |out|, args, wrapped)
    modifies collector
    ensures |out0| <= |out'| && out'[..|out0|] == out0 && WellFormed(out')
    ensures |args'| == k + 1 && forall j :: 0 <= j <= k ==> Wired(out', args'[j], origs[j], casts[j])
    ensures FreshArgs(|out0|, |out'|, args', wrapped + [casts[k].Some?])
    ensures nextKey >= firstKey
    ensures Extends(old(collector.messages), collector.messages)
    ensures collector.HasError() <==> old(collector.HasError())
  {
    var a := origs[k];
    match casts[k] {
      case None =>
        FreshArgsStep(|out0|, |out|, args, wrapped, a, false);
        out', args', nextKey := out, args + [a], firstKey;
      case Some(ty) =>
        var target := Retype(out[a].fs, ty);
        out' := out + [ExprNode(firstKey, Cast(target), [a], target)];
        forall j | 0 <= j < k
          ensures Wired(out', args[j], origs[j], casts[j])
        {
          assert Wired(out, args[j], origs[j], casts[j]);
        }
        assert out'[..|out0|] == out[..|out0|];
        FreshArgsStep(|out0|, |out|, args, wrapped, |out|, true);
        args' := args + [|out|];
        nextKey := firstKey + 1;
        collector.Collect(Info, CastInserted);
    }
  }

  /** Wires the operands at positions `origs` of `out` for one consumer:
    * each one is used as it is, or through a new Cast node appended to
    * `out` when `casts` asks for one. An INFO message is collected for every
    * cast added. */
  method WireOperands(out: seq<ExprNode>, origs: seq<nat>, casts: seq<Option<Type>>,
                      collector: MessageCollector, firstKey: nat)
    returns (out': seq<ExprNode>, args: seq<nat>, nextKey: nat)
    requires |casts| == |origs| && WellFormed(out)
    requires forall j :: 0 <= j < |origs| ==> origs[j] < |out|
    modifies collector
    ensures |out| <= |out'| && out'[..|out|] == out
    ensures WellFormed(out')
    ensures |args| == |origs|
    ensures forall j :: 0 <= j < |origs| ==> Wired(out', args[j], origs[j], casts[j])
    ensures FreshArgs(|out|, |out'|, args, seq(|casts|, j requires 0 <= j < |casts| => casts[j].Some?))
    ensures nextKey >= firstKey
    ensures |old(collector.messages)| <= |collector.messages|
    ensures collector.messages[..|old(collector.messages)|] == old(collector.messages)
    ensures collector.HasError() <==> old(collector.HasError())
  {
    out' := out;
    args := [];
    nextKey := firstKey;
    ghost var log0 := collector.messages;
    ghost var hadError := collector.HasError();
    ghost var flags := seq(|casts|, j requires 0 <= j < |casts| => casts[j].Some?);
    var k := 0;
    while k < |origs|
      invariant 0 <= k <= |origs| && |args| == k
      invariant |out| <= |out'| && out'[..|out|] == out
      invariant WellFormed(out')
      invariant forall j :: 0 <= j < k ==> Wired(out', args[j], origs[j], casts[j])
      invariant FreshArgs(|out|, |out'|, args, flags[..k])
      invariant nextKey >= firstKey
      invariant Extends(log0, collector.messages)
      invariant collector.HasError() <==> hadError
    {
      ghost var log1 := collector.messages;
      out', args, nextKey := WireOperand(out, out', args, flags[..k], origs, casts, k, collector, nextKey);
      ExtendsTransitive(log0, log1, collector.messages);
      assert flags[..k + 1] == flags[..k] + [flags[k]];
      k := k + 1;
    }
    assert flags[..k] == flags;
  }

  /** Types node `i`, whose operands are already rewritten, and appends it
    * (after the casts its operands need) to the rewritten plan; on failure
    * collects an ERROR message and reports the problem. */
  method RewriteNode(nodes: seq<ExprNode>, input: Schema, out: seq<ExprNode>, pos: seq<nat>, i: nat,
                     collector: MessageCollector, firstKey: nat)
    returns (failure: Option<Problem>, out': seq<ExprNode>, pos': seq<nat>, nextKey: nat)
    requires WellFormed(nodes) && i < |nodes| && |pos| == i && WellFormed(out)
    requires forall j :: 0 <= j < i ==> Rewrote(nodes, input, out, pos, j)
    modifies collector
    ensures failure.Some? ==> Typed(nodes, i, input) == Err(failure.value) && collector.HasError()
    ensures failure.None? ==>
      |pos'| == i + 1 && WellFormed(out') && pos'[i] == |out'| - 1
      && (forall j :: 0 <= j <= i ==> Rewrote(nodes, input, out', pos', j))
      && (collector.HasError() <==> old(collector.HasError()))
    ensures nextKey >= firstKey
    ensures |old(collector.messages)| <= |collector.messages|
    ensures collector.messages[..|old(collector.messages)|] == old(collector.messages)
  {
    var n := nodes[i];
    TypedFromRewritten(nodes, input, out, pos, i);
    var origs := seq(|n.args|, k requires 0 <= k < |n.args| => pos[n.args[k]]);
    var operands := seq(|n.args|, k requires 0 <= k < |n.args| => out[pos[n.args[k]]].fs);
    var t := TypeNode(n.op, n.fs, operands, input);
    if t.Err? {
      collector.Collect(Error, Failed(t.error));
      return Some(t.error), out, pos, firstKey;
    }
    var wired, args;
    wired, args, nextKey := WireOperands(out, origs, t.value.casts, collector, firstKey);
    RewriteStep(nodes, input, out, pos, wired, args, i);
    out' := wired + [ExprNode(n.key, n.op, args, t.value.fs)];
    pos' := pos + [|wired|];
    failure := None;
    assert WellFormed(out');
  }

  /** Every node rewritten so far has a reference type. */
  lemma RewroteTypes(nodes: seq<ExprNode>, input: Schema, out: seq<ExprNode>, pos: seq<nat>, i: nat)
    requires WellFormed(nodes) && i <= |nodes|
    requires forall j :: 0 <= j < i ==> Rewrote(nodes, input, out, pos, j)
    ensures forall j :: 0 <= j < i ==> Typed(nodes, j, input).Ok?
  {
    forall j | 0 <= j < i
      ensures Typed(nodes, j, input).Ok?
    {
      assert Rewrote(nodes, input, out, pos, j);
    }
  }

  /** Validates the expression plan `p`, whose projections read rows of
    * schema `input`. On success the result is the rewritten plan; on
    * failure the problem of the first node (in plan order) that does not
    * type-check is returned and an ERROR message is collected. The key
    * counter for inserted Cast nodes starts at `firstKey` and ends at
    * `nextKey`, which is never below it. */
  method CheckExpressionPlan(p: ExprPlan, input: Schema, collector: MessageCollector, firstKey: nat)
    returns (r: Result<ExprPlan, Problem>, nextKey: nat)
    requires IsPlan(p)
    modifies collector
    ensures r.Ok? ==> IsCheckOf(p, input, r.value)
    ensures r.Ok? <==> forall i :: 0 <= i < |p.nodes| ==> Typed(p.nodes, i, input).Ok?
    ensures r.Err? ==> exists i :: 0 <= i < |p.nodes| && Typed(p.nodes, i, input) == Err(r.error)
                                  && forall j :: 0 <= j < i ==> Typed(p.nodes, j, input).Ok?
    ensures nextKey >= firstKey
    ensures |old(collector.messages)| <= |collector.messages|
    ensures collector.messages[..|old(collector.messages)|] == old(collector.messages)
    ensures r.Ok? ==> (collector.HasError() <==> old(collector.HasError()))
    ensures r.Err? ==> collector.HasError()
  {
    var nodes := p.nodes;
    var out: seq<ExprNode> := [];
    var pos: seq<nat> := [];
    var key := firstKey;
    ghost var log0 := collector.messages;
    ghost var hadError := collector.HasError();
    var i := 0;
    while i < |nodes|
      invariant 0 <= i <= |nodes|
      invariant |pos| == i
      invariant WellFormed(out)
      invariant forall j :: 0 <= j < i ==> Rewrote(nodes, input, out, pos, j)
      invariant i > 0 ==> pos[i - 1] == |out| - 1
      invariant key >= firstKey
      invariant |log0| <= |collector.messages| && collector.messages[..|log0|] == log0
      invariant collector.HasError() <==> hadError
    {
      ghost var log1 := collector.messages;
      ghost var outBefore, posBefore := out, pos;
      var failure;
      failure, out, pos, key := RewriteNode(nodes, input, out, pos, i, collector, key);
      assert collector.messages[..|log0|] == log1[..|log0|] == log0;
      if failure.Some? {
        RewroteTypes(nodes, input, outBefore, posBefore, i);
        return Err(failure.value), key;
      }
      i := i + 1;
    }
    RewroteTypes(nodes, input, out, pos, |nodes|);
    assert RewroteAll(nodes, input, out, pos);
    return Ok(ExprPlan(out)), key;
  }
}
