/** Field schemas and the schema arithmetic of the relational operators:
  * projection, structural cast legality, the column-wise merge of a union,
  * the group column of a cogroup, and the concatenation performed by a
  * foreach (with flatten) and by a cross. */
module Schemas {
  import opened Wrappers
  import opened DataTypes

  /** One column: an optional alias, a type, and for a tuple or a bag the
    * schema of its elements. */
  datatype FieldSchema = FieldSchema(alias: Option<string>, t: Type, inner: seq<FieldSchema>)

  /** The ordered columns of a relation. */
  type Schema = seq<FieldSchema>

  /** An unnamed scalar column. */
  function Atom(t: Type): FieldSchema {
    FieldSchema(None, t, [])
  }

  /** The column `fs` seen through a scalar cast to `t`: same alias, new type. */
  function Retype(fs: FieldSchema, t: Type): FieldSchema {
    FieldSchema(fs.alias, t, [])
  }

  /** A relation's row as seen by a projection: a tuple of its columns. */
  function Row(s: Schema): FieldSchema {
    FieldSchema(None, TUPLE, s)
  }

  /** No UNKNOWN anywhere in the field or the fields nested in it. */
  predicate Usable(fs: FieldSchema)
    decreases fs
  {
    fs.t != UNKNOWN && forall i :: 0 <= i < |fs.inner| ==> Usable(fs.inner[i])
  }

  /** Whether a value described by `from` may be cast to `to`. A tuple or bag
    * target accepts BYTEARRAY, or a value of the same kind whose fields,
    * position by position, can be cast to every field the target names;
    * a scalar target follows ScalarCastable. */
  predicate Castable(from: FieldSchema, to: FieldSchema)
    decreases to
  {
    if IsComplex(to.t) then
      from.t == BYTEARRAY
      || (from.t == to.t && |to.inner| <= |from.inner|
          && forall i :: 0 <= i < |to.inner| ==> Castable(from.inner[i], to.inner[i]))
    else ScalarCastable(from.t, to.t)
  }

  /** Casting a usable field to its own schema is always legal. */
  lemma {:induction false} CastableReflexive(fs: FieldSchema)
    requires Usable(fs)
    ensures Castable(fs, fs)
    decreases fs
  {
    if IsComplex(fs.t) {
      forall i | 0 <= i < |fs.inner|
        ensures Castable(fs.inner[i], fs.inner[i])
      {
        CastableReflexive(fs.inner[i]);
      }
    }
  }

  /** A CHARARRAY column never casts to a number, however deep it sits. */
  lemma CharArrayNeverCastsToNumber(from: FieldSchema, to: FieldSchema)
    requires from.t == CHARARRAY && IsNumeric(to.t)
    ensures !Castable(from, to)
  {
  }

  /** A tuple or bag that is not BYTEARRAY casts to a tuple or bag only
    * when it has at least the fields the target names and each of those
    * casts: one field that cannot be cast, or one that is missing, makes
    * the whole cast illegal. */
  lemma CastableNeedsEveryField(from: FieldSchema, to: FieldSchema, i: nat)
    requires IsComplex(to.t) && from.t != BYTEARRAY && i < |to.inner|
    requires i >= |from.inner| || !Castable(from.inner[i], to.inner[i])
    ensures !Castable(from, to)
  {
  }

  /** A BYTEARRAY value may be cast to any field whose type is known, and a
    * tuple to a tuple with fewer fields when the fields it keeps cast. */
  lemma CastableFromBytesOrPrefix(from: FieldSchema, to: FieldSchema)
    ensures from.t == BYTEARRAY && to.t != UNKNOWN ==> Castable(from, to)
    ensures (IsComplex(to.t) && from.t == to.t && |to.inner| <= |from.inner|
             && forall i :: 0 <= i < |to.inner| ==> Castable(from.inner[i], to.inner[i])) ==> Castable(from, to)
  {
  }

  /** The columns of `s` at the positions `cols`, in that order. */
  function Columns(s: Schema, cols: seq<nat>): (r: Schema)
    requires forall j :: 0 <= j < |cols| ==> cols[j] < |s|
    ensures |r| == |cols|
    ensures forall j :: 0 <= j < |cols| ==> r[j] == s[cols[j]]
  {
    seq(|cols|, j requires 0 <= j < |cols| => s[cols[j]])
  }

  /** The field a projection of the positions `cols` produces when it reads
    * from `src` (a relation's row, or a tuple or bag column). One position of
    * a tuple gives that field itself; several positions, or any projection
    * of a bag, give a bag of the selected fields. A projection of a scalar,
    * an empty projection or a position past the last field has no type. */
  function ProjectField(src: FieldSchema, cols: seq<nat>): (r: Option<FieldSchema>)
    ensures r.Some? <==> IsComplex(src.t) && |cols| > 0 && forall j :: 0 <= j < |cols| ==> cols[j] < |src.inner|
    ensures r.Some? && src.t == TUPLE && |cols| == 1 ==> r.value == src.inner[cols[0]]
    ensures r.Some? && (src.t == BAG || |cols| > 1) ==>
      r.value.t == BAG && |r.value.inner| == |cols|
      && forall j :: 0 <= j < |cols| ==> r.value.inner[j] == src.inner[cols[j]]
  {
    if !IsComplex(src.t) || |cols| == 0 || exists j :: 0 <= j < |cols| && cols[j] >= |src.inner| then None
    else if src.t == TUPLE && |cols| == 1 then Some(src.inner[cols[0]])
    else Some(FieldSchema(None, BAG, Columns(src.inner, cols)))
  }

  /** The types of a list of columns. */
  function Types(fss: seq<FieldSchema>): (ts: seq<Type>)
    ensures |ts| == |fss|
    ensures forall k :: 0 <= k < |fss| ==> ts[k] == fss[k].t
  {
    seq(|fss|, k requires 0 <= k < |fss| => fss[k].t)
  }

  /** The first alias in input order, if any input names the column. */
  function FirstAlias(fss: seq<FieldSchema>): (a: Option<string>)
    ensures a.None? <==> forall k :: 0 <= k < |fss| ==> fss[k].alias.None?
    ensures a.Some? ==>
      exists k :: 0 <= k < |fss| && fss[k].alias == a && forall j :: 0 <= j < k ==> fss[j].alias.None?
  {
    if |fss| == 0 then None
    else if fss[0].alias.Some? then fss[0].alias
    else
      var a := FirstAlias(fss[1..]);
      assert forall k :: 1 <= k < |fss| ==> fss[k] == fss[1..][k - 1];
      a
  }

  /** Column `c` of every input, in input order. */
  function ColumnOf(inputs: seq<Schema>, c: nat): (fss: seq<FieldSchema>)
    requires forall k :: 0 <= k < |inputs| ==> c < |inputs[k]|
    ensures |fss| == |inputs|
    ensures forall k :: 0 <= k < |inputs| ==> fss[k] == inputs[k][c]
  {
    seq(|inputs|, k requires 0 <= k < |inputs| => inputs[k][c])
  }

  /** All inputs have as many columns as the first. */
  predicate SameWidth(inputs: seq<Schema>) {
    |inputs| > 0 && forall k :: 0 <= k < |inputs| ==> |inputs[k]| == |inputs[0]|
  }

  /** One output column of a union: the first alias any input gives it, the
    * common type of the inputs' columns (UNKNOWN when they have none), and
    * the nested schema of the first input. */
  function UnionColumn(fss: seq<FieldSchema>): (r: FieldSchema)
    requires |fss| > 0
    ensures r.t != UNKNOWN ==> exists k :: 0 <= k < |fss| && fss[k].t == r.t
    ensures r.inner == fss[0].inner
  {
    var m := FoldMerge(Types(fss));
    FieldSchema(FirstAlias(fss), if m.Some? then m.value else UNKNOWN, fss[0].inner)
  }

  /** The output schema of a union of inputs of equal width. */
  function UnionSchema(inputs: seq<Schema>): (r: Schema)
    requires SameWidth(inputs)
    ensures |r| == |inputs[0]|
  {
    seq(|inputs[0]|, c requires 0 <= c < |inputs[0]| => UnionColumn(ColumnOf(inputs, c)))
  }

  /** Each union column is typed with the least type every input's column
    * widens to, and is UNKNOWN exactly when the inputs have no common type. */
  lemma UnionColumnIsLeastCommonType(inputs: seq<Schema>, c: nat, u: Type)
    requires SameWidth(inputs) && c < |inputs[0]|
    requires forall k :: 0 <= k < |inputs| ==> inputs[k][c].t != UNKNOWN
    ensures UnionSchema(inputs)[c].t != UNKNOWN ==>
      forall k :: 0 <= k < |inputs| ==> Below(inputs[k][c].t, UnionSchema(inputs)[c].t)
    ensures (forall k :: 0 <= k < |inputs| ==> Below(inputs[k][c].t, u)) ==>
      UnionSchema(inputs)[c].t != UNKNOWN && Below(UnionSchema(inputs)[c].t, u)
    ensures UnionSchema(inputs)[c].alias == FirstAlias(ColumnOf(inputs, c))
  {
    var ts := Types(ColumnOf(inputs, c));
    assert forall k :: 0 <= k < |inputs| ==> ts[k] == inputs[k][c].t;
    if FoldMerge(ts).Some? {
      FoldMergeIsUpperBound(ts);
    }
    if forall k :: 0 <= k < |inputs| ==> Below(inputs[k][c].t, u) {
      FoldMergeIsLeast(ts, u);
    }
  }

  /** The type an input's column is cast to before a union: the union's
    * column type, unless the input already has it or the union column is
    * UNKNOWN (a column with no common type is left as it is). */
  function UnionCast(input: FieldSchema, output: FieldSchema): (c: Option<Type>)
    ensures c.Some? <==> input.t != output.t && output.t != UNKNOWN
    ensures c.Some? ==> c.value == output.t
  {
    if output.t == UNKNOWN then None else CastTo(input.t, output.t)
  }

  /** Whether an input of a union needs a casting foreach in front of it. */
  predicate NeedsUnionCasts(input: Schema, output: Schema)
    requires |input| == |output|
  {
    exists c :: 0 <= c < |input| && UnionCast(input[c], output[c]).Some?
  }

  /** The casts a union input needs are legal ones. */
  lemma UnionCastsAreLegal(inputs: seq<Schema>, k: nat, c: nat)
    requires SameWidth(inputs) && k < |inputs| && c < |inputs[0]|
    requires forall j :: 0 <= j < |inputs| ==> inputs[j][c].t != UNKNOWN
    requires UnionCast(inputs[k][c], UnionSchema(inputs)[c]).Some?
    ensures Castable(inputs[k][c], UnionSchema(inputs)[c])
  {
    UnionColumnIsLeastCommonType(inputs, c, BYTEARRAY);
    var out := UnionSchema(inputs)[c];
    assert Below(inputs[k][c].t, out.t);
  }

  /** The type of one position of a cogroup key: the common type of that
    * position's key in every input, or BYTEARRAY when there is none. */
  function GroupKeyType(ts: seq<Type>): (t: Type)
    requires |ts| > 0
    ensures FoldMerge(ts).Some? ==> t == FoldMerge(ts).value
    ensures FoldMerge(ts).None? ==> t == BYTEARRAY
  {
    var m := FoldMerge(ts);
    if m.Some? then m.value else BYTEARRAY
  }

  /** The group key type is the least type every input's key widens to;
    * when the keys have no common type it is BYTEARRAY, and then no type
    * at all lies above every key. */
  lemma GroupKeyTypeIsLeastOrBytes(ts: seq<Type>, u: Type)
    requires |ts| > 0
    requires forall k :: 0 <= k < |ts| ==> ts[k] != UNKNOWN
    ensures FoldMerge(ts).Some? ==> forall k :: 0 <= k < |ts| ==> Below(ts[k], GroupKeyType(ts))
    ensures (forall k :: 0 <= k < |ts| ==> Below(ts[k], u)) ==> Below(GroupKeyType(ts), u)
    ensures FoldMerge(ts).None? ==> GroupKeyType(ts) == BYTEARRAY && exists k :: 0 <= k < |ts| && !Below(ts[k], u)
  {
    if FoldMerge(ts).Some? {
      FoldMergeIsUpperBound(ts);
    }
    if forall k :: 0 <= k < |ts| ==> Below(ts[k], u) {
      FoldMergeIsLeast(ts, u);
    }
  }

  /** Every input's key can be cast to the group key type. */
  lemma GroupKeyCastsAreLegal(ts: seq<Type>, k: nat)
    requires |ts| > 0 && k < |ts|
    requires forall j :: 0 <= j < |ts| ==> ts[j] != UNKNOWN && !IsComplex(ts[j])
    ensures ScalarCastable(ts[k], GroupKeyType(ts))
  {
    if FoldMerge(ts).Some? {
      FoldMergeIsUpperBound(ts);
      assert Below(ts[k], GroupKeyType(ts));
      WideningIsCastable(ts[k], GroupKeyType(ts));
    }
  }

  /** The group column: the key's type when the key has one position, a
    * tuple of the key types otherwise. */
  function GroupField(keyTypes: seq<Type>): (fs: FieldSchema)
    requires |keyTypes| > 0
    ensures fs.alias == Some("group")
    ensures |keyTypes| == 1 ==> fs.t == keyTypes[0]
    ensures |keyTypes| > 1 ==> fs.t == TUPLE && Types(fs.inner) == keyTypes
  {
    if |keyTypes| == 1 then FieldSchema(Some("group"), keyTypes[0], [])
    else FieldSchema(Some("group"), TUPLE, seq(|keyTypes|, p requires 0 <= p < |keyTypes| => Atom(keyTypes[p])))
  }

  /** The output of a cogroup: the group column, then one bag per input
    * holding that input's rows. */
  function CogroupSchema(keyTypes: seq<Type>, inputs: seq<Schema>): (r: Schema)
    requires |keyTypes| > 0
    ensures |r| == 1 + |inputs|
    ensures r[0] == GroupField(keyTypes)
    ensures forall k :: 0 <= k < |inputs| ==> r[k + 1].t == BAG && r[k + 1].inner == inputs[k]
  {
    [GroupField(keyTypes)] + seq(|inputs|, k requires 0 <= k < |inputs| => FieldSchema(None, BAG, inputs[k]))
  }

  /** The parts laid end to end. */
  function Concat(parts: seq<Schema>): Schema
  {
    if |parts| == 0 then [] else parts[0] + Concat(parts[1..])
  }

  /** Concatenating a list is concatenating its two halves. */
  lemma {:induction false} ConcatSplit(parts: seq<Schema>, k: nat)
    requires k <= |parts|
    ensures Concat(parts) == Concat(parts[..k]) + Concat(parts[k..])
  {
    if k > 0 {
      ConcatSplit(parts[1..], k - 1);
      assert parts[1..][..k - 1] == parts[..k][1..];
      assert parts[1..][k - 1..] == parts[k..];
    }
  }

  /** Column `c` of part `k` sits in the concatenation right after the
    * columns of the parts before it. */
  lemma ConcatIndex(parts: seq<Schema>, k: nat, c: nat)
    requires k < |parts| && c < |parts[k]|
    ensures |Concat(parts[..k])| + c < |Concat(parts)|
    ensures Concat(parts)[|Concat(parts[..k])| + c] == parts[k][c]
  {
    ConcatSplit(parts, k);
    assert parts[k..] == [parts[k]] + parts[k + 1..];
    assert Concat(parts[k..]) == parts[k] + Concat(parts[k + 1..]);
  }

  /** Each part starts where the parts before it end. */
  lemma ConcatStep(parts: seq<Schema>, k: nat)
    requires k < |parts|
    ensures Concat(parts[..k + 1]) == Concat(parts[..k]) + parts[k]
  {
    var front := parts[..k + 1];
    ConcatSplit(front, k);
    assert front[..k] == parts[..k];
    assert front[k..] == [parts[k]];
    assert Concat([parts[k]]) == parts[k] + Concat([]);
  }

  /** Part `k` ends within the concatenation. */
  lemma ConcatBound(parts: seq<Schema>, k: nat)
    requires k < |parts|
    ensures |Concat(parts[..k])| + |parts[k]| <= |Concat(parts)|
  {
    ConcatSplit(parts, k);
    assert parts[k..][1..] == parts[k + 1..];
  }

  /** Each part starts where the parts before it end, and the last one
    * ends the concatenation. */
  lemma {:induction false} ConcatContiguous(parts: seq<Schema>)
    ensures forall k :: 0 <= k < |parts| ==> |Concat(parts[..k])| + |parts[k]| == |Concat(parts[..k + 1])|
    ensures |Concat(parts[..0])| == 0 && |Concat(parts[..|parts|])| == |Concat(parts)|
  {
    forall k | 0 <= k < |parts|
      ensures |Concat(parts[..k])| + |parts[k]| == |Concat(parts[..k + 1])|
    {
      ConcatStep(parts, k);
    }
    assert parts[..0] == [];
    assert parts[..|parts|] == parts;
  }

  /** Laying parts end to end keeps every column of part `k` at the offset
    * of the parts before it. */
  lemma {:induction false} ConcatColumns(parts: seq<Schema>)
    ensures forall k :: 0 <= k < |parts| ==> |Concat(parts[..k])| + |parts[k]| <= |Concat(parts)|
    ensures forall k, c :: 0 <= k < |parts| && 0 <= c < |parts[k]| ==>
      Concat(parts)[|Concat(parts[..k])| + c] == parts[k][c]
  {
    forall k | 0 <= k < |parts|
      ensures |Concat(parts[..k])| + |parts[k]| <= |Concat(parts)|
    {
      ConcatBound(parts, k);
    }
    forall k, c | 0 <= k < |parts| && 0 <= c < |parts[k]|
      ensures Concat(parts)[|Concat(parts[..k])| + c] == parts[k][c]
    {
      ConcatIndex(parts, k, c);
    }
  }

  /** The output of a cross: every input's columns, inputs in order, each
    * input starting where the one before it ends. */
  function CrossSchema(inputs: seq<Schema>): (r: Schema)
    ensures forall k :: 0 <= k < |inputs| ==> |Concat(inputs[..k])| + |inputs[k]| <= |r|
    ensures forall k, c :: 0 <= k < |inputs| && 0 <= c < |inputs[k]| ==> r[|Concat(inputs[..k])| + c] == inputs[k][c]
    ensures forall k :: 0 <= k < |inputs| ==> |Concat(inputs[..k])| + |inputs[k]| == |Concat(inputs[..k + 1])|
    ensures |Concat(inputs[..0])| == 0 && |Concat(inputs[..|inputs|])| == |r|
  {
    ConcatColumns(inputs);
    ConcatContiguous(inputs);
    Concat(inputs)
  }

  /** What one generate expression contributes to a foreach's output: a
    * flattened bag contributes its element fields, anything else itself. */
  function Generated(fs: FieldSchema, flatten: bool): (r: Schema)
    ensures flatten && fs.t == BAG ==> r == fs.inner
    ensures !(flatten && fs.t == BAG) ==> r == [fs]
  {
    if flatten && fs.t == BAG then fs.inner else [fs]
  }

  /** What every generate expression contributes, in order. */
  function Contributions(leaves: seq<FieldSchema>, flatten: seq<bool>): (parts: seq<Schema>)
    requires |leaves| == |flatten|
    ensures |parts| == |leaves|
    ensures forall k :: 0 <= k < |leaves| ==> parts[k] == Generated(leaves[k], flatten[k])
  {
    seq(|leaves|, k requires 0 <= k < |leaves| => Generated(leaves[k], flatten[k]))
  }

  /** How many columns the first `k` generate expressions produce. */
  function Offset(leaves: seq<FieldSchema>, flatten: seq<bool>, k: nat): nat
    requires |leaves| == |flatten| && k <= |leaves|
  {
    |Concat(Contributions(leaves, flatten)[..k])|
  }

  /** Column `c` of what expression `k` contributes sits at the offset of
    * the expressions before it. */
  lemma GeneratedColumn(leaves: seq<FieldSchema>, flatten: seq<bool>, k: nat, c: nat)
    requires |leaves| == |flatten| && k < |leaves| && c < |Generated(leaves[k], flatten[k])|
    ensures Offset(leaves, flatten, k) + |Generated(leaves[k], flatten[k])| <= |Concat(Contributions(leaves, flatten))|
    ensures Concat(Contributions(leaves, flatten))[Offset(leaves, flatten, k) + c] == Generated(leaves[k], flatten[k])[c]
  {
    ConcatBound(Contributions(leaves, flatten), k);
    ConcatIndex(Contributions(leaves, flatten), k, c);
  }

  /** Where each generate expression's columns sit in the concatenation of
    * the contributions. */
  lemma GeneratedColumns(leaves: seq<FieldSchema>, flatten: seq<bool>)
    requires |leaves| == |flatten|
    ensures var r := Concat(Contributions(leaves, flatten));
      forall k :: 0 <= k < |leaves| ==> Offset(leaves, flatten, k) + |Generated(leaves[k], flatten[k])| <= |r|
    ensures var r := Concat(Contributions(leaves, flatten));
      forall k :: 0 <= k < |leaves| && !(flatten[k] && leaves[k].t == BAG) ==> r[Offset(leaves, flatten, k)] == leaves[k]
    ensures var r := Concat(Contributions(leaves, flatten));
      forall k, c :: 0 <= k < |leaves| && flatten[k] && leaves[k].t == BAG && 0 <= c < |leaves[k].inner| ==>
        r[Offset(leaves, flatten, k) + c] == leaves[k].inner[c]
  {
    forall k | 0 <= k < |leaves|
      ensures Offset(leaves, flatten, k) + |Generated(leaves[k], flatten[k])| <= |Concat(Contributions(leaves, flatten))|
    {
      ConcatBound(Contributions(leaves, flatten), k);
    }
    forall k | 0 <= k < |leaves| && !(flatten[k] && leaves[k].t == BAG)
      ensures Concat(Contributions(leaves, flatten))[Offset(leaves, flatten, k)] == leaves[k]
    {
      GeneratedColumn(leaves, flatten, k, 0);
    }
    forall k, c | 0 <= k < |leaves| && flatten[k] && leaves[k].t == BAG && 0 <= c < |leaves[k].inner|
      ensures Concat(Contributions(leaves, flatten))[Offset(leaves, flatten, k) + c] == leaves[k].inner[c]
    {
      GeneratedColumn(leaves, flatten, k, c);
    }
  }

  /** The output of a foreach whose generate expressions produce `leaves`:
    * what each expression contributes, laid end to end. */
  function GenerateSchema(leaves: seq<FieldSchema>, flatten: seq<bool>): Schema
    requires |leaves| == |flatten|
  {
    Concat(Contributions(leaves, flatten))
  }

  /** Where a foreach puts each generate expression: expression `k` starts
    * right after the columns of the expressions before it, where a
    * flattened bag puts its element fields and anything else puts its own
    * field; the last expression ends the output. */
  lemma GenerateSchemaLayout(leaves: seq<FieldSchema>, flatten: seq<bool>)
    requires |leaves| == |flatten|
    ensures var r := GenerateSchema(leaves, flatten);
      forall k :: 0 <= k < |leaves| ==> Offset(leaves, flatten, k) + |Generated(leaves[k], flatten[k])| <= |r|
    ensures var r := GenerateSchema(leaves, flatten);
      forall k :: 0 <= k < |leaves| && !(flatten[k] && leaves[k].t == BAG) ==> r[Offset(leaves, flatten, k)] == leaves[k]
    ensures var r := GenerateSchema(leaves, flatten);
      forall k, c :: 0 <= k < |leaves| && flatten[k] && leaves[k].t == BAG && 0 <= c < |leaves[k].inner| ==>
        r[Offset(leaves, flatten, k) + c] == leaves[k].inner[c]
    ensures forall k :: 0 <= k < |leaves| ==>
      Offset(leaves, flatten, k) + |Generated(leaves[k], flatten[k])| == Offset(leaves, flatten, k + 1)
    ensures Offset(leaves, flatten, 0) == 0 && Offset(leaves, flatten, |leaves|) == |GenerateSchema(leaves, flatten)|
  {
    GeneratedColumns(leaves, flatten);
    ConcatContiguous(Contributions(leaves, flatten));
  }

  /** Without flatten, a foreach outputs one column per expression, the
    * expression's own field. */
  lemma {:induction false} GenerateWithoutFlatten(leaves: seq<FieldSchema>, flatten: seq<bool>)
    requires |leaves| == |flatten|
    requires forall k :: 0 <= k < |flatten| ==> !flatten[k]
    ensures GenerateSchema(leaves, flatten) == leaves
  {
    if |leaves| > 0 {
      GenerateWithoutFlatten(leaves[1..], flatten[1..]);
      assert Contributions(leaves, flatten)[1..] == Contributions(leaves[1..], flatten[1..]);
    }
  }
}
