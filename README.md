# Pig type-checking validator and POFilter, modelled in Dafny

This project models two parts of Apache Pig.

1. **The type-checking validator of logical plans (`TypeCheckingValidator.validate`).**
   - The validator walks a logical plan of relational operators: Load, Filter, Distinct, Sort, Split, SplitOutput, Union, Cogroup, ForEach and Cross.
   - Inside each operator it type-checks the inner expression plans, bottom up. It gives every expression node a type and inserts a Cast node wherever an operand has to be promoted.
   - It computes each operator's output schema. Around a Union it inserts ForEach+Cast wrappers. It casts every Cogroup key to the merged group type.
   - It logs to a message collector. When the plan does not type-check, the collector ends up holding an error.
   - The validator's own source is not part of this model. Its behaviour is reconstructed from the assertions of `TestTypeCheckingValidator.java`, and the model agrees with every one of them. Where they say nothing, the model chooses a reading; "## Left out" lists the main such choices, and any rule not listed there is still the model's reading where no assertion covers it.
2. **The physical filter operator `POFilter`.** It evaluates a predicate built from Project, Const, GreaterThan, EqualTo and And over rows of integer columns, and a pull loop (`getNext`, ending in EOP) returns the rows the predicate keeps.

Modules:
- `Wrappers` (wrappers.dfy): `Option` and `Result`.
- `DataTypes` (data_types.dfy): the type tags, the merge lattice (INTEGER < LONG < FLOAT < DOUBLE, with BYTEARRAY taking the other side's type), and the typing rules for arithmetic, comparison and conditionals.
- `Schemas` (schemas.dfy): field schemas, structural casts, and the union, cogroup, foreach and cross schema rules.
- `Diagnostics` (diagnostics.dfy): the message collector, a class whose log only grows.
- `ExpressionPlans` (expressions.dfy): expression plans as node lists in topological order. `TypeNode` is the per-node typing rule. `Typed` is the reference typing of every node.
- `ExpressionChecker` (expression_checker.dfy): the imperative rewrite. It rebuilds a plan node by node, wiring each cast between the operand and its parent, and is proved against `Typed`.
- `LogicalPlans` (logical_plans.dfy): relational operators. `RelRule` is the schema rule of each operator. `RelInfer` is the reference schema of every operator of a plan.
- `TypeCheckingValidator` (validator.dfy): class `LogicalPlan` and its `Validate` method. It rebuilds the operator list, checks the inner plans, and inserts the union wrappers and cogroup key casts.
- `ExpressionScenarios` and `RelationalScenarios`: the plans of the individual tests, with the types their assertions expect, proved from the rules.
- `PhysicalFilter` (filter.dfy): predicate evaluation, the `POFilter` class with `AttachInput`, `GetNext` and `Drain`, and the filter's specification `Filtered`.

## Model

| member | source | states |
|---|---|---|
| DataTypes.Rank | test/org/apache/pig/test/TestTypeCheckingValidator.java:279-284 | the promotion order places INTEGER lowest and DOUBLE highest of the four numeric types |
| DataTypes.RankInjective | test/org/apache/pig/test/TestTypeCheckingValidator.java:279-284 | the promotion order is strict: two numeric types of equal rank are the same type |
| DataTypes.Wider | test/org/apache/pig/test/TestTypeCheckingValidator.java:80-85 | the wider of two numeric types is one of them and ranks at least as high as both |
| DataTypes.MergeType | test/org/apache/pig/test/TestTypeCheckingValidator.java:136-142 | a merge picks one of the two operand types and never UNKNOWN; BYTEARRAY merged with a known type yields that type |
| DataTypes.MergeCommutative | test/org/apache/pig/test/TestTypeCheckingValidator.java:1949-1973 | merging does not depend on operand order |
| DataTypes.MergeIsUpperBound | test/org/apache/pig/test/TestTypeCheckingValidator.java:864-874 | a merge result is above both operands in the promotion order |
| DataTypes.MergeIsLeast | test/org/apache/pig/test/TestTypeCheckingValidator.java:864-874 | every common upper bound of two types is above their merge, so the merge is the least upper bound |
| DataTypes.BelowIsPartialOrder | test/org/apache/pig/test/TestTypeCheckingValidator.java:864-874 | the promotion order is reflexive, antisymmetric and transitive |
| DataTypes.BelowIsPromotion | test/org/apache/pig/test/TestTypeCheckingValidator.java:864-874 | a type widens to another exactly when the two are the same known type, both are numeric and the second ranks at least as high, or the first is BYTEARRAY and the second is known |
| DataTypes.MergeAssociative | test/org/apache/pig/test/TestTypeCheckingValidator.java:1949-1973 | merging three types gives the same answer however the merges are grouped |
| DataTypes.MergeOpt | test/org/apache/pig/test/TestTypeCheckingValidator.java:2222-2239 | a merge with a missing side is missing |
| DataTypes.ArithmeticType | test/org/apache/pig/test/TestTypeCheckingValidator.java:136-142 | arithmetic is typed exactly when both operands are numeric or BYTEARRAY and not both BYTEARRAY; the result is numeric and above both operands |
| DataTypes.ArithmeticPromotesToWider | test/org/apache/pig/test/TestTypeCheckingValidator.java:80-85 | arithmetic on two numeric operands has the wider one's type |
| DataTypes.ComparisonType | test/org/apache/pig/test/TestTypeCheckingValidator.java:326-364 | a comparison is typed exactly when both sides are numeric-or-bytes, both are text, or both are tuples; the common type is above both sides |
| DataTypes.BinCondType | test/org/apache/pig/test/TestTypeCheckingValidator.java:279-286 | a conditional is typed exactly when its branches have the same known type or an arithmetic merge; the result is above both branches |
| DataTypes.WideningIsCastable | test/org/apache/pig/test/TestTypeCheckingValidator.java:595-646 | every widening the merge rules ask for is a legal scalar cast |
| DataTypes.ScalarCastDirections | test/org/apache/pig/test/TestTypeCheckingValidator.java:450-535 | CHARARRAY casts only to itself and BYTEARRAY, every numeric type casts to every numeric type and to CHARARRAY, and BYTEARRAY casts to every known type |
| DataTypes.FoldMerge | test/org/apache/pig/test/TestTypeCheckingValidator.java:1949-1973 | the merge of a list of types, when defined, is one of them |
| DataTypes.FoldMergeIsUpperBound | test/org/apache/pig/test/TestTypeCheckingValidator.java:1949-1973 | the merge of a list is above every element |
| DataTypes.FoldMergeIsLeast | test/org/apache/pig/test/TestTypeCheckingValidator.java:1949-1973 | a list whose elements share an upper bound has a merge below that bound |
| DataTypes.FoldMergeOfNumerics | test/org/apache/pig/test/TestTypeCheckingValidator.java:2095-2112 | a list of numeric types always merges, to a numeric type ranking at least as high as each element |
| DataTypes.FoldMergeKnown | test/org/apache/pig/test/TestTypeCheckingValidator.java:878-914 | a list whose merge is a known type holds no UNKNOWN type |
| Schemas.CastableReflexive | test/org/apache/pig/test/TestTypeCheckingValidator.java:414-446 | every field without UNKNOWN in it can be cast to itself |
| Schemas.CharArrayNeverCastsToNumber | test/org/apache/pig/test/TestTypeCheckingValidator.java:500-535 | a CHARARRAY field can never be cast to a numeric one, including inside a tuple cast |
| Schemas.CastableNeedsEveryField | test/org/apache/pig/test/TestTypeCheckingValidator.java:500-535 | a tuple or bag cast is illegal as soon as one field the target names is missing from the source or cannot be cast |
| Schemas.CastableFromBytesOrPrefix | test/org/apache/pig/test/TestTypeCheckingValidator.java:414-446 | BYTEARRAY casts to every known field, and a tuple casts to a tuple with no more fields whose every field its own field casts to |
| Schemas.ProjectField | test/org/apache/pig/test/TestTypeCheckingValidator.java:2627-2630 | a projection is defined exactly on a tuple or bag with in-range columns; one column of a tuple is that field, otherwise a bag of the chosen fields |
| Schemas.FirstAlias | test/org/apache/pig/test/TestTypeCheckingValidator.java:864-874 | the first alias any input gives a column, or none exactly when no input names it |
| Schemas.UnionColumn | test/org/apache/pig/test/TestTypeCheckingValidator.java:864-874 | a union column with a known type has the type of one of its inputs' columns, and the nested schema of the first input |
| Schemas.UnionSchema | test/org/apache/pig/test/TestTypeCheckingValidator.java:864-874 | a union has as many columns as each of its inputs |
| Schemas.UnionColumnIsLeastCommonType | test/org/apache/pig/test/TestTypeCheckingValidator.java:864-874 | union column c has the least type above every input's column c, and the first alias in input order |
| Schemas.UnionCast | test/org/apache/pig/test/TestTypeCheckingValidator.java:878-914 | a union input column is cast exactly when its type differs from a known output type, and to that type |
| Schemas.UnionCastsAreLegal | test/org/apache/pig/test/TestTypeCheckingValidator.java:878-914 | every cast a union wrapper inserts is a legal cast |
| Schemas.GroupKeyCastsAreLegal | test/org/apache/pig/test/TestTypeCheckingValidator.java:2222-2239 | every cast to a group key type is a legal scalar cast |
| Schemas.GroupKeyTypeIsLeastOrBytes | test/org/apache/pig/test/TestTypeCheckingValidator.java:2222-2239 | a group key position has the least type every input's key widens to; when the keys have no common type it is BYTEARRAY and no type lies above every key |
| Schemas.GroupField | test/org/apache/pig/test/TestTypeCheckingValidator.java:1952-1958 | the group column is named group; one key gives its type, several give a TUPLE of the key types |
| Schemas.CogroupSchema | test/org/apache/pig/test/TestTypeCheckingValidator.java:1952-1973 | a cogroup output is the group column followed by one BAG per input holding that input's schema |
| Schemas.ConcatSplit | test/org/apache/pig/test/TestTypeCheckingValidator.java:2678-2683 | concatenating schemas can be split at any input |
| Schemas.ConcatIndex | test/org/apache/pig/test/TestTypeCheckingValidator.java:2678-2683 | column c of input k sits in the concatenation after all earlier inputs' columns |
| Schemas.ConcatBound | test/org/apache/pig/test/TestTypeCheckingValidator.java:2678-2683 | every input's columns end within the concatenation |
| Schemas.ConcatStep | test/org/apache/pig/test/TestTypeCheckingValidator.java:2678-2683 | the concatenation of the first k+1 inputs is that of the first k followed by input k |
| Schemas.ConcatContiguous | test/org/apache/pig/test/TestTypeCheckingValidator.java:2678-2683 | each input starts where the inputs before it end, the first at 0, and the last ends the concatenation |
| Schemas.ConcatColumns | test/org/apache/pig/test/TestTypeCheckingValidator.java:2678-2683 | column c of every input k sits at the width of the inputs before k plus c |
| Schemas.CrossSchema | test/org/apache/pig/test/TestTypeCheckingValidator.java:2678-2683 | a cross holds every column of every input, input k starting where input k-1 ends, the first at 0 and the last ending the output |
| Schemas.GeneratedColumn | test/org/apache/pig/test/TestTypeCheckingValidator.java:2627-2630 | column c of what generate expression k contributes sits at the width of the earlier contributions plus c |
| Schemas.GeneratedColumns | test/org/apache/pig/test/TestTypeCheckingValidator.java:2627-2630 | an unflattened column sits at its offset; a flattened bag's element fields sit from its offset on |
| Schemas.GenerateSchemaLayout | test/org/apache/pig/test/TestTypeCheckingValidator.java:2542-2630 | a foreach output holds each unflattened generate column at its offset and each flattened bag's element fields from its offset on; each contribution starts where the previous ends, and the last ends the output |
| Schemas.GenerateWithoutFlatten | test/org/apache/pig/test/TestTypeCheckingValidator.java:2331-2332 | without flatten, a foreach's output is its generate columns |
| Diagnostics.MessageCollector.constructor | test/org/apache/pig/test/TestTypeCheckingValidator.java:61-75 | a new collector holds no messages |
| Diagnostics.MessageCollector.Collect | test/org/apache/pig/test/TestTypeCheckingValidator.java:313-321 | a message is appended; the collector reports an error exactly when it did before or the message is an error |
| Diagnostics.ExtendsTransitive | test/org/apache/pig/test/TestTypeCheckingValidator.java:313-321 | a log that only grows keeps growing over several steps |
| ExpressionPlans.TypeNode | test/org/apache/pig/test/TestTypeCheckingValidator.java:80-143 | a typed node has one cast slot per operand; comparisons, And, Or, Not and Regexp type to BOOLEAN |
| ExpressionPlans.TypedStep | test/org/apache/pig/test/TestTypeCheckingValidator.java:43-87 | a node is typed by its rule applied to the types of its operands |
| ExpressionPlans.TypedOperandsFirst | test/org/apache/pig/test/TestTypeCheckingValidator.java:43-87 | a node types only when every operand types; it then has one cast slot per operand, and comparisons, And, Or, Not and Regexp are BOOLEAN |
| ExpressionPlans.TypedFrom | test/org/apache/pig/test/TestTypeCheckingValidator.java:43-87 | a node with known operand typings is typed by its rule on their fields |
| ExpressionPlans.TypingSettles | test/org/apache/pig/test/TestTypeCheckingValidator.java:606-610 | re-typing a node whose operands went through its inserted casts gives the same type and asks for no further cast |
| ExpressionPlans.InsertedCastsAreLegal | test/org/apache/pig/test/TestTypeCheckingValidator.java:595-646 | every inserted cast changes its operand's type and is a legal cast |
| ExpressionPlans.ComputedTypeIsKnown | test/org/apache/pig/test/TestTypeCheckingValidator.java:557-568 | an operator node that types is never left UNKNOWN |
| ExpressionPlans.ArithmeticOnTwoByteArraysFails | test/org/apache/pig/test/TestTypeCheckingValidator.java:1525-1569 | arithmetic on two BYTEARRAY operands is rejected |
| ExpressionPlans.ArithmeticCastsTheNarrowerOperand | test/org/apache/pig/test/TestTypeCheckingValidator.java:595-646 | numeric arithmetic has the wider operand's type and casts only the operand whose type differs |
| ExpressionChecker.CheckedLeaf | test/org/apache/pig/test/TestTypeCheckingValidator.java:80-85 | the leaf of a checked plan carries the reference type of the original leaf |
| ExpressionChecker.CheckedOperand | test/org/apache/pig/test/TestTypeCheckingValidator.java:606-610 | in a checked plan, each operand of the leaf is the original operand, or a Cast to the rule's type whose only child is the original operand |
| ExpressionChecker.RewroteGrows | test/org/apache/pig/test/TestTypeCheckingValidator.java:606-610 | a node rewritten into a prefix stays rewritten when the plan grows |
| ExpressionChecker.RewriteStep | test/org/apache/pig/test/TestTypeCheckingValidator.java:606-610 | appending a node with its wired operands keeps every earlier node rewritten |
| ExpressionChecker.TypedFromRewritten | test/org/apache/pig/test/TestTypeCheckingValidator.java:606-610 | the reference type of a node follows from the types already set on its rewritten operands |
| ExpressionChecker.WireOperands | test/org/apache/pig/test/TestTypeCheckingValidator.java:606-610 | each operand is read directly, or through a Cast node appended after the old plan for that operand alone, whose only child is the operand; every appended node is read by some operand, the plan only grows and no error is logged |
| ExpressionChecker.FreshArgsStep | test/org/apache/pig/test/TestTypeCheckingValidator.java:606-610 | reading one more operand, an old position or one appended just for it, keeps every appended position read by exactly one operand |
| ExpressionChecker.WireOperand | test/org/apache/pig/test/TestTypeCheckingValidator.java:606-610 | one more operand is read as it is, or through a Cast node appended just for it with an INFO message; the appended casts stay one per cast operand, all of them read |
| ExpressionChecker.RewriteNode | test/org/apache/pig/test/TestTypeCheckingValidator.java:595-646 | a node that fails to type logs an error; otherwise it is appended with its reference type and casts |
| ExpressionChecker.RewroteTypes | test/org/apache/pig/test/TestTypeCheckingValidator.java:291-323 | every node rewritten so far has a reference type |
| ExpressionChecker.CheckExpressionPlan | test/org/apache/pig/test/TestTypeCheckingValidator.java:291-323 | checking succeeds exactly when every node types, yielding a rewrite of the plan; on failure the error is that of the first node, in plan order, that does not type, and the collector reports an error |
| LogicalPlans.TypingsAllOk | test/org/apache/pig/test/TestTypeCheckingValidator.java:43-87 | the list of typings is all Ok exactly when every node types |
| LogicalPlans.PlanField | test/org/apache/pig/test/TestTypeCheckingValidator.java:1368-1376 | a plan's output field is its leaf's type exactly when every node types; otherwise the first node's error |
| LogicalPlans.TypingsFirstError | test/org/apache/pig/test/TestTypeCheckingValidator.java:291-323 | when the node typings do not all succeed, their combined problem is that of the first node that does not type |
| LogicalPlans.TypingsOk | test/org/apache/pig/test/TestTypeCheckingValidator.java:1368-1376 | when the node typings all succeed, they are the reference typings of the nodes |
| LogicalPlans.PlanFields | test/org/apache/pig/test/TestTypeCheckingValidator.java:1368-1376 | the output fields of several plans, defined exactly when each is |
| LogicalPlans.PlanFieldsOk | test/org/apache/pig/test/TestTypeCheckingValidator.java:1368-1376 | plans that each produce a field produce the list of those fields |
| LogicalPlans.PlanFieldsFail | test/org/apache/pig/test/TestTypeCheckingValidator.java:1525-1569 | one failing inner plan fails the whole list |
| LogicalPlans.ConditionRule | test/org/apache/pig/test/TestTypeCheckingValidator.java:1232-1298 | a condition is accepted exactly when it types to BOOLEAN, and then the schema passes through unchanged |
| LogicalPlans.KeyFields | test/org/apache/pig/test/TestTypeCheckingValidator.java:1952-1973 | the key fields of every cogroup input, defined exactly when every key plan types |
| LogicalPlans.CogroupRule | test/org/apache/pig/test/TestTypeCheckingValidator.java:1952-1973 | a cogroup types exactly when all keys type and every input has the same number of keys; its schema is the cogroup schema of the key types |
| LogicalPlans.RelRule | test/org/apache/pig/test/TestTypeCheckingValidator.java:1145-1146 | Filter, Distinct, Sort, Split and SplitOutput keep their input's schema; a union of equal-width inputs always types, to the union schema |
| LogicalPlans.RelInferStep | test/org/apache/pig/test/TestTypeCheckingValidator.java:1145-1146 | an operator's reference schema is its rule applied to its inputs' schemas |
| LogicalPlans.RelInferInputsFirst | test/org/apache/pig/test/TestTypeCheckingValidator.java:1145-1146 | an operator has a schema only when all its inputs do; Filter, Distinct, Sort, Split and SplitOutput have their input's schema |
| LogicalPlans.InputSchemas | test/org/apache/pig/test/TestTypeCheckingValidator.java:1145-1146 | an operator's inputs' schemas, and its own schema from them; a failing input fails the operator |
| LogicalPlans.CastLeaf | test/org/apache/pig/test/TestTypeCheckingValidator.java:1970-1973 | a key plan gets a Cast of its leaf to the group type appended, unless the leaf already has that type |
| LogicalPlans.InferredAllOk | test/org/apache/pig/test/TestTypeCheckingValidator.java:1145-1146 | the list of schemas is all Ok exactly when every operator types |
| LogicalPlans.PlanSchemas | test/org/apache/pig/test/TestTypeCheckingValidator.java:1145-1146 | every operator's schema, defined exactly when every operator types; otherwise the first failing operator's error |
| LogicalPlans.CastingColumn | test/org/apache/pig/test/TestTypeCheckingValidator.java:2689-2704 | a wrapper column plan is a Project, with a Cast to the output type appended exactly when the column needs one |
| LogicalPlans.UnionWrapper | test/org/apache/pig/test/TestTypeCheckingValidator.java:878-914 | a wrapper is a one-input ForEach under the given key, with one generate plan per input column, annotated with the wrapped schema |
| LogicalPlans.UnionWrapperColumns | test/org/apache/pig/test/TestTypeCheckingValidator.java:878-914 | generate plan c of a wrapper is the casting plan of input column c, and it is not flattened |
| LogicalPlans.WrappedColumnsHaveUnionTypes | test/org/apache/pig/test/TestTypeCheckingValidator.java:878-914 | after wrapping, every column with a known union type has that type, and other columns are unchanged |
| LogicalPlans.CastingColumnTypes | test/org/apache/pig/test/TestTypeCheckingValidator.java:878-914 | the plan of one wrapper column types to the input column, retyped to the union's type where a union cast applies |
| LogicalPlans.UnionWrapperFields | test/org/apache/pig/test/TestTypeCheckingValidator.java:878-914 | every column plan of a wrapper types to the wrapper's annotated column |
| LogicalPlans.WrapperColumnField | test/org/apache/pig/test/TestTypeCheckingValidator.java:878-914 | each column plan of a wrapper types to the wrapper's annotated column |
| LogicalPlans.UnionWrapperTypes | test/org/apache/pig/test/TestTypeCheckingValidator.java:878-914 | the foreach inserted in front of a union input type-checks over that input to exactly the schema it is annotated with |
| TypeCheckingValidator.Warnings | test/org/apache/pig/test/TestTypeCheckingValidator.java:2222-2239 | exactly one warning per flagged key position, all with the same event |
| TypeCheckingValidator.CheckedArePlans | test/org/apache/pig/test/TestTypeCheckingValidator.java:1368-1376 | checked inner plans are plans |
| TypeCheckingValidator.InputWiredGrows | test/org/apache/pig/test/TestTypeCheckingValidator.java:878-914 | an input wiring stays valid when the operator list grows |
| TypeCheckingValidator.RelRewroteGrows | test/org/apache/pig/test/TestTypeCheckingValidator.java:878-914 | a rewritten operator stays rewritten when the operator list grows |
| TypeCheckingValidator.InputsFromRewritten | test/org/apache/pig/test/TestTypeCheckingValidator.java:1145-1146 | the schemas annotated on rewritten inputs are the reference input schemas |
| TypeCheckingValidator.RelRewriteStep | test/org/apache/pig/test/TestTypeCheckingValidator.java:878-914 | appending a checked operator keeps every earlier operator rewritten |
| TypeCheckingValidator.WarnEach | test/org/apache/pig/test/TestTypeCheckingValidator.java:2222-2239 | the flagged warnings are appended and no error is logged |
| TypeCheckingValidator.PlanFieldOfCheck | test/org/apache/pig/test/TestTypeCheckingValidator.java:1368-1376 | a checked plan's leaf is the original plan's output field |
| TypeCheckingValidator.CheckInnerPlan | test/org/apache/pig/test/TestTypeCheckingValidator.java:1368-1376 | an inner plan is checked exactly when it types, with the leaf as its output field; a failure logs an error |
| TypeCheckingValidator.CheckCondition | test/org/apache/pig/test/TestTypeCheckingValidator.java:1232-1298 | a condition is accepted only when the condition rule accepts it; otherwise an error is logged |
| TypeCheckingValidator.PlansCheckedFields | test/org/apache/pig/test/TestTypeCheckingValidator.java:1368-1376 | the output fields of checked plans are their leaves |
| TypeCheckingValidator.CheckPlans | test/org/apache/pig/test/TestTypeCheckingValidator.java:1525-1569 | each plan is checked in turn; the first failure stops the loop and logs an error |
| TypeCheckingValidator.CheckGroupKeys | test/org/apache/pig/test/TestTypeCheckingValidator.java:1952-1973 | every input's key plans are checked; a failure means some key plan does not type |
| TypeCheckingValidator.GroupKeysFields | test/org/apache/pig/test/TestTypeCheckingValidator.java:1952-1973 | the key fields are the leaves of the checked key plans |
| TypeCheckingValidator.CheckedKeysArePlans | test/org/apache/pig/test/TestTypeCheckingValidator.java:1952-1973 | checked key rows are plans of the original widths |
| TypeCheckingValidator.CogroupArityFails | test/org/apache/pig/test/TestTypeCheckingValidator.java:1952-1973 | inputs grouped by keys of different widths make the cogroup fail |
| TypeCheckingValidator.KeysRewroteFromCasts | test/org/apache/pig/test/TestTypeCheckingValidator.java:1970-1973 | a checked key plan with its leaf cast to the group type is a rewrite of the original key plan |
| TypeCheckingValidator.CastKeysWellFormed | test/org/apache/pig/test/TestTypeCheckingValidator.java:1970-1973 | the cogroup with cast keys is well formed |
| TypeCheckingValidator.CogroupChecked | test/org/apache/pig/test/TestTypeCheckingValidator.java:1952-1973 | the cogroup with cast keys is a checked version of the original, and its schema is the cogroup schema of the key types |
| TypeCheckingValidator.CogroupRewrote | test/org/apache/pig/test/TestTypeCheckingValidator.java:1970-1973 | key plans rewritten to the key types form a checked cogroup |
| TypeCheckingValidator.CastRow | test/org/apache/pig/test/TestTypeCheckingValidator.java:1970-1973 | each key plan of a row gets its leaf cast to its position's type; no error is logged |
| TypeCheckingValidator.CastGroupKeys | test/org/apache/pig/test/TestTypeCheckingValidator.java:1970-1973 | every row of key plans gets its leaves cast to the key types |
| TypeCheckingValidator.KeyTypesFit | test/org/apache/pig/test/TestTypeCheckingValidator.java:1952-1973 | every input has one key per key type |
| TypeCheckingValidator.GroupByKeyTypes | test/org/apache/pig/test/TestTypeCheckingValidator.java:2095-2112 | with rectangular keys, the cogroup types, its keys are cast and no error is logged |
| TypeCheckingValidator.CheckCogroup | test/org/apache/pig/test/TestTypeCheckingValidator.java:1808-1973 | the cogroup is accepted exactly as the cogroup rule says, with checked, cast keys; a failure logs an error |
| TypeCheckingValidator.CheckOperator | test/org/apache/pig/test/TestTypeCheckingValidator.java:1095-1146 | an operator is accepted with its rule's schema and checked inner plans; a failure logs an error |
| TypeCheckingValidator.UnionInputWrapped | test/org/apache/pig/test/TestTypeCheckingValidator.java:878-914 | a union input that needs casts is wired through a new wrapper |
| TypeCheckingValidator.AddUnionWrappers | test/org/apache/pig/test/TestTypeCheckingValidator.java:878-914 | each union input is read directly when it needs no cast, and otherwise through its own casting foreach appended after the old plan; no two inputs share a foreach, every appended operator is one of them, and no error is logged |
| TypeCheckingValidator.WireUnionInput | test/org/apache/pig/test/TestTypeCheckingValidator.java:878-914 | one more union input is read directly, or through a casting foreach appended just for it with an INFO message; the appended foreach operators stay one per wrapped input, all of them read |
| TypeCheckingValidator.UnionArgsWrap | test/org/apache/pig/test/TestTypeCheckingValidator.java:878-914 | a union input is read from a position past the old plan exactly when it needs casts |
| TypeCheckingValidator.WireInputs | test/org/apache/pig/test/TestTypeCheckingValidator.java:878-914 | a union reads each input directly or through its own new casting foreach, any other operator reads its inputs directly; past the old plan exactly the wrapped inputs are read, and nothing unread is appended |
| TypeCheckingValidator.RebuiltInputs | test/org/apache/pig/test/TestTypeCheckingValidator.java:878-914 | every input of the next operator is already rebuilt |
| TypeCheckingValidator.DirectlyWired | test/org/apache/pig/test/TestTypeCheckingValidator.java:1095-1146 | operators other than a union keep their inputs wired directly |
| TypeCheckingValidator.AppendRebuilt | test/org/apache/pig/test/TestTypeCheckingValidator.java:878-914 | appending a rebuilt operator keeps the list well formed and annotated |
| TypeCheckingValidator.AppendOperator | test/org/apache/pig/test/TestTypeCheckingValidator.java:878-914 | appending a rebuilt operator after its own casting foreach operators keeps the plan well formed, laid out operator after operator, and every operator so far rebuilt |
| TypeCheckingValidator.LaidStep | test/org/apache/pig/test/TestTypeCheckingValidator.java:878-914 | appending an operator after the positions that it alone reads adds one stretch to the layout of the rebuilt plan |
| TypeCheckingValidator.StretchedGrows | test/org/apache/pig/test/TestTypeCheckingValidator.java:878-914 | a rebuilt operator keeps its stretch when the plan grows |
| TypeCheckingValidator.StretchedLast | test/org/apache/pig/test/TestTypeCheckingValidator.java:878-914 | the appended operator reads from its own stretch exactly the inputs it reads through a casting foreach |
| TypeCheckingValidator.StretchStep | test/org/apache/pig/test/TestTypeCheckingValidator.java:878-914 | after appending an operator, every rebuilt operator reads from its own stretch exactly its wrapped inputs |
| TypeCheckingValidator.RebuiltInfer | test/org/apache/pig/test/TestTypeCheckingValidator.java:1145-1146 | every operator rebuilt so far has a reference schema |
| TypeCheckingValidator.RewriteRel | test/org/apache/pig/test/TestTypeCheckingValidator.java:799-916 | an operator that fails its rule logs an error; otherwise it is rebuilt with its reference schema |
| TypeCheckingValidator.ValidatedOperator | test/org/apache/pig/test/TestTypeCheckingValidator.java:1145-1146 | after validation, every original operator types and sits in the new plan under its key with its reference schema |
| TypeCheckingValidator.LaidInOrder | test/org/apache/pig/test/TestTypeCheckingValidator.java:878-914 | rebuilt operators keep their original order, each placed after the stretch of the one before it |
| TypeCheckingValidator.RebuiltOnce | test/org/apache/pig/test/TestTypeCheckingValidator.java:878-914 | no two original operators are rebuilt at the same position |
| TypeCheckingValidator.RebuiltBefore | test/org/apache/pig/test/TestTypeCheckingValidator.java:878-914 | a rebuilt operator placed before another comes from an earlier original operator and lies before the other's stretch |
| TypeCheckingValidator.StretchHoldsNoRebuilt | test/org/apache/pig/test/TestTypeCheckingValidator.java:878-914 | a position inside an operator's stretch holds no rebuilt operator |
| TypeCheckingValidator.FindStretch | test/org/apache/pig/test/TestTypeCheckingValidator.java:878-914 | every position of the rebuilt plan lies in the stretch of some rebuilt operator |
| TypeCheckingValidator.WrappedInput | test/org/apache/pig/test/TestTypeCheckingValidator.java:881-893 | a union input that needs casts is read through a casting foreach, inside the union's stretch, whose only input is the rebuilt input |
| TypeCheckingValidator.DirectRead | test/org/apache/pig/test/TestTypeCheckingValidator.java:1014-1018 | an input read from outside the reader's stretch needs no wrapper and is read at its rebuilt position |
| TypeCheckingValidator.NotRebuiltIsWrapper | test/org/apache/pig/test/TestTypeCheckingValidator.java:881-887 | a position that holds no rebuilt operator holds a casting foreach read by a rebuilt union |
| TypeCheckingValidator.ValidatedLayout | test/org/apache/pig/test/TestTypeCheckingValidator.java:878-914 | a validated plan holds the rebuilt operators in their original order and, at every other position, a casting foreach read by a rebuilt union; nothing else |
| TypeCheckingValidator.RebuiltReadsRebuilt | test/org/apache/pig/test/TestTypeCheckingValidator.java:1014-1018 | a rebuilt operator that reads another rebuilt operator reads it as the same input as in the original plan, without a wrapper |
| TypeCheckingValidator.WrapperReadsRebuilt | test/org/apache/pig/test/TestTypeCheckingValidator.java:881-887 | a casting foreach that reads a rebuilt operator stands in front of that same input of the union in the original plan |
| TypeCheckingValidator.WrapperOver | test/org/apache/pig/test/TestTypeCheckingValidator.java:881-884 | the casting foreach in front of a union input is a ForEach whose only input is that input's rebuilt operator |
| TypeCheckingValidator.ValidatedWrapper | test/org/apache/pig/test/TestTypeCheckingValidator.java:878-914 | in a validated plan, every union input that needs casts is read through a ForEach over the rebuilt input |
| TypeCheckingValidator.WrapperServesOneInput | test/org/apache/pig/test/TestTypeCheckingValidator.java:878-914 | a casting foreach stands in front of one union input only: each wrapped input of a union has its own foreach, even when two inputs are the same operator |
| TypeCheckingValidator.ReaderOfRebuilt | test/org/apache/pig/test/TestTypeCheckingValidator.java:881-887 | every successor of a rebuilt operator is one of its original consumers, or the casting foreach in front of one |
| TypeCheckingValidator.RebuiltReadsWrapper | test/org/apache/pig/test/TestTypeCheckingValidator.java:885-888 | the only rebuilt operator that reads a casting foreach is its union |
| TypeCheckingValidator.ReaderOfWrapper | test/org/apache/pig/test/TestTypeCheckingValidator.java:885-888 | a casting foreach has its union as its only successor |
| TypeCheckingValidator.InputReaders | test/org/apache/pig/test/TestTypeCheckingValidator.java:878-914 | an input with one consumer in the original plan has one successor after validation: the casting foreach, whose only input is that input and whose only successor is the union, or else the consumer itself |
| TypeCheckingValidator.CheckedConditionIsBoolean | test/org/apache/pig/test/TestTypeCheckingValidator.java:1800-1802 | a validated filter or split condition has a BOOLEAN leaf |
| TypeCheckingValidator.CheckedKeyLeaves | test/org/apache/pig/test/TestTypeCheckingValidator.java:1970-1973 | every validated cogroup key plan has a leaf of its position's group key type |
| TypeCheckingValidator.CogroupKeyRewrote | test/org/apache/pig/test/TestTypeCheckingValidator.java:1970-1973 | every validated cogroup key plan is the original checked with its leaf cast to the key type |
| TypeCheckingValidator.RewroteKeyLeaf | test/org/apache/pig/test/TestTypeCheckingValidator.java:1970-1973 | a rewritten key plan's leaf has the key type |
| TypeCheckingValidator.LogicalPlan.constructor | test/org/apache/pig/test/TestTypeCheckingValidator.java:1095-1146 | a new plan holds the given operators |
| TypeCheckingValidator.LogicalPlan.Validate | test/org/apache/pig/test/TestTypeCheckingValidator.java:291-323 | validation succeeds exactly when every operator types, leaving a validated plan (the rebuilt operators in order plus one casting foreach per wrapped union input, nothing else) and no new error; on failure the plan is unchanged, the collector reports an error, and some operator fails while every operator before it types |
| ExpressionScenarios.Leaf | test/org/apache/pig/test/TestTypeCheckingValidator.java:43-87 | a node without operands is typed by its rule alone |
| ExpressionScenarios.OverConstants | test/org/apache/pig/test/TestTypeCheckingValidator.java:148-189 | a binary node over two constants is typed from their declared types |
| ExpressionScenarios.OverConstant | test/org/apache/pig/test/TestTypeCheckingValidator.java:652-710 | a unary node over a constant is typed from its declared type |
| ExpressionScenarios.MixedArithmetic | test/org/apache/pig/test/TestTypeCheckingValidator.java:43-87 | the plan of (INTEGER + DOUBLE) * (BYTEARRAY cast of CHARARRAY) is well formed |
| ExpressionScenarios.MixedArithmeticSum | test/org/apache/pig/test/TestTypeCheckingValidator.java:80-82 | INTEGER + DOUBLE types DOUBLE and casts the left side to DOUBLE |
| ExpressionScenarios.MixedArithmeticCast | test/org/apache/pig/test/TestTypeCheckingValidator.java:83-84 | the explicit cast to BYTEARRAY types BYTEARRAY |
| ExpressionScenarios.MixedArithmeticTypes | test/org/apache/pig/test/TestTypeCheckingValidator.java:80-85 | DOUBLE * BYTEARRAY types DOUBLE and casts the BYTEARRAY side to DOUBLE |
| ExpressionScenarios.BooleanChain | test/org/apache/pig/test/TestTypeCheckingValidator.java:90-145 | the plan of not((INTEGER - BYTEARRAY > LONG) and BOOLEAN) is well formed |
| ExpressionScenarios.BooleanChainDifference | test/org/apache/pig/test/TestTypeCheckingValidator.java:136-138 | INTEGER - BYTEARRAY types INTEGER and casts the BYTEARRAY side |
| ExpressionScenarios.BooleanChainComparison | test/org/apache/pig/test/TestTypeCheckingValidator.java:138-140 | INTEGER > LONG types BOOLEAN and casts the left side to LONG |
| ExpressionScenarios.BooleanChainConjunction | test/org/apache/pig/test/TestTypeCheckingValidator.java:140-142 | the And of two BOOLEANs types BOOLEAN with no cast |
| ExpressionScenarios.AndBooleans | test/org/apache/pig/test/TestTypeCheckingValidator.java:140-142 | the And rule types two BOOLEAN operands BOOLEAN with no cast |
| ExpressionScenarios.BooleanChainTypes | test/org/apache/pig/test/TestTypeCheckingValidator.java:142-143 | the Not types BOOLEAN |
| ExpressionScenarios.NotBoolean | test/org/apache/pig/test/TestTypeCheckingValidator.java:142-143 | the Not rule types a BOOLEAN operand BOOLEAN with no cast |
| ExpressionScenarios.ModEqual | test/org/apache/pig/test/TestTypeCheckingValidator.java:148-189 | the plan of (BYTEARRAY % LONG) == INTEGER is well formed |
| ExpressionScenarios.ModEqualRemainder | test/org/apache/pig/test/TestTypeCheckingValidator.java:182-184 | BYTEARRAY % LONG types LONG and casts the BYTEARRAY side to LONG |
| ExpressionScenarios.ModEqualTypes | test/org/apache/pig/test/TestTypeCheckingValidator.java:182-187 | LONG == INTEGER types BOOLEAN and casts the right side to LONG |
| ExpressionScenarios.DivideNotEqual | test/org/apache/pig/test/TestTypeCheckingValidator.java:192-237 | the plan of (INTEGER / DOUBLE) != BYTEARRAY cast is well formed |
| ExpressionScenarios.DivideNotEqualQuotient | test/org/apache/pig/test/TestTypeCheckingValidator.java:230-232 | INTEGER / DOUBLE types DOUBLE and casts the left side |
| ExpressionScenarios.DivideNotEqualCast | test/org/apache/pig/test/TestTypeCheckingValidator.java:232-233 | the explicit BYTEARRAY cast types BYTEARRAY |
| ExpressionScenarios.DivideNotEqualTypes | test/org/apache/pig/test/TestTypeCheckingValidator.java:230-235 | DOUBLE != BYTEARRAY types BOOLEAN and casts the BYTEARRAY side to DOUBLE |
| ExpressionScenarios.Conditional | test/org/apache/pig/test/TestTypeCheckingValidator.java:240-288 | the plan of (FLOAT <= LONG) ? FLOAT : DOUBLE is well formed |
| ExpressionScenarios.ConditionalTest | test/org/apache/pig/test/TestTypeCheckingValidator.java:279-282 | the comparison FLOAT <= LONG types BOOLEAN and casts the LONG side to FLOAT |
| ExpressionScenarios.ConditionalTypes | test/org/apache/pig/test/TestTypeCheckingValidator.java:279-286 | the conditional types DOUBLE and casts the FLOAT branch to DOUBLE |
| ExpressionScenarios.BinCondFloatDouble | test/org/apache/pig/test/TestTypeCheckingValidator.java:279-286 | the conditional rule over FLOAT and DOUBLE branches types DOUBLE and casts the FLOAT branch |
| ExpressionScenarios.TextPlusLong | test/org/apache/pig/test/TestTypeCheckingValidator.java:291-300 | the plan of CHARARRAY + LONG is well formed |
| ExpressionScenarios.TextPlusLongRejected | test/org/apache/pig/test/TestTypeCheckingValidator.java:291-323 | CHARARRAY + LONG is rejected as an arithmetic error |
| ExpressionScenarios.BooleanEqualsLong | test/org/apache/pig/test/TestTypeCheckingValidator.java:326-340 | the plan of (INTEGER > BYTEARRAY) == LONG is well formed |
| ExpressionScenarios.BooleanEqualsLongInner | test/org/apache/pig/test/TestTypeCheckingValidator.java:326-340 | INTEGER > BYTEARRAY types BOOLEAN and casts the BYTEARRAY side to INTEGER |
| ExpressionScenarios.BooleanEqualsLongRejected | test/org/apache/pig/test/TestTypeCheckingValidator.java:326-364 | BOOLEAN == LONG is rejected as a comparison error |
| ExpressionScenarios.EqualBooleanLong | test/org/apache/pig/test/TestTypeCheckingValidator.java:326-364 | the equality rule rejects BOOLEAN against LONG as a comparison error |
| ExpressionScenarios.TupleEquality | test/org/apache/pig/test/TestTypeCheckingValidator.java:367-430 | the plan of a tuple cast compared with a tuple constant is well formed |
| ExpressionScenarios.TupleEqualityCast | test/org/apache/pig/test/TestTypeCheckingValidator.java:414-446 | casting a tuple of four INTEGERs to a tuple of three CHARARRAYs is legal and types as that tuple |
| ExpressionScenarios.TupleEqualityTypes | test/org/apache/pig/test/TestTypeCheckingValidator.java:444-446 | tuple equality types BOOLEAN and casts neither operand |
| ExpressionScenarios.TupleBadCast | test/org/apache/pig/test/TestTypeCheckingValidator.java:450-515 | the plan of the rejected tuple cast, with the constants (chararray,chararray,int,chararray) and (chararray,int,(chararray,chararray,int,chararray)), is well formed |
| ExpressionScenarios.TupleBadCastRejected | test/org/apache/pig/test/TestTypeCheckingValidator.java:500-535 | casting (chararray,chararray,int,chararray) to (chararray,chararray,double,int) is an illegal cast, and so is the equality over it |
| ExpressionScenarios.TextMatch | test/org/apache/pig/test/TestTypeCheckingValidator.java:652-675 | the plan of a regular expression match on CHARARRAY is well formed |
| ExpressionScenarios.BytesMatch | test/org/apache/pig/test/TestTypeCheckingValidator.java:679-710 | the plan of a match on BYTEARRAY is well formed |
| ExpressionScenarios.NumberMatch | test/org/apache/pig/test/TestTypeCheckingValidator.java:714-737 | the plan of a match on INTEGER is well formed |
| ExpressionScenarios.RegexpTypes | test/org/apache/pig/test/TestTypeCheckingValidator.java:652-710 | a match types BOOLEAN; a BYTEARRAY subject is cast to CHARARRAY |
| ExpressionScenarios.NumberMatchRejected | test/org/apache/pig/test/TestTypeCheckingValidator.java:714-737 | a match on an INTEGER subject is rejected |
| ExpressionScenarios.BytesMatchChecked | test/org/apache/pig/test/TestTypeCheckingValidator.java:700-709 | after checking, the match node's operand is a new CHARARRAY Cast whose child is the original subject |
| ExpressionScenarios.IntTimesDouble | test/org/apache/pig/test/TestTypeCheckingValidator.java:539-569 | the plan of INTEGER * DOUBLE is well formed |
| ExpressionScenarios.IntTimesDoubleTypes | test/org/apache/pig/test/TestTypeCheckingValidator.java:557-568 | the node is UNKNOWN before checking and types DOUBLE with the left side cast |
| ExpressionScenarios.NegativeMinusLong | test/org/apache/pig/test/TestTypeCheckingValidator.java:572-611 | the plan of -INTEGER - LONG is well formed |
| ExpressionScenarios.NegativeMinusLongTypes | test/org/apache/pig/test/TestTypeCheckingValidator.java:595-610 | the node is UNKNOWN before checking and types LONG with the left side cast to LONG |
| ExpressionScenarios.BytesModLong | test/org/apache/pig/test/TestTypeCheckingValidator.java:614-647 | the plan of BYTEARRAY % LONG is well formed |
| ExpressionScenarios.BytesModLongTypes | test/org/apache/pig/test/TestTypeCheckingValidator.java:631-646 | the node is UNKNOWN before checking and types LONG with the BYTEARRAY side cast to LONG |
| ExpressionScenarios.CastInsertChecked | test/org/apache/pig/test/TestTypeCheckingValidator.java:606-646 | after checking, each left operand is a new LONG Cast whose child is the original operand, and the right operand is untouched |
| RelationalScenarios.PairColumn | test/org/apache/pig/test/TestTypeCheckingValidator.java:864-874 | a column of a two-input union has the pair's merge and the first input's alias if it has one |
| RelationalScenarios.MixedUnionFirstColumns | test/org/apache/pig/test/TestTypeCheckingValidator.java:864-874 | the union of the mixed inputs starts with field1a DOUBLE and field2a LONG |
| RelationalScenarios.MixedUnionLastColumns | test/org/apache/pig/test/TestTypeCheckingValidator.java:864-874 | it ends with field3b FLOAT and field4b CHARARRAY |
| RelationalScenarios.MixedUnionCasts | test/org/apache/pig/test/TestTypeCheckingValidator.java:878-914 | the left input casts columns 0 and 2 (counting from 0) to DOUBLE and FLOAT, the right input casts column 1 to LONG, and both need wrappers |
| RelationalScenarios.MixedUnionColumns | test/org/apache/pig/test/TestTypeCheckingValidator.java:862-874 | the four union columns are field1a DOUBLE, field2a LONG, field3b FLOAT and field4b CHARARRAY |
| RelationalScenarios.MixedColumnCasts | test/org/apache/pig/test/TestTypeCheckingValidator.java:890-913 | into those four columns, the first input casts columns 0 and 2 and the second input casts column 1 |
| RelationalScenarios.WideningUnion | test/org/apache/pig/test/TestTypeCheckingValidator.java:985-992 | the union of (INTEGER,BYTEARRAY) and (DOUBLE,DOUBLE) has columns field1a DOUBLE and field2a DOUBLE |
| RelationalScenarios.WideningUnionCasts | test/org/apache/pig/test/TestTypeCheckingValidator.java:1000-1019 | the narrow input casts both columns to DOUBLE and needs a wrapper |
| RelationalScenarios.WideningUnionDirect | test/org/apache/pig/test/TestTypeCheckingValidator.java:1000-1019 | the wide input needs no wrapper |
| RelationalScenarios.UnionPlan | test/org/apache/pig/test/TestTypeCheckingValidator.java:923-990 | the two-load union plan is well formed |
| RelationalScenarios.UnionPlanSchema | test/org/apache/pig/test/TestTypeCheckingValidator.java:923-992 | the union operator's reference schema is the union of its two loads' schemas |
| RelationalScenarios.UnionPlanInputs | test/org/apache/pig/test/TestTypeCheckingValidator.java:996-1019 | the union reads the two loads' schemas; its first input needs a casting foreach and its second does not |
| RelationalScenarios.UnionPlanWiring | test/org/apache/pig/test/TestTypeCheckingValidator.java:996-1019 | after validation the first load's only successor is a ForEach whose only successor is the union, and the second load's only successor is the union |
| RelationalScenarios.DoubledColumn | test/org/apache/pig/test/TestTypeCheckingValidator.java:985-992 | each column of the union of (INTEGER,BYTEARRAY) twice and (DOUBLE,DOUBLE) is DOUBLE |
| RelationalScenarios.DoubledUnionCasts | test/org/apache/pig/test/TestTypeCheckingValidator.java:985-992 | in that union the (INTEGER,BYTEARRAY) input needs casts and the (DOUBLE,DOUBLE) input does not |
| RelationalScenarios.DoubledColumns | test/org/apache/pig/test/TestTypeCheckingValidator.java:985-992 | both columns of the doubled union are DOUBLE |
| RelationalScenarios.WideningCasts | test/org/apache/pig/test/TestTypeCheckingValidator.java:985-992 | into two DOUBLE columns, the (INTEGER,BYTEARRAY) input needs casts and the (DOUBLE,DOUBLE) input does not |
| RelationalScenarios.DoubledUnionPlan | test/org/apache/pig/test/TestTypeCheckingValidator.java:923-990 | the plan that unions the first load with itself and the second load is well formed |
| RelationalScenarios.DoubledUnionInputs | test/org/apache/pig/test/TestTypeCheckingValidator.java:996-1019 | the doubled union reads the loads' schemas; both reads of the first load need a casting foreach and the read of the second does not |
| RelationalScenarios.DoubledWrapper | test/org/apache/pig/test/TestTypeCheckingValidator.java:878-914 | each of the first two inputs of the validated doubled union is a ForEach over the first load |
| RelationalScenarios.DoubledUnionWiring | test/org/apache/pig/test/TestTypeCheckingValidator.java:878-914 | after validation the union reads the first load through two different ForEach operators, one per read, and the second load directly |
| RelationalScenarios.FoldPair | test/org/apache/pig/test/TestTypeCheckingValidator.java:1952-1958 | the merge of a two-element list is the pair's merge |
| RelationalScenarios.CogroupByTupleKeys | test/org/apache/pig/test/TestTypeCheckingValidator.java:1952-1958 | keys (FLOAT,LONG) and (DOUBLE,INTEGER) have key types DOUBLE and LONG |
| RelationalScenarios.CogroupByTupleSchema | test/org/apache/pig/test/TestTypeCheckingValidator.java:1952-1973 | the group column is a TUPLE of DOUBLE and LONG, followed by a BAG per input with that input's types |
| RelationalScenarios.CogroupByAtom | test/org/apache/pig/test/TestTypeCheckingValidator.java:2095-2112 | single keys FLOAT and DOUBLE group as DOUBLE, unflagged, followed by two BAGs |
| RelationalScenarios.CogroupIncompatible | test/org/apache/pig/test/TestTypeCheckingValidator.java:2222-2239 | keys FLOAT and CHARARRAY group as BYTEARRAY and the position is flagged |
| RelationalScenarios.ForEachFlattensScalar | test/org/apache/pig/test/TestTypeCheckingValidator.java:2329-2332 | flattening a FLOAT leaves it FLOAT next to a LONG |
| RelationalScenarios.ForEachFlattensBag | test/org/apache/pig/test/TestTypeCheckingValidator.java:2542-2630 | projecting b and c of a bag gives a bag of (LONG,BYTEARRAY); flattening it next to a LONG gives (LONG,BYTEARRAY,LONG) |
| RelationalScenarios.CrossOfTwo | test/org/apache/pig/test/TestTypeCheckingValidator.java:2634-2683 | a cross concatenates its inputs: INTEGER, LONG, BYTEARRAY, FLOAT, DOUBLE |
| PhysicalFilter.Eval | test/org/apache/pig/test/TestFilter.java:104-115 | a projection is defined exactly on an in-range column and yields its integer; comparisons and And yield booleans or null |
| PhysicalFilter.EvalTotal | test/org/apache/pig/test/TestFilter.java:160-185 | a well-kinded predicate over a wide enough row always has a value, an integer exactly for integer expressions |
| PhysicalFilter.AndHolds | test/org/apache/pig/test/TestFilter.java:160-185 | an And holds exactly when both sides hold |
| PhysicalFilter.Filtered | test/org/apache/pig/test/TestFilter.java:92-100 | a filter never emits more rows than it reads |
| PhysicalFilter.FilteredSound | test/org/apache/pig/test/TestFilter.java:92-100 | every emitted row is an input row that satisfies the predicate |
| PhysicalFilter.FilteredComplete | test/org/apache/pig/test/TestFilter.java:92-100 | every input row satisfying the predicate is emitted |
| PhysicalFilter.FilteredAppend | test/org/apache/pig/test/TestFilter.java:139-145 | filtering is done row by row: filtering two batches equals filtering them one after the other |
| PhysicalFilter.Pull | test/org/apache/pig/test/TestFilter.java:85-90 | a pull returns OK with the next satisfying row, the rest of the output following it, or EOP once no satisfying row remains |
| PhysicalFilter.POFilter.constructor | test/org/apache/pig/test/TestFilter.java:62-64 | a filter holds its predicate and input |
| PhysicalFilter.POFilter.AttachInput | test/org/apache/pig/test/TestFilter.java:84-88 | attaching a row makes it the only pending input |
| PhysicalFilter.POFilter.GetNext | test/org/apache/pig/test/TestFilter.java:85-90 | one call returns what a pull over the pending input returns and consumes the rows read |
| PhysicalFilter.POFilter.Drain | test/org/apache/pig/test/TestFilter.java:139-145 | pulling until EOP collects exactly the filtered input and ends with EOP |
| PhysicalFilter.ConstantFilters | test/org/apache/pig/test/TestFilter.java:84-90 | 50 > 25 passes the attached row unchanged; 25 > 50 returns EOP |
| PhysicalFilter.ColumnFilterEmits | test/org/apache/pig/test/TestFilter.java:92-100 | every row a column-1 > 50 filter emits is an input row whose column 1 exceeds 50 |
| PhysicalFilter.SimpleFilterScenario | test/org/apache/pig/test/TestFilter.java:117-156 | col0 > col1 over (0,1),(1,0),(1,1) emits exactly (1,0) |
| PhysicalFilter.AndFilterScenario | test/org/apache/pig/test/TestFilter.java:186-227 | col0 > 0 and col1 == 1 over the same rows emits exactly (1,1) |

## Left out

- The validator's own source (`TypeCheckingValidator`, the `LO*` operators, `Schema`) is not part of this model. The rules are those the test assertions pin down. Where the tests say nothing, the most direct reading is chosen: for example, unary minus follows the arithmetic rule, and Or follows And.
- The following rules and error cases are the model's own choices; no test assertion fixes them:
  - `LogicalPlans.RelRule` rejects a Union whose inputs have different widths with the `UnionWidthMismatch` error.
  - `LogicalPlans.CogroupRule` rejects a Cogroup whose inputs group by keys of different widths with the `GroupKeyArityMismatch` error.
  - `ExpressionPlans.TypeNode` types Or like And: both operands must be BOOLEAN, and the result is BOOLEAN.
  - `ExpressionPlans.TypeNode` types unary minus on BYTEARRAY as BYTEARRAY, with no cast.
  - `DataTypes.ScalarCastable` lets BOOLEAN be cast only to BOOLEAN and BYTEARRAY, and lets only BOOLEAN and BYTEARRAY be cast to BOOLEAN.
  - `DataTypes.ScalarCastable` never lets a TUPLE or a BAG be cast to BYTEARRAY or to any scalar type.
  - `Schemas.Generated` flattens only a BAG. A flattened TUPLE, or a flattened scalar, stays a single column.
  - `DataTypes.ComparisonType` rejects comparing two BOOLEANs and comparing two BAGs.
  - `TypeCheckingValidator.WarnEach` logs one WARN per key position whose key types have no common type. `TypeCheckingValidator.Warnings` counts them, and `TypeCheckingValidator.GroupByKeyTypes` states them. The incompatible-key test at test/org/apache/pig/test/TestTypeCheckingValidator.java:2214-2239 checks only that no error is logged and that the keys become BYTEARRAY.
  - The union whose input is the same operator twice (`RelationalScenarios.DoubledUnionPlan`) is not in the tests. The model gives each read its own casting foreach, as the tests do for two different inputs.
  - `Schemas.UnionColumn` gives a union column whose inputs share no common type the type UNKNOWN. `TypeCheckingValidator.CheckOperator` then logs a WARN for that column, not an error.
- `PigProcessor.java` (Tez plumbing: plan deserialisation, input and output attachment, writer output and commit) is not modelled. It is I/O around an external operator.
- Literal constant values, `FileSpec`/`PigStorage` loads, message texts, and the printing helpers are not modelled. A constant is modelled by the type tag the test gives it.
- The commented-out tests are not modelled: the DAG-shaped expression plan, the third union test, and the third foreach test. Expression plans are node lists, and nothing in the model depends on them being trees.
- `genNewOperatorKey`'s process-wide, thread-safe counter is not modelled. New keys come from a `firstKey`/`nextKey` counter threaded through the methods.
- `TypeCheckingValidator.LogicalPlan.Validate`, `TypeCheckingValidator.AddUnionWrappers`, `TypeCheckingValidator.CastGroupKeys` and `ExpressionChecker.CheckExpressionPlan` promise only that the key counter never goes below `firstKey`. They do not promise that the inserted keys differ from each other or from the keys already in the plan, so key uniqueness is not modelled.
- TestFilter's random data and its helpers (`GenPhyOp`, `GenRandomData`, `TestHelper`) are not modelled. The random bag is any sequence of integer rows, and the properties are stated for every input.
- The MAP type and every operator the tests do not use (Limit, Stream, Store, Join, user functions) are not modelled.
- `DataTypes.ComparisonType`: two BYTEARRAY operands are compared as BYTEARRAY, and BYTEARRAY with CHARARRAY as CHARARRAY with the BYTEARRAY side cast. No test pins either case; the model reads BYTEARRAY as standing in for whichever type the other side has, as it does for arithmetic.
- Tuple equality compares two TUPLE operands without checking that their fields match. That is what the passing test at test/org/apache/pig/test/TestTypeCheckingValidator.java:414-446 requires.
- A structural tuple cast is legal when the target has no more fields than the source and each target field is castable from its source field. The tests pin only one accepted and one rejected shape; the rule for other shapes is this model's reading.
- `ExpressionPlans.ArithmeticOnTwoByteArraysFails`: the tests pin the rejection only for `%` in a sort key. The model rejects BYTEARRAY with BYTEARRAY for every arithmetic operator.
- POAnd's short-circuit value rule is modelled: `PhysicalFilter.Eval` gives false for a false left side without evaluating the right side. Its null handling beyond "an unevaluable predicate drops the row" is not modelled. The POAnd source is not part of this model.
- Integers are unbounded. The tests compare small values only, so Java's 32-bit wrap-around is not modelled.
- The ERR and NULL statuses of `getNext` are not modelled. The model's filter returns only OK and EOP, the two statuses the tests observe.
- `TypeCheckingValidator.LogicalPlan.Validate`: after a failure, the model leaves the plan unchanged. The real validator may already have changed earlier operators in place when it throws; the tests look only at the collector in that case.
- `TypeCheckingValidator.LogicalPlan.Validate`: on failure the contract names an operator that does not type, with every earlier operator typing, but not the problem reported: the operator checks are proved to fail exactly when the reference rule fails, not to return the rule's own error value.
- `ExpressionChecker.CheckExpressionPlan`: the checked plan is shown to hold every rewritten node, with the casts its operands need, and the rewritten leaf last. It is not shown to hold nothing else; only `WireOperands` promises that it appends no other node. The relational plan states the whole layout (`TypeCheckingValidator.ValidatedLayout`).
- The relational scenario lemmas state the schema rules on the key, union and generate fields of each test. They do not build the full operator plans of those tests; the union test is the exception, and its two-load plan is built.
- The Sort and Split assertions (lines 1302-1806) are covered by the general `LogicalPlans.RelRule` and `TypeCheckingValidator.CheckedConditionIsBoolean` contracts, not by per-test lemmas.
