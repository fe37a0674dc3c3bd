/** The message collector the validator reports to, and the problems it
  * reports. Message text is not modelled: a message is its level and the
  * kind of event it records. */
module Diagnostics {

  datatype Level = Info | Warning | Error

  /** Why a plan does not type-check. */
  datatype Problem =
    | ArithmeticOperands      // +, -, *, /, % or unary minus on operands with no numeric meeting point
    | ComparisonOperands      // a comparison of incomparable operands
    | BooleanOperands         // and, or, not on non-boolean operands
    | RegexpSubject           // a regular-expression match on a non-text subject
    | BinCondOperands         // a conditional with a non-boolean condition or unmergeable branches
    | IllegalCast             // an explicit cast the cast rules forbid
    | ProjectionOutOfRange    // a projection of a missing column, or of a scalar
    | NonBooleanCondition     // a filter or split condition that is not boolean
    | UnionWidthMismatch      // union inputs with different numbers of columns
    | GroupKeyArityMismatch   // cogroup inputs grouped by keys of different widths

  /** What a message records. */
  datatype Event =
    | CastInserted            // an implicit cast was added to the plan
    | UnionColumnUnknown      // a union column has no common type and becomes UNKNOWN
    | GroupKeyAsBytes         // a cogroup key position has no common type and becomes BYTEARRAY
    | Failed(problem: Problem)

  datatype Message = Message(level: Level, event: Event)

  /** `after` is `before` with messages appended: the log only grows. */
  predicate Extends(before: seq<Message>, after: seq<Message>) {
    |before| <= |after| && after[..|before|] == before
  }

  lemma ExtendsTransitive(a: seq<Message>, b: seq<Message>, c: seq<Message>)
    requires Extends(a, b) && Extends(b, c)
    ensures Extends(a, c)
  {
    assert c[..|a|] == c[..|b|][..|a|];
  }

  /** The log a validation run appends to. It has an error once any ERROR
    * message has been collected. */
  class MessageCollector {
    var messages: seq<Message>

    constructor()
      ensures messages == []
    {
      messages := [];
    }

    predicate HasError()
      reads this
    {
      exists i :: 0 <= i < |messages| && messages[i].level == Error
    }

    method Collect(level: Level, event: Event)
      modifies this
      ensures messages == old(messages) + [Message(level, event)]
      ensures HasError() <==> old(HasError()) || level == Error
    {
      messages := messages + [Message(level, event)];
      assert messages[|messages| - 1] == Message(level, event);
      assert forall i :: 0 <= i < |old(messages)| ==> messages[i] == old(messages)[i];
    }
  }
}
