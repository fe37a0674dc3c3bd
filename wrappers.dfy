/** Failure-compatible wrappers shared by the validator model. */
module Wrappers {

  /** A value that may be absent (a Java reference that may be null). */
  datatype Option<+T> = None | Some(value: T)

  /** The outcome of a check: a value, or the problem that stopped it. */
  datatype Result<+R, +E> = Ok(value: R) | Err(error: E)

  /** The values of a list of results, or the first error among them. */
  function AllOk<T, E>(rs: seq<Result<T, E>>): (r: Result<seq<T>, E>)
    ensures r.Ok? <==> forall k :: 0 <= k < |rs| ==> rs[k].Ok?
    ensures r.Ok? ==> |r.value| == |rs| && forall k :: 0 <= k < |rs| ==> rs[k] == Ok(r.value[k])
  {
    if |rs| == 0 then Ok([])
    else if rs[0].Err? then Err(rs[0].error)
    else
      match AllOk(rs[1..])
      case Ok(vs) => Ok([rs[0].value] + vs)
      case Err(e) =>
        assert forall k :: 1 <= k < |rs| ==> rs[k] == rs[1..][k - 1];
        Err(e)
  }

  /** A failed combination reports the first error among the results. */
  lemma {:induction false} AllOkFirstError<T, E>(rs: seq<Result<T, E>>)
    requires AllOk(rs).Err?
    ensures exists k :: 0 <= k < |rs| && rs[k] == Err(AllOk(rs).error) && forall j :: 0 <= j < k ==> rs[j].Ok?
  {
    if rs[0].Ok? {
      AllOkFirstError(rs[1..]);
      var k :| 0 <= k < |rs[1..]| && rs[1..][k] == Err(AllOk(rs[1..]).error) && forall j :: 0 <= j < k ==> rs[1..][j].Ok?;
      assert rs[k + 1] == Err(AllOk(rs).error);
      assert forall j :: 1 <= j < k + 1 ==> rs[j] == rs[1..][j - 1];
    }
  }

  /** Results that are all Ok combine to the list of their values. */
  lemma AllOkLifts<T, E>(rs: seq<Result<T, E>>, vs: seq<T>)
    requires |rs| == |vs| && forall k :: 0 <= k < |rs| ==> rs[k] == Ok(vs[k])
    ensures AllOk(rs) == Ok(vs)
  {
    assert AllOk(rs).value == vs;
  }

  /** The same for at most three results, given one by one. */
  lemma AllOkOfFew<T, E>(rs: seq<Result<T, E>>, vs: seq<T>)
    requires |rs| == |vs| <= 3
    requires |rs| > 0 ==> rs[0] == Ok(vs[0])
    requires |rs| > 1 ==> rs[1] == Ok(vs[1])
    requires |rs| > 2 ==> rs[2] == Ok(vs[2])
    ensures AllOk(rs) == Ok(vs)
  {
    forall k | 0 <= k < |rs|
      ensures rs[k] == Ok(vs[k])
    {
      if k == 0 {
      } else if k == 1 {
      } else {
      }
    }
    AllOkLifts(rs, vs);
  }
}
