/** Option type used for the source's `None` results and for pandas values that may be missing. */
module Wrappers {
  datatype Option<+T> = None | Some(value: T)

  /** The values of the outcomes that hold one, in order: the `if x: results.append(x)` loops of the scanners. */
  function Present<T>(outcomes: seq<Option<T>>): (r: seq<T>)
    ensures |r| <= |outcomes|
  {
    if outcomes == [] then []
    else
      var n := |outcomes| - 1;
      var before := Present(outcomes[..n]);
      if outcomes[n].Some? then before + [outcomes[n].value] else before
  }

  /** One more outcome adds its value, if any, at the end. */
  lemma PresentStep<T>(outcomes: seq<Option<T>>, i: nat)
    requires i < |outcomes|
    ensures Present(outcomes[..i + 1]) == Present(outcomes[..i]) + (if outcomes[i].Some? then [outcomes[i].value] else [])
  {
    assert outcomes[..i + 1][..i] == outcomes[..i];
  }

  /** The collected values are exactly those of the outcomes that hold one. */
  lemma {:induction false} PresentMembers<T>(outcomes: seq<Option<T>>)
    ensures forall x :: x in Present(outcomes) <==> Some(x) in outcomes
  {
    if outcomes != [] {
      var n := |outcomes| - 1;
      PresentMembers(outcomes[..n]);
      assert forall o :: o in outcomes <==> o in outcomes[..n] || o == outcomes[n];
    }
  }

  /** Outcomes that are all `None` yield nothing. */
  lemma {:induction false} NothingPresent<T>(outcomes: seq<Option<T>>)
    requires forall i :: 0 <= i < |outcomes| ==> outcomes[i].None?
    ensures Present(outcomes) == []
  {
    if outcomes != [] {
      NothingPresent(outcomes[..|outcomes| - 1]);
    }
  }
}
