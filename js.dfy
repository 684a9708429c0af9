/** The few JavaScript value rules the dashboard's decisions rest on. */
module Js {
  import opened Wrappers

  /** An optional string is truthy when it is present and not empty
      (`undefined`, `null` and `""` are falsy). */
  predicate Truthy(s: Option<string>)
    ensures !Truthy(s) <==> s == None || s == Some("")
  {
    s.Some? && s.value != ""
  }

  /** `xs[0] || xs[1] || ...` used as a condition: the first truthy operand,
      or None when every operand is falsy. */
  function FirstTruthy(xs: seq<Option<string>>): (r: Option<string>)
    ensures r.None? <==> forall i :: 0 <= i < |xs| ==> !Truthy(xs[i])
    ensures r.Some? ==> Truthy(r) && r in xs
  {
    if xs == [] then None
    else if Truthy(xs[0]) then xs[0]
    else
      var r := FirstTruthy(xs[1..]);
      assert forall k :: 1 <= k < |xs| ==> xs[k] == xs[1..][k - 1];
      r
  }

  /** The chain yields the operand at `k` when it is the first truthy one. */
  lemma {:induction false} FirstTruthyAt(xs: seq<Option<string>>, k: nat)
    requires k < |xs| && Truthy(xs[k])
    requires forall j :: 0 <= j < k ==> !Truthy(xs[j])
    ensures FirstTruthy(xs) == xs[k]
  {
    if k > 0 {
      FirstTruthyAt(xs[1..], k - 1);
    }
  }
}
