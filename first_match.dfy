/** The first-match search behind `next(...)` and the `for ... break` loops over vehicles and instruments. */
module FirstMatch {
  import opened Wrappers

  /** The first element of `xs` that satisfies `p`, or `None` when none does. */
  function FirstWhere<T>(xs: seq<T>, p: T -> bool): (r: Option<T>)
    ensures r.None? <==> forall k :: 0 <= k < |xs| ==> !p(xs[k])
    ensures r.Some? ==> exists k :: 0 <= k < |xs| && IsFirst(xs, p, k) && xs[k] == r.value
  {
    if xs == [] then None
    else if p(xs[0]) then (assert IsFirst(xs, p, 0); Some(xs[0]))
    else
      var r := FirstWhere(xs[1..], p);
      assert forall k :: 0 <= k < |xs| - 1 && IsFirst(xs[1..], p, k) ==>
        IsFirst(xs, p, k + 1) && xs[k + 1] == xs[1..][k];
      assert forall k :: 1 <= k < |xs| ==> xs[k] == xs[1..][k - 1];
      r
  }

  /** `xs[k]` satisfies `p` and no earlier element does. */
  predicate IsFirst<T>(xs: seq<T>, p: T -> bool, k: int)
    requires 0 <= k < |xs|
  {
    p(xs[k]) && forall j :: 0 <= j < k ==> !p(xs[j])
  }

  /** The first match is the same whatever follows it. */
  lemma {:induction false} FirstWhereOfPrefix<T>(xs: seq<T>, ys: seq<T>, p: T -> bool)
    requires FirstWhere(xs, p).Some?
    ensures FirstWhere(xs + ys, p) == FirstWhere(xs, p)
  {
    if !p(xs[0]) {
      assert (xs + ys)[1..] == xs[1..] + ys;
      FirstWhereOfPrefix(xs[1..], ys, p);
    }
  }
}
