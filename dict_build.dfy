/** Dictionaries built by a comprehension over a list: a later element overwrites an earlier one with the same key. */
module DictBuild {
  /** `xs[i]` is the last element of `xs` with its key. */
  predicate IsLast<T, K(==)>(xs: seq<T>, key: T -> K, i: int)
    requires 0 <= i < |xs|
  {
    forall j :: i < j < |xs| ==> key(xs[j]) != key(xs[i])
  }

  /** `{key(x): val(x) for x in xs}`. */
  function LastWins<T, K(==), V>(xs: seq<T>, key: T -> K, val: T -> V): (d: map<K, V>)
    ensures d.Keys == set i | 0 <= i < |xs| :: key(xs[i])
    ensures forall k :: k in d ==>
      exists i :: 0 <= i < |xs| && key(xs[i]) == k && IsLast(xs, key, i) && d[k] == val(xs[i])
  {
    if xs == [] then map[]
    else
      var init := xs[..|xs| - 1];
      var x := xs[|xs| - 1];
      var d := LastWins(init, key, val)[key(x) := val(x)];
      assert IsLast(xs, key, |xs| - 1);
      assert forall i :: 0 <= i < |init| ==> init[i] == xs[i];
      assert forall i :: 0 <= i < |init| && IsLast(init, key, i) && key(xs[i]) != key(x) ==> IsLast(xs, key, i);
      d
  }
}
