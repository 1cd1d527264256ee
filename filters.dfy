/**
 * `Array.prototype.filter`: the elements a test keeps, in their order.  The stores drop
 * prompts and messages by id with it, and the chat panel drops the reasoning messages from the
 * history it sends.
 */
module Filters {

  /** `xs.filter(keep)`. */
  function Filter<T(==)>(xs: seq<T>, keep: T -> bool): (r: seq<T>)
    ensures |r| <= |xs|
    ensures forall i :: 0 <= i < |r| ==> keep(r[i])
    ensures (forall i :: 0 <= i < |xs| ==> keep(xs[i])) ==> r == xs
  {
    if xs == [] then []
    else
      var rest := Filter(xs[1..], keep);
      assert forall i :: 1 <= i < |xs| ==> xs[1..][i - 1] == xs[i];
      if keep(xs[0]) then [xs[0]] + rest else rest
  }

  /** What is kept is exactly the elements that pass the test. */
  lemma {:induction false} FilterMembers<T>(xs: seq<T>, keep: T -> bool)
    ensures forall x :: x in Filter(xs, keep) <==> x in xs && keep(x)
  {
    if xs != [] {
      FilterMembers(xs[1..], keep);
      assert forall x :: x in xs <==> x == xs[0] || x in xs[1..];
    }
  }

  /** Filtering a concatenation filters each part: what is kept keeps its order. */
  lemma {:induction false} FilterAppend<T>(xs: seq<T>, ys: seq<T>, keep: T -> bool)
    ensures Filter(xs + ys, keep) == Filter(xs, keep) + Filter(ys, keep)
  {
    if xs == [] {
      assert xs + ys == ys;
    } else {
      assert (xs + ys)[0] == xs[0];
      assert (xs + ys)[1..] == xs[1..] + ys;
      FilterAppend(xs[1..], ys, keep);
    }
  }
}
