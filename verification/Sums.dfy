/** Totals over lists, and how they move when one entry changes. */
module Sums {

  function Sum(xs: seq<int>): int {
    if xs == [] then 0 else Sum(xs[..|xs| - 1]) + xs[|xs| - 1]
  }

  lemma {:induction false} SumConcat(xs: seq<int>, ys: seq<int>)
    ensures Sum(xs + ys) == Sum(xs) + Sum(ys)
  {
    if ys == [] {
      assert xs + ys == xs;
    } else {
      assert (xs + ys)[..|xs + ys| - 1] == xs + ys[..|ys| - 1];
      SumConcat(xs, ys[..|ys| - 1]);
    }
  }

  lemma SumSplit(xs: seq<int>, i: nat)
    requires i < |xs|
    ensures Sum(xs) == Sum(xs[..i]) + xs[i] + Sum(xs[i + 1..])
  {
    assert xs == xs[..i + 1] + xs[i + 1..];
    assert xs[..i + 1][..i] == xs[..i];
    SumConcat(xs[..i + 1], xs[i + 1..]);
  }

  lemma SumUpdate(xs: seq<int>, i: nat, x: int)
    requires i < |xs|
    ensures Sum(xs[i := x]) == Sum(xs) - xs[i] + x
  {
    var ys := xs[i := x];
    SumSplit(xs, i);
    SumSplit(ys, i);
    assert ys[..i] == xs[..i] && ys[i + 1..] == xs[i + 1..];
  }

  lemma SumRemove(xs: seq<int>, i: nat)
    requires i < |xs|
    ensures Sum(xs[..i] + xs[i + 1..]) == Sum(xs) - xs[i]
  {
    SumSplit(xs, i);
    SumConcat(xs[..i], xs[i + 1..]);
  }

  /** Entry by entry no larger, and anything added is zero: the total is no larger. */
  lemma {:induction false} SumNotUp(xs: seq<int>, ys: seq<int>)
    requires |xs| <= |ys|
    requires forall k :: 0 <= k < |xs| ==> ys[k] <= xs[k]
    requires forall k :: |xs| <= k < |ys| ==> ys[k] == 0
    ensures Sum(ys) <= Sum(xs)
    decreases |ys|
  {
    if |xs| < |ys| {
      SumNotUp(xs, ys[..|ys| - 1]);
    } else if ys != [] {
      SumNotUp(xs[..|xs| - 1], ys[..|ys| - 1]);
    }
  }
}
