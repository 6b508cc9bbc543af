/** Sums over lists of natural numbers. */
module Sums {
  function Sum(xs: seq<nat>): nat {
    if xs == [] then 0 else Sum(xs[..|xs| - 1]) + xs[|xs| - 1]
  }

  lemma {:induction false} SumUpdate(xs: seq<nat>, k: nat, x: nat)
    requires k < |xs|
    ensures Sum(xs[k := x]) == Sum(xs) - xs[k] + x
  {
    var init := xs[..|xs| - 1];
    if k == |xs| - 1 {
      assert xs[k := x][..|xs| - 1] == init;
    } else {
      SumUpdate(init, k, x);
      assert xs[k := x][..|xs| - 1] == init[k := x];
    }
  }

  lemma {:induction false} SumZero(xs: seq<nat>)
    ensures Sum(xs) == 0 <==> forall i :: 0 <= i < |xs| ==> xs[i] == 0
  {
    if xs == [] {
    } else {
      SumZero(xs[..|xs| - 1]);
      assert forall i :: 0 <= i < |xs| - 1 ==> xs[..|xs| - 1][i] == xs[i];
    }
  }

  lemma {:induction false} SumBounded(xs: seq<nat>, bound: nat)
    requires forall i :: 0 <= i < |xs| ==> xs[i] <= bound
    ensures Sum(xs) <= |xs| * bound
  {
    if xs == [] {
    } else {
      SumBounded(xs[..|xs| - 1], bound);
      assert |xs| * bound == (|xs| - 1) * bound + bound;
    }
  }

  /** Sums of lists that differ at one place. */
  lemma SumDiffersAt(before: seq<nat>, after: seq<nat>, k: nat)
    requires k < |before| == |after|
    requires forall i :: 0 <= i < |before| && i != k ==> after[i] == before[i]
    ensures Sum(after) == Sum(before) - before[k] + after[k]
  {
    assert after == before[k := after[k]];
    SumUpdate(before, k, after[k]);
  }
}
