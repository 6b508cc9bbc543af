/** Sorting by key, which makes a run independent of the order in which maps hand out their entries. */
module Ordering {
  import opened Types

  datatype Keyed<T> = Keyed(key: NodeId, value: T)

  predicate SortedByKey<T>(xs: seq<Keyed<T>>) {
    forall i, j :: 0 <= i < j < |xs| ==> xs[i].key <= xs[j].key
  }

  predicate DistinctKeys<T>(xs: seq<Keyed<T>>) {
    forall i, j :: 0 <= i < j < |xs| ==> xs[i].key != xs[j].key
  }

  function Keys<T>(xs: seq<Keyed<T>>): seq<NodeId> {
    seq(|xs|, i requires 0 <= i < |xs| => xs[i].key)
  }

  function Insert<T>(xs: seq<Keyed<T>>, x: Keyed<T>): seq<Keyed<T>> {
    if xs == [] || xs[|xs| - 1].key <= x.key then xs + [x]
    else Insert(xs[..|xs| - 1], x) + [xs[|xs| - 1]]
  }

  /** `sort_by` on the key: a stable sort. */
  function SortByKey<T>(xs: seq<Keyed<T>>): seq<Keyed<T>> {
    if xs == [] then [] else Insert(SortByKey(xs[..|xs| - 1]), xs[|xs| - 1])
  }

  lemma {:induction false} InsertAdds<T>(xs: seq<Keyed<T>>, x: Keyed<T>)
    ensures multiset(Insert(xs, x)) == multiset(xs) + multiset{x}
    decreases |xs|
  {
    if xs != [] && xs[|xs| - 1].key > x.key {
      InsertAdds(xs[..|xs| - 1], x);
      assert xs == xs[..|xs| - 1] + [xs[|xs| - 1]];
    }
  }

  lemma InsertHolds<T>(xs: seq<Keyed<T>>, x: Keyed<T>, y: Keyed<T>)
    requires y in Insert(xs, x)
    ensures y == x || exists i :: 0 <= i < |xs| && xs[i] == y
  {
    InsertAdds(xs, x);
    assert y in multiset(Insert(xs, x));
    if y != x { assert y in multiset(xs); }
  }

  lemma {:induction false} InsertSorts<T>(xs: seq<Keyed<T>>, x: Keyed<T>)
    requires SortedByKey(xs)
    ensures SortedByKey(Insert(xs, x))
    decreases |xs|
  {
    if xs != [] && xs[|xs| - 1].key > x.key {
      var init, last := xs[..|xs| - 1], xs[|xs| - 1];
      InsertSorts(init, x);
      forall y | y in Insert(init, x) ensures y.key <= last.key {
        InsertHolds(init, x, y);
      }
    }
  }

  lemma {:induction false} SortSorts<T>(xs: seq<Keyed<T>>)
    ensures SortedByKey(SortByKey(xs))
    ensures multiset(SortByKey(xs)) == multiset(xs)
  {
    if xs == [] {
    } else {
      var init, last := xs[..|xs| - 1], xs[|xs| - 1];
      assert xs == init + [last];
      SortSorts(init);
      InsertSorts(SortByKey(init), last);
      InsertAdds(SortByKey(init), last);
    }
  }

  lemma DropLast<T>(xs: seq<T>)
    requires xs != []
    ensures multiset(xs[..|xs| - 1]) == multiset(xs) - multiset{xs[|xs| - 1]}
  {
    assert xs == xs[..|xs| - 1] + [xs[|xs| - 1]];
  }

  lemma SameElements<T>(xs: seq<T>, ys: seq<T>, x: T)
    requires multiset(xs) == multiset(ys) && x in xs
    ensures exists i :: 0 <= i < |ys| && ys[i] == x
  {
    assert x in multiset(xs);
    assert x in ys;
  }

  /** Both lists end in the largest key. */
  lemma LastAgrees<T>(xs: seq<Keyed<T>>, ys: seq<Keyed<T>>)
    requires SortedByKey(xs) && SortedByKey(ys) && DistinctKeys(xs) && multiset(xs) == multiset(ys)
    requires xs != [] && ys != []
    ensures xs[|xs| - 1] == ys[|ys| - 1]
  {
    SameElements(xs, ys, xs[|xs| - 1]);
    SameElements(ys, xs, ys[|ys| - 1]);
  }

  /** A list with distinct keys that is sorted is determined by its elements. */
  lemma {:induction false} SortedUnique<T>(xs: seq<Keyed<T>>, ys: seq<Keyed<T>>)
    requires SortedByKey(xs) && SortedByKey(ys) && DistinctKeys(xs) && multiset(xs) == multiset(ys)
    ensures xs == ys
    decreases |xs|
  {
    SameLength(xs, ys);
    if xs == [] {
    } else {
      LastAgrees(xs, ys);
      DropLast(xs);
      DropLast(ys);
      SortedUnique(xs[..|xs| - 1], ys[..|ys| - 1]);
      assert xs == xs[..|xs| - 1] + [xs[|xs| - 1]] && ys == ys[..|ys| - 1] + [ys[|ys| - 1]];
    }
  }

  lemma SameLength<T>(xs: seq<T>, ys: seq<T>)
    requires multiset(xs) == multiset(ys)
    ensures |xs| == |ys|
  {
    assert |multiset(xs)| == |xs|;
  }

  /** Distinct keys stay distinct under permutation. */
  lemma PermutationDistinct<T>(xs: seq<Keyed<T>>, ys: seq<Keyed<T>>)
    requires multiset(xs) == multiset(ys) && DistinctKeys(xs)
    ensures DistinctKeys(ys)
  {
    forall i, j | 0 <= i < j < |ys| ensures ys[i].key != ys[j].key {
      if ys[i].key == ys[j].key {
        assert ys[i] in multiset(ys) && ys[j] in multiset(ys);
        assert ys[i] in xs && ys[j] in xs;
        var a :| 0 <= a < |xs| && xs[a] == ys[i];
        OccursOnce(xs, a);
        OccursTwice(ys, i, j);
      }
    }
  }

  lemma OccursOnce<T>(xs: seq<Keyed<T>>, a: nat)
    requires DistinctKeys(xs) && a < |xs|
    ensures multiset(xs)[xs[a]] == 1
  {
    assert xs == xs[..a] + [xs[a]] + xs[a + 1..];
    assert xs[a] !in xs[..a] && xs[a] !in xs[a + 1..];
  }

  lemma OccursTwice<T>(ys: seq<Keyed<T>>, i: nat, j: nat)
    requires i < j < |ys|
    ensures ys[i] == ys[j] ==> multiset(ys)[ys[i]] >= 2
  {
    assert ys == ys[..j] + [ys[j]] + ys[j + 1..];
    assert ys[i] in ys[..j];
  }

  lemma SortDistinct<T>(xs: seq<Keyed<T>>)
    requires DistinctKeys(xs)
    ensures DistinctKeys(SortByKey(xs))
  {
    SortSorts(xs);
    PermutationDistinct(xs, SortByKey(xs));
  }

  /** With distinct keys the sorted list is the same for every order of the entries. */
  lemma SortForgetsOrder<T>(xs: seq<Keyed<T>>, ys: seq<Keyed<T>>)
    requires multiset(xs) == multiset(ys) && DistinctKeys(xs)
    ensures SortByKey(xs) == SortByKey(ys)
  {
    SortSorts(xs);
    SortSorts(ys);
    SortDistinct(xs);
    SortedUnique(SortByKey(xs), SortByKey(ys));
  }
}
