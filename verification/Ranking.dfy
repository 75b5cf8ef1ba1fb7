/** Sorting by a total order, as `sorted` does it: what the order decides does not depend on the input order. */
module Ranking {

  ghost predicate TotalOrder<T(!new)>(before: (T, T) -> bool) {
    && (forall a, b :: before(a, b) || before(b, a))
    && (forall a, b, c :: before(a, b) && before(b, c) ==> before(a, c))
  }

  predicate Sorted<T>(xs: seq<T>, before: (T, T) -> bool) {
    forall i, k :: 0 <= i < k < |xs| ==> before(xs[i], xs[k])
  }

  function Insert<T>(x: T, xs: seq<T>, before: (T, T) -> bool): (r: seq<T>)
    ensures |r| == |xs| + 1
  {
    if xs == [] then [x]
    else if before(x, xs[0]) then [x] + xs
    else [xs[0]] + Insert(x, xs[1..], before)
  }

  function Sort<T>(xs: seq<T>, before: (T, T) -> bool): (r: seq<T>)
    ensures |r| == |xs|
  {
    if xs == [] then [] else Insert(xs[0], Sort(xs[1..], before), before)
  }

  lemma {:induction false} InsertAdds<T>(x: T, xs: seq<T>, before: (T, T) -> bool)
    ensures multiset(Insert(x, xs, before)) == multiset(xs)[x := multiset(xs)[x] + 1]
  {
    if xs != [] && !before(x, xs[0]) {
      InsertAdds(x, xs[1..], before);
      assert xs == [xs[0]] + xs[1..];
    } else {
      assert [x] + xs == if xs == [] then [x] else [x] + xs;
    }
  }

  lemma {:induction false} InsertSorts<T(!new)>(x: T, xs: seq<T>, before: (T, T) -> bool)
    requires TotalOrder(before) && Sorted(xs, before)
    ensures Sorted(Insert(x, xs, before), before)
  {
    if xs == [] {
    } else if before(x, xs[0]) {
      AllAfter(x, xs, before);
    } else {
      var rest := Insert(x, xs[1..], before);
      InsertSorts(x, xs[1..], before);
      InsertAdds(x, xs[1..], before);
      forall k | 0 <= k < |rest| ensures before(xs[0], rest[k]) {
        assert rest[k] in multiset(rest);
        if rest[k] != x {
          assert rest[k] in multiset(xs[1..]);
          var i :| 0 <= i < |xs[1..]| && xs[1..][i] == rest[k];
          assert before(xs[0], xs[i + 1]);
        }
      }
      SortedCons(xs[0], rest, before);
    }
  }

  lemma SortedCons<T>(x: T, xs: seq<T>, before: (T, T) -> bool)
    requires Sorted(xs, before) && forall k :: 0 <= k < |xs| ==> before(x, xs[k])
    ensures Sorted([x] + xs, before)
  {
  }

  lemma AllAfter<T(!new)>(x: T, xs: seq<T>, before: (T, T) -> bool)
    requires TotalOrder(before) && Sorted(xs, before) && xs != [] && before(x, xs[0])
    ensures Sorted([x] + xs, before)
  {
    forall k | 0 <= k < |xs| ensures before(x, xs[k]) {
      if k > 0 { assert before(xs[0], xs[k]); }
    }
    SortedCons(x, xs, before);
  }

  lemma {:induction false} SortSorts<T(!new)>(xs: seq<T>, before: (T, T) -> bool)
    requires TotalOrder(before)
    ensures Sorted(Sort(xs, before), before)
    ensures multiset(Sort(xs, before)) == multiset(xs)
  {
    if xs != [] {
      SortSorts(xs[1..], before);
      InsertSorts(xs[0], Sort(xs[1..], before), before);
      InsertAdds(xs[0], Sort(xs[1..], before), before);
      assert xs == [xs[0]] + xs[1..];
    }
  }

  /** No two different elements are ranked alike. */
  predicate Strict<T(==)>(xs: seq<T>, before: (T, T) -> bool) {
    forall a, b :: a in xs && b in xs && before(a, b) && before(b, a) ==> a == b
  }

  lemma SameHead<T>(xs: seq<T>, ys: seq<T>, before: (T, T) -> bool)
    requires multiset(xs) == multiset(ys) && Sorted(xs, before) && Sorted(ys, before) && Strict(xs, before)
    requires xs != []
    ensures ys != [] && xs[0] == ys[0]
  {
    assert xs[0] in multiset(ys);
    var i :| 0 <= i < |ys| && ys[i] == xs[0];
    assert ys[0] in multiset(xs);
    var k :| 0 <= k < |xs| && xs[k] == ys[0];
    if i > 0 && k > 0 { assert before(ys[0], ys[i]) && before(xs[0], xs[k]); }
  }

  lemma SameTail<T>(xs: seq<T>, ys: seq<T>)
    requires multiset(xs) == multiset(ys) && xs != [] && ys != [] && xs[0] == ys[0]
    ensures multiset(xs[1..]) == multiset(ys[1..])
  {
    assert xs == [xs[0]] + xs[1..] && ys == [ys[0]] + ys[1..];
    assert multiset(xs[1..]) == multiset(xs) - multiset([xs[0]]);
    assert multiset(ys[1..]) == multiset(ys) - multiset([ys[0]]);
  }

  /** A strictly ranked collection has one sorted arrangement. */
  lemma {:induction false} SortedUnique<T>(xs: seq<T>, ys: seq<T>, before: (T, T) -> bool)
    requires multiset(xs) == multiset(ys) && Sorted(xs, before) && Sorted(ys, before) && Strict(xs, before)
    ensures xs == ys
  {
    if xs != [] {
      SameHead(xs, ys, before);
      SameTail(xs, ys);
      SortedUnique(xs[1..], ys[1..], before);
      assert xs == [xs[0]] + xs[1..] && ys == [ys[0]] + ys[1..];
    } else {
      assert |ys| == |multiset(ys)|;
    }
  }

  lemma SortIgnoresOrder<T(!new)>(xs: seq<T>, ys: seq<T>, before: (T, T) -> bool)
    requires TotalOrder(before) && multiset(xs) == multiset(ys) && Strict(xs, before)
    ensures Sort(xs, before) == Sort(ys, before)
  {
    SortSorts(xs, before);
    SortSorts(ys, before);
    var sorted := Sort(xs, before);
    forall a, b | a in sorted && b in sorted && before(a, b) && before(b, a) ensures a == b {
      assert a in multiset(xs) && b in multiset(xs);
    }
    SortedUnique(sorted, Sort(ys, before), before);
  }

  predicate Distinct<T(==)>(xs: seq<T>) { forall i, k :: 0 <= i < k < |xs| ==> xs[i] != xs[k] }

  lemma {:induction false} DistinctOnce<T>(xs: seq<T>)
    requires Distinct(xs)
    ensures forall x :: x in xs ==> multiset(xs)[x] == 1
  {
    if xs != [] {
      DistinctOnce(xs[1..]);
      assert xs == [xs[0]] + xs[1..];
      assert xs[0] !in xs[1..];
    }
  }

  lemma OnceDistinct<T>(xs: seq<T>)
    requires forall x :: x in xs ==> multiset(xs)[x] == 1
    ensures Distinct(xs)
  {
    forall i, k | 0 <= i < k < |xs| ensures xs[i] != xs[k] {
      assert xs == xs[..k] + xs[k..];
      assert xs[..k][i] == xs[i] && xs[k..][0] == xs[k];
      assert xs[i] in multiset(xs[..k]) && xs[k] in multiset(xs[k..]);
      assert multiset(xs)[xs[i]] == multiset(xs[..k])[xs[i]] + multiset(xs[k..])[xs[i]];
      assert multiset(xs)[xs[i]] == 1;
    }
  }

  lemma SortDistinct<T(!new)>(xs: seq<T>, before: (T, T) -> bool)
    requires TotalOrder(before) && Distinct(xs)
    ensures Distinct(Sort(xs, before))
    ensures forall x :: x in Sort(xs, before) <==> x in xs
  {
    SortSorts(xs, before);
    DistinctOnce(xs);
    var sorted := Sort(xs, before);
    forall x ensures x in sorted <==> x in xs {
      assert x in sorted <==> x in multiset(sorted);
      assert x in xs <==> x in multiset(xs);
    }
    OnceDistinct(sorted);
  }

  /** Taking one element out of two arrangements of a collection leaves two arrangements of the rest. */
  lemma RestOfArrangement<T>(xs: seq<T>, ys: seq<T>, i: nat)
    requires multiset(xs) == multiset(ys) && xs != [] && i < |ys| && ys[i] == xs[0]
    ensures multiset(xs[1..]) == multiset(ys[..i] + ys[i + 1..])
    ensures ys == ys[..i] + ([ys[i]] + ys[i + 1..])
  {
    var first := multiset([xs[0]]);
    assert xs == [xs[0]] + xs[1..] && ys == ys[..i] + ([ys[i]] + ys[i + 1..]);
    assert multiset(xs) == first + multiset(xs[1..]);
    assert multiset(ys) == multiset(ys[..i]) + (first + multiset(ys[i + 1..]));
    var rest := multiset(ys[..i]) + multiset(ys[i + 1..]);
    assert multiset(ys[..i] + ys[i + 1..]) == rest;
    assert multiset(xs[1..]) == multiset(xs) - first == multiset(ys) - first == rest;
  }
}
