/**
 * Selecting the `n` highest-ranked elements of a sequence, in non-increasing
 * order of a key. Used for `sorted(..., key=words.count, reverse=True)[:5]` and
 * for the store's `order_by(..., DESCENDING).limit(n)` queries. Among equal keys
 * the element that comes first in the input is taken first.
 */
module Ranking {

  function Min(a: int, b: int): int { if a <= b then a else b }

  predicate Distinct<T(==)>(xs: seq<T>) {
    forall i, j :: 0 <= i < j < |xs| ==> xs[i] != xs[j]
  }

  /** Non-increasing in `key`. */
  predicate SortedBy<T>(r: seq<T>, key: T -> int) {
    forall i, j :: 0 <= i < j < |r| ==> key(r[i]) >= key(r[j])
  }

  /** No element of `xs` that `r` leaves out ranks above the last element of `r`. */
  predicate NoneOmittedAbove<T(==)>(xs: seq<T>, r: seq<T>, key: T -> int) {
    r != [] ==> forall i :: 0 <= i < |xs| && xs[i] !in r ==> key(xs[i]) <= key(r[|r| - 1])
  }

  /** Among elements with equal keys, `r` is ordered by `ge`. */
  predicate TiesOrdered<T>(r: seq<T>, key: T -> int, ge: (T, T) -> bool) {
    forall i, j :: 0 <= i < j < |r| && key(r[i]) == key(r[j]) ==> ge(r[i], r[j])
  }

  /** No element of `xs` that `r` leaves out with the last key of `r` comes before that element by `ge`. */
  predicate NoTieOmittedAbove<T(==)>(xs: seq<T>, r: seq<T>, key: T -> int, ge: (T, T) -> bool) {
    r != [] ==> forall i :: 0 <= i < |xs| && xs[i] !in r && key(xs[i]) == key(r[|r| - 1]) ==> ge(r[|r| - 1], xs[i])
  }

  /** `ge` orders any two elements one way or the other, and transitively. */
  ghost predicate TotalPreorder<T(!new)>(ge: (T, T) -> bool) {
    (forall a, b :: ge(a, b) || ge(b, a))
    && (forall a, b, c :: ge(a, b) && ge(b, c) ==> ge(a, c))
  }

  predicate OrderedBy<T>(xs: seq<T>, ge: (T, T) -> bool) {
    forall i, j :: 0 <= i < j < |xs| ==> ge(xs[i], xs[j])
  }

  /** Nothing `r` leaves out ranks above its last element, and a tie with it comes after it by `ge`. */
  predicate NoneOmittedBeyond<T(==)>(docs: seq<T>, r: seq<T>, key: T -> int, ge: (T, T) -> bool) {
    r != [] ==> forall m :: m in docs && m !in r ==>
      key(m) <= key(r[|r| - 1]) && (key(m) == key(r[|r| - 1]) ==> ge(r[|r| - 1], m))
  }

  /** The index of the first element with the greatest key. */
  function ArgMax<T>(xs: seq<T>, key: T -> int): (k: nat)
    requires |xs| > 0
    ensures k < |xs|
    ensures forall i :: 0 <= i < |xs| ==> key(xs[i]) <= key(xs[k])
    ensures forall i :: 0 <= i < k ==> key(xs[i]) < key(xs[k])
  {
    if |xs| == 1 then 0
    else
      var j := ArgMax(xs[1..], key) + 1;
      assert forall i :: 1 <= i < |xs| ==> xs[i] == xs[1..][i - 1];
      if key(xs[0]) >= key(xs[j]) then 0 else j
  }

  function RemoveAt<T>(xs: seq<T>, k: nat): (r: seq<T>)
    requires k < |xs|
    ensures |r| == |xs| - 1
    ensures forall i :: 0 <= i < |r| ==> r[i] == if i < k then xs[i] else xs[i + 1]
  {
    xs[..k] + xs[k + 1..]
  }

  /** The `n` highest-ranked elements of `xs`, best first. */
  function TopBy<T>(xs: seq<T>, key: T -> int, n: nat): (r: seq<T>)
    ensures |r| == Min(n, |xs|)
    decreases n
  {
    if n == 0 || xs == [] then []
    else
      var k := ArgMax(xs, key);
      [xs[k]] + TopBy(RemoveAt(xs, k), key, n - 1)
  }

  /** Every selected element is drawn from the input. */
  lemma {:induction false} TopByMembers<T>(xs: seq<T>, key: T -> int, n: nat)
    ensures forall i :: 0 <= i < |TopBy(xs, key, n)| ==> TopBy(xs, key, n)[i] in xs
    decreases n
  {
    if n > 0 && xs != [] {
      var k := ArgMax(xs, key);
      var ys := RemoveAt(xs, k);
      var rest := TopBy(ys, key, n - 1);
      TopByMembers(ys, key, n - 1);
      var r := TopBy(xs, key, n);
      assert r == [xs[k]] + rest;
      forall i | 0 <= i < |r| ensures r[i] in xs {
        if i > 0 {
          var j :| 0 <= j < |ys| && ys[j] == rest[i - 1];
          assert ys[j] == if j < k then xs[j] else xs[j + 1];
        }
      }
    }
  }

  /** The selection takes each element of the input at most as often as it occurs there. */
  lemma {:induction false} TopBySubMultiset<T>(xs: seq<T>, key: T -> int, n: nat)
    ensures multiset(TopBy(xs, key, n)) <= multiset(xs)
    decreases n, 1
  {
    if n > 0 && xs != [] {
      var k := ArgMax(xs, key);
      RemovedSubMultiset(xs, key, n, k);
      assert TopBy(xs, key, n) == [xs[k]] + TopBy(RemoveAt(xs, k), key, n - 1);
    }
  }

  /** Taking `xs[k]` and then a selection from the rest stays within `xs`. */
  lemma {:induction false} RemovedSubMultiset<T>(xs: seq<T>, key: T -> int, n: nat, k: nat)
    requires 0 < n && k < |xs|
    ensures multiset([xs[k]] + TopBy(RemoveAt(xs, k), key, n - 1)) <= multiset(xs)
    decreases n, 0
  {
    var ys := RemoveAt(xs, k);
    TopBySubMultiset(ys, key, n - 1);
    RemoveAtMultiset(xs, k);
    SubMultisetStep(xs[k], TopBy(ys, key, n - 1), ys, xs);
  }

  /** One step of `TopBySubMultiset`: putting the removed element back in front. */
  lemma SubMultisetStep<T>(x: T, rest: seq<T>, ys: seq<T>, xs: seq<T>)
    requires multiset(rest) <= multiset(ys)
    requires multiset(ys) + multiset{x} == multiset(xs)
    ensures multiset([x] + rest) <= multiset(xs)
  {
    assert multiset([x] + rest) == multiset{x} + multiset(rest);
  }

  /** Removing one element removes one occurrence of it. */
  lemma RemoveAtMultiset<T>(xs: seq<T>, k: nat)
    requires k < |xs|
    ensures multiset(RemoveAt(xs, k)) + multiset{xs[k]} == multiset(xs)
  {
    assert xs == xs[..k] + [xs[k]] + xs[k + 1..];
  }

  /** Everything known about a selection, for callers that name it. */
  lemma TopByFacts<T>(xs: seq<T>, key: T -> int, n: nat, r: seq<T>)
    requires r == TopBy(xs, key, n)
    ensures |r| == Min(n, |xs|)
    ensures forall i :: 0 <= i < |r| ==> r[i] in xs
    ensures SortedBy(r, key) && NoneOmittedAbove(xs, r, key)
    ensures multiset(r) <= multiset(xs)
    ensures Distinct(xs) ==> Distinct(r)
  {
    TopByMembers(xs, key, n);
    TopBySorted(xs, key, n);
    TopByOmitted(xs, key, n);
    TopBySubMultiset(xs, key, n);
    if Distinct(xs) { TopByDistinct(xs, key, n); }
  }

  /** The selection is ordered best first. */
  lemma {:induction false} TopBySorted<T>(xs: seq<T>, key: T -> int, n: nat)
    ensures SortedBy(TopBy(xs, key, n), key)
    decreases n
  {
    if n > 0 && xs != [] {
      var k := ArgMax(xs, key);
      var ys := RemoveAt(xs, k);
      var rest := TopBy(ys, key, n - 1);
      TopBySorted(ys, key, n - 1);
      TopByMembers(ys, key, n - 1);
      SortedStep(xs, key, k, ys, rest);
      assert TopBy(xs, key, n) == [xs[k]] + rest;
    }
  }

  /** One step of `TopBySorted`: the best element in front of a sorted selection. */
  lemma SortedStep<T>(xs: seq<T>, key: T -> int, k: nat, ys: seq<T>, rest: seq<T>)
    requires k < |xs|
    requires forall i :: 0 <= i < |xs| ==> key(xs[i]) <= key(xs[k])
    requires ys == RemoveAt(xs, k)
    requires forall i :: 0 <= i < |rest| ==> rest[i] in ys
    requires SortedBy(rest, key)
    ensures SortedBy([xs[k]] + rest, key)
  {
    var r := [xs[k]] + rest;
    forall i, j | 0 <= i < j < |r| ensures key(r[i]) >= key(r[j]) {
      assert r[j] == rest[j - 1];
      if i > 0 {
        assert r[i] == rest[i - 1];
      } else {
        var m :| 0 <= m < |ys| && ys[m] == r[j];
        assert ys[m] == if m < k then xs[m] else xs[m + 1];
      }
    }
  }

  /** Nothing left out ranks above the last element taken. */
  lemma TopByOmitted<T>(xs: seq<T>, key: T -> int, n: nat)
    ensures NoneOmittedAbove(xs, TopBy(xs, key, n), key)
  {
    var r := TopBy(xs, key, n);
    forall i | 0 <= i < |xs| && r != [] && xs[i] !in r
      ensures key(xs[i]) <= key(r[|r| - 1])
    {
      OmittedAt(xs, key, n, i);
    }
  }

  /** One element left out of the selection ranks no higher than the last element taken. */
  lemma {:induction false} OmittedAt<T>(xs: seq<T>, key: T -> int, n: nat, i: nat)
    requires i < |xs|
    requires TopBy(xs, key, n) != [] && xs[i] !in TopBy(xs, key, n)
    ensures key(xs[i]) <= key(TopBy(xs, key, n)[|TopBy(xs, key, n)| - 1])
    decreases n
  {
    var k := ArgMax(xs, key);
    var ys := RemoveAt(xs, k);
    var rest := TopBy(ys, key, n - 1);
    var r := TopBy(xs, key, n);
    assert r == [xs[k]] + rest;
    if rest != [] {
      assert xs[i] != xs[k] && xs[i] !in rest;
      var j := if i < k then i else i - 1;
      assert ys[j] == xs[i];
      OmittedAt(ys, key, n - 1, j);
      var last := rest[|rest| - 1];
      assert key(ys[j]) <= key(last);
      assert r[|r| - 1] == last;
    } else {
      assert r[|r| - 1] == xs[k];
    }
  }

  /** With room for everything, everything is taken. */
  lemma {:induction false} TopByAll<T>(xs: seq<T>, key: T -> int, n: nat)
    requires |xs| <= n
    ensures forall x :: x in xs ==> x in TopBy(xs, key, n)
    decreases n
  {
    if n > 0 && xs != [] {
      var k := ArgMax(xs, key);
      var ys := RemoveAt(xs, k);
      TopByAll(ys, key, n - 1);
      var rest := TopBy(ys, key, n - 1);
      assert TopBy(xs, key, n) == [xs[k]] + rest;
      forall x | x in xs ensures x in [xs[k]] + rest {
        var i :| 0 <= i < |xs| && xs[i] == x;
        if i < k { assert ys[i] == x; } else if i > k { assert ys[i - 1] == x; }
      }
    }
  }

  /** Distinct inputs stay distinct when one element is removed, and lose it. */
  lemma RemoveAtDistinct<T>(xs: seq<T>, k: nat)
    requires k < |xs| && Distinct(xs)
    ensures Distinct(RemoveAt(xs, k)) && xs[k] !in RemoveAt(xs, k)
  {
  }

  /** Distinct candidates give a distinct selection. */
  lemma {:induction false} TopByDistinct<T>(xs: seq<T>, key: T -> int, n: nat)
    requires Distinct(xs)
    ensures Distinct(TopBy(xs, key, n))
    decreases n
  {
    if n > 0 && xs != [] {
      var k := ArgMax(xs, key);
      var ys := RemoveAt(xs, k);
      RemoveAtDistinct(xs, k);
      TopByDistinct(ys, key, n - 1);
      TopByMembers(ys, key, n - 1);
      var rest := TopBy(ys, key, n - 1);
      ConsDistinct(xs[k], rest, ys);
      assert TopBy(xs, key, n) == [xs[k]] + rest;
    }
  }

  /** Prepending an element absent from a distinct sequence's source keeps it distinct. */
  lemma ConsDistinct<T>(x: T, rest: seq<T>, ys: seq<T>)
    requires Distinct(rest) && x !in ys
    requires forall i :: 0 <= i < |rest| ==> rest[i] in ys
    ensures Distinct([x] + rest)
  {
    var r := [x] + rest;
    forall i, j | 0 <= i < j < |r| ensures r[i] != r[j] {
      assert r[j] == rest[j - 1];
      if i > 0 {
        assert r[i] == rest[i - 1];
      }
    }
  }

  /** Removing an element keeps the order among equal keys. */
  lemma RemoveAtTies<T>(xs: seq<T>, key: T -> int, ge: (T, T) -> bool, k: nat)
    requires k < |xs| && TiesOrdered(xs, key, ge)
    ensures TiesOrdered(RemoveAt(xs, k), key, ge)
  {
    var ys := RemoveAt(xs, k);
    forall i, j | 0 <= i < j < |ys| && key(ys[i]) == key(ys[j]) ensures ge(ys[i], ys[j]) {
      var i' := if i < k then i else i + 1;
      var j' := if j < k then j else j + 1;
      assert ys[i] == xs[i'] && ys[j] == xs[j'];
    }
  }

  /**
   * The selection is stable: when the input is ordered by `ge` among equal keys, so is
   * the selection, because the first of the greatest elements is taken first.
   */
  lemma {:induction false} TopByTies<T>(xs: seq<T>, key: T -> int, ge: (T, T) -> bool, n: nat)
    requires TiesOrdered(xs, key, ge)
    ensures TiesOrdered(TopBy(xs, key, n), key, ge)
    decreases n
  {
    if n > 0 && xs != [] {
      var k := ArgMax(xs, key);
      var ys := RemoveAt(xs, k);
      RemoveAtTies(xs, key, ge, k);
      TopByTies(ys, key, ge, n - 1);
      TopByMembers(ys, key, n - 1);
      var rest := TopBy(ys, key, n - 1);
      var r := [xs[k]] + rest;
      forall i, j | 0 <= i < j < |r| && key(r[i]) == key(r[j]) ensures ge(r[i], r[j]) {
        assert r[j] == rest[j - 1];
        if i > 0 {
          assert r[i] == rest[i - 1];
        } else {
          var m :| 0 <= m < |ys| && ys[m] == r[j];
          assert m >= k;
          assert ys[m] == xs[m + 1];
        }
      }
      assert TopBy(xs, key, n) == r;
    }
  }

  /** One element left out with the last key comes after the last element taken by `ge`. */
  lemma {:induction false} OmittedTieAt<T>(xs: seq<T>, key: T -> int, ge: (T, T) -> bool, n: nat, i: nat)
    requires i < |xs| && TiesOrdered(xs, key, ge)
    requires TopBy(xs, key, n) != [] && xs[i] !in TopBy(xs, key, n)
    requires key(xs[i]) == key(TopBy(xs, key, n)[|TopBy(xs, key, n)| - 1])
    ensures ge(TopBy(xs, key, n)[|TopBy(xs, key, n)| - 1], xs[i])
    decreases n
  {
    var k := ArgMax(xs, key);
    var ys := RemoveAt(xs, k);
    var rest := TopBy(ys, key, n - 1);
    var r := TopBy(xs, key, n);
    assert r == [xs[k]] + rest;
    if rest != [] {
      assert xs[i] != xs[k] && xs[i] !in rest;
      var j := if i < k then i else i - 1;
      assert ys[j] == xs[i];
      RemoveAtTies(xs, key, ge, k);
      OmittedTieAt(ys, key, ge, n - 1, j);
      assert r[|r| - 1] == rest[|rest| - 1];
    } else {
      assert r[|r| - 1] == xs[k];
      assert i > k;
    }
  }

  /** Nothing left out with the last key comes before the last element taken by `ge`. */
  lemma TopByTieOmitted<T>(xs: seq<T>, key: T -> int, ge: (T, T) -> bool, n: nat)
    requires TiesOrdered(xs, key, ge)
    ensures NoTieOmittedAbove(xs, TopBy(xs, key, n), key, ge)
  {
    var r := TopBy(xs, key, n);
    forall i | 0 <= i < |xs| && r != [] && xs[i] !in r && key(xs[i]) == key(r[|r| - 1])
      ensures ge(r[|r| - 1], xs[i])
    {
      OmittedTieAt(xs, key, ge, n, i);
    }
  }

  /** Inserts `m` into a sequence ordered by `ge`. */
  function InsertBy<T(!new)>(m: T, xs: seq<T>, ge: (T, T) -> bool): (r: seq<T>)
    requires TotalPreorder(ge) && OrderedBy(xs, ge)
    ensures multiset(r) == multiset(xs) + multiset{m}
    ensures OrderedBy(r, ge)
  {
    if xs == [] || ge(m, xs[0]) then
      [m] + xs
    else
      var tail := xs[1..];
      assert OrderedBy(tail, ge) by {
        forall i, j | 0 <= i < j < |tail| ensures ge(tail[i], tail[j]) {
          assert tail[i] == xs[i + 1] && tail[j] == xs[j + 1];
        }
      }
      var rest := InsertBy(m, tail, ge);
      assert xs == [xs[0]] + tail;
      assert forall j :: 0 <= j < |rest| ==> ge(xs[0], rest[j]) by {
        forall j | 0 <= j < |rest| ensures ge(xs[0], rest[j]) {
          assert rest[j] in multiset(rest);
          if rest[j] != m {
            assert rest[j] in tail;
            var p :| 0 <= p < |tail| && tail[p] == rest[j];
            assert xs[p + 1] == rest[j];
          }
        }
      }
      [xs[0]] + rest
  }

  /** Insertion sort by `ge`: a reordering of `xs` that is ordered by `ge`. */
  function SortBy<T(!new)>(xs: seq<T>, ge: (T, T) -> bool): (r: seq<T>)
    requires TotalPreorder(ge)
    ensures multiset(r) == multiset(xs)
    ensures OrderedBy(r, ge)
  {
    if xs == [] then []
    else
      assert xs == [xs[0]] + xs[1..];
      InsertBy(xs[0], SortBy(xs[1..], ge), ge)
  }

  /** An element of a distinct sequence occurs in it at most once. */
  lemma {:induction false} DistinctOnce<T>(xs: seq<T>, x: T)
    requires Distinct(xs)
    ensures multiset(xs)[x] <= 1
  {
    if xs != [] {
      var tail := xs[1..];
      assert Distinct(tail) by {
        forall i, j | 0 <= i < j < |tail| ensures tail[i] != tail[j] {
          assert tail[i] == xs[i + 1] && tail[j] == xs[j + 1];
        }
      }
      DistinctOnce(tail, x);
      assert xs == [xs[0]] + tail;
      assert xs[0] == x ==> x !in tail;
    }
  }

  /** Two equal elements at different places occur at least twice. */
  lemma RepeatedTwice<T>(ys: seq<T>, i: nat, j: nat)
    requires i < j < |ys|
    ensures ys[i] == ys[j] ==> multiset(ys)[ys[i]] >= 2
  {
    assert ys == ys[..j] + ys[j..];
    assert ys[i] in ys[..j] && ys[j] in ys[j..];
    assert multiset(ys) == multiset(ys[..j]) + multiset(ys[j..]);
  }

  /** A reordering of a distinct sequence is distinct. */
  lemma PermutationDistinct<T>(xs: seq<T>, ys: seq<T>)
    requires Distinct(xs) && multiset(ys) == multiset(xs)
    ensures Distinct(ys)
  {
    forall i, j | 0 <= i < j < |ys| ensures ys[i] != ys[j] {
      RepeatedTwice(ys, i, j);
      DistinctOnce(xs, ys[i]);
    }
  }

  /**
   * A selection from a reordering `xs` of `docs` whose ties are ordered by `ge`: its
   * facts, and the order among ties, stated on `docs`.
   */
  lemma TopByReordered<T>(docs: seq<T>, xs: seq<T>, key: T -> int, ge: (T, T) -> bool, n: nat, r: seq<T>)
    requires multiset(xs) == multiset(docs) && TiesOrdered(xs, key, ge)
    requires r == TopBy(xs, key, n)
    ensures |r| == Min(n, |docs|)
    ensures forall i :: 0 <= i < |r| ==> r[i] in docs
    ensures SortedBy(r, key) && TiesOrdered(r, key, ge)
    ensures NoneOmittedBeyond(docs, r, key, ge)
    ensures multiset(r) <= multiset(docs)
  {
    assert |xs| == |multiset(xs)| == |docs|;
    assert forall m :: m in xs <==> m in docs by {
      forall m ensures m in xs <==> m in docs {
        assert m in xs <==> m in multiset(xs);
      }
    }
    TopByFacts(xs, key, n, r);
    TopByTies(xs, key, ge, n);
    TopByTieOmitted(xs, key, ge, n);
    forall m | m in docs && m !in r && r != []
      ensures key(m) <= key(r[|r| - 1]) && (key(m) == key(r[|r| - 1]) ==> ge(r[|r| - 1], m))
    {
      var i :| 0 <= i < |xs| && xs[i] == m;
    }
  }
}
