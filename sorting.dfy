/**
  The two list operations the player applies to quality labels and engine
  levels: the stable sort of `Array.prototype.sort` under a descending
  numeric comparator, and the first-occurrence de-duplication of
  `Array.from(new Set(xs))`.
 */
module Sorting {

  predicate SortedDesc<T>(xs: seq<T>, key: T -> int) {
    forall i, j :: 0 <= i < j < |xs| ==> key(xs[i]) >= key(xs[j])
  }

  /** The elements whose key is `k`, in their order in `xs`. */
  function WithKey<T>(xs: seq<T>, key: T -> int, k: int): seq<T> {
    if |xs| == 0 then []
    else (if key(xs[0]) == k then [xs[0]] else []) + WithKey(xs[1..], key, k)
  }

  /** `x` placed before the first element whose key is not greater than its own. */
  function Insert<T>(x: T, xs: seq<T>, key: T -> int): seq<T> {
    if |xs| == 0 || key(xs[0]) <= key(x) then [x] + xs
    else [xs[0]] + Insert(x, xs[1..], key)
  }

  /** `xs.sort((a, b) => key(b) - key(a))`, which the language defines to be stable. */
  function SortDesc<T>(xs: seq<T>, key: T -> int): seq<T> {
    if |xs| == 0 then [] else Insert(xs[0], SortDesc(xs[1..], key), key)
  }

  lemma {:induction false} InsertMultiset<T>(x: T, xs: seq<T>, key: T -> int)
    ensures multiset(Insert(x, xs, key)) == multiset([x]) + multiset(xs)
    decreases |xs|
  {
    if |xs| > 0 && key(xs[0]) > key(x) {
      InsertMultiset(x, xs[1..], key);
      assert xs == [xs[0]] + xs[1..];
    }
  }

  lemma {:induction false} InsertBounded<T>(x: T, xs: seq<T>, key: T -> int, b: int)
    requires key(x) <= b && forall i :: 0 <= i < |xs| ==> key(xs[i]) <= b
    ensures forall i :: 0 <= i < |Insert(x, xs, key)| ==> key(Insert(x, xs, key)[i]) <= b
    decreases |xs|
  {
    if |xs| > 0 && key(xs[0]) > key(x) {
      InsertBounded(x, xs[1..], key, b);
    }
  }

  lemma {:induction false} InsertSorted<T>(x: T, xs: seq<T>, key: T -> int)
    requires SortedDesc(xs, key)
    ensures SortedDesc(Insert(x, xs, key), key)
    decreases |xs|
  {
    if |xs| > 0 && key(xs[0]) > key(x) {
      InsertSorted(x, xs[1..], key);
      InsertBounded(x, xs[1..], key, key(xs[0]));
    }
  }

  /** The keys of `Insert(x, xs)` taken group by group: `x` becomes the first of its group. */
  lemma {:induction false} InsertWithKey<T>(x: T, xs: seq<T>, key: T -> int, k: int)
    ensures WithKey(Insert(x, xs, key), key, k) == WithKey([x] + xs, key, k)
    decreases |xs|
  {
    if |xs| == 0 || key(xs[0]) <= key(x) {
    } else {
      InsertWithKey(x, xs[1..], key, k);
      assert ([xs[0]] + Insert(x, xs[1..], key))[1..] == Insert(x, xs[1..], key);
      assert ([x] + xs[1..])[1..] == xs[1..];
      assert ([x] + xs)[1..] == xs;
      if key(x) == k {
        assert key(xs[0]) != k;
      }
    }
  }

  /** The sort orders by descending key, keeps every element and keeps equal keys in their original order. */
  lemma {:induction false} SortDescCorrect<T>(xs: seq<T>, key: T -> int)
    ensures SortedDesc(SortDesc(xs, key), key)
    ensures multiset(SortDesc(xs, key)) == multiset(xs)
    ensures forall k :: WithKey(SortDesc(xs, key), key, k) == WithKey(xs, key, k)
    decreases |xs|
  {
    if |xs| > 0 {
      SortDescCorrect(xs[1..], key);
      var rest := SortDesc(xs[1..], key);
      InsertSorted(xs[0], rest, key);
      InsertMultiset(xs[0], rest, key);
      assert xs == [xs[0]] + xs[1..];
      forall k ensures WithKey(SortDesc(xs, key), key, k) == WithKey(xs, key, k) {
        InsertWithKey(xs[0], rest, key, k);
        assert ([xs[0]] + rest)[1..] == rest;
      }
    }
  }

  /** `Array.from(new Set(xs))`: each value once, at the place of its first occurrence. */
  function Dedupe<T(==)>(xs: seq<T>): (r: seq<T>)
    ensures forall i, j :: 0 <= i < j < |r| ==> r[i] != r[j]
    ensures forall i :: 0 <= i < |r| ==> r[i] in xs
    ensures forall i :: 0 <= i < |xs| ==> xs[i] in r
  {
    if |xs| == 0 then []
    else
      var r := Dedupe(xs[..|xs| - 1]);
      assert forall i :: 0 <= i < |xs| - 1 ==> xs[i] == xs[..|xs| - 1][i];
      if xs[|xs| - 1] in r then r else r + [xs[|xs| - 1]]
  }

  /** The position of the first occurrence of a value in `xs`. */
  function FirstIndex<T(==)>(xs: seq<T>, x: T): (i: nat)
    requires x in xs
    ensures i < |xs| && xs[i] == x && x !in xs[..i]
  {
    if xs[0] == x then 0 else 1 + FirstIndex(xs[1..], x)
  }

  lemma {:induction false} FirstIndexOfPrefix<T>(xs: seq<T>, n: nat, x: T)
    requires n <= |xs| && x in xs[..n]
    ensures FirstIndex(xs, x) == FirstIndex(xs[..n], x)
    decreases n
  {
    if xs[0] != x {
      assert xs[..n][1..] == xs[1..][..n - 1];
      FirstIndexOfPrefix(xs[1..], n - 1, x);
    }
  }

  /** Every value of `r` occurs in `xs`, and earlier in `r` means first seen earlier in `xs`. */
  predicate FirstOccurrenceOrder<T(==)>(xs: seq<T>, r: seq<T>) {
    && (forall i :: 0 <= i < |r| ==> r[i] in xs)
    && (forall i, j :: 0 <= i < j < |r| ==> FirstIndex(xs, r[i]) < FirstIndex(xs, r[j]))
  }

  /** The kept values appear in the order of their first occurrences. */
  lemma {:induction false} DedupeFirstOccurrenceOrder<T>(xs: seq<T>)
    ensures FirstOccurrenceOrder(xs, Dedupe(xs))
    decreases |xs|
  {
    if |xs| > 0 {
      var p := xs[..|xs| - 1];
      var last := xs[|xs| - 1];
      var r := Dedupe(xs);
      var rp := Dedupe(p);
      DedupeFirstOccurrenceOrder(p);
      forall i | 0 <= i < |rp| ensures FirstIndex(xs, rp[i]) == FirstIndex(p, rp[i]) < |xs| - 1 {
        FirstIndexOfPrefix(xs, |xs| - 1, rp[i]);
      }
      assert FirstOccurrenceOrder(p, rp);
      if last in rp {
        assert r == rp;
        forall i, j | 0 <= i < j < |r| ensures FirstIndex(xs, r[i]) < FirstIndex(xs, r[j]) {
          assert FirstIndex(p, rp[i]) < FirstIndex(p, rp[j]);
        }
      } else {
        assert r == rp + [last];
        LastFirstIndex(xs);
        forall i, j | 0 <= i < j < |r| ensures FirstIndex(xs, r[i]) < FirstIndex(xs, r[j]) {
          assert r[i] == rp[i];
          if j < |rp| {
            assert r[j] == rp[j];
            assert FirstIndex(p, rp[i]) < FirstIndex(p, rp[j]);
          } else {
            assert r[j] == last;
          }
        }
      }
    }
  }

  lemma LastFirstIndex<T>(xs: seq<T>)
    requires |xs| > 0 && xs[|xs| - 1] !in xs[..|xs| - 1]
    ensures FirstIndex(xs, xs[|xs| - 1]) == |xs| - 1
  {
  }

  /** De-duplicating a descending list leaves it descending. */
  lemma {:induction false} DedupeKeepsSorted<T>(xs: seq<T>, key: T -> int)
    requires SortedDesc(xs, key)
    ensures SortedDesc(Dedupe(xs), key)
    decreases |xs|
  {
    if |xs| > 0 {
      var p := xs[..|xs| - 1];
      var last := xs[|xs| - 1];
      assert SortedDesc(p, key);
      DedupeKeepsSorted(p, key);
      var rp := Dedupe(p);
      forall i | 0 <= i < |rp| ensures key(rp[i]) >= key(last) {
        assert rp[i] in p;
        var k :| 0 <= k < |p| && p[k] == rp[i];
        assert xs[k] == rp[i];
      }
    }
  }

  /** The first element with key `k` heads the group of key `k`. */
  lemma {:induction false} WithKeyFirst<T>(xs: seq<T>, key: T -> int, k: int)
    requires |WithKey(xs, key, k)| > 0
    ensures exists i :: 0 <= i < |xs| && xs[i] == WithKey(xs, key, k)[0] && key(xs[i]) == k &&
                        forall j :: 0 <= j < i ==> key(xs[j]) != k
    decreases |xs|
  {
    if key(xs[0]) != k {
      WithKeyFirst(xs[1..], key, k);
      var i :| 0 <= i < |xs| - 1 && xs[1..][i] == WithKey(xs[1..], key, k)[0] && key(xs[1..][i]) == k &&
               forall j :: 0 <= j < i ==> key(xs[1..][j]) != k;
      assert xs[i + 1] == xs[1..][i];
      forall j | 0 <= j < i + 1 ensures key(xs[j]) != k {
        if j > 0 {
          assert xs[j] == xs[1..][j - 1];
        }
      }
    }
  }

  /** The head of a de-duplicated list is the head of the list. */
  lemma DedupeHead<T>(xs: seq<T>)
    requires |xs| > 0
    ensures |Dedupe(xs)| > 0 && Dedupe(xs)[0] == xs[0]
  {
    var r := Dedupe(xs);
    DedupeFirstOccurrenceOrder(xs);
    assert xs[0] in r;
    var m :| 0 <= m < |r| && r[m] == xs[0];
    assert FirstIndex(xs, xs[0]) == 0;
  }

  /** The head of a sorted copy has the largest key of the original. */
  lemma SortedHeadIsMax<T>(xs: seq<T>, key: T -> int)
    requires |xs| > 0
    ensures |SortDesc(xs, key)| > 0
    ensures forall j :: 0 <= j < |xs| ==> key(xs[j]) <= key(SortDesc(xs, key)[0])
  {
    var sorted := SortDesc(xs, key);
    SortDescCorrect(xs, key);
    assert |multiset(sorted)| == |multiset(xs)|;
    forall j | 0 <= j < |xs| ensures key(xs[j]) <= key(sorted[0]) {
      assert xs[j] in multiset(sorted);
      var m :| 0 <= m < |sorted| && sorted[m] == xs[j];
    }
  }

  /**
    The sort is stable at the top: the head of the sorted copy is the first
    element of the original with the largest key.
   */
  lemma SortedHeadIsFirstBest<T>(xs: seq<T>, key: T -> int)
    requires |xs| > 0
    ensures |SortDesc(xs, key)| > 0
    ensures exists i :: 0 <= i < |xs| && xs[i] == SortDesc(xs, key)[0] &&
                        forall j :: 0 <= j < i ==> key(xs[j]) < key(SortDesc(xs, key)[0])
  {
    var sorted := SortDesc(xs, key);
    SortedHeadIsMax(xs, key);
    SortDescCorrect(xs, key);
    var k := key(sorted[0]);
    assert WithKey(sorted, key, k) == [sorted[0]] + WithKey(sorted[1..], key, k);
    assert WithKey(xs, key, k) == WithKey(sorted, key, k);
    WithKeyFirst(xs, key, k);
    var i :| 0 <= i < |xs| && xs[i] == WithKey(xs, key, k)[0] && key(xs[i]) == k &&
             forall j :: 0 <= j < i ==> key(xs[j]) != k;
    forall j | 0 <= j < i ensures key(xs[j]) < k {
    }
  }
}
