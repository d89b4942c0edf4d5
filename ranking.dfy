/**
 * A stable sort into non-increasing key order. It stands for the three
 * library sorts the system relies on: JavaScript's `Array.prototype.sort`
 * with the comparator `(a, b) => key(b) - key(a)`, Python's
 * `sorted(..., key=k, reverse=True)` and MongoDB's `sort(field, -1)`. The
 * first two are stable: elements with equal keys keep their input order.
 */
module Ranking {
  import opened Seqs

  /** Inserts `x` before the first element whose key is not larger than its own. */
  function InsertDesc<T>(x: T, s: seq<T>, key: T -> int): seq<T>
  {
    if s == [] || key(s[0]) <= key(x) then [x] + s
    else [s[0]] + InsertDesc(x, s[1..], key)
  }

  function SortDesc<T>(s: seq<T>, key: T -> int): seq<T>
  {
    if s == [] then [] else InsertDesc(s[0], SortDesc(s[1..], key), key)
  }

  ghost predicate NonIncreasing<T>(s: seq<T>, key: T -> int)
  {
    forall i, j :: 0 <= i < j < |s| ==> key(s[i]) >= key(s[j])
  }

  /** The elements of `s` whose key is `k`, in their order in `s`. */
  function WithKey<T>(s: seq<T>, key: T -> int, k: int): seq<T>
  {
    if s == [] then []
    else (if key(s[0]) == k then [s[0]] else []) + WithKey(s[1..], key, k)
  }

  lemma {:induction false} InsertDescShape<T>(x: T, s: seq<T>, key: T -> int)
    ensures |InsertDesc(x, s, key)| == |s| + 1
    ensures multiset(InsertDesc(x, s, key)) == multiset{x} + multiset(s)
  {
    if s != [] && key(s[0]) > key(x) {
      InsertDescShape(x, s[1..], key);
      assert s == [s[0]] + s[1..];
    }
  }

  lemma {:induction false} InsertDescSum<T>(x: T, s: seq<T>, key: T -> int, f: T -> int)
    ensures SumBy(InsertDesc(x, s, key), f) == f(x) + SumBy(s, f)
  {
    if s != [] && key(s[0]) > key(x) {
      InsertDescSum(x, s[1..], key, f);
      assert s == [s[0]] + s[1..];
    }
  }

  /** A head no smaller than the first key of a non-increasing tail keeps it non-increasing. */
  lemma ConsNonIncreasing<T>(a: T, t: seq<T>, key: T -> int)
    requires NonIncreasing(t, key)
    requires t != [] ==> key(a) >= key(t[0])
    ensures NonIncreasing([a] + t, key)
  {
    var r := [a] + t;
    forall i, j | 0 <= i < j < |r| ensures key(r[i]) >= key(r[j]) {
      assert r[j] == t[j - 1];
      if i > 0 {
        assert r[i] == t[i - 1];
      }
    }
  }

  lemma {:induction false} InsertDescSorted<T>(x: T, s: seq<T>, key: T -> int)
    requires NonIncreasing(s, key)
    ensures NonIncreasing(InsertDesc(x, s, key), key)
  {
    if s != [] && key(s[0]) > key(x) {
      var t := InsertDesc(x, s[1..], key);
      assert NonIncreasing(t, key) by {
        InsertDescSorted(x, s[1..], key);
      }
      assert key(s[0]) >= key(t[0]) by {
        if |s| > 1 {
          assert s[1..][0] == s[1];
        }
      }
      ConsNonIncreasing(s[0], t, key);
    } else {
      ConsNonIncreasing(x, s, key);
    }
  }

  lemma WithKeyCons<T>(a: T, t: seq<T>, key: T -> int, k: int)
    ensures WithKey([a] + t, key, k) == (if key(a) == k then [a] else []) + WithKey(t, key, k)
  {
    assert ([a] + t)[1..] == t;
  }

  /** Inserting puts `x` ahead of every element with the same key. */
  lemma {:induction false} InsertDescStable<T>(x: T, s: seq<T>, key: T -> int, k: int)
    ensures WithKey(InsertDesc(x, s, key), key, k)
         == (if key(x) == k then [x] else []) + WithKey(s, key, k)
  {
    if s == [] || key(s[0]) <= key(x) {
      WithKeyCons(x, s, key, k);
    } else {
      var t := InsertDesc(x, s[1..], key);
      InsertDescStable(x, s[1..], key, k);
      WithKeyCons(s[0], t, key, k);
      assert WithKey(s, key, k) == (if key(s[0]) == k then [s[0]] else []) + WithKey(s[1..], key, k);
      if key(s[0]) == k {
        assert key(x) != k;
      }
    }
  }

  lemma {:induction false} SortDescSorted<T>(s: seq<T>, key: T -> int)
    ensures NonIncreasing(SortDesc(s, key), key)
  {
    if s != [] {
      SortDescSorted(s[1..], key);
      InsertDescSorted(s[0], SortDesc(s[1..], key), key);
    }
  }

  lemma {:induction false} SortDescPermutes<T>(s: seq<T>, key: T -> int)
    ensures |SortDesc(s, key)| == |s|
    ensures multiset(SortDesc(s, key)) == multiset(s)
  {
    if s != [] {
      SortDescPermutes(s[1..], key);
      InsertDescShape(s[0], SortDesc(s[1..], key), key);
      assert s == [s[0]] + s[1..];
    }
  }

  lemma {:induction false} SortDescSum<T>(s: seq<T>, key: T -> int, f: T -> int)
    ensures SumBy(SortDesc(s, key), f) == SumBy(s, f)
  {
    if s != [] {
      SortDescSum(s[1..], key, f);
      InsertDescSum(s[0], SortDesc(s[1..], key), key, f);
    }
  }

  /** The sort yields a non-increasing permutation of its input that keeps every sum over it. */
  lemma SortDescCorrect<T>(s: seq<T>, key: T -> int)
    ensures NonIncreasing(SortDesc(s, key), key)
    ensures |SortDesc(s, key)| == |s|
    ensures multiset(SortDesc(s, key)) == multiset(s)
    ensures forall f: T -> int :: SumBy(SortDesc(s, key), f) == SumBy(s, f)
  {
    SortDescSorted(s, key);
    SortDescPermutes(s, key);
    forall f: T -> int ensures SumBy(SortDesc(s, key), f) == SumBy(s, f) {
      SortDescSum(s, key, f);
    }
  }

  /** Stability: among elements with equal keys the input order survives. */
  lemma {:induction false} SortDescStable<T>(s: seq<T>, key: T -> int, k: int)
    ensures WithKey(SortDesc(s, key), key, k) == WithKey(s, key, k)
  {
    if s != [] {
      SortDescStable(s[1..], key, k);
      InsertDescStable(s[0], SortDesc(s[1..], key), key, k);
    }
  }

  ghost predicate DistinctBy<T, U>(s: seq<T>, proj: T -> U)
  {
    forall i, j :: 0 <= i < j < |s| ==> proj(s[i]) != proj(s[j])
  }

  lemma {:induction false} InsertDescDistinct<T, U>(x: T, s: seq<T>, key: T -> int, proj: T -> U)
    requires DistinctBy(s, proj)
    requires forall e :: e in s ==> proj(e) != proj(x)
    ensures DistinctBy(InsertDesc(x, s, key), proj)
  {
    if s != [] && key(s[0]) > key(x) {
      InsertDescDistinct(x, s[1..], key, proj);
      InsertDescShape(x, s[1..], key);
      var r := InsertDesc(x, s, key);
      var t := InsertDesc(x, s[1..], key);
      assert r == [s[0]] + t;
      forall j | 1 <= j < |r| ensures proj(r[0]) != proj(r[j]) {
        assert r[j] in multiset(t);
        if r[j] != x {
          assert r[j] in s[1..];
          var k :| 0 <= k < |s[1..]| && s[1..][k] == r[j];
          assert s[k + 1] == r[j];
        }
      }
    }
  }

  /** Sorting keeps a projection injective: no two elements of the result share it. */
  lemma {:induction false} SortDescDistinct<T, U>(s: seq<T>, key: T -> int, proj: T -> U)
    requires DistinctBy(s, proj)
    ensures DistinctBy(SortDesc(s, key), proj)
  {
    if s != [] {
      SortDescDistinct(s[1..], key, proj);
      SortDescCorrect(s[1..], key);
      forall e | e in SortDesc(s[1..], key) ensures proj(e) != proj(s[0]) {
        assert e in multiset(s[1..]);
        var k :| 0 <= k < |s[1..]| && s[1..][k] == e;
        assert s[k + 1] == e;
      }
      InsertDescDistinct(s[0], SortDesc(s[1..], key), key, proj);
    }
  }
}
