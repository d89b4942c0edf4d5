/**
 * Sequence folds shared by the front end and the backend: the distinct
 * values of a sequence in first-seen order (the key order of a JavaScript
 * object or a Python dict filled by a loop), occurrence counts, sums and
 * prefixes.
 */
module Seqs {

  predicate NoDup<T(==)>(s: seq<T>)
  {
    forall i, j :: 0 <= i < j < |s| ==> s[i] != s[j]
  }

  function Last<T>(s: seq<T>): T
    requires s != []
  {
    s[|s| - 1]
  }

  function Init<T>(s: seq<T>): seq<T>
    requires s != []
  {
    s[..|s| - 1]
  }

  /** The values of `s` without repetitions, each at the place it was first seen. */
  function Distinct<T(==)>(s: seq<T>): seq<T>
  {
    if s == [] then []
    else
      var d := Distinct(Init(s));
      if Last(s) in d then d else d + [Last(s)]
  }

  /** Number of occurrences of `x` in `s`. */
  function Count<T(==)>(s: seq<T>, x: T): nat
  {
    if s == [] then 0
    else Count(Init(s), x) + (if Last(s) == x then 1 else 0)
  }

  function SumBy<T>(s: seq<T>, f: T -> int): int
  {
    if s == [] then 0 else f(s[0]) + SumBy(s[1..], f)
  }

  /** The first `n` elements, or all of them when there are fewer (Python's `s[:n]`, JavaScript's `s.slice(0, n)`). */
  function Take<T>(s: seq<T>, n: nat): (r: seq<T>)
    ensures |r| == if |s| <= n then |s| else n
    ensures r <= s
  {
    if |s| <= n then s else s[..n]
  }

  /** The elements after the first `n`, or none (MongoDB's `skip`). */
  function Drop<T>(s: seq<T>, n: nat): (r: seq<T>)
    ensures |r| == if |s| <= n then 0 else |s| - n
    ensures forall i :: 0 <= i < |r| ==> r[i] == s[n + i]
  {
    if |s| <= n then [] else s[n..]
  }

  /** A non-empty sequence is its front followed by its last element. */
  lemma InitLast<T>(s: seq<T>)
    requires s != []
    ensures s == Init(s) + [Last(s)]
    ensures multiset(s) == multiset(Init(s)) + multiset{Last(s)}
  {
    assert s == Init(s) + [Last(s)];
  }

  /** Concatenation with a non-empty right part ends with that part's last element. */
  lemma ConcatInitLast<T>(a: seq<T>, b: seq<T>)
    requires b != []
    ensures a + b == (a + Init(b)) + [Last(b)]
  {
    assert b == Init(b) + [Last(b)];
  }

  lemma ConcatAssoc<T>(a: seq<T>, b: seq<T>, c: seq<T>)
    ensures (a + b) + c == a + (b + c)
  {
  }

  lemma {:induction false} DistinctContents<T>(s: seq<T>)
    ensures forall x :: x in Distinct(s) <==> x in s
  {
    if s != [] {
      DistinctContents(Init(s));
      assert s == Init(s) + [Last(s)];
    }
  }

  lemma {:induction false} DistinctNoDup<T>(s: seq<T>)
    ensures NoDup(Distinct(s))
  {
    if s != [] {
      DistinctNoDup(Init(s));
    }
  }

  /** A sequence without repetitions has as many elements as the set of its elements. */
  lemma {:induction false} NoDupCardinality<T>(s: seq<T>)
    requires NoDup(s)
    ensures |set x | x in s| == |s|
  {
    if s != [] {
      NoDupCardinality(Init(s));
      assert s == Init(s) + [Last(s)];
      assert (set x | x in s) == (set x | x in Init(s)) + {Last(s)};
      assert Last(s) !in (set x | x in Init(s));
    }
  }

  /** The number of distinct values is the cardinality of the set of values. */
  lemma DistinctCardinality<T>(s: seq<T>)
    ensures |Distinct(s)| == |set x | x in s|
  {
    DistinctNoDup(s);
    DistinctContents(s);
    NoDupCardinality(Distinct(s));
    SameElementsSameSet(Distinct(s), s);
  }

  lemma SameElementsSameSet<T>(a: seq<T>, b: seq<T>)
    requires forall x :: x in a <==> x in b
    ensures (set x | x in a) == (set x | x in b)
  {
    var sa, sb := set x | x in a, set x | x in b;
    assert forall x :: x in sa ==> x in sb;
    assert forall x :: x in sb ==> x in sa;
    assert sa <= sb;
    assert sb <= sa;
  }

  lemma {:induction false} CountConcat<T>(a: seq<T>, b: seq<T>, x: T)
    ensures Count(a + b, x) == Count(a, x) + Count(b, x)
    decreases |b|
  {
    if b == [] {
      assert a + b == a;
    } else {
      assert Init(a + b) == a + Init(b);
      CountConcat(a, Init(b), x);
    }
  }

  lemma {:induction false} CountPositive<T>(s: seq<T>, x: T)
    ensures Count(s, x) > 0 <==> x in s
  {
    if s != [] {
      CountPositive(Init(s), x);
      assert s == Init(s) + [Last(s)];
    }
  }

  /** In a sequence without repetitions every value occurs at most once. */
  lemma {:induction false} CountNoDup<T>(s: seq<T>, x: T)
    requires NoDup(s)
    ensures Count(s, x) == if x in s then 1 else 0
  {
    if s != [] {
      CountNoDup(Init(s), x);
      assert s == Init(s) + [Last(s)];
    }
  }

  lemma {:induction false} CountBound<T>(s: seq<T>, x: T)
    ensures Count(s, x) <= |s|
  {
    if s != [] {
      CountBound(Init(s), x);
    }
  }

  lemma {:induction false} SumByConcat<T>(a: seq<T>, b: seq<T>, f: T -> int)
    ensures SumBy(a + b, f) == SumBy(a, f) + SumBy(b, f)
  {
    if a == [] {
      assert a + b == b;
    } else {
      assert (a + b)[1..] == a[1..] + b;
      SumByConcat(a[1..], b, f);
    }
  }
}
