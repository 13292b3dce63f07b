/**
 * A stable insertion sort under a "may come before" relation. It specifies both
 * SQL `ORDER BY ... DESC` (whose result is any order that is sorted by the key)
 * and JavaScript's `Array.prototype.sort` with a comparator (stable since ES2019).
 */
module Sorting {
  import opened Folds

  /** `before` is total and transitive: a key order with ties allowed. */
  ghost predicate TotalPreorder<T(!new)>(before: (T, T) -> bool) {
    && (forall a, b :: before(a, b) || before(b, a))
    && (forall a, b, c :: before(a, b) && before(b, c) ==> before(a, c))
  }

  ghost predicate SortedBy<T>(s: seq<T>, before: (T, T) -> bool) {
    forall i, j :: 0 <= i < j < |s| ==> before(s[i], s[j])
  }

  /** Insert `x` in front of the first element it may come before. */
  function Insert<T>(x: T, s: seq<T>, before: (T, T) -> bool): seq<T> {
    if s == [] || before(x, s[0]) then [x] + s else [s[0]] + Insert(x, s[1..], before)
  }

  /**
   * Sort by inserting each element into the sorted rest. An element is placed in front
   * of every later element it ties with, so equal keys keep their input order.
   */
  function Sort<T>(s: seq<T>, before: (T, T) -> bool): seq<T> {
    if s == [] then [] else Insert(s[0], Sort(s[1..], before), before)
  }

  lemma {:induction false} InsertMultiset<T>(x: T, s: seq<T>, before: (T, T) -> bool)
    ensures multiset(Insert(x, s, before)) == multiset(s) + multiset{x}
  {
    if s != [] && !before(x, s[0]) {
      InsertMultiset(x, s[1..], before);
      assert s == [s[0]] + s[1..];
    }
  }

  lemma {:induction false} InsertSorted<T(!new)>(x: T, s: seq<T>, before: (T, T) -> bool)
    requires TotalPreorder(before) && SortedBy(s, before)
    ensures SortedBy(Insert(x, s, before), before)
  {
    if s != [] && !before(x, s[0]) {
      var rest := Insert(x, s[1..], before);
      InsertSorted(x, s[1..], before);
      InsertMultiset(x, s[1..], before);
      assert before(s[0], x);
      forall k | 0 <= k < |rest| ensures before(s[0], rest[k]) {
        assert rest[k] in multiset(rest);
        if rest[k] != x {
          assert rest[k] in multiset(s[1..]);
          var j :| 0 <= j < |s[1..]| && s[1..][j] == rest[k];
          assert s[j + 1] == rest[k];
        }
      }
    }
  }

  /** The sorted sequence is a permutation of the input, ordered by `before`. */
  lemma {:induction false} SortCorrect<T(!new)>(s: seq<T>, before: (T, T) -> bool)
    requires TotalPreorder(before)
    ensures multiset(Sort(s, before)) == multiset(s)
    ensures SortedBy(Sort(s, before), before)
  {
    if s != [] {
      SortCorrect(s[1..], before);
      InsertMultiset(s[0], Sort(s[1..], before), before);
      InsertSorted(s[0], Sort(s[1..], before), before);
      assert s == [s[0]] + s[1..];
    }
  }

  /** JavaScript `s.slice(0, n)`: a negative `n` counts back from the end. */
  function SliceTo<T>(s: seq<T>, n: int): (r: seq<T>)
    ensures n >= 0 ==> r == s[..if n < |s| then n else |s|]
    ensures n < 0 ==> r == s[..if |s| + n > 0 then |s| + n else 0]
  {
    var end := if n < 0 then |s| + n else n;
    if end <= 0 then [] else if end >= |s| then s else s[..end]
  }

  /** A prefix of a sorted sequence is sorted. */
  lemma PrefixSorted<T>(s: seq<T>, n: nat, before: (T, T) -> bool)
    requires SortedBy(s, before) && n <= |s|
    ensures SortedBy(s[..n], before)
  {
  }

  /** Filtering keeps the relative order of the elements it keeps. */
  lemma {:induction false} FilterSorted<T>(s: seq<T>, p: T -> bool, before: (T, T) -> bool)
    requires SortedBy(s, before)
    ensures SortedBy(Filter(s, p), before)
  {
    if s != [] {
      var s' := s[..|s| - 1];
      var last := s[|s| - 1];
      FilterSorted(s', p, before);
      forall x | x in Filter(s', p) ensures before(x, last) {
        FilterIn(s', p, x);
        var k :| 0 <= k < |s'| && s'[k] == x;
        assert s[k] == x;
      }
    }
  }

  /**
   * The first `n` elements of a sorted sequence may each come before every element
   * left out: a sorted prefix is a top-`n` selection.
   */
  lemma TopN<T>(s: seq<T>, n: nat, before: (T, T) -> bool)
    requires SortedBy(s, before) && n <= |s|
    ensures multiset(s[..n]) <= multiset(s)
    ensures multiset(s) - multiset(s[..n]) == multiset(s[n..])
    ensures forall x, y :: x in s[..n] && y in multiset(s) - multiset(s[..n]) ==> before(x, y)
  {
    assert s == s[..n] + s[n..];
    forall x, y | x in s[..n] && y in multiset(s) - multiset(s[..n]) ensures before(x, y) {
      var i :| 0 <= i < n && s[..n][i] == x;
      assert y in s[n..];
      var j :| 0 <= j < |s| - n && s[n..][j] == y;
      assert s[i] == x && s[n + j] == y;
    }
  }

  /** A prefix of a sorting of `ts` is sorted, drawn from `ts`, and comes before all of `ts` it leaves out. */
  lemma TopOf<T>(ts: seq<T>, s: seq<T>, n: nat, before: (T, T) -> bool)
    requires SortedBy(s, before) && multiset(s) == multiset(ts) && n <= |s|
    ensures SortedBy(s[..n], before) && multiset(s[..n]) <= multiset(ts)
    ensures forall x, y :: x in s[..n] && y in multiset(ts) - multiset(s[..n]) ==> before(x, y)
  {
    PrefixSorted(s, n, before);
    TopN(s, n, before);
  }

  /**
   * JavaScript's default string order (`sort()` without a comparator): character by
   * character, and a proper prefix before its extensions.
   */
  predicate StrLe(a: string, b: string) {
    a == [] || (b != [] && (a[0] < b[0] || (a[0] == b[0] && StrLe(a[1..], b[1..]))))
  }

  lemma {:induction false} StrLeTotal(a: string, b: string)
    ensures StrLe(a, b) || StrLe(b, a)
  {
    if a != [] && b != [] && a[0] == b[0] {
      StrLeTotal(a[1..], b[1..]);
    }
  }

  lemma {:induction false} StrLeTrans(a: string, b: string, c: string)
    requires StrLe(a, b) && StrLe(b, c)
    ensures StrLe(a, c)
  {
    if a != [] && a[0] == b[0] && b[0] == c[0] {
      StrLeTrans(a[1..], b[1..], c[1..]);
    }
  }

  /** Two strings each ordered before the other are the same string. */
  lemma {:induction false} StrLeAntisymmetric(a: string, b: string)
    requires StrLe(a, b) && StrLe(b, a)
    ensures a == b
  {
    if a != [] {
      StrLeAntisymmetric(a[1..], b[1..]);
      assert a == [a[0]] + a[1..] && b == [b[0]] + b[1..];
    }
  }

  lemma StrLeOrder()
    ensures TotalPreorder(StrLe)
  {
    forall a, b ensures StrLe(a, b) || StrLe(b, a) {
      StrLeTotal(a, b);
    }
    forall a, b, c | StrLe(a, b) && StrLe(b, c) ensures StrLe(a, c) {
      StrLeTrans(a, b, c);
    }
  }
}
