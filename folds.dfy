/**
 * Sums and filters over sequences: the `reduce((acc, x) => acc + ..., 0)` and
 * `filter(...)` chains of the frontend and the accumulation loops of the backend.
 * Both are defined on the last element, so that a left-to-right loop adds one step
 * per iteration.
 */
module Folds {

  function Sum<T>(s: seq<T>, f: T -> int): int {
    if s == [] then 0 else Sum(s[..|s| - 1], f) + f(s[|s| - 1])
  }

  function Filter<T>(s: seq<T>, p: T -> bool): (r: seq<T>)
    ensures |r| <= |s|
    ensures forall i :: 0 <= i < |r| ==> p(r[i])
  {
    if s == [] then []
    else Filter(s[..|s| - 1], p) + (if p(s[|s| - 1]) then [s[|s| - 1]] else [])
  }

  /** One loop step: the sum over a longer prefix adds the next element. */
  lemma SumStep<T>(s: seq<T>, i: nat, f: T -> int)
    requires i < |s|
    ensures Sum(s[..i + 1], f) == Sum(s[..i], f) + f(s[i])
  {
    assert s[..i + 1][..i] == s[..i];
  }

  /** One loop step of a filter. */
  lemma FilterStep<T>(s: seq<T>, i: nat, p: T -> bool)
    requires i < |s|
    ensures Filter(s[..i + 1], p) == Filter(s[..i], p) + (if p(s[i]) then [s[i]] else [])
  {
    assert s[..i + 1][..i] == s[..i];
  }

  lemma {:induction false} SumAppend<T>(a: seq<T>, b: seq<T>, f: T -> int)
    ensures Sum(a + b, f) == Sum(a, f) + Sum(b, f)
  {
    if b != [] {
      SumAppend(a, b[..|b| - 1], f);
      assert (a + b)[..|a + b| - 1] == a + b[..|b| - 1];
    } else {
      assert a + b == a;
    }
  }

  lemma {:induction false} FilterAppend<T>(a: seq<T>, b: seq<T>, p: T -> bool)
    ensures Filter(a + b, p) == Filter(a, p) + Filter(b, p)
  {
    if b != [] {
      FilterAppend(a, b[..|b| - 1], p);
      assert (a + b)[..|a + b| - 1] == a + b[..|b| - 1];
    } else {
      assert a + b == a;
    }
  }

  /** A filter that every element passes keeps the whole sequence. */
  lemma {:induction false} FilterAll<T>(s: seq<T>, p: T -> bool)
    requires forall i :: 0 <= i < |s| ==> p(s[i])
    ensures Filter(s, p) == s
  {
    if s != [] {
      FilterAll(s[..|s| - 1], p);
    }
  }

  /** Two conditions that agree on every element select the same elements. */
  lemma {:induction false} FilterAgree<T>(s: seq<T>, p: T -> bool, q: T -> bool)
    requires forall i :: 0 <= i < |s| ==> p(s[i]) == q(s[i])
    ensures Filter(s, p) == Filter(s, q)
  {
    if s != [] {
      FilterAgree(s[..|s| - 1], p, q);
    }
  }

  /** As a multiset, a filter keeps every copy of each element that passes and no other. */
  lemma {:induction false} FilterMultiset<T>(s: seq<T>, p: T -> bool, x: T)
    ensures multiset(Filter(s, p))[x] == if p(x) then multiset(s)[x] else 0
  {
    if s != [] {
      FilterMultiset(s[..|s| - 1], p, x);
      assert s == s[..|s| - 1] + [s[|s| - 1]];
    }
  }

  /** Membership in a filter. */
  lemma FilterIn<T>(s: seq<T>, p: T -> bool, x: T)
    ensures x in Filter(s, p) <==> x in s && p(x)
  {
    FilterMultiset(s, p, x);
  }

  /** Adding the same element to two multisets keeps them equal only if they were equal. */
  lemma MultisetCancel<T>(a: multiset<T>, b: multiset<T>, x: T)
    requires a + multiset{x} == b + multiset{x}
    ensures a == b
  {
    forall y ensures a[y] == b[y] {
      assert (a + multiset{x})[y] == (b + multiset{x})[y];
      assert (a + multiset{x})[y] == a[y] + multiset{x}[y];
      assert (b + multiset{x})[y] == b[y] + multiset{x}[y];
    }
  }

  /** Taking out the element at `k` takes one copy of it out of the multiset. */
  lemma RemoveOne<T>(b: seq<T>, k: nat)
    requires k < |b|
    ensures multiset(b) == multiset(b[..k] + b[k + 1..]) + multiset{b[k]}
  {
    assert b == b[..k] + [b[k]] + b[k + 1..];
  }

  /** Removing one occurrence from the middle of a sequence takes its term out of the sum. */
  lemma SumSplit<T>(b: seq<T>, k: nat, f: T -> int)
    requires k < |b|
    ensures Sum(b, f) == Sum(b[..k] + b[k + 1..], f) + f(b[k])
  {
    var front, back := b[..k], b[k + 1..];
    SplitAround(b, k);
    SumAppend(front + [b[k]], back, f);
    SumSnoc(front, b[k], f);
    SumAppend(front, back, f);
  }

  /** A sequence is its part before `k`, its element at `k`, and its part after. */
  lemma SplitAround<T>(b: seq<T>, k: nat)
    requires k < |b|
    ensures b == (b[..k] + [b[k]]) + b[k + 1..]
  {
  }

  /** A sum does not depend on the order of the terms. */
  lemma {:induction false} SumPerm<T>(a: seq<T>, b: seq<T>, f: T -> int)
    requires multiset(a) == multiset(b)
    ensures Sum(a, f) == Sum(b, f)
  {
    if a != [] {
      var x := a[|a| - 1];
      var a' := a[..|a| - 1];
      assert a == a' + [x];
      assert x in multiset(b);
      var k :| 0 <= k < |b| && b[k] == x;
      var b' := b[..k] + b[k + 1..];
      RemoveOne(b, k);
      assert multiset(a) == multiset(a') + multiset{x};
      MultisetCancel(multiset(a'), multiset(b'), x);
      SumPerm(a', b', f);
      SumSplit(b, k, f);
    } else {
      assert b == [];
    }
  }

  /** The sum of terms that are all zero is zero. */
  lemma {:induction false} SumZero<T>(s: seq<T>, f: T -> int)
    requires forall i :: 0 <= i < |s| ==> f(s[i]) == 0
    ensures Sum(s, f) == 0
  {
    if s != [] {
      SumZero(s[..|s| - 1], f);
    }
  }

  /** Sums of the same sequence under pointwise-equal term functions agree. */
  lemma {:induction false} SumExt<T>(s: seq<T>, f: T -> int, g: T -> int)
    requires forall i :: 0 <= i < |s| ==> f(s[i]) == g(s[i])
    ensures Sum(s, f) == Sum(s, g)
  {
    if s != [] {
      SumExt(s[..|s| - 1], f, g);
    }
  }

  /** Sums are additive in the term function. */
  lemma {:induction false} SumAdd<T>(s: seq<T>, f: T -> int, g: T -> int, h: T -> int)
    requires forall i :: 0 <= i < |s| ==> h(s[i]) == f(s[i]) + g(s[i])
    ensures Sum(s, h) == Sum(s, f) + Sum(s, g)
  {
    if s != [] {
      SumAdd(s[..|s| - 1], f, g, h);
    }
  }

  /** Summing a filtered sequence is summing the whole sequence with the rejected terms set to zero. */
  lemma {:induction false} SumFilter<T>(s: seq<T>, p: T -> bool, f: T -> int, g: T -> int)
    requires forall i :: 0 <= i < |s| ==> g(s[i]) == if p(s[i]) then f(s[i]) else 0
    ensures Sum(Filter(s, p), f) == Sum(s, g)
  {
    if s != [] {
      var last := s[|s| - 1];
      SumFilter(s[..|s| - 1], p, f, g);
      SumAppend(Filter(s[..|s| - 1], p), if p(last) then [last] else [], f);
      assert Sum([last], f) == f(last) by {
        assert [last][..0] == [];
      }
    }
  }

  predicate Distinct<T(==)>(s: seq<T>) {
    forall i, j :: 0 <= i < j < |s| ==> s[i] != s[j]
  }

  /** Appending an element not yet present keeps a sequence free of repeats. */
  lemma DistinctSnoc<T>(s: seq<T>, x: T)
    requires Distinct(s) && x !in s
    ensures Distinct(s + [x])
  {
    forall i, j | 0 <= i < j < |s| + 1 ensures (s + [x])[i] != (s + [x])[j] {
      if j < |s| {
        assert (s + [x])[i] == s[i] && (s + [x])[j] == s[j];
      }
    }
  }

  /** Summing one more element adds its term. */
  lemma SumSnoc<T>(s: seq<T>, x: T, f: T -> int)
    ensures Sum(s + [x], f) == Sum(s, f) + f(x)
  {
    assert (s + [x])[..|s|] == s;
  }

  /** A sequence without repeats holds at most one copy of anything. */
  lemma {:induction false} DistinctCount<T>(s: seq<T>, x: T)
    requires Distinct(s)
    ensures multiset(s)[x] <= 1
  {
    if s != [] {
      var s' := s[..|s| - 1];
      DistinctCount(s', x);
      assert s == s' + [s[|s| - 1]];
      assert s[|s| - 1] == x ==> x !in s';
    }
  }

  /** Two equal elements at different places are two copies. */
  lemma CountRepeat<T>(s: seq<T>, i: nat, j: nat)
    requires i < j < |s|
    ensures s[i] == s[j] ==> multiset(s)[s[i]] >= 2
  {
    assert s == s[..j] + [s[j]] + s[j + 1..];
    assert s[i] in s[..j];
  }

  /** A permutation of a sequence without repeats has no repeats. */
  lemma DistinctPerm<T>(a: seq<T>, b: seq<T>)
    requires Distinct(a) && multiset(a) == multiset(b)
    ensures Distinct(b)
  {
    forall i, j | 0 <= i < j < |b| ensures b[i] != b[j] {
      CountRepeat(b, i, j);
      DistinctCount(a, b[i]);
    }
  }

  /**
   * Changing a term function at one point changes the sum over a sequence without
   * repeats by the change at that point, counted once if the point is listed.
   */
  lemma {:induction false} SumPoint<T>(s: seq<T>, f: T -> int, g: T -> int, c: T, a: int)
    requires Distinct(s)
    requires forall x :: x != c ==> g(x) == f(x)
    requires g(c) == f(c) + a
    ensures Sum(s, g) == Sum(s, f) + (if c in s then a else 0)
  {
    if s != [] {
      var init := s[..|s| - 1];
      assert Distinct(init);
      SumPoint(init, f, g, c, a);
      assert c in s <==> c in init || c == s[|s| - 1];
    }
  }

  /** The element-wise image of a sequence under `f`: `s.map(f)`. */
  function MapSeq<T, U>(s: seq<T>, f: T -> U): (r: seq<U>)
    ensures |r| == |s|
    ensures forall i :: 0 <= i < |s| ==> r[i] == f(s[i])
  {
    seq(|s|, i requires 0 <= i < |s| => f(s[i]))
  }

  function Id(x: int): int {
    x
  }

  /** Adding up the image of a sequence is summing the sequence under `f`. */
  lemma {:induction false} SumMapSeq<T>(s: seq<T>, f: T -> int)
    ensures Sum(MapSeq(s, f), Id) == Sum(s, f)
  {
    if s != [] {
      var init := s[..|s| - 1];
      SumMapSeq(init, f);
      assert MapSeq(s, f)[..|s| - 1] == MapSeq(init, f);
    }
  }
}
