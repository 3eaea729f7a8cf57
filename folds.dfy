/** The two array operations the ledger is built from: `filter` and a
    `reduce` that adds up one numeric field. */
module Folds {

  /** Array `filter`: the elements for which `keep` holds, in their order. */
  function Filter<T(==,!new)>(s: seq<T>, keep: T -> bool): (r: seq<T>)
    ensures |r| <= |s|
    ensures forall i :: 0 <= i < |r| ==> keep(r[i])
    ensures forall x :: multiset(r)[x] == if keep(x) then multiset(s)[x] else 0
  {
    if s == [] then []
    else
      var init := Filter(s[..|s| - 1], keep);
      assert s == s[..|s| - 1] + [s[|s| - 1]];
      if keep(s[|s| - 1]) then init + [s[|s| - 1]] else init
  }

  /** `reduce((acc, x) => acc + amount(x), 0)`: a left fold, so the last
      element is added last. */
  function Sum<T>(s: seq<T>, amount: T -> real): real
  {
    if s == [] then 0.0 else Sum(s[..|s| - 1], amount) + amount(s[|s| - 1])
  }

  /** Filtering a concatenation filters each part and keeps the parts in order. */
  lemma {:induction false} FilterAppend<T(!new)>(a: seq<T>, b: seq<T>, keep: T -> bool)
    ensures Filter(a + b, keep) == Filter(a, keep) + Filter(b, keep)
  {
    if b == [] {
      assert a + b == a;
    } else {
      var b' := b[..|b| - 1];
      assert (a + b)[..|a + b| - 1] == a + b';
      FilterAppend(a, b', keep);
    }
  }

  /** A filter that drops nothing returns its input unchanged. */
  lemma {:induction false} FilterKeepsAll<T(!new)>(s: seq<T>, keep: T -> bool)
    requires forall i :: 0 <= i < |s| ==> keep(s[i])
    ensures Filter(s, keep) == s
  {
    if s != [] {
      FilterKeepsAll(s[..|s| - 1], keep);
    }
  }

  /** A filter that drops only the one element `x` yields exactly the other
      elements, in their order. */
  lemma FilterDropsOne<T(!new)>(a: seq<T>, x: T, b: seq<T>, keep: T -> bool)
    requires forall i :: 0 <= i < |a| ==> keep(a[i])
    requires forall i :: 0 <= i < |b| ==> keep(b[i])
    requires !keep(x)
    ensures Filter(a + [x] + b, keep) == a + b
  {
    FilterAppend(a + [x], b, keep);
    FilterAppend(a, [x], keep);
    assert Filter([x], keep) == [];
    FilterKeepsAll(a, keep);
    FilterKeepsAll(b, keep);
  }

  /** Filtering first by a weaker condition changes nothing for `q`. */
  lemma {:induction false} FilterOfFilter<T(!new)>(s: seq<T>, p: T -> bool, q: T -> bool)
    requires forall i :: 0 <= i < |s| ==> q(s[i]) ==> p(s[i])
    ensures Filter(Filter(s, p), q) == Filter(s, q)
  {
    if s != [] {
      var init, x := s[..|s| - 1], s[|s| - 1];
      FilterOfFilter(init, p, q);
      var pInit := Filter(init, p);
      if p(x) {
        assert Filter(s, p) == pInit + [x];
        FilterAppend(pInit, [x], q);
        FilterSingleton(x, q);
      } else {
        assert Filter(s, p) == pInit;
        assert !q(x);
      }
    }
  }

  /** Filtering a one-element sequence. */
  lemma FilterSingleton<T(!new)>(x: T, keep: T -> bool)
    ensures Filter([x], keep) == if keep(x) then [x] else []
  {
    assert [x][..0] == [];
  }

  /** Filtering two permutations of each other yields two permutations of each other. */
  lemma FilterPermutation<T(!new)>(s: seq<T>, s': seq<T>, keep: T -> bool)
    requires multiset(s) == multiset(s')
    ensures multiset(Filter(s, keep)) == multiset(Filter(s', keep))
  {
    var f, f' := Filter(s, keep), Filter(s', keep);
    forall x ensures multiset(f)[x] == multiset(f')[x] {
    }
  }

  /** The sum of a concatenation is the sum of its parts. */
  lemma {:induction false} SumAppend<T>(a: seq<T>, b: seq<T>, amount: T -> real)
    ensures Sum(a + b, amount) == Sum(a, amount) + Sum(b, amount)
  {
    if b == [] {
      assert a + b == a;
    } else {
      var b' := b[..|b| - 1];
      assert (a + b)[..|a + b| - 1] == a + b';
      SumAppend(a, b', amount);
    }
  }

  /** The sum does not depend on the order of the elements. */
  lemma {:induction false} SumPermutation<T>(a: seq<T>, b: seq<T>, amount: T -> real)
    requires multiset(a) == multiset(b)
    ensures Sum(a, amount) == Sum(b, amount)
  {
    if a == [] {
      assert |b| == |multiset(b)| == 0;
    } else {
      var init, x := a[..|a| - 1], a[|a| - 1];
      assert a == init + [x];
      assert x in multiset(b);
      var j :| 0 <= j < |b| && b[j] == x;
      var left, right := b[..j], b[j + 1..];
      assert b == left + [x] + right;
      MultisetCancel(init, x, left, right);
      SumPermutation(init, left + right, amount);
      SumAppend(left, right, amount);
      SumAppend(left + [x], right, amount);
      SumAppend(left, [x], amount);
    }
  }

  /** Taking the same element out of two equal multisets. */
  lemma MultisetCancel<T>(a: seq<T>, x: T, b: seq<T>, c: seq<T>)
    requires multiset(a + [x]) == multiset(b + [x] + c)
    ensures multiset(a) == multiset(b + c)
  {
    assert multiset(a + [x]) == multiset(a) + multiset{x};
    assert b + [x] + c == b + ([x] + c);
    assert multiset(b + [x] + c) == multiset(b + c) + multiset{x};
    var m, n := multiset(a), multiset(b + c);
    forall y ensures m[y] == n[y] {
      assert (m + multiset{x})[y] == (n + multiset{x})[y];
    }
  }

  /** Non-negative amounts add up to a non-negative sum. */
  lemma {:induction false} SumNonNegative<T>(s: seq<T>, amount: T -> real)
    requires forall i :: 0 <= i < |s| ==> amount(s[i]) >= 0.0
    ensures Sum(s, amount) >= 0.0
  {
    if s != [] {
      SumNonNegative(s[..|s| - 1], amount);
    }
  }
}
