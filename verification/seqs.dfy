/** Sequence helpers: zero vectors, dot products, Python slicing and list comprehension filters. */
module Seqs {

  /** A vector of `n` zeros. */
  function Zeros(n: nat): (r: seq<real>)
    ensures |r| == n
    ensures forall i :: 0 <= i < n ==> r[i] == 0.0
  {
    seq(n, _ => 0.0)
  }

  /** The sum of `a[k] * b[k]` over every index `k`. */
  function Dot(a: seq<real>, b: seq<real>): real
    requires |a| == |b|
    decreases |a|
  {
    if |a| == 0 then 0.0 else a[0] * b[0] + Dot(a[1..], b[1..])
  }

  /** Python's `s[:-n]`. With `n == 0` this is `s[:0]`, the empty sequence, not `s`. */
  function DropLastPy<T>(s: seq<T>, n: nat): (r: seq<T>)
    ensures n == 0 ==> r == []
    ensures 0 < n <= |s| ==> r == s[..|s| - n]
    ensures n > |s| ==> r == []
  {
    if n == 0 || n > |s| then [] else s[..|s| - n]
  }

  /** Python's `[x for x in s if keep(x)]`. */
  function Filter<T>(s: seq<T>, keep: T -> bool): (r: seq<T>)
    ensures |r| <= |s|
    ensures forall i :: 0 <= i < |r| ==> keep(r[i])
    decreases |s|
  {
    if |s| == 0 then [] else (if keep(s[0]) then [s[0]] else []) + Filter(s[1..], keep)
  }

  /** `a` is obtained from `b` by deleting elements, keeping the order of the rest. */
  ghost predicate IsSubsequence<T>(a: seq<T>, b: seq<T>)
    decreases |b|
  {
    |a| <= |b| &&
    (|a| == 0 || (a[0] == b[0] && IsSubsequence(a[1..], b[1..])) || IsSubsequence(a, b[1..]))
  }

  /** The complement of a filter's predicate. */
  function Reject<T>(keep: T -> bool): T -> bool {
    x => !keep(x)
  }

  /** A filter keeps exactly the elements it accepts, each as often as it occurs. */
  lemma {:induction false} FilterCounts<T>(s: seq<T>, keep: T -> bool)
    ensures forall x :: multiset(Filter(s, keep))[x] == if keep(x) then multiset(s)[x] else 0
    decreases |s|
  {
    if |s| > 0 {
      FilterCounts(s[1..], keep);
      assert s == [s[0]] + s[1..];
    }
  }

  /** Filtering keeps the original order. */
  lemma {:induction false} FilterIsSubsequence<T>(s: seq<T>, keep: T -> bool)
    ensures IsSubsequence(Filter(s, keep), s)
    decreases |s|
  {
    if |s| > 0 {
      FilterIsSubsequence(s[1..], keep);
      var rest := Filter(s[1..], keep);
      if keep(s[0]) {
        assert Filter(s, keep) == [s[0]] + rest;
        assert ([s[0]] + rest)[1..] == rest;
      } else {
        assert Filter(s, keep) == rest;
      }
    }
  }

  /** Splitting by a predicate and its negation loses and duplicates nothing. */
  lemma {:induction false} FilterSplit<T>(s: seq<T>, keep: T -> bool)
    ensures multiset(Filter(s, keep)) + multiset(Filter(s, Reject(keep))) == multiset(s)
    decreases |s|
  {
    if |s| > 0 {
      FilterSplit(s[1..], keep);
      assert s == [s[0]] + s[1..];
      assert Reject(keep)(s[0]) == !keep(s[0]);
    }
  }

  /** Moving the first element of `xs` onto the end of `prefix` keeps the concatenation. */
  lemma MoveFirst<T>(prefix: seq<T>, xs: seq<T>)
    requires |xs| >= 1
    ensures (prefix + [xs[0]]) + xs[1..] == prefix + xs
  {
  }

  /** A suffix is its first element followed by the rest. */
  lemma SliceFrom<T>(s: seq<T>, i: nat)
    requires i < |s|
    ensures s[i..] == [s[i]] + s[i + 1..]
  {
  }

  lemma AppendAssoc<T>(a: seq<T>, b: seq<T>, c: seq<T>)
    ensures a + b + c == a + (b + c)
  {
  }

  /** A non-empty sequence is its front followed by its last element. */
  lemma TakeSnoc<T>(s: seq<T>)
    requires |s| > 0
    ensures s == s[..|s| - 1] + [s[|s| - 1]]
  {
  }

  /** A sequence of length one is its only element. */
  lemma Singleton<T>(s: seq<T>)
    requires |s| == 1
    ensures s == [s[0]]
  {
  }

  /** Storing twice under one key keeps only the second value. */
  lemma OverwriteTwice<K, V>(m: map<K, V>, k: K, a: V, b: V)
    ensures m[k := a][k := b] == m[k := b]
  {
  }

  /** Filtering keeps exactly the accepted elements, as a set. */
  lemma {:induction false} FilterMembers<T>(s: seq<T>, keep: T -> bool)
    ensures forall x :: x in Filter(s, keep) <==> x in s && keep(x)
    decreases |s|
  {
    if |s| > 0 {
      FilterMembers(s[1..], keep);
      assert s == [s[0]] + s[1..];
    }
  }

  lemma RejectIs<T>(keep: T -> bool, x: T)
    ensures Reject(keep)(x) == !keep(x)
  {
  }

  /** Dropping the last element of `a + b`, for a non-empty `b`, drops the last element of `b`. */
  lemma DropLastOfAppend<T>(a: seq<T>, b: seq<T>)
    requires |b| > 0
    ensures (a + b)[..|a + b| - 1] == a + b[..|b| - 1]
  {
  }

  /** The five pieces of `a + b + c + d + e` are recovered by slicing at their offsets. */
  lemma SliceFive<T>(a: seq<T>, b: seq<T>, c: seq<T>, d: seq<T>, e: seq<T>)
    ensures var s := a + b + c + d + e;
            var i, j, k, m := |a|, |a| + |b|, |a| + |b| + |c|, |a| + |b| + |c| + |d|;
            && s[..i] == a && s[i..j] == b && s[j..k] == c && s[k..m] == d && s[m..] == e
  {
    var s := a + b + c + d + e;
    var i, j, k, m := |a|, |a| + |b|, |a| + |b| + |c|, |a| + |b| + |c| + |d|;
    assert s[..i] == a;
    assert s[i..j] == b;
    assert s[j..k] == c;
    assert s[k..m] == d;
    assert s[m..] == e;
  }
}
