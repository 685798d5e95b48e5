/**
 * Sequence operations shared by the stores and pages: JavaScript's `Array.prototype.filter`,
 * what it means for one list to be an order-preserving sub-list of another, and
 * duplicate-freedom.
 */
module Seqs {

  /** The elements of `s` for which `keep` holds, in their original order. */
  function Filter<T>(s: seq<T>, keep: T -> bool): (r: seq<T>)
    ensures |r| <= |s|
    ensures forall k :: 0 <= k < |r| ==> r[k] in s && keep(r[k])
    ensures forall k :: 0 <= k < |s| && keep(s[k]) ==> s[k] in r
  {
    if s == [] then []
    else (if keep(s[0]) then [s[0]] else []) + Filter(s[1..], keep)
  }

  /** `r` can be obtained from `s` by deleting elements, without reordering the rest. */
  predicate SubsequenceOf<T(==)>(r: seq<T>, s: seq<T>)
    decreases |s|
  {
    if r == [] then true
    else if s == [] then false
    else (r[0] == s[0] && SubsequenceOf(r[1..], s[1..])) || SubsequenceOf(r, s[1..])
  }

  /** No value occurs twice. */
  predicate NoDuplicates<T(==)>(s: seq<T>) {
    forall i, j :: 0 <= i < j < |s| ==> s[i] != s[j]
  }

  /** Filtering distributes over concatenation: each part keeps its own order. */
  lemma {:induction false} FilterAppend<T>(a: seq<T>, b: seq<T>, keep: T -> bool)
    ensures Filter(a + b, keep) == Filter(a, keep) + Filter(b, keep)
  {
    if a == [] {
      assert a + b == b;
    } else {
      assert (a + b)[0] == a[0];
      assert (a + b)[1..] == a[1..] + b;
      FilterAppend(a[1..], b, keep);
    }
  }

  /** When every element passes, filtering changes nothing. */
  lemma {:induction false} FilterAllKept<T>(s: seq<T>, keep: T -> bool)
    requires forall k :: 0 <= k < |s| ==> keep(s[k])
    ensures Filter(s, keep) == s
  {
    if s != [] {
      assert forall k :: 0 <= k < |s[1..]| ==> s[1..][k] == s[k + 1];
      FilterAllKept(s[1..], keep);
    }
  }

  /** A filtered list is a sub-list of its source in source order. */
  lemma {:induction false} FilterIsSubsequence<T>(s: seq<T>, keep: T -> bool)
    ensures SubsequenceOf(Filter(s, keep), s)
  {
    if s != [] {
      FilterIsSubsequence(s[1..], keep);
      if !keep(s[0]) {
        assert Filter(s, keep) == Filter(s[1..], keep);
      } else {
        var r := Filter(s, keep);
        assert r[0] == s[0] && r[1..] == Filter(s[1..], keep);
      }
    }
  }

  /** Filtering never creates a duplicate. */
  lemma {:induction false} FilterNoDuplicates<T>(s: seq<T>, keep: T -> bool)
    requires NoDuplicates(s)
    ensures NoDuplicates(Filter(s, keep))
  {
    if s != [] {
      assert NoDuplicates(s[1..]) by {
        forall i, j | 0 <= i < j < |s[1..]| ensures s[1..][i] != s[1..][j] {
          assert s[1..][i] == s[i + 1] && s[1..][j] == s[j + 1];
        }
      }
      FilterNoDuplicates(s[1..], keep);
      if keep(s[0]) {
        var rest := Filter(s[1..], keep);
        assert s[0] !in s[1..] by {
          forall k | 0 <= k < |s[1..]| ensures s[1..][k] != s[0] {
            assert s[1..][k] == s[k + 1];
          }
        }
        assert s[0] !in rest;
        var r := Filter(s, keep);
        assert r == [s[0]] + rest;
        forall i, j | 0 <= i < j < |r| ensures r[i] != r[j] {
          if i == 0 {
            assert r[j] == rest[j - 1];
          } else {
            assert r[i] == rest[i - 1] && r[j] == rest[j - 1];
          }
        }
      }
    }
  }

  /** Appending a value absent from a duplicate-free list keeps it duplicate-free. */
  lemma AppendFreshNoDuplicates<T>(s: seq<T>, x: T)
    requires NoDuplicates(s) && x !in s
    ensures NoDuplicates(s + [x])
  {
    var r := s + [x];
    forall i, j | 0 <= i < j < |r| ensures r[i] != r[j] {
      if j == |s| {
        assert r[i] == s[i];
      } else {
        assert r[i] == s[i] && r[j] == s[j];
      }
    }
  }

  /** `s.reduce((acc, x) => acc + w(x), 0)`. */
  function Sum<T>(s: seq<T>, w: T -> int): int {
    if s == [] then 0 else w(s[0]) + Sum(s[1..], w)
  }

  lemma {:induction false} SumAppend<T>(a: seq<T>, b: seq<T>, w: T -> int)
    ensures Sum(a + b, w) == Sum(a, w) + Sum(b, w)
  {
    if a == [] {
      assert a + b == b;
    } else {
      assert (a + b)[0] == a[0];
      assert (a + b)[1..] == a[1..] + b;
      SumAppend(a[1..], b, w);
    }
  }

  /** Replacing one element changes the sum by the difference of the two weights. */
  lemma {:induction false} SumUpdate<T>(s: seq<T>, i: int, x: T, w: T -> int)
    requires 0 <= i < |s|
    ensures Sum(s[i := x], w) == Sum(s, w) - w(s[i]) + w(x)
  {
    if i > 0 {
      assert s[i := x][1..] == s[1..][i - 1 := x];
      SumUpdate(s[1..], i - 1, x, w);
    }
  }

  /** Splitting a list by a test and its negation splits its sum. */
  lemma {:induction false} SumSplit<T>(s: seq<T>, keep: T -> bool, drop: T -> bool, w: T -> int)
    requires forall k :: 0 <= k < |s| ==> drop(s[k]) == !keep(s[k])
    ensures Sum(s, w) == Sum(Filter(s, keep), w) + Sum(Filter(s, drop), w)
  {
    if s != [] {
      assert forall k :: 0 <= k < |s[1..]| ==> s[1..][k] == s[k + 1];
      SumSplit(s[1..], keep, drop, w);
      if keep(s[0]) {
        SumAppend([s[0]], Filter(s[1..], keep), w);
        assert Filter(s, drop) == Filter(s[1..], drop);
      } else {
        SumAppend([s[0]], Filter(s[1..], drop), w);
        assert Filter(s, keep) == Filter(s[1..], keep);
      }
    }
  }

  /** When no element passes, filtering leaves nothing. */
  lemma {:induction false} FilterNoneKept<T>(s: seq<T>, keep: T -> bool)
    requires forall k :: 0 <= k < |s| ==> !keep(s[k])
    ensures Filter(s, keep) == []
  {
    if s != [] {
      assert forall k :: 0 <= k < |s[1..]| ==> s[1..][k] == s[k + 1];
      FilterNoneKept(s[1..], keep);
    }
  }

  /** Two weightings that agree on every element give the same sum. */
  lemma {:induction false} SumPointwise<T>(s: seq<T>, w1: T -> int, w2: T -> int)
    requires forall k :: 0 <= k < |s| ==> w1(s[k]) == w2(s[k])
    ensures Sum(s, w1) == Sum(s, w2)
  {
    if s != [] {
      assert forall k :: 0 <= k < |s[1..]| ==> s[1..][k] == s[k + 1];
      SumPointwise(s[1..], w1, w2);
    }
  }

  /** A sum of weights that are each at least one is at least the length. */
  lemma {:induction false} SumAtLeastLength<T>(s: seq<T>, w: T -> int)
    requires forall k :: 0 <= k < |s| ==> w(s[k]) >= 1
    ensures Sum(s, w) >= |s|
  {
    if s != [] {
      assert forall k :: 0 <= k < |s[1..]| ==> s[1..][k] == s[k + 1];
      SumAtLeastLength(s[1..], w);
    }
  }

  /** Two tests that agree on every element filter alike. */
  lemma {:induction false} FilterSameTest<T>(s: seq<T>, k1: T -> bool, k2: T -> bool)
    requires forall k :: 0 <= k < |s| ==> k1(s[k]) == k2(s[k])
    ensures Filter(s, k1) == Filter(s, k2)
  {
    if s != [] {
      assert forall k :: 0 <= k < |s[1..]| ==> s[1..][k] == s[k + 1];
      FilterSameTest(s[1..], k1, k2);
    }
  }

  /** A sub-list is never longer than the list it comes from. */
  lemma {:induction false} SubsequenceLength<T>(r: seq<T>, s: seq<T>)
    requires SubsequenceOf(r, s)
    ensures |r| <= |s|
    decreases |s|
  {
    if r != [] {
      if r[0] == s[0] && SubsequenceOf(r[1..], s[1..]) {
        SubsequenceLength(r[1..], s[1..]);
      } else {
        SubsequenceLength(r, s[1..]);
      }
    }
  }

  /** A stricter test keeps a sub-list of what a looser test keeps. */
  lemma {:induction false} FilterStricter<T>(s: seq<T>, strict: T -> bool, loose: T -> bool)
    requires forall k :: 0 <= k < |s| && strict(s[k]) ==> loose(s[k])
    ensures SubsequenceOf(Filter(s, strict), Filter(s, loose))
  {
    if s != [] {
      assert forall k :: 0 <= k < |s[1..]| ==> s[1..][k] == s[k + 1];
      FilterStricter(s[1..], strict, loose);
      var r1 := Filter(s[1..], strict);
      var r2 := Filter(s[1..], loose);
      if strict(s[0]) {
        var f1 := Filter(s, strict);
        var f2 := Filter(s, loose);
        assert f1[0] == f2[0] && f1[1..] == r1 && f2[1..] == r2;
      } else if loose(s[0]) {
        var f2 := Filter(s, loose);
        assert f2[1..] == r2;
        assert Filter(s, strict) == r1;
      } else {
        assert Filter(s, strict) == r1 && Filter(s, loose) == r2;
      }
    }
  }
}
