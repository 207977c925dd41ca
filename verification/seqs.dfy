/**
 * Sequence operations that the hooks and registries use over and over:
 * `Array.prototype.filter`, element-wise update (`prev.map(x => cond ? {...} : x)`),
 * order-preserving de-duplication (`[...new Set(xs)]`), and the facts about
 * them that the models rely on.
 */
module Seqs {

  /** `a` is obtained from `b` by deleting elements, keeping the order. */
  ghost predicate IsSubsequence<T>(a: seq<T>, b: seq<T>)
    decreases |b|
  {
    if |a| == 0 then true
    else if |b| == 0 then false
    else (a[0] == b[0] && IsSubsequence(a[1..], b[1..])) || IsSubsequence(a, b[1..])
  }

  /** `s.filter(p)`. */
  function Filter<T(!new)>(p: T -> bool, s: seq<T>): (r: seq<T>)
    ensures |r| <= |s|
    ensures forall x :: x in r <==> x in s && p(x)
    ensures forall i :: 0 <= i < |r| ==> p(r[i])
    decreases |s|
  {
    if |s| == 0 then []
    else if p(s[0]) then [s[0]] + Filter(p, s[1..])
    else Filter(p, s[1..])
  }

  /** Number of elements of `s` satisfying `p`: `s.filter(p).length`. */
  function Count<T(!new)>(p: T -> bool, s: seq<T>): nat {
    |Filter(p, s)|
  }

  /** Nothing is counted exactly when no element satisfies the predicate. */
  lemma CountZeroIffNone<T(!new)>(p: T -> bool, s: seq<T>)
    ensures Count(p, s) == 0 <==> forall i :: 0 <= i < |s| ==> !p(s[i])
  {
    var r := Filter(p, s);
    if |r| > 0 {
      assert r[0] in s;
    } else {
      forall i | 0 <= i < |s| ensures !p(s[i]) {
        assert s[i] in s;
      }
    }
  }

  /** `s.some(p)`. */
  predicate Any<T>(p: T -> bool, s: seq<T>) {
    exists i :: 0 <= i < |s| && p(s[i])
  }

  /** The negation of a predicate, as a value. */
  function Not<T>(p: T -> bool): T -> bool {
    x => !p(x)
  }

  /** `s.map(x => p(x) ? f(x) : x)`: rewrite exactly the elements matching `p`. */
  function UpdateWhere<T>(s: seq<T>, p: T -> bool, f: T -> T): (r: seq<T>)
    ensures |r| == |s|
    ensures forall i :: 0 <= i < |s| && p(s[i]) ==> r[i] == f(s[i])
    ensures forall i :: 0 <= i < |s| && !p(s[i]) ==> r[i] == s[i]
  {
    if |s| == 0 then []
    else [if p(s[0]) then f(s[0]) else s[0]] + UpdateWhere(s[1..], p, f)
  }

  /** Elements of `s` pairwise distinct. */
  predicate NoDuplicates<T(==)>(s: seq<T>) {
    forall i, j :: 0 <= i < j < |s| ==> s[i] != s[j]
  }

  /** A sequence whose every element can be mapped back to its own position has no duplicates. */
  lemma NoDuplicatesByPosition<T>(s: seq<T>, position: T -> int)
    requires forall i :: 0 <= i < |s| ==> position(s[i]) == i
    ensures NoDuplicates(s)
  {
    forall i, j | 0 <= i < j < |s| ensures s[i] != s[j] {
      assert position(s[i]) != position(s[j]);
    }
  }

  /** `[...new Set(s)]`: each element once, at the position of its first occurrence. */
  function Dedup<T(==,!new)>(s: seq<T>): (r: seq<T>)
    ensures NoDuplicates(r)
    ensures forall x :: x in r <==> x in s
    ensures |r| <= |s|
    decreases |s|
  {
    if |s| == 0 then []
    else
      var front := Dedup(s[..|s| - 1]);
      var last := s[|s| - 1];
      assert forall x :: x in s <==> x in s[..|s| - 1] || x == last;
      if last in front then front else front + [last]
  }

  /** De-duplicating `a` followed by a run of `b`s gives `a, b` when the two differ. */
  lemma {:induction false} DedupRun<T(!new)>(a: T, b: T, t: seq<T>)
    requires a != b && |t| > 0 && forall k :: 0 <= k < |t| ==> t[k] == b
    ensures Dedup([a] + t) == [a, b]
    decreases |t|
  {
    var s := [a] + t;
    assert s[..|s| - 1] == [a] + t[..|t| - 1];
    if |t| == 1 {
      assert Dedup([a]) == [a] by {
        assert [a][..0] == [];
      }
    } else {
      DedupRun(a, b, t[..|t| - 1]);
    }
  }

  /** Appending an element not seen yet appends it to the de-duplicated sequence. */
  lemma DedupAppendNew<T(!new)>(s: seq<T>, g: T)
    requires g !in Dedup(s)
    ensures Dedup(s + [g]) == Dedup(s) + [g]
  {
    assert (s + [g])[..|s + [g]| - 1] == s;
  }

  /** `a`, a run of `b`s, then a third value `c` de-duplicate to `a, b, c`. */
  lemma DedupRunThenNew<T(!new)>(a: T, b: T, c: T, t: seq<T>)
    requires a != b && c != a && c != b
    requires |t| > 0 && forall k :: 0 <= k < |t| ==> t[k] == b
    ensures Dedup([a] + t + [c]) == [a, b, c]
  {
    DedupRun(a, b, t);
    DedupAppendNew([a] + t, c);
  }

  /** Sum of `f` over `s`: `s.reduce((acc, x) => acc + f(x), 0)`. */
  function Sum<T>(f: T -> int, s: seq<T>): int
    decreases |s|
  {
    if |s| == 0 then 0 else f(s[0]) + Sum(f, s[1..])
  }

  /** The filtered sequence keeps the original order. */
  lemma {:induction false} FilterIsSubsequence<T(!new)>(p: T -> bool, s: seq<T>)
    ensures IsSubsequence(Filter(p, s), s)
    decreases |s|
  {
    if |s| > 0 {
      FilterIsSubsequence(p, s[1..]);
      var r := Filter(p, s[1..]);
      if p(s[0]) {
        assert Filter(p, s) == [s[0]] + r;
        assert ([s[0]] + r)[1..] == r;
      } else {
        SubsequenceOfTail(Filter(p, s), s);
      }
    }
  }

  /** A subsequence of the tail is a subsequence of the whole. */
  lemma SubsequenceOfTail<T>(a: seq<T>, b: seq<T>)
    requires |b| > 0 && IsSubsequence(a, b[1..])
    ensures IsSubsequence(a, b)
  {
  }

  /** Every sequence is a subsequence of itself. */
  lemma {:induction false} SubsequenceOfSelf<T>(s: seq<T>)
    ensures IsSubsequence(s, s)
    decreases |s|
  {
    if |s| > 0 {
      SubsequenceOfSelf(s[1..]);
    }
  }

  /** Every element a filter keeps or drops is accounted for exactly once. */
  lemma {:induction false} FilterPartition<T(!new)>(p: T -> bool, s: seq<T>)
    ensures |Filter(p, s)| + |Filter(Not(p), s)| == |s|
    decreases |s|
  {
    if |s| > 0 {
      FilterPartition(p, s[1..]);
    }
  }

  /** Filtering twice by the same predicate changes nothing the second time. */
  lemma {:induction false} FilterIdempotent<T(!new)>(p: T -> bool, s: seq<T>)
    ensures Filter(p, Filter(p, s)) == Filter(p, s)
    decreases |s|
  {
    if |s| > 0 {
      FilterIdempotent(p, s[1..]);
      if p(s[0]) {
        var r := Filter(p, s[1..]);
        assert ([s[0]] + r)[0] == s[0];
        assert ([s[0]] + r)[1..] == r;
      }
    }
  }

  /** A filter whose predicate holds of every element returns its input. */
  lemma {:induction false} FilterKeepsAll<T(!new)>(p: T -> bool, s: seq<T>)
    requires forall i :: 0 <= i < |s| ==> p(s[i])
    ensures Filter(p, s) == s
    decreases |s|
  {
    if |s| > 0 {
      FilterKeepsAll(p, s[1..]);
      assert [s[0]] + s[1..] == s;
    }
  }

  /** A filter whose predicate holds of no element returns nothing. */
  lemma FilterKeepsNone<T(!new)>(p: T -> bool, s: seq<T>)
    requires forall i :: 0 <= i < |s| ==> !p(s[i])
    ensures Filter(p, s) == []
  {
  }

  /** Filters by two predicates can be applied in either order. */
  lemma {:induction false} FilterCommute<T(!new)>(p: T -> bool, q: T -> bool, s: seq<T>)
    ensures Filter(q, Filter(p, s)) == Filter(p, Filter(q, s))
    decreases |s|
  {
    if |s| > 0 {
      FilterCommute(p, q, s[1..]);
      var x := s[0];
      var rp := Filter(p, s[1..]);
      var rq := Filter(q, s[1..]);
      if p(x) {
        assert ([x] + rp)[0] == x && ([x] + rp)[1..] == rp;
      }
      if q(x) {
        assert ([x] + rq)[0] == x && ([x] + rq)[1..] == rq;
      }
    }
  }

  /** Filtering distributes over concatenation. */
  lemma {:induction false} FilterConcat<T(!new)>(p: T -> bool, a: seq<T>, b: seq<T>)
    ensures Filter(p, a + b) == Filter(p, a) + Filter(p, b)
    decreases |a|
  {
    if |a| == 0 {
      assert a + b == b;
    } else {
      assert (a + b)[0] == a[0];
      assert (a + b)[1..] == a[1..] + b;
      FilterConcat(p, a[1..], b);
    }
  }

  /** Summation distributes over concatenation. */
  lemma {:induction false} SumConcat<T>(f: T -> int, a: seq<T>, b: seq<T>)
    ensures Sum(f, a + b) == Sum(f, a) + Sum(f, b)
    decreases |a|
  {
    if |a| == 0 {
      assert a + b == b;
    } else {
      assert (a + b)[0] == a[0];
      assert (a + b)[1..] == a[1..] + b;
      SumConcat(f, a[1..], b);
    }
  }

  /** Replacing one element changes the sum by the difference of the two values. */
  lemma SumReplace<T>(f: T -> int, s: seq<T>, i: nat, x: T)
    requires i < |s|
    ensures Sum(f, s[i := x]) == Sum(f, s) - f(s[i]) + f(x)
  {
    var r := s[i := x];
    assert s == s[..i] + ([s[i]] + s[i + 1..]);
    assert r == s[..i] + ([x] + s[i + 1..]);
    SumConcat(f, s[..i], [s[i]] + s[i + 1..]);
    SumConcat(f, [s[i]], s[i + 1..]);
    SumConcat(f, s[..i], [x] + s[i + 1..]);
    SumConcat(f, [x], s[i + 1..]);
  }
}
