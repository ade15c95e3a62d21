/**
 * Sequence operations the source takes from JavaScript's `Array.prototype`:
 * `filter`, `some` and `slice(0, k)`, and the order-preserving subsequence
 * relation that every filter result stands in to its input.
 */
module Seqs {

  /** `a` can be obtained from `b` by deleting elements, keeping the order of the rest. */
  ghost predicate IsSubsequence<T>(a: seq<T>, b: seq<T>)
    decreases |b|
  {
    a == [] || (b != [] && ((a[0] == b[0] && IsSubsequence(a[1..], b[1..])) || IsSubsequence(a, b[1..])))
  }

  /** `Array.prototype.filter`: the elements of `s` satisfying `p`, in their original order. */
  function Filter<T(!new)>(s: seq<T>, p: T -> bool): (r: seq<T>)
    ensures |r| <= |s|
    ensures forall x :: x in r <==> x in s && p(x)
    ensures IsSubsequence(r, s)
    decreases |s|
  {
    if s == [] then []
    else if p(s[0]) then [s[0]] + Filter(s[1..], p)
    else Filter(s[1..], p)
  }

  /** `Array.prototype.some`: whether an element of `s` satisfies `p`. */
  function Any<T(!new)>(s: seq<T>, p: T -> bool): (r: bool)
    ensures r <==> exists x :: x in s && p(x)
    decreases |s|
  {
    if s == [] then false
    else p(s[0]) || Any(s[1..], p)
  }

  /** `Array.prototype.slice(0, k)`: the first min(k, |s|) elements. */
  function Take<T>(s: seq<T>, k: nat): (r: seq<T>)
    ensures |r| == if k < |s| then k else |s|
    ensures forall i :: 0 <= i < |r| ==> r[i] == s[i]
  {
    if k < |s| then s[..k] else s
  }

  lemma {:induction false} SubsequenceReflexive<T>(s: seq<T>)
    ensures IsSubsequence(s, s)
    decreases |s|
  {
    if s != [] {
      SubsequenceReflexive(s[1..]);
    }
  }

  lemma {:induction false} SubsequenceTransitive<T>(a: seq<T>, b: seq<T>, c: seq<T>)
    requires IsSubsequence(a, b) && IsSubsequence(b, c)
    ensures IsSubsequence(a, c)
    decreases |c|
  {
    if a != [] {
      if b[0] == c[0] && IsSubsequence(b[1..], c[1..]) {
        if a[0] == b[0] && IsSubsequence(a[1..], b[1..]) {
          SubsequenceTransitive(a[1..], b[1..], c[1..]);
        } else {
          SubsequenceTransitive(a, b[1..], c[1..]);
        }
      } else {
        SubsequenceTransitive(a, b, c[1..]);
      }
    }
  }

  /** Every prefix of `s` is a subsequence of `s`. */
  lemma {:induction false} TakeIsSubsequence<T>(s: seq<T>, k: nat)
    ensures IsSubsequence(Take(s, k), s)
    decreases |s|
  {
    if k >= |s| {
      SubsequenceReflexive(s);
    } else if k > 0 {
      TakeIsSubsequence(s[1..], k - 1);
      assert Take(s, k)[1..] == Take(s[1..], k - 1);
    }
  }

  /**
   * `filter` keeps every occurrence of a kept element: each value occurs in
   * the result as often as in the input when it satisfies `p`, and not at all
   * otherwise.
   */
  lemma {:induction false} FilterMultiplicity<T(!new)>(s: seq<T>, p: T -> bool)
    ensures forall x :: multiset(Filter(s, p))[x] == if p(x) then multiset(s)[x] else 0
    decreases |s|
  {
    if s != [] {
      FilterMultiplicity(s[1..], p);
      assert s == [s[0]] + s[1..];
      assert multiset(s) == multiset{s[0]} + multiset(s[1..]);
      if p(s[0]) {
        assert multiset(Filter(s, p)) == multiset{s[0]} + multiset(Filter(s[1..], p));
      }
    }
  }

  /** Filtering a concatenation filters each part, keeping the parts in order. */
  lemma {:induction false} FilterConcat<T(!new)>(a: seq<T>, b: seq<T>, p: T -> bool)
    ensures Filter(a + b, p) == Filter(a, p) + Filter(b, p)
    decreases |a|
  {
    if a != [] {
      assert (a + b)[1..] == a[1..] + b;
      FilterConcat(a[1..], b, p);
    } else {
      assert a + b == b;
    }
  }

  /** A filter that keeps every element returns its input unchanged. */
  lemma {:induction false} FilterKeepsAll<T(!new)>(s: seq<T>, p: T -> bool)
    requires forall x :: x in s ==> p(x)
    ensures Filter(s, p) == s
    decreases |s|
  {
    if s != [] {
      FilterKeepsAll(s[1..], p);
    }
  }

  /** A filter that keeps no element returns the empty sequence. */
  lemma {:induction false} FilterDropsAll<T(!new)>(s: seq<T>, p: T -> bool)
    requires forall x :: x in s ==> !p(x)
    ensures Filter(s, p) == []
    decreases |s|
  {
    if s != [] {
      FilterDropsAll(s[1..], p);
    }
  }

  /** Two predicates that agree on every element of `s` filter it alike. */
  lemma {:induction false} FilterCongruent<T(!new)>(s: seq<T>, p: T -> bool, q: T -> bool)
    requires forall x :: x in s ==> p(x) == q(x)
    ensures Filter(s, p) == Filter(s, q)
    decreases |s|
  {
    if s != [] {
      FilterCongruent(s[1..], p, q);
    }
  }

  /** Filtering twice with the same predicate changes nothing the second time. */
  lemma FilterIdempotent<T(!new)>(s: seq<T>, p: T -> bool)
    ensures Filter(Filter(s, p), p) == Filter(s, p)
  {
    FilterKeepsAll(Filter(s, p), p);
  }

  /** Two positions of a subsequence come from two increasing positions of the sequence. */
  lemma {:induction false} SubsequenceIndices<T>(a: seq<T>, b: seq<T>, i: nat, j: nat)
    requires IsSubsequence(a, b)
    requires i < j < |a|
    ensures exists i', j' :: 0 <= i' < j' < |b| && a[i] == b[i'] && a[j] == b[j']
    decreases |b|
  {
    if a[0] == b[0] && IsSubsequence(a[1..], b[1..]) {
      if i == 0 {
        var k := SubsequenceIndex(a[1..], b[1..], j - 1);
        assert a[j] == b[k + 1];
      } else {
        SubsequenceIndices(a[1..], b[1..], i - 1, j - 1);
        var i', j' :| 0 <= i' < j' < |b[1..]| && a[1..][i - 1] == b[1..][i'] && a[1..][j - 1] == b[1..][j'];
        assert a[i] == b[i' + 1] && a[j] == b[j' + 1];
      }
    } else {
      SubsequenceIndices(a, b[1..], i, j);
      var i', j' :| 0 <= i' < j' < |b[1..]| && a[i] == b[1..][i'] && a[j] == b[1..][j'];
      assert a[i] == b[i' + 1] && a[j] == b[j' + 1];
    }
  }

  /** A position of a subsequence comes from a position of the sequence. */
  lemma {:induction false} SubsequenceIndex<T>(a: seq<T>, b: seq<T>, i: nat) returns (k: nat)
    requires IsSubsequence(a, b)
    requires i < |a|
    ensures k < |b| && a[i] == b[k]
    decreases |b|
  {
    if a[0] == b[0] && IsSubsequence(a[1..], b[1..]) {
      if i == 0 {
        k := 0;
      } else {
        k := SubsequenceIndex(a[1..], b[1..], i - 1);
        k := k + 1;
      }
    } else {
      k := SubsequenceIndex(a, b[1..], i);
      k := k + 1;
    }
  }

  lemma HeadIsMember<T>(s: seq<T>)
    ensures s != [] ==> s[0] in s
  {
  }

  /** A sequence with no members is empty. */
  lemma NothingInIsEmpty<T>(s: seq<T>)
    requires forall x :: x !in s
    ensures s == []
  {
    HeadIsMember(s);
  }
}
