/**
 * Order-preserving filtering of sequences, the meaning of a Python list
 * comprehension `[x for x in s if keep(x)]`, and the facts about it that the
 * rest of the model relies on.
 */
module Seqs {

  /** The elements of `s` that satisfy `keep`, in their original order. */
  function Filter<T>(keep: T -> bool, s: seq<T>): (r: seq<T>)
    ensures |r| <= |s|
    ensures forall i :: 0 <= i < |r| ==> keep(r[i]) && r[i] in s
    ensures forall i :: 0 <= i < |s| && keep(s[i]) ==> s[i] in r
    decreases |s|
  {
    if s == [] then [] else (if keep(s[0]) then [s[0]] else []) + Filter(keep, s[1..])
  }

  /** `r` can be obtained from `s` by deleting elements, without reordering the rest. */
  predicate IsSubsequence<T(==)>(r: seq<T>, s: seq<T>)
    decreases |s|
  {
    r == [] || (s != [] && ((r[0] == s[0] && IsSubsequence(r[1..], s[1..])) || IsSubsequence(r, s[1..])))
  }

  lemma {:induction false} FilterIsSubsequence<T>(keep: T -> bool, s: seq<T>)
    ensures IsSubsequence(Filter(keep, s), s)
    decreases |s|
  {
    if s != [] {
      FilterIsSubsequence(keep, s[1..]);
      var r := Filter(keep, s);
      if keep(s[0]) {
        assert r[0] == s[0] && r[1..] == Filter(keep, s[1..]);
      } else {
        assert r == Filter(keep, s[1..]);
      }
    }
  }

  lemma {:induction false} FilterConcat<T>(keep: T -> bool, a: seq<T>, b: seq<T>)
    ensures Filter(keep, a + b) == Filter(keep, a) + Filter(keep, b)
    decreases |a|
  {
    if a == [] {
      assert a + b == b;
    } else {
      assert (a + b)[1..] == a[1..] + b;
      FilterConcat(keep, a[1..], b);
    }
  }

  /** Filtering twice is filtering once by the conjunction of the two conditions. */
  lemma {:induction false} FilterFilter<T>(first: T -> bool, second: T -> bool, both: T -> bool, s: seq<T>)
    requires forall x :: both(x) == (first(x) && second(x))
    ensures Filter(second, Filter(first, s)) == Filter(both, s)
    decreases |s|
  {
    if s != [] {
      FilterFilter(first, second, both, s[1..]);
      var once := Filter(first, s);
      if first(s[0]) {
        assert once[0] == s[0] && once[1..] == Filter(first, s[1..]);
      } else {
        assert once == Filter(first, s[1..]);
      }
    }
  }

  /** A sequence whose elements all satisfy `keep` is left unchanged by filtering. */
  lemma {:induction false} FilterKeepsAll<T>(keep: T -> bool, s: seq<T>)
    requires forall i :: 0 <= i < |s| ==> keep(s[i])
    ensures Filter(keep, s) == s
    decreases |s|
  {
    if s != [] {
      FilterKeepsAll(keep, s[1..]);
    }
  }

  /** Every element lands in exactly one of the two filters by a condition and by its negation. */
  lemma {:induction false} FilterComplement<T>(keep: T -> bool, drop: T -> bool, s: seq<T>)
    requires forall x :: drop(x) == !keep(x)
    ensures |Filter(keep, s)| + |Filter(drop, s)| == |s|
    decreases |s|
  {
    if s != [] {
      FilterComplement(keep, drop, s[1..]);
    }
  }
}
