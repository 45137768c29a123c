/** Vocabulary shared by every model: optional values, distinct lists, and what survives a permutation. */
module Prelude {

  datatype Option<+T> = None | Some(value: T)

  predicate Distinct<T(==)>(s: seq<T>) {
    forall i, j :: 0 <= i < j < |s| ==> s[i] != s[j]
  }

  function Elements<T>(s: seq<T>): set<T> {
    set x | x in s
  }

  predicate Ascending(s: seq<nat>) {
    forall i, j :: 0 <= i < j < |s| ==> s[i] < s[j]
  }

  /** Pigeonhole: a list has as many elements as positions exactly when no element repeats. */
  lemma {:induction false} DistinctByCount<T>(s: seq<T>)
    ensures |Elements(s)| <= |s|
    ensures Distinct(s) <==> |Elements(s)| == |s|
  {
    if s != [] {
      var rest, x := s[..|s| - 1], s[|s| - 1];
      DistinctByCount(rest);
      assert s == rest + [x];
      assert Elements(s) == Elements(rest) + {x};
      if x in rest {
        assert Elements(s) == Elements(rest);
      }
    }
  }

  /** Two lists with the same multiset agree on length, elements and distinctness. */
  lemma SamePermutation<T>(s: seq<T>, r: seq<T>)
    requires multiset(s) == multiset(r)
    ensures |s| == |r|
    ensures Elements(s) == Elements(r)
    ensures Distinct(s) <==> Distinct(r)
  {
    assert |s| == |multiset(s)| == |multiset(r)| == |r|;
    forall x ensures x in s <==> x in r {
      assert x in s <==> x in multiset(s);
    }
    DistinctByCount(s);
    DistinctByCount(r);
  }

  /** A distinct list holds each of its elements exactly once. */
  lemma {:induction false} DistinctMultiplicity<T>(s: seq<T>, x: T)
    requires Distinct(s)
    ensures multiset(s)[x] == if x in s then 1 else 0
  {
    if s != [] {
      var rest, last := s[..|s| - 1], s[|s| - 1];
      DistinctMultiplicity(rest, x);
      assert s == rest + [last];
      assert multiset(s) == multiset(rest) + multiset{last};
      assert x in s <==> x in rest || x == last;
    }
  }
}
