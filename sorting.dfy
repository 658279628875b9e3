/** PHP usort with a user comparator, as a stable insertion sort: each element
    is placed after every earlier element that does not compare above it. */
module Sorting {

  /** Inserts x after the last element of s that does not compare above it. */
  function InsertSorted<T>(s: seq<T>, x: T, cmp: (T, T) -> int): (r: seq<T>)
    ensures |r| == |s| + 1
    decreases |s|
  {
    if s == [] || cmp(s[|s| - 1], x) <= 0 then s + [x]
    else InsertSorted(s[..|s| - 1], x, cmp) + [s[|s| - 1]]
  }

  /** The sorted order usort produces. */
  function SortedBy<T>(s: seq<T>, cmp: (T, T) -> int): (r: seq<T>)
    ensures |r| == |s|
    decreases |s|
  {
    if s == [] then [] else InsertSorted(SortedBy(s[..|s| - 1], cmp), s[|s| - 1], cmp)
  }

  /** The comparator never says both "a after b" and "b after a". */
  ghost predicate Connex<T(!new)>(cmp: (T, T) -> int) {
    forall a, b :: cmp(a, b) > 0 ==> cmp(b, a) <= 0
  }

  predicate AdjacentSorted<T>(s: seq<T>, cmp: (T, T) -> int) {
    forall i :: 0 <= i < |s| - 1 ==> cmp(s[i], s[i + 1]) <= 0
  }

  /** usort: insertion sort, scanning each new element leftwards past the
      elements that compare above it. */
  method Usort<T>(s: seq<T>, cmp: (T, T) -> int) returns (r: seq<T>)
    ensures r == SortedBy(s, cmp)
    ensures multiset(r) == multiset(s)
  {
    r := [];
    for i := 0 to |s|
      invariant r == SortedBy(s[..i], cmp)
    {
      var x := s[i];
      var j := |r|;
      while j > 0 && cmp(r[j - 1], x) > 0
        invariant 0 <= j <= |r|
        invariant forall k :: j <= k < |r| ==> cmp(r[k], x) > 0
      {
        j := j - 1;
      }
      InsertAt(r, x, cmp, j);
      assert s[..i + 1][..i] == s[..i];
      r := r[..j] + [x] + r[j..];
    }
    assert s[..|s|] == s;
    SortedByPermutes(s, cmp);
  }

  /** Insertion lands just after the last element that does not compare
      above x. */
  lemma {:induction false} InsertAt<T>(s: seq<T>, x: T, cmp: (T, T) -> int, j: nat)
    requires j <= |s|
    requires forall k :: j <= k < |s| ==> cmp(s[k], x) > 0
    requires j > 0 ==> cmp(s[j - 1], x) <= 0
    ensures InsertSorted(s, x, cmp) == s[..j] + [x] + s[j..]
    decreases |s|
  {
    if j < |s| {
      var init := s[..|s| - 1];
      InsertAt(init, x, cmp, j);
      assert init[..j] == s[..j];
      assert init[j..] + [s[|s| - 1]] == s[j..];
    } else {
      assert s[..j] == s && s[j..] == [];
    }
  }

  lemma {:induction false} InsertPermutes<T>(s: seq<T>, x: T, cmp: (T, T) -> int)
    ensures multiset(InsertSorted(s, x, cmp)) == multiset(s) + multiset{x}
    decreases |s|
  {
    if s != [] && cmp(s[|s| - 1], x) > 0 {
      InsertPermutes(s[..|s| - 1], x, cmp);
      assert s == s[..|s| - 1] + [s[|s| - 1]];
    }
  }

  /** Sorting only reorders. */
  lemma {:induction false} SortedByPermutes<T>(s: seq<T>, cmp: (T, T) -> int)
    ensures multiset(SortedBy(s, cmp)) == multiset(s)
    decreases |s|
  {
    if s != [] {
      SortedByPermutes(s[..|s| - 1], cmp);
      InsertPermutes(SortedBy(s[..|s| - 1], cmp), s[|s| - 1], cmp);
      assert s == s[..|s| - 1] + [s[|s| - 1]];
    }
  }

  /** Inserting into a sorted sequence keeps it sorted. */
  lemma {:induction false} InsertKeepsSorted<T(!new)>(s: seq<T>, x: T, cmp: (T, T) -> int)
    requires Connex(cmp)
    requires AdjacentSorted(s, cmp)
    ensures AdjacentSorted(InsertSorted(s, x, cmp), cmp)
    ensures |InsertSorted(s, x, cmp)| == |s| + 1
    ensures InsertSorted(s, x, cmp)[|s|] == x || InsertSorted(s, x, cmp)[|s|] == s[|s| - 1]
    decreases |s|
  {
    if s != [] && cmp(s[|s| - 1], x) > 0 {
      var init := s[..|s| - 1];
      var last := s[|s| - 1];
      InsertKeepsSorted(init, x, cmp);
      var t := InsertSorted(init, x, cmp);
      assert t[|init|] == x || t[|init|] == init[|init| - 1];
      assert cmp(x, last) <= 0;
      if |init| > 0 {
        assert cmp(init[|init| - 1], last) <= 0;
      }
      var u := t + [last];
      forall i | 0 <= i < |u| - 1
        ensures cmp(u[i], u[i + 1]) <= 0
      {
        if i < |t| - 1 {
          assert u[i] == t[i] && u[i + 1] == t[i + 1];
        }
      }
    }
  }

  /** With a comparator that never reports "a after b" together with "b
      after a", the result is sorted. */
  lemma {:induction false} SortedBySorts<T(!new)>(s: seq<T>, cmp: (T, T) -> int)
    requires Connex(cmp)
    ensures AdjacentSorted(SortedBy(s, cmp), cmp)
    ensures |SortedBy(s, cmp)| == |s|
    decreases |s|
  {
    if s != [] {
      SortedBySorts(s[..|s| - 1], cmp);
      InsertKeepsSorted(SortedBy(s[..|s| - 1], cmp), s[|s| - 1], cmp);
    }
  }

  /** A comparator that calls every pair equal leaves the order unchanged. */
  lemma {:induction false} AllEqualKeepsOrder<T>(s: seq<T>, cmp: (T, T) -> int)
    requires forall i, j :: 0 <= i < |s| && 0 <= j < |s| ==> cmp(s[i], s[j]) == 0
    ensures SortedBy(s, cmp) == s
    decreases |s|
  {
    if s != [] {
      var init := s[..|s| - 1];
      assert forall i, j :: 0 <= i < |init| && 0 <= j < |init| ==> cmp(init[i], init[j]) == 0 by {
        forall i, j | 0 <= i < |init| && 0 <= j < |init| ensures cmp(init[i], init[j]) == 0 {
          assert init[i] == s[i] && init[j] == s[j];
        }
      }
      AllEqualKeepsOrder(init, cmp);
      if init != [] {
        assert cmp(init[|init| - 1], s[|s| - 1]) == 0;
      }
      assert init + [s[|s| - 1]] == s;
    }
  }
}
