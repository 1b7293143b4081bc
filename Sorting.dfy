/**
 * The ascending sort `np.quantile` applies to a channel before interpolating, as an
 * insertion sort on sequences of integers.
 */
module Sorting {
  predicate SortedAsc(s: seq<int>) {
    forall i, j :: 0 <= i < j < |s| ==> s[i] <= s[j]
  }

  /** `x` placed before the first element of `s` that is not below it. */
  function Insert(x: int, s: seq<int>): (r: seq<int>)
    ensures |r| == |s| + 1
  {
    if s == [] then [x]
    else if x <= s[0] then [x] + s
    else [s[0]] + Insert(x, s[1..])
  }

  /** Inserting into an ascending sequence keeps it ascending; the head is the smaller of `x` and the old head. */
  lemma {:induction false} InsertSorted(x: int, s: seq<int>)
    requires SortedAsc(s)
    ensures SortedAsc(Insert(x, s))
    ensures |s| > 0 ==> Insert(x, s)[0] == (if x <= s[0] then x else s[0])
  {
    if s != [] && x > s[0] {
      var rest := Insert(x, s[1..]);
      assert SortedAsc(s[1..]) by {
        forall i, j | 0 <= i < j < |s[1..]| ensures s[1..][i] <= s[1..][j] {
          assert s[1..][i] == s[i + 1] && s[1..][j] == s[j + 1];
        }
      }
      InsertSorted(x, s[1..]);
      assert s[0] <= rest[0];
      var r := [s[0]] + rest;
      forall i, j | 0 <= i < j < |r| ensures r[i] <= r[j] {
        if i == 0 {
          assert r[j] == rest[j - 1];
        } else {
          assert r[i] == rest[i - 1] && r[j] == rest[j - 1];
        }
      }
    }
  }

  /** Inserting adds exactly one occurrence of `x`. */
  lemma {:induction false} InsertPerm(x: int, s: seq<int>)
    ensures multiset(Insert(x, s)) == multiset(s) + multiset{x}
  {
    if s != [] && x > s[0] {
      InsertPerm(x, s[1..]);
      assert s == [s[0]] + s[1..];
    }
  }

  /** The ascending rearrangement of `s`. */
  function Sort(s: seq<int>): (r: seq<int>)
    ensures |r| == |s|
  {
    if s == [] then [] else Insert(s[0], Sort(s[1..]))
  }

  /** `Sort` returns an ascending sequence. */
  lemma {:induction false} SortSorted(s: seq<int>)
    ensures SortedAsc(Sort(s))
  {
    if s != [] {
      SortSorted(s[1..]);
      InsertSorted(s[0], Sort(s[1..]));
    }
  }

  /** `Sort` returns a permutation of its input. */
  lemma {:induction false} SortPerm(s: seq<int>)
    ensures multiset(Sort(s)) == multiset(s)
  {
    if s != [] {
      SortPerm(s[1..]);
      InsertPerm(s[0], Sort(s[1..]));
      assert s == [s[0]] + s[1..];
    }
  }

  lemma SortSpec(s: seq<int>)
    ensures SortedAsc(Sort(s)) && multiset(Sort(s)) == multiset(s)
  {
    SortSorted(s);
    SortPerm(s);
  }

  /** The first element of the sorted sequence is the least one, the last the greatest. */
  lemma SortEnds(s: seq<int>)
    requires |s| > 0
    ensures Sort(s)[0] in s && Sort(s)[|s| - 1] in s
    ensures forall k :: 0 <= k < |s| ==> Sort(s)[0] <= s[k] <= Sort(s)[|s| - 1]
  {
    SortSpec(s);
    var r := Sort(s);
    assert r[0] in multiset(r) && r[|r| - 1] in multiset(r);
    forall k | 0 <= k < |s| ensures r[0] <= s[k] <= r[|s| - 1] {
      assert s[k] in multiset(s);
      var j :| 0 <= j < |r| && r[j] == s[k];
    }
  }

  function MinOf(s: seq<int>): (m: int)
    requires |s| > 0
    ensures m in s && forall k :: 0 <= k < |s| ==> m <= s[k]
  {
    if |s| == 1 then s[0]
    else
      var rest := MinOf(s[1..]);
      assert forall k :: 1 <= k < |s| ==> s[k] == s[1..][k - 1];
      if s[0] <= rest then s[0] else rest
  }

  function MaxOf(s: seq<int>): (m: int)
    requires |s| > 0
    ensures m in s && forall k :: 0 <= k < |s| ==> s[k] <= m
  {
    if |s| == 1 then s[0]
    else
      var rest := MaxOf(s[1..]);
      assert forall k :: 1 <= k < |s| ==> s[k] == s[1..][k - 1];
      if s[0] >= rest then s[0] else rest
  }

  /** The ends of the sorted sequence are the least and the greatest element. */
  lemma SortEndsAreMinMax(s: seq<int>)
    requires |s| > 0
    ensures Sort(s)[0] == MinOf(s) && Sort(s)[|s| - 1] == MaxOf(s)
  {
    SortEnds(s);
    var r := Sort(s);
    assert MinOf(s) in multiset(s) && MaxOf(s) in multiset(s);
    var i :| 0 <= i < |r| && r[i] == MinOf(s);
    var j :| 0 <= j < |r| && r[j] == MaxOf(s);
  }
}
