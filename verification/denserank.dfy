// DenseRankMap (sumi/dense_rank_map.cc): renumbering the ranks that are left
// when some have failed.
module DenseRanks {

  datatype Found = Rank(rank: int) | FailedProcess

  ghost predicate Ascending(s: seq<int>) { forall i, j :: 0 <= i < j < |s| ==> s[i] < s[j] }

  // How many failed ranks are below x: what the renumbering has to subtract.
  function Smaller(s: seq<int>, x: int): (n: nat)
    ensures n <= |s|
  {
    if s == [] then 0 else Smaller(s[..|s| - 1], x) + (if s[|s| - 1] < x then 1 else 0)
  }

  lemma {:induction false} SmallerIs(s: seq<int>, x: int, i: nat)
    requires Ascending(s) && i <= |s| && (i > 0 ==> s[i - 1] < x) && (i < |s| ==> x <= s[i])
    ensures Smaller(s, x) == i
    decreases |s|
  {
    if s != [] {
      var t := s[..|s| - 1];
      if i == |s| {
        if i > 1 { assert t[i - 2] < s[i - 1]; }
        SmallerIs(t, x, i - 1);
      } else {
        assert x <= s[i] <= s[|s| - 1];
        SmallerIs(t, x, if i < |t| then i else |t|);
      }
    }
  }

  lemma {:induction false} NoneSmaller(s: seq<int>, x: int)
    requires forall i :: 0 <= i < |s| ==> x <= s[i]
    ensures Smaller(s, x) == 0
    decreases |s|
  {
    if s != [] { NoneSmaller(s[..|s| - 1], x); }
  }

  lemma {:induction false} AllSmaller(s: seq<int>, x: int)
    requires forall i :: 0 <= i < |s| ==> s[i] < x
    ensures Smaller(s, x) == |s|
    decreases |s|
  {
    if s != [] { AllSmaller(s[..|s| - 1], x); }
  }

  // treeFindRank on the `num` failed ranks from index lo on, with `offset` of
  // them lying before.
  function TreeFindRank(sparse: int, offset: int, num: nat, failed: seq<int>, lo: nat): Found
    requires num >= 1 && lo + num <= |failed|
    decreases num
  {
    if num == 1 then
      if sparse > failed[lo] then Rank(sparse - (offset + 1))
      else if sparse < failed[lo] then Rank(sparse - offset)
      else FailedProcess
    else
      var middle := num / 2;
      if sparse < failed[lo + middle] then TreeFindRank(sparse, offset, middle, failed, lo)
      else if sparse > failed[lo + middle] then TreeFindRank(sparse, offset + middle, num - middle, failed, lo + middle)
      else FailedProcess
  }

  // The binary search fails exactly on failed ranks, and otherwise subtracts
  // the number of smaller ones.
  lemma {:induction false} TreeFindIs(sparse: int, num: nat, failed: seq<int>, lo: nat)
    requires Ascending(failed) && num >= 1 && lo + num <= |failed|
    requires forall i :: 0 <= i < lo ==> failed[i] < sparse
    requires forall i :: lo + num <= i < |failed| ==> sparse < failed[i]
    ensures TreeFindRank(sparse, lo, num, failed, lo)
            == if sparse in failed then FailedProcess else Rank(sparse - Smaller(failed, sparse))
    decreases num
  {
    hide Smaller;
    if num == 1 {
      if sparse > failed[lo] { SmallerIs(failed, sparse, lo + 1); }
      if sparse < failed[lo] { SmallerIs(failed, sparse, lo); }
    } else {
      var middle := num / 2;
      if sparse < failed[lo + middle] {
        TreeFindIs(sparse, middle, failed, lo);
      } else if sparse > failed[lo + middle] {
        TreeFindIs(sparse, num - middle, failed, lo + middle);
      }
    }
  }

  // The map as the object it is; tree_cutoff is 4.
  class DenseRankMap {
    const failedRanks: array<int>

    constructor (failedRanks: array<int>)
      ensures this.failedRanks == failedRanks
    {
      this.failedRanks := failedRanks;
    }

    // init leaves the failed ranks in ascending order.
    ghost predicate Valid()
      reads failedRanks
    {
      Ascending(failedRanks[..])
    }

    // linearFindRank: right on live ranks; on a failed one it counts that too.
    method LinearFindRank(sparse: int) returns (rank: int)
      requires Valid()
      ensures rank == sparse - Smaller(failedRanks[..], sparse) - (if sparse in failedRanks[..] then 1 else 0)
    {
      for i := 0 to failedRanks.Length
        invariant forall j :: 0 <= j < i ==> failedRanks[j] <= sparse
      {
        if sparse < failedRanks[i] {
          CountUpTo(failedRanks[..], sparse, i);
          return sparse - i;
        }
      }
      CountUpTo(failedRanks[..], sparse, failedRanks.Length);
      return sparse - failedRanks.Length;
    }

    // denseRank; up to four failures the linear search numbers a failed rank too.
    method DenseRank(sparse: int) returns (found: Found)
      requires Valid()
      ensures sparse !in failedRanks[..] ==> found == Rank(Dense(failedRanks[..], sparse))
      ensures sparse in failedRanks[..] && failedRanks.Length <= 4 ==> found == Rank(Dense(failedRanks[..], sparse) - 1)
      ensures sparse in failedRanks[..] && failedRanks.Length > 4 ==> found == FailedProcess
    {
      if failedRanks.Length == 0 {
        return Rank(sparse);
      } else if failedRanks.Length <= 4 {
        var rank := LinearFindRank(sparse);
        return Rank(rank);
      } else {
        TreeFindIs(sparse, failedRanks.Length, failedRanks[..], 0);
        return TreeFindRank(sparse, 0, failedRanks.Length, failedRanks[..], 0);
      }
    }

    // sparseRank: the live rank with the given dense number.
    method SparseRank(dense: int) returns (rank: int)
      requires Valid()
      ensures rank !in failedRanks[..] && Dense(failedRanks[..], rank) == dense && rank >= dense
    {
      rank := dense;
      for i := 0 to failedRanks.Length
        invariant rank == dense + i && forall j :: 0 <= j < i ==> failedRanks[j] < rank
      {
        if rank >= failedRanks[i] {
          rank := rank + 1;
        } else {
          SmallerIs(failedRanks[..], rank, i);
          return rank;
        }
      }
      SmallerIs(failedRanks[..], rank, failedRanks.Length);
    }
  }

  lemma CountUpTo(s: seq<int>, x: int, i: nat)
    requires Ascending(s) && i <= |s| && (forall j :: 0 <= j < i ==> s[j] <= x) && (i < |s| ==> x < s[i])
    ensures i == Smaller(s, x) + (if x in s then 1 else 0)
  {
    forall j | 0 <= j < |s| && j != i - 1 ensures s[j] != x {
      if j < i { assert s[j] < s[i - 1] <= x; } else { assert x < s[i] <= s[j]; }
    }
    if x in s {
      SmallerIs(s, x, i - 1);
    } else {
      SmallerIs(s, x, i);
    }
  }

  // The dense number of a live rank.
  function Dense(failed: seq<int>, rank: int): int { rank - Smaller(failed, rank) }

  lemma {:induction false} SmallerSteps(s: seq<int>, x: int, y: int)
    requires Ascending(s) && x <= y
    ensures Smaller(s, x) <= Smaller(s, y) <= Smaller(s, x) + (y - x)
    ensures x < y && x !in s ==> Smaller(s, y) < Smaller(s, x) + (y - x)
    decreases y - x
  {
    if x < y {
      SmallerSteps(s, x, y - 1);
      StepOne(s, y - 1);
    }
  }

  lemma {:induction false} StepOne(s: seq<int>, x: int)
    requires Ascending(s)
    ensures Smaller(s, x + 1) == Smaller(s, x) + (if x in s then 1 else 0)
    decreases |s|
  {
    if s != [] {
      var t := s[..|s| - 1];
      StepOne(t, x);
      assert s == t + [s[|s| - 1]];
      if s[|s| - 1] == x { assert x !in t; }
    }
  }

  // Live ranks are renumbered in order, without repetition.
  lemma DenseGrows(failed: seq<int>, x: int, y: int)
    requires Ascending(failed) && x < y && x !in failed
    ensures Dense(failed, x) < Dense(failed, y)
  {
    SmallerSteps(failed, x, y);
  }

  // The live ranks of [0, n) correspond to the dense numbers [0, n - #failed):
  // a live rank is in range exactly if its dense number is.
  lemma DenseRange(failed: seq<int>, n: nat, x: int)
    requires Ascending(failed) && (forall i :: 0 <= i < |failed| ==> 0 <= failed[i] < n) && x !in failed
    ensures 0 <= x < n <==> 0 <= Dense(failed, x) < n - |failed|
  {
    AllSmaller(failed, n);
    NoneSmaller(failed, -1);
    if x < n { DenseGrows(failed, x, n); } else if x > n { DenseGrows(failed, n, x); }
    if x > -1 { DenseGrows(failed, -1, x); } else if x < -1 { DenseGrows(failed, x, -1); }
  }

  // denseRank and sparseRank undo each other: the rank sparseRank returns is
  // the only live one with the given dense number.
  lemma SparseIsInverse(failed: seq<int>, x: int, y: int)
    requires Ascending(failed) && x !in failed && y !in failed
    ensures Dense(failed, x) == Dense(failed, y) <==> x == y
  {
    if x < y { DenseGrows(failed, x, y); } else if y < x { DenseGrows(failed, y, x); }
  }
}
