// The visibility selector: which clouds and batches lie within the activation radius.
module Visibility {
  import opened Vectors
  import opened Clouds

  /** A cloud is in range when its distance to the camera is strictly below maxDist. */
  predicate InRange(c: CloudData, cam: Vec3, dist: (Vec3, Vec3) -> real, maxDist: int)
  {
    dist(c.pos, cam) < maxDist as real
  }

  /** Some cloud of the batch is in range. */
  predicate AnyInRange(batch: seq<CloudData>, cam: Vec3, dist: (Vec3, Vec3) -> real, maxDist: int)
  {
    exists i :: 0 <= i < |batch| && InRange(batch[i], cam, dist, maxDist)
  }

  /** The index of the first in-range cloud of the batch, or |batch| when there is none. */
  function FirstInRange(batch: seq<CloudData>, cam: Vec3, dist: (Vec3, Vec3) -> real, maxDist: int): (k: nat)
    ensures k <= |batch|
    ensures forall i :: 0 <= i < k ==> !InRange(batch[i], cam, dist, maxDist)
    ensures k < |batch| ==> InRange(batch[k], cam, dist, maxDist)
    ensures k < |batch| <==> AnyInRange(batch, cam, dist, maxDist)
  {
    if batch == [] then 0
    else if InRange(batch[0], cam, dist, maxDist) then 0
    else 1 + FirstInRange(batch[1..], cam, dist, maxDist)
  }

  /**
   * How many clouds the short-circuiting scan of a batch visits (and so re-measures):
   * up to and including the first in-range one, or all of them when none is in range.
   */
  function Visited(batch: seq<CloudData>, cam: Vec3, dist: (Vec3, Vec3) -> real, maxDist: int): (n: nat)
    ensures n <= |batch|
  {
    var k := FirstInRange(batch, cam, dist, maxDist);
    if k < |batch| then k + 1 else |batch|
  }

  /**
   * The scan ends on the first in-range cloud when there is one, having passed only clouds out
   * of range, and runs through the whole batch otherwise.
   */
  lemma VisitedStops(batch: seq<CloudData>, cam: Vec3, dist: (Vec3, Vec3) -> real, maxDist: int)
    ensures var n := Visited(batch, cam, dist, maxDist);
      && (forall i :: 0 <= i < n - 1 ==> !InRange(batch[i], cam, dist, maxDist))
      && (AnyInRange(batch, cam, dist, maxDist) ==> 1 <= n && InRange(batch[n - 1], cam, dist, maxDist))
      && (!AnyInRange(batch, cam, dist, maxDist) ==> n == |batch|)
  {
  }

  /** The clouds a scan of each batch of bs re-measures. */
  ghost function ScannedClouds(bs: seq<seq<CloudData>>, cam: Vec3, dist: (Vec3, Vec3) -> real, maxDist: int): set<CloudData>
  {
    if bs == [] then {}
    else
      var last := bs[|bs| - 1];
      ScannedClouds(bs[..|bs| - 1], cam, dist, maxDist) + set c | c in last[..Visited(last, cam, dist, maxDist)]
  }

  /** The batches that have a cloud in range, in their original order. */
  function Filter(bs: seq<seq<CloudData>>, cam: Vec3, dist: (Vec3, Vec3) -> real, maxDist: int): seq<seq<CloudData>>
  {
    if bs == [] then []
    else
      var last := bs[|bs| - 1];
      Filter(bs[..|bs| - 1], cam, dist, maxDist) + (if AnyInRange(last, cam, dist, maxDist) then [last] else [])
  }

  /**
   * The positions in bs of the batches Filter keeps: strictly increasing, exactly the
   * in-range ones, and Filter's result is bs read at these positions.
   */
  function KeptIndices(bs: seq<seq<CloudData>>, cam: Vec3, dist: (Vec3, Vec3) -> real, maxDist: int): (r: seq<nat>)
    ensures forall t :: 0 <= t < |r| ==> r[t] < |bs|
    ensures forall t, u :: 0 <= t < u < |r| ==> r[t] < r[u]
    ensures forall i :: 0 <= i < |bs| ==> (i in r <==> AnyInRange(bs[i], cam, dist, maxDist))
    ensures |r| == |Filter(bs, cam, dist, maxDist)|
    ensures forall t :: 0 <= t < |r| ==> Filter(bs, cam, dist, maxDist)[t] == bs[r[t]]
  {
    if bs == [] then []
    else
      var n := |bs| - 1;
      var r0 := KeptIndices(bs[..n], cam, dist, maxDist);
      var r := r0 + (if AnyInRange(bs[n], cam, dist, maxDist) then [n] else []);
      KeptStepOrder(bs, r0, r, cam, dist, maxDist);
      KeptStepMembers(bs, r0, r, cam, dist, maxDist);
      KeptStepFilter(bs, r0, r, cam, dist, maxDist);
      r
  }

  /** The step of KeptIndices keeps the positions in bounds and strictly increasing. */
  lemma KeptStepOrder(bs: seq<seq<CloudData>>, r0: seq<nat>, r: seq<nat>, cam: Vec3, dist: (Vec3, Vec3) -> real, maxDist: int)
    requires bs != [] && r == r0 + (if AnyInRange(bs[|bs| - 1], cam, dist, maxDist) then [|bs| - 1] else [])
    requires forall t :: 0 <= t < |r0| ==> r0[t] < |bs| - 1
    requires forall t, u :: 0 <= t < u < |r0| ==> r0[t] < r0[u]
    ensures forall t :: 0 <= t < |r| ==> r[t] < |bs|
    ensures forall t, u :: 0 <= t < u < |r| ==> r[t] < r[u]
  {
  }

  /** The step of KeptIndices keeps exactly the in-range positions. */
  lemma KeptStepMembers(bs: seq<seq<CloudData>>, r0: seq<nat>, r: seq<nat>, cam: Vec3, dist: (Vec3, Vec3) -> real, maxDist: int)
    requires bs != [] && r == r0 + (if AnyInRange(bs[|bs| - 1], cam, dist, maxDist) then [|bs| - 1] else [])
    requires forall t :: 0 <= t < |r0| ==> r0[t] < |bs| - 1
    requires forall i :: 0 <= i < |bs| - 1 ==> (i in r0 <==> AnyInRange(bs[..|bs| - 1][i], cam, dist, maxDist))
    ensures forall i :: 0 <= i < |bs| ==> (i in r <==> AnyInRange(bs[i], cam, dist, maxDist))
  {
    forall i | 0 <= i < |bs|
      ensures i in r <==> AnyInRange(bs[i], cam, dist, maxDist)
    {
      if i < |bs| - 1 {
        assert bs[..|bs| - 1][i] == bs[i];
        assert i in r <==> i in r0;
      }
    }
  }

  /** The step of KeptIndices reads Filter's result off bs at its positions. */
  lemma KeptStepFilter(bs: seq<seq<CloudData>>, r0: seq<nat>, r: seq<nat>, cam: Vec3, dist: (Vec3, Vec3) -> real, maxDist: int)
    requires bs != [] && r == r0 + (if AnyInRange(bs[|bs| - 1], cam, dist, maxDist) then [|bs| - 1] else [])
    requires forall t :: 0 <= t < |r0| ==> r0[t] < |bs| - 1
    requires |r0| == |Filter(bs[..|bs| - 1], cam, dist, maxDist)|
    requires forall t :: 0 <= t < |r0| ==> Filter(bs[..|bs| - 1], cam, dist, maxDist)[t] == bs[..|bs| - 1][r0[t]]
    ensures |r| == |Filter(bs, cam, dist, maxDist)|
    ensures forall t :: 0 <= t < |r| ==> Filter(bs, cam, dist, maxDist)[t] == bs[r[t]]
  {
    var n := |bs| - 1;
    var f0 := Filter(bs[..n], cam, dist, maxDist);
    assert Filter(bs, cam, dist, maxDist) == f0 + (if AnyInRange(bs[n], cam, dist, maxDist) then [bs[n]] else []);
    forall t | 0 <= t < |r|
      ensures Filter(bs, cam, dist, maxDist)[t] == bs[r[t]]
    {
      if t < |r0| {
        assert bs[..n][r0[t]] == bs[r0[t]];
      }
    }
  }

  /** A batch is in Filter's result exactly when it is one of bs that has a cloud in range. */
  lemma FilterMembers(bs: seq<seq<CloudData>>, cam: Vec3, dist: (Vec3, Vec3) -> real, maxDist: int, b: seq<CloudData>)
    ensures b in Filter(bs, cam, dist, maxDist) <==> b in bs && AnyInRange(b, cam, dist, maxDist)
  {
    var f := Filter(bs, cam, dist, maxDist);
    var r := KeptIndices(bs, cam, dist, maxDist);
    if b in f {
      var t :| 0 <= t < |f| && f[t] == b;
      assert bs[r[t]] == b;
    }
    if b in bs && AnyInRange(b, cam, dist, maxDist) {
      var i :| 0 <= i < |bs| && bs[i] == b;
      assert i in r;
      var t :| 0 <= t < |r| && r[t] == i;
      assert f[t] == b;
    }
  }

  /** Filtering a concatenation filters each part in turn: the result keeps the batch order. */
  lemma {:induction false} FilterAppend(a: seq<seq<CloudData>>, b: seq<seq<CloudData>>, cam: Vec3, dist: (Vec3, Vec3) -> real, maxDist: int)
    ensures Filter(a + b, cam, dist, maxDist) == Filter(a, cam, dist, maxDist) + Filter(b, cam, dist, maxDist)
  {
    if b == [] {
      assert a + b == a;
    } else {
      var n := |b| - 1;
      assert (a + b)[..|a + b| - 1] == a + b[..n];
      FilterAppend(a, b[..n], cam, dist, maxDist);
    }
  }

  /** A list that grew by the filtered batches of done and then of row holds the filtered batches of all == done + row. */
  lemma {:induction false} FilterExtend(before: seq<seq<CloudData>>, mid: seq<seq<CloudData>>, after: seq<seq<CloudData>>,
                     done: seq<seq<CloudData>>, row: seq<seq<CloudData>>, all: seq<seq<CloudData>>,
                     cam: Vec3, dist: (Vec3, Vec3) -> real, maxDist: int)
    requires mid == before + Filter(done, cam, dist, maxDist)
    requires after == mid + Filter(row, cam, dist, maxDist)
    requires all == done + row
    ensures after == before + Filter(all, cam, dist, maxDist)
  {
    FilterAppend(done, row, cam, dist, maxDist);
    var fd, fr := Filter(done, cam, dist, maxDist), Filter(row, cam, dist, maxDist);
    assert after == before + fd + fr;
    assert before + fd + fr == before + (fd + fr);
  }

  /** The set of clouds held by a sequence of batches. */
  ghost function CloudsOf(bs: seq<seq<CloudData>>): set<CloudData>
  {
    set i, j | 0 <= i < |bs| && 0 <= j < |bs[i]| :: bs[i][j]
  }

  /** No cloud occurs twice, neither within a batch nor across batches. */
  ghost predicate Disjoint(bs: seq<seq<CloudData>>)
  {
    forall i, j, k, l ::
      0 <= i < |bs| && 0 <= j < |bs| && 0 <= k < |bs[i]| && 0 <= l < |bs[j]| && bs[i][k] == bs[j][l]
      ==> i == j && k == l
  }

  /** Filtering keeps the clouds of different batches apart. */
  lemma FilterKeepsDisjoint(bs: seq<seq<CloudData>>, cam: Vec3, dist: (Vec3, Vec3) -> real, maxDist: int)
    requires Disjoint(bs)
    ensures Disjoint(Filter(bs, cam, dist, maxDist))
  {
    var f := Filter(bs, cam, dist, maxDist);
    var r := KeptIndices(bs, cam, dist, maxDist);
    forall t, u, k, l |
      0 <= t < |f| && 0 <= u < |f| && 0 <= k < |f[t]| && 0 <= l < |f[u]| && f[t][k] == f[u][l]
      ensures t == u && k == l
    {
      assert bs[r[t]][k] == bs[r[u]][l];
    }
  }

  /** The clouds of a sub-collection of batches are among those of the whole collection. */
  lemma CloudsOfSubset(sub: seq<seq<CloudData>>, bs: seq<seq<CloudData>>)
    requires forall b :: b in sub ==> b in bs
    ensures CloudsOf(sub) <= CloudsOf(bs)
  {
    forall c | c in CloudsOf(sub)
      ensures c in CloudsOf(bs)
    {
      var i, j :| 0 <= i < |sub| && 0 <= j < |sub[i]| && sub[i][j] == c;
      assert sub[i] in bs;
      var i' :| 0 <= i' < |bs| && bs[i'] == sub[i];
      assert bs[i'][j] == c;
    }
  }

  /** A cloud of a batch without repetitions does not occur before its own position. */
  lemma NotInPrefix(b: seq<CloudData>, v: int, m: int)
    requires forall i, j :: 0 <= i < j < |b| ==> b[i] != b[j]
    requires 0 <= v <= m < |b|
    ensures b[m] !in b[..v]
  {
  }

  /** Appending a batch of new clouds, distinct among themselves and from every old one, keeps clouds apart. */
  lemma DisjointAppend(bs: seq<seq<CloudData>>, b: seq<CloudData>)
    requires Disjoint(bs)
    requires forall k, l :: 0 <= k < l < |b| ==> b[k] != b[l]
    requires forall i, j, k :: 0 <= i < |bs| && 0 <= j < |bs[i]| && 0 <= k < |b| ==> bs[i][j] != b[k]
    ensures Disjoint(bs + [b])
  {
    var bs' := bs + [b];
    forall i, j, k, l |
      0 <= i < |bs'| && 0 <= j < |bs'| && 0 <= k < |bs'[i]| && 0 <= l < |bs'[j]| && bs'[i][k] == bs'[j][l]
      ensures i == j && k == l
    {
      if i < |bs| && j < |bs| {
        assert bs[i][k] == bs[j][l];
      } else if i == |bs| && j == |bs| {
        assert b[k] == b[l];
      }
    }
  }
}
