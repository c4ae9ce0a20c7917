// The batch grid: how BuildCloudBatch and Start lay clouds out, and the arithmetic behind it.
module Grid {
  import opened Vectors
  import opened Clouds

  /**
   * Clouds along one edge of a batch. Graphics.DrawMeshInstanced draws at most 1024
   * instances per call, and 31 = floor(sqrt(1024)).
   */
  const Side: int := 31

  /** Clouds per batch: Side * Side. */
  const BatchSize: int := 961

  /** The grid side length, in batches, that Start's loops actually produce (none for a negative count). */
  function SideCount(batchesToCreate: int): nat
  {
    if batchesToCreate > 0 then batchesToCreate else 0
  }

  /** A cloud at grid cell (gx, gy), placed origin + (gx * cloudSize, 0, gy * cloudSize) with no rotation. */
  predicate PlacedAt(c: CloudData, gx: int, gy: int, origin: Vec3, cloudSize: real)
  {
    && c.x == gx && c.y == gy
    && c.pos == Vec3(origin.x + gx as real * cloudSize, origin.y, origin.z + gy as real * cloudSize)
    && c.rot == Identity
  }

  /**
   * Batch (batchX, batchY): Side * Side clouds in row-major order of the inner loops (x outer, y inner),
   * the m-th at cell (Side * batchX + m / Side, Side * batchY + m % Side).
   */
  predicate BatchPlaced(b: seq<CloudData>, batchX: int, batchY: int, origin: Vec3, cloudSize: real)
  {
    && |b| == BatchSize
    && forall m :: 0 <= m < |b| ==> PlacedAt(b[m], Side * batchX + m / Side, Side * batchY + m % Side, origin, cloudSize)
  }

  /** The batches one pass of Start's inner loop has built so far: the j-th is batch (batchX, j). */
  predicate RowPlaced(row: seq<seq<CloudData>>, batchX: int, origin: Vec3, cloudSize: real)
  {
    forall j :: 0 <= j < |row| ==> BatchPlaced(row[j], batchX, j, origin, cloudSize)
  }

  /** The row of the k-th batch when n batches make a row, counted by repeated subtraction. */
  function Row(k: nat, n: nat): nat
    requires n > 0
  {
    if k < n then 0 else 1 + Row(k - n, n)
  }

  /** The column of the k-th batch when n batches make a row. */
  function Col(k: nat, n: nat): nat
    requires n > 0
  {
    if k < n then k else Col(k - n, n)
  }

  /** Row and column are the quotient and remainder of k by n. */
  lemma {:induction false} RowCol(k: nat, n: nat)
    requires n > 0
    ensures Row(k, n) == k / n && Col(k, n) == k % n
  {
    if k < n {
      DivModUnique(k, n, 0, k);
    } else {
      RowCol(k - n, n);
      DivModUnique(k, n, Row(k - n, n) + 1, Col(k - n, n));
    }
  }

  /** How many batches x complete rows of n hold, counted row by row. */
  function Rows(x: nat, n: nat): nat
  {
    if x == 0 then 0 else Rows(x - 1, n) + n
  }

  /** x rows of n batches hold x * n batches. */
  lemma {:induction false} RowsIsProduct(x: nat, n: nat)
    ensures Rows(x, n) == x * n
  {
    if x > 0 {
      RowsIsProduct(x - 1, n);
      assert (x - 1) * n + n == x * n;
    }
  }

  /** The batches Start has built so far, n per row: the k-th is batch (Row(k, n), Col(k, n)). */
  predicate GridPrefix(bs: seq<seq<CloudData>>, n: nat, origin: Vec3, cloudSize: real)
  {
    forall k :: 0 <= k < |bs| ==> n > 0 && BatchPlaced(bs[k], Row(k, n), Col(k, n), origin, cloudSize)
  }

  /** Appending batch (batchX, y) after the first y batches of row batchX extends the row. */
  lemma {:induction false} RowExtend(row: seq<seq<CloudData>>, b: seq<CloudData>, batchX: int, y: int, origin: Vec3, cloudSize: real)
    requires RowPlaced(row, batchX, origin, cloudSize) && y == |row|
    requires BatchPlaced(b, batchX, y, origin, cloudSize)
    ensures RowPlaced(row + [b], batchX, origin, cloudSize)
  {
    forall j | 0 <= j < |row + [b]|
      ensures BatchPlaced((row + [b])[j], batchX, j, origin, cloudSize)
    {
      if j < |row| {
        assert (row + [b])[j] == row[j];
      } else {
        assert j == y && (row + [b])[j] == b;
      }
    }
  }

  /** A complete row batchX appended after batchX complete rows extends the grid prefix. */
  lemma {:induction false} GridExtend(done: seq<seq<CloudData>>, row: seq<seq<CloudData>>, n: nat, batchX: int, origin: Vec3, cloudSize: real)
    requires 0 <= batchX && |done| == Rows(batchX, n) && |row| == n
    requires GridPrefix(done, n, origin, cloudSize) && RowPlaced(row, batchX, origin, cloudSize)
    ensures GridPrefix(done + row, n, origin, cloudSize)
  {
    RowsIsProduct(batchX, n);
    forall k | 0 <= k < |done + row|
      ensures n > 0 && BatchPlaced((done + row)[k], Row(k, n), Col(k, n), origin, cloudSize)
    {
      if k < |done| {
        assert (done + row)[k] == done[k];
      } else {
        var j := k - |done|;
        RowCol(k, n);
        DivModUnique(k, n, batchX, j);
        assert Row(k, n) == batchX && Col(k, n) == j;
        assert (done + row)[k] == row[j];
      }
    }
  }

  /** A complete prefix of n * n batches is the whole grid. */
  lemma {:induction false} PrefixIsGrid(bs: seq<seq<CloudData>>, n: nat, origin: Vec3, cloudSize: real)
    requires GridPrefix(bs, n, origin, cloudSize) && |bs| == Rows(n, n)
    ensures GridPlaced(bs, n, origin, cloudSize)
  {
    RowsIsProduct(n, n);
    forall k | 0 <= k < |bs|
      ensures BatchPlaced(bs[k], k / n, k % n, origin, cloudSize)
    {
      RowCol(k, n);
    }
  }

  /** n * n batches in the order of Start's loops (batchX outer, batchY inner): the k-th is batch (k / n, k % n). */
  predicate GridPlaced(bs: seq<seq<CloudData>>, n: nat, origin: Vec3, cloudSize: real)
  {
    && |bs| == n * n
    && forall k :: 0 <= k < |bs| ==> BatchPlaced(bs[k], k / n, k % n, origin, cloudSize)
  }

  /** Euclidean division is determined by the quotient and remainder it must produce. */
  lemma DivModUnique(a: int, d: int, q: int, r: int)
    requires d > 0 && 0 <= r < d && a == q * d + r
    ensures a / d == q && a % d == r
  {
    var q' := a / d;
    var r' := a % d;
    assert (q' - q) * d == r - r';
    MulSign(q' - q, d);
  }

  /** A non-zero multiple of a positive d is at least d away from zero. */
  lemma MulSign(e: int, d: int)
    requires d > 0
    ensures e >= 1 ==> e * d >= d
    ensures e <= -1 ==> e * d <= -d
  {
  }

  /** A quotient of an index below n * n by n is below n. */
  lemma QuotientBound(k: int, n: int)
    requires n > 0 && 0 <= k < n * n
    ensures 0 <= k / n < n && 0 <= k % n < n
  {
    var q := k / n;
    assert k == q * n + k % n;
  }

  /** A pair of indices below n packs into an index below n * n. */
  lemma PackBound(q: int, r: int, n: int)
    requires 0 <= q < n && 0 <= r < n
    ensures 0 <= q * n + r < n * n
  {
    MulSign(n - 1 - q, n);
    MulSign(q, n);
    assert (n - 1 - q) * n == n * n - n - q * n;
  }

  /** Every cloud of a grid of n * n batches has its cell in [0, Side * n) x [0, Side * n). */
  lemma GridBounds(bs: seq<seq<CloudData>>, n: nat, origin: Vec3, cloudSize: real, k: int, m: int)
    requires GridPlaced(bs, n, origin, cloudSize)
    requires 0 <= k < |bs| && 0 <= m < |bs[k]|
    ensures Side * (k / n) <= bs[k][m].x < Side * (k / n) + Side
    ensures Side * (k % n) <= bs[k][m].y < Side * (k % n) + Side
    ensures 0 <= bs[k][m].x < Side * n && 0 <= bs[k][m].y < Side * n
  {
    QuotientBound(k, n);
    assert BatchPlaced(bs[k], k / n, k % n, origin, cloudSize);
  }

  /** Every cell of [0, Side * n) x [0, Side * n) is covered by some cloud of the grid. */
  lemma GridCovers(bs: seq<seq<CloudData>>, n: nat, origin: Vec3, cloudSize: real, gx: int, gy: int)
    requires GridPlaced(bs, n, origin, cloudSize)
    requires 0 <= gx < Side * n && 0 <= gy < Side * n
    ensures exists k, m :: 0 <= k < |bs| && 0 <= m < |bs[k]| && bs[k][m].x == gx && bs[k][m].y == gy
  {
    var batchX, batchY := gx / Side, gy / Side;
    var m := (gx % Side) * Side + gy % Side;
    var k := batchX * n + batchY;
    PackBound(batchX, batchY, n);
    DivModUnique(k, n, batchX, batchY);
    DivModUnique(m, Side, gx % Side, gy % Side);
    assert BatchPlaced(bs[k], batchX, batchY, origin, cloudSize);
    assert bs[k][m].x == gx && bs[k][m].y == gy;
  }

  /** No cell is covered twice: two clouds of the grid at the same cell are the same slot. */
  lemma GridUnique(bs: seq<seq<CloudData>>, n: nat, origin: Vec3, cloudSize: real, k: int, m: int, k': int, m': int)
    requires GridPlaced(bs, n, origin, cloudSize)
    requires 0 <= k < |bs| && 0 <= m < |bs[k]| && 0 <= k' < |bs| && 0 <= m' < |bs[k']|
    requires bs[k][m].x == bs[k'][m'].x && bs[k][m].y == bs[k'][m'].y
    ensures k == k' && m == m'
  {
    assert BatchPlaced(bs[k], k / n, k % n, origin, cloudSize);
    assert BatchPlaced(bs[k'], k' / n, k' % n, origin, cloudSize);
    var gx, gy := bs[k][m].x, bs[k][m].y;
    DivModUnique(gx, Side, k / n, m / Side);
    DivModUnique(gx, Side, k' / n, m' / Side);
    DivModUnique(gy, Side, k % n, m % Side);
    DivModUnique(gy, Side, k' % n, m' % Side);
    assert k == (k / n) * n + k % n;
    assert k' == (k' / n) * n + k' % n;
    assert m == (m / Side) * Side + m % Side;
    assert m' == (m' / Side) * Side + m' % Side;
  }
}
