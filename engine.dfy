// The GenerateClouds component: batch builder, visibility selector, animation pass and frame driver.
module Engine {
  import opened Vectors
  import opened Config
  import opened Animation
  import opened Clouds
  import opened Visibility
  import opened Grid

  class GenerateClouds {
    /** The inspector parameters. */
    const cfg: Settings
    /** Vector3.Distance. */
    const dist: (Vec3, Vec3) -> real
    /** Mathf.PerlinNoise. */
    const noise: (real, real) -> real

    var prevCamPos: Vec3
    var offsetX: real
    var offsetY: real
    var batches: seq<seq<CloudData>>
    var batchesToUpdate: seq<seq<CloudData>>

    /**
     * Every cloud sits in one slot of one batch, and the active list holds batches of the
     * batch list, each at most once.
     */
    ghost predicate Valid()
      reads this
    {
      && Disjoint(batches)
      && Disjoint(batchesToUpdate)
      && forall b :: b in batchesToUpdate ==> b in batches
    }

    /** Every cloud the component owns. */
    ghost function AllClouds(): set<CloudData>
      reads this
    {
      CloudsOf(batches)
    }

    /** The clouds of the batches on the active list. */
    ghost function ActiveClouds(): set<CloudData>
      reads this
    {
      CloudsOf(batchesToUpdate)
    }

    /** The noise value UpdateBatches samples for cloud c under the given offsets. */
    function NoiseAt(c: CloudData, offX: real, offY: real): real
    {
      noise(c.x as real * cfg.texScale + offX, c.y as real * cfg.texScale + offY)
    }

    /** The distance AddCloud caches: measured from the raw grid point (x, origin.y, y), not from pos. */
    function InitialDist(c: CloudData, origin: Vec3, cam: Vec3): real
    {
      dist(Vec3(c.x as real, origin.y, c.y as real), cam)
    }

    /** The component as Unity creates it, before Start: field initialisers, empty lists. */
    constructor (cfg: Settings, dist: (Vec3, Vec3) -> real, noise: (real, real) -> real)
      ensures this.cfg == cfg && this.dist == dist && this.noise == noise
      ensures prevCamPos == Zero && offsetX == 1.0 && offsetY == 1.0
      ensures batches == [] && batchesToUpdate == []
      ensures Valid()
    {
      this.cfg := cfg;
      this.dist := dist;
      this.noise := noise;
      prevCamPos := Zero;
      offsetX := 1.0;
      offsetY := 1.0;
      batches := [];
      batchesToUpdate := [];
    }

    /**
     * Builds the grid: SideCount(batchesToCreate)^2 batches appended in loop order, laid out
     * as GridPlaced describes, each new cloud fresh, with scale zero, active, and its cached
     * distance as the build-time scan left it; the in-range new batches join the active list in order.
     */
    method Start(origin: Vec3, cam: Vec3) returns (ghost added: seq<seq<CloudData>>)
      requires Valid()
      modifies this`batches, this`batchesToUpdate
      ensures Valid()
      ensures batches == old(batches) + added
      ensures GridPlaced(added, SideCount(cfg.batchesToCreate), origin, cfg.cloudSize)
      ensures batchesToUpdate == old(batchesToUpdate) + Filter(added, cam, dist, cfg.maxDist)
      ensures forall k :: 0 <= k < |added| ==>
        JustBuilt(added[k], origin, cam) && forall m :: 0 <= m < |added[k]| ==> fresh(added[k][m])
    {
      var n := SideCount(cfg.batchesToCreate);
      // the batches built so far, in build order
      added := [];
      var batchesX := 0;
      while batchesX < cfg.batchesToCreate
        invariant 0 <= batchesX <= n
        invariant Valid()
        invariant batches == old(batches) + added && |added| == Rows(batchesX, n)
        invariant GridPrefix(added, n, origin, cfg.cloudSize)
        invariant batchesToUpdate == old(batchesToUpdate) + Filter(added, cam, dist, cfg.maxDist)
        invariant forall k :: 0 <= k < |added| ==>
          JustBuilt(added[k], origin, cam) && forall m :: 0 <= m < |added[k]| ==> fresh(added[k][m])
      {
        ghost var prevUpdate := batchesToUpdate;
        ghost var row := BuildBatchRow(batchesX, origin, cam);
        GridExtend(added, row, n, batchesX, origin, cfg.cloudSize);
        FilterExtend(old(batchesToUpdate), prevUpdate, batchesToUpdate, added, row, added + row, cam, dist, cfg.maxDist);
        assert old(batches) + added + row == old(batches) + (added + row);
        added := added + row;
        batchesX := batchesX + 1;
      }
      PrefixIsGrid(added, n, origin, cfg.cloudSize);
    }

    /**
     * One pass of Start's inner loop: appends row, the batches (batchesX, 0) .. (batchesX, n - 1)
     * in order, with the same guarantees Start gives for the whole grid.
     */
    method BuildBatchRow(batchesX: int, origin: Vec3, cam: Vec3) returns (ghost row: seq<seq<CloudData>>)
      requires Valid()
      modifies this`batches, this`batchesToUpdate
      ensures Valid()
      ensures batches == old(batches) + row && |row| == SideCount(cfg.batchesToCreate)
      ensures RowPlaced(row, batchesX, origin, cfg.cloudSize)
      ensures batchesToUpdate == old(batchesToUpdate) + Filter(row, cam, dist, cfg.maxDist)
      ensures forall k :: 0 <= k < |row| ==>
        JustBuilt(row[k], origin, cam) && forall m :: 0 <= m < |row[k]| ==> fresh(row[k][m])
    {
      row := [];
      var batchesY := 0;
      while batchesY < cfg.batchesToCreate
        invariant 0 <= batchesY <= SideCount(cfg.batchesToCreate)
        invariant Valid()
        invariant batches == old(batches) + row && |row| == batchesY
        invariant RowPlaced(row, batchesX, origin, cfg.cloudSize)
        invariant batchesToUpdate == old(batchesToUpdate) + Filter(row, cam, dist, cfg.maxDist)
        invariant forall k :: 0 <= k < |row| ==>
          JustBuilt(row[k], origin, cam) && forall m :: 0 <= m < |row[k]| ==> fresh(row[k][m])
      {
        ghost var prevUpdate := batchesToUpdate;
        BuildCloudBatch(batchesX, batchesY, origin, cam);
        ghost var last := batches[|batches| - 1];
        assert Filter([last], cam, dist, cfg.maxDist) == if AnyInRange(last, cam, dist, cfg.maxDist) then [last] else [];
        FilterExtend(old(batchesToUpdate), prevUpdate, batchesToUpdate, row, [last], row + [last], cam, dist, cfg.maxDist);
        RowExtend(row, last, batchesX, batchesY, origin, cfg.cloudSize);
        assert old(batches) + row + [last] == old(batches) + (row + [last]);
        row := row + [last];
        batchesY := batchesY + 1;
      }
    }

    /** Every cloud of b as BuildCloudBatch leaves it: scale zero, active, distance cached per BuiltDist. */
    predicate JustBuilt(b: seq<CloudData>, origin: Vec3, cam: Vec3)
      reads b
    {
      forall m :: 0 <= m < |b| ==>
        b[m].scale == Zero && b[m].active && b[m].distFromCam == BuiltDist(b, m, origin, cam)
    }

    /** The distance a freshly built batch leaves cached in its m-th cloud. */
    function BuiltDist(b: seq<CloudData>, m: int, origin: Vec3, cam: Vec3): real
      requires 0 <= m < |b|
    {
      if m < Visited(b, cam, dist, cfg.maxDist) then dist(b[m].pos, cam) else InitialDist(b[m], origin, cam)
    }

    /**
     * Builds batch (xLoop, yLoop) of fresh clouds and appends it to the batch list, and to the
     * active list exactly when one of its clouds is in range.
     */
    method BuildCloudBatch(xLoop: int, yLoop: int, origin: Vec3, cam: Vec3)
      requires Valid()
      modifies this`batches, this`batchesToUpdate
      ensures Valid()
      ensures |batches| == |old(batches)| + 1 && batches == old(batches) + [batches[|batches| - 1]]
      ensures BatchPlaced(batches[|batches| - 1], xLoop, yLoop, origin, cfg.cloudSize)
      ensures var b := batches[|batches| - 1];
        batchesToUpdate == old(batchesToUpdate) + (if AnyInRange(b, cam, dist, cfg.maxDist) then [b] else [])
      ensures var b := batches[|batches| - 1];
        (forall m :: 0 <= m < |b| ==> fresh(b[m])) && JustBuilt(b, origin, cam)
    {
      var currBatch := BuildCells(xLoop, yLoop, origin, cam);
      var markBatch := CheckForActiveBatch(currBatch, cam);
      ghost var v := Visited(currBatch, cam, dist, cfg.maxDist);
      forall m | v <= m < |currBatch|
        ensures currBatch[m].distFromCam == InitialDist(currBatch[m], origin, cam)
      {
        NotInPrefix(currBatch, v, m);
      }
      assert forall i, j, k :: 0 <= i < |batches| && 0 <= j < |batches[i]| && 0 <= k < |currBatch| ==>
        batches[i][j] != currBatch[k];
      DisjointAppend(batches, currBatch);
      batches := batches + [currBatch];
      if markBatch {
        DisjointAppend(batchesToUpdate, currBatch);
        batchesToUpdate := batchesToUpdate + [currBatch];
      }
    }

    /**
     * The nested loops of BuildCloudBatch: Side * Side fresh, pairwise distinct clouds for
     * batch (xLoop, yLoop), in row-major order, each with scale zero, active, and the
     * distance AddCloud caches.
     */
    method BuildCells(xLoop: int, yLoop: int, origin: Vec3, cam: Vec3) returns (currBatch: seq<CloudData>)
      ensures BatchPlaced(currBatch, xLoop, yLoop, origin, cfg.cloudSize)
      ensures forall m :: 0 <= m < |currBatch| ==>
        && fresh(currBatch[m])
        && currBatch[m].scale == Zero && currBatch[m].active
        && currBatch[m].distFromCam == InitialDist(currBatch[m], origin, cam)
      ensures forall i, j :: 0 <= i < j < |currBatch| ==> currBatch[i] != currBatch[j]
    {
      currBatch := [];
      var x := 0;
      while x < Side
        invariant 0 <= x <= Side
        invariant |currBatch| == x * Side
        invariant forall m :: 0 <= m < |currBatch| ==>
          && fresh(currBatch[m])
          && PlacedAt(currBatch[m], Side * xLoop + m / Side, Side * yLoop + m % Side, origin, cfg.cloudSize)
          && currBatch[m].scale == Zero && currBatch[m].active
          && currBatch[m].distFromCam == InitialDist(currBatch[m], origin, cam)
        invariant forall i, j :: 0 <= i < j < |currBatch| ==> currBatch[i] != currBatch[j]
      {
        var y := 0;
        while y < Side
          invariant 0 <= y <= Side
          invariant |currBatch| == x * Side + y
          invariant forall m :: 0 <= m < |currBatch| ==>
            && fresh(currBatch[m])
            && PlacedAt(currBatch[m], Side * xLoop + m / Side, Side * yLoop + m % Side, origin, cfg.cloudSize)
            && currBatch[m].scale == Zero && currBatch[m].active
            && currBatch[m].distFromCam == InitialDist(currBatch[m], origin, cam)
          invariant forall i, j :: 0 <= i < j < |currBatch| ==> currBatch[i] != currBatch[j]
        {
          DivModUnique(x * Side + y, Side, x, y);
          currBatch := AddCloud(currBatch, x + xLoop * Side, y + yLoop * Side, origin, cam);
          y := y + 1;
        }
        x := x + 1;
      }
    }

    /**
     * Re-measures the clouds of the batch in order, stopping right after the first one in range.
     * The result says whether some cloud is in range; the visited clouds now cache their true
     * distance, and every other cloud's cached distance and every other field are unchanged.
     */
    method CheckForActiveBatch(batch: seq<CloudData>, cam: Vec3) returns (found: bool)
      modifies batch`distFromCam
      ensures found == AnyInRange(batch, cam, dist, cfg.maxDist)
      ensures forall c :: c in batch ==>
        c.distFromCam == if c in batch[..Visited(batch, cam, dist, cfg.maxDist)] then dist(c.pos, cam) else old(c.distFromCam)
    {
      var i := 0;
      while i < |batch|
        invariant 0 <= i <= |batch|
        invariant forall j :: 0 <= j < i ==> !InRange(batch[j], cam, dist, cfg.maxDist)
        invariant forall c :: c in batch ==>
          c.distFromCam == if c in batch[..i] then dist(c.pos, cam) else old(c.distFromCam)
      {
        var cloud := batch[i];
        cloud.distFromCam := dist(cloud.pos, cam);
        assert batch[..i + 1] == batch[..i] + [cloud];
        if cloud.distFromCam < cfg.maxDist as real {
          assert FirstInRange(batch, cam, dist, cfg.maxDist) == i;
          return true;
        }
        i := i + 1;
      }
      assert batch[..i] == batch;
      return false;
    }

    /** Returns currBatch with one fresh cloud for grid cell (x, y) appended: scale zero, active. */
    method AddCloud(currBatch: seq<CloudData>, x: int, y: int, origin: Vec3, cam: Vec3) returns (next: seq<CloudData>)
      ensures |next| == |currBatch| + 1 && next[..|currBatch|] == currBatch
      ensures fresh(next[|currBatch|])
      ensures PlacedAt(next[|currBatch|], x, y, origin, cfg.cloudSize)
      ensures next[|currBatch|].scale == Zero && next[|currBatch|].active
      ensures next[|currBatch|].distFromCam == InitialDist(next[|currBatch|], origin, cam)
    {
      var position := Vec3(origin.x + x as real * cfg.cloudSize, origin.y, origin.z + y as real * cfg.cloudSize);
      var disToCam := dist(Vec3(x as real, origin.y, y as real), cam);
      var cloud := new CloudData(position, Zero, Identity, x, y, disToCam);
      next := currBatch + [cloud];
    }

    /**
     * Rebuilds the active list from scratch: afterwards it is exactly the in-range batches of
     * the batch list, in order; the clouds the scans visited cache their true distance and every
     * other cloud keeps its cached distance.
     */
    method UpdateBatchList(cam: Vec3)
      requires Valid()
      modifies this`batchesToUpdate, AllClouds()`distFromCam
      ensures Valid()
      ensures batchesToUpdate == Filter(batches, cam, dist, cfg.maxDist)
      ensures forall c :: c in AllClouds() ==>
        c.distFromCam == if c in ScannedClouds(batches, cam, dist, cfg.maxDist) then dist(c.pos, cam) else old(c.distFromCam)
    {
      batchesToUpdate := [];
      var i := 0;
      while i < |batches|
        invariant 0 <= i <= |batches|
        invariant batchesToUpdate == Filter(batches[..i], cam, dist, cfg.maxDist)
        invariant forall c :: c in AllClouds() ==>
          c.distFromCam ==
            if c in ScannedClouds(batches[..i], cam, dist, cfg.maxDist) then dist(c.pos, cam) else old(c.distFromCam)
      {
        var batch := batches[i];
        assert forall m :: 0 <= m < |batch| ==> batch[m] in AllClouds();
        var hit := CheckForActiveBatch(batch, cam);
        assert batches[..i + 1][..i] == batches[..i];
        if hit {
          batchesToUpdate := batchesToUpdate + [batch];
        }
        i := i + 1;
      }
      assert batches[..i] == batches;
      FilterKeepsDisjoint(batches, cam, dist, cfg.maxDist);
      forall b | b in batchesToUpdate
        ensures b in batches
      {
        FilterMembers(batches, cam, dist, cfg.maxDist, b);
      }
    }

    /** Runs one animation frame on every cloud of the active list, and on nothing else. */
    method UpdateBatches(dt: real)
      requires Valid()
      modifies ActiveClouds()`scale, ActiveClouds()`active
      ensures forall k, m :: 0 <= k < |batchesToUpdate| && 0 <= m < |batchesToUpdate[k]| ==>
        var c := batchesToUpdate[k][m];
        c.State() == AnimStep(old(c.State()), NoiseAt(c, offsetX, offsetY), cfg, dt)
    {
      var i := 0;
      while i < |batchesToUpdate|
        invariant 0 <= i <= |batchesToUpdate|
        invariant forall k, m :: 0 <= k < i && 0 <= m < |batchesToUpdate[k]| ==>
          batchesToUpdate[k][m].State() ==
            AnimStep(old(batchesToUpdate[k][m].State()), NoiseAt(batchesToUpdate[k][m], offsetX, offsetY), cfg, dt)
        invariant forall k, m :: i <= k < |batchesToUpdate| && 0 <= m < |batchesToUpdate[k]| ==>
          batchesToUpdate[k][m].State() == old(batchesToUpdate[k][m].State())
      {
        var batch := batchesToUpdate[i];
        var j := 0;
        while j < |batch|
          invariant 0 <= j <= |batch|
          invariant forall k, m :: 0 <= k < i && 0 <= m < |batchesToUpdate[k]| ==>
            batchesToUpdate[k][m].State() ==
              AnimStep(old(batchesToUpdate[k][m].State()), NoiseAt(batchesToUpdate[k][m], offsetX, offsetY), cfg, dt)
          invariant forall m :: 0 <= m < j ==>
            batch[m].State() == AnimStep(old(batch[m].State()), NoiseAt(batch[m], offsetX, offsetY), cfg, dt)
          invariant forall m :: j <= m < |batch| ==> batch[m].State() == old(batch[m].State())
          invariant forall k, m :: i < k < |batchesToUpdate| && 0 <= m < |batchesToUpdate[k]| ==>
            batchesToUpdate[k][m].State() == old(batchesToUpdate[k][m].State())
        {
          assert batch[j] in ActiveClouds();
          UpdateCloud(batch[j], dt);
          j := j + 1;
        }
        i := i + 1;
      }
    }

    /** The body of UpdateBatches' inner loop: one frame of AnimStep for one cloud. */
    method UpdateCloud(cloud: CloudData, dt: real)
      modifies cloud`scale, cloud`active
      ensures cloud.State() == AnimStep(old(cloud.State()), NoiseAt(cloud, offsetX, offsetY), cfg, dt)
    {
      var size := NoiseAt(cloud, offsetX, offsetY);
      if size > cfg.minNoiseSize {
        var localScaleX := cloud.scale.x;
        if !cloud.IsActive() {
          cloud.SetActive(true);
          cloud.scale := Zero;
        }
        if localScaleX < cfg.maxScale {
          ScaleCloud(cloud, 1, dt);
          if cloud.scale.x > cfg.maxScale {
            cloud.scale := Uniform(cfg.maxScale);
          }
        }
      } else if size < cfg.minNoiseSize {
        var localScaleX := cloud.scale.x;
        ScaleCloud(cloud, -1, dt);
        if localScaleX <= SnapThreshold {
          cloud.SetActive(false);
          cloud.scale := Zero;
        }
      }
    }

    /** Adds sizeScale * dt * direction to every axis of the cloud's scale. */
    method ScaleCloud(cloud: CloudData, direction: int, dt: real)
      modifies cloud`scale
      ensures cloud.scale == Add(old(cloud.scale), Uniform(ScaleStep(cfg, dt, direction)))
    {
      var d := ScaleStep(cfg, dt, direction);
      cloud.scale := Add(cloud.scale, Vec3(d, d, d));
    }

    /**
     * One frame before the offsets advance: the active list is rebuilt exactly when the camera
     * moved since the last frame, then the clouds of the active list are animated and no other
     * cloud's state changes; prevCamPos ends up equal to the camera position.
     */
    method MakeNoise(cam: Vec3, dt: real)
      requires Valid()
      modifies this`prevCamPos, this`batchesToUpdate
      modifies AllClouds()`distFromCam, AllClouds()`scale, AllClouds()`active
      ensures Valid()
      ensures prevCamPos == cam
      ensures batchesToUpdate ==
        if old(prevCamPos) == cam then old(batchesToUpdate) else Filter(batches, cam, dist, cfg.maxDist)
      ensures forall k, m :: 0 <= k < |batches| && 0 <= m < |batches[k]| ==>
        var c := batches[k][m];
        c.State() == if c in ActiveClouds() then AnimStep(old(c.State()), NoiseAt(c, offsetX, offsetY), cfg, dt) else old(c.State())
      ensures forall c :: c in AllClouds() ==>
        c.distFromCam ==
          if old(prevCamPos) != cam && c in ScannedClouds(batches, cam, dist, cfg.maxDist) then dist(c.pos, cam)
          else old(c.distFromCam)
    {
      if cam == prevCamPos {
        CloudsOfSubset(batchesToUpdate, batches);
        UpdateBatches(dt);
      } else {
        prevCamPos := cam;
        UpdateBatchList(cam);
        CloudsOfSubset(batchesToUpdate, batches);
        UpdateBatches(dt);
      }
      // RenderBatches only reads the active list; it is not part of this model.
      prevCamPos := cam;
    }

    /**
     * The per-frame entry point: MakeNoise with the current offsets, then both offsets advance
     * by dt * timeScale.
     */
    method Update(cam: Vec3, dt: real)
      requires Valid()
      modifies this`prevCamPos, this`batchesToUpdate, this`offsetX, this`offsetY
      modifies AllClouds()`distFromCam, AllClouds()`scale, AllClouds()`active
      ensures Valid()
      ensures prevCamPos == cam
      ensures batchesToUpdate ==
        if old(prevCamPos) == cam then old(batchesToUpdate) else Filter(batches, cam, dist, cfg.maxDist)
      ensures forall k, m :: 0 <= k < |batches| && 0 <= m < |batches[k]| ==>
        var c := batches[k][m];
        c.State() == if c in ActiveClouds() then AnimStep(old(c.State()), NoiseAt(c, old(offsetX), old(offsetY)), cfg, dt) else old(c.State())
      ensures forall c :: c in AllClouds() ==>
        c.distFromCam ==
          if old(prevCamPos) != cam && c in ScannedClouds(batches, cam, dist, cfg.maxDist) then dist(c.pos, cam)
          else old(c.distFromCam)
      ensures offsetX == old(offsetX) + dt * cfg.timeScale
      ensures offsetY == old(offsetY) + dt * cfg.timeScale
    {
      MakeNoise(cam, dt);
      offsetX := offsetX + dt * cfg.timeScale;
      offsetY := offsetY + dt * cfg.timeScale;
    }
  }
}
