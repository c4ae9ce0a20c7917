# Cloud batching and animation, modelled in Dafny

The system is a Unity component, `GenerateClouds`. It fills a square grid with cloud billboards
and animates them. `CloudData` is one cloud: its position, rotation and grid cell, its scale, its
active flag and a cached distance to the camera.

`Start` builds `batchesToCreate × batchesToCreate` batches. Each batch is 31 × 31 clouds, so one
batch fits a single instanced draw call of at most 1024 instances. Every new cloud starts at scale
zero and active. Batches that have a cloud within `maxDist` of the camera join the active list,
`batchesToUpdate`.

Every frame, `Update` calls `MakeNoise`:

- If the camera moved since the last frame, the active list is rebuilt: every batch is re-scanned,
  and each scan stops at the first in-range cloud.
- Then every cloud of the active list samples a Perlin-noise value at its cell, shifted by a
  time-varying offset.
- Above the threshold `minNoiseSize` the cloud is activated and grows towards `maxScale`. Strictly
  below it, the cloud shrinks. It is snapped to zero and deactivated once its pre-shrink scale is at
  most 0.1.
- Finally both offsets advance by `deltaTime * timeScale`.

## How the model is organised

| file | module | contents |
|---|---|---|
| `vectors.dfy` | `Vectors` | `Vector3` and `Quaternion` as real-valued datatypes |
| `vectors.dfy` | `Config` | the inspector tunables as one immutable `Settings` value |
| `cloud_data.dfy` | `Clouds` | the `CloudData` class |
| `animation.dfy` | `Animation` | one frame of the per-cloud state machine, as the pure function `AnimStep`, with its invariant, timing and scenario lemmas |
| `visibility.dfy` | `Visibility` | the range test, the short-circuit scan (`FirstInRange`, `Visited`), and the active-list specification `Filter` with its order and membership lemmas |
| `grid.dfy` | `Grid` | where the build loops put each batch and cloud, with coverage and uniqueness lemmas |
| `engine.dfy` | `Engine` | the `GenerateClouds` class; its methods keep the source's loops and in-place updates, and are proved against the functions above |

Parameters stand in for what the component reads from Unity:

- `Vector3.Distance` and `Mathf.PerlinNoise` are arbitrary functions supplied to the constructor.
  Every property holds for all such functions.
- The camera position, `transform.position` (named `origin` here) and `Time.deltaTime` (named `dt`)
  are method parameters.

`BuildBatchRow` is the inner loop of `Start`, and `BuildCells` is the pair of nested loops of
`BuildCloudBatch`. Each is its own method so that each proof stays small. `UpdateCloud` is the body
of the inner loop of `UpdateBatches`. `Start` and `BuildBatchRow` return, as a ghost out-parameter,
the batches they appended, so that their contracts can name them.

Points where the code is easy to misread; the model follows the code:

- A cloud shrinks only when the noise value is strictly below `minNoiseSize`. A value equal to the
  threshold leaves the cloud unchanged (`AnimStep`, first ensures).
- The scale is not kept non-negative. A shrink frame can leave the scale below zero
  (`ShrinkCanGoNegative`). It stays negative until a later shrink frame snaps it to zero or grow
  frames lift it back above zero (`NegativeSurvivesGrow`); under noise exactly at the threshold it
  stays negative for good (`ThresholdHolds`).
- The snap test uses the scale from before the shrink step.
- The distance `AddCloud` caches is measured from the raw grid point `(x, origin.y, y)`, not from
  the cloud's position. The build-time scan in `BuildCloudBatch` then overwrites it for the clouds
  it visits (`JustBuilt`, `BuiltDist`).
- `prevCamPos` starts at `Vector3.zero`, so the first frame rebuilds the active list unless the
  camera sits at the origin.

## Model

| member | source | states |
|---|---|---|
| Clouds.CloudData.constructor | Assets/Scripts/GenerateClouds.cs:34-43 | every argument is stored and the new cloud is active |
| Clouds.CloudData.IsActive | Assets/Scripts/GenerateClouds.cs:14-20 | the read-only view of the active flag; SetActive is the only method that writes the flag |
| Clouds.CloudData.SetActive | Assets/Scripts/GenerateClouds.cs:45-48 | the active flag becomes `state`; nothing else of the cloud changes |
| Animation.AnimStep | Assets/Scripts/GenerateClouds.cs:163-198 | a noise value equal to the threshold changes nothing; above it the cloud ends up active: it is unchanged if already active at or over maxScale, an inactive cloud is reset to zero, and below maxScale the x scale becomes min(base + sizeScale·dt, maxScale) with base zero for an inactive cloud; strictly below it the cloud snaps to (zero, inactive) when its pre-shrink scale is ≤ 0.1 and otherwise loses one step on every axis with its flag kept; a uniform scale stays uniform |
| Animation.InitialCloudInv | Assets/Scripts/GenerateClouds.cs:126 | a freshly built cloud (scale zero, active) satisfies the cloud invariant (uniform scale, at most maxScale, zero when inactive) |
| Animation.StepPreservesInv | Assets/Scripts/GenerateClouds.cs:163-198 | for a non-negative step, every animation frame preserves the cloud invariant |
| Animation.GrowNeverOvershoots | Assets/Scripts/GenerateClouds.cs:175-183 | a grow step from below maxScale never leaves the scale above maxScale |
| Animation.GrowOnce | Assets/Scripts/GenerateClouds.cs:163-184 | a grow frame from a uniform scale v of an active cloud or one at zero, with v plus one step within maxScale, gives exactly v + sizeScale·dt on every axis and an active cloud |
| Animation.GrowClamped | Assets/Scripts/GenerateClouds.cs:175-183 | a grow frame of an active or zero-scale cloud whose scale v is below maxScale but reaches it within one step ends exactly at (maxScale on every axis, active) |
| Animation.ShrinkOnce | Assets/Scripts/GenerateClouds.cs:187-197 | a shrink frame from a uniform scale above 0.1 takes off exactly one step on every axis and keeps the active flag |
| Animation.GrowRamp | Assets/Scripts/GenerateClouds.cs:163-184 | from scale zero, with noise held above the threshold, n frames that stay within maxScale reach the uniform scale n·step, and the cloud is active |
| Animation.GrowTiming | Assets/Scripts/GenerateClouds.cs:175-183 | with noise held above the threshold, the cloud reaches exactly (maxScale, active) in the first frame n whose n steps reach maxScale, that is n = ceil(maxScale / step), and is below maxScale in every earlier frame |
| Animation.GrowHolds | Assets/Scripts/GenerateClouds.cs:175 | an active cloud at maxScale stays unchanged while its noise stays above the threshold |
| Animation.ShrinkRamp | Assets/Scripts/GenerateClouds.cs:187-197 | with noise held below the threshold, frames whose pre-shrink scale stays above 0.1 subtract one step each and keep the active flag |
| Animation.ShrinkTiming | Assets/Scripts/GenerateClouds.cs:187-197 | with noise held below the threshold, the cloud becomes (zero, inactive) exactly in the first frame whose pre-shrink scale is ≤ 0.1, and keeps its flag in every earlier frame |
| Animation.ShrinkCanGoNegative | Assets/Scripts/GenerateClouds.cs:189-193 | with the default settings, an active cloud at scale 0.2 shrinking for 1 s is left with a negative scale |
| Animation.NegativeSurvivesGrow | Assets/Scripts/GenerateClouds.cs:175-193 | with the default settings, a 1 s shrink frame takes an active cloud at 0.11 to -0.14, and a following 0.1 s grow frame under noise 0.9 leaves it active at -0.115: grow starts from the negative scale and nothing snaps it |
| Animation.ThresholdHolds | Assets/Scripts/GenerateClouds.cs:163-187 | with the noise held exactly at minNoiseSize, any cloud, including one with a negative scale, stays unchanged in every frame |
| Animation.ScenarioGrow | Assets/Scripts/GenerateClouds.cs:163-184 | with the default settings, a fresh cloud under noise 0.9 and a 0.1 s frame becomes active with scale 0.025 on every axis |
| Animation.ScenarioShrink | Assets/Scripts/GenerateClouds.cs:187-197 | with the default settings, an active cloud at scale 0.05 under noise 0.1 becomes (zero, inactive) |
| Visibility.FirstInRange | Assets/Scripts/GenerateClouds.cs:108-111 | the scan's stopping index: no earlier cloud is in range, the cloud there is in range, and it is inside the batch if and only if some cloud of the batch is in range |
| Visibility.Visited | Assets/Scripts/GenerateClouds.cs:108-113 | how many clouds the scan re-measures before it returns, never more than the batch holds |
| Visibility.VisitedStops | Assets/Scripts/GenerateClouds.cs:108-113 | the scan passes only out-of-range clouds; when some cloud is in range it stops on the first one, otherwise it runs through the whole batch |
| Visibility.Filter | Assets/Scripts/GenerateClouds.cs:213-222 | the active list the rebuild produces: the batches that have a cloud in range, appended in batch order; its order and membership are stated by KeptIndices and FilterMembers |
| Visibility.KeptIndices | Assets/Scripts/GenerateClouds.cs:216-222 | the batches kept by the active-list rebuild sit at strictly increasing positions of the batch list; a position is kept if and only if its batch has a cloud in range; the kept list is exactly those batches in that order |
| Visibility.FilterMembers | Assets/Scripts/GenerateClouds.cs:216-222 | a batch is on the rebuilt active list if and only if it is a batch of the batch list with a cloud in range |
| Visibility.FilterAppend | Assets/Scripts/GenerateClouds.cs:99-100 | filtering two lists of batches one after the other equals filtering the concatenation |
| Visibility.FilterExtend | Assets/Scripts/GenerateClouds.cs:75-81 | an active list extended by the filtered batches of one more stretch of the build stays the filter of everything built |
| Visibility.FilterKeepsDisjoint | Assets/Scripts/GenerateClouds.cs:213-222 | the rebuilt active list holds each cloud in one slot only, as the batch list does |
| Visibility.DisjointAppend | Assets/Scripts/GenerateClouds.cs:99-100 | appending a batch of new pairwise-distinct clouds keeps every cloud in one slot |
| Grid.RowExtend | Assets/Scripts/GenerateClouds.cs:77-79 | appending batch (batchX, y) as the y-th batch of a row keeps the row laid out |
| Grid.GridExtend | Assets/Scripts/GenerateClouds.cs:75-81 | appending a complete row batchX after batchX complete rows keeps the k-th batch at (row k, column k) |
| Grid.PrefixIsGrid | Assets/Scripts/GenerateClouds.cs:75-81 | n complete rows of n batches form the grid: the k-th batch is batch (k / n, k % n) and there are n·n batches |
| Grid.GridBounds | Assets/Scripts/GenerateClouds.cs:90-94 | every cloud of batch k lies in that batch's 31 × 31 block of cells, inside [0, 31n) × [0, 31n) |
| Grid.GridCovers | Assets/Scripts/GenerateClouds.cs:75-96 | every cell of [0, 31n) × [0, 31n) is held by some cloud of the grid |
| Grid.GridUnique | Assets/Scripts/GenerateClouds.cs:75-96 | no cell is held twice: two clouds at the same cell are the same slot of the same batch |
| Engine.GenerateClouds.constructor | Assets/Scripts/GenerateClouds.cs:67-71 | the component starts with prevCamPos zero, both offsets 1, and empty batch and active lists |
| Engine.GenerateClouds.Start | Assets/Scripts/GenerateClouds.cs:73-82 | the batch list becomes the old list followed by the added batches, which are exactly the grid of SideCount(batchesToCreate)² batches in loop order; the added in-range batches are appended to the active list in order; every added cloud is fresh, has scale zero, is active, and caches its distance as the build-time scan left it |
| Engine.GenerateClouds.BuildBatchRow | Assets/Scripts/GenerateClouds.cs:77-80 | one pass of the inner loop appends batches (batchesX, 0 … n-1) in order, made of fresh clouds at scale zero and active, and appends the in-range ones to the active list |
| Engine.GenerateClouds.BuildCloudBatch | Assets/Scripts/GenerateClouds.cs:85-101 | appends exactly one batch, laid out at (xLoop, yLoop), made of fresh clouds; it joins the active list if and only if one of its clouds is in range |
| Engine.GenerateClouds.BuildCells | Assets/Scripts/GenerateClouds.cs:90-96 | 961 fresh, pairwise distinct clouds in row-major order of the block (xLoop, yLoop), each at scale zero, active, with the distance AddCloud caches |
| Engine.GenerateClouds.InitialDist | Assets/Scripts/GenerateClouds.cs:124 | the distance AddCloud caches: from the raw grid point (x, origin.y, y) to the camera, not from the cloud's position |
| Engine.GenerateClouds.NoiseAt | Assets/Scripts/GenerateClouds.cs:159-160 | the noise sample of a cloud: the noise function at (x·texScale + offsetX, y·texScale + offsetY) |
| Engine.GenerateClouds.CheckForActiveBatch | Assets/Scripts/GenerateClouds.cs:106-114 | returns true if and only if some cloud is in range; exactly the clouds up to and including the first hit are re-measured; every other cached distance is unchanged |
| Engine.GenerateClouds.AddCloud | Assets/Scripts/GenerateClouds.cs:116-127 | appends one fresh cloud at cell (x, y), positioned origin + (x·cloudSize, 0, y·cloudSize), with no rotation, scale zero, active, and the distance from (x, origin.y, y) to the camera |
| Engine.GenerateClouds.UpdateBatchList | Assets/Scripts/GenerateClouds.cs:210-224 | the active list becomes exactly the in-range batches of the batch list, in order; the clouds the scans visit cache their true distance and all others keep theirs |
| Engine.GenerateClouds.UpdateBatches | Assets/Scripts/GenerateClouds.cs:152-201 | every cloud of the active list takes one AnimStep under its own noise value; only the clouds of the active list may change |
| Engine.GenerateClouds.UpdateCloud | Assets/Scripts/GenerateClouds.cs:156-199 | one cloud's scale and flag become AnimStep of its old state under NoiseAt(cloud, offsetX, offsetY) |
| Engine.GenerateClouds.ScaleCloud | Assets/Scripts/GenerateClouds.cs:204-207 | adds sizeScale·dt·direction to every axis of the scale |
| Engine.GenerateClouds.MakeNoise | Assets/Scripts/GenerateClouds.cs:136-150 | the active list is rebuilt if and only if the camera moved; clouds on the (possibly rebuilt) active list are animated and all others are unchanged; cached distances change only through the rebuild; prevCamPos ends equal to the camera |
| Engine.GenerateClouds.Update | Assets/Scripts/GenerateClouds.cs:129-134 | MakeNoise samples the offsets from before the frame, and then both offsets advance by dt·timeScale |

## Left out

- RenderBatches, Graphics.DrawMeshInstanced and CloudData.matrix (Matrix4x4.TRS) are not modelled. They only read the active list and draw it. For the same reason the fields cloudMesh and cloudMat are not modelled.
- Mathf.PerlinNoise and Vector3.Distance are not defined. They are arbitrary function parameters, so nothing depends on the noise staying in [0, 1] or on distances being Euclidean.
- The camera, the component's transform and Time.deltaTime are method parameters. Unity calls Start once and Update once per frame; the model does not schedule the calls.
- Floats are modelled as exact reals. This leaves out rounding, including the float-to-double comparison against 0.1 in the snap test.
- Unity's Vector3 `==` treats vectors within about 1e-5 of each other as equal. MakeNoise here compares camera positions exactly.
- Grid coordinates are unbounded integers. The 32-bit wrap-around of `x + xLoop * 31` for very large batchesToCreate is not modelled.
- Lists are modelled as values: `batches` and `batchesToUpdate` are sequences of sequences of cloud references. Because the inner lists are never changed after they are built, sharing them between the two lists loses nothing observable.
- AddCloud: returns the extended sequence instead of appending to the List in place.
- UpdateBatchList: the List.Clear at its start is modelled as assigning the empty sequence.
- Clouds.CloudData: pos, rot, x and y are constants. The source leaves them public and writable, but nothing assigns them after construction.
- Animation.StepPreservesInv: the invariant bounds the scale from above only. A shrink frame can leave the scale below zero, and it stays there until a later shrink frame snaps it to zero or grow frames lift it (see ShrinkCanGoNegative and NegativeSurvivesGrow), so no lower bound is claimed.
