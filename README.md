# angra2 chunk streaming — a Dafny model

angra2 is a Unity marching-cubes terrain. Its chunk-streaming core keeps a
square of terrain chunks around the viewer. Each chunk is a column of three
vertically stacked mesh slices. The model covers the following parts:

- **Synchronous streamer** (`MonoLODTerrainGenerating`). When the viewer has
  moved past a threshold, it:
  - evicts the chunks beyond the view distance into recycle queues, together
    with the water plane paired with each chunk;
  - scans the window of chunk cells around the viewer;
  - fills each empty cell inside the view distance, recycling a chunk when the
    queue has one;
  - re-meshes each present chunk whose detail step (LOD) changed.
- **Asynchronous streamer** (`AsyncTerrainGeneration`). It does the same
  bookkeeping, but a cell must also pass a frustum test. A chunk only queues
  its three slices. One slice at a time goes to the GPU, behind a single
  render slot, through a vertex read-back and then a triangle read-back.
  When the density lookup for a slice throws, the frame ends there and the
  slot stays taken.
- **Chunk of the asynchronous streamer** (`Legacy/Chunk.cs`):
  - slice queueing;
  - the staged GPU handshake;
  - mesh building;
  - the asset-placement gate.
- **Density generator** (`DensityGenerator`):
  - biome selection by region;
  - octave buffers;
  - the seeded octave offsets;
  - the kernel dispatch.
- **Map manager** (`MapManager`):
  - the grid constants;
  - material selection;
  - the 3D texture shape;
  - the two density entry points.
- **Asset placer** (`Legacy/AssetPlacer.cs`):
  - random downward rays, filtered by noise and by slope;
  - a bounded instance pool that recycles its oldest instance.

Dafny modules follow the files: `MonoLodTerrain`, `AsyncTerrain`,
`LegacyChunk`, `DensityGenerator`, `MapManager` and `AssetPlacer`. Three
shared modules sit beside them:

- `ChunkGrid`: chunk ids, distances, the scan window and the detail table;
- `Mathf`: Unity's rounding helpers on exact reals;
- `Collections`: the list and queue operations on sequences.

Objects whose fields the source updates are classes. These are the streamers,
the chunks of the asynchronous streamer, the render slot, the asset pool and
its instances, and the placer. The synchronous streamer's private nested
`Chunk` is a value in an object table (`pool`), addressed by index. The
engine services are function parameters: the frustum test, the
marching-cubes kernel's counts, the white-noise hash, Unity's random stream,
Perlin noise and the ray cast.

The two streamers promise the following, proved for every update
(`Streamed`):

- every cell strictly inside the view distance has a chunk (for the
  asynchronous streamer: every such cell that passes the frustum test);
- every present cell inside the view distance is at the step its distance
  selects (and, asynchronously, places assets exactly in the finest tier);
- no chunk lies beyond the view distance.

Beside that, the bookkeeping invariant is kept:

- the dictionary indexes exactly the live chunks;
- every chunk object is live or queued, and only once;
- each water is paired with the chunk at the same index;
- each live chunk's meshes are those of its current cell and step;
- the render slot is taken exactly while a read-back is awaited.

## Model

| member | source | states |
|---|---|---|
| Mathf.FloorToInt | Scripts/MarchingCubes/DensityGenerator.cs:83-84 | the result is the greatest integer not above the argument |
| Mathf.CeilToInt | Scripts/MarchingCubes/MonoLODTerrainGenerating.cs:40 | the result is the least integer not below the argument |
| Mathf.RoundToInt | Scripts/MarchingCubes/MonoLODTerrainGenerating.cs:79-80 | the result is within one half of the argument, and a tie goes to the even neighbour |
| Mathf.Clamp | Scripts/MarchingCubes/DensityGenerator.cs:89 | the result lies in [lo, hi], and a value already inside is returned unchanged |
| Mathf.CeilDiv | Scripts/MarchingCubes/DensityGenerator.cs:74 | q·b ≥ a > (q−1)·b, so q is the integer ceiling of a / b |
| ChunkGrid.SqrDistanceFromCenter | Scripts/MarchingCubes/AsyncTerrainGeneration.cs:152-157 | the result is non-negative, and is the squared planar distance from the viewer to the chunk's corner plus half a chunk |
| ChunkGrid.NearChunkInWindow | Scripts/MarchingCubes/MonoLODTerrainGenerating.cs:79-83 | every chunk whose centre is strictly inside the view radius lies in the window of half-width ceil(maxView / size) around the viewer's rounded cell |
| ChunkGrid.SqrDistances | Scripts/MarchingCubes/MonoLODTerrainGenerating.cs:43-45 | one squared distance per detail level, entry by entry |
| ChunkGrid.Tier | Scripts/MarchingCubes/MonoLODTerrainGenerating.cs:139-148 | the index is in the table; every earlier entry's squared distance is ≤ d; and the index is the last, or its squared distance exceeds d |
| ChunkGrid.TierUnique | Scripts/MarchingCubes/MonoLODTerrainGenerating.cs:139-148 | the first-match rule determines the tier: index i is the tier iff all earlier entries are ≤ d and i is last or exceeds d |
| ChunkGrid.TierMonotone | Scripts/MarchingCubes/MonoLODTerrainGenerating.cs:139-148 | a greater distance never selects an earlier tier |
| ChunkGrid.SelectLodMonotone | Scripts/MarchingCubes/MonoLODTerrainGenerating.cs:139-148 | when the steps grow along the table, the selected step never decreases with distance |
| ChunkGrid.SqrDistancesAscend | Scripts/MarchingCubes/MonoLODTerrainGenerating.cs:43-45 | ascending distances give strictly ascending squared distances |
| ChunkGrid.DetailTableScenario | Scripts/MarchingCubes/MonoLODTerrainGenerating.cs:139-148 | with table [(1,50),(2,100)], squared distance 30² selects step 1 and 80² step 2, and 150² lies past the view radius |
| Collections.RemoveAt | Scripts/MarchingCubes/MonoLODTerrainGenerating.cs:72 | the result is one shorter and has the same multiset minus the removed element |
| Collections.RemoveAtIndex | Scripts/MarchingCubes/MonoLODTerrainGenerating.cs:72 | elements before the removed index keep their place, and later ones shift down by one |
| Collections.KeepDroppedPartition | Scripts/MarchingCubes/MonoLODTerrainGenerating.cs:66-77 | the chunks kept by the backward eviction loop and the chunks it enqueues together form the original multiset |
| Collections.KeepMembership | Scripts/MarchingCubes/MonoLODTerrainGenerating.cs:66-77 | an element is kept iff it sits at an index that is not dropped |
| Collections.ScanBackDrop | Scripts/MarchingCubes/MonoLODTerrainGenerating.cs:69-75 | one drop step of the backward loop (RemoveAt then Enqueue) extends the kept and dropped sequences by index i |
| Collections.ScanBackKeep | Scripts/MarchingCubes/MonoLODTerrainGenerating.cs:66-69 | one keep step of the backward loop extends the kept sequence by index i and leaves the queue unchanged |
| Collections.KeepDroppedDistinct | Scripts/MarchingCubes/MonoLODTerrainGenerating.cs:66-77 | eviction permutes the live and queued chunks, so they stay pairwise distinct |
| Collections.KeepDroppedConserved | Scripts/MarchingCubes/AsyncTerrainGeneration.cs:91-102 | eviction keeps the number of live plus queued chunks, and adds no chunk |
| Collections.DistinctRotate | Scripts/MarchingCubes/Legacy/AssetPlacer.cs:67-71 | moving the head of a distinct queue to its back keeps it distinct |
| Collections.DistinctMoveFront | Scripts/MarchingCubes/MonoLODTerrainGenerating.cs:94-105 | moving the front of the recycle queue to the live list keeps the objects distinct |
| Collections.DistinctPermutation | Scripts/MarchingCubes/MonoLODTerrainGenerating.cs:66-77 | a permutation of a distinct sequence is distinct |
| Collections.DistinctCount | Scripts/MarchingCubes/MonoLODTerrainGenerating.cs:66-77 | a distinct sequence holds each element at most once |
| MapManager.GetBiomeMaterial | Scripts/MarchingCubes/MapManager.cs:54-66 | as written: the lookup fails (no material) iff the table is empty or the region's hash is ≥ 1, one past the table; otherwise the index is valid, and for a hash in [0,1) it is the slice of the table holding the hash value |
| MapManager.SameRegionSameMaterial | Scripts/MarchingCubes/MapManager.cs:56-60 | all positions of one shifted 2060-unit region get the same material |
| MapManager.MaterialAndDensityRegionsDisagree | Scripts/MarchingCubes/MapManager.cs:57-58 | positions 0 and 2040 share a material region but lie in different density-biome regions |
| MapManager.CreateTextureBuffer | Scripts/MarchingCubes/MapManager.cs:36-46 | the texture is a random-write, clamped 3D volume |
| MapManager.RelativeChunkSize | Scripts/MarchingCubes/MonoLODTerrainGenerating.cs:213 | 1 ≤ n ≤ 103 and (n−1)·lod < 103 ≤ n·lod |
| MapManager.TextureCoversGrid | Scripts/MarchingCubes/MonoLODTerrainGenerating.cs:47-48 | the texture for a step has one more cell than samples in each dimension, and is never larger than the step-1 texture |
| MapManager.GridSpansSliceWhenStepDivides | Scripts/MarchingCubes/MonoLODTerrainGenerating.cs:202-213 | when the step divides 102, the samples span exactly one slice height |
| MapManager.GridFallsShortAtStepFour | Scripts/MarchingCubes/MonoLODTerrainGenerating.cs:202-213 | at step 4 the 26 samples span 100 units, two short of a slice |
| MapManager.LiftedRequest | Scripts/MarchingCubes/MapManager.cs:30-33 | the planar centre (x, y) is sent as (x, 0, y), with the given size and step and chunkScale |
| MapManager.GenerateMapDataTexture | Scripts/MarchingCubes/MapManager.cs:30-34 | the outcome is the density outcome of the lifted request; it is skipped iff the size is 0; and the kernel is the planar centre's biome |
| MapManager.GenerateMapDataTextureFrom3DOrigin | Scripts/MarchingCubes/MapManager.cs:69-72 | the origin is passed through; it is skipped iff the size is 0; and a dispatch carries that centre, step and size, with the biome of (x, z) |
| DensityGenerator.RegionBounds | Scripts/MarchingCubes/DensityGenerator.cs:83-84 | a coordinate is in region r iff r·width ≤ c < (r+1)·width |
| DensityGenerator.BucketAsWrittenOverflows | Scripts/MarchingCubes/DensityGenerator.cs:87-89 | as written, a clamped value of exactly 1 yields bucket n, one past the table |
| DensityGenerator.BucketAsWrittenRange | Scripts/MarchingCubes/DensityGenerator.cs:87-89 | the bucket as written lies in 0..n, and is n exactly when the value is ≥ 1 |
| DensityGenerator.SliceWhenInRange | Scripts/MarchingCubes/DensityGenerator.cs:87-89 | on [0,1) the bucket as written is the one of n equal slices that holds the value |
| DensityGenerator.Bucket | Scripts/MarchingCubes/DensityGenerator.cs:87-89 | corrected: the bucket is always below n |
| DensityGenerator.BucketClampsTop | Scripts/MarchingCubes/DensityGenerator.cs:87-89 | corrected: at the top of the clamp, where the bucket as written is n, the corrected bucket is the last one, n − 1 |
| DensityGenerator.BucketIsSlice | Scripts/MarchingCubes/DensityGenerator.cs:87-89 | on [0,1) the corrected and as-written buckets agree, and the bucket is the slice b/n ≤ v < (b+1)/n |
| DensityGenerator.GetBiomeKernel | Scripts/MarchingCubes/DensityGenerator.cs:80-92 | as written: the kernel id is at most 4, and is 4, one past the biomes, iff the region's hash is ≥ 1; for a hash in [0,1) it is the biome whose slice holds the hash |
| DensityGenerator.SameRegionSameBiome | Scripts/MarchingCubes/DensityGenerator.cs:80-92 | all centres of one 2040-unit region select the same biome |
| DensityGenerator.ThreadGroups | Scripts/MarchingCubes/DensityGenerator.cs:74 | groups·8 covers the grid, and one group fewer would not |
| DensityGenerator.OctaveOffsets | Scripts/MarchingCubes/DensityGenerator.cs:51-55 | one offset per octave |
| DensityGenerator.DensityDeterministicPerRegion | Scripts/MarchingCubes/DensityGenerator.cs:40-78 | two requests in one biome region are dispatched alike or not at all, with the same kernel, octave parameters and re-seeded offsets |
| DensityGenerator.IndexErrorExactlyAtOne | Scripts/MarchingCubes/DensityGenerator.cs:40-92 | with data for all four biomes and a non-empty grid, `biomeData[kernelID]` is out of range exactly when the region's hash is ≥ 1, and the index is then 4 |
| DensityGenerator.DensityGenerator.constructor | Scripts/MarchingCubes/DensityGenerator.cs:8-10 | no buffer exists yet |
| DensityGenerator.DensityGenerator.CreateBuffers | Scripts/MarchingCubes/DensityGenerator.cs:22-29 | both buffers hold one slot per octave, and at least one slot |
| DensityGenerator.DensityGenerator.ReleaseBuffers | Scripts/MarchingCubes/DensityGenerator.cs:31-36 | every buffer that exists is released, and none is created |
| DensityGenerator.DensityGenerator.GenerateMapDensityTexture | Scripts/MarchingCubes/DensityGenerator.cs:40-78 | an empty grid is skipped; a kernel id past the biome data (bucket 4 at a hash of 1, or a missing biome) is an index error; otherwise the biome's octave parameters are dispatched with the seeded offsets and ceil(size/8) groups, and both buffers end sized for the octaves and released; buffers are untouched when nothing is dispatched |
| LegacyChunk.RenderGate.constructor | Scripts/MarchingCubes/AsyncTerrainGeneration.cs:37 | the render slot starts free |
| LegacyChunk.RenderGate.SetIsRendering | Scripts/MarchingCubes/AsyncTerrainGeneration.cs:184-186 | the render slot is freed |
| LegacyChunk.SliceEntries | Scripts/MarchingCubes/Legacy/Chunk.cs:90-100 | three entries, for this chunk, numbered 0, 1, 2 |
| LegacyChunk.SlicesStack | Scripts/MarchingCubes/Legacy/Chunk.cs:91-96 | slice 0 stands on the chunk's corner, and each next slice starts 102 above the previous one |
| LegacyChunk.GetMesh | Scripts/MarchingCubes/Legacy/Chunk.cs:129-130 | the mesh holds the read-back arrays, or nothing when they are missing |
| LegacyChunk.AssetRequestAt | Scripts/MarchingCubes/Legacy/Chunk.cs:144 | the placer gets a start at ground level and the chunk side 102·15 |
| LegacyChunk.SliceRequest | Scripts/MarchingCubes/Legacy/Chunk.cs:103-104 | the request is at the slice origin and the step, and holds enough samples to cover the chunk |
| LegacyChunk.RequestOutcome | Scripts/MarchingCubes/Legacy/Chunk.cs:102-112 | the request stalls (no read-back, slot never freed) iff the density lookup throws; there is no read-back iff it does not throw and the kernel counts no triangles; any read-back is for the requested slice |
| LegacyChunk.Chunk.constructor | Scripts/MarchingCubes/Legacy/Chunk.cs:30-62 | the chunk stands at its id's corner, hidden, with no mesh, no collider and no placements |
| LegacyChunk.Chunk.UpdateData | Scripts/MarchingCubes/Legacy/Chunk.cs:64-76 | the chunk gets the new id, corner, step and flag, is hidden and loses its collider; its old meshes stay |
| LegacyChunk.Chunk.UpdateLOD | Scripts/MarchingCubes/Legacy/Chunk.cs:78-81 | only the step and the flag change |
| LegacyChunk.Chunk.UpdateShouldPlaceAssets | Scripts/MarchingCubes/Legacy/Chunk.cs:83-88 | the flag is set; placement happens (collider plus one placer call) iff the flag is true and the middle slice has vertices |
| LegacyChunk.Chunk.UpdateMesh | Scripts/MarchingCubes/Legacy/Chunk.cs:90-100 | the three slices are appended behind the existing queue, bottom first |
| LegacyChunk.Chunk.RequestVertices | Scripts/MarchingCubes/Legacy/Chunk.cs:102-112 | the outcome is RequestOutcome at the chunk's current step; with no triangles, an empty mesh is built at once, the slot is freed, the chunk shown, and assets placed as BuildMesh places them; when the density lookup throws or a vertex read-back is awaited, nothing changes |
| LegacyChunk.Chunk.GetVerticesCallback | Scripts/MarchingCubes/Legacy/Chunk.cs:114-120 | the vertices are kept, and 3·tris triangle indices are requested for the same slice |
| LegacyChunk.Chunk.GetTrianglesCallback | Scripts/MarchingCubes/Legacy/Chunk.cs:122-127 | the slice gets the mesh of both read-backs, the slot is freed, the chunk shown, and assets placed iff the flag is set and the middle slice has vertices |
| LegacyChunk.Chunk.BuildMesh | Scripts/MarchingCubes/Legacy/Chunk.cs:129-137 | the slice's mesh is set, the slot freed and the chunk shown; assets are placed iff the flag is set and the middle slice has vertices |
| LegacyChunk.Chunk.PlaceAssets | Scripts/MarchingCubes/Legacy/Chunk.cs:139-145 | nothing happens unless the middle slice has vertices; then it becomes the collider and one request for the chunk square is made |
| LegacyChunk.StaleCompletion | Scripts/MarchingCubes/Legacy/Chunk.cs:102-137 | a slice sampled at the old corner lands, after recycling, in the chunk now at the new id, and shows it |
| AssetPlacer.PoolAdd | Scripts/MarchingCubes/Legacy/AssetPlacer.cs:66-77 | the new placement joins the back; the oldest leaves iff the pool is full, so the length grows only below the bound |
| AssetPlacer.AddAllSnoc | Scripts/MarchingCubes/Legacy/AssetPlacer.cs:66-77 | a run of adds keeps the pool within its bound, and adding one more is one more PoolAdd |
| AssetPlacer.Latest | Scripts/MarchingCubes/Legacy/AssetPlacer.cs:57-58 | the window has at most max entries and at most as many as the input |
| AssetPlacer.LatestAdd | Scripts/MarchingCubes/Legacy/AssetPlacer.cs:66-77 | one add moves the latest-max window one placement on |
| AssetPlacer.AddAllKeepsLatest | Scripts/MarchingCubes/Legacy/AssetPlacer.cs:56-77 | after any run of adds, the pool holds exactly the latest max placements |
| AssetPlacer.PlacementsOf | Scripts/MarchingCubes/Legacy/AssetPlacer.cs:57 | the placements are those of the instances, one for one |
| AssetPlacer.AssetInstance.constructor | Scripts/MarchingCubes/Legacy/AssetPlacer.cs:73 | the instance stands at the given position and rotation |
| AssetPlacer.AssetInstance.MoveTo | Scripts/MarchingCubes/Legacy/AssetPlacer.cs:69-70 | the instance's transform moves to the new placement |
| AssetPlacer.Pool.constructor | Scripts/MarchingCubes/Legacy/AssetPlacer.cs:61-64 | the pool starts empty with the given bound |
| AssetPlacer.Pool.Add | Scripts/MarchingCubes/Legacy/AssetPlacer.cs:66-77 | the contents become PoolAdd of the old contents; the oldest instance is recycled when full, otherwise a fresh one is added; it fails exactly where Dequeue throws |
| AssetPlacer.Pool.Recycle | Scripts/MarchingCubes/Legacy/AssetPlacer.cs:67-71 | the oldest instance moves to the back, at the new placement |
| AssetPlacer.Pool.Instantiate | Scripts/MarchingCubes/Legacy/AssetPlacer.cs:72-76 | a fresh instance at the placement joins the back |
| AssetPlacer.RayOrigin | Scripts/MarchingCubes/Legacy/AssetPlacer.cs:29-32 | the ray starts at the ray height |
| AssetPlacer.RayInsideSquare | Scripts/MarchingCubes/Legacy/AssetPlacer.cs:29-32 | the ray starts at the ray height, inside the chunk square in x and z |
| AssetPlacer.HitPlacement | Scripts/MarchingCubes/Legacy/AssetPlacer.cs:42-53 | a placement results iff the ray hits a surface no steeper than the cutoff, and it is at the hit point |
| AssetPlacer.PlacementsPassFilters | Scripts/MarchingCubes/Legacy/AssetPlacer.cs:27-40 | at most one placement per ray, each from a ray that passed the noise cutoff |
| AssetPlacer.PlacementsStep | Scripts/MarchingCubes/Legacy/AssetPlacer.cs:28-39 | ray i adds its placement, if any, behind those of the earlier rays |
| AssetPlacer.PlacementsGrow | Scripts/MarchingCubes/Legacy/AssetPlacer.cs:28-39 | the placements of fewer rays are a prefix of those of more rays |
| AssetPlacer.AssetPlacer.constructor | Scripts/MarchingCubes/Legacy/AssetPlacer.cs:22-25 | the random stream is freshly seeded, and the pool is new and empty |
| AssetPlacer.AssetPlacer.LaunchRay | Scripts/MarchingCubes/Legacy/AssetPlacer.cs:42-53 | a miss or a too-steep hit changes nothing; otherwise the pool gets PoolAdd of the hit placement |
| AssetPlacer.AssetPlacer.PlaceAssets | Scripts/MarchingCubes/Legacy/AssetPlacer.cs:27-40 | two draws per ray are taken, and the pool becomes AddAll of the rays' placements; it fails only where the pool throws |
| AssetPlacer.AssetPlacer.CastRay | Scripts/MarchingCubes/Legacy/AssetPlacer.cs:28-39 | one ray takes two draws and adds its placement, if any |
| MonoLodTerrain.SliceMeshes | Scripts/MarchingCubes/MonoLODTerrainGenerating.cs:200-206 | one mesh per slice |
| MonoLodTerrain.SlicesStack | Scripts/MarchingCubes/MonoLODTerrainGenerating.cs:200-218 | slice i is sampled at the corner, i·102 up, at the chunk's step, from its step's texture, with enough samples |
| MonoLodTerrain.WaterOverChunkCentre | Scripts/MarchingCubes/MonoLODTerrainGenerating.cs:128-137 | the water stands over the centre used for distances, scaled, at height 635 |
| MonoLodTerrain.UpdateMesh | Scripts/MarchingCubes/MonoLODTerrainGenerating.cs:200-206 | the cell and step stay, and the meshes become the slices of that cell, step and texture |
| MonoLodTerrain.RecycledChunkIsCurrent | Scripts/MarchingCubes/MonoLODTerrainGenerating.cs:93-107 | a recycled chunk, moved and re-meshed, is current at its new cell and keeps nothing of the old one |
| MonoLodTerrain.MakeTextures | Scripts/MarchingCubes/MonoLODTerrainGenerating.cs:43-49 | the squared distances of the table, and a texture sized for each step |
| MonoLodTerrain.MonoLodTerrainGenerating.constructor | Scripts/MarchingCubes/MonoLODTerrainGenerating.cs:34-52 | after Start the bookkeeping is valid and the chunks around the initial viewer are streamed |
| MonoLodTerrain.MonoLodTerrainGenerating.Update | Scripts/MarchingCubes/MonoLODTerrainGenerating.cs:54-63 | the viewer is scaled to chunk-local units; past the threshold the chunks are streamed; otherwise nothing else changes |
| MonoLodTerrain.MonoLodTerrainGenerating.UpdateVisibleChunks | Scripts/MarchingCubes/MonoLODTerrainGenerating.cs:65-119 | afterwards every cell strictly inside the view distance has a chunk at its selected step and none lies beyond it; the cells with a chunk are exactly the old ones within the view distance and those strictly inside it; objects are made only when the queue is empty |
| MonoLodTerrain.MonoLodTerrainGenerating.WindowCoversView | Scripts/MarchingCubes/MonoLODTerrainGenerating.cs:79-83 | the scanned window contains every cell strictly inside the view distance |
| MonoLodTerrain.MonoLodTerrainGenerating.ScanWindow | Scripts/MarchingCubes/MonoLODTerrainGenerating.cs:82-118 | scanning every row of a window that holds the view leaves the state streamed, with the evicted keys plus every cell strictly inside the view distance |
| MonoLodTerrain.MonoLodTerrainGenerating.ScanRow | Scripts/MarchingCubes/MonoLODTerrainGenerating.cs:83-117 | after a row, every window cell up to it is settled, and the keys are the evicted ones plus the cells up to it strictly inside the view distance |
| MonoLodTerrain.MonoLodTerrainGenerating.ScanCell | Scripts/MarchingCubes/MonoLODTerrainGenerating.cs:84-116 | one more cell of the window is settled, and it has a chunk iff it had one or lies strictly inside the view distance |
| MonoLodTerrain.MonoLodTerrainGenerating.KeysStep | Scripts/MarchingCubes/MonoLODTerrainGenerating.cs:86-108 | a cell that gains a chunk exactly when it had one or is strictly inside the view distance, with no other key changing, extends the swept key set by that cell |
| MonoLodTerrain.MonoLodTerrainGenerating.SweepStart | Scripts/MarchingCubes/MonoLODTerrainGenerating.cs:82-83 | at a row's start, the swept part is the rows below it |
| MonoLodTerrain.MonoLodTerrainGenerating.SweepEnd | Scripts/MarchingCubes/MonoLODTerrainGenerating.cs:82-83 | at a row's end, the whole row is settled |
| MonoLodTerrain.MonoLodTerrainGenerating.SweepStep | Scripts/MarchingCubes/MonoLODTerrainGenerating.cs:83 | settling a cell and changing nothing else extends the swept part by that cell |
| MonoLodTerrain.MonoLodTerrainGenerating.FarMask | Scripts/MarchingCubes/MonoLODTerrainGenerating.cs:68-69 | the mask marks exactly the chunks beyond the view distance |
| MonoLodTerrain.MonoLodTerrainGenerating.EvictOutOfRange | Scripts/MarchingCubes/MonoLODTerrainGenerating.cs:66-77 | far chunks and their waters move, in backward order, to the queues; the dictionary keeps exactly the in-range ids; no chunk is left beyond the distance |
| MonoLodTerrain.MonoLodTerrainGenerating.EvictScan | Scripts/MarchingCubes/MonoLODTerrainGenerating.cs:66-77 | the backward loop yields the kept lists, the appended queues, and the dictionary minus the far ids |
| MonoLodTerrain.MonoLodTerrainGenerating.EvictStart | Scripts/MarchingCubes/MonoLODTerrainGenerating.cs:66 | the loop invariant holds before the first iteration |
| MonoLodTerrain.MonoLodTerrainGenerating.EvictAt | Scripts/MarchingCubes/MonoLODTerrainGenerating.cs:67-69 | the chunk at i is still the original one, and it is far iff the mask says so |
| MonoLodTerrain.MonoLodTerrainGenerating.EvictDrop | Scripts/MarchingCubes/MonoLODTerrainGenerating.cs:70-75 | removing and enqueueing a far chunk and its water keeps the invariant |
| MonoLodTerrain.MonoLodTerrainGenerating.EvictKeep | Scripts/MarchingCubes/MonoLODTerrainGenerating.cs:69 | skipping a near chunk keeps the invariant |
| MonoLodTerrain.MonoLodTerrainGenerating.EvictEnd | Scripts/MarchingCubes/MonoLODTerrainGenerating.cs:66-77 | at loop exit, the lists are Keep and the queues are extended by DroppedBackward |
| MonoLodTerrain.MonoLodTerrainGenerating.EvictedValid | Scripts/MarchingCubes/MonoLODTerrainGenerating.cs:66-77 | the evicted state is valid and in range, and its keys are the old keys within the distance |
| MonoLodTerrain.MonoLodTerrainGenerating.EvictedIndex | Scripts/MarchingCubes/MonoLODTerrainGenerating.cs:70-72 | the dictionary indexes exactly the kept chunks |
| MonoLodTerrain.MonoLodTerrainGenerating.EvictedKeys | Scripts/MarchingCubes/MonoLODTerrainGenerating.cs:69-70 | an id survives iff it was present and is within the view distance |
| MonoLodTerrain.MonoLodTerrainGenerating.EvictedEntries | Scripts/MarchingCubes/MonoLODTerrainGenerating.cs:70-72 | every surviving entry points to a kept chunk with that id |
| MonoLodTerrain.MonoLodTerrainGenerating.GetLODFromID | Scripts/MarchingCubes/MonoLODTerrainGenerating.cs:139-148 | the step of the first-matching tier of the chunk's squared distance |
| MonoLodTerrain.MonoLodTerrainGenerating.ScanChunkId | Scripts/MarchingCubes/MonoLODTerrainGenerating.cs:84-116 | the cell becomes settled and nothing else moves; it has a chunk iff it had one or is within the distance; an unchanged step leaves the pool alone |
| MonoLodTerrain.MonoLodTerrainGenerating.RefreshChunk | Scripts/MarchingCubes/MonoLODTerrainGenerating.cs:109-116 | the chunk gets its selected step; lists and dictionary stay; no re-mesh when the step is unchanged |
| MonoLodTerrain.MonoLodTerrainGenerating.RemeshedInRange | Scripts/MarchingCubes/MonoLODTerrainGenerating.cs:112-114 | re-meshing in place keeps every chunk in range |
| MonoLodTerrain.MonoLodTerrainGenerating.RemeshedLods | Scripts/MarchingCubes/MonoLODTerrainGenerating.cs:112-114 | re-meshing one chunk changes only that cell's step |
| MonoLodTerrain.MonoLodTerrainGenerating.AddChunk | Scripts/MarchingCubes/MonoLODTerrainGenerating.cs:86-108 | the cell gets its selected step; a queued chunk and water are reused first, otherwise one of each is made |
| MonoLodTerrain.MonoLodTerrainGenerating.AddedLods | Scripts/MarchingCubes/MonoLODTerrainGenerating.cs:104 | registering the chunk adds only its own cell, at its step |
| MonoLodTerrain.MonoLodTerrainGenerating.AddedInRange | Scripts/MarchingCubes/MonoLODTerrainGenerating.cs:88-105 | a chunk added within the distance keeps all live chunks in range |
| MonoLodTerrain.MonoLodTerrainGenerating.OneChunkPerCell | Scripts/MarchingCubes/MonoLODTerrainGenerating.cs:104 | no two live chunks share a cell |
| MonoLodTerrain.MonoLodTerrainGenerating.EachChunkOnce | Scripts/MarchingCubes/MonoLODTerrainGenerating.cs:71-94 | every chunk object is either live or queued |
| MonoLodTerrain.PlaceChunk | Scripts/MarchingCubes/MonoLODTerrainGenerating.cs:92-107 | the state stays valid; the cell maps to a chunk at its corner and step, reused from the queue front or made new |
| MonoLodTerrain.EvictedLists | Scripts/MarchingCubes/MonoLODTerrainGenerating.cs:66-77 | after eviction, references stay in range, objects are conserved and the kept chunks stay current |
| MonoLodTerrain.WateredRemoveAt | Scripts/MarchingCubes/MonoLODTerrainGenerating.cs:72-75 | removing a chunk and its water at the same index keeps the rest paired |
| MonoLodTerrain.ConservedPermuted | Scripts/MarchingCubes/MonoLODTerrainGenerating.cs:66-77 | a permutation of live and queued objects conserves them |
| MonoLodTerrain.BoundedPermuted | Scripts/MarchingCubes/MonoLODTerrainGenerating.cs:66-77 | lists rebuilt from the old objects keep their references in range |
| MonoLodTerrain.MeshedKept | Scripts/MarchingCubes/MonoLODTerrainGenerating.cs:66-77 | the kept live chunks stay current |
| MonoLodTerrain.RemeshedValid | Scripts/MarchingCubes/MonoLODTerrainGenerating.cs:112-114 | re-meshing a live chunk at a new step keeps the bookkeeping valid |
| MonoLodTerrain.ConservedMoveFront | Scripts/MarchingCubes/MonoLODTerrainGenerating.cs:94-105 | moving the queue front to the live list conserves objects |
| MonoLodTerrain.ConservedAppendNew | Scripts/MarchingCubes/MonoLODTerrainGenerating.cs:100-106 | registering a new object with an empty queue conserves objects |
| MonoLodTerrain.IndexedAdd | Scripts/MarchingCubes/MonoLODTerrainGenerating.cs:104-105 | registering a chunk for an empty cell keeps the index exact |
| MonoLodTerrain.MeshedAdd | Scripts/MarchingCubes/MonoLODTerrainGenerating.cs:104-107 | a chunk registered current at its cell keeps all live chunks current |
| MonoLodTerrain.WateredAdd | Scripts/MarchingCubes/MonoLODTerrainGenerating.cs:97-106 | a water registered over its chunk keeps the pairing |
| MonoLodTerrain.BoundedMoveFront | Scripts/MarchingCubes/MonoLODTerrainGenerating.cs:94-96 | moving the queue fronts to the lists keeps references in range |
| MonoLodTerrain.ReusedValid | Scripts/MarchingCubes/MonoLODTerrainGenerating.cs:93-107 | reusing the queue fronts for a new cell keeps the state valid |
| MonoLodTerrain.CreatedValid | Scripts/MarchingCubes/MonoLODTerrainGenerating.cs:99-107 | making a chunk and a water for a new cell keeps the state valid |
| AsyncTerrain.BoundsAroundCorner | Scripts/MarchingCubes/AsyncTerrainGeneration.cs:188-195 | the box spans the corner ± half a chunk, and from ½ to 3/2 of a slice in height |
| AsyncTerrain.TilesOf | Scripts/MarchingCubes/AsyncTerrainGeneration.cs:29-30 | a tile exists exactly for the ids mapped to a live chunk |
| AsyncTerrain.FirstTierIsTierZero | Scripts/MarchingCubes/AsyncTerrainGeneration.cs:170-182 | with at least two levels, a squared distance below the first level's (isFirstLOD) is exactly one that selects tier 0 |
| AsyncTerrain.AsyncTerrainGeneration.constructor | Scripts/MarchingCubes/AsyncTerrainGeneration.cs:46-67 | the configuration is derived, everything is empty, and the render slot is free |
| AsyncTerrain.AsyncTerrainGeneration.GetLodFromId | Scripts/MarchingCubes/AsyncTerrainGeneration.cs:170-182 | the first-matching step, with isFirstLOD set iff the distance is in the first tier |
| AsyncTerrain.AsyncTerrainGeneration.RenderNext | Scripts/MarchingCubes/AsyncTerrainGeneration.cs:70-74 | with a free slot and a queued slice, the front slice is dequeued and the read-back is RequestOutcome at its chunk's current step; it throws iff that outcome stalls (the density lookup's error; the placer's is under Left out); the slot is taken iff a read-back (or a stall) remains; with no triangles the slice's mesh is empty, the chunk shown and assets placed as BuildMesh places them; with a read-back or a stall the chunk is untouched; otherwise queue, read-back and slot are unchanged |
| AsyncTerrain.AsyncTerrainGeneration.RenderFront | Scripts/MarchingCubes/AsyncTerrainGeneration.cs:71-73 | the front slice is dequeued and the read-back is RequestOutcome at its chunk's current step; with no triangles the slice's mesh is empty, the chunk shown and assets placed as BuildMesh places them; otherwise the chunk is untouched |
| AsyncTerrain.AsyncTerrainGeneration.VerticesReadBack | Scripts/MarchingCubes/Legacy/Chunk.cs:114-120 | the vertex read-back is followed by a triangle read-back of 3·tris |
| AsyncTerrain.AsyncTerrainGeneration.TrianglesReadBack | Scripts/MarchingCubes/Legacy/Chunk.cs:122-137 | the slice gets its mesh, the chunk is shown, assets are placed iff the flag is set and the middle slice has vertices, and the slot is freed |
| AsyncTerrain.AsyncTerrainGeneration.Update | Scripts/MarchingCubes/AsyncTerrainGeneration.cs:69-84 | the read-back is that of the render step (or the old one when the slot was busy or the queue empty), and the slot is taken iff a read-back remains; the queue is the old one less its front when a slice was taken, plus only slices of live chunks; when the density lookup throws the frame ends (the placer's error is under Left out): the viewer and the chunks stay; otherwise the viewer is scaled and, past the threshold, the chunks are streamed, else the chunk bookkeeping stays |
| AsyncTerrain.AsyncTerrainGeneration.FollowViewer | Scripts/MarchingCubes/AsyncTerrainGeneration.cs:76-83 | the viewer is scaled to chunk-local units; past the threshold the chunks are streamed, the queue only grows, by slices of live chunks, and every chunk added or re-stepped has its three slices queued; otherwise nothing else changes |
| AsyncTerrain.AsyncTerrainGeneration.FarMask | Scripts/MarchingCubes/AsyncTerrainGeneration.cs:93-94 | the mask marks exactly the chunks beyond the view distance |
| AsyncTerrain.AsyncTerrainGeneration.EvictOutOfRange | Scripts/MarchingCubes/AsyncTerrainGeneration.cs:91-102 | far chunks and waters move to the queues in backward order; the keys are the old ones within the distance; chunks are conserved |
| AsyncTerrain.AsyncTerrainGeneration.Commit | Scripts/MarchingCubes/AsyncTerrainGeneration.cs:91-102 | installing a valid evicted state leaves the tiles of its dictionary |
| AsyncTerrain.AsyncTerrainGeneration.EvictScan | Scripts/MarchingCubes/AsyncTerrainGeneration.cs:91-102 | the backward loop yields Keep and DroppedBackward, and the dictionary minus the far ids |
| AsyncTerrain.AsyncTerrainGeneration.EvictStart | Scripts/MarchingCubes/AsyncTerrainGeneration.cs:91 | the loop invariant holds before the first iteration |
| AsyncTerrain.AsyncTerrainGeneration.EvictAt | Scripts/MarchingCubes/AsyncTerrainGeneration.cs:92-94 | the chunk at i is still the original one, and it is far iff the mask says so |
| AsyncTerrain.AsyncTerrainGeneration.EvictDrop | Scripts/MarchingCubes/AsyncTerrainGeneration.cs:95-100 | removing and enqueueing a far chunk and its water keeps the invariant |
| AsyncTerrain.AsyncTerrainGeneration.EvictKeep | Scripts/MarchingCubes/AsyncTerrainGeneration.cs:94 | skipping a near chunk keeps the invariant |
| AsyncTerrain.AsyncTerrainGeneration.EvictEnd | Scripts/MarchingCubes/AsyncTerrainGeneration.cs:91-102 | at loop exit, the lists are Keep and the queues are extended by DroppedBackward |
| AsyncTerrain.AsyncTerrainGeneration.EvictedValid | Scripts/MarchingCubes/AsyncTerrainGeneration.cs:91-102 | the evicted state is valid and in range, and its keys are the old keys within the distance |
| AsyncTerrain.AsyncTerrainGeneration.EvictedKeys | Scripts/MarchingCubes/AsyncTerrainGeneration.cs:94-95 | an id survives iff it was present and is within the view distance |
| AsyncTerrain.AsyncTerrainGeneration.EvictedEntries | Scripts/MarchingCubes/AsyncTerrainGeneration.cs:95-97 | the dictionary indexes exactly the kept chunks |
| AsyncTerrain.AsyncTerrainGeneration.SelectedStepHasTexture | Scripts/MarchingCubes/AsyncTerrainGeneration.cs:57-63 | every step the table can select has a texture |
| AsyncTerrain.AsyncTerrainGeneration.UpdateVisibleChunks | Scripts/MarchingCubes/AsyncTerrainGeneration.cs:90-150 | afterwards: streamed; the keys are the old in-range ones plus the visible ones; the render queue only grew, by slices of live chunks, and holds the three slices of every chunk added or given a new step (lines 135, 143); objects are made only when the queue is empty |
| AsyncTerrain.AsyncTerrainGeneration.QueuedSinceEviction | Scripts/MarchingCubes/AsyncTerrainGeneration.cs:91-149 | a cell added or re-stepped since before the eviction is so since after it, as eviction only drops tiles |
| AsyncTerrain.AsyncTerrainGeneration.ScanView | Scripts/MarchingCubes/AsyncTerrainGeneration.cs:104-149 | from the evicted dictionary, the scan leaves the state streamed, with the old in-range keys plus the visible ones, and the queue grown only by slices of live chunks, among them the three slices of every cell added or re-stepped |
| AsyncTerrain.AsyncTerrainGeneration.ScanWindow | Scripts/MarchingCubes/AsyncTerrainGeneration.cs:109-149 | scanning every row of the window from the top down leaves the update's result, with the slices of every cell added or re-stepped queued |
| AsyncTerrain.AsyncTerrainGeneration.ScanDone | Scripts/MarchingCubes/AsyncTerrainGeneration.cs:109-149 | once the whole window is swept, the state is streamed with the promised keys |
| AsyncTerrain.AsyncTerrainGeneration.WindowCoversView | Scripts/MarchingCubes/AsyncTerrainGeneration.cs:104-110 | the window contains every cell strictly inside the view distance |
| AsyncTerrain.AsyncTerrainGeneration.TilesKeys | Scripts/MarchingCubes/AsyncTerrainGeneration.cs:29-30 | with an exact index, the tiles have exactly the dictionary's keys |
| AsyncTerrain.AsyncTerrainGeneration.ScanRow | Scripts/MarchingCubes/AsyncTerrainGeneration.cs:110-148 | one row, right to left, extends the swept part to the row below |
| AsyncTerrain.AsyncTerrainGeneration.ScanCell | Scripts/MarchingCubes/AsyncTerrainGeneration.cs:111-147 | one cell extends the swept part by that cell |
| AsyncTerrain.AsyncTerrainGeneration.GrewTrans | Scripts/MarchingCubes/AsyncTerrainGeneration.cs:109-149 | two spans of growth of the render queue and the chunk lists compose |
| AsyncTerrain.AsyncTerrainGeneration.QueuedStep | Scripts/MarchingCubes/AsyncTerrainGeneration.cs:111-147 | one cell, queued exactly when added or re-stepped, keeps every added or re-stepped cell's slices queued |
| AsyncTerrain.AsyncTerrainGeneration.SweepStep | Scripts/MarchingCubes/AsyncTerrainGeneration.cs:110-111 | settling a cell (added iff visible) extends the swept part |
| AsyncTerrain.AsyncTerrainGeneration.SweepInit | Scripts/MarchingCubes/AsyncTerrainGeneration.cs:109-110 | before the scan nothing is swept, and the tiles are the starting ones |
| AsyncTerrain.AsyncTerrainGeneration.RowTurn | Scripts/MarchingCubes/AsyncTerrainGeneration.cs:109-110 | the end of a row is the start of the next row down |
| AsyncTerrain.AsyncTerrainGeneration.SweptAll | Scripts/MarchingCubes/AsyncTerrainGeneration.cs:109-149 | after the last row every window cell is settled, and the tiles are the starting ones plus the visible cells |
| AsyncTerrain.AsyncTerrainGeneration.ScanChunkId | Scripts/MarchingCubes/AsyncTerrainGeneration.cs:111-147 | the cell is settled and nothing else moves; it has a chunk iff it had one or is visible; the dictionary changes only at the cell; the queue gains the cell's three slices exactly when the cell is added or its step changes, and nothing otherwise |
| AsyncTerrain.AsyncTerrainGeneration.AddChunk | Scripts/MarchingCubes/AsyncTerrainGeneration.cs:112-136 | the cell gets its tile and its three slices are queued; a queued chunk and water are reused first, otherwise new ones are made |
| AsyncTerrain.AsyncTerrainGeneration.ReuseChunk | Scripts/MarchingCubes/AsyncTerrainGeneration.cs:121-135 | the queue fronts are reused at the new cell, registered, and their slices queued; the reused chunk is hidden with its collider cleared, and keeps its old meshes and placer calls until rebuilt |
| AsyncTerrain.AsyncTerrainGeneration.Readdress | Scripts/MarchingCubes/AsyncTerrainGeneration.cs:122-123 | the recycled chunk gets the new id, corner, step and flag, is hidden with its collider cleared, keeps its meshes and placer calls, and no live tile changes |
| AsyncTerrain.AsyncTerrainGeneration.ReusedValid | Scripts/MarchingCubes/AsyncTerrainGeneration.cs:121-135 | registering reused queue fronts keeps the state valid |
| AsyncTerrain.AsyncTerrainGeneration.CreateChunk | Scripts/MarchingCubes/AsyncTerrainGeneration.cs:127-135 | a fresh chunk and water are made, registered, and their slices queued |
| AsyncTerrain.AsyncTerrainGeneration.CreatedValid | Scripts/MarchingCubes/AsyncTerrainGeneration.cs:127-135 | registering a fresh chunk and water keeps the state valid |
| AsyncTerrain.AsyncTerrainGeneration.QueuedNotLive | Scripts/MarchingCubes/AsyncTerrainGeneration.cs:121-122 | the chunk at the recycle front is not live |
| AsyncTerrain.AsyncTerrainGeneration.TilesAdd | Scripts/MarchingCubes/AsyncTerrainGeneration.cs:132-133 | registering a chunk adds exactly its tile |
| AsyncTerrain.AsyncTerrainGeneration.RefreshChunk | Scripts/MarchingCubes/AsyncTerrainGeneration.cs:137-147 | the tile becomes the selected step and flag; slices are re-queued iff the step changed; position, visibility and meshes stay; a re-step leaves collider and placer calls alone, and otherwise assets are placed exactly when the flag turns on (AssetsPlaced) |
| AsyncTerrain.AsyncTerrainGeneration.Relod | Scripts/MarchingCubes/AsyncTerrainGeneration.cs:141-143 | the new step and flag are set and the slices re-queued; visibility, meshes, collider and placer calls stay |
| AsyncTerrain.AsyncTerrainGeneration.Restep | Scripts/MarchingCubes/AsyncTerrainGeneration.cs:142 | only this chunk's step and flag change: id, corner, visibility, meshes, collider and placer calls stay, and only its tile moves |
| AsyncTerrain.AsyncTerrainGeneration.Reflag | Scripts/MarchingCubes/AsyncTerrainGeneration.cs:144-145 | the flag is set, id, step, corner, visibility and meshes stay, and when the flag is true assets are placed on the middle slice (AssetsPlaced: collider plus one placer call) |

## Left out

- Engine objects and GPU work are outside the model: game objects, renderers,
  materials, transforms, shaders, the marching-cubes mesh code
  (`SharedMCMesh.cs`, `Legacy/AsyncSharedMCMesh.cs`) and the texture contents.
  Kernel results enter as function parameters (`march`, `noise`, `draws`,
  `frustum`, the ray cast, Perlin noise).
- Legacy/MapManager.cs is not part of this model. Its `terrainScale` (15) is
  used as the constant `MapManager.TerrainScale`.
- Floating point is modelled with exact reals: Unity's float rounding of
  distances and positions is not modelled.
- `viewerPosition` is a static field in the source. Each streamer keeps its
  own copy in the model.
- AsyncTerrain water objects are modelled as counted references only. Their
  positions are modelled in the synchronous streamer, which places them the
  same way apart from the height.
- AsyncTerrain.AsyncTerrainGeneration.constructor: `Start` does not stream;
  the first stream happens in the first `Update` past the threshold, as in
  the code.
- AsyncTerrain.AsyncTerrainGeneration.RenderNext: the chunk only logs its
  calls to the asset placer (`AssetRequest`), so an error raised by the placer
  is not carried into the render step. With `maxInstancesNumber` at 0, its
  default (Legacy/AssetPlacer.cs:8-9), the first accepted ray dequeues from an
  empty pool (Legacy/AssetPlacer.cs:67-68); AssetPlacer.Pool.Add models that
  failure. On the no-triangle build the throw comes after the mesh is set, the
  slot freed and the chunk shown (Legacy/Chunk.cs:130-136), so the model's
  state is right but "throws iff the outcome stalls" assumes a pool bound of
  at least 1.
- AsyncTerrain.AsyncTerrainGeneration.Update: for the same reason the frame
  in the code also ends when the placer throws during a no-triangle build, and
  then skips the viewer check (AsyncTerrainGeneration.cs:76-83). The model goes
  on to `FollowViewer`; it assumes a pool bound of at least 1.
- AsyncTerrain.AsyncTerrainGeneration.TrianglesReadBack: a placer error there
  would end the callback after the slot is freed and the chunk shown. It is
  not modelled, for the same reason.
- AsyncTerrain.AsyncTerrainGeneration.RefreshChunk: a placer error when the
  flag turns on would end the scan after the chunk's flag is set. It is not
  modelled, for the same reason.
- AsyncTerrain.AsyncTerrainGeneration.Reflag: the source compares the
  chunk's flag with the raw first-tier flag (line 144), not with the flag
  combined with `placeObjects`. Because `placeObjects` is modelled as a
  constant, the resulting tile is the same. A runtime toggle of
  `placeObjects` is not modelled.
- AsyncTerrain.CalculateBounds is modelled as written: the box is centred on
  the chunk's corner (`3 / 2 == 1`). BoundsAroundCorner states what this
  covers. The model does not correct the box.
- The code does not discard a late GPU completion for a chunk that was
  recycled in the meantime. The model follows the code, and
  LegacyChunk.StaleCompletion exhibits the stale write.
- The code does not validate the detail table. Both streamer constructors
  take a valid table as a precondition (`ValidTable`): non-empty, steps ≥ 1
  and distinct, distances positive and ascending.
- DensityGenerator.DensityGenerator.ReleaseBuffers requires that both buffers
  exist or neither does. Only `CreateBuffers` makes them, and it makes both.
- Unity's random stream is a function of the number of draws taken since
  the last seeding: `draws(seed, k)` in the density generator and
  `random(k)` in the asset placer. The generator's values are not modelled.
  The density generator re-seeds with 1996 on every slice
  (`Random.InitState(1996)`) and takes three draws per octave.
- AssetPlacer.AssetPlacer.PlaceAssets: the placer keeps its own cursor,
  seeded with `TerrainData.seed` by its constructor. In Unity the stream is
  one global stream. The density generator re-seeds it with 1996 for every
  slice (DensityGenerator.cs:51) and takes 3·octaves draws before the
  slice's mesh is built and the placer runs. So each chunk's rays start
  from nearly the same point of the stream, and chunks get nearly the same
  ray pattern. The model does not connect the two cursors.
- The debug ray drawing (`Debug.DrawRay`), `OnDestroy` and
  `GenerateSharedVerticesMesh` (a call into the mesh code) are left out.
- MonoLodTerrain.UpdateMesh: the index error of the density lookup is not
  modelled here. Each slice's mesh starts with that lookup
  (MonoLODTerrainGenerating.cs:212-215, reaching DensityGenerator.cs:46),
  which throws when the cell's region value is 1.0, as the Findings table
  shows. The model always yields the three slice meshes. The asynchronous
  streamer does model that throw, as a stalled render slot.
- MonoLodTerrain.MonoLodTerrainGenerating.UpdateVisibleChunks: promises
  `Streamed` and the key set for every input. The code reaches them only when
  no slice's density lookup throws. A throw ends `Update` in the middle of the
  scan, after the chunk was registered, and the model does not capture that
  half-done state. The material lookup on each re-mesh, and its index error
  at region value 1.0, are not modelled either; the lookup itself is modelled
  as MapManager.GetBiomeMaterial.
- LegacyChunk.Chunk.constructor: materials are not modelled, so the index
  error of the material lookup at Legacy/Chunk.cs:53 (MapManager.cs:61-65 at
  region value 1.0) is not either. In the code it would end `Update` before
  the new chunk is registered.
- LegacyChunk.Chunk.UpdateMesh: likewise for the material lookup at
  Legacy/Chunk.cs:98. In the code its throw would come after the first slice
  is queued, leaving the other two unqueued.

## Findings

The density lookup of the asynchronous streamer is modelled with the bucket
as the code computes it, error path included: the throw stalls the render
slot. The synchronous streamer's density lookup and the material lookups of
both streamers do not model the throw (see "Left out"). The corrected bucket
is defined and proved beside the one as written.

| source | as written | input that shows it | evidently intended | confidence | as-written member | corrected member |
|---|---|---|---|---|---|---|
| Scripts/MarchingCubes/DensityGenerator.cs:87-89 | `FloorToInt(Clamp(v, 0, 1) / (1f / biomes.Count))` gives bucket 4 for v = 1, and `biomeData[4]` is out of range; in the asynchronous streamer the exception leaves the render slot taken for good (a stalled read-back), so no slice is rendered again | a white-noise value that rounds to 1.0f (a tiny negative `dot` whose `dot - Floor(dot)` rounds up) | every value selects one of the four biomes, with the top of the clamp in the last bucket | low; not executed | DensityGenerator.IndexErrorExactlyAtOne | DensityGenerator.BucketClampsTop |
| Scripts/MarchingCubes/MapManager.cs:61-65 | the same bucket over `biomeMaterials.Length` indexes one past the table for v = 1 | a white-noise value that rounds to 1.0f | every position gets one of the materials | low; not executed | MapManager.GetBiomeMaterial | DensityGenerator.Bucket |
