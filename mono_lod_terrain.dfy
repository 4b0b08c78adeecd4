/** MonoLODTerrainGenerating: the synchronous chunk streamer. Around the viewer
    it keeps one chunk per grid cell within the view distance, each meshed at the
    detail step its distance selects; chunks that fall out of range, with their
    water planes, are queued and reused before new ones are made. */
module MonoLodTerrain {
  import opened Mathf
  import opened ChunkGrid
  import opened Collections
  import opened DensityGenerator
  import opened MapManager

  /** `sqrViewerMoveThresholdForChunkUpdate`: the viewer must move more than 50
      units (in chunk-local space) before the chunks are updated again. */
  const SqrViewerMoveThreshold: real := 50.0 * 50.0

  /** The height at which the water planes stand. */
  const WaterLevel: real := 635.0

  /** A slice mesh, identified by the density request that filled the texture and
      the texture it was marched from. */
  datatype SliceMesh = SliceMesh(request: DensityRequest, texture: RenderTexture)

  /** The base of slice `i` of a chunk whose corner is `position`. */
  function SliceOffset(position: Vec2, i: int): Vec3 {
    Vec3(position.x, (i * (ChunkSize - 1)) as real, position.y)
  }

  /** `CreateMesh`: the density at `offset` is written into `texture` at step `lod`
      and the shared-vertex mesh is marched from it. */
  function CreateMesh(offset: Vec3, lod: int, texture: RenderTexture): SliceMesh
    requires lod >= 1
  {
    SliceMesh(DensityRequest(RelativeChunkSize(lod), ChunkScale, lod, offset), texture)
  }

  /** The slice meshes `UpdateMesh` leaves on a chunk at `position` with step `lod`. */
  function SliceMeshes(position: Vec2, lod: int, texture: RenderTexture): (r: seq<Option<SliceMesh>>)
    requires lod >= 1
    ensures |r| == VerticalChunks
  {
    seq(VerticalChunks, i requires 0 <= i < VerticalChunks => Some(CreateMesh(SliceOffset(position, i), lod, texture)))
  }

  /** The three slices of a chunk column are sampled on the same grid, each one
      slice height above the previous, and their samples cover the slice. */
  lemma SlicesStack(position: Vec2, lod: int, texture: RenderTexture)
    requires lod >= 1
    ensures var r := SliceMeshes(position, lod, texture);
      forall i :: 0 <= i < VerticalChunks ==>
        && r[i].Some? && r[i].value.texture == texture
        && r[i].value.request.lod == lod
        && r[i].value.request.center.x == position.x && r[i].value.request.center.z == position.y
        && r[i].value.request.center.y == i as real * (ChunkSize - 1) as real
        && (r[i].value.request.gridSize - 1) * lod < ChunkSize <= r[i].value.request.gridSize * lod
  {
    var r := SliceMeshes(position, lod, texture);
    forall i | 0 <= i < VerticalChunks
      ensures r[i].value.request.center.y == i as real * (ChunkSize - 1) as real
    {
      assert (i * (ChunkSize - 1)) as real == i as real * (ChunkSize - 1) as real;
    }
  }

  /** Where `CreateWater` and `UpdateWaterPosition` put the water of chunk `id`:
      over the chunk's centre, in world units, at the water level. */
  function WaterPosition(id: ChunkId, size: int, scale: real): Vec3 {
    Vec3((id.x * size) as real * scale + size as real * scale / 2.0, WaterLevel,
         (id.y * size) as real * scale + size as real * scale / 2.0)
  }

  /** The water stands over the same centre the distance test measures from,
      scaled to world units. */
  lemma WaterOverChunkCentre(id: ChunkId, size: int, scale: real)
    ensures var o := ChunkOrigin(id, size); var w := WaterPosition(id, size, scale);
      && w.x == (o.x + size as real / 2.0) * scale
      && w.z == (o.y + size as real / 2.0) * scale
      && w.y == WaterLevel
  {
  }

  /** A reference to a chunk or water object: its index in the table of objects
      made so far. Two references are the same object exactly when they are equal. */
  type Ref = nat

  /** The state of one object of the nested `Chunk` class. */
  datatype Chunk = Chunk(position: Vec2, chunkID: ChunkId, lod: int, meshes: seq<Option<SliceMesh>>)

  /** The `Chunk` constructor: the chunk stands at its id's corner, with no mesh yet. */
  function NewChunk(chunkID: ChunkId, size: int, lod: int): Chunk {
    Chunk(ChunkOrigin(chunkID, size), chunkID, lod, [None, None, None])
  }

  /** `Chunk.UpdateData`: a recycled chunk moves to a new cell and step; its old
      meshes stay until `UpdateMesh`. */
  function UpdateData(c: Chunk, chunkID: ChunkId, size: int, currentLOD: int): Chunk {
    c.(position := ChunkOrigin(chunkID, size), chunkID := chunkID, lod := currentLOD)
  }

  /** `Chunk.UpdateLOD`. */
  function UpdateLOD(c: Chunk, newLOD: int): Chunk {
    c.(lod := newLOD)
  }

  /** `Chunk.UpdateMesh`: regenerates the three slices, bottom to top; the cell
      and step stay. */
  method UpdateMesh(c: Chunk, mapDataTexture: RenderTexture) returns (r: Chunk)
    requires c.lod >= 1 && |c.meshes| == VerticalChunks
    ensures r.position == c.position && r.chunkID == c.chunkID && r.lod == c.lod
    ensures r.meshes == SliceMeshes(c.position, c.lod, mapDataTexture)
  {
    var meshes := c.meshes;
    var i := 0;
    while i < VerticalChunks
      invariant 0 <= i <= VerticalChunks && |meshes| == VerticalChunks
      invariant forall j :: 0 <= j < i ==> meshes[j] == SliceMeshes(c.position, c.lod, mapDataTexture)[j]
    {
      var chunkPos := SliceOffset(c.position, i);
      meshes := meshes[i := Some(CreateMesh(chunkPos, c.lod, mapDataTexture))];
      i := i + 1;
    }
    r := c.(meshes := meshes);
  }

  /** The chunk stands at its id's corner and its meshes were generated for that
      corner and its current step, from the texture made for that step. */
  ghost predicate Current(c: Chunk, size: int, textures: map<int, RenderTexture>) {
    && c.position == ChunkOrigin(c.chunkID, size)
    && c.lod >= 1 && c.lod in textures
    && c.meshes == SliceMeshes(c.position, c.lod, textures[c.lod])
  }

  /** Whatever a chunk held before, moving it with `UpdateData` and re-meshing it
      from the texture of its new step leaves it current at its new cell: a
      recycled chunk keeps nothing of the cell it left. */
  lemma RecycledChunkIsCurrent(c: Chunk, r: Chunk, chunkID: ChunkId, size: int, lod: int,
                               textures: map<int, RenderTexture>)
    requires lod >= 1 && lod in textures
    requires var u := UpdateData(c, chunkID, size, lod);
      r.position == u.position && r.chunkID == u.chunkID && r.lod == u.lod
      && r.meshes == SliceMeshes(u.position, u.lod, textures[lod])
    ensures Current(r, size, textures) && r.chunkID == chunkID && r.lod == lod
  {
  }

  /** The viewer has moved far enough from where the chunks were last updated. */
  predicate Moved(oldViewer: Vec2, viewer: Vec2) {
    SqrMagnitude(Vec2(oldViewer.x - viewer.x, oldViewer.y - viewer.y)) > SqrViewerMoveThreshold
  }

  /** The bookkeeping every update keeps, over an object table `pool` of chunks
      and `waterPool` of water positions, with live lists `cs`/`ws`, queues
      `rc`/`rw` and dictionary `d`. */
  ghost predicate ValidState(size: int, scale: real, textures: map<int, RenderTexture>,
                             pool: seq<Chunk>, waterPool: seq<Vec3>,
                             cs: seq<Ref>, rc: seq<Ref>, ws: seq<Ref>, rw: seq<Ref>, d: map<ChunkId, Ref>)
  {
    && Bounded(pool, waterPool, cs, rc, ws, rw)
    && Conserved(|pool|, cs, rc) && Conserved(|waterPool|, ws, rw)
    && Indexed(pool, cs, d)
    && Meshed(size, textures, pool, cs, rc)
    && Watered(size, scale, pool, waterPool, cs, ws)
  }

  /** Live chunks and waters pair up, as do queued ones, and every reference names
      an object made so far. */
  ghost predicate Bounded(pool: seq<Chunk>, waterPool: seq<Vec3>, cs: seq<Ref>, rc: seq<Ref>, ws: seq<Ref>, rw: seq<Ref>) {
    && |cs| == |ws| && |rc| == |rw|
    && (forall h | h in cs :: h < |pool|) && (forall h | h in rc :: h < |pool|)
    && (forall h | h in ws :: h < |waterPool|) && (forall h | h in rw :: h < |waterPool|)
  }

  /** Each of the `n` objects made so far is live or queued, and none is listed twice. */
  ghost predicate Conserved(n: nat, live: seq<Ref>, queued: seq<Ref>) {
    && Distinct(live + queued)
    && (forall h | 0 <= h < n :: h in live + queued)
  }

  /** The dictionary maps each live chunk's id to it, and nothing else. */
  ghost predicate Indexed(pool: seq<Chunk>, cs: seq<Ref>, d: map<ChunkId, Ref>) {
    && (forall id | id in d :: d[id] in cs && d[id] < |pool| && pool[d[id]].chunkID == id)
    && (forall h | h in cs && h < |pool| :: pool[h].chunkID in d && d[pool[h].chunkID] == h)
  }

  /** Every chunk has its three slices, and each live chunk's are current. */
  ghost predicate Meshed(size: int, textures: map<int, RenderTexture>, pool: seq<Chunk>, cs: seq<Ref>, rc: seq<Ref>) {
    && (forall h | h in cs + rc && h < |pool| :: |pool[h].meshes| == VerticalChunks)
    && (forall h | h in cs && h < |pool| :: Current(pool[h], size, textures))
  }

  /** Each live water stands over the live chunk at the same index. */
  ghost predicate Watered(size: int, scale: real, pool: seq<Chunk>, waterPool: seq<Vec3>, cs: seq<Ref>, ws: seq<Ref>) {
    forall i | 0 <= i < |cs| && i < |ws| ::
      cs[i] < |pool| && ws[i] < |waterPool| && waterPool[ws[i]] == WaterPosition(pool[cs[i]].chunkID, size, scale)
  }

  /** The step of the chunk each id of `d` maps to. */
  ghost function LodsOf(pool: seq<Chunk>, d: map<ChunkId, Ref>): (m: map<ChunkId, int>)
    ensures m.Keys == d.Keys
  {
    map id | id in d :: if d[id] < |pool| then pool[d[id]].lod else 0
  }

  /** The loop of `Start` over the detail table: the squared distance of each
      level, in order, and one texture per step, sized for that step. */
  method MakeTextures(detailLevels: seq<DetailLevel>) returns (sqr: seq<real>, textures: map<int, RenderTexture>)
    requires ValidTable(detailLevels)
    ensures sqr == SqrDistances(detailLevels)
    ensures forall j :: 0 <= j < |detailLevels| ==>
      detailLevels[j].step in textures
      && textures[detailLevels[j].step] == CreateTextureBuffer(RelativeChunkSize(detailLevels[j].step))
  {
    sqr := [];
    textures := map[];
    var i := 0;
    while i < |detailLevels|
      invariant 0 <= i <= |detailLevels| && |sqr| == i
      invariant forall j :: 0 <= j < i ==> sqr[j] == SqrDistanceOf(detailLevels[j])
      invariant forall j :: 0 <= j < i ==>
        detailLevels[j].step in textures
        && textures[detailLevels[j].step] == CreateTextureBuffer(RelativeChunkSize(detailLevels[j].step))
      invariant forall j :: i <= j < |detailLevels| ==> detailLevels[j].step !in textures
    {
      sqr := sqr + [detailLevels[i].maxDistance * detailLevels[i].maxDistance];
      var relativeChunkSize := RelativeChunkSize(detailLevels[i].step);
      assert detailLevels[i].step !in textures;
      textures := textures[detailLevels[i].step := CreateTextureBuffer(relativeChunkSize)];
      i := i + 1;
    }
  }

  class MonoLodTerrainGenerating {
    const detailLevels: seq<DetailLevel>
    const chunkSize: int
    const chunkScale: real
    const maxViewDistance: real
    const sqrViewDistance: real
    const sqrViewDistances: seq<real>
    const chunksVisibleInViewDistance: int
    const mapDataTextures: map<int, RenderTexture>

    var viewerPosition: Vec2
    var oldViewerPosition: Vec2
    /** Every chunk object made so far; none is ever destroyed. */
    var pool: seq<Chunk>
    /** The position of every water object made so far. */
    var waterPool: seq<Vec3>
    var chunkDictionary: map<ChunkId, Ref>
    var chunks: seq<Ref>
    var recyclableChunks: seq<Ref>
    var waters: seq<Ref>
    var recyclableWaters: seq<Ref>

    /** What `Start` derives from the detail table: the view distance is the last
        entry's, the window half-width covers it in whole chunks, and every step
        has its texture. */
    ghost predicate ValidConfig() {
      && ValidTable(detailLevels)
      && chunkSize == ChunkSize - 1 && chunkScale > 0.0
      && maxViewDistance == detailLevels[|detailLevels| - 1].maxDistance
      && sqrViewDistance == maxViewDistance * maxViewDistance
      && sqrViewDistances == SqrDistances(detailLevels)
      && chunksVisibleInViewDistance == CeilToInt(maxViewDistance / chunkSize as real)
      && (forall i :: 0 <= i < |detailLevels| ==>
            detailLevels[i].step in mapDataTextures
            && mapDataTextures[detailLevels[i].step] == CreateTextureBuffer(RelativeChunkSize(detailLevels[i].step)))
    }

    ghost predicate Valid()
      reads this
    {
      && ValidConfig()
      && ValidState(chunkSize, chunkScale, mapDataTextures, pool, waterPool,
                    chunks, recyclableChunks, waters, recyclableWaters, chunkDictionary)
    }

    /** `SqrPlayerDistanceFromCenter`. */
    function SqrPlayerDistanceFromCenter(chunkID: ChunkId): real
      reads this`viewerPosition
    {
      SqrDistanceFromCenter(viewerPosition, chunkID, chunkSize)
    }

    /** The step of every live chunk, by id. */
    ghost function Lods(): (m: map<ChunkId, int>)
      reads this
      ensures m.Keys == chunkDictionary.Keys
    {
      LodsOf(pool, chunkDictionary)
    }

    /** Cell `id` is as an update leaves it, for a viewer at `viewer` and live
        steps `lods`: present when strictly inside the view distance, and, when
        present, meshed at the step its distance selects. */
    ghost predicate SettledIn(lods: map<ChunkId, int>, viewer: Vec2, id: ChunkId) {
      && (SqrDistanceFromCenter(viewer, id, chunkSize) < sqrViewDistance ==> id in lods)
      && (id in lods && |detailLevels| > 0 ==>
            lods[id] == SelectLod(detailLevels, SqrDistanceFromCenter(viewer, id, chunkSize)))
    }

    /** No live chunk lies beyond the view distance. */
    ghost predicate InRange()
      reads this
    {
      InRangeOf(viewerPosition, pool, chunks)
    }

    /** No chunk of `cs` lies beyond the view distance of a viewer at `viewer`. */
    ghost predicate InRangeOf(viewer: Vec2, pool: seq<Chunk>, cs: seq<Ref>) {
      forall h | h in cs && h < |pool| :: SqrDistanceFromCenter(viewer, pool[h].chunkID, chunkSize) <= sqrViewDistance
    }

    /** What an update promises about the viewer's surroundings: every cell strictly
        inside the view distance has a chunk, at the step its distance selects, and
        no chunk lies beyond it. */
    ghost predicate Streamed()
      reads this
    {
      && InRange()
      && (forall id | SqrPlayerDistanceFromCenter(id) < sqrViewDistance :: SettledIn(Lods(), viewerPosition, id))
    }

    /** Which chunks of `cs` the eviction loop drops. */
    ghost function FarMask(cs: seq<Ref>): (far: seq<bool>)
      reads this
      ensures |far| == |cs|
      ensures forall k :: 0 <= k < |cs| ==>
        far[k] == (cs[k] < |pool| && SqrPlayerDistanceFromCenter(pool[cs[k]].chunkID) > sqrViewDistance)
    {
      if cs == [] then []
      else [cs[0] < |pool| && SqrPlayerDistanceFromCenter(pool[cs[0]].chunkID) > sqrViewDistance] + FarMask(cs[1..])
    }

    /** `Start`: derives the view distances, makes one texture per detail step
        and streams the chunks around the initial viewer position. */
    constructor (detailLevels: seq<DetailLevel>, chunkScale: real)
      requires ValidTable(detailLevels) && chunkScale > 0.0
      ensures Valid() && Streamed()
      ensures this.detailLevels == detailLevels && this.chunkScale == chunkScale
      ensures viewerPosition == Vec2(0.0, 0.0) && oldViewerPosition == Vec2(0.0, 0.0)
    {
      var sqr, textures := MakeTextures(detailLevels);
      this.detailLevels := detailLevels;
      this.chunkScale := chunkScale;
      chunkSize := ChunkSize - 1;
      maxViewDistance := detailLevels[|detailLevels| - 1].maxDistance;
      chunksVisibleInViewDistance := CeilToInt(detailLevels[|detailLevels| - 1].maxDistance / (ChunkSize - 1) as real);
      sqrViewDistance := detailLevels[|detailLevels| - 1].maxDistance * detailLevels[|detailLevels| - 1].maxDistance;
      sqrViewDistances := sqr;
      mapDataTextures := textures;
      viewerPosition := Vec2(0.0, 0.0);
      oldViewerPosition := Vec2(0.0, 0.0);
      pool := [];
      waterPool := [];
      chunkDictionary := map[];
      chunks := [];
      recyclableChunks := [];
      waters := [];
      recyclableWaters := [];
      new;
      UpdateVisibleChunks();
    }

    /** `Update`: takes the viewer's planar position in chunk-local units and
        streams the chunks only once it has moved past the threshold. */
    method Update(viewer: Vec3)
      requires Valid()
      modifies this
      ensures Valid()
      ensures viewerPosition == Vec2(viewer.x / chunkScale, viewer.z / chunkScale)
      ensures Moved(old(oldViewerPosition), viewerPosition) ==> oldViewerPosition == viewerPosition && Streamed()
      ensures !Moved(old(oldViewerPosition), viewerPosition) ==>
        && oldViewerPosition == old(oldViewerPosition) && pool == old(pool) && waterPool == old(waterPool)
        && chunkDictionary == old(chunkDictionary) && chunks == old(chunks) && waters == old(waters)
        && recyclableChunks == old(recyclableChunks) && recyclableWaters == old(recyclableWaters)
    {
      viewerPosition := Vec2(viewer.x / chunkScale, viewer.z / chunkScale);
      if Moved(oldViewerPosition, viewerPosition) {
        oldViewerPosition := viewerPosition;
        UpdateVisibleChunks();
      }
    }

    /** `UpdateVisibleChunks`: evicts the chunks beyond the view distance, then
        scans the square window around the viewer's cell row by row, adding a chunk
        for each empty cell strictly inside the view distance and re-meshing each
        present chunk whose step changed. Chunk objects are never destroyed, and a
        new one is made only once the recycle queue is empty. */
    method UpdateVisibleChunks()
      requires Valid()
      modifies this
      ensures Valid() && Streamed()
      ensures forall id :: id in chunkDictionary <==>
        (id in old(chunkDictionary) && SqrPlayerDistanceFromCenter(id) <= sqrViewDistance) || SqrPlayerDistanceFromCenter(id) < sqrViewDistance
      ensures viewerPosition == old(viewerPosition) && oldViewerPosition == old(oldViewerPosition)
      ensures |pool| >= old(|pool|) && (|pool| > old(|pool|) ==> recyclableChunks == [])
    {
      EvictOutOfRange();
      ghost var d1 := chunkDictionary.Keys;

      var cx := RoundToInt(viewerPosition.x / chunkSize as real);
      var cy := RoundToInt(viewerPosition.y / chunkSize as real);
      var k := chunksVisibleInViewDistance;
      WindowCoversView();
      ScanWindow(cx, cy, k, d1);
    }

    /** The second loop of `UpdateVisibleChunks`: the rows of the window of
        half-width `k` around cell `(cx, cy)`, which holds the view, from the
        bottom up. Afterwards the live cells are those of `d1`, which the
        eviction left, and those strictly inside the view distance. */
    method ScanWindow(cx: int, cy: int, k: int, ghost d1: set<ChunkId>)
      requires k >= 0 && Valid() && InRange() && Lods().Keys == d1
      requires forall id | SqrPlayerDistanceFromCenter(id) < sqrViewDistance :: InWindow(id, cx, cy, k)
      modifies this
      ensures Valid() && Streamed()
      ensures forall id :: id in chunkDictionary <==> id in d1 || SqrPlayerDistanceFromCenter(id) < sqrViewDistance
      ensures viewerPosition == old(viewerPosition) && oldViewerPosition == old(oldViewerPosition)
      ensures |pool| >= old(|pool|) && (|pool| > old(|pool|) ==> recyclableChunks == [])
    {
      var y := -k;
      KeysStart(Lods(), d1, viewerPosition, cx, cy, k);
      while y <= k
        invariant Valid() && InRange()
        invariant viewerPosition == old(viewerPosition) && oldViewerPosition == old(oldViewerPosition)
        invariant -k <= y <= k + 1
        invariant forall id | InWindow(id, cx, cy, k) && id.y < cy + y :: SettledIn(Lods(), viewerPosition, id)
        invariant KeysSwept(Lods(), d1, viewerPosition, cx, cy, k, cy + y, cx - k)
        invariant |pool| >= old(|pool|) && (|pool| > old(|pool|) ==> recyclableChunks == [])
      {
        ScanRow(cx, cy, k, y, d1);
        y := y + 1;
      }
      KeysEnd(Lods(), d1, viewerPosition, cx, cy, k);
    }

    /** The scan window around the viewer's cell holds every cell strictly inside
        the view distance, and is never empty. */
    lemma WindowCoversView()
      requires ValidConfig()
      ensures chunksVisibleInViewDistance >= 1
      ensures var c := ViewerChunk(viewerPosition, chunkSize);
        forall id | SqrPlayerDistanceFromCenter(id) < sqrViewDistance :: InWindow(id, c.x, c.y, chunksVisibleInViewDistance)
    {
      assert maxViewDistance > 0.0 && chunkSize > 0;
      assert maxViewDistance / chunkSize as real > 0.0;
      forall id | SqrPlayerDistanceFromCenter(id) < sqrViewDistance
        ensures var c := ViewerChunk(viewerPosition, chunkSize); InWindow(id, c.x, c.y, chunksVisibleInViewDistance)
      {
        NearChunkInWindow(viewerPosition, id, chunkSize, maxViewDistance);
      }
    }

    /** One row `y` of the scan window, cells in ascending `x`: afterwards every
        cell of this row and of the rows before it is settled. */
    method ScanRow(cx: int, cy: int, k: int, y: int, ghost d1: set<ChunkId>)
      requires Valid() && InRange() && -k <= y <= k
      requires forall id | InWindow(id, cx, cy, k) && id.y < cy + y :: SettledIn(Lods(), viewerPosition, id)
      requires KeysSwept(Lods(), d1, viewerPosition, cx, cy, k, cy + y, cx - k)
      modifies this
      ensures Valid() && InRange()
      ensures viewerPosition == old(viewerPosition) && oldViewerPosition == old(oldViewerPosition)
      ensures forall id | InWindow(id, cx, cy, k) && id.y <= cy + y :: SettledIn(Lods(), viewerPosition, id)
      ensures KeysSwept(Lods(), d1, viewerPosition, cx, cy, k, cy + y + 1, cx - k)
      ensures |pool| >= old(|pool|) && (|pool| > old(|pool|) ==> recyclableChunks == [])
      ensures old(recyclableChunks) == [] ==> recyclableChunks == []
    {
      var x := -k;
      SweepStart(Lods(), viewerPosition, cx, cy, k, cy + y);
      while x <= k
        invariant Valid() && InRange()
        invariant viewerPosition == old(viewerPosition) && oldViewerPosition == old(oldViewerPosition)
        invariant -k <= x <= k + 1
        invariant Swept(Lods(), viewerPosition, cx, cy, k, cy + y, cx + x)
        invariant KeysSwept(Lods(), d1, viewerPosition, cx, cy, k, cy + y, cx + x)
        invariant |pool| >= old(|pool|) && (|pool| > old(|pool|) ==> recyclableChunks == [])
        invariant old(recyclableChunks) == [] ==> recyclableChunks == []
      {
        ScanCell(cx, cy, k, cy + y, cx + x, d1);
        x := x + 1;
      }
      SweepEnd(Lods(), viewerPosition, cx, cy, k, cy + y);
      KeysRowTurn(Lods(), d1, viewerPosition, cx, cy, k, cy + y);
    }

    /** One cell of the scan: the swept prefix moves one cell on. */
    method ScanCell(cx: int, cy: int, k: int, row: int, col: int, ghost d1: set<ChunkId>)
      requires InWindow(ChunkId(col, row), cx, cy, k)
      requires Valid() && InRange() && Swept(Lods(), viewerPosition, cx, cy, k, row, col)
      requires KeysSwept(Lods(), d1, viewerPosition, cx, cy, k, row, col)
      modifies this
      ensures Valid() && InRange() && Swept(Lods(), viewerPosition, cx, cy, k, row, col + 1)
      ensures KeysSwept(Lods(), d1, viewerPosition, cx, cy, k, row, col + 1)
      ensures viewerPosition == old(viewerPosition) && oldViewerPosition == old(oldViewerPosition)
      ensures |pool| >= old(|pool|) && (|pool| > old(|pool|) ==> old(recyclableChunks) == [] && recyclableChunks == [])
      ensures old(recyclableChunks) == [] ==> recyclableChunks == []
    {
      ghost var lods0 := Lods();
      ScanChunkId(ChunkId(col, row));
      SweepStep(lods0, Lods(), viewerPosition, cx, cy, k, row, col);
      KeysStep(lods0, Lods(), d1, viewerPosition, cx, cy, k, row, col);
    }

    /** Every cell of the window before cell `(col, row)` in scan order is settled. */
    ghost predicate Swept(lods: map<ChunkId, int>, viewer: Vec2, cx: int, cy: int, k: int, row: int, col: int) {
      forall id | InWindow(id, cx, cy, k) && (id.y < row || (id.y == row && id.x < col)) :: SettledIn(lods, viewer, id)
    }

    /** Before the first cell of a row, the swept prefix is the rows above it. */
    lemma SweepStart(lods: map<ChunkId, int>, viewer: Vec2, cx: int, cy: int, k: int, row: int)
      requires forall id | InWindow(id, cx, cy, k) && id.y < row :: SettledIn(lods, viewer, id)
      ensures Swept(lods, viewer, cx, cy, k, row, cx - k)
    {
    }

    /** Past the last cell of a row, the swept prefix takes in the whole row. */
    lemma SweepEnd(lods: map<ChunkId, int>, viewer: Vec2, cx: int, cy: int, k: int, row: int)
      requires Swept(lods, viewer, cx, cy, k, row, cx + k + 1)
      ensures forall id | InWindow(id, cx, cy, k) && id.y <= row :: SettledIn(lods, viewer, id)
    {
    }

    /** Settling cell `(col, row)` while changing the live steps nowhere else moves
        the swept prefix one cell on. */
    lemma SweepStep(lods0: map<ChunkId, int>, lods: map<ChunkId, int>, viewer: Vec2,
                    cx: int, cy: int, k: int, row: int, col: int)
      requires Swept(lods0, viewer, cx, cy, k, row, col)
      requires AgreeExcept(lods, lods0, ChunkId(col, row)) && SettledIn(lods, viewer, ChunkId(col, row))
      ensures Swept(lods, viewer, cx, cy, k, row, col + 1)
    {
      forall id | InWindow(id, cx, cy, k) && (id.y < row || (id.y == row && id.x < col + 1))
        ensures SettledIn(lods, viewer, id)
      {
        if id != ChunkId(col, row) {
          assert SettledIn(lods0, viewer, id);
        }
      }
    }

    /** The live cells are those of `d1`, the dictionary the eviction left, and
        the cells strictly inside the view distance among those of the window
        before cell `(col, row)` in scan order. */
    ghost predicate KeysSwept(lods: map<ChunkId, int>, d1: set<ChunkId>, viewer: Vec2,
                              cx: int, cy: int, k: int, row: int, col: int) {
      forall id :: id in lods <==>
        || id in d1
        || (&& InWindow(id, cx, cy, k) && (id.y < row || (id.y == row && id.x < col))
            && SqrDistanceFromCenter(viewer, id, chunkSize) < sqrViewDistance)
    }

    /** Before the scan, the live cells are those the eviction left. */
    lemma KeysStart(lods: map<ChunkId, int>, d1: set<ChunkId>, viewer: Vec2, cx: int, cy: int, k: int)
      requires lods.Keys == d1
      ensures KeysSwept(lods, d1, viewer, cx, cy, k, cy - k, cx - k)
    {
    }

    /** Past the last cell of a row, the scan goes on at the first cell of the next. */
    lemma KeysRowTurn(lods: map<ChunkId, int>, d1: set<ChunkId>, viewer: Vec2, cx: int, cy: int, k: int, row: int)
      requires KeysSwept(lods, d1, viewer, cx, cy, k, row, cx + k + 1)
      ensures KeysSwept(lods, d1, viewer, cx, cy, k, row + 1, cx - k)
    {
    }

    /** Scanning cell `(col, row)`, which gains a chunk exactly when it had one
        or lies strictly inside the view distance, with no other cell changing,
        moves the swept key set one cell on. */
    lemma KeysStep(lods0: map<ChunkId, int>, lods: map<ChunkId, int>, d1: set<ChunkId>, viewer: Vec2,
                   cx: int, cy: int, k: int, row: int, col: int)
      requires InWindow(ChunkId(col, row), cx, cy, k) && KeysSwept(lods0, d1, viewer, cx, cy, k, row, col)
      requires AgreeExcept(lods, lods0, ChunkId(col, row))
      requires ChunkId(col, row) in lods <==>
        ChunkId(col, row) in lods0 || SqrDistanceFromCenter(viewer, ChunkId(col, row), chunkSize) < sqrViewDistance
      ensures KeysSwept(lods, d1, viewer, cx, cy, k, row, col + 1)
    {
      forall id
        ensures id in lods <==>
          || id in d1
          || (&& InWindow(id, cx, cy, k) && (id.y < row || (id.y == row && id.x < col + 1))
              && SqrDistanceFromCenter(viewer, id, chunkSize) < sqrViewDistance)
      {
        if id != ChunkId(col, row) {
          assert id in lods <==> id in lods0;
        }
      }
    }

    /** Once every row of a window that holds the view is scanned, the live
        cells are those of `d1` and those strictly inside the view distance. */
    lemma KeysEnd(lods: map<ChunkId, int>, d1: set<ChunkId>, viewer: Vec2, cx: int, cy: int, k: int)
      requires KeysSwept(lods, d1, viewer, cx, cy, k, cy + k + 1, cx - k)
      requires forall id | SqrDistanceFromCenter(viewer, id, chunkSize) < sqrViewDistance :: InWindow(id, cx, cy, k)
      ensures forall id :: id in lods <==> id in d1 || SqrDistanceFromCenter(viewer, id, chunkSize) < sqrViewDistance
    {
    }

    /** The first loop of `UpdateVisibleChunks`: from the back of the list, every
        chunk beyond the view distance leaves the dictionary and joins the recycle
        queue, and its water joins the water queue. */
    method EvictOutOfRange()
      requires Valid()
      modifies this
      ensures Valid() && InRange()
      ensures viewerPosition == old(viewerPosition) && oldViewerPosition == old(oldViewerPosition)
      ensures pool == old(pool) && waterPool == old(waterPool)
      ensures var far := old(FarMask(chunks));
        && chunks == Keep(old(chunks), far)
        && recyclableChunks == old(recyclableChunks) + DroppedBackward(old(chunks), far)
        && waters == Keep(old(waters), far)
        && recyclableWaters == old(recyclableWaters) + DroppedBackward(old(waters), far)
      ensures forall id :: id in chunkDictionary <==>
        id in old(chunkDictionary) && SqrPlayerDistanceFromCenter(id) <= sqrViewDistance
      ensures forall id | id in chunkDictionary :: chunkDictionary[id] == old(chunkDictionary[id])
    {
      var cs, ws, rc0, rw0, d0 := chunks, waters, recyclableChunks, recyclableWaters, chunkDictionary;
      ghost var far := FarMask(cs);
      var list, queue, waterList, waterQueue, dictionary, removed := EvictScan(cs, ws, rc0, rw0, d0, far);
      EvictedValid(cs, ws, rc0, rw0, d0, far, list, queue, waterList, waterQueue, dictionary, removed);
      Install(pool, waterPool, dictionary, list, queue, waterList, waterQueue);
    }

    /** The loop of the eviction, on copies of the lists, queues and dictionary. */
    method EvictScan(cs: seq<Ref>, ws: seq<Ref>, rc0: seq<Ref>, rw0: seq<Ref>,
                     d0: map<ChunkId, Ref>, ghost far: seq<bool>)
      returns (list: seq<Ref>, queue: seq<Ref>, waterList: seq<Ref>, waterQueue: seq<Ref>,
               dictionary: map<ChunkId, Ref>, ghost removed: set<ChunkId>)
      requires |cs| == |ws| && |rc0| == |rw0| && |far| == |cs|
      requires forall h | h in cs :: h < |pool|
      requires Watered(chunkSize, chunkScale, pool, waterPool, cs, ws)
      requires forall k :: 0 <= k < |cs| ==> far[k] == (cs[k] < |pool| && SqrPlayerDistanceFromCenter(pool[cs[k]].chunkID) > sqrViewDistance)
      ensures list == Keep(cs, far) && queue == rc0 + DroppedBackward(cs, far)
      ensures waterList == Keep(ws, far) && waterQueue == rw0 + DroppedBackward(ws, far)
      ensures |list| == |waterList| && |queue| == |waterQueue|
      ensures Watered(chunkSize, chunkScale, pool, waterPool, list, waterList)
      ensures forall id | id in removed :: SqrPlayerDistanceFromCenter(id) > sqrViewDistance
      ensures forall k | 0 <= k < |cs| && far[k] :: pool[cs[k]].chunkID in removed
      ensures forall id :: id in dictionary <==> id in d0 && id !in removed
      ensures forall id | id in dictionary :: dictionary[id] == d0[id]
    {
      removed := {};
      list, queue, waterList, waterQueue, dictionary := cs, rc0, ws, rw0, d0;
      var i := |list| - 1;
      EvictStart(cs, ws, rc0, rw0, d0, far);
      while i >= 0
        invariant EvictInv(cs, ws, rc0, rw0, d0, far, i, list, queue, waterList, waterQueue, dictionary, removed)
      {
        EvictAt(cs, ws, rc0, rw0, d0, far, i, list, queue, waterList, waterQueue, dictionary, removed);
        var chunk := list[i];
        var sqrDist := SqrPlayerDistanceFromCenter(pool[chunk].chunkID);
        if sqrDist > sqrViewDistance {
          EvictDrop(cs, ws, rc0, rw0, d0, far, i, list, queue, waterList, waterQueue, dictionary, removed);
          removed := removed + {pool[chunk].chunkID};
          dictionary := dictionary - {pool[chunk].chunkID};
          queue := queue + [chunk];
          list := RemoveAt(list, i);
          waterQueue := waterQueue + [waterList[i]];
          waterList := RemoveAt(waterList, i);
        } else {
          EvictKeep(cs, ws, rc0, rw0, d0, far, i, list, queue, waterList, waterQueue, dictionary, removed);
        }
        i := i - 1;
      }
      EvictEnd(cs, ws, rc0, rw0, d0, far, list, queue, waterList, waterQueue, dictionary, removed);
    }

    /** What the eviction loop keeps before the step at `i`: the unscanned prefix
        followed by the kept suffix, the dropped suffix queued in backward order,
        waters still paired with their chunks, and the dictionary less exactly the
        far ids met so far. */
    ghost predicate EvictInv(cs: seq<Ref>, ws: seq<Ref>, rc0: seq<Ref>, rw0: seq<Ref>, d0: map<ChunkId, Ref>,
                             far: seq<bool>, i: int, list: seq<Ref>, queue: seq<Ref>, waterList: seq<Ref>,
                             waterQueue: seq<Ref>, dictionary: map<ChunkId, Ref>, removed: set<ChunkId>)
      reads this
    {
      && -1 <= i < |cs| && |ws| == |cs| && |far| == |cs| && |rc0| == |rw0|
      && list == cs[..i + 1] + Keep(cs[i + 1..], far[i + 1..])
      && waterList == ws[..i + 1] + Keep(ws[i + 1..], far[i + 1..])
      && queue == rc0 + DroppedBackward(cs[i + 1..], far[i + 1..])
      && waterQueue == rw0 + DroppedBackward(ws[i + 1..], far[i + 1..])
      && |list| == |waterList| && |queue| == |waterQueue|
      && Watered(chunkSize, chunkScale, pool, waterPool, list, waterList)
      && (forall id | id in removed :: SqrPlayerDistanceFromCenter(id) > sqrViewDistance)
      && (forall k | i + 1 <= k < |cs| && far[k] :: cs[k] < |pool| && pool[cs[k]].chunkID in removed)
      && (forall id :: id in dictionary <==> id in d0 && id !in removed)
      && (forall id | id in dictionary :: dictionary[id] == d0[id])
    }

    /** Before the first step nothing is scanned. */
    lemma EvictStart(cs: seq<Ref>, ws: seq<Ref>, rc0: seq<Ref>, rw0: seq<Ref>, d0: map<ChunkId, Ref>, far: seq<bool>)
      requires |cs| == |ws| && |rc0| == |rw0| && |far| == |cs|
      requires Watered(chunkSize, chunkScale, pool, waterPool, cs, ws)
      ensures EvictInv(cs, ws, rc0, rw0, d0, far, |cs| - 1, cs, rc0, ws, rw0, d0, {})
    {
      assert cs[..|cs|] == cs && ws[..|ws|] == ws;
      assert cs + [] == cs && ws + [] == ws && rc0 + [] == rc0 && rw0 + [] == rw0;
    }

    /** At step `i` the list still holds the `i`th chunk and water at index `i`. */
    lemma EvictAt(cs: seq<Ref>, ws: seq<Ref>, rc0: seq<Ref>, rw0: seq<Ref>, d0: map<ChunkId, Ref>,
                  far: seq<bool>, i: int, list: seq<Ref>, queue: seq<Ref>, waterList: seq<Ref>,
                  waterQueue: seq<Ref>, dictionary: map<ChunkId, Ref>, removed: set<ChunkId>)
      requires EvictInv(cs, ws, rc0, rw0, d0, far, i, list, queue, waterList, waterQueue, dictionary, removed)
      requires 0 <= i
      requires forall h | h in cs :: h < |pool|
      requires forall k :: 0 <= k < |cs| ==> far[k] == (cs[k] < |pool| && SqrPlayerDistanceFromCenter(pool[cs[k]].chunkID) > sqrViewDistance)
      ensures i < |list| && list[i] == cs[i] && list[i] < |pool| && i < |waterList| && waterList[i] == ws[i]
      ensures far[i] <==> SqrPlayerDistanceFromCenter(pool[list[i]].chunkID) > sqrViewDistance
    {
      assert cs[i] in cs;
    }

    /** A far chunk at `i` leaves the list and the dictionary and is queued, with its water. */
    lemma EvictDrop(cs: seq<Ref>, ws: seq<Ref>, rc0: seq<Ref>, rw0: seq<Ref>, d0: map<ChunkId, Ref>,
                    far: seq<bool>, i: int, list: seq<Ref>, queue: seq<Ref>, waterList: seq<Ref>,
                    waterQueue: seq<Ref>, dictionary: map<ChunkId, Ref>, removed: set<ChunkId>)
      requires EvictInv(cs, ws, rc0, rw0, d0, far, i, list, queue, waterList, waterQueue, dictionary, removed)
      requires 0 <= i && far[i] && i < |list| && list[i] == cs[i] && list[i] < |pool|
      requires SqrPlayerDistanceFromCenter(pool[list[i]].chunkID) > sqrViewDistance
      ensures EvictInv(cs, ws, rc0, rw0, d0, far, i - 1, RemoveAt(list, i), queue + [list[i]],
                       RemoveAt(waterList, i), waterQueue + [waterList[i]],
                       dictionary - {pool[list[i]].chunkID}, removed + {pool[list[i]].chunkID})
    {
      ScanBackDrop(cs, far, i, list, queue, rc0);
      ScanBackDrop(ws, far, i, waterList, waterQueue, rw0);
      WateredRemoveAt(chunkSize, chunkScale, pool, waterPool, list, waterList, i);
    }

    /** A chunk within range at `i` stays where it is. */
    lemma EvictKeep(cs: seq<Ref>, ws: seq<Ref>, rc0: seq<Ref>, rw0: seq<Ref>, d0: map<ChunkId, Ref>,
                    far: seq<bool>, i: int, list: seq<Ref>, queue: seq<Ref>, waterList: seq<Ref>,
                    waterQueue: seq<Ref>, dictionary: map<ChunkId, Ref>, removed: set<ChunkId>)
      requires EvictInv(cs, ws, rc0, rw0, d0, far, i, list, queue, waterList, waterQueue, dictionary, removed)
      requires 0 <= i && !far[i]
      ensures EvictInv(cs, ws, rc0, rw0, d0, far, i - 1, list, queue, waterList, waterQueue, dictionary, removed)
    {
      ScanBackKeep(cs, far, i, list, queue, rc0);
      ScanBackKeep(ws, far, i, waterList, waterQueue, rw0);
    }

    /** Once every chunk is scanned, the list keeps exactly the chunks within range. */
    lemma EvictEnd(cs: seq<Ref>, ws: seq<Ref>, rc0: seq<Ref>, rw0: seq<Ref>, d0: map<ChunkId, Ref>,
                   far: seq<bool>, list: seq<Ref>, queue: seq<Ref>, waterList: seq<Ref>,
                   waterQueue: seq<Ref>, dictionary: map<ChunkId, Ref>, removed: set<ChunkId>)
      requires EvictInv(cs, ws, rc0, rw0, d0, far, -1, list, queue, waterList, waterQueue, dictionary, removed)
      ensures list == Keep(cs, far) && queue == rc0 + DroppedBackward(cs, far)
      ensures waterList == Keep(ws, far) && waterQueue == rw0 + DroppedBackward(ws, far)
      ensures |list| == |waterList| && |queue| == |waterQueue|
      ensures Watered(chunkSize, chunkScale, pool, waterPool, list, waterList)
      ensures forall id | id in removed :: SqrPlayerDistanceFromCenter(id) > sqrViewDistance
      ensures forall k | 0 <= k < |cs| && far[k] :: pool[cs[k]].chunkID in removed
      ensures forall id :: id in dictionary <==> id in d0 && id !in removed
      ensures forall id | id in dictionary :: dictionary[id] == d0[id]
    {
      assert cs[..0] == [] && ws[..0] == [] && cs[0..] == cs && ws[0..] == ws && far[0..] == far;
    }

    /** The lists, queues and dictionary the eviction loop leaves are valid again,
        and keep only chunks within the view distance. */
    lemma EvictedValid(cs: seq<Ref>, ws: seq<Ref>, rc0: seq<Ref>, rw0: seq<Ref>,
                       d0: map<ChunkId, Ref>, far: seq<bool>,
                       list: seq<Ref>, queue: seq<Ref>, waterList: seq<Ref>, waterQueue: seq<Ref>,
                       dictionary: map<ChunkId, Ref>, removed: set<ChunkId>)
      requires ValidState(chunkSize, chunkScale, mapDataTextures, pool, waterPool, cs, rc0, ws, rw0, d0)
      requires far == FarMask(cs)
      requires list == Keep(cs, far) && queue == rc0 + DroppedBackward(cs, far)
      requires waterList == Keep(ws, far) && waterQueue == rw0 + DroppedBackward(ws, far)
      requires |list| == |waterList| && |queue| == |waterQueue|
      requires Watered(chunkSize, chunkScale, pool, waterPool, list, waterList)
      requires forall id | id in removed :: SqrPlayerDistanceFromCenter(id) > sqrViewDistance
      requires forall k | 0 <= k < |cs| && far[k] :: pool[cs[k]].chunkID in removed
      requires forall id :: id in dictionary <==> id in d0 && id !in removed
      requires forall id | id in dictionary :: dictionary[id] == d0[id]
      ensures ValidState(chunkSize, chunkScale, mapDataTextures, pool, waterPool, list, queue, waterList, waterQueue, dictionary)
      ensures InRangeOf(viewerPosition, pool, list)
      ensures forall id :: id in dictionary <==> id in d0 && SqrPlayerDistanceFromCenter(id) <= sqrViewDistance
    {
      EvictedLists(chunkSize, mapDataTextures, pool, waterPool, cs, rc0, ws, rw0, far, list, queue, waterList, waterQueue);
      EvictedIndex(cs, d0, far, list, dictionary, removed);
    }

    /** The dictionary after the eviction loop indexes exactly the kept chunks,
        which all lie within the view distance. */
    lemma EvictedIndex(cs: seq<Ref>, d0: map<ChunkId, Ref>, far: seq<bool>, list: seq<Ref>,
                       dictionary: map<ChunkId, Ref>, removed: set<ChunkId>)
      requires Indexed(pool, cs, d0) && forall h | h in cs :: h < |pool|
      requires far == FarMask(cs) && list == Keep(cs, far)
      requires forall id | id in removed :: SqrPlayerDistanceFromCenter(id) > sqrViewDistance
      requires forall k | 0 <= k < |cs| && far[k] :: pool[cs[k]].chunkID in removed
      requires forall id :: id in dictionary <==> id in d0 && id !in removed
      requires forall id | id in dictionary :: dictionary[id] == d0[id]
      ensures Indexed(pool, list, dictionary) && InRangeOf(viewerPosition, pool, list)
      ensures forall id :: id in dictionary <==> id in d0 && SqrPlayerDistanceFromCenter(id) <= sqrViewDistance
    {
      forall h | h in list
        ensures h in cs && SqrPlayerDistanceFromCenter(pool[h].chunkID) <= sqrViewDistance
      {
        KeepMembership(cs, far, h);
      }
      EvictedKeys(cs, d0, far, dictionary, removed);
      EvictedEntries(cs, d0, far, list, dictionary);
    }

    /** The ids left in the dictionary are exactly the old ones within the view distance. */
    lemma EvictedKeys(cs: seq<Ref>, d0: map<ChunkId, Ref>, far: seq<bool>,
                      dictionary: map<ChunkId, Ref>, removed: set<ChunkId>)
      requires forall h | h in cs :: h < |pool|
      requires far == FarMask(cs)
      requires forall id | id in d0 :: d0[id] in cs && pool[d0[id]].chunkID == id
      requires forall id | id in removed :: SqrPlayerDistanceFromCenter(id) > sqrViewDistance
      requires forall k | 0 <= k < |cs| && far[k] :: pool[cs[k]].chunkID in removed
      requires forall id :: id in dictionary <==> id in d0 && id !in removed
      ensures forall id :: id in dictionary <==> id in d0 && SqrPlayerDistanceFromCenter(id) <= sqrViewDistance
    {
      forall id | id in d0 && SqrPlayerDistanceFromCenter(id) > sqrViewDistance
        ensures id in removed
      {
        var k :| 0 <= k < |cs| && cs[k] == d0[id];
        assert far[k];
      }
    }

    /** Every entry left in the dictionary is a kept chunk. */
    lemma EvictedEntries(cs: seq<Ref>, d0: map<ChunkId, Ref>, far: seq<bool>,
                         list: seq<Ref>, dictionary: map<ChunkId, Ref>)
      requires forall h | h in cs :: h < |pool|
      requires far == FarMask(cs)
      requires list == Keep(cs, far)
      requires forall id | id in d0 :: d0[id] in cs && pool[d0[id]].chunkID == id
      requires forall id | id in dictionary :: id in d0 && SqrPlayerDistanceFromCenter(id) <= sqrViewDistance
      requires forall id | id in dictionary :: dictionary[id] == d0[id]
      ensures forall id | id in dictionary :: dictionary[id] in list && pool[dictionary[id]].chunkID == id
    {
      forall id | id in dictionary
        ensures dictionary[id] in list
      {
        var k :| 0 <= k < |cs| && cs[k] == d0[id];
        KeepMembership(cs, far, d0[id]);
      }
    }

    /** `GetLODFromID`: the step of the first detail level whose squared
        distance exceeds the chunk's, or the last level's step. */
    method GetLODFromID(chunkID: ChunkId) returns (lod: int)
      requires ValidConfig()
      ensures lod == SelectLod(detailLevels, SqrPlayerDistanceFromCenter(chunkID))
    {
      var sqrDist := SqrPlayerDistanceFromCenter(chunkID);
      var i := 0;
      while i < |detailLevels| - 1
        invariant 0 <= i <= |detailLevels| - 1
        invariant forall j :: 0 <= j < i ==> sqrDist >= SqrDistanceOf(detailLevels[j])
      {
        if sqrDist < sqrViewDistances[i] {
          TierUnique(detailLevels, sqrDist, i);
          return detailLevels[i].step;
        }
        i := i + 1;
      }
      TierUnique(detailLevels, sqrDist, |detailLevels| - 1);
      return detailLevels[|detailLevels| - 1].step;
    }

    /** One cell of the scan window: an empty cell strictly inside the view
        distance gets a chunk, a present chunk whose step changed is re-meshed,
        and a present chunk whose step is unchanged is left as it is; no other
        cell changes. */
    method ScanChunkId(chunkID: ChunkId)
      requires Valid() && InRange()
      modifies this
      ensures Valid() && InRange()
      ensures viewerPosition == old(viewerPosition) && oldViewerPosition == old(oldViewerPosition)
      ensures SettledIn(Lods(), viewerPosition, chunkID) && AgreeExcept(Lods(), old(Lods()), chunkID)
      ensures chunkID in chunkDictionary <==>
        chunkID in old(chunkDictionary) || SqrPlayerDistanceFromCenter(chunkID) < sqrViewDistance
      ensures chunkID in old(chunkDictionary) ==>
        && chunks == old(chunks) && recyclableChunks == old(recyclableChunks)
        && (old(Lods()[chunkID]) == SelectLod(detailLevels, SqrPlayerDistanceFromCenter(chunkID)) ==> pool == old(pool))
      ensures |pool| >= old(|pool|) && (|pool| > old(|pool|) ==> old(recyclableChunks) == [] && recyclableChunks == [])
      ensures old(recyclableChunks) == [] ==> recyclableChunks == []
    {
      if chunkID !in chunkDictionary {
        var sqrDist := SqrPlayerDistanceFromCenter(chunkID);
        if sqrDist < sqrViewDistance {
          AddChunk(chunkID);
        }
      } else {
        RefreshChunk(chunkID);
      }
    }

    /** The body of the scan for a cell that has a chunk: the chunk is re-meshed in
        place when the step its distance selects differs from its own, and left
        as it is otherwise. */
    method RefreshChunk(chunkID: ChunkId)
      requires Valid() && InRange() && chunkID in chunkDictionary
      modifies this
      ensures Valid() && InRange()
      ensures viewerPosition == old(viewerPosition) && oldViewerPosition == old(oldViewerPosition)
      ensures chunkID in Lods() && Lods()[chunkID] == SelectLod(detailLevels, SqrPlayerDistanceFromCenter(chunkID))
      ensures AgreeExcept(Lods(), old(Lods()), chunkID)
      ensures chunkDictionary == old(chunkDictionary) && chunks == old(chunks) && recyclableChunks == old(recyclableChunks)
      ensures |pool| == old(|pool|)
      ensures old(Lods()[chunkID]) == SelectLod(detailLevels, SqrPlayerDistanceFromCenter(chunkID)) ==> pool == old(pool)
    {
      var chunk := chunkDictionary[chunkID];
      var updatedLOD := GetLODFromID(chunkID);
      if pool[chunk].lod != updatedLOD {
        assert detailLevels[Tier(detailLevels, SqrPlayerDistanceFromCenter(chunkID))].step == updatedLOD;
        var c := UpdateLOD(pool[chunk], updatedLOD);
        var meshed := UpdateMesh(c, mapDataTextures[updatedLOD]);
        RemeshedValid(chunkSize, chunkScale, mapDataTextures, pool, waterPool,
                      chunks, recyclableChunks, waters, recyclableWaters, chunkDictionary, chunk, meshed);
        RemeshedLods(pool, chunks, chunkDictionary, chunkID, meshed);
        RemeshedInRange(viewerPosition, pool, chunks, chunk, meshed);
        Install(pool[chunk := meshed], waterPool, chunkDictionary, chunks, recyclableChunks, waters, recyclableWaters);
      }
    }

    /** Replacing a chunk by one at the same cell keeps the live chunks in range. */
    lemma RemeshedInRange(viewer: Vec2, pool: seq<Chunk>, cs: seq<Ref>, h: Ref, c: Chunk)
      requires InRangeOf(viewer, pool, cs) && h < |pool| && c.chunkID == pool[h].chunkID
      ensures InRangeOf(viewer, pool[h := c], cs)
    {
    }

    /** Re-meshing the chunk at `id` changes the step of that cell only. */
    lemma RemeshedLods(pool: seq<Chunk>, cs: seq<Ref>, d: map<ChunkId, Ref>, id: ChunkId, c: Chunk)
      requires Indexed(pool, cs, d) && id in d
      ensures id in LodsOf(pool[d[id] := c], d) && LodsOf(pool[d[id] := c], d)[id] == c.lod
      ensures AgreeExcept(LodsOf(pool[d[id] := c], d), LodsOf(pool, d), id)
    {
      forall x | x in d && x != id
        ensures d[x] != d[id]
      {
        assert pool[d[x]].chunkID == x;
      }
    }

    /** The body of the scan for an empty cell strictly inside the view distance:
        the oldest queued chunk and water are reused when there is one, otherwise
        new ones are made; the chunk is registered and meshed at its step. */
    method AddChunk(chunkID: ChunkId)
      requires Valid() && InRange()
      requires chunkID !in chunkDictionary && SqrPlayerDistanceFromCenter(chunkID) < sqrViewDistance
      modifies this
      ensures Valid() && InRange()
      ensures viewerPosition == old(viewerPosition) && oldViewerPosition == old(oldViewerPosition)
      ensures chunkID in Lods() && Lods()[chunkID] == SelectLod(detailLevels, SqrPlayerDistanceFromCenter(chunkID))
      ensures AgreeExcept(Lods(), old(Lods()), chunkID)
      ensures old(recyclableChunks) != [] ==>
        && chunks == old(chunks) + [old(recyclableChunks[0])] && recyclableChunks == old(recyclableChunks[1..])
        && waters == old(waters) + [old(recyclableWaters[0])] && recyclableWaters == old(recyclableWaters[1..])
        && |pool| == old(|pool|) && |waterPool| == old(|waterPool|)
      ensures old(recyclableChunks) == [] ==>
        && chunks == old(chunks) + [old(|pool|)] && recyclableChunks == []
        && waters == old(waters) + [old(|waterPool|)] && recyclableWaters == []
        && |pool| == old(|pool|) + 1 && |waterPool| == old(|waterPool|) + 1
    {
      var currentLOD := GetLODFromID(chunkID);
      assert detailLevels[Tier(detailLevels, SqrPlayerDistanceFromCenter(chunkID))].step == currentLOD;
      var p, wp, d, cs, rc, ws, rw, chunk := PlaceChunk(chunkSize, chunkScale, mapDataTextures, pool, waterPool,
        chunks, recyclableChunks, waters, recyclableWaters, chunkDictionary, chunkID, currentLOD);
      AddedLods(pool, p, chunks, chunkDictionary, chunkID, chunk);
      AddedInRange(viewerPosition, pool, p, chunks, chunk);
      Install(p, wp, d, cs, rc, ws, rw);
    }

    /** Stores new object tables, dictionary, lists and queues, all at once. */
    method Install(p: seq<Chunk>, wp: seq<Vec3>, d: map<ChunkId, Ref>, cs: seq<Ref>, rc: seq<Ref>, ws: seq<Ref>, rw: seq<Ref>)
      modifies this
      ensures pool == p && waterPool == wp && chunkDictionary == d && chunks == cs && recyclableChunks == rc
      ensures waters == ws && recyclableWaters == rw
      ensures viewerPosition == old(viewerPosition) && oldViewerPosition == old(oldViewerPosition)
    {
      pool, waterPool, chunkDictionary, chunks, recyclableChunks, waters, recyclableWaters := p, wp, d, cs, rc, ws, rw;
    }

    /** Registering chunk `h` for the empty cell `id` changes the steps of live
        chunks at `id` only. */
    lemma AddedLods(pool0: seq<Chunk>, pool: seq<Chunk>, cs: seq<Ref>, d: map<ChunkId, Ref>, id: ChunkId, h: Ref)
      requires Indexed(pool0, cs, d) && id !in d && h !in cs
      requires SameExcept(pool0, pool, h) && h < |pool|
      ensures id in LodsOf(pool, d[id := h]) && LodsOf(pool, d[id := h])[id] == pool[h].lod
      ensures AgreeExcept(LodsOf(pool, d[id := h]), LodsOf(pool0, d), id)
    {
      forall x | x in d
        ensures d[x] != h
      {
        assert d[x] in cs;
      }
    }

    /** Registering chunk `h` within the view distance keeps the live chunks in range. */
    lemma AddedInRange(viewer: Vec2, pool0: seq<Chunk>, pool: seq<Chunk>, cs: seq<Ref>, h: Ref)
      requires InRangeOf(viewer, pool0, cs) && h !in cs && (forall x | x in cs :: x < |pool0|)
      requires SameExcept(pool0, pool, h) && h < |pool|
      requires SqrDistanceFromCenter(viewer, pool[h].chunkID, chunkSize) <= sqrViewDistance
      ensures InRangeOf(viewer, pool, cs + [h])
    {
      forall x | x in cs + [h] && x < |pool|
        ensures SqrDistanceFromCenter(viewer, pool[x].chunkID, chunkSize) <= sqrViewDistance
      {
        if x != h {
          assert x in cs;
        }
      }
    }

    /** Live chunks hold pairwise different ids: a cell never has two chunks. */
    lemma OneChunkPerCell(i: int, j: int)
      requires Valid() && 0 <= i < j < |chunks|
      ensures pool[chunks[i]].chunkID != pool[chunks[j]].chunkID
    {
      assert (chunks + recyclableChunks)[i] == chunks[i] && (chunks + recyclableChunks)[j] == chunks[j];
      assert chunks[i] in chunks && chunks[j] in chunks;
    }

    /** Every chunk object ever made is either live or queued, never both. */
    lemma EachChunkOnce(h: Ref)
      requires Valid() && h < |pool|
      ensures h in chunks <==> h !in recyclableChunks
    {
      assert h in chunks + recyclableChunks;
      DistinctSplit(chunks, recyclableChunks, h);
    }
  }

  /** The body of `AddChunk` on the object tables: the oldest queued chunk and
      water are moved to cell `chunkID` when there is one, otherwise new ones are
      made there; the chunk joins the dictionary and the live list, its water the
      water list, and the chunk is meshed at step `lod`. */
  method PlaceChunk(size: int, scale: real, textures: map<int, RenderTexture>,
                    pool: seq<Chunk>, waterPool: seq<Vec3>,
                    cs0: seq<Ref>, rc0: seq<Ref>, ws0: seq<Ref>, rw0: seq<Ref>, d0: map<ChunkId, Ref>,
                    chunkID: ChunkId, lod: int)
    returns (p: seq<Chunk>, wp: seq<Vec3>, d: map<ChunkId, Ref>, cs: seq<Ref>, rc: seq<Ref>, ws: seq<Ref>, rw: seq<Ref>,
             chunk: Ref)
    requires ValidState(size, scale, textures, pool, waterPool, cs0, rc0, ws0, rw0, d0)
    requires chunkID !in d0 && lod >= 1 && lod in textures
    ensures ValidState(size, scale, textures, p, wp, cs, rc, ws, rw, d)
    ensures chunk < |p| && chunk !in cs0 && SameExcept(pool, p, chunk)
    ensures p[chunk].chunkID == chunkID && p[chunk].lod == lod
    ensures d == d0[chunkID := chunk] && cs == cs0 + [chunk]
    ensures rc0 != [] ==>
      && chunk == rc0[0] && rc == rc0[1..] && ws == ws0 + [rw0[0]] && rw == rw0[1..]
      && |p| == |pool| && |wp| == |waterPool|
    ensures rc0 == [] ==>
      && chunk == |pool| && rc == [] && ws == ws0 + [|waterPool|] && rw == []
      && |p| == |pool| + 1 && |wp| == |waterPool| + 1
  {
    p, wp, d, cs, rc, ws, rw := pool, waterPool, d0, cs0, rc0, ws0, rw0;
    var water: Ref;
    if |rc| > 0 {
      chunk := rc[0];
      assert chunk in rc && rw[0] in rw;
      rc := rc[1..];
      p := p[chunk := UpdateData(p[chunk], chunkID, size, lod)];
      water := rw[0];
      rw := rw[1..];
      // UpdateWaterPosition
      wp := wp[water := WaterPosition(chunkID, size, scale)];
    } else {
      chunk := |p|;
      p := p + [NewChunk(chunkID, size, lod)];
      // CreateWater
      water := |wp|;
      wp := wp + [WaterPosition(chunkID, size, scale)];
    }
    d := d[chunkID := chunk];
    cs := cs + [chunk];
    ws := ws + [water];
    var meshed := UpdateMesh(p[chunk], textures[lod]);
    p := p[chunk := meshed];
    if |rc0| > 0 {
      ReusedValid(size, scale, textures, pool, waterPool, cs0, rc0, ws0, rw0, d0, chunkID, p, wp);
    } else {
      CreatedValid(size, scale, textures, pool, waterPool, cs0, ws0, d0, chunkID, p, wp);
    }
  }

  /** Moving the flagged live chunks, and their waters, to the back of the
      queues, keeping the rest in order, leaves every object counted once, in
      range and meshed. */
  lemma EvictedLists(size: int, textures: map<int, RenderTexture>, pool: seq<Chunk>, waterPool: seq<Vec3>,
                     cs: seq<Ref>, rc0: seq<Ref>, ws: seq<Ref>, rw0: seq<Ref>, far: seq<bool>,
                     list: seq<Ref>, queue: seq<Ref>, waterList: seq<Ref>, waterQueue: seq<Ref>)
    requires Bounded(pool, waterPool, cs, rc0, ws, rw0)
    requires Conserved(|pool|, cs, rc0) && Conserved(|waterPool|, ws, rw0)
    requires Meshed(size, textures, pool, cs, rc0)
    requires |far| == |cs| == |ws|
    requires list == Keep(cs, far) && queue == rc0 + DroppedBackward(cs, far)
    requires waterList == Keep(ws, far) && waterQueue == rw0 + DroppedBackward(ws, far)
    requires |list| == |waterList| && |queue| == |waterQueue|
    ensures Bounded(pool, waterPool, list, queue, waterList, waterQueue)
    ensures Conserved(|pool|, list, queue) && Conserved(|waterPool|, waterList, waterQueue)
    ensures Meshed(size, textures, pool, list, queue)
  {
    KeepDroppedDistinct(cs, rc0, far);
    KeepDroppedDistinct(ws, rw0, far);
    ConservedPermuted(|pool|, cs, rc0, list, queue);
    ConservedPermuted(|waterPool|, ws, rw0, waterList, waterQueue);
    PermutedMembers(list + queue, cs + rc0);
    PermutedMembers(waterList + waterQueue, ws + rw0);
    forall h | h in list
      ensures h in cs
    {
      KeepMembership(cs, far, h);
    }
    BoundedPermuted(pool, waterPool, cs, rc0, ws, rw0, list, queue, waterList, waterQueue);
    MeshedKept(size, textures, pool, cs, rc0, list, queue);
  }

  /** Removing the chunk and the water at the same index keeps the others paired. */
  lemma WateredRemoveAt(size: int, scale: real, pool: seq<Chunk>, waterPool: seq<Vec3>, cs: seq<Ref>, ws: seq<Ref>, i: int)
    requires Watered(size, scale, pool, waterPool, cs, ws) && |cs| == |ws| && 0 <= i < |cs|
    ensures Watered(size, scale, pool, waterPool, RemoveAt(cs, i), RemoveAt(ws, i))
  {
    forall j | 0 <= j < |cs| - 1
      ensures RemoveAt(cs, i)[j] == cs[if j < i then j else j + 1] && RemoveAt(ws, i)[j] == ws[if j < i then j else j + 1]
    {
      RemoveAtIndex(cs, i, j);
      RemoveAtIndex(ws, i, j);
    }
  }

  /** A permutation of the live and queued objects conserves them. */
  lemma ConservedPermuted(n: nat, live0: seq<Ref>, queued0: seq<Ref>, live: seq<Ref>, queued: seq<Ref>)
    requires Conserved(n, live0, queued0) && multiset(live + queued) == multiset(live0 + queued0)
    ensures Conserved(n, live, queued)
  {
    DistinctPermutation(live0 + queued0, live + queued);
    PermutedMembers(live + queued, live0 + queued0);
  }

  /** Lists and queues made of the old objects, paired up again, stay in range. */
  lemma BoundedPermuted(pool: seq<Chunk>, waterPool: seq<Vec3>,
                        cs0: seq<Ref>, rc0: seq<Ref>, ws0: seq<Ref>, rw0: seq<Ref>,
                        cs: seq<Ref>, rc: seq<Ref>, ws: seq<Ref>, rw: seq<Ref>)
    requires Bounded(pool, waterPool, cs0, rc0, ws0, rw0)
    requires forall h | h in cs + rc :: h in cs0 + rc0
    requires forall h | h in ws + rw :: h in ws0 + rw0
    requires |cs| == |ws| && |rc| == |rw|
    ensures Bounded(pool, waterPool, cs, rc, ws, rw)
  {
    forall h | h in cs || h in rc
      ensures h < |pool|
    {
      assert h in cs + rc;
      assert h in cs0 || h in rc0;
    }
    forall h | h in ws || h in rw
      ensures h < |waterPool|
    {
      assert h in ws + rw;
      assert h in ws0 || h in rw0;
    }
  }

  /** Keeping live chunks from the old live list, with queued ones from the old
      chunks, keeps every chunk meshed. */
  lemma MeshedKept(size: int, textures: map<int, RenderTexture>, pool: seq<Chunk>,
                   cs0: seq<Ref>, rc0: seq<Ref>, cs: seq<Ref>, rc: seq<Ref>)
    requires Meshed(size, textures, pool, cs0, rc0)
    requires forall h | h in cs :: h in cs0
    requires forall h | h in cs + rc :: h in cs0 + rc0
    ensures Meshed(size, textures, pool, cs, rc)
  {
  }

  /** The table `pool` differs from `pool0` at most at `h` and in objects made after it. */
  ghost predicate SameExcept<T>(pool0: seq<T>, pool: seq<T>, h: Ref) {
    |pool| >= |pool0| && forall x | 0 <= x < |pool0| && x != h :: pool[x] == pool0[x]
  }

  /** Re-meshing a live chunk at a new step, in place, keeps the bookkeeping valid. */
  lemma RemeshedValid(size: int, scale: real, textures: map<int, RenderTexture>,
                      pool: seq<Chunk>, waterPool: seq<Vec3>,
                      cs: seq<Ref>, rc: seq<Ref>, ws: seq<Ref>, rw: seq<Ref>, d: map<ChunkId, Ref>,
                      h: Ref, c: Chunk)
    requires ValidState(size, scale, textures, pool, waterPool, cs, rc, ws, rw, d)
    requires h in cs && c.chunkID == pool[h].chunkID && |c.meshes| == VerticalChunks && Current(c, size, textures)
    ensures ValidState(size, scale, textures, pool[h := c], waterPool, cs, rc, ws, rw, d)
  {
  }

  /** Moving the front of the queue to the back of the live list conserves objects. */
  lemma ConservedMoveFront(n: nat, live: seq<Ref>, queued: seq<Ref>)
    requires Conserved(n, live, queued) && |queued| > 0
    ensures Conserved(n, live + [queued[0]], queued[1..])
  {
    DistinctMoveFront(live, queued);
    assert live + queued == (live + [queued[0]]) + queued[1..];
  }

  /** Registering a just-made object, with an empty queue, conserves objects. */
  lemma ConservedAppendNew(n: nat, live: seq<Ref>)
    requires Conserved(n, live, []) && forall h | h in live :: h < n
    ensures Conserved(n + 1, live + [n], [])
  {
    assert live + [] == live;
    assert n !in live;
    DistinctAppend(live, n);
    assert live + [n] + [] == live + [n];
  }

  /** Registering chunk `h` for cell `id`, which had none, keeps the index exact. */
  lemma IndexedAdd(pool0: seq<Chunk>, pool: seq<Chunk>, cs: seq<Ref>, d: map<ChunkId, Ref>, id: ChunkId, h: Ref)
    requires Indexed(pool0, cs, d) && id !in d && h !in cs
    requires SameExcept(pool0, pool, h) && h < |pool| && pool[h].chunkID == id
    requires forall x | x in cs :: x < |pool0|
    ensures Indexed(pool, cs + [h], d[id := h])
  {
  }

  /** Registering chunk `h`, current at its cell, keeps every live chunk current. */
  lemma MeshedAdd(size: int, textures: map<int, RenderTexture>, pool0: seq<Chunk>, pool: seq<Chunk>,
                  cs: seq<Ref>, rc0: seq<Ref>, rc: seq<Ref>, h: Ref)
    requires Meshed(size, textures, pool0, cs, rc0) && h !in cs
    requires forall x | x in rc :: x in rc0 && x != h
    requires forall x | x in cs + rc0 :: x < |pool0|
    requires SameExcept(pool0, pool, h) && h < |pool|
    requires |pool[h].meshes| == VerticalChunks && Current(pool[h], size, textures)
    ensures Meshed(size, textures, pool, cs + [h], rc)
  {
    forall x | x in (cs + [h]) + rc && x < |pool|
      ensures |pool[x].meshes| == VerticalChunks
    {
      if x != h {
        assert x in cs + rc0;
      }
    }
    forall x | x in cs + [h] && x < |pool|
      ensures Current(pool[x], size, textures)
    {
      if x != h {
        assert x in cs && x in cs + rc0;
      }
    }
  }

  /** Registering water `w` over chunk `h` keeps waters over their chunks. */
  lemma WateredAdd(size: int, scale: real, pool0: seq<Chunk>, pool: seq<Chunk>,
                   waterPool0: seq<Vec3>, waterPool: seq<Vec3>, cs: seq<Ref>, ws: seq<Ref>, h: Ref, w: Ref)
    requires Watered(size, scale, pool0, waterPool0, cs, ws) && |cs| == |ws| && h !in cs && w !in ws
    requires SameExcept(pool0, pool, h) && SameExcept(waterPool0, waterPool, w)
    requires h < |pool| && w < |waterPool| && waterPool[w] == WaterPosition(pool[h].chunkID, size, scale)
    ensures Watered(size, scale, pool, waterPool, cs + [h], ws + [w])
  {
    forall i | 0 <= i < |cs|
      ensures cs[i] != h && ws[i] != w
    {
      assert cs[i] in cs && ws[i] in ws;
    }
  }

  /** The queues lose their front and the lists gain one object each: references stay in range. */
  lemma BoundedMoveFront(pool: seq<Chunk>, waterPool: seq<Vec3>, cs: seq<Ref>, rc: seq<Ref>, ws: seq<Ref>, rw: seq<Ref>)
    requires Bounded(pool, waterPool, cs, rc, ws, rw) && |rc| > 0
    ensures Bounded(pool, waterPool, cs + [rc[0]], rc[1..], ws + [rw[0]], rw[1..])
    ensures forall x | x in rc[1..] :: x in rc
  {
    assert rc[0] in rc && rw[0] in rw;
    forall x | x in rc[1..]
      ensures x in rc
    {
      var i :| 0 <= i < |rc| - 1 && rc[1..][i] == x;
      assert rc[i + 1] == x;
    }
    forall x | x in rw[1..]
      ensures x in rw
    {
      var i :| 0 <= i < |rw| - 1 && rw[1..][i] == x;
      assert rw[i + 1] == x;
    }
  }

  /** Registering the chunk and water taken from the front of the queues, moved
      to a new cell and meshed there, keeps the bookkeeping valid. */
  lemma ReusedValid(size: int, scale: real, textures: map<int, RenderTexture>,
                    pool0: seq<Chunk>, waterPool0: seq<Vec3>,
                    cs: seq<Ref>, rc: seq<Ref>, ws: seq<Ref>, rw: seq<Ref>, d: map<ChunkId, Ref>,
                    id: ChunkId, pool: seq<Chunk>, waterPool: seq<Vec3>)
    requires ValidState(size, scale, textures, pool0, waterPool0, cs, rc, ws, rw, d)
    requires |rc| > 0 && id !in d
    requires |pool| == |pool0| && SameExcept(pool0, pool, rc[0])
    requires |waterPool| == |waterPool0| && SameExcept(waterPool0, waterPool, rw[0])
    requires rc[0] < |pool| && pool[rc[0]].chunkID == id
    requires |pool[rc[0]].meshes| == VerticalChunks && Current(pool[rc[0]], size, textures)
    requires rw[0] < |waterPool| && waterPool[rw[0]] == WaterPosition(id, size, scale)
    ensures ValidState(size, scale, textures, pool, waterPool, cs + [rc[0]], rc[1..], ws + [rw[0]], rw[1..], d[id := rc[0]])
    ensures rc[0] !in cs
  {
    DistinctMoveFront(cs, rc);
    DistinctMoveFront(ws, rw);
    BoundedMoveFront(pool0, waterPool0, cs, rc, ws, rw);
    ConservedMoveFront(|pool|, cs, rc);
    ConservedMoveFront(|waterPool|, ws, rw);
    IndexedAdd(pool0, pool, cs, d, id, rc[0]);
    MeshedAdd(size, textures, pool0, pool, cs, rc, rc[1..], rc[0]);
    WateredAdd(size, scale, pool0, pool, waterPool0, waterPool, cs, ws, rc[0], rw[0]);
  }

  /** Registering a chunk and a water made new, meshed at their cell, keeps the
      bookkeeping valid. */
  lemma CreatedValid(size: int, scale: real, textures: map<int, RenderTexture>,
                     pool0: seq<Chunk>, waterPool0: seq<Vec3>,
                     cs: seq<Ref>, ws: seq<Ref>, d: map<ChunkId, Ref>,
                     id: ChunkId, pool: seq<Chunk>, waterPool: seq<Vec3>)
    requires ValidState(size, scale, textures, pool0, waterPool0, cs, [], ws, [], d)
    requires id !in d
    requires |pool| == |pool0| + 1 && SameExcept(pool0, pool, |pool0|)
    requires |waterPool| == |waterPool0| + 1 && SameExcept(waterPool0, waterPool, |waterPool0|)
    requires pool[|pool0|].chunkID == id && |pool[|pool0|].meshes| == VerticalChunks && Current(pool[|pool0|], size, textures)
    requires waterPool[|waterPool0|] == WaterPosition(id, size, scale)
    ensures ValidState(size, scale, textures, pool, waterPool, cs + [|pool0|], [], ws + [|waterPool0|], [], d[id := |pool0|])
    ensures |pool0| !in cs
  {
    assert cs + [] == cs && ws + [] == ws;
    ConservedAppendNew(|pool0|, cs);
    ConservedAppendNew(|waterPool0|, ws);
    IndexedAdd(pool0, pool, cs, d, id, |pool0|);
    MeshedAdd(size, textures, pool0, pool, cs, [], [], |pool0|);
    WateredAdd(size, scale, pool0, pool, waterPool0, waterPool, cs, ws, |pool0|, |waterPool0|);
  }
}
