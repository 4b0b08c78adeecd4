/** AsyncTerrainGeneration: the asynchronous, frustum-culled chunk streamer. It
    keeps the same dictionary, live list and recycle queues as the synchronous
    streamer, but a chunk only queues its three slices for rendering; one slice
    at a time is handed to the GPU, behind a single render slot. */
module AsyncTerrain {
  import opened Mathf
  import opened ChunkGrid
  import opened Collections
  import opened DensityGenerator
  import opened MapManager
  import opened LegacyChunk
  import MonoLodTerrain

  /** `sqrViewerMoveThresholdForChunkUpdate`: the viewer must move more than 10
      units (in chunk-local space) before the chunks are updated again. */
  const SqrViewerMoveThreshold: real := 10.0 * 10.0

  /** The viewer has moved far enough from where the chunks were last updated. */
  predicate Moved(oldViewer: Vec2, viewer: Vec2) {
    SqrMagnitude(Vec2(oldViewer.x - viewer.x, oldViewer.y - viewer.y)) > SqrViewerMoveThreshold
  }

  /** A water object: its index among the water objects made so far. */
  type Ref = nat

  /** An axis-aligned box, by centre and full size, as `Bounds` is built. */
  datatype Bounds = Bounds(center: Vec3, size: Vec3)

  /** `CalculateBounds`: the box handed to the frustum test for cell `id`. The
      half-height is `verticalChunks / 2` in integer arithmetic, which is 1. */
  function CalculateBounds(id: ChunkId, size: int, scale: real): (b: Bounds)
  {
    var half := VerticalChunks / 2;
    var pos2d := Vec2((id.x * size) as real * scale, (id.y * size) as real * scale);
    Bounds(Vec3(pos2d.x, (half * size) as real * scale, pos2d.y),
           Vec3(1.0 * size as real * scale, (half * size) as real * scale, 1.0 * size as real * scale))
  }

  /** The box of a cell is one chunk wide and one slice high, but it is centred on
      the chunk's corner at one slice height: it covers half of the chunk's square,
      the other half lying in neighbouring cells, and only the middle third of the
      three-slice column. */
  lemma BoundsAroundCorner(id: ChunkId, size: int, scale: real)
    ensures var b := CalculateBounds(id, size, scale); var w := size as real * scale;
      && b.center.x - b.size.x / 2.0 == (id.x * size) as real * scale - w / 2.0
      && b.center.x + b.size.x / 2.0 == (id.x * size) as real * scale + w / 2.0
      && b.center.z - b.size.z / 2.0 == (id.y * size) as real * scale - w / 2.0
      && b.center.z + b.size.z / 2.0 == (id.y * size) as real * scale + w / 2.0
      && b.center.y - b.size.y / 2.0 == w / 2.0
      && b.center.y + b.size.y / 2.0 == 3.0 * w / 2.0
  {
    assert VerticalChunks / 2 == 1;
  }

  /** What the scan leaves at a cell: the chunk's step and whether it places assets. */
  datatype Tile = Tile(lod: int, placesAssets: bool)

  /** The step and placement flag of the chunk each id of `d` maps to, for the
      ids whose chunk is one of `cs`. */
  ghost function TilesOf(d: map<ChunkId, Chunk>, cs: seq<Chunk>): (m: map<ChunkId, Tile>)
    reads cs
    ensures forall id :: id in m <==> id in d && d[id] in cs
  {
    map id | id in d && d[id] in cs :: Tile(d[id].lod, d[id].shouldPlaceAssets)
  }

  /** The water objects made so far are each live or queued, once, and every
      reference names one of them. */
  ghost predicate WatersCounted(n: nat, ws: seq<Ref>, rw: seq<Ref>) {
    && MonoLodTerrain.Conserved(n, ws, rw)
    && (forall h | h in ws + rw :: h < n)
  }

  /** Every queue entry is a slice of a chunk the streamer owns. */
  ghost predicate Queued(q: seq<ChunkToRender>, owned: seq<Chunk>) {
    forall e | e in q :: e.chunk in owned && 0 <= e.verticalChunk < VerticalChunks
  }

  /** The dictionary maps each live chunk's id to it, and nothing else. */
  ghost predicate Indexed(d: map<ChunkId, Chunk>, cs: seq<Chunk>)
    reads cs
  {
    && (forall id | id in d :: d[id] in cs && d[id].chunkID == id)
    && (forall c | c in cs :: c.chunkID in d && d[c.chunkID] == c)
  }

  class AsyncTerrainGeneration {
    const detailLevels: seq<DetailLevel>
    const chunkSize: int
    const chunkScale: real
    const maxViewDistance: real
    const sqrViewDistance: real
    const sqrViewDistances: seq<real>
    const chunksVisibleInViewDistance: int
    const mapDataTextures: map<int, RenderTexture>
    const placeObjects: bool
    /** `isRenderingChunk` and the `SetIsRendering` callback handed to chunks. */
    const gate: RenderGate

    var viewerPosition: Vec2
    var oldViewerPosition: Vec2
    var chunkDictionary: map<ChunkId, Chunk>
    var chunks: seq<Chunk>
    var recyclableChunks: seq<Chunk>
    /** How many water objects have been made; none is ever destroyed. */
    var waterCount: nat
    var waters: seq<Ref>
    var recyclableWaters: seq<Ref>
    var chunksToRender: seq<ChunkToRender>
    /** The GPU read-back the slice in flight is waiting for, if any. */
    var pending: Readback

    /** What `Start` derives from the detail table, as in the synchronous streamer. */
    ghost predicate ValidConfig() {
      && ValidTable(detailLevels)
      && chunkSize == ChunkSize - 1 && chunkScale > 0.0
      && maxViewDistance == detailLevels[|detailLevels| - 1].maxDistance
      && sqrViewDistance == maxViewDistance * maxViewDistance
      && sqrViewDistances == SqrDistances(detailLevels)
      && chunksVisibleInViewDistance == CeilToInt(maxViewDistance / chunkSize as real)
      && (forall i :: 0 <= i < |detailLevels| ==>
            detailLevels[i].step in mapDataTextures
            && mapDataTextures[detailLevels[i].step] == CreateTextureBuffer(RelativeChunkSize(detailLevels[i].step)))
    }

    /** The bookkeeping every operation keeps, over the dictionary `d`, the live
        and queued chunks `cs`/`rc`, the `n` water objects made so far with their
        live and queued lists `ws`/`rw`, the render queue `q`, the awaited
        read-back `p` and the render slot `rendering`: chunks are all different
        and pair up with waters, every water is counted once, the dictionary
        indexes the live chunks, every chunk is healthy, the queue holds slices
        of owned chunks, and the slot is taken exactly while a read-back for a
        slice of an owned chunk is awaited. */
    ghost predicate ValidState(d: map<ChunkId, Chunk>, cs: seq<Chunk>, rc: seq<Chunk>,
                               n: nat, ws: seq<Ref>, rw: seq<Ref>,
                               q: seq<ChunkToRender>, p: Readback, rendering: bool)
      reads cs, rc
    {
      && |cs| == |ws| && |rc| == |rw|
      && Distinct(cs + rc)
      && WatersCounted(n, ws, rw)
      && Indexed(d, cs)
      && Healthy(cs) && Healthy(rc)
      && Queued(q, cs + rc)
      && (rendering <==> !p.NoReadback?)
      && (!p.NoReadback? ==> p.target.chunk in cs + rc && 0 <= p.target.verticalChunk < VerticalChunks)
    }

    /** Every chunk of `cs` has its three slices, a step that has a texture, stands
        at its id's corner, and places assets only when the streamer does. */
    ghost predicate Healthy(cs: seq<Chunk>)
      reads cs
    {
      forall c | c in cs :: HealthyChunk(c)
    }

    ghost predicate HealthyChunk(c: Chunk)
      reads c
    {
      && c.Valid() && c.lod >= 1 && c.lod in mapDataTextures
      && c.position == ChunkOrigin(c.chunkID, chunkSize)
      && (c.shouldPlaceAssets ==> placeObjects)
    }

    ghost predicate Valid()
      reads this, gate, chunks, recyclableChunks
    {
      && ValidConfig()
      && ValidState(chunkDictionary, chunks, recyclableChunks, waterCount, waters, recyclableWaters,
                    chunksToRender, pending, gate.isRenderingChunk)
    }

    /** Every chunk object the streamer has made. */
    ghost function Owned(): set<Chunk>
      reads this
    {
      set c | c in chunks + recyclableChunks
    }

    /** `SqrPlayerDistanceFromCenter`. */
    function SqrPlayerDistanceFromCenter(chunkID: ChunkId): real
      reads this`viewerPosition
    {
      SqrDistanceFromCenter(viewerPosition, chunkID, chunkSize)
    }

    /** The step and placement flag of every live chunk, by id. */
    ghost function Tiles(): (m: map<ChunkId, Tile>)
      reads this`chunkDictionary, this`chunks, chunks
    {
      TilesOf(chunkDictionary, chunks)
    }

    /** Whether a chunk at squared distance `d` is in the finest tier, the one
        that places assets. */
    ghost predicate FirstTier(d: real)
      requires |detailLevels| > 0
    {
      d < SqrDistanceOf(detailLevels[0])
    }

    /** Cell `id` passes both tests of the scan for a viewer at `viewer`: its
        centre is strictly inside the view distance and its box passes the
        frustum test `frustum`. */
    ghost predicate Visible(viewer: Vec2, frustum: Bounds -> bool, id: ChunkId) {
      SqrDistanceFromCenter(viewer, id, chunkSize) < sqrViewDistance && frustum(CalculateBounds(id, chunkSize, chunkScale))
    }

    /** Cell `id` is as an update leaves it, for a viewer at `viewer`, live tiles
        `tiles` and frustum test `frustum`: present when strictly inside the view
        distance and inside the frustum, and, when present, at the step its
        distance selects, placing assets exactly when it is in the finest tier
        and the streamer places objects. */
    ghost predicate SettledIn(tiles: map<ChunkId, Tile>, viewer: Vec2, frustum: Bounds -> bool, id: ChunkId) {
      var d := SqrDistanceFromCenter(viewer, id, chunkSize);
      && (Visible(viewer, frustum, id) ==> id in tiles)
      && (id in tiles && |detailLevels| > 0 ==>
            tiles[id] == Tile(SelectLod(detailLevels, d), FirstTier(d) && placeObjects))
    }

    /** No live chunk lies beyond the view distance. */
    ghost predicate InRange()
      reads this`chunks, this`viewerPosition, chunks
    {
      InRangeOf(chunks)
    }

    /** No chunk of `cs` lies beyond the view distance. */
    ghost predicate InRangeOf(cs: seq<Chunk>)
      reads this`viewerPosition, cs
    {
      forall c | c in cs :: SqrPlayerDistanceFromCenter(c.chunkID) <= sqrViewDistance
    }

    /** What an update promises: every cell strictly inside the view distance that
        passes the frustum test has a chunk, every present cell strictly inside
        it is at its step and flag, and no chunk lies beyond it. */
    ghost predicate Streamed(frustum: Bounds -> bool)
      reads this, chunks
    {
      && InRange()
      && (forall id | SqrPlayerDistanceFromCenter(id) < sqrViewDistance :: SettledIn(Tiles(), viewerPosition, frustum, id))
    }

    /** `Start`: derives the view distances and makes one texture per detail step.
        Unlike the synchronous streamer it streams nothing until the viewer first
        moves past the threshold. */
    constructor (detailLevels: seq<DetailLevel>, chunkScale: real, placeObjects: bool)
      requires ValidTable(detailLevels) && chunkScale > 0.0
      ensures Valid()
      ensures this.detailLevels == detailLevels && this.chunkScale == chunkScale && this.placeObjects == placeObjects
      ensures viewerPosition == Vec2(0.0, 0.0) && oldViewerPosition == Vec2(0.0, 0.0)
      ensures chunkDictionary == map[] && chunks == [] && recyclableChunks == [] && chunksToRender == []
      ensures waterCount == 0 && waters == [] && recyclableWaters == []
      ensures pending == NoReadback && !gate.isRenderingChunk
    {
      var sqr, textures := MonoLodTerrain.MakeTextures(detailLevels);
      this.detailLevels := detailLevels;
      this.chunkScale := chunkScale;
      this.placeObjects := placeObjects;
      chunkSize := ChunkSize - 1;
      maxViewDistance := detailLevels[|detailLevels| - 1].maxDistance;
      chunksVisibleInViewDistance := CeilToInt(detailLevels[|detailLevels| - 1].maxDistance / (ChunkSize - 1) as real);
      sqrViewDistance := detailLevels[|detailLevels| - 1].maxDistance * detailLevels[|detailLevels| - 1].maxDistance;
      sqrViewDistances := sqr;
      mapDataTextures := textures;
      gate := new RenderGate();
      viewerPosition := Vec2(0.0, 0.0);
      oldViewerPosition := Vec2(0.0, 0.0);
      chunkDictionary := map[];
      chunks := [];
      recyclableChunks := [];
      waterCount := 0;
      waters := [];
      recyclableWaters := [];
      chunksToRender := [];
      pending := NoReadback;
    }

    /** `GetLODFromID`: the step of the first detail level whose squared distance
        exceeds the chunk's, or the last level's step; `isFirstLOD` is set only
        when that first match is the table's first entry. */
    method GetLodFromId(chunkID: ChunkId) returns (lod: int, isFirstLOD: bool)
      requires ValidConfig()
      ensures lod == SelectLod(detailLevels, SqrPlayerDistanceFromCenter(chunkID))
      ensures isFirstLOD <==> FirstTier(SqrPlayerDistanceFromCenter(chunkID))
    {
      var sqrDist := SqrPlayerDistanceFromCenter(chunkID);
      isFirstLOD := false;
      var i := 0;
      while i < |detailLevels|
        invariant 0 <= i <= |detailLevels| && !isFirstLOD
        invariant forall j :: 0 <= j < i ==> sqrDist >= SqrDistanceOf(detailLevels[j])
      {
        if sqrDist < sqrViewDistances[i] {
          if i == 0 {
            isFirstLOD := true;
          }
          TierUnique(detailLevels, sqrDist, i);
          return detailLevels[i].step, isFirstLOD;
        }
        i := i + 1;
      }
      TierUnique(detailLevels, sqrDist, |detailLevels| - 1);
      return detailLevels[|detailLevels| - 1].step, isFirstLOD;
    }

    /** The first half of `Update`: when the render slot is free and a slice is
        queued, the slot is taken, the oldest slice is dequeued and its chunk
        fills the slice's density volume and asks the kernel `march` for its
        vertices, at the chunk's step as it is now. When the density lookup
        throws (`threw`), the slot stays taken; with no triangles the slice is
        built at once, as `BuildMesh` builds it (the chunk shown, assets placed
        when its flag is set), and the slot freed again; otherwise the vertex
        read-back is awaited. Nothing else changes. */
    method RenderNext(march: DensityRequest -> MeshCounts, density: DensityInputs) returns (threw: bool)
      requires Valid()
      modifies this, gate, chunks, recyclableChunks
      ensures Valid()
      ensures chunkDictionary == old(chunkDictionary) && chunks == old(chunks) && recyclableChunks == old(recyclableChunks)
      ensures waterCount == old(waterCount) && waters == old(waters) && recyclableWaters == old(recyclableWaters)
      ensures viewerPosition == old(viewerPosition) && oldViewerPosition == old(oldViewerPosition)
      ensures old(gate.isRenderingChunk) || old(chunksToRender) == [] ==>
        && !threw && chunksToRender == old(chunksToRender) && pending == old(pending)
        && gate.isRenderingChunk == old(gate.isRenderingChunk)
      ensures !old(gate.isRenderingChunk) && old(chunksToRender) != [] ==>
        var e := old(chunksToRender[0]);
        && chunksToRender == old(chunksToRender[1..])
        && pending == RequestOutcome(e, old(e.chunk.lod), march, density)
        && (threw <==> pending.Stalled?)
        && (gate.isRenderingChunk <==> !pending.NoReadback?)
        && (pending.NoReadback? ==>
          && e.chunk.meshes == old(e.chunk.meshes)[e.verticalChunk := Some(Mesh([], []))] && e.chunk.active
          && AssetsPlaced(e.chunk.shouldPlaceAssets, e.chunk.meshes, e.chunk.position,
                          old(e.chunk.colliderMesh), old(e.chunk.assetRequests),
                          e.chunk.colliderMesh, e.chunk.assetRequests))
        && (!pending.NoReadback? ==> unchanged(e.chunk))
    {
      threw := false;
      if !gate.isRenderingChunk && |chunksToRender| > 0 {
        RenderFront(march, density);
        threw := pending.Stalled?;
      }
    }

    /** The branch of `RenderNext` that takes the slot. */
    method RenderFront(march: DensityRequest -> MeshCounts, density: DensityInputs)
      requires Valid() && !gate.isRenderingChunk && chunksToRender != []
      modifies this, gate, chunksToRender[0].chunk
      ensures Valid()
      ensures chunkDictionary == old(chunkDictionary) && chunks == old(chunks) && recyclableChunks == old(recyclableChunks)
      ensures waterCount == old(waterCount) && waters == old(waters) && recyclableWaters == old(recyclableWaters)
      ensures viewerPosition == old(viewerPosition) && oldViewerPosition == old(oldViewerPosition)
      ensures var e := old(chunksToRender[0]);
        && chunksToRender == old(chunksToRender[1..])
        && pending == RequestOutcome(e, old(e.chunk.lod), march, density)
        && (pending.NoReadback? ==>
          && e.chunk.meshes == old(e.chunk.meshes)[e.verticalChunk := Some(Mesh([], []))] && e.chunk.active
          && AssetsPlaced(e.chunk.shouldPlaceAssets, e.chunk.meshes, e.chunk.position,
                          old(e.chunk.colliderMesh), old(e.chunk.assetRequests),
                          e.chunk.colliderMesh, e.chunk.assetRequests))
        && (!pending.NoReadback? ==> unchanged(e.chunk))
    {
      gate.isRenderingChunk := true;
      var entry := chunksToRender[0];
      assert entry in chunksToRender;
      var r := entry.chunk.RequestVertices(entry, march, density, gate);
      chunksToRender, pending := chunksToRender[1..], r;
    }

    /** The vertex read-back arrives: the chunk keeps the vertices and asks for
        `3 * tris` triangle indices; the slot stays taken. */
    method VerticesReadBack(vertices: seq<Vec3>)
      requires Valid() && pending.VertexReadback?
      modifies this
      ensures Valid()
      ensures pending == TriangleReadback(old(pending.target), vertices, 3 * old(pending.counts.tris))
      ensures chunkDictionary == old(chunkDictionary) && chunks == old(chunks) && recyclableChunks == old(recyclableChunks)
      ensures waterCount == old(waterCount) && waters == old(waters) && recyclableWaters == old(recyclableWaters)
      ensures viewerPosition == old(viewerPosition) && oldViewerPosition == old(oldViewerPosition)
      ensures chunksToRender == old(chunksToRender)
    {
      var r := pending.target.chunk.GetVerticesCallback(pending.target, pending.counts, vertices);
      pending := r;
    }

    /** The triangle read-back arrives: the slice's mesh is built into the chunk
        the entry captured, whatever cell that chunk stands at now, and the slot
        is freed. */
    method TrianglesReadBack(triangles: seq<int>)
      requires Valid() && pending.TriangleReadback?
      modifies this, gate, pending.target.chunk
      ensures Valid()
      ensures pending == NoReadback && !gate.isRenderingChunk
      ensures var t := old(pending.target);
        && t.chunk.meshes == old(t.chunk.meshes)[t.verticalChunk := Some(Mesh(old(pending.vertices), triangles))] && t.chunk.active
        && AssetsPlaced(t.chunk.shouldPlaceAssets, t.chunk.meshes, t.chunk.position,
                        old(t.chunk.colliderMesh), old(t.chunk.assetRequests),
                        t.chunk.colliderMesh, t.chunk.assetRequests)
      ensures chunkDictionary == old(chunkDictionary) && chunks == old(chunks) && recyclableChunks == old(recyclableChunks)
      ensures waterCount == old(waterCount) && waters == old(waters) && recyclableWaters == old(recyclableWaters)
      ensures viewerPosition == old(viewerPosition) && oldViewerPosition == old(oldViewerPosition)
      ensures chunksToRender == old(chunksToRender)
    {
      var t := pending.target;
      t.chunk.GetTrianglesCallback(t, pending.vertices, triangles, gate);
      pending := NoReadback;
    }

    /** Which chunks of `cs` the eviction loop drops. */
    ghost function FarMask(cs: seq<Chunk>): (far: seq<bool>)
      reads this, cs
      ensures |far| == |cs|
      ensures forall k :: 0 <= k < |cs| ==> far[k] == (SqrPlayerDistanceFromCenter(cs[k].chunkID) > sqrViewDistance)
    {
      if cs == [] then []
      else [SqrPlayerDistanceFromCenter(cs[0].chunkID) > sqrViewDistance] + FarMask(cs[1..])
    }

    /** The first loop of `UpdateVisibleChunks`: from the back of the list, every
        chunk beyond the view distance leaves the dictionary and joins the recycle
        queue, and the water at the same index joins the water queue. Chunk
        objects themselves are not touched. */
    method EvictOutOfRange()
      requires Valid()
      modifies this`chunkDictionary, this`chunks, this`recyclableChunks, this`waterCount, this`waters, this`recyclableWaters,
              this`chunksToRender
      ensures Valid() && InRange()
      ensures viewerPosition == old(viewerPosition) && oldViewerPosition == old(oldViewerPosition)
      ensures waterCount == old(waterCount) && chunksToRender == old(chunksToRender) && pending == old(pending)
      ensures var far := old(FarMask(chunks));
        && chunks == Keep(old(chunks), far)
        && recyclableChunks == old(recyclableChunks) + DroppedBackward(old(chunks), far)
        && waters == Keep(old(waters), far)
        && recyclableWaters == old(recyclableWaters) + DroppedBackward(old(waters), far)
      ensures forall id :: id in chunkDictionary <==>
        id in old(chunkDictionary) && SqrPlayerDistanceFromCenter(id) <= sqrViewDistance
      ensures forall id | id in chunkDictionary :: chunkDictionary[id] == old(chunkDictionary[id])
      ensures forall c | c in chunks + recyclableChunks :: c in old(chunks + recyclableChunks)
      ensures |chunks| + |recyclableChunks| == old(|chunks| + |recyclableChunks|)
    {
      var cs, ws, rc0, rw0, d0 := chunks, waters, recyclableChunks, recyclableWaters, chunkDictionary;
      ghost var far := FarMask(cs);
      var list, queue, waterList, waterQueue, dictionary, removed := EvictScan(cs, ws, rc0, rw0, d0, far);
      EvictedValid(cs, ws, rc0, rw0, d0, far, list, queue, waterList, waterQueue, dictionary, removed);
      KeepDroppedConserved(cs, rc0, far);
      Commit(dictionary, list, queue, waterCount, waterList, waterQueue, chunksToRender);
    }

    /** Stores a new dictionary, chunk and water lists and queues, water count and
        render queue, all at once; no chunk object is touched. */
    method Install(d: map<ChunkId, Chunk>, cs: seq<Chunk>, rc: seq<Chunk>, n: nat, ws: seq<Ref>, rw: seq<Ref>,
                   q: seq<ChunkToRender>)
      modifies this`chunkDictionary, this`chunks, this`recyclableChunks, this`waterCount, this`waters, this`recyclableWaters,
              this`chunksToRender
      ensures chunkDictionary == d && chunks == cs && recyclableChunks == rc
      ensures waterCount == n && waters == ws && recyclableWaters == rw && chunksToRender == q
      ensures viewerPosition == old(viewerPosition) && oldViewerPosition == old(oldViewerPosition)
      ensures pending == old(pending)
      ensures forall c | c in cs + rc :: unchanged(c)
    {
      chunkDictionary, chunks, recyclableChunks, waterCount, waters, recyclableWaters, chunksToRender :=
        d, cs, rc, n, ws, rw, q;
    }

    /** `Install`, when the values stored keep the bookkeeping. */
    method Commit(d: map<ChunkId, Chunk>, cs: seq<Chunk>, rc: seq<Chunk>, n: nat, ws: seq<Ref>, rw: seq<Ref>,
                  q: seq<ChunkToRender>)
      requires ValidConfig() && ValidState(d, cs, rc, n, ws, rw, q, pending, gate.isRenderingChunk)
      modifies this`chunkDictionary, this`chunks, this`recyclableChunks, this`waterCount, this`waters, this`recyclableWaters,
              this`chunksToRender
      ensures Valid()
      ensures chunkDictionary == d && chunks == cs && recyclableChunks == rc
      ensures waterCount == n && waters == ws && recyclableWaters == rw && chunksToRender == q
      ensures viewerPosition == old(viewerPosition) && oldViewerPosition == old(oldViewerPosition)
      ensures pending == old(pending)
      ensures forall c | c in cs + rc :: unchanged(c)
      ensures Tiles() == old(TilesOf(d, cs))
      ensures old(InRangeOf(cs)) ==> InRange()
    {
      Install(d, cs, rc, n, ws, rw, q);
    }

    /** The loop of the eviction, on copies of the lists, queues and dictionary. */
    method EvictScan(cs: seq<Chunk>, ws: seq<Ref>, rc0: seq<Chunk>, rw0: seq<Ref>,
                     d0: map<ChunkId, Chunk>, ghost far: seq<bool>)
      returns (list: seq<Chunk>, queue: seq<Chunk>, waterList: seq<Ref>, waterQueue: seq<Ref>,
               dictionary: map<ChunkId, Chunk>, ghost removed: set<ChunkId>)
      requires |cs| == |ws| && |rc0| == |rw0| && far == FarMask(cs)
      ensures list == Keep(cs, far) && queue == rc0 + DroppedBackward(cs, far)
      ensures waterList == Keep(ws, far) && waterQueue == rw0 + DroppedBackward(ws, far)
      ensures |list| == |waterList| && |queue| == |waterQueue|
      ensures forall id | id in removed :: SqrPlayerDistanceFromCenter(id) > sqrViewDistance
      ensures forall k | 0 <= k < |cs| && far[k] :: cs[k].chunkID in removed
      ensures forall id :: id in dictionary <==> id in d0 && id !in removed
      ensures forall id | id in dictionary :: dictionary[id] == d0[id]
    {
      removed := {};
      list, queue, waterList, waterQueue, dictionary := cs, rc0, ws, rw0, d0;
      var i := |list| - 1;
      EvictStart(cs, ws, rc0, rw0, d0, far);
      while i >= 0
        invariant EvictInv(cs, ws, rc0, rw0, d0, far, i, list, queue, waterList, waterQueue, dictionary, removed)
      {
        EvictAt(cs, ws, rc0, rw0, d0, far, i, list, queue, waterList, waterQueue, dictionary, removed);
        var chunk := list[i];
        var sqrDist := SqrPlayerDistanceFromCenter(chunk.chunkID);
        if sqrDist > sqrViewDistance {
          EvictDrop(cs, ws, rc0, rw0, d0, far, i, list, queue, waterList, waterQueue, dictionary, removed);
          removed := removed + {chunk.chunkID};
          dictionary := dictionary - {chunk.chunkID};
          queue := queue + [chunk];
          list := RemoveAt(list, i);
          waterQueue := waterQueue + [waterList[i]];
          waterList := RemoveAt(waterList, i);
        } else {
          EvictKeep(cs, ws, rc0, rw0, d0, far, i, list, queue, waterList, waterQueue, dictionary, removed);
        }
        i := i - 1;
      }
      EvictEnd(cs, ws, rc0, rw0, d0, far, list, queue, waterList, waterQueue, dictionary, removed);
    }

    /** What the eviction loop keeps before the step at `i`: the unscanned prefix
        followed by the kept suffix, the dropped suffix queued in backward order,
        waters still paired with their chunks, and the dictionary less exactly the
        far ids met so far. */
    ghost predicate EvictInv(cs: seq<Chunk>, ws: seq<Ref>, rc0: seq<Chunk>, rw0: seq<Ref>, d0: map<ChunkId, Chunk>,
                             far: seq<bool>, i: int, list: seq<Chunk>, queue: seq<Chunk>, waterList: seq<Ref>,
                             waterQueue: seq<Ref>, dictionary: map<ChunkId, Chunk>, removed: set<ChunkId>)
      reads this, cs
    {
      && -1 <= i < |cs| && |ws| == |cs| && |far| == |cs| && |rc0| == |rw0|
      && list == cs[..i + 1] + Keep(cs[i + 1..], far[i + 1..])
      && waterList == ws[..i + 1] + Keep(ws[i + 1..], far[i + 1..])
      && queue == rc0 + DroppedBackward(cs[i + 1..], far[i + 1..])
      && waterQueue == rw0 + DroppedBackward(ws[i + 1..], far[i + 1..])
      && |list| == |waterList| && |queue| == |waterQueue|
      && (forall id | id in removed :: SqrPlayerDistanceFromCenter(id) > sqrViewDistance)
      && (forall k | i + 1 <= k < |cs| && far[k] :: cs[k].chunkID in removed)
      && (forall id :: id in dictionary <==> id in d0 && id !in removed)
      && (forall id | id in dictionary :: dictionary[id] == d0[id])
    }

    /** Before the first step nothing is scanned. */
    lemma EvictStart(cs: seq<Chunk>, ws: seq<Ref>, rc0: seq<Chunk>, rw0: seq<Ref>, d0: map<ChunkId, Chunk>, far: seq<bool>)
      requires |cs| == |ws| && |rc0| == |rw0| && |far| == |cs|
      ensures EvictInv(cs, ws, rc0, rw0, d0, far, |cs| - 1, cs, rc0, ws, rw0, d0, {})
    {
      assert cs[..|cs|] == cs && ws[..|ws|] == ws;
      assert cs + [] == cs && ws + [] == ws && rc0 + [] == rc0 && rw0 + [] == rw0;
    }

    /** At step `i` the list still holds the `i`th chunk and water at index `i`. */
    lemma EvictAt(cs: seq<Chunk>, ws: seq<Ref>, rc0: seq<Chunk>, rw0: seq<Ref>, d0: map<ChunkId, Chunk>,
                  far: seq<bool>, i: int, list: seq<Chunk>, queue: seq<Chunk>, waterList: seq<Ref>,
                  waterQueue: seq<Ref>, dictionary: map<ChunkId, Chunk>, removed: set<ChunkId>)
      requires EvictInv(cs, ws, rc0, rw0, d0, far, i, list, queue, waterList, waterQueue, dictionary, removed)
      requires 0 <= i && far == FarMask(cs)
      ensures i < |list| && list[i] == cs[i] && i < |waterList| && waterList[i] == ws[i]
      ensures far[i] <==> SqrPlayerDistanceFromCenter(list[i].chunkID) > sqrViewDistance
    {
    }

    /** A far chunk at `i` leaves the list and the dictionary and is queued, with its water. */
    lemma EvictDrop(cs: seq<Chunk>, ws: seq<Ref>, rc0: seq<Chunk>, rw0: seq<Ref>, d0: map<ChunkId, Chunk>,
                    far: seq<bool>, i: int, list: seq<Chunk>, queue: seq<Chunk>, waterList: seq<Ref>,
                    waterQueue: seq<Ref>, dictionary: map<ChunkId, Chunk>, removed: set<ChunkId>)
      requires EvictInv(cs, ws, rc0, rw0, d0, far, i, list, queue, waterList, waterQueue, dictionary, removed)
      requires 0 <= i && far[i] && i < |list| && list[i] == cs[i]
      requires SqrPlayerDistanceFromCenter(list[i].chunkID) > sqrViewDistance
      ensures EvictInv(cs, ws, rc0, rw0, d0, far, i - 1, RemoveAt(list, i), queue + [list[i]],
                       RemoveAt(waterList, i), waterQueue + [waterList[i]],
                       dictionary - {list[i].chunkID}, removed + {list[i].chunkID})
    {
      ScanBackDrop(cs, far, i, list, queue, rc0);
      ScanBackDrop(ws, far, i, waterList, waterQueue, rw0);
    }

    /** A chunk within range at `i` stays where it is. */
    lemma EvictKeep(cs: seq<Chunk>, ws: seq<Ref>, rc0: seq<Chunk>, rw0: seq<Ref>, d0: map<ChunkId, Chunk>,
                    far: seq<bool>, i: int, list: seq<Chunk>, queue: seq<Chunk>, waterList: seq<Ref>,
                    waterQueue: seq<Ref>, dictionary: map<ChunkId, Chunk>, removed: set<ChunkId>)
      requires EvictInv(cs, ws, rc0, rw0, d0, far, i, list, queue, waterList, waterQueue, dictionary, removed)
      requires 0 <= i && !far[i]
      ensures EvictInv(cs, ws, rc0, rw0, d0, far, i - 1, list, queue, waterList, waterQueue, dictionary, removed)
    {
      ScanBackKeep(cs, far, i, list, queue, rc0);
      ScanBackKeep(ws, far, i, waterList, waterQueue, rw0);
    }

    /** Once every chunk is scanned, the list keeps exactly the chunks within range. */
    lemma EvictEnd(cs: seq<Chunk>, ws: seq<Ref>, rc0: seq<Chunk>, rw0: seq<Ref>, d0: map<ChunkId, Chunk>,
                   far: seq<bool>, list: seq<Chunk>, queue: seq<Chunk>, waterList: seq<Ref>,
                   waterQueue: seq<Ref>, dictionary: map<ChunkId, Chunk>, removed: set<ChunkId>)
      requires EvictInv(cs, ws, rc0, rw0, d0, far, -1, list, queue, waterList, waterQueue, dictionary, removed)
      ensures list == Keep(cs, far) && queue == rc0 + DroppedBackward(cs, far)
      ensures waterList == Keep(ws, far) && waterQueue == rw0 + DroppedBackward(ws, far)
      ensures |list| == |waterList| && |queue| == |waterQueue|
      ensures forall id | id in removed :: SqrPlayerDistanceFromCenter(id) > sqrViewDistance
      ensures forall k | 0 <= k < |cs| && far[k] :: cs[k].chunkID in removed
      ensures forall id :: id in dictionary <==> id in d0 && id !in removed
      ensures forall id | id in dictionary :: dictionary[id] == d0[id]
    {
      assert cs[..0] == [] && ws[..0] == [] && cs[0..] == cs && ws[0..] == ws && far[0..] == far;
    }

    /** The lists, queues and dictionary the eviction loop leaves keep the
        bookkeeping valid: the same objects are owned, every object once, the
        dictionary indexes exactly the kept chunks, and those lie within range. */
    lemma EvictedValid(cs: seq<Chunk>, ws: seq<Ref>, rc0: seq<Chunk>, rw0: seq<Ref>,
                       d0: map<ChunkId, Chunk>, far: seq<bool>,
                       list: seq<Chunk>, queue: seq<Chunk>, waterList: seq<Ref>, waterQueue: seq<Ref>,
                       dictionary: map<ChunkId, Chunk>, removed: set<ChunkId>)
      requires Valid() && cs == chunks && rc0 == recyclableChunks && ws == waters && rw0 == recyclableWaters
      requires d0 == chunkDictionary && far == FarMask(cs)
      requires list == Keep(cs, far) && queue == rc0 + DroppedBackward(cs, far)
      requires waterList == Keep(ws, far) && waterQueue == rw0 + DroppedBackward(ws, far)
      requires |list| == |waterList| && |queue| == |waterQueue|
      requires forall id | id in removed :: SqrPlayerDistanceFromCenter(id) > sqrViewDistance
      requires forall k | 0 <= k < |cs| && far[k] :: cs[k].chunkID in removed
      requires forall id :: id in dictionary <==> id in d0 && id !in removed
      requires forall id | id in dictionary :: dictionary[id] == d0[id]
      ensures ValidState(dictionary, list, queue, waterCount, waterList, waterQueue,
                         chunksToRender, pending, gate.isRenderingChunk)
      ensures forall c | c in list :: SqrPlayerDistanceFromCenter(c.chunkID) <= sqrViewDistance
      ensures forall id :: id in dictionary <==> id in d0 && SqrPlayerDistanceFromCenter(id) <= sqrViewDistance
    {
      KeepDroppedDistinct(cs, rc0, far);
      KeepDroppedDistinct(ws, rw0, far);
      MonoLodTerrain.ConservedPermuted(waterCount, ws, rw0, waterList, waterQueue);
      PermutedMembers(list + queue, cs + rc0);
      PermutedMembers(waterList + waterQueue, ws + rw0);
      forall c | c in list
        ensures c in cs && SqrPlayerDistanceFromCenter(c.chunkID) <= sqrViewDistance
      {
        KeepMembership(cs, far, c);
      }
      forall c | c in queue
        ensures c in cs + rc0
      {
        assert c in list + queue;
      }
      forall c | c in cs + rc0
        ensures c in list + queue
      {
      }
      EvictedKeys(cs, d0, far, dictionary, removed);
      EvictedEntries(cs, d0, far, list, dictionary);
    }

    /** The ids left in the dictionary are exactly the old ones within the view distance. */
    lemma EvictedKeys(cs: seq<Chunk>, d0: map<ChunkId, Chunk>, far: seq<bool>,
                      dictionary: map<ChunkId, Chunk>, removed: set<ChunkId>)
      requires Indexed(d0, cs) && far == FarMask(cs)
      requires forall id | id in removed :: SqrPlayerDistanceFromCenter(id) > sqrViewDistance
      requires forall k | 0 <= k < |cs| && far[k] :: cs[k].chunkID in removed
      requires forall id :: id in dictionary <==> id in d0 && id !in removed
      ensures forall id :: id in dictionary <==> id in d0 && SqrPlayerDistanceFromCenter(id) <= sqrViewDistance
    {
      forall id | id in d0 && SqrPlayerDistanceFromCenter(id) > sqrViewDistance
        ensures id in removed
      {
        var k :| 0 <= k < |cs| && cs[k] == d0[id];
        assert far[k];
      }
    }

    /** The dictionary left by the eviction indexes exactly the kept chunks. */
    lemma EvictedEntries(cs: seq<Chunk>, d0: map<ChunkId, Chunk>, far: seq<bool>,
                         list: seq<Chunk>, dictionary: map<ChunkId, Chunk>)
      requires Indexed(d0, cs) && far == FarMask(cs) && list == Keep(cs, far)
      requires forall id :: id in dictionary <==> id in d0 && SqrPlayerDistanceFromCenter(id) <= sqrViewDistance
      requires forall id | id in dictionary :: dictionary[id] == d0[id]
      ensures Indexed(dictionary, list)
    {
      forall id | id in dictionary
        ensures dictionary[id] in list
      {
        var k :| 0 <= k < |cs| && cs[k] == d0[id];
        KeepMembership(cs, far, d0[id]);
      }
      forall c | c in list
        ensures c.chunkID in dictionary && dictionary[c.chunkID] == c
      {
        KeepMembership(cs, far, c);
      }
    }

    /** The step the distance selects is a step of the table, with a texture. */
    lemma SelectedStepHasTexture(d: real)
      requires ValidConfig()
      ensures SelectLod(detailLevels, d) in mapDataTextures && SelectLod(detailLevels, d) >= 1
    {
      var i := Tier(detailLevels, d);
      assert detailLevels[i].step in mapDataTextures;
    }

    /** `Update`: first hands the oldest queued slice to the render step when the
        render slot is free. When its density lookup throws, the exception ends
        the frame there. Otherwise it records where the viewer stands (scaled
        down by the terrain scale) and, when the viewer has moved past the
        threshold since the last update, re-centres and updates the chunks
        against the frustum test `frustum`. The render queue loses at most its
        front and otherwise only grows, by slices of live chunks. */
    method Update(viewer: Vec3, march: DensityRequest -> MeshCounts, density: DensityInputs, frustum: Bounds -> bool)
      requires Valid()
      modifies this, gate, Owned()
      ensures Valid()
      ensures var rendered := !old(gate.isRenderingChunk) && old(chunksToRender) != [];
        var q1 := if rendered then old(chunksToRender[1..]) else old(chunksToRender);
        var p1 := if rendered then RequestOutcome(old(chunksToRender[0]), old(chunksToRender[0].chunk.lod), march, density)
                  else old(pending);
        var threw := rendered && p1.Stalled?;
        && pending == p1 && (gate.isRenderingChunk <==> !p1.NoReadback?)
        && q1 <= chunksToRender
        && (forall e | e in chunksToRender[|q1|..] :: e.chunk in chunks)
        && (threw ==>
              && viewerPosition == old(viewerPosition) && oldViewerPosition == old(oldViewerPosition)
              && chunksToRender == q1)
        && (!threw ==> viewerPosition == Vec2(viewer.x / chunkScale, viewer.z / chunkScale))
        && (!threw && Moved(old(oldViewerPosition), viewerPosition) ==>
              oldViewerPosition == viewerPosition && Streamed(frustum))
        && (threw || !Moved(old(oldViewerPosition), viewerPosition) ==>
              && oldViewerPosition == old(oldViewerPosition) && chunksToRender == q1
              && chunkDictionary == old(chunkDictionary) && chunks == old(chunks) && recyclableChunks == old(recyclableChunks)
              && waterCount == old(waterCount) && waters == old(waters) && recyclableWaters == old(recyclableWaters))
    {
      var threw := RenderNext(march, density);
      if threw {
        return;
      }
      FollowViewer(viewer, frustum);
    }

    /** The second half of `Update`: records where the viewer stands, scaled
        down by the terrain scale, and, when it has moved past the threshold
        since the last update, re-centres and updates the chunks against the
        frustum test `frustum`. The render slot and read-back are outside its
        frame. */
    method FollowViewer(viewer: Vec3, frustum: Bounds -> bool)
      requires Valid()
      modifies this`viewerPosition, this`oldViewerPosition,
               this`chunkDictionary, this`chunks, this`recyclableChunks, this`waterCount, this`waters, this`recyclableWaters,
               this`chunksToRender, Owned()
      ensures Valid()
      ensures viewerPosition == Vec2(viewer.x / chunkScale, viewer.z / chunkScale)
      ensures old(chunksToRender) <= chunksToRender
      ensures forall e | e in chunksToRender[|old(chunksToRender)|..] :: e.chunk in chunks
      ensures Moved(old(oldViewerPosition), viewerPosition) ==>
        && oldViewerPosition == viewerPosition && Streamed(frustum)
        && SlicesQueued(chunkDictionary, Tiles(), old(Tiles()), chunksToRender[|old(chunksToRender)|..])
      ensures !Moved(old(oldViewerPosition), viewerPosition) ==>
        && oldViewerPosition == old(oldViewerPosition) && chunksToRender == old(chunksToRender)
        && chunkDictionary == old(chunkDictionary) && chunks == old(chunks) && recyclableChunks == old(recyclableChunks)
        && waterCount == old(waterCount) && waters == old(waters) && recyclableWaters == old(recyclableWaters)
    {
      viewerPosition := Vec2(viewer.x / chunkScale, viewer.z / chunkScale);
      if Moved(oldViewerPosition, viewerPosition) {
        oldViewerPosition := viewerPosition;
        UpdateVisibleChunks(frustum);
      }
    }

    /** `UpdateVisibleChunks`: evicts the chunks beyond the view distance, then
        scans the square window around the viewer's cell from its top row down
        and, in each row, from its right end leftwards, adding a chunk for each
        empty visible cell and bringing each present chunk to its step and flag.
        Afterwards the cells with a chunk are exactly the old ones still within
        the view distance and the visible ones; the render queue has only grown,
        by slices of live chunks, among them the three slices of every chunk
        added or given a new step; and a chunk object is made only once the
        recycle queue is empty. The viewer's positions and the render read-back
        are outside its frame. */
    method UpdateVisibleChunks(frustum: Bounds -> bool)
      requires Valid()
      modifies this`chunkDictionary, this`chunks, this`recyclableChunks, this`waterCount, this`waters, this`recyclableWaters,
              this`chunksToRender, Owned()
      ensures Valid() && Streamed(frustum)
      ensures forall id :: id in chunkDictionary <==>
        (id in old(chunkDictionary) && SqrPlayerDistanceFromCenter(id) <= sqrViewDistance)
        || Visible(viewerPosition, frustum, id)
      ensures old(chunksToRender) <= chunksToRender
      ensures forall e | e in chunksToRender[|old(chunksToRender)|..] :: e.chunk in chunks
      ensures SlicesQueued(chunkDictionary, Tiles(), old(Tiles()), chunksToRender[|old(chunksToRender)|..])
      ensures |chunks| + |recyclableChunks| >= old(|chunks| + |recyclableChunks|)
      ensures |chunks| + |recyclableChunks| > old(|chunks| + |recyclableChunks|) ==> recyclableChunks == []
    {
      ghost var t0 := Tiles();
      EvictOutOfRange();
      ghost var te := Tiles();
      assert forall id | id in te :: id in t0 && te[id] == t0[id];
      ScanView(frustum, old(chunkDictionary));
      QueuedSinceEviction(chunkDictionary, Tiles(), te, t0, chunksToRender[|old(chunksToRender)|..]);
    }

    /** Measured against tiles `t0` of which `te` keeps some, unchanged, a cell is
        added or re-stepped whenever it is so against `te`. */
    lemma QueuedSinceEviction(d: map<ChunkId, Chunk>, tiles: map<ChunkId, Tile>, te: map<ChunkId, Tile>,
                              t0: map<ChunkId, Tile>, added: seq<ChunkToRender>)
      requires forall id | id in te :: id in t0 && te[id] == t0[id]
      requires SlicesQueued(d, tiles, te, added)
      ensures SlicesQueued(d, tiles, t0, added)
    {
      forall id | id in d && NewOrRestepped(t0, tiles, id)
        ensures NewOrRestepped(te, tiles, id)
      {
      }
    }

    /** What `UpdateVisibleChunks` does after the eviction, which left the
        cells of `d0` within the view distance: the window scan. */
    method ScanView(frustum: Bounds -> bool, ghost d0: map<ChunkId, Chunk>)
      requires Valid() && InRange()
      requires forall id :: id in chunkDictionary <==> id in d0 && SqrPlayerDistanceFromCenter(id) <= sqrViewDistance
      modifies this`chunkDictionary, this`chunks, this`recyclableChunks, this`waterCount, this`waters, this`recyclableWaters,
              this`chunksToRender, Owned()
      ensures Valid() && Streamed(frustum)
      ensures forall id :: id in chunkDictionary <==>
        (id in d0 && SqrPlayerDistanceFromCenter(id) <= sqrViewDistance) || Visible(viewerPosition, frustum, id)
      ensures old(chunksToRender) <= chunksToRender
      ensures forall e | e in chunksToRender[|old(chunksToRender)|..] :: e.chunk in chunks
      ensures SlicesQueued(chunkDictionary, Tiles(), old(Tiles()), chunksToRender[|old(chunksToRender)|..])
      ensures |chunks| + |recyclableChunks| >= old(|chunks| + |recyclableChunks|)
      ensures |chunks| + |recyclableChunks| > old(|chunks| + |recyclableChunks|) ==> recyclableChunks == []
    {
      ghost var t1, q1, cs1, n1, e1 := Tiles(), chunksToRender, chunks, |chunks| + |recyclableChunks|, recyclableChunks == [];
      ghost var d1, v := chunkDictionary, viewerPosition;
      TilesKeys(chunkDictionary, chunks);

      var cx := RoundToInt(viewerPosition.x / chunkSize as real);
      var cy := RoundToInt(viewerPosition.y / chunkSize as real);
      var k := chunksVisibleInViewDistance;
      WindowCoversView(v, cx, cy);
      SweepInit(t1, viewerPosition, frustum, cx, cy, k, cy + k);
      ScanWindow(cx, cy, k, frustum, t1, d1, d0, v, q1, cs1, n1, e1);
    }

    /** The second loop of `UpdateVisibleChunks`: the rows of the window from
        the top one down, from the tiles `t1` and dictionary `d1` the eviction
        left for a viewer at `v` out of the dictionary `d0`. */
    method ScanWindow(cx: int, cy: int, k: int, frustum: Bounds -> bool, ghost t1: map<ChunkId, Tile>,
                      ghost d1: map<ChunkId, Chunk>, ghost d0: map<ChunkId, Chunk>, ghost v: Vec2,
                      ghost q0: seq<ChunkToRender>, ghost cs0: seq<Chunk>, ghost n0: int, ghost e0: bool)
      requires k >= 0 && Scanning(t1, frustum, cx, cy, k, cy + k, cx + k, q0, cs0, n0, e0)
      requires viewerPosition == v
      requires forall id :: id in t1 <==> id in d1
      requires forall id :: id in d1 <==> id in d0 && SqrDistanceFromCenter(v, id, chunkSize) <= sqrViewDistance
      requires forall id | SqrDistanceFromCenter(v, id, chunkSize) < sqrViewDistance :: InWindow(id, cx, cy, k)
      modifies this`chunkDictionary, this`chunks, this`recyclableChunks, this`waterCount, this`waters, this`recyclableWaters,
              this`chunksToRender, Owned()
      ensures Valid() && Streamed(frustum)
      ensures forall id :: id in chunkDictionary <==>
        (id in d0 && SqrPlayerDistanceFromCenter(id) <= sqrViewDistance) || Visible(viewerPosition, frustum, id)
      ensures Grew(q0, cs0, n0, e0, chunksToRender, chunks, recyclableChunks)
      ensures SlicesQueued(chunkDictionary, Tiles(), t1, chunksToRender[|q0|..])
      ensures viewerPosition == old(viewerPosition) && oldViewerPosition == old(oldViewerPosition)
      ensures forall c | c in chunks + recyclableChunks :: c in old(chunks + recyclableChunks) || fresh(c)
    {
      var row := cy + k;
      while row >= cy - k
        invariant cy - k - 1 <= row <= cy + k
        invariant Scanning(t1, frustum, cx, cy, k, row, cx + k, q0, cs0, n0, e0)
        invariant viewerPosition == old(viewerPosition) && oldViewerPosition == old(oldViewerPosition)
        invariant forall c | c in chunks + recyclableChunks :: c in old(chunks + recyclableChunks) || fresh(c)
      {
        ScanRow(cx, cy, k, row, frustum, t1, q0, cs0, n0, e0);
        row := row - 1;
      }
      ScanDone(t1, d1, d0, v, frustum, cx, cy, k, row, q0, cs0, n0, e0);
    }

    /** What the finished scan leaves, from the tiles `t1` and dictionary `d1`
        the eviction left for a viewer at `v`, and the dictionary `d0` before
        it: every cell is streamed, and the cells with a chunk are exactly the
        old ones within the view distance and the visible ones. */
    lemma ScanDone(t1: map<ChunkId, Tile>, d1: map<ChunkId, Chunk>, d0: map<ChunkId, Chunk>, v: Vec2,
                   frustum: Bounds -> bool, cx: int, cy: int, k: int, row: int,
                   q0: seq<ChunkToRender>, cs0: seq<Chunk>, n0: int, e0: bool)
      requires row == cy - k - 1 && Scanning(t1, frustum, cx, cy, k, row, cx + k, q0, cs0, n0, e0)
      requires viewerPosition == v
      requires forall id :: id in t1 <==> id in d1
      requires forall id :: id in d1 <==> id in d0 && SqrDistanceFromCenter(v, id, chunkSize) <= sqrViewDistance
      requires forall id | SqrDistanceFromCenter(v, id, chunkSize) < sqrViewDistance :: InWindow(id, cx, cy, k)
      ensures Streamed(frustum)
      ensures forall id :: id in chunkDictionary <==>
        (id in d0 && SqrPlayerDistanceFromCenter(id) <= sqrViewDistance) || Visible(viewerPosition, frustum, id)
    {
      SweptAll(Tiles(), t1, viewerPosition, frustum, cx, cy, k, row);
      TilesKeys(chunkDictionary, chunks);
    }

    /** The scan window around the cell `(cx, cy)` a viewer at `v` stands on
        holds every cell strictly inside the view distance, and is never empty. */
    lemma WindowCoversView(v: Vec2, cx: int, cy: int)
      requires ValidConfig()
      requires cx == RoundToInt(v.x / chunkSize as real) && cy == RoundToInt(v.y / chunkSize as real)
      ensures chunksVisibleInViewDistance >= 1
      ensures forall id | SqrDistanceFromCenter(v, id, chunkSize) < sqrViewDistance :: InWindow(id, cx, cy, chunksVisibleInViewDistance)
    {
      assert maxViewDistance > 0.0 && chunkSize > 0;
      assert maxViewDistance / chunkSize as real > 0.0;
      forall id | SqrDistanceFromCenter(v, id, chunkSize) < sqrViewDistance
        ensures InWindow(id, cx, cy, chunksVisibleInViewDistance)
      {
        NearChunkInWindow(v, id, chunkSize, maxViewDistance);
      }
    }

    /** With the dictionary indexing the live chunks, the tiles are keyed by the
        dictionary's ids. */
    lemma TilesKeys(d: map<ChunkId, Chunk>, cs: seq<Chunk>)
      requires Indexed(d, cs)
      ensures forall id :: id in TilesOf(d, cs) <==> id in d
    {
    }

    /** The scan is in progress at cell `(col, row)`: the bookkeeping holds, no
        live chunk is out of range, the cells scanned so far are swept from the
        tiles `t1` the scan started from, and the lists and render queue have
        grown from `q0`, `cs0`, `n0` and `e0` as `Grew` allows, with the slices
        of every cell added or re-stepped since `t1` among the entries queued
        since `q0`. */
    ghost predicate Scanning(t1: map<ChunkId, Tile>, frustum: Bounds -> bool, cx: int, cy: int, k: int, row: int, col: int,
                             q0: seq<ChunkToRender>, cs0: seq<Chunk>, n0: int, e0: bool)
      reads this, gate, chunks, recyclableChunks
    {
      && Valid() && InRange()
      && Swept(Tiles(), t1, viewerPosition, frustum, cx, cy, k, row, col)
      && Grew(q0, cs0, n0, e0, chunksToRender, chunks, recyclableChunks)
      && SlicesQueued(chunkDictionary, Tiles(), t1, chunksToRender[|q0|..])
    }

    /** Cell `id` has a tile in `tiles` that it had not in `t0`, or at another step. */
    ghost predicate NewOrRestepped(t0: map<ChunkId, Tile>, tiles: map<ChunkId, Tile>, id: ChunkId) {
      id in tiles && (id !in t0 || tiles[id].lod != t0[id].lod)
    }

    /** Every cell of `d` added or re-stepped since the tiles `t1` has the three
        slices of its chunk, at the cell's corner, among the entries `added`. */
    ghost predicate SlicesQueued(d: map<ChunkId, Chunk>, tiles: map<ChunkId, Tile>, t1: map<ChunkId, Tile>,
                                 added: seq<ChunkToRender>) {
      forall id | id in d && NewOrRestepped(t1, tiles, id) ::
        forall e | e in SliceEntries(d[id], ChunkOrigin(id, chunkSize)) :: e in added
    }

    /** Scanning cell `c`, which changes the dictionary and the tiles only at
        `c` and queues the cell's slices exactly when it is added or re-stepped,
        keeps every added or re-stepped cell's slices queued. */
    lemma QueuedStep(d0: map<ChunkId, Chunk>, t0: map<ChunkId, Tile>, d: map<ChunkId, Chunk>, tiles: map<ChunkId, Tile>,
                     t1: map<ChunkId, Tile>, q0: seq<ChunkToRender>, q: seq<ChunkToRender>, q': seq<ChunkToRender>,
                     c: ChunkId)
      requires q0 <= q && SlicesQueued(d0, t0, t1, q[|q0|..])
      requires AgreeExcept(d, d0, c) && AgreeExcept(tiles, t0, c)
      requires c in d0 ==> d == d0
      requires (c in t0 <==> c in d0) && (c in tiles <==> c in d)
      requires q' == q + (if NewOrRestepped(t0, tiles, c) then SliceEntries(d[c], ChunkOrigin(c, chunkSize)) else [])
      ensures SlicesQueued(d, tiles, t1, q'[|q0|..])
    {
      assert q <= q';
      forall id | id in d && NewOrRestepped(t1, tiles, id)
        ensures forall e | e in SliceEntries(d[id], ChunkOrigin(id, chunkSize)) :: e in q'[|q0|..]
      {
        forall e | e in SliceEntries(d[id], ChunkOrigin(id, chunkSize))
          ensures e in q'[|q0|..]
        {
          if id == c && NewOrRestepped(t0, tiles, c) {
            assert e in q'[|q|..];
          } else {
            assert id in d0 && NewOrRestepped(t1, t0, id) && d[id] == d0[id];
            assert e in q[|q0|..];
          }
        }
      }
    }

    /** One row `row` of the scan window, cells from the right end leftwards:
        the swept part of the window moves on to the row below. */
    method ScanRow(cx: int, cy: int, k: int, row: int, frustum: Bounds -> bool, ghost t1: map<ChunkId, Tile>,
                   ghost q0: seq<ChunkToRender>, ghost cs0: seq<Chunk>, ghost n0: int, ghost e0: bool)
      requires cy - k <= row <= cy + k && Scanning(t1, frustum, cx, cy, k, row, cx + k, q0, cs0, n0, e0)
      modifies this`chunkDictionary, this`chunks, this`recyclableChunks, this`waterCount, this`waters, this`recyclableWaters,
              this`chunksToRender, Owned()
      ensures Scanning(t1, frustum, cx, cy, k, row - 1, cx + k, q0, cs0, n0, e0)
      ensures viewerPosition == old(viewerPosition) && oldViewerPosition == old(oldViewerPosition)
      ensures forall c | c in chunks + recyclableChunks :: c in old(chunks + recyclableChunks) || fresh(c)
    {
      var col := cx + k;
      while col >= cx - k
        invariant cx - k - 1 <= col <= cx + k
        invariant Scanning(t1, frustum, cx, cy, k, row, col, q0, cs0, n0, e0)
        invariant viewerPosition == old(viewerPosition) && oldViewerPosition == old(oldViewerPosition)
        invariant forall c | c in chunks + recyclableChunks :: c in old(chunks + recyclableChunks) || fresh(c)
      {
        ScanCell(cx, cy, k, row, col, frustum, t1, q0, cs0, n0, e0);
        col := col - 1;
      }
      RowTurn(Tiles(), t1, viewerPosition, frustum, cx, cy, k, row, col);
    }

    /** One cell `(col, row)` of the scan window: the swept part moves one cell on. */
    method ScanCell(cx: int, cy: int, k: int, row: int, col: int, frustum: Bounds -> bool, ghost t1: map<ChunkId, Tile>,
                    ghost q0: seq<ChunkToRender>, ghost cs0: seq<Chunk>, ghost n0: int, ghost e0: bool)
      requires InWindow(ChunkId(col, row), cx, cy, k) && Scanning(t1, frustum, cx, cy, k, row, col, q0, cs0, n0, e0)
      modifies this`chunkDictionary, this`chunks, this`recyclableChunks, this`waterCount, this`waters, this`recyclableWaters,
              this`chunksToRender, Owned()
      ensures Scanning(t1, frustum, cx, cy, k, row, col - 1, q0, cs0, n0, e0)
      ensures viewerPosition == old(viewerPosition) && oldViewerPosition == old(oldViewerPosition)
      ensures forall c | c in chunks + recyclableChunks :: c in old(chunks + recyclableChunks) || fresh(c)
    {
      ghost var t0, d0, q, cs, rc := Tiles(), chunkDictionary, chunksToRender, chunks, recyclableChunks;
      ScanChunkId(ChunkId(col, row), frustum);
      SweepStep(t0, Tiles(), t1, viewerPosition, frustum, cx, cy, k, row, col);
      GrewTrans(q0, cs0, n0, e0, q, cs, rc, chunksToRender, chunks, recyclableChunks);
      QueuedStep(d0, t0, chunkDictionary, Tiles(), t1, q0, q, chunksToRender, ChunkId(col, row));
    }

    /** From render queue `q0`, live list `cs0`, `n0` owned chunks and a recycle
        queue that was empty when `empty0` holds, to `q`, `cs` and `rc`: the live
        list and the render queue have only grown, every slice queued since
        belongs to a live chunk, no chunk object was lost, and one was made only
        with the recycle queue empty, which stays empty once it is. */
    ghost predicate Grew(q0: seq<ChunkToRender>, cs0: seq<Chunk>, n0: int, empty0: bool,
                         q: seq<ChunkToRender>, cs: seq<Chunk>, rc: seq<Chunk>) {
      && cs0 <= cs && q0 <= q
      && (forall e | e in q[|q0|..] :: e.chunk in cs)
      && |cs| + |rc| >= n0
      && (|cs| + |rc| > n0 ==> rc == [])
      && (empty0 ==> rc == [])
    }

    /** Two spans of growth make one. */
    lemma GrewTrans(q0: seq<ChunkToRender>, cs0: seq<Chunk>, n0: int, empty0: bool,
                    q1: seq<ChunkToRender>, cs1: seq<Chunk>, rc1: seq<Chunk>,
                    q2: seq<ChunkToRender>, cs2: seq<Chunk>, rc2: seq<Chunk>)
      requires Grew(q0, cs0, n0, empty0, q1, cs1, rc1)
      requires Grew(q1, cs1, |cs1| + |rc1|, rc1 == [], q2, cs2, rc2)
      ensures Grew(q0, cs0, n0, empty0, q2, cs2, rc2)
    {
      forall e | e in q2[|q0|..]
        ensures e.chunk in cs2
      {
        var i :| |q0| <= i < |q2| && q2[i] == e;
        if i < |q1| {
          assert e in q1[|q0|..];
          assert e.chunk in cs1;
        } else {
          assert e in q2[|q1|..];
        }
      }
    }

    /** Cell `id` comes after cell `(col, row)` in the scan's order: in a row
        above, or in the same row further right. */
    predicate Behind(id: ChunkId, row: int, col: int) {
      id.y > row || (id.y == row && id.x > col)
    }

    /** Every cell of the window scanned before cell `(col, row)` is settled in
        `tiles`, and `tiles` has a cell exactly when `t1`, the tiles the scan
        started from, has it or it is a scanned visible cell. */
    ghost predicate Swept(tiles: map<ChunkId, Tile>, t1: map<ChunkId, Tile>, viewer: Vec2, frustum: Bounds -> bool,
                          cx: int, cy: int, k: int, row: int, col: int) {
      && (forall id {:trigger SettledIn(tiles, viewer, frustum, id)} | InWindow(id, cx, cy, k) && Behind(id, row, col) :: SettledIn(tiles, viewer, frustum, id))
      && (forall id {:trigger id in tiles} {:trigger id in t1} :: id in tiles <==> id in t1 || (InWindow(id, cx, cy, k) && Behind(id, row, col) && Visible(viewer, frustum, id)))
    }

    /** Settling cell `(col, row)` of the window, adding it exactly when it is
        visible and changing no other tile, moves the swept part one cell on. */
    lemma SweepStep(t0: map<ChunkId, Tile>, tiles: map<ChunkId, Tile>, t1: map<ChunkId, Tile>, viewer: Vec2,
                    frustum: Bounds -> bool, cx: int, cy: int, k: int, row: int, col: int)
      requires InWindow(ChunkId(col, row), cx, cy, k) && Swept(t0, t1, viewer, frustum, cx, cy, k, row, col)
      requires AgreeExcept(tiles, t0, ChunkId(col, row)) && SettledIn(tiles, viewer, frustum, ChunkId(col, row))
      requires ChunkId(col, row) in tiles <==> ChunkId(col, row) in t0 || Visible(viewer, frustum, ChunkId(col, row))
      ensures Swept(tiles, t1, viewer, frustum, cx, cy, k, row, col - 1)
    {
      var c := ChunkId(col, row);
      assert c in t0 <==> c in t1;
      forall id | InWindow(id, cx, cy, k) && Behind(id, row, col - 1)
        ensures SettledIn(tiles, viewer, frustum, id)
      {
        if id != c {
          assert SettledIn(t0, viewer, frustum, id);
        }
      }
    }

    /** Before the top row, nothing is swept and the tiles are those the scan starts from. */
    lemma SweepInit(t1: map<ChunkId, Tile>, viewer: Vec2, frustum: Bounds -> bool, cx: int, cy: int, k: int, row: int)
      requires row == cy + k
      ensures Swept(t1, t1, viewer, frustum, cx, cy, k, row, cx + k)
    {
    }

    /** Past the left end of row `row`, the swept part is every row down to it,
        which is where the row below starts. */
    lemma RowTurn(tiles: map<ChunkId, Tile>, t1: map<ChunkId, Tile>, viewer: Vec2, frustum: Bounds -> bool,
                  cx: int, cy: int, k: int, row: int, col: int)
      requires col == cx - k - 1 && Swept(tiles, t1, viewer, frustum, cx, cy, k, row, col)
      ensures Swept(tiles, t1, viewer, frustum, cx, cy, k, row - 1, cx + k)
    {
      assert forall id | InWindow(id, cx, cy, k) :: Behind(id, row, cx - k - 1) <==> Behind(id, row - 1, cx + k);
    }

    /** Past the bottom row, the whole window is swept: every window cell is
        settled and the visible ones are present. */
    lemma SweptAll(tiles: map<ChunkId, Tile>, t1: map<ChunkId, Tile>, viewer: Vec2, frustum: Bounds -> bool,
                   cx: int, cy: int, k: int, row: int)
      requires row == cy - k - 1 && Swept(tiles, t1, viewer, frustum, cx, cy, k, row, cx + k)
      ensures forall id | InWindow(id, cx, cy, k) :: SettledIn(tiles, viewer, frustum, id)
      ensures forall id :: id in tiles <==> id in t1 || (InWindow(id, cx, cy, k) && Visible(viewer, frustum, id))
    {
    }

    /** One cell of the scan window: an empty cell strictly inside the view
        distance that passes the frustum test gets a chunk, a present chunk is
        brought to its step and flag, and no other cell changes. The render
        queue only grows, by slices of live chunks, and a chunk object is made
        only once the recycle queue is empty. */
    method ScanChunkId(chunkID: ChunkId, frustum: Bounds -> bool)
      requires Valid() && InRange()
      modifies this`chunkDictionary, this`chunks, this`recyclableChunks, this`waterCount, this`waters, this`recyclableWaters,
              this`chunksToRender, Owned()
      ensures Valid() && InRange()
      ensures viewerPosition == old(viewerPosition) && oldViewerPosition == old(oldViewerPosition)
      ensures pending == old(pending)
      ensures SettledIn(Tiles(), viewerPosition, frustum, chunkID) && AgreeExcept(Tiles(), old(Tiles()), chunkID)
      ensures chunkID in Tiles() <==> chunkID in old(Tiles()) || Visible(viewerPosition, frustum, chunkID)
      ensures AgreeExcept(chunkDictionary, old(chunkDictionary), chunkID)
      ensures chunkID in old(chunkDictionary) ==> chunkDictionary == old(chunkDictionary)
      ensures chunksToRender == old(chunksToRender) +
        if NewOrRestepped(old(Tiles()), Tiles(), chunkID) then SliceEntries(chunkDictionary[chunkID], ChunkOrigin(chunkID, chunkSize))
        else []
      ensures Grew(old(chunksToRender), old(chunks), old(|chunks| + |recyclableChunks|), old(recyclableChunks) == [],
                   chunksToRender, chunks, recyclableChunks)
      ensures forall c | c in chunks + recyclableChunks :: c in old(chunks + recyclableChunks) || fresh(c)
    {
      if chunkID !in chunkDictionary {
        var sqrDist := SqrPlayerDistanceFromCenter(chunkID);
        var bound := CalculateBounds(chunkID, chunkSize, chunkScale);
        var insideBounds := frustum(bound);
        if sqrDist < sqrViewDistance && insideBounds {
          AddChunk(chunkID);
        }
      } else {
        RefreshChunk(chunkID);
      }
    }

    /** The body of the scan for an empty visible cell: the chunk's step and
        flag are chosen by distance, the oldest queued chunk and water are reused
        when there is one, otherwise new ones are made; the chunk is registered
        and its three slices queued. */
    method AddChunk(chunkID: ChunkId)
      requires Valid() && InRange()
      requires chunkID !in chunkDictionary && SqrPlayerDistanceFromCenter(chunkID) < sqrViewDistance
      modifies this`chunkDictionary, this`chunks, this`recyclableChunks, this`waterCount, this`waters, this`recyclableWaters,
              this`chunksToRender, Owned()
      ensures Valid() && InRange()
      ensures viewerPosition == old(viewerPosition) && oldViewerPosition == old(oldViewerPosition)
      ensures pending == old(pending)
      ensures var d := SqrPlayerDistanceFromCenter(chunkID);
        Tiles() == old(Tiles())[chunkID := Tile(SelectLod(detailLevels, d), FirstTier(d) && placeObjects)]
      ensures chunkID in chunkDictionary && chunks == old(chunks) + [chunkDictionary[chunkID]]
      ensures chunkDictionary == old(chunkDictionary)[chunkID := chunkDictionary[chunkID]]
      ensures chunksToRender == old(chunksToRender) + SliceEntries(chunkDictionary[chunkID], ChunkOrigin(chunkID, chunkSize))
      ensures old(recyclableChunks) != [] ==>
        && chunkDictionary[chunkID] == old(recyclableChunks[0]) && recyclableChunks == old(recyclableChunks[1..])
        && waters == old(waters) + [old(recyclableWaters[0])] && recyclableWaters == old(recyclableWaters[1..])
        && waterCount == old(waterCount)
      ensures old(recyclableChunks) == [] ==>
        && fresh(chunkDictionary[chunkID]) && recyclableChunks == []
        && waters == old(waters) + [old(waterCount)] && recyclableWaters == [] && waterCount == old(waterCount) + 1
      ensures Grew(old(chunksToRender), old(chunks), old(|chunks| + |recyclableChunks|), old(recyclableChunks) == [],
                   chunksToRender, chunks, recyclableChunks)
      ensures forall c | c in chunks + recyclableChunks :: c in old(chunks + recyclableChunks) || fresh(c)
    {
      var currentLOD, shouldPlaceAssets := GetLodFromId(chunkID);
      SelectedStepHasTexture(SqrPlayerDistanceFromCenter(chunkID));
      if |recyclableChunks| > 0 {
        QueuedNotLive();
        ReuseChunk(chunkID, currentLOD, shouldPlaceAssets && placeObjects);
      } else {
        CreateChunk(chunkID, currentLOD, shouldPlaceAssets && placeObjects);
      }
    }

    /** The reuse branch of `AddChunk`: the oldest queued chunk is moved to cell
        `chunkID` at step `lod` with flag `should`, and the oldest queued water
        goes with it. */
    method ReuseChunk(chunkID: ChunkId, lod: int, should: bool)
      requires Valid() && InRange() && recyclableChunks != []
      requires chunkID !in chunkDictionary && SqrPlayerDistanceFromCenter(chunkID) <= sqrViewDistance
      requires lod in mapDataTextures && lod >= 1 && (should ==> placeObjects)
      modifies this`chunkDictionary, this`chunks, this`recyclableChunks, this`waterCount, this`waters, this`recyclableWaters,
              this`chunksToRender, recyclableChunks[0]
      ensures Valid() && InRange()
      ensures viewerPosition == old(viewerPosition) && oldViewerPosition == old(oldViewerPosition)
      ensures pending == old(pending)
      ensures var c := old(recyclableChunks[0]);
        && chunkDictionary == old(chunkDictionary)[chunkID := c]
        && chunks == old(chunks) + [c] && recyclableChunks == old(recyclableChunks[1..])
        && waters == old(waters) + [old(recyclableWaters[0])] && recyclableWaters == old(recyclableWaters[1..])
        && waterCount == old(waterCount)
        && chunksToRender == old(chunksToRender) + SliceEntries(c, ChunkOrigin(chunkID, chunkSize))
        && c.chunkID == chunkID && c.lod == lod && c.shouldPlaceAssets == should
        && c.position == ChunkOrigin(chunkID, chunkSize) && !c.active && c.colliderMesh == None
        && c.meshes == old(c.meshes) && c.assetRequests == old(c.assetRequests)
      ensures Tiles() == old(Tiles())[chunkID := Tile(lod, should)]
    {
      var chunk := recyclableChunks[0];
      var water := recyclableWaters[0];
      ghost var t0 := Tiles();
      DistinctMoveFront(chunks, recyclableChunks);
      Readdress(chunk, chunkID, lod, should);
      TilesAdd(chunkDictionary, chunks, chunkID, chunk);
      ghost var t1 := TilesOf(chunkDictionary[chunkID := chunk], chunks + [chunk]);
      assert t1 == t0[chunkID := Tile(lod, should)];
      assert InRangeOf(chunks + [chunk]);
      var queue := chunk.UpdateMesh(chunksToRender);
      MonoLodTerrain.ConservedMoveFront(waterCount, waters, recyclableWaters);
      ReusedValid(chunk, chunkID, water, queue);
      Commit(chunkDictionary[chunkID := chunk], chunks + [chunk], recyclableChunks[1..],
              waterCount, waters + [water], recyclableWaters[1..], queue);
      assert Tiles() == t1;
    }

    /** `UpdateData` on the front of the recycle queue, stated over the other
        chunks so that neither they nor the streamer's fields are seen to move. */
    method Readdress(c: Chunk, chunkID: ChunkId, lod: int, should: bool)
      requires recyclableChunks != [] && c == recyclableChunks[0] && c !in chunks && c !in recyclableChunks[1..]
      requires Healthy(chunks) && Healthy(recyclableChunks) && InRange()
      requires lod in mapDataTextures && lod >= 1 && (should ==> placeObjects)
      modifies c
      ensures unchanged(this) && unchanged(gate)
      ensures Healthy(chunks) && Healthy(recyclableChunks[1..]) && HealthyChunk(c) && InRange() && Tiles() == old(Tiles())
      ensures c.chunkID == chunkID && c.lod == lod && c.shouldPlaceAssets == should && c.position == ChunkOrigin(chunkID, chunkSize)
      ensures !c.active && c.colliderMesh == None && c.meshes == old(c.meshes) && c.assetRequests == old(c.assetRequests)
    {
      assert HealthyChunk(c);
      c.UpdateData(chunkID, chunkSize, lod, should);
    }

    /** The bookkeeping after the reuse branch has moved chunk `c`, the front of
        the recycle queue, to cell `id`. */
    lemma ReusedValid(c: Chunk, id: ChunkId, w: Ref, queue: seq<ChunkToRender>)
      requires ValidConfig() && recyclableChunks != [] && c == recyclableChunks[0] && |recyclableWaters| > 0 && w == recyclableWaters[0]
      requires |chunks| == |waters| && |recyclableChunks| == |recyclableWaters|
      requires Distinct((chunks + [c]) + recyclableChunks[1..])
      requires MonoLodTerrain.Conserved(waterCount, waters + [w], recyclableWaters[1..])
      requires forall h | h in waters + recyclableWaters :: h < waterCount
      requires Indexed(chunkDictionary, chunks) && id !in chunkDictionary && c.chunkID == id
      requires Healthy(chunks) && Healthy(recyclableChunks[1..]) && HealthyChunk(c)
      requires Queued(chunksToRender, chunks + recyclableChunks)
      requires queue == chunksToRender + SliceEntries(c, c.position)
      requires gate.isRenderingChunk <==> !pending.NoReadback?
      requires !pending.NoReadback? ==>
        pending.target.chunk in chunks + recyclableChunks && 0 <= pending.target.verticalChunk < VerticalChunks
      ensures ValidState(chunkDictionary[id := c], chunks + [c], recyclableChunks[1..], waterCount,
                         waters + [w], recyclableWaters[1..], queue, pending, gate.isRenderingChunk)
    {
      var cs, rc := chunks + [c], recyclableChunks[1..];
      assert chunks + recyclableChunks == cs + rc;
      assert forall h | h in (waters + [w]) + recyclableWaters[1..] :: h in waters + recyclableWaters;
      forall x | x in cs
        ensures HealthyChunk(x)
      {
        if x != c {
          assert x in chunks;
        }
      }
      forall x | x in chunks
        ensures x != c
      {
        assert x in cs;
      }
    }

    /** The make branch of `AddChunk`: with the recycle queue empty, a new chunk
        and a new water are made for cell `chunkID`. */
    method CreateChunk(chunkID: ChunkId, lod: int, should: bool)
      requires Valid() && InRange() && recyclableChunks == []
      requires chunkID !in chunkDictionary && SqrPlayerDistanceFromCenter(chunkID) <= sqrViewDistance
      requires lod in mapDataTextures && lod >= 1 && (should ==> placeObjects)
      modifies this`chunkDictionary, this`chunks, this`recyclableChunks, this`waterCount, this`waters, this`recyclableWaters,
              this`chunksToRender
      ensures Valid() && InRange()
      ensures viewerPosition == old(viewerPosition) && oldViewerPosition == old(oldViewerPosition)
      ensures pending == old(pending)
      ensures chunkID in chunkDictionary && fresh(chunkDictionary[chunkID])
      ensures var c := chunkDictionary[chunkID];
        && chunkDictionary == old(chunkDictionary)[chunkID := c]
        && chunks == old(chunks) + [c] && recyclableChunks == []
        && waters == old(waters) + [old(waterCount)] && recyclableWaters == [] && waterCount == old(waterCount) + 1
        && chunksToRender == old(chunksToRender) + SliceEntries(c, ChunkOrigin(chunkID, chunkSize))
        && c.chunkID == chunkID && c.lod == lod && c.shouldPlaceAssets == should
      ensures Tiles() == old(Tiles())[chunkID := Tile(lod, should)]
    {
      var chunk := new Chunk(chunkID, chunkSize, lod, should);
      var queue := chunk.UpdateMesh(chunksToRender);
      CreatedValid(chunk, chunkID, queue);
      TilesAdd(chunkDictionary, chunks, chunkID, chunk);
      assert InRangeOf(chunks + [chunk]);
      Commit(chunkDictionary[chunkID := chunk], chunks + [chunk], [],
              waterCount + 1, waters + [waterCount], [], queue);
    }

    /** The bookkeeping after the make branch has made chunk `c` for cell `id`. */
    lemma CreatedValid(c: Chunk, id: ChunkId, queue: seq<ChunkToRender>)
      requires ValidConfig() && recyclableChunks == [] && c !in chunks
      requires ValidState(chunkDictionary, chunks, recyclableChunks, waterCount, waters, recyclableWaters,
                          chunksToRender, pending, gate.isRenderingChunk)
      requires id !in chunkDictionary && c.chunkID == id && HealthyChunk(c)
      requires queue == chunksToRender + SliceEntries(c, c.position)
      ensures ValidState(chunkDictionary[id := c], chunks + [c], [], waterCount + 1,
                         waters + [waterCount], [], queue, pending, gate.isRenderingChunk)
    {
      assert chunks + [] == chunks && waters + [] == waters;
      MonoLodTerrain.ConservedAppendNew(waterCount, waters);
      DistinctAppend(chunks, c);
      assert chunks + [c] + [] == chunks + [c];
    }

    /** The front of the recycle queue is no live chunk. */
    lemma QueuedNotLive()
      requires Valid() && recyclableChunks != []
      ensures recyclableChunks[0] !in chunks
    {
      DistinctMoveFront(chunks, recyclableChunks);
    }

    /** Registering chunk `c` for the empty cell `id` adds its tile and changes no other. */
    lemma TilesAdd(d: map<ChunkId, Chunk>, cs: seq<Chunk>, id: ChunkId, c: Chunk)
      requires id !in d && c !in cs && forall x | x in d :: d[x] in cs
      ensures TilesOf(d[id := c], cs + [c]) == TilesOf(d, cs)[id := Tile(c.lod, c.shouldPlaceAssets)]
    {
    }

    /** The body of the scan for a cell that has a chunk: a chunk whose step
        differs from the one its distance selects takes the new step and flag
        and queues its slices again; one at its step whose flag differs from the
        first-tier test only has its flag set. */
    method RefreshChunk(chunkID: ChunkId)
      requires Valid() && InRange() && chunkID in chunkDictionary
      modifies this`chunksToRender, chunkDictionary[chunkID]
      ensures Valid() && InRange()
      ensures var d := SqrPlayerDistanceFromCenter(chunkID);
        Tiles() == old(Tiles())[chunkID := Tile(SelectLod(detailLevels, d), FirstTier(d) && placeObjects)]
      ensures var c := chunkDictionary[chunkID]; var lod := SelectLod(detailLevels, SqrPlayerDistanceFromCenter(chunkID));
        && (old(c.lod) != lod ==> chunksToRender == old(chunksToRender) + SliceEntries(c, c.position))
        && (old(c.lod) == lod ==> chunksToRender == old(chunksToRender))
      ensures var c := chunkDictionary[chunkID]; var d := SqrPlayerDistanceFromCenter(chunkID);
        && c.position == old(c.position) && c.active == old(c.active) && c.meshes == old(c.meshes)
        && (old(c.lod) != SelectLod(detailLevels, d) ==>
              c.colliderMesh == old(c.colliderMesh) && c.assetRequests == old(c.assetRequests))
        && (old(c.lod) == SelectLod(detailLevels, d) ==>
              AssetsPlaced(old(c.shouldPlaceAssets) != FirstTier(d) && FirstTier(d) && placeObjects, c.meshes, c.position,
                           old(c.colliderMesh), old(c.assetRequests), c.colliderMesh, c.assetRequests))
    {
      var chunk := chunkDictionary[chunkID];
      var updatedLOD, shouldPlaceAssets := GetLodFromId(chunkID);
      SelectedStepHasTexture(SqrPlayerDistanceFromCenter(chunkID));
      if chunk.lod != updatedLOD {
        Relod(chunk, updatedLOD, shouldPlaceAssets && placeObjects);
      } else if chunk.shouldPlaceAssets != shouldPlaceAssets {
        Reflag(chunk, shouldPlaceAssets && placeObjects);
      } else {
        assert chunk in chunks && HealthyChunk(chunk);
        assert Tiles()[chunkID] == Tile(updatedLOD, shouldPlaceAssets && placeObjects);
        assert Tiles() == old(Tiles())[chunkID := Tile(updatedLOD, shouldPlaceAssets && placeObjects)];
      }
    }

    /** `UpdateLOD` then `UpdateMesh` on the live chunk `c`. */
    method Relod(c: Chunk, lod: int, should: bool)
      requires Valid() && InRange() && c in chunks
      requires lod in mapDataTextures && lod >= 1 && (should ==> placeObjects)
      modifies this`chunksToRender, c
      ensures Valid() && InRange()
      ensures c.chunkID == old(c.chunkID) && c.position == old(c.position)
      ensures c.active == old(c.active) && c.meshes == old(c.meshes)
      ensures c.colliderMesh == old(c.colliderMesh) && c.assetRequests == old(c.assetRequests)
      ensures chunksToRender == old(chunksToRender) + SliceEntries(c, c.position)
      ensures Tiles() == old(Tiles())[c.chunkID := Tile(lod, should)]
    {
      Restep(c, lod, should);
      var queue := c.UpdateMesh(chunksToRender);
      SetQueue(queue);
    }

    /** Stores a new render queue that keeps the bookkeeping. */
    method SetQueue(q: seq<ChunkToRender>)
      requires ValidConfig() && InRange()
      requires ValidState(chunkDictionary, chunks, recyclableChunks, waterCount, waters, recyclableWaters,
                          q, pending, gate.isRenderingChunk)
      modifies this`chunksToRender
      ensures Valid() && InRange() && chunksToRender == q && Tiles() == old(Tiles())
    {
      chunksToRender := q;
    }

    /** `UpdateLOD` on the live chunk `c`, stated over the live and queued
        chunks so that the streamer's own fields are seen not to move. */
    method Restep(c: Chunk, lod: int, should: bool)
      requires ValidConfig() && c in chunks && Indexed(chunkDictionary, chunks)
      requires Healthy(chunks) && Healthy(recyclableChunks) && Distinct(chunks + recyclableChunks) && InRange()
      requires lod in mapDataTextures && lod >= 1 && (should ==> placeObjects)
      modifies c
      ensures unchanged(this) && unchanged(gate)
      ensures Healthy(chunks) && Healthy(recyclableChunks) && Indexed(chunkDictionary, chunks) && InRange()
      ensures c.chunkID == old(c.chunkID) && c.position == old(c.position) && c.lod == lod && c.shouldPlaceAssets == should
      ensures c.active == old(c.active) && c.meshes == old(c.meshes)
      ensures c.colliderMesh == old(c.colliderMesh) && c.assetRequests == old(c.assetRequests)
      ensures Tiles() == old(Tiles())[c.chunkID := Tile(lod, should)]
    {
      c.UpdateLOD(lod, should);
    }

    /** `UpdateShouldPlaceAssets` on the live chunk `c`: the flag is set, and
        when it is set assets are placed on the chunk's middle slice. */
    method Reflag(c: Chunk, should: bool)
      requires Valid() && InRange() && c in chunks && (should ==> placeObjects)
      modifies c
      ensures Valid() && InRange()
      ensures c.chunkID == old(c.chunkID) && c.lod == old(c.lod) && c.shouldPlaceAssets == should
      ensures c.position == old(c.position) && c.active == old(c.active) && c.meshes == old(c.meshes)
      ensures AssetsPlaced(should, c.meshes, c.position, old(c.colliderMesh), old(c.assetRequests), c.colliderMesh, c.assetRequests)
      ensures Tiles() == old(Tiles())[c.chunkID := Tile(c.lod, should)]
    {
      c.UpdateShouldPlaceAssets(should);
    }
  }

  /** With two or more levels, a chunk is in the first tier exactly when the
      selected step is the first level's tier: the flag and the step agree. */
  lemma FirstTierIsTierZero(t: seq<DetailLevel>, d: real)
    requires |t| > 1
    ensures d < SqrDistanceOf(t[0]) <==> Tier(t, d) == 0
  {
    TierUnique(t, d, 0);
  }
}
