/** The chunk of the asynchronous generator: three vertical mesh slices that are
    queued for rendering and filled by a staged GPU handshake (density, vertex
    read-back, triangle read-back), one slice at a time. */
module LegacyChunk {
  import opened ChunkGrid
  import opened Collections
  import opened DensityGenerator
  import opened MapManager

  /** `ChunkToRender`: one slice of `chunk`, with the origin its density is sampled at. */
  datatype ChunkToRender = ChunkToRender(chunk: Chunk, position: Vec3, verticalChunk: int)

  /** A mesh as `GetMesh` builds it from the read-back arrays; the zero-triangle
      path passes no arrays and gets an empty mesh. */
  datatype Mesh = Mesh(vertices: seq<Vec3>, triangles: seq<int>)

  /** What the marching-cubes kernel counts for a density volume (`tris`, `verts`). */
  datatype MeshCounts = MeshCounts(tris: nat, verts: nat)

  /** The arguments of one `AssetPlacer.PlaceAssets` call. */
  datatype AssetRequest = AssetRequest(startPos: Vec3, length: real)

  /** The GPU read-back a chunk is waiting for, with what its callback captured. */
  datatype Readback =
    | NoReadback
    | VertexReadback(target: ChunkToRender, request: DensityRequest, counts: MeshCounts)
    | TriangleReadback(target: ChunkToRender, vertices: seq<Vec3>, triangleBufferLength: nat)
      /** The density lookup threw inside `RequestVertices`: no read-back was
          requested, so no callback will ever free the slot. */
    | Stalled(target: ChunkToRender)

  /** What the density texture is computed from besides the request: the
      biomes' noise data (`biomeDensityData`), the white-noise hash of a region
      and Unity's random stream (`draws(seed, k)`). */
  datatype DensityInputs = DensityInputs(
    biomeData: seq<BiomeDensityData>,
    noise: RegionId -> real,
    draws: (int, nat) -> int)

  /** The single render slot: `isRenderingChunk` and the `SetIsRendering` callback
      that chunks are handed. */
  class RenderGate {
    var isRenderingChunk: bool

    constructor ()
      ensures !isRenderingChunk
    {
      isRenderingChunk := false;
    }

    /** `SetIsRendering`: frees the slot. */
    method SetIsRendering()
      modifies this
      ensures !isRenderingChunk
    {
      isRenderingChunk := false;
    }
  }

  /** The queue entries `UpdateMesh` appends for a chunk at `position`: slice `i`
      starts `i * (ChunkSize - 1)` above the ground. */
  function SliceEntries(chunk: Chunk, position: Vec2): (r: seq<ChunkToRender>)
    ensures |r| == VerticalChunks
    ensures forall i :: 0 <= i < |r| ==> r[i].chunk == chunk && r[i].verticalChunk == i
  {
    seq(VerticalChunks, i requires 0 <= i < VerticalChunks =>
      ChunkToRender(chunk, Vec3(position.x, (i * (ChunkSize - 1)) as real, position.y), i))
  }

  /** The slices stand on the chunk's corner, one above the other with no gap:
      each starts where the one below ends. */
  lemma SlicesStack(chunk: Chunk, position: Vec2)
    ensures var r := SliceEntries(chunk, position);
      && r[0].position == Vec3(position.x, 0.0, position.y)
      && forall i :: 0 <= i < |r| - 1 ==>
        r[i + 1].position == r[i].position.(y := r[i].position.y + (ChunkSize - 1) as real)
  {
    var r := SliceEntries(chunk, position);
    forall i | 0 <= i < |r| - 1
      ensures r[i + 1].position == r[i].position.(y := r[i].position.y + (ChunkSize - 1) as real)
    {
      assert ((i + 1) * (ChunkSize - 1)) as real == (i * (ChunkSize - 1)) as real + (ChunkSize - 1) as real;
    }
  }

  /** `GetMesh`: the mesh of the read-back arrays, empty when there are none. */
  function GetMesh(vertices: Option<seq<Vec3>>, triangles: Option<seq<int>>): (m: Mesh)
    ensures vertices.Some? ==> m.vertices == vertices.value
    ensures vertices.None? ==> m.vertices == []
    ensures triangles.Some? ==> m.triangles == triangles.value
    ensures triangles.None? ==> m.triangles == []
  {
    Mesh(if vertices.Some? then vertices.value else [], if triangles.Some? then triangles.value else [])
  }

  /** Whether `PlaceAssets` gets past its guard: the middle slice has a mesh with
      at least one vertex. */
  predicate MiddleSliceHasVertices(meshes: seq<Option<Mesh>>)
    requires |meshes| == VerticalChunks
  {
    meshes[1].Some? && |meshes[1].value.vertices| > 0
  }

  /** What placing assets leaves in the collider and the placer's calls, from
      `collider0` and `requests0`, for a chunk at `position` whose flag is
      `should`: when the flag is set and the middle slice has vertices, that
      mesh becomes the collider and one request for the chunk's square is
      appended; otherwise both stay as they were. */
  predicate AssetsPlaced(should: bool, meshes: seq<Option<Mesh>>, position: Vec2,
                         collider0: Option<Mesh>, requests0: seq<AssetRequest>,
                         collider: Option<Mesh>, requests: seq<AssetRequest>)
  {
    if should && |meshes| == VerticalChunks && MiddleSliceHasVertices(meshes) then
      collider == meshes[1] && requests == requests0 + [AssetRequestAt(position)]
    else
      collider == collider0 && requests == requests0
  }

  /** The request a chunk at `position` makes of the asset placer: the chunk's
      corner at ground level and its side, both in world units. */
  function AssetRequestAt(position: Vec2): (r: AssetRequest)
    ensures r.startPos.y == 0.0 && r.length == (ChunkSize - 1) as real * TerrainScale
  {
    AssetRequest(Vec3(position.x * TerrainScale, 0.0, position.y * TerrainScale), (ChunkSize - 1) as real * TerrainScale)
  }

  /** The density request a slice gets at detail step `lod`: `ceil(ChunkSize / lod)`
      samples per side, at the slice's origin. */
  function SliceRequest(target: ChunkToRender, lod: int): (r: DensityRequest)
    requires lod >= 1
    ensures r.center == target.position && r.lod == lod
    ensures 1 <= r.gridSize <= ChunkSize && (r.gridSize - 1) * lod < ChunkSize <= r.gridSize * lod
  {
    DensityRequest(RelativeChunkSize(lod), ChunkScale, lod, target.position)
  }

  /** The read-back a slice's request leaves awaited: none when the density
      lookup throws (the slot stays taken), none when the kernel counts no
      triangles (the mesh is built at once), and otherwise the vertex read-back. */
  function RequestOutcome(target: ChunkToRender, lod: int, march: DensityRequest -> MeshCounts,
                          density: DensityInputs): (r: Readback)
    requires lod >= 1
    ensures r.Stalled? <==> BiomeIndexThrows(SliceRequest(target, lod), density.biomeData, density.noise)
    ensures r.NoReadback? <==>
      !BiomeIndexThrows(SliceRequest(target, lod), density.biomeData, density.noise)
      && march(SliceRequest(target, lod)).tris == 0
    ensures !r.NoReadback? ==> r.target == target
  {
    var request := SliceRequest(target, lod);
    if BiomeIndexThrows(request, density.biomeData, density.noise) then Stalled(target)
    else if march(request).tris == 0 then NoReadback
    else VertexReadback(target, request, march(request))
  }

  class Chunk {
    var position: Vec2
    var chunkID: ChunkId
    var lod: int
    var shouldPlaceAssets: bool
    /** Whether the parent object is active (shown). */
    var active: bool
    /** `meshFilters[i].sharedMesh` for the three slices. */
    var meshes: seq<Option<Mesh>>
    /** `meshCollider.sharedMesh`; only the middle slice collides. */
    var colliderMesh: Option<Mesh>
    /** The calls made to the asset placer, oldest first. */
    var assetRequests: seq<AssetRequest>

    ghost predicate Valid()
      reads this
    {
      |meshes| == VerticalChunks
    }

    constructor (chunkID: ChunkId, size: int, lod: int, shouldPlaceAssets: bool)
      ensures Valid()
      ensures this.chunkID == chunkID && position == ChunkOrigin(chunkID, size) && this.lod == lod
      ensures this.shouldPlaceAssets == shouldPlaceAssets && !active
      ensures meshes == [None, None, None] && colliderMesh == None && assetRequests == []
    {
      this.chunkID := chunkID;
      this.lod := lod;
      position := ChunkOrigin(chunkID, size);
      this.shouldPlaceAssets := shouldPlaceAssets;
      active := false;
      meshes := [None, None, None];
      colliderMesh := None;
      assetRequests := [];
    }

    /** `UpdateData`: recycles the chunk for another id. The parent is hidden and
        the collider cleared; the slices keep their old meshes until rebuilt. */
    method UpdateData(chunkID: ChunkId, size: int, currentLOD: int, shouldPlaceAssets: bool)
      requires Valid()
      modifies this
      ensures Valid()
      ensures this.chunkID == chunkID && position == ChunkOrigin(chunkID, size) && lod == currentLOD
      ensures this.shouldPlaceAssets == shouldPlaceAssets && !active && colliderMesh == None
      ensures meshes == old(meshes) && assetRequests == old(assetRequests)
    {
      active := false;
      this.chunkID := chunkID;
      position := ChunkOrigin(chunkID, size);
      lod := currentLOD;
      this.shouldPlaceAssets := shouldPlaceAssets;
      colliderMesh := None;
    }

    /** `UpdateLOD`: only the step and the placement flag change. */
    method UpdateLOD(newLOD: int, should: bool)
      requires Valid()
      modifies this
      ensures Valid()
      ensures lod == newLOD && shouldPlaceAssets == should
      ensures position == old(position) && chunkID == old(chunkID) && active == old(active)
      ensures meshes == old(meshes) && colliderMesh == old(colliderMesh) && assetRequests == old(assetRequests)
    {
      lod := newLOD;
      shouldPlaceAssets := should;
    }

    /** `UpdateShouldPlaceAssets`: sets the flag and places assets only when it is set. */
    method UpdateShouldPlaceAssets(should: bool)
      requires Valid()
      modifies this
      ensures Valid() && shouldPlaceAssets == should
      ensures position == old(position) && chunkID == old(chunkID) && lod == old(lod)
      ensures active == old(active) && meshes == old(meshes)
      ensures AssetsPlaced(should, meshes, position, old(colliderMesh), old(assetRequests), colliderMesh, assetRequests)
    {
      shouldPlaceAssets := should;
      if should {
        PlaceAssets();
      }
    }

    /** `UpdateMesh`: queues the three slices, bottom first, behind what is queued. */
    method UpdateMesh(chunksToRender: seq<ChunkToRender>) returns (queue: seq<ChunkToRender>)
      ensures queue == chunksToRender + SliceEntries(this, position)
    {
      queue := chunksToRender;
      var i := 0;
      while i < VerticalChunks
        invariant 0 <= i <= VerticalChunks
        invariant queue == chunksToRender + SliceEntries(this, position)[..i]
      {
        var chunkPos := Vec3(position.x, (i * (ChunkSize - 1)) as real, position.y);
        queue := queue + [ChunkToRender(this, chunkPos, i)];
        i := i + 1;
      }
    }

    /** `RequestVertices`: fills the density volume for the slice at the chunk's
        step as it is NOW (not when the slice was queued) and runs the vertex
        kernel (`march`). When the density lookup throws nothing else happens.
        With no triangles the mesh is built at once from no arrays and the slot
        is freed; otherwise a vertex read-back is awaited. */
    method RequestVertices(target: ChunkToRender, march: DensityRequest -> MeshCounts, density: DensityInputs,
                           gate: RenderGate)
      returns (pending: Readback)
      requires Valid() && lod >= 1 && 0 <= target.verticalChunk < VerticalChunks
      modifies this, gate
      ensures Valid()
      ensures pending == RequestOutcome(target, old(lod), march, density)
      ensures pending.NoReadback? ==>
        && meshes == old(meshes)[target.verticalChunk := Some(Mesh([], []))]
        && !gate.isRenderingChunk && active
        && AssetsPlaced(shouldPlaceAssets, meshes, position, old(colliderMesh), old(assetRequests), colliderMesh, assetRequests)
      ensures !pending.NoReadback? ==> unchanged(this) && unchanged(gate)
      ensures position == old(position) && chunkID == old(chunkID) && lod == old(lod)
      ensures shouldPlaceAssets == old(shouldPlaceAssets)
    {
      var request := SliceRequest(target, lod);
      var outcome := GenerateMapDataTextureFrom3DOrigin(target.position, lod, request.gridSize,
                                                        density.biomeData, density.noise, density.draws);
      if outcome.BiomeIndexOutOfRange? {
        return Stalled(target);
      }
      var counts := march(request);
      if counts.tris == 0 {
        BuildMesh(None, None, target, gate);
        return NoReadback;
      }
      pending := VertexReadback(target, request, counts);
    }

    /** `GetVerticesCallback`: keeps the read-back vertices and asks for the
        triangles, `tris * 3` indices. */
    method GetVerticesCallback(target: ChunkToRender, counts: MeshCounts, vertices: seq<Vec3>)
      returns (pending: Readback)
      ensures pending.TriangleReadback? && pending.target == target && pending.vertices == vertices
      ensures pending.triangleBufferLength == 3 * counts.tris
    {
      pending := TriangleReadback(target, vertices, 3 * counts.tris);
    }

    /** `GetTrianglesCallback`: builds the slice's mesh from both read-backs. */
    method GetTrianglesCallback(target: ChunkToRender, vertices: seq<Vec3>, triangles: seq<int>, gate: RenderGate)
      requires Valid() && 0 <= target.verticalChunk < VerticalChunks
      modifies this, gate
      ensures Valid()
      ensures meshes == old(meshes)[target.verticalChunk := Some(Mesh(vertices, triangles))]
      ensures !gate.isRenderingChunk && active
      ensures position == old(position) && chunkID == old(chunkID) && lod == old(lod)
      ensures shouldPlaceAssets == old(shouldPlaceAssets)
      ensures AssetsPlaced(shouldPlaceAssets, meshes, position, old(colliderMesh), old(assetRequests), colliderMesh, assetRequests)
    {
      BuildMesh(Some(vertices), Some(triangles), target, gate);
    }

    /** `BuildMesh`: sets the slice's mesh, frees the render slot, shows the chunk
        and, when the flag is set, places assets. The chunk written is this one,
        whatever id it has been given since the slice was queued. */
    method BuildMesh(vertices: Option<seq<Vec3>>, triangles: Option<seq<int>>, target: ChunkToRender, gate: RenderGate)
      requires Valid() && 0 <= target.verticalChunk < VerticalChunks
      modifies this, gate
      ensures Valid()
      ensures meshes == old(meshes)[target.verticalChunk := Some(GetMesh(vertices, triangles))]
      ensures !gate.isRenderingChunk && active
      ensures position == old(position) && chunkID == old(chunkID) && lod == old(lod)
      ensures shouldPlaceAssets == old(shouldPlaceAssets)
      ensures AssetsPlaced(shouldPlaceAssets, meshes, position, old(colliderMesh), old(assetRequests), colliderMesh, assetRequests)
    {
      meshes := meshes[target.verticalChunk := Some(GetMesh(vertices, triangles))];
      gate.SetIsRendering();
      active := true;
      if shouldPlaceAssets {
        PlaceAssets();
      }
    }

    /** `PlaceAssets`: nothing unless the middle slice has vertices; then that
        mesh becomes the collider and the placer is called for the chunk square. */
    method PlaceAssets()
      requires Valid()
      modifies this
      ensures Valid()
      ensures position == old(position) && chunkID == old(chunkID) && lod == old(lod)
      ensures shouldPlaceAssets == old(shouldPlaceAssets) && active == old(active) && meshes == old(meshes)
      ensures AssetsPlaced(true, meshes, position, old(colliderMesh), old(assetRequests), colliderMesh, assetRequests)
    {
      if meshes[1].None? || |meshes[1].value.vertices| <= 0 {
        return;
      }
      colliderMesh := meshes[1];
      assetRequests := assetRequests + [AssetRequestAt(position)];
    }
  }

  /** A chunk recycled while one of its slices is in flight still receives that
      slice's mesh: the slice was sampled at the old corner, yet the mesh lands in
      the chunk that now stands at `newId`, and the chunk is shown. */
  method StaleCompletion(oldId: ChunkId, newId: ChunkId, vertices: seq<Vec3>, triangles: seq<int>)
    returns (builtFrom: Vec3, chunkNow: ChunkId, shown: bool, slice: Option<Mesh>)
    requires oldId != newId
    ensures builtFrom == Vec3((oldId.x * (ChunkSize - 1)) as real, 0.0, (oldId.y * (ChunkSize - 1)) as real)
    ensures chunkNow == newId && shown
    ensures slice == Some(Mesh(vertices, triangles))
  {
    var size := ChunkSize - 1;
    var gate := new RenderGate();
    var chunk := new Chunk(oldId, size, 1, false);
    var queue := chunk.UpdateMesh([]);
    var target := queue[0];
    gate.isRenderingChunk := true;
    var biomes := seq(|Biomes|, _ => BiomeDensityData([]));
    var pending := chunk.RequestVertices(target, _ => MeshCounts(1, 3), DensityInputs(biomes, _ => 0.0, (_, _) => 0), gate);
    chunk.UpdateData(newId, size, 1, false);
    pending := chunk.GetVerticesCallback(pending.target, pending.counts, vertices);
    chunk.GetTrianglesCallback(pending.target, pending.vertices, triangles, gate);
    builtFrom := target.position;
    chunkNow := chunk.chunkID;
    shown := chunk.active;
    slice := chunk.meshes[0];
  }
}
