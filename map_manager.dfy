/** MapManager: the grid constants, the biome material lookup, the shape of the
    density textures and the two entry points that forward a chunk's centre to
    the density generator. */
module MapManager {
  import opened Mathf
  import opened ChunkGrid
  import opened DensityGenerator
  import opened Collections

  /** Samples per chunk side (`chunkSize`); neighbouring chunks share one sample
      row, so the grid step is `ChunkSize - 1`. */
  const ChunkSize: int := 103
  /** `chunkScale`, the grid scale handed to the density kernel. */
  const ChunkScale: real := 1.0
  /** `terrainScale`, the world scale of a chunk (declared in Legacy/MapManager.cs). */
  const TerrainScale: real := 15.0
  /** Side of a material region in chunk-local units (`206 * 10f`). */
  const MaterialRegionSize: real := 2060.0

  /** The region `GetBiomeMaterial` hashes: the position shifted by one unit,
      floored by the material region size. */
  function MaterialRegion(chunkPosition: Vec2): RegionId {
    RegionId(Region(chunkPosition.x + 1.0, MaterialRegionSize), Region(chunkPosition.y + 1.0, MaterialRegionSize))
  }

  /** `GetBiomeMaterial`: the index into `biomeMaterials` for a chunk position,
      with the bucket as the source computes it, or `None` where
      `biomeMaterials[biomeID]` throws: an empty table (the step is `1 / 0` and
      the index 0), or a hash of 1 or more, whose bucket is one past the end. */
  function GetBiomeMaterial(chunkPosition: Vec2, materialCount: nat, noise: RegionId -> real): (m: Option<nat>)
    ensures m.Some? <==> materialCount > 0 && noise(MaterialRegion(chunkPosition)) < 1.0
    ensures m.Some? ==> m.value < materialCount
    ensures m.Some? && 0.0 <= noise(MaterialRegion(chunkPosition)) ==>
      var v := noise(MaterialRegion(chunkPosition));
      m.value as real / materialCount as real <= v < (m.value + 1) as real / materialCount as real
  {
    if materialCount == 0 then None
    else
      var v := noise(MaterialRegion(chunkPosition));
      BucketAsWrittenRange(v, materialCount);
      SliceWhenInRange(v, materialCount);
      var b := BucketAsWritten(v, materialCount);
      if b >= materialCount then None else Some(b)
  }

  /** All chunk positions of one material region get the same material. */
  lemma SameRegionSameMaterial(a: Vec2, b: Vec2, materialCount: nat, noise: RegionId -> real)
    requires MaterialRegion(a) == MaterialRegion(b)
    ensures GetBiomeMaterial(a, materialCount, noise) == GetBiomeMaterial(b, materialCount, noise)
  {
  }

  /** Material regions (shifted by one, 2060 wide) and density biome regions (not
      shifted, 2040 wide) do not line up: positions 0 and 2040 share a material
      region but lie in different density regions, so a noise hash that tells
      regions 0 and 1 apart gives them one material and two density biomes. */
  lemma MaterialAndDensityRegionsDisagree()
    ensures MaterialRegion(Vec2(0.0, 0.0)) == MaterialRegion(Vec2(2040.0, 0.0))
    ensures Region(0.0, BiomeRegionSize) != Region(2040.0, BiomeRegionSize)
  {
    RegionBounds(1.0, MaterialRegionSize, 0);
    RegionBounds(2041.0, MaterialRegionSize, 0);
    RegionBounds(0.0, BiomeRegionSize, 0);
    RegionBounds(2040.0, BiomeRegionSize, 1);
  }

  // ------------------------------------------------------------ textures

  datatype TextureDimension = Tex2D | Tex3D
  datatype WrapMode = Repeat | Clamp

  /** The configuration of a render texture. */
  datatype RenderTexture = RenderTexture(
    width: int, height: int, volumeDepth: int, dimension: TextureDimension,
    wrapMode: WrapMode, enableRandomWrite: bool)

  /** `CreateTextureBuffer(meshSize)`: a random-write, clamped 3D volume. */
  function CreateTextureBuffer(meshSize: int): (tex: RenderTexture)
    ensures tex.dimension == Tex3D && tex.wrapMode == Clamp && tex.enableRandomWrite
  {
    RenderTexture(meshSize + 1, meshSize + 1, meshSize + 1, Tex3D, Clamp, true)
  }

  /** `Mathf.CeilToInt((float) chunkSize / lod)`: the samples per side at a step. */
  function RelativeChunkSize(lod: int): (n: int)
    requires lod >= 1
    ensures 1 <= n <= ChunkSize
    ensures (n - 1) * lod < ChunkSize <= n * lod
  {
    CeilDiv(ChunkSize, lod)
  }

  /** The texture made for a detail step holds one cell per grid sample in each
      dimension (with one to spare), and never more than the finest texture. */
  lemma TextureCoversGrid(lod: int)
    requires lod >= 1
    ensures var tex := CreateTextureBuffer(RelativeChunkSize(lod));
      && tex.width == tex.height == tex.volumeDepth == RelativeChunkSize(lod) + 1
      && RelativeChunkSize(lod) < tex.width <= CreateTextureBuffer(RelativeChunkSize(1)).width
  {
    assert RelativeChunkSize(1) == ChunkSize;
  }

  /** With a step that divides the slice height `ChunkSize - 1`, the
      `RelativeChunkSize(lod)` samples spaced `lod` apart span exactly one slice,
      so stacked slices and neighbouring chunks meet. */
  lemma GridSpansSliceWhenStepDivides(lod: int)
    requires lod >= 1 && (ChunkSize - 1) % lod == 0
    ensures (RelativeChunkSize(lod) - 1) * lod == ChunkSize - 1
  {
    var n := RelativeChunkSize(lod);
    var q := (ChunkSize - 1) / lod;
    assert q * lod == ChunkSize - 1;
    MulCancel(n - 1, q, lod);
    MulCancel(q + 1, n, lod);
  }

  /** A positive factor can be cancelled from an inequality between products. */
  lemma MulCancel(a: int, b: int, l: int)
    requires l >= 1 && a * l <= b * l
    ensures a <= b
  {
    MulGrows(a, b, l);
  }

  /** A positive factor keeps a strict order between integers. */
  lemma MulGrows(a: int, b: int, l: int)
    requires l >= 1
    ensures a > b ==> a * l > b * l
  {
    if a > b {
      var d := a - b - 1;
      assert d * l >= 0;
      assert a * l == b * l + l + d * l;
    }
  }

  /** With step 4 the grid has 26 samples spanning 100 units, two short of the
      slice height: the ceiling in `RelativeChunkSize` does not make up for a
      step that does not divide 102. */
  lemma GridFallsShortAtStepFour()
    ensures RelativeChunkSize(4) == 26
    ensures (RelativeChunkSize(4) - 1) * 4 == 100 < ChunkSize - 1
  {
  }

  // ------------------------------------------------------------ density requests

  /** The request `GenerateMapDataTexture` forwards: the planar centre `(x, y)`
      lifted to `(x, 0, y)`. */
  function LiftedRequest(center: Vec2, lod: int, chunkSize: int): (r: DensityRequest)
    ensures r.center.x == center.x && r.center.y == 0.0 && r.center.z == center.y
    ensures r.gridSize == chunkSize && r.lod == lod && r.gridScale == ChunkScale
  {
    DensityRequest(chunkSize, ChunkScale, lod, Vec3(center.x, 0.0, center.y))
  }

  /** `GenerateMapDataTexture`: density for a planar centre. */
  method GenerateMapDataTexture(center: Vec2, lod: int, chunkSize: int, biomeData: seq<BiomeDensityData>,
                                noise: RegionId -> real, draws: (int, nat) -> int)
    returns (outcome: DensityOutcome)
    ensures outcome == DensityOutcomeOf(LiftedRequest(center, lod, chunkSize), biomeData, noise, draws)
    ensures outcome == Skipped <==> chunkSize == 0
    ensures outcome.Dispatched? ==> outcome.dispatch.kernel == GetBiomeKernel(center, noise)
  {
    var densityGenerator := new DensityGenerator();
    outcome := densityGenerator.GenerateMapDensityTexture(LiftedRequest(center, lod, chunkSize), biomeData, noise, draws);
  }

  /** `GenerateMapDataTextureFrom3DOrigin`: density for a 3D origin, passed through. */
  method GenerateMapDataTextureFrom3DOrigin(center: Vec3, lod: int, chunkSize: int, biomeData: seq<BiomeDensityData>,
                                            noise: RegionId -> real, draws: (int, nat) -> int)
    returns (outcome: DensityOutcome)
    ensures outcome == DensityOutcomeOf(DensityRequest(chunkSize, ChunkScale, lod, center), biomeData, noise, draws)
    ensures outcome == Skipped <==> chunkSize == 0
    ensures outcome.Dispatched? ==>
      && outcome.dispatch.center == center && outcome.dispatch.lod == lod && outcome.dispatch.gridSize == chunkSize
      && outcome.dispatch.kernel == GetBiomeKernel(Vec2(center.x, center.z), noise)
  {
    var densityGenerator := new DensityGenerator();
    outcome := densityGenerator.GenerateMapDensityTexture(DensityRequest(chunkSize, ChunkScale, lod, center), biomeData, noise, draws);
  }
}
