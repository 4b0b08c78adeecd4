/** DensityGenerator: picks a biome kernel from the chunk centre, prepares the
    octave buffers and the seeded octave offsets, and dispatches the density
    kernel over the chunk's grid. */
module DensityGenerator {
  import opened Mathf
  import opened ChunkGrid
  import opened Collections

  /** Threads per group of the density kernel (`noThreads`). */
  const NoThreads: int := 8
  /** The seed `Random.InitState` receives before the offsets are drawn. */
  const OffsetSeed: int := 1996
  /** Side of a biome region in chunk-local units (`204 * 10f`). */
  const BiomeRegionSize: real := 2040.0
  /** The kernel names of the `biomes` dictionary, in id order. */
  const Biomes: seq<string> := ["IslandDensity", "DunesDensity", "MountainsDensity", "RockOceanDensity"]

  /** A floored region coordinate fed to the white-noise hash. */
  datatype RegionId = RegionId(x: int, y: int)

  /** `BiomeDensityData`: the (frequency, amplitude) pairs of one biome's octaves. */
  datatype BiomeDensityData = BiomeDensityData(noiseParameters: seq<Vec2>)

  /** The arguments the density kernel is asked to fill a texture with. */
  datatype DensityRequest = DensityRequest(gridSize: int, gridScale: real, lod: int, center: Vec3)

  /** An integer offset triple drawn by `Random.Range(-99999, 99999)`. */
  datatype Offset = Offset(x: int, y: int, z: int)

  /** What one kernel dispatch is given. */
  datatype Dispatch = Dispatch(
    kernel: nat, gridSize: int, octaves: nat, lod: int, gridScale: real, center: Vec3,
    noiseParameters: seq<Vec2>, offsets: seq<Offset>, threadGroups: int)

  /** `GenerateMapDensityTexture`'s effect: nothing for an empty grid, an
      IndexOutOfRangeException when the biome table is shorter than the chosen
      kernel id, otherwise one dispatch. */
  datatype DensityOutcome = Skipped | BiomeIndexOutOfRange(kernel: nat) | Dispatched(dispatch: Dispatch)

  /** A compute buffer: element count and whether it has been released. */
  datatype ComputeBuffer = ComputeBuffer(count: int, stride: int, released: bool)

  // ------------------------------------------------------------ biome buckets

  /** `Mathf.FloorToInt(c / width)`: the region a coordinate falls in. */
  function Region(c: real, width: real): int
    requires width > 0.0
  {
    FloorToInt(c / width)
  }

  /** A region is the half-open interval `[r * width, (r + 1) * width)`. */
  lemma RegionBounds(c: real, width: real, r: int)
    requires width > 0.0
    ensures Region(c, width) == r <==> r as real * width <= c < (r + 1) as real * width
  {
    var f := Region(c, width);
    ScaledBetween(f as real, c / width, (f + 1) as real, width, c);
    IntervalUnique(f, r, width, c);
  }

  /** Scaling by a positive width keeps a quotient between its bounds. */
  lemma ScaledBetween(lo: real, q: real, hi: real, width: real, c: real)
    requires lo <= q < hi && width > 0.0 && q == c / width
    ensures lo * width <= c < hi * width
  {
    assert q * width == c;
    MulMonotone(lo, q, width);
    MulStrictMonotone(q, hi, width);
  }

  /** The intervals `[r * width, (r + 1) * width)` do not overlap. */
  lemma IntervalUnique(f: int, r: int, width: real, c: real)
    requires width > 0.0 && f as real * width <= c < (f + 1) as real * width
    ensures f == r <==> r as real * width <= c < (r + 1) as real * width
  {
    if r < f {
      MulMonotone((r + 1) as real, f as real, width);
      assert c >= (r + 1) as real * width;
    } else if r > f {
      MulMonotone((f + 1) as real, r as real, width);
      assert c < r as real * width;
    } else {
      assert r as real * width <= c;
      assert c < (r + 1) as real * width;
    }
  }

  /** The bucket as the source computes it: `FloorToInt(Clamp(v, 0, 1) / (1f / n))`. */
  function BucketAsWritten(v: real, n: nat): int
    requires n > 0
  {
    FloorToInt(Clamp(v, 0.0, 1.0) / (1.0 / n as real))
  }

  /** A clamped noise value of exactly 1 lands one past the last bucket. */
  lemma BucketAsWrittenOverflows(n: nat)
    requires n > 0
    ensures BucketAsWritten(1.0, n) == n
  {
    assert 1.0 / (1.0 / n as real) == n as real;
  }

  /** The bucket with the clamp's upper end folded into the last bucket, so that
      every value selects one of the `n` entries. */
  function Bucket(v: real, n: nat): (b: nat)
    requires n > 0
    ensures b < n
  {
    var raw := BucketAsWritten(v, n);
    if raw >= n then n - 1 else if raw < 0 then 0 else raw
  }

  /** At the top of the clamp, where the bucket as written is one past the
      table, the corrected bucket is the last one. */
  lemma BucketClampsTop(v: real, n: nat)
    requires n > 0 && v >= 1.0
    ensures BucketAsWritten(v, n) == n && Bucket(v, n) == n - 1
  {
    BucketAsWrittenRange(v, n);
  }

  /** On the hash's range `[0, 1)` the two definitions agree, and the bucket is the
      one of `n` equal slices that contains the value. */
  lemma BucketIsSlice(v: real, n: nat)
    requires n > 0 && 0.0 <= v < 1.0
    ensures Bucket(v, n) == BucketAsWritten(v, n)
    ensures (Bucket(v, n) as real) / n as real <= v < (Bucket(v, n) + 1) as real / n as real
  {
    var s := v * n as real;
    assert v / (1.0 / n as real) == s;
    var f := FloorToInt(s);
    assert 0.0 <= s;
    MulStrictMonotone(v, 1.0, n as real);
    assert 0 <= f < n;
    assert f as real <= v * n as real < (f + 1) as real;
    DivideBoth(f as real, v * n as real, n as real);
    DivideBothStrict(v * n as real, (f + 1) as real, n as real);
  }

  lemma DivideBoth(a: real, b: real, n: real)
    requires n > 0.0 && a <= b
    ensures a / n <= b / n
  {
    var x := a / n;
    var y := b / n;
    assert x * n == a && y * n == b;
    if x > y { MulStrictMonotone(y, x, n); }
  }

  lemma DivideBothStrict(a: real, b: real, n: real)
    requires n > 0.0 && a < b
    ensures a / n < b / n
  {
    var x := a / n;
    var y := b / n;
    assert x * n == a && y * n == b;
    if x >= y { MulMonotone(y, x, n); }
  }

  /** The clamp keeps the source's bucket in `0..n`; it is `n`, one past the last
      entry, exactly for a value of 1 or more. */
  lemma BucketAsWrittenRange(v: real, n: nat)
    requires n > 0
    ensures 0 <= BucketAsWritten(v, n) <= n
    ensures BucketAsWritten(v, n) == n <==> v >= 1.0
  {
    if v >= 1.0 {
      BucketAsWrittenOverflows(n);
    } else if v < 0.0 {
      assert Clamp(v, 0.0, 1.0) == 0.0;
    } else {
      BucketIsSlice(v, n);
    }
  }

  /** The slice property of `BucketIsSlice`, for any value in `[0, 1)`. */
  lemma SliceWhenInRange(v: real, n: nat)
    requires n > 0
    ensures 0.0 <= v < 1.0 ==>
      (BucketAsWritten(v, n) as real) / n as real <= v < (BucketAsWritten(v, n) + 1) as real / n as real
  {
    if 0.0 <= v < 1.0 {
      BucketIsSlice(v, n);
    }
  }

  /** The region whose hash selects the biome of a planar centre. */
  function BiomeRegion(center: Vec2): RegionId {
    RegionId(Region(center.x, BiomeRegionSize), Region(center.y, BiomeRegionSize))
  }

  /** `GetBiomeKernel`: the bucket, as the source computes it, of the hash
      `noise` of the region holding the planar centre. It names one of the four
      biomes unless the hash is 1 or more, when it is 4. */
  function GetBiomeKernel(center: Vec2, noise: RegionId -> real): (id: nat)
    ensures id <= |Biomes|
    ensures id == |Biomes| <==> noise(BiomeRegion(center)) >= 1.0
    ensures 0.0 <= noise(BiomeRegion(center)) < 1.0 ==>
      var v := noise(BiomeRegion(center));
      id as real / |Biomes| as real <= v < (id + 1) as real / |Biomes| as real
  {
    var v := noise(BiomeRegion(center));
    BucketAsWrittenRange(v, |Biomes|);
    SliceWhenInRange(v, |Biomes|);
    BucketAsWritten(v, |Biomes|)
  }

  /** All centres of one region select the same biome. */
  lemma SameRegionSameBiome(a: Vec2, b: Vec2, noise: RegionId -> real)
    requires Region(a.x, BiomeRegionSize) == Region(b.x, BiomeRegionSize)
    requires Region(a.y, BiomeRegionSize) == Region(b.y, BiomeRegionSize)
    ensures GetBiomeKernel(a, noise) == GetBiomeKernel(b, noise)
  {}

  // ------------------------------------------------------------ dispatch

  /** `Mathf.CeilToInt(gridSize / (float) noThreads)`. */
  function ThreadGroups(gridSize: int): (groups: int)
    ensures groups * NoThreads >= gridSize
    ensures (groups - 1) * NoThreads < gridSize
  {
    CeilDiv(gridSize, NoThreads)
  }

  /** The offsets drawn after `Random.InitState(OffsetSeed)`: `draws(seed, k)` is the
      k-th `Random.Range(-99999, 99999)` value after seeding with `seed`. */
  function OctaveOffsets(octaves: nat, draws: (int, nat) -> int): (r: seq<Offset>)
    ensures |r| == octaves
  {
    seq(octaves, i requires 0 <= i => Offset(draws(OffsetSeed, 3 * i), draws(OffsetSeed, 3 * i + 1), draws(OffsetSeed, 3 * i + 2)))
  }

  /** `biomeData[kernelID]` throws: the grid is not empty and the selected biome
      has no entry in `biomeData`. */
  predicate BiomeIndexThrows(req: DensityRequest, biomeData: seq<BiomeDensityData>, noise: RegionId -> real) {
    req.gridSize != 0 && GetBiomeKernel(Vec2(req.center.x, req.center.z), noise) >= |biomeData|
  }

  /** With the four biomes' data in place, the density texture of a non-empty
      grid fails with an index error exactly where the hash of its region is 1
      or more, and then the index is 4. */
  lemma IndexErrorExactlyAtOne(req: DensityRequest, biomeData: seq<BiomeDensityData>,
                               noise: RegionId -> real, draws: (int, nat) -> int)
    requires |biomeData| == |Biomes| && req.gridSize != 0
    ensures var o := DensityOutcomeOf(req, biomeData, noise, draws);
      o.BiomeIndexOutOfRange? <==> noise(BiomeRegion(Vec2(req.center.x, req.center.z))) >= 1.0
    ensures DensityOutcomeOf(req, biomeData, noise, draws).BiomeIndexOutOfRange? ==>
      DensityOutcomeOf(req, biomeData, noise, draws).kernel == |Biomes|
  {
  }

  /** The effect `GenerateMapDensityTexture` has for a request. */
  function DensityOutcomeOf(req: DensityRequest, biomeData: seq<BiomeDensityData>,
                            noise: RegionId -> real, draws: (int, nat) -> int): DensityOutcome
  {
    if req.gridSize == 0 then Skipped
    else
      var kernel := GetBiomeKernel(Vec2(req.center.x, req.center.z), noise);
      if BiomeIndexThrows(req, biomeData, noise) then BiomeIndexOutOfRange(kernel)
      else
        var parameters := biomeData[kernel].noiseParameters;
        Dispatched(Dispatch(kernel, req.gridSize, |parameters|, req.lod, req.gridScale, req.center,
                            parameters, OctaveOffsets(|parameters|, draws), ThreadGroups(req.gridSize)))
  }

  /** Two requests that differ only in their centre, with centres in the same
      biome region, are dispatched to the same kernel with the same octave data. */
  lemma DensityDeterministicPerRegion(r1: DensityRequest, r2: DensityRequest, biomeData: seq<BiomeDensityData>,
                                      noise: RegionId -> real, draws: (int, nat) -> int)
    requires r1.gridSize == r2.gridSize != 0
    requires Region(r1.center.x, BiomeRegionSize) == Region(r2.center.x, BiomeRegionSize)
    requires Region(r1.center.z, BiomeRegionSize) == Region(r2.center.z, BiomeRegionSize)
    ensures var o1 := DensityOutcomeOf(r1, biomeData, noise, draws);
            var o2 := DensityOutcomeOf(r2, biomeData, noise, draws);
      o1.Dispatched? <==> o2.Dispatched?
    ensures var o1 := DensityOutcomeOf(r1, biomeData, noise, draws);
            var o2 := DensityOutcomeOf(r2, biomeData, noise, draws);
      o1.Dispatched? ==> (o1.dispatch.kernel == o2.dispatch.kernel
        && o1.dispatch.offsets == o2.dispatch.offsets
        && o1.dispatch.noiseParameters == o2.dispatch.noiseParameters)
  {
    SameRegionSameBiome(Vec2(r1.center.x, r1.center.z), Vec2(r2.center.x, r2.center.z), noise);
  }

  class DensityGenerator {
    var parametersBuffer: Option<ComputeBuffer>
    var offsetsBuffer: Option<ComputeBuffer>

    constructor ()
      ensures parametersBuffer == None && offsetsBuffer == None
    {
      parametersBuffer := None;
      offsetsBuffer := None;
    }

    /** `CreateBuffers`: one slot per octave, and at least one slot. */
    method CreateBuffers(octaves: int)
      modifies this
      ensures parametersBuffer == Some(ComputeBuffer(if octaves <= 0 then 1 else octaves, 2, false))
      ensures offsetsBuffer == Some(ComputeBuffer(if octaves <= 0 then 1 else octaves, 3, false))
      ensures parametersBuffer.value.count >= 1 && parametersBuffer.value.count >= octaves
    {
      var octavesCount := octaves;
      if octavesCount <= 0 {
        octavesCount := 1;
      }
      parametersBuffer := Some(ComputeBuffer(octavesCount, 2, false));
      offsetsBuffer := Some(ComputeBuffer(octavesCount, 3, false));
    }

    /** `ReleaseBuffers`: releases both buffers once either exists. */
    method ReleaseBuffers()
      requires offsetsBuffer.Some? <==> parametersBuffer.Some?
      modifies this
      ensures offsetsBuffer == if old(offsetsBuffer).Some? then Some(old(offsetsBuffer).value.(released := true)) else None
      ensures parametersBuffer == if old(parametersBuffer).Some? then Some(old(parametersBuffer).value.(released := true)) else None
    {
      if offsetsBuffer.Some? || parametersBuffer.Some? {
        offsetsBuffer := Some(offsetsBuffer.value.(released := true));
        parametersBuffer := Some(parametersBuffer.value.(released := true));
      }
    }

    /** `GenerateMapDensityTexture`: returns before any work on an empty grid;
        otherwise selects the biome, sizes the buffers, re-seeds the random state
        and draws the octave offsets, and dispatches. */
    method GenerateMapDensityTexture(req: DensityRequest, biomeData: seq<BiomeDensityData>,
                                     noise: RegionId -> real, draws: (int, nat) -> int)
      returns (outcome: DensityOutcome)
      requires offsetsBuffer.Some? <==> parametersBuffer.Some?
      modifies this
      ensures outcome == DensityOutcomeOf(req, biomeData, noise, draws)
      ensures !outcome.Dispatched? ==> parametersBuffer == old(parametersBuffer) && offsetsBuffer == old(offsetsBuffer)
      ensures outcome.Dispatched? ==>
        var n := if outcome.dispatch.octaves == 0 then 1 else outcome.dispatch.octaves;
        parametersBuffer == Some(ComputeBuffer(n, 2, true)) && offsetsBuffer == Some(ComputeBuffer(n, 3, true))
    {
      if req.gridSize == 0 {
        return Skipped;
      }
      var kernelID := GetBiomeKernel(Vec2(req.center.x, req.center.z), noise);
      if kernelID >= |biomeData| {
        return BiomeIndexOutOfRange(kernelID);
      }
      var noiseParameters := biomeData[kernelID].noiseParameters;
      var octaves := |noiseParameters|;
      CreateBuffers(octaves);
      var n := if octaves == 0 then 1 else octaves;

      var octaveOffsets := new Offset[octaves];
      var i := 0;
      while i < octaves
        invariant 0 <= i <= octaves
        invariant parametersBuffer == Some(ComputeBuffer(n, 2, false)) && offsetsBuffer == Some(ComputeBuffer(n, 3, false))
        invariant forall j :: 0 <= j < i ==> octaveOffsets[j] == OctaveOffsets(octaves, draws)[j]
      {
        octaveOffsets[i] := Offset(draws(OffsetSeed, 3 * i), draws(OffsetSeed, 3 * i + 1), draws(OffsetSeed, 3 * i + 2));
        i := i + 1;
      }
      assert octaveOffsets[..] == OctaveOffsets(octaves, draws);

      var threadGroups := ThreadGroups(req.gridSize);
      outcome := Dispatched(Dispatch(kernelID, req.gridSize, octaves, req.lod, req.gridScale, req.center,
                                     noiseParameters, octaveOffsets[..], threadGroups));
      ReleaseBuffers();
    }
  }
}
