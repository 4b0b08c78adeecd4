/** The streaming grid shared by both chunk managers: chunk ids, the squared
    planar distance to a chunk's centre, the square scan window and the
    detail-level (LOD) table with its first-match selection. */
module ChunkGrid {
  import opened Mathf

  datatype Vec2 = Vec2(x: real, y: real)
  datatype Vec3 = Vec3(x: real, y: real, z: real)

  /** A chunk coordinate on the grid; the source keeps it in a Vector2 whose
      components are always whole numbers. */
  datatype ChunkId = ChunkId(x: int, y: int)

  /** Mesh slices stacked in each chunk column (`verticalChunks`, 3 in both
      generators). */
  const VerticalChunks: int := 3

  function SqrMagnitude(v: Vec2): real {
    v.x * v.x + v.y * v.y
  }

  /** `chunkID * size`: the chunk's corner in chunk-local units. */
  function ChunkOrigin(id: ChunkId, size: int): Vec2 {
    Vec2((id.x * size) as real, (id.y * size) as real)
  }

  /** Squared planar distance from the viewer to `ChunkOrigin(id) + size / 2`. */
  function SqrDistanceFromCenter(viewer: Vec2, id: ChunkId, size: int): (d: real)
    ensures d >= 0.0
    ensures var o := ChunkOrigin(id, size);
      d == SqrMagnitude(Vec2(viewer.x - (o.x + size as real / 2.0), viewer.y - (o.y + size as real / 2.0)))
  {
    var center := Vec2((id.x * size) as real + size as real / 2.0, (id.y * size) as real + size as real / 2.0);
    var offset := Vec2(viewer.x - center.x, viewer.y - center.y);
    SquareNonNegative(offset.x);
    SquareNonNegative(offset.y);
    SqrMagnitude(offset)
  }

  lemma SquareNonNegative(r: real)
    ensures r * r >= 0.0
  {
    if r < 0.0 {
      assert r * r == (-r) * (-r);
    }
  }

  // ---------------------------------------------------------------- window

  /** The square of ids `[cx - k, cx + k] x [cy - k, cy + k]` that an update scans. */
  predicate InWindow(id: ChunkId, cx: int, cy: int, k: int) {
    cx - k <= id.x <= cx + k && cy - k <= id.y <= cy + k
  }

  /** The chunk coordinate the viewer stands on, `Mathf.RoundToInt(viewer / size)` per axis. */
  function ViewerChunk(viewer: Vec2, size: int): ChunkId
    requires size > 0
  {
    ChunkId(RoundToInt(viewer.x / size as real), RoundToInt(viewer.y / size as real))
  }

  /** Every chunk whose centre lies strictly inside the view radius is inside the
      scanned window `k = ceil(maxViewDistance / size)`, so an update that scans the
      window reaches all of them. */
  lemma NearChunkInWindow(viewer: Vec2, id: ChunkId, size: int, maxView: real)
    requires size > 0 && maxView > 0.0
    requires SqrDistanceFromCenter(viewer, id, size) < maxView * maxView
    ensures var c := ViewerChunk(viewer, size);
      InWindow(id, c.x, c.y, CeilToInt(maxView / size as real))
  {
    var dx := viewer.x - ((id.x * size) as real + size as real / 2.0);
    var dy := viewer.y - ((id.y * size) as real + size as real / 2.0);
    assert dx * dx + dy * dy < maxView * maxView;
    SquareNonNegative(dx);
    SquareNonNegative(dy);
    assert dy * dy < maxView * maxView;
    AxisInWindow(viewer.x, id.x, size, maxView);
    AxisInWindow(viewer.y, id.y, size, maxView);
  }

  lemma AxisInWindow(v: real, i: int, size: int, m: real)
    requires size > 0 && m > 0.0
    requires var dx := v - ((i * size) as real + size as real / 2.0); dx * dx < m * m
    ensures var c := RoundToInt(v / size as real); var k := CeilToInt(m / size as real);
      c - k <= i <= c + k
  {
    var s := size as real;
    var dx := v - ((i * size) as real + s / 2.0);
    SquareBelow(dx, m);
    var u := v / s;
    var c := RoundToInt(u);
    var k := CeilToInt(m / s);
    var w := u - i as real - 0.5;
    assert dx == s * w by {
      assert (i * size) as real == i as real * s;
      assert v == u * s;
    }
    ScaledBelow(w, s, m, k as real);
    ScaledBelow(-w, s, m, k as real);
  }

  /** If `s * w` stays below `m` then `w` stays below any `k >= m / s`. */
  lemma ScaledBelow(w: real, s: real, m: real, k: real)
    requires s > 0.0 && s * w < m && k >= m / s
    ensures w < k
  {
    if w >= k {
      MulMonotone(m / s, w, s);
    }
  }

  lemma SquareBelow(d: real, m: real)
    requires m > 0.0 && d * d < m * m
    ensures -m < d < m
  {
    if d >= m {
      MulMonotone(m, d, d);
      MulMonotone(m, d, m);
    } else if d <= -m {
      MulMonotone(m, -d, -d);
      MulMonotone(m, -d, m);
    }
  }

  // ---------------------------------------------------------------- detail levels

  /** One entry of `detailLevels`: the marching step (`x`, the LOD) and the
      distance up to which it applies (`y`). */
  datatype DetailLevel = DetailLevel(step: int, maxDistance: real)

  /** The configuration `Start` relies on: a non-empty table (the last entry is read
      unconditionally), steps that can divide the chunk size, distinct steps (they
      key the texture dictionary, whose `Add` rejects duplicates) and positive,
      ascending distances. */
  ghost predicate ValidTable(t: seq<DetailLevel>) {
    && |t| > 0
    && (forall i :: 0 <= i < |t| ==> t[i].step >= 1 && t[i].maxDistance > 0.0)
    && (forall i, j :: 0 <= i < j < |t| ==> t[i].step != t[j].step)
    && (forall i, j :: 0 <= i < j < |t| ==> t[i].maxDistance < t[j].maxDistance)
  }

  function SqrDistanceOf(l: DetailLevel): real {
    l.maxDistance * l.maxDistance
  }

  /** `sqrViewDistances`, computed in `Start`. */
  function SqrDistances(t: seq<DetailLevel>): (r: seq<real>)
    ensures |r| == |t| && forall i :: 0 <= i < |t| ==> r[i] == SqrDistanceOf(t[i])
  {
    seq(|t|, i requires 0 <= i < |t| => SqrDistanceOf(t[i]))
  }

  /** The entry `GetLODFromID` settles on for squared distance `d`: the first index
      below the last whose squared distance exceeds `d`, else the last index. */
  function Tier(t: seq<DetailLevel>, d: real): (r: nat)
    requires |t| > 0
    ensures r < |t|
    ensures forall j :: 0 <= j < r ==> d >= SqrDistanceOf(t[j])
    ensures r < |t| - 1 ==> d < SqrDistanceOf(t[r])
  {
    TierFrom(t, d, 0)
  }

  function TierFrom(t: seq<DetailLevel>, d: real, i: nat): (r: nat)
    requires i < |t|
    requires forall j :: 0 <= j < i ==> d >= SqrDistanceOf(t[j])
    ensures i <= r < |t|
    ensures forall j :: 0 <= j < r ==> d >= SqrDistanceOf(t[j])
    ensures r < |t| - 1 ==> d < SqrDistanceOf(t[r])
    decreases |t| - i
  {
    if i == |t| - 1 then i
    else if d < SqrDistanceOf(t[i]) then i
    else TierFrom(t, d, i + 1)
  }

  /** The first-match rule pins the tier down: index `i` is the tier exactly when
      every earlier entry's squared distance is at most `d` and `i` is the last
      entry or its squared distance exceeds `d`. */
  lemma TierUnique(t: seq<DetailLevel>, d: real, i: int)
    requires |t| > 0 && 0 <= i < |t|
    ensures Tier(t, d) == i <==>
      (forall j :: 0 <= j < i ==> d >= SqrDistanceOf(t[j])) && (i == |t| - 1 || d < SqrDistanceOf(t[i]))
  {
  }

  /** The marching step selected for squared distance `d`. */
  function SelectLod(t: seq<DetailLevel>, d: real): int
    requires |t| > 0
  {
    t[Tier(t, d)].step
  }

  /** The tier index never decreases as the distance grows. */
  lemma TierMonotone(t: seq<DetailLevel>, d1: real, d2: real)
    requires ValidTable(t) && d1 <= d2
    ensures Tier(t, d1) <= Tier(t, d2)
  {
    var i2 := Tier(t, d2);
    if i2 < |t| - 1 {
      assert d1 < SqrDistanceOf(t[i2]);
    }
  }

  /** With steps that grow along the table (coarser further away), the selected
      step is non-decreasing in distance. */
  lemma SelectLodMonotone(t: seq<DetailLevel>, d1: real, d2: real)
    requires ValidTable(t) && d1 <= d2
    requires forall i, j :: 0 <= i <= j < |t| ==> t[i].step <= t[j].step
    ensures SelectLod(t, d1) <= SelectLod(t, d2)
  {
    TierMonotone(t, d1, d2);
  }

  /** A table whose distances ascend has strictly ascending squared distances,
      so the tiers partition the distances below the view radius. */
  lemma SqrDistancesAscend(t: seq<DetailLevel>, i: int, j: int)
    requires ValidTable(t) && 0 <= i < j < |t|
    ensures SqrDistanceOf(t[i]) < SqrDistanceOf(t[j])
  {
    var a := t[i].maxDistance;
    var b := t[j].maxDistance;
    assert a * a < a * b < b * b;
  }

  /** Table `[(1, 50), (2, 100)]`, viewer at squared distance 30², 80², 150²: steps 1
      and 2 within the radius, and 150² is past the view radius 100². */
  lemma DetailTableScenario()
    ensures var t := [DetailLevel(1, 50.0), DetailLevel(2, 100.0)];
      && SelectLod(t, 900.0) == 1
      && SelectLod(t, 6400.0) == 2
      && 22500.0 > SqrDistanceOf(t[|t| - 1])
  {
    var t := [DetailLevel(1, 50.0), DetailLevel(2, 100.0)];
    assert Tier(t, 900.0) == 0;
    assert Tier(t, 6400.0) == 1;
  }
}
