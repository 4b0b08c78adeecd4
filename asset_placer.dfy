/** AssetPlacer: scatters asset instances over a chunk by casting rays straight
    down from random points of the chunk square, and keeps the instances in a
    bounded pool that recycles its oldest instance once full. */
module AssetPlacer {
  import opened ChunkGrid
  import opened Collections

  /** A draw of Unity's random stream scaled to `[0, 1]`:
      `Random.Range(0f, length)` is `length` times such a draw. */
  type Unit = r: real | 0.0 <= r <= 1.0

  datatype Rotation = FromToRotation(fromDirection: Vec3, toDirection: Vec3)
  datatype RaycastHit = RaycastHit(point: Vec3, normal: Vec3)

  /** Where and how an instance is put. */
  datatype Placement = Placement(position: Vec3, rotation: Rotation)

  const Up: Vec3 := Vec3(0.0, 1.0, 0.0)

  function Dot(a: Vec3, b: Vec3): real {
    a.x * b.x + a.y * b.y + a.z * b.z
  }

  // ------------------------------------------------------------ pool (values)

  /** The pool's queue after one `Add` of `p`: the oldest entry leaves when the
      pool is full, and `p` joins at the back. Undefined for an empty pool that
      is also full, where `Dequeue` throws. */
  function PoolAdd(ps: seq<Placement>, max: int, p: Placement): (r: seq<Placement>)
    requires |ps| < max || |ps| > 0
    ensures |r| == if |ps| >= max then |ps| else |ps| + 1
    ensures r[|r| - 1] == p
    ensures r[..|r| - 1] == if |ps| >= max then ps[1..] else ps
  {
    if |ps| >= max then ps[1..] + [p] else ps + [p]
  }

  /** The queue after adding each of `qs` in order. */
  function AddAll(ps: seq<Placement>, max: int, qs: seq<Placement>): seq<Placement>
    requires qs == [] || (max >= 1 && |ps| <= max)
    decreases |qs|
  {
    if qs == [] then ps else AddAll(PoolAdd(ps, max, qs[0]), max, qs[1..])
  }

  /** Adding one more placement at the end is one more `PoolAdd`, and the queue
      stays within its bound. */
  lemma {:induction false} AddAllSnoc(ps: seq<Placement>, max: int, qs: seq<Placement>, q: Placement)
    requires max >= 1 && |ps| <= max
    ensures |AddAll(ps, max, qs)| <= max
    ensures AddAll(ps, max, qs + [q]) == PoolAdd(AddAll(ps, max, qs), max, q)
    decreases |qs|
  {
    if qs == [] {
      assert [q][1..] == [];
    } else {
      assert (qs + [q])[1..] == qs[1..] + [q];
      AddAllSnoc(PoolAdd(ps, max, qs[0]), max, qs[1..], q);
    }
  }

  /** The last `max` elements of `s`, or all of them while there are fewer. */
  function Latest(s: seq<Placement>, max: int): (r: seq<Placement>)
    requires max >= 0
    ensures |r| <= max && |r| <= |s|
  {
    if |s| <= max then s else s[|s| - max..]
  }

  /** One `Add` moves the window of the latest placements one placement on. */
  lemma LatestAdd(s: seq<Placement>, max: int, q: Placement)
    requires max >= 1
    ensures PoolAdd(Latest(s, max), max, q) == Latest(s + [q], max)
  {
    if |s| >= max {
      assert Latest(s, max)[1..] + [q] == (s + [q])[|s| + 1 - max..];
    }
  }

  /** The pool is a sliding window: after any run of adds it holds exactly the
      latest `max` placements (or all of them while fewer were made). */
  lemma {:induction false} AddAllKeepsLatest(ps: seq<Placement>, max: int, qs: seq<Placement>)
    requires max >= 1 && |ps| <= max
    ensures AddAll(ps, max, qs) == Latest(ps + qs, max)
    decreases |qs|
  {
    if qs == [] {
      assert ps + qs == ps;
    } else {
      var init, q := qs[..|qs| - 1], qs[|qs| - 1];
      assert qs == init + [q];
      assert ps + qs == (ps + init) + [q];
      calc {
        AddAll(ps, max, qs);
        { AddAllSnoc(ps, max, init, q); }
        PoolAdd(AddAll(ps, max, init), max, q);
        { AddAllKeepsLatest(ps, max, init); }
        PoolAdd(Latest(ps + init, max), max, q);
        { LatestAdd(ps + init, max, q); }
        Latest(ps + qs, max);
      }
    }
  }

  // ------------------------------------------------------------ pool (objects)

  class AssetInstance {
    var position: Vec3
    var rotation: Rotation

    constructor (position: Vec3, rotation: Rotation)
      ensures this.position == position && this.rotation == rotation
    {
      this.position := position;
      this.rotation := rotation;
    }

    /** Moves the instance's transform to a new placement. */
    method MoveTo(position: Vec3, rotation: Rotation)
      modifies this
      ensures this.position == position && this.rotation == rotation
    {
      this.position := position;
      this.rotation := rotation;
    }
  }

  /** Where and how each of `s` stands. */
  function PlacementsOf(s: seq<AssetInstance>): (r: seq<Placement>)
    reads s
    ensures |r| == |s|
    ensures forall i :: 0 <= i < |s| ==> r[i] == Placement(s[i].position, s[i].rotation)
  {
    seq(|s|, i requires 0 <= i < |s| reads s => Placement(s[i].position, s[i].rotation))
  }

  /** `AssetPlacer.Pool`: a queue of instances bounded by `maxInstancesNumber`. */
  class Pool {
    var instances: seq<AssetInstance>
    const maxInstancesNumber: int

    /** No instance is queued twice, and the queue never outgrows its bound
        (a non-positive bound keeps it empty). */
    ghost predicate Valid()
      reads this
    {
      && Distinct(instances)
      && (|instances| <= maxInstancesNumber || instances == [])
    }

    /** Where and how each queued instance stands, oldest first. */
    function Contents(): seq<Placement>
      reads this, instances
    {
      PlacementsOf(instances)
    }

    constructor (max: int)
      ensures Valid() && instances == [] && maxInstancesNumber == max
    {
      instances := [];
      maxInstancesNumber := max;
    }

    /** `Pool.Add`: recycles the oldest instance when the pool is full, otherwise
        instantiates a new one; `ok` is false where the source's `Dequeue` throws
        (a full pool with nothing in it), and then nothing changes. */
    method Add(position: Vec3, rotation: Rotation) returns (ok: bool)
      requires Valid()
      modifies this, instances
      ensures Valid()
      ensures ok <==> maxInstancesNumber >= 1
      ensures !ok ==> instances == old(instances)
      ensures ok ==> Contents() == PoolAdd(old(Contents()), maxInstancesNumber, Placement(position, rotation))
      ensures ok && old(|instances|) >= maxInstancesNumber ==> instances == old(instances[1..]) + [old(instances[0])]
      ensures ok && old(|instances|) < maxInstancesNumber ==>
        instances[..|instances| - 1] == old(instances) && fresh(instances[|instances| - 1])
      ensures forall o :: o in instances ==> o in old(instances) || fresh(o)
    {
      if |instances| >= maxInstancesNumber {
        if instances == [] {
          return false;
        }
        Recycle(position, rotation);
      } else {
        Instantiate(position, rotation);
      }
      ok := true;
    }

    /** The full-pool branch of `Add`: the oldest instance moves to the new
        placement and to the back of the queue. */
    method Recycle(position: Vec3, rotation: Rotation)
      requires Valid() && instances != []
      modifies this, instances
      ensures Valid()
      ensures instances == old(instances[1..]) + [old(instances[0])]
      ensures Contents() == old(Contents()[1..]) + [Placement(position, rotation)]
    {
      ghost var before := Contents();
      var recycled := instances[0];
      var rest := instances[1..];
      DistinctRotate(instances);
      ghost var restBefore := PlacementsOf(rest);
      assert restBefore == before[1..];
      recycled.MoveTo(position, rotation);
      assert forall i | 0 <= i < |rest| :: rest[i] != recycled;
      assert PlacementsOf(rest) == restBefore;
      instances := rest + [recycled];
      assert Contents() == restBefore + [Placement(position, rotation)];
    }

    /** The growing branch of `Add`: a new instance joins the back of the queue. */
    method Instantiate(position: Vec3, rotation: Rotation)
      requires Valid() && |instances| < maxInstancesNumber
      modifies this
      ensures Valid()
      ensures |instances| == old(|instances|) + 1
      ensures instances[..|instances| - 1] == old(instances) && fresh(instances[|instances| - 1])
      ensures Contents() == old(Contents()) + [Placement(position, rotation)]
    {
      ghost var before := Contents();
      var instance := new AssetInstance(position, rotation);
      instances := instances + [instance];
      assert Contents() == before + [Placement(position, rotation)];
    }
  }

  // ------------------------------------------------------------ rays

  /** The inspector settings of an `AssetPlacer`. */
  datatype PlacerSettings = PlacerSettings(
    maxInstancesPerChunk: int, rayHeight: real, raycastDistance: real,
    angleCutoff: real, noiseScale: real, noiseCutoff: real)

  /** The engine services the placer consults: the random stream (`random(k)` is
      the k-th draw since `Random.InitState`), `Mathf.PerlinNoise`, and
      `Physics.Raycast` straight down over a distance. */
  datatype World = World(
    random: nat -> Unit,
    perlin: (real, real) -> real,
    raycast: (Vec3, real) -> Option<RaycastHit>)

  /** The origin of the ray cast from draws `cursor` and `cursor + 1`. */
  function RayOrigin(s: PlacerSettings, w: World, start: Vec3, length: real, cursor: nat): (o: Vec3)
    ensures o.y == s.rayHeight
  {
    Vec3(start.x + w.random(cursor) * length, s.rayHeight, start.z + w.random(cursor + 1) * length)
  }

  /** `LaunchRay`'s filter: a hit on a surface no steeper than the angle cutoff. */
  function HitPlacement(s: PlacerSettings, w: World, origin: Vec3): (p: Option<Placement>)
    ensures p.Some? <==> w.raycast(origin, s.raycastDistance).Some? && Dot(Up, w.raycast(origin, s.raycastDistance).value.normal) >= s.angleCutoff
    ensures p.Some? ==> p.value.position == w.raycast(origin, s.raycastDistance).value.point
  {
    match w.raycast(origin, s.raycastDistance)
    case None => None
    case Some(hit) =>
      if Dot(Up, hit.normal) < s.angleCutoff then None
      else Some(Placement(hit.point, FromToRotation(Up, hit.normal)))
  }

  /** Whether the noise at a ray origin lets the ray be launched. */
  predicate Launches(s: PlacerSettings, w: World, origin: Vec3) {
    w.perlin(origin.x * s.noiseScale, origin.z * s.noiseScale) >= s.noiseCutoff
  }

  /** The placement ray `i` of a call yields, if any. */
  function RayPlacement(s: PlacerSettings, w: World, start: Vec3, length: real, cursor: nat, i: nat): Option<Placement> {
    var origin := RayOrigin(s, w, start, length, cursor + 2 * i);
    if Launches(s, w, origin) then HitPlacement(s, w, origin) else None
  }

  /** The placements of rays `0 .. k - 1`, in the order they are added. */
  function PlacementsFrom(s: PlacerSettings, w: World, start: Vec3, length: real, cursor: nat, k: nat): seq<Placement>
  {
    if k == 0 then []
    else
      var p := RayPlacement(s, w, start, length, cursor, k - 1);
      PlacementsFrom(s, w, start, length, cursor, k - 1) + (if p.Some? then [p.value] else [])
  }

  /** How many rays a call casts. */
  function RayCount(s: PlacerSettings): nat {
    if s.maxInstancesPerChunk < 0 then 0 else s.maxInstancesPerChunk
  }

  /** A call places at most one instance per ray, and every placement comes from a
      ray that passed the noise cutoff and hit a surface within the angle cutoff. */
  lemma {:induction false} PlacementsPassFilters(s: PlacerSettings, w: World, start: Vec3, length: real, cursor: nat, k: nat)
    ensures |PlacementsFrom(s, w, start, length, cursor, k)| <= k
    ensures forall p :: p in PlacementsFrom(s, w, start, length, cursor, k) ==>
      exists i :: (0 <= i < k && RayPlacement(s, w, start, length, cursor, i) == Some(p)
        && Launches(s, w, RayOrigin(s, w, start, length, cursor + 2 * i)))
  {
    if k > 0 {
      PlacementsPassFilters(s, w, start, length, cursor, k - 1);
      var rest := PlacementsFrom(s, w, start, length, cursor, k - 1);
      var q := RayPlacement(s, w, start, length, cursor, k - 1);
      forall p | p in PlacementsFrom(s, w, start, length, cursor, k)
        ensures exists i :: (0 <= i < k && RayPlacement(s, w, start, length, cursor, i) == Some(p)
          && Launches(s, w, RayOrigin(s, w, start, length, cursor + 2 * i)))
      {
        if p !in rest {
          assert q == Some(p);
        }
      }
    }
  }

  /** Every ray starts at the ray height, inside the square `[start, start + length]`
      of the chunk in x and z. */
  lemma RayInsideSquare(s: PlacerSettings, w: World, start: Vec3, length: real, cursor: nat)
    requires length >= 0.0
    ensures var o := RayOrigin(s, w, start, length, cursor);
      && o.y == s.rayHeight
      && start.x <= o.x <= start.x + length
      && start.z <= o.z <= start.z + length
  {
    var u := w.random(cursor);
    var v := w.random(cursor + 1);
    ScaledDraw(u, length);
    ScaledDraw(v, length);
    assert RayOrigin(s, w, start, length, cursor) == Vec3(start.x + u * length, s.rayHeight, start.z + v * length);
  }

  lemma ScaledDraw(u: Unit, length: real)
    requires length >= 0.0
    ensures 0.0 <= u * length <= length
  {
    assert u * length <= 1.0 * length by {
      Mathf.MulMonotone(u, 1.0, length);
    }
    Mathf.MulMonotone(0.0, u, length);
  }

  // ------------------------------------------------------------ placer

  class AssetPlacer {
    const settings: PlacerSettings
    const assetPool: Pool
    /** Draws taken from the random stream since it was seeded. */
    var randomDraws: nat

    ghost predicate Valid()
      reads this, assetPool
    {
      assetPool.Valid()
    }

    /** `Start`: seeds the random stream and creates the pool. */
    constructor (settings: PlacerSettings, maxInstancesNumber: int)
      ensures Valid() && fresh(assetPool)
      ensures this.settings == settings && randomDraws == 0
      ensures assetPool.instances == [] && assetPool.maxInstancesNumber == maxInstancesNumber
    {
      this.settings := settings;
      assetPool := new Pool(maxInstancesNumber);
      randomDraws := 0;
    }

    /** `LaunchRay`: adds an instance at the hit point when the ray hits a surface
        within the angle cutoff. */
    method LaunchRay(position: Vec3, w: World) returns (ok: bool)
      requires Valid()
      modifies assetPool, set o | o in assetPool.instances
      ensures Valid()
      ensures HitPlacement(settings, w, position).None? ==>
        ok && assetPool.instances == old(assetPool.instances) && assetPool.Contents() == old(assetPool.Contents())
      ensures HitPlacement(settings, w, position).Some? ==>
        && (ok <==> assetPool.maxInstancesNumber >= 1)
        && (!ok ==> assetPool.instances == old(assetPool.instances))
        && (ok ==> assetPool.Contents() == PoolAdd(old(assetPool.Contents()), assetPool.maxInstancesNumber, HitPlacement(settings, w, position).value))
      ensures forall o :: o in assetPool.instances ==> o in old(assetPool.instances) || fresh(o)
    {
      var hit := w.raycast(position, settings.raycastDistance);
      ok := true;
      if hit.Some? {
        if Dot(Up, hit.value.normal) < settings.angleCutoff {
          return;
        }
        ok := assetPool.Add(hit.value.point, FromToRotation(Up, hit.value.normal));
      }
    }

    /** `PlaceAssets`: casts `maxInstancesPerChunk` rays from random points of the
        square at `startPos` with side `length`, each taking two draws; every
        placement found joins the pool. `ok` is false where the pool throws
        (a placement for a pool of capacity 0), which ends the call. */
    method PlaceAssets(startPos: Vec3, length: real, w: World) returns (ok: bool)
      requires Valid()
      modifies this, assetPool, set o | o in assetPool.instances
      ensures Valid()
      ensures var placed := PlacementsFrom(settings, w, startPos, length, old(randomDraws), RayCount(settings));
        && (ok <==> placed == [] || assetPool.maxInstancesNumber >= 1)
        && (ok ==> randomDraws == old(randomDraws) + 2 * RayCount(settings))
        && (ok ==> assetPool.Contents() == AddAll(old(assetPool.Contents()), assetPool.maxInstancesNumber, placed))
    {
      ghost var cursor := randomDraws;
      ghost var before := assetPool.Contents();
      var i := 0;
      ok := true;
      while i < settings.maxInstancesPerChunk
        invariant 0 <= i <= RayCount(settings)
        invariant randomDraws == cursor + 2 * i
        invariant Valid()
        invariant |before| <= assetPool.maxInstancesNumber || before == []
        invariant var placed := PlacementsFrom(settings, w, startPos, length, cursor, i);
          (placed == [] || assetPool.maxInstancesNumber >= 1)
          && assetPool.Contents() == AddAll(before, assetPool.maxInstancesNumber, placed)
        invariant forall o :: o in assetPool.instances ==> o in old(assetPool.instances) || fresh(o)
      {
        ok := CastRay(startPos, length, w, cursor, i, before);
        if !ok {
          PlacementsGrow(settings, w, startPos, length, cursor, i + 1, RayCount(settings));
          return;
        }
        i := i + 1;
      }
    }

    /** One turn of `PlaceAssets`' loop: ray `i` takes its two draws and, when the
        noise lets it, is launched. */
    method CastRay(startPos: Vec3, length: real, w: World, ghost cursor: nat, ghost i: nat, ghost before: seq<Placement>)
      returns (ok: bool)
      requires Valid()
      requires randomDraws == cursor + 2 * i
      requires |before| <= assetPool.maxInstancesNumber || before == []
      requires var placed := PlacementsFrom(settings, w, startPos, length, cursor, i);
        (placed == [] || assetPool.maxInstancesNumber >= 1)
        && assetPool.Contents() == AddAll(before, assetPool.maxInstancesNumber, placed)
      modifies this, assetPool, set o | o in assetPool.instances
      ensures Valid()
      ensures randomDraws == cursor + 2 * (i + 1)
      ensures var placed := PlacementsFrom(settings, w, startPos, length, cursor, i + 1);
        && (ok <==> placed == [] || assetPool.maxInstancesNumber >= 1)
        && (ok ==> assetPool.Contents() == AddAll(before, assetPool.maxInstancesNumber, placed))
      ensures forall o :: o in assetPool.instances ==> o in old(assetPool.instances) || fresh(o)
    {
      var rayPosition := RayOrigin(settings, w, startPos, length, randomDraws);
      assert rayPosition == RayOrigin(settings, w, startPos, length, cursor + 2 * i);
      randomDraws := randomDraws + 2;
      ghost var placed := PlacementsFrom(settings, w, startPos, length, cursor, i);
      ghost var r := RayPlacement(settings, w, startPos, length, cursor, i);
      PlacementsStep(settings, w, startPos, length, cursor, i, rayPosition);
      ghost var next := PlacementsFrom(settings, w, startPos, length, cursor, i + 1);
      ok := true;
      if Launches(settings, w, rayPosition) {
        ok := LaunchRay(rayPosition, w);
        if r.Some? {
          assert next == placed + [r.value];
          if ok {
            AddAllSnoc(before, assetPool.maxInstancesNumber, placed, r.value);
          }
        } else {
          assert next == placed;
        }
      } else {
        assert next == placed;
      }
    }
  }

  /** Ray `i` adds its placement, if any, behind those of the earlier rays. */
  lemma PlacementsStep(s: PlacerSettings, w: World, start: Vec3, length: real, cursor: nat, i: nat, origin: Vec3)
    requires origin == RayOrigin(s, w, start, length, cursor + 2 * i)
    ensures var r := RayPlacement(s, w, start, length, cursor, i);
      && r == (if Launches(s, w, origin) then HitPlacement(s, w, origin) else None)
      && PlacementsFrom(s, w, start, length, cursor, i + 1) == PlacementsFrom(s, w, start, length, cursor, i) + (if r.Some? then [r.value] else [])
  {
  }

  /** Placements only accumulate: those of a prefix of the rays start those of more rays. */
  lemma {:induction false} PlacementsGrow(s: PlacerSettings, w: World, start: Vec3, length: real, cursor: nat, i: nat, k: nat)
    requires i <= k
    ensures PlacementsFrom(s, w, start, length, cursor, i) <= PlacementsFrom(s, w, start, length, cursor, k)
    decreases k - i
  {
    if i < k {
      PlacementsGrow(s, w, start, length, cursor, i, k - 1);
    }
  }
}
