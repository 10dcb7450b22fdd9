/**
 * One terrain chunk: a square plane of side `chunkSize` placed at a world
 * position, subdivided according to its level of detail, shaped by the noise
 * field except on the road, and optionally decorated with up to six objects
 * whose positions are drawn 2 to 10 units past the road's outer edge from the
 * chunk position but set relative to the chunk (see `PlacedWorldRing`).
 */
module Chunks {
  import opened Options
  import opened Scene
  import opened Distance
  import opened Road

  /** Fewest segments per side a chunk ever gets. */
  const MinSegments: nat := 8
  /** Height scale and coordinate scale of the sand waves. */
  const Amplitude: real := 4.0
  const Frequency: real := 0.03
  /** How far above the sampled noise height a decoration's set Y is. */
  const ObjectLift: real := 0.5
  /** Decoration slots per chunk, and attempts per slot. */
  const MaxObjects: nat := 6
  const MaxAttemptsPerSlot: nat := 10

  /** One vertex of the geometry's position buffer. */
  datatype Vertex = Vertex(x: real, y: real, z: real)

  /** What the chunk's shape depends on besides its size: its world position
      (only X and Z are read), the road and the global noise function. */
  datatype Site = Site(posX: real, posZ: real, road: RoadParams, noise: (real, real) -> real)

  // ---------------------------------------------------------------- level of detail

  /** `0.5 ** lod`. */
  function HalfPow(lod: nat): (h: real)
    ensures 0.0 < h <= 1.0
  {
    if lod == 0 then 1.0 else HalfPow(lod - 1) / 2.0
  }

  /** `Math.max(Math.floor(chunkSize * 0.5 ** LOD), minSegments)`. */
  function Segments(chunkSize: real, lod: nat): (n: nat)
    ensures MinSegments <= n
  {
    var scaled := (chunkSize * HalfPow(lod)).Floor;
    if scaled > MinSegments then scaled else MinSegments
  }

  lemma FloorMonotone(a: real, b: real)
    requires a <= b
    ensures a.Floor <= b.Floor
  {
  }

  /** One more level of detail never adds segments. */
  lemma SegmentsStep(chunkSize: real, lod: nat)
    ensures Segments(chunkSize, lod + 1) <= Segments(chunkSize, lod)
  {
    var h := HalfPow(lod);
    assert HalfPow(lod + 1) == h / 2.0;
    if 0.0 <= chunkSize {
      assert 0.0 <= chunkSize * h;
      assert chunkSize * (h / 2.0) == (chunkSize * h) / 2.0;
      FloorMonotone(chunkSize * (h / 2.0), chunkSize * h);
    } else {
      assert chunkSize * h < 0.0;
      assert chunkSize * (h / 2.0) < 0.0;
    }
  }

  /** Raising the level of detail never increases the segment count, for any chunk size. */
  lemma {:induction false} SegmentsNonIncreasing(chunkSize: real, lod1: nat, lod2: nat)
    requires lod1 <= lod2
    ensures Segments(chunkSize, lod2) <= Segments(chunkSize, lod1)
    decreases lod2 - lod1
  {
    if lod1 < lod2 {
      SegmentsNonIncreasing(chunkSize, lod1, lod2 - 1);
      SegmentsStep(chunkSize, lod2 - 1);
    }
  }

  /** At full detail an integral chunk size of at least 8 is the segment count itself. */
  lemma SegmentsAtFullDetail(chunkSize: int)
    requires MinSegments <= chunkSize
    ensures Segments(chunkSize as real, 0) == chunkSize
  {
    assert chunkSize as real * HalfPow(0) == chunkSize as real;
  }

  // ---------------------------------------------------------------- geometry

  /**
   * The vertices of a plane of side `size` with `n` segments per side, rotated
   * by -90 degrees about X so that it lies flat: `(n + 1) * (n + 1)` vertices,
   * row by row along Z, each row along X, centred on the local origin.
   */
  function PlaneGrid(size: real, n: nat): (grid: seq<Vertex>)
    requires 0 < n
    ensures |grid| == (n + 1) * (n + 1)
  {
    seq((n + 1) * (n + 1), i requires 0 <= i < (n + 1) * (n + 1) =>
      Vertex((i % (n + 1)) as real * (size / n as real) - size / 2.0,
             0.0,
             (i / (n + 1)) as real * (size / n as real) - size / 2.0))
  }

  /** The sand height at the world point (x, z): `noise(0.03 * x, 0.03 * z) * 4`. */
  function NoiseHeight(site: Site, x: real, z: real): real
  {
    site.noise(x * Frequency, z * Frequency) * Amplitude
  }

  /** The height `applySandWaves` gives the world point (x, z): 0 on the road, the sand height elsewhere. */
  function TerrainHeight(site: Site, x: real, z: real): real
  {
    if IsInRoad(site.road, x, z) then 0.0 else NoiseHeight(site, x, z)
  }

  /** The position buffer after `applySandWaves`: each vertex gets the height of its world point,
      and nothing else changes. */
  function SandWaves(site: Site, buf: seq<Vertex>): (waved: seq<Vertex>)
    ensures |waved| == |buf|
    ensures forall i :: 0 <= i < |buf| ==> waved[i].x == buf[i].x && waved[i].z == buf[i].z
  {
    seq(|buf|, i requires 0 <= i < |buf| =>
      buf[i].(y := TerrainHeight(site, buf[i].x + site.posX, buf[i].z + site.posZ)))
  }

  /** A vertex whose world distance from the origin lies on the road, edges included, is flattened to 0. */
  lemma SandWavesFlattensRoad(site: Site, buf: seq<Vertex>, i: nat, d: real)
    requires i < |buf|
    requires 0.0 <= d
    requires d * d == (buf[i].x + site.posX) * (buf[i].x + site.posX) + (buf[i].z + site.posZ) * (buf[i].z + site.posZ)
    requires InnerEdge(site.road) <= d <= OuterEdge(site.road)
    ensures SandWaves(site, buf)[i].y == 0.0
  {
    IsInRoadByDistance(site.road, buf[i].x + site.posX, buf[i].z + site.posZ, d);
  }

  /** Every other vertex gets `noise(0.03 * x, 0.03 * z) * 4` at its world point (x, z). */
  lemma SandWavesOffRoad(site: Site, buf: seq<Vertex>, i: nat, d: real)
    requires i < |buf|
    requires 0.0 <= d
    requires d * d == (buf[i].x + site.posX) * (buf[i].x + site.posX) + (buf[i].z + site.posZ) * (buf[i].z + site.posZ)
    requires d < InnerEdge(site.road) || OuterEdge(site.road) < d
    ensures SandWaves(site, buf)[i].y == NoiseHeight(site, buf[i].x + site.posX, buf[i].z + site.posZ)
  {
    IsInRoadByDistance(site.road, buf[i].x + site.posX, buf[i].z + site.posZ, d);
  }

  /** Heights depend only on X and Z, which the waves keep: shaping twice is shaping once. */
  lemma SandWavesIdempotent(site: Site, buf: seq<Vertex>)
    ensures SandWaves(site, SandWaves(site, buf)) == SandWaves(site, buf)
  {
    var once := SandWaves(site, buf);
    var twice := SandWaves(site, once);
    forall i | 0 <= i < |buf|
      ensures twice[i] == once[i]
    {
      assert once[i].x == buf[i].x && once[i].z == buf[i].z;
    }
  }

  // ---------------------------------------------------------------- decorations

  /**
   * The random inputs of one placement attempt: the cosine and sine of the
   * drawn angle, the draw `u` that picks the distance, and what the object
   * supplier returned for this attempt (None when it supplied nothing).
   */
  datatype Attempt = Attempt(cosAngle: real, sinAngle: real, u: real, supplied: Option<Object3D>)

  /** What `Math.random` and the trigonometry guarantee of an attempt: the draw lies in [0, 1)
      and (cosAngle, sinAngle) is a unit direction. */
  predicate FairAttempt(a: Attempt)
  {
    0.0 <= a.u < 1.0 && a.cosAngle * a.cosAngle + a.sinAngle * a.sinAngle == 1.0
  }

  /** Spawn distances, measured in the plane from the chunk position to the position set on the
      object: from 2 to 10 past the road's outer edge. */
  function MinSpawnDistance(road: RoadParams): real { OuterEdge(road) + 2.0 }

  function MaxSpawnDistance(road: RoadParams): real { OuterEdge(road) + 10.0 }

  function SpawnDistance(road: RoadParams, u: real): real
  {
    u * (MaxSpawnDistance(road) - MinSpawnDistance(road)) + MinSpawnDistance(road)
  }

  /** A draw in [0, 1) gives a spawn distance in [min, max). */
  lemma SpawnDistanceInRange(road: RoadParams, u: real)
    requires 0.0 <= u < 1.0
    ensures MinSpawnDistance(road) <= SpawnDistance(road, u) < MaxSpawnDistance(road)
  {
  }

  /** The position an attempt sets on the supplied object (`obj.position.set(x, y, z)`): X and Z
      at the drawn angle and distance from the chunk position, Y 0.5 above the noise height at
      (X, Z). The object is then added to the chunk, so this position is relative to the chunk. */
  function PlaceFrom(site: Site, a: Attempt, obj: Object3D): Placed
  {
    var distance := SpawnDistance(site.road, a.u);
    var x := site.posX + a.cosAngle * distance;
    var z := site.posZ + a.sinAngle * distance;
    Placed(obj, x, NoiseHeight(site, x, z) + ObjectLift, z)
  }

  lemma PlaceFromAt(site: Site, a: Attempt, obj: Object3D, x: real, z: real)
    requires x == site.posX + a.cosAngle * SpawnDistance(site.road, a.u)
    requires z == site.posZ + a.sinAngle * SpawnDistance(site.road, a.u)
    ensures PlaceFrom(site, a, obj) == Placed(obj, x, NoiseHeight(site, x, z) + ObjectLift, z)
  {
    var p := PlaceFrom(site, a, obj);
    assert p.x == x && p.z == z;
    assert p.y == NoiseHeight(site, p.x, p.z) + ObjectLift;
  }

  /** The position set on a placed object is at the sampled distance from the chunk position, and
      its Y is 0.5 above the noise height at its own X and Z. */
  lemma PlacedOnSpawnRing(site: Site, a: Attempt, obj: Object3D)
    requires FairAttempt(a)
    ensures MinSpawnDistance(site.road) <= SpawnDistance(site.road, a.u) < MaxSpawnDistance(site.road)
    ensures var p := PlaceFrom(site, a, obj);
            (p.x - site.posX) * (p.x - site.posX) + (p.z - site.posZ) * (p.z - site.posZ)
              == SpawnDistance(site.road, a.u) * SpawnDistance(site.road, a.u)
    ensures var p := PlaceFrom(site, a, obj);
            p.y == NoiseHeight(site, p.x, p.z) + 0.5
  {
    var d := SpawnDistance(site.road, a.u);
    var c, s := a.cosAngle, a.sinAngle;
    var p := PlaceFrom(site, a, obj);
    assert p.x - site.posX == c * d && p.z - site.posZ == s * d;
    calc {
      (c * d) * (c * d) + (s * d) * (s * d);
      (c * c + s * s) * (d * d);
      d * d;
    }
  }

  /** The position `spawnObjects` sets on a decoration: Y 0.5 above the noise height at its X and
      Z, and (X, Z) at a distance from the chunk position in [min, max). */
  predicate OnSpawnRing(site: Site, p: Placed)
  {
    && p.y == NoiseHeight(site, p.x, p.z) + ObjectLift
    && WithinRing((p.x - site.posX) * (p.x - site.posX) + (p.z - site.posZ) * (p.z - site.posZ),
                  MinSpawnDistance(site.road), MaxSpawnDistance(site.road))
  }

  lemma PlacedWithinRing(site: Site, a: Attempt, obj: Object3D)
    requires 0.0 <= site.road.roadRadius && 0.0 <= site.road.roadWidth
    requires FairAttempt(a)
    ensures OnSpawnRing(site, PlaceFrom(site, a, obj))
  {
    PlacedOnSpawnRing(site, a, obj);
    var p := PlaceFrom(site, a, obj);
    var d := SpawnDistance(site.road, a.u);
    WithinRingIsDistanceTest((p.x - site.posX) * (p.x - site.posX) + (p.z - site.posZ) * (p.z - site.posZ),
                             d, MinSpawnDistance(site.road), MaxSpawnDistance(site.road));
  }

  /**
   * One slot of `spawnObjects`, from draw `k` with `attempts` already made:
   * the first attempt whose supplier returns an object places it; after ten
   * attempts the slot stays empty. Also gives the index of the next draw.
   */
  function Slot(site: Site, draws: nat -> Attempt, k: nat, attempts: nat): (Option<Placed>, nat)
    requires attempts <= MaxAttemptsPerSlot
    decreases MaxAttemptsPerSlot - attempts
  {
    if attempts == MaxAttemptsPerSlot then (None, k)
    else match draws(k).supplied
      case Some(obj) => (Some(PlaceFrom(site, draws(k), obj)), k + 1)
      case None => Slot(site, draws, k + 1, attempts + 1)
  }

  /** The objects placed by the first `slots` slots, in order, and the number of attempts made. */
  function SpawnPlan(site: Site, draws: nat -> Attempt, slots: nat): (seq<Placed>, nat)
  {
    if slots == 0 then ([], 0)
    else
      var (placed, k) := SpawnPlan(site, draws, slots - 1);
      var (found, next) := Slot(site, draws, k, 0);
      (if found.Some? then placed + [found.value] else placed, next)
  }

  /**
   * A slot makes between one and ten attempts and places the object of the first attempt the
   * supplier answers: every earlier attempt got nothing. It stays empty only when all its
   * remaining attempts, up to the tenth, got nothing.
   */
  lemma {:induction false} SlotBounds(site: Site, draws: nat -> Attempt, k: nat, attempts: nat)
    requires attempts < MaxAttemptsPerSlot
    ensures var (found, next) := Slot(site, draws, k, attempts);
            && k < next <= k + (MaxAttemptsPerSlot - attempts)
            && (found.Some? ==> exists j: nat :: k <= j < next && draws(j).supplied.Some?
                                  && found.value == PlaceFrom(site, draws(j), draws(j).supplied.value))
            && (found.None? ==> && next == k + (MaxAttemptsPerSlot - attempts)
                                && forall j :: k <= j < next ==> draws(j).supplied.None?)
            && (found.Some? ==> && draws(next - 1).supplied.Some?
                                && found.value == PlaceFrom(site, draws(next - 1), draws(next - 1).supplied.value)
                                && forall j :: k <= j < next - 1 ==> draws(j).supplied.None?)
    decreases MaxAttemptsPerSlot - attempts
  {
    if draws(k).supplied.None? && attempts + 1 < MaxAttemptsPerSlot {
      SlotBounds(site, draws, k + 1, attempts + 1);
    }
  }

  /** `slots` slots place at most `slots` objects with at most ten attempts each, so at most ten
      calls of the object supplier per slot; every object comes from an attempt that was made. */
  lemma {:induction false} SpawnPlanBounds(site: Site, draws: nat -> Attempt, slots: nat)
    ensures var (placed, used) := SpawnPlan(site, draws, slots);
            && |placed| <= slots
            && slots <= used <= MaxAttemptsPerSlot * slots
            && (forall p :: p in placed ==> exists j: nat :: j < used && draws(j).supplied.Some?
                                                && p == PlaceFrom(site, draws(j), draws(j).supplied.value))
  {
    if slots > 0 {
      SpawnPlanBounds(site, draws, slots - 1);
      var (placed, k) := SpawnPlan(site, draws, slots - 1);
      SlotBounds(site, draws, k, 0);
    }
  }

  /** Whatever the draws, the Y set on every planned decoration is 0.5 above the noise height at
      its set X and Z. */
  lemma SpawnPlanOnTerrain(site: Site, draws: nat -> Attempt, slots: nat)
    ensures |SpawnPlan(site, draws, slots).0| <= slots
    ensures forall p :: p in SpawnPlan(site, draws, slots).0 ==> p.y == NoiseHeight(site, p.x, p.z) + ObjectLift
  {
    SpawnPlanBounds(site, draws, slots);
  }

  /**
   * With every draw in [0, 1) and every angle given by a unit direction, a
   * chunk's decorations number at most six, cost at most sixty supplier calls,
   * and the position set on each has Y 0.5 above the noise height at its X and Z,
   * and (X, Z) at a distance from the chunk position in
   * [min, max) (a road of non-negative radius and width keeps that range non-negative).
   */
  lemma SpawnedObjectsOnRing(site: Site, draws: nat -> Attempt)
    requires 0.0 <= site.road.roadRadius && 0.0 <= site.road.roadWidth
    requires forall j: nat :: FairAttempt(draws(j))
    ensures |SpawnPlan(site, draws, MaxObjects).0| <= 6 && SpawnPlan(site, draws, MaxObjects).1 <= 60
    ensures forall p :: p in SpawnPlan(site, draws, MaxObjects).0 ==> OnSpawnRing(site, p)
  {
    SpawnPlanBounds(site, draws, MaxObjects);
    var (placed, used) := SpawnPlan(site, draws, MaxObjects);
    forall p | p in placed
      ensures OnSpawnRing(site, p)
    {
      var j: nat :| j < used && draws(j).supplied.Some? && p == PlaceFrom(site, draws(j), draws(j).supplied.value);
      PlacedWithinRing(site, draws(j), draws(j).supplied.value);
    }
  }

  /**
   * `this.add(obj)` makes each decoration a child of the chunk, which sits at the chunk
   * position, so a decoration's world point in the plane is the chunk position plus the
   * position set on it. Since that set position already adds the chunk position, the world
   * point lies at the drawn distance from twice the chunk position, not from the chunk.
   */
  lemma PlacedWorldRing(site: Site, a: Attempt, obj: Object3D)
    requires FairAttempt(a)
    ensures var p := PlaceFrom(site, a, obj);
            var worldX, worldZ := site.posX + p.x, site.posZ + p.z;
            (worldX - 2.0 * site.posX) * (worldX - 2.0 * site.posX) + (worldZ - 2.0 * site.posZ) * (worldZ - 2.0 * site.posZ)
              == SpawnDistance(site.road, a.u) * SpawnDistance(site.road, a.u)
  {
    PlacedOnSpawnRing(site, a, obj);
    var p := PlaceFrom(site, a, obj);
    assert (site.posX + p.x) - 2.0 * site.posX == p.x - site.posX;
    assert (site.posZ + p.z) - 2.0 * site.posZ == p.z - site.posZ;
  }

  /** A chunk at (1000, 0) on the 600 by 55 road, drawing angle 0 and the shortest distance:
      the position set on the object is 629.5 from the chunk, but its world point is 1629.5
      from it. */
  lemma WorldRingExample(obj: Object3D)
    ensures SpawnDistance(RoadParams(600.0, 55.0), 0.0) == 629.5
    ensures var site := Site(1000.0, 0.0, RoadParams(600.0, 55.0), (x: real, z: real) => 0.0);
            var p := PlaceFrom(site, Attempt(1.0, 0.0, 0.0, Some(obj)), obj);
            p.x - site.posX == 629.5 && p.z == 0.0 && (site.posX + p.x) - site.posX == 1629.5
  {
  }

  // ---------------------------------------------------------------- the chunk

  class Chunk {
    const chunkSize: real
    const lod: nat
    const site: Site
    const segments: nat
    /** The geometry's position buffer. */
    const geometry: array<Vertex>
    var objects: seq<Placed>

    /** The segment count follows the level of detail, the position buffer is the shaped plane,
        and the chunk holds at most six decorations, each with its set Y 0.5 above the noise
        height at its set X and Z. */
    ghost predicate Valid()
      reads this, geometry
    {
      && segments == Segments(chunkSize, lod)
      && geometry[..] == SandWaves(site, PlaneGrid(chunkSize, segments))
      && |objects| <= MaxObjects
      && (forall p :: p in objects ==> p.y == NoiseHeight(site, p.x, p.z) + ObjectLift)
    }

    /**
     * Builds the plane for the chunk's level of detail, shapes it, and spawns
     * decorations only when asked to. `draws` stands for the random draws and
     * the object supplier's answers, one element per placement attempt.
     */
    constructor (chunkSize: real, noise: (real, real) -> real, lod: nat, posX: real, posZ: real,
                 road: RoadParams, shouldSpawnObjects: bool, draws: nat -> Attempt)
      ensures Valid()
      ensures this.chunkSize == chunkSize && this.lod == lod
      ensures site.posX == posX && site.posZ == posZ && site.road == road && site.noise == noise
      ensures segments == Segments(chunkSize, lod)
      ensures fresh(geometry) && geometry[..] == SandWaves(site, PlaneGrid(chunkSize, segments))
      ensures objects == if shouldSpawnObjects then SpawnPlan(site, draws, MaxObjects).0 else []
    {
      this.chunkSize := chunkSize;
      this.lod := lod;
      site := Site(posX, posZ, road, noise);
      var n := Segments(chunkSize, lod);
      segments := n;
      var grid := PlaneGrid(chunkSize, n);
      geometry := new Vertex[|grid|](i requires 0 <= i < |grid| => grid[i]);
      objects := [];
      new;
      assert geometry[..] == grid;
      ApplySandWaves();
      if shouldSpawnObjects {
        var used := SpawnObjects(draws);
        SpawnPlanOnTerrain(site, draws, MaxObjects);
      }
    }

    /** Overwrites the height of every vertex, in place, with the height of its world point. */
    method ApplySandWaves()
      modifies geometry
      ensures geometry[..] == SandWaves(site, old(geometry[..]))
    {
      var i := 0;
      while i < geometry.Length
        invariant 0 <= i <= geometry.Length
        invariant forall j :: 0 <= j < i ==> geometry[j] == SandWaves(site, old(geometry[..]))[j]
        invariant forall j :: i <= j < geometry.Length ==> geometry[j] == old(geometry[j])
      {
        var x := geometry[i].x + site.posX;
        var z := geometry[i].z + site.posZ;
        geometry[i] := geometry[i].(y := TerrainHeight(site, x, z));
        i := i + 1;
      }
    }

    /** Fills up to six slots in order, each with up to ten attempts; returns the number of
        attempts made. */
    method SpawnObjects(draws: nat -> Attempt) returns (used: nat)
      modifies this`objects
      ensures (objects, used) == SpawnPlan(site, draws, MaxObjects)
    {
      var spawnedObjects: seq<Placed> := [];
      var k: nat := 0;
      for i := 0 to MaxObjects
        invariant spawnedObjects == SpawnPlan(site, draws, i).0 && k == SpawnPlan(site, draws, i).1
      {
        var found, next := FillSlot(draws, k);
        if found.Some? {
          spawnedObjects := spawnedObjects + [found.value];
        }
        k := next;
      }
      objects := spawnedObjects;
      used := k;
    }

    /** The inner loop of `spawnObjects`: attempts from draw `start` until one places an object
        or ten have been made; returns that object, if any, and the index of the next draw. */
    method FillSlot(draws: nat -> Attempt, start: nat) returns (found: Option<Placed>, next: nat)
      ensures (found, next) == Slot(site, draws, start, 0)
    {
      var attempts := 0;
      next := start;
      found := None;
      while attempts < MaxAttemptsPerSlot && found.None?
        invariant 0 <= attempts <= MaxAttemptsPerSlot
        invariant found.None? ==> Slot(site, draws, start, 0) == Slot(site, draws, next, attempts)
        invariant found.Some? ==> Slot(site, draws, start, 0) == (found, next)
      {
        attempts := attempts + 1;
        found := TryPlace(draws(next));
        next := next + 1;
      }
    }

    /** One attempt: the position at the drawn angle and distance from the chunk position, at the noise
        height there plus 0.5, given to the object the supplier returned, if any. */
    method TryPlace(a: Attempt) returns (obj: Option<Placed>)
      ensures obj == if a.supplied.Some? then Some(PlaceFrom(site, a, a.supplied.value)) else None
    {
      var distance := SpawnDistance(site.road, a.u);
      var x := site.posX + a.cosAngle * distance;
      var z := site.posZ + a.sinAngle * distance;
      var y := NoiseHeight(site, x, z) + ObjectLift;
      if a.supplied.Some? {
        PlaceFromAt(site, a, a.supplied.value, x, z);
        obj := Some(Placed(a.supplied.value, x, y, z));
      } else {
        obj := None;
      }
    }

    /** Releases the chunk's decorations: the object list ends empty. */
    method RemoveChunk()
      requires Valid()
      modifies this`objects
      ensures Valid() && objects == []
    {
      objects := [];
    }
  }
}
