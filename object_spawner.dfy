/**
 * The object spawner: scatters decorations (cacti and rare objects) over a
 * chunk's square, never in a cell whose key is tracked at that moment, tracks
 * the occupied cells in a set of keys, and releases the keys (and the group's
 * children named by them) that lie too far from the camera.
 */
module ObjectSpawning {
  import opened Options
  import opened Scene
  import opened Distance
  import opened Road
  import opened OccupancyKeys

  /** The road the spawner keeps clear, fixed in the spawner itself: radius 600, width 55. */
  const SpawnerRoad: RoadParams := RoadParams(600.0, 55.0)
  /** Samples tried for one requested object. */
  const MaxAttempts: nat := 6
  /** Objects farther from the camera than this many render distances' worth of chunks are released. */
  const ViewFactor: real := 1.5
  /** Chance that a chunk gets one rare object. */
  const RareChance: real := 0.2

  /** The square sampled for a chunk: its centre and its side. */
  datatype Area = Area(chunkX: real, chunkZ: real, chunkSize: real)

  /** What `Math.random` promises: every draw lies in [0, 1). */
  ghost predicate Fair(rand: nat -> real)
  {
    forall i: nat :: 0.0 <= rand(i) < 1.0
  }

  // ---------------------------------------------------------------- one sample

  /** `center + (Math.random() - 0.5) * chunkSize` for the draw `r`. */
  function SampleCoord(center: real, chunkSize: real, r: real): real
  {
    center + (r - 0.5) * chunkSize
  }

  /** A draw in [0, 1) samples the half-open side [center - size/2, center + size/2). */
  lemma SampleInSquare(center: real, chunkSize: real, r: real)
    requires 0.0 < chunkSize && 0.0 <= r < 1.0
    ensures center - chunkSize / 2.0 <= SampleCoord(center, chunkSize, r) < center + chunkSize / 2.0
  {
    assert SampleCoord(center, chunkSize, r) - (center - chunkSize / 2.0) == r * chunkSize;
    assert center + chunkSize / 2.0 - SampleCoord(center, chunkSize, r) == (1.0 - r) * chunkSize;
    if 0.0 < r {
      ProductIsPositive(r, chunkSize);
    }
    ProductIsPositive(1.0 - r, chunkSize);
  }

  /** `Math.floor(Math.random() * count)`: the index of the template to clone. */
  function PickIndex(r: real, count: nat): int
  {
    (r * count as real).Floor
  }

  /** A draw in [0, 1) picks an index of a non-empty list. */
  lemma PickInRange(r: real, count: nat)
    requires 0.0 <= r < 1.0 && 0 < count
    ensures 0 <= PickIndex(r, count) < count
  {
    if 0.0 < r {
      ProductIsPositive(r, count as real);
    }
    ProductIsPositive(1.0 - r, count as real);
    assert count as real - r * count as real == (1.0 - r) * count as real;
  }

  /** The three tests a sample must pass, in the order the spawner makes them: its cell is
      not occupied, the height map knows its cell, and it is not on the road. */
  predicate Accepts(placed: set<string>, heightMap: map<string, real>, x: real, z: real)
  {
    && KeyOf(x, z) !in placed
    && KeyOf(x, z) in heightMap
    && !IsInRoad(SpawnerRoad, x, z)
  }

  /** With the road fixed at 600 by 55, a sample is on the road exactly when its distance
      from the origin lies in [572.5, 627.5], both ends included. */
  lemma SpawnerRoadByDistance(x: real, z: real, d: real)
    requires 0.0 <= d && d * d == x * x + z * z
    ensures IsInRoad(SpawnerRoad, x, z) <==> 572.5 <= d <= 627.5
  {
    IsInRoadByDistance(SpawnerRoad, x, z, d);
  }

  /** A sample at distance 600 is refused whatever the occupancy; one near the origin in a
      free cell the height map knows is taken. */
  lemma SpawnerRoadExamples(placed: set<string>, heightMap: map<string, real>)
    ensures !Accepts(placed, heightMap, 600.0, 0.0) && !Accepts(placed, heightMap, 0.0, -600.0)
    ensures "0,0" !in placed && "0,0" in heightMap ==> Accepts(placed, heightMap, 0.25, 0.75)
  {
    SpawnerRoadByDistance(600.0, 0.0, 600.0);
    SpawnerRoadByDistance(0.0, -600.0, 600.0);
    assert (0.25).Floor == 0 && (0.75).Floor == 0;
    assert NumberToString(0) == "0";
    assert KeyOf(0.25, 0.75) == "0,0";
  }

  // ---------------------------------------------------------------- one object

  /** The object a successful attempt claims: its cell key, its point and height, and the
      index of the template it clones. */
  datatype Claim = Claim(key: string, x: real, y: real, z: real, pick: int)

  /** How a run of attempts ends: the claim, if any, the attempts made counting from zero,
      and the index of the next unused draw. */
  datatype Outcome = Outcome(claim: Option<Claim>, attempts: nat, next: nat)

  /** The draw at which attempt `j` of a call starting at draw `start` begins: every rejected
      attempt reads two draws. */
  function AttemptDraw(start: nat, j: nat): nat
  {
    start + 2 * j
  }

  /** The X coordinate sampled by the attempt beginning at draw `i`, and its Z from the next draw. */
  function SampleX(area: Area, rand: nat -> real, i: nat): real
  {
    SampleCoord(area.chunkX, area.chunkSize, rand(i))
  }

  function SampleZ(area: Area, rand: nat -> real, i: nat): real
  {
    SampleCoord(area.chunkZ, area.chunkSize, rand(i + 1))
  }

  /** Whether the attempt beginning at draw `i` passes all three tests. */
  predicate AcceptedAt(area: Area, placed: set<string>, heightMap: map<string, real>, rand: nat -> real, i: nat)
  {
    Accepts(placed, heightMap, SampleX(area, rand, i), SampleZ(area, rand, i))
  }

  /** What the attempt beginning at draw `i` claims when it is accepted: the draw after its
      two coordinates picks the template. */
  function ClaimAt(area: Area, heightMap: map<string, real>, count: nat, rand: nat -> real, i: nat): Claim
    requires KeyOf(SampleX(area, rand, i), SampleZ(area, rand, i)) in heightMap
  {
    var x := SampleX(area, rand, i);
    var z := SampleZ(area, rand, i);
    Claim(KeyOf(x, z), x, heightMap[KeyOf(x, z)], z, PickIndex(rand(i + 2), count))
  }

  /** The verdict on the attempt beginning at draw `i`: its claim when it passes all three
      tests, None when it is rejected. */
  function Verdict(area: Area, placed: set<string>, heightMap: map<string, real>, count: nat,
                   rand: nat -> real, i: nat): Option<Claim>
  {
    if AcceptedAt(area, placed, heightMap, rand, i) then Some(ClaimAt(area, heightMap, count, rand, i)) else None
  }

  /** The verdicts on every attempt a chunk's draws could start. */
  function Verdicts(area: Area, placed: set<string>, heightMap: map<string, real>, count: nat,
                    rand: nat -> real): nat -> Option<Claim>
  {
    (i: nat) => Verdict(area, placed, heightMap, count, rand, i)
  }

  /** The attempt loop of `spawnObject` from attempt `attempts` on, reading draws from `k`:
      the first accepted attempt's claim is taken; after six attempts nothing is. */
  function TrySpawn(verdicts: nat -> Option<Claim>, k: nat, attempts: nat): Outcome
    requires attempts <= MaxAttempts
    decreases MaxAttempts - attempts
  {
    if attempts == MaxAttempts then Outcome(None, attempts, k)
    else if verdicts(k).Some? then Outcome(verdicts(k), attempts + 1, k + 3)
    else TrySpawn(verdicts, k + 2, attempts + 1)
  }

  /** The verdict on the attempt starting at draw `i`, for the point (x, z) that attempt samples. */
  lemma VerdictAt(area: Area, placed: set<string>, heightMap: map<string, real>, count: nat,
                  rand: nat -> real, i: nat, x: real, z: real)
    requires x == SampleCoord(area.chunkX, area.chunkSize, rand(i))
    requires z == SampleCoord(area.chunkZ, area.chunkSize, rand(i + 1))
    ensures Accepts(placed, heightMap, x, z) ==>
              Verdicts(area, placed, heightMap, count, rand)(i)
              == Some(Claim(KeyOf(x, z), x, heightMap[KeyOf(x, z)], z, PickIndex(rand(i + 2), count)))
    ensures !Accepts(placed, heightMap, x, z) ==> Verdicts(area, placed, heightMap, count, rand)(i) == None
  {
    assert Verdicts(area, placed, heightMap, count, rand)(i) == Verdict(area, placed, heightMap, count, rand, i);
  }

  /** A rejected attempt moves on to the next one, two draws later. */
  lemma TrySpawnRejects(verdicts: nat -> Option<Claim>, k: nat, attempts: nat)
    requires attempts < MaxAttempts && verdicts(k).None?
    ensures TrySpawn(verdicts, k, attempts) == TrySpawn(verdicts, k + 2, attempts + 1)
  {
  }

  /** An accepted attempt ends the loop with its claim, three draws later. */
  lemma TrySpawnAccepts(verdicts: nat -> Option<Claim>, k: nat, attempts: nat)
    requires attempts < MaxAttempts && verdicts(k).Some?
    ensures TrySpawn(verdicts, k, attempts) == Outcome(verdicts(k), attempts + 1, k + 3)
  {
  }

  /**
   * The attempt loop scans its attempts in order: every attempt before the last one made was
   * rejected; a claim comes from the last attempt made; without a claim all six attempts were
   * made and all were rejected. Each attempt reads two draws and a claim one more.
   */
  lemma {:induction false} TrySpawnScans(verdicts: nat -> Option<Claim>, start: nat, k: nat, attempts: nat)
    requires attempts <= MaxAttempts && k == AttemptDraw(start, attempts)
    ensures var out := TrySpawn(verdicts, k, attempts);
            && attempts <= out.attempts <= MaxAttempts
            && (out.claim.None? ==> out.attempts == MaxAttempts && out.next == AttemptDraw(start, MaxAttempts))
            && (out.claim.Some? ==>
                  && attempts < out.attempts
                  && out.next == AttemptDraw(start, out.attempts - 1) + 3
                  && out.claim == verdicts(AttemptDraw(start, out.attempts - 1)))
            && (forall j :: attempts <= j < out.attempts && (out.claim.None? || j < out.attempts - 1) ==>
                  verdicts(AttemptDraw(start, j)).None?)
    decreases MaxAttempts - attempts
  {
    if attempts < MaxAttempts && verdicts(k).None? {
      TrySpawnScans(verdicts, start, k + 2, attempts + 1);
    }
  }

  /** A claim is the verdict on the last attempt made. */
  lemma TrySpawnClaim(verdicts: nat -> Option<Claim>, k: nat)
    ensures var out := TrySpawn(verdicts, k, 0);
            out.claim.Some? ==> 0 < out.attempts && out.claim == verdicts(AttemptDraw(k, out.attempts - 1))
  {
    TrySpawnScans(verdicts, k, k, 0);
  }

  /**
   * An accepted attempt's key names the cell of its point; it was free, the height map knows
   * it, the claimed height is the height map's, and the point is off the road. With fair draws
   * the template index lies in the list and, on a square of positive side, the point lies in
   * the chunk's square.
   */
  lemma VerdictIsSound(area: Area, placed: set<string>, heightMap: map<string, real>, count: nat,
                       rand: nat -> real, i: nat)
    ensures var v := Verdict(area, placed, heightMap, count, rand, i);
            v.Some? ==> SoundClaim(area, placed, heightMap, count, rand, v.value)
  {
    var v := Verdict(area, placed, heightMap, count, rand, i);
    if v.Some? {
      if Fair(rand) && 0 < count {
        PickInRange(rand(i + 2), count);
      }
      if Fair(rand) && 0.0 < area.chunkSize {
        SampleInSquare(area.chunkX, area.chunkSize, rand(i));
        SampleInSquare(area.chunkZ, area.chunkSize, rand(i + 1));
      }
    }
  }

  /** What a claim promises; see `VerdictIsSound`. */
  ghost predicate SoundClaim(area: Area, placed: set<string>, heightMap: map<string, real>, count: nat,
                             rand: nat -> real, c: Claim)
  {
    && c.key == KeyOf(c.x, c.z) && c.key !in placed && c.key in heightMap
    && c.y == heightMap[c.key]
    && !IsInRoad(SpawnerRoad, c.x, c.z)
    && (Fair(rand) && 0 < count ==> 0 <= c.pick < count)
    && (Fair(rand) && 0.0 < area.chunkSize ==>
          && area.chunkX - area.chunkSize / 2.0 <= c.x < area.chunkX + area.chunkSize / 2.0
          && area.chunkZ - area.chunkSize / 2.0 <= c.z < area.chunkZ + area.chunkSize / 2.0)
  }

  /** Whatever `spawnObject`'s attempt loop claims is sound in the sense of `VerdictIsSound`. */
  lemma ClaimIsSound(area: Area, placed: set<string>, heightMap: map<string, real>, count: nat,
                     rand: nat -> real, k: nat)
    ensures var out := TrySpawn(Verdicts(area, placed, heightMap, count, rand), k, 0);
            out.claim.Some? ==> SoundClaim(area, placed, heightMap, count, rand, out.claim.value)
  {
    var verdicts := Verdicts(area, placed, heightMap, count, rand);
    var out := TrySpawn(verdicts, k, 0);
    TrySpawnClaim(verdicts, k);
    if out.claim.Some? {
      VerdictIsSound(area, placed, heightMap, count, rand, AttemptDraw(k, out.attempts - 1));
    }
  }

  /** What the spawner tracks: the occupied cell keys and the children of its scene group. */
  datatype Tracked = Tracked(placed: set<string>, scene: seq<Placed>)

  /** `spawnObject`: nothing for an empty list; otherwise the claim, if any, adds its key and a
      clone of the picked template at the claimed point. Also gives the next unused draw. */
  function SpawnInto(area: Area, heightMap: map<string, real>, list: seq<Object3D>, rand: nat -> real,
                     k: nat, t: Tracked): (Tracked, nat)
  {
    if |list| == 0 then (t, k)
    else
      var out := TrySpawn(Verdicts(area, t.placed, heightMap, |list|, rand), k, 0);
      if out.claim.None? then (t, out.next)
      else
        var c := out.claim.value;
        // the pick is always in range for draws in [0, 1): see ClaimIsSound
        if 0 <= c.pick < |list| then
          (Tracked(t.placed + {c.key}, t.scene + [Placed(list[c.pick], c.x, c.y, c.z)]), out.next)
        else (t, out.next)
  }

  /** The tracked state gained one object and its cell key: a template from the list, set at
      the height map's height of a cell key that was free, off the road, and whose cell holds
      the object; nothing else changed. */
  predicate NewObject(heightMap: map<string, real>, list: seq<Object3D>, t: Tracked, t': Tracked)
  {
    && |t'.scene| == |t.scene| + 1 && t'.scene[..|t.scene|] == t.scene
    && var p := t'.scene[|t.scene|];
       && p.obj in list
       && KeyOf(p.x, p.z) !in t.placed && KeyOf(p.x, p.z) in heightMap
       && p.y == heightMap[KeyOf(p.x, p.z)]
       && !IsInRoad(SpawnerRoad, p.x, p.z)
       && t'.placed == t.placed + {KeyOf(p.x, p.z)}
  }

  /** One `spawnObject` call reads at most six pairs of draws and one more for a claim; with an
      empty list it reads none and changes nothing. */
  lemma SpawnIntoDraws(area: Area, heightMap: map<string, real>, list: seq<Object3D>, rand: nat -> real,
                       k: nat, t: Tracked)
    ensures var (t', next) := SpawnInto(area, heightMap, list, rand, k, t);
            && k <= next <= k + 2 * MaxAttempts + 1
            && (|list| == 0 ==> t' == t && next == k)
  {
    TrySpawnScans(Verdicts(area, t.placed, heightMap, |list|, rand), k, k, 0);
  }

  /** One `spawnObject` call either changes nothing or adds exactly one object and its fresh
      cell key; nothing is removed. */
  lemma SpawnIntoAddsAtMostOne(area: Area, heightMap: map<string, real>, list: seq<Object3D>,
                               rand: nat -> real, k: nat, t: Tracked)
    ensures var (t', next) := SpawnInto(area, heightMap, list, rand, k, t);
            t' == t || NewObject(heightMap, list, t, t')
  {
    if |list| > 0 {
      var out := TrySpawn(Verdicts(area, t.placed, heightMap, |list|, rand), k, 0);
      ClaimIsSound(area, t.placed, heightMap, |list|, rand, k);
      if out.claim.Some? && 0 <= out.claim.value.pick < |list| {
        var c := out.claim.value;
        var t' := Tracked(t.placed + {c.key}, t.scene + [Placed(list[c.pick], c.x, c.y, c.z)]);
        assert t'.scene[..|t.scene|] == t.scene;
        assert t'.scene[|t.scene|] == Placed(list[c.pick], c.x, c.y, c.z);
        assert NewObject(heightMap, list, t, t');
      }
    }
  }

  /** For a non-empty list and draws in [0, 1), whatever the attempt loop claims is recorded: its
      key joins the tracked keys and a clone of the picked template is added at the claimed point.
      When nothing is claimed the state is unchanged. */
  lemma SpawnIntoRecordsClaim(area: Area, heightMap: map<string, real>, list: seq<Object3D>,
                              rand: nat -> real, k: nat, t: Tracked)
    requires |list| > 0 && Fair(rand)
    ensures var out := TrySpawn(Verdicts(area, t.placed, heightMap, |list|, rand), k, 0);
            && (out.claim.None? ==> SpawnInto(area, heightMap, list, rand, k, t) == (t, out.next))
            && (out.claim.Some? ==>
                  var c := out.claim.value;
                  && 0 <= c.pick < |list|
                  && SpawnInto(area, heightMap, list, rand, k, t)
                     == (Tracked(t.placed + {c.key}, t.scene + [Placed(list[c.pick], c.x, c.y, c.z)]), out.next))
  {
    ClaimIsSound(area, t.placed, heightMap, |list|, rand, k);
  }

  /** A spawn that adds at most one object is a run of spawns with at most one request. */
  lemma NewObjectGrows(heightMap: map<string, real>, list: seq<Object3D>, t: Tracked, t': Tracked)
    requires t' == t || NewObject(heightMap, list, t, t')
    ensures Grows(t, t', 1)
  {
  }

  // ---------------------------------------------------------------- one chunk

  /** `Math.floor(Math.random() * 2) + 1` cacti for the draw `r`. */
  function CactusCount(r: real): (n: nat)
    requires 0.0 <= r < 1.0
    ensures n == if r < 0.5 then 1 else 2
  {
    (r * 2.0).Floor + 1
  }

  /** One rare object with probability 0.2: `Math.random() < 0.2 ? 1 : 0`. */
  function RareCount(r: real): (n: nat)
    ensures n <= 1 && (n == 1 <==> r < RareChance)
  {
    if r < RareChance then 1 else 0
  }

  /** One `spawnObject` call with a fixed list, as a step on what is tracked and the next draw. */
  function SpawnStep(area: Area, heightMap: map<string, real>, list: seq<Object3D>, rand: nat -> real)
    : (Tracked, nat) -> (Tracked, nat)
  {
    (t: Tracked, k: nat) => SpawnInto(area, heightMap, list, rand, k, t)
  }

  /** `n` successive steps: `n` `spawnObject` calls with the same list. */
  function SpawnTimes(n: nat, step: (Tracked, nat) -> (Tracked, nat), k: nat, t: Tracked): (Tracked, nat)
  {
    if n == 0 then (t, k)
    else
      var (t1, k1) := SpawnTimes(n - 1, step, k, t);
      step(t1, k1)
  }

  /** `spawnObjectsInChunk`: draw the cactus count, then the rare count, then request that many
      cacti and that many rare objects, in that order. */
  function InChunk(area: Area, heightMap: map<string, real>, cactusList: seq<Object3D>,
                   rareObjects: seq<Object3D>, rand: nat -> real, k: nat, t: Tracked): (Tracked, nat)
    requires Fair(rand)
  {
    var (t1, k1) := SpawnTimes(CactusCount(rand(k)), SpawnStep(area, heightMap, cactusList, rand), k + 2, t);
    SpawnTimes(RareCount(rand(k + 1)), SpawnStep(area, heightMap, rareObjects, rand), k1, t1)
  }

  /** How a run of spawns changes what is tracked: nothing is removed, the scene only grows at
      its end, by one object per new key, and by no more than one key per request. */
  predicate Grows(t: Tracked, t': Tracked, n: nat)
  {
    && t.placed <= t'.placed
    && |t'.placed| <= |t.placed| + n
    && |t.scene| <= |t'.scene| && t'.scene[..|t.scene|] == t.scene
    && |t'.scene| - |t.scene| == |t'.placed| - |t.placed|
  }

  lemma GrowsTransitive(t1: Tracked, t2: Tracked, t3: Tracked, m: nat, n: nat)
    requires Grows(t1, t2, m) && Grows(t2, t3, n)
    ensures Grows(t1, t3, m + n)
  {
    assert t3.scene[..|t1.scene|] == t3.scene[..|t2.scene|][..|t1.scene|];
  }

  /** A step that adds at most one object and reads at most six pairs of draws and one more. */
  ghost predicate StepGrows(step: (Tracked, nat) -> (Tracked, nat))
  {
    forall t: Tracked, k: nat :: Grows(t, step(t, k).0, 1) && k <= step(t, k).1 <= k + 2 * MaxAttempts + 1
  }

  lemma SpawnStepGrows(area: Area, heightMap: map<string, real>, list: seq<Object3D>, rand: nat -> real)
    ensures StepGrows(SpawnStep(area, heightMap, list, rand))
  {
    forall t: Tracked, k: nat
      ensures var after := SpawnInto(area, heightMap, list, rand, k, t);
              Grows(t, after.0, 1) && k <= after.1 <= k + 2 * MaxAttempts + 1
    {
      SpawnIntoDraws(area, heightMap, list, rand, k, t);
      SpawnIntoAddsAtMostOne(area, heightMap, list, rand, k, t);
      NewObjectGrows(heightMap, list, t, SpawnInto(area, heightMap, list, rand, k, t).0);
    }
  }

  lemma {:induction false} SpawnTimesGrows(n: nat, step: (Tracked, nat) -> (Tracked, nat), k: nat, t: Tracked)
    requires StepGrows(step)
    ensures var (t', next) := SpawnTimes(n, step, k, t);
            Grows(t, t', n) && k <= next <= k + (2 * MaxAttempts + 1) * n
  {
    if n > 0 {
      SpawnTimesGrows(n - 1, step, k, t);
      var (t1, k1) := SpawnTimes(n - 1, step, k, t);
      var (t2, k2) := step(t1, k1);
      GrowsTransitive(t, t1, t2, n - 1, 1);
    }
  }

  /** A chunk requests one or two cacti and at most one rare object, so it gains at most three
      objects and three keys; nothing tracked before is removed. */
  lemma InChunkGrows(area: Area, heightMap: map<string, real>, cactusList: seq<Object3D>,
                     rareObjects: seq<Object3D>, rand: nat -> real, k: nat, t: Tracked)
    requires Fair(rand)
    ensures 1 <= CactusCount(rand(k)) <= 2 && RareCount(rand(k + 1)) <= 1
    ensures var (t', next) := InChunk(area, heightMap, cactusList, rareObjects, rand, k, t);
            Grows(t, t', 3) && k + 2 <= next
  {
    var nc, nr := CactusCount(rand(k)), RareCount(rand(k + 1));
    var cacti, rares := SpawnStep(area, heightMap, cactusList, rand), SpawnStep(area, heightMap, rareObjects, rand);
    SpawnStepGrows(area, heightMap, cactusList, rand);
    SpawnStepGrows(area, heightMap, rareObjects, rand);
    SpawnTimesGrows(nc, cacti, k + 2, t);
    var (t1, k1) := SpawnTimes(nc, cacti, k + 2, t);
    SpawnTimesGrows(nr, rares, k1, t1);
    var (t2, k2) := SpawnTimes(nr, rares, k1, t1);
    GrowsTransitive(t, t1, t2, nc, nr);
  }

  // ---------------------------------------------------------------- release

  /** `getObjectByName` over the group's children: the first child whose object has the name. */
  function FindByName(children: seq<Placed>, name: string): (found: Option<nat>)
    ensures found.Some? ==> found.value < |children| && children[found.value].obj.name == name
    ensures found.Some? ==> forall j :: 0 <= j < found.value ==> children[j].obj.name != name
    ensures found.None? ==> forall j :: 0 <= j < |children| ==> children[j].obj.name != name
    decreases |children|
  {
    if children == [] then None
    else if children[0].obj.name == name then Some(0)
    else match FindByName(children[1..], name)
      case None => None
      case Some(i) => Some(i + 1)
  }

  function Position(p: Placed): Vec3
  {
    Vec3(p.x, p.y, p.z)
  }

  /** `chunkSize * renderDistance * 1.5`. */
  function MaxDistance(chunkSize: real, renderDistance: real): real
  {
    chunkSize * renderDistance * ViewFactor
  }

  /** A key whose object is found in the group and lies farther than `maxDistance` from the camera. */
  predicate TooFar(children: seq<Placed>, camera: Vec3, maxDistance: real, key: string)
  {
    var found := FindByName(children, key);
    found.Some? && Exceeds(SquaredDistance(camera, Position(children[found.value])), maxDistance)
  }

  /** The keys `removeObjectsOutOfView` releases. */
  function Stale(keys: set<string>, children: seq<Placed>, camera: Vec3, maxDistance: real): set<string>
  {
    set key | key in keys && TooFar(children, camera, maxDistance, key)
  }

  /** A key is released exactly when its object is found and its distance from the camera is
      greater than the limit; keys without an object, or whose object is within it, are kept. */
  lemma StaleByDistance(keys: set<string>, children: seq<Placed>, camera: Vec3, maxDistance: real,
                        key: string, d: real)
    requires FindByName(children, key).Some? ==>
               0.0 <= d && d * d == SquaredDistance(camera, Position(children[FindByName(children, key).value]))
    ensures key in Stale(keys, children, camera, maxDistance) <==>
              key in keys && FindByName(children, key).Some? && d > maxDistance
  {
    var found := FindByName(children, key);
    if found.Some? {
      ExceedsIsDistanceTest(SquaredDistance(camera, Position(children[found.value])), d, maxDistance);
    }
  }

  function RemoveAt(s: seq<Placed>, i: nat): (r: seq<Placed>)
    requires i < |s|
    ensures |r| == |s| - 1
  {
    s[..i] + s[i + 1..]
  }

  /** The children left after `sceneGroup.remove` of the first child named by each name in `names`. */
  function Prune(children: seq<Placed>, names: set<string>): seq<Placed>
    decreases |children|
  {
    if children == [] then []
    else if children[0].obj.name in names then Prune(children[1..], names - {children[0].obj.name})
    else [children[0]] + Prune(children[1..], names)
  }

  lemma {:induction false} PruneNothing(children: seq<Placed>)
    ensures Prune(children, {}) == children
    decreases |children|
  {
    if children != [] {
      PruneNothing(children[1..]);
    }
  }

  /**
   * Removing other names first does not change what a name finds, and removing what it finds
   * then is the same as removing it along with the others: so the release loop's result does
   * not depend on the order in which it visits the keys.
   */
  lemma {:induction false} PruneOneMore(children: seq<Placed>, names: set<string>, key: string)
    requires key !in names
    ensures var found := FindByName(children, key);
            var pruned := Prune(children, names);
            var after := FindByName(pruned, key);
            && (found.Some? <==> after.Some?)
            && (found.Some? ==> pruned[after.value] == children[found.value]
                                && RemoveAt(pruned, after.value) == Prune(children, names + {key}))
    decreases |children|
  {
    if children != [] {
      var h, rest := children[0], children[1..];
      if h.obj.name in names {
        PruneOneMore(rest, names - {h.obj.name}, key);
        assert (names + {key}) - {h.obj.name} == (names - {h.obj.name}) + {key};
      } else if h.obj.name == key {
        assert (names + {key}) - {key} == names;
      } else {
        PruneOneMore(rest, names, key);
        var pruned := Prune(rest, names);
        var after := FindByName(pruned, key);
        if after.Some? {
          assert RemoveAt([h] + pruned, after.value + 1) == [h] + RemoveAt(pruned, after.value);
        }
      }
    }
  }

  /** Pruning names that each name some child removes exactly one child per name, and every
      child whose name is not pruned stays. */
  lemma {:induction false} PruneRemovesOnePerName(children: seq<Placed>, names: set<string>)
    requires forall name :: name in names ==> FindByName(children, name).Some?
    ensures |Prune(children, names)| == |children| - |names|
    ensures forall p :: p in children && p.obj.name !in names ==> p in Prune(children, names)
    decreases |children|
  {
    if children == [] {
      assert forall name :: name !in names;
      assert names == {};
    } else {
      var h, rest := children[0], children[1..];
      if h.obj.name in names {
        var names' := names - {h.obj.name};
        forall name | name in names'
          ensures FindByName(rest, name).Some?
        {
          assert FindByName(children, name).Some?;
        }
        PruneRemovesOnePerName(rest, names');
        forall p | p in children && p.obj.name !in names
          ensures p in Prune(children, names)
        {
          assert p in rest;
        }
      } else {
        forall name | name in names
          ensures FindByName(rest, name).Some?
        {
          assert FindByName(children, name).Some?;
        }
        PruneRemovesOnePerName(rest, names);
        forall p | p in children && p.obj.name !in names
          ensures p in Prune(children, names)
        {
          if p != h {
            assert p in rest;
          }
        }
      }
    }
  }

  /** Released keys all name a child, so releasing them removes exactly one child each. */
  lemma ReleaseRemovesOneChildPerKey(keys: set<string>, children: seq<Placed>, camera: Vec3, maxDistance: real)
    ensures Stale(keys, children, camera, maxDistance) <= keys
    ensures |Prune(children, Stale(keys, children, camera, maxDistance))|
              == |children| - |Stale(keys, children, camera, maxDistance)|
  {
    PruneRemovesOnePerName(children, Stale(keys, children, camera, maxDistance));
  }

  /**
   * The group may hold children that are not the spawner's clones. A stray child named like a
   * key is what the lookup finds: the key is released and the stray removed, while the clone
   * placed in that cell (named after its template) stays in the group.
   */
  lemma StrayChildReleasesKey()
    ensures var stray := Placed(Object3D(0, "3,4"), 1000.0, 0.0, 0.0);
            var clone := Placed(Object3D(1, "cactus"), 3.5, 0.0, 4.5);
            && KeyOf(3.5, 4.5) == "3,4"
            && Stale({"3,4"}, [stray, clone], Vec3(0.0, 0.0, 0.0), 10.0) == {"3,4"}
            && Prune([stray, clone], {"3,4"}) == [clone]
  {
    var stray := Placed(Object3D(0, "3,4"), 1000.0, 0.0, 0.0);
    var clone := Placed(Object3D(1, "cactus"), 3.5, 0.0, 4.5);
    assert TooFar([stray, clone], Vec3(0.0, 0.0, 0.0), 10.0, "3,4");
    assert Prune([clone], {}) == [clone];
  }

  // ---------------------------------------------------------------- the spawner

  class ObjectSpawner {
    const chunkSize: real
    const renderDistance: real
    var heightMap: map<string, real>
    /** The occupancy keys `${floor x},${floor z}` of the cells holding a decoration. */
    var objectsPlaced: set<string>
    var cactusList: seq<Object3D>
    var rareObjects: seq<Object3D>
    /** The children of the scene group the spawner adds to and removes from. */
    var scene: seq<Placed>

    /** Every tracked key reads back, through `split(",").map(Number)`, to the cell it names. */
    ghost predicate Valid()
      reads this
    {
      forall key {:trigger IsCellKey(key)} :: key in objectsPlaced ==> IsCellKey(key)
    }

    constructor (sceneGroup: seq<Placed>, chunkSize: real, renderDistance: real)
      ensures Valid()
      ensures this.chunkSize == chunkSize && this.renderDistance == renderDistance
      ensures scene == sceneGroup && heightMap == map[] && objectsPlaced == {}
      ensures cactusList == [] && rareObjects == []
    {
      this.chunkSize := chunkSize;
      this.renderDistance := renderDistance;
      scene := sceneGroup;
      heightMap := map[];
      objectsPlaced := {};
      cactusList := [];
      rareObjects := [];
    }

    method UpdateHeightMap(heightMap: map<string, real>)
      requires Valid()
      modifies this`heightMap
      ensures Valid() && this.heightMap == heightMap
    {
      this.heightMap := heightMap;
    }

    method SetObjects(cactus: seq<Object3D>, rareObjects: seq<Object3D>)
      requires Valid()
      modifies this`cactusList, this`rareObjects
      ensures Valid() && cactusList == cactus && this.rareObjects == rareObjects
    {
      cactusList := cactus;
      this.rareObjects := rareObjects;
    }

    /** Requests one or two cacti and, with probability 0.2, one rare object in the chunk's square
        centred at (chunkX, chunkZ), reading draws from `k`; returns the next unused draw. */
    method SpawnObjectsInChunk(chunkX: real, chunkZ: real, rand: nat -> real, k: nat) returns (next: nat)
      requires Valid() && Fair(rand)
      modifies this`objectsPlaced, this`scene
      ensures Valid()
      ensures (Tracked(objectsPlaced, scene), next)
              == InChunk(Area(chunkX, chunkZ, chunkSize), heightMap, cactusList, rareObjects, rand, k,
                         Tracked(old(objectsPlaced), old(scene)))
    {
      ghost var area, t := Area(chunkX, chunkZ, chunkSize), Tracked(objectsPlaced, scene);
      var numCactus := (rand(k) * 2.0).Floor + 1;
      var numRareObjects := if rand(k + 1) < RareChance then 1 else 0;
      next := k + 2;
      for i := 0 to numCactus
        invariant Valid()
        invariant (Tracked(objectsPlaced, scene), next) == SpawnTimes(i, SpawnStep(area, heightMap, cactusList, rand), k + 2, t)
      {
        next := SpawnObject(chunkX, chunkZ, cactusList, rand, next);
      }
      ghost var t1, k1 := Tracked(objectsPlaced, scene), next;
      for i := 0 to numRareObjects
        invariant Valid()
        invariant (Tracked(objectsPlaced, scene), next) == SpawnTimes(i, SpawnStep(area, heightMap, rareObjects, rand), k1, t1)
      {
        next := SpawnObject(chunkX, chunkZ, rareObjects, rand, next);
      }
    }

    /** Up to six attempts to place one clone of a template from `objectList` in a free cell of
        the chunk's square, reading draws from `k`; returns the next unused draw. */
    method SpawnObject(chunkX: real, chunkZ: real, objectList: seq<Object3D>, rand: nat -> real, k: nat)
      returns (next: nat)
      requires Valid() && Fair(rand)
      modifies this`objectsPlaced, this`scene
      ensures Valid()
      ensures (Tracked(objectsPlaced, scene), next)
              == SpawnInto(Area(chunkX, chunkZ, chunkSize), heightMap, objectList, rand, k,
                           Tracked(old(objectsPlaced), old(scene)))
    {
      next := k;
      if |objectList| == 0 {
        return;
      }
      var claim;
      claim, next := FindClaim(chunkX, chunkZ, |objectList|, rand, k);
      if claim.Some? {
        var c := claim.value;
        var obj := objectList[c.pick];
        scene := scene + [Placed(obj, c.x, c.y, c.z)];
        objectsPlaced := objectsPlaced + {c.key};
      }
    }

    /** The attempt loop of `spawnObject`: up to six attempts, reading draws from `k`, the first
        accepted one giving the claim; also gives the next unused draw. */
    method FindClaim(chunkX: real, chunkZ: real, count: nat, rand: nat -> real, k: nat)
      returns (claim: Option<Claim>, next: nat)
      requires Fair(rand)
      ensures var out := TrySpawn(Verdicts(Area(chunkX, chunkZ, chunkSize), objectsPlaced, heightMap, count, rand), k, 0);
              claim == out.claim && next == out.next
      ensures claim.Some? ==> IsCellKey(claim.value.key) && (0 < count ==> 0 <= claim.value.pick < count)
    {
      ghost var verdicts := Verdicts(Area(chunkX, chunkZ, chunkSize), objectsPlaced, heightMap, count, rand);
      next := k;
      for attempts := 0 to MaxAttempts
        invariant next == AttemptDraw(k, attempts)
        invariant TrySpawn(verdicts, k, 0) == TrySpawn(verdicts, next, attempts)
      {
        claim := TryAttempt(chunkX, chunkZ, count, rand, next);
        if claim.Some? {
          TrySpawnAccepts(verdicts, next, attempts);
          next := next + 3;
          return;
        }
        TrySpawnRejects(verdicts, next, attempts);
        next := next + 2;
      }
      claim := None;
    }

    /** One attempt of `spawnObject`'s loop, reading draws from `i`: samples a point of the
        chunk's square and tests its cell key and the road; the claim of an accepted attempt. */
    method TryAttempt(chunkX: real, chunkZ: real, count: nat, rand: nat -> real, i: nat)
      returns (claim: Option<Claim>)
      requires Fair(rand)
      ensures claim == Verdicts(Area(chunkX, chunkZ, chunkSize), objectsPlaced, heightMap, count, rand)(i)
      ensures claim.Some? ==> IsCellKey(claim.value.key) && (0 < count ==> 0 <= claim.value.pick < count)
    {
      var x := SampleCoord(chunkX, chunkSize, rand(i));
      var z := SampleCoord(chunkZ, chunkSize, rand(i + 1));
      var key := KeyOf(x, z);
      VerdictAt(Area(chunkX, chunkZ, chunkSize), objectsPlaced, heightMap, count, rand, i, x, z);
      if key in objectsPlaced || key !in heightMap {
        return None;
      }
      var y := heightMap[key];
      var isInRoad := IsInRoad(SpawnerRoad, x, z);
      if isInRoad {
        return None;
      }
      if 0 < count {
        PickInRange(rand(i + 2), count);
      }
      KeyOfNamesCell(x, z);
      claim := Some(Claim(key, x, y, z, PickIndex(rand(i + 2), count)));
    }

    /** Releases every tracked key whose object is found in the group and lies farther from the
        camera than `chunkSize * renderDistance * 1.5`, removing that object from the group. */
    method RemoveObjectsOutOfView(cameraPos: Vec3)
      requires Valid()
      modifies this`objectsPlaced, this`scene
      ensures Valid()
      ensures objectsPlaced
              == old(objectsPlaced) - Stale(old(objectsPlaced), old(scene), cameraPos, MaxDistance(chunkSize, renderDistance))
      ensures scene == Prune(old(scene), Stale(old(objectsPlaced), old(scene), cameraPos, MaxDistance(chunkSize, renderDistance)))
    {
      var maxDistance := MaxDistance(chunkSize, renderDistance);
      ghost var stale := Stale(objectsPlaced, scene, cameraPos, maxDistance);
      var remaining := objectsPlaced;
      PruneNothing(scene);
      assert stale - remaining == {};
      while remaining != {}
        invariant remaining <= old(objectsPlaced)
        invariant objectsPlaced == old(objectsPlaced) - (stale - remaining)
        invariant scene == Prune(old(scene), stale - remaining)
        decreases remaining
      {
        var key :| key in remaining;
        ghost var released := stale - remaining;
        remaining := remaining - {key};
        var cell := ParseKey(key);
        PruneOneMore(old(scene), released, key);
        var obj := FindByName(scene, key);
        if obj.Some? {
          var dist2 := SquaredDistance(cameraPos, Position(scene[obj.value]));
          if Exceeds(dist2, maxDistance) {
            scene := RemoveAt(scene, obj.value);
            objectsPlaced := objectsPlaced - {key};
            assert stale - remaining == released + {key};
          } else {
            assert stale - remaining == released;
          }
        } else {
          assert stale - remaining == released;
        }
      }
      assert stale - remaining == stale;
    }
  }
}
