# Desert terrain chunks and object spawner, in Dafny

This project models the two parts of the procedural desert that hold real logic.

**The terrain chunk** (`src/scenes/Chunk.class.ts`, module `Chunks` in `chunk.dfy`):
- the segment count chosen from the level of detail;
- the plane's position buffer, reshaped in place by `applySandWaves`: flat on the road annulus, noise elsewhere;
- `spawnObjects`: up to six slots, each with up to ten attempts, giving whatever the object supplier returns a position 2 to 10 units past the road's outer edge from the chunk position, set relative to the chunk (so its world point is not on that ring; see `Chunks.PlacedWorldRing`);
- `removeChunk`.

**The object spawner** (`src/scenes/desert/ObjectSpawner.class.ts`, module `ObjectSpawning` in `object_spawner.dfy`):
- the global set of occupancy keys `${floor x},${floor z}`;
- `spawnObject`'s three tests: the cell is free, the height map knows it, and the point is off the road;
- `spawnObjectsInChunk`: one or two cacti, and one rare object with chance 0.2;
- `updateHeightMap` and `setObjects`;
- `removeObjectsOutOfView`, which releases keys whose object lies beyond `chunkSize * renderDistance * 1.5`.

Shared pieces:
- `common.dfy`: option values, scene entities, squared distance.
- `road.dfy`: distance tests without square roots, and the road annulus.
- `keys.dfy`: formatting and parsing occupancy keys, with their round trip.

How the model represents the source:
- JavaScript numbers are exact reals, and `Math.floor` is `.Floor`.
- Every comparison of `Math.sqrt(d2)` with a radius is stated on `d2`. A lemma proves it agrees with the test on any `d >= 0` with `d * d == d2`.
- The noise function is a parameter `(real, real) -> real`.
- `Math.random` is a stream of draws `nat -> real` for the spawner; methods take the index of the first unused draw and return the next one.
- For the chunk, each placement attempt is one `Attempt` value. It holds the cosine and sine of the drawn angle, the distance draw, and what the object supplier returned.

Both classes are Dafny classes.
- `Chunk` keeps the position buffer in an `array` that `ApplySandWaves` rewrites in place, and its decorations in a `seq` field.
- `ObjectSpawner` keeps `objectsPlaced` as a `set<string>` field and the scene group's children as a `seq` field.
- Each method is proved equal to a specification function on the old state: `SandWaves`, `SpawnPlan`, `SpawnInto`, `InChunk`, `Stale`/`Prune`.
- The source's properties are proved about those functions.
- The attempt loops keep the source's loop structure. Each one's body is a small method: `Chunk.FillSlot`/`Chunk.TryPlace`, and `ObjectSpawner.FindClaim`/`ObjectSpawner.TryAttempt`.

Where the code and its own comments point different ways, the model follows the code:
- The comments in `spawnObjects` speak of a position "only in the ring around the road" and of a minimum and maximum distance "from the road" (`Chunk.class.ts:79-80`, `:89`). The code draws the position set on each decoration at that distance from the chunk's own position instead (`:92-93`), and never tests the road.
- That position is passed to `obj.position.set` and the object is then added to the chunk (`:101-102`), which itself sits at the chunk position (`:37`). So `Placed` holds the position relative to the chunk, and the decoration's world point is the chunk position plus it. `Chunks.PlacedWorldRing` shows that the world point lies at the drawn distance from twice the chunk position, and `Chunks.WorldRingExample` gives a chunk at (1000, 0) whose decoration's world point is 1629.5 from it rather than 629.5.
- The chunk reads the road from the shared `RoadParams` module it imports (`Chunk.class.ts:5`), while `spawnObject` uses its own constants, 600 and 55 (`ObjectSpawner.class.ts:80-81`).

## Model

| member | source | states |
|---|---|---|
| Scene.SquaredDistance | src/scenes/desert/ObjectSpawner.class.ts:109 | the squared camera-to-object distance is never negative, so its square root exists |
| Distance.WithinBandIsDistanceTest | src/scenes/Chunk.class.ts:61-63 | the squared band test holds exactly when `lo <= d <= hi` for the distance d, both bounds inclusive |
| Distance.WithinRingIsDistanceTest | src/scenes/Chunk.class.ts:79-80 | the squared ring test holds exactly when `lo <= d < hi` for the distance d |
| Distance.ExceedsIsDistanceTest | src/scenes/desert/ObjectSpawner.class.ts:109-110 | the squared test holds exactly when the distance is greater than the limit |
| Road.IsInRoad | src/scenes/Chunk.class.ts:61-63 | the `isInRoad` test of both classes on the squared distance; `IsInRoadByDistance` states what it promises |
| Road.IsInRoadByDistance | src/scenes/Chunk.class.ts:61-63 | a point is on the road exactly when its distance from the origin is in [radius - width/2, radius + width/2] |
| Road.RoadOf600By55 | src/scenes/desert/ObjectSpawner.class.ts:79-83 | radius 600 and width 55 give edges 572.5 and 627.5; distance 600 and both edges are on the road; the origin, 572 and 628 are not |
| OccupancyKeys.Decimal | src/scenes/desert/ObjectSpawner.class.ts:73 | a natural number renders as a non-empty string of digits |
| OccupancyKeys.NumberToString | src/scenes/desert/ObjectSpawner.class.ts:73 | an integer renders as a non-empty string with no comma, starting with '-' exactly when it is negative |
| OccupancyKeys.Split | src/scenes/desert/ObjectSpawner.class.ts:101 | `split` always gives at least one piece |
| OccupancyKeys.FormatKey | src/scenes/desert/ObjectSpawner.class.ts:73 | the template literal `${x},${z}` for integers x and z; `KeyRoundTrip` and `FormatKeyInjective` state what it promises |
| OccupancyKeys.KeyOf | src/scenes/desert/ObjectSpawner.class.ts:73 | the key `${Math.floor(x)},${Math.floor(z)}` of a point; `KeyOfNamesCell` states what it promises |
| OccupancyKeys.ParseNumber | src/scenes/desert/ObjectSpawner.class.ts:101 | `Number` on a piece of a key: empty is 0, an optional '-' and digits is that integer, anything else NaN; `NumberRoundTrip` states what it promises |
| OccupancyKeys.ParseKey | src/scenes/desert/ObjectSpawner.class.ts:101 | `let [x, z] = key.split(",").map(Number)`, None when either is NaN or missing; `KeyRoundTrip` states what it promises |
| OccupancyKeys.DecimalRoundTrip | src/scenes/desert/ObjectSpawner.class.ts:101 | reading a number's digits back gives the number |
| OccupancyKeys.NumberRoundTrip | src/scenes/desert/ObjectSpawner.class.ts:101 | `Number` of a rendered integer is that integer, negative ones included |
| OccupancyKeys.SplitWithoutSeparator | src/scenes/desert/ObjectSpawner.class.ts:101 | a string without the separator splits into itself alone |
| OccupancyKeys.SplitAtSeparator | src/scenes/desert/ObjectSpawner.class.ts:101 | splitting `a + sep + b`, with no separator in a, gives a followed by the pieces of b |
| OccupancyKeys.KeyRoundTrip | src/scenes/desert/ObjectSpawner.class.ts:101 | `key.split(",").map(Number)` of the key built for cell (x, z) at line 73 is exactly (x, z), for every pair of integers |
| OccupancyKeys.FormatKeyInjective | src/scenes/desert/ObjectSpawner.class.ts:73 | two cells have the same key if and only if they are the same cell |
| OccupancyKeys.KeyOfNamesCell | src/scenes/desert/ObjectSpawner.class.ts:73 | the key of a point is a cell key; it parses to (floor x, floor z), and the point lies in that unit cell |
| OccupancyKeys.NegativeKeyExample | src/scenes/desert/ObjectSpawner.class.ts:73 | (-0.5, 2.7) has key "-1,2", which parses back to (-1, 2); (-12.25, -600) has key "-13,-600" |
| Chunks.HalfPow | src/scenes/Chunk.class.ts:25 | `0.5 ** lod` lies in (0, 1] |
| Chunks.Segments | src/scenes/Chunk.class.ts:24-25 | the segment count is never below 8, for every size and level of detail |
| Chunks.SegmentsStep | src/scenes/Chunk.class.ts:25 | one more level of detail never adds segments |
| Chunks.SegmentsNonIncreasing | src/scenes/Chunk.class.ts:25 | a higher level of detail never gives more segments, for every chunk size |
| Chunks.SegmentsAtFullDetail | src/scenes/Chunk.class.ts:24-25 | at level 0, an integral size of at least 8 is exactly the segment count |
| Chunks.PlaneGrid | src/scenes/Chunk.class.ts:26-27 | the plane with n segments per side has (n + 1) * (n + 1) vertices |
| Chunks.SandWaves | src/scenes/Chunk.class.ts:57-68 | shaping keeps the vertex count and every vertex's X and Z, and writes only Y |
| Chunks.TerrainHeight | src/scenes/Chunk.class.ts:65 | `isInRoad ? 0 : noise(0.03 x, 0.03 z) * 4` at the world point (x, z); `SandWavesFlattensRoad` and `SandWavesOffRoad` state what it promises |
| Chunks.SandWavesFlattensRoad | src/scenes/Chunk.class.ts:55-67 | a vertex whose world distance from the origin is on the road, edges included, gets height 0 |
| Chunks.SandWavesOffRoad | src/scenes/Chunk.class.ts:58-65 | every other vertex gets `noise(0.03 x, 0.03 z) * 4` at its world point (local position plus chunk position) |
| Chunks.SandWavesIdempotent | src/scenes/Chunk.class.ts:57-68 | shaping an already shaped buffer changes nothing |
| Chunks.SpawnDistanceInRange | src/scenes/Chunk.class.ts:91 | a draw in [0, 1) gives a spawn distance in [outer edge + 2, outer edge + 10) |
| Chunks.PlaceFrom | src/scenes/Chunk.class.ts:90-96 | the position one attempt sets on the supplied object; `PlacedOnSpawnRing` and `PlacedWithinRing` state what it promises |
| Chunks.PlacedOnSpawnRing | src/scenes/Chunk.class.ts:90-96 | for a fair attempt, the position set on the object is at exactly the sampled distance from the chunk position, with Y the noise height at its X and Z plus 0.5 |
| Chunks.PlacedWithinRing | src/scenes/Chunk.class.ts:79-96 | for a fair attempt, the set position's distance from the chunk position is in [min, max) and its Y is the noise height plus 0.5 |
| Chunks.Slot | src/scenes/Chunk.class.ts:83-107 | the `while (attempts < 10 && !placed)` loop of one slot from a given draw; `SlotBounds` states what it promises |
| Chunks.SpawnPlan | src/scenes/Chunk.class.ts:82-108 | the objects the first n slots place, in order, and the draws they use; `SpawnPlanBounds` and `SpawnedObjectsOnRing` state what it promises |
| Chunks.SlotBounds | src/scenes/Chunk.class.ts:83-107 | a slot makes between one and ten attempts; it places the object of the first attempt the supplier answers, every earlier attempt having got nothing, and stays empty only after all ten attempts got nothing |
| Chunks.SpawnPlanBounds | src/scenes/Chunk.class.ts:82-108 | n slots place at most n objects with between n and 10 n attempts, each object from an attempt that was made |
| Chunks.SpawnPlanOnTerrain | src/scenes/Chunk.class.ts:96-103 | for any draws, the Y set on every planned decoration is the noise height at its set X and Z plus 0.5 |
| Chunks.SpawnedObjectsOnRing | src/scenes/Chunk.class.ts:74-111 | with fair draws, a chunk gets at most 6 decorations from at most 60 supplier calls; the position set on each is on the ring around the chunk position, with Y the noise height there plus 0.5 |
| Chunks.PlacedWorldRing | src/scenes/Chunk.class.ts:92-102 | once the object is added to the chunk, its world point (chunk position plus set position) lies at the drawn distance from twice the chunk position |
| Chunks.WorldRingExample | src/scenes/Chunk.class.ts:91-102 | for a chunk at (1000, 0) on the 600 by 55 road, angle 0 and the shortest distance, the set position is 629.5 from the chunk but the world point is 1629.5 from it |
| Chunks.Chunk.constructor | src/scenes/Chunk.class.ts:14-48 | the segment count follows the level of detail; the buffer is the shaped plane; decorations are the spawn plan exactly when spawning is asked for, else none |
| Chunks.Chunk.ApplySandWaves | src/scenes/Chunk.class.ts:50-72 | the buffer, rewritten in place, becomes `SandWaves` of its old contents |
| Chunks.Chunk.SpawnObjects | src/scenes/Chunk.class.ts:74-111 | the objects and the number of attempts are exactly the six-slot spawn plan |
| Chunks.Chunk.FillSlot | src/scenes/Chunk.class.ts:83-107 | the retry loop of one slot yields exactly that slot's outcome and next draw |
| Chunks.Chunk.TryPlace | src/scenes/Chunk.class.ts:88-106 | one attempt places the supplied object, if any, where `PlaceFrom` puts it, and nothing otherwise |
| Chunks.Chunk.RemoveChunk | src/scenes/Chunk.class.ts:115-137 | the object list ends empty and the chunk stays valid |
| ObjectSpawning.SampleInSquare | src/scenes/desert/ObjectSpawner.class.ts:71-72 | a draw in [0, 1) samples a coordinate in [center - size/2, center + size/2) |
| ObjectSpawning.PickInRange | src/scenes/desert/ObjectSpawner.class.ts:86 | a draw in [0, 1) picks a valid index of a non-empty list |
| ObjectSpawning.SpawnerRoadByDistance | src/scenes/desert/ObjectSpawner.class.ts:79-83 | a sample is on the spawner's road exactly when its distance from the origin is in [572.5, 627.5], both ends inclusive |
| ObjectSpawning.SpawnerRoadExamples | src/scenes/desert/ObjectSpawner.class.ts:73-85 | samples at distance 600 are refused whatever the occupancy; a sample near the origin in a free, known cell is accepted |
| ObjectSpawning.Accepts | src/scenes/desert/ObjectSpawner.class.ts:75-85 | the three tests a sample passes: its key is not placed, the height map has it, and it is off the road; `SpawnerRoadExamples` and `VerdictIsSound` state what they mean |
| ObjectSpawning.Verdict | src/scenes/desert/ObjectSpawner.class.ts:71-86 | one attempt: the claim of its sample when `Accepts` holds, nothing otherwise; `VerdictIsSound` states what it promises |
| ObjectSpawning.TrySpawn | src/scenes/desert/ObjectSpawner.class.ts:69-92 | the attempt loop: the first accepted attempt's claim, or nothing after six; `TrySpawnScans` and `ClaimIsSound` state what it promises |
| ObjectSpawning.TrySpawnScans | src/scenes/desert/ObjectSpawner.class.ts:69-92 | attempts are made in order and at most six; every attempt before the claiming one was rejected; without a claim all six were made and rejected |
| ObjectSpawning.TrySpawnClaim | src/scenes/desert/ObjectSpawner.class.ts:69-92 | a claim is the verdict on the last attempt made |
| ObjectSpawning.VerdictIsSound | src/scenes/desert/ObjectSpawner.class.ts:71-89 | an accepted attempt's key names its cell; the key was free and known; y is the height map's; the point is off the road; with fair draws the pick is in range and the point is in the chunk's square |
| ObjectSpawning.ClaimIsSound | src/scenes/desert/ObjectSpawner.class.ts:69-92 | whatever the attempt loop claims has all the properties of `VerdictIsSound` |
| ObjectSpawning.SpawnInto | src/scenes/desert/ObjectSpawner.class.ts:66-93 | one `spawnObject` call on the tracked keys and group; `SpawnIntoRecordsClaim`, `SpawnIntoDraws` and `SpawnIntoAddsAtMostOne` state what it promises |
| ObjectSpawning.SpawnIntoDraws | src/scenes/desert/ObjectSpawner.class.ts:67-92 | one call reads at most 13 draws; with an empty list it reads none and changes nothing |
| ObjectSpawning.SpawnIntoAddsAtMostOne | src/scenes/desert/ObjectSpawner.class.ts:66-93 | one call either changes nothing or appends one clone of a listed template and its key; the key was free and known, y is the height map's, the point is off the road; nothing is removed |
| ObjectSpawning.SpawnIntoRecordsClaim | src/scenes/desert/ObjectSpawner.class.ts:85-90 | for a non-empty list and draws in [0, 1), a claim from the attempt loop is recorded: its key joins the tracked keys and a clone of the picked template (an index in range) is appended at the claimed point; with no claim the state is unchanged |
| ObjectSpawning.CactusCount | src/scenes/desert/ObjectSpawner.class.ts:54 | one cactus for a draw below 0.5, two otherwise |
| ObjectSpawning.RareCount | src/scenes/desert/ObjectSpawner.class.ts:55 | one rare object exactly when the draw is below 0.2, none otherwise |
| ObjectSpawning.SpawnStepGrows | src/scenes/desert/ObjectSpawner.class.ts:66-93 | each `spawnObject` step adds at most one key and one object and removes nothing |
| ObjectSpawning.SpawnTimesGrows | src/scenes/desert/ObjectSpawner.class.ts:57-63 | n requests add at most n keys, one object per new key, and remove nothing |
| ObjectSpawning.InChunk | src/scenes/desert/ObjectSpawner.class.ts:53-64 | `spawnObjectsInChunk`: the cactus count, the rare count, then that many requests of each list; `InChunkGrows` states what it promises |
| ObjectSpawning.InChunkGrows | src/scenes/desert/ObjectSpawner.class.ts:53-64 | a chunk requests 1 or 2 cacti and at most 1 rare object, so at most three objects and keys are added; nothing tracked is removed |
| ObjectSpawning.FindByName | src/scenes/desert/ObjectSpawner.class.ts:105 | the lookup finds the first child with that name, or reports that no child has it |
| ObjectSpawning.Stale | src/scenes/desert/ObjectSpawner.class.ts:99-115 | the tracked keys whose object is found and farther than the limit; `StaleByDistance` states what it promises |
| ObjectSpawning.Prune | src/scenes/desert/ObjectSpawner.class.ts:105-113 | the group after removing the first child found by each released name; `PruneOneMore` and `PruneRemovesOnePerName` state what it promises |
| ObjectSpawning.StaleByDistance | src/scenes/desert/ObjectSpawner.class.ts:99-115 | a key is released exactly when its object is found and its distance from the camera exceeds the limit; keys whose object is missing or near are kept |
| ObjectSpawning.RemoveAt | src/scenes/desert/ObjectSpawner.class.ts:112 | removing a child leaves one child fewer |
| ObjectSpawning.PruneNothing | src/scenes/desert/ObjectSpawner.class.ts:100-116 | releasing no key leaves the group as it was |
| ObjectSpawning.PruneOneMore | src/scenes/desert/ObjectSpawner.class.ts:100-116 | earlier removals do not change which object a key finds, and removing it then is the same as removing all together; the result does not depend on the order keys are visited |
| ObjectSpawning.PruneRemovesOnePerName | src/scenes/desert/ObjectSpawner.class.ts:105-113 | releasing names that each find a child removes exactly one child per name and keeps every other child |
| ObjectSpawning.ReleaseRemovesOneChildPerKey | src/scenes/desert/ObjectSpawner.class.ts:99-116 | the released keys are tracked keys, and the group loses exactly one child per released key |
| ObjectSpawning.StrayChildReleasesKey | src/scenes/desert/ObjectSpawner.class.ts:100-115 | a group child that is not a clone but is named like a tracked key is found, released and removed, while the clone placed in that cell (KeyOf(3.5, 4.5) is that key) stays |
| ObjectSpawning.ObjectSpawner.constructor | src/scenes/desert/ObjectSpawner.class.ts:14-20 | the spawner starts with an empty height map, no keys, no templates and the given group |
| ObjectSpawning.ObjectSpawner.UpdateHeightMap | src/scenes/desert/ObjectSpawner.class.ts:44-46 | the height map is replaced and nothing else changes |
| ObjectSpawning.ObjectSpawner.SetObjects | src/scenes/desert/ObjectSpawner.class.ts:48-51 | both template lists are replaced and nothing else changes |
| ObjectSpawning.ObjectSpawner.SpawnObjectsInChunk | src/scenes/desert/ObjectSpawner.class.ts:53-64 | keys and group become exactly `InChunk` of the old ones; every key stays a cell key |
| ObjectSpawning.ObjectSpawner.SpawnObject | src/scenes/desert/ObjectSpawner.class.ts:66-93 | keys and group become exactly `SpawnInto` of the old ones; every key stays a cell key |
| ObjectSpawning.ObjectSpawner.FindClaim | src/scenes/desert/ObjectSpawner.class.ts:69-92 | the attempt loop's claim and next draw are exactly `TrySpawn`'s; a claimed key is a cell key and its pick is in range |
| ObjectSpawning.ObjectSpawner.TryAttempt | src/scenes/desert/ObjectSpawner.class.ts:71-86 | one attempt's result is exactly its verdict; a claimed key is a cell key and its pick is in range |
| ObjectSpawning.ObjectSpawner.RemoveObjectsOutOfView | src/scenes/desert/ObjectSpawner.class.ts:96-117 | exactly the stale keys are deleted, and exactly one child per stale key is removed from the group |

## Left out

- Floating point: numbers are exact reals. The rounding of `PlaneGeometry`'s vertex positions and of `rotateX(-Math.PI / 2)` is not modelled; the grid is the exact rotated plane.
- `Math.random`, `Math.cos` and `Math.sin` are inputs. The chunk's angle enters as its cosine and sine, assumed to form a unit direction. The spawner's draws are a stream assumed to lie in [0, 1).
- The noise function (`simplex-noise`) is an uninterpreted parameter; nothing is assumed of its values.
- `computeVertexNormals`, `needsUpdate`, the materials and textures, and every GPU `dispose()` call (`disposeObject`, the disposals in `removeChunk`) are rendering side effects and are not modelled. Disposal is modelled only as removal from the lists and sets.
- Scene-graph parenthood (`this.add(obj)`, `sceneGroup.add`, `sceneGroup.remove`) is modelled as sequences of placed objects. A clone is a value equal to its template, with a position. `Placed` holds the position set on the object, which is relative to its parent: for a chunk's decorations the world point is the chunk position plus it (see `Chunks.PlacedWorldRing`); world transforms are not modelled otherwise.
- `getObjectByName` is modelled as a search of the group's direct children by name. The real search also visits the group itself and nested descendants, which are not modelled.
- A clone keeps its template's name, so a lookup by occupancy key finds one of the spawner's clones only if some template carries that key as its name. It may instead find any other child of the group that carries the key as its name, release the key and remove that child, while the clone placed in the cell stays (`ObjectSpawning.StrayChildReleasesKey`). The model keeps this behaviour as written.
- `spawnRandomObject` (`Chunk.class.ts:99`) is not defined in the spawner shown. It is modelled as the supplier's answer carried in each attempt, which may be nothing.
- The chunk reads the road radius and width from the `RoadParams` module (`Chunk.class.ts:5`), which is not part of this model; they are a parameter of the chunk.
- The camera is not modelled: `removeObjectsOutOfView` takes the camera's world position as a parameter.
- `console.log` output and the unused `chunkKey` are not modelled.
- The `let [x, z] = key.split(",").map(Number)` result in `removeObjectsOutOfView` is computed and unused, as in the source.
- The order in which `for ... of` visits a `Set` is not modelled: the method picks keys in any order, and `PruneOneMore` shows the result is the same for every order.
- OccupancyKeys.NumberToString: renders integers only, without exponent notation (integers of magnitude 10^21 and above). Keys only ever hold floors of finite numbers.
- OccupancyKeys.ParseNumber: covers the strings that can appear in a key (optional minus sign, digits, the empty string). Whitespace, `+`, decimals, hex and exponents are read as NaN (None) rather than parsed.
- The level of detail is a natural number; negative or fractional levels are not modelled.
- ObjectSpawning.SpawnInto: ignores a claim whose template index is out of range. `ClaimIsSound` proves that never happens for draws in [0, 1), so this guard only fills in the case of draws outside [0, 1).
- The chunk-streaming manager that decides which chunks exist is not part of this model.
