/**
 * Distance tests without square roots. The source compares `Math.sqrt(d2)`
 * against radii; here the same tests are stated on the squared distance `d2`,
 * and each is proved to agree with the test on the distance itself.
 */
module Distance {

  /** `lo <= sqrt(d2) <= hi`, both bounds inclusive, for a squared distance `d2 >= 0`. */
  predicate WithinBand(d2: real, lo: real, hi: real)
  {
    (lo <= 0.0 || lo * lo <= d2) && 0.0 <= hi && d2 <= hi * hi
  }

  /** `lo <= sqrt(d2) < hi` for a squared distance `d2 >= 0`. */
  predicate WithinRing(d2: real, lo: real, hi: real)
  {
    (lo <= 0.0 || lo * lo <= d2) && 0.0 < hi && d2 < hi * hi
  }

  /** `sqrt(d2) > limit` for a squared distance `d2 >= 0`. */
  predicate Exceeds(d2: real, limit: real)
  {
    limit < 0.0 || limit * limit < d2
  }

  lemma SquareMonotone(a: real, b: real)
    requires 0.0 <= a <= b
    ensures a * a <= b * b
  {
    assert a * a <= a * b;
    assert a * b <= b * b;
  }

  lemma SquareStrictlyMonotone(a: real, b: real)
    requires 0.0 <= a < b
    ensures a * a < b * b
  {
    ProductIsPositive(b - a, b + a);
    assert (b - a) * (b + a) == b * b - a * a;
  }

  lemma ProductIsPositive(x: real, y: real)
    requires 0.0 < x && 0.0 < y
    ensures 0.0 < x * y
  {
  }

  /** For every distance `d` whose square is `d2`, the band test is `lo <= d <= hi`. */
  lemma WithinBandIsDistanceTest(d2: real, d: real, lo: real, hi: real)
    requires 0.0 <= d && d * d == d2
    ensures WithinBand(d2, lo, hi) <==> lo <= d <= hi
  {
    if 0.0 < lo {
      if lo <= d { SquareMonotone(lo, d); } else { SquareStrictlyMonotone(d, lo); }
    }
    if 0.0 <= hi {
      if d <= hi { SquareMonotone(d, hi); } else { SquareStrictlyMonotone(hi, d); }
    }
  }

  /** For every distance `d` whose square is `d2`, the ring test is `lo <= d < hi`. */
  lemma WithinRingIsDistanceTest(d2: real, d: real, lo: real, hi: real)
    requires 0.0 <= d && d * d == d2
    ensures WithinRing(d2, lo, hi) <==> lo <= d < hi
  {
    if 0.0 < lo {
      if lo <= d { SquareMonotone(lo, d); } else { SquareStrictlyMonotone(d, lo); }
    }
    if 0.0 < hi {
      if d < hi { SquareStrictlyMonotone(d, hi); } else { SquareMonotone(hi, d); }
    }
  }

  /** For every distance `d` whose square is `d2`, the test is `d > limit`. */
  lemma ExceedsIsDistanceTest(d2: real, d: real, limit: real)
    requires 0.0 <= d && d * d == d2
    ensures Exceeds(d2, limit) <==> d > limit
  {
    if 0.0 <= limit {
      if limit < d { SquareStrictlyMonotone(limit, d); } else { SquareMonotone(d, limit); }
    }
  }
}

/**
 * The road: a circular band of width `roadWidth` centred on the circle of
 * radius `roadRadius` around the world origin. Terrain is flattened on it and
 * decorations are kept off it.
 */
module Road {
  import opened Distance

  /** The shared road configuration read by the chunk. */
  datatype RoadParams = RoadParams(roadRadius: real, roadWidth: real)

  function InnerEdge(p: RoadParams): real { p.roadRadius - p.roadWidth / 2.0 }

  function OuterEdge(p: RoadParams): real { p.roadRadius + p.roadWidth / 2.0 }

  /** The `isInRoad` test: the distance of (x, z) from the origin lies in [InnerEdge, OuterEdge]. */
  predicate IsInRoad(p: RoadParams, x: real, z: real)
  {
    WithinBand(x * x + z * z, InnerEdge(p), OuterEdge(p))
  }

  /** The on-road test agrees with the distance test, with both edges inclusive. */
  lemma IsInRoadByDistance(p: RoadParams, x: real, z: real, d: real)
    requires 0.0 <= d && d * d == x * x + z * z
    ensures IsInRoad(p, x, z) <==> InnerEdge(p) <= d <= OuterEdge(p)
  {
    WithinBandIsDistanceTest(x * x + z * z, d, InnerEdge(p), OuterEdge(p));
  }

  /** A road of radius 600 and width 55 covers exactly the distances [572.5, 627.5]:
      the circle of radius 600 and both edges are on it, the origin and the points
      just past the edges are not. */
  lemma RoadOf600By55()
    ensures InnerEdge(RoadParams(600.0, 55.0)) == 572.5 && OuterEdge(RoadParams(600.0, 55.0)) == 627.5
    ensures IsInRoad(RoadParams(600.0, 55.0), 600.0, 0.0)
    ensures IsInRoad(RoadParams(600.0, 55.0), 0.0, 572.5) && IsInRoad(RoadParams(600.0, 55.0), -627.5, 0.0)
    ensures !IsInRoad(RoadParams(600.0, 55.0), 0.0, 0.0)
    ensures !IsInRoad(RoadParams(600.0, 55.0), 572.0, 0.0) && !IsInRoad(RoadParams(600.0, 55.0), 0.0, 628.0)
  {
    var p := RoadParams(600.0, 55.0);
    IsInRoadByDistance(p, 600.0, 0.0, 600.0);
    IsInRoadByDistance(p, 0.0, 572.5, 572.5);
    IsInRoadByDistance(p, -627.5, 0.0, 627.5);
    IsInRoadByDistance(p, 0.0, 0.0, 0.0);
    IsInRoadByDistance(p, 572.0, 0.0, 572.0);
    IsInRoadByDistance(p, 0.0, 628.0, 628.0);
  }
}
