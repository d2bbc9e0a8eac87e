/**
 * Positions on the AR field. Unity's Vector3 holds floats; here the three
 * coordinates are reals, and distances are compared through the squared
 * Euclidean distance, which avoids a square root and agrees exactly with
 * `Vector3.Distance` compared against a threshold (lemma DistanceComparisons).
 */
module Geometry {

  datatype Vec3 = Vec3(x: real, y: real, z: real)

  const Zero := Vec3(0.0, 0.0, 0.0)

  function SqDist(a: Vec3, b: Vec3): real
  {
    (a.x - b.x) * (a.x - b.x) + (a.y - b.y) * (a.y - b.y) + (a.z - b.z) * (a.z - b.z)
  }

  /** `Vector3.Distance(a, b) > d` */
  predicate Farther(a: Vec3, b: Vec3, d: real)
  {
    d < 0.0 || SqDist(a, b) > d * d
  }

  /** `Vector3.Distance(a, b) <= d` */
  predicate WithinOrAt(a: Vec3, b: Vec3, d: real)
  {
    0.0 <= d && SqDist(a, b) <= d * d
  }

  /** `Vector3.Distance(a, b) < d` */
  predicate Closer(a: Vec3, b: Vec3, d: real)
  {
    0.0 < d && SqDist(a, b) < d * d
  }

  /** The point `p` moved to height `y`: the characters steer in the horizontal plane only. */
  function Flatten(p: Vec3, y: real): (r: Vec3)
    ensures r.x == p.x && r.z == p.z && r.y == y
  {
    Vec3(p.x, y, p.z)
  }

  function Abs(v: real): real
  {
    if v < 0.0 then -v else v
  }

  /** `v` lies between `a` and `b`, whichever of the two is larger: `Random.Range` swaps reversed bounds. */
  predicate Between(v: real, a: real, b: real)
  {
    if a <= b then a <= v <= b else b <= v <= a
  }

  lemma PositiveProduct(p: real, q: real)
    requires 0.0 < p && 0.0 < q
    ensures 0.0 < p * q
  {
  }

  /** Squares of nonnegative reals are ordered as the reals themselves. */
  lemma SquareMonotone(r: real, d: real)
    requires 0.0 <= r && 0.0 <= d
    ensures r < d <==> r * r < d * d
    ensures r <= d <==> r * r <= d * d
  {
    assert d * d - r * r == (d - r) * (d + r);
    if r < d {
      PositiveProduct(d - r, d + r);
    } else if r == d {
    } else {
      PositiveProduct(r - d, r + d);
    }
  }

  /**
   * For every nonnegative `r` whose square is the squared distance (that is,
   * the Euclidean distance itself), the three comparisons agree with comparing
   * `r` against the threshold, whatever the sign of the threshold.
   */
  lemma DistanceComparisons(a: Vec3, b: Vec3, d: real, r: real)
    requires 0.0 <= r && r * r == SqDist(a, b)
    ensures Farther(a, b, d) <==> r > d
    ensures WithinOrAt(a, b, d) <==> r <= d
    ensures Closer(a, b, d) <==> r < d
  {
    if 0.0 <= d {
      SquareMonotone(r, d);
    }
  }
}
