/**
 * Shared vocabulary of the spawner and the tank AI: optional values, 3-D
 * points, distance comparisons and the draws of the random source.
 *
 * Distances are never computed: `Vector3.Distance(a, b) < d` is decided on
 * the squared distance, which is exact over the reals (see
 * `DistanceEncoding`).
 */
module Common {

  datatype Option<+T> = None | Some(value: T)

  datatype Vec3 = Vec3(x: real, y: real, z: real)

  /** `Vector3.zero`, also used by the spawner as its "not found" sentinel. */
  const Zero: Vec3 := Vec3(0.0, 0.0, 0.0)

  function Plus(a: Vec3, b: Vec3): Vec3
  {
    Vec3(a.x + b.x, a.y + b.y, a.z + b.z)
  }

  /** The square of `Vector3.Distance(a, b)`. */
  function SqDist(a: Vec3, b: Vec3): (s: real)
    ensures s >= 0.0
  {
    var dx, dy, dz := a.x - b.x, a.y - b.y, a.z - b.z;
    dx * dx + dy * dy + dz * dz
  }

  /**
   * Unity's `Vector3 ==` is approximate: two points compare equal when their
   * squared distance is below 1e-10 (they are within 1e-5 of each other).
   */
  const EqualityTolerance: real := 0.0000000001

  predicate ApproxEqual(a: Vec3, b: Vec3)
  {
    SqDist(a, b) < EqualityTolerance
  }

  /** The square of the distance between the horizontal projections (x, z). */
  function SqHorizontalDist(a: Vec3, b: Vec3): (s: real)
    ensures 0.0 <= s <= SqDist(a, b)
  {
    var dx, dz := a.x - b.x, a.z - b.z;
    dx * dx + dz * dz
  }

  /** The distance whose square is `s` is strictly below `d`. */
  predicate SqrtBelow(s: real, d: real)
  {
    d > 0.0 && s < d * d
  }

  /** The distance whose square is `s` is at most `d`. */
  predicate SqrtAtMost(s: real, d: real)
  {
    d >= 0.0 && s <= d * d
  }

  /** `Vector3.Distance(a, b) < d` */
  predicate DistanceBelow(a: Vec3, b: Vec3, d: real)
  {
    SqrtBelow(SqDist(a, b), d)
  }

  /** `Vector3.Distance(a, b) <= d` */
  predicate DistanceAtMost(a: Vec3, b: Vec3, d: real)
  {
    SqrtAtMost(SqDist(a, b), d)
  }

  /**
   * The squared-distance predicates decide exactly the comparisons of the
   * true (non-negative) distance `r` with `d`.
   */
  lemma DistanceEncoding(s: real, r: real, d: real)
    requires r >= 0.0 && r * r == s
    ensures SqrtBelow(s, d) <==> r < d
    ensures SqrtAtMost(s, d) <==> r <= d
  {
    if r < d {
      SquareStrictlyMonotone(r, d);
    } else if d >= 0.0 {
      SquareMonotone(d, r);
      if d < r {
        SquareStrictlyMonotone(d, r);
      }
    }
    if r <= d {
      SquareMonotone(r, d);
    }
  }

  lemma SquareMonotone(a: real, b: real)
    requires 0.0 <= a <= b
    ensures a * a <= b * b
  {
    if a < b {
      SquareStrictlyMonotone(a, b);
    }
  }

  lemma SquareStrictlyMonotone(a: real, b: real)
    requires 0.0 <= a < b
    ensures a * a < b * b
  {
    PositiveProduct(b - a, b + a);
    assert (b - a) * (b + a) == b * b - a * a;
  }

  lemma PositiveProduct(x: real, y: real)
    requires x > 0.0 && y > 0.0
    ensures x * y > 0.0
  {
  }

  /**
   * Comparing two distances from the same point by their squares gives the
   * same answer as comparing the distances.
   */
  lemma SquaresOrderDistances(s1: real, r1: real, s2: real, r2: real)
    requires r1 >= 0.0 && r1 * r1 == s1
    requires r2 >= 0.0 && r2 * r2 == s2
    ensures s1 < s2 <==> r1 < r2
  {
    if r1 < r2 {
      SquareStrictlyMonotone(r1, r2);
    } else {
      SquareMonotone(r2, r1);
    }
  }

  /**
   * `Random.Range(lo, hi)` on floats: the draw `t` in [0, 1] picks the value,
   * which lies between the bounds, both included, whichever is larger.
   */
  function Range(lo: real, hi: real, t: real): (r: real)
    requires 0.0 <= t <= 1.0
    ensures lo <= hi ==> lo <= r <= hi
    ensures hi <= lo ==> hi <= r <= lo
    ensures t == 0.0 ==> r == lo
    ensures t == 1.0 ==> r == hi
  {
    Interpolates(lo, hi, t);
    Lerp(lo, hi, t)
  }

  /** The point at fraction `t` of the way from `lo` to `hi`. */
  function Lerp(lo: real, hi: real, t: real): real
  {
    lo + t * (hi - lo)
  }

  /** For `t` in [0, 1] the interpolated point lies between the two ends. */
  lemma Interpolates(lo: real, hi: real, t: real)
    requires 0.0 <= t <= 1.0
    ensures lo <= hi ==> lo <= Lerp(lo, hi, t) <= hi
    ensures hi <= lo ==> hi <= Lerp(lo, hi, t) <= lo
  {
    var w := hi - lo;
    var width := if lo <= hi then w else -w;
    NonnegativeProduct(t, width);
    NonnegativeProduct(1.0 - t, width);
    assert (1.0 - t) * w == w - t * w;
    assert t * -w == -(t * w);
    assert (1.0 - t) * -w == -((1.0 - t) * w);
  }

  lemma NonnegativeProduct(x: real, y: real)
    requires x >= 0.0 && y >= 0.0
    ensures x * y >= 0.0
  {
    if x > 0.0 && y > 0.0 {
      PositiveProduct(x, y);
    }
  }

  predicate Unit(t: real)
  {
    0.0 <= t <= 1.0
  }

  /**
   * A downward raycast of the physics engine: from `origin`, straight down,
   * at most `maxDistance` long; the height of the hit point, if any. Which
   * layers it sees is fixed by the caller that supplies it.
   */
  type DownRay = (Vec3, real) -> Option<real>
}
