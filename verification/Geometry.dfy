/** Points, their coordinates and the linear interpolation the buffers share. */
module Geometry {
  import opened Paths
  import opened SimTypes

  type Point = Vec3<real>

  datatype Axis = X | Y | Z

  function At(p: Point, axis: Axis): real {
    match axis
    case X => p.x
    case Y => p.y
    case Z => p.z
  }

  function LerpVec3(from: Point, to: Point, alpha: real): Point {
    Vec3(Lerp(from.x, to.x, alpha), Lerp(from.y, to.y, alpha), Lerp(from.z, to.z, alpha))
  }

  /** The square of the distance; a distance `d` of the source is compared with a bound `b` as d*d with b*b. */
  function DistanceSquared(p: Point, q: Point): (r: real)
    ensures r >= 0.0 && (p == q ==> r == 0.0)
  {
    Square(p.x - q.x) + Square(p.y - q.y) + Square(p.z - q.z)
  }

  function Square(x: real): (r: real)
    ensures r >= 0.0
  {
    x * x
  }

  /** `sqrt(distanceSquared) > limit`, also for a negative limit. */
  predicate Beyond(distanceSquared: real, limit: real) {
    limit < 0.0 || distanceSquared > Square(limit)
  }

  /** A move along one axis is as far as that coordinate changes, and no move is shorter than along any axis. */
  lemma DistanceByAxes(p: Point, q: Point)
    ensures forall axis :: Square(At(p, axis) - At(q, axis)) <= DistanceSquared(p, q)
    ensures DistanceSquared(p, q) == DistanceSquared(q, p)
    ensures DistanceSquared(p, q)
         == Square(At(p, X) - At(q, X)) + Square(At(p, Y) - At(q, Y)) + Square(At(p, Z) - At(q, Z))
  {
    hide Square;
    SquareEven(p.x - q.x);
    SquareEven(p.y - q.y);
    SquareEven(p.z - q.z);
    assert q.x - p.x == -(p.x - q.x) && q.y - p.y == -(p.y - q.y) && q.z - p.z == -(p.z - q.z);
  }

  lemma SquareEven(x: real)
    ensures Square(-x) == Square(x)
  {
  }

  /** Being beyond a limit is what it says of the distance itself, when that is known. */
  lemma BeyondIs(distance: real, limit: real)
    requires distance >= 0.0
    ensures Beyond(distance * distance, limit) <==> distance > limit
  {
    if limit >= 0.0 {
      SquaresOrdered(limit, distance);
      SquaresOrdered(distance, limit);
    }
  }

  lemma SquaresOrdered(a: real, b: real)
    requires 0.0 <= a && 0.0 <= b
    ensures a < b ==> a * a < b * b
  {
    if a < b {
      assert b * b - a * a == (b - a) * (b + a);
      PositiveProduct(b - a, b + a);
    }
  }

  lemma PositiveProduct(x: real, y: real)
    requires x > 0.0 && y > 0.0
    ensures x * y > 0.0
  {
  }
}
