/**
 * Plane geometry shared by the demos: screen points, the `distance` helper, the bob
 * position of a pendulum hanging from a pivot, the angle a point makes with the
 * downward vertical, and one tick of free-fall projectile motion.
 *
 * Screen coordinates: x grows to the right and y grows downwards, so a bob at angle
 * 0 hangs straight below its pivot.
 */
module Geometry {
  import opened RealMath

  datatype Vec = Vec(x: real, y: real)

  function SquaredDistance(p: Vec, q: Vec): (d: real)
    ensures 0.0 <= d
  {
    SquareAtMost(0.0, Abs(p.x - q.x));
    SquareAtMost(0.0, Abs(p.y - q.y));
    (p.x - q.x) * (p.x - q.x) + (p.y - q.y) * (p.y - q.y)
  }

  /** `distance(point1, point2)`: the Euclidean distance through `math.sqrt`. */
  function Distance(m: MathLib, p: Vec, q: Vec): real {
    m.sqrt(SquaredDistance(p, q))
  }

  /** A distance test against a radius (`<=`) is the same test on squared distances. */
  lemma DistanceAtMost(m: MathLib, p: Vec, q: Vec, r: real)
    requires SqrtIsRoot(m)
    requires 0.0 <= r
    ensures Distance(m, p, q) <= r <==> SquaredDistance(p, q) <= r * r
  {
    SqrtAtMost(m, SquaredDistance(p, q), r);
  }

  /** A strict distance test (`<`) is the same strict test on squared distances. */
  lemma DistanceBelow(m: MathLib, p: Vec, q: Vec, r: real)
    requires SqrtIsRoot(m)
    requires 0.0 <= r
    ensures Distance(m, p, q) < r <==> SquaredDistance(p, q) < r * r
  {
    SqrtBelow(m, SquaredDistance(p, q), r);
  }

  /** Distance does not depend on the order of its arguments. */
  lemma DistanceSymmetric(m: MathLib, p: Vec, q: Vec)
    ensures Distance(m, p, q) == Distance(m, q, p)
  {
    assert SquaredDistance(p, q) == SquaredDistance(q, p);
  }

  /** The bob of a pendulum of the given length hanging from `pivot` at `angle` from the vertical. */
  function BobPosition(m: MathLib, pivot: Vec, length: real, angle: real): Vec {
    Vec(pivot.x + length * m.sin(angle), pivot.y + length * m.cos(angle))
  }

  /** Given sin^2 + cos^2 = 1, the bob lies on the circle of radius `length` about the pivot. */
  lemma BobOnCircle(m: MathLib, pivot: Vec, length: real, angle: real)
    requires Pythagorean(m)
    ensures SquaredDistance(BobPosition(m, pivot, length, angle), pivot) == length * length
  {
    assert PythagoreanAt(m, angle);
    var s, c := m.sin(angle), m.cos(angle);
    var bob := BobPosition(m, pivot, length, angle);
    assert bob.x - pivot.x == length * s;
    assert bob.y - pivot.y == length * c;
    calc {
      SquaredDistance(bob, pivot);
      (length * s) * (length * s) + (length * c) * (length * c);
      length * length * (s * s + c * c);
    }
  }

  /** With sqrt as well, the bob is exactly `length` away from the pivot. */
  lemma BobAtLength(m: MathLib, pivot: Vec, length: real, angle: real)
    requires Pythagorean(m) && SqrtIsRoot(m)
    requires 0.0 <= length
    ensures Distance(m, BobPosition(m, pivot, length, angle), pivot) == length
  {
    BobOnCircle(m, pivot, length, angle);
    SqrtOfSquare(m, length);
  }

  /** `math.atan2(dx, dy)` of the offset of `p` from `pivot`: the angle of `p` from the downward vertical. */
  function AngleFrom(m: MathLib, pivot: Vec, p: Vec): real {
    m.atan2(p.x - pivot.x, p.y - pivot.y)
  }

  /** A point mass in free flight. */
  datatype Projectile = Projectile(pos: Vec, vel: Vec)

  /**
   * One free-fall tick: the vertical velocity gains `gravity * dt` first, then the
   * position advances by the (updated) velocity times `dt`.
   */
  function FallStep(b: Projectile, gravity: real, dt: real): Projectile {
    var vel := b.vel.(y := b.vel.y + gravity * dt);
    Projectile(Vec(b.pos.x + vel.x * dt, b.pos.y + vel.y * dt), vel)
  }

  /**
   * The fall step is semi-implicit: compared with advancing by the old velocity, the
   * drop gains an extra `gravity * dt^2`; the horizontal velocity never changes.
   */
  lemma FallStepUsesUpdatedVelocity(b: Projectile, gravity: real, dt: real)
    ensures FallStep(b, gravity, dt).vel == Vec(b.vel.x, b.vel.y + gravity * dt)
    ensures FallStep(b, gravity, dt).pos.x == b.pos.x + b.vel.x * dt
    ensures FallStep(b, gravity, dt).pos.y == b.pos.y + b.vel.y * dt + gravity * dt * dt
  {
  }
}
