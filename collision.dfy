/**
 * RK4CollisionDetection.py: two pendulums hung from one origin at +45 and -45 degrees,
 * each advanced by its own `rk4_step`, and a collision colour decided each frame from
 * the distance between the two bobs.
 */
module CollisionDemo {
  import opened RealMath
  import opened Geometry
  import opened Integrators

  const LENGTH: real := 100.0
  const GRAVITY: real := 9.81
  /** (WIDTH // 2, HEIGHT // 4) for an 800 x 600 window; both pendulums use it. */
  const ORIGIN: Vec := Vec(400.0, 150.0)
  const H: real := 0.10
  /** Two bob radii of 10: the bobs touch below this distance. */
  const COLLISION_DISTANCE: real := 20.0

  /** `angularDerivatives_Pendulum`: (omega, -(gravity / length) * sin(theta)). */
  function AngularDerivatives(m: MathLib, theta: real, omega: real): Angular {
    Angular(omega, -(GRAVITY / LENGTH) * m.sin(theta))
  }

  /** The point `x + slope * h / 2` at which `rk4_step` evaluates its second and third derivatives. */
  function HalfStepPoint(x: real, slope: real, h: real): real {
    x + slope * h / 2.0
  }

  /** The point `x + slope * h` at which `rk4_step` evaluates its fourth derivative. */
  function FullStepPoint(x: real, slope: real, h: real): real {
    x + slope * h
  }

  /**
   * `rk4_step`: derivatives at (theta, omega), at the two half-step points reached with
   * k1 and with k2, and at the full-step point reached with k3, combined as x + h/6 * (...).
   */
  function Rk4Step(m: MathLib, theta: real, omega: real, h: real): Angular {
    var k1 := AngularDerivatives(m, theta, omega);
    var k2 := AngularDerivatives(m, HalfStepPoint(theta, k1.theta, h), HalfStepPoint(omega, k1.omega, h));
    var k3 := AngularDerivatives(m, HalfStepPoint(theta, k2.theta, h), HalfStepPoint(omega, k2.omega, h));
    var k4 := AngularDerivatives(m, FullStepPoint(theta, k3.theta, h), FullStepPoint(omega, k3.omega, h));
    Combine(theta, omega, h, Slopes(k1, k2, k3, k4))
  }

  /** The derivatives at a point reached with slopes k over h/2 are the half stage of `rk4_update`. */
  lemma DerivativesAtHalfStep(m: MathLib, theta: real, omega: real, h: real, k: Angular, x: real, w: real)
    requires x == HalfStepPoint(theta, k.theta, h) && w == HalfStepPoint(omega, k.omega, h)
    ensures AngularDerivatives(m, x, w) == Stage(m, GRAVITY, LENGTH, theta, omega, 0.5 * h, k)
  {
    assert x == StagePoint(theta, 0.5 * h, k);
  }

  /** The derivatives at a point reached with slopes k over h are the full stage of `rk4_update`. */
  lemma DerivativesAtFullStep(m: MathLib, theta: real, omega: real, h: real, k: Angular, x: real, w: real)
    requires x == FullStepPoint(theta, k.theta, h) && w == FullStepPoint(omega, k.omega, h)
    ensures AngularDerivatives(m, x, w) == Stage(m, GRAVITY, LENGTH, theta, omega, h, k)
  {
    assert x == StagePoint(theta, h, k);
  }

  /** `rk4_step` is exactly the `rk4_update` of the other scripts, for gravity 9.81 and length 100. */
  lemma Rk4StepIsRk4Update(m: MathLib, theta: real, omega: real, h: real)
    ensures Rk4Step(m, theta, omega, h) == Rk4Update(m, GRAVITY, LENGTH, theta, omega, h)
  {
    var k := Rk4Slopes(m, GRAVITY, LENGTH, theta, omega, h);
    assert AngularDerivatives(m, theta, omega) == k.k1;
    DerivativesAtHalfStep(m, theta, omega, h, k.k1, HalfStepPoint(theta, k.k1.theta, h), HalfStepPoint(omega, k.k1.omega, h));
    DerivativesAtHalfStep(m, theta, omega, h, k.k2, HalfStepPoint(theta, k.k2.theta, h), HalfStepPoint(omega, k.k2.omega, h));
    DerivativesAtFullStep(m, theta, omega, h, k.k3, FullStepPoint(theta, k.k3.theta, h), FullStepPoint(omega, k.k3.omega, h));
  }

  /** A zero step returns the inputs unchanged. */
  lemma Rk4StepZeroStep(m: MathLib, theta: real, omega: real)
    ensures Rk4Step(m, theta, omega, 0.0) == Angular(theta, omega)
  {
    Rk4StepIsRk4Update(m, theta, omega, 0.0);
    Rk4ZeroStep(m, GRAVITY, LENGTH, theta, omega);
  }

  /** Given sin is odd, `rk4_step` maps the mirrored pendulum to the mirror of its result. */
  lemma Rk4StepOdd(m: MathLib, theta: real, omega: real, h: real)
    requires SinIsOdd(m)
    ensures Rk4Step(m, -theta, -omega, h) == Rk4Step(m, theta, omega, h).Negated()
  {
    Rk4StepIsRk4Update(m, theta, omega, h);
    Rk4StepIsRk4Update(m, -theta, -omega, h);
    Rk4Odd(m, GRAVITY, LENGTH, theta, omega, h);
  }

  /** Rk4StepOdd for a second pendulum already known to mirror the first. */
  lemma Rk4StepMirrored(m: MathLib, theta: real, omega: real, theta': real, omega': real, r: Angular, r': Angular)
    requires SinIsOdd(m)
    requires theta' == -theta && omega' == -omega
    requires r == Rk4Step(m, theta, omega, H) && r' == Rk4Step(m, theta', omega', H)
    ensures r' == r.Negated()
  {
    Rk4StepOdd(m, theta, omega, H);
  }

  /** The bob position that `draw_pendulum` computes and returns. */
  function PendulumPosition(m: MathLib, theta: real, origin: Vec): Vec {
    BobPosition(m, origin, LENGTH, theta)
  }

  /** Given sin is odd and cos even, mirrored bobs are level, 2 * length * sin(theta) apart horizontally. */
  lemma MirroredBobs(m: MathLib, theta: real)
    requires SinIsOdd(m) && CosIsEven(m)
    ensures PendulumPosition(m, theta, ORIGIN).y == PendulumPosition(m, -theta, ORIGIN).y
    ensures PendulumPosition(m, theta, ORIGIN).x - PendulumPosition(m, -theta, ORIGIN).x
         == 2.0 * LENGTH * m.sin(theta)
  {
    assert SinOddAt(m, theta);
    assert CosEvenAt(m, theta);
  }

  datatype Color = Red | Blue

  /** RED when the bobs are strictly closer than COLLISION_DISTANCE, BLUE otherwise. */
  function CollisionColor(m: MathLib, p1: Vec, p2: Vec): Color {
    if Distance(m, p1, p2) < COLLISION_DISTANCE then Red else Blue
  }

  /** The test is strict: RED exactly when the squared distance is below 400; at exactly 20 it is BLUE. */
  lemma CollisionIsStrict(m: MathLib, p1: Vec, p2: Vec)
    requires SqrtIsRoot(m)
    ensures CollisionColor(m, p1, p2) == Red <==> SquaredDistance(p1, p2) < 400.0
    ensures SquaredDistance(p1, p2) == 400.0 ==> CollisionColor(m, p1, p2) == Blue
  {
    DistanceBelow(m, p1, p2, COLLISION_DISTANCE);
  }

  /** The colour does not depend on which pendulum is named first. */
  lemma CollisionSymmetric(m: MathLib, p1: Vec, p2: Vec)
    ensures CollisionColor(m, p1, p2) == CollisionColor(m, p2, p1)
  {
    DistanceSymmetric(m, p1, p2);
  }

  /** For the mirrored pair, the bobs collide exactly when |sin(theta)| < 0.1. */
  lemma MirroredCollision(m: MathLib, theta: real)
    requires SinIsOdd(m) && CosIsEven(m) && SqrtIsRoot(m)
    ensures CollisionColor(m, PendulumPosition(m, theta, ORIGIN), PendulumPosition(m, -theta, ORIGIN)) == Red
        <==> Abs(m.sin(theta)) < 0.1
  {
    var p1, p2 := PendulumPosition(m, theta, ORIGIN), PendulumPosition(m, -theta, ORIGIN);
    MirroredBobs(m, theta);
    CollisionIsStrict(m, p1, p2);
    var a := Abs(m.sin(theta));
    assert SquaredDistance(p1, p2) == 40000.0 * (a * a);
    if a < 0.1 {
      SquareBelow(a, 0.1);
    } else {
      SquareAtMost(0.1, a);
    }
  }

  /** The module globals `theta_1`, `omega_1`, `theta_2`, `omega_2`. */
  class TwoPendulums {
    const m: MathLib
    var theta1: real
    var omega1: real
    var theta2: real
    var omega2: real

    /** The second pendulum is the mirror image of the first. */
    ghost predicate Mirrored()
      reads this
    {
      theta2 == -theta1 && omega2 == -omega1
    }

    /** Start at pi/4 and (pi/4) * (-1), both at rest. */
    constructor(m: MathLib)
      ensures this.m == m
      ensures theta1 == m.pi / 4.0 && theta2 == (m.pi / 4.0) * (-1.0) && omega1 == 0.0 && omega2 == 0.0
      ensures Mirrored()
    {
      this.m := m;
      theta1 := m.pi / 4.0;
      theta2 := (m.pi / 4.0) * (-1.0);
      omega1 := 0.0;
      omega2 := 0.0;
    }

    function Bob1(): Vec
      reads this
    {
      PendulumPosition(m, theta1, ORIGIN)
    }

    function Bob2(): Vec
      reads this
    {
      PendulumPosition(m, theta2, ORIGIN)
    }

    /**
     * One frame: both pendulums take an `rk4_step` of H, and the colour is decided from the
     * new bob positions. Given sin is odd, the pair stays mirrored.
     */
    method Tick() returns (color: Color)
      requires SinIsOdd(m)
      requires Mirrored()
      modifies this
      ensures Mirrored()
      ensures Angular(theta1, omega1) == Rk4Step(m, old(theta1), old(omega1), H)
      ensures Angular(theta2, omega2) == Rk4Step(m, old(theta2), old(omega2), H)
      ensures color == CollisionColor(m, Bob1(), Bob2())
    {
      var next1 := Rk4Step(m, theta1, omega1, H);
      var next2 := Rk4Step(m, theta2, omega2, H);
      Rk4StepMirrored(m, theta1, omega1, theta2, omega2, next1, next2);
      theta1, omega1 := next1.theta, next1.omega;
      theta2, omega2 := next2.theta, next2.omega;
      var p1 := PendulumPosition(m, theta1, ORIGIN);
      var p2 := PendulumPosition(m, theta2, ORIGIN);
      if Distance(m, p1, p2) < COLLISION_DISTANCE {
        color := Red;
      } else {
        color := Blue;
      }
    }
  }
}
