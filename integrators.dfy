/**
 * The angular integrators of the pendulum scripts: `pendulum_acceleration`,
 * `euler_update` and `rk4_update`. GPTEulerRK4.py defines all three; GPTFreefall.py and
 * GPTDragDetection.py define `pendulum_acceleration` and `rk4_update` with the same
 * bodies and constants. The gravity and the string length are parameters here so that the
 * other demos (RK4CollisionDetection.py, PendulumClass.py) can be compared with them.
 *
 * The equation of motion is  theta' = omega,  omega' = -(g / L) * sin(theta).
 */
module Integrators {
  import opened RealMath

  /** An angular state (theta, omega), or an angular slope pair (theta', omega'). */
  datatype Angular = Angular(theta: real, omega: real) {
    function Negated(): Angular {
      Angular(-theta, -omega)
    }
  }

  /** The four stage slopes of a Runge-Kutta step. */
  datatype Slopes = Slopes(k1: Angular, k2: Angular, k3: Angular, k4: Angular) {
    function Negated(): Slopes {
      Slopes(k1.Negated(), k2.Negated(), k3.Negated(), k4.Negated())
    }
  }

  /** `pendulum_acceleration(theta)`: the angular acceleration -g / L * sin(theta). */
  function PendulumAcceleration(m: MathLib, gravity: real, length: real, theta: real): real
    requires length != 0.0
  {
    -gravity / length * m.sin(theta)
  }

  /** `euler_update`: explicit Euler; the angle advances with the pre-update velocity. */
  function EulerUpdate(m: MathLib, gravity: real, length: real, theta: real, omega: real, dt: real): Angular
    requires length != 0.0
  {
    var alpha := PendulumAcceleration(m, gravity, length, theta);
    Angular(theta + omega * dt, omega + alpha * dt)
  }

  /** The angle `theta + h * k_theta` at which a stage following slopes `k` evaluates the acceleration. */
  function StagePoint(theta: real, h: real, k: Angular): real {
    theta + h * k.theta
  }

  /**
   * A later stage of `rk4_update`, from the previous stage's slopes `k`:
   * k_theta = omega + h * k.omega and k_omega = the acceleration at StagePoint(theta, h, k),
   * with h = dt/2 for stages 2 and 3 and h = dt for stage 4.
   */
  function Stage(m: MathLib, gravity: real, length: real, theta: real, omega: real, h: real, k: Angular): Angular
    requires length != 0.0
  {
    Angular(omega + h * k.omega, PendulumAcceleration(m, gravity, length, StagePoint(theta, h, k)))
  }

  /** The stage slopes of `rk4_update`: every stage re-evaluates the acceleration at its own angle. */
  function Rk4Slopes(m: MathLib, gravity: real, length: real, theta: real, omega: real, dt: real): Slopes
    requires length != 0.0
  {
    var k1 := Angular(omega, PendulumAcceleration(m, gravity, length, theta));
    var k2 := Stage(m, gravity, length, theta, omega, 0.5 * dt, k1);
    var k3 := Stage(m, gravity, length, theta, omega, 0.5 * dt, k2);
    var k4 := Stage(m, gravity, length, theta, omega, dt, k3);
    Slopes(k1, k2, k3, k4)
  }

  /** The Simpson-weighted slope sum k1 + 2 k2 + 2 k3 + k4, for theta and for omega. */
  function WeightedSum(k: Slopes): Angular {
    Angular(
      k.k1.theta + 2.0 * k.k2.theta + 2.0 * k.k3.theta + k.k4.theta,
      k.k1.omega + 2.0 * k.k2.omega + 2.0 * k.k3.omega + k.k4.omega)
  }

  /** The Simpson combination x + dt/6 * (k1 + 2 k2 + 2 k3 + k4), for theta and for omega. */
  function Combine(theta: real, omega: real, dt: real, k: Slopes): Angular {
    Angular(theta + dt / 6.0 * WeightedSum(k).theta, omega + dt / 6.0 * WeightedSum(k).omega)
  }

  /** `rk4_update`: classical fourth-order Runge-Kutta. */
  function Rk4Update(m: MathLib, gravity: real, length: real, theta: real, omega: real, dt: real): Angular
    requires length != 0.0
  {
    Combine(theta, omega, dt, Rk4Slopes(m, gravity, length, theta, omega, dt))
  }

  // ---------------------------------------------------------------------------
  // Arithmetic helpers

  /** a * y = -(a * x) when y = -x */
  lemma MulNegated(a: real, x: real, y: real)
    requires y == -x
    ensures a * y == -(a * x)
  {
  }

  /** If -b <= x <= b then -a*b <= a*x <= a*b, for a >= 0. */
  lemma ScaleWithin(a: real, x: real, b: real)
    requires 0.0 <= a
    requires -b <= x <= b
    ensures -(a * b) <= a * x <= a * b
  {
    assert a * b - a * x == a * (b - x);
    assert a * x + a * b == a * (x + b);
  }

  // ---------------------------------------------------------------------------
  // The acceleration

  /** Given sin is odd, the acceleration at the mirrored angle is the negated acceleration. */
  lemma AccelerationOdd(m: MathLib, gravity: real, length: real, x: real, y: real)
    requires SinIsOdd(m)
    requires length != 0.0
    requires y == -x
    ensures PendulumAcceleration(m, gravity, length, y) == -PendulumAcceleration(m, gravity, length, x)
  {
    assert SinOddAt(m, x);
  }

  /** Given -1 <= sin <= 1, the acceleration never exceeds g / L in magnitude. */
  lemma AccelerationBounded(m: MathLib, gravity: real, length: real, x: real)
    requires SinIsBounded(m)
    requires 0.0 < length && 0.0 <= gravity
    ensures Abs(PendulumAcceleration(m, gravity, length, x)) <= gravity / length
  {
    assert SinBoundedAt(m, x);
    var c := gravity / length;
    assert -gravity / length == -c;
    ScaleWithin(c, m.sin(x), 1.0);
  }

  // ---------------------------------------------------------------------------
  // Euler

  /** A zero step leaves the state unchanged. */
  lemma EulerZeroStep(m: MathLib, gravity: real, length: real, theta: real, omega: real)
    requires length != 0.0
    ensures EulerUpdate(m, gravity, length, theta, omega, 0.0) == Angular(theta, omega)
  {
  }

  /** Given sin(0) = 0, the rest state (0, 0) is a fixed point of Euler. */
  lemma EulerRestIsFixed(m: MathLib, gravity: real, length: real, dt: real)
    requires SinOfZero(m)
    requires length != 0.0
    ensures EulerUpdate(m, gravity, length, 0.0, 0.0, dt) == Angular(0.0, 0.0)
  {
  }

  /** Given sin is odd, Euler maps the mirrored state to the mirrored result. */
  lemma EulerOdd(m: MathLib, gravity: real, length: real, theta: real, omega: real, dt: real)
    requires SinIsOdd(m)
    requires length != 0.0
    ensures EulerUpdate(m, gravity, length, -theta, -omega, dt)
         == EulerUpdate(m, gravity, length, theta, omega, dt).Negated()
  {
    AccelerationOdd(m, gravity, length, theta, -theta);
  }

  /** Given -1 <= sin <= 1, one Euler step changes the angular velocity by at most dt * g / L. */
  lemma EulerVelocityChangeBounded(m: MathLib, gravity: real, length: real, theta: real, omega: real, dt: real)
    requires SinIsBounded(m)
    requires 0.0 < length && 0.0 <= gravity && 0.0 <= dt
    ensures Abs(EulerUpdate(m, gravity, length, theta, omega, dt).omega - omega) <= dt * (gravity / length)
  {
    var a := PendulumAcceleration(m, gravity, length, theta);
    AccelerationBounded(m, gravity, length, theta);
    ScaleWithin(dt, a, gravity / length);
    assert a * dt == dt * a;
  }

  // ---------------------------------------------------------------------------
  // The Simpson combination

  /** A zero step leaves the state unchanged, whatever the slopes. */
  lemma CombineZeroStep(theta: real, omega: real, k: Slopes)
    ensures Combine(theta, omega, 0.0, k) == Angular(theta, omega)
  {
  }

  /** Negating the state and every slope negates the combined result. */
  lemma CombineNegated(theta: real, omega: real, dt: real, k: Slopes)
    ensures Combine(-theta, -omega, dt, k.Negated()) == Combine(theta, omega, dt, k).Negated()
  {
    var sum, negSum := WeightedSum(k), WeightedSum(k.Negated());
    assert negSum == sum.Negated();
    MulNegated(dt / 6.0, sum.theta, negSum.theta);
    MulNegated(dt / 6.0, sum.omega, negSum.omega);
  }

  /** Every omega slope within [-c, c] puts the weighted omega sum within [-6c, 6c]. */
  lemma WeightedSumOmegaBounded(k: Slopes, c: real)
    requires -c <= k.k1.omega <= c && -c <= k.k2.omega <= c
    requires -c <= k.k3.omega <= c && -c <= k.k4.omega <= c
    ensures -(6.0 * c) <= WeightedSum(k).omega <= 6.0 * c
  {
  }

  /** If every omega slope lies within [-c, c] and dt >= 0, the velocity moves by at most dt * c. */
  lemma CombineVelocityBounded(theta: real, omega: real, dt: real, k: Slopes, c: real)
    requires 0.0 <= dt
    requires -c <= k.k1.omega <= c && -c <= k.k2.omega <= c
    requires -c <= k.k3.omega <= c && -c <= k.k4.omega <= c
    ensures Abs(Combine(theta, omega, dt, k).omega - omega) <= dt * c
  {
    var sum := WeightedSum(k).omega;
    WeightedSumOmegaBounded(k, c);
    ScaleWithin(dt / 6.0, sum, 6.0 * c);
    assert dt / 6.0 * (6.0 * c) == dt * c;
  }

  // ---------------------------------------------------------------------------
  // RK4

  /** Given sin(0) = 0, a stage started from the rest state with zero slopes has zero slopes. */
  lemma StageAtRest(m: MathLib, gravity: real, length: real, h: real, k: Angular)
    requires SinOfZero(m)
    requires length != 0.0
    requires k == Angular(0.0, 0.0)
    ensures Stage(m, gravity, length, 0.0, 0.0, h, k) == Angular(0.0, 0.0)
  {
    assert StagePoint(0.0, h, k) == 0.0;
  }

  /** Given sin is odd, a stage of the mirrored state from mirrored slopes yields mirrored slopes. */
  lemma StageOdd(m: MathLib, gravity: real, length: real, theta: real, omega: real, h: real, k: Angular,
                 theta': real, omega': real, k': Angular)
    requires SinIsOdd(m)
    requires length != 0.0
    requires theta' == -theta && omega' == -omega && k' == k.Negated()
    ensures Stage(m, gravity, length, theta', omega', h, k') == Stage(m, gravity, length, theta, omega, h, k).Negated()
  {
    MulNegated(h, k.theta, k'.theta);
    MulNegated(h, k.omega, k'.omega);
    AccelerationOdd(m, gravity, length, StagePoint(theta, h, k), StagePoint(theta', h, k'));
  }

  /** Given -1 <= sin <= 1, the omega slope of every stage is at most g / L in magnitude. */
  lemma StageOmegaBounded(m: MathLib, gravity: real, length: real, theta: real, omega: real, h: real, k: Angular)
    requires SinIsBounded(m)
    requires 0.0 < length && 0.0 <= gravity
    ensures Abs(Stage(m, gravity, length, theta, omega, h, k).omega) <= gravity / length
  {
    AccelerationBounded(m, gravity, length, StagePoint(theta, h, k));
  }

  /** A zero step leaves the state unchanged. */
  lemma Rk4ZeroStep(m: MathLib, gravity: real, length: real, theta: real, omega: real)
    requires length != 0.0
    ensures Rk4Update(m, gravity, length, theta, omega, 0.0) == Angular(theta, omega)
  {
    CombineZeroStep(theta, omega, Rk4Slopes(m, gravity, length, theta, omega, 0.0));
  }

  /** Given sin(0) = 0, the rest state (0, 0) is a fixed point of RK4. */
  lemma Rk4RestIsFixed(m: MathLib, gravity: real, length: real, dt: real)
    requires SinOfZero(m)
    requires length != 0.0
    ensures Rk4Update(m, gravity, length, 0.0, 0.0, dt) == Angular(0.0, 0.0)
  {
    var k := Rk4Slopes(m, gravity, length, 0.0, 0.0, dt);
    StageAtRest(m, gravity, length, 0.5 * dt, k.k1);
    StageAtRest(m, gravity, length, 0.5 * dt, k.k2);
    StageAtRest(m, gravity, length, dt, k.k3);
  }

  /** Given sin is odd, RK4 maps the mirrored state to the mirrored result. */
  lemma Rk4Odd(m: MathLib, gravity: real, length: real, theta: real, omega: real, dt: real)
    requires SinIsOdd(m)
    requires length != 0.0
    ensures Rk4Update(m, gravity, length, -theta, -omega, dt)
         == Rk4Update(m, gravity, length, theta, omega, dt).Negated()
  {
    var k := Rk4Slopes(m, gravity, length, theta, omega, dt);
    AccelerationOdd(m, gravity, length, theta, -theta);
    StageOdd(m, gravity, length, theta, omega, 0.5 * dt, k.k1, -theta, -omega, k.k1.Negated());
    StageOdd(m, gravity, length, theta, omega, 0.5 * dt, k.k2, -theta, -omega, k.k2.Negated());
    StageOdd(m, gravity, length, theta, omega, dt, k.k3, -theta, -omega, k.k3.Negated());
    assert Rk4Slopes(m, gravity, length, -theta, -omega, dt) == k.Negated();
    CombineNegated(theta, omega, dt, k);
  }

  /** Given -1 <= sin <= 1, every omega slope of RK4 is an acceleration and so within [-g/L, g/L]. */
  lemma Rk4SlopesOmegaBounded(m: MathLib, gravity: real, length: real, theta: real, omega: real, dt: real, k: Slopes, c: real)
    requires SinIsBounded(m)
    requires 0.0 < length && 0.0 <= gravity && c == gravity / length
    requires k == Rk4Slopes(m, gravity, length, theta, omega, dt)
    ensures -c <= k.k1.omega <= c && -c <= k.k2.omega <= c
    ensures -c <= k.k3.omega <= c && -c <= k.k4.omega <= c
  {
    AccelerationBounded(m, gravity, length, theta);
    StageOmegaBounded(m, gravity, length, theta, omega, 0.5 * dt, k.k1);
    StageOmegaBounded(m, gravity, length, theta, omega, 0.5 * dt, k.k2);
    StageOmegaBounded(m, gravity, length, theta, omega, dt, k.k3);
  }

  /**
   * Given -1 <= sin <= 1, one RK4 step changes the angular velocity by at most dt * g / L,
   * because every omega slope is an acceleration evaluated from sin.
   */
  lemma Rk4VelocityChangeBounded(m: MathLib, gravity: real, length: real, theta: real, omega: real, dt: real)
    requires SinIsBounded(m)
    requires 0.0 < length && 0.0 <= gravity && 0.0 <= dt
    ensures Abs(Rk4Update(m, gravity, length, theta, omega, dt).omega - omega) <= dt * (gravity / length)
  {
    var k := Rk4Slopes(m, gravity, length, theta, omega, dt);
    Rk4SlopesOmegaBounded(m, gravity, length, theta, omega, dt, k, gravity / length);
    CombineVelocityBounded(theta, omega, dt, k, gravity / length);
  }
}
