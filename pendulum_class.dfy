/**
 * PendulumClass.py: a `PendulumObject` whose methods update its own fields in place:
 * setters, `eulerUpdate`, `RK4_UPDATE` and `is_slack`.
 *
 * `RK4_UPDATE` is modelled exactly as written. Its stages 2 to 4 store in the "omega"
 * slot the angle `computeRK4Step(k_theta)` = theta + dt/2 * k_theta (never an
 * acceleration), and its fourth stage steps by dt/2 instead of dt. So it is not the
 * Runge-Kutta scheme of `Integrators.Rk4Update`; the lemmas below say exactly how the two differ.
 */
module PendulumClass {
  import opened RealMath
  import opened Integrators

  /** A snapshot of every field of a PendulumObject. */
  datatype Fields = Fields(
    massKg: real,
    length: real,
    radius: real,
    theta: real,
    omega: real,
    slack: bool,
    acceleration: real,
    originX: real,
    originY: real,
    gravity: real,
    dt: real,
    dragged: bool)

  /** The state the constructor evidently means to build: the arguments, then the fixed defaults. */
  function InitialFields(massKg: real, length: real, radius: real, theta: real, omega: real, slack: bool): Fields {
    Fields(massKg, length, radius, theta, omega, slack, 0.0, 0.0, 0.0, 9.8, 0.05, false)
  }

  // ---------------------------------------------------------------------------
  // Construction as written

  /** The Python values met by the first line of the constructor. */
  datatype PyValue = NoneValue | Callable(result: Fields)

  /** The outcome of constructing a PendulumObject. */
  datatype Construction = Built(fields: Fields) | Raised(error: string)

  /** `Object.__init__` stores the mass and, like every `__init__`, returns None. */
  function ObjectInit(massKg: real): PyValue {
    NoneValue
  }

  /** Calling a Python value: calling None raises TypeError. */
  function Call(v: PyValue): Construction {
    match v
    case NoneValue => Raised("TypeError")
    case Callable(f) => Built(f)
  }

  /**
   * `PendulumObject.__init__` as written: `super().__init__(mass_input)()` calls the None
   * returned by `Object.__init__`, after that has stored `mass_kg` and before any
   * `PendulumObject` field is set.
   */
  function ConstructAsWritten(massKg: real, length: real, radius: real, theta: real, omega: real, slack: bool): Construction {
    match Call(ObjectInit(massKg))
    case Raised(e) => Raised(e)
    case Built(_) => Built(InitialFields(massKg, length, radius, theta, omega, slack))
  }

  /** Whatever the arguments, construction as written raises TypeError and no object is built. */
  lemma ConstructionAsWrittenRaises(massKg: real, length: real, radius: real, theta: real, omega: real, slack: bool)
    ensures ConstructAsWritten(massKg, length, radius, theta, omega, slack) == Raised("TypeError")
    ensures !ConstructAsWritten(massKg, length, radius, theta, omega, slack).Built?
  {
  }

  // ---------------------------------------------------------------------------
  // RK4_UPDATE as written

  /**
   * A later stage of RK4_UPDATE: k_theta = omega + dt/2 * k.omega, and the "omega" slope is
   * `computeRK4Step(k.theta)`, the angle StagePoint(theta, dt/2, k).
   */
  function AsWrittenStage(theta: real, omega: real, dt: real, k: Angular): Angular {
    Angular(omega + 0.5 * dt * k.omega, StagePoint(theta, 0.5 * dt, k))
  }

  /** The four stage slopes RK4_UPDATE computes; all later stages step by dt/2. */
  function AsWrittenSlopes(m: MathLib, gravity: real, length: real, theta: real, omega: real, dt: real): Slopes
    requires length != 0.0
  {
    var k1 := Angular(omega, PendulumAcceleration(m, gravity, length, theta));
    var k2 := AsWrittenStage(theta, omega, dt, k1);
    var k3 := AsWrittenStage(theta, omega, dt, k2);
    var k4 := AsWrittenStage(theta, omega, dt, k3);
    Slopes(k1, k2, k3, k4)
  }

  /** The (theta, omega) that RK4_UPDATE stores: the Simpson combination of the as-written slopes. */
  function Rk4AsWritten(m: MathLib, gravity: real, length: real, theta: real, omega: real, dt: real): Angular
    requires length != 0.0
  {
    Combine(theta, omega, dt, AsWrittenSlopes(m, gravity, length, theta, omega, dt))
  }

  /**
   * Against the Runge-Kutta stage of the scripts: where the canonical stage stores the
   * acceleration at an angle, the as-written stage stores the angle itself.
   */
  lemma AsWrittenStageStoresAngle(m: MathLib, gravity: real, length: real, theta: real, omega: real, dt: real, k: Angular)
    requires length != 0.0
    ensures Stage(m, gravity, length, theta, omega, 0.5 * dt, k).theta == AsWrittenStage(theta, omega, dt, k).theta
    ensures Stage(m, gravity, length, theta, omega, 0.5 * dt, k).omega
         == PendulumAcceleration(m, gravity, length, AsWrittenStage(theta, omega, dt, k).omega)
  {
  }

  /**
   * The fourth as-written stage steps by dt/2: whenever dt and the third omega slope are
   * non-zero, its theta slope differs from the full-step stage the scripts use.
   */
  lemma AsWrittenFourthStageHalfStep(m: MathLib, gravity: real, length: real, theta: real, omega: real, dt: real)
    requires length != 0.0
    requires dt != 0.0
    requires AsWrittenSlopes(m, gravity, length, theta, omega, dt).k3.omega != 0.0
    ensures var k := AsWrittenSlopes(m, gravity, length, theta, omega, dt);
      k.k4.theta != Stage(m, gravity, length, theta, omega, dt, k.k3).theta
  {
    var k := AsWrittenSlopes(m, gravity, length, theta, omega, dt);
    var c := k.k3.omega;
    assert dt * c - 0.5 * dt * c == 0.5 * (dt * c);
    assert dt * c != 0.0;
  }

  /**
   * RK4_UPDATE reads sin only at the current angle: two math libraries that agree there
   * give the same update, whatever they do elsewhere.
   */
  lemma Rk4AsWrittenUsesSinOnlyAtTheta(m1: MathLib, m2: MathLib, gravity: real, length: real, theta: real, omega: real, dt: real)
    requires length != 0.0
    requires m1.sin(theta) == m2.sin(theta)
    ensures Rk4AsWritten(m1, gravity, length, theta, omega, dt) == Rk4AsWritten(m2, gravity, length, theta, omega, dt)
  {
    var k := AsWrittenSlopes(m1, gravity, length, theta, omega, dt);
    assert PendulumAcceleration(m1, gravity, length, theta) == PendulumAcceleration(m2, gravity, length, theta);
    assert AsWrittenSlopes(m2, gravity, length, theta, omega, dt) == k;
  }

  /** A zero step leaves theta and omega unchanged. */
  lemma Rk4AsWrittenZeroStep(m: MathLib, gravity: real, length: real, theta: real, omega: real)
    requires length != 0.0
    ensures Rk4AsWritten(m, gravity, length, theta, omega, 0.0) == Angular(theta, omega)
  {
    CombineZeroStep(theta, omega, AsWrittenSlopes(m, gravity, length, theta, omega, 0.0));
  }

  /** Mirrored state and mirrored previous slopes give mirrored as-written stage slopes. */
  lemma AsWrittenStageOdd(theta: real, omega: real, dt: real, k: Angular, theta': real, omega': real, k': Angular)
    requires theta' == -theta && omega' == -omega && k' == k.Negated()
    ensures AsWrittenStage(theta', omega', dt, k') == AsWrittenStage(theta, omega, dt, k).Negated()
  {
    MulNegated(0.5 * dt, k.omega, k'.omega);
    MulNegated(0.5 * dt, k.theta, k'.theta);
  }

  /** Given sin is odd, RK4_UPDATE maps the mirrored state to the mirrored result, like the scripts' RK4. */
  lemma Rk4AsWrittenOdd(m: MathLib, gravity: real, length: real, theta: real, omega: real, dt: real)
    requires SinIsOdd(m)
    requires length != 0.0
    ensures Rk4AsWritten(m, gravity, length, -theta, -omega, dt)
         == Rk4AsWritten(m, gravity, length, theta, omega, dt).Negated()
  {
    var k := AsWrittenSlopes(m, gravity, length, theta, omega, dt);
    AccelerationOdd(m, gravity, length, theta, -theta);
    AsWrittenStageOdd(theta, omega, dt, k.k1, -theta, -omega, k.k1.Negated());
    AsWrittenStageOdd(theta, omega, dt, k.k2, -theta, -omega, k.k2.Negated());
    AsWrittenStageOdd(theta, omega, dt, k.k3, -theta, -omega, k.k3.Negated());
    assert AsWrittenSlopes(m, gravity, length, -theta, -omega, dt) == k.Negated();
    CombineNegated(theta, omega, dt, k);
  }

  /**
   * With the object's own gravity 9.8 and step 0.05, a string of length 300 hanging straight
   * down (theta = 0) with omega = 10 changes its angular velocity by more than dt * g / L,
   * the bound every true Runge-Kutta step keeps (Integrators.Rk4VelocityChangeBounded).
   */
  lemma Rk4AsWrittenExceedsVelocityBound(m: MathLib)
    requires SinOfZero(m)
    ensures Abs(Rk4AsWritten(m, 9.8, 300.0, 0.0, 10.0, 0.05).omega - 10.0) > 0.05 * (9.8 / 300.0)
  {
    var k1 := Angular(10.0, 0.0);
    var k2 := AsWrittenStage(0.0, 10.0, 0.05, k1);
    assert k2 == Angular(10.0, 0.25);
    var k3 := AsWrittenStage(0.0, 10.0, 0.05, k2);
    assert k3 == Angular(10.00625, 0.25);
    var k4 := AsWrittenStage(0.0, 10.0, 0.05, k3);
    assert k4 == Angular(10.00625, 0.25015625);
    assert PendulumAcceleration(m, 9.8, 300.0, 0.0) == 0.0;
    assert AsWrittenSlopes(m, 9.8, 300.0, 0.0, 10.0, 0.05) == Slopes(k1, k2, k3, k4);
    var r := Combine(0.0, 10.0, 0.05, Slopes(k1, k2, k3, k4));
    assert r.omega - 10.0 == 0.05 / 6.0 * 1.25015625;
    assert Rk4AsWritten(m, 9.8, 300.0, 0.0, 10.0, 0.05) == r;
  }

  // ---------------------------------------------------------------------------
  // is_slack

  /** The string tension per unit mass that `is_slack` computes: (L * omega)^2 / L + g * cos(theta). */
  function Tension(m: MathLib, length: real, omega: real, gravity: real, theta: real): real
    requires length != 0.0
  {
    (length * omega) * (length * omega) / length + gravity * m.cos(theta)
  }

  /** The centripetal term (L * omega)^2 / L is L * omega^2. */
  lemma TensionCentripetal(m: MathLib, length: real, omega: real, gravity: real, theta: real)
    requires length != 0.0
    ensures Tension(m, length, omega, gravity, theta) == length * (omega * omega) + gravity * m.cos(theta)
  {
    var lw := length * omega;
    assert lw * lw == length * (length * (omega * omega));
    assert lw * lw / length == length * (omega * omega);
  }

  /** A positive-length string whose bob is below the pivot (cos(theta) > 0) is never slack. */
  lemma TautBelowPivot(m: MathLib, length: real, omega: real, gravity: real, theta: real)
    requires 0.0 < length && 0.0 < gravity
    requires 0.0 < m.cos(theta)
    ensures 0.0 < Tension(m, length, omega, gravity, theta)
  {
    TensionCentripetal(m, length, omega, gravity, theta);
    assert 0.0 <= omega * omega;
    assert 0.0 <= length * (omega * omega);
    assert 0.0 < gravity * m.cos(theta);
  }

  /** At rest, the tension is the gravity term alone: slack exactly when cos(theta) <= 0 (for g > 0). */
  lemma SlackAtRest(m: MathLib, length: real, gravity: real, theta: real)
    requires length != 0.0 && 0.0 < gravity
    ensures Tension(m, length, 0.0, gravity, theta) <= 0.0 <==> m.cos(theta) <= 0.0
  {
    TensionCentripetal(m, length, 0.0, gravity, theta);
    if m.cos(theta) <= 0.0 {
      assert gravity * m.cos(theta) <= 0.0;
    } else {
      assert gravity * m.cos(theta) > 0.0;
    }
  }

  // ---------------------------------------------------------------------------
  // The object

  class PendulumObject {
    const m: MathLib
    var massKg: real
    var length: real
    var radius: real
    var theta: real
    var omega: real
    var slack: bool
    var acceleration: real
    var originX: real
    var originY: real
    var gravity: real
    var dt: real
    var dragged: bool

    function State(): Fields
      reads this
    {
      Fields(massKg, length, radius, theta, omega, slack, acceleration, originX, originY, gravity, dt, dragged)
    }

    /**
     * The constructor as evidently intended: the arguments, then acceleration 0, origin (0, 0),
     * GRAVITY 9.8, dt 0.05, not dragged. (As written it raises: ConstructionAsWrittenRaises.)
     */
    constructor(m: MathLib, massKg: real, length: real, radius: real,
                startingAngle: real := 0.0, startingVelocity: real := 0.0, slack: bool := false)
      ensures this.m == m
      ensures State() == InitialFields(massKg, length, radius, startingAngle, startingVelocity, slack)
    {
      this.m := m;
      this.massKg := massKg;
      this.length := length;
      this.radius := radius;
      this.theta := startingAngle;
      this.omega := startingVelocity;
      this.slack := slack;
      this.acceleration := 0.0;
      this.originX := 0.0;
      this.originY := 0.0;
      this.gravity := 9.8;
      this.dt := 0.05;
      this.dragged := false;
    }

    method SetOrigin(x: real, y: real)
      modifies this
      ensures State() == old(State()).(originX := x, originY := y)
    {
      originX := x;
      originY := y;
    }

    method SetLength(length: real)
      modifies this
      ensures State() == old(State()).(length := length)
    {
      this.length := length;
    }

    method SetRadius(radius: real)
      modifies this
      ensures State() == old(State()).(radius := radius)
    {
      this.radius := radius;
    }

    method SetTheta(angle: real)
      modifies this
      ensures State() == old(State()).(theta := angle)
    {
      theta := angle;
    }

    method SetVelocity(velocity: real)
      modifies this
      ensures State() == old(State()).(omega := velocity)
    {
      omega := velocity;
    }

    method SetSlack(slack: bool)
      modifies this
      ensures State() == old(State()).(slack := slack)
    {
      this.slack := slack;
    }

    method SetAcceleration(acceleration: real)
      modifies this
      ensures State() == old(State()).(acceleration := acceleration)
    {
      this.acceleration := acceleration;
    }

    method SetTimeStep(step: real)
      modifies this
      ensures State() == old(State()).(dt := step)
    {
      dt := step;
    }

    /** `computeAcceleration`: -GRAVITY / length * sin(theta), reading the fields. */
    function ComputeAcceleration(): real
      reads this
      requires length != 0.0
    {
      -gravity / length * m.sin(theta)
    }

    /** The object's acceleration is the scripts' `pendulum_acceleration` for its own gravity and length. */
    lemma ComputeAccelerationIsPendulumAcceleration()
      requires length != 0.0
      ensures ComputeAcceleration() == PendulumAcceleration(m, gravity, length, theta)
    {
    }

    /** `computeRK4Step(k)`: the angle theta + dt/2 * k. */
    function ComputeRk4Step(k: real): real
      reads this
    {
      theta + 0.5 * dt * k
    }

    /**
     * `eulerUpdate`: theta advances with the pre-update omega, omega with the acceleration at
     * the pre-update theta; this is `euler_update` of the scripts, and nothing else changes.
     */
    method EulerUpdate()
      requires length != 0.0
      modifies this
      ensures State() == old(State()).(
        theta := Integrators.EulerUpdate(m, old(gravity), old(length), old(theta), old(omega), old(dt)).theta,
        omega := Integrators.EulerUpdate(m, old(gravity), old(length), old(theta), old(omega), old(dt)).omega)
    {
      var alpha := ComputeAcceleration();
      var thetaNew := theta + omega * dt;
      var omegaNew := omega + alpha * dt;
      SetTheta(thetaNew);
      SetVelocity(omegaNew);
    }

    /** `RK4_UPDATE` as written: stores Rk4AsWritten of the old state; nothing else changes. */
    method Rk4Update()
      requires length != 0.0
      modifies this
      ensures State() == old(State()).(
        theta := Rk4AsWritten(m, old(gravity), old(length), old(theta), old(omega), old(dt)).theta,
        omega := Rk4AsWritten(m, old(gravity), old(length), old(theta), old(omega), old(dt)).omega)
    {
      var k1Theta := omega;
      var k1Omega := ComputeAcceleration();

      var k2Theta := omega + 0.5 * dt * k1Omega;
      var k2Omega := ComputeRk4Step(k1Theta);

      var k3Theta := omega + 0.5 * dt * k2Omega;
      var k3Omega := ComputeRk4Step(k2Theta);

      var k4Theta := omega + 0.5 * dt * k3Omega;
      var k4Omega := ComputeRk4Step(k3Theta);
      var k := Slopes(Angular(k1Theta, k1Omega), Angular(k2Theta, k2Omega),
                      Angular(k3Theta, k3Omega), Angular(k4Theta, k4Omega));
      assert k == AsWrittenSlopes(m, gravity, length, theta, omega, dt);
      var next := Combine(theta, omega, dt, k);
      var thetaNew, omegaNew := next.theta, next.omega;

      SetVelocity(omegaNew);
      SetTheta(thetaNew);
    }

    /** `is_slack`: slack := (tension <= 0); nothing else changes. */
    method IsSlack()
      requires length != 0.0
      modifies this
      ensures State() == old(State()).(slack := Tension(m, old(length), old(omega), old(gravity), old(theta)) <= 0.0)
    {
      var vSquared := (length * omega) * (length * omega);
      var tension := vSquared / length + gravity * m.cos(theta);
      SetSlack(tension <= 0.0);
    }
  }
}
