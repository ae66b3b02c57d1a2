/**
 * GPTLooseString.py: a pendulum whose string can go slack. While taut it takes a
 * semi-implicit Euler step; once slack its angular velocity is damped and no restoring
 * acceleration acts, until a test on the angle pulls the string taut again. The module
 * globals are the fields of `LooseString`; `Tick` is the physics part of one frame.
 */
module LooseStringDemo {
  import opened RealMath
  import opened Integrators

  const HEIGHT: real := 600.0
  const PIVOT_Y: real := 100.0
  const LENGTH: real := 300.0
  const GRAVITY: real := 9.8
  const FPS: real := 120.0
  const TIME_STEP: real := 5.0 / FPS
  /** A taut string goes slack when the angular velocity has dropped below this. */
  const SLACK_VELOCITY: real := 0.01
  /** The factor a slack tick multiplies the angular velocity by. */
  const DAMPING: real := 0.99

  /** A snapshot of the four globals the loop updates. */
  datatype Swing = Swing(angle: real, angularVelocity: real, angularAcceleration: real, slack: bool)

  /** The slack-entry test, run after a taut update. */
  predicate GoesSlack(m: MathLib, angularVelocity: real, angle: real) {
    angularVelocity < SLACK_VELOCITY && m.cos(angle) < 0.0
  }

  /** Python's `x**2`. */
  function Square(x: real): real {
    x * x
  }

  /** The re-taut test: sqrt((PIVOT_Y + LENGTH * sin(angle) - HEIGHT)**2) >= LENGTH. */
  predicate PullsTaut(m: MathLib, angle: real) {
    m.sqrt(Square(PIVOT_Y + LENGTH * m.sin(angle) - HEIGHT)) >= LENGTH
  }

  /** A taut tick: acceleration from the angle, then the velocity, then the angle with the new velocity. */
  function TautTick(m: MathLib, s: Swing): Swing {
    var acceleration := -GRAVITY / LENGTH * m.sin(s.angle);
    var omega := s.angularVelocity + acceleration * TIME_STEP;
    var angle := s.angle + omega * TIME_STEP;
    Swing(angle, omega, acceleration, GoesSlack(m, omega, angle))
  }

  /** A slack tick: damp the velocity, advance the angle by it, keep the last acceleration. */
  function SlackTick(m: MathLib, s: Swing): Swing {
    var omega := s.angularVelocity * DAMPING;
    var angle := s.angle + omega * TIME_STEP;
    Swing(angle, omega, s.angularAcceleration, !PullsTaut(m, angle))
  }

  /**
   * One frame's physics: exactly one of the two branches runs, chosen by the slack flag,
   * so the flag changes at most once per frame and only the taut branch sets the acceleration.
   */
  function Frame(m: MathLib, s: Swing): Swing {
    if s.slack then SlackTick(m, s) else TautTick(m, s)
  }

  /**
   * The taut tick is semi-implicit Euler: the velocity is `euler_update`'s, but the angle
   * advances with the new velocity, which puts it acceleration * TIME_STEP^2 away from
   * `euler_update`'s angle.
   */
  lemma TautTickIsSemiImplicit(m: MathLib, s: Swing)
    ensures var t := TautTick(m, s);
      var e := EulerUpdate(m, GRAVITY, LENGTH, s.angle, s.angularVelocity, TIME_STEP);
      t.angularAcceleration == PendulumAcceleration(m, GRAVITY, LENGTH, s.angle) &&
      t.angularVelocity == e.omega &&
      t.angle == s.angle + t.angularVelocity * TIME_STEP &&
      t.angle == e.theta + t.angularAcceleration * TIME_STEP * TIME_STEP
  {
    var acceleration := PendulumAcceleration(m, GRAVITY, LENGTH, s.angle);
    assert -GRAVITY / LENGTH * m.sin(s.angle) == acceleration;
  }

  /** Given -1 <= sin <= 1, a taut tick changes the angular velocity by at most TIME_STEP * g / L. */
  lemma TautTickVelocityChangeBounded(m: MathLib, s: Swing)
    requires SinIsBounded(m)
    ensures Abs(TautTick(m, s).angularVelocity - s.angularVelocity) <= TIME_STEP * (GRAVITY / LENGTH)
  {
    TautTickIsSemiImplicit(m, s);
    EulerVelocityChangeBounded(m, GRAVITY, LENGTH, s.angle, s.angularVelocity, TIME_STEP);
  }

  /**
   * Given -1 <= sin <= 1, a taut string moving at least SLACK_VELOCITY + TIME_STEP * g / L
   * stays taut for the tick, whatever the angle: gravity cannot slow it below 0.01 in one step.
   */
  lemma FastTautTickStaysTaut(m: MathLib, s: Swing)
    requires SinIsBounded(m)
    requires s.angularVelocity >= SLACK_VELOCITY + TIME_STEP * (GRAVITY / LENGTH)
    ensures !TautTick(m, s).slack
  {
    TautTickVelocityChangeBounded(m, s);
  }

  /**
   * A slack tick damps the velocity: its sign never flips and its magnitude strictly drops
   * unless it is 0. The angle moves by the damped velocity alone; no acceleration acts.
   */
  lemma SlackTickDamps(m: MathLib, s: Swing)
    ensures var t := SlackTick(m, s);
      (s.angularVelocity > 0.0 ==> 0.0 < t.angularVelocity < s.angularVelocity) &&
      (s.angularVelocity < 0.0 ==> s.angularVelocity < t.angularVelocity < 0.0) &&
      (s.angularVelocity == 0.0 ==> t.angularVelocity == 0.0 && t.angle == s.angle) &&
      Abs(t.angularVelocity) <= Abs(s.angularVelocity) &&
      t.angle == s.angle + t.angularVelocity * TIME_STEP &&
      t.angularAcceleration == s.angularAcceleration
  {
  }

  /**
   * Given sqrt is a square root and -1 <= sin(angle) <= 1, the re-taut test holds exactly
   * when sin(angle) <= 2/3: the tested offset PIVOT_Y + LENGTH * sin(angle) - HEIGHT is
   * always negative, so the test reads 500 - 300 * sin(angle) >= 300.
   */
  lemma PullsTautIff(m: MathLib, angle: real)
    requires SqrtIsRoot(m) && SinBoundedAt(m, angle)
    ensures PullsTaut(m, angle) <==> m.sin(angle) <= 2.0 / 3.0
  {
    var d := PIVOT_Y + LENGTH * m.sin(angle) - HEIGHT;
    SqrtOfSquare(m, d);
    assert d < 0.0;
    assert m.sqrt(Square(d)) == -d;
  }

  /** Given the same facts, a slack tick ends slack exactly when sin of the new angle is at most 2/3. */
  lemma SlackTickTautensExactly(m: MathLib, s: Swing)
    requires SqrtIsRoot(m) && SinIsBounded(m)
    ensures !SlackTick(m, s).slack <==> m.sin(SlackTick(m, s).angle) <= 2.0 / 3.0
  {
    var angle := SlackTick(m, s).angle;
    assert SinBoundedAt(m, angle);
    PullsTautIff(m, angle);
  }

  class LooseString {
    const m: MathLib
    var angle: real
    var angularVelocity: real
    var angularAcceleration: real
    var slack: bool

    function State(): Swing
      reads this
    {
      Swing(angle, angularVelocity, angularAcceleration, slack)
    }

    /** Start at 45 degrees, at rest, with the string taut. */
    constructor(m: MathLib)
      ensures this.m == m
      ensures State() == Swing(m.pi / 4.0, 0.0, 0.0, false)
    {
      this.m := m;
      angle := m.pi / 4.0;
      angularVelocity := 0.0;
      angularAcceleration := 0.0;
      slack := false;
    }

    /** The physics part of one frame, updating the globals in the order the loop does. */
    method Tick()
      modifies this
      ensures State() == Frame(m, old(State()))
    {
      ghost var next := Frame(m, State());
      if !slack {
        angularAcceleration := -GRAVITY / LENGTH * m.sin(angle);
        assert angularAcceleration == next.angularAcceleration;
        angularVelocity := angularVelocity + angularAcceleration * TIME_STEP;
        assert angularVelocity == next.angularVelocity;
        angle := angle + angularVelocity * TIME_STEP;
        assert angle == next.angle;
        if angularVelocity < SLACK_VELOCITY && m.cos(angle) < 0.0 {
          slack := true;
        }
      } else {
        angularVelocity := angularVelocity * DAMPING;
        assert angularVelocity == next.angularVelocity;
        angle := angle + angularVelocity * TIME_STEP;
        assert angle == next.angle;
        if m.sqrt(Square(PIVOT_Y + LENGTH * m.sin(angle) - HEIGHT)) >= LENGTH {
          slack := false;
        }
      }
    }
  }
}
