/**
 * GPTEulerRK4.py: one pendulum integrated each frame by the method the user last chose
 * with the keyboard, `e` for Euler and `r` for RK4.
 */
module EulerRk4Demo {
  import opened RealMath
  import opened Geometry
  import opened Integrators

  const PIVOT: Vec := Vec(400.0, 100.0)
  const LENGTH: real := 300.0
  const GRAVITY: real := 9.8
  const FPS: real := 60.0
  const TIME_STEP: real := 1.0 / FPS

  /** pygame's key codes for the `e` and `r` keys. */
  const K_E: int := 101
  const K_R: int := 114

  const EULER: string := "euler"
  const RK4: string := "rk4"

  predicate IsKnownMethod(scheme: string) {
    scheme == EULER || scheme == RK4
  }

  /** The KEYDOWN branch: `e` selects Euler, else `r` selects RK4, any other key keeps the method. */
  function SelectMethod(scheme: string, key: int): string {
    if key == K_E then EULER
    else if key == K_R then RK4
    else scheme
  }

  /** The keys choose the method exactly as documented, and a known method stays known. */
  lemma SelectMethodChoosesByKey(scheme: string, key: int)
    ensures key == K_E ==> SelectMethod(scheme, key) == EULER
    ensures key == K_R ==> SelectMethod(scheme, key) == RK4
    ensures key != K_E && key != K_R ==> SelectMethod(scheme, key) == scheme
    ensures IsKnownMethod(scheme) ==> IsKnownMethod(SelectMethod(scheme, key))
  {
  }

  /** The physics of one frame: the integrator named by the `method` global, or no change for any other name. */
  function Advance(m: MathLib, scheme: string, theta: real, omega: real): Angular {
    if scheme == EULER then EulerUpdate(m, GRAVITY, LENGTH, theta, omega, TIME_STEP)
    else if scheme == RK4 then Rk4Update(m, GRAVITY, LENGTH, theta, omega, TIME_STEP)
    else Angular(theta, omega)
  }

  /** Given sin is odd, a frame maps the mirrored pendulum to the mirror of its result, whichever method runs. */
  lemma AdvanceOdd(m: MathLib, scheme: string, theta: real, omega: real)
    requires SinIsOdd(m)
    ensures Advance(m, scheme, -theta, -omega) == Advance(m, scheme, theta, omega).Negated()
  {
    if scheme == EULER {
      EulerOdd(m, GRAVITY, LENGTH, theta, omega, TIME_STEP);
    } else if scheme == RK4 {
      Rk4Odd(m, GRAVITY, LENGTH, theta, omega, TIME_STEP);
    }
  }

  /** Given sin(0) = 0, a pendulum hanging at rest stays at rest, whichever method runs. */
  lemma AdvanceAtRest(m: MathLib, scheme: string)
    requires SinOfZero(m)
    ensures Advance(m, scheme, 0.0, 0.0) == Angular(0.0, 0.0)
  {
    if scheme == EULER {
      EulerRestIsFixed(m, GRAVITY, LENGTH, TIME_STEP);
    } else if scheme == RK4 {
      Rk4RestIsFixed(m, GRAVITY, LENGTH, TIME_STEP);
    }
  }

  /** Given -1 <= sin <= 1, a frame changes the angular velocity by at most TIME_STEP * GRAVITY / LENGTH. */
  lemma AdvanceVelocityChangeBounded(m: MathLib, scheme: string, theta: real, omega: real)
    requires SinIsBounded(m)
    ensures Abs(Advance(m, scheme, theta, omega).omega - omega) <= TIME_STEP * (GRAVITY / LENGTH)
  {
    if scheme == EULER {
      EulerVelocityChangeBounded(m, GRAVITY, LENGTH, theta, omega, TIME_STEP);
    } else if scheme == RK4 {
      Rk4VelocityChangeBounded(m, GRAVITY, LENGTH, theta, omega, TIME_STEP);
    }
  }

  /** The module globals `angle`, `angular_velocity` and `method` (here `scheme`). */
  class Simulation {
    const m: MathLib
    var angle: real
    var angularVelocity: real
    var scheme: string

    ghost predicate Valid()
      reads this
    {
      IsKnownMethod(scheme)
    }

    /** Start at 45 degrees, at rest, integrating with RK4. */
    constructor(m: MathLib)
      ensures Valid()
      ensures this.m == m && angle == m.pi / 4.0 && angularVelocity == 0.0 && scheme == RK4
    {
      this.m := m;
      angle := m.pi / 4.0;
      angularVelocity := 0.0;
      scheme := RK4;
    }

    /** A KEYDOWN event: only the method can change. */
    method KeyDown(key: int)
      requires Valid()
      modifies this
      ensures Valid()
      ensures scheme == SelectMethod(old(scheme), key)
      ensures angle == old(angle) && angularVelocity == old(angularVelocity)
    {
      if key == K_E {
        scheme := EULER;
      } else if key == K_R {
        scheme := RK4;
      }
    }

    /** The physics part of a frame: exactly the integrator the method names; the method is kept. */
    method Tick()
      requires Valid()
      modifies this
      ensures Valid() && scheme == old(scheme)
      ensures Angular(angle, angularVelocity) == Advance(m, old(scheme), old(angle), old(angularVelocity))
    {
      if scheme == EULER {
        var next := EulerUpdate(m, GRAVITY, LENGTH, angle, angularVelocity, TIME_STEP);
        angle, angularVelocity := next.theta, next.omega;
      } else if scheme == RK4 {
        var next := Rk4Update(m, GRAVITY, LENGTH, angle, angularVelocity, TIME_STEP);
        angle, angularVelocity := next.theta, next.omega;
      }
    }

    /** The bob drawn each frame; Geometry.BobAtLength puts it LENGTH from the pivot. */
    function Bob(): Vec
      reads this
    {
      BobPosition(m, PIVOT, LENGTH, angle)
    }
  }
}
