/**
 * GPTFreefall.py: a pendulum whose bob can be grabbed with the mouse. Released beyond the
 * string's length it falls freely until the string is taut again; otherwise it swings,
 * integrated by `rk4_update`. The module globals are the fields of `FreefallPendulum`.
 */
module FreefallDemo {
  import opened RealMath
  import opened Geometry
  import opened Integrators

  const PIVOT: Vec := Vec(400.0, 100.0)
  const LENGTH: real := 300.0
  const BOB_RADIUS: real := 15.0
  const GRAVITY: real := 9.8
  const FPS: real := 60.0
  const TIME_STEP: real := 1.0 / FPS

  /**
   * A fall from a standstill stays vertical: the horizontal velocity stays 0 and the bob
   * keeps its x; the vertical velocity grows by exactly GRAVITY * TIME_STEP.
   */
  lemma FallIsVertical(b: Projectile)
    requires b.vel.x == 0.0
    ensures FallStep(b, GRAVITY, TIME_STEP).vel.x == 0.0
    ensures FallStep(b, GRAVITY, TIME_STEP).pos.x == b.pos.x
    ensures FallStep(b, GRAVITY, TIME_STEP).vel.y == b.vel.y + GRAVITY * TIME_STEP
  {
  }

  /**
   * The fall ends (`dist <= LENGTH`) exactly when the bob is back within the circle the
   * string spans, tested on squared distances.
   */
  lemma FallEndsInsideCircle(m: MathLib, bob: Vec)
    requires SqrtIsRoot(m)
    ensures Distance(m, bob, PIVOT) <= LENGTH <==> SquaredDistance(bob, PIVOT) <= LENGTH * LENGTH
  {
    DistanceAtMost(m, bob, PIVOT, LENGTH);
  }

  class FreefallPendulum {
    const m: MathLib
    var angle: real
    var angularVelocity: real
    var dragging: bool
    var freeFall: bool
    var bob: Vec
    var bobVelocity: Vec

    /**
     * The bob is never held and falling at once, and its horizontal velocity is always 0:
     * it starts at 0 and is only ever reset to (0, 0) or changed in y.
     */
    ghost predicate Valid()
      reads this
    {
      !(dragging && freeFall) && bobVelocity.x == 0.0
    }

    /** Start at 45 degrees and at rest, with the bob drawn on the string. */
    constructor(m: MathLib)
      ensures Valid()
      ensures this.m == m && angle == m.pi / 4.0 && angularVelocity == 0.0
      ensures !dragging && !freeFall
      ensures bob == BobPosition(m, PIVOT, LENGTH, angle) && bobVelocity == Vec(0.0, 0.0)
    {
      this.m := m;
      var start := m.pi / 4.0;
      angle := start;
      angularVelocity := 0.0;
      dragging := false;
      freeFall := false;
      bob := Vec(PIVOT.x + LENGTH * m.sin(start), PIVOT.y + LENGTH * m.cos(start));
      bobVelocity := Vec(0.0, 0.0);
    }

    /** MOUSEBUTTONDOWN: a press within BOB_RADIUS (inclusive) of the bob grabs it and ends any fall. */
    method Press(mouse: Vec)
      requires Valid()
      modifies this
      ensures Valid()
      ensures Distance(m, mouse, old(bob)) <= BOB_RADIUS ==> dragging && !freeFall
      ensures Distance(m, mouse, old(bob)) > BOB_RADIUS ==> dragging == old(dragging) && freeFall == old(freeFall)
      ensures angle == old(angle) && angularVelocity == old(angularVelocity)
      ensures bob == old(bob) && bobVelocity == old(bobVelocity)
    {
      if Distance(m, mouse, bob) <= BOB_RADIUS {
        dragging := true;
        freeFall := false;
      }
    }

    /**
     * MOUSEBUTTONUP: only a held bob is let go. Beyond LENGTH from the pivot it starts
     * falling from rest; otherwise it swings again from rest at the angle it was dropped.
     */
    method Release()
      requires Valid()
      modifies this
      ensures Valid()
      ensures bob == old(bob)
      ensures !old(dragging) ==>
        dragging == old(dragging) && freeFall == old(freeFall) && bobVelocity == old(bobVelocity) &&
        angle == old(angle) && angularVelocity == old(angularVelocity)
      ensures old(dragging) && Distance(m, bob, PIVOT) > LENGTH ==>
        !dragging && freeFall && bobVelocity == Vec(0.0, 0.0) &&
        angle == old(angle) && angularVelocity == old(angularVelocity)
      ensures old(dragging) && Distance(m, bob, PIVOT) <= LENGTH ==>
        !dragging && !freeFall && bobVelocity == old(bobVelocity) &&
        angle == AngleFrom(m, PIVOT, bob) && angularVelocity == 0.0
    {
      if dragging {
        dragging := false;
        var dx := bob.x - PIVOT.x;
        var dy := bob.y - PIVOT.y;
        if Distance(m, bob, PIVOT) > LENGTH {
          freeFall := true;
          bobVelocity := Vec(0.0, 0.0);
        } else {
          freeFall := false;
          angle := m.atan2(dx, dy);
          angularVelocity := 0.0;
        }
      }
    }

    /** MOUSEMOTION: a held bob follows the mouse exactly; otherwise nothing changes. */
    method Move(mouse: Vec)
      requires Valid()
      modifies this
      ensures Valid()
      ensures dragging == old(dragging) && freeFall == old(freeFall) && bobVelocity == old(bobVelocity)
      ensures angle == old(angle) && angularVelocity == old(angularVelocity)
      ensures bob == if old(dragging) then mouse else old(bob)
    {
      if dragging {
        bob := mouse;
      }
    }

    /**
     * The physics of one frame. A held bob changes nothing. A falling bob takes a FallStep
     * and, once back within LENGTH of the pivot, swings again from rest at its angle. A
     * swinging bob takes an `rk4_update` and is drawn on the string, LENGTH from the pivot.
     */
    method Tick()
      requires Valid()
      modifies this
      ensures Valid() && dragging == old(dragging)
      ensures old(dragging) ==>
        freeFall == old(freeFall) && angle == old(angle) && angularVelocity == old(angularVelocity) &&
        bob == old(bob) && bobVelocity == old(bobVelocity)
      ensures !old(dragging) && old(freeFall) ==>
        var fallen := FallStep(Projectile(old(bob), old(bobVelocity)), GRAVITY, TIME_STEP);
        bob == fallen.pos && bobVelocity == fallen.vel && bob.x == old(bob.x) &&
        freeFall == (Distance(m, bob, PIVOT) > LENGTH) &&
        (freeFall ==> angle == old(angle) && angularVelocity == old(angularVelocity)) &&
        (!freeFall ==> angle == AngleFrom(m, PIVOT, bob) && angularVelocity == 0.0)
      ensures !old(dragging) && !old(freeFall) ==>
        !freeFall && bobVelocity == old(bobVelocity) &&
        Angular(angle, angularVelocity) == Rk4Update(m, GRAVITY, LENGTH, old(angle), old(angularVelocity), TIME_STEP) &&
        bob == BobPosition(m, PIVOT, LENGTH, angle) &&
        (Pythagorean(m) && SqrtIsRoot(m) ==> Distance(m, bob, PIVOT) == LENGTH)
    {
      if dragging {
        return;
      }
      if freeFall {
        ghost var fallen := FallStep(Projectile(bob, bobVelocity), GRAVITY, TIME_STEP);
        FallIsVertical(Projectile(bob, bobVelocity));
        bobVelocity := bobVelocity.(y := bobVelocity.y + GRAVITY * TIME_STEP);
        assert bobVelocity == fallen.vel;
        bob := Vec(bob.x + bobVelocity.x * TIME_STEP, bob.y + bobVelocity.y * TIME_STEP);
        assert bob == fallen.pos;
        var dx := bob.x - PIVOT.x;
        var dy := bob.y - PIVOT.y;
        if Distance(m, bob, PIVOT) <= LENGTH {
          freeFall := false;
          angle := m.atan2(dx, dy);
          angularVelocity := 0.0;
        }
      } else {
        var next := Rk4Update(m, GRAVITY, LENGTH, angle, angularVelocity, TIME_STEP);
        angle, angularVelocity := next.theta, next.omega;
        bob := Vec(PIVOT.x + LENGTH * m.sin(angle), PIVOT.y + LENGTH * m.cos(angle));
        if Pythagorean(m) && SqrtIsRoot(m) {
          BobAtLength(m, PIVOT, LENGTH, angle);
        }
      }
    }
  }
}
