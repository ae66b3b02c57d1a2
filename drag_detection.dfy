/**
 * GPTDragDetection.py: a pendulum integrated by `rk4_update` except while the user holds
 * the bob, during which the mouse sets its angle. The module globals `angle`,
 * `angular_velocity` and `dragging` are the fields of `DraggablePendulum`; the bob is
 * always recomputed from the angle.
 */
module DragDetectionDemo {
  import opened RealMath
  import opened Geometry
  import opened Integrators

  const PIVOT: Vec := Vec(400.0, 100.0)
  const LENGTH: real := 300.0
  const BOB_RADIUS: real := 15.0
  const GRAVITY: real := 9.8
  const FPS: real := 60.0
  const TIME_STEP: real := 1.0 / FPS

  /** The angle the string makes when the bob is pulled to `mouse`: atan2 of the mouse's offset from the pivot. */
  function MouseAngle(m: MathLib, mouse: Vec): real {
    AngleFrom(m, PIVOT, mouse)
  }

  class DraggablePendulum {
    const m: MathLib
    var angle: real
    var angularVelocity: real
    var dragging: bool

    /** Start at 45 degrees, at rest and not held. */
    constructor(m: MathLib)
      ensures this.m == m && angle == m.pi / 4.0 && angularVelocity == 0.0 && !dragging
    {
      this.m := m;
      angle := m.pi / 4.0;
      angularVelocity := 0.0;
      dragging := false;
    }

    /** The bob, LENGTH from the pivot at the current angle. */
    function Bob(): Vec
      reads this
    {
      BobPosition(m, PIVOT, LENGTH, angle)
    }

    /** Given sin^2 + cos^2 = 1, the bob is always LENGTH from the pivot, whatever the angle. */
    lemma BobOnString()
      requires Pythagorean(m) && SqrtIsRoot(m)
      ensures Distance(m, Bob(), PIVOT) == LENGTH
    {
      BobAtLength(m, PIVOT, LENGTH, angle);
    }

    /** MOUSEBUTTONDOWN: the bob is grabbed when the mouse is within BOB_RADIUS (inclusive); nothing else changes. */
    method Press(mouse: Vec)
      modifies this
      ensures dragging == (old(dragging) || Distance(m, mouse, old(Bob())) <= BOB_RADIUS)
      ensures angle == old(angle) && angularVelocity == old(angularVelocity)
    {
      var bobX := PIVOT.x + LENGTH * m.sin(angle);
      var bobY := PIVOT.y + LENGTH * m.cos(angle);
      if Distance(m, mouse, Vec(bobX, bobY)) <= BOB_RADIUS {
        dragging := true;
      }
    }

    /** MOUSEBUTTONUP: a held bob is let go from rest at the mouse's angle; otherwise nothing changes. */
    method Release(mouse: Vec)
      modifies this
      ensures !dragging
      ensures old(dragging) ==> angle == MouseAngle(m, mouse) && angularVelocity == 0.0
      ensures !old(dragging) ==> angle == old(angle) && angularVelocity == old(angularVelocity)
    {
      if dragging {
        dragging := false;
        var dx := mouse.x - PIVOT.x;
        var dy := mouse.y - PIVOT.y;
        angle := m.atan2(dx, dy);
        angularVelocity := 0.0;
      }
    }

    /** MOUSEMOTION: a held bob is set, at rest, to the mouse's angle; otherwise nothing changes. */
    method Move(mouse: Vec)
      modifies this
      ensures dragging == old(dragging)
      ensures dragging ==> angle == MouseAngle(m, mouse) && angularVelocity == 0.0
      ensures !dragging ==> angle == old(angle) && angularVelocity == old(angularVelocity)
    {
      if dragging {
        var dx := mouse.x - PIVOT.x;
        var dy := mouse.y - PIVOT.y;
        angle := m.atan2(dx, dy);
        angularVelocity := 0.0;
      }
    }

    /** The physics of one frame: an `rk4_update` of TIME_STEP, only while the bob is not held. */
    method Tick()
      modifies this
      ensures dragging == old(dragging)
      ensures dragging ==> angle == old(angle) && angularVelocity == old(angularVelocity)
      ensures !dragging ==>
        Angular(angle, angularVelocity) == Rk4Update(m, GRAVITY, LENGTH, old(angle), old(angularVelocity), TIME_STEP)
    {
      if !dragging {
        var next := Rk4Update(m, GRAVITY, LENGTH, angle, angularVelocity, TIME_STEP);
        angle, angularVelocity := next.theta, next.omega;
      }
    }
  }
}
