/**
 * The physics body of source/physics.ts: a rectangle with a velocity, an acceleration and a
 * friction coefficient, advanced by one explicit integration step per frame.
 */
module Physics {
  import opened Js

  /** One axis of the velocity update: acceleration first, then drag on the accelerated velocity. */
  function VelocityStep(v: real, a: real, friction: real, dt: real): real
  {
    (v + a * dt) - (v + a * dt) * friction * dt
  }

  /** The moving part of a body's state. */
  datatype Body = Body(x: real, y: real, velocityX: real, velocityY: real,
                       accelerationX: real, accelerationY: real, friction: real)

  /** One integration step of `deltaTime`: each velocity component takes `VelocityStep`, then the
    * position advances by the new velocity. */
  function Step(b: Body, dt: real): Body
  {
    var vx := VelocityStep(b.velocityX, b.accelerationX, b.friction, dt);
    var vy := VelocityStep(b.velocityY, b.accelerationY, b.friction, dt);
    Body(b.x + vx * dt, b.y + vy * dt, vx, vy, b.accelerationX, b.accelerationY, b.friction)
  }

  class Entity2D {
    var x: real
    var y: real
    var w: real
    var h: real
    var velocityX: real
    var velocityY: real
    var accelerationX: real
    var accelerationY: real
    var friction: real

    /** `new Entity2D(x, y, w, h)`: at rest, no acceleration, friction 10. */
    constructor(x: real, y: real, w: real, h: real)
      ensures this.x == x && this.y == y && this.w == w && this.h == h
      ensures velocityX == 0.0 && velocityY == 0.0 && accelerationX == 0.0 && accelerationY == 0.0
      ensures friction == 10.0
    {
      this.x := x;
      this.y := y;
      this.w := w;
      this.h := h;
      velocityX := 0.0;
      velocityY := 0.0;
      accelerationX := 0.0;
      accelerationY := 0.0;
      friction := 10.0;
    }

    function Snapshot(): Body
      reads this
    {
      Body.Body(x, y, velocityX, velocityY, accelerationX, accelerationY, friction)
    }

    /** `update(deltaTime)`: one `Step`; the size does not change. */
    method Update(deltaTime: real)
      modifies this
      ensures Snapshot() == Step(old(Snapshot()), deltaTime)
      ensures w == old(w) && h == old(h)
    {
      velocityX := velocityX + accelerationX * deltaTime;
      velocityY := velocityY + accelerationY * deltaTime;
      velocityX := velocityX - velocityX * friction * deltaTime;
      velocityY := velocityY - velocityY * friction * deltaTime;
      x := x + velocityX * deltaTime;
      y := y + velocityY * deltaTime;
      assert velocityX == VelocityStep(old(velocityX), accelerationX, friction, deltaTime);
      assert velocityY == VelocityStep(old(velocityY), accelerationY, friction, deltaTime);
    }
  }

  // ---------------------------------------------------------------- lemmas

  /** The step is the accelerated velocity scaled by `1 - friction * dt`; a zero step changes
    * nothing. */
  lemma VelocityStepFactors(v: real, a: real, friction: real, dt: real)
    ensures VelocityStep(v, a, friction, dt) == (v + a * dt) * (1.0 - friction * dt)
    ensures dt == 0.0 ==> VelocityStep(v, a, friction, dt) == v
  {
  }

  /** Drag never speeds a body up: with no acceleration and `0 <= friction * dt <= 1`, the
    * magnitude of each velocity component does not grow. */
  lemma DragDoesNotAccelerate(v: real, friction: real, dt: real)
    requires 0.0 <= friction * dt <= 1.0
    ensures Abs(VelocityStep(v, 0.0, friction, dt)) <= Abs(v)
  {
    var k := friction * dt;
    VelocityStepFactors(v, 0.0, friction, dt);
    assert VelocityStep(v, 0.0, friction, dt) == v * (1.0 - k);
    ScaleShrinks(v, 1.0 - k);
  }

  /** A step of zero length changes nothing, and neither does any step of a body at rest with no
    * acceleration. */
  lemma StepAtRest(b: Body, dt: real)
    ensures Step(b, 0.0) == b
    ensures b.velocityX == 0.0 && b.velocityY == 0.0 && b.accelerationX == 0.0 && b.accelerationY == 0.0
      ==> Step(b, dt) == b
  {
  }

  lemma ScaleShrinks(v: real, s: real)
    requires 0.0 <= s <= 1.0
    ensures Abs(v * s) <= Abs(v)
  {
    if v >= 0.0 {
      assert v * s <= v * 1.0;
    } else {
      assert v * s >= v * 1.0;
    }
  }
}
