/**
 * The player character of source/character.ts. `Character` extends `Entity2D` there; here it owns
 * its physics body `entity` and reaches the camera it shakes through `camera`. The listeners it
 * installs become methods: "keydown"/"keyup" on the key record, "input" on the name field, and
 * "click" on the swing target. Frame inputs the update reads are parameters: `Date.now()` is
 * `now`, `1 / Math.sqrt(2)` is `diagonal`, `Math.cos`/`Math.sin` are `cos`/`sin`, the cursor
 * position is `cursorX`, and the body texture's width is `bodyWidth`.
 */
module Character {
  import opened Js
  import opened Wrappers
  import Physics
  import Camera

  const WIDTH: real := 50.0
  const HEIGHT: real := 50.0
  const SPEED: real := 3600.0
  /** `Math.abs(swingVelocity) < 0.000001` ends a swing. */
  const SWING_REST: real := 0.000001

  datatype Direction = Left | Right
  datatype State = Idle | Running

  /** The focused element a "keydown" event finds: not an HTML element, or one with its tag name,
    * its `type` attribute (for inputs) and whether it is editable. */
  datatype ActiveElement = NotHtml | Element(tagName: string, inputType: string, contentEditable: bool)

  /** Whether the focus is in a text field, where key presses belong to the field. */
  function Typing(e: ActiveElement): (r: bool)
    ensures r <==> (e.Element? &&
      ((e.tagName == "INPUT" && e.inputType == "text") || e.tagName == "TEXTAREA" || e.contentEditable))
  {
    match e
    case NotHtml => false
    case Element(tag, inputType, editable) =>
      if tag == "INPUT" && inputType == "text" then true
      else if tag == "TEXTAREA" then true
      else editable
  }

  /** `keys[code]`, with a missing entry read as not pressed. */
  function Held(keys: map<string, bool>, code: string): bool
  {
    code in keys && keys[code]
  }

  /** `Number(!!positive) - Number(!!negative)`. */
  function Axis(positive: bool, negative: bool): (r: int)
    ensures -1 <= r <= 1
    ensures r == 0 <==> positive == negative
    ensures r == 1 <==> positive && !negative
  {
    (if positive then 1 else 0) - (if negative then 1 else 0)
  }

  function Horizontal(keys: map<string, bool>): int
  {
    Axis(Held(keys, "ArrowRight") || Held(keys, "KeyD"), Held(keys, "ArrowLeft") || Held(keys, "KeyA"))
  }

  function Vertical(keys: map<string, bool>): int
  {
    Axis(Held(keys, "ArrowDown") || Held(keys, "KeyS"), Held(keys, "ArrowUp") || Held(keys, "KeyW"))
  }

  /** `horizontal && vertical ? 1 / Math.sqrt(2) : 1`. */
  function Diagonal(horizontal: int, vertical: int, diagonal: real): real
  {
    if horizontal != 0 && vertical != 0 then diagonal else 1.0
  }

  /** The input acceleration `speed * axis * diagonal` on each axis. */
  function Thrust(keys: map<string, bool>, diagonal: real): (real, real)
  {
    var h, v := Horizontal(keys), Vertical(keys);
    var d := Diagonal(h, v, diagonal);
    (SPEED * h as real * d, SPEED * v as real * d)
  }

  /** The locomotion state read off the velocity after the physics step, with no hysteresis. */
  function StateOf(vx: real, vy: real): (s: State)
    ensures s == Running <==> Abs(vx) + Abs(vy) > 2.0
  {
    if Abs(vx) + Abs(vy) > 2.0 then Running else Idle
  }

  /** The swing spring: current angle, target angle, velocity. */
  datatype Swing = Swing(current: real, target: real, velocity: real)

  /** One update of the swing. */
  function SwingStep(s: Swing): Swing
  {
    var velocity := (s.velocity + (s.target - s.current) * 0.1) * 0.65;
    Swing(s.current + velocity, if Abs(velocity) < SWING_REST then 0.0 else s.target, velocity)
  }

  /** The scale easing `scale += (1 - scale) * 0.1`. */
  function Ease(scale: real): real
  {
    scale + (1.0 - scale) * 0.1
  }

  /** The facing rule: outside the dead zone the direction follows the sign of the distance, and
    * the second component says whether the direction actually changed (which bumps the scale). */
  function Face(direction: Direction, distance: real, deadzone: real): (Direction, bool)
  {
    if Abs(distance) > deadzone then
      var d := if distance < 0.0 then Left else Right;
      (d, d != direction)
    else (direction, false)
  }

  /** A running blink: when it started and how long it lasts. */
  datatype Blink = Blink(startTime: real, duration: real)

  /** The eye scale `elapsed` into a blink of length `duration`. */
  function EyesScale(elapsed: real, duration: real): real
    requires duration > 0.0
  {
    if elapsed < duration / 2.0 then 1.0 - (elapsed * 2.0 / duration)
    else (elapsed * 2.0 - duration) / duration
  }

  /** The text of the name label, or None when no label is drawn. */
  function Label(name: string): Option<string>
  {
    if name == "" then None
    else if |name| <= 20 then Some(name)
    else Some(name[..19] + "…")
  }

  class Character {
    const entity: Physics.Entity2D
    const camera: Camera.Camera2D
    var keys: map<string, bool>
    var state: State
    var direction: Direction
    var eyesScale: real
    var scaleX: real
    var scaleY: real
    var wobbleX: real
    var wobbleY: real
    var currentSwingAngle: real
    var targetSwingAngle: real
    var swingVelocity: real
    var name: string
    var outlineColor: string
    var outlineThickness: real
    var blink: Option<Blink>

    /** `new Character(canvas)`, with the outline slider's initial value `thickness`. */
    constructor(camera: Camera.Camera2D, thickness: real)
      ensures this.camera == camera && fresh(entity)
      ensures entity.x == 0.0 && entity.y == 0.0 && entity.w == WIDTH && entity.h == HEIGHT
      ensures keys == map[] && state == Idle && direction == Left && name == ""
      ensures outlineColor == "#FFFFFF" && outlineThickness == thickness
      ensures eyesScale == 1.0 && scaleX == 1.0 && scaleY == 1.0 && wobbleX == 1.0 && wobbleY == 1.0
      ensures currentSwingAngle == 0.0 && targetSwingAngle == 0.0 && swingVelocity == 0.0
      ensures blink.None?
    {
      entity := new Physics.Entity2D(0.0, 0.0, WIDTH, HEIGHT);
      this.camera := camera;
      keys := map[];
      state := Idle;
      direction := Left;
      eyesScale := 1.0;
      scaleX, scaleY := 1.0, 1.0;
      wobbleX, wobbleY := 1.0, 1.0;
      currentSwingAngle, targetSwingAngle, swingVelocity := 0.0, 0.0, 0.0;
      name := "";
      outlineColor := "#FFFFFF";
      outlineThickness := thickness;
      blink := None;
    }

    /** The "keydown" listener: ignored while the focus `active` is in a text input, a textarea or
      * an editable element; otherwise the key is recorded as pressed. */
    method KeyDown(code: string, active: ActiveElement)
      modifies this`keys
      ensures keys == if Typing(active) then old(keys) else old(keys)[code := true]
    {
      if active.Element? {
        if active.tagName == "INPUT" && active.inputType == "text" {
          return;
        }
        if active.tagName == "TEXTAREA" {
          return;
        }
        if active.contentEditable {
          return;
        }
      }
      keys := keys[code := true];
    }

    /** The "keyup" listener. */
    method KeyUp(code: string)
      modifies this`keys
      ensures keys == old(keys)[code := false]
    {
      keys := keys[code := false];
    }

    /** The "input" listener of the name field. */
    method NameInput(value: string)
      modifies this`name
      ensures name == value
    {
      name := value;
    }

    /** The "input" listener of the outline colour picker. */
    method OutlineColorInput(color: string)
      modifies this`outlineColor
      ensures outlineColor == color
    {
      outlineColor := color;
    }

    /** The "input" listener of the outline thickness slider. */
    method OutlineThicknessInput(value: real)
      modifies this`outlineThickness
      ensures outlineThickness == value
    {
      outlineThickness := value;
    }

    /** `update(deltaTime)`. */
    method Update(deltaTime: real, now: real, cursorX: real, bodyWidth: real, diagonal: real,
                  cos: real -> real, sin: real -> real)
      modifies entity, this`state, this`direction, this`scaleX, this`scaleY, this`wobbleX, this`wobbleY
      modifies this`currentSwingAngle, this`targetSwingAngle, this`swingVelocity
      ensures var thrust := Thrust(keys, diagonal);
        entity.Snapshot() == Physics.Step(old(entity.Snapshot()).(accelerationX := thrust.0, accelerationY := thrust.1), deltaTime)
      ensures entity.w == old(entity.w) && entity.h == old(entity.h)
      ensures state == StateOf(entity.velocityX, entity.velocityY)
      ensures wobbleX == 1.0 + cos(now / 200.0) / 40.0 && wobbleY == 1.0 + sin(now / 200.0) / 40.0
      ensures Swing(currentSwingAngle, targetSwingAngle, swingVelocity)
        == SwingStep(Swing(old(currentSwingAngle), old(targetSwingAngle), old(swingVelocity)))
      ensures var (d, bump) := Face(old(direction), cursorX - entity.x, bodyWidth / 8.0);
        direction == d &&
        scaleX == Ease(old(scaleX)) + (if bump then 0.05 else 0.0) &&
        scaleY == Ease(old(scaleY)) + (if bump then 0.05 else 0.0)
    {
      Steer(diagonal);
      entity.Update(deltaTime);
      Animate(now, cos, sin, entity.velocityX, entity.velocityY, cursorX - entity.x, bodyWidth / 8.0);
    }

    /** The part of the update that reads the body only through its new velocity and the cursor's
      * horizontal distance from it. */
    method Animate(now: real, cos: real -> real, sin: real -> real, vx: real, vy: real, distance: real, deadzone: real)
      modifies this`state, this`direction, this`scaleX, this`scaleY, this`wobbleX, this`wobbleY
      modifies this`currentSwingAngle, this`targetSwingAngle, this`swingVelocity
      ensures state == StateOf(vx, vy)
      ensures wobbleX == 1.0 + cos(now / 200.0) / 40.0 && wobbleY == 1.0 + sin(now / 200.0) / 40.0
      ensures Swing(currentSwingAngle, targetSwingAngle, swingVelocity)
        == SwingStep(Swing(old(currentSwingAngle), old(targetSwingAngle), old(swingVelocity)))
      ensures var (d, bump) := Face(old(direction), distance, deadzone);
        direction == d &&
        scaleX == Ease(old(scaleX)) + (if bump then 0.05 else 0.0) &&
        scaleY == Ease(old(scaleY)) + (if bump then 0.05 else 0.0)
    {
      scaleX := scaleX + (1.0 - scaleX) * 0.1;
      scaleY := scaleY + (1.0 - scaleY) * 0.1;
      state := if Abs(vx) + Abs(vy) > 2.0 then Running else Idle;
      wobbleX := 1.0 + cos(now / 200.0) / 40.0;
      wobbleY := 1.0 + sin(now / 200.0) / 40.0;
      UpdateSwing();
      UpdateFacing(distance, deadzone);
    }

    /** The acceleration from the held direction keys, slowed on diagonals. */
    method Steer(diagonal: real)
      modifies entity`accelerationX, entity`accelerationY
      ensures entity.Snapshot() == old(entity.Snapshot()).(accelerationX := Thrust(keys, diagonal).0, accelerationY := Thrust(keys, diagonal).1)
    {
      var horizontal := Horizontal(keys);
      var vertical := Vertical(keys);
      var diag := Diagonal(horizontal, vertical, diagonal);
      entity.accelerationX := SPEED * horizontal as real * diag;
      entity.accelerationY := SPEED * vertical as real * diag;
      assert Thrust(keys, diagonal).0 == SPEED * horizontal as real * diag;
      assert Thrust(keys, diagonal).1 == SPEED * vertical as real * diag;
    }

    /** The swing spring's step. */
    method UpdateSwing()
      modifies this`currentSwingAngle, this`targetSwingAngle, this`swingVelocity
      ensures Swing(currentSwingAngle, targetSwingAngle, swingVelocity)
        == SwingStep(Swing(old(currentSwingAngle), old(targetSwingAngle), old(swingVelocity)))
    {
      swingVelocity := swingVelocity + (targetSwingAngle - currentSwingAngle) * 0.1;
      swingVelocity := swingVelocity * 0.65;
      currentSwingAngle := currentSwingAngle + swingVelocity;
      if Abs(swingVelocity) < SWING_REST {
        targetSwingAngle := 0.0;
      }
    }

    /** Facing the cursor at horizontal `distance`, outside the dead zone `deadzone`. */
    method UpdateFacing(distance: real, deadzone: real)
      modifies this`direction, this`scaleX, this`scaleY
      ensures var (d, bump) := Face(old(direction), distance, deadzone);
        direction == d &&
        scaleX == old(scaleX) + (if bump then 0.05 else 0.0) &&
        scaleY == old(scaleY) + (if bump then 0.05 else 0.0)
    {
      if Abs(distance) > deadzone {
        var d := if distance < 0.0 then Left else Right;
        if d != direction {
          scaleX := scaleX + 0.05;
          scaleY := scaleY + 0.05;
        }
        direction := d;
      }
    }

    /** The "click" listener: the swing target toggles between 0 and 120, and the camera shakes. */
    method Click()
      modifies this`targetSwingAngle, camera
      ensures targetSwingAngle == if old(targetSwingAngle) == 120.0 then 0.0 else 120.0
      ensures camera.shakePower == old(camera.shakePower) + 5.0
      ensures camera.targetX == old(camera.targetX) && camera.targetY == old(camera.targetY)
      ensures camera.x == old(camera.x) && camera.y == old(camera.y)
      ensures camera.currentX == old(camera.currentX) && camera.currentY == old(camera.currentY)
      ensures camera.shakeDirection == old(camera.shakeDirection)
    {
      if targetSwingAngle == 120.0 {
        targetSwingAngle := 0.0;
      } else {
        targetSwingAngle := 120.0;
      }
      camera.Shake(5.0);
    }

    /** `animateBlink()` with the draw `random` and the start time `startTime`: a blink of 100 to
      * 300 milliseconds. */
    method AnimateBlink(random: real, startTime: real)
      requires 0.0 <= random < 1.0
      modifies this`blink
      ensures blink == Some(Blink(startTime, 100.0 + random * 200.0))
      ensures 100.0 <= blink.value.duration < 300.0
    {
      blink := Some(Blink(startTime, 100.0 + random * 200.0));
    }

    /** One `blinkFrame(timestamp)`: past the duration the eyes reopen and the blink ends (the next
      * one is scheduled by a timer); otherwise the eye scale follows the blink curve. */
    method BlinkFrame(timestamp: real)
      requires blink.Some? && blink.value.duration > 0.0
      modifies this`eyesScale, this`blink
      ensures var elapsed := timestamp - old(blink).value.startTime;
        if elapsed > old(blink).value.duration then eyesScale == 1.0 && blink.None?
        else eyesScale == EyesScale(elapsed, old(blink).value.duration) && blink == old(blink)
    {
      var elapsed := timestamp - blink.value.startTime;
      var duration := blink.value.duration;
      if elapsed > duration {
        eyesScale := 1.0;
        blink := None;
        return;
      }
      eyesScale := if elapsed < duration / 2.0 then 1.0 - (elapsed * 2.0 / duration)
        else (elapsed * 2.0 - duration) / duration;
    }
  }

  /** `scheduleBlink()`: the delay before the next blink, from the draw `random`. */
  method ScheduleBlink(random: real) returns (delay: real)
    requires 0.0 <= random < 1.0
    ensures 2000.0 <= delay < 5000.0
    ensures delay == 2000.0 + random * 3000.0
  {
    delay := 2000.0 + random * 3000.0;
  }

  // ---------------------------------------------------------------- lemmas

  /** The input acceleration: with `diagonal * diagonal = 1/2`, its squared magnitude is the
    * squared speed whenever some direction key is active, and 0 when none is (or opposite keys
    * cancel). */
  lemma AccelerationMagnitude(keys: map<string, bool>, diagonal: real)
    requires diagonal * diagonal == 0.5
    ensures var h, v := Horizontal(keys), Vertical(keys);
      var ax, ay := SPEED * h as real * Diagonal(h, v, diagonal), SPEED * v as real * Diagonal(h, v, diagonal);
      ax * ax + ay * ay == if h != 0 || v != 0 then SPEED * SPEED else 0.0
  {
    var h, v := Horizontal(keys), Vertical(keys);
    var d := Diagonal(h, v, diagonal);
    var ax, ay := SPEED * h as real * d, SPEED * v as real * d;
    assert h * h <= 1 && v * v <= 1;
    assert ax * ax == SPEED * SPEED * (h * h) as real * (d * d);
    assert ay * ay == SPEED * SPEED * (v * v) as real * (d * d);
    if h != 0 && v != 0 {
      assert h * h == 1 && v * v == 1;
    }
  }

  /** Each update takes the scale a tenth of the way back to 1. */
  lemma EaseTowardsOne(scale: real)
    ensures Ease(scale) - 1.0 == 0.9 * (scale - 1.0)
  {
  }

  /** The facing rule: within the dead zone nothing changes; outside it the direction is that of
    * the cursor, and the scale is bumped exactly when that is a change of direction. */
  lemma FacingFacts(direction: Direction, distance: real, deadzone: real)
    ensures Abs(distance) <= deadzone ==> Face(direction, distance, deadzone) == (direction, false)
    ensures Abs(distance) > deadzone ==>
      Face(direction, distance, deadzone).0 == (if distance < 0.0 then Left else Right)
    ensures Face(direction, distance, deadzone).1 <==> Face(direction, distance, deadzone).0 != direction
  {
  }

  /** The blink curve closes the eyes linearly to 0 at half the duration and opens them again,
    * staying in [0, 1] while the blink runs. */
  lemma BlinkCurve(elapsed: real, duration: real)
    requires duration > 0.0 && 0.0 <= elapsed <= duration
    ensures 0.0 <= EyesScale(elapsed, duration) <= 1.0
    ensures elapsed == duration / 2.0 ==> EyesScale(elapsed, duration) == 0.0
    ensures EyesScale(0.0, duration) == 1.0 && EyesScale(duration, duration) == 1.0
  {
    var t := elapsed * 2.0 / duration;
    assert 0.0 <= t <= 2.0 by {
      assert elapsed * 2.0 <= duration * 2.0;
      DivBounds(elapsed * 2.0, duration, 2.0);
    }
    SubDiv(elapsed * 2.0, duration);
  }

  lemma SubDiv(a: real, d: real)
    requires d > 0.0
    ensures (a - d) / d == a / d - 1.0
  {
    assert (a - d) / d == a / d - d / d;
  }

  lemma DivBounds(x: real, d: real, k: real)
    requires d > 0.0 && 0.0 <= x <= d * k
    ensures 0.0 <= x / d <= k
  {
  }

  /** The swing is a damped spring: from rest a step moves the angle 6.5% of the way to the
    * target (never past it), and a swing at rest on its target drops the target back to 0. */
  lemma SwingPulls(current: real, target: real)
    ensures var r := SwingStep(Swing(current, target, 0.0));
      r.velocity == 0.065 * (target - current) &&
      Min(current, target) <= r.current <= Max(current, target)
    ensures SwingStep(Swing(target, target, 0.0)) == Swing(target, 0.0, 0.0)
  {
  }

  /** The target is dropped to 0 only when the new velocity is below the rest threshold. */
  lemma SwingTargetReset(s: Swing)
    ensures SwingStep(s).target != s.target ==> SwingStep(s).target == 0.0 && Abs(SwingStep(s).velocity) < SWING_REST
    ensures Abs(SwingStep(s).velocity) >= SWING_REST ==> SwingStep(s).target == s.target
  {
  }

  /** The label: none for an empty name, the name itself up to 20 characters, and otherwise its
    * first 19 characters and an ellipsis, 20 characters in all. */
  lemma LabelFacts(name: string)
    ensures Label(name).None? <==> name == ""
    ensures 0 < |name| <= 20 ==> Label(name) == Some(name)
    ensures |name| > 20 ==>
      (|Label(name).value| == 20 && Label(name).value[..19] == name[..19] && Label(name).value[19] == '…')
  {
  }
}
