/**
 * The camera of source/camera.ts (`Camera2D`), and the update rules it shares with the older
 * camera.js: shake decay, smoothing of `current` towards `target`, and the dead zone of `focus`.
 * The canvas the camera reads is passed to each call as a `View`; `Math.random()` is the draw
 * `random`, and `Math.cos`/`Math.sin` are the parameters `cos` and `sin`.
 */
module Camera {
  import opened Js

  const SHAKE_THRESHOLD: real := 0.1
  const SHAKE_DECAY: real := 0.2

  /** The canvas size and the cursor position the camera reads. */
  datatype View = View(width: real, height: real, cursorX: real, cursorY: real)

  // ---------------------------------------------------------------- shared rules

  /** The shake power after one update: a nonzero power loses `shakeDecay` of itself and is cut to
    * 0 once below `shakeThreshold`; zero stays zero. */
  function DecayShake(p: real): (r: real)
    ensures r == 0.0 || r >= SHAKE_THRESHOLD
    ensures p == 0.0 ==> r == 0.0
    ensures p >= 0.0 ==> 0.0 <= r <= p
    ensures p > 0.0 && r != 0.0 ==> r == 0.8 * p
  {
    if p == 0.0 then p
    else
      var q := p - p * SHAKE_DECAY;
      if q < SHAKE_THRESHOLD then 0.0 else q
  }

  /** The shake power after `k` updates. */
  function Decayed(p: real, k: nat): real
    decreases k
  {
    if k == 0 then p else Decayed(DecayShake(p), k - 1)
  }

  /** The number of updates that bring the shake power `p` to 0. */
  function SettleSteps(p: real): nat
    decreases if p == 0.0 then 0 else if p < 0.0 then 1 else (p * 50.0).Floor + 2
  {
    if p == 0.0 then 0
    else
      var q := DecayShake(p);
      assert q == 0.0 || (p > 0.0 && (q * 50.0).Floor < (p * 50.0).Floor) by {
        if q != 0.0 && p > 0.0 {
          FloorDrops(p, q);
        }
      }
      1 + SettleSteps(q)
  }

  /** Smoothing: `current` moves by the fraction `k` of its gap to `target`. */
  function Smooth(current: real, target: real, k: real): real
  {
    current + (target - current) * k
  }

  /** `Math.min(Math.max(target, point - distance), point + distance)`. */
  function FocusAxis(target: real, point: real, distance: real): real
  {
    Min(Max(target, point - distance), point + distance)
  }

  /** The smoothed point `snap(x, y)` leaves, as written: `current.y` is assigned `x` and then `y`,
    * so `current.x` keeps its value. */
  function SnapCurrent(currentX: real, px: real, py: real): (real, real)
  {
    (currentX, py)
  }

  /** The smoothed point `snap(x, y)` evidently means to leave: the point itself, as the target. */
  function SnapCurrentIntended(px: real, py: real): (real, real)
  {
    (px, py)
  }

  // ---------------------------------------------------------------- Camera2D

  const PANNING: real := 5.0
  const SPEED: real := 2.0
  const DRAG_X: real := 0.1
  const DRAG_Y: real := 0.25

  class Camera2D {
    /** The camera position (`Camera2D` extends `Vector2D`). */
    var x: real
    var y: real
    var currentX: real
    var currentY: real
    var targetX: real
    var targetY: real
    var shakePower: real
    var shakeDirection: real

    constructor()
      ensures x == 0.0 && y == 0.0 && currentX == 0.0 && currentY == 0.0
      ensures targetX == 0.0 && targetY == 0.0 && shakePower == 0.0 && shakeDirection == 0.0
    {
      x, y := 0.0, 0.0;
      currentX, currentY := 0.0, 0.0;
      targetX, targetY := 0.0, 0.0;
      shakePower, shakeDirection := 0.0, 0.0;
    }

    /** `update(deltaTime)`: the shake decays (with a fresh direction while it is nonzero),
      * `current` is smoothed towards `target`, and the position is `current` plus the cursor
      * panning plus the shake offset. */
    method Update(deltaTime: real, view: View, random: real, cos: real -> real, sin: real -> real)
      requires view.width != 0.0 && view.height != 0.0
      modifies this
      ensures shakePower == DecayShake(old(shakePower))
      ensures shakeDirection == if old(shakePower) != 0.0 then random * PI * 2.0 else old(shakeDirection)
      ensures currentX == Smooth(old(currentX), old(targetX), SPEED * deltaTime)
      ensures currentY == Smooth(old(currentY), old(targetY), SPEED * deltaTime)
      ensures x == currentX + PANNING * view.cursorX / (-view.width / 2.0) + cos(shakeDirection) * shakePower
      ensures y == currentY + PANNING * view.cursorY / (-view.height / 2.0) + sin(shakeDirection) * shakePower
      ensures targetX == old(targetX) && targetY == old(targetY)
    {
      if shakePower != 0.0 {
        shakeDirection := random * PI * 2.0;
        shakePower := shakePower - shakePower * SHAKE_DECAY;
        if shakePower < SHAKE_THRESHOLD {
          shakePower := 0.0;
        }
      }
      currentX := currentX + (targetX - currentX) * SPEED * deltaTime;
      currentY := currentY + (targetY - currentY) * SPEED * deltaTime;
      var panningX := PANNING * view.cursorX / (-view.width / 2.0);
      var panningY := PANNING * view.cursorY / (-view.height / 2.0);
      var shakeX := cos(shakeDirection) * shakePower;
      var shakeY := sin(shakeDirection) * shakePower;
      x := currentX + panningX + shakeX;
      y := currentY + panningY + shakeY;
    }

    /** `shake(power)`. */
    method Shake(power: real)
      modifies this
      ensures shakePower == old(shakePower) + power
      ensures x == old(x) && y == old(y) && currentX == old(currentX) && currentY == old(currentY)
      ensures targetX == old(targetX) && targetY == old(targetY) && shakeDirection == old(shakeDirection)
    {
      shakePower := shakePower + power;
    }

    /** `snap(x, y)`: `current.y` is assigned twice, first `x` then `y`, so `current.x` keeps its
      * value while `target` becomes (x, y). */
    method Snap(px: real, py: real)
      modifies this
      ensures currentX == SnapCurrent(old(currentX), px, py).0 && currentY == SnapCurrent(old(currentX), px, py).1
      ensures targetX == px && targetY == py
      ensures x == old(x) && y == old(y) && shakePower == old(shakePower)
      ensures shakeDirection == old(shakeDirection)
    {
      currentY := px;
      currentY := py;
      targetX := px;
      targetY := py;
    }

    /** `focus(x, y)`: the target is pulled into the dead zone of half-size `drag * size / 2` around
      * the point. */
    method Focus(px: real, py: real, view: View)
      modifies this
      ensures targetX == FocusAxis(old(targetX), px, DRAG_X * view.width / 2.0)
      ensures targetY == FocusAxis(old(targetY), py, DRAG_Y * view.height / 2.0)
      ensures x == old(x) && y == old(y) && currentX == old(currentX) && currentY == old(currentY)
      ensures shakePower == old(shakePower) && shakeDirection == old(shakeDirection)
    {
      var distanceX := DRAG_X * view.width / 2.0;
      var distanceY := DRAG_Y * view.height / 2.0;
      targetX := Min(Max(targetX, px - distanceX), px + distanceX);
      targetY := Min(Max(targetY, py - distanceY), py + distanceY);
    }
  }

  // ---------------------------------------------------------------- lemmas

  lemma FloorDrops(p: real, q: real)
    requires p > 0.0 && q == 0.8 * p && q >= SHAKE_THRESHOLD
    ensures (q * 50.0).Floor < (p * 50.0).Floor
  {
    var a, b := p * 50.0, q * 50.0;
    assert a - b == 10.0 * p;
    assert p >= 0.125;
    assert b.Floor as real <= b <= a - 1.0 < (a.Floor + 1) as real - 1.0;
  }

  /** Every shake dies out: after `SettleSteps(p)` updates the power is exactly 0, and it stays 0
    * from then on. */
  lemma {:induction false} ShakeSettles(p: real, extra: nat)
    ensures Decayed(p, SettleSteps(p)) == 0.0
    ensures Decayed(p, SettleSteps(p) + extra) == 0.0
    decreases SettleSteps(p)
  {
    if p != 0.0 {
      var q := DecayShake(p);
      ShakeSettles(q, extra);
      assert SettleSteps(p) == 1 + SettleSteps(q);
    } else {
      ZeroStaysZero(extra);
    }
  }

  lemma {:induction false} ZeroStaysZero(k: nat)
    ensures Decayed(0.0, k) == 0.0
    decreases k
  {
    if k > 0 {
      ZeroStaysZero(k - 1);
    }
  }

  /** A positive shake settles within `floor(50 p) + 1` updates: each update that keeps it
    * above the threshold removes at least 0.02 of it. */
  lemma {:induction false} SettleBound(p: real)
    requires p > 0.0
    ensures SettleSteps(p) <= (p * 50.0).Floor + 1
    decreases (p * 50.0).Floor + 2
  {
    var q := DecayShake(p);
    if q != 0.0 {
      FloorDrops(p, q);
      SettleBound(q);
    }
  }

  /** Smoothing with `0 <= k <= 1` keeps `current` between its old value and the target, lands on
    * the target for `k = 1` and stays put for `k = 0`. */
  /** As written, a snap away from `current.x` does not snap horizontally: the smoothed x is still
    * off the target, and the next update (smoothing fraction `k` other than 1) glides towards the
    * target instead of staying on it. */
  lemma SnapGlides(currentX: real, px: real, py: real, k: real)
    requires currentX != px && k != 1.0
    ensures var c := SnapCurrent(currentX, px, py);
      c.0 != px && Smooth(c.0, px, k) != px
  {
    var c := SnapCurrent(currentX, px, py);
    assert Smooth(c.0, px, k) - px == (currentX - px) * (1.0 - k);
    var a, b := currentX - px, 1.0 - k;
    if a > 0.0 {
      if b > 0.0 { assert a * b > 0.0; } else { assert a * b < 0.0; }
    } else {
      if b > 0.0 { assert a * b < 0.0; } else { assert a * b > 0.0; }
    }
  }

  /** The intended snap puts the smoothed point on the target, where every later smoothing step
    * leaves it, whatever the fraction `k`. */
  lemma SnapIntendedRests(px: real, py: real, k: real)
    ensures var c := SnapCurrentIntended(px, py);
      c.0 == px && c.1 == py && Smooth(c.0, px, k) == px && Smooth(c.1, py, k) == py
  {
  }

  lemma SmoothBetween(current: real, target: real, k: real)
    requires 0.0 <= k <= 1.0
    ensures Min(current, target) <= Smooth(current, target, k) <= Max(current, target)
    ensures k == 1.0 ==> Smooth(current, target, k) == target
    ensures k == 0.0 ==> Smooth(current, target, k) == current
  {
    var g := target - current;
    if g >= 0.0 {
      assert 0.0 <= g * k <= g;
    } else {
      assert g <= g * k <= 0.0;
    }
  }

  /** The dead zone: the focused target is within `distance` of the point; a target already
    * within it is unchanged, and a target that moves lands exactly on the edge of the zone. */
  lemma FocusFacts(target: real, point: real, distance: real)
    requires distance >= 0.0
    ensures Abs(FocusAxis(target, point, distance) - point) <= distance
    ensures Abs(target - point) <= distance ==> FocusAxis(target, point, distance) == target
    ensures FocusAxis(target, point, distance) != target ==>
      Abs(FocusAxis(target, point, distance) - point) == distance
  {
  }
}
