/**
 * The older camera of camera.js (`Camera`). It applies the same shake decay, smoothing and dead
 * zone as `Camera2D`, with its own constants: speed 5, panning 2, and a dead zone of a quarter of
 * the canvas's client size on both axes. The mouse position it pans by is kept from "mousemove"
 * events; the canvas's client size is passed to each call.
 */
module LegacyCamera {
  import opened Js
  import opened Camera

  const LEGACY_SPEED: real := 5.0
  const LEGACY_PANNING: real := 2.0
  const DISTANCE: real := 0.25

  class LegacyCamera {
    var positionX: real
    var positionY: real
    var currentX: real
    var currentY: real
    var targetX: real
    var targetY: real
    var shakePower: real
    var shakeDirection: real
    var mouseX: real
    var mouseY: real

    constructor()
      ensures positionX == 0.0 && positionY == 0.0 && currentX == 0.0 && currentY == 0.0
      ensures targetX == 0.0 && targetY == 0.0 && shakePower == 0.0 && shakeDirection == 0.0
      ensures mouseX == 0.0 && mouseY == 0.0
    {
      positionX, positionY := 0.0, 0.0;
      currentX, currentY := 0.0, 0.0;
      targetX, targetY := 0.0, 0.0;
      shakePower, shakeDirection := 0.0, 0.0;
      mouseX, mouseY := 0.0, 0.0;
    }

    /** The "mousemove" listener: the pointer relative to the canvas's bounding box. */
    method MouseMove(clientX: real, clientY: real, left: real, top: real)
      modifies this
      ensures mouseX == clientX - left && mouseY == clientY - top
      ensures currentX == old(currentX) && currentY == old(currentY)
      ensures targetX == old(targetX) && targetY == old(targetY) && shakePower == old(shakePower)
      ensures positionX == old(positionX) && positionY == old(positionY)
      ensures shakeDirection == old(shakeDirection)
    {
      mouseX := clientX - left;
      mouseY := clientY - top;
    }

    /** `update(deltaTime)`, with the canvas's client size. */
    method Update(deltaTime: real, clientWidth: real, clientHeight: real, random: real,
                  cos: real -> real, sin: real -> real)
      requires clientWidth != 0.0 && clientHeight != 0.0
      modifies this
      ensures shakePower == DecayShake(old(shakePower))
      ensures shakeDirection == if old(shakePower) != 0.0 then random * PI * 2.0 else old(shakeDirection)
      ensures currentX == Smooth(old(currentX), old(targetX), LEGACY_SPEED * deltaTime)
      ensures currentY == Smooth(old(currentY), old(targetY), LEGACY_SPEED * deltaTime)
      ensures positionX == currentX + LEGACY_PANNING * mouseX / (-clientWidth / 2.0) + cos(shakeDirection) * shakePower
      ensures positionY == currentY + LEGACY_PANNING * mouseY / (-clientHeight / 2.0) + sin(shakeDirection) * shakePower
      ensures targetX == old(targetX) && targetY == old(targetY)
      ensures mouseX == old(mouseX) && mouseY == old(mouseY)
    {
      if shakePower != 0.0 {
        shakeDirection := random * PI * 2.0;
        shakePower := shakePower - shakePower * SHAKE_DECAY;
        if shakePower < SHAKE_THRESHOLD {
          shakePower := 0.0;
        }
      }
      currentX := currentX + (targetX - currentX) * LEGACY_SPEED * deltaTime;
      currentY := currentY + (targetY - currentY) * LEGACY_SPEED * deltaTime;
      var panningX := LEGACY_PANNING * mouseX / (-clientWidth / 2.0);
      var panningY := LEGACY_PANNING * mouseY / (-clientHeight / 2.0);
      var shakeX := cos(shakeDirection) * shakePower;
      var shakeY := sin(shakeDirection) * shakePower;
      positionX := currentX + panningX + shakeX;
      positionY := currentY + panningY + shakeY;
    }

    /** `shake(power)`. */
    method Shake(power: real)
      modifies this
      ensures shakePower == old(shakePower) + power
      ensures positionX == old(positionX) && positionY == old(positionY)
      ensures currentX == old(currentX) && currentY == old(currentY)
      ensures targetX == old(targetX) && targetY == old(targetY) && shakeDirection == old(shakeDirection)
      ensures mouseX == old(mouseX) && mouseY == old(mouseY)
    {
      shakePower := shakePower + power;
    }

    /** `snap(x, y)`: `currentY` is assigned twice, so `currentX` keeps its value. */
    method Snap(px: real, py: real)
      modifies this
      ensures currentX == SnapCurrent(old(currentX), px, py).0 && currentY == SnapCurrent(old(currentX), px, py).1
      ensures targetX == px && targetY == py
      ensures positionX == old(positionX) && positionY == old(positionY) && shakePower == old(shakePower)
      ensures shakeDirection == old(shakeDirection)
      ensures mouseX == old(mouseX) && mouseY == old(mouseY)
    {
      currentY := px;
      currentY := py;
      targetX := px;
      targetY := py;
    }

    /** `focus(x, y)`, with the canvas's client size. */
    method Focus(px: real, py: real, clientWidth: real, clientHeight: real)
      modifies this
      ensures targetX == FocusAxis(old(targetX), px, DISTANCE * clientWidth / 2.0)
      ensures targetY == FocusAxis(old(targetY), py, DISTANCE * clientHeight / 2.0)
      ensures positionX == old(positionX) && positionY == old(positionY)
      ensures currentX == old(currentX) && currentY == old(currentY)
      ensures shakePower == old(shakePower) && shakeDirection == old(shakeDirection)
      ensures mouseX == old(mouseX) && mouseY == old(mouseY)
    {
      var distanceX := DISTANCE * clientWidth / 2.0;
      var distanceY := DISTANCE * clientHeight / 2.0;
      targetX := Min(Max(targetX, px - distanceX), px + distanceX);
      targetY := Min(Max(targetY, py - distanceY), py + distanceY);
    }
  }
}
