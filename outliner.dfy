/**
 * The sprite outliner (source/outliner.ts). Its scratch canvas is a `Canvas` object whose 2D
 * context operations are recorded, in order, as `Op`s. A draw of the canvas onto itself at the
 * offset `(cos(angle) * radius, sin(angle) * radius)` is recorded as `Stamp(angle, radius)`:
 * the cosine and sine are not evaluated. The rendering callback is opaque and recorded as
 * `Callback`.
 */
module Outliner {
  import opened Js

  const THICKNESS_PRECISION: real := 0.1

  /** One of the offsets `generateOffsets` returns, in polar form. */
  datatype Offset = Offset(angle: real, radius: real)

  /** A 2D context operation. */
  datatype Op =
    | SetTransformIdentity
    | ClearRect(width: real, height: real)
    | Save
    | Restore
    | Translate(dx: real, dy: real)
    | Callback
    | Composite(mode: string)
    | Stamp(angle: real, radius: real)
    | FillStyle(color: string)
    | FillRect(width: real, height: real)

  /** `Math.max(8, Math.ceil(circumference * THICKNESS_PRECISION))` for the circle of radius
    * `lineWidth`. */
  function StepCount(lineWidth: real): (n: nat)
    ensures n >= 8
    ensures n >= Ceil(2.0 * PI * lineWidth * THICKNESS_PRECISION)
    ensures n == 8 || n == Ceil(2.0 * PI * lineWidth * THICKNESS_PRECISION)
  {
    var c := Ceil(2.0 * PI * lineWidth * THICKNESS_PRECISION);
    if c >= 8 then c else 8
  }

  /** The angle of offset `index` out of `stepCount`: `(index * 2 * Math.PI) / stepCount`. */
  function Angle(index: nat, stepCount: nat): real
    requires stepCount > 0
  {
    (index as real * 2.0 * PI) / stepCount as real
  }

  /** What `generateOffsets(lineWidth)` returns. */
  function Offsets(lineWidth: real): (r: seq<Offset>)
    ensures |r| == StepCount(lineWidth)
    ensures forall i :: 0 <= i < |r| ==> r[i] == Offset(Angle(i, |r|), lineWidth)
  {
    var n := StepCount(lineWidth);
    seq(n, i requires 0 <= i < n => Offset(Angle(i, n), lineWidth))
  }

  /** The draws of the stamping loop, one per offset. */
  function Stamps(offsets: seq<Offset>): (r: seq<Op>)
    ensures |r| == |offsets|
    ensures forall i :: 0 <= i < |offsets| ==> r[i] == Stamp(offsets[i].angle, offsets[i].radius)
  {
    seq(|offsets|, i requires 0 <= i < |offsets| => Stamp(offsets[i].angle, offsets[i].radius))
  }

  /** `save`, `translate(width / 2, height / 2)`, the callback, `restore`. */
  function CallbackBlock(width: real, height: real): seq<Op>
  {
    [Save, Translate(width / 2.0, height / 2.0), Callback, Restore]
  }

  /** The operations `process` issues on the context. */
  function ProcessTrace(width: real, height: real, color: string, thickness: real): seq<Op>
  {
    var first := [SetTransformIdentity, ClearRect(width, height)] + CallbackBlock(width, height);
    if thickness < THICKNESS_PRECISION then first
    else
      first + [Save, Composite("destination-over")] + Stamps(Offsets(thickness))
        + [Composite("source-in"), FillStyle(color), FillRect(width, height), Restore]
        + CallbackBlock(width, height)
  }

  /** `generateOffsets(lineWidth)`: the loop pushing one offset per step. */
  method GenerateOffsets(lineWidth: real) returns (offsets: seq<Offset>)
    ensures offsets == Offsets(lineWidth)
  {
    var stepCount := StepCount(lineWidth);
    offsets := [];
    var index := 0;
    while index < stepCount
      invariant 0 <= index <= stepCount
      invariant |offsets| == index
      invariant forall i :: 0 <= i < index ==> offsets[i] == Offset(Angle(i, stepCount), lineWidth)
    {
      var angle := (index as real * 2.0 * PI) / stepCount as real;
      offsets := offsets + [Offset(angle, lineWidth)];
      index := index + 1;
    }
  }

  /** The scratch canvas and the operations issued on its context. */
  class Canvas {
    var width: real
    var height: real
    var ops: seq<Op>

    constructor(width: real, height: real)
      ensures this.width == width && this.height == height && ops == []
    {
      this.width := width;
      this.height := height;
      ops := [];
    }
  }

  class Outliner {
    const canvas: Canvas

    /** A 1000 by 1000 scratch canvas. */
    constructor()
      ensures fresh(canvas) && canvas.width == 1000.0 && canvas.height == 1000.0 && canvas.ops == []
    {
      canvas := new Canvas(1000.0, 1000.0);
    }

    /** `process(width, height, color, thickness, callback)`: the canvas is resized to exactly
      * (width, height), the operations of `ProcessTrace` are issued, and the same canvas is
      * returned. */
    method Process(width: real, height: real, color: string, thickness: real) returns (result: Canvas)
      modifies canvas
      ensures result == canvas
      ensures canvas.width == width && canvas.height == height
      ensures canvas.ops == old(canvas.ops) + ProcessTrace(width, height, color, thickness)
    {
      canvas.width := width;
      canvas.height := height;
      var first := [SetTransformIdentity, ClearRect(width, height)] + CallbackBlock(width, height);
      canvas.ops := canvas.ops + first;
      if thickness < THICKNESS_PRECISION {
        return canvas;
      }
      var offsets := GenerateOffsets(thickness);
      var stamps := StampAll(offsets);
      var rest := [Save, Composite("destination-over")] + stamps
        + [Composite("source-in"), FillStyle(color), FillRect(width, height), Restore]
        + CallbackBlock(width, height);
      assert ProcessTrace(width, height, color, thickness) == first + rest;
      canvas.ops := canvas.ops + rest;
      return canvas;
    }
  }

  /** The loop `for (const offset of offsets) drawImage(...)`. */
  method StampAll(offsets: seq<Offset>) returns (ops: seq<Op>)
    ensures ops == Stamps(offsets)
  {
    ops := [];
    var i := 0;
    while i < |offsets|
      invariant 0 <= i <= |offsets|
      invariant |ops| == i
      invariant forall k :: 0 <= k < i ==> ops[k] == Stamp(offsets[k].angle, offsets[k].radius)
    {
      ops := ops + [Stamp(offsets[i].angle, offsets[i].radius)];
      i := i + 1;
    }
  }

  // ---------------------------------------------------------------- lemmas

  /** `Math.ceil` is monotone. */
  lemma CeilMonotone(x: real, y: real)
    requires x <= y
    ensures Ceil(x) <= Ceil(y)
  {
    var cx, cy := Ceil(x), Ceil(y);
    assert cx as real - 1.0 < x <= y <= cy as real;
  }

  /** A thicker outline never uses fewer stamps. */
  lemma StepCountMonotone(a: real, b: real)
    requires a <= b
    ensures StepCount(a) <= StepCount(b)
  {
    var k := 2.0 * PI * THICKNESS_PRECISION;
    assert 2.0 * PI * a * THICKNESS_PRECISION == k * a;
    assert 2.0 * PI * b * THICKNESS_PRECISION == k * b;
    CeilMonotone(k * a, k * b);
  }

  /** The offsets go once round the circle: the angles start at 0, grow by exactly 2π / n from
    * one offset to the next, and stay below 2π. */
  lemma AnglesSpanCircle(n: nat, i: nat)
    requires n > 0 && i < n
    ensures Angle(0, n) == 0.0
    ensures 0.0 <= Angle(i, n) < 2.0 * PI
    ensures i + 1 < n ==> Angle(i + 1, n) - Angle(i, n) == 2.0 * PI / n as real
  {
    var a, m := 2.0 * PI, n as real;
    assert Angle(i, n) == i as real * a / m;
    assert i as real * a < m * a;
    DivBelow(i as real * a, m, a);
    assert (i as real + 1.0) * a / m - i as real * a / m == a / m;
  }

  lemma DivBelow(x: real, m: real, a: real)
    requires m > 0.0 && 0.0 <= x < m * a
    ensures 0.0 <= x / m < a
  {
  }

  /** Below the threshold the trace is the clear and a single callback: no stamp, no fill and no
    * change of compositing mode. */
  lemma ThinOutline(width: real, height: real, color: string, thickness: real)
    requires thickness < THICKNESS_PRECISION
    ensures var t := ProcessTrace(width, height, color, thickness);
      t == [SetTransformIdentity, ClearRect(width, height), Save, Translate(width / 2.0, height / 2.0),
            Callback, Restore]
    ensures var t := ProcessTrace(width, height, color, thickness);
      forall i :: 0 <= i < |t| ==> !t[i].Stamp? && !t[i].FillRect? && !t[i].Composite?
  {
  }

  /** At or above the threshold the trace is, in order: the clear, the callback, one
    * destination-over stamp per offset, one source-in fill of the whole canvas with the colour,
    * and the callback again. */
  lemma ThickOutline(width: real, height: real, color: string, thickness: real)
    requires thickness >= THICKNESS_PRECISION
    ensures var t, n := ProcessTrace(width, height, color, thickness), StepCount(thickness);
      |t| == n + 16 &&
      t[..6] == [SetTransformIdentity, ClearRect(width, height), Save, Translate(width / 2.0, height / 2.0),
                 Callback, Restore] &&
      t[6..8] == [Save, Composite("destination-over")] &&
      (forall i :: 8 <= i < 8 + n ==> t[i] == Stamp(Angle(i - 8, n), thickness)) &&
      t[8 + n..] == [Composite("source-in"), FillStyle(color), FillRect(width, height), Restore,
                     Save, Translate(width / 2.0, height / 2.0), Callback, Restore]
  {
    var n := StepCount(thickness);
    var first := [SetTransformIdentity, ClearRect(width, height)] + CallbackBlock(width, height);
    var stamps := Stamps(Offsets(thickness));
    var last := [Composite("source-in"), FillStyle(color), FillRect(width, height), Restore]
      + CallbackBlock(width, height);
    var t := ProcessTrace(width, height, color, thickness);
    assert t == first + [Save, Composite("destination-over")] + stamps + last;
    assert forall i :: 8 <= i < 8 + n ==> t[i] == stamps[i - 8];
    assert t[8 + n..] == last;
  }

  /** At or above the threshold the callback runs exactly twice: before the stamps and last. */
  lemma ThickOutlineCallbacks(width: real, height: real, color: string, thickness: real)
    requires thickness >= THICKNESS_PRECISION
    ensures var t := ProcessTrace(width, height, color, thickness);
      t[4] == Callback && t[|t| - 2] == Callback &&
      forall i :: 0 <= i < |t| && t[i] == Callback ==> i == 4 || i == |t| - 2
  {
    ThickOutline(width, height, color, thickness);
    var t, n := ProcessTrace(width, height, color, thickness), StepCount(thickness);
    assert forall i :: 0 <= i < 6 ==> t[i] == t[..6][i];
    assert forall i :: 6 <= i < 8 ==> t[i] == t[6..8][i - 6];
    assert forall i :: 8 + n <= i < |t| ==> t[i] == t[8 + n..][i - 8 - n];
    assert t[4] == t[..6][4];
    assert t[|t| - 2] == t[8 + n..][6];
  }
}
