/**
 * The image exporter of source/exporter.ts (`Exporter2D`): the bounding-box scan over the render
 * canvas's RGBA bytes, the square crop laid out on the export canvas, and the coalescing loop of
 * `generateImage`. The canvas pixels are the byte sequence `getImageData` returns; drawing the
 * character, `toBlob` and the preview URL are outside the model, and the awaits of each pass are
 * where the requests made meanwhile, and the blob's outcome, enter as the `Pass` records.
 */
module Exporter {
  import opened Js
  import opened Wrappers

  /** The render canvas is 1024 by 1024. */
  const RENDER_SIZE: nat := 1024

  type Byte = x: int | 0 <= x < 256

  /** `Rectangle2D`, with integer coordinates. */
  datatype Rect = Rect(x: int, y: int, w: int, h: int)

  function IMin(a: int, b: int): int { if a <= b then a else b }

  function IMax(a: int, b: int): int { if a >= b then a else b }

  // ---------------------------------------------------------------- bounding box

  /** The alpha byte of pixel (x, y) is inside the `width * height * 4` bytes of the image. */
  lemma PixelIndex(width: nat, height: nat, x: nat, y: nat)
    requires x < width && y < height
    ensures (y * width + x) * 4 + 3 < width * height * 4
  {
    assert y * width + x < (y + 1) * width;
    assert (y + 1) * width <= height * width by {
      RowsBelow(y + 1, height, width);
    }
  }

  lemma RowsBelow(a: nat, b: nat, width: nat)
    requires a <= b
    ensures a * width <= b * width
  {
  }

  /** Pixel (x, y) of a `width` by `height` RGBA image has a nonzero alpha. */
  predicate Opaque(data: seq<Byte>, width: nat, height: nat, x: int, y: int)
    requires |data| == width * height * 4
  {
    0 <= x < width && 0 <= y < height &&
    (PixelIndex(width, height, x, y); data[(y * width + x) * 4 + 3] > 0)
  }

  ghost predicate AnyOpaque(data: seq<Byte>, width: nat, height: nat)
    requires |data| == width * height * 4
  {
    exists x, y :: Opaque(data, width, height, x, y)
  }

  predicate Contains(r: Rect, x: int, y: int)
  {
    r.x <= x < r.x + r.w && r.y <= y < r.y + r.h
  }

  /** Column `x` holds an opaque pixel. */
  ghost predicate OpaqueColumn(data: seq<Byte>, width: nat, height: nat, x: int)
    requires |data| == width * height * 4
  {
    exists y :: Opaque(data, width, height, x, y)
  }

  /** Row `y` holds an opaque pixel. */
  ghost predicate OpaqueRow(data: seq<Byte>, width: nat, height: nat, y: int)
    requires |data| == width * height * 4
  {
    exists x :: Opaque(data, width, height, x, y)
  }

  /** Its first and last columns and its first and last rows each hold an opaque pixel. */
  ghost predicate Tight(data: seq<Byte>, width: nat, height: nat, r: Rect)
    requires |data| == width * height * 4
  {
    OpaqueColumn(data, width, height, r.x) && OpaqueColumn(data, width, height, r.x + r.w - 1) &&
    OpaqueRow(data, width, height, r.y) && OpaqueRow(data, width, height, r.y + r.h - 1)
  }

  /** `getBoundingBox()` over the `width * height * 4` bytes `data`: a first scan, row by row from
    * the top and left to right, stops each row at its first opaque pixel; a second, from the
    * bottom and right to left, stops each row at its last one. With no opaque pixel the box is the
    * whole canvas, except that a 0 by 0 canvas gives a 1 by 1 box. */
  method GetBoundingBox(data: seq<Byte>, width: nat, height: nat) returns (box: Rect)
    requires |data| == width * height * 4
    ensures forall x, y :: Opaque(data, width, height, x, y) ==> Contains(box, x, y)
    ensures AnyOpaque(data, width, height) ==> Tight(data, width, height, box)
    ensures !AnyOpaque(data, width, height) && (width > 0 || height > 0) ==> box == Rect(0, 0, width, height)
    ensures width == 0 && height == 0 ==> box == Rect(0, 0, 1, 1)
    ensures width > 0 || height > 0 ==>
      0 <= box.x && 0 <= box.y && 0 <= box.w && 0 <= box.h && box.x + box.w <= width && box.y + box.h <= height
    ensures width > 0 && height > 0 ==> 0 < box.w && 0 < box.h
  {
    var minX, minY := FirstScan(data, width, height);
    var maxX, maxY;
    ghost var found;
    maxX, maxY, found := LastScan(data, width, height);
    if minX > maxX || minY > maxY {
      box := Rect(0, 0, width, height);
      return;
    }
    assert width > 0 || height > 0 ==> found && minX < width;
    assert width == 0 && height == 0 ==> minX == 0 && minY == 0 && maxX == 0 && maxY == 0;
    box := Rect(minX, minY, maxX - minX + 1, maxY - minY + 1);
  }

  /** The first nested loop: `minX` is the leftmost column and `minY` the top row holding an opaque
    * pixel, or `width` and `height` when there is none. */
  method FirstScan(data: seq<Byte>, width: nat, height: nat) returns (minX: int, minY: int)
    requires |data| == width * height * 4
    ensures 0 <= minX <= width && 0 <= minY <= height
    ensures forall x, y :: Opaque(data, width, height, x, y) ==> minX <= x && minY <= y
    ensures minX < width ==> OpaqueColumn(data, width, height, minX)
    ensures minY < height ==> OpaqueRow(data, width, height, minY)
    ensures minX < width <==> minY < height
  {
    minX, minY := width, height;
    ghost var witnessY, witnessX := 0, 0;
    var y := 0;
    while y < height
      invariant 0 <= y <= height
      invariant 0 <= minX <= width && 0 <= minY <= height
      invariant minX < width <==> minY < height
      invariant forall xx, yy :: yy < y && Opaque(data, width, height, xx, yy) ==> minX <= xx && minY <= yy
      invariant minX < width ==> Opaque(data, width, height, minX, witnessY)
      invariant minY < height ==> Opaque(data, width, height, witnessX, minY)
    {
      var x := 0;
      while x < width
        invariant 0 <= x <= width
        invariant forall xx :: xx < x ==> !Opaque(data, width, height, xx, y)
      {
        PixelIndex(width, height, x, y);
        if data[(y * width + x) * 4 + 3] > 0 {
          if x <= minX {
            witnessY := y;
          }
          if y <= minY {
            witnessX := x;
          }
          minX := IMin(minX, x);
          minY := IMin(minY, y);
          break;
        }
        x := x + 1;
      }
      y := y + 1;
    }
  }

  /** The second nested loop: `maxX` is the rightmost column and `maxY` the bottom row holding an
    * opaque pixel; both stay 0 when there is none, which `found` records. */
  method LastScan(data: seq<Byte>, width: nat, height: nat) returns (maxX: int, maxY: int, ghost found: bool)
    requires |data| == width * height * 4
    ensures found <==> AnyOpaque(data, width, height)
    ensures !found ==> maxX == 0 && maxY == 0
    ensures forall x, y :: Opaque(data, width, height, x, y) ==> x <= maxX && y <= maxY
    ensures found ==> OpaqueColumn(data, width, height, maxX) && OpaqueRow(data, width, height, maxY)
  {
    maxX, maxY := 0, 0;
    found := false;
    ghost var witnessY, witnessX := 0, 0;
    var y := height - 1;
    while y >= 0
      invariant -1 <= y < height
      invariant !found ==> maxX == 0 && maxY == 0
      invariant forall xx, yy :: y < yy && Opaque(data, width, height, xx, yy) ==> found && xx <= maxX && yy <= maxY
      invariant found ==> Opaque(data, width, height, maxX, witnessY) && Opaque(data, width, height, witnessX, maxY)
    {
      var x := width - 1;
      while x >= 0
        invariant -1 <= x < width
        invariant forall xx :: x < xx && Opaque(data, width, height, xx, y) ==> false
      {
        PixelIndex(width, height, x, y);
        if data[(y * width + x) * 4 + 3] > 0 {
          if x >= maxX {
            witnessY := y;
          }
          if y >= maxY {
            witnessX := x;
          }
          maxX := IMax(maxX, x);
          maxY := IMax(maxY, y);
          found := true;
          break;
        }
        x := x - 1;
      }
      y := y - 1;
    }
  }

  // ---------------------------------------------------------------- square crop

  /** The crop of `createSquareCroppedCanvas`: the box with its origin moved to at least 0 and its
    * size cut to what the render canvas holds. */
  function Crop(box: Rect, width: int, height: int): Rect
  {
    var cropX := IMax(0, box.x);
    var cropY := IMax(0, box.y);
    Rect(cropX, cropY, IMin(width - cropX, box.w), IMin(height - cropY, box.h))
  }

  predicate Inside(r: Rect, width: int, height: int)
  {
    0 <= r.x && 0 <= r.y && r.x + r.w <= width && r.y + r.h <= height
  }

  /** The crop always stays inside the render canvas, and a box already inside it (as every
    * bounding box is) is its own crop. */
  lemma CropInside(box: Rect, width: int, height: int)
    ensures 0 <= Crop(box, width, height).x && 0 <= Crop(box, width, height).y
    ensures Crop(box, width, height).x + Crop(box, width, height).w <= width
    ensures Crop(box, width, height).y + Crop(box, width, height).h <= height
    ensures Inside(box, width, height) ==> Crop(box, width, height) == box
  {
  }

  /** The side of the square: the larger of the crop's sides. */
  function SquareSize(crop: Rect): (r: int)
    ensures r >= crop.w && r >= crop.h && (r == crop.w || r == crop.h)
  {
    IMax(crop.w, crop.h)
  }

  /** `squareSize + 2 * Math.round(squareSize * padding)`. */
  function FinalSize(squareSize: int, padding: real): int
  {
    squareSize + Round(squareSize as real * padding) * 2
  }

  /** The `drawImage` call: the source rectangle on the render canvas and the destination on the
    * export canvas. */
  datatype Draw = Draw(sx: int, sy: int, sw: int, sh: int, dx: real, dy: real, dw: real, dh: real)

  /** Where the crop lands on the `exportW` by `exportH` export canvas: scaled by
    * `exportW / finalSize` and centred. A final size of 0 divides by zero, and the draw is then
    * not modelled (None). */
  function Layout(crop: Rect, padding: real, exportW: real, exportH: real): Option<Draw>
  {
    var finalSize := FinalSize(SquareSize(crop), padding);
    if finalSize == 0 then None
    else
      var scale := exportW / finalSize as real;
      Some(Draw(crop.x, crop.y, crop.w, crop.h,
                (exportW - crop.w as real * scale) / 2.0, (exportH - crop.h as real * scale) / 2.0,
                crop.w as real * scale, crop.h as real * scale))
  }

  /** The padded square: with a padding of at least 0 the final size is the square plus twice the
    * rounded padding, never below the square, and both are positive for a nonempty crop. */
  lemma FinalSizeBounds(crop: Rect, padding: real)
    requires padding >= 0.0 && crop.w > 0 && crop.h > 0
    ensures SquareSize(crop) >= 1
    ensures FinalSize(SquareSize(crop), padding) >= SquareSize(crop)
  {
    var s := SquareSize(crop);
    assert s as real * padding >= 0.0 by {
      assert s as real >= 0.0;
    }
  }

  /** The drawn crop is centred on the export canvas, and with a padding of at least 0 it is no
    * wider and no taller than the export canvas's width (the scale is taken from the width on both
    * axes). */
  lemma LayoutCentred(crop: Rect, padding: real, exportW: real, exportH: real)
    requires padding >= 0.0 && crop.w > 0 && crop.h > 0 && exportW >= 0.0
    ensures Layout(crop, padding, exportW, exportH).Some?
    ensures var d := Layout(crop, padding, exportW, exportH).value;
      d.dx * 2.0 + d.dw == exportW && d.dy * 2.0 + d.dh == exportH &&
      (d.sx, d.sy, d.sw, d.sh) == (crop.x, crop.y, crop.w, crop.h)
    ensures var d := Layout(crop, padding, exportW, exportH).value;
      0.0 <= d.dw <= exportW && 0.0 <= d.dh <= exportW
  {
    FinalSizeBounds(crop, padding);
    var f := FinalSize(SquareSize(crop), padding);
    var scale := exportW / f as real;
    assert crop.w <= f && crop.h <= f;
    ScaledBelow(crop.w as real, f as real, exportW);
    ScaledBelow(crop.h as real, f as real, exportW);
  }

  lemma ScaledBelow(side: real, finalSize: real, exportW: real)
    requires 0.0 < side <= finalSize && exportW >= 0.0
    ensures 0.0 <= side * (exportW / finalSize) <= exportW
  {
    var scale := exportW / finalSize;
    assert scale * finalSize == exportW;
    assert scale >= 0.0;
    assert side * scale <= finalSize * scale;
  }

  /** `createSquareCroppedCanvas()` over the render canvas's bytes: the bounding box, its crop, and
    * where the crop is drawn on the export canvas. */
  method CreateSquareCroppedCanvas(data: seq<Byte>, padding: real, exportW: real, exportH: real)
    returns (box: Rect, draw: Option<Draw>)
    requires |data| == RENDER_SIZE * RENDER_SIZE * 4
    ensures forall x, y :: Opaque(data, RENDER_SIZE, RENDER_SIZE, x, y) ==> Contains(box, x, y)
    ensures Inside(box, RENDER_SIZE, RENDER_SIZE) && box.w > 0 && box.h > 0
    ensures draw == Layout(Crop(box, RENDER_SIZE, RENDER_SIZE), padding, exportW, exportH)
    ensures padding >= 0.0 && exportW >= 0.0 ==> draw.Some?
  {
    box := GetBoundingBox(data, RENDER_SIZE, RENDER_SIZE);
    var crop := Crop(box, RENDER_SIZE, RENDER_SIZE);
    CropInside(box, RENDER_SIZE, RENDER_SIZE);
    if padding >= 0.0 && exportW >= 0.0 {
      LayoutCentred(crop, padding, exportW, exportH);
    }
    draw := Layout(crop, padding, exportW, exportH);
  }

  // ---------------------------------------------------------------- generateImage

  /** What happens while one pass awaits `toBlob` and the next animation frame: how many
    * `generateImage` calls arrive, and whether the blob is produced (false: the promise rejects). */
  datatype Pass = Pass(requests: nat, blob: bool)

  /** How a `generateImage` call that finds the exporter idle ends: the number of passes it runs,
    * whether it ends by a rejected blob, and the `queued` flag it leaves. */
  datatype Finish = Finish(runs: nat, failed: bool, queued: bool)

  /** The end of the loop when pass `k` (counting from 0) is about to start; pass `k` sees
    * `passes[k]`, and a pass beyond the sequence sees no request and a blob. */
  function FinishFrom(passes: seq<Pass>, k: nat): (r: Finish)
    ensures r.runs >= k + 1
    decreases |passes| - k
  {
    if k >= |passes| then Finish(k + 1, false, false)
    else if !passes[k].blob then Finish(k + 1, true, passes[k].requests > 0)
    else if passes[k].requests > 0 then FinishFrom(passes, k + 1)
    else Finish(k + 1, false, false)
  }

  class Exporter2D {
    var queued: bool
    var processing: bool

    constructor()
      ensures !queued && !processing
    {
      queued := false;
      processing := false;
    }

    /** `generateImage()`. A call while a pass is running only sets `queued`. Otherwise it runs
      * passes while `queued`, clearing it as each pass starts; the requests of `passes[k]` are
      * calls made while pass `k` awaits, and a rejected blob ends the call with `processing` still
      * set. */
    method GenerateImage(passes: seq<Pass>) returns (runs: nat)
      modifies this
      decreases if processing then 0 else 1
      ensures old(processing) ==> runs == 0 && queued && processing
      ensures !old(processing) ==>
        var f := FinishFrom(passes, 0);
        runs == f.runs && processing == f.failed && queued == f.queued
    {
      queued := true;
      if processing {
        return 0;
      }
      processing := true;
      runs := 0;
      while queued
        invariant processing && runs <= |passes| + 1
        invariant queued ==> runs <= |passes| && FinishFrom(passes, 0) == FinishFrom(passes, runs)
        invariant !queued ==> FinishFrom(passes, 0) == Finish(runs, false, false)
        decreases |passes| + 1 - runs
      {
        queued := false;
        var pass := if runs < |passes| then passes[runs] else Pass(0, true);
        var i := 0;
        while i < pass.requests
          invariant 0 <= i <= pass.requests && processing
          invariant queued <==> i > 0
        {
          var ignored := GenerateImage([]);
          i := i + 1;
        }
        runs := runs + 1;
        if !pass.blob {
          return;
        }
      }
      processing := false;
    }
  }

  /** Each call runs at least its first pass and at most one pass per recorded step plus one. */
  lemma {:induction false} RunsBounds(passes: seq<Pass>, k: nat)
    requires k <= |passes|
    ensures k + 1 <= FinishFrom(passes, k).runs <= |passes| + 1
    decreases |passes| - k
  {
    if k < |passes| && passes[k].blob && passes[k].requests > 0 {
      RunsBounds(passes, k + 1);
    }
  }

  /** Every pass but the last received a blob and saw at least one request: a new pass starts only
    * when a request arrived during the previous one. */
  lemma {:induction false} OnlyRequestsContinue(passes: seq<Pass>, k: nat, j: nat)
    requires k <= j && j + 1 < FinishFrom(passes, k).runs
    ensures j < |passes| && passes[j].blob && passes[j].requests > 0
    decreases |passes| - k
  {
    if k < |passes| && passes[k].blob && passes[k].requests > 0 && k < j {
      OnlyRequestsContinue(passes, k + 1, j);
    }
  }

  /** How the loop ends: either the last pass saw no request and `processing` is cleared, or its
    * blob was rejected and `queued` records whether requests came during it. */
  lemma {:induction false} LastPass(passes: seq<Pass>, k: nat)
    ensures var f := FinishFrom(passes, k); var last := f.runs - 1;
      !f.failed ==> !f.queued && (last >= |passes| || (passes[last].blob && passes[last].requests == 0))
    ensures var f := FinishFrom(passes, k); var last := f.runs - 1;
      f.failed ==> last < |passes| && !passes[last].blob && f.queued == (passes[last].requests > 0)
    decreases |passes| - k
  {
    if k < |passes| && passes[k].blob && passes[k].requests > 0 {
      LastPass(passes, k + 1);
    }
  }

  /** However many requests arrive during a pass, they cause exactly one more pass: only whether
    * there was one matters. */
  lemma {:induction false} BurstIsOneRequest(passes: seq<Pass>, k: nat, i: nat, n: nat)
    requires i < |passes| && passes[i].requests > 0 && n > 0
    ensures FinishFrom(passes[i := Pass(n, passes[i].blob)], k) == FinishFrom(passes, k)
    decreases |passes| - k
  {
    if k < |passes| && passes[k].blob && passes[k].requests > 0 {
      BurstIsOneRequest(passes, k + 1, i, n);
    }
  }
}
