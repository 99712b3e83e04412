/**
 * The p5.js demo: mouse handlers keep a running bounding box of the stroke
 * in sketch-wide variables; on release the box is padded, rounded outwards,
 * clamped to the canvas and classified, and the result becomes a canonical
 * Shape appended to the list of persisted shapes.
 *
 * Pixels, the crop-and-scale into the 28x28 buffer and the tensor calls are
 * not modelled: what the classifier returns is a parameter of the release.
 */
module Sketch {
  import opened Numeric
  import opened Decision

  /** The p5 demo's vocabulary. */
  const Classes: seq<string> := ["circle", "square", "triangle", "star", "other"]

  /** Fraction of the box trimmed on each side of the canonical shape. */
  const FitMargin: real := 0.10

  /** A persisted canonical shape: centre, main size and stroke weight. */
  datatype Shape = Shape(kind: string, cx: real, cy: real, size: real, strokeW: real)

  /** The padded crop rectangle in whole pixels: corners x0..x1, y0..y1 and its size. */
  datatype Crop = Crop(x0: int, y0: int, x1: int, y1: int, w: int, h: int)

  /** What happens to the prediction started on release. */
  datatype Readback =
    | Throws                    // `fromPixels` or `model.predict` throws synchronously
    | Rejected                  // `out.array()` rejects: the `then` callback never runs
    | Probs(probs: seq<real>)   // the first row of the output

  /** `insideCanvas(x, y)`: the point falls on one of the canvas pixels. */
  predicate InsideCanvas(x: real, y: real, width: int, height: int)
    ensures InsideCanvas(x, y, width, height) <==>
      0 <= x.Floor < width && 0 <= y.Floor < height
  {
    0.0 <= x < width as real && 0.0 <= y < height as real
  }

  /** p5's `constrain(n, low, high)`, that is `max(min(n, high), low)`: the nearest point of [low, high]. */
  function Constrain(n: int, low: int, high: int): (r: int)
    ensures low <= high ==> low <= r <= high
    ensures low <= n <= high ==> r == n
    ensures low <= high ==> forall m :: low <= m <= high ==> Dist(r, n) <= Dist(m, n)
  {
    IntMax(IntMin(n, high), low)
  }

  /** r is v rounded down and then clamped to [0, hi]. */
  predicate IsClampedFloor(v: real, hi: int, r: int)
  {
    && (v < 0.0 ==> r == 0)
    && (v >= hi as real ==> r == hi)
    && (0.0 <= v < hi as real ==> r as real <= v < r as real + 1.0)
  }

  /** r is v rounded up and then clamped to [0, hi]. */
  predicate IsClampedCeil(v: real, hi: int, r: int)
  {
    && (v <= 0.0 ==> r == 0)
    && (v > hi as real ==> r == hi)
    && (0.0 < v <= hi as real ==> r as real - 1.0 < v <= r as real)
  }

  /**
   * The padded crop box of `predictFromDrawingAndPersist`: the box grown by
   * `pad`, its lower corner rounded down and its upper corner rounded up,
   * each corner clamped to [0, size-1], and a size of at least one pixel.
   */
  function CropBox(minX: real, minY: real, maxX: real, maxY: real, pad: int, width: int, height: int): (c: Crop)
    requires width >= 1 && height >= 1
    ensures IsClampedFloor(minX - pad as real, width - 1, c.x0)
    ensures IsClampedFloor(minY - pad as real, height - 1, c.y0)
    ensures IsClampedCeil(maxX + pad as real, width - 1, c.x1)
    ensures IsClampedCeil(maxY + pad as real, height - 1, c.y1)
    ensures c.x1 > c.x0 ==> c.w == c.x1 - c.x0
    ensures c.x1 <= c.x0 ==> c.w == 1
    ensures c.y1 > c.y0 ==> c.h == c.y1 - c.y0
    ensures c.y1 <= c.y0 ==> c.h == 1
    ensures 0 <= c.x0 <= width - 1 && 0 <= c.x1 <= width - 1
    ensures 0 <= c.y0 <= height - 1 && 0 <= c.y1 <= height - 1
    ensures c.w >= 1 && c.h >= 1
    ensures c.x0 + c.w <= width && c.y0 + c.h <= height
    ensures minX <= maxX && pad >= 0 ==> c.x0 <= c.x1
    ensures minY <= maxY && pad >= 0 ==> c.y0 <= c.y1
    // The last column (row) is read only by a crop that starts on it.
    ensures c.x0 < width - 1 ==> c.x0 + c.w <= width - 1
    ensures c.y0 < height - 1 ==> c.y0 + c.h <= height - 1
  {
    var x0 := Constrain((minX - pad as real).Floor, 0, width - 1);
    var y0 := Constrain((minY - pad as real).Floor, 0, height - 1);
    var x1 := Constrain(Ceil(maxX + pad as real), 0, width - 1);
    var y1 := Constrain(Ceil(maxY + pad as real), 0, height - 1);
    Crop(x0, y0, x1, y1, IntMax(1, x1 - x0), IntMax(1, y1 - y0))
  }

  /**
   * The region `get(x0, y0, w, h)` reads, [x0, x0+w) by [y0, y0+h), holds
   * every point of the half-open padded box [min-pad, max+pad) that lies
   * before the last canvas column and row. With a padding of at least one
   * pixel this includes every point of the stroke away from that column
   * and row.
   */
  lemma CropCoversPaddedBox(minX: real, minY: real, maxX: real, maxY: real, pad: int,
                            width: int, height: int, x: real, y: real)
    requires width >= 1 && height >= 1
    requires minX - pad as real <= x < maxX + pad as real && 0.0 <= x < (width - 1) as real
    requires minY - pad as real <= y < maxY + pad as real && 0.0 <= y < (height - 1) as real
    ensures var c := CropBox(minX, minY, maxX, maxY, pad, width, height);
      c.x0 as real <= x < (c.x0 + c.w) as real && c.y0 as real <= y < (c.y0 + c.h) as real
  {
    var c := CropBox(minX, minY, maxX, maxY, pad, width, height);
    assert c.x0 as real <= x by {
      if minX - pad as real >= (width - 1) as real {
        assert false;
      }
    }
    assert c.y0 as real <= y by {
      if minY - pad as real >= (height - 1) as real {
        assert false;
      }
    }
  }

  /**
   * A stroke that reaches into the last canvas column is cut: with the box
   * (555, 100)-(559.5, 100) and the default padding 12 on the 560x560
   * canvas, the on-canvas point (559.5, 100) lies outside the region read.
   */
  lemma StrokeOnLastColumnIsCut()
    ensures InsideCanvas(559.5, 100.0, 560, 560)
    ensures var c := CropBox(555.0, 100.0, 559.5, 100.0, 12, 560, 560);
      c.x0 == 543 && c.x1 == 559 && c.x0 + c.w == 559 && 559.5 >= (c.x0 + c.w) as real
  {
    var c := CropBox(555.0, 100.0, 559.5, 100.0, 12, 560, 560);
    assert (555.0 - 12.0).Floor == 543;
    assert Ceil(559.5 + 12.0) == 572;
  }

  /** The canonical shape made from a crop box: centre, fitted size and clamped stroke weight. */
  function Descriptor(kind: string, c: Crop): (s: Shape)
    requires c.w >= 1 && c.h >= 1
    ensures s.kind == kind
    ensures s.cx == (c.x0 as real + (c.x0 + c.w) as real) / 2.0
    ensures s.cy == (c.y0 as real + (c.y0 + c.h) as real) / 2.0
    ensures s.size == 0.8 * Min(c.w as real, c.h as real) && s.size >= 0.8
    ensures 4.0 <= s.strokeW <= 20.0
    ensures s.size * 0.07 < 4.0 ==> s.strokeW == 4.0
    ensures s.size * 0.07 > 20.0 ==> s.strokeW == 20.0
    ensures 4.0 <= s.size * 0.07 <= 20.0 ==> s.strokeW == s.size * 0.07
  {
    var cx := c.x0 as real + c.w as real / 2.0;
    var cy := c.y0 as real + c.h as real / 2.0;
    var side := Min(c.w as real, c.h as real);
    var size := side * (1.0 - FitMargin * 2.0);
    var strokeW := Max(4.0, Min(20.0, size * 0.07));
    Shape(kind, cx, cy, size, strokeW)
  }

  class Sketch {
    const width: int
    const height: int
    /** The load promise has assigned `model`. */
    var modelLoaded: bool
    var isDrawing: bool
    var drewAnything: bool
    var minX: real
    var minY: real
    var maxX: real
    var maxY: real
    var shapes: seq<Shape>

    /** The empty box `resetCanvas` installs: (width, height, 0, 0). */
    predicate IsReset()
      reads this
    {
      minX == width as real && minY == height as real && maxX == 0.0 && maxY == 0.0
    }

    /**
     * A stroke in progress has been started; a started stroke has a proper
     * box; when nothing was drawn the box is the reset sentinel.
     */
    ghost predicate Valid()
      reads this
    {
      && width >= 1 && height >= 1
      && (isDrawing ==> drewAnything)
      && (drewAnything ==> minX <= maxX && minY <= maxY)
      && (!drewAnything ==> IsReset())
    }

    /** `setup()`: a 560x560 canvas, no shapes, the model still loading, then `resetCanvas()`. */
    constructor Setup()
      ensures Valid() && width == 560 && height == 560
      ensures shapes == [] && !modelLoaded && !isDrawing && !drewAnything
    {
      width, height := 560, 560;
      modelLoaded := false;
      shapes := [];
      isDrawing, drewAnything := false, false;
      minX, minY := 560.0, 560.0;
      maxX, maxY := 0.0, 0.0;
    }

    /** The load promise resolves: `model = m`. */
    method ModelLoaded()
      requires Valid()
      modifies this`modelLoaded
      ensures Valid() && modelLoaded
    {
      modelLoaded := true;
    }

    /** `resetCanvas()`: forget the stroke in progress. */
    method ResetCanvas()
      requires Valid()
      modifies this`isDrawing, this`drewAnything, this`minX, this`minY, this`maxX, this`maxY
      ensures Valid() && !isDrawing && !drewAnything && IsReset()
    {
      isDrawing := false;
      drewAnything := false;
      minX, minY := width as real, height as real;
      maxX, maxY := 0.0, 0.0;
    }

    /** The "Clear" button: `shapes = []; resetCanvas()`. */
    method Clear()
      requires Valid()
      modifies this`shapes, this`isDrawing, this`drewAnything, this`minX, this`minY, this`maxX, this`maxY
      ensures Valid() && shapes == [] && !isDrawing && !drewAnything && IsReset()
    {
      shapes := [];
      ResetCanvas();
    }

    /** `mousePressed()`: a press on the canvas starts a stroke whose box is the pressed point. */
    method MousePressed(mx: real, my: real)
      requires Valid()
      modifies this`isDrawing, this`drewAnything, this`minX, this`minY, this`maxX, this`maxY
      ensures Valid()
      ensures InsideCanvas(mx, my, width, height) ==>
        && isDrawing && drewAnything
        && minX == maxX == mx && minY == maxY == my
      ensures !InsideCanvas(mx, my, width, height) ==>
        && isDrawing == old(isDrawing) && drewAnything == old(drewAnything)
        && minX == old(minX) && minY == old(minY) && maxX == old(maxX) && maxY == old(maxY)
    {
      if !InsideCanvas(mx, my, width, height) {
        return;
      }
      isDrawing := true;
      minX, maxX := mx, mx;
      minY, maxY := my, my;
      drewAnything := true;
    }

    /**
     * `mouseDragged()` with the current point (mx, my) and the previous
     * frame's point (pmx, pmy); the previous point is not checked against
     * the canvas.
     */
    method MouseDragged(mx: real, my: real, pmx: real, pmy: real)
      requires Valid()
      modifies this`minX, this`minY, this`maxX, this`maxY
      ensures Valid()
      ensures minX <= old(minX) && minY <= old(minY) && maxX >= old(maxX) && maxY >= old(maxY)
      ensures old(isDrawing) && InsideCanvas(mx, my, width, height) ==>
        && minX <= mx <= maxX && minX <= pmx <= maxX
        && minY <= my <= maxY && minY <= pmy <= maxY
        && (minX == old(minX) || minX == mx || minX == pmx)
        && (maxX == old(maxX) || maxX == mx || maxX == pmx)
        && (minY == old(minY) || minY == my || minY == pmy)
        && (maxY == old(maxY) || maxY == my || maxY == pmy)
      ensures !(old(isDrawing) && InsideCanvas(mx, my, width, height)) ==>
        minX == old(minX) && minY == old(minY) && maxX == old(maxX) && maxY == old(maxY)
    {
      if !isDrawing || !InsideCanvas(mx, my, width, height) {
        return;
      }
      minX := Min(Min(minX, mx), pmx);
      minY := Min(Min(minY, my), pmy);
      maxX := Max(Max(maxX, mx), pmx);
      maxY := Max(Max(maxY, my), pmy);
    }

    /**
     * `predictFromDrawingAndPersist()` with padding `pad` (the slider's
     * value) and the fate of the prediction. A synchronous throw leaves the
     * handler before the box is reset; otherwise the box is reset, and a
     * resolved read-back appends exactly one Shape.
     */
    method PredictFromDrawingAndPersist(pad: int, readback: Readback)
      requires Valid() && !isDrawing
      requires readback.Probs? ==> |readback.probs| == |Classes|
      modifies this`shapes, this`drewAnything, this`minX, this`minY, this`maxX, this`maxY
      ensures Valid() && !isDrawing
      ensures !old(modelLoaded && drewAnything) || readback.Throws? ==>
        && shapes == old(shapes) && drewAnything == old(drewAnything)
        && minX == old(minX) && minY == old(minY) && maxX == old(maxX) && maxY == old(maxY)
      ensures old(modelLoaded && drewAnything) && !readback.Throws? ==>
        && !drewAnything && IsReset()
        && var c := CropBox(old(minX), old(minY), old(maxX), old(maxY), pad, width, height);
           shapes == old(shapes) + (if readback.Probs?
                                    then [Descriptor(Decide(readback.probs, Classes), c)]
                                    else [])
    {
      if !modelLoaded || !drewAnything {
        return;
      }
      var c := CropBox(minX, minY, maxX, maxY, pad, width, height);
      if readback.Throws? {
        return;
      }
      if readback.Probs? {
        var kind := Decide(readback.probs, Classes);
        shapes := shapes + [Descriptor(kind, c)];
      }
      drewAnything := false;
      minX, minY := width as real, height as real;
      maxX, maxY := 0.0, 0.0;
    }

    /** `mouseReleased()`: ends the stroke in progress and predicts from it. */
    method MouseReleased(pad: int, readback: Readback)
      requires Valid()
      requires readback.Probs? ==> |readback.probs| == |Classes|
      modifies this`isDrawing, this`shapes, this`drewAnything, this`minX, this`minY, this`maxX, this`maxY
      ensures Valid() && !isDrawing
      ensures !old(isDrawing) ==>
        && shapes == old(shapes) && drewAnything == old(drewAnything)
        && minX == old(minX) && minY == old(minY) && maxX == old(maxX) && maxY == old(maxY)
      ensures old(isDrawing) && (!modelLoaded || readback.Throws?) ==>
        && shapes == old(shapes) && drewAnything == old(drewAnything)
        && minX == old(minX) && minY == old(minY) && maxX == old(maxX) && maxY == old(maxY)
      ensures old(isDrawing) && modelLoaded && !readback.Throws? ==>
        && !drewAnything && IsReset()
        && var c := CropBox(old(minX), old(minY), old(maxX), old(maxY), pad, width, height);
           shapes == old(shapes) + (if readback.Probs?
                                    then [Descriptor(Decide(readback.probs, Classes), c)]
                                    else [])
    {
      if !isDrawing {
        return;
      }
      isDrawing := false;
      PredictFromDrawingAndPersist(pad, readback);
    }
  }

  /** Every shape the demo persists has a label from its vocabulary or "unknown", and a stroke weight in [4, 20]. */
  lemma PersistedShapeIsCanonical(minX: real, minY: real, maxX: real, maxY: real, pad: int,
                                  width: int, height: int, probs: seq<real>)
    requires width >= 1 && height >= 1 && |probs| == |Classes|
    ensures var s := Descriptor(Decide(probs, Classes), CropBox(minX, minY, maxX, maxY, pad, width, height));
      && (s.kind == Unknown || s.kind in Classes)
      && (s.kind == Unknown <==> Confidence(probs) < Tau)
      && 0.0 <= s.cx - 0.4 < s.cx + 0.4 <= width as real
      && 0.0 <= s.cy - 0.4 < s.cy + 0.4 <= height as real
      && 4.0 <= s.strokeW <= 20.0
  {
    assert Unknown !in Classes;
  }
}
