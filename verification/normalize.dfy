/**
 * Fit-to-28x28 normalisation of the tldraw demo (the geometry of
 * `generateOffScreenCanvasForPrediction`): the bounding box of every point
 * of every segment, a uniform scale that fits the longer side into 24
 * pixels, offsets that centre the stroke on the 28x28 canvas, and a line
 * width that compensates for the scale. The pixels themselves are not
 * modelled; the result is the transform the canvas context is given.
 */
module Normalize {
  import opened Numeric
  import opened Document

  /** Side of the square raster the classifier reads. */
  const Side: real := 28.0
  /** The longer side of the stroke is scaled to this many pixels. */
  const Fit: real := 24.0

  /** `segments.flatMap(segment => segment.points)`. */
  function Flatten(segments: seq<seq<Point>>): (pts: seq<Point>)
    ensures forall i, k :: 0 <= i < |segments| && 0 <= k < |segments[i]| ==> segments[i][k] in pts
    ensures forall p :: p in pts ==> exists i :: 0 <= i < |segments| && p in segments[i]
  {
    if |segments| == 0 then []
    else
      var rest := Flatten(segments[1..]);
      assert forall i :: 1 <= i < |segments| ==> segments[i] == segments[1..][i - 1];
      segments[0] + rest
  }

  function Xs(pts: seq<Point>): (xs: seq<real>)
    ensures |xs| == |pts| && forall i :: 0 <= i < |pts| ==> xs[i] == pts[i].x
  {
    seq(|pts|, i requires 0 <= i < |pts| => pts[i].x)
  }

  function Ys(pts: seq<Point>): (ys: seq<real>)
    ensures |ys| == |pts| && forall i :: 0 <= i < |pts| ==> ys[i] == pts[i].y
  {
    seq(|pts|, i requires 0 <= i < |pts| => pts[i].y)
  }

  /** The bounding box of the points and the transform derived from it. */
  datatype Transform = Transform(
    minX: real, minY: real, width: real, height: real,
    scale: real, offsetX: real, offsetY: real, lineWidth: int)
  {
    /** Where the context maps a page x: `translate(offsetX - minX*scale, ...)` then `scale(scale)`. */
    function MapX(x: real): real { (offsetX - minX * scale) + x * scale }
    function MapY(y: real): real { (offsetY - minY * scale) + y * scale }
  }

  /** What the off-screen canvas receives. */
  datatype Raster =
    | NoRaster              // no shape, or not a draw shape: nothing is predicted
    | Degenerate            // empty stroke or zero extent on both axes: non-finite transform
    | Fitted(t: Transform)

  /** Dividing 24 by the larger of two positive extents gives the smaller quotient. */
  lemma QuotientOrder(small: real, large: real)
    requires 0.0 < small <= large
    ensures Fit / large <= Fit / small
  {
    var qs, ql := Fit / small, Fit / large;
    assert qs * small == Fit && ql * large == Fit;
    if ql > qs {
      MulMonotone(qs, ql, large);
      MulMonotone(small, large, qs);
      assert false;
    }
  }

  /**
   * `Math.min(24 / width, 24 / height)`. A zero extent divides to Infinity,
   * which never wins the minimum; the case of two zero extents is excluded.
   */
  function Scale(width: real, height: real): (s: real)
    requires width >= 0.0 && height >= 0.0 && (width > 0.0 || height > 0.0)
    ensures s > 0.0
    ensures s * Max(width, height) == Fit
  {
    if width == 0.0 then Fit / height
    else if height == 0.0 then Fit / width
    else
      if width >= height then QuotientOrder(height, width); Min(Fit / width, Fit / height)
      else QuotientOrder(width, height); Min(Fit / width, Fit / height)
  }

  /** An extent no longer than the longer side is scaled to at most 24 pixels. */
  lemma ScaledExtentFits(extent: real, width: real, height: real)
    requires width >= 0.0 && height >= 0.0 && (width > 0.0 || height > 0.0)
    requires 0.0 <= extent <= Max(width, height)
    ensures 0.0 <= extent * Scale(width, height) <= Fit
  {
    var s := Scale(width, height);
    MulMonotone(extent, Max(width, height), s);
    MulMonotone(0.0, extent, s);
  }

  /** `(28 - scaled) / 2` centres a scaled extent of at most 24 pixels inside [2, 26]. */
  function Offset(scaled: real): (off: real)
    requires 0.0 <= scaled <= Fit
    ensures 2.0 <= off && off + scaled <= 26.0
    ensures off + scaled / 2.0 == Side / 2.0
  {
    (Side - scaled) / 2.0
  }

  /** `Math.ceil(2 / scale)`: a whole, positive line width in page units. */
  function LineWidth(scale: real): (lw: int)
    requires scale > 0.0
    ensures lw >= 1
  {
    Ceil(2.0 / scale)
  }

  /** Once scaled, the line is at least 2 and less than 2 + scale raster pixels wide. */
  lemma LineWidthCompensates(scale: real, lw: int)
    requires scale > 0.0 && lw == LineWidth(scale)
    ensures 2.0 <= lw as real * scale
    ensures (lw - 1) as real * scale < 2.0
  {
    var q := 2.0 / scale;
    assert q * scale == 2.0;
    assert lw == Ceil(q);
    MulMonotone(q, lw as real, scale);
    if (lw - 1) as real * scale >= 2.0 {
      MulMonotone((lw - 1) as real, q, scale);
      assert false;
    }
  }

  /** What the fitted transform guarantees about the raster. */
  ghost predicate WellFitted(t: Transform)
  {
    && t.width >= 0.0 && t.height >= 0.0
    && t.scale > 0.0
    && t.scale * Max(t.width, t.height) == Fit
    && 0.0 <= t.width * t.scale <= Fit && 0.0 <= t.height * t.scale <= Fit
    && t.offsetX == Offset(t.width * t.scale) && t.offsetY == Offset(t.height * t.scale)
    && t.lineWidth == LineWidth(t.scale)
  }

  /** Scale, offsets and line width for a box of the given extents. */
  function FitExtent(minX: real, minY: real, width: real, height: real): (t: Transform)
    requires width >= 0.0 && height >= 0.0 && (width > 0.0 || height > 0.0)
    ensures t.minX == minX && t.minY == minY && t.width == width && t.height == height
    ensures WellFitted(t)
  {
    var scale := Scale(width, height);
    ScaledExtentFits(width, width, height);
    ScaledExtentFits(height, width, height);
    Centred(minX, minY, width, height, scale)
  }

  /** The offsets and line width that go with a scale fitting the longer side into 24 pixels. */
  function Centred(minX: real, minY: real, width: real, height: real, scale: real): (t: Transform)
    requires width >= 0.0 && height >= 0.0 && scale > 0.0
    requires scale * Max(width, height) == Fit
    requires 0.0 <= width * scale <= Fit && 0.0 <= height * scale <= Fit
    ensures t.minX == minX && t.minY == minY && t.width == width && t.height == height
    ensures t.scale == scale
    ensures WellFitted(t)
  {
    Transform(minX, minY, width, height, scale,
      Offset(width * scale), Offset(height * scale), LineWidth(scale))
  }

  /** The stroke spreads along at least one axis. */
  predicate HasExtent(pts: seq<Point>)
    requires |pts| > 0
  {
    SeqMax(Xs(pts)) > SeqMin(Xs(pts)) || SeqMax(Ys(pts)) > SeqMin(Ys(pts))
  }

  /** The bounding box of a non-empty stroke with some extent, and its fitted transform. */
  function FitPoints(pts: seq<Point>): (t: Transform)
    requires |pts| > 0 && HasExtent(pts)
    ensures forall i :: 0 <= i < |pts| ==>
      t.minX <= pts[i].x <= t.minX + t.width && t.minY <= pts[i].y <= t.minY + t.height
    ensures exists i :: 0 <= i < |pts| && pts[i].x == t.minX
    ensures exists i :: 0 <= i < |pts| && pts[i].x == t.minX + t.width
    ensures exists i :: 0 <= i < |pts| && pts[i].y == t.minY
    ensures exists i :: 0 <= i < |pts| && pts[i].y == t.minY + t.height
    ensures WellFitted(t)
  {
    var minX, maxX := SeqMin(Xs(pts)), SeqMax(Xs(pts));
    var minY, maxY := SeqMin(Ys(pts)), SeqMax(Ys(pts));
    FitExtent(minX, minY, maxX - minX, maxY - minY)
  }

  /** The longer side of a fitted stroke spans exactly 24 raster pixels. */
  lemma LongerSideFills(t: Transform)
    requires WellFitted(t)
    ensures t.width * t.scale == Fit || t.height * t.scale == Fit
  {
    if t.width >= t.height {
      assert Max(t.width, t.height) == t.width;
    } else {
      assert Max(t.width, t.height) == t.height;
    }
  }

  /**
   * One axis of the transform: translating by `off - lo * scale` after
   * scaling maps [lo, lo + ext] onto [off, off + ext * scale], and the
   * centring offset puts that inside [2, 26] with its midpoint at 14.
   */
  lemma AxisInside(off: real, lo: real, ext: real, scale: real, v: real)
    requires scale > 0.0 && lo <= v <= lo + ext
    requires 0.0 <= ext * scale <= Fit && off == Offset(ext * scale)
    ensures (off - lo * scale) + lo * scale == off
    ensures (off - lo * scale) + (lo + ext) * scale == off + ext * scale
    ensures 2.0 <= off <= (off - lo * scale) + v * scale <= off + ext * scale <= 26.0
    ensures (off + off + ext * scale) / 2.0 == Side / 2.0
  {
    var d := v - lo;
    assert v * scale == lo * scale + d * scale;
    assert (lo + ext) * scale == lo * scale + ext * scale;
    MulMonotone(0.0, d, scale);
    MulMonotone(d, ext, scale);
  }

  /**
   * The transform maps [minX, minX + width] onto [offsetX, offsetX + width*scale],
   * which lies inside [2, 26] and is centred on 14.
   */
  lemma MapXInside(t: Transform, x: real)
    requires t.scale > 0.0 && 0.0 <= t.width * t.scale <= Fit
    requires t.offsetX == Offset(t.width * t.scale)
    requires t.minX <= x <= t.minX + t.width
    ensures t.MapX(t.minX) == t.offsetX
    ensures t.MapX(t.minX + t.width) == t.offsetX + t.width * t.scale
    ensures 2.0 <= t.offsetX <= t.MapX(x) <= t.offsetX + t.width * t.scale <= 26.0
    ensures (t.MapX(t.minX) + t.MapX(t.minX + t.width)) / 2.0 == Side / 2.0
  {
    AxisInside(t.offsetX, t.minX, t.width, t.scale, x);
  }

  /** The same for the vertical axis. */
  lemma MapYInside(t: Transform, y: real)
    requires t.scale > 0.0 && 0.0 <= t.height * t.scale <= Fit
    requires t.offsetY == Offset(t.height * t.scale)
    requires t.minY <= y <= t.minY + t.height
    ensures t.MapY(t.minY) == t.offsetY
    ensures t.MapY(t.minY + t.height) == t.offsetY + t.height * t.scale
    ensures 2.0 <= t.offsetY <= t.MapY(y) <= t.offsetY + t.height * t.scale <= 26.0
    ensures (t.MapY(t.minY) + t.MapY(t.minY + t.height)) / 2.0 == Side / 2.0
  {
    AxisInside(t.offsetY, t.minY, t.height, t.scale, y);
  }

  /** Every point of every segment is drawn inside the [2, 26] square of the raster. */
  lemma PointsLandInside(pts: seq<Point>, i: nat)
    requires |pts| > 0 && HasExtent(pts)
    requires i < |pts|
    ensures var t := FitPoints(pts);
      2.0 <= t.MapX(pts[i].x) <= 26.0 && 2.0 <= t.MapY(pts[i].y) <= 26.0
  {
    var t := FitPoints(pts);
    var x, y := pts[i].x, pts[i].y;
    assert t.minX <= x <= t.minX + t.width && t.minY <= y <= t.minY + t.height;
    BoxLandsInside(t, x, y);
  }

  /** A point of the fitted box is drawn inside the [2, 26] square. */
  lemma BoxLandsInside(t: Transform, x: real, y: real)
    requires WellFitted(t)
    requires t.minX <= x <= t.minX + t.width && t.minY <= y <= t.minY + t.height
    ensures 2.0 <= t.MapX(x) <= 26.0 && 2.0 <= t.MapY(y) <= 26.0
  {
    MapXInside(t, x);
    MapYInside(t, y);
  }

  /**
   * The geometry of `generateOffScreenCanvasForPrediction(shapeId)`: the
   * shape must exist and be a draw shape, or nothing is drawn or predicted.
   */
  function Rasterize(doc: Doc, id: ShapeId): (r: Raster)
    ensures r.NoRaster? <==> id !in doc || !doc[id].props.Draw?
    ensures r.Degenerate? <==>
      && id in doc && doc[id].props.Draw?
      && var pts := Flatten(doc[id].props.segments);
         |pts| == 0 || !HasExtent(pts)
    ensures r.Fitted? ==>
      && id in doc && doc[id].props.Draw?
      && var pts := Flatten(doc[id].props.segments);
         |pts| > 0 && HasExtent(pts) && r.t == FitPoints(pts)
  {
    if id !in doc || !doc[id].props.Draw? then NoRaster
    else
      var pts := Flatten(doc[id].props.segments);
      if |pts| == 0 then Degenerate
      else if HasExtent(pts) then Fitted(FitPoints(pts))
      else Degenerate
  }

  /** A non-empty sequence has max == min exactly when all its entries are equal. */
  lemma {:induction false} FlatIffConstant(s: seq<real>)
    requires |s| > 0
    ensures SeqMax(s) == SeqMin(s) <==> forall i :: 0 <= i < |s| ==> s[i] == s[0]
  {
    if SeqMax(s) == SeqMin(s) {
      forall i | 0 <= i < |s| ensures s[i] == s[0] {
        assert SeqMin(s) <= s[i] <= SeqMax(s);
        assert SeqMin(s) <= s[0] <= SeqMax(s);
      }
    }
  }

  /** A non-empty stroke has no extent exactly when all its points coincide. */
  lemma NoExtentIffOnePoint(pts: seq<Point>)
    requires |pts| > 0
    ensures !HasExtent(pts) <==> forall i :: 0 <= i < |pts| ==> pts[i] == pts[0]
  {
    var xs, ys := Xs(pts), Ys(pts);
    FlatIffConstant(xs);
    FlatIffConstant(ys);
    assert forall i :: 0 <= i < |pts| ==> (pts[i] == pts[0] <==> xs[i] == xs[0] && ys[i] == ys[0]);
  }
}
