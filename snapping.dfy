/**
 * The closed-form snapping rules of the entity transformer: the anchor drag
 * bound (pixel-grid snapping of resize anchors), the bound box check
 * (45-degree rotation steps while shift is held) and the final rounding
 * applied when a transform gesture ends.
 */
module Snapping {
  import opened Wrappers
  import opened JsMath
  import opened Geometry

  /** The name Konva gives the rotation handle of a transformer. */
  const ROTATER := "rotater"

  predicate IsRotating(activeAnchor: Option<string>) {
    activeAnchor == Some(ROTATER)
  }

  /** `v` is `origin` plus a whole number of stage pixels, each `scale` long in absolute space. */
  ghost predicate OnStagePixelGrid(v: real, scale: real, origin: real) {
    IsMultiple(v - origin, scale)
  }

  // ---------------------------------------------------------------------------
  // anchorDragBoundFunc

  /** Rounding `v / s` and scaling back lands within half a step of `v`. */
  lemma RoundScaled(v: real, s: real)
    requires 0.0 < s
    ensures -s / 2.0 < Times(Round(v / s), s) - v <= s / 2.0
  {
    var k := Round(v / s) as real;
    LeQuotient(k - 0.5, v, s);
    GtQuotient(k + 0.5, v, s);
    assert (k - 0.5) * s == k * s - s / 2.0;
    assert (k + 0.5) * s == k * s + s / 2.0;
  }

  /** A whole number of steps away from a point of the grid through `origin` is on that grid. */
  lemma StepsFromGrid(k: int, scale: real, origin: real, offset: real)
    requires IsMultiple(origin - offset, scale)
    ensures OnStagePixelGrid(Times(k, scale) + offset, scale, origin)
  {
    var j :| origin - offset == Times(j, scale);
    assert Times(k, scale) + offset - origin == Times(k - j, scale);
  }

  /**
   * One axis of the anchor snap AS WRITTEN: unscale and round `v`, scale back,
   * then add the stage offset `origin % scale`. The result is on the stage
   * pixel grid and is the multiple of `scale` nearest to `v`, shifted by that offset.
   */
  function SnapAxis(v: real, scale: real, origin: real): (r: real)
    requires 0.0 < scale
    ensures OnStagePixelGrid(r, scale, origin)
    ensures -scale / 2.0 < r - Rem(origin, scale) - v <= scale / 2.0
  {
    RoundScaled(v, scale);
    StepsFromGrid(Round(v / scale), scale, origin, Rem(origin, scale));
    Times(Round(v / scale), scale) + Rem(origin, scale)
  }

  /**
   * `anchorDragBoundFunc`: the rotation handle moves freely; any other anchor
   * is snapped, on each axis, to the stage pixel grid, at the point within half
   * a stage pixel of the new position shifted by the stage offset.
   */
  function AnchorDragBound(activeAnchor: Option<string>, stageScale: real, stagePos: Coordinate,
                           newPos: Coordinate): (r: Coordinate)
    requires 0.0 < stageScale
    ensures IsRotating(activeAnchor) ==> r == newPos
    ensures !IsRotating(activeAnchor) ==>
      && OnStagePixelGrid(r.x, stageScale, stagePos.x)
      && OnStagePixelGrid(r.y, stageScale, stagePos.y)
      && -stageScale / 2.0 < r.x - Rem(stagePos.x, stageScale) - newPos.x <= stageScale / 2.0
      && -stageScale / 2.0 < r.y - Rem(stagePos.y, stageScale) - newPos.y <= stageScale / 2.0
  {
    if IsRotating(activeAnchor) then
      newPos
    else
      Coordinate(SnapAxis(newPos.x, stageScale, stagePos.x), SnapAxis(newPos.y, stageScale, stagePos.y))
  }

  /** Stage scale 2 at stage position (5, 3): the anchor dragged to (123, 77) lands on (125, 79). */
  lemma AnchorDragBoundExample()
    ensures AnchorDragBound(None, 2.0, Coordinate(5.0, 3.0), Coordinate(123.0, 77.0)) == Coordinate(125.0, 79.0)
  {
    assert Rem(5.0, 2.0) == 1.0 && Rem(3.0, 2.0) == 1.0;
    assert Round(61.5) == 62 && Round(38.5) == 39;
  }

  /**
   * The snap as written is not idempotent, and it moves points that are
   * already on the grid: with stage scale 2 and stage x 5, the grid point 125
   * is moved to 127.
   */
  lemma AnchorSnapMovesGridPoint()
    ensures OnStagePixelGrid(125.0, 2.0, 5.0)
    ensures SnapAxis(125.0, 2.0, 5.0) == 127.0
    ensures SnapAxis(SnapAxis(123.0, 2.0, 5.0), 2.0, 5.0) != SnapAxis(123.0, 2.0, 5.0)
  {
    assert 125.0 - 5.0 == Times(60, 2.0);
    assert Rem(5.0, 2.0) == 1.0;
    assert Round(62.5) == 63 && Round(61.5) == 62;
  }

  /**
   * One axis of the anchor snap as evidently intended: remove the stage offset
   * before rounding, so the result is the grid point nearest to `v`.
   */
  function SnapAxisToGrid(v: real, scale: real, origin: real): (r: real)
    requires 0.0 < scale
    ensures OnStagePixelGrid(r, scale, origin)
    ensures -scale / 2.0 < r - v <= scale / 2.0
  {
    var offset := Rem(origin, scale);
    RoundScaled(v - offset, scale);
    StepsFromGrid(Round((v - offset) / scale), scale, origin, offset);
    Times(Round((v - offset) / scale), scale) + offset
  }

  lemma TimesAdd(i: int, j: int, s: real)
    ensures Times(i, s) + Times(j, s) == Times(i + j, s)
  {
  }

  lemma TimesDiv(k: int, s: real)
    requires 0.0 < s
    ensures Times(k, s) / s == k as real
  {
  }

  /** Removing the offset, rounding and adding it back leaves a grid point where it is. */
  lemma GridPointFixed(g: real, scale: real, origin: real, offset: real)
    requires 0.0 < scale
    requires IsMultiple(g - origin, scale) && IsMultiple(origin - offset, scale)
    ensures Times(Round((g - offset) / scale), scale) + offset == g
  {
    var i :| g - origin == Times(i, scale);
    var j :| origin - offset == Times(j, scale);
    TimesAdd(i, j, scale);
    TimesDiv(i + j, scale);
    assert Round((i + j) as real) == i + j;
  }

  /** The intended snap leaves grid points where they are. */
  lemma SnapAxisToGridFixesGrid(g: real, scale: real, origin: real)
    requires 0.0 < scale
    requires OnStagePixelGrid(g, scale, origin)
    ensures SnapAxisToGrid(g, scale, origin) == g
  {
    GridPointFixed(g, scale, origin, Rem(origin, scale));
  }

  /** Hence the intended snap is idempotent. */
  lemma SnapAxisToGridIdempotent(v: real, scale: real, origin: real)
    requires 0.0 < scale
    ensures SnapAxisToGrid(SnapAxisToGrid(v, scale, origin), scale, origin) == SnapAxisToGrid(v, scale, origin)
  {
    SnapAxisToGridFixesGrid(SnapAxisToGrid(v, scale, origin), scale, origin);
  }

  /** Two different grid points are at least one stage pixel apart. */
  lemma WholeSteps(m: int, scale: real)
    requires 0.0 < scale && m != 0
    ensures scale <= Abs(Times(m, scale))
  {
    if 0 < m {
      LeQuotient(1.0, m as real * scale, scale);
      assert 1.0 <= m as real == (m as real * scale) / scale;
    } else {
      LeQuotient(1.0, -(m as real) * scale, scale);
      assert 1.0 <= -(m as real) == (-(m as real) * scale) / scale;
    }
  }

  /** The intended snap picks a grid point at least as close to `v` as any other. */
  lemma SnapAxisToGridNearest(v: real, scale: real, origin: real, g: real)
    requires 0.0 < scale
    requires OnStagePixelGrid(g, scale, origin)
    ensures Abs(SnapAxisToGrid(v, scale, origin) - v) <= Abs(g - v)
  {
    var r := SnapAxisToGrid(v, scale, origin);
    MultipleDiff(r - origin, g - origin, scale);
    var m :| (r - origin) - (g - origin) == Times(m, scale);
    if m != 0 {
      WholeSteps(m, scale);
    }
  }

  /**
   * The anchor drag bound with the intended snap: the rotation handle moves
   * freely, any other anchor goes to the nearest stage pixel grid point, and
   * an anchor already on the grid stays put.
   */
  function AnchorDragBoundToGrid(activeAnchor: Option<string>, stageScale: real, stagePos: Coordinate,
                                 newPos: Coordinate): (r: Coordinate)
    requires 0.0 < stageScale
    ensures IsRotating(activeAnchor) ==> r == newPos
    ensures !IsRotating(activeAnchor) ==>
      && OnStagePixelGrid(r.x, stageScale, stagePos.x) && Abs(r.x - newPos.x) <= stageScale / 2.0
      && OnStagePixelGrid(r.y, stageScale, stagePos.y) && Abs(r.y - newPos.y) <= stageScale / 2.0
    ensures OnStagePixelGrid(newPos.x, stageScale, stagePos.x) && OnStagePixelGrid(newPos.y, stageScale, stagePos.y)
      ==> r == newPos
  {
    if IsRotating(activeAnchor) then
      newPos
    else
      SnapAxisToGridKeepsGridPoint(newPos.x, stageScale, stagePos.x);
      SnapAxisToGridKeepsGridPoint(newPos.y, stageScale, stagePos.y);
      Coordinate(SnapAxisToGrid(newPos.x, stageScale, stagePos.x), SnapAxisToGrid(newPos.y, stageScale, stagePos.y))
  }

  lemma SnapAxisToGridKeepsGridPoint(v: real, scale: real, origin: real)
    requires 0.0 < scale
    ensures OnStagePixelGrid(v, scale, origin) ==> SnapAxisToGrid(v, scale, origin) == v
  {
    if OnStagePixelGrid(v, scale, origin) {
      SnapAxisToGridFixesGrid(v, scale, origin);
    }
  }

  /** When the stage position is a whole number of pixels the two snaps agree. */
  lemma SnapAxesAgreeOnAlignedStage(v: real, scale: real, origin: real)
    requires 0.0 < scale && Rem(origin, scale) == 0.0
    ensures SnapAxis(v, scale, origin) == SnapAxisToGrid(v, scale, origin)
  {
  }

  // ---------------------------------------------------------------------------
  // boundBoxFunc

  /** The transformer's bounding box; `rotation` is in degrees. */
  datatype Box = Box(x: real, y: real, width: real, height: real, rotation: real)

  /** The rotation step enforced while shift is held: 45 degrees (`Math.PI / 4` radians). */
  const ROTATION_STEP := 45.0

  /**
   * `boundBoxFunc`: while the rotation handle is dragged with shift held, a new
   * box whose rotation is not a whole number of 45-degree steps is rejected
   * (the old box is kept, not clamped); otherwise the new box is accepted.
   */
  function BoundBox(activeAnchor: Option<string>, shiftKey: bool, oldBox: Box, newBox: Box): (r: Box)
    ensures !IsRotating(activeAnchor) || !shiftKey ==> r == newBox
    ensures IsRotating(activeAnchor) && shiftKey && !IsMultiple(newBox.rotation, ROTATION_STEP) ==> r == oldBox
    ensures IsRotating(activeAnchor) && shiftKey && IsMultiple(newBox.rotation, ROTATION_STEP) ==> r == newBox
  {
    RemZeroIffMultiple(newBox.rotation, ROTATION_STEP);
    if !IsRotating(activeAnchor) then
      newBox
    else if shiftKey && Abs(Rem(newBox.rotation, ROTATION_STEP)) > 0.0 then
      oldBox
    else
      newBox
  }

  /** While shift is held, a rotation on a 45-degree step stays on one. */
  lemma BoundBoxKeepsRotationStep(activeAnchor: Option<string>, oldBox: Box, newBox: Box)
    requires IsMultiple(oldBox.rotation, ROTATION_STEP)
    requires IsRotating(activeAnchor)
    ensures IsMultiple(BoundBox(activeAnchor, true, oldBox, newBox).rotation, ROTATION_STEP)
  {
  }

  // ---------------------------------------------------------------------------
  // transformend

  /** `t` is the whole-pixel size nearest to `extent` in magnitude, or the 1-pixel minimum. */
  ghost predicate NearestWholeSize(t: int, extent: real) {
    Abs(t as real - Abs(extent)) <= 0.5 || (t == 1 && Abs(extent) <= 0.5)
  }

  /** `Math.max(Math.abs(Math.round(size * scale)), 1)`: the rounding happens before the absolute value. */
  function TargetSize(size: real, scale: real): (t: int)
    ensures 1 <= t
    ensures NearestWholeSize(t, size * scale)
  {
    MaxInt(AbsInt(Round(size * scale)), 1)
  }

  /** `(target / size) * Math.sign(scale)`: the scale that gives the target size, with the flip kept. */
  function SnappedScale(size: real, scale: real): (r: real)
    requires 0.0 < size
    ensures size * r == TargetSize(size, scale) as real * Sign(scale)
    ensures Sign(r) == Sign(scale)
  {
    var t := TargetSize(size, scale) as real;
    assert t / size * size == t;
    assert 0.0 < t / size;
    t / size * Sign(scale)
  }

  datatype SnappedTransform = SnappedTransform(x: int, y: int, targetWidth: int, targetHeight: int,
                                               scaleX: real, scaleY: real)

  /**
   * The `transformend` computation: position rounded to whole pixels, and
   * scales replaced by ones whose footprint is a whole number of pixels, at
   * least one, on the same side of zero as the raw scale.
   */
  function SnapTransformEnd(x: real, y: real, width: real, height: real, scaleX: real, scaleY: real)
    : (r: SnappedTransform)
    requires 0.0 < width && 0.0 < height
    ensures x - 0.5 < r.x as real <= x + 0.5 && y - 0.5 < r.y as real <= y + 0.5
    ensures r.targetWidth == TargetSize(width, scaleX) && r.targetHeight == TargetSize(height, scaleY)
    ensures r.scaleX == SnappedScale(width, scaleX) && r.scaleY == SnappedScale(height, scaleY)
  {
    SnappedTransform(Round(x), Round(y), TargetSize(width, scaleX), TargetSize(height, scaleY),
                     SnappedScale(width, scaleX), SnappedScale(height, scaleY))
  }

  /** One axis of the footprint rule, for a positive size. */
  lemma AxisFootprint(size: real, scale: real)
    requires 0.0 < size
    ensures scale != 0.0 ==> Abs(size * SnappedScale(size, scale)) == TargetSize(size, scale) as real >= 1.0
    ensures scale == 0.0 ==> SnappedScale(size, scale) == 0.0
  {
    var s := SnappedScale(size, scale);
    var t := TargetSize(size, scale) as real;
    assert size * s == t * Sign(scale);
    if 0.0 < scale {
      assert size * s == t;
    } else if scale < 0.0 {
      assert size * s == -t;
    } else {
      assert Sign(s) == 0.0;
    }
  }

  /**
   * What `transformend` achieves: each target size is the whole-pixel size
   * nearest to the raw footprint (at least one pixel), each snapped scale
   * keeps the raw scale's sign, and unless the raw scale is zero the snapped
   * footprint is exactly the target size. A raw scale of exactly zero gives a
   * zero scale (`Math.sign(0) == 0`), so the footprint collapses despite the
   * 1-pixel minimum.
   */
  lemma SnappedFootprint(x: real, y: real, width: real, height: real, scaleX: real, scaleY: real)
    requires 0.0 < width && 0.0 < height
    ensures var r := SnapTransformEnd(x, y, width, height, scaleX, scaleY);
      && 1 <= r.targetWidth && NearestWholeSize(r.targetWidth, width * scaleX)
      && 1 <= r.targetHeight && NearestWholeSize(r.targetHeight, height * scaleY)
      && Sign(r.scaleX) == Sign(scaleX) && Sign(r.scaleY) == Sign(scaleY)
      && (scaleX != 0.0 ==> Abs(width * r.scaleX) == r.targetWidth as real)
      && (scaleY != 0.0 ==> Abs(height * r.scaleY) == r.targetHeight as real)
      && (scaleX == 0.0 ==> r.scaleX == 0.0)
      && (scaleY == 0.0 ==> r.scaleY == 0.0)
  {
    AxisFootprint(width, scaleX);
    AxisFootprint(height, scaleY);
  }

  /** The two worked examples of the transform-end rule. */
  lemma SnapTransformEndExamples()
    ensures SnapTransformEnd(0.0, 0.0, 200.0, 100.0, 1.5, 2.0) == SnappedTransform(0, 0, 300, 200, 1.5, 2.0)
    ensures SnapTransformEnd(0.0, 0.0, 50.0, 50.0, -0.5, 0.01) == SnappedTransform(0, 0, 25, 1, -0.5, 0.02)
  {
    assert Round(300.0) == 300 && Round(200.0) == 200;
    assert Round(-25.0) == -25 && Round(0.5) == 1;
  }

  /**
   * Because the code rounds before taking the absolute value, mirroring a
   * footprint of exactly 2.5 pixels changes its snapped width: 3 unflipped, 2 flipped.
   */
  lemma TargetSizeAtNegativeHalf()
    ensures TargetSize(5.0, 0.5) == 3
    ensures TargetSize(5.0, -0.5) == 2
  {
    assert Round(2.5) == 3 && Round(-2.5) == -2;
  }
}
