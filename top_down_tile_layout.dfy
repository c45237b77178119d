/** The top-down tile layout of the portable plot builder: axes are laid out
    first, the geometry area is computed from their thickness and then shrunk
    where the x-axis tick labels overflow the room they may take. */
module TopDownTileLayout {
  import opened Common

  /** What an axis layout reports: the axis length it was laid out for, the
      bounds of the whole axis and those of its tick labels. */
  datatype AxisLayoutInfo = AxisLayoutInfo(axisLength: real, axisBounds: Rect, tickLabelsBounds: Rect) {
    function WithAxisLength(len: real): (r: AxisLayoutInfo)
      ensures r.axisLength == len && r.axisBounds == axisBounds && r.tickLabelsBounds == tickLabelsBounds
    {
      AxisLayoutInfo(len, axisBounds, tickLabelsBounds)
    }
  }

  /** An axis layout: its initial thickness, and `doLayout(domain, length, maxTickLabelsBounds)`. */
  datatype AxisLayout = AxisLayout(initialThickness: real, doLayout: (Span, real, Option<Rect>) -> AxisLayoutInfo)

  /** The helpers the tile layout calls, with the coordinate provider and the
      domains fixed: `geomBounds(hAxisThickness, vAxisThickness, plotSize)`,
      `maxHAxisTickLabelsBounds(stretch, axisSpan, plotSize)` for a bottom axis,
      `adjustGeomSize(size)`, `clipBounds(geomBounds)` and the geometry margin. */
  datatype TileEnv = TileEnv(
    geomBounds: (real, real, Vec) -> Rect,
    maxHAxisTickLabelsBounds: (real, Span, Vec) -> Rect,
    adjustGeomSize: Vec -> Vec,
    clipBounds: Rect -> Rect,
    geomMargin: real)

  datatype TopDownTileLayout = TopDownTileLayout(hAxisLayout: AxisLayout, vAxisLayout: AxisLayout, hDomain: Span, vDomain: Span)

  datatype TileLayoutInfo = TileLayoutInfo(
    offset: Vec,
    bounds: Rect,
    geomOuterBounds: Rect,
    geomInnerBounds: Rect,
    clipBounds: Rect,
    hAxisInfo: AxisLayoutInfo,
    vAxisInfo: AxisLayoutInfo,
    hAxisShown: bool,
    vAxisShown: bool,
    trueIndex: int)

  /** Allowed axis flexibility on each end, as a fraction of the axis length. */
  const AXIS_STRETCH_RATIO: real := 0.1

  /** The horizontal extent of a rectangle as an ordered interval. */
  function XRange(r: Rect): (s: Span)
    ensures s.WellFormed()
    ensures r.Width() >= 0.0 ==> s.lower == r.Left() && s.upper == r.Right()
  {
    Span(Min(r.Left(), r.Right()), Max(r.Left(), r.Right()))
  }

  // ---------------------------------------------------------------------------
  // Axis infos.

  /** `computeHAxisInfo`: the axis is laid out for its span's length, with tick
      labels allowed to stretch by a tenth of that length. */
  function ComputeHAxisInfo(axisLayout: AxisLayout, axisDomain: Span, plotSize: Vec, axisSpan: Span, env: TileEnv): (r: AxisLayoutInfo)
    ensures r == axisLayout.doLayout(axisDomain, axisSpan.Length(),
                                     Some(env.maxHAxisTickLabelsBounds(axisSpan.Length() / 10.0, axisSpan, plotSize)))
  {
    var axisLength := axisSpan.Length();
    var stretch := axisLength * AXIS_STRETCH_RATIO;
    axisLayout.doLayout(axisDomain, axisLength, Some(env.maxHAxisTickLabelsBounds(stretch, axisSpan, plotSize)))
  }

  /** `computeVAxisInfo`: no bound on the tick labels. */
  function ComputeVAxisInfo(axisLayout: AxisLayout, axisDomain: Span, axisLength: real): (r: AxisLayoutInfo)
    ensures r == axisLayout.doLayout(axisDomain, axisLength, None)
  {
    axisLayout.doLayout(axisDomain, axisLength, None)
  }

  /** The two axis infos, and the lengths the y-axis was laid out for, in order. */
  datatype AxisInfos = AxisInfos(hAxisInfo: AxisLayoutInfo, vAxisInfo: AxisLayoutInfo, vAxisLengths: seq<real>)

  /** `computeAxisInfos`: estimate the y-axis from the initial thicknesses, lay
      out the x-axis beside it, and lay out the y-axis once more only if the
      x-axis came out thicker than first assumed. */
  function ComputeAxisInfos(tl: TopDownTileLayout, plotSize: Vec, env: TileEnv): (r: AxisInfos)
    ensures 1 <= |r.vAxisLengths| <= 2
    ensures |r.vAxisLengths| == 2 <==> r.hAxisInfo.axisBounds.Height() > tl.hAxisLayout.initialThickness
    ensures r.vAxisInfo == ComputeVAxisInfo(tl.vAxisLayout, tl.vDomain, r.vAxisLengths[|r.vAxisLengths| - 1])
    ensures r.vAxisLengths[0] ==
      env.geomBounds(tl.hAxisLayout.initialThickness, tl.vAxisLayout.initialThickness, plotSize).Height()
    ensures var vThick := ComputeVAxisInfo(tl.vAxisLayout, tl.vDomain, r.vAxisLengths[0]).axisBounds.Width();
      r.hAxisInfo == ComputeHAxisInfo(tl.hAxisLayout, tl.hDomain, plotSize,
                                      XRange(env.geomBounds(tl.hAxisLayout.initialThickness, vThick, plotSize)), env) &&
      (|r.vAxisLengths| == 2 ==> r.vAxisLengths[1] == env.geomBounds(r.hAxisInfo.axisBounds.Height(), vThick, plotSize).Height())
  {
    var hAxisThickness := tl.hAxisLayout.initialThickness;
    var geomHeightEstim := env.geomBounds(hAxisThickness, tl.vAxisLayout.initialThickness, plotSize).Height();
    var vAxisInfoEstim := ComputeVAxisInfo(tl.vAxisLayout, tl.vDomain, geomHeightEstim);
    var vAxisThickness := vAxisInfoEstim.axisBounds.Width();
    var plottingArea := env.geomBounds(hAxisThickness, vAxisThickness, plotSize);
    var hAxisInfo := ComputeHAxisInfo(tl.hAxisLayout, tl.hDomain, plotSize, XRange(plottingArea), env);
    if hAxisInfo.axisBounds.Height() > hAxisThickness then
      var geomHeight := env.geomBounds(hAxisInfo.axisBounds.Height(), vAxisThickness, plotSize).Height();
      AxisInfos(hAxisInfo, ComputeVAxisInfo(tl.vAxisLayout, tl.vDomain, geomHeight), [geomHeightEstim, geomHeight])
    else
      AxisInfos(hAxisInfo, vAxisInfoEstim, [geomHeightEstim])
  }

  // ---------------------------------------------------------------------------
  // Geometry bounds.

  function LeftOverflow(tickLabelsBounds: Rect, maxTickLabelsBounds: Rect): real {
    maxTickLabelsBounds.Left() - tickLabelsBounds.Left()
  }

  function RightOverflow(tickLabelsBounds: Rect, maxTickLabelsBounds: Rect): real {
    tickLabelsBounds.Right() - maxTickLabelsBounds.Right()
  }

  predicate NoOverflow(tickLabelsBounds: Rect, maxTickLabelsBounds: Rect) {
    LeftOverflow(tickLabelsBounds, maxTickLabelsBounds) <= 0.0 && RightOverflow(tickLabelsBounds, maxTickLabelsBounds) <= 0.0
  }

  /** The geometry area shrunk by the tick labels' positive overflows: a left
      overflow moves the left edge right, a right overflow moves the right edge
      left; the vertical extent is never touched. */
  function ShrinkByOverflow(geom: Rect, tickLabelsBounds: Rect, maxTickLabelsBounds: Rect): (r: Rect)
    ensures r.Top() == geom.Top() && r.Height() == geom.Height()
    ensures r.Left() == geom.Left() + Max(LeftOverflow(tickLabelsBounds, maxTickLabelsBounds), 0.0)
    ensures r.Right() == geom.Right() - Max(RightOverflow(tickLabelsBounds, maxTickLabelsBounds), 0.0)
    ensures r == geom <==> NoOverflow(tickLabelsBounds, maxTickLabelsBounds)
  {
    var leftOverflow := LeftOverflow(tickLabelsBounds, maxTickLabelsBounds);
    var rightOverflow := RightOverflow(tickLabelsBounds, maxTickLabelsBounds);
    var newX := if leftOverflow > 0.0 then geom.origin.x + leftOverflow else geom.origin.x;
    var newW0 := if leftOverflow > 0.0 then geom.dimension.x - leftOverflow else geom.dimension.x;
    var newW := if rightOverflow > 0.0 then newW0 - rightOverflow else newW0;
    Rect(Vec(newX, geom.origin.y), Vec(newW, geom.dimension.y))
  }

  /** The geometry's outer bounds: a rectangle the overflows left alone is kept
      as it is; a changed one keeps its new origin and takes the size the
      coordinate provider adjusts it to. */
  function GeomOuterBounds(geom: Rect, tickLabelsBounds: Rect, maxTickLabelsBounds: Rect, env: TileEnv): (r: Rect)
    ensures var shrunk := ShrinkByOverflow(geom, tickLabelsBounds, maxTickLabelsBounds);
      r.origin == shrunk.origin &&
      (shrunk == geom ==> r == geom) &&
      (shrunk != geom ==> r.dimension == env.adjustGeomSize(shrunk.dimension))
  {
    var boundsNew := ShrinkByOverflow(geom, tickLabelsBounds, maxTickLabelsBounds);
    if boundsNew != geom then Rect(boundsNew.origin, env.adjustGeomSize(boundsNew.dimension))
    else boundsNew
  }

  /** `tileBounds`: the geometry area widened by the y-axis on the left, the
      geometry margin on top and right, and the x-axis below. */
  function TileBounds(xAxisBounds: Rect, yAxisBounds: Rect, geom: Rect, geomMargin: real): (r: Rect)
    ensures r.Left() == geom.Left() - yAxisBounds.Width()
    ensures r.Top() == geom.Top() - geomMargin
    ensures r.Right() == geom.Right() + geomMargin
    ensures r.Bottom() == geom.Bottom() + xAxisBounds.Height()
  {
    var leftTop := Vec(geom.Left() - yAxisBounds.Width(), geom.Top() - geomMargin);
    var rightBottom := Vec(geom.Right() + geomMargin, geom.Bottom() + xAxisBounds.Height());
    Rect(leftTop, rightBottom.Sub(leftTop))
  }

  /** With axes and margin of non-negative size, the tile holds its geometry area. */
  lemma TileBoundsCoverGeom(xAxisBounds: Rect, yAxisBounds: Rect, geom: Rect, geomMargin: real)
    requires xAxisBounds.Height() >= 0.0 && yAxisBounds.Width() >= 0.0 && geomMargin >= 0.0
    ensures Covers(TileBounds(xAxisBounds, yAxisBounds, geom, geomMargin), geom)
  {
  }

  // ---------------------------------------------------------------------------
  // The layout.

  /** `doLayout`. The marginal-layers feature is off, so the inner and outer
      geometry bounds coincide. */
  function DoLayout(tl: TopDownTileLayout, preferredSize: Vec, env: TileEnv): (r: TileLayoutInfo)
    ensures r.offset == ZeroVec && r.hAxisShown && r.vAxisShown && r.trueIndex == 0
    ensures r.geomInnerBounds == r.geomOuterBounds
    ensures r.hAxisInfo.axisLength == r.geomInnerBounds.Width()
    ensures r.vAxisInfo.axisLength == r.geomInnerBounds.Height()
    ensures r.clipBounds == env.clipBounds(r.geomInnerBounds)
    ensures var infos := ComputeAxisInfos(tl, preferredSize, env);
      r.bounds == TileBounds(infos.hAxisInfo.axisBounds, infos.vAxisInfo.axisBounds, r.geomOuterBounds, env.geomMargin) &&
      r.hAxisInfo.axisBounds == infos.hAxisInfo.axisBounds && r.vAxisInfo.axisBounds == infos.vAxisInfo.axisBounds
    ensures var infos := ComputeAxisInfos(tl, preferredSize, env);
      var geom := env.geomBounds(infos.hAxisInfo.axisBounds.Height(), infos.vAxisInfo.axisBounds.Width(), preferredSize);
      r.geomOuterBounds ==
        GeomOuterBounds(geom, infos.hAxisInfo.tickLabelsBounds, env.maxHAxisTickLabelsBounds(0.0, XRange(geom), preferredSize), env)
  {
    var infos := ComputeAxisInfos(tl, preferredSize, env);
    var hAxisThickness := infos.hAxisInfo.axisBounds.Height();
    var vAxisThickness := infos.vAxisInfo.axisBounds.Width();
    var geomBoundsAfterLayout := env.geomBounds(hAxisThickness, vAxisThickness, preferredSize);
    var maxTickLabelsBounds := env.maxHAxisTickLabelsBounds(0.0, XRange(geomBoundsAfterLayout), preferredSize);
    var geomOuterBounds := GeomOuterBounds(geomBoundsAfterLayout, infos.hAxisInfo.tickLabelsBounds, maxTickLabelsBounds, env);
    var geomWithAxisBounds := TileBounds(infos.hAxisInfo.axisBounds, infos.vAxisInfo.axisBounds, geomOuterBounds, env.geomMargin);
    var geomInnerBounds := geomOuterBounds;
    TileLayoutInfo(
      ZeroVec, geomWithAxisBounds, geomOuterBounds, geomInnerBounds, env.clipBounds(geomInnerBounds),
      infos.hAxisInfo.WithAxisLength(geomInnerBounds.Width()),
      infos.vAxisInfo.WithAxisLength(geomInnerBounds.Height()),
      true, true, 0)
  }

  /** When the x-axis tick labels fit in the room they may take, the geometry
      area is exactly the one computed from the axis thicknesses. */
  lemma NoOverflowKeepsGeom(tl: TopDownTileLayout, preferredSize: Vec, env: TileEnv)
    ensures var infos := ComputeAxisInfos(tl, preferredSize, env);
      var geom := env.geomBounds(infos.hAxisInfo.axisBounds.Height(), infos.vAxisInfo.axisBounds.Width(), preferredSize);
      var maxBounds := env.maxHAxisTickLabelsBounds(0.0, XRange(geom), preferredSize);
      var tick := infos.hAxisInfo.tickLabelsBounds;
      (NoOverflow(tick, maxBounds) <==> ShrinkByOverflow(geom, tick, maxBounds) == geom) &&
      (NoOverflow(tick, maxBounds) ==> DoLayout(tl, preferredSize, env).geomOuterBounds == geom)
  {
  }

  /** The shrunk area never grows: its left edge does not move left and its
      right edge does not move right. */
  lemma ShrinkStaysInside(geom: Rect, tickLabelsBounds: Rect, maxTickLabelsBounds: Rect)
    ensures var r := ShrinkByOverflow(geom, tickLabelsBounds, maxTickLabelsBounds);
      geom.Left() <= r.Left() && r.Right() <= geom.Right() &&
      r.Width() == geom.Width() - Max(LeftOverflow(tickLabelsBounds, maxTickLabelsBounds), 0.0)
                                - Max(RightOverflow(tickLabelsBounds, maxTickLabelsBounds), 0.0)
  {
  }
}
