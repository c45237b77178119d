/** The square frame of reference of a plot tile: which panel elements it draws
    before and after the geometry layer, in which order, and how a layer's
    geometry is set up for a flipped or y-oriented layer. */
module SquareFrameOfReference {
  import opened Common

  datatype Orientation = Top | Bottom | Left | Right

  /** An axis of the tile layout: its side and length. */
  datatype AxisInfo = AxisInfo(orientation: Orientation, axisLength: real)

  /** The axes a tile has on each side, if any. */
  datatype AxisInfos = AxisInfos(top: Option<AxisInfo>, bottom: Option<AxisInfo>, left: Option<AxisInfo>, right: Option<AxisInfo>)

  /** The parts of the tile layout the frame reads. */
  datatype FrameLayout = FrameLayout(axisInfos: AxisInfos, hAxisShown: bool, vAxisShown: bool)

  /** The theme settings the frame reads. Axis and grid placement depend on
      whether the axes are flipped. */
  datatype FrameTheme = FrameTheme(
    horizontalAxisOntop: bool -> bool,
    verticalAxisOntop: bool -> bool,
    gridXOntop: bool -> bool,
    gridYOntop: bool -> bool,
    showRect: bool,
    showBorder: bool,
    borderIsOntop: bool,
    rectFill: Color,
    plotBackgroundFill: Color)

  /** An element added to the parent component, without its drawing attributes. */
  datatype Element =
    | PanelFill
    | HGrid(axis: AxisInfo)
    | VGrid(axis: AxisInfo)
    | HAxis(axis: AxisInfo, hideBreaks: bool)
    | VAxis(axis: AxisInfo, hideBreaks: bool)
    | PanelStroke
    | PanelBorder
    | DebugTileBounds
    | DebugGeomBounds

  /** The position of an element's kind in the fixed emission order of a pass;
      the two debug shapes share the last place. */
  function Rank(e: Element): nat {
    match e
    case PanelFill => 0
    case HGrid(_) => 1
    case VGrid(_) => 2
    case HAxis(_, _) => 3
    case VAxis(_, _) => 4
    case PanelStroke => 5
    case PanelBorder => 6
    case DebugTileBounds => 7
    case DebugGeomBounds => 7
  }

  /** The concatenation of groups of elements. */
  function Flatten(gs: seq<seq<Element>>): seq<Element> {
    if |gs| == 0 then [] else Flatten(gs[..|gs| - 1]) + gs[|gs| - 1]
  }

  lemma FlattenStep(gs: seq<seq<Element>>, k: nat)
    requires k < |gs|
    ensures Flatten(gs[..k + 1]) == Flatten(gs[..k]) + gs[k]
  {
    assert gs[..k + 1][..k] == gs[..k];
  }

  /** Group `k` holds only elements of rank `k`. */
  predicate GroupRanked(gs: seq<seq<Element>>) {
    forall k, i :: 0 <= k < |gs| && 0 <= i < |gs[k]| ==> Rank(gs[k][i]) == k
  }

  predicate RankOrdered(s: seq<Element>) {
    forall i, j :: 0 <= i < j < |s| ==> Rank(s[i]) <= Rank(s[j])
  }

  /** Flattening rank-grouped elements gives a rank-ordered sequence, in which
      an element occurs exactly when it occurs in the group of its rank. */
  lemma {:induction false} FlattenRanked(gs: seq<seq<Element>>)
    requires GroupRanked(gs)
    ensures RankOrdered(Flatten(gs))
    ensures forall i :: 0 <= i < |Flatten(gs)| ==> Rank(Flatten(gs)[i]) < |gs|
    ensures forall e :: e in Flatten(gs) <==> Rank(e) < |gs| && e in gs[Rank(e)]
  {
    if |gs| > 0 {
      var n := |gs| - 1;
      var p := gs[..n];
      assert GroupRanked(p) by {
        forall k, i | 0 <= k < |p| && 0 <= i < |p[k]| ensures Rank(p[k][i]) == k {
          assert p[k] == gs[k];
        }
      }
      FlattenRanked(p);
      var fp := Flatten(p);
      var f := Flatten(gs);
      assert f == fp + gs[n];
      forall i, j | 0 <= i < j < |f| ensures Rank(f[i]) <= Rank(f[j]) {
        if j >= |fp| {
          assert f[j] == gs[n][j - |fp|];
          if i >= |fp| {
            assert f[i] == gs[n][i - |fp|];
          }
        }
      }
      forall i | 0 <= i < |f| ensures Rank(f[i]) < |gs| {
        if i >= |fp| {
          assert f[i] == gs[n][i - |fp|];
        }
      }
      forall e ensures e in f <==> Rank(e) < |gs| && e in gs[Rank(e)] {
        if e in gs[n] {
          var i :| 0 <= i < |gs[n]| && gs[n][i] == e;
          assert Rank(e) == n;
        }
        if e in fp {
          var i :| 0 <= i < |fp| && fp[i] == e;
          assert Rank(e) < n;
          assert gs[Rank(e)] == p[Rank(e)];
        }
        if Rank(e) < n {
          assert gs[Rank(e)] == p[Rank(e)];
        }
      }
    }
  }

  /** `listOfNotNull(a, b)`. */
  function NotNull(a: Option<AxisInfo>, b: Option<AxisInfo>): (r: seq<AxisInfo>)
    ensures forall x :: x in r <==> (a == Some(x) || b == Some(x))
    ensures |r| <= 2
  {
    (if a.Some? then [a.value] else []) + (if b.Some? then [b.value] else [])
  }

  function HAxisInfos(layout: FrameLayout): seq<AxisInfo> {
    NotNull(layout.axisInfos.top, layout.axisInfos.bottom)
  }

  function VAxisInfos(layout: FrameLayout): seq<AxisInfo> {
    NotNull(layout.axisInfos.left, layout.axisInfos.right)
  }

  function HGrids(axes: seq<AxisInfo>): (r: seq<Element>)
    ensures |r| == |axes| && forall i :: 0 <= i < |r| ==> r[i] == HGrid(axes[i])
  {
    seq(|axes|, i requires 0 <= i < |axes| => HGrid(axes[i]))
  }

  function VGrids(axes: seq<AxisInfo>): (r: seq<Element>)
    ensures |r| == |axes| && forall i :: 0 <= i < |r| ==> r[i] == VGrid(axes[i])
  {
    seq(|axes|, i requires 0 <= i < |axes| => VGrid(axes[i]))
  }

  function HAxes(axes: seq<AxisInfo>, hideBreaks: bool): (r: seq<Element>)
    ensures |r| == |axes| && forall i :: 0 <= i < |r| ==> r[i] == HAxis(axes[i], hideBreaks)
  {
    seq(|axes|, i requires 0 <= i < |axes| => HAxis(axes[i], hideBreaks))
  }

  function VAxes(axes: seq<AxisInfo>, hideBreaks: bool): (r: seq<Element>)
    ensures |r| == |axes| && forall i :: 0 <= i < |r| ==> r[i] == VAxis(axes[i], hideBreaks)
  {
    seq(|axes|, i requires 0 <= i < |axes| => VAxis(axes[i], hideBreaks))
  }

  /** The drawing decisions of one pass of `drawPanelAndAxis`. */
  datatype PassFlags = PassFlags(
    fillBkgr: bool, drawHGrid: bool, drawVGrid: bool, drawHAxis: bool, drawVAxis: bool,
    strokeBkgr: bool, drawPanelBorder: bool, drawDebug: bool)

  /** The fill belongs to the pass before the geometry; stroke, border, grids
      and axes to the pass their "on top" setting selects (exclusive or); the
      debug shapes to the pass after the geometry. */
  function Flags(theme: FrameTheme, flipAxis: bool, beforeGeomLayer: bool, debug: bool): PassFlags {
    PassFlags(
      theme.showRect && beforeGeomLayer,
      beforeGeomLayer != theme.gridXOntop(flipAxis),
      beforeGeomLayer != theme.gridYOntop(flipAxis),
      beforeGeomLayer != theme.horizontalAxisOntop(flipAxis),
      beforeGeomLayer != theme.verticalAxisOntop(flipAxis),
      theme.showRect && (theme.borderIsOntop != beforeGeomLayer),
      theme.showBorder && (theme.borderIsOntop != beforeGeomLayer),
      debug && !beforeGeomLayer)
  }

  /** What drawer `k` of a pass emits. */
  function Group(k: nat, f: PassFlags, layout: FrameLayout): (r: seq<Element>)
    requires k < 8
    ensures forall i :: 0 <= i < |r| ==> Rank(r[i]) == k
  {
    match k
    case 0 => if f.fillBkgr then [PanelFill] else []
    case 1 => if f.drawHGrid then HGrids(HAxisInfos(layout)) else []
    case 2 => if f.drawVGrid then VGrids(VAxisInfos(layout)) else []
    case 3 => if f.drawHAxis then HAxes(HAxisInfos(layout), !layout.hAxisShown) else []
    case 4 => if f.drawVAxis then VAxes(VAxisInfos(layout), !layout.vAxisShown) else []
    case 5 => if f.strokeBkgr then [PanelStroke] else []
    case 6 => if f.drawPanelBorder then [PanelBorder] else []
    case _ => if f.drawDebug then [DebugTileBounds, DebugGeomBounds] else []
  }

  /** The elements one pass of `drawPanelAndAxis` emits, grouped by the drawer
      that emits them, in emission order. */
  function PassGroups(layout: FrameLayout, theme: FrameTheme, flipAxis: bool, beforeGeomLayer: bool, debug: bool): (gs: seq<seq<Element>>)
    ensures |gs| == 8 && GroupRanked(gs)
  {
    seq(8, k requires 0 <= k < 8 => Group(k, Flags(theme, flipAxis, beforeGeomLayer, debug), layout))
  }

  /** The elements one pass of `drawPanelAndAxis` emits, in emission order. */
  function PassElements(layout: FrameLayout, theme: FrameTheme, flipAxis: bool, beforeGeomLayer: bool, debug: bool): seq<Element> {
    Flatten(PassGroups(layout, theme, flipAxis, beforeGeomLayer, debug))
  }

  /** Within a pass the order is fixed: fill, horizontal grids, vertical grids,
      horizontal axes, vertical axes, stroke, border, then the debug shapes. */
  lemma PassOrder(layout: FrameLayout, theme: FrameTheme, flipAxis: bool, beforeGeomLayer: bool, debug: bool)
    ensures RankOrdered(PassElements(layout, theme, flipAxis, beforeGeomLayer, debug))
  {
    FlattenRanked(PassGroups(layout, theme, flipAxis, beforeGeomLayer, debug));
  }

  /** An element is in a pass exactly when the drawer of its rank emits it. */
  lemma InPass(layout: FrameLayout, theme: FrameTheme, flipAxis: bool, b: bool, debug: bool, e: Element)
    ensures e in PassElements(layout, theme, flipAxis, b, debug) <==>
      Rank(e) < 8 && e in Group(Rank(e), Flags(theme, flipAxis, b, debug), layout)
  {
    FlattenRanked(PassGroups(layout, theme, flipAxis, b, debug));
  }

  /** The fill is drawn only before the geometry and only with the panel
      rectangle shown; stroke and border in the single pass their placement
      selects; debug shapes only after the geometry with debug drawing on. */
  lemma PanelPasses(layout: FrameLayout, theme: FrameTheme, flipAxis: bool, debug: bool, b: bool)
    ensures PanelFill in PassElements(layout, theme, flipAxis, b, debug) <==> b && theme.showRect
    ensures PanelStroke in PassElements(layout, theme, flipAxis, b, debug) <==> theme.showRect && theme.borderIsOntop != b
    ensures PanelBorder in PassElements(layout, theme, flipAxis, b, debug) <==> theme.showBorder && theme.borderIsOntop != b
    ensures DebugTileBounds in PassElements(layout, theme, flipAxis, b, debug) <==> debug && !b
  {
    InPass(layout, theme, flipAxis, b, debug, PanelFill);
    InPass(layout, theme, flipAxis, b, debug, PanelStroke);
    InPass(layout, theme, flipAxis, b, debug, PanelBorder);
    InPass(layout, theme, flipAxis, b, debug, DebugTileBounds);
  }

  /** Every grid is drawn in exactly one of the two passes. */
  lemma GridsOnce(layout: FrameLayout, theme: FrameTheme, flipAxis: bool, debug: bool, b: bool, a: AxisInfo)
    ensures a in HAxisInfos(layout) ==>
      (HGrid(a) in PassElements(layout, theme, flipAxis, b, debug) <==>
       HGrid(a) !in PassElements(layout, theme, flipAxis, !b, debug))
    ensures a in VAxisInfos(layout) ==>
      (VGrid(a) in PassElements(layout, theme, flipAxis, b, debug) <==>
       VGrid(a) !in PassElements(layout, theme, flipAxis, !b, debug))
  {
    InPass(layout, theme, flipAxis, b, debug, HGrid(a));
    InPass(layout, theme, flipAxis, !b, debug, HGrid(a));
    InPass(layout, theme, flipAxis, b, debug, VGrid(a));
    InPass(layout, theme, flipAxis, !b, debug, VGrid(a));
    if a in HAxisInfos(layout) {
      var k :| 0 <= k < |HAxisInfos(layout)| && HAxisInfos(layout)[k] == a;
      assert HGrids(HAxisInfos(layout))[k] == HGrid(a);
    }
    if a in VAxisInfos(layout) {
      var k :| 0 <= k < |VAxisInfos(layout)| && VAxisInfos(layout)[k] == a;
      assert VGrids(VAxisInfos(layout))[k] == VGrid(a);
    }
  }

  /** Every axis is drawn in exactly one of the two passes. */
  lemma AxesOnce(layout: FrameLayout, theme: FrameTheme, flipAxis: bool, debug: bool, b: bool, a: AxisInfo)
    ensures a in HAxisInfos(layout) ==>
      (HAxis(a, !layout.hAxisShown) in PassElements(layout, theme, flipAxis, b, debug) <==>
       HAxis(a, !layout.hAxisShown) !in PassElements(layout, theme, flipAxis, !b, debug))
    ensures a in VAxisInfos(layout) ==>
      (VAxis(a, !layout.vAxisShown) in PassElements(layout, theme, flipAxis, b, debug) <==>
       VAxis(a, !layout.vAxisShown) !in PassElements(layout, theme, flipAxis, !b, debug))
  {
    InPass(layout, theme, flipAxis, b, debug, HAxis(a, !layout.hAxisShown));
    InPass(layout, theme, flipAxis, !b, debug, HAxis(a, !layout.hAxisShown));
    InPass(layout, theme, flipAxis, b, debug, VAxis(a, !layout.vAxisShown));
    InPass(layout, theme, flipAxis, !b, debug, VAxis(a, !layout.vAxisShown));
    if a in HAxisInfos(layout) {
      var k :| 0 <= k < |HAxisInfos(layout)| && HAxisInfos(layout)[k] == a;
      assert HAxes(HAxisInfos(layout), !layout.hAxisShown)[k] == HAxis(a, !layout.hAxisShown);
    }
    if a in VAxisInfos(layout) {
      var k :| 0 <= k < |VAxisInfos(layout)| && VAxisInfos(layout)[k] == a;
      assert VAxes(VAxisInfos(layout), !layout.vAxisShown)[k] == VAxis(a, !layout.vAxisShown);
    }
  }

  /** Axes are drawn only for the sides that have one, horizontal axes for top
      and bottom and vertical ones for left and right, with their breaks
      hidden exactly when that direction is not shown. */
  lemma AxesOfPass(layout: FrameLayout, theme: FrameTheme, flipAxis: bool, beforeGeomLayer: bool, debug: bool, e: Element)
    requires e in PassElements(layout, theme, flipAxis, beforeGeomLayer, debug)
    ensures e.HAxis? ==>
      (layout.axisInfos.top == Some(e.axis) || layout.axisInfos.bottom == Some(e.axis)) && e.hideBreaks == !layout.hAxisShown
    ensures e.VAxis? ==>
      (layout.axisInfos.left == Some(e.axis) || layout.axisInfos.right == Some(e.axis)) && e.hideBreaks == !layout.vAxisShown
  {
    var gs := PassGroups(layout, theme, flipAxis, beforeGeomLayer, debug);
    FlattenRanked(gs);
    if e.HAxis? {
      var i :| 0 <= i < |gs[3]| && gs[3][i] == e;
    } else if e.VAxis? {
      var i :| 0 <= i < |gs[4]| && gs[4][i] == e;
    }
  }

  // ---------------------------------------------------------------------------
  // Drawing into a parent component.

  /** A component that collects the elements added to it. */
  class SvgComponent {
    var children: seq<Element>

    constructor ()
      ensures children == []
    {
      children := [];
    }

    method Add(e: Element)
      modifies this
      ensures children == old(children) + [e]
    {
      children := children + [e];
    }
  }

  /** One drawer's elements appended after the earlier drawers' elements. */
  lemma StepDone(start: seq<Element>, gs: seq<seq<Element>>, k: nat, before: seq<Element>, after: seq<Element>)
    requires k < |gs|
    requires before == start + Flatten(gs[..k])
    requires after == before + gs[k]
    ensures after == start + Flatten(gs[..k + 1])
  {
    FlattenStep(gs, k);
  }

  /** The `forEach` of the grid and axis drawers: one element per axis, in order. */
  method AddAll(parent: SvgComponent, elements: seq<Element>)
    modifies parent
    ensures parent.children == old(parent.children) + elements
  {
    var i := 0;
    while i < |elements|
      invariant 0 <= i <= |elements|
      invariant parent.children == old(parent.children) + elements[..i]
    {
      parent.Add(elements[i]);
      assert elements[..i + 1] == elements[..i] + [elements[i]];
      i := i + 1;
    }
    assert elements[..i] == elements;
  }

  class SquareFrameOfReference {
    const layoutInfo: FrameLayout
    const theme: FrameTheme
    const flipAxis: bool
    var isDebugDrawing: bool

    constructor (layoutInfo: FrameLayout, theme: FrameTheme, flipAxis: bool)
      ensures this.layoutInfo == layoutInfo && this.theme == theme && this.flipAxis == flipAxis
      ensures !isDebugDrawing
    {
      this.layoutInfo := layoutInfo;
      this.theme := theme;
      this.flipAxis := flipAxis;
      isDebugDrawing := false;
    }

    method DrawBeforeGeomLayer(parent: SvgComponent)
      modifies parent
      ensures parent.children == old(parent.children) + PassElements(layoutInfo, theme, flipAxis, true, isDebugDrawing)
    {
      DrawPanelAndAxis(parent, true);
    }

    method DrawAfterGeomLayer(parent: SvgComponent)
      modifies parent
      ensures parent.children == old(parent.children) + PassElements(layoutInfo, theme, flipAxis, false, isDebugDrawing)
    {
      DrawPanelAndAxis(parent, false);
    }

    method DrawPanelAndAxis(parent: SvgComponent, beforeGeomLayer: bool)
      modifies parent
      ensures parent.children == old(parent.children) + PassElements(layoutInfo, theme, flipAxis, beforeGeomLayer, isDebugDrawing)
    {
      var flags := PassFlags(
        theme.showRect && beforeGeomLayer,
        beforeGeomLayer != theme.gridXOntop(flipAxis),
        beforeGeomLayer != theme.gridYOntop(flipAxis),
        beforeGeomLayer != theme.horizontalAxisOntop(flipAxis),
        beforeGeomLayer != theme.verticalAxisOntop(flipAxis),
        theme.showRect && (theme.borderIsOntop != beforeGeomLayer),
        theme.showBorder && (theme.borderIsOntop != beforeGeomLayer),
        isDebugDrawing && !beforeGeomLayer);
      assert flags == Flags(theme, flipAxis, beforeGeomLayer, isDebugDrawing);
      ghost var start := parent.children;
      ghost var gs := PassGroups(layoutInfo, theme, flipAxis, beforeGeomLayer, isDebugDrawing);
      // The drawers run one after the other, in rank order.
      var k := 0;
      while k < 8
        invariant 0 <= k <= 8
        invariant parent.children == start + Flatten(gs[..k])
      {
        ghost var mid := parent.children;
        DrawGroup(parent, k, flags);
        StepDone(start, gs, k, mid, parent.children);
        k := k + 1;
      }
      assert gs[..8] == gs;
    }

    /** The drawer of rank `k`, emitting only when its flag is set. */
    method DrawGroup(parent: SvgComponent, k: nat, flags: PassFlags)
      requires k < 8
      modifies parent
      ensures parent.children == old(parent.children) + Group(k, flags, layoutInfo)
    {
      match k
      case 0 =>
        if flags.fillBkgr { parent.Add(PanelFill); }
      case 1 =>
        if flags.drawHGrid { AddAll(parent, HGrids(HAxisInfos(layoutInfo))); }
      case 2 =>
        if flags.drawVGrid { AddAll(parent, VGrids(VAxisInfos(layoutInfo))); }
      case 3 =>
        if flags.drawHAxis { AddAll(parent, HAxes(HAxisInfos(layoutInfo), !layoutInfo.hAxisShown)); }
      case 4 =>
        if flags.drawVAxis { AddAll(parent, VAxes(VAxisInfos(layoutInfo), !layoutInfo.vAxisShown)); }
      case 5 =>
        if flags.strokeBkgr { parent.Add(PanelStroke); }
      case 6 =>
        if flags.drawPanelBorder { parent.Add(PanelBorder); }
      case _ =>
        if flags.drawDebug {
          parent.Add(DebugTileBounds);
          parent.Add(DebugGeomBounds);
        }
    }
  }

  // ---------------------------------------------------------------------------
  // Geometry of one layer.

  /** The wrappers applied to a target collector, innermost first. */
  datatype CollectorWrapper = WithFlippedAxis | WithYOrientation

  /** A target collector: the one passed in and the wrappers put around it. */
  datatype TargetCollector = TargetCollector(base: int, wrappers: seq<CollectorWrapper>)

  /** What `buildGeom` hands to the layer renderer: the effective flip, whether
      the coordinate system is flipped, the target collector and the
      background colour. */
  datatype GeomSetup = GeomSetup(flipped: bool, coordFlipped: bool, collector: TargetCollector, backgroundColor: Color)

  /** The background colour a layer is drawn against: the panel fill when the
      panel rectangle is shown, otherwise the plot background. */
  function BackgroundColor(theme: FrameTheme): (c: Color)
    ensures theme.showRect ==> c == theme.rectFill
    ensures !theme.showRect ==> c == theme.plotBackgroundFill
  {
    if theme.showRect then theme.rectFill else theme.plotBackgroundFill
  }

  /** `buildGeom`: a y-oriented layer negates the frame's flip and flips the
      coordinate system; the collector is wrapped for the flip first and for
      the y-orientation second. */
  function BuildGeom(isYOrientation: bool, flippedAxis: bool, collector: TargetCollector, backgroundColor: Color): (r: GeomSetup)
    ensures r.flipped == (isYOrientation != flippedAxis)
    ensures r.coordFlipped == isYOrientation
    ensures r.collector.base == collector.base
    ensures r.collector.wrappers ==
      collector.wrappers + (if r.flipped then [WithFlippedAxis] else []) + (if isYOrientation then [WithYOrientation] else [])
    ensures r.backgroundColor == backgroundColor
  {
    var flipped := if isYOrientation then !flippedAxis else flippedAxis;
    var c1 := if flipped then TargetCollector(collector.base, collector.wrappers + [WithFlippedAxis]) else collector;
    var c2 := if isYOrientation then TargetCollector(c1.base, c1.wrappers + [WithYOrientation]) else c1;
    GeomSetup(flipped, isYOrientation, c2, backgroundColor)
  }

  /** A y-oriented layer in a flipped frame is drawn unflipped: the two flips
      cancel, and only the y-orientation wrapper is added. */
  lemma FlipsCancel(collector: TargetCollector, backgroundColor: Color)
    ensures var r := BuildGeom(true, true, collector, backgroundColor);
      !r.flipped && r.collector.wrappers == collector.wrappers + [WithYOrientation]
  {
  }
}
