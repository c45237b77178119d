/** The build information of a composite figure (a grid of sub-figures): it
    must be laid out, for an outer size, before its SVG root can be made. */
module CompositeFigureBuildInfo {
  import opened Common

  /** A sub-figure, as far as the composite looks at it: whether it holds a
      live map, and its geometry area once laid out. */
  datatype FigureElement = FigureElement(containsLiveMap: bool, geomAreaBounds: Rect)

  /** The composite's layout: places the elements within a rectangle. */
  datatype CompositeFigureLayout = CompositeFigureLayout(doLayout: (Rect, seq<Option<FigureElement>>) -> seq<Option<FigureElement>>)

  /** The plot margins of the theme. */
  datatype Margins = Margins(top: real, right: real, bottom: real, left: real) {
    function Width(): real { left + right }
    function Height(): real { top + bottom }
  }

  datatype Theme = Theme(plotMargins: Margins)

  datatype FigureLayoutInfo = FigureLayoutInfo(figureSize: Vec, geomAreaBounds: Rect)

  datatype SvgRoot = CompositeFigureSvgRoot(elementRoots: seq<FigureElement>, size: Vec, theme: Theme, bounds: Rect)

  /** The elements that are present, in order. */
  function NonNull(elements: seq<Option<FigureElement>>): (r: seq<FigureElement>)
    ensures |r| <= |elements|
  {
    if |elements| == 0 then []
    else
      var init := NonNull(elements[..|elements| - 1]);
      var last := elements[|elements| - 1];
      if last.Some? then init + [last.value] else init
  }

  lemma {:induction false} NonNullMembers(elements: seq<Option<FigureElement>>, e: FigureElement)
    ensures e in NonNull(elements) <==> Some(e) in elements
  {
    if |elements| > 0 {
      NonNullMembers(elements[..|elements| - 1], e);
      assert elements == elements[..|elements| - 1] + [elements[|elements| - 1]];
    }
  }

  function AnyLiveMap(elements: seq<FigureElement>): (r: bool)
    ensures r <==> exists i :: 0 <= i < |elements| && elements[i].containsLiveMap
  {
    if |elements| == 0 then false
    else
      assert forall i :: 0 <= i < |elements| - 1 ==> elements[..|elements| - 1][i] == elements[i];
      AnyLiveMap(elements[..|elements| - 1]) || elements[|elements| - 1].containsLiveMap
  }

  /** The smallest rectangle holding all of `rects`, as `reduce(union)`. */
  function UnionAll(rects: seq<Rect>): Rect
    requires |rects| > 0
  {
    if |rects| == 1 then rects[0] else Union(UnionAll(rects[..|rects| - 1]), rects[|rects| - 1])
  }

  /** The union holds every rectangle, and each of its edges is some
      rectangle's edge. */
  lemma {:induction false} UnionAllBounds(rects: seq<Rect>)
    requires |rects| > 0
    ensures forall i :: 0 <= i < |rects| ==> Covers(UnionAll(rects), rects[i])
    ensures exists i :: 0 <= i < |rects| && UnionAll(rects).Left() == rects[i].Left()
    ensures exists i :: 0 <= i < |rects| && UnionAll(rects).Top() == rects[i].Top()
    ensures exists i :: 0 <= i < |rects| && UnionAll(rects).Right() == rects[i].Right()
    ensures exists i :: 0 <= i < |rects| && UnionAll(rects).Bottom() == rects[i].Bottom()
  {
    if |rects| > 1 {
      var init := rects[..|rects| - 1];
      UnionAllBounds(init);
      assert forall i :: 0 <= i < |init| ==> init[i] == rects[i];
      var n := |rects| - 1;
      var l :| 0 <= l < |init| && UnionAll(init).Left() == init[l].Left();
      var t :| 0 <= t < |init| && UnionAll(init).Top() == init[t].Top();
      var r :| 0 <= r < |init| && UnionAll(init).Right() == init[r].Right();
      var b :| 0 <= b < |init| && UnionAll(init).Bottom() == init[b].Bottom();
      var u := UnionAll(rects);
      assert u.Left() == rects[l].Left() || u.Left() == rects[n].Left();
      assert u.Top() == rects[t].Top() || u.Top() == rects[n].Top();
      assert u.Right() == rects[r].Right() || u.Right() == rects[n].Right();
      assert u.Bottom() == rects[b].Bottom() || u.Bottom() == rects[n].Bottom();
    } else {
      var u := UnionAll(rects);
      assert u.Left() == rects[0].Left() && u.Top() == rects[0].Top();
      assert u.Right() == rects[0].Right() && u.Bottom() == rects[0].Bottom();
    }
  }

  function GeomAreas(elements: seq<FigureElement>): (r: seq<Rect>)
    ensures |r| == |elements| && forall i :: 0 <= i < |elements| ==> r[i] == elements[i].geomAreaBounds
  {
    seq(|elements|, i requires 0 <= i < |elements| => elements[i].geomAreaBounds)
  }

  /** The rectangle the elements are laid out in: the outer size less the
      plot margins, placed at the left and top margins. */
  function ElementsBounds(theme: Theme, outerSize: Vec): (r: Rect)
    ensures r.Left() == theme.plotMargins.left && r.Top() == theme.plotMargins.top
    ensures r.Right() == outerSize.x - theme.plotMargins.right && r.Bottom() == outerSize.y - theme.plotMargins.bottom
  {
    var m := theme.plotMargins;
    Rect(Vec(m.left, m.top), outerSize.Sub(Vec(m.Width(), m.Height())))
  }

  /** With non-negative margins, the element area lies within the figure. */
  lemma ElementsWithinFigure(theme: Theme, outerSize: Vec)
    requires theme.plotMargins.top >= 0.0 && theme.plotMargins.right >= 0.0
    requires theme.plotMargins.bottom >= 0.0 && theme.plotMargins.left >= 0.0
    ensures Covers(Rect(ZeroVec, outerSize), ElementsBounds(theme, outerSize))
  {
  }

  class CompositeFigureBuildInfo {
    const elements: seq<Option<FigureElement>>
    const layout: CompositeFigureLayout
    const bounds: Rect
    const theme: Theme
    const computationMessages: seq<string>
    /** Set once layout has run. */
    var layoutInfo: Option<FigureLayoutInfo>

    constructor(elements: seq<Option<FigureElement>>, layout: CompositeFigureLayout, bounds: Rect, theme: Theme,
                computationMessages: seq<string>)
      ensures this.elements == elements && this.layout == layout && this.bounds == bounds
      ensures this.theme == theme && this.computationMessages == computationMessages
      ensures layoutInfo.None?
    {
      this.elements := elements;
      this.layout := layout;
      this.bounds := bounds;
      this.theme := theme;
      this.computationMessages := computationMessages;
      layoutInfo := None;
    }

    function IsComposite(): (r: bool)
      ensures r
    {
      true
    }

    /** Some present element holds a live map. */
    function ContainsLiveMap(): (r: bool)
      ensures r <==> exists e :: Some(e) in elements && e.containsLiveMap
    {
      var present := NonNull(elements);
      assert forall e :: e in present <==> Some(e) in elements by {
        forall e { NonNullMembers(elements, e); }
      }
      AnyLiveMap(present)
    }

    /** Equal bounds give this very figure; other bounds a new figure, not laid
        out, that keeps everything else. */
    method WithBounds(b: Rect) returns (r: CompositeFigureBuildInfo)
      ensures b == bounds ==> r == this
      ensures b != bounds ==> fresh(r) && r.bounds == b && r.layoutInfo.None?
      ensures b != bounds ==>
        r.elements == elements && r.layout == layout && r.theme == theme && r.computationMessages == computationMessages
    {
      if b == bounds {
        r := this;
      } else {
        r := new CompositeFigureBuildInfo(elements, layout, b, theme, computationMessages);
      }
    }

    /** Lays the elements out within the outer size less the margins; the
        geometry area is the union of the laid-out elements' areas, and there
        must be at least one. */
    method LayoutedByOuterSize() returns (r: Result<CompositeFigureBuildInfo>)
      ensures var laid := layout.doLayout(ElementsBounds(theme, bounds.dimension), elements);
        (r.Err? <==> |NonNull(laid)| == 0) &&
        (r.Err? ==> r.error.Unsupported?) &&
        (r.Ok? ==> (fresh(r.value) && r.value.elements == laid && r.value.bounds == bounds &&
          r.value.layout == layout && r.value.theme == theme && r.value.computationMessages == computationMessages &&
          r.value.layoutInfo == Some(FigureLayoutInfo(bounds.dimension, UnionAll(GeomAreas(NonNull(laid)))))))
    {
      var outerSize := bounds.dimension;
      var elementsBounds := ElementsBounds(theme, outerSize);
      var layoutedElements := layout.doLayout(elementsBounds, elements);
      var areas := GeomAreas(NonNull(layoutedElements));
      if |areas| == 0 {
        return Err(Unsupported("Empty collection can't be reduced."));
      }
      var geomBounds := UnionAll(areas);
      var info := new CompositeFigureBuildInfo(layoutedElements, layout, bounds, theme, computationMessages);
      info.layoutInfo := Some(FigureLayoutInfo(outerSize, geomBounds));
      r := Ok(info);
    }

    /** Layout by geometry bounds is not supported for composites. */
    function LayoutedByGeomBounds(geomBounds: Rect): (r: Result<CompositeFigureBuildInfo>)
      ensures r.Err? && r.error.Unsupported?
    {
      Err(Unsupported("Composite figure does not support layouting by \"geometry bounds\"."))
    }

    /** A new figure of the given size at the origin, not laid out. */
    method WithPreferredSize(size: Vec) returns (r: CompositeFigureBuildInfo)
      ensures fresh(r) && r.bounds == Rect(ZeroVec, size) && r.layoutInfo.None?
      ensures r.elements == elements && r.layout == layout && r.theme == theme && r.computationMessages == computationMessages
    {
      r := new CompositeFigureBuildInfo(elements, layout, Rect(ZeroVec, size), theme, computationMessages);
    }

    /** The SVG root of the present elements; only a laid-out figure has one. */
    function CreateSvgRoot(): (r: Result<SvgRoot>)
      reads this
      ensures r.Err? <==> layoutInfo.None?
      ensures r.Err? ==> r.error.IllegalState?
      ensures r.Ok? ==> r.value.bounds == bounds && r.value.size == bounds.dimension
      ensures r.Ok? ==> forall e :: e in r.value.elementRoots <==> Some(e) in elements
      ensures r.Ok? ==> r.value.elementRoots == NonNull(elements) && r.value.theme == theme
    {
      if layoutInfo.None? then Err(IllegalState("Composite figure is not layouted."))
      else
        assert forall e :: e in NonNull(elements) <==> Some(e) in elements by {
          forall e { NonNullMembers(elements, e); }
        }
        Ok(CompositeFigureSvgRoot(NonNull(elements), bounds.dimension, theme, bounds))
    }
  }

  /** A laid-out figure covers every present element's geometry area. */
  lemma LayoutCoversElements(laid: seq<Option<FigureElement>>, e: FigureElement)
    requires Some(e) in laid
    ensures |NonNull(laid)| > 0
    ensures Covers(UnionAll(GeomAreas(NonNull(laid))), e.geomAreaBounds)
  {
    NonNullMembers(laid, e);
    var present := NonNull(laid);
    var i :| 0 <= i < |present| && present[i] == e;
    UnionAllBounds(GeomAreas(present));
  }
}
