/** The live map's projection: a geographic projection followed by a linear
    map per axis that fits the projected valid region into the map
    rectangle, optionally mirrored along either axis. */
module MapProjectionBuilder {
  import opened Common

  /** A projection of one coordinate, built from the pieces the builder
      uses: `offset`, `Projections.scale` and `composite` (`t2` after `t1`). */
  datatype Projection =
    | Offset(o: real)
    | Scale(s: real)
    | Composite(t1: Projection, t2: Projection)

  /** Every scale in the projection is non-zero, so it can be inverted. */
  predicate Invertible(p: Projection) {
    match p
    case Offset(_) => true
    case Scale(s) => s != 0.0
    case Composite(t1, t2) => Invertible(t1) && Invertible(t2)
  }

  /** `project`: an offset subtracts, a scale multiplies, a composite applies
      its first part and then its second. */
  function Project(p: Projection, v: real): real {
    match p
    case Offset(o) => v - o
    case Scale(s) => v * s
    case Composite(t1, t2) => Project(t2, Project(t1, v))
  }

  /** `invert`: an offset adds, a scale divides, a composite inverts its
      second part and then its first. */
  function Invert(p: Projection, v: real): real
    requires Invertible(p)
  {
    match p
    case Offset(o) => v + o
    case Scale(s) => v / s
    case Composite(t1, t2) => Invert(t1, Invert(t2, v))
  }

  /** Inverting undoes projecting, for every projection built from offsets,
      non-zero scales and composites. */
  lemma {:induction false} InvertProject(p: Projection, v: real)
    requires Invertible(p)
    ensures Invert(p, Project(p, v)) == v
  {
    match p
    case Offset(_) =>
    case Scale(_) =>
    case Composite(t1, t2) =>
      InvertProject(t2, Project(t1, v));
      InvertProject(t1, v);
  }

  /** Projecting undoes inverting: the projection is a bijection. */
  lemma {:induction false} ProjectInvert(p: Projection, w: real)
    requires Invertible(p)
    ensures Project(p, Invert(p, w)) == w
  {
    match p
    case Offset(_) =>
    case Scale(_) =>
    case Composite(t1, t2) =>
      ProjectInvert(t1, Invert(t2, w));
      ProjectInvert(t2, w);
  }

  /** `linear`: shift by the offset, then scale; invertible exactly when the
      scale is non-zero. */
  function Linear(offset: real, scale: real): (p: Projection)
    ensures Invertible(p) <==> scale != 0.0
    ensures forall v :: Project(p, v) == (v - offset) * scale
    ensures scale != 0.0 ==> forall w :: Invert(p, w) == w / scale + offset
  {
    Composite(Offset(offset), Scale(scale))
  }

  /** The geographic projection, given by its two directions, and its valid
      region in longitude/latitude. */
  datatype GeoProjection = GeoProjection(project: Vec -> Vec, invert: Vec -> Vec, validRect: Rect)

  /** The geographic projection's inverse undoes it. */
  ghost predicate GeoRoundTrips(g: GeoProjection) {
    forall v :: g.invert(g.project(v)) == v
  }

  /** The projection the builder creates: the composite of the geographic
      projection with the tuple of one linear projection per axis, and the
      map rectangle it reports. */
  datatype MapProjection = MapProjection(geo: GeoProjection, px: Projection, py: Projection, mapRect: Rect)

  /** `project` of the created projection. */
  function MapProject(m: MapProjection, v: LonLat): Vec {
    var g := m.geo.project(v);
    Vec(Project(m.px, g.x), Project(m.py, g.y))
  }

  /** `invert` of the created projection. */
  function MapInvert(m: MapProjection, w: Vec): LonLat
    requires Invertible(m.px) && Invertible(m.py)
  {
    m.geo.invert(Vec(Invert(m.px, w.x), Invert(m.py, w.y)))
  }

  type LonLat = Vec

  /** The fitting scale: the smaller of the two ratios of the map rectangle
      to the projected valid rectangle, so that both sides fit. */
  function FitScale(mapRect: Rect, rect: Rect): (s: real)
    requires rect.Width() > 0.0 && rect.Height() > 0.0
    ensures s * rect.Width() <= mapRect.Width() && s * rect.Height() <= mapRect.Height()
    ensures s * rect.Width() == mapRect.Width() || s * rect.Height() == mapRect.Height()
  {
    var sw := mapRect.Width() / rect.Width();
    var sh := mapRect.Height() / rect.Height();
    assert sw * rect.Width() == mapRect.Width();
    assert sh * rect.Height() == mapRect.Height();
    if sw <= sh then
      assert sw * rect.Height() <= sh * rect.Height();
      sw
    else
      assert sh * rect.Width() <= sw * rect.Width();
      sh
  }

  /** The region shown: centred on the projected valid rectangle, with the
      map rectangle's size divided by the scale. */
  function ProjRect(mapRect: Rect, rect: Rect, scale: real): (r: Rect)
    requires scale != 0.0
    ensures r.Width() * scale == mapRect.Width() && r.Height() * scale == mapRect.Height()
    ensures r.Left() + r.Width() / 2.0 == rect.Left() + rect.Width() / 2.0
    ensures r.Top() + r.Height() / 2.0 == rect.Top() + rect.Height() / 2.0
  {
    var projSize := Vec(mapRect.Width() * (1.0 / scale), mapRect.Height() * (1.0 / scale));
    var center := Vec(rect.Left() + rect.Width() / 2.0, rect.Top() + rect.Height() / 2.0);
    Rect(center.Sub(Vec(projSize.x * 0.5, projSize.y * 0.5)), projSize)
  }

  /** The linear map of one axis: from the far edge with a negated scale when
      the axis is reversed, else from the near edge. */
  function AxisLinear(reverse: bool, near: real, far: real, scale: real): (p: Projection)
    ensures Invertible(p) <==> scale != 0.0
    ensures forall v :: Project(p, v) == if reverse then (far - v) * scale else (v - near) * scale
  {
    var offset := if reverse then far else near;
    var s := if reverse then -scale else scale;
    Linear(offset, s)
  }

  class MapProjectionBuilder {
    const geoProjection: GeoProjection
    const mapRect: Rect
    var reverseX: bool
    var reverseY: bool

    constructor(geoProjection: GeoProjection, mapRect: Rect)
      ensures this.geoProjection == geoProjection && this.mapRect == mapRect
      ensures !reverseX && !reverseY
    {
      this.geoProjection := geoProjection;
      this.mapRect := mapRect;
      reverseX := false;
      reverseY := false;
    }

    /** The projected bounding box of the valid region, as `transformBBox`
        computes it from the geographic projection. */
    function ProjectedValidRect(transformBBox: (Rect, Vec -> Vec) -> Rect): Rect {
      transformBBox(geoProjection.validRect, geoProjection.project)
    }

    /** `create`: the map rectangle and the projected box must have positive
        sides for the scale to be a number. The valid region's projected box,
        centred, fills the map rectangle along its tighter side, and the
        created projection is the geographic one followed by the per-axis
        linear maps. */
    function Create(transformBBox: (Rect, Vec -> Vec) -> Rect): (m: MapProjection)
      reads this
      requires mapRect.Width() > 0.0 && mapRect.Height() > 0.0
      requires ProjectedValidRect(transformBBox).Width() > 0.0 && ProjectedValidRect(transformBBox).Height() > 0.0
      ensures m.mapRect == mapRect && m.geo == geoProjection
      ensures Invertible(m.px) && Invertible(m.py)
      ensures var rect := ProjectedValidRect(transformBBox);
        var scale := FitScale(mapRect, rect);
        var projRect := ProjRect(mapRect, rect, scale);
        scale > 0.0 &&
        m.px == AxisLinear(reverseX, projRect.Left(), projRect.Right(), scale) &&
        m.py == AxisLinear(reverseY, projRect.Top(), projRect.Bottom(), scale)
    {
      var rect := ProjectedValidRect(transformBBox);
      var scale := FitScale(mapRect, rect);
      PositiveScale(mapRect, rect);
      var projRect := ProjRect(mapRect, rect, scale);
      MapProjection(
        geoProjection,
        AxisLinear(reverseX, projRect.Left(), projRect.Right(), scale),
        AxisLinear(reverseY, projRect.Top(), projRect.Bottom(), scale),
        mapRect)
    }
  }

  /** The fitting scale of positive rectangles is positive. */
  lemma PositiveScale(mapRect: Rect, rect: Rect)
    requires mapRect.Width() > 0.0 && mapRect.Height() > 0.0
    requires rect.Width() > 0.0 && rect.Height() > 0.0
    ensures FitScale(mapRect, rect) > 0.0
  {
    var s := FitScale(mapRect, rect);
    if s * rect.Width() == mapRect.Width() {
      PositiveFactor(s, rect.Width());
    } else {
      PositiveFactor(s, rect.Height());
    }
  }

  lemma PositiveFactor(a: real, b: real)
    requires b > 0.0 && a * b > 0.0
    ensures a > 0.0
  {
  }

  lemma ScaleMonotone(a: real, b: real, s: real)
    requires s >= 0.0 && a <= b
    ensures a * s <= b * s
  {
  }

  /** The created projection round-trips whenever the geographic one does. */
  lemma CreateRoundTrips(b: MapProjectionBuilder, transformBBox: (Rect, Vec -> Vec) -> Rect, v: LonLat)
    requires b.mapRect.Width() > 0.0 && b.mapRect.Height() > 0.0
    requires b.ProjectedValidRect(transformBBox).Width() > 0.0 && b.ProjectedValidRect(transformBBox).Height() > 0.0
    requires GeoRoundTrips(b.geoProjection)
    ensures MapInvert(b.Create(transformBBox), MapProject(b.Create(transformBBox), v)) == v
  {
    var m := b.Create(transformBBox);
    var g := b.geoProjection.project(v);
    InvertProject(m.px, g.x);
    InvertProject(m.py, g.y);
    assert Vec(Invert(m.px, Project(m.px, g.x)), Invert(m.py, Project(m.py, g.y))) == g;
  }

  /** The shown region holds the whole projected valid rectangle. */
  lemma ProjRectCoversValidRect(mapRect: Rect, rect: Rect)
    requires mapRect.Width() > 0.0 && mapRect.Height() > 0.0
    requires rect.Width() > 0.0 && rect.Height() > 0.0
    ensures FitScale(mapRect, rect) > 0.0
    ensures Covers(ProjRect(mapRect, rect, FitScale(mapRect, rect)), rect)
  {
    var s := FitScale(mapRect, rect);
    PositiveScale(mapRect, rect);
    var p := ProjRect(mapRect, rect, s);
    ScaledAtLeast(p.Width(), rect.Width(), s, mapRect.Width());
    ScaledAtLeast(p.Height(), rect.Height(), s, mapRect.Height());
  }

  /** A side that the scale maps onto the map side is at least as long as a
      side the scale maps within it. */
  lemma ScaledAtLeast(shown: real, side: real, s: real, size: real)
    requires s > 0.0 && shown * s == size && s * side <= size
    ensures side <= shown
  {
    assert (side - shown) * s == s * side - size;
    NonPositiveFactor(side - shown, s);
  }

  lemma NonPositiveFactor(a: real, s: real)
    requires s > 0.0 && a * s <= 0.0
    ensures a <= 0.0
  {
  }

  /** On one axis, the shown region's edges land on the map's extent (the
      near edge at 0 and the far edge at the map's size, or the other way
      round when reversed) and every point between them lands within it. */
  lemma AxisOntoExtent(reverse: bool, near: real, far: real, size: real, scale: real, x: real)
    requires scale > 0.0 && (far - near) * scale == size
    requires near <= x <= far
    ensures var p := AxisLinear(reverse, near, far, scale);
      Project(p, near) == (if reverse then size else 0.0) &&
      Project(p, far) == (if reverse then 0.0 else size) &&
      0.0 <= Project(p, x) <= size
  {
    ScaleMonotone(0.0, x - near, scale);
    ScaleMonotone(x - near, far - near, scale);
    ScaleMonotone(0.0, far - x, scale);
    ScaleMonotone(far - x, far - near, scale);
  }

  /** Every point whose geographic projection lies in the projected valid
      rectangle is placed inside the map rectangle, on either orientation of
      either axis. */
  lemma ValidRegionInsideMap(b: MapProjectionBuilder, transformBBox: (Rect, Vec -> Vec) -> Rect, v: LonLat)
    requires b.mapRect.Width() > 0.0 && b.mapRect.Height() > 0.0
    requires b.ProjectedValidRect(transformBBox).Width() > 0.0 && b.ProjectedValidRect(transformBBox).Height() > 0.0
    requires var rect := b.ProjectedValidRect(transformBBox); var g := b.geoProjection.project(v);
      rect.Left() <= g.x <= rect.Right() && rect.Top() <= g.y <= rect.Bottom()
    ensures var w := MapProject(b.Create(transformBBox), v);
      0.0 <= w.x <= b.mapRect.Width() && 0.0 <= w.y <= b.mapRect.Height()
  {
    var rect := b.ProjectedValidRect(transformBBox);
    var scale := FitScale(b.mapRect, rect);
    ProjRectCoversValidRect(b.mapRect, rect);
    var projRect := ProjRect(b.mapRect, rect, scale);
    var g := b.geoProjection.project(v);
    assert (projRect.Right() - projRect.Left()) * scale == b.mapRect.Width();
    assert (projRect.Bottom() - projRect.Top()) * scale == b.mapRect.Height();
    AxisOntoExtent(b.reverseX, projRect.Left(), projRect.Right(), b.mapRect.Width(), scale, g.x);
    AxisOntoExtent(b.reverseY, projRect.Top(), projRect.Bottom(), b.mapRect.Height(), scale, g.y);
  }
}
