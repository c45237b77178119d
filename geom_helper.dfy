/** The geometry helper geoms use to turn data-space locations and rectangles
    into client (screen) coordinates: position adjustment first, then the
    coordinate system, which may reject a point. */
module GeomHelper {
  import opened Common

  /** A data point's aesthetics, by identity. */
  type DataPointAesthetics = nat

  /** The smallest width or height a client rectangle is given. */
  const MIN_CLIENT_SIZE := 0.1

  /** The helper's collaborators: the position adjustment (with its geometry
      context) and the coordinate system's mappings of points and rectangles. */
  datatype GeomHelper = GeomHelper(
    translate: (Vec, DataPointAesthetics) -> Vec,
    coordToClient: Vec -> Option<Vec>,
    coordToClientRect: Rect -> Option<Rect>)
  {
    /** A location in client coordinates, if the coordinate system maps it. */
    function ToClient(location: Vec, p: DataPointAesthetics): (r: Option<Vec>)
      ensures r == coordToClient(translate(location, p))
    {
      coordToClient(translate(location, p))
    }

    /** A rectangle adjusted by moving its origin and its far corner
        independently and spanning the two. */
    function Adjust(r: Rect, p: DataPointAesthetics): (a: Rect)
      ensures var lt := translate(r.origin, p); var rb := translate(r.origin.Add(r.dimension), p);
        a.Left() == Min(lt.x, rb.x) && a.Right() == Max(lt.x, rb.x) &&
        a.Top() == Min(lt.y, rb.y) && a.Bottom() == Max(lt.y, rb.y)
      ensures a.Width() >= 0.0 && a.Height() >= 0.0
    {
      var leftTop := translate(r.origin, p);
      var rightBottom := translate(r.origin.Add(r.dimension), p);
      SpanRect(leftTop, rightBottom)
    }

    /** A rectangle in client coordinates; a zero width or height becomes
        `MIN_CLIENT_SIZE` so that the shape stays visible. */
    function ToClientRect(r: Rect, p: DataPointAesthetics): (c: Option<Rect>)
      ensures c.None? <==> coordToClientRect(Adjust(r, p)).None?
      ensures c.Some? ==> var m := coordToClientRect(Adjust(r, p)).value;
        c.value.origin == m.origin &&
        c.value.Width() == (if m.Width() == 0.0 then MIN_CLIENT_SIZE else m.Width()) &&
        c.value.Height() == (if m.Height() == 0.0 then MIN_CLIENT_SIZE else m.Height())
    {
      var clientRect := coordToClientRect(Adjust(r, p));
      if clientRect.None? then None
      else
        var c0 := clientRect.value;
        var c1 := if c0.Width() == 0.0 then Rect(c0.origin, Vec(MIN_CLIENT_SIZE, c0.Height())) else c0;
        var c2 := if c1.Height() == 0.0 then Rect(c1.origin, Vec(c1.Width(), MIN_CLIENT_SIZE)) else c1;
        Some(c2)
    }

    /** The client point of a data point, if its aesthetics map to a location. */
    function ToClientPoint(p: DataPointAesthetics, aesMapper: DataPointAesthetics -> Option<Vec>): (r: Option<Vec>)
      ensures aesMapper(p).None? ==> r.None?
      ensures aesMapper(p).Some? ==> r == ToClient(aesMapper(p).value, p)
    {
      match aesMapper(p)
      case None => None
      case Some(location) => ToClient(location, p)
    }

    /** The client rectangle of a data point, if its aesthetics map to one. */
    function ToClientRectOf(p: DataPointAesthetics, aesMapper: DataPointAesthetics -> Option<Rect>): (r: Option<Rect>)
      ensures aesMapper(p).None? ==> r.None?
      ensures aesMapper(p).Some? ==> r == ToClientRect(aesMapper(p).value, p)
    {
      match aesMapper(p)
      case None => None
      case Some(rect) => ToClientRect(rect, p)
    }

    /** The aesthetic mapper composed with the client mapping. */
    function ToClientLocation(aesMapper: DataPointAesthetics -> Option<Vec>): (f: DataPointAesthetics -> Option<Vec>)
      ensures forall p :: f(p) == ToClientPoint(p, aesMapper)
    {
      (p: DataPointAesthetics) => ToClientPoint(p, aesMapper)
    }

    /** The client points of the data points that project and map, in order. */
    function Projected(dataPoints: seq<DataPointAesthetics>, projection: DataPointAesthetics -> Option<Vec>): seq<Vec> {
      if |dataPoints| == 0 then []
      else
        var init := Projected(dataPoints[..|dataPoints| - 1], projection);
        var pp := ToClientPoint(dataPoints[|dataPoints| - 1], projection);
        if pp.Some? then init + [pp.value] else init
    }

    /** `project`: drops the points whose projection or client mapping is null. */
    method Project(dataPoints: seq<DataPointAesthetics>, projection: DataPointAesthetics -> Option<Vec>)
      returns (points: seq<Vec>)
      ensures points == Projected(dataPoints, projection)
    {
      points := [];
      var i := 0;
      while i < |dataPoints|
        invariant 0 <= i <= |dataPoints|
        invariant points == Projected(dataPoints[..i], projection)
      {
        assert dataPoints[..i + 1][..i] == dataPoints[..i];
        var p := dataPoints[i];
        var location := projection(p);
        if location.Some? {
          var pp := ToClient(location.value, p);
          if pp.Some? {
            points := points + [pp.value];
          }
        }
        i := i + 1;
      }
      assert dataPoints[..i] == dataPoints;
    }

    /** Projection keeps order: it distributes over concatenation. */
    lemma {:induction false} ProjectedAppend(a: seq<DataPointAesthetics>, b: seq<DataPointAesthetics>, projection: DataPointAesthetics -> Option<Vec>)
      ensures Projected(a + b, projection) == Projected(a, projection) + Projected(b, projection)
      decreases |b|
    {
      if |b| == 0 {
        assert a + b == a;
      } else {
        var b0 := b[..|b| - 1];
        ProjectedAppend(a, b0, projection);
        assert (a + b)[..|a + b| - 1] == a + b0;
        assert (a + b)[|a + b| - 1] == b[|b| - 1];
      }
    }

    /** At most one client point per data point. */
    lemma {:induction false} ProjectedLength(dataPoints: seq<DataPointAesthetics>, projection: DataPointAesthetics -> Option<Vec>)
      ensures |Projected(dataPoints, projection)| <= |dataPoints|
      ensures |Projected(dataPoints, projection)| == |dataPoints| <==>
        forall i :: 0 <= i < |dataPoints| ==> ToClientPoint(dataPoints[i], projection).Some?
    {
      if |dataPoints| > 0 {
        var init := dataPoints[..|dataPoints| - 1];
        ProjectedLength(init, projection);
        assert forall i :: 0 <= i < |init| ==> init[i] == dataPoints[i];
      }
    }

    /** The projected points are exactly the client points of the data
        points that map. */
    lemma {:induction false} ProjectedMembers(dataPoints: seq<DataPointAesthetics>, projection: DataPointAesthetics -> Option<Vec>, v: Vec)
      ensures v in Projected(dataPoints, projection) <==>
        exists i :: 0 <= i < |dataPoints| && ToClientPoint(dataPoints[i], projection) == Some(v)
    {
      if |dataPoints| > 0 {
        var init := dataPoints[..|dataPoints| - 1];
        ProjectedMembers(init, projection, v);
        assert forall i :: 0 <= i < |init| ==> init[i] == dataPoints[i];
        if v in Projected(dataPoints, projection) && v !in Projected(init, projection) {
          assert ToClientPoint(dataPoints[|dataPoints| - 1], projection) == Some(v);
        }
      }
    }
  }
}
