/** The coordinate system named in the plot options, with its limits, its
    flip flag and, for maps, its projection. */
module CoordProto {
  import opened Common
  import opened OptionsAccessor

  // Coordinate system names and option names.
  const CARTESIAN := "cartesian"
  const FIXED := "fixed"
  const MAP := "map"
  const FLIP := "flip"
  const FLIPPED := "flip"
  const RATIO := "ratio"
  const PROJECTION := "projection"
  const MERCATOR := "mercator"
  const IDENTITY := "identity"

  datatype Projection = Mercator | Identity | ConicEqualArea | AzimuthalEqualArea

  datatype CoordProvider =
    | Cartesian(xLim: Option<Span>, yLim: Option<Span>, flipped: bool)
    | Fixed(ratio: real, xLim: Option<Span>, yLim: Option<Span>, flipped: bool)
    | MapCoord(xLim: Option<Span>, yLim: Option<Span>, flipped: bool, projection: Projection)

  /** The projection of a map by its name; a missing or unknown name is mercator. */
  function ProjectionOf(name: Option<string>): (p: Projection)
    ensures p == Identity <==> name == Some(IDENTITY)
    ensures p == ConicEqualArea <==> name == Some("conic")
    ensures p == AzimuthalEqualArea <==> name == Some("azimuthal")
    ensures p == Mercator <==> name !in {Some(IDENTITY), Some("conic"), Some("azimuthal")}
  {
    match name
    case Some(n) =>
      if n == MERCATOR then Mercator
      else if n == IDENTITY then Identity
      else if n == "conic" then ConicEqualArea
      else if n == "azimuthal" then AzimuthalEqualArea
      else Mercator
    case None => Mercator
  }

  /** `createCoordProvider`: dispatch on the coordinate system name. */
  function CreateCoordProvider(coordName: string, xLim: Option<Span>, yLim: Option<Span>,
                               opts: Options, show: Value -> string): (r: Result<CoordProvider>)
    ensures coordName == CARTESIAN ==> r == Ok(Cartesian(xLim, yLim, GetBoolean(opts, FLIPPED)))
    ensures coordName == FIXED && Has(opts, RATIO) && opts[RATIO].JNum? ==>
      r == Ok(Fixed(opts[RATIO].n, xLim, yLim, GetBoolean(opts, FLIPPED)))
    ensures coordName == FIXED && Has(opts, RATIO) && !opts[RATIO].JNum? ==> r.Err? && r.error.IllegalArgument?
    ensures coordName == MAP ==>
      r == Ok(MapCoord(xLim, yLim, GetBoolean(opts, FLIPPED), ProjectionOf(GetString(opts, PROJECTION, show))))
    ensures coordName == FLIP ==> r.Err? && r.error.IllegalState?
    ensures coordName !in {CARTESIAN, FIXED, MAP, FLIP} ==> r.Err? && r.error.IllegalArgument?
    ensures r.Ok? ==> r.value.xLim == xLim && r.value.yLim == yLim
  {
    var flipped := GetBoolean(opts, FLIPPED);
    if coordName == CARTESIAN then Ok(Cartesian(xLim, yLim, flipped))
    else if coordName == FIXED then
      var ratio := GetDouble(opts, RATIO);
      if ratio.Err? then Err(ratio.error)
      else Ok(Fixed(if ratio.value.Some? then ratio.value.value else 1.0, xLim, yLim, flipped))
    else if coordName == MAP then
      Ok(MapCoord(xLim, yLim, flipped, ProjectionOf(GetString(opts, PROJECTION, show))))
    else if coordName == FLIP then Err(IllegalState("Don't try to instantiate coord FLIP, it's only a flag."))
    else Err(IllegalArgument("Unknown coordinate system name: '" + coordName + "'"))
  }

  /** The flip option is read once and every provider carries it unchanged. */
  lemma FlipPassedThrough(coordName: string, xLim: Option<Span>, yLim: Option<Span>, opts: Options, show: Value -> string)
    requires CreateCoordProvider(coordName, xLim, yLim, opts, show).Ok?
    ensures CreateCoordProvider(coordName, xLim, yLim, opts, show).value.flipped == GetBoolean(opts, FLIPPED)
  {
  }

  /** A provider is built exactly for the three concrete names, and the kind
      follows the name. */
  lemma ProviderKinds(coordName: string, xLim: Option<Span>, yLim: Option<Span>, opts: Options, show: Value -> string)
    ensures var r := CreateCoordProvider(coordName, xLim, yLim, opts, show);
      (r.Ok? ==> coordName in {CARTESIAN, FIXED, MAP}) &&
      (r.Ok? && r.value.Cartesian? <==> coordName == CARTESIAN) &&
      (r.Ok? && r.value.MapCoord? <==> coordName == MAP) &&
      (r.Ok? && r.value.Fixed? <==> coordName == FIXED && !(Has(opts, RATIO) && !opts[RATIO].JNum?))
  {
  }

  /** A fixed coordinate system without a ratio option has ratio 1. */
  lemma FixedRatioDefault(xLim: Option<Span>, yLim: Option<Span>, opts: Options, show: Value -> string)
    requires !Has(opts, RATIO)
    ensures CreateCoordProvider(FIXED, xLim, yLim, opts, show) == Ok(Fixed(1.0, xLim, yLim, GetBoolean(opts, FLIPPED)))
  {
  }

  /** A map's projection is chosen by the projection option's text: "identity",
      "conic" and "azimuthal" pick their projections, and anything else,
      "mercator" included, picks mercator. */
  lemma MapProjectionByName(xLim: Option<Span>, yLim: Option<Span>, opts: Options, show: Value -> string)
    ensures var p := CreateCoordProvider(MAP, xLim, yLim, opts, show).value.projection;
      var name := if Has(opts, PROJECTION) then Text(opts[PROJECTION], show) else MERCATOR;
      (p == Identity <==> name == IDENTITY) &&
      (p == ConicEqualArea <==> name == "conic") &&
      (p == AzimuthalEqualArea <==> name == "azimuthal") &&
      (p == Mercator <==> name !in {IDENTITY, "conic", "azimuthal"})
  {
  }

  /** A map without a projection option uses mercator. */
  lemma MapDefaultsToMercator(xLim: Option<Span>, yLim: Option<Span>, opts: Options, show: Value -> string)
    requires !Has(opts, PROJECTION)
    ensures CreateCoordProvider(MAP, xLim, yLim, opts, show).value.projection == Mercator
  {
  }
}
