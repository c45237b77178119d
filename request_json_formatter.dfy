/** The JSON form of the requests a live map sends to its vector-tile
    service: configure the connection, get the tiles of a region at a zoom
    level, and cancel tiles no longer needed. */
module RequestJsonFormatter {
  import opened Common

  // Keys and request-type names of the tile protocol.
  const TYPE := "type"
  const STYLE := "style"
  const KEY := "key"
  const ZOOM := "zoom"
  const BBOX := "bbox"
  const DATA := "data"
  const X := "x"
  const Y := "y"
  const Z := "z"
  const CONFIGURE_CONNECTION := "configureConnection"
  const GET_BINARY_TILE := "getBinaryTile"

  /** A tile's column, row and zoom level. */
  datatype TileCoordinates = TileCoordinates(x: int, y: int, z: int)

  datatype Request =
    | ConfigureConnectionRequest(styleName: string)
    | GetBinaryGeometryRequest(key: string, zoom: int, bbox: Rect)
    | CancelBinaryTileRequest(coordinates: seq<TileCoordinates>)

  function Coordinate(c: TileCoordinates): (r: Value)
    ensures r.JMap? && r.fields.Keys == {X, Y, Z}
    ensures r.fields[X] == JNum(c.x as real) && r.fields[Y] == JNum(c.y as real) && r.fields[Z] == JNum(c.z as real)
  {
    JMap(map[X := JNum(c.x as real), Y := JNum(c.y as real), Z := JNum(c.z as real)])
  }

  function Coordinates(cs: seq<TileCoordinates>): (r: seq<Value>)
    ensures |r| == |cs| && forall k :: 0 <= k < |cs| ==> r[k] == Coordinate(cs[k])
  {
    seq(|cs|, k requires 0 <= k < |cs| => Coordinate(cs[k]))
  }

  /** `format`: one JSON object per request kind. */
  function Format(request: Request): (r: Value)
    ensures r.JMap?
    ensures request.ConfigureConnectionRequest? ==>
      r.fields == map[TYPE := JStr(CONFIGURE_CONNECTION), STYLE := JStr(request.styleName)]
    ensures request.GetBinaryGeometryRequest? ==>
      r.fields.Keys == {TYPE, KEY, ZOOM, BBOX} && r.fields[TYPE] == JStr(GET_BINARY_TILE) &&
      r.fields[BBOX] == JList([JNum(request.bbox.Left()), JNum(request.bbox.Top()),
                               JNum(request.bbox.Right()), JNum(request.bbox.Bottom())])
    ensures request.CancelBinaryTileRequest? ==> r.fields.Keys == {DATA} && TYPE !in r.fields
  {
    match request
    case ConfigureConnectionRequest(styleName) =>
      JMap(map[TYPE := JStr(CONFIGURE_CONNECTION), STYLE := JStr(styleName)])
    case GetBinaryGeometryRequest(key, zoom, bbox) =>
      JMap(map[TYPE := JStr(GET_BINARY_TILE), KEY := JStr(key), ZOOM := JNum(zoom as real),
               BBOX := JList([JNum(bbox.Left()), JNum(bbox.Top()), JNum(bbox.Right()), JNum(bbox.Bottom())])])
    case CancelBinaryTileRequest(coordinates) =>
      JMap(map[DATA := JList(Coordinates(coordinates))])
  }

  // ---------------------------------------------------------------------------
  // A reader of the formatted requests, to show that formatting loses nothing.

  function AsInt(v: Value): Option<int> {
    if v.JNum? && v.n.Floor as real == v.n then Some(v.n.Floor) else None
  }

  function ParseCoordinate(v: Value): Option<TileCoordinates> {
    if v.JMap? && X in v.fields && Y in v.fields && Z in v.fields then
      var x, y, z := AsInt(v.fields[X]), AsInt(v.fields[Y]), AsInt(v.fields[Z]);
      if x.Some? && y.Some? && z.Some? then Some(TileCoordinates(x.value, y.value, z.value)) else None
    else None
  }

  function ParseCoordinates(vs: seq<Value>): Option<seq<TileCoordinates>> {
    if |vs| == 0 then Some([])
    else
      var init := ParseCoordinates(vs[..|vs| - 1]);
      var last := ParseCoordinate(vs[|vs| - 1]);
      if init.Some? && last.Some? then Some(init.value + [last.value]) else None
  }

  /** The request a JSON object describes, read back from its fields. */
  function Parse(v: Value): Option<Request> {
    if !v.JMap? then None
    else if TYPE !in v.fields then
      if DATA in v.fields && v.fields[DATA].JList? then
        var cs := ParseCoordinates(v.fields[DATA].items);
        if cs.Some? then Some(CancelBinaryTileRequest(cs.value)) else None
      else None
    else if v.fields[TYPE] == JStr(CONFIGURE_CONNECTION) then
      if STYLE in v.fields && v.fields[STYLE].JStr? then Some(ConfigureConnectionRequest(v.fields[STYLE].s)) else None
    else if v.fields[TYPE] == JStr(GET_BINARY_TILE) then
      if KEY in v.fields && ZOOM in v.fields && BBOX in v.fields && v.fields[KEY].JStr? &&
         AsInt(v.fields[ZOOM]).Some? && v.fields[BBOX].JList? && |v.fields[BBOX].items| == 4 &&
         forall k :: 0 <= k < 4 ==> v.fields[BBOX].items[k].JNum?
      then
        var b := v.fields[BBOX].items;
        var left, top, right, bottom := b[0].n, b[1].n, b[2].n, b[3].n;
        Some(GetBinaryGeometryRequest(v.fields[KEY].s, AsInt(v.fields[ZOOM]).value,
                                      Rect(Vec(left, top), Vec(right - left, bottom - top))))
      else None
    else None
  }

  lemma {:induction false} ParseCoordinatesOfFormatted(cs: seq<TileCoordinates>)
    ensures ParseCoordinates(Coordinates(cs)) == Some(cs)
  {
    if |cs| > 0 {
      var init := cs[..|cs| - 1];
      ParseCoordinatesOfFormatted(init);
      assert Coordinates(cs)[..|cs| - 1] == Coordinates(init);
      var c := cs[|cs| - 1];
      assert (c.x as real).Floor == c.x && (c.y as real).Floor == c.y && (c.z as real).Floor == c.z;
      assert ParseCoordinate(Coordinate(c)) == Some(c);
      assert init + [c] == cs;
    }
  }

  /** Every request is read back from its JSON form: the three kinds are told
      apart and each keeps all its data, the cancelled tiles in order. */
  lemma FormatRoundTrip(request: Request)
    ensures Parse(Format(request)) == Some(request)
  {
    match request
    case ConfigureConnectionRequest(_) =>
    case GetBinaryGeometryRequest(key, zoom, bbox) =>
      assert (zoom as real).Floor == zoom;
      assert Rect(Vec(bbox.Left(), bbox.Top()), Vec(bbox.Right() - bbox.Left(), bbox.Bottom() - bbox.Top())) == bbox;
    case CancelBinaryTileRequest(coordinates) =>
      ParseCoordinatesOfFormatted(coordinates);
  }
}
