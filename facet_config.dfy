/** The facet specification read from the plot options: a grid of x/y facets
    or a wrap of one or more facet variables, with their levels, order
    directions and fill direction. */
module FacetConfig {
  import opened Common
  import opened OptionsAccessor

  // Option names.
  const NAME := "name"
  const NAME_GRID := "grid"
  const NAME_WRAP := "wrap"
  const X := "x"
  const Y := "y"
  const X_ORDER := "x_order"
  const Y_ORDER := "y_order"
  const FACETS := "facets"
  const NCOL := "ncol"
  const NROW := "nrow"
  const FACETS_ORDER := "order"
  const FACETS_FILL_DIR := "dir"

  /** The order direction used where none is given. */
  const DEF_ORDER_DIR := 0

  /** A layer's data: the values of each variable, by name. */
  datatype DataFrame = DataFrame(columns: map<string, seq<Value>>)

  datatype Direction = H | V

  datatype PlotFacets =
    | FacetGrid(nameX: Option<string>, nameY: Option<string>, levelsX: seq<Value>, levelsY: seq<Value>,
                xOrder: int, yOrder: int)
    | FacetWrap(facets: seq<string>, facetLevels: seq<set<Value>>, nrow: Option<int>, ncol: Option<int>,
                direction: Direction, order: seq<int>)

  // ---------------------------------------------------------------------------
  // Order and direction.

  /** `toOrderVal`: null is the default direction, a number its integer part. */
  function ToOrderVal(orderOption: Value): (r: Result<int>)
    ensures orderOption == JNull ==> r == Ok(DEF_ORDER_DIR)
    ensures orderOption.JNum? ==> r == Ok(Trunc(orderOption.n))
    ensures r.Err? <==> !(orderOption == JNull || orderOption.JNum?)
    ensures r.Err? ==> r.error.IllegalArgument?
  {
    match orderOption
    case JNull => Ok(DEF_ORDER_DIR)
    case JNum(n) => Ok(Trunc(n))
    case _ => Err(IllegalArgument("Unsupported `order` value. Use: 1 (natural) or -1 (descending)."))
  }

  /** Each element of a list through `toOrderVal`; the first failure wins. */
  function ToOrderVals(items: seq<Value>): (r: Result<seq<int>>)
    ensures r.Ok? <==> forall i :: 0 <= i < |items| ==> ToOrderVal(items[i]).Ok?
    ensures r.Ok? ==> |r.value| == |items| && forall i :: 0 <= i < |items| ==> r.value[i] == ToOrderVal(items[i]).value
  {
    if |items| == 0 then Ok([])
    else
      var init := ToOrderVals(items[..|items| - 1]);
      var last := ToOrderVal(items[|items| - 1]);
      if init.Err? then init
      else if last.Err? then Err(last.error)
      else Ok(init.value + [last.value])
  }

  /** The given order list: a list, one value, or nothing. */
  function OrderList(opts: Options): (r: Result<seq<int>>)
    ensures !Has(opts, FACETS_ORDER) ==> r == Ok([])
    ensures Has(opts, FACETS_ORDER) && opts[FACETS_ORDER].JList? ==> r == ToOrderVals(opts[FACETS_ORDER].items)
    ensures Has(opts, FACETS_ORDER) && !opts[FACETS_ORDER].JList? ==>
      (r.Ok? <==> ToOrderVal(opts[FACETS_ORDER]).Ok?) && (r.Ok? ==> r.value == [ToOrderVal(opts[FACETS_ORDER]).value])
  {
    if !Has(opts, FACETS_ORDER) then Ok([])
    else
      var orderOption := opts[FACETS_ORDER];
      if orderOption.JList? then ToOrderVals(orderOption.items)
      else
        var v := ToOrderVal(orderOption);
        if v.Err? then Err(v.error) else Ok([v.value])
  }

  /** The order list made as long as the facet list: missing entries take the
      default direction and extra entries are dropped. */
  method PadOrderList(facetCount: nat, orderList: seq<int>) returns (r: seq<int>)
    ensures |r| == facetCount
    ensures forall i :: 0 <= i < facetCount && i < |orderList| ==> r[i] == orderList[i]
    ensures forall i :: |orderList| <= i < facetCount ==> r[i] == DEF_ORDER_DIR
  {
    r := [];
    var i := 0;
    while i < facetCount
      invariant 0 <= i <= facetCount && |r| == i
      invariant forall j :: 0 <= j < i && j < |orderList| ==> r[j] == orderList[j]
      invariant forall j :: |orderList| <= j < i ==> r[j] == DEF_ORDER_DIR
    {
      r := r + [if i < |orderList| then orderList[i] else DEF_ORDER_DIR];
      i := i + 1;
    }
  }

  /** `getDirOption`: absent is H; "V" and "H" in any letter case; else an error. */
  function DirOption(opts: Options, show: Value -> string): (r: Result<Direction>)
    ensures Get(opts, FACETS_FILL_DIR) == JNull ==> r == Ok(H)
    ensures Get(opts, FACETS_FILL_DIR) != JNull ==>
      (r == Ok(V) <==> Upper(Text(opts[FACETS_FILL_DIR], show)) == "V") &&
      (r == Ok(H) <==> Upper(Text(opts[FACETS_FILL_DIR], show)) == "H")
    ensures r.Err? ==> r.error.IllegalArgument?
  {
    var opt := Get(opts, FACETS_FILL_DIR);
    if opt == JNull then Ok(H)
    else
      var u := Upper(Text(opt, show));
      if u == "V" then Ok(V)
      else if u == "H" then Ok(H)
      else Err(IllegalArgument("Unsupported `dir` value. Use: 'H' (horizontal) or 'V' (vertical)."))
  }

  /** The direction is read regardless of letter case: a string, its
      lower-case form and its upper-case form select the same direction. */
  lemma DirCaseInsensitive(opts: Options, show: Value -> string, s: string)
    ensures DirOption(opts[FACETS_FILL_DIR := JStr(s)], show) ==
      DirOption(opts[FACETS_FILL_DIR := JStr(Lower(s))], show)
    ensures DirOption(opts[FACETS_FILL_DIR := JStr(s)], show) ==
      DirOption(opts[FACETS_FILL_DIR := JStr(Upper(s))], show)
  {
  }

  // ---------------------------------------------------------------------------
  // Levels.

  /** All values of the variable, over the layers that have it, layer by layer. */
  function ValuesOf(layers: seq<DataFrame>, name: string): seq<Value> {
    if |layers| == 0 then []
    else
      var last := layers[|layers| - 1];
      ValuesOf(layers[..|layers| - 1], name) + (if name in last.columns then last.columns[name] else [])
  }

  /** Appending to a linked set: the new elements not already present, in order. */
  function AddAll(acc: seq<Value>, xs: seq<Value>): (r: seq<Value>)
    ensures forall v :: v in r <==> v in acc || v in xs
  {
    if |xs| == 0 then acc
    else
      assert xs == xs[..|xs| - 1] + [xs[|xs| - 1]];
      var a := AddAll(acc, xs[..|xs| - 1]);
      if xs[|xs| - 1] in a then a else a + [xs[|xs| - 1]]
  }

  /** The non-null values of a column, in order. */
  function NonNullValues(column: seq<Value>): (r: seq<Value>)
    ensures forall v :: v in r <==> v != JNull && v in column
  {
    if |column| == 0 then []
    else
      assert column == column[..|column| - 1] + [column[|column| - 1]];
      NonNullValues(column[..|column| - 1]) + (if column[|column| - 1] == JNull then [] else [column[|column| - 1]])
  }

  lemma {:induction false} NonNullValuesAppend(a: seq<Value>, b: seq<Value>)
    ensures NonNullValues(a + b) == NonNullValues(a) + NonNullValues(b)
  {
    if |b| == 0 {
      assert a + b == a;
    } else {
      var init := b[..|b| - 1];
      NonNullValuesAppend(a, init);
      assert (a + b)[..|a + b| - 1] == a + init;
      assert (a + b)[|a + b| - 1] == b[|b| - 1];
    }
  }

  /** `distinctValues` of a data frame's variable: its non-null values, each
      once, in the order they are first seen. */
  function DistinctValues(column: seq<Value>): (r: seq<Value>)
    ensures NoDuplicates(r)
    ensures forall v :: v in r <==> v != JNull && v in column
  {
    DistinctOfElements(NonNullValues(column));
    DistinctOf(NonNullValues(column))
  }

  /** A grid axis's levels, as the loop over the layers collects them: each
      layer that has the variable adds its distinct non-null values. */
  function GridLevels(layers: seq<DataFrame>, name: string): (r: seq<Value>)
    ensures JNull !in r
  {
    if |layers| == 0 then []
    else
      var last := layers[|layers| - 1];
      var prev := GridLevels(layers[..|layers| - 1], name);
      if name in last.columns then AddAll(prev, DistinctValues(last.columns[name])) else prev
  }

  lemma {:induction false} AddAllIsDistinct(p: seq<Value>, xs: seq<Value>)
    ensures AddAll(DistinctOf(p), xs) == DistinctOf(p + xs)
  {
    if |xs| == 0 {
      assert p + xs == p;
    } else {
      var init, y := xs[..|xs| - 1], xs[|xs| - 1];
      AddAllIsDistinct(p, init);
      DistinctOfElements(p + init);
      assert (p + xs)[..|p + xs| - 1] == p + init;
      assert (p + xs)[|p + xs| - 1] == y;
    }
  }

  lemma {:induction false} DistinctOfDistinct(p: seq<Value>, c: seq<Value>)
    ensures DistinctOf(p + DistinctOf(c)) == DistinctOf(p + c)
  {
    if |c| > 0 {
      var init, y := c[..|c| - 1], c[|c| - 1];
      DistinctOfDistinct(p, init);
      DistinctOfElements(init);
      DistinctOfElements(p + DistinctOf(init));
      DistinctOfElements(p + init);
      assert (p + c)[..|p + c| - 1] == p + init;
      if y !in DistinctOf(init) {
        var d := p + DistinctOf(init) + [y];
        assert d[..|d| - 1] == p + DistinctOf(init);
        assert p + DistinctOf(c) == d;
      }
    }
  }

  /** The grid levels are the distinct non-null values over the layers, in
      the order they are first seen. */
  lemma {:induction false} GridLevelsFirstSeen(layers: seq<DataFrame>, name: string)
    ensures GridLevels(layers, name) == DistinctOf(NonNullValues(ValuesOf(layers, name)))
    ensures NoDuplicates(GridLevels(layers, name))
    ensures forall v :: v in GridLevels(layers, name) <==> v != JNull && v in ValuesOf(layers, name)
  {
    if |layers| > 0 {
      var init, last := layers[..|layers| - 1], layers[|layers| - 1];
      GridLevelsFirstSeen(init, name);
      if name in last.columns {
        var prior, column := NonNullValues(ValuesOf(init, name)), last.columns[name];
        AddAllIsDistinct(prior, DistinctOf(NonNullValues(column)));
        DistinctOfDistinct(prior, NonNullValues(column));
        NonNullValuesAppend(ValuesOf(init, name), column);
      } else {
        assert ValuesOf(layers, name) == ValuesOf(init, name) + [];
        assert ValuesOf(init, name) + [] == ValuesOf(init, name);
      }
    }
    DistinctOfElements(NonNullValues(ValuesOf(layers, name)));
  }

  /** A wrap facet's levels: the non-null values over the layers having it. */
  function WrapLevels(layers: seq<DataFrame>, name: string): (r: set<Value>)
    ensures JNull !in r
  {
    if |layers| == 0 then {}
    else
      var last := layers[|layers| - 1];
      WrapLevels(layers[..|layers| - 1], name) +
      (if name in last.columns then (set v | v in last.columns[name] && v != JNull) else {})
  }

  lemma {:induction false} WrapLevelsAreValues(layers: seq<DataFrame>, name: string, v: Value)
    ensures v in WrapLevels(layers, name) <==> v != JNull && v in ValuesOf(layers, name)
  {
    if |layers| > 0 {
      WrapLevelsAreValues(layers[..|layers| - 1], name, v);
    }
  }

  /** Adds the distinct non-null values of one column to the linked set `levels`. */
  method AddDistinct(levels: seq<Value>, column: seq<Value>) returns (r: seq<Value>)
    ensures r == AddAll(levels, DistinctValues(column))
  {
    var values := DistinctValues(column);
    r := levels;
    var i := 0;
    while i < |values|
      invariant 0 <= i <= |values|
      invariant r == AddAll(levels, values[..i])
    {
      assert values[..i + 1][..i] == values[..i];
      if values[i] !in r {
        r := r + [values[i]];
      }
      i := i + 1;
    }
    assert values[..|values|] == values;
  }

  /** One grid axis: its name and levels, when the option is given. */
  method CollectGridAxis(opts: Options, key: string, layers: seq<DataFrame>, show: Value -> string)
    returns (name: Option<string>, levels: seq<Value>)
    ensures !Has(opts, key) ==> name == None && levels == []
    ensures Has(opts, key) ==> name == Some(GetStringSafe(opts, key, show).value) && levels == GridLevels(layers, name.value)
  {
    name := None;
    levels := [];
    if Has(opts, key) {
      var n := Text(opts[key], show);
      name := Some(n);
      var i := 0;
      while i < |layers|
        invariant 0 <= i <= |layers|
        invariant levels == GridLevels(layers[..i], n)
      {
        assert layers[..i + 1][..i] == layers[..i];
        if n in layers[i].columns {
          levels := AddDistinct(levels, layers[i].columns[n]);
        }
        i := i + 1;
      }
      assert layers[..|layers|] == layers;
    }
  }

  /** The levels of one wrap facet. */
  method CollectWrapLevels(name: string, layers: seq<DataFrame>) returns (levels: set<Value>)
    ensures levels == WrapLevels(layers, name)
  {
    levels := {};
    var i := 0;
    while i < |layers|
      invariant 0 <= i <= |layers|
      invariant levels == WrapLevels(layers[..i], name)
    {
      assert layers[..i + 1][..i] == layers[..i];
      if name in layers[i].columns {
        levels := levels + set v | v in layers[i].columns[name] && v != JNull;
      }
      i := i + 1;
    }
    assert layers[..|layers|] == layers;
  }

  // ---------------------------------------------------------------------------
  // The facets.

  function GridSpec(opts: Options, layers: seq<DataFrame>, show: Value -> string): (r: Result<PlotFacets>) {
    var xOrder := ToOrderVal(Get(opts, X_ORDER));
    var yOrder := ToOrderVal(Get(opts, Y_ORDER));
    if xOrder.Err? then Err(xOrder.error)
    else if yOrder.Err? then Err(yOrder.error)
    else
      var nameX := if Has(opts, X) then Some(Text(opts[X], show)) else None;
      var nameY := if Has(opts, Y) then Some(Text(opts[Y], show)) else None;
      Ok(FacetGrid(nameX, nameY,
                   if nameX.Some? then GridLevels(layers, nameX.value) else [],
                   if nameY.Some? then GridLevels(layers, nameY.value) else [],
                   xOrder.value, yOrder.value))
  }

  function WrapSpec(opts: Options, layers: seq<DataFrame>, show: Value -> string): (r: Result<PlotFacets>) {
    var facets := GetAsStringList(opts, FACETS, show);
    var ncol := GetInteger(opts, NCOL);
    var nrow := GetInteger(opts, NROW);
    var orderList := OrderList(opts);
    var dir := DirOption(opts, show);
    if ncol.Err? then Err(ncol.error)
    else if nrow.Err? then Err(nrow.error)
    else if orderList.Err? then Err(orderList.error)
    else if dir.Err? then Err(dir.error)
    else
      Ok(FacetWrap(facets, seq(|facets|, i requires 0 <= i < |facets| => WrapLevels(layers, facets[i])),
                   nrow.value, ncol.value, dir.value,
                   seq(|facets|, i requires 0 <= i < |facets| =>
                     if i < |orderList.value| then orderList.value[i] else DEF_ORDER_DIR)))
  }

  /** `createFacets`: the facet kind is chosen by name. */
  function FacetsSpec(opts: Options, layers: seq<DataFrame>, show: Value -> string): (r: Result<PlotFacets>) {
    var name := GetStringSafe(opts, NAME, show);
    if name.Err? then Err(name.error)
    else if name.value == NAME_GRID then GridSpec(opts, layers, show)
    else if name.value == NAME_WRAP then WrapSpec(opts, layers, show)
    else Err(IllegalArgument("Facet 'grid' or 'wrap' expected."))
  }

  /** Only "grid" and "wrap" name facets; any other name is an error. */
  lemma FacetKinds(opts: Options, layers: seq<DataFrame>, show: Value -> string)
    ensures FacetsSpec(opts, layers, show).Ok? && FacetsSpec(opts, layers, show).value.FacetGrid? ==>
      GetStringSafe(opts, NAME, show) == Ok(NAME_GRID)
    ensures FacetsSpec(opts, layers, show).Ok? && FacetsSpec(opts, layers, show).value.FacetWrap? ==>
      GetStringSafe(opts, NAME, show) == Ok(NAME_WRAP)
    ensures GetStringSafe(opts, NAME, show).Ok? && GetStringSafe(opts, NAME, show).value !in {NAME_GRID, NAME_WRAP} ==>
      FacetsSpec(opts, layers, show).Err? && FacetsSpec(opts, layers, show).error.IllegalArgument?
  {
  }

  /** A grid axis without its option has no name and no levels; one with it has
      the distinct non-null values of the layers holding the variable, first
      seen first. */
  lemma GridAxes(opts: Options, layers: seq<DataFrame>, show: Value -> string)
    requires GridSpec(opts, layers, show).Ok?
    ensures var g := GridSpec(opts, layers, show).value;
      (!Has(opts, X) ==> g.nameX == None && g.levelsX == []) &&
      (Has(opts, X) ==> g.levelsX == DistinctOf(NonNullValues(ValuesOf(layers, g.nameX.value))) && JNull !in g.levelsX) &&
      (!Has(opts, Y) ==> g.nameY == None && g.levelsY == []) &&
      (Has(opts, Y) ==> g.levelsY == DistinctOf(NonNullValues(ValuesOf(layers, g.nameY.value))) && JNull !in g.levelsY)
  {
    if Has(opts, X) { GridLevelsFirstSeen(layers, Text(opts[X], show)); }
    if Has(opts, Y) { GridLevelsFirstSeen(layers, Text(opts[Y], show)); }
  }

  /** A wrap has one level set and one order per facet; the orders are the
      given ones padded with the default and cut to the facet count. */
  lemma WrapShape(opts: Options, layers: seq<DataFrame>, show: Value -> string)
    requires WrapSpec(opts, layers, show).Ok?
    ensures var w := WrapSpec(opts, layers, show).value;
      |w.facetLevels| == |w.facets| && |w.order| == |w.facets| &&
      (forall i :: 0 <= i < |w.facets| ==> forall v :: v in w.facetLevels[i] <==> v != JNull && v in ValuesOf(layers, w.facets[i])) &&
      (forall i :: 0 <= i < |w.facets| && i < |OrderList(opts).value| ==> w.order[i] == OrderList(opts).value[i]) &&
      (forall i :: |OrderList(opts).value| <= i < |w.facets| ==> w.order[i] == DEF_ORDER_DIR)
  {
    var w := WrapSpec(opts, layers, show).value;
    forall i, v | 0 <= i < |w.facets|
      ensures v in w.facetLevels[i] <==> v != JNull && v in ValuesOf(layers, w.facets[i])
    {
      WrapLevelsAreValues(layers, w.facets[i], v);
    }
  }

  method CreateGrid(opts: Options, layers: seq<DataFrame>, show: Value -> string) returns (r: Result<PlotFacets>)
    ensures r == GridSpec(opts, layers, show)
  {
    var nameX, levelsX := CollectGridAxis(opts, X, layers, show);
    var nameY, levelsY := CollectGridAxis(opts, Y, layers, show);
    var xOrder := ToOrderVal(Get(opts, X_ORDER));
    if xOrder.Err? { return Err(xOrder.error); }
    var yOrder := ToOrderVal(Get(opts, Y_ORDER));
    if yOrder.Err? { return Err(yOrder.error); }
    r := Ok(FacetGrid(nameX, nameY, levelsX, levelsY, xOrder.value, yOrder.value));
  }

  method CreateWrap(opts: Options, layers: seq<DataFrame>, show: Value -> string) returns (r: Result<PlotFacets>)
    ensures r == WrapSpec(opts, layers, show)
  {
    var facets := GetAsStringList(opts, FACETS, show);
    var ncol := GetInteger(opts, NCOL);
    if ncol.Err? { return Err(ncol.error); }
    var nrow := GetInteger(opts, NROW);
    if nrow.Err? { return Err(nrow.error); }
    var facetLevels: seq<set<Value>> := [];
    var i := 0;
    while i < |facets|
      invariant 0 <= i <= |facets| && |facetLevels| == i
      invariant forall j :: 0 <= j < i ==> facetLevels[j] == WrapLevels(layers, facets[j])
    {
      var levels := CollectWrapLevels(facets[i], layers);
      facetLevels := facetLevels + [levels];
      i := i + 1;
    }
    var orderList := OrderList(opts);
    if orderList.Err? { return Err(orderList.error); }
    var orderListFinal := PadOrderList(|facets|, orderList.value);
    var dir := DirOption(opts, show);
    if dir.Err? { return Err(dir.error); }
    assert facetLevels == seq(|facets|, i requires 0 <= i < |facets| => WrapLevels(layers, facets[i]));
    assert orderListFinal == seq(|facets|, i requires 0 <= i < |facets| =>
      if i < |orderList.value| then orderList.value[i] else DEF_ORDER_DIR);
    r := Ok(FacetWrap(facets, facetLevels, nrow.value, ncol.value, dir.value, orderListFinal));
  }

  method CreateFacets(opts: Options, layers: seq<DataFrame>, show: Value -> string) returns (r: Result<PlotFacets>)
    ensures r == FacetsSpec(opts, layers, show)
  {
    var name := GetStringSafe(opts, NAME, show);
    if name.Err? {
      r := Err(name.error);
    } else if name.value == NAME_GRID {
      r := CreateGrid(opts, layers, show);
    } else if name.value == NAME_WRAP {
      r := CreateWrap(opts, layers, show);
    } else {
      r := Err(IllegalArgument("Facet 'grid' or 'wrap' expected."));
    }
  }
}
