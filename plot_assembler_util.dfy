/** Guide assembly of a plot (plot-builder): every mapped aesthetic of every layer
    becomes either a colour bar or part of a legend, grouped by scale name; the
    boxes come out colour bars first, then legends. Also the choice of plot layout. */
module PlotAssemblerUtil {
  import opened Common
  import opened LegendAssembler

  /** `updateAesRangeMap`: a known range is merged into the aesthetic's entry. */
  function UpdateAesRangeMap(aes: Aes, range: Option<Span>, rangeByAes: map<Aes, Span>): (r: map<Aes, Span>)
    ensures range.None? ==> r == rangeByAes
    ensures range.Some? ==>
      aes in r && r[aes].lower <= range.value.lower && range.value.upper <= r[aes].upper
    ensures range.Some? && aes in rangeByAes ==>
      r[aes].lower <= rangeByAes[aes].lower && rangeByAes[aes].upper <= r[aes].upper
    ensures range.Some? && aes in rangeByAes ==> r[aes] == SpanUnion(rangeByAes[aes], range.value)
    ensures range.Some? && aes !in rangeByAes ==> r[aes] == range.value
    ensures forall a :: a != aes ==> (a in r <==> a in rangeByAes) && (a in r ==> r[a] == rangeByAes[a])
  {
    if range.None? then rangeByAes
    else if aes in rangeByAes then rangeByAes[aes := SpanUnion(rangeByAes[aes], range.value)]
    else rangeByAes[aes := range.value]
  }

  /** A colour bar assembler: its title, the aesthetic whose scale it shows and its options. */
  datatype ColorBarAssembler = ColorBarAssembler(title: string, aes: Aes, options: Option<ColorBarOptions>) {
    function WithTitle(t: string): ColorBarAssembler { ColorBarAssembler(t, aes, options) }
  }

  /** What guide assembly asks of the plot: the legend context, each aesthetic's
      scale name, whether its scale fits a colour bar, whether explicit colour-bar
      options are acceptable for it, and whether two aesthetics share one scale. */
  datatype GuideContext = GuideContext(
    plot: PlotContext,
    scaleName: Aes -> string,
    fitsColorBar: Aes -> bool,
    colorBarCompatible: Aes -> bool,
    sameScale: (Aes, Aes) -> bool)

  function EqualScalesAndOptions(ctx: GuideContext, a: ColorBarAssembler, b: ColorBarAssembler): bool {
    ctx.sameScale(a.aes, b.aes) && a.options == b.options
  }

  /** A layer as guide assembly sees it: its key factory, the mapped aesthetics that
      ask for guides, the aesthetics it renders with the constant it sets for each
      (None where it sets none), its legend defaults, the aesthetics its keys take
      colour and fill from, and whether it is a marginal layer. */
  datatype LayerInfo = LayerInfo(
    keyFactory: KeyFactory,
    guideAes: seq<Aes>,
    renderedAes: seq<Aes>,
    constantOf: Aes -> Option<AesValue>,
    aestheticsDefaults: AesDefaults,
    colorByAes: Aes,
    fillByAes: Aes,
    isMarginal: bool)

  /** The constants a layer sets for the aesthetics it renders. */
  function LayerConstants(renderedAes: seq<Aes>, constantOf: Aes -> Option<AesValue>): map<Aes, AesValue> {
    map a | a in renderedAes && constantOf(a).Some? :: constantOf(a).value
  }

  /** The layer constants map (the first inner loop of `createLegends`): it holds
      exactly the rendered aesthetics that have a constant, each with its constant. */
  method CollectLayerConstants(renderedAes: seq<Aes>, constantOf: Aes -> Option<AesValue>)
    returns (layerConstantByAes: map<Aes, AesValue>)
    ensures forall a :: a in layerConstantByAes <==> a in renderedAes && constantOf(a).Some?
    ensures forall a :: a in layerConstantByAes ==> layerConstantByAes[a] == constantOf(a).value
    ensures layerConstantByAes == LayerConstants(renderedAes, constantOf)
  {
    layerConstantByAes := map[];
    var k := 0;
    while k < |renderedAes|
      invariant 0 <= k <= |renderedAes|
      invariant forall a :: a in layerConstantByAes <==> a in renderedAes[..k] && constantOf(a).Some?
      invariant forall a :: a in layerConstantByAes ==> layerConstantByAes[a] == constantOf(a).value
    {
      var aes := renderedAes[k];
      assert renderedAes[..k + 1] == renderedAes[..k] + [aes];
      var constant := constantOf(aes);
      if constant.Some? {
        layerConstantByAes := layerConstantByAes[aes := constant.value];
      }
      k := k + 1;
    }
    assert renderedAes[..k] == renderedAes;
  }

  /** The key style of a layer's legend keys: its constants, its defaults and its colour and fill aesthetics. */
  function KeyStyleOf(layer: LayerInfo, constants: map<Aes, AesValue>): KeyStyle {
    KeyStyle(constants, layer.aestheticsDefaults, layer.colorByAes, layer.fillByAes)
  }

  type ColorBars = m: LinkedMap<string, ColorBarAssembler> | m.Valid() witness LinkedMap([], map[])
  type AesGroups = m: LinkedMap<string, seq<Aes>> | m.Valid() witness LinkedMap([], map[])
  type Legends = m: LinkedMap<string, seq<LegendLayer>> | m.Valid() witness LinkedMap([], map[])

  datatype GuideBox = ColorBarBox(assembler: ColorBarAssembler) | LegendBox(spec: LegendSpec)

  /** The guide title if one is given, else the scale's name. */
  function ScaleName(aes: Aes, guides: map<Aes, GuideOptions>, ctx: GuideContext): string {
    if aes in guides && guides[aes].Title().Some? then guides[aes].Title().value else ctx.scaleName(aes)
  }

  // ---------------------------------------------------------------------------
  // One layer's aesthetics: colour bars and legend groups.

  datatype AesState = AesState(bars: ColorBars, groups: AesGroups)

  /** The key a new colour bar is stored under: its scale name, unless a different
      colour bar already has that name; then the aesthetic's name is appended. */
  function ColorBarName(bars: ColorBars, scaleName: string, cb: ColorBarAssembler, aes: Aes, ctx: GuideContext): string {
    if scaleName in bars.entries && !EqualScalesAndOptions(ctx, cb, bars.entries[scaleName])
    then scaleName + " (" + aes.name + ")"
    else scaleName
  }

  function AesStep(st: AesState, aes: Aes, guides: map<Aes, GuideOptions>,
                   mappers: map<Aes, ScaleMapper>, ctx: GuideContext): Result<AesState>
  {
    var scaleName := ScaleName(aes, guides, ctx);
    var explicit := aes in guides && guides[aes].ColorBarGuide?;
    if explicit && !ctx.colorBarCompatible(aes) then
      Err(IllegalState("Color-bar is not applicable to " + aes.name))
    else if explicit || ctx.fitsColorBar(aes) then
      if aes !in mappers then Err(NoSuchElement("Key " + aes.name + " is missing in the map."))
      else
        var cb := ColorBarAssembler(scaleName, aes, if explicit then Some(guides[aes].colorBar) else None);
        var name := ColorBarName(st.bars, scaleName, cb, aes, ctx);
        Ok(AesState(st.bars.Put(name, cb.WithTitle(name)), st.groups))
    else
      var group := if scaleName in st.groups.entries then st.groups.entries[scaleName] else [];
      Ok(AesState(st.bars, st.groups.Put(scaleName, group + [aes])))
  }

  function AesStepFn(guides: map<Aes, GuideOptions>, mappers: map<Aes, ScaleMapper>, ctx: GuideContext)
    : (AesState, Aes) -> Result<AesState>
  {
    (st: AesState, aes: Aes) => AesStep(st, aes, guides, mappers, ctx)
  }

  /** An explicit colour-bar guide, or a scale that fits one, gives a colour bar; a
      colour bar never silently replaces a different one of the same name: the
      newcomer goes under "name (aes)" and the existing one stays. Equal ones are
      replaced. Every other aesthetic joins the legend group of its scale name. */
  lemma AesStepColorBars(st: AesState, aes: Aes, guides: map<Aes, GuideOptions>,
                         mappers: map<Aes, ScaleMapper>, ctx: GuideContext)
    requires AesStep(st, aes, guides, mappers, ctx).Ok?
    ensures var r := AesStep(st, aes, guides, mappers, ctx).value;
      var name := ScaleName(aes, guides, ctx);
      var isBar := (aes in guides && guides[aes].ColorBarGuide?) || ctx.fitsColorBar(aes);
      var alt := name + " (" + aes.name + ")";
      var cb := ColorBarAssembler(name, aes,
        if aes in guides && guides[aes].ColorBarGuide? then Some(guides[aes].colorBar) else None);
      (isBar ==>
        r.groups == st.groups &&
        (name in st.bars.entries && !EqualScalesAndOptions(ctx, cb, st.bars.entries[name]) ==>
          name in r.bars.entries && r.bars.entries[name] == st.bars.entries[name] &&
          alt in r.bars.entries && r.bars.entries[alt] == cb.WithTitle(alt)) &&
        (!(name in st.bars.entries && !EqualScalesAndOptions(ctx, cb, st.bars.entries[name])) ==>
          name in r.bars.entries && r.bars.entries[name] == cb)) &&
      (!isBar ==>
        r.bars == st.bars && name in r.groups.entries &&
        r.groups.entries[name][|r.groups.entries[name]| - 1] == aes)
  {
    var name := ScaleName(aes, guides, ctx);
    var alt := name + " (" + aes.name + ")";
    assert |alt| > |name|;
  }

  /** Groups one layer's aesthetics (the first inner loop of `createLegends`). */
  method GroupLayerAes(aesList: seq<Aes>, bars0: ColorBars, guides: map<Aes, GuideOptions>,
                       mappers: map<Aes, ScaleMapper>, ctx: GuideContext) returns (r: Result<AesState>)
    ensures r == FoldResult(AesState(bars0, LinkedMap([], map[])), aesList, AesStepFn(guides, mappers, ctx))
  {
    ghost var init := AesState(bars0, LinkedMap([], map[]));
    ghost var step := AesStepFn(guides, mappers, ctx);
    var bars: ColorBars := bars0;
    var aesListByScaleName: AesGroups := LinkedMap([], map[]);
    var j := 0;
    while j < |aesList|
      invariant 0 <= j <= |aesList|
      invariant FoldResult(init, aesList[..j], step) == Ok(AesState(bars, aesListByScaleName))
    {
      FoldResultNext(init, aesList, step, j);
      var aes := aesList[j];
      var scaleName := ScaleName(aes, guides, ctx);
      var explicit := aes in guides && guides[aes].ColorBarGuide?;
      if explicit && !ctx.colorBarCompatible(aes) {
        FoldResultErr(init, aesList, step, j + 1);
        return Err(IllegalState("Color-bar is not applicable to " + aes.name));
      }
      if explicit || ctx.fitsColorBar(aes) {
        if aes !in mappers {
          FoldResultErr(init, aesList, step, j + 1);
          return Err(NoSuchElement("Key " + aes.name + " is missing in the map."));
        }
        var colorBarAssembler := ColorBarAssembler(scaleName, aes, if explicit then Some(guides[aes].colorBar) else None);
        var colorbarName := scaleName;
        if scaleName in bars.entries && !EqualScalesAndOptions(ctx, colorBarAssembler, bars.entries[scaleName]) {
          colorbarName := scaleName + " (" + aes.name + ")";
        }
        bars := bars.Put(colorbarName, colorBarAssembler.WithTitle(colorbarName));
      } else {
        var group := if scaleName in aesListByScaleName.entries then aesListByScaleName.entries[scaleName] else [];
        aesListByScaleName := aesListByScaleName.Put(scaleName, group + [aes]);
      }
      j := j + 1;
    }
    assert aesList[..j] == aesList;
    r := Ok(AesState(bars, aesListByScaleName));
  }

  // ---------------------------------------------------------------------------
  // One layer's legend groups: one legend layer per scale name.

  /** The legend overrides a guide option asks for (none for colour bars). */
  function OverridesOf(aes: Aes, guides: map<Aes, GuideOptions>): map<Aes, Override> {
    if aes in guides && guides[aes].LegendGuide? then guides[aes].legend.overrideAesValues else map[]
  }

  /** All overrides of a group's aesthetics, later aesthetics winning. */
  function OverrideUnion(aesList: seq<Aes>, guides: map<Aes, GuideOptions>): map<Aes, Override> {
    if |aesList| == 0 then map[]
    else OverrideUnion(aesList[..|aesList| - 1], guides) + OverridesOf(aesList[|aesList| - 1], guides)
  }

  /** An aesthetic is overridden exactly when one of the group's aesthetics asks for
      it, and it gets the value of the last one that does. */
  lemma {:induction false} OverrideUnionLastWins(aesList: seq<Aes>, guides: map<Aes, GuideOptions>, k: Aes)
    ensures k in OverrideUnion(aesList, guides) <==>
      exists i :: 0 <= i < |aesList| && k in OverridesOf(aesList[i], guides)
    ensures k in OverrideUnion(aesList, guides) ==>
      exists i :: 0 <= i < |aesList| && k in OverridesOf(aesList[i], guides) &&
        OverrideUnion(aesList, guides)[k] == OverridesOf(aesList[i], guides)[k] &&
        forall j :: i < j < |aesList| ==> k !in OverridesOf(aesList[j], guides)
  {
    if |aesList| > 0 {
      var n := |aesList| - 1;
      var prefix := aesList[..n];
      OverrideUnionLastWins(prefix, guides, k);
      assert forall i :: 0 <= i < n ==> prefix[i] == aesList[i];
      if k in OverridesOf(aesList[n], guides) {
      } else if k in OverrideUnion(prefix, guides) {
        var i :| 0 <= i < n && k in OverridesOf(prefix[i], guides) &&
          OverrideUnion(prefix, guides)[k] == OverridesOf(prefix[i], guides)[k] &&
          forall j :: i < j < n ==> k !in OverridesOf(prefix[j], guides);
        assert forall j :: i < j < |aesList| ==> k !in OverridesOf(aesList[j], guides);
      }
    }
  }

  /** `legendAssemblerByTitle.getOrPut(scaleName) {...}.addLayer(...)`: one more
      legend layer for the scale name, in a new assembler if the name is new. */
  function GroupStep(legends: Legends, scaleName: string, groups: AesGroups, layer: LayerInfo,
                     constants: map<Aes, AesValue>, guides: map<Aes, GuideOptions>,
                     mappers: map<Aes, ScaleMapper>, ctx: GuideContext): Result<Legends>
  {
    var aesForName := if scaleName in groups.entries then groups.entries[scaleName] else [];
    var layers := if scaleName in legends.entries then legends.entries[scaleName] else [];
    var legendLayer := LegendLayerOf(layer.keyFactory, aesForName, OverrideUnion(aesForName, guides),
                                     mappers, KeyStyleOf(layer, constants), layer.isMarginal, ctx.plot);
    if legendLayer.Err? then Err(legendLayer.error)
    else
      var next: Legends := legends.Put(scaleName, layers + [legendLayer.value]);
      Ok(next)
  }

  function GroupStepFn(groups: AesGroups, layer: LayerInfo, constants: map<Aes, AesValue>,
                       guides: map<Aes, GuideOptions>, mappers: map<Aes, ScaleMapper>, ctx: GuideContext)
    : (Legends, string) -> Result<Legends>
  {
    (legends: Legends, scaleName: string) => GroupStep(legends, scaleName, groups, layer, constants, guides, mappers, ctx)
  }

  /** Adds one legend layer per legend group (the last inner loop of `createLegends`);
      each layer's keys fall back on the layer's constants, defaults and colour and
      fill aesthetics. */
  method AddLegendLayers(legends0: Legends, groups: AesGroups, layer: LayerInfo, layerConstantByAes: map<Aes, AesValue>,
                         guides: map<Aes, GuideOptions>, mappers: map<Aes, ScaleMapper>, ctx: GuideContext)
    returns (r: Result<Legends>)
    ensures r == FoldResult(legends0, groups.keys, GroupStepFn(groups, layer, layerConstantByAes, guides, mappers, ctx))
  {
    ghost var step := GroupStepFn(groups, layer, layerConstantByAes, guides, mappers, ctx);
    var legends: Legends := legends0;
    var k := 0;
    while k < |groups.keys|
      invariant 0 <= k <= |groups.keys|
      invariant FoldResult(legends0, groups.keys[..k], step) == Ok(legends)
    {
      FoldResultNext(legends0, groups.keys, step, k);
      var scaleName := groups.keys[k];
      var layers := if scaleName in legends.entries then legends.entries[scaleName] else [];
      var aesListForScaleName := groups.entries[scaleName];
      var overrideAesValues := OverrideUnion(aesListForScaleName, guides);
      var style := KeyStyle(layerConstantByAes, layer.aestheticsDefaults, layer.colorByAes, layer.fillByAes);
      var legendLayer := NewLegendLayer(layer.keyFactory, aesListForScaleName, overrideAesValues,
                                        mappers, style, layer.isMarginal, ctx.plot);
      if legendLayer.Err? {
        FoldResultErr(legends0, groups.keys, step, k + 1);
        return Err(legendLayer.error);
      }
      legends := legends.Put(scaleName, layers + [legendLayer.value]);
      k := k + 1;
    }
    assert groups.keys[..k] == groups.keys;
    r := Ok(legends);
  }

  // ---------------------------------------------------------------------------
  // All layers, then the boxes.

  datatype State = State(bars: ColorBars, legends: Legends)

  function LayerStep(st: State, layer: LayerInfo, guides: map<Aes, GuideOptions>,
                     mappers: map<Aes, ScaleMapper>, ctx: GuideContext): Result<State>
  {
    var grouped := FoldResult(AesState(st.bars, LinkedMap([], map[])), layer.guideAes, AesStepFn(guides, mappers, ctx));
    if grouped.Err? then Err(grouped.error)
    else
      var legends := FoldResult(st.legends, grouped.value.groups.keys,
                                GroupStepFn(grouped.value.groups, layer, LayerConstants(layer.renderedAes, layer.constantOf), guides, mappers, ctx));
      if legends.Err? then Err(legends.error)
      else Ok(State(grouped.value.bars, legends.value))
  }

  function LayerStepFn(guides: map<Aes, GuideOptions>, mappers: map<Aes, ScaleMapper>, ctx: GuideContext)
    : (State, LayerInfo) -> Result<State>
  {
    (st: State, layer: LayerInfo) => LayerStep(st, layer, guides, mappers, ctx)
  }

  const EmptyState: State := State(LinkedMap([], map[]), LinkedMap([], map[]))

  /** Everything `createLegends` needs besides the layers. */
  datatype GuideSetup = GuideSetup(
    mappers: map<Aes, ScaleMapper>,
    guides: map<Aes, GuideOptions>,
    theme: LegendTheme,
    ctx: GuideContext,
    wrap: string -> string,
    combine: seq<LegendOptions> -> LegendOptions,
    minimumKeySize: LegendBreak -> Vec,
    colorBarIsEmpty: ColorBarAssembler -> bool)

  /** The non-empty colour bars of the given titles, in order. */
  function ColorBarBoxes(bars: ColorBars, titles: seq<string>, setup: GuideSetup): (r: seq<GuideBox>)
    ensures forall i :: 0 <= i < |r| ==> r[i].ColorBarBox? && !setup.colorBarIsEmpty(r[i].assembler)
  {
    if |titles| == 0 then []
    else
      var prev := ColorBarBoxes(bars, titles[..|titles| - 1], setup);
      var t := titles[|titles| - 1];
      if t in bars.entries && !setup.colorBarIsEmpty(bars.entries[t]) then prev + [ColorBarBox(bars.entries[t])]
      else prev
  }

  /** The non-empty legends of the given titles, in order. */
  function LegendBoxes(legends: Legends, titles: seq<string>, setup: GuideSetup): (r: seq<GuideBox>)
    ensures forall i :: 0 <= i < |r| ==> r[i].LegendBox?
  {
    if |titles| == 0 then []
    else
      var prev := LegendBoxes(legends, titles[..|titles| - 1], setup);
      var t := titles[|titles| - 1];
      var box := if t in legends.entries
        then LegendBoxOf(legends.entries[t], t, setup.guides, setup.theme, setup.wrap, setup.combine, setup.minimumKeySize)
        else EmptyLegend;
      if box.Legend? then prev + [LegendBox(box.spec)] else prev
  }

  function CreateLegendsSpec(layers: seq<LayerInfo>, setup: GuideSetup): Result<seq<GuideBox>> {
    var st := FoldResult(EmptyState, layers, LayerStepFn(setup.guides, setup.mappers, setup.ctx));
    if st.Err? then Err(st.error)
    else Ok(ColorBarBoxes(st.value.bars, st.value.bars.keys, setup) +
            LegendBoxes(st.value.legends, st.value.legends.keys, setup))
  }

  /** The boxes come out colour bars first, then legends, and none of them is empty. */
  lemma CreateLegendsOrder(layers: seq<LayerInfo>, setup: GuideSetup)
    requires CreateLegendsSpec(layers, setup).Ok?
    ensures var boxes := CreateLegendsSpec(layers, setup).value;
      (forall i, j :: 0 <= i < j < |boxes| && boxes[j].ColorBarBox? ==> boxes[i].ColorBarBox?) &&
      (forall i :: 0 <= i < |boxes| && boxes[i].ColorBarBox? ==> !setup.colorBarIsEmpty(boxes[i].assembler))
  {
  }

  /** Every legend shown carries the title it was grouped under, and the titles are distinct. */
  lemma {:induction false} LegendBoxTitles(legends: Legends, titles: seq<string>, setup: GuideSetup)
    requires NoDuplicates(titles)
    ensures forall i :: 0 <= i < |LegendBoxes(legends, titles, setup)| ==>
      LegendBoxes(legends, titles, setup)[i].spec.title in titles
    ensures forall i, j :: 0 <= i < j < |LegendBoxes(legends, titles, setup)| ==>
      LegendBoxes(legends, titles, setup)[i].spec.title != LegendBoxes(legends, titles, setup)[j].spec.title
  {
    if |titles| > 0 {
      var prefix := titles[..|titles| - 1];
      var t := titles[|titles| - 1];
      assert titles == prefix + [t];
      assert NoDuplicates(prefix) by {
        forall i, j | 0 <= i < j < |prefix| ensures prefix[i] != prefix[j] {
          assert prefix[i] == titles[i] && prefix[j] == titles[j];
        }
      }
      LegendBoxTitles(legends, prefix, setup);
      assert t !in prefix by {
        forall i | 0 <= i < |prefix| ensures prefix[i] != t {
          assert prefix[i] == titles[i];
        }
      }
      var prev := LegendBoxes(legends, prefix, setup);
      var r := LegendBoxes(legends, titles, setup);
      var box := if t in legends.entries
        then LegendBoxOf(legends.entries[t], t, setup.guides, setup.theme, setup.wrap, setup.combine, setup.minimumKeySize)
        else EmptyLegend;
      assert r == if box.Legend? then prev + [LegendBox(box.spec)] else prev;
      assert forall i :: 0 <= i < |prev| ==> r[i] == prev[i];
      forall i | 0 <= i < |r| ensures r[i].spec.title in titles {
        if i < |prev| {
          assert prev[i].spec.title in prefix;
        }
      }
      forall i, j | 0 <= i < j < |r| ensures r[i].spec.title != r[j].spec.title {
        if j == |prev| {
          assert r[j].spec.title == t;
          assert prev[i].spec.title in prefix;
        }
      }
    }
  }

  /** `createLegends`. */
  method CreateLegends(layers: seq<LayerInfo>, setup: GuideSetup) returns (r: Result<seq<GuideBox>>)
    ensures r == CreateLegendsSpec(layers, setup)
  {
    ghost var step := LayerStepFn(setup.guides, setup.mappers, setup.ctx);
    var colorBarAssemblerByTitle: ColorBars := LinkedMap([], map[]);
    var legendAssemblerByTitle: Legends := LinkedMap([], map[]);
    var i := 0;
    while i < |layers|
      invariant 0 <= i <= |layers|
      invariant FoldResult(EmptyState, layers[..i], step) ==
        Ok(State(colorBarAssemblerByTitle, legendAssemblerByTitle))
    {
      FoldResultNext(EmptyState, layers, step, i);
      var layerInfo := layers[i];
      var layerConstantByAes := CollectLayerConstants(layerInfo.renderedAes, layerInfo.constantOf);
      var grouped := GroupLayerAes(layerInfo.guideAes, colorBarAssemblerByTitle, setup.guides, setup.mappers, setup.ctx);
      if grouped.Err? {
        FoldResultErr(EmptyState, layers, step, i + 1);
        return Err(grouped.error);
      }
      var legends := AddLegendLayers(legendAssemblerByTitle, grouped.value.groups, layerInfo, layerConstantByAes,
                                     setup.guides, setup.mappers, setup.ctx);
      if legends.Err? {
        FoldResultErr(EmptyState, layers, step, i + 1);
        return Err(legends.error);
      }
      colorBarAssemblerByTitle := grouped.value.bars;
      legendAssemblerByTitle := legends.value;
      i := i + 1;
    }
    assert layers[..i] == layers;

    var barBoxes := CollectColorBars(colorBarAssemblerByTitle, setup);
    var legendBoxes := CollectLegends(legendAssemblerByTitle, setup);
    r := Ok(barBoxes + legendBoxes);
  }

  /** The first output loop of `createLegends`: the non-empty colour bars. */
  method CollectColorBars(colorBarAssemblerByTitle: ColorBars, setup: GuideSetup) returns (legendBoxInfos: seq<GuideBox>)
    ensures legendBoxInfos == ColorBarBoxes(colorBarAssemblerByTitle, colorBarAssemblerByTitle.keys, setup)
  {
    legendBoxInfos := [];
    var k := 0;
    while k < |colorBarAssemblerByTitle.keys|
      invariant 0 <= k <= |colorBarAssemblerByTitle.keys|
      invariant legendBoxInfos == ColorBarBoxes(colorBarAssemblerByTitle, colorBarAssemblerByTitle.keys[..k], setup)
    {
      var legendTitle := colorBarAssemblerByTitle.keys[k];
      assert colorBarAssemblerByTitle.keys[..k + 1][..k] == colorBarAssemblerByTitle.keys[..k];
      var bar := colorBarAssemblerByTitle.entries[legendTitle];
      if !setup.colorBarIsEmpty(bar) {
        legendBoxInfos := legendBoxInfos + [ColorBarBox(bar)];
      }
      k := k + 1;
    }
    assert colorBarAssemblerByTitle.keys[..k] == colorBarAssemblerByTitle.keys;
  }

  /** The second output loop of `createLegends`: the non-empty legends. */
  method CollectLegends(legendAssemblerByTitle: Legends, setup: GuideSetup) returns (legendBoxInfos: seq<GuideBox>)
    ensures legendBoxInfos == LegendBoxes(legendAssemblerByTitle, legendAssemblerByTitle.keys, setup)
  {
    legendBoxInfos := [];
    var k := 0;
    while k < |legendAssemblerByTitle.keys|
      invariant 0 <= k <= |legendAssemblerByTitle.keys|
      invariant legendBoxInfos == LegendBoxes(legendAssemblerByTitle, legendAssemblerByTitle.keys[..k], setup)
    {
      var legendTitle := legendAssemblerByTitle.keys[k];
      assert legendAssemblerByTitle.keys[..k + 1][..k] == legendAssemblerByTitle.keys[..k];
      var box := LegendBoxOf(legendAssemblerByTitle.entries[legendTitle], legendTitle, setup.guides,
                             setup.theme, setup.wrap, setup.combine, setup.minimumKeySize);
      if box.Legend? {
        legendBoxInfos := legendBoxInfos + [LegendBox(box.spec)];
      }
      k := k + 1;
    }
    assert legendAssemblerByTitle.keys[..k] == legendAssemblerByTitle.keys;
  }

  // ---------------------------------------------------------------------------
  // Plot layout.

  /** A tile layout provider, identified by a number. */
  type TileLayoutProvider = int

  datatype TileLayout = InsideOutTileLayout(provider: TileLayoutProvider) | TopDownTileLayout(provider: TileLayoutProvider)

  datatype PlotLayout =
    | FacetedPlotLayout(providers: seq<TileLayoutProvider>, showStrip: bool)
    | SingleTilePlotLayout(tileLayout: TileLayout)

  /** `createPlotLayout`: faceted plots lay out every tile; otherwise the first
      tile's provider gives an inside-out or a top-down layout, and a missing first
      provider is an index error. */
  function CreatePlotLayout(providers: seq<TileLayoutProvider>, insideOut: bool, facetsDefined: bool,
                            showStrip: bool): (r: Result<PlotLayout>)
    ensures facetsDefined ==> r == Ok(FacetedPlotLayout(providers, showStrip))
    ensures !facetsDefined && |providers| == 0 ==> r.Err? && r.error.IndexOutOfBounds?
    ensures !facetsDefined && |providers| > 0 ==>
      r.Ok? && r.value.SingleTilePlotLayout? && r.value.tileLayout.provider == providers[0] &&
      (r.value.tileLayout.InsideOutTileLayout? <==> insideOut)
  {
    if facetsDefined then Ok(FacetedPlotLayout(providers, showStrip))
    else if |providers| == 0 then Err(IndexOutOfBounds("Index 0 out of bounds for length 0"))
    else if insideOut then Ok(SingleTilePlotLayout(InsideOutTileLayout(providers[0])))
    else Ok(SingleTilePlotLayout(TopDownTileLayout(providers[0])))
  }
}
