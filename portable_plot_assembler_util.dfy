/** Guide assembly of the portable plot builder: the layers of all panels are
    stitched plane by plane, the guides' transformed domains are merged across
    planes, and each stitched layer's aesthetics become colour bars or legend
    entries grouped by scale name. */
module PortablePlotAssemblerUtil {
  import opened Common
  import opened LegendAssembler
  import opened PlotAssemblerUtil

  /** A geometry layer of one panel, identified by a number. */
  type GeomLayer = int

  /** A stitched layer: the same layer taken from every panel, in panel order. */
  type StitchedLayers = seq<GeomLayer>

  // ---------------------------------------------------------------------------
  // Stitching.

  /** The number of layers per panel, read off the first panel (zero without panels). */
  function PlaneCount(layersByPanel: seq<seq<GeomLayer>>): nat {
    if |layersByPanel| > 0 then |layersByPanel[0]| else 0
  }

  predicate AllPanelsHave(layersByPanel: seq<seq<GeomLayer>>, count: nat) {
    forall p :: 0 <= p < |layersByPanel| ==> count <= |layersByPanel[p]|
  }

  /** The stitched layers: plane `i` gathers layer `i` of every panel. A panel with
      fewer layers than the first one is an index error. */
  function Stitch(layersByPanel: seq<seq<GeomLayer>>): (r: Result<seq<StitchedLayers>>)
    ensures r.Ok? <==> AllPanelsHave(layersByPanel, PlaneCount(layersByPanel))
    ensures r.Err? ==> r.error.IndexOutOfBounds?
    ensures r.Ok? ==>
      |r.value| == PlaneCount(layersByPanel) &&
      forall i :: 0 <= i < |r.value| ==>
        |r.value[i]| == |layersByPanel| &&
        forall p :: 0 <= p < |layersByPanel| ==> r.value[i][p] == layersByPanel[p][i]
  {
    var n := PlaneCount(layersByPanel);
    if AllPanelsHave(layersByPanel, n) then
      Ok(seq(n, i requires 0 <= i < n =>
        seq(|layersByPanel|, p requires 0 <= p < |layersByPanel| => layersByPanel[p][i])))
    else Err(IndexOutOfBounds("Index out of range"))
  }

  /** The stitching loops of `createLegends`. */
  method StitchLayers(layersByPanel: seq<seq<GeomLayer>>) returns (r: Result<seq<StitchedLayers>>)
    ensures r == Stitch(layersByPanel)
  {
    var planeCount := 0;
    if |layersByPanel| > 0 {
      planeCount := |layersByPanel[0]|;
    }
    var stitchedLayersList: seq<StitchedLayers> := [];
    var i := 0;
    while i < planeCount
      invariant 0 <= i <= planeCount
      invariant |stitchedLayersList| == i
      invariant planeCount > 0 ==> |layersByPanel| > 0
      invariant forall p :: 0 <= p < |layersByPanel| ==> i <= |layersByPanel[p]|
      invariant forall k :: 0 <= k < i ==>
        stitchedLayersList[k] == seq(|layersByPanel|, p requires 0 <= p < |layersByPanel| => layersByPanel[p][k])
    {
      var layersOnPlane: seq<GeomLayer> := [];
      var p := 0;
      while p < |layersByPanel|
        invariant 0 <= p <= |layersByPanel|
        invariant |layersOnPlane| == p
        invariant forall q :: 0 <= q < p ==> i < |layersByPanel[q]| && layersOnPlane[q] == layersByPanel[q][i]
      {
        if i >= |layersByPanel[p]| {
          assert !AllPanelsHave(layersByPanel, PlaneCount(layersByPanel));
          return Err(IndexOutOfBounds("Index out of range"));
        }
        layersOnPlane := layersOnPlane + [layersByPanel[p][i]];
        p := p + 1;
      }
      assert layersOnPlane == seq(|layersByPanel|, p requires 0 <= p < |layersByPanel| => layersByPanel[p][i]);
      stitchedLayersList := stitchedLayersList + [layersOnPlane];
      i := i + 1;
    }
    assert AllPanelsHave(layersByPanel, PlaneCount(layersByPanel));
    assert stitchedLayersList == Stitch(layersByPanel).value;
    r := Ok(stitchedLayersList);
  }

  // ---------------------------------------------------------------------------
  // Transformed domains of the guides.

  /** `domains` merged into `acc` for the aesthetics in `done`: a shared aesthetic
      gets the span of both, a new one its own domain. */
  function MergeDomains(acc: map<Aes, Span>, domains: map<Aes, Span>, done: set<Aes>): (r: map<Aes, Span>)
    requires done <= domains.Keys
  {
    map a | a in acc.Keys + done ::
      if a in done then (if a in acc then SpanUnion(acc[a], domains[a]) else domains[a]) else acc[a]
  }

  lemma MergeDomainsStep(acc: map<Aes, Span>, domains: map<Aes, Span>, done: set<Aes>, a: Aes)
    requires done <= domains.Keys && a in domains && a !in done
    ensures MergeDomains(acc, domains, done + {a}) ==
      UpdateAesRangeMap(a, Some(domains[a]), MergeDomains(acc, domains, done))
  {
    var l := MergeDomains(acc, domains, done + {a});
    var r := UpdateAesRangeMap(a, Some(domains[a]), MergeDomains(acc, domains, done));
    assert l.Keys == r.Keys;
    forall b | b in l ensures l[b] == r[b] {
    }
  }

  /** Merges one stitched layer's domains, one aesthetic at a time, in any order. */
  method MergeLayerDomains(acc0: map<Aes, Span>, domains: map<Aes, Span>) returns (acc: map<Aes, Span>)
    ensures acc == MergeDomains(acc0, domains, domains.Keys)
  {
    acc := acc0;
    var remaining := domains.Keys;
    ghost var done: set<Aes> := {};
    assert acc0 == MergeDomains(acc0, domains, {});
    while remaining != {}
      invariant remaining <= domains.Keys && done <= domains.Keys
      invariant done + remaining == domains.Keys && done !! remaining
      invariant acc == MergeDomains(acc0, domains, done)
      decreases remaining
    {
      var a :| a in remaining;
      MergeDomainsStep(acc0, domains, done, a);
      acc := UpdateAesRangeMap(a, Some(domains[a]), acc);
      remaining := remaining - {a};
      done := done + {a};
    }
  }

  /** The merged domains after the given stitched layers. */
  function DomainsOf(layers: seq<StitchedLayers>, layerDomains: StitchedLayers -> map<Aes, Span>): map<Aes, Span> {
    if |layers| == 0 then map[]
    else
      var d := layerDomains(layers[|layers| - 1]);
      MergeDomains(DomainsOf(layers[..|layers| - 1], layerDomains), d, d.Keys)
  }

  /** The domain loop of `createLegends`. */
  method TransformedDomainByAes(layers: seq<StitchedLayers>, layerDomains: StitchedLayers -> map<Aes, Span>)
    returns (transformedDomainByAes: map<Aes, Span>)
    ensures transformedDomainByAes == DomainsOf(layers, layerDomains)
  {
    transformedDomainByAes := map[];
    var i := 0;
    while i < |layers|
      invariant 0 <= i <= |layers|
      invariant transformedDomainByAes == DomainsOf(layers[..i], layerDomains)
    {
      assert layers[..i + 1][..i] == layers[..i];
      transformedDomainByAes := MergeLayerDomains(transformedDomainByAes, layerDomains(layers[i]));
      i := i + 1;
    }
    assert layers[..i] == layers;
  }

  /** The merged domain of an aesthetic holds its domain in every stitched layer,
      and only aesthetics some layer has a domain for are present. */
  lemma {:induction false} DomainsCoverLayers(layers: seq<StitchedLayers>, layerDomains: StitchedLayers -> map<Aes, Span>)
    ensures forall a :: a in DomainsOf(layers, layerDomains) <==>
      exists i :: 0 <= i < |layers| && a in layerDomains(layers[i])
    ensures forall i, a :: 0 <= i < |layers| && a in layerDomains(layers[i]) ==>
      a in DomainsOf(layers, layerDomains) &&
      DomainsOf(layers, layerDomains)[a].lower <= layerDomains(layers[i])[a].lower &&
      layerDomains(layers[i])[a].upper <= DomainsOf(layers, layerDomains)[a].upper
  {
    if |layers| > 0 {
      var n := |layers| - 1;
      var prefix := layers[..n];
      DomainsCoverLayers(prefix, layerDomains);
      assert forall i :: 0 <= i < n ==> prefix[i] == layers[i];
      var prev := DomainsOf(prefix, layerDomains);
      var d := layerDomains(layers[n]);
      var r := DomainsOf(layers, layerDomains);
      assert r == MergeDomains(prev, d, d.Keys);
      forall a | a in r ensures exists i :: 0 <= i < |layers| && a in layerDomains(layers[i]) {
        if a !in d {
          assert a in prev;
        }
      }
      forall i, a | 0 <= i < |layers| && a in layerDomains(layers[i])
        ensures a in r && r[a].lower <= layerDomains(layers[i])[a].lower &&
                layerDomains(layers[i])[a].upper <= r[a].upper
      {
        if i < n {
          assert a in prev;
        }
      }
    }
  }

  // ---------------------------------------------------------------------------
  // Colour bars and legends.

  /** What the portable guide assembly asks of a stitched layer: its key factory,
      the aesthetics that ask for guides, the aesthetics it renders with the
      constant it sets for each (None where it sets none), and its legend defaults. */
  datatype StitchedInfo = StitchedInfo(
    keyFactory: KeyFactory,
    guideAes: seq<Aes>,
    renderedAes: seq<Aes>,
    constantOf: Aes -> Option<AesValue>,
    aestheticsDefaults: AesDefaults)

  /** One `addLayer` call on a portable legend assembler: the key factory, the
      bindings of one scale name, the layer's constants and its defaults. */
  datatype LegendLayerRequest = LegendLayerRequest(
    keyFactory: KeyFactory,
    bindings: seq<Aes>,
    constants: map<Aes, AesValue>,
    defaults: AesDefaults)

  /** The request one scale name's bindings make for a layer. */
  function RequestOf(layer: StitchedInfo, constants: map<Aes, AesValue>, bindings: seq<Aes>): LegendLayerRequest {
    LegendLayerRequest(layer.keyFactory, bindings, constants, layer.aestheticsDefaults)
  }

  type Requests = m: LinkedMap<string, seq<LegendLayerRequest>> | m.Valid() witness LinkedMap([], map[])

  datatype PState = PState(bars: ColorBars, groups: AesGroups)

  /** One aesthetic: explicit colour-bar options make a colour bar (replacing one of
      the same name), other explicit options make a legend entry, and only without
      options does a scale that fits a colour bar get one. */
  function PAesStep(st: PState, aes: Aes, guides: map<Aes, GuideOptions>, ctx: GuideContext): Result<PState> {
    var scaleName := ctx.scaleName(aes);
    if aes in guides then
      if guides[aes].ColorBarGuide? then
        if !ctx.colorBarCompatible(aes) then Err(IllegalState("Color-bar is not applicable to " + aes.name))
        else Ok(PState(st.bars.Put(scaleName, ColorBarAssembler(scaleName, aes, Some(guides[aes].colorBar))), st.groups))
      else Ok(PState(st.bars, AddToGroup(st.groups, scaleName, aes)))
    else if ctx.fitsColorBar(aes) then
      Ok(PState(st.bars.Put(scaleName, ColorBarAssembler(scaleName, aes, None)), st.groups))
    else Ok(PState(st.bars, AddToGroup(st.groups, scaleName, aes)))
  }

  function AddToGroup(groups: AesGroups, scaleName: string, aes: Aes): (r: AesGroups) {
    groups.Put(scaleName, (if scaleName in groups.entries then groups.entries[scaleName] else []) + [aes])
  }

  function PAesStepFn(guides: map<Aes, GuideOptions>, ctx: GuideContext): (PState, Aes) -> Result<PState> {
    (st: PState, aes: Aes) => PAesStep(st, aes, guides, ctx)
  }

  /** Colour bars of one scale name overwrite each other (the last one wins), and a
      scale's fit for a colour bar is consulted only when the aesthetic has no options. */
  lemma PAesStepColorBars(st: PState, aes: Aes, guides: map<Aes, GuideOptions>, ctx: GuideContext)
    requires PAesStep(st, aes, guides, ctx).Ok?
    ensures var r := PAesStep(st, aes, guides, ctx).value;
      var name := ctx.scaleName(aes);
      (aes in guides && guides[aes].ColorBarGuide? ==>
        name in r.bars.entries && r.bars.entries[name] == ColorBarAssembler(name, aes, Some(guides[aes].colorBar)) &&
        r.groups == st.groups) &&
      (aes in guides && guides[aes].LegendGuide? ==>
        r.bars == st.bars && name in r.groups.entries && r.groups.entries[name][|r.groups.entries[name]| - 1] == aes) &&
      (aes !in guides && ctx.fitsColorBar(aes) ==>
        name in r.bars.entries && r.bars.entries[name] == ColorBarAssembler(name, aes, None) &&
        r.groups == st.groups) &&
      (aes !in guides && !ctx.fitsColorBar(aes) ==>
        r.bars == st.bars && name in r.groups.entries && r.groups.entries[name][|r.groups.entries[name]| - 1] == aes)
  {
  }

  /** The body of the first inner loop: the local `colorBar` flag decides whether
      the aesthetic joins its scale name's legend group. */
  method PAddAes(st: PState, aes: Aes, guides: map<Aes, GuideOptions>, ctx: GuideContext) returns (r: Result<PState>)
    ensures r == PAesStep(st, aes, guides, ctx)
  {
    var colorBarAssemblerByTitle := st.bars;
    var colorBar := false;
    var scaleName := ctx.scaleName(aes);
    if aes in guides {
      var guideOptions := guides[aes];
      if guideOptions.ColorBarGuide? {
        if !ctx.colorBarCompatible(aes) {
          return Err(IllegalState("Color-bar is not applicable to " + aes.name));
        }
        colorBar := true;
        colorBarAssemblerByTitle := colorBarAssemblerByTitle.Put(scaleName,
          ColorBarAssembler(scaleName, aes, Some(guideOptions.colorBar)));
      }
    } else if ctx.fitsColorBar(aes) {
      colorBar := true;
      colorBarAssemblerByTitle := colorBarAssemblerByTitle.Put(scaleName, ColorBarAssembler(scaleName, aes, None));
    }
    var layerBindingsByScaleName := st.groups;
    if !colorBar {
      layerBindingsByScaleName := AddToGroup(layerBindingsByScaleName, scaleName, aes);
    }
    r := Ok(PState(colorBarAssemblerByTitle, layerBindingsByScaleName));
  }

  /** The first inner loop of the private `createLegends`. */
  method PGroupLayerAes(aesList: seq<Aes>, bars0: ColorBars, guides: map<Aes, GuideOptions>, ctx: GuideContext)
    returns (r: Result<PState>)
    ensures r == FoldResult(PState(bars0, LinkedMap([], map[])), aesList, PAesStepFn(guides, ctx))
  {
    ghost var init := PState(bars0, LinkedMap([], map[]));
    ghost var step := PAesStepFn(guides, ctx);
    var st := PState(bars0, LinkedMap([], map[]));
    var j := 0;
    while j < |aesList|
      invariant 0 <= j <= |aesList|
      invariant FoldResult(init, aesList[..j], step) == Ok(st)
    {
      FoldResultNext(init, aesList, step, j);
      var next := PAddAes(st, aesList[j], guides, ctx);
      if next.Err? {
        FoldResultErr(init, aesList, step, j + 1);
        return Err(next.error);
      }
      st := next.value;
      j := j + 1;
    }
    assert aesList[..j] == aesList;
    r := Ok(st);
  }

  /** One legend request per scale name of the group map, for the given names. */
  function AddRequests(legends: Requests, groups: AesGroups, names: seq<string>, layer: StitchedInfo, constants: map<Aes, AesValue>): (r: Requests)
  {
    if |names| == 0 then legends
    else
      var prev := AddRequests(legends, groups, names[..|names| - 1], layer, constants);
      var name := names[|names| - 1];
      var existing := if name in prev.entries then prev.entries[name] else [];
      var bindings := if name in groups.entries then groups.entries[name] else [];
      prev.Put(name, existing + [RequestOf(layer, constants, bindings)])
  }

  /** Each scale name of a layer adds exactly one request, carrying that name's
      aesthetics, after the requests of earlier layers. */
  lemma {:induction false} AddRequestsAppends(legends: Requests, groups: AesGroups, names: seq<string>,
                                              layer: StitchedInfo, constants: map<Aes, AesValue>, name: string)
    requires NoDuplicates(names)
    ensures name in names ==>
      name in AddRequests(legends, groups, names, layer, constants).entries &&
      AddRequests(legends, groups, names, layer, constants).entries[name] ==
        (if name in legends.entries then legends.entries[name] else []) +
        [RequestOf(layer, constants, if name in groups.entries then groups.entries[name] else [])]
    ensures name !in names ==>
      (name in AddRequests(legends, groups, names, layer, constants).entries <==> name in legends.entries) &&
      (name in legends.entries ==> AddRequests(legends, groups, names, layer, constants).entries[name] == legends.entries[name])
  {
    if |names| > 0 {
      var prefix := names[..|names| - 1];
      assert names == prefix + [names[|names| - 1]];
      assert NoDuplicates(prefix) by {
        forall i, j | 0 <= i < j < |prefix| ensures prefix[i] != prefix[j] {
          assert prefix[i] == names[i] && prefix[j] == names[j];
        }
      }
      assert names[|names| - 1] !in prefix by {
        forall i | 0 <= i < |prefix| ensures prefix[i] != names[|names| - 1] {
          assert prefix[i] == names[i];
        }
      }
      AddRequestsAppends(legends, groups, prefix, layer, constants, name);
    }
  }

  /** One more scale name: the requests over a longer prefix of names take one more step. */
  lemma AddRequestsNext(legends: Requests, groups: AesGroups, names: seq<string>, layer: StitchedInfo, constants: map<Aes, AesValue>, k: nat)
    requires k < |names|
    ensures AddRequests(legends, groups, names[..k + 1], layer, constants) ==
      (var prev := AddRequests(legends, groups, names[..k], layer, constants);
       var existing := if names[k] in prev.entries then prev.entries[names[k]] else [];
       var bindings := if names[k] in groups.entries then groups.entries[names[k]] else [];
       prev.Put(names[k], existing + [RequestOf(layer, constants, bindings)]))
  {
    assert names[..k + 1][..k] == names[..k];
  }

  /** The last inner loop of the private `createLegends`: each request carries the
      layer's constants and defaults. */
  method PAddLegendLayers(legends0: Requests, groups: AesGroups, layer: StitchedInfo, layerConstantByAes: map<Aes, AesValue>)
    returns (legends: Requests)
    ensures legends == AddRequests(legends0, groups, groups.keys, layer, layerConstantByAes)
  {
    legends := legends0;
    var k := 0;
    while k < |groups.keys|
      invariant 0 <= k <= |groups.keys|
      invariant legends == AddRequests(legends0, groups, groups.keys[..k], layer, layerConstantByAes)
    {
      AddRequestsNext(legends0, groups, groups.keys, layer, layerConstantByAes, k);
      var scaleName := groups.keys[k];
      var existing := if scaleName in legends.entries then legends.entries[scaleName] else [];
      var varBindings := groups.entries[scaleName];
      var request := LegendLayerRequest(layer.keyFactory, varBindings, layerConstantByAes, layer.aestheticsDefaults);
      var next := legends.Put(scaleName, existing + [request]);
      legends := next;
      k := k + 1;
    }
    assert groups.keys[..k] == groups.keys;
  }

  datatype PortableState = PortableState(bars: ColorBars, legends: Requests)

  /** One stitched layer: its aesthetics, then one legend request per scale name. */
  function PLayerStep(st: PortableState, layer: StitchedInfo, guides: map<Aes, GuideOptions>,
                      ctx: GuideContext): Result<PortableState>
  {
    var grouped := FoldResult(PState(st.bars, LinkedMap([], map[])), layer.guideAes, PAesStepFn(guides, ctx));
    if grouped.Err? then Err(grouped.error)
    else Ok(PortableState(grouped.value.bars,
                          AddRequests(st.legends, grouped.value.groups, grouped.value.groups.keys, layer,
                                      LayerConstants(layer.renderedAes, layer.constantOf))))
  }

  function PLayerStepFn(guides: map<Aes, GuideOptions>, ctx: GuideContext): (PortableState, StitchedInfo) -> Result<PortableState> {
    (st: PortableState, layer: StitchedInfo) => PLayerStep(st, layer, guides, ctx)
  }

  datatype PGuideBox =
    | PColorBarBox(assembler: ColorBarAssembler, domain: Option<Span>)
    | PLegendBox(title: string, requests: seq<LegendLayerRequest>)

  /** Everything the portable `createLegends` needs besides the panels' layers. */
  datatype PSetup = PSetup(
    guides: map<Aes, GuideOptions>,
    ctx: GuideContext,
    infoOf: StitchedLayers -> StitchedInfo,
    layerDomains: StitchedLayers -> map<Aes, Span>,
    colorBarIsEmpty: (ColorBarAssembler, Option<Span>) -> bool,
    legendIsEmpty: (string, seq<LegendLayerRequest>) -> bool)

  function DomainOf(domains: map<Aes, Span>, aes: Aes): Option<Span> {
    if aes in domains then Some(domains[aes]) else None
  }

  function PColorBarBoxes(bars: ColorBars, titles: seq<string>, domains: map<Aes, Span>, setup: PSetup): (r: seq<PGuideBox>)
    ensures forall i :: 0 <= i < |r| ==> r[i].PColorBarBox? && !setup.colorBarIsEmpty(r[i].assembler, r[i].domain)
  {
    if |titles| == 0 then []
    else
      var prev := PColorBarBoxes(bars, titles[..|titles| - 1], domains, setup);
      var t := titles[|titles| - 1];
      if t in bars.entries && !setup.colorBarIsEmpty(bars.entries[t], DomainOf(domains, bars.entries[t].aes))
      then prev + [PColorBarBox(bars.entries[t], DomainOf(domains, bars.entries[t].aes))]
      else prev
  }

  function PLegendBoxes(legends: Requests, titles: seq<string>, setup: PSetup): (r: seq<PGuideBox>)
    ensures forall i :: 0 <= i < |r| ==> r[i].PLegendBox? && !setup.legendIsEmpty(r[i].title, r[i].requests)
  {
    if |titles| == 0 then []
    else
      var prev := PLegendBoxes(legends, titles[..|titles| - 1], setup);
      var t := titles[|titles| - 1];
      if t in legends.entries && !setup.legendIsEmpty(t, legends.entries[t])
      then prev + [PLegendBox(t, legends.entries[t])]
      else prev
  }

  function InfosOf(stitched: seq<StitchedLayers>, infoOf: StitchedLayers -> StitchedInfo): (r: seq<StitchedInfo>)
    ensures |r| == |stitched| && forall i :: 0 <= i < |r| ==> r[i] == infoOf(stitched[i])
  {
    seq(|stitched|, i requires 0 <= i < |stitched| => infoOf(stitched[i]))
  }

  const EmptyPortableState: PortableState := PortableState(LinkedMap([], map[]), LinkedMap([], map[]))

  /** The public `createLegends`. */
  function CreateLegendsSpec(layersByPanel: seq<seq<GeomLayer>>, setup: PSetup): Result<seq<PGuideBox>> {
    var stitched := Stitch(layersByPanel);
    if stitched.Err? then Err(stitched.error)
    else
      var domains := DomainsOf(stitched.value, setup.layerDomains);
      var st := FoldResult(EmptyPortableState, InfosOf(stitched.value, setup.infoOf), PLayerStepFn(setup.guides, setup.ctx));
      if st.Err? then Err(st.error)
      else Ok(PColorBarBoxes(st.value.bars, st.value.bars.keys, domains, setup) +
              PLegendBoxes(st.value.legends, st.value.legends.keys, setup))
  }

  /** Colour bars come first, then legends, and no box is empty. */
  lemma CreateLegendsOrder(layersByPanel: seq<seq<GeomLayer>>, setup: PSetup)
    requires CreateLegendsSpec(layersByPanel, setup).Ok?
    ensures var boxes := CreateLegendsSpec(layersByPanel, setup).value;
      (forall i, j :: 0 <= i < j < |boxes| && boxes[j].PColorBarBox? ==> boxes[i].PColorBarBox?) &&
      (forall i :: 0 <= i < |boxes| && boxes[i].PLegendBox? ==> !setup.legendIsEmpty(boxes[i].title, boxes[i].requests))
  {
  }

  /** The public `createLegends`: stitch, merge the domains, then assemble. */
  method CreateLegends(layersByPanel: seq<seq<GeomLayer>>, setup: PSetup) returns (r: Result<seq<PGuideBox>>)
    ensures r == CreateLegendsSpec(layersByPanel, setup)
  {
    var stitched := StitchLayers(layersByPanel);
    if stitched.Err? {
      return Err(stitched.error);
    }
    var stitchedLayersList := stitched.value;
    var transformedDomainByAes := TransformedDomainByAes(stitchedLayersList, setup.layerDomains);
    var infos := InfosOf(stitchedLayersList, setup.infoOf);
    ghost var step := PLayerStepFn(setup.guides, setup.ctx);
    var st := EmptyPortableState;
    var i := 0;
    while i < |infos|
      invariant 0 <= i <= |infos|
      invariant FoldResult(EmptyPortableState, infos[..i], step) == Ok(st)
    {
      FoldResultNext(EmptyPortableState, infos, step, i);
      var next := PAddLayer(st, infos[i], setup.guides, setup.ctx);
      if next.Err? {
        FoldResultErr(EmptyPortableState, infos, step, i + 1);
        return Err(next.error);
      }
      st := next.value;
      i := i + 1;
    }
    assert infos[..i] == infos;
    var barBoxes := PCollectColorBars(st.bars, transformedDomainByAes, setup);
    var legendBoxes := PCollectLegends(st.legends, setup);
    r := Ok(barBoxes + legendBoxes);
  }

  /** The body of the layer loop of `createLegends`: one stitched layer's
      aesthetics, then its legend requests. */
  method PAddLayer(st: PortableState, stitchedLayers: StitchedInfo, guides: map<Aes, GuideOptions>, ctx: GuideContext)
    returns (r: Result<PortableState>)
    ensures r == PLayerStep(st, stitchedLayers, guides, ctx)
  {
    var layerConstantByAes := CollectLayerConstants(stitchedLayers.renderedAes, stitchedLayers.constantOf);
    var grouped := PGroupLayerAes(stitchedLayers.guideAes, st.bars, guides, ctx);
    if grouped.Err? {
      return Err(grouped.error);
    }
    var legendAssemblerByTitle := PAddLegendLayers(st.legends, grouped.value.groups, stitchedLayers, layerConstantByAes);
    r := Ok(PortableState(grouped.value.bars, legendAssemblerByTitle));
  }

  method PCollectColorBars(colorBarAssemblerByTitle: ColorBars, domains: map<Aes, Span>, setup: PSetup)
    returns (legendBoxInfos: seq<PGuideBox>)
    ensures legendBoxInfos == PColorBarBoxes(colorBarAssemblerByTitle, colorBarAssemblerByTitle.keys, domains, setup)
  {
    legendBoxInfos := [];
    var k := 0;
    while k < |colorBarAssemblerByTitle.keys|
      invariant 0 <= k <= |colorBarAssemblerByTitle.keys|
      invariant legendBoxInfos == PColorBarBoxes(colorBarAssemblerByTitle, colorBarAssemblerByTitle.keys[..k], domains, setup)
    {
      assert colorBarAssemblerByTitle.keys[..k + 1][..k] == colorBarAssemblerByTitle.keys[..k];
      var bar := colorBarAssemblerByTitle.entries[colorBarAssemblerByTitle.keys[k]];
      var domain := DomainOf(domains, bar.aes);
      if !setup.colorBarIsEmpty(bar, domain) {
        legendBoxInfos := legendBoxInfos + [PColorBarBox(bar, domain)];
      }
      k := k + 1;
    }
    assert colorBarAssemblerByTitle.keys[..k] == colorBarAssemblerByTitle.keys;
  }

  method PCollectLegends(legendAssemblerByTitle: Requests, setup: PSetup) returns (legendBoxInfos: seq<PGuideBox>)
    ensures legendBoxInfos == PLegendBoxes(legendAssemblerByTitle, legendAssemblerByTitle.keys, setup)
  {
    legendBoxInfos := [];
    var k := 0;
    while k < |legendAssemblerByTitle.keys|
      invariant 0 <= k <= |legendAssemblerByTitle.keys|
      invariant legendBoxInfos == PLegendBoxes(legendAssemblerByTitle, legendAssemblerByTitle.keys[..k], setup)
    {
      assert legendAssemblerByTitle.keys[..k + 1][..k] == legendAssemblerByTitle.keys[..k];
      var legendTitle := legendAssemblerByTitle.keys[k];
      var requests := legendAssemblerByTitle.entries[legendTitle];
      if !setup.legendIsEmpty(legendTitle, requests) {
        legendBoxInfos := legendBoxInfos + [PLegendBox(legendTitle, requests)];
      }
      k := k + 1;
    }
    assert legendAssemblerByTitle.keys[..k] == legendAssemblerByTitle.keys;
  }

  // ---------------------------------------------------------------------------
  // Plot layout.

  datatype PPlotLayout = SingleTile(tileLayout: TileLayoutProvider) | FacetGrid(tileLayout: TileLayoutProvider, showStrip: bool)

  /** `createPlotLayout`: one tile without facets, else a facet grid of that tile layout. */
  function CreatePortablePlotLayout(tileLayout: TileLayoutProvider, facetsDefined: bool, showStrip: bool): (r: PPlotLayout)
    ensures r.tileLayout == tileLayout
    ensures r.FacetGrid? <==> facetsDefined
    ensures r.FacetGrid? ==> r.showStrip == showStrip
  {
    if !facetsDefined then SingleTile(tileLayout) else FacetGrid(tileLayout, showStrip)
  }
}
