/** The legend assembler of a plot: it collects, layer by layer, the legend keys
    of the aesthetics that share one scale name, merges keys with equal labels
    into one legend break and lays the breaks out in rows and columns. */
module LegendAssembler {
  import opened Common

  /** An aesthetic (Aes<*>), identified by its name. */
  datatype Aes = Aes(name: string)

  /** A value an aesthetic can take in a legend key. */
  datatype AesValue = NumVal(r: real) | ColorVal(argb: int) | TextVal(s: string)

  /** A scale mapper: from a transformed break value to the aesthetic's value. */
  type ScaleMapper = real -> AesValue

  /** The breaks of a scale: labels and transformed values, paired by position. */
  datatype ScaleBreaks = ScaleBreaks(labels: seq<string>, transformedValues: seq<real>)

  /** What the assembler asks of the plot context: the breaks a scale already has
      (None when it has none) and the breaks generated for the aesthetic's overall
      domain when asked for a given count. */
  datatype PlotContext = PlotContext(
    scaleBreaks: Aes -> Option<ScaleBreaks>,
    generatedBreaks: (Aes, nat) -> Option<ScaleBreaks>)

  /** An override of a legend key's aesthetic value: one value for every break, or
      a list applied by break index whose elements may be null. */
  datatype Override = Scalar(v: AesValue) | ListOf(items: seq<Option<AesValue>>)

  datatype Direction = Horizontal | Vertical

  datatype LegendTheme = LegendTheme(keySize: real, direction: Direction)

  datatype LegendOptions = LegendOptions(
    colCount: Option<int>,
    rowCount: Option<int>,
    byRow: bool,
    overrideAesValues: map<Aes, Override>,
    title: Option<string>)

  datatype ColorBarOptions = ColorBarOptions(title: Option<string>, binCount: Option<int>)

  datatype GuideOptions =
    | LegendGuide(legend: LegendOptions)
    | ColorBarGuide(colorBar: ColorBarOptions)
  {
    function Title(): Option<string> {
      match this
      case LegendGuide(o) => o.title
      case ColorBarGuide(o) => o.title
    }
  }

  /** The factory drawing the key glyph of one layer, identified by a number. */
  type KeyFactory = int

  /** A layer's legend default for each aesthetic (its `AestheticsDefaults`). */
  type AesDefaults = Aes -> AesValue

  /** What a layer's keys fall back on beyond their labels' own values: the
      layer's constant aesthetic values, its defaults, and the aesthetics its
      keys take their colour and fill from. */
  datatype KeyStyle = KeyStyle(
    constants: map<Aes, AesValue>,
    defaults: AesDefaults,
    colorByAes: Aes,
    fillByAes: Aes)

  /** The aesthetics of one legend key: the values recorded for its label,
      over the layer's key style. */
  datatype KeyPoint = KeyPoint(values: map<Aes, AesValue>, style: KeyStyle) {
    /** The key's value of an aesthetic: the label's own value, else the
        layer's constant, else the default. */
    function Get(aes: Aes): AesValue {
      if aes in values then values[aes]
      else if aes in style.constants then style.constants[aes]
      else style.defaults(aes)
    }

    /** The key's colour and fill come from the aesthetics the layer names for them. */
    function Color(): AesValue { Get(style.colorByAes) }

    function Fill(): AesValue { Get(style.fillByAes) }
  }

  /** One row of a layer's key aesthetics: a label and the data point of its key. */
  datatype KeyEntry = KeyEntry(labelText: string, dataPoint: KeyPoint)

  datatype LegendLayer = LegendLayer(
    keyFactory: KeyFactory,
    aesList: seq<Aes>,
    isMarginal: bool,
    entries: seq<KeyEntry>)
  {
    function KeyLabels(): seq<string> {
      seq(|entries|, i requires 0 <= i < |entries| => entries[i].labelText)
    }
  }

  /** One glyph of a legend break, drawn by one layer. */
  datatype LegendKey = LegendKey(dataPoint: KeyPoint, keyFactory: KeyFactory)

  /** A row of the legend: a label and the keys every layer contributed to it. */
  datatype LegendBreak = LegendBreak(labelText: string, keys: seq<LegendKey>) {
    predicate IsEmpty() { |keys| == 0 }
  }

  datatype LayoutKind = HorizontalLayout | HorizontalMultiRowLayout | VerticalLayout

  datatype LegendSpec = LegendSpec(
    title: string,
    breaks: seq<LegendBreak>,
    keySizes: seq<Vec>,
    layout: LayoutKind,
    colCount: int,
    rowCount: int,
    isFillByRow: bool,
    reverse: bool)

  datatype LegendBoxInfo = EmptyLegend | Legend(spec: LegendSpec)

  /** Number of breaks asked for when a scale has none of its own. */
  const DEFAULT_BREAK_COUNT: nat := 5

  /** Kotlin's Int.MAX_VALUE: what `Double.POSITIVE_INFINITY.toInt()` gives. */
  const INT_MAX: int := 0x7fff_ffff

  // ---------------------------------------------------------------------------
  // Legend layer: key values per label.

  /** The value an override gives the break with the given index, if any. */
  function OverrideAt(o: Override, index: nat): (r: Option<AesValue>)
    ensures o.Scalar? ==> r == Some(o.v)
    ensures o.ListOf? && index < |o.items| ==> r == o.items[index]
    ensures o.ListOf? && |o.items| <= index ==>
      r == if |o.items| == 0 then None else o.items[|o.items| - 1]
  {
    match o
    case Scalar(v) => Some(v)
    case ListOf(items) =>
      if index < |items| then items[index]
      else if |items| == 0 then None
      else items[|items| - 1]
  }

  /** The non-null override values for the break with the given index. */
  function OverridesAt(overrides: map<Aes, Override>, index: nat): (r: map<Aes, AesValue>)
    ensures forall k :: k in r <==> k in overrides && OverrideAt(overrides[k], index).Some?
    ensures forall k :: k in r ==> r[k] == OverrideAt(overrides[k], index).value
  {
    map k | k in overrides && OverrideAt(overrides[k], index).Some? :: OverrideAt(overrides[k], index).value
  }

  /** The key values of one label after the break with the given index of `aes`
      set its own value and the overrides were applied on top. */
  function WithBreakValue(prev: map<Aes, AesValue>, aes: Aes, value: AesValue,
                          overrides: map<Aes, Override>, index: nat): map<Aes, AesValue>
  {
    prev[aes := value] + OverridesAt(overrides, index)
  }

  type LabelValues = LinkedMap<string, map<Aes, AesValue>>

  function ValuesOf(m: LabelValues, labelText: string): map<Aes, AesValue> {
    if labelText in m.entries then m.entries[labelText] else map[]
  }

  /** The label map after the first `n` (label, value) pairs of one aesthetic. */
  function AddBreakValues(acc: LabelValues, aes: Aes, labels: seq<string>, values: seq<AesValue>,
                          overrides: map<Aes, Override>, n: nat): (r: LabelValues)
    requires acc.Valid()
    requires n <= |labels| && n <= |values|
    ensures r.Valid()
  {
    if n == 0 then acc
    else
      var prev := AddBreakValues(acc, aes, labels, values, overrides, n - 1);
      var labelText := labels[n - 1];
      prev.Put(labelText, WithBreakValue(ValuesOf(prev, labelText), aes, values[n - 1], overrides, n - 1))
  }

  /** The breaks of the scale of `aes`: its own, else ones generated for its domain. */
  function BreaksFor(ctx: PlotContext, aes: Aes): Option<ScaleBreaks> {
    if ctx.scaleBreaks(aes).Some? then ctx.scaleBreaks(aes)
    else ctx.generatedBreaks(aes, DEFAULT_BREAK_COUNT)
  }

  function MapValues(f: ScaleMapper, xs: seq<real>): (r: seq<AesValue>)
    ensures |r| == |xs| && forall i :: 0 <= i < |xs| ==> r[i] == f(xs[i])
  {
    seq(|xs|, i requires 0 <= i < |xs| => f(xs[i]))
  }

  /** The label map after one more aesthetic of the layer, or the error it raises. */
  function AddAesValues(acc: LabelValues, aes: Aes, overrides: map<Aes, Override>,
                        mappers: map<Aes, ScaleMapper>, ctx: PlotContext): (r: Result<LabelValues>)
    requires acc.Valid()
    ensures r.Ok? ==> r.value.Valid()
  {
    var breaks := BreaksFor(ctx, aes);
    if breaks.None? then Err(IllegalState("No breaks were defined for scale " + aes.name))
    else if |breaks.value.transformedValues| > 0 && aes !in mappers then
      Err(NoSuchElement("Key " + aes.name + " is missing in the map."))
    else
      var values := if aes in mappers then MapValues(mappers[aes], breaks.value.transformedValues) else [];
      var labels := breaks.value.labels;
      var n := if |labels| <= |values| then |labels| else |values|;
      Ok(AddBreakValues(acc, aes, labels, values, overrides, n))
  }

  /** The label map of a layer over its aesthetics, in order (the `init` block). */
  function LayerValues(aesList: seq<Aes>, overrides: map<Aes, Override>,
                       mappers: map<Aes, ScaleMapper>, ctx: PlotContext): (r: Result<LabelValues>)
    ensures r.Ok? ==> r.value.Valid()
  {
    if |aesList| == 0 then Ok(EmptyLinkedMap())
    else
      var prev := LayerValues(aesList[..|aesList| - 1], overrides, mappers, ctx);
      if prev.Err? then prev
      else AddAesValues(prev.value, aesList[|aesList| - 1], overrides, mappers, ctx)
  }

  /** The key aesthetics of a layer: one entry per label, in first-seen order,
      whose data point holds the label's values over the layer's key style. */
  function EntriesOf(m: LabelValues, style: KeyStyle): (r: seq<KeyEntry>)
    requires m.Valid()
    ensures |r| == |m.keys|
    ensures forall i :: 0 <= i < |r| ==> r[i].labelText == m.keys[i] && r[i].labelText in m.entries
    ensures forall i, aes :: 0 <= i < |r| ==>
      (r[i].dataPoint.Get(aes) ==
         if aes in m.entries[m.keys[i]] then m.entries[m.keys[i]][aes]
         else if aes in style.constants then style.constants[aes]
         else style.defaults(aes))
    ensures forall i :: 0 <= i < |r| ==>
      r[i].dataPoint.Color() == r[i].dataPoint.Get(style.colorByAes) &&
      r[i].dataPoint.Fill() == r[i].dataPoint.Get(style.fillByAes)
  {
    seq(|m.keys|, i requires 0 <= i < |m.keys| => KeyEntry(m.keys[i], KeyPoint(m.entries[m.keys[i]], style)))
  }

  /** The legend layer built for a plot layer, or the error its construction raises. */
  function LegendLayerOf(keyFactory: KeyFactory, aesList: seq<Aes>, overrides: map<Aes, Override>,
                         mappers: map<Aes, ScaleMapper>, style: KeyStyle, isMarginal: bool,
                         ctx: PlotContext): Result<LegendLayer>
  {
    var values := LayerValues(aesList, overrides, mappers, ctx);
    if values.Err? then Err(values.error)
    else Ok(LegendLayer(keyFactory, aesList, isMarginal, EntriesOf(values.value, style)))
  }

  /** Once an aesthetic of the layer fails, the layer fails with that error. */
  lemma {:induction false} LayerValuesErrSticks(aesList: seq<Aes>, overrides: map<Aes, Override>,
                                                mappers: map<Aes, ScaleMapper>, ctx: PlotContext, k: nat)
    requires k <= |aesList|
    requires LayerValues(aesList[..k], overrides, mappers, ctx).Err?
    ensures LayerValues(aesList, overrides, mappers, ctx) == LayerValues(aesList[..k], overrides, mappers, ctx)
    decreases |aesList| - k
  {
    if k < |aesList| {
      assert aesList[..k + 1][..k] == aesList[..k];
      LayerValuesErrSticks(aesList, overrides, mappers, ctx, k + 1);
    } else {
      assert aesList[..k] == aesList;
    }
  }

  /** Records the first `n` breaks of one aesthetic under their labels, applying the overrides. */
  method AddAesBreaks(start: LabelValues, aes: Aes, labels: seq<string>, values: seq<AesValue>,
                      overrides: map<Aes, Override>, n: nat) returns (acc: LabelValues)
    requires start.Valid()
    requires n <= |labels| && n <= |values|
    ensures acc == AddBreakValues(start, aes, labels, values, overrides, n)
  {
    acc := start;
    var index := 0;
    while index < n
      invariant 0 <= index <= n
      invariant acc == AddBreakValues(start, aes, labels, values, overrides, index)
    {
      var labelText := labels[index];
      acc := acc.Put(labelText, WithBreakValue(ValuesOf(acc, labelText), aes, values[index], overrides, index));
      index := index + 1;
    }
  }

  /** Adds the breaks of one more aesthetic of the layer, failing as the initializer does. */
  method AddAes(acc: LabelValues, aes: Aes, overrides: map<Aes, Override>,
                mappers: map<Aes, ScaleMapper>, ctx: PlotContext) returns (r: Result<LabelValues>)
    requires acc.Valid()
    ensures r == AddAesValues(acc, aes, overrides, mappers, ctx)
  {
    var breaks := BreaksFor(ctx, aes);
    if breaks.None? {
      return Err(IllegalState("No breaks were defined for scale " + aes.name));
    }
    if |breaks.value.transformedValues| > 0 && aes !in mappers {
      return Err(NoSuchElement("Key " + aes.name + " is missing in the map."));
    }
    var values := if aes in mappers then MapValues(mappers[aes], breaks.value.transformedValues) else [];
    var labels := breaks.value.labels;
    var n := if |labels| <= |values| then |labels| else |values|;
    var added := AddAesBreaks(acc, aes, labels, values, overrides, n);
    r := Ok(added);
  }

  /** Builds a legend layer the way the layer's initializer does, with loops. */
  method NewLegendLayer(keyFactory: KeyFactory, aesList: seq<Aes>, overrides: map<Aes, Override>,
                        mappers: map<Aes, ScaleMapper>, style: KeyStyle, isMarginal: bool, ctx: PlotContext)
    returns (r: Result<LegendLayer>)
    ensures r == LegendLayerOf(keyFactory, aesList, overrides, mappers, style, isMarginal, ctx)
  {
    var acc: LabelValues := EmptyLinkedMap();
    var j := 0;
    while j < |aesList|
      invariant 0 <= j <= |aesList|
      invariant LayerValues(aesList[..j], overrides, mappers, ctx) == Ok(acc)
    {
      assert aesList[..j + 1][..j] == aesList[..j];
      var step := AddAes(acc, aesList[j], overrides, mappers, ctx);
      assert LayerValues(aesList[..j + 1], overrides, mappers, ctx) == step;
      if step.Err? {
        LayerValuesErrSticks(aesList, overrides, mappers, ctx, j + 1);
        return Err(step.error);
      }
      acc := step.value;
      j := j + 1;
    }
    assert aesList[..j] == aesList;
    r := Ok(LegendLayer(keyFactory, aesList, isMarginal, EntriesOf(acc, style)));
  }

  /** Every label of a layer is there once, and a label is there exactly when one
      of the aesthetics' break labels (within the paired values) is it. */
  lemma {:induction false} AddBreakValuesLabels(acc: LabelValues, aes: Aes, labels: seq<string>,
                                                values: seq<AesValue>, overrides: map<Aes, Override>, n: nat)
    requires acc.Valid()
    requires n <= |labels| && n <= |values|
    ensures forall l :: l in AddBreakValues(acc, aes, labels, values, overrides, n).entries
                        <==> l in acc.entries || l in labels[..n]
    ensures acc.keys <= AddBreakValues(acc, aes, labels, values, overrides, n).keys
  {
    if n > 0 {
      AddBreakValuesLabels(acc, aes, labels, values, overrides, n - 1);
      assert labels[..n] == labels[..n - 1] + [labels[n - 1]];
    }
  }

  /** The overrides win: a label that no later break of the aesthetic repeats keeps,
      for every overridden aesthetic, the override's value for its own break index,
      and the aesthetic's own mapped value otherwise. */
  lemma {:induction false} OverridesWin(acc: LabelValues, aes: Aes, labels: seq<string>,
                                        values: seq<AesValue>, overrides: map<Aes, Override>, n: nat, i: nat)
    requires acc.Valid()
    requires n <= |labels| && n <= |values|
    requires i < n && labels[i] !in labels[i + 1..n]
    ensures labels[i] in AddBreakValues(acc, aes, labels, values, overrides, n).entries
    ensures var m := AddBreakValues(acc, aes, labels, values, overrides, n).entries[labels[i]];
      (forall k :: k in overrides && OverrideAt(overrides[k], i).Some? ==>
         k in m && m[k] == OverrideAt(overrides[k], i).value) &&
      (aes !in OverridesAt(overrides, i) ==> aes in m && m[aes] == values[i])
  {
    if n == i + 1 {
    } else {
      assert labels[i + 1..n] == labels[i + 1..n - 1] + [labels[n - 1]];
      OverridesWin(acc, aes, labels, values, overrides, n - 1, i);
    }
  }

  /** Every aesthetic a label records is one of the layer's aesthetics or an overridden one. */
  ghost predicate ValuesWithin(m: LabelValues, aesList: seq<Aes>, overrides: map<Aes, Override>) {
    forall l, a :: l in m.entries && a in m.entries[l] ==> a in aesList || a in overrides
  }

  /** Recording a label whose aesthetics are all allowed keeps every label's aesthetics allowed. */
  lemma PutValuesWithin(prev: LabelValues, labelText: string, v: map<Aes, AesValue>,
                        aesList: seq<Aes>, overrides: map<Aes, Override>)
    requires prev.Valid() && ValuesWithin(prev, aesList, overrides)
    requires forall a :: a in v ==> a in aesList || a in overrides
    ensures ValuesWithin(prev.Put(labelText, v), aesList, overrides)
  {
    var r := prev.Put(labelText, v);
    forall l, a | l in r.entries && a in r.entries[l]
      ensures a in aesList || a in overrides
    {
      if l != labelText {
        assert r.entries[l] == prev.entries[l];
      }
    }
  }

  lemma {:induction false} AddBreakValuesWithin(acc: LabelValues, aes: Aes, labels: seq<string>,
                                                values: seq<AesValue>, overrides: map<Aes, Override>, n: nat,
                                                aesList: seq<Aes>)
    requires acc.Valid()
    requires n <= |labels| && n <= |values|
    requires aes in aesList && ValuesWithin(acc, aesList, overrides)
    ensures ValuesWithin(AddBreakValues(acc, aes, labels, values, overrides, n), aesList, overrides)
  {
    if n > 0 {
      AddBreakValuesWithin(acc, aes, labels, values, overrides, n - 1, aesList);
      var prev := AddBreakValues(acc, aes, labels, values, overrides, n - 1);
      var labelText := labels[n - 1];
      var own := ValuesOf(prev, labelText);
      assert forall a :: a in own ==> a in aesList || a in overrides;
      var v := WithBreakValue(own, aes, values[n - 1], overrides, n - 1);
      assert forall a :: a in v ==> a in aesList || a in overrides;
      PutValuesWithin(prev, labelText, v, aesList, overrides);
    }
  }

  lemma {:induction false} LayerValuesWithin(aesList: seq<Aes>, overrides: map<Aes, Override>,
                                             mappers: map<Aes, ScaleMapper>, ctx: PlotContext, k: nat)
    requires k <= |aesList|
    ensures LayerValues(aesList[..k], overrides, mappers, ctx).Ok? ==>
      ValuesWithin(LayerValues(aesList[..k], overrides, mappers, ctx).value, aesList, overrides)
  {
    if k > 0 {
      LayerValuesWithin(aesList, overrides, mappers, ctx, k - 1);
      assert aesList[..k][..k - 1] == aesList[..k - 1];
      var prev := LayerValues(aesList[..k - 1], overrides, mappers, ctx);
      var aes := aesList[k - 1];
      var breaks := BreaksFor(ctx, aes);
      if prev.Ok? && breaks.Some? && !(|breaks.value.transformedValues| > 0 && aes !in mappers) {
        var values := if aes in mappers then MapValues(mappers[aes], breaks.value.transformedValues) else [];
        var labels := breaks.value.labels;
        var n := if |labels| <= |values| then |labels| else |values|;
        AddBreakValuesWithin(prev.value, aes, labels, values, overrides, n, aesList);
      }
    }
  }

  /** Each key of a layer shows its label's recorded value of an aesthetic, else
      the layer's constant, else the default; so an aesthetic the layer neither
      maps nor overrides always shows the layer's constant or the default. */
  lemma LayerKeyValues(keyFactory: KeyFactory, aesList: seq<Aes>, overrides: map<Aes, Override>,
                       mappers: map<Aes, ScaleMapper>, style: KeyStyle, isMarginal: bool, ctx: PlotContext,
                       i: nat, aes: Aes)
    requires LegendLayerOf(keyFactory, aesList, overrides, mappers, style, isMarginal, ctx).Ok?
    requires i < |LegendLayerOf(keyFactory, aesList, overrides, mappers, style, isMarginal, ctx).value.entries|
    ensures var m := LayerValues(aesList, overrides, mappers, ctx).value;
      var e := LegendLayerOf(keyFactory, aesList, overrides, mappers, style, isMarginal, ctx).value.entries[i];
      e.labelText == m.keys[i] && e.labelText in m.entries &&
      (aes in m.entries[e.labelText] ==> e.dataPoint.Get(aes) == m.entries[e.labelText][aes]) &&
      (aes !in aesList && aes !in overrides ==>
         e.dataPoint.Get(aes) == if aes in style.constants then style.constants[aes] else style.defaults(aes))
  {
    LayerValuesWithin(aesList, overrides, mappers, ctx, |aesList|);
    assert aesList[..|aesList|] == aesList;
  }

  // ---------------------------------------------------------------------------
  // Merging the layers into legend breaks.

  datatype Contribution = Contribution(labelText: string, key: LegendKey)

  function LayerContributions(layer: LegendLayer): (r: seq<Contribution>)
    ensures |r| == |layer.entries|
  {
    seq(|layer.entries|, i requires 0 <= i < |layer.entries| =>
      Contribution(layer.entries[i].labelText, LegendKey(layer.entries[i].dataPoint, layer.keyFactory)))
  }

  /** All (label, key) pairs of the layers, layer after layer. */
  function Contributions(layers: seq<LegendLayer>): seq<Contribution> {
    if |layers| == 0 then []
    else Contributions(layers[..|layers| - 1]) + LayerContributions(layers[|layers| - 1])
  }

  function LabelsOf(cs: seq<Contribution>): (r: seq<string>)
    ensures |r| == |cs| && forall i :: 0 <= i < |cs| ==> r[i] == cs[i].labelText
  {
    seq(|cs|, i requires 0 <= i < |cs| => cs[i].labelText)
  }

  /** The keys contributed to one label, in contribution order. */
  function KeysFor(cs: seq<Contribution>, labelText: string): seq<LegendKey> {
    if |cs| == 0 then []
    else KeysFor(cs[..|cs| - 1], labelText) + (if cs[|cs| - 1].labelText == labelText then [cs[|cs| - 1].key] else [])
  }

  lemma {:induction false} KeysForAbsent(cs: seq<Contribution>, labelText: string)
    requires labelText !in LabelsOf(cs)
    ensures KeysFor(cs, labelText) == []
  {
    if |cs| > 0 {
      assert LabelsOf(cs)[..|cs| - 1] == LabelsOf(cs[..|cs| - 1]);
      assert LabelsOf(cs)[|cs| - 1] == cs[|cs| - 1].labelText;
      KeysForAbsent(cs[..|cs| - 1], labelText);
    }
  }

  type BreakMap = LinkedMap<string, seq<LegendKey>>

  /** `getOrPut(label) { LegendBreak(label) }.addLayer(...)` over a stream of contributions. */
  function MergeBreaks(cs: seq<Contribution>): (r: BreakMap)
    ensures r.Valid()
  {
    if |cs| == 0 then EmptyLinkedMap()
    else
      var prev := MergeBreaks(cs[..|cs| - 1]);
      var c := cs[|cs| - 1];
      prev.Put(c.labelText, BreakKeys(prev, c.labelText) + [c.key])
  }

  /** The keys already gathered for a label (none for a new label). */
  function BreakKeys(m: BreakMap, labelText: string): seq<LegendKey> {
    if labelText in m.entries then m.entries[labelText] else []
  }

  lemma MergeBreaksStep(cs: seq<Contribution>, c: Contribution)
    ensures MergeBreaks(cs + [c]) ==
      MergeBreaks(cs).Put(c.labelText, BreakKeys(MergeBreaks(cs), c.labelText) + [c.key])
  {
    assert (cs + [c])[..|cs|] == cs;
  }

  /** Merging gives one break per distinct label, in first-seen order, holding all
      the keys with that label in contribution order, and never an empty break. */
  lemma {:induction false} MergeBreaksSpec(cs: seq<Contribution>)
    ensures MergeBreaks(cs).keys == DistinctOf(LabelsOf(cs))
    ensures forall l :: l in MergeBreaks(cs).entries ==>
      MergeBreaks(cs).entries[l] == KeysFor(cs, l) && |MergeBreaks(cs).entries[l]| > 0
  {
    if |cs| > 0 {
      var cs' := cs[..|cs| - 1];
      MergeBreaksSpec(cs');
      assert LabelsOf(cs)[..|cs| - 1] == LabelsOf(cs');
      var prev := MergeBreaks(cs');
      DistinctOfElements(LabelsOf(cs'));
      forall l | l in MergeBreaks(cs).entries
        ensures MergeBreaks(cs).entries[l] == KeysFor(cs, l) && |MergeBreaks(cs).entries[l]| > 0
      {
        if l != cs[|cs| - 1].labelText {
          assert l in prev.entries;
        } else if l !in prev.entries {
          assert l !in prev.keys;
          assert l !in LabelsOf(cs');
          KeysForAbsent(cs', l);
        }
      }
    }
  }

  /** The layers a legend shows: the core ones, or all of them when every one is marginal. */
  function SelectLayers(layers: seq<LegendLayer>): (r: seq<LegendLayer>)
    ensures (forall i :: 0 <= i < |layers| ==> layers[i].isMarginal) ==> r == layers
  {
    if forall i :: 0 <= i < |layers| ==> layers[i].isMarginal then layers
    else CoreLayers(layers)
  }

  function CoreLayers(layers: seq<LegendLayer>): (r: seq<LegendLayer>)
    ensures forall i :: 0 <= i < |r| ==> !r[i].isMarginal
    ensures forall l :: l in layers && !l.isMarginal ==> l in r
    ensures forall l :: l in r ==> l in layers
  {
    if |layers| == 0 then []
    else
      var prev := CoreLayers(layers[..|layers| - 1]);
      var last := layers[|layers| - 1];
      assert forall l :: l in layers ==> l in layers[..|layers| - 1] || l == last;
      if last.isMarginal then prev else prev + [last]
  }

  /** Filtering keeps the layers' order: the core layers of a concatenation are
      the core layers of each part, one after the other. */
  lemma {:induction false} CoreLayersAppend(a: seq<LegendLayer>, b: seq<LegendLayer>)
    ensures CoreLayers(a + b) == CoreLayers(a) + CoreLayers(b)
  {
    if |b| == 0 {
      assert a + b == a;
    } else {
      var init := b[..|b| - 1];
      CoreLayersAppend(a, init);
      assert (a + b)[..|a + b| - 1] == a + init;
      assert (a + b)[|a + b| - 1] == b[|b| - 1];
    }
  }

  /** A legend drops marginal layers exactly when a core layer is present. */
  lemma SelectLayersMarginal(layers: seq<LegendLayer>)
    ensures (exists i :: 0 <= i < |layers| && !layers[i].isMarginal) ==>
      forall l :: l in SelectLayers(layers) <==> l in layers && !l.isMarginal
  {
  }

  /** The breaks of the merged keys, in label order; a break shows its label wrapped. */
  function BreaksOf(m: BreakMap, wrap: string -> string): (r: seq<LegendBreak>)
    requires m.Valid()
    ensures |r| == |m.keys|
  {
    seq(|m.keys|, i requires 0 <= i < |m.keys| => LegendBreak(wrap(m.keys[i]), m.entries[m.keys[i]]))
  }

  function NonEmptyBreaks(bs: seq<LegendBreak>): (r: seq<LegendBreak>)
    ensures |r| <= |bs|
    ensures (forall i :: 0 <= i < |bs| ==> !bs[i].IsEmpty()) ==> r == bs
  {
    if |bs| == 0 then []
    else
      var prev := NonEmptyBreaks(bs[..|bs| - 1]);
      assert bs[..|bs| - 1] + [bs[|bs| - 1]] == bs;
      if bs[|bs| - 1].IsEmpty() then prev else prev + [bs[|bs| - 1]]
  }

  /** The legend options of the layers' aesthetics, in order; colour-bar options are skipped. */
  function LegendOptionsOf(layers: seq<LegendLayer>, guides: map<Aes, GuideOptions>): seq<LegendOptions> {
    if |layers| == 0 then []
    else LegendOptionsOf(layers[..|layers| - 1], guides) + AesLegendOptions(layers[|layers| - 1].aesList, guides)
  }

  function AesLegendOptions(aesList: seq<Aes>, guides: map<Aes, GuideOptions>): seq<LegendOptions> {
    if |aesList| == 0 then []
    else
      var a := aesList[|aesList| - 1];
      AesLegendOptions(aesList[..|aesList| - 1], guides) +
        (if a in guides && guides[a].LegendGuide? then [guides[a].legend] else [])
  }

  // ---------------------------------------------------------------------------
  // The legend specification: key sizes, rows and columns, layout.

  /** `pretty`: half the size rounded down, doubled, plus one, plus a margin of one. */
  function Pretty(v: Vec): Vec {
    Vec(PrettySide(v.x), PrettySide(v.y))
  }

  function PrettySide(r: real): real {
    ((r / 2.0).Floor as real) * 2.0 + 1.0 + 1.0
  }

  /** A pretty side leaves room for the minimum size, and at most two more. */
  lemma PrettySideBounds(r: real)
    ensures r < PrettySide(r) <= r + 2.0
  {
    var f := (r / 2.0).Floor as real;
    assert f <= r / 2.0 < f + 1.0;
  }

  lemma PrettyBounds(v: Vec)
    ensures v.x < Pretty(v).x <= v.x + 2.0 && v.y < Pretty(v).y <= v.y + 2.0
  {
    PrettySideBounds(v.x);
    PrettySideBounds(v.y);
  }

  function VecMax(a: Vec, b: Vec): Vec { Vec(Max(a.x, b.x), Max(a.y, b.y)) }

  function MaxX(vs: seq<Vec>): (r: real)
    requires |vs| > 0
    ensures forall i :: 0 <= i < |vs| ==> vs[i].x <= r
    ensures exists i :: 0 <= i < |vs| && vs[i].x == r
  {
    if |vs| == 1 then vs[0].x
    else
      var m := MaxX(vs[..|vs| - 1]);
      assert forall i :: 0 <= i < |vs| - 1 ==> vs[..|vs| - 1][i] == vs[i];
      Max(m, vs[|vs| - 1].x)
  }

  function MaxY(vs: seq<Vec>): (r: real)
    requires |vs| > 0
    ensures forall i :: 0 <= i < |vs| ==> vs[i].y <= r
    ensures exists i :: 0 <= i < |vs| && vs[i].y == r
  {
    if |vs| == 1 then vs[0].y
    else
      var m := MaxY(vs[..|vs| - 1]);
      assert forall i :: 0 <= i < |vs| - 1 ==> vs[..|vs| - 1][i] == vs[i];
      Max(m, vs[|vs| - 1].y)
  }

  /** Kotlin's `ceil(a / b.toDouble()).toInt()` for a count `a`: division by zero
      gives infinity (Int.MAX_VALUE) or NaN (zero), a negative divisor a value <= 0. */
  function CeilDiv(a: nat, b: int): int {
    if b > 0 then (a + b - 1) / b
    else if b == 0 then (if a > 0 then INT_MAX else 0)
    else -(a / -b)
  }

  lemma MulMonotone(x: int, y: int, b: int)
    requires x <= y && b > 0
    ensures x * b <= y * b
  {
  }

  lemma DivMod(x: int, b: int)
    requires b > 0
    ensures x == (x / b) * b + x % b && 0 <= x % b < b
  {
  }

  lemma MulPred(q: int, b: int)
    ensures (q - 1) * b == q * b - b
  {
  }

  lemma MulAtLeast(x: nat, b: int)
    requires b > 0
    ensures x * b >= x
  {
    if x > 0 {
      MulMonotone(1, b, x);
    }
  }

  lemma CeilDivBounds(a: nat, b: int)
    requires b > 0
    ensures CeilDiv(a, b) * b >= a
    ensures (CeilDiv(a, b) - 1) * b < a || a == 0
    ensures a > 0 ==> 1 <= CeilDiv(a, b) <= a
  {
    var q := (a + b - 1) / b;
    DivMod(a + b - 1, b);
    MulPred(q, b);
    if a > 0 {
      if q < 1 {
        MulMonotone(q, 0, b);
      }
      if q > a {
        MulMonotone(a, q - 1, b);
        MulAtLeast(a, b);
      }
    }
  }

  /** The key size of every break: at least the theme's key size and its own pretty
      minimum; a horizontal legend then gives every key the tallest height, a
      vertical one the widest width. */
  function KeySizes(breaks: seq<LegendBreak>, theme: LegendTheme, minimumKeySize: LegendBreak -> Vec): (r: seq<Vec>)
    requires |breaks| > 0
    ensures |r| == |breaks|
  {
    var sizes := OwnKeySizes(breaks, theme, minimumKeySize);
    if theme.direction == Horizontal then
      var h := MaxY(sizes);
      seq(|sizes|, i requires 0 <= i < |sizes| => Vec(sizes[i].x, h))
    else
      var w := MaxX(sizes);
      seq(|sizes|, i requires 0 <= i < |sizes| => Vec(w, sizes[i].y))
  }

  /** Each break's own key size: the larger of the theme's key size and its pretty minimum size. */
  function OwnKeySizes(breaks: seq<LegendBreak>, theme: LegendTheme, minimumKeySize: LegendBreak -> Vec): (r: seq<Vec>)
    ensures |r| == |breaks|
  {
    var themeKeySize := Vec(theme.keySize, theme.keySize);
    seq(|breaks|, i requires 0 <= i < |breaks| => VecMax(themeKeySize, Pretty(minimumKeySize(breaks[i]))))
  }

  /** Keys are never smaller than the theme's key size nor than their break's pretty
      minimum size; a horizontal legend keeps each key's own width and gives all keys
      the largest own height, a vertical one keeps each key's own height and gives
      all keys the largest own width. */
  lemma KeySizesShared(breaks: seq<LegendBreak>, theme: LegendTheme, minimumKeySize: LegendBreak -> Vec)
    requires |breaks| > 0
    ensures var ks := KeySizes(breaks, theme, minimumKeySize);
      var own := OwnKeySizes(breaks, theme, minimumKeySize);
      forall i :: 0 <= i < |ks| ==>
        own[i].x == Max(theme.keySize, Pretty(minimumKeySize(breaks[i])).x) &&
        own[i].y == Max(theme.keySize, Pretty(minimumKeySize(breaks[i])).y) &&
        (theme.direction == Horizontal ==> ks[i].x == own[i].x && ks[i].y == MaxY(own)) &&
        (theme.direction == Vertical ==> ks[i].y == own[i].y && ks[i].x == MaxX(own))
    ensures var ks := KeySizes(breaks, theme, minimumKeySize);
      forall i :: 0 <= i < |ks| ==>
        ks[i].x >= theme.keySize && ks[i].y >= theme.keySize &&
        ks[i].x >= Pretty(minimumKeySize(breaks[i])).x && ks[i].y >= Pretty(minimumKeySize(breaks[i])).y
    ensures var ks := KeySizes(breaks, theme, minimumKeySize);
      theme.direction == Horizontal ==> forall i, j :: 0 <= i < |ks| && 0 <= j < |ks| ==> ks[i].y == ks[j].y
    ensures var ks := KeySizes(breaks, theme, minimumKeySize);
      theme.direction == Vertical ==> forall i, j :: 0 <= i < |ks| && 0 <= j < |ks| ==> ks[i].x == ks[j].x
  {
  }

  /** (colCount, rowCount) of a legend with `n` breaks. */
  function Grid(n: nat, options: LegendOptions, direction: Direction): (int, int) {
    if options.byRow then
      var colCount :=
        if options.colCount.Some? then (if options.colCount.value <= n then options.colCount.value else n)
        else if options.rowCount.Some? then CeilDiv(n, options.rowCount.value)
        else if direction == Horizontal then n
        else 1;
      (colCount, CeilDiv(n, colCount))
    else
      var rowCount :=
        if options.rowCount.Some? then (if options.rowCount.value <= n then options.rowCount.value else n)
        else if options.colCount.Some? then CeilDiv(n, options.colCount.value)
        else if direction != Horizontal then n
        else 1;
      (CeilDiv(n, rowCount), rowCount)
  }

  predicate PositiveCounts(options: LegendOptions) {
    (options.colCount.Some? ==> options.colCount.value > 0) &&
    (options.rowCount.Some? ==> options.rowCount.value > 0)
  }

  /** With positive counts, the grid holds every break, and the direction that is
      filled first leaves no row (or column) empty. */
  lemma MulComm(x: int, y: int)
    ensures x * y == y * x
  {
  }

  /** Rounding a positive count up by itself gives one. */
  lemma CeilDivSelf(a: nat)
    requires a > 0
    ensures CeilDiv(a, a) == 1
  {
    var q := (a + a - 1) / a;
    DivMod(a + a - 1, a);
    if q >= 2 {
      MulMonotone(2, q, a);
    } else if q <= 0 {
      MulMonotone(q, 0, a);
    }
  }

  lemma CeilDivOne(a: nat)
    ensures CeilDiv(a, 1) == a
  {
  }

  lemma GridHoldsBreaks(n: nat, options: LegendOptions, direction: Direction)
    requires n > 0 && PositiveCounts(options)
    ensures 1 <= Grid(n, options, direction).0 <= n && 1 <= Grid(n, options, direction).1 <= n
    ensures Grid(n, options, direction).0 * Grid(n, options, direction).1 >= n
    ensures options.byRow ==> (Grid(n, options, direction).1 - 1) * Grid(n, options, direction).0 < n
    ensures !options.byRow ==> (Grid(n, options, direction).0 - 1) * Grid(n, options, direction).1 < n
  {
    var g := Grid(n, options, direction);
    if options.byRow {
      if options.colCount.None? && options.rowCount.Some? {
        CeilDivBounds(n, options.rowCount.value);
      }
      assert 1 <= g.0 <= n;
      CeilDivBounds(n, g.0);
      assert g.1 == CeilDiv(n, g.0);
      MulComm(g.1, g.0);
    } else {
      if options.rowCount.None? && options.colCount.Some? {
        CeilDivBounds(n, options.colCount.value);
      }
      assert 1 <= g.1 <= n;
      CeilDivBounds(n, g.1);
      assert g.0 == CeilDiv(n, g.1);
    }
  }

  /** Without counts, a horizontal legend is one row and a vertical one is one column. */
  lemma GridDefaults(n: nat, options: LegendOptions, direction: Direction)
    requires n > 0 && options.colCount.None? && options.rowCount.None?
    ensures direction == Horizontal ==> Grid(n, options, direction) == (n, 1)
    ensures direction == Vertical ==> Grid(n, options, direction) == (1, n)
  {
    CeilDivSelf(n);
    CeilDivOne(n);
  }

  function Layout(n: nat, options: LegendOptions, direction: Direction): LayoutKind {
    if direction == Horizontal then
      if options.rowCount.Some? || (options.colCount.Some? && options.colCount.value < n) then HorizontalMultiRowLayout
      else HorizontalLayout
    else VerticalLayout
  }

  /** `createLegendSpec`; an empty list of breaks has no largest key (NoSuchElement). */
  function CreateLegendSpec(title: string, breaks: seq<LegendBreak>, theme: LegendTheme,
                            options: LegendOptions, minimumKeySize: LegendBreak -> Vec): (r: Result<LegendSpec>)
    ensures r.Err? <==> |breaks| == 0
    ensures r.Ok? ==> (r.value.breaks == breaks && r.value.title == title && !r.value.reverse &&
      |r.value.keySizes| == |breaks| && r.value.isFillByRow == options.byRow)
    ensures r.Ok? ==> (r.value.colCount, r.value.rowCount) == Grid(|breaks|, options, theme.direction)
    ensures r.Ok? ==> r.value.layout == Layout(|breaks|, options, theme.direction)
  {
    if |breaks| == 0 then Err(NoSuchElement("Collection is empty."))
    else
      var (colCount, rowCount) := Grid(|breaks|, options, theme.direction);
      Ok(LegendSpec(title, breaks, KeySizes(breaks, theme, minimumKeySize),
        Layout(|breaks|, options, theme.direction), colCount, rowCount, options.byRow, false))
  }

  /** A horizontal legend takes several rows exactly when a row count is given or the
      column count is below the number of breaks; a vertical one never does. */
  lemma LayoutChoice(title: string, breaks: seq<LegendBreak>, theme: LegendTheme,
                     options: LegendOptions, minimumKeySize: LegendBreak -> Vec)
    requires |breaks| > 0
    ensures var s := CreateLegendSpec(title, breaks, theme, options, minimumKeySize).value;
      (s.layout == HorizontalMultiRowLayout <==>
         theme.direction == Horizontal &&
         (options.rowCount.Some? || (options.colCount.Some? && options.colCount.value < |breaks|))) &&
      (s.layout == VerticalLayout <==> theme.direction == Vertical)
  {
  }

  // ---------------------------------------------------------------------------
  // The assembler.

  /** The whole legend box of the given layers (createLegend). */
  function LegendBoxOf(layers: seq<LegendLayer>, title: string, guides: map<Aes, GuideOptions>,
                       theme: LegendTheme, wrap: string -> string, combine: seq<LegendOptions> -> LegendOptions,
                       minimumKeySize: LegendBreak -> Vec): (r: LegendBoxInfo)
    ensures r.Legend? ==> r.spec.title == title
  {
    var selected := SelectLayers(layers);
    var merged := MergeBreaks(Contributions(selected));
    var breaks := NonEmptyBreaks(BreaksOf(merged, wrap));
    if |breaks| == 0 then EmptyLegend
    else Legend(CreateLegendSpec(title, breaks, theme, combine(LegendOptionsOf(selected, guides)), minimumKeySize).value)
  }

  /** The legend has one break per distinct raw label of the shown layers, in
      first-seen order, showing that label wrapped and holding every key with
      that label (labels that wrap alike stay apart); it is empty exactly when
      the shown layers have no labels. */
  lemma LegendBreaksByLabel(layers: seq<LegendLayer>, title: string, guides: map<Aes, GuideOptions>,
                            theme: LegendTheme, wrap: string -> string,
                            combine: seq<LegendOptions> -> LegendOptions, minimumKeySize: LegendBreak -> Vec)
    ensures var cs := Contributions(SelectLayers(layers));
      var box := LegendBoxOf(layers, title, guides, theme, wrap, combine, minimumKeySize);
      (box.EmptyLegend? <==> |cs| == 0) &&
      (box.Legend? ==>
        |box.spec.breaks| == |DistinctOf(LabelsOf(cs))| &&
        forall i :: 0 <= i < |box.spec.breaks| ==>
          box.spec.breaks[i].labelText == wrap(DistinctOf(LabelsOf(cs))[i]) &&
          box.spec.breaks[i].keys == KeysFor(cs, DistinctOf(LabelsOf(cs))[i]))
  {
    MergedBreaks(Contributions(SelectLayers(layers)), wrap);
  }

  /** The breaks merged from a stream of contributions, none of them empty. */
  lemma MergedBreaks(cs: seq<Contribution>, wrap: string -> string)
    ensures var all := BreaksOf(MergeBreaks(cs), wrap);
      NonEmptyBreaks(all) == all &&
      (|all| == 0 <==> |cs| == 0) &&
      |all| == |DistinctOf(LabelsOf(cs))| &&
      forall i :: 0 <= i < |all| ==>
        all[i].labelText == wrap(DistinctOf(LabelsOf(cs))[i]) && all[i].keys == KeysFor(cs, DistinctOf(LabelsOf(cs))[i])
  {
    MergeBreaksSpec(cs);
    var merged := MergeBreaks(cs);
    var all := BreaksOf(merged, wrap);
    forall i | 0 <= i < |all|
      ensures !all[i].IsEmpty()
      ensures all[i].labelText == wrap(DistinctOf(LabelsOf(cs))[i]) && all[i].keys == KeysFor(cs, DistinctOf(LabelsOf(cs))[i])
    {
      assert merged.keys[i] in merged.entries;
    }
    MergedBreaksCount(cs);
  }

  lemma MergedBreaksCount(cs: seq<Contribution>)
    ensures |DistinctOf(LabelsOf(cs))| == 0 <==> |cs| == 0
  {
    var ls := LabelsOf(cs);
    DistinctOfElements(ls);
    if |cs| > 0 {
      assert ls[0] in ls;
    } else {
      assert ls == [];
    }
  }

  class LegendAssembler {
    const legendTitle: string
    const guideOptionsMap: map<Aes, GuideOptions>
    const scaleMappers: map<Aes, ScaleMapper>
    const theme: LegendTheme
    var legendLayers: seq<LegendLayer>

    constructor(legendTitle: string, guideOptionsMap: map<Aes, GuideOptions>,
                scaleMappers: map<Aes, ScaleMapper>, theme: LegendTheme)
      ensures this.legendTitle == legendTitle && this.guideOptionsMap == guideOptionsMap
      ensures this.scaleMappers == scaleMappers && this.theme == theme
      ensures legendLayers == []
    {
      this.legendTitle := legendTitle;
      this.guideOptionsMap := guideOptionsMap;
      this.scaleMappers := scaleMappers;
      this.theme := theme;
      legendLayers := [];
    }

    /** Adds the legend layer of one plot layer, whose keys fall back on the
        layer's constants and defaults; a failure leaves the assembler as it was. */
    method AddLayer(keyFactory: KeyFactory, aesList: seq<Aes>, overrides: map<Aes, Override>,
                    constantByAes: map<Aes, AesValue>, aestheticsDefaults: AesDefaults,
                    colorByAes: Aes, fillByAes: Aes, isMarginal: bool, ctx: PlotContext)
      returns (err: Option<Error>)
      modifies this
      ensures var style := KeyStyle(constantByAes, aestheticsDefaults, colorByAes, fillByAes);
        var l := LegendLayerOf(keyFactory, aesList, overrides, scaleMappers, style, isMarginal, ctx);
        if l.Ok? then legendLayers == old(legendLayers) + [l.value] && err == None
        else legendLayers == old(legendLayers) && err == Some(l.error)
    {
      var style := KeyStyle(constantByAes, aestheticsDefaults, colorByAes, fillByAes);
      var layer := NewLegendLayer(keyFactory, aesList, overrides, scaleMappers, style, isMarginal, ctx);
      if layer.Err? {
        return Some(layer.error);
      }
      legendLayers := legendLayers + [layer.value];
      err := None;
    }

    /** Builds the legend box: merges the keys of the shown layers by label, then
        lays them out; a break shows its label as `wrap` breaks it into lines. */
    method CreateLegend(wrap: string -> string, combine: seq<LegendOptions> -> LegendOptions,
                        minimumKeySize: LegendBreak -> Vec)
      returns (box: LegendBoxInfo)
      ensures box == LegendBoxOf(legendLayers, legendTitle, guideOptionsMap, theme, wrap, combine, minimumKeySize)
    {
      var layers := SelectLayers(legendLayers);
      var breaksByLabel: BreakMap := EmptyLinkedMap();
      var i := 0;
      while i < |layers|
        invariant 0 <= i <= |layers|
        invariant breaksByLabel == MergeBreaks(Contributions(layers[..i]))
      {
        var layer := layers[i];
        ghost var before := Contributions(layers[..i]);
        var j := 0;
        ghost var lc := LayerContributions(layer);
        assert before + lc[..0] == before;
        while j < |layer.entries|
          invariant 0 <= j <= |layer.entries|
          invariant breaksByLabel == MergeBreaks(before + lc[..j])
        {
          ghost var cs := before + lc[..j];
          ghost var c := lc[j];
          PrefixAppend(before, lc, j);
          MergeBreaksStep(cs, c);
          var labelText := layer.entries[j].labelText;
          var key := LegendKey(layer.entries[j].dataPoint, layer.keyFactory);
          breaksByLabel := breaksByLabel.Put(labelText, BreakKeys(breaksByLabel, labelText) + [key]);
          j := j + 1;
        }
        assert lc[..j] == lc;
        assert layers[..i + 1][..i] == layers[..i];
        i := i + 1;
      }
      assert layers[..i] == layers;
      var legendBreaks := NonEmptyBreaks(BreaksOf(breaksByLabel, wrap));
      if |legendBreaks| == 0 {
        return EmptyLegend;
      }
      var options := combine(LegendOptionsOf(layers, guideOptionsMap));
      var spec := CreateLegendSpec(legendTitle, legendBreaks, theme, options, minimumKeySize);
      box := Legend(spec.value);
    }
  }
}
