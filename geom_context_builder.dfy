/** The builder of the geometry context handed to geoms when they render, and
    the immutable context it builds. */
module GeomContextBuilder {
  import opened Common

  type Aes = string

  /** Per-aesthetic data of a layer, as far as the context uses it: the
      resolution of a numeric aesthetic (with 0 as the default). */
  datatype Aesthetics = Aesthetics(resolution: Aes -> real)

  /** A scale mapper, by identity. */
  type ScaleMapper = nat

  datatype GeomTargetCollector = NullGeomTargetCollector | TargetCollector(id: nat)

  datatype FontFamilyRegistry = FontFamilyRegistry(get: string -> string)

  datatype Annotations = Annotations(id: nat)

  datatype Font = Font(family: string, size: int, isBold: bool, isItalic: bool)

  /** Resolutions at or below this are treated as absent. */
  const TINY: real := 0.00000000000000000000000000000000000000000000000001

  /** The immutable geometry context: a snapshot of the builder's fields. */
  datatype MyGeomContext = MyGeomContext(
    flipped: bool,
    aesthetics: Option<Aesthetics>,
    aestheticMappers: Option<map<Aes, ScaleMapper>>,
    aesBounds: Option<Rect>,
    targetCollector: GeomTargetCollector,
    fontFamilyRegistry: Option<FontFamilyRegistry>,
    annotations: Option<Annotations>,
    plotBackground: Color)
  {
    /** The aesthetic's resolution, or 1 where there is none worth using. */
    function GetResolution(aes: Aes): (r: real)
      ensures r > TINY
      ensures aesthetics.Some? && aesthetics.value.resolution(aes) > TINY ==> r == aesthetics.value.resolution(aes)
      ensures aesthetics.None? || aesthetics.value.resolution(aes) <= TINY ==> r == 1.0
    {
      var resolution := if aesthetics.Some? then aesthetics.value.resolution(aes) else 0.0;
      if resolution <= TINY then 1.0 else resolution
    }

    function IsMappedAes(aes: Aes): (r: bool)
      ensures r <==> aestheticMappers.Some? && aes in aestheticMappers.value
    {
      match aestheticMappers
      case Some(m) => aes in m
      case None => false
    }

    /** The text's size in the registry's font; fails without a registry. */
    function EstimateTextSize(text: string, family: string, size: real, isBold: bool, isItalic: bool,
                              dimensions: (Font, string) -> Vec): (r: Result<Vec>)
      ensures r.Err? <==> fontFamilyRegistry.None?
      ensures r.Err? ==> r.error.IllegalState?
      ensures r.Ok? ==> r.value == dimensions(Font(fontFamilyRegistry.value.get(family), Trunc(size), isBold, isItalic), text)
    {
      match fontFamilyRegistry
      case None => Err(IllegalState("Font-family registry is not specified."))
      case Some(registry) => Ok(dimensions(Font(registry.get(family), Trunc(size), isBold, isItalic), text))
    }

    function GetAesBounds(): (r: Result<Rect>)
      ensures r.Err? <==> aesBounds.None?
      ensures r.Err? ==> r.error.IllegalState?
      ensures r.Ok? ==> Some(r.value) == aesBounds
    {
      match aesBounds
      case None => Err(IllegalState("GeomContext: aesthetics bounds are not defined."))
      case Some(b) => Ok(b)
    }
  }

  class GeomContextBuilder {
    var flipped: bool
    var aesthetics: Option<Aesthetics>
    var aestheticMappers: Option<map<Aes, ScaleMapper>>
    var aesBounds: Option<Rect>
    var geomTargetCollector: GeomTargetCollector
    var fontFamilyRegistry: Option<FontFamilyRegistry>
    var annotations: Option<Annotations>
    var plotBackground: Color

    /** The context this builder would build now. */
    function Snapshot(): MyGeomContext
      reads this
    {
      MyGeomContext(flipped, aesthetics, aestheticMappers, aesBounds, geomTargetCollector,
                    fontFamilyRegistry, annotations, plotBackground)
    }

    /** A fresh builder: not flipped, no collector, a white background and
        nothing else set. */
    constructor()
      ensures Snapshot() == MyGeomContext(false, None, None, None, NullGeomTargetCollector, None, None, WHITE)
    {
      flipped := false;
      aesthetics := None;
      aestheticMappers := None;
      aesBounds := None;
      geomTargetCollector := NullGeomTargetCollector;
      fontFamilyRegistry := None;
      annotations := None;
      plotBackground := WHITE;
    }

    /** A builder from a context: every field but the font-family registry. */
    constructor FromContext(ctx: MyGeomContext)
      ensures Snapshot() == ctx.(fontFamilyRegistry := None)
    {
      flipped := ctx.flipped;
      aesthetics := ctx.aesthetics;
      aestheticMappers := ctx.aestheticMappers;
      aesBounds := ctx.aesBounds;
      geomTargetCollector := ctx.targetCollector;
      fontFamilyRegistry := None;
      annotations := ctx.annotations;
      plotBackground := ctx.plotBackground;
    }

    method Flipped(v: bool) returns (r: GeomContextBuilder)
      modifies this
      ensures r == this && Snapshot() == old(Snapshot()).(flipped := v)
    {
      flipped := v;
      r := this;
    }

    method SetAesthetics(v: Aesthetics) returns (r: GeomContextBuilder)
      modifies this
      ensures r == this && Snapshot() == old(Snapshot()).(aesthetics := Some(v))
    {
      aesthetics := Some(v);
      r := this;
    }

    method SetAestheticMappers(v: map<Aes, ScaleMapper>) returns (r: GeomContextBuilder)
      modifies this
      ensures r == this && Snapshot() == old(Snapshot()).(aestheticMappers := Some(v))
    {
      aestheticMappers := Some(v);
      r := this;
    }

    method SetAesBounds(v: Rect) returns (r: GeomContextBuilder)
      modifies this
      ensures r == this && Snapshot() == old(Snapshot()).(aesBounds := Some(v))
    {
      aesBounds := Some(v);
      r := this;
    }

    method SetGeomTargetCollector(v: GeomTargetCollector) returns (r: GeomContextBuilder)
      modifies this
      ensures r == this && Snapshot() == old(Snapshot()).(targetCollector := v)
    {
      geomTargetCollector := v;
      r := this;
    }

    method SetFontFamilyRegistry(v: FontFamilyRegistry) returns (r: GeomContextBuilder)
      modifies this
      ensures r == this && Snapshot() == old(Snapshot()).(fontFamilyRegistry := Some(v))
    {
      fontFamilyRegistry := Some(v);
      r := this;
    }

    method SetAnnotations(v: Option<Annotations>) returns (r: GeomContextBuilder)
      modifies this
      ensures r == this && Snapshot() == old(Snapshot()).(annotations := v)
    {
      annotations := v;
      r := this;
    }

    method SetPlotBackground(v: Color) returns (r: GeomContextBuilder)
      modifies this
      ensures r == this && Snapshot() == old(Snapshot()).(plotBackground := v)
    {
      plotBackground := v;
      r := this;
    }

    /** The context is a value: later changes to the builder do not reach it. */
    method Build() returns (ctx: MyGeomContext)
      ensures ctx == Snapshot()
    {
      ctx := Snapshot();
    }
  }

  /** `with()` then a new collector then `build()`: the same context with only
      the collector replaced, less the font-family registry `with()` drops. */
  method WithTargetCollector(ctx: MyGeomContext, targetCollector: GeomTargetCollector) returns (r: MyGeomContext)
    ensures r == ctx.(targetCollector := targetCollector, fontFamilyRegistry := None)
    ensures r.GetAesBounds() == ctx.GetAesBounds()
    ensures forall aes :: r.GetResolution(aes) == ctx.GetResolution(aes) && r.IsMappedAes(aes) == ctx.IsMappedAes(aes)
  {
    var b := new GeomContextBuilder.FromContext(ctx);
    var b2 := b.SetGeomTargetCollector(targetCollector);
    r := b2.Build();
  }
}
