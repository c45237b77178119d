# lets-plot core, modelled in Dafny

This project models the core of lets-plot, a Kotlin plotting library that turns a
plot specification (nested option maps) into an SVG or canvas figure. Each Kotlin
file of the core is one Dafny module, and the module keeps that file's form.
Value computations become functions. Objects whose fields change become classes
whose methods are proved against specification functions.

- **Legends and colour bars** (`LegendAssembler`, `PlotAssemblerUtil`, `PortablePlotAssemblerUtil`):
  - how legend layers are collected;
  - how their breaks are merged by label;
  - how aesthetic overrides are applied;
  - how a legend key falls back on its layer's constants and defaults;
  - how assemblers are grouped by legend title;
  - how a colour bar is chosen over a legend;
  - the legend key size.
- **Layout and drawing** (`TopDownTileLayout`, `SquareFrameOfReference`, `BogusFrameOfReferenceProvider`, `CompositeFigureBuildInfo`, `GeomHelper`, `GeomContextBuilder`):
  - the tile layout: how the geometry area and the axes share a tile;
  - the order in which panel parts are drawn before and after the geometry layers;
  - how data points are mapped to client coordinates;
  - how composite figures are laid out and moved;
  - the geometry context and its resolution.
- **Option normalisers** (`ThemeConfig`, `OptionsAccessor`, `FacetConfig`, `CoordProto`, `PlotConfigScaleProviders`):
  - theme option conversion;
  - the facet grid and wrap specifications;
  - coordinate-system selection;
  - default scale providers.
- **Interaction state machines** (`DomMouseEventMapper`, `PlotPanelFigureModel`):
  - the mouse hover, press and drag states;
  - the tool-event bookkeeping of the Swing plot panel.
- **Colour gradients and map projections** (`ColorGradient2MapperProvider`, `MapProjectionBuilder`):
  - how the diverging gradient's domain is split at its midpoint;
  - how the live map's projection is built from offsets, scales and reversals.
- **Serialisers** (`PlotSvgExport`, `RequestJsonFormatter`):
  - stitching a bunch of plot SVGs into one document;
  - the JSON form of the live map's tile-service requests.

`Common` holds the shared value types:

- optional values, and results for the exceptions the source throws;
- real-valued vectors, rectangles and spans;
- insertion-ordered maps, which stand for `LinkedHashMap`;
- the JSON-like option values of a plot specification.

Collaborators outside the core are parameters of the model, given as functions or as records of functions. These are scale breaks, text measurement, axis layout, colour interpolation, the geographic projection and number formatting.

## Model

| member | source | states |
|---|---|---|
| LegendAssembler.OverrideAt | plot-builder/src/commonMain/kotlin/org/jetbrains/letsPlot/core/plot/builder/assemble/LegendAssembler.kt:145-150 | a scalar override applies to every break; a list override gives the element at the break's index, else its last element, else nothing |
| LegendAssembler.OverridesAt | plot-builder/src/commonMain/kotlin/org/jetbrains/letsPlot/core/plot/builder/assemble/LegendAssembler.kt:145-154 | exactly the overridden aesthetics whose value for the break is non-null are set, to that value |
| LegendAssembler.MapValues | plot-builder/src/commonMain/kotlin/org/jetbrains/letsPlot/core/plot/builder/assemble/LegendAssembler.kt:137-139 | one mapped aesthetic value per transformed break value, in order |
| LegendAssembler.EntriesOf | plot-builder/src/commonMain/kotlin/org/jetbrains/letsPlot/core/plot/builder/assemble/LegendAssembler.kt:159-166 | one key entry per label, in first-insertion order; each key shows, for every aesthetic, the label's own value, else the layer's constant, else the layer's default, and takes colour and fill from the layer's colour and fill aesthetics |
| LegendAssembler.LayerKeyValues | plot-builder/src/commonMain/kotlin/org/jetbrains/letsPlot/core/plot/builder/assemble/LegendAssembler.kt:126-166 | every key of a built layer shows its label's recorded value where there is one; an aesthetic the layer neither maps nor overrides always shows the layer's constant, else the default |
| LegendAssembler.LayerValuesErrSticks | plot-builder/src/commonMain/kotlin/org/jetbrains/letsPlot/core/plot/builder/assemble/LegendAssembler.kt:129-134 | once an aesthetic of the layer fails (no breaks, missing mapper), the whole layer fails with that first error |
| LegendAssembler.AddAesBreaks | plot-builder/src/commonMain/kotlin/org/jetbrains/letsPlot/core/plot/builder/assemble/LegendAssembler.kt:141-155 | the zipped (label, value) loop of one aesthetic leaves exactly the label map the specification function defines |
| LegendAssembler.NewLegendLayer | plot-builder/src/commonMain/kotlin/org/jetbrains/letsPlot/core/plot/builder/assemble/LegendAssembler.kt:110-167 | the layer's initializer, loops and early failures included, yields the layer (or the error) the specification defines, its keys over the layer's constants, defaults and colour and fill aesthetics |
| LegendAssembler.AddBreakValuesLabels | plot-builder/src/commonMain/kotlin/org/jetbrains/letsPlot/core/plot/builder/assemble/LegendAssembler.kt:141-143 | a label is in the layer's map iff it was there before or is one of the aesthetic's (paired) break labels; earlier labels keep their place |
| LegendAssembler.OverridesWin | plot-builder/src/commonMain/kotlin/org/jetbrains/letsPlot/core/plot/builder/assemble/LegendAssembler.kt:141-154 | for a label not repeated later, every non-null override wins for that break, and otherwise the aesthetic keeps its own mapped value |
| LegendAssembler.MergeBreaksSpec | plot-builder/src/commonMain/kotlin/org/jetbrains/letsPlot/core/plot/builder/assemble/LegendAssembler.kt:70-79 | merging gives one break per distinct label in first-seen order, holding every key with that label in contribution order, never an empty one |
| LegendAssembler.SelectLayers | plot-builder/src/commonMain/kotlin/org/jetbrains/letsPlot/core/plot/builder/assemble/LegendAssembler.kt:67-68 | when every layer is marginal, all layers are shown |
| LegendAssembler.CoreLayers | plot-builder/src/commonMain/kotlin/org/jetbrains/letsPlot/core/plot/builder/assemble/LegendAssembler.kt:68 | exactly the non-marginal layers are kept |
| LegendAssembler.CoreLayersAppend | plot-builder/src/commonMain/kotlin/org/jetbrains/letsPlot/core/plot/builder/assemble/LegendAssembler.kt:68 | the filter keeps the layers' order: the core layers of two concatenated lists are those of the first followed by those of the second |
| LegendAssembler.SelectLayersMarginal | plot-builder/src/commonMain/kotlin/org/jetbrains/letsPlot/core/plot/builder/assemble/LegendAssembler.kt:67-68 | with at least one core layer, the shown layers are exactly the core ones |
| LegendAssembler.NonEmptyBreaks | plot-builder/src/commonMain/kotlin/org/jetbrains/letsPlot/core/plot/builder/assemble/LegendAssembler.kt:81 | filtering never adds breaks and keeps a list with no empty break unchanged |
| LegendAssembler.PrettySideBounds | plot-builder/src/commonMain/kotlin/org/jetbrains/letsPlot/core/plot/builder/assemble/LegendAssembler.kt:183-189 | a pretty side is larger than the side and at most 2 larger |
| LegendAssembler.PrettyBounds | plot-builder/src/commonMain/kotlin/org/jetbrains/letsPlot/core/plot/builder/assemble/LegendAssembler.kt:183-189 | the same bound on both coordinates of a key size |
| LegendAssembler.MaxX | plot-builder/src/commonMain/kotlin/org/jetbrains/letsPlot/core/plot/builder/assemble/LegendAssembler.kt:200 | the largest width: no width exceeds it and some size has it |
| LegendAssembler.MaxY | plot-builder/src/commonMain/kotlin/org/jetbrains/letsPlot/core/plot/builder/assemble/LegendAssembler.kt:197 | the largest height: no height exceeds it and some size has it |
| LegendAssembler.CeilDivBounds | plot-builder/src/commonMain/kotlin/org/jetbrains/letsPlot/core/plot/builder/assemble/LegendAssembler.kt:212-225 | `ceil(a / b)` for a positive divisor is the least multiple count covering `a`, between 1 and `a` for positive `a` |
| LegendAssembler.KeySizesShared | plot-builder/src/commonMain/kotlin/org/jetbrains/letsPlot/core/plot/builder/assemble/LegendAssembler.kt:191-203 | each break's own size is the larger of the theme key size and its pretty minimum; a horizontal legend keeps each own width and gives every key the largest own height, a vertical one keeps each own height and gives every key the largest own width |
| LegendAssembler.GridHoldsBreaks | plot-builder/src/commonMain/kotlin/org/jetbrains/letsPlot/core/plot/builder/assemble/LegendAssembler.kt:206-226 | with positive counts the grid has room for every break, each count is between 1 and the break count, and the direction filled first has no empty line |
| LegendAssembler.GridDefaults | plot-builder/src/commonMain/kotlin/org/jetbrains/letsPlot/core/plot/builder/assemble/LegendAssembler.kt:209-226 | without counts a horizontal legend is one row and a vertical one a single column |
| LegendAssembler.CreateLegendSpec | plot-builder/src/commonMain/kotlin/org/jetbrains/letsPlot/core/plot/builder/assemble/LegendAssembler.kt:173-256 | fails exactly on no breaks; otherwise keeps title and breaks, one key size per break, the grid and layout chosen, fill order from the options, never reversed |
| LegendAssembler.LayoutChoice | plot-builder/src/commonMain/kotlin/org/jetbrains/letsPlot/core/plot/builder/assemble/LegendAssembler.kt:228-243 | horizontal multi-row iff horizontal and a row count is given or the column count is below the break count; vertical iff the direction is vertical |
| LegendAssembler.LegendBoxOf | plot-builder/src/commonMain/kotlin/org/jetbrains/letsPlot/core/plot/builder/assemble/LegendAssembler.kt:66-107 | a non-empty legend carries the assembler's title; its breaks show their labels wrapped (stated by LegendBreaksByLabel) |
| LegendAssembler.LegendBreaksByLabel | plot-builder/src/commonMain/kotlin/org/jetbrains/letsPlot/core/plot/builder/assemble/LegendAssembler.kt:66-84 | the legend is empty iff the shown layers have no labels; else it has one break per distinct raw label in first-seen order, showing the wrapped label and holding all keys with that raw label |
| LegendAssembler.MergedBreaks | plot-builder/src/commonMain/kotlin/org/jetbrains/letsPlot/core/plot/builder/assemble/LegendAssembler.kt:70-81 | the merged breaks are never empty, so the filter keeps them all; break i shows the i-th distinct raw label wrapped and holds that label's keys |
| LegendAssembler.LegendAssembler.constructor | plot-builder/src/commonMain/kotlin/org/jetbrains/letsPlot/core/plot/builder/assemble/LegendAssembler.kt:29-36 | a new assembler keeps its title, options, mappers and theme and has no layers |
| LegendAssembler.LegendAssembler.AddLayer | plot-builder/src/commonMain/kotlin/org/jetbrains/letsPlot/core/plot/builder/assemble/LegendAssembler.kt:38-64 | appends the legend layer built over the given constants, defaults and colour and fill aesthetics; when building it fails, reports the error and leaves the layers unchanged |
| LegendAssembler.LegendAssembler.CreateLegend | plot-builder/src/commonMain/kotlin/org/jetbrains/letsPlot/core/plot/builder/assemble/LegendAssembler.kt:66-107 | the nested merge loops, keyed by the raw label with each new break showing the label wrapped, produce the legend box the specification defines |
| PlotAssemblerUtil.UpdateAesRangeMap | plot-builder/src/commonMain/kotlin/org/jetbrains/letsPlot/core/plot/builder/assemble/PlotAssemblerUtil.kt:25-39 | no range leaves the map unchanged; a range is stored as is for a new aesthetic, else the span of the old and new ranges (the smallest interval holding both) is stored; other aesthetics unchanged |
| PlotAssemblerUtil.AesStepColorBars | plot-builder/src/commonMain/kotlin/org/jetbrains/letsPlot/core/plot/builder/assemble/PlotAssemblerUtil.kt:63-103 | a colour-bar aesthetic never replaces an unequal colour bar of the same name (it goes under "name (aes)"), an equal one is replaced; every other aesthetic is appended to its scale name's legend group |
| PlotAssemblerUtil.GroupLayerAes | plot-builder/src/commonMain/kotlin/org/jetbrains/letsPlot/core/plot/builder/assemble/PlotAssemblerUtil.kt:61-104 | the per-layer aesthetic loop yields the colour bars and legend groups (or the first error) the specification fold defines |
| PlotAssemblerUtil.OverrideUnionLastWins | plot-builder/src/commonMain/kotlin/org/jetbrains/letsPlot/core/plot/builder/assemble/PlotAssemblerUtil.kt:120-127 | an aesthetic is overridden iff some aesthetic of the group overrides it, with the value of the last one that does |
| PlotAssemblerUtil.AddLegendLayers | plot-builder/src/commonMain/kotlin/org/jetbrains/letsPlot/core/plot/builder/assemble/PlotAssemblerUtil.kt:106-140 | one legend layer per scale-name group, in group order, in a new assembler when the name is new; every layer's keys fall back on the layer constants map, the layer's defaults and its colour and fill aesthetics |
| PlotAssemblerUtil.CollectLayerConstants | plot-builder/src/commonMain/kotlin/org/jetbrains/letsPlot/core/plot/builder/assemble/PlotAssemblerUtil.kt:54-59 | the layer constants map holds exactly the rendered aesthetics that have a constant, each with that constant |
| PlotAssemblerUtil.ColorBarBoxes | plot-builder/src/commonMain/kotlin/org/jetbrains/letsPlot/core/plot/builder/assemble/PlotAssemblerUtil.kt:143-149 | only non-empty colour bars are output |
| PlotAssemblerUtil.LegendBoxes | plot-builder/src/commonMain/kotlin/org/jetbrains/letsPlot/core/plot/builder/assemble/PlotAssemblerUtil.kt:151-156 | only legends are output from the legend assemblers |
| PlotAssemblerUtil.CreateLegendsOrder | plot-builder/src/commonMain/kotlin/org/jetbrains/letsPlot/core/plot/builder/assemble/PlotAssemblerUtil.kt:143-157 | colour bars come before all legends, and no empty colour bar is output |
| PlotAssemblerUtil.LegendBoxTitles | plot-builder/src/commonMain/kotlin/org/jetbrains/letsPlot/core/plot/builder/assemble/PlotAssemblerUtil.kt:151-156 | every legend carries the scale name it was grouped under, and no two legends share a title |
| PlotAssemblerUtil.CreateLegends | plot-builder/src/commonMain/kotlin/org/jetbrains/letsPlot/core/plot/builder/assemble/PlotAssemblerUtil.kt:41-158 | the whole loop nest, the layer constants map included, returns the boxes (or the error) of the specification |
| PlotAssemblerUtil.CollectColorBars | plot-builder/src/commonMain/kotlin/org/jetbrains/letsPlot/core/plot/builder/assemble/PlotAssemblerUtil.kt:143-149 | the colour-bar output loop equals the specification's list |
| PlotAssemblerUtil.CollectLegends | plot-builder/src/commonMain/kotlin/org/jetbrains/letsPlot/core/plot/builder/assemble/PlotAssemblerUtil.kt:151-156 | the legend output loop equals the specification's list |
| PlotAssemblerUtil.CreatePlotLayout | plot-builder/src/commonMain/kotlin/org/jetbrains/letsPlot/core/plot/builder/assemble/PlotAssemblerUtil.kt:160-191 | faceted plots get a faceted layout over all providers; otherwise the first provider gives an inside-out or top-down tile layout, and no provider is an index error |
| PortablePlotAssemblerUtil.Stitch | plot-builder-portable/src/commonMain/kotlin/jetbrains/datalore/plot/builder/assemble/PlotAssemblerUtil.kt:47-67 | plane i gathers layer i of every panel, one plane per layer of the first panel; a shorter panel is an index error, and only then |
| PortablePlotAssemblerUtil.StitchLayers | plot-builder-portable/src/commonMain/kotlin/jetbrains/datalore/plot/builder/assemble/PlotAssemblerUtil.kt:47-67 | the two stitching loops produce exactly the stitched planes (or the index error) of the specification |
| PortablePlotAssemblerUtil.MergeDomainsStep | plot-builder-portable/src/commonMain/kotlin/jetbrains/datalore/plot/builder/assemble/PlotAssemblerUtil.kt:72-78 | merging one more aesthetic's domain is one range-map update |
| PortablePlotAssemblerUtil.MergeLayerDomains | plot-builder-portable/src/commonMain/kotlin/jetbrains/datalore/plot/builder/assemble/PlotAssemblerUtil.kt:72-78 | the loop over a layer's domain map, in whatever order it iterates, merges every aesthetic's domain |
| PortablePlotAssemblerUtil.TransformedDomainByAes | plot-builder-portable/src/commonMain/kotlin/jetbrains/datalore/plot/builder/assemble/PlotAssemblerUtil.kt:69-79 | the domain loop over the stitched layers yields the merged domains of the specification |
| PortablePlotAssemblerUtil.DomainsCoverLayers | plot-builder-portable/src/commonMain/kotlin/jetbrains/datalore/plot/builder/assemble/PlotAssemblerUtil.kt:69-79 | an aesthetic has a merged domain iff some layer has a domain for it, and the merged domain spans every layer's domain |
| PortablePlotAssemblerUtil.PAesStepColorBars | plot-builder-portable/src/commonMain/kotlin/jetbrains/datalore/plot/builder/assemble/PlotAssemblerUtil.kt:109-139 | explicit colour-bar options make a colour bar that overwrites the one of the same name; other explicit options go to the legend; without options a colour-bar-fit scale gets a colour bar, else the legend |
| PortablePlotAssemblerUtil.PGroupLayerAes | plot-builder-portable/src/commonMain/kotlin/jetbrains/datalore/plot/builder/assemble/PlotAssemblerUtil.kt:107-139 | the per-layer aesthetic loop equals the specification fold, including its first error |
| PortablePlotAssemblerUtil.AddRequestsAppends | plot-builder-portable/src/commonMain/kotlin/jetbrains/datalore/plot/builder/assemble/PlotAssemblerUtil.kt:141-161 | each scale name of the layer appends exactly one request carrying that name's bindings, the layer constants map and the layer's defaults; other names are untouched |
| PortablePlotAssemblerUtil.PAddLegendLayers | plot-builder-portable/src/commonMain/kotlin/jetbrains/datalore/plot/builder/assemble/PlotAssemblerUtil.kt:141-161 | the legend loop equals the specification's requests, each carrying the layer constants map and defaults |
| PortablePlotAssemblerUtil.PColorBarBoxes | plot-builder-portable/src/commonMain/kotlin/jetbrains/datalore/plot/builder/assemble/PlotAssemblerUtil.kt:165-170 | only non-empty colour bars are output |
| PortablePlotAssemblerUtil.PLegendBoxes | plot-builder-portable/src/commonMain/kotlin/jetbrains/datalore/plot/builder/assemble/PlotAssemblerUtil.kt:172-177 | only non-empty legends are output |
| PortablePlotAssemblerUtil.CreateLegendsOrder | plot-builder-portable/src/commonMain/kotlin/jetbrains/datalore/plot/builder/assemble/PlotAssemblerUtil.kt:164-178 | colour bars come before all legends, and no legend output is empty |
| PortablePlotAssemblerUtil.CreateLegends | plot-builder-portable/src/commonMain/kotlin/jetbrains/datalore/plot/builder/assemble/PlotAssemblerUtil.kt:41-87 | stitching, domain merging, the layer constants maps and assembly together return the boxes (or the error) of the specification |
| PortablePlotAssemblerUtil.PCollectColorBars | plot-builder-portable/src/commonMain/kotlin/jetbrains/datalore/plot/builder/assemble/PlotAssemblerUtil.kt:165-170 | the colour-bar output loop equals the specification's list |
| PortablePlotAssemblerUtil.PCollectLegends | plot-builder-portable/src/commonMain/kotlin/jetbrains/datalore/plot/builder/assemble/PlotAssemblerUtil.kt:172-177 | the legend output loop equals the specification's list |
| PortablePlotAssemblerUtil.CreatePortablePlotLayout | plot-builder-portable/src/commonMain/kotlin/jetbrains/datalore/plot/builder/assemble/PlotAssemblerUtil.kt:181-191 | a facet grid exactly when facets are defined, always over the given tile layout, with the theme's strip flag |
| TopDownTileLayout.AxisLayoutInfo.WithAxisLength | plot-builder-portable/src/commonMain/kotlin/jetbrains/datalore/plot/builder/layout/tile/TopDownTileLayout.kt:117-118 | only the axis length changes; the axis and tick-label bounds are kept |
| TopDownTileLayout.XRange | plot-builder-portable/src/commonMain/kotlin/jetbrains/datalore/plot/builder/layout/tile/TopDownTileLayout.kt:61 | the horizontal extent of a rectangle of non-negative width, as a well-formed interval |
| TopDownTileLayout.ComputeHAxisInfo | plot-builder-portable/src/commonMain/kotlin/jetbrains/datalore/plot/builder/layout/tile/TopDownTileLayout.kt:227-243 | the x-axis is laid out for its span's length, its tick labels bounded with a stretch of a tenth of that length |
| TopDownTileLayout.ComputeVAxisInfo | plot-builder-portable/src/commonMain/kotlin/jetbrains/datalore/plot/builder/layout/tile/TopDownTileLayout.kt:245-251 | the y-axis is laid out for the given length with no bound on its tick labels |
| TopDownTileLayout.ComputeAxisInfos | plot-builder-portable/src/commonMain/kotlin/jetbrains/datalore/plot/builder/layout/tile/TopDownTileLayout.kt:156-225 | the y-axis is first laid out for the height estimated from the initial thicknesses; the x-axis is laid out over the plotting area left beside that first y-axis; the y-axis is laid out a second time, for the height left below the final x-axis, iff the x-axis came out thicker than its initial thickness |
| TopDownTileLayout.ShrinkByOverflow | plot-builder-portable/src/commonMain/kotlin/jetbrains/datalore/plot/builder/layout/tile/TopDownTileLayout.kt:69-86 | a positive left overflow moves the left edge right, a positive right overflow moves the right edge left, the vertical extent is kept, and the area is unchanged iff neither overflow is positive |
| TopDownTileLayout.GeomOuterBounds | plot-builder-portable/src/commonMain/kotlin/jetbrains/datalore/plot/builder/layout/tile/TopDownTileLayout.kt:88-93 | an unchanged area is kept as it is; a changed one keeps its new origin and takes the size the coordinate provider adjusts it to |
| TopDownTileLayout.TileBounds | plot-builder-portable/src/commonMain/kotlin/jetbrains/datalore/plot/builder/layout/tile/TopDownTileLayout.kt:137-154 | the tile extends the geometry area left by the y-axis width, up and right by the margin, and down by the x-axis height |
| TopDownTileLayout.TileBoundsCoverGeom | plot-builder-portable/src/commonMain/kotlin/jetbrains/datalore/plot/builder/layout/tile/TopDownTileLayout.kt:137-154 | with axes and margin of non-negative size the tile holds the geometry area |
| TopDownTileLayout.DoLayout | plot-builder-portable/src/commonMain/kotlin/jetbrains/datalore/plot/builder/layout/tile/TopDownTileLayout.kt:31-132 | zero offset, both axes shown; the outer geometry bounds are the area computed from the two axis thicknesses, shrunk by the x-axis tick labels' overflow of the room they may take and resized by the coordinate provider; inner and outer geometry bounds equal, axis lengths synchronised with the final geometry area, clip bounds and tile bounds taken from it |
| TopDownTileLayout.NoOverflowKeepsGeom | plot-builder-portable/src/commonMain/kotlin/jetbrains/datalore/plot/builder/layout/tile/TopDownTileLayout.kt:54-94 | when the x-axis tick labels fit their room, the geometry area is exactly the one computed from the axis thicknesses |
| TopDownTileLayout.ShrinkStaysInside | plot-builder-portable/src/commonMain/kotlin/jetbrains/datalore/plot/builder/layout/tile/TopDownTileLayout.kt:69-86 | shrinking never widens the area: the edges only move inwards, by the positive overflows |
| SquareFrameOfReference.FlattenRanked | plot-builder/src/commonMain/kotlin/org/jetbrains/letsPlot/core/plot/builder/frame/SquareFrameOfReference.kt:73-103 | drawers emitting only their own kind, run in rank order, give a rank-ordered sequence holding exactly what each drawer emits |
| SquareFrameOfReference.NotNull | plot-builder/src/commonMain/kotlin/org/jetbrains/letsPlot/core/plot/builder/frame/SquareFrameOfReference.kt:141 | `listOfNotNull` keeps exactly the present axes, at most two |
| SquareFrameOfReference.HGrids | plot-builder/src/commonMain/kotlin/org/jetbrains/letsPlot/core/plot/builder/frame/SquareFrameOfReference.kt:183-190 | one horizontal grid per top/bottom axis, in order |
| SquareFrameOfReference.VGrids | plot-builder/src/commonMain/kotlin/org/jetbrains/letsPlot/core/plot/builder/frame/SquareFrameOfReference.kt:169-176 | one vertical grid per left/right axis, in order |
| SquareFrameOfReference.HAxes | plot-builder/src/commonMain/kotlin/org/jetbrains/letsPlot/core/plot/builder/frame/SquareFrameOfReference.kt:140-163 | one horizontal axis per top/bottom axis info, in order, all with the same break hiding |
| SquareFrameOfReference.VAxes | plot-builder/src/commonMain/kotlin/org/jetbrains/letsPlot/core/plot/builder/frame/SquareFrameOfReference.kt:115-138 | one vertical axis per left/right axis info, in order, all with the same break hiding |
| SquareFrameOfReference.Group | plot-builder/src/commonMain/kotlin/org/jetbrains/letsPlot/core/plot/builder/frame/SquareFrameOfReference.kt:73-103 | each drawer emits only elements of its own kind |
| SquareFrameOfReference.PassGroups | plot-builder/src/commonMain/kotlin/org/jetbrains/letsPlot/core/plot/builder/frame/SquareFrameOfReference.kt:57-104 | a pass runs eight drawers, each emitting only its own kind |
| SquareFrameOfReference.PassOrder | plot-builder/src/commonMain/kotlin/org/jetbrains/letsPlot/core/plot/builder/frame/SquareFrameOfReference.kt:73-103 | within a pass: fill, horizontal grids, vertical grids, horizontal axes, vertical axes, stroke, border, debug shapes |
| SquareFrameOfReference.InPass | plot-builder/src/commonMain/kotlin/org/jetbrains/letsPlot/core/plot/builder/frame/SquareFrameOfReference.kt:57-104 | an element is drawn in a pass iff the drawer of its kind emits it in that pass |
| SquareFrameOfReference.PanelPasses | plot-builder/src/commonMain/kotlin/org/jetbrains/letsPlot/core/plot/builder/frame/SquareFrameOfReference.kt:64-101 | the fill is drawn iff before the geometry with the panel rectangle shown; stroke and border in the one pass their on-top setting selects; debug shapes iff after the geometry with debug drawing on |
| SquareFrameOfReference.GridsOnce | plot-builder/src/commonMain/kotlin/org/jetbrains/letsPlot/core/plot/builder/frame/SquareFrameOfReference.kt:68-69 | every grid line set is drawn in exactly one of the two passes |
| SquareFrameOfReference.AxesOnce | plot-builder/src/commonMain/kotlin/org/jetbrains/letsPlot/core/plot/builder/frame/SquareFrameOfReference.kt:70-71 | every axis is drawn in exactly one of the two passes |
| SquareFrameOfReference.AxesOfPass | plot-builder/src/commonMain/kotlin/org/jetbrains/letsPlot/core/plot/builder/frame/SquareFrameOfReference.kt:115-163 | horizontal axes only for top/bottom axis infos, vertical ones only for left/right, breaks hidden iff that direction is not shown |
| SquareFrameOfReference.AddAll | plot-builder/src/commonMain/kotlin/org/jetbrains/letsPlot/core/plot/builder/frame/SquareFrameOfReference.kt:183-190 | the `forEach` of a drawer appends its elements in order |
| SquareFrameOfReference.SquareFrameOfReference.constructor | plot-builder/src/commonMain/kotlin/org/jetbrains/letsPlot/core/plot/builder/frame/SquareFrameOfReference.kt:30-42 | keeps the layout, theme and flip; debug drawing starts off |
| SquareFrameOfReference.SquareFrameOfReference.DrawBeforeGeomLayer | plot-builder/src/commonMain/kotlin/org/jetbrains/letsPlot/core/plot/builder/frame/SquareFrameOfReference.kt:49-51 | appends exactly the elements of the pass before the geometry |
| SquareFrameOfReference.SquareFrameOfReference.DrawAfterGeomLayer | plot-builder/src/commonMain/kotlin/org/jetbrains/letsPlot/core/plot/builder/frame/SquareFrameOfReference.kt:53-55 | appends exactly the elements of the pass after the geometry |
| SquareFrameOfReference.SquareFrameOfReference.DrawPanelAndAxis | plot-builder/src/commonMain/kotlin/org/jetbrains/letsPlot/core/plot/builder/frame/SquareFrameOfReference.kt:57-104 | the eight conditional drawers append exactly the pass's elements, in order |
| SquareFrameOfReference.SquareFrameOfReference.DrawGroup | plot-builder/src/commonMain/kotlin/org/jetbrains/letsPlot/core/plot/builder/frame/SquareFrameOfReference.kt:73-103 | one drawer appends its elements when its flag is set, nothing otherwise |
| SquareFrameOfReference.BackgroundColor | plot-builder/src/commonMain/kotlin/org/jetbrains/letsPlot/core/plot/builder/frame/SquareFrameOfReference.kt:279 | the panel fill when the panel rectangle is shown, else the plot background |
| SquareFrameOfReference.BuildGeom | plot-builder/src/commonMain/kotlin/org/jetbrains/letsPlot/core/plot/builder/frame/SquareFrameOfReference.kt:322-376 | a y-oriented layer negates the flip and flips the coordinate system; the collector is wrapped for the flip, then for the y-orientation; the background colour is passed on |
| SquareFrameOfReference.FlipsCancel | plot-builder/src/commonMain/kotlin/org/jetbrains/letsPlot/core/plot/builder/frame/SquareFrameOfReference.kt:336-358 | a y-oriented layer in a flipped frame is drawn unflipped, with only the y-orientation wrapper added |
| ThemeConfig.ConvertElementBlank | plot-stem/src/commonMain/kotlin/org/jetbrains/letsPlot/core/spec/config/ThemeConfig.kt:59-67 | the "blank" string or a map named "blank" becomes the blank element, and every other value is kept |
| ThemeConfig.ThicknessValues | plot-stem/src/commonMain/kotlin/org/jetbrains/letsPlot/core/spec/config/ThemeConfig.kt:70-79 | a number gives one value; a list of numbers and nulls gives its elements in order; a list with anything else is an illegal argument, any other value an illegal state |
| ThemeConfig.ToThickness | plot-stem/src/commonMain/kotlin/org/jetbrains/letsPlot/core/spec/config/ThemeConfig.kt:69-119 | succeeds iff one to four values are given, always with four sides; more values (or none) is an illegal state |
| ThemeConfig.ToThicknessIsCssShorthand | plot-stem/src/commonMain/kotlin/org/jetbrains/letsPlot/core/spec/config/ThemeConfig.kt:86-118 | every side takes the value the CSS shorthand rule assigns it (missing right from top, bottom from top, left from right) |
| ThemeConfig.ToThicknessNumber | plot-stem/src/commonMain/kotlin/org/jetbrains/letsPlot/core/spec/config/ThemeConfig.kt:87-93 | a single number sets all four sides |
| ThemeConfig.SidesSpec | plot-stem/src/commonMain/kotlin/org/jetbrains/letsPlot/core/spec/config/ThemeConfig.kt:122-133 | a per-side entry exists exactly for the sides that have a value |
| ThemeConfig.SidesSpecValues | plot-stem/src/commonMain/kotlin/org/jetbrains/letsPlot/core/spec/config/ThemeConfig.kt:125-132 | with distinct side names, each given side is stored under its own name with its value |
| ThemeConfig.ConvertSides | plot-stem/src/commonMain/kotlin/org/jetbrains/letsPlot/core/spec/config/ThemeConfig.kt:121-171 | under the top-level key the value becomes its per-side spec; a map holding the element key has that key replaced by the per-side keys; anything else is kept; failures exactly when the thickness fails |
| ThemeConfig.ConvertSidesSideValues | plot-stem/src/commonMain/kotlin/org/jetbrains/letsPlot/core/spec/config/ThemeConfig.kt:137-141 | with distinct side names, the element-key entry is replaced by the expanded sides: each side with a value is stored under its name, overriding the map's entry there, and a side without one leaves that entry as it was |
| ThemeConfig.ConvertSidesKeepsOthers | plot-stem/src/commonMain/kotlin/org/jetbrains/letsPlot/core/spec/config/ThemeConfig.kt:137-141 | the entries of a converted map that are neither the element key nor a side key keep their values |
| ThemeConfig.ConvertExponentFormat | plot-stem/src/commonMain/kotlin/org/jetbrains/letsPlot/core/spec/config/ThemeConfig.kt:43-54 | under its key, "e" and "pow" in any letter case give the two formats and anything else is an illegal argument; other keys are untouched |
| ThemeConfig.ExponentFormatCaseInsensitive | plot-stem/src/commonMain/kotlin/org/jetbrains/letsPlot/core/spec/config/ThemeConfig.kt:45-47 | for every string, the string, its lower-case form and its upper-case form convert to the same exponent format (or the same error) |
| ThemeConfig.BlankStaysBlank | plot-stem/src/commonMain/kotlin/org/jetbrains/letsPlot/core/spec/config/ThemeConfig.kt:31-36 | a blank shorthand under any key but the margin, padding and exponent-format keys converts to the blank element |
| ThemeConfig.ConvertAll | plot-stem/src/commonMain/kotlin/org/jetbrains/letsPlot/core/spec/config/ThemeConfig.kt:31-37 | a successful conversion has exactly the settings' keys |
| ThemeConfig.ConvertAllValues | plot-stem/src/commonMain/kotlin/org/jetbrains/letsPlot/core/spec/config/ThemeConfig.kt:31-37 | the whole map converts iff every value converts, and then holds each converted value under its key |
| ThemeConfig.ThemeName | plot-stem/src/commonMain/kotlin/org/jetbrains/letsPlot/core/spec/config/ThemeConfig.kt:27 | the name setting when present (a string as it is), else the minimal theme's name |
| ThemeConfig.NewThemeConfig | plot-stem/src/commonMain/kotlin/org/jetbrains/letsPlot/core/spec/config/ThemeConfig.kt:25-40 | succeeds iff every setting converts; the options then have the settings' keys, each holding its setting's converted value, and the theme name above |
| OptionsAccessor.GetStringSafe | plot-config-portable/src/commonMain/kotlin/jetbrains/datalore/plot/config/FacetConfig.kt:22 | a required option is an error exactly when it is missing; a string option is returned as it is |
| OptionsAccessor.GetAsStringList | plot-config-portable/src/commonMain/kotlin/jetbrains/datalore/plot/config/FacetConfig.kt:66-67 | a missing option gives no names, a single value gives a one-name list, and a list gives exactly the texts of its non-null items |
| OptionsAccessor.NonNullTexts | plot-config-portable/src/commonMain/kotlin/jetbrains/datalore/plot/config/FacetConfig.kt:66-67 | a text is listed iff some non-null item has it, with at most one text per item |
| OptionsAccessor.NonNullTextsAppend | plot-config-portable/src/commonMain/kotlin/jetbrains/datalore/plot/config/FacetConfig.kt:66-67 | the texts keep the items' order: a concatenation gives the texts of each part, one after the other |
| OptionsAccessor.GetInteger | plot-config-portable/src/commonMain/kotlin/jetbrains/datalore/plot/config/FacetConfig.kt:69-70 | absent is no value, a non-number is an error, and a number gives its integer part |
| OptionsAccessor.GetBoolean | plot-config-portable/src/commonMain/kotlin/jetbrains/datalore/plot/config/CoordProto.kt:30 | true exactly when the option is the boolean true |
| OptionsAccessor.GetDouble | plot-config-portable/src/commonMain/kotlin/jetbrains/datalore/plot/config/CoordProto.kt:33 | absent is no value, a non-number is an error, and a number is returned as it is |
| OptionsAccessor.GetString | plot-config-portable/src/commonMain/kotlin/jetbrains/datalore/plot/config/CoordProto.kt:35 | no value exactly when the option is absent |
| FacetConfig.ToOrderVal | plot-config-portable/src/commonMain/kotlin/jetbrains/datalore/plot/config/FacetConfig.kt:110-119 | null is the default direction, a number its integer part, and anything else an illegal argument |
| FacetConfig.ToOrderVals | plot-config-portable/src/commonMain/kotlin/jetbrains/datalore/plot/config/FacetConfig.kt:87 | succeeds iff every element converts, and then gives each element's value in order |
| FacetConfig.OrderList | plot-config-portable/src/commonMain/kotlin/jetbrains/datalore/plot/config/FacetConfig.kt:84-92 | no order option gives an empty list; a list converts element-wise; a single value gives a one-element list |
| FacetConfig.PadOrderList | plot-config-portable/src/commonMain/kotlin/jetbrains/datalore/plot/config/FacetConfig.kt:94-101 | the result has one entry per facet: the given order where there is one, else the default direction |
| FacetConfig.DirOption | plot-config-portable/src/commonMain/kotlin/jetbrains/datalore/plot/config/FacetConfig.kt:121-133 | absent is horizontal; "V" or "H" after upper-casing select the direction; any other value is an illegal argument |
| FacetConfig.DirCaseInsensitive | plot-config-portable/src/commonMain/kotlin/jetbrains/datalore/plot/config/FacetConfig.kt:124-125 | for every string, the string, its lower-case form and its upper-case form select the same direction (or the same error) |
| FacetConfig.AddAllIsDistinct | plot-config-portable/src/commonMain/kotlin/jetbrains/datalore/plot/config/FacetConfig.kt:39 | adding values to a first-seen distinct list gives the distinct list of the concatenation |
| FacetConfig.DistinctOfDistinct | plot-config-portable/src/commonMain/kotlin/jetbrains/datalore/plot/config/FacetConfig.kt:39 | adding the distinct values of a column is the same as adding the whole column |
| FacetConfig.DistinctValues | plot-config-portable/src/commonMain/kotlin/jetbrains/datalore/plot/config/FacetConfig.kt:39 | a variable's distinct values hold no duplicates and are exactly its non-null values |
| FacetConfig.GridLevelsFirstSeen | plot-config-portable/src/commonMain/kotlin/jetbrains/datalore/plot/config/FacetConfig.kt:33-41 | a grid axis's levels are the distinct non-null values over the layers holding the variable, first seen first: no duplicates, never null, and a value is a level iff it is non-null and occurs in one of those layers |
| FacetConfig.WrapLevels | plot-config-portable/src/commonMain/kotlin/jetbrains/datalore/plot/config/FacetConfig.kt:74-80 | a wrap facet's levels never contain null |
| FacetConfig.WrapLevelsAreValues | plot-config-portable/src/commonMain/kotlin/jetbrains/datalore/plot/config/FacetConfig.kt:74-80 | a value is a level iff it is non-null and occurs in a layer holding the variable |
| FacetConfig.AddDistinct | plot-config-portable/src/commonMain/kotlin/jetbrains/datalore/plot/config/FacetConfig.kt:39 | the loop adds the column's distinct non-null values to the linked set, in first-seen order |
| FacetConfig.CollectGridAxis | plot-config-portable/src/commonMain/kotlin/jetbrains/datalore/plot/config/FacetConfig.kt:32-42 | no option gives no name and no levels; otherwise the required name and the grid levels of that variable, which never hold null |
| FacetConfig.CollectWrapLevels | plot-config-portable/src/commonMain/kotlin/jetbrains/datalore/plot/config/FacetConfig.kt:73-82 | the loop over the layers collects exactly the wrap levels |
| FacetConfig.FacetKinds | plot-config-portable/src/commonMain/kotlin/jetbrains/datalore/plot/config/FacetConfig.kt:21-27 | a grid comes only from the name "grid", a wrap only from "wrap", and any other name is an illegal argument |
| FacetConfig.GridAxes | plot-config-portable/src/commonMain/kotlin/jetbrains/datalore/plot/config/FacetConfig.kt:29-61 | each grid axis without its option has no name and no levels; with it, the distinct non-null layer values first seen first, null never among them |
| FacetConfig.WrapShape | plot-config-portable/src/commonMain/kotlin/jetbrains/datalore/plot/config/FacetConfig.kt:63-103 | one level set and one order per facet; levels are the non-null layer values; orders are the given ones padded with the default |
| FacetConfig.CreateGrid | plot-config-portable/src/commonMain/kotlin/jetbrains/datalore/plot/config/FacetConfig.kt:29-61 | the method computes the grid specification, whose levels are the non-null distinct values `GridAxes` describes |
| FacetConfig.CreateWrap | plot-config-portable/src/commonMain/kotlin/jetbrains/datalore/plot/config/FacetConfig.kt:63-103 | the method computes the wrap specification |
| FacetConfig.CreateFacets | plot-config-portable/src/commonMain/kotlin/jetbrains/datalore/plot/config/FacetConfig.kt:21-27 | the method computes the facets chosen by name |
| CoordProto.ProjectionOf | plot-config-portable/src/commonMain/kotlin/jetbrains/datalore/plot/config/CoordProto.kt:35-41 | "identity", "conic" and "azimuthal" select their projections, and every other name or none gives mercator |
| CoordProto.CreateCoordProvider | plot-config-portable/src/commonMain/kotlin/jetbrains/datalore/plot/config/CoordProto.kt:24-48 | cartesian carries the limits and the flip flag; fixed carries the ratio option's number, and a non-number ratio is an illegal argument; map carries the projection its option names; "flip" is an illegal state; an unknown name is an illegal argument; a provider keeps the limits |
| CoordProto.FlipPassedThrough | plot-config-portable/src/commonMain/kotlin/jetbrains/datalore/plot/config/CoordProto.kt:30-43 | every provider built carries the flip option |
| CoordProto.ProviderKinds | plot-config-portable/src/commonMain/kotlin/jetbrains/datalore/plot/config/CoordProto.kt:31-47 | a provider is built only for the three concrete names, and its kind follows the name |
| CoordProto.FixedRatioDefault | plot-config-portable/src/commonMain/kotlin/jetbrains/datalore/plot/config/CoordProto.kt:33 | a fixed system without a ratio has ratio 1 |
| CoordProto.MapProjectionByName | plot-config-portable/src/commonMain/kotlin/jetbrains/datalore/plot/config/CoordProto.kt:35-42 | a map's projection is identity, conic or azimuthal exactly when the projection option names it, and mercator otherwise |
| CoordProto.MapDefaultsToMercator | plot-config-portable/src/commonMain/kotlin/jetbrains/datalore/plot/config/CoordProto.kt:35-41 | a map without a projection option uses mercator |
| BogusFrameOfReferenceProvider.BogusFrameOfReferenceProvider.HAxisLabel | plot-builder-portable/src/commonMain/kotlin/jetbrains/datalore/plot/builder/BogusFrameOfReferenceProvider.kt:13 | there is no horizontal axis label |
| BogusFrameOfReferenceProvider.BogusFrameOfReferenceProvider.VAxisLabel | plot-builder-portable/src/commonMain/kotlin/jetbrains/datalore/plot/builder/BogusFrameOfReferenceProvider.kt:14 | there is no vertical axis label |
| BogusFrameOfReferenceProvider.BogusFrameOfReferenceProvider.FlipAxis | plot-builder-portable/src/commonMain/kotlin/jetbrains/datalore/plot/builder/BogusFrameOfReferenceProvider.kt:16 | axes are never flipped |
| BogusFrameOfReferenceProvider.BogusFrameOfReferenceProvider.CreateTileLayoutProvider | plot-builder-portable/src/commonMain/kotlin/jetbrains/datalore/plot/builder/BogusFrameOfReferenceProvider.kt:18-20 | always an illegal state |
| BogusFrameOfReferenceProvider.BogusFrameOfReferenceProvider.CreateTileFrame | plot-builder-portable/src/commonMain/kotlin/jetbrains/datalore/plot/builder/BogusFrameOfReferenceProvider.kt:22-28 | the inert frame, whatever the inputs |
| BogusFrameOfReferenceProvider.BogusFrameOfReferenceProvider.CreateMarginalFrames | plot-builder-portable/src/commonMain/kotlin/jetbrains/datalore/plot/builder/BogusFrameOfReferenceProvider.kt:30-36 | no marginal frames |
| DomMouseEventMapper.ToMouseEvent | platf-w3c/src/jsMain/kotlin/org/jetbrains/letsPlot/platf/w3c/mapping/dom/DomMouseEventMapper.kt:73-86 | the plot event's position is the client point less the element's client origin and the bounds origin, truncated toward zero; button, modifiers and wheel delta are carried over |
| DomMouseEventMapper.HoverDispatch | platf-w3c/src/jsMain/kotlin/org/jetbrains/letsPlot/platf/w3c/mapping/dom/DomMouseEventMapper.kt:124-131 | hovering with no button held dispatches for every event except release, click and press |
| DomMouseEventMapper.PressFromHover | platf-w3c/src/jsMain/kotlin/org/jetbrains/letsPlot/platf/w3c/mapping/dom/DomMouseEventMapper.kt:112-116 | a press from hover dispatches "pressed" and enters button-down at the press point |
| DomMouseEventMapper.ForeignDragFromHover | platf-w3c/src/jsMain/kotlin/org/jetbrains/letsPlot/platf/w3c/mapping/dom/DomMouseEventMapper.kt:118-122 | any other event with a button held enters foreign dragging and dispatches nothing |
| DomMouseEventMapper.SilentStates | platf-w3c/src/jsMain/kotlin/org/jetbrains/letsPlot/platf/w3c/mapping/dom/DomMouseEventMapper.kt:162-191 | dragging and foreign dragging dispatch no element events; foreign dragging returns to hover once no button is held; dragging ignores element events |
| DomMouseEventMapper.ButtonDownMoves | platf-w3c/src/jsMain/kotlin/org/jetbrains/letsPlot/platf/w3c/mapping/dom/DomMouseEventMapper.kt:140-159 | from button-down, release dispatches and stays, click returns to hover, a move past the trigger distance starts dragging, nothing else happens |
| DomMouseEventMapper.FurtherThanIsDistance | platf-w3c/src/jsMain/kotlin/org/jetbrains/letsPlot/platf/w3c/mapping/dom/DomMouseEventMapper.kt:153 | the squared comparison agrees with comparing the distance to the press point |
| DomMouseEventMapper.StepAfterPress | platf-w3c/src/jsMain/kotlin/org/jetbrains/letsPlot/platf/w3c/mapping/dom/DomMouseEventMapper.kt:110-191 | a release, click or drag is dispatched only while a button is held, and a button becomes held only by a press |
| DomMouseEventMapper.PressComesFirst | platf-w3c/src/jsMain/kotlin/org/jetbrains/letsPlot/platf/w3c/mapping/dom/DomMouseEventMapper.kt:110-191 | over any series of element events from hover, every release, click or drag comes after a press |
| DomMouseEventMapper.Specs | platf-w3c/src/jsMain/kotlin/org/jetbrains/letsPlot/platf/w3c/mapping/dom/DomMouseEventMapper.kt:88 | the specs of the dispatched events, in order |
| DomMouseEventMapper.DomMouseEventMapper.constructor | platf-w3c/src/jsMain/kotlin/org/jetbrains/letsPlot/platf/w3c/mapping/dom/DomMouseEventMapper.kt:26-49 | starts in hover with nothing dispatched |
| DomMouseEventMapper.DomMouseEventMapper.Dispatch | platf-w3c/src/jsMain/kotlin/org/jetbrains/letsPlot/platf/w3c/mapping/dom/DomMouseEventMapper.kt:60-93 | appends the translated event with its spec, and the state is unchanged |
| DomMouseEventMapper.DomMouseEventMapper.OnElementEvent | platf-w3c/src/jsMain/kotlin/org/jetbrains/letsPlot/platf/w3c/mapping/dom/DomMouseEventMapper.kt:51-58 | an event outside the bounds is dropped; otherwise the state takes its transition and the event is dispatched when the transition says so; a held button still implies a press was dispatched |
| DomMouseEventMapper.DomMouseEventMapper.HoverHandle | platf-w3c/src/jsMain/kotlin/org/jetbrains/letsPlot/platf/w3c/mapping/dom/DomMouseEventMapper.kt:110-133 | the hover state's handler performs the hover transition |
| DomMouseEventMapper.DomMouseEventMapper.OnDocumentMouseMove | platf-w3c/src/jsMain/kotlin/org/jetbrains/letsPlot/platf/w3c/mapping/dom/DomMouseEventMapper.kt:168-170 | while dragging, a document move dispatches "dragged"; otherwise nothing happens |
| DomMouseEventMapper.DomMouseEventMapper.OnDocumentMouseUp | platf-w3c/src/jsMain/kotlin/org/jetbrains/letsPlot/platf/w3c/mapping/dom/DomMouseEventMapper.kt:172-176 | while dragging, a document release dispatches "released" and returns to hover; otherwise nothing happens |
| PlotPanelFigureModel.RemoveFirst | platf-awt/src/jvmMain/kotlin/org/jetbrains/letsPlot/awt/plot/component/PlotPanelFigureModel.kt:73 | removes one occurrence of the interaction when present, and changes nothing otherwise |
| PlotPanelFigureModel.Process | platf-awt/src/jvmMain/kotlin/org/jetbrains/letsPlot/awt/plot/component/PlotPanelFigureModel.kt:64-81 | fails with an illegal state exactly for an event that is neither an activation nor a deactivation; otherwise the handler, if any, receives the event |
| PlotPanelFigureModel.ActivationAppends | platf-awt/src/jvmMain/kotlin/org/jetbrains/letsPlot/awt/plot/component/PlotPanelFigureModel.kt:68-70 | an activation appends the interaction to its origin's list, creating the list, and leaves other origins alone |
| PlotPanelFigureModel.DeactivationRemovesOne | platf-awt/src/jvmMain/kotlin/org/jetbrains/letsPlot/awt/plot/component/PlotPanelFigureModel.kt:72-74 | a deactivation removes one occurrence from an existing list, never adds an origin, and an unknown origin or interaction changes nothing |
| PlotPanelFigureModel.ActivateThenDeactivate | platf-awt/src/jvmMain/kotlin/org/jetbrains/letsPlot/awt/plot/component/PlotPanelFigureModel.kt:64-81 | deactivating what was just activated restores the origin's interactions as a multiset |
| PlotPanelFigureModel.OriginPairs | platf-awt/src/jvmMain/kotlin/org/jetbrains/letsPlot/awt/plot/component/PlotPanelFigureModel.kt:51-53 | pairs one origin with each of its interactions, in order |
| PlotPanelFigureModel.PairsMembers | platf-awt/src/jvmMain/kotlin/org/jetbrains/letsPlot/awt/plot/component/PlotPanelFigureModel.kt:50-54 | the snapshot holds exactly the recorded (origin, interaction) pairs |
| PlotPanelFigureModel.Responses | platf-awt/src/jvmMain/kotlin/org/jetbrains/letsPlot/awt/plot/component/PlotPanelFigureModel.kt:56-61 | at most one response per pair |
| PlotPanelFigureModel.ResponsesOf | platf-awt/src/jvmMain/kotlin/org/jetbrains/letsPlot/awt/plot/component/PlotPanelFigureModel.kt:56-61 | the loop collects the dispatcher's non-null responses, pair by pair |
| PlotPanelFigureModel.PlotPanelFigureModel.constructor | platf-awt/src/jvmMain/kotlin/org/jetbrains/letsPlot/awt/plot/component/PlotPanelFigureModel.kt:20-34 | no handler, no active interactions, the given dispatcher |
| PlotPanelFigureModel.PlotPanelFigureModel.OnToolEvent | platf-awt/src/jvmMain/kotlin/org/jetbrains/letsPlot/awt/plot/component/PlotPanelFigureModel.kt:36-38 | the callback replaces the handler and nothing else changes |
| PlotPanelFigureModel.PlotPanelFigureModel.ProcessToolEvent | platf-awt/src/jvmMain/kotlin/org/jetbrains/letsPlot/awt/plot/component/PlotPanelFigureModel.kt:64-81 | the new state is the processed one, and a failure leaves the state as it was |
| PlotPanelFigureModel.PlotPanelFigureModel.ProcessEvents | platf-awt/src/jvmMain/kotlin/org/jetbrains/letsPlot/awt/plot/component/PlotPanelFigureModel.kt:44-46 | the events are processed in order; on success the state is the fold's, and on a failure the earlier events' effects stay, the failing event changed nothing, and its error is returned |
| PlotPanelFigureModel.PlotPanelFigureModel.ActivateInteraction | platf-awt/src/jvmMain/kotlin/org/jetbrains/letsPlot/awt/plot/component/PlotPanelFigureModel.kt:40-47 | without a dispatcher nothing happens; otherwise the dispatcher's responses are processed in order, and a failure keeps the effects of the responses before it |
| PlotPanelFigureModel.PlotPanelFigureModel.DeactivateInteractions | platf-awt/src/jvmMain/kotlin/org/jetbrains/letsPlot/awt/plot/component/PlotPanelFigureModel.kt:49-62 | the recorded pairs are snapshotted first and every non-null deactivation response is processed in order, whatever origin is passed; a failure keeps the effects of the responses before it |
| PlotPanelFigureModel.PlotPanelFigureModel.RebuildPlotComponent | platf-awt/src/jvmMain/kotlin/org/jetbrains/letsPlot/awt/plot/component/PlotPanelFigureModel.kt:87-104 | with a sized panel the dispatcher becomes the new component's; the interactions and handler are kept |
| CompositeFigureBuildInfo.NonNullMembers | plot-stem/src/commonMain/kotlin/org/jetbrains/letsPlot/core/util/CompositeFigureBuildInfo.kt:83 | an element is among the present ones iff it occurs in the list |
| CompositeFigureBuildInfo.AnyLiveMap | plot-stem/src/commonMain/kotlin/org/jetbrains/letsPlot/core/util/CompositeFigureBuildInfo.kt:33 | true iff some element holds a live map |
| CompositeFigureBuildInfo.UnionAllBounds | plot-stem/src/commonMain/kotlin/org/jetbrains/letsPlot/core/util/CompositeFigureBuildInfo.kt:85 | the union of the geometry areas covers each of them, and each of its edges is some area's edge |
| CompositeFigureBuildInfo.GeomAreas | plot-stem/src/commonMain/kotlin/org/jetbrains/letsPlot/core/util/CompositeFigureBuildInfo.kt:83-85 | the geometry area of each present element, in order |
| CompositeFigureBuildInfo.ElementsBounds | plot-stem/src/commonMain/kotlin/org/jetbrains/letsPlot/core/util/CompositeFigureBuildInfo.kt:70-80 | the element area starts at the left and top margins and ends the right and bottom margins short of the outer size |
| CompositeFigureBuildInfo.ElementsWithinFigure | plot-stem/src/commonMain/kotlin/org/jetbrains/letsPlot/core/util/CompositeFigureBuildInfo.kt:70-80 | with non-negative margins the element area lies within the figure |
| CompositeFigureBuildInfo.LayoutCoversElements | plot-stem/src/commonMain/kotlin/org/jetbrains/letsPlot/core/util/CompositeFigureBuildInfo.kt:83-94 | the laid-out geometry area covers every present element's area |
| CompositeFigureBuildInfo.CompositeFigureBuildInfo.constructor | plot-stem/src/commonMain/kotlin/org/jetbrains/letsPlot/core/util/CompositeFigureBuildInfo.kt:19-35 | keeps its arguments and is not laid out |
| CompositeFigureBuildInfo.CompositeFigureBuildInfo.IsComposite | plot-stem/src/commonMain/kotlin/org/jetbrains/letsPlot/core/util/CompositeFigureBuildInfo.kt:27 | always a composite |
| CompositeFigureBuildInfo.CompositeFigureBuildInfo.ContainsLiveMap | plot-stem/src/commonMain/kotlin/org/jetbrains/letsPlot/core/util/CompositeFigureBuildInfo.kt:32-33 | true iff some present element holds a live map |
| CompositeFigureBuildInfo.CompositeFigureBuildInfo.WithBounds | plot-stem/src/commonMain/kotlin/org/jetbrains/letsPlot/core/util/CompositeFigureBuildInfo.kt:54-67 | equal bounds give this very figure; other bounds a new figure that is not laid out and keeps everything else |
| CompositeFigureBuildInfo.CompositeFigureBuildInfo.LayoutedByOuterSize | plot-stem/src/commonMain/kotlin/org/jetbrains/letsPlot/core/util/CompositeFigureBuildInfo.kt:69-96 | the layout is run within the element area; with no present element it fails as unsupported; otherwise a new figure holds the laid-out elements, the outer size and the union of their geometry areas |
| CompositeFigureBuildInfo.CompositeFigureBuildInfo.LayoutedByGeomBounds | plot-stem/src/commonMain/kotlin/org/jetbrains/letsPlot/core/util/CompositeFigureBuildInfo.kt:98-100 | always unsupported |
| CompositeFigureBuildInfo.CompositeFigureBuildInfo.WithPreferredSize | plot-stem/src/commonMain/kotlin/org/jetbrains/letsPlot/core/util/CompositeFigureBuildInfo.kt:102-110 | a new figure of the given size at the origin, not laid out, keeping everything else |
| CompositeFigureBuildInfo.CompositeFigureBuildInfo.CreateSvgRoot | plot-stem/src/commonMain/kotlin/org/jetbrains/letsPlot/core/util/CompositeFigureBuildInfo.kt:44-52 | fails with an illegal state exactly when not laid out; otherwise a root of exactly the present elements, in order and with repeats, with the figure's theme, bounds and size |
| GeomContextBuilder.MyGeomContext.GetResolution | plot-builder/src/commonMain/kotlin/org/jetbrains/letsPlot/core/plot/builder/assemble/GeomContextBuilder.kt:102-112 | the aesthetic's resolution when above the tiny threshold, and 1 otherwise (also without aesthetics); never at or below the threshold |
| GeomContextBuilder.MyGeomContext.IsMappedAes | plot-builder/src/commonMain/kotlin/org/jetbrains/letsPlot/core/plot/builder/assemble/GeomContextBuilder.kt:114-116 | true iff mappers are set and include the aesthetic |
| GeomContextBuilder.MyGeomContext.EstimateTextSize | plot-builder/src/commonMain/kotlin/org/jetbrains/letsPlot/core/plot/builder/assemble/GeomContextBuilder.kt:118-137 | an illegal state exactly without a font-family registry; otherwise the text's dimensions in the registry's family at the truncated size |
| GeomContextBuilder.MyGeomContext.GetAesBounds | plot-builder/src/commonMain/kotlin/org/jetbrains/letsPlot/core/plot/builder/assemble/GeomContextBuilder.kt:139-142 | an illegal state exactly when the bounds are not set; otherwise those bounds |
| GeomContextBuilder.WithTargetCollector | plot-builder/src/commonMain/kotlin/org/jetbrains/letsPlot/core/plot/builder/assemble/GeomContextBuilder.kt:144-152 | the same context with only the collector replaced and the font-family registry dropped; resolution, mapping and bounds answers are unchanged |
| GeomContextBuilder.GeomContextBuilder.constructor | plot-builder/src/commonMain/kotlin/org/jetbrains/letsPlot/core/plot/builder/assemble/GeomContextBuilder.kt:23-33 | not flipped, the null collector, a white background and nothing else set |
| GeomContextBuilder.GeomContextBuilder.FromContext | plot-builder/src/commonMain/kotlin/org/jetbrains/letsPlot/core/plot/builder/assemble/GeomContextBuilder.kt:35-43 | copies every field of the context except the font-family registry |
| GeomContextBuilder.GeomContextBuilder.Flipped | plot-builder/src/commonMain/kotlin/org/jetbrains/letsPlot/core/plot/builder/assemble/GeomContextBuilder.kt:45-48 | sets the flip flag only and returns the same builder |
| GeomContextBuilder.GeomContextBuilder.SetAesthetics | plot-builder/src/commonMain/kotlin/org/jetbrains/letsPlot/core/plot/builder/assemble/GeomContextBuilder.kt:50-53 | sets the aesthetics only and returns the same builder |
| GeomContextBuilder.GeomContextBuilder.SetAestheticMappers | plot-builder/src/commonMain/kotlin/org/jetbrains/letsPlot/core/plot/builder/assemble/GeomContextBuilder.kt:55-58 | sets the mappers only and returns the same builder |
| GeomContextBuilder.GeomContextBuilder.SetAesBounds | plot-builder/src/commonMain/kotlin/org/jetbrains/letsPlot/core/plot/builder/assemble/GeomContextBuilder.kt:60-63 | sets the bounds only and returns the same builder |
| GeomContextBuilder.GeomContextBuilder.SetGeomTargetCollector | plot-builder/src/commonMain/kotlin/org/jetbrains/letsPlot/core/plot/builder/assemble/GeomContextBuilder.kt:65-68 | sets the collector only and returns the same builder |
| GeomContextBuilder.GeomContextBuilder.SetFontFamilyRegistry | plot-builder/src/commonMain/kotlin/org/jetbrains/letsPlot/core/plot/builder/assemble/GeomContextBuilder.kt:70-73 | sets the registry only and returns the same builder |
| GeomContextBuilder.GeomContextBuilder.SetAnnotations | plot-builder/src/commonMain/kotlin/org/jetbrains/letsPlot/core/plot/builder/assemble/GeomContextBuilder.kt:75-78 | sets the annotations only and returns the same builder |
| GeomContextBuilder.GeomContextBuilder.SetPlotBackground | plot-builder/src/commonMain/kotlin/org/jetbrains/letsPlot/core/plot/builder/assemble/GeomContextBuilder.kt:80-83 | sets the background only and returns the same builder |
| GeomContextBuilder.GeomContextBuilder.Build | plot-builder/src/commonMain/kotlin/org/jetbrains/letsPlot/core/plot/builder/assemble/GeomContextBuilder.kt:85-100 | the context holds the builder's current fields |
| GeomHelper.GeomHelper.ToClient | plot-base/src/commonMain/kotlin/org/jetbrains/letsPlot/core/plot/base/geom/util/GeomHelper.kt:28-35 | a location is position-adjusted before the coordinate system maps it, and the result is absent where the coordinate system rejects it |
| GeomHelper.GeomHelper.Adjust | plot-base/src/commonMain/kotlin/org/jetbrains/letsPlot/core/plot/base/geom/util/GeomHelper.kt:76-85 | the adjusted rectangle spans the two adjusted corners: its edges are their minima and maxima, so it never has a negative side |
| GeomHelper.GeomHelper.ToClientRect | plot-base/src/commonMain/kotlin/org/jetbrains/letsPlot/core/plot/base/geom/util/GeomHelper.kt:37-49 | absent iff the coordinate system rejects the adjusted rectangle; otherwise the same origin, with a zero width or height raised to 0.1 and other sides kept |
| GeomHelper.GeomHelper.ToClientPoint | plot-base/src/commonMain/kotlin/org/jetbrains/letsPlot/core/plot/base/geom/util/GeomHelper.kt:60-66 | absent when the aesthetics give no location; otherwise the location's client point |
| GeomHelper.GeomHelper.ToClientRectOf | plot-base/src/commonMain/kotlin/org/jetbrains/letsPlot/core/plot/base/geom/util/GeomHelper.kt:68-74 | absent when the aesthetics give no rectangle; otherwise the rectangle's client rectangle |
| GeomHelper.GeomHelper.ToClientLocation | plot-base/src/commonMain/kotlin/org/jetbrains/letsPlot/core/plot/base/geom/util/GeomHelper.kt:104-108 | the returned function gives each data point's client point |
| GeomHelper.GeomHelper.Project | plot-base/src/commonMain/kotlin/org/jetbrains/letsPlot/core/plot/base/geom/util/GeomHelper.kt:87-102 | the loop collects the client points of the data points that project and map, in order |
| GeomHelper.GeomHelper.ProjectedAppend | plot-base/src/commonMain/kotlin/org/jetbrains/letsPlot/core/plot/base/geom/util/GeomHelper.kt:87-102 | projection keeps the order of the data points: it distributes over concatenation |
| GeomHelper.GeomHelper.ProjectedLength | plot-base/src/commonMain/kotlin/org/jetbrains/letsPlot/core/plot/base/geom/util/GeomHelper.kt:87-102 | at most one point per data point, and exactly one each iff every data point maps |
| GeomHelper.GeomHelper.ProjectedMembers | plot-base/src/commonMain/kotlin/org/jetbrains/letsPlot/core/plot/base/geom/util/GeomHelper.kt:87-102 | a point is in the result iff some data point's client point is that point |
| ColorGradient2MapperProvider.New | visualization-plot-gog/src/commonMain/kotlin/visualization/plot/gog/plot/scale/provider/ColorGradient2MapperProvider.kt:15-27 | missing colours take the muted-red, white and muted-blue defaults and a missing midpoint is 0 |
| ColorGradient2MapperProvider.LowDomain | visualization-plot-gog/src/commonMain/kotlin/visualization/plot/gog/plot/scale/provider/ColorGradient2MapperProvider.kt:32 | the low interval runs from the domain's lower end to the larger of the midpoint and that end |
| ColorGradient2MapperProvider.HighDomain | visualization-plot-gog/src/commonMain/kotlin/visualization/plot/gog/plot/scale/provider/ColorGradient2MapperProvider.kt:33 | the high interval runs from the smaller of the midpoint and the domain's upper end to that end |
| ColorGradient2MapperProvider.SubDomains | visualization-plot-gog/src/commonMain/kotlin/visualization/plot/gog/plot/scale/provider/ColorGradient2MapperProvider.kt:32-33 | both intervals are well formed, together they cover the domain, and they meet at the midpoint when it lies inside |
| ColorGradient2MapperProvider.RangeMap | visualization-plot-gog/src/commonMain/kotlin/visualization/plot/gog/plot/scale/provider/ColorGradient2MapperProvider.kt:38-41 | two entries in order, low then high, except that equal intervals collapse into the high entry |
| ColorGradient2MapperProvider.SameSubDomains | visualization-plot-gog/src/commonMain/kotlin/visualization/plot/gog/plot/scale/provider/ColorGradient2MapperProvider.kt:38-41 | the two intervals coincide only for a one-point domain at the midpoint |
| ColorGradient2MapperProvider.Ranges | visualization-plot-gog/src/commonMain/kotlin/visualization/plot/gog/plot/scale/provider/ColorGradient2MapperProvider.kt:47 | the intervals of the entries, in order |
| ColorGradient2MapperProvider.GetMapper | visualization-plot-gog/src/commonMain/kotlin/visualization/plot/gog/plot/scale/provider/ColorGradient2MapperProvider.kt:43-63 | no gradient for a non-finite input; otherwise the loop settles on the interval the search over the range map picks |
| ColorGradient2MapperProvider.PickedContains | visualization-plot-gog/src/commonMain/kotlin/visualization/plot/gog/plot/scale/provider/ColorGradient2MapperProvider.kt:47-59 | the chosen interval contains the value, and one is chosen iff some interval contains it |
| ColorGradient2MapperProvider.PickedShortest | visualization-plot-gog/src/commonMain/kotlin/visualization/plot/gog/plot/scale/provider/ColorGradient2MapperProvider.kt:50-58 | when some interval of positive length holds the value, the choice has positive length and is no longer than any such interval |
| ColorGradient2MapperProvider.CreateContinuousMapper | visualization-plot-gog/src/commonMain/kotlin/visualization/plot/gog/plot/scale/provider/ColorGradient2MapperProvider.kt:65-70 | a non-finite input gets the "no value" colour, and every input gets the colour of the chosen gradient |
| ColorGradient2MapperProvider.OutsideIsNaValue | visualization-plot-gog/src/commonMain/kotlin/visualization/plot/gog/plot/scale/provider/ColorGradient2MapperProvider.kt:65-68 | a finite value outside both intervals gets the "no value" colour |
| ColorGradient2MapperProvider.SidesOfMidpoint | visualization-plot-gog/src/commonMain/kotlin/visualization/plot/gog/plot/scale/provider/ColorGradient2MapperProvider.kt:32-68 | a domain value below the midpoint is coloured on the low-to-mid gradient and one above it on the mid-to-high gradient |
| ColorGradient2MapperProvider.AtMidpoint | visualization-plot-gog/src/commonMain/kotlin/visualization/plot/gog/plot/scale/provider/ColorGradient2MapperProvider.kt:47-59 | at a midpoint strictly inside the domain, the shorter interval wins and the low one wins a tie |
| PlotConfigScaleProviders.ConfiguredProvidersLast | plot-config-portable/src/commonMain/kotlin/jetbrains/datalore/plot/config/PlotConfigScaleProviders.kt:21-27 | an aesthetic has a configured provider iff some configuration is for it, and it is the provider of the last such configuration |
| PlotConfigScaleProviders.DateTimeAes | plot-config-portable/src/commonMain/kotlin/jetbrains/datalore/plot/config/PlotConfigScaleProviders.kt:35-38 | an aesthetic is listed iff some binding of it is to a date-time variable |
| PlotConfigScaleProviders.DateTimeAxisAes | plot-config-portable/src/commonMain/kotlin/jetbrains/datalore/plot/config/PlotConfigScaleProviders.kt:41-44 | x is listed iff some date-time aesthetic is positional along x, y likewise, and nothing else is listed |
| PlotConfigScaleProviders.WithoutKeys | plot-config-portable/src/commonMain/kotlin/jetbrains/datalore/plot/config/PlotConfigScaleProviders.kt:48 | keeps exactly the aesthetics without a provider yet, and keeps them distinct |
| PlotConfigScaleProviders.AddDateTimeEntries | plot-config-portable/src/commonMain/kotlin/jetbrains/datalore/plot/config/PlotConfigScaleProviders.kt:46-52 | each candidate gets a date-time provider with its default scale name, and every other entry is kept |
| PlotConfigScaleProviders.AssociateProviders | plot-config-portable/src/commonMain/kotlin/jetbrains/datalore/plot/config/PlotConfigScaleProviders.kt:56-69 | every mapped aesthetic and both axes get the provider of their scale aesthetic, or its default provider |
| PlotConfigScaleProviders.CreateScaleProviders | plot-config-portable/src/commonMain/kotlin/jetbrains/datalore/plot/config/PlotConfigScaleProviders.kt:15-70 | the loops build the provider map the specification function describes |
| PlotConfigScaleProviders.ConfiguredWins | plot-config-portable/src/commonMain/kotlin/jetbrains/datalore/plot/config/PlotConfigScaleProviders.kt:24-27 | a configured provider is never replaced: the aesthetic gets the provider of the last configuration for its scale aesthetic |
| PlotConfigScaleProviders.UnconfiguredProvider | plot-config-portable/src/commonMain/kotlin/jetbrains/datalore/plot/config/PlotConfigScaleProviders.kt:35-69 | without a configuration, an aesthetic gets a date-time provider when its scale aesthetic is date-time (directly or as an axis) and the default provider otherwise |
| PlotSvgExport.IndexOf | plot-config-portable/src/commonMain/kotlin/jetbrains/datalore/plot/PlotSvgExport.kt:101 | the first occurrence of the pattern, or none exactly when the pattern does not occur |
| PlotSvgExport.Split | plot-config-portable/src/commonMain/kotlin/jetbrains/datalore/plot/PlotSvgExport.kt:77-79 | splitting always gives at least one piece |
| PlotSvgExport.SplitJoin | plot-config-portable/src/commonMain/kotlin/jetbrains/datalore/plot/PlotSvgExport.kt:77-79 | joining the pieces with the delimiter gives the text back |
| PlotSvgExport.FirstPiece | plot-config-portable/src/commonMain/kotlin/jetbrains/datalore/plot/PlotSvgExport.kt:92 | the first piece is the longest prefix without the delimiter, and there is a second piece iff the delimiter occurs |
| PlotSvgExport.GetBunchItemSvgStyle | plot-config-portable/src/commonMain/kotlin/jetbrains/datalore/plot/PlotSvgExport.kt:76-84 | fails with an index error exactly when the image has no style opening tag |
| PlotSvgExport.SecondPieceCut | plot-config-portable/src/commonMain/kotlin/jetbrains/datalore/plot/PlotSvgExport.kt:78-79 | the first piece of the second piece is the text after the first delimiter up to the next delimiter of either kind |
| PlotSvgExport.StyleBetweenTags | plot-config-portable/src/commonMain/kotlin/jetbrains/datalore/plot/PlotSvgExport.kt:76-84 | the style is re-wrapped in a style element and is the text right after the first opening style tag, up to the next opening or closing style tag |
| PlotSvgExport.TransformBunchItemSvg | plot-config-portable/src/commonMain/kotlin/jetbrains/datalore/plot/PlotSvgExport.kt:87-104 | an image without a closing style tag is an index error, and the only failures are index errors and a size that cannot be read |
| PlotSvgExport.TransformedRootGroup | plot-config-portable/src/commonMain/kotlin/jetbrains/datalore/plot/PlotSvgExport.kt:93-102 | the translated item is a translated group opening followed by what follows the first group opening of the root group, which is the text after the first closing style tag up to the next closing style or svg tag |
| PlotSvgExport.TransformedSize | plot-config-portable/src/commonMain/kotlin/jetbrains/datalore/plot/PlotSvgExport.kt:92-97 | the size is read from the text before the first opening style tag |
| PlotSvgExport.Zip | plot-config-portable/src/commonMain/kotlin/jetbrains/datalore/plot/PlotSvgExport.kt:59 | pairs images with bunch items up to the shorter length, in order |
| PlotSvgExport.BunchOfItems | plot-config-portable/src/commonMain/kotlin/jetbrains/datalore/plot/PlotSvgExport.kt:56-65 | one translated image per pair, in order, and the bounds hold the origin and every item's rectangle |
| PlotSvgExport.SvgImage | plot-config-portable/src/commonMain/kotlin/jetbrains/datalore/plot/PlotSvgExport.kt:43-54 | no image is an illegal state, one image is returned as it is, and several images outside a bunch are an illegal state |
| PlotSvgExport.BunchExport | plot-config-portable/src/commonMain/kotlin/jetbrains/datalore/plot/PlotSvgExport.kt:56-73 | a bunch document holds the first image's style and each paired image's translated root group, in order |
| PlotSvgExport.BuildSvgImageFromRawSpecs | plot-config-portable/src/commonMain/kotlin/jetbrains/datalore/plot/PlotSvgExport.kt:29-74 | the method computes the export the specification function describes |
| RequestJsonFormatter.Coordinate | gis/src/commonMain/kotlin/jetbrains/gis/tileprotocol/json/RequestJsonFormatter.kt:45-48 | a tile's object has exactly the x, y and z keys with the tile's values |
| RequestJsonFormatter.Coordinates | gis/src/commonMain/kotlin/jetbrains/gis/tileprotocol/json/RequestJsonFormatter.kt:44-49 | one object per tile, in order |
| RequestJsonFormatter.Format | gis/src/commonMain/kotlin/jetbrains/gis/tileprotocol/json/RequestJsonFormatter.kt:22-53 | a connection request has the type and style; a tile request the type, key, zoom and bounding box as left, top, right, bottom; a cancel request only its data |
| RequestJsonFormatter.ParseCoordinatesOfFormatted | gis/src/commonMain/kotlin/jetbrains/gis/tileprotocol/json/RequestJsonFormatter.kt:42-51 | the tiles are read back from their objects, in order |
| RequestJsonFormatter.FormatRoundTrip | gis/src/commonMain/kotlin/jetbrains/gis/tileprotocol/json/RequestJsonFormatter.kt:22-53 | every request is read back from its JSON form |
| MapProjectionBuilder.InvertProject | livemap/src/commonMain/kotlin/jetbrains/livemap/config/MapProjectionBuilder.kt:28-47 | inverting undoes projecting for every projection made of offsets, non-zero scales and composites |
| MapProjectionBuilder.ProjectInvert | livemap/src/commonMain/kotlin/jetbrains/livemap/config/MapProjectionBuilder.kt:28-47 | projecting undoes inverting, so each such projection is a bijection |
| MapProjectionBuilder.Linear | livemap/src/commonMain/kotlin/jetbrains/livemap/config/MapProjectionBuilder.kt:45-47 | shifts by the offset and then scales; invertible exactly for a non-zero scale, with the inverse dividing and shifting back |
| MapProjectionBuilder.FitScale | livemap/src/commonMain/kotlin/jetbrains/livemap/config/MapProjectionBuilder.kt:51 | both scaled sides of the projected valid rectangle fit the map rectangle, and one of them fills it |
| MapProjectionBuilder.ProjRect | livemap/src/commonMain/kotlin/jetbrains/livemap/config/MapProjectionBuilder.kt:54-55 | the shown region scales onto the map rectangle and is centred on the projected valid rectangle |
| MapProjectionBuilder.AxisLinear | livemap/src/commonMain/kotlin/jetbrains/livemap/config/MapProjectionBuilder.kt:57-60 | a reversed axis measures from the far edge with a negated scale, any other from the near edge; invertible exactly for a non-zero scale |
| MapProjectionBuilder.MapProjectionBuilder.constructor | livemap/src/commonMain/kotlin/jetbrains/livemap/config/MapProjectionBuilder.kt:21-26 | keeps the geographic projection and the map rectangle, with neither axis reversed |
| MapProjectionBuilder.MapProjectionBuilder.Create | livemap/src/commonMain/kotlin/jetbrains/livemap/config/MapProjectionBuilder.kt:49-77 | reports the map rectangle; both axis maps are invertible; the scale is positive and each axis map measures the centred shown region from its near or (reversed) far edge |
| MapProjectionBuilder.PositiveScale | livemap/src/commonMain/kotlin/jetbrains/livemap/config/MapProjectionBuilder.kt:51 | the fitting scale of rectangles with positive sides is positive |
| MapProjectionBuilder.CreateRoundTrips | livemap/src/commonMain/kotlin/jetbrains/livemap/config/MapProjectionBuilder.kt:68-72 | the created projection's inverse undoes it whenever the geographic projection's does |
| MapProjectionBuilder.ProjRectCoversValidRect | livemap/src/commonMain/kotlin/jetbrains/livemap/config/MapProjectionBuilder.kt:51-55 | the shown region holds the whole projected valid rectangle |
| MapProjectionBuilder.ScaledAtLeast | livemap/src/commonMain/kotlin/jetbrains/livemap/config/MapProjectionBuilder.kt:51-54 | the side that fills the map is at least as long as a side that fits within it |
| MapProjectionBuilder.AxisOntoExtent | livemap/src/commonMain/kotlin/jetbrains/livemap/config/MapProjectionBuilder.kt:57-66 | on each axis the shown region's edges land on 0 and the map's size (swapped when reversed) and points between land between them |
| MapProjectionBuilder.ValidRegionInsideMap | livemap/src/commonMain/kotlin/jetbrains/livemap/config/MapProjectionBuilder.kt:49-72 | every point whose geographic projection lies in the projected valid rectangle lands inside the map rectangle, for either orientation of either axis |

## Left out

- Entry points for JavaScript, the DOM and Python (`MonolithicJs.kt`, `PlotReprGenerator.kt`): these create HTML elements and CSS strings and call native code. They wrap the builders and decide nothing themselves.
- UI shells, timers and demos (`PlotContainer.kt`, `AwtRepaintTimer.kt`, `CanvasContainerPanel.kt`, the demo windows, `Pie.kt`): these are Swing, JavaFX and Batik plumbing and sample specifications.
- Thin wrappers over code that is not part of this model: `TextMeasurer.kt`, `DateTimeBreaksGen.kt` and `InteractionContext.kt`. That code is `measureText`, `DateTimeBreaksHelper`, and an interface with no implementation.
- Tests of code that is not part of this model (`NumberFormatSignTest.kt`, `DetachFailedSyncTest.kt`, `TooltipSpecAxisTooltipTest.kt`, `VirtualEventTarget.kt`): the behaviour they check is implemented elsewhere.
- OptionsAccessor.kt is not part of this model. The `OptionsAccessor` module models only the accessors that the facet and coordinate code calls, as those call sites use them.
- SVG node construction is not modelled: the `do*` draw methods, `buildAxis`, `drawDebugShapes`, `GeomHelper.decorate`/`decorateShape`/`decorateSlimShape` and `SvgElementHelper`. The model records only which panel parts are drawn and in what order, not their attributes or styles.
- SquareFrameOfReference.SquareFrameOfReference.DrawPanelAndAxis: the source's straight run of eight conditional draw calls is modelled as a loop over the drawing ranks, one rank per call. The order of the parts emitted is the same.
- Colour interpolation (`ColorMapper.gradient`) is an abstract gradient. The geographic projection (`GeoProjection.project`) and `transformBBox` are abstract functions of the map projection model.
- MapperUtil.rangeWithLimitsAfterTransform is not part of this model. The colour gradient's domain is given to `ColorGradient2MapperProvider.CreateContinuousMapper` as an input.
- Floating point: every rectangle, span and scale computation is over exact reals. In `ColorGradient2MapperProvider`, NaN and the infinities are modelled only as non-finite inputs. `Common.Trunc` models `Double.toInt()` without its NaN and overflow cases.
- MapProjectionBuilder.MapProjectionBuilder.Create: requires both sides of the map rectangle and the projected valid rectangle to be positive. With a zero side, the source's division gives an infinite or NaN scale, which exact reals cannot express.
- Projections.scale is modelled as multiplication by the scale on each axis, and Projections.tuple as a pair of per-axis maps.
- Regex parsing in `PlotSvgExport`: reading the width and height attributes is the `extractDouble` parameter. Printing numbers into the SVG text is the `show` parameter.
- PlotSvgExport.TransformBunchItemSvg: no lemma states the case where the root group has no `<g ` opening. There the source cuts two characters from the front with `substring(2)`; the model computes the same result but does not describe it.
- PlotSvgExport.BunchDocument: the source runs `trimMargin()` on the assembled text. That strips leading whitespace followed by `|` from every line, including lines of the interpolated style and item SVG, and turns `\r\n` and `\r` into `\n`. The model joins the pieces verbatim, so it does not capture this for interpolated text whose lines start that way or hold carriage returns.
- PlotSvgExport.BuildSvgImageFromRawSpecs: building each plot (`MonolithicCommon`) and logging are left out. The built images and the bunch items are inputs.
- DOM listener registration and disposal, `preventDefault` and logging in `DomMouseEventMapper` are not modelled. The model keeps the state transitions and the events they dispatch. The element's client origin (`getBoundingClientRect`) is an input of each event.
- `invokeLater` and `revalidate` in `PlotPanelFigureModel.rebuildPlotComponent` are not modelled. A "container sized" flag stands in for the deferred rebuild, and the event handler is an identifier. The model iterates `activeInteractionsByOrigin` in insertion order, while the source's `HashMap` order is unspecified.
- `CompositeFigureBuildInfo.injectLiveMapProvider` is not modelled: it only forwards a callback into the sub-figures. The composite layout is a function given with the figure.
- The `FeatureSwitch.MARGINAL_LAYERS` global is fixed to false in `TopDownTileLayout`.
- The tile geometry margin (`GEOM_MARGIN`) is a parameter of the tile environment, because `TileLayoutUtil` is not part of this model. The same goes for axis layout, label bounds, geometry-size adjustment and clipping.
- Constants defined in files that are not part of this model are declared with assumed values:
  - theme option names (`ThemeOption`);
  - facet and coordinate option names;
  - the default facet order direction;
  - `GeomContextBuilder`'s `TINY`;
  - the tile-protocol request keys and type names.
  
  The lemmas depend only on these constants being distinct, not on their values.
- ThemeConfig.ConvertExponentFormat: only string values are accepted. The source lower-cases `value.toString()`, so a number or another value is an illegal argument in the model.
- LegendThemeConfig.convertValue and ThemeUtil.buildTheme are not part of this model. The legend-specific conversions and the building of the theme object from the converted options are left out.
- ThemeConfig.ThemeName: turning a non-string name into text is the `toString` parameter.
- Margin and padding conversion (`convertMargins`/`convertPadding`) are the same operation under two keys. The model states them once, as `ThemeConfig.ConvertSides`.
- FacetConfig.DistinctValues: the data frame's `distinctValues` is not part of this model. Its result type, a set of non-null values, is what excludes null from the levels. The model lists a variable's non-null values once each, in first-seen order; the grid levels come from that order.
- FacetConfig.CreateWrap: the wrap's levels are collected in a `HashSet`, so the model gives them as a set and states nothing about their order.
- mapToAesthetics is not part of this model. A legend key's data point keeps the label's values together with the layer's constants, defaults and colour and fill aesthetics, and `KeyPoint.Get` reads them in that order: the label's own value, else the constant, else the default.
- Text wrapping (`wrap` with the legend's line-length and line-count limits) is not part of this model. It is the `wrap` parameter of `LegendAssembler.LegendAssembler.CreateLegend`.
- PlotAssemblerUtil.CollectLayerConstants: `getConstant(aes)!!` is taken to return a value whenever `hasConstant(aes)` holds, so the model has one lookup giving the constant or none, and no null-pointer failure.
- PortablePlotAssemblerUtil.PAddLegendLayers: a request records the key factory, bindings, layer constants and defaults. It does not record the stitched layer's scale map or the transformed domains passed with them. The portable legend assembler that consumes the requests is not part of this model.
- Legend break generation, the minimum key size and the combining of legend boxes are parameters of `LegendAssembler`. Scale names, colour-bar fitting and compatibility, scale identity and emptiness tests are parameters of the two `PlotAssemblerUtil` modules.
- In `PlotConfigScaleProviders`, the scale setup, `defaultScaleName` and `isDateTime` are given as an aesthetic-binding setup.
