/** The frame-of-reference provider used where no real frame may be built: it
    has no axis labels, never flips, refuses to lay out tiles and hands out
    inert frames. */
module BogusFrameOfReferenceProvider {
  import opened Common
  import TopDownTileLayout
  import CoordProto

  datatype FrameOfReference = BogusFrameOfReference
  datatype MarginSide = LEFT | TOP | RIGHT | BOTTOM
  /** A tile layout provider; none is ever made by this provider. */
  datatype TileLayoutProvider = TileLayoutProvider(layout: TopDownTileLayout.TopDownTileLayout)

  datatype BogusFrameOfReferenceProvider = BogusFrameOfReferenceProvider {
    function HAxisLabel(): (r: Option<string>)
      ensures r.None?
    {
      None
    }

    function VAxisLabel(): (r: Option<string>)
      ensures r.None?
    {
      None
    }

    function FlipAxis(): (r: bool)
      ensures !r
    {
      false
    }

    /** Always fails: this provider is not supposed to be used for layout. */
    function CreateTileLayoutProvider(): (r: Result<TileLayoutProvider>)
      ensures r.Err? && r.error.IllegalState?
    {
      Err(IllegalState("Bogus frame of reference provider is not supposed to be used."))
    }

    /** The same inert frame, whatever the inputs. */
    function CreateTileFrame(layoutInfo: TopDownTileLayout.TileLayoutInfo, coordProvider: CoordProto.CoordProvider,
                             debugDrawing: bool): (r: FrameOfReference)
      ensures r == BogusFrameOfReference
    {
      BogusFrameOfReference
    }

    /** No marginal frames. */
    function CreateMarginalFrames(tileLayoutInfo: TopDownTileLayout.TileLayoutInfo, coordProvider: CoordProto.CoordProvider,
                                  debugDrawing: bool): (r: map<MarginSide, FrameOfReference>)
      ensures |r| == 0
    {
      map[]
    }
  }
}
