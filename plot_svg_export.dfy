/** SVG export of a plot specification. One plot gives its own SVG image; a
    bunch of plots (GGBunch) gives one SVG document holding the first plot's
    style sheet and every plot's root group, translated to its place. */
module PlotSvgExport {
  import opened Common

  const STYLE_OPEN: string := "<style type=\"text/css\">"
  const STYLE_CLOSE: string := "</style>"
  const SVG_CLOSE: string := "</svg>"
  const GROUP_OPEN: string := "<g "

  // ---------------------------------------------------------------------------
  // Kotlin's String.indexOf and String.split on a non-empty delimiter.

  predicate OccursAt(s: string, pat: string, i: int) {
    0 <= i && i + |pat| <= |s| && s[i..i + |pat|] == pat
  }

  predicate Absent(s: string, pat: string) {
    forall i :: 0 <= i <= |s| ==> !OccursAt(s, pat, i)
  }

  /** The first occurrence of `pat` in `s` at or after `k`. */
  function IndexFrom(s: string, pat: string, k: nat): (r: Option<nat>)
    requires |pat| > 0 && k <= |s|
    ensures r.Some? ==> k <= r.value && OccursAt(s, pat, r.value)
    ensures r.Some? ==> forall i :: k <= i < r.value ==> !OccursAt(s, pat, i)
    ensures r.None? ==> forall i :: k <= i ==> !OccursAt(s, pat, i)
    decreases |s| - k
  {
    if k + |pat| > |s| then None
    else if s[k..k + |pat|] == pat then Some(k)
    else IndexFrom(s, pat, k + 1)
  }

  /** `indexOf`, with no index for a missing pattern. */
  function IndexOf(s: string, pat: string): (r: Option<nat>)
    requires |pat| > 0
    ensures r.Some? ==> OccursAt(s, pat, r.value) && forall i :: 0 <= i < r.value ==> !OccursAt(s, pat, i)
    ensures r.None? ==> Absent(s, pat)
  {
    IndexFrom(s, pat, 0)
  }

  /** `split(delim)`: the pieces between the occurrences of `delim`. */
  function Split(s: string, delim: string): (r: seq<string>)
    requires |delim| > 0
    ensures |r| >= 1
    decreases |s|
  {
    match IndexOf(s, delim)
    case None => [s]
    case Some(i) => [s[..i]] + Split(s[i + |delim|..], delim)
  }

  /** `joinToString(separator)`. */
  function Join(parts: seq<string>, sep: string): string {
    if |parts| == 0 then ""
    else if |parts| == 1 then parts[0]
    else parts[0] + sep + Join(parts[1..], sep)
  }

  /** Splitting loses nothing: joining the pieces gives the text back. */
  lemma {:induction false} SplitJoin(s: string, delim: string)
    requires |delim| > 0
    ensures Join(Split(s, delim), delim) == s
    decreases |s|
  {
    var idx := IndexOf(s, delim);
    if idx.Some? {
      var i := idx.value;
      var rest := s[i + |delim|..];
      SplitJoin(rest, delim);
      var r := Split(s, delim);
      var t := Split(rest, delim);
      assert r == [s[..i]] + t;
      assert r[1..] == t;
      assert Join(r, delim) == s[..i] + delim + Join(t, delim);
      SplitAround(s, delim, i);
    }
  }

  /** The text around an occurrence of a pattern. */
  lemma SplitAround(s: string, pat: string, i: int)
    requires OccursAt(s, pat, i)
    ensures s == s[..i] + pat + s[i + |pat|..]
  {
    assert s[..i] + s[i..] == s;
    assert s[i..] == s[i..i + |pat|] + s[i + |pat|..];
  }

  /** The first piece is the text before the first occurrence of `delim`:
      a prefix without it, followed by `delim` unless it is the whole text. */
  lemma FirstPiece(s: string, delim: string)
    requires |delim| > 0
    ensures var p := Split(s, delim)[0];
      p <= s && Absent(p, delim) && (p == s || OccursAt(s, delim, |p|))
    ensures |Split(s, delim)| >= 2 <==> !Absent(s, delim)
  {
    var idx := IndexOf(s, delim);
    if idx.Some? {
      var i := idx.value;
      var p := s[..i];
      forall j | 0 <= j <= |p| ensures !OccursAt(p, delim, j) {
        if j + |delim| <= |p| {
          assert !OccursAt(s, delim, j);
          assert s[j..j + |delim|] == p[j..j + |delim|];
        }
      }
    }
  }

  /** An occurrence in a prefix is an occurrence in the text. */
  lemma OccursInPrefix(p: string, s: string, pat: string, j: int)
    requires p <= s && OccursAt(p, pat, j)
    ensures OccursAt(s, pat, j)
  {
    assert s[j..j + |pat|] == p[j..j + |pat|];
  }

  // ---------------------------------------------------------------------------
  // Bunch export.

  /** The position of a plot in the bunch. */
  datatype BunchItem = BunchItem(x: real, y: real)

  /** `getBunchItemSvgStyle`: the first style sheet of an image, re-wrapped in
      a style element; an image without one has no second piece to take. */
  function GetBunchItemSvgStyle(svg: string): (r: Result<string>)
    ensures r.Err? <==> Absent(svg, STYLE_OPEN)
    ensures r.Err? ==> r.error.IndexOutOfBounds?
  {
    var split := Split(svg, STYLE_OPEN);
    FirstPiece(svg, STYLE_OPEN);
    if |split| < 2 then Err(IndexOutOfBounds("Index 1 out of bounds for length 1"))
    else
      var style := Split(split[1], STYLE_CLOSE)[0];
      Ok(STYLE_OPEN + "\n" + style + "\n" + STYLE_CLOSE)
  }

  /** The first piece of the second piece: the text right after the first
      `d1`, up to the next `d1` or `d2` (or the end of the text). */
  lemma SecondPieceCut(s: string, d1: string, d2: string)
    requires |d1| > 0 && |d2| > 0 && !Absent(s, d1)
    ensures |Split(s, d1)| >= 2
    ensures var rest := s[IndexOf(s, d1).value + |d1|..];
      var piece := Split(Split(s, d1)[1], d2)[0];
      piece <= rest && Absent(piece, d1) && Absent(piece, d2) &&
      (piece == rest || OccursAt(rest, d1, |piece|) || OccursAt(rest, d2, |piece|))
  {
    FirstPiece(s, d1);
    var i := IndexOf(s, d1).value;
    var rest := s[i + |d1|..];
    var p1 := Split(s, d1)[1];
    assert p1 == Split(rest, d1)[0];
    FirstPiece(rest, d1);
    var piece := Split(p1, d2)[0];
    FirstPiece(p1, d2);
    forall j | 0 <= j <= |piece| ensures !OccursAt(piece, d1, j) {
      if OccursAt(piece, d1, j) {
        OccursInPrefix(piece, p1, d1, j);
      }
    }
    if piece != p1 {
      OccursInPrefix(p1, rest, d2, |piece|);
    }
  }

  /** The style is the text right after the first style opening tag, up to the
      next opening or closing style tag (or the end of the image). */
  lemma StyleBetweenTags(svg: string)
    requires !Absent(svg, STYLE_OPEN)
    ensures var rest := svg[IndexOf(svg, STYLE_OPEN).value + |STYLE_OPEN|..];
      exists style: string :: GetBunchItemSvgStyle(svg) == Ok(STYLE_OPEN + "\n" + style + "\n" + STYLE_CLOSE) &&
        style <= rest && Absent(style, STYLE_OPEN) && Absent(style, STYLE_CLOSE) &&
        (style == rest || OccursAt(rest, STYLE_OPEN, |style|) || OccursAt(rest, STYLE_CLOSE, |style|))
  {
    SecondPieceCut(svg, STYLE_OPEN, STYLE_CLOSE);
  }

  /** The opening of a translated root group. */
  function TranslatedGroupStart(x: real, y: real, show: real -> string): string {
    "<g transform=\"translate(" + show(x) + " " + show(y) + ")\" "
  }

  /** `transformBunchItemSvg`: the image's root group (after its first closing
      style tag, up to the next closing style tag or `</svg>`), its opening up
      to and including the first `<g ` replaced by a translated group; and the
      image's size, read from the text before its style sheet. The size
      extraction by regular expression is the `extractDouble` parameter;
      `show` prints a number. */
  function TransformBunchItemSvg(svg: string, x: real, y: real,
                                 extractDouble: (string, string) -> Option<real>,
                                 show: real -> string): (r: Result<(string, Vec)>)
    ensures r.Err? ==> r.error.IndexOutOfBounds? || r.error.NullPointer?
    ensures Absent(svg, STYLE_CLOSE) ==> r.Err? && r.error.IndexOutOfBounds?
  {
    var svgHead := Split(svg, STYLE_OPEN)[0];
    var split := Split(svg, STYLE_CLOSE);
    FirstPiece(svg, STYLE_CLOSE);
    if |split| < 2 then Err(IndexOutOfBounds("Index 1 out of bounds for length 1"))
    else
      var rootGroup := Split(split[1], SVG_CLOSE)[0];
      var width := extractDouble("width", svgHead);
      var height := extractDouble("height", svgHead);
      if width.None? || height.None? then Err(NullPointer("No size in the SVG image."))
      else
        var idx := IndexOf(rootGroup, GROUP_OPEN);
        var start := (if idx.Some? then idx.value else -1) + 3;
        if start > |rootGroup| then Err(IndexOutOfBounds("String index out of range"))
        else Ok((TranslatedGroupStart(x, y, show) + rootGroup[start..], Vec(width.value, height.value)))
  }

  /** A translated item: the root group is the text right after the image's
      first closing style tag, up to the next closing style tag or `</svg>`;
      with a `<g ` in it, the item is the translated opening followed by what
      comes after that `<g `. */
  lemma TransformedRootGroup(svg: string, x: real, y: real, extractDouble: (string, string) -> Option<real>, show: real -> string)
    requires TransformBunchItemSvg(svg, x, y, extractDouble, show).Ok?
    ensures !Absent(svg, STYLE_CLOSE)
    ensures var rest := svg[IndexOf(svg, STYLE_CLOSE).value + |STYLE_CLOSE|..];
      exists rootGroup: string ::
        rootGroup <= rest && Absent(rootGroup, STYLE_CLOSE) && Absent(rootGroup, SVG_CLOSE) &&
        (rootGroup == rest || OccursAt(rest, STYLE_CLOSE, |rootGroup|) || OccursAt(rest, SVG_CLOSE, |rootGroup|)) &&
        (!Absent(rootGroup, GROUP_OPEN) ==>
          var g := IndexOf(rootGroup, GROUP_OPEN).value;
          TransformBunchItemSvg(svg, x, y, extractDouble, show).value.0 ==
            TranslatedGroupStart(x, y, show) + rootGroup[g + |GROUP_OPEN|..])
  {
    var t := TransformBunchItemSvg(svg, x, y, extractDouble, show);
    SecondPieceCut(svg, STYLE_CLOSE, SVG_CLOSE);
    var rootGroup := Split(Split(svg, STYLE_CLOSE)[1], SVG_CLOSE)[0];
    if !Absent(rootGroup, GROUP_OPEN) {
      var g := IndexOf(rootGroup, GROUP_OPEN).value;
      assert t.value.0 == TranslatedGroupStart(x, y, show) + rootGroup[g + |GROUP_OPEN|..];
    }
  }

  /** A translated item's size is read from the text before the image's first
      style opening tag. */
  lemma TransformedSize(svg: string, x: real, y: real, extractDouble: (string, string) -> Option<real>, show: real -> string)
    requires TransformBunchItemSvg(svg, x, y, extractDouble, show).Ok?
    ensures exists head: string ::
      head <= svg && Absent(head, STYLE_OPEN) &&
      (head == svg || OccursAt(svg, STYLE_OPEN, |head|)) &&
      extractDouble("width", head) == Some(TransformBunchItemSvg(svg, x, y, extractDouble, show).value.1.x) &&
      extractDouble("height", head) == Some(TransformBunchItemSvg(svg, x, y, extractDouble, show).value.1.y)
  {
    var t := TransformBunchItemSvg(svg, x, y, extractDouble, show);
    FirstPiece(svg, STYLE_OPEN);
    var head := Split(svg, STYLE_OPEN)[0];
    assert extractDouble("width", head) == Some(t.value.1.x) && extractDouble("height", head) == Some(t.value.1.y);
  }

  /** `list.zip(bunchItems)`: pairs up to the shorter length. */
  function Zip(images: seq<string>, items: seq<BunchItem>): (r: seq<(string, BunchItem)>)
    ensures |r| == if |images| < |items| then |images| else |items|
    ensures forall k :: 0 <= k < |r| ==> r[k] == (images[k], items[k])
  {
    var n := if |images| < |items| then |images| else |items|;
    seq(n, k requires 0 <= k < n => (images[k], items[k]))
  }

  /** The translated items so far and the union of their rectangles. */
  datatype Bunch = Bunch(itemSvgs: seq<string>, bounds: Rect)

  function BunchStep(b: Bunch, pair: (string, BunchItem),
                     extractDouble: (string, string) -> Option<real>, show: real -> string): Result<Bunch> {
    var (plotSvg, item) := pair;
    var t := TransformBunchItemSvg(plotSvg, item.x, item.y, extractDouble, show);
    if t.Err? then Err(t.error)
    else Ok(Bunch(b.itemSvgs + [t.value.0], Union(b.bounds, Rect(Vec(item.x, item.y), t.value.1))))
  }

  function BunchFn(extractDouble: (string, string) -> Option<real>, show: real -> string): (Bunch, (string, BunchItem)) -> Result<Bunch> {
    (b: Bunch, pair: (string, BunchItem)) => BunchStep(b, pair, extractDouble, show)
  }

  const EMPTY_BUNCH: Bunch := Bunch([], Rect(ZeroVec, ZeroVec))

  /** The items of a bunch, from the empty rectangle at the origin. */
  function BunchOf(pairs: seq<(string, BunchItem)>, extractDouble: (string, string) -> Option<real>,
                   show: real -> string): Result<Bunch> {
    FoldResult(EMPTY_BUNCH, pairs, BunchFn(extractDouble, show))
  }

  /** A bunch built from some items holds one translated image per item, in
      order, and its bounds hold the origin and every item's rectangle. */
  lemma {:induction false} BunchOfItems(pairs: seq<(string, BunchItem)>, extractDouble: (string, string) -> Option<real>,
                                        show: real -> string)
    requires BunchOf(pairs, extractDouble, show).Ok?
    ensures var b := BunchOf(pairs, extractDouble, show).value;
      |b.itemSvgs| == |pairs| &&
      (forall k :: 0 <= k < |pairs| ==>
        var t := TransformBunchItemSvg(pairs[k].0, pairs[k].1.x, pairs[k].1.y, extractDouble, show);
        t.Ok? && b.itemSvgs[k] == t.value.0 && Covers(b.bounds, Rect(Vec(pairs[k].1.x, pairs[k].1.y), t.value.1))) &&
      b.bounds.Left() <= 0.0 && b.bounds.Top() <= 0.0
  {
    if |pairs| > 0 {
      var n := |pairs| - 1;
      var init := pairs[..n];
      assert init == pairs[..n];
      assert FoldResult(EMPTY_BUNCH, init, BunchFn(extractDouble, show)).Ok?;
      BunchOfItems(init, extractDouble, show);
      var b0 := BunchOf(init, extractDouble, show).value;
      var (svg, item) := pairs[n];
      var t := TransformBunchItemSvg(svg, item.x, item.y, extractDouble, show);
      assert t.Ok?;
      var b := BunchOf(pairs, extractDouble, show).value;
      assert b == Bunch(b0.itemSvgs + [t.value.0], Union(b0.bounds, Rect(Vec(item.x, item.y), t.value.1)));
      assert Covers(b.bounds, b0.bounds);
      forall k | 0 <= k < |pairs|
        ensures var tk := TransformBunchItemSvg(pairs[k].0, pairs[k].1.x, pairs[k].1.y, extractDouble, show);
          tk.Ok? && b.itemSvgs[k] == tk.value.0 && Covers(b.bounds, Rect(Vec(pairs[k].1.x, pairs[k].1.y), tk.value.1))
      {
        if k < n {
          assert init[k] == pairs[k];
        }
      }
    }
  }

  /** The bunch document: an svg element sized to the bounds, holding the style
      element and then the translated items, one per line. */
  function BunchDocument(b: Bunch, style: string, show: real -> string): string {
    "<svg xmlns=\"http://www.w3.org/2000/svg\" class=\"plt-container\" width=\"" + show(b.bounds.Width()) +
    "\" height=\"" + show(b.bounds.Height()) + "\">\n" + style + "\n" + Join(b.itemSvgs, "\n") + "\n" + SVG_CLOSE
  }

  /** What `buildSvgImageFromRawSpecs` returns for the images built from a
      specification, given whether it is a GGBunch and its items. */
  function SvgImage(images: seq<string>, isGGBunch: bool, bunchItems: seq<BunchItem>,
                    extractDouble: (string, string) -> Option<real>, show: real -> string): (r: Result<string>)
    ensures |images| == 0 ==> r == Err(IllegalState("Nothing to save: the plot is empty."))
    ensures |images| == 1 ==> r == Ok(images[0])
    ensures |images| > 1 && !isGGBunch ==> r == Err(IllegalState("Can't save multiple SVG images in one file."))
  {
    if |images| == 0 then Err(IllegalState("Nothing to save: the plot is empty."))
    else if |images| == 1 then Ok(images[0])
    else if !isGGBunch then Err(IllegalState("Can't save multiple SVG images in one file."))
    else
      var bunch := BunchOf(Zip(images, bunchItems), extractDouble, show);
      if bunch.Err? then Err(bunch.error)
      else
        var style := GetBunchItemSvgStyle(images[0]);
        if style.Err? then Err(style.error)
        else Ok(BunchDocument(bunch.value, style.value, show))
  }

  /** A bunch of several images that succeeds is one document with the first
      image's style and each paired image's translated root group, in order. */
  lemma BunchExport(images: seq<string>, bunchItems: seq<BunchItem>,
                    extractDouble: (string, string) -> Option<real>, show: real -> string)
    requires |images| > 1
    requires SvgImage(images, true, bunchItems, extractDouble, show).Ok?
    ensures var pairs := Zip(images, bunchItems);
      var b := BunchOf(pairs, extractDouble, show).value;
      SvgImage(images, true, bunchItems, extractDouble, show).value ==
        BunchDocument(b, GetBunchItemSvgStyle(images[0]).value, show) &&
      |b.itemSvgs| == |pairs| &&
      forall k :: 0 <= k < |pairs| ==>
        var t := TransformBunchItemSvg(images[k], bunchItems[k].x, bunchItems[k].y, extractDouble, show);
        t.Ok? && b.itemSvgs[k] == t.value.0
  {
    BunchOfItems(Zip(images, bunchItems), extractDouble, show);
  }

  /** `buildSvgImageFromRawSpecs`, given the images the specification builds. */
  method BuildSvgImageFromRawSpecs(images: seq<string>, isGGBunch: bool, bunchItems: seq<BunchItem>,
                                   extractDouble: (string, string) -> Option<real>, show: real -> string)
    returns (r: Result<string>)
    ensures r == SvgImage(images, isGGBunch, bunchItems, extractDouble, show)
  {
    if |images| == 0 {
      return Err(IllegalState("Nothing to save: the plot is empty."));
    }
    if |images| == 1 {
      return Ok(images[0]);
    }
    if !isGGBunch {
      return Err(IllegalState("Can't save multiple SVG images in one file."));
    }
    var pairs := Zip(images, bunchItems);
    var bunchItemSvgList: seq<string> := [];
    var bunchBounds := Rect(ZeroVec, ZeroVec);
    var i := 0;
    while i < |pairs|
      invariant 0 <= i <= |pairs|
      invariant FoldResult(EMPTY_BUNCH, pairs[..i], BunchFn(extractDouble, show)) == Ok(Bunch(bunchItemSvgList, bunchBounds))
    {
      FoldResultNext(EMPTY_BUNCH, pairs, BunchFn(extractDouble, show), i);
      var (plotSvg, bunchItem) := pairs[i];
      var t := TransformBunchItemSvg(plotSvg, bunchItem.x, bunchItem.y, extractDouble, show);
      if t.Err? {
        FoldResultErr(EMPTY_BUNCH, pairs, BunchFn(extractDouble, show), i + 1);
        return Err(t.error);
      }
      var (itemSvg, size) := t.value;
      bunchItemSvgList := bunchItemSvgList + [itemSvg];
      bunchBounds := Union(bunchBounds, Rect(Vec(bunchItem.x, bunchItem.y), size));
      i := i + 1;
    }
    assert pairs[..i] == pairs;
    var svgStyle := GetBunchItemSvgStyle(images[0]);
    if svgStyle.Err? {
      return Err(svgStyle.error);
    }
    r := Ok(BunchDocument(Bunch(bunchItemSvgList, bunchBounds), svgStyle.value, show));
  }
}
