/** The diverging colour-gradient scale (`scale_color_gradient2`): values below
    the midpoint are coloured on a low→mid gradient, values above it on a
    mid→high gradient, and everything else gets the "no value" colour. */
module ColorGradient2MapperProvider {
  import opened Common

  /** `#964540`, a muted red. */
  const DEF_GRADIENT_LOW: Color := Color(0x96, 0x45, 0x40, 255)
  const DEF_GRADIENT_MID: Color := WHITE
  /** `#3B3D96`, a muted blue. */
  const DEF_GRADIENT_HIGH: Color := Color(0x3B, 0x3D, 0x96, 255)

  /** A double-precision input: a finite number or one of the non-finite values. */
  datatype Double = Finite(v: real) | NaN | PositiveInfinity | NegativeInfinity

  /** `SeriesUtil.isFinite`: present and finite. */
  predicate IsFinite(input: Option<Double>) {
    input.Some? && input.value.Finite?
  }

  /** A colour gradient over an interval, from one colour to another, with a
      colour for missing values; its interpolation is not modelled. */
  type Gradient = (Span, Color, Color, Color) -> (real -> Color)

  datatype ColorGradient2MapperProvider = ColorGradient2MapperProvider(
    low: Color, mid: Color, high: Color, midpoint: real, naValue: Color)

  /** The provider, with the default colours and a 0 midpoint for what is not given. */
  function New(low: Option<Color>, mid: Option<Color>, high: Option<Color>, midpoint: Option<real>,
               naValue: Color): (p: ColorGradient2MapperProvider)
    ensures p.low == (if low.Some? then low.value else DEF_GRADIENT_LOW)
    ensures p.mid == (if mid.Some? then mid.value else DEF_GRADIENT_MID)
    ensures p.high == (if high.Some? then high.value else DEF_GRADIENT_HIGH)
    ensures p.midpoint == (if midpoint.Some? then midpoint.value else 0.0)
    ensures p.naValue == naValue
  {
    ColorGradient2MapperProvider(
      match low case Some(c) => c case None => DEF_GRADIENT_LOW,
      match mid case Some(c) => c case None => DEF_GRADIENT_MID,
      match high case Some(c) => c case None => DEF_GRADIENT_HIGH,
      match midpoint case Some(m) => m case None => 0.0,
      naValue)
  }

  /** The interval of the low gradient: from the domain's lower end up to the
      midpoint, or an empty-length interval when the midpoint is below it. */
  function LowDomain(domain: Span, midpoint: real): (r: Span)
    ensures r.lower == domain.lower && r.upper == Max(midpoint, domain.lower)
  {
    Span(domain.lower, Max(midpoint, domain.lower))
  }

  /** The interval of the high gradient: from the midpoint up to the domain's
      upper end, or an empty-length interval when the midpoint is above it. */
  function HighDomain(domain: Span, midpoint: real): (r: Span)
    ensures r.lower == Min(midpoint, domain.upper) && r.upper == domain.upper
  {
    Span(Min(midpoint, domain.upper), domain.upper)
  }

  /** Both sub-domains are intervals whenever the domain is; together they
      cover it, and they meet at the midpoint when it lies inside. */
  lemma SubDomains(domain: Span, midpoint: real)
    requires domain.WellFormed()
    ensures LowDomain(domain, midpoint).WellFormed() && HighDomain(domain, midpoint).WellFormed()
    ensures forall v :: domain.Contains(v) ==>
      LowDomain(domain, midpoint).Contains(v) || HighDomain(domain, midpoint).Contains(v)
    ensures domain.Contains(midpoint) ==>
      LowDomain(domain, midpoint).upper == midpoint == HighDomain(domain, midpoint).lower
  {
  }

  /** One entry of the range map: an interval and the two colours of its gradient. */
  datatype RangeEntry = RangeEntry(range: Span, from: Color, to: Color)

  /** `mapOf(lowDomain to lowMapper, highDomain to highMapper)`: in insertion
      order, with the high gradient replacing the low one when the two
      intervals are equal. */
  function RangeMap(p: ColorGradient2MapperProvider, domain: Span): (r: seq<RangeEntry>)
    ensures LowDomain(domain, p.midpoint) == HighDomain(domain, p.midpoint) ==>
      r == [RangeEntry(HighDomain(domain, p.midpoint), p.mid, p.high)]
    ensures LowDomain(domain, p.midpoint) != HighDomain(domain, p.midpoint) ==>
      r == [RangeEntry(LowDomain(domain, p.midpoint), p.low, p.mid), RangeEntry(HighDomain(domain, p.midpoint), p.mid, p.high)]
  {
    var lowDomain := LowDomain(domain, p.midpoint);
    var highDomain := HighDomain(domain, p.midpoint);
    if lowDomain == highDomain then [RangeEntry(highDomain, p.mid, p.high)]
    else [RangeEntry(lowDomain, p.low, p.mid), RangeEntry(highDomain, p.mid, p.high)]
  }

  /** The two intervals can only coincide in a one-point domain at the midpoint. */
  lemma SameSubDomains(domain: Span, midpoint: real)
    requires domain.WellFormed()
    ensures LowDomain(domain, midpoint) == HighDomain(domain, midpoint) <==>
      domain.lower == domain.upper == midpoint
  {
  }

  /** The interval chosen so far and its length. */
  datatype Pick = Pick(index: Option<nat>, span: real)

  /** One step of the search: a containing interval is taken when nothing is
      chosen yet or the chosen one has zero length, and otherwise only when it
      is strictly shorter and of positive length. */
  function PickStep(s: Pick, i: nat, range: Span, v: real): Pick {
    if range.Contains(v) then
      var span := range.Length();
      if s.index.None? || s.span == 0.0 then Pick(Some(i), span)
      else if span < s.span && span > 0.0 then Pick(Some(i), span)
      else s
    else s
  }

  /** The interval `getMapper` settles on among `ranges`, in order. */
  function Picked(ranges: seq<Span>, v: real): Pick {
    if |ranges| == 0 then Pick(None, 0.0)
    else PickStep(Picked(ranges[..|ranges| - 1], v), |ranges| - 1, ranges[|ranges| - 1], v)
  }

  function Ranges(entries: seq<RangeEntry>): (r: seq<Span>)
    ensures |r| == |entries| && forall i :: 0 <= i < |entries| ==> r[i] == entries[i].range
  {
    seq(|entries|, i requires 0 <= i < |entries| => entries[i].range)
  }

  /** `getMapper`: the index of the entry whose gradient colours the input;
      none for a non-finite input. */
  method GetMapper(entries: seq<RangeEntry>, input: Option<Double>) returns (f: Option<nat>)
    ensures !IsFinite(input) ==> f.None?
    ensures IsFinite(input) ==> f == Picked(Ranges(entries), input.value.v).index
  {
    f := None;
    if IsFinite(input) {
      var v := input.value.v;
      var ranges := Ranges(entries);
      var fSpan := 0.0;
      var i := 0;
      while i < |entries|
        invariant 0 <= i <= |entries|
        invariant Pick(f, fSpan) == Picked(ranges[..i], v)
      {
        assert ranges[..i + 1][..i] == ranges[..i];
        var range := entries[i].range;
        if range.Contains(v) {
          var span := range.upper - range.lower;
          if f.None? || fSpan == 0.0 {
            f := Some(i);
            fSpan := span;
          } else if span < fSpan && span > 0.0 {
            f := Some(i);
            fSpan := span;
          }
        }
        i := i + 1;
      }
      assert ranges[..i] == ranges;
    }
  }

  /** The chosen interval contains the value, and there is one exactly when
      some interval contains it. */
  lemma {:induction false} PickedContains(ranges: seq<Span>, v: real)
    ensures Picked(ranges, v).index.None? <==> forall i :: 0 <= i < |ranges| ==> !ranges[i].Contains(v)
    ensures Picked(ranges, v).index.Some? ==>
      var k := Picked(ranges, v).index.value;
      k < |ranges| && ranges[k].Contains(v) && Picked(ranges, v).span == ranges[k].Length()
  {
    if |ranges| > 0 {
      var init := ranges[..|ranges| - 1];
      PickedContains(init, v);
      assert forall i :: 0 <= i < |init| ==> init[i] == ranges[i];
    }
  }

  /** One search step keeps a positive-length choice no longer than `bound`, or
      makes one when the step's interval is such a choice. */
  lemma PickStepShortest(s: Pick, i: nat, range: Span, v: real, bound: real)
    requires s.index.Some? ==> s.span >= 0.0
    requires (s.index.Some? && 0.0 < s.span <= bound) || (range.Contains(v) && 0.0 < range.Length() <= bound)
    ensures PickStep(s, i, range, v).index.Some?
    ensures 0.0 < PickStep(s, i, range, v).span <= bound
  {
  }

  /** Zero-length intervals are avoided and shorter ones preferred: when some
      interval of positive length holds the value, the choice has positive
      length and is no longer than any such interval. */
  lemma {:induction false} PickedShortest(ranges: seq<Span>, v: real)
    requires forall i :: 0 <= i < |ranges| ==> ranges[i].WellFormed()
    ensures forall j :: 0 <= j < |ranges| && ranges[j].Contains(v) && ranges[j].Length() > 0.0 ==>
      Picked(ranges, v).index.Some? && 0.0 < Picked(ranges, v).span <= ranges[j].Length()
  {
    if |ranges| > 0 {
      var n := |ranges| - 1;
      var init := ranges[..n];
      assert forall i :: 0 <= i < |init| ==> init[i] == ranges[i];
      PickedShortest(init, v);
      PickedContains(init, v);
      var s := Picked(init, v);
      assert s.index.Some? ==> s.span >= 0.0;
      forall j | 0 <= j < |ranges| && ranges[j].Contains(v) && ranges[j].Length() > 0.0
        ensures Picked(ranges, v).index.Some? && 0.0 < Picked(ranges, v).span <= ranges[j].Length()
      {
        if j < n {
          assert init[j] == ranges[j];
        }
        PickStepShortest(s, n, ranges[n], v, ranges[j].Length());
      }
    }
  }

  /** The colour of an input: the chosen entry's gradient at the value, or the
      "no value" colour when no entry is chosen. */
  function MapColor(p: ColorGradient2MapperProvider, domain: Span, gradient: Gradient, input: Option<Double>): Color {
    var entries := RangeMap(p, domain);
    if !IsFinite(input) then p.naValue
    else
      var pick := Picked(Ranges(entries), input.value.v).index;
      if pick.Some? && pick.value < |entries| then
        var e := entries[pick.value];
        gradient(e.range, e.from, e.to, p.naValue)(input.value.v)
      else p.naValue
  }

  /** `createContinuousMapper` for a domain already limited and transformed. */
  function CreateContinuousMapper(p: ColorGradient2MapperProvider, domain: Span, gradient: Gradient): (m: Option<Double> -> Color)
    ensures forall input :: !IsFinite(input) ==> m(input) == p.naValue
    ensures forall input :: m(input) == MapColor(p, domain, gradient, input)
  {
    (input: Option<Double>) => MapColor(p, domain, gradient, input)
  }

  /** A finite value outside both sub-domains gets the "no value" colour. */
  lemma OutsideIsNaValue(p: ColorGradient2MapperProvider, domain: Span, gradient: Gradient, v: real)
    requires !LowDomain(domain, p.midpoint).Contains(v) && !HighDomain(domain, p.midpoint).Contains(v)
    ensures MapColor(p, domain, gradient, Some(Finite(v))) == p.naValue
  {
    PickedContains(Ranges(RangeMap(p, domain)), v);
  }

  /** A value strictly below the midpoint, within the domain, is coloured on
      the low→mid gradient; one strictly above it on the mid→high gradient. */
  lemma SidesOfMidpoint(p: ColorGradient2MapperProvider, domain: Span, gradient: Gradient, v: real)
    requires domain.WellFormed() && domain.Contains(v) && v != p.midpoint
    ensures v < p.midpoint ==> (MapColor(p, domain, gradient, Some(Finite(v))) ==
      gradient(LowDomain(domain, p.midpoint), p.low, p.mid, p.naValue)(v))
    ensures v > p.midpoint ==> (MapColor(p, domain, gradient, Some(Finite(v))) ==
      gradient(HighDomain(domain, p.midpoint), p.mid, p.high, p.naValue)(v))
  {
    var entries := RangeMap(p, domain);
    var ranges := Ranges(entries);
    PickedContains(ranges, v);
    SameSubDomains(domain, p.midpoint);
  }

  /** At the midpoint inside the domain both sub-domains hold the value; the
      shorter of positive length wins, the low one on a tie. */
  lemma AtMidpoint(p: ColorGradient2MapperProvider, domain: Span, gradient: Gradient)
    requires domain.lower < p.midpoint < domain.upper
    ensures var low := LowDomain(domain, p.midpoint); var high := HighDomain(domain, p.midpoint);
      MapColor(p, domain, gradient, Some(Finite(p.midpoint))) ==
        if high.Length() < low.Length() then gradient(high, p.mid, p.high, p.naValue)(p.midpoint)
        else gradient(low, p.low, p.mid, p.naValue)(p.midpoint)
  {
    var low := LowDomain(domain, p.midpoint);
    var high := HighDomain(domain, p.midpoint);
    var ranges := Ranges(RangeMap(p, domain));
    assert ranges == [low, high];
    assert ranges[..1] == [low];
    assert Picked([low], p.midpoint) == Pick(Some(0), low.Length());
  }
}
