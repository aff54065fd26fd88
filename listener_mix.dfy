/**
  The "Listener Mix" stacked area chart: each episode's listeners split into
  returning and new fractions of the total, stacked returning-first into two
  bands over a fixed [0, 1] y domain with quarter ticks.
 */
module ListenerMix {
  import opened Extents
  import opened ChartFrame

  /** The fields of one episode record this chart reads. */
  datatype ListenerRecord = ListenerRecord(episode: real, newListeners: real, returningListeners: real, listenersTotal: real)

  /** One `shareData` entry. */
  datatype Shares = Shares(newShare: real, returningShare: real)

  /** One stacked value `[lower, upper]` of a d3 stack layer. */
  datatype Band = Band(lower: real, upper: real)

  /** `chartDimensions`: a 640 x 360 view box with margins 24 / 24 / 42 / 60. */
  const Dims := Dimensions(640.0, 360.0, Margin(24.0, 24.0, 42.0, 60.0))

  /** The fixed y domain `[0, 1]`: shares of the audience. */
  const ShareDomain := Span(0.0, 1.0)

  /** `yTicks`. */
  const Ticks := [0.0, 0.25, 0.5, 0.75, 1.0]

  /**
    The zero-guarded normalisation: with no listeners both shares are 0 and
    nothing is divided; otherwise each share times the total gives its count back.
   */
  function ShareOf(d: ListenerRecord): (s: Shares)
    ensures d.listenersTotal == 0.0 ==> s == Shares(0.0, 0.0)
    ensures d.listenersTotal != 0.0 ==>
      s.newShare * d.listenersTotal == d.newListeners && s.returningShare * d.listenersTotal == d.returningListeners
  {
    Shares(if d.listenersTotal == 0.0 then 0.0 else d.newListeners / d.listenersTotal,
           if d.listenersTotal == 0.0 then 0.0 else d.returningListeners / d.listenersTotal)
  }

  /** `shareData = data.map(...)`: one entry per record, in the same order, so index `idx` is `data[idx]`. */
  function ShareData(data: seq<ListenerRecord>): (sd: seq<Shares>)
    ensures |sd| == |data|
    ensures forall i :: 0 <= i < |data| ==> sd[i] == ShareOf(data[i])
  {
    seq(|data|, i requires 0 <= i < |data| => ShareOf(data[i]))
  }

  /**
    `stack().keys(['returningShare', 'newShare'])` with d3's default order and
    offset: two layers, one band per entry. The returning band sits on zero,
    the new band sits directly on the returning band, and each band is as
    tall as its share.
   */
  function Stack(sd: seq<Shares>): (layers: seq<seq<Band>>)
    ensures |layers| == 2 && |layers[0]| == |sd| && |layers[1]| == |sd|
    ensures forall i :: 0 <= i < |sd| ==>
      layers[0][i].lower == 0.0 &&
      layers[0][i].upper == layers[1][i].lower &&
      layers[0][i].upper - layers[0][i].lower == sd[i].returningShare &&
      layers[1][i].upper - layers[1][i].lower == sd[i].newShare
  {
    [seq(|sd|, i requires 0 <= i < |sd| => Band(0.0, sd[i].returningShare)),
     seq(|sd|, i requires 0 <= i < |sd| => Band(sd[i].returningShare, sd[i].returningShare + sd[i].newShare))]
  }

  /** The counts are non-negative and partition a positive total. */
  predicate Consistent(d: ListenerRecord) {
    0.0 <= d.newListeners && 0.0 <= d.returningListeners &&
    d.newListeners + d.returningListeners == d.listenersTotal && d.listenersTotal > 0.0
  }

  lemma FractionBounds(part: real, total: real)
    requires 0.0 <= part <= total && total > 0.0
    ensures 0.0 <= part / total <= 1.0
  {
    assert part / total * total == part;
  }

  lemma PartsOfWhole(a: real, b: real, total: real)
    requires total != 0.0 && a + b == total
    ensures a / total + b / total == 1.0
  {
    assert a / total + b / total == (a + b) / total;
  }

  /**
    For a consistent record both shares are fractions in [0, 1] and they
    add up to 1.
   */
  lemma SharesAreFractions(d: ListenerRecord)
    requires Consistent(d)
    ensures 0.0 <= ShareOf(d).newShare <= 1.0 && 0.0 <= ShareOf(d).returningShare <= 1.0
    ensures ShareOf(d).newShare + ShareOf(d).returningShare == 1.0
  {
    var s := ShareOf(d);
    var t := d.listenersTotal;
    FractionBounds(d.newListeners, t);
    FractionBounds(d.returningListeners, t);
    PartsOfWhole(d.newListeners, d.returningListeners, t);
  }

  /**
    For consistent records the two bands stay inside the fixed domain
    [0, 1], and the top band ends exactly at 1, the top of the chart.
   */
  lemma StackFillsDomain(data: seq<ListenerRecord>)
    requires forall i :: 0 <= i < |data| ==> Consistent(data[i])
    ensures forall i :: 0 <= i < |data| ==>
      Within(ShareDomain, Stack(ShareData(data))[0][i].lower) &&
      Within(ShareDomain, Stack(ShareData(data))[0][i].upper) &&
      Stack(ShareData(data))[1][i].upper == ShareDomain.last
  {
    var sd := ShareData(data);
    var layers: seq<seq<Band>> := Stack(sd);
    forall i | 0 <= i < |data|
      ensures Within(ShareDomain, layers[0][i].lower) && Within(ShareDomain, layers[0][i].upper)
      ensures layers[1][i].upper == ShareDomain.last
    {
      SharesAreFractions(data[i]);
    }
  }

  /** With no listeners the episode draws two empty bands at zero. */
  lemma SilentEpisodeStacksAtZero(data: seq<ListenerRecord>, i: nat)
    requires i < |data| && data[i].listenersTotal == 0.0
    ensures Stack(ShareData(data))[0][i] == Band(0.0, 0.0) && Stack(ShareData(data))[1][i] == Band(0.0, 0.0)
  {
    var sd := ShareData(data);
    var layers: seq<seq<Band>> := Stack(sd);
    assert sd[i] == Shares(0.0, 0.0);
    assert layers[1][i].lower == 0.0;
  }

  /** The quarter ticks rise strictly and stay inside [0, 1]. */
  lemma TicksOrdered()
    ensures forall i, j :: 0 <= i < j < |Ticks| ==> Ticks[i] < Ticks[j]
    ensures forall i :: 0 <= i < |Ticks| ==> Within(ShareDomain, Ticks[i])
  {
  }

  /** `yScale`: `[0, 1]` onto `[height - margin.bottom, margin.top]`. */
  function YPixel(share: real): (px: real)
    ensures Within(ShareDomain, share) ==> Dims.margin.top <= px <= Dims.height - Dims.margin.bottom
  {
    var px := Scale(ShareDomain, YRange(Dims), share);
    assert Within(ShareDomain, share) ==> Dims.margin.top <= px <= Dims.height - Dims.margin.bottom by {
      if Within(ShareDomain, share) {
        ScaleInside(ShareDomain, YRange(Dims), share);
      }
    }
    px
  }

  /** The tick grid lines fall every 73.5 pixels from 318 (0%) up to 24 (100%). */
  lemma TickPixelsEvenlySpaced()
    ensures YPixel(Ticks[0]) == 318.0 && YPixel(Ticks[4]) == 24.0
    ensures forall i :: 0 <= i < 4 ==> YPixel(Ticks[i]) - YPixel(Ticks[i + 1]) == 73.5
  {
    assert YPixel(0.0) == 318.0 && YPixel(0.25) == 244.5 && YPixel(0.5) == 171.0;
    assert YPixel(0.75) == 97.5 && YPixel(1.0) == 24.0;
  }

  /**
    `areaGenerator` applied to one layer: vertex `idx` takes its x from
    `data[idx].episode` and its two y values from the band's ends.
   */
  function AreaVertices(data: seq<ListenerRecord>, layer: seq<Band>, xDomain: Span, xRange: Option<Span>): (vs: seq<AreaVertex>)
    requires |layer| == |data|
    ensures |vs| == |data|
    ensures forall i :: 0 <= i < |data| ==>
      vs[i].x == XPixel(Dims, xDomain, xRange, data[i].episode) &&
      vs[i].y0 == YPixel(layer[i].lower) && vs[i].y1 == YPixel(layer[i].upper)
  {
    seq(|data|, i requires 0 <= i < |data| =>
      AreaVertex(XPixel(Dims, xDomain, xRange, data[i].episode), YPixel(layer[i].lower), YPixel(layer[i].upper)))
  }

  /**
    For consistent records the two areas meet without a gap: the returning
    area's top edge is the new area's bottom edge at every vertex, the
    returning area starts at the chart's bottom (318) and the new area ends
    at its top (24).
   */
  lemma AreasTile(data: seq<ListenerRecord>, xDomain: Span, xRange: Option<Span>)
    requires forall i :: 0 <= i < |data| ==> Consistent(data[i])
    ensures var layers := Stack(ShareData(data));
            var returning := AreaVertices(data, layers[0], xDomain, xRange);
            var newcomers := AreaVertices(data, layers[1], xDomain, xRange);
            forall i :: 0 <= i < |data| ==>
              returning[i].y0 == 318.0 && returning[i].y1 == newcomers[i].y0 && newcomers[i].y1 == 24.0 &&
              returning[i].x == newcomers[i].x
  {
    var layers: seq<seq<Band>> := Stack(ShareData(data));
    StackFillsDomain(data);
    assert YPixel(0.0) == 318.0 && YPixel(1.0) == 24.0;
  }

  /** `extent(data, d => d.episode)`: first and last episode number of the series. */
  function BaseXDomain(data: seq<ListenerRecord>): (d: Span)
    requires |data| > 0
    ensures d.first <= d.last
    ensures forall i :: 0 <= i < |data| ==> Within(d, data[i].episode)
    ensures exists i :: 0 <= i < |data| && data[i].episode == d.first
    ensures exists j :: 0 <= j < |data| && data[j].episode == d.last
  {
    ExtentBy(data, (r: ListenerRecord) => r.episode)
  }

  /**
    The fixed frame: the x range falls back to [60, 616], the y range is
    [318, 24], and the overlay is the 556 x 294 plotting area at (60, 24).
   */
  lemma ListenerMixFrame()
    ensures HasPlotArea(Dims)
    ensures XRangeOrDefault(None, Dims) == Span(60.0, 616.0)
    ensures YRange(Dims) == Span(318.0, 24.0)
    ensures InteractionRect(Dims) == Rect(60.0, 24.0, 556.0, 294.0)
  {
  }
}
