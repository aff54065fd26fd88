/**
  The "Subscriber Trajectory" chart: cumulative subscribers per episode,
  drawn as an area filled down to the zero line and a line along its top,
  over a y domain from 0 to 105% of the largest total.
 */
module SubscriberGrowth {
  import opened Extents
  import opened ChartFrame

  /** The fields of one episode record this chart reads. */
  datatype GrowthRecord = GrowthRecord(episode: real, cumulativeSubscribers: real)

  /** `chartDimensions`: a 640 x 360 view box with margins 24 / 24 / 42 / 60. */
  const Dims := Dimensions(640.0, 360.0, Margin(24.0, 24.0, 42.0, 60.0))

  function Totals(data: seq<GrowthRecord>): (ts: seq<real>)
    ensures |ts| == |data|
    ensures forall i :: 0 <= i < |data| ==> ts[i] == data[i].cumulativeSubscribers
  {
    seq(|data|, i requires 0 <= i < |data| => data[i].cumulativeSubscribers)
  }

  /**
    `[0, max(data, d => d.cumulativeSubscribers) * 1.05]`. The top clears
    every total exactly when the largest total is not negative; then it
    leaves 5% headroom. When the largest total is 0 the domain is the single
    value 0.
   */
  function YDomain(data: seq<GrowthRecord>): (d: Span)
    requires |data| > 0
    ensures d.first == 0.0 && d.last == Max(Totals(data)) * 1.05
    ensures Max(Totals(data)) == 0.0 ==> d.first == d.last
    ensures (forall i :: 0 <= i < |data| ==> data[i].cumulativeSubscribers <= d.last) <==> Max(Totals(data)) >= 0.0
    ensures Max(Totals(data)) > 0.0 ==> d.first < d.last && d.last - Max(Totals(data)) == Max(Totals(data)) / 20.0
  {
    var ts := Totals(data);
    var m := Max(ts);
    var d := Span(0.0, m * 1.05);
    assert (forall i :: 0 <= i < |data| ==> data[i].cumulativeSubscribers <= d.last) <==> m >= 0.0 by {
      var k :| 0 <= k < |ts| && ts[k] == m;
      if m >= 0.0 {
        forall i | 0 <= i < |data| ensures data[i].cumulativeSubscribers <= d.last {
          assert ts[i] <= m;
        }
      } else {
        assert data[k].cumulativeSubscribers > d.last;
      }
    }
    d
  }

  /**
    `yScale`: the domain onto `[height - margin.bottom, margin.top]`. Unless
    the largest total is 0, zero is drawn at the bottom of the plot (318)
    and the domain's top at the top margin (24); a largest total of 0 makes
    the domain one value, and d3 then draws everything at the middle, 171.
   */
  function YPixel(data: seq<GrowthRecord>, v: real): (px: real)
    requires |data| > 0
    ensures Max(Totals(data)) != 0.0 && v == 0.0 ==> px == 318.0
    ensures Max(Totals(data)) != 0.0 && v == YDomain(data).last ==> px == 24.0
    ensures Max(Totals(data)) == 0.0 ==> px == 171.0
  {
    var d := YDomain(data);
    assert d.first != d.last ==> Scale(d, YRange(Dims), d.first) == 318.0 && Scale(d, YRange(Dims), d.last) == 24.0 by {
      if d.first != d.last {
        ScaleEndpoints(d, YRange(Dims));
      }
    }
    Scale(d, YRange(Dims), v)
  }

  /**
    `yScale(0)`, the area's lower edge. Zero is the start of the domain, so
    it is the bottom of the plot at 318, unless the largest total is 0: then
    the domain is [0, 0] and d3 puts every value at the middle of the range, 171.
   */
  function Baseline(data: seq<GrowthRecord>): (b: real)
    requires |data| > 0
    ensures Max(Totals(data)) != 0.0 ==> b == Dims.height - Dims.margin.bottom
    ensures Max(Totals(data)) == 0.0 ==> b == 171.0
  {
    YPixel(data, 0.0)
  }

  /** The vertices of `areaPath`: x from the episode, `y0` the baseline, `y1` the total. */
  function AreaVertices(data: seq<GrowthRecord>, xDomain: Span, xRange: Option<Span>): (vs: seq<AreaVertex>)
    requires |data| > 0
    ensures |vs| == |data|
    ensures forall i :: 0 <= i < |data| ==> vs[i].y0 == Baseline(data)
  {
    seq(|data|, i requires 0 <= i < |data| =>
      AreaVertex(XPixel(Dims, xDomain, xRange, data[i].episode), Baseline(data), YPixel(data, data[i].cumulativeSubscribers)))
  }

  /** The vertices of `linePath`. */
  function LineVertices(data: seq<GrowthRecord>, xDomain: Span, xRange: Option<Span>): (vs: seq<Vertex>)
    requires |data| > 0
    ensures |vs| == |data|
  {
    seq(|data|, i requires 0 <= i < |data| =>
      Vertex(XPixel(Dims, xDomain, xRange, data[i].episode), YPixel(data, data[i].cumulativeSubscribers)))
  }

  /** The line and the area's upper edge use the same accessors, so the line runs exactly along the area's top. */
  lemma LineTracesAreaTop(data: seq<GrowthRecord>, xDomain: Span, xRange: Option<Span>)
    requires |data| > 0
    ensures forall i :: 0 <= i < |data| ==>
      LineVertices(data, xDomain, xRange)[i] == Vertex(AreaVertices(data, xDomain, xRange)[i].x, AreaVertices(data, xDomain, xRange)[i].y1)
  {
  }

  /**
    With non-negative totals, not all zero, the area is filled between the
    bottom of the plot (318) and a top edge that stays at or below the top
    margin (24) and never dips under the baseline.
   */
  lemma AreaInsidePlot(data: seq<GrowthRecord>, xDomain: Span, xRange: Option<Span>)
    requires |data| > 0
    requires forall i :: 0 <= i < |data| ==> data[i].cumulativeSubscribers >= 0.0
    requires Max(Totals(data)) != 0.0
    ensures forall i :: 0 <= i < |data| ==>
      var v := AreaVertices(data, xDomain, xRange)[i];
      v.y0 == 318.0 && 24.0 <= v.y1 <= v.y0
  {
    var d := YDomain(data);
    var ts := Totals(data);
    assert ts[0] >= 0.0;
    assert Max(ts) > 0.0;
    var vs := AreaVertices(data, xDomain, xRange);
    forall i | 0 <= i < |data|
      ensures vs[i].y0 == 318.0 && 24.0 <= vs[i].y1 <= vs[i].y0
    {
      assert Within(d, ts[i]);
      ScaleInside(d, YRange(Dims), ts[i]);
    }
  }

  /** `extent(data, d => d.episode)`: first and last episode number of the series. */
  function BaseXDomain(data: seq<GrowthRecord>): (d: Span)
    requires |data| > 0
    ensures d.first <= d.last
    ensures forall i :: 0 <= i < |data| ==> Within(d, data[i].episode)
    ensures exists i :: 0 <= i < |data| && data[i].episode == d.first
    ensures exists j :: 0 <= j < |data| && data[j].episode == d.last
  {
    ExtentBy(data, (r: GrowthRecord) => r.episode)
  }

  /**
    The fixed frame: the x range falls back to [60, 616], the y range is
    [318, 24], and the overlay is the 556 x 294 plotting area at (60, 24).
   */
  lemma GrowthFrame()
    ensures HasPlotArea(Dims)
    ensures XRangeOrDefault(None, Dims) == Span(60.0, 616.0)
    ensures YRange(Dims) == Span(318.0, 24.0)
    ensures InteractionRect(Dims) == Rect(60.0, 24.0, 556.0, 294.0)
  {
  }
}
