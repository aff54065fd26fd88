/**
  The "Completion Discipline" line chart: completion rate and its rolling
  average per episode, on a y domain that always shows the band [0.45, 0.95]
  and widens to keep every rate at least 0.02 away from the edges.
 */
module CompletionRate {
  import opened Extents
  import opened ChartFrame

  /** The fields of one episode record this chart reads. */
  datatype CompletionRecord = CompletionRecord(episode: real, completionRate: real, completionRolling: real)

  /** `chartDimensions`: a 640 x 360 view box with margins 24 / 24 / 42 / 60. */
  const Dims := Dimensions(640.0, 360.0, Margin(24.0, 24.0, 42.0, 60.0))

  /** `Math.min` of two numbers. */
  function MathMin(a: real, b: real): (m: real)
    ensures m <= a && m <= b
    ensures m == a || m == b
  {
    if a <= b then a else b
  }

  /** `Math.max` of two numbers. */
  function MathMax(a: real, b: real): (m: real)
    ensures m >= a && m >= b
    ensures m == a || m == b
  {
    if a >= b then a else b
  }

  function Rates(data: seq<CompletionRecord>): (rs: seq<real>)
    ensures |rs| == |data|
    ensures forall i :: 0 <= i < |data| ==> rs[i] == data[i].completionRate
  {
    seq(|data|, i requires 0 <= i < |data| => data[i].completionRate)
  }

  /**
    `[Math.min(0.45, minRate - 0.02), Math.max(0.95, maxRate + 0.02)]`. The
    domain always covers [0.45, 0.95], so it is never degenerate, and every
    rate lies at least 0.02 inside it. Each end is either the fixed bound or
    exactly 0.02 beyond some rate.
   */
  function YDomain(data: seq<CompletionRecord>): (d: Span)
    requires |data| > 0
    ensures d.first <= 0.45 && 0.95 <= d.last
    ensures forall i :: 0 <= i < |data| ==> d.first + 0.02 <= data[i].completionRate <= d.last - 0.02
    ensures d.first == 0.45 || exists i :: 0 <= i < |data| && data[i].completionRate - 0.02 == d.first
    ensures d.last == 0.95 || exists i :: 0 <= i < |data| && data[i].completionRate + 0.02 == d.last
  {
    var rs := Rates(data);
    var minRate := Min(rs);
    var maxRate := Max(rs);
    var d := Span(MathMin(0.45, minRate - 0.02), MathMax(0.95, maxRate + 0.02));
    assert forall i :: 0 <= i < |data| ==> d.first + 0.02 <= data[i].completionRate <= d.last - 0.02 by {
      forall i | 0 <= i < |data| ensures d.first + 0.02 <= data[i].completionRate <= d.last - 0.02 {
        assert minRate <= rs[i] <= maxRate;
      }
    }
    assert minRate in rs && maxRate in rs;
    d
  }

  /**
    The domain is the narrowest one with these properties: any span that
    covers [0.45, 0.95] and keeps every rate 0.02 inside contains it.
   */
  lemma YDomainIsNarrowest(data: seq<CompletionRecord>, s: Span)
    requires |data| > 0
    requires s.first <= 0.45 && 0.95 <= s.last
    requires forall i :: 0 <= i < |data| ==> s.first + 0.02 <= data[i].completionRate <= s.last - 0.02
    ensures s.first <= YDomain(data).first && YDomain(data).last <= s.last
  {
  }

  /**
    `yScale`: the padded domain onto `[height - margin.bottom, margin.top]`.
    The domain is never a single value, so its bottom end is drawn at 318,
    its top end at 24, and every value in between inside those lines.
   */
  function YPixel(data: seq<CompletionRecord>, v: real): (px: real)
    requires |data| > 0
    ensures v == YDomain(data).first ==> px == 318.0
    ensures v == YDomain(data).last ==> px == 24.0
    ensures Within(YDomain(data), v) ==> 24.0 <= px <= 318.0
  {
    var d := YDomain(data);
    ScaleEndpoints(d, YRange(Dims));
    assert Within(d, v) ==> 24.0 <= Scale(d, YRange(Dims), v) <= 318.0 by {
      if Within(d, v) {
        ScaleInside(d, YRange(Dims), v);
      }
    }
    Scale(d, YRange(Dims), v)
  }

  /** A higher completion rate is drawn higher on the screen, at a smaller pixel y. */
  lemma HigherRateDrawnHigher(data: seq<CompletionRecord>, a: real, b: real)
    requires |data| > 0
    requires a < b
    ensures YPixel(data, a) > YPixel(data, b)
  {
    ScaleOrder(YDomain(data), YRange(Dims), a, b);
  }

  /**
    Any value between the smallest and the largest rate (every rate, and so
    any average of them) is drawn strictly inside the plot, between the
    top margin at 24 and the bottom edge at 318.
   */
  lemma RateRangeInsidePlot(data: seq<CompletionRecord>, v: real)
    requires |data| > 0
    requires Min(Rates(data)) <= v <= Max(Rates(data))
    ensures 24.0 < YPixel(data, v) < 318.0
  {
    var d := YDomain(data);
    var rs := Rates(data);
    assert Min(rs) in rs && Max(rs) in rs;
    assert d.first < v < d.last;
    ScaleEndpoints(d, YRange(Dims));
    ScaleOrder(d, YRange(Dims), d.first, v);
    ScaleOrder(d, YRange(Dims), v, d.last);
  }

  /**
    The vertices `completionLine` is drawn through, which are also the dot
    centres: every one lies strictly between the plot's top and bottom.
   */
  function CompletionLine(data: seq<CompletionRecord>, xDomain: Span, xRange: Option<Span>): (vs: seq<Vertex>)
    requires |data| > 0
    ensures |vs| == |data|
    ensures forall i :: 0 <= i < |data| ==> vs[i].x == XPixel(Dims, xDomain, xRange, data[i].episode)
    ensures forall i :: 0 <= i < |data| ==> 24.0 < vs[i].y < 318.0
  {
    var vs := seq(|data|, i requires 0 <= i < |data| =>
      Vertex(XPixel(Dims, xDomain, xRange, data[i].episode), YPixel(data, data[i].completionRate)));
    assert forall i :: 0 <= i < |data| ==> 24.0 < vs[i].y < 318.0 by {
      var rs := Rates(data);
      forall i | 0 <= i < |data| ensures 24.0 < vs[i].y < 318.0 {
        assert Min(rs) <= rs[i] <= Max(rs);
        RateRangeInsidePlot(data, data[i].completionRate);
      }
    }
    vs
  }

  /**
    The vertices `rollingLine` is drawn through: the same x as the rate line,
    and inside the plot wherever the rolling average stays within the range
    of the rates.
   */
  function RollingLine(data: seq<CompletionRecord>, xDomain: Span, xRange: Option<Span>): (vs: seq<Vertex>)
    requires |data| > 0
    ensures |vs| == |data|
    ensures forall i :: 0 <= i < |data| ==> vs[i].x == XPixel(Dims, xDomain, xRange, data[i].episode)
    ensures forall i :: 0 <= i < |data| && Min(Rates(data)) <= data[i].completionRolling <= Max(Rates(data)) ==>
      24.0 < vs[i].y < 318.0
  {
    var vs := seq(|data|, i requires 0 <= i < |data| =>
      Vertex(XPixel(Dims, xDomain, xRange, data[i].episode), YPixel(data, data[i].completionRolling)));
    assert forall i :: 0 <= i < |data| && Min(Rates(data)) <= data[i].completionRolling <= Max(Rates(data)) ==>
      24.0 < vs[i].y < 318.0 by {
      forall i | 0 <= i < |data| && Min(Rates(data)) <= data[i].completionRolling <= Max(Rates(data))
        ensures 24.0 < vs[i].y < 318.0
      {
        RateRangeInsidePlot(data, data[i].completionRolling);
      }
    }
    vs
  }

  /** `extent(data, d => d.episode)`: first and last episode number of the series. */
  function BaseXDomain(data: seq<CompletionRecord>): (d: Span)
    requires |data| > 0
    ensures d.first <= d.last
    ensures forall i :: 0 <= i < |data| ==> Within(d, data[i].episode)
    ensures exists i :: 0 <= i < |data| && data[i].episode == d.first
    ensures exists j :: 0 <= j < |data| && data[j].episode == d.last
  {
    ExtentBy(data, (r: CompletionRecord) => r.episode)
  }

  /**
    The fixed frame: the x range falls back to [60, 616], the y range is
    [318, 24], and the overlay is the 556 x 294 plotting area at (60, 24).
   */
  lemma CompletionFrame()
    ensures HasPlotArea(Dims)
    ensures XRangeOrDefault(None, Dims) == Span(60.0, 616.0)
    ensures YRange(Dims) == Span(318.0, 24.0)
    ensures InteractionRect(Dims) == Rect(60.0, 24.0, 556.0, 294.0)
  {
  }
}
