/**
  The "Social Share Conversion" scatter chart: one dot per episode at
  (social media shares, subscribers gained), an x domain spanning the shares,
  a y domain from 0 to 110% of the largest gain, the least-squares trend line
  drawn across the zoomed x domain, and the episode with the most shares
  highlighted.
 */
module SharesSubscribersScatter {
  import opened Extents
  import opened ChartFrame
  import opened Regression

  /** The fields of one episode record this chart reads. */
  datatype ScatterRecord = ScatterRecord(episode: real, socialMediaShares: real, subscribersGained: real)

  /** `chartDimensions`: a 640 x 360 view box with margins 24 / 32 / 52 / 68. */
  const Dims := Dimensions(640.0, 360.0, Margin(24.0, 32.0, 52.0, 68.0))

  function ToPoint(d: ScatterRecord): Point {
    Point(d.socialMediaShares, d.subscribersGained, d.episode)
  }

  /** `data.map(...)`: one point per record, in order, shares on x and subscribers on y. */
  function ToPoints(data: seq<ScatterRecord>): (ps: seq<Point>)
    ensures |ps| == |data|
    ensures forall i :: 0 <= i < |data| ==>
      ps[i].x == data[i].socialMediaShares && ps[i].y == data[i].subscribersGained && ps[i].episode == data[i].episode
  {
    seq(|data|, i requires 0 <= i < |data| => ToPoint(data[i]))
  }

  function Ys(ps: seq<Point>): (ys: seq<real>)
    ensures |ys| == |ps|
    ensures forall i :: 0 <= i < |ps| ==> ys[i] == ps[i].y
  {
    seq(|ps|, i requires 0 <= i < |ps| => ps[i].y)
  }

  /** `extent(points, p => p.x)`: an ordered span whose ends are shares of some episode and that holds them all. */
  function XDomain(ps: seq<Point>): (d: Span)
    requires |ps| > 0
    ensures d.first <= d.last
    ensures exists i :: 0 <= i < |ps| && ps[i].x == d.first
    ensures exists j :: 0 <= j < |ps| && ps[j].x == d.last
    ensures forall i :: 0 <= i < |ps| ==> Within(d, ps[i].x)
  {
    ExtentBy(ps, (p: Point) => p.x)
  }

  /**
    `[0, max(points, p => p.y) * 1.1]`. The top clears every point exactly
    when the largest gain is not negative; then it leaves 10% headroom. When
    every gain is 0 the domain is the single value 0.
   */
  function YDomain(ps: seq<Point>): (d: Span)
    requires |ps| > 0
    ensures d.first == 0.0 && d.last == Max(Ys(ps)) * 1.1
    ensures Max(Ys(ps)) == 0.0 ==> d.first == d.last
    ensures (forall i :: 0 <= i < |ps| ==> ps[i].y <= d.last) <==> Max(Ys(ps)) >= 0.0
    ensures Max(Ys(ps)) > 0.0 ==> d.first < d.last && d.last - Max(Ys(ps)) == Max(Ys(ps)) / 10.0
  {
    var ys := Ys(ps);
    var m := Max(ys);
    var d := Span(0.0, m * 1.1);
    assert (forall i :: 0 <= i < |ps| ==> ps[i].y <= d.last) <==> m >= 0.0 by {
      var k :| 0 <= k < |ys| && ys[k] == m;
      if m >= 0.0 {
        forall i | 0 <= i < |ps| ensures ps[i].y <= d.last {
          assert ys[i] <= m;
        }
      } else {
        assert ps[k].y > d.last;
      }
    }
    d
  }

  /**
    The `topShare` reduce without a seed: starting from the first point, a
    later point replaces the kept one only when its shares are strictly
    greater. The result is an index whose shares are the largest, and every
    earlier point has strictly fewer, so among ties the first one wins.
   */
  function TopShare(ps: seq<Point>): (k: nat)
    requires |ps| > 0
    ensures k < |ps|
    ensures forall i :: 0 <= i < |ps| ==> ps[i].x <= ps[k].x
    ensures forall i :: 0 <= i < k ==> ps[i].x < ps[k].x
    decreases |ps|
  {
    if |ps| == 1 then 0
    else
      var init := ps[..|ps| - 1];
      var k := TopShare(init);
      assert forall i :: 0 <= i < |init| ==> init[i] == ps[i];
      if ps[|ps| - 1].x > ps[k].x then |ps| - 1 else k
  }

  /** Index `k` holds the largest shares, and every earlier point has strictly fewer. */
  predicate FirstTop(ps: seq<Point>, k: int) {
    0 <= k < |ps| &&
    (forall i :: 0 <= i < |ps| ==> ps[i].x <= ps[k].x) &&
    (forall i :: 0 <= i < k ==> ps[i].x < ps[k].x)
  }

  /** There is only one first point with the most shares. */
  lemma FirstTopUnique(ps: seq<Point>, k: int, l: int)
    requires FirstTop(ps, k) && FirstTop(ps, l)
    ensures k == l
  {
    assert ps[k].x == ps[l].x;
    assert !(k < l) && !(l < k);
  }

  /**
    `point.episode === topShare.episode`: the dot is drawn larger and
    highlighted exactly when it carries the episode of the first point with
    the most shares.
   */
  function IsHighlight(ps: seq<Point>, p: Point): (b: bool)
    requires |ps| > 0
    ensures b <==> exists k :: FirstTop(ps, k) && ps[k].episode == p.episode
  {
    var t := TopShare(ps);
    assert FirstTop(ps, t);
    assert (exists k :: FirstTop(ps, k) && ps[k].episode == p.episode) ==> p.episode == ps[t].episode by {
      if exists k :: FirstTop(ps, k) && ps[k].episode == p.episode {
        var k :| FirstTop(ps, k) && ps[k].episode == p.episode;
        FirstTopUnique(ps, k, t);
      }
    }
    p.episode == ps[t].episode
  }

  predicate DistinctEpisodes(ps: seq<Point>) {
    forall i, j :: 0 <= i < |ps| && 0 <= j < |ps| && i != j ==> ps[i].episode != ps[j].episode
  }

  /**
    With one point per episode, exactly one dot is highlighted: the first one
    with the most shares.
   */
  lemma HighlightIsTopShare(ps: seq<Point>)
    requires |ps| > 0
    requires DistinctEpisodes(ps)
    ensures forall i :: 0 <= i < |ps| ==> (IsHighlight(ps, ps[i]) <==> i == TopShare(ps))
  {
  }

  /**
    Highlighting goes by episode, not by record: every record that shares the
    top-share point's episode is highlighted too, whatever its own shares.
   */
  lemma HighlightNeedsDistinctEpisodes(ps: seq<Point>, i: nat)
    requires |ps| > 0 && i < |ps|
    requires ps[i].episode == ps[TopShare(ps)].episode
    ensures IsHighlight(ps, ps[i]) && IsHighlight(ps, ps[TopShare(ps)])
  {
  }

  /** An example: records (5 shares, episode 1) and (2 shares, episode 1) are both highlighted. */
  lemma ExampleSharedEpisode()
    ensures var ps := [Point(5.0, 0.0, 1.0), Point(2.0, 0.0, 1.0)];
            IsHighlight(ps, ps[0]) && IsHighlight(ps, ps[1])
  {
    var ps := [Point(5.0, 0.0, 1.0), Point(2.0, 0.0, 1.0)];
    assert ps[..1] == [ps[0]];
    assert TopShare(ps) == 0;
  }

  /** `y = slope * x + intercept` holds at the vertex. */
  predicate OnFit(f: Fit, v: Vertex) {
    v.y == f.slope * v.x + f.intercept
  }

  /**
    `regressionLine`: the fitted line cut at the ends of the zoomed x domain.
    Both vertices lie on the line.
   */
  function RegressionLine(regression: Fit, zoomedXDomain: Span): (seg: seq<Vertex>)
    ensures |seg| == 2
    ensures seg[0].x == zoomedXDomain.first && seg[1].x == zoomedXDomain.last
    ensures forall i :: 0 <= i < 2 ==> OnFit(regression, seg[i])
  {
    [Vertex(zoomedXDomain.first, regression.slope * zoomedXDomain.first + regression.intercept),
     Vertex(zoomedXDomain.last, regression.slope * zoomedXDomain.last + regression.intercept)]
  }

  /**
    The drawn segment gives the fit back: over a non-degenerate zoomed
    domain its rise over run is the slope, and extending it to x = 0 meets
    the intercept. Zooming only moves the cut points along the same line.
   */
  lemma RegressionLineRecoversFit(regression: Fit, zoomedXDomain: Span)
    requires zoomedXDomain.first != zoomedXDomain.last
    ensures var seg := RegressionLine(regression, zoomedXDomain);
            var slope := (seg[1].y - seg[0].y) / (seg[1].x - seg[0].x);
            slope == regression.slope && seg[0].y - slope * seg[0].x == regression.intercept
  {
    var seg := RegressionLine(regression, zoomedXDomain);
    var run := seg[1].x - seg[0].x;
    var rise := seg[1].y - seg[0].y;
    assert OnFit(regression, seg[0]) && OnFit(regression, seg[1]);
    assert rise == regression.slope * run;
    assert run != 0.0;
    assert rise / run == regression.slope;
    assert seg[0].y - regression.slope * seg[0].x == regression.intercept;
  }

  /**
    The line is fitted to all points whatever the zoom: on exactly linear
    data with varying shares, the drawn segment lies on the data's own line.
   */
  lemma RegressionLineFollowsData(ps: seq<Point>, a: real, b: real, zoomedXDomain: Span)
    requires OnLine(ps, a, b)
    requires !AllXEqual(ps)
    ensures forall i :: 0 <= i < 2 ==> OnFit(Fit(a, b), RegressionLine(CalculateRegression(ps), zoomedXDomain)[i])
  {
    CollinearRecovered(ps, a, b);
  }

  /**
    A dot's centre `(xScale(point.x), yScale(point.y))` with the zoom
    controller's domains and optional pixel ranges. With the default ranges,
    a point inside ordered domains (one-value domains included, as for a
    single episode or all gains 0) is drawn inside the overlay.
   */
  function DotCenter(zoomedXDomain: Span, zoomedYDomain: Span, xRange: Option<Span>, yRange: Option<Span>, p: Point): (v: Vertex)
    ensures (xRange.None? && yRange.None? && zoomedXDomain.first <= zoomedXDomain.last &&
             zoomedYDomain.first <= zoomedYDomain.last && Within(zoomedXDomain, p.x) && Within(zoomedYDomain, p.y))
            ==> InRect(InteractionRect(Dims), v)
  {
    var v := Vertex(XPixel(Dims, zoomedXDomain, xRange, p.x),
                    Scale(zoomedYDomain, YRangeOrDefault(yRange, Dims), p.y));
    var inside := xRange.None? && yRange.None? && zoomedXDomain.first <= zoomedXDomain.last &&
                  zoomedYDomain.first <= zoomedYDomain.last && Within(zoomedXDomain, p.x) && Within(zoomedYDomain, p.y);
    assert inside ==> InRect(InteractionRect(Dims), v) by {
      if inside {
        PlottedInsideRect(Dims, zoomedXDomain, zoomedYDomain, p.x, p.y);
      }
    }
    v
  }

  /**
    The fixed frame: the x range falls back to [68, 608], the y range is
    [308, 24], and the overlay is the 540 x 284 plotting area at (68, 24).
   */
  lemma ScatterFrame()
    ensures HasPlotArea(Dims)
    ensures XRangeOrDefault(None, Dims) == Span(68.0, 608.0)
    ensures YRangeOrDefault(None, Dims) == Span(308.0, 24.0)
    ensures InteractionRect(Dims) == Rect(68.0, 24.0, 540.0, 284.0)
  {
  }
}
