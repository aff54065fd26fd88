/**
  The frame every chart draws in: fixed pixel dimensions with margins, the
  affine `scaleLinear` map from a data domain to a pixel range, the default
  x and y pixel ranges, and the transparent interaction rectangle that
  receives pan and zoom gestures.
 */
module ChartFrame {
  import opened Extents

  datatype Option<T> = None | Some(value: T)

  datatype Margin = Margin(top: real, right: real, bottom: real, left: real)

  /** A chart's `chartDimensions` object: SVG view-box size and plot margins. */
  datatype Dimensions = Dimensions(width: real, height: real, margin: Margin)

  /** A pixel position handed to SVG or to a d3 path generator. */
  datatype Vertex = Vertex(x: real, y: real)

  /** A d3 `area` vertex: the shared x, the lower edge `y0` and the upper edge `y1`. */
  datatype AreaVertex = AreaVertex(x: real, y0: real, y1: real)

  /** An SVG `<rect>`: top-left corner and size. */
  datatype Rect = Rect(x: real, y: real, width: real, height: real)

  /** The plotting area is non-empty in both directions. */
  predicate HasPlotArea(d: Dimensions) {
    d.width - d.margin.left - d.margin.right > 0.0 &&
    d.height - d.margin.top - d.margin.bottom > 0.0
  }

  /**
    d3 `scaleLinear().domain(domain).range(range)` applied to `v`, without
    clamping: normalise `v` to `t` in the domain, then interpolate the range
    as `first * (1 - t) + last * t`. A degenerate domain normalises every
    value to one half, so it lands on the middle of the range.
   */
  function Scale(domain: Span, range: Span, v: real): (px: real)
    ensures domain.first != domain.last ==>
      (px - range.first) * (domain.last - domain.first) == (v - domain.first) * (range.last - range.first)
    ensures domain.first == domain.last ==> px - range.first == range.last - px
  {
    var t := if domain.first == domain.last then 0.5
             else (v - domain.first) / (domain.last - domain.first);
    range.first * (1.0 - t) + range.last * t
  }

  /** A non-degenerate scale sends the domain's ends to the range's ends. */
  lemma ScaleEndpoints(domain: Span, range: Span)
    requires domain.first != domain.last
    ensures Scale(domain, range, domain.first) == range.first
    ensures Scale(domain, range, domain.last) == range.last
  {
    var w := domain.last - domain.first;
    var a := Scale(domain, range, domain.first);
    var b := Scale(domain, range, domain.last);
    assert (a - range.first) * w == 0.0;
    assert (b - range.first) * w == w * (range.last - range.first);
  }

  /**
    Differences are scaled by the same factor everywhere: on an increasing
    domain, a larger value lands further along the range's direction, so on a
    decreasing pixel range (the y axes) a larger value has a smaller pixel.
   */
  lemma ScaleOrder(domain: Span, range: Span, v: real, w: real)
    requires domain.first < domain.last
    requires v < w
    ensures range.first < range.last ==> Scale(domain, range, v) < Scale(domain, range, w)
    ensures range.first > range.last ==> Scale(domain, range, v) > Scale(domain, range, w)
    ensures range.first == range.last ==> Scale(domain, range, v) == Scale(domain, range, w)
  {
    var dw := domain.last - domain.first;
    var a := Scale(domain, range, v);
    var b := Scale(domain, range, w);
    assert (b - a) * dw == (w - v) * (range.last - range.first);
  }

  /**
    A value inside an ordered domain is scaled into the pixel interval between
    the range's ends. A one-value domain (one episode, or all values equal)
    is included: its value lands on the range's midpoint.
   */
  lemma ScaleInside(domain: Span, range: Span, v: real)
    requires domain.first <= domain.last
    requires Within(domain, v)
    ensures range.last <= range.first ==> range.last <= Scale(domain, range, v) <= range.first
    ensures range.first <= range.last ==> range.first <= Scale(domain, range, v) <= range.last
  {
    if domain.first < domain.last {
      ScaleEndpoints(domain, range);
      if v != domain.first { ScaleOrder(domain, range, domain.first, v); }
      if v != domain.last { ScaleOrder(domain, range, v, domain.last); }
    }
  }

  /** The x pixel range used when the zoom controller reports none: `[margin.left, width - margin.right]`. */
  function DefaultXRange(d: Dimensions): (r: Span)
    ensures HasPlotArea(d) ==> r.first < r.last
    ensures r.last - r.first == d.width - d.margin.left - d.margin.right
  {
    Span(d.margin.left, d.width - d.margin.right)
  }

  /** The y pixel range `[height - margin.bottom, margin.top]`: runs upwards on screen. */
  function YRange(d: Dimensions): (r: Span)
    ensures HasPlotArea(d) ==> r.first > r.last
    ensures r.first - r.last == d.height - d.margin.top - d.margin.bottom
  {
    Span(d.height - d.margin.bottom, d.margin.top)
  }

  /** `xRange ?? [margin.left, width - margin.right]`: the controller's range wins when it gives one. */
  function XRangeOrDefault(xRange: Option<Span>, d: Dimensions): (r: Span)
    ensures xRange.Some? ==> r == xRange.value
    ensures xRange.None? ==> r.first == d.margin.left && r.last == d.width - d.margin.right
  {
    match xRange
    case Some(given) => given
    case None => DefaultXRange(d)
  }

  /**
    `xScale(v)`: the zoom controller's x domain onto its x range, or onto the
    default range when it gives none. The domain's ends land on the range's
    ends, and with the default range a value inside the domain stays between
    the left and right margins.
   */
  function XPixel(d: Dimensions, xDomain: Span, xRange: Option<Span>, v: real): (px: real)
    ensures xDomain.first != xDomain.last && v == xDomain.first ==> px == XRangeOrDefault(xRange, d).first
    ensures xDomain.first != xDomain.last && v == xDomain.last ==> px == XRangeOrDefault(xRange, d).last
    ensures xRange.None? && HasPlotArea(d) && xDomain.first <= xDomain.last && Within(xDomain, v) ==>
      d.margin.left <= px <= d.width - d.margin.right
  {
    var range := XRangeOrDefault(xRange, d);
    assert xDomain.first != xDomain.last ==> Scale(xDomain, range, xDomain.first) == range.first &&
                                             Scale(xDomain, range, xDomain.last) == range.last by {
      if xDomain.first != xDomain.last {
        ScaleEndpoints(xDomain, range);
      }
    }
    assert xRange.None? && xDomain.first <= xDomain.last && Within(xDomain, v) ==>
      range.first <= range.last ==> range.first <= Scale(xDomain, range, v) <= range.last by {
      if xDomain.first <= xDomain.last && Within(xDomain, v) {
        ScaleInside(xDomain, range, v);
      }
    }
    Scale(xDomain, range, v)
  }

  /** `yRange ?? [height - margin.bottom, margin.top]`. */
  function YRangeOrDefault(yRange: Option<Span>, d: Dimensions): (r: Span)
    ensures yRange.Some? ==> r == yRange.value
    ensures yRange.None? ==> r.first == d.height - d.margin.bottom && r.last == d.margin.top
  {
    match yRange
    case Some(given) => given
    case None => YRange(d)
  }

  /** True when pixel `v` lies inside the overlay rectangle `r` (edges included). */
  predicate InRect(r: Rect, v: Vertex) {
    r.x <= v.x <= r.x + r.width && r.y <= v.y <= r.y + r.height
  }

  /**
    The transparent overlay: at `(margin.left, margin.top)`, sized
    `(width - left - right) x (height - top - bottom)`.
   */
  function InteractionRect(d: Dimensions): (r: Rect)
    ensures HasPlotArea(d) <==> r.width > 0.0 && r.height > 0.0
  {
    Rect(d.margin.left, d.margin.top,
         d.width - d.margin.left - d.margin.right,
         d.height - d.margin.top - d.margin.bottom)
  }

  /**
    The overlay covers exactly the plotting area: horizontally the default x
    range, vertically the y range, so every gesture over a plotted point is caught.
   */
  lemma InteractionRectCoversPlot(d: Dimensions)
    ensures InteractionRect(d).x == DefaultXRange(d).first
    ensures InteractionRect(d).x + InteractionRect(d).width == DefaultXRange(d).last
    ensures InteractionRect(d).y == YRange(d).last
    ensures InteractionRect(d).y + InteractionRect(d).height == YRange(d).first
  {
  }

  /**
    With the default ranges, a value pair inside ordered x and y domains is
    drawn inside the overlay, so the gesture layer is over every such mark;
    one-value domains included.
   */
  lemma PlottedInsideRect(d: Dimensions, xDomain: Span, yDomain: Span, x: real, y: real)
    requires HasPlotArea(d)
    requires xDomain.first <= xDomain.last && yDomain.first <= yDomain.last
    requires Within(xDomain, x) && Within(yDomain, y)
    ensures InRect(InteractionRect(d), Vertex(Scale(xDomain, DefaultXRange(d), x), Scale(yDomain, YRange(d), y)))
  {
    ScaleInside(xDomain, DefaultXRange(d), x);
    ScaleInside(yDomain, YRange(d), y);
    InteractionRectCoversPlot(d);
  }
}
