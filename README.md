# Podcast analytics charts: verified model of the chart logic

This project models the numeric logic in four React chart components of a
podcast analytics dashboard. Each chart draws per-episode data with d3 scales
inside a fixed 640 x 360 view box. The model leaves out the SVG markup and
keeps what the charts compute:

- **Social Share Conversion** (`SharesSubscribersScatter.jsx`) maps episodes
  to (shares, subscribers gained) points. It fits a least-squares trend line
  with an explicit degenerate-input policy, draws that line across the zoomed
  x domain, and highlights the episode with the most shares.
- **Listener Mix** (`ListenerMixChart.jsx`) splits each episode's listeners
  into new and returning shares, with a guard for a zero total. It stacks the
  shares into two bands over the fixed domain [0, 1].
- **Completion Discipline** (`CompletionRateChart.jsx`) draws completion rates
  and their rolling average. Its y domain is padded around the rates.
- **Subscriber Trajectory** (`SubscriberGrowthChart.jsx`) draws cumulative
  subscribers as an area on the zero line, with 5% headroom.

Numbers are Dafny `real`s. d3's `scaleLinear` is modelled as the affine map
it is, including d3's rule for a degenerate domain: every value goes to the
middle of the range. `extent`, `min` and `max` over non-empty data are
modelled too. The folds of `calculateRegression` are left folds over the
point sequence, matching `reduce`.

Modules:

| file | module | contents |
|---|---|---|
| `extents.dfy` | `Extents` | `Span`, `Max`, `Min`, `Extent` |
| `chart_frame.dfy` | `ChartFrame` | dimensions, `Scale`, default pixel ranges, the interaction rectangle |
| `regression.dfy` | `Regression` | `calculateRegression`, its sums, and the least-squares theory behind it |
| `shares_subscribers_scatter.dfy` | `SharesSubscribersScatter` | the scatter chart |
| `listener_mix.dfy` | `ListenerMix` | the stacked share chart |
| `completion_rate.dfy` | `CompletionRate` | the completion-rate chart |
| `subscriber_growth.dfy` | `SubscriberGrowth` | the cumulative subscriber chart |

The zoom and pan controller `useZoomPan` (`src/hooks/useZoomPan.js`) is not
part of this model. The domains and optional pixel ranges it returns are
parameters of the functions that use them.

Two behaviours worth knowing:

- `calculateRegression(points)` (`SharesSubscribersScatter.jsx:56`) fits all
  points whatever the zoom. Zooming only moves the segment's cut points along
  that one line (`RegressionLineFollowsData`).
- The subscriber chart's area baseline `yScale(0)` is 318 unless the largest
  total is 0. Then the domain is [0, 0] and d3 puts it at 171
  (`SubscriberGrowth.Baseline`).

## Model

| member | source | states |
|---|---|---|
| Extents.Max | src/components/SharesSubscribersScatter.jsx:38 | d3 `max` over non-empty data is one of the values and is at least every value |
| Extents.Min | src/components/CompletionRateChart.jsx:29 | d3 `min` over non-empty data is one of the values and is at most every value |
| Extents.Extent | src/components/SharesSubscribersScatter.jsx:37 | d3 `extent` is an ordered span whose two ends are values of the data and that contains every value |
| Extents.ExtentBy | src/components/CompletionRateChart.jsx:15 | `extent(data, accessor)` is an ordered span whose two ends are keys of some record and that contains every record's key |
| ChartFrame.Scale | src/components/SharesSubscribersScatter.jsx:49-54 | `scaleLinear` is affine: pixel offsets are proportional to domain offsets; a degenerate domain lands on the midpoint of the range |
| ChartFrame.ScaleEndpoints | src/components/SharesSubscribersScatter.jsx:49-54 | a non-degenerate scale maps the domain's first and last ends to the range's first and last ends |
| ChartFrame.ScaleOrder | src/components/CompletionRateChart.jsx:31-33 | on an increasing domain, a larger value gets a larger pixel on an increasing range and a smaller pixel on a decreasing range |
| ChartFrame.ScaleInside | src/components/SubscriberGrowthChart.jsx:29-31 | a value inside an ordered domain, one-value domains included, is scaled to a pixel between the range's ends |
| ChartFrame.DefaultXRange | src/components/CompletionRateChart.jsx:25-27 | the fallback x range is as wide as the plot and increasing when the margins leave a plot area |
| ChartFrame.YRange | src/components/CompletionRateChart.jsx:31-33 | the y range `[height - bottom, top]` is as tall as the plot and runs upwards on screen |
| ChartFrame.XRangeOrDefault | src/components/SharesSubscribersScatter.jsx:49-51 | `xRange ?? [left, width - right]`: the controller's range when given, else the margin-based range |
| ChartFrame.YRangeOrDefault | src/components/SharesSubscribersScatter.jsx:52-54 | `yRange ?? [height - bottom, top]`: the controller's range when given, else the margin-based range |
| ChartFrame.XPixel | src/components/CompletionRateChart.jsx:25-27 | `xScale` sends the domain's ends to the range's ends; with the default range, a value inside an ordered domain lands between the left and right margins |
| ChartFrame.InteractionRect | src/components/CompletionRateChart.jsx:128-133 | the overlay has positive width and height exactly when the margins leave a plot area |
| ChartFrame.InteractionRectCoversPlot | src/components/SubscriberGrowthChart.jsx:109-114 | the overlay's edges are exactly the ends of the default x range and of the y range |
| ChartFrame.PlottedInsideRect | src/components/SharesSubscribersScatter.jsx:155-160 | with default ranges, every value pair inside ordered domains, one-value domains included, is drawn inside the overlay |
| Regression.Count | src/components/SharesSubscribersScatter.jsx:13 | `points.length` is never negative and is 0 exactly for no points |
| Regression.SumX | src/components/SharesSubscribersScatter.jsx:14 | the fold of no points is the seed 0 |
| Regression.SumY | src/components/SharesSubscribersScatter.jsx:15 | the fold of no points is the seed 0 |
| Regression.SumXY | src/components/SharesSubscribersScatter.jsx:16 | the fold of no points is the seed 0 |
| Regression.SumXX | src/components/SharesSubscribersScatter.jsx:17 | the fold of no points is the seed 0, and a sum of squares is never negative |
| Regression.FoldsOfOne | src/components/SharesSubscribersScatter.jsx:13-17 | one point gives n = 1 and sums equal to its own x, y, x·y and x² |
| Regression.FoldsAppend | src/components/SharesSubscribersScatter.jsx:13-17 | n and each fold over two joined lists are the sums of the parts, so the sums depend only on the points |
| Regression.Denominator | src/components/SharesSubscribersScatter.jsx:18 | `n·Σx² − (Σx)²` equals the sum of (x_j − x_i)² over all pairs of points, so it is never negative |
| Regression.PairwiseForm | src/components/SharesSubscribersScatter.jsx:18 | Lagrange's identity: `n·Σx² − (Σx)²` built from the folds equals the pairwise sum of squared differences |
| Regression.CalculateRegression | src/components/SharesSubscribersScatter.jsx:12-25 | no points give the line (0, 0); a zero denominator gives a flat line |
| Regression.DenominatorZeroIffConstantX | src/components/SharesSubscribersScatter.jsx:18-19 | `n·Σx² − (Σx)²` is never negative, and it is zero exactly when all x are equal (including n = 0 and n = 1) |
| Regression.ConstantXGivesMean | src/components/SharesSubscribersScatter.jsx:18-21 | a non-empty input with one x value gets slope 0 and intercept Σy/n, the mean of y |
| Regression.ExampleConstantX | src/components/SharesSubscribersScatter.jsx:19-20 | (5, 1), (5, 3), (5, 10) give slope 0 and intercept 14/3 |
| Regression.CollinearRecovered | src/components/SharesSubscribersScatter.jsx:22-23 | points exactly on y = a·x + b with varying x give back slope a and intercept b |
| Regression.ExampleCollinear | src/components/SharesSubscribersScatter.jsx:12-25 | (1, 2), (2, 4), (3, 6) give slope 2 and intercept 0 |
| Regression.NormalEquations | src/components/SharesSubscribersScatter.jsx:18-23 | in both branches, the fitted line's residuals sum to 0 and are uncorrelated with x |
| Regression.PassesThroughMean | src/components/SharesSubscribersScatter.jsx:20-23 | slope·Σx + n·intercept = Σy for every input, so the line passes through the mean point |
| Regression.LeastSquares | src/components/SharesSubscribersScatter.jsx:12-25 | no line has a smaller sum of squared vertical errors than the fitted one |
| SharesSubscribersScatter.ToPoints | src/components/SharesSubscribersScatter.jsx:30-35 | one point per record, in order, with shares on x, subscribers gained on y and the episode kept |
| SharesSubscribersScatter.XDomain | src/components/SharesSubscribersScatter.jsx:37 | the x domain is ordered, both ends are some episode's shares, and it contains every point |
| SharesSubscribersScatter.YDomain | src/components/SharesSubscribersScatter.jsx:38 | the y domain is [0, 1.1·max gain], a single value when the max is 0; its top is at least every gain exactly when the largest gain is not negative; a positive maximum gets 10% headroom |
| SharesSubscribersScatter.TopShare | src/components/SharesSubscribersScatter.jsx:62-64 | the seedless reduce picks a point with the largest shares, and every earlier point has strictly fewer, so among ties the first wins |
| SharesSubscribersScatter.IsHighlight | src/components/SharesSubscribersScatter.jsx:113 | a dot is highlighted exactly when its episode is the episode of the first point with the most shares |
| SharesSubscribersScatter.HighlightIsTopShare | src/components/SharesSubscribersScatter.jsx:112-113 | with distinct episodes, a dot is highlighted exactly when it is the top-share point |
| SharesSubscribersScatter.HighlightNeedsDistinctEpisodes | src/components/SharesSubscribersScatter.jsx:113 | every record sharing the top-share point's episode is highlighted too, whatever its own shares |
| SharesSubscribersScatter.ExampleSharedEpisode | src/components/SharesSubscribersScatter.jsx:112-113 | example: records (5 shares, episode 1) and (2 shares, episode 1) are both highlighted |
| SharesSubscribersScatter.RegressionLine | src/components/SharesSubscribersScatter.jsx:56-60 | the segment runs from the zoomed domain's first end to its last end, and both vertices lie on the fitted line |
| SharesSubscribersScatter.RegressionLineRecoversFit | src/components/SharesSubscribersScatter.jsx:57-60 | over a non-degenerate zoomed domain, the segment's rise over run is the slope and its extension meets the intercept |
| SharesSubscribersScatter.RegressionLineFollowsData | src/components/SharesSubscribersScatter.jsx:56-60 | the fit uses all points regardless of zoom: on exactly linear data the drawn segment lies on the data's line |
| SharesSubscribersScatter.DotCenter | src/components/SharesSubscribersScatter.jsx:115-118 | with default ranges and a point inside ordered zoomed domains, one-value domains included, the dot's centre is inside the overlay |
| SharesSubscribersScatter.ScatterFrame | src/components/SharesSubscribersScatter.jsx:155-160 | x range [68, 608], y range [308, 24], overlay 540 x 284 at (68, 24) |
| ListenerMix.ShareOf | src/components/ListenerMixChart.jsx:33-34 | a zero total gives both shares 0; otherwise each share times the total is its count |
| ListenerMix.ShareData | src/components/ListenerMixChart.jsx:32-35 | one entry per record, in the same order, so stacked index `idx` is `data[idx]` |
| ListenerMix.Stack | src/components/ListenerMixChart.jsx:37 | two layers; the returning band starts at 0, the new band starts where it ends, and each band is as tall as its share |
| ListenerMix.SharesAreFractions | src/components/ListenerMixChart.jsx:33-34 | for non-negative counts that add up to a positive total, both shares are in [0, 1] and add up to 1 |
| ListenerMix.StackFillsDomain | src/components/ListenerMixChart.jsx:30-37 | for such records the returning band stays in [0, 1] and the top band ends at exactly 1 |
| ListenerMix.SilentEpisodeStacksAtZero | src/components/ListenerMixChart.jsx:33-37 | an episode with no listeners stacks two empty bands at 0 |
| ListenerMix.TicksOrdered | src/components/ListenerMixChart.jsx:45 | the ticks 0, 0.25, 0.5, 0.75, 1 are strictly increasing and lie in [0, 1] |
| ListenerMix.YPixel | src/components/ListenerMixChart.jsx:30 | a share in [0, 1] is drawn between the top margin (24) and the bottom of the plot (318) |
| ListenerMix.TickPixelsEvenlySpaced | src/components/ListenerMixChart.jsx:65-73 | the tick grid lines run from 318 to 24, 73.5 pixels apart |
| ListenerMix.AreaVertices | src/components/ListenerMixChart.jsx:39-43 | vertex `idx` takes its x from `data[idx].episode` and its y0 and y1 from the band's ends |
| ListenerMix.AreasTile | src/components/ListenerMixChart.jsx:84-85 | for consistent records the returning area runs from 318, its top is the new area's bottom, and the new area ends at 24 |
| ListenerMix.BaseXDomain | src/components/ListenerMixChart.jsx:16 | the base x domain is ordered, both ends are episodes, and it contains every episode |
| ListenerMix.ListenerMixFrame | src/components/ListenerMixChart.jsx:105-114 | x range [60, 616], y range [318, 24], overlay 556 x 294 at (60, 24) |
| CompletionRate.MathMin | src/components/CompletionRateChart.jsx:32 | `Math.min` is one of its arguments and at most both |
| CompletionRate.MathMax | src/components/CompletionRateChart.jsx:32 | `Math.max` is one of its arguments and at least both |
| CompletionRate.YDomain | src/components/CompletionRateChart.jsx:29-32 | the domain covers [0.45, 0.95], every rate is at least 0.02 inside it, and each end is the fixed bound or 0.02 beyond some rate |
| CompletionRate.YDomainIsNarrowest | src/components/CompletionRateChart.jsx:32 | every span that covers [0.45, 0.95] and keeps the rates 0.02 inside contains the domain |
| CompletionRate.YPixel | src/components/CompletionRateChart.jsx:31-33 | `yScale` draws the domain's bottom end at 318, its top end at 24, and every value in the domain between them |
| CompletionRate.HigherRateDrawnHigher | src/components/CompletionRateChart.jsx:31-33 | a higher rate maps to a smaller pixel y |
| CompletionRate.RateRangeInsidePlot | src/components/CompletionRateChart.jsx:29-33 | any value between the smallest and largest rate is drawn strictly between 24 and 318; this includes the average line at `yScale(averageCompletionRate)` when that value is an average of the rates |
| CompletionRate.CompletionLine | src/components/CompletionRateChart.jsx:35-38 | one vertex per record with x from the episode, and every vertex strictly inside the plot vertically |
| CompletionRate.RollingLine | src/components/CompletionRateChart.jsx:40-43 | the same x as the rate line, and inside the plot wherever the rolling value is within the rates' range |
| CompletionRate.BaseXDomain | src/components/CompletionRateChart.jsx:15 | the base x domain is ordered, both ends are episodes, and it contains every episode |
| CompletionRate.CompletionFrame | src/components/CompletionRateChart.jsx:128-133 | x range [60, 616], y range [318, 24], overlay 556 x 294 at (60, 24) |
| SubscriberGrowth.YDomain | src/components/SubscriberGrowthChart.jsx:29-30 | the domain is [0, 1.05·max total], a single value when the max is 0; its top is at least every total exactly when the largest total is not negative; a positive maximum gets 5% headroom |
| SubscriberGrowth.YPixel | src/components/SubscriberGrowthChart.jsx:29-31 | unless the largest total is 0, `yScale` draws 0 at 318 and the domain's top at 24; a largest total of 0 puts every value at 171 |
| SubscriberGrowth.Baseline | src/components/SubscriberGrowthChart.jsx:35 | `yScale(0)` is the bottom of the plot (318) unless the largest total is 0, where it is the midpoint 171 |
| SubscriberGrowth.AreaVertices | src/components/SubscriberGrowthChart.jsx:33-37 | one vertex per record, and every lower edge is the baseline |
| SubscriberGrowth.LineVertices | src/components/SubscriberGrowthChart.jsx:39-42 | one vertex per record |
| SubscriberGrowth.LineTracesAreaTop | src/components/SubscriberGrowthChart.jsx:33-42 | every line vertex is the area's upper-edge vertex |
| SubscriberGrowth.AreaInsidePlot | src/components/SubscriberGrowthChart.jsx:29-37 | for non-negative totals, not all 0, the area runs from 318 up to a top edge between the baseline and 24 |
| SubscriberGrowth.BaseXDomain | src/components/SubscriberGrowthChart.jsx:15 | the base x domain is ordered, both ends are episodes, and it contains every episode |
| SubscriberGrowth.GrowthFrame | src/components/SubscriberGrowthChart.jsx:109-114 | x range [60, 616], y range [318, 24], overlay 556 x 294 at (60, 24) |

## Left out

- The zoom and pan controller `useZoomPan` (`src/hooks/useZoomPan.js`) is not part of this model. That covers its wheel, drag and reset handling, its clamping and its `maxZoom: 12`. The domains and ranges it returns are parameters.
- SVG and JSX presentation is left out: `ChartCard`, legends, titles, aria labels, axis-label positions, dot radii and the `onDoubleClick` binding.
- d3 path generation is left out: `line`, `area` and `curveMonotoneX`. The model stops at the vertices the generators are given. d3's choice of "nice" ticks in `scale.ticks()` is left out too. Both are library code over floating point.
- Label formatting is left out: `toLocaleString`, `toFixed` and `Math.round(tick)`.
- Arithmetic is over exact reals. IEEE-754 rounding and near-zero float denominators are not modelled. `denominator === 0` is exact real equality. The `|| 0` on `sumY / n` is modelled as its only effective case, n = 0 (0/0 is NaN).
- Empty data is excluded by `|data| > 0` preconditions wherever the code calls d3 `extent`, `min` or `max`, or the seedless `reduce` in `topShare`. On empty data these return `undefined`, which gives NaN domains, or throw. `calculateRegression` itself handles the empty list and is modelled without that precondition.
- The midpoint rule for a one-value domain (d3 `scaleLinear` sends every value to the middle of the range) is the behaviour of d3-scale 3 and later. The d3-scale version is not part of this model, and `SubscriberGrowth.Baseline`'s 171 and `ChartFrame.Scale`'s degenerate case depend on that assumption.
- The records' `title` field and the `insight` prop are only displayed, so they are not modelled. The `averageCompletionRate` prop is a number passed in by the caller. Its line is placed by `yScale`, as `RateRangeInsidePlot` states.
- SubscriberGrowth.LineVertices: its contract gives only the length; where its vertices lie is stated by `LineTracesAreaTop` and `AreaInsidePlot`.
