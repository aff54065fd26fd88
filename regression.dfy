/**
  The scatter chart's trend line: `calculateRegression`, an ordinary
  least-squares fit computed from the four running sums Σx, Σy, Σxy and Σx²,
  with a flat line at the mean of y when the x values admit no unique fit.

  Each sum is a left fold, as JavaScript's `reduce` with seed 0 is. The
  closed forms over plain numbers (`SlopeOf`, `Spread`, ...) are named
  functions so that the proofs below can state each algebraic step once,
  over reals, and apply it to the sums.
 */
module Regression {

  /** A scatter point: shares on x, subscribers gained on y, and the episode it came from. */
  datatype Point = Point(x: real, y: real, episode: real)

  /** The fitted line `y = slope * x + intercept`. */
  datatype Fit = Fit(slope: real, intercept: real)

  /** `points.length` as a number: never negative, and zero only for no points. */
  function Count(ps: seq<Point>): (n: real)
    ensures n >= 0.0
    ensures n == 0.0 <==> ps == []
  {
    |ps| as real
  }

  /** `v * v`, named so that each squared term is one term to the prover. */
  function Sq(v: real): real {
    v * v
  }

  /** The term `p.x * p.y` that `sumXY` adds up. */
  function XY(p: Point): real {
    p.x * p.y
  }

  /** `sumX`: `reduce((acc, p) => acc + p.x, 0)`. The seed 0 is the sum of no points. */
  function SumX(ps: seq<Point>): (s: real)
    ensures ps == [] ==> s == 0.0
    decreases |ps|
  {
    if ps == [] then 0.0 else SumX(ps[..|ps| - 1]) + ps[|ps| - 1].x
  }

  /** `sumY`: `reduce((acc, p) => acc + p.y, 0)`. The seed 0 is the sum of no points. */
  function SumY(ps: seq<Point>): (s: real)
    ensures ps == [] ==> s == 0.0
    decreases |ps|
  {
    if ps == [] then 0.0 else SumY(ps[..|ps| - 1]) + ps[|ps| - 1].y
  }

  /** `sumXY`: `reduce((acc, p) => acc + p.x * p.y, 0)`. The seed 0 is the sum of no points. */
  function SumXY(ps: seq<Point>): (s: real)
    ensures ps == [] ==> s == 0.0
    decreases |ps|
  {
    if ps == [] then 0.0 else SumXY(ps[..|ps| - 1]) + XY(ps[|ps| - 1])
  }

  /**
    `sumXX`: `reduce((acc, p) => acc + p.x * p.x, 0)`. The seed 0 is the sum
    of no points, and a sum of squares is never negative.
   */
  function SumXX(ps: seq<Point>): (s: real)
    ensures ps == [] ==> s == 0.0
    ensures s >= 0.0
    decreases |ps|
  {
    if ps == [] then 0.0
    else
      SquareNonNegative(ps[|ps| - 1].x);
      SumXX(ps[..|ps| - 1]) + Sq(ps[|ps| - 1].x)
  }

  /** `n * sumXX - sumX * sumX` over plain numbers. */
  function DenominatorOf(n: real, sx: real, sxx: real): real {
    n * sxx - sx * sx
  }

  /** `(n * sumXY - sumX * sumY) / denominator`. */
  function SlopeOf(n: real, sx: real, sy: real, sxy: real, d: real): real
    requires d != 0.0
  {
    (n * sxy - sx * sy) / d
  }

  /** `(sumY - slope * sumX) / n`. */
  function InterceptOf(n: real, sx: real, sy: real, slope: real): real
    requires n != 0.0
  {
    (sy - slope * sx) / n
  }

  /**
    `denominator = n * sumXX - sumX * sumX`. It equals the sum of the squared
    differences between the x values of every pair of points, so it is never
    negative and no points or one point give 0.
   */
  function Denominator(ps: seq<Point>): (d: real)
    ensures d == PairSpread(ps)
    ensures d >= 0.0
  {
    PairwiseForm(ps);
    DenominatorOf(Count(ps), SumX(ps), SumXX(ps))
  }

  /**
    Σ over pairs i < j of (x_j - x_i)²: each point adds its squared distance
    from every point before it.
   */
  function PairSpread(ps: seq<Point>): (s: real)
    ensures s >= 0.0
    decreases |ps|
  {
    if ps == [] then 0.0
    else PairSpread(ps[..|ps| - 1]) + SpreadAround(ps[..|ps| - 1], ps[|ps| - 1].x)
  }

  /** Every x value is the same (vacuously so for no points). */
  predicate AllXEqual(ps: seq<Point>) {
    forall i, j :: 0 <= i < |ps| && 0 <= j < |ps| ==> ps[i].x == ps[j].x
  }

  /** Every x value equals `c`. */
  predicate AllXAre(ps: seq<Point>, c: real) {
    forall i :: 0 <= i < |ps| ==> ps[i].x == c
  }

  /** Every point lies on `y = a * x + b`. */
  predicate OnLine(ps: seq<Point>, a: real, b: real) {
    forall i :: 0 <= i < |ps| ==> ps[i].y == a * ps[i].x + b
  }

  /**
    `calculateRegression`. A zero denominator gives slope 0 and intercept
    `sumY / n || 0`: the mean of y, or 0 when there are no points (0 / 0 is
    NaN in JavaScript and `|| 0` replaces it). Otherwise the closed-form
    least-squares slope and intercept.
   */
  function CalculateRegression(ps: seq<Point>): (r: Fit)
    ensures ps == [] ==> r == Fit(0.0, 0.0)
    ensures Denominator(ps) == 0.0 ==> r.slope == 0.0
  {
    var n := Count(ps);
    var denominator := Denominator(ps);
    if denominator == 0.0 then
      Fit(0.0, if n == 0.0 then 0.0 else SumY(ps) / n)
    else
      var slope := SlopeOf(n, SumX(ps), SumY(ps), SumXY(ps), denominator);
      Fit(slope, InterceptOf(n, SumX(ps), SumY(ps), slope))
  }

  /** One step of each fold: appending a point adds its term. */
  lemma FoldStep(ps: seq<Point>)
    requires ps != []
    ensures Count(ps) == Count(ps[..|ps| - 1]) + 1.0
    ensures SumX(ps) == SumX(ps[..|ps| - 1]) + ps[|ps| - 1].x
    ensures SumY(ps) == SumY(ps[..|ps| - 1]) + ps[|ps| - 1].y
    ensures SumXY(ps) == SumXY(ps[..|ps| - 1]) + XY(ps[|ps| - 1])
    ensures SumXX(ps) == SumXX(ps[..|ps| - 1]) + Sq(ps[|ps| - 1].x)
  {
  }

  /** The seed 0 adds nothing: the folds of one point are that point's own terms. */
  lemma FoldsOfOne(p: Point)
    ensures Count([p]) == 1.0
    ensures SumX([p]) == p.x && SumY([p]) == p.y && SumXY([p]) == p.x * p.y && SumXX([p]) == p.x * p.x
  {
    assert [p][..0] == [];
  }

  /**
    Folding two lists one after the other gives the sum of their folds, so
    each sum depends only on the points and not on how `reduce` groups them.
   */
  lemma {:induction false} FoldsAppend(a: seq<Point>, b: seq<Point>)
    ensures Count(a + b) == Count(a) + Count(b)
    ensures SumX(a + b) == SumX(a) + SumX(b) && SumY(a + b) == SumY(a) + SumY(b)
    ensures SumXY(a + b) == SumXY(a) + SumXY(b) && SumXX(a + b) == SumXX(a) + SumXX(b)
    decreases |b|
  {
    if b == [] {
      assert a + b == a;
    } else {
      var ab := a + b;
      var init := b[..|b| - 1];
      assert ab[..|ab| - 1] == a + init;
      assert ab[|ab| - 1] == b[|b| - 1];
      FoldsAppend(a, init);
      FoldStep(ab);
      FoldStep(b);
    }
  }

  // ----- The denominator: never negative, zero exactly on a constant x set -----

  lemma PositiveProduct(a: real, b: real, p: real)
    requires a > 0.0 && b > 0.0 && p == a * b
    ensures p > 0.0
  {
  }

  /** A square is never negative, and it is zero only for zero. */
  lemma SquareNonNegative(d: real)
    ensures Sq(d) >= 0.0
    ensures Sq(d) == 0.0 <==> d == 0.0
  {
    if d > 0.0 {
      PositiveProduct(d, d, Sq(d));
    } else if d < 0.0 {
      PositiveProduct(-d, -d, Sq(d));
    } else {
      assert Sq(d) == 0.0 * 0.0;
    }
  }

  /** Σ (x - c)², the squared spread of the x values around `c`. */
  function SpreadAround(ps: seq<Point>, c: real): (s: real)
    ensures s >= 0.0
    decreases |ps|
  {
    if ps == [] then 0.0
    else
      var d := ps[|ps| - 1].x - c;
      SquareNonNegative(d);
      SpreadAround(ps[..|ps| - 1], c) + Sq(d)
  }

  /** Σx² - 2cΣx + nc², the expanded form of Σ (x - c)². */
  function Spread(sxx: real, sx: real, n: real, c: real): real {
    sxx - 2.0 * c * sx + n * Sq(c)
  }

  lemma SpreadStepAlgebra(sp: real, sxx: real, sx: real, n: real, x: real, c: real,
                          sp': real, sxx': real, sx': real, n': real)
    requires sp == Spread(sxx, sx, n, c)
    requires sp' == sp + Sq(x - c)
    requires sxx' == sxx + Sq(x) && sx' == sx + x && n' == n + 1.0
    ensures sp' == Spread(sxx', sx', n', c)
  {
  }

  lemma SpreadAroundStep(ps: seq<Point>, c: real)
    requires ps != []
    ensures SpreadAround(ps, c) == SpreadAround(ps[..|ps| - 1], c) + Sq(ps[|ps| - 1].x - c)
  {
  }

  lemma {:induction false} SpreadAroundExpands(ps: seq<Point>, c: real)
    ensures SpreadAround(ps, c) == Spread(SumXX(ps), SumX(ps), Count(ps), c)
    decreases |ps|
  {
    if ps == [] {
      assert Spread(0.0, 0.0, 0.0, c) == 0.0;
    } else {
      var init := ps[..|ps| - 1];
      SpreadAroundExpands(init, c);
      FoldStep(ps);
      SpreadAroundStep(ps, c);
      SpreadStepAlgebra(SpreadAround(init, c), SumXX(init), SumX(init), Count(init), ps[|ps| - 1].x, c,
                        SpreadAround(ps, c), SumXX(ps), SumX(ps), Count(ps));
    }
  }

  lemma {:induction false} SpreadAroundZero(ps: seq<Point>, c: real)
    ensures SpreadAround(ps, c) == 0.0 <==> AllXAre(ps, c)
    decreases |ps|
  {
    if ps != [] {
      var init := ps[..|ps| - 1];
      var x := ps[|ps| - 1].x;
      SpreadAroundZero(init, c);
      SpreadAroundStep(ps, c);
      SquareNonNegative(x - c);
      assert AllXAre(ps, c) <==> AllXAre(init, c) && x == c by {
        if AllXAre(init, c) && x == c {
          forall i | 0 <= i < |ps| ensures ps[i].x == c {
            if i < |init| { assert ps[i] == init[i]; }
          }
        }
        if AllXAre(ps, c) {
          forall i | 0 <= i < |init| ensures init[i].x == c { assert init[i] == ps[i]; }
        }
      }
    }
  }

  lemma DenominatorStepAlgebra(sp: real, sxx: real, sx: real, n: real, x: real,
                               sxx': real, sx': real, n': real)
    requires sp == Spread(sxx, sx, n, x)
    requires sxx' == sxx + Sq(x) && sx' == sx + x && n' == n + 1.0
    ensures DenominatorOf(n', sx', sxx') == DenominatorOf(n, sx, sxx) + sp
  {
  }

  /** Lagrange's identity: `n * Σx² - (Σx)²` is the sum of squared pairwise differences. */
  lemma {:induction false} PairwiseForm(ps: seq<Point>)
    ensures DenominatorOf(Count(ps), SumX(ps), SumXX(ps)) == PairSpread(ps)
    decreases |ps|
  {
    if ps == [] {
      assert DenominatorOf(0.0, 0.0, 0.0) == 0.0;
    } else {
      var init := ps[..|ps| - 1];
      var x := ps[|ps| - 1].x;
      PairwiseForm(init);
      SpreadAroundExpands(init, x);
      FoldStep(ps);
      DenominatorStepAlgebra(SpreadAround(init, x), SumXX(init), SumX(init), Count(init), x,
                             SumXX(ps), SumX(ps), Count(ps));
    }
  }

  /** Appending a point with abscissa `x` adds its squared spread from the earlier points. */
  lemma DenominatorStep(ps: seq<Point>)
    requires ps != []
    ensures Denominator(ps) == Denominator(ps[..|ps| - 1]) + SpreadAround(ps[..|ps| - 1], ps[|ps| - 1].x)
  {
  }

  /**
    `n * Σx² - (Σx)²` is never negative, and it is zero exactly when all x
    are equal, so the flat-line branch fires on a constant x set (one point
    included) and on no other input.
   */
  lemma {:induction false} DenominatorZeroIffConstantX(ps: seq<Point>)
    ensures Denominator(ps) >= 0.0
    ensures Denominator(ps) == 0.0 <==> AllXEqual(ps)
    decreases |ps|
  {
    if ps == [] {
      assert Denominator(ps) == DenominatorOf(0.0, 0.0, 0.0);
    } else {
      var init := ps[..|ps| - 1];
      var x := ps[|ps| - 1].x;
      DenominatorZeroIffConstantX(init);
      DenominatorStep(ps);
      SpreadAroundZero(init, x);
      assert AllXEqual(ps) <==> AllXEqual(init) && AllXAre(init, x) by {
        if AllXEqual(init) && AllXAre(init, x) {
          forall i, j | 0 <= i < |ps| && 0 <= j < |ps| ensures ps[i].x == ps[j].x {
            if i < |init| { assert ps[i] == init[i]; }
            if j < |init| { assert ps[j] == init[j]; }
          }
        }
        if AllXEqual(ps) {
          forall i, j | 0 <= i < |init| && 0 <= j < |init| ensures init[i].x == init[j].x {
            assert init[i] == ps[i] && init[j] == ps[j];
          }
          forall i | 0 <= i < |init| ensures init[i].x == x {
            assert init[i] == ps[i];
          }
        }
      }
    }
  }

  // ----- Exact data is recovered -----

  /** Σy and Σxy of points on `y = a * x + b`, over plain numbers. */
  function LineSum(a: real, b: real, sx: real, n: real): real {
    a * sx + n * b
  }

  function LineMoment(a: real, b: real, sxx: real, sx: real): real {
    a * sxx + b * sx
  }

  lemma OnLineStepAlgebra(a: real, b: real, p: Point,
                          n: real, sx: real, sy: real, sxy: real, sxx: real,
                          n': real, sx': real, sy': real, sxy': real, sxx': real)
    requires p.y == a * p.x + b
    requires sy == LineSum(a, b, sx, n) && sxy == LineMoment(a, b, sxx, sx)
    requires n' == n + 1.0 && sx' == sx + p.x && sy' == sy + p.y && sxy' == sxy + XY(p) && sxx' == sxx + Sq(p.x)
    ensures sy' == LineSum(a, b, sx', n') && sxy' == LineMoment(a, b, sxx', sx')
  {
    assert XY(p) == a * Sq(p.x) + b * p.x;
  }

  lemma {:induction false} OnLineSums(ps: seq<Point>, a: real, b: real)
    requires OnLine(ps, a, b)
    ensures SumY(ps) == LineSum(a, b, SumX(ps), Count(ps))
    ensures SumXY(ps) == LineMoment(a, b, SumXX(ps), SumX(ps))
    decreases |ps|
  {
    if ps == [] {
      assert LineSum(a, b, 0.0, 0.0) == 0.0 && LineMoment(a, b, 0.0, 0.0) == 0.0;
    } else {
      var init := ps[..|ps| - 1];
      var p := ps[|ps| - 1];
      assert OnLine(init, a, b) by {
        forall i | 0 <= i < |init| ensures init[i].y == a * init[i].x + b { assert init[i] == ps[i]; }
      }
      OnLineSums(init, a, b);
      FoldStep(ps);
      OnLineStepAlgebra(a, b, p,
                        Count(init), SumX(init), SumY(init), SumXY(init), SumXX(init),
                        Count(ps), SumX(ps), SumY(ps), SumXY(ps), SumXX(ps));
    }
  }

  lemma CollinearAlgebra(a: real, b: real, n: real, sx: real, sy: real, sxy: real, sxx: real)
    requires DenominatorOf(n, sx, sxx) != 0.0 && n != 0.0
    requires sy == LineSum(a, b, sx, n) && sxy == LineMoment(a, b, sxx, sx)
    ensures SlopeOf(n, sx, sy, sxy, DenominatorOf(n, sx, sxx)) == a
    ensures InterceptOf(n, sx, sy, a) == b
  {
    var d := DenominatorOf(n, sx, sxx);
    assert n * sxy - sx * sy == a * d;
  }

  /**
    If every point lies on `y = a * x + b` and the x values are not all
    equal, the fit returns exactly slope `a` and intercept `b`.
   */
  lemma CollinearRecovered(ps: seq<Point>, a: real, b: real)
    requires OnLine(ps, a, b)
    requires !AllXEqual(ps)
    ensures CalculateRegression(ps) == Fit(a, b)
  {
    DenominatorZeroIffConstantX(ps);
    OnLineSums(ps, a, b);
    assert Count(ps) != 0.0;
    CollinearAlgebra(a, b, Count(ps), SumX(ps), SumY(ps), SumXY(ps), SumXX(ps));
  }

  /** The three points (1, 2), (2, 4), (3, 6) give slope 2 and intercept 0. */
  lemma ExampleCollinear()
    ensures CalculateRegression([Point(1.0, 2.0, 1.0), Point(2.0, 4.0, 2.0), Point(3.0, 6.0, 3.0)]) == Fit(2.0, 0.0)
  {
    var ps := [Point(1.0, 2.0, 1.0), Point(2.0, 4.0, 2.0), Point(3.0, 6.0, 3.0)];
    assert ps[0].x != ps[1].x;
    CollinearRecovered(ps, 2.0, 0.0);
  }

  /**
    A non-empty constant-x input gets the flat line at the mean of y.
   */
  lemma ConstantXGivesMean(ps: seq<Point>)
    requires ps != [] && AllXEqual(ps)
    ensures CalculateRegression(ps) == Fit(0.0, SumY(ps) / Count(ps))
  {
    DenominatorZeroIffConstantX(ps);
  }

  /** The three points (5, 1), (5, 3), (5, 10) share one x: slope 0 and intercept the mean 14/3. */
  lemma ExampleConstantX()
    ensures CalculateRegression([Point(5.0, 1.0, 1.0), Point(5.0, 3.0, 2.0), Point(5.0, 10.0, 3.0)]) == Fit(0.0, 14.0 / 3.0)
  {
    var ps := [Point(5.0, 1.0, 1.0), Point(5.0, 3.0, 2.0), Point(5.0, 10.0, 3.0)];
    ConstantXGivesMean(ps);
    assert ps[..2] == [ps[0], ps[1]] && ps[..2][..1] == [ps[0]] && [ps[0]][..0] == [];
    assert SumY([ps[0]]) == 1.0;
    assert SumY(ps[..2]) == 4.0;
    assert SumY(ps) == 14.0;
  }

  // ----- Least squares: the fit minimises the sum of squared vertical errors -----

  function Residual(p: Point, f: Fit): real {
    p.y - (f.slope * p.x + f.intercept)
  }

  /** The term `x * residual` of the second normal equation. */
  function XResidual(p: Point, f: Fit): real {
    p.x * Residual(p, f)
  }

  /** Σ residual. */
  function ResidualSum(ps: seq<Point>, f: Fit): real
    decreases |ps|
  {
    if ps == [] then 0.0 else ResidualSum(ps[..|ps| - 1], f) + Residual(ps[|ps| - 1], f)
  }

  /** Σ x · residual. */
  function ResidualMoment(ps: seq<Point>, f: Fit): real
    decreases |ps|
  {
    if ps == [] then 0.0 else ResidualMoment(ps[..|ps| - 1], f) + XResidual(ps[|ps| - 1], f)
  }

  /** Σ residual², the squared vertical error of a line over the points. */
  function SquaredError(ps: seq<Point>, f: Fit): (e: real)
    ensures e >= 0.0
    decreases |ps|
  {
    if ps == [] then 0.0
    else
      var r := Residual(ps[|ps| - 1], f);
      SquareNonNegative(r);
      SquaredError(ps[..|ps| - 1], f) + Sq(r)
  }

  /** The vertical distance between two lines at `x`. */
  function Gap(f: Fit, g: Fit, x: real): real {
    (f.slope - g.slope) * x + (f.intercept - g.intercept)
  }

  /** Σ (gap between the two lines at x)², which is never negative. */
  function LineGap(ps: seq<Point>, f: Fit, g: Fit): (e: real)
    ensures e >= 0.0
    decreases |ps|
  {
    if ps == [] then 0.0
    else
      var d := Gap(f, g, ps[|ps| - 1].x);
      SquareNonNegative(d);
      LineGap(ps[..|ps| - 1], f, g) + Sq(d)
  }

  /** Σ residual and Σ x · residual of line `f`, over plain numbers. */
  function ResidualSumOf(f: Fit, n: real, sx: real, sy: real): real {
    sy - f.slope * sx - n * f.intercept
  }

  function ResidualMomentOf(f: Fit, sx: real, sxy: real, sxx: real): real {
    sxy - f.slope * sxx - f.intercept * sx
  }

  lemma ResidualSumStep(f: Fit, p: Point, n: real, sx: real, sy: real, rs: real,
                        n': real, sx': real, sy': real, rs': real)
    requires rs == ResidualSumOf(f, n, sx, sy)
    requires n' == n + 1.0 && sx' == sx + p.x && sy' == sy + p.y
    requires rs' == rs + Residual(p, f)
    ensures rs' == ResidualSumOf(f, n', sx', sy')
  {
    assert f.slope * sx' == f.slope * sx + f.slope * p.x;
    assert n' * f.intercept == n * f.intercept + f.intercept;
  }

  lemma ResidualMomentStep(f: Fit, p: Point, sx: real, sxy: real, sxx: real, rm: real,
                           sx': real, sxy': real, sxx': real, rm': real)
    requires rm == ResidualMomentOf(f, sx, sxy, sxx)
    requires sx' == sx + p.x && sxy' == sxy + XY(p) && sxx' == sxx + Sq(p.x)
    requires rm' == rm + XResidual(p, f)
    ensures rm' == ResidualMomentOf(f, sx', sxy', sxx')
  {
    assert XResidual(p, f) == XY(p) - f.slope * Sq(p.x) - f.intercept * p.x;
    assert f.slope * sxx' == f.slope * sxx + f.slope * Sq(p.x);
    assert f.intercept * sx' == f.intercept * sx + f.intercept * p.x;
  }

  lemma ResidualFoldStep(ps: seq<Point>, f: Fit)
    requires ps != []
    ensures ResidualSum(ps, f) == ResidualSum(ps[..|ps| - 1], f) + Residual(ps[|ps| - 1], f)
    ensures ResidualMoment(ps, f) == ResidualMoment(ps[..|ps| - 1], f) + XResidual(ps[|ps| - 1], f)
  {
  }

  lemma ResidualSumsExpand(ps: seq<Point>, f: Fit)
    ensures ResidualSum(ps, f) == ResidualSumOf(f, Count(ps), SumX(ps), SumY(ps))
    ensures ResidualMoment(ps, f) == ResidualMomentOf(f, SumX(ps), SumXY(ps), SumXX(ps))
  {
    ResidualSumExpand(ps, f);
    ResidualMomentExpand(ps, f);
  }

  lemma {:induction false} ResidualSumExpand(ps: seq<Point>, f: Fit)
    ensures ResidualSum(ps, f) == ResidualSumOf(f, Count(ps), SumX(ps), SumY(ps))
    decreases |ps|
  {
    if ps == [] {
      assert ResidualSumOf(f, 0.0, 0.0, 0.0) == 0.0;
    } else {
      var init := ps[..|ps| - 1];
      ResidualSumExpand(init, f);
      FoldStep(ps);
      ResidualFoldStep(ps, f);
      ResidualSumStep(f, ps[|ps| - 1], Count(init), SumX(init), SumY(init), ResidualSum(init, f),
                      Count(ps), SumX(ps), SumY(ps), ResidualSum(ps, f));
    }
  }

  lemma {:induction false} ResidualMomentExpand(ps: seq<Point>, f: Fit)
    ensures ResidualMoment(ps, f) == ResidualMomentOf(f, SumX(ps), SumXY(ps), SumXX(ps))
    decreases |ps|
  {
    if ps == [] {
      assert ResidualMomentOf(f, 0.0, 0.0, 0.0) == 0.0;
    } else {
      var init := ps[..|ps| - 1];
      ResidualMomentExpand(init, f);
      FoldStep(ps);
      ResidualFoldStep(ps, f);
      ResidualMomentStep(f, ps[|ps| - 1], SumX(init), SumXY(init), SumXX(init), ResidualMoment(init, f),
                         SumX(ps), SumXY(ps), SumXX(ps), ResidualMoment(ps, f));
    }
  }

  /** On a constant x set the x values add up to `c` times the count. */
  lemma {:induction false} ConstantXSum(ps: seq<Point>, c: real)
    requires AllXAre(ps, c)
    ensures SumX(ps) == c * Count(ps)
    decreases |ps|
  {
    if ps == [] {
      assert Count(ps) == 0.0;
    } else {
      var init := ps[..|ps| - 1];
      AllXArePrefix(ps, c);
      ConstantXSum(init, c);
      FoldStep(ps);
      ConstantSumStep(c, Count(init), SumX(init), Count(ps), SumX(ps));
    }
  }

  /** On a constant x set Σxy is `c` times Σy. */
  lemma {:induction false} ConstantXMoment(ps: seq<Point>, c: real)
    requires AllXAre(ps, c)
    ensures SumXY(ps) == c * SumY(ps)
    decreases |ps|
  {
    if ps != [] {
      var init := ps[..|ps| - 1];
      var p := ps[|ps| - 1];
      AllXArePrefix(ps, c);
      ConstantXMoment(init, c);
      FoldStep(ps);
      assert XY(p) == c * p.y;
      ConstantMomentStep(c, p.y, SumY(init), SumXY(init), SumY(ps), SumXY(ps), XY(p));
    }
  }

  lemma AllXArePrefix(ps: seq<Point>, c: real)
    requires ps != [] && AllXAre(ps, c)
    ensures AllXAre(ps[..|ps| - 1], c) && ps[|ps| - 1].x == c
  {
    var init := ps[..|ps| - 1];
    forall i | 0 <= i < |init| ensures init[i].x == c { assert init[i] == ps[i]; }
  }

  lemma ConstantSumStep(c: real, n: real, sx: real, n': real, sx': real)
    requires sx == c * n && n' == n + 1.0 && sx' == sx + c
    ensures sx' == c * n'
  {
  }

  lemma ConstantMomentStep(c: real, y: real, sy: real, sxy: real, sy': real, sxy': real, xy: real)
    requires sxy == c * sy && xy == c * y && sy' == sy + y && sxy' == sxy + xy
    ensures sxy' == c * sy'
  {
  }

  lemma FlatMomentAlgebra(f: Fit, n: real, c: real, sx: real, sy: real, sxy: real, sxx: real)
    requires f.slope == 0.0 && n * f.intercept == sy && sx == c * n && sxy == c * sy
    ensures ResidualMomentOf(f, sx, sxy, sxx) == 0.0
  {
    assert f.intercept * sx == c * (n * f.intercept);
  }

  lemma MeanTimesCount(n: real, sy: real, q: real)
    requires n != 0.0 && q == sy / n
    ensures n * q == sy
  {
  }

  lemma FitNormalAlgebra(n: real, sx: real, sy: real, sxy: real, sxx: real)
    requires n != 0.0 && DenominatorOf(n, sx, sxx) != 0.0
    ensures var slope := SlopeOf(n, sx, sy, sxy, DenominatorOf(n, sx, sxx));
            var f := Fit(slope, InterceptOf(n, sx, sy, slope));
            ResidualSumOf(f, n, sx, sy) == 0.0 && ResidualMomentOf(f, sx, sxy, sxx) == 0.0
  {
    var d := DenominatorOf(n, sx, sxx);
    var slope := SlopeOf(n, sx, sy, sxy, d);
    var b := InterceptOf(n, sx, sy, slope);
    assert slope * d == n * sxy - sx * sy;
    assert n * b == sy - slope * sx;
    assert n * ResidualMomentOf(Fit(slope, b), sx, sxy, sxx) == (n * sxy - sx * sy) - slope * d;
  }

  /**
    The normal equations: the fitted line's residuals sum to zero and are
    uncorrelated with x. This holds in the flat-line branch too, since there
    x is constant.
   */
  lemma NormalEquations(ps: seq<Point>)
    ensures ResidualSum(ps, CalculateRegression(ps)) == 0.0
    ensures ResidualMoment(ps, CalculateRegression(ps)) == 0.0
  {
    var r := CalculateRegression(ps);
    ResidualSumsExpand(ps, r);
    if ps == [] {
      assert ResidualSumOf(r, 0.0, 0.0, 0.0) == 0.0 && ResidualMomentOf(r, 0.0, 0.0, 0.0) == 0.0;
    } else if Denominator(ps) == 0.0 {
      FlatBranchNormal(ps);
    } else {
      FitBranchNormal(ps);
    }
  }

  /** The flat-line branch on a non-empty input: its x values are all equal. */
  lemma FlatBranchNormal(ps: seq<Point>)
    requires ps != [] && Denominator(ps) == 0.0
    ensures ResidualSumOf(CalculateRegression(ps), Count(ps), SumX(ps), SumY(ps)) == 0.0
    ensures ResidualMomentOf(CalculateRegression(ps), SumX(ps), SumXY(ps), SumXX(ps)) == 0.0
  {
    FlatIntercept(ps);
    FlatBranchMoment(ps);
  }

  lemma FlatBranchMoment(ps: seq<Point>)
    requires ps != [] && Denominator(ps) == 0.0
    ensures ResidualMomentOf(CalculateRegression(ps), SumX(ps), SumXY(ps), SumXX(ps)) == 0.0
  {
    FlatIntercept(ps);
    FlatMomentOf(ps, CalculateRegression(ps));
  }

  /** A flat line through the mean leaves no x-weighted residual on a constant x set. */
  lemma FlatMomentOf(ps: seq<Point>, f: Fit)
    requires ps != [] && Denominator(ps) == 0.0
    requires f.slope == 0.0 && Count(ps) * f.intercept == SumY(ps)
    ensures ResidualMomentOf(f, SumX(ps), SumXY(ps), SumXX(ps)) == 0.0
  {
    var c := ps[0].x;
    FlatBranchConstant(ps);
    ConstantXSum(ps, c);
    ConstantXMoment(ps, c);
    FlatMomentAlgebra(f, Count(ps), c, SumX(ps), SumY(ps), SumXY(ps), SumXX(ps));
  }

  lemma FlatIntercept(ps: seq<Point>)
    requires ps != [] && Denominator(ps) == 0.0
    ensures CalculateRegression(ps).slope == 0.0
    ensures Count(ps) * CalculateRegression(ps).intercept == SumY(ps)
  {
    assert CalculateRegression(ps).intercept == SumY(ps) / Count(ps);
    MeanTimesCount(Count(ps), SumY(ps), CalculateRegression(ps).intercept);
  }

  lemma FlatBranchConstant(ps: seq<Point>)
    requires ps != [] && Denominator(ps) == 0.0
    ensures AllXAre(ps, ps[0].x)
  {
    DenominatorZeroIffConstantX(ps);
  }

  lemma FitBranchNormal(ps: seq<Point>)
    requires Denominator(ps) != 0.0
    ensures ResidualSumOf(CalculateRegression(ps), Count(ps), SumX(ps), SumY(ps)) == 0.0
    ensures ResidualMomentOf(CalculateRegression(ps), SumX(ps), SumXY(ps), SumXX(ps)) == 0.0
  {
    assert ps != [];
    FitNormalAlgebra(Count(ps), SumX(ps), SumY(ps), SumXY(ps), SumXX(ps));
  }

  /** For any non-empty input, in either branch, the line passes through the mean point (Σx/n, Σy/n). */
  lemma PassesThroughMean(ps: seq<Point>)
    ensures CalculateRegression(ps).slope * SumX(ps) + Count(ps) * CalculateRegression(ps).intercept == SumY(ps)
  {
    NormalEquations(ps);
    MeanFromResidual(ps, CalculateRegression(ps));
  }

  /** A line with zero total residual passes through the mean point. */
  lemma MeanFromResidual(ps: seq<Point>, f: Fit)
    requires ResidualSum(ps, f) == 0.0
    ensures f.slope * SumX(ps) + Count(ps) * f.intercept == SumY(ps)
  {
    ResidualSumExpand(ps, f);
    MeanFromResidualSum(f, Count(ps), SumX(ps), SumY(ps), ResidualSum(ps, f));
  }

  lemma MeanFromResidualSum(f: Fit, n: real, sx: real, sy: real, rs: real)
    requires rs == ResidualSumOf(f, n, sx, sy)
    ensures f.slope * sx + n * f.intercept == sy - rs
  {
  }

  /** How the squared error changes from line `f` to line `g`, over plain numbers. */
  function Shifted(f: Fit, g: Fit, ef: real, rm: real, rs: real, gap: real): real {
    ef + 2.0 * ((f.slope - g.slope) * rm + (f.intercept - g.intercept) * rs) + gap
  }

  lemma ShiftStepAlgebra(f: Fit, g: Fit, p: Point,
                         ef: real, eg: real, rm: real, rs: real, gap: real,
                         ef': real, eg': real, rm': real, rs': real, gap': real)
    requires eg == Shifted(f, g, ef, rm, rs, gap)
    requires ef' == ef + Sq(Residual(p, f)) && eg' == eg + Sq(Residual(p, g))
    requires rm' == rm + XResidual(p, f) && rs' == rs + Residual(p, f) && gap' == gap + Sq(Gap(f, g, p.x))
    ensures eg' == Shifted(f, g, ef', rm', rs', gap')
  {
    var rf := Residual(p, f);
    var d := Gap(f, g, p.x);
    assert Residual(p, g) == rf + d;
    assert Sq(rf + d) == Sq(rf) + 2.0 * (rf * d) + Sq(d);
    assert rf * d == (f.slope - g.slope) * XResidual(p, f) + (f.intercept - g.intercept) * rf;
  }

  lemma ErrorFoldStep(ps: seq<Point>, f: Fit, g: Fit)
    requires ps != []
    ensures SquaredError(ps, f) == SquaredError(ps[..|ps| - 1], f) + Sq(Residual(ps[|ps| - 1], f))
    ensures SquaredError(ps, g) == SquaredError(ps[..|ps| - 1], g) + Sq(Residual(ps[|ps| - 1], g))
    ensures LineGap(ps, f, g) == LineGap(ps[..|ps| - 1], f, g) + Sq(Gap(f, g, ps[|ps| - 1].x))
  {
  }

  /**
    Moving from line `f` to line `g` changes the squared error by twice the
    cross term with `f`'s residuals plus the squared gap between the lines.
   */
  lemma {:induction false} SquaredErrorShift(ps: seq<Point>, f: Fit, g: Fit)
    ensures SquaredError(ps, g) ==
      Shifted(f, g, SquaredError(ps, f), ResidualMoment(ps, f), ResidualSum(ps, f), LineGap(ps, f, g))
    decreases |ps|
  {
    if ps == [] {
      assert Shifted(f, g, 0.0, 0.0, 0.0, 0.0) == 0.0;
    } else {
      var init := ps[..|ps| - 1];
      var p := ps[|ps| - 1];
      SquaredErrorShift(init, f, g);
      ErrorFoldStep(ps, f, g);
      ResidualFoldStep(ps, f);
      ShiftStepAlgebra(f, g, p,
                       SquaredError(init, f), SquaredError(init, g), ResidualMoment(init, f),
                       ResidualSum(init, f), LineGap(init, f, g),
                       SquaredError(ps, f), SquaredError(ps, g), ResidualMoment(ps, f),
                       ResidualSum(ps, f), LineGap(ps, f, g));
    }
  }

  lemma ShiftedAtOptimum(f: Fit, g: Fit, ef: real, gap: real)
    requires gap >= 0.0
    ensures Shifted(f, g, ef, 0.0, 0.0, gap) >= ef
  {
  }

  /** No line has a smaller squared vertical error over the points than the fitted one. */
  lemma LeastSquares(ps: seq<Point>, g: Fit)
    ensures SquaredError(ps, CalculateRegression(ps)) <= SquaredError(ps, g)
  {
    var r := CalculateRegression(ps);
    NormalEquations(ps);
    SquaredErrorShift(ps, r, g);
    ShiftedAtOptimum(r, g, SquaredError(ps, r), LineGap(ps, r, g));
  }
}
