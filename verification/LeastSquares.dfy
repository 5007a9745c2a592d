/** The two fits of the program - the motion of a track over the frame index, the trend of the character centres - leave the
    least sum of squared errors of all lines, and no other line leaves as little. */
module LeastSquares {
  import opened Geometry
  import opened WrongWay
  import CharAssembler

  /** The sum of squared errors of the line y = b + m x over the first n points. */
  function Misfit(x: seq<real>, y: seq<real>, m: real, b: real, n: nat): real
    requires n <= |x| && n <= |y|
  {
    if n == 0 then 0.0
    else Misfit(x, y, m, b, n - 1) + Product(y[n - 1] - (b + m * x[n - 1]), y[n - 1] - (b + m * x[n - 1]))
  }

  /** No line leaves less, and every other line leaves more. */
  ghost predicate BestLine(x: seq<real>, y: seq<real>, m: real, b: real)
    requires |x| == |y|
  {
    forall m', b' :: (m', b') != (m, b) ==> Misfit(x, y, m, b, |x|) < Misfit(x, y, m', b', |x|)
  }

  /** The same among level lines. */
  ghost predicate BestLevel(y: seq<real>, b: real) {
    forall b' :: b' != b ==> Misfit(y, y, 0.0, b, |y|) < Misfit(y, y, 0.0, b', |y|)
  }

  // ---------------------------------------------------------------------------------------------
  // The misfit of any line, by its slope and its error at the means

  /** The sum of deviations. */
  function Drift(v: seq<real>, mean: real, n: nat): real
    requires n <= |v|
  {
    Sum(v, n) - Product(n as real, mean)
  }

  /** The misfit written out by sums of squares and products around (mx, my); the line passes e above that point. */
  function Quadratic(syy: real, sxy: real, sxx: real, drift: real, m: real, e: real, n: real): real {
    syy - 2.0 * Product(m, sxy) + Product(Product(m, m), sxx) - 2.0 * Product(e, drift) + Product(n, Product(e, e))
  }

  lemma QuadraticStep(syy: real, sxy: real, sxx: real, drift: real, m: real, e: real, n: real, u: real, v: real)
    ensures Quadratic(syy + Product(v, v), sxy + Product(u, v), sxx + Product(u, u), drift + (v - Product(m, u)), m, e, n + 1.0)
         == Quadratic(syy, sxy, sxx, drift, m, e, n) + Product(v - Product(m, u) - e, v - Product(m, u) - e)
  {
    var w := v - m * u;
    assert (w - e) * (w - e) == w * w - 2.0 * (e * w) + e * e;
    assert w * w == v * v - 2.0 * (m * (u * v)) + (m * m) * (u * u);
  }

  function Expanded(x: seq<real>, y: seq<real>, m: real, e: real, mx: real, my: real, n: nat): real
    requires n <= |x| && n <= |y|
  {
    Quadratic(CharAssembler.CoSpread(y, y, my, my, n), CharAssembler.CoSpread(x, y, mx, my, n),
              CharAssembler.CoSpread(x, x, mx, mx, n), Drift(y, my, n) - Product(m, Drift(x, mx, n)), m, e, n as real)
  }

  lemma ErrorFromMeans(x: real, y: real, m: real, b: real, mx: real, my: real)
    ensures y - (b + m * x) == (y - my) - Product(m, x - mx) - (b + Product(m, mx) - my)
  {
  }

  lemma DriftMore(v: seq<real>, mean: real, n: nat)
    requires 0 < n <= |v|
    ensures Drift(v, mean, n) == Drift(v, mean, n - 1) + (v[n - 1] - mean)
  {
    OneMore((n - 1) as real, mean);
  }

  lemma DriftsMore(x: seq<real>, y: seq<real>, m: real, mx: real, my: real, n: nat)
    requires 0 < n <= |x| && n <= |y|
    ensures Drift(y, my, n) - Product(m, Drift(x, mx, n)) ==
              Drift(y, my, n - 1) - Product(m, Drift(x, mx, n - 1)) + (y[n - 1] - my - Product(m, x[n - 1] - mx))
  {
    DriftMore(x, mx, n);
    DriftMore(y, my, n);
    CharAssembler.Distributes(m, Drift(x, mx, n - 1), x[n - 1] - mx);
  }

  lemma ExpandedMore(x: seq<real>, y: seq<real>, m: real, e: real, mx: real, my: real, n: nat)
    requires 0 < n <= |x| && n <= |y|
    ensures var w := y[n - 1] - my - Product(m, x[n - 1] - mx) - e;
            Expanded(x, y, m, e, mx, my, n) == Expanded(x, y, m, e, mx, my, n - 1) + Product(w, w)
  {
    DriftsMore(x, y, m, mx, my, n);
    QuadraticStep(CharAssembler.CoSpread(y, y, my, my, n - 1), CharAssembler.CoSpread(x, y, mx, my, n - 1),
                  CharAssembler.CoSpread(x, x, mx, mx, n - 1), Drift(y, my, n - 1) - Product(m, Drift(x, mx, n - 1)), m, e,
                  (n - 1) as real, x[n - 1] - mx, y[n - 1] - my);
  }

  lemma NothingYet(x: seq<real>, y: seq<real>, m: real, e: real, mx: real, my: real)
    ensures Expanded(x, y, m, e, mx, my, 0) == 0.0
  {
  }

  lemma {:induction false} MisfitExpands(x: seq<real>, y: seq<real>, m: real, b: real, mx: real, my: real, n: nat, e: real)
    requires n <= |x| && n <= |y| && e == b + Product(m, mx) - my
    ensures Misfit(x, y, m, b, n) == Expanded(x, y, m, e, mx, my, n)
  {
    if n == 0 {
      NothingYet(x, y, m, e, mx, my);
    } else {
      MisfitExpands(x, y, m, b, mx, my, n - 1, e);
      ErrorFromMeans(x[n - 1], y[n - 1], m, b, mx, my);
      ExpandedMore(x, y, m, e, mx, my, n);
    }
  }

  lemma NoDrift(v: seq<real>)
    requires v != []
    ensures Drift(v, Mean(v), |v|) == 0.0
  {
    MeanTimes(v);
  }

  lemma QuadraticAtMeans(syy: real, sxy: real, sxx: real, m: real, e: real, n: real, slope: real)
    requires Product(slope, sxx) == sxy
    ensures Quadratic(syy, sxy, sxx, 0.0 - Product(m, 0.0), m, e, n)
         == syy - Product(slope, sxy) + Product(Product(m - slope, m - slope), sxx) + Product(n, Product(e, e))
  {
    assert (m - slope) * (m - slope) * sxx == m * m * sxx - 2.0 * (m * (slope * sxx)) + slope * (slope * sxx);
  }

  /** Around the means the misfit is a constant plus two squares. */
  lemma CompletedSquare(x: seq<real>, y: seq<real>, m: real, b: real, slope: real, e: real, sxx: real)
    requires |x| == |y| > 0 && sxx == CharAssembler.CoSpread(x, x, Mean(x), Mean(x), |x|)
    requires Product(slope, sxx) == CharAssembler.CoSpread(x, y, Mean(x), Mean(y), |x|)
    requires e == b + Product(m, Mean(x)) - Mean(y)
    ensures Misfit(x, y, m, b, |x|) ==
              CharAssembler.CoSpread(y, y, Mean(y), Mean(y), |x|) - Product(slope, Product(slope, sxx))
              + Product(Product(m - slope, m - slope), sxx) + Product(|x| as real, Product(e, e))
  {
    MisfitExpands(x, y, m, b, Mean(x), Mean(y), |x|, e);
    NoDrift(x);
    NoDrift(y);
    QuadraticAtMeans(CharAssembler.CoSpread(y, y, Mean(y), Mean(y), |x|), Product(slope, sxx), sxx, m, e, |x| as real, slope);
  }

  lemma SquareSigns(d: real)
    ensures Product(d, d) >= 0.0 && (d != 0.0 ==> Product(d, d) > 0.0) && (d == 0.0 ==> Product(d, d) == 0.0)
  {
    SquareSign(d, d);
    if d != 0.0 && Product(d, d) == 0.0 {
      ScaleZero(d, d);
    }
  }

  lemma SquareIsPositive(n: real, d: real)
    requires n > 0.0
    ensures Product(Product(d, d), n) >= 0.0 && Product(n, Product(d, d)) >= 0.0
    ensures d != 0.0 ==> Product(Product(d, d), n) > 0.0 && Product(n, Product(d, d)) > 0.0
    ensures d == 0.0 ==> Product(Product(d, d), n) == 0.0 && Product(n, Product(d, d)) == 0.0
  {
    SquareSigns(d);
    ProductSign(Product(d, d), n);
    assert n * Product(d, d) == Product(d, d) * n;
  }

  /** The line with the slope of the spreads, through the means, is the only best one. */
  lemma FitIsBest(x: seq<real>, y: seq<real>, slope: real, intercept: real, sxx: real)
    requires |x| == |y| > 0 && sxx == CharAssembler.CoSpread(x, x, Mean(x), Mean(x), |x|) > 0.0
    requires Product(slope, sxx) == CharAssembler.CoSpread(x, y, Mean(x), Mean(y), |x|)
    requires intercept == Mean(y) - Product(slope, Mean(x))
    ensures BestLine(x, y, slope, intercept)
  {
    CompletedSquare(x, y, slope, intercept, slope, 0.0, sxx);
    SquareIsPositive(sxx, slope - slope);
    SquareIsPositive(|x| as real, 0.0);
    forall m, b | (m, b) != (slope, intercept) ensures Misfit(x, y, slope, intercept, |x|) < Misfit(x, y, m, b, |x|) {
      var e := b + Product(m, Mean(x)) - Mean(y);
      CompletedSquare(x, y, m, b, slope, e, sxx);
      SquareIsPositive(sxx, m - slope);
      SquareIsPositive(|x| as real, e);
      if m == slope {
        assert e == b - intercept;
      }
    }
  }

  // ---------------------------------------------------------------------------------------------
  // The motion of a track

  function Indices(n: nat): (r: seq<real>)
    ensures |r| == n && forall i :: 0 <= i < n ==> r[i] == i as real
  {
    seq(n, i requires 0 <= i < n => i as real)
  }

  lemma {:induction false} SpreadsOverIndices(v: seq<real>, n: nat, mean: real, meanIndex: real)
    requires n <= |v|
    ensures CharAssembler.CoSpread(Indices(|v|), Indices(|v|), meanIndex, meanIndex, n) == IndexSpread(n, meanIndex)
    ensures CharAssembler.CoSpread(Indices(|v|), v, meanIndex, mean, n) == CoSpread(v, n, meanIndex, mean)
  {
    if n == 0 {
    } else {
      SpreadsOverIndices(v, n - 1, mean, meanIndex);
    }
  }

  lemma MeanOfIndices(n: nat)
    requires n > 0
    ensures Mean(Indices(n)) == MeanIndex(n)
  {
    assert Uniform(Indices(n), 0.0, 1.0);
    UniformMean(Indices(n), 0.0, 1.0);
  }

  /** The slope of a coordinate over the frame index is that of its one best line. */
  lemma SlopeIsBest(v: seq<real>)
    requires |v| >= 2
    ensures BestLine(Indices(|v|), v, Slope(v), Mean(v) - Product(Slope(v), MeanIndex(|v|)))
  {
    var n := |v|;
    MeanOfIndices(n);
    SpreadsOverIndices(v, n, Mean(v), MeanIndex(n));
    IndexSpreadPositive(n, MeanIndex(n));
    SlopeTimesSpread(v);
    FitIsBest(Indices(n), v, Slope(v), Mean(v) - Product(Slope(v), MeanIndex(n)), IndexSpread(n, MeanIndex(n)));
  }

  lemma SlopeTimesSpread(v: seq<real>)
    requires |v| >= 2
    ensures Product(Slope(v), IndexSpread(|v|, MeanIndex(|v|))) == CoSpread(v, |v|, MeanIndex(|v|), Mean(v))
  {
    IndexSpreadPositive(|v|, MeanIndex(|v|));
    RatioTimes(CoSpread(v, |v|, MeanIndex(|v|), Mean(v)), IndexSpread(|v|, MeanIndex(|v|)));
  }

  lemma RatioTimes(a: real, b: real)
    requires b != 0.0
    ensures Product(a / b, b) == a
  {
  }

  lemma OtherIsWorse(x: seq<real>, y: seq<real>, m: real, b: real, m': real, b': real)
    requires |x| == |y| && BestLine(x, y, m, b) && (m, b) != (m', b')
    ensures Misfit(x, y, m, b, |x|) < Misfit(x, y, m', b', |x|)
  {
  }

  lemma BestLineIsUnique(x: seq<real>, y: seq<real>, m: real, b: real, m': real, b': real)
    requires |x| == |y| && BestLine(x, y, m, b) && BestLine(x, y, m', b')
    ensures m == m' && b == b'
  {
    if (m, b) != (m', b') {
      OtherIsWorse(x, y, m, b, m', b');
      OtherIsWorse(x, y, m', b', m, b);
      assert false;
    }
  }

  /** The motion of a track is the step per frame of the one pair of best lines through its coordinates over the frame
      index, times the number of steps; such lines exist. */
  lemma MotionIsRegression(track: seq<Point>, step: Point, start: Point)
    requires |track| >= 2
    ensures BestLine(Indices(|track|), Xs(track), step.x, start.x) && BestLine(Indices(|track|), Ys(track), step.y, start.y) ==>
              MotionVector(track) == Point(Product(step.x, (|track| - 1) as real), Product(step.y, (|track| - 1) as real))
    ensures exists u: Point, a: Point ::
              BestLine(Indices(|track|), Xs(track), u.x, a.x) && BestLine(Indices(|track|), Ys(track), u.y, a.y)
  {
    var u, a := RegressionOf(track);
    if BestLine(Indices(|track|), Xs(track), step.x, start.x) && BestLine(Indices(|track|), Ys(track), step.y, start.y) {
      BestLineIsUnique(Indices(|track|), Xs(track), u.x, a.x, step.x, start.x);
      BestLineIsUnique(Indices(|track|), Ys(track), u.y, a.y, step.y, start.y);
    }
  }

  lemma RegressionOf(track: seq<Point>) returns (u: Point, a: Point)
    requires |track| >= 2
    ensures BestLine(Indices(|track|), Xs(track), u.x, a.x) && BestLine(Indices(|track|), Ys(track), u.y, a.y)
    ensures MotionVector(track) == Point(Product(u.x, (|track| - 1) as real), Product(u.y, (|track| - 1) as real))
  {
    var xs, ys := Xs(track), Ys(track);
    SlopeIsBest(xs);
    SlopeIsBest(ys);
    u := Point(Slope(xs), Slope(ys));
    a := Point(Mean(xs) - Product(u.x, MeanIndex(|xs|)), Mean(ys) - Product(u.y, MeanIndex(|ys|)));
  }

  // ---------------------------------------------------------------------------------------------
  // The trend of the character centres

  /** Beyond the cutoff the trend is the one best line through the centres. */
  lemma TrendIsBest(boxes: seq<CharAssembler.CharBox>)
    requires |boxes| >= 2 && CharAssembler.Variance(boxes) > CharAssembler.VARIANCE_EPS
    ensures var t := CharAssembler.Fit(boxes);
            BestLine(CharAssembler.CentersX(boxes), CharAssembler.CentersY(boxes), t.slope, t.intercept)
  {
    var x, y, t := CharAssembler.CentersX(boxes), CharAssembler.CentersY(boxes), CharAssembler.Fit(boxes);
    var sxx, sxy := CharAssembler.Variance(boxes), CharAssembler.CoSpread(x, y, Mean(x), Mean(y), |x|);
    assert t.slope == sxy / sxx;
    assert Product(t.slope, sxx) == sxy;
    FitIsBest(x, y, t.slope, t.intercept, sxx);
  }

  /** Up to the cutoff it is the one best level line. */
  lemma LevelTrendIsBest(boxes: seq<CharAssembler.CharBox>)
    requires |boxes| >= 2 && CharAssembler.Variance(boxes) <= CharAssembler.VARIANCE_EPS
    ensures CharAssembler.Fit(boxes).slope == 0.0
    ensures BestLevel(CharAssembler.CentersY(boxes), CharAssembler.Fit(boxes).intercept)
  {
    var y := CharAssembler.CentersY(boxes);
    LevelBest(y);
    assert Product(0.0, Mean(CharAssembler.CentersX(boxes))) == 0.0;
  }

  lemma LevelMisfit(y: seq<real>, b: real)
    requires y != []
    ensures Misfit(y, y, 0.0, b, |y|) == CharAssembler.CoSpread(y, y, Mean(y), Mean(y), |y|)
              + Product(|y| as real, Product(b - Mean(y), b - Mean(y)))
  {
    var e, s := b - Mean(y), CharAssembler.CoSpread(y, y, Mean(y), Mean(y), |y|);
    MisfitExpands(y, y, 0.0, b, Mean(y), Mean(y), |y|, e);
    NoDrift(y);
    LevelQuadratic(s, e, |y| as real);
  }

  lemma LevelQuadratic(s: real, e: real, n: real)
    ensures Quadratic(s, s, s, 0.0 - Product(0.0, 0.0), 0.0, e, n) == s + Product(n, Product(e, e))
  {
  }

  lemma LevelBest(y: seq<real>)
    requires y != []
    ensures BestLevel(y, Mean(y))
  {
    LevelMisfit(y, Mean(y));
    SquareIsPositive(|y| as real, Mean(y) - Mean(y));
    forall b | b != Mean(y) ensures Misfit(y, y, 0.0, Mean(y), |y|) < Misfit(y, y, 0.0, b, |y|) {
      LevelMisfit(y, b);
      SquareIsPositive(|y| as real, b - Mean(y));
    }
  }
}
