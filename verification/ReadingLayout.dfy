/** How a plate is laid out, in the coordinates of its boxes: the trend of the centres, one row or two, and the order in each. */
module ReadingLayout {
  import opened Geometry
  import opened StableSorting
  import opened CharAssembler
  import opened LeastSquares
  import WrongWay

  /** The centres of the boxes. */
  ghost predicate Centres(kept: seq<CharBox>, xs: seq<real>, ys: seq<real>) {
    && |xs| == |ys| == |kept|
    && forall i :: 0 <= i < |kept| ==>
         xs[i] == (kept[i].box.x1 + kept[i].box.x2) / 2.0 && ys[i] == (kept[i].box.y1 + kept[i].box.y2) / 2.0
  }

  /** The best line through the centres when they spread in x beyond the cutoff, else the best level line. */
  ghost predicate TrendLine(xs: seq<real>, ys: seq<real>, m: real, q: real)
    requires |xs| == |ys| > 0
  {
    if Misfit(xs, xs, 0.0, WrongWay.Mean(xs), |xs|) > 0.000001 then BestLine(xs, ys, m, q) else m == 0.0 && BestLevel(ys, q)
  }

  /** How far the centre of a box lies below the line (y grows downwards). */
  function Below(b: Box, m: real, q: real): real { (b.y1 + b.y2) / 2.0 - (Product(m, (b.x1 + b.x2) / 2.0) + q) }

  lemma CentresAre(kept: seq<CharBox>, xs: seq<real>, ys: seq<real>)
    requires Centres(kept, xs, ys)
    ensures xs == CentersX(kept) && ys == CentersY(kept)
  {
  }

  lemma {:induction false} SpreadIsMisfit(x: seq<real>, mean: real, n: nat)
    requires n <= |x|
    ensures CoSpread(x, x, mean, mean, n) == Misfit(x, x, 0.0, mean, n)
  {
    if n == 0 {
    } else {
      SpreadIsMisfit(x, mean, n - 1);
      assert mean + 0.0 * x[n - 1] == mean;
    }
  }

  lemma BestLevelIsUnique(y: seq<real>, b: real, b': real)
    requires BestLevel(y, b) && BestLevel(y, b')
    ensures b == b'
  {
    if b != b' {
      OtherLevelIsWorse(y, b, b');
      OtherLevelIsWorse(y, b', b);
      assert false;
    }
  }

  lemma OtherLevelIsWorse(y: seq<real>, b: real, b': real)
    requires BestLevel(y, b) && b' != b
    ensures Misfit(y, y, 0.0, b, |y|) < Misfit(y, y, 0.0, b', |y|)
  {
  }

  /** The fitted line is the trend. */
  lemma FitIsTrend(kept: seq<CharBox>, xs: seq<real>, ys: seq<real>, m: real, q: real)
    requires |kept| > 1 && Centres(kept, xs, ys) && TrendLine(xs, ys, m, q)
    ensures Fit(kept) == Trend(m, q)
  {
    CentresAre(kept, xs, ys);
    SpreadIsMisfit(xs, WrongWay.Mean(xs), |xs|);
    var t := Fit(kept);
    if Variance(kept) > VARIANCE_EPS {
      TrendIsBest(kept);
      BestLineIsUnique(xs, ys, t.slope, t.intercept, m, q);
    } else {
      LevelTrendIsBest(kept);
      BestLevelIsUnique(ys, t.intercept, q);
    }
  }

  lemma ResidualIsBelow(b: Box, m: real, q: real)
    ensures Residual(Trend(m, q), b) == Below(b, m, q)
  {
  }

  // ---------------------------------------------------------------------------------------------
  // One row or two

  /** Some box lies below another by more than the ratio times the mean height. */
  ghost predicate Tall(r: seq<real>, height: real, ratio: real) {
    height > 0.0 && exists i, j :: 0 <= i < |r| && 0 <= j < |r| && r[i] - r[j] > Product(ratio, height)
  }

  lemma DecideIffTall(r: seq<real>, h: seq<real>, ratio: real) returns (a: nat, b: nat)
    requires |r| == |h| > 0
    ensures a < |r| && b < |r| && forall i :: 0 <= i < |r| ==> r[a] <= r[i] <= r[b]
    ensures Decide(r, h, ratio) == if Tall(r, WrongWay.Mean(h), ratio) then TwoLines((r[a] + r[b]) / 2.0) else OneLine
  {
    a, b := Extremes(r, |r|);
    var height := WrongWay.Mean(h);
    if height > 0.0 {
      RatioBeyond(r[b] - r[a], height, ratio);
      if Tall(r, height, ratio) {
        var i, j :| 0 <= i < |r| && 0 <= j < |r| && r[i] - r[j] > Product(ratio, height);
        assert r[i] <= r[b] && r[a] <= r[j];
      }
    }
  }

  lemma RatioBeyond(d: real, h: real, ratio: real)
    requires h > 0.0
    ensures d / h > ratio <==> d > Product(ratio, h)
  {
    RatioTimes(d, h);
    ScaledOrder(d / h, ratio, h);
  }

  lemma ScaledOrder(a: real, b: real, h: real)
    requires h > 0.0
    ensures a > b <==> Product(a, h) > Product(b, h)
  {
    if a > b {
      MinusTimes(a, b, h);
      ProductSign(a - b, h);
    } else {
      MinusTimes(b, a, h);
      ProductSign(b - a, h);
    }
  }

  lemma MinusTimes(a: real, b: real, h: real)
    ensures Product(a - b, h) == Product(a, h) - Product(b, h)
  {
  }

  /** From left to right by the centres. */
  ghost predicate InRow(line: seq<CharBox>) {
    forall i, j :: 0 <= i < j < |line| ==> line[i].box.x1 + line[i].box.x2 <= line[j].box.x1 + line[j].box.x2
  }

  lemma RowIsSorted(line: seq<CharBox>)
    requires LeftToRight(line)
    ensures InRow(line)
  {
    forall i, j | 0 <= i < j < |line| ensures line[i].box.x1 + line[i].box.x2 <= line[j].box.x1 + line[j].box.x2 {
      assert CenterX(line[i].box) <= CenterX(line[j].box);
    }
  }

  /** The row holds the kept boxes on one side of the level half-way between the residuals at a and b. */
  ghost predicate SideOf(row: seq<CharBox>, kept: seq<CharBox>, m: real, q: real, a: nat, b: nat, upper: bool)
    requires a < |kept| && b < |kept|
  {
    forall c :: c in row <==>
      c in kept && (2.0 * Below(c.box, m, q) <= Below(kept[a].box, m, q) + Below(kept[b].box, m, q)) == upper
  }

  lemma LineIsSide(row: seq<CharBox>, kept: seq<CharBox>, m: real, q: real, a: nat, b: nat, split: real, upper: bool)
    requires a < |kept| && b < |kept| && Fit(kept) == Trend(m, q) && IsLine(row, kept, split, upper)
    requires split == (Below(kept[a].box, m, q) + Below(kept[b].box, m, q)) / 2.0
    ensures InRow(row) && SideOf(row, kept, m, q, a, b, upper)
  {
    RowIsSorted(row);
    forall c
      ensures c in row <==>
                c in kept && (2.0 * Below(c.box, m, q) <= Below(kept[a].box, m, q) + Below(kept[b].box, m, q)) == upper
    {
      ResidualIsBelow(c.box, m, q);
    }
  }

  /** The residuals of the kept boxes with respect to the line. */
  ghost predicate Offsets(kept: seq<CharBox>, m: real, q: real, r: seq<real>) {
    |r| == |kept| && forall i :: 0 <= i < |kept| ==> r[i] == Below(kept[i].box, m, q)
  }

  lemma ResidualsAreOffsets(kept: seq<CharBox>, m: real, q: real)
    requires Fit(kept) == Trend(m, q)
    ensures Offsets(kept, m, q, Residuals(kept))
  {
    forall i | 0 <= i < |kept| ensures Residuals(kept)[i] == Below(kept[i].box, m, q) {
      ResidualIsBelow(kept[i].box, m, q);
    }
  }

  /** The kept boxes are read in two rows exactly when some box lies further below the trend than another by more than the
      ratio times the mean height; then the upper row holds the boxes above the level half-way between the highest and the
      lowest, the lower row the others, and the upper row is read first. Each row is read from left to right. */
  lemma PlateLayout(kept: seq<CharBox>, ratio: real, xs: seq<real>, ys: seq<real>, m: real, q: real, r: seq<real>)
    returns (upper: seq<CharBox>, lower: seq<CharBox>, a: nat, b: nat)
    requires |kept| > 1 && Centres(kept, xs, ys) && TrendLine(xs, ys, m, q) && Offsets(kept, m, q, r)
    ensures ReadingOrder(kept, ratio) == upper + lower && InRow(upper) && InRow(lower)
    ensures a < |kept| && b < |kept| && forall i :: 0 <= i < |kept| ==> r[a] <= r[i] <= r[b]
    ensures if Tall(r, WrongWay.Mean(Heights(kept)), ratio)
            then SideOf(upper, kept, m, q, a, b, true) && SideOf(lower, kept, m, q, a, b, false)
            else lower == [] && multiset(upper) == multiset(kept)
  {
    FitIsTrend(kept, xs, ys, m, q);
    ResidualsAreOffsets(kept, m, q);
    assert r == Residuals(kept);
    a, b := DecideIffTall(r, Heights(kept), ratio);
    if Tall(r, WrongWay.Mean(Heights(kept)), ratio) {
      var split := (r[a] + r[b]) / 2.0;
      upper, lower := TwoLinePlate(kept, ratio, split);
      LineIsSide(upper, kept, m, q, a, b, split, true);
      LineIsSide(lower, kept, m, q, a, b, split, false);
    } else {
      upper, lower := Sort(kept, LeftOf), [];
      SortedLeftToRight(kept);
      RowIsSorted(upper);
    }
  }

  /** The reading tells the text and the confidence of each box in order, and spells the texts one after another. */
  lemma ReadTells(a: seq<CharBox>, x: CharBox)
    ensures Read(a + [x]).raw == Read(a).raw + x.text && Read([]).raw == ""
    ensures |Read(a).chars| == |a|
    ensures forall i :: 0 <= i < |a| ==> Read(a).chars[i].text == a[i].text && Read(a).chars[i].confidence == a[i].confidence
  {
    ReadMore(a, x);
  }
}
