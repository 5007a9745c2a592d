/** From character boxes to plate text: greedy dedup, deskew by least squares, one or two lines, left to right. */
module CharAssembler {
  import opened Geometry
  import opened StableSorting
  import opened Overlap
  import Rules
  import WrongWay

  const VARIANCE_EPS := 0.000001

  datatype CharBox = CharBox(text: string, confidence: real, box: Box)
  datatype AssembleOptions = AssembleOptions(iouDedup: real, squareRatio: real)
  datatype PlateReading = PlateReading(chars: seq<Rules.CharReading>, raw: string)
  datatype Trend = Trend(slope: real, intercept: real)
  datatype Layout = OneLine | TwoLines(split: real)

  function CenterX(b: Box): real { (b.x1 + b.x2) / 2.0 }
  function CenterY(b: Box): real { (b.y1 + b.y2) / 2.0 }

  function CentersX(boxes: seq<CharBox>): (r: seq<real>)
    ensures |r| == |boxes| && forall i :: 0 <= i < |boxes| ==> r[i] == CenterX(boxes[i].box)
  {
    seq(|boxes|, i requires 0 <= i < |boxes| => CenterX(boxes[i].box))
  }

  function CentersY(boxes: seq<CharBox>): (r: seq<real>)
    ensures |r| == |boxes| && forall i :: 0 <= i < |boxes| ==> r[i] == CenterY(boxes[i].box)
  {
    seq(|boxes|, i requires 0 <= i < |boxes| => CenterY(boxes[i].box))
  }

  function Heights(boxes: seq<CharBox>): (r: seq<real>)
    ensures |r| == |boxes| && forall i :: 0 <= i < |boxes| ==> r[i] == boxes[i].box.Height()
  {
    seq(|boxes|, i requires 0 <= i < |boxes| => boxes[i].box.Height())
  }

  // ---------------------------------------------------------------------------------------------
  // Least squares

  /** Sum of products of deviations. */
  function CoSpread(x: seq<real>, y: seq<real>, mx: real, my: real, n: nat): real
    requires n <= |x| && n <= |y|
  {
    if n == 0 then 0.0 else CoSpread(x, y, mx, my, n - 1) + Product(x[n - 1] - mx, y[n - 1] - my)
  }

  function FitLine(x: seq<real>, y: seq<real>): Trend
    requires |x| == |y| >= 2
  {
    var mx, my := WrongWay.Mean(x), WrongWay.Mean(y);
    LineThrough(CoSpread(x, y, mx, my, |x|), CoSpread(x, x, mx, mx, |x|), mx, my)
  }

  function LineThrough(cov: real, variance: real, mx: real, my: real): Trend {
    var slope := if variance > VARIANCE_EPS then cov / variance else 0.0;
    Trend(slope, my - Product(slope, mx))
  }

  function Fit(boxes: seq<CharBox>): Trend {
    if boxes == [] then Trend(0.0, 0.0)
    else if |boxes| == 1 then Trend(0.0, CenterY(boxes[0].box))
    else FitLine(CentersX(boxes), CentersY(boxes))
  }

  function Residual(t: Trend, b: Box): real { CenterY(b) - (Product(t.slope, CenterX(b)) + t.intercept) }

  method MeanCenter(boxes: seq<CharBox>) returns (meanX: real, meanY: real)
    requires boxes != []
    ensures meanX == WrongWay.Mean(CentersX(boxes)) && meanY == WrongWay.Mean(CentersY(boxes))
  {
    var sumX, sumY := 0.0, 0.0;
    for i := 0 to |boxes|
      invariant sumX == WrongWay.Sum(CentersX(boxes), i) && sumY == WrongWay.Sum(CentersY(boxes), i)
    {
      sumX := sumX + CenterX(boxes[i].box);
      sumY := sumY + CenterY(boxes[i].box);
    }
    meanX, meanY := sumX / |boxes| as real, sumY / |boxes| as real;
  }

  method Deviations(boxes: seq<CharBox>, meanX: real, meanY: real) returns (cov: real, varX: real)
    ensures cov == CoSpread(CentersX(boxes), CentersY(boxes), meanX, meanY, |boxes|)
    ensures varX == CoSpread(CentersX(boxes), CentersX(boxes), meanX, meanX, |boxes|)
  {
    ghost var x, y := CentersX(boxes), CentersY(boxes);
    cov, varX := 0.0, 0.0;
    for i := 0 to |boxes|
      invariant cov == CoSpread(x, y, meanX, meanY, i) && varX == CoSpread(x, x, meanX, meanX, i)
    {
      var dx := CenterX(boxes[i].box) - meanX;
      var dy := CenterY(boxes[i].box) - meanY;
      cov := cov + Product(dx, dy);
      varX := varX + Product(dx, dx);
    }
  }

  method FitTrend(boxes: seq<CharBox>) returns (trend: Trend)
    ensures trend == Fit(boxes)
  {
    trend := Trend(0.0, 0.0);
    if |boxes| < 2 {
      if |boxes| == 1 {
        trend := trend.(intercept := CenterY(boxes[0].box));
      }
      return;
    }
    var meanX, meanY := MeanCenter(boxes);
    var cov, varX := Deviations(boxes, meanX, meanY);
    if varX > VARIANCE_EPS {
      trend := trend.(slope := cov / varX);
    }
    trend := trend.(intercept := meanY - Product(trend.slope, meanX));
  }

  // ---------------------------------------------------------------------------------------------
  // One line or two

  function Residuals(boxes: seq<CharBox>): (r: seq<real>)
    ensures |r| == |boxes| && forall i :: 0 <= i < |boxes| ==> r[i] == Residual(Fit(boxes), boxes[i].box)
  {
    seq(|boxes|, i requires 0 <= i < |boxes| => Residual(Fit(boxes), boxes[i].box))
  }

  function Lowest(v: seq<real>, n: nat): real
    requires v != [] && n <= |v|
  {
    if n == 0 then v[0] else Min(Lowest(v, n - 1), v[n - 1])
  }

  function Highest(v: seq<real>, n: nat): real
    requires v != [] && n <= |v|
  {
    if n == 0 then v[0] else Max(Highest(v, n - 1), v[n - 1])
  }

  function Decide(residuals: seq<real>, heights: seq<real>, ratio: real): Layout
    requires |residuals| == |heights| > 0
  {
    var n := |residuals|;
    var low, high := Lowest(residuals, n), Highest(residuals, n);
    var height := WrongWay.Mean(heights);
    if height > 0.0 && (high - low) / height > ratio then TwoLines((low + high) / 2.0) else OneLine
  }

  /** The boxes whose residual is on the chosen side of the split, in order. */
  function Side(boxes: seq<CharBox>, residuals: seq<real>, split: real, top: bool): seq<CharBox>
    requires |boxes| == |residuals|
  {
    if boxes == [] then []
    else
      var n := |boxes| - 1;
      Side(boxes[..n], residuals[..n], split, top) + if (residuals[n] <= split) == top then [boxes[n]] else []
  }

  predicate LeftOf(a: CharBox, b: CharBox) { CenterX(a.box) < CenterX(b.box) }

  /** The order in which the kept boxes are read. */
  function ReadingOrder(kept: seq<CharBox>, ratio: real): seq<CharBox> {
    if |kept| <= 1 then Sort(kept, LeftOf)
    else
      var r := Residuals(kept);
      match Decide(r, Heights(kept), ratio)
      case OneLine => Sort(kept, LeftOf)
      case TwoLines(split) => BothLines(kept, r, split)
  }

  /** The top line, then the bottom line. */
  function BothLines(kept: seq<CharBox>, r: seq<real>, split: real): seq<CharBox>
    requires |kept| == |r|
  {
    Sort(Side(kept, r, split, true), LeftOf) + Sort(Side(kept, r, split, false), LeftOf)
  }

  function ReadingOf(b: CharBox): Rules.CharReading { Rules.CharReading(b.text, b.confidence) }

  function Texts(line: seq<CharBox>): string {
    if line == [] then "" else Texts(line[..|line| - 1]) + line[|line| - 1].text
  }

  function Read(line: seq<CharBox>): PlateReading { PlateReading(Mapped(line, ReadingOf), Texts(line)) }

  predicate MoreConfident(a: CharBox, b: CharBox) { a.confidence > b.confidence }

  function Overlapping(threshold: real): (CharBox, CharBox) -> bool {
    (candidate: CharBox, other: CharBox) => Iou(candidate.box, other.box) > threshold
  }

  function Deduplicated(boxes: seq<CharBox>, threshold: real): seq<CharBox> {
    Survivors(Sort(boxes, MoreConfident), Overlapping(threshold))
  }

  function AssembledText(boxes: seq<CharBox>, options: AssembleOptions): PlateReading {
    Read(ReadingOrder(Deduplicated(boxes, options.iouDedup), options.squareRatio))
  }

  // ---------------------------------------------------------------------------------------------
  // The loops of the program

  lemma ReadMore(line: seq<CharBox>, b: CharBox)
    ensures Read(line + [b]) == PlateReading(Read(line).chars + [ReadingOf(b)], Read(line).raw + b.text)
  {
    assert (line + [b])[..|line|] == line;
  }

  method AppendSortedByX(line: seq<CharBox>, out: PlateReading, ghost before: seq<CharBox>) returns (r: PlateReading)
    requires out == Read(before)
    ensures r == Read(before + Sort(line, LeftOf))
  {
    var sorted := Sort(line, LeftOf);
    r := out;
    assert before + sorted[..0] == before;
    for i := 0 to |sorted|
      invariant r == Read(before + sorted[..i])
    {
      ReadMore(before + sorted[..i], sorted[i]);
      assert before + sorted[..i] + [sorted[i]] == before + sorted[..i + 1];
      r := PlateReading(r.chars + [Rules.CharReading(sorted[i].text, sorted[i].confidence)], r.raw + sorted[i].text);
    }
    assert sorted[..|sorted|] == sorted;
  }

  method Dedup(boxes: seq<CharBox>, threshold: real) returns (kept: seq<CharBox>)
    ensures kept == Deduplicated(boxes, threshold)
  {
    var sorted := Sort(boxes, MoreConfident);
    kept := [];
    for n := 0 to |sorted|
      invariant kept == Survivors(sorted[..n], Overlapping(threshold))
    {
      var overlaps := exists i :: 0 <= i < |kept| && Iou(sorted[n].box, kept[i].box) > threshold;
      StepOf(sorted, Overlapping(threshold), n);
      assert overlaps <==> exists i :: 0 <= i < |kept| && Overlapping(threshold)(sorted[n], kept[i]);
      if !overlaps {
        kept := kept + [sorted[n]];
      }
    }
    assert sorted[..|sorted|] == sorted;
  }

  method DecideLayout(kept: seq<CharBox>, trend: Trend, ratio: real) returns (layout: Layout)
    requires |kept| > 1 && trend == Fit(kept)
    ensures layout == Decide(Residuals(kept), Heights(kept), ratio)
  {
    ghost var r, h := Residuals(kept), Heights(kept);
    var sumH := 0.0;
    for i := 0 to |kept|
      invariant sumH == WrongWay.Sum(h, i)
    {
      sumH := sumH + kept[i].box.Height();
    }
    var avgH := sumH / |kept| as real;
    var low := Residual(trend, kept[0].box);
    var high := low;
    for i := 0 to |kept|
      invariant low == Lowest(r, i) && high == Highest(r, i)
    {
      var residual := Residual(trend, kept[i].box);
      low := Min(low, residual);
      high := Max(high, residual);
    }
    var spread := high - low;
    if avgH > 0.0 && spread / avgH > ratio {
      layout := TwoLines((low + high) / 2.0);
    } else {
      layout := OneLine;
    }
  }

  lemma SideStep(boxes: seq<CharBox>, r: seq<real>, split: real, top: bool, n: nat)
    requires |boxes| == |r| && n < |boxes|
    ensures Side(boxes[..n + 1], r[..n + 1], split, top) ==
              Side(boxes[..n], r[..n], split, top) + if (r[n] <= split) == top then [boxes[n]] else []
  {
    assert boxes[..n + 1][..n] == boxes[..n] && r[..n + 1][..n] == r[..n];
  }

  method SplitLines(kept: seq<CharBox>, trend: Trend, split: real) returns (top: seq<CharBox>, bottom: seq<CharBox>)
    requires trend == Fit(kept)
    ensures top == Side(kept, Residuals(kept), split, true) && bottom == Side(kept, Residuals(kept), split, false)
  {
    ghost var r := Residuals(kept);
    top, bottom := [], [];
    for i := 0 to |kept|
      invariant top == Side(kept[..i], r[..i], split, true) && bottom == Side(kept[..i], r[..i], split, false)
    {
      SideStep(kept, r, split, true, i);
      SideStep(kept, r, split, false, i);
      if Residual(trend, kept[i].box) <= split {
        top := top + [kept[i]];
      } else {
        bottom := bottom + [kept[i]];
      }
    }
    assert kept[..|kept|] == kept && r[..|kept|] == r;
  }

  method AssemblePlateText(boxes: seq<CharBox>, options: AssembleOptions) returns (reading: PlateReading)
    ensures reading == AssembledText(boxes, options)
  {
    reading := PlateReading([], "");
    var kept := Dedup(boxes, options.iouDedup);
    if |kept| <= 1 {
      reading := AppendSortedByX(kept, reading, []);
      assert [] + Sort(kept, LeftOf) == Sort(kept, LeftOf);
      return;
    }
    var trend := FitTrend(kept);
    var layout := DecideLayout(kept, trend, options.squareRatio);
    match layout
    case OneLine =>
      reading := AppendSortedByX(kept, reading, []);
      assert [] + Sort(kept, LeftOf) == Sort(kept, LeftOf);
    case TwoLines(split) =>
      var top, bottom := SplitLines(kept, trend, split);
      reading := AppendSortedByX(top, reading, []);
      assert [] + Sort(top, LeftOf) == Sort(top, LeftOf);
      reading := AppendSortedByX(bottom, reading, Sort(top, LeftOf));
  }

  // ---------------------------------------------------------------------------------------------
  // What dedup keeps

  predicate Displaces(winner: CharBox, loser: CharBox, threshold: real) {
    Iou(loser.box, winner.box) > threshold && winner.confidence >= loser.confidence
  }

  lemma FarFromEachOther(kept: seq<CharBox>, threshold: real, i: nat, j: nat)
    requires i < |kept| && j < |kept| && i != j
    requires forall a, b :: 0 <= a < b < |kept| ==> !Overlapping(threshold)(kept[b], kept[a])
    ensures Iou(kept[i].box, kept[j].box) <= threshold
  {
    IouMeaning(kept[i].box, kept[j].box);
    assert !Overlapping(threshold)(kept[if i < j then j else i], kept[if i < j then i else j]);
  }

  lemma KeptAreApart(boxes: seq<CharBox>, threshold: real)
    ensures var kept := Deduplicated(boxes, threshold);
            forall i, j :: 0 <= i < |kept| && 0 <= j < |kept| && i != j ==> Iou(kept[i].box, kept[j].box) <= threshold
  {
    var sorted, kept := Sort(boxes, MoreConfident), Deduplicated(boxes, threshold);
    SortSorts(boxes, MoreConfident);
    assert forall i, j :: 0 <= i < j < |sorted| ==> !MoreConfident(sorted[j], sorted[i]);
    GreedyGuarantee(sorted, Overlapping(threshold), (x: CharBox) => x.confidence);
    forall i, j | 0 <= i < |kept| && 0 <= j < |kept| && i != j ensures Iou(kept[i].box, kept[j].box) <= threshold {
      FarFromEachOther(kept, threshold, i, j);
    }
  }

  lemma DroppedAreDisplaced(boxes: seq<CharBox>, threshold: real, d: nat)
    requires d < |Victims(Sort(boxes, MoreConfident), Overlapping(threshold))|
    ensures var kept, dropped := Deduplicated(boxes, threshold), Victims(Sort(boxes, MoreConfident), Overlapping(threshold));
            exists i :: 0 <= i < |kept| && Displaces(kept[i], dropped[d], threshold)
  {
    var sorted, hits := Sort(boxes, MoreConfident), Overlapping(threshold);
    var confidence := (x: CharBox) => x.confidence;
    SortSorts(boxes, MoreConfident);
    assert forall i, j :: 0 <= i < j < |sorted| ==> !MoreConfident(sorted[j], sorted[i]);
    GreedyGuarantee(sorted, hits, confidence);
    var kept, dropped := Deduplicated(boxes, threshold), Victims(sorted, hits);
    var i :| 0 <= i < |kept| && Dominates(hits, confidence, kept[i], dropped[d]);
    assert Displaces(kept[i], dropped[d], threshold);
  }

  /** The kept boxes overlap pairwise by at most the threshold, and every dropped box overlaps a kept one that is at
      least as confident. */
  lemma DedupGuarantee(boxes: seq<CharBox>, threshold: real)
    ensures var kept, dropped := Deduplicated(boxes, threshold), Victims(Sort(boxes, MoreConfident), Overlapping(threshold));
            && multiset(kept) + multiset(dropped) == multiset(boxes)
            && (forall i, j :: 0 <= i < |kept| && 0 <= j < |kept| && i != j ==> Iou(kept[i].box, kept[j].box) <= threshold)
            && (forall d :: 0 <= d < |dropped| ==> exists i :: 0 <= i < |kept| && Displaces(kept[i], dropped[d], threshold))
  {
    SortPermutes(boxes, MoreConfident);
    GreedySplits(Sort(boxes, MoreConfident), Overlapping(threshold));
    KeptAreApart(boxes, threshold);
    var kept, dropped := Deduplicated(boxes, threshold), Victims(Sort(boxes, MoreConfident), Overlapping(threshold));
    forall d | 0 <= d < |dropped| ensures exists i :: 0 <= i < |kept| && Displaces(kept[i], dropped[d], threshold) {
      DroppedAreDisplaced(boxes, threshold, d);
    }
  }

  // ---------------------------------------------------------------------------------------------
  // The reading order

  lemma {:induction false} SidesSplit(boxes: seq<CharBox>, r: seq<real>, split: real)
    requires |boxes| == |r|
    ensures multiset(Side(boxes, r, split, true)) + multiset(Side(boxes, r, split, false)) == multiset(boxes)
  {
    if boxes == [] {
    } else {
      var n := |boxes| - 1;
      SidesSplit(boxes[..n], r[..n], split);
      assert boxes == boxes[..n] + [boxes[n]];
    }
  }

  /** Every kept box is read exactly once. */
  lemma OrderPermutes(kept: seq<CharBox>, ratio: real)
    ensures multiset(ReadingOrder(kept, ratio)) == multiset(kept)
  {
    SortPermutes(kept, LeftOf);
    if |kept| > 1 {
      var r := Residuals(kept);
      match Decide(r, Heights(kept), ratio)
      case OneLine =>
      case TwoLines(split) =>
        SidesSplit(kept, r, split);
        SortPermutes(Side(kept, r, split, true), LeftOf);
        SortPermutes(Side(kept, r, split, false), LeftOf);
    }
  }

  lemma {:induction false} Extremes(v: seq<real>, n: nat) returns (a: nat, b: nat)
    requires v != [] && n <= |v|
    ensures a < |v| && b < |v| && v[a] == Lowest(v, n) && v[b] == Highest(v, n)
    ensures forall i :: 0 <= i < n ==> Lowest(v, n) <= v[i] <= Highest(v, n)
  {
    if n == 0 {
      a, b := 0, 0;
    } else {
      a, b := Extremes(v, n - 1);
      if v[n - 1] < Lowest(v, n - 1) { a := n - 1; }
      if v[n - 1] > Highest(v, n - 1) { b := n - 1; }
    }
  }

  /** A box is on a side exactly when its residual is. */
  lemma {:induction false} SideMembers(boxes: seq<CharBox>, t: Trend, r: seq<real>, split: real, top: bool)
    requires |boxes| == |r| && forall i :: 0 <= i < |boxes| ==> r[i] == Residual(t, boxes[i].box)
    ensures forall b :: b in Side(boxes, r, split, top) <==> b in boxes && (Residual(t, b.box) <= split) == top
  {
    if boxes == [] {
    } else {
      var n := |boxes| - 1;
      SideMembers(boxes[..n], t, r[..n], split, top);
      assert boxes == boxes[..n] + [boxes[n]];
    }
  }

  ghost predicate LeftToRight(line: seq<CharBox>) {
    forall i, j :: 0 <= i < j < |line| ==> CenterX(line[i].box) <= CenterX(line[j].box)
  }

  lemma SortedLeftToRight(line: seq<CharBox>)
    ensures LeftToRight(Sort(line, LeftOf)) && multiset(Sort(line, LeftOf)) == multiset(line)
  {
    SortSorts(line, LeftOf);
    SortPermutes(line, LeftOf);
    var s := Sort(line, LeftOf);
    assert forall i, j :: 0 <= i < j < |s| ==> !LeftOf(s[j], s[i]);
  }

  /** A line of the result holds exactly the kept boxes on its side of the split, left to right. */
  ghost predicate IsLine(line: seq<CharBox>, kept: seq<CharBox>, split: real, top: bool) {
    && LeftToRight(line)
    && forall b :: b in line <==> b in kept && (Residual(Fit(kept), b.box) <= split) == top
  }

  lemma LineOf(kept: seq<CharBox>, split: real, top: bool)
    ensures IsLine(Sort(Side(kept, Residuals(kept), split, top), LeftOf), kept, split, top)
  {
    var side := Side(kept, Residuals(kept), split, top);
    SideMembers(kept, Fit(kept), Residuals(kept), split, top);
    SortedLeftToRight(side);
    var line := Sort(side, LeftOf);
    forall b ensures b in line <==> b in side {
      assert b in multiset(line) <==> b in multiset(side);
    }
  }

  lemma {:induction false} TextsJoin(a: seq<CharBox>, b: seq<CharBox>)
    ensures Texts(a + b) == Texts(a) + Texts(b)
  {
    if b == [] {
      assert a + b == a;
    } else {
      var n := |b| - 1;
      TextsJoin(a, b[..n]);
      assert (a + b)[..|a + b| - 1] == a + b[..n];
    }
  }

  /** A plate read in two lines: the top line comes first, neither line is empty when the ratio is not negative, the
      split residual separates them, and each runs from left to right. */
  lemma TwoLinePlate(kept: seq<CharBox>, ratio: real, split: real) returns (top: seq<CharBox>, bottom: seq<CharBox>)
    requires |kept| > 1 && Decide(Residuals(kept), Heights(kept), ratio) == TwoLines(split)
    ensures ReadingOrder(kept, ratio) == top + bottom && Texts(top + bottom) == Texts(top) + Texts(bottom)
    ensures IsLine(top, kept, split, true) && IsLine(bottom, kept, split, false)
    ensures top != [] && (ratio >= 0.0 ==> bottom != [])
  {
    var r, n := Residuals(kept), |kept|;
    top := Sort(Side(kept, r, split, true), LeftOf);
    bottom := Sort(Side(kept, r, split, false), LeftOf);
    LineOf(kept, split, true);
    LineOf(kept, split, false);
    TextsJoin(top, bottom);
    var a, b := Extremes(r, n);
    SplitBetween(r, Heights(kept), ratio, split);
    assert kept[a] in kept && kept[b] in kept;
    assert kept[a] in top;
    if ratio >= 0.0 {
      assert kept[b] in bottom;
    }
  }

  /** The split lies between the residuals, strictly below the highest when the ratio is not negative. */
  lemma SplitBetween(r: seq<real>, h: seq<real>, ratio: real, split: real)
    requires |r| == |h| > 0 && Decide(r, h, ratio) == TwoLines(split)
    ensures Lowest(r, |r|) <= split && (ratio >= 0.0 ==> split < Highest(r, |r|))
  {
    var a, b := Extremes(r, |r|);
    assert Lowest(r, |r|) <= r[0] <= Highest(r, |r|);
    if ratio >= 0.0 {
      PositiveNumerator(Highest(r, |r|) - Lowest(r, |r|), WrongWay.Mean(h));
    }
  }

  lemma PositiveNumerator(a: real, b: real)
    requires b > 0.0 && a / b > 0.0
    ensures a > 0.0
  {
    ProductSign(a / b, b);
    assert (a / b) * b == a;
  }

  // ---------------------------------------------------------------------------------------------
  // Sliding the boxes along a slanted axis

  /** Every box moved vertically by c times its centre's x, plus d. */
  function Slide(c: real, d: real): CharBox -> CharBox {
    (b: CharBox) =>
      var t := Product(c, CenterX(b.box)) + d;
      b.(box := Box(b.box.x1, b.box.y1 + t, b.box.x2, b.box.y2 + t))
  }

  function Slid(boxes: seq<CharBox>, c: real, d: real): seq<CharBox> { Mapped(boxes, Slide(c, d)) }

  function Variance(boxes: seq<CharBox>): real
    requires boxes != []
  {
    var x := CentersX(boxes);
    CoSpread(x, x, WrongWay.Mean(x), WrongWay.Mean(x), |x|)
  }

  lemma SlideCenters(boxes: seq<CharBox>, c: real, d: real)
    ensures CentersX(Slid(boxes, c, d)) == CentersX(boxes) && Heights(Slid(boxes, c, d)) == Heights(boxes)
    ensures Sheared(CentersX(boxes), CentersY(boxes), CentersY(Slid(boxes, c, d)), c, d)
  {
  }

  ghost predicate Sheared(x: seq<real>, y: seq<real>, y': seq<real>, c: real, d: real) {
    |x| == |y| == |y'| && forall i :: 0 <= i < |x| ==> y'[i] == y[i] + (Product(c, x[i]) + d)
  }

  lemma Distributes(c: real, a: real, b: real)
    ensures Product(c, a + b) == Product(c, a) + Product(c, b)
    ensures Product(a + b, c) == Product(a, c) + Product(b, c)
  {
  }

  lemma {:induction false} ShearedSum(x: seq<real>, y: seq<real>, y': seq<real>, c: real, d: real, n: nat)
    requires Sheared(x, y, y', c, d) && n <= |x|
    ensures WrongWay.Sum(y', n) == WrongWay.Sum(y, n) + Product(c, WrongWay.Sum(x, n)) + Product(n as real, d)
  {
    if n == 0 {
    } else {
      ShearedSum(x, y, y', c, d, n - 1);
      Distributes(c, WrongWay.Sum(x, n - 1), x[n - 1]);
      Distributes(d, (n - 1) as real, 1.0);
    }
  }

  lemma ShearedMean(x: seq<real>, y: seq<real>, y': seq<real>, c: real, d: real)
    requires Sheared(x, y, y', c, d) && x != []
    ensures WrongWay.Mean(y') == WrongWay.Mean(y) + (Product(c, WrongWay.Mean(x)) + d)
  {
    var n := |x|;
    ShearedSum(x, y, y', c, d, n);
    DividedSum(WrongWay.Sum(x, n), WrongWay.Sum(y, n), c, d, n as real);
  }

  lemma DividedSum(sx: real, sy: real, c: real, d: real, n: real)
    requires n > 0.0
    ensures (sy + Product(c, sx) + Product(n, d)) / n == sy / n + (Product(c, sx / n) + d)
  {
    var a, b := sy / n, sx / n;
    assert a * n == sy && b * n == sx;
    assert (a + (c * b + d)) * n == sy + c * sx + n * d;
  }

  lemma {:induction false} ShearedCoSpread(x: seq<real>, y: seq<real>, y': seq<real>, c: real, d: real, mx: real, my: real, n: nat)
    requires Sheared(x, y, y', c, d) && n <= |x|
    ensures CoSpread(x, y', mx, my + (Product(c, mx) + d), n) == CoSpread(x, y, mx, my, n) + Product(c, CoSpread(x, x, mx, mx, n))
  {
    if n == 0 {
    } else {
      ShearedCoSpread(x, y, y', c, d, mx, my, n - 1);
      ShearedTerm(x[n - 1], y[n - 1], c, d, mx, my, CoSpread(x, x, mx, mx, n - 1));
    }
  }

  lemma ShearedTerm(x: real, y: real, c: real, d: real, mx: real, my: real, v: real)
    ensures Product(x - mx, y + (Product(c, x) + d) - (my + (Product(c, mx) + d)))
         == Product(x - mx, y - my) + Product(c, v + Product(x - mx, x - mx)) - Product(c, v)
  {
  }

  /** The fitted line slides along: its slope grows by c and its intercept by d. */
  lemma ShearedFit(x: seq<real>, y: seq<real>, y': seq<real>, c: real, d: real)
    requires Sheared(x, y, y', c, d) && |x| >= 2
    requires CoSpread(x, x, WrongWay.Mean(x), WrongWay.Mean(x), |x|) > VARIANCE_EPS || c == 0.0
    ensures FitLine(x, y') == Trend(FitLine(x, y).slope + c, FitLine(x, y).intercept + d)
  {
    var n := |x|;
    var mx, my := WrongWay.Mean(x), WrongWay.Mean(y);
    ShearedMean(x, y, y', c, d);
    ShearedCoSpread(x, y, y', c, d, mx, my, n);
    ShearedLine(CoSpread(x, y, mx, my, n), CoSpread(x, x, mx, mx, n), mx, my, c, d);
  }

  lemma ShearedLine(cov: real, variance: real, mx: real, my: real, c: real, d: real)
    requires variance > VARIANCE_EPS || c == 0.0
    ensures var t := LineThrough(cov, variance, mx, my);
            LineThrough(cov + Product(c, variance), variance, mx, my + (Product(c, mx) + d)) == Trend(t.slope + c, t.intercept + d)
  {
    var slope := LineThrough(cov, variance, mx, my).slope;
    if variance > VARIANCE_EPS {
      ShiftedRatio(cov, variance, c);
    }
    Distributes(mx, slope, c);
  }

  lemma ShiftedRatio(a: real, b: real, c: real)
    requires b > 0.0
    ensures (a + Product(c, b)) / b == a / b + c
  {
    var q := a / b;
    assert q * b == a;
    assert (q + c) * b == a + c * b;
  }

  lemma SlidResidual(y: real, x: real, slope: real, intercept: real, c: real, d: real)
    ensures y + (Product(c, x) + d) - (Product(slope + c, x) + (intercept + d)) == y - (Product(slope, x) + intercept)
  {
    Distributes(x, slope, c);
  }

  lemma SlideKeepsResiduals(kept: seq<CharBox>, c: real, d: real)
    requires |kept| > 1 && (Variance(kept) > VARIANCE_EPS || c == 0.0)
    ensures Residuals(Slid(kept, c, d)) == Residuals(kept)
  {
    var moved := Slid(kept, c, d);
    SlideCenters(kept, c, d);
    ShearedFit(CentersX(kept), CentersY(kept), CentersY(moved), c, d);
    var t, t' := Fit(kept), Fit(moved);
    forall i | 0 <= i < |kept| ensures Residual(t', moved[i].box) == Residual(t, kept[i].box) {
      var x := CenterX(kept[i].box);
      assert CentersX(moved)[i] == x && CentersY(moved)[i] == CentersY(kept)[i] + (Product(c, x) + d);
      SlidResidual(CenterY(kept[i].box), x, t.slope, t.intercept, c, d);
    }
  }

  lemma {:induction false} SideSlid(kept: seq<CharBox>, r: seq<real>, split: real, top: bool, c: real, d: real)
    requires |kept| == |r|
    ensures Side(Slid(kept, c, d), r, split, top) == Slid(Side(kept, r, split, top), c, d)
  {
    if kept == [] {
    } else {
      var n := |kept| - 1;
      SideSlid(kept[..n], r[..n], split, top, c, d);
      assert Slid(kept, c, d)[..n] == Slid(kept[..n], c, d);
    }
  }

  lemma SortSlid(line: seq<CharBox>, c: real, d: real)
    ensures Sort(Slid(line, c, d), LeftOf) == Slid(Sort(line, LeftOf), c, d)
  {
    SortMapped(line, Slide(c, d), LeftOf, LeftOf);
  }

  lemma {:induction false} ReadSlid(line: seq<CharBox>, c: real, d: real)
    ensures Read(Slid(line, c, d)) == Read(line)
  {
    if line == [] {
    } else {
      var n := |line| - 1;
      ReadSlid(line[..n], c, d);
      assert Slid(line, c, d)[..n] == Slid(line[..n], c, d);
      assert Mapped(Slid(line, c, d), ReadingOf) == Mapped(line, ReadingOf);
    }
  }

  lemma LinesSlid(kept: seq<CharBox>, r: seq<real>, split: real, c: real, d: real)
    requires |kept| == |r|
    ensures BothLines(Slid(kept, c, d), r, split) == Slid(BothLines(kept, r, split), c, d)
  {
    var top, bottom := Side(kept, r, split, true), Side(kept, r, split, false);
    SideSlid(kept, r, split, true, c, d);
    SideSlid(kept, r, split, false, c, d);
    SortSlid(top, c, d);
    SortSlid(bottom, c, d);
    SlidJoin(Sort(top, LeftOf), Sort(bottom, LeftOf), c, d);
  }

  lemma SlidJoin(a: seq<CharBox>, b: seq<CharBox>, c: real, d: real)
    ensures Slid(a + b, c, d) == Slid(a, c, d) + Slid(b, c, d)
  {
  }

  /** The line decision and the text of the kept boxes do not change when every box slides vertically by an affine
      function of its centre's x, provided the centres spread in x beyond the cutoff or the slide is a plain shift. */
  lemma TextIsSlideInvariant(kept: seq<CharBox>, ratio: real, c: real, d: real)
    requires |kept| <= 1 || Variance(kept) > VARIANCE_EPS || c == 0.0
    ensures ReadingOrder(Slid(kept, c, d), ratio) == Slid(ReadingOrder(kept, ratio), c, d)
    ensures Read(ReadingOrder(Slid(kept, c, d), ratio)) == Read(ReadingOrder(kept, ratio))
  {
    ReadSlid(ReadingOrder(kept, ratio), c, d);
    SortSlid(kept, c, d);
    if |kept| > 1 {
      var r := Residuals(kept);
      SlideKeepsResiduals(kept, c, d);
      SlideCenters(kept, c, d);
      match Decide(r, Heights(kept), ratio)
      case OneLine =>
      case TwoLines(split) => LinesSlid(kept, r, split, c, d);
    }
  }

  // --- boxes on one slanted line

  lemma {:induction false} FlatSums(x: seq<real>, y: seq<real>, mx: real, n: nat)
    requires |x| == |y| && n <= |x| && forall i :: 0 <= i < |y| ==> y[i] == 0.0
    ensures WrongWay.Sum(y, n) == 0.0 && CoSpread(x, y, mx, 0.0, n) == 0.0
  {
    if n == 0 {
    } else {
      FlatSums(x, y, mx, n - 1);
    }
  }

  lemma FlatLine(variance: real, mx: real, n: real)
    requires n > 0.0
    ensures LineThrough(0.0, variance, mx, 0.0) == Trend(0.0, 0.0) && 0.0 / n == 0.0
  {
    if variance > VARIANCE_EPS {
      assert 0.0 / variance == 0.0;
    }
    assert Product(0.0, mx) == 0.0;
  }

  lemma FlatResidual(b: Box)
    ensures Residual(Trend(0.0, 0.0), b) == CenterY(b)
  {
    assert Product(0.0, CenterX(b)) == 0.0;
  }

  lemma FlatDecision(r: seq<real>, h: seq<real>, ratio: real)
    requires |r| == |h| > 0 && ratio >= 0.0 && forall i :: 0 <= i < |r| ==> r[i] == 0.0
    ensures Decide(r, h, ratio) == OneLine
  {
    var a, b := Extremes(r, |r|);
    var height := WrongWay.Mean(h);
    if height > 0.0 {
      assert 0.0 / height == 0.0;
    }
  }

  ghost predicate Flat(kept: seq<CharBox>) {
    forall i :: 0 <= i < |kept| ==> CentersY(kept)[i] == 0.0
  }

  lemma FlatIsOneLine(kept: seq<CharBox>, ratio: real)
    requires ratio >= 0.0 && Flat(kept)
    ensures ReadingOrder(kept, ratio) == Sort(kept, LeftOf)
  {
    if |kept| > 1 {
      var x, y := CentersX(kept), CentersY(kept);
      FlatSums(x, y, WrongWay.Mean(x), |x|);
      FlatLine(CoSpread(x, x, WrongWay.Mean(x), WrongWay.Mean(x), |x|), WrongWay.Mean(x), |x| as real);
      var r := Residuals(kept);
      forall i | 0 <= i < |r| ensures r[i] == 0.0 {
        assert y[i] == 0.0;
        FlatResidual(kept[i].box);
      }
      FlatDecision(r, Heights(kept), ratio);
    }
  }

  lemma SlideBack(x: real, c: real, d: real)
    ensures Product(c, x) + d + (Product(-c, x) + (-d)) == 0.0
  {
  }

  ghost predicate OnLine(kept: seq<CharBox>, c: real, d: real) {
    forall i :: 0 <= i < |kept| ==> CenterY(kept[i].box) == Product(c, CenterX(kept[i].box)) + d
  }

  lemma SlideFlattens(kept: seq<CharBox>, c: real, d: real, c': real, d': real)
    requires OnLine(kept, c, d) && c' == -c && d' == -d
    ensures Flat(Slid(kept, c', d'))
  {
    SlideCenters(kept, c', d');
    var x, y, y' := CentersX(kept), CentersY(kept), CentersY(Slid(kept, c', d'));
    forall i | 0 <= i < |kept| ensures y'[i] == 0.0 {
      assert y[i] == Product(c, x[i]) + d;
      SlideBack(x[i], c, d);
    }
  }

  /** Boxes whose centres lie on any straight line y = c x + d are read as one line, left to right. */
  lemma SlantedLineIsOneLine(kept: seq<CharBox>, ratio: real, c: real, d: real)
    requires ratio >= 0.0 && (|kept| <= 1 || Variance(kept) > VARIANCE_EPS || c == 0.0)
    requires OnLine(kept, c, d)
    ensures Read(ReadingOrder(kept, ratio)) == Read(Sort(kept, LeftOf))
  {
    var c', d' := -c, -d;
    SlideFlattens(kept, c, d, c', d');
    UnslidReading(kept, ratio, c', d');
  }

  lemma UnslidReading(kept: seq<CharBox>, ratio: real, c: real, d: real)
    requires ratio >= 0.0 && (|kept| <= 1 || Variance(kept) > VARIANCE_EPS || c == 0.0)
    requires Flat(Slid(kept, c, d))
    ensures Read(ReadingOrder(kept, ratio)) == Read(Sort(kept, LeftOf))
  {
    FlatIsOneLine(Slid(kept, c, d), ratio);
    TextIsSlideInvariant(kept, ratio, c, d);
    SortSlid(kept, c, d);
    ReadSlid(Sort(kept, LeftOf), c, d);
  }

  // --- below the variance cutoff

  lemma PairMean(v: seq<real>)
    requires |v| == 2
    ensures WrongWay.Mean(v) == (v[0] + v[1]) / 2.0
  {
    assert WrongWay.Sum(v, 0) == 0.0 && WrongWay.Sum(v, 1) == v[0] && WrongWay.Sum(v, 2) == v[0] + v[1];
  }

  /** Two boxes almost above one another are not deskewed. */
  lemma SteepPair(a: CharBox, b: CharBox)
    requires CenterX(a.box) == 0.5 && CenterX(b.box) == 0.501
    ensures Residuals([a, b]) == [(CenterY(a.box) - CenterY(b.box)) / 2.0, (CenterY(b.box) - CenterY(a.box)) / 2.0]
  {
    var kept := [a, b];
    var x, y := CentersX(kept), CentersY(kept);
    PairMean(x);
    PairMean(y);
    var mx := WrongWay.Mean(x);
    assert CoSpread(x, x, mx, mx, 1) == Product(-0.0005, -0.0005);
    assert CoSpread(x, x, mx, mx, 2) == Product(-0.0005, -0.0005) + Product(0.0005, 0.0005);
    assert Fit(kept) == Trend(0.0, WrongWay.Mean(y) - Product(0.0, mx));
    assert forall p, q :: p == 0.0 ==> Product(p, q) == 0.0;
  }

  lemma PairDecision(r: seq<real>, h: seq<real>)
    requires |r| == 2 && h == [1.0, 1.0]
    ensures r == [0.0, 0.0] ==> Decide(r, h, 0.5) == OneLine
    ensures r == [0.5, -0.5] ==> Decide(r, h, 0.5) == TwoLines(0.0)
  {
    PairMean(h);
    assert Lowest(r, 1) == r[0] && Highest(r, 1) == r[0];
    assert Lowest(r, 2) == Min(r[0], r[1]) && Highest(r, 2) == Max(r[0], r[1]);
  }

  lemma PairSides(a: CharBox, b: CharBox)
    ensures Side([a, b], [0.5, -0.5], 0.0, true) == [b] && Side([a, b], [0.5, -0.5], 0.0, false) == [a]
  {
    assert [a, b][..1] == [a] && [0.5, -0.5][..1] == [0.5];
    assert Side([a], [0.5], 0.0, true) == [] && Side([a], [0.5], 0.0, false) == [a];
  }

  lemma SortSmall(a: CharBox, b: CharBox)
    ensures Sort([a], LeftOf) == [a]
    ensures !LeftOf(b, a) ==> Sort([a, b], LeftOf) == [a, b]
  {
    assert [a, b][1..] == [b];
    assert Sort([b], LeftOf) == [b];
  }

  lemma LevelPairOrder(a: CharBox, b: CharBox)
    requires CenterX(a.box) == 0.5 && CenterX(b.box) == 0.501 && a.box.Height() == 1.0 && b.box.Height() == 1.0
    requires CenterY(a.box) == CenterY(b.box)
    ensures ReadingOrder([a, b], 0.5) == [a, b]
  {
    SteepPair(a, b);
    assert Residuals([a, b]) == [0.0, 0.0] && Heights([a, b]) == [1.0, 1.0];
    PairDecision(Residuals([a, b]), Heights([a, b]));
    SortSmall(a, b);
  }

  lemma StackedPairOrder(a: CharBox, b: CharBox)
    requires CenterX(a.box) == 0.5 && CenterX(b.box) == 0.501 && a.box.Height() == 1.0 && b.box.Height() == 1.0
    requires CenterY(a.box) == CenterY(b.box) + 1.0
    ensures ReadingOrder([a, b], 0.5) == [b, a]
  {
    SteepPair(a, b);
    assert Residuals([a, b]) == [0.5, -0.5] && Heights([a, b]) == [1.0, 1.0];
    PairDecision(Residuals([a, b]), Heights([a, b]));
    PairSides(a, b);
    SortSmall(a, b);
    SortSmall(b, a);
  }

  lemma SlidPair(a: CharBox, b: CharBox) returns (a': CharBox, b': CharBox)
    requires a.box == Box(0.0, 1.0, 1.0, 2.0) && b.box == Box(0.001, 0.0, 1.001, 1.0)
    ensures Slid([a, b], 1000.0, 0.0) == [a', b']
    ensures a'.box == Box(0.0, 501.0, 1.0, 502.0) && b'.box == Box(0.001, 501.0, 1.001, 502.0)
  {
    a', b' := Slide(1000.0, 0.0)(a), Slide(1000.0, 0.0)(b);
    assert Product(1000.0, CenterX(a.box)) == 500.0 && Product(1000.0, CenterX(b.box)) == 501.0;
  }

  /** The cutoff matters: two boxes almost above one another are read in another order when they slide steeply. */
  lemma SteepSlideReorders(a: CharBox, b: CharBox)
    requires a.box == Box(0.0, 1.0, 1.0, 2.0) && b.box == Box(0.001, 0.0, 1.001, 1.0)
    ensures ReadingOrder([a, b], 0.5) == [b, a]
    ensures ReadingOrder(Slid([a, b], 1000.0, 0.0), 0.5) == Slid([a, b], 1000.0, 0.0)
  {
    StackedPairOrder(a, b);
    var a', b' := SlidPair(a, b);
    LevelPairOrder(a', b');
  }
}
