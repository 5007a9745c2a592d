/** Exactly when sliding the kept boxes along a slanted axis leaves their reading order alone. */
module SlideInvariance {
  import opened Geometry
  import opened StableSorting
  import opened Overlap
  import opened CharAssembler
  import WrongWay

  /** The boxes are read in the same order before and after the slide. */
  ghost predicate SameOrder(kept: seq<CharBox>, ratio: real, c: real, d: real) {
    ReadingOrder(Slid(kept, c, d), ratio) == Slid(ReadingOrder(kept, ratio), c, d)
  }

  ghost predicate SlideInvariant(kept: seq<CharBox>, ratio: real) {
    forall c, d :: SameOrder(kept, ratio, c, d)
  }

  /** All centres have the same x. */
  ghost predicate Upright(kept: seq<CharBox>) {
    forall i, j :: 0 <= i < |kept| && 0 <= j < |kept| ==> CenterX(kept[i].box) == CenterX(kept[j].box)
  }

  // ---------------------------------------------------------------------------------------------
  // Where the order stays

  /** Boxes above one another slide like a plain shift. */
  lemma UprightShift(boxes: seq<CharBox>, x: real, c: real, d: real)
    requires forall b :: b in boxes ==> CenterX(b.box) == x
    ensures Slid(boxes, c, d) == Slid(boxes, 0.0, Product(c, x) + d)
  {
    forall i | 0 <= i < |boxes| ensures Slid(boxes, c, d)[i] == Slid(boxes, 0.0, Product(c, x) + d)[i] {
      assert boxes[i] in boxes;
      assert Product(0.0, x) == 0.0;
    }
  }

  lemma UprightStays(kept: seq<CharBox>, ratio: real, c: real, d: real)
    requires Upright(kept) && kept != []
    ensures SameOrder(kept, ratio, c, d)
  {
    var x := CenterX(kept[0].box);
    UprightShift(kept, x, c, d);
    OrderPermutes(kept, ratio);
    forall b | b in ReadingOrder(kept, ratio) ensures CenterX(b.box) == x {
      assert b in multiset(ReadingOrder(kept, ratio)) && b in multiset(kept);
    }
    UprightShift(ReadingOrder(kept, ratio), x, c, d);
    TextIsSlideInvariant(kept, ratio, 0.0, Product(c, x) + d);
  }

  /** Boxes of no height on average are always read as one line. */
  lemma FlatStays(kept: seq<CharBox>, ratio: real, c: real, d: real)
    requires |kept| > 1 && WrongWay.Mean(Heights(kept)) <= 0.0
    ensures SameOrder(kept, ratio, c, d)
  {
    SlideCenters(kept, c, d);
    SortSlid(kept, c, d);
  }

  // ---------------------------------------------------------------------------------------------
  // Where it does not

  /** Below the cutoff the residuals are the heights above the mean. */
  lemma LevelResiduals(kept: seq<CharBox>)
    requires |kept| > 1 && Variance(kept) <= VARIANCE_EPS
    ensures forall i :: 0 <= i < |kept| ==> Residuals(kept)[i] == CentersY(kept)[i] - WrongWay.Mean(CentersY(kept))
  {
    var mx, my := WrongWay.Mean(CentersX(kept)), WrongWay.Mean(CentersY(kept));
    assert Fit(kept) == Trend(0.0, my - Product(0.0, mx));
    assert forall p, q :: p == 0.0 ==> Product(p, q) == 0.0;
  }

  /** The box read first of two lines is a leftmost one of the top line. */
  lemma FirstRead(kept: seq<CharBox>, ratio: real, split: real)
    requires |kept| > 1 && Decide(Residuals(kept), Heights(kept), ratio) == TwoLines(split)
    ensures ReadingOrder(kept, ratio) != []
    ensures var first := ReadingOrder(kept, ratio)[0];
            && (exists i :: 0 <= i < |kept| && kept[i] == first && Residuals(kept)[i] <= split)
            && forall i :: 0 <= i < |kept| && Residuals(kept)[i] <= split ==> CenterX(first.box) <= CenterX(kept[i].box)
  {
    var top, bottom := TwoLinePlate(kept, ratio, split);
    var first := ReadingOrder(kept, ratio)[0];
    assert first == top[0] && first in top;
    forall i | 0 <= i < |kept| && Residuals(kept)[i] <= split ensures CenterX(first.box) <= CenterX(kept[i].box) {
      assert kept[i] in top;
      var j :| 0 <= j < |top| && top[j] == kept[i];
    }
    var i :| 0 <= i < |kept| && kept[i] == first;
    assert Residuals(kept)[i] <= split;
  }

  /** Residuals further apart than ratio times the mean height split the plate in the middle between the extremes. */
  lemma FarApart(r: seq<real>, h: seq<real>, ratio: real, i: nat, j: nat)
    requires |r| == |h| > 0 && i < |r| && j < |r| && WrongWay.Mean(h) > 0.0
    requires r[j] - r[i] > Product(Abs(ratio), WrongWay.Mean(h))
    ensures Decide(r, h, ratio) == TwoLines((Lowest(r, |r|) + Highest(r, |r|)) / 2.0)
  {
    var a, b := Extremes(r, |r|);
    var spread, height := Highest(r, |r|) - Lowest(r, |r|), WrongWay.Mean(h);
    assert spread >= r[j] - r[i];
    BeatsRatio(spread, height, ratio);
  }

  lemma BeatsRatio(spread: real, height: real, ratio: real)
    requires height > 0.0 && spread > Product(Abs(ratio), height)
    ensures spread / height > ratio
  {
    var q := spread / height;
    assert q * height == spread;
    if q <= Abs(ratio) {
      ProductSign(Abs(ratio) - q, height);
      assert false;
    }
  }

  function Abs(x: real): real { if x < 0.0 then -x else x }

  /** The slide is so steep that x decides which box is low: K times the width in x beats four times the range in y and
      the gap needed for two lines. */
  ghost predicate Steep(kept: seq<CharBox>, ratio: real, k: real, m: nat, far: nat, range: real)
    requires |kept| > 1
  {
    var x, y := CentersX(kept), CentersY(kept);
    && m < |kept| && far < |kept| && k >= 0.0
    && (forall i :: 0 <= i < |kept| ==> x[m] <= x[i] <= x[far])
    && (forall i, j :: 0 <= i < |kept| && 0 <= j < |kept| ==> y[i] - y[j] <= range)
    && Product(k, x[far] - x[m]) > 4.0 * range + Product(Abs(ratio), WrongWay.Mean(Heights(kept)))
    && WrongWay.Mean(Heights(kept)) > 0.0 && Variance(kept) <= VARIANCE_EPS
  }

  function Slope(k: real, sign: real): real { if sign == 1.0 then k else -k }

  lemma Climb(k: real, a: real, x: real, b: real)
    requires k >= 0.0 && a <= x <= b
    ensures Product(k, a) <= Product(k, x) <= Product(k, b)
    ensures Product(k, b) - Product(k, a) == Product(k, b - a)
    ensures Product(-k, x) == -Product(k, x)
  {
    ProductSign(x - a, k);
    ProductSign(b - x, k);
  }

  lemma SlidVariance(kept: seq<CharBox>, c: real)
    requires |kept| > 1 && Variance(kept) <= VARIANCE_EPS
    ensures var moved := Slid(kept, c, 0.0);
            && |moved| == |kept| && CentersX(moved) == CentersX(kept) && Heights(moved) == Heights(kept)
            && forall i :: 0 <= i < |kept| ==>
                 Residuals(moved)[i] ==
                   CentersY(kept)[i] + Product(c, CentersX(kept)[i]) - WrongWay.Mean(CentersY(moved))
  {
    SlideCenters(kept, c, 0.0);
    LevelResiduals(Slid(kept, c, 0.0));
  }

  /** What the steep slide does to the residuals: rising with x for +K, falling for -K. */
  ghost predicate Climbs(x: seq<real>, r: seq<real>, up: seq<real>, m: nat, far: nat, range: real, sign: real) {
    && |x| == |r| == |up| && m < |x| && far < |x| && (sign == 1.0 || sign == -1.0)
    && (forall i :: 0 <= i < |x| ==> up[m] <= up[i] <= up[far])
    && (forall i :: 0 <= i < |x| && x[i] == x[m] ==> up[i] == up[m])
    && (forall i, j :: 0 <= i < |x| && 0 <= j < |x| ==> (r[i] - sign * up[i]) - (r[j] - sign * up[j]) <= range)
    && up[far] - up[m] > 4.0 * range
  }

  /** Rising: the boxes of least x lie in the top half. */
  lemma LeastOnTop(x: seq<real>, r: seq<real>, up: seq<real>, m: nat, far: nat, range: real)
    requires Climbs(x, r, up, m, far, range, 1.0)
    ensures r[m] <= (Lowest(r, |r|) + Highest(r, |r|)) / 2.0
  {
    var a, b := Extremes(r, |r|);
    assert r[far] <= r[b];
    assert (r[m] - 1.0 * up[m]) - (r[a] - 1.0 * up[a]) <= range;
    assert (r[m] - 1.0 * up[m]) - (r[far] - 1.0 * up[far]) <= range;
  }

  /** Falling: they lie in the bottom half. */
  lemma LeastBelow(x: seq<real>, r: seq<real>, up: seq<real>, m: nat, far: nat, range: real, i: nat)
    requires Climbs(x, r, up, m, far, range, -1.0) && i < |x| && x[i] == x[m]
    ensures r[i] > (Lowest(r, |r|) + Highest(r, |r|)) / 2.0
  {
    var a, b := Extremes(r, |r|);
    assert r[a] <= r[far];
    assert (r[b] + up[b]) - (r[i] + up[i]) <= range by {
      assert (r[b] - -1.0 * up[b]) - (r[i] - -1.0 * up[i]) <= range;
    }
    assert (r[far] + up[far]) - (r[i] + up[i]) <= range by {
      assert (r[far] - -1.0 * up[far]) - (r[i] - -1.0 * up[i]) <= range;
    }
  }

  /** How far each box is lifted by the slope k. */
  function Lifts(x: seq<real>, k: real): (up: seq<real>)
    ensures |up| == |x| && forall i :: 0 <= i < |x| ==> up[i] == Product(k, x[i])
  {
    seq(|x|, i requires 0 <= i < |x| => Product(k, x[i]))
  }

  lemma LiftsClimb(x: seq<real>, k: real, m: nat, far: nat)
    requires k >= 0.0 && m < |x| && far < |x| && forall i :: 0 <= i < |x| ==> x[m] <= x[i] <= x[far]
    ensures var up := Lifts(x, k);
            && (forall i :: 0 <= i < |x| ==> up[m] <= up[i] <= up[far] && Product(-k, x[i]) == -up[i])
            && up[far] - up[m] == Product(k, x[far] - x[m])
  {
    forall i | 0 <= i < |x|
      ensures Product(k, x[m]) <= Product(k, x[i]) <= Product(k, x[far]) && Product(-k, x[i]) == -Product(k, x[i])
    {
      Climb(k, x[m], x[i], x[far]);
    }
    Climb(k, x[m], x[m], x[far]);
  }

  lemma SteepClimbs(kept: seq<CharBox>, ratio: real, k: real, m: nat, far: nat, range: real, sign: real)
    requires |kept| > 1 && Steep(kept, ratio, k, m, far, range) && (sign == 1.0 || sign == -1.0)
    ensures var moved, up := Slid(kept, Slope(k, sign), 0.0), Lifts(CentersX(kept), k);
            && |moved| == |kept| && CentersX(moved) == CentersX(kept) && Heights(moved) == Heights(kept)
            && Climbs(CentersX(kept), Residuals(moved), up, m, far, range, sign)
            && up[far] - up[m] > range + Product(Abs(ratio), WrongWay.Mean(Heights(kept)))
  {
    LiftsClimb(CentersX(kept), k, m, far);
    SlidVariance(kept, Slope(k, sign));
    ProductSign(Abs(ratio), WrongWay.Mean(Heights(kept)));
    assert CentersY(kept)[m] - CentersY(kept)[m] <= range;
  }

  lemma SteepSplits(kept: seq<CharBox>, ratio: real, k: real, m: nat, far: nat, range: real, sign: real)
    requires |kept| > 1 && Steep(kept, ratio, k, m, far, range) && (sign == 1.0 || sign == -1.0)
    ensures var moved := Slid(kept, Slope(k, sign), 0.0);
            var r := Residuals(moved);
            |moved| == |kept| && Decide(r, Heights(moved), ratio) == TwoLines((Lowest(r, |r|) + Highest(r, |r|)) / 2.0)
  {
    var moved, up := Slid(kept, Slope(k, sign), 0.0), Lifts(CentersX(kept), k);
    SteepClimbs(kept, ratio, k, m, far, range, sign);
    var r := Residuals(moved);
    var (i, j) := if sign == 1.0 then (m, far) else (far, m);
    assert (r[i] - sign * up[i]) - (r[j] - sign * up[j]) <= range;
    FarApart(r, Heights(moved), ratio, i, j);
  }

  /** The boxes of least x are on top of a rising slide and not on top of a falling one. */
  lemma LeastSide(x: seq<real>, r: seq<real>, up: seq<real>, m: nat, far: nat, range: real, sign: real, q: nat)
    requires Climbs(x, r, up, m, far, range, sign) && q < |x| && x[q] == x[m]
    ensures sign == 1.0 ==> r[m] <= (Lowest(r, |r|) + Highest(r, |r|)) / 2.0
    ensures sign == -1.0 ==> r[q] > (Lowest(r, |r|) + Highest(r, |r|)) / 2.0
  {
    if sign == 1.0 {
      LeastOnTop(x, r, up, m, far, range);
    } else {
      LeastBelow(x, r, up, m, far, range, q);
    }
  }

  /** After the steep slide upwards a box of least x is read first, after the one downwards a box of larger x. */
  lemma FirstAfterSteep(kept: seq<CharBox>, ratio: real, k: real, m: nat, far: nat, range: real, sign: real)
    requires |kept| > 1 && Steep(kept, ratio, k, m, far, range) && (sign == 1.0 || sign == -1.0)
    ensures var order := ReadingOrder(Slid(kept, Slope(k, sign), 0.0), ratio);
            && order != []
            && (CenterX(order[0].box) == CentersX(kept)[m] <==> sign == 1.0)
  {
    var moved, x := Slid(kept, Slope(k, sign), 0.0), CentersX(kept);
    SteepClimbs(kept, ratio, k, m, far, range, sign);
    SteepSplits(kept, ratio, k, m, far, range, sign);
    var r := Residuals(moved);
    FirstRead(moved, ratio, (Lowest(r, |r|) + Highest(r, |r|)) / 2.0);
    var first := ReadingOrder(moved, ratio)[0];
    var q :| 0 <= q < |moved| && moved[q] == first && r[q] <= (Lowest(r, |r|) + Highest(r, |r|)) / 2.0;
    assert CenterX(first.box) == x[q] && CentersX(moved)[m] == x[m];
    LeastSide(x, r, Lifts(x, k), m, far, range, sign, if x[q] == x[m] then q else m);
  }

  lemma SlopeOf(need: real, width: real) returns (k: real)
    requires need >= 0.0 && width > 0.0
    ensures k >= 0.0 && Product(k, width) == need
  {
    k := need / width;
    assert k * width == need;
    if k < 0.0 {
      ProductSign(k, width);
    }
  }

  lemma Range(v: seq<real>) returns (low: nat, high: nat)
    requires v != []
    ensures low < |v| && high < |v| && forall i :: 0 <= i < |v| ==> v[low] <= v[i] <= v[high]
  {
    low, high := Extremes(v, |v|);
  }

  lemma Width(kept: seq<CharBox>) returns (m: nat, far: nat)
    requires !Upright(kept) && kept != []
    ensures m < |kept| && far < |kept| && CentersX(kept)[m] < CentersX(kept)[far]
    ensures forall i :: 0 <= i < |kept| ==> CentersX(kept)[m] <= CentersX(kept)[i] <= CentersX(kept)[far]
  {
    m, far := Range(CentersX(kept));
    var i, j :| 0 <= i < |kept| && 0 <= j < |kept| && CenterX(kept[i].box) != CenterX(kept[j].box);
    assert CentersX(kept)[i] != CentersX(kept)[j];
  }

  /** A slope that is steep enough. */
  lemma SteepEnough(kept: seq<CharBox>, ratio: real) returns (k: real, m: nat, far: nat, range: real)
    requires |kept| > 1 && WrongWay.Mean(Heights(kept)) > 0.0 && Variance(kept) <= VARIANCE_EPS && !Upright(kept)
    ensures Steep(kept, ratio, k, m, far, range)
  {
    m, far := Width(kept);
    var low, high := Range(CentersY(kept));
    range := CentersY(kept)[high] - CentersY(kept)[low];
    ProductSign(Abs(ratio), WrongWay.Mean(Heights(kept)));
    k := SlopeOf(4.0 * range + Product(Abs(ratio), WrongWay.Mean(Heights(kept))) + 1.0, CentersX(kept)[far] - CentersX(kept)[m]);
  }

  lemma SlideKeepsX(order: seq<CharBox>, c: real)
    requires order != []
    ensures Slid(order, c, 0.0) != [] && CenterX(Slid(order, c, 0.0)[0].box) == CenterX(order[0].box)
  {
  }

  lemma SomeSlideReorders(kept: seq<CharBox>, ratio: real)
    requires |kept| > 1 && WrongWay.Mean(Heights(kept)) > 0.0 && Variance(kept) <= VARIANCE_EPS && !Upright(kept)
    ensures !SlideInvariant(kept, ratio)
  {
    var k, m, far, range := SteepEnough(kept, ratio);
    FirstAfterSteep(kept, ratio, k, m, far, range, 1.0);
    FirstAfterSteep(kept, ratio, k, m, far, range, -1.0);
    if SlideInvariant(kept, ratio) {
      assert SameOrder(kept, ratio, k, 0.0) && SameOrder(kept, ratio, -k, 0.0);
      TwoFirsts(ReadingOrder(kept, ratio), ReadingOrder(Slid(kept, k, 0.0), ratio),
                ReadingOrder(Slid(kept, -k, 0.0), ratio), k);
    }
  }

  lemma TwoFirsts(order: seq<CharBox>, rising: seq<CharBox>, falling: seq<CharBox>, k: real)
    requires rising == Slid(order, k, 0.0) && falling == Slid(order, -k, 0.0) && rising != []
    ensures falling != [] && CenterX(rising[0].box) == CenterX(falling[0].box)
  {
    SlideKeepsX(order, k);
    SlideKeepsX(order, -k);
  }

  /** The reading order of the kept boxes survives every vertical slide exactly when there is at most one box, the boxes
      have no height on average, their centres spread in x beyond the cutoff, or all centres are above one another. */
  lemma SlideInvariantIff(kept: seq<CharBox>, ratio: real)
    ensures SlideInvariant(kept, ratio) <==>
              |kept| <= 1 || WrongWay.Mean(Heights(kept)) <= 0.0 || Variance(kept) > VARIANCE_EPS || Upright(kept)
  {
    if |kept| <= 1 || WrongWay.Mean(Heights(kept)) <= 0.0 || Variance(kept) > VARIANCE_EPS || Upright(kept) {
      forall c, d ensures SameOrder(kept, ratio, c, d) {
        if |kept| <= 1 || Variance(kept) > VARIANCE_EPS {
          TextIsSlideInvariant(kept, ratio, c, d);
        } else if Upright(kept) {
          UprightStays(kept, ratio, c, d);
        } else {
          FlatStays(kept, ratio, c, d);
        }
      }
    } else {
      SomeSlideReorders(kept, ratio);
    }
  }

  // ---------------------------------------------------------------------------------------------
  // The overlap pass before it

  /** The slide changes no answer to the overlap question. */
  ghost predicate SameOverlaps(boxes: seq<CharBox>, threshold: real, c: real, d: real) {
    forall a, b :: a in boxes && b in boxes ==>
      Overlapping(threshold)(Slide(c, d)(a), Slide(c, d)(b)) == Overlapping(threshold)(a, b)
  }

  lemma {:induction false} KeptSlid(s: seq<CharBox>, threshold: real, c: real, d: real)
    requires SameOverlaps(s, threshold, c, d)
    ensures Kept(Slid(s, c, d), Overlapping(threshold)) == Kept(s, Overlapping(threshold))
  {
    if s == [] {
    } else {
      var n := |s| - 1;
      KeptSlid(s[..n], threshold, c, d);
      assert Slid(s, c, d)[..n] == Slid(s[..n], c, d);
      var k := Kept(s[..n], Overlapping(threshold));
      forall i | 0 <= i < |k|
        ensures Overlapping(threshold)(Slid(s, c, d)[n], Slid(s, c, d)[k[i]]) == Overlapping(threshold)(s[n], s[k[i]])
      {
        assert s[n] in s && s[k[i]] in s;
      }
    }
  }

  lemma DedupSlid(boxes: seq<CharBox>, threshold: real, c: real, d: real)
    requires SameOverlaps(boxes, threshold, c, d)
    ensures Deduplicated(Slid(boxes, c, d), threshold) == Slid(Deduplicated(boxes, threshold), c, d)
  {
    var sorted := Sort(boxes, CharAssembler.MoreConfident);
    SortMapped(boxes, Slide(c, d), CharAssembler.MoreConfident, CharAssembler.MoreConfident);
    SortPermutes(boxes, CharAssembler.MoreConfident);
    forall b | b in sorted ensures b in boxes {
      assert b in multiset(sorted);
    }
    KeptSlid(sorted, threshold, c, d);
  }

  /** The whole reading survives a slide that changes no overlap and keeps the reading order of the kept boxes. */
  lemma ReadingSurvives(boxes: seq<CharBox>, options: AssembleOptions, c: real, d: real)
    requires SameOverlaps(boxes, options.iouDedup, c, d)
    requires SameOrder(Deduplicated(boxes, options.iouDedup), options.squareRatio, c, d)
    ensures AssembledText(Slid(boxes, c, d), options) == AssembledText(boxes, options)
  {
    DedupSlid(boxes, options.iouDedup, c, d);
    ReadSlid(ReadingOrder(Deduplicated(boxes, options.iouDedup), options.squareRatio), c, d);
  }

  lemma LevelKeepsOverlap(a: CharBox, b: CharBox, threshold: real, d: real)
    ensures Overlapping(threshold)(Slide(0.0, d)(a), Slide(0.0, d)(b)) == Overlapping(threshold)(a, b)
  {
    assert Product(0.0, CenterX(a.box)) == 0.0 && Product(0.0, CenterX(b.box)) == 0.0;
    IouShifted(a.box, b.box, d);
  }

  lemma IouShifted(a: Box, b: Box, d: real)
    ensures Iou(Box(a.x1, a.y1 + d, a.x2, a.y2 + d), Box(b.x1, b.y1 + d, b.x2, b.y2 + d)) == Iou(a, b)
  {
    var a', b' := Box(a.x1, a.y1 + d, a.x2, a.y2 + d), Box(b.x1, b.y1 + d, b.x2, b.y2 + d);
    assert a'.Height() == a.Height() && b'.Height() == b.Height();
    assert Min(a'.y2, b'.y2) - Max(a'.y1, b'.y1) == Min(a.y2, b.y2) - Max(a.y1, b.y1);
  }

  /** A plain vertical shift changes nothing of the whole reading, for any boxes. */
  lemma ShiftKeepsReading(boxes: seq<CharBox>, options: AssembleOptions, d: real)
    ensures AssembledText(Slid(boxes, 0.0, d), options) == AssembledText(boxes, options)
  {
    forall a, b | a in boxes && b in boxes
      ensures Overlapping(options.iouDedup)(Slide(0.0, d)(a), Slide(0.0, d)(b)) == Overlapping(options.iouDedup)(a, b)
    {
      LevelKeepsOverlap(a, b, options.iouDedup, d);
    }
    TextIsSlideInvariant(Deduplicated(boxes, options.iouDedup), options.squareRatio, 0.0, d);
    ReadingSurvives(boxes, options, 0.0, d);
  }

  // --- a slide that changes the overlaps

  lemma PairSorted(a: CharBox, b: CharBox)
    requires a.confidence == b.confidence
    ensures Sort([a, b], CharAssembler.MoreConfident) == [a, b]
  {
    assert [a, b][1..] == [b];
    assert Sort([b], CharAssembler.MoreConfident) == [b];
  }

  lemma PairSurvivors(a: CharBox, b: CharBox, threshold: real)
    requires a.confidence == b.confidence
    ensures |Deduplicated([a, b], threshold)| == if Overlapping(threshold)(b, a) then 1 else 2
  {
    PairSorted(a, b);
    FirstSurvives([a, b], Overlapping(threshold));
    SecondOfTwo([a, b], Overlapping(threshold));
  }

  lemma FirstSurvives(s: seq<CharBox>, hits: (CharBox, CharBox) -> bool)
    requires s != []
    ensures Survivors(s[..1], hits) == [s[0]]
  {
    StepOf(s, hits, 0);
    assert Survivors(s[..0], hits) == [];
  }

  lemma SecondOfTwo(s: seq<CharBox>, hits: (CharBox, CharBox) -> bool)
    requires |s| == 2 && Survivors(s[..1], hits) == [s[0]]
    ensures |Survivors(s, hits)| == if hits(s[1], s[0]) then 1 else 2
  {
    StepOf(s, hits, 1);
    assert s[..2] == s;
    var first := [s[0]];
    assert hits(s[1], s[0]) ==> hits(s[1], first[0]);
  }

  lemma ReadLength(boxes: seq<CharBox>, options: AssembleOptions)
    ensures |AssembledText(boxes, options).chars| == |Deduplicated(boxes, options.iouDedup)|
  {
    var kept := Deduplicated(boxes, options.iouDedup);
    OrderPermutes(kept, options.squareRatio);
    assert |multiset(ReadingOrder(kept, options.squareRatio))| == |multiset(kept)|;
  }

  /** The spread in x is not enough for the whole text: two boxes that overlap are one character, and after a steep slide
      they are two. */
  lemma SlideSeparatesBoxes(a: CharBox, b: CharBox, ratio: real)
    requires a.box == Box(0.0, 0.0, 1.0, 1.0) && b.box == Box(0.1, 0.0, 1.1, 1.0) && a.confidence == b.confidence
    ensures Variance([a, b]) > VARIANCE_EPS
    ensures |AssembledText([a, b], AssembleOptions(0.5, ratio)).chars| == 1
    ensures |AssembledText(Slid([a, b], 100.0, 0.0), AssembleOptions(0.5, ratio)).chars| == 2
  {
    var options := AssembleOptions(0.5, ratio);
    PairVariance(a, b);
    var a', b' := Slide(100.0, 0.0)(a), Slide(100.0, 0.0)(b);
    assert Slid([a, b], 100.0, 0.0) == [a', b'];
    assert Product(100.0, CenterX(a.box)) == 50.0 && Product(100.0, CenterX(b.box)) == 60.0;
    assert a'.box == Box(0.0, 50.0, 1.0, 51.0) && b'.box == Box(0.1, 60.0, 1.1, 61.0);
    assert Iou(b'.box, a'.box) == 0.0;
    OverlapOfPair(a.box, b.box);
    PairSurvivors(a, b, 0.5);
    PairSurvivors(a', b', 0.5);
    ReadLength([a, b], options);
    ReadLength([a', b'], options);
  }

  lemma OverlapOfPair(a: Box, b: Box)
    requires a == Box(0.0, 0.0, 1.0, 1.0) && b == Box(0.1, 0.0, 1.1, 1.0)
    ensures Iou(b, a) > 0.5
  {
    assert Area(0.9, 1.0) == 0.9 && Area(1.0, 1.0) == 1.0;
    assert Iou(b, a) == Ratio(0.9, 1.0, 1.0);
  }

  lemma PairVariance(a: CharBox, b: CharBox)
    requires CenterX(a.box) == 0.5 && CenterX(b.box) == 0.6
    ensures Variance([a, b]) > VARIANCE_EPS
  {
    var x := CentersX([a, b]);
    PairMean(x);
    var mx := WrongWay.Mean(x);
    assert CoSpread(x, x, mx, mx, 1) == Product(-0.05, -0.05);
    assert CoSpread(x, x, mx, mx, 2) == Product(-0.05, -0.05) + Product(0.05, 0.05);
  }
}
