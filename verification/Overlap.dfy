/** Box overlap and greedy suppression: the character dedup's IoU, the pose parser's IoU, and what any greedy
    pass over a list sorted by confidence keeps and drops. */
module Overlap {
  import opened Geometry
  import opened StableSorting

  // ---------------------------------------------------------------------------------------------
  // Intersection over union

  function Iou(a: Box, b: Box): real {
    var w := Min(a.x2, b.x2) - Max(a.x1, b.x1);
    var h := Min(a.y2, b.y2) - Max(a.y1, b.y1);
    if w <= 0.0 || h <= 0.0 then 0.0
    else
      Ratio(Area(w, h), Area(Max(0.0, a.Width()), Max(0.0, a.Height())), Area(Max(0.0, b.Width()), Max(0.0, b.Height())))
  }

  function Area(w: real, h: real): real { w * h }

  function Ratio(inter: real, areaA: real, areaB: real): real {
    var denom := areaA + areaB - inter;
    if denom <= 0.0 then 0.0 else inter / denom
  }

  lemma ProductGrows(w: real, w': real, h: real, h': real)
    requires 0.0 < w <= w' && 0.0 < h <= h'
    ensures 0.0 < Area(w, h) <= Area(w', h')
    ensures Area(w, h) == Area(w', h') ==> w == w' && h == h'
  {
    ProductSign(w, h);
    ProductSign(w' - w, h);
    ProductSign(w', h' - h);
    assert w' * h' - w * h == (w' - w) * h + w' * (h' - h);
  }

  lemma RatioRange(i: real, a: real, b: real)
    requires 0.0 < i <= a && i <= b
    ensures 0.0 < Ratio(i, a, b) <= 1.0
    ensures Ratio(i, a, b) == 1.0 <==> i == a && i == b
  {
    PositiveRatio(i, a + b - i);
  }

  lemma PositiveRatio(i: real, d: real)
    requires 0.0 < i <= d
    ensures 0.0 < i / d <= 1.0
    ensures i / d == 1.0 <==> i == d
  {
    var r := i / d;
    assert r * d == i;
    assert (r - 1.0) * d == i - d;
    ProductSign(r, d);
    ProductSign(1.0 - r, d);
    ProductSign(r - 1.0, d);
  }

  /** The boxes' interiors have a common point. */
  predicate InteriorsMeet(a: Box, b: Box) {
    Max(a.x1, b.x1) < Min(a.x2, b.x2) && Max(a.y1, b.y1) < Min(a.y2, b.y2)
  }

  lemma IouOfMeeting(a: Box, b: Box)
    requires InteriorsMeet(a, b)
    ensures var w, h := Min(a.x2, b.x2) - Max(a.x1, b.x1), Min(a.y2, b.y2) - Max(a.y1, b.y1);
            var areaA, areaB := Area(a.Width(), a.Height()), Area(b.Width(), b.Height());
            && Iou(a, b) == Ratio(Area(w, h), areaA, areaB)
            && 0.0 < Area(w, h) <= areaA && Area(w, h) <= areaB
            && (Area(w, h) == areaA && Area(w, h) == areaB <==> a == b)
  {
    var w, h := Min(a.x2, b.x2) - Max(a.x1, b.x1), Min(a.y2, b.y2) - Max(a.y1, b.y1);
    ProductGrows(w, a.Width(), h, a.Height());
    ProductGrows(w, b.Width(), h, b.Height());
    assert Max(0.0, a.Width()) == a.Width() && Max(0.0, a.Height()) == a.Height();
    assert Max(0.0, b.Width()) == b.Width() && Max(0.0, b.Height()) == b.Height();
  }

  /** The ratio lies in [0, 1], does not depend on the order of the boxes, is positive exactly when their interiors
      meet, and is 1 exactly for two equal boxes of positive size: the guard on the denominator never fires. */
  lemma IouMeaning(a: Box, b: Box)
    ensures 0.0 <= Iou(a, b) <= 1.0
    ensures Iou(a, b) == Iou(b, a)
    ensures Iou(a, b) > 0.0 <==> InteriorsMeet(a, b)
    ensures Iou(a, b) == 1.0 <==> a == b && a.Width() > 0.0 && a.Height() > 0.0
  {
    if InteriorsMeet(a, b) {
      IouOfMeeting(a, b);
      IouOfMeeting(b, a);
      var inter := Area(Min(a.x2, b.x2) - Max(a.x1, b.x1), Min(a.y2, b.y2) - Max(a.y1, b.y1));
      RatioRange(inter, Area(a.Width(), a.Height()), Area(b.Width(), b.Height()));
    }
  }

  /** The closed box as a set of points. */
  ghost predicate InBox(p: Point, b: Box) { b.x1 <= p.x <= b.x2 && b.y1 <= p.y <= b.y2 }

  lemma CommonBox(a: Box, b: Box) returns (m: Box)
    requires InteriorsMeet(a, b)
    ensures m == Box(Max(a.x1, b.x1), Max(a.y1, b.y1), Min(a.x2, b.x2), Min(a.y2, b.y2)) && m.x1 < m.x2 && m.y1 < m.y2
    ensures forall p: Point :: InBox(p, a) && InBox(p, b) <==> InBox(p, m)
  {
    m := Box(Max(a.x1, b.x1), Max(a.y1, b.y1), Min(a.x2, b.x2), Min(a.y2, b.y2));
  }

  lemma RatioTimesUnion(inter: real, areaA: real, areaB: real)
    requires 0.0 < inter <= areaA && inter <= areaB
    ensures Product(Ratio(inter, areaA, areaB), areaA + areaB - inter) == inter
  {
    var d := areaA + areaB - inter;
    assert inter / d * d == inter;
  }

  /** Two boxes whose interiors meet have a box of common points, and the ratio times the area that they cover together is
      the area of that box. */
  lemma IouIsIntersectionOverUnion(a: Box, b: Box) returns (m: Box)
    requires Max(a.x1, b.x1) < Min(a.x2, b.x2) && Max(a.y1, b.y1) < Min(a.y2, b.y2)
    ensures forall p: Point :: InBox(p, a) && InBox(p, b) <==> InBox(p, m)
    ensures var areaA, areaB, common := Product(a.x2 - a.x1, a.y2 - a.y1), Product(b.x2 - b.x1, b.y2 - b.y1),
                                        Product(m.x2 - m.x1, m.y2 - m.y1);
            0.0 < common && Product(Iou(a, b), areaA + areaB - common) == common
  {
    m := CommonBox(a, b);
    IouOfCommon(a, b, m);
    AreaIsProduct(a.x2 - a.x1, a.y2 - a.y1);
    AreaIsProduct(b.x2 - b.x1, b.y2 - b.y1);
    AreaIsProduct(m.x2 - m.x1, m.y2 - m.y1);
  }

  lemma AreaIsProduct(w: real, h: real)
    ensures Area(w, h) == Product(w, h)
  {
  }

  lemma IouOfCommon(a: Box, b: Box, m: Box)
    requires InteriorsMeet(a, b) && m == Box(Max(a.x1, b.x1), Max(a.y1, b.y1), Min(a.x2, b.x2), Min(a.y2, b.y2))
    ensures var areaA, areaB, common := Area(a.x2 - a.x1, a.y2 - a.y1), Area(b.x2 - b.x1, b.y2 - b.y1),
                                        Area(m.x2 - m.x1, m.y2 - m.y1);
            0.0 < common && Product(Iou(a, b), areaA + areaB - common) == common
  {
    IouOfMeeting(a, b);
    RatioTimesUnion(Area(m.x2 - m.x1, m.y2 - m.y1), Area(a.Width(), a.Height()), Area(b.Width(), b.Height()));
  }

  // ---------------------------------------------------------------------------------------------
  // The pose parser's ratio

  /** A detected instance; `mask` names the heap block that it owns. */
  datatype Instance = Instance(left: real, top: real, width: real, height: real, confidence: real, mask: nat)

  function BoxOf(i: Instance): Box {
    Box(i.left, i.top, i.left + i.width, i.top + i.height)
  }

  function Overlap1D(x1min: real, x1max: real, x2min: real, x2max: real): real {
    if x1min > x2min then OrderedOverlap(x2min, x2max, x1min, x1max) else OrderedOverlap(x1min, x1max, x2min, x2max)
  }

  function OrderedOverlap(x1min: real, x1max: real, x2min: real, x2max: real): real {
    if x1max < x2min then 0.0 else Min(x1max, x2max) - x2min
  }

  function ComputeIou(a: Instance, b: Instance): real {
    var x := Overlap1D(a.left, a.left + a.width, b.left, b.left + b.width);
    var y := Overlap1D(a.top, a.top + a.height, b.top, b.top + b.height);
    PoseRatio(Area(x, y), Area(a.width, a.height), Area(b.width, b.height))
  }

  function PoseRatio(inter: real, areaA: real, areaB: real): real {
    var u := areaA + areaB - inter;
    if u == 0.0 then 0.0 else inter / u
  }

  lemma Overlap1DIsClipped(a: real, aLen: real, b: real, bLen: real)
    requires aLen >= 0.0 && bLen >= 0.0
    ensures Overlap1D(a, a + aLen, b, b + bLen) == Max(0.0, Min(a + aLen, b + bLen) - Max(a, b))
  {
  }

  predicate Sized(i: Instance) { i.width >= 0.0 && i.height >= 0.0 }

  lemma OverlapsAreClipped(a: Instance, b: Instance)
    requires Sized(a) && Sized(b)
    ensures var p, q := BoxOf(a), BoxOf(b);
            && Overlap1D(a.left, a.left + a.width, b.left, b.left + b.width) == Max(0.0, Min(p.x2, q.x2) - Max(p.x1, q.x1))
            && Overlap1D(a.top, a.top + a.height, b.top, b.top + b.height) == Max(0.0, Min(p.y2, q.y2) - Max(p.y1, q.y1))
  {
    Overlap1DIsClipped(a.left, a.width, b.left, b.width);
    Overlap1DIsClipped(a.top, a.height, b.top, b.height);
  }

  lemma PoseIouOfMeeting(a: Instance, b: Instance)
    requires Sized(a) && Sized(b) && InteriorsMeet(BoxOf(a), BoxOf(b))
    ensures ComputeIou(a, b) == Iou(BoxOf(a), BoxOf(b))
  {
    var p, q := BoxOf(a), BoxOf(b);
    OverlapsAreClipped(a, b);
    IouOfMeeting(p, q);
    assert p.Width() == a.width && p.Height() == a.height && q.Width() == b.width && q.Height() == b.height;
  }

  lemma PoseIouOfApart(a: Instance, b: Instance)
    requires Sized(a) && Sized(b) && !InteriorsMeet(BoxOf(a), BoxOf(b))
    ensures ComputeIou(a, b) == 0.0
  {
    OverlapsAreClipped(a, b);
    ZeroProduct(Overlap1D(a.left, a.left + a.width, b.left, b.left + b.width),
                Overlap1D(a.top, a.top + a.height, b.top, b.top + b.height));
  }

  /** On boxes of non-negative size the two ratios of the repository are the same. */
  lemma PoseIouIsIou(a: Instance, b: Instance)
    requires Sized(a) && Sized(b)
    ensures ComputeIou(a, b) == Iou(BoxOf(a), BoxOf(b))
  {
    if InteriorsMeet(BoxOf(a), BoxOf(b)) {
      PoseIouOfMeeting(a, b);
    } else {
      PoseIouOfApart(a, b);
      IouMeaning(BoxOf(a), BoxOf(b));
    }
  }

  lemma ZeroProduct(x: real, y: real)
    requires x == 0.0 || y == 0.0
    ensures Area(x, y) == 0.0
  {
  }

  // ---------------------------------------------------------------------------------------------
  // Greedy suppression

  /** The positions that a greedy pass keeps: those that no kept one before them hits. */
  function Kept<T>(s: seq<T>, hits: (T, T) -> bool): (k: seq<nat>)
    ensures forall i :: 0 <= i < |k| ==> k[i] < |s|
    ensures forall i, j :: 0 <= i < j < |k| ==> k[i] < k[j]
  {
    if s == [] then []
    else
      var n := |s| - 1;
      var k := Kept(s[..n], hits);
      if exists i :: 0 <= i < |k| && hits(s[n], s[k[i]]) then k else k + [n]
  }

  /** The positions that the pass drops. */
  function Dropped<T>(s: seq<T>, hits: (T, T) -> bool): (k: seq<nat>)
    ensures forall i :: 0 <= i < |k| ==> k[i] < |s| && k[i] !in Kept(s, hits)
  {
    if s == [] then []
    else
      var n := |s| - 1;
      Dropped(s[..n], hits) + if n in Kept(s, hits) then [] else [n]
  }

  function Selected<T>(s: seq<T>, k: seq<nat>): (r: seq<T>)
    requires forall i :: 0 <= i < |k| ==> k[i] < |s|
    ensures |r| == |k| && forall i :: 0 <= i < |k| ==> r[i] == s[k[i]]
  {
    seq(|k|, i requires 0 <= i < |k| => s[k[i]])
  }

  function Survivors<T>(s: seq<T>, hits: (T, T) -> bool): seq<T> {
    Selected(s, Kept(s, hits))
  }

  lemma KeptPrefix<T>(s: seq<T>, hits: (T, T) -> bool, d: nat)
    requires d < |s| - 1
    ensures var k, k' := Kept(s, hits), Kept(s[..|s| - 1], hits);
            && (d in k <==> d in k')
            && |k'| <= |k| && k[..|k'|] == k' && (forall i :: |k'| <= i < |k| ==> k[i] > d)
  {
  }

  /** What decides whether a position is kept; together with the order this fixes the kept list. */
  lemma {:induction false} KeptIff<T>(s: seq<T>, hits: (T, T) -> bool, d: nat)
    requires d < |s|
    ensures d in Kept(s, hits) <==> Unhit(s, Kept(s, hits), hits, d)
  {
    if d < |s| - 1 {
      KeptIff(s[..|s| - 1], hits, d);
      EarlierKept(s, hits, d);
    } else {
      KeptLast(s, hits);
    }
  }

  lemma EarlierKept<T>(s: seq<T>, hits: (T, T) -> bool, d: nat)
    requires d < |s| - 1
    requires d in Kept(s[..|s| - 1], hits) <==> Unhit(s[..|s| - 1], Kept(s[..|s| - 1], hits), hits, d)
    ensures d in Kept(s, hits) <==> Unhit(s, Kept(s, hits), hits, d)
  {
    KeptPrefix(s, hits, d);
    UnhitPrefix(s, Kept(s, hits), Kept(s[..|s| - 1], hits), hits, d);
  }

  lemma KeptLast<T>(s: seq<T>, hits: (T, T) -> bool)
    requires s != []
    ensures |s| - 1 in Kept(s, hits) <==> Unhit(s, Kept(s, hits), hits, |s| - 1)
  {
    var n := |s| - 1;
    var k, k' := Kept(s, hits), Kept(s[..n], hits);
    if k == k' + [n] {
      assert k[|k'|] == n;
    } else {
      assert k == k' && n !in k';
    }
  }

  /** No kept position before d hits it. */
  predicate Unhit<T>(s: seq<T>, k: seq<nat>, hits: (T, T) -> bool, d: nat)
    requires d < |s| && forall i :: 0 <= i < |k| ==> k[i] < |s|
  {
    forall i :: 0 <= i < |k| && k[i] < d ==> !hits(s[d], s[k[i]])
  }

  lemma UnhitPrefix<T>(s: seq<T>, k: seq<nat>, k': seq<nat>, hits: (T, T) -> bool, d: nat)
    requires d < |s| - 1 && |k'| <= |k| && k[..|k'|] == k' && forall i :: |k'| <= i < |k| ==> k[i] > d
    requires (forall i :: 0 <= i < |k| ==> k[i] < |s|) && forall i :: 0 <= i < |k'| ==> k'[i] < |s| - 1
    ensures Unhit(s, k, hits, d) <==> Unhit(s[..|s| - 1], k', hits, d)
  {
    assert forall i :: 0 <= i < |k'| ==> k[i] == k'[i];
  }

  function Victims<T>(s: seq<T>, hits: (T, T) -> bool): seq<T> {
    Selected(s, Dropped(s, hits))
  }

  lemma PositionsStep<T>(t: seq<T>, hits: (T, T) -> bool)
    requires t != []
    ensures var n := |t| - 1;
            var k, o := Kept(t[..n], hits), Dropped(t[..n], hits);
            if exists i :: 0 <= i < |k| && hits(t[n], t[k[i]])
            then Kept(t, hits) == k && Dropped(t, hits) == o + [n]
            else Kept(t, hits) == k + [n] && Dropped(t, hits) == o
  {
    var n := |t| - 1;
    var k := Kept(t[..n], hits);
    if !exists i :: 0 <= i < |k| && hits(t[n], t[k[i]]) {
      assert Kept(t, hits)[|k|] == n;
    }
  }

  lemma SelectedLonger<T>(t: seq<T>, k: seq<nat>, n: nat)
    requires n < |t| && forall i :: 0 <= i < |k| ==> k[i] < n
    ensures Selected(t, k) == Selected(t[..n], k)
    ensures Selected(t, k + [n]) == Selected(t[..n], k) + [t[n]]
  {
  }

  /** One step of the pass: the next element joins the survivors unless one of them hits it. */
  lemma StepOf<T>(s: seq<T>, hits: (T, T) -> bool, n: nat)
    requires n < |s|
    ensures var r, f := Survivors(s[..n], hits), Victims(s[..n], hits);
            if exists i :: 0 <= i < |r| && hits(s[n], r[i])
            then Survivors(s[..n + 1], hits) == r && Victims(s[..n + 1], hits) == f + [s[n]]
            else Survivors(s[..n + 1], hits) == r + [s[n]] && Victims(s[..n + 1], hits) == f
  {
    var t := s[..n + 1];
    assert t[..n] == s[..n];
    PositionsStep(t, hits);
    var k, r := Kept(s[..n], hits), Survivors(s[..n], hits);
    SelectedLonger(t, k, n);
    SelectedLonger(t, Dropped(s[..n], hits), n);
    assert forall i :: 0 <= i < |k| ==> r[i] == t[k[i]];
  }

  predicate Dominates<T>(hits: (T, T) -> bool, confidence: T -> real, winner: T, loser: T) {
    hits(loser, winner) && confidence(winner) >= confidence(loser)
  }

  /** Among the survivors nobody hits an earlier one; every other element is hit by a survivor that is at least as
      confident. */
  lemma GreedyGuarantee<T>(s: seq<T>, hits: (T, T) -> bool, confidence: T -> real)
    requires forall i, j :: 0 <= i < j < |s| ==> confidence(s[i]) >= confidence(s[j])
    ensures var r, f := Survivors(s, hits), Victims(s, hits);
            && (forall i, j :: 0 <= i < j < |r| ==> !hits(r[j], r[i]))
            && (forall d :: 0 <= d < |f| ==> exists i :: 0 <= i < |r| && Dominates(hits, confidence, r[i], f[d]))
  {
    var k, r := Kept(s, hits), Survivors(s, hits);
    var o, f := Dropped(s, hits), Victims(s, hits);
    forall i, j | 0 <= i < j < |r| ensures !hits(r[j], r[i]) {
      assert k[j] in k;
      KeptIff(s, hits, k[j]);
    }
    forall d | 0 <= d < |f| ensures exists i :: 0 <= i < |r| && Dominates(hits, confidence, r[i], f[d]) {
      KeptIff(s, hits, o[d]);
      var i :| 0 <= i < |k| && k[i] < o[d] && hits(s[o[d]], s[k[i]]);
      assert Dominates(hits, confidence, r[i], f[d]);
    }
  }

  /** Nothing is lost and nothing is made up. */
  lemma {:induction false} GreedySplits<T>(s: seq<T>, hits: (T, T) -> bool)
    ensures multiset(Survivors(s, hits)) + multiset(Victims(s, hits)) == multiset(s)
  {
    if s == [] {
      assert Survivors(s, hits) == [] && Victims(s, hits) == [];
    } else {
      GreedySplits(s[..|s| - 1], hits);
      LongerSplits(s, hits);
    }
  }

  lemma LongerSplits<T>(s: seq<T>, hits: (T, T) -> bool)
    requires s != []
    requires multiset(Survivors(s[..|s| - 1], hits)) + multiset(Victims(s[..|s| - 1], hits)) == multiset(s[..|s| - 1])
    ensures multiset(Survivors(s, hits)) + multiset(Victims(s, hits)) == multiset(s)
  {
    JoinsOneSide(s, hits);
    var front := s[..|s| - 1];
    OneMoreSplits(Survivors(front, hits), Victims(front, hits), Survivors(s, hits), Victims(s, hits), s);
  }

  lemma JoinsOneSide<T>(s: seq<T>, hits: (T, T) -> bool)
    requires s != []
    ensures var n := |s| - 1;
            var r, f := Survivors(s[..n], hits), Victims(s[..n], hits);
            || (Survivors(s, hits) == r && Victims(s, hits) == f + [s[n]])
            || (Survivors(s, hits) == r + [s[n]] && Victims(s, hits) == f)
  {
    StepOf(s, hits, |s| - 1);
    assert s[..|s|] == s;
  }

  lemma OneMoreSplits<T>(r: seq<T>, f: seq<T>, r': seq<T>, f': seq<T>, s: seq<T>)
    requires s != [] && multiset(r) + multiset(f) == multiset(s[..|s| - 1])
    requires (r' == r && f' == f + [s[|s| - 1]]) || (r' == r + [s[|s| - 1]] && f' == f)
    ensures multiset(r') + multiset(f') == multiset(s)
  {
    assert s == s[..|s| - 1] + [s[|s| - 1]];
  }

  // ---------------------------------------------------------------------------------------------
  // The pose parser's suppression

  const NMS_THRESH := 0.45

  predicate MoreConfident(a: Instance, b: Instance) { a.confidence > b.confidence }

  predicate Suppresses(i: Instance, j: Instance) { ComputeIou(i, j) > NMS_THRESH }

  /** The inner loop: compare with the kept ones until one suppresses. */
  method Survives(i: Instance, out: seq<Instance>) returns (keep: bool)
    ensures keep <==> !exists j :: 0 <= j < |out| && Suppresses(i, out[j])
  {
    keep := true;
    var j := 0;
    while j < |out|
      invariant 0 <= j <= |out|
      invariant keep <==> forall q :: 0 <= q < j ==> !Suppresses(i, out[q])
    {
      if keep {
        var overlap := ComputeIou(i, out[j]);
        keep := overlap <= NMS_THRESH;
      } else {
        break;
      }
      j := j + 1;
    }
  }

  /** `freed` lists the instances whose mask is deleted. */
  method NonMaximumSuppression(binfo: seq<Instance>) returns (out: seq<Instance>, freed: seq<Instance>)
    ensures out == Survivors(Sort(binfo, MoreConfident), Suppresses)
    ensures freed == Victims(Sort(binfo, MoreConfident), Suppresses)
  {
    var sorted := Sort(binfo, MoreConfident);
    out, freed := [], [];
    for n := 0 to |sorted|
      invariant out == Survivors(sorted[..n], Suppresses)
      invariant freed == Victims(sorted[..n], Suppresses)
    {
      var keep := Survives(sorted[n], out);
      StepOf(sorted, Suppresses, n);
      if keep {
        out := out + [sorted[n]];
      } else {
        freed := freed + [sorted[n]];
      }
    }
    assert sorted[..|sorted|] == sorted;
  }

  predicate DistinctMasks(s: seq<Instance>) {
    forall i, j :: 0 <= i < j < |s| ==> s[i].mask != s[j].mask
  }

  /** Two positions of a list that hold the parts of a split of a mask-distinct list own different masks. */
  lemma MasksSplit(binfo: seq<Instance>, all: seq<Instance>)
    requires DistinctMasks(binfo) && multiset(all) == multiset(binfo)
    ensures DistinctMasks(all)
  {
    forall i, j | 0 <= i < j < |all| ensures all[i].mask != all[j].mask {
      var x, y := all[i], all[j];
      assert x in multiset(all) && y in multiset(all);
      var p :| 0 <= p < |binfo| && binfo[p] == x;
      var q :| 0 <= q < |binfo| && binfo[q] == y;
      if x == y {
        CountedTwice(all, i, j);
        CountedOnce(binfo, p);
      } else {
        assert p != q;
      }
    }
  }

  lemma CountedTwice(s: seq<Instance>, i: nat, j: nat)
    requires i < j < |s| && s[i] == s[j]
    ensures multiset(s)[s[i]] >= 2
  {
    assert s == s[..j] + [s[j]] + s[j + 1..];
    assert s[i] in s[..j];
  }

  lemma CountedOnce(s: seq<Instance>, p: nat)
    requires p < |s| && DistinctMasks(s)
    ensures multiset(s)[s[p]] == 1
  {
    assert s == s[..p] + [s[p]] + s[p + 1..];
    assert s[p] !in s[..p];
    assert s[p] !in s[p + 1..];
  }

  /** Each mask is either returned or freed, and never twice. */
  lemma EachMaskOnce(binfo: seq<Instance>)
    requires DistinctMasks(binfo)
    ensures var out, freed := Survivors(Sort(binfo, MoreConfident), Suppresses), Victims(Sort(binfo, MoreConfident), Suppresses);
            && multiset(out + freed) == multiset(binfo)
            && DistinctMasks(out + freed)
  {
    var sorted := Sort(binfo, MoreConfident);
    SortPermutes(binfo, MoreConfident);
    GreedySplits(sorted, Suppresses);
    var out, freed := Survivors(sorted, Suppresses), Victims(sorted, Suppresses);
    assert multiset(out + freed) == multiset(out) + multiset(freed);
    MasksSplit(binfo, out + freed);
  }

  /** The returned instances overlap pairwise by at most the threshold, and each freed one overlaps a returned one
      that is at least as confident. */
  lemma SuppressionGuarantee(binfo: seq<Instance>)
    ensures var out, freed := Survivors(Sort(binfo, MoreConfident), Suppresses), Victims(Sort(binfo, MoreConfident), Suppresses);
            && (forall i, j :: 0 <= i < j < |out| ==> !Suppresses(out[j], out[i]))
            && (forall d :: 0 <= d < |freed| ==>
                  exists i :: 0 <= i < |out| && Suppresses(freed[d], out[i]) && out[i].confidence >= freed[d].confidence)
  {
    var sorted := Sort(binfo, MoreConfident);
    SortSorts(binfo, MoreConfident);
    assert forall i, j :: 0 <= i < j < |sorted| ==> !MoreConfident(sorted[j], sorted[i]);
    var confidence := (x: Instance) => x.confidence;
    GreedyGuarantee(sorted, Suppresses, confidence);
    var out, freed := Survivors(sorted, Suppresses), Victims(sorted, Suppresses);
    forall d | 0 <= d < |freed|
      ensures exists i :: 0 <= i < |out| && Suppresses(freed[d], out[i]) && out[i].confidence >= freed[d].confidence
    {
      var i :| 0 <= i < |out| && Dominates(Suppresses, confidence, out[i], freed[d]);
    }
  }
}
