/** Motion of a track's anchor point: regression direction, the parked-vehicle test, and line crossing. */
module WrongWay {
  import opened Geometry

  const MIN_MOVE_PX := 2.0
  const MOTION_HISTORY_LEN: nat := 4
  const MIN_MOTION_HISTORY_LEN: nat := 3
  const MIN_MOTION_LEN_PX := 6.0
  const STATIONARY_RADIUS_PX := 4.0
  const STATIONARY_NET_PX := 5.0

  const ORIGIN := Point(0.0, 0.0)

  // ---------------------------------------------------------------------------------------------
  // Regression over the frame index

  function Xs(track: seq<Point>): (r: seq<real>)
    ensures |r| == |track| && forall i :: 0 <= i < |track| ==> r[i] == track[i].x
  {
    seq(|track|, i requires 0 <= i < |track| => track[i].x)
  }

  function Ys(track: seq<Point>): (r: seq<real>)
    ensures |r| == |track| && forall i :: 0 <= i < |track| ==> r[i] == track[i].y
  {
    seq(|track|, i requires 0 <= i < |track| => track[i].y)
  }

  function Sum(v: seq<real>, n: nat): real
    requires n <= |v|
  {
    if n == 0 then 0.0 else Sum(v, n - 1) + v[n - 1]
  }

  function Mean(v: seq<real>): real
    requires v != []
  {
    Sum(v, |v|) / |v| as real
  }

  function MeanIndex(n: nat): real { (n as real - 1.0) / 2.0 }

  /** Sum of squared index deviations. */
  function IndexSpread(n: nat, mean: real): real {
    if n == 0 then 0.0 else IndexSpread(n - 1, mean) + Product((n - 1) as real - mean, (n - 1) as real - mean)
  }

  /** Sum of products of index and value deviations. */
  function CoSpread(v: seq<real>, n: nat, meanIndex: real, mean: real): real
    requires n <= |v|
  {
    if n == 0 then 0.0
    else CoSpread(v, n - 1, meanIndex, mean) + Product((n - 1) as real - meanIndex, v[n - 1] - mean)
  }

  function Slope(v: seq<real>): real
    requires |v| >= 2
  {
    var n := |v|;
    IndexSpreadPositive(n, MeanIndex(n));
    CoSpread(v, n, MeanIndex(n), Mean(v)) / IndexSpread(n, MeanIndex(n))
  }

  function MotionVector(track: seq<Point>): Point {
    if |track| < 2 then ORIGIN
    else
      var scale := (|track| - 1) as real;
      Point(Product(Slope(Xs(track)), scale), Product(Slope(Ys(track)), scale))
  }

  lemma SquareSign(d: real, m: real)
    ensures Product(d, d) >= 0.0
    ensures d == -m ==> Product(d, d) == Product(m, m)
  {
  }

  lemma {:induction false} IndexSpreadGrows(n: nat, mean: real)
    ensures IndexSpread(n, mean) >= 0.0
    ensures n >= 1 ==> IndexSpread(n, mean) >= Product(mean, mean)
  {
    if n == 0 {
    } else {
      IndexSpreadGrows(n - 1, mean);
      var d := (n - 1) as real - mean;
      SquareSign(d, mean);
    }
  }

  lemma IndexSpreadPositive(n: nat, mean: real)
    requires n >= 2 && mean == MeanIndex(n)
    ensures IndexSpread(n, mean) > 0.0
  {
    IndexSpreadGrows(n, mean);
    assert mean > 0.0;
    ProductSign(mean, mean);
  }

  method MeanOf(v: seq<real>) returns (mean: real)
    requires v != []
    ensures mean == Mean(v)
  {
    var total := 0.0;
    for i := 0 to |v|
      invariant total == Sum(v, i)
    {
      total := total + v[i];
    }
    mean := total / |v| as real;
  }

  method RegressionVector(track: seq<Point>) returns (motion: Point)
    ensures motion == MotionVector(track)
  {
    var n := |track|;
    if n < 2 {
      return ORIGIN;
    }
    var meanI := (n as real - 1.0) / 2.0;
    var meanX := MeanOf(Xs(track));
    var meanY := MeanOf(Ys(track));
    var sxx, sx, sy := 0.0, 0.0, 0.0;
    for i := 0 to n
      invariant sxx == IndexSpread(i, meanI)
      invariant sx == CoSpread(Xs(track), i, meanI, meanX)
      invariant sy == CoSpread(Ys(track), i, meanI, meanY)
    {
      var di := i as real - meanI;
      sxx := sxx + Product(di, di);
      sx := sx + Product(di, track[i].x - meanX);
      sy := sy + Product(di, track[i].y - meanY);
    }
    IndexSpreadPositive(n, meanI);  // so the guard for a vanishing spread never fires
    var scale := (n - 1) as real;
    return Point(Product(sx / sxx, scale), Product(sy / sxx, scale));
  }

  // --- uniform motion and translation

  ghost predicate Uniform(v: seq<real>, start: real, step: real) {
    forall i :: 0 <= i < |v| ==> v[i] == start + i as real * step
  }

  lemma {:induction false} UniformSum(v: seq<real>, start: real, step: real, n: nat)
    requires Uniform(v, start, step) && n <= |v|
    ensures Sum(v, n) == Product(start + step * MeanIndex(n), n as real)
  {
    if n == 0 {
    } else {
      UniformSum(v, start, step, n - 1);
      var m := n as real;
      assert v[n - 1] == start + (m - 1.0) * step;
      assert (m - 1.0) * (start + step * ((m - 2.0) / 2.0)) + start + (m - 1.0) * step
          == m * (start + step * ((m - 1.0) / 2.0));
    }
  }

  lemma UniformTerm(value: real, start: real, step: real, i: real, meanIndex: real, spread: real)
    requires value == start + i * step
    ensures Product(i - meanIndex, value - (start + step * meanIndex)) ==
              Product(step, spread + Product(i - meanIndex, i - meanIndex)) - Product(step, spread)
  {
    var d := i - meanIndex;
    assert value - (start + step * meanIndex) == step * d;
    assert d * (step * d) == step * (d * d);
  }

  lemma {:induction false} UniformCoSpread(v: seq<real>, start: real, step: real, n: nat, meanIndex: real)
    requires Uniform(v, start, step) && n <= |v|
    ensures CoSpread(v, n, meanIndex, start + step * meanIndex) == Product(step, IndexSpread(n, meanIndex))
  {
    if n == 0 {
    } else {
      UniformCoSpread(v, start, step, n - 1, meanIndex);
      UniformTerm(v[n - 1], start, step, (n - 1) as real, meanIndex, IndexSpread(n - 1, meanIndex));
    }
  }

  lemma UniformMean(v: seq<real>, start: real, step: real)
    requires v != [] && Uniform(v, start, step)
    ensures Mean(v) == start + step * MeanIndex(|v|)
  {
    UniformSum(v, start, step, |v|);
    RatioOfMultiple(start + step * MeanIndex(|v|), |v| as real);
  }

  lemma UniformSlope(v: seq<real>, start: real, step: real)
    requires |v| >= 2 && Uniform(v, start, step)
    ensures Slope(v) == step
  {
    var n, m := |v|, MeanIndex(|v|);
    var mean := start + step * m;
    assert Mean(v) == mean by {
      UniformMean(v, start, step);
    }
    assert CoSpread(v, n, m, mean) == Product(step, IndexSpread(n, m)) by {
      UniformCoSpread(v, start, step, n, m);
    }
    IndexSpreadPositive(n, m);
    RatioOfMultiple(step, IndexSpread(n, m));
  }

  lemma UniformDisplacement(v: seq<real>, start: real, step: real)
    requires |v| >= 2 && Uniform(v, start, step)
    ensures Product(Slope(v), (|v| - 1) as real) == v[|v| - 1] - v[0]
  {
    UniformSlope(v, start, step);
    assert v[|v| - 1] == start + (|v| - 1) as real * step && v[0] == start + 0 as real * step;
  }

  lemma RatioOfMultiple(a: real, b: real)
    requires b != 0.0
    ensures Product(a, b) / b == a
  {
  }

  /** A track that moves by the same step every frame has exactly "last minus first" as its motion. */
  lemma UniformMotionIsDisplacement(track: seq<Point>, start: Point, step: Point)
    requires |track| >= 2
    requires forall i :: 0 <= i < |track| ==>
               track[i] == Point(start.x + i as real * step.x, start.y + i as real * step.y)
    ensures var last := track[|track| - 1];
            MotionVector(track) == Point(last.x - track[0].x, last.y - track[0].y)
  {
    UniformDisplacement(Xs(track), start.x, step.x);
    UniformDisplacement(Ys(track), start.y, step.y);
  }

  ghost predicate Shifted(v: seq<real>, v': seq<real>, d: real) {
    |v'| == |v| && forall i :: 0 <= i < |v| ==> v'[i] == v[i] + d
  }

  lemma {:induction false} ShiftedSum(v: seq<real>, v': seq<real>, d: real, n: nat)
    requires Shifted(v, v', d) && n <= |v|
    ensures Sum(v', n) == Sum(v, n) + n as real * d
  {
    if n == 0 {
    } else {
      ShiftedSum(v, v', d, n - 1);
    }
  }

  lemma {:induction false} ShiftedCoSpread(v: seq<real>, v': seq<real>, d: real, n: nat, meanIndex: real, mean: real)
    requires Shifted(v, v', d) && n <= |v|
    ensures CoSpread(v', n, meanIndex, mean + d) == CoSpread(v, n, meanIndex, mean)
  {
    if n == 0 {
    } else {
      ShiftedCoSpread(v, v', d, n - 1, meanIndex, mean);
    }
  }

  lemma ShiftedSlope(v: seq<real>, v': seq<real>, d: real)
    requires |v| >= 2 && Shifted(v, v', d)
    ensures Slope(v') == Slope(v)
  {
    var n := |v|;
    ShiftedSum(v, v', d, n);
    assert Mean(v') == Mean(v) + d by {
      assert (Sum(v, n) + n as real * d) / n as real == Sum(v, n) / n as real + d;
    }
    ShiftedCoSpread(v, v', d, n, MeanIndex(n), Mean(v));
  }

  lemma MotionIsTranslationInvariant(track: seq<Point>, moved: seq<Point>, d: Point)
    requires |moved| == |track|
    requires forall i :: 0 <= i < |track| ==> moved[i] == Point(track[i].x + d.x, track[i].y + d.y)
    ensures MotionVector(moved) == MotionVector(track)
  {
    if |track| >= 2 {
      ShiftedSlope(Xs(track), Xs(moved), d.x);
      ShiftedSlope(Ys(track), Ys(moved), d.y);
    }
  }

  // ---------------------------------------------------------------------------------------------
  // The parked-vehicle test

  function SquaredDistance(a: Point, b: Point): real {
    Product(a.x - b.x, a.x - b.x) + Product(a.y - b.y, a.y - b.y)
  }

  function Centroid(anchors: seq<Point>): Point
    requires anchors != []
  {
    Point(Mean(Xs(anchors)), Mean(Ys(anchors)))
  }

  predicate Stationary(anchors: seq<Point>) {
    || |anchors| < MIN_MOTION_HISTORY_LEN
    || (SquaredDistance(anchors[|anchors| - 1], anchors[0]) <= STATIONARY_NET_PX * STATIONARY_NET_PX
        && forall i :: 0 <= i < |anchors| ==>
             SquaredDistance(anchors[i], Centroid(anchors)) <= STATIONARY_RADIUS_PX * STATIONARY_RADIUS_PX)
  }

  function Direction(anchors: seq<Point>): Point {
    if |anchors| < MIN_MOTION_HISTORY_LEN || Stationary(anchors) then ORIGIN
    else
      var v := MotionVector(anchors);
      if SquaredDistance(v, ORIGIN) < MIN_MOTION_LEN_PX * MIN_MOTION_LEN_PX then ORIGIN else v
  }

  predicate MovedEnough(prev: Point, now: Point) {
    SquaredDistance(now, prev) >= MIN_MOVE_PX * MIN_MOVE_PX
  }

  class MotionHistory {
    var anchors: seq<Point>
    var last: Point
    var hasLast: bool

    constructor ()
      ensures anchors == [] && !hasLast
    {
      anchors, last, hasLast := [], ORIGIN, false;
    }

    method Push(p: Point)
      requires |anchors| <= MOTION_HISTORY_LEN
      modifies this
      ensures last == p && hasLast && |anchors| <= MOTION_HISTORY_LEN
      ensures var all := old(anchors) + [p];
              anchors == if |all| > MOTION_HISTORY_LEN then all[1..] else all
    {
      last := p;
      hasLast := true;
      anchors := anchors + [p];
      if |anchors| > MOTION_HISTORY_LEN {
        anchors := anchors[1..];
      }
    }

    method IsStationary() returns (yes: bool)
      ensures yes == Stationary(anchors)
    {
      var n := |anchors|;
      if n < MIN_MOTION_HISTORY_LEN {
        return true;
      }
      var net := SquaredDistance(anchors[n - 1], anchors[0]);
      if net > STATIONARY_NET_PX * STATIONARY_NET_PX {
        return false;
      }
      var cx := MeanOf(Xs(anchors));
      var cy := MeanOf(Ys(anchors));
      for i := 0 to n
        invariant forall k :: 0 <= k < i ==>
                    SquaredDistance(anchors[k], Point(cx, cy)) <= STATIONARY_RADIUS_PX * STATIONARY_RADIUS_PX
      {
        if SquaredDistance(anchors[i], Point(cx, cy)) > STATIONARY_RADIUS_PX * STATIONARY_RADIUS_PX {
          return false;
        }
      }
      return true;
    }

    method CurrentDirection() returns (motion: Point)
      ensures motion == Direction(anchors)
    {
      if |anchors| < MIN_MOTION_HISTORY_LEN {
        return ORIGIN;
      }
      var stationary := IsStationary();
      if stationary {
        return ORIGIN;
      }
      motion := RegressionVector(anchors);
      if SquaredDistance(motion, ORIGIN) < MIN_MOTION_LEN_PX * MIN_MOTION_LEN_PX {
        return ORIGIN;
      }
    }
  }

  /** Deviations of the values from u, as differences. */
  function Deviations(v: seq<real>, u: real): (r: seq<real>)
    ensures |r| == |v| && forall i :: 0 <= i < |v| ==> r[i] == u - v[i]
  {
    seq(|v|, i requires 0 <= i < |v| => u - v[i])
  }

  function SumSquares(v: seq<real>, n: nat): real
    requires n <= |v|
  {
    if n == 0 then 0.0 else SumSquares(v, n - 1) + Product(v[n - 1], v[n - 1])
  }

  /** Jensen's inequality for squares: the square of a sum is at most n times the sum of the squares. */
  lemma {:induction false} SquareOfSum(v: seq<real>, n: nat)
    requires n <= |v|
    ensures Product(Sum(v, n), Sum(v, n)) <= Product(n as real, SumSquares(v, n))
  {
    if n == 1 {
      assert Sum(v, 1) == Sum(v, 0) + v[0] && SumSquares(v, 1) == SumSquares(v, 0) + Product(v[0], v[0]);
    } else if n > 1 {
      SquareOfSum(v, n - 1);
      JensenStep(Sum(v, n - 1), SumSquares(v, n - 1), v[n - 1], (n - 1) as real);
    }
  }

  lemma JensenStep(s: real, q: real, a: real, m: real)
    requires m > 0.0 && Product(s, s) <= Product(m, q)
    ensures Product(s + a, s + a) <= Product(m + 1.0, q + Product(a, a))
  {
    var e := s - m * a;
    assert e * e >= 0.0;
    assert e * e == s * s - 2.0 * (m * (s * a)) + m * (m * (a * a));
    var slack := q + m * (a * a) - 2.0 * (s * a);
    assert m * slack == m * q + m * (m * (a * a)) - 2.0 * (m * (s * a));
    CancelPositive(m, slack);
    assert (m + 1.0) * (q + a * a) == m * q + m * (a * a) + q + a * a;
    assert (s + a) * (s + a) == s * s + 2.0 * (s * a) + a * a;
  }

  lemma OneMore(n: real, u: real)
    ensures Product(n + 1.0, u) == Product(n, u) + u
  {
  }

  lemma {:induction false} DeviationSum(v: seq<real>, u: real, n: nat)
    requires n <= |v|
    ensures Sum(Deviations(v, u), n) == Product(n as real, u) - Sum(v, n)
  {
    if n == 0 {
    } else {
      DeviationSum(v, u, n - 1);
      OneMore((n - 1) as real, u);
    }
  }

  lemma DistanceToMean(v: seq<real>, u: real)
    requires v != []
    ensures Product(|v| as real, Product(u - Mean(v), u - Mean(v))) <= SumSquares(Deviations(v, u), |v|)
  {
    var n := |v| as real;
    var d := Deviations(v, u);
    DeviationSum(v, u, |v|);
    SquareOfSum(d, |v|);
    var e := u - Mean(v);
    MeanTimes(v);
    Subtracted(n, u, Mean(v));
    assert Sum(d, |v|) == Product(n, e);
    ScaledSquare(n, e, Sum(d, |v|), SumSquares(d, |v|));
  }

  lemma MeanTimes(v: seq<real>)
    requires v != []
    ensures Product(|v| as real, Mean(v)) == Sum(v, |v|)
  {
    assert Sum(v, |v|) / |v| as real * |v| as real == Sum(v, |v|);
  }

  lemma Subtracted(n: real, a: real, b: real)
    ensures Product(n, a - b) == Product(n, a) - Product(n, b)
  {
  }

  lemma ScaledSquare(n: real, e: real, s: real, q: real)
    requires n > 0.0 && s == Product(n, e) && Product(s, s) <= Product(n, q)
    ensures Product(n, Product(e, e)) <= q
  {
    assert (n * e) * (n * e) == n * (n * (e * e));
    assert n * (q - n * (e * e)) == n * q - n * (n * (e * e));
    CancelPositive(n, q - n * (e * e));
  }

  lemma {:induction false} SpreadBound(anchors: seq<Point>, p: Point, bound: real, n: nat)
    requires n <= |anchors| && forall i :: 0 <= i < |anchors| ==> SquaredDistance(p, anchors[i]) <= bound
    ensures SumSquares(Deviations(Xs(anchors), p.x), n) + SumSquares(Deviations(Ys(anchors), p.y), n) <= Product(n as real, bound)
  {
    if n == 0 {
    } else {
      SpreadBound(anchors, p, bound, n - 1);
      OneMore((n - 1) as real, bound);
      assert SquaredDistance(p, anchors[n - 1]) <= bound;
    }
  }

  /** A point within r of every anchor is within r of their centroid. */
  lemma CentroidWithin(anchors: seq<Point>, p: Point, bound: real)
    requires anchors != [] && forall i :: 0 <= i < |anchors| ==> SquaredDistance(p, anchors[i]) <= bound
    ensures SquaredDistance(p, Centroid(anchors)) <= bound
  {
    var n := |anchors| as real;
    var xs, ys := Xs(anchors), Ys(anchors);
    var dx, qx := CoordinateSpread(xs, p.x, n);
    var dy, qy := CoordinateSpread(ys, p.y, n);
    SpreadBound(anchors, p, bound, |anchors|);
    AveragedBound(n, dx, dy, qx, qy, bound);
  }

  lemma CoordinateSpread(v: seq<real>, u: real, n: real) returns (d: real, q: real)
    requires v != [] && n == |v| as real
    ensures d == Product(u - Mean(v), u - Mean(v)) && q == SumSquares(Deviations(v, u), |v|)
    ensures Product(n, d) <= q
  {
    d, q := Product(u - Mean(v), u - Mean(v)), SumSquares(Deviations(v, u), |v|);
    DistanceToMean(v, u);
  }

  lemma AveragedBound(n: real, dx: real, dy: real, qx: real, qy: real, bound: real)
    requires n > 0.0 && Product(n, dx) <= qx && Product(n, dy) <= qy && qx + qy <= Product(n, bound)
    ensures dx + dy <= bound
  {
    assert n * (bound - (dx + dy)) == n * bound - n * dx - n * dy;
    CancelPositive(n, bound - (dx + dy));
  }

  ghost predicate Jitter(anchors: seq<Point>) {
    forall i, j :: 0 <= i < |anchors| && 0 <= j < |anchors| ==>
      SquaredDistance(anchors[i], anchors[j]) <= STATIONARY_RADIUS_PX * STATIONARY_RADIUS_PX
  }

  /** Anchors pairwise within the stationary radius count as parked. */
  lemma JitterIsStationary(anchors: seq<Point>)
    requires Jitter(anchors)
    ensures Stationary(anchors) && Direction(anchors) == ORIGIN
  {
    if |anchors| >= MIN_MOTION_HISTORY_LEN {
      forall i | 0 <= i < |anchors|
        ensures SquaredDistance(anchors[i], Centroid(anchors)) <= STATIONARY_RADIUS_PX * STATIONARY_RADIUS_PX
      {
        CentroidWithin(anchors, anchors[i], STATIONARY_RADIUS_PX * STATIONARY_RADIUS_PX);
      }
    }
  }

  lemma TwoLegs(a: real, b: real, c: real)
    ensures Product(a - b, a - b) <= 2.0 * Product(a - c, a - c) + 2.0 * Product(b - c, b - c)
  {
    Parallelogram(a - c, b - c);
    SquareSign(a - c + (b - c), 0.0);
    assert a - c - (b - c) == a - b;
  }

  lemma Parallelogram(u: real, v: real)
    ensures Product(u - v, u - v) + Product(u + v, u + v) == 2.0 * Product(u, u) + 2.0 * Product(v, v)
  {
  }

  /** A parked vehicle stays near: its anchors are pairwise within twice the radius, and the last within 5 px of the first. */
  lemma StationaryStaysNear(anchors: seq<Point>, i: nat, j: nat)
    requires |anchors| >= 3 && Stationary(anchors) && i < |anchors| && j < |anchors|
    ensures var p, q := anchors[i], anchors[j]; Product(p.x - q.x, p.x - q.x) + Product(p.y - q.y, p.y - q.y) <= 64.0
    ensures var p, q := anchors[|anchors| - 1], anchors[0]; Product(p.x - q.x, p.x - q.x) + Product(p.y - q.y, p.y - q.y) <= 25.0
  {
    var p, q, c := anchors[i], anchors[j], Centroid(anchors);
    assert SquaredDistance(p, c) <= 16.0 && SquaredDistance(q, c) <= 16.0;
    TwoLegs(p.x, q.x, c.x);
    TwoLegs(p.y, q.y, c.y);
  }

  /** A vehicle in steady motion has the direction in which it moved, as long as it moved 6 px, and none otherwise. */
  lemma SteadyMotionDirection(anchors: seq<Point>, start: Point, step: Point)
    requires |anchors| >= 3
    requires forall i :: 0 <= i < |anchors| ==>
               anchors[i] == Point(start.x + i as real * step.x, start.y + i as real * step.y)
    ensures var last, first := anchors[|anchors| - 1], anchors[0];
            var d := Point(last.x - first.x, last.y - first.y);
            Direction(anchors) == if Product(d.x, d.x) + Product(d.y, d.y) >= 36.0 then d else Point(0.0, 0.0)
  {
    UniformMotionIsDisplacement(anchors, start, step);
  }

  // ---------------------------------------------------------------------------------------------
  // Crossing a forbidden line

  datatype Line = Line(a: Point, b: Point, direction: Point)

  /** Indices into the lines; |lines| means none. */
  datatype CrossResult = CrossResult(line: nat, rejected: nat)

  /** The move from prev to now has a point in common with the line. */
  ghost predicate Touches(prev: Point, now: Point, line: Line) {
    SharePoint(prev, now, line.a, line.b)
  }

  /** `angle` stands for the angle in degrees between motion and line direction, negative when undefined. */
  predicate Aligned(angle: (Point, Point) -> real, motion: Point, line: Line, maxAngle: real) {
    0.0 <= angle(motion, line.direction) <= maxAngle
  }

  ghost predicate FirstIndex(lines: seq<Line>, p: Line -> bool, i: nat) {
    && i <= |lines|
    && (i < |lines| ==> p(lines[i]))
    && forall j :: 0 <= j < i ==> !p(lines[j])
  }

  /** The line reported is the first that the move touches in the forbidden direction; before it, the first touched
      in another direction is remembered as rejected. A vehicle that does not move reports nothing - so a parked
      vehicle whose detections jitter within 4 px is never reported, whatever lines surround it. */
  method DetectCrossing(prev: Point, now: Point, history: MotionHistory, lines: seq<Line>,
                        angle: (Point, Point) -> real, maxAngle: real) returns (r: CrossResult)
    ensures var motion := Direction(history.anchors);
            if !MovedEnough(prev, now) || motion == ORIGIN then r == CrossResult(|lines|, |lines|)
            else
              && FirstIndex(lines, l => Touches(prev, now, l) && Aligned(angle, motion, l, maxAngle), r.line)
              && FirstIndex(lines[..r.line], l => Touches(prev, now, l) && !Aligned(angle, motion, l, maxAngle),
                            if r.rejected < r.line then r.rejected else r.line)
              && (r.rejected < r.line || r.rejected == |lines|)
    ensures Jitter(history.anchors) ==> r == CrossResult(|lines|, |lines|)
  {
    if Jitter(history.anchors) {
      JitterIsStationary(history.anchors);
    }
    r := CrossResult(|lines|, |lines|);
    if lines == [] {
      return;
    }
    if !MovedEnough(prev, now) {
      return;
    }
    var motion := history.CurrentDirection();
    if motion.x == 0.0 && motion.y == 0.0 {
      return;
    }
    for i := 0 to |lines|
      invariant r.line == |lines|
      invariant r.rejected == |lines| || r.rejected < i
      invariant forall j :: 0 <= j < i ==> !(Touches(prev, now, lines[j]) && Aligned(angle, motion, lines[j], maxAngle))
      invariant r.rejected < |lines| ==>
                  Touches(prev, now, lines[r.rejected]) && !Aligned(angle, motion, lines[r.rejected], maxAngle)
      invariant forall j :: 0 <= j < i && j < r.rejected ==>
                  !(Touches(prev, now, lines[j]) && !Aligned(angle, motion, lines[j], maxAngle))
    {
      IntersectIffSharedPoint(prev, now, lines[i].a, lines[i].b);
      if !SegmentsIntersect(prev, now, lines[i].a, lines[i].b) {
        continue;
      }
      var degrees := angle(motion, lines[i].direction);
      if degrees < 0.0 || degrees > maxAngle {
        if r.rejected == |lines| {
          r := r.(rejected := i);
        }
        continue;
      }
      r := r.(line := i);
      return;
    }
  }
}
