/** Plane geometry over exact reals: segment crossing, ray casting, regression motion, box overlap. */
module Geometry {

  datatype Point = Point(x: real, y: real)

  datatype Box = Box(x1: real, y1: real, x2: real, y2: real) {
    function Width(): real { x2 - x1 }
    function Height(): real { y2 - y1 }
  }

  /** Multiplication, named so that equal factors give equal products without nonlinear reasoning. */
  function Product(a: real, b: real): real { a * b }

  function Min(a: real, b: real): real { if b < a then b else a }
  function Max(a: real, b: real): real { if a < b then b else a }

  // ---------------------------------------------------------------------------------------------
  // Segment intersection

  function Cross(o: Point, a: Point, b: Point): real {
    (a.x - o.x) * (b.y - o.y) - (a.y - o.y) * (b.x - o.x)
  }

  predicate OnSegment(o: Point, a: Point, p: Point) {
    && Min(o.x, a.x) <= p.x <= Max(o.x, a.x)
    && Min(o.y, a.y) <= p.y <= Max(o.y, a.y)
  }

  predicate OppositeSigns(a: real, b: real) {
    (a > 0.0 && b < 0.0) || (a < 0.0 && b > 0.0)
  }

  predicate SegmentsIntersect(p1: Point, p2: Point, a: Point, b: Point) {
    var d1 := Cross(a, b, p1);
    var d2 := Cross(a, b, p2);
    var d3 := Cross(p1, p2, a);
    var d4 := Cross(p1, p2, b);
    || (OppositeSigns(d1, d2) && OppositeSigns(d3, d4))
    || (d1 == 0.0 && OnSegment(a, b, p1))
    || (d2 == 0.0 && OnSegment(a, b, p2))
    || (d3 == 0.0 && OnSegment(p1, p2, a))
    || (d4 == 0.0 && OnSegment(p1, p2, b))
  }

  /** The point a fraction s of the way from p to q. */
  function At(p: Point, q: Point, s: real): Point {
    Point(p.x + s * (q.x - p.x), p.y + s * (q.y - p.y))
  }

  ghost predicate Meet(p1: Point, p2: Point, a: Point, b: Point, s: real, t: real) {
    0.0 <= s <= 1.0 && 0.0 <= t <= 1.0 && At(p1, p2, s) == At(a, b, t)
  }

  /** The two closed segments have a common point. */
  ghost predicate SharePoint(p1: Point, p2: Point, a: Point, b: Point) {
    exists s: real, t: real :: Meet(p1, p2, a, b, s, t)
  }

  lemma ProductSign(a: real, b: real)
    ensures a > 0.0 && b > 0.0 ==> a * b > 0.0
    ensures a >= 0.0 && b >= 0.0 ==> a * b >= 0.0
    ensures a <= 0.0 && b >= 0.0 ==> a * b <= 0.0
    ensures a < 0.0 && b > 0.0 ==> a * b < 0.0
  {
  }

  lemma CancelPositive(n: real, x: real)
    requires n > 0.0 && n * x >= 0.0
    ensures x >= 0.0
  {
    ProductSign(x, n);
    assert x * n == n * x;
  }

  /** A ratio of a part to a whole is between 0 and 1. */
  lemma UnitRatio(t: real, d: real, x: real)
    requires d > 0.0 && t * d == x
    ensures 0.0 <= x <= d ==> 0.0 <= t <= 1.0
    ensures 0.0 < x < d ==> 0.0 < t < 1.0
  {
    ProductSign(t, d);
    ProductSign(-t, d);
    ProductSign(t - 1.0, d);
    ProductSign(1.0 - t, d);
    assert (t - 1.0) * d == x - d && (1.0 - t) * d == d - x && (-t) * d == -x;
  }

  /** A value between two different values is a fraction of the way between them. */
  lemma Between(u: real, v: real, w: real)
    requires u != v && Min(u, v) <= w <= Max(u, v)
    ensures 0.0 <= (w - u) / (v - u) <= 1.0
    ensures u + (w - u) / (v - u) * (v - u) == w
  {
    var t := (w - u) / (v - u);
    assert t * (v - u) == w - u;
    if v > u {
      UnitRatio(t, v - u, w - u);
    } else {
      assert t * (u - v) == u - w;
      UnitRatio(t, u - v, u - w);
    }
  }

  lemma ScaleZero(a: real, b: real)
    requires a * b == 0.0 && a != 0.0
    ensures b == 0.0
  {
  }

  /** A point on the line through a and b with the right x has the right y, unless the line is vertical. */
  lemma LineHeight(dx: real, dy: real, px: real, py: real, t: real)
    requires dx != 0.0 && dx * py - dy * px == 0.0 && t * dx == px
    ensures t * dy == py
  {
    assert dx * (t * dy - py) == (t * dx) * dy - dx * py;
    ScaleZero(dx, t * dy - py);
  }

  /** A point on the line through a and b, inside their bounding box, is on the segment. */
  lemma OnSegmentParameter(a: Point, b: Point, p: Point) returns (t: real)
    requires Cross(a, b, p) == 0.0 && OnSegment(a, b, p)
    ensures 0.0 <= t <= 1.0 && At(a, b, t) == p
  {
    if a.x != b.x {
      t := SlantedParameter(a, b, p);
    } else if a.y != b.y {
      t := (p.y - a.y) / (b.y - a.y);
      Between(a.y, b.y, p.y);
    } else {
      t := 0.0;
    }
  }

  lemma SlantedParameter(a: Point, b: Point, p: Point) returns (t: real)
    requires Cross(a, b, p) == 0.0 && OnSegment(a, b, p) && a.x != b.x
    ensures 0.0 <= t <= 1.0 && At(a, b, t) == p
  {
    t := (p.x - a.x) / (b.x - a.x);
    Between(a.x, b.x, p.x);
    assert t * (b.x - a.x) == p.x - a.x;
    LineHeight(b.x - a.x, b.y - a.y, p.x - a.x, p.y - a.y, t);
  }

  lemma AtBetween(u: real, v: real, t: real)
    requires 0.0 <= t <= 1.0
    ensures Min(u, v) <= u + t * (v - u) <= Max(u, v)
  {
    if v >= u {
      ProductSign(t, v - u);
      ProductSign(1.0 - t, v - u);
      assert (1.0 - t) * (v - u) == (v - u) - t * (v - u);
    } else {
      ProductSign(t, u - v);
      ProductSign(1.0 - t, u - v);
      assert (1.0 - t) * (u - v) == (u - v) - t * (u - v);
      assert t * (u - v) == -(t * (v - u));
    }
  }

  lemma AtOnSegment(a: Point, b: Point, t: real)
    requires 0.0 <= t <= 1.0
    ensures OnSegment(a, b, At(a, b, t))
  {
    AtBetween(a.x, b.x, t);
    AtBetween(a.y, b.y, t);
  }

  /** Vector product of the two directions. */
  function Turn(p1: Point, p2: Point, a: Point, b: Point): real {
    (p2.x - p1.x) * (b.y - a.y) - (p2.y - p1.y) * (b.x - a.x)
  }

  lemma CrossDifferences(p1: Point, p2: Point, a: Point, b: Point)
    ensures Cross(a, b, p1) - Cross(a, b, p2) == Turn(p1, p2, a, b)
    ensures Cross(p1, p2, b) - Cross(p1, p2, a) == Turn(p1, p2, a, b)
  {
  }

  /** The 2D identity behind the crossing point: (w x q) r + (r x w) q == (r x q) w, by coordinates. */
  lemma CrossingIdentity(rx: real, ry: real, qx: real, qy: real, wx: real, wy: real)
    ensures (wx * qy - wy * qx) * rx + (rx * wy - ry * wx) * qx == (rx * qy - ry * qx) * wx
    ensures (wx * qy - wy * qx) * ry + (rx * wy - ry * wx) * qy == (rx * qy - ry * qx) * wy
  {
  }

  lemma FractionOf(u: real, v: real)
    requires OppositeSigns(u, v)
    ensures u - v != 0.0 && 0.0 < u / (u - v) < 1.0
  {
    var s := u / (u - v);
    assert s * (u - v) == u;
    if u > 0.0 {
      UnitRatio(s, u - v, u);
    } else {
      assert s * (v - u) == -u;
      UnitRatio(s, v - u, -u);
    }
  }

  /** Opposite sides both ways: the crossing point is inside both segments. */
  lemma ProperCrossing(p1: Point, p2: Point, a: Point, b: Point) returns (s: real, t: real)
    requires OppositeSigns(Cross(a, b, p1), Cross(a, b, p2)) && OppositeSigns(Cross(p1, p2, a), Cross(p1, p2, b))
    ensures Meet(p1, p2, a, b, s, t)
  {
    var d1, d2, d3, d4 := Cross(a, b, p1), Cross(a, b, p2), Cross(p1, p2, a), Cross(p1, p2, b);
    CrossDifferences(p1, p2, a, b);
    FractionOf(d1, d2);
    FractionOf(d3, d4);
    var turn := Turn(p1, p2, a, b);
    s := d1 / turn;
    t := d3 / (d3 - d4);
    assert d3 - d4 == -turn;
    assert s * turn == d1 && t * turn == -d3;
    CrossingIdentity(p2.x - p1.x, p2.y - p1.y, b.x - a.x, b.y - a.y, a.x - p1.x, a.y - p1.y);
    SolveCoordinate(turn, s, t, d1, d3, p2.x - p1.x, b.x - a.x, a.x - p1.x);
    SolveCoordinate(turn, s, t, d1, d3, p2.y - p1.y, b.y - a.y, a.y - p1.y);
  }

  lemma SolveCoordinate(turn: real, s: real, t: real, d1: real, d3: real, r: real, q: real, w: real)
    requires turn != 0.0 && s * turn == d1 && t * turn == -d3
    requires d1 * r + d3 * q == turn * w
    ensures s * r - t * q == w
  {
    var e := s * r - t * q - w;
    assert turn * e == (s * turn) * r - (t * turn) * q - turn * w;
    ScaleZero(turn, e);
  }

  lemma EndpointMeets(p1: Point, p2: Point, a: Point, b: Point) returns (s: real, t: real)
    requires SegmentsIntersect(p1, p2, a, b)
    ensures Meet(p1, p2, a, b, s, t)
  {
    if OppositeSigns(Cross(a, b, p1), Cross(a, b, p2)) && OppositeSigns(Cross(p1, p2, a), Cross(p1, p2, b)) {
      s, t := ProperCrossing(p1, p2, a, b);
    } else if Cross(a, b, p1) == 0.0 && OnSegment(a, b, p1) {
      s := 0.0;
      t := OnSegmentParameter(a, b, p1);
    } else if Cross(a, b, p2) == 0.0 && OnSegment(a, b, p2) {
      s := 1.0;
      t := OnSegmentParameter(a, b, p2);
    } else if Cross(p1, p2, a) == 0.0 && OnSegment(p1, p2, a) {
      s := OnSegmentParameter(p1, p2, a);
      t := 0.0;
    } else {
      s := OnSegmentParameter(p1, p2, b);
      t := 1.0;
    }
  }

  /** At a common point the four orientation values are multiples of the turn. */
  lemma MeetOrientations(p1: Point, p2: Point, a: Point, b: Point, s: real, t: real)
    requires Meet(p1, p2, a, b, s, t)
    ensures var turn := Turn(p1, p2, a, b);
            && Cross(a, b, p1) == s * turn
            && Cross(a, b, p2) == (s - 1.0) * turn
            && Cross(p1, p2, a) == -t * turn
            && Cross(p1, p2, b) == (1.0 - t) * turn
  {
    StartOrientations(p1, p2, a, b, s, t);
    CrossDifferences(p1, p2, a, b);
    OneLess(s, t, Turn(p1, p2, a, b));
  }

  lemma StartOrientations(p1: Point, p2: Point, a: Point, b: Point, s: real, t: real)
    requires Meet(p1, p2, a, b, s, t)
    ensures Cross(a, b, p1) == s * Turn(p1, p2, a, b) && Cross(p1, p2, a) == -t * Turn(p1, p2, a, b)
  {
    var rx, ry, qx, qy := p2.x - p1.x, p2.y - p1.y, b.x - a.x, b.y - a.y;
    OrientationAlgebra(rx, ry, qx, qy, a.x - p1.x, a.y - p1.y, s, t);
    CrossByOffset(p1, p2, a, b);
  }

  lemma CrossByOffset(p1: Point, p2: Point, a: Point, b: Point)
    ensures var rx, ry, qx, qy, wx, wy := p2.x - p1.x, p2.y - p1.y, b.x - a.x, b.y - a.y, a.x - p1.x, a.y - p1.y;
            && Turn(p1, p2, a, b) == rx * qy - ry * qx
            && Cross(a, b, p1) == wx * qy - wy * qx
            && Cross(p1, p2, a) == rx * wy - ry * wx
  {
  }

  lemma OneLess(s: real, t: real, k: real)
    ensures (s - 1.0) * k == s * k - k && (1.0 - t) * k == k + -t * k
  {
  }

  lemma OrientationAlgebra(rx: real, ry: real, qx: real, qy: real, wx: real, wy: real, s: real, t: real)
    requires wx == s * rx - t * qx && wy == s * ry - t * qy
    ensures wx * qy - wy * qx == s * (rx * qy - ry * qx)
    ensures rx * wy - ry * wx == -t * (rx * qy - ry * qx)
  {
  }

  lemma MeetIsDetected(p1: Point, p2: Point, a: Point, b: Point, s: real, t: real)
    requires Meet(p1, p2, a, b, s, t)
    ensures SegmentsIntersect(p1, p2, a, b)
  {
    var turn := Turn(p1, p2, a, b);
    MeetOrientations(p1, p2, a, b, s, t);
    AtOnSegment(a, b, t);
    AtOnSegment(p1, p2, s);
    if turn == 0.0 {
      ParallelEndpoint(p1, p2, a, b, s, t);
    } else if 0.0 < s < 1.0 && 0.0 < t < 1.0 {
      InnerSigns(turn, s);
      InnerSigns(turn, t);
    }
  }

  lemma InnerSigns(turn: real, s: real)
    requires turn != 0.0 && 0.0 < s < 1.0
    ensures OppositeSigns(s * turn, (s - 1.0) * turn) && OppositeSigns(-s * turn, (1.0 - s) * turn)
  {
    if turn > 0.0 {
      ProductSign(s, turn);
      ProductSign(1.0 - s, turn);
    } else {
      ProductSign(s, -turn);
      ProductSign(1.0 - s, -turn);
    }
    assert (s - 1.0) * turn == -((1.0 - s) * turn) && -s * turn == -(s * turn);
    assert s * -turn == -(s * turn) && (1.0 - s) * -turn == -((1.0 - s) * turn);
  }

  /** Parallel segments that meet: an end of one lies on the other. */
  lemma ParallelEndpoint(p1: Point, p2: Point, a: Point, b: Point, s: real, t: real)
    requires Meet(p1, p2, a, b, s, t) && Turn(p1, p2, a, b) == 0.0
    ensures OnSegment(a, b, p1) || OnSegment(a, b, p2) || OnSegment(p1, p2, a) || OnSegment(p1, p2, b)
  {
    if a == b {
      AtOnSegment(p1, p2, s);
      assert At(a, b, t) == a;
    } else {
      var k := DirectionRatio(p1, p2, a, b);
      // along a-b, the ends of the other segment lie on both sides of t
      RatioPoint(p1, p2, a, b, s, t, k);
      Straddle(s, t, k);
      AlignedEndpoint(p1, p2, a, b, t - s * k, t + (1.0 - s) * k, t);
    }
  }

  lemma RatioPoint(p1: Point, p2: Point, a: Point, b: Point, s: real, t: real, k: real)
    requires At(p1, p2, s) == At(a, b, t)
    requires p2.x - p1.x == k * (b.x - a.x) && p2.y - p1.y == k * (b.y - a.y)
    ensures p1 == At(a, b, t - s * k) && p2 == At(a, b, t + (1.0 - s) * k)
  {
    RatioCoordinate(p1.x, p2.x, a.x, b.x, s, t, k);
    RatioCoordinate(p1.y, p2.y, a.y, b.y, s, t, k);
  }

  lemma AlignedEndpoint(p1: Point, p2: Point, a: Point, b: Point, u: real, v: real, t: real)
    requires p1 == At(a, b, u) && p2 == At(a, b, v)
    requires 0.0 <= t <= 1.0 && Min(u, v) <= t <= Max(u, v)
    ensures OnSegment(a, b, p1) || OnSegment(a, b, p2) || OnSegment(p1, p2, a)
  {
    if 0.0 <= u <= 1.0 {
      AtOnSegment(a, b, u);
    } else if 0.0 <= v <= 1.0 {
      AtOnSegment(a, b, v);
    } else {
      AroundEnd(a, b, u, v);
    }
  }

  lemma AroundEnd(a: Point, b: Point, u: real, v: real)
    requires Min(u, v) <= 0.0 <= Max(u, v)
    ensures OnSegment(At(a, b, u), At(a, b, v), a)
  {
    BetweenCoordinate(a.x, b.x, u, v, At(a, b, u).x, At(a, b, v).x);
    BetweenCoordinate(a.y, b.y, u, v, At(a, b, u).y, At(a, b, v).y);
  }

  lemma DirectionRatio(p1: Point, p2: Point, a: Point, b: Point) returns (k: real)
    requires Turn(p1, p2, a, b) == 0.0 && a != b
    ensures p2.x - p1.x == k * (b.x - a.x) && p2.y - p1.y == k * (b.y - a.y)
  {
    var rx, ry, qx, qy := p2.x - p1.x, p2.y - p1.y, b.x - a.x, b.y - a.y;
    assert rx * qy == ry * qx;
    if qx != 0.0 {
      k := rx / qx;
      assert k * qx == rx;
      assert qx * (ry - k * qy) == ry * qx - (k * qx) * qy;
      ScaleZero(qx, ry - k * qy);
    } else {
      k := ry / qy;
      assert k * qy == ry;
      assert qy * (rx - k * qx) == rx * qy - (k * qy) * qx;
      ScaleZero(qy, rx - k * qx);
    }
  }

  lemma RatioCoordinate(p1: real, p2: real, a: real, b: real, s: real, t: real, k: real)
    requires p1 + s * (p2 - p1) == a + t * (b - a) && p2 - p1 == k * (b - a)
    ensures p1 == a + (t - s * k) * (b - a) && p2 == a + (t + (1.0 - s) * k) * (b - a)
  {
    assert s * (p2 - p1) == (s * k) * (b - a);
  }

  lemma Straddle(s: real, t: real, k: real)
    requires 0.0 <= s <= 1.0
    ensures Min(t - s * k, t + (1.0 - s) * k) <= t <= Max(t - s * k, t + (1.0 - s) * k)
  {
    if k >= 0.0 {
      ProductSign(s, k);
      ProductSign(1.0 - s, k);
    } else {
      ProductSign(s, -k);
      ProductSign(1.0 - s, -k);
      assert s * -k == -(s * k) && (1.0 - s) * -k == -((1.0 - s) * k);
    }
  }

  /** If 0 lies between u and v, then a lies between its neighbours at u and v. */
  lemma BetweenCoordinate(a: real, b: real, u: real, v: real, p: real, q: real)
    requires Min(u, v) <= 0.0 <= Max(u, v)
    requires p == a + u * (b - a) && q == a + v * (b - a)
    ensures Min(p, q) <= a <= Max(p, q)
  {
    var d := b - a;
    if d >= 0.0 {
      ProductSign(u, d);
      ProductSign(v, d);
    } else {
      ProductSign(u, -d);
      ProductSign(v, -d);
      assert u * -d == -(u * d) && v * -d == -(v * d);
    }
  }

  /** The sign test is exact: it is true if and only if the closed segments share a point - crossing, touching,
      overlapping on one line, or shrunk to single points. */
  lemma IntersectIffSharedPoint(p1: Point, p2: Point, a: Point, b: Point)
    ensures SegmentsIntersect(p1, p2, a, b) <==> SharePoint(p1, p2, a, b)
  {
    if SegmentsIntersect(p1, p2, a, b) {
      var s, t := EndpointMeets(p1, p2, a, b);
    }
    if SharePoint(p1, p2, a, b) {
      var s, t :| Meet(p1, p2, a, b, s, t);
      MeetIsDetected(p1, p2, a, b, s, t);
    }
  }
}
