/** What the ray test decides: an edge is hit exactly when it has a point at the height of p to the right of p, and a
    triangle contains exactly the points between its corners. */
module Triangles {
  import opened Geometry
  import opened Polygon

  // ---------------------------------------------------------------------------------------------
  // One edge

  /** The edge has a point at the height of p strictly to the right of p. */
  ghost predicate PassesRight(a: Point, b: Point, p: Point) {
    exists t: real :: RightAt(a, b, p, t)
  }

  ghost predicate RightAt(a: Point, b: Point, p: Point, t: real) {
    0.0 <= t <= 1.0 && At(a, b, t).y == p.y && p.x < At(a, b, t).x
  }

  lemma SameSign(d: real, n: real)
    ensures n > 0.0 ==> (Product(d, n) > 0.0 <==> d > 0.0)
    ensures n < 0.0 ==> (Product(d, n) < 0.0 <==> d > 0.0)
  {
    ProductSign(d, n);
    ProductSign(-d, n);
    ProductSign(d, -n);
    ProductSign(-d, -n);
    assert (-d) * n == -(d * n) && d * (-n) == -(d * n) && (-d) * (-n) == d * n;
  }

  /** How far right of p the line reaches the height of p, by the cross product. */
  lemma ReachIsCross(a: Point, b: Point, p: Point, x: real, t: real)
    requires t * (b.y - a.y) == p.y - a.y && x == a.x + t * (b.x - a.x)
    ensures Product(x - p.x, b.y - a.y) == Cross(a, b, p)
  {
    assert (t * (b.x - a.x)) * (b.y - a.y) == (b.x - a.x) * (t * (b.y - a.y));
    assert (x - p.x) * (b.y - a.y) == (a.x - p.x) * (b.y - a.y) + (t * (b.x - a.x)) * (b.y - a.y);
  }

  lemma CrossingIsCross(a: Point, b: Point, p: Point)
    requires a.y != b.y
    ensures Product(CrossingX(a, b, p) - p.x, b.y - a.y) == Cross(a, b, p)
  {
    var n := (b.x - a.x) * (p.y - a.y);
    assert n / (b.y - a.y) * (b.y - a.y) == n;
    var q := n / (b.y - a.y);
    assert (q + a.x - p.x) * (b.y - a.y) == q * (b.y - a.y) + (a.x - p.x) * (b.y - a.y);
  }

  /** The edge straddles the height of p, and p is on its left as seen going up. */
  predicate OnLeft(a: Point, b: Point, p: Point) {
    (a.y <= p.y < b.y && Cross(a, b, p) > 0.0) || (b.y <= p.y < a.y && Cross(a, b, p) < 0.0)
  }

  lemma HitIffOnLeft(a: Point, b: Point, p: Point)
    ensures Hit(a, b, p) <==> OnLeft(a, b, p)
  {
    if (a.y > p.y) != (b.y > p.y) {
      CrossingIsCross(a, b, p);
      SameSign(CrossingX(a, b, p) - p.x, b.y - a.y);
    }
  }

  /** An edge is hit exactly when it has one end above p and one end not above it, and passes p on the right. */
  lemma HitIffPassesRight(a: Point, b: Point, p: Point)
    ensures Hit(a, b, p) <==> (a.y > p.y) != (b.y > p.y) && PassesRight(a, b, p)
  {
    HitIffOnLeft(a, b, p);
    if (a.y > p.y) != (b.y > p.y) {
      var t := (p.y - a.y) / (b.y - a.y);
      Between(a.y, b.y, p.y);
      ReachesAt(a, b, p, t);
      if PassesRight(a, b, p) {
        var u :| RightAt(a, b, p, u);
        ReachesAt(a, b, p, u);
      }
    }
  }

  lemma ReachesAt(a: Point, b: Point, p: Point, t: real)
    requires a.y != b.y && 0.0 <= t <= 1.0 && At(a, b, t).y == p.y
    ensures a.y < b.y ==> (RightAt(a, b, p, t) <==> Cross(a, b, p) > 0.0)
    ensures a.y > b.y ==> (RightAt(a, b, p, t) <==> Cross(a, b, p) < 0.0)
  {
    var x := At(a, b, t).x;
    ReachIsCross(a, b, p, x, t);
    SameSign(x - p.x, b.y - a.y);
  }

  // ---------------------------------------------------------------------------------------------
  // Three edges

  lemma CrossesAddUp(a: Point, b: Point, c: Point, p: Point)
    ensures Cross(a, b, p) + Cross(b, c, p) + Cross(c, a, p) == Cross(a, b, c)
  {
  }

  /** The crosses are the weights of p with respect to the opposite corners. */
  lemma Barycentric(a: Point, b: Point, c: Point, p: Point)
    ensures Product(Cross(b, c, p), a.y - p.y) + Product(Cross(c, a, p), b.y - p.y) + Product(Cross(a, b, p), c.y - p.y) == 0.0
    ensures Product(Cross(b, c, p), a.x - p.x) + Product(Cross(c, a, p), b.x - p.x) + Product(Cross(a, b, p), c.x - p.x) == 0.0
  {
    var x1, y1, x2, y2, x3, y3 := a.x - p.x, a.y - p.y, b.x - p.x, b.y - p.y, c.x - p.x, c.y - p.y;
    assert Cross(a, b, p) == x1 * y2 - y1 * x2 by { FromPoint(a, b, p); }
    assert Cross(b, c, p) == x2 * y3 - y2 * x3 by { FromPoint(b, c, p); }
    assert Cross(c, a, p) == x3 * y1 - y3 * x1 by { FromPoint(c, a, p); }
    Alternating(x1, y1, x2, y2, x3, y3);
  }

  lemma Alternating(x1: real, y1: real, x2: real, y2: real, x3: real, y3: real)
    ensures Product(x2 * y3 - y2 * x3, y1) + Product(x3 * y1 - y3 * x1, y2) + Product(x1 * y2 - y1 * x2, y3) == 0.0
    ensures Product(x2 * y3 - y2 * x3, x1) + Product(x3 * y1 - y3 * x1, x2) + Product(x1 * y2 - y1 * x2, x3) == 0.0
  {
  }

  lemma FromPoint(a: Point, b: Point, p: Point)
    ensures Cross(a, b, p) == (a.x - p.x) * (b.y - p.y) - (a.y - p.y) * (b.x - p.x)
  {
  }

  /** The parity over the three edges. */
  lemma TriangleParity(a: Point, b: Point, c: Point, p: Point)
    ensures Inside(p, [a, b, c]) == (Hit(a, c, p) != (Hit(b, a, p) != Hit(c, b, p)))
  {
    var path := [c] + [a, b, c];
    assert path == [c, a, b, c] && path[1..] == [a, b, c] && path[1..][1..] == [b, c] && [b, c][1..] == [c];
    assert PathParity([b, c], p) == Hit(c, b, p);
    assert PathParity([a, b, c], p) == (Hit(b, a, p) != PathParity([b, c], p));
  }

  lemma TermSign(u: real, x: real)
    ensures u >= 0.0 && x >= 0.0 ==> Product(u, x) >= 0.0
    ensures u <= 0.0 && x <= 0.0 ==> Product(u, x) >= 0.0
    ensures u <= 0.0 && x >= 0.0 ==> Product(u, x) <= 0.0
    ensures u >= 0.0 && x <= 0.0 ==> Product(u, x) <= 0.0
    ensures u > 0.0 && x > 0.0 ==> Product(u, x) > 0.0
    ensures u < 0.0 && x > 0.0 ==> Product(u, x) < 0.0
  {
    ProductSign(u, x);
    ProductSign(-u, -x);
    ProductSign(u, -x);
    ProductSign(-u, x);
    assert (-u) * (-x) == u * x && u * (-x) == -(u * x) && (-u) * x == -(u * x);
  }

  /** The signs of the three crosses are those of a point between the corners, or of one beyond an edge. */
  predicate Between3(u: real, v: real, w: real) { u > 0.0 && v > 0.0 && w > 0.0 }

  predicate Beyond3(u: real, v: real, w: real) { u < 0.0 || v < 0.0 || w < 0.0 }

  lemma CornerAbove(u: real, v: real, w: real, x: real, y: real, z: real)
    requires Product(v, x) + Product(w, y) + Product(u, z) == 0.0 && u + v + w > 0.0
    requires x <= 0.0 && y > 0.0 && z <= 0.0
    ensures Between3(u, v, w) ==> ((u > 0.0) != (v < 0.0))
    ensures Beyond3(u, v, w) ==> ((u > 0.0) == (v < 0.0))
  {
    TermSign(v, x);
    TermSign(w, y);
    TermSign(u, z);
  }

  lemma CornerBelow(u: real, v: real, w: real, x: real, y: real, z: real)
    requires Product(v, x) + Product(w, y) + Product(u, z) == 0.0 && u + v + w > 0.0
    requires x > 0.0 && y <= 0.0 && z > 0.0
    ensures Between3(u, v, w) ==> ((u < 0.0) != (v > 0.0))
    ensures Beyond3(u, v, w) ==> ((u < 0.0) == (v > 0.0))
  {
    TermSign(v, x);
    TermSign(w, y);
    TermSign(u, z);
  }

  lemma AllOneSide(u: real, v: real, w: real, x: real, y: real, z: real)
    requires Product(v, x) + Product(w, y) + Product(u, z) == 0.0
    requires (x > 0.0 && y > 0.0 && z > 0.0) || (x <= 0.0 && y <= 0.0 && z <= 0.0)
    ensures Between3(u, v, w) ==> x == 0.0 && y == 0.0 && z == 0.0
  {
    TermSign(v, x);
    TermSign(w, y);
    TermSign(u, z);
    TermSign(v, -x);
    TermSign(w, -y);
    TermSign(u, -z);
  }

  lemma LevelTriangle(a: Point, b: Point, c: Point)
    requires a.y == b.y == c.y
    ensures Cross(a, b, c) == 0.0
  {
    assert (b.x - a.x) * 0.0 - 0.0 * (c.x - a.x) == 0.0;
  }

  /** A triangle whose corners run counterclockwise (seen with y upwards). */
  lemma PositiveTriangle(a: Point, b: Point, c: Point, p: Point)
    requires Cross(a, b, c) > 0.0
    ensures Between3(Cross(a, b, p), Cross(b, c, p), Cross(c, a, p)) ==> Inside(p, [a, b, c])
    ensures Beyond3(Cross(a, b, p), Cross(b, c, p), Cross(c, a, p)) ==> !Inside(p, [a, b, c])
  {
    var u, v, w := Cross(a, b, p), Cross(b, c, p), Cross(c, a, p);
    var x, y, z := a.y - p.y, b.y - p.y, c.y - p.y;
    HitsOfTriangle(a, b, c, p);
    CrossesAddUp(a, b, c, p);
    assert Product(v, x) + Product(w, y) + Product(u, z) == 0.0 by {
      Barycentric(a, b, c, p);
    }
    if x <= 0.0 && y <= 0.0 && z <= 0.0 {
      AllOneSide(u, v, w, x, y, z);
      if Between3(u, v, w) {
        LevelTriangle(a, b, c);
      }
    } else if x > 0.0 && y > 0.0 && z > 0.0 {
      AllOneSide(u, v, w, x, y, z);
    } else if y > 0.0 && x <= 0.0 && z <= 0.0 {
      CornerAbove(u, v, w, x, y, z);
    } else if y <= 0.0 && x > 0.0 && z > 0.0 {
      CornerBelow(u, v, w, x, y, z);
    } else if z > 0.0 && y <= 0.0 && x <= 0.0 {
      CornerAbove(v, w, u, y, z, x);
    } else if z <= 0.0 && y > 0.0 && x > 0.0 {
      CornerBelow(v, w, u, y, z, x);
    } else if x > 0.0 {
      CornerAbove(w, u, v, z, x, y);
    } else {
      CornerBelow(w, u, v, z, x, y);
    }
  }

  /** The hits of the three edges, by the sides of p. */
  lemma HitsOfTriangle(a: Point, b: Point, c: Point, p: Point)
    ensures Inside(p, [a, b, c]) == (OnLeft(c, a, p) != (OnLeft(a, b, p) != OnLeft(b, c, p)))
  {
    TriangleParity(a, b, c, p);
    HitSymmetric(a, b, p);
    HitSymmetric(b, c, p);
    HitSymmetric(c, a, p);
    HitIffOnLeft(a, b, p);
    HitIffOnLeft(b, c, p);
    HitIffOnLeft(c, a, p);
  }

  // ---------------------------------------------------------------------------------------------
  // The triangle as a set of points

  /** p is the mean of the corners with these weights. */
  ghost predicate Weighs(a: Point, b: Point, c: Point, p: Point, r: real, s: real, t: real) {
    && r + s + t == 1.0
    && p.x == Product(r, a.x) + Product(s, b.x) + Product(t, c.x)
    && p.y == Product(r, a.y) + Product(s, b.y) + Product(t, c.y)
  }

  ghost predicate StrictlyWithin(a: Point, b: Point, c: Point, p: Point) {
    exists r: real, s: real, t: real :: r > 0.0 && s > 0.0 && t > 0.0 && Weighs(a, b, c, p, r, s, t)
  }

  /** Inside, or on the border. */
  ghost predicate Within(a: Point, b: Point, c: Point, p: Point) {
    exists r: real, s: real, t: real :: r >= 0.0 && s >= 0.0 && t >= 0.0 && Weighs(a, b, c, p, r, s, t)
  }

  /** The crosses of a weighted mean are its weights times the doubled area. */
  lemma CrossesOfMean(a: Point, b: Point, c: Point, p: Point, r: real, s: real, t: real)
    requires Weighs(a, b, c, p, r, s, t)
    ensures Cross(a, b, p) == Product(t, Cross(a, b, c))
    ensures Cross(b, c, p) == Product(r, Cross(a, b, c))
    ensures Cross(c, a, p) == Product(s, Cross(a, b, c))
  {
    CrossOfMean(a, b, c, p, r, s, t);
    CrossOfMean(b, c, a, p, s, t, r);
    CrossOfMean(c, a, b, p, t, r, s);
    CornersTurn(a, b, c);
  }

  lemma CornersTurn(a: Point, b: Point, c: Point)
    ensures Cross(a, b, c) == Cross(b, c, a) == Cross(c, a, b)
    ensures Cross(c, b, a) == -Cross(a, b, c)
  {
  }

  lemma CrossOfMean(a: Point, b: Point, c: Point, p: Point, r: real, s: real, t: real)
    requires Weighs(a, b, c, p, r, s, t)
    ensures Cross(a, b, p) == Product(t, Cross(a, b, c))
  {
    FromCorner(a.x, b.x, c.x, r, s, t);
    FromCorner(a.y, b.y, c.y, r, s, t);
    CrossIsSkew(a, b, p);
    CrossIsSkew(a, b, c);
    SkewOfSum(b.x - a.x, b.y - a.y, c.x - a.x, c.y - a.y, p.x - a.x, p.y - a.y, s, t);
  }

  function Skew(x1: real, y1: real, x2: real, y2: real): real { x1 * y2 - y1 * x2 }

  lemma CrossIsSkew(o: Point, a: Point, b: Point)
    ensures Cross(o, a, b) == Skew(a.x - o.x, a.y - o.y, b.x - o.x, b.y - o.y)
  {
  }

  lemma SkewOfSum(x1: real, y1: real, x2: real, y2: real, x: real, y: real, s: real, t: real)
    requires x == Product(s, x1) + Product(t, x2) && y == Product(s, y1) + Product(t, y2)
    ensures Skew(x1, y1, x, y) == Product(t, Skew(x1, y1, x2, y2))
  {
    assert x1 * (s * y1 + t * y2) - y1 * (s * x1 + t * x2) == t * (x1 * y2 - y1 * x2);
  }

  lemma FromCorner(a: real, b: real, c: real, r: real, s: real, t: real)
    requires r + s + t == 1.0
    ensures Product(r, a) + Product(s, b) + Product(t, c) - a == Product(s, b - a) + Product(t, c - a)
  {
    assert r == 1.0 - s - t;
  }

  /** A point beyond no edge is a mean of the corners. */
  lemma MeanOfCorners(a: Point, b: Point, c: Point, p: Point)
    requires Cross(a, b, c) > 0.0 && !Beyond3(Cross(a, b, p), Cross(b, c, p), Cross(c, a, p))
    ensures Within(a, b, c, p)
  {
    var d := Cross(a, b, c);
    var r, s, t := Cross(b, c, p) / d, Cross(c, a, p) / d, Cross(a, b, p) / d;
    CrossesAddUp(a, b, c, p);
    Barycentric(a, b, c, p);
    Share(Cross(b, c, p), d);
    Share(Cross(c, a, p), d);
    Share(Cross(a, b, p), d);
    WholeIsOne(r, s, t, d);
    MeanCoordinate(r, s, t, d, a.x, b.x, c.x, p.x);
    MeanCoordinate(r, s, t, d, a.y, b.y, c.y, p.y);
    assert Weighs(a, b, c, p, r, s, t);
  }

  lemma Share(u: real, d: real)
    requires u >= 0.0 && d > 0.0
    ensures u / d >= 0.0 && Product(u / d, d) == u
  {
    CancelPositive(d, u / d);
  }

  lemma WholeIsOne(r: real, s: real, t: real, d: real)
    requires d > 0.0 && Product(r, d) + Product(s, d) + Product(t, d) == d
    ensures r + s + t == 1.0
  {
    assert d * (r + s + t - 1.0) == 0.0;
    ScaleZero(d, r + s + t - 1.0);
  }

  lemma MeanCoordinate(r: real, s: real, t: real, d: real, a: real, b: real, c: real, p: real)
    requires d > 0.0 && r + s + t == 1.0
    requires Product(Product(r, d), a - p) + Product(Product(s, d), b - p) + Product(Product(t, d), c - p) == 0.0
    ensures p == Product(r, a) + Product(s, b) + Product(t, c)
  {
    var m := r * (a - p) + s * (b - p) + t * (c - p);
    assert d * m == 0.0 by {
      assert d * m == (r * d) * (a - p) + (s * d) * (b - p) + (t * d) * (c - p);
    }
    ScaleZero(d, m);
    assert m == r * a + s * b + t * c - (r + s + t) * p;
  }

  lemma PositiveTriangleContains(a: Point, b: Point, c: Point, p: Point)
    requires Cross(a, b, c) > 0.0
    ensures StrictlyWithin(a, b, c, p) ==> Inside(p, [a, b, c])
    ensures !Within(a, b, c, p) ==> !Inside(p, [a, b, c])
  {
    PositiveTriangle(a, b, c, p);
    if StrictlyWithin(a, b, c, p) {
      var r, s, t :| r > 0.0 && s > 0.0 && t > 0.0 && Weighs(a, b, c, p, r, s, t);
      CrossesOfMean(a, b, c, p, r, s, t);
      TermSign(r, Cross(a, b, c));
      TermSign(s, Cross(a, b, c));
      TermSign(t, Cross(a, b, c));
    }
    if !Within(a, b, c, p) && !Beyond3(Cross(a, b, p), Cross(b, c, p), Cross(c, a, p)) {
      MeanOfCorners(a, b, c, p);
    }
  }

  lemma WeighsBack(a: Point, b: Point, c: Point, p: Point, r: real, s: real, t: real)
    requires Weighs(a, b, c, p, r, s, t)
    ensures Weighs(c, b, a, p, t, s, r)
  {
  }

  lemma WithinBack(a: Point, b: Point, c: Point, p: Point)
    ensures StrictlyWithin(a, b, c, p) ==> StrictlyWithin(c, b, a, p)
    ensures Within(c, b, a, p) ==> Within(a, b, c, p)
  {
    if StrictlyWithin(a, b, c, p) {
      var r, s, t :| r > 0.0 && s > 0.0 && t > 0.0 && Weighs(a, b, c, p, r, s, t);
      WeighsBack(a, b, c, p, r, s, t);
    }
    if Within(c, b, a, p) {
      var r, s, t :| r >= 0.0 && s >= 0.0 && t >= 0.0 && Weighs(c, b, a, p, r, s, t);
      WeighsBack(c, b, a, p, r, s, t);
    }
  }

  /** A triangle with an area, its corners in either order: every point strictly between the corners is inside, and no
      point outside the closed triangle is. */
  lemma TriangleContains(a: Point, b: Point, c: Point, p: Point)
    requires Cross(a, b, c) != 0.0
    ensures StrictlyWithin(a, b, c, p) ==> Inside(p, [a, b, c])
    ensures !Within(a, b, c, p) ==> !Inside(p, [a, b, c])
  {
    if Cross(a, b, c) > 0.0 {
      PositiveTriangleContains(a, b, c, p);
    } else {
      CornersTurn(a, b, c);
      PositiveTriangleContains(c, b, a, p);
      WithinBack(a, b, c, p);
      TurnedBack(a, b, c);
      ReversalInvariant(p, [a, b, c]);
    }
  }

  lemma TurnedBack(a: Point, b: Point, c: Point)
    ensures Reversed([a, b, c]) == [c, b, a]
  {
    assert [a, b, c][1..] == [b, c] && [b, c][1..] == [c] && [c][1..] == [];
    assert Reversed([c]) == [c] && Reversed([b, c]) == [c, b];
  }

  // ---------------------------------------------------------------------------------------------
  // Polygons made of triangles

  /** A quadrilateral cut along the diagonal from a to c contains a point exactly when one of the two triangles does. */
  lemma QuadrilateralContains(a: Point, b: Point, c: Point, d: Point, p: Point)
    ensures Inside(p, [a, b, c, d]) == (Inside(p, [a, b, c]) != Inside(p, [c, d, a]))
  {
    var v := [a, b, c, d];
    CuttingAlongChord(p, v, 0, 2);
    assert v[0..3] == [a, b, c] && v[2..] + v[..1] == [c, d, a];
  }
}
