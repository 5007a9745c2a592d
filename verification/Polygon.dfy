/** Ray casting: the containment test of a point in a polygon, and its invariances. */
module Polygon {
  import opened Geometry

  predicate Straddles(a: Point, b: Point, p: Point) {
    (a.y > p.y) != (b.y > p.y)
  }

  /** Where the line through a and b reaches the height of p. */
  function CrossingX(a: Point, b: Point, p: Point): real
    requires b.y != a.y
  {
    (b.x - a.x) * (p.y - a.y) / (b.y - a.y) + a.x
  }

  /** The ray from p to the right meets the edge from b to a. */
  predicate Hit(a: Point, b: Point, p: Point) {
    Straddles(a, b, p) && p.x < CrossingX(a, b, p)
  }

  /** Parity of the edges hit along an open path. */
  predicate PathParity(path: seq<Point>, p: Point) {
    if |path| < 2 then false else Hit(path[1], path[0], p) != PathParity(path[1..], p)
  }

  /** Parity of the edges hit along the closed polygon, starting with the edge that closes it. */
  predicate ClosedParity(polygon: seq<Point>, p: Point)
    requires polygon != []
  {
    PathParity([polygon[|polygon| - 1]] + polygon, p)
  }

  predicate Inside(p: Point, polygon: seq<Point>) {
    |polygon| >= 3 && ClosedParity(polygon, p)
  }

  /** The loop's progress: the closing edge, then the first i vertices. */
  function Walked(polygon: seq<Point>, i: nat): seq<Point>
    requires polygon != [] && i <= |polygon|
  {
    [polygon[|polygon| - 1]] + polygon[..i]
  }

  function Previous(polygon: seq<Point>, i: nat): nat
    requires polygon != []
  {
    if i == 0 then |polygon| - 1 else i - 1
  }

  lemma WalkedStep(polygon: seq<Point>, i: nat, p: Point)
    requires i < |polygon|
    ensures PathParity(Walked(polygon, i + 1), p) ==
              (PathParity(Walked(polygon, i), p) != Hit(polygon[i], polygon[Previous(polygon, i)], p))
  {
    var walked := Walked(polygon, i);
    assert Walked(polygon, i + 1) == walked + [polygon[i]];
    assert walked[|walked| - 1] == polygon[Previous(polygon, i)];
    AppendEdge(walked, polygon[i], p);
  }

  method EdgeHit(a: Point, b: Point, p: Point) returns (hit: bool)
    ensures hit == Hit(a, b, p)
  {
    var straddles := (a.y > p.y) != (b.y > p.y);
    if !straddles {
      return false;
    }
    var dy := b.y - a.y;  // not zero: the edge straddles
    var crossX := (b.x - a.x) * (p.y - a.y) / dy + a.x;
    return p.x < crossX;
  }

  method PointInPolygon(p: Point, polygon: seq<Point>) returns (inside: bool)
    ensures inside == Inside(p, polygon)
  {
    if |polygon| < 3 {
      return false;
    }
    inside := false;
    var i, j := 0, |polygon| - 1;
    while i < |polygon|
      invariant 0 <= i <= |polygon| && j == Previous(polygon, i)
      invariant inside == PathParity(Walked(polygon, i), p)
    {
      WalkedStep(polygon, i, p);
      var hit := EdgeHit(polygon[i], polygon[j], p);
      if hit {
        inside := !inside;
      }
      i, j := i + 1, i;
    }
    assert polygon[..|polygon|] == polygon;
  }

  // ---------------------------------------------------------------------------------------------
  // Paths

  lemma {:induction false} JoinPaths(u: seq<Point>, m: Point, w: seq<Point>, p: Point)
    ensures PathParity(u + [m] + w, p) == (PathParity(u + [m], p) != PathParity([m] + w, p))
  {
    if u == [] {
      assert u + [m] + w == [m] + w && u + [m] == [m];
    } else {
      var path := u + [m] + w;
      assert path[1..] == u[1..] + [m] + w;
      assert (u + [m])[1..] == u[1..] + [m];
      assert (u + [m])[1] == path[1];
      JoinPaths(u[1..], m, w, p);
    }
  }

  lemma AppendEdge(path: seq<Point>, x: Point, p: Point)
    requires path != []
    ensures PathParity(path + [x], p) == (PathParity(path, p) != Hit(x, path[|path| - 1], p))
  {
    var u, m := path[..|path| - 1], path[|path| - 1];
    assert u + [m] == path && u + [m] + [x] == path + [x];
    JoinPaths(u, m, [x], p);
    assert [m] + [x] == [m, x];
    assert PathParity([m, x][1..], p) == false;
  }

  /** Splitting a path at index i. */
  lemma SplitPath(path: seq<Point>, i: nat, p: Point)
    requires i < |path|
    ensures PathParity(path, p) == (PathParity(path[..i + 1], p) != PathParity(path[i..], p))
  {
    assert path == path[..i] + [path[i]] + path[i + 1..];
    assert path[..i] + [path[i]] == path[..i + 1];
    assert [path[i]] + path[i + 1..] == path[i..];
    JoinPaths(path[..i], path[i], path[i + 1..], p);
  }

  /** The crossing point does not depend on the direction of the edge. */
  lemma HitSymmetric(a: Point, b: Point, p: Point)
    ensures Hit(a, b, p) == Hit(b, a, p)
  {
    if Straddles(a, b, p) {
      var u, v := CrossingX(a, b, p) - a.x, CrossingX(b, a, p) - b.x;
      var dx, dy := b.x - a.x, b.y - a.y;
      assert u * dy == dx * (p.y - a.y);
      assert v * (-dy) == (-dx) * (p.y - b.y);
      assert (u + a.x - v - b.x) * dy == dx * (p.y - a.y) - dx * (p.y - b.y) - dx * dy;
      ScaleZero(dy, u + a.x - v - b.x);
    }
  }

  /** The polygon closed at its end instead of at its start. */
  lemma ClosedAtEnd(polygon: seq<Point>, p: Point)
    requires polygon != []
    ensures ClosedParity(polygon, p) == PathParity(polygon + [polygon[0]], p)
  {
    var n := |polygon|;
    AppendEdge(polygon, polygon[0], p);
    var closed := [polygon[n - 1]] + polygon;
    assert closed[1..] == polygon;
  }

  // ---------------------------------------------------------------------------------------------
  // Invariances

  function Rotated(polygon: seq<Point>, k: nat): seq<Point>
    requires k <= |polygon|
  {
    polygon[k..] + polygon[..k]
  }

  /** Containment does not depend on the vertex at which the list starts. */
  lemma RotationInvariant(p: Point, polygon: seq<Point>, k: nat)
    requires k < |polygon|
    ensures Inside(p, Rotated(polygon, k)) == Inside(p, polygon)
  {
    var v := polygon;
    ClosedAtEnd(v, p);
    ClosedAtEnd(Rotated(v, k), p);
    var closed := v + [v[0]];
    SplitPath(closed, k, p);
    assert closed[..k + 1] == v[..k + 1] && closed[k..] == v[k..] + [v[0]];
    var rotated := Rotated(v, k) + [v[k]];
    SplitPath(rotated, |v| - k, p);
    assert rotated == v[k..] + v[..k + 1];
    assert rotated[..|v| - k + 1] == v[k..] + [v[0]] && rotated[|v| - k..] == v[..k + 1];
  }

  function Reversed(path: seq<Point>): seq<Point> {
    if path == [] then [] else Reversed(path[1..]) + [path[0]]
  }

  lemma {:induction false} ReversedParity(path: seq<Point>, p: Point)
    ensures |Reversed(path)| == |path|
    ensures path != [] ==> Reversed(path)[|path| - 1] == path[0] && Reversed(path)[0] == path[|path| - 1]
    ensures PathParity(Reversed(path), p) == PathParity(path, p)
  {
    if |path| >= 2 {
      ReversedParity(path[1..], p);
      AppendEdge(Reversed(path[1..]), path[0], p);
      HitSymmetric(path[0], path[1], p);
    } else if |path| == 1 {
      ReversedParity(path[1..], p);
      assert Reversed(path) == path;
    }
  }

  /** Containment does not depend on the orientation of the vertex list. */
  lemma ReversalInvariant(p: Point, polygon: seq<Point>)
    ensures Inside(p, Reversed(polygon)) == Inside(p, polygon)
  {
    ReversedParity(polygon, p);
    if polygon != [] {
      var n := |polygon|;
      var closed := [polygon[n - 1]] + polygon;
      ReversedParity(closed, p);
      assert closed[1..] == polygon;
      assert Reversed(closed) == Reversed(polygon) + [polygon[n - 1]];
      ClosedAtEnd(Reversed(polygon), p);
    }
  }

  /** Cutting a polygon along the chord between vertices i and j: the point is inside exactly one of the two
      parts if it is inside the whole, and inside both or neither if it is not. */
  lemma ChordAdditive(p: Point, polygon: seq<Point>, i: nat, j: nat)
    requires i <= j < |polygon|
    ensures var near, far := polygon[i..j + 1], polygon[j..] + polygon[..i + 1];
            ClosedParity(polygon, p) == (ClosedParity(near, p) != ClosedParity(far, p))
  {
    var v := polygon;
    var near, far := v[i..j + 1], v[j..] + v[..i + 1];
    ClosedAtEnd(v, p);
    ClosedAtEnd(near, p);
    ClosedAtEnd(far, p);
    var closed := v + [v[0]];
    SplitPath(closed, j, p);
    assert closed[..j + 1] == v[..j + 1] && closed[j..] == v[j..] + [v[0]];
    SplitPath(v[..j + 1], i, p);
    assert v[..j + 1][..i + 1] == v[..i + 1] && v[..j + 1][i..] == near;
    AppendEdge(near, v[i], p);
    AppendEdge(far, v[j], p);
    SplitPath(far, |v| - j, p);
    assert far[..|v| - j + 1] == v[j..] + [v[0]] && far[|v| - j..] == v[..i + 1];
    HitSymmetric(v[i], v[j], p);
  }

  /** A list of at most two vertices encloses nothing, so the rule "fewer than three vertices: outside" is what
      the parity says anyway, and the chord law holds for the test itself. */
  lemma SmallPolygonEmpty(p: Point, polygon: seq<Point>)
    requires polygon != []
    ensures Inside(p, polygon) == ClosedParity(polygon, p)
  {
    if |polygon| == 1 {
      var closed := [polygon[0]] + polygon;
      assert PathParity(closed[1..], p) == false;
    } else if |polygon| == 2 {
      var closed := [polygon[1]] + polygon;
      assert closed[1..] == polygon && closed[1] == polygon[0];
      assert PathParity(polygon, p) == Hit(polygon[1], polygon[0], p);
      assert PathParity(closed, p) == (Hit(polygon[0], polygon[1], p) != PathParity(polygon, p));
      HitSymmetric(polygon[0], polygon[1], p);
    }
  }

  lemma CuttingAlongChord(p: Point, polygon: seq<Point>, i: nat, j: nat)
    requires i <= j < |polygon|
    ensures Inside(p, polygon) ==
              (Inside(p, polygon[i..j + 1]) != Inside(p, polygon[j..] + polygon[..i + 1]))
  {
    ChordAdditive(p, polygon, i, j);
    SmallPolygonEmpty(p, polygon);
    SmallPolygonEmpty(p, polygon[i..j + 1]);
    SmallPolygonEmpty(p, polygon[j..] + polygon[..i + 1]);
  }

  // ---------------------------------------------------------------------------------------------
  // The bounding box

  lemma CrossingBetween(a: Point, b: Point, p: Point)
    requires Straddles(a, b, p)
    ensures Min(a.x, b.x) <= CrossingX(a, b, p) <= Max(a.x, b.x)
  {
    Between(a.y, b.y, p.y);
    var t := (p.y - a.y) / (b.y - a.y);
    AtBetween(a.x, b.x, t);
    var u := CrossingX(a, b, p) - a.x;
    assert u * (b.y - a.y) == (b.x - a.x) * (p.y - a.y);
    assert t * (b.y - a.y) == p.y - a.y;
    assert (u - t * (b.x - a.x)) * (b.y - a.y) == (b.x - a.x) * (p.y - a.y) - (b.x - a.x) * (t * (b.y - a.y));
    ScaleZero(b.y - a.y, u - t * (b.x - a.x));
  }

  lemma {:induction false} NoHits(path: seq<Point>, p: Point)
    requires (forall i :: 0 <= i < |path| ==> path[i].y > p.y) || (forall i :: 0 <= i < |path| ==> path[i].y <= p.y)
             || (forall i :: 0 <= i < |path| ==> path[i].x <= p.x)
    ensures !PathParity(path, p)
  {
    if |path| >= 2 {
      NoHits(path[1..], p);
      if Straddles(path[1], path[0], p) {
        CrossingBetween(path[1], path[0], p);
      }
    }
  }

  /** To the left of everything each straddling edge is hit, so the parity only compares the two ends. */
  lemma {:induction false} AllHits(path: seq<Point>, p: Point)
    requires path != [] && forall i :: 0 <= i < |path| ==> path[i].x > p.x
    ensures PathParity(path, p) == ((path[0].y > p.y) != (path[|path| - 1].y > p.y))
  {
    if |path| >= 2 {
      AllHits(path[1..], p);
      if Straddles(path[1], path[0], p) {
        CrossingBetween(path[1], path[0], p);
      }
    }
  }

  /** A point inside lies in the half-open bounding box of the vertices: minX <= x < maxX and minY <= y < maxY. */
  lemma InsideImpliesBoundingBox(p: Point, polygon: seq<Point>)
    requires Inside(p, polygon)
    ensures exists i :: 0 <= i < |polygon| && polygon[i].x <= p.x
    ensures exists i :: 0 <= i < |polygon| && p.x < polygon[i].x
    ensures exists i :: 0 <= i < |polygon| && polygon[i].y <= p.y
    ensures exists i :: 0 <= i < |polygon| && p.y < polygon[i].y
  {
    var n := |polygon|;
    var closed := [polygon[n - 1]] + polygon;
    assert forall i :: 0 <= i < |closed| ==> closed[i] == polygon[if i == 0 then n - 1 else i - 1];
    if forall i :: 0 <= i < n ==> polygon[i].x > p.x {
      AllHits(closed, p);
    }
    if (forall i :: 0 <= i < n ==> polygon[i].x <= p.x) || (forall i :: 0 <= i < n ==> polygon[i].y > p.y)
       || (forall i :: 0 <= i < n ==> polygon[i].y <= p.y) {
      NoHits(closed, p);
    }
  }
}
