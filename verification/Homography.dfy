/** The homography through four point pairs, its inverse, and the inverse warp that samples the source image. */
module Homography {
  import opened Geometry
  import opened LinearSolve
  import opened PreprocessSolve

  const DET_EPS := 0.000000000001
  const W_EPS := 0.000000000001

  type Quad = q: seq<Point> | |q| == 4 witness [Point(0.0, 0.0), Point(0.0, 0.0), Point(0.0, 0.0), Point(0.0, 0.0)]

  /** A 3x3 matrix, row by row. */
  type Mat3 = h: seq<real> | |h| == 9 witness ZERO_ROW

  // ---------------------------------------------------------------------------------------------
  // The 8x8 system

  function RowU(p: Point, u: real): Row {
    [p.x, p.y, 1.0, 0.0, 0.0, 0.0, -u * p.x, -u * p.y, u]
  }

  function RowV(p: Point, v: real): Row {
    [0.0, 0.0, 0.0, p.x, p.y, 1.0, -v * p.x, -v * p.y, v]
  }

  function System(src: Quad, dst: Quad): Matrix {
    [RowU(src[0], dst[0].x), RowV(src[0], dst[0].y), RowU(src[1], dst[1].x), RowV(src[1], dst[1].y),
     RowU(src[2], dst[2].x), RowV(src[2], dst[2].y), RowU(src[3], dst[3].x), RowV(src[3], dst[3].y)]
  }

  lemma SystemRows(src: Quad, dst: Quad, i: nat)
    requires i < 4
    ensures System(src, dst)[2 * i] == RowU(src[i], dst[i].x) && System(src, dst)[2 * i + 1] == RowV(src[i], dst[i].y)
  {
    match i case 0 => case 1 => case 2 => case 3 =>
  }

  function PerspectiveTransform(src: Quad, dst: Quad): Option<Mat3> {
    match Solve(System(src, dst))
    case None => None
    case Some(h) => Some(h + [1.0])
  }

  // Writing the two rows of one pair into a cleared system.

  method FillTriple(p: Point, r: nat, k: nat, a: array2<real>)
    requires r < N && k <= 3 && a.Length0 == N && a.Length1 == N
    modifies a
    ensures a[r, k] == p.x && a[r, k + 1] == p.y && a[r, k + 2] == 1.0
    ensures forall r', c :: 0 <= r' < N && 0 <= c < N && (r' != r || c < k || c > k + 2) ==> a[r', c] == old(a[r', c])
  {
    a[r, k] := p.x;
    a[r, k + 1] := p.y;
    a[r, k + 2] := 1.0;
  }

  method FillU(p: Point, u: real, r: nat, a: array2<real>, b: array<real>)
    requires r < N && a.Length0 == N && a.Length1 == N && b.Length == N
    requires forall c :: 0 <= c < N ==> a[r, c] == 0.0
    modifies a, b
    ensures RowOf(a, b, r) == RowU(p, u)
    ensures forall r', c :: 0 <= r' < N && r' != r && 0 <= c < N ==> a[r', c] == old(a[r', c])
    ensures forall r' :: 0 <= r' < N && r' != r ==> b[r'] == old(b[r'])
  {
    var ux, uy := -u * p.x, -u * p.y;
    ghost var row := RowU(p, u);
    assert row[6] == ux && row[7] == uy;
    FillTriple(p, r, 0, a);
    a[r, 6] := ux;
    a[r, 7] := uy;
    b[r] := u;
    RowExtensional(RowOf(a, b, r), row);
  }

  method FillV(p: Point, v: real, r: nat, a: array2<real>, b: array<real>)
    requires r < N && a.Length0 == N && a.Length1 == N && b.Length == N
    requires forall c :: 0 <= c < N ==> a[r, c] == 0.0
    modifies a, b
    ensures RowOf(a, b, r) == RowV(p, v)
    ensures forall r', c :: 0 <= r' < N && r' != r && 0 <= c < N ==> a[r', c] == old(a[r', c])
    ensures forall r' :: 0 <= r' < N && r' != r ==> b[r'] == old(b[r'])
  {
    var vx, vy := -v * p.x, -v * p.y;
    ghost var row := RowV(p, v);
    assert row[6] == vx && row[7] == vy;
    FillTriple(p, r, 3, a);
    a[r, 6] := vx;
    a[r, 7] := vy;
    b[r] := v;
    RowExtensional(RowOf(a, b, r), row);
  }

  lemma RowExtensional(r: Row, r': Row)
    requires r[0] == r'[0] && r[1] == r'[1] && r[2] == r'[2] && r[3] == r'[3] && r[4] == r'[4]
    requires r[5] == r'[5] && r[6] == r'[6] && r[7] == r'[7] && r[8] == r'[8]
    ensures r == r'
  {
  }

  method FillSystem(src: Quad, dst: Quad) returns (a: array2<real>, b: array<real>)
    ensures fresh(a) && fresh(b) && a.Length0 == N && a.Length1 == N && b.Length == N
    ensures Augmented(a, b) == System(src, dst)
  {
    a := new real[N, N]((i, j) => 0.0);
    b := new real[N](i => 0.0);
    ghost var m := System(src, dst);
    for i := 0 to 4
      invariant forall r, c :: 2 * i <= r < N && 0 <= c < N ==> a[r, c] == 0.0
      invariant forall r :: 0 <= r < 2 * i ==> RowOf(a, b, r) == m[r]
    {
      label Before:
      SystemRows(src, dst, i);
      FillU(src[i], dst[i].x, 2 * i, a, b);
      label Between:
      FillV(src[i], dst[i].y, 2 * i + 1, a, b);
      assert RowOf(a, b, 2 * i) == old@Between(RowOf(a, b, 2 * i));
      forall r | 0 <= r < 2 * i ensures RowOf(a, b, r) == m[r] {
        assert RowOf(a, b, r) == old@Before(RowOf(a, b, r));
      }
    }
    MatrixExtensional(Augmented(a, b), m);
  }

  /** The transform of the snapshot warp, and that of the preprocessing plugin: the same transform, or the same
      refusal, for all inputs. */
  method GetPerspectiveTransform(src: Quad, dst: Quad) returns (h: Option<Mat3>)
    ensures h == PerspectiveTransform(src, dst)
  {
    var a, b := FillSystem(src, dst);
    var ok := SolveInPlace(a, b);
    if !ok {
      return None;
    }
    return Some(b[..] + [1.0]);
  }

  method GetPerspectiveTransformPreprocess(src: Quad, dst: Quad) returns (h: Option<Mat3>)
    ensures h == PerspectiveTransform(src, dst)
  {
    var a, b := FillSystem(src, dst);
    var x := Solve8(a, b);
    return match x case None => None case Some(v) => Some(v + [1.0]);
  }

  // ---------------------------------------------------------------------------------------------
  // Applying a transform

  function ApplyX(h: Mat3, p: Point): real { h[0] * p.x + h[1] * p.y + h[2] }
  function ApplyY(h: Mat3, p: Point): real { h[3] * p.x + h[4] * p.y + h[5] }
  function ApplyW(h: Mat3, p: Point): real { h[6] * p.x + h[7] * p.y + h[8] }

  lemma DotExpanded(row: Row, x: seq<real>)
    requires |x| == N
    ensures Dot(row, x, N) == row[0] * x[0] + row[1] * x[1] + row[2] * x[2] + row[3] * x[3]
                              + row[4] * x[4] + row[5] * x[5] + row[6] * x[6] + row[7] * x[7]
  {
    assert Dot(row, x, 1) == Dot(row, x, 0) + row[0] * x[0];
    assert Dot(row, x, 2) == Dot(row, x, 1) + row[1] * x[1];
    assert Dot(row, x, 3) == Dot(row, x, 2) + row[2] * x[2];
    assert Dot(row, x, 4) == Dot(row, x, 3) + row[3] * x[3];
    assert Dot(row, x, 5) == Dot(row, x, 4) + row[4] * x[4];
    assert Dot(row, x, 6) == Dot(row, x, 5) + row[5] * x[5];
    assert Dot(row, x, 7) == Dot(row, x, 6) + row[6] * x[6];
    assert Dot(row, x, 8) == Dot(row, x, 7) + row[7] * x[7];
  }

  /** The row of u says: the transformed x is u times the transformed w. */
  lemma RowUMeaning(p: Point, u: real, h: seq<real>)
    requires |h| == N
    ensures Satisfies(RowU(p, u), h) <==> ApplyX(h + [1.0], p) == Product(u, ApplyW(h + [1.0], p))
  {
    DotExpanded(RowU(p, u), h);
    RowAlgebra(u, p.x, p.y, h[6], h[7]);
  }

  lemma RowVMeaning(p: Point, v: real, h: seq<real>)
    requires |h| == N
    ensures Satisfies(RowV(p, v), h) <==> ApplyY(h + [1.0], p) == Product(v, ApplyW(h + [1.0], p))
  {
    DotExpanded(RowV(p, v), h);
    RowAlgebra(v, p.x, p.y, h[6], h[7]);
  }

  lemma RowAlgebra(u: real, x: real, y: real, g: real, k: real)
    ensures u * (g * x + k * y + 1.0) == (u * x) * g + (u * y) * k + u
    ensures (-u * x) * g + (-u * y) * k == -((u * x) * g + (u * y) * k)
  {
  }

  /** The matrix maps p to q, up to scale. */
  ghost predicate SendsTo(h: Mat3, p: Point, q: Point) {
    ApplyX(h, p) == Product(q.x, ApplyW(h, p)) && ApplyY(h, p) == Product(q.y, ApplyW(h, p))
  }

  /** A matrix with last entry 1 maps the four source points to the four destination points, up to scale. */
  ghost predicate Maps(h: Mat3, src: Quad, dst: Quad) {
    forall i :: 0 <= i < 4 ==>
      SendsTo(h, src[i], dst[i])
  }

  /** When the solver accepts, its H is the only matrix with last entry 1 that maps all four pairs. */
  lemma TransformIsUnique(src: Quad, dst: Quad, g: seq<real>)
    requires PerspectiveTransform(src, dst).Some? && |g| == N
    ensures Maps(g + [1.0], src, dst) <==> PerspectiveTransform(src, dst) == Some(g + [1.0])
  {
    var m := System(src, dst);
    SolveIsUniqueSolution(m, g);
    assert Solves(m, g) <==> Maps(g + [1.0], src, dst) by {
      forall i | 0 <= i < 4
        ensures Satisfies(m[2 * i], g) && Satisfies(m[2 * i + 1], g) <==> SendsTo(g + [1.0], src[i], dst[i])
      {
        SystemRows(src, dst, i);
        RowUMeaning(src[i], dst[i].x, g);
        RowVMeaning(src[i], dst[i].y, g);
      }
      forall r | 0 <= r < N ensures r == 2 * (r / 2) || r == 2 * (r / 2) + 1 {
      }
    }
    assert (g + [1.0])[..N] == g;
    var h := Solve(m).value;
    assert (h + [1.0])[..N] == h;
  }

  // ---------------------------------------------------------------------------------------------
  // The 3x3 inverse

  function Det(m: Mat3): real {
    m[0] * (m[4] * m[8] - m[5] * m[7]) - m[1] * (m[3] * m[8] - m[5] * m[6]) + m[2] * (m[3] * m[7] - m[4] * m[6])
  }

  function Adjugate(m: Mat3): Mat3 {
    [m[4] * m[8] - m[5] * m[7], m[2] * m[7] - m[1] * m[8], m[1] * m[5] - m[2] * m[4],
     m[5] * m[6] - m[3] * m[8], m[0] * m[8] - m[2] * m[6], m[2] * m[3] - m[0] * m[5],
     m[3] * m[7] - m[4] * m[6], m[1] * m[6] - m[0] * m[7], m[0] * m[4] - m[1] * m[3]]
  }

  function Times(m: Mat3, k: real): (r: Mat3)
    ensures forall i :: 0 <= i < 9 ==> r[i] == m[i] * k
  {
    seq(9, i requires 0 <= i < 9 => m[i] * k)
  }

  function Inverse(m: Mat3): Option<Mat3> {
    if Abs(Det(m)) < DET_EPS then None else Some(Times(Adjugate(m), 1.0 / Det(m)))
  }

  lemma MatExtensional(m: Mat3, m': Mat3)
    requires m[0] == m'[0] && m[1] == m'[1] && m[2] == m'[2] && m[3] == m'[3] && m[4] == m'[4]
    requires m[5] == m'[5] && m[6] == m'[6] && m[7] == m'[7] && m[8] == m'[8]
    ensures m == m'
  {
  }

  lemma TimesAdjugate(m: Mat3, k: real, s: seq<real>)
    requires |s| == 9
    requires s[0] == (m[4] * m[8] - m[5] * m[7]) * k
    requires s[1] == (m[2] * m[7] - m[1] * m[8]) * k
    requires s[2] == (m[1] * m[5] - m[2] * m[4]) * k
    requires s[3] == (m[5] * m[6] - m[3] * m[8]) * k
    requires s[4] == (m[0] * m[8] - m[2] * m[6]) * k
    requires s[5] == (m[2] * m[3] - m[0] * m[5]) * k
    requires s[6] == (m[3] * m[7] - m[4] * m[6]) * k
    requires s[7] == (m[1] * m[6] - m[0] * m[7]) * k
    requires s[8] == (m[0] * m[4] - m[1] * m[3]) * k
    ensures s == Times(Adjugate(m), k)
  {
    TimesEntries(Adjugate(m), k, s);
  }

  lemma TimesEntries(a: Mat3, k: real, s: seq<real>)
    requires |s| == 9
    requires s[0] == a[0] * k && s[1] == a[1] * k && s[2] == a[2] * k && s[3] == a[3] * k && s[4] == a[4] * k
    requires s[5] == a[5] * k && s[6] == a[6] * k && s[7] == a[7] * k && s[8] == a[8] * k
    ensures s == Times(a, k)
  {
    MatExtensional(s, Times(a, k));
  }

  method Invert3x3(m: Mat3, inv: array<real>) returns (ok: bool)
    requires inv.Length == 9
    modifies inv
    ensures ok == Inverse(m).Some?
    ensures ok ==> inv[..] == Inverse(m).value
    ensures !ok ==> inv[..] == old(inv[..])
  {
    var det := m[0] * (m[4] * m[8] - m[5] * m[7]) - m[1] * (m[3] * m[8] - m[5] * m[6]) + m[2] * (m[3] * m[7] - m[4] * m[6]);
    if Abs(det) < DET_EPS {
      return false;
    }
    var id := 1.0 / det;
    inv[0] := (m[4] * m[8] - m[5] * m[7]) * id;
    inv[1] := (m[2] * m[7] - m[1] * m[8]) * id;
    inv[2] := (m[1] * m[5] - m[2] * m[4]) * id;
    inv[3] := (m[5] * m[6] - m[3] * m[8]) * id;
    inv[4] := (m[0] * m[8] - m[2] * m[6]) * id;
    inv[5] := (m[2] * m[3] - m[0] * m[5]) * id;
    inv[6] := (m[3] * m[7] - m[4] * m[6]) * id;
    inv[7] := (m[1] * m[6] - m[0] * m[7]) * id;
    inv[8] := (m[0] * m[4] - m[1] * m[3]) * id;
    TimesAdjugate(m, id, inv[..]);
    return true;
  }

  lemma Substitute(a: real, b: real, a': real, b': real)
    requires a == a' && b == b'
    ensures a * b == a' * b'
  {
  }

  /** A row of the inverse applied to (x, y, w), computed by the row of the adjugate. */
  lemma InverseRow(r0: real, r1: real, r2: real, det: real, x: real, y: real, w: real, value: real)
    requires det != 0.0 && r0 * x + r1 * y + r2 * w == det * value
    ensures r0 * (1.0 / det) * x + r1 * (1.0 / det) * y + r2 * (1.0 / det) * w == value
  {
    var id := 1.0 / det;
    assert det * id == 1.0;
    ScaledRow(r0, r1, r2, id, x, y, w);
    assert id * (det * value) == (det * id) * value;
  }

  lemma ScaledRow(r0: real, r1: real, r2: real, k: real, x: real, y: real, w: real)
    ensures r0 * k * x + r1 * k * y + r2 * k * w == k * (r0 * x + r1 * y + r2 * w)
  {
  }

  // Adjugate times matrix is the determinant times the identity, applied to (x, y, 1).

  lemma AdjugateUndoesX(a: real, b: real, c: real, d: real, e: real, f: real, g: real, h: real, i: real, x: real, y: real)
    ensures (e * i - f * h) * (a * x + b * y + c) + (c * h - b * i) * (d * x + e * y + f) + (b * f - c * e) * (g * x + h * y + i)
         == (a * (e * i - f * h) - b * (d * i - f * g) + c * (d * h - e * g)) * x
  {
  }

  lemma AdjugateUndoesY(a: real, b: real, c: real, d: real, e: real, f: real, g: real, h: real, i: real, x: real, y: real)
    ensures (f * g - d * i) * (a * x + b * y + c) + (a * i - c * g) * (d * x + e * y + f) + (c * d - a * f) * (g * x + h * y + i)
         == (a * (e * i - f * h) - b * (d * i - f * g) + c * (d * h - e * g)) * y
  {
  }

  lemma AdjugateUndoesW(a: real, b: real, c: real, d: real, e: real, f: real, g: real, h: real, i: real, x: real, y: real)
    ensures (d * h - e * g) * (a * x + b * y + c) + (b * g - a * h) * (d * x + e * y + f) + (a * e - b * d) * (g * x + h * y + i)
         == a * (e * i - f * h) - b * (d * i - f * g) + c * (d * h - e * g)
  {
  }

  lemma AdjugateSubstitutedX(a: real, b: real, c: real, d: real, e: real, f: real, g: real, h: real, i: real,
                              x: real, y: real, j0: real, j1: real, j2: real, u: real, v: real, w: real, det: real)
    requires u == a * x + b * y + c && v == d * x + e * y + f && w == g * x + h * y + i
    requires j0 == e * i - f * h && j1 == c * h - b * i && j2 == b * f - c * e
    requires det == a * (e * i - f * h) - b * (d * i - f * g) + c * (d * h - e * g)
    ensures j0 * u + j1 * v + j2 * w == det * x
  {
    AdjugateUndoesX(a, b, c, d, e, f, g, h, i, x, y);
    Substitute(j0, u, e * i - f * h, a * x + b * y + c);
    Substitute(j1, v, c * h - b * i, d * x + e * y + f);
    Substitute(j2, w, b * f - c * e, g * x + h * y + i);
    Substitute(det, x, a * (e * i - f * h) - b * (d * i - f * g) + c * (d * h - e * g), x);
  }

  lemma AdjugateSubstitutedY(a: real, b: real, c: real, d: real, e: real, f: real, g: real, h: real, i: real,
                              x: real, y: real, j0: real, j1: real, j2: real, u: real, v: real, w: real, det: real)
    requires u == a * x + b * y + c && v == d * x + e * y + f && w == g * x + h * y + i
    requires j0 == f * g - d * i && j1 == a * i - c * g && j2 == c * d - a * f
    requires det == a * (e * i - f * h) - b * (d * i - f * g) + c * (d * h - e * g)
    ensures j0 * u + j1 * v + j2 * w == det * y
  {
    AdjugateUndoesY(a, b, c, d, e, f, g, h, i, x, y);
    Substitute(j0, u, f * g - d * i, a * x + b * y + c);
    Substitute(j1, v, a * i - c * g, d * x + e * y + f);
    Substitute(j2, w, c * d - a * f, g * x + h * y + i);
    Substitute(det, y, a * (e * i - f * h) - b * (d * i - f * g) + c * (d * h - e * g), y);
  }

  lemma AdjugateSubstitutedW(a: real, b: real, c: real, d: real, e: real, f: real, g: real, h: real, i: real,
                              x: real, y: real, j0: real, j1: real, j2: real, u: real, v: real, w: real, det: real)
    requires u == a * x + b * y + c && v == d * x + e * y + f && w == g * x + h * y + i
    requires j0 == d * h - e * g && j1 == b * g - a * h && j2 == a * e - b * d
    requires det == a * (e * i - f * h) - b * (d * i - f * g) + c * (d * h - e * g)
    ensures j0 * u + j1 * v + j2 * w == det
  {
    AdjugateUndoesW(a, b, c, d, e, f, g, h, i, x, y);
    Substitute(j0, u, d * h - e * g, a * x + b * y + c);
    Substitute(j1, v, b * g - a * h, d * x + e * y + f);
    Substitute(j2, w, a * e - b * d, g * x + h * y + i);
  }

  lemma AdjugateRowX(m: Mat3, p: Point, x: real, y: real, w: real)
    requires x == ApplyX(m, p) && y == ApplyY(m, p) && w == ApplyW(m, p)
    ensures var j := Adjugate(m);
            j[0] * x + j[1] * y + j[2] * w == Det(m) * p.x
  {
    var j := Adjugate(m);
    AdjugateSubstitutedX(m[0], m[1], m[2], m[3], m[4], m[5], m[6], m[7], m[8], p.x, p.y,
                         j[0], j[1], j[2], x, y, w, Det(m));
  }

  lemma AdjugateRowY(m: Mat3, p: Point, x: real, y: real, w: real)
    requires x == ApplyX(m, p) && y == ApplyY(m, p) && w == ApplyW(m, p)
    ensures var j := Adjugate(m);
            j[3] * x + j[4] * y + j[5] * w == Det(m) * p.y
  {
    var j := Adjugate(m);
    AdjugateSubstitutedY(m[0], m[1], m[2], m[3], m[4], m[5], m[6], m[7], m[8], p.x, p.y,
                         j[3], j[4], j[5], x, y, w, Det(m));
  }

  lemma AdjugateRowW(m: Mat3, p: Point, x: real, y: real, w: real)
    requires x == ApplyX(m, p) && y == ApplyY(m, p) && w == ApplyW(m, p)
    ensures var j := Adjugate(m);
            j[6] * x + j[7] * y + j[8] * w == Det(m)
  {
    var j := Adjugate(m);
    AdjugateSubstitutedW(m[0], m[1], m[2], m[3], m[4], m[5], m[6], m[7], m[8], p.x, p.y,
                         j[6], j[7], j[8], x, y, w, Det(m));
  }

  /** The matrix takes (x, y, w) to (p, 1). */
  ghost predicate Returns(inv: Mat3, x: real, y: real, w: real, p: Point) {
    && inv[0] * x + inv[1] * y + inv[2] * w == p.x
    && inv[3] * x + inv[4] * y + inv[5] * w == p.y
    && inv[6] * x + inv[7] * y + inv[8] * w == 1.0
  }

  /** The inverse takes the homogeneous image of a point back to the point. */
  lemma InverseUndoes(m: Mat3, p: Point, x: real, y: real, w: real)
    requires Inverse(m).Some?
    requires x == ApplyX(m, p) && y == ApplyY(m, p) && w == ApplyW(m, p)
    ensures Returns(Inverse(m).value, x, y, w, p)
  {
    AdjugateRowX(m, p, x, y, w);
    AdjugateRowY(m, p, x, y, w);
    AdjugateRowW(m, p, x, y, w);
    ScaledRows(Adjugate(m), Det(m), x, y, w, p);
  }

  lemma ScaledRows(j: Mat3, det: real, x: real, y: real, w: real, p: Point)
    requires det != 0.0
    requires j[0] * x + j[1] * y + j[2] * w == det * p.x
    requires j[3] * x + j[4] * y + j[5] * w == det * p.y
    requires j[6] * x + j[7] * y + j[8] * w == det
    ensures Returns(Times(j, 1.0 / det), x, y, w, p)
  {
    InverseRow(j[0], j[1], j[2], det, x, y, w, p.x);
    InverseRow(j[3], j[4], j[5], det, x, y, w, p.y);
    InverseRow(j[6], j[7], j[8], det, x, y, w, 1.0);
  }

  /** The source position that the inverse warp samples for the destination pixel q; none when W is too small. */
  function SampledAt(inv: Mat3, q: Point): Option<Point> {
    var w := ApplyW(inv, q);
    if Abs(w) > W_EPS then Some(Point(ApplyX(inv, q) / w, ApplyY(inv, q) / w)) else None
  }

  lemma FactorOut(i0: real, i1: real, i2: real, u: real, v: real, w: real)
    ensures w * (i0 * u + i1 * v + i2) == i0 * (u * w) + i1 * (v * w) + i2 * w
  {
  }

  /** One row i of the inverse, applied to (u w, v w, w) and to (u, v, 1). */
  lemma CommonFactor(i0: real, i1: real, i2: real, u: real, v: real, w: real, x: real, y: real, a: real)
    requires x == u * w && y == v * w && a == i0 * u + i1 * v + i2
    ensures w * a == i0 * x + i1 * y + i2 * w
  {
    FactorOut(i0, i1, i2, u, v, w);
    Substitute(i0, x, i0, u * w);
    Substitute(i1, y, i1, v * w);
    Substitute(w, a, w, i0 * u + i1 * v + i2);
  }

  /** If inv maps (u, v, 1) to p up to the factor w, then w is not zero and the quotients give p back. */
  lemma QuotientsReturn(x: real, y: real, c: real, w: real, p: Point)
    requires w * x == p.x && w * y == p.y && w * c == 1.0
    ensures c != 0.0 && x / c == p.x && y / c == p.y
  {
    assert c != 0.0;
    QuotientReturns(x, c, w, p.x);
    QuotientReturns(y, c, w, p.y);
  }

  lemma QuotientReturns(x: real, c: real, w: real, target: real)
    requires c != 0.0 && w * x == target && w * c == 1.0
    ensures x / c == target
  {
    assert c * (w * x) == (w * c) * x;
    assert c * target == x;
  }

  lemma AbsProduct(w: real, c: real)
    requires w * c == 1.0
    ensures Abs(w) > 0.0 && Abs(c) > 0.0 && Abs(w) * Abs(c) == 1.0
  {
    assert (-w) * (-c) == w * c;
    ProductSign(w, -c);
    ProductSign(-w, c);
    assert w * (-c) == -(w * c) && (-w) * c == -(w * c);
  }

  lemma OrderScaled(x: real, y: real, z: real)
    requires z > 0.0
    ensures x < y <==> z * x < z * y
  {
    ProductSign(y - x, z);
    ProductSign(x - y, z);
    assert (y - x) * z == z * y - z * x;
    assert (x - y) * z == z * x - z * y;
  }

  lemma ReciprocalOrder(a: real, b: real, k: real, e: real)
    requires a > 0.0 && e > 0.0 && a * b == 1.0 && e * k == 1.0
    ensures e < b <==> a < k
  {
    OrderScaled(e, b, a);
    OrderScaled(a, k, e);
    assert a * e == e * a;
  }

  /** |W| is above the sampling threshold exactly when its reciprocal is below the reciprocal threshold. */
  lemma ReciprocalThreshold(c: real, w: real)
    requires w * c == 1.0
    ensures Abs(c) > W_EPS <==> Abs(w) < 1.0 / W_EPS
  {
    AbsProduct(w, c);
    ReciprocalOrder(Abs(w), Abs(c), 1.0 / W_EPS, W_EPS);
  }

  lemma SolverMapsPair(src: Quad, dst: Quad, h: Mat3, i: nat)
    requires PerspectiveTransform(src, dst) == Some(h) && i < 4
    ensures SendsTo(h, src[i], dst[i])
  {
    TransformIsUnique(src, dst, Solve(System(src, dst)).value);
    assert Maps(h, src, dst);
  }

  /** (x, y, c) is (p, 1) divided by w. */
  ghost predicate ScaledBy(w: real, x: real, y: real, c: real, p: Point) {
    w * x == p.x && w * y == p.y && w * c == 1.0
  }

  /** The inverse of a matrix that sends p to (u, v) up to w sends (u, v) to p up to 1 / w. */
  lemma InverseSendsBack(h: Mat3, inv: Mat3, p: Point, q: Point, x: real, y: real, w: real)
    requires Inverse(h) == Some(inv)
    requires x == ApplyX(h, p) && y == ApplyY(h, p) && w == ApplyW(h, p)
    requires SendsTo(h, p, q)
    ensures ScaledBy(w, ApplyX(inv, q), ApplyY(inv, q), ApplyW(inv, q), p)
  {
    InverseUndoes(h, p, x, y, w);
    RowsSendBack(inv, x, y, w, p, q);
  }

  lemma RowsSendBack(inv: Mat3, x: real, y: real, w: real, p: Point, q: Point)
    requires x == Product(q.x, w) && y == Product(q.y, w)
    requires Returns(inv, x, y, w, p)
    ensures ScaledBy(w, ApplyX(inv, q), ApplyY(inv, q), ApplyW(inv, q), p)
  {
    CommonFactor(inv[0], inv[1], inv[2], q.x, q.y, w, x, y, ApplyX(inv, q));
    CommonFactor(inv[3], inv[4], inv[5], q.x, q.y, w, x, y, ApplyY(inv, q));
    CommonFactor(inv[6], inv[7], inv[8], q.x, q.y, w, x, y, ApplyW(inv, q));
  }

  /** Both calculations accepted: then the inverse warp sends every destination corner exactly back to its source
      keypoint with a nonzero W; the corner is sampled there unless W is below the threshold, which is the case
      exactly when the keypoint's own w is at least the reciprocal of the threshold. */
  lemma WarpReturnsToKeypoints(src: Quad, dst: Quad, h: Mat3, inv: Mat3, i: nat)
    requires PerspectiveTransform(src, dst) == Some(h) && Inverse(h) == Some(inv) && i < 4
    ensures ApplyW(inv, dst[i]) != 0.0
    ensures ApplyX(inv, dst[i]) / ApplyW(inv, dst[i]) == src[i].x
    ensures ApplyY(inv, dst[i]) / ApplyW(inv, dst[i]) == src[i].y
    ensures SampledAt(inv, dst[i]) == if Abs(ApplyW(h, src[i])) < 1.0 / W_EPS then Some(src[i]) else None
  {
    SolverMapsPair(src, dst, h, i);
    InverseSendsBack(h, inv, src[i], dst[i], ApplyX(h, src[i]), ApplyY(h, src[i]), ApplyW(h, src[i]));
    SampledWhere(ApplyX(inv, dst[i]), ApplyY(inv, dst[i]), ApplyW(inv, dst[i]), ApplyW(h, src[i]), src[i]);
  }

  lemma SampledWhere(x: real, y: real, c: real, w: real, p: Point)
    requires ScaledBy(w, x, y, c, p)
    ensures c != 0.0 && x / c == p.x && y / c == p.y
    ensures Abs(c) > W_EPS <==> Abs(w) < 1.0 / W_EPS
  {
    QuotientsReturn(x, y, c, w, p);
    ReciprocalThreshold(c, w);
  }
}
