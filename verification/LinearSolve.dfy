/** Gauss-Jordan elimination with partial pivoting on an 8x8 system: the elimination as a function, what it
    preserves, when it refuses a system, and the in-place solver of the snapshot warp, which computes it. The other
    solver of the repository, in PreprocessSolve, computes it too. */
module LinearSolve {

  const N: nat := 8
  const PIVOT_EPS := 0.000000000001

  /** A row of the augmented system: eight coefficients and the right-hand side. */
  type Row = r: seq<real> | |r| == N + 1 witness ZERO_ROW
  type Matrix = m: seq<Row> | |m| == N witness seq(N, _ => ZERO_ROW)

  const ZERO_ROW: seq<real> := [0.0, 0.0, 0.0, 0.0, 0.0, 0.0, 0.0, 0.0, 0.0]

  datatype Option<+T> = None | Some(value: T)

  function Abs(x: real): real { if x < 0.0 then -x else x }

  // ---------------------------------------------------------------------------------------------
  // Elimination as a function

  /** Row p is the first of the rows col..n-1 with the largest entry in the column. */
  ghost predicate IsPivot(m: Matrix, col: nat, n: nat, p: nat)
    requires col < n <= N
  {
    && col <= p < n
    && (forall r :: col <= r < n ==> Abs(m[r][col]) <= Abs(m[p][col]))
    && (forall r :: col <= r < p ==> Abs(m[r][col]) < Abs(m[p][col]))
  }

  /** The pivot found by scanning rows col..n-1. */
  function PivotOf(m: Matrix, col: nat, n: nat): (p: nat)
    requires col < n <= N
    ensures IsPivot(m, col, n, p)
  {
    if n == col + 1 then col
    else
      var p := PivotOf(m, col, n - 1);
      if Abs(m[n - 1][col]) > Abs(m[p][col]) then n - 1 else p
  }

  function Scaled(row: Row, k: real): (r: Row)
    requires k != 0.0
    ensures forall c :: 0 <= c <= N ==> r[c] == row[c] / k
  {
    seq(N + 1, c requires 0 <= c <= N => row[c] / k)
  }

  function Reduced(row: Row, f: real, pivot: Row): (r: Row)
    ensures forall c :: 0 <= c <= N ==> r[c] == row[c] - f * pivot[c]
  {
    seq(N + 1, c requires 0 <= c <= N => row[c] - f * pivot[c])
  }

  function Swapped(m: Matrix, i: nat, j: nat): (r: Matrix)
    requires i < N && j < N
    ensures r[i] == m[j] && r[j] == m[i] && forall q :: 0 <= q < N && q != i && q != j ==> r[q] == m[q]
  {
    m[i := m[j]][j := m[i]]
  }

  /** Subtracting the pivot row from every other row. */
  function Cleared(m: Matrix, col: nat): (r: Matrix)
    requires col < N
    ensures forall q :: 0 <= q < N ==> r[q] == (if q == col then m[col] else Reduced(m[q], m[q][col], m[col]))
  {
    seq(N, q requires 0 <= q < N => if q == col then m[col] else Reduced(m[q], m[q][col], m[col]))
  }

  /** The steps of one column: move the pivot row up, scale it, clear the column elsewhere. */
  function PivotedUp(m: Matrix, col: nat): Matrix
    requires col < N
  {
    Swapped(m, PivotOf(m, col, N), col)
  }

  function Normalized(m: Matrix, col: nat): Matrix
    requires col < N && m[col][col] != 0.0
  {
    m[col := Scaled(m[col], m[col][col])]
  }

  function EliminateColumn(m: Matrix, col: nat): Option<Matrix>
    requires col < N
  {
    var up := PivotedUp(m, col);
    if Abs(up[col][col]) < PIVOT_EPS then None else Some(Cleared(Normalized(up, col), col))
  }

  function Eliminate(m: Matrix, n: nat): Option<Matrix>
    requires n <= N
  {
    if n == 0 then Some(m)
    else
      match Eliminate(m, n - 1)
      case None => None
      case Some(prev) => EliminateColumn(prev, n - 1)
  }

  lemma PivotIsUnique(m: Matrix, col: nat, n: nat, p: nat)
    requires col < n <= N && IsPivot(m, col, n, p)
    ensures p == PivotOf(m, col, n)
  {
    var q := PivotOf(m, col, n);
    assert Abs(m[p][col]) <= Abs(m[q][col]) && Abs(m[q][col]) <= Abs(m[p][col]);
  }

  /** A column stops the elimination when every entry from its diagonal down is below the bound. */
  ghost predicate NoPivot(m: Matrix, col: nat)
    requires col < N
  {
    forall r :: col <= r < N ==> Abs(m[r][col]) < PIVOT_EPS
  }

  lemma ColumnStopsIff(m: Matrix, col: nat)
    requires col < N
    ensures EliminateColumn(m, col).None? <==> NoPivot(m, col)
  {
    var p := PivotOf(m, col, N);
    assert PivotedUp(m, col)[col] == m[p];
  }

  /** Elimination gets as far as this column and finds no pivot in it. */
  ghost predicate StopsAt(m: Matrix, col: nat) {
    col < N && Eliminate(m, col).Some? && NoPivot(Eliminate(m, col).value, col)
  }

  lemma {:induction false} StopsSomewhere(m: Matrix, n: nat) returns (col: nat)
    requires n <= N && Eliminate(m, n).None?
    ensures StopsAt(m, col)
    decreases n
  {
    if Eliminate(m, n - 1).None? {
      col := StopsSomewhere(m, n - 1);
    } else {
      col := n - 1;
      ColumnStopsIff(Eliminate(m, n - 1).value, n - 1);
    }
  }

  /** The solution: the right-hand sides after full elimination. */
  function Solve(m: Matrix): Option<seq<real>> {
    match Eliminate(m, N)
    case None => None
    case Some(r) => Some(LastColumn(r))
  }

  function LastColumn(m: Matrix): (x: seq<real>)
    ensures |x| == N && forall i :: 0 <= i < N ==> x[i] == m[i][N]
  {
    seq(N, i requires 0 <= i < N => m[i][N])
  }

  // ---------------------------------------------------------------------------------------------
  // Solutions

  function Dot(row: Row, x: seq<real>, n: nat): real
    requires n <= N && |x| == N
  {
    if n == 0 then 0.0 else Dot(row, x, n - 1) + row[n - 1] * x[n - 1]
  }

  ghost predicate Satisfies(row: Row, x: seq<real>)
    requires |x| == N
  {
    Dot(row, x, N) == row[N]
  }

  ghost predicate Solves(m: Matrix, x: seq<real>)
    requires |x| == N
  {
    forall r :: 0 <= r < N ==> Satisfies(m[r], x)
  }

  lemma {:induction false} DotScaled(row: Row, k: real, x: seq<real>, n: nat)
    requires k != 0.0 && n <= N && |x| == N
    ensures k * Dot(Scaled(row, k), x, n) == Dot(row, x, n)
  {
    if n == 0 {
    } else {
      DotScaled(row, k, x, n - 1);
      ScaledTerm(row[n - 1], k, x[n - 1]);
    }
  }

  lemma ScaledTerm(a: real, k: real, x: real)
    requires k != 0.0
    ensures k * ((a / k) * x) == a * x
  {
    assert k * (a / k) == a;
    assert k * ((a / k) * x) == (k * (a / k)) * x;
  }

  lemma {:induction false} DotReduced(row: Row, f: real, pivot: Row, x: seq<real>, n: nat)
    requires n <= N && |x| == N
    ensures Dot(Reduced(row, f, pivot), x, n) == Dot(row, x, n) - f * Dot(pivot, x, n)
  {
    if n == 0 {
    } else {
      DotReduced(row, f, pivot, x, n - 1);
      ReducedTerm(row[n - 1], f, pivot[n - 1], x[n - 1], Dot(pivot, x, n - 1));
    }
  }

  lemma ReducedTerm(a: real, f: real, p: real, x: real, d: real)
    ensures (a - f * p) * x == a * x - f * (p * x)
    ensures f * (d + p * x) == f * d + f * (p * x)
  {
  }

  lemma ScaledSatisfies(row: Row, k: real, x: seq<real>)
    requires k != 0.0 && |x| == N
    ensures Satisfies(Scaled(row, k), x) <==> Satisfies(row, x)
  {
    DotScaled(row, k, x, N);
    var d := Dot(Scaled(row, k), x, N);
    assert k * (row[N] / k) == row[N];
    CancelFactor(k, d, row[N] / k);
  }

  lemma CancelFactor(k: real, a: real, b: real)
    requires k != 0.0
    ensures a == b <==> k * a == k * b
  {
    if k * a == k * b {
      assert k * (a - b) == 0.0;
    }
  }

  lemma ReducedSatisfies(row: Row, f: real, pivot: Row, x: seq<real>)
    requires |x| == N && Satisfies(pivot, x)
    ensures Satisfies(Reduced(row, f, pivot), x) <==> Satisfies(row, x)
  {
    DotReduced(row, f, pivot, x, N);
  }

  /** Swapping, scaling and clearing keep the solutions. */
  lemma ColumnKeepsSolutions(m: Matrix, col: nat, x: seq<real>)
    requires col < N && |x| == N && EliminateColumn(m, col).Some?
    ensures Solves(EliminateColumn(m, col).value, x) <==> Solves(m, x)
  {
    var up := PivotedUp(m, col);
    SwapKeepsSolutions(m, PivotOf(m, col, N), col, x);
    var scaled := Normalized(up, col);
    ScaledSatisfies(up[col], up[col][col], x);
    assert Solves(scaled, x) <==> Solves(up, x) by {
      forall r | 0 <= r < N ensures Satisfies(scaled[r], x) <==> Satisfies(up[r], x) {
      }
    }
    ClearKeepsSolutions(scaled, col, x);
  }

  lemma SwapKeepsSolutions(m: Matrix, i: nat, j: nat, x: seq<real>)
    requires i < N && j < N && |x| == N
    ensures Solves(Swapped(m, i, j), x) <==> Solves(m, x)
  {
    var s := Swapped(m, i, j);
    assert m[i] == s[j] && m[j] == s[i];
    forall r | 0 <= r < N && Solves(s, x) ensures Satisfies(m[r], x) {
      assert Satisfies(s[if r == i then j else if r == j then i else r], x);
    }
  }

  lemma ClearKeepsSolutions(m: Matrix, col: nat, x: seq<real>)
    requires col < N && |x| == N
    ensures Solves(Cleared(m, col), x) <==> Solves(m, x)
  {
    var c := Cleared(m, col);
    assert c[col] == m[col];
    if Satisfies(m[col], x) {
      forall r | 0 <= r < N && r != col ensures Satisfies(c[r], x) <==> Satisfies(m[r], x) {
        ReducedSatisfies(m[r], m[r][col], m[col], x);
      }
      forall r | 0 <= r < N ensures Satisfies(c[r], x) <==> Satisfies(m[r], x) {
      }
    }
  }

  lemma {:induction false} EliminateKeepsSolutions(m: Matrix, n: nat, x: seq<real>)
    requires n <= N && |x| == N && Eliminate(m, n).Some?
    ensures Solves(Eliminate(m, n).value, x) <==> Solves(m, x)
  {
    if n == 0 {
    } else {
      EliminateKeepsSolutions(m, n - 1, x);
      ColumnKeepsSolutions(Eliminate(m, n - 1).value, n - 1, x);
    }
  }

  /** The first n columns are unit columns. */
  ghost predicate UnitColumns(m: Matrix, n: nat)
    requires n <= N
  {
    forall r, c :: 0 <= r < N && 0 <= c < n ==> m[r][c] == (if r == c then 1.0 else 0.0)
  }

  lemma SelfRatio(k: real)
    requires k != 0.0
    ensures k / k == 1.0
  {
  }

  lemma ColumnMakesUnit(m: Matrix, col: nat)
    requires col < N && UnitColumns(m, col) && EliminateColumn(m, col).Some?
    ensures UnitColumns(EliminateColumn(m, col).value, col + 1)
  {
    var up := PivotedUp(m, col);
    var k := up[col][col];
    var scaled := Normalized(up, col);
    SelfRatio(k);
    assert scaled[col][col] == k / k;
    forall c | 0 <= c < col ensures scaled[col][c] == 0.0 {
      assert up[col][c] == 0.0;
    }
    var r := Cleared(scaled, col);
    forall q, c | 0 <= q < N && 0 <= c < col + 1 ensures r[q][c] == (if q == c then 1.0 else 0.0) {
      if q != col {
        assert scaled[q] == up[q];
        if c < col {
          assert r[q][c] == up[q][c] - scaled[q][col] * 0.0;
        } else {
          assert r[q][c] == scaled[q][col] - scaled[q][col] * 1.0;
        }
      }
    }
  }

  lemma {:induction false} EliminateMakesUnit(m: Matrix, n: nat)
    requires n <= N && Eliminate(m, n).Some?
    ensures UnitColumns(Eliminate(m, n).value, n)
  {
    if n == 0 {
    } else {
      EliminateMakesUnit(m, n - 1);
      ColumnMakesUnit(Eliminate(m, n - 1).value, n - 1);
    }
  }

  lemma {:induction false} DotUnit(m: Matrix, r: nat, x: seq<real>, n: nat)
    requires UnitColumns(m, N) && r < N && n <= N && |x| == N
    ensures Dot(m[r], x, n) == if r < n then x[r] else 0.0
  {
    if n == 0 {
    } else {
      DotUnit(m, r, x, n - 1);
      assert m[r][n - 1] == (if r == n - 1 then 1.0 else 0.0);
    }
  }

  /** When elimination succeeds, its result is the one and only solution of the original system. So a system
      with no solution, or with more than one, is always refused. */
  lemma SolveIsUniqueSolution(m: Matrix, y: seq<real>)
    requires |y| == N && Solve(m).Some?
    ensures Solves(m, y) <==> y == Solve(m).value
  {
    var r := Eliminate(m, N).value;
    EliminateKeepsSolutions(m, N, y);
    EliminateMakesUnit(m, N);
    forall i | 0 <= i < N ensures Satisfies(r[i], y) <==> y[i] == r[i][N] {
      DotUnit(r, i, y, N);
    }
  }

  /** Rows 0..n-1 cleared, the rest as they were. */
  function ClearedUpTo(m: Matrix, col: nat, n: nat): (r: Matrix)
    requires col < N && n <= N
    ensures forall q :: 0 <= q < N ==> r[q] == (if q < n then Cleared(m, col)[q] else m[q])
  {
    Cleared(m, col)[..n] + m[n..]
  }

  lemma ClearedUpToStep(m: Matrix, col: nat, n: nat)
    requires col < N && n < N
    ensures ClearedUpTo(m, col, n)[col] == m[col] && ClearedUpTo(m, col, n)[n] == m[n]
    ensures ClearedUpTo(m, col, n + 1) ==
              if n == col then ClearedUpTo(m, col, n)
              else ClearedUpTo(m, col, n)[n := Reduced(m[n], m[n][col], m[col])]
  {
    MatrixExtensional(ClearedUpTo(m, col, n + 1),
                      if n == col then ClearedUpTo(m, col, n)
                      else ClearedUpTo(m, col, n)[n := Reduced(m[n], m[n][col], m[col])]);
  }

  lemma MatrixExtensional(m: Matrix, m': Matrix)
    requires forall r, c :: 0 <= r < N && 0 <= c <= N ==> m[r][c] == m'[r][c]
    ensures m == m'
  {
    forall r | 0 <= r < N ensures m[r] == m'[r] {
    }
  }

  // ---------------------------------------------------------------------------------------------
  // First solver: coefficients and right-hand side apart, whole rows swapped

  function RowOf(a: array2<real>, b: array<real>, r: nat): (row: Row)
    requires a.Length0 == N && a.Length1 == N && b.Length == N && r < N
    reads a, b
    ensures forall c :: 0 <= c < N ==> row[c] == a[r, c]
    ensures row[N] == b[r]
  {
    seq(N, c requires 0 <= c < N reads a => a[r, c]) + [b[r]]
  }

  function Augmented(a: array2<real>, b: array<real>): (m: Matrix)
    requires a.Length0 == N && a.Length1 == N && b.Length == N
    reads a, b
    ensures forall r :: 0 <= r < N ==> m[r] == RowOf(a, b, r)
  {
    seq(N, r requires 0 <= r < N reads a, b => RowOf(a, b, r))
  }

  method SwapRows(a: array2<real>, b: array<real>, i: nat, j: nat)
    requires a.Length0 == N && a.Length1 == N && b.Length == N && i < N && j < N
    modifies a, b
    ensures Augmented(a, b) == Swapped(old(Augmented(a, b)), i, j)
  {
    for c := 0 to N
      invariant b[..] == old(b[..])
      invariant forall r, k :: 0 <= r < N && 0 <= k < N ==>
                  a[r, k] == (if k < c && r == i then old(a[j, k])
                              else if k < c && r == j then old(a[i, k]) else old(a[r, k]))
    {
      a[i, c], a[j, c] := a[j, c], a[i, c];
    }
    b[i], b[j] := b[j], b[i];
    MatrixExtensional(Augmented(a, b), Swapped(old(Augmented(a, b)), i, j));
  }

  method FindPivot(a: array2<real>, b: array<real>, col: nat) returns (pivot: nat)
    requires a.Length0 == N && a.Length1 == N && b.Length == N && col < N
    ensures col <= pivot < N
    ensures forall r :: col <= r < N ==> Abs(a[r, col]) <= Abs(a[pivot, col])
    ensures forall r :: col <= r < pivot ==> Abs(a[r, col]) < Abs(a[pivot, col])
  {
    pivot := col;
    for r := col + 1 to N
      invariant col <= pivot < r
      invariant forall q :: col <= q < r ==> Abs(a[q, col]) <= Abs(a[pivot, col])
      invariant forall q :: col <= q < pivot ==> Abs(a[q, col]) < Abs(a[pivot, col])
    {
      if Abs(a[r, col]) > Abs(a[pivot, col]) {
        pivot := r;
      }
    }
  }

  method ScalePivotRow(a: array2<real>, b: array<real>, col: nat)
    requires a.Length0 == N && a.Length1 == N && b.Length == N && col < N && a[col, col] != 0.0
    requires forall c :: 0 <= c < col ==> a[col, c] == 0.0
    modifies a, b
    ensures Augmented(a, b) == Normalized(old(Augmented(a, b)), col)
  {
    var div := a[col, col];
    for c := col to N
      invariant b[..] == old(b[..])
      invariant forall r, k :: 0 <= r < N && 0 <= k < N ==>
                  a[r, k] == (if r == col && col <= k < c then old(a[r, k]) / div else old(a[r, k]))
    {
      a[col, c] := a[col, c] / div;
    }
    b[col] := b[col] / div;
    MatrixExtensional(Augmented(a, b), Normalized(old(Augmented(a, b)), col));
  }

  /** The inner loop, from the diagonal on. */
  method SubtractRow(a: array2<real>, f: real, r: nat, col: nat)
    requires a.Length0 == N && a.Length1 == N && col < N && r < N && r != col
    modifies a
    ensures forall q, k :: 0 <= q < N && 0 <= k < N ==>
              a[q, k] == (if q == r && col <= k then old(a[q, k]) - f * old(a[col, k]) else old(a[q, k]))
  {
    for c := col to N
      invariant forall q, k :: 0 <= q < N && 0 <= k < N ==>
                  a[q, k] == (if q == r && col <= k < c then old(a[q, k]) - f * old(a[col, k]) else old(a[q, k]))
    {
      a[r, c] := a[r, c] - f * a[col, c];
    }
  }

  method ReduceRow(a: array2<real>, b: array<real>, r: nat, col: nat)
    requires a.Length0 == N && a.Length1 == N && b.Length == N && col < N && r < N && r != col
    requires forall c :: 0 <= c < col ==> a[col, c] == 0.0
    modifies a, b
    ensures var m := old(Augmented(a, b)); Augmented(a, b) == m[r := Reduced(m[r], m[r][col], m[col])]
  {
    var f := a[r, col];
    SubtractRow(a, f, r, col);
    b[r] := b[r] - f * b[col];
    ghost var m := old(Augmented(a, b));
    forall c | 0 <= c <= N ensures Augmented(a, b)[r][c] == Reduced(m[r], f, m[col])[c] {
      if c < col {
        assert m[col][c] == 0.0;
        TimesZero(f, m[col][c]);
      }
    }
    assert forall q, c :: 0 <= q < N && q != r && 0 <= c <= N ==> Augmented(a, b)[q][c] == m[q][c];
    MatrixExtensional(Augmented(a, b), m[r := Reduced(m[r], f, m[col])]);
  }

  lemma TimesZero(f: real, z: real)
    requires z == 0.0
    ensures f * z == 0.0
  {
  }

  method ClearRow(a: array2<real>, b: array<real>, r: nat, col: nat, ghost m: Matrix)
    requires a.Length0 == N && a.Length1 == N && b.Length == N && col < N && r < N
    requires Augmented(a, b) == ClearedUpTo(m, col, r) && forall c :: 0 <= c < col ==> m[col][c] == 0.0
    modifies a, b
    ensures Augmented(a, b) == ClearedUpTo(m, col, r + 1)
  {
    ClearedUpToStep(m, col, r);
    if r != col {
      assert forall c :: 0 <= c < col ==> a[col, c] == Augmented(a, b)[col][c];
      ReduceRow(a, b, r, col);
    }
  }

  method ClearColumn(a: array2<real>, b: array<real>, col: nat)
    requires a.Length0 == N && a.Length1 == N && b.Length == N && col < N
    requires forall c :: 0 <= c < col ==> Augmented(a, b)[col][c] == 0.0
    modifies a, b
    ensures Augmented(a, b) == Cleared(old(Augmented(a, b)), col)
  {
    ghost var m := Augmented(a, b);
    assert ClearedUpTo(m, col, 0) == m;
    for r := 0 to N
      invariant Augmented(a, b) == ClearedUpTo(m, col, r)
    {
      ClearRow(a, b, r, col, m);
    }
    assert ClearedUpTo(m, col, N) == Cleared(m, col);
  }

  /** One column; false, with nothing changed, when no entry can serve as pivot. */
  method EliminateColumnInPlace(a: array2<real>, b: array<real>, col: nat) returns (ok: bool)
    requires a.Length0 == N && a.Length1 == N && b.Length == N && col < N
    requires UnitColumns(Augmented(a, b), col)
    modifies a, b
    ensures ok <==> !NoPivot(old(Augmented(a, b)), col)
    ensures !ok ==> Augmented(a, b) == old(Augmented(a, b))
    ensures EliminateColumn(old(Augmented(a, b)), col) == if ok then Some(Augmented(a, b)) else None
  {
    ghost var before := Augmented(a, b);
    var pivot := FindPivot(a, b, col);
    assert forall r :: 0 <= r < N ==> before[r][col] == a[r, col];
    PivotIsUnique(before, col, N, pivot);
    ColumnStopsIff(before, col);
    if Abs(a[pivot, col]) < PIVOT_EPS {
      return false;
    }
    if pivot != col {
      SwapRows(a, b, pivot, col);
    }
    assert Augmented(a, b) == PivotedUp(before, col);
    PivotRowIsClear(before, col);
    assert forall c :: 0 <= c <= col ==> Augmented(a, b)[col][c] == a[col, c];
    ScalePivotRow(a, b, col);
    ClearColumn(a, b, col);
    return true;
  }

  /** The solver of the snapshot warp. */
  method SolveInPlace(a: array2<real>, b: array<real>) returns (ok: bool)
    requires a.Length0 == N && a.Length1 == N && b.Length == N
    modifies a, b
    ensures var s := Solve(old(Augmented(a, b)));
            && ok == s.Some?
            && (ok ==> b[..] == s.value)
  {
    ghost var m := Augmented(a, b);
    for col := 0 to N
      invariant Eliminate(m, col) == Some(Augmented(a, b))
    {
      EliminateMakesUnit(m, col);
      ok := EliminateColumnInPlace(a, b, col);
      if !ok {
        EliminateStops(m, col);
        return;
      }
    }
    return true;
  }

  /** Left of the current column, the row that moves up is all zero, before and after scaling. */
  lemma PivotRowIsClear(m: Matrix, col: nat)
    requires col < N && UnitColumns(m, col)
    ensures forall c :: 0 <= c < col ==> PivotedUp(m, col)[col][c] == 0.0
    ensures PivotedUp(m, col)[col][col] != 0.0 ==>
              forall c :: 0 <= c < col ==> Normalized(PivotedUp(m, col), col)[col][c] == 0.0
  {
    var up := PivotedUp(m, col);
    var p := PivotOf(m, col, N);
    assert up[col] == m[p];
    forall c | 0 <= c < col ensures up[col][c] == 0.0 {
      assert m[p][c] == 0.0;
    }
  }

  lemma {:induction false} EliminateStopsLater(m: Matrix, n: nat, k: nat)
    requires n <= k <= N && Eliminate(m, n).None?
    ensures Eliminate(m, k).None?
    decreases k - n
  {
    if n < k {
      EliminateStopsLater(m, n + 1, k);
    }
  }

  lemma EliminateStops(m: Matrix, col: nat)
    requires col < N && Eliminate(m, col).Some? && EliminateColumn(Eliminate(m, col).value, col).None?
    ensures Solve(m).None?
  {
    EliminateStopsLater(m, col + 1, N);
  }

  /** A system is refused exactly when, at some column, everything that elimination has left from the diagonal down is
      below the bound. */
  lemma RefusedIff(m: Matrix)
    ensures Solve(m).None? <==> exists col: nat :: StopsAt(m, col)
  {
    if Solve(m).None? {
      var col := StopsSomewhere(m, N);
    }
    forall col: nat | StopsAt(m, col) ensures Solve(m).None? {
      ColumnStopsIff(Eliminate(m, col).value, col);
      EliminateStops(m, col);
    }
  }
}
