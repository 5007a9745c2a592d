/** The second solver of the repository, in the preprocessing plugin: one augmented 8x9 array, and rows swapped only
    from the pivot column on. It is proved to compute the same elimination, so the two solvers agree. */
module PreprocessSolve {
  import opened LinearSolve

  ghost predicate Shape(m: array2<real>) { m.Length0 == N && m.Length1 == N + 1 }

  function RowAt(m: array2<real>, r: nat): (row: Row)
    requires Shape(m) && r < N
    reads m
    ensures forall c :: 0 <= c <= N ==> row[c] == m[r, c]
  {
    seq(N + 1, c requires 0 <= c <= N && Shape(m) reads m => m[r, c])
  }

  function Rows(m: array2<real>): (rows: Matrix)
    requires Shape(m)
    reads m
    ensures forall r :: 0 <= r < N ==> rows[r] == RowAt(m, r)
  {
    seq(N, r requires 0 <= r < N && Shape(m) reads m => RowAt(m, r))
  }

  method FindPivotIn(m: array2<real>, col: nat) returns (pivot: nat)
    requires Shape(m) && col < N
    ensures col <= pivot < N
    ensures forall r :: col <= r < N ==> Abs(m[r, col]) <= Abs(m[pivot, col])
    ensures forall r :: col <= r < pivot ==> Abs(m[r, col]) < Abs(m[pivot, col])
  {
    pivot := col;
    for r := col + 1 to N
      invariant col <= pivot < r
      invariant forall q :: col <= q < r ==> Abs(m[q, col]) <= Abs(m[pivot, col])
      invariant forall q :: col <= q < pivot ==> Abs(m[q, col]) < Abs(m[pivot, col])
    {
      if Abs(m[r, col]) > Abs(m[pivot, col]) {
        pivot := r;
      }
    }
  }

  /** Swapping only the tails is a full swap as long as both rows are zero before the column. */
  method SwapTails(m: array2<real>, i: nat, j: nat, col: nat)
    requires Shape(m) && i < N && j < N && col < N
    requires forall c :: 0 <= c < col ==> m[i, c] == 0.0 && m[j, c] == 0.0
    modifies m
    ensures Rows(m) == Swapped(old(Rows(m)), i, j)
  {
    for c := col to N + 1
      invariant forall r, k :: 0 <= r < N && 0 <= k <= N ==>
                  m[r, k] == (if col <= k < c && r == i then old(m[j, k])
                              else if col <= k < c && r == j then old(m[i, k]) else old(m[r, k]))
    {
      m[i, c], m[j, c] := m[j, c], m[i, c];
    }
    MatrixExtensional(Rows(m), Swapped(old(Rows(m)), i, j));
  }

  method ScaleTail(m: array2<real>, col: nat)
    requires Shape(m) && col < N && m[col, col] != 0.0
    requires forall c :: 0 <= c < col ==> m[col, c] == 0.0
    modifies m
    ensures Rows(m) == Normalized(old(Rows(m)), col)
  {
    var div := m[col, col];
    for c := col to N + 1
      invariant forall r, k :: 0 <= r < N && 0 <= k <= N ==>
                  m[r, k] == (if r == col && col <= k < c then old(m[r, k]) / div else old(m[r, k]))
    {
      m[col, c] := m[col, c] / div;
    }
    MatrixExtensional(Rows(m), Normalized(old(Rows(m)), col));
  }

  method ReduceTail(m: array2<real>, r: nat, col: nat)
    requires Shape(m) && col < N && r < N && r != col
    requires forall c :: 0 <= c < col ==> m[col, c] == 0.0
    modifies m
    ensures var rows := old(Rows(m)); Rows(m) == rows[r := Reduced(rows[r], rows[r][col], rows[col])]
  {
    var f := m[r, col];
    for c := col to N + 1
      invariant forall q, k :: 0 <= q < N && 0 <= k <= N ==>
                  m[q, k] == (if q == r && col <= k < c then old(m[q, k]) - f * old(m[col, k]) else old(m[q, k]))
    {
      m[r, c] := m[r, c] - f * m[col, c];
    }
    ghost var rows := old(Rows(m));
    MatrixExtensional(Rows(m), rows[r := Reduced(rows[r], rows[r][col], rows[col])]);
  }

  method ClearTail(m: array2<real>, r: nat, col: nat, ghost rows: Matrix)
    requires Shape(m) && col < N && r < N
    requires Rows(m) == ClearedUpTo(rows, col, r) && forall c :: 0 <= c < col ==> rows[col][c] == 0.0
    modifies m
    ensures Rows(m) == ClearedUpTo(rows, col, r + 1)
  {
    ClearedUpToStep(rows, col, r);
    if r != col {
      assert forall c :: 0 <= c < col ==> m[col, c] == Rows(m)[col][c];
      ReduceTail(m, r, col);
    }
  }

  method ClearTails(m: array2<real>, col: nat)
    requires Shape(m) && col < N
    requires forall c :: 0 <= c < col ==> Rows(m)[col][c] == 0.0
    modifies m
    ensures Rows(m) == Cleared(old(Rows(m)), col)
  {
    ghost var rows := Rows(m);
    assert ClearedUpTo(rows, col, 0) == rows;
    for r := 0 to N
      invariant Rows(m) == ClearedUpTo(rows, col, r)
    {
      ClearTail(m, r, col, rows);
    }
    assert ClearedUpTo(rows, col, N) == Cleared(rows, col);
  }

  method BuildAugmented(a: array2<real>, b: array<real>) returns (m: array2<real>)
    requires a.Length0 == N && a.Length1 == N && b.Length == N
    ensures fresh(m) && Shape(m) && Rows(m) == Augmented(a, b)
  {
    m := new real[N, N + 1];
    for i := 0 to N
      invariant forall r, k :: 0 <= r < i && 0 <= k <= N ==> m[r, k] == Augmented(a, b)[r][k]
    {
      for j := 0 to N
        invariant forall r, k :: 0 <= r < i && 0 <= k <= N ==> m[r, k] == Augmented(a, b)[r][k]
        invariant forall k :: 0 <= k < j ==> m[i, k] == a[i, k]
      {
        m[i, j] := a[i, j];
      }
      m[i, N] := b[i];
    }
    MatrixExtensional(Rows(m), Augmented(a, b));
  }

  /** One column; false, with nothing changed, when no entry can serve as pivot. */
  method EliminateColumnIn(m: array2<real>, col: nat) returns (ok: bool)
    requires Shape(m) && col < N && UnitColumns(Rows(m), col)
    modifies m
    ensures ok <==> !NoPivot(old(Rows(m)), col)
    ensures EliminateColumn(old(Rows(m)), col) == if ok then Some(Rows(m)) else None
  {
    ghost var before := Rows(m);
    var pivot := FindPivotIn(m, col);
    assert forall r :: 0 <= r < N ==> before[r][col] == m[r, col];
    PivotIsUnique(before, col, N, pivot);
    ColumnStopsIff(before, col);
    if Abs(m[pivot, col]) < PIVOT_EPS {
      return false;
    }
    if pivot != col {
      assert forall c :: 0 <= c < col ==> before[pivot][c] == 0.0 && before[col][c] == 0.0;
      SwapTails(m, pivot, col, col);
    }
    assert Rows(m) == PivotedUp(before, col);
    PivotRowIsClear(before, col);
    assert forall c :: 0 <= c <= col ==> Rows(m)[col][c] == m[col, c];
    ScaleTail(m, col);
    ClearTails(m, col);
    return true;
  }

  method ReadSolution(m: array2<real>) returns (x: seq<real>)
    requires Shape(m)
    ensures x == LastColumn(Rows(m))
  {
    x := [];
    for i := 0 to N
      invariant |x| == i && forall k :: 0 <= k < i ==> x[k] == Rows(m)[k][N]
    {
      x := x + [m[i, N]];
    }
  }

  method EliminateIn(m: array2<real>) returns (ok: bool)
    requires Shape(m)
    modifies m
    ensures ok == Solve(old(Rows(m))).Some?
    ensures ok ==> Eliminate(old(Rows(m)), N) == Some(Rows(m))
  {
    ghost var start := Rows(m);
    for col := 0 to N
      invariant Eliminate(start, col) == Some(Rows(m))
    {
      EliminateMakesUnit(start, col);
      ok := EliminateColumnIn(m, col);
      if !ok {
        EliminateStops(start, col);
        return;
      }
    }
    return true;
  }

  /** The same pivots, the same refusals and the same solution as the first solver: both equal Solve. */
  method Solve8(a: array2<real>, b: array<real>) returns (solution: Option<seq<real>>)
    requires a.Length0 == N && a.Length1 == N && b.Length == N
    ensures solution == Solve(Augmented(a, b))
  {
    var m := BuildAugmented(a, b);
    var ok := EliminateIn(m);
    if !ok {
      return None;
    }
    var x := ReadSolution(m);
    return Some(x);
  }
}
