/** Where the YOLO plugin's threads write: one output row per grid cell, box and tensor, and a launch grid that visits
    every one of them. */
module YoloOutput {

  datatype Grid = Grid(x: nat, y: nat, boxes: nat)

  /** A box of a cell of a tensor. */
  datatype Cell = Cell(tensor: nat, z: nat, y: nat, x: nat)

  function RowsOf(g: Grid): nat { g.boxes * g.y * g.x }

  /** The accumulated offset of the first n tensors. */
  function Offset(grids: seq<Grid>, n: nat): nat
    requires n <= |grids|
  {
    if n == 0 then 0 else Offset(grids, n - 1) + RowsOf(grids[n - 1])
  }

  function OutputSize(grids: seq<Grid>): nat { Offset(grids, |grids|) }

  /** The offset handed to each tensor's kernel, accumulated over the tensors, and the rows of one image. */
  method TensorOffsets(grids: seq<Grid>) returns (offsets: seq<nat>, outputSize: nat)
    ensures |offsets| == |grids| && forall i :: 0 <= i < |grids| ==> offsets[i] == Offset(grids, i)
    ensures outputSize == OutputSize(grids)
  {
    offsets, outputSize := [], 0;
    for i := 0 to |grids|
      invariant outputSize == Offset(grids, i)
      invariant |offsets| == i && forall j :: 0 <= j < i ==> offsets[j] == Offset(grids, j)
    {
      offsets := offsets + [outputSize];
      outputSize := outputSize + RowsOf(grids[i]);
    }
  }

  predicate InGrid(g: Grid, z: nat, y: nat, x: nat) { x < g.x && y < g.y && z < g.boxes }

  predicate ValidCell(grids: seq<Grid>, c: Cell) { c.tensor < |grids| && InGrid(grids[c.tensor], c.z, c.y, c.x) }

  function LocalRow(g: Grid, z: nat, y: nat, x: nat): nat { g.x * g.y * z + (y * g.x + x) }

  /** The row that the thread of a cell writes. */
  function Row(grids: seq<Grid>, c: Cell): nat
    requires c.tensor < |grids|
  {
    LocalRow(grids[c.tensor], c.z, c.y, c.x) + Offset(grids, c.tensor)
  }

  // ---------------------------------------------------------------------------------------------
  // Rows within a tensor

  lemma DivMod(q: nat, r: nat, n: nat)
    requires r < n
    ensures (n * q + r) / n == q && (n * q + r) % n == r
  {
    var m := n * q + r;
    SameQuotient(n, q, r, m / n, m % n);
  }

  lemma SameQuotient(n: nat, q: nat, r: nat, q': nat, r': nat)
    requires r < n && r' < n && n * q + r == n * q' + r'
    ensures q == q' && r == r'
  {
    if q < q' {
      Multiples(n, q, q');
    } else if q' < q {
      Multiples(n, q', q);
    }
  }

  lemma Multiples(n: nat, q: nat, q': nat)
    requires q < q'
    ensures n * q + n <= n * q'
  {
    assert n * q' == n * q + n + n * (q' - q - 1);
    assert n * (q' - q - 1) >= 0;
  }

  lemma Digits(a: nat, b: nat, x: nat, y: nat)
    requires x < a && y < b
    ensures y * a + x < a * b
  {
    assert (b - 1 - y) * a >= 0;
    assert (y + 1) * a <= b * a;
  }

  function LocalCell(g: Grid, r: nat): (nat, nat, nat)
    requires g.x > 0 && g.y > 0
  {
    var inner := r % (g.x * g.y);
    (r / (g.x * g.y), inner / g.x, inner % g.x)
  }

  /** The mixed-radix digits of a row come back. */
  lemma LocalCellOfRow(g: Grid, z: nat, y: nat, x: nat)
    requires InGrid(g, z, y, x)
    ensures LocalRow(g, z, y, x) < RowsOf(g)
    ensures LocalCell(g, LocalRow(g, z, y, x)) == (z, y, x)
  {
    var n := g.x * g.y;
    Digits(g.x, g.y, x, y);
    DivMod(z, y * g.x + x, n);
    DivMod(y, x, g.x);
    Digits(n, g.boxes, y * g.x + x, z);
    assert RowsOf(g) == n * g.boxes;
  }

  lemma LocalRowOfCell(g: Grid, r: nat)
    requires r < RowsOf(g)
    ensures g.x > 0 && g.y > 0
    ensures var (z, y, x) := LocalCell(g, r); InGrid(g, z, y, x) && LocalRow(g, z, y, x) == r
  {
    assert g.x > 0 && g.y > 0;
    var n := g.x * g.y;
    assert n > 0;
    assert RowsOf(g) == n * g.boxes;
    assert r == n * (r / n) + r % n;
  }

  // ---------------------------------------------------------------------------------------------
  // Rows of the whole output

  lemma {:induction false} OffsetGrows(grids: seq<Grid>, i: nat, j: nat)
    requires i <= j <= |grids|
    ensures Offset(grids, i) <= Offset(grids, j)
    ensures i < j ==> Offset(grids, i) + RowsOf(grids[i]) <= Offset(grids, j)
  {
    if i < j {
      OffsetGrows(grids, i, j - 1);
    }
  }

  /** The tensor whose range of rows holds row r. */
  function TensorOf(grids: seq<Grid>, n: nat, r: nat): (i: nat)
    requires n <= |grids| && r < Offset(grids, n)
    ensures i < n && Offset(grids, i) <= r < Offset(grids, i) + RowsOf(grids[i])
  {
    if r >= Offset(grids, n - 1) then n - 1 else TensorOf(grids, n - 1, r)
  }

  /** The cell that a row belongs to. */
  function CellOf(grids: seq<Grid>, r: nat): (c: Cell)
    requires r < OutputSize(grids)
    ensures ValidCell(grids, c) && Row(grids, c) == r
  {
    var i := TensorOf(grids, |grids|, r);
    LocalRowOfCell(grids[i], r - Offset(grids, i));
    var (z, y, x) := LocalCell(grids[i], r - Offset(grids, i));
    Cell(i, z, y, x)
  }

  /** Rows are a bijection: every valid cell has its own row below the output size, and gets back from it. */
  lemma CellOfRow(grids: seq<Grid>, c: Cell)
    requires ValidCell(grids, c)
    ensures Row(grids, c) < OutputSize(grids) && CellOf(grids, Row(grids, c)) == c
  {
    var g, r := grids[c.tensor], Row(grids, c);
    LocalCellOfRow(g, c.z, c.y, c.x);
    OffsetGrows(grids, c.tensor, |grids|);
    var i := TensorOf(grids, |grids|, r);
    if i < c.tensor {
      OffsetGrows(grids, i, c.tensor);
    } else if c.tensor < i {
      OffsetGrows(grids, c.tensor, i);
    }
  }

  lemma RowsAreInjective(grids: seq<Grid>, c: Cell, d: Cell)
    requires ValidCell(grids, c) && ValidCell(grids, d) && Row(grids, c) == Row(grids, d)
    ensures c == d
  {
    CellOfRow(grids, c);
    CellOfRow(grids, d);
  }

  /** The order of tensors, in each of boxes, in each of grid rows, in each of cells from left to right. */
  predicate Before(c: Cell, d: Cell) {
    || c.tensor < d.tensor
    || (c.tensor == d.tensor && (c.z < d.z || (c.z == d.z && (c.y < d.y || (c.y == d.y && c.x < d.x)))))
  }

  lemma LocalOrder(g: Grid, z: nat, y: nat, x: nat, z': nat, y': nat, x': nat)
    requires InGrid(g, z, y, x) && InGrid(g, z', y', x')
    requires z < z' || (z == z' && (y < y' || (y == y' && x < x')))
    ensures LocalRow(g, z, y, x) < LocalRow(g, z', y', x')
  {
    Digits(g.x, g.y, x, y);
    if z < z' {
      Multiples(g.x * g.y, z, z');
    } else if y < y' {
      Multiples(g.x, y, y');
    }
  }

  /** The rows come in that order: with the bijection, the row of a cell is the number of valid cells before it. */
  lemma RowsAreInOrder(grids: seq<Grid>, c: Cell, d: Cell)
    requires ValidCell(grids, c) && ValidCell(grids, d)
    ensures Before(c, d) <==> Row(grids, c) < Row(grids, d)
  {
    if Before(c, d) {
      RowsFollow(grids, c, d);
    }
    if Before(d, c) {
      RowsFollow(grids, d, c);
    }
  }

  lemma RowsFollow(grids: seq<Grid>, c: Cell, d: Cell)
    requires ValidCell(grids, c) && ValidCell(grids, d) && Before(c, d)
    ensures Row(grids, c) < Row(grids, d)
  {
    if c.tensor < d.tensor {
      LocalCellOfRow(grids[c.tensor], c.z, c.y, c.x);
      OffsetGrows(grids, c.tensor, d.tensor);
    } else {
      LocalOrder(grids[c.tensor], c.z, c.y, c.x, d.z, d.y, d.x);
    }
  }

  // ---------------------------------------------------------------------------------------------
  // The launch grid

  const THREADS_X: nat := 16
  const THREADS_Y: nat := 16
  const THREADS_Z: nat := 4

  datatype Thread = Thread(tensor: nat, blockZ: nat, blockY: nat, blockX: nat, threadZ: nat, threadY: nat, threadX: nat)

  /** The threads launched for the tensors. */
  predicate Launched(grids: seq<Grid>, t: Thread) {
    && t.tensor < |grids|
    && t.blockX < grids[t.tensor].x / THREADS_X + 1 && t.threadX < THREADS_X
    && t.blockY < grids[t.tensor].y / THREADS_Y + 1 && t.threadY < THREADS_Y
    && t.blockZ < grids[t.tensor].boxes / THREADS_Z + 1 && t.threadZ < THREADS_Z
  }

  function CellOfThread(t: Thread): Cell {
    Cell(t.tensor, t.blockZ * THREADS_Z + t.threadZ, t.blockY * THREADS_Y + t.threadY, t.blockX * THREADS_X + t.threadX)
  }

  /** The thread past the guard of the kernel that works on a cell. */
  function ThreadOf(c: Cell): Thread {
    Thread(c.tensor, c.z / THREADS_Z, c.y / THREADS_Y, c.x / THREADS_X, c.z % THREADS_Z, c.y % THREADS_Y, c.x % THREADS_X)
  }

  /** Each valid cell is worked on by exactly one launched thread. */
  lemma OneThreadPerCell(grids: seq<Grid>, c: Cell, t: Thread)
    requires ValidCell(grids, c)
    ensures Launched(grids, ThreadOf(c)) && CellOfThread(ThreadOf(c)) == c
    ensures Launched(grids, t) && CellOfThread(t) == c ==> t == ThreadOf(c)
  {
  }

  // ---------------------------------------------------------------------------------------------
  // Running the threads

  /** The best class of a box: the first one with the largest probability, none when no probability is positive. */
  method BestClass(probs: seq<real>) returns (maxProb: real, maxIndex: int)
    ensures maxIndex == -1 ==> maxProb == 0.0 && forall i :: 0 <= i < |probs| ==> probs[i] <= 0.0
    ensures maxIndex != -1 ==> 0 <= maxIndex < |probs| && maxProb == probs[maxIndex] > 0.0
    ensures forall i :: 0 <= i < |probs| ==> probs[i] <= maxProb
    ensures forall i :: 0 <= i < maxIndex ==> probs[i] < maxProb
  {
    maxProb, maxIndex := 0.0, -1;
    for i := 0 to |probs|
      invariant maxIndex == -1 ==> maxProb == 0.0
      invariant maxIndex != -1 ==> 0 <= maxIndex < i && maxProb == probs[maxIndex] > 0.0
      invariant forall j :: 0 <= j < i ==> probs[j] <= maxProb
      invariant forall j :: 0 <= j < maxIndex ==> probs[j] < maxProb
    {
      if probs[i] > maxProb {
        maxProb, maxIndex := probs[i], i;
      }
    }
  }

  /** One thread: it returns at the guard or writes the row of its cell. */
  function ThreadRun<T>(grids: seq<Grid>, value: Cell -> T, output: seq<T>, t: Thread): (r: seq<T>)
    requires |output| == OutputSize(grids) && Launched(grids, t)
    ensures |r| == |output|
  {
    var c := CellOfThread(t);
    if !ValidCell(grids, c) then output
    else
      CellOfRow(grids, c);
      output[Row(grids, c) := value(c)]
  }

  function RunAll<T>(grids: seq<Grid>, value: Cell -> T, output: seq<T>, schedule: seq<Thread>): (r: seq<T>)
    requires |output| == OutputSize(grids) && forall t :: t in schedule ==> Launched(grids, t)
    ensures |r| == |output|
  {
    if schedule == [] then output
    else
      var n := |schedule| - 1;
      ThreadRun(grids, value, RunAll(grids, value, output, schedule[..n]), schedule[n])
  }

  lemma {:induction false} WrittenRows<T>(grids: seq<Grid>, value: Cell -> T, output: seq<T>, schedule: seq<Thread>, r: nat)
    requires |output| == OutputSize(grids) && (forall t :: t in schedule ==> Launched(grids, t)) && r < |output|
    ensures RunAll(grids, value, output, schedule)[r] ==
              if ThreadOf(CellOf(grids, r)) in schedule then value(CellOf(grids, r)) else output[r]
  {
    if schedule == [] {
    } else {
      var n := |schedule| - 1;
      var t, c := schedule[n], CellOfThread(schedule[n]);
      assert schedule == schedule[..n] + [t];
      WrittenRows(grids, value, output, schedule[..n], r);
      OneThreadPerCell(grids, CellOf(grids, r), t);
      if ValidCell(grids, c) {
        CellOfRow(grids, c);
      }
    }
  }

  /** In whatever order the launched threads run, every row ends up with the value of its own cell: nothing of the old
      output is left, and no thread writes into the row of another cell. */
  lemma OutputIsComplete<T>(grids: seq<Grid>, value: Cell -> T, output: seq<T>, schedule: seq<Thread>)
    requires |output| == OutputSize(grids) && forall t :: t in schedule <==> Launched(grids, t)
    ensures forall r :: 0 <= r < |output| ==> RunAll(grids, value, output, schedule)[r] == value(CellOf(grids, r))
  {
    forall r | 0 <= r < |output| ensures RunAll(grids, value, output, schedule)[r] == value(CellOf(grids, r)) {
      WrittenRows(grids, value, output, schedule, r);
      OneThreadPerCell(grids, CellOf(grids, r), ThreadOf(CellOf(grids, r)));
    }
  }
}
