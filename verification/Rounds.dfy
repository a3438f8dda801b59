/** What one double-buffered round of a parallel version computes. The parent and the workers
    share `prev`, read by the workers, and `curr`, written by them and copied back by the
    parent after each round. `curr` starts as zeros and is never cleared. */
module Rounds {
  import opened Warshall

  /** Who takes a step. */
  datatype Actor = TheParent | TheWorker(id: nat)

  datatype Input = Input(n: nat, matrix: Matrix)

  ghost predicate ValidInput(g: Input) {
    Square(g.matrix, g.n) && ZeroOne(g.matrix, g.n)
  }

  function Zeros(n: nat): (m: Matrix)
    ensures Square(m, n)
    ensures forall i, j :: 0 <= i < n && 0 <= j < n ==> m[i][j] == 0
  {
    seq(n, i => seq(n, j => 0))
  }

  /** `prev` when round k starts. */
  function Before(g: Input, k: nat): (m: Matrix)
    requires Square(g.matrix, g.n) && k <= g.n
    ensures Square(m, g.n)
  {
    Phases(g.matrix, g.n, k)
  }

  /** `curr` when round k starts: all zero at first, later what the last round left there. */
  function Leftover(g: Input, k: nat): (m: Matrix)
    requires Square(g.matrix, g.n) && k <= g.n
    ensures Square(m, g.n)
  {
    if k == 0 then Zeros(g.n) else Phases(g.matrix, g.n, k)
  }

  /** The value a worker leaves in a cell of `curr`: it writes 1 when the test on `prev`
      succeeds and leaves the cell alone otherwise. */
  function Relaxed(prev: Matrix, old_: int, n: nat, k: nat, i: nat, j: nat): int
    requires Square(prev, n) && k < n && i < n && j < n
  {
    if prev[i][j] == 1 || (prev[k][j] == 1 && prev[i][k] == 1) then 1 else old_
  }

  /** One double-buffered round computes one phase of the in-place algorithm, although
      `curr` is never cleared between rounds. */
  lemma RoundIsPhase(g: Input, k: nat, i: nat, j: nat)
    requires ValidInput(g) && k < g.n && i < g.n && j < g.n
    ensures Relaxed(Before(g, k), Leftover(g, k)[i][j], g.n, k, i, j) == Before(g, k + 1)[i][j]
  {
    PhasesKeepZeroOne(g.matrix, g.n, k);
    var before := Before(g, k);
    assert before[i][j] == 0 || before[i][j] == 1;
    assert Before(g, k + 1) == Phase(before, g.n, k);
  }

  /** `curr` after a worker has tested cell (row, col) of round k. Out of range, where no run ever
      gets, the model leaves it alone. */
  function RelaxCell(prev: Matrix, curr: Matrix, n: nat, k: nat, row: nat, col: nat): (m: Matrix)
    requires Square(prev, n) && Square(curr, n)
    ensures Square(m, n)
  {
    if row < n && col < n && k < n then
      curr[row := curr[row][col := Relaxed(prev, curr[row][col], n, k, row, col)]]
    else
      curr
  }

  /** The parent is copying `after` over `before`, row by row, and is at cell (row, col). */
  ghost predicate CopiedUpTo(m: Matrix, before: Matrix, after: Matrix, n: nat, row: nat, col: nat)
    requires Square(m, n) && Square(before, n) && Square(after, n)
  {
    forall i, j :: 0 <= i < n && 0 <= j < n ==>
      m[i][j] == (if i < row || (i == row && j < col) then after else before)[i][j]
  }

  lemma CopyEnds(m: Matrix, before: Matrix, after: Matrix, n: nat)
    requires Square(m, n) && Square(before, n) && Square(after, n) && CopiedUpTo(m, before, after, n, n, 0)
    ensures m == after
  {
    SameMatrix(m, after, n);
  }

  /** m is the matrix of the sequential algorithm, and decides reachability by a nonempty walk. */
  ghost predicate IsClosureOf(m: Matrix, g: Input)
    requires Square(g.matrix, g.n)
  {
    && m == Phases(g.matrix, g.n, g.n)
    && forall i, j :: 0 <= i < g.n && 0 <= j < g.n ==> (m[i][j] == 1 <==> Reach(g.matrix, g.n, i, j))
  }

  lemma LastRoundIsClosure(g: Input)
    requires ValidInput(g)
    ensures IsClosureOf(Before(g, g.n), g) && IsClosureOf(Leftover(g, g.n), g)
  {
    forall i, j | 0 <= i < g.n && 0 <= j < g.n
      ensures Before(g, g.n)[i][j] == 1 <==> Reach(g.matrix, g.n, i, j)
    {
      ClosureIsReachability(g.matrix, g.n, i, j);
    }
    assert Leftover(g, g.n) == Before(g, g.n);
  }

  // ----- the loops themselves, on arrays

  /** The worker's loop over one row. */
  method ComputeRow(n: nat, prev: array2<int>, curr: array2<int>, k: nat, row: nat)
    requires prev.Length0 == prev.Length1 == curr.Length0 == curr.Length1 == n
    requires prev != curr && k < n && row < n
    modifies curr
    ensures forall j :: 0 <= j < n ==> curr[row, j] == Relaxed(Contents(prev), old(curr[row, j]), n, k, row, j)
    ensures forall i, j :: 0 <= i < n && 0 <= j < n && i != row ==> curr[i, j] == old(curr[i, j])
  {
    for j := 0 to n
      invariant forall h :: 0 <= h < j ==> curr[row, h] == Relaxed(Contents(prev), old(curr[row, h]), n, k, row, h)
      invariant forall i, h :: 0 <= i < n && 0 <= h < n && (i != row || h >= j) ==> curr[i, h] == old(curr[i, h])
    {
      if prev[row, j] == 1 || (prev[k, j] == 1 && prev[row, k] == 1) {
        curr[row, j] := 1;
      }
    }
  }

  /** The parent's copy after each round. */
  method CopyBack(n: nat, prev: array2<int>, curr: array2<int>)
    requires prev.Length0 == prev.Length1 == curr.Length0 == curr.Length1 == n && prev != curr
    modifies prev
    ensures Contents(prev) == Contents(curr)
  {
    ghost var before, after := Contents(prev), Contents(curr);
    for row := 0 to n
      invariant CopiedUpTo(Contents(prev), before, after, n, row, 0)
    {
      for col := 0 to n
        invariant CopiedUpTo(Contents(prev), before, after, n, row, col)
      {
        prev[row, col] := curr[row, col];
      }
    }
    CopyEnds(Contents(prev), before, after, n);
  }

  /** One round with a crew of one: compute every row, then copy back. With `curr` as the last
      round left it, the round is one phase of the in-place algorithm. */
  method SoloRound(g: Input, prev: array2<int>, curr: array2<int>, k: nat)
    requires ValidInput(g) && k < g.n && prev != curr
    requires prev.Length0 == prev.Length1 == curr.Length0 == curr.Length1 == g.n
    requires Contents(prev) == Before(g, k) && Contents(curr) == Leftover(g, k)
    modifies prev, curr
    ensures Contents(prev) == Before(g, k + 1) && Contents(curr) == Leftover(g, k + 1)
  {
    ghost var before, leftover := Contents(prev), Contents(curr);
    for row := 0 to g.n
      invariant Contents(prev) == before
      invariant forall i, j :: 0 <= i < row && 0 <= j < g.n ==>
                  curr[i, j] == Relaxed(before, leftover[i][j], g.n, k, i, j)
      invariant forall i, j :: row <= i < g.n && 0 <= j < g.n ==> curr[i, j] == leftover[i][j]
    {
      ComputeRow(g.n, prev, curr, k, row);
    }
    forall i, j | 0 <= i < g.n && 0 <= j < g.n ensures curr[i, j] == Before(g, k + 1)[i][j] {
      RoundIsPhase(g, k, i, j);
    }
    SameMatrix(Contents(curr), Before(g, k + 1), g.n);
    CopyBack(g.n, prev, curr);
  }
}
