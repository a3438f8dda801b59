/** Adjacency matrices, the phases of Warshall's algorithm, and what the phases mean in
    terms of walks in the input graph. Every version of the transitive closure in the
    repository is proved against the functions of this module. */
module Warshall {

  /** `m[i][j] == 1` says that the graph has an edge from vertex i to vertex j. */
  type Matrix = seq<seq<int>>

  ghost predicate Square(m: Matrix, n: nat) {
    |m| == n && forall i :: 0 <= i < n ==> |m[i]| == n
  }

  /** The program reads its input into a matrix of zeros and ones. */
  ghost predicate ZeroOne(m: Matrix, n: nat)
    requires Square(m, n)
  {
    forall i, j :: 0 <= i < n && 0 <= j < n ==> m[i][j] == 0 || m[i][j] == 1
  }

  // ----- one phase: paths may now also pass through vertex k

  function PhaseCell(m: Matrix, n: nat, k: nat, i: nat, j: nat): int
    requires Square(m, n) && k < n && i < n && j < n
  {
    if m[i][j] == 1 || (m[k][j] == 1 && m[i][k] == 1) then 1 else m[i][j]
  }

  function Phase(m: Matrix, n: nat, k: nat): (r: Matrix)
    requires Square(m, n) && k < n
    ensures Square(r, n)
    ensures forall i, j :: 0 <= i < n && 0 <= j < n ==> r[i][j] == PhaseCell(m, n, k, i, j)
  {
    seq(n, i requires 0 <= i < n => seq(n, j requires 0 <= j < n => PhaseCell(m, n, k, i, j)))
  }

  /** The matrix after the phases 0, ..., k-1. */
  function Phases(m: Matrix, n: nat, k: nat): (r: Matrix)
    requires Square(m, n) && k <= n
    ensures Square(r, n)
  {
    if k == 0 then m else Phase(Phases(m, n, k - 1), n, k - 1)
  }

  lemma {:induction false} PhasesKeepZeroOne(m: Matrix, n: nat, k: nat)
    requires Square(m, n) && ZeroOne(m, n) && k <= n
    ensures ZeroOne(Phases(m, n, k), n)
  {
    if k > 0 {
      PhasesKeepZeroOne(m, n, k - 1);
    }
  }

  // ----- walks

  /** p is a walk from i to j with at least one edge. */
  ghost predicate IsWalk(m: Matrix, n: nat, p: seq<nat>, i: nat, j: nat)
    requires Square(m, n)
  {
    && |p| >= 2 && p[0] == i && p[|p| - 1] == j
    && (forall a :: 0 <= a < |p| ==> p[a] < n)
    && (forall a :: 0 <= a < |p| - 1 ==> m[p[a]][p[a + 1]] == 1)
  }

  /** All vertices of p other than its ends are smaller than k. */
  ghost predicate InnerBelow(p: seq<nat>, k: nat) {
    forall a :: 0 < a < |p| - 1 ==> p[a] < k
  }

  ghost predicate ReachBelow(m: Matrix, n: nat, k: nat, i: nat, j: nat)
    requires Square(m, n)
  {
    exists p :: IsWalk(m, n, p, i, j) && InnerBelow(p, k)
  }

  ghost predicate Reach(m: Matrix, n: nat, i: nat, j: nat)
    requires Square(m, n)
  {
    exists p :: IsWalk(m, n, p, i, j)
  }

  lemma EdgeIsWalk(m: Matrix, n: nat, i: nat, j: nat)
    requires Square(m, n) && i < n && j < n
    ensures ReachBelow(m, n, 0, i, j) <==> m[i][j] == 1
  {
    if m[i][j] == 1 {
      var p := [i, j];
      assert IsWalk(m, n, p, i, j) && InnerBelow(p, 0);
    }
    if ReachBelow(m, n, 0, i, j) {
      var p :| IsWalk(m, n, p, i, j) && InnerBelow(p, 0);
      var second := p[1];
      assert |p| == 2;
      assert m[p[0]][p[0 + 1]] == 1;
    }
  }

  /** The first index at or after `from` where p holds k. */
  function FirstAt(p: seq<nat>, k: nat, from: nat): (r: nat)
    requires from <= |p|
    ensures from <= r <= |p|
    ensures r < |p| ==> p[r] == k
    ensures forall a :: from <= a < r ==> p[a] != k
    decreases |p| - from
  {
    if from == |p| || p[from] == k then from else FirstAt(p, k, from + 1)
  }

  /** The last index before `to` where p holds k, or `to` when there is none. */
  function LastBefore(p: seq<nat>, k: nat, to: nat): (r: int)
    requires to <= |p|
    ensures -1 <= r < to
    ensures r >= 0 ==> p[r] == k
    ensures forall a :: r < a < to ==> p[a] != k
  {
    if to == 0 then -1 else if p[to - 1] == k then to - 1 else LastBefore(p, k, to - 1)
  }

  lemma JoinWalks(m: Matrix, n: nat, p: seq<nat>, q: seq<nat>, i: nat, k: nat, j: nat)
    requires Square(m, n) && IsWalk(m, n, p, i, k) && IsWalk(m, n, q, k, j)
    ensures IsWalk(m, n, p + q[1..], i, j)
  {
    var w := p + q[1..];
    forall a | 0 <= a < |w| - 1 ensures m[w[a]][w[a + 1]] == 1 {
      if a < |p| - 1 {
        assert m[p[a]][p[a + 1]] == 1;
      } else {
        var b := a - (|p| - 1);
        assert w[a] == q[b] && w[a + 1] == q[b + 1];
        assert m[q[b]][q[b + 1]] == 1;
      }
    }
  }

  /** Two walks that meet in k, with inner vertices below k, make one with inner vertices at
      most k. */
  lemma JoinBelow(m: Matrix, n: nat, k: nat, i: nat, j: nat)
    requires Square(m, n) && k < n
    requires ReachBelow(m, n, k, i, k) && ReachBelow(m, n, k, k, j)
    ensures ReachBelow(m, n, k + 1, i, j)
  {
    var p :| IsWalk(m, n, p, i, k) && InnerBelow(p, k);
    var q :| IsWalk(m, n, q, k, j) && InnerBelow(q, k);
    JoinWalks(m, n, p, q, i, k, j);
    assert InnerBelow(p + q[1..], k + 1);
  }

  /** A walk with inner vertices at most k either avoids k inside, or splits at its first and
      last inner visits to k. */
  lemma SplitWalk(m: Matrix, n: nat, k: nat, i: nat, j: nat)
    requires Square(m, n) && k < n
    requires ReachBelow(m, n, k + 1, i, j)
    ensures ReachBelow(m, n, k, i, j) || (ReachBelow(m, n, k, i, k) && ReachBelow(m, n, k, k, j))
  {
    var p :| IsWalk(m, n, p, i, j) && InnerBelow(p, k + 1);
    var a := FirstAt(p, k, 1);
    if a >= |p| - 1 {
      assert InnerBelow(p, k);
    } else {
      var b := LastBefore(p, k, |p| - 1);
      assert 1 <= a <= b;
      var head, tail := p[..a + 1], p[b..];
      forall x | 0 <= x < |tail| - 1 ensures m[tail[x]][tail[x + 1]] == 1 {
        assert m[p[b + x]][p[b + x + 1]] == 1;
      }
      assert IsWalk(m, n, head, i, k) && InnerBelow(head, k);
      assert IsWalk(m, n, tail, k, j) && InnerBelow(tail, k);
    }
  }

  lemma WidenReach(m: Matrix, n: nat, k: nat, i: nat, j: nat)
    requires Square(m, n) && ReachBelow(m, n, k, i, j)
    ensures ReachBelow(m, n, k + 1, i, j)
  {
    var p :| IsWalk(m, n, p, i, j) && InnerBelow(p, k);
    assert InnerBelow(p, k + 1);
  }

  /** Allowing k inside a walk adds exactly the walks that go to k and on from k. */
  lemma ReachStep(m: Matrix, n: nat, k: nat, i: nat, j: nat)
    requires Square(m, n) && k < n
    ensures ReachBelow(m, n, k + 1, i, j) <==>
            ReachBelow(m, n, k, i, j) || (ReachBelow(m, n, k, i, k) && ReachBelow(m, n, k, k, j))
  {
    if ReachBelow(m, n, k + 1, i, j) {
      SplitWalk(m, n, k, i, j);
    }
    if ReachBelow(m, n, k, i, j) {
      WidenReach(m, n, k, i, j);
    }
    if ReachBelow(m, n, k, i, k) && ReachBelow(m, n, k, k, j) {
      JoinBelow(m, n, k, i, j);
    }
  }

  /** Warshall's invariant: after the phases 0, ..., k-1 an entry is 1 exactly when a
      nonempty walk exists whose inner vertices are all smaller than k. */
  lemma {:induction false} PhasesMeanWalks(m: Matrix, n: nat, k: nat, i: nat, j: nat)
    requires Square(m, n) && k <= n && i < n && j < n
    ensures Phases(m, n, k)[i][j] == 1 <==> ReachBelow(m, n, k, i, j)
    decreases k
  {
    if k == 0 {
      EdgeIsWalk(m, n, i, j);
    } else {
      var before := Phases(m, n, k - 1);
      assert before[i][j] == 1 <==> ReachBelow(m, n, k - 1, i, j) by { PhasesMeanWalks(m, n, k - 1, i, j); }
      assert before[i][k - 1] == 1 <==> ReachBelow(m, n, k - 1, i, k - 1) by { PhasesMeanWalks(m, n, k - 1, i, k - 1); }
      assert before[k - 1][j] == 1 <==> ReachBelow(m, n, k - 1, k - 1, j) by { PhasesMeanWalks(m, n, k - 1, k - 1, j); }
      assert Phases(m, n, k)[i][j] == PhaseCell(before, n, k - 1, i, j);
      ReachStep(m, n, k - 1, i, j);
    }
  }

  /** All n phases together decide reachability by a nonempty walk. */
  lemma ClosureIsReachability(m: Matrix, n: nat, i: nat, j: nat)
    requires Square(m, n) && i < n && j < n
    ensures Phases(m, n, n)[i][j] == 1 <==> Reach(m, n, i, j)
  {
    PhasesMeanWalks(m, n, n, i, j);
    if Reach(m, n, i, j) {
      var p :| IsWalk(m, n, p, i, j);
      assert InnerBelow(p, n);
    }
  }

  // ----- the closure is the least transitive relation that contains the edges

  ghost predicate Transitive(m: Matrix, n: nat)
    requires Square(m, n)
  {
    forall i, j, h :: 0 <= i < n && 0 <= j < n && 0 <= h < n && m[i][h] == 1 && m[h][j] == 1 ==> m[i][j] == 1
  }

  ghost predicate Contains(m: Matrix, sub: Matrix, n: nat)
    requires Square(m, n) && Square(sub, n)
  {
    forall i, j :: 0 <= i < n && 0 <= j < n && sub[i][j] == 1 ==> m[i][j] == 1
  }

  lemma {:induction false} WalkInTransitive(m: Matrix, n: nat, t: Matrix, p: seq<nat>, i: nat, j: nat)
    requires Square(m, n) && Square(t, n) && Transitive(t, n) && Contains(t, m, n)
    requires IsWalk(m, n, p, i, j)
    ensures t[i][j] == 1
    decreases |p|
  {
    assert m[p[0]][p[0 + 1]] == 1;
    if |p| > 2 {
      var q := p[1..];
      forall a | 0 <= a < |q| - 1 ensures m[q[a]][q[a + 1]] == 1 {
        assert m[p[a + 1]][p[a + 1 + 1]] == 1;
      }
      WalkInTransitive(m, n, t, q, p[1], j);
    }
  }

  lemma ClosureIsTransitive(m: Matrix, n: nat)
    requires Square(m, n)
    ensures Transitive(Phases(m, n, n), n)
  {
    var r := Phases(m, n, n);
    forall i, j, h | 0 <= i < n && 0 <= j < n && 0 <= h < n && r[i][h] == 1 && r[h][j] == 1
      ensures r[i][j] == 1
    {
      ClosureIsReachability(m, n, i, h);
      ClosureIsReachability(m, n, h, j);
      var p :| IsWalk(m, n, p, i, h);
      var q :| IsWalk(m, n, q, h, j);
      JoinWalks(m, n, p, q, i, h, j);
      ClosureIsReachability(m, n, i, j);
    }
  }

  /** The closure contains the input, is transitive, and lies inside every transitive
      relation that contains the input. */
  lemma ClosureIsLeastTransitive(m: Matrix, n: nat)
    requires Square(m, n)
    ensures Transitive(Phases(m, n, n), n)
    ensures Contains(Phases(m, n, n), m, n)
    ensures forall t :: Square(t, n) && Transitive(t, n) && Contains(t, m, n) ==> Contains(t, Phases(m, n, n), n)
  {
    var r := Phases(m, n, n);
    ClosureIsTransitive(m, n);
    forall i, j | 0 <= i < n && 0 <= j < n && m[i][j] == 1 ensures r[i][j] == 1 {
      ClosureIsReachability(m, n, i, j);
      assert IsWalk(m, n, [i, j], i, j);
    }
    forall t, i, j | Square(t, n) && Transitive(t, n) && Contains(t, m, n) && 0 <= i < n && 0 <= j < n && r[i][j] == 1
      ensures t[i][j] == 1
    {
      ClosureIsReachability(m, n, i, j);
      var p :| IsWalk(m, n, p, i, j);
      WalkInTransitive(m, n, t, p, i, j);
    }
  }

  // ----- the sequential program

  ghost function Contents(a: array2<int>): (m: Matrix)
    reads a
    ensures |m| == a.Length0
    ensures forall i :: 0 <= i < a.Length0 ==> |m[i]| == a.Length1
    ensures forall i, j :: 0 <= i < a.Length0 && 0 <= j < a.Length1 ==> m[i][j] == a[i, j]
  {
    seq(a.Length0, i requires 0 <= i < a.Length0 reads a =>
      seq(a.Length1, j requires 0 <= j < a.Length1 reads a => a[i, j]))
  }

  lemma SameMatrix(a: Matrix, b: Matrix, n: nat)
    requires Square(a, n) && Square(b, n)
    requires forall i, j :: 0 <= i < n && 0 <= j < n ==> a[i][j] == b[i][j]
    ensures a == b
  {
    forall i | 0 <= i < n ensures a[i] == b[i] {
      assert forall j :: 0 <= j < n ==> a[i][j] == b[i][j];
    }
  }

  /** One row of one phase, in place. When i == k or j == k the write changes nothing, so the
      cells of row k and column k that the phase reads stay what they were. */
  method RelaxRow(n: nat, mat: array2<int>, k: nat, i: nat, ghost start: Matrix)
    requires mat.Length0 == n && mat.Length1 == n && k < n && i < n
    requires Square(start, n)
    requires forall j :: 0 <= j < n ==> mat[i, j] == start[i][j]
    requires forall j :: 0 <= j < n ==> mat[k, j] == PhaseCell(start, n, k, k, j)
    modifies mat
    ensures forall j :: 0 <= j < n ==> mat[i, j] == PhaseCell(start, n, k, i, j)
    ensures forall r, j :: 0 <= r < n && 0 <= j < n && r != i ==> mat[r, j] == old(mat[r, j])
  {
    if mat[i, k] == 1 {
      for j := 0 to n
        invariant forall r, h :: 0 <= r < n && 0 <= h < n && r != i ==> mat[r, h] == old(mat[r, h])
        invariant forall h :: 0 <= h < j ==> mat[i, h] == PhaseCell(start, n, k, i, h)
        invariant forall h :: j <= h < n ==> mat[i, h] == start[i][h]
      {
        if mat[k, j] == 1 {
          mat[i, j] := 1;
        }
      }
    }
  }

  /** The in-place algorithm, on any matrix of integers: entries equal to 1 are the edges. */
  method Algorithm(n: nat, mat: array2<int>)
    requires mat.Length0 == n && mat.Length1 == n
    modifies mat
    ensures Contents(mat) == Phases(old(Contents(mat)), n, n)
    ensures forall i, j :: 0 <= i < n && 0 <= j < n ==> (mat[i, j] == 1 <==> Reach(old(Contents(mat)), n, i, j))
    ensures forall i, j :: 0 <= i < n && 0 <= j < n && mat[i, j] != 1 ==> mat[i, j] == old(mat[i, j])
  {
    ghost var m0 := Contents(mat);
    for k := 0 to n
      invariant Contents(mat) == Phases(m0, n, k)
      invariant forall i, j :: 0 <= i < n && 0 <= j < n && mat[i, j] != 1 ==> mat[i, j] == m0[i][j]
    {
      ghost var start := Phases(m0, n, k);
      for i := 0 to n
        invariant forall r, j :: 0 <= r < i && 0 <= j < n ==> mat[r, j] == PhaseCell(start, n, k, r, j)
        invariant forall r, j :: i <= r < n && 0 <= j < n ==> mat[r, j] == start[r][j]
      {
        RelaxRow(n, mat, k, i, start);
      }
      SameMatrix(Contents(mat), Phases(m0, n, k + 1), n);
    }
    forall i, j | 0 <= i < n && 0 <= j < n ensures mat[i, j] == 1 <==> Reach(m0, n, i, j) {
      ClosureIsReachability(m0, n, i, j);
      assert Contents(mat)[i][j] == mat[i, j];
    }
  }
}
