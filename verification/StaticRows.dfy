/** The two versions that own rows statically, as a transition system with one step for each
    shared access: row i belongs to worker i % crew, and each round ends at a barrier made of one pair of
    semaphores (or of mutexes used as such) for each worker. The thread version also joins its threads,
    which `joins` selects. */
module StaticRows {
  import opened Ranks
  import opened Rounds
  import opened Warshall

  datatype Config = Config(input: Input, crew: nat, joins: bool)

  /** Each worker keeps its own round number k. */
  datatype Worker =
    | RoundTest(k: nat)
    | AwaitRelease(k: nat)            // wait on p2c[t]
    | RowTest(k: nat, row: nat)
    | Cell(k: nat, row: nat, col: nat)
    | Report(k: nat)                  // post c2p[t]
    | Exited

  datatype Parent =
    | LoopTest
    | Release(next: nat)              // post p2c[next]
    | Collect(next: nat)              // wait on c2p[next]
    | Copy(row: nat, col: nat)
    | Advance
    | Join(next: nat)
    | Finished

  datatype State = State(
    round: nat, p2c: seq<nat>, c2p: seq<nat>,
    prev: Matrix, curr: Matrix,
    workers: seq<Worker>, parent: Parent)

  ghost predicate ValidConfig(c: Config) {
    ValidInput(c.input) && c.crew >= 1
  }

  ghost predicate Shape(c: Config, s: State) {
    && |s.p2c| == c.crew && |s.c2p| == c.crew && |s.workers| == c.crew
    && Square(s.prev, c.input.n) && Square(s.curr, c.input.n)
  }

  ghost predicate Init(c: Config, s: State) {
    && Shape(c, s)
    && s.round == 0 && s.parent == LoopTest
    && s.prev == c.input.matrix && s.curr == Zeros(c.input.n)
    && forall t :: 0 <= t < c.crew ==> s.p2c[t] == 0 && s.c2p[t] == 0 && s.workers[t] == RoundTest(0)
  }

  /** The worker whose stride t, t + crew, t + 2 * crew, ... meets row i. */
  function Owner(crew: nat, i: nat): (t: nat)
    requires crew >= 1
    ensures t < crew && t <= i
  {
    if i < crew then i else Owner(crew, i - crew)
  }

  // ----- the worker's steps

  predicate WorkerEnabled(c: Config, s: State, t: nat)
    requires |s.workers| == |s.p2c| == c.crew && t < c.crew
  {
    match s.workers[t]
    case AwaitRelease(_) => s.p2c[t] > 0
    case Exited => false
    case _ => true
  }

  function Goto(s: State, t: nat, w: Worker): State
    requires t < |s.workers|
  {
    s.(workers := s.workers[t := w])
  }

  /** Whether a worker at a cell stays inside the matrices; it always does, see Isolation. */
  predicate CellInRange(c: Config, k: nat, row: nat, col: nat) {
    row < c.input.n && col < c.input.n && k < c.input.n
  }

  function WorkerStep(c: Config, s: State, t: nat): (s': State)
    requires Shape(c, s) && t < c.crew && WorkerEnabled(c, s, t)
    ensures Shape(c, s')
  {
    var n := c.input.n;
    match s.workers[t]
    case RoundTest(k) => if k < n then Goto(s, t, AwaitRelease(k)) else Goto(s, t, Exited)
    case AwaitRelease(k) => Goto(s, t, RowTest(k, t)).(p2c := s.p2c[t := s.p2c[t] - 1])
    case RowTest(k, row) => if row < n then Goto(s, t, Cell(k, row, 0)) else Goto(s, t, Report(k))
    case Cell(k, row, col) =>
      if col < n then Goto(s, t, Cell(k, row, col + 1)).(curr := RelaxCell(s.prev, s.curr, n, k, row, col))
      else Goto(s, t, RowTest(k, row + c.crew))
    case Report(k) => Goto(s, t, RoundTest(k + 1)).(c2p := s.c2p[t := s.c2p[t] + 1])
    case Exited => s
  }

  // ----- the parent's steps

  predicate ParentEnabled(c: Config, s: State)
    requires |s.workers| == |s.c2p| == c.crew
  {
    match s.parent
    case Collect(y) => y < c.crew ==> s.c2p[y] > 0
    case Join(y) => y < c.crew ==> s.workers[y].Exited?
    case Finished => false
    case _ => true
  }

  function ParentStep(c: Config, s: State): (s': State)
    requires Shape(c, s) && ParentEnabled(c, s)
    ensures Shape(c, s')
  {
    var n := c.input.n;
    match s.parent
    case LoopTest =>
      if s.round < n then s.(parent := Release(0))
      else s.(parent := if c.joins then Join(0) else Finished)
    case Release(y) =>
      if y < c.crew then s.(p2c := s.p2c[y := s.p2c[y] + 1], parent := Release(y + 1))
      else s.(parent := Collect(0))
    case Collect(y) =>
      if y < c.crew then s.(c2p := s.c2p[y := s.c2p[y] - 1], parent := Collect(y + 1))
      else s.(parent := Copy(0, 0))
    case Copy(row, col) =>
      if row >= n then s.(parent := Advance)
      else if col >= n then s.(parent := Copy(row + 1, 0))
      else s.(prev := s.prev[row := s.prev[row][col := s.curr[row][col]]], parent := Copy(row, col + 1))
    case Advance => s.(round := s.round + 1, parent := LoopTest)
    case Join(y) => if y < c.crew then s.(parent := Join(y + 1)) else s.(parent := Finished)
    case Finished => s
  }

  // ----- invariant: where each worker stands relative to the parent

  predicate Idle(w: Worker) {
    w.RoundTest? || w.AwaitRelease? || w.Exited?
  }

  /** The round a worker is in, or is about to enter. */
  function RoundOf(c: Config, w: Worker): nat {
    match w
    case RoundTest(k) => k
    case AwaitRelease(k) => k
    case RowTest(k, _) => k
    case Cell(k, _, _) => k
    case Report(k) => k
    case Exited => c.input.n
  }

  /** Idle before round k, with p2c[t] holding `tokens` and c2p[t] holding `reports`. */
  ghost predicate IdleAt(c: Config, s: State, t: nat, k: nat, tokens: nat, reports: nat)
    requires t < |s.workers| && t < |s.p2c| && t < |s.c2p|
  {
    Idle(s.workers[t]) && RoundOf(c, s.workers[t]) == k && s.p2c[t] == tokens && s.c2p[t] == reports
  }

  ghost predicate Working(c: Config, s: State, t: nat)
    requires t < |s.workers| && t < |s.p2c| && t < |s.c2p|
  {
    !Idle(s.workers[t]) && RoundOf(c, s.workers[t]) == s.round && s.p2c[t] == 0 && s.c2p[t] == 0
  }

  ghost predicate InRound(c: Config, s: State, t: nat)
    requires t < |s.workers| && t < |s.p2c| && t < |s.c2p|
  {
    IdleAt(c, s, t, s.round, 1, 0) || Working(c, s, t) || IdleAt(c, s, t, s.round + 1, 0, 1)
  }

  ghost predicate Standing(c: Config, s: State, t: nat)
    requires t < |s.workers| && t < |s.p2c| && t < |s.c2p|
  {
    match s.parent
    case LoopTest => IdleAt(c, s, t, s.round, 0, 0)
    case Release(y) => if t < y then InRound(c, s, t) else IdleAt(c, s, t, s.round, 0, 0)
    case Collect(y) => if t < y then IdleAt(c, s, t, s.round + 1, 0, 0) else InRound(c, s, t)
    case Copy(_, _) => IdleAt(c, s, t, s.round + 1, 0, 0)
    case Advance => IdleAt(c, s, t, s.round + 1, 0, 0)
    case Join(y) => IdleAt(c, s, t, s.round, 0, 0) && (t < y ==> s.workers[t].Exited?)
    case Finished => IdleAt(c, s, t, s.round, 0, 0) && (c.joins ==> s.workers[t].Exited?)
  }

  ghost predicate Locals(c: Config, s: State, t: nat)
    requires c.crew >= 1 && t < |s.workers|
  {
    match s.workers[t]
    case RoundTest(k) => k <= c.input.n
    case AwaitRelease(k) => k < c.input.n
    case RowTest(k, row) => k < c.input.n && Owner(c.crew, row) == t
    case Cell(k, row, col) => k < c.input.n && Owner(c.crew, row) == t && row < c.input.n && col <= c.input.n
    case Report(k) => k < c.input.n
    case Exited => true
  }

  ghost predicate WorkerOk(c: Config, s: State, t: nat)
    requires c.crew >= 1 && t < |s.workers| && t < |s.p2c| && t < |s.c2p|
  {
    Standing(c, s, t) && Locals(c, s, t)
  }

  ghost predicate ParentOk(c: Config, s: State) {
    && s.round <= c.input.n
    && match s.parent
       case LoopTest => true
       case Release(y) => s.round < c.input.n && y <= c.crew
       case Collect(y) => s.round < c.input.n && y <= c.crew
       case Copy(row, col) => s.round < c.input.n && row <= c.input.n && col <= c.input.n
       case Advance => s.round < c.input.n
       case Join(y) => s.round == c.input.n && y <= c.crew && c.joins
       case Finished => s.round == c.input.n
  }

  ghost predicate Control(c: Config, s: State) {
    && c.crew >= 1 && Shape(c, s) && ParentOk(c, s)
    && forall t :: 0 <= t < c.crew ==> WorkerOk(c, s, t)
  }

  lemma WorkerKeepsSelf(c: Config, s: State, t: nat)
    requires c.crew >= 1 && Shape(c, s) && ParentOk(c, s) && t < c.crew && WorkerOk(c, s, t) && WorkerEnabled(c, s, t)
    ensures WorkerOk(c, WorkerStep(c, s, t), t)
  {
  }

  lemma WorkerKeepsOther(c: Config, s: State, t: nat, u: nat)
    requires c.crew >= 1 && Shape(c, s) && t < c.crew && WorkerEnabled(c, s, t)
    requires u < c.crew && u != t && WorkerOk(c, s, u)
    ensures WorkerOk(c, WorkerStep(c, s, t), u)
  {
    ParentUntouched(c, s, t);
  }

  lemma WorkerKeepsControl(c: Config, s: State, t: nat)
    requires Control(c, s) && t < c.crew && WorkerEnabled(c, s, t)
    ensures Control(c, WorkerStep(c, s, t))
  {
    assert WorkerOk(c, s, t);
    WorkerKeepsSelf(c, s, t);
    ParentUntouched(c, s, t);
    forall u | 0 <= u < c.crew && u != t ensures WorkerOk(c, WorkerStep(c, s, t), u) {
      assert WorkerOk(c, s, u);
      WorkerKeepsOther(c, s, t, u);
    }
  }

  lemma ParentKeepsWorker(c: Config, s: State, u: nat)
    requires c.crew >= 1 && Shape(c, s) && ParentOk(c, s) && ParentEnabled(c, s) && u < c.crew && WorkerOk(c, s, u)
    ensures WorkerOk(c, ParentStep(c, s), u)
  {
  }

  lemma ParentKeepsControl(c: Config, s: State)
    requires Control(c, s) && ParentEnabled(c, s)
    ensures Control(c, ParentStep(c, s))
  {
    forall u | 0 <= u < c.crew ensures WorkerOk(c, ParentStep(c, s), u) {
      assert WorkerOk(c, s, u);
      ParentKeepsWorker(c, s, u);
    }
  }

  // ----- invariant: how far the matrices are

  /** Cell (i, j) of `curr` has its final value for this round: the owner of row i has moved past
      it. */
  ghost predicate DoneCell(c: Config, s: State, i: nat, j: nat)
    requires c.crew >= 1 && Shape(c, s)
  {
    match s.workers[Owner(c.crew, i)]
    case RowTest(_, row) => i < row
    case Cell(_, row, col) => i < row || (i == row && j < col)
    case Report(_) => true
    case w => RoundOf(c, w) > s.round
  }

  ghost predicate RoundCells(c: Config, s: State)
    requires ValidConfig(c) && Shape(c, s) && s.round < c.input.n
  {
    forall i, j :: 0 <= i < c.input.n && 0 <= j < c.input.n ==>
      s.curr[i][j] == (if DoneCell(c, s, i, j) then Before(c.input, s.round + 1) else Leftover(c.input, s.round))[i][j]
  }

  ghost predicate MatricesOk(c: Config, s: State)
    requires ValidConfig(c) && Shape(c, s) && ParentOk(c, s)
  {
    match s.parent
    case Release(_) => s.prev == Before(c.input, s.round) && RoundCells(c, s)
    case Collect(_) => s.prev == Before(c.input, s.round) && RoundCells(c, s)
    case Copy(row, col) =>
      s.curr == Before(c.input, s.round + 1) && CopiedUpTo(s.prev, Before(c.input, s.round), s.curr, c.input.n, row, col)
    case Advance => s.prev == s.curr == Before(c.input, s.round + 1)
    case _ => s.prev == Before(c.input, s.round) && s.curr == Leftover(c.input, s.round)
  }

  /** The stride leads from a row of a worker to its next row: the row reached is the worker's, and
      no other row of the worker lies between. */
  lemma {:induction false} NextOwnRow(crew: nat, row: nat, i: nat)
    requires crew >= 1
    ensures Owner(crew, row + crew) == Owner(crew, row)
    ensures Owner(crew, row) == Owner(crew, i) && i < row + crew ==> i <= row
  {
    if row >= crew && i >= crew {
      NextOwnRow(crew, row - crew, i - crew);
    }
  }

  /** Row i belongs to worker i % crew. */
  lemma {:induction false} OwnerIsRemainder(crew: nat, i: nat)
    requires crew >= 1
    ensures Owner(crew, i) == i % crew
  {
    if i >= crew {
      OwnerIsRemainder(crew, i - crew);
      RemainderRepeats(i - crew, crew);
    }
  }

  lemma RemainderRepeats(a: nat, d: nat)
    requires d >= 1
    ensures (a + d) % d == a % d
  {
    var x := (a + d) / d - a / d - 1;
    Scale(d, (a + d) / d, a / d);
    assert d * x == a % d - (a + d) % d;
    if x >= 1 {
      Multiple(d, x);
    } else if x <= -1 {
      Multiple(d, -x);
      Negate(d, x);
    }
  }

  lemma Scale(d: int, x: int, y: int)
    ensures d * (x - y - 1) == d * x - d * y - d
  {
  }

  lemma Negate(d: int, x: int)
    ensures d * -x == -(d * x)
  {
  }

  lemma Multiple(d: nat, x: int)
    requires x >= 1
    ensures d * x >= d
  {
    assert d * x == d * (x - 1) + d && d * (x - 1) >= 0;
  }

  /** A step of worker t finishes the cell it is at, and no other. */
  lemma StepFinishes(c: Config, s: State, t: nat, i: nat, j: nat)
    requires c.crew >= 1 && Shape(c, s) && t < c.crew && WorkerOk(c, s, t) && WorkerEnabled(c, s, t)
    requires s.parent.Release? || s.parent.Collect?
    requires i < c.input.n && j < c.input.n
    ensures DoneCell(c, WorkerStep(c, s, t), i, j) <==>
            DoneCell(c, s, i, j) || (s.workers[t].Cell? && s.workers[t].row == i && s.workers[t].col == j)
    ensures s.workers[t].Cell? && s.workers[t].row == i && s.workers[t].col == j ==> !DoneCell(c, s, i, j)
  {
    if Owner(c.crew, i) == t {
      match s.workers[t]
      case Cell(_, row, _) =>
        if i < row + c.crew {
          NextOwnRow(c.crew, row, i);
        }
      case _ =>
    }
  }

  lemma StepWrites(c: Config, s: State, t: nat, i: nat, j: nat)
    requires Shape(c, s) && t < c.crew && WorkerEnabled(c, s, t) && i < c.input.n && j < c.input.n && s.round < c.input.n
    requires s.workers[t].Cell? ==> s.workers[t].k == s.round
    ensures !(s.workers[t].Cell? && s.workers[t].row == i && s.workers[t].col == j) ==>
              WorkerStep(c, s, t).curr[i][j] == s.curr[i][j]
    ensures s.workers[t].Cell? && s.workers[t].row == i && s.workers[t].col == j ==>
              WorkerStep(c, s, t).curr[i][j] == Relaxed(s.prev, s.curr[i][j], c.input.n, s.round, i, j)
  {
  }

  /** Outside the rounds no worker is inside a row, and inside one its k is the parent's. */
  lemma RowsOnlyInRounds(c: Config, s: State, t: nat)
    requires t < |s.workers| && t < |s.p2c| && t < |s.c2p| && Standing(c, s, t) && !Idle(s.workers[t])
    ensures s.parent.Release? || s.parent.Collect?
    ensures RoundOf(c, s.workers[t]) == s.round
  {
  }

  lemma ParentUntouched(c: Config, s: State, t: nat)
    requires Shape(c, s) && t < c.crew && WorkerEnabled(c, s, t)
    ensures WorkerStep(c, s, t).parent == s.parent && WorkerStep(c, s, t).round == s.round
    ensures WorkerStep(c, s, t).prev == s.prev
    ensures !s.workers[t].Cell? ==> WorkerStep(c, s, t).curr == s.curr
  {
  }

  lemma WorkerKeepsRound(c: Config, s: State, t: nat)
    requires ValidConfig(c) && Shape(c, s) && t < c.crew && WorkerOk(c, s, t) && WorkerEnabled(c, s, t)
    requires s.parent.Release? || s.parent.Collect?
    requires s.round < c.input.n && s.prev == Before(c.input, s.round) && RoundCells(c, s)
    requires WorkerStep(c, s, t).round == s.round
    ensures RoundCells(c, WorkerStep(c, s, t))
  {
    var s' := WorkerStep(c, s, t);
    if s.workers[t].Cell? {
      RowsOnlyInRounds(c, s, t);
    }
    forall i, j | 0 <= i < c.input.n && 0 <= j < c.input.n
      ensures s'.curr[i][j] ==
              (if DoneCell(c, s', i, j) then Before(c.input, s'.round + 1) else Leftover(c.input, s'.round))[i][j]
    {
      StepFinishes(c, s, t, i, j);
      StepWrites(c, s, t, i, j);
      RoundIsPhase(c.input, s.round, i, j);
    }
  }

  lemma WorkerKeepsMatrices(c: Config, s: State, t: nat)
    requires ValidConfig(c) && Shape(c, s) && ParentOk(c, s) && MatricesOk(c, s)
    requires t < c.crew && WorkerOk(c, s, t) && WorkerEnabled(c, s, t)
    ensures ParentOk(c, WorkerStep(c, s, t)) && MatricesOk(c, WorkerStep(c, s, t))
  {
    ParentUntouched(c, s, t);
    if s.parent.Release? || s.parent.Collect? {
      WorkerKeepsRound(c, s, t);
    } else if s.workers[t].Cell? {
      RowsOnlyInRounds(c, s, t);
    }
  }

  /** When the parent has collected every worker, the round is complete. */
  lemma RoundComplete(c: Config, s: State)
    requires ValidConfig(c) && Control(c, s) && MatricesOk(c, s)
    requires s.parent == Collect(c.crew)
    ensures s.curr == Before(c.input, s.round + 1)
  {
    forall i, j | 0 <= i < c.input.n && 0 <= j < c.input.n
      ensures s.curr[i][j] == Before(c.input, s.round + 1)[i][j]
    {
      assert WorkerOk(c, s, Owner(c.crew, i));
      assert DoneCell(c, s, i, j);
    }
    SameMatrix(s.curr, Before(c.input, s.round + 1), c.input.n);
  }

  /** When the parent starts to release, no cell of the round is done. */
  lemma RoundStarts(c: Config, s: State)
    requires ValidConfig(c) && Control(c, s) && MatricesOk(c, s)
    requires s.parent == LoopTest && s.round < c.input.n
    ensures MatricesOk(c, ParentStep(c, s))
  {
    var s' := ParentStep(c, s);
    forall i, j | 0 <= i < c.input.n && 0 <= j < c.input.n ensures !DoneCell(c, s', i, j) {
      assert WorkerOk(c, s, Owner(c.crew, i));
    }
  }

  lemma CopyStep(c: Config, s: State)
    requires ValidConfig(c) && Shape(c, s) && ParentEnabled(c, s) && s.round < c.input.n
    requires s.parent.Copy? && s.parent.row < c.input.n && s.parent.col <= c.input.n
    requires s.curr == Before(c.input, s.round + 1)
    requires CopiedUpTo(s.prev, Before(c.input, s.round), s.curr, c.input.n, s.parent.row, s.parent.col)
    ensures ParentStep(c, s).parent.Copy?
    ensures CopiedUpTo(ParentStep(c, s).prev, Before(c.input, s.round), s.curr, c.input.n,
                       ParentStep(c, s).parent.row, ParentStep(c, s).parent.col)
  {
  }

  lemma ParentKeepsMatrices(c: Config, s: State)
    requires ValidConfig(c) && Shape(c, s) && ParentOk(c, s) && MatricesOk(c, s) && ParentEnabled(c, s)
    requires s.parent == Collect(c.crew) ==> s.curr == Before(c.input, s.round + 1)
    requires !(s.parent.LoopTest? && s.round < c.input.n)
    requires ParentOk(c, ParentStep(c, s))
    ensures MatricesOk(c, ParentStep(c, s))
  {
    match s.parent
    case Copy(row, col) =>
      if row == c.input.n {
        CopyEnds(s.prev, Before(c.input, s.round), s.curr, c.input.n);
      } else {
        CopyStep(c, s);
      }
    case _ =>
  }

  // ----- the whole system

  ghost predicate Inv(c: Config, s: State) {
    ValidConfig(c) && Control(c, s) && MatricesOk(c, s)
  }

  predicate Enabled(c: Config, s: State, a: Actor)
    requires Shape(c, s)
  {
    match a
    case TheParent => ParentEnabled(c, s)
    case TheWorker(t) => t < c.crew && WorkerEnabled(c, s, t)
  }

  function Step(c: Config, s: State, a: Actor): (s': State)
    requires Shape(c, s) && Enabled(c, s, a)
    ensures Shape(c, s')
  {
    match a
    case TheParent => ParentStep(c, s)
    case TheWorker(t) => WorkerStep(c, s, t)
  }

  lemma InitInv(c: Config, s: State)
    requires ValidConfig(c) && Init(c, s)
    ensures Inv(c, s)
  {
  }

  lemma StepKeepsInv(c: Config, s: State, a: Actor)
    requires Inv(c, s) && Enabled(c, s, a)
    ensures Inv(c, Step(c, s, a))
  {
    match a
    case TheParent =>
      ParentKeepsControl(c, s);
      if s.parent.LoopTest? && s.round < c.input.n {
        RoundStarts(c, s);
      } else {
        if s.parent == Collect(c.crew) {
          RoundComplete(c, s);
        }
        ParentKeepsMatrices(c, s);
      }
    case TheWorker(t) =>
      assert WorkerOk(c, s, t);
      WorkerKeepsControl(c, s, t);
      WorkerKeepsMatrices(c, s, t);
  }

  // ----- progress

  ghost predicate AllDone(c: Config, s: State)
    requires Shape(c, s)
  {
    s.parent == Finished && forall t :: 0 <= t < c.crew ==> s.workers[t] == Exited
  }

  /** No deadlock: some step is possible until the parent has finished and every worker has
      exited. */
  lemma NoDeadlock(c: Config, s: State)
    requires Inv(c, s) && !AllDone(c, s)
    ensures exists a :: Enabled(c, s, a)
  {
    if ParentEnabled(c, s) {
      assert Enabled(c, s, TheParent);
    } else {
      var y: nat;
      if s.parent == Finished {
        y :| 0 <= y < c.crew && s.workers[y] != Exited;
      } else {
        y := s.parent.next;
      }
      assert WorkerOk(c, s, y);
      assert Enabled(c, s, TheWorker(y));
    }
  }

  function Stage(p: Parent): nat {
    match p
    case LoopTest => 5
    case Release(_) => 4
    case Collect(_) => 3
    case Copy(_, _) => 2
    case Advance => 1
    case Join(_) => 1
    case Finished => 0
  }

  function Outer(c: Config, p: Parent): int {
    match p
    case Release(y) => c.crew - y
    case Collect(y) => c.crew - y
    case Join(y) => c.crew - y
    case Copy(row, _) => c.input.n - row
    case _ => 0
  }

  function Inner(c: Config, p: Parent): int {
    match p
    case Copy(_, col) => c.input.n - col
    case _ => 0
  }

  /** The steps that the rows from `row` on may still take, three more than a row has cells each. */
  function RowsLeft(n: nat, row: nat): nat
    decreases n - row
  {
    if row < n then n + 3 + RowsLeft(n, row + 1) else 0
  }

  lemma {:induction false} RowsLeftFalls(n: nat, row: nat, next: nat)
    requires row < n && row < next
    ensures RowsLeft(n, next) + n + 3 <= RowsLeft(n, row)
    decreases next
  {
    if row + 1 < next {
      RowsLeftFalls(n, row, next - 1);
    }
  }

  lemma RowsLeftBound(n: nat, row: nat)
    ensures RowsLeft(n, row) <= RowsLeft(n, 0)
  {
    if 0 < row && row < n {
      RowsLeftFalls(n, 0, row);
    }
  }

  /** What releases not yet taken may still lead to: all rows of a round for each. */
  function TokenRank(n: nat, tokens: nat): nat {
    if tokens == 0 then 0 else RowsLeft(n, 0) + 10 + TokenRank(n, tokens - 1)
  }

  function WorkerRank(c: Config, w: Worker, tokens: nat): nat {
    TokenRank(c.input.n, tokens) +
    match w
    case Exited => 0
    case AwaitRelease(_) => 1
    case RoundTest(_) => 2
    case Report(_) => 3
    case RowTest(_, row) => 4 + RowsLeft(c.input.n, row)
    case Cell(_, row, col) =>
      5 + RowsLeft(c.input.n, row + 1) + (if col <= c.input.n then c.input.n - col else 0)
  }

  /** The rows after `row` hold at least those from the worker's next row on. */
  lemma NextRowLeft(n: nat, row: nat, crew: nat)
    requires crew >= 1
    ensures RowsLeft(n, row + crew) <= RowsLeft(n, row + 1)
    ensures row < n ==> RowsLeft(n, row) == n + 3 + RowsLeft(n, row + 1)
  {
    if row + 1 < n && crew > 1 {
      RowsLeftFalls(n, row + 1, row + crew);
    }
  }

  lemma WorkerRankFalls(c: Config, s: State, t: nat)
    requires c.crew >= 1 && Shape(c, s) && t < c.crew && WorkerOk(c, s, t) && WorkerEnabled(c, s, t)
    ensures WorkerRank(c, WorkerStep(c, s, t).workers[t], WorkerStep(c, s, t).p2c[t]) <
            WorkerRank(c, s.workers[t], s.p2c[t])
  {
    match s.workers[t]
    case AwaitRelease(_) => RowsLeftBound(c.input.n, t);
    case RowTest(_, row) => NextRowLeft(c.input.n, row, c.crew);
    case Cell(_, row, col) => NextRowLeft(c.input.n, row, c.crew);
    case _ =>
  }

  function CrewRank(c: Config, s: State): nat
    requires |s.workers| == |s.p2c| == c.crew
  {
    Total(seq(c.crew, t requires 0 <= t < c.crew => WorkerRank(c, s.workers[t], s.p2c[t])))
  }

  /** Every step of every actor lowers a well-founded rank, so no schedule runs forever. */
  ghost predicate RankFalls(c: Config, s: State, s': State)
    requires Shape(c, s) && Shape(c, s')
  {
    var n, p, q := c.input.n, s.parent, s'.parent;
    (n - s.round, Stage(p), Outer(c, p), Inner(c, p), CrewRank(c, s)
       decreases to
     n - s'.round, Stage(q), Outer(c, q), Inner(c, q), CrewRank(c, s'))
  }

  lemma StepRankFalls(c: Config, s: State, a: Actor)
    requires Inv(c, s) && Enabled(c, s, a)
    ensures RankFalls(c, s, Step(c, s, a))
  {
    match a
    case TheParent =>
      ParentKeepsControl(c, s);
    case TheWorker(t) =>
      assert WorkerOk(c, s, t);
      ParentUntouched(c, s, t);
      WorkerRankFalls(c, s, t);
      var s' := WorkerStep(c, s, t);
      TotalFalls(seq(c.crew, u requires 0 <= u < c.crew => WorkerRank(c, s.workers[u], s.p2c[u])),
                 seq(c.crew, u requires 0 <= u < c.crew => WorkerRank(c, s'.workers[u], s'.p2c[u])), t);
  }

  // ----- what the invariant says

  ghost predicate RoundsOver(c: Config, s: State) {
    s.parent.Join? || s.parent.Finished? || (s.parent.LoopTest? && s.round == c.input.n)
  }

  lemma ClosureWhenRoundsOver(c: Config, s: State)
    requires Inv(c, s) && RoundsOver(c, s)
    ensures IsClosureOf(s.prev, c.input) && IsClosureOf(s.curr, c.input)
  {
    LastRoundIsClosure(c.input);
  }

  // ----- results, for every run

  ghost predicate Next(c: Config, s: State, s': State) {
    Shape(c, s) && exists a :: Enabled(c, s, a) && s' == Step(c, s, a)
  }

  /** A run: any interleaving of enabled steps from the initial state. */
  ghost predicate IsRun(c: Config, run: seq<State>) {
    |run| >= 1 && Init(c, run[0]) && forall i :: 0 <= i < |run| - 1 ==> StepAt(c, run, i)
  }

  ghost predicate StepAt(c: Config, run: seq<State>, i: nat)
    requires i + 1 < |run|
  {
    Next(c, run[i], run[i + 1])
  }

  lemma {:induction false} RunKeepsInv(c: Config, run: seq<State>, k: nat)
    requires ValidConfig(c) && IsRun(c, run) && k < |run|
    ensures Inv(c, run[k])
  {
    if k == 0 {
      InitInv(c, run[0]);
    } else {
      RunKeepsInv(c, run, k - 1);
      assert StepAt(c, run, k - 1);
      var a :| Enabled(c, run[k - 1], a) && run[k] == Step(c, run[k - 1], a);
      StepKeepsInv(c, run[k - 1], a);
    }
  }

  /** When the parent's round loop is over, in any run, both matrices hold exactly the pairs
      joined by a nonempty walk, both are the matrix of the sequential algorithm, and no worker is
      left inside its rows to spoil them. */
  lemma RunComputesClosure(c: Config, run: seq<State>, k: nat)
    requires ValidConfig(c) && IsRun(c, run) && k < |run| && RoundsOver(c, run[k])
    ensures IsClosureOf(run[k].prev, c.input) && IsClosureOf(run[k].curr, c.input)
    ensures |run[k].workers| == c.crew && forall t :: 0 <= t < c.crew ==> Idle(run[k].workers[t])
  {
    RunKeepsInv(c, run, k);
    ClosureWhenRoundsOver(c, run[k]);
    forall t | 0 <= t < c.crew ensures Idle(run[k].workers[t]) {
      assert WorkerOk(c, run[k], t);
    }
  }

  /** A run that cannot be extended has a finished parent and only exited workers. */
  lemma StuckRunIsComplete(c: Config, run: seq<State>, k: nat)
    requires ValidConfig(c) && IsRun(c, run) && k < |run| && Shape(c, run[k])
    requires !exists a :: Enabled(c, run[k], a)
    ensures AllDone(c, run[k])
  {
    RunKeepsInv(c, run, k);
    if !AllDone(c, run[k]) {
      NoDeadlock(c, run[k]);
    }
  }

  /** Barrier isolation: a worker inside its rows works in the parent's round, while the parent
      is waiting; so it is never inside them while the parent copies. It is inside a row of its own,
      so no two workers ever write the same cell. */
  lemma Isolation(c: Config, run: seq<State>, k: nat, t: nat)
    requires ValidConfig(c) && IsRun(c, run) && k < |run| && t < c.crew
    ensures Shape(c, run[k])
    ensures !Idle(run[k].workers[t]) ==>
              RoundOf(c, run[k].workers[t]) == run[k].round && (run[k].parent.Release? || run[k].parent.Collect?)
    ensures run[k].workers[t].Cell? ==> Owner(c.crew, run[k].workers[t].row) == t
    ensures run[k].workers[t].Cell? && run[k].workers[t].col < c.input.n ==>
              CellInRange(c, run[k].workers[t].k, run[k].workers[t].row, run[k].workers[t].col)
  {
    RunKeepsInv(c, run, k);
    assert WorkerOk(c, run[k], t);
    if !Idle(run[k].workers[t]) {
      RowsOnlyInRounds(c, run[k], t);
    }
  }

  /** Every semaphore stays binary, and every unlock hits a locked mutex. */
  lemma SemaphoresAreBinary(c: Config, run: seq<State>, k: nat, t: nat)
    requires ValidConfig(c) && IsRun(c, run) && k < |run| && t < c.crew
    ensures Shape(c, run[k])
    ensures run[k].p2c[t] <= 1 && run[k].c2p[t] <= 1
    ensures run[k].workers[t].Report? ==> run[k].c2p[t] == 0
    ensures run[k].parent == Release(t) ==> run[k].p2c[t] == 0
  {
    RunKeepsInv(c, run, k);
    assert WorkerOk(c, run[k], t);
  }

  // ----- running it

  function InitState(c: Config): (s: State)
    requires ValidConfig(c)
    ensures Init(c, s)
  {
    State(0, seq(c.crew, _ => 0), seq(c.crew, _ => 0),
          c.input.matrix, Zeros(c.input.n), seq(c.crew, _ => RoundTest(0)), LoopTest)
  }

  function EnabledActors(c: Config, s: State): set<Actor>
    requires Shape(c, s)
  {
    (if ParentEnabled(c, s) then {TheParent} else {}) +
    (set t | 0 <= t < c.crew && WorkerEnabled(c, s, t) :: TheWorker(t))
  }

  lemma EnabledActorsAreAll(c: Config, s: State, a: Actor)
    requires Shape(c, s)
    ensures a in EnabledActors(c, s) <==> Enabled(c, s, a)
  {
  }

  /** One step of an actor that the scheduler chooses freely among the enabled ones. */
  method StepAny(c: Config, s: State, actors: set<Actor>) returns (s': State, actors': set<Actor>)
    requires Inv(c, s) && actors == EnabledActors(c, s) && actors != {}
    ensures Next(c, s, s') && Inv(c, s') && RankFalls(c, s, s')
    ensures actors' == EnabledActors(c, s')
  {
    var a :| a in actors;
    EnabledActorsAreAll(c, s, a);
    StepKeepsInv(c, s, a);
    StepRankFalls(c, s, a);
    s' := Step(c, s, a);
    actors' := EnabledActors(c, s');
  }

  lemma NobodyEnabled(c: Config, s: State)
    requires Inv(c, s) && EnabledActors(c, s) == {}
    ensures AllDone(c, s)
  {
    if !AllDone(c, s) {
      NoDeadlock(c, s);
      var a :| Enabled(c, s, a);
      EnabledActorsAreAll(c, s, a);
    }
  }

  /** Under any scheduler whatever the program stops, with every worker gone, and it stops with
      the closure. */
  method RunUnderAnySchedule(c: Config) returns (result: Matrix, last: State)
    requires ValidConfig(c)
    ensures IsClosureOf(result, c.input)
    ensures Shape(c, last) && AllDone(c, last)
  {
    var s := InitState(c);
    InitInv(c, s);
    var actors := EnabledActors(c, s);
    while actors != {}
      invariant Inv(c, s) && actors == EnabledActors(c, s)
      decreases c.input.n - s.round, Stage(s.parent), Outer(c, s.parent), Inner(c, s.parent), CrewRank(c, s)
    {
      s, actors := StepAny(c, s, actors);
    }
    NobodyEnabled(c, s);
    ClosureWhenRoundsOver(c, s);
    result, last := if c.joins then s.prev else s.curr, s;
  }
}
