/** The two bag-of-tasks versions as a transition system with one step for each shared access.
    Workers take row numbers from a shared queue index; a parent runs one round for each phase. The
    thread version and the process version differ in their loop tests, in how the queue is
    reset and in how they end, which `processes` selects. */
module BagOfTasks {
  import opened Ranks
  import opened Rounds
  import opened Warshall

  datatype Config = Config(input: Input, crew: nat, processes: bool)

  datatype Worker =
    | OuterTest                       // first half of the outer loop test
    | OuterTestAgain                  // second half of it
    | AwaitRelease                    // lock p2c[t]
    | InnerTest                       // unlocked read of the queue index
    | TakeLock
    | ReadHead
    | BumpHead(row: nat)
    | DropLock(row: nat)
    | CheckRow(row: nat)
    | Cell(row: nat, col: nat)
    | Report                          // unlock c2p[t]
    | Exited

  datatype Parent =
    | LoopTest
    | TakeQueue
    | ResetHead
    | DropQueue
    | Release(next: nat)              // unlock p2c[next]
    | Collect(next: nat)              // lock c2p[next]
    | Copy(row: nat, col: nat)
    | Advance
    | FinalRelease(next: nat)
    | Join(next: nat)
    | Finished

  datatype Lock = Free | HeldBy(worker: nat) | HeldByParent

  /** `takers` records, for each value the queue index had in this round, the worker that took it. */
  datatype State = State(
    head: nat, iter: nat, lock: Lock,
    p2c: seq<nat>, c2p: seq<nat>,
    prev: Matrix, curr: Matrix,
    workers: seq<Worker>, parent: Parent,
    takers: seq<nat>)

  ghost predicate ValidConfig(c: Config) {
    ValidInput(c.input) && c.crew >= 1
  }

  ghost predicate Shape(c: Config, s: State) {
    && |s.p2c| == c.crew && |s.c2p| == c.crew && |s.workers| == c.crew
    && Square(s.prev, c.input.n) && Square(s.curr, c.input.n)
    && s.head == |s.takers|
    && (forall i :: 0 <= i < |s.takers| ==> s.takers[i] < c.crew)
  }

  ghost predicate Init(c: Config, s: State) {
    && Shape(c, s)
    && s.head == 0 && s.iter == 0 && s.lock == Free && s.parent == LoopTest
    && s.prev == c.input.matrix && s.curr == Zeros(c.input.n)
    && forall t :: 0 <= t < c.crew ==> s.p2c[t] == 0 && s.c2p[t] == 0 && s.workers[t] == OuterTest
  }

  // ----- the worker's steps

  predicate WorkerEnabled(c: Config, s: State, t: nat)
    requires |s.workers| == |s.p2c| == c.crew && t < c.crew
  {
    match s.workers[t]
    case AwaitRelease => s.p2c[t] > 0
    case TakeLock => s.lock == Free
    case Exited => false
    case _ => true
  }

  function Goto(s: State, t: nat, w: Worker): State
    requires t < |s.workers|
  {
    s.(workers := s.workers[t := w])
  }

  /** Whether a worker at a cell stays inside the matrices; it always does, see AccessesInRange. */
  predicate CellInRange(c: Config, s: State, row: nat, col: nat) {
    row < c.input.n && col < c.input.n && s.iter < c.input.n
  }

  function WorkerStep(c: Config, s: State, t: nat): (s': State)
    requires Shape(c, s) && t < c.crew && WorkerEnabled(c, s, t)
    ensures Shape(c, s')
  {
    var n := c.input.n;
    match s.workers[t]
    case OuterTest =>
      if c.processes then
        (if s.head < n then Goto(s, t, AwaitRelease) else Goto(s, t, OuterTestAgain))
      else
        (if s.iter < n then Goto(s, t, OuterTestAgain) else Goto(s, t, Exited))
    case OuterTestAgain => if s.iter < n then Goto(s, t, AwaitRelease) else Goto(s, t, Exited)
    case AwaitRelease => Goto(s, t, InnerTest).(p2c := s.p2c[t := s.p2c[t] - 1])
    case InnerTest => if s.head < n then Goto(s, t, TakeLock) else Goto(s, t, Report)
    case TakeLock => Goto(s, t, ReadHead).(lock := HeldBy(t))
    case ReadHead => Goto(s, t, BumpHead(s.head))
    case BumpHead(row) => Goto(s, t, DropLock(row)).(head := s.head + 1, takers := s.takers + [t])
    case DropLock(row) => Goto(s, t, CheckRow(row)).(lock := Free)
    case CheckRow(row) =>
      if row < n then Goto(s, t, Cell(row, 0))
      else if c.processes then Goto(s, t, InnerTest)
      else Goto(s, t, Report)
    case Cell(row, col) =>
      if col < n then Goto(s, t, Cell(row, col + 1)).(curr := RelaxCell(s.prev, s.curr, n, s.iter, row, col))
      else Goto(s, t, InnerTest)
    case Report => Goto(s, t, OuterTest).(c2p := s.c2p[t := s.c2p[t] + 1])
    case Exited => s
  }

  // ----- the parent's steps

  predicate ParentEnabled(c: Config, s: State)
    requires |s.workers| == |s.c2p| == c.crew
  {
    match s.parent
    case TakeQueue => s.lock == Free
    case Collect(y) => y < c.crew ==> s.c2p[y] > 0
    case Join(y) => y < c.crew ==> s.workers[y].Exited?
    case Finished => false
    case _ => true
  }

  function ParentStep(c: Config, s: State): (s': State)
    requires Shape(c, s) && ParentEnabled(c, s)
    ensures Shape(c, s')
  {
    var n := c.input.n;
    match s.parent
    case LoopTest =>
      if s.iter < n then s.(parent := if c.processes then ResetHead else TakeQueue)
      else s.(parent := if c.processes then Finished else FinalRelease(0))
    case TakeQueue => s.(lock := HeldByParent, parent := ResetHead)
    case ResetHead => s.(head := 0, takers := [], parent := if c.processes then Release(0) else DropQueue)
    case DropQueue => s.(lock := Free, parent := Release(0))
    case Release(y) =>
      if y < c.crew then s.(p2c := s.p2c[y := s.p2c[y] + 1], parent := Release(y + 1))
      else s.(parent := Collect(0))
    case Collect(y) =>
      if y < c.crew then s.(c2p := s.c2p[y := s.c2p[y] - 1], parent := Collect(y + 1))
      else s.(parent := Copy(0, 0))
    case Copy(row, col) =>
      if row >= n then s.(parent := Advance)
      else if col >= n then s.(parent := Copy(row + 1, 0))
      else s.(prev := s.prev[row := s.prev[row][col := s.curr[row][col]]], parent := Copy(row, col + 1))
    case Advance => s.(iter := s.iter + 1, parent := LoopTest)
    case FinalRelease(y) =>
      if y < c.crew then s.(p2c := s.p2c[y := s.p2c[y] + 1], parent := FinalRelease(y + 1))
      else s.(parent := Join(0))
    case Join(y) => if y < c.crew then s.(parent := Join(y + 1)) else s.(parent := Finished)
    case Finished => s
  }

  // ----- invariant: where each worker stands relative to the parent

  predicate Idle(w: Worker) {
    w.OuterTest? || w.OuterTestAgain? || w.AwaitRelease? || w.Exited?
  }

  ghost predicate Parked(s: State, t: nat)
    requires t < |s.workers| && t < |s.p2c| && t < |s.c2p|
  {
    Idle(s.workers[t]) && s.p2c[t] == 0 && s.c2p[t] == 0
  }

  ghost predicate Released(s: State, t: nat)
    requires t < |s.workers| && t < |s.p2c| && t < |s.c2p|
  {
    Idle(s.workers[t]) && s.p2c[t] == 1 && s.c2p[t] == 0
  }

  ghost predicate Working(s: State, t: nat)
    requires t < |s.workers| && t < |s.p2c| && t < |s.c2p|
  {
    !Idle(s.workers[t]) && s.p2c[t] == 0 && s.c2p[t] == 0
  }

  ghost predicate Reported(s: State, t: nat)
    requires t < |s.workers| && t < |s.p2c| && t < |s.c2p|
  {
    Idle(s.workers[t]) && s.p2c[t] == 0 && s.c2p[t] == 1
  }

  ghost predicate InRound(c: Config, s: State, t: nat)
    requires t < |s.workers| && t < |s.p2c| && t < |s.c2p|
  {
    || Released(s, t)
    || Working(s, t)
    || (Reported(s, t) && s.head >= c.input.n)
  }

  /** After the last round the threads are released once more, find the queue empty and exit. */
  ghost predicate InEnding(s: State, t: nat)
    requires t < |s.workers| && t < |s.p2c| && t < |s.c2p|
  {
    || Released(s, t)
    || (Working(s, t) && (s.workers[t].InnerTest? || s.workers[t].Report?))
    || (Reported(s, t) && !s.workers[t].AwaitRelease?)
  }

  ghost predicate Standing(c: Config, s: State, t: nat)
    requires t < |s.workers| && t < |s.p2c| && t < |s.c2p|
  {
    match s.parent
    case Release(y) => if t < y then InRound(c, s, t) else Parked(s, t)
    case Collect(y) => if t < y then Parked(s, t) else InRound(c, s, t)
    case FinalRelease(y) => if t < y then InEnding(s, t) else Parked(s, t)
    case Join(y) => InEnding(s, t) && (t < y ==> s.workers[t].Exited?)
    case Finished => if c.processes then Parked(s, t) else s.workers[t].Exited? && InEnding(s, t)
    case _ => Parked(s, t)
  }

  /** What the local variables of a worker say about the queue. */
  ghost predicate Locals(c: Config, s: State, t: nat)
    requires t < |s.workers| && s.head == |s.takers|
  {
    match s.workers[t]
    case BumpHead(row) => row == s.head
    case DropLock(row) => row < s.head && s.takers[row] == t
    case CheckRow(row) => row < s.head && s.takers[row] == t
    case Cell(row, col) => row < s.head && s.takers[row] == t && row < c.input.n && col <= c.input.n
    case Report => s.head >= c.input.n
    case Exited => s.iter == c.input.n
    case _ => true
  }

  predicate HoldsLock(w: Worker) {
    w.ReadHead? || w.BumpHead? || w.DropLock?
  }

  ghost predicate WorkerOk(c: Config, s: State, t: nat)
    requires t < |s.workers| && t < |s.p2c| && t < |s.c2p| && s.head == |s.takers|
  {
    && Standing(c, s, t)
    && Locals(c, s, t)
    && (HoldsLock(s.workers[t]) <==> s.lock == HeldBy(t))
  }

  ghost predicate ParentOk(c: Config, s: State) {
    && (s.lock == HeldByParent <==> !c.processes && (s.parent.ResetHead? || s.parent.DropQueue?))
    && (s.lock.HeldBy? ==> s.lock.worker < c.crew)
    && s.iter <= c.input.n
    && match s.parent
       case LoopTest => s.iter > 0 ==> s.head >= c.input.n
       case TakeQueue => s.iter < c.input.n && !c.processes
       case ResetHead => s.iter < c.input.n
       case DropQueue => s.iter < c.input.n && !c.processes && s.head == 0
       case Release(y) => s.iter < c.input.n && y <= c.crew
       case Collect(y) => s.iter < c.input.n && y <= c.crew && (y > 0 ==> s.head >= c.input.n)
       case Copy(row, col) => s.iter < c.input.n && s.head >= c.input.n && row <= c.input.n && col <= c.input.n
       case Advance => s.iter < c.input.n && s.head >= c.input.n
       case FinalRelease(y) => s.iter == c.input.n && s.head >= c.input.n && y <= c.crew && !c.processes
       case Join(y) => s.iter == c.input.n && s.head >= c.input.n && y <= c.crew && !c.processes
       case Finished => s.iter == c.input.n && s.head >= c.input.n
  }

  ghost predicate Control(c: Config, s: State) {
    && Shape(c, s) && ParentOk(c, s)
    && forall t :: 0 <= t < c.crew ==> WorkerOk(c, s, t)
  }

  lemma InitControl(c: Config, s: State)
    requires ValidConfig(c) && Init(c, s)
    ensures Control(c, s)
  {
  }

  lemma WorkerKeepsParentOk(c: Config, s: State, t: nat)
    requires Shape(c, s) && ParentOk(c, s) && t < c.crew && WorkerOk(c, s, t)
    requires WorkerEnabled(c, s, t)
    ensures ParentOk(c, WorkerStep(c, s, t))
  {
  }

  /** The part of a state that another worker's invariant looks at, and how a step may change it. */
  ghost predicate Apart(s: State, s': State, u: nat)
    requires u < |s.workers| && u < |s.p2c| && u < |s.c2p|
  {
    && |s'.workers| == |s.workers| && |s'.p2c| == |s.p2c| && |s'.c2p| == |s.c2p|
    && s'.workers[u] == s.workers[u] && s'.p2c[u] == s.p2c[u] && s'.c2p[u] == s.c2p[u]
    && s'.iter == s.iter && s'.parent == s.parent
    && (s'.lock == HeldBy(u) <==> s.lock == HeldBy(u))
    && s'.head == |s'.takers| && s.head == |s.takers|
    && s.head <= s'.head && s.takers == s'.takers[..s.head]
    && (HoldsLock(s.workers[u]) ==> s'.head == s.head)
  }

  lemma WorkerStepApart(c: Config, s: State, t: nat, u: nat)
    requires Shape(c, s) && t < c.crew && WorkerEnabled(c, s, t)
    requires u < c.crew && u != t && WorkerOk(c, s, t) && WorkerOk(c, s, u)
    ensures Apart(s, WorkerStep(c, s, t), u)
  {
  }

  lemma ApartKeepsWorker(c: Config, s: State, s': State, u: nat)
    requires u < |s.workers| && u < |s.p2c| && u < |s.c2p| && Apart(s, s', u)
    requires WorkerOk(c, s, u)
    ensures WorkerOk(c, s', u)
  {
  }

  lemma WorkerKeepsStanding(c: Config, s: State, t: nat)
    requires Shape(c, s) && ParentOk(c, s) && t < c.crew && WorkerOk(c, s, t)
    requires WorkerEnabled(c, s, t)
    ensures Standing(c, WorkerStep(c, s, t), t)
  {
  }

  lemma WorkerKeepsLocals(c: Config, s: State, t: nat)
    requires Shape(c, s) && s.iter <= c.input.n && t < c.crew && Locals(c, s, t)
    requires HoldsLock(s.workers[t]) <==> s.lock == HeldBy(t)
    requires WorkerEnabled(c, s, t)
    ensures Locals(c, WorkerStep(c, s, t), t)
    ensures HoldsLock(WorkerStep(c, s, t).workers[t]) <==> WorkerStep(c, s, t).lock == HeldBy(t)
  {
  }

  lemma WorkerKeepsControl(c: Config, s: State, t: nat)
    requires Control(c, s) && t < c.crew && WorkerEnabled(c, s, t)
    ensures Control(c, WorkerStep(c, s, t))
  {
    assert WorkerOk(c, s, t);
    var s' := WorkerStep(c, s, t);
    WorkerKeepsParentOk(c, s, t);
    WorkerKeepsStanding(c, s, t);
    WorkerKeepsLocals(c, s, t);
    forall u | 0 <= u < c.crew && u != t ensures WorkerOk(c, s', u) {
      assert WorkerOk(c, s, u);
      WorkerStepApart(c, s, t, u);
      ApartKeepsWorker(c, s, s', u);
    }
  }

  lemma ParentKeepsParentOk(c: Config, s: State)
    requires ValidConfig(c) && Control(c, s) && ParentEnabled(c, s)
    ensures ParentOk(c, ParentStep(c, s))
  {
    if s.parent.Collect? && s.parent.next < c.crew {
      assert WorkerOk(c, s, s.parent.next);
    }
    if s.lock.HeldBy? {
      assert WorkerOk(c, s, s.lock.worker);
    }
  }

  lemma ParentKeepsStanding(c: Config, s: State, u: nat)
    requires Shape(c, s) && ParentOk(c, s) && ParentEnabled(c, s) && u < c.crew && WorkerOk(c, s, u)
    ensures Standing(c, ParentStep(c, s), u)
  {
  }

  lemma ParentKeepsLocals(c: Config, s: State, u: nat)
    requires Shape(c, s) && ParentOk(c, s) && ParentEnabled(c, s) && u < c.crew && WorkerOk(c, s, u)
    ensures Locals(c, ParentStep(c, s), u)
    ensures HoldsLock(ParentStep(c, s).workers[u]) <==> ParentStep(c, s).lock == HeldBy(u)
  {
  }

  lemma ParentKeepsControl(c: Config, s: State)
    requires ValidConfig(c) && Control(c, s) && ParentEnabled(c, s)
    ensures Control(c, ParentStep(c, s))
  {
    ParentKeepsParentOk(c, s);
    forall u | 0 <= u < c.crew ensures WorkerOk(c, ParentStep(c, s), u) {
      assert WorkerOk(c, s, u);
      ParentKeepsStanding(c, s, u);
      ParentKeepsLocals(c, s, u);
    }
  }

  // ----- invariant: how far the matrices are

  /** Cell (i, j) of `curr` has its final value for this round: row i was taken, and its taker
      has moved past column j. */
  ghost predicate DoneCell(c: Config, s: State, i: nat, j: nat)
    requires Shape(c, s)
  {
    && i < s.head
    && match s.workers[s.takers[i]]
       case DropLock(row) => row != i
       case CheckRow(row) => row != i
       case Cell(row, col) => row != i || j < col
       case _ => true
  }

  ghost predicate RoundCells(c: Config, s: State)
    requires ValidConfig(c) && Shape(c, s) && s.iter < c.input.n
  {
    forall i, j :: 0 <= i < c.input.n && 0 <= j < c.input.n ==>
      s.curr[i][j] == (if DoneCell(c, s, i, j) then Before(c.input, s.iter + 1) else Leftover(c.input, s.iter))[i][j]
  }

  ghost predicate MatricesOk(c: Config, s: State)
    requires ValidConfig(c) && Shape(c, s) && ParentOk(c, s)
  {
    match s.parent
    case Release(_) => s.prev == Before(c.input, s.iter) && RoundCells(c, s)
    case Collect(_) => s.prev == Before(c.input, s.iter) && RoundCells(c, s)
    case Copy(row, col) =>
      s.curr == Before(c.input, s.iter + 1) && CopiedUpTo(s.prev, Before(c.input, s.iter), s.curr, c.input.n, row, col)
    case Advance => s.prev == s.curr == Before(c.input, s.iter + 1)
    case _ => s.prev == Before(c.input, s.iter) && s.curr == Leftover(c.input, s.iter)
  }

  /** A step of worker t finishes the cell it is at, and no other. */
  lemma StepFinishes(c: Config, s: State, t: nat, i: nat, j: nat)
    requires Shape(c, s) && t < c.crew && WorkerOk(c, s, t)
    requires WorkerEnabled(c, s, t)
    requires i < c.input.n && j < c.input.n
    ensures DoneCell(c, WorkerStep(c, s, t), i, j) <==> DoneCell(c, s, i, j) || s.workers[t] == Cell(i, j)
    ensures s.workers[t] == Cell(i, j) ==> !DoneCell(c, s, i, j)
  {
  }

  lemma StepWrites(c: Config, s: State, t: nat, i: nat, j: nat)
    requires Shape(c, s) && t < c.crew && WorkerEnabled(c, s, t)
    requires s.iter < c.input.n && i < c.input.n && j < c.input.n
    ensures s.workers[t] != Cell(i, j) ==> WorkerStep(c, s, t).curr[i][j] == s.curr[i][j]
    ensures s.workers[t] == Cell(i, j) ==>
              WorkerStep(c, s, t).curr[i][j] == Relaxed(s.prev, s.curr[i][j], c.input.n, s.iter, i, j)
  {
  }

  /** Outside the rounds no worker is at a cell. */
  lemma CellsOnlyInRounds(c: Config, s: State, t: nat)
    requires t < |s.workers| && t < |s.p2c| && t < |s.c2p| && Standing(c, s, t) && s.workers[t].Cell?
    ensures s.parent.Release? || s.parent.Collect?
  {
  }

  lemma WorkerKeepsRound(c: Config, s: State, t: nat)
    requires ValidConfig(c) && Shape(c, s) && t < c.crew && WorkerOk(c, s, t)
    requires s.iter < c.input.n && s.prev == Before(c.input, s.iter) && RoundCells(c, s)
    requires WorkerEnabled(c, s, t)
    requires WorkerStep(c, s, t).iter == s.iter
    ensures RoundCells(c, WorkerStep(c, s, t))
  {
    var s' := WorkerStep(c, s, t);
    forall i, j | 0 <= i < c.input.n && 0 <= j < c.input.n
      ensures s'.curr[i][j] ==
              (if DoneCell(c, s', i, j) then Before(c.input, s'.iter + 1) else Leftover(c.input, s'.iter))[i][j]
    {
      StepFinishes(c, s, t, i, j);
      StepWrites(c, s, t, i, j);
      RoundIsPhase(c.input, s.iter, i, j);
    }
  }

  lemma WorkerKeepsMatrices(c: Config, s: State, t: nat)
    requires ValidConfig(c) && Shape(c, s) && ParentOk(c, s) && MatricesOk(c, s)
    requires t < c.crew && WorkerOk(c, s, t) && WorkerEnabled(c, s, t)
    requires ParentOk(c, WorkerStep(c, s, t))
    ensures MatricesOk(c, WorkerStep(c, s, t))
  {
    ParentUntouched(c, s, t);
    if s.parent.Release? || s.parent.Collect? {
      WorkerKeepsRound(c, s, t);
    } else if s.workers[t].Cell? {
      CellsOnlyInRounds(c, s, t);
    }
  }

  lemma ParentUntouched(c: Config, s: State, t: nat)
    requires Shape(c, s) && t < c.crew && WorkerEnabled(c, s, t)
    ensures WorkerStep(c, s, t).parent == s.parent && WorkerStep(c, s, t).iter == s.iter
    ensures WorkerStep(c, s, t).prev == s.prev
    ensures !s.workers[t].Cell? ==> WorkerStep(c, s, t).curr == s.curr
  {
  }

  /** When the parent has collected every worker, the round is complete. */
  lemma RoundComplete(c: Config, s: State)
    requires ValidConfig(c) && Control(c, s) && MatricesOk(c, s)
    requires s.parent.Collect? && s.parent.next == c.crew
    ensures s.curr == Before(c.input, s.iter + 1)
  {
    forall i, j | 0 <= i < c.input.n && 0 <= j < c.input.n
      ensures s.curr[i][j] == Before(c.input, s.iter + 1)[i][j]
    {
      assert WorkerOk(c, s, s.takers[i]);
      assert DoneCell(c, s, i, j);
    }
    SameMatrix(s.curr, Before(c.input, s.iter + 1), c.input.n);
  }

  lemma CopyStep(c: Config, s: State)
    requires ValidConfig(c) && Shape(c, s) && ParentEnabled(c, s) && s.iter < c.input.n
    requires s.parent.Copy? && s.parent.row < c.input.n && s.parent.col <= c.input.n
    requires s.curr == Before(c.input, s.iter + 1)
    requires CopiedUpTo(s.prev, Before(c.input, s.iter), s.curr, c.input.n, s.parent.row, s.parent.col)
    requires ParentStep(c, s).parent.Copy?
    ensures CopiedUpTo(ParentStep(c, s).prev, Before(c.input, s.iter), s.curr, c.input.n,
                       ParentStep(c, s).parent.row, ParentStep(c, s).parent.col)
  {
  }

  lemma ParentKeepsMatrices(c: Config, s: State)
    requires ValidConfig(c) && Shape(c, s) && ParentOk(c, s) && MatricesOk(c, s) && ParentEnabled(c, s)
    requires s.parent == Collect(c.crew) ==> s.curr == Before(c.input, s.iter + 1)
    requires ParentOk(c, ParentStep(c, s))
    ensures MatricesOk(c, ParentStep(c, s))
  {
    match s.parent
    case Copy(row, col) =>
      if row == c.input.n {
        CopyEnds(s.prev, Before(c.input, s.iter), s.curr, c.input.n);
      } else {
        CopyStep(c, s);
      }
    case _ =>
  }

  // ----- invariant: who took what from the queue

  predicate BeforeTake(w: Worker) {
    w.TakeLock? || w.ReadHead? || w.BumpHead?
  }

  /** From the last row on, each value of the queue index goes to a different worker: whoever
      took one of them next finds the queue empty. */
  ghost predicate TakersOk(c: Config, s: State)
    requires Shape(c, s)
  {
    && (forall i :: 0 <= i < s.head && i + 1 >= c.input.n ==> !BeforeTake(s.workers[s.takers[i]]))
    && (forall i, j :: 0 <= i < j < s.head && i + 1 >= c.input.n ==> s.takers[i] != s.takers[j])
  }

  lemma WorkerKeepsTakers(c: Config, s: State, t: nat)
    requires Shape(c, s) && TakersOk(c, s) && t < c.crew && Locals(c, s, t)
    requires WorkerEnabled(c, s, t)
    ensures TakersOk(c, WorkerStep(c, s, t))
  {
    var s' := WorkerStep(c, s, t);
    if s.workers[t].BumpHead? {
      assert forall i :: 0 <= i < s.head && i + 1 >= c.input.n ==> s.takers[i] != t;
    } else {
      assert s'.takers == s.takers;
    }
  }

  lemma ParentKeepsTakers(c: Config, s: State)
    requires Shape(c, s) && ParentOk(c, s) && TakersOk(c, s) && ParentEnabled(c, s)
    ensures TakersOk(c, ParentStep(c, s))
  {
  }

  lemma {:induction false} DistinctBound(q: seq<nat>, bound: nat)
    requires forall i :: 0 <= i < |q| ==> q[i] < bound
    requires forall i, j :: 0 <= i < j < |q| ==> q[i] != q[j]
    ensures |q| <= bound
    decreases bound
  {
    if bound == 0 {
    } else if bound - 1 in q {
      var k :| 0 <= k < |q| && q[k] == bound - 1;
      var r := q[..k] + q[k + 1..];
      assert forall i :: 0 <= i < |r| ==> r[i] == q[if i < k then i else i + 1];
      forall i | 0 <= i < |r| ensures r[i] < bound - 1 {
        var i' := if i < k then i else i + 1;
        assert q[i'] < bound && (i' < k || k < i');
        assert q[i'] != q[k];
      }
      DistinctBound(r, bound - 1);
    } else {
      DistinctBound(q, bound - 1);
    }
  }

  /** The queue index passes the number of rows by less than the number of workers. */
  lemma QueueBound(c: Config, s: State)
    requires ValidConfig(c) && Shape(c, s) && TakersOk(c, s)
    ensures c.input.n >= 1 ==> s.head <= c.input.n + c.crew - 1
    ensures s.head <= c.input.n + c.crew
  {
    var low := if c.input.n == 0 then 0 else c.input.n - 1;
    if s.head > low {
      DistinctBound(s.takers[low..], c.crew);
    }
  }

  // ----- the whole system

  ghost predicate Inv(c: Config, s: State) {
    ValidConfig(c) && Control(c, s) && MatricesOk(c, s) && TakersOk(c, s)
  }

  predicate Enabled(c: Config, s: State, a: Actor)
    requires Shape(c, s)
  {
    match a
    case TheParent => ParentEnabled(c, s)
    case TheWorker(t) => t < c.crew && WorkerEnabled(c, s, t)
  }

  function Step(c: Config, s: State, a: Actor): (s': State)
    requires Shape(c, s) && Enabled(c, s, a)
    ensures Shape(c, s')
  {
    match a
    case TheParent => ParentStep(c, s)
    case TheWorker(t) => WorkerStep(c, s, t)
  }

  lemma InitInv(c: Config, s: State)
    requires ValidConfig(c) && Init(c, s)
    ensures Inv(c, s)
  {
    InitControl(c, s);
  }

  lemma StepKeepsInv(c: Config, s: State, a: Actor)
    requires Inv(c, s) && Enabled(c, s, a)
    ensures Inv(c, Step(c, s, a))
  {
    match a
    case TheParent =>
      ParentKeepsControl(c, s);
      if s.parent == Collect(c.crew) {
        RoundComplete(c, s);
      }
      ParentKeepsMatrices(c, s);
      ParentKeepsTakers(c, s);
    case TheWorker(t) =>
      assert WorkerOk(c, s, t);
      WorkerKeepsControl(c, s, t);
      WorkerKeepsMatrices(c, s, t);
      WorkerKeepsTakers(c, s, t);
  }

  // ----- progress

  /** Some worker can move whenever worker t is released or working. */
  lemma WorkerCanMove(c: Config, s: State, t: nat)
    requires Control(c, s) && t < c.crew && !s.workers[t].Exited?
    requires s.workers[t].AwaitRelease? ==> s.p2c[t] > 0
    requires s.lock != HeldByParent
    ensures exists u :: 0 <= u < c.crew && WorkerEnabled(c, s, u)
  {
    if s.workers[t].TakeLock? && s.lock.HeldBy? {
      assert WorkerOk(c, s, s.lock.worker);
      assert WorkerEnabled(c, s, s.lock.worker);
    } else {
      assert WorkerEnabled(c, s, t);
    }
  }

  ghost predicate AllExited(c: Config, s: State)
    requires |s.workers| == c.crew
  {
    forall t :: 0 <= t < c.crew ==> s.workers[t] == Exited
  }

  lemma FinishedThreadsExited(c: Config, s: State, t: nat)
    requires Control(c, s) && s.parent == Finished && !c.processes && t < c.crew
    ensures s.workers[t] == Exited
  {
    assert WorkerOk(c, s, t);
  }

  /** No deadlock: until the parent has finished and, in the thread version, every thread has
      exited, some step is possible. */
  lemma NoDeadlock(c: Config, s: State)
    requires Inv(c, s) && (s.parent != Finished || (!c.processes && !AllExited(c, s)))
    ensures exists a :: Enabled(c, s, a)
  {
    if s.parent == Finished {
      var t :| 0 <= t < c.crew && s.workers[t] != Exited;
      FinishedThreadsExited(c, s, t);
    } else if ParentEnabled(c, s) {
      assert Enabled(c, s, TheParent);
    } else {
      if s.lock.HeldBy? {
        assert WorkerOk(c, s, s.lock.worker);
      }
      var y := s.parent.next;
      assert WorkerOk(c, s, y);
      WorkerCanMove(c, s, y);
      var u :| 0 <= u < c.crew && WorkerEnabled(c, s, u);
      assert Enabled(c, s, TheWorker(u));
    }
  }

  function Stage(p: Parent): nat {
    match p
    case LoopTest => 8
    case TakeQueue => 7
    case ResetHead => 6
    case DropQueue => 5
    case Release(_) => 4
    case Collect(_) => 3
    case Copy(_, _) => 2
    case Advance => 1
    case FinalRelease(_) => 2
    case Join(_) => 1
    case Finished => 0
  }

  function Outer(c: Config, p: Parent): int {
    match p
    case Release(y) => c.crew - y
    case Collect(y) => c.crew - y
    case FinalRelease(y) => c.crew - y
    case Join(y) => c.crew - y
    case Copy(row, _) => c.input.n - row
    case _ => 0
  }

  function Inner(c: Config, p: Parent): int {
    match p
    case Copy(_, col) => c.input.n - col
    case _ => 0
  }

  /** Steps worker t can take before it next moves the queue index or blocks. */
  function WorkerRank(c: Config, w: Worker, tokens: nat): nat {
    20 * tokens + match w
                  case Exited => 0
                  case AwaitRelease => 1
                  case OuterTestAgain => 2
                  case OuterTest => 3
                  case Report => 4
                  case BumpHead(_) => 5
                  case ReadHead => 6
                  case TakeLock => 7
                  case InnerTest => 8
                  case Cell(_, col) => if col <= c.input.n then 9 + c.input.n - col else 9
                  case CheckRow(_) => 10 + c.input.n
                  case DropLock(_) => 11 + c.input.n
  }

  function CrewRank(c: Config, s: State): nat
    requires |s.workers| == |s.p2c| == c.crew
  {
    Total(seq(c.crew, t requires 0 <= t < c.crew => WorkerRank(c, s.workers[t], s.p2c[t])))
  }

  /** Every step of every actor lowers a well-founded rank, so no schedule runs forever. */
  ghost predicate RankFalls(c: Config, s: State, s': State)
    requires Shape(c, s) && Shape(c, s')
  {
    var n, p, q := c.input.n, s.parent, s'.parent;
    (n - s.iter, Stage(p), Outer(c, p), Inner(c, p), n + c.crew - s.head, CrewRank(c, s)
       decreases to
     n - s'.iter, Stage(q), Outer(c, q), Inner(c, q), n + c.crew - s'.head, CrewRank(c, s'))
  }

  lemma ParentRankFalls(c: Config, s: State)
    requires Inv(c, s) && ParentEnabled(c, s)
    ensures RankFalls(c, s, ParentStep(c, s))
  {
    ParentKeepsControl(c, s);
  }

  lemma WorkerRankFalls(c: Config, s: State, t: nat)
    requires Inv(c, s) && t < c.crew && WorkerEnabled(c, s, t)
    ensures RankFalls(c, s, WorkerStep(c, s, t))
  {
    assert WorkerOk(c, s, t);
    WorkerKeepsControl(c, s, t);
    ParentUntouched(c, s, t);
    QueueBound(c, s);
    var s' := WorkerStep(c, s, t);
    if !s.workers[t].BumpHead? {
      TotalFalls(seq(c.crew, u requires 0 <= u < c.crew => WorkerRank(c, s.workers[u], s.p2c[u])),
                 seq(c.crew, u requires 0 <= u < c.crew => WorkerRank(c, s'.workers[u], s'.p2c[u])), t);
    }
  }

  lemma StepRankFalls(c: Config, s: State, a: Actor)
    requires Inv(c, s) && Enabled(c, s, a)
    ensures RankFalls(c, s, Step(c, s, a))
  {
    match a
    case TheParent => ParentRankFalls(c, s);
    case TheWorker(t) => WorkerRankFalls(c, s, t);
  }

  // ----- what the invariant says

  ghost predicate RoundsOver(c: Config, s: State) {
    || s.parent.FinalRelease? || s.parent.Join? || s.parent.Finished?
    || (s.parent.LoopTest? && s.iter == c.input.n)
  }

  lemma ClosureWhenRoundsOver(c: Config, s: State)
    requires Inv(c, s) && RoundsOver(c, s)
    ensures IsClosureOf(s.prev, c.input) && IsClosureOf(s.curr, c.input)
  {
    LastRoundIsClosure(c.input);
  }

  /** Worker t waits for a release that has not come. */
  predicate Waiting(s: State, t: nat)
    requires t < |s.workers| && t < |s.p2c|
  {
    s.workers[t] == AwaitRelease && s.p2c[t] == 0
  }

  lemma StuckIsComplete(c: Config, s: State)
    requires Inv(c, s) && !exists a :: Enabled(c, s, a)
    ensures s.parent == Finished
    ensures !c.processes ==> AllExited(c, s)
    ensures forall t :: 0 <= t < c.crew ==> s.workers[t] == Exited || Waiting(s, t)
  {
    if s.parent != Finished {
      NoDeadlock(c, s);
    }
    forall t | 0 <= t < c.crew
      ensures s.workers[t] == Exited || (c.processes && Waiting(s, t))
    {
      assert WorkerOk(c, s, t);
      assert !Enabled(c, s, TheWorker(t));
    }
  }

  // ----- results, for every run

  ghost predicate Next(c: Config, s: State, s': State) {
    Shape(c, s) && exists a :: Enabled(c, s, a) && s' == Step(c, s, a)
  }

  /** A run: any interleaving of enabled steps from the initial state. */
  ghost predicate IsRun(c: Config, run: seq<State>) {
    |run| >= 1 && Init(c, run[0]) && forall i :: 0 <= i < |run| - 1 ==> StepAt(c, run, i)
  }

  ghost predicate StepAt(c: Config, run: seq<State>, i: nat)
    requires i + 1 < |run|
  {
    Next(c, run[i], run[i + 1])
  }

  lemma {:induction false} RunKeepsInv(c: Config, run: seq<State>, k: nat)
    requires ValidConfig(c) && IsRun(c, run) && k < |run|
    ensures Inv(c, run[k])
  {
    if k == 0 {
      InitInv(c, run[0]);
    } else {
      RunKeepsInv(c, run, k - 1);
      assert StepAt(c, run, k - 1);
      var a :| Enabled(c, run[k - 1], a) && run[k] == Step(c, run[k - 1], a);
      StepKeepsInv(c, run[k - 1], a);
    }
  }

  /** The step that leads from run[k] to run[k + 1]. */
  lemma RunStep(c: Config, run: seq<State>, k: nat) returns (a: Actor)
    requires ValidConfig(c) && IsRun(c, run) && k + 1 < |run|
    ensures Inv(c, run[k]) && Enabled(c, run[k], a) && run[k + 1] == Step(c, run[k], a)
  {
    RunKeepsInv(c, run, k);
    assert StepAt(c, run, k);
    a :| Enabled(c, run[k], a) && run[k + 1] == Step(c, run[k], a);
  }

  /** When the parent's round loop is over, in any run, both matrices hold exactly the pairs
      joined by a nonempty walk, and both are the matrix of the sequential algorithm. */
  lemma RunComputesClosure(c: Config, run: seq<State>, k: nat)
    requires ValidConfig(c) && IsRun(c, run) && k < |run| && RoundsOver(c, run[k])
    ensures IsClosureOf(run[k].prev, c.input) && IsClosureOf(run[k].curr, c.input)
  {
    RunKeepsInv(c, run, k);
    ClosureWhenRoundsOver(c, run[k]);
  }

  ghost predicate Stuck(c: Config, run: seq<State>, k: nat)
    requires k < |run|
  {
    Shape(c, run[k]) && !exists a :: Enabled(c, run[k], a)
  }

  /** A run that cannot be extended has a finished parent; in the thread version every thread
      has exited, and a process has exited or waits for ever. */
  lemma StuckRunIsComplete(c: Config, run: seq<State>, k: nat)
    requires ValidConfig(c) && IsRun(c, run) && k < |run| && Stuck(c, run, k)
    ensures run[k].parent == Finished
    ensures !c.processes ==> AllExited(c, run[k])
    ensures forall t :: 0 <= t < c.crew ==> run[k].workers[t] == Exited || Waiting(run[k], t)
  {
    RunKeepsInv(c, run, k);
    StuckIsComplete(c, run[k]);
  }

  // ----- which child processes are left waiting

  lemma LateStep(c: Config, s: State, a: Actor, t: nat)
    requires Inv(c, s) && c.processes && s.iter == c.input.n && t < c.crew && Enabled(c, s, a)
    ensures Step(c, s, a).iter == c.input.n
    ensures Step(c, s, a).workers[t] == AwaitRelease <==> s.workers[t] == AwaitRelease
  {
    assert WorkerOk(c, s, t);
    assert s.parent == LoopTest || s.parent == Finished;
  }

  lemma LateRunStep(c: Config, run: seq<State>, k: nat, t: nat)
    requires ValidConfig(c) && c.processes && IsRun(c, run) && k + 1 < |run| && t < c.crew && run[k].iter == c.input.n
    ensures Shape(c, run[k]) && Shape(c, run[k + 1]) && run[k + 1].iter == c.input.n
    ensures run[k + 1].workers[t] == AwaitRelease <==> run[k].workers[t] == AwaitRelease
  {
    var a := RunStep(c, run, k);
    LateStep(c, run[k], a, t);
  }

  lemma RunShape(c: Config, run: seq<State>, k: nat)
    requires ValidConfig(c) && IsRun(c, run) && k < |run|
    ensures Shape(c, run[k])
  {
    RunKeepsInv(c, run, k);
  }

  /** From the moment the iterator reaches the number of rows, a child that is already at its
      `sem_wait` stays there, and a child that is not there never gets there. So the children left
      waiting are exactly those that passed their outer test before the parent's last advance. */
  lemma {:induction false} WhoIsLeftWaiting(c: Config, run: seq<State>, j: nat, k: nat, t: nat)
    requires ValidConfig(c) && c.processes && IsRun(c, run) && j <= k < |run| && t < c.crew
    requires run[j].iter == c.input.n
    ensures Shape(c, run[j]) && Shape(c, run[k]) && run[k].iter == c.input.n
    ensures run[k].workers[t] == AwaitRelease <==> run[j].workers[t] == AwaitRelease
  {
    RunShape(c, run, j);
    if j < k {
      WhoIsLeftWaiting(c, run, j, k - 1, t);
      LateRunStep(c, run, k - 1, t);
    }
  }

  ghost predicate EveryStuckRunEndsAll(c: Config) {
    forall run: seq<State>, k: nat :: IsRun(c, run) && k < |run| && Stuck(c, run, k) ==> AllExited(c, run[k])
  }

  /** The process version always ends with every child gone if and only if the graph is empty. */
  lemma ChildrenAlwaysExitOnlyWithoutRows(c: Config)
    requires ValidConfig(c) && c.processes
    ensures EveryStuckRunEndsAll(c) <==> c.input.n == 0
  {
    if c.input.n == 0 {
      forall run: seq<State>, k: nat | IsRun(c, run) && k < |run| && Stuck(c, run, k) ensures AllExited(c, run[k]) {
        StuckRunIsComplete(c, run, k);
        forall t | 0 <= t < c.crew ensures run[k].workers[t] == Exited {
          WhoIsLeftWaiting(c, run, 0, k, t);
        }
      }
    } else {
      var run, last := RunLeavingAllWaiting(c);
      assert Waiting(last, 0) && !AllExited(c, run[|run| - 1]);
    }
  }

  /** Whenever there is a row, some run ends with every child waiting for ever: let the workers go
      first whenever one of them can move. */
  lemma RunLeavingAllWaiting(c: Config) returns (run: seq<State>, last: State)
    requires ValidConfig(c) && c.processes && c.input.n >= 1
    ensures IsRun(c, run) && Stuck(c, run, |run| - 1) && last == run[|run| - 1]
    ensures |last.workers| == |last.p2c| == c.crew && forall t :: 0 <= t < c.crew ==> Waiting(last, t)
  {
    run := RunToLastAdvance(c);
    var s := run[|run| - 1];
    var s1 := Step(c, s, TheParent);
    last := Step(c, s1, TheParent);
    RunExtended(c, run, TheParent);
    RunExtended(c, run + [s1], TheParent);
    forall t | 0 <= t < c.crew ensures Waiting(last, t) {
      assert WorkerOk(c, s, t) && !WorkerEnabled(c, s, t);
    }
    forall a ensures !Enabled(c, last, a) {
      if a.TheWorker? && a.id < c.crew {
        assert Waiting(last, a.id);
      }
    }
    run := run + [s1] + [last];
  }

  lemma RunExtended(c: Config, run: seq<State>, a: Actor)
    requires IsRun(c, run) && Shape(c, run[|run| - 1]) && Enabled(c, run[|run| - 1], a)
    ensures IsRun(c, run + [Step(c, run[|run| - 1], a)])
  {
    var longer := run + [Step(c, run[|run| - 1], a)];
    forall i | 0 <= i < |longer| - 1 ensures StepAt(c, longer, i) {
      if i < |run| - 1 {
        assert StepAt(c, run, i);
      }
    }
  }

  ghost predicate WorkersBlocked(c: Config, s: State)
    requires Shape(c, s)
  {
    forall t :: 0 <= t < c.crew ==> !WorkerEnabled(c, s, t)
  }

  /** With the workers going first, the parent comes to its last advance with all of them blocked. */
  lemma RunToLastAdvance(c: Config) returns (run: seq<State>)
    requires ValidConfig(c) && c.input.n >= 1
    ensures IsRun(c, run) && Inv(c, run[|run| - 1])
    ensures run[|run| - 1].parent == Advance && run[|run| - 1].iter == c.input.n - 1
    ensures WorkersBlocked(c, run[|run| - 1])
  {
    var s := InitState(c);
    InitInv(c, s);
    run := [s];
    while !(s.parent == Advance && s.iter == c.input.n - 1 && WorkersBlocked(c, s))
      invariant IsRun(c, run) && s == run[|run| - 1] && Inv(c, s) && s.iter < c.input.n
      invariant s.head <= c.input.n + c.crew
      decreases c.input.n - s.iter, Stage(s.parent), Outer(c, s.parent), Inner(c, s.parent),
                c.input.n + c.crew - s.head, CrewRank(c, s)
    {
      var a := WorkerFirst(c, s);
      RunExtended(c, run, a);
      StepKeepsInv(c, s, a);
      StepRankFalls(c, s, a);
      s := Step(c, s, a);
      run := run + [s];
      QueueBound(c, s);
    }
  }

  lemma WorkerFirst(c: Config, s: State) returns (a: Actor)
    requires Inv(c, s) && s.iter < c.input.n
    requires !(s.parent == Advance && s.iter == c.input.n - 1 && WorkersBlocked(c, s))
    ensures Enabled(c, s, a) && Step(c, s, a).iter < c.input.n
  {
    if WorkersBlocked(c, s) {
      NoDeadlock(c, s);
      a :| Enabled(c, s, a);
      assert a == TheParent;
    } else {
      var t :| 0 <= t < c.crew && WorkerEnabled(c, s, t);
      a := TheWorker(t);
      ParentUntouched(c, s, t);
    }
  }

  // ----- the rows of one round

  /** Between the reset of the queue and the end of the round. */
  predicate RoundRuns(p: Parent) {
    p.Release? || p.Collect? || p.Copy? || p.Advance?
  }

  /** Nothing is taken back within a round: the history only grows until the iterator moves on. */
  ghost predicate SameRoundLater(s: State, s': State) {
    s.iter < s'.iter || (s.iter == s'.iter && RoundRuns(s'.parent) && Extends(s.takers, s'.takers))
  }

  ghost predicate Extends(q: seq<nat>, q': seq<nat>) {
    |q| <= |q'| && forall i :: 0 <= i < |q| ==> q'[i] == q[i]
  }

  lemma SameRoundChains(s: State, s': State, s'': State)
    requires SameRoundLater(s, s') && s'.iter <= s''.iter
    requires RoundRuns(s'.parent) ==> SameRoundLater(s', s'')
    ensures SameRoundLater(s, s'')
  {
  }

  lemma StepStaysInRound(c: Config, s: State, a: Actor)
    requires Shape(c, s) && Enabled(c, s, a)
    ensures s.iter <= Step(c, s, a).iter
    ensures RoundRuns(s.parent) ==> SameRoundLater(s, Step(c, s, a))
  {
  }

  lemma RunStaysInRound(c: Config, run: seq<State>, k: nat)
    requires ValidConfig(c) && IsRun(c, run) && k + 1 < |run|
    ensures run[k].iter <= run[k + 1].iter
    ensures RoundRuns(run[k].parent) ==> SameRoundLater(run[k], run[k + 1])
  {
    var a := RunStep(c, run, k);
    StepStaysInRound(c, run[k], a);
  }

  lemma {:induction false} TakersOnlyGrow(c: Config, run: seq<State>, j: nat, k: nat)
    requires ValidConfig(c) && IsRun(c, run) && j <= k < |run| && RoundRuns(run[j].parent)
    ensures SameRoundLater(run[j], run[k])
  {
    if j < k {
      TakersOnlyGrow(c, run, j, k - 1);
      RunStaysInRound(c, run, k - 1);
      SameRoundChains(run[j], run[k - 1], run[k]);
    }
  }

  /** The row that a worker has taken off the queue and still holds. */
  function Holding(w: Worker): int {
    match w
    case DropLock(row) => row
    case CheckRow(row) => row
    case Cell(row, _) => row
    case _ => -1
  }

  lemma HolderIsTaker(c: Config, s: State, t: nat)
    requires Control(c, s) && t < c.crew && Holding(s.workers[t]) >= 0
    ensures Holding(s.workers[t]) < s.head && s.takers[Holding(s.workers[t])] == t && RoundRuns(s.parent)
  {
    assert WorkerOk(c, s, t);
  }

  /** Within a round a row has one worker: whoever holds it at any two moments is the same. */
  lemma RowHasOneWorker(c: Config, run: seq<State>, j: nat, k: nat, t: nat, u: nat)
    requires ValidConfig(c) && IsRun(c, run) && j <= k < |run| && t < c.crew && u < c.crew
    requires |run[j].workers| == |run[k].workers| == c.crew && run[j].iter == run[k].iter
    requires Holding(run[j].workers[t]) >= 0 && Holding(run[j].workers[t]) == Holding(run[k].workers[u])
    ensures t == u
  {
    RunKeepsInv(c, run, j);
    RunKeepsInv(c, run, k);
    HolderIsTaker(c, run[j], t);
    HolderIsTaker(c, run[k], u);
    TakersOnlyGrow(c, run, j, k);
  }

  /** In the step from s to s', worker t takes index i off the queue. */
  ghost predicate Dequeues(s: State, s': State, t: nat, i: nat) {
    t < |s.workers| == |s'.workers| && s.workers[t] == BumpHead(i) && s'.workers[t] == DropLock(i)
  }

  lemma MoverIsActor(c: Config, s: State, a: Actor, t: nat)
    requires Shape(c, s) && Enabled(c, s, a) && t < c.crew && Step(c, s, a).workers[t] != s.workers[t]
    ensures a == TheWorker(t)
  {
  }

  lemma DequeueFacts(c: Config, s: State, a: Actor, t: nat, i: nat)
    requires Inv(c, s) && Enabled(c, s, a) && Dequeues(s, Step(c, s, a), t, i)
    ensures var s' := Step(c, s, a);
            && s.head == i && s'.head == i + 1 && |s'.takers| == i + 1 && s'.takers[i] == t
            && RoundRuns(s.parent) && s'.parent == s.parent && s'.iter == s.iter
  {
    MoverIsActor(c, s, a, t);
    assert WorkerOk(c, s, t);
  }

  /** Within a round no index is dequeued a second time, by anybody. */
  lemma DequeuedOnce(c: Config, run: seq<State>, j: nat, k: nat, t: nat, u: nat, i: nat)
    requires ValidConfig(c) && IsRun(c, run) && j < k < |run| - 1 && run[j].iter == run[k].iter
    requires Dequeues(run[j], run[j + 1], t, i)
    ensures !Dequeues(run[k], run[k + 1], u, i)
  {
    var a := RunStep(c, run, j);
    DequeueFacts(c, run[j], a, t, i);
    TakersOnlyGrow(c, run, j + 1, k);
    var b := RunStep(c, run, k);
    RunHeads(c, run, j + 1);
    RunHeads(c, run, k);
    if Dequeues(run[k], run[k + 1], u, i) {
      DequeueFacts(c, run[k], b, u, i);
    }
  }

  lemma RunHeads(c: Config, run: seq<State>, k: nat)
    requires ValidConfig(c) && IsRun(c, run) && k < |run|
    ensures run[k].head == |run[k].takers|
  {
    RunShape(c, run, k);
  }

  lemma StepTakes(c: Config, s: State, a: Actor, i: nat)
    requires Inv(c, s) && Enabled(c, s, a)
    requires RoundRuns(Step(c, s, a).parent) && i < Step(c, s, a).head
    ensures Step(c, s, a).iter == s.iter && |Step(c, s, a).takers| == Step(c, s, a).head
    ensures if i < s.head then RoundRuns(s.parent) && |s.takers| == s.head && Step(c, s, a).takers[i] == s.takers[i]
            else Dequeues(s, Step(c, s, a), Step(c, s, a).takers[i], i)
  {
    if a.TheWorker? {
      assert WorkerOk(c, s, a.id);
    }
  }

  lemma RunStepTakes(c: Config, run: seq<State>, k: nat, i: nat)
    requires ValidConfig(c) && IsRun(c, run) && k + 1 < |run|
    requires RoundRuns(run[k + 1].parent) && i < run[k + 1].head
    ensures run[k + 1].iter == run[k].iter && |run[k + 1].takers| == run[k + 1].head
    ensures if i < run[k].head
            then RoundRuns(run[k].parent) && |run[k].takers| == run[k].head && run[k + 1].takers[i] == run[k].takers[i]
            else Dequeues(run[k], run[k + 1], run[k + 1].takers[i], i)
  {
    var a := RunStep(c, run, k);
    StepTakes(c, run[k], a, i);
  }

  lemma RoundsNeedSteps(c: Config, run: seq<State>, k: nat)
    requires IsRun(c, run) && k < |run| && RoundRuns(run[k].parent)
    ensures k > 0
  {
  }

  /** Every index the queue has given out in this round was dequeued in this round, by its taker. */
  lemma {:induction false} EveryTakenWasDequeued(c: Config, run: seq<State>, k: nat, i: nat) returns (j: nat)
    requires ValidConfig(c) && IsRun(c, run) && k < |run| && RoundRuns(run[k].parent)
    requires i < run[k].head == |run[k].takers|
    ensures j < k && run[j].iter == run[k].iter && Dequeues(run[j], run[j + 1], run[k].takers[i], i)
  {
    RoundsNeedSteps(c, run, k);
    RunStepTakes(c, run, k - 1, i);
    if i < run[k - 1].head {
      j := EveryTakenWasDequeued(c, run, k - 1, i);
    } else {
      j := k - 1;
    }
  }

  lemma RunHolderMovesOn(c: Config, run: seq<State>, k: nat, t: nat, i: nat)
    requires ValidConfig(c) && IsRun(c, run) && k + 1 < |run| && t < c.crew && i < c.input.n
    ensures |run[k].workers| == |run[k + 1].workers| == c.crew
    ensures Holding(run[k].workers[t]) == i ==>
              Holding(run[k + 1].workers[t]) == i || run[k].workers[t] == Cell(i, c.input.n)
  {
    var a := RunStep(c, run, k);
    if Holding(run[k].workers[t]) == i {
      HolderMovesOn(c, run[k], a, t, i);
    }
  }

  /** The taker of a row still holds it, or has been at the end of it. */
  lemma {:induction false} TakerFinishesRow(c: Config, run: seq<State>, j: nat, k: nat, t: nat, i: nat) returns (m: nat)
    requires ValidConfig(c) && IsRun(c, run) && j < k < |run|
    requires Dequeues(run[j], run[j + 1], t, i) && i < c.input.n && t < c.crew
    ensures |run[k].workers| == c.crew
    ensures Holding(run[k].workers[t]) == i ||
            (j < m < k && t < |run[m].workers| && run[m].workers[t] == Cell(i, c.input.n))
  {
    RunShape(c, run, k);
    m := k;
    if j + 1 < k {
      m := TakerFinishesRow(c, run, j, k - 1, t, i);
      RunHolderMovesOn(c, run, k - 1, t, i);
      if Holding(run[k - 1].workers[t]) == i {
        m := k - 1;
      }
    }
  }

  lemma {:induction false} IterOnlyGrows(c: Config, run: seq<State>, j: nat, k: nat)
    requires ValidConfig(c) && IsRun(c, run) && j <= k < |run|
    ensures run[j].iter <= run[k].iter
  {
    if j < k {
      IterOnlyGrows(c, run, j, k - 1);
      RunStaysInRound(c, run, k - 1);
    }
  }

  lemma HolderMovesOn(c: Config, s: State, a: Actor, t: nat, i: nat)
    requires Inv(c, s) && Enabled(c, s, a) && t < c.crew && i < c.input.n && Holding(s.workers[t]) == i
    ensures Holding(Step(c, s, a).workers[t]) == i || s.workers[t] == Cell(i, c.input.n)
  {
    assert WorkerOk(c, s, t);
  }

  /** Row i was dequeued before k in the round of run[k], exactly once, and the worker that took
      it went on to the end of the row in that round. */
  ghost predicate HandedOut(c: Config, run: seq<State>, k: nat, i: nat)
    requires k < |run| && i < |run[k].takers|
  {
    exists j, m :: 0 <= j < m < k && run[j].iter == run[m].iter == run[k].iter &&
      TakenAndFinished(c, run, j, m, run[k].takers[i], i)
  }

  ghost predicate TakenAndFinished(c: Config, run: seq<State>, j: nat, m: nat, t: nat, i: nat)
    requires j < m < |run|
  {
    Dequeues(run[j], run[j + 1], t, i) && t < |run[m].workers| && run[m].workers[t] == Cell(i, c.input.n)
  }

  /** Once the parent copies, every row of this round has been dequeued in this round and computed
      to its end by the worker that dequeued it, the queue has overshot by less than the crew,
      every row of `curr` carries this round's k, and no worker is inside a row. */
  lemma RoundHandsOutEveryRow(c: Config, run: seq<State>, k: nat)
    requires ValidConfig(c) && IsRun(c, run) && k < |run| && run[k].parent.Copy?
    ensures c.input.n <= run[k].head == |run[k].takers| <= c.input.n + c.crew - 1
    ensures run[k].iter < c.input.n && run[k].curr == Phases(c.input.matrix, c.input.n, run[k].iter + 1)
    ensures |run[k].workers| == c.crew && forall t :: 0 <= t < c.crew ==> Idle(run[k].workers[t])
    ensures forall i :: 0 <= i < c.input.n ==> HandedOut(c, run, k, i)
  {
    RunKeepsInv(c, run, k);
    QueueBound(c, run[k]);
    forall t | 0 <= t < c.crew ensures Idle(run[k].workers[t]) {
      assert WorkerOk(c, run[k], t);
    }
    forall i | 0 <= i < c.input.n ensures HandedOut(c, run, k, i) {
      var t := run[k].takers[i];
      var j := EveryTakenWasDequeued(c, run, k, i);
      assert WorkerOk(c, run[k], t);
      var m := TakerFinishesRow(c, run, j, k, t, i);
      IterOnlyGrows(c, run, j, m);
      IterOnlyGrows(c, run, m, k);
      assert TakenAndFinished(c, run, j, m, t, i);
    }
  }

  /** The index of the queue that a worker carries after a dequeue, if it carries one. */
  function Carried(w: Worker): int {
    match w
    case BumpHead(row) => row
    case DropLock(row) => row
    case CheckRow(row) => row
    case Cell(row, _) => row
    case _ => -1
  }

  /** At no time do two workers carry the same index of the queue. */
  lemma RowsAreExclusive(c: Config, run: seq<State>, k: nat, t: nat, u: nat)
    requires ValidConfig(c) && IsRun(c, run) && k < |run| && t < c.crew && u < c.crew && t != u
    requires |run[k].workers| == c.crew && Carried(run[k].workers[t]) >= 0
    ensures Carried(run[k].workers[t]) != Carried(run[k].workers[u])
  {
    RunKeepsInv(c, run, k);
    assert WorkerOk(c, run[k], t) && WorkerOk(c, run[k], u);
  }

  /** Every semaphore stays binary, and every unlock hits a locked one. */
  lemma SemaphoresAreBinary(c: Config, run: seq<State>, k: nat, t: nat)
    requires ValidConfig(c) && IsRun(c, run) && k < |run| && t < c.crew
    ensures Shape(c, run[k])
    ensures run[k].p2c[t] <= 1 && run[k].c2p[t] <= 1
    ensures run[k].workers[t].Report? ==> run[k].c2p[t] == 0
    ensures run[k].parent == Release(t) || run[k].parent == FinalRelease(t) ==> run[k].p2c[t] == 0
    ensures run[k].workers[t].DropLock? ==> run[k].lock == HeldBy(t)
    ensures run[k].parent == DropQueue ==> run[k].lock == HeldByParent
  {
    RunKeepsInv(c, run, k);
    assert WorkerOk(c, run[k], t);
  }

  /** No cell access of a worker or of the parent leaves the matrices. */
  lemma AccessesInRange(c: Config, run: seq<State>, k: nat, t: nat)
    requires ValidConfig(c) && IsRun(c, run) && k < |run| && t < c.crew
    ensures Shape(c, run[k])
    ensures run[k].workers[t].Cell? && run[k].workers[t].col < c.input.n ==>
              CellInRange(c, run[k], run[k].workers[t].row, run[k].workers[t].col)
  {
    RunKeepsInv(c, run, k);
    assert WorkerOk(c, run[k], t);
    if run[k].workers[t].Cell? {
      CellsOnlyInRounds(c, run[k], t);
    }
  }

  /** No worker leaves its outer loop while a round remains. */
  lemma NoEarlyExit(c: Config, run: seq<State>, k: nat, t: nat)
    requires ValidConfig(c) && IsRun(c, run) && k < |run| && t < c.crew
    requires |run[k].workers| == c.crew && run[k].workers[t] == Exited
    ensures run[k].iter == c.input.n
  {
    RunKeepsInv(c, run, k);
    assert WorkerOk(c, run[k], t);
  }

  // ----- running it

  function InitState(c: Config): (s: State)
    requires ValidConfig(c)
    ensures Init(c, s)
  {
    State(0, 0, Free, seq(c.crew, _ => 0), seq(c.crew, _ => 0),
          c.input.matrix, Zeros(c.input.n), seq(c.crew, _ => OuterTest), LoopTest, [])
  }

  function EnabledActors(c: Config, s: State): set<Actor>
    requires Shape(c, s)
  {
    (if ParentEnabled(c, s) then {TheParent} else {}) +
    (set t | 0 <= t < c.crew && WorkerEnabled(c, s, t) :: TheWorker(t))
  }

  lemma EnabledActorsAreAll(c: Config, s: State, a: Actor)
    requires Shape(c, s)
    ensures a in EnabledActors(c, s) <==> Enabled(c, s, a)
  {
  }

  /** One step of an actor that the scheduler chooses freely among the enabled ones. */
  method StepAny(c: Config, s: State, actors: set<Actor>) returns (s': State, actors': set<Actor>)
    requires Inv(c, s) && actors == EnabledActors(c, s) && actors != {}
    ensures Next(c, s, s') && Inv(c, s') && RankFalls(c, s, s')
    ensures actors' == EnabledActors(c, s') && s'.head <= c.input.n + c.crew
  {
    var a :| a in actors;
    EnabledActorsAreAll(c, s, a);
    StepKeepsInv(c, s, a);
    StepRankFalls(c, s, a);
    s' := Step(c, s, a);
    actors' := EnabledActors(c, s');
    QueueBound(c, s');
  }

  lemma NobodyEnabled(c: Config, s: State)
    requires Shape(c, s) && EnabledActors(c, s) == {}
    ensures !exists a :: Enabled(c, s, a)
  {
    forall a | Enabled(c, s, a) ensures a in EnabledActors(c, s) {
      EnabledActorsAreAll(c, s, a);
    }
  }

  /** Under any scheduler whatever the program stops, and it stops with the closure. */
  method RunUnderAnySchedule(c: Config) returns (result: Matrix, last: State)
    requires ValidConfig(c)
    ensures IsClosureOf(result, c.input)
    ensures last.parent == Finished && |last.workers| == c.crew
    ensures !c.processes ==> AllExited(c, last)
  {
    var s := InitState(c);
    InitInv(c, s);
    var actors := EnabledActors(c, s);
    while actors != {}
      invariant Inv(c, s) && actors == EnabledActors(c, s) && s.head <= c.input.n + c.crew
      decreases c.input.n - s.iter, Stage(s.parent), Outer(c, s.parent), Inner(c, s.parent),
                c.input.n + c.crew - s.head, CrewRank(c, s)
    {
      s, actors := StepAny(c, s, actors);
    }
    NobodyEnabled(c, s);
    StuckIsComplete(c, s);
    ClosureWhenRoundsOver(c, s);
    result, last := if c.processes then s.curr else s.prev, s;
  }
}
