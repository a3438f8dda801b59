/** The scheduler on several CPUs that share one run queue. What a CPU does under the run-queue
    lock is one step; the lock is free while counters are recalculated, one task at a time, and
    from the commit of a choice until the switched-in task has released the old one. */
module Multiprocessor {
  import opened Tasks

  /** `bonus` is PROC_CHANGE_PENALTY. Tasks 0, ..., cpus - 1 are the idle tasks of the CPUs. */
  datatype Setup = Setup(cpus: nat, hz: nat, bonus: nat, formula: Formula)

  datatype Phase =
    | Executing
    | Recalculating(left: seq<Tid>)      // inside schedule, lock dropped
    | Switching(prev: Tid)               // choice committed, prev not yet released

  datatype Machine = Machine(
    tasks: TaskTable, all: seq<Tid>, queue: seq<Tid>, nrRunning: int,
    curr: seq<Tid>, phase: seq<Phase>, processes: map<nat, int>)

  /** CPU c runs p, or is still switching it out. */
  predicate Holds(m: Machine, c: nat, p: Tid)
    requires c < |m.curr| && c < |m.phase|
  {
    m.curr[c] == p || m.phase[c] == Switching(p)
  }

  predicate IsIdle(u: Setup, p: Tid) {
    p < u.cpus
  }

  /** Every CPU and task that a step looks at exists. */
  ghost predicate Present(u: Setup, m: Machine) {
    && |m.curr| == |m.phase| == u.cpus
    && (forall c :: 0 <= c < u.cpus ==> m.curr[c] in m.tasks && c in m.tasks)
    && (forall c :: 0 <= c < u.cpus && m.phase[c].Switching? ==> m.phase[c].prev in m.tasks)
    && (forall p :: p in m.queue ==> p in m.tasks)
    && (forall p :: p in m.tasks ==> m.tasks[p].processor < u.cpus)
  }

  // ----- the steps

  function Put(m: Machine, p: Tid, t: Task): Machine {
    m.(tasks := m.tasks[p := t])
  }

  /** `this_cpu`: the CPU that the current task believes it is on. */
  function ThisCpuOf(m: Machine, c: nat): nat
    requires c < |m.curr| && m.curr[c] in m.tasks
  {
    m.tasks[m.curr[c]].processor
  }

  function ScanFor(u: Setup, m: Machine, c: nat): (r: Choice)
    requires Present(u, m) && c < u.cpus
    ensures r.next in m.queue || r.next == ThisCpuOf(m, c)
  {
    var cpu := Multi(ThisCpuOf(m, c), u.bonus, m.tasks[m.curr[c]].activeMm);
    ScanStaysInQueue(cpu, m.tasks, m.queue, ThisCpuOf(m, c));
    Scan(cpu, m.tasks, m.queue, ThisCpuOf(m, c))
  }

  /** Save the choice for this CPU and set the task's CPU, both under the lock. */
  function Commit(u: Setup, m: Machine, c: nat, next: Tid): (r: Machine)
    requires Present(u, m) && c < u.cpus && next in m.tasks
    ensures Present(u, r)
  {
    var prev, here := m.curr[c], ThisCpuOf(m, c);
    var placed := m.tasks[next].(processor := here, runnable := OnCpu(here));
    if prev == next then
      Put(m, next, placed.(yielding := false)).(curr := m.curr[here := next], phase := m.phase[c := Executing])
    else
      Put(m, next, placed).(curr := m.curr[here := next], phase := m.phase[c := Switching(prev)])
  }

  /** The scan, and what follows it under the same hold of the lock. */
  function Decide(u: Setup, m: Machine, c: nat): (r: Machine)
    requires Present(u, m) && c < u.cpus
    ensures Present(u, r)
  {
    var best := ScanFor(u, m, c);
    if best.weight == 0 then m.(phase := m.phase[c := Recalculating(m.all)])
    else Commit(u, m, c, best.next)
  }

  /** schedule() up to the scan: requeue an exhausted round-robin task, take a task that is not
      runnable off the queue. */
  function Leave(u: Setup, m: Machine, c: nat, signal: bool): (r: Machine)
    requires Present(u, m) && c < u.cpus
    ensures Present(u, r)
  {
    var p := m.curr[c];
    var t := m.tasks[p];
    var expired := t.Is(RoundRobin) && t.counter == 0;
    var t1 := if expired then t.(counter := NiceToTicks(u.hz, t.nice)) else t;
    var q1 := if expired then MovedLast(m.queue, p) else m.queue;
    if t.state == Interruptible && signal then
      Put(m, p, t1.(state := Running, needResched := false)).(queue := q1)
    else if t.state != Running then
      Put(m, p, t1.(onQueue := false, needResched := false)).(queue := Without(q1, p), nrRunning := m.nrRunning - 1)
    else
      Put(m, p, t1.(needResched := false)).(queue := q1)
  }

  function NewCounter(u: Setup, m: Machine, p: Tid): int
    requires p in m.tasks
  {
    NewQuantum(u.hz, u.formula, m.tasks[p], |m.all|, m.processes)
  }

  datatype Event =
    | Enter(cpu: nat, signal: bool)
    | RecalculateOne(cpu: nat)
    | Rescan(cpu: nat)
    | Tail(cpu: nat)
    | Wake(p: Tid)
    | SetState(cpu: nat, st: RunState)
    | SetAllowed(p: Tid, mask: set<nat>)
    | Tick(cpu: nat, p: Tid, counter: int)   // p is the task whose registers the CPU has loaded
    | YieldCall(cpu: nat)

  predicate Possible(u: Setup, m: Machine, e: Event)
    requires |m.curr| == |m.phase| == u.cpus
  {
    match e
    case Enter(c, _) => c < u.cpus && m.phase[c] == Executing
    case RecalculateOne(c) => c < u.cpus && m.phase[c].Recalculating? && m.phase[c].left != []
    case Rescan(c) => c < u.cpus && m.phase[c] == Recalculating([])
    case Tail(c) => c < u.cpus && m.phase[c].Switching?
    case Wake(p) => p in m.all && p in m.tasks
    case SetState(c, _) => c < u.cpus && m.phase[c] == Executing && !IsIdle(u, m.curr[c])
    case SetAllowed(p, _) => p in m.all && p in m.tasks
    case Tick(c, p, counter) =>
      c < u.cpus && Holds(m, c, p) && !IsIdle(u, p) && p in m.tasks && 0 <= counter <= m.tasks[p].counter
    case YieldCall(c) => c < u.cpus && m.phase[c] == Executing && !IsIdle(u, m.curr[c])
  }

  function Woken(m: Machine, p: Tid): Machine
    requires p in m.tasks
  {
    var t := m.tasks[p].(state := Running);
    if t.onQueue then Put(m, p, t)
    else Put(m, p, t.(onQueue := true)).(queue := m.queue + [p], nrRunning := m.nrRunning + 1)
  }

  function After(u: Setup, m: Machine, e: Event): (r: Machine)
    requires Present(u, m) && Possible(u, m, e)
    ensures Present(u, r)
  {
    match e
    case Enter(c, signal) => Decide(u, Leave(u, m, c, signal), c)
    case RecalculateOne(c) =>
      var p := m.phase[c].left[0];
      var m1 := m.(phase := m.phase[c := Recalculating(m.phase[c].left[1..])]);
      if p in m.tasks then Put(m1, p, m.tasks[p].(counter := NewCounter(u, m, p))) else m1
    case Rescan(c) => Decide(u, m, c)
    case Tail(c) =>
      var prev := m.phase[c].prev;
      Put(m, prev, m.tasks[prev].(yielding := false, runnable := AnyCpu)).(phase := m.phase[c := Executing])
    case Wake(p) => Woken(m, p)
    case SetState(c, st) => Put(m, m.curr[c], m.tasks[m.curr[c]].(state := st))
    case SetAllowed(p, mask) => Put(m, p, m.tasks[p].(allowed := mask))
    case Tick(c, p, counter) => Put(m, p, m.tasks[p].(counter := counter))
    case YieldCall(c) =>
      var t := m.tasks[m.curr[c]];
      Put(m, m.curr[c], t.(yielding := t.yielding || t.Is(Other), needResched := true))
      .(queue := MovedLast(m.queue, m.curr[c]))
  }

  // ----- invariant

  /** The mask of a task that is not idle names the CPU that holds it, if any. A runnable task is
      queued, and a task that is not runnable is queued only on its way into schedule. `deciding`
      is a CPU between its look at its task's state and its scan, if there is one. */
  ghost predicate TaskOk(u: Setup, m: Machine, p: Tid, deciding: int)
    requires Present(u, m)
  {
    && p in m.tasks && !IsIdle(u, p) && Sane(m.tasks[p]) && Accounted(u.formula, m.tasks[p], m.processes)
    && (m.tasks[p].yielding ==> m.tasks[p].policy == Other)
    && (m.tasks[p].onQueue <==> p in m.queue)
    && (m.tasks[p].state == Running ==> p in m.queue)
    && match m.tasks[p].runnable
       case AnyCpu => !m.tasks[p].yielding && (p in m.queue ==> m.tasks[p].state == Running)
       case OnCpu(c) =>
         && c < u.cpus && Holds(m, c, p)
         && (p in m.queue && m.tasks[p].state != Running ==> c != deciding && m.phase[c] == Executing)
  }

  /** CPU c holds p rightly: p is its own idle task, or a task whose mask and CPU number say c. */
  ghost predicate HeldOk(u: Setup, m: Machine, c: nat, p: Tid)
    requires Present(u, m)
  {
    && p in m.tasks
    && if IsIdle(u, p) then p == c else p in m.all && m.tasks[p].runnable == OnCpu(c) && m.tasks[p].processor == c
  }

  /** A CPU outside schedule runs a queued task or its idle task. */
  ghost predicate CpuOk(u: Setup, m: Machine, c: nat, deciding: int)
    requires Present(u, m) && c < u.cpus
  {
    && m.tasks[c].processor == c && m.tasks[c].state == Running && m.tasks[c].policy == Other
    && HeldOk(u, m, c, m.curr[c])
    && (m.phase[c].Switching? ==> m.phase[c].prev != m.curr[c] && HeldOk(u, m, c, m.phase[c].prev))
    && (c != deciding && !m.phase[c].Recalculating? && !IsIdle(u, m.curr[c]) ==> m.curr[c] in m.queue)
  }

  ghost predicate QueueOk(m: Machine) {
    NoDuplicates(m.queue) && m.nrRunning == |m.queue| && forall p :: p in m.queue ==> p in m.all
  }

  ghost predicate InvExcept(u: Setup, m: Machine, deciding: int) {
    && Present(u, m) && QueueOk(m)
    && (forall p :: p in m.all ==> TaskOk(u, m, p, deciding))
    && (forall c :: 0 <= c < u.cpus ==> CpuOk(u, m, c, deciding))
  }

  ghost predicate Inv(u: Setup, m: Machine) {
    InvExcept(u, m, -1)
  }

  /** The CPU that a task believes it is on is the CPU that runs it. */
  lemma ThisCpuIsRight(u: Setup, m: Machine, c: nat, deciding: int)
    requires Present(u, m) && c < u.cpus && CpuOk(u, m, c, deciding)
    ensures ThisCpuOf(m, c) == c
  {
  }

  lemma QueueIsSane(u: Setup, m: Machine, deciding: int)
    requires InvExcept(u, m, deciding)
    ensures AllSane(m.tasks, m.queue)
  {
    forall p | p in m.queue ensures p in m.tasks && Sane(m.tasks[p]) {
      assert TaskOk(u, m, p, deciding);
    }
  }

  /** What a commit relies on: the choice is free to run here, because it is on no CPU at all,
      or because it is this CPU's own current or idle task. */
  ghost predicate FreeFor(u: Setup, m: Machine, c: nat, next: Tid)
    requires Present(u, m) && c < u.cpus
  {
    next in m.tasks && (next == c || (next in m.queue && (next == m.curr[c] || m.tasks[next].runnable == AnyCpu)))
  }

  lemma ChoiceIsFree(u: Setup, m: Machine, c: nat)
    requires InvExcept(u, m, c) && c < u.cpus && !m.phase[c].Switching?
    ensures FreeFor(u, m, c, ScanFor(u, m, c).next)
  {
    assert CpuOk(u, m, c, c);
    ThisCpuIsRight(u, m, c, c);
    QueueIsSane(u, m, c);
    ScanFindsFirstBest(Multi(c, u.bonus, m.tasks[m.curr[c]].activeMm), m.tasks, m.queue, c);
    var next := ScanFor(u, m, c).next;
    if next in m.queue {
      assert TaskOk(u, m, next, c);
    }
  }

  // ----- schedule, first half

  lemma LeaveKeepsTask(u: Setup, m: Machine, c: nat, signal: bool, p: Tid)
    requires Present(u, m) && QueueOk(m) && c < u.cpus && m.phase[c] == Executing && CpuOk(u, m, c, -1)
    requires p in m.all && TaskOk(u, m, p, -1)
    ensures TaskOk(u, Leave(u, m, c, signal), p, c)
  {
    if !IsIdle(u, m.curr[c]) {
      WithoutMembers(m.queue, m.curr[c]);
      WithoutMembers(MovedLast(m.queue, m.curr[c]), m.curr[c]);
    }
  }

  /** All that the first half of schedule may change. */
  lemma LeaveChanges(u: Setup, m: Machine, c: nat, signal: bool)
    requires Present(u, m) && QueueOk(m) && c < u.cpus && CpuOk(u, m, c, -1) && m.phase[c] == Executing
    ensures var m', p := Leave(u, m, c, signal), m.curr[c];
            && m'.curr == m.curr && m'.phase == m.phase && m'.all == m.all && p in m.tasks && p in m'.tasks
            && (forall x :: x in m.tasks && x != p ==> x in m'.tasks && m'.tasks[x] == m.tasks[x])
            && m'.tasks[p].runnable == m.tasks[p].runnable && m'.tasks[p].processor == m.tasks[p].processor
            && (IsIdle(u, p) ==> m'.tasks[p] == m.tasks[p].(needResched := false))
            && (forall x :: x in m.queue && x != p ==> x in m'.queue)
  {
    if !IsIdle(u, m.curr[c]) {
      WithoutMembers(m.queue, m.curr[c]);
      WithoutMembers(MovedLast(m.queue, m.curr[c]), m.curr[c]);
    }
  }

  lemma LeaveKeepsCpu(u: Setup, m: Machine, m': Machine, c: nat, d: nat)
    requires Present(u, m) && Present(u, m') && c < u.cpus && CpuOk(u, m, c, -1)
    requires var p := m.curr[c];
             && m'.curr == m.curr && m'.phase == m.phase && m'.all == m.all && p in m.tasks && p in m'.tasks
             && (forall x :: x in m.tasks && x != p ==> x in m'.tasks && m'.tasks[x] == m.tasks[x])
             && m'.tasks[p].runnable == m.tasks[p].runnable && m'.tasks[p].processor == m.tasks[p].processor
             && (IsIdle(u, p) ==> m'.tasks[p] == m.tasks[p].(needResched := false))
             && (forall x :: x in m.queue && x != p ==> x in m'.queue)
    requires d < u.cpus && CpuOk(u, m, d, -1)
    ensures CpuOk(u, m', d, c)
  {
  }

  lemma LeaveKeepsQueue(u: Setup, m: Machine, c: nat, signal: bool)
    requires Present(u, m) && QueueOk(m) && c < u.cpus && m.phase[c] == Executing && CpuOk(u, m, c, -1)
    ensures QueueOk(Leave(u, m, c, signal))
  {
    if !IsIdle(u, m.curr[c]) {
      WithoutMembers(m.queue, m.curr[c]);
      WithoutMembers(MovedLast(m.queue, m.curr[c]), m.curr[c]);
    }
  }

  lemma LeaveKeeps(u: Setup, m: Machine, c: nat, signal: bool)
    requires Inv(u, m) && c < u.cpus && m.phase[c] == Executing
    ensures InvExcept(u, Leave(u, m, c, signal), c)
  {
    assert CpuOk(u, m, c, -1);
    LeaveKeepsQueue(u, m, c, signal);
    forall p | p in m.all ensures TaskOk(u, Leave(u, m, c, signal), p, c) {
      assert TaskOk(u, m, p, -1);
      LeaveKeepsTask(u, m, c, signal, p);
    }
    forall d | 0 <= d < u.cpus ensures CpuOk(u, Leave(u, m, c, signal), d, c) {
      assert CpuOk(u, m, d, -1);
      LeaveChanges(u, m, c, signal);
      LeaveKeepsCpu(u, m, Leave(u, m, c, signal), c, d);
    }
  }

  // ----- schedule, second half

  lemma CommitKeepsTask(u: Setup, m: Machine, c: nat, next: Tid, p: Tid)
    requires Present(u, m) && c < u.cpus && !m.phase[c].Switching? && CpuOk(u, m, c, c) && FreeFor(u, m, c, next)
    requires p in m.all && TaskOk(u, m, p, c)
    ensures TaskOk(u, Commit(u, m, c, next), p, -1)
  {
  }

  lemma CommitKeepsCpu(u: Setup, m: Machine, c: nat, next: Tid, d: nat)
    requires Present(u, m) && QueueOk(m) && c < u.cpus && !m.phase[c].Switching?
    requires CpuOk(u, m, c, c) && FreeFor(u, m, c, next)
    requires d < u.cpus && CpuOk(u, m, d, c)
    requires next in m.all ==> TaskOk(u, m, next, c)
    ensures CpuOk(u, Commit(u, m, c, next), d, -1)
  {
  }

  lemma CommitKeeps(u: Setup, m: Machine, c: nat, next: Tid)
    requires InvExcept(u, m, c) && c < u.cpus && !m.phase[c].Switching? && FreeFor(u, m, c, next)
    ensures Inv(u, Commit(u, m, c, next))
  {
    assert CpuOk(u, m, c, c);
    forall p | p in m.all ensures TaskOk(u, Commit(u, m, c, next), p, -1) {
      assert TaskOk(u, m, p, c);
      CommitKeepsTask(u, m, c, next, p);
    }
    forall d | 0 <= d < u.cpus ensures CpuOk(u, Commit(u, m, c, next), d, -1) {
      assert CpuOk(u, m, d, c);
      CommitKeepsCpu(u, m, c, next, d);
    }
  }

  lemma StartRecalculationKeeps(u: Setup, m: Machine, c: nat)
    requires InvExcept(u, m, c) && c < u.cpus && !m.phase[c].Switching?
    ensures Inv(u, m.(phase := m.phase[c := Recalculating(m.all)]))
  {
    var m' := m.(phase := m.phase[c := Recalculating(m.all)]);
    forall p | p in m.all ensures TaskOk(u, m', p, -1) {
      assert TaskOk(u, m, p, c);
    }
    forall d | 0 <= d < u.cpus ensures CpuOk(u, m', d, -1) {
      assert CpuOk(u, m, d, c);
    }
  }

  lemma DecideKeeps(u: Setup, m: Machine, c: nat)
    requires InvExcept(u, m, c) && c < u.cpus && !m.phase[c].Switching?
    ensures Inv(u, Decide(u, m, c))
  {
    ChoiceIsFree(u, m, c);
    if ScanFor(u, m, c).weight == 0 {
      StartRecalculationKeeps(u, m, c);
    } else {
      CommitKeeps(u, m, c, ScanFor(u, m, c).next);
    }
  }

  // ----- every event

  lemma EnterKeeps(u: Setup, m: Machine, c: nat, signal: bool)
    requires Inv(u, m) && c < u.cpus && m.phase[c] == Executing
    ensures Inv(u, After(u, m, Enter(c, signal)))
  {
    LeaveKeeps(u, m, c, signal);
    DecideKeeps(u, Leave(u, m, c, signal), c);
  }

  lemma TailKeepsTask(u: Setup, m: Machine, c: nat, p: Tid)
    requires Present(u, m) && c < u.cpus && m.phase[c].Switching? && CpuOk(u, m, c, -1)
    requires p in m.all && TaskOk(u, m, p, -1)
    ensures TaskOk(u, After(u, m, Tail(c)), p, -1)
  {
  }

  lemma TailKeepsCpu(u: Setup, m: Machine, c: nat, d: nat)
    requires Present(u, m) && c < u.cpus && m.phase[c].Switching? && CpuOk(u, m, c, -1)
    requires d < u.cpus && CpuOk(u, m, d, -1)
    ensures CpuOk(u, After(u, m, Tail(c)), d, -1)
  {
  }

  lemma WakeKeepsTask(u: Setup, m: Machine, p: Tid, x: Tid)
    requires Present(u, m) && p in m.all && TaskOk(u, m, p, -1) && x in m.all && TaskOk(u, m, x, -1)
    ensures TaskOk(u, Woken(m, p), x, -1)
  {
  }

  lemma WakeKeepsQueue(u: Setup, m: Machine, p: Tid)
    requires Present(u, m) && QueueOk(m) && p in m.all && TaskOk(u, m, p, -1)
    ensures QueueOk(Woken(m, p))
  {
  }

  lemma WakeKeepsCpu(u: Setup, m: Machine, p: Tid, d: nat)
    requires Present(u, m) && QueueOk(m) && p in m.all && TaskOk(u, m, p, -1) && d < u.cpus && CpuOk(u, m, d, -1)
    ensures CpuOk(u, Woken(m, p), d, -1)
  {
  }

  predicate IsLocal(e: Event) {
    e.RecalculateOne? || e.SetState? || e.SetAllowed? || e.Tick? || e.YieldCall?
  }

  /** The CPUs hold the same tasks in the same phases, but for what is left to recalculate. */
  ghost predicate SameCpus(m: Machine, m': Machine) {
    && m'.curr == m.curr && m'.all == m.all && m'.processes == m.processes && |m'.phase| == |m.phase|
    && forall d :: 0 <= d < |m.phase| ==>
         m'.phase[d] == m.phase[d] || (m'.phase[d].Recalculating? && m.phase[d].Recalculating?)
  }

  /** Nothing about x that the invariant looks at has changed, but for its state. */
  ghost predicate SameButState(u: Setup, m: Machine, m': Machine, x: Tid) {
    && x in m.tasks && x in m'.tasks && (x in m'.queue <==> x in m.queue)
    && var (t, t') := (m.tasks[x], m'.tasks[x]);
       && t'.runnable == t.runnable && t'.processor == t.processor && t'.policy == t.policy
       && t'.onQueue == t.onQueue
       && ((t.yielding ==> t.policy == Other) ==> (t'.yielding ==> t'.policy == Other))
       && (t.runnable == AnyCpu && !t.yielding ==> !t'.yielding)
       && (Sane(t) && Accounted(u.formula, t, m.processes) ==> Sane(t') && Accounted(u.formula, t', m'.processes))
  }

  lemma LocalChanges(u: Setup, m: Machine, e: Event, x: Tid)
    requires Present(u, m) && QueueOk(m) && Possible(u, m, e) && IsLocal(e)
    requires e.YieldCall? ==> m.curr[e.cpu] in m.queue && m.tasks[m.curr[e.cpu]].runnable != AnyCpu
    requires x in m.tasks
    ensures SameCpus(m, After(u, m, e)) && SameButState(u, m, After(u, m, e), x)
    ensures After(u, m, e).tasks[x].state == m.tasks[x].state || (e.SetState? && x == m.curr[e.cpu])
  {
    match e
    case RecalculateOne(c) => LocalRecharge(u, m, c, x);
    case YieldCall(c) => WithoutMembers(m.queue, m.curr[c]);
    case SetAllowed(_, _) =>
    case SetState(_, _) =>
    case Tick(_, _, _) =>
  }

  lemma LocalRecharge(u: Setup, m: Machine, c: nat, x: Tid)
    requires Present(u, m) && Possible(u, m, RecalculateOne(c)) && x in m.tasks
    ensures var m' := After(u, m, RecalculateOne(c));
            && SameCpus(m, m') && m'.queue == m.queue && x in m'.tasks
            && m'.tasks[x] == (if x == m.phase[c].left[0] then m.tasks[x].(counter := NewCounter(u, m, x)) else m.tasks[x])
    ensures Sane(m.tasks[x]) && Accounted(u.formula, m.tasks[x], m.processes) ==> NewCounter(u, m, x) >= 1
  {
    if Sane(m.tasks[x]) && Accounted(u.formula, m.tasks[x], m.processes) {
      NewQuantumIsPositive(u.hz, u.formula, m.tasks[x], |m.all|, m.processes);
    }
  }

  lemma LocalKeepsTask(u: Setup, m: Machine, m': Machine, p: Tid, c: int)
    requires Present(u, m) && Present(u, m') && SameCpus(m, m') && SameButState(u, m, m', p)
    requires m'.tasks[p].state == m.tasks[p].state ||
             (0 <= c < u.cpus && m.phase[c] == Executing && m.curr[c] == p && CpuOk(u, m, c, -1))
    requires p in m.all && TaskOk(u, m, p, -1)
    ensures TaskOk(u, m', p, -1)
  {
  }

  lemma LocalKeepsCpu(u: Setup, m: Machine, m': Machine, d: nat)
    requires Present(u, m) && Present(u, m') && SameCpus(m, m') && d < u.cpus && CpuOk(u, m, d, -1)
    requires SameButState(u, m, m', d) && m'.tasks[d].state == m.tasks[d].state
    requires SameButState(u, m, m', m.curr[d])
    requires m.phase[d].Switching? ==> SameButState(u, m, m', m.phase[d].prev)
    ensures CpuOk(u, m', d, -1)
  {
  }

  lemma LocalKeepsQueue(u: Setup, m: Machine, e: Event)
    requires Present(u, m) && QueueOk(m) && Possible(u, m, e) && IsLocal(e)
    requires e.YieldCall? ==> CpuOk(u, m, e.cpu, -1)
    ensures QueueOk(After(u, m, e))
  {
    if e.YieldCall? {
      WithoutMembers(m.queue, m.curr[e.cpu]);
    }
  }

  lemma LocalKeeps(u: Setup, m: Machine, e: Event)
    requires Inv(u, m) && Possible(u, m, e) && IsLocal(e)
    ensures Inv(u, After(u, m, e))
  {
    var m' := After(u, m, e);
    if !e.SetAllowed? {
      assert CpuOk(u, m, e.cpu, -1);
    }
    forall p | p in m.all ensures TaskOk(u, m', p, -1) {
      assert TaskOk(u, m, p, -1);
      LocalChanges(u, m, e, p);
      LocalKeepsTask(u, m, m', p, if e.SetState? then e.cpu else -1);
    }
    LocalKeepsQueue(u, m, e);
    forall d | 0 <= d < u.cpus ensures CpuOk(u, m', d, -1) {
      assert CpuOk(u, m, d, -1);
      LocalChanges(u, m, e, d);
      LocalChanges(u, m, e, m.curr[d]);
      if m.phase[d].Switching? {
        LocalChanges(u, m, e, m.phase[d].prev);
      }
      LocalKeepsCpu(u, m, m', d);
    }
    LocalChanges(u, m, e, if e.SetAllowed? then e.p else e.cpu);
  }

  lemma EventKeeps(u: Setup, m: Machine, e: Event)
    requires Inv(u, m) && Possible(u, m, e)
    ensures Inv(u, After(u, m, e))
  {
    match e
    case Enter(c, signal) => EnterKeeps(u, m, c, signal);
    case Rescan(c) => RescanKeeps(u, m, c);
    case Tail(c) => TailKeeps(u, m, c);
    case Wake(p) => WakeKeeps(u, m, p);
    case _ => LocalKeeps(u, m, e);
  }

  lemma TailKeeps(u: Setup, m: Machine, c: nat)
    requires Inv(u, m) && c < u.cpus && m.phase[c].Switching?
    ensures Inv(u, After(u, m, Tail(c)))
  {
    assert CpuOk(u, m, c, -1);
    forall p | p in m.all ensures TaskOk(u, After(u, m, Tail(c)), p, -1) {
      assert TaskOk(u, m, p, -1);
      TailKeepsTask(u, m, c, p);
    }
    forall d | 0 <= d < u.cpus ensures CpuOk(u, After(u, m, Tail(c)), d, -1) {
      assert CpuOk(u, m, d, -1);
      TailKeepsCpu(u, m, c, d);
    }
  }

  lemma WakeKeeps(u: Setup, m: Machine, p: Tid)
    requires Inv(u, m) && p in m.all && p in m.tasks
    ensures Inv(u, Woken(m, p))
  {
    assert TaskOk(u, m, p, -1);
    forall x | x in m.all ensures TaskOk(u, Woken(m, p), x, -1) {
      assert TaskOk(u, m, x, -1);
      WakeKeepsTask(u, m, p, x);
    }
    WakeKeepsQueue(u, m, p);
    forall d | 0 <= d < u.cpus ensures CpuOk(u, Woken(m, p), d, -1) {
      assert CpuOk(u, m, d, -1);
      WakeKeepsCpu(u, m, p, d);
    }
  }

  lemma RescanReady(u: Setup, m: Machine, c: nat)
    requires Inv(u, m) && c < u.cpus && m.phase[c].Recalculating?
    ensures InvExcept(u, m, c)
  {
    forall p | p in m.all ensures TaskOk(u, m, p, c) {
      assert TaskOk(u, m, p, -1);
    }
    forall d | 0 <= d < u.cpus ensures CpuOk(u, m, d, c) {
      assert CpuOk(u, m, d, -1);
    }
  }

  lemma RescanKeeps(u: Setup, m: Machine, c: nat)
    requires Inv(u, m) && c < u.cpus && m.phase[c].Recalculating?
    ensures Inv(u, Decide(u, m, c))
  {
    RescanReady(u, m, c);
    DecideKeeps(u, m, c);
  }

  // ----- results, for every run

  ghost predicate Step(u: Setup, m: Machine, e: Event, m': Machine) {
    Present(u, m) && Possible(u, m, e) && m' == After(u, m, e)
  }

  /** Every CPU runs its idle task, and no task is on a CPU. */
  ghost predicate Init(u: Setup, m: Machine) {
    && Present(u, m) && QueueOk(m)
    && (forall c :: 0 <= c < u.cpus ==>
          && m.curr[c] == c && m.phase[c] == Executing && m.tasks[c].processor == c
          && m.tasks[c].state == Running && m.tasks[c].policy == Other)
    && (forall p :: p in m.all ==>
          && p in m.tasks && !IsIdle(u, p) && Sane(m.tasks[p]) && Accounted(u.formula, m.tasks[p], m.processes)
          && !m.tasks[p].yielding && m.tasks[p].runnable == AnyCpu
          && (m.tasks[p].onQueue <==> p in m.queue) && (m.tasks[p].state == Running <==> p in m.queue))
  }

  ghost predicate IsRun(u: Setup, run: seq<Machine>, events: seq<Event>) {
    |run| == |events| + 1 && Init(u, run[0]) && forall i :: 0 <= i < |events| ==> StepAt(u, run, events, i)
  }

  ghost predicate StepAt(u: Setup, run: seq<Machine>, events: seq<Event>, i: nat)
    requires |run| == |events| + 1 && i < |events|
  {
    Step(u, run[i], events[i], run[i + 1])
  }

  lemma {:induction false} RunKeepsInv(u: Setup, run: seq<Machine>, events: seq<Event>, i: nat)
    requires IsRun(u, run, events) && i < |run|
    ensures Inv(u, run[i])
  {
    if i > 0 {
      RunKeepsInv(u, run, events, i - 1);
      assert StepAt(u, run, events, i - 1);
      EventKeeps(u, run[i - 1], events[i - 1]);
    }
  }

  /** Mutual exclusion: in every reachable state no task, idle tasks included, is current, or
      still being switched out, on two CPUs. */
  lemma MutualExclusion(u: Setup, run: seq<Machine>, events: seq<Event>, i: nat, c: nat, d: nat, p: Tid)
    requires IsRun(u, run, events) && i < |run| && c < u.cpus && d < u.cpus
    ensures |run[i].curr| == |run[i].phase| == u.cpus
    ensures Holds(run[i], c, p) && Holds(run[i], d, p) ==> c == d
  {
    RunKeepsInv(u, run, events, i);
    assert CpuOk(u, run[i], c, -1) && CpuOk(u, run[i], d, -1);
  }

  /** task_has_cpu is exact: the mask of a task names a CPU exactly when that CPU holds the task. */
  lemma MaskIsExact(u: Setup, run: seq<Machine>, events: seq<Event>, i: nat, c: nat, p: Tid)
    requires IsRun(u, run, events) && i < |run| && c < u.cpus && p in run[i].all
    ensures p in run[i].tasks && |run[i].curr| == |run[i].phase| == u.cpus
    ensures run[i].tasks[p].runnable == OnCpu(c) <==> Holds(run[i], c, p)
    ensures Holds(run[i], c, p) ==> run[i].tasks[p].processor == c
  {
    RunKeepsInv(u, run, events, i);
    assert TaskOk(u, run[i], p, -1) && CpuOk(u, run[i], c, -1);
  }

  /** No runnable task is ever lost from the run queue, even when it is woken while another CPU
      is still inside schedule on its behalf. */
  lemma RunnableIsQueued(u: Setup, run: seq<Machine>, events: seq<Event>, i: nat, p: Tid)
    requires IsRun(u, run, events) && i < |run| && p in run[i].all
    ensures p in run[i].tasks && (run[i].tasks[p].state == Running ==> p in run[i].queue)
    ensures p in run[i].queue && run[i].tasks[p].state != Running ==>
              exists c :: 0 <= c < |run[i].curr| == |run[i].phase| && run[i].curr[c] == p && run[i].phase[c] == Executing
    ensures run[i].nrRunning == |run[i].queue| && NoDuplicates(run[i].queue)
  {
    RunKeepsInv(u, run, events, i);
    assert TaskOk(u, run[i], p, -1);
    if p in run[i].queue && run[i].tasks[p].state != Running {
      var c := run[i].tasks[p].runnable.cpu;
      assert Holds(run[i], c, p);
    }
  }

  lemma CommitIsBest(u: Setup, m: Machine, c: nat)
    requires InvExcept(u, m, c) && c < u.cpus && !m.phase[c].Switching? && ScanFor(u, m, c).weight != 0
    ensures CommittedBest(u, m, Decide(u, m, c), c)
  {
    assert CpuOk(u, m, c, c);
    ThisCpuIsRight(u, m, c, c);
    QueueIsSane(u, m, c);
    ScanFindsFirstBest(Multi(c, u.bonus, m.tasks[m.curr[c]].activeMm), m.tasks, m.queue, c);
    forall p | p in m.queue ensures p != c {
      assert TaskOk(u, m, p, c);
    }
  }

  /** CPU c went from the scan in m to the commit in m': its new task is the first queue entry of
      maximal goodness among those it may schedule, or its idle task exactly when there is none. */
  ghost predicate CommittedBest(u: Setup, m: Machine, m': Machine, c: nat)
    requires Present(u, m) && Present(u, m') && c < u.cpus
  {
    var cpu := Multi(c, u.bonus, m.tasks[m.curr[c]].activeMm);
    && (NoneSchedulable(cpu, m.tasks, m.queue) <==> m'.curr[c] == c)
    && (m'.curr[c] != c ==> FirstBest(cpu, m.tasks, m.queue, Choice(ScanFor(u, m, c).weight, m'.curr[c])))
  }

  /** The state in which the scan of an event runs. */
  function AtScan(u: Setup, m: Machine, e: Event): (r: Machine)
    requires Present(u, m) && Possible(u, m, e) && (e.Enter? || e.Rescan?)
    ensures Present(u, r)
  {
    if e.Enter? then Leave(u, m, e.cpu, e.signal) else m
  }

  /** In every run, each choice that schedule commits is the best one. */
  lemma CommitsAreBest(u: Setup, run: seq<Machine>, events: seq<Event>, i: nat)
    requires IsRun(u, run, events) && i < |events| && (events[i].Enter? || events[i].Rescan?)
    ensures Present(u, run[i]) && Present(u, run[i + 1]) && Possible(u, run[i], events[i])
    ensures !run[i + 1].phase[events[i].cpu].Recalculating? ==>
              CommittedBest(u, AtScan(u, run[i], events[i]), run[i + 1], events[i].cpu)
  {
    RunKeepsInv(u, run, events, i);
    assert StepAt(u, run, events, i);
    var c := events[i].cpu;
    if events[i].Enter? {
      LeaveKeeps(u, run[i], c, events[i].signal);
    } else {
      RescanReady(u, run[i], c);
    }
    if !run[i + 1].phase[c].Recalculating? {
      CommitIsBest(u, AtScan(u, run[i], events[i]), c);
    }
  }
}
