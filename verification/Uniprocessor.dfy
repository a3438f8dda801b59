/** The scheduler on one CPU, as functions from kernel state to kernel state, and the invariants
    that every sequence of them keeps. Each operation runs under the run-queue lock with
    interrupts off, so it is one step. */
module Uniprocessor {
  import opened Tasks

  /** `all` is the task list without the idle task; `queue` is the run queue; `processes` is the
      share count of each user, which only the patched recalculation reads. */
  datatype Kernel = Kernel(
    tasks: TaskTable, all: seq<Tid>, queue: seq<Tid>, nrRunning: int, curr: Tid,
    processes: map<nat, int>)

  /** The tick rate, and which recalculation is in use. */
  datatype Config = Config(hz: nat, formula: Formula)

  // ----- invariant

  ghost predicate TablesOk(k: Kernel) {
    && IDLE in k.tasks && IDLE !in k.all && k.curr in k.tasks && NoDuplicates(k.all)
    && (forall p :: p in k.tasks <==> p == IDLE || p in k.all)
    && (forall p :: p in k.queue ==> p in k.all)
    && k.tasks[IDLE].state == Running && k.tasks[IDLE].policy == Other
  }

  ghost predicate QueueOk(k: Kernel)
    requires TablesOk(k)
  {
    && NoDuplicates(k.queue)
    && k.nrRunning == |k.queue|
    && (forall p :: p in k.all ==> (k.tasks[p].onQueue <==> p in k.queue))
    && (forall p :: p in k.all && p != k.curr ==> (p in k.queue <==> k.tasks[p].state == Running))
  }

  /** Outside of schedule the current task is on the queue whatever its state says; inside, once
      schedule has looked at that state, it is treated like every other task. */
  ghost predicate CurrentQueued(k: Kernel) {
    k.curr != IDLE ==> k.curr in k.queue
  }

  ghost predicate CurrentDecided(k: Kernel)
    requires TablesOk(k)
  {
    k.curr in k.queue <==> k.curr != IDLE && k.tasks[k.curr].state == Running
  }

  ghost predicate FlagsOk(k: Kernel)
    requires TablesOk(k)
  {
    && (forall p :: p in k.tasks && (k.tasks[p].yielding || k.tasks[p].needResched) ==> p == k.curr)
    && (k.tasks[k.curr].yielding ==> k.tasks[k.curr].policy == Other && k.curr != IDLE)
  }

  /** What the three BUG_ON checks on active_mm rely on. */
  ghost predicate MemoryOk(k: Kernel)
    requires TablesOk(k)
  {
    && k.tasks[k.curr].activeMm != 0
    && forall p :: p in k.tasks && (p != k.curr || k.tasks[p].mm != 0) ==> k.tasks[p].activeMm == k.tasks[p].mm
  }

  ghost predicate TasksSane(c: Config, k: Kernel)
    requires TablesOk(k)
  {
    && (forall p :: p in k.all ==> Sane(k.tasks[p]))
    && (forall p :: p in k.all ==> Accounted(c.formula, k.tasks[p], k.processes))
  }

  ghost predicate WellFormed(c: Config, k: Kernel) {
    TablesOk(k) && QueueOk(k) && CurrentQueued(k) && FlagsOk(k) && MemoryOk(k) && TasksSane(c, k)
  }

  /** The invariant in the middle of schedule, from the first scan to the switch. */
  ghost predicate Deciding(c: Config, k: Kernel) {
    && TablesOk(k) && QueueOk(k) && CurrentDecided(k) && FlagsOk(k) && MemoryOk(k) && TasksSane(c, k)
    && !k.tasks[k.curr].needResched
  }

  /** Every task that the kernel is about to look at exists. */
  ghost predicate Typed(k: Kernel) {
    k.curr in k.tasks && IDLE in k.tasks && forall p :: p in k.queue ==> p in k.tasks
  }

  // ----- run-queue primitives

  /** add_to_runqueue. */
  function Enqueue(k: Kernel, p: Tid): Kernel
    requires p in k.tasks
  {
    k.(queue := k.queue + [p], nrRunning := k.nrRunning + 1, tasks := k.tasks[p := k.tasks[p].(onQueue := true)])
  }

  /** del_from_runqueue. */
  function Dequeue(k: Kernel, p: Tid): Kernel
    requires p in k.tasks
  {
    k.(queue := Without(k.queue, p), nrRunning := k.nrRunning - 1,
       tasks := k.tasks[p := k.tasks[p].(onQueue := false)])
  }

  function Update(k: Kernel, p: Tid, t: Task): Kernel {
    k.(tasks := k.tasks[p := t])
  }

  // ----- schedule

  /** An exhausted round-robin task gets a new quantum and goes to the end of the queue. */
  function Requeue(c: Config, k: Kernel): (r: Kernel)
    requires Typed(k)
    ensures Typed(r)
  {
    var prev := k.tasks[k.curr];
    if prev.Is(RoundRobin) && prev.counter == 0 then
      Update(k, k.curr, prev.(counter := NiceToTicks(c.hz, prev.nice))).(queue := MovedLast(k.queue, k.curr))
    else
      k
  }

  /** A task that is not runnable leaves the queue, unless a signal interrupts its sleep. */
  function Deactivate(k: Kernel, signal: bool): (r: Kernel)
    requires Typed(k)
    ensures Typed(r)
  {
    var prev := k.tasks[k.curr];
    if prev.state == Interruptible && signal then Update(k, k.curr, prev.(state := Running))
    else if prev.state != Running then Dequeue(k, k.curr)
    else k
  }

  function ClearResched(k: Kernel): (r: Kernel)
    requires Typed(k)
    ensures Typed(r)
  {
    Update(k, k.curr, k.tasks[k.curr].(needResched := false))
  }

  /** The counter that a recalculation gives to one task. */
  function NewCounter(c: Config, k: Kernel, t: Task): int {
    NewQuantum(c.hz, c.formula, t, |k.all|, k.processes)
  }

  /** for_each_task: everyone but the idle task. */
  function Recalculate(c: Config, k: Kernel): (r: Kernel)
    requires Typed(k)
    ensures Typed(r)
  {
    k.(tasks := map p | p in k.tasks ::
         if p in k.all then k.tasks[p].(counter := NewCounter(c, k, k.tasks[p])) else k.tasks[p])
  }

  function ThisCpu(k: Kernel): Cpu
    requires k.curr in k.tasks
  {
    Uni(k.tasks[k.curr].activeMm)
  }

  function Pick(k: Kernel): (r: Choice)
    requires Typed(k)
    ensures r.next in k.queue || r.next == IDLE
  {
    ScanStaysInQueue(ThisCpu(k), k.tasks, k.queue, IDLE);
    Scan(ThisCpu(k), k.tasks, k.queue, IDLE)
  }

  /** The context switch, and the tail that the switched-in task runs for the old one. */
  function SwitchTo(k: Kernel, next: Tid): (r: Kernel)
    requires Typed(k) && next in k.tasks
    ensures Typed(r)
  {
    var prev := k.tasks[k.curr].(yielding := false);
    if next == k.curr then Update(k, k.curr, prev)
    else
      var incoming := if k.tasks[next].mm == 0 then k.tasks[next].(activeMm := prev.activeMm) else k.tasks[next];
      var outgoing := if prev.mm == 0 then prev.(activeMm := 0) else prev;
      k.(tasks := k.tasks[next := incoming][k.curr := outgoing], curr := next)
  }

  /** Everything up to the first scan. */
  function Prepare(c: Config, k: Kernel, signal: bool): (r: Kernel)
    requires Typed(k)
    ensures Typed(r)
  {
    ClearResched(Deactivate(Requeue(c, k), signal))
  }

  /** The kernel when the scan's result is final: counters are recalculated when the best goodness is 0. */
  function Settled(c: Config, k: Kernel): (r: Kernel)
    requires Typed(k)
    ensures Typed(r)
  {
    if Pick(k).weight == 0 then Recalculate(c, k) else k
  }

  lemma RequeueKeeps(c: Config, k: Kernel)
    requires WellFormed(c, k)
    ensures WellFormed(c, Requeue(c, k))
  {
    if k.tasks[k.curr].Is(RoundRobin) && k.tasks[k.curr].counter == 0 && k.curr != IDLE {
      WithoutMembers(k.queue, k.curr);
    }
  }

  lemma DeactivateDecidesQueue(k: Kernel, signal: bool)
    requires TablesOk(k) && QueueOk(k) && CurrentQueued(k)
    ensures TablesOk(Deactivate(k, signal)) && QueueOk(Deactivate(k, signal)) && CurrentDecided(Deactivate(k, signal))
  {
    if k.curr != IDLE {
      WithoutMembers(k.queue, k.curr);
    }
  }

  lemma ClearKeepsQueue(k: Kernel)
    requires TablesOk(k) && QueueOk(k) && CurrentDecided(k)
    ensures TablesOk(ClearResched(k)) && QueueOk(ClearResched(k)) && CurrentDecided(ClearResched(k))
  {
  }

  lemma DeactivateDecides(c: Config, k: Kernel, signal: bool)
    requires WellFormed(c, k)
    ensures Deciding(c, ClearResched(Deactivate(k, signal)))
  {
    DeactivateDecidesQueue(k, signal);
    ClearKeepsQueue(Deactivate(k, signal));
    DeactivateKeepsRest(c, k, signal);
    DeactivateKeepsMemory(k, signal);
  }

  lemma DeactivateKeepsRest(c: Config, k: Kernel, signal: bool)
    requires TablesOk(k) && FlagsOk(k) && TasksSane(c, k) && TablesOk(ClearResched(Deactivate(k, signal)))
    ensures FlagsOk(ClearResched(Deactivate(k, signal))) && TasksSane(c, ClearResched(Deactivate(k, signal)))
    ensures !ClearResched(Deactivate(k, signal)).tasks[k.curr].needResched
  {
  }

  lemma DeactivateKeepsMemory(k: Kernel, signal: bool)
    requires TablesOk(k) && MemoryOk(k) && TablesOk(ClearResched(Deactivate(k, signal)))
    ensures MemoryOk(ClearResched(Deactivate(k, signal)))
  {
  }

  lemma RecalculateKeeps(c: Config, k: Kernel)
    requires Deciding(c, k)
    ensures Deciding(c, Recalculate(c, k))
    ensures forall p :: p in k.all ==> Recalculate(c, k).tasks[p].counter >= 1
  {
    RecalculateCounters(c, k);
  }

  lemma RecalculateCounters(c: Config, k: Kernel)
    requires TablesOk(k) && TasksSane(c, k)
    ensures forall p :: p in k.all ==> Recalculate(c, k).tasks[p].counter >= 1
  {
  }

  lemma SwitchKeepsQueue(c: Config, k: Kernel, next: Tid)
    requires Deciding(c, k) && (next in k.queue || next == IDLE)
    ensures TablesOk(SwitchTo(k, next)) && QueueOk(SwitchTo(k, next)) && CurrentQueued(SwitchTo(k, next))
  {
  }

  lemma SwitchClearsFlags(k: Kernel, next: Tid)
    requires TablesOk(k) && FlagsOk(k) && !k.tasks[k.curr].needResched && next in k.tasks
    ensures forall p :: p in k.tasks ==> !SwitchTo(k, next).tasks[p].yielding && !SwitchTo(k, next).tasks[p].needResched
    ensures forall p :: p in SwitchTo(k, next).tasks <==> p in k.tasks
  {
  }

  lemma SwitchKeepsSane(c: Config, k: Kernel, next: Tid)
    requires TablesOk(k) && TasksSane(c, k) && next in k.tasks && TablesOk(SwitchTo(k, next))
    ensures TasksSane(c, SwitchTo(k, next))
  {
    var k' := SwitchTo(k, next);
    forall p | p in k'.all ensures Sane(k'.tasks[p]) && Accounted(c.formula, k'.tasks[p], k'.processes) {
      SwitchKeepsStatics(k, next, p);
    }
  }

  lemma SwitchKeepsMemory(c: Config, k: Kernel, next: Tid)
    requires TablesOk(k) && MemoryOk(k) && next in k.tasks && TablesOk(SwitchTo(k, next))
    ensures MemoryOk(SwitchTo(k, next))
  {
  }

  lemma SwitchKeeps(c: Config, k: Kernel, next: Tid)
    requires Deciding(c, k) && (next in k.queue || next == IDLE)
    ensures WellFormed(c, SwitchTo(k, next))
  {
    SwitchKeepsQueue(c, k, next);
    SwitchClearsFlags(k, next);
    SwitchKeepsSane(c, k, next);
    SwitchKeepsMemory(c, k, next);
  }

  lemma PrepareDecides(c: Config, k: Kernel, signal: bool)
    requires WellFormed(c, k)
    ensures Deciding(c, Prepare(c, k, signal))
  {
    RequeueKeeps(c, k);
    DeactivateDecides(c, Requeue(c, k), signal);
  }

  lemma QueueIsSane(c: Config, k: Kernel)
    requires TablesOk(k) && TasksSane(c, k)
    ensures AllSane(k.tasks, k.queue)
  {
  }

  lemma SettledKeeps(c: Config, k: Kernel)
    requires Deciding(c, k)
    ensures Deciding(c, Settled(c, k)) && Settled(c, k).queue == k.queue
  {
    if Pick(k).weight == 0 {
      RecalculateKeeps(c, k);
    }
  }

  /** schedule(): every step from the current task to the next one. */
  function Scheduled(c: Config, k: Kernel, signal: bool): (r: Kernel)
    requires Typed(k)
    ensures Typed(r)
  {
    var e := AtPick(c, k, signal);
    SwitchTo(e, Pick(e).next)
  }

  /** The kernel in which the final scan of schedule runs. */
  function AtPick(c: Config, k: Kernel, signal: bool): (r: Kernel)
    requires Typed(k)
    ensures Typed(r)
  {
    Settled(c, Prepare(c, k, signal))
  }

  /** One recalculation is enough: afterwards the best goodness is never 0 again. This holds for
      the original formula and for the patched one. */
  lemma OneRecalculation(c: Config, k: Kernel)
    requires Deciding(c, k)
    ensures Pick(Settled(c, k)).weight != 0
  {
    SettledKeeps(c, k);
    if Pick(k).weight == 0 {
      var e := Recalculate(c, k);
      RecalculateKeeps(c, k);
      QueueIsSane(c, e);
      ScanFindsFirstBest(ThisCpu(e), e.tasks, e.queue, IDLE);
      if !NoneSchedulable(ThisCpu(e), e.tasks, e.queue) {
        var i :| 0 <= i < |e.queue| && IsFirstBest(ThisCpu(e), e.tasks, e.queue, Pick(e), i);
        assert e.queue[i] in k.queue;
        GoodnessBands(ThisCpu(e), e.tasks[e.queue[i]]);
      }
    }
  }

  /** Counters are recalculated exactly when some runnable task is ordinary and out of ticks and
      all the others are that too or yield. */
  lemma RecalculatedWhenSpent(c: Config, k: Kernel)
    requires Deciding(c, k)
    ensures Settled(c, k) == (if AllSpent(ThisCpu(k), k.tasks, k.queue) then Recalculate(c, k) else k)
    ensures AllSpent(ThisCpu(k), k.tasks, k.queue) <==>
            && (exists p :: p in k.queue && OutOfTicks(k.tasks[p]))
            && (forall p :: p in k.queue ==> OutOfTicks(k.tasks[p]) || k.tasks[p].yielding)
  {
    QueueIsSane(c, k);
    ScanRecalculatesWhenSpent(ThisCpu(k), k.tasks, k.queue, IDLE);
    if exists p :: p in k.queue && OutOfTicks(k.tasks[p]) {
      var p :| p in k.queue && OutOfTicks(k.tasks[p]);
      var i :| 0 <= i < |k.queue| && k.queue[i] == p;
      assert CanSchedule(ThisCpu(k), k.tasks[k.queue[i]]);
    }
    if AllSpent(ThisCpu(k), k.tasks, k.queue) {
      forall p | p in k.queue ensures OutOfTicks(k.tasks[p]) || k.tasks[p].yielding {
        var i :| 0 <= i < |k.queue| && k.queue[i] == p;
        assert CanSchedule(ThisCpu(k), k.tasks[k.queue[i]]);
      }
    }
  }

  ghost predicate NoFlags(k: Kernel) {
    forall p :: p in k.tasks ==> !k.tasks[p].yielding && !k.tasks[p].needResched
  }

  /** A completed schedule restores the invariant, with no reschedule pending, so its outer loop
      does not repeat, and with no yield bit left. */
  lemma ScheduleKeeps(c: Config, k: Kernel, signal: bool)
    requires WellFormed(c, k)
    ensures WellFormed(c, Scheduled(c, k, signal)) && NoFlags(Scheduled(c, k, signal))
  {
    PrepareDecides(c, k, signal);
    SettledKeeps(c, Prepare(c, k, signal));
    var e := AtPick(c, k, signal);
    SwitchKeeps(c, e, Pick(e).next);
    SwitchClearsFlags(e, Pick(e).next);
  }

  /** The new current task is the first queue entry of maximal goodness, or the idle task exactly
      when the queue is empty. */
  lemma ScheduleChooses(c: Config, k: Kernel, signal: bool)
    requires WellFormed(c, k)
    ensures var e, k' := AtPick(c, k, signal), Scheduled(c, k, signal);
            && Deciding(c, e) && k'.queue == e.queue
            && (k'.curr == IDLE <==> e.queue == [])
            && (e.queue != [] ==> FirstBest(ThisCpu(e), e.tasks, e.queue, Choice(Pick(e).weight, k'.curr)))
  {
    PrepareDecides(c, k, signal);
    SettledKeeps(c, Prepare(c, k, signal));
    PickChooses(c, AtPick(c, k, signal));
  }

  lemma PickChooses(c: Config, e: Kernel)
    requires Deciding(c, e)
    ensures Pick(e).next == IDLE <==> e.queue == []
    ensures e.queue != [] ==> FirstBest(ThisCpu(e), e.tasks, e.queue, Pick(e))
  {
    QueueIsSane(c, e);
    ScanFindsFirstBest(ThisCpu(e), e.tasks, e.queue, IDLE);
    if e.queue != [] {
      assert CanSchedule(ThisCpu(e), e.tasks[e.queue[0]]);
      assert !NoneSchedulable(ThisCpu(e), e.tasks, e.queue);
    }
  }

  /** None of the BUG_ON checks of schedule fires: the current task has an active mm, and a task
      that is switched in has its own mm active, or none when it has none. */
  lemma ScheduleRaisesNoBug(c: Config, k: Kernel, signal: bool)
    requires WellFormed(c, k)
    ensures k.tasks[k.curr].activeMm != 0
    ensures var e := AtPick(c, k, signal);
            var next := Pick(e).next;
            next != k.curr ==> e.tasks[next].activeMm == e.tasks[next].mm
  {
    PrepareDecides(c, k, signal);
    SettledKeeps(c, Prepare(c, k, signal));
  }

  // ----- wake-up, yield and the other events

  /** reschedule_idle on one CPU: ask for a reschedule when p is better than the current task. */
  function MaybePreempt(k: Kernel, p: Tid): (r: Kernel)
    requires Typed(k) && p in k.tasks
    ensures Typed(r)
  {
    if Goodness(ThisCpu(k), k.tasks[p]) - Goodness(ThisCpu(k), k.tasks[k.curr]) > 0
    then Update(k, k.curr, k.tasks[k.curr].(needResched := true))
    else k
  }

  function MadeRunning(k: Kernel, p: Tid): Kernel
    requires p in k.tasks
  {
    Update(k, p, k.tasks[p].(state := Running))
  }

  /** try_to_wake_up; the result is false when p was still on the queue. */
  function WokenUp(k: Kernel, p: Tid, synchronous: bool): (r: (Kernel, bool))
    requires Typed(k) && p in k.tasks
    ensures Typed(r.0)
  {
    var r := MadeRunning(k, p);
    if k.tasks[p].onQueue then (r, false)
    else
      var q := Enqueue(r, p);
      (if !synchronous || 0 !in k.tasks[p].allowed then MaybePreempt(q, p) else q, true)
  }

  /** The current task sets its own state. */
  function StateSet(k: Kernel, st: RunState): (r: Kernel)
    requires Typed(k)
    ensures Typed(r)
  {
    Update(k, k.curr, k.tasks[k.curr].(state := st))
  }

  /** The clock tick only lowers the counter of the current task, and may ask for a reschedule. */
  function Ticked(k: Kernel, counter: int, resched: bool): (r: Kernel)
    requires Typed(k)
    ensures Typed(r)
  {
    var t := k.tasks[k.curr];
    Update(k, k.curr, t.(counter := counter, needResched := t.needResched || resched))
  }

  /** sys_sched_yield: nothing happens when no other task is pending. */
  function YieldCalled(k: Kernel): (r: Kernel)
    requires Typed(k)
    ensures Typed(r)
  {
    if k.nrRunning - 1 == 0 then k
    else
      var t := k.tasks[k.curr];
      Update(k, k.curr, t.(yielding := t.yielding || t.Is(Other), needResched := true))
      .(queue := MovedLast(k.queue, k.curr))
  }

  datatype Event =
    | Schedule(signal: bool)
    | WakeUp(p: Tid, synchronous: bool)
    | SetState(st: RunState)
    | Tick(counter: int, resched: bool)
    | YieldCall

  predicate Possible(k: Kernel, e: Event) {
    match e
    case Schedule(_) => true
    case WakeUp(p, _) => p in k.all && p in k.tasks
    case SetState(_) => k.curr != IDLE
    case Tick(counter, _) => k.curr != IDLE && k.curr in k.tasks && 0 <= counter <= k.tasks[k.curr].counter
    case YieldCall => k.curr != IDLE
  }

  function After(c: Config, k: Kernel, e: Event): (r: Kernel)
    requires Typed(k) && Possible(k, e)
    ensures Typed(r)
  {
    match e
    case Schedule(signal) => Scheduled(c, k, signal)
    case WakeUp(p, synchronous) => WokenUp(k, p, synchronous).0
    case SetState(st) => StateSet(k, st)
    case Tick(counter, resched) => Ticked(k, counter, resched)
    case YieldCall => YieldCalled(k)
  }

  lemma YieldKeeps(c: Config, k: Kernel)
    requires WellFormed(c, k) && k.curr != IDLE
    ensures WellFormed(c, YieldCalled(k))
  {
    WithoutMembers(k.queue, k.curr);
  }

  lemma EnqueueKeeps(c: Config, k: Kernel, p: Tid)
    requires WellFormed(c, k) && p in k.all && p !in k.queue
    ensures WellFormed(c, Enqueue(MadeRunning(k, p), p))
  {
  }

  lemma PreemptKeeps(c: Config, k: Kernel, p: Tid)
    requires WellFormed(c, k) && p in k.all
    ensures WellFormed(c, MaybePreempt(k, p))
  {
  }

  lemma WakeUpKeeps(c: Config, k: Kernel, p: Tid, synchronous: bool)
    requires WellFormed(c, k) && p in k.all
    ensures WellFormed(c, WokenUp(k, p, synchronous).0)
    ensures WokenUp(k, p, synchronous).0.tasks[p].state == Running && p in WokenUp(k, p, synchronous).0.queue
    ensures WokenUp(k, p, synchronous).1 <==> p !in k.queue
  {
    if p !in k.queue {
      EnqueueKeeps(c, k, p);
      PreemptKeeps(c, Enqueue(MadeRunning(k, p), p), p);
    }
  }

  /** The run-queue invariant and the rest of it survive every event. */
  lemma EventKeeps(c: Config, k: Kernel, e: Event)
    requires WellFormed(c, k) && Possible(k, e)
    ensures WellFormed(c, After(c, k, e))
  {
    match e
    case Schedule(signal) => ScheduleKeeps(c, k, signal);
    case WakeUp(p, synchronous) => WakeUpKeeps(c, k, p, synchronous);
    case YieldCall => YieldKeeps(c, k);
    case _ =>
  }

  ghost predicate Step(c: Config, k: Kernel, e: Event, k': Kernel) {
    Typed(k) && Possible(k, e) && k' == After(c, k, e)
  }

  /** A run: events in any order, from any well-formed kernel. */
  ghost predicate IsRun(c: Config, run: seq<Kernel>, events: seq<Event>) {
    |run| == |events| + 1 && WellFormed(c, run[0]) && forall i :: 0 <= i < |events| ==> StepAt(c, run, events, i)
  }

  ghost predicate StepAt(c: Config, run: seq<Kernel>, events: seq<Event>, i: nat)
    requires |run| == |events| + 1 && i < |events|
  {
    Step(c, run[i], events[i], run[i + 1])
  }

  lemma {:induction false} RunKeepsWellFormed(c: Config, run: seq<Kernel>, events: seq<Event>, i: nat)
    requires IsRun(c, run, events) && i < |run|
    ensures WellFormed(c, run[i])
  {
    if i > 0 {
      RunKeepsWellFormed(c, run, events, i - 1);
      assert StepAt(c, run, events, i - 1);
      EventKeeps(c, run[i - 1], events[i - 1]);
    }
  }

  // ----- counters stay bounded, so real-time tasks always come first

  ghost predicate CountersBounded(c: Config, k: Kernel) {
    forall p :: p in k.all && p in k.tasks ==> k.tasks[p].counter <= CounterBound(c.hz)
  }

  lemma RequeueBounds(c: Config, k: Kernel)
    requires WellFormed(c, k) && CountersBounded(c, k)
    ensures CountersBounded(c, Requeue(c, k))
  {
    if k.curr != IDLE {
      MoreNiceFewerTicks(c.hz, -20, k.tasks[k.curr].nice);
    }
  }

  lemma RecalculateBounds(c: Config, k: Kernel)
    requires TablesOk(k) && TasksSane(c, k) && c.formula == Original && CountersBounded(c, k)
    ensures CountersBounded(c, Recalculate(c, k))
  {
    forall p | p in k.all ensures Recalculate(c, k).tasks[p].counter <= CounterBound(c.hz) {
      RechargeKeepsBound(c.hz, k.tasks[p]);
    }
  }

  lemma PrepareBounds(c: Config, k: Kernel, signal: bool)
    requires WellFormed(c, k) && c.formula == Original && CountersBounded(c, k)
    ensures CountersBounded(c, Prepare(c, k, signal))
  {
    RequeueBounds(c, k);
    var r, d := Requeue(c, k), Prepare(c, k, signal);
    forall p | p in d.all ensures p in d.tasks ==> p in r.tasks && d.tasks[p].counter == r.tasks[p].counter {
    }
  }

  lemma AtPickBounds(c: Config, k: Kernel, signal: bool)
    requires WellFormed(c, k) && c.formula == Original && CountersBounded(c, k)
    ensures CountersBounded(c, AtPick(c, k, signal))
  {
    PrepareDecides(c, k, signal);
    PrepareBounds(c, k, signal);
    if Pick(Prepare(c, k, signal)).weight == 0 {
      RecalculateBounds(c, Prepare(c, k, signal));
    }
  }

  lemma SwitchKeepsStatics(k: Kernel, next: Tid, p: Tid)
    requires Typed(k) && next in k.tasks && p in k.tasks
    ensures p in SwitchTo(k, next).tasks && SwitchTo(k, next).curr == next && SwitchTo(k, next).all == k.all
    ensures SwitchTo(k, next).tasks[p].counter == k.tasks[p].counter
    ensures SwitchTo(k, next).tasks[p].policy == k.tasks[p].policy
    ensures SwitchTo(k, next).tasks[p].rtPriority == k.tasks[p].rtPriority
  {
  }

  lemma ScheduleBounds(c: Config, k: Kernel, signal: bool)
    requires WellFormed(c, k) && c.formula == Original && CountersBounded(c, k)
    ensures CountersBounded(c, Scheduled(c, k, signal))
  {
    AtPickBounds(c, k, signal);
    var a, k' := AtPick(c, k, signal), Scheduled(c, k, signal);
    forall p | p in k'.all && p in k'.tasks ensures k'.tasks[p].counter <= CounterBound(c.hz) {
      SwitchKeepsStatics(a, Pick(a).next, p);
    }
  }

  lemma WakeUpBounds(c: Config, k: Kernel, p: Tid, synchronous: bool)
    requires TablesOk(k) && p in k.all && CountersBounded(c, k)
    ensures CountersBounded(c, WokenUp(k, p, synchronous).0)
  {
  }

  lemma EventBounds(c: Config, k: Kernel, e: Event)
    requires WellFormed(c, k) && Possible(k, e) && c.formula == Original && CountersBounded(c, k)
    ensures CountersBounded(c, After(c, k, e))
  {
    match e
    case Schedule(signal) => ScheduleBounds(c, k, signal);
    case WakeUp(p, synchronous) => WakeUpBounds(c, k, p, synchronous);
    case _ =>
  }

  lemma {:induction false} RunBoundsCounters(c: Config, run: seq<Kernel>, events: seq<Event>, i: nat)
    requires IsRun(c, run, events) && i < |run| && c.formula == Original && CountersBounded(c, run[0])
    ensures CountersBounded(c, run[i])
  {
    if i > 0 {
      RunBoundsCounters(c, run, events, i - 1);
      RunKeepsWellFormed(c, run, events, i - 1);
      assert StepAt(c, run, events, i - 1);
      EventBounds(c, run[i - 1], events[i - 1]);
    }
  }

  /** In every run of the original scheduler that starts with counters within the bound, every
      counter stays between 0 and the bound. */
  lemma CountersStayInRange(c: Config, run: seq<Kernel>, events: seq<Event>, i: nat, p: Tid)
    requires IsRun(c, run, events) && i < |run| && c.formula == Original && CountersBounded(c, run[0])
    requires p in run[i].all
    ensures p in run[i].tasks && 0 <= run[i].tasks[p].counter <= CounterBound(c.hz)
  {
    RunKeepsWellFormed(c, run, events, i);
    RunBoundsCounters(c, run, events, i);
  }

  lemma PickIsRealTime(c: Config, k: Kernel, rt: Tid, next: Tid)
    requires Deciding(c, k) && CountersBounded(c, k) && rt in k.queue && k.tasks[rt].policy != Other
    requires FirstBest(ThisCpu(k), k.tasks, k.queue, Choice(Pick(k).weight, next))
    ensures next in k.queue && k.tasks[next].policy != Other && k.tasks[next].rtPriority >= k.tasks[rt].rtPriority
  {
    var cpu, r := ThisCpu(k), Choice(Pick(k).weight, next);
    var i :| 0 <= i < |k.queue| && IsFirstBest(cpu, k.tasks, k.queue, r, i);
    var j :| 0 <= j < |k.queue| && k.queue[j] == rt;
    assert Goodness(cpu, k.tasks[k.queue[j]]) <= r.weight;
    if k.tasks[next].policy == Other {
      RealTimeFirst(c.hz, cpu, k.tasks[rt], k.tasks[next]);
    }
  }

  lemma ScheduleRealTimeFirst(c: Config, k: Kernel, signal: bool, rt: Tid)
    requires WellFormed(c, k) && c.formula == Original && CountersBounded(c, k)
    requires rt in Scheduled(c, k, signal).queue && Scheduled(c, k, signal).tasks[rt].policy != Other
    ensures var k' := Scheduled(c, k, signal);
            k'.tasks[k'.curr].policy != Other && k'.tasks[k'.curr].rtPriority >= k'.tasks[rt].rtPriority
  {
    ScheduleChooses(c, k, signal);
    AtPickBounds(c, k, signal);
    var a, next := AtPick(c, k, signal), Scheduled(c, k, signal).curr;
    SwitchKeepsStatics(a, next, rt);
    SwitchKeepsStatics(a, next, next);
    PickIsRealTime(c, a, rt, next);
  }

  /** In every run of the original scheduler that starts with counters within the bound, a
      schedule call never picks an ordinary task, or idles, while a real-time task is runnable,
      and it picks one of the highest priority. */
  lemma RealTimeRunsFirst(c: Config, run: seq<Kernel>, events: seq<Event>, i: nat, rt: Tid)
    requires IsRun(c, run, events) && i < |events| && c.formula == Original && CountersBounded(c, run[0])
    requires events[i].Schedule?
    requires rt in run[i + 1].queue && rt in run[i + 1].tasks && run[i + 1].tasks[rt].policy != Other
    ensures run[i + 1].curr in run[i + 1].tasks
    ensures run[i + 1].tasks[run[i + 1].curr].policy != Other
    ensures run[i + 1].tasks[run[i + 1].curr].rtPriority >= run[i + 1].tasks[rt].rtPriority
  {
    RunKeepsWellFormed(c, run, events, i);
    RunBoundsCounters(c, run, events, i);
    assert StepAt(c, run, events, i);
    ScheduleRealTimeFirst(c, run[i], events[i].signal, rt);
  }

  // ----- yield gives way

  /** yield(): mark the current task runnable, call sched_yield, schedule. */
  function Yielded(c: Config, k: Kernel): (r: Kernel)
    requires Typed(k) && k.curr != IDLE
    ensures Typed(r)
  {
    Scheduled(c, YieldCalled(StateSet(k, Running)), false)
  }

  /** After yield() by an ordinary task with another task runnable, a different task runs, even
      when every counter was 0; and no yield bit is left behind. */
  lemma YieldGivesWay(c: Config, k: Kernel, other: Tid)
    requires WellFormed(c, k) && k.curr != IDLE && k.tasks[k.curr].policy == Other
    requires other in k.queue && other != k.curr
    ensures Yielded(c, k).curr != k.curr && Yielded(c, k).curr != IDLE
    ensures NoFlags(Yielded(c, k))
  {
    var y := YieldCalled(StateSet(k, Running));
    YieldKeeps(c, StateSet(k, Running));
    WithoutMembers(k.queue, k.curr);
    assert |k.queue| >= 2;
    assert y.tasks[y.curr].yielding && other in y.queue;
    ScheduleKeeps(c, y, false);
    PickAvoidsYielder(c, y, other);
  }

  lemma PickAvoidsYielder(c: Config, y: Kernel, other: Tid)
    requires WellFormed(c, y) && y.curr != IDLE && y.tasks[y.curr].yielding && y.tasks[y.curr].state == Running
    requires other in y.queue && other != y.curr
    ensures Scheduled(c, y, false).curr != y.curr && Scheduled(c, y, false).curr != IDLE
  {
    ScheduleChooses(c, y, false);
    var e := AtPick(c, y, false);
    assert e.curr == y.curr && e.queue == y.queue && e.tasks[e.curr].yielding;
    var r := Choice(Pick(e).weight, Scheduled(c, y, false).curr);
    var i :| 0 <= i < |e.queue| && IsFirstBest(ThisCpu(e), e.tasks, e.queue, r, i);
    var j :| 0 <= j < |e.queue| && e.queue[j] == other;
    assert CanSchedule(ThisCpu(e), e.tasks[e.queue[j]]);
    GoodnessBands(ThisCpu(e), e.tasks[other]);
    GoodnessBands(ThisCpu(e), e.tasks[e.curr]);
  }
}
