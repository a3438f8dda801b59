/** Counters on several CPUs: the bound that every run keeps, what it means for real-time tasks, and
    when the counters are recalculated more than once in one call of schedule. The lock is free
    during a recalculation, so ticks and other CPUs' calls come in between. */
module Recalculation {
  import opened Multiprocessor
  import opened Tasks

  // ----- what an event does to one counter

  lemma LeaveCounter(u: Setup, m: Machine, c: nat, signal: bool, p: Tid)
    requires Present(u, m) && c < u.cpus && p in m.tasks
    ensures var m' := Leave(u, m, c, signal);
            && m'.all == m.all && m'.processes == m.processes && m'.curr == m.curr && m'.phase == m.phase
            && p in m'.tasks && m'.tasks[p].nice == m.tasks[p].nice && m'.tasks[p].policy == m.tasks[p].policy
            && m'.tasks[p].rtPriority == m.tasks[p].rtPriority
            && (m'.tasks[p].counter == m.tasks[p].counter || m'.tasks[p].counter == NiceToTicks(u.hz, m.tasks[p].nice))
  {
  }

  lemma DecideCounter(u: Setup, m: Machine, c: nat, p: Tid)
    requires Present(u, m) && c < u.cpus && p in m.tasks
    ensures var m' := Decide(u, m, c);
            && m'.all == m.all && m'.processes == m.processes
            && p in m'.tasks && m'.tasks[p].nice == m.tasks[p].nice && m'.tasks[p].policy == m.tasks[p].policy
            && m'.tasks[p].rtPriority == m.tasks[p].rtPriority && m'.tasks[p].counter == m.tasks[p].counter
  {
  }

  lemma EventCounter(u: Setup, m: Machine, e: Event, p: Tid)
    requires Present(u, m) && Possible(u, m, e) && p in m.tasks
    ensures var m' := After(u, m, e);
            && m'.all == m.all && m'.processes == m.processes
            && p in m'.tasks && m'.tasks[p].nice == m.tasks[p].nice && m'.tasks[p].policy == m.tasks[p].policy
            && m'.tasks[p].rtPriority == m.tasks[p].rtPriority
            && (|| m'.tasks[p].counter == m.tasks[p].counter
                || (e.Tick? && p == e.p && m'.tasks[p].counter == e.counter)
                || (e.RecalculateOne? && p == m.phase[e.cpu].left[0] && m'.tasks[p].counter == NewCounter(u, m, p))
                || (e.Enter? && m'.tasks[p].counter == NiceToTicks(u.hz, m.tasks[p].nice)))
    ensures e.RecalculateOne? && p == m.phase[e.cpu].left[0] ==> After(u, m, e).tasks[p].counter == NewCounter(u, m, p)
  {
    match e
    case Enter(c, signal) =>
      LeaveCounter(u, m, c, signal, p);
      DecideCounter(u, Leave(u, m, c, signal), c, p);
    case Rescan(c) => DecideCounter(u, m, c, p);
    case _ =>
  }

  // ----- the bound

  ghost predicate Bounded(u: Setup, m: Machine) {
    forall p :: p in m.all ==> p in m.tasks && 0 <= m.tasks[p].counter <= CounterBound(u.hz)
  }

  lemma EventBounds(u: Setup, m: Machine, e: Event)
    requires Inv(u, m) && Possible(u, m, e) && u.formula == Original && Bounded(u, m)
    ensures Bounded(u, After(u, m, e))
  {
    var m' := After(u, m, e);
    if e.SetAllowed? || e.Wake? {
      EventCounter(u, m, e, e.p);
    } else {
      EventCounter(u, m, e, m.curr[e.cpu]);
    }
    forall p | p in m'.all ensures p in m'.tasks && 0 <= m'.tasks[p].counter <= CounterBound(u.hz) {
      EventCounter(u, m, e, p);
      assert TaskOk(u, m, p, -1);
      RechargeKeepsBound(u.hz, m.tasks[p]);
      MoreNiceFewerTicks(u.hz, -20, m.tasks[p].nice);
    }
  }

  /** In every run of the original formula no counter leaves 0, ..., 2 * NICE_TO_TICKS(-20) - 1. */
  lemma {:induction false} RunBoundsCounters(u: Setup, run: seq<Machine>, events: seq<Event>, i: nat)
    requires IsRun(u, run, events) && u.formula == Original && Bounded(u, run[0]) && i < |run|
    ensures Bounded(u, run[i])
  {
    if i > 0 {
      RunBoundsCounters(u, run, events, i - 1);
      RunKeepsInv(u, run, events, i - 1);
      assert StepAt(u, run, events, i - 1);
      EventBounds(u, run[i - 1], events[i - 1]);
    }
  }

  // ----- real-time tasks

  /** What CPU c looks at in a scan. */
  function ScanCpu(u: Setup, m: Machine, c: nat): Cpu
    requires Present(u, m) && c < u.cpus
  {
    Multi(c, u.bonus, m.tasks[m.curr[c]].activeMm)
  }

  lemma CommitPrefersRealTime(u: Setup, m: Machine, c: nat, rt: Tid)
    requires InvExcept(u, m, c) && c < u.cpus && !m.phase[c].Switching? && ScanFor(u, m, c).weight != 0
    requires Bounded(u, m) && u.bonus < BonusLimit(u.hz)
    requires rt in m.queue && CanSchedule(ScanCpu(u, m, c), m.tasks[rt]) && m.tasks[rt].policy != Other
    ensures var next := Decide(u, m, c).curr[c];
            next in m.queue && m.tasks[next].policy != Other && m.tasks[next].rtPriority >= m.tasks[rt].rtPriority
  {
    CommitIsBest(u, m, c);
    var cpu, next := ScanCpu(u, m, c), Decide(u, m, c).curr[c];
    var j :| 0 <= j < |m.queue| && m.queue[j] == rt;
    assert !NoneSchedulable(cpu, m.tasks, m.queue);
    var r := Choice(ScanFor(u, m, c).weight, next);
    var i :| 0 <= i < |m.queue| && IsFirstBest(cpu, m.tasks, m.queue, r, i);
    assert Goodness(cpu, m.tasks[m.queue[j]]) <= r.weight;
    assert TaskOk(u, m, rt, c) && TaskOk(u, m, next, c);
    if m.tasks[next].policy == Other {
      RealTimeFirst(u.hz, cpu, m.tasks[rt], m.tasks[next]);
    }
  }

  lemma LeaveBounds(u: Setup, m: Machine, c: nat, signal: bool)
    requires Inv(u, m) && c < u.cpus && Bounded(u, m)
    ensures Bounded(u, Leave(u, m, c, signal))
  {
    var m' := Leave(u, m, c, signal);
    LeaveCounter(u, m, c, signal, m.curr[c]);
    forall p | p in m'.all ensures p in m'.tasks && 0 <= m'.tasks[p].counter <= CounterBound(u.hz) {
      LeaveCounter(u, m, c, signal, p);
      assert TaskOk(u, m, p, -1);
      MoreNiceFewerTicks(u.hz, -20, m.tasks[p].nice);
    }
  }

  lemma ScanReady(u: Setup, m: Machine, e: Event)
    requires Inv(u, m) && Possible(u, m, e) && (e.Enter? || e.Rescan?)
    ensures InvExcept(u, AtScan(u, m, e), e.cpu) && !AtScan(u, m, e).phase[e.cpu].Switching?
    ensures After(u, m, e) == Decide(u, AtScan(u, m, e), e.cpu)
  {
    if e.Enter? {
      LeaveKeeps(u, m, e.cpu, e.signal);
      LeaveCounter(u, m, e.cpu, e.signal, m.curr[e.cpu]);
    } else {
      RescanReady(u, m, e.cpu);
    }
  }

  /** In every run of the original formula that starts within the bound, with an affinity bonus below
      the limit, no choice that a CPU commits is an ordinary or idle task while a real-time task that
      the CPU may schedule is queued, and the choice has at least its priority. */
  lemma RealTimeRunsFirst(u: Setup, run: seq<Machine>, events: seq<Event>, i: nat, rt: Tid)
    requires IsRun(u, run, events) && u.formula == Original && Bounded(u, run[0]) && u.bonus < BonusLimit(u.hz)
    requires i < |events| && Present(u, run[i]) && Possible(u, run[i], events[i]) && (events[i].Enter? || events[i].Rescan?)
    requires Present(u, run[i + 1]) && !run[i + 1].phase[events[i].cpu].Recalculating?
    requires var m := AtScan(u, run[i], events[i]);
             rt in m.queue && CanSchedule(ScanCpu(u, m, events[i].cpu), m.tasks[rt]) && m.tasks[rt].policy != Other
    ensures var m, next := AtScan(u, run[i], events[i]), run[i + 1].curr[events[i].cpu];
            next in m.queue && m.tasks[next].policy != Other && m.tasks[next].rtPriority >= m.tasks[rt].rtPriority
  {
    var e := events[i];
    RunKeepsInv(u, run, events, i);
    RunBoundsCounters(u, run, events, i);
    assert StepAt(u, run, events, i);
    ScanReady(u, run[i], e);
    if e.Enter? {
      LeaveBounds(u, run[i], e.cpu, e.signal);
    }
    CommitPrefersRealTime(u, AtScan(u, run[i], e), e.cpu, rt);
  }

  /** The bonus of an i386, 15, is below the limit at every tick rate. */
  lemma RealTimeRunsFirstOnI386(u: Setup, run: seq<Machine>, events: seq<Event>, i: nat, rt: Tid)
    requires IsRun(u, run, events) && u.formula == Original && Bounded(u, run[0]) && u.bonus == 15
    requires i < |events| && Present(u, run[i]) && Possible(u, run[i], events[i]) && (events[i].Enter? || events[i].Rescan?)
    requires Present(u, run[i + 1]) && !run[i + 1].phase[events[i].cpu].Recalculating?
    requires var m := AtScan(u, run[i], events[i]);
             rt in m.queue && CanSchedule(ScanCpu(u, m, events[i].cpu), m.tasks[rt]) && m.tasks[rt].policy != Other
    ensures var m, next := AtScan(u, run[i], events[i]), run[i + 1].curr[events[i].cpu];
            next in m.queue && m.tasks[next].policy != Other && m.tasks[next].rtPriority >= m.tasks[rt].rtPriority
  {
    I386BonusIsSmall(u.hz);
    RealTimeRunsFirst(u, run, events, i, rt);
  }

  // ----- when counters are recalculated, and recalculated again

  /** A scan starts a recalculation exactly when some queued task that the CPU may schedule is ordinary
      and out of ticks, and all the others it may schedule are that too or yield. */
  lemma RecalculatesWhenSpent(u: Setup, run: seq<Machine>, events: seq<Event>, i: nat)
    requires IsRun(u, run, events) && i < |events| && (events[i].Enter? || events[i].Rescan?)
    ensures Present(u, run[i]) && Possible(u, run[i], events[i]) && Present(u, run[i + 1])
    ensures var m := AtScan(u, run[i], events[i]);
            run[i + 1].phase[events[i].cpu].Recalculating? <==>
            AllSpent(ScanCpu(u, m, events[i].cpu), m.tasks, m.queue)
  {
    RunKeepsInv(u, run, events, i);
    assert StepAt(u, run, events, i);
    ScanReady(u, run[i], events[i]);
    ScanSpent(u, AtScan(u, run[i], events[i]), events[i].cpu);
  }

  lemma ScanSpent(u: Setup, m: Machine, c: nat)
    requires InvExcept(u, m, c) && c < u.cpus
    ensures Decide(u, m, c).phase[c].Recalculating? <==> AllSpent(ScanCpu(u, m, c), m.tasks, m.queue)
  {
    assert CpuOk(u, m, c, c);
    ThisCpuIsRight(u, m, c, c);
    QueueIsSane(u, m, c);
    ScanRecalculatesWhenSpent(ScanCpu(u, m, c), m.tasks, m.queue, c);
  }

  /** CPU c is recalculating, and every task it has passed still has a tick. */
  ghost predicate Charged(m: Machine, c: nat) {
    && c < |m.phase| && m.phase[c].Recalculating?
    && forall p :: p in m.all ==> p in m.phase[c].left || (p in m.tasks && m.tasks[p].counter >= 1)
  }

  /** A tick takes the last tick of its task. */
  predicate UsesUp(m: Machine, e: Event) {
    e.Tick? && e.counter == 0 && e.p in m.tasks && m.tasks[e.p].counter > 0
  }

  lemma RecalculatingPhase(u: Setup, m: Machine, e: Event, c: nat)
    requires Present(u, m) && Possible(u, m, e) && c < u.cpus && m.phase[c].Recalculating? && e != Rescan(c)
    ensures After(u, m, e).phase[c] ==
            if e == RecalculateOne(c) then Recalculating(m.phase[c].left[1..]) else m.phase[c]
  {
    match e
    case Enter(d, signal) =>
      LeaveCounter(u, m, d, signal, m.curr[d]);
      DecidePhase(u, Leave(u, m, d, signal), d, c);
    case Rescan(d) => DecidePhase(u, m, d, c);
    case _ =>
  }

  lemma DecidePhase(u: Setup, m: Machine, d: nat, c: nat)
    requires Present(u, m) && d < u.cpus && c < u.cpus && c != d
    ensures Decide(u, m, d).phase[c] == m.phase[c]
  {
  }

  lemma ChargedStays(u: Setup, m: Machine, e: Event, c: nat)
    requires Inv(u, m) && Possible(u, m, e) && c < u.cpus && Charged(m, c) && e != Rescan(c) && !UsesUp(m, e)
    ensures Charged(After(u, m, e), c)
  {
    var m' := After(u, m, e);
    RecalculatingPhase(u, m, e, c);
    EventCounter(u, m, e, m.curr[c]);
    forall p | p in m'.all && p !in m'.phase[c].left ensures p in m'.tasks && m'.tasks[p].counter >= 1 {
      assert TaskOk(u, m, p, -1);
      EventCounter(u, m, e, p);
      NewQuantumIsPositive(u.hz, u.formula, m.tasks[p], |m.all|, m.processes);
    }
  }

  /** A recalculation that nothing has undone leaves a choice. */
  lemma ChargedChooses(u: Setup, m: Machine, c: nat)
    requires Inv(u, m) && c < u.cpus && Charged(m, c) && m.phase[c].left == []
    ensures !Decide(u, m, c).phase[c].Recalculating?
  {
    RescanReady(u, m, c);
    ScanSpent(u, m, c);
  }

  /** In step j, CPU c starts to recalculate. */
  ghost predicate Begins(run: seq<Machine>, events: seq<Event>, j: nat, c: nat)
    requires |run| == |events| + 1 && j < |events|
  {
    && ((events[j].Enter? && events[j].cpu == c) || events[j] == Rescan(c))
    && c < |run[j + 1].phase| && run[j + 1].phase[c].Recalculating?
  }

  lemma BeginsRun(u: Setup, run: seq<Machine>, events: seq<Event>, j: nat, c: nat)
    requires IsRun(u, run, events) && j < |events| && c < u.cpus && Begins(run, events, j, c)
    ensures Charged(run[j + 1], c)
  {
    RunKeepsInv(u, run, events, j);
    assert StepAt(u, run, events, j);
    BeginsCharged(u, run[j], events[j]);
  }

  lemma ChargedRun(u: Setup, run: seq<Machine>, events: seq<Event>, k: nat, c: nat)
    requires IsRun(u, run, events) && k < |events| && c < u.cpus && Charged(run[k], c)
    requires events[k] != Rescan(c) && !UsesUp(run[k], events[k])
    ensures Charged(run[k + 1], c)
  {
    RunKeepsInv(u, run, events, k);
    assert StepAt(u, run, events, k);
    ChargedStays(u, run[k], events[k], c);
  }

  lemma {:induction false} ChargedUntil(u: Setup, run: seq<Machine>, events: seq<Event>, j: nat, i: nat, c: nat)
    requires IsRun(u, run, events) && j < i < |run| && c < u.cpus && Begins(run, events, j, c)
    requires forall k :: j < k < i ==> events[k] != Rescan(c) && !UsesUp(run[k], events[k])
    ensures Charged(run[i], c)
  {
    if i == j + 1 {
      BeginsRun(u, run, events, j, c);
    } else {
      ChargedUntil(u, run, events, j, i - 1, c);
      ChargedRun(u, run, events, i - 1, c);
    }
  }

  lemma BeginsCharged(u: Setup, m: Machine, e: Event)
    requires Inv(u, m) && Possible(u, m, e) && (e.Enter? || e.Rescan?) && After(u, m, e).phase[e.cpu].Recalculating?
    ensures Charged(After(u, m, e), e.cpu)
  {
    ScanReady(u, m, e);
  }

  /** In every run, of either formula, a call of schedule recalculates a second time only if some
      tick has used up a counter since its first recalculation began. */
  lemma SecondRecalculationNeedsTick(u: Setup, run: seq<Machine>, events: seq<Event>, j: nat, i: nat, c: nat)
    requires IsRun(u, run, events) && j < i < |events| && c < u.cpus
    requires Begins(run, events, j, c) && events[i] == Rescan(c)
    requires forall k :: j < k < i ==> events[k] != Rescan(c)
    requires |run[i + 1].phase| == u.cpus && run[i + 1].phase[c].Recalculating?
    ensures exists k :: j < k < i && UsesUp(run[k], events[k])
  {
    if forall k :: j < k < i ==> !UsesUp(run[k], events[k]) {
      ChargedUntil(u, run, events, j, i, c);
      RunKeepsInv(u, run, events, i);
      assert StepAt(u, run, events, i);
      ChargedChooses(u, run[i], c);
    }
  }

  // ----- a call that recalculates twice, and so might go on for ever

  const LONELY: Setup := Setup(1, 100, 15, Original)

  function IdleTask(): Task {
    Task(Running, 0, 0, Other, false, 0, 0, 1, 0, AnyCpu, {0}, false, false, 0, 1)
  }

  /** A task at nice 19, which gets one tick at a time. */
  function Lonely(counter: int, mask: CpuMask): Task {
    Task(Running, counter, 19, Other, false, 0, 1, 1, 0, mask, {0}, true, false, 0, 1)
  }

  function Alone(t: Task, curr: Tid, phase: Phase): Machine {
    Machine(map[0 := IdleTask(), 1 := t], [1], [1], 1, [curr], [phase], map[])
  }

  lemma PutAlone(a: Task, t: Task, curr: Tid, phase: Phase)
    ensures Put(Alone(a, curr, phase), 1, t) == Alone(t, curr, phase)
    ensures Put(Alone(a, curr, phase), 0, IdleTask()) == Alone(a, curr, phase)
  {
    assert map[0 := IdleTask(), 1 := a][1 := t] == map[0 := IdleTask(), 1 := t];
    assert map[0 := IdleTask(), 1 := a][0 := IdleTask()] == map[0 := IdleTask(), 1 := a];
  }

  lemma ScanAlone(t: Task, curr: Tid, phase: Phase)
    requires curr <= 1 && Present(LONELY, Alone(t, curr, phase)) && CanSchedule(Multi(0, 15, 1), t) && t.activeMm == 1
    requires t.processor == 0 && Goodness(Multi(0, 15, 1), t) > -1000
    ensures ScanFor(LONELY, Alone(t, curr, phase), 0) == Choice(Goodness(Multi(0, 15, 1), t), 1)
  {
    var m := Alone(t, curr, phase);
    assert m.queue[..0] == [];
    assert Scan(Multi(0, 15, 1), m.tasks, [], 0) == Choice(-1000, 0);
  }

  /** One task, one tick a quantum, and a tick in each recalculation: the call recalculates, scans
      and is back where it was after its first scan. */
  lemma RecalculatesTwice() returns (run: seq<Machine>, events: seq<Event>)
    ensures IsRun(LONELY, run, events) && |events| == 7
    ensures Begins(run, events, 3, 0) && events[6] == Rescan(0) && Begins(run, events, 6, 0)
    ensures forall k :: 3 < k < 6 ==> !events[k].Enter? && !events[k].Rescan?
    ensures run[7] == run[4]
  {
    StartsAlone();
    run, events := [Alone(Lonely(1, AnyCpu), 0, Executing)], [];
    run, events := Enters(run, events);
    run, events := Switches(run, events);
    run, events := Spends(run, events, Executing);
    run, events := Begs(run, events);
    run, events := Charges(run, events);
    run, events := Spends(run, events, Recalculating([]));
    run, events := Rescans(run, events);
  }

  lemma Longer(u: Setup, run: seq<Machine>, events: seq<Event>, last: Machine, e: Event, m: Machine)
    requires IsRun(u, run, events) && run[|run| - 1] == last && Step(u, last, e, m)
    ensures IsRun(u, run + [m], events + [e])
  {
    var run', events' := run + [m], events + [e];
    forall i | 0 <= i < |events'| ensures StepAt(u, run', events', i) {
      if i < |events| {
        assert StepAt(u, run, events, i);
      }
    }
  }

  lemma StartsAlone()
    ensures IsRun(LONELY, [Alone(Lonely(1, AnyCpu), 0, Executing)], [])
  {
  }

  /** The task is chosen. */
  lemma Enters(run: seq<Machine>, events: seq<Event>) returns (run': seq<Machine>, events': seq<Event>)
    requires IsRun(LONELY, run, events) && run[|run| - 1] == Alone(Lonely(1, AnyCpu), 0, Executing)
    ensures IsRun(LONELY, run', events') && events' == events + [Enter(0, false)]
    ensures run' == run + [Alone(Lonely(1, OnCpu(0)), 1, Switching(0))]
  {
    PutAlone(Lonely(1, AnyCpu), Lonely(1, OnCpu(0)), 0, Executing);
    ScanAlone(Lonely(1, AnyCpu), 0, Executing);
    var m, m' := run[|run| - 1], Alone(Lonely(1, OnCpu(0)), 1, Switching(0));
    assert Leave(LONELY, m, 0, false) == m;
    assert Commit(LONELY, m, 0, 1) == m';
    Longer(LONELY, run, events, run[|run| - 1], Enter(0, false), m');
    run', events' := run + [m'], events + [Enter(0, false)];
  }

  /** Its predecessor, the idle task, is released. */
  lemma Switches(run: seq<Machine>, events: seq<Event>) returns (run': seq<Machine>, events': seq<Event>)
    requires IsRun(LONELY, run, events) && run[|run| - 1] == Alone(Lonely(1, OnCpu(0)), 1, Switching(0))
    ensures IsRun(LONELY, run', events') && events' == events + [Tail(0)]
    ensures run' == run + [Alone(Lonely(1, OnCpu(0)), 1, Executing)]
  {
    PutAlone(Lonely(1, OnCpu(0)), Lonely(1, OnCpu(0)), 1, Switching(0));
    var m' := Alone(Lonely(1, OnCpu(0)), 1, Executing);
    Longer(LONELY, run, events, run[|run| - 1], Tail(0), m');
    run', events' := run + [m'], events + [Tail(0)];
  }

  /** It spends its only tick. */
  lemma Spends(run: seq<Machine>, events: seq<Event>, phase: Phase) returns (run': seq<Machine>, events': seq<Event>)
    requires IsRun(LONELY, run, events) && run[|run| - 1] == Alone(Lonely(1, OnCpu(0)), 1, phase) && !phase.Switching?
    ensures IsRun(LONELY, run', events') && events' == events + [Tick(0, 1, 0)]
    ensures run' == run + [Alone(Lonely(0, OnCpu(0)), 1, phase)]
  {
    PutAlone(Lonely(1, OnCpu(0)), Lonely(0, OnCpu(0)), 1, phase);
    var m' := Alone(Lonely(0, OnCpu(0)), 1, phase);
    Longer(LONELY, run, events, run[|run| - 1], Tick(0, 1, 0), m');
    run', events' := run + [m'], events + [Tick(0, 1, 0)];
  }

  /** The scan finds nothing better than a task without ticks. */
  lemma Begs(run: seq<Machine>, events: seq<Event>) returns (run': seq<Machine>, events': seq<Event>)
    requires IsRun(LONELY, run, events) && run[|run| - 1] == Alone(Lonely(0, OnCpu(0)), 1, Executing)
    ensures IsRun(LONELY, run', events') && events' == events + [Enter(0, false)]
    ensures run' == run + [Alone(Lonely(0, OnCpu(0)), 1, Recalculating([1]))]
  {
    PutAlone(Lonely(0, OnCpu(0)), Lonely(0, OnCpu(0)), 1, Executing);
    ScanAlone(Lonely(0, OnCpu(0)), 1, Executing);
    var m' := Alone(Lonely(0, OnCpu(0)), 1, Recalculating([1]));
    Longer(LONELY, run, events, run[|run| - 1], Enter(0, false), m');
    run', events' := run + [m'], events + [Enter(0, false)];
  }

  lemma DropOnly(p: Tid)
    ensures [p][1..] == []
  {
  }

  lemma PresentAlone(t: Task, phase: Phase)
    requires t.processor == 0 && !phase.Switching?
    ensures Present(LONELY, Alone(t, 1, phase))
  {
  }

  lemma RechargeStep(u: Setup, m: Machine, c: nat)
    requires Present(u, m) && Possible(u, m, RecalculateOne(c)) && m.phase[c].left[0] in m.tasks
    ensures var p := m.phase[c].left[0];
            After(u, m, RecalculateOne(c)) ==
            Put(m, p, m.tasks[p].(counter := NewCounter(u, m, p)))
            .(phase := m.phase[c := Recalculating(m.phase[c].left[1..])])
  {
  }

  lemma Charges(run: seq<Machine>, events: seq<Event>) returns (run': seq<Machine>, events': seq<Event>)
    requires IsRun(LONELY, run, events) && run[|run| - 1] == Alone(Lonely(0, OnCpu(0)), 1, Recalculating([1]))
    ensures IsRun(LONELY, run', events') && events' == events + [RecalculateOne(0)]
    ensures run' == run + [Alone(Lonely(1, OnCpu(0)), 1, Recalculating([]))]
  {
    var m, m' := run[|run| - 1], Alone(Lonely(1, OnCpu(0)), 1, Recalculating([]));
    PresentAlone(Lonely(0, OnCpu(0)), Recalculating([1]));
    RechargeStep(LONELY, m, 0);
    DropOnly(1);
    PutAlone(Lonely(0, OnCpu(0)), Lonely(1, OnCpu(0)), 1, Recalculating([1]));
    Longer(LONELY, run, events, m, RecalculateOne(0), m');
    run', events' := run + [m'], events + [RecalculateOne(0)];
  }

  /** The second scan finds what the first one found. */
  lemma Rescans(run: seq<Machine>, events: seq<Event>) returns (run': seq<Machine>, events': seq<Event>)
    requires IsRun(LONELY, run, events) && run[|run| - 1] == Alone(Lonely(0, OnCpu(0)), 1, Recalculating([]))
    ensures IsRun(LONELY, run', events') && events' == events + [Rescan(0)]
    ensures run' == run + [Alone(Lonely(0, OnCpu(0)), 1, Recalculating([1]))]
  {
    ScanAlone(Lonely(0, OnCpu(0)), 1, Recalculating([]));
    var m, m' := run[|run| - 1], Alone(Lonely(0, OnCpu(0)), 1, Recalculating([1]));
    assert m.phase[0 := Recalculating(m.all)] == m'.phase;
    Longer(LONELY, run, events, run[|run| - 1], Rescan(0), m');
    run', events' := run + [m'], events + [Rescan(0)];
  }
}
