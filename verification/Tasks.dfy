/** Task records, their goodness, and the choice that the scheduler makes over its run queue. */
module Tasks {
  type Tid = nat

  /** The boot task, which idles when nothing else can run. */
  const IDLE: Tid := 0

  datatype RunState = Running | Interruptible | Uninterruptible | Zombie | Stopped

  datatype Policy = Other | Fifo | RoundRobin

  /** The mask `cpus_runnable`: all ones while the task is on no CPU, else the bit of its CPU. */
  datatype CpuMask = AnyCpu | OnCpu(cpu: nat)

  /** The fields of a task that scheduling looks at. `yielding` is the SCHED_YIELD bit of the
      policy word; an mm of 0 stands for none. */
  datatype Task = Task(
    state: RunState, counter: int, nice: int,
    policy: Policy, yielding: bool, rtPriority: nat,
    mm: nat, activeMm: nat,
    processor: nat, runnable: CpuMask, allowed: set<nat>,
    onQueue: bool, needResched: bool,
    user: nat, share: nat)
  {
    /** The policy word equals the given policy, so the yield bit is off. */
    predicate Is(p: Policy) {
      policy == p && !yielding
    }
  }

  type TaskTable = map<Tid, Task>

  // ----- quanta

  /** TICK_SCALE: the tick rate decides how a nice value turns into clock ticks. */
  function TickScale(hz: nat, x: int): int {
    if hz < 200 then x / 4
    else if hz < 400 then x / 2
    else if hz < 800 then x
    else if hz < 1600 then 2 * x
    else 4 * x
  }

  predicate NiceInRange(nice: int) {
    -20 <= nice <= 19
  }

  function NiceToTicks(hz: nat, nice: int): (r: int)
    ensures nice <= 20 ==> r >= 1
  {
    TickScale(hz, 20 - nice) + 1
  }

  lemma MoreNiceFewerTicks(hz: nat, a: int, b: int)
    requires a <= b
    ensures NiceToTicks(hz, b) <= NiceToTicks(hz, a)
  {
  }

  /** The recalculation of one task's counter in the original scheduler. */
  function Recharged(hz: nat, t: Task): int {
    t.counter / 2 + NiceToTicks(hz, t.nice)
  }

  /** The slice of a task at nice 0 is around 50 ms: between 25 and 60 ms exactly for the tick rates
      from 100 up to 3239. */
  lemma SliceAtNice0(hz: nat)
    ensures 25 * hz < 1000 * NiceToTicks(hz, 0) <= 60 * hz <==> 100 <= hz < 3240
  {
  }

  /** Slices are proportional to the distance from nice 20, up to rounding down to a tick. */
  lemma SliceIsProportional(hz: nat, nice: int)
    requires NiceInRange(nice)
    ensures 0 <= (20 - nice) * (NiceToTicks(hz, 0) - 1) - 20 * (NiceToTicks(hz, nice) - 1) < 20
  {
  }

  /** A recharged task gets its slice and keeps half of what it had left, rounded down. */
  lemma RechargeKeepsHalf(hz: nat, t: Task)
    ensures t.counter - 1 <= 2 * (Recharged(hz, t) - NiceToTicks(hz, t.nice)) <= t.counter
  {
  }

  /** The largest counter the original formula can ever leave: 2 * NICE_TO_TICKS(-20) - 1. */
  function CounterBound(hz: nat): int {
    2 * NiceToTicks(hz, -20) - 1
  }

  lemma RechargeKeepsBound(hz: nat, t: Task)
    requires NiceInRange(t.nice) && 0 <= t.counter <= CounterBound(hz)
    ensures 1 <= Recharged(hz, t) <= CounterBound(hz)
  {
    MoreNiceFewerTicks(hz, -20, t.nice);
  }

  /** The recalculation of the fair-share patch: the number of all processes, `count`, times the
      task's share, divided by its user's processes, but never 0. C leaves a division by zero
      undefined; here it gives 0. */
  function SharedQuantum(share: nat, count: nat, processes: int): (q: int)
    ensures processes >= 1 ==> q >= 1
  {
    if processes >= 1 then
      assert share * count / processes >= 0 by { QuotientNonNegative(share * count, processes); }
      if share * count / processes == 0 then 1 else share * count / processes
    else 0
  }

  /** A counter that the patched formula may give: share * count / processes, rounded down, but at
      least 1. */
  predicate PatchedCounter(share: nat, count: nat, processes: int, counter: int) {
    && counter >= 1
    && count * share - processes < processes * counter
    && (processes * counter <= count * share || counter == 1)
  }

  lemma QuantumIsPatched(share: nat, count: nat, processes: int)
    requires processes >= 1
    ensures PatchedCounter(share, count, processes, SharedQuantum(share, count, processes))
  {
    var due := share * count;
    assert due == processes * (due / processes) + due % processes;
  }

  /** The original recalculation, or the one of the fair-share patch. */
  datatype Formula = Original | FairShare

  /** The counter that a recalculation gives to t, with `count` tasks in all. */
  function NewQuantum(hz: nat, formula: Formula, t: Task, count: nat, processes: map<nat, int>): int {
    match formula
    case Original => Recharged(hz, t)
    case FairShare => SharedQuantum(t.share, count, if t.user in processes then processes[t.user] else 0)
  }

  /** What the patched formula relies on: the task's user counts at least one process. */
  predicate Accounted(formula: Formula, t: Task, processes: map<nat, int>) {
    formula == FairShare ==> t.share >= 1 && t.user in processes && processes[t.user] >= 1
  }

  lemma NewQuantumIsPositive(hz: nat, formula: Formula, t: Task, count: nat, processes: map<nat, int>)
    requires NiceInRange(t.nice) && t.counter >= 0 && Accounted(formula, t, processes)
    ensures NewQuantum(hz, formula, t, count, processes) >= 1
  {
  }

  lemma QuotientNonNegative(a: int, b: int)
    requires a >= 0 && b >= 1
    ensures a / b >= 0
  {
  }

  // ----- goodness

  /** What the CPU that runs the scheduler contributes: its number, the mm it has loaded, and
      on a multiprocessor the bonus for tasks that last ran on it. */
  datatype Cpu = Uni(mm: nat) | Multi(id: nat, bonus: nat, mm: nat)

  predicate CanSchedule(cpu: Cpu, t: Task) {
    cpu.Multi? ==> (t.runnable.AnyCpu? || t.runnable.cpu == cpu.id) && cpu.id in t.allowed
  }

  function Goodness(cpu: Cpu, t: Task): int {
    if t.yielding then -1
    else if t.policy == Other then
      if t.counter == 0 then 0
      else
        t.counter
        + (if cpu.Multi? && t.processor == cpu.id then cpu.bonus else 0)
        + (if t.mm == cpu.mm || t.mm == 0 then 1 else 0)
        + 20 - t.nice
    else 1000 + t.rtPriority
  }

  predicate Sane(t: Task) {
    t.counter >= 0 && NiceInRange(t.nice)
  }

  /** The possible values: -1 for a yielding task, 0 for an ordinary task with no ticks left,
      at least 2 for one with ticks left, at least 1000 for a real-time task. */
  lemma GoodnessBands(cpu: Cpu, t: Task)
    requires Sane(t)
    ensures Goodness(cpu, t) == -1 <==> t.yielding
    ensures Goodness(cpu, t) == 0 <==> t.Is(Other) && t.counter == 0
    ensures Goodness(cpu, t) != -1 && Goodness(cpu, t) != 0 ==> Goodness(cpu, t) >= 2
    ensures !t.yielding && t.policy != Other ==> Goodness(cpu, t) >= 1000
  {
  }

  predicate CachesHere(cpu: Cpu, t: Task) {
    cpu.Multi? && t.processor == cpu.id
  }

  predicate SharesMm(cpu: Cpu, t: Task) {
    t.mm == cpu.mm || t.mm == 0
  }

  /** As many ticks left and the same nice value, with a bonus that outweighs the loaded mm. */
  predicate Tied(cpu: Cpu, a: Task, b: Task) {
    a.counter == b.counter && a.nice == b.nice && (cpu.Multi? ==> cpu.bonus > 1)
  }

  /** Tied ordinary tasks are told apart by the CPU they last ran on, and after that by the mm. */
  lemma AffinityBreaksTies(cpu: Cpu, a: Task, b: Task)
    requires a.Is(Other) && b.Is(Other) && a.counter > 0 && Tied(cpu, a, b)
    ensures Goodness(cpu, a) > Goodness(cpu, b) <==>
            || (CachesHere(cpu, a) && !CachesHere(cpu, b))
            || (CachesHere(cpu, a) == CachesHere(cpu, b) && SharesMm(cpu, a) && !SharesMm(cpu, b))
  {
  }

  /** Between ordinary tasks with ticks left, a lead in ticks and nice beyond what affinity is
      worth decides. */
  lemma TicksAndNiceDecide(cpu: Cpu, a: Task, b: Task)
    requires a.Is(Other) && b.Is(Other) && a.counter > 0 && b.counter > 0
    requires (a.counter - a.nice) - (b.counter - b.nice) > AffinityWorth(cpu)
    ensures Goodness(cpu, a) > Goodness(cpu, b)
  {
  }

  /** The affinity bonus up to which real-time tasks stay ahead. */
  function BonusLimit(hz: nat): int {
    1000 - (CounterBound(hz) + 41)
  }

  /** For counters within the bound and a bonus below the limit, every real-time task beats
      every ordinary one; at the limit an ordinary task can draw level. */
  lemma RealTimeFirst(hz: nat, cpu: Cpu, rt: Task, other: Task)
    requires Sane(other) && other.counter <= CounterBound(hz)
    requires !rt.yielding && rt.policy != Other && other.policy == Other
    requires cpu.Multi? ==> cpu.bonus < BonusLimit(hz)
    ensures Goodness(cpu, other) < Goodness(cpu, rt)
  {
  }

  /** 15, the bonus of an i386, is below the limit at every tick rate. */
  lemma I386BonusIsSmall(hz: nat)
    ensures 15 < BonusLimit(hz)
  {
  }

  lemma RealTimeLimitIsExact(hz: nat, bonus: nat)
    ensures bonus < BonusLimit(hz) <==>
            forall cpu: Cpu, rt: Task, other: Task ::
              cpu.Multi? && cpu.bonus == bonus && Sane(other) && other.counter <= CounterBound(hz) &&
              !rt.yielding && rt.policy != Other && other.policy == Other
              ==> Goodness(cpu, other) < Goodness(cpu, rt)
  {
    if bonus < BonusLimit(hz) {
      forall cpu: Cpu, rt: Task, other: Task |
        cpu.Multi? && cpu.bonus == bonus && Sane(other) && other.counter <= CounterBound(hz) &&
        !rt.yielding && rt.policy != Other && other.policy == Other
        ensures Goodness(cpu, other) < Goodness(cpu, rt)
      {
        RealTimeFirst(hz, cpu, rt, other);
      }
    } else {
      var rt := Task(Running, 0, 0, Fifo, false, 0, 0, 0, 0, AnyCpu, {0}, true, false, 0, 1);
      var other := rt.(policy := Other, counter := CounterBound(hz), nice := -20);
      assert Goodness(Multi(0, bonus, 0), other) >= Goodness(Multi(0, bonus, 0), rt);
    }
  }

  function AffinityOf(cpu: Cpu, t: Task): nat {
    (if CachesHere(cpu, t) then (if cpu.Multi? then cpu.bonus else 0) else 0) + (if SharesMm(cpu, t) then 1 else 0)
  }

  /** When a should take the CPU from b: b yields and a does not; or a is real-time and b is ordinary or
      of a lower priority; or both are ordinary, a has ticks left, and b has none or less of a
      claim in ticks, nice and affinity. */
  predicate Outranks(cpu: Cpu, a: Task, b: Task) {
    if a.yielding then false
    else if b.yielding then true
    else if a.policy != Other then b.policy == Other || a.rtPriority > b.rtPriority
    else
      && b.policy == Other && a.counter > 0
      && (b.counter == 0 || a.counter - a.nice + AffinityOf(cpu, a) > b.counter - b.nice + AffinityOf(cpu, b))
  }

  /** preemption_goodness is positive exactly then, for counters within the bound. */
  lemma GainMeansOutranks(hz: nat, cpu: Cpu, a: Task, b: Task)
    requires Sane(a) && Sane(b) && a.counter <= CounterBound(hz) && b.counter <= CounterBound(hz)
    requires cpu.Multi? ==> cpu.bonus < BonusLimit(hz)
    ensures Goodness(cpu, a) - Goodness(cpu, b) > 0 <==> Outranks(cpu, a, b)
  {
    GoodnessBands(cpu, a);
    GoodnessBands(cpu, b);
    if !a.yielding && !b.yielding && a.policy != Other && b.policy == Other {
      RealTimeFirst(hz, cpu, a, b);
    }
    if !a.yielding && !b.yielding && a.policy == Other && b.policy != Other {
      RealTimeFirst(hz, cpu, b, a);
    }
  }

  // ----- the choice

  datatype Choice = Choice(weight: int, next: Tid)

  /** The scan over the run queue: from the head on, a schedulable task replaces the current
      choice only when it is strictly better. */
  function Scan(cpu: Cpu, tasks: TaskTable, queue: seq<Tid>, idle: Tid): Choice
    requires forall p :: p in queue ==> p in tasks
  {
    if queue == [] then Choice(-1000, idle)
    else
      var last := queue[|queue| - 1];
      var best := Scan(cpu, tasks, queue[..|queue| - 1], idle);
      if CanSchedule(cpu, tasks[last]) && Goodness(cpu, tasks[last]) > best.weight
      then Choice(Goodness(cpu, tasks[last]), last)
      else best
  }

  lemma {:induction false} ScanStaysInQueue(cpu: Cpu, tasks: TaskTable, queue: seq<Tid>, idle: Tid)
    requires forall p :: p in queue ==> p in tasks
    ensures Scan(cpu, tasks, queue, idle).next in queue || Scan(cpu, tasks, queue, idle).next == idle
  {
    if queue != [] {
      ScanStaysInQueue(cpu, tasks, queue[..|queue| - 1], idle);
    }
  }

  /** r is the first schedulable entry of maximal goodness. */
  ghost predicate FirstBest(cpu: Cpu, tasks: TaskTable, queue: seq<Tid>, r: Choice)
    requires forall p :: p in queue ==> p in tasks
  {
    exists i :: 0 <= i < |queue| && IsFirstBest(cpu, tasks, queue, r, i)
  }

  ghost predicate IsFirstBest(cpu: Cpu, tasks: TaskTable, queue: seq<Tid>, r: Choice, i: nat)
    requires i < |queue| && forall p :: p in queue ==> p in tasks
  {
    && queue[i] == r.next && CanSchedule(cpu, tasks[r.next]) && Goodness(cpu, tasks[r.next]) == r.weight
    && (forall j :: 0 <= j < |queue| && CanSchedule(cpu, tasks[queue[j]]) ==> Goodness(cpu, tasks[queue[j]]) <= r.weight)
    && (forall j :: 0 <= j < i && CanSchedule(cpu, tasks[queue[j]]) ==> Goodness(cpu, tasks[queue[j]]) < r.weight)
  }

  ghost predicate NoneSchedulable(cpu: Cpu, tasks: TaskTable, queue: seq<Tid>)
    requires forall p :: p in queue ==> p in tasks
  {
    forall j :: 0 <= j < |queue| ==> !CanSchedule(cpu, tasks[queue[j]])
  }

  ghost predicate AllSane(tasks: TaskTable, queue: seq<Tid>) {
    forall p :: p in queue ==> p in tasks && Sane(tasks[p])
  }

  /** The scan returns the first best entry, or the idle task exactly when nothing is schedulable. */
  lemma {:induction false} ScanFindsFirstBest(cpu: Cpu, tasks: TaskTable, queue: seq<Tid>, idle: Tid)
    requires AllSane(tasks, queue)
    ensures NoneSchedulable(cpu, tasks, queue) ==> Scan(cpu, tasks, queue, idle) == Choice(-1000, idle)
    ensures !NoneSchedulable(cpu, tasks, queue) ==>
              FirstBest(cpu, tasks, queue, Scan(cpu, tasks, queue, idle)) && Scan(cpu, tasks, queue, idle).weight >= -1
  {
    if queue != [] {
      var front, last := queue[..|queue| - 1], queue[|queue| - 1];
      ScanFindsFirstBest(cpu, tasks, front, idle);
      var best, r := Scan(cpu, tasks, front, idle), Scan(cpu, tasks, queue, idle);
      GoodnessBands(cpu, tasks[last]);
      assert forall j :: 0 <= j < |front| ==> queue[j] == front[j];
      if r == best && !NoneSchedulable(cpu, tasks, front) {
        var i :| 0 <= i < |front| && IsFirstBest(cpu, tasks, front, best, i);
        assert IsFirstBest(cpu, tasks, queue, r, i);
      } else if CanSchedule(cpu, tasks[last]) {
        assert IsFirstBest(cpu, tasks, queue, r, |queue| - 1);
      }
    }
  }

  predicate OutOfTicks(t: Task) {
    t.Is(Other) && t.counter == 0
  }

  /** Some task that could run is ordinary and out of ticks, and every other one is that too or
      yields. */
  ghost predicate AllSpent(cpu: Cpu, tasks: TaskTable, queue: seq<Tid>)
    requires forall p :: p in queue ==> p in tasks
  {
    && (exists i :: 0 <= i < |queue| && CanSchedule(cpu, tasks[queue[i]]) && OutOfTicks(tasks[queue[i]]))
    && forall i :: 0 <= i < |queue| && CanSchedule(cpu, tasks[queue[i]]) ==>
         OutOfTicks(tasks[queue[i]]) || tasks[queue[i]].yielding
  }

  /** Exactly then does the scan ask for a recalculation. */
  lemma ScanRecalculatesWhenSpent(cpu: Cpu, tasks: TaskTable, queue: seq<Tid>, idle: Tid)
    requires AllSane(tasks, queue)
    ensures Scan(cpu, tasks, queue, idle).weight == 0 <==> AllSpent(cpu, tasks, queue)
  {
    var r := Scan(cpu, tasks, queue, idle);
    ScanFindsFirstBest(cpu, tasks, queue, idle);
    forall i | 0 <= i < |queue|
      ensures Goodness(cpu, tasks[queue[i]]) == 0 <==> OutOfTicks(tasks[queue[i]])
      ensures Goodness(cpu, tasks[queue[i]]) <= 0 <==> OutOfTicks(tasks[queue[i]]) || tasks[queue[i]].yielding
    {
      GoodnessBands(cpu, tasks[queue[i]]);
    }
    if !NoneSchedulable(cpu, tasks, queue) {
      var i :| 0 <= i < |queue| && IsFirstBest(cpu, tasks, queue, r, i);
    }
  }

  /** What the affinity terms can be worth. */
  function AffinityWorth(cpu: Cpu): nat {
    1 + (if cpu.Multi? then cpu.bonus else 0)
  }

  /** Whom the scan passes over. When the choice is an ordinary task with ticks left, no other one
      that could run leads it in ticks and nice by more than affinity is worth; and of those
      with the same ticks and nice the choice has the best affinity. */
  lemma ChoiceIsHardlyUnfair(cpu: Cpu, tasks: TaskTable, queue: seq<Tid>, r: Choice, q: Tid)
    requires AllSane(tasks, queue) && FirstBest(cpu, tasks, queue, r) && r.next in tasks
    requires q in queue && CanSchedule(cpu, tasks[q])
    requires tasks[r.next].Is(Other) && tasks[r.next].counter > 0 && tasks[q].Is(Other) && tasks[q].counter > 0
    ensures (tasks[q].counter - tasks[q].nice) - (tasks[r.next].counter - tasks[r.next].nice) <= AffinityWorth(cpu)
    ensures Tied(cpu, tasks[q], tasks[r.next]) && CachesHere(cpu, tasks[q]) ==> CachesHere(cpu, tasks[r.next])
    ensures Tied(cpu, tasks[q], tasks[r.next]) && CachesHere(cpu, tasks[q]) == CachesHere(cpu, tasks[r.next]) ==>
              (SharesMm(cpu, tasks[q]) ==> SharesMm(cpu, tasks[r.next]))
  {
    var a, b := tasks[q], tasks[r.next];
    var i :| 0 <= i < |queue| && IsFirstBest(cpu, tasks, queue, r, i);
    var j :| 0 <= j < |queue| && queue[j] == q;
    assert Goodness(cpu, tasks[queue[j]]) <= r.weight;
    if (a.counter - a.nice) - (b.counter - b.nice) > AffinityWorth(cpu) {
      TicksAndNiceDecide(cpu, a, b);
    }
    if Tied(cpu, a, b) {
      AffinityBreaksTies(cpu, a, b);
    }
  }

  // ----- lists of tasks

  ghost predicate NoDuplicates(q: seq<Tid>) {
    forall i, j :: 0 <= i < j < |q| ==> q[i] != q[j]
  }

  /** list_del: drop p from the list. */
  function Without(q: seq<Tid>, p: Tid): (r: seq<Tid>)
    ensures forall x :: x in r ==> x in q
  {
    if q == [] then [] else if q[0] == p then q[1..] else [q[0]] + Without(q[1..], p)
  }

  function MovedLast(q: seq<Tid>, p: Tid): seq<Tid> {
    Without(q, p) + [p]
  }

  lemma {:induction false} WithoutMembers(q: seq<Tid>, p: Tid)
    requires NoDuplicates(q) && p in q
    ensures NoDuplicates(Without(q, p)) && |Without(q, p)| == |q| - 1
    ensures forall x :: x in Without(q, p) <==> x in q && x != p
  {
    if q[0] != p {
      assert p in q[1..];
      WithoutMembers(q[1..], p);
      var w := Without(q[1..], p);
      assert Without(q, p) == [q[0]] + w;
      forall x ensures x in Without(q, p) <==> x in q && x != p {
        assert x in q <==> x == q[0] || x in q[1..];
      }
      assert q[0] !in w;
    } else {
      assert forall x :: x in q <==> x == q[0] || x in q[1..];
    }
  }

  /** a stands before b in the list. */
  predicate Precedes(q: seq<Tid>, a: Tid, b: Tid) {
    q != [] && ((q[0] == a && b in q[1..]) || Precedes(q[1..], a, b))
  }

  lemma {:induction false} PrecedesAt(q: seq<Tid>, a: Tid, b: Tid) returns (i: nat, j: nat)
    requires Precedes(q, a, b)
    ensures i < j < |q| && q[i] == a && q[j] == b
  {
    if q[0] == a && b in q[1..] {
      i := 0;
      j :| 1 <= j < |q| && q[j] == b;
    } else {
      i, j := PrecedesAt(q[1..], a, b);
      i, j := i + 1, j + 1;
    }
  }

  lemma {:induction false} PrecedesAppend(q: seq<Tid>, p: Tid, a: Tid, b: Tid)
    ensures Precedes(q + [p], a, b) <==> Precedes(q, a, b) || (a in q && b == p)
  {
    if q != [] {
      PrecedesAppend(q[1..], p, a, b);
      assert (q + [p])[1..] == q[1..] + [p];
    }
  }

  lemma {:induction false} PrecedesWithout(q: seq<Tid>, p: Tid, a: Tid, b: Tid)
    requires a != p && b != p
    ensures Precedes(Without(q, p), a, b) <==> Precedes(q, a, b)
    ensures b in Without(q, p) <==> b in q
  {
    if q != [] {
      PrecedesWithout(q[1..], p, a, b);
      if q[0] != p {
        assert Without(q, p)[1..] == Without(q[1..], p);
      }
    }
  }

  /** Moving p to the end puts it behind everybody else and leaves their order alone. */
  lemma PrecedesMovedLast(q: seq<Tid>, p: Tid, a: Tid, b: Tid)
    requires a != p && a in q
    ensures b != p ==> (Precedes(MovedLast(q, p), a, b) <==> Precedes(q, a, b))
    ensures Precedes(MovedLast(q, p), a, p)
  {
    PrecedesWithout(q, p, a, a);
    PrecedesAppend(Without(q, p), p, a, p);
    if b != p {
      PrecedesWithout(q, p, a, b);
      PrecedesAppend(Without(q, p), p, a, b);
    }
  }
}
