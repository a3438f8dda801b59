/** Fairness of SCHED_RR on one CPU: a waiting task of the highest priority is reached after at
    most as many quantum expiries as there are tasks of that priority ahead of it in the queue. */
module RoundRobinFairness {
  import opened Tasks
  import opened Uniprocessor

  /** A real-time task of priority r. */
  predicate Top(tasks: TaskTable, p: Tid, r: nat) {
    p in tasks && tasks[p].policy != Other && tasks[p].rtPriority == r
  }

  /** The number of tasks of priority r ahead of w. */
  function Ahead(tasks: TaskTable, q: seq<Tid>, w: Tid, r: nat): nat {
    if q == [] || q[0] == w then 0
    else (if Top(tasks, q[0], r) then 1 else 0) + Ahead(tasks, q[1..], w, r)
  }

  predicate IsAhead(q: seq<Tid>, x: Tid, w: Tid) {
    q != [] && q[0] != w && (q[0] == x || IsAhead(q[1..], x, w))
  }

  lemma {:induction false} AppendKeepsAhead(tasks: TaskTable, q: seq<Tid>, p: Tid, x: Tid, w: Tid, r: nat)
    requires w in q
    ensures Ahead(tasks, q + [p], w, r) == Ahead(tasks, q, w, r)
    ensures IsAhead(q + [p], x, w) == IsAhead(q, x, w)
  {
    assert (q + [p])[1..] == q[1..] + [p];
    if q[0] != w {
      AppendKeepsAhead(tasks, q[1..], p, x, w, r);
    }
  }

  lemma {:induction false} RemovalAhead(tasks: TaskTable, q: seq<Tid>, x: Tid, w: Tid, r: nat)
    requires NoDuplicates(q) && x in q && w in q && x != w
    ensures Ahead(tasks, Without(q, x), w, r) ==
            Ahead(tasks, q, w, r) - (if IsAhead(q, x, w) && Top(tasks, x, r) then 1 else 0)
    ensures !IsAhead(Without(q, x), x, w) && w in Without(q, x)
  {
    if q[0] == x {
      NotAheadWhenAbsent(q[1..], x, w);
    } else if q[0] == w {
      assert Without(q, x)[0] == w;
    } else {
      RemovalAhead(tasks, q[1..], x, w, r);
      assert Without(q, x)[1..] == Without(q[1..], x);
    }
  }

  lemma {:induction false} NotAheadWhenAbsent(q: seq<Tid>, x: Tid, w: Tid)
    requires x !in q
    ensures !IsAhead(q, x, w)
  {
    if q != [] {
      NotAheadWhenAbsent(q[1..], x, w);
    }
  }

  lemma MoveLastAhead(tasks: TaskTable, q: seq<Tid>, x: Tid, w: Tid, r: nat)
    requires NoDuplicates(q) && x in q && w in q && x != w
    ensures Ahead(tasks, MovedLast(q, x), w, r) ==
            Ahead(tasks, q, w, r) - (if IsAhead(q, x, w) && Top(tasks, x, r) then 1 else 0)
    ensures !IsAhead(MovedLast(q, x), x, w)
  {
    RemovalAhead(tasks, q, x, w, r);
    AppendKeepsAhead(tasks, Without(q, x), x, x, w, r);
  }

  lemma {:induction false} TopAheadCounts(tasks: TaskTable, q: seq<Tid>, x: Tid, w: Tid, r: nat)
    requires Top(tasks, x, r) && IsAhead(q, x, w)
    ensures Ahead(tasks, q, w, r) >= 1
  {
    if q[0] != x {
      TopAheadCounts(tasks, q[1..], x, w, r);
    }
  }

  ghost predicate SameStatics(a: TaskTable, b: TaskTable) {
    forall p :: (p in a <==> p in b) && (p in a ==> a[p].policy == b[p].policy && a[p].rtPriority == b[p].rtPriority)
  }

  lemma {:induction false} StaticsDecideAhead(a: TaskTable, b: TaskTable, q: seq<Tid>, w: Tid, r: nat)
    requires SameStatics(a, b)
    ensures Ahead(a, q, w, r) == Ahead(b, q, w, r)
  {
    if q != [] {
      StaticsDecideAhead(a, b, q[1..], w, r);
    }
  }

  /** The entry at index i is the first of priority r, so it is ahead of every other one. */
  lemma {:induction false} FirstTopIsAhead(tasks: TaskTable, q: seq<Tid>, i: nat, w: Tid, r: nat)
    requires i < |q| && w in q && w != q[i] && Top(tasks, w, r)
    requires forall j :: 0 <= j < i ==> !Top(tasks, q[j], r)
    ensures IsAhead(q, q[i], w)
  {
    if i > 0 {
      FirstTopIsAhead(tasks, q[1..], i - 1, w, r);
    }
  }

  // ----- the situation, and how events change it

  /** w waits; it and the current task have the highest runnable priority r, and all tasks of
      that priority are round robin. */
  ghost predicate Contended(k: Kernel, r: nat, w: Tid) {
    && w in k.queue && w != k.curr && Top(k.tasks, w, r) && Top(k.tasks, k.curr, r)
    && forall p :: p in k.queue && p in k.tasks && k.tasks[p].policy != Other ==>
         k.tasks[p].rtPriority <= r && (k.tasks[p].rtPriority == r ==> k.tasks[p].policy == RoundRobin)
  }

  /** The turns before w: the tasks ahead of it, and the current one when it has already moved
      behind w but still runs. */
  function Turns(k: Kernel, r: nat, w: Tid): nat {
    Ahead(k.tasks, k.queue, w, r) + (if IsAhead(k.queue, k.curr, w) then 0 else 1)
  }

  lemma SomeTurnLeft(k: Kernel, r: nat, w: Tid)
    requires Contended(k, r, w)
    ensures Turns(k, r, w) >= 1
  {
    if IsAhead(k.queue, k.curr, w) {
      TopAheadCounts(k.tasks, k.queue, k.curr, w, r);
    }
  }

  predicate Expires(k: Kernel, e: Event) {
    e.Schedule? && k.curr in k.tasks && k.tasks[k.curr].Is(RoundRobin) && k.tasks[k.curr].counter == 0
  }

  lemma YieldCallTurns(c: Config, k: Kernel, r: nat, w: Tid)
    requires WellFormed(c, k) && k.curr != IDLE && Contended(k, r, w)
    ensures Turns(YieldCalled(k), r, w) == Turns(k, r, w) && w in YieldCalled(k).queue
    ensures SameStatics(k.tasks, YieldCalled(k).tasks)
  {
    MoveLastAhead(k.tasks, k.queue, k.curr, w, r);
    WithoutMembers(k.queue, k.curr);
    StaticsDecideAhead(k.tasks, YieldCalled(k).tasks, YieldCalled(k).queue, w, r);
  }

  lemma WakeUpShape(k: Kernel, p: Tid, synchronous: bool)
    requires Typed(k) && p in k.tasks
    ensures WokenUp(k, p, synchronous).0.curr == k.curr
    ensures WokenUp(k, p, synchronous).0.queue == k.queue || WokenUp(k, p, synchronous).0.queue == k.queue + [p]
    ensures SameStatics(k.tasks, WokenUp(k, p, synchronous).0.tasks)
  {
  }

  lemma WakeUpTurns(c: Config, k: Kernel, p: Tid, synchronous: bool, r: nat, w: Tid)
    requires Typed(k) && p in k.tasks && w in k.queue
    ensures Turns(WokenUp(k, p, synchronous).0, r, w) == Turns(k, r, w) && w in WokenUp(k, p, synchronous).0.queue
  {
    var k' := WokenUp(k, p, synchronous).0;
    WakeUpShape(k, p, synchronous);
    AppendKeepsAhead(k.tasks, k.queue, p, k.curr, w, r);
    StaticsDecideAhead(k.tasks, k'.tasks, k'.queue, w, r);
  }

  lemma RequeueAhead(c: Config, k: Kernel, signal: bool, r: nat, w: Tid)
    requires Typed(k) && NoDuplicates(k.queue) && k.curr in k.queue && Contended(k, r, w)
    ensures var q := Requeue(c, k);
            && w in q.queue && k.curr in q.queue && q.curr == k.curr && SameStatics(k.tasks, q.tasks)
            && Ahead(k.tasks, q.queue, w, r) + (if Expires(k, Schedule(signal)) then 1 else 0) <= Turns(k, r, w)
  {
    WithoutMembers(k.queue, k.curr);
    MoveLastAhead(k.tasks, k.queue, k.curr, w, r);
  }

  lemma DeactivateAhead(k: Kernel, signal: bool, r: nat, w: Tid)
    requires Typed(k) && NoDuplicates(k.queue) && k.curr in k.queue && w in k.queue && k.curr != w
    ensures var d := ClearResched(Deactivate(k, signal));
            && w in d.queue && SameStatics(k.tasks, d.tasks)
            && Ahead(k.tasks, d.queue, w, r) <= Ahead(k.tasks, k.queue, w, r)
  {
    RemovalAhead(k.tasks, k.queue, k.curr, w, r);
  }

  /** Moving or removing the current task in the first half of schedule. */
  lemma PrepareAhead(c: Config, k: Kernel, signal: bool, r: nat, w: Tid)
    requires WellFormed(c, k) && k.curr != IDLE && Contended(k, r, w)
    ensures var d := Prepare(c, k, signal);
            && w in d.queue && SameStatics(k.tasks, d.tasks)
            && Ahead(d.tasks, d.queue, w, r) + (if Expires(k, Schedule(signal)) then 1 else 0) <= Turns(k, r, w)
  {
    var q, d := Requeue(c, k), Prepare(c, k, signal);
    RequeueKeeps(c, k);
    RequeueAhead(c, k, signal, r, w);
    DeactivateAhead(q, signal, r, w);
    StaticsDecideAhead(k.tasks, q.tasks, d.queue, w, r);
    StaticsDecideAhead(k.tasks, q.tasks, q.queue, w, r);
    StaticsDecideAhead(q.tasks, d.tasks, d.queue, w, r);
  }

  lemma SettledAhead(c: Config, k: Kernel, r: nat, w: Tid)
    requires Typed(k)
    ensures Settled(c, k).queue == k.queue && SameStatics(k.tasks, Settled(c, k).tasks)
    ensures Ahead(Settled(c, k).tasks, k.queue, w, r) == Ahead(k.tasks, k.queue, w, r)
  {
    StaticsDecideAhead(k.tasks, Settled(c, k).tasks, k.queue, w, r);
  }

  lemma SwitchAhead(k: Kernel, next: Tid, r: nat, w: Tid)
    requires Typed(k) && next in k.tasks
    ensures SwitchTo(k, next).queue == k.queue && SameStatics(k.tasks, SwitchTo(k, next).tasks)
    ensures Ahead(SwitchTo(k, next).tasks, k.queue, w, r) == Ahead(k.tasks, k.queue, w, r)
  {
    StaticsDecideAhead(k.tasks, SwitchTo(k, next).tasks, k.queue, w, r);
  }

  /** The pick is the first queue entry of priority r. */
  lemma PickIsFirstTop(c: Config, e: Kernel, r: nat, w: Tid)
    requires Deciding(c, e) && CountersBounded(c, e) && w in e.queue && Top(e.tasks, w, r)
    requires forall p :: p in e.queue && e.tasks[p].policy != Other ==> e.tasks[p].rtPriority <= r
    ensures Top(e.tasks, Pick(e).next, r) && (Pick(e).next != w ==> IsAhead(e.queue, Pick(e).next, w))
  {
    PickChooses(c, e);
    var cpu, best := ThisCpu(e), Pick(e);
    PickIsRealTime(c, e, w, best.next);
    var i :| 0 <= i < |e.queue| && IsFirstBest(cpu, e.tasks, e.queue, best, i);
    assert Top(e.tasks, best.next, r) && best.weight == 1000 + r;
    forall j | 0 <= j < i ensures !Top(e.tasks, e.queue[j], r) {
      assert CanSchedule(cpu, e.tasks[e.queue[j]]);
    }
    if best.next != w {
      FirstTopIsAhead(e.tasks, e.queue, i, w, r);
    }
  }

  /** The state at the final scan: counters bounded, w still queued, its turns counted. */
  lemma AtPickAhead(c: Config, k: Kernel, signal: bool, r: nat, w: Tid)
    requires WellFormed(c, k) && c.formula == Original && CountersBounded(c, k)
    requires k.curr != IDLE && Contended(k, r, w)
    ensures var e := AtPick(c, k, signal);
            && Deciding(c, e) && CountersBounded(c, e) && SameStatics(k.tasks, e.tasks)
            && w in e.queue && (forall p :: p in e.queue ==> p in k.queue)
            && Ahead(e.tasks, e.queue, w, r) + (if Expires(k, Schedule(signal)) then 1 else 0) <= Turns(k, r, w)
  {
    PrepareAhead(c, k, signal, r, w);
    PrepareDecides(c, k, signal);
    PrepareKeepsMembers(c, k, signal);
    SettledKeeps(c, Prepare(c, k, signal));
    SettledAhead(c, Prepare(c, k, signal), r, w);
    AtPickBounds(c, k, signal);
  }

  lemma ScheduleStatics(c: Config, k: Kernel, signal: bool, r: nat, w: Tid)
    requires WellFormed(c, k) && c.formula == Original && CountersBounded(c, k)
    requires k.curr != IDLE && Contended(k, r, w)
    ensures SameStatics(k.tasks, Scheduled(c, k, signal).tasks)
  {
    AtPickAhead(c, k, signal, r, w);
    var e := AtPick(c, k, signal);
    SwitchAhead(e, Pick(e).next, r, w);
  }

  lemma ScheduleTurns(c: Config, k: Kernel, signal: bool, r: nat, w: Tid)
    requires WellFormed(c, k) && c.formula == Original && CountersBounded(c, k)
    requires k.curr != IDLE && Contended(k, r, w)
    ensures w in Scheduled(c, k, signal).queue
    ensures Top(AtPick(c, k, signal).tasks, Scheduled(c, k, signal).curr, r)
    ensures Scheduled(c, k, signal).curr != w ==>
              Turns(Scheduled(c, k, signal), r, w) + (if Expires(k, Schedule(signal)) then 1 else 0) <= Turns(k, r, w)
  {
    AtPickAhead(c, k, signal, r, w);
    var e := AtPick(c, k, signal);
    PickIsFirstTop(c, e, r, w);
    SwitchAhead(e, Pick(e).next, r, w);
  }

  lemma PrepareKeepsMembers(c: Config, k: Kernel, signal: bool)
    requires WellFormed(c, k)
    ensures forall p :: p in Prepare(c, k, signal).queue ==> p in k.queue
  {
    if k.curr != IDLE {
      WithoutMembers(k.queue, k.curr);
    }
  }

  /** Every event keeps w queued, and takes at least one turn away when a quantum expires. */
  lemma EventTurns(c: Config, k: Kernel, e: Event, r: nat, w: Tid)
    requires WellFormed(c, k) && Possible(k, e) && c.formula == Original && CountersBounded(c, k)
    requires k.curr != IDLE && Contended(k, r, w)
    ensures SameStatics(k.tasks, After(c, k, e).tasks) && w in After(c, k, e).queue
    ensures Top(After(c, k, e).tasks, After(c, k, e).curr, r)
    ensures After(c, k, e).curr != w ==> Turns(After(c, k, e), r, w) + (if Expires(k, e) then 1 else 0) <= Turns(k, r, w)
  {
    match e
    case Schedule(signal) =>
      AtPickAhead(c, k, signal, r, w);
      ScheduleStatics(c, k, signal, r, w);
      ScheduleTurns(c, k, signal, r, w);
    case WakeUp(p, synchronous) =>
      WakeUpShape(k, p, synchronous);
      WakeUpTurns(c, k, p, synchronous, r, w);
    case YieldCall => YieldCallTurns(c, k, r, w);
    case _ => StaticsDecideAhead(k.tasks, After(c, k, e).tasks, k.queue, w, r);
  }

  // ----- the theorem

  function Expiries(run: seq<Kernel>, events: seq<Event>, upTo: nat): nat
    requires upTo <= |events| <= |run|
  {
    if upTo == 0 then 0
    else Expiries(run, events, upTo - 1) + (if Expires(run[upTo - 1], events[upTo - 1]) then 1 else 0)
  }

  /** Throughout the run no runnable real-time task has a higher priority than r, and those of
      priority r are round robin. New tasks may arrive at any time. */
  ghost predicate PriorityCapped(run: seq<Kernel>, r: nat) {
    forall i, p :: 0 <= i < |run| && p in run[i].queue && p in run[i].tasks && run[i].tasks[p].policy != Other ==>
      run[i].tasks[p].rtPriority <= r && (run[i].tasks[p].rtPriority == r ==> run[i].tasks[p].policy == RoundRobin)
  }

  ghost predicate NeverCurrent(run: seq<Kernel>, w: Tid) {
    forall i :: 0 <= i < |run| ==> run[i].curr != w
  }

  lemma {:induction false} TurnsFall(c: Config, run: seq<Kernel>, events: seq<Event>, r: nat, w: Tid, i: nat)
    requires IsRun(c, run, events) && c.formula == Original && CountersBounded(c, run[0])
    requires PriorityCapped(run, r) && NeverCurrent(run, w)
    requires run[0].curr != IDLE && Contended(run[0], r, w) && i < |run|
    ensures Contended(run[i], r, w) && run[i].curr != IDLE
    ensures Expiries(run, events, i) + Turns(run[i], r, w) <= Turns(run[0], r, w)
  {
    if i > 0 {
      TurnsFall(c, run, events, r, w, i - 1);
      RunKeepsWellFormed(c, run, events, i - 1);
      RunBoundsCounters(c, run, events, i - 1);
      assert StepAt(c, run, events, i - 1);
      EventTurns(c, run[i - 1], events[i - 1], r, w);
      RunKeepsWellFormed(c, run, events, i);
      TopIsNotIdle(c, run[i], r);
    }
  }

  lemma TopIsNotIdle(c: Config, k: Kernel, r: nat)
    requires WellFormed(c, k) && Top(k.tasks, k.curr, r)
    ensures k.curr != IDLE
  {
  }

  /** Start with a round-robin task of the highest priority running. Unless w is selected at some
      point, fewer quanta expire than w had turns before it: the tasks of its priority ahead of
      it in the queue, and the running one if it has just moved behind w. So w is selected at the
      latest when that many quanta have expired. */
  lemma RoundRobinIsFair(c: Config, run: seq<Kernel>, events: seq<Event>, r: nat, w: Tid)
    requires IsRun(c, run, events) && c.formula == Original && CountersBounded(c, run[0])
    requires PriorityCapped(run, r) && Contended(run[0], r, w)
    ensures (exists i :: 0 <= i < |run| && run[i].curr == w) ||
            Expiries(run, events, |events|) <
              Ahead(run[0].tasks, run[0].queue, w, r) + (if IsAhead(run[0].queue, run[0].curr, w) then 0 else 1)
  {
    if NeverCurrent(run, w) {
      RunKeepsWellFormed(c, run, events, 0);
      TopIsNotIdle(c, run[0], r);
      TurnsFall(c, run, events, r, w, |events|);
      SomeTurnLeft(run[|events|], r, w);
    }
  }
}
