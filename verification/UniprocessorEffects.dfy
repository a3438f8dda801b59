/** What the operations of one CPU do, in terms of the fields of tasks and the order of the queue. */
module UniprocessorEffects {
  import opened Tasks
  import opened Uniprocessor

  // ----- the first half of schedule

  /** What schedule decides about the current task p before it chooses: a runnable one stays, a pending
      signal makes an interruptible sleeper runnable, and every other one leaves the queue. An
      exhausted round-robin task has a full slice again: around 50 ms at nice 0, and in proportion to
      the distance from nice 20. */
  lemma PrepareDecidesFields(c: Config, k: Kernel, signal: bool)
    requires WellFormed(c, k) && k.curr != IDLE
    ensures var p, d := k.curr, Prepare(c, k, signal);
            && p in d.tasks && d.curr == p
            && (k.tasks[p].state == Running || (k.tasks[p].state == Interruptible && signal) ==>
                  p in d.queue && d.tasks[p].state == Running)
            && (k.tasks[p].state != Running && !(k.tasks[p].state == Interruptible && signal) ==>
                  p !in d.queue && d.tasks[p].state == k.tasks[p].state)
            && (if k.tasks[p].policy == RoundRobin && !k.tasks[p].yielding && k.tasks[p].counter == 0 then
                  && d.tasks[p].counter == NiceToTicks(c.hz, k.tasks[p].nice)
                  && (k.tasks[p].nice == 0 && 100 <= c.hz < 3240 ==> 25 * c.hz < 1000 * d.tasks[p].counter <= 60 * c.hz)
                  && 0 <= (20 - k.tasks[p].nice) * (NiceToTicks(c.hz, 0) - 1) - 20 * (d.tasks[p].counter - 1) < 20
                else d.tasks[p].counter == k.tasks[p].counter)
  {
    WithoutMembers(k.queue, k.curr);
    WithoutMembers(MovedLast(k.queue, k.curr), k.curr);
    SliceAtNice0(c.hz);
    SliceIsProportional(c.hz, k.tasks[k.curr].nice);
  }

  lemma PrepareKeepsStatics(c: Config, k: Kernel, signal: bool, p: Tid)
    requires Typed(k) && p in k.tasks
    ensures var d := Prepare(c, k, signal);
            && p in d.tasks && d.all == k.all && d.curr == k.curr && d.processes == k.processes
            && d.tasks[p].policy == k.tasks[p].policy && d.tasks[p].rtPriority == k.tasks[p].rtPriority
            && d.tasks[p].yielding == k.tasks[p].yielding && d.tasks[p].nice == k.tasks[p].nice
            && d.tasks[p].user == k.tasks[p].user && d.tasks[p].share == k.tasks[p].share
            && d.tasks[p].mm == k.tasks[p].mm && d.tasks[p].activeMm == k.tasks[p].activeMm
  {
  }

  lemma AtPickKeepsStatics(c: Config, k: Kernel, signal: bool, p: Tid)
    requires Typed(k) && p in k.tasks
    ensures var e := AtPick(c, k, signal);
            && p in e.tasks && e.all == k.all && e.curr == k.curr && e.processes == k.processes
            && e.queue == Prepare(c, k, signal).queue
            && e.tasks[p].policy == k.tasks[p].policy && e.tasks[p].rtPriority == k.tasks[p].rtPriority
            && e.tasks[p].yielding == k.tasks[p].yielding && e.tasks[p].nice == k.tasks[p].nice
            && e.tasks[p].user == k.tasks[p].user && e.tasks[p].share == k.tasks[p].share
            && e.tasks[p].mm == k.tasks[p].mm && e.tasks[p].activeMm == k.tasks[p].activeMm
  {
    PrepareKeepsStatics(c, k, signal, p);
  }

  // ----- the choice

  /** When schedule takes an ordinary task with ticks left, no other queued one with ticks leads it in
      ticks and nice by more than 1; and among equals it takes one that shares the mm that the old
      task had loaded, or needs none, if there is one. */
  lemma ScheduleIsHardlyUnfair(c: Config, k: Kernel, signal: bool, q: Tid)
    requires WellFormed(c, k)
    requires var e := AtPick(c, k, signal);
             && q in e.queue && q in e.tasks && e.tasks[q].Is(Other) && e.tasks[q].counter > 0
    ensures var e, next := AtPick(c, k, signal), Scheduled(c, k, signal).curr;
            && next in e.queue && next in e.tasks && k.curr in k.tasks
            && (e.tasks[next].Is(Other) && e.tasks[next].counter > 0 ==>
                  var (t, o, mm) := (e.tasks[next], e.tasks[q], k.tasks[k.curr].activeMm);
                  && (o.counter - o.nice) - (t.counter - t.nice) <= 1
                  && (o.counter == t.counter && o.nice == t.nice && (o.mm == mm || o.mm == 0) ==> t.mm == mm || t.mm == 0))
  {
    ScheduleChooses(c, k, signal);
    AtPickKeepsStatics(c, k, signal, k.curr);
    var e, next := AtPick(c, k, signal), Scheduled(c, k, signal).curr;
    QueueIsSane(c, e);
    if e.tasks[next].Is(Other) && e.tasks[next].counter > 0 {
      ChoiceIsHardlyUnfair(ThisCpu(e), e.tasks, e.queue, Choice(Pick(e).weight, next), q);
    }
  }

  /** The mm that the new task runs with: its own, or if it has none the one that the old task had
      loaded; and an old task without one of its own gives back what it had borrowed. */
  lemma ScheduleLendsMm(c: Config, k: Kernel, signal: bool)
    requires WellFormed(c, k)
    ensures var k' := Scheduled(c, k, signal);
            && k'.curr in k'.tasks && k.curr in k'.tasks && k.curr in k.tasks
            && k'.tasks[k'.curr].activeMm ==
               (if k'.tasks[k'.curr].mm != 0 then k'.tasks[k'.curr].mm else k.tasks[k.curr].activeMm)
            && (k'.curr != k.curr && k.tasks[k.curr].mm == 0 ==> k'.tasks[k.curr].activeMm == 0)
  {
    PrepareDecides(c, k, signal);
    SettledKeeps(c, Prepare(c, k, signal));
    AtPickKeepsStatics(c, k, signal, k.curr);
    var e := AtPick(c, k, signal);
    SwitchLendsMm(e, Pick(e).next);
  }

  lemma SwitchLendsMm(e: Kernel, next: Tid)
    requires Typed(e) && next in e.tasks && TablesOk(e) && MemoryOk(e)
    ensures var k' := SwitchTo(e, next);
            && k'.curr == next && next in k'.tasks && e.curr in k'.tasks
            && k'.tasks[next].mm == e.tasks[next].mm
            && k'.tasks[next].activeMm == (if e.tasks[next].mm != 0 then e.tasks[next].mm else e.tasks[e.curr].activeMm)
            && (next != e.curr && e.tasks[e.curr].mm == 0 ==> k'.tasks[e.curr].activeMm == 0)
  {
  }

  // ----- yield

  /** sched_yield of a task that is alone on the queue returns at once. */
  lemma YieldAloneDoesNothing(c: Config, k: Kernel)
    requires WellFormed(c, k) && k.queue == [k.curr]
    ensures YieldCalled(k) == k
  {
  }

  /** Otherwise it asks for a reschedule, puts the task behind all others, and marks it as yielding if
      it is an ordinary one. */
  lemma YieldGoesLast(c: Config, k: Kernel, other: Tid)
    requires WellFormed(c, k) && k.curr != IDLE && other in k.queue && other != k.curr
    ensures var y := YieldCalled(k);
            && y.curr == k.curr && y.curr in y.tasks && y.tasks[y.curr].needResched
            && (y.tasks[y.curr].yielding <==> k.tasks[k.curr].policy == Other)
            && other in y.queue && Precedes(y.queue, other, y.curr)
  {
    assert |k.queue| >= 2 by {
      var i :| 0 <= i < |k.queue| && k.queue[i] == other;
      var j :| 0 <= j < |k.queue| && k.queue[j] == k.curr;
      assert i != j;
    }
    WithoutMembers(k.queue, k.curr);
    PrecedesMovedLast(k.queue, k.curr, other, other);
  }

  lemma PickComesFirst(c: Config, e: Kernel, other: Tid)
    requires Deciding(c, e) && e.curr in e.queue && other in e.queue && Precedes(e.queue, other, e.curr)
    requires Goodness(ThisCpu(e), e.tasks[other]) >= Goodness(ThisCpu(e), e.tasks[e.curr])
    ensures Pick(e).next != e.curr
  {
    PickChooses(c, e);
    var i :| 0 <= i < |e.queue| && IsFirstBest(ThisCpu(e), e.tasks, e.queue, Pick(e), i);
    var a, b := PrecedesAt(e.queue, other, e.curr);
    assert CanSchedule(ThisCpu(e), e.tasks[e.queue[a]]);
  }

  /** The queue at the scan, after the old task may have been sent last. */
  lemma PrepareKeepsBehind(c: Config, k: Kernel, other: Tid)
    requires WellFormed(c, k) && k.curr != IDLE && k.tasks[k.curr].state == Running
    requires other in k.queue && other != k.curr && Precedes(k.queue, other, k.curr)
    ensures var d := Prepare(c, k, false);
            other in d.queue && k.curr in d.queue && Precedes(d.queue, other, k.curr)
  {
    WithoutMembers(k.queue, k.curr);
    PrecedesMovedLast(k.queue, k.curr, other, other);
  }

  /** A real-time task that stands behind another one of at least its priority is not taken. */
  lemma BehindIsPassedOver(c: Config, y: Kernel, other: Tid)
    requires WellFormed(c, y) && y.curr != IDLE && y.tasks[y.curr].state == Running && y.tasks[y.curr].policy != Other
    requires other in y.queue && other != y.curr && Precedes(y.queue, other, y.curr)
    requires y.tasks[other].policy != Other && y.tasks[other].rtPriority >= y.tasks[y.curr].rtPriority
    ensures Scheduled(c, y, false).curr != y.curr
  {
    PrepareKeepsBehind(c, y, other);
    PrepareDecides(c, y, false);
    SettledKeeps(c, Prepare(c, y, false));
    AtPickKeepsStatics(c, y, false, other);
    AtPickKeepsStatics(c, y, false, y.curr);
    PickComesFirst(c, AtPick(c, y, false), other);
  }

  /** After yield() by a real-time task, with another one of at least its priority runnable, a different
      task runs. */
  lemma RealTimeYieldGivesWay(c: Config, k: Kernel, other: Tid)
    requires WellFormed(c, k) && k.curr != IDLE && k.tasks[k.curr].policy != Other
    requires other in k.queue && other != k.curr && k.tasks[other].policy != Other
    requires k.tasks[other].rtPriority >= k.tasks[k.curr].rtPriority
    ensures Yielded(c, k).curr != k.curr
  {
    var s := StateSet(k, Running);
    EventKeeps(c, k, SetState(Running));
    YieldGoesLast(c, s, other);
    YieldKeeps(c, s);
    BehindIsPassedOver(c, YieldCalled(s), other);
  }

  // ----- wake-up

  /** After a wake-up of p the current task is asked to give way if it was before, or if p has been queued
      and outranks it, unless the waker is to stay on the CPU that p may use. */
  ghost predicate AsksRightly(k: Kernel, p: Tid, synchronous: bool, k': Kernel) {
    && k.curr in k.tasks && p in k.tasks && k'.curr == k.curr && k.curr in k'.tasks
    && (k'.tasks[k.curr].needResched <==>
          || k.tasks[k.curr].needResched
          || (p !in k.queue && !(synchronous && 0 in k.tasks[p].allowed) &&
              Outranks(Uni(k.tasks[k.curr].activeMm), k.tasks[p], k.tasks[k.curr])))
  }

  lemma WakeUpAsksWhenOutranked(c: Config, k: Kernel, p: Tid, synchronous: bool)
    requires WellFormed(c, k) && p in k.all && CountersBounded(c, k)
    requires k.curr == IDLE ==> Sane(k.tasks[IDLE]) && k.tasks[IDLE].counter <= CounterBound(c.hz)
    ensures AsksRightly(k, p, synchronous, WokenUp(k, p, synchronous).0)
  {
    if p !in k.queue {
      GainMeansOutranks(c.hz, ThisCpu(k), k.tasks[p], k.tasks[k.curr]);
      var q := Enqueue(MadeRunning(k, p), p);
      assert Goodness(ThisCpu(q), q.tasks[p]) == Goodness(ThisCpu(k), k.tasks[p]);
    }
  }

  /** A boot task whose counter is far below zero gives way to every task that is woken. */
  lemma WakeUpDisturbsIdle(c: Config, k: Kernel, p: Tid, synchronous: bool)
    requires WellFormed(c, k) && p in k.all && p !in k.queue && k.curr == IDLE
    requires k.tasks[IDLE].counter < 0 && k.tasks[IDLE].counter - k.tasks[IDLE].nice < -21
    requires !(synchronous && 0 in k.tasks[p].allowed)
    ensures WokenUp(k, p, synchronous).0.tasks[IDLE].needResched
  {
    GoodnessBands(ThisCpu(k), k.tasks[p]);
  }

  // ----- recalculation

  /** A counter that a recalculation may leave task p with: a slice and half of what was left, or with the
      patch share * count / processes, but at least 1. */
  ghost predicate RightlyCharged(c: Config, k: Kernel, p: Tid, counter: int)
    requires p in k.tasks
  {
    match c.formula
    case Original =>
      k.tasks[p].counter - 1 <= 2 * (counter - NiceToTicks(c.hz, k.tasks[p].nice)) <= k.tasks[p].counter
    case FairShare =>
      k.tasks[p].user in k.processes &&
      PatchedCounter(k.tasks[p].share, |k.all|, k.processes[k.tasks[p].user], counter)
  }

  /** A recalculation charges every task rightly, and changes nothing else about it. */
  lemma RecalculationCharges(c: Config, k: Kernel, p: Tid)
    requires TablesOk(k) && TasksSane(c, k) && p in k.all
    ensures var r := Recalculate(c, k);
            && p in r.tasks && r.tasks[p] == k.tasks[p].(counter := r.tasks[p].counter)
            && RightlyCharged(c, k, p, r.tasks[p].counter)
  {
    RechargeKeepsHalf(c.hz, k.tasks[p]);
    if c.formula == FairShare {
      QuantumIsPatched(k.tasks[p].share, |k.all|, k.processes[k.tasks[p].user]);
    }
  }
}
