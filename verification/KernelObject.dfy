/** The scheduler of one CPU as the object it is in the program: tables that each operation updates
    in place, and the run queue as a linked list. View() is the kernel state that the object
    represents; every method is proved against the function of the same step in Uniprocessor. */
module KernelObject {
  import opened RunList
  import opened Tasks
  import opened Uniprocessor
  import opened UniprocessorEffects

  // ----- task records with the flag that the pointers of the list stand for

  /** The records of the tasks, with `onQueue` read off the queue q. */
  function Flagged(tasks: TaskTable, q: seq<Tid>): TaskTable {
    map p | p in tasks :: WithFlag(p, tasks[p], q)
  }

  /** The boot task's flag is its own; it is never queued. */
  function WithFlag(p: Tid, t: Task, q: seq<Tid>): Task {
    if p == IDLE then t else t.(onQueue := p in q)
  }

  lemma FlaggedUpdate(tasks: TaskTable, q: seq<Tid>, p: Tid, t: Task)
    ensures Flagged(tasks[p := t], q) == Flagged(tasks, q)[p := WithFlag(p, t, q)]
  {
  }

  lemma FlaggedAdd(tasks: TaskTable, q: seq<Tid>, p: Tid)
    requires p in tasks && p != IDLE
    ensures Flagged(tasks, q + [p]) == Flagged(tasks, q)[p := Flagged(tasks, q)[p].(onQueue := true)]
  {
    assert forall x :: x in q + [p] <==> x in q || x == p;
  }

  lemma FlaggedDrop(tasks: TaskTable, q: seq<Tid>, p: Tid)
    requires p in tasks && p != IDLE && NoDuplicates(q) && p in q
    ensures Flagged(tasks, Without(q, p)) == Flagged(tasks, q)[p := Flagged(tasks, q)[p].(onQueue := false)]
  {
    WithoutMembers(q, p);
  }

  lemma FlaggedMove(tasks: TaskTable, q: seq<Tid>, p: Tid)
    requires NoDuplicates(q) && p in q
    ensures Flagged(tasks, MovedLast(q, p)) == Flagged(tasks, q)
  {
    WithoutMembers(q, p);
    assert forall x :: x in MovedLast(q, p) <==> x in q;
  }

  lemma RecalculatedRecord(c: Config, k: Kernel, p: Tid, t: Task, q: seq<Tid>)
    ensures WithFlag(p, t.(counter := NewCounter(c, k, t)), q) ==
            WithFlag(p, t, q).(counter := NewCounter(c, k, WithFlag(p, t, q)))
  {
  }

  /** The records when the first i of the task list have been recharged. */
  function RechargedUpTo(c: Config, k: Kernel, raw: TaskTable, i: nat): TaskTable
    requires i <= |k.all|
  {
    map p | p in raw :: if p in k.all[..i] then raw[p].(counter := NewCounter(c, k, raw[p])) else raw[p]
  }

  lemma RechargeNext(c: Config, k: Kernel, raw: TaskTable, i: nat)
    requires NoDuplicates(k.all) && i < |k.all| && k.all[i] in raw
    ensures RechargedUpTo(c, k, raw, i)[k.all[i]] == raw[k.all[i]]
    ensures RechargedUpTo(c, k, raw, i + 1) ==
            RechargedUpTo(c, k, raw, i)[k.all[i] := raw[k.all[i]].(counter := NewCounter(c, k, raw[k.all[i]]))]
  {
    var p := k.all[i];
    assert p !in k.all[..i];
    assert k.all[..i + 1] == k.all[..i] + [p];
    assert forall x :: x in k.all[..i + 1] <==> x in k.all[..i] || x == p;
  }

  lemma RecalculatedTable(c: Config, k: Kernel, raw: TaskTable, q: seq<Tid>)
    requires Typed(k) && k.tasks == Flagged(raw, q)
    ensures Flagged(RechargedUpTo(c, k, raw, |k.all|), q) == Recalculate(c, k).tasks
    ensures RechargedUpTo(c, k, raw, 0) == raw
  {
    var done, after := RechargedUpTo(c, k, raw, |k.all|), Recalculate(c, k).tasks;
    assert k.all[..|k.all|] == k.all;
    forall p | p in raw ensures p in after && WithFlag(p, done[p], q) == after[p] {
      RecalculatedRecord(c, k, p, raw[p], q);
    }
  }

  /** The records after a context switch, one assignment after the other. */
  function SwitchedRecords(raw: TaskTable, prev: Tid, next: Tid): TaskTable
    requires prev in raw && next in raw
  {
    var t1 := if next == prev || raw[next].mm != 0 then raw
              else raw[next := raw[next].(activeMm := raw[prev].activeMm)];
    var t2 := if next == prev || t1[prev].mm != 0 then t1 else t1[prev := t1[prev].(activeMm := 0)];
    t2[prev := t2[prev].(yielding := false)]
  }

  lemma SwitchedTable(k: Kernel, raw: TaskTable, next: Tid)
    requires Typed(k) && next in k.tasks && k.tasks == Flagged(raw, k.queue)
    ensures k.(tasks := Flagged(SwitchedRecords(raw, k.curr, next), k.queue), curr := next) == SwitchTo(k, next)
  {
    assert Flagged(SwitchedRecords(raw, k.curr, next), k.queue) == SwitchTo(k, next).tasks;
  }

  /** The scan of one entry more. */
  lemma ScanOneMore(cpu: Cpu, raw: TaskTable, q: seq<Tid>, i: nat)
    requires i < |q| && forall p :: p in q ==> p in raw
    ensures var best := Scan(cpu, Flagged(raw, q), q[..i], IDLE);
            var t := raw[q[i]];
            Scan(cpu, Flagged(raw, q), q[..i + 1], IDLE) ==
            if CanSchedule(cpu, t) && Goodness(cpu, t) > best.weight then Choice(Goodness(cpu, t), q[i]) else best
  {
    assert q[..i + 1][..i] == q[..i];
    assert Goodness(cpu, WithFlag(q[i], raw[q[i]], q)) == Goodness(cpu, raw[q[i]]);
  }

  /** p is another runnable real-time task of at least the priority of the current one. */
  ghost predicate MayTakeOver(k: Kernel, p: Tid) {
    && p in k.queue && p != k.curr && p in k.tasks && k.curr in k.tasks
    && k.tasks[p].policy != Other && k.tasks[p].rtPriority >= k.tasks[k.curr].rtPriority
  }

  lemma YieldedGivesWay(c: Config, k: Kernel)
    requires WellFormed(c, k) && k.curr != IDLE
    ensures k.tasks[k.curr].policy == Other && (exists p :: p in k.queue && p != k.curr) ==>
              Yielded(c, k).curr != k.curr && Yielded(c, k).curr != IDLE
    ensures k.tasks[k.curr].policy != Other && (exists p :: MayTakeOver(k, p)) ==> Yielded(c, k).curr != k.curr
  {
    if k.tasks[k.curr].policy == Other && exists p :: p in k.queue && p != k.curr {
      var p :| p in k.queue && p != k.curr;
      YieldGivesWay(c, k, p);
    }
    if k.tasks[k.curr].policy != Other && exists p :: MayTakeOver(k, p) {
      var p :| MayTakeOver(k, p);
      RealTimeYieldGivesWay(c, k, p);
    }
  }

  class Scheduler {
    const config: Config
    const rq: RunQueue
    var tasks: TaskTable
    var all: seq<Tid>
    var curr: Tid
    var processes: map<nat, int>

    /** The run queue is in order and has an entry for every task but the boot task. */
    ghost predicate Valid()
      reads this, rq, rq.repr
    {
      rq.Valid() && forall p :: p in rq.entries <==> p in tasks && p != IDLE
    }

    ghost function View(): Kernel
      reads this, rq
    {
      Kernel(Flagged(tasks, rq.contents), all, rq.contents, rq.nrRunning, curr, processes)
    }

    /** The object can be in any well-formed state. */
    constructor (config: Config, k: Kernel)
      requires WellFormed(config, k)
      ensures this.config == config && View() == k && Valid()
      ensures fresh(rq) && fresh(rq.repr)
    {
      var q := new RunQueue.Filled(k.all, k.queue);
      this.config, this.rq, this.tasks, this.all := config, q, k.tasks, k.all;
      this.curr, this.processes := k.curr, k.processes;
      assert Flagged(k.tasks, k.queue) == k.tasks;
    }

    /** A store into the record of one task. */
    method Store(p: Tid, t: Task)
      requires Valid() && p in tasks
      modifies this`tasks
      ensures Valid() && tasks == old(tasks)[p := t]
      ensures View() == Update(old(View()), p, WithFlag(p, t, rq.contents))
    {
      FlaggedUpdate(tasks, rq.contents, p, t);
      tasks := tasks[p := t];
    }

    // ----- the run queue

    /** The task is queued last and counted, and its flag is set. */
    method AddToRunqueue(p: Tid)
      requires Valid() && p in tasks && p != IDLE && p !in rq.contents
      modifies rq`contents, rq`nrRunning, rq.repr
      ensures Valid() && View() == Enqueue(old(View()), p)
    {
      FlaggedAdd(tasks, rq.contents, p);
      rq.AddToRunqueue(p);
    }

    /** The task leaves the queue and the count, and its flag is cleared. */
    method DelFromRunqueue(p: Tid)
      requires Valid() && p in tasks && p in rq.contents
      modifies rq`contents, rq`nrRunning, rq.repr
      ensures Valid() && View() == Dequeue(old(View()), p)
    {
      FlaggedDrop(tasks, rq.contents, p);
      rq.DelFromRunqueue(p);
    }

    /** The task goes to the end of the queue; no flag changes. */
    method MoveLastRunqueue(p: Tid)
      requires Valid() && p in tasks && p in rq.contents
      modifies rq`contents, rq`nrRunning, rq.repr
      ensures Valid() && View() == old(View()).(queue := MovedLast(old(rq.contents), p))
    {
      FlaggedMove(tasks, rq.contents, p);
      rq.MoveLastRunqueue(p);
    }

    // ----- schedule

    /** list_for_each over the run queue, keeping the first best task. */
    method ScanQueue(cpu: Cpu) returns (best: Choice)
      requires Valid() && Typed(View())
      ensures best == Scan(cpu, View().tasks, rq.contents, IDLE)
    {
      ghost var q, i := rq.contents, 0;
      var c, next := -1000, IDLE;
      assert rq.LinkOk(0);
      var tmp := rq.head.next;
      while tmp != rq.head
        invariant 0 <= i <= |q| && tmp == rq.At(q, i + 1)
        invariant Choice(c, next) == Scan(cpu, View().tasks, q[..i], IDLE)
        decreases |q| - i
      {
        assert rq.LinkOk(i + 1);
        ScanOneMore(cpu, tasks, q, i);
        var p := tmp.task;
        if CanSchedule(cpu, tasks[p]) {
          var weight := Goodness(cpu, tasks[p]);
          if weight > c {
            c, next := weight, p;
          }
        }
        tmp, i := tmp.next, i + 1;
      }
      assert q[..|q|] == q;
      best := Choice(c, next);
    }

    /** The loop over all tasks, when nothing interrupts it. */
    method RecalculateCounters()
      requires Valid() && TablesOk(View()) && TasksSane(config, View())
      modifies this`tasks
      ensures Valid() && View() == Recalculate(config, old(View()))
      ensures forall p :: p in all ==>
                p in old(View()).tasks && p in tasks && RightlyCharged(config, old(View()), p, tasks[p].counter)
    {
      ghost var before, raw := View(), tasks;
      RecalculatedTable(config, before, raw, rq.contents);
      for i := 0 to |all|
        invariant tasks == RechargedUpTo(config, before, raw, i)
      {
        var p := all[i];
        assert p in all;
        RechargeNext(config, before, raw, i);
        tasks := tasks[p := tasks[p].(counter := NewQuantum(config.hz, config.formula, tasks[p], |all|, processes))];
      }
      forall p | p in all ensures p in before.tasks && p in tasks && RightlyCharged(config, before, p, tasks[p].counter) {
        RecalculationCharges(config, before, p);
        assert View().tasks[p] == WithFlag(p, tasks[p], rq.contents);
      }
    }

    /** An exhausted round-robin task gets a new quantum and the last place. */
    method RequeueExhausted()
      requires Valid() && WellFormed(config, View())
      modifies this`tasks, rq`contents, rq`nrRunning, rq.repr
      ensures Valid() && View() == Requeue(config, old(View()))
    {
      var prev := curr;
      if tasks[prev].Is(RoundRobin) {
        if tasks[prev].counter == 0 {
          Store(prev, tasks[prev].(counter := NiceToTicks(config.hz, tasks[prev].nice)));
          MoveLastRunqueue(prev);
        }
      }
    }

    /** A signal wakes an interruptible sleeper; anyone else who is not runnable leaves the queue. */
    method DeactivateCurrent(signal: bool)
      requires Valid() && WellFormed(config, View())
      modifies this`tasks, rq`contents, rq`nrRunning, rq.repr
      ensures Valid() && View() == Deactivate(old(View()), signal)
    {
      var prev := curr;
      if tasks[prev].state == Interruptible && signal {
        Store(prev, tasks[prev].(state := Running));
      } else if tasks[prev].state != Running {
        DelFromRunqueue(prev);
      }
    }

    /** The work of schedule before it chooses. */
    method PrepareSchedule(signal: bool)
      requires Valid() && WellFormed(config, View())
      modifies this`tasks, rq`contents, rq`nrRunning, rq.repr
      ensures Valid() && View() == Prepare(config, old(View()), signal)
    {
      RequeueKeeps(config, View());
      RequeueExhausted();
      DeactivateCurrent(signal);
      ClearNeedResched();
    }

    method ClearNeedResched()
      requires Valid() && curr in tasks && Typed(View())
      modifies this`tasks
      ensures Valid() && View() == ClearResched(old(View()))
    {
      Store(curr, tasks[curr].(needResched := false));
    }

    /** The repeat_schedule loop, which runs at most twice when nothing interrupts a recalculation. */
    method Choose() returns (best: Choice)
      requires Valid() && Deciding(config, View())
      modifies this`tasks
      ensures Valid() && View() == Settled(config, old(View())) && best == Pick(View())
    {
      ghost var d := View();
      ghost var recalculations := 0;
      best := ScanQueue(Uni(tasks[curr].activeMm));
      while best.weight == 0
        invariant recalculations <= 1 && Valid()
        invariant View() == (if recalculations == 0 then d else Recalculate(config, d)) && Typed(View())
        invariant best == Pick(View())
        invariant recalculations == 1 ==> Pick(d).weight == 0 && best.weight != 0
        decreases 1 - recalculations
      {
        RecalculateCounters();
        best := ScanQueue(Uni(tasks[curr].activeMm));
        OneRecalculation(config, d);
        recalculations := recalculations + 1;
      }
    }

    method ContextSwitch(next: Tid)
      requires Valid() && curr in tasks && next in tasks && Typed(View())
      modifies this`tasks, this`curr
      ensures Valid() && View() == SwitchTo(old(View()), next)
    {
      ghost var raw := tasks;
      var prev := curr;
      curr := next;
      if prev != next {
        if tasks[next].mm == 0 {
          Store(next, tasks[next].(activeMm := tasks[prev].activeMm));
        }
        if tasks[prev].mm == 0 {
          Store(prev, tasks[prev].(activeMm := 0));
        }
      }
      Store(prev, tasks[prev].(yielding := false));
      assert tasks == SwitchedRecords(raw, prev, next);
      SwitchedTable(old(View()), raw, next);
    }

    /** schedule(). Its outer loop, which repeats while the new current task wants a reschedule,
        never repeats. */
    method Schedule(signal: bool)
      requires Valid() && WellFormed(config, View())
      modifies this`tasks, this`curr, rq`contents, rq`nrRunning, rq.repr
      ensures Valid() && View() == Scheduled(config, old(View()), signal)
      ensures WellFormed(config, View()) && NoFlags(View())
    {
      ghost var start := View();
      var again := true;
      while again
        invariant Valid()
        invariant again ==> View() == start
        invariant !again ==> View() == Scheduled(config, start, signal)
        decreases again
      {
        ScheduleKeeps(config, start, signal);
        PrepareDecides(config, start, signal);
        PrepareSchedule(signal);
        var best := Choose();
        ContextSwitch(best.next);
        again := tasks[curr].needResched;
        assert View().tasks[curr] == WithFlag(curr, tasks[curr], rq.contents);
      }
      ScheduleKeeps(config, start, signal);
    }

    // ----- wake-up and yield

    method TryToWakeUp(p: Tid, synchronous: bool) returns (success: bool)
      requires Valid() && WellFormed(config, View()) && p in all
      modifies this`tasks, rq`contents, rq`nrRunning, rq.repr
      ensures Valid() && (View(), success) == WokenUp(old(View()), p, synchronous)
      ensures WellFormed(config, View()) && p in rq.contents && tasks[p].state == Running
      ensures success <==> p !in old(rq.contents)
      ensures CountersBounded(config, old(View())) && curr != IDLE ==> AsksRightly(old(View()), p, synchronous, View())
    {
      WakeUpKeeps(config, View(), p, synchronous);
      if CountersBounded(config, View()) && curr != IDLE {
        WakeUpAsksWhenOutranked(config, View(), p, synchronous);
      }
      success := WakeUpLocked(p, synchronous);
      assert View().tasks[p] == WithFlag(p, tasks[p], rq.contents);
    }

    /** The part of try_to_wake_up that holds the run-queue lock. */
    method WakeUpLocked(p: Tid, synchronous: bool) returns (success: bool)
      requires Valid() && Typed(View()) && p in tasks && p != IDLE
      modifies this`tasks, rq`contents, rq`nrRunning, rq.repr
      ensures Valid() && (View(), success) == WokenUp(old(View()), p, synchronous)
    {
      Store(p, tasks[p].(state := Running));
      var queued := rq.TaskOnRunqueue(p);
      if queued {
        return false;
      }
      AddToRunqueue(p);
      if !synchronous || 0 !in tasks[p].allowed {
        ReschedIdle(p);
      }
      return true;
    }

    method ReschedIdle(p: Tid)
      requires Valid() && curr in tasks && p in tasks && Typed(View())
      modifies this`tasks
      ensures Valid() && View() == MaybePreempt(old(View()), p)
    {
      var cpu := Uni(tasks[curr].activeMm);
      if Goodness(cpu, tasks[p]) - Goodness(cpu, tasks[curr]) > 0 {
        Store(curr, tasks[curr].(needResched := true));
      }
    }

    /** The marks of a yield on the current task. */
    method MarkYielding()
      requires Valid() && curr in tasks && curr != IDLE
      modifies this`tasks
      ensures Valid() && curr in old(View()).tasks
      ensures var t := old(View()).tasks[curr];
              View() == Update(old(View()), curr, t.(yielding := t.yielding || t.Is(Other), needResched := true))
    {
      ghost var before := View();
      if tasks[curr].Is(Other) {
        Store(curr, tasks[curr].(yielding := true));
      }
      ghost var between := View();
      Store(curr, tasks[curr].(needResched := true));
      assert forall t :: Update(between, curr, t).tasks == Update(before, curr, t).tasks;
    }

    /** Unless the task is alone, it goes behind all others. */
    method SchedYield()
      requires Valid() && WellFormed(config, View()) && curr != IDLE
      modifies this`tasks, rq`contents, rq`nrRunning, rq.repr
      ensures Valid() && View() == YieldCalled(old(View())) && WellFormed(config, View())
      ensures forall p :: p in old(rq.contents) && p != curr ==> Precedes(rq.contents, p, curr)
    {
      YieldKeeps(config, View());
      forall p | p in rq.contents && p != curr ensures Precedes(YieldCalled(View()).queue, p, curr) {
        YieldGoesLast(config, View(), p);
      }
      var pending := rq.nrRunning - 1;
      if pending != 0 {
        MarkYielding();
        MoveLastRunqueue(curr);
      }
    }

    /** yield(): an ordinary task gives way to any other runnable task, and a real-time task to any
        other one of at least its priority. */
    method Yield()
      requires Valid() && WellFormed(config, View()) && curr != IDLE
      modifies this`tasks, this`curr, rq`contents, rq`nrRunning, rq.repr
      ensures Valid() && View() == Yielded(config, old(View())) && WellFormed(config, View())
      ensures old(tasks[curr].policy) == Other && (exists p :: p in old(rq.contents) && p != old(curr)) ==>
                curr != old(curr) && curr != IDLE
      ensures old(tasks[curr].policy) != Other && (exists p :: MayTakeOver(old(View()), p)) ==> curr != old(curr)
    {
      ghost var start := View();
      Store(curr, tasks[curr].(state := Running));
      EventKeeps(config, start, SetState(Running));
      SchedYield();
      Schedule(false);
      YieldedGivesWay(config, start);
    }
  }
}
