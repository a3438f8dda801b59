/** What the steps of several CPUs do, in terms of the fields of tasks and the order of the queue. */
module MultiprocessorEffects {
  import opened Multiprocessor
  import opened Recalculation
  import opened Tasks

  // ----- whom a CPU may take

  /** cpus_allowed has the bit of CPU c, and cpus_runnable too. */
  ghost predicate MayRunOn(t: Task, c: nat) {
    c in t.allowed && (t.runnable == AnyCpu || t.runnable == OnCpu(c))
  }

  lemma CommitMasks(u: Setup, m: Machine, c: nat)
    requires InvExcept(u, m, c) && c < u.cpus && !m.phase[c].Switching? && ScanFor(u, m, c).weight != 0
    ensures var next := Decide(u, m, c).curr[c];
            && (next == c || (next in m.queue && MayRunOn(m.tasks[next], c)))
            && (next == c ==> forall p :: p in m.queue ==> !MayRunOn(m.tasks[p], c))
  {
    CommitIsBest(u, m, c);
    var cpu, next := ScanCpu(u, m, c), Decide(u, m, c).curr[c];
    if next == c {
      forall p | p in m.queue ensures !MayRunOn(m.tasks[p], c) {
        var j :| 0 <= j < |m.queue| && m.queue[j] == p;
        assert !CanSchedule(cpu, m.tasks[m.queue[j]]);
      }
    } else {
      var r := Choice(ScanFor(u, m, c).weight, next);
      var i :| 0 <= i < |m.queue| && IsFirstBest(cpu, m.tasks, m.queue, r, i);
      assert m.queue[i] in m.queue;
    }
  }

  /** In every run, whoever a CPU takes is queued, has that CPU in its affinity mask and is on no other
      CPU; and a CPU idles only if no queued task meets that. */
  lemma CommitsRespectMasks(u: Setup, run: seq<Machine>, events: seq<Event>, i: nat)
    requires IsRun(u, run, events) && i < |events| && (events[i].Enter? || events[i].Rescan?)
    ensures Present(u, run[i]) && Possible(u, run[i], events[i]) && Present(u, run[i + 1])
    ensures var m, m', c := AtScan(u, run[i], events[i]), run[i + 1], events[i].cpu;
            !m'.phase[c].Recalculating? ==>
              && (m'.curr[c] == c || (m'.curr[c] in m.queue && MayRunOn(m.tasks[m'.curr[c]], c)))
              && (m'.curr[c] == c ==> forall p :: p in m.queue ==> !MayRunOn(m.tasks[p], c))
  {
    RunKeepsInv(u, run, events, i);
    assert StepAt(u, run, events, i);
    ScanReady(u, run[i], events[i]);
    if !run[i + 1].phase[events[i].cpu].Recalculating? {
      CommitMasks(u, AtScan(u, run[i], events[i]), events[i].cpu);
    }
  }

  // ----- how it chooses among ordinary tasks

  ghost predicate Spendable(t: Task) {
    t.policy == Other && !t.yielding && t.counter > 0
  }

  /** CPU c, with mm loaded, takes t where it could have taken o: o leads by no more than the affinity
      bonus and 1; and if o is t's equal in ticks and nice, then t last ran here or o did not, and
      if they are equal in that too, t shares the mm or o does not. */
  predicate HardlyUnfair(bonus: nat, c: nat, mm: nat, t: Task, o: Task) {
    && (o.counter - o.nice) - (t.counter - t.nice) <= 1 + bonus
    && (o.counter == t.counter && o.nice == t.nice && bonus > 1 ==>
          && (o.processor == c ==> t.processor == c)
          && ((o.processor == c <==> t.processor == c) && (o.mm == mm || o.mm == 0) ==> t.mm == mm || t.mm == 0))
  }

  lemma CommitHardlyUnfair(u: Setup, m: Machine, c: nat, q: Tid)
    requires InvExcept(u, m, c) && c < u.cpus && !m.phase[c].Switching? && ScanFor(u, m, c).weight != 0
    requires q in m.queue && MayRunOn(m.tasks[q], c) && Spendable(m.tasks[q])
    ensures var next, mm := Decide(u, m, c).curr[c], m.tasks[m.curr[c]].activeMm;
            next in m.queue && (Spendable(m.tasks[next]) ==> HardlyUnfair(u.bonus, c, mm, m.tasks[next], m.tasks[q]))
  {
    CommitIsBest(u, m, c);
    CommitMasks(u, m, c);
    QueueIsSane(u, m, c);
    var cpu, next := ScanCpu(u, m, c), Decide(u, m, c).curr[c];
    if Spendable(m.tasks[next]) {
      ChoiceIsHardlyUnfair(cpu, m.tasks, m.queue, Choice(ScanFor(u, m, c).weight, next), q);
    }
  }

  /** In every run, when a CPU takes an ordinary task with ticks left, no other one that it could take
      leads it in ticks and nice by more than the affinity bonus and 1; among equals, those that
      last ran here come first, and after that those that share the mm loaded on this CPU. */
  lemma CommitsAreHardlyUnfair(u: Setup, run: seq<Machine>, events: seq<Event>, i: nat, q: Tid)
    requires IsRun(u, run, events) && i < |events| && (events[i].Enter? || events[i].Rescan?)
    requires Present(u, run[i]) && Possible(u, run[i], events[i]) && Present(u, run[i + 1])
    requires !run[i + 1].phase[events[i].cpu].Recalculating?
    requires var m := AtScan(u, run[i], events[i]);
             q in m.queue && MayRunOn(m.tasks[q], events[i].cpu) && Spendable(m.tasks[q])
    ensures var m, c := AtScan(u, run[i], events[i]), events[i].cpu;
            var next, mm := run[i + 1].curr[c], m.tasks[m.curr[c]].activeMm;
            next in m.queue && (Spendable(m.tasks[next]) ==> HardlyUnfair(u.bonus, c, mm, m.tasks[next], m.tasks[q]))
  {
    RunKeepsInv(u, run, events, i);
    assert StepAt(u, run, events, i);
    ScanReady(u, run[i], events[i]);
    CommitHardlyUnfair(u, AtScan(u, run[i], events[i]), events[i].cpu, q);
  }

  // ----- yielding

  lemma CommitPassesYielder(u: Setup, m: Machine, c: nat, q: Tid)
    requires InvExcept(u, m, c) && c < u.cpus && !m.phase[c].Switching? && ScanFor(u, m, c).weight != 0
    requires m.tasks[m.curr[c]].yielding && !IsIdle(u, m.curr[c])
    requires q in m.queue && q != m.curr[c] && MayRunOn(m.tasks[q], c)
    ensures Decide(u, m, c).curr[c] != m.curr[c] && Decide(u, m, c).curr[c] != c
  {
    CommitIsBest(u, m, c);
    CommitMasks(u, m, c);
    var cpu, next := ScanCpu(u, m, c), Decide(u, m, c).curr[c];
    var r := Choice(ScanFor(u, m, c).weight, next);
    var i :| 0 <= i < |m.queue| && IsFirstBest(cpu, m.tasks, m.queue, r, i);
    var j :| 0 <= j < |m.queue| && m.queue[j] == q;
    assert Goodness(cpu, m.tasks[m.queue[j]]) <= r.weight;
    assert TaskOk(u, m, q, c) && CpuOk(u, m, c, c);
    FreeTaskDoesNotYield(u, m, c, q);
    GoodnessBands(cpu, m.tasks[q]);
  }

  /** A queued task that c could take, other than its current one, has no yield bit. */
  lemma FreeTaskDoesNotYield(u: Setup, m: Machine, c: nat, q: Tid)
    requires InvExcept(u, m, c) && c < u.cpus && !m.phase[c].Switching?
    requires q in m.queue && q != m.curr[c] && MayRunOn(m.tasks[q], c)
    ensures !m.tasks[q].yielding
  {
    assert TaskOk(u, m, q, c);
  }

  /** In every run, a task that yields is passed over whenever its CPU could take another one. */
  lemma YielderIsPassedOver(u: Setup, run: seq<Machine>, events: seq<Event>, i: nat, q: Tid)
    requires IsRun(u, run, events) && i < |events| && (events[i].Enter? || events[i].Rescan?)
    requires Present(u, run[i]) && Possible(u, run[i], events[i]) && Present(u, run[i + 1])
    requires !run[i + 1].phase[events[i].cpu].Recalculating?
    requires var m, c := AtScan(u, run[i], events[i]), events[i].cpu;
             && m.tasks[m.curr[c]].yielding && !IsIdle(u, m.curr[c])
             && q in m.queue && q != m.curr[c] && MayRunOn(m.tasks[q], c)
    ensures run[i + 1].curr[events[i].cpu] != run[i].curr[events[i].cpu]
    ensures run[i + 1].curr[events[i].cpu] != events[i].cpu
  {
    RunKeepsInv(u, run, events, i);
    assert StepAt(u, run, events, i);
    ScanReady(u, run[i], events[i]);
    CommitPassesYielder(u, AtScan(u, run[i], events[i]), events[i].cpu, q);
  }

  /** A yield marks exactly an ordinary task, asks for a reschedule, and puts the task behind all others. */
  lemma YieldGoesLast(u: Setup, run: seq<Machine>, events: seq<Event>, i: nat, c: nat, other: Tid)
    requires IsRun(u, run, events) && i < |events| && events[i] == YieldCall(c)
    ensures |run[i].curr| == |run[i + 1].curr| == u.cpus && c < u.cpus
    ensures var m, m', p := run[i], run[i + 1], run[i].curr[c];
            && p in m.tasks && p in m'.tasks && m'.curr == m.curr && m'.tasks[p].needResched
            && (m'.tasks[p].yielding <==> m.tasks[p].policy == Other)
            && (other in m.queue && other != p ==> other in m'.queue && Precedes(m'.queue, other, p))
  {
    var m := run[i];
    RunKeepsInv(u, run, events, i);
    assert StepAt(u, run, events, i);
    assert CpuOk(u, m, c, -1) && TaskOk(u, m, m.curr[c], -1);
    WithoutMembers(m.queue, m.curr[c]);
    if other in m.queue && other != m.curr[c] {
      PrecedesMovedLast(m.queue, m.curr[c], other, other);
    }
  }

  /** A task has its yield bit only while a CPU holds it. */
  lemma YieldBitNeedsCpu(u: Setup, run: seq<Machine>, events: seq<Event>, i: nat, p: Tid)
    requires IsRun(u, run, events) && i < |run| && p in run[i].all
    ensures p in run[i].tasks && |run[i].curr| == |run[i].phase| == u.cpus
    ensures run[i].tasks[p].yielding ==>
              run[i].tasks[p].policy == Other && exists c :: 0 <= c < u.cpus && Holds(run[i], c, p)
  {
    RunKeepsInv(u, run, events, i);
    assert TaskOk(u, run[i], p, -1);
  }

  /** The yield bit does not survive schedule: the CPU clears it when it takes the task again, or else
      when it releases the task. */
  lemma ScheduleClearsYield(u: Setup, run: seq<Machine>, events: seq<Event>, i: nat, p: Tid)
    requires IsRun(u, run, events) && i < |events| && |run[i].curr| == |run[i].phase| == u.cpus
    requires Possible(u, run[i], events[i]) && |run[i + 1].curr| == |run[i + 1].phase| == u.cpus
    requires || (events[i].Tail? && run[i].phase[events[i].cpu] == Switching(p))
             || ((events[i].Enter? || events[i].Rescan?) && run[i + 1].curr[events[i].cpu] == p
                 && run[i + 1].phase[events[i].cpu] == Executing)
    ensures p in run[i + 1].tasks && !run[i + 1].tasks[p].yielding
  {
    RunKeepsInv(u, run, events, i);
    assert StepAt(u, run, events, i);
    if !events[i].Tail? {
      ScanReady(u, run[i], events[i]);
      CommitClearsYield(u, AtScan(u, run[i], events[i]), events[i].cpu, p);
    }
  }

  lemma CommitClearsYield(u: Setup, m: Machine, c: nat, p: Tid)
    requires InvExcept(u, m, c) && c < u.cpus && !m.phase[c].Switching?
    ensures Decide(u, m, c).curr[c] == p && Decide(u, m, c).phase[c] == Executing ==>
              p in Decide(u, m, c).tasks && !Decide(u, m, c).tasks[p].yielding
  {
    assert CpuOk(u, m, c, c);
    ThisCpuIsRight(u, m, c, c);
  }

  // ----- waking up, going to sleep, a new quantum

  /** A wake-up makes its task runnable and queued, behind all others if it was not queued, and does
      nothing else. */
  lemma WakeUpQueuesLast(u: Setup, run: seq<Machine>, events: seq<Event>, i: nat, p: Tid)
    requires IsRun(u, run, events) && i < |events| && events[i] == Wake(p) && p in run[i].tasks
    ensures var m, m' := run[i], run[i + 1];
            && p in m'.tasks && m'.tasks == m.tasks[p := m.tasks[p].(state := Running, onQueue := true)]
            && m'.queue == (if p in m.queue then m.queue else m.queue + [p])
            && m'.curr == m.curr && m'.phase == m.phase
  {
    RunKeepsInv(u, run, events, i);
    assert StepAt(u, run, events, i);
    assert TaskOk(u, run[i], p, -1);
  }

  /** What the first half of schedule decides about the current task p: a runnable one stays, a pending
      signal makes an interruptible sleeper runnable, and every other one leaves the queue. An
      exhausted round-robin task has a full slice again: around 50 ms at nice 0, and in proportion to
      the distance from nice 20. */
  lemma EnterDecides(u: Setup, m: Machine, c: nat, signal: bool)
    requires Inv(u, m) && Possible(u, m, Enter(c, signal)) && !IsIdle(u, m.curr[c])
    ensures var p, m' := m.curr[c], Leave(u, m, c, signal);
            && p in m.tasks && p in m'.tasks && !m'.tasks[p].needResched
            && (m.tasks[p].state == Running || (m.tasks[p].state == Interruptible && signal) ==>
                  p in m'.queue && m'.tasks[p].state == Running)
            && (m.tasks[p].state != Running && !(m.tasks[p].state == Interruptible && signal) ==>
                  p !in m'.queue && m'.tasks[p].state == m.tasks[p].state)
    ensures var p, m' := m.curr[c], Leave(u, m, c, signal);
            if m.tasks[p].policy == RoundRobin && !m.tasks[p].yielding && m.tasks[p].counter == 0 then
              && m'.tasks[p].counter == NiceToTicks(u.hz, m.tasks[p].nice)
              && (m.tasks[p].nice == 0 && 100 <= u.hz < 3240 ==> 25 * u.hz < 1000 * m'.tasks[p].counter <= 60 * u.hz)
              && 0 <= (20 - m.tasks[p].nice) * (NiceToTicks(u.hz, 0) - 1) - 20 * (m'.tasks[p].counter - 1) < 20
            else m'.tasks[p].counter == m.tasks[p].counter
  {
    assert CpuOk(u, m, c, -1);
    assert TaskOk(u, m, m.curr[c], -1);
    WithoutMembers(m.queue, m.curr[c]);
    WithoutMembers(MovedLast(m.queue, m.curr[c]), m.curr[c]);
    SliceAtNice0(u.hz);
    SliceIsProportional(u.hz, m.tasks[m.curr[c]].nice);
  }

  // ----- the order of the queue

  /** The task that an event sends to the end of the queue. */
  predicate SentLast(m: Machine, e: Event, p: Tid) {
    || (e.YieldCall? && e.cpu < |m.curr| && m.curr[e.cpu] == p)
    || (e.Enter? && e.cpu < |m.curr| && m.curr[e.cpu] == p && p in m.tasks && m.tasks[p].policy == RoundRobin
        && !m.tasks[p].yielding && m.tasks[p].counter == 0)
  }

  lemma LeaveKeepsOrder(u: Setup, m: Machine, c: nat, signal: bool, a: Tid, b: Tid)
    requires Inv(u, m) && Possible(u, m, Enter(c, signal)) && a != b && a in m.queue
    requires var q := Leave(u, m, c, signal).queue; a in q && b in q
    ensures b in m.queue
    ensures !SentLast(m, Enter(c, signal), a) && !SentLast(m, Enter(c, signal), b) ==>
              (Precedes(Leave(u, m, c, signal).queue, a, b) <==> Precedes(m.queue, a, b))
    ensures SentLast(m, Enter(c, signal), b) ==> Precedes(Leave(u, m, c, signal).queue, a, b)
  {
    var p, q := m.curr[c], m.queue;
    assert CpuOk(u, m, c, -1);
    if IsIdle(u, p) {
    } else {
      WithoutMembers(q, p);
      WithoutMembers(MovedLast(q, p), p);
      if a != p {
        PrecedesMovedLast(q, p, a, b);
        if b != p {
          PrecedesWithout(q, p, a, b);
          PrecedesWithout(MovedLast(q, p), p, a, b);
        }
      }
    }
  }

  /** The queue is first come, first served: an event leaves the order of queued tasks alone, but for
      a task that it sends to the end, and whoever joins comes last. */
  lemma QueueKeepsOrder(u: Setup, run: seq<Machine>, events: seq<Event>, i: nat, a: Tid, b: Tid)
    requires IsRun(u, run, events) && i < |events| && a != b
    requires a in run[i].queue && a in run[i + 1].queue && b in run[i + 1].queue
    ensures b in run[i].queue && !SentLast(run[i], events[i], a) && !SentLast(run[i], events[i], b) ==>
              (Precedes(run[i + 1].queue, a, b) <==> Precedes(run[i].queue, a, b))
    ensures b !in run[i].queue || SentLast(run[i], events[i], b) ==> Precedes(run[i + 1].queue, a, b)
  {
    RunKeepsInv(u, run, events, i);
    assert StepAt(u, run, events, i);
    EventKeepsOrder(u, run[i], events[i], a, b);
  }

  lemma DecideKeepsQueue(u: Setup, m: Machine, c: nat)
    requires Present(u, m) && c < u.cpus
    ensures Decide(u, m, c).queue == m.queue
  {
  }

  lemma WakeKeepsOrder(u: Setup, m: Machine, p: Tid, a: Tid, b: Tid)
    requires Inv(u, m) && p in m.all && p in m.tasks && a in m.queue && b in Woken(m, p).queue
    ensures b in m.queue ==> (Precedes(Woken(m, p).queue, a, b) <==> Precedes(m.queue, a, b))
    ensures b !in m.queue ==> Precedes(Woken(m, p).queue, a, b)
  {
    assert TaskOk(u, m, p, -1);
    PrecedesAppend(m.queue, p, a, b);
  }

  lemma YieldKeepsOrder(u: Setup, m: Machine, c: nat, a: Tid, b: Tid)
    requires Inv(u, m) && Possible(u, m, YieldCall(c)) && a != b && a in m.queue
    requires b in MovedLast(m.queue, m.curr[c])
    ensures b in m.queue
    ensures a != m.curr[c] && b != m.curr[c] ==>
              (Precedes(MovedLast(m.queue, m.curr[c]), a, b) <==> Precedes(m.queue, a, b))
    ensures b == m.curr[c] ==> Precedes(MovedLast(m.queue, m.curr[c]), a, b)
  {
    assert CpuOk(u, m, c, -1);
    WithoutMembers(m.queue, m.curr[c]);
    if a != m.curr[c] {
      PrecedesMovedLast(m.queue, m.curr[c], a, b);
    }
  }

  lemma EventKeepsOrder(u: Setup, m: Machine, e: Event, a: Tid, b: Tid)
    requires Inv(u, m) && Possible(u, m, e) && a != b && a in m.queue
    requires var q := After(u, m, e).queue; a in q && b in q
    ensures b in m.queue && !SentLast(m, e, a) && !SentLast(m, e, b) ==>
              (Precedes(After(u, m, e).queue, a, b) <==> Precedes(m.queue, a, b))
    ensures b !in m.queue || SentLast(m, e, b) ==> Precedes(After(u, m, e).queue, a, b)
  {
    match e
    case Enter(c, signal) =>
      DecideKeepsQueue(u, Leave(u, m, c, signal), c);
      LeaveKeepsOrder(u, m, c, signal, a, b);
    case Rescan(c) => DecideKeepsQueue(u, m, c);
    case Wake(p) => WakeKeepsOrder(u, m, p, a, b);
    case YieldCall(c) => YieldKeepsOrder(u, m, c, a, b);
    case Tail(_) =>
    case RecalculateOne(_) =>
    case SetState(_, _) =>
    case SetAllowed(_, _) =>
    case Tick(_, _, _) =>
  }

  // ----- a recalculation reaches everybody

  /** Only listed tasks are left to charge. */
  ghost predicate LeftIsListed(m: Machine) {
    forall c, p :: 0 <= c < |m.phase| && m.phase[c].Recalculating? && p in m.phase[c].left ==> p in m.all
  }

  lemma EventKeepsLeft(u: Setup, m: Machine, e: Event)
    requires Inv(u, m) && Possible(u, m, e) && LeftIsListed(m)
    ensures LeftIsListed(After(u, m, e))
  {
    var m' := After(u, m, e);
    EventCounter(u, m, e, if e.Wake? || e.SetAllowed? then e.p else m.curr[e.cpu]);
    forall c, p | 0 <= c < |m'.phase| && m'.phase[c].Recalculating? && p in m'.phase[c].left ensures p in m'.all {
      if e == Rescan(c) {
        ScanReady(u, m, e);
      } else if m.phase[c].Recalculating? {
        RecalculatingPhase(u, m, e, c);
      } else {
        BeginsOnlyThere(u, m, e, c);
        ScanReady(u, m, e);
      }
    }
  }

  /** A CPU starts to recalculate only in a scan of its own. */
  lemma BeginsOnlyThere(u: Setup, m: Machine, e: Event, c: nat)
    requires Inv(u, m) && Possible(u, m, e) && c < u.cpus && After(u, m, e).phase[c].Recalculating?
    requires !m.phase[c].Recalculating?
    ensures e.Enter? && e.cpu == c
  {
    match e
    case Enter(d, signal) =>
      if d != c {
        LeaveCounter(u, m, d, signal, m.curr[d]);
        DecidePhase(u, Leave(u, m, d, signal), d, c);
      }
    case Rescan(d) =>
      if d != c {
        DecidePhase(u, m, d, c);
      }
    case _ =>
  }

  lemma {:induction false} RunKeepsLeft(u: Setup, run: seq<Machine>, events: seq<Event>, i: nat)
    requires IsRun(u, run, events) && i < |run|
    ensures LeftIsListed(run[i])
  {
    if i > 0 {
      RunKeepsLeft(u, run, events, i - 1);
      RunKeepsInv(u, run, events, i - 1);
      assert StepAt(u, run, events, i - 1);
      EventKeepsLeft(u, run[i - 1], events[i - 1]);
    }
  }

  /** In the step from m to m', CPU c charges the next task of its list, and that task alone. The
      original formula adds a slice to half of what the task had left; the patched one gives
      share * count / processes, but at least 1. */
  ghost predicate ChargesNext(u: Setup, m: Machine, m': Machine, c: nat) {
    && c < |m.phase| && m.phase[c].Recalculating? && m.phase[c].left != []
    && var p := m.phase[c].left[0];
       && m'.phase == m.phase[c := Recalculating(m.phase[c].left[1..])] && p in m.tasks && p in m'.tasks
       && m'.tasks == m.tasks[p := m.tasks[p].(counter := m'.tasks[p].counter)]
       && m'.queue == m.queue && m'.curr == m.curr && m'.all == m.all
       && match u.formula
          case Original =>
            var carried := m'.tasks[p].counter - NiceToTicks(u.hz, m.tasks[p].nice);
            m.tasks[p].counter - 1 <= 2 * carried <= m.tasks[p].counter
          case FairShare =>
            m.tasks[p].user in m.processes &&
            PatchedCounter(m.tasks[p].share, |m.all|, m.processes[m.tasks[p].user], m'.tasks[p].counter)
  }

  /** So it is in every step of every recalculation. */
  lemma RecalculationProgresses(u: Setup, run: seq<Machine>, events: seq<Event>, i: nat, c: nat)
    requires IsRun(u, run, events) && i < |events| && events[i] == RecalculateOne(c)
    ensures ChargesNext(u, run[i], run[i + 1], c)
  {
    RunKeepsInv(u, run, events, i);
    RunKeepsLeft(u, run, events, i);
    assert StepAt(u, run, events, i);
    StepCharges(u, run[i], c);
  }

  lemma StepCharges(u: Setup, m: Machine, c: nat)
    requires Inv(u, m) && Possible(u, m, RecalculateOne(c)) && m.phase[c].left[0] in m.all
    ensures ChargesNext(u, m, After(u, m, RecalculateOne(c)), c)
  {
    var p := m.phase[c].left[0];
    assert TaskOk(u, m, p, -1);
    RechargeKeepsHalf(u.hz, m.tasks[p]);
    if u.formula == FairShare {
      QuantumIsPatched(m.tasks[p].share, |m.all|, m.processes[m.tasks[p].user]);
    }
  }
}
