/** Completions: any number of waiters and completers on one completion. A waiter queues itself,
    marks itself asleep and only then calls schedule, so it can be found asleep while still on the run
    queue. complete() holds the wait-queue lock over its whole scan, but the run queue moves on between
    the steps of the scan, and other wake-ups may come from anywhere. */
module Completion {
  import opened Ranks
  import opened Tasks

  datatype Place =
    | Outside
    | Dozing        // queued and marked asleep, schedule not yet called
    | Off           // has called schedule
    | Retry         // back from schedule, wants the lock to test `done` again

  datatype Waiter = Waiter(place: Place, asleep: bool, onRunqueue: bool)

  /** The wait-queue lock, which complete() holds from its count to the end of its scan. */
  datatype Lock =
    | Free
    | Scanning(pos: nat)
    | Waking(pos: nat)   // has read the state of the waiter at pos, is about to wake it

  datatype State = State(
    done: nat, queue: seq<nat>, waiters: seq<Waiter>, lock: Lock,
    completed: nat, finished: nat)

  datatype Event =
    | Arrive(id: nat)
    | CallSchedule(id: nat)
    | Resume(id: nat)
    | Relock(id: nat)
    | Complete
    | ScanNext
    | WakeNext
    | OtherWakeUp(id: nat)

  ghost predicate Present(s: State) {
    forall i :: 0 <= i < |s.queue| ==> s.queue[i] < |s.waiters|
  }

  predicate Possible(s: State, e: Event) {
    match e
    case Arrive(i) => s.lock == Free && i < |s.waiters| && s.waiters[i].place == Outside
    case CallSchedule(i) => i < |s.waiters| && s.waiters[i].place == Dozing
    case Resume(i) => i < |s.waiters| && s.waiters[i].place == Off && s.waiters[i].onRunqueue
    case Relock(i) => s.lock == Free && i < |s.waiters| && s.waiters[i].place == Retry
    case Complete => s.lock == Free
    case ScanNext => s.lock.Scanning?
    case WakeNext => s.lock.Waking? && s.lock.pos < |s.queue|
    case OtherWakeUp(i) => i < |s.waiters|
  }

  function Put(s: State, i: nat, w: Waiter): State
    requires i < |s.waiters|
  {
    s.(waiters := s.waiters[i := w])
  }

  /** The end of wait_for_completion: one token is taken. */
  function TakeToken(s: State): State
    requires s.done > 0
  {
    s.(done := s.done - 1, finished := s.finished + 1)
  }

  /** try_to_wake_up: runnable again, and back on the run queue if it had left it. */
  function WokenUp(w: Waiter): Waiter {
    w.(asleep := false, onRunqueue := true)
  }

  function After(s: State, e: Event): (r: State)
    requires Present(s) && Possible(s, e)
    ensures Present(r)
  {
    match e
    case Arrive(i) =>
      if s.done > 0 then TakeToken(s)
      else Put(s, i, s.waiters[i].(place := Dozing, asleep := true)).(queue := s.queue + [i])
    case CallSchedule(i) =>
      var w := s.waiters[i];
      Put(s, i, w.(place := Off, onRunqueue := w.onRunqueue && !w.asleep))
    case Resume(i) => Put(s, i, s.waiters[i].(place := Retry))
    case Relock(i) =>
      if s.done == 0 then Put(s, i, s.waiters[i].(place := Dozing, asleep := true))
      else
        WithoutIndices(s.queue, i);
        TakeToken(Put(s, i, s.waiters[i].(place := Outside))).(queue := Without(s.queue, i))
    case Complete => s.(done := s.done + 1, completed := s.completed + 1, lock := Scanning(0))
    case ScanNext =>
      var pos := s.lock.pos;
      if pos >= |s.queue| then s.(lock := Free)
      else if s.waiters[s.queue[pos]].asleep then s.(lock := Waking(pos))
      else s.(lock := Scanning(pos + 1))
    case WakeNext =>
      var pos, p := s.lock.pos, s.queue[s.lock.pos];
      // Waking a task that never left the run queue does not count, and the scan goes on.
      Put(s, p, WokenUp(s.waiters[p])).(lock := if s.waiters[p].onRunqueue then Scanning(pos + 1) else Free)
    case OtherWakeUp(i) => Put(s, i, WokenUp(s.waiters[i]))
  }

  lemma WithoutIndices(q: seq<nat>, p: nat)
    ensures forall i :: 0 <= i < |Without(q, p)| ==> Without(q, p)[i] in q
  {
    forall i | 0 <= i < |Without(q, p)| ensures Without(q, p)[i] in q {
      assert Without(q, p)[i] in Without(q, p);
    }
  }

  // ----- counting

  /** How many of the queued waiters are awake. */
  function Awake(ws: seq<Waiter>, q: seq<nat>): nat
    requires forall i :: 0 <= i < |q| ==> q[i] < |ws|
  {
    if q == [] then 0 else (if ws[q[0]].asleep then 0 else 1) + Awake(ws, q[1..])
  }

  lemma {:induction false} AwakeAppend(ws: seq<Waiter>, q: seq<nat>, p: nat)
    requires (forall i :: 0 <= i < |q| ==> q[i] < |ws|) && p < |ws|
    ensures Awake(ws, q + [p]) == Awake(ws, q) + (if ws[p].asleep then 0 else 1)
  {
    if q == [] {
      assert q + [p] == [p];
    } else {
      assert (q + [p])[1..] == q[1..] + [p];
      AwakeAppend(ws, q[1..], p);
    }
  }

  lemma {:induction false} AwakeRemove(ws: seq<Waiter>, q: seq<nat>, p: nat)
    requires (forall i :: 0 <= i < |q| ==> q[i] < |ws|) && p in q
    requires forall i :: 0 <= i < |Without(q, p)| ==> Without(q, p)[i] < |ws|
    ensures Awake(ws, Without(q, p)) == Awake(ws, q) - (if ws[p].asleep then 0 else 1)
  {
    if q[0] != p {
      WithoutIndices(q[1..], p);
      AwakeRemove(ws, q[1..], p);
      assert Without(q, p)[1..] == Without(q[1..], p);
    }
  }

  lemma {:induction false} AwakeUpdate(ws: seq<Waiter>, q: seq<nat>, p: nat, w: Waiter)
    requires (forall i :: 0 <= i < |q| ==> q[i] < |ws|) && NoDuplicates(q) && p < |ws|
    ensures p !in q || ws[p].asleep == w.asleep ==> Awake(ws[p := w], q) == Awake(ws, q)
    ensures p in q && ws[p].asleep && !w.asleep ==> Awake(ws[p := w], q) == Awake(ws, q) + 1
    ensures p in q && !ws[p].asleep && w.asleep ==> Awake(ws[p := w], q) == Awake(ws, q) - 1
  {
    if q != [] {
      AwakeUpdate(ws, q[1..], p, w);
      if q[0] == p {
        assert p !in q[1..];
      }
    }
  }

  lemma {:induction false} AwakeBounds(ws: seq<Waiter>, q: seq<nat>)
    requires forall i :: 0 <= i < |q| ==> q[i] < |ws|
    ensures Awake(ws, q) <= |q|
    ensures (forall i :: 0 <= i < |q| ==> !ws[q[i]].asleep) ==> Awake(ws, q) == |q|
    ensures (forall i :: 0 <= i < |q| ==> ws[q[i]].asleep) ==> Awake(ws, q) == 0
  {
    if q != [] {
      AwakeBounds(ws, q[1..]);
    }
  }

  // ----- invariant

  function Min(a: int, b: int): int {
    if a < b then a else b
  }

  ghost predicate WaiterOk(s: State, i: nat)
    requires i < |s.waiters|
  {
    var w := s.waiters[i];
    && (w.place == Outside <==> i !in s.queue)
    && match w.place
       case Outside => !w.asleep && w.onRunqueue
       case Dozing => w.onRunqueue
       case Off => w.asleep <==> !w.onRunqueue
       case Retry => !w.asleep && w.onRunqueue
  }

  /** Tokens are conserved, and there is an awake waiter for each token that a queued waiter
      could take. While complete() scans, that may lack one; but then all it has passed are
      awake. */
  ghost predicate TokensOk(s: State)
    requires Present(s)
  {
    && s.done + s.finished == s.completed
    && match s.lock
       case Free => Awake(s.waiters, s.queue) >= Min(s.done, |s.queue|)
       case Scanning(pos) => ScanOk(s, pos) && pos <= |s.queue|
       case Waking(pos) => ScanOk(s, pos) && pos < |s.queue|
  }

  ghost predicate ScanOk(s: State, pos: nat)
    requires Present(s)
  {
    && Awake(s.waiters, s.queue) >= Min(s.done - 1, |s.queue|)
    && forall i :: 0 <= i < pos && i < |s.queue| ==> !s.waiters[s.queue[i]].asleep
  }

  ghost predicate Inv(s: State) {
    && Present(s) && NoDuplicates(s.queue) && TokensOk(s)
    && forall i :: 0 <= i < |s.waiters| ==> WaiterOk(s, i)
  }

  lemma EventKeepsWaiter(s: State, e: Event, i: nat)
    requires Present(s) && NoDuplicates(s.queue) && Possible(s, e) && i < |s.waiters| && WaiterOk(s, i)
    requires e.Relock? ==> WaiterOk(s, e.id)
    ensures WaiterOk(After(s, e), i)
  {
    if e.Relock? && s.done > 0 {
      WithoutMembers(s.queue, e.id);
    }
  }

  lemma EventKeepsQueue(s: State, e: Event)
    requires Inv(s) && Possible(s, e)
    ensures NoDuplicates(After(s, e).queue)
  {
    if e.Arrive? {
      assert WaiterOk(s, e.id);
    }
    if e.Relock? {
      assert WaiterOk(s, e.id);
      WithoutMembers(s.queue, e.id);
    }
  }

  lemma WaiterKeepsTokens(s: State, e: Event)
    requires Inv(s) && Possible(s, e) && (e.Arrive? || e.CallSchedule? || e.Resume? || e.Relock? || e.OtherWakeUp?)
    ensures TokensOk(After(s, e))
  {
    var s' := After(s, e);
    assert WaiterOk(s, e.id);
    AwakeBounds(s.waiters, s.queue);
    AwakeUpdate(s.waiters, s.queue, e.id, s'.waiters[e.id]);
    if e.Arrive? && s.done == 0 {
      AwakeAppend(s'.waiters, s.queue, e.id);
    }
    if e.Relock? && s.done > 0 {
      WithoutMembers(s.queue, e.id);
      AwakeRemove(s'.waiters, s.queue, e.id);
    }
  }

  lemma CompleterKeepsTokens(s: State, e: Event)
    requires Inv(s) && Possible(s, e) && (e.Complete? || e.ScanNext? || e.WakeNext?)
    ensures TokensOk(After(s, e))
  {
    AwakeBounds(s.waiters, s.queue);
    if e.WakeNext? {
      var p := s.queue[s.lock.pos];
      assert WaiterOk(s, p);
      AwakeUpdate(s.waiters, s.queue, p, WokenUp(s.waiters[p]));
    }
  }

  lemma EventKeepsInv(s: State, e: Event)
    requires Inv(s) && Possible(s, e)
    ensures Inv(After(s, e))
  {
    EventKeepsQueue(s, e);
    forall i | 0 <= i < |s.waiters| ensures WaiterOk(After(s, e), i) {
      assert WaiterOk(s, i);
      if e.Relock? {
        assert WaiterOk(s, e.id);
      }
      EventKeepsWaiter(s, e, i);
    }
    if e.Complete? || e.ScanNext? || e.WakeNext? {
      CompleterKeepsTokens(s, e);
    } else {
      WaiterKeepsTokens(s, e);
    }
  }

  // ----- results, for every run

  ghost predicate Init(s: State) {
    && s.done == 0 && s.queue == [] && s.lock == Free && s.completed == 0 && s.finished == 0
    && forall i :: 0 <= i < |s.waiters| ==> s.waiters[i] == Waiter(Outside, false, true)
  }

  ghost predicate Step(s: State, e: Event, s': State) {
    Present(s) && Possible(s, e) && s' == After(s, e)
  }

  ghost predicate IsRun(run: seq<State>, events: seq<Event>) {
    |run| == |events| + 1 && Init(run[0]) && forall i :: 0 <= i < |events| ==> StepAt(run, events, i)
  }

  ghost predicate StepAt(run: seq<State>, events: seq<Event>, i: nat)
    requires |run| == |events| + 1 && i < |events|
  {
    Step(run[i], events[i], run[i + 1])
  }

  lemma {:induction false} RunKeepsInv(run: seq<State>, events: seq<Event>, i: nat)
    requires IsRun(run, events) && i < |run|
    ensures Inv(run[i])
  {
    if i > 0 {
      RunKeepsInv(run, events, i - 1);
      assert StepAt(run, events, i - 1);
      EventKeepsInv(run[i - 1], events[i - 1]);
    }
  }

  /** No wake-up is lost: whenever no complete() is in progress, at least min(done, queued) of the
      queued waiters are awake, and an awake waiter is on the run queue. */
  lemma NoLostWakeUp(run: seq<State>, events: seq<Event>, i: nat)
    requires IsRun(run, events) && i < |run|
    ensures Present(run[i])
    ensures run[i].lock == Free ==> Awake(run[i].waiters, run[i].queue) >= Min(run[i].done, |run[i].queue|)
    ensures forall w :: 0 <= w < |run[i].waiters| && !run[i].waiters[w].asleep ==> run[i].waiters[w].onRunqueue
  {
    RunKeepsInv(run, events, i);
    forall w | 0 <= w < |run[i].waiters| && !run[i].waiters[w].asleep ensures run[i].waiters[w].onRunqueue {
      assert WaiterOk(run[i], w);
    }
  }

  function CompleteCalls(events: seq<Event>, upTo: nat): nat
    requires upTo <= |events|
  {
    if upTo == 0 then 0 else CompleteCalls(events, upTo - 1) + (if events[upTo - 1].Complete? then 1 else 0)
  }

  /** The waits that ended: on arrival with a token there, or after a sleep. */
  function EndedWaits(run: seq<State>, events: seq<Event>, upTo: nat): nat
    requires upTo <= |events| <= |run|
  {
    if upTo == 0 then 0
    else
      EndedWaits(run, events, upTo - 1) +
      (if (events[upTo - 1].Arrive? || events[upTo - 1].Relock?) && run[upTo - 1].done > 0 then 1 else 0)
  }

  lemma {:induction false} CountersCount(run: seq<State>, events: seq<Event>, i: nat)
    requires IsRun(run, events) && i <= |events|
    ensures run[i].completed == CompleteCalls(events, i) && run[i].finished == EndedWaits(run, events, i)
  {
    if i > 0 {
      CountersCount(run, events, i - 1);
      assert StepAt(run, events, i - 1);
    }
  }

  /** Tokens are conserved: those left, plus the waits that ended, are the calls of complete(). */
  lemma TokensAreConserved(run: seq<State>, events: seq<Event>, i: nat)
    requires IsRun(run, events) && i <= |events|
    ensures run[i].done + EndedWaits(run, events, i) == CompleteCalls(events, i)
  {
    RunKeepsInv(run, events, i);
    CountersCount(run, events, i);
  }

  // ----- one wake-up for each call, and for whom

  /** This step puts a waiter back on the run queue. */
  predicate Wakes(s: State, e: Event) {
    && e.WakeNext? && s.lock.Waking? && s.lock.pos < |s.queue| && s.queue[s.lock.pos] < |s.waiters|
    && !s.waiters[s.queue[s.lock.pos]].onRunqueue
  }

  /** This step ends a scan that has come to the end of the queue. */
  predicate ScansToTheEnd(s: State, e: Event) {
    e.ScanNext? && s.lock.Scanning? && s.lock.pos >= |s.queue|
  }

  function WakeUps(run: seq<State>, events: seq<Event>, upTo: nat): nat
    requires upTo <= |events| <= |run|
  {
    if upTo == 0 then 0
    else WakeUps(run, events, upTo - 1) + (if Wakes(run[upTo - 1], events[upTo - 1]) then 1 else 0)
  }

  function FullScans(run: seq<State>, events: seq<Event>, upTo: nat): nat
    requires upTo <= |events| <= |run|
  {
    if upTo == 0 then 0
    else FullScans(run, events, upTo - 1) + (if ScansToTheEnd(run[upTo - 1], events[upTo - 1]) then 1 else 0)
  }

  /** Every call of complete() wakes exactly one waiter or scans the whole queue, and not both. */
  lemma {:induction false} OneWakeUpPerCall(run: seq<State>, events: seq<Event>, i: nat)
    requires IsRun(run, events) && i <= |events|
    ensures WakeUps(run, events, i) + FullScans(run, events, i) + (if run[i].lock == Free then 0 else 1) ==
            CompleteCalls(events, i)
  {
    if i > 0 {
      OneWakeUpPerCall(run, events, i - 1);
      RunKeepsInv(run, events, i - 1);
      assert StepAt(run, events, i - 1);
    }
  }

  /** A call that scans the whole queue leaves nobody behind off the run queue. */
  lemma FullScanMissesNobody(run: seq<State>, events: seq<Event>, i: nat)
    requires IsRun(run, events) && i < |events| && ScansToTheEnd(run[i], events[i])
    ensures forall p :: p in run[i].queue ==>
              p < |run[i].waiters| && !run[i].waiters[p].asleep && run[i].waiters[p].onRunqueue
  {
    RunKeepsInv(run, events, i);
    var s := run[i];
    forall p | p in s.queue ensures p < |s.waiters| && !s.waiters[p].asleep && s.waiters[p].onRunqueue {
      var k :| 0 <= k < |s.queue| && s.queue[k] == p;
      assert WaiterOk(s, s.queue[k]);
    }
  }

  /** The step in which w last queued itself, or -1. */
  function QueuedAt(run: seq<State>, events: seq<Event>, upTo: nat, w: nat): (j: int)
    requires upTo <= |events| <= |run|
    ensures -1 <= j < upTo
  {
    if upTo == 0 then -1
    else if events[upTo - 1] == Arrive(w) && run[upTo - 1].done == 0 then upTo - 1
    else QueuedAt(run, events, upTo - 1, w)
  }

  ghost predicate InArrivalOrder(run: seq<State>, events: seq<Event>, upTo: nat, q: seq<nat>)
    requires upTo <= |events| <= |run|
  {
    q == [] ||
    (InArrivalOrder(run, events, upTo, q[1..]) &&
     forall w :: w in q[1..] ==> QueuedAt(run, events, upTo, q[0]) < QueuedAt(run, events, upTo, w))
  }

  lemma {:induction false} OrderLater(run: seq<State>, events: seq<Event>, upTo: nat, q: seq<nat>)
    requires upTo < |events| <= |run| && InArrivalOrder(run, events, upTo, q)
    requires events[upTo].Arrive? && run[upTo].done == 0 ==> events[upTo].id !in q
    ensures InArrivalOrder(run, events, upTo + 1, q)
  {
    if q != [] {
      OrderLater(run, events, upTo, q[1..]);
    }
  }

  lemma {:induction false} OrderAppend(run: seq<State>, events: seq<Event>, upTo: nat, q: seq<nat>, w: nat)
    requires upTo <= |events| <= |run| && InArrivalOrder(run, events, upTo, q)
    requires forall x :: x in q ==> QueuedAt(run, events, upTo, x) < QueuedAt(run, events, upTo, w)
    ensures InArrivalOrder(run, events, upTo, q + [w])
  {
    if q != [] {
      OrderAppend(run, events, upTo, q[1..], w);
      assert (q + [w])[1..] == q[1..] + [w];
    }
  }

  lemma {:induction false} OrderWithout(run: seq<State>, events: seq<Event>, upTo: nat, q: seq<nat>, w: nat)
    requires upTo <= |events| <= |run| && InArrivalOrder(run, events, upTo, q)
    ensures InArrivalOrder(run, events, upTo, Without(q, w))
  {
    if q != [] && q[0] != w {
      OrderWithout(run, events, upTo, q[1..], w);
      assert Without(q, w)[1..] == Without(q[1..], w);
    }
  }

  lemma {:induction false} QueueIsInOrder(run: seq<State>, events: seq<Event>, i: nat)
    requires IsRun(run, events) && i <= |events|
    ensures InArrivalOrder(run, events, i, run[i].queue)
  {
    if i > 0 {
      var s, e := run[i - 1], events[i - 1];
      QueueIsInOrder(run, events, i - 1);
      RunKeepsInv(run, events, i - 1);
      assert StepAt(run, events, i - 1);
      if e.Arrive? {
        assert WaiterOk(s, e.id);
      }
      OrderLater(run, events, i - 1, s.queue);
      if e.Arrive? && s.done == 0 {
        OrderAppend(run, events, i, s.queue, e.id);
      }
      if e.Relock? && s.done > 0 {
        OrderWithout(run, events, i, s.queue, e.id);
      }
    }
  }

  lemma {:induction false} OrderAt(run: seq<State>, events: seq<Event>, upTo: nat, q: seq<nat>, a: nat, b: nat)
    requires upTo <= |events| <= |run| && InArrivalOrder(run, events, upTo, q) && a < b < |q|
    ensures QueuedAt(run, events, upTo, q[a]) < QueuedAt(run, events, upTo, q[b])
  {
    if a > 0 {
      OrderAt(run, events, upTo, q[1..], a - 1, b - 1);
    } else {
      assert q[b] == q[1..][b - 1];
    }
  }

  /** Of the queued waiters that are off the run queue, complete() wakes the one that queued first. */
  lemma LongestWaiterIsWoken(run: seq<State>, events: seq<Event>, i: nat, q: nat)
    requires IsRun(run, events) && i < |events| && Wakes(run[i], events[i])
    requires q in run[i].queue && q < |run[i].waiters| && !run[i].waiters[q].onRunqueue
    requires q != run[i].queue[run[i].lock.pos]
    ensures QueuedAt(run, events, i, run[i].queue[run[i].lock.pos]) < QueuedAt(run, events, i, q)
  {
    var s := run[i];
    RunKeepsInv(run, events, i);
    QueueIsInOrder(run, events, i);
    var k :| 0 <= k < |s.queue| && s.queue[k] == q;
    assert WaiterOk(s, s.queue[k]);
    OrderAt(run, events, i, s.queue, s.lock.pos, k);
  }

  /** Who sleeps has left the run queue, but for the time between marking itself and calling
      schedule; and the step that wakes somebody puts exactly that one back. */
  lemma SleepersAreOffTheRunQueue(run: seq<State>, events: seq<Event>, i: nat, w: nat)
    requires IsRun(run, events) && i < |run| && w < |run[i].waiters|
    ensures run[i].waiters[w].asleep ==> run[i].waiters[w].onRunqueue == (run[i].waiters[w].place == Dozing)
    ensures i < |events| && Wakes(run[i], events[i]) ==>
              run[i + 1].waiters == run[i].waiters[run[i].queue[run[i].lock.pos] :=
                                      run[i].waiters[run[i].queue[run[i].lock.pos]].(asleep := false, onRunqueue := true)]
  {
    RunKeepsInv(run, events, i);
    assert WaiterOk(run[i], w);
    if i < |events| {
      assert StepAt(run, events, i);
    }
  }

  // ----- progress

  /** Steps that the waiters and a running complete() take by themselves. */
  predicate Internal(e: Event) {
    e.CallSchedule? || e.Resume? || e.Relock? || e.ScanNext? || e.WakeNext?
  }

  function LockRank(s: State): int {
    match s.lock
    case Free => 0
    case Scanning(pos) => if pos <= |s.queue| then 2 * (|s.queue| - pos) + 1 else 1
    case Waking(pos) => if pos <= |s.queue| then 2 * (|s.queue| - pos) else 0
  }

  function WaiterRank(w: Waiter): nat {
    match w.place
    case Outside => 0
    case Off => if w.onRunqueue then 3 else 0
    case Retry => 2
    case Dozing => if w.asleep then 1 else 4
  }

  function TotalRank(ws: seq<Waiter>): nat {
    Total(seq(|ws|, i requires 0 <= i < |ws| => WaiterRank(ws[i])))
  }

  lemma TotalRankFalls(ws: seq<Waiter>, i: nat, w: Waiter)
    requires i < |ws| && WaiterRank(w) < WaiterRank(ws[i])
    ensures TotalRank(ws[i := w]) < TotalRank(ws)
  {
    TotalFalls(seq(|ws|, j requires 0 <= j < |ws| => WaiterRank(ws[j])),
               seq(|ws|, j requires 0 <= j < |ws| => WaiterRank(ws[i := w][j])), i);
  }

  /** Every internal step lowers a well-founded rank, so the waiters and completers come to rest
      unless new calls or other wake-ups keep arriving. */
  lemma InternalStepsEnd(s: State, e: Event)
    requires Inv(s) && Possible(s, e) && Internal(e)
    ensures (LockRank(s), TotalRank(s.waiters) decreases to LockRank(After(s, e)), TotalRank(After(s, e).waiters))
  {
    if e.CallSchedule? || e.Resume? || e.Relock? {
      assert WaiterOk(s, e.id);
      TotalRankFalls(s.waiters, e.id, After(s, e).waiters[e.id]);
    }
  }

  /** At rest no token lies unused while somebody waits. */
  lemma AtRestNobodyIsMissed(run: seq<State>, events: seq<Event>, i: nat)
    requires IsRun(run, events) && i < |run|
    requires forall e :: Internal(e) ==> !Possible(run[i], e)
    ensures run[i].done == 0 || run[i].queue == []
  {
    RunKeepsInv(run, events, i);
    var s := run[i];
    assert !Possible(s, ScanNext) && !Possible(s, WakeNext);
    forall k | 0 <= k < |s.queue| ensures s.waiters[s.queue[k]].asleep {
      var p := s.queue[k];
      assert WaiterOk(s, p);
      assert !Possible(s, CallSchedule(p)) && !Possible(s, Resume(p)) && !Possible(s, Relock(p));
    }
    AwakeBounds(s.waiters, s.queue);
  }
}
