/** On a multiprocessor a woken task is offered to one CPU: which one, and whether that CPU has to
    be interrupted. */
module RescheduleIdle {
  import opened Tasks

  /** The sentinel (cycles_t) -1, which no CPU's last switch is supposed to reach. */
  const NEVER: nat := 0xFFFF_FFFF_FFFF_FFFF

  /** What one CPU runs, whether that is its idle task, when it last switched, and the CPU that
      shares its package. */
  datatype CpuState = CpuState(curr: Task, idle: bool, lastSwitch: nat, sibling: nat)

  /** The CPUs, the order in which they are looked at, PROC_CHANGE_PENALTY, and whether packages
      hold two siblings each. */
  datatype Cpus = Cpus(of: seq<CpuState>, order: seq<nat>, bonus: nat, paired: bool)
  {
    ghost predicate Valid() {
      && (forall c :: 0 <= c < |of| ==> of[c].sibling < |of| && of[c].lastSwitch <= NEVER)
      && (forall i :: 0 <= i < |order| ==> order[i] < |of|)
    }
  }

  datatype Offer = Nobody | ToIdle(cpu: nat) | ToBusy(cpu: nat)

  predicate Eligible(s: Cpus, p: Task, c: nat) {
    CanSchedule(Multi(c, s.bonus, 0), p)
  }

  /** preemption_goodness: by how much p beats what the CPU runs now. */
  function Gain(s: Cpus, p: Task, c: nat): int
    requires c < |s.of|
  {
    var cpu := Multi(c, s.bonus, s.of[c].curr.activeMm);
    Goodness(cpu, p) - Goodness(cpu, s.of[c].curr)
  }

  ghost predicate Shortcut(s: Cpus, p: Task)
    requires p.processor < |s.of|
  {
    Eligible(s, p, p.processor) && s.of[p.processor].idle
  }

  /** The i-th CPU in order and its sibling are both idle. */
  predicate WholePackage(s: Cpus, p: Task, i: nat)
    requires s.Valid() && i < |s.order|
  {
    var c := s.order[i];
    Eligible(s, p, c) && s.of[c].idle && s.paired && s.of[s.of[c].sibling].idle
  }

  predicate UsableIdle(s: Cpus, p: Task, i: nat)
    requires s.Valid() && i < |s.order|
  {
    var c := s.order[i];
    Eligible(s, p, c) && s.of[c].idle && s.of[c].lastSwitch < NEVER
  }

  predicate Beaten(s: Cpus, p: Task, i: nat)
    requires s.Valid() && i < |s.order|
  {
    var c := s.order[i];
    Eligible(s, p, c) && !s.of[c].idle && Gain(s, p, c) > 0
  }

  /** The first of the first n CPUs in order that is part of an idle package. */
  ghost predicate FirstPackage(s: Cpus, p: Task, n: nat, i: nat)
    requires s.Valid() && n <= |s.order|
  {
    i < n && WholePackage(s, p, i) && forall j :: 0 <= j < i ==> !WholePackage(s, p, j)
  }

  /** The first of the longest idle among the first n CPUs in order. */
  ghost predicate LongestIdle(s: Cpus, p: Task, n: nat, i: nat)
    requires s.Valid() && n <= |s.order|
  {
    && i < n && UsableIdle(s, p, i)
    && forall j :: 0 <= j < n && UsableIdle(s, p, j) ==>
         var a, b := s.of[s.order[i]].lastSwitch, s.of[s.order[j]].lastSwitch;
         a < b || (a == b && i <= j)
  }

  /** The first of the most clearly beaten among the first n CPUs in order. */
  ghost predicate MostBeaten(s: Cpus, p: Task, n: nat, i: nat)
    requires s.Valid() && n <= |s.order|
  {
    && i < n && Beaten(s, p, i)
    && forall j :: 0 <= j < n && Beaten(s, p, j) ==>
         var a, b := Gain(s, p, s.order[i]), Gain(s, p, s.order[j]);
         a > b || (a == b && i <= j)
  }

  ghost predicate NoPackage(s: Cpus, p: Task, n: nat)
    requires s.Valid() && n <= |s.order|
  {
    forall i :: 0 <= i < n ==> !WholePackage(s, p, i)
  }

  ghost predicate NoIdle(s: Cpus, p: Task, n: nat)
    requires s.Valid() && n <= |s.order|
  {
    forall i :: 0 <= i < n ==> !UsableIdle(s, p, i)
  }

  /** What the i-th CPU in order is told when it is picked as part of an idle package. */
  function PackageOffer(s: Cpus, i: nat): Offer
    requires s.Valid() && i < |s.order|
  {
    var c := s.order[i];
    if s.of[c].lastSwitch == NEVER then ToBusy(c) else ToIdle(c)
  }

  /** Who should get the offer: the CPU p last ran on if it idles; else an idle package; else the
      CPU that has idled longest; else the one whose task p beats by most; else nobody. */
  ghost predicate Deserves(s: Cpus, p: Task, o: Offer)
    requires s.Valid() && p.processor < |s.of|
  {
    var n := |s.order|;
    if Shortcut(s, p) then o == ToIdle(p.processor)
    else if !NoPackage(s, p, n) then
      exists i: nat :: FirstPackage(s, p, n, i) && o == PackageOffer(s, i)
    else if !NoIdle(s, p, n) then
      exists i: nat :: LongestIdle(s, p, n, i) && o == ToIdle(s.order[i])
    else if exists i :: 0 <= i < n && Beaten(s, p, i) then
      exists i: nat :: MostBeaten(s, p, n, i) && o == ToBusy(s.order[i])
    else o == Nobody
  }

  /** That settles the offer. */
  lemma OfferIsSettled(s: Cpus, p: Task, a: Offer, b: Offer)
    requires s.Valid() && p.processor < |s.of| && Deserves(s, p, a) && Deserves(s, p, b)
    ensures a == b
  {
    var n := |s.order|;
    if Shortcut(s, p) {
    } else if !NoPackage(s, p, n) {
      var i: nat :| FirstPackage(s, p, n, i) && a == PackageOffer(s, i);
      var j: nat :| FirstPackage(s, p, n, j) && b == PackageOffer(s, j);
      assert !(i < j) && !(j < i);
    } else if !NoIdle(s, p, n) {
      var i: nat :| LongestIdle(s, p, n, i) && a == ToIdle(s.order[i]);
      var j: nat :| LongestIdle(s, p, n, j) && b == ToIdle(s.order[j]);
      assert !(i < j) && !(j < i);
    } else if exists i :: 0 <= i < n && Beaten(s, p, i) {
      var i: nat :| MostBeaten(s, p, n, i) && a == ToBusy(s.order[i]);
      var j: nat :| MostBeaten(s, p, n, j) && b == ToBusy(s.order[j]);
      assert !(i < j) && !(j < i);
    }
  }

  // ----- what the offer means on fields

  /** The affinity mask of p has CPU c, and no other CPU has p. */
  ghost predicate MayGoTo(p: Task, c: nat) {
    c in p.allowed && (p.runnable == AnyCpu || p.runnable == OnCpu(c))
  }

  /** Counters, nice values and the bonus are such that priorities decide; see GainMeansOutranks. */
  ghost predicate Ranked(hz: nat, s: Cpus, p: Task) {
    && Sane(p) && p.counter <= CounterBound(hz) && s.bonus < BonusLimit(hz)
    && forall c :: 0 <= c < |s.of| && !s.of[c].idle ==>
         Sane(s.of[c].curr) && s.of[c].curr.counter <= CounterBound(hz)
  }

  /** p should take CPU c from the task that runs there. */
  ghost predicate Takes(s: Cpus, p: Task, c: nat)
    requires c < |s.of|
  {
    !s.of[c].idle && MayGoTo(p, c) && Outranks(Multi(c, s.bonus, s.of[c].curr.activeMm), p, s.of[c].curr)
  }

  lemma BeatenMeansTakes(hz: nat, s: Cpus, p: Task, i: nat)
    requires s.Valid() && Ranked(hz, s, p) && i < |s.order|
    ensures Beaten(s, p, i) <==> Takes(s, p, s.order[i])
  {
    var c := s.order[i];
    if !s.of[c].idle {
      GainMeansOutranks(hz, Multi(c, s.bonus, s.of[c].curr.activeMm), p, s.of[c].curr);
    }
  }

  /** An offer goes only to a CPU that p may use: an idle one is told that it idles, a busy one runs a
      task that p outranks. (An idle CPU is taken for a busy one if it has never switched.) Nobody is
      offered p only if no CPU in order idles, or is to be taken. */
  lemma OfferIsSound(hz: nat, s: Cpus, p: Task, o: Offer)
    requires s.Valid() && p.processor < |s.of| && Ranked(hz, s, p) && Deserves(s, p, o)
    ensures o.ToIdle? ==> o.cpu < |s.of| && MayGoTo(p, o.cpu) && s.of[o.cpu].idle
    ensures o.ToBusy? ==>
              && o.cpu < |s.of| && MayGoTo(p, o.cpu)
              && (if s.of[o.cpu].idle then s.of[o.cpu].lastSwitch == NEVER else Takes(s, p, o.cpu))
    ensures o.Nobody? ==>
              forall i :: 0 <= i < |s.order| ==>
                && !Takes(s, p, s.order[i])
                && !(MayGoTo(p, s.order[i]) && s.of[s.order[i]].idle && s.of[s.order[i]].lastSwitch < NEVER)
  {
    forall i | 0 <= i < |s.order|
      ensures Beaten(s, p, i) <==> Takes(s, p, s.order[i])
      ensures UsableIdle(s, p, i) <==>
              MayGoTo(p, s.order[i]) && s.of[s.order[i]].idle && s.of[s.order[i]].lastSwitch < NEVER
    {
      BeatenMeansTakes(hz, s, p, i);
    }
  }

  /** A busy CPU gives up a real-time task only if all the CPUs that p could take run real-time tasks of
      at least that priority. */
  lemma LowestPriorityIsTaken(hz: nat, s: Cpus, p: Task, c: nat, i: nat)
    requires s.Valid() && p.processor < |s.of| && Ranked(hz, s, p) && Deserves(s, p, ToBusy(c))
    requires c < |s.of| && !s.of[c].idle && s.of[c].curr.policy != Other && !s.of[c].curr.yielding
    requires i < |s.order| && Takes(s, p, s.order[i])
    ensures s.of[s.order[i]].curr.policy != Other && s.of[s.order[i]].curr.rtPriority >= s.of[c].curr.rtPriority
  {
    BeatenMeansTakes(hz, s, p, i);
    var n := |s.order|;
    var k: nat :| MostBeaten(s, p, n, k) && s.order[k] == c;
    BeatenMeansTakes(hz, s, p, k);
    var d := s.order[i];
    assert Gain(s, p, c) >= Gain(s, p, d);
    if s.of[d].curr.policy == Other {
      RealTimeFirst(hz, Multi(d, s.bonus, s.of[d].curr.activeMm), s.of[c].curr, s.of[d].curr);
    }
  }

  /** reschedule_idle up to the point where the target is known. */
  method FindTarget(s: Cpus, p: Task) returns (o: Offer)
    requires s.Valid() && p.processor < |s.of|
    ensures Deserves(s, p, o)
  {
    if Eligible(s, p, p.processor) && s.of[p.processor].idle {
      return ToIdle(p.processor);
    }
    var oldestIdle, maxPrio := NEVER, 0;
    var target: int := -1;
    ghost var at := 0;
    var i := 0;
    while i < |s.order|
      invariant 0 <= i <= |s.order| && NoPackage(s, p, i)
      invariant oldestIdle <= NEVER
      invariant oldestIdle == NEVER ==> NoIdle(s, p, i)
      invariant oldestIdle < NEVER ==>
                  LongestIdle(s, p, i, at) && target == s.order[at] && oldestIdle == s.of[s.order[at]].lastSwitch
      invariant oldestIdle == NEVER && maxPrio > 0 ==>
                  MostBeaten(s, p, i, at) && target == s.order[at] && maxPrio == Gain(s, p, s.order[at])
      invariant oldestIdle == NEVER && maxPrio <= 0 ==>
                  maxPrio == 0 && target == -1 && forall j :: 0 <= j < i ==> !Beaten(s, p, j)
    {
      var cpu := s.order[i];
      if Eligible(s, p, cpu) {
        if s.of[cpu].idle {
          if s.paired && s.of[s.of[cpu].sibling].idle {
            assert FirstPackage(s, p, |s.order|, i);
            return PackageOffer(s, i);
          }
          if s.of[cpu].lastSwitch < oldestIdle {
            oldestIdle, target, at := s.of[cpu].lastSwitch, cpu, i;
          }
        } else if oldestIdle == NEVER {
          var prio := Gain(s, p, cpu);
          if prio > maxPrio {
            maxPrio, target, at := prio, cpu, i;
          }
        }
      }
      i := i + 1;
    }
    if target == -1 {
      return Nobody;
    }
    return if oldestIdle != NEVER then ToIdle(target) else ToBusy(target);
  }
}
