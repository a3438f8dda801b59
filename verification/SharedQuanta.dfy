/** The fair-share quanta as the scheduler leaves them: what the tasks of one user have in their
    counters, together, after a call of schedule that recalculates with the patched formula. */
module SharedQuanta {
  import FS = FairShare
  import opened Tasks
  import opened Uniprocessor
  import opened UniprocessorEffects

  /** The ticks that the listed tasks of a user have together. */
  function TicksOf(tasks: TaskTable, list: seq<Tid>, user: nat): int
    requires forall p :: p in list ==> p in tasks
  {
    if list == [] then 0
    else (if tasks[list[0]].user == user then tasks[list[0]].counter else 0) + TicksOf(tasks, list[1..], user)
  }

  /** The listed tasks as the accounts see them. */
  function LiveOf(tasks: TaskTable, list: seq<Tid>): seq<FS.Process>
    requires forall p :: p in list ==> p in tasks
  {
    if list == [] then []
    else [FS.Process(tasks[list[0]].user, tasks[list[0]].share)] + LiveOf(tasks, list[1..])
  }

  /** The share that the listed tasks of a user have together, and their number. */
  function SharesOf(tasks: TaskTable, list: seq<Tid>, user: nat): nat
    requires forall p :: p in list ==> p in tasks
  {
    if list == [] then 0
    else (if tasks[list[0]].user == user then tasks[list[0]].share else 0) + SharesOf(tasks, list[1..], user)
  }

  function NumberOf(tasks: TaskTable, list: seq<Tid>, user: nat): nat
    requires forall p :: p in list ==> p in tasks
  {
    if list == [] then 0
    else (if tasks[list[0]].user == user then 1 else 0) + NumberOf(tasks, list[1..], user)
  }

  lemma {:induction false} LiveAgrees(tasks: TaskTable, list: seq<Tid>, user: nat)
    requires forall p :: p in list ==> p in tasks
    ensures FS.ShareSum(LiveOf(tasks, list), user) == SharesOf(tasks, list, user)
    ensures FS.Members(LiveOf(tasks, list), user) == NumberOf(tasks, list, user)
  {
    if list != [] {
      LiveAgrees(tasks, list[1..], user);
      assert LiveOf(tasks, list)[1..] == LiveOf(tasks, list[1..]);
    }
  }

  lemma {:induction false} LiveShares(tasks: TaskTable, list: seq<Tid>)
    requires forall p :: p in list ==> p in tasks && tasks[p].share >= 1
    ensures forall a :: 0 <= a < |LiveOf(tasks, list)| ==> LiveOf(tasks, list)[a].share >= 1
  {
    if list != [] {
      LiveShares(tasks, list[1..]);
    }
  }

  /** Counters that the patched formula gave add up to the quanta of the accounts. */
  lemma {:induction false} TicksAreQuanta(before: TaskTable, after: TaskTable, list: seq<Tid>, user: nat, count: nat, processes: int)
    requires forall p :: p in list ==> p in before && p in after
    requires forall p :: p in list ==> after[p].user == before[p].user
    requires forall p :: p in list && before[p].user == user ==>
               after[p].counter == SharedQuantum(before[p].share, count, processes)
    ensures TicksOf(after, list, user) == FS.Quanta(LiveOf(before, list), user, count, processes)
  {
    if list != [] {
      TicksAreQuanta(before, after, list[1..], user, count, processes);
      assert list[0] in list;
      assert LiveOf(before, list)[1..] == LiveOf(before, list[1..]);
    }
  }

  /** What schedule leaves in the counter of p when it recalculates. */
  lemma ScheduleCharges(c: Config, k: Kernel, signal: bool, p: Tid)
    requires WellFormed(c, k) && c.formula == FairShare && p in k.all
    requires var d := Prepare(c, k, signal); AllSpent(ThisCpu(d), d.tasks, d.queue)
    ensures var k' := Scheduled(c, k, signal);
            && p in k'.tasks && k'.tasks[p].user == k.tasks[p].user && k.tasks[p].user in k.processes
            && k'.tasks[p].counter == SharedQuantum(k.tasks[p].share, |k.all|, k.processes[k.tasks[p].user])
  {
    var d := Prepare(c, k, signal);
    PrepareDecides(c, k, signal);
    PrepareKeepsStatics(c, k, signal, p);
    RecalculatedWhenSpent(c, d);
    SettledKeeps(c, d);
    var e := AtPick(c, k, signal);
    SwitchKeepsStatics(e, Pick(e).next, p);
  }

  /** If a user's count is the sum of the shares of its tasks, a call of schedule that recalculates leaves
      its n tasks counters that sum to more than count - n and at most count + n, where count is the
      number of all tasks; and at most count when the user's count does not exceed it. */
  lemma ScheduleGivesEqualQuanta(c: Config, k: Kernel, signal: bool, user: nat)
    requires WellFormed(c, k) && c.formula == FairShare && user in k.processes
    requires var d := Prepare(c, k, signal); AllSpent(ThisCpu(d), d.tasks, d.queue)
    requires k.processes[user] == SharesOf(k.tasks, k.all, user) && NumberOf(k.tasks, k.all, user) >= 1
    ensures forall p :: p in k.all ==> p in Scheduled(c, k, signal).tasks
    ensures var total, n, count := TicksOf(Scheduled(c, k, signal).tasks, k.all, user), NumberOf(k.tasks, k.all, user), |k.all|;
            && count - n < total <= count + n
            && (k.processes[user] <= count ==> total <= count)
  {
    var k', live := Scheduled(c, k, signal), LiveOf(k.tasks, k.all);
    forall p | p in k.all
      ensures p in k'.tasks && k'.tasks[p].user == k.tasks[p].user
      ensures k.tasks[p].user == user ==>
                k'.tasks[p].counter == SharedQuantum(k.tasks[p].share, |k.all|, k.processes[user])
    {
      ScheduleCharges(c, k, signal, p);
    }
    TicksAreQuanta(k.tasks, k'.tasks, k.all, user, |k.all|, k.processes[user]);
    LiveAgrees(k.tasks, k.all, user);
    LiveShares(k.tasks, k.all);
    FS.UsersGetEqualQuanta(FS.System(live, map[user := k.processes[user]]), user, |k.all|);
  }
}
