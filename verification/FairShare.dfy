/** The fair-share patch: each user's count of processes, which fork, exit and incshare keep up to
    date, and the quanta that the patched recalculation hands out from it. */
module FairShare {
  import opened Tasks

  /** A live process: its user and its share. */
  datatype Process = Process(user: nat, share: nat)

  type Accounts = map<nat, int>

  /** The live processes, and `processes` of each user. */
  datatype System = System(live: seq<Process>, accounts: Accounts)

  datatype Event =
    | Fork(user: nat)       // share starts at 1
    | IncShare(at: nat)
    | Exit(at: nat)

  function CountOf(accounts: Accounts, user: nat): int {
    if user in accounts then accounts[user] else 0
  }

  function Adjust(accounts: Accounts, user: nat, delta: int): Accounts {
    accounts[user := CountOf(accounts, user) + delta]
  }

  predicate Possible(s: System, e: Event) {
    match e
    case Fork(_) => true
    case IncShare(at) => at < |s.live|
    case Exit(at) => at < |s.live|
  }

  function After(s: System, e: Event): System
    requires Possible(s, e)
  {
    match e
    case Fork(user) => System(s.live + [Process(user, 1)], Adjust(s.accounts, user, 1))
    case IncShare(at) =>
      var p := s.live[at];
      System(s.live[at := p.(share := p.share + 1)], Adjust(s.accounts, p.user, 1))
    case Exit(at) =>
      var p := s.live[at];
      var once := Adjust(s.accounts, p.user, -1);
      System(s.live[..at] + s.live[at + 1..], if p.share == 2 then Adjust(once, p.user, -1) else once)
  }

  // ----- when the count is the sum of the live shares

  function ShareSum(live: seq<Process>, user: nat): nat {
    if live == [] then 0 else (if live[0].user == user then live[0].share else 0) + ShareSum(live[1..], user)
  }

  function Weight(p: Process, user: nat): nat {
    if p.user == user then p.share else 0
  }

  lemma {:induction false} ShareSumAppend(live: seq<Process>, p: Process, user: nat)
    ensures ShareSum(live + [p], user) == ShareSum(live, user) + Weight(p, user)
  {
    if live == [] {
      assert live + [p] == [p];
    } else {
      assert (live + [p])[1..] == live[1..] + [p];
      ShareSumAppend(live[1..], p, user);
    }
  }

  lemma {:induction false} ShareSumUpdate(live: seq<Process>, at: nat, p: Process, user: nat)
    requires at < |live|
    ensures ShareSum(live[at := p], user) == ShareSum(live, user) - Weight(live[at], user) + Weight(p, user)
  {
    if at == 0 {
      assert live[at := p][1..] == live[1..];
    } else {
      assert live[at := p][1..] == live[1..][at - 1 := p];
      ShareSumUpdate(live[1..], at - 1, p, user);
    }
  }

  lemma {:induction false} ShareSumRemove(live: seq<Process>, at: nat, user: nat)
    requires at < |live|
    ensures ShareSum(live[..at] + live[at + 1..], user) == ShareSum(live, user) - Weight(live[at], user)
  {
    if at == 0 {
      assert live[..at] + live[at + 1..] == live[1..];
    } else {
      assert (live[..at] + live[at + 1..])[1..] == live[1..][..at - 1] + live[1..][at..];
      ShareSumRemove(live[1..], at - 1, user);
    }
  }

  /** How far a user's count exceeds the shares of the user's live processes. */
  function Drift(s: System, user: nat): int {
    CountOf(s.accounts, user) - ShareSum(s.live, user)
  }

  /** What an event adds to the drift: exit gives back 2 for a share of 2 and 1 for any other. */
  function Leaks(s: System, e: Event, user: nat): int
    requires Possible(s, e)
  {
    if e.Exit? && s.live[e.at].user == user then
      s.live[e.at].share - (if s.live[e.at].share == 2 then 2 else 1)
    else 0
  }

  lemma EventDrift(s: System, e: Event, user: nat)
    requires Possible(s, e)
    ensures Drift(After(s, e), user) == Drift(s, user) + Leaks(s, e, user)
  {
    match e
    case Fork(u) => ShareSumAppend(s.live, Process(u, 1), user);
    case IncShare(at) => ShareSumUpdate(s.live, at, s.live[at].(share := s.live[at].share + 1), user);
    case Exit(at) => ShareSumRemove(s.live, at, user);
  }

  ghost predicate IsRun(run: seq<System>, events: seq<Event>) {
    && |run| == |events| + 1 && run[0] == System([], map[])
    && forall i :: 0 <= i < |events| ==> Possible(run[i], events[i]) && run[i + 1] == After(run[i], events[i])
  }

  lemma {:induction false} SharesArePositive(run: seq<System>, events: seq<Event>, i: nat)
    requires IsRun(run, events) && i < |run|
    ensures forall a :: 0 <= a < |run[i].live| ==> run[i].live[a].share >= 1
  {
    if i > 0 {
      SharesArePositive(run, events, i - 1);
      assert Possible(run[i - 1], events[i - 1]) && run[i - 1 + 1] == After(run[i - 1], events[i - 1]);
    }
  }

  /** Event k of the run is the exit of a process of this user that called incshare more than once. */
  ghost predicate OverboostedExit(run: seq<System>, events: seq<Event>, user: nat, k: nat)
    requires k < |events| && k < |run|
  {
    events[k].Exit? && events[k].at < |run[k].live| &&
    run[k].live[events[k].at].user == user && run[k].live[events[k].at].share > 2
  }

  lemma {:induction false} DriftGrows(run: seq<System>, events: seq<Event>, user: nat, i: nat)
    requires IsRun(run, events) && i < |run|
    ensures Drift(run[i], user) >= 0
    ensures Drift(run[i], user) == 0 <==> forall k :: 0 <= k < i ==> !OverboostedExit(run, events, user, k)
  {
    if i > 0 {
      DriftGrows(run, events, user, i - 1);
      SharesArePositive(run, events, i - 1);
      assert Possible(run[i - 1], events[i - 1]) && run[i - 1 + 1] == After(run[i - 1], events[i - 1]);
      EventDrift(run[i - 1], events[i - 1], user);
      if events[i - 1].Exit? {
        assert run[i - 1].live[events[i - 1].at].share >= 1;
      }
      assert OverboostedExit(run, events, user, i - 1) <==> Leaks(run[i - 1], events[i - 1], user) != 0;
    }
  }

  /** In any run, a user's count equals the sum of the live shares exactly when no process of that
      user has exited after calling incshare more than once. */
  lemma CountIsShareSum(run: seq<System>, events: seq<Event>, user: nat, i: nat)
    requires IsRun(run, events) && i < |run|
    ensures CountOf(run[i].accounts, user) == ShareSum(run[i].live, user) <==>
            forall k :: 0 <= k < i ==> !OverboostedExit(run, events, user, k)
  {
    DriftGrows(run, events, user, i);
  }

  /** The smallest run that breaks the count: fork, two calls of incshare, exit. */
  lemma TwoIncSharesLeak()
    ensures exists run: seq<System>, events: seq<Event> ::
              IsRun(run, events) && |run| == 5 && run[4].live == [] && CountOf(run[4].accounts, 0) == 2
  {
    var e := [Fork(0), IncShare(0), IncShare(0), Exit(0)];
    var s0 := System([], map[]);
    var s1 := After(s0, e[0]);
    var s2 := After(s1, e[1]);
    var s3 := After(s2, e[2]);
    var s4 := After(s3, e[3]);
    assert s1.live == [Process(0, 1)] && s2.live == [Process(0, 2)] && s3.live == [Process(0, 3)] && s4.live == [];
    assert IsRun([s0, s1, s2, s3, s4], e);
  }

  // ----- one recalculation

  /** The quanta that a recalculation over `count` tasks gives to the processes of a user. */
  function Quanta(live: seq<Process>, user: nat, count: nat, processes: int): int {
    if live == [] then 0
    else
      (if live[0].user == user then SharedQuantum(live[0].share, count, processes) else 0) +
      Quanta(live[1..], user, count, processes)
  }

  function Members(live: seq<Process>, user: nat): nat {
    if live == [] then 0 else (if live[0].user == user then 1 else 0) + Members(live[1..], user)
  }

  lemma Distribute(a: int, x: int, y: int)
    ensures a * (x + y) == a * x + a * y
  {
  }

  /** One share's quantum, times the number of processes, is within one process count of its due. */
  lemma QuantumBounds(share: nat, count: nat, processes: int)
    requires processes >= 1 && share >= 1
    ensures count * share - processes < processes * SharedQuantum(share, count, processes)
    ensures processes * SharedQuantum(share, count, processes) <= count * share + processes
    ensures processes <= count ==> processes * SharedQuantum(share, count, processes) <= count * share
  {
    var due := share * count;
    assert due == processes * (due / processes) + due % processes;
    assert due >= count by { Distribute(count, 1, share - 1); }
  }

  lemma {:induction false} QuantaBounds(live: seq<Process>, user: nat, count: nat, processes: int)
    requires processes >= 1
    requires forall a :: 0 <= a < |live| ==> live[a].share >= 1
    ensures processes * Quanta(live, user, count, processes) >=
              count * ShareSum(live, user) - processes * Members(live, user)
    ensures Members(live, user) >= 1 ==>
              processes * Quanta(live, user, count, processes) >
                count * ShareSum(live, user) - processes * Members(live, user)
    ensures processes * Quanta(live, user, count, processes) <=
              count * ShareSum(live, user) + processes * Members(live, user)
    ensures processes <= count ==> processes * Quanta(live, user, count, processes) <= count * ShareSum(live, user)
  {
    if live != [] {
      var share, rest := live[0].share, live[1..];
      QuantaBounds(rest, user, count, processes);
      if live[0].user == user {
        QuantumBounds(share, count, processes);
        Distribute(processes, SharedQuantum(share, count, processes), Quanta(rest, user, count, processes));
        Distribute(count, share, ShareSum(rest, user));
        Distribute(processes, 1, Members(rest, user));
      }
    }
  }

  lemma Divide(p: int, a: int, b: int)
    requires p >= 1
    ensures p * a > p * b ==> a > b
    ensures p * a <= p * b ==> a <= b
  {
    Distribute(p, b, a - b);
    Distribute(p, a, b - a);
  }

  /** When a user's count is the sum of the live shares, one recalculation hands the user's n
      processes quanta that sum to more than count - n and at most count + n; and at most count
      when the user's count does not exceed it. So every user gets about the same. */
  lemma UsersGetEqualQuanta(s: System, user: nat, count: nat)
    requires forall a :: 0 <= a < |s.live| ==> s.live[a].share >= 1
    requires CountOf(s.accounts, user) == ShareSum(s.live, user) && Members(s.live, user) >= 1
    ensures var total, n := Quanta(s.live, user, count, CountOf(s.accounts, user)), Members(s.live, user);
            && count - n < total <= count + n
            && (CountOf(s.accounts, user) <= count ==> total <= count)
  {
    MembersHaveShares(s.live, user);
    var p := CountOf(s.accounts, user);
    var n: int := Members(s.live, user);
    var total := Quanta(s.live, user, count, p);
    QuantaBounds(s.live, user, count, p);
    Distribute(p, count, n);
    Distribute(p, count, -n);
    Distribute(p, n, -n);
    assert count * ShareSum(s.live, user) == p * count;
    Divide(p, total, count - n);
    Divide(p, total, count + n);
    Divide(p, total, count);
  }

  /** So it is in every run without such an exit, for a recalculation that counts the live
      processes. */
  lemma RunGivesEqualQuanta(run: seq<System>, events: seq<Event>, user: nat, i: nat)
    requires IsRun(run, events) && i < |run| && Members(run[i].live, user) >= 1
    requires forall k :: 0 <= k < i ==> !OverboostedExit(run, events, user, k)
    ensures var count := |run[i].live|;
            var total := Quanta(run[i].live, user, count, CountOf(run[i].accounts, user));
            && count - Members(run[i].live, user) < total <= count + Members(run[i].live, user)
            && (CountOf(run[i].accounts, user) <= count ==> total <= count)
  {
    CountIsShareSum(run, events, user, i);
    SharesArePositive(run, events, i);
    UsersGetEqualQuanta(run[i], user, |run[i].live|);
  }

  lemma {:induction false} MembersHaveShares(live: seq<Process>, user: nat)
    requires forall a :: 0 <= a < |live| ==> live[a].share >= 1
    ensures ShareSum(live, user) >= Members(live, user)
  {
    if live != [] {
      MembersHaveShares(live[1..], user);
    }
  }

  // ----- the accounts as they are updated in place

  class Accounting {
    var live: seq<Process>
    var accounts: Accounts

    constructor ()
      ensures View() == System([], map[])
    {
      live, accounts := [], map[];
    }

    ghost function View(): System
      reads this
    {
      System(live, accounts)
    }

    /** The new process is counted for exactly the share it brings, so no user's count drifts. */
    method DoFork(user: nat)
      modifies this
      ensures View() == After(old(View()), Fork(user))
      ensures forall u :: Drift(View(), u) == old(Drift(View(), u))
      ensures ShareSum(live, user) == old(ShareSum(live, user)) + 1
    {
      ghost var before := View();
      accounts := Adjust(accounts, user, 1);
      live := live + [Process(user, 1)];
      forall u ensures Drift(View(), u) == Drift(before, u) {
        EventDrift(before, Fork(user), u);
      }
      ShareSumAppend(before.live, Process(user, 1), user);
    }

    method SysIncshare(at: nat)
      requires at < |live|
      modifies this
      ensures View() == After(old(View()), IncShare(at))
      ensures |live| == old(|live|) && live[at].share == old(live[at].share) + 1
      ensures forall user :: Drift(View(), user) == old(Drift(View(), user))
    {
      ghost var before := View();
      live := live[at := live[at].(share := live[at].share + 1)];
      accounts := Adjust(accounts, live[at].user, 1);
      forall user ensures Drift(View(), user) == Drift(before, user) {
        EventDrift(before, IncShare(at), user);
      }
    }

    /** Leaves the count exact only for a process whose share is 1 or 2. */
    method ReleaseTask(at: nat)
      requires at < |live|
      modifies this
      ensures View() == After(old(View()), Exit(at))
      ensures Drift(View(), old(live)[at].user) == old(Drift(View(), live[at].user)) <==>
              old(live)[at].share == 1 || old(live)[at].share == 2
      ensures ShareSum(live, old(live)[at].user) == old(ShareSum(live, live[at].user)) - old(live)[at].share
      ensures multiset(old(live)) == multiset(live) + multiset{old(live)[at]}
    {
      ghost var before := View();
      var p := live[at];
      accounts := Adjust(accounts, p.user, -1);
      if p.share == 2 {
        accounts := Adjust(accounts, p.user, -1);
      }
      live := live[..at] + live[at + 1..];
      EventDrift(before, Exit(at), p.user);
      ShareSumRemove(before.live, at, p.user);
      assert before.live == before.live[..at] + [p] + before.live[at + 1..];
    }
  }
}
