/** The PID hash: an array of chains whose links are intrusive. Each hashed task also points back
    at the pointer that points to it, which is a bucket or the `next` field of its predecessor. */
module PidHash {
  const SIZE: nat := 1024

  type Pid = bv32

  function Mixed(pid: Pid): bv10 {
    (((pid >> 8) ^ pid) & 0x3FF) as bv10
  }

  function Slot(pid: Pid): (h: nat)
    ensures h < SIZE
  {
    Mixed(pid) as nat
  }

  /** A small pid is its own slot. */
  lemma SmallPidsStay(pid: Pid)
    requires pid < 256
    ensures Slot(pid) == pid as nat
  {
    assert ((pid >> 8) ^ pid) & 0x3FF == pid;
  }

  /** The 1024 pids that agree in all but their low ten bits have a slot each. */
  lemma BlocksFillTheTable(a: Pid, b: Pid)
    requires a >> 10 == b >> 10 && a != b
    ensures Slot(a) != Slot(b)
  {
    BlocksMixApart(a, b);
    SlotsTellApart(Mixed(a), Mixed(b));
  }

  lemma BlocksMixApart(a: Pid, b: Pid)
    requires a >> 10 == b >> 10 && a != b
    ensures Mixed(a) != Mixed(b)
  {
  }

  lemma SlotsTellApart(x: bv10, y: bv10)
    requires x != y
    ensures x as nat != y as nat
  {
  }

  /** Nothing below depends on how pids are spread over the slots, so the chains are described
      for any function that does it. */
  type HashFn = Pid -> nat

  /** What `pidhash_pprev` points at. */
  datatype Back = Bucket(slot: nat) | NextOf(task: TaskStruct)

  class TaskStruct {
    const pid: Pid
    var next: TaskStruct?
    var pprev: Back

    constructor (pid: Pid)
      ensures this.pid == pid
    {
      this.pid := pid;
      this.next := null;
      this.pprev := Bucket(0);
    }
  }

  // ----- the collection that the table stands for

  /** The tasks of one slot, in order. */
  function InSlot(q: seq<TaskStruct>, f: HashFn, h: nat): seq<TaskStruct> {
    if q == [] then []
    else if f(q[0].pid) == h then [q[0]] + InSlot(q[1..], f, h)
    else InSlot(q[1..], f, h)
  }

  function Without(q: seq<TaskStruct>, p: TaskStruct): seq<TaskStruct> {
    if q == [] then [] else if q[0] == p then q[1..] else [q[0]] + Without(q[1..], p)
  }

  /** The first task with the given pid. */
  function FirstWithPid(q: seq<TaskStruct>, pid: Pid): TaskStruct? {
    if q == [] then null else if q[0].pid == pid then q[0] else FirstWithPid(q[1..], pid)
  }

  ghost predicate Distinct(q: seq<TaskStruct>) {
    q == [] || (q[0] !in q[1..] && Distinct(q[1..]))
  }

  lemma {:induction false} DistinctPair(q: seq<TaskStruct>, i: nat, j: nat)
    requires Distinct(q) && i < j < |q|
    ensures q[i] != q[j]
  {
    if i == 0 {
      assert q[j] == q[1..][j - 1];
    } else {
      DistinctPair(q[1..], i - 1, j - 1);
    }
  }

  lemma {:induction false} SlotMembers(q: seq<TaskStruct>, f: HashFn, h: nat, t: TaskStruct)
    ensures t in InSlot(q, f, h) <==> t in q && f(t.pid) == h
  {
    if q != [] {
      SlotMembers(q[1..], f, h, t);
      assert t in q <==> t == q[0] || t in q[1..];
    }
  }

  lemma {:induction false} SlotDistinct(q: seq<TaskStruct>, f: HashFn, h: nat)
    requires Distinct(q)
    ensures Distinct(InSlot(q, f, h))
  {
    if q != [] {
      SlotDistinct(q[1..], f, h);
      assert q[0] !in q[1..];
      SlotMembers(q[1..], f, h, q[0]);
    }
  }

  lemma SlotCons(t: TaskStruct, q: seq<TaskStruct>, f: HashFn, h: nat)
    ensures InSlot([t] + q, f, h) == if f(t.pid) == h then [t] + InSlot(q, f, h) else InSlot(q, f, h)
  {
    assert ([t] + q)[1..] == q;
  }

  lemma WithoutCons(t: TaskStruct, q: seq<TaskStruct>, p: TaskStruct)
    ensures Without([t] + q, p) == if t == p then q else [t] + Without(q, p)
  {
    assert ([t] + q)[1..] == q;
  }

  /** Taking a task out of the collection takes it out of its own slot and leaves the others. */
  lemma {:induction false} SlotWithout(q: seq<TaskStruct>, p: TaskStruct, f: HashFn, h: nat)
    ensures InSlot(Without(q, p), f, h) == if f(p.pid) == h then Without(InSlot(q, f, h), p) else InSlot(q, f, h)
  {
    if q != [] {
      var t, rest := q[0], q[1..];
      SlotWithout(rest, p, f, h);
      SlotCons(t, Without(rest, p), f, h);
      if f(t.pid) == h {
        WithoutCons(t, InSlot(rest, f, h), p);
      }
    }
  }

  /** Searching one slot is as good as searching everything. */
  lemma {:induction false} SlotDecidesPid(q: seq<TaskStruct>, f: HashFn, pid: Pid)
    ensures FirstWithPid(InSlot(q, f, f(pid)), pid) == FirstWithPid(q, pid)
  {
    if q != [] {
      var s := InSlot(q[1..], f, f(pid));
      SlotDecidesPid(q[1..], f, pid);
      if f(q[0].pid) == f(pid) {
        assert ([q[0]] + s)[1..] == s;
      }
    }
  }

  /** Without the i-th task, those after it move up by one. */
  lemma {:induction false} WithoutAt(q: seq<TaskStruct>, i: nat, k: nat)
    requires Distinct(q) && i < |q|
    ensures |Without(q, q[i])| == |q| - 1
    ensures k < |q| - 1 ==> Without(q, q[i])[k] == q[if k < i then k else k + 1]
  {
    if i > 0 {
      DistinctPair(q, 0, i);
      WithoutAt(q[1..], i - 1, if k > 0 then k - 1 else 0);
    }
  }

  lemma WithoutIsSplit(q: seq<TaskStruct>, i: nat)
    requires Distinct(q) && i < |q|
    ensures Without(q, q[i]) == q[..i] + q[i + 1..]
  {
    var w, cut := Without(q, q[i]), q[..i] + q[i + 1..];
    WithoutAt(q, i, 0);
    forall k | 0 <= k < |cut| ensures w[k] == cut[k] {
      WithoutAt(q, i, k);
    }
  }

  lemma {:induction false} WithoutMember(q: seq<TaskStruct>, p: TaskStruct, t: TaskStruct)
    requires Distinct(q)
    ensures t in Without(q, p) <==> t in q && t != p
  {
    if q != [] {
      WithoutMember(q[1..], p, t);
      assert t in q <==> t == q[0] || t in q[1..];
    }
  }

  lemma {:induction false} WithoutDistinct(q: seq<TaskStruct>, p: TaskStruct)
    requires Distinct(q)
    ensures Distinct(Without(q, p))
  {
    if q != [] {
      WithoutDistinct(q[1..], p);
      WithoutMember(q[1..], p, q[0]);
    }
  }

  // ----- what a history of insertions and removals leaves to be found

  datatype Op = Hash(task: TaskStruct) | Unhash(task: TaskStruct)

  /** The collection after a history, the most recently hashed task first. */
  function After(ops: seq<Op>): seq<TaskStruct> {
    if ops == [] then []
    else
      var q := After(ops[..|ops| - 1]);
      match ops[|ops| - 1]
      case Hash(p) => [p] + q
      case Unhash(p) => Without(q, p)
  }

  /** When t was last hashed, or -1 when it has been unhashed since or was never hashed. */
  function HashedSince(ops: seq<Op>, t: TaskStruct): (n: int)
    ensures -1 <= n < |ops|
  {
    if ops == [] then -1
    else if ops[|ops| - 1] == Hash(t) then |ops| - 1
    else if ops[|ops| - 1] == Unhash(t) then -1
    else HashedSince(ops[..|ops| - 1], t)
  }

  /** Callers hash only tasks that are not in the table and unhash only tasks that are. */
  ghost predicate Legal(ops: seq<Op>) {
    ops == [] ||
    var before := ops[..|ops| - 1];
    && Legal(before)
    && match ops[|ops| - 1]
       case Hash(p) => HashedSince(before, p) == -1
       case Unhash(p) => HashedSince(before, p) >= 0
  }

  ghost predicate NewestFirst(ops: seq<Op>, q: seq<TaskStruct>) {
    q == [] ||
    (NewestFirst(ops, q[1..]) && forall t :: t in q[1..] ==> HashedSince(ops, t) < HashedSince(ops, q[0]))
  }

  lemma {:induction false} NewestFirstIsDistinct(ops: seq<Op>, q: seq<TaskStruct>)
    requires NewestFirst(ops, q)
    ensures Distinct(q)
  {
    if q != [] {
      NewestFirstIsDistinct(ops, q[1..]);
    }
  }

  lemma {:induction false} NewestFirstLater(ops: seq<Op>, op: Op, q: seq<TaskStruct>)
    requires NewestFirst(ops, q) && op.task !in q
    ensures NewestFirst(ops + [op], q)
  {
    assert (ops + [op])[..|ops|] == ops;
    if q != [] {
      NewestFirstLater(ops, op, q[1..]);
    }
  }

  lemma {:induction false} NewestFirstWithout(ops: seq<Op>, q: seq<TaskStruct>, p: TaskStruct)
    requires NewestFirst(ops, q)
    ensures NewestFirst(ops, Without(q, p))
  {
    if q != [] && q[0] != p {
      NewestFirstWithout(ops, q[1..], p);
      NewestFirstIsDistinct(ops, q[1..]);
      forall t | t in Without(q[1..], p) ensures t in q[1..] {
        WithoutMember(q[1..], p, t);
      }
    }
  }

  lemma {:induction false} AfterHoldsTheHashed(ops: seq<Op>, t: TaskStruct)
    requires Legal(ops)
    ensures NewestFirst(ops, After(ops))
    ensures t in After(ops) <==> HashedSince(ops, t) >= 0
  {
    if ops != [] {
      var before, last := ops[..|ops| - 1], ops[|ops| - 1];
      var q := After(before);
      assert ops == before + [last];
      AfterHoldsTheHashed(before, t);
      AfterHoldsTheHashed(before, last.task);
      match last
      case Hash(p) =>
        NewestFirstLater(before, last, q);
        assert ([p] + q)[1..] == q;
      case Unhash(p) =>
        NewestFirstIsDistinct(before, q);
        WithoutMember(q, p, t);
        WithoutMember(q, p, p);
        NewestFirstWithout(before, q, p);
        NewestFirstLater(before, last, Without(q, p));
    }
  }

  lemma {:induction false} FirstIsNewest(ops: seq<Op>, q: seq<TaskStruct>, t: TaskStruct)
    requires NewestFirst(ops, q) && t in q
    ensures var r := FirstWithPid(q, t.pid);
            && r != null && r in q && r.pid == t.pid
            && (t == r || HashedSince(ops, t) < HashedSince(ops, r))
  {
    if q[0].pid != t.pid {
      FirstIsNewest(ops, q[1..], t);
    }
  }

  lemma {:induction false} FirstIsThere(q: seq<TaskStruct>, pid: Pid)
    ensures var r := FirstWithPid(q, pid); r != null ==> r in q && r.pid == pid
  {
    if q != [] {
      FirstIsThere(q[1..], pid);
    }
  }

  /** Whatever the history, a search for a pid fails exactly when no task with that pid is hashed,
      and otherwise finds the one that was hashed last. */
  lemma FindsTheMostRecent(ops: seq<Op>, pid: Pid)
    requires Legal(ops)
    ensures var r := FirstWithPid(After(ops), pid);
            && (r == null <==> forall t: TaskStruct :: t.pid == pid ==> HashedSince(ops, t) == -1)
            && (r != null ==>
                  && r.pid == pid && HashedSince(ops, r) >= 0
                  && forall t: TaskStruct :: t.pid == pid && t != r ==> HashedSince(ops, t) < HashedSince(ops, r))
  {
    var q := After(ops);
    var r := FirstWithPid(q, pid);
    FirstIsThere(q, pid);
    if r != null {
      AfterHoldsTheHashed(ops, r);
    }
    forall t: TaskStruct | t.pid == pid
      ensures HashedSince(ops, t) == -1 || (r != null && (t == r || HashedSince(ops, t) < HashedSince(ops, r)))
    {
      AfterHoldsTheHashed(ops, t);
      if t in q {
        FirstIsNewest(ops, q, t);
      }
    }
  }

  lemma {:induction false} LegalPrefix(ops: seq<Op>, n: nat)
    requires Legal(ops) && n <= |ops|
    ensures Legal(ops[..n])
    decreases |ops|
  {
    if n < |ops| {
      LegalPrefix(ops[..|ops| - 1], n);
      assert ops[..|ops| - 1][..n] == ops[..n];
    } else {
      assert ops[..n] == ops;
    }
  }

  // ----- the table

  /** The chains of a table are its tasks sorted by slot. */
  ghost predicate Agree(chains: seq<seq<TaskStruct>>, q: seq<TaskStruct>, f: HashFn) {
    && |chains| == SIZE && Distinct(q)
    && forall h :: 0 <= h < SIZE ==> chains[h] == InSlot(q, f, h)
  }

  lemma AgreeMembers(chains: seq<seq<TaskStruct>>, q: seq<TaskStruct>, f: HashFn, p: TaskStruct)
    requires Agree(chains, q, f) && f(p.pid) < SIZE
    ensures p in q <==> p in chains[f(p.pid)]
  {
    SlotMembers(q, f, f(p.pid), p);
  }

  lemma AgreePairs(chains: seq<seq<TaskStruct>>, q: seq<TaskStruct>, f: HashFn, h: nat, i: int, j: int)
    requires Agree(chains, q, f) && h < SIZE
    ensures 0 <= i < |chains[h]| && 0 <= j < |chains[h]| && i != j ==> chains[h][i] != chains[h][j]
  {
    SlotDistinct(q, f, h);
    if 0 <= i < j < |chains[h]| {
      DistinctPair(chains[h], i, j);
    } else if 0 <= j < i < |chains[h]| {
      DistinctPair(chains[h], j, i);
    }
  }

  /** Hashing a task puts it in front of one chain. */
  lemma AgreePush(chains: seq<seq<TaskStruct>>, q: seq<TaskStruct>, f: HashFn, p: TaskStruct)
    requires Agree(chains, q, f) && f(p.pid) < SIZE && p !in q
    ensures Agree(chains[f(p.pid) := [p] + chains[f(p.pid)]], [p] + q, f)
  {
    forall h | 0 <= h < SIZE
      ensures InSlot([p] + q, f, h) == if f(p.pid) == h then [p] + InSlot(q, f, h) else InSlot(q, f, h)
    {
      SlotCons(p, q, f, h);
    }
    assert ([p] + q)[1..] == q;
  }

  /** Unhashing a task cuts it out of one chain. */
  lemma AgreeCut(chains: seq<seq<TaskStruct>>, q: seq<TaskStruct>, f: HashFn, h: nat, i: nat)
    requires Agree(chains, q, f) && h < SIZE && i < |chains[h]| && f(chains[h][i].pid) == h
    ensures Agree(chains[h := chains[h][..i] + chains[h][i + 1..]], Without(q, chains[h][i]), f)
  {
    var p := chains[h][i];
    SlotDistinct(q, f, h);
    WithoutIsSplit(chains[h], i);
    WithoutDistinct(q, p);
    forall g | 0 <= g < SIZE
      ensures InSlot(Without(q, p), f, g) == if g == h then Without(InSlot(q, f, g), p) else InSlot(q, f, g)
    {
      SlotWithout(q, p, f, g);
    }
  }

  /** Where a task hangs: its slot and how many precede it there. */
  datatype Place = Place(slot: nat, index: nat)

  class PidTable {
    const hash: HashFn
    const buckets: array<TaskStruct?>
    /** The hashed tasks, the most recent first. */
    ghost var hashed: seq<TaskStruct>
    /** What hangs off each bucket. */
    ghost var chains: seq<seq<TaskStruct>>
    ghost var repr: set<TaskStruct>

    /** The i-th task of the chain q of slot h is linked both ways. */
    static ghost predicate LinkOk(q: seq<TaskStruct>, h: nat, i: nat)
      requires i < |q|
      reads q[i]
    {
      && q[i].next == (if i + 1 < |q| then q[i + 1] else null)
      && q[i].pprev == (if i == 0 then Bucket(h) else NextOf(q[i - 1]))
    }

    ghost predicate TaskOk(h: nat, i: nat)
      requires h < |chains| && i < |chains[h]|
      reads this, repr
    {
      && chains[h][i] in repr
      && hash(chains[h][i].pid) == h
      && LinkOk(chains[h], h, i)
    }

    ghost predicate ChainOk(h: nat)
      requires h < |chains| && h < buckets.Length
      reads this, buckets, repr
    {
      && buckets[h] == (if chains[h] == [] then null else chains[h][0])
      && forall i :: 0 <= i < |chains[h]| ==> TaskOk(h, i)
    }

    ghost predicate Linked()
      reads this, buckets, repr
    {
      && buckets.Length == SIZE && |chains| == SIZE
      && (forall h :: 0 <= h < SIZE ==> ChainOk(h))
    }

    ghost predicate Valid()
      reads this, buckets, repr
    {
      Agree(chains, hashed, hash) && (forall pid :: hash(pid) < SIZE) && Linked()
    }

    constructor ()
      ensures Valid() && hashed == [] && fresh(buckets) && hash == Slot && repr == {}
    {
      hash := Slot;
      buckets := new TaskStruct?[SIZE](_ => null);
      hashed := [];
      chains := seq(SIZE, _ => []);
      repr := {};
    }

    /** The chains of the other slots stay linked when only tasks of slot h are touched. */
    twostate lemma OtherChains(h: nat)
      requires old(Linked()) && |chains| == SIZE && old(repr) <= repr
      requires forall g :: 0 <= g < SIZE && g != h ==> chains[g] == old(chains[g]) && buckets[g] == old(buckets[g])
      requires forall t :: t in old(repr) && hash(t.pid) != h ==> t.next == old(t.next) && t.pprev == old(t.pprev)
      ensures forall g :: 0 <= g < SIZE && g != h ==> ChainOk(g)
    {
      forall g | 0 <= g < SIZE && g != h ensures ChainOk(g) {
        assert old(ChainOk(g));
        forall i | 0 <= i < |chains[g]| ensures TaskOk(g, i) {
          assert old(TaskOk(g, i));
        }
      }
    }

    /** What hash_pid does to the links puts p in front of the chain of its slot. */
    twostate lemma Pushed(p: TaskStruct)
      requires old(Linked()) && Agree(old(chains), old(hashed), hash) && hash(p.pid) < SIZE && p !in old(hashed)
      requires var h := hash(p.pid);
               && chains == old(chains)[h := [p] + old(chains[h])] && repr == old(repr) + {p}
               && (forall g :: 0 <= g < SIZE && g != h ==> buckets[g] == old(buckets[g]))
               && buckets[h] == p && p.next == old(buckets[h]) && p.pprev == Bucket(h)
      requires var head := old(buckets[hash(p.pid)]);
               && (head != null ==> head.next == old(head.next) && head.pprev == NextOf(p))
               && forall t :: t in old(repr) && t != p && t != head ==> unchanged(t)
      ensures Linked()
    {
      var h := hash(p.pid);
      var q := old(chains[h]);
      assert old(ChainOk(h));
      AgreeMembers(old(chains), old(hashed), hash, p);
      forall i | 0 <= i < |chains[h]| ensures TaskOk(h, i) {
        if i > 0 {
          assert old(TaskOk(h, i - 1));
          assert q[i - 1] != p;
          AgreePairs(old(chains), old(hashed), hash, h, 0, i - 1);
        }
      }
      assert q != [] ==> old(TaskOk(h, 0));
      OtherChains(h);
    }

    /** hash_pid: p becomes the most recent task, and nothing else changes. */
    method HashPid(p: TaskStruct)
      requires Valid() && p !in hashed
      modifies this`hashed, this`chains, this`repr, buckets, p, repr
      ensures Valid() && hashed == [p] + old(hashed) && repr == old(repr) + {p}
    {
      var h := hash(p.pid);
      AgreeMembers(chains, hashed, hash, p);
      AgreePush(chains, hashed, hash, p);
      assert ChainOk(h);
      assert chains[h] != [] ==> TaskOk(h, 0);
      p.next := buckets[h];
      if p.next != null {
        p.next.pprev := NextOf(p);
      }
      buckets[h] := p;
      p.pprev := Bucket(h);
      repr, hashed, chains := repr + {p}, [p] + hashed, chains[h := [p] + chains[h]];
      Pushed(p);
    }

    /** What unhash_pid does to the links joins the two neighbours of a task. */
    twostate lemma Unlinked(at: Place)
      requires old(Linked()) && Agree(old(chains), old(hashed), hash) && repr == old(repr)
      requires at.slot < SIZE && at.index < |old(chains)[at.slot]|
      requires var (h, n, q) := (at.slot, at.index, old(chains)[at.slot]);
               && chains == old(chains)[h := q[..n] + q[n + 1..]]
               && (forall g :: 0 <= g < SIZE && g != h ==> buckets[g] == old(buckets[g]))
               && (buckets[h] == if n == 0 then old(q[n].next) else old(buckets[h]))
               && forall t :: t in repr ==>
                    && (t.pprev == if n + 1 < |q| && t == q[n + 1] then old(q[n].pprev) else old(t.pprev))
                    && (t.next == if n > 0 && t == q[n - 1] then old(q[n].next) else old(t.next))
      ensures Linked()
    {
      var (h, n, q) := (at.slot, at.index, old(chains)[at.slot]);
      assert old(ChainOk(h)) && old(TaskOk(h, n));
      forall i | 0 <= i < |chains[h]| ensures TaskOk(h, i) {
        var k := if i < n then i else i + 1;
        assert old(TaskOk(h, k));
        AgreePairs(old(chains), old(hashed), hash, h, k, n + 1);
        AgreePairs(old(chains), old(hashed), hash, h, k, n - 1);
      }
      assert n > 0 ==> old(TaskOk(h, n - 1));
      assert n + 1 < |q| ==> old(TaskOk(h, n + 1));
      OtherChains(h);
    }

    lemma Locate(p: TaskStruct) returns (at: Place)
      requires Valid() && p in hashed
      ensures at.slot < SIZE && at.index < |chains[at.slot]|
      ensures var (h, n, q) := (at.slot, at.index, chains[at.slot]);
              && q[n] == p && p in repr && LinkOk(q, h, n)
              && (n > 0 ==> q[n - 1] in repr && q[n - 1] != p)
              && (n + 1 < |q| ==> q[n + 1] in repr && q[n + 1] != p)
              && Agree(chains[h := q[..n] + q[n + 1..]], Without(hashed, p), hash)
    {
      var h := hash(p.pid);
      var q := chains[h];
      AgreeMembers(chains, hashed, hash, p);
      var n :| 0 <= n < |q| && q[n] == p;
      AgreeCut(chains, hashed, hash, h, n);
      AgreePairs(chains, hashed, hash, h, n, n + 1);
      AgreePairs(chains, hashed, hash, h, n, n - 1);
      assert ChainOk(h) && TaskOk(h, n);
      assert n > 0 ==> TaskOk(h, n - 1);
      assert n + 1 < |q| ==> TaskOk(h, n + 1);
      at := Place(h, n);
    }

    /** unhash_pid: exactly p goes, whichever pointer pointed at it. */
    method UnhashPid(p: TaskStruct)
      requires Valid() && p in hashed
      modifies this`hashed, this`chains, buckets, repr
      ensures Valid() && hashed == Without(old(hashed), p)
    {
      ghost var at := Locate(p);
      ghost var q := chains[at.slot];
      assert ChainOk(at.slot);
      if p.next != null {
        p.next.pprev := p.pprev;
      }
      match p.pprev {
        case Bucket(slot) => buckets[slot] := p.next;
        case NextOf(t) => t.next := p.next;
      }
      hashed, chains := Without(hashed, p), chains[at.slot := q[..at.index] + q[at.index + 1..]];
      Unlinked(at);
    }

    /** This walks the chain of one slot and finds the most recently hashed task with the pid, if there is one. */
    method FindTaskByPid(pid: Pid) returns (p: TaskStruct?)
      requires Valid()
      ensures p == FirstWithPid(hashed, pid)
    {
      var h := hash(pid);
      ghost var q, i := chains[h], 0;
      assert ChainOk(h);
      p := buckets[h];
      while p != null && p.pid != pid
        invariant 0 <= i <= |q| && p == (if i == |q| then null else q[i])
        invariant FirstWithPid(q, pid) == FirstWithPid(q[i..], pid)
        decreases |q| - i
      {
        assert TaskOk(h, i) && q[i..][1..] == q[i + 1..];
        p, i := p.next, i + 1;
      }
      SlotDecidesPid(hashed, hash, pid);
    }

    /** Any history of calls that respects the callers' duty leaves what After says, so that
        FindsTheMostRecent speaks of what FindTaskByPid then finds. */
    method Perform(ops: seq<Op>)
      requires Valid() && hashed == [] && Legal(ops)
      modifies this`hashed, this`chains, this`repr, buckets, repr, set op | op in ops :: op.task
      ensures Valid() && hashed == After(ops)
    {
      ghost var tasks := set op | op in ops :: op.task;
      for i := 0 to |ops|
        invariant Valid() && hashed == After(ops[..i])
        invariant repr <= old(repr) + tasks
      {
        LegalPrefix(ops, i + 1);
        assert ops[..i + 1][..i] == ops[..i];
        AfterHoldsTheHashed(ops[..i], ops[i].task);
        assert ops[i].task in tasks;
        match ops[i] {
          case Hash(p) => HashPid(p);
          case Unhash(p) => UnhashPid(p);
        }
      }
      assert ops[..|ops|] == ops;
    }
  }
}
