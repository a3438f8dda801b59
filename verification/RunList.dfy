/** The run queue as the kernel holds it: a circular, doubly linked list through a `run_list` in each
    task, with one entry that belongs to no task as its head. A task is on the queue when the next
    pointer of its entry is set. */
module RunList {
  import opened Tasks

  class ListHead {
    const task: Tid
    var next: ListHead?
    var prev: ListHead?

    constructor (task: Tid)
      ensures this.task == task && next == null && prev == null
    {
      this.task := task;
      this.next, this.prev := null, null;
    }
  }

  class RunQueue {
    const head: ListHead
    /** The entry of each task. */
    var entries: map<Tid, ListHead>
    var nrRunning: int
    /** The queued tasks, first to last. */
    ghost var contents: seq<Tid>
    ghost var repr: set<ListHead>

    /** The i-th entry around the circle of q: the head at both ends, the tasks between. */
    ghost function At(q: seq<Tid>, i: nat): ListHead
      requires forall p :: p in q ==> p in entries
      reads this`entries
    {
      if 0 < i <= |q| then entries[q[i - 1]] else head
    }

    ghost predicate LinkOk(i: nat)
      requires i <= |contents| && forall p :: p in contents ==> p in entries
      reads this`entries, this`contents, this`repr, repr
    {
      && At(contents, i) in repr && At(contents, i + 1) in repr
      && At(contents, i).next == At(contents, i + 1)
      && At(contents, i + 1).prev == At(contents, i)
    }

    /** Each task has an entry of its own, and the queue holds a task at most once. */
    ghost predicate Typed()
      reads this`entries, this`contents, this`repr
    {
      && NoDuplicates(contents) && head in repr
      && (forall p :: p in contents ==> p in entries)
      && (forall p :: p in entries ==> entries[p] in repr && entries[p] != head && entries[p].task == p)
    }

    ghost predicate Linked()
      reads this`entries, this`contents, this`repr, repr
    {
      Typed() && forall i :: 0 <= i <= |contents| ==> LinkOk(i)
    }

    /** A task that is not queued has no next entry. */
    ghost predicate Off(p: Tid)
      requires Typed()
      reads this`entries, this`contents, this`repr, repr
    {
      p in entries && p !in contents ==> entries[p].next == null
    }

    /** The circle holds the contents, nr_running counts them, and the others are off the list. */
    ghost predicate Valid()
      reads this, repr
    {
      Linked() && nrRunning == |contents| && forall p :: p in entries ==> Off(p)
    }

    lemma Apart(q: seq<Tid>, i: nat, j: nat)
      requires NoDuplicates(q) && i < j <= |q| && forall p :: p in q ==> p in entries
      requires forall p :: p in entries ==> entries[p] != head && entries[p].task == p
      ensures At(q, i) != At(q, j)
    {
    }

    /** A queue with entries for the given tasks, some of them queued. */
    constructor Filled(all: seq<Tid>, queue: seq<Tid>)
      requires NoDuplicates(all) && NoDuplicates(queue) && forall p :: p in queue ==> p in all
      ensures Valid() && contents == queue && fresh(repr)
      ensures forall p :: p in entries <==> p in all
    {
      var h := new ListHead(IDLE);
      head, entries, nrRunning, contents, repr := h, map[], 0, [], {h};
      new;
      h.next, h.prev := h, h;
      for i := 0 to |all|
        invariant Valid() && contents == [] && fresh(repr)
        invariant forall p :: p in entries <==> p in all[..i]
      {
        assert all[i] !in all[..i] && all[..i + 1] == all[..i] + [all[i]];
        NewTask(all[i]);
      }
      assert all[..|all|] == all;
      for i := 0 to |queue|
        invariant Valid() && contents == queue[..i] && fresh(repr)
        invariant forall p :: p in entries <==> p in all
      {
        assert queue[i] in queue && queue[i] !in queue[..i] && queue[..i + 1] == queue[..i] + [queue[i]];
        AddToRunqueue(queue[i]);
      }
      assert queue[..|queue|] == queue;
    }

    /** A task comes into being, not queued. */
    method NewTask(p: Tid)
      requires Valid() && p !in entries
      modifies this`entries, this`repr
      ensures Valid() && entries.Keys == old(entries.Keys) + {p} && contents == old(contents)
      ensures fresh(repr - old(repr))
    {
      var e := new ListHead(p);
      entries, repr := entries[p := e], repr + {e};
      forall i | 0 <= i <= |contents| ensures LinkOk(i) {
        assert old(LinkOk(i));
      }
      forall q | q in entries ensures Off(q) {
        assert q != p ==> old(Off(q));
      }
    }

    /** list_add_tail. */
    method ListAddTail(p: Tid)
      requires Linked() && p in entries && p !in contents
      modifies this`contents, repr
      ensures Linked() && contents == old(contents) + [p]
      ensures forall q :: q in entries && q != p && q !in contents ==> entries[q].next == old(entries[q].next)
      ensures entries[p].next != null
    {
      ghost var q, n := contents, |contents|;
      var e := entries[p];
      assert LinkOk(n);
      assert n > 0 ==> LinkOk(0);
      var last := head.prev;
      head.prev := e;
      e.next := head;
      e.prev := last;
      last.next := e;
      contents := contents + [p];
      forall i | 0 <= i <= |contents| ensures LinkOk(i) {
        if i < n {
          assert old(LinkOk(i));
          Apart(q, i, n);
          Apart(q, 0, i + 1);
        }
      }
    }

    /** list_del: the neighbours are joined, and the entry keeps its own pointers. */
    method ListDel(p: Tid)
      requires Linked() && p in contents
      modifies this`contents, repr
      ensures Linked() && contents == Without(old(contents), p)
      ensures forall q :: q in entries && q !in contents ==> entries[q].next == old(entries[q].next)
    {
      ghost var q := contents;
      ghost var n :| 0 <= n < |q| && q[n] == p;
      var e := entries[p];
      assert LinkOk(n) && LinkOk(n + 1);
      e.next.prev := e.prev;
      e.prev.next := e.next;
      contents := Without(q, p);
      WithoutMembers(q, p);
      Joined(n);
    }

    /** Joining the neighbours of the n-th task leaves the circle of the others. */
    twostate lemma Joined(n: nat)
      requires old(Linked()) && n < old(|contents|) && repr == old(repr) && entries == old(entries)
      requires contents == Without(old(contents), old(contents)[n])
      requires var q := old(contents);
               forall h :: h in repr ==>
                 && h.next == (if h == At(q, n) then At(q, n + 2) else old(h.next))
                 && h.prev == (if h == At(q, n + 2) then At(q, n) else old(h.prev))
      ensures Linked()
    {
      var q := old(contents);
      WithoutMembers(q, q[n]);
      forall i | 0 <= i <= |contents| ensures LinkOk(i) {
        WithoutAt(q, n, i);
        WithoutAt(q, n, if i > 0 then i - 1 else 0);
        assert old(LinkOk(n));
        assert old(LinkOk(n + 1));
        if i < n {
          assert old(LinkOk(i));
          Apart(q, i, n);
          NotSuccessor(q, n, i);
        } else if i > n {
          assert old(LinkOk(i + 1));
          Apart(q, n, i + 1);
          NotSuccessor(q, n, i + 1);
        }
      }
    }

    /** add_to_runqueue: p is queued last. */
    method AddToRunqueue(p: Tid)
      requires Valid() && p in entries && p !in contents
      modifies this`contents, this`nrRunning, repr
      ensures Valid() && contents == old(contents) + [p] && nrRunning == old(nrRunning) + 1
    {
      ListAddTail(p);
      nrRunning := nrRunning + 1;
      forall q | q in entries ensures Off(q) {
        assert old(Off(q));
      }
    }

    /** del_from_runqueue: p is queued no longer, which its next pointer then says. */
    method DelFromRunqueue(p: Tid)
      requires Valid() && p in contents
      modifies this`contents, this`nrRunning, repr
      ensures Valid() && contents == Without(old(contents), p) && nrRunning == old(nrRunning) - 1
    {
      WithoutMembers(contents, p);
      nrRunning := nrRunning - 1;
      ListDel(p);
      label Deleted:
      entries[p].next := null;
      forall i | 0 <= i <= |contents| ensures LinkOk(i) {
        assert old@Deleted(LinkOk(i));
      }
      forall q | q in entries ensures Off(q) {
        assert old(Off(q));
      }
    }

    /** move_last_runqueue: p goes to the end, and every other task keeps its place among the rest. */
    method MoveLastRunqueue(p: Tid)
      requires Valid() && p in contents
      modifies this`contents, this`nrRunning, repr
      ensures Valid() && contents == MovedLast(old(contents), p) && nrRunning == old(nrRunning)
    {
      WithoutMembers(contents, p);
      ListDel(p);
      ListAddTail(p);
      forall q | q in entries ensures Off(q) {
        assert old(Off(q));
      }
    }

    /** task_on_runqueue: the pointer tells membership. */
    method TaskOnRunqueue(p: Tid) returns (b: bool)
      requires Valid() && p in entries
      ensures b <==> p in contents
    {
      assert Off(p);
      if p in contents {
        ghost var i :| 0 <= i < |contents| && contents[i] == p;
        assert LinkOk(i + 1);
      }
      b := entries[p].next != null;
    }

    /** The entry after i is not the one after n + 1, unless i is n + 1. */
    lemma NotSuccessor(q: seq<Tid>, n: nat, i: nat)
      requires NoDuplicates(q) && n < |q| && i <= |q| && i != n + 1 && forall p :: p in q ==> p in entries
      requires forall p :: p in entries ==> entries[p] != head && entries[p].task == p
      ensures At(q, i + 1) != At(q, n + 2)
    {
    }
  }

  /** Without the i-th entry, those after it move up by one. */
  lemma {:induction false} WithoutAt(q: seq<Tid>, i: nat, k: nat)
    requires NoDuplicates(q) && i < |q|
    ensures |Without(q, q[i])| == |q| - 1
    ensures k < |q| - 1 ==> Without(q, q[i])[k] == q[if k < i then k else k + 1]
  {
    if i > 0 {
      WithoutAt(q[1..], i - 1, if k > 0 then k - 1 else 0);
    }
  }
}
