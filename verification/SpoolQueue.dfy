/** The list of pending print jobs: a doubly linked list with a head and a tail. */
module SpoolQueue {
  class Job {
    const jobid: int
    var next: Job?
    var prev: Job?

    constructor (id: int)
      ensures jobid == id && next == null && prev == null
    {
      jobid, next, prev := id, null, null;
    }
  }

  function Take(l: seq<Job>, i: nat): seq<Job>
    requires i < |l|
  {
    l[..i] + l[i + 1..]
  }

  class Queue {
    /** jobhead and jobtail. */
    var head: Job?
    var tail: Job?
    /** The jobs from head to tail. */
    ghost var list: seq<Job>

    ghost function Next(i: int): Job?
      reads this
      requires -1 <= i < |list|
    {
      if i + 1 < |list| then list[i + 1] else null
    }

    ghost function Prev(i: int): Job?
      reads this
      requires 0 <= i <= |list|
    {
      if i > 0 then list[i - 1] else null
    }

    ghost predicate Valid()
      reads this, list
    {
      && head == Next(-1) && tail == Prev(|list|)
      && (forall i, j :: 0 <= i < j < |list| ==> list[i] != list[j])
      && (forall i {:trigger list[i].next} :: 0 <= i < |list| ==> list[i].next == Next(i))
      && (forall i {:trigger list[i].prev} :: 0 <= i < |list| ==> list[i].prev == Prev(i))
    }

    constructor ()
      ensures Valid() && list == []
    {
      head, tail, list := null, null, [];
    }

    /** add_job puts a new job at the tail. */
    method AddJob(jp: Job)
      requires Valid() && jp !in list
      modifies this, list, jp
      ensures Valid() && list == old(list) + [jp]
    {
      jp.next := null;
      jp.prev := tail;
      if tail == null {
        head := jp;
      } else {
        tail.next := jp;
      }
      tail := jp;
      list := list + [jp];
    }

    /** replace_job puts a job back at the head. */
    method ReplaceJob(jp: Job)
      requires Valid() && jp !in list
      modifies this, list, jp
      ensures Valid() && list == [jp] + old(list)
    {
      jp.prev := null;
      jp.next := head;
      if head == null {
        tail := jp;
      } else {
        head.prev := jp;
      }
      head := jp;
      list := [jp] + list;
    }

    /** remove_job takes a job out, wherever it is. */
    method RemoveJob(target: Job, ghost i: nat)
      requires Valid() && i < |list| && list[i] == target
      modifies this, list
      ensures Valid() && list == Take(old(list), i) && target !in list
    {
      ghost var l := list;
      if target.next != null {
        target.next.prev := target.prev;
      } else {
        tail := target.prev;
      }
      if target.prev != null {
        target.prev.next := target.next;
      } else {
        head := target.next;
      }
      assert forall j {:trigger l[j].next} :: 0 <= j < |l| && j != i ==>
        l[j].next == (if j == i - 1 then old(target.next) else if j + 1 < |l| then l[j + 1] else null);
      assert forall j {:trigger l[j].prev} :: 0 <= j < |l| && j != i ==>
        l[j].prev == (if j == i + 1 then old(target.prev) else if j > 0 then l[j - 1] else null);
      list := Take(list, i);
      Relinked(l, i);
    }

    /** Without the job, every link is right again. */
    lemma Relinked(l: seq<Job>, i: nat)
      requires i < |l| && list == Take(l, i) && (forall x, y :: 0 <= x < y < |l| ==> l[x] != l[y])
      requires head == (if i > 0 then l[0] else if i + 1 < |l| then l[i + 1] else null)
      requires tail == (if i + 1 < |l| then l[|l| - 1] else if i > 0 then l[i - 1] else null)
      requires forall j {:trigger l[j].next} :: 0 <= j < |l| && j != i ==>
        l[j].next == (if j == i - 1 then (if i + 1 < |l| then l[i + 1] else null)
                      else if j + 1 < |l| then l[j + 1] else null)
      requires forall j {:trigger l[j].prev} :: 0 <= j < |l| && j != i ==>
        l[j].prev == (if j == i + 1 then (if i > 0 then l[i - 1] else null) else if j > 0 then l[j - 1] else null)
      ensures Valid() && l[i] !in list
    {
      assert forall j :: 0 <= j < |list| ==> list[j] == l[if j < i then j else j + 1];
      forall j {:trigger list[j].next} | 0 <= j < |list|
        ensures list[j].next == Next(j)
      {
        var x := if j < i then j else j + 1;
        assert list[j] == l[x] && l[x].next == list[j].next;
      }
      forall j {:trigger list[j].prev} | 0 <= j < |list|
        ensures list[j].prev == Prev(j)
      {
        var x := if j < i then j else j + 1;
        assert list[j] == l[x] && l[x].prev == list[j].prev;
      }
    }

    /** What printer_thread picks up. */
    method Pick() returns (jp: Job?)
      requires Valid()
      modifies this, list
      ensures Valid()
      ensures if old(list) == [] then jp == null && list == [] else jp == old(list)[0] && list == old(list)[1..]
    {
      jp := head;
      if head != null {
        RemoveJob(head, 0);
        assert Take(old(list), 0) == old(list)[1..];
      }
    }
  }
}
