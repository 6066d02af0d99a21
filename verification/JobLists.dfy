/** The intrusive linked lists of src/server/socks5_resolver.c and src/server/socks5.c, spliced in place.

Each class keeps a ghost sequence of its nodes; the methods are proved against the sequence
operations that the pool's state machine (module PoolState) uses for the same lists. */
module JobLists {
  import opened Sequences

  class Job {
    var next: Job?      // the queue
    var nextAll: Job?   // the list of all jobs
  }

  /** resolver_queue_head and resolver_queue_tail. */
  class JobQueue {
    var head: Job?
    var tail: Job?
    ghost var jobs: seq<Job>

    ghost predicate Linked()
      reads this, jobs
    {
      && NoDup(jobs)
      && head == (if jobs == [] then null else jobs[0])
      && forall i {:trigger jobs[i].next} :: 0 <= i < |jobs| ==> jobs[i].next == if i + 1 < |jobs| then jobs[i + 1] else null
    }

    ghost predicate Valid()
      reads this, jobs
    {
      Linked() && tail == (if jobs == [] then null else jobs[|jobs| - 1])
    }

    constructor ()
      ensures Valid() && jobs == []
    {
      head, tail, jobs := null, null, [];
    }

    /** resolver_queue_push_locked. */
    method Push(job: Job)
      requires Valid() && job !in jobs
      modifies this, job`next, jobs`next
      ensures Valid() && jobs == old(jobs) + [job]
    {
      job.next := null;
      if tail == null {
        head, tail := job, job;
      } else {
        tail.next := job;
        tail := job;
      }
      jobs := jobs + [job];
    }

    /** resolver_queue_pop_locked. */
    method Pop() returns (job: Job?)
      requires Valid()
      modifies this, jobs`next
      ensures Valid()
      ensures old(jobs) == [] ==> job == null && jobs == []
      ensures old(jobs) != [] ==> job == old(jobs)[0] && jobs == old(jobs)[1..] && job.next == null
    {
      job := head;
      if job != null {
        head := job.next;
        if head == null {
          tail := null;
        }
        job.next := null;
        jobs := jobs[1..];
      }
    }

    /** resolver_queue_remove_locked: splice the node out, and look for the new tail if it was the last. */
    method Remove(job: Job)
      requires Valid()
      modifies this, job`next, jobs`next
      ensures Valid() && jobs == Without(old(jobs), job)
      ensures job in old(jobs) ==> job.next == null
    {
      var prev: Job? := null;
      var cur := head;
      ghost var k := 0;
      while cur != null && cur != job
        invariant 0 <= k <= |jobs|
        invariant cur == if k < |jobs| then jobs[k] else null
        invariant prev == if k > 0 then jobs[k - 1] else null
        invariant job !in jobs[..k]
        decreases |jobs| - k
      {
        prev, cur, k := cur, cur.next, k + 1;
      }
      if cur == null {
        WithoutAbsent(jobs, job);
        return;
      }
      ghost var rest := Without(jobs, job);
      Spliced(jobs, k, rest);
      if prev == null {
        head := job.next;
      } else {
        prev.next := job.next;
      }
      jobs := rest;
      if tail == job {
        FindTail();
      }
      job.next := null;
    }

    /** The scan of lines 90-93. */
    method FindTail()
      requires Linked()
      modifies this`tail
      ensures Valid()
    {
      tail := null;
      var q := head;
      ghost var i := 0;
      while q != null
        invariant 0 <= i <= |jobs|
        invariant q == if i < |jobs| then jobs[i] else null
        invariant tail == if i > 0 then jobs[i - 1] else null
        decreases |jobs| - i
      {
        tail, q, i := q, q.next, i + 1;
      }
    }
  }

  /** resolver_all_jobs, newest first. */
  class AllJobs {
    var head: Job?
    ghost var jobs: seq<Job>

    ghost predicate Valid()
      reads this, jobs
    {
      && NoDup(jobs)
      && head == (if jobs == [] then null else jobs[0])
      && forall i {:trigger jobs[i].nextAll} :: 0 <= i < |jobs| ==> jobs[i].nextAll == if i + 1 < |jobs| then jobs[i + 1] else null
    }

    constructor ()
      ensures Valid() && jobs == []
    {
      head, jobs := null, [];
    }

    /** resolver_all_add_locked. */
    method Add(job: Job)
      requires Valid() && job !in jobs
      modifies this, job`nextAll
      ensures Valid() && jobs == [job] + old(jobs)
    {
      job.nextAll := head;
      head := job;
      jobs := [job] + jobs;
    }

    /** resolver_all_remove_locked. */
    method Remove(job: Job)
      requires Valid()
      modifies this, job`nextAll, jobs`nextAll
      ensures Valid() && jobs == Without(old(jobs), job)
      ensures job in old(jobs) ==> job.nextAll == null
    {
      var prev: Job? := null;
      var cur := head;
      ghost var k := 0;
      while cur != null && cur != job
        invariant 0 <= k <= |jobs|
        invariant cur == if k < |jobs| then jobs[k] else null
        invariant prev == if k > 0 then jobs[k - 1] else null
        invariant job !in jobs[..k]
        decreases |jobs| - k
      {
        prev, cur, k := cur, cur.nextAll, k + 1;
      }
      if cur == null {
        WithoutAbsent(jobs, job);
        return;
      }
      ghost var rest := Without(jobs, job);
      Spliced(jobs, k, rest);
      if prev == null {
        head := job.nextAll;
      } else {
        prev.nextAll := job.nextAll;
      }
      jobs := rest;
      job.nextAll := null;
    }
  }

  class Connection {
    var prev: Connection?
    var next: Connection?
  }

  /** conn_list, the doubly linked list of live connections. */
  class ConnectionList {
    var head: Connection?
    ghost var conns: seq<Connection>

    ghost predicate Valid()
      reads this, conns
    {
      && NoDup(conns)
      && head == (if conns == [] then null else conns[0])
      && (forall i {:trigger conns[i].next} :: 0 <= i < |conns| ==> conns[i].next == if i + 1 < |conns| then conns[i + 1] else null)
      && (forall i {:trigger conns[i].prev} :: 0 <= i < |conns| ==> conns[i].prev == if i > 0 then conns[i - 1] else null)
    }

    constructor ()
      ensures Valid() && conns == []
    {
      head, conns := null, [];
    }

    /** conn_list_push. */
    method Push(c: Connection)
      requires Valid() && c !in conns
      modifies this, c, conns
      ensures Valid() && conns == [c] + old(conns)
    {
      c.prev := null;
      c.next := head;
      if head != null {
        head.prev := c;
      }
      head := c;
      conns := [c] + conns;
    }

    /** conn_list_remove: constant time, from the node's own pointers. */
    method Remove(c: Connection)
      requires Valid() && c in conns
      modifies this, conns
      ensures Valid() && conns == Without(old(conns), c)
      ensures c.prev == null && c.next == null
    {
      ghost var k := WithoutIndex(conns, c);
      ghost var rest := Without(conns, c);
      Spliced(conns, k, rest);
      hide Without;
      if c.prev != null {
        c.prev.next := c.next;
      } else {
        head := c.next;
      }
      if c.next != null {
        c.next.prev := c.prev;
      }
      c.prev, c.next := null, null;
      conns := rest;
    }
  }
}
