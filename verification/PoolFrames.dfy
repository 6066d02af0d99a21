/** How each conjunct of the pool's invariant fares under each kind of update. */
module PoolFrames {
  import opened Sequences
  import opened PoolState
  import opened PoolInvariant

  // ------------------------------------------------------------------------------ the job lists

  lemma ListsPop(jobs: Jobs, queue: seq<JobId>, all: seq<JobId>, rest: seq<JobId>, inSystem: int)
    requires Lists(jobs, queue, all, rest, inSystem) && queue != []
    ensures Queued(jobs, all, queue[0])
    ensures Lists(jobs[queue[0] := jobs[queue[0]].(running := true)], queue[1..], all, rest, inSystem)
  {
    var j := queue[0];
    assert Queued(jobs, all, j);
    var jobs' := jobs[j := jobs[j].(running := true)];
    forall i
      ensures i in queue[1..] <==> Queued(jobs', all, i)
    {
      assert i in queue <==> i == j || i in queue[1..];
    }
  }

  /** Changing a job that is not queued, before or after. */
  lemma ListsUpdate(jobs: Jobs, queue: seq<JobId>, all: seq<JobId>, rest: seq<JobId>, inSystem: int, j: JobId, job: Job)
    requires Lists(jobs, queue, all, rest, inSystem) && j in jobs
    requires !Queued(jobs, all, j) && (job.running || job.completed)
    ensures Lists(jobs[j := job], queue, all, rest, inSystem)
  {
    forall i
      ensures Queued(jobs[j := job], all, i) <==> Queued(jobs, all, i)
    {}
  }

  lemma ListsDrop(jobs: Jobs, queue: seq<JobId>, all: seq<JobId>, rest: seq<JobId>, inSystem: int, j: JobId)
    requires Lists(jobs, queue, all, rest, inSystem) && j in all
    ensures Lists(jobs - {j}, Without(queue, j), Without(all, j), rest, inSystem - 1)
    ensures j in jobs && |jobs - {j}| == |jobs| - 1
  {
    WithoutMembers(all, j);
    WithoutMembers(queue, j);
    assert (jobs - {j}).Keys == jobs.Keys - {j};
    forall i
      ensures Queued(jobs, all, i) && i != j <==> Queued(jobs - {j}, Without(all, j), i)
    {}
  }

  lemma ListsAdd(jobs: Jobs, queue: seq<JobId>, all: seq<JobId>, rest: seq<JobId>, inSystem: int, j: JobId, job: Job)
    requires Lists(jobs, queue, all, rest, inSystem) && j !in jobs
    requires !job.running && !job.completed && inSystem < RESOLVER_MAX_JOBS
    ensures Lists(jobs[j := job], queue + [j], [j] + all, rest, inSystem + 1)
    ensures |jobs[j := job]| == |jobs| + 1
  {
    assert j !in all && j !in queue;
    assert jobs[j := job].Keys == jobs.Keys + {j};
    forall i
      ensures Queued(jobs[j := job], [j] + all, i) <==> i == j || Queued(jobs, all, i)
    {}
  }

  /** pool_stop moves the whole list aside once no job is queued. */
  lemma ListsDetach(jobs: Jobs, all: seq<JobId>, inSystem: int)
    requires Lists(jobs, [], all, [], inSystem)
    ensures Lists(jobs, [], [], all, 0)
  {
    assert forall j :: !Queued(jobs, [], j);
  }

  lemma ListsRelease(jobs: Jobs, rest: seq<JobId>)
    requires Lists(jobs, [], [], rest, 0) && rest != []
    ensures Lists(jobs - {rest[0]}, [], [], rest[1..], 0)
    ensures rest[0] in jobs && |jobs - {rest[0]}| == |jobs| - 1
  {
    assert (jobs - {rest[0]}).Keys == jobs.Keys - {rest[0]};
    assert forall j :: !Queued(jobs - {rest[0]}, [], j);
    assert forall j :: j in rest <==> j == rest[0] || j in rest[1..];
  }

  lemma TicketsPop(jobs: Jobs, queue: seq<JobId>, all: seq<JobId>, tickets: nat, j: JobId, job: Job)
    requires Tickets(jobs, queue, all, tickets) && queue != [] && j in jobs && job.ticket == jobs[j].ticket
    ensures Tickets(jobs[j := job], queue[1..], all, tickets)
  {}

  lemma TicketsUpdate(jobs: Jobs, queue: seq<JobId>, all: seq<JobId>, tickets: nat, j: JobId, job: Job)
    requires Tickets(jobs, queue, all, tickets) && j in jobs && job.ticket == jobs[j].ticket
    ensures Tickets(jobs[j := job], queue, all, tickets)
  {}

  lemma TicketsDrop(jobs: Jobs, queue: seq<JobId>, all: seq<JobId>, tickets: nat, j: JobId)
    requires Tickets(jobs, queue, all, tickets) && NoDup(queue) && NoDup(all) && j in all
    ensures Tickets(jobs - {j}, Without(queue, j), Without(all, j), tickets)
  {
    hide OldestFirst, NewestFirst;
    OldestFirstDrop(jobs, queue, j);
    NewestFirstDrop(jobs, all, j);
  }

  lemma OldestFirstDrop(jobs: Jobs, list: seq<JobId>, j: JobId)
    requires OldestFirst(jobs, list) && NoDup(list)
    ensures OldestFirst(jobs - {j}, Without(list, j))
  {
    hide Without;
    if j in list {
      var k := WithoutIndex(list, j);
      Spliced(list, k, Without(list, j));
    } else {
      WithoutAbsent(list, j);
    }
  }

  lemma NewestFirstDrop(jobs: Jobs, list: seq<JobId>, j: JobId)
    requires NewestFirst(jobs, list) && NoDup(list)
    ensures NewestFirst(jobs - {j}, Without(list, j))
  {
    hide Without;
    if j in list {
      var k := WithoutIndex(list, j);
      Spliced(list, k, Without(list, j));
    } else {
      WithoutAbsent(list, j);
    }
  }

  lemma TicketsAdd(jobs: Jobs, queue: seq<JobId>, all: seq<JobId>, tickets: nat, j: JobId, job: Job)
    requires Tickets(jobs, queue, all, tickets) && j !in jobs && job.ticket == tickets
    requires j !in queue && j !in all
    ensures Tickets(jobs[j := job], queue + [j], [j] + all, tickets + 1)
  {}

  // ---------------------------------------------------------------------- jobs and connections

  lemma LinksUpdate(jobs: Jobs, conns: Connections, j: JobId, job: Job, c: ConnId, conn: Conn)
    requires Links(jobs, conns) && j in jobs && job.conn == jobs[j].conn && c in conns && conn.job == conns[c].job
    ensures Links(jobs[j := job], conns[c := conn])
  {}

  lemma FlagsUpdate(jobs: Jobs, conns: Connections, j: JobId, job: Job, c: ConnId, conn: Conn)
    requires Links(jobs, conns) && JobFlags(jobs, conns)
    requires j in jobs && c in conns && jobs[j].conn == Some(c) == job.conn
    requires (job.running ==> !job.completed) && conn.done == job.completed && (!job.completed ==> conn.resolution.None?)
    ensures JobFlags(jobs[j := job], conns[c := conn])
  {}

  lemma LinksDetach(jobs: Jobs, conns: Connections, j: JobId, job: Job, c: ConnId, conn: Conn)
    requires Links(jobs, conns) && j in jobs && c in conns && conns[c].job == Some(j) && conn.job == None == job.conn
    ensures Links(jobs[j := job], conns[c := conn])
  {}

  lemma FlagsDetach(jobs: Jobs, conns: Connections, j: JobId, job: Job, c: ConnId, conn: Conn)
    requires Links(jobs, conns) && JobFlags(jobs, conns) && j in jobs && c in conns && conns[c].job == Some(j)
    requires job.conn == None && job.running && job.canceled && !job.completed
    ensures JobFlags(jobs[j := job], conns[c := conn])
  {}

  lemma LinksDrop(jobs: Jobs, conns: Connections, j: JobId, c: ConnId, conn: Conn)
    requires Links(jobs, conns) && j in jobs && c in conns && conns[c].job == Some(j) && conn.job == None
    ensures Links(jobs - {j}, conns[c := conn])
  {}

  lemma FlagsDrop(jobs: Jobs, conns: Connections, j: JobId, c: ConnId, conn: Conn)
    requires Links(jobs, conns) && JobFlags(jobs, conns) && j in jobs && c in conns && conns[c].job == Some(j)
    ensures JobFlags(jobs - {j}, conns[c := conn])
  {}

  lemma LinksForget(jobs: Jobs, conns: Connections, j: JobId)
    requires Links(jobs, conns) && JobFlags(jobs, conns) && j in jobs && jobs[j].conn == None
    ensures Links(jobs - {j}, conns) && JobFlags(jobs - {j}, conns)
  {}

  lemma LinksAdd(jobs: Jobs, conns: Connections, j: JobId, job: Job, c: ConnId, conn: Conn)
    requires Links(jobs, conns) && j !in jobs && c in conns && conns[c].job == None
    requires job.conn == Some(c) && conn.job == Some(j)
    ensures Links(jobs[j := job], conns[c := conn])
  {}

  lemma FlagsAdd(jobs: Jobs, conns: Connections, j: JobId, job: Job, c: ConnId, conn: Conn)
    requires Links(jobs, conns) && JobFlags(jobs, conns) && j !in jobs && c in conns && conns[c].job == None
    requires job.conn == Some(c) && !job.running && !job.completed && !conn.done && conn.resolution.None?
    ensures JobFlags(jobs[j := job], conns[c := conn])
  {}

  /** Changing a connection's other fields, or one that has no job. */
  lemma LinksTouch(jobs: Jobs, conns: Connections, c: ConnId, conn: Conn)
    requires Links(jobs, conns) && JobFlags(jobs, conns) && c in conns && conn.job == conns[c].job
    requires conn.job.None? || (conn.done == conns[c].done && conn.resolution == conns[c].resolution)
    ensures Links(jobs, conns[c := conn]) && JobFlags(jobs, conns[c := conn])
  {}

  lemma LinksFree(jobs: Jobs, conns: Connections, c: ConnId)
    requires Links(jobs, conns) && JobFlags(jobs, conns) && c in conns && conns[c].job == None
    ensures Links(jobs, conns - {c}) && JobFlags(jobs, conns - {c})
  {}

  lemma LinksOpen(jobs: Jobs, conns: Connections, c: ConnId, conn: Conn)
    requires Links(jobs, conns) && JobFlags(jobs, conns) && c !in conns && conn.job == None
    ensures Links(jobs, conns[c := conn]) && JobFlags(jobs, conns[c := conn])
  {}

  // ------------------------------------------------------------------------------- the workers

  /** A worker that changes step without changing the job it holds. */
  lemma WorkersMove(workers: seq<Worker>, w: nat, worker: Worker, jobs: Jobs, all: seq<JobId>)
    requires Workers(workers, jobs, all) && w < |workers| && JobOf(worker) == JobOf(workers[w])
    ensures Workers(workers[w := worker], jobs, all)
  {
    var next := workers[w := worker];
    forall v, j
      ensures Holds(next, v, j) <==> Holds(workers, v, j)
    {}
    forall j | j in jobs && jobs[j].running
      ensures exists v :: Holds(next, v, j)
    {
      var v :| Holds(workers, v, j);
      assert Holds(next, v, j);
    }
  }

  lemma WorkersPop(workers: seq<Worker>, w: nat, worker: Worker, jobs: Jobs, all: seq<JobId>, j: JobId, job: Job)
    requires Workers(workers, jobs, all) && w < |workers| && JobOf(workers[w]).None?
    requires j in all && j in jobs && !jobs[j].running && job.running && JobOf(worker) == Some(j)
    ensures Workers(workers[w := worker], jobs[j := job], all)
  {
    var next := workers[w := worker];
    assert Holds(next, w, j);
    forall v, i
      ensures Holds(next, v, i) <==> if v == w then i == j else Holds(workers, v, i)
    {}
    forall i | i in jobs && i != j && jobs[i].running
      ensures exists v :: Holds(next, v, i)
    {
      var v :| Holds(workers, v, i);
      assert Holds(next, v, i);
    }
  }

  /** A worker lets go of job `j`, which stops running or is gone. */
  lemma WorkersLetGo(workers: seq<Worker>, w: nat, worker: Worker, jobs: Jobs, all: seq<JobId>, j: JobId, jobs': Jobs, all': seq<JobId>)
    requires Workers(workers, jobs, all) && Holds(workers, w, j) && JobOf(worker).None?
    requires forall i :: i != j ==> (i in jobs <==> i in jobs') && (i in all <==> i in all')
    requires forall i {:trigger jobs'[i]} :: i != j && i in jobs && i in jobs' ==> jobs'[i].running == jobs[i].running
    requires j in jobs' ==> !jobs'[j].running
    ensures Workers(workers[w := worker], jobs', all')
  {
    var next := workers[w := worker];
    forall v, i
      ensures Holds(next, v, i) <==> v != w && Holds(workers, v, i)
    {}
    forall i | i in jobs' && jobs'[i].running
      ensures exists v :: Holds(next, v, i)
    {
      var v :| Holds(workers, v, i);
      assert Holds(next, v, i);
    }
  }

  /** Jobs may come and go as long as the running ones stay as they are. */
  lemma WorkersKeep(workers: seq<Worker>, jobs: Jobs, all: seq<JobId>, jobs': Jobs, all': seq<JobId>)
    requires Workers(workers, jobs, all)
    requires forall j {:trigger jobs[j]} :: j in jobs && jobs[j].running ==> j in jobs' && jobs'[j].running
    requires forall j {:trigger jobs'[j]} :: j in jobs' && jobs'[j].running ==> j in jobs && jobs[j].running
    requires forall j {:trigger jobs[j]} :: j in jobs && jobs[j].running && j in all ==> j in all'
    ensures Workers(workers, jobs', all')
  {}

  // ------------------------------------------------------------------- descriptors and counting

  lemma FdsTouch(fds: map<Fd, ConnId>, conns: Connections, c: ConnId, conn: Conn)
    requires Fds(fds, conns) && c in conns
    requires conn.regClient == conns[c].regClient && conn.regOrigin == conns[c].regOrigin
    ensures Fds(fds, conns[c := conn])
  {}

  lemma FdsAdd(fds: map<Fd, ConnId>, conns: Connections, fd: Fd, c: ConnId, conn: Conn)
    requires Fds(fds, conns) && fd !in fds && c in conns
    requires conn.regClient == conns[c].regClient && conns[c].regOrigin == None && conn.regOrigin == Some(fd)
    ensures Fds(fds[fd := c], conns[c := conn])
  {}

  lemma FdsOpen(fds: map<Fd, ConnId>, conns: Connections, fd: Fd, c: ConnId, conn: Conn)
    requires Fds(fds, conns) && fd !in fds && c !in conns && conn.regClient == Some(fd) && conn.regOrigin == None
    ensures Fds(fds[fd := c], conns[c := conn])
  {}

  lemma FdsDrop(fds: map<Fd, ConnId>, conns: Connections, fd: Fd, c: ConnId, conn: Conn)
    requires Fds(fds, conns) && fd in fds && fds[fd] == c && c in conns
    requires if conns[c].regClient == Some(fd) then conn.regClient == None && conn.regOrigin == conns[c].regOrigin != Some(fd)
             else conn.regClient == conns[c].regClient && conn.regOrigin == None
    ensures Fds(fds - {fd}, conns[c := conn])
  {
    var fds', conns' := fds - {fd}, conns[c := conn];
    forall f, d | f in fds' && d in conns'
      ensures fds'[f] == d <==> conns'[d].regClient == Some(f) || conns'[d].regOrigin == Some(f)
    {
      assert fds[f] == d <==> conns[d].regClient == Some(f) || conns[d].regOrigin == Some(f);
      assert conns[c].regClient == Some(fd) || conns[c].regOrigin == Some(fd);
    }
    forall d | d in conns'
      ensures conns'[d].regClient.Some? ==> conns'[d].regClient.value in fds'
      ensures conns'[d].regOrigin.Some? ==> conns'[d].regOrigin.value in fds'
    {
      assert fds[fd] == d <==> conns[d].regClient == Some(fd) || conns[d].regOrigin == Some(fd);
    }
  }

  lemma FdsFree(fds: map<Fd, ConnId>, conns: Connections, c: ConnId)
    requires Fds(fds, conns) && c in conns && conns[c].regClient == None && conns[c].regOrigin == None
    ensures Fds(fds, conns - {c})
  {}

  /** Same keys, same counted flag. */
  lemma CountTouch(list: seq<ConnId>, metrics: Metrics, conns: Connections, c: ConnId, conn: Conn)
    requires Listed(list, conns) && Counted(metrics, conns) && c in conns && conn.counted == conns[c].counted
    ensures Listed(list, conns[c := conn]) && Counted(metrics, conns[c := conn]) && |conns[c := conn]| == |conns|
  {
    assert conns[c := conn].Keys == conns.Keys;
    assert Active(conns[c := conn]) == Active(conns);
  }

  lemma CountClose(list: seq<ConnId>, metrics: Metrics, conns: Connections, c: ConnId, conn: Conn)
    requires Listed(list, conns) && Counted(metrics, conns) && c in conns && conns[c].counted && !conn.counted
    ensures Listed(list, conns[c := conn]) && Counted(MetricsClosed(metrics), conns[c := conn])
    ensures |conns[c := conn]| == |conns|
  {
    assert conns[c := conn].Keys == conns.Keys;
    assert c in Active(conns);
    assert Active(conns[c := conn]) == Active(conns) - {c};
  }

  lemma CountOpen(list: seq<ConnId>, metrics: Metrics, conns: Connections, c: ConnId, conn: Conn)
    requires Listed(list, conns) && Counted(metrics, conns) && c !in conns && conn.counted
    ensures Listed([c] + list, conns[c := conn]) && Counted(MetricsOpened(metrics), conns[c := conn])
    ensures |conns[c := conn]| == |conns| + 1
  {
    hide Listed;
    ListedOpen(list, conns, c, conn);
    assert conns[c := conn].Keys == conns.Keys + {c};
    assert Active(conns[c := conn]) == Active(conns) + {c};
  }

  lemma ListedOpen(list: seq<ConnId>, conns: Connections, c: ConnId, conn: Conn)
    requires Listed(list, conns) && c !in conns
    ensures Listed([c] + list, conns[c := conn])
  {}

  lemma CountFree(list: seq<ConnId>, metrics: Metrics, conns: Connections, c: ConnId)
    requires Listed(list, conns) && Counted(metrics, conns) && c in conns && !conns[c].counted
    ensures Listed(Without(list, c), conns - {c}) && Counted(metrics, conns - {c}) && |conns - {c}| == |conns| - 1
  {
    WithoutMembers(list, c);
    assert (conns - {c}).Keys == conns.Keys - {c};
    assert Active(conns - {c}) == Active(conns);
  }

  // --------------------------------------------------------------------------------- addresses

  lemma AddressesMove(addrs: map<AddrId, Owner>, workers: seq<Worker>, conns: Connections, w: nat, worker: Worker)
    requires Addresses(addrs, workers, conns) && w < |workers| && Found(worker) == Found(workers[w])
    ensures Addresses(addrs, workers[w := worker], conns)
  {}

  lemma AddressesFind(addrs: map<AddrId, Owner>, workers: seq<Worker>, conns: Connections, w: nat, worker: Worker, a: AddrId)
    requires Addresses(addrs, workers, conns) && w < |workers| && Found(workers[w]) == None && a !in addrs
    requires Found(worker) == Some(a)
    ensures Addresses(addrs[a := HeldBy(w)], workers[w := worker], conns)
  {}

  /** A worker frees what it holds. */
  lemma AddressesFree(addrs: map<AddrId, Owner>, workers: seq<Worker>, conns: Connections, w: nat, worker: Worker, a: AddrId)
    requires Addresses(addrs, workers, conns) && w < |workers| && Found(workers[w]) == Some(a)
    requires Found(worker) == None
    ensures Addresses(addrs - {a}, workers[w := worker], conns)
  {}

  /** A worker hands what it holds to a connection that has no answer yet. */
  lemma AddressesStore(addrs: map<AddrId, Owner>, workers: seq<Worker>, conns: Connections, w: nat, worker: Worker, a: AddrId, c: ConnId, conn: Conn)
    requires Addresses(addrs, workers, conns) && w < |workers| && Found(workers[w]) == Some(a)
    requires Found(worker) == None && c in conns && conns[c].resolution == None && conn.resolution == Some(a)
    ensures Addresses(addrs[a := StoredIn(c)], workers[w := worker], conns[c := conn])
  {}

  lemma AddressesTouch(addrs: map<AddrId, Owner>, workers: seq<Worker>, conns: Connections, c: ConnId, conn: Conn)
    requires Addresses(addrs, workers, conns)
    requires if c in conns then conn.resolution == conns[c].resolution else conn.resolution == None
    ensures Addresses(addrs, workers, conns[c := conn])
  {}

  /** A connection goes, and what it stored with it. */
  lemma AddressesDrop(addrs: map<AddrId, Owner>, workers: seq<Worker>, conns: Connections, c: ConnId)
    requires Addresses(addrs, workers, conns) && c in conns
    ensures var held := conns[c].resolution;
            Addresses(if held.Some? then addrs - {held.value} else addrs, workers, conns - {c})
  {}
}
