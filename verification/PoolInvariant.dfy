/** The inductive invariant of the resolver pool.

Each conjunct takes only the parts of the state it speaks about, so that a step which leaves those
parts alone keeps it for free. `x` names the connection, if any, whose last descriptor has just been
closed: until FreeIfUnreferenced runs, its count may be zero. */
module PoolInvariant {
  import opened Sequences
  import opened PoolState

  type Jobs = map<JobId, Job>
  type Connections = map<ConnId, Conn>

  /** Jobs that pool_stop has taken off the lists and not yet released. */
  function Rest(main: Main): (r: seq<JobId>) {
    if main.Releasing? then main.rest else []
  }

  ghost predicate Queued(jobs: Jobs, all: seq<JobId>, j: JobId) {
    j in all && j in jobs && !jobs[j].running && !jobs[j].completed
  }

  /** The two lists are complete and duplicate free, and `inSystem` counts the second. */
  ghost predicate Lists(jobs: Jobs, queue: seq<JobId>, all: seq<JobId>, rest: seq<JobId>, inSystem: int) {
    && NoDup(all) && NoDup(queue) && NoDup(rest)
    && (forall j :: j in jobs <==> j in all || j in rest)
    && (forall j :: j in all ==> j !in rest)
    && (forall j :: j in queue <==> Queued(jobs, all, j))
    && inSystem == |all| <= RESOLVER_MAX_JOBS
  }

  /** Both lists are in queueing order: `queue` oldest first, `all` newest first. */
  ghost predicate Tickets(jobs: Jobs, queue: seq<JobId>, all: seq<JobId>, tickets: nat) {
    && (forall j {:trigger jobs[j]} :: j in jobs ==> jobs[j].ticket < tickets)
    && OldestFirst(jobs, queue)
    && NewestFirst(jobs, all)
  }

  ghost predicate OldestFirst(jobs: Jobs, list: seq<JobId>) {
    forall i, k :: 0 <= i < k < |list| && list[i] in jobs && list[k] in jobs ==> jobs[list[i]].ticket < jobs[list[k]].ticket
  }

  ghost predicate NewestFirst(jobs: Jobs, list: seq<JobId>) {
    forall i, k :: 0 <= i < k < |list| && list[i] in jobs && list[k] in jobs ==> jobs[list[i]].ticket > jobs[list[k]].ticket
  }

  /** A job's `conn` and a connection's `resolver_job` are inverse to each other. */
  ghost predicate Links(jobs: Jobs, conns: Connections) {
    && (forall j {:trigger jobs[j]} :: j in jobs && jobs[j].conn.Some? ==> jobs[j].conn.value in conns)
    && (forall c {:trigger conns[c]} :: c in conns && conns[c].job.Some? ==> conns[c].job.value in jobs)
    && (forall j, c {:trigger jobs[j], conns[c]} :: j in jobs && c in conns ==>
          (jobs[j].conn == Some(c) <==> conns[c].job == Some(j)))
  }

  /** Only running jobs are detached; a completed job has its answer in the connection. */
  ghost predicate JobFlags(jobs: Jobs, conns: Connections) {
    forall j {:trigger jobs[j]} :: j in jobs ==>
      var job := jobs[j];
      && (job.running ==> !job.completed)
      && (job.conn.None? ==> job.running && job.canceled)
      && (job.conn.Some? && job.conn.value in conns ==>
            var conn := conns[job.conn.value];
            && conn.done == job.completed
            && (!job.completed ==> conn.resolution.None?))
  }

  ghost predicate Holds(workers: seq<Worker>, w: nat, j: JobId) {
    w < |workers| && JobOf(workers[w]) == Some(j)
  }

  /** Running jobs are exactly those a worker holds, one worker each. */
  ghost predicate Workers(workers: seq<Worker>, jobs: Jobs, all: seq<JobId>) {
    && |workers| == RESOLVER_WORKERS
    && (forall w, j :: Holds(workers, w, j) ==> j in all && j in jobs && jobs[j].running)
    && (forall w, v, j :: Holds(workers, w, j) && Holds(workers, v, j) ==> w == v)
    && (forall j {:trigger jobs[j]} :: j in jobs && jobs[j].running ==> exists w :: Holds(workers, w, j))
  }

  ghost predicate ConnOk(conn: Conn, closing: bool, exempt: bool, destroying: bool) {
    && conn.references == One(conn.regClient.Some?) + One(conn.regOrigin.Some?) + One(conn.job.Some?)
    && (conn.job.Some? ==> conn.phase.Resolve?)
    && (conn.phase.Handshake? ==> conn.resolution.None? && !conn.done)
    && (conn.phase.Handshake? || conn.phase.Resolve? ==> conn.regOrigin.None?)
    && (conn.phase.Resolve? && !exempt ==> conn.job.Some? || conn.done)
    && (if closing then conn.clientFd == -1 && conn.originFd == -1
        else conn.clientFd == FdOf(conn.regClient) && conn.originFd == FdOf(conn.regOrigin))
    && (!exempt ==> conn.regClient.Some? || (destroying && conn.regOrigin.Some?))
    && (conn.regClient.Some? ==> conn.regClient != conn.regOrigin)
  }

  ghost predicate Conns(conns: Connections, main: Main, x: Option<ConnId>) {
    forall c {:trigger conns[c]} :: c in conns ==>
      ConnOk(conns[c], main.Closing? && main.conn == c, x == Some(c), main.Destroying?)
  }

  /** The selector's table and the connections agree on who owns each descriptor. */
  ghost predicate Fds(fds: map<Fd, ConnId>, conns: Connections) {
    && (forall fd {:trigger fds[fd]} :: fd in fds ==> fds[fd] in conns)
    && (forall c {:trigger conns[c]} :: c in conns && conns[c].regClient.Some? ==> conns[c].regClient.value in fds)
    && (forall c {:trigger conns[c]} :: c in conns && conns[c].regOrigin.Some? ==> conns[c].regOrigin.value in fds)
    && (forall fd, c {:trigger fds[fd], conns[c]} :: fd in fds && c in conns ==>
          (fds[fd] == c <==> conns[c].regClient == Some(fd) || conns[c].regOrigin == Some(fd)))
  }

  ghost predicate Listed(list: seq<ConnId>, conns: Connections) {
    NoDup(list) && forall c :: c in list <==> c in conns
  }

  function Active(conns: Connections): (r: set<ConnId>) {
    set c | c in conns && conns[c].counted
  }

  ghost predicate Counted(metrics: Metrics, conns: Connections) {
    metrics.active == |Active(conns)| <= metrics.peak
  }

  /** Blocks allocated are blocks freed plus blocks live. */
  ghost predicate Conserved(s: State) {
    && s.jobAllocs == s.jobFrees + |s.jobs|
    && s.connAllocs == s.connFrees + |s.conns|
    && s.metrics.historical == s.connAllocs
  }

  /** Every getaddrinfo result is held by exactly one worker or one connection. */
  ghost predicate Addresses(addrs: map<AddrId, Owner>, workers: seq<Worker>, conns: Connections) {
    && (forall a {:trigger addrs[a]} :: a in addrs ==>
          match addrs[a]
          case HeldBy(w) => w < |workers| && Found(workers[w]) == Some(a)
          case StoredIn(c) => c in conns)
    && (forall w {:trigger workers[w]} :: 0 <= w < |workers| && Found(workers[w]).Some? ==> Found(workers[w]).value in addrs)
    && (forall c {:trigger conns[c]} :: c in conns && conns[c].resolution.Some? ==> conns[c].resolution.value in addrs)
    && (forall a, w {:trigger addrs[a], workers[w]} :: a in addrs && 0 <= w < |workers| ==>
          (addrs[a] == HeldBy(w) <==> Found(workers[w]) == Some(a)))
    && (forall a, c {:trigger addrs[a], conns[c]} :: a in addrs && c in conns ==>
          (addrs[a] == StoredIn(c) <==> conns[c].resolution == Some(a)))
  }

  /** How far start-up and shutdown have got. */
  ghost predicate Stages(s: State) {
    && (!s.started ==> s.all == [] && s.queue == [])
    && (forall w {:trigger s.workers[w]} :: 0 <= w < |s.workers| ==>
          && (s.workers[w].Absent? <==> !s.started)
          && (s.workers[w].Exited? ==> s.main.Joining? && s.queue == []))
    && (s.started && s.stopping ==> s.main.Joining?)
    && (s.main.Joining? ==> s.started && s.stopping)
    && (s.main.Releasing? ==> !s.started && forall j :: j in s.main.rest && j in s.jobs ==> s.jobs[j].completed)
    && (s.cursor.At? ==> !s.main.Joining? && !s.main.Releasing? && !s.main.Destroying?)
  }

  /** The connection the main thread is working on, and the reaper's saved pointer, are both live. */
  ghost predicate Focus(main: Main, cursor: Cursor, conns: Connections) {
    && (main.Taking? || main.Canceling? ==> main.conn in conns && conns[main.conn].phase.Resolve?)
    && (main.Taking? ==> conns[main.conn].done)
    && (main.Closing? ==> main.conn in conns && main.fds == OpenFds(conns[main.conn]))
    && (cursor.At? && cursor.next.Some? ==>
          && cursor.next.value in conns
          && (main.Taking? || main.Canceling? || main.Closing? ==> cursor.next.value != main.conn))
  }

  /** The descriptors of a connection, in the order socks5_done unregisters them. */
  function OpenFds(conn: Conn): (fds: seq<Fd>) {
    (if conn.regOrigin.Some? then [conn.regOrigin.value] else [])
    + (if conn.regClient.Some? then [conn.regClient.value] else [])
  }

  ghost predicate InvX(s: State, x: Option<ConnId>) {
    && Lists(s.jobs, s.queue, s.all, Rest(s.main), s.inSystem)
    && Tickets(s.jobs, s.queue, s.all, s.tickets)
    && Links(s.jobs, s.conns)
    && JobFlags(s.jobs, s.conns)
    && Workers(s.workers, s.jobs, s.all)
    && Conns(s.conns, s.main, x)
    && Fds(s.fds, s.conns)
    && Listed(s.list, s.conns)
    && Counted(s.metrics, s.conns)
    && Conserved(s)
    && Addresses(s.addrs, s.workers, s.conns)
    && Stages(s)
  }

  ghost predicate Inv(s: State) {
    InvX(s, None) && Focus(s.main, s.cursor, s.conns)
  }
}
