/** State and critical sections of the DNS resolver pool and of the connection lifetimes it shares
(src/server/socks5_resolver.c, and the reference counting of src/server/socks5.c).

Pointers are keys of `jobs`, `conns` and `addrs`; a key that is not in its map is a freed block, and
an allocation may reuse any key that is not in the map. Each function below is one critical section
of `resolver_mutex`, or main-thread work that no worker can observe. */
module PoolState {
  import opened Sequences

  const RESOLVER_WORKERS := 4
  const RESOLVER_MAX_JOBS := 64

  type JobId = nat
  type ConnId = nat
  type AddrId = nat
  type Fd = nat

  /** struct resolver_job. `ticket` numbers the jobs in the order they were queued; nothing reads it. */
  datatype Job = Job(conn: Option<ConnId>, notifyFd: int, running: bool, completed: bool, canceled: bool, ticket: nat)

  /** Where a worker thread stands in resolver_worker_run. */
  datatype Worker =
    | Absent
    | Waiting
    | Resolving(job: JobId, skip: bool)
    | Publishing(job: JobId, found: Option<AddrId>)
    | Notifying(fd: int)
    | Exited

  datatype Phase = Handshake | Resolve | Connecting | Replying | Relaying

  /** struct socks5_conn. `clientFd` and `originFd` are the C fields (-1 for none); `regClient` and
  `regOrigin` are the descriptors the selector really holds for this connection. */
  datatype Conn = Conn(clientFd: int, originFd: int, regClient: Option<Fd>, regOrigin: Option<Fd>,
                       references: int, job: Option<JobId>, done: bool, resolution: Option<AddrId>,
                       counted: bool, phase: Phase)

  /** Who must free a getaddrinfo result. */
  datatype Owner = HeldBy(worker: nat) | StoredIn(conn: ConnId)

  /** What the main thread is in the middle of. */
  datatype Main =
    | Ready
    | Closing(conn: ConnId, fds: seq<Fd>)   // socks5_done, descriptors still to unregister
    | Taking(conn: ConnId)                  // reaper: saw resolver_done, about to take the job
    | Canceling(conn: ConnId)               // reaper: timed out in REQ_RESOLVE, about to cancel
    | Joining                               // pool_stop: waiting for the workers
    | Releasing(rest: seq<JobId>)           // pool_stop: releasing the remaining jobs
    | Destroying                            // selector_destroy

  /** The reaper's saved `nxt` pointer, while a sweep is under way. */
  datatype Cursor = NoSweep | At(next: Option<ConnId>)

  datatype Metrics = Metrics(active: nat, historical: nat, peak: nat)

  datatype State = State(
    jobs: map<JobId, Job>, queue: seq<JobId>, all: seq<JobId>, inSystem: int,
    started: bool, stopping: bool, workers: seq<Worker>,
    conns: map<ConnId, Conn>, list: seq<ConnId>, fds: map<Fd, ConnId>,
    addrs: map<AddrId, Owner>, metrics: Metrics,
    main: Main, cursor: Cursor,
    tickets: nat, jobAllocs: nat, jobFrees: nat, connAllocs: nat, connFrees: nat)

  const INIT := State(map[], [], [], 0, false, false, [Absent, Absent, Absent, Absent],
                      map[], [], map[], map[], Metrics(0, 0, 0), Ready, NoSweep, 0, 0, 0, 0, 0)

  function JobOf(w: Worker): (j: Option<JobId>) {
    match w
    case Resolving(j, _) => Some(j)
    case Publishing(j, _) => Some(j)
    case _ => None
  }

  function Found(w: Worker): (a: Option<AddrId>) {
    if w.Publishing? then w.found else None
  }

  function FdOf(fd: Option<Fd>): (n: int) {
    if fd.Some? then fd.value else -1
  }

  function One(b: bool): (n: nat) {
    if b then 1 else 0
  }

  // ------------------------------------------------------------------ worker critical sections

  /** Lines 107-118: pop a job, mark it running, read the cancellation flag. */
  function PopJob(s: State, w: nat): (r: State)
    requires w < |s.workers| && s.queue != [] && s.queue[0] in s.jobs
  {
    var j := s.queue[0];
    s.(queue := s.queue[1..],
       jobs := s.jobs[j := s.jobs[j].(running := true)],
       workers := s.workers[w := Resolving(j, s.jobs[j].canceled || s.stopping)])
  }

  /** Lines 120-132, outside the mutex: getaddrinfo, unless the job was already cancelled. */
  function Lookup(s: State, w: nat, answer: Option<AddrId>): (r: State)
    requires w < |s.workers| && s.workers[w].Resolving?
  {
    var found := if s.workers[w].skip then None else answer;
    s.(workers := s.workers[w := Publishing(s.workers[w].job, found)],
       addrs := if found.Some? then s.addrs[found.value := HeldBy(w)] else s.addrs)
  }

  function RemoveJob(s: State, j: JobId): (r: State) {
    s.(all := Without(s.all, j), inSystem := s.inSystem - 1, jobs := s.jobs - {j}, jobFrees := s.jobFrees + 1)
  }

  /** Lines 138-178: publish the outcome to the connection, or release a detached job. */
  function Publish(s: State, w: nat): (r: State)
    requires w < |s.workers| && s.workers[w].Publishing?
    requires s.workers[w].job in s.jobs
    requires var job := s.jobs[s.workers[w].job]; job.conn.Some? ==> job.conn.value in s.conns
  {
    var Publishing(j, found) := s.workers[w];
    var job := s.jobs[j];
    var freed := if found.Some? then s.addrs - {found.value} else s.addrs;
    if job.conn.Some? then
      var c := job.conn.value;
      var finished := s.(jobs := s.jobs[j := job.(running := false, completed := true)]);
      if job.canceled || s.stopping then
        finished.(conns := s.conns[c := s.conns[c].(done := true)],
                  addrs := freed,
                  workers := s.workers[w := Waiting])
      else
        finished.(conns := s.conns[c := s.conns[c].(done := true, resolution := found)],
                  addrs := if found.Some? then s.addrs[found.value := StoredIn(c)] else s.addrs,
                  workers := s.workers[w := if job.notifyFd >= 0 then Notifying(job.notifyFd) else Waiting])
    else
      RemoveJob(s, j).(addrs := freed, workers := s.workers[w := Waiting])
  }

  // ------------------------------------------------------------- main-thread critical sections

  /** socks5_resolver_queue_job once the pool runs (lines 272-298); `j` is the block calloc returned. */
  function QueueJob(s: State, c: ConnId, j: JobId): (r: State)
    requires c in s.conns
  {
    var conn := s.conns[c];
    if s.stopping || s.inSystem >= RESOLVER_MAX_JOBS || conn.job.Some? then
      s.(jobAllocs := s.jobAllocs + 1, jobFrees := s.jobFrees + 1)
    else
      s.(jobs := s.jobs[j := Job(Some(c), conn.clientFd, false, false, false, s.tickets)],
         tickets := s.tickets + 1, jobAllocs := s.jobAllocs + 1,
         conns := s.conns[c := conn.(references := conn.references + 1, job := Some(j), done := false, phase := Resolve)],
         inSystem := s.inSystem + 1,
         all := [j] + s.all,
         queue := s.queue + [j])
  }

  /** socks5_resolver_pool_start; `created` is how many threads pthread_create could start. */
  function PoolStart(s: State, created: nat): (r: State) {
    if s.started then s.(stopping := false)
    else if created < RESOLVER_WORKERS then s.(stopping := true)
    else s.(stopping := false, started := true, workers := [Waiting, Waiting, Waiting, Waiting])
  }

  /** socks5_resolver_cancel_conn (lines 301-322). */
  function CancelConn(s: State, c: ConnId): (r: State)
    requires c in s.conns
    requires s.conns[c].job.Some? ==> s.conns[c].job.value in s.jobs
  {
    var conn := s.conns[c];
    if conn.job.None? then s
    else
      var j := conn.job.value;
      var s1 := s.(jobs := s.jobs[j := s.jobs[j].(canceled := true, conn := None)],
                   conns := s.conns[c := conn.(job := None, references := conn.references - 1)]);
      if s.jobs[j].running then s1
      else RemoveJob(s1.(queue := Without(s.queue, j)), j)
  }

  /** socks5_resolver_take_completed (lines 324-342): the new state and the returned flag. */
  function TakeCompleted(s: State, c: ConnId): (r: (State, bool))
    requires c in s.conns
    requires s.conns[c].job.Some? ==> s.conns[c].job.value in s.jobs
  {
    var conn := s.conns[c];
    if conn.job.None? then (s, conn.done)
    else if s.jobs[conn.job.value].completed then
      (RemoveJob(s, conn.job.value).(conns := s.conns[c := conn.(job := None, references := conn.references - 1)]), conn.done)
    else (s, false)
  }

  // ------------------------------------------------------------------------ connection lifetime

  function MetricsOpened(m: Metrics): (r: Metrics) {
    var active := m.active + 1;
    Metrics(active, m.historical + 1, if active > m.peak then active else m.peak)
  }

  function MetricsClosed(m: Metrics): (r: Metrics) {
    if m.active > 0 then m.(active := m.active - 1) else m
  }

  function MarkInactive(s: State, c: ConnId): (r: State)
    requires c in s.conns
  {
    if s.conns[c].counted then
      s.(conns := s.conns[c := s.conns[c].(counted := false)], metrics := MetricsClosed(s.metrics))
    else s
  }

  /** socks5_conn_free_if_unreferenced (socks5.c lines 97-110). */
  function FreeIfUnreferenced(s: State, c: ConnId): (r: State)
    requires c in s.conns
  {
    if s.conns[c].references > 0 then s
    else
      var s1 := MarkInactive(s, c);
      var held := s.conns[c].resolution;
      s1.(conns := s1.conns - {c}, list := Without(s1.list, c), connFrees := s1.connFrees + 1,
          addrs := if held.Some? then s1.addrs - {held.value} else s1.addrs)
  }

  /** The connection after its descriptor `fd` has been closed (socks5.c lines 1072-1078). */
  function Dropped(conn: Conn, fd: Fd): (r: Conn) {
    var conn1 := if fd == conn.clientFd then conn.(clientFd := -1)
                 else if fd == conn.originFd then conn.(originFd := -1)
                 else conn;
    (if conn.regClient == Some(fd) then conn1.(regClient := None) else conn1.(regOrigin := None)).(references := conn.references - 1)
  }

  /** The first half of socks5_close: the descriptor leaves the selector and its reference goes. */
  function DropFd(s: State, fd: Fd): (r: State)
    requires fd in s.fds && s.fds[fd] in s.conns
  {
    var c := s.fds[fd];
    s.(fds := s.fds - {fd}, conns := s.conns[c := Dropped(s.conns[c], fd)])
  }

  /** The second half of socks5_close (socks5.c lines 1080-1086), before the free. */
  function Settle(s: State, c: ConnId): (r: State)
    requires c in s.conns
    requires s.conns[c].job.Some? ==> s.conns[c].job.value in s.jobs
    ensures c in r.conns
  {
    if s.conns[c].clientFd == -1 && s.conns[c].originFd == -1 then CancelConn(MarkInactive(s, c), c)
    else TakeCompleted(s, c).0
  }

  /** socks5_close, as selector_unregister_fd calls it. */
  function CloseFd(s: State, fd: Fd): (r: State)
    requires fd in s.fds && s.fds[fd] in s.conns
    requires var conn := s.conns[s.fds[fd]]; conn.job.Some? ==> conn.job.value in s.jobs
  {
    var c := s.fds[fd];
    FreeIfUnreferenced(Settle(DropFd(s, fd), c), c)
  }

  /** socks5_passive_accept once the socket and the blocks are there. */
  function Open(s: State, c: ConnId, fd: Fd): (r: State) {
    s.(conns := s.conns[c := Conn(fd, -1, Some(fd), None, 1, None, false, None, true, Handshake)],
       fds := s.fds[fd := c], list := [c] + s.list, connAllocs := s.connAllocs + 1,
       metrics := MetricsOpened(s.metrics))
  }

  // --------------------------------------------------------------------------- the request phase

  /** How request_connect ends: no address left (or no room in the selector), or a socket registered. */
  datatype Attempt = Exhausted | Registered(fd: Fd, immediate: bool)

  function SetPhase(s: State, c: ConnId, phase: Phase): (r: State)
    requires c in s.conns
  {
    s.(conns := s.conns[c := s.conns[c].(phase := phase)])
  }

  /** request_connect (socks5.c lines 605-657), for a connection without an origin. */
  function Connect(s: State, c: ConnId, attempt: Attempt): (r: State)
    requires c in s.conns
  {
    match attempt
    case Exhausted => SetPhase(s, c, Replying)
    case Registered(fd, immediate) =>
      var conn := s.conns[c];
      s.(fds := s.fds[fd := c],
         conns := s.conns[c := conn.(originFd := fd, regOrigin := Some(fd), references := conn.references + 1,
                                     phase := if immediate then Replying else Connecting)])
  }

  /** request_resolve_done (socks5.c lines 561-574). */
  function ResolveDone(s: State, c: ConnId, attempt: Attempt): (r: State)
    requires c in s.conns
    requires s.conns[c].job.Some? ==> s.conns[c].job.value in s.jobs
  {
    var (t, taken) := TakeCompleted(s, c);
    if !taken then t
    else if t.conns[c].resolution.None? then SetPhase(t, c, Replying)
    else Connect(t, c, attempt)
  }

  /** The descriptor part of request_fail (socks5.c lines 457-461). */
  function DropOrigin(s: State, c: ConnId): (r: State)
    requires c in s.conns
    requires s.conns[c].originFd != -1 ==>
               s.conns[c].originFd >= 0 && s.conns[c].originFd in s.fds && s.fds[s.conns[c].originFd] == c
    requires s.conns[c].job.Some? ==> s.conns[c].job.value in s.jobs
  {
    var ofd := s.conns[c].originFd;
    if ofd == -1 then s
    else CloseFd(s.(conns := s.conns[c := s.conns[c].(originFd := -1)]), ofd)
  }

  /** The node after `c` in the connection list. */
  function Successor(list: seq<ConnId>, c: ConnId): (r: Option<ConnId>) {
    if list == [] then None
    else if list[0] != c then Successor(list[1..], c)
    else if |list| == 1 then None
    else Some(list[1])
  }
}
