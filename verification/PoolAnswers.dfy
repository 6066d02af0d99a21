/** What the resolver brings back: every name is answered with what was found for it, in the order asked. */
module PoolAnswers {
  import opened Sequences
  import opened PoolState
  import opened PoolInvariant
  import opened PoolSteps
  import opened PoolMain
  import opened PoolRun
  import opened PoolShutdown
  import opened PoolTheorems

  /** What was found for each job so far, by ticket. */
  type Found = map<nat, Option<AddrId>>

  /** A worker returns from getaddrinfo. */
  ghost predicate LooksUp(s: State, e: Event) {
    && e.WorkerLookup? && e.w < |s.workers| && s.workers[e.w].Resolving? && s.workers[e.w].job in s.jobs
    && (e.answer.Some? ==> e.answer.value !in s.addrs)
  }

  ghost function Learned(s: State, e: Event, m: Found): (r: Found) {
    if LooksUp(s, e) then m[s.jobs[s.workers[e.w].job].ticket := e.answer] else m
  }

  /** What the events of a run say was found, job by job. */
  ghost function Findings(events: seq<Event>): (m: Found) {
    if events == [] then map[]
    else
      var before := events[..|events| - 1];
      Learned(Run(before), events[|events| - 1], Findings(before))
  }

  /** A worker about to publish holds what was found for its job. */
  ghost predicate Held(jobs: Jobs, workers: seq<Worker>, m: Found) {
    forall w {:trigger workers[w]} :: 0 <= w < |workers| && workers[w].Publishing? && workers[w].job in jobs && !jobs[workers[w].job].canceled ==>
      jobs[workers[w].job].ticket in m && m[jobs[workers[w].job].ticket] == workers[w].found
  }

  /** A completed job's connection has it. */
  ghost predicate Delivered(jobs: Jobs, conns: Connections, m: Found) {
    forall j {:trigger jobs[j]} :: j in jobs && jobs[j].completed && !jobs[j].canceled && jobs[j].conn.Some? && jobs[j].conn.value in conns ==>
      jobs[j].ticket in m && conns[jobs[j].conn.value].resolution == m[jobs[j].ticket]
  }

  /** Only cancelled jobs are not looked up. */
  ghost predicate Skips(jobs: Jobs, workers: seq<Worker>, stopping: bool) {
    && (stopping ==> forall j {:trigger jobs[j]} :: j in jobs ==> jobs[j].canceled)
    && forall w {:trigger workers[w]} :: 0 <= w < |workers| && workers[w].Resolving? && workers[w].skip && workers[w].job in jobs ==>
         jobs[workers[w].job].canceled
  }

  ghost predicate Faithful(s: State, m: Found) {
    Held(s.jobs, s.workers, m) && Delivered(s.jobs, s.conns, m) && Skips(s.jobs, s.workers, s.stopping)
  }

  // ---------------------------------------------------------------------- steps that bring no answer

  /** A job that was there before, with the same connection or none, and not completed or cleared since. */
  ghost predicate SameJob(before: Job, after: Job) {
    && after.ticket == before.ticket && (after.conn.Some? ==> after.conn == before.conn)
    && (before.canceled ==> after.canceled) && (after.completed ==> before.completed)
  }

  ghost predicate CalmJobs(before: Jobs, after: Jobs) {
    forall j {:trigger after[j]} :: j in after ==> j in before && SameJob(before[j], after[j])
  }

  ghost predicate CalmConns(before: Connections, after: Connections) {
    forall c {:trigger after[c]} :: c in after ==> c in before && after[c].resolution == before[c].resolution
  }

  /** Nothing is found, published or brought in. */
  ghost predicate Calm(s: State, t: State) {
    && CalmJobs(s.jobs, t.jobs) && CalmConns(s.conns, t.conns) && t.workers == s.workers && t.stopping == s.stopping
    && t.metrics.peak == s.metrics.peak && t.metrics.active <= s.metrics.active
  }

  lemma CalmTrans(s: State, t: State, u: State)
    requires Calm(s, t) && Calm(t, u)
    ensures Calm(s, u)
  {
    forall j | j in u.jobs
      ensures j in s.jobs && SameJob(s.jobs[j], u.jobs[j])
    {
      assert SameJob(t.jobs[j], u.jobs[j]);
      assert SameJob(s.jobs[j], t.jobs[j]);
    }
    forall c | c in u.conns
      ensures c in s.conns && u.conns[c].resolution == s.conns[c].resolution
    {
      assert u.conns[c].resolution == t.conns[c].resolution;
    }
  }

  lemma CalmKeeps(s: State, t: State, m: Found)
    requires Inv(s) && Inv(t) && Faithful(s, m) && Calm(s, t)
    ensures Faithful(t, m)
  {
    hide Lists, Tickets, Links, JobFlags, Workers, Conns, Fds, Listed, Counted, Addresses, Conserved, Stages, Focus;
    hide Held, Delivered, Skips, CalmJobs, CalmConns;
    HeldCalm(s.jobs, t.jobs, s.workers, m);
    DeliveredCalm(s.jobs, t.jobs, s.conns, t.conns, m);
    SkipsCalm(s.jobs, t.jobs, s.workers, s.stopping);
  }

  lemma HeldCalm(before: Jobs, after: Jobs, workers: seq<Worker>, m: Found)
    requires CalmJobs(before, after) && Held(before, workers, m)
    ensures Held(after, workers, m)
  {
    forall w | 0 <= w < |workers| && workers[w].Publishing? && workers[w].job in after && !after[workers[w].job].canceled
      ensures var k := after[workers[w].job].ticket; k in m && m[k] == workers[w].found
    {
      assert SameJob(before[workers[w].job], after[workers[w].job]);
    }
  }

  lemma DeliveredCalm(before: Jobs, after: Jobs, conns: Connections, conns': Connections, m: Found)
    requires CalmJobs(before, after) && CalmConns(conns, conns') && Delivered(before, conns, m)
    ensures Delivered(after, conns', m)
  {
    forall j | j in after && after[j].completed && !after[j].canceled && after[j].conn.Some? && after[j].conn.value in conns'
      ensures after[j].ticket in m && conns'[after[j].conn.value].resolution == m[after[j].ticket]
    {
      assert SameJob(before[j], after[j]);
    }
  }

  lemma SkipsCalm(before: Jobs, after: Jobs, workers: seq<Worker>, stopping: bool)
    requires CalmJobs(before, after) && Skips(before, workers, stopping)
    ensures Skips(after, workers, stopping)
  {
    forall j | stopping && j in after
      ensures after[j].canceled
    {
      assert SameJob(before[j], after[j]);
    }
    forall w | 0 <= w < |workers| && workers[w].Resolving? && workers[w].skip && workers[w].job in after
      ensures after[workers[w].job].canceled
    {
      assert SameJob(before[workers[w].job], after[workers[w].job]);
    }
  }

  // One entry changed, or taken out.

  lemma JobsCalm(jobs: Jobs, j: JobId, job: Job)
    ensures CalmJobs(jobs, jobs) && CalmJobs(jobs, jobs - {j})
    ensures j in jobs && SameJob(jobs[j], job) ==> CalmJobs(jobs, jobs[j := job]) && CalmJobs(jobs, jobs[j := job] - {j})
  {}

  lemma ConnsCalm(conns: Connections, c: ConnId, conn: Conn)
    requires c in conns && conn.resolution == conns[c].resolution
    ensures CalmConns(conns, conns) && CalmConns(conns, conns - {c}) && CalmConns(conns, conns[c := conn]) && CalmConns(conns, conns[c := conn] - {c})
  {}

  lemma CancelIsCalm(s: State, c: ConnId)
    requires c in s.conns && (s.conns[c].job.Some? ==> s.conns[c].job.value in s.jobs)
    ensures Calm(s, CancelConn(s, c)) && c in CancelConn(s, c).conns
  {
    hide CalmJobs, CalmConns, Without;
    var conn := s.conns[c];
    ConnsCalm(s.conns, c, conn.(job := None, references := conn.references - 1));
    if conn.job.Some? {
      JobsCalm(s.jobs, conn.job.value, s.jobs[conn.job.value].(canceled := true, conn := None));
    } else {
      JobsCalm(s.jobs, 0, Job(None, 0, false, false, false, 0));
    }
  }

  lemma TakeIsCalm(s: State, c: ConnId)
    requires c in s.conns && (s.conns[c].job.Some? ==> s.conns[c].job.value in s.jobs)
    ensures Calm(s, TakeCompleted(s, c).0) && c in TakeCompleted(s, c).0.conns
  {
    hide CalmJobs, CalmConns, Without;
    var conn := s.conns[c];
    ConnsCalm(s.conns, c, conn.(job := None, references := conn.references - 1));
    JobsCalm(s.jobs, if conn.job.Some? then conn.job.value else 0, Job(None, 0, false, false, false, 0));
  }

  lemma FreeIsCalm(s: State, c: ConnId)
    requires c in s.conns
    ensures Calm(s, FreeIfUnreferenced(s, c)) && Calm(s, MarkInactive(s, c)) && c in MarkInactive(s, c).conns
  {
    hide CalmJobs, CalmConns, Without;
    ConnsCalm(s.conns, c, s.conns[c].(counted := false));
    JobsCalm(s.jobs, 0, Job(None, 0, false, false, false, 0));
  }

  lemma SettleIsCalm(s: State, c: ConnId)
    requires c in s.conns && (s.conns[c].job.Some? ==> s.conns[c].job.value in s.jobs)
    ensures Calm(s, Settle(s, c))
  {
    hide CancelConn, TakeCompleted, MarkInactive, Calm;
    FreeIsCalm(s, c);
    SettleParts(s, c);
    TakeIsCalm(s, c);
  }

  lemma SettleParts(s: State, c: ConnId)
    requires c in s.conns && (s.conns[c].job.Some? ==> s.conns[c].job.value in s.jobs)
    ensures var t := MarkInactive(s, c);
            c in t.conns && t.conns[c].job == s.conns[c].job && (t.conns[c].job.Some? ==> t.conns[c].job.value in t.jobs) && Calm(s, CancelConn(t, c))
  {
    hide Calm;
    var t := MarkInactive(s, c);
    FreeIsCalm(s, c);
    CancelIsCalm(t, c);
    CalmTrans(s, t, CancelConn(t, c));
  }

  lemma CloseIsCalm(s: State, fd: Fd)
    requires fd in s.fds && s.fds[fd] in s.conns
    requires var conn := s.conns[s.fds[fd]]; conn.job.Some? ==> conn.job.value in s.jobs
    ensures Calm(s, CloseFd(s, fd))
  {
    hide Settle, FreeIfUnreferenced, Calm;
    var c := s.fds[fd];
    var t := DropFd(s, fd);
    DropIsCalm(s, fd);
    SettleIsCalm(t, c);
    FreeIsCalm(Settle(t, c), c);
    CalmTrans(s, t, Settle(t, c));
    CalmTrans(s, Settle(t, c), FreeIfUnreferenced(Settle(t, c), c));
  }

  lemma DropIsCalm(s: State, fd: Fd)
    requires fd in s.fds && s.fds[fd] in s.conns
    ensures var t := DropFd(s, fd); Calm(s, t) && s.fds[fd] in t.conns && t.conns[s.fds[fd]].job == s.conns[s.fds[fd]].job && t.jobs == s.jobs
  {}

  lemma ConnectIsCalm(s: State, c: ConnId, attempt: Attempt)
    requires c in s.conns
    ensures Calm(s, Connect(s, c, attempt)) && Calm(s, SetPhase(s, c, Replying)) && Calm(s, SetPhase(s, c, Relaying)) && Calm(s, StartClose(s, c))
  {}

  lemma ResolveDoneIsCalm(s: State, c: ConnId, attempt: Attempt)
    requires c in s.conns && (s.conns[c].job.Some? ==> s.conns[c].job.value in s.jobs)
    ensures Calm(s, ResolveDone(s, c, attempt))
  {
    hide TakeCompleted, Connect, SetPhase, Calm;
    TakeIsCalm(s, c);
    var t := TakeCompleted(s, c).0;
    ConnectIsCalm(t, c, attempt);
    CalmTrans(s, t, Connect(t, c, attempt));
    CalmTrans(s, t, SetPhase(t, c, Replying));
  }

  /** The main thread's place in its work has nothing to do with answers. */
  lemma PlaceIsCalm(s: State, main: Main, cursor: Cursor)
    ensures Calm(s, s.(main := main, cursor := cursor))
  {}

  lemma DropOriginIsCalm(s: State, c: ConnId)
    requires c in s.conns
    requires s.conns[c].originFd != -1 ==>
               s.conns[c].originFd >= 0 && s.conns[c].originFd in s.fds && s.fds[s.conns[c].originFd] == c
    requires s.conns[c].job.Some? ==> s.conns[c].job.value in s.jobs
    ensures Calm(s, RequestFail(s, c))
  {
    hide CloseFd, Calm, SetPhase;
    var ofd := s.conns[c].originFd;
    var t := DropOrigin(s, c);
    if ofd == -1 {
      PlaceIsCalm(s, s.main, s.cursor);
    } else {
      var u := s.(conns := s.conns[c := s.conns[c].(originFd := -1)]);
      ForgetFdIsCalm(s, c);
      CloseIsCalm(u, ofd);
      CalmTrans(s, u, t);
    }
    if c in t.conns {
      ConnectIsCalm(t, c, Exhausted);
      CalmTrans(s, t, SetPhase(t, c, Replying));
    }
  }

  lemma ForgetFdIsCalm(s: State, c: ConnId)
    requires c in s.conns
    ensures Calm(s, s.(conns := s.conns[c := s.conns[c].(originFd := -1)]))
  {}

  lemma VisitIsCalm(s: State, expired: bool)
    requires Inv(s) && s.main.Ready? && s.cursor.At? && s.cursor.next.Some?
    ensures Calm(s, ReaperStep(s, SweepVisit(expired)))
  {
    hide InvX, Focus, Calm, RequestFail, StartClose, Successor;
    VisitInv(s, expired);
    var c := s.cursor.next.value;
    var t := s.(cursor := At(Successor(s.list, c)));
    PlaceIsCalm(s, s.main, t.cursor);
    PlaceIsCalm(s, Taking(c), t.cursor);
    PlaceIsCalm(s, Canceling(c), t.cursor);
    ConnectIsCalm(t, c, Exhausted);
    CalmTrans(s, t, StartClose(t, c));
    DropOriginIsCalm(t, c);
    CalmTrans(s, t, RequestFail(t, c));
  }

  lemma CancelVisitIsCalm(s: State, c: ConnId)
    requires c in s.conns && s.conns[c].originFd == -1 && (s.conns[c].job.Some? ==> s.conns[c].job.value in s.jobs)
    ensures Calm(s, CancelVisit(s, c))
  {
    hide CancelConn, FreeIfUnreferenced, MarkInactive, SetPhase, Calm;
    CancelIsCalm(s, c);
    var t := CancelConn(s, c);
    FreeIsCalm(t, c);
    ConnectIsCalm(t, c, Exhausted);
    CalmTrans(s, t, SetPhase(t, c, Replying));
    var u := MarkInactive(t, c);
    FreeIsCalm(u, c);
    CalmTrans(s, t, u);
    CalmTrans(s, u, FreeIfUnreferenced(u, c));
  }

  lemma ReaperIsCalm(s: State, e: Event)
    requires Inv(s)
    ensures Calm(s, ReaperStep(s, e))
  {
    hide InvX, Focus, Calm, Visit, ResolveDone, CancelVisit;
    PlaceIsCalm(s, s.main, s.cursor);
    match e {
      case SweepStart => PlaceIsCalm(s, s.main, At(if s.list == [] then None else Some(s.list[0])));
      case SweepVisit(expired) =>
        PlaceIsCalm(s, s.main, NoSweep);
        if s.main.Ready? && s.cursor.At? && s.cursor.next.Some? {
          VisitIsCalm(s, expired);
        }
      case SweepTake(attempt) =>
        if s.main.Taking? && Fresh(s, attempt) {
          ResumeInv(s);
          var r := s.(main := Ready);
          ResolveDoneInv(r, s.main.conn, attempt);
          PlaceIsCalm(s, Ready, s.cursor);
          ResolveDoneIsCalm(r, s.main.conn, attempt);
          CalmTrans(s, r, ResolveDone(r, s.main.conn, attempt));
        }
      case SweepCancel =>
        if s.main.Canceling? {
          ResumeInv(s);
          var r := s.(main := Ready);
          CancelVisitInv(r, s.main.conn);
          PlaceIsCalm(s, Ready, s.cursor);
          CancelVisitIsCalm(r, s.main.conn);
          CalmTrans(s, r, CancelVisit(r, s.main.conn));
        }
      case _ =>
    }
  }

  // ----------------------------------------------------------------------------- the other steps

  lemma ConnectedIsCalm(s: State, c: ConnId, ok: bool, attempt: Attempt)
    requires Inv(s) && s.main.Ready? && c in s.conns && s.conns[c].regOrigin.Some? && s.conns[c].regClient.Some? && s.conns[c].job == None
    ensures Calm(s, ConnectedStep(s, c, ok, attempt))
  {
    hide InvX, Calm, CloseFd, Connect, SetPhase;
    ConnectIsCalm(s, c, attempt);
    if !ok {
      CloseOriginInv(s, c);
      CloseIsCalm(s, s.conns[c].originFd);
      var d := CloseFd(s, s.conns[c].originFd);
      ConnectIsCalm(d, c, attempt);
      ConnectIsCalm(d, c, Exhausted);
      CalmTrans(s, d, Connect(d, c, attempt));
      CalmTrans(s, d, Connect(d, c, Exhausted));
    }
  }

  /** A new connection has no job. */
  lemma AcceptKeeps(s: State, c: ConnId, fd: Fd, m: Found)
    requires Faithful(s, m) && Links(s.jobs, s.conns) && c !in s.conns
    ensures Faithful(Open(s, c, fd), m)
  {}

  /** Starting the pool: without one there are no jobs. */
  lemma StartKeeps(s: State, created: nat, m: Found)
    requires Inv(s) && s.main.Ready? && Faithful(s, m)
    ensures Faithful(PoolStart(s, created), m)
  {
    hide Tickets, Links, JobFlags, Conns, Fds, Listed, Counted, Addresses, Conserved, Focus;
    if !s.started {
      assert forall j :: j !in s.jobs;
    }
  }

  /** A queued job is neither completed nor in a worker's hands. */
  lemma QueueKeeps(s: State, c: ConnId, j: JobId, m: Found)
    requires Workers(s.workers, s.jobs, s.all) && Links(s.jobs, s.conns) && Faithful(s, m) && c in s.conns && j !in s.jobs
    ensures Faithful(QueueJob(s, c, j), m)
  {
    QueueDelivered(s, c, j, m);
    hide Delivered, Links;
    var t := QueueJob(s, c, j);
    forall w | 0 <= w < |t.workers| && t.workers[w].Publishing? && t.workers[w].job in t.jobs && !t.jobs[t.workers[w].job].canceled
      ensures var k := t.jobs[t.workers[w].job].ticket; k in m && m[k] == t.workers[w].found
    {
      assert Holds(s.workers, w, t.workers[w].job);
    }
    forall w | 0 <= w < |t.workers| && t.workers[w].Resolving? && t.workers[w].skip && t.workers[w].job in t.jobs
      ensures t.jobs[t.workers[w].job].canceled
    {
      assert Holds(s.workers, w, t.workers[w].job);
    }
  }

  lemma QueueDelivered(s: State, c: ConnId, j: JobId, m: Found)
    requires Delivered(s.jobs, s.conns, m) && c in s.conns && j !in s.jobs
    ensures Delivered(QueueJob(s, c, j).jobs, QueueJob(s, c, j).conns, m)
  {}

  lemma NameKeeps(s: State, c: ConnId, created: nat, block: JobId, m: Found)
    requires Inv(s) && s.main.Ready? && c in s.conns && s.conns[c].phase.Handshake? && s.conns[c].regClient.Some? && s.conns[c].job == None
    requires Faithful(s, m)
    ensures Faithful(NameStep(s, c, created, block), m)
  {
    hide InvX, Focus, PoolStart, QueueJob, Faithful, SetPhase, Calm;
    PoolStartInv(s, created);
    StartKeeps(s, created, m);
    var p := PoolStart(s, created);
    if !p.started || block in p.jobs {
      PhaseOf(p, c);
      ConnectIsCalm(p, c, Exhausted);
      CalmKeeps(p, SetPhase(p, c, Replying), m);
    } else {
      QueueJobInv(p, c, block);
      PartsOf(p);
      QueueKeeps(p, c, block, m);
      var q := QueueJob(p, c, block);
      if !q.conns[c].phase.Resolve? {
        PhaseOf(q, c);
        ConnectIsCalm(q, c, Exhausted);
        CalmKeeps(q, SetPhase(q, c, Replying), m);
      }
    }
  }

  lemma PartsOf(s: State)
    requires Inv(s)
    ensures Workers(s.workers, s.jobs, s.all) && Links(s.jobs, s.conns)
  {
    hide Lists, Tickets, Links, JobFlags, Workers, Conns, Fds, Listed, Counted, Addresses, Conserved, Stages, Focus;
  }

  lemma HandlerKeeps(s: State, e: Event, m: Found)
    requires Inv(s) && s.main.Ready? && s.cursor.NoSweep? && Faithful(s, m)
    ensures Faithful(HandlerStep(s, e), m)
  {
    hide InvX, Focus, Faithful, Calm, NameStep, ConnectedStep, Connect, ResolveDone, SetPhase, StartClose, Open;
    PartsOf(s);
    match e {
      case Accept(c, fd) =>
        if c !in s.conns && fd !in s.fds {
          AcceptKeeps(s, c, fd, m);
        }
      case RequestName(fd, created, block) =>
        if fd in s.fds {
          EventTarget(s, fd);
          if s.conns[s.fds[fd]].phase.Handshake? {
            NameKeeps(s, s.fds[fd], created, block, m);
          }
        }
      case RequestAddress(fd, attempt) => TargetKeeps(s, e, m);
      case Woken(fd, attempt) => TargetKeeps(s, e, m);
      case ConnectResult(fd, ok, attempt) => TargetKeeps(s, e, m);
      case ReplySent(fd) => TargetKeeps(s, e, m);
      case Finish(fd) => TargetKeeps(s, e, m);
      case _ =>
    }
  }

  lemma TargetKeeps(s: State, e: Event, m: Found)
    requires Inv(s) && s.main.Ready? && s.cursor.NoSweep? && Faithful(s, m)
    requires e.RequestAddress? || e.Woken? || e.ConnectResult? || e.ReplySent? || e.Finish?
    ensures Faithful(HandlerStep(s, e), m)
  {
    hide InvX, Focus, Faithful, Calm, ConnectedStep, Connect, ResolveDone, SetPhase, StartClose;
    var t := HandlerStep(s, e);
    if e.fd in s.fds {
      EventTarget(s, e.fd);
      var c := s.fds[e.fd];
      ConnectIsCalm(s, c, Exhausted);
      if e.RequestAddress? {
        ConnectIsCalm(s, c, e.attempt);
      } else if e.Woken? {
        ResolveDoneIsCalm(s, c, e.attempt);
      } else if e.ConnectResult? && s.conns[c].phase.Connecting? && s.conns[c].regOrigin == Some(e.fd) {
        ConnectedIsCalm(s, c, e.ok, e.attempt);
      }
      if t != s {
        CalmKeeps(s, t, m);
      }
    }
  }

  /** Everything is cancelled by the stop. */
  lemma StopKeeps(s: State, m: Found)
    requires Faithful(s, m)
    ensures Faithful(StopPool(s), m)
  {}

  lemma TakeAllKeeps(s: State, m: Found)
    requires Faithful(s, m)
    ensures Faithful(TakeAll(s), m)
  {}

  lemma ReleaseIsCalm(s: State)
    requires s.main.Releasing? && s.main.rest != [] && s.main.rest[0] in s.jobs
    requires s.jobs[s.main.rest[0]].conn.Some? ==> s.jobs[s.main.rest[0]].conn.value in s.conns
    ensures Calm(s, ReleaseOne(s))
  {
    hide CalmJobs, CalmConns, FreeIfUnreferenced;
    var j := s.main.rest[0];
    JobsCalm(s.jobs, j, s.jobs[j]);
    if s.jobs[j].conn.Some? {
      var c := s.jobs[j].conn.value;
      ConnsCalm(s.conns, c, Unlinked(s.conns[c]));
      var t := s.(conns := s.conns[c := Unlinked(s.conns[c])]);
      FreeIsCalm(t, c);
      CalmTrans(s, t, FreeIfUnreferenced(t, c));
    } else {
      PlaceIsCalm(s, s.main, s.cursor);
    }
  }

  lemma CloseDownKeeps(s: State, e: Event, m: Found)
    requires Inv(s) && Faithful(s, m)
    ensures Faithful(CloseDownStep(s, e), m)
  {
    hide InvX, Focus, Faithful, Calm, CloseStep, StopPool, TakeAll, ReleaseOne, CloseFd;
    PlaceIsCalm(s, Ready, s.cursor);
    PlaceIsCalm(s, Destroying, s.cursor);
    match e {
      case CloseNext =>
        if s.main.Closing? {
          CloseNextIsCalm(s);
          CalmKeeps(s, CloseDownStep(s, e), m);
        }
      case StopBegin => StopKeeps(s, m);
      case StopJoined => TakeAllKeeps(s, m);
      case StopRelease =>
        if s.main.Releasing? {
          if s.main.rest != [] {
            ReleaseOneInv(s);
            ReleaseIsCalm(s);
          }
          CalmKeeps(s, CloseDownStep(s, e), m);
        }
      case DestroyBegin =>
        if s.main.Ready? && s.cursor.NoSweep? {
          CalmKeeps(s, CloseDownStep(s, e), m);
        }
      case DestroyFd(fd) =>
        if s.main.Destroying? && fd in s.fds {
          DestroyFdInv(s, fd);
          CloseIsCalm(s, fd);
          CalmKeeps(s, CloseDownStep(s, e), m);
        }
      case _ =>
    }
  }

  lemma CloseNextIsCalm(s: State)
    requires Inv(s) && s.main.Closing?
    ensures Calm(s, CloseDownStep(s, CloseNext))
  {
    hide InvX, Focus, CloseFd, Calm;
    CloseStepInv(s);
    var t := CloseFd(s, s.main.fds[0]);
    CloseIsCalm(s, s.main.fds[0]);
    PlaceIsCalm(t, CloseStep(s).main, t.cursor);
    CalmTrans(s, t, CloseStep(s));
  }

  // ------------------------------------------------------------------------------- the workers

  /** No two live jobs have the same ticket, as long as there are workers. */
  lemma TicketsDiffer(s: State, j: JobId, k: JobId)
    requires Inv(s) && s.started && j in s.jobs && k in s.jobs && j != k
    ensures s.jobs[j].ticket != s.jobs[k].ticket
  {
    hide Links, JobFlags, Workers, Conns, Fds, Listed, Counted, Addresses, Conserved, Focus;
    assert j in s.all && k in s.all;
    var a :| 0 <= a < |s.all| && s.all[a] == j;
    var b :| 0 <= b < |s.all| && s.all[b] == k;
    assert a < b || b < a;
  }

  lemma PresentMeansStarted(s: State, w: nat)
    requires Inv(s) && w < |s.workers| && !s.workers[w].Absent?
    ensures s.started
  {
    hide Lists, Tickets, Links, JobFlags, Workers, Conns, Fds, Listed, Counted, Addresses, Conserved, Focus;
  }

  /** What was found is what its worker holds and, for other jobs, nothing changes. */
  lemma LookupKeeps(s: State, w: nat, answer: Option<AddrId>, m: Found)
    requires Inv(s) && Faithful(s, m) && LooksUp(s, WorkerLookup(w, answer))
    ensures Faithful(Step(s, WorkerLookup(w, answer)), Learned(s, WorkerLookup(w, answer), m))
  {
    hide InvX, Focus;
    var j := s.workers[w].job;
    PresentMeansStarted(s, w);
    PartsOf(s);
    forall k | k in s.jobs && k != j
      ensures s.jobs[k].ticket != s.jobs[j].ticket
    {
      TicketsDiffer(s, j, k);
    }
    OnlyHolder(s, w, j);
    NotCompleted(s, w, j);
  }

  lemma OnlyHolder(s: State, w: nat, j: JobId)
    requires Workers(s.workers, s.jobs, s.all) && Holds(s.workers, w, j)
    ensures forall v :: 0 <= v < |s.workers| && v != w && JobOf(s.workers[v]).Some? ==> JobOf(s.workers[v]).value != j
    ensures j in s.jobs && s.jobs[j].running
  {
    forall v | 0 <= v < |s.workers| && v != w && JobOf(s.workers[v]).Some?
      ensures JobOf(s.workers[v]).value != j
    {
      assert Holds(s.workers, v, JobOf(s.workers[v]).value);
    }
  }

  lemma NotCompleted(s: State, w: nat, j: JobId)
    requires Inv(s) && Holds(s.workers, w, j)
    ensures j in s.jobs && !s.jobs[j].completed
  {
    hide Lists, Tickets, Links, Conns, Fds, Listed, Counted, Addresses, Conserved, Stages, Focus;
  }

  lemma PopKeeps(s: State, w: nat, m: Found)
    requires Inv(s) && Faithful(s, m) && w < |s.workers| && s.workers[w].Waiting? && s.queue != []
    ensures Faithful(Step(s, WorkerPop(w)), m)
  {
    hide InvX, Focus;
    PopJobInv(s, w);
    PartsOf(s);
  }

  lemma PublishKeeps(s: State, w: nat, m: Found)
    requires Inv(s) && Faithful(s, m) && w < |s.workers| && s.workers[w].Publishing?
    ensures Faithful(Step(s, WorkerPublish(w)), m)
  {
    hide InvX, Focus, Held, Delivered, Skips;
    PublishInv(s, w);
    PartsOf(s);
    OnlyHolder(s, w, s.workers[w].job);
    PublishHeld(s, w, m);
    PublishDelivers(s, w, m);
    PublishSkips(s, w);
  }

  lemma PublishHeld(s: State, w: nat, m: Found)
    requires Held(s.jobs, s.workers, m) && w < |s.workers| && s.workers[w].Publishing? && s.workers[w].job in s.jobs
    requires s.jobs[s.workers[w].job].conn.Some? ==> s.jobs[s.workers[w].job].conn.value in s.conns
    ensures Held(Publish(s, w).jobs, Publish(s, w).workers, m)
  {}

  lemma PublishDelivers(s: State, w: nat, m: Found)
    requires Held(s.jobs, s.workers, m) && Delivered(s.jobs, s.conns, m) && Skips(s.jobs, s.workers, s.stopping) && Links(s.jobs, s.conns)
    requires w < |s.workers| && s.workers[w].Publishing? && s.workers[w].job in s.jobs
    requires s.jobs[s.workers[w].job].conn.Some? ==> s.jobs[s.workers[w].job].conn.value in s.conns
    ensures Delivered(Publish(s, w).jobs, Publish(s, w).conns, m)
  {
    var j := s.workers[w].job;
    var t := Publish(s, w);
    assert s.stopping ==> s.jobs[j].canceled;
    if s.jobs[j].conn.Some? {
      OtherConns(s.jobs, s.conns, j);
    }
    hide Links, Skips;
    forall k | k in t.jobs && t.jobs[k].completed && !t.jobs[k].canceled && t.jobs[k].conn.Some? && t.jobs[k].conn.value in t.conns
      ensures t.jobs[k].ticket in m && t.conns[t.jobs[k].conn.value].resolution == m[t.jobs[k].ticket]
    {
      hide Delivered, Held;
      if k == j {
        HeldAt(s.jobs, s.workers, m, w);
      } else {
        DeliveredAt(s.jobs, s.conns, m, k);
      }
    }
  }

  lemma HeldAt(jobs: Jobs, workers: seq<Worker>, m: Found, w: nat)
    requires Held(jobs, workers, m) && w < |workers| && workers[w].Publishing? && workers[w].job in jobs && !jobs[workers[w].job].canceled
    ensures jobs[workers[w].job].ticket in m && m[jobs[workers[w].job].ticket] == workers[w].found
  {}

  lemma DeliveredAt(jobs: Jobs, conns: Connections, m: Found, k: JobId)
    requires Delivered(jobs, conns, m) && k in jobs
    ensures jobs[k].completed && !jobs[k].canceled && jobs[k].conn.Some? && jobs[k].conn.value in conns ==>
              jobs[k].ticket in m && conns[jobs[k].conn.value].resolution == m[jobs[k].ticket]
  {}

  /** No other job is for the same connection. */
  lemma OtherConns(jobs: Jobs, conns: Connections, j: JobId)
    requires Links(jobs, conns) && j in jobs && jobs[j].conn.Some?
    ensures forall k :: k in jobs && k != j ==> jobs[k].conn != jobs[j].conn
  {}

  lemma PublishSkips(s: State, w: nat)
    requires Skips(s.jobs, s.workers, s.stopping) && w < |s.workers| && s.workers[w].Publishing? && s.workers[w].job in s.jobs
    requires s.jobs[s.workers[w].job].conn.Some? ==> s.jobs[s.workers[w].job].conn.value in s.conns
    ensures var t := Publish(s, w); Skips(t.jobs, t.workers, t.stopping)
  {}

  lemma WorkerKeeps(s: State, e: Event, m: Found)
    requires Inv(s) && Faithful(s, m) && IsWorkerEvent(e)
    ensures Faithful(Step(s, e), Learned(s, e, m))
  {
    hide InvX, Focus, PopJob, Publish, Lookup, Faithful;
    PartsOf(s);
    if e.WorkerLookup? && e.w < |s.workers| && s.workers[e.w].Resolving? {
      OnlyHolder(s, e.w, s.workers[e.w].job);
    }
    if e.w < |s.workers| {
      IdleKeeps(s, e.w, m);
      if e.WorkerPop? && s.workers[e.w].Waiting? && s.queue != [] {
        PopKeeps(s, e.w, m);
      } else if LooksUp(s, e) {
        LookupKeeps(s, e.w, e.answer, m);
      } else if e.WorkerPublish? && s.workers[e.w].Publishing? {
        PublishKeeps(s, e.w, m);
      }
    }
  }

  /** A worker that waits or has left holds nothing. */
  lemma IdleKeeps(s: State, w: nat, m: Found)
    requires w < |s.workers| && Faithful(s, m)
    ensures Faithful(s.(workers := s.workers[w := Waiting]), m) && Faithful(s.(workers := s.workers[w := Exited]), m)
  {}

  lemma StepKeeps(s: State, e: Event, m: Found)
    requires Inv(s) && Faithful(s, m)
    ensures Faithful(Step(s, e), Learned(s, e, m))
  {
    hide InvX, Focus, Faithful, WorkerStep, ReaperStep, CloseDownStep, HandlerStep;
    if IsWorkerEvent(e) {
      WorkerKeeps(s, e, m);
    } else if e.SweepStart? || e.SweepVisit? || e.SweepTake? || e.SweepCancel? {
      ReaperIsCalm(s, e);
      CalmKeeps(s, ReaperStep(s, e), m);
    } else if e.CloseNext? || e.StopBegin? || e.StopJoined? || e.StopRelease? || e.DestroyBegin? || e.DestroyFd? {
      CloseDownKeeps(s, e, m);
    } else if s.main.Ready? && s.cursor.NoSweep? {
      HandlerKeeps(s, e, m);
    }
  }

  lemma {:induction false} RunKeeps(events: seq<Event>)
    ensures Faithful(Run(events), Findings(events))
  {
    hide InvX, Focus, Faithful, Step, Learned;
    if events == [] {
      InitKeeps();
    } else {
      var before := events[..|events| - 1];
      RunKeeps(before);
      StepKeeps(Run(before), events[|events| - 1], Findings(before));
    }
  }

  lemma InitKeeps()
    ensures Faithful(INIT, map[])
  {}

  /** In every run, a connection whose job is complete, and was not cancelled, has exactly what the worker's lookup
  for that job returned. */
  lemma AnswerIsWhatWasFound(events: seq<Event>, c: ConnId)
    requires c in Run(events).conns && Run(events).conns[c].job.Some?
    ensures var s := Run(events); var j := s.conns[c].job.value;
            && j in s.jobs
            && (s.jobs[j].completed && !s.jobs[j].canceled ==>
                  s.jobs[j].ticket in Findings(events) && s.conns[c].resolution == Findings(events)[s.jobs[j].ticket])
  {
    hide Lists, Tickets, JobFlags, Workers, Conns, Fds, Listed, Counted, Addresses, Conserved, Stages, Focus, Run, Findings;
    RunKeeps(events);
    var s := Run(events);
    assert s.jobs[s.conns[c].job.value].conn == Some(c);
  }

  // ----------------------------------------------------------------------------------- the peak

  function Max(a: nat, b: nat): (r: nat) {
    if a > b then a else b
  }

  /** The greatest number of active connections so far. */
  ghost function MostActive(events: seq<Event>): (n: nat) {
    if events == [] then 0 else Max(MostActive(events[..|events| - 1]), Run(events).metrics.active)
  }

  lemma ActiveBelowPeak(s: State)
    requires Inv(s)
    ensures s.metrics.active <= s.metrics.peak
  {
    hide Lists, Tickets, Links, JobFlags, Workers, Conns, Fds, Listed, Addresses, Conserved, Stages, Focus;
  }

  lemma NamePeak(s: State, c: ConnId, created: nat, block: JobId)
    requires Inv(s) && s.main.Ready? && c in s.conns && s.conns[c].phase.Handshake? && s.conns[c].regClient.Some? && s.conns[c].job == None
    ensures NameStep(s, c, created, block).metrics == s.metrics
  {
    hide InvX, Focus;
    PoolStartInv(s, created);
    var p := PoolStart(s, created);
    if p.started && block !in p.jobs {
      QueueJobInv(p, c, block);
    }
  }

  lemma HandlerPeak(s: State, e: Event)
    requires Inv(s) && s.main.Ready? && s.cursor.NoSweep?
    ensures var t := HandlerStep(s, e); t.metrics.peak == Max(s.metrics.peak, t.metrics.active)
  {
    hide InvX, Focus, NameStep, ConnectedStep, Connect, ResolveDone, SetPhase, StartClose, Calm;
    ActiveBelowPeak(s);
    if !e.Accept? && HandlerStep(s, e) != s {
      EventTarget(s, e.fd);
      var c := s.fds[e.fd];
      ConnectIsCalm(s, c, Exhausted);
      if e.RequestName? {
        NamePeak(s, c, e.created, e.block);
      } else if e.RequestAddress? {
        ConnectIsCalm(s, c, e.attempt);
      } else if e.Woken? {
        ResolveDoneIsCalm(s, c, e.attempt);
      } else if e.ConnectResult? {
        ConnectedIsCalm(s, c, e.ok, e.attempt);
      }
      if !e.RequestName? {
        CalmPeak(s, HandlerStep(s, e));
      }
    }
  }

  lemma CalmPeak(s: State, t: State)
    requires Calm(s, t) && s.metrics.active <= s.metrics.peak
    ensures t.metrics.peak == Max(s.metrics.peak, t.metrics.active)
  {
    hide CalmJobs, CalmConns;
  }

  lemma CloseDownPeak(s: State, e: Event)
    requires Inv(s)
    ensures var t := CloseDownStep(s, e); t.metrics.peak == Max(s.metrics.peak, t.metrics.active)
  {
    hide InvX, Focus, CloseStep, ReleaseOne, CloseFd, Calm;
    ActiveBelowPeak(s);
    match e {
      case CloseNext =>
        if s.main.Closing? {
          CloseNextIsCalm(s);
          CalmPeak(s, CloseDownStep(s, e));
        }
      case StopRelease =>
        if s.main.Releasing? && s.main.rest != [] {
          ReleaseOneInv(s);
          ReleaseIsCalm(s);
          CalmPeak(s, CloseDownStep(s, e));
        }
      case DestroyFd(fd) =>
        if s.main.Destroying? && fd in s.fds {
          DestroyFdInv(s, fd);
          CloseIsCalm(s, fd);
          CalmPeak(s, CloseDownStep(s, e));
        }
      case _ =>
    }
  }

  lemma WorkerPeak(s: State, e: Event)
    requires Inv(s)
    ensures WorkerStep(s, e).metrics == s.metrics
  {
    hide InvX, Focus;
    if e.WorkerPublish? && e.w < |s.workers| && s.workers[e.w].Publishing? {
      PublishInv(s, e.w);
    } else if e.WorkerPop? && e.w < |s.workers| && s.workers[e.w].Waiting? && s.queue != [] {
      PopJobInv(s, e.w);
    }
  }

  lemma StepPeak(s: State, e: Event)
    requires Inv(s)
    ensures var t := Step(s, e); t.metrics.peak == Max(s.metrics.peak, t.metrics.active)
  {
    hide InvX, Focus, WorkerStep, ReaperStep, CloseDownStep, HandlerStep, Calm;
    ActiveBelowPeak(s);
    if IsWorkerEvent(e) {
      WorkerPeak(s, e);
    } else if e.SweepStart? || e.SweepVisit? || e.SweepTake? || e.SweepCancel? {
      ReaperIsCalm(s, e);
      CalmPeak(s, ReaperStep(s, e));
    } else if e.CloseNext? || e.StopBegin? || e.StopJoined? || e.StopRelease? || e.DestroyBegin? || e.DestroyFd? {
      CloseDownPeak(s, e);
    } else if s.main.Ready? && s.cursor.NoSweep? {
      HandlerPeak(s, e);
    }
  }

  /** The recorded maximum is the greatest number of connections that were ever active at once. */
  lemma {:induction false} PeakIsMaximum(events: seq<Event>)
    ensures Run(events).metrics.peak == MostActive(events)
  {
    hide InvX, Focus, Step;
    if events != [] {
      var before := events[..|events| - 1];
      PeakIsMaximum(before);
      StepPeak(Run(before), events[|events| - 1]);
    }
  }
}
