/** What holds in every reachable state of the resolver pool, under every interleaving. */
module PoolTheorems {
  import opened Sequences
  import opened PoolState
  import opened PoolInvariant
  import opened PoolSteps
  import opened PoolRun
  import opened PoolShutdown

  /** A worker thread's step; nothing happens when the worker is not at that point. */
  function WorkerStep(s: State, e: Event): (t: State)
    requires Inv(s)
    ensures Inv(t)
  {
    hide InvX, Focus;
    match e
    case WorkerPop(w) =>
      if w < |s.workers| && s.workers[w].Waiting? && s.queue != [] then PopJobInv(s, w); PopJob(s, w) else s
    case WorkerExit(w) =>
      if w < |s.workers| && s.workers[w].Waiting? && s.queue == [] && s.stopping then
        ExitInv(s, w); s.(workers := s.workers[w := Exited])
      else s
    case WorkerLookup(w, answer) =>
      if w < |s.workers| && s.workers[w].Resolving? && (answer.Some? ==> answer.value !in s.addrs) then
        LookupInv(s, w, answer); Lookup(s, w, answer)
      else s
    case WorkerPublish(w) =>
      if w < |s.workers| && s.workers[w].Publishing? then PublishInv(s, w); Publish(s, w) else s
    case WorkerNotify(w) =>
      if w < |s.workers| && s.workers[w].Notifying? then NotifyInv(s, w); s.(workers := s.workers[w := Waiting]) else s
    case _ => s
  }

  /** The connection behind a descriptor the selector delivers an event for is live. */
  lemma EventTarget(s: State, fd: Fd)
    requires Inv(s) && fd in s.fds && s.main.Ready?
    ensures s.fds[fd] in s.conns
    ensures var conn := s.conns[s.fds[fd]];
            && conn.regClient.Some?
            && (conn.job.Some? ==> conn.job.value in s.jobs)
            && (!conn.phase.Resolve? ==> conn.job == None)
            && (conn.phase.Handshake? ==> conn.regOrigin == None)
  {
    hide Lists, Tickets, JobFlags, Workers, Listed, Counted, Addresses, Stages, Conserved, Focus;
    OwnerOf(s.fds, s.conns, s.jobs, fd);
    ConnOfAny(s.conns, s.main, None, s.fds[fd]);
  }

  ghost predicate Fresh(s: State, attempt: Attempt) {
    attempt.Registered? ==> attempt.fd !in s.fds
  }

  /** request_read for a domain name: start the pool if needed, queue the job, or fail the request. */
  ghost function NameStep(s: State, c: ConnId, created: nat, block: JobId): (t: State)
    requires Inv(s) && s.main.Ready? && c in s.conns && s.conns[c].phase.Handshake? && s.conns[c].regClient.Some? && s.conns[c].job == None
    ensures Inv(t)
  {
    hide InvX, Focus, PoolStart, QueueJob;
    PoolStartInv(s, created);
    var p := PoolStart(s, created);
    if !p.started || block in p.jobs then PhaseOf(p, c); SetPhase(p, c, Replying)
    else
      QueueJobInv(p, c, block);
      var q := QueueJob(p, c, block);
      if q.conns[c].phase.Resolve? then q else PhaseOf(q, c); SetPhase(q, c, Replying)
  }

  lemma PhaseOf(s: State, c: ConnId)
    requires Inv(s) && s.main.Ready? && c in s.conns && s.conns[c].job == None && s.conns[c].regClient.Some?
    ensures Inv(SetPhase(s, c, Replying)) && Inv(SetPhase(s, c, Relaying))
  {
    hide Lists, Tickets, Links, JobFlags, Workers, Conns, Fds, Listed, Counted, Conserved, Addresses, Stages, Focus;
    PhaseInv(s, None, c, Replying);
    PhaseInv(s, None, c, Relaying);
  }

  /** The end of a non-blocking connect: success, or the next address after closing this socket. */
  ghost function ConnectedStep(s: State, c: ConnId, ok: bool, attempt: Attempt): (t: State)
    requires Inv(s) && s.main.Ready? && c in s.conns && s.conns[c].regOrigin.Some? && s.conns[c].regClient.Some? && s.conns[c].job == None
    ensures Inv(t)
  {
    hide InvX;
    if ok then PhaseOf(s, c); SetPhase(s, c, Replying)
    else
      CloseOriginInv(s, c);
      var d := CloseFd(s, s.conns[c].originFd);
      assert d.main.Ready?;
      if Fresh(d, attempt) then ConnectInv(d, None, c, attempt); Connect(d, c, attempt)
      else ConnectInv(d, None, c, Exhausted); Connect(d, c, Exhausted)
  }

  /** The main thread in a selector handler. */
  ghost function HandlerStep(s: State, e: Event): (t: State)
    requires Inv(s) && s.main.Ready? && s.cursor.NoSweep?
    ensures Inv(t)
  {
    hide InvX, Focus;
    match e
    case Accept(c, fd) =>
      if c !in s.conns && fd !in s.fds then AcceptInv(s, c, fd); Open(s, c, fd) else s
    case RequestName(fd, created, block) =>
      if fd !in s.fds then s else
      EventTarget(s, fd);
      if s.conns[s.fds[fd]].phase.Handshake? then NameStep(s, s.fds[fd], created, block) else s
    case RequestAddress(fd, attempt) =>
      if fd !in s.fds then s else
      EventTarget(s, fd);
      if s.conns[s.fds[fd]].phase.Handshake? && Fresh(s, attempt) then
        AddressInv(s, s.fds[fd], attempt); Connect(s, s.fds[fd], attempt)
      else s
    case Woken(fd, attempt) =>
      if fd !in s.fds then s else
      EventTarget(s, fd);
      if s.conns[s.fds[fd]].phase.Resolve? && Fresh(s, attempt) then
        ResolveDoneInv(s, s.fds[fd], attempt); ResolveDone(s, s.fds[fd], attempt)
      else s
    case ConnectResult(fd, ok, attempt) =>
      if fd !in s.fds then s else
      EventTarget(s, fd);
      if s.conns[s.fds[fd]].phase.Connecting? && s.conns[s.fds[fd]].regOrigin == Some(fd) then ConnectedStep(s, s.fds[fd], ok, attempt) else s
    case ReplySent(fd) =>
      if fd !in s.fds then s else
      EventTarget(s, fd);
      if s.conns[s.fds[fd]].phase.Replying? && s.conns[s.fds[fd]].regOrigin.Some? then
        PhaseOf(s, s.fds[fd]); SetPhase(s, s.fds[fd], Relaying)
      else s
    case Finish(fd) =>
      if fd !in s.fds then s else
      EventTarget(s, fd);
      StartCloseInv(s, s.fds[fd]); StartClose(s, s.fds[fd])
    case _ => s
  }

  lemma AddressInv(s: State, c: ConnId, attempt: Attempt)
    requires Inv(s) && s.main.Ready? && Fresh(s, attempt)
    requires c in s.conns && s.conns[c].job == None && s.conns[c].regClient.Some? && s.conns[c].regOrigin == None
    ensures Inv(Connect(s, c, attempt))
  {
    hide Lists, Tickets, Links, JobFlags, Workers, Conns, Fds, Listed, Counted, Conserved, Addresses, Stages, Focus;
    ConnectInv(s, None, c, attempt);
  }

  /** The main thread in the reaper. */
  ghost function ReaperStep(s: State, e: Event): (t: State)
    requires Inv(s)
    ensures Inv(t)
  {
    hide InvX, Focus;
    match e
    case SweepStart =>
      if s.main.Ready? && s.cursor.NoSweep? then
        var first := At(if s.list == [] then None else Some(s.list[0]));
        SweepStartInv(s, first); s.(cursor := first)
      else s
    case SweepVisit(expired) =>
      if s.main.Ready? && s.cursor.At? then
        if s.cursor.next.Some? then VisitInv(s, expired); Visit(s, expired)
        else SweepEndInv(s); s.(cursor := NoSweep)
      else s
    case SweepTake(attempt) =>
      if s.main.Taking? && Fresh(s, attempt) then
        ResumeInv(s); ResolveDoneInv(s.(main := Ready), s.main.conn, attempt);
        ResolveDone(s.(main := Ready), s.main.conn, attempt)
      else s
    case SweepCancel =>
      if s.main.Canceling? then
        ResumeInv(s); CancelVisitInv(s.(main := Ready), s.main.conn);
        CancelVisit(s.(main := Ready), s.main.conn)
      else s
    case _ => s
  }

  lemma SweepStartInv(s: State, first: Cursor)
    requires Inv(s) && s.main.Ready? && s.cursor.NoSweep?
    requires first == At(if s.list == [] then None else Some(s.list[0]))
    ensures Inv(s.(cursor := first))
  {
    hide Lists, Tickets, Links, JobFlags, Workers, Conns, Fds, Counted, Conserved, Addresses, Stages;
    assert s.list != [] ==> s.list[0] in s.conns;
    MoveInv(s, Ready, first);
  }

  lemma SweepEndInv(s: State)
    requires Inv(s) && s.main.Ready?
    ensures Inv(s.(cursor := NoSweep))
  {
    hide Lists, Tickets, Links, JobFlags, Workers, Conns, Fds, Listed, Counted, Conserved, Addresses, Stages;
    MoveInv(s, Ready, NoSweep);
  }

  lemma ResumeInv(s: State)
    requires Inv(s) && (s.main.Taking? || s.main.Canceling?)
    ensures Inv(s.(main := Ready)) && s.main.conn in s.conns && s.conns[s.main.conn].phase.Resolve?
  {
    hide Lists, Tickets, Links, JobFlags, Workers, Conns, Fds, Listed, Counted, Conserved, Addresses, Stages;
    MoveInv(s, Ready, s.cursor);
  }

  /** The main thread closing a connection or shutting down. */
  ghost function CloseDownStep(s: State, e: Event): (t: State)
    requires Inv(s)
    ensures Inv(t)
  {
    hide InvX, Focus;
    match e
    case CloseNext => if s.main.Closing? then CloseStepInv(s); CloseStep(s) else s
    case StopBegin => if s.main.Ready? && s.cursor.NoSweep? then StopPoolInv(s); StopPool(s) else s
    case StopJoined => if Joined(s) then TakeAllInv(s); TakeAll(s) else s
    case StopRelease =>
      if !s.main.Releasing? then s
      else if s.main.rest != [] then ReleaseOneInv(s); ReleaseOne(s)
      else ReleasedInv(s); s.(main := Ready)
    case DestroyBegin => if s.main.Ready? && s.cursor.NoSweep? then DestroyBeginInv(s); s.(main := Destroying) else s
    case DestroyFd(fd) => if s.main.Destroying? && fd in s.fds then DestroyFdInv(s, fd); CloseFd(s, fd) else s
    case _ => s
  }

  lemma DestroyBeginInv(s: State)
    requires Inv(s) && s.main.Ready? && s.cursor.NoSweep?
    ensures Inv(s.(main := Destroying))
  {
    hide Lists, Tickets, Links, JobFlags, Workers, Conns, Fds, Listed, Counted, Conserved, Addresses, Stages;
    MoveInv(s, Destroying, NoSweep);
  }

  /** One step of the whole system. */
  ghost function Step(s: State, e: Event): (t: State)
    requires Inv(s)
    ensures Inv(t)
  {
    hide InvX, Focus;
    if e.WorkerPop? || e.WorkerExit? || e.WorkerLookup? || e.WorkerPublish? || e.WorkerNotify? then WorkerStep(s, e)
    else if e.SweepStart? || e.SweepVisit? || e.SweepTake? || e.SweepCancel? then ReaperStep(s, e)
    else if e.CloseNext? || e.StopBegin? || e.StopJoined? || e.StopRelease? || e.DestroyBegin? || e.DestroyFd? then CloseDownStep(s, e)
    else if s.main.Ready? && s.cursor.NoSweep? then HandlerStep(s, e)
    else s
  }

  ghost function Run(events: seq<Event>): (s: State)
    ensures Inv(s)
  {
    hide InvX, Focus;
    if events == [] then InitInv(); INIT
    else Step(Run(events[..|events| - 1]), events[|events| - 1])
  }

  // ------------------------------------------------------------------------- the main theorems

  /** In every reachable state, a job points to a connection exactly when that connection points back
  to it; both are live, and the connection is waiting in REQ_RESOLVE with its client registered. */
  lemma LinksAreExact(events: seq<Event>, j: JobId, c: ConnId)
    ensures var s := Run(events);
            && (j in s.jobs && s.jobs[j].conn == Some(c) <==> c in s.conns && s.conns[c].job == Some(j))
            && (j in s.jobs && s.jobs[j].conn == Some(c) ==>
                  s.conns[c].phase.Resolve? && (s.main.Destroying? || s.conns[c].regClient.Some?))
  {
    hide Lists, Tickets, JobFlags, Workers, Fds, Listed, Counted, Addresses, Stages, Conserved, Focus, Run;
    var s := Run(events);
    if c in s.conns {
      ConnOfAny(s.conns, s.main, None, c);
    }
  }

  /** In every reachable state the counter is the length of the all-jobs list, at most 64; the queue
  holds, oldest first and without repetition, exactly the jobs that are neither running nor completed. */
  lemma QueueIsFifo(events: seq<Event>)
    ensures var s := Run(events);
            && s.inSystem == |s.all| <= RESOLVER_MAX_JOBS
            && (forall j :: j in s.queue <==> j in s.jobs && j in s.all && !s.jobs[j].running && !s.jobs[j].completed)
            && (forall i :: 0 <= i < |s.queue| ==> s.queue[i] in s.jobs)
            && (forall i, k :: 0 <= i < k < |s.queue| ==> s.jobs[s.queue[i]].ticket < s.jobs[s.queue[k]].ticket)
            && (!s.main.Releasing? ==> forall j :: j in s.jobs <==> j in s.all)
  {
    hide Links, JobFlags, Workers, Conns, Fds, Listed, Counted, Addresses, Stages, Conserved, Focus, Run;
    var s := Run(events);
    forall j
      ensures j in s.queue <==> j in s.jobs && j in s.all && !s.jobs[j].running && !s.jobs[j].completed
    {
      assert j in s.queue <==> Queued(s.jobs, s.all, j);
    }
  }

  /** In every reachable state a connection's count is the number of its registered descriptors plus
  its pending job, it is positive, and the connection is in the list; so it is unlinked and freed at
  the step that brings the count to zero, and not before. */
  lemma ReferencesAreExact(events: seq<Event>, c: ConnId)
    ensures var s := Run(events);
            && (c in s.conns <==> c in s.list)
            && (c in s.conns ==>
                  && s.conns[c].references == |set fd | fd in s.fds && s.fds[fd] == c| + One(s.conns[c].job.Some?)
                  && s.conns[c].references > 0)
  {
    hide Lists, Tickets, JobFlags, Workers, Links, Counted, Addresses, Stages, Conserved, Focus, Run, Fds, Conns;
    var s := Run(events);
    if c in s.conns {
      ConnOfAny(s.conns, s.main, None, c);
      FdsOf(s.fds, s.conns, c);
      OwnedFds(s.fds, c, s.conns[c]);
    }
  }

  ghost predicate OwnsExactly(fds: map<Fd, ConnId>, c: ConnId, conn: Conn) {
    && (conn.regClient.Some? ==> conn.regClient.value in fds)
    && (conn.regOrigin.Some? ==> conn.regOrigin.value in fds)
    && (forall fd {:trigger fds[fd]} :: fd in fds ==> (fds[fd] == c <==> conn.regClient == Some(fd) || conn.regOrigin == Some(fd)))
  }

  lemma FdsOf(fds: map<Fd, ConnId>, conns: Connections, c: ConnId)
    requires Fds(fds, conns) && c in conns
    ensures OwnsExactly(fds, c, conns[c])
  {
    var conn := conns[c];
  }

  lemma OwnedFds(fds: map<Fd, ConnId>, c: ConnId, conn: Conn)
    requires OwnsExactly(fds, c, conn) && (conn.regClient.Some? ==> conn.regClient != conn.regOrigin)
    ensures |set fd | fd in fds && fds[fd] == c| == One(conn.regClient.Some?) + One(conn.regOrigin.Some?)
  {
    var owned := set fd | fd in fds && fds[fd] == c;
    var client := if conn.regClient.Some? then {conn.regClient.value} else {};
    var origin := if conn.regOrigin.Some? then {conn.regOrigin.value} else {};
    assert client !! origin;
    assert |client + origin| == |client| + |origin|;
    assert owned == client + origin;
  }

  /** Blocks allocated equal blocks freed plus blocks live, for jobs and for connections; the active
  gauge counts the listed connections still flagged, and never exceeds the recorded peak. */
  lemma NothingFreedTwice(events: seq<Event>)
    ensures var s := Run(events);
            && s.jobAllocs == s.jobFrees + |s.jobs|
            && s.connAllocs == s.connFrees + |s.conns| == s.metrics.historical
            && s.metrics.active == |set c | c in s.list && s.conns[c].counted| <= s.metrics.peak
  {
    hide Lists, Tickets, JobFlags, Workers, Links, Conns, Fds, Addresses, Stages, Focus, Run;
    var s := Run(events);
    assert (set c | c in s.list && s.conns[c].counted) == Active(s.conns);
  }

  /** A worker outside the mutex, or about to enter it, holds a job that is live, running and held by
  no other worker, and whose connection, if it still has one, is live. */
  lemma WorkersTouchLiveMemory(events: seq<Event>, w: nat)
    requires w < |Run(events).workers| && JobOf(Run(events).workers[w]).Some?
    ensures var s := Run(events); var j := JobOf(s.workers[w]).value;
            && j in s.jobs && s.jobs[j].running
            && (s.jobs[j].conn.Some? ==> s.jobs[j].conn.value in s.conns)
            && (forall v :: 0 <= v < |s.workers| && JobOf(s.workers[v]) == Some(j) ==> v == w)
  {
    hide Lists, Tickets, JobFlags, Conns, Fds, Listed, Counted, Addresses, Stages, Conserved, Focus, Run;
    var s := Run(events);
    var j := JobOf(s.workers[w]).value;
    assert Holds(s.workers, w, j);
    forall v | 0 <= v < |s.workers| && JobOf(s.workers[v]) == Some(j)
      ensures v == w
    {
      assert Holds(s.workers, v, j);
    }
  }

  /** The connection the main thread is working on and the reaper's saved pointer are always live. */
  lemma SavedPointersAreLive(events: seq<Event>)
    ensures var s := Run(events);
            && (s.main.Closing? || s.main.Taking? || s.main.Canceling? ==> s.main.conn in s.conns)
            && (s.cursor.At? && s.cursor.next.Some? ==> s.cursor.next.value in s.conns)
  {
    hide Lists, Tickets, Links, JobFlags, Workers, Conns, Fds, Listed, Counted, Addresses, Stages, Conserved, Run;
  }

  /** No connection is stranded: one that waits for a name has its answer already, or a live job that is queued or
  in the hands of a worker, while some worker can move and every move of a worker leaves less to do. */
  lemma WaitingIsNeverStranded(events: seq<Event>, c: ConnId)
    requires c in Run(events).conns && Run(events).conns[c].phase.Resolve?
    ensures var s := Run(events);
            s.conns[c].done
            || (&& s.conns[c].job.Some? && s.conns[c].job.value in s.jobs && !s.jobs[s.conns[c].job.value].completed
                && (s.conns[c].job.value in s.queue || exists w :: Holds(s.workers, w, s.conns[c].job.value))
                && (exists e :: IsWorkerEvent(e) && Step(s, e) != s && Step(s, e) == WorkerStep(s, e)))
    ensures forall e :: IsWorkerEvent(e) && Step(Run(events), e) != Run(events) ==> Remaining(Step(Run(events), e)) < Remaining(Run(events))
  {
    hide Lists, Tickets, Workers, Fds, Listed, Counted, Addresses, Stages, Conserved, Focus, Run;
    var s := Run(events);
    ConnOfAny(s.conns, s.main, None, c);
    if s.conns[c].job.Some? {
      assert s.jobs[s.conns[c].job.value].conn == Some(c);
      if !s.conns[c].done {
        UnfinishedIsUnderWay(s, s.conns[c].job.value);
      }
    }
    forall e | IsWorkerEvent(e) && Step(s, e) != s
      ensures Remaining(Step(s, e)) < Remaining(s)
    {
      WorkerGetsCloser(s, e);
    }
  }

  /** When the last descriptor is gone and the pool is stopped, every block has been freed. */
  lemma ShutdownFreesEverything(events: seq<Event>)
    requires var s := Run(events); s.fds == map[] && !s.started && Rest(s.main) == []
    ensures var s := Run(events);
            && s.conns == map[] && s.jobs == map[] && s.addrs == map[]
            && s.jobAllocs == s.jobFrees && s.connAllocs == s.connFrees && s.metrics.active == 0
  {
    hide Tickets, Links, JobFlags, Run;
    var s := Run(events);
    forall c
      ensures c !in s.conns
    {
      if c in s.conns {
        ConnOfAny(s.conns, s.main, None, c);
      }
    }
    assert s.conns == map[];
    assert s.jobs == map[];
    assert Active(s.conns) == {};
    assert forall w | 0 <= w < |s.workers| :: Found(s.workers[w]) == None;
    assert s.addrs == map[];
  }

  // --------------------------------------------------------------------- the stop always completes

  function Rank(w: Worker): (n: nat) {
    match w
    case Waiting => 1
    case Notifying(_) => 2
    case Publishing(_, _) => 3
    case Resolving(_, _) => 4
    case _ => 0
  }

  function Ranks(workers: seq<Worker>): (n: nat) {
    if workers == [] then 0 else Rank(workers[0]) + Ranks(workers[1..])
  }

  lemma {:induction false} RanksUpdate(workers: seq<Worker>, w: nat, worker: Worker)
    requires w < |workers|
    ensures Ranks(workers[w := worker]) == Ranks(workers) - Rank(workers[w]) + Rank(worker)
  {
    if w == 0 {
      assert workers[w := worker][1..] == workers[1..];
    } else {
      assert workers[w := worker][1..] == workers[1..][w - 1 := worker];
      RanksUpdate(workers[1..], w - 1, worker);
    }
  }

  /** What is left for the workers to do before they have all exited. */
  function Remaining(s: State): (n: nat) {
    4 * |s.queue| + Ranks(s.workers)
  }

  ghost predicate IsWorkerEvent(e: Event) {
    e.WorkerPop? || e.WorkerExit? || e.WorkerLookup? || e.WorkerPublish? || e.WorkerNotify?
  }

  /** While pool_stop joins the workers, every step of a worker brings the join closer, and no other
  thread can move except to notice that all have exited. */
  lemma JoinGetsCloser(s: State, e: Event)
    requires Inv(s) && s.main.Joining?
    ensures Step(s, e) == s || (Joined(s) && Step(s, e) == TakeAll(s))
            || (Step(s, e).main.Joining? && Remaining(Step(s, e)) < Remaining(s))
  {
    hide Lists, Tickets, Links, JobFlags, Workers, Conns, Fds, Listed, Counted, Addresses, Conserved, Focus;
    hide Ranks;
    if IsWorkerEvent(e) {
      WorkerGetsCloser(s, e);
    } else if e.SweepStart? || e.SweepVisit? || e.SweepTake? || e.SweepCancel? {
      assert ReaperStep(s, e) == s;
    }
  }

  /** Whether or not the pool is being stopped, a worker's step leaves the workers less to do, and the main thread
  where it is. */
  lemma WorkerGetsCloser(s: State, e: Event)
    requires Inv(s)
    ensures WorkerStep(s, e) == s || (WorkerStep(s, e).main == s.main && Remaining(WorkerStep(s, e)) < Remaining(s))
  {
    hide InvX, Focus, Ranks;
    var t := WorkerStep(s, e);
    if t != s {
      var w := e.w;
      if e.WorkerPublish? {
        PublishInv(s, w);
      } else if e.WorkerPop? {
        PopJobInv(s, w);
      }
      RanksUpdate(s.workers, w, t.workers[w]);
    }
  }

  /** Where a worker stands, it can move on: unless it waits with nothing to do, or is not there. */
  lemma WorkerMoves(s: State, w: nat) returns (e: Event)
    requires Inv(s) && w < |s.workers| && !s.workers[w].Absent? && !s.workers[w].Exited?
    requires s.workers[w].Waiting? ==> s.queue != [] || s.stopping
    ensures IsWorkerEvent(e) && Step(s, e) != s && Step(s, e) == WorkerStep(s, e)
  {
    hide InvX, Focus, PopJob, Publish, Lookup;
    match s.workers[w] {
      case Waiting => e := if s.queue != [] then WorkerPop(w) else WorkerExit(w);
      case Resolving(_, _) => e := WorkerLookup(w, None);
      case Publishing(_, _) => e := WorkerPublish(w);
      case Notifying(_) => e := WorkerNotify(w);
    }
    Leaves(s, w);
    assert WorkerStep(s, e).workers[w] != s.workers[w];
  }

  /** Each of a worker's critical sections leaves it at another point. */
  lemma Leaves(s: State, w: nat)
    requires Inv(s) && w < |s.workers|
    ensures s.queue != [] ==> s.queue[0] in s.jobs && |PopJob(s, w).workers| == |s.workers| && PopJob(s, w).workers[w].Resolving?
    ensures s.workers[w].Resolving? ==> |Lookup(s, w, None).workers| == |s.workers| && Lookup(s, w, None).workers[w].Publishing?
    ensures s.workers[w].Publishing? ==>
              && s.workers[w].job in s.jobs
              && (s.jobs[s.workers[w].job].conn.Some? ==> s.jobs[s.workers[w].job].conn.value in s.conns)
              && |Publish(s, w).workers| == |s.workers| && !Publish(s, w).workers[w].Publishing?
  {
    hide InvX, Focus;
    if s.queue != [] {
      FirstLive(s);
    }
    if s.workers[w].Publishing? {
      PublishInv(s, w);
    }
  }

  lemma FirstLive(s: State)
    requires Inv(s) && s.queue != []
    ensures s.queue[0] in s.jobs
  {
    hide Tickets, Links, JobFlags, Workers, Conns, Fds, Listed, Counted, Conserved, Addresses, Stages, Focus;
    assert Queued(s.jobs, s.all, s.queue[0]);
  }

  /** And there is always a step to take: the join cannot hang. */
  lemma JoinIsNeverStuck(s: State)
    requires Inv(s) && s.main.Joining? && !Joined(s)
    ensures exists e :: Step(s, e) != s && Step(s, e).main.Joining?
  {
    hide Lists, Tickets, Links, JobFlags, Workers, Conns, Fds, Listed, Counted, Addresses, Conserved, Focus, Ranks;
    var w :| 0 <= w < |s.workers| && !s.workers[w].Exited?;
    var e := WorkerMoves(s, w);
    WorkerGetsCloser(s, e);
    assert Step(s, e) != s && Step(s, e).main.Joining?;
  }

  // ------------------------------------------------------------------------ every name is answered

  /** A job that is not completed is queued or in the hands of one worker, and some worker can move. */
  lemma UnfinishedIsUnderWay(s: State, j: JobId)
    requires Inv(s) && j in s.jobs && !s.jobs[j].completed
    ensures j in s.queue || exists w :: Holds(s.workers, w, j)
    ensures exists e :: IsWorkerEvent(e) && Step(s, e) != s && Step(s, e) == WorkerStep(s, e)
  {
    hide Tickets, Links, JobFlags, Conns, Fds, Listed, Counted, Addresses, Conserved, Focus;
    assert j in s.all;
    var w: nat;
    if s.jobs[j].running {
      w :| Holds(s.workers, w, j);
    } else {
      assert Queued(s.jobs, s.all, j);
      w := 0;
    }
    MoverReady(s, w);
    var e := WorkerMoves(s, w);
  }

  lemma MoverReady(s: State, w: nat)
    requires Inv(s) && w < |s.workers| && s.all != [] && (s.queue != [] || JobOf(s.workers[w]).Some?)
    ensures !s.workers[w].Absent? && !s.workers[w].Exited? && (s.workers[w].Waiting? ==> s.queue != [])
  {
    hide Lists, Tickets, Links, JobFlags, Workers, Conns, Fds, Listed, Counted, Addresses, Conserved, Focus;
  }

  /** A worker's step takes no answer from a connection that waits, and does not take its job away. */
  lemma StillWaiting(s: State, e: Event, c: ConnId)
    requires Inv(s) && c in s.conns && s.conns[c].phase.Resolve?
    ensures var t := WorkerStep(s, e); c in t.conns && t.conns[c].phase.Resolve? && (s.conns[c].done ==> t.conns[c].done)
  {
    hide InvX, Focus;
    if e.WorkerPublish? && e.w < |s.workers| && s.workers[e.w].Publishing? {
      PublishInv(s, e.w);
    }
  }

  /** However the workers take turns, each turn that does anything leaves less to do, so they soon stop; and where
  they stop, every connection that waits for a name has its answer. */
  lemma WaitingIsAnswered(s: State, c: ConnId)
    requires Inv(s) && c in s.conns && s.conns[c].phase.Resolve?
    requires forall e :: IsWorkerEvent(e) ==> WorkerStep(s, e) == s
    ensures s.conns[c].done
  {
    hide Lists, Tickets, Workers, Fds, Listed, Counted, Addresses, Stages, Conserved, Focus;
    ConnOfAny(s.conns, s.main, None, c);
    if !s.conns[c].done {
      var j := s.conns[c].job.value;
      assert s.jobs[j].conn == Some(c);
      UnfinishedIsUnderWay(s, j);
    }
  }

  /** Every run can be continued by the workers alone to one in which a waiting connection has its answer. */
  lemma {:induction false} AnswerArrives(events: seq<Event>, c: ConnId) returns (more: seq<Event>)
    requires c in Run(events).conns && Run(events).conns[c].phase.Resolve?
    ensures |more| <= Remaining(Run(events)) && forall i :: 0 <= i < |more| ==> IsWorkerEvent(more[i])
    ensures c in Run(events + more).conns && Run(events + more).conns[c].done
    decreases Remaining(Run(events))
  {
    hide InvX, Focus, WorkerStep, Step, Remaining, Run;
    var s := Run(events);
    if s.conns[c].done {
      more := [];
      assert events + more == events;
    } else {
      var e := SomeMove(s, c);
      WorkerGetsCloser(s, e);
      StillWaiting(s, e, c);
      RunMore(events, e);
      var rest := AnswerArrives(events + [e], c);
      more := [e] + rest;
      assert events + more == events + [e] + rest;
    }
  }

  lemma RunMore(events: seq<Event>, e: Event)
    requires IsWorkerEvent(e)
    ensures Run(events + [e]) == WorkerStep(Run(events), e)
  {
    hide InvX, Focus, WorkerStep;
    var all := events + [e];
    assert all[..|all| - 1] == events;
  }

  lemma SomeMove(s: State, c: ConnId) returns (e: Event)
    requires Inv(s) && c in s.conns && s.conns[c].phase.Resolve? && !s.conns[c].done
    ensures IsWorkerEvent(e) && WorkerStep(s, e) != s
  {
    hide InvX, Focus, WorkerStep;
    if forall e :: IsWorkerEvent(e) ==> WorkerStep(s, e) == s {
      WaitingIsAnswered(s, c);
    }
    e :| IsWorkerEvent(e) && WorkerStep(s, e) != s;
  }
}
