/** The reaper's sweep, the ordered stop of the pool and the teardown of the selector. */
module PoolShutdown {
  import opened Sequences
  import opened PoolState
  import opened PoolInvariant
  import opened PoolFrames
  import opened PoolMain
  import opened PoolRun

  /** Moving the main thread or the cursor, nothing else. */
  lemma MoveInv(s: State, main: Main, cursor: Cursor)
    requires Inv(s) && Rest(s.main) == [] && Rest(main) == [] && !s.main.Closing? && !main.Closing?
    requires !s.main.Joining? && !main.Joining? && !s.main.Releasing? && !main.Releasing?
    requires s.main.Destroying? ==> main.Destroying?
    requires main.Destroying? ==> cursor.NoSweep?
    requires Focus(main, cursor, s.conns)
    ensures Inv(s.(main := main, cursor := cursor))
  {
    hide Lists, Tickets, Links, JobFlags, Workers, Conns, Fds, Listed, Counted, Addresses, Stages, Focus;
    StagesMain(s, s.(main := main, cursor := cursor));
    ConnsMain(s.conns, s.main, main);
  }

  lemma ConnsMain(conns: Connections, main: Main, main': Main)
    requires Conns(conns, main, None) && !main.Closing? && !main'.Closing? && (main.Destroying? ==> main'.Destroying?)
    ensures Conns(conns, main', None)
  {}

  // --------------------------------------------------------------------------------- the reaper

  lemma {:induction false} SuccessorLive(list: seq<ConnId>, c: ConnId)
    requires NoDup(list)
    ensures Successor(list, c).Some? ==> Successor(list, c).value in list && Successor(list, c).value != c
  {
    if list != [] && list[0] != c {
      SuccessorLive(list[1..], c);
    }
  }

  /** request_fail: the origin, if any, is unregistered and the reply is queued. */
  function RequestFail(s: State, c: ConnId): (r: State)
    requires c in s.conns
    requires s.conns[c].originFd != -1 ==>
               s.conns[c].originFd >= 0 && s.conns[c].originFd in s.fds && s.fds[s.conns[c].originFd] == c
    requires s.conns[c].job.Some? ==> s.conns[c].job.value in s.jobs
  {
    var t := DropOrigin(s, c);
    if c in t.conns then SetPhase(t, c, Replying) else t
  }

  /** One turn of the loop of socks5_reap_idle, up to the first lock it takes. */
  function Visit(s: State, expired: bool): (r: State)
    requires s.cursor.At? && s.cursor.next.Some? && s.cursor.next.value in s.conns
    requires var c := s.cursor.next.value;
             && (s.conns[c].originFd != -1 ==>
                   s.conns[c].originFd >= 0 && s.conns[c].originFd in s.fds && s.fds[s.conns[c].originFd] == c)
             && (s.conns[c].job.Some? ==> s.conns[c].job.value in s.jobs)
  {
    var c := s.cursor.next.value;
    var t := s.(cursor := At(Successor(s.list, c)));
    if s.conns[c].phase.Resolve? && s.conns[c].done then t.(main := Taking(c))
    else if !expired then t
    else if s.conns[c].phase.Connecting? then RequestFail(t, c)
    else if s.conns[c].phase.Resolve? then t.(main := Canceling(c))
    else StartClose(t, c)
  }

  lemma FieldsOf(s: State, c: ConnId)
    requires Conns(s.conns, s.main, None) && Fds(s.fds, s.conns) && Links(s.jobs, s.conns) && c in s.conns && !s.main.Closing?
    ensures s.conns[c].originFd != -1 ==>
              s.conns[c].originFd >= 0 && s.conns[c].originFd in s.fds && s.fds[s.conns[c].originFd] == c
    ensures s.conns[c].originFd != -1 <==> s.conns[c].regOrigin.Some?
    ensures s.conns[c].job.Some? ==> s.conns[c].job.value in s.jobs
    ensures s.conns[c].clientFd == FdOf(s.conns[c].regClient)
  {}

  lemma VisitInv(s: State, expired: bool)
    requires Inv(s) && s.main.Ready? && s.cursor.At? && s.cursor.next.Some?
    ensures s.cursor.next.value in s.conns
    ensures var c := s.cursor.next.value;
            && (s.conns[c].originFd != -1 ==>
                  s.conns[c].originFd >= 0 && s.conns[c].originFd in s.fds && s.fds[s.conns[c].originFd] == c)
            && (s.conns[c].job.Some? ==> s.conns[c].job.value in s.jobs)
    ensures Inv(Visit(s, expired))
  {
    hide Lists, Tickets, Links, JobFlags, Workers, Conns, Fds, Listed, Counted, Conserved, Addresses, Stages, Focus;
    hide StartClose, DropOrigin;
    VisitTarget(s.main, s.cursor, s.list, s.conns);
    var c := s.cursor.next.value;
    FieldsOf(s, c);
    var next := At(Successor(s.list, c));
    var t := s.(cursor := next);
    MoveInv(s, Ready, next);
    if s.conns[c].phase.Resolve? && s.conns[c].done {
      MoveInv(t, Taking(c), next);
    } else if expired {
      if s.conns[c].phase.Connecting? {
        ConnOfAny(s.conns, s.main, None, c);
        RequestFailInv(t, c);
      } else if s.conns[c].phase.Resolve? {
        MoveInv(t, Canceling(c), next);
      } else {
        StartCloseInv(t, c);
      }
    }
  }

  lemma VisitTarget(main: Main, cursor: Cursor, list: seq<ConnId>, conns: Connections)
    requires Focus(main, cursor, conns) && Listed(list, conns) && main.Ready? && cursor.At? && cursor.next.Some?
    ensures var c := cursor.next.value; var next := At(Successor(list, c));
            && c in conns
            && next.next != Some(c)
            && Focus(Ready, next, conns)
            && (conns[c].phase.Resolve? && conns[c].done ==> Focus(Taking(c), next, conns))
            && (conns[c].phase.Resolve? ==> Focus(Canceling(c), next, conns))
  {
    SuccessorLive(list, cursor.next.value);
  }

  lemma RequestFailInv(s: State, c: ConnId)
    requires Inv(s) && s.main.Ready? && c in s.conns && s.conns[c].regClient.Some? && s.conns[c].job == None
    requires s.conns[c].originFd != -1 ==>
               s.conns[c].originFd >= 0 && s.conns[c].originFd in s.fds && s.fds[s.conns[c].originFd] == c
    ensures Inv(RequestFail(s, c))
  {
    hide Lists, Tickets, Links, JobFlags, Workers, Conns, Fds, Listed, Counted, Conserved, Addresses, Stages, Focus;
    FieldsOf(s, c);
    if s.conns[c].originFd != -1 {
      CloseOriginInv(s, c);
      PhaseInv(DropOrigin(s, c), None, c, Replying);
    } else {
      PhaseInv(s, None, c, Replying);
    }
  }

  /** The rest of the turn when the resolution had timed out (socks5.c lines 1006-1018). */
  function CancelVisit(s: State, c: ConnId): (r: State)
    requires c in s.conns && s.conns[c].originFd == -1
    requires s.conns[c].job.Some? ==> s.conns[c].job.value in s.jobs
  {
    var t := CancelConn(s, c);
    if t.conns[c].clientFd == -1 then FreeIfUnreferenced(MarkInactive(t, c), c)
    else SetPhase(t, c, Replying)
  }

  lemma CancelVisitInv(s: State, c: ConnId)
    requires Inv(s) && s.main.Ready? && c in s.conns && s.conns[c].phase.Resolve?
    ensures s.conns[c].originFd == -1
    ensures s.conns[c].job.Some? ==> s.conns[c].job.value in s.jobs
    ensures Inv(CancelVisit(s, c))
  {
    hide Lists, Tickets, Links, JobFlags, Workers, Conns, Fds, Listed, Counted, Conserved, Addresses, Stages;
    FieldsOf(s, c);
    ConnOfAny(s.conns, s.main, None, c);
    Exempt(s, c);
    hide InvX;
    CancelInv(s, c);
    PhaseInv(CancelConn(s, c), Some(c), c, Replying);
  }

  // ------------------------------------------------------------------------------ stopping the pool

  /** socks5_resolver_pool_stop, first critical section (lines 237-247). */
  function StopPool(s: State): (r: State) {
    if !s.started then s
    else s.(stopping := true, jobs := map j | j in s.jobs :: s.jobs[j].(canceled := true), main := Joining)
  }

  lemma StopPoolInv(s: State)
    requires Inv(s) && s.main.Ready? && s.cursor.NoSweep?
    ensures Inv(StopPool(s))
  {
    hide Lists, Tickets, Links, JobFlags, Workers, Conns, Fds, Listed, Counted, Addresses, Stages;
    if s.started {
      var t := StopPool(s);
      CancelAllLists(s, t.jobs);
      CancelAllLinks(s, t.jobs);
      ConnsMain(s.conns, s.main, t.main);
      StopStages(s);
      assert t.jobs.Keys == s.jobs.Keys;
    }
  }

  lemma CancelAllLists(s: State, jobs: Jobs)
    requires Lists(s.jobs, s.queue, s.all, [], s.inSystem) && Tickets(s.jobs, s.queue, s.all, s.tickets)
    requires jobs == map j | j in s.jobs :: s.jobs[j].(canceled := true)
    ensures Lists(jobs, s.queue, s.all, [], s.inSystem) && Tickets(jobs, s.queue, s.all, s.tickets)
  {
    forall j
      ensures Queued(jobs, s.all, j) <==> Queued(s.jobs, s.all, j)
    {}
  }

  lemma CancelAllLinks(s: State, jobs: Jobs)
    requires Links(s.jobs, s.conns) && JobFlags(s.jobs, s.conns) && Workers(s.workers, s.jobs, s.all)
    requires jobs == map j | j in s.jobs :: s.jobs[j].(canceled := true)
    ensures Links(jobs, s.conns) && JobFlags(jobs, s.conns) && Workers(s.workers, jobs, s.all)
  {
    WorkersKeep(s.workers, s.jobs, s.all, jobs, s.all);
  }

  lemma StopStages(s: State)
    requires Stages(s) && s.main.Ready? && s.cursor.NoSweep? && s.started
    ensures Stages(StopPool(s))
  {}

  ghost predicate Joined(s: State) {
    s.main.Joining? && forall w {:trigger s.workers[w]} :: 0 <= w < |s.workers| ==> s.workers[w].Exited?
  }

  /** Once the workers have exited, nothing is queued or running: every job left is completed. */
  lemma JoinedJobs(s: State)
    requires Inv(s) && Joined(s)
    ensures s.queue == []
    ensures forall j :: j in s.jobs ==> j in s.all && s.jobs[j].completed && !s.jobs[j].running
  {
    hide Tickets, Links, Conns, Fds, Listed, Counted, Addresses, Conserved, Focus;
    assert s.workers[0].Exited?;
    forall j | j in s.jobs
      ensures j in s.all && s.jobs[j].completed && !s.jobs[j].running
    {
      assert j in s.queue <==> Queued(s.jobs, s.all, j);
    }
  }

  /** The second critical section (lines 253-260). */
  function TakeAll(s: State): (r: State) {
    s.(main := Releasing(s.all), all := [], queue := [], inSystem := 0, started := false, stopping := false,
       workers := [Absent, Absent, Absent, Absent])
  }

  lemma TakeAllInv(s: State)
    requires Inv(s) && Joined(s)
    ensures Inv(TakeAll(s))
  {
    JoinedJobs(s);
    hide Lists, Tickets, Links, JobFlags, Workers, Conns, Fds, Listed, Counted, Addresses, Stages, Joined;
    ListsDetach(s.jobs, s.all, s.inSystem);
    ConnsMain(s.conns, s.main, TakeAll(s).main);
    TakeAllTickets(s.jobs, s.queue, s.all, s.tickets);
    TakeAllWorkers(s);
    TakeAllStages(s);
  }

  lemma TakeAllTickets(jobs: Jobs, queue: seq<JobId>, all: seq<JobId>, tickets: nat)
    requires Tickets(jobs, queue, all, tickets)
    ensures Tickets(jobs, [], [], tickets)
  {}

  lemma TakeAllWorkers(s: State)
    requires Addresses(s.addrs, s.workers, s.conns) && Workers(s.workers, s.jobs, s.all) && Joined(s)
    requires forall j :: j in s.jobs ==> !s.jobs[j].running
    ensures Addresses(s.addrs, [Absent, Absent, Absent, Absent], s.conns)
    ensures Workers([Absent, Absent, Absent, Absent], s.jobs, [])
  {
    var gone := [Absent, Absent, Absent, Absent];
    assert forall w | 0 <= w < |gone| :: gone[w].Absent?;
    assert forall w, j :: !Holds(gone, w, j);
    assert forall a | a in s.addrs :: s.addrs[a].StoredIn?;
  }

  lemma TakeAllStages(s: State)
    requires Stages(s) && s.main.Joining? && forall j :: j in s.jobs ==> s.jobs[j].completed
    ensures Stages(TakeAll(s))
  {
    var t := TakeAll(s);
    assert forall w | 0 <= w < |t.workers| :: t.workers[w].Absent?;
  }

  /** One turn of resolver_release_job_list (lines 220-233). */
  function ReleaseOne(s: State): (r: State)
    requires s.main.Releasing? && s.main.rest != [] && s.main.rest[0] in s.jobs
    requires s.jobs[s.main.rest[0]].conn.Some? ==> s.jobs[s.main.rest[0]].conn.value in s.conns
  {
    var j := s.main.rest[0];
    var t := if s.jobs[j].conn.Some? && s.conns[s.jobs[j].conn.value].job == Some(j) then
               var c := s.jobs[j].conn.value;
               FreeIfUnreferenced(s.(conns := s.conns[c := Unlinked(s.conns[c])]), c)
             else s;
    t.(jobs := s.jobs - {j}, jobFrees := s.jobFrees + 1, main := Releasing(s.main.rest[1..]))
  }

  lemma ReleaseReady(s: State)
    requires Inv(s) && s.main.Releasing? && s.main.rest != []
    ensures var j := s.main.rest[0];
            && j in s.jobs && s.jobs[j].conn.Some? && s.jobs[j].conn.value in s.conns && !s.jobs[j].running
            && s.conns[s.jobs[j].conn.value].job == Some(j) && s.conns[s.jobs[j].conn.value].done
            && ConnOk(s.conns[s.jobs[j].conn.value], false, false, false)
            && s.all == [] && s.queue == [] && s.inSystem == 0
  {
    hide Tickets, Workers, Fds, Listed, Counted, Addresses, Conserved, Focus;
    var j := s.main.rest[0];
    assert j in s.jobs && s.jobs[j].completed;
  }

  /** Releasing a job drops its connection's reference; the client's descriptor keeps the connection. */
  lemma ReleaseOneInv(s: State)
    requires Inv(s) && s.main.Releasing? && s.main.rest != []
    ensures s.main.rest[0] in s.jobs
    ensures s.jobs[s.main.rest[0]].conn.Some? && s.jobs[s.main.rest[0]].conn.value in s.conns
    ensures Inv(ReleaseOne(s))
  {
    ReleaseReady(s);
    var j := s.main.rest[0];
    var c := s.jobs[j].conn.value;
    ReleasedState(s, j, c);
    ReleaseTo(s, j, c, ReleaseOne(s));
  }

  function Released(s: State, j: JobId, c: ConnId): (r: State)
    requires s.main.Releasing? && s.main.rest != [] && c in s.conns
  {
    s.(conns := s.conns[c := Unlinked(s.conns[c])], jobs := s.jobs - {j}, jobFrees := s.jobFrees + 1,
       main := Releasing(s.main.rest[1..]))
  }

  lemma ReleasedState(s: State, j: JobId, c: ConnId)
    requires s.main.Releasing? && s.main.rest != [] && j == s.main.rest[0] && j in s.jobs && s.jobs[j].conn == Some(c)
    requires c in s.conns && s.conns[c].job == Some(j) && ConnOk(s.conns[c], false, false, false)
    ensures ReleaseOne(s) == Released(s, j, c)
  {}

  lemma ReleaseTo(s: State, j: JobId, c: ConnId, t: State)
    requires Inv(s) && s.main.Releasing? && s.main.rest != [] && j == s.main.rest[0] && j in s.jobs && !s.jobs[j].running
    requires c in s.conns && s.conns[c].job == Some(j) && s.conns[c].done
    requires s.all == [] && s.queue == [] && s.inSystem == 0
    requires t == Released(s, j, c)
    ensures Inv(t)
  {
    hide Lists, Tickets, Links, JobFlags, Workers, Conns, Fds, Listed, Counted, Addresses, Stages, Focus;
    var conn := Unlinked(s.conns[c]);
    ListsRelease(s.jobs, s.main.rest);
    ReleaseTickets(s.jobs, s.tickets, j);
    LinksDrop(s.jobs, s.conns, j, c, conn);
    FlagsDrop(s.jobs, s.conns, j, c, conn);
    WorkersKeep(s.workers, s.jobs, s.all, t.jobs, t.all);
    ReleaseConns(s.conns, s.main, s.cursor, c, t.main);
    FdsTouch(s.fds, s.conns, c, conn);
    CountTouch(s.list, s.metrics, s.conns, c, conn);
    AddressesTouch(s.addrs, s.workers, s.conns, c, conn);
    ReleaseStages(s, t);
  }

  lemma ReleaseTickets(jobs: Jobs, tickets: nat, j: JobId)
    requires Tickets(jobs, [], [], tickets)
    ensures Tickets(jobs - {j}, [], [], tickets)
  {}

  lemma ReleaseConns(conns: Connections, main: Main, cursor: Cursor, c: ConnId, main': Main)
    requires Conns(conns, main, None) && Focus(main, cursor, conns) && main.Releasing? && main'.Releasing?
    requires c in conns && conns[c].job.Some? && conns[c].done
    ensures Conns(conns[c := Unlinked(conns[c])], main', None) && Focus(main', cursor, conns[c := Unlinked(conns[c])])
  {}

  lemma ReleaseStages(s: State, t: State)
    requires Stages(s) && s.main.Releasing? && s.main.rest != [] && t.main == Releasing(s.main.rest[1..])
    requires t.jobs == s.jobs - {s.main.rest[0]}
    requires t.started == s.started && t.stopping == s.stopping && t.workers == s.workers && t.queue == s.queue
    requires t.all == s.all && t.cursor == s.cursor
    ensures Stages(t)
  {
    assert forall j :: j in t.main.rest ==> j in s.main.rest;
  }

  lemma ReleasedInv(s: State)
    requires Inv(s) && s.main == Releasing([])
    ensures Inv(s.(main := Ready))
  {
    hide Lists, Tickets, Links, JobFlags, Workers, Conns, Fds, Listed, Counted, Addresses, Stages;
    ConnsMain(s.conns, s.main, Ready);
    ReleasedStages(s);
  }

  lemma ReleasedStages(s: State)
    requires Stages(s) && s.main.Releasing?
    ensures Stages(s.(main := Ready))
  {}

  // --------------------------------------------------------------------- tearing the selector down

  /** selector_destroy closes the descriptors one by one, in any order. */
  lemma DestroyFdInv(s: State, fd: Fd)
    requires Inv(s) && s.main.Destroying? && fd in s.fds
    ensures s.fds[fd] in s.conns
    ensures var conn := s.conns[s.fds[fd]]; conn.job.Some? ==> conn.job.value in s.jobs
    ensures Inv(CloseFd(s, fd))
  {
    hide Lists, Tickets, Links, JobFlags, Workers, Conns, Fds, Listed, Counted, Conserved, Addresses, Stages;
    OwnerOf(s.fds, s.conns, s.jobs, fd);
    DestroyOne(s, s.fds[fd], fd);
    NoCursor(s);
  }

  lemma DestroyOne(s: State, c: ConnId, fd: Fd)
    requires InvX(s, None) && s.main.Destroying? && fd in s.fds && s.fds[fd] == c && c in s.conns
    requires s.conns[c].regClient == Some(fd) || s.conns[c].regOrigin == Some(fd)
    requires s.conns[c].job.Some? ==> s.conns[c].job.value in s.jobs
    ensures var t := CloseFd(s, fd); InvX(t, None) && t.main == s.main && t.cursor == s.cursor
  {
    hide Lists, Tickets, Links, JobFlags, Workers, Conns, Fds, Listed, Counted, Conserved, Addresses, Stages;
    hide Settle, FreeIfUnreferenced;
    ConnOfAny(s.conns, s.main, None, c);
    hide InvX;
    var conn := s.conns[c];
    var next := if conn.regClient == Some(fd) then conn.(clientFd := -1, regClient := None, references := conn.references - 1)
                else conn.(originFd := -1, regOrigin := None, references := conn.references - 1);
    assert Dropped(conn, fd) == next;
    DropInv(s, c, next, fd);
    CloseTail(s.(fds := s.fds - {fd}, conns := s.conns[c := next]), c);
  }

  lemma OwnerOf(fds: map<Fd, ConnId>, conns: Connections, jobs: Jobs, fd: Fd)
    requires Fds(fds, conns) && Links(jobs, conns) && fd in fds
    ensures fds[fd] in conns
    ensures conns[fds[fd]].regClient == Some(fd) || conns[fds[fd]].regOrigin == Some(fd)
    ensures conns[fds[fd]].job.Some? ==> conns[fds[fd]].job.value in jobs
  {}

  lemma NoCursor(s: State)
    requires Stages(s) && s.main.Destroying?
    ensures s.cursor.NoSweep?
  {}
}
