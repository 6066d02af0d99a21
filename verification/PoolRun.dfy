/** Whole runs of the pool: every interleaving of the workers' steps with the main thread's. */
module PoolRun {
  import opened Sequences
  import opened PoolState
  import opened PoolInvariant
  import opened PoolFrames
  import opened PoolSteps
  import opened PoolMain

  /** One atomic step. Descriptors, not connections, name the events the selector delivers. */
  datatype Event =
    // a worker thread
    | WorkerPop(w: nat) | WorkerExit(w: nat) | WorkerLookup(w: nat, answer: Option<AddrId>)
    | WorkerPublish(w: nat) | WorkerNotify(w: nat)
    // the main thread, in a handler
    | Accept(c: ConnId, fd: Fd)
    | RequestName(fd: Fd, created: nat, block: JobId)
    | RequestAddress(fd: Fd, attempt: Attempt)
    | Woken(fd: Fd, attempt: Attempt)
    | ConnectResult(fd: Fd, ok: bool, attempt: Attempt)
    | ReplySent(fd: Fd)
    | Finish(fd: Fd)
    | CloseNext
    // the main thread, in the reaper
    | SweepStart | SweepVisit(expired: bool) | SweepTake(attempt: Attempt) | SweepCancel
    // the main thread, shutting down
    | StopBegin | StopJoined | StopRelease | DestroyBegin | DestroyFd(fd: Fd)

  // ---------------------------------------------------------------------------------- workers

  lemma ExitInv(s: State, w: nat)
    requires Inv(s) && w < |s.workers| && s.workers[w].Waiting? && s.queue == [] && s.stopping
    ensures Inv(s.(workers := s.workers[w := Exited]))
  {
    hide Lists, Tickets, Links, JobFlags, Workers, Conns, Fds, Listed, Counted, Addresses, Stages, Focus;
    WorkersMove(s.workers, w, Exited, s.jobs, s.all);
    AddressesMove(s.addrs, s.workers, s.conns, w, Exited);
    ExitStages(s, w);
  }

  lemma ExitStages(s: State, w: nat)
    requires Stages(s) && w < |s.workers| && s.workers[w].Waiting? && s.queue == [] && s.stopping
    ensures Stages(s.(workers := s.workers[w := Exited]))
  {}

  lemma NotifyInv(s: State, w: nat)
    requires Inv(s) && w < |s.workers| && s.workers[w].Notifying?
    ensures Inv(s.(workers := s.workers[w := Waiting]))
  {
    hide Lists, Tickets, Links, JobFlags, Workers, Conns, Fds, Listed, Counted, Addresses, Stages, Focus;
    WorkersMove(s.workers, w, Waiting, s.jobs, s.all);
    AddressesMove(s.addrs, s.workers, s.conns, w, Waiting);
    StagesMove(s, w, s.(workers := s.workers[w := Waiting]));
  }

  // ------------------------------------------------------------------------------ new requests

  lemma AcceptInv(s: State, c: ConnId, fd: Fd)
    requires Inv(s) && c !in s.conns && fd !in s.fds && s.main.Ready?
    ensures Inv(Open(s, c, fd))
  {
    hide Lists, Tickets, Links, JobFlags, Workers, Conns, Fds, Listed, Counted, Addresses, Stages, Focus;
    var t := Open(s, c, fd);
    OpenConns(s.conns, s.main, s.cursor, c, t.conns[c]);
    LinksOpen(s.jobs, s.conns, c, t.conns[c]);
    FdsOpen(s.fds, s.conns, fd, c, t.conns[c]);
    CountOpen(s.list, s.metrics, s.conns, c, t.conns[c]);
    AddressesTouch(s.addrs, s.workers, s.conns, c, t.conns[c]);
    StagesConns(s, t);
  }

  lemma OpenConns(conns: Connections, main: Main, cursor: Cursor, c: ConnId, conn: Conn)
    requires Conns(conns, main, None) && Focus(main, cursor, conns) && main.Ready? && c !in conns
    requires ConnOk(conn, false, false, false)
    ensures Conns(conns[c := conn], main, None) && Focus(main, cursor, conns[c := conn])
  {}

  lemma PoolStartInv(s: State, created: nat)
    requires Inv(s) && s.main.Ready?
    ensures Inv(PoolStart(s, created))
    ensures PoolStart(s, created).conns == s.conns && PoolStart(s, created).main == s.main
  {
    hide Lists, Tickets, Links, JobFlags, Conns, Fds, Listed, Counted, Workers, Addresses, Focus, Stages;
    StartWorkers(s, created);
  }

  lemma StartWorkers(s: State, created: nat)
    requires Workers(s.workers, s.jobs, s.all) && Stages(s) && s.main.Ready? && Addresses(s.addrs, s.workers, s.conns)
    ensures var t := PoolStart(s, created); Workers(t.workers, t.jobs, t.all) && Stages(t) && Addresses(t.addrs, t.workers, t.conns)
  {
    var t := PoolStart(s, created);
    if !s.started && created >= RESOLVER_WORKERS {
      forall w, j
        ensures !Holds(s.workers, w, j) && !Holds(t.workers, w, j)
      {}
      assert forall w | 0 <= w < |s.workers| :: s.workers[w].Absent?;
      assert forall w | 0 <= w < |t.workers| :: t.workers[w].Waiting?;
    }
  }

  lemma QueueJobInv(s: State, c: ConnId, j: JobId)
    requires Inv(s) && s.main.Ready? && s.started && c in s.conns && s.conns[c].phase.Handshake? && j !in s.jobs
    ensures Inv(QueueJob(s, c, j))
    ensures QueueJob(s, c, j).main == s.main && c in QueueJob(s, c, j).conns
    ensures QueueJob(s, c, j).conns[c].phase.Resolve? || QueueJob(s, c, j).conns == s.conns
  {
    hide Lists, Tickets, Links, JobFlags, Workers, Conns, Fds, Listed, Counted, Addresses, Stages, Focus;
    HandshakeConn(s.conns, s.main, c);
    var t := QueueJob(s, c, j);
    if t.jobs == s.jobs {
      StagesConns(s, t);
    } else {
      Unqueued(s, j);
      ListsAdd(s.jobs, s.queue, s.all, Rest(s.main), s.inSystem, j, t.jobs[j]);
      TicketsAdd(s.jobs, s.queue, s.all, s.tickets, j, t.jobs[j]);
      LinksAdd(s.jobs, s.conns, j, t.jobs[j], c, t.conns[c]);
      FlagsAdd(s.jobs, s.conns, j, t.jobs[j], c, t.conns[c]);
      WorkersKeep(s.workers, s.jobs, s.all, t.jobs, t.all);
      QueueConns(s.conns, s.main, s.cursor, c, t.conns[c]);
      FdsTouch(s.fds, s.conns, c, t.conns[c]);
      CountTouch(s.list, s.metrics, s.conns, c, t.conns[c]);
      AddressesTouch(s.addrs, s.workers, s.conns, c, t.conns[c]);
      QueueStages(s, t);
    }
  }

  lemma HandshakeConn(conns: Connections, main: Main, c: ConnId)
    requires Conns(conns, main, None) && c in conns && conns[c].phase.Handshake?
    ensures conns[c].job == None && conns[c].resolution == None && conns[c].regOrigin == None && !conns[c].done
    ensures conns[c].regClient.Some? || main.Destroying?
  {}

  lemma Unqueued(s: State, j: JobId)
    requires Lists(s.jobs, s.queue, s.all, Rest(s.main), s.inSystem) && j !in s.jobs
    ensures j !in s.queue && j !in s.all
  {}

  lemma QueueConns(conns: Connections, main: Main, cursor: Cursor, c: ConnId, conn: Conn)
    requires Conns(conns, main, None) && Focus(main, cursor, conns) && main.Ready? && c in conns && conns[c].phase.Handshake?
    requires conn == conns[c].(references := conns[c].references + 1, job := conn.job, done := false, phase := Resolve)
    requires conn.job.Some?
    ensures Conns(conns[c := conn], main, None) && Focus(main, cursor, conns[c := conn])
  {}

  lemma QueueStages(s: State, t: State)
    requires Stages(s) && s.main.Ready? && s.started && !s.stopping
    requires t.started && !t.stopping && t.workers == s.workers && t.main == s.main && t.cursor == s.cursor
    ensures Stages(t)
  {}

  // ----------------------------------------------------------------------- connecting to origins

  /** A change of phase only; the new phase is one that holds no job. */
  lemma PhaseInv(s: State, x: Option<ConnId>, c: ConnId, phase: Phase)
    requires InvX(s, x) && (x == None || x == Some(c)) && Focus(s.main, s.cursor, s.conns) && s.main.Ready?
    requires c in s.conns && s.conns[c].job == None && s.conns[c].regClient.Some?
    requires phase.Replying? || phase.Relaying?
    ensures Inv(SetPhase(s, c, phase))
  {
    hide Lists, Tickets, Links, JobFlags, Workers, Conns, Fds, Listed, Counted, Conserved, Addresses, Stages;
    ConnOfAny(s.conns, s.main, x, c);
    TouchInv(s, x, c, s.conns[c].(phase := phase));
  }

  lemma ConnOfAny(conns: Connections, main: Main, x: Option<ConnId>, c: ConnId)
    requires Conns(conns, main, x) && c in conns
    ensures ConnOk(conns[c], main.Closing? && main.conn == c, x == Some(c), main.Destroying?)
  {}

  lemma ConnectInv(s: State, x: Option<ConnId>, c: ConnId, attempt: Attempt)
    requires InvX(s, x) && (x == None || x == Some(c)) && Focus(s.main, s.cursor, s.conns) && s.main.Ready?
    requires c in s.conns && s.conns[c].job == None && s.conns[c].regClient.Some? && s.conns[c].regOrigin == None
    requires attempt.Registered? ==> attempt.fd !in s.fds
    ensures Inv(Connect(s, c, attempt))
  {
    hide Lists, Tickets, Links, JobFlags, Workers, Conns, Fds, Listed, Counted, Addresses, Stages, Focus;
    if attempt.Exhausted? {
      PhaseInv(s, x, c, Replying);
    } else {
      var t := Connect(s, c, attempt);
      var conn := t.conns[c];
      ConnectConns(s.conns, s.main, s.cursor, x, c, attempt, s.fds, conn);
      LinksTouch(s.jobs, s.conns, c, conn);
      FdsAdd(s.fds, s.conns, attempt.fd, c, conn);
      CountTouch(s.list, s.metrics, s.conns, c, conn);
      AddressesTouch(s.addrs, s.workers, s.conns, c, conn);
      StagesConns(s, t);
    }
  }

  lemma ConnectConns(conns: Connections, main: Main, cursor: Cursor, x: Option<ConnId>, c: ConnId, attempt: Attempt, fds: map<Fd, ConnId>, conn: Conn)
    requires Conns(conns, main, x) && (x == None || x == Some(c)) && Focus(main, cursor, conns) && main.Ready? && Fds(fds, conns)
    requires c in conns && conns[c].job == None && conns[c].regClient.Some? && conns[c].regOrigin == None
    requires attempt.Registered? && attempt.fd !in fds
    requires conn == conns[c].(originFd := attempt.fd, regOrigin := Some(attempt.fd), references := conns[c].references + 1,
                               phase := if attempt.immediate then Replying else Connecting)
    ensures Conns(conns[c := conn], main, None) && Focus(main, cursor, conns[c := conn])
  {
    ConnOfAny(conns, main, x, c);
  }

  /** request_resolve_done, from a wake-up or from the reaper. */
  lemma ResolveDoneInv(s: State, c: ConnId, attempt: Attempt)
    requires Inv(s) && s.main.Ready? && c in s.conns && s.conns[c].phase.Resolve?
    requires attempt.Registered? ==> attempt.fd !in s.fds
    ensures s.conns[c].job.Some? ==> s.conns[c].job.value in s.jobs
    ensures Inv(ResolveDone(s, c, attempt))
  {
    hide Lists, Tickets, Links, JobFlags, Workers, Conns, Fds, Listed, Counted, Conserved, Addresses, Stages;
    ConnOfAny(s.conns, s.main, None, c);
    Exempt(s, c);
    TakeInv(s, c);
    var (t, taken) := TakeCompleted(s, c);
    if taken {
      if t.conns[c].resolution.None? {
        PhaseInv(t, Some(c), c, Replying);
      } else {
        ConnectInv(t, Some(c), c, attempt);
      }
    }
  }

  /** The origin's descriptor goes; the client's keeps the connection alive. */
  lemma CloseOriginInv(s: State, c: ConnId)
    requires Inv(s) && s.main.Ready? && c in s.conns && s.conns[c].regOrigin.Some?
    ensures s.conns[c].job == None && s.conns[c].originFd == s.conns[c].regOrigin.value && s.conns[c].originFd in s.fds
    ensures s.fds[s.conns[c].originFd] == c
    ensures var t := CloseFd(s, s.conns[c].originFd);
            && t == DropOrigin(s, c)
            && InvX(t, None) && t.main == s.main && t.cursor == s.cursor && Focus(t.main, t.cursor, t.conns)
            && c in t.conns && t.conns[c].job == None && t.conns[c].regOrigin == None && t.conns[c].regClient.Some?
  {
    hide Lists, Tickets, Links, JobFlags, Workers, Conns, Fds, Listed, Counted, Conserved, Addresses, Stages;
    ConnOfAny(s.conns, s.main, None, c);
    OriginOf(s.fds, s.conns, c);
    hide InvX, Settle, FreeIfUnreferenced;
    var conn := s.conns[c];
    var fd := conn.regOrigin.value;
    var next := conn.(originFd := -1, regOrigin := None, references := conn.references - 1);
    var d := s.(fds := s.fds - {fd}, conns := s.conns[c := next]);
    DropInv(s, c, next, fd);
    CloseTail(d, c);
    assert DropFd(s, fd) == d;
    var blank := s.(conns := s.conns[c := conn.(originFd := -1)]);
    assert blank.conns[c := next] == s.conns[c := next];
    assert DropFd(blank, fd) == d;
  }

  lemma OriginOf(fds: map<Fd, ConnId>, conns: Connections, c: ConnId)
    requires Fds(fds, conns) && c in conns && conns[c].regOrigin.Some?
    ensures conns[c].regOrigin.value in fds && fds[conns[c].regOrigin.value] == c
  {}

  // ---------------------------------------------------------------------------- closing and dying

  /** The start of socks5_done: both fields overwritten, the descriptors saved in locals. */
  function StartClose(s: State, c: ConnId): (r: State)
    requires c in s.conns
  {
    var conn := s.conns[c];
    s.(main := Closing(c, (if conn.originFd >= 0 then [conn.originFd] else []) + (if conn.clientFd >= 0 then [conn.clientFd] else [])),
       conns := s.conns[c := conn.(clientFd := -1, originFd := -1)])
  }

  lemma StartCloseInv(s: State, c: ConnId)
    requires Inv(s) && s.main.Ready? && c in s.conns
    requires s.cursor.At? ==> s.cursor.next != Some(c)
    ensures Inv(StartClose(s, c))
  {
    hide Lists, Tickets, Links, JobFlags, Workers, Fds, Listed, Counted, Addresses, Stages, Conns, Focus;
    var t := StartClose(s, c);
    CloseConns(s.conns, s.cursor, c, t.conns[c], t.main);
    LinksTouch(s.jobs, s.conns, c, t.conns[c]);
    FdsTouch(s.fds, s.conns, c, t.conns[c]);
    CountTouch(s.list, s.metrics, s.conns, c, t.conns[c]);
    AddressesTouch(s.addrs, s.workers, s.conns, c, t.conns[c]);
    StagesMain(s, t);
  }

  lemma CloseConns(conns: Connections, cursor: Cursor, c: ConnId, conn: Conn, main: Main)
    requires Conns(conns, Ready, None) && Focus(Ready, cursor, conns) && c in conns && (cursor.At? ==> cursor.next != Some(c))
    requires conn == conns[c].(clientFd := -1, originFd := -1)
    requires main == Closing(c, (if conns[c].originFd >= 0 then [conns[c].originFd] else []) + (if conns[c].clientFd >= 0 then [conns[c].clientFd] else []))
    ensures Conns(conns[c := conn], main, None) && Focus(main, cursor, conns[c := conn])
  {
    ConnOfAny(conns, Ready, None, c);
  }

  /** Stages when the main thread moves between steps that are not part of the shutdown. */
  lemma StagesMain(s: State, t: State)
    requires Stages(s) && !s.main.Joining? && !s.main.Releasing? && !t.main.Joining? && !t.main.Releasing?
    requires t.main.Destroying? ==> t.cursor.NoSweep?
    requires t.started == s.started && t.stopping == s.stopping && t.workers == s.workers && t.queue == s.queue && t.all == s.all
    ensures Stages(t)
  {}

  /** One selector_unregister_fd of socks5_done. */
  function CloseStep(s: State): (r: State)
    requires s.main.Closing? && s.main.fds != [] && s.main.fds[0] in s.fds && s.fds[s.main.fds[0]] in s.conns
    requires var conn := s.conns[s.fds[s.main.fds[0]]]; conn.job.Some? ==> conn.job.value in s.jobs
  {
    CloseFd(s, s.main.fds[0]).(main := if |s.main.fds| == 1 then Ready else Closing(s.main.conn, s.main.fds[1..]))
  }

  lemma ClosingReady(s: State)
    requires Conns(s.conns, s.main, None) && Focus(s.main, s.cursor, s.conns) && Fds(s.fds, s.conns) && Links(s.jobs, s.conns)
    requires s.main.Closing?
    ensures s.main.fds != [] && s.main.fds[0] in s.fds && s.fds[s.main.fds[0]] == s.main.conn && s.main.conn in s.conns
    ensures var conn := s.conns[s.main.conn];
            && (conn.job.Some? ==> conn.job.value in s.jobs)
            && conn.clientFd == -1 && conn.originFd == -1 && conn.regClient.Some? && conn.regClient != conn.regOrigin
            && s.main.fds == OpenFds(conn)
            && (s.main.fds[0] != conn.regClient.value ==> conn.regOrigin == Some(s.main.fds[0]) && !conn.phase.Resolve?)
  {
    ConnOfAny(s.conns, s.main, None, s.main.conn);
  }

  /** socks5_done unregisters the origin, then the client; only the second frees the connection. */
  lemma CloseStepInv(s: State)
    requires Inv(s) && s.main.Closing?
    ensures s.main.fds != [] && s.main.fds[0] in s.fds && s.fds[s.main.fds[0]] in s.conns
    ensures var conn := s.conns[s.fds[s.main.fds[0]]]; conn.job.Some? ==> conn.job.value in s.jobs
    ensures Inv(CloseStep(s))
  {
    hide Lists, Tickets, Links, JobFlags, Workers, Conns, Fds, Listed, Counted, Conserved, Addresses, Stages, Focus;
    hide CloseFd, ConnOk, OpenFds;
    ClosingReady(s);
    CloseOne(s);
    var t := CloseFd(s, s.main.fds[0]);
    CloseFocus(s.conns, s.main, s.cursor, t.conns, CloseStep(s).main);
    StagesMain(t, CloseStep(s));
    ConservedMain(t, CloseStep(s).main);
  }

  lemma CloseOne(s: State)
    requires InvX(s, None) && Focus(s.main, s.cursor, s.conns) && s.main.Closing?
    requires s.main.fds != [] && s.main.fds[0] in s.fds && s.fds[s.main.fds[0]] == s.main.conn && s.main.conn in s.conns
    requires var conn := s.conns[s.main.conn]; conn.job.Some? ==> conn.job.value in s.jobs
    ensures var t := CloseFd(s, s.main.fds[0]);
            && InvX(t, None) && t.main == s.main && t.cursor == s.cursor
            && (forall d :: d in s.conns && d != s.main.conn ==> d in t.conns && t.conns[d] == s.conns[d])
            && (s.main.conn in t.conns <==> |s.main.fds| > 1)
            && (s.main.conn in t.conns ==> OpenFds(t.conns[s.main.conn]) == s.main.fds[1..])
  {
    hide Lists, Tickets, Links, JobFlags, Workers, Conns, Fds, Listed, Counted, Conserved, Addresses, Stages, Focus;
    hide Settle, FreeIfUnreferenced;
    ClosingReady(s);
    ConnOfAny(s.conns, s.main, None, s.main.conn);
    hide InvX;
    var c, fd := s.main.conn, s.main.fds[0];
    var conn := s.conns[c];
    var next := if conn.regClient == Some(fd) then conn.(regClient := None, references := conn.references - 1)
                else conn.(regOrigin := None, references := conn.references - 1);
    assert Dropped(conn, fd) == next;
    DropInv(s, c, next, fd);
    CloseTail(s.(fds := s.fds - {fd}, conns := s.conns[c := next]), c);
  }

  lemma ConservedMain(s: State, main: Main)
    requires Conserved(s)
    ensures Conserved(s.(main := main))
  {}

  lemma CloseFocus(conns: Connections, main: Main, cursor: Cursor, conns': Connections, main': Main)
    requires Focus(main, cursor, conns) && main.Closing? && Conns(conns', main, None) && main.fds != [] && main.conn in conns
    requires forall d :: d in conns && d != main.conn ==> d in conns' && conns'[d] == conns[d]
    requires main.conn in conns' <==> |main.fds| > 1
    requires main.conn in conns' ==> OpenFds(conns'[main.conn]) == main.fds[1..]
    requires main' == if |main.fds| == 1 then Ready else Closing(main.conn, main.fds[1..])
    ensures Focus(main', cursor, conns') && Conns(conns', main', None)
  {
    if cursor.At? && cursor.next.Some? {
      var n := cursor.next.value;
      assert n in conns' ==> conns'[n] == conns[n];
    }
  }
}
