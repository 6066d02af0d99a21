/** The main thread's critical sections and connection lifetimes keep the invariant of the pool. */
module PoolMain {
  import opened Sequences
  import opened PoolState
  import opened PoolInvariant
  import opened PoolFrames
  import opened PoolSteps

  /** Exempting a connection only weakens the invariant. */
  lemma Exempt(s: State, c: ConnId)
    requires InvX(s, None)
    ensures InvX(s, Some(c))
  {
    hide Lists, Tickets, Links, JobFlags, Workers, Fds, Listed, Counted, Addresses, Stages;
    ConnsExempt(s.conns, s.main, c);
  }

  lemma ConnsExempt(conns: Connections, main: Main, c: ConnId)
    requires Conns(conns, main, None)
    ensures Conns(conns, main, Some(c))
  {}

  lemma ConnsTouch(conns: Connections, main: Main, x: Option<ConnId>, c: ConnId, conn: Conn)
    requires Conns(conns, main, x)
    requires x == None || x == Some(c)
    requires ConnOk(conn, main.Closing? && main.conn == c, false, main.Destroying?)
    ensures Conns(conns[c := conn], main, None)
  {}

  /** Changing a connection that keeps its job, descriptors, answer and counted flag. */
  lemma TouchInv(s: State, x: Option<ConnId>, c: ConnId, conn: Conn)
    requires InvX(s, x) && c in s.conns && (x == None || x == Some(c))
    requires conn == s.conns[c].(clientFd := conn.clientFd, originFd := conn.originFd, phase := conn.phase)
    requires ConnOk(conn, s.main.Closing? && s.main.conn == c, false, s.main.Destroying?)
    ensures InvX(s.(conns := s.conns[c := conn]), None)
  {
    hide Lists, Tickets, Links, JobFlags, Workers, Conns, Fds, Listed, Counted, Addresses, Stages;
    ConnsTouch(s.conns, s.main, x, c, conn);
    LinksTouch(s.jobs, s.conns, c, conn);
    FdsTouch(s.fds, s.conns, c, conn);
    CountTouch(s.list, s.metrics, s.conns, c, conn);
    AddressesTouch(s.addrs, s.workers, s.conns, c, conn);
    StagesConns(s, s.(conns := s.conns[c := conn]));
  }

  /** Stages does not depend on the connections. */
  lemma StagesConns(s: State, t: State)
    requires Stages(s)
    requires t.started == s.started && t.stopping == s.stopping && t.workers == s.workers && t.queue == s.queue
    requires t.all == s.all && t.main == s.main && t.cursor == s.cursor && t.jobs == s.jobs
    ensures Stages(t)
  {}

  // ---------------------------------------------------------------------------- cancel and take

  lemma LinkOf(s: State, x: Option<ConnId>, c: ConnId)
    requires Links(s.jobs, s.conns) && Lists(s.jobs, s.queue, s.all, Rest(s.main), s.inSystem)
    requires JobFlags(s.jobs, s.conns) && Workers(s.workers, s.jobs, s.all)
    requires c in s.conns && s.conns[c].job.Some? && !s.main.Releasing?
    ensures var j := s.conns[c].job.value;
            && j in s.jobs && j in s.all && s.jobs[j].conn == Some(c)
            && (s.jobs[j].completed ==> j !in s.queue)
            && (s.jobs[j].running ==> !Queued(s.jobs, s.all, j) && !s.jobs[j].completed)
            && (s.jobs[j].completed ==> !s.jobs[j].running && s.conns[c].done)
  {
    var j := s.conns[c].job.value;
    assert j in s.queue <==> Queued(s.jobs, s.all, j);
  }

  /** The connection after it has lost its job. */
  function Unlinked(conn: Conn): (r: Conn) {
    conn.(job := None, references := conn.references - 1)
  }

  lemma ConnsUnlink(conns: Connections, main: Main, c: ConnId)
    requires Conns(conns, main, Some(c)) && c in conns && conns[c].job.Some?
    ensures Conns(conns[c := Unlinked(conns[c])], main, Some(c))
  {}

  lemma CancelInv(s: State, c: ConnId)
    requires InvX(s, Some(c)) && c in s.conns && !s.main.Releasing?
    ensures s.conns[c].job.Some? ==> s.conns[c].job.value in s.jobs
    ensures InvX(CancelConn(s, c), Some(c))
  {
    hide Lists, Tickets, Links, JobFlags, Workers, Conns, Fds, Listed, Counted, Addresses, Stages;
    if s.conns[c].job.Some? {
      LinkOf(s, Some(c), c);
      CancelRest(s, c);
      var j := s.conns[c].job.value;
      if s.jobs[j].running {
        CancelRunning(s, c);
      } else {
        CancelIdle(s, c);
      }
    }
  }

  lemma CancelRest(s: State, c: ConnId)
    requires Conns(s.conns, s.main, Some(c)) && c in s.conns && s.conns[c].job.Some?
    requires Fds(s.fds, s.conns) && Listed(s.list, s.conns) && Counted(s.metrics, s.conns)
    requires Addresses(s.addrs, s.workers, s.conns)
    ensures var conns := s.conns[c := Unlinked(s.conns[c])];
            && Conns(conns, s.main, Some(c))
            && Fds(s.fds, conns) && Listed(s.list, conns) && Counted(s.metrics, conns)
            && Addresses(s.addrs, s.workers, conns) && |conns| == |s.conns|
  {
    hide Fds, Listed, Counted, Addresses, Conns;
    var conn := Unlinked(s.conns[c]);
    ConnsUnlink(s.conns, s.main, c);
    FdsTouch(s.fds, s.conns, c, conn);
    CountTouch(s.list, s.metrics, s.conns, c, conn);
    AddressesTouch(s.addrs, s.workers, s.conns, c, conn);
  }

  lemma CancelRunning(s: State, c: ConnId)
    requires Links(s.jobs, s.conns) && JobFlags(s.jobs, s.conns) && Workers(s.workers, s.jobs, s.all)
    requires Lists(s.jobs, s.queue, s.all, Rest(s.main), s.inSystem) && Tickets(s.jobs, s.queue, s.all, s.tickets)
    requires Stages(s) && c in s.conns && s.conns[c].job.Some?
    requires var j := s.conns[c].job.value; j in s.jobs && s.jobs[j].running && !s.jobs[j].completed
    ensures var t := CancelConn(s, c);
            && Lists(t.jobs, t.queue, t.all, Rest(t.main), t.inSystem) && Tickets(t.jobs, t.queue, t.all, t.tickets)
            && Links(t.jobs, t.conns) && JobFlags(t.jobs, t.conns) && Workers(t.workers, t.jobs, t.all)
            && Stages(t) && |t.jobs| == |s.jobs|
  {
    hide Lists, Tickets, Links, JobFlags, Workers, Stages;
    var t := CancelConn(s, c);
    var j := s.conns[c].job.value;
    ListsUpdate(s.jobs, s.queue, s.all, Rest(s.main), s.inSystem, j, t.jobs[j]);
    TicketsUpdate(s.jobs, s.queue, s.all, s.tickets, j, t.jobs[j]);
    LinksDetach(s.jobs, s.conns, j, t.jobs[j], c, t.conns[c]);
    FlagsDetach(s.jobs, s.conns, j, t.jobs[j], c, t.conns[c]);
    WorkersKeep(s.workers, s.jobs, s.all, t.jobs, t.all);
    StagesJobs(s, t);
    assert t.jobs.Keys == s.jobs.Keys;
  }

  /** Stages when jobs may go, but none of the others stops being completed. */
  lemma StagesJobs(s: State, t: State)
    requires Stages(s)
    requires t.started == s.started && t.stopping == s.stopping && t.workers == s.workers
    requires (s.queue == [] ==> t.queue == []) && (s.all == [] ==> t.all == []) && t.main == s.main && t.cursor == s.cursor
    requires forall j {:trigger t.jobs[j]} :: j in t.jobs ==> j in s.jobs && (s.jobs[j].completed ==> t.jobs[j].completed)
    ensures Stages(t)
  {}

  lemma CancelIdle(s: State, c: ConnId)
    requires Links(s.jobs, s.conns) && JobFlags(s.jobs, s.conns) && Workers(s.workers, s.jobs, s.all)
    requires Lists(s.jobs, s.queue, s.all, Rest(s.main), s.inSystem) && Tickets(s.jobs, s.queue, s.all, s.tickets)
    requires Stages(s) && c in s.conns && s.conns[c].job.Some?
    requires var j := s.conns[c].job.value; j in s.jobs && j in s.all && !s.jobs[j].running
    ensures var t := CancelConn(s, c);
            && Lists(t.jobs, t.queue, t.all, Rest(t.main), t.inSystem) && Tickets(t.jobs, t.queue, t.all, t.tickets)
            && Links(t.jobs, t.conns) && JobFlags(t.jobs, t.conns) && Workers(t.workers, t.jobs, t.all)
            && Stages(t) && |t.jobs| == |s.jobs| - 1
  {
    hide Lists, Tickets, Links, JobFlags, Workers, Stages;
    var t := CancelConn(s, c);
    var j := s.conns[c].job.value;
    assert t.jobs == s.jobs - {j};
    RemoveInv(s, c, t);
  }

  /** Removing connection `c`'s job, which no worker holds, wherever it is. */
  lemma RemoveInv(s: State, c: ConnId, t: State)
    requires Links(s.jobs, s.conns) && JobFlags(s.jobs, s.conns) && Workers(s.workers, s.jobs, s.all)
    requires Lists(s.jobs, s.queue, s.all, Rest(s.main), s.inSystem) && Tickets(s.jobs, s.queue, s.all, s.tickets)
    requires Stages(s) && c in s.conns && s.conns[c].job.Some?
    requires var j := s.conns[c].job.value;
             && j in s.jobs && j in s.all && !s.jobs[j].running
             && t.jobs == s.jobs - {j} && t.queue == Without(s.queue, j) && t.all == Without(s.all, j)
    requires t.conns == s.conns[c := Unlinked(s.conns[c])] && t.workers == s.workers
    requires t.inSystem == s.inSystem - 1 && t.tickets == s.tickets
    requires t.started == s.started && t.stopping == s.stopping && t.main == s.main && t.cursor == s.cursor
    ensures Lists(t.jobs, t.queue, t.all, Rest(t.main), t.inSystem) && Tickets(t.jobs, t.queue, t.all, t.tickets)
    ensures Links(t.jobs, t.conns) && JobFlags(t.jobs, t.conns) && Workers(t.workers, t.jobs, t.all)
    ensures Stages(t) && |t.jobs| == |s.jobs| - 1
  {
    hide Lists, Tickets, Links, JobFlags, Workers, Stages;
    var j := s.conns[c].job.value;
    DropLists(s, j);
    LinksDrop(s.jobs, s.conns, j, c, t.conns[c]);
    FlagsDrop(s.jobs, s.conns, j, c, t.conns[c]);
    WithoutMembers(s.all, j);
    WorkersKeep(s.workers, s.jobs, s.all, t.jobs, t.all);
    StagesJobs(s, t);
  }

  /** take_completed keeps the invariant; it returns true exactly when the connection is left with
  no job and with an answer (or a failure) in place. */
  lemma TakeInv(s: State, c: ConnId)
    requires InvX(s, Some(c)) && c in s.conns && !s.main.Releasing?
    ensures s.conns[c].job.Some? ==> s.conns[c].job.value in s.jobs
    ensures var (t, taken) := TakeCompleted(s, c);
            && InvX(t, Some(c)) && t.main == s.main && t.cursor == s.cursor && t.list == s.list
            && c in t.conns && t.conns.Keys == s.conns.Keys
            && (taken <==> t.conns[c].job == None && t.conns[c].done)
            && t.conns[c].(job := None, references := 0) == s.conns[c].(job := None, references := 0)
            && (forall d :: d in s.conns && d != c ==> t.conns[d] == s.conns[d])
            && (s.conns[c].job.None? ==> t == s)
            && (!taken ==> t == s)
  {
    hide Lists, Tickets, Links, JobFlags, Workers, Conns, Fds, Listed, Counted, Addresses, Stages;
    if s.conns[c].job.Some? {
      LinkOf(s, Some(c), c);
      var j := s.conns[c].job.value;
      if s.jobs[j].completed {
        var t := TakeCompleted(s, c).0;
        CancelRest(s, c);
        WithoutAbsent(s.queue, j);
        RemoveInv(s, c, t);
      }
    }
  }

  // ------------------------------------------------------------------------- closing descriptors

  lemma MarkInactiveInv(s: State, c: ConnId)
    requires InvX(s, Some(c)) && c in s.conns
    ensures InvX(MarkInactive(s, c), Some(c))
  {
    hide Lists, Tickets, Links, JobFlags, Workers, Conns, Fds, Listed, Counted, Addresses, Stages;
    if s.conns[c].counted {
      var t := MarkInactive(s, c);
      ConnsUncount(s.conns, s.main, c);
      LinksTouch(s.jobs, s.conns, c, t.conns[c]);
      FdsTouch(s.fds, s.conns, c, t.conns[c]);
      CountClose(s.list, s.metrics, s.conns, c, t.conns[c]);
      AddressesTouch(s.addrs, s.workers, s.conns, c, t.conns[c]);
      StagesConns(s, t);
    }
  }

  lemma ConnsUncount(conns: Connections, main: Main, c: ConnId)
    requires Conns(conns, main, Some(c)) && c in conns
    ensures Conns(conns[c := conns[c].(counted := false)], main, Some(c))
  {}

  lemma ConnsFree(conns: Connections, main: Main, c: ConnId)
    requires Conns(conns, main, Some(c))
    ensures Conns(conns - {c}, main, None)
  {}

  lemma ConnsKeep(conns: Connections, main: Main, c: ConnId)
    requires Conns(conns, main, Some(c)) && c in conns
    requires ConnOk(conns[c], main.Closing? && main.conn == c, false, main.Destroying?)
    ensures Conns(conns, main, None)
  {}

  /** The connection is freed exactly when nothing refers to it any more. */
  lemma FreeInv(s: State, c: ConnId)
    requires InvX(s, Some(c)) && c in s.conns && s.conns[c].job == None
    requires s.conns[c].references > 0 ==> ConnOk(s.conns[c], s.main.Closing? && s.main.conn == c, false, s.main.Destroying?)
    ensures InvX(FreeIfUnreferenced(s, c), None)
    ensures c in FreeIfUnreferenced(s, c).conns <==> s.conns[c].regClient.Some? || s.conns[c].regOrigin.Some?
  {
    hide Lists, Tickets, Links, JobFlags, Workers, Fds, Listed, Counted, Addresses, Stages, Conns;
    RefsOf(s.conns, s.main, c);
    if s.conns[c].references > 0 {
      ConnsKeep(s.conns, s.main, c);
    } else {
      MarkInactiveInv(s, c);
      var m := MarkInactive(s, c);
      var t := FreeIfUnreferenced(s, c);
      ConnsFree(m.conns, m.main, c);
      LinksFree(m.jobs, m.conns, c);
      FdsFree(m.fds, m.conns, c);
      CountFree(m.list, m.metrics, m.conns, c);
      AddressesDrop(m.addrs, m.workers, m.conns, c);
      StagesConns(m, t);
    }
  }

  lemma RefsOf(conns: Connections, main: Main, c: ConnId)
    requires Conns(conns, main, Some(c)) && c in conns
    ensures var conn := conns[c];
            conn.references == One(conn.regClient.Some?) + One(conn.regOrigin.Some?) + One(conn.job.Some?)
  {}

  lemma ConnsDrop(conns: Connections, main: Main, c: ConnId, conn: Conn)
    requires Conns(conns, main, None)
    requires ConnOk(conn, main.Closing? && main.conn == c, true, main.Destroying?)
    ensures Conns(conns[c := conn], main, Some(c))
  {}

  /** Descriptor `fd` leaves connection `c`, which becomes `next`. */
  lemma DropInv(s: State, c: ConnId, next: Conn, fd: Fd)
    requires InvX(s, None) && fd in s.fds && s.fds[fd] == c && c in s.conns
    requires if s.conns[c].regClient == Some(fd) then next.regClient == None && next.regOrigin == s.conns[c].regOrigin != Some(fd)
             else next.regClient == s.conns[c].regClient && next.regOrigin == None
    requires next.job == s.conns[c].job && next.done == s.conns[c].done && next.resolution == s.conns[c].resolution
    requires next.counted == s.conns[c].counted
    requires ConnOk(next, s.main.Closing? && s.main.conn == c, true, s.main.Destroying?)
    ensures InvX(s.(fds := s.fds - {fd}, conns := s.conns[c := next]), Some(c))
  {
    hide Lists, Tickets, Links, JobFlags, Workers, Conns, Fds, Listed, Counted, Addresses, Stages, ConnOk;
    ConnsDrop(s.conns, s.main, c, next);
    LinksTouch(s.jobs, s.conns, c, next);
    FdsDrop(s.fds, s.conns, fd, c, next);
    CountTouch(s.list, s.metrics, s.conns, c, next);
    AddressesTouch(s.addrs, s.workers, s.conns, c, next);
    StagesConns(s, s.(fds := s.fds - {fd}, conns := s.conns[c := next]));
  }

  /** What Settle leaves alone. */
  ghost predicate SameBut(s: State, t: State, c: ConnId) {
    && t.main == s.main && t.cursor == s.cursor && t.fds == s.fds && t.list == s.list
    && c in s.conns && c in t.conns && t.conns.Keys == s.conns.Keys
    && (forall d :: d in s.conns && d != c ==> t.conns[d] == s.conns[d])
    && t.conns[c].(job := None, references := 0, counted := false) == s.conns[c].(job := None, references := 0, counted := false)
  }

  lemma MarkSame(s: State, c: ConnId)
    requires c in s.conns
    ensures SameBut(s, MarkInactive(s, c), c) && MarkInactive(s, c).conns[c].job == s.conns[c].job && MarkInactive(s, c).jobs == s.jobs
  {}

  lemma CancelSame(s: State, c: ConnId)
    requires c in s.conns && (s.conns[c].job.Some? ==> s.conns[c].job.value in s.jobs)
    ensures SameBut(s, CancelConn(s, c), c) && CancelConn(s, c).conns[c].job == None
  {
    hide Without;
    if s.conns[c].job.Some? {
      assert CancelConn(s, c).conns == s.conns[c := Unlinked(s.conns[c])];
    }
  }

  lemma TakeSame(s: State, c: ConnId)
    requires c in s.conns && s.conns[c].job == None
    ensures SameBut(s, TakeCompleted(s, c).0, c) && TakeCompleted(s, c).0.conns[c].job == None
  {}

  lemma SettleInv(s: State, c: ConnId)
    requires InvX(s, Some(c)) && c in s.conns && !s.main.Releasing?
    requires (s.conns[c].clientFd == -1 && s.conns[c].originFd == -1) || s.conns[c].job == None
    ensures s.conns[c].job.Some? ==> s.conns[c].job.value in s.jobs
    ensures InvX(Settle(s, c), Some(c)) && SameBut(s, Settle(s, c), c) && Settle(s, c).conns[c].job == None
  {
    hide InvX, MarkInactive, CancelConn, TakeCompleted;
    if s.conns[c].clientFd == -1 && s.conns[c].originFd == -1 {
      MarkSame(s, c);
      MarkInactiveInv(s, c);
      CancelInv(MarkInactive(s, c), c);
      CancelSame(MarkInactive(s, c), c);
    } else {
      TakeInv(s, c);
      TakeSame(s, c);
    }
  }

  /** After its descriptor went, socks5_close leaves the connection settled, or frees it when nothing refers to it. */
  lemma CloseTail(s: State, c: ConnId)
    requires InvX(s, Some(c)) && c in s.conns && !s.main.Releasing?
    requires (s.conns[c].clientFd == -1 && s.conns[c].originFd == -1) || s.conns[c].job == None
    requires var d := s.conns[c];
             && (d.regOrigin.Some? ==> d.regClient.Some? || s.main.Destroying?)
             && (d.regClient.Some? ==> !d.phase.Resolve?)
    ensures s.conns[c].job.Some? ==> s.conns[c].job.value in s.jobs
    ensures var t := FreeIfUnreferenced(Settle(s, c), c);
            && InvX(t, None) && t.main == s.main && t.cursor == s.cursor && t.fds == s.fds
            && (forall d :: d in s.conns && d != c ==> d in t.conns && t.conns[d] == s.conns[d])
            && (c in t.conns <==> s.conns[c].regClient.Some? || s.conns[c].regOrigin.Some?)
            && (c in t.conns ==> SameBut(s, t, c) && t.conns[c].job == None)
  {
    hide Lists, Tickets, Links, JobFlags, Workers, Conns, Fds, Listed, Counted, Conserved, Addresses, Stages;
    SettleInv(s, c);
    ConnOf(Settle(s, c).conns, s.main, c);
    hide InvX, Settle;
    FreeInv(Settle(s, c), c);
  }

  lemma ConnOf(conns: Connections, main: Main, c: ConnId)
    requires Conns(conns, main, Some(c)) && c in conns
    ensures ConnOk(conns[c], main.Closing? && main.conn == c, true, main.Destroying?)
  {}
}
