/** Every critical section keeps the invariant of the resolver pool. */
module PoolSteps {
  import opened Sequences
  import opened PoolState
  import opened PoolInvariant
  import opened PoolFrames

  lemma InitInv()
    ensures Inv(INIT)
  {
    hide Lists, Workers, Addresses, Stages;
    InitLists();
  }

  lemma InitLists()
    ensures Lists(map[], [], [], [], 0)
    ensures Workers(INIT.workers, map[], [])
    ensures Addresses(map[], INIT.workers, map[])
    ensures Stages(INIT)
  {}

  // ------------------------------------------------------------------------------ worker steps

  lemma PopJobInv(s: State, w: nat)
    requires Inv(s) && w < |s.workers| && s.workers[w].Waiting? && s.queue != []
    ensures s.queue[0] in s.jobs
    ensures Inv(PopJob(s, w))
  {
    hide Lists, Tickets, Links, JobFlags, Workers, Conns, Fds, Listed, Counted, Addresses, Stages, Focus;
    ListsPop(s.jobs, s.queue, s.all, Rest(s.main), s.inSystem);
    var j := s.queue[0];
    var t := PopJob(s, w);
    TicketsPop(s.jobs, s.queue, s.all, s.tickets, j, t.jobs[j]);
    WorkersPop(s.workers, w, t.workers[w], s.jobs, s.all, j, t.jobs[j]);
    AddressesMove(s.addrs, s.workers, s.conns, w, t.workers[w]);
    PopLinks(s.jobs, s.conns, j);
    PopStages(s, w);
    assert t.jobs.Keys == s.jobs.Keys;
  }

  lemma PopLinks(jobs: Jobs, conns: Connections, j: JobId)
    requires Links(jobs, conns) && JobFlags(jobs, conns) && j in jobs && !jobs[j].completed
    ensures var next := jobs[j := jobs[j].(running := true)]; Links(next, conns) && JobFlags(next, conns)
  {}

  lemma PopStages(s: State, w: nat)
    requires Stages(s) && w < |s.workers| && s.workers[w].Waiting? && s.queue != [] && s.queue[0] in s.jobs
    ensures Stages(PopJob(s, w))
  {}

  lemma LookupInv(s: State, w: nat, answer: Option<AddrId>)
    requires Inv(s) && w < |s.workers| && s.workers[w].Resolving?
    requires answer.Some? ==> answer.value !in s.addrs
    ensures Inv(Lookup(s, w, answer))
  {
    hide Lists, Tickets, Links, JobFlags, Workers, Conns, Fds, Listed, Counted, Addresses, Stages, Focus;
    var t := Lookup(s, w, answer);
    WorkersMove(s.workers, w, t.workers[w], s.jobs, s.all);
    StagesMove(s, w, t);
    if t.workers[w].found.Some? {
      AddressesFind(s.addrs, s.workers, s.conns, w, t.workers[w], answer.value);
    } else {
      AddressesMove(s.addrs, s.workers, s.conns, w, t.workers[w]);
    }
  }

  /** Stages when a live worker moves to another live step. */
  lemma StagesMove(s: State, w: nat, t: State)
    requires Stages(s) && w < |s.workers| && !s.workers[w].Absent? && !s.workers[w].Exited?
    requires |t.workers| == |s.workers| && t.workers == s.workers[w := t.workers[w]]
    requires !t.workers[w].Absent? && !t.workers[w].Exited?
    requires t.started == s.started && t.stopping == s.stopping && t.queue == s.queue && (s.all == [] ==> t.all == [])
    requires t.main == s.main && t.cursor == s.cursor
    requires forall j {:trigger t.jobs[j]} :: j in t.jobs ==> j in s.jobs && (s.jobs[j].completed ==> t.jobs[j].completed)
    ensures Stages(t)
  {}

  /** The worker about to publish holds a live job, whose connection, if any, is live too. */
  lemma PublishReady(s: State, w: nat)
    requires Workers(s.workers, s.jobs, s.all) && Links(s.jobs, s.conns)
    requires Lists(s.jobs, s.queue, s.all, Rest(s.main), s.inSystem)
    requires w < |s.workers| && s.workers[w].Publishing?
    ensures var j := s.workers[w].job;
            && Holds(s.workers, w, j)
            && j in s.jobs && j in s.all && j !in s.queue && s.jobs[j].running && !Queued(s.jobs, s.all, j)
            && (s.jobs[j].conn.Some? ==> s.jobs[j].conn.value in s.conns && s.conns[s.jobs[j].conn.value].job == Some(j))
  {
    assert Holds(s.workers, w, s.workers[w].job);
    assert !Queued(s.jobs, s.all, s.workers[w].job);
  }

  lemma PublishInv(s: State, w: nat)
    requires Inv(s) && w < |s.workers| && s.workers[w].Publishing?
    ensures var j := s.workers[w].job;
            j in s.jobs && (s.jobs[j].conn.Some? ==> s.jobs[j].conn.value in s.conns)
    ensures Inv(Publish(s, w))
  {
    hide Lists, Tickets, Links, JobFlags, Workers, Conns, Fds, Listed, Counted, Addresses, Stages, Focus;
    PublishReady(s, w);
    if s.jobs[s.workers[w].job].conn.Some? {
      PublishLinkedInv(s, w);
    } else {
      PublishDetachedInv(s, w);
    }
  }

  lemma PublishLinkedInv(s: State, w: nat)
    requires Inv(s) && w < |s.workers| && s.workers[w].Publishing? && Holds(s.workers, w, s.workers[w].job)
    requires s.workers[w].job in s.jobs && s.jobs[s.workers[w].job].conn.Some?
    requires s.jobs[s.workers[w].job].conn.value in s.conns && s.conns[s.jobs[s.workers[w].job].conn.value].job.Some?
    requires s.jobs[s.workers[w].job].running && !Queued(s.jobs, s.all, s.workers[w].job)
    ensures Inv(Publish(s, w))
  {
    hide Lists, Tickets, Links, JobFlags, Workers, Conns, Fds, Listed, Counted, Addresses, Stages, Focus;
    var Publishing(j, found) := s.workers[w];
    var c := s.jobs[j].conn.value;
    var t := Publish(s, w);
    ListsUpdate(s.jobs, s.queue, s.all, Rest(s.main), s.inSystem, j, t.jobs[j]);
    TicketsUpdate(s.jobs, s.queue, s.all, s.tickets, j, t.jobs[j]);
    LinksUpdate(s.jobs, s.conns, j, t.jobs[j], c, t.conns[c]);
    FlagsUpdate(s.jobs, s.conns, j, t.jobs[j], c, t.conns[c]);
    WorkersLetGo(s.workers, w, t.workers[w], s.jobs, s.all, j, t.jobs, t.all);
    PublishConns(s.conns, s.main, s.cursor, c, t.conns[c]);
    FdsTouch(s.fds, s.conns, c, t.conns[c]);
    CountTouch(s.list, s.metrics, s.conns, c, t.conns[c]);
    StagesMove(s, w, t);
    Unanswered(s.jobs, s.conns, j);
    if found.None? {
      AddressesMove(s.addrs, s.workers, s.conns, w, t.workers[w]);
      AddressesTouch(s.addrs, t.workers, s.conns, c, t.conns[c]);
    } else if s.jobs[j].canceled || s.stopping {
      AddressesFree(s.addrs, s.workers, s.conns, w, t.workers[w], found.value);
      AddressesTouch(t.addrs, t.workers, s.conns, c, t.conns[c]);
    } else {
      AddressesStore(s.addrs, s.workers, s.conns, w, t.workers[w], found.value, c, t.conns[c]);
    }
    assert t.jobs.Keys == s.jobs.Keys;
  }

  lemma PublishConns(conns: Connections, main: Main, cursor: Cursor, c: ConnId, conn: Conn)
    requires Conns(conns, main, None) && Focus(main, cursor, conns) && c in conns
    requires conns[c].job.Some? && conn == conns[c].(done := true, resolution := conn.resolution)
    ensures Conns(conns[c := conn], main, None) && Focus(main, cursor, conns[c := conn])
  {}

  lemma Unanswered(jobs: Jobs, conns: Connections, j: JobId)
    requires JobFlags(jobs, conns) && j in jobs && jobs[j].running && jobs[j].conn.Some? && jobs[j].conn.value in conns
    ensures conns[jobs[j].conn.value].resolution == None
  {}

  lemma PublishDetachedInv(s: State, w: nat)
    requires Inv(s) && w < |s.workers| && s.workers[w].Publishing? && Holds(s.workers, w, s.workers[w].job)
    requires s.workers[w].job in s.jobs && s.jobs[s.workers[w].job].conn.None?
    requires s.workers[w].job in s.all && s.workers[w].job !in s.queue
    ensures Inv(Publish(s, w))
  {
    hide Tickets, Links, JobFlags, Workers, Conns, Fds, Listed, Counted, Addresses, Stages, Focus, Lists;
    var Publishing(j, found) := s.workers[w];
    var t := Publish(s, w);
    DropLists(s, j);
    WithoutAbsent(s.queue, j);
    LinksForget(s.jobs, s.conns, j);
    WithoutMembers(s.all, j);
    WorkersLetGo(s.workers, w, t.workers[w], s.jobs, s.all, j, t.jobs, t.all);
    StagesMove(s, w, t);
    if found.None? {
      AddressesMove(s.addrs, s.workers, s.conns, w, t.workers[w]);
    } else {
      AddressesFree(s.addrs, s.workers, s.conns, w, t.workers[w], found.value);
    }
  }

  /** Both lists after a job has been taken off them. */
  lemma DropLists(s: State, j: JobId)
    requires Lists(s.jobs, s.queue, s.all, Rest(s.main), s.inSystem) && Tickets(s.jobs, s.queue, s.all, s.tickets) && j in s.all
    ensures Lists(s.jobs - {j}, Without(s.queue, j), Without(s.all, j), Rest(s.main), s.inSystem - 1)
    ensures Tickets(s.jobs - {j}, Without(s.queue, j), Without(s.all, j), s.tickets)
    ensures j in s.jobs && |s.jobs - {j}| == |s.jobs| - 1
    ensures NoDup(s.all) && NoDup(s.queue)
  {
    ListsDrop(s.jobs, s.queue, s.all, Rest(s.main), s.inSystem, j);
    TicketsDrop(s.jobs, s.queue, s.all, s.tickets, j);
  }
}
