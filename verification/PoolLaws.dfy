/** What each event does to the resolver pool and the connections, read off the states before and after. */
module PoolLaws {
  import opened Sequences
  import opened PoolState
  import opened PoolInvariant
  import opened PoolSteps
  import opened PoolRun
  import opened PoolTheorems

  // --------------------------------------------------------------------------------- the workers

  /** A worker that takes a job takes the oldest one queued, and leaves the others in their order; the job will
  not be looked up exactly if it has been cancelled or the pool is stopping. */
  lemma OldestIsTaken(events: seq<Event>, w: nat)
    ensures var s := Run(events); var t := Step(s, WorkerPop(w));
            t != s ==>
              && w < |t.workers| && t.workers[w].Resolving?
              && var j := t.workers[w].job;
                 && j in s.queue && j in s.jobs && s.queue == [j] + t.queue
                 && (forall k :: k in t.queue ==> k in s.jobs && s.jobs[j].ticket < s.jobs[k].ticket)
                 && (t.workers[w].skip <==> s.jobs[j].canceled || s.stopping)
  {
    hide Run, InvX, Focus;
    var s := Run(events);
    if Step(s, WorkerPop(w)) != s {
      QueueOrder(s);
      PopJobInv(s, w);
    }
  }

  lemma QueueOrder(s: State)
    requires Inv(s) && s.queue != []
    ensures s.queue[0] in s.jobs
    ensures forall k :: k in s.queue[1..] ==> k in s.jobs && s.jobs[s.queue[0]].ticket < s.jobs[k].ticket
  {
    hide Links, JobFlags, Workers, Conns, Fds, Listed, Counted, Addresses, Conserved, Stages, Focus;
    forall k | k in s.queue
      ensures k in s.jobs
    {
      assert Queued(s.jobs, s.all, k);
    }
    forall k | k in s.queue[1..]
      ensures s.jobs[s.queue[0]].ticket < s.jobs[k].ticket
    {
      var i :| 0 <= i < |s.queue[1..]| && s.queue[1..][i] == k;
      assert s.queue[i + 1] == k;
    }
  }

  /** A worker that looked a name up holds the answer, and one that did not holds none. */
  lemma AnswerIsHeld(s: State, w: nat, answer: Option<AddrId>)
    requires Inv(s) && w < |s.workers| && s.workers[w].Resolving? && (answer.Some? ==> answer.value !in s.addrs)
    ensures var t := Step(s, WorkerLookup(w, answer)); var found := if s.workers[w].skip then None else answer;
            && t.workers == s.workers[w := Publishing(s.workers[w].job, found)]
            && t.jobs == s.jobs && t.conns == s.conns && t.queue == s.queue
            && t.addrs == if found.Some? then s.addrs[found.value := HeldBy(w)] else s.addrs
  {
    hide InvX, Focus;
  }

  /** Publishing for a connection that still waits gives it the answer and wakes its client's descriptor; publishing
  for one that has gone away frees the job and the answer. */
  lemma AnswerIsPublished(s: State, w: nat)
    requires Inv(s) && w < |s.workers| && s.workers[w].Publishing?
    ensures var t := Step(s, WorkerPublish(w)); var j := s.workers[w].job; var found := s.workers[w].found;
            && j in s.jobs
            && (s.jobs[j].conn.None? ==> j !in t.jobs && t.conns == s.conns && (found.Some? ==> found.value !in t.addrs) && t.workers[w].Waiting?)
            && (s.jobs[j].conn.Some? ==>
                  var c := s.jobs[j].conn.value;
                  && c in s.conns && j in t.jobs && t.jobs[j].completed && t.conns.Keys == s.conns.Keys && t.conns[c].done && t.conns[c].job == Some(j)
                  && (forall d :: d in s.conns && d != c ==> t.conns[d] == s.conns[d])
                  && if s.jobs[j].canceled || s.stopping then t.conns[c].resolution == None && (found.Some? ==> found.value !in t.addrs)
                     else t.conns[c].resolution == found && t.addrs.Keys == s.addrs.Keys
                          && (s.jobs[j].notifyFd >= 0 ==> t.workers[w] == Notifying(s.jobs[j].notifyFd)))
  {
    hide InvX, Focus;
    PublishInv(s, w);
    Unpublished(s, w);
  }

  lemma Unpublished(s: State, w: nat)
    requires Inv(s) && w < |s.workers| && s.workers[w].Publishing?
    ensures var j := s.workers[w].job;
            && j in s.jobs && (s.jobs[j].conn.Some? ==> s.jobs[j].conn.value in s.conns)
            && (s.jobs[j].conn.Some? ==> s.conns[s.jobs[j].conn.value].resolution == None && s.conns[s.jobs[j].conn.value].job == Some(j))
            && (s.workers[w].found.Some? ==> s.workers[w].found.value in s.addrs)
  {
    hide Lists, Tickets, Conns, Fds, Listed, Counted, Conserved, Stages, Focus;
    assert Holds(s.workers, w, s.workers[w].job);
  }

  // ------------------------------------------------------------------------------ the main thread

  /** The main thread may take an event for the connection behind a descriptor. */
  ghost predicate Reaches(s: State, fd: Fd) {
    s.main.Ready? && s.cursor.NoSweep? && fd in s.fds
  }

  /** A name is queued, last, for the client's descriptor, exactly if the pool runs or can be started, there are fewer
  than 64 jobs and memory for one; otherwise the request is answered at once. */
  lemma NameIsQueued(s: State, fd: Fd, created: nat, block: JobId)
    requires Inv(s) && Reaches(s, fd) && s.fds[fd] in s.conns && s.conns[s.fds[fd]].phase.Handshake?
    ensures var t := Step(s, RequestName(fd, created, block)); var c := s.fds[fd];
            && c in t.conns
            && if (s.started || created >= 4) && block !in s.jobs && |s.all| < 64 then
                 && t.conns[c] == s.conns[c].(phase := Resolve, job := Some(block), done := false, references := s.conns[c].references + 1)
                 && t.queue == s.queue + [block] && t.jobs == s.jobs[block := Job(Some(c), fd, false, false, false, s.tickets)]
                 && t.started && t.tickets == s.tickets + 1
               else t.conns[c] == s.conns[c].(phase := Replying) && t.queue == s.queue && t.jobs == s.jobs
  {
    hide InvX, Focus;
    EventTarget(s, fd);
    ReadyFacts(s, s.fds[fd], fd);
    PoolStartInv(s, created);
    var p := PoolStart(s, created);
    if p.started && block !in p.jobs {
      QueueJobInv(p, s.fds[fd], block);
    }
  }

  lemma ReadyFacts(s: State, c: ConnId, fd: Fd)
    requires Inv(s) && s.main.Ready? && c in s.conns && s.conns[c].phase.Handshake? && fd in s.fds && s.fds[fd] == c
    ensures s.inSystem == |s.all| && (s.started ==> !s.stopping) && s.conns[c].clientFd == fd && s.conns[c].job == None && !s.conns[c].done
  {
    hide Tickets, Links, JobFlags, Workers, Listed, Counted, Addresses, Conserved, Focus;
    ConnOfAny(s.conns, s.main, None, c);
  }

  /** A connection that has its answer moves on: without an address to a reply, with one to the origin that could be
  registered. One that has none yet goes on waiting. */
  lemma WokenMovesOn(s: State, fd: Fd, attempt: Attempt)
    requires Inv(s) && Reaches(s, fd) && Fresh(s, attempt) && s.fds[fd] in s.conns && s.conns[s.fds[fd]].phase.Resolve?
    ensures var t := Step(s, Woken(fd, attempt)); var c := s.fds[fd]; var conn := s.conns[c];
            if !conn.done then t == s
            else
              && c in t.conns && t.conns[c].job == None && t.conns[c].regClient == Some(fd) && t.conns[c].resolution == conn.resolution
              && (conn.job.Some? ==> conn.job.value !in t.jobs)
              && if conn.resolution.Some? && attempt.Registered? then
                   && t.conns[c].regOrigin == Some(attempt.fd) && t.fds == s.fds[attempt.fd := c]
                   && t.conns[c].phase == (if attempt.immediate then Replying else Connecting)
                 else t.conns[c].regOrigin == None && t.fds == s.fds && t.conns[c].phase.Replying?
  {
    hide InvX, Focus, TakeCompleted, Connect;
    var c := s.fds[fd];
    EventTarget(s, fd);
    WaitingFacts(s, c, fd);
    Taken(s, c);
    Connected(TakeCompleted(s, c).0, c, attempt);
  }

  lemma Taken(s: State, c: ConnId)
    requires c in s.conns && (s.conns[c].job.Some? ==> s.conns[c].job.value in s.jobs)
    ensures var (t, taken) := TakeCompleted(s, c); var conn := s.conns[c];
            var complete := conn.job.None? || s.jobs[conn.job.value].completed;
            && (taken <==> complete && conn.done) && (!complete ==> t == s)
            && t.fds == s.fds && t.main == s.main && c in t.conns
            && t.conns[c].resolution == conn.resolution && t.conns[c].regClient == conn.regClient && t.conns[c].regOrigin == conn.regOrigin
            && (complete ==> t.conns[c].job == None) && (complete && conn.job.Some? ==> conn.job.value !in t.jobs)
  {
    hide Without;
  }

  lemma Connected(s: State, c: ConnId, attempt: Attempt)
    requires c in s.conns
    ensures var t := Connect(s, c, attempt);
            && c in t.conns && t.jobs == s.jobs && t.main == s.main && t.conns[c].job == s.conns[c].job && t.conns[c].regClient == s.conns[c].regClient
            && t.conns[c].resolution == s.conns[c].resolution
            && if attempt.Registered? then
                 && t.conns[c].regOrigin == Some(attempt.fd) && t.fds == s.fds[attempt.fd := c]
                 && t.conns[c].phase == (if attempt.immediate then Replying else Connecting)
               else t.conns[c].regOrigin == s.conns[c].regOrigin && t.fds == s.fds && t.conns[c].phase.Replying?
  {}

  lemma WaitingFacts(s: State, c: ConnId, fd: Fd)
    requires Inv(s) && s.main.Ready? && c in s.conns && s.conns[c].phase.Resolve? && fd in s.fds && s.fds[fd] == c
    ensures s.conns[c].regClient == Some(fd) && s.conns[c].regOrigin == None
    ensures s.conns[c].job.Some? ==> s.conns[c].job.value in s.jobs && s.jobs[s.conns[c].job.value].completed == s.conns[c].done
    ensures s.conns[c].job.None? ==> s.conns[c].done
  {
    hide Lists, Tickets, Workers, Listed, Counted, Addresses, Conserved, Stages, Focus;
    ConnOfAny(s.conns, s.main, None, c);
    if s.conns[c].job.Some? {
      assert s.jobs[s.conns[c].job.value].conn == Some(c);
    }
  }

  /** From the lookup to the origin: a name that was found, for a connection that still waits, gets that connection
  an origin as soon as one can be registered. */
  lemma NameIsConnected(s: State, w: nat, a: AddrId, ofd: Fd, immediate: bool)
    requires Inv(s) && s.main.Ready? && s.cursor.NoSweep? && !s.stopping && a !in s.addrs && ofd !in s.fds
    requires w < |s.workers| && s.workers[w].Resolving? && !s.workers[w].skip && s.workers[w].job in s.jobs
    requires var job := s.jobs[s.workers[w].job]; job.conn.Some? && !job.canceled
    ensures var c := s.jobs[s.workers[w].job].conn.value;
            && c in s.conns && s.conns[c].regClient.Some?
            && var t := Step(Step(Step(s, WorkerLookup(w, Some(a))), WorkerPublish(w)), Woken(s.conns[c].regClient.value, Registered(ofd, immediate)));
               c in t.conns && t.conns[c].regOrigin == Some(ofd) && t.conns[c].resolution == Some(a)
  {
    hide InvX, Focus, Step;
    var j := s.workers[w].job;
    AskerWaits(s, w);
    var c := s.jobs[j].conn.value;
    AnswerIsHeld(s, w, Some(a));
    var t1 := Step(s, WorkerLookup(w, Some(a)));
    MainStays(s, WorkerLookup(w, Some(a)));
    AnswerIsPublished(t1, w);
    MainStays(t1, WorkerPublish(w));
    var t2 := Step(t1, WorkerPublish(w));
    StillRegistered(t1, w, c);
    WokenMovesOn(t2, s.conns[c].regClient.value, Registered(ofd, immediate));
  }

  lemma AskerWaits(s: State, w: nat)
    requires Inv(s) && s.main.Ready? && w < |s.workers| && s.workers[w].Resolving? && s.workers[w].job in s.jobs && s.jobs[s.workers[w].job].conn.Some?
    ensures var c := s.jobs[s.workers[w].job].conn.value;
            c in s.conns && s.conns[c].phase.Resolve? && s.conns[c].regClient.Some? && s.conns[c].regClient.value in s.fds && s.fds[s.conns[c].regClient.value] == c
  {
    hide Lists, Tickets, JobFlags, Workers, Listed, Counted, Addresses, Conserved, Stages, Focus;
    var c := s.jobs[s.workers[w].job].conn.value;
    ConnOfAny(s.conns, s.main, None, c);
  }

  lemma MainStays(s: State, e: Event)
    requires Inv(s) && IsWorkerEvent(e)
    ensures var t := Step(s, e); t.main == s.main && t.cursor == s.cursor && t.fds == s.fds && t.stopping == s.stopping && t.list == s.list
  {
    hide InvX, Focus;
    if e.WorkerPublish? && e.w < |s.workers| && s.workers[e.w].Publishing? {
      PublishInv(s, e.w);
    } else if e.WorkerPop? && e.w < |s.workers| && s.workers[e.w].Waiting? && s.queue != [] {
      PopJobInv(s, e.w);
    }
  }

  lemma StillRegistered(s: State, w: nat, c: ConnId)
    requires Inv(s) && w < |s.workers| && s.workers[w].Publishing? && c in s.conns && s.conns[c].phase.Resolve?
    ensures var t := Step(s, WorkerPublish(w)); c in t.conns && t.conns[c].phase.Resolve? && t.conns[c].regClient == s.conns[c].regClient
  {
    hide InvX, Focus;
    PublishInv(s, w);
  }

  // ---------------------------------------------------------------------------- closing a connection

  /** Finishing a connection takes one step for each of its descriptors, after which it is gone with them and every
  other connection and descriptor is as it was. */
  lemma FinishCloses(s: State, fd: Fd)
    requires Inv(s) && Reaches(s, fd) && s.fds[fd] in s.conns
    ensures var c := s.fds[fd]; var t := Step(Step(s, Finish(fd)), CloseNext);
            var u := if s.conns[c].regOrigin.Some? then Step(t, CloseNext) else t;
            && u.main.Ready? && u.conns == s.conns - {c} && u.list == Without(s.list, c)
            && u.fds == (map x | x in s.fds && s.fds[x] != c :: s.fds[x])
            && (s.conns[c].job.Some? && s.conns[c].job.value in u.jobs ==> u.jobs[s.conns[c].job.value].conn == None)
  {
    hide InvX, Focus, Step;
    var c := s.fds[fd];
    EventTarget(s, fd);
    ClosingStarts(s, fd);
    var s1 := Step(s, Finish(fd));
    if s.conns[c].regOrigin.Some? {
      OriginCloses(s1);
      LastCloses(Step(s1, CloseNext));
      OwnFds(s, c);
    } else {
      LastCloses(s1);
      OwnFds(s, c);
    }
  }

  lemma OwnFds(s: State, c: ConnId)
    requires Inv(s) && s.main.Ready? && c in s.conns
    ensures s.conns[c].regClient.Some? && s.conns[c].regClient != s.conns[c].regOrigin
    ensures forall x :: x in s.fds ==> (s.fds[x] == c <==> s.conns[c].regClient == Some(x) || s.conns[c].regOrigin == Some(x))
  {
    hide Lists, Tickets, Links, JobFlags, Workers, Listed, Counted, Addresses, Conserved, Stages, Focus;
    ConnOfAny(s.conns, s.main, None, c);
  }

  lemma ClosingStarts(s: State, fd: Fd)
    requires Inv(s) && Reaches(s, fd) && s.fds[fd] in s.conns
    ensures var t := Step(s, Finish(fd)); var c := s.fds[fd];
            && t.main.Closing? && t.main.conn == c && t.fds == s.fds && t.list == s.list && t.jobs == s.jobs
            && t.conns == s.conns[c := s.conns[c].(clientFd := -1, originFd := -1)]
  {
    hide InvX, Focus;
    EventTarget(s, fd);
  }

  /** The first of two descriptors. */
  lemma OriginCloses(s: State)
    requires Inv(s) && s.main.Closing? && s.main.conn in s.conns && s.conns[s.main.conn].regOrigin.Some?
    ensures var t := Step(s, CloseNext); var c := s.main.conn;
            && t.main.Closing? && t.main.conn == c && c in t.conns && t.conns[c].regOrigin == None && t.conns[c].regClient == s.conns[c].regClient
            && t.fds == s.fds - {s.conns[c].regOrigin.value} && t.list == s.list && t.conns - {c} == s.conns - {c}
            && s.conns[c].job == None
  {
    hide InvX, Focus;
    CloseStepInv(s);
    ClosingShape(s);
  }

  /** The last one frees the connection. */
  lemma LastCloses(s: State)
    requires Inv(s) && s.main.Closing? && s.main.conn in s.conns && s.conns[s.main.conn].regOrigin.None?
    ensures var t := Step(s, CloseNext); var c := s.main.conn;
            && t.main.Ready? && t.conns == s.conns - {c} && t.list == Without(s.list, c) && s.conns[c].regClient.Some?
            && t.fds == s.fds - {s.conns[c].regClient.value}
            && (s.conns[c].job.Some? && s.conns[c].job.value in t.jobs ==> t.jobs[s.conns[c].job.value].conn == None)
  {
    hide InvX, Focus, CloseFd;
    CloseStepInv(s);
    ClosingShape(s);
    LastFd(s, s.main.fds[0]);
  }

  lemma LastFd(s: State, fd: Fd)
    requires fd in s.fds && s.fds[fd] in s.conns && ConnOk(s.conns[s.fds[fd]], true, false, false)
    requires var conn := s.conns[s.fds[fd]]; conn.regClient == Some(fd) && conn.regOrigin == None && (conn.job.Some? ==> conn.job.value in s.jobs)
    ensures var t := CloseFd(s, fd); var c := s.fds[fd];
            && t.conns == s.conns - {c} && t.list == Without(s.list, c) && t.fds == s.fds - {fd} && t.main == s.main
            && (s.conns[c].job.Some? && s.conns[c].job.value in t.jobs ==> t.jobs[s.conns[c].job.value].conn == None)
  {
    hide MarkInactive, CancelConn, FreeIfUnreferenced, Without;
    var c := s.fds[fd];
    var t1 := DropFd(s, fd);
    Marked(t1, c);
    var t2 := MarkInactive(t1, c);
    Cancelled(t2, c);
    var t3 := CancelConn(t2, c);
    Freed(t3, c);
    assert t3.conns - {c} == s.conns - {c};
  }

  lemma Marked(s: State, c: ConnId)
    requires c in s.conns
    ensures var t := MarkInactive(s, c);
            t.jobs == s.jobs && t.fds == s.fds && t.list == s.list && t.main == s.main && t.conns == s.conns[c := s.conns[c].(counted := false)]
  {}

  lemma Cancelled(s: State, c: ConnId)
    requires c in s.conns && (s.conns[c].job.Some? ==> s.conns[c].job.value in s.jobs)
    ensures var t := CancelConn(s, c); var conn := s.conns[c];
            && t.fds == s.fds && t.list == s.list && t.main == s.main
            && t.conns == s.conns[c := conn.(job := None, references := conn.references - One(conn.job.Some?))]
            && (conn.job.Some? && conn.job.value in t.jobs ==> t.jobs[conn.job.value].conn == None)
  {}

  lemma Freed(s: State, c: ConnId)
    requires c in s.conns && s.conns[c].references <= 0
    ensures var t := FreeIfUnreferenced(s, c);
            t.jobs == s.jobs && t.fds == s.fds && t.list == Without(s.list, c) && t.main == s.main && t.conns == s.conns - {c}
  {}

  lemma ClosingShape(s: State)
    requires Inv(s) && s.main.Closing?
    ensures s.main.conn in s.conns && s.main.fds == OpenFds(s.conns[s.main.conn]) && s.main.fds != []
    ensures s.main.fds[0] in s.fds && s.fds[s.main.fds[0]] == s.main.conn
    ensures ConnOk(s.conns[s.main.conn], true, false, false)
  {
    hide Lists, Tickets, JobFlags, Workers, Listed, Counted, Addresses, Conserved, Stages;
    ClosingReady(s);
    ConnOfAny(s.conns, s.main, None, s.main.conn);
  }
}
