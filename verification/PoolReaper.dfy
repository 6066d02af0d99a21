/** What the handlers and the reaper do to a connection that connects, waits or is idle. */
module PoolReaper {
  import opened Sequences
  import opened PoolState
  import opened PoolInvariant
  import opened PoolRun
  import opened PoolShutdown
  import opened PoolTheorems
  import opened PoolLaws

  /** The two descriptors of a connection whose request is under way. */
  ghost predicate TwoSided(fds: map<Fd, ConnId>, conn: Conn, c: ConnId) {
    && conn.regClient.Some? && conn.regOrigin.Some? && conn.regClient != conn.regOrigin && conn.job == None && conn.references == 2
    && conn.clientFd == conn.regClient.value && conn.regOrigin.value in fds && fds[conn.regOrigin.value] == c
  }

  lemma SidesOf(s: State, c: ConnId)
    requires Inv(s) && !s.main.Closing? && !s.main.Destroying? && c in s.conns && s.conns[c].regOrigin.Some?
    ensures TwoSided(s.fds, s.conns[c], c) && s.conns[c].originFd == s.conns[c].regOrigin.value
  {
    hide Lists, Tickets, Links, JobFlags, Workers, Listed, Counted, Addresses, Conserved, Stages, Focus;
    ConnOfAny(s.conns, s.main, None, c);
  }

  /** Closing the origin's descriptor: it is gone, and nothing else has changed. */
  lemma OriginDropped(s: State, c: ConnId)
    requires c in s.conns && TwoSided(s.fds, s.conns[c], c) && (s.conns[c].originFd == -1 || s.conns[c].originFd == s.conns[c].regOrigin.value)
    ensures var conn := s.conns[c]; var fd := conn.regOrigin.value;
            CloseFd(s, fd) == s.(fds := s.fds - {fd}, conns := s.conns[c := conn.(originFd := -1, regOrigin := None, references := 1)])
  {}

  /** A connect that completes leads to the reply; one that fails closes its descriptor, and the next that can be
  registered takes its place, or else the request is answered. */
  lemma ConnectIsSettled(s: State, fd: Fd, ok: bool, attempt: Attempt)
    requires Inv(s) && Reaches(s, fd) && s.fds[fd] in s.conns && s.conns[s.fds[fd]].phase.Connecting? && s.conns[s.fds[fd]].regOrigin == Some(fd)
    ensures var t := Step(s, ConnectResult(fd, ok, attempt)); var c := s.fds[fd];
            && c in t.conns && t.conns[c].regClient == s.conns[c].regClient && t.jobs == s.jobs && t.conns - {c} == s.conns - {c}
            && if ok then t.conns[c].regOrigin == Some(fd) && t.fds == s.fds && t.conns[c].phase.Replying?
               else if attempt.Registered? && (attempt.fd == fd || attempt.fd !in s.fds) then
                 && t.conns[c].regOrigin == Some(attempt.fd) && t.fds == (s.fds - {fd})[attempt.fd := c]
                 && t.conns[c].phase == (if attempt.immediate then Replying else Connecting)
               else t.conns[c].regOrigin == None && t.fds == s.fds - {fd} && t.conns[c].phase.Replying?
  {
    hide InvX, Focus, CloseFd, TwoSided, Connect;
    EventTarget(s, fd);
    SidesOf(s, s.fds[fd]);
    OriginDropped(s, s.fds[fd]);
    var d := CloseFd(s, fd);
    Connected(d, s.fds[fd], attempt);
    Connected(d, s.fds[fd], Exhausted);
    OthersKept(d, s.fds[fd], attempt);
    OthersKept(d, s.fds[fd], Exhausted);
  }

  lemma OthersKept(s: State, c: ConnId, attempt: Attempt)
    requires c in s.conns
    ensures Connect(s, c, attempt).conns - {c} == s.conns - {c}
  {}

  /** A request for an address is tried at once. */
  lemma AddressIsTried(s: State, fd: Fd, attempt: Attempt)
    requires Inv(s) && Reaches(s, fd) && Fresh(s, attempt) && s.fds[fd] in s.conns && s.conns[s.fds[fd]].phase.Handshake?
    ensures var t := Step(s, RequestAddress(fd, attempt)); var c := s.fds[fd];
            && c in t.conns && t.conns[c].regClient == Some(fd) && t.jobs == s.jobs
            && if attempt.Registered? then
                 && t.conns[c].regOrigin == Some(attempt.fd) && t.fds == s.fds[attempt.fd := c]
                 && t.conns[c].phase == (if attempt.immediate then Replying else Connecting)
               else t.conns[c].regOrigin == None && t.fds == s.fds && t.conns[c].phase.Replying?
  {
    hide InvX, Focus, Connect;
    EventTarget(s, fd);
    OwnFds(s, s.fds[fd]);
    Connected(s, s.fds[fd], attempt);
  }

  /** A visit of the reaper: a finished lookup is about to be taken; otherwise a connection that is not idle is left
  alone, and of those that are one that connects is failed and loses its origin, one that waits for a name is about
  to be cancelled, and any other is being closed. */
  lemma VisitMeans(s: State, expired: bool)
    requires Inv(s) && s.main.Ready? && s.cursor.At? && s.cursor.next.Some?
    ensures var t := Step(s, SweepVisit(expired)); var c := s.cursor.next.value;
            && c in s.conns
            && var conn := s.conns[c];
               if conn.phase.Resolve? && conn.done then t == s.(cursor := t.cursor, main := Taking(c))
               else if !expired then t == s.(cursor := t.cursor)
               else if conn.phase.Resolve? then t == s.(cursor := t.cursor, main := Canceling(c))
               else if conn.phase.Connecting? then
                 && c in t.conns && t.conns[c].phase.Replying? && t.conns[c].regOrigin == None && t.conns[c].regClient == conn.regClient
                 && t.main.Ready? && t.conns - {c} == s.conns - {c}
                 && t.fds == if conn.regOrigin.Some? then s.fds - {conn.regOrigin.value} else s.fds
               else
                 && t.main.Closing? && t.main.conn == c && t.fds == s.fds && t.list == s.list
                 && t.conns == s.conns[c := conn.(clientFd := -1, originFd := -1)]
  {
    hide InvX, Focus, RequestFail;
    VisitInv(s, expired);
    var c := s.cursor.next.value;
    var t := s.(cursor := At(Successor(s.list, c)));
    if s.conns[c].regOrigin.Some? {
      SidesOf(s, c);
      FailedVisit(t, c);
    } else {
      NoOrigin(s, c);
      FailedPlain(t, c);
    }
  }

  /** The reply of a request whose connect took too long. */
  lemma FailedVisit(s: State, c: ConnId)
    requires c in s.conns && TwoSided(s.fds, s.conns[c], c) && s.conns[c].originFd == s.conns[c].regOrigin.value
    ensures var t := RequestFail(s, c); var conn := s.conns[c];
            && c in t.conns && t.conns[c].phase.Replying? && t.conns[c].regOrigin == None && t.conns[c].regClient == conn.regClient
            && t.main == s.main && t.cursor == s.cursor && t.conns - {c} == s.conns - {c} && t.fds == s.fds - {conn.regOrigin.value}
  {
    hide CloseFd;
    var blank := s.(conns := s.conns[c := s.conns[c].(originFd := -1)]);
    OriginDropped(blank, c);
  }

  lemma FailedPlain(s: State, c: ConnId)
    requires c in s.conns && s.conns[c].originFd == -1 && (s.conns[c].job.Some? ==> s.conns[c].job.value in s.jobs)
    ensures RequestFail(s, c) == SetPhase(s, c, Replying)
  {}

  lemma NoOrigin(s: State, c: ConnId)
    requires Inv(s) && s.main.Ready? && c in s.conns && s.conns[c].regOrigin.None?
    ensures s.conns[c].originFd == -1
  {
    hide Lists, Tickets, Links, JobFlags, Workers, Fds, Listed, Counted, Addresses, Conserved, Stages, Focus;
    ConnOfAny(s.conns, s.main, None, c);
  }

  /** The reaper takes a finished lookup just as a wake-up does. */
  lemma TakenMovesOn(s: State, attempt: Attempt)
    requires Inv(s) && s.main.Taking? && Fresh(s, attempt)
    ensures var t := Step(s, SweepTake(attempt)); var c := s.main.conn;
            && c in s.conns && c in t.conns && t.main.Ready? && t.conns[c].job == None && t.conns[c].resolution == s.conns[c].resolution
            && if s.conns[c].resolution.Some? && attempt.Registered? then
                 && t.conns[c].regOrigin == Some(attempt.fd) && t.fds == s.fds[attempt.fd := c]
                 && t.conns[c].phase == (if attempt.immediate then Replying else Connecting)
               else t.conns[c].regOrigin == None && t.fds == s.fds && t.conns[c].phase.Replying?
  {
    hide InvX, Focus, TakeCompleted, Connect;
    var c := s.main.conn;
    ResumeInv(s);
    TakingFacts(s);
    var u := s.(main := Ready);
    ResolveDoneInv(u, c, attempt);
    Taken(u, c);
    Connected(TakeCompleted(u, c).0, c, attempt);
  }

  lemma TakingFacts(s: State)
    requires Inv(s) && s.main.Taking?
    ensures var c := s.main.conn; c in s.conns && s.conns[c].done && s.conns[c].regOrigin == None
    ensures var c := s.main.conn; s.conns[c].job.Some? ==> s.conns[c].job.value in s.jobs && s.jobs[s.conns[c].job.value].completed
  {
    hide Lists, Tickets, Workers, Listed, Counted, Addresses, Conserved, Stages;
    ConnOfAny(s.conns, s.main, None, s.main.conn);
  }

  /** A lookup that took too long is cancelled and its request answered; a job being looked up is left to its worker,
  any other is gone. */
  lemma CancelledIsAnswered(s: State)
    requires Inv(s) && s.main.Canceling?
    ensures var t := Step(s, SweepCancel); var c := s.main.conn;
            && c in s.conns && c in t.conns && t.main.Ready? && t.conns[c].phase.Replying? && t.conns[c].job == None && t.fds == s.fds
            && (s.conns[c].job.Some? ==>
                  var j := s.conns[c].job.value;
                  j in s.jobs && if s.jobs[j].running then j in t.jobs && t.jobs[j].canceled && t.jobs[j].conn == None
                                 else j !in t.jobs && j !in t.queue)
  {
    hide InvX, Focus, Without;
    var c := s.main.conn;
    ResumeInv(s);
    CancelVisitInv(s.(main := Ready), c);
    OwnFds(s.(main := Ready), c);
    CancellingFacts(s, c);
    if s.conns[c].job.Some? {
      WithoutMembers(s.queue, s.conns[c].job.value);
    }
  }

  lemma CancellingFacts(s: State, c: ConnId)
    requires Inv(s) && s.main.Canceling? && c in s.conns
    ensures s.conns[c].clientFd != -1 && NoDup(s.queue)
  {
    hide Tickets, Links, JobFlags, Workers, Fds, Listed, Counted, Addresses, Conserved, Stages, Focus;
    ConnOfAny(s.conns, s.main, None, c);
  }
}
