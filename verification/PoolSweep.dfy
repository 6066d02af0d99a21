/** The reaper's sweep reaches every connection, although it frees connections on its way. */
module PoolSweep {
  import opened Sequences
  import opened PoolState
  import opened PoolInvariant
  import opened PoolRun
  import opened PoolShutdown
  import opened PoolTheorems
  import opened PoolLaws

  /** The list from `c` on. */
  ghost function From(list: seq<ConnId>, c: ConnId): (r: seq<ConnId>) {
    if list == [] then [] else if list[0] == c then list else From(list[1..], c)
  }

  /** The connections a sweep under way has still to visit. */
  ghost function Ahead(s: State): (r: seq<ConnId>) {
    if s.cursor.At? && s.cursor.next.Some? then From(s.list, s.cursor.next.value) else []
  }

  /** What the main thread is busy with is behind the sweep. */
  ghost predicate Behind(s: State) {
    s.cursor.At? && (s.main.Taking? || s.main.Canceling? || s.main.Closing?) ==> s.main.conn !in Ahead(s)
  }

  lemma {:induction false} FromHead(list: seq<ConnId>, c: ConnId)
    ensures From(list, c) != [] <==> c in list
    ensures c in list ==> From(list, c)[0] == c && forall x :: x in From(list, c) ==> x in list
  {
    if list != [] && list[0] != c {
      FromHead(list[1..], c);
    }
  }

  /** The next node is the one after `c`, and what is ahead of it is what was ahead of `c`, less `c`. */
  lemma {:induction false} FromSuccessor(list: seq<ConnId>, c: ConnId)
    requires NoDup(list) && c in list
    ensures From(list, c) != []
    ensures var rest := From(list, c)[1..];
            c !in rest && Successor(list, c) == (if rest == [] then None else Some(rest[0]))
            && (rest != [] ==> From(list, rest[0]) == rest)
    decreases |list|
  {
    if list[0] == c {
      if |list| > 1 {
        assert From(list[1..], list[1]) == list[1..];
      }
    } else {
      FromSuccessor(list[1..], c);
      FromHead(list[1..], c);
      var rest := From(list[1..], c)[1..];
      if rest != [] {
        assert rest[0] in From(list[1..], c);
      }
    }
  }

  /** Taking out a connection that is behind leaves what is ahead alone. */
  lemma {:induction false} FromWithout(list: seq<ConnId>, x: ConnId, c: ConnId)
    requires NoDup(list) && c in list && x !in From(list, c)
    ensures From(Without(list, x), c) == From(list, c)
    decreases |list|
  {
    if list[0] == c {
      WithoutAbsent(list, x);
    } else if list[0] != x {
      FromWithout(list[1..], x, c);
      assert ([list[0]] + Without(list[1..], x))[1..] == Without(list[1..], x);
    }
  }

  /** The list a step leaves, as far as the sweep is concerned: the same, or without one connection. */
  ghost predicate Thinned(before: seq<ConnId>, after: seq<ConnId>, x: ConnId) {
    after == before || after == Without(before, x)
  }

  /** The same place in the same list. */
  ghost predicate SamePlace(s: State, t: State) {
    t.list == s.list && t.cursor == s.cursor && t.main == s.main
  }

  lemma CancelStays(s: State, c: ConnId)
    requires c in s.conns && (s.conns[c].job.Some? ==> s.conns[c].job.value in s.jobs)
    ensures var t := CancelConn(s, c); SamePlace(s, t) && c in t.conns && t.conns[c].job == None
  {
    hide Without;
  }

  lemma TakeStays(s: State, c: ConnId)
    requires c in s.conns && (s.conns[c].job.Some? ==> s.conns[c].job.value in s.jobs)
    ensures var t := TakeCompleted(s, c).0; SamePlace(s, t) && c in t.conns && (t.conns[c].job.Some? ==> t.conns[c].job.value in t.jobs)
  {
    hide Without;
  }

  lemma MarkStays(s: State, c: ConnId)
    requires c in s.conns
    ensures var t := MarkInactive(s, c); SamePlace(s, t) && c in t.conns && t.jobs == s.jobs && t.conns[c].job == s.conns[c].job
  {}

  /** Only freeing a connection touches the list. */
  lemma FreeThins(s: State, c: ConnId)
    requires c in s.conns
    ensures var t := FreeIfUnreferenced(s, c); Thinned(s.list, t.list, c) && t.cursor == s.cursor && t.main == s.main
  {
    hide Without, MarkInactive;
    MarkStays(s, c);
  }

  lemma SettleThins(s: State, c: ConnId)
    requires c in s.conns && (s.conns[c].job.Some? ==> s.conns[c].job.value in s.jobs)
    ensures var t := Settle(s, c); SamePlace(s, t) && c in t.conns
  {
    hide Without, CancelConn, TakeCompleted, MarkInactive;
    MarkStays(s, c);
    CancelStays(MarkInactive(s, c), c);
    TakeStays(s, c);
  }

  lemma CloseThins(s: State, fd: Fd)
    requires fd in s.fds && s.fds[fd] in s.conns
    requires var conn := s.conns[s.fds[fd]]; conn.job.Some? ==> conn.job.value in s.jobs
    ensures Thinned(s.list, CloseFd(s, fd).list, s.fds[fd]) && CloseFd(s, fd).cursor == s.cursor && CloseFd(s, fd).main == s.main
  {
    hide Without, Settle, FreeIfUnreferenced;
    var c := s.fds[fd];
    var t := DropFd(s, fd);
    SettleThins(t, c);
    FreeThins(Settle(t, c), c);
  }

  lemma FailThins(s: State, c: ConnId)
    requires c in s.conns
    requires s.conns[c].originFd != -1 ==>
               s.conns[c].originFd >= 0 && s.conns[c].originFd in s.fds && s.fds[s.conns[c].originFd] == c
    requires s.conns[c].job.Some? ==> s.conns[c].job.value in s.jobs
    ensures Thinned(s.list, RequestFail(s, c).list, c) && RequestFail(s, c).cursor == s.cursor && RequestFail(s, c).main == s.main
  {
    hide CloseFd, Without;
    if s.conns[c].originFd != -1 {
      CloseThins(s.(conns := s.conns[c := s.conns[c].(originFd := -1)]), s.conns[c].originFd);
    }
  }

  lemma CancelThins(s: State, c: ConnId)
    requires c in s.conns && s.conns[c].originFd == -1 && (s.conns[c].job.Some? ==> s.conns[c].job.value in s.jobs)
    ensures Thinned(s.list, CancelVisit(s, c).list, c) && CancelVisit(s, c).cursor == s.cursor && CancelVisit(s, c).main == s.main
  {
    hide Without, CancelConn, MarkInactive, FreeIfUnreferenced;
    CancelStays(s, c);
    var t := CancelConn(s, c);
    MarkStays(t, c);
    FreeThins(MarkInactive(t, c), c);
  }

  lemma ListFacts(s: State)
    requires Inv(s)
    ensures NoDup(s.list) && (s.cursor.At? && s.cursor.next.Some? ==> s.cursor.next.value in s.list)
  {
    hide Lists, Tickets, Links, JobFlags, Workers, Conns, Fds, Counted, Addresses, Conserved, Stages;
  }

  /** What is ahead stays ahead when a connection behind the cursor goes. */
  lemma AheadThinned(s: State, t: State, x: ConnId)
    requires Inv(s) && s.cursor.At? && t.cursor == s.cursor && Thinned(s.list, t.list, x) && x !in Ahead(s)
    ensures Ahead(t) == Ahead(s)
  {
    hide InvX, Focus, From, Without;
    ListFacts(s);
    if s.cursor.next.Some? {
      FromWithout(s.list, x, s.cursor.next.value);
    }
  }

  /** A visit takes the first connection that is ahead, and leaves the others ahead. */
  lemma VisitAdvances(s: State, expired: bool)
    requires Inv(s) && s.main.Ready? && s.cursor.At? && s.cursor.next.Some?
    ensures var t := Step(s, SweepVisit(expired));
            && t.cursor.At? && Ahead(s) != [] && Ahead(s)[0] == s.cursor.next.value && Ahead(t) == Ahead(s)[1..] && Behind(t)
            && (t.main.Ready? || ((t.main.Taking? || t.main.Canceling? || t.main.Closing?) && t.main.conn == s.cursor.next.value))
  {
    hide InvX, Focus, From, Without, Visit, Successor;
    var c := s.cursor.next.value;
    ListFacts(s);
    VisitInv(s, expired);
    FromSuccessor(s.list, c);
    FromHead(s.list, c);
    VisitPlace(s, expired);
    var next := Successor(s.list, c);
    if next.Some? {
      FromWithout(s.list, c, next.value);
    }
  }

  /** Where a visit leaves the main thread and the list. */
  lemma VisitPlace(s: State, expired: bool)
    requires Inv(s) && s.main.Ready? && s.cursor.At? && s.cursor.next.Some?
    ensures var t := Step(s, SweepVisit(expired)); var c := s.cursor.next.value;
            && t.cursor == At(Successor(s.list, c)) && Thinned(s.list, t.list, c)
            && (t.main.Ready? || ((t.main.Taking? || t.main.Canceling? || t.main.Closing?) && t.main.conn == c))
  {
    hide InvX, Focus, Without, RequestFail, Successor;
    var c := s.cursor.next.value;
    VisitInv(s, expired);
    FailThins(s.(cursor := At(Successor(s.list, c))), c);
  }

  lemma MainBehind(s: State, e: Event)
    requires Inv(s) && Behind(s) && s.cursor.At? && (e.SweepTake? || e.SweepCancel? || e.CloseNext?)
    ensures var t := Step(s, e); t.cursor == s.cursor && Ahead(t) == Ahead(s) && Behind(t)
  {
    hide InvX, Focus, From, Without, ResolveDone, CancelVisit, CloseFd, Ahead;
    if e.SweepTake? && s.main.Taking? && Fresh(s, e.attempt) {
      ResumeInv(s);
      var r := s.(main := Ready);
      ResolveDoneInv(r, s.main.conn, e.attempt);
      ResolveKeepsList(r, s.main.conn, e.attempt);
      AheadThinned(s, Step(s, e), s.main.conn);
    } else if e.SweepCancel? && s.main.Canceling? {
      ResumeInv(s);
      var r := s.(main := Ready);
      CancelVisitInv(r, s.main.conn);
      CancelThins(r, s.main.conn);
      AheadThinned(s, Step(s, e), s.main.conn);
    } else if e.CloseNext? && s.main.Closing? {
      CloseStepInv(s);
      ClosingShape(s);
      CloseThins(s, s.main.fds[0]);
      AheadThinned(s, Step(s, e), s.main.conn);
    }
  }

  lemma ResolveKeepsList(s: State, c: ConnId, attempt: Attempt)
    requires c in s.conns && (s.conns[c].job.Some? ==> s.conns[c].job.value in s.jobs)
    ensures var t := ResolveDone(s, c, attempt); t.list == s.list && t.cursor == s.cursor && t.main == s.main
  {
    hide Without, TakeCompleted;
    TakeStays(s, c);
  }

  /** While a sweep is under way, what is ahead only loses its first connection, to a visit, and the sweep ends only
  when nothing is ahead. */
  lemma SweepAdvances(s: State, e: Event)
    requires Inv(s) && Behind(s) && s.cursor.At?
    ensures var t := Step(s, e);
            && Behind(t)
            && (t.cursor.At? ==> Ahead(t) == Ahead(s)
                                 || (e.SweepVisit? && s.main.Ready? && Ahead(s) != [] && s.cursor.next == Some(Ahead(s)[0]) && Ahead(t) == Ahead(s)[1..]))
            && (t.cursor.NoSweep? ==> Ahead(s) == [])
  {
    hide InvX, Focus, From, Ahead, Behind;
    if IsWorkerEvent(e) {
      MainStays(s, e);
      SameAhead(s, Step(s, e));
    } else if e.SweepVisit? && s.main.Ready? && s.cursor.next.Some? {
      VisitAdvances(s, e.expired);
    } else if e.SweepTake? || e.SweepCancel? || e.CloseNext? {
      MainBehind(s, e);
    } else {
      SweepHolds(s, e);
    }
  }

  lemma SameAhead(s: State, t: State)
    requires Behind(s) && t.main == s.main && t.cursor == s.cursor && t.list == s.list
    ensures Behind(t) && Ahead(t) == Ahead(s)
  {}

  /** During a sweep nothing else moves, except that a sweep with nothing ahead ends. */
  lemma SweepHolds(s: State, e: Event)
    requires Inv(s) && Behind(s) && s.cursor.At? && !IsWorkerEvent(e) && !e.SweepTake? && !e.SweepCancel? && !e.CloseNext?
    requires e.SweepVisit? ==> !(s.main.Ready? && s.cursor.next.Some?)
    ensures var t := Step(s, e); Behind(t) && (t == s || (t.cursor.NoSweep? && Ahead(s) == []))
  {
    hide Lists, Tickets, Links, JobFlags, Workers, Conns, Fds, Listed, Counted, Addresses, Conserved, Focus, From;
  }

  lemma SweepStarts(s: State)
    requires Inv(s) && s.main.Ready? && s.cursor.NoSweep?
    ensures var t := Step(s, SweepStart); t.cursor.At? && Ahead(t) == s.list && Behind(t)
  {
    hide InvX, Focus;
  }

  // --------------------------------------------------------------------------------- whole sweeps

  /** The states of a stretch of events from `s` on. */
  ghost function After(s: State, events: seq<Event>): (t: State)
    requires Inv(s)
    ensures Inv(t)
    decreases |events|
  {
    hide InvX, Focus;
    if events == [] then s else After(Step(s, events[0]), events[1..])
  }

  /** At event `i` of the stretch the sweep visits `c`. */
  ghost predicate VisitedAt(s: State, events: seq<Event>, i: nat, c: ConnId)
    requires Inv(s) && i < |events|
  {
    var t := After(s, events[..i]);
    events[i].SweepVisit? && t.main.Ready? && t.cursor == At(Some(c))
  }

  lemma VisitedLater(s: State, events: seq<Event>, i: nat, c: ConnId)
    requires Inv(s) && events != [] && i < |events| - 1 && VisitedAt(Step(s, events[0]), events[1..], i, c)
    ensures VisitedAt(s, events, i + 1, c)
  {
    hide InvX, Focus, Step;
    assert events[..i + 1][0] == events[0] && events[..i + 1][1..] == events[1..][..i];
  }

  /** However the workers and the teardown of connections come in between, a sweep that ends has visited everything
  that was ahead of it. */
  lemma {:induction false} SweepVisitsAhead(s: State, events: seq<Event>, c: ConnId)
    requires Inv(s) && Behind(s) && s.cursor.At? && c in Ahead(s)
    requires After(s, events).cursor.NoSweep? && forall i :: 0 <= i < |events| ==> After(s, events[..i]).cursor.At?
    ensures exists i :: 0 <= i < |events| && VisitedAt(s, events, i, c)
    decreases |events|
  {
    hide InvX, Focus, Step, Ahead, Behind;
    var e := events[0];
    var t := Step(s, e);
    SweepAdvances(s, e);
    assert events[..0] == [] && After(s, []) == s;
    if c in Ahead(t) && t.cursor.At? {
      forall i | 0 <= i < |events[1..]|
        ensures After(t, events[1..][..i]).cursor.At?
      {
        assert events[..i + 1][0] == e && events[..i + 1][1..] == events[1..][..i];
        assert After(s, events[..i + 1]).cursor.At?;
      }
      SweepVisitsAhead(t, events[1..], c);
      var i :| 0 <= i < |events[1..]| && VisitedAt(t, events[1..], i, c);
      VisitedLater(s, events, i, c);
    } else {
      assert VisitedAt(s, events, 0, c);
    }
  }

  /** A whole sweep visits every connection that was listed when it started. */
  lemma SweepVisitsEverybody(s: State, events: seq<Event>, c: ConnId)
    requires Inv(s) && s.main.Ready? && s.cursor.NoSweep? && c in s.list
    requires var t := Step(s, SweepStart); After(t, events).cursor.NoSweep? && forall i :: 0 <= i < |events| ==> After(t, events[..i]).cursor.At?
    ensures exists i :: 0 <= i < |events| && VisitedAt(Step(s, SweepStart), events, i, c)
  {
    hide InvX, Focus, Step, Ahead, Behind, After;
    SweepStarts(s);
    SweepVisitsAhead(Step(s, SweepStart), events, c);
  }
}
