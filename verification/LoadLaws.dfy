/** What a load run reports, whatever the sockets and the clock do: a failure is never forgotten, a wrong byte is
never overlooked, every phase has its deadline, and every run ends. */
module LoadLaws {
  import opened Sequences
  import opened Bytes
  import opened Network
  import opened LoadSpec
  import opened LoadSteps

  // ------------------------------------------------------------------------------- failures

  /** The failed are counted, and closed. */
  ghost predicate Marked(c: Conn) {
    (c.countedFailed <==> c.state.Failed?) && (c.state.Failed? ==> !c.open)
  }

  ghost predicate AllMarked(l: Loop) {
    forall i :: 0 <= i < |l.conns| ==> Marked(l.conns[i])
  }

  lemma EventsMark(cfg: Config, c: Conn, io: Io, now: real)
    requires Marked(c)
    ensures Marked(AfterEvents(cfg, c, io, now)) && (c.state.Failed? ==> AfterEvents(cfg, c, io, now) == c)
  {
    hide IsEcho, PatternBytes;
  }

  lemma TurnsMark(cfg: Config, l: Loop, now: real)
    requires cfg.concurrency > 0 && AllMarked(l)
    ensures AllMarked(Expired(l)) && AllMarked(Ended(l)) && AllMarked(Refilled(l, now)) && (AllOver(l.conns) ==> AllMarked(Closed(l)))
    ensures CountFailed(l.conns) == 0 ==> AllMarked(Started(cfg, l, now))
    ensures CountFailed(l.conns) > 0 ==> CountFailed(Expired(l).conns) > 0
  {
    hide CountFailed, PatternBytes, Goal;
    NoneFailed(l.conns);
    NoneFailed(Expired(l).conns);
    if CountFailed(l.conns) > 0 {
      var i :| 0 <= i < |l.conns| && l.conns[i].countedFailed;
      assert Marked(l.conns[i]) && Expired(l).conns[i].countedFailed;
    }
  }

  lemma WorkingMarks(cfg: Config, l: Loop, round: Round)
    requires cfg.concurrency > 0 && AllMarked(l)
    ensures AllMarked(Working(cfg, l, round).loop)
  {
    hide AllMarked, Ended, Refilled, Closed;
    TurnsMark(cfg, l, round.now);
    TurnsMark(cfg, Ended(l), round.now);
  }

  /** A turn keeps the failed marked; with one there is no success. */
  lemma BeforeMarks(cfg: Config, l: Loop, round: Round, setup: real)
    requires cfg.concurrency > 0 && AllMarked(l)
    ensures AllMarked(Before(cfg, l, round, setup).loop)
    ensures CountFailed(l.conns) > 0 ==> CountFailed(Before(cfg, l, round, setup).loop.conns) > 0 && Before(cfg, l, round, setup).code != Some(0)
  {
    hide CountFailed, Readies, AllMarked, Working, Started, Expired;
    TurnsMark(cfg, l, round.now);
    TurnsMark(cfg, Expired(l), round.now);
    WorkingMarks(cfg, l, round);
    if CountFailed(l.conns) == 0 {
      WorkingMarks(cfg, Started(cfg, l, round.now), round);
    }
    if CountFailed(Expired(l).conns) == 0 {
      WorkingMarks(cfg, Started(cfg, Expired(l), round.now), round);
    }
  }

  /** A connection that has failed, at any time and for any reason, keeps the run from succeeding. */
  lemma {:induction false} FailureIsFinal(cfg: Config, l: Loop, setup: real, rounds: seq<Round>)
    requires cfg.concurrency > 0 && |l.echoed| == |l.conns| && AllMarked(l) && CountFailed(l.conns) > 0
    ensures RunFrom(cfg, l, setup, rounds).code != Some(0)
    decreases |rounds|
  {
    hide Before, AfterPoll, CountFailed;
    if rounds != [] {
      BeforeMarks(cfg, l, rounds[0], setup);
      var t := Before(cfg, l, rounds[0], setup);
      if t.code.None? && rounds[0].poll.Polled? {
        PollMarks(cfg, t.loop, rounds[0].poll.ios, rounds[0].now);
      }
      if t.code.None? && !rounds[0].poll.PollFailed? {
        FailureIsFinal(cfg, if rounds[0].poll.Polled? then AfterPoll(cfg, t.loop, rounds[0].poll.ios, rounds[0].now) else t.loop, setup, rounds[1..]);
      }
    }
  }

  lemma PollMarks(cfg: Config, l: Loop, ios: seq<Io>, now: real)
    requires |l.echoed| == |l.conns| && AllMarked(l)
    ensures AllMarked(AfterPoll(cfg, l, ios, now)) && (CountFailed(l.conns) > 0 ==> CountFailed(AfterPoll(cfg, l, ios, now).conns) > 0)
  {
    hide CountFailed, AfterEvents, Marked;
    var m := AfterPoll(cfg, l, ios, now);
    forall i | 0 <= i < |l.conns|
      ensures Marked(m.conns[i]) && (l.conns[i].countedFailed ==> m.conns[i].countedFailed)
    {
      EventsMark(cfg, l.conns[i], IoAt(ios, i), now);
      MarkedFailed(l.conns[i]);
    }
    NoneFailed(l.conns);
    NoneFailed(m.conns);
  }

  lemma MarkedFailed(c: Conn)
    requires Marked(c)
    ensures c.countedFailed <==> c.state.Failed?
  {}

  /** A byte that comes back other than it was sent, wherever it is in the stream, fails its connection. */
  lemma WrongByteFails(cfg: Config, i: nat, c: Conn, e: seq<byte>, io: Io, now: real, j: nat)
    requires cfg.concurrency > 0 && ConnOk(cfg, true, i, c, e, false) && c.state.RecvPayload? && io.inp
    requires io.recv.Offered? && j < |io.recv.bytes| && j < c.chunk - c.payloadOff && io.recv.bytes[j] != (i * 31 + |e| + j) % 256
    ensures AfterEvents(cfg, c, io, now).state.Failed? && EchoAfter(c, e, io) == e
  {
    hide PatternBytes, Advanced, Goal, Echoed;
    var incoming := Taken(io.recv, c.chunk - c.payloadOff);
    assert incoming[j] == io.recv.bytes[j];
    AddPast(|e| - c.payloadOff, c.payloadOff + j);
    assert |e| - c.payloadOff + (c.payloadOff + j) == |e| + j;
    PatternWraps(c.id, |e| + j);
    assert PatternByte(c.id, |e| + j) == (i * 31 + (|e| + j)) % 256;
  }

  /** And bytes that come back as sent are added to what has come back. */
  lemma RightBytesCount(cfg: Config, i: nat, c: Conn, e: seq<byte>, io: Io, now: real)
    requires cfg.concurrency > 0 && ConnOk(cfg, true, i, c, e, false) && c.state.RecvPayload? && io.inp && !io.errOrHup && !io.invalid
    requires io.recv.Offered? && |io.recv.bytes| <= c.chunk - c.payloadOff
    requires forall j :: 0 <= j < |io.recv.bytes| ==> io.recv.bytes[j] == (i * 31 + |e| + j) % 256
    ensures EchoAfter(c, e, io) == e + io.recv.bytes && !AfterEvents(cfg, c, io, now).state.Failed?
  {
    hide PatternBytes, Goal, Echoed;
    var incoming := io.recv.bytes;
    forall j | 0 <= j < |incoming|
      ensures incoming[j] == PatternByte(c.id, Add64(c.completed, c.payloadOff + j))
    {
      AddPast(|e| - c.payloadOff, c.payloadOff + j);
      assert |e| - c.payloadOff + (c.payloadOff + j) == |e| + j;
      PatternWraps(c.id, |e| + j);
      assert PatternByte(c.id, |e| + j) == (i * 31 + (|e| + j)) % 256;
    }
    assert IsEcho(c, incoming);
  }

  // ------------------------------------------------------------------------------- deadlines

  /** How long the work may take. */
  function Limit(cfg: Config): (t: real) {
    180.0 + if cfg.mode.Soak? then cfg.duration as real else 0.0
  }

  /** After thirty seconds of handshakes a run starts its work if everybody is ready, and otherwise is over. */
  lemma HandshakesEnd(cfg: Config, l: Loop, round: Round, setup: real)
    requires |l.conns| == cfg.concurrency > 0 && AllMarked(l) && !l.started && round.now - setup > 30.0
    ensures var t := Before(cfg, l, round, setup);
            if forall i :: 0 <= i < |l.conns| ==> l.conns[i].state.Ready? then t.code.None? ==> t.loop.started && t.loop.work == round.now
            else t.code == Some(1)
  {
    hide CountFailed, Readies, Working, Started;
    var m := Expired(l);
    SettledHandshakes(m.conns);
    AllReady(m.conns);
    NoneFailed(m.conns);
    if forall i :: 0 <= i < |l.conns| ==> l.conns[i].state.Ready? {
      assert m.conns == l.conns;
    } else {
      var i :| 0 <= i < |l.conns| && !l.conns[i].state.Ready?;
      assert m.conns[i].countedFailed;
    }
  }

  lemma {:induction false} SettledHandshakes(conns: seq<Conn>)
    requires forall i :: 0 <= i < |conns| ==> Marked(conns[i]) && (conns[i].state.Ready? || conns[i].state.Failed?)
    ensures Readies(conns) + CountFailed(conns) == |conns|
  {
    if conns != [] {
      SettledHandshakes(conns[..|conns| - 1]);
      assert Marked(conns[|conns| - 1]);
    }
  }

  /** Work that takes too long ends the run, with success only if every connection is done. */
  lemma DeadlineEnds(cfg: Config, l: Loop, round: Round, setup: real)
    requires cfg.concurrency > 0 && l.started && round.now - l.work > Limit(cfg)
    ensures var t := Before(cfg, l, round, setup);
            && t.code.Some?
            && (t.code == Some(0) ==> forall i :: 0 <= i < |l.conns| ==> l.conns[i].state.Done? || l.conns[i].state.Hold? || (cfg.mode.Soak? && l.conns[i].state.Wait?))
  {
    hide CountFailed;
    var m := Ended(l);
    assert forall i :: 0 <= i < |l.conns| ==> m.conns[i] == EndedConn(l.conns[i]);
  }

  lemma {:induction false} StartedEnds(cfg: Config, l: Loop, setup: real, rounds: seq<Round>, j: nat)
    requires cfg.concurrency > 0 && |l.echoed| == |l.conns| && l.started && j < |rounds| && rounds[j].now - l.work > Limit(cfg)
    ensures RunFrom(cfg, l, setup, rounds).code.Some?
    decreases j
  {
    hide Before, AfterPoll, Limit;
    var t := Before(cfg, l, rounds[0], setup);
    if j == 0 {
      DeadlineEnds(cfg, l, rounds[0], setup);
    } else if t.code.None? && !rounds[0].poll.PollFailed? {
      WorkGoesOn(cfg, l, rounds[0], setup);
      StartedEnds(cfg, if rounds[0].poll.Polled? then AfterPoll(cfg, t.loop, rounds[0].poll.ios, rounds[0].now) else t.loop, setup, rounds[1..], j - 1);
    }
  }

  lemma WorkGoesOn(cfg: Config, l: Loop, round: Round, setup: real)
    requires cfg.concurrency > 0
    ensures var t := Before(cfg, l, round, setup);
            && (l.started ==> t.loop.started && t.loop.work == l.work)
            && (!l.started && t.loop.started ==> t.loop.work == round.now)
  {
    hide CountFailed, Readies;
  }

  lemma {:induction false} FreshEnds(cfg: Config, l: Loop, setup: real, rounds: seq<Round>, i: nat, j: nat)
    requires |l.conns| == |l.echoed| == cfg.concurrency > 0 && AllMarked(l) && !l.started && i < j < |rounds|
    requires rounds[i].now - setup > 30.0 && rounds[j].now - rounds[i].now > Limit(cfg)
    requires forall k :: 0 <= k <= i ==> rounds[k].now <= rounds[i].now
    ensures RunFrom(cfg, l, setup, rounds).code.Some?
    decreases i
  {
    hide Before, AfterPoll, Limit, AllMarked;
    var t := Before(cfg, l, rounds[0], setup);
    if t.code.None? && !rounds[0].poll.PollFailed? {
      WorkGoesOn(cfg, l, rounds[0], setup);
      BeforeMarks(cfg, l, rounds[0], setup);
      var u := if rounds[0].poll.Polled? then AfterPoll(cfg, t.loop, rounds[0].poll.ios, rounds[0].now) else t.loop;
      if rounds[0].poll.Polled? {
        PollMarks(cfg, t.loop, rounds[0].poll.ios, rounds[0].now);
      }
      if t.loop.started {
        StartedEnds(cfg, u, setup, rounds[1..], j - 1);
      } else if i > 0 {
        FreshEnds(cfg, u, setup, rounds[1..], i - 1, j - 1);
      } else {
        HandshakesEnd(cfg, l, rounds[0], setup);
      }
    }
  }

  /** Every run ends: once the clock has passed the handshakes' deadline, and then the work's, there is an exit code,
  whatever the sockets have done meanwhile. */
  lemma EveryRunEnds(cfg: Config, begins: seq<Begin>, setup: real, rounds: seq<Round>, i: nat, j: nat)
    requires cfg.concurrency > 0 && i < j < |rounds|
    requires rounds[i].now - setup > 30.0 && rounds[j].now - rounds[i].now > Limit(cfg)
    requires forall k :: 0 <= k <= i ==> rounds[k].now <= rounds[i].now
    ensures Outcome(cfg, begins, setup, rounds).code.Some?
  {
    hide Limit, RunFrom;
    FreshEnds(cfg, Initial(cfg, begins), setup, rounds, i, j);
  }

  // --------------------------------------------------------------------------- soak and capacity

  /** While a soak lasts, a connection whose pause is over sends the next 1024 bytes of its pattern. */
  lemma PauseEnds(cfg: Config, l: Loop, round: Round, setup: real, i: nat)
    requires cfg.concurrency > 0 && cfg.mode.Soak? && l.started && CountFailed(l.conns) == 0 && i < |l.conns|
    requires round.now - l.work < cfg.duration as real && l.conns[i].state.Wait? && l.conns[i].nextSend <= round.now
    ensures var t := Before(cfg, l, round, setup); var d := t.loop.conns[i];
            t.code.None? && d.state.SendPayload? && d.chunk == 1024 && d.payloadOff == 0 && d.payload == PatternBytes(d.id, d.completed, 1024)
  {
    hide CountFailed, PatternBytes;
  }

  /** When it is over, and everybody waits, it has succeeded; a capacity run that holds all its connections succeeds
  exactly if it is released. */
  lemma HeldIsOver(cfg: Config, l: Loop, round: Round, setup: real)
    requires cfg.concurrency > 0 && l.started && CountFailed(l.conns) == 0
    ensures cfg.mode.Soak? && round.now - l.work >= cfg.duration as real && (forall i :: 0 <= i < |l.conns| ==> l.conns[i].state.Wait?) ==>
              Before(cfg, l, round, setup).code == Some(0)
    ensures cfg.mode.Capacity? && (forall i :: 0 <= i < |l.conns| ==> l.conns[i].state.Hold?) ==>
              Before(cfg, l, round, setup).code == Some(if round.released then 0 else 1)
  {
    hide CountFailed;
  }
}
