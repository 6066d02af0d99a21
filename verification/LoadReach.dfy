/** Which configurations of the load generator can succeed at all (stress/loadgen.c:188-436). */
module LoadReach {
  import opened Sequences
  import opened Bytes
  import opened Network
  import opened Auth
  import opened StressMessages
  import opened LoadSpec
  import opened LoadSteps

  // --------------------------------------------------- a connection without a byte to send

  /** Nothing to send and nothing to wait for: such a connection can only fail. */
  ghost predicate Idle(c: Conn) {
    c.state.Failed? || (c.state.SendPayload? && c.chunk == 0 && c.payloadOff == 0)
  }

  lemma IdleStep(cfg: Config, c: Conn, io: Io, now: real)
    requires Idle(c)
    ensures Idle(AfterEvents(cfg, c, io, now))
  {}

  /** Until the workload starts nothing is known; from then on connection `i` is idle. */
  ghost predicate Hopeless(l: Loop, i: nat)
    requires i < |l.conns|
  {
    l.started ==> Idle(l.conns[i])
  }

  lemma HopelessTurn(cfg: Config, l: Loop, round: Round, setup: real, i: nat)
    requires cfg.concurrency > 0 && i < |l.conns| && Goal(cfg, i) == 0 && Hopeless(l, i)
    ensures var t := Before(cfg, l, round, setup); t.code != Some(0) && Hopeless(t.loop, i)
  {
    hide Readies, CountFailed;
    var m := if !l.started && round.now - setup > HANDSHAKE_TIMEOUT then Expired(l) else l;
    assert Idle(Started(cfg, m, round.now).conns[i]);
  }

  /** No run in which some connection's goal is zero ever succeeds, whatever the peers do. */
  lemma {:induction false} HopelessRun(cfg: Config, l: Loop, setup: real, rounds: seq<Round>, i: nat)
    requires cfg.concurrency > 0 && |l.echoed| == |l.conns| && i < |l.conns| && Goal(cfg, i) == 0 && Hopeless(l, i)
    ensures var t := RunFrom(cfg, l, setup, rounds); t.code != Some(0) && Hopeless(t.loop, i)
    decreases |rounds|
  {
    hide Before, Goal, Idle, AfterEvents, EchoAfter;
    if rounds != [] {
      HopelessTurn(cfg, l, rounds[0], setup, i);
      var t := Before(cfg, l, rounds[0], setup);
      if t.code.None? {
        match rounds[0].poll {
          case Interrupted => HopelessRun(cfg, t.loop, setup, rounds[1..], i);
          case PollFailed =>
          case Polled(ios) =>
            var m := AfterPoll(cfg, t.loop, ios, rounds[0].now);
            if t.loop.started {
              IdleStep(cfg, t.loop.conns[i], IoAt(ios, i), rounds[0].now);
            }
            HopelessRun(cfg, m, setup, rounds[1..], i);
        }
      }
    }
  }

  /** A throughput run asked for fewer bytes than connections never succeeds: its last connection gets nothing
  to do, so the run can only end with a failure or a time-out. */
  lemma TooFewBytes(cfg: Config, begins: seq<Begin>, setup: real, rounds: seq<Round>)
    requires ValidConfig(cfg) && cfg.mode.Throughput? && cfg.totalBytes < cfg.concurrency
    ensures var t := Outcome(cfg, begins, setup, rounds);
            && t.code != Some(0) && |t.loop.conns| == cfg.concurrency
            && (t.loop.started ==> Idle(t.loop.conns[cfg.concurrency - 1]))
  {
    hide RunFrom, Goal;
    GoalFits(cfg, cfg.concurrency - 1);
    HopelessRun(cfg, Initial(cfg, begins), setup, rounds, cfg.concurrency - 1);
  }

  /** For instance one byte over two connections. */
  lemma OneByteForTwo(begins: seq<Begin>, setup: real, rounds: seq<Round>)
    ensures Outcome(Config(Throughput, 2, 1, 0, 80), begins, setup, rounds).code != Some(0)
  {
    hide Outcome;
    TooFewBytes(Config(Throughput, 2, 1, 0, 80), begins, setup, rounds);
  }

  // ------------------------------------------------------------------- peers that do their part

  const PLENTY := CONTROL_SIZE + CHUNK_SIZE

  function Giving(bytes: seq<byte>): (io: Io) {
    Io(false, true, false, false, false, NotNow, Offered(bytes))
  }

  /** A proxy and an echo server that take everything at once and answer it in full. */
  function Friendly(c: Conn): (io: Io) {
    if Asked(c.state).write then Io(true, false, false, false, false, Accepted(PLENTY), NothingYet)
    else if c.state.RecvNegotiation? then Giving([5, 2])
    else if c.state.RecvAuth? then Giving([1, 0])
    else if c.state.RecvConnect? then Giving([5, 0, 0, 1, 0, 0, 0, 0, 0, 0])
    else if c.state.RecvPayload? then Giving(c.payload)
    else QUIET
  }

  /** How many rounds of a friendly handshake are left. */
  function HandshakeLeft(s: State): (n: nat) {
    match s
    case Connecting => 6
    case SendNegotiation => 6
    case RecvNegotiation => 5
    case SendAuth => 4
    case RecvAuth => 3
    case SendConnect => 2
    case RecvConnect => 1
    case _ => 0
  }

  /** A connection in a handshake that has gone well. */
  ghost predicate Shaking(c: Conn) {
    && c.open && !c.countedFailed && |c.control| == CONTROL_SIZE
    && (c.state.Ready? || (Handshaking(c.state) && !c.state.Connecting?))
    && (c.state.SendNegotiation? || c.state.SendAuth? || c.state.SendConnect? ==> c.txOff == 0 < c.txLen <= CONTROL_SIZE)
    && (Asked(c.state).read ==> c.rxOff == 0 && c.rxGoal == if c.state.RecvConnect? then 10 else 2)
  }

  lemma ShakingSend(cfg: Config, c: Conn, now: real)
    requires Shaking(c) && Asked(c.state).write
    ensures var d := AfterEvents(cfg, c, Friendly(c), now); Shaking(d) && d.id == c.id && HandshakeLeft(d.state) == HandshakeLeft(c.state) - 1
  {}

  lemma ShakingRecv(cfg: Config, c: Conn, now: real)
    requires ValidConfig(cfg) && Shaking(c) && Asked(c.state).read
    ensures var d := AfterEvents(cfg, c, Friendly(c), now); Shaking(d) && d.id == c.id && HandshakeLeft(d.state) == HandshakeLeft(c.state) - 1
  {
    hide Octets;
    assert |AuthMessage(USER, PASS)| == 20;
  }

  lemma ShakingStep(cfg: Config, c: Conn, now: real)
    requires ValidConfig(cfg) && Shaking(c)
    ensures var d := AfterEvents(cfg, c, Friendly(c), now);
            Shaking(d) && d.id == c.id && (if c.state.Ready? then d == c else HandshakeLeft(d.state) == HandshakeLeft(c.state) - 1)
  {
    if c.state.Ready? {
    } else if Asked(c.state).write {
      ShakingSend(cfg, c, now);
    } else {
      ShakingRecv(cfg, c, now);
    }
  }

  // ---------------------------------------------------------------------- the work, friendly peers

  /** A connection at the start of a chunk, or with the whole of it sent. */
  ghost predicate Busy(cfg: Config, i: nat, c: Conn) {
    && c.open && !c.countedFailed && c.id == i && (c.state.SendPayload? || c.state.RecvPayload?)
    && c.payloadOff == 0 && 0 < c.chunk <= CHUNK_SIZE && c.payload == PatternBytes(i, c.completed, c.chunk) && c.goal < TWO64
    && if cfg.mode.Soak? then c.chunk == SOAK_PAYLOAD else c.completed < c.goal && c.chunk == Chunk(c.goal - c.completed)
  }

  /** A connection that is through; a soak's waits for the end, its next chunk not being due. */
  ghost predicate Rested(cfg: Config, c: Conn, work: real) {
    && !c.countedFailed && (c.state.Done? || c.state.Hold? || (cfg.mode.Soak? && c.state.Wait? && c.nextSend > work))
  }

  /** How much is left to do, counting the two halves of a chunk. */
  ghost function WorkLeft(cfg: Config, c: Conn): (n: int) {
    if !(c.state.SendPayload? || c.state.RecvPayload?) then 0
    else if cfg.mode.Soak? then if c.state.SendPayload? then 2 else 1
    else 2 * (c.goal - c.completed) - if c.state.SendPayload? then 0 else 1
  }

  lemma BusySend(cfg: Config, i: nat, c: Conn, now: real)
    requires Busy(cfg, i, c) && c.state.SendPayload?
    ensures var d := AfterEvents(cfg, c, Friendly(c), now); Busy(cfg, i, d) && WorkLeft(cfg, d) < WorkLeft(cfg, c)
  {
    hide PatternBytes;
  }

  lemma OwnEcho(c: Conn)
    requires c.payload == PatternBytes(c.id, c.completed, c.chunk) && c.payloadOff == 0
    ensures IsEcho(c, c.payload)
  {}

  lemma BusyRecv(cfg: Config, i: nat, c: Conn, now: real)
    requires Busy(cfg, i, c) && c.state.RecvPayload?
    ensures var d := AfterEvents(cfg, c, Friendly(c), now);
            (Busy(cfg, i, d) || Rested(cfg, d, now)) && WorkLeft(cfg, d) < WorkLeft(cfg, c)
  {
    hide PatternBytes, IsEcho;
    OwnEcho(c);
  }

  lemma RestedStep(cfg: Config, c: Conn, work: real, now: real)
    requires Rested(cfg, c, work)
    ensures AfterEvents(cfg, c, Friendly(c), now) == c && WorkLeft(cfg, c) == 0
  {}

  /** The workload has started, nobody has failed, and everybody is in step. */
  ghost predicate GoodWork(cfg: Config, l: Loop) {
    && l.started && |l.conns| == |l.echoed| == cfg.concurrency
    && forall i :: 0 <= i < |l.conns| ==> Busy(cfg, i, l.conns[i]) || Rested(cfg, l.conns[i], l.work)
  }

  lemma GoodNoneFailed(cfg: Config, l: Loop)
    requires GoodWork(cfg, l)
    ensures CountFailed(l.conns) == 0
  {
    NoneFailed(l.conns);
  }

  function Helping(l: Loop): (ios: seq<Io>) {
    seq(|l.conns|, i requires 0 <= i < |l.conns| => Friendly(l.conns[i]))
  }

  /** A turn up to poll(2) at the moment the work started: success, or nothing that matters changes. */
  lemma WorkTurn(cfg: Config, l: Loop, round: Round)
    requires ValidConfig(cfg) && GoodWork(cfg, l) && round.now == l.work && round.released
    ensures var t := Working(cfg, l, round);
            t.code == Some(0) || (t.code == None && GoodWork(cfg, t.loop) && t.loop.work == l.work && Helping(t.loop) == Helping(l)
                                  && forall i :: 0 <= i < |l.conns| ==> WorkLeft(cfg, t.loop.conns[i]) == WorkLeft(cfg, l.conns[i]))
  {
    hide PatternBytes, Loaded;
    var m := if cfg.mode.Soak? && round.now - l.work >= cfg.duration as real then Ended(l) else l;
    forall i | 0 <= i < |l.conns|
      ensures Busy(cfg, i, m.conns[i]) || Rested(cfg, m.conns[i], m.work)
      ensures WorkLeft(cfg, m.conns[i]) == WorkLeft(cfg, l.conns[i]) && Friendly(m.conns[i]) == Friendly(l.conns[i])
      ensures RefilledConn(m.conns[i], round.now) == m.conns[i]
    {
    }
    assert Refilled(m, round.now).conns == m.conns;
    assert Helping(m) == Helping(l);
  }

  /** At the end of the soak, or with everybody through, the run succeeds. */
  lemma LastTurn(cfg: Config, l: Loop, round: Round)
    requires ValidConfig(cfg) && GoodWork(cfg, l) && round.now == l.work + cfg.duration as real && round.released
    requires forall i :: 0 <= i < |l.conns| ==> Rested(cfg, l.conns[i], l.work)
    ensures Working(cfg, l, round).code == Some(0)
  {
    hide PatternBytes, Loaded;
  }

  /** A round of friendly peers. */
  lemma WorkPoll(cfg: Config, l: Loop, m: nat)
    requires GoodWork(cfg, l) && forall i :: 0 <= i < |l.conns| ==> WorkLeft(cfg, l.conns[i]) <= m + 1
    ensures var u := AfterPoll(cfg, l, Helping(l), l.work);
            GoodWork(cfg, u) && u.work == l.work && forall i :: 0 <= i < |u.conns| ==> WorkLeft(cfg, u.conns[i]) <= m
  {
    hide Busy, Rested, AfterEvents, EchoAfter, WorkLeft, Friendly;
    var u := AfterPoll(cfg, l, Helping(l), l.work);
    forall i | 0 <= i < |l.conns|
      ensures (Busy(cfg, i, u.conns[i]) || Rested(cfg, u.conns[i], l.work)) && WorkLeft(cfg, u.conns[i]) <= m
    {
      var c := l.conns[i];
      assert u.conns[i] == AfterEvents(cfg, c, Friendly(c), l.work);
      if Rested(cfg, c, l.work) {
        RestedStep(cfg, c, l.work, l.work);
      } else {
        BusyStep(cfg, i, c, l.work);
      }
    }
  }

  lemma BusyStep(cfg: Config, i: nat, c: Conn, now: real)
    requires Busy(cfg, i, c)
    ensures var d := AfterEvents(cfg, c, Friendly(c), now);
            (Busy(cfg, i, d) || Rested(cfg, d, now)) && WorkLeft(cfg, d) < WorkLeft(cfg, c)
  {
    hide AfterEvents, WorkLeft, Friendly, PatternBytes;
    if c.state.SendPayload? {
      BusySend(cfg, i, c, now);
    } else {
      BusyRecv(cfg, i, c, now);
    }
  }

  lemma BusyLeft(cfg: Config, i: nat, c: Conn)
    requires Busy(cfg, i, c)
    ensures 0 < WorkLeft(cfg, c)
  {}

  /** However much is left, friendly peers bring the run to its end. */
  lemma {:induction false} WorkEnds(cfg: Config, l: Loop, setup: real, m: nat) returns (rounds: seq<Round>)
    requires ValidConfig(cfg) && GoodWork(cfg, l) && forall i :: 0 <= i < |l.conns| ==> WorkLeft(cfg, l.conns[i]) <= m
    ensures RunFrom(cfg, l, setup, rounds).code == Some(0)
    decreases m
  {
    hide Busy, Rested, WorkLeft, Working, AfterPoll, Helping, RunFrom, CountFailed;
    GoodNoneFailed(cfg, l);
    if m == 0 {
      forall i | 0 <= i < |l.conns|
        ensures Rested(cfg, l.conns[i], l.work)
      {
        if Busy(cfg, i, l.conns[i]) {
          BusyLeft(cfg, i, l.conns[i]);
        }
      }
      var last := Round(l.work + cfg.duration as real, Interrupted, true);
      LastTurn(cfg, l, last);
      rounds := [last] + [];
      OneRound(cfg, l, setup, last, []);
    } else {
      var first := Round(l.work, Polled(Helping(l)), true);
      WorkTurn(cfg, l, first);
      var t := Before(cfg, l, first, setup);
      if t.code == Some(0) {
        rounds := [first] + [];
        OneRound(cfg, l, setup, first, []);
      } else {
        WorkPoll(cfg, t.loop, m - 1);
        var rest := WorkEnds(cfg, AfterPoll(cfg, t.loop, Helping(l), l.work), setup, m - 1);
        rounds := [first] + rest;
        OneRound(cfg, l, setup, first, rest);
      }
    }
  }

  lemma OneRound(cfg: Config, l: Loop, setup: real, first: Round, rest: seq<Round>)
    requires cfg.concurrency > 0 && |l.echoed| == |l.conns|
    ensures var t := Before(cfg, l, first, setup); var r := RunFrom(cfg, l, setup, [first] + rest);
            if t.code.Some? then r == t
            else match first.poll
                 case Interrupted => r == RunFrom(cfg, t.loop, setup, rest)
                 case PollFailed => r == Turn(Some(1), t.loop)
                 case Polled(ios) => r == RunFrom(cfg, AfterPoll(cfg, t.loop, ios, first.now), setup, rest)
  {
    hide Before, AfterPoll;
    assert ([first] + rest)[1..] == rest;
  }

  // ------------------------------------------------------------------ the handshakes, friendly peers

  ghost predicate GoodStart(cfg: Config, l: Loop) {
    && !l.started && |l.conns| == |l.echoed| == cfg.concurrency
    && forall i :: 0 <= i < |l.conns| ==> Shaking(l.conns[i]) && l.conns[i].id == i
  }

  lemma StartPoll(cfg: Config, l: Loop, now: real, m: nat)
    requires ValidConfig(cfg) && GoodStart(cfg, l) && forall i :: 0 <= i < |l.conns| ==> HandshakeLeft(l.conns[i].state) <= m + 1
    ensures var u := AfterPoll(cfg, l, Helping(l), now);
            GoodStart(cfg, u) && forall i :: 0 <= i < |u.conns| ==> HandshakeLeft(u.conns[i].state) <= m
  {
    hide Shaking, AfterEvents, EchoAfter, Friendly;
    var u := AfterPoll(cfg, l, Helping(l), now);
    forall i | 0 <= i < |l.conns|
      ensures Shaking(u.conns[i]) && u.conns[i].id == i && HandshakeLeft(u.conns[i].state) <= m
    {
      assert u.conns[i] == AfterEvents(cfg, l.conns[i], Friendly(l.conns[i]), now);
      ShakingStep(cfg, l.conns[i], now);
    }
  }

  lemma StartNoneFailed(cfg: Config, l: Loop)
    requires GoodStart(cfg, l)
    ensures CountFailed(l.conns) == 0
    ensures Readies(l.conns) == cfg.concurrency <==> forall i :: 0 <= i < |l.conns| ==> l.conns[i].state.Ready?
  {
    NoneFailed(l.conns);
    AllReady(l.conns);
  }

  /** Every connection has something to do, unless a throughput run was asked for too few bytes. */
  lemma GoodGoals(cfg: Config, i: nat)
    requires ValidConfig(cfg) && i < cfg.concurrency && (cfg.mode.Throughput? ==> cfg.totalBytes >= cfg.concurrency)
    ensures 0 < Goal(cfg, i) < TWO64
  {
    hide Goal;
    GoalFits(cfg, i);
  }

  lemma StartedGood(cfg: Config, l: Loop, now: real)
    requires ValidConfig(cfg) && GoodStart(cfg, l) && (cfg.mode.Throughput? ==> cfg.totalBytes >= cfg.concurrency)
    ensures var u := Started(cfg, l, now);
            GoodWork(cfg, u) && u.work == now && forall i :: 0 <= i < |u.conns| ==> WorkLeft(cfg, u.conns[i]) <= 2 * TWO64
  {
    hide Goal, PatternBytes;
    var u := Started(cfg, l, now);
    forall i | 0 <= i < |l.conns|
      ensures Busy(cfg, i, u.conns[i]) && WorkLeft(cfg, u.conns[i]) <= 2 * TWO64
    {
      GoodGoals(cfg, i);
    }
  }

  lemma {:induction false} StartEnds(cfg: Config, l: Loop, setup: real, m: nat) returns (rounds: seq<Round>)
    requires ValidConfig(cfg) && GoodStart(cfg, l) && (cfg.mode.Throughput? ==> cfg.totalBytes >= cfg.concurrency)
    requires forall i :: 0 <= i < |l.conns| ==> HandshakeLeft(l.conns[i].state) <= m
    ensures RunFrom(cfg, l, setup, rounds).code == Some(0)
    decreases m
  {
    hide Busy, Rested, WorkLeft, Working, AfterPoll, Helping, RunFrom, CountFailed, Readies, Shaking, Started;
    StartNoneFailed(cfg, l);
    if forall i :: 0 <= i < |l.conns| ==> l.conns[i].state.Ready? {
      var first := Round(setup, Interrupted, true);
      StartedGood(cfg, l, setup);
      WorkTurn(cfg, Started(cfg, l, setup), first);
      var t := Before(cfg, l, first, setup);
      var rest := [];
      if t.code.None? {
        rest := WorkEnds(cfg, t.loop, setup, 2 * TWO64);
      }
      rounds := [first] + rest;
      OneRound(cfg, l, setup, first, rest);
    } else {
      var first := Round(setup, Polled(Helping(l)), true);
      AtLeastOne(cfg, l, m);
      StartPoll(cfg, l, setup, m - 1);
      var rest := StartEnds(cfg, AfterPoll(cfg, l, Helping(l), setup), setup, m - 1);
      rounds := [first] + rest;
      OneRound(cfg, l, setup, first, rest);
    }
  }

  lemma AtLeastOne(cfg: Config, l: Loop, m: nat)
    requires GoodStart(cfg, l) && exists i :: 0 <= i < |l.conns| && !l.conns[i].state.Ready?
    requires forall i :: 0 <= i < |l.conns| ==> HandshakeLeft(l.conns[i].state) <= m
    ensures m > 0
  {}

  lemma ConnectedStart(cfg: Config, begins: seq<Begin>)
    requires |begins| == cfg.concurrency && forall i :: 0 <= i < |begins| ==> begins[i].Connected?
    ensures GoodStart(cfg, Initial(cfg, begins))
    ensures forall i :: 0 <= i < cfg.concurrency ==> HandshakeLeft(Initial(cfg, begins).conns[i].state) <= 6
  {}

  /** Success is possible: with peers that do their part the run returns 0. */
  lemma EnoughBytes(cfg: Config, setup: real) returns (begins: seq<Begin>, rounds: seq<Round>)
    requires ValidConfig(cfg) && (cfg.mode.Throughput? ==> cfg.totalBytes >= cfg.concurrency)
    ensures Outcome(cfg, begins, setup, rounds).code == Some(0)
  {
    hide RunFrom, GoodStart, HandshakeLeft, Initial;
    begins := seq(cfg.concurrency, _ => Connected);
    ConnectedStart(cfg, begins);
    rounds := StartEnds(cfg, Initial(cfg, begins), setup, 6);
  }

  /** Exit code 0 can be had exactly when every connection has something to do: always, but for a throughput
  run asked for fewer bytes than connections. */
  lemma SuccessIff(cfg: Config)
    requires ValidConfig(cfg)
    ensures (exists begins, setup, rounds :: Outcome(cfg, begins, setup, rounds).code == Some(0))
            <==> (cfg.mode.Throughput? ==> cfg.totalBytes >= cfg.concurrency)
  {
    hide Outcome;
    if cfg.mode.Throughput? && cfg.totalBytes < cfg.concurrency {
      forall begins, setup, rounds
        ensures Outcome(cfg, begins, setup, rounds).code != Some(0)
      {
        TooFewBytes(cfg, begins, setup, rounds);
      }
    } else {
      var begins, rounds := EnoughBytes(cfg, 0.0);
      assert Outcome(cfg, begins, 0.0, rounds).code == Some(0);
    }
  }
}
