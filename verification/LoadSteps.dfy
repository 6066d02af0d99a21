/** The load generator as functions of what the sockets and the clock say (stress/loadgen.c): one connection's
transitions, one turn of the loop, a whole run. */
module LoadSteps {
  import opened Sequences
  import opened Bytes
  import opened Network
  import opened Auth
  import opened Request
  import opened StressMessages
  import opened LoadSpec

  // ------------------------------------------------------------- one connection's transitions

  /** fail_conn. */
  function FailedConn(c: Conn): (d: Conn) {
    c.(open := false, state := State.Failed, countedFailed := true)
  }

  lemma FailedOk(cfg: Config, started: bool, i: nat, c: Conn, e: seq<byte>, f: bool)
    requires cfg.concurrency > 0 && ConnOk(cfg, started, i, c, e, f)
    ensures ConnOk(cfg, started, i, FailedConn(c), e, f)
  {}

  /** A control message written over the start of the control buffer. */
  function Written(control: seq<byte>, m: seq<byte>): (r: seq<byte>)
    requires |m| <= |control|
    ensures |r| == |control|
  {
    m + control[|m|..]
  }

  /** prepare_control, after the message has been built. */
  function Prepared(c: Conn, s: State, m: seq<byte>): (d: Conn)
    requires |m| <= |c.control|
  {
    c.(state := s, control := Written(c.control, m), txLen := |m|, txOff := 0, rxOff := 0)
  }

  /** prepare_payload. */
  function Loaded(c: Conn, size: nat): (d: Conn) {
    c.(chunk := size, payloadOff := 0, payload := PatternBytes(c.id, c.completed, size), state := SendPayload)
  }

  function Chunk(remaining: nat): (n: nat) {
    if remaining < CHUNK_SIZE then remaining else CHUNK_SIZE
  }

  /** finish_control_send. */
  function Awaiting(c: Conn): (d: Conn) {
    if c.state.SendNegotiation? then c.(rxOff := 0, state := RecvNegotiation, rxGoal := 2)
    else if c.state.SendAuth? then c.(rxOff := 0, state := RecvAuth, rxGoal := 2)
    else c.(rxOff := 0, state := RecvConnect, rxGoal := 10)
  }

  const USER: seq<byte> := [115, 116, 114, 101, 115, 115]                                  // "stress"
  const PASS: seq<byte> := [115, 116, 114, 101, 115, 115, 45, 112, 97, 115, 115]           // "stress-pass"
  const LOOPBACK := 0x7f00_0001

  /** handle_control_read: None when the reply is not acceptable. */
  function ControlRead(c: Conn, port: int): (r: Option<Conn>)
    requires |c.control| == CONTROL_SIZE && 0 <= port < 65536
  {
    if c.rxOff < c.rxGoal then Some(c)
    else if c.state.RecvNegotiation? then
      if ValidateNegotiation(c.control) then Some(Prepared(c, SendAuth, AuthMessage(USER, PASS))) else None
    else if c.state.RecvAuth? then
      if ValidateAuth(c.control) then
        Some(Prepared(c, SendConnect, RequestMessage(CMD_CONNECT, ATYP_IPV4, Octets(LOOPBACK), port)))
      else None
    else if ValidateConnect(c.control) then Some(c.(state := Ready))
    else None
  }

  ghost predicate SetupShape(c: Conn) {
    c.txOff <= c.txLen <= CONTROL_SIZE && c.rxOff <= c.rxGoal <= 10
  }

  /** A reply that is complete but not acceptable fails the connection; a partial one is waited for. */
  lemma ControlReadOk(cfg: Config, i: nat, c: Conn)
    requires ValidConfig(cfg) && c.id == i && |c.control| == CONTROL_SIZE && c.completed == 0 && c.open && !c.countedFailed
    requires SetupShape(c) && (c.state.RecvNegotiation? || c.state.RecvAuth? || c.state.RecvConnect?)
    ensures ConnOk(cfg, false, i, FailedConn(c), [], false)
    ensures ControlRead(c, cfg.targetPort).Some? ==> ConnOk(cfg, false, i, ControlRead(c, cfg.targetPort).value, [], false)
  {
    hide Octets;
    assert |AuthMessage(USER, PASS)| == 20;
  }

  /** The state and progress advance_after_payload leaves, `chunk` bytes having come back. */
  function Advanced(cfg: Config, c: Conn, now: real): (d: Conn) {
    var b := c.(completed := Add64(c.completed, c.chunk), payloadOff := 0);
    if cfg.mode.Soak? then b.(state := Wait, nextSend := now + 1.0)
    else if b.completed >= b.goal then
      if cfg.mode.Capacity? then b.(state := Hold) else b.(open := false, state := State.Done)
    else Loaded(b, Chunk(b.goal - b.completed))
  }

  /** A chunk that has come back whole: nothing is lost, and a connection finishes exactly at its goal. */
  lemma AdvancedOk(cfg: Config, i: nat, c: Conn, e: seq<byte>, now: real)
    requires ValidConfig(cfg) && i < cfg.concurrency && c.id == i && |c.control| == CONTROL_SIZE && c.open && !c.countedFailed
    requires c.goal == Goal(cfg, i) && c.chunk <= CHUNK_SIZE && Echoed(i, e) && |e| >= c.chunk > 0 && c.completed == (|e| - c.chunk) % TWO64
    requires !cfg.mode.Soak? ==> |e| == c.completed + c.chunk && c.completed + c.chunk <= c.goal
    ensures ConnOk(cfg, true, i, Advanced(cfg, c, now), e, !cfg.mode.Soak? && |e| == c.goal)
  {
    hide PatternBytes, Echoed, Goal;
    GoalFits(cfg, i);
    AddBack(|e|, c.chunk);
  }

  lemma AddBack(n: nat, k: nat)
    requires k <= n
    ensures Add64((n - k) % TWO64, k) == n % TWO64
  {
    var q := (n - k) / TWO64;
    assert n - k == TWO64 * q + (n - k) % TWO64;
    ModShift((n - k) % TWO64 + k, q);
  }

  lemma AddPast(n: nat, k: nat)
    ensures Add64(n % TWO64, k) == (n + k) % TWO64
  {
    var q := n / TWO64;
    assert n == TWO64 * q + n % TWO64;
    ModShift(n % TWO64 + k, q);
  }

  /** A payload chunk after one send(2). */
  function AfterChunkSend(c: Conn, s: SendResult): (d: Conn) {
    if c.payloadOff > c.chunk then c
    else
      var n := SentCount(s, c.chunk - c.payloadOff);
      if n > 0 then SentChunk(c, n) else if s.SendFailed? then FailedConn(c) else c
  }

  /** A control message after one send(2). */
  function AfterControlSend(c: Conn, s: SendResult): (d: Conn)
    requires c.txOff <= c.txLen
  {
    var n := SentCount(s, c.txLen - c.txOff);
    if n == 0 then if s.SendFailed? then FailedConn(c) else c
    else
      var d := c.(txOff := c.txOff + n);
      if d.txOff == d.txLen then Awaiting(d) else d
  }

  /** What came back is the next part of the connection's pattern. */
  ghost predicate IsEcho(c: Conn, incoming: seq<byte>) {
    forall j :: 0 <= j < |incoming| ==> incoming[j] == PatternByte(c.id, Add64(c.completed, c.payloadOff + j))
  }

  /** What came back extends the pattern. */
  lemma EchoMore(c: Conn, e: seq<byte>, incoming: seq<byte>)
    requires Echoed(c.id, e) && |e| >= c.payloadOff && c.completed == (|e| - c.payloadOff) % TWO64 && IsEcho(c, incoming)
    ensures Echoed(c.id, e + incoming)
  {
    forall j | 0 <= j < |incoming|
      ensures incoming[j] == PatternByte(c.id, |e| + j)
    {
      assert (|e| - c.payloadOff) + (c.payloadOff + j) == |e| + j;
      AddPast(|e| - c.payloadOff, c.payloadOff + j);
      PatternWraps(c.id, |e| + j);
    }
  }

  /** Nothing came back: nothing changes. */
  lemma NoEcho(c: Conn, echoed: seq<seq<byte>>, i: nat, total: nat)
    requires i < |echoed| && total < TWO64
    ensures IsEcho(c, []) && echoed[i := echoed[i] + []] == echoed && Add64(total, 0) == total
  {
    assert echoed[i] + [] == echoed[i];
  }

  /** A connection awaiting a chunk, after one recv(2). */
  ghost function AfterRecv(cfg: Config, c: Conn, r: RecvResult<byte>, chunk: seq<byte>, now: real): (d: Conn) {
    if Broken(r) || !IsEcho(c, chunk) then FailedConn(c)
    else if chunk != [] && c.payloadOff + |chunk| == c.chunk then Advanced(cfg, c, now)
    else c.(payloadOff := c.payloadOff + |chunk|)
  }

  /** Reply octets stored in the control buffer. */
  function WithReply(c: Conn, chunk: seq<byte>): (d: Conn)
    requires c.rxOff + |chunk| <= |c.control|
  {
    c.(control := c.control[..c.rxOff] + chunk + c.control[c.rxOff + |chunk|..], rxOff := c.rxOff + |chunk|)
  }

  /** A connection awaiting a control reply, after one recv(2). */
  function AfterControlRecv(c: Conn, r: RecvResult<byte>, port: int): (d: Conn)
    requires |c.control| == CONTROL_SIZE && c.rxOff <= c.rxGoal <= 10 && 0 <= port < 65536
  {
    var chunk := Taken(r, c.rxGoal - c.rxOff);
    if Broken(r) then FailedConn(c)
    else if chunk == [] then c
    else
      match ControlRead(WithReply(c, chunk), port)
      case None => FailedConn(WithReply(c, chunk))
      case Some(d) => d
  }

  function SentChunk(c: Conn, n: nat): (d: Conn) {
    if c.payloadOff + n == c.chunk then c.(payloadOff := 0, state := RecvPayload) else c.(payloadOff := c.payloadOff + n)
  }

  // --------------------------------------------------- one connection's share of a poll round

  /** What connect(2) did for a new connection. */
  datatype Begin = Refused | Connected | InProgress

  /** What poll(2) and the calls after it report for one connection. */
  datatype Io = Io(out: bool, inp: bool, errOrHup: bool, invalid: bool, soError: bool, send: SendResult, recv: RecvResult<byte>)

  const QUIET := Io(false, false, false, false, false, NotNow, NothingYet)

  /** interest: what poll(2) is asked to report. */
  function Asked(s: State): (i: Interest) {
    Interest(s.RecvNegotiation? || s.RecvAuth? || s.RecvConnect? || s.RecvPayload?,
             s.Connecting? || s.SendNegotiation? || s.SendAuth? || s.SendConnect? || s.SendPayload?)
  }

  /** What it reports: errors come unasked, the rest only if asked for. */
  function Reported(c: Conn, io: Io): (r: Io) {
    io.(out := io.out && Asked(c.state).write, inp := io.inp && Asked(c.state).read)
  }

  /** POLLOUT. */
  function AfterOut(c: Conn, s: SendResult): (d: Conn) {
    if c.state.SendPayload? then AfterChunkSend(c, s)
    else if (c.state.SendNegotiation? || c.state.SendAuth? || c.state.SendConnect?) && c.txOff <= c.txLen then AfterControlSend(c, s)
    else c
  }

  /** A control reply is being collected within the control buffer. */
  predicate Collecting(cfg: Config, c: Conn) {
    && (c.state.RecvNegotiation? || c.state.RecvAuth? || c.state.RecvConnect?)
    && |c.control| == CONTROL_SIZE && c.rxOff <= c.rxGoal <= 10 && 0 <= cfg.targetPort < 65536
  }

  /** POLLIN. */
  ghost function AfterIn(cfg: Config, c: Conn, r: RecvResult<byte>, now: real): (d: Conn) {
    if c.state.RecvPayload? && c.payloadOff <= c.chunk then AfterRecv(cfg, c, r, Taken(r, c.chunk - c.payloadOff), now)
    else if Collecting(cfg, c) then AfterControlRecv(c, r, cfg.targetPort)
    else c
  }

  /** The payload octets seen so far, after one recv(2): those of a correct echo are added. */
  ghost function EchoIn(c: Conn, e: seq<byte>, r: RecvResult<byte>): (f: seq<byte>) {
    if c.state.RecvPayload? && c.payloadOff <= c.chunk && IsEcho(c, Taken(r, c.chunk - c.payloadOff)) then e + Taken(r, c.chunk - c.payloadOff)
    else e
  }

  /** A connect(2) that has completed. */
  function Negotiating(c: Conn): (d: Conn) {
    if |c.control| == CONTROL_SIZE then Prepared(c, SendNegotiation, NEGOTIATION) else c
  }

  /** Whether the connection gets past the error checks, and as what. */
  function Checked(c: Conn, io: Io): (d: Conn) {
    if c.state.Connecting? && (io.out || io.errOrHup) then
      if io.soError then FailedConn(c)
      else if io.errOrHup || io.invalid then FailedConn(Negotiating(c))
      else Negotiating(c)
    else if (io.errOrHup || io.invalid) && !c.state.Connecting? then FailedConn(c)
    else c
  }

  /** The connection after POLLOUT, if it was reported. */
  function Sent(c: Conn, io: Io): (d: Conn) {
    var b := Checked(c, io);
    if b.open && io.out then AfterOut(b, io.send) else b
  }

  /** The body of the event loop for one connection, for what poll(2) reported. */
  ghost function AfterReport(cfg: Config, c: Conn, io: Io, now: real): (d: Conn) {
    if !c.open then c
    else if Sent(c, io).open && io.inp then AfterIn(cfg, Sent(c, io), io.recv, now)
    else Sent(c, io)
  }

  ghost function AfterEvents(cfg: Config, c: Conn, io: Io, now: real): (d: Conn) {
    AfterReport(cfg, c, Reported(c, io), now)
  }

  ghost function EchoReport(c: Conn, e: seq<byte>, io: Io): (f: seq<byte>) {
    if c.open && Sent(c, io).open && io.inp then EchoIn(Sent(c, io), e, io.recv) else e
  }

  ghost function EchoAfter(c: Conn, e: seq<byte>, io: Io): (f: seq<byte>) {
    EchoReport(c, e, Reported(c, io))
  }

  // ------------------------------------------------------------------------------ one turn

  function Readies(conns: seq<Conn>): (n: nat)
    ensures n <= |conns|
  {
    if conns == [] then 0 else Readies(conns[..|conns| - 1]) + if conns[|conns| - 1].state.Ready? then 1 else 0
  }

  lemma {:induction false} AllReady(conns: seq<Conn>)
    ensures Readies(conns) == |conns| <==> forall i :: 0 <= i < |conns| ==> conns[i].state.Ready?
  {
    if conns != [] {
      AllReady(conns[..|conns| - 1]);
    }
  }

  /** A connection with its share of the work. */
  function Begun(cfg: Config, c: Conn, i: nat, now: real): (d: Conn)
    requires cfg.concurrency > 0
  {
    Loaded(c.(goal := Goal(cfg, i), completed := 0, nextSend := now), if cfg.mode.Soak? then SOAK_PAYLOAD else Chunk(Goal(cfg, i)))
  }

  datatype Poll = Interrupted | PollFailed | Polled(ios: seq<Io>)

  /** What the clock, poll(2) and the runner's release byte say during one turn of the loop. */
  datatype Round = Round(now: real, poll: Poll, released: bool)

  const HANDSHAKE_TIMEOUT := 30.0
  const RUN_TIMEOUT := 180.0

  /** The generator between two turns of the loop. `work` is when the workload started. */
  datatype Loop = Loop(conns: seq<Conn>, echoed: seq<seq<byte>>, started: bool, work: real)

  /** What a turn comes to: an exit code when the loop ends. */
  datatype Turn = Turn(code: Option<int>, loop: Loop)

  /** The handshake has taken too long: whoever is not ready has failed. */
  function ExpiredConn(c: Conn): (d: Conn) {
    if c.state.Ready? || c.state.Failed? then c else FailedConn(c)
  }

  function ClosedConn(c: Conn): (d: Conn) {
    c.(open := false, state := State.Done)
  }

  /** The end of a soak. */
  function EndedConn(c: Conn): (d: Conn) {
    if c.state.Wait? then ClosedConn(c) else c
  }

  /** A soak connection whose pause is over sends again. */
  function RefilledConn(c: Conn, now: real): (d: Conn) {
    if c.state.Wait? && now >= c.nextSend then Loaded(c, SOAK_PAYLOAD) else c
  }

  ghost predicate AllOver(conns: seq<Conn>) {
    forall i :: 0 <= i < |conns| ==> conns[i].state.Done? || conns[i].state.Hold?
  }

  function Expired(l: Loop): (m: Loop)
    ensures |m.conns| == |l.conns| && m.echoed == l.echoed && m.started == l.started && m.work == l.work
  {
    l.(conns := seq(|l.conns|, i requires 0 <= i < |l.conns| => ExpiredConn(l.conns[i])))
  }

  function Started(cfg: Config, l: Loop, now: real): (m: Loop)
    requires cfg.concurrency > 0
    ensures |m.conns| == |l.conns| && m.echoed == l.echoed && m.started && m.work == now
  {
    l.(conns := seq(|l.conns|, i requires 0 <= i < |l.conns| => Begun(cfg, l.conns[i], i, now)), started := true, work := now)
  }

  function Ended(l: Loop): (m: Loop)
    ensures |m.conns| == |l.conns| && m.echoed == l.echoed && m.started == l.started && m.work == l.work
  {
    l.(conns := seq(|l.conns|, i requires 0 <= i < |l.conns| => EndedConn(l.conns[i])))
  }

  function Closed(l: Loop): (m: Loop)
    ensures |m.conns| == |l.conns| && m.echoed == l.echoed && m.started == l.started && m.work == l.work
  {
    l.(conns := seq(|l.conns|, i requires 0 <= i < |l.conns| => ClosedConn(l.conns[i])))
  }

  function Refilled(l: Loop, now: real): (m: Loop)
    ensures |m.conns| == |l.conns| && m.echoed == l.echoed && m.started == l.started && m.work == l.work
  {
    l.(conns := seq(|l.conns|, i requires 0 <= i < |l.conns| => RefilledConn(l.conns[i], now)))
  }

  /** A turn up to poll(2), once the workload has started and nobody has failed. */
  ghost function Working(cfg: Config, l: Loop, round: Round): (t: Turn)
    ensures |t.loop.conns| == |l.conns| && t.loop.echoed == l.echoed && t.loop.started == l.started && t.loop.work == l.work
  {
    var now, over := round.now, cfg.duration as real;
    var m := if cfg.mode.Soak? && now - l.work >= over then Ended(l) else l;
    if AllOver(m.conns) then
      if cfg.mode.Capacity? then Turn(Some(if round.released then 0 else 1), Closed(m)) else Turn(Some(0), m)
    else if now - m.work > RUN_TIMEOUT + (if cfg.mode.Soak? then over else 0.0) then Turn(Some(1), m)
    else if cfg.mode.Soak? && now - m.work < over then Turn(None, Refilled(m, now))
    else Turn(None, m)
  }

  /** A turn up to poll(2). */
  ghost function Before(cfg: Config, l: Loop, round: Round, setup: real): (t: Turn)
    requires cfg.concurrency > 0
    ensures |t.loop.conns| == |l.conns| && t.loop.echoed == l.echoed
  {
    if l.started then
      if CountFailed(l.conns) > 0 then Turn(Some(1), l) else Working(cfg, l, round)
    else
      var m := if round.now - setup > HANDSHAKE_TIMEOUT then Expired(l) else l;
      if Readies(m.conns) + CountFailed(m.conns) != cfg.concurrency then Turn(None, m)
      else if CountFailed(m.conns) > 0 then Turn(Some(1), m)
      else Working(cfg, Started(cfg, m, round.now), round)
  }

  function IoAt(ios: seq<Io>, i: nat): (io: Io) {
    if i < |ios| then ios[i] else QUIET
  }

  /** The poll results of a turn. */
  ghost function AfterPoll(cfg: Config, l: Loop, ios: seq<Io>, now: real): (m: Loop)
    requires |l.echoed| == |l.conns|
    ensures |m.conns| == |m.echoed| == |l.conns| && m.started == l.started && m.work == l.work
  {
    l.(conns := seq(|l.conns|, i requires 0 <= i < |l.conns| => AfterEvents(cfg, l.conns[i], IoAt(ios, i), now)),
       echoed := seq(|l.conns|, i requires 0 <= i < |l.conns| => EchoAfter(l.conns[i], l.echoed[i], IoAt(ios, i))))
  }

  // --------------------------------------------------------------------------------- the run

  /** The loop from `l` on, one round after the other; no exit code if the rounds run out first. */
  ghost function RunFrom(cfg: Config, l: Loop, setup: real, rounds: seq<Round>): (t: Turn)
    requires cfg.concurrency > 0 && |l.echoed| == |l.conns|
    ensures |t.loop.conns| == |t.loop.echoed| == |l.conns|
    decreases |rounds|
  {
    if rounds == [] then Turn(None, l)
    else
      var t := Before(cfg, l, rounds[0], setup);
      if t.code.Some? then t
      else
        match rounds[0].poll
        case Interrupted => RunFrom(cfg, t.loop, setup, rounds[1..])
        case PollFailed => Turn(Some(1), t.loop)
        case Polled(ios) => RunFrom(cfg, AfterPoll(cfg, t.loop, ios, rounds[0].now), setup, rounds[1..])
  }

  /** A connection that calloc and the set-up loop have prepared. */
  function Blank(i: nat): (c: Conn) {
    Conn(true, Connecting, i, seq(CONTROL_SIZE, _ => 0), 0, 0, 0, 0, [], 0, 0, 0, 0, 0.0, false)
  }

  /** begin_connection. */
  function Opened(i: nat, begins: seq<Begin>): (c: Conn) {
    var b := if i < |begins| then begins[i] else Refused;
    match b
    case Refused => FailedConn(Blank(i))
    case Connected => Negotiating(Blank(i))
    case InProgress => Blank(i)
  }

  function Initial(cfg: Config, begins: seq<Begin>): (l: Loop)
    ensures |l.conns| == |l.echoed| == cfg.concurrency && !l.started
  {
    Loop(seq(cfg.concurrency, i requires 0 <= i < cfg.concurrency => Opened(i, begins)), seq(cfg.concurrency, _ => []), false, 0.0)
  }

  /** What a run comes to. */
  ghost function Outcome(cfg: Config, begins: seq<Begin>, setup: real, rounds: seq<Round>): (t: Turn)
    requires cfg.concurrency > 0
  {
    RunFrom(cfg, Initial(cfg, begins), setup, rounds)
  }
}
