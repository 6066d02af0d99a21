/** The load generator's accounting (stress/loadgen.c): what a connection has sent and seen echoed, and what
the counters add up to. */
module LoadSpec {
  import opened Bytes

  const CHUNK_SIZE := 16384
  const CAPACITY_PAYLOAD := 1024
  const SOAK_PAYLOAD := 1024
  const CEILING := 600
  const CONTROL_SIZE := 520
  const TWO64 := 0x1_0000_0000_0000_0000

  datatype Mode = Capacity | Throughput | Soak

  datatype Config = Config(mode: Mode, concurrency: nat, totalBytes: nat, duration: nat, targetPort: int)

  ghost predicate ValidConfig(cfg: Config) {
    1 <= cfg.concurrency <= CEILING && cfg.totalBytes < TWO64 && 0 <= cfg.targetPort < 65536
  }

  datatype State =
    | Connecting | SendNegotiation | RecvNegotiation | SendAuth | RecvAuth | SendConnect | RecvConnect
    | Ready | SendPayload | RecvPayload | Wait | Hold | Done | Failed

  predicate Handshaking(s: State) {
    s.Connecting? || s.SendNegotiation? || s.RecvNegotiation? || s.SendAuth? || s.RecvAuth? || s.SendConnect? || s.RecvConnect?
  }

  /** struct load_conn; `open` stands for a descriptor that is not -1. */
  datatype Conn = Conn(
    open: bool, state: State, id: nat, control: seq<byte>, txLen: nat, txOff: nat, rxGoal: nat, rxOff: nat,
    payload: seq<byte>, chunk: nat, payloadOff: nat, goal: nat, completed: nat, nextSend: real, countedFailed: bool)

  /** Unsigned 64-bit addition. */
  function Add64(a: nat, b: nat): (r: nat)
    ensures r < TWO64
  {
    (a + b) % TWO64
  }

  /** pattern_byte. */
  function PatternByte(id: nat, offset: nat): (b: byte) {
    (id * 31 + offset) % 256
  }

  /** Wrapping the offset does not change the pattern. */
  lemma PatternWraps(id: nat, offset: nat)
    ensures PatternByte(id, offset % TWO64) == PatternByte(id, offset)
  {
    var q := offset / TWO64;
    assert offset == offset % TWO64 + 256 * (q * 0x100_0000_0000_0000);
    ModAdd(id * 31 + offset % TWO64, q * 0x100_0000_0000_0000);
  }

  lemma ModAdd(x: nat, k: nat)
    ensures (x + 256 * k) % 256 == x % 256
  {}

  /** The pattern of connection `id` from position `offset` on. */
  function PatternBytes(id: nat, offset: nat, n: nat): (s: seq<byte>)
    ensures |s| == n
  {
    seq(n, j requires 0 <= j < n => PatternByte(id, Add64(offset, j)))
  }

  /** Everything connection `id` has received so far is its pattern. */
  ghost predicate Echoed(id: nat, e: seq<byte>) {
    forall j :: 0 <= j < |e| ==> e[j] == PatternByte(id, j)
  }

  // ------------------------------------------------------------------------------------ goals

  function Goal(cfg: Config, i: nat): (g: nat)
    requires cfg.concurrency > 0
  {
    match cfg.mode
    case Soak => TWO64 - 1
    case Capacity => CAPACITY_PAYLOAD
    case Throughput => cfg.totalBytes / cfg.concurrency + if i < cfg.totalBytes % cfg.concurrency then 1 else 0
  }

  function SumGoals(cfg: Config, n: nat): (g: nat)
    requires cfg.concurrency > 0
  {
    if n == 0 then 0 else SumGoals(cfg, n - 1) + Goal(cfg, n - 1)
  }

  lemma {:induction false} GoalsUpTo(cfg: Config, n: nat)
    requires cfg.mode.Throughput? && cfg.concurrency > 0
    ensures var rem := cfg.totalBytes % cfg.concurrency;
            SumGoals(cfg, n) == n * (cfg.totalBytes / cfg.concurrency) + (if n <= rem then n else rem)
  {
    if n > 0 {
      GoalsUpTo(cfg, n - 1);
    }
  }

  /** The goals of a throughput run add up to the bytes asked for. */
  lemma GoalsSum(cfg: Config)
    requires cfg.mode.Throughput? && cfg.concurrency > 0
    ensures SumGoals(cfg, cfg.concurrency) == cfg.totalBytes
  {
    GoalsUpTo(cfg, cfg.concurrency);
  }

  /** Each goal fits 64 bits, and is zero for some connection exactly when fewer bytes than connections were asked for. */
  lemma GoalFits(cfg: Config, i: nat)
    requires ValidConfig(cfg) && i < cfg.concurrency
    ensures Goal(cfg, i) < TWO64 && (cfg.mode.Soak? ==> Goal(cfg, i) == TWO64 - 1)
    ensures Goal(cfg, i) == 0 ==> cfg.mode.Throughput? && cfg.totalBytes < cfg.concurrency
    ensures cfg.mode.Throughput? && cfg.totalBytes < cfg.concurrency ==> Goal(cfg, cfg.concurrency - 1) == 0
  {
    if cfg.mode.Throughput? {
      var base := cfg.totalBytes / cfg.concurrency;
      assert cfg.totalBytes == base * cfg.concurrency + cfg.totalBytes % cfg.concurrency;
      BaseBound(cfg.totalBytes, cfg.concurrency);
    }
  }

  lemma BaseBound(total: nat, n: nat)
    requires n > 0
    ensures total / n <= total && (total % n > 0 ==> total / n < total)
    ensures total < n ==> total / n == 0 && total % n == total
    ensures total >= n ==> total / n >= 1
  {
    DivisionBound(total, n, total / n, total % n);
  }

  lemma DivisionBound(total: nat, n: nat, q: nat, r: nat)
    requires n > 0 && total == q * n + r && r < n
    ensures q <= total && (r > 0 ==> q < total)
    ensures total < n ==> q == 0 && r == total
    ensures total >= n ==> q >= 1
  {
    AtLeast(q, n);
  }

  lemma {:induction false} AtLeast(q: nat, n: nat)
    requires n > 0
    ensures q * n >= q && (q > 0 ==> q * n >= n)
  {
    if q > 0 {
      AtLeast(q - 1, n);
      assert q * n == (q - 1) * n + n;
    }
  }

  // ----------------------------------------------------------------------------- connections

  /** How much of the current chunk has come back. */
  function Back(c: Conn): (n: nat) {
    if c.state.RecvPayload? then c.payloadOff else 0
  }

  /** A connection that is sending or awaiting a chunk. */
  ghost predicate ChunkOk(cfg: Config, c: Conn) {
    && c.chunk <= CHUNK_SIZE && |c.payload| == c.chunk
    && (if cfg.mode.Soak? then c.chunk == SOAK_PAYLOAD
        else c.completed + c.chunk <= c.goal && (c.chunk == 0 ==> c.goal == 0))
    && (if c.state.SendPayload? then c.payloadOff <= c.chunk && (c.payloadOff == c.chunk ==> c.chunk == 0)
                                     && c.payload == PatternBytes(c.id, c.completed, c.chunk)
        else c.payloadOff < c.chunk)
  }

  /** Before the workload starts. */
  ghost predicate SetupOk(c: Conn, e: seq<byte>, fin: bool) {
    && (Handshaking(c.state) || c.state.Ready? || c.state.Failed?) && c.completed == 0 && e == [] && !fin
    && c.txOff <= c.txLen <= CONTROL_SIZE && c.rxOff <= c.rxGoal <= 10
    && (c.state.RecvNegotiation? || c.state.RecvAuth? || c.state.RecvConnect? ==> c.rxOff < c.rxGoal)
  }

  /** Once it has: `e` is what came back, `fin` whether the connection has been counted as finished. */
  ghost predicate WorkOk(cfg: Config, c: Conn, e: seq<byte>, fin: bool) {
    && !Handshaking(c.state) && !c.state.Ready?
    && (!c.state.Failed? ==>
          && Echoed(c.id, e) && |e| >= Back(c) && c.completed == (|e| - Back(c)) % TWO64
          && (!cfg.mode.Soak? ==> |e| == c.completed + Back(c))
          && (fin <==> c.state.Done? || c.state.Hold?))
    && (c.state.SendPayload? || c.state.RecvPayload? ==> ChunkOk(cfg, c))
    && (c.state.Wait? ==> cfg.mode.Soak?) && (c.state.Hold? ==> cfg.mode.Capacity?)
    && (!cfg.mode.Soak? && (c.state.Hold? || c.state.Done?) ==> c.completed == c.goal && c.goal > 0)
    && c.completed <= c.goal
  }

  ghost predicate ConnOk(cfg: Config, started: bool, i: nat, c: Conn, e: seq<byte>, fin: bool)
    requires cfg.concurrency > 0
  {
    && c.id == i && |c.control| == CONTROL_SIZE && c.completed < TWO64
    && (c.open <==> !c.state.Failed? && !c.state.Done?)
    && (c.countedFailed <==> c.state.Failed?)
    && if started then c.goal == Goal(cfg, i) && WorkOk(cfg, c, e, fin) else SetupOk(c, e, fin)
  }

  // --------------------------------------------------------------------------------- totals

  function CountFailed(conns: seq<Conn>): (n: nat)
    ensures n <= |conns|
  {
    if conns == [] then 0 else CountFailed(conns[..|conns| - 1]) + if conns[|conns| - 1].countedFailed then 1 else 0
  }

  function CountTrue(fs: seq<bool>): (n: nat)
    ensures n <= |fs|
  {
    if fs == [] then 0 else CountTrue(fs[..|fs| - 1]) + if fs[|fs| - 1] then 1 else 0
  }

  function SumCompleted(conns: seq<Conn>): (n: nat) {
    if conns == [] then 0 else SumCompleted(conns[..|conns| - 1]) + conns[|conns| - 1].completed
  }

  lemma {:induction false} TotalsReplace(conns: seq<Conn>, i: nat, c: Conn)
    requires i < |conns|
    ensures var r := conns[i := c];
            && CountFailed(r) == CountFailed(conns) - (if conns[i].countedFailed then 1 else 0) + (if c.countedFailed then 1 else 0)
            && SumCompleted(r) == SumCompleted(conns) - conns[i].completed + c.completed
    decreases |conns|
  {
    var n := |conns| - 1;
    if i < n {
      TotalsReplace(conns[..n], i, c);
      assert conns[i := c][..n] == conns[..n][i := c];
    } else {
      assert conns[i := c][..n] == conns[..n];
    }
  }

  lemma {:induction false} CountReplace(fs: seq<bool>, i: nat, f: bool)
    requires i < |fs|
    ensures CountTrue(fs[i := f]) == CountTrue(fs) - (if fs[i] then 1 else 0) + (if f then 1 else 0)
    decreases |fs|
  {
    var n := |fs| - 1;
    if i < n {
      CountReplace(fs[..n], i, f);
      assert fs[i := f][..n] == fs[..n][i := f];
    } else {
      assert fs[i := f][..n] == fs[..n];
    }
  }

  lemma {:induction false} AllTrue(fs: seq<bool>)
    ensures CountTrue(fs) == |fs| <==> forall i :: 0 <= i < |fs| ==> fs[i]
  {
    if fs != [] {
      AllTrue(fs[..|fs| - 1]);
    }
  }

  lemma {:induction false} NoneFailed(conns: seq<Conn>)
    ensures CountFailed(conns) == 0 <==> forall i :: 0 <= i < |conns| ==> !conns[i].countedFailed
  {
    if conns != [] {
      NoneFailed(conns[..|conns| - 1]);
    }
  }

  lemma {:induction false} SumIsGoals(cfg: Config, conns: seq<Conn>)
    requires cfg.concurrency > 0 && forall i :: 0 <= i < |conns| ==> conns[i].completed == Goal(cfg, i)
    ensures SumCompleted(conns) == SumGoals(cfg, |conns|)
  {
    if conns != [] {
      SumIsGoals(cfg, conns[..|conns| - 1]);
    }
  }

  // ------------------------------------------------------------------------- the whole state

  datatype View = View(conns: seq<Conn>, echoed: seq<seq<byte>>, fin: seq<bool>,
                       failed: nat, corrupted: nat, finished: nat, total: nat, started: bool)

  /** Conservation: the counters are the counts over the connections, and the bytes add up. */
  ghost predicate Inv(cfg: Config, v: View) {
    && cfg.concurrency > 0 && |v.conns| == |v.echoed| == |v.fin| == cfg.concurrency
    && (forall i :: 0 <= i < |v.conns| ==> ConnOk(cfg, v.started, i, v.conns[i], v.echoed[i], v.fin[i]))
    && v.failed == CountFailed(v.conns) && v.corrupted <= v.failed
    && v.finished == CountTrue(v.fin) && v.total == SumCompleted(v.conns) % TWO64
  }

  /** One connection has moved, `bytes` of its payload were completed and `bad` is 1 for a corrupted echo. */
  ghost function Moved(v: View, i: nat, c: Conn, e: seq<byte>, f: bool, bytes: nat, bad: nat): (r: View)
    requires i < |v.conns| == |v.echoed| == |v.fin|
  {
    v.(conns := v.conns[i := c], echoed := v.echoed[i := e], fin := v.fin[i := f],
       failed := v.failed + (if c.countedFailed && !v.conns[i].countedFailed then 1 else 0),
       corrupted := v.corrupted + bad, finished := v.finished + (if f && !v.fin[i] then 1 else 0),
       total := Add64(v.total, bytes))
  }

  lemma MovedOk(cfg: Config, v: View, i: nat, c: Conn, e: seq<byte>, f: bool, bytes: nat, bad: nat)
    requires Inv(cfg, v) && i < |v.conns| && ConnOk(cfg, v.started, i, c, e, f)
    requires v.conns[i].countedFailed ==> c.countedFailed
    requires v.fin[i] ==> f
    requires c.completed == Add64(v.conns[i].completed, bytes)
    requires bad <= if c.countedFailed && !v.conns[i].countedFailed then 1 else 0
    ensures Inv(cfg, Moved(v, i, c, e, f, bytes, bad))
  {
    hide ConnOk, CountFailed, CountTrue, SumCompleted;
    TotalsReplace(v.conns, i, c);
    CountReplace(v.fin, i, f);
    SumWraps(SumCompleted(v.conns), v.conns[i].completed, bytes);
  }

  lemma SumWraps(sum: nat, part: nat, bytes: nat)
    ensures (sum - part + Add64(part, bytes)) % TWO64 == Add64(sum % TWO64, bytes)
  {
    var p := part + bytes;
    var q, r := p / TWO64, sum / TWO64;
    assert p == TWO64 * q + p % TWO64 && sum == TWO64 * r + sum % TWO64;
    assert sum - part + p % TWO64 == sum + bytes - TWO64 * q;
    ModShift(sum + bytes, -q);
    ModShift(sum % TWO64 + bytes, r);
  }

  lemma ModShift(x: int, k: int)
    ensures (x + TWO64 * k) % TWO64 == x % TWO64
  {}
}
