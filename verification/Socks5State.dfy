/** States and outside events of a SOCKS5 connection (src/server/socks5.c). */
module Socks5State {
  import opened Sequences
  import opened Bytes
  import opened Request
  import opened StateMachine
  import opened Users
  import opened Network

  /** enum socks5_state; Finished and Failed are DONE and ERROR. */
  datatype StateId =
    | NegRead | NegWrite | AuthRead | AuthWrite | ReqRead | ReqResolve | ReqConnecting | ReqWrite | Relaying
    | Finished | Failed

  function Id(s: StateId): (n: nat)
    ensures n <= 10
  {
    match s
    case NegRead => 0
    case NegWrite => 1
    case AuthRead => 2
    case AuthWrite => 3
    case ReqRead => 4
    case ReqResolve => 5
    case ReqConnecting => 6
    case ReqWrite => 7
    case Relaying => 8
    case Finished => 9
    case Failed => 10
  }

  /** socks5_states: state, on_arrival, on_departure, on_read_ready, on_write_ready, on_block_ready. */
  const SOCKS5_STATES: seq<StateDef> := [
    StateDef(0, true, false, true, false, false),
    StateDef(1, false, false, false, true, false),
    StateDef(2, true, false, true, false, false),
    StateDef(3, false, false, false, true, false),
    StateDef(4, true, false, true, false, false),
    StateDef(5, false, false, false, false, true),
    StateDef(6, false, false, false, true, false),
    StateDef(7, false, false, false, true, false),
    StateDef(8, true, false, true, true, false),
    StateDef(9, false, false, false, false, false),
    StateDef(10, false, false, false, false, false)]

  function Row(s: StateId): (r: StateDef)
    ensures r.state == Id(s)
  {
    SOCKS5_STATES[Id(s)]
  }

  predicate IsReadState(s: StateId) {
    s.NegRead? || s.AuthRead? || s.ReqRead?
  }

  /** The state after one send of a pending reply: `stay` until all of it is out, then `sent`. */
  function AfterSend(s: SendResult, pending: nat, stay: StateId, sent: StateId): (next: StateId) {
    var n := SentCount(s, pending);
    if n == 0 then if s.NotNow? then stay else Failed
    else if n < pending then stay
    else sent
  }

  /** What happens to one candidate address in request_connect; `rep` is the reply code of its errno. */
  datatype ConnectResult =
    | Unusable(rep: byte)                                    // socket, O_NONBLOCK or connect failed at once
    | Connected(registered: bool, local: Option<SockAddr>)   // connect returned 0; getsockname may fail
    | InProgress(registered: bool)                           // EINPROGRESS

  /** What take_completed and the stored resolution say. */
  datatype Resolution = Pending | NoAddress | Addresses(count: nat)

  /** Everything the outside world decides while one event is handled. */
  datatype World = World(store: seq<Entry<byte>>, queued: bool, connects: seq<ConnectResult>, sends: seq<SendResult>)

  ghost predicate ValidConnect(r: ConnectResult) {
    r.Connected? && r.local.Some? ==> ValidAddr(r.local.value)
  }

  ghost predicate ValidWorld(w: World) {
    forall i :: 0 <= i < |w.connects| ==> ValidConnect(w.connects[i])
  }

  /** What candidate `k` does; one nobody said anything about is unusable. */
  function Candidate(connects: seq<ConnectResult>, k: nat): (r: ConnectResult) {
    if k < |connects| then connects[k] else Unusable(REP_GENERAL_FAILURE)
  }

  /** The first of the candidates k to n - 1 that is not unusable, or n. */
  function FirstUsable(connects: seq<ConnectResult>, k: nat, n: nat): (r: nat)
    requires k <= n
    ensures k <= r <= n
    decreases n - k
  {
    if k == n || !Candidate(connects, k).Unusable? then k else FirstUsable(connects, k + 1, n)
  }

  /** The reply code remembered after `k` unusable candidates. */
  function LastRep(connects: seq<ConnectResult>, k: nat, before: byte): (rep: byte) {
    if k > 0 && Candidate(connects, k - 1).Unusable? then Candidate(connects, k - 1).rep else before
  }

  /** How many octets relay_flush sends, and whether no send failed. */
  function FlushCount(pending: nat, sends: seq<SendResult>): (r: (nat, bool))
    ensures r.0 <= pending
    decreases |sends|
  {
    if pending == 0 || sends == [] then (0, true)
    else
      var n := SentCount(sends[0], pending);
      if n == 0 then (0, !sends[0].SendFailed?)
      else
        var (m, ok) := FlushCount(pending - n, sends[1..]);
        (n + m, ok)
  }

  /** Why a client was let through. */
  datatype Grant =
    | NoGrant
    | Anonymous(store: seq<Entry<byte>>)
    | Credentials(store: seq<Entry<byte>>, user: seq<byte>, pass: seq<byte>)

  datatype Event =
    | ClientReadable(recvs: seq<RecvResult<byte>>, world: World)
    | ClientWritable(recvs: seq<RecvResult<byte>>, world: World)
    | OriginReadable(recvs: seq<RecvResult<byte>>, world: World)
    | OriginWritable(soError: Option<byte>, local: Option<SockAddr>, world: World)
    | Woken(resolution: Resolution, world: World)
    | ReapCompleted(resolution: Resolution, world: World)
    | ReapExpired

  /** Addresses the outside world reports are well formed. */
  ghost predicate ValidEvent(e: Event) {
    && (!e.ReapExpired? ==> ValidWorld(e.world))
    && (e.OriginWritable? && e.local.Some? ==> ValidAddr(e.local.value))
  }

  /** The table is numbered the way stm_init demands, and no state the reaper assigns directly has an
  arrival or departure hook, so those assignments are what an ordinary jump would have done. */
  lemma TableIsSound(s: StateId)
    ensures |SOCKS5_STATES| == 11 && forall i :: 0 <= i <= 10 ==> SOCKS5_STATES[i].state == i
    ensures !Row(s).departure
    ensures s.ReqResolve? || s.ReqConnecting? || s.ReqWrite? ==> !Row(s).arrival
    ensures Row(s).arrival <==> s.NegRead? || s.AuthRead? || s.ReqRead? || s.Relaying?
  {}

  // ------------------------------------------------------------ what the two loops come to

  /** The candidate that decides is the first that is not unusable. */
  lemma {:induction false} FirstUsableIsFirst(connects: seq<ConnectResult>, k: nat, n: nat)
    requires k <= n
    ensures var r := FirstUsable(connects, k, n);
            (forall i :: k <= i < r ==> Candidate(connects, i).Unusable?) && (r < n ==> !Candidate(connects, r).Unusable?)
    decreases n - k
  {
    if k < n && Candidate(connects, k).Unusable? {
      FirstUsableIsFirst(connects, k + 1, n);
    }
  }

  /** How many sends succeed before the first that takes nothing. */
  function Willing(sends: seq<SendResult>): (k: nat)
    ensures k <= |sends| && (forall i :: 0 <= i < k ==> sends[i].Accepted? && sends[i].n > 0)
    ensures k < |sends| ==> !(sends[k].Accepted? && sends[k].n > 0)
  {
    if sends == [] || !(sends[0].Accepted? && sends[0].n > 0) then 0 else 1 + Willing(sends[1..])
  }

  /** What the first `k` of them would take. */
  function Capacity(sends: seq<SendResult>, k: nat): (n: nat)
    requires k <= |sends|
  {
    if k == 0 then 0 else Capacity(sends[1..], k - 1) + if sends[0].Accepted? then sends[0].n else 0
  }

  /** relay_flush sends everything pending, or as much as the willing sends take; it fails exactly if it gets to a
  send that fails. */
  lemma {:induction false} FlushIsCapacity(pending: nat, sends: seq<SendResult>)
    ensures var k := Willing(sends); var room := Capacity(sends, k); var (n, ok) := FlushCount(pending, sends);
            && n == (if pending <= room then pending else room)
            && (!ok <==> pending > room && k < |sends| && sends[k].SendFailed?)
    decreases |sends|
  {
    if pending > 0 && sends != [] && sends[0].Accepted? && sends[0].n > 0 {
      var m := SentCount(sends[0], pending);
      FlushIsCapacity(pending - m, sends[1..]);
    }
  }
}
