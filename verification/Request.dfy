/** The SOCKS5 request and its replies (src/server/request.c; sections 4 and 6 of RFC 1928). */
module Request {
  import opened Sequences
  import opened Bytes
  import opened Buffers
  import opened Feeding

  const SOCKS5_VERSION: byte := 5
  const CMD_CONNECT: byte := 1
  const ATYP_IPV4: byte := 1
  const ATYP_DOMAIN: byte := 3
  const ATYP_IPV6: byte := 4
  const REP_SUCCESS: byte := 0
  const REP_GENERAL_FAILURE: byte := 1
  const REP_TTL_EXPIRED: byte := 6
  const REP_CMD_NOT_SUPPORTED: byte := 7

  datatype ReqState = Ver | Cmd | Rsv | Atyp | DLen | DAddr | DPort | Done | Error

  datatype ReqView = ReqView(state: ReqState, cmd: byte, atyp: byte, addrLen: byte, addr: seq<byte>, port: int, portRead: byte)

  const REQ_START := ReqView(Ver, 0, 0, 0, [], 0, 0)

  function ReqStep(p: ReqView, c: byte): (r: ReqView) {
    match p.state
    case Ver => p.(state := if c == SOCKS5_VERSION then Cmd else Error)
    case Cmd => p.(cmd := c, state := Rsv)
    case Rsv => p.(state := if c == 0 then Atyp else Error)
    case Atyp =>
      if c == ATYP_IPV4 then p.(atyp := c, addrLen := 4, state := DAddr)
      else if c == ATYP_IPV6 then p.(atyp := c, addrLen := 16, state := DAddr)
      else if c == ATYP_DOMAIN then p.(atyp := c, state := DLen)
      else p.(atyp := c, state := Error)
    case DLen => p.(addrLen := c, state := if c == 0 then Error else DAddr)
    case DAddr =>
      if p.atyp == ATYP_DOMAIN && c == 0 then p.(state := Error)
      else p.(addr := p.addr + [c], state := if |p.addr| + 1 == p.addrLen then DPort else DAddr)
    case DPort =>
      p.(port := (p.port * 256 + c) % 65536, portRead := (p.portRead + 1) % 256,
         state := if (p.portRead + 1) % 256 == 2 then Done else DPort)
    case _ => p
  }

  predicate ReqFinal(p: ReqView) {
    p.state.Done? || p.state.Error?
  }

  function ParseReq(p: ReqView, input: seq<byte>): (r: (ReqView, seq<byte>)) {
    Feed(ReqStep, ReqFinal, p, input)
  }

  lemma ParseReqUnfold(p: ReqView, input: seq<byte>)
    ensures ParseReq(p, input) == if input == [] || ReqFinal(p) then (p, input) else ParseReq(ReqStep(p, input[0]), input[1..])
  {}

  /** The address length announced is the one its type calls for. */
  ghost predicate AddrShape(p: ReqView) {
    && (p.atyp == ATYP_IPV4 || p.atyp == ATYP_IPV6 || p.atyp == ATYP_DOMAIN)
    && (p.atyp == ATYP_IPV4 ==> p.addrLen == 4)
    && (p.atyp == ATYP_IPV6 ==> p.addrLen == 16)
    && (p.atyp == ATYP_DOMAIN ==> p.addrLen > 0 && 0 !in p.addr)
  }

  ghost predicate ReqSane(p: ReqView) {
    && 0 <= p.port < 65536
    && (p.state.Ver? || p.state.Cmd? || p.state.Rsv? || p.state.Atyp? || p.state.DLen? ==>
          p.addr == [] && p.port == 0 && p.portRead == 0)
    && (p.state.DLen? ==> p.atyp == ATYP_DOMAIN)
    && (p.state.DAddr? ==> AddrShape(p) && |p.addr| < p.addrLen && p.port == 0 && p.portRead == 0)
    && (p.state.DPort? ==> AddrShape(p) && |p.addr| == p.addrLen && p.portRead <= 1 && (if p.portRead == 0 then p.port == 0 else p.port < 256))
    && (p.state.Done? ==> AddrShape(p) && |p.addr| == p.addrLen)
    && |p.addr| <= 255
  }

  /** A step keeps the parser sane; and a sane parser has room for what the step stores. */
  lemma ReqStepSane(p: ReqView, c: byte)
    requires ReqSane(p) && !ReqFinal(p)
    ensures ReqSane(ReqStep(p, c))
    ensures p.state.DAddr? ==> |p.addr| < p.addrLen
    ensures p.state.DPort? ==> p.portRead <= 1
  {
    var q := ReqStep(p, c);
    if p.state.DAddr? && !q.state.Error? {
      assert forall x :: x in q.addr ==> x in p.addr || x == c;
    }
  }

  class RequestParser {
    var state: ReqState
    var cmd: byte
    var atyp: byte
    const dstAddr: array<byte>
    var addrLen: byte
    var addrRead: byte
    var dstPort: int
    var portRead: byte

    function View(): (v: ReqView)
      requires dstAddr.Length == 256
      reads this, dstAddr
    {
      ReqView(state, cmd, atyp, addrLen, dstAddr[..addrRead], dstPort, portRead)
    }

    ghost predicate Valid()
      reads this, dstAddr
    {
      dstAddr.Length == 256 && ReqSane(View())
    }

    constructor ()
      ensures Valid() && View() == REQ_START && fresh(dstAddr)
    {
      dstAddr := new byte[256];
      state, cmd, atyp, addrLen, addrRead, dstPort, portRead := Ver, 0, 0, 0, 0, 0, 0;
    }

    /** request_parser_init. */
    method Init()
      requires Valid()
      modifies this
      ensures Valid() && View() == REQ_START
    {
      state, cmd, atyp, addrLen, addrRead, dstPort, portRead := Ver, 0, 0, 0, 0, 0, 0;
    }

    /** One turn of the loop of request_parser_feed. */
    method Consume(c: byte)
      requires Valid() && !ReqFinal(View())
      modifies this, dstAddr
      ensures Valid() && View() == ReqStep(old(View()), c)
    {
      ReqStepSane(View(), c);
      hide ReqSane;
      match state {
        case Ver => state := if c == SOCKS5_VERSION then Cmd else Error;
        case Cmd => cmd, state := c, Rsv;
        case Rsv => state := if c == 0 then Atyp else Error;
        case Atyp =>
          atyp := c;
          if c == ATYP_IPV4 {
            addrLen, state := 4, DAddr;
          } else if c == ATYP_IPV6 {
            addrLen, state := 16, DAddr;
          } else if c == ATYP_DOMAIN {
            state := DLen;
          } else {
            state := Error;
          }
        case DLen =>
          addrLen, state := c, if c == 0 then Error else DAddr;
        case DAddr =>
          if atyp == ATYP_DOMAIN && c == 0 {
            state := Error;
          } else {
            dstAddr[addrRead] := c;
            addrRead := addrRead + 1;
            if addrRead == addrLen {
              state := DPort;
            }
          }
        case DPort =>
          dstPort := (dstPort * 256 + c) % 65536;
          portRead := portRead + 1;
          if portRead == 2 {
            state := Done;
          }
      }
    }

    /** request_parser_feed. */
    method FeedFrom(b: Buffer<byte>)
      requires Valid() && b.Valid() && b.data != dstAddr
      modifies this, dstAddr, b, b.data
      ensures Valid() && b.Valid()
      ensures (View(), b.contents) == ParseReq(old(View()), old(b.contents))
    {
      hide ParseReq, ReqStep;
      while b.CanRead() && state != Done && state != Error
        invariant Valid() && b.Valid()
        invariant ParseReq(View(), b.contents) == ParseReq(old(View()), old(b.contents))
        decreases b.write - b.read
      {
        ParseReqUnfold(View(), b.contents);
        ghost var before := b.contents;
        var c := b.Read(0);
        assert before[0] == c && before[1..] == b.contents;
        Consume(c);
      }
      ParseReqUnfold(View(), b.contents);
    }
  }

  // ------------------------------------------------------------------------------ replies

  /** A local address as getsockname returns it; other families carry no address the proxy can report. */
  datatype SockAddr = IPv4(addr: seq<byte>, port: int) | IPv6(addr: seq<byte>, port: int) | OtherFamily

  ghost predicate ValidAddr(a: SockAddr) {
    match a
    case IPv4(addr, port) => |addr| == 4 && 0 <= port < 65536
    case IPv6(addr, port) => |addr| == 16 && 0 <= port < 65536
    case OtherFamily => true
  }

  function ReplyBytes(rep: byte, atyp: byte, addr: seq<byte>, port: int): (r: seq<byte>)
    requires 0 <= port < 65536
  {
    [SOCKS5_VERSION, rep, 0, atyp] + addr + [port / 256, port % 256]
  }

  function Zeros(n: nat): (z: seq<byte>)
    ensures |z| == n && forall i :: 0 <= i < n ==> z[i] == 0
  {
    if n == 0 then [] else Zeros(n - 1) + [0]
  }

  /** The reply of fill_request_reply: a zero address of the type asked for, IPv4 for anything but IPv6. */
  function ZeroReply(rep: byte, atyp: byte): (r: seq<byte>) {
    if atyp == ATYP_IPV6 then ReplyBytes(rep, ATYP_IPV6, Zeros(16), 0) else ReplyBytes(rep, ATYP_IPV4, Zeros(4), 0)
  }

  /** The proxy's failure reply: it always asks for IPv4. */
  function FailReply(rep: byte): (r: seq<byte>) {
    ZeroReply(rep, ATYP_IPV4)
  }

  /** A run of buffer_write calls: what does not fit is dropped. */
  method WriteAll(b: Buffer<byte>, bytes: seq<byte>)
    requires b.Valid()
    modifies b, b.data
    ensures b.Valid() && b.read == old(b.read) && b.contents == old(b.contents) + Clip(bytes, old(b.Room()))
    ensures b.Room() == old(b.Room()) - |Clip(bytes, old(b.Room()))|
  {
    hide Clip;
    ghost var room := b.Room();
    ClipNone<byte>(room);
    for i := 0 to |bytes|
      invariant b.Valid() && b.read == old(b.read)
      invariant b.contents == old(b.contents) + Clip(bytes[..i], room) && b.Room() == room - |Clip(bytes[..i], room)|
    {
      ClipOne(bytes, i, room);
      b.Write(bytes[i]);
    }
    assert bytes[..|bytes|] == bytes;
  }

  lemma ClipNone<T>(room: nat)
    ensures Clip<T>([], room) == []
  {}

  lemma ClipOne<T>(s: seq<T>, i: nat, room: nat)
    requires i < |s|
    ensures Clip(s[..i + 1], room) == Clip(s[..i], room) + if room - |Clip(s[..i], room)| > 0 then [s[i]] else []
  {
    assert s[..i + 1] == s[..i] + [s[i]];
    ClipAppend(s[..i], [s[i]], room);
  }

  /** write_request_reply; a NULL address is written as zeros. */
  method WriteReply(b: Buffer<byte>, rep: byte, atyp: byte, addr: seq<byte>, port: int)
    requires b.Valid() && 0 <= port < 65536
    modifies b, b.data
    ensures b.Valid() && b.read == old(b.read)
    ensures b.contents == old(b.contents) + Clip(ReplyBytes(rep, atyp, addr, port), old(b.Room()))
  {
    hide Clip;
    ghost var room := b.Room();
    var head: seq<byte> := [SOCKS5_VERSION, rep, 0, atyp];
    var tail: seq<byte> := [port / 256, port % 256];
    ClipAppend(head, addr, room);
    ClipAppend(head + addr, tail, room);
    WriteAll(b, head);
    WriteAll(b, addr);
    WriteAll(b, tail);
  }

  /** fill_request_reply. */
  method FillRequestReply(b: Buffer<byte>, rep: byte, atyp: byte)
    requires b.Valid()
    modifies b, b.data
    ensures b.Valid() && b.read == old(b.read)
    ensures b.contents == old(b.contents) + Clip(ZeroReply(rep, atyp), old(b.Room()))
  {
    var used := if atyp != ATYP_IPV6 then ATYP_IPV4 else atyp;
    WriteReply(b, rep, used, Zeros(if used == ATYP_IPV6 then 16 else 4), 0);
  }

  function AddrReply(rep: byte, a: SockAddr): (r: seq<byte>)
    requires ValidAddr(a) && !a.OtherFamily?
  {
    ReplyBytes(rep, if a.IPv6? then ATYP_IPV6 else ATYP_IPV4, a.addr, a.port)
  }

  /** A reply as a client reads it, section 6 of RFC 1928: code, bound address, and what follows. */
  function ReadRequestReply(s: seq<byte>): (r: Option<(byte, SockAddr, seq<byte>)>) {
    if |s| < 4 || s[0] != 5 || s[2] != 0 || (s[3] != 1 && s[3] != 4) then None
    else
      var n: int := if s[3] == 1 then 4 else 16;
      if |s| < n + 6 then None
      else
        var port: int := 256 * s[n + 4] as int + s[n + 5] as int;
        Some((s[1], if s[3] == 1 then IPv4(s[4..n + 4], port) else IPv6(s[4..n + 4], port), s[n + 6..]))
  }

  /** Whatever follows it, a reply with an address is read back as that code, address and port. */
  lemma AddrReplyReadsBack(rep: byte, a: SockAddr, rest: seq<byte>)
    requires ValidAddr(a) && !a.OtherFamily?
    ensures ReadRequestReply(AddrReply(rep, a) + rest) == Some((rep, a, rest))
  {
    var s := AddrReply(rep, a) + rest;
    var n := |a.addr|;
    assert s[4..n + 4] == a.addr && s[n + 6..] == rest;
    assert s[n + 4] == a.port / 256 && s[n + 5] == a.port % 256;
  }

  /** And one without an address as that code with address and port zero. */
  lemma ZeroReplyReadsBack(rep: byte, atyp: byte, rest: seq<byte>)
    ensures ReadRequestReply(ZeroReply(rep, atyp) + rest)
            == Some((rep, if atyp == 4 then IPv6(Zeros(16), 0) else IPv4([0, 0, 0, 0], 0), rest))
  {
    hide AddrReply;
    if atyp == 4 {
      AddrReplyReadsBack(rep, IPv6(Zeros(16), 0), rest);
      assert AddrReply(rep, IPv6(Zeros(16), 0)) == ZeroReply(rep, atyp) by {
        ZeroIs(rep, IPv6(Zeros(16), 0));
      }
    } else {
      AddrReplyReadsBack(rep, IPv4(Zeros(4), 0), rest);
      assert AddrReply(rep, IPv4(Zeros(4), 0)) == ZeroReply(rep, atyp) by {
        ZeroIs(rep, IPv4(Zeros(4), 0));
      }
      assert Zeros(4) == [0, 0, 0, 0];
    }
  }

  lemma ZeroIs(rep: byte, a: SockAddr)
    requires a == IPv6(Zeros(16), 0) || a == IPv4(Zeros(4), 0)
    ensures AddrReply(rep, a) == ZeroReply(rep, if a.IPv6? then 4 else 1)
  {}

  /** fill_request_reply_addr: false, with nothing written, for a family it does not know. */
  method FillRequestReplyAddr(b: Buffer<byte>, rep: byte, a: SockAddr) returns (ok: bool)
    requires b.Valid() && ValidAddr(a)
    modifies b, b.data
    ensures b.Valid() && b.read == old(b.read) && ok == !a.OtherFamily?
    ensures b.contents == old(b.contents) + if ok then Clip(AddrReply(rep, a), old(b.Room())) else []
  {
    if a.OtherFamily? {
      return false;
    }
    WriteReply(b, rep, if a.IPv6? then ATYP_IPV6 else ATYP_IPV4, a.addr, a.port);
    ok := true;
  }

  // ------------------------------------------------------------- what the parser accepts

  /** The request for an address of the given type. */
  function RequestMessage(cmd: byte, atyp: byte, addr: seq<byte>, port: int): (m: seq<byte>)
    requires |addr| <= 255 && 0 <= port < 65536
  {
    [SOCKS5_VERSION, cmd, 0, atyp] + (if atyp == ATYP_DOMAIN then [|addr| as byte] else []) + addr + [port / 256, port % 256]
  }

  ghost predicate WellFormed(atyp: byte, addr: seq<byte>, port: int) {
    && 0 <= port < 65536
    && ((atyp == ATYP_IPV4 && |addr| == 4) || (atyp == ATYP_IPV6 && |addr| == 16)
        || (atyp == ATYP_DOMAIN && 1 <= |addr| <= 255 && 0 !in addr))
  }

  /** The bytes a parser in this state has read so far. */
  ghost function ReqConsumed(p: ReqView): (s: seq<byte>) {
    match p.state
    case Ver => []
    case Cmd => [SOCKS5_VERSION]
    case Rsv => [SOCKS5_VERSION, p.cmd]
    case Atyp => [SOCKS5_VERSION, p.cmd, 0]
    case DLen => [SOCKS5_VERSION, p.cmd, 0, p.atyp]
    case DAddr => ReqHead(p) + p.addr
    case DPort => ReqHead(p) + p.addr + (if p.portRead == 0 then [] else [p.port % 256])
    case _ => ReqHead(p) + p.addr + [p.port / 256 % 256, p.port % 256]
  }

  ghost function ReqHead(p: ReqView): (s: seq<byte>) {
    [SOCKS5_VERSION, p.cmd, 0, p.atyp] + (if p.atyp == ATYP_DOMAIN then [p.addrLen] else [])
  }

  lemma ReqHeadKeeps(p: ReqView, c: byte)
    requires ReqSane(p) && (p.state.Ver? || p.state.Cmd? || p.state.Rsv? || p.state.Atyp? || p.state.DLen?)
    ensures var q := ReqStep(p, c); !q.state.Error? ==> ReqConsumed(q) == ReqConsumed(p) + [c]
  {}

  lemma ReqAddrKeeps(p: ReqView, c: byte)
    requires ReqSane(p) && p.state.DAddr?
    ensures var q := ReqStep(p, c); !q.state.Error? ==> ReqConsumed(q) == ReqConsumed(p) + [c]
  {
    hide ReqHead;
    var q := ReqStep(p, c);
    SameHead(p, q);
    assert ReqHead(p) + (p.addr + [c]) == ReqHead(p) + p.addr + [c];
  }

  lemma SameHead(p: ReqView, q: ReqView)
    requires q.cmd == p.cmd && q.atyp == p.atyp && q.addrLen == p.addrLen
    ensures ReqHead(q) == ReqHead(p)
  {}

  lemma ReqPortKeeps(p: ReqView, c: byte)
    requires ReqSane(p) && p.state.DPort?
    ensures var q := ReqStep(p, c); !q.state.Error? ==> ReqConsumed(q) == ReqConsumed(p) + [c]
  {
    hide ReqHead;
    var q := ReqStep(p, c);
    SameHead(p, q);
    if p.portRead == 1 {
      PortSplits(p.port, c);
      assert ReqHead(p) + p.addr + [p.port % 256, c] == ReqHead(p) + p.addr + [p.port % 256] + [c];
    }
  }

  lemma PortSplits(high: int, low: byte)
    requires 0 <= high < 256
    ensures (high * 256 + low) / 256 % 256 == high == high % 256 && (high * 256 + low) % 256 == low
  {}

  lemma ReqStepKeeps(p: ReqView, c: byte)
    requires ReqSane(p) && !ReqFinal(p)
    ensures var q := ReqStep(p, c);
            !q.state.Error? ==> ReqSane(q) && ReqConsumed(q) == ReqConsumed(p) + [c]
  {
    hide ReqSane, ReqStep, ReqConsumed;
    ReqStepSane(p, c);
    if p.state.DAddr? {
      ReqAddrKeeps(p, c);
    } else if p.state.DPort? {
      ReqPortKeeps(p, c);
    } else {
      ReqHeadKeeps(p, c);
    }
  }

  lemma {:induction false} ReqKeepsBytes(p: ReqView, input: seq<byte>)
    requires ReqSane(p) && !p.state.Error?
    ensures var (q, rest) := ParseReq(p, input);
            !q.state.Error? ==> ReqSane(q) && ReqConsumed(q) + rest == ReqConsumed(p) + input
    decreases |input|
  {
    hide ParseReq, ReqStep, ReqSane, ReqConsumed;
    ParseReqUnfold(p, input);
    if input != [] && !ReqFinal(p) {
      var q := ReqStep(p, input[0]);
      ParseReqUnfold(q, input[1..]);
      ReqStepKeeps(p, input[0]);
      if !q.state.Error? {
        ReqKeepsBytes(q, input[1..]);
        assert [input[0]] + input[1..] == input;
        assert ReqConsumed(p) + [input[0]] + input[1..] == ReqConsumed(p) + input;
      }
    }
  }

  /** Whatever the parser accepts is the request it reports, byte for byte, followed by exactly what
  it left unread; the address fits its type and a domain holds no zero byte. */
  lemma RequestSound(input: seq<byte>)
    ensures var (q, rest) := ParseReq(REQ_START, input);
            q.state.Done? ==>
              && WellFormed(q.atyp, q.addr, q.port)
              && input == RequestMessage(q.cmd, q.atyp, q.addr, q.port) + rest
  {
    hide ParseReq;
    ReqKeepsBytes(REQ_START, input);
  }

  lemma {:induction false} CollectAddr(p: ReqView, s: seq<byte>, tail: seq<byte>)
    requires p.state.DAddr? && s != [] && |p.addr| + |s| == p.addrLen && (p.atyp == ATYP_DOMAIN ==> 0 !in s)
    ensures ParseReq(p, s + tail) == ParseReq(p.(state := DPort, addr := p.addr + s), tail)
    decreases |s|
  {
    hide ParseReq;
    ParseReqUnfold(p, s + tail);
    assert s[0] in s;
    assert (s + tail)[1..] == s[1..] + tail;
    assert p.addr + [s[0]] + s[1..] == p.addr + s;
    if |s| > 1 {
      CollectAddr(ReqStep(p, s[0]), s[1..], tail);
    } else {
      assert s == [s[0]] && s[1..] + tail == tail;
    }
  }

  lemma PortRead(p: ReqView, port: int, suffix: seq<byte>)
    requires p.state.DPort? && p.port == 0 && p.portRead == 0 && 0 <= port < 65536
    ensures ParseReq(p, [port / 256, port % 256] + suffix) == (p.(state := Done, port := port, portRead := 2), suffix)
  {
    hide ParseReq;
    var input := [(port / 256) as byte, (port % 256) as byte] + suffix;
    ParseReqUnfold(p, input);
    var p1 := ReqStep(p, input[0]);
    assert input[1..] == [(port % 256) as byte] + suffix;
    ParseReqUnfold(p1, input[1..]);
    var p2 := ReqStep(p1, input[1]);
    assert input[1..][1..] == suffix;
    ParseReqUnfold(p2, suffix);
  }

  /** Every well-formed request is accepted as sent, and the bytes after it are left untouched. */
  lemma RequestComplete(cmd: byte, atyp: byte, addr: seq<byte>, port: int, suffix: seq<byte>)
    requires WellFormed(atyp, addr, port)
    ensures ParseReq(REQ_START, RequestMessage(cmd, atyp, addr, port) + suffix)
            == (ReqView(Done, cmd, atyp, |addr|, addr, port, 2), suffix)
  {
    hide ParseReq;
    var portBytes := [(port / 256) as byte, (port % 256) as byte];
    var tail := portBytes + suffix;
    var input := RequestMessage(cmd, atyp, addr, port) + suffix;
    var body := (if atyp == ATYP_DOMAIN then [|addr| as byte] else []) + (addr + tail);
    var p1 := ReqStep(REQ_START, SOCKS5_VERSION);
    var p2 := ReqStep(p1, cmd);
    var p3 := ReqStep(p2, 0);
    var p4 := ReqStep(p3, atyp);
    assert input == [SOCKS5_VERSION] + ([cmd] + ([0 as byte] + ([atyp] + body)));
    Chain(REQ_START, SOCKS5_VERSION, [cmd] + ([0 as byte] + ([atyp] + body)));
    Chain(p1, cmd, [0 as byte] + ([atyp] + body));
    Chain(p2, 0, [atyp] + body);
    Chain(p3, atyp, body);
    var p5 := if atyp == ATYP_DOMAIN then ReqStep(p4, |addr|) else p4;
    if atyp == ATYP_DOMAIN {
      Chain(p4, |addr|, addr + tail);
    } else {
      assert body == addr + tail;
    }
    CollectAddr(p5, addr, tail);
    assert [] + addr == addr;
    PortRead(p5.(state := DPort, addr := addr), port, suffix);
  }

  lemma Chain(p: ReqView, c: byte, tail: seq<byte>)
    requires !ReqFinal(p)
    ensures ParseReq(p, [c] + tail) == ParseReq(ReqStep(p, c), tail)
  {
    hide ParseReq;
    ParseReqUnfold(p, [c] + tail);
    assert ([c] + tail)[1..] == tail;
  }
}
