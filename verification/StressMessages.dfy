/** The load generator's side of the handshake (stress/stress_helpers.c:10-74): messages the server's parsers
must understand, and checks the server's replies must pass. */
module StressMessages {
  import opened Bytes
  import opened Negotiation
  import opened Auth
  import opened Request
  import opened Handshake

  /** An IPv4 address as four octets, most significant first. */
  function Octets(addr: int): (s: seq<byte>)
    requires 0 <= addr < 0x1_0000_0000
    ensures |s| == 4
  {
    [addr / 0x100_0000, addr / 0x1_0000 % 256, addr / 256 % 256, addr % 256]
  }

  function Address(s: seq<byte>): (addr: int)
    requires |s| == 4
  {
    (((s[0] as int) * 256 + s[1]) * 256 + s[2]) * 256 + s[3]
  }

  lemma OctetsAddress(addr: int)
    requires 0 <= addr < 0x1_0000_0000
    ensures Address(Octets(addr)) == addr
  {
    var a, b := addr / 256, addr / 0x1_0000;
    assert b == a / 256 && addr / 0x100_0000 == b / 256;
    assert addr == a * 256 + addr % 256 && a == b * 256 + a % 256 && b == b / 256 * 256 + b % 256;
  }

  // ------------------------------------------------------------------------- the builders

  const NEGOTIATION: seq<byte> := [5, 1, 2]

  /** stress_build_negotiation: -1, with nothing written, when it does not fit. */
  method BuildNegotiation(dst: array<byte>) returns (n: int)
    modifies dst
    ensures if dst.Length < 3 then n == -1 && dst[..] == old(dst[..])
            else n == 3 && dst[..] == NEGOTIATION + old(dst[..])[3..]
  {
    if dst.Length < 3 {
      return -1;
    }
    dst[0], dst[1], dst[2] := 5, 1, 2;
    n := 3;
  }

  /** memcpy into the middle of the message. */
  method CopyInto(dst: array<byte>, at: nat, s: seq<byte>)
    requires at + |s| <= dst.Length
    modifies dst
    ensures dst[..] == old(dst[..])[..at] + s + old(dst[..])[at + |s|..]
  {
    forall i | 0 <= i < |s| {
      dst[at + i] := s[i];
    }
  }

  /** stress_build_auth: the message, or -1 for an empty or oversized string or a buffer too small. */
  method BuildAuth(dst: array<byte>, user: seq<byte>, pass: seq<byte>) returns (n: int)
    modifies dst
    ensures n == -1 <==> |user| == 0 || |user| > 255 || |pass| == 0 || |pass| > 255 || dst.Length < 3 + |user| + |pass|
    ensures if n == -1 then dst[..] == old(dst[..])
            else |user| <= 255 && |pass| <= 255 && n == |AuthMessage(user, pass)| <= dst.Length
                 && dst[..] == AuthMessage(user, pass) + old(dst[..])[n..]
  {
    var len := 3 + |user| + |pass|;
    if |user| == 0 || |user| > 255 || |pass| == 0 || |pass| > 255 || dst.Length < len {
      return -1;
    }
    ghost var before := dst[..];
    CopyInto(dst, 0, [1, |user| as byte]);
    CopyInto(dst, 2, user);
    assert dst[..] == [1, |user| as byte] + user + before[2 + |user|..];
    CopyInto(dst, 2 + |user|, [|pass| as byte]);
    assert dst[..] == [1, |user| as byte] + user + [|pass| as byte] + before[3 + |user|..];
    CopyInto(dst, 3 + |user|, pass);
    n := len;
    assert dst[..] == [1, |user| as byte] + user + [|pass| as byte] + pass + before[len..];
  }

  /** stress_build_connect_ipv4. */
  method BuildConnect(dst: array<byte>, addr: int, port: int) returns (n: int)
    requires 0 <= addr < 0x1_0000_0000 && 0 <= port < 65536
    modifies dst
    ensures if dst.Length < 10 then n == -1 && dst[..] == old(dst[..])
            else n == 10 && dst[..] == RequestMessage(CMD_CONNECT, ATYP_IPV4, Octets(addr), port) + old(dst[..])[10..]
  {
    if dst.Length < 10 {
      return -1;
    }
    hide Octets;
    var message: seq<byte> := [5, 1, 0, 1] + Octets(addr) + [port / 256, port % 256];
    CopyInto(dst, 0, message);
    n := 10;
  }

  // ------------------------------------------------------------------------ the validators

  predicate ValidateNegotiation(reply: seq<byte>)
    requires |reply| >= 2
  {
    reply[0] == 5 && reply[1] == 2
  }

  predicate ValidateAuth(reply: seq<byte>)
    requires |reply| >= 2
  {
    reply[0] == 1 && reply[1] == 0
  }

  predicate ValidateConnect(reply: seq<byte>)
    requires |reply| >= 10
  {
    reply[0] == 5 && reply[1] == 0 && reply[2] == 0 && reply[3] == 1
  }

  /** The method offer is understood, and the server's reply to it is accepted exactly when the server has
  users, in which case authentication follows. */
  lemma NegotiationAgreed(suffix: seq<byte>, users: bool)
    ensures var (p, rest) := ParseNeg(NEG_START, NEGOTIATION + suffix);
            && p.state.Done? && rest == suffix
            && (ValidateNegotiation(MethodReply(ChooseMethod(p, users))) <==> users)
  {
    hide ParseNeg;
    var s := NEGOTIATION + suffix;
    NegotiationExact(s);
    assert s[2..3] == [2] && s[3..] == suffix;
  }

  /** The status reply is accepted exactly when the credentials were; the connect reply exactly when it
  reports success with an IPv4 address. */
  lemma RepliesAgreed(status: byte, rep: byte, a: SockAddr)
    requires ValidAddr(a) && !a.OtherFamily?
    ensures ValidateAuth(AuthReply(status)) <==> status == AUTH_OK
    ensures |AddrReply(rep, a)| >= 10 && |FailReply(rep)| == 10
    ensures ValidateConnect(AddrReply(rep, a)) <==> rep == REP_SUCCESS && a.IPv4?
    ensures ValidateConnect(FailReply(rep)) <==> rep == REP_SUCCESS
  {}

  /** Three built messages and any payload, in one stream: the server recovers exactly the user, the
  password, the address and the port, and leaves the payload unread. */
  lemma HandshakeUnderstood(user: seq<byte>, pass: seq<byte>, addr: int, port: int, payload: seq<byte>)
    requires 1 <= |user| <= 255 && 1 <= |pass| <= 255 && 0 <= addr < 0x1_0000_0000 && 0 <= port < 65536
    ensures var stream := NEGOTIATION + AuthMessage(user, pass) + RequestMessage(CMD_CONNECT, ATYP_IPV4, Octets(addr), port) + payload;
            var auth := ParseAuth(AUTH_START, AfterNeg(stream)).0;
            var request := ParseReq(REQ_START, AfterAuth(stream, METHOD_USERPASS)).0;
            && auth.state.Done? && auth.uname == user && auth.passwd == pass
            && request.state.Done? && request.cmd == CMD_CONNECT && request.atyp == ATYP_IPV4
            && |request.addr| == 4 && Address(request.addr) == addr && request.port == port
            && Payload(stream, METHOD_USERPASS) == payload
  {
    hide ParseNeg, ParseAuth, ParseReq, AfterNeg, AfterAuth, Payload, Octets, Address, AuthMessage, RequestMessage, ReqOver;
    HandshakeExact([METHOD_USERPASS], user, pass, CMD_CONNECT, ATYP_IPV4, Octets(addr), port, payload, METHOD_USERPASS);
    OctetsAddress(addr);
    assert NEGOTIATION == [Negotiation.SOCKS5_VERSION, 1] + [METHOD_USERPASS];
  }
}
