/** The client's byte stream, cut into negotiation, authentication, request and payload.

`received` is everything the client has sent so far, however recv(2) has cut it into pieces; these
functions say which bytes belong to which message. */
module Handshake {
  import opened Bytes
  import opened Feeding
  import opened Negotiation
  import opened Auth
  import opened Request

  /** What follows the negotiation message. */
  function AfterNeg(received: seq<byte>): (rest: seq<byte>) {
    ParseNeg(NEG_START, received).1
  }

  /** What follows the authentication message, when there is one. */
  function AfterAuth(received: seq<byte>, chosen: byte): (rest: seq<byte>) {
    if chosen == METHOD_USERPASS then ParseAuth(AUTH_START, AfterNeg(received)).1 else AfterNeg(received)
  }

  /** What follows the request: the bytes meant for the origin. */
  function Payload(received: seq<byte>, chosen: byte): (rest: seq<byte>) {
    ParseReq(REQ_START, AfterAuth(received, chosen)).1
  }

  ghost predicate NegOver(received: seq<byte>) {
    NegFinal(ParseNeg(NEG_START, received).0)
  }

  ghost predicate AuthOver(received: seq<byte>, chosen: byte) {
    NegOver(received) && (chosen == METHOD_USERPASS ==> AuthFinal(ParseAuth(AUTH_START, AfterNeg(received)).0))
  }

  ghost predicate ReqOver(received: seq<byte>, chosen: byte) {
    AuthOver(received, chosen) && ReqFinal(ParseReq(REQ_START, AfterAuth(received, chosen)).0)
  }

  // Later bytes never change a message that is already complete; they only lengthen what follows it.

  lemma NegStable(received: seq<byte>, more: seq<byte>)
    requires NegOver(received)
    ensures ParseNeg(NEG_START, received + more) == (ParseNeg(NEG_START, received).0, AfterNeg(received) + more)
  {
    FeedAppend(NegStep, NegFinal, NEG_START, received, more);
  }

  lemma NegContinues(received: seq<byte>, more: seq<byte>)
    requires !NegOver(received)
    ensures ParseNeg(NEG_START, received + more) == ParseNeg(ParseNeg(NEG_START, received).0, more)
  {
    FeedAppend(NegStep, NegFinal, NEG_START, received, more);
  }

  lemma AuthStable(received: seq<byte>, chosen: byte, more: seq<byte>)
    requires AuthOver(received, chosen)
    ensures AfterAuth(received + more, chosen) == AfterAuth(received, chosen) + more
    ensures ParseNeg(NEG_START, received + more).0 == ParseNeg(NEG_START, received).0
    ensures chosen == METHOD_USERPASS ==>
              ParseAuth(AUTH_START, AfterNeg(received + more)).0 == ParseAuth(AUTH_START, AfterNeg(received)).0
    ensures AuthOver(received + more, chosen)
  {
    NegStable(received, more);
    if chosen == METHOD_USERPASS {
      FeedAppend(AuthStep, AuthFinal, AUTH_START, AfterNeg(received), more);
    }
  }

  lemma AuthContinues(received: seq<byte>, more: seq<byte>)
    requires NegOver(received) && !AuthFinal(ParseAuth(AUTH_START, AfterNeg(received)).0)
    ensures ParseAuth(AUTH_START, AfterNeg(received + more)) == ParseAuth(ParseAuth(AUTH_START, AfterNeg(received)).0, more)
    ensures ParseNeg(NEG_START, received + more).0 == ParseNeg(NEG_START, received).0
  {
    NegStable(received, more);
    FeedAppend(AuthStep, AuthFinal, AUTH_START, AfterNeg(received), more);
  }

  lemma ReqContinues(received: seq<byte>, chosen: byte, more: seq<byte>)
    requires AuthOver(received, chosen) && !ReqFinal(ParseReq(REQ_START, AfterAuth(received, chosen)).0)
    ensures ParseReq(REQ_START, AfterAuth(received + more, chosen))
            == ParseReq(ParseReq(REQ_START, AfterAuth(received, chosen)).0, more)
  {
    AuthStable(received, chosen, more);
    FeedAppend(ReqStep, ReqFinal, REQ_START, AfterAuth(received, chosen), more);
  }

  /** After the request, every further byte is payload, in order. */
  lemma PayloadGrows(received: seq<byte>, chosen: byte, more: seq<byte>)
    requires ReqOver(received, chosen)
    ensures Payload(received + more, chosen) == Payload(received, chosen) + more
    ensures ParseReq(REQ_START, AfterAuth(received + more, chosen)).0 == ParseReq(REQ_START, AfterAuth(received, chosen)).0
    ensures ReqOver(received + more, chosen)
  {
    AuthStable(received, chosen, more);
    FeedAppend(ReqStep, ReqFinal, REQ_START, AfterAuth(received, chosen), more);
  }

  /** A stream made of the three messages and a payload is cut back into exactly those pieces. */
  lemma HandshakeExact(methods: seq<byte>, user: seq<byte>, pass: seq<byte>, cmd: byte, atyp: byte, addr: seq<byte>, port: int,
                       payload: seq<byte>, chosen: byte)
    requires |methods| <= 255 && |user| <= 255 && |pass| <= 255 && WellFormed(atyp, addr, port)
    ensures var auth := if chosen == METHOD_USERPASS then AuthMessage(user, pass) else [];
            var stream := [Negotiation.SOCKS5_VERSION, |methods| as byte] + methods + auth + RequestMessage(cmd, atyp, addr, port) + payload;
            && ReqOver(stream, chosen)
            && Payload(stream, chosen) == payload
            && ParseReq(REQ_START, AfterAuth(stream, chosen)).0 == ReqView(Request.Done, cmd, atyp, |addr|, addr, port, 2)
            && (chosen == METHOD_USERPASS ==>
                  ParseAuth(AUTH_START, AfterNeg(stream)).0 == AuthView(Auth.Done, |user|, user, |pass|, pass))
  {
    hide ParseNeg, ParseAuth, ParseReq;
    var auth := if chosen == METHOD_USERPASS then AuthMessage(user, pass) else [];
    var request := RequestMessage(cmd, atyp, addr, port);
    var tail := auth + (request + payload);
    var stream := [Negotiation.SOCKS5_VERSION, |methods| as byte] + methods + auth + request + payload;
    assert stream == [Negotiation.SOCKS5_VERSION, |methods| as byte] + methods + tail;
    NegotiationExact(stream);
    assert stream[2 + |methods|..] == tail;
    RequestComplete(cmd, atyp, addr, port, payload);
    if chosen == METHOD_USERPASS {
      AuthComplete(user, pass, request + payload);
    } else {
      assert tail == request + payload;
    }
  }

  /** And only such streams are accepted: what the parsers report, written out again, is what arrived. */
  lemma HandshakeSound(received: seq<byte>, chosen: byte, a: AuthView, r: ReqView)
    requires ParseNeg(NEG_START, received).0.state.Done?
    requires a == ParseAuth(AUTH_START, AfterNeg(received)).0 && (chosen == METHOD_USERPASS ==> a.state.Done?)
    requires r == ParseReq(REQ_START, AfterAuth(received, chosen)).0 && r.state.Done?
    ensures WellFormed(r.atyp, r.addr, r.port) && (chosen == METHOD_USERPASS ==> |a.uname| <= 255 && |a.passwd| <= 255)
    ensures AfterAuth(received, chosen) == RequestMessage(r.cmd, r.atyp, r.addr, r.port) + Payload(received, chosen)
    ensures AfterNeg(received) == (if chosen == METHOD_USERPASS then AuthMessage(a.uname, a.passwd) else []) + AfterAuth(received, chosen)
    ensures 2 <= |received| && received[0] == Negotiation.SOCKS5_VERSION
    ensures 2 + received[1] as int <= |received| && AfterNeg(received) == received[2 + received[1] as int..]
  {
    hide ParseNeg, ParseAuth, ParseReq, RequestMessage, AuthMessage, WellFormed;
    NegotiationExact(received);
    RequestSound(AfterAuth(received, chosen));
    if chosen == METHOD_USERPASS {
      AuthSound(AfterNeg(received));
    } else {
      assert [] + AfterNeg(received) == AfterNeg(received);
    }
  }
}
