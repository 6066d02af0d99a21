/** What holds whenever a SOCKS5 connection rests in a state.

`View` is the abstract value of a connection: the fields of struct socks5_conn with the buffers as the
bytes they hold, the selector's rows for the two descriptors, and the history of the run. */
module Socks5Spec {
  import opened Sequences
  import opened Bytes
  import opened Negotiation
  import opened Auth
  import opened Request
  import opened Handshake
  import opened Users
  import opened Network
  import opened Socks5State

  const MIN_BUFFER := 512

  /** The run so far. `stage` counts the replies queued (1 method, 2 authentication, 3 request). */
  datatype History = History(
    received: seq<byte>, sent: seq<byte>, fromOrigin: seq<byte>, toOrigin: seq<byte>,
    stage: nat, reply: seq<byte>, relayed: bool, grant: Grant, attempts: nat, clientShuts: nat, originShuts: nat)

  const NO_HISTORY := History([], [], [], [], 0, [], false, NoGrant, 0, 0, 0)

  /** `clientRow` and `originRow` are the interests the selector holds, None for an unregistered descriptor;
  `clientInterest` and `originInterest` are the copies the connection caches; `candidates` counts the addresses
  still to be tried. */
  datatype View = View(
    neg: NegView, auth: AuthView, request: ReqView, chosen: byte, authStatus: byte,
    rb: seq<byte>, rbStart: nat, rbCap: nat, wb: seq<byte>, wbStart: nat, wbCap: nat,
    clientRow: Option<Interest>, originRow: Option<Interest>, clientInterest: Interest, originInterest: Interest,
    connected: bool, clientClosed: bool, originClosed: bool, clientWrShut: bool, originWrShut: bool,
    arrivalError: bool, candidates: nat, h: History)

  /** Every reply queued so far, in order. */
  ghost function Replies(v: View): (s: seq<byte>) {
    (if v.h.stage >= 1 then MethodReply(v.chosen) else [])
    + (if v.h.stage >= 2 && v.chosen == METHOD_USERPASS then AuthReply(v.authStatus) else [])
    + (if v.h.stage >= 3 then v.h.reply else [])
  }

  /** The client may use the proxy: it negotiated, and no authentication was chosen while there were no users, or
  the credentials it sent, as parsed from its stream, were in the store consulted for them. */
  ghost predicate Authorised(chosen: byte, status: byte, grant: Grant, received: seq<byte>) {
    && ParseNeg(NEG_START, received).0.state.Done?
    && (|| (chosen == METHOD_NOAUTH && grant == Anonymous([]))
        || (&& chosen == METHOD_USERPASS && status == AUTH_OK && grant.Credentials?
            && var auth := ParseAuth(AUTH_START, AfterNeg(received)).0;
               auth.state.Done? && grant.user == auth.uname && grant.pass == auth.passwd && Entry(grant.user, grant.pass) in grant.store))
  }

  ghost predicate SuccessReply(s: seq<byte>) {
    exists a :: ValidAddr(a) && !a.OtherFamily? && s == AddrReply(REP_SUCCESS, a)
  }

  ghost predicate FailureReply(s: seq<byte>) {
    exists rep: byte :: s == FailReply(rep)
  }

  /** The replies queued so far are replies: a method, then, for a client that was let in, one answer to its
  request, which is a success when the relay starts. */
  ghost predicate Answers(chosen: byte, status: byte, stage: nat, reply: seq<byte>, relayed: bool) {
    && stage <= 3
    && (stage >= 1 ==> chosen == METHOD_NOAUTH || chosen == METHOD_USERPASS || chosen == METHOD_NONE)
    && (stage == 3 ==> chosen == METHOD_NOAUTH || (chosen == METHOD_USERPASS && status == AUTH_OK))
    && (stage == 3 ==> SuccessReply(reply) || FailureReply(reply))
    && (relayed ==> SuccessReply(reply))
  }

  /** A CONNECT request, well formed. */
  predicate IsConnect(request: ReqView) {
    request.state.Done? && request.cmd == 1
  }

  /** The reply code a request that is not to be obeyed calls for: 1 for a malformed one, 7 for another command. */
  predicate Suits(request: ReqView, rep: byte) {
    (request.state.Error? ==> rep == 1) && (request.state.Done? && request.cmd != 1 ==> rep == 7)
  }

  /** Nothing is tried or relayed but for a CONNECT request, as parsed from what the client sent; a malformed request
  and another command have their own answers, byte for byte. */
  ghost predicate Obeyed(chosen: byte, received: seq<byte>, attempts: nat, relayed: bool, stage: nat, reply: seq<byte>) {
    attempts > 0 || relayed || stage == 3 ==>
      var request := ParseReq(REQ_START, AfterAuth(received, chosen)).0;
      && (attempts > 0 || relayed ==> IsConnect(request))
      && (stage == 3 && request.state.Error? ==> reply == [5, 1, 0, 1, 0, 0, 0, 0, 0, 0])
      && (stage == 3 && request.state.Done? && request.cmd != 1 ==> reply == [5, 7, 0, 1, 0, 0, 0, 0, 0, 0])
  }

  /** A parser that stopped at an error stopped where the stream as a whole does. */
  ghost predicate Faults(neg: NegView, auth: AuthView, received: seq<byte>) {
    && (neg.state.Invalid? ==> neg == ParseNeg(NEG_START, received).0)
    && (auth.state.Error? ==> NegOver(received) && auth == ParseAuth(AUTH_START, AfterNeg(received)).0)
  }

  /** What holds in every state, terminal ones included: the bytes sent and pending towards the client
  are the replies followed by the origin's bytes; those sent and pending towards the origin are the
  client's payload; a connect needs authorisation; a side is shut at most once, after its peer has closed
  and everything for it has been sent. */
  ghost predicate Base(v: View) {
    && v.h.sent + v.wb == Replies(v) + v.h.fromOrigin
    && (!v.h.relayed ==> v.h.fromOrigin == [] && v.h.toOrigin == [])
    && (v.h.stage == 3 ==> ReqOver(v.h.received, v.chosen) && Authorised(v.chosen, v.authStatus, v.h.grant, v.h.received))
    && (v.h.relayed ==> v.h.stage == 3 && v.h.toOrigin + v.rb == Payload(v.h.received, v.chosen))
    && (v.h.attempts > 0 ==> Authorised(v.chosen, v.authStatus, v.h.grant, v.h.received))
    && Obeyed(v.chosen, v.h.received, v.h.attempts, v.h.relayed, v.h.stage, v.h.reply)
    && Answers(v.chosen, v.authStatus, v.h.stage, v.h.reply, v.h.relayed) && Faults(v.neg, v.auth, v.h.received)
    && v.h.clientShuts == (if v.clientWrShut then 1 else 0) && v.h.originShuts == (if v.originWrShut then 1 else 0)
    && (v.clientWrShut ==> v.originClosed && v.wb == [])
    && (v.originWrShut ==> v.clientClosed && v.rb == [])
    && v.rbCap >= MIN_BUFFER && v.wbCap >= MIN_BUFFER && |v.rb| <= v.rbCap && |v.wb| <= v.wbCap
  }

  /** Nothing of the relay has been touched yet. */
  ghost predicate BeforeRelay(v: View) {
    && Base(v) && !v.h.relayed && !v.arrivalError && !v.clientWrShut && !v.originWrShut
    && v.clientInterest == OP_NOOP && v.originInterest == OP_NOOP
  }

  ghost predicate Rows(v: View, client: Interest, origin: Option<Interest>) {
    v.clientRow == Some(client) && v.originRow == origin
  }

  ghost predicate InNegRead(v: View) {
    && BeforeRelay(v) && Rows(v, OP_READ, None) && v.h.stage == 0 && v.h.attempts == 0 && v.wb == [] && v.auth == AUTH_START
    && ParseNeg(v.neg, v.rb) == ParseNeg(NEG_START, v.h.received) && !NegFinal(v.neg)
  }

  /** The negotiation is over and well formed. */
  ghost predicate Negotiated(v: View) {
    && BeforeRelay(v) && v.h.attempts == 0
    && v.neg == ParseNeg(NEG_START, v.h.received).0 && v.neg.state.Done?
    && (v.chosen == METHOD_NOAUTH || v.chosen == METHOD_USERPASS || v.chosen == METHOD_NONE)
    && (v.chosen == METHOD_NOAUTH ==> v.h.grant == Anonymous([]))
  }

  ghost predicate InNegWrite(v: View) {
    Negotiated(v) && Rows(v, OP_WRITE, None) && v.h.stage == 1 && v.rb == AfterNeg(v.h.received) && v.wb != []
  }

  /** Ready to read credentials, the parser about to be reset. */
  ghost predicate EnterAuthRead(v: View) {
    && Negotiated(v) && Rows(v, OP_READ, None) && v.h.stage == 1 && v.chosen == METHOD_USERPASS
    && v.rb == AfterNeg(v.h.received) && v.wb == []
  }

  ghost predicate InAuthRead(v: View) {
    && Negotiated(v) && Rows(v, OP_READ, None) && v.h.stage == 1 && v.chosen == METHOD_USERPASS && v.wb == []
    && ParseAuth(v.auth, v.rb) == ParseAuth(AUTH_START, AfterNeg(v.h.received)) && !AuthFinal(v.auth)
  }

  ghost predicate InAuthWrite(v: View) {
    && Negotiated(v) && Rows(v, OP_WRITE, None) && v.h.stage == 2 && v.chosen == METHOD_USERPASS && v.wb != []
    && v.auth == ParseAuth(AUTH_START, AfterNeg(v.h.received)).0 && v.auth.state.Done?
    && v.rb == AfterAuth(v.h.received, v.chosen)
    && (v.authStatus == AUTH_OK ==> Authorised(v.chosen, v.authStatus, v.h.grant, v.h.received))
  }

  /** The client may make a request: it was let in anonymously or with credentials the store accepted. */
  ghost predicate Cleared(v: View) {
    && BeforeRelay(v) && AuthOver(v.h.received, v.chosen) && Authorised(v.chosen, v.authStatus, v.h.grant, v.h.received)
    && (v.chosen == METHOD_NOAUTH || (v.chosen == METHOD_USERPASS && v.authStatus == AUTH_OK))
  }

  ghost predicate NoReplyYet(v: View) {
    v.wb == [] && v.h.stage == if v.chosen == METHOD_USERPASS then 2 else 1
  }

  ghost predicate EnterReqRead(v: View) {
    Cleared(v) && NoReplyYet(v) && v.h.attempts == 0 && Rows(v, OP_READ, None) && v.rb == AfterAuth(v.h.received, v.chosen)
  }

  ghost predicate InReqRead(v: View) {
    && Cleared(v) && NoReplyYet(v) && v.h.attempts == 0 && Rows(v, OP_READ, None)
    && ParseReq(v.request, v.rb) == ParseReq(REQ_START, AfterAuth(v.h.received, v.chosen)) && !ReqFinal(v.request)
  }

  /** The request has been read; at least one byte was taken out of the buffer since the last recv. */
  ghost predicate Requested(v: View) {
    && Cleared(v)
    && v.request == ParseReq(REQ_START, AfterAuth(v.h.received, v.chosen)).0 && ReqFinal(v.request)
    && v.rb == Payload(v.h.received, v.chosen) && |v.rb| < v.rbCap
  }

  /** A request was read and no reply is queued; the client is still registered. */
  ghost predicate Unanswered(v: View) {
    Requested(v) && NoReplyYet(v) && v.clientRow.Some?
  }

  ghost predicate InReqResolve(v: View) {
    Unanswered(v) && IsConnect(v.request) && Rows(v, OP_NOOP, None)
  }

  ghost predicate InReqConnecting(v: View) {
    Unanswered(v) && IsConnect(v.request) && Rows(v, OP_NOOP, Some(OP_WRITE))
  }

  ghost predicate InReqWrite(v: View) {
    && Requested(v) && v.h.stage == 3 && v.wb != []
    && (if v.connected then SuccessReply(v.h.reply) && IsConnect(v.request) && Rows(v, OP_WRITE, Some(OP_NOOP))
        else FailureReply(v.h.reply) && Rows(v, OP_WRITE, None))
  }

  /** The success reply has been sent; the cached interests are still the initial ones. */
  ghost predicate EnterRelay(v: View) {
    && Requested(v) && v.h.stage == 3 && v.wb == [] && v.connected && SuccessReply(v.h.reply) && IsConnect(v.request)
    && Rows(v, OP_WRITE, Some(OP_NOOP))
  }

  /** A relay whose buffers may have changed since the interests were last computed. */
  ghost predicate InRelayCore(v: View) {
    Base(v) && v.h.relayed && v.connected && !v.arrivalError && Authorised(v.chosen, v.authStatus, v.h.grant, v.h.received)
  }

  ghost function WantClient(v: View): (i: Interest) {
    Interest(!v.clientClosed && |v.rb| < v.rbCap, v.wb != [] && !v.clientWrShut)
  }

  ghost function WantOrigin(v: View): (i: Interest) {
    Interest(!v.originClosed && |v.wb| < v.wbCap, v.rb != [] && !v.originWrShut)
  }

  /** At rest in the relay the selector's rows are the cached interests, and both are what the buffers
  call for; a side whose peer has closed and whose buffer has drained has been shut. */
  ghost predicate InRelay(v: View) {
    && InRelayCore(v) && Rows(v, v.clientInterest, Some(v.originInterest))
    && v.clientInterest == WantClient(v) && v.originInterest == WantOrigin(v)
    && v.rbStart == 0 && v.wbStart == 0
    && (v.clientClosed && v.rb == [] ==> v.originWrShut)
    && (v.originClosed && v.wb == [] ==> v.clientWrShut)
    && !(v.clientWrShut && v.originWrShut)
  }

  /** The request was answered once, everything queued was sent, and a relay delivered everything received. */
  ghost predicate Delivered(v: View) {
    && Base(v) && v.h.stage == 3 && v.h.sent == Replies(v) + v.h.fromOrigin
    && (if v.h.relayed then SuccessReply(v.h.reply) else FailureReply(v.h.reply))
    && (v.h.relayed ==> v.h.toOrigin == Payload(v.h.received, v.chosen) && v.clientClosed && v.originClosed)
  }

  /** What holds at rest in a state. */
  ghost predicate In(s: StateId, v: View) {
    match s
    case NegRead => InNegRead(v)
    case NegWrite => InNegWrite(v)
    case AuthRead => InAuthRead(v)
    case AuthWrite => InAuthWrite(v)
    case ReqRead => InReqRead(v)
    case ReqResolve => InReqResolve(v)
    case ReqConnecting => InReqConnecting(v)
    case ReqWrite => InReqWrite(v)
    case Relaying => InRelay(v)
    case Finished => Delivered(v)
    case Failed => Base(v)
  }

  /** What a handler leaves behind for the jump to another state. */
  ghost predicate Entering(s: StateId, v: View) {
    match s
    case AuthRead => EnterAuthRead(v)
    case ReqRead => EnterReqRead(v)
    case Relaying => EnterRelay(v)
    case _ => In(s, v)
  }

  // ------------------------------------------------------------------ how a request is answered

  /** The origin's local address can be reported. */
  ghost predicate Reportable(local: Option<SockAddr>) {
    local.Some? && ValidAddr(local.value) && !local.value.OtherFamily?
  }

  /** A failure reply with this code has been queued. */
  ghost predicate Refused(v: View, rep: byte) {
    !v.connected && v.h.reply == FailReply(rep)
  }

  /** A connected origin was announced, or the request failed because it could not be. */
  ghost predicate Announced(v: View, local: Option<SockAddr>) {
    if Reportable(local) then v.connected && v.h.reply == AddrReply(REP_SUCCESS, local.value)
    else Refused(v, REP_GENERAL_FAILURE)
  }

  /** What trying one usable candidate leads to. */
  ghost predicate Tried(next: StateId, v: View, r: ConnectResult) {
    match r
    case Unusable(_) => true
    case Connected(registered, local) =>
      next.ReqWrite? && if registered then Announced(v, local) else Refused(v, REP_GENERAL_FAILURE)
    case InProgress(registered) =>
      if registered then next.ReqConnecting? else next.ReqWrite? && Refused(v, REP_GENERAL_FAILURE)
  }

  /** What trying `n` candidates in order leads to: the first usable one decides, and those after it are left; if
  there is none, the last failure's code is the answer. */
  ghost predicate ConnectEnded(next: StateId, v: View, connects: seq<ConnectResult>, n: nat, last: byte) {
    var k := FirstUsable(connects, 0, n);
    if k == n then next.ReqWrite? && Refused(v, LastRep(connects, n, last)) && v.candidates == 0
    else Tried(next, v, Candidate(connects, k)) && v.candidates + k + 1 == n
  }

  /** What a request that has been read leads to. */
  ghost predicate Processed(next: StateId, v: View, request: ReqView, world: World) {
    if request.state.Error? then next.ReqWrite? && Refused(v, REP_GENERAL_FAILURE)
    else if request.cmd != CMD_CONNECT then next.ReqWrite? && Refused(v, REP_CMD_NOT_SUPPORTED)
    else if request.atyp == ATYP_IPV4 || request.atyp == ATYP_IPV6 then ConnectEnded(next, v, world.connects, 1, REP_GENERAL_FAILURE)
    else if world.queued then next.ReqResolve?
    else next.ReqWrite? && Refused(v, REP_GENERAL_FAILURE)
  }

  /** Why a client that may skip authentication is let in. */
  ghost function MethodGrant(chosen: byte, store: seq<Entry<byte>>): (g: Grant) {
    if chosen == METHOD_NOAUTH then Anonymous(store) else NoGrant
  }

  /** Why a client whose credentials were checked is let in. */
  ghost function StatusGrant(status: byte, store: seq<Entry<byte>>, auth: AuthView): (g: Grant) {
    if status == AUTH_OK then Credentials(store, auth.uname, auth.passwd) else NoGrant
  }

  // ------------------------------------- what each handler does, from the view `v` to the view `u`

  /** The method and the status stay. */
  ghost predicate SameClient(v: View, u: View) {
    u.chosen == v.chosen && u.authStatus == v.authStatus
  }

  /** negotiation_read: what it took from the socket, where it goes, and the method it chose. */
  ghost predicate NegotiationReadDone(v: View, u: View, r: RecvResult<byte>, world: World, next: StateId) {
    && next == (if u.neg.state.Done? then NegWrite else if u.neg.state.Invalid? || Broken(r) then Failed else NegRead)
    && u.h.received == v.h.received + (if NegFinal(ParseNeg(v.neg, v.rb).0) then [] else Taken(r, v.rbCap))
    && (next.NegWrite? ==> u.chosen == ChooseMethod(u.neg, world.store != []) && ChosenByOffer(u.h.received, world.store != [], u.chosen))
    && u.h.grant == (if next.NegWrite? then MethodGrant(u.chosen, world.store) else v.h.grant) && u.h.sent == v.h.sent
  }

  /** A user store as the program keeps it. */
  ghost predicate Kept(store: seq<Entry<byte>>) {
    UniqueNames(store) && forall i :: 0 <= i < |store| ==> Storable(store[i])
  }

  /** auth_read: likewise, and the status the user store gave. */
  ghost predicate AuthReadDone(v: View, u: View, r: RecvResult<byte>, world: World, next: StateId) {
    && next == (if u.auth.state.Done? then AuthWrite else if u.auth.state.Error? || Broken(r) then Failed else AuthRead)
    && u.h.received == v.h.received + (if AuthFinal(ParseAuth(v.auth, v.rb).0) then [] else Taken(r, v.rbCap))
    && (next.AuthWrite? ==> u.authStatus == if Accepts(world.store, u.auth.uname, u.auth.passwd) then AUTH_OK else AUTH_FAIL)
    && (next.AuthWrite? && Kept(world.store) ==> (u.authStatus == AUTH_OK <==> Entry(u.auth.uname, u.auth.passwd) in world.store))
    && u.h.grant == (if next.AuthWrite? then StatusGrant(u.authStatus, world.store, u.auth) else v.h.grant) && u.chosen == v.chosen && u.h.sent == v.h.sent
  }

  /** The three reply writers: as much as the socket takes is sent, and the state moves when all of it is out. */
  ghost predicate ReplySent(v: View, u: View, s: SendResult, stay: StateId, sent: StateId, next: StateId) {
    && next == AfterSend(s, |v.wb|, stay, sent)
    && u.h == v.h.(sent := v.h.sent + v.wb[..SentCount(s, |v.wb|)]) && u.wb == v.wb[SentCount(s, |v.wb|)..]
    && u.rb == v.rb && SameClient(v, u)
  }

  /** Relaying changes nothing about the handshake. */
  ghost predicate SameHandshake(v: View, u: View) {
    SameClient(v, u) && u.h.grant == v.h.grant && u.h.stage == v.h.stage && u.h.reply == v.h.reply && u.h.relayed == v.h.relayed
  }

  /** relay_read. */
  ghost predicate RelayReadDone(v: View, u: View, fromClient: bool, r: RecvResult<byte>, sends: seq<SendResult>, next: StateId) {
    && u.clientClosed == (v.clientClosed || (fromClient && r.PeerClosed?))
    && u.originClosed == (v.originClosed || (!fromClient && r.PeerClosed?))
    && (fromClient ==> |v.rb| <= v.rbCap && RelayPassed(v.rb, u.rb, Taken(r, v.rbCap - |v.rb|), r, sends, next)
                       && u.h.received == v.h.received + Taken(r, v.rbCap - |v.rb|) && u.wb == v.wb && u.h.fromOrigin == v.h.fromOrigin)
    && (!fromClient ==> |v.wb| <= v.wbCap && RelayPassed(v.wb, u.wb, Taken(r, v.wbCap - |v.wb|), r, sends, next)
                        && u.h.fromOrigin == v.h.fromOrigin + Taken(r, v.wbCap - |v.wb|) && u.rb == v.rb && u.h.received == v.h.received)
    && (!next.Failed? ==> next == RelayNext(u)) && SameHandshake(v, u)
  }

  ghost function RelayNext(u: View): (next: StateId)
    ensures next.Finished? || next.Relaying?
  {
    if u.clientClosed && u.rb == [] && u.originClosed && u.wb == [] then Finished else Relaying
  }

  /** A buffer that got `chunk` and was flushed. */
  ghost predicate RelayPassed(before: seq<byte>, after: seq<byte>, chunk: seq<byte>, r: RecvResult<byte>, sends: seq<SendResult>, next: StateId) {
    if chunk == [] then after == before && (next.Failed? <==> r.RecvFailed?)
    else
      var (n, ok) := FlushCount(|before| + |chunk|, sends);
      after == (before + chunk)[n..] && (next.Failed? <==> !ok)
  }

  /** relay_write. */
  ghost predicate RelayWriteDone(v: View, u: View, toClient: bool, sends: seq<SendResult>, next: StateId) {
    && (toClient ==> u.wb == v.wb[FlushCount(|v.wb|, sends).0..] && u.rb == v.rb && (next.Failed? <==> !FlushCount(|v.wb|, sends).1))
    && (!toClient ==> u.rb == v.rb[FlushCount(|v.rb|, sends).0..] && u.wb == v.wb && (next.Failed? <==> !FlushCount(|v.rb|, sends).1))
    && (!next.Failed? ==> next == RelayNext(u)) && SameHandshake(v, u) && u.h.received == v.h.received && u.h.fromOrigin == v.h.fromOrigin
  }

  /** What the read handler of state `s` does. */
  ghost predicate ReadDone(s: StateId, v: View, u: View, fromClient: bool, r: RecvResult<byte>, world: World, next: StateId) {
    match s
    case NegRead => NegotiationReadDone(v, u, r, world, next)
    case AuthRead => AuthReadDone(v, u, r, world, next)
    case ReqRead => RequestReadDone(v, u, r, world, next)
    case Relaying => RelayReadDone(v, u, fromClient, r, world.sends, next)
    case _ => false
  }

  /** request_read. */
  ghost predicate RequestReadDone(v: View, u: View, r: RecvResult<byte>, world: World, next: StateId) {
    && (if ReqFinal(u.request) then Processed(next, u, u.request, world) else next == if Broken(r) then Failed else ReqRead)
    && u.h.received == v.h.received + (if ReqFinal(ParseReq(v.request, v.rb).0) then [] else Taken(r, v.rbCap))
    && u.h.grant == v.h.grant && SameClient(v, u) && u.h.sent == v.h.sent
  }

  /** A reply writer, as far as it survives the arrival hook of the next state. */
  ghost predicate PartSent(v: View, u: View, s: SendResult, stay: StateId, sent: StateId, next: StateId) {
    && next == AfterSend(s, |v.wb|, stay, sent) && u.h.sent == v.h.sent + v.wb[..SentCount(s, |v.wb|)]
    && u.h.received == v.h.received && u.h.grant == v.h.grant && u.h.reply == v.h.reply && u.rb == v.rb && SameClient(v, u)
  }

  /** Where a reply that is out leads to. */
  ghost function ReplyNext(s: StateId, v: View): (next: StateId) {
    if s.NegWrite? then if v.chosen == METHOD_NONE then Failed else if v.chosen == METHOD_USERPASS then AuthRead else ReqRead
    else if s.AuthWrite? then if v.authStatus == AUTH_OK then ReqRead else Failed
    else if v.connected then Relaying else Finished
  }

  /** request_connecting. */
  ghost predicate ConnectingDone(v: View, u: View, soError: Option<byte>, local: Option<SockAddr>, world: World, next: StateId) {
    && (if soError.None? then next.ReqWrite? && Announced(u, local)
        else ConnectEnded(next, u, world.connects, v.candidates, soError.value))
    && u.h.grant == v.h.grant && SameClient(v, u) && u.h.received == v.h.received && u.h.sent == v.h.sent
  }

  /** What the write handler of state `s` does, and the arrival hook after it. */
  ghost predicate WriteDone(s: StateId, v: View, u: View, toClient: bool, send: SendResult, soError: Option<byte>,
                            local: Option<SockAddr>, world: World, next: StateId)
  {
    match s
    case NegWrite => PartSent(v, u, send, s, ReplyNext(s, v), next)
    case AuthWrite => PartSent(v, u, send, s, ReplyNext(s, v), next)
    case ReqWrite => PartSent(v, u, send, s, ReplyNext(s, v), next)
    case ReqConnecting => ConnectingDone(v, u, soError, local, world, next)
    case Relaying => RelayWriteDone(v, u, toClient, world.sends, next)
    case _ => false
  }

  /** request_resolve_done. */
  ghost predicate ResolveDone(v: View, u: View, resolution: Resolution, world: World, last: byte, next: StateId) {
    && (match resolution
        case Pending => next.ReqResolve? && u == v
        case NoAddress => next.ReqWrite? && Refused(u, REP_GENERAL_FAILURE)
        case Addresses(count) => ConnectEnded(next, u, world.connects, count, last))
    && u.h.grant == v.h.grant && SameClient(v, u) && u.h.received == v.h.received && u.h.sent == v.h.sent
  }

  /** What a handler leaves behind when it returns `next` in state `s`. */
  ghost predicate Left(s: StateId, next: StateId, v: View) {
    if next == s then In(next, v) else Entering(next, v) && !next.NegRead?
  }

  // ------------------------------------------------------ what each event does, handler and all

  ghost function Closed(v: View): (u: View) {
    v.(clientRow := None, originRow := None)
  }

  /** The end of socks5_advance: a connection that is over is closed. */
  ghost predicate Settled(n: StateId, m: View, t: StateId, u: View) {
    t == n && u == if n.Failed? || n.Finished? then Closed(m) else m
  }

  /** What holds after a read handler and its jump: a read state has taken in everything buffered. */
  ghost predicate Rested(n: StateId, m: View) {
    In(n, m) && (IsReadState(n) ==> m.rb == [])
  }

  /** socks5_advance: bytes already buffered for the next phase are read first, once. */
  ghost predicate AdvanceDone(n: StateId, m: View, r: RecvResult<byte>, world: World, t: StateId, u: View) {
    if IsReadState(n) && m.rb != [] then
      exists n': StateId, m': View :: ReadDone(n, m, m', true, r, world, n') && Rested(n', m') && Settled(n', m', t, u)
    else Settled(n, m, t, u)
  }

  /** A connection between events. `lastRep` is the reply code remembered. */
  datatype Snapshot = Snapshot(state: StateId, view: View, lastRep: byte)

  /** What holds between events. A connection whose client row is gone has been closed. */
  ghost predicate Resting(s: Snapshot) {
    if s.view.clientRow.Some? then Rested(s.state, s.view) && !s.state.Finished? && !s.state.Failed? && !s.view.arrivalError
    else s.view.originRow.None? && Base(s.view) && (s.state.Finished? ==> Delivered(s.view))
  }

  function First<T>(s: seq<T>, otherwise: T): (x: T) {
    if s == [] then otherwise else s[0]
  }

  function Rest<T>(s: seq<T>): (r: seq<T>) {
    if s == [] then [] else s[1..]
  }

  /** A readable descriptor: the state's read handler, then socks5_advance. */
  ghost predicate ReadEvent(s: Snapshot, fromClient: bool, recvs: seq<RecvResult<byte>>, world: World, t: Snapshot) {
    exists n: StateId, m: View :: ReadDone(s.state, s.view, m, fromClient, First(recvs, NothingYet), world, n) && Rested(n, m)
                                  && AdvanceDone(n, m, First(Rest(recvs), NothingYet), world, t.state, t.view)
  }

  /** A writable descriptor: the state's write handler, then socks5_advance. */
  ghost predicate WriteEvent(s: Snapshot, toClient: bool, send: SendResult, soError: Option<byte>, local: Option<SockAddr>,
                             recvs: seq<RecvResult<byte>>, world: World, t: Snapshot)
  {
    exists n: StateId, m: View :: WriteDone(s.state, s.view, m, toClient, send, soError, local, world, n) && In(n, m)
                                  && AdvanceDone(n, m, First(recvs, NothingYet), world, t.state, t.view)
  }

  /** The reaper on a connection that has been idle too long. */
  ghost predicate ExpireEvent(s: Snapshot, t: Snapshot) {
    && t.view.h.grant == s.view.h.grant && SameClient(s.view, t.view) && t.view.h.received == s.view.h.received && t.view.h.sent == s.view.h.sent
    && if s.state.ReqConnecting? then t.state.ReqWrite? && Refused(t.view, REP_TTL_EXPIRED)
       else if s.state.ReqResolve? then t.state.ReqWrite? && Refused(t.view, REP_GENERAL_FAILURE)
       else t.state == s.state && t.view == Closed(s.view)
  }

  /** Whether an event reaches a connection: its descriptor is registered with that interest, or it waits. */
  ghost predicate Reaches(s: Snapshot, e: Event) {
    && s.view.clientRow.Some?
    && match e
       case ClientReadable(_, _) => s.view.clientRow.value.read
       case ClientWritable(_, _) => s.view.clientRow.value.write
       case OriginReadable(_, _) => s.view.originRow.Some? && s.view.originRow.value.read
       case OriginWritable(_, _, _) => s.view.originRow.Some? && s.view.originRow.value.write
       case Woken(_, _) => s.state.ReqResolve?
       case ReapCompleted(_, _) => s.state.ReqResolve?
       case ReapExpired => true
  }

  /** What an event does to a connection; one that does not reach it does nothing. */
  ghost predicate EventStep(s: Snapshot, e: Event, t: Snapshot) {
    if !Reaches(s, e) then t == s
    else
      match e
      case ClientReadable(recvs, world) => ReadEvent(s, true, recvs, world, t)
      case ClientWritable(recvs, world) => WriteEvent(s, true, First(world.sends, NotNow), None, None, recvs, world, t)
      case OriginReadable(recvs, world) => ReadEvent(s, false, recvs, world, t)
      case OriginWritable(soError, local, world) => WriteEvent(s, false, NotNow, soError, local, [], world, t)
      case Woken(resolution, world) => ResolveDone(s.view, t.view, resolution, world, s.lastRep, t.state)
      case ReapCompleted(resolution, world) => ResolveDone(s.view, t.view, resolution, world, s.lastRep, t.state)
      case ReapExpired => ExpireEvent(s, t)
  }

  /** The store consulted while an event was handled is the one this grant names, and it has those credentials, or
  nobody at all. */
  ghost predicate GrantedAt(grant: Grant, e: Event) {
    && !grant.NoGrant? && !e.ReapExpired? && grant.store == e.world.store
    && if grant.Credentials? then Entry(grant.user, grant.pass) in grant.store else grant.store == []
  }

  /** A run: what each event did, in order. */
  ghost predicate Run(run: seq<Snapshot>, events: seq<Event>) {
    |run| == |events| + 1 && forall i :: 0 <= i < |events| ==> EventStep(run[i], events[i], run[i + 1])
  }
}
