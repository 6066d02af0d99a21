/** One SOCKS5 connection (src/server/socks5.c over src/shared/stm.c). */
module Socks5 {
  import opened Sequences
  import opened Bytes
  import opened Buffers
  import opened Feeding
  import opened Negotiation
  import opened Auth
  import opened Request
  import opened Handshake
  import opened Users
  import opened Network
  import opened Socks5State
  import opened Socks5Spec

  lemma NegDrained(received: seq<byte>)
    ensures var (v, rest) := ParseNeg(NEG_START, received); NegFinal(v) || rest == []
  {}

  lemma AuthDrained(rest: seq<byte>)
    ensures var (v, tail) := ParseAuth(AUTH_START, rest); AuthFinal(v) || tail == []
  {}

  lemma ReqDrained(rest: seq<byte>)
    ensures var (v, tail) := ParseReq(REQ_START, rest); ReqFinal(v) || tail == []
  {}

  /** The fields are those of struct socks5_conn; `clientRow` and `originRow` are the selector's rows.
  The three parsers are embedded by value, as in the struct; feeding one is its specification function,
  which the in-place parsers of modules Negotiation, Auth and Request are proved to compute. */
  class Connection {
    var current: Option<StateId>
    var neg: NegView
    var auth: AuthView
    var request: ReqView
    var chosen: byte
    var authStatus: byte
    const rb: Buffer<byte>      // read_buffer, client to origin
    const wb: Buffer<byte>      // write_buffer, origin to client
    var clientRow: Option<Interest>
    var originRow: Option<Interest>
    var candidates: nat         // addresses left in the list next_addr points to
    var lastRep: byte
    var connected: bool
    var clientClosed: bool
    var originClosed: bool
    var clientWrShut: bool
    var originWrShut: bool
    var clientInterest: Interest
    var originInterest: Interest
    var arrivalError: bool
    ghost var h: History

    ghost predicate Valid()
      reads this, rb, rb.data, wb, wb.data
    {
      rb != wb && rb.data != wb.data && rb.Valid() && wb.Valid()
    }

    /** The abstract value of the connection. */
    ghost function V(): (v: View)
      reads this, rb, wb
    {
      View(neg, auth, request, chosen, authStatus,
           rb.contents, rb.read, rb.data.Length, wb.contents, wb.read, wb.data.Length,
           clientRow, originRow, clientInterest, originInterest,
           connected, clientClosed, originClosed, clientWrShut, originWrShut, arrivalError, candidates, h)
    }

    function State(): (s: StateId)
      reads this
    {
      if current.None? then NegRead else current.value
    }

    /** socks5_passive_accept, for a client whose socket has been registered. */
    constructor (bufsize: nat)
      requires bufsize >= MIN_BUFFER
      ensures Valid() && fresh(rb) && fresh(wb) && fresh(rb.data) && fresh(wb.data)
      ensures InNegRead(V()) && current == None && neg == NEG_START && rb.contents == [] && h == NO_HISTORY
    {
      hide ParseNeg, Payload, ReqOver, Buffer.Valid;
      current := None;
      neg, auth, request := NEG_START, AUTH_START, REQ_START;
      rb := new Buffer<byte>(bufsize);
      wb := new Buffer<byte>(bufsize);
      chosen, authStatus, candidates, lastRep := 0, 0, 0, REP_GENERAL_FAILURE;
      clientRow, originRow := Some(OP_READ), None;
      connected, clientClosed, originClosed, clientWrShut, originWrShut, arrivalError := false, false, false, false, false, false;
      clientInterest, originInterest := OP_NOOP, OP_NOOP;
      h := NO_HISTORY;
    }

    // ------------------------------------------------------------------ reading from the client

    /** fill_read_buffer. The window is never empty, so a result of 0 is always end of stream. */
    method FillReadBuffer(r: RecvResult<byte>) returns (ok: bool, ghost chunk: seq<byte>)
      requires Valid() && rb.Room() > 0
      modifies this`h, rb, rb.data
      ensures Valid()
      ensures chunk == Taken(r, old(rb.Room())) && ok == !Broken(r)
      ensures rb.contents == old(rb.contents) + chunk
      ensures h == old(h).(received := old(h.received) + chunk)
    {
      chunk := [];
      if r.Offered? && r.bytes != [] {
        rb.Fill(Taken(r, rb.Room()));
        chunk := Taken(r, old(rb.Room()));
        h := h.(received := h.received + chunk);
        return true, chunk;
      }
      ok := r.NothingYet? || r.Offered?;
    }

    /** feed_negotiation. */
    method FeedNeg()
      requires Valid()
      modifies this`neg, rb, rb.data
      ensures Valid()
      ensures (neg, rb.contents) == ParseNeg(old(neg), old(rb.contents))
    {
      var bytes := rb.Peek();
      FeedLeaves(NegStep, NegFinal, neg, bytes);
      var (view, rest) := ParseNeg(neg, bytes);
      neg := view;
      rb.ReadAdv(rb.write - rb.read - |rest|);
    }

    /** feed_parser with feed_negotiation. */
    method FeedNegotiation(r: RecvResult<byte>) returns (ok: bool)
      requires Valid() && rb.data.Length > 0
      requires ParseNeg(neg, rb.contents) == ParseNeg(NEG_START, h.received) && !NegFinal(neg)
      modifies this`neg, this`h, rb, rb.data
      ensures Valid()
      ensures h == old(h).(received := h.received)
      ensures (neg, rb.contents) == ParseNeg(NEG_START, h.received)
      ensures !NegFinal(neg) ==> rb.contents == []
      ensures !ok <==> Broken(r) && !NegFinal(neg)
      ensures h.received == old(h.received) + if NegFinal(ParseNeg(old(neg), old(rb.contents)).0) then [] else Taken(r, rb.data.Length)
    {
      hide ParseNeg, Buffer.Valid;
      FeedNeg();
      NegDrained(h.received);
      if neg.state.Done? || neg.state.Invalid? {
        return true;
      }
      ghost var chunk;
      ghost var before := h.received;
      ok, chunk := FillReadBuffer(r);
      NegContinues(before, chunk);
      if !ok {
        assert before + [] == before;
        return false;
      }
      assert rb.contents == chunk;
      FeedNeg();
      NegDrained(h.received);
    }

    /** feed_auth. */
    method FeedAuth()
      requires Valid()
      modifies this`auth, rb, rb.data
      ensures Valid()
      ensures (auth, rb.contents) == ParseAuth(old(auth), old(rb.contents))
    {
      var bytes := rb.Peek();
      FeedLeaves(AuthStep, AuthFinal, auth, bytes);
      var (view, rest) := ParseAuth(auth, bytes);
      auth := view;
      rb.ReadAdv(rb.write - rb.read - |rest|);
    }

    /** feed_parser with feed_auth. */
    method FeedAuthentication(r: RecvResult<byte>) returns (ok: bool)
      requires Valid() && rb.data.Length > 0 && NegOver(h.received)
      requires ParseAuth(auth, rb.contents) == ParseAuth(AUTH_START, AfterNeg(h.received)) && !AuthFinal(auth)
      modifies this`auth, this`h, rb, rb.data
      ensures Valid()
      ensures h == old(h).(received := h.received)
      ensures ParseNeg(NEG_START, h.received).0 == ParseNeg(NEG_START, old(h.received)).0
      ensures (auth, rb.contents) == ParseAuth(AUTH_START, AfterNeg(h.received))
      ensures !AuthFinal(auth) ==> rb.contents == []
      ensures !ok <==> Broken(r) && !AuthFinal(auth)
      ensures h.received == old(h.received) + if AuthFinal(ParseAuth(old(auth), old(rb.contents)).0) then [] else Taken(r, rb.data.Length)
    {
      hide ParseAuth, ParseNeg, AfterNeg, Buffer.Valid;
      FeedAuth();
      AuthDrained(AfterNeg(h.received));
      if auth.state.Done? || auth.state.Error? {
        return true;
      }
      ghost var chunk;
      ghost var before := h.received;
      ok, chunk := FillReadBuffer(r);
      AuthContinues(before, chunk);
      if !ok {
        assert before + [] == before;
        return false;
      }
      assert rb.contents == chunk;
      FeedAuth();
      AuthDrained(AfterNeg(h.received));
    }

    /** feed_request. */
    method FeedReq()
      requires Valid()
      modifies this`request, rb, rb.data
      ensures Valid()
      ensures (request, rb.contents) == ParseReq(old(request), old(rb.contents))
      ensures !ReqFinal(old(request)) && ReqFinal(request) ==> |rb.contents| < |old(rb.contents)|
    {
      if !ReqFinal(request) {
        FeedProgress(ReqStep, ReqFinal, request, rb.contents);
      }
      var bytes := rb.Peek();
      FeedLeaves(ReqStep, ReqFinal, request, bytes);
      var (view, rest) := ParseReq(request, bytes);
      request := view;
      rb.ReadAdv(rb.write - rb.read - |rest|);
    }

    /** feed_parser with feed_request. */
    method FeedRequest(r: RecvResult<byte>) returns (ok: bool)
      requires Valid() && rb.data.Length > 0 && AuthOver(h.received, chosen)
      requires ParseReq(request, rb.contents) == ParseReq(REQ_START, AfterAuth(h.received, chosen)) && !ReqFinal(request)
      modifies this`request, this`h, rb, rb.data
      ensures Valid()
      ensures h == old(h).(received := h.received) && AuthOver(h.received, chosen)
      ensures (request, rb.contents) == ParseReq(REQ_START, AfterAuth(h.received, chosen))
      ensures !ReqFinal(request) ==> rb.contents == []
      ensures ReqFinal(request) ==> |rb.contents| < rb.data.Length
      ensures !ok <==> Broken(r) && !ReqFinal(request)
      ensures h.received == old(h.received) + if ReqFinal(ParseReq(old(request), old(rb.contents)).0) then [] else Taken(r, rb.data.Length)
    {
      hide ParseReq, AfterAuth, AuthOver, Buffer.Valid;
      FeedReq();
      ReqDrained(AfterAuth(h.received, chosen));
      if request.state.Done? || request.state.Error? {
        return true;
      }
      ghost var chunk;
      ghost var before := h.received;
      ok, chunk := FillReadBuffer(r);
      AuthStable(before, chosen, chunk);
      ReqContinues(before, chosen, chunk);
      if !ok {
        assert before + [] == before;
        return false;
      }
      assert rb.contents == chunk;
      FeedReq();
      ReqDrained(AfterAuth(h.received, chosen));
    }

    // ------------------------------------------------------------------------ negotiation phase

    /** negotiation_read, after the method reply has been queued. */
    method MethodChosen(ghost v: View, ghost store: seq<Entry<byte>>)
      requires InNegRead(v) && (neg, rb.contents) == ParseNeg(NEG_START, h.received) && neg.state.Done? && |rb.contents| <= v.rbCap
      requires chosen == ChooseMethod(neg, store != [])
      requires V() == NegFed(v, neg, h.received, rb.contents, rb.read).(chosen := chosen, wb := MethodReply(chosen), wbStart := wb.read)
      modifies this`clientRow, this`h
      ensures InNegWrite(V()) && h.received == old(h.received) && h.sent == old(h.sent) && h.grant == MethodGrant(chosen, store)
    {
      hide ParseNeg, InNegRead, InNegWrite, MethodReply, ChooseMethod, MethodGrant, Buffer.Valid;
      MethodQueuedOk(v, neg, h.received, rb.contents, rb.read, wb.read, chosen, store);
      h := h.(stage := 1, grant := MethodGrant(chosen, store));
      clientRow := Some(OP_WRITE);
    }

    /** negotiation_read, once the parser is done: the method is chosen and its reply queued. */
    method QueueMethod(ghost v: View, world: World)
      requires Valid() && InNegRead(v) && (neg, rb.contents) == ParseNeg(NEG_START, h.received) && neg.state.Done?
      requires V() == NegFed(v, neg, h.received, rb.contents, rb.read)
      modifies this`chosen, this`clientRow, this`h, wb, wb.data
      ensures Valid() && InNegWrite(V()) && chosen == ChooseMethod(neg, world.store != []) && h.received == old(h.received) && h.sent == old(h.sent)
      ensures h.grant == MethodGrant(chosen, world.store)
    {
      hide ParseNeg, InNegRead, InNegWrite, ChooseMethod, MethodReply, MethodGrant, Buffer.Valid;
      NegRoom(v);
      chosen := FillNegotiationReply(neg, wb, world.store != []);
      MethodChosen(v, world.store);
    }

    /** negotiation_read. */
    method NegotiationRead(r: RecvResult<byte>, world: World) returns (next: StateId)
      requires Valid() && InNegRead(V())
      modifies this`neg, this`chosen, this`clientRow, this`h, rb, rb.data, wb, wb.data
      ensures Valid() && (next.NegRead? || next.NegWrite? || next.Failed?)
      ensures NegotiationReadDone(old(V()), V(), r, world, next)
      ensures next.NegRead? ==> InNegRead(V()) && rb.contents == []
      ensures next.NegWrite? ==> InNegWrite(V())
      ensures next.Failed? ==> Base(V())
    {
      hide ParseNeg, InNegRead, InNegWrite, Base, Buffer.Valid, ChooseMethod, ChosenByOffer;
      ghost var v := V();
      NegRoom(v);
      var ok := FeedNegotiation(r);
      NegFedOk(v, neg, h.received, rb.contents, rb.read);
      assert V() == NegFed(v, neg, h.received, rb.contents, rb.read);
      if !ok || neg.state.Invalid? {
        return Failed;
      }
      if !neg.state.Done? {
        return NegRead;
      }
      ChoiceIsByOffer(h.received, world.store != []);
      QueueMethod(v, world);
      return NegWrite;
    }

    /** send(2) from the write buffer, once: 1 for progress, 0 for would-block, -1 for failure. */
    method SendPending(s: SendResult) returns (outcome: int)
      requires Valid() && wb.CanRead()
      modifies this`h, wb, wb.data
      ensures Valid()
      ensures var n := SentCount(s, |old(wb.contents)|);
              && outcome == (if n > 0 then 1 else if s.NotNow? then 0 else -1)
              && h == old(h).(sent := old(h.sent) + old(wb.contents)[..n]) && wb.contents == old(wb.contents)[n..]
      ensures V() == PassedToClient(old(V()), SentCount(s, |old(wb.contents)|), wb.read)
    {
      var n := SentCount(s, wb.write - wb.read);
      if n <= 0 {
        assert wb.contents[..0] == [] && wb.contents[0..] == wb.contents;
        return if s.NotNow? then 0 else -1;
      }
      h := h.(sent := h.sent + wb.contents[..n]);
      wb.ReadAdv(n);
      outcome := 1;
    }

    /** negotiation_write. */
    method NegotiationWrite(s: SendResult) returns (next: StateId)
      requires Valid() && InNegWrite(V())
      modifies this`clientRow, this`h, wb, wb.data
      ensures Valid() && (next.NegWrite? || next.AuthRead? || next.ReqRead? || next.Failed?)
      ensures ReplySent(old(V()), V(), s, NegWrite,
                        if chosen == METHOD_NONE then Failed else if chosen == METHOD_USERPASS then AuthRead else ReqRead, next)
      ensures next.NegWrite? ==> InNegWrite(V())
      ensures next.AuthRead? ==> EnterAuthRead(V())
      ensures next.ReqRead? ==> EnterReqRead(V())
      ensures next.Failed? ==> Base(V())
    {
      hide InNegWrite, EnterAuthRead, EnterReqRead, Base, Buffer.Valid, ReplySent, PassedToClient, SentCount;
      ghost var v := V();
      NegWriting(v, SentCount(s, |v.wb|));
      var outcome := SendPending(s);
      assert NegSent(v, SentCount(s, |v.wb|), wb.read);
      SentReply(v, s, wb.read, NegWrite, if chosen == METHOD_NONE then Failed else if chosen == METHOD_USERPASS then AuthRead else ReqRead);
      if outcome != 1 {
        return if outcome == 0 then NegWrite else Failed;
      }
      if wb.CanRead() {
        return NegWrite;
      }
      if chosen == METHOD_NONE {
        return Failed;
      }
      clientRow := Some(OP_READ);
      return if chosen == METHOD_USERPASS then AuthRead else ReqRead;
    }

    // --------------------------------------------------------------------- authentication phase

    /** auth_read, after the status has been queued. */
    method StatusChosen(ghost v: View, ghost store: seq<Entry<byte>>)
      requires InAuthRead(v) && ParseNeg(NEG_START, h.received).0 == v.neg
      requires (auth, rb.contents) == ParseAuth(AUTH_START, AfterNeg(h.received)) && auth.state.Done? && |rb.contents| <= v.rbCap
      requires authStatus == AuthStatus(store, auth)
      requires V() == AuthFed(v, auth, h.received, rb.contents, rb.read).(authStatus := authStatus, wb := AuthReply(authStatus), wbStart := wb.read)
      modifies this`clientRow, this`h
      ensures InAuthWrite(V()) && h.received == old(h.received) && h.sent == old(h.sent) && h.grant == StatusGrant(authStatus, store, auth)
    {
      hide ParseNeg, ParseAuth, AfterNeg, AuthStatus, InAuthRead, InAuthWrite, AuthReply, StatusGrant, Buffer.Valid;
      StatusQueuedOk(v, auth, h.received, rb.contents, rb.read, wb.read, authStatus, store);
      h := h.(stage := 2, grant := StatusGrant(authStatus, store, auth));
      clientRow := Some(OP_WRITE);
    }

    /** auth_read, once the parser is done: the credentials are checked and the status queued. */
    method QueueStatus(ghost v: View, world: World)
      requires Valid() && InAuthRead(v) && ParseNeg(NEG_START, h.received).0 == v.neg
      requires (auth, rb.contents) == ParseAuth(AUTH_START, AfterNeg(h.received)) && auth.state.Done?
      requires V() == AuthFed(v, auth, h.received, rb.contents, rb.read)
      modifies this`authStatus, this`clientRow, this`h, wb, wb.data
      ensures Valid() && InAuthWrite(V()) && authStatus == AuthStatus(world.store, auth) && h.received == old(h.received) && h.sent == old(h.sent)
      ensures h.grant == StatusGrant(authStatus, world.store, auth)
    {
      hide ParseNeg, ParseAuth, AfterNeg, AuthStatus, InAuthRead, InAuthWrite, AuthReply, Buffer.Valid;
      AuthRoom(v);
      authStatus := AuthStatus(world.store, auth);
      FillAuthReply(wb, authStatus);
      StatusChosen(v, world.store);
    }

    /** auth_read. */
    method AuthenticationRead(r: RecvResult<byte>, world: World) returns (next: StateId)
      requires Valid() && InAuthRead(V())
      modifies this`auth, this`authStatus, this`clientRow, this`h, rb, rb.data, wb, wb.data
      ensures Valid() && (next.AuthRead? || next.AuthWrite? || next.Failed?)
      ensures AuthReadDone(old(V()), V(), r, world, next)
      ensures next.AuthRead? ==> InAuthRead(V()) && rb.contents == []
      ensures next.AuthWrite? ==> InAuthWrite(V())
      ensures next.Failed? ==> Base(V())
    {
      hide ParseNeg, ParseAuth, AfterNeg, NegOver, InAuthRead, InAuthWrite, Base, Buffer.Valid;
      ghost var v := V();
      AuthRoom(v);
      var ok := FeedAuthentication(r);
      AuthFedOk(v, auth, h.received, rb.contents, rb.read);
      assert V() == AuthFed(v, auth, h.received, rb.contents, rb.read);
      if !ok || auth.state.Error? {
        return Failed;
      }
      if !auth.state.Done? {
        return AuthRead;
      }
      AcceptsKept(world.store, auth);
      QueueStatus(v, world);
      return AuthWrite;
    }

    /** auth_write. */
    method AuthenticationWrite(s: SendResult) returns (next: StateId)
      requires Valid() && InAuthWrite(V())
      modifies this`clientRow, this`h, wb, wb.data
      ensures Valid() && (next.AuthWrite? || next.ReqRead? || next.Failed?)
      ensures ReplySent(old(V()), V(), s, AuthWrite, if authStatus == AUTH_OK then ReqRead else Failed, next)
      ensures next.AuthWrite? ==> InAuthWrite(V())
      ensures next.ReqRead? ==> EnterReqRead(V())
      ensures next.Failed? ==> Base(V())
    {
      hide InAuthWrite, EnterReqRead, Base, Buffer.Valid, ReplySent, PassedToClient, SentCount;
      ghost var v := V();
      AuthWriting(v);
      var outcome := SendPending(s);
      AuthFlushedOk(v, SentCount(s, |v.wb|), wb.read);
      SentReply(v, s, wb.read, AuthWrite, if authStatus == AUTH_OK then ReqRead else Failed);
      if outcome != 1 {
        return if outcome == 0 then AuthWrite else Failed;
      }
      if wb.CanRead() {
        return AuthWrite;
      }
      if authStatus != AUTH_OK {
        return Failed;
      }
      clientRow := Some(OP_READ);
      return ReqRead;
    }

    // ---------------------------------------------------------------------------- request phase

    /** request_fail, after the error reply has been queued: the origin, if any, is dropped. */
    method AnswerFailure(ghost v: View, ghost rep: byte)
      requires Unanswered(v) && Suits(v.request, rep)
      requires V() == v.(connected := false, wb := FailReply(rep), wbStart := wb.read)
      modifies this`originRow, this`clientRow, this`h
      ensures InReqWrite(V()) && Refused(V(), rep) && originRow.None?
      ensures h == old(h).(stage := 3, reply := h.reply)
    {
      hide Unanswered, InReqWrite, FailReply, Suits, Buffer.Valid;
      FailedOk(v, wb.read, rep);
      h := h.(stage := 3, reply := FailReply(rep));
      originRow, clientRow := None, Some(OP_WRITE);
      assert V() == Replied(v.(wbStart := wb.read), FailReply(rep), false, None);
    }

    /** request_fail: the one error reply is queued. */
    method RequestFail(rep: byte) returns (next: StateId)
      requires Valid() && Unanswered(V()) && Suits(request, rep)
      modifies this`connected, this`originRow, this`clientRow, this`h, wb, wb.data
      ensures Valid() && next.ReqWrite? && InReqWrite(V()) && Refused(V(), rep) && originRow.None?
      ensures h == old(h).(stage := 3, reply := h.reply)
    {
      hide Unanswered, InReqWrite, FailReply, Buffer.Valid;
      ghost var v := V();
      UnansweredRoom(v);
      connected := false;
      FailReplyShape(rep);
      FillRequestReply(wb, rep, ATYP_IPV4);
      AnswerFailure(v, rep);
      return ReqWrite;
    }

    /** The success reply has been written; the origin is parked until the client has it. */
    method AnswerSuccess(ghost v: View, local: SockAddr)
      requires Valid() && Unanswered(v) && IsConnect(v.request) && ValidAddr(local) && !local.OtherFamily?
      requires V() == v.(connected := true, wb := AddrReply(REP_SUCCESS, local), wbStart := wb.read)
      modifies this`originRow, this`clientRow, this`h
      ensures InReqWrite(V()) && Announced(V(), Some(local))
      ensures h == old(h).(stage := 3, reply := h.reply)
    {
      hide Unanswered, InReqWrite, AddrReply, Buffer.Valid;
      ghost var reply := AddrReply(REP_SUCCESS, local);
      SucceededOk(v, wb.read, local);
      h := h.(stage := 3, reply := reply);
      originRow := Some(OP_NOOP);
      clientRow := Some(OP_WRITE);
      assert V() == Replied(v.(wbStart := wb.read), reply, true, Some(OP_NOOP));
    }

    /** request_connect_success, up to the reply: false for an address family it cannot write. */
    method WriteSuccess(local: SockAddr) returns (ok: bool)
      requires Valid() && wb.contents == [] && wb.data.Length >= MIN_BUFFER && ValidAddr(local)
      modifies this`connected, wb, wb.data
      ensures Valid() && ok == !local.OtherFamily?
      ensures V() == old(V()).(connected := true, wb := if ok then AddrReply(REP_SUCCESS, local) else [], wbStart := wb.read)
    {
      hide AddrReply, Buffer.Valid;
      connected := true;
      if !local.OtherFamily? {
        AddrReplyShape(local);
      }
      ok := FillRequestReplyAddr(wb, REP_SUCCESS, local);
    }

    /** request_connect_success: the origin is registered and connected. */
    method RequestConnectSuccess(local: Option<SockAddr>) returns (next: StateId)
      requires Valid() && Unanswered(V()) && IsConnect(request) && originRow.Some?
      requires local.Some? ==> ValidAddr(local.value)
      modifies this`connected, this`originRow, this`clientRow, this`h, wb, wb.data
      ensures Valid() && next.ReqWrite? && InReqWrite(V()) && Announced(V(), local)
      ensures h == old(h).(stage := 3, reply := h.reply)
    {
      hide Unanswered, InReqWrite, AddrReply, FailReply, Refused, Buffer.Valid;
      ghost var v := V();
      UnansweredRoom(v);
      if local.None? {
        next := RequestFail(REP_GENERAL_FAILURE);
        return;
      }
      var ok := WriteSuccess(local.value);
      if !ok {
        UnansweredAny(v, V());
        next := RequestFail(REP_GENERAL_FAILURE);
        return;
      }
      AnswerSuccess(v, local.value);
      return ReqWrite;
    }

    /** connect(2) is called: only ever with a grant. */
    method CountAttempt()
      requires Valid() && Unanswered(V()) && IsConnect(request)
      modifies this`h
      ensures Unanswered(V()) && h == old(h).(attempts := old(h.attempts) + 1)
    {
      hide Unanswered, Buffer.Valid;
      UnansweredAttempt(V());
      h := h.(attempts := h.attempts + 1);
    }

    /** selector_register of the new socket. */
    method RegisterOrigin(interest: Interest)
      requires Valid() && Unanswered(V())
      modifies this`originRow
      ensures Unanswered(V()) && originRow == Some(interest)
    {
      hide Unanswered, Buffer.Valid;
      UnansweredOrigin(V(), interest);
      originRow := Some(interest);
    }

    /** The client waits, without interest, while the connect is under way. */
    method ParkClient()
      requires Valid() && Unanswered(V()) && IsConnect(request) && originRow == Some(OP_WRITE)
      modifies this`clientRow
      ensures InReqConnecting(V())
    {
      hide Unanswered, InReqConnecting, Buffer.Valid;
      UnansweredOrigin(V(), OP_WRITE);
      clientRow := Some(OP_NOOP);
    }

    /** One turn of the loop of request_connect; `done` when it returns. */
    method TryCandidate(result: ConnectResult) returns (done: bool, next: StateId)
      requires Valid() && Unanswered(V()) && IsConnect(request) && originRow.None? && ValidConnect(result)
      modifies this`lastRep, this`connected, this`originRow, this`clientRow, this`h, wb, wb.data
      ensures Valid()
      ensures done <==> !result.Unusable?
      ensures !done ==> lastRep == result.rep && h == old(h).(attempts := old(h.attempts) + 1)
      ensures done ==> Tried(next, V(), result) && h.attempts == old(h.attempts) + 1
      ensures !done ==> Unanswered(V()) && originRow.None?
      ensures done ==> next.ReqWrite? || next.ReqConnecting?
      ensures done && next.ReqWrite? ==> InReqWrite(V())
      ensures done && next.ReqConnecting? ==> InReqConnecting(V())
      ensures h.grant == old(h.grant) && h.received == old(h.received) && h.sent == old(h.sent)
    {
      hide Unanswered, InReqWrite, InReqConnecting, Buffer.Valid, Refused, Announced;
      done, next := true, ReqWrite;
      CountAttempt();
      match result {
        case Unusable(rep) =>
          lastRep := rep;
          done := false;
        case Connected(registered, local) =>
          if registered {
            RegisterOrigin(OP_NOOP);
            next := RequestConnectSuccess(local);
          } else {
            next := RequestFail(REP_GENERAL_FAILURE);
          }
        case InProgress(registered) =>
          if registered {
            RegisterOrigin(OP_WRITE);
            ParkClient();
            next := ReqConnecting;
          } else {
            next := RequestFail(REP_GENERAL_FAILURE);
          }
      }
    }

    /** request_connect: the candidates are tried in order until one connects or is under way. */
    method RequestConnect(connects: seq<ConnectResult>) returns (next: StateId)
      requires Valid() && Unanswered(V()) && IsConnect(request) && originRow.None?
      requires forall i :: 0 <= i < |connects| ==> ValidConnect(connects[i])
      modifies this`candidates, this`lastRep, this`connected, this`originRow, this`clientRow, this`h, wb, wb.data
      ensures Valid() && (next.ReqWrite? || next.ReqConnecting?)
      ensures ConnectEnded(next, V(), connects, old(candidates), old(lastRep))
      ensures var k := FirstUsable(connects, 0, old(candidates));
              if k == old(candidates) then candidates == 0 && h.attempts == old(h.attempts) + k
              else candidates == old(candidates) - k - 1 && h.attempts == old(h.attempts) + k + 1
      ensures next.ReqWrite? ==> InReqWrite(V())
      ensures next.ReqConnecting? ==> InReqConnecting(V())
      ensures h.grant == old(h.grant) && h.received == old(h.received) && h.sent == old(h.sent)
    {
      hide Unanswered, InReqWrite, InReqConnecting, Buffer.Valid, Refused, Tried, Candidate;
      var k := 0;
      while candidates > 0
        invariant Valid() && Unanswered(V()) && originRow.None? && 0 <= k && candidates == old(candidates) - k
        invariant FirstUsable(connects, 0, old(candidates)) == FirstUsable(connects, k, old(candidates))
        invariant h.grant == old(h.grant) && h.received == old(h.received) && h.sent == old(h.sent)
        invariant lastRep == LastRep(connects, k, old(lastRep)) && h.attempts == old(h.attempts) + k
        decreases candidates
      {
        UnansweredLeft(V(), candidates - 1);
        candidates := candidates - 1;
        var done;
        CandidateValid(connects, k);
        done, next := TryCandidate(Candidate(connects, k));
        if done {
          return;
        }
        k := k + 1;
      }
      next := RequestFail(lastRep);
    }

    /** The rest of request_read, once the parser has stopped. */
    method ProcessRequest(world: World) returns (next: StateId)
      requires Valid() && Unanswered(V()) && ReqFinal(request) && originRow.None? && ValidWorld(world)
      modifies this`candidates, this`lastRep, this`connected, this`originRow, this`clientRow, this`h, wb, wb.data
      ensures Valid() && (next.ReqResolve? || next.ReqConnecting? || next.ReqWrite?)
      ensures Processed(next, V(), request, world)
      ensures next.ReqResolve? ==> InReqResolve(V())
      ensures next.ReqConnecting? ==> InReqConnecting(V())
      ensures next.ReqWrite? ==> InReqWrite(V())
      ensures h.grant == old(h.grant) && h.received == old(h.received) && h.sent == old(h.sent)
    {
      hide Unanswered, InReqWrite, InReqConnecting, Buffer.Valid, Refused, ConnectEnded, FirstUsable;
      if request.state.Error? {
        next := RequestFail(REP_GENERAL_FAILURE);
        return;
      }
      if request.cmd != CMD_CONNECT {
        next := RequestFail(REP_CMD_NOT_SUPPORTED);
        return;
      }
      if request.atyp == ATYP_IPV4 || request.atyp == ATYP_IPV6 {
        UnansweredLeft(V(), 1);
        candidates := 1;
        next := RequestConnect(world.connects);
        OneCandidate(next, V(), world.connects, old(lastRep));
        return;
      }
      UnansweredPark(V());
      clientRow := Some(OP_NOOP);
      if !world.queued {
        next := RequestFail(REP_GENERAL_FAILURE);
        return;
      }
      return ReqResolve;
    }

    /** request_read. */
    method RequestRead(r: RecvResult<byte>, world: World) returns (next: StateId)
      requires Valid() && InReqRead(V()) && ValidWorld(world)
      modifies this`request, this`candidates, this`lastRep, this`connected, this`originRow, this`clientRow, this`h,
               rb, rb.data, wb, wb.data
      ensures Valid() && (next.ReqRead? || next.ReqResolve? || next.ReqConnecting? || next.ReqWrite? || next.Failed?)
      ensures RequestReadDone(old(V()), V(), r, world, next)
      ensures next.ReqRead? ==> InReqRead(V()) && rb.contents == []
      ensures next.ReqResolve? ==> InReqResolve(V())
      ensures next.ReqConnecting? ==> InReqConnecting(V())
      ensures next.ReqWrite? ==> InReqWrite(V())
      ensures next.Failed? ==> Base(V())
    {
      hide ParseReq, AuthOver, ReqOver, AfterAuth, Authorised, Answers, Obeyed, Faults, InReqWrite, InReqResolve, InReqConnecting, Buffer.Valid, Processed;
      ghost var before := h.received;
      ghost var more := if ReqFinal(ParseReq(request, rb.contents).0) then [] else Taken(r, rb.data.Length);
      var ok := FeedRequest(r);
      AuthorisedGrows(chosen, authStatus, h.grant, before, more);
      FaultsGrow(neg, auth, before, more);
      ObeyedGrows(chosen, before, more, h.attempts, h.relayed, h.stage, h.reply);
      if !ok {
        return Failed;
      }
      if !ReqFinal(request) {
        ParseReqUnfold(request, []);
        return ReqRead;
      }
      assert Unanswered(V());
      next := ProcessRequest(world);
    }

    /** request_resolve_done. */
    method RequestResolveDone(resolution: Resolution, world: World) returns (next: StateId)
      requires Valid() && InReqResolve(V()) && ValidWorld(world)
      modifies this`candidates, this`lastRep, this`connected, this`originRow, this`clientRow, this`h, wb, wb.data
      ensures Valid() && (next.ReqResolve? || next.ReqConnecting? || next.ReqWrite?)
      ensures ResolveDone(old(V()), V(), resolution, world, old(lastRep), next)
      ensures next.ReqResolve? ==> InReqResolve(V())
      ensures next.ReqConnecting? ==> InReqConnecting(V())
      ensures next.ReqWrite? ==> InReqWrite(V())
      ensures h.grant == old(h.grant)
    {
      hide Unanswered, InReqWrite, InReqConnecting, Buffer.Valid, Refused, ConnectEnded, FirstUsable;
      match resolution {
        case Pending =>
          return ReqResolve;
        case NoAddress =>
          next := RequestFail(REP_GENERAL_FAILURE);
        case Addresses(count) =>
          UnansweredLeft(V(), count);
          candidates := count;
          next := RequestConnect(world.connects);
      }
    }

    /** request_connecting: the origin's connect has completed, one way or the other. */
    method RequestConnecting(soError: Option<byte>, local: Option<SockAddr>, world: World) returns (next: StateId)
      requires Valid() && InReqConnecting(V()) && ValidWorld(world) && (local.Some? ==> ValidAddr(local.value))
      modifies this`candidates, this`lastRep, this`connected, this`originRow, this`clientRow, this`h, wb, wb.data
      ensures Valid() && (next.ReqConnecting? || next.ReqWrite?)
      ensures ConnectingDone(old(V()), V(), soError, local, world, next)
      ensures next.ReqConnecting? ==> InReqConnecting(V())
      ensures next.ReqWrite? ==> InReqWrite(V())
      ensures h.grant == old(h.grant)
    {
      hide Unanswered, InReqWrite, Buffer.Valid, Announced, ConnectEnded, FirstUsable;
      if soError.None? {
        next := RequestConnectSuccess(local);
        return;
      }
      ghost var v := V();
      UnansweredDrop(v);
      lastRep := soError.value;
      originRow := None;
      assert V() == v.(originRow := None);
      next := RequestConnect(world.connects);
    }

    /** request_write. */
    method RequestWrite(s: SendResult) returns (next: StateId)
      requires Valid() && InReqWrite(V())
      modifies this`h, wb, wb.data
      ensures Valid() && (next.ReqWrite? || next.Finished? || next.Relaying? || next.Failed?)
      ensures ReplySent(old(V()), V(), s, ReqWrite, if connected then Relaying else Finished, next)
      ensures next.ReqWrite? ==> InReqWrite(V())
      ensures next.Finished? ==> Delivered(V())
      ensures next.Relaying? ==> EnterRelay(V())
      ensures next.Failed? ==> Base(V())
    {
      hide InReqWrite, EnterRelay, Delivered, Base, Buffer.Valid, ReplySent, PassedToClient, SentCount;
      ghost var v := V();
      ReqWriting(v);
      var outcome := SendPending(s);
      ReqFlushedOk(v, SentCount(s, |v.wb|), wb.read);
      SentReply(v, s, wb.read, ReqWrite, if connected then Relaying else Finished);
      if outcome != 1 {
        return if outcome == 0 then ReqWrite else Failed;
      }
      if wb.CanRead() {
        return ReqWrite;
      }
      if !connected {
        return Finished;
      }
      return Relaying;
    }

    // ------------------------------------------------------------------------------------ relay

    /** relay_update, first half: compact, and pass an end of stream on once the buffer has drained. */
    method PropagateShutdown()
      requires Valid() && InRelayCore(V())
      modifies this`originWrShut, this`clientWrShut, this`h, rb, rb.data, wb, wb.data
      ensures Valid() && InRelayCore(V()) && rb.read == 0 && wb.read == 0
      ensures rb.contents == old(rb.contents) && wb.contents == old(wb.contents)
      ensures originWrShut <==> clientClosed && rb.contents == []
      ensures clientWrShut <==> originClosed && wb.contents == []
      ensures h == old(h).(originShuts := h.originShuts, clientShuts := h.clientShuts)
    {
      hide ReqOver, Payload, SuccessReply, Authorised, Answers, Obeyed, Faults, Replies;
      rb.Compact();
      wb.Compact();
      if clientClosed && !rb.CanRead() && !originWrShut {
        h := h.(originShuts := h.originShuts + 1);
        originWrShut := true;
      }
      if originClosed && !wb.CanRead() && !clientWrShut {
        h := h.(clientShuts := h.clientShuts + 1);
        clientWrShut := true;
      }
      RepliesSame(old(V()), V());
    }

    /** relay_update, the client's interest. On entry to the relay the client's row is not yet the cached
    interest; it is brought up to date because the read buffer cannot be full at that point. */
    method UpdateClientInterest()
      requires Valid() && InRelayCore(V()) && rb.read == 0
      requires clientRow == Some(clientInterest) ||
               (clientInterest == OP_NOOP && !clientClosed && |rb.contents| < rb.data.Length)
      modifies this`clientRow, this`clientInterest
      ensures InRelayCore(V()) && clientRow == Some(clientInterest) && clientInterest == WantClient(V())
    {
      hide InRelayCore, Buffer.Valid;
      ghost var v := V();
      var ci := Interest(!clientClosed && rb.CanWrite(), wb.CanRead() && !clientWrShut);
      if ci != clientInterest {
        clientRow := Some(ci);
        clientInterest := ci;
      }
      CoreRows(v, V());
    }

    /** relay_update, the origin's interest. */
    method UpdateOriginInterest()
      requires Valid() && InRelayCore(V()) && wb.read == 0 && originRow == Some(originInterest)
      modifies this`originRow, this`originInterest
      ensures InRelayCore(V()) && originRow == Some(originInterest) && originInterest == WantOrigin(V())
    {
      hide InRelayCore, Buffer.Valid;
      ghost var v := V();
      var oi := Interest(!originClosed && wb.CanWrite(), rb.CanRead() && !originWrShut);
      if oi != originInterest {
        originRow := Some(oi);
        originInterest := oi;
      }
      CoreRows(v, V());
    }

    /** relay_update. */
    method RelayUpdate() returns (next: StateId)
      requires Valid() && InRelayCore(V()) && originRow == Some(originInterest)
      requires clientRow == Some(clientInterest) ||
               (clientInterest == OP_NOOP && !clientClosed && |rb.contents| < rb.data.Length)
      modifies this`originWrShut, this`clientWrShut, this`clientRow, this`originRow, this`clientInterest, this`originInterest,
               this`h, rb, rb.data, wb, wb.data
      ensures Valid() && rb.contents == old(rb.contents) && wb.contents == old(wb.contents)
      ensures next == RelayNext(V())
      ensures h == old(h).(originShuts := h.originShuts, clientShuts := h.clientShuts)
      ensures next.Relaying? ==> InRelay(V())
      ensures next.Finished? ==> Delivered(V()) && clientClosed && originClosed
    {
      hide InRelayCore, Delivered, Buffer.Valid;
      PropagateShutdown();
      if clientWrShut && originWrShut {
        RelayDelivered(V());
        return Finished;
      }
      UpdateClientInterest();
      UpdateOriginInterest();
      return Relaying;
    }

    /** The flags relay_init clears. */
    method StartRelay()
      requires Valid() && EnterRelay(V())
      modifies this`clientClosed, this`originClosed, this`originWrShut, this`clientWrShut, this`h
      ensures InRelayCore(V()) && !clientClosed && !originClosed
      ensures |rb.contents| < rb.data.Length && clientInterest == OP_NOOP && originRow == Some(originInterest)
      ensures h == old(h).(relayed := true)
    {
      hide InRelayCore, EnterRelay, Buffer.Valid;
      ghost var v := V();
      RelayEntered(v);
      clientClosed, originClosed, clientWrShut, originWrShut := false, false, false, false;
      h := h.(relayed := true);
      assert V() == v.(clientClosed := false, originClosed := false, clientWrShut := false, originWrShut := false, h := h);
    }

    /** relay_init. */
    method RelayInit()
      requires Valid() && EnterRelay(V()) && !arrivalError
      modifies this`clientClosed, this`originClosed, this`originWrShut, this`clientWrShut, this`clientRow, this`originRow,
               this`clientInterest, this`originInterest, this`arrivalError, this`h, rb, rb.data, wb, wb.data
      ensures Valid() && InRelay(V()) && !arrivalError
      ensures h == old(h).(relayed := true, originShuts := h.originShuts, clientShuts := h.clientShuts)
      ensures rb.contents == old(rb.contents) && wb.contents == old(wb.contents)
    {
      hide InRelayCore, EnterRelay, Buffer.Valid;
      StartRelay();
      var next := RelayUpdate();
      arrivalError := arrivalError || next.Failed?;
    }

    /** One send(2) of relay_flush to the client: 1 progress, 0 stop for now, -1 failure. */
    method SendToClient(s: SendResult) returns (outcome: int)
      requires Valid() && InRelayCore(V()) && wb.CanRead()
      modifies this`h, wb, wb.data
      ensures Valid() && InRelayCore(V())
      ensures var n := SentCount(s, |old(wb.contents)|);
              && outcome == (if n > 0 then 1 else if s.SendFailed? then -1 else 0)
              && h == old(h).(sent := old(h.sent) + old(wb.contents)[..n]) && wb.contents == old(wb.contents)[n..]
    {
      hide InRelayCore, Buffer.Valid;
      ghost var v := V();
      var n := SentCount(s, wb.write - wb.read);
      if n == 0 {
        assert wb.contents[..0] == [] && wb.contents[0..] == wb.contents;
        return if s.SendFailed? then -1 else 0;
      }
      h := h.(sent := h.sent + wb.contents[..n]);
      wb.ReadAdv(n);
      CoreSentClient(v, n, wb.read);
      assert V() == v.(wb := v.wb[n..], wbStart := wb.read, h := v.h.(sent := v.h.sent + v.wb[..n]));
      outcome := 1;
    }

    /** One send(2) of relay_flush to the origin. */
    method SendToOrigin(s: SendResult) returns (outcome: int)
      requires Valid() && InRelayCore(V()) && rb.CanRead()
      modifies this`h, rb, rb.data
      ensures Valid() && InRelayCore(V())
      ensures var n := SentCount(s, |old(rb.contents)|);
              && outcome == (if n > 0 then 1 else if s.SendFailed? then -1 else 0)
              && h == old(h).(toOrigin := old(h.toOrigin) + old(rb.contents)[..n]) && rb.contents == old(rb.contents)[n..]
    {
      hide InRelayCore, Buffer.Valid;
      ghost var v := V();
      var n := SentCount(s, rb.write - rb.read);
      if n == 0 {
        assert rb.contents[..0] == [] && rb.contents[0..] == rb.contents;
        return if s.SendFailed? then -1 else 0;
      }
      h := h.(toOrigin := h.toOrigin + rb.contents[..n]);
      rb.ReadAdv(n);
      CoreSentOrigin(v, n, rb.read);
      assert V() == v.(rb := v.rb[n..], rbStart := rb.read, h := v.h.(toOrigin := v.h.toOrigin + v.rb[..n]));
      outcome := 1;
    }

    /** relay_flush towards the client: send until the buffer is empty, the socket is full or fails. */
    method FlushToClient(sends: seq<SendResult>) returns (ok: bool)
      requires Valid() && InRelayCore(V())
      modifies this`h, wb, wb.data
      ensures Valid() && InRelayCore(V())
      ensures var (n, clean) := FlushCount(|old(wb.contents)|, sends);
              && ok == clean && wb.contents == old(wb.contents)[n..]
              && h == old(h).(sent := old(h.sent) + old(wb.contents)[..n])
      ensures V() == PassedToClient(old(V()), FlushCount(|old(wb.contents)|, sends).0, wb.read)
    {
      hide InRelayCore, Buffer.Valid, SentCount, FlushCount, Flushing;
      ghost var n: nat := 0;
      var k: nat := 0;
      FlushStart(wb.contents, h.sent, sends);
      while wb.CanRead()
        invariant Valid() && InRelayCore(V())
        invariant Flushing(old(wb.contents), old(h.sent), sends, n, k, wb.contents, h.sent) && h == old(h).(sent := h.sent)
        decreases |wb.contents|
      {
        var s := if k < |sends| then sends[k] else NotNow;
        FlushStep(old(wb.contents), old(h.sent), sends, n, k, wb.contents, h.sent);
        n := n + SentCount(s, |wb.contents|);
        var outcome := SendToClient(s);
        k := k + 1;
        if outcome != 1 {
          return outcome == 0;
        }
      }
      FlushEnd(old(wb.contents), old(h.sent), sends, n, k, wb.contents, h.sent);
      ok := true;
    }

    /** relay_flush towards the origin. */
    method FlushToOrigin(sends: seq<SendResult>) returns (ok: bool)
      requires Valid() && InRelayCore(V())
      modifies this`h, rb, rb.data
      ensures Valid() && InRelayCore(V())
      ensures var (n, clean) := FlushCount(|old(rb.contents)|, sends);
              && ok == clean && rb.contents == old(rb.contents)[n..]
              && h == old(h).(toOrigin := old(h.toOrigin) + old(rb.contents)[..n])
      ensures V() == PassedToOrigin(old(V()), FlushCount(|old(rb.contents)|, sends).0, rb.read)
    {
      hide InRelayCore, Buffer.Valid, SentCount, FlushCount, Flushing;
      ghost var n: nat := 0;
      var k: nat := 0;
      FlushStart(rb.contents, h.toOrigin, sends);
      while rb.CanRead()
        invariant Valid() && InRelayCore(V())
        invariant Flushing(old(rb.contents), old(h.toOrigin), sends, n, k, rb.contents, h.toOrigin) && h == old(h).(toOrigin := h.toOrigin)
        decreases |rb.contents|
      {
        var s := if k < |sends| then sends[k] else NotNow;
        FlushStep(old(rb.contents), old(h.toOrigin), sends, n, k, rb.contents, h.toOrigin);
        n := n + SentCount(s, |rb.contents|);
        var outcome := SendToOrigin(s);
        k := k + 1;
        if outcome != 1 {
          return outcome == 0;
        }
      }
      FlushEnd(old(rb.contents), old(h.toOrigin), sends, n, k, rb.contents, h.toOrigin);
      ok := true;
    }

    /** relay_flush. */
    method RelayFlush(toClient: bool, sends: seq<SendResult>) returns (ok: bool)
      requires Valid() && InRelayCore(V())
      modifies this`h, rb, rb.data, wb, wb.data
      ensures Valid() && InRelayCore(V())
      ensures toClient ==> ok == FlushCount(|old(wb.contents)|, sends).1 && wb.contents == old(wb.contents)[FlushCount(|old(wb.contents)|, sends).0..]
      ensures toClient ==> rb.contents == old(rb.contents)
      ensures !toClient ==> ok == FlushCount(|old(rb.contents)|, sends).1 && rb.contents == old(rb.contents)[FlushCount(|old(rb.contents)|, sends).0..]
      ensures !toClient ==> wb.contents == old(wb.contents)
      ensures h == old(h).(sent := h.sent, toOrigin := h.toOrigin)
    {
      hide InRelayCore, Buffer.Valid, FlushCount;
      if toClient {
        ok := FlushToClient(sends);
      } else {
        ok := FlushToOrigin(sends);
      }
    }

    /** recv(2) in relay_read from the client, into a window that is never empty. */
    method ReceiveFromClient(offered: seq<byte>)
      requires Valid() && InRelay(V()) && clientInterest.read && offered != []
      modifies this`h, rb, rb.data
      ensures Valid() && InRelayCore(V())
      ensures V() == GotFromClient(old(V()), Taken(Offered(offered), rb.data.Length - |old(rb.contents)|))
    {
      hide InRelayCore, InRelay, Buffer.Valid;
      ghost var v := V();
      RelayWindow(v);
      var chunk := Taken(Offered(offered), rb.Room());
      rb.Fill(chunk);
      h := h.(received := h.received + chunk);
      CoreFromClient(v, chunk);
      assert V() == GotFromClient(v, chunk);
    }

    /** recv(2) in relay_read from the origin. */
    method ReceiveFromOrigin(offered: seq<byte>)
      requires Valid() && InRelay(V()) && originInterest.read && offered != []
      modifies this`h, wb, wb.data
      ensures Valid() && InRelayCore(V())
      ensures V() == GotFromOrigin(old(V()), Taken(Offered(offered), wb.data.Length - |old(wb.contents)|))
    {
      hide InRelayCore, InRelay, Buffer.Valid;
      ghost var v := V();
      RelayWindow(v);
      var chunk := Taken(Offered(offered), wb.Room());
      wb.Fill(chunk);
      h := h.(fromOrigin := h.fromOrigin + chunk);
      CoreFromOrigin(v, chunk);
      assert V() == GotFromOrigin(v, chunk);
    }

    /** relay_read, for octets that have arrived from the client: into the buffer, and on as far as they go. */
    method PassFromClient(bytes: seq<byte>, sends: seq<SendResult>) returns (ok: bool)
      requires Valid() && InRelay(V()) && clientInterest.read && bytes != []
      modifies this`h, rb, rb.data
      ensures Valid() && InRelayCore(V())
      ensures if ok then Passed(old(V()), V(), true, Offered(bytes), sends)
              else RelayReadDone(old(V()), V(), true, Offered(bytes), sends, Failed)
    {
      hide Buffer.Valid, FlushCount, Taken, InRelayCore, InRelay, RelayReadDone, Passed;
      ghost var v := V();
      RelaySizes(v);
      ReceiveFromClient(bytes);
      ok := FlushToOrigin(sends);
      ArrivedClient(v, V(), bytes, sends, ok, rb.read);
    }

    /** relay_read, for octets that have arrived from the origin: into the buffer, and on as far as they go. */
    method PassFromOrigin(bytes: seq<byte>, sends: seq<SendResult>) returns (ok: bool)
      requires Valid() && InRelay(V()) && originInterest.read && bytes != []
      modifies this`h, wb, wb.data
      ensures Valid() && InRelayCore(V())
      ensures if ok then Passed(old(V()), V(), false, Offered(bytes), sends)
              else RelayReadDone(old(V()), V(), false, Offered(bytes), sends, Failed)
    {
      hide Buffer.Valid, FlushCount, Taken, InRelayCore, InRelay, RelayReadDone, Passed;
      ghost var v := V();
      RelaySizes(v);
      ReceiveFromOrigin(bytes);
      ok := FlushToClient(sends);
      ArrivedOrigin(v, V(), bytes, sends, ok, wb.read);
    }

    /** relay_read, for octets that have arrived. */
    method RelayArrived(fromClient: bool, bytes: seq<byte>, sends: seq<SendResult>) returns (next: StateId)
      requires Valid() && InRelay(V()) && (if fromClient then clientInterest.read else originInterest.read) && bytes != []
      modifies this`originWrShut, this`clientWrShut, this`clientRow, this`originRow,
               this`clientInterest, this`originInterest, this`h, rb, rb.data, wb, wb.data
      ensures Valid() && (next.Relaying? || next.Finished? || next.Failed?)
      ensures RelayReadDone(old(V()), V(), fromClient, Offered(bytes), sends, next)
      ensures next.Relaying? ==> InRelay(V())
      ensures next.Finished? ==> Delivered(V())
      ensures next.Failed? ==> Base(V())
    {
      hide Base, Delivered, Buffer.Valid, InRelayCore, InRelay, RelayReadDone, RelayNext, Passed;
      ghost var v := V();
      RelayRows(v);
      var ok;
      if fromClient {
        ok := PassFromClient(bytes, sends);
      } else {
        ok := PassFromOrigin(bytes, sends);
      }
      if !ok {
        CoreBase(V());
        return Failed;
      }
      ghost var u := V();
      next := RelayUpdate();
      ArrivedUpdated(v, u, V(), fromClient, Offered(bytes), sends, next);
    }

    /** The flag relay_read sets at the end of a stream. */
    method EndSide(fromClient: bool)
      requires Valid() && InRelay(V())
      modifies this`clientClosed, this`originClosed
      ensures InRelayCore(V()) && V() == EndedView(old(V()), fromClient)
    {
      hide InRelayCore, InRelay, Buffer.Valid;
      CoreClosed(V());
      if fromClient {
        clientClosed := true;
      } else {
        originClosed := true;
      }
    }

    /** relay_read, at the end of a stream. */
    method RelayEnded(fromClient: bool) returns (next: StateId)
      requires Valid() && InRelay(V())
      modifies this`clientClosed, this`originClosed, this`originWrShut, this`clientWrShut, this`clientRow, this`originRow,
               this`clientInterest, this`originInterest, this`h, rb, rb.data, wb, wb.data
      ensures Valid() && (next.Relaying? || next.Finished?)
      ensures RelayReadDone(old(V()), V(), fromClient, PeerClosed, [], next)
      ensures next.Relaying? ==> InRelay(V())
      ensures next.Finished? ==> Delivered(V())
    {
      hide Base, Delivered, Buffer.Valid, InRelayCore, InRelay, RelayReadDone, RelayNext;
      ghost var v := V();
      CoreClosed(v);
      RelaySizes(v);
      EndSide(fromClient);
      next := RelayUpdate();
      EndedUpdated(v, V(), fromClient, next);
    }

    /** relay_read. */
    method RelayRead(fromClient: bool, r: RecvResult<byte>, sends: seq<SendResult>) returns (next: StateId)
      requires Valid() && InRelay(V()) && (if fromClient then clientInterest.read else originInterest.read)
      modifies this`clientClosed, this`originClosed, this`originWrShut, this`clientWrShut, this`clientRow, this`originRow,
               this`clientInterest, this`originInterest, this`h, rb, rb.data, wb, wb.data
      ensures Valid() && (next.Relaying? || next.Finished? || next.Failed?)
      ensures RelayReadDone(old(V()), V(), fromClient, r, sends, next)
      ensures next.Relaying? ==> InRelay(V())
      ensures next.Finished? ==> Delivered(V())
      ensures next.Failed? ==> Base(V())
    {
      hide Base, Delivered, Buffer.Valid, RelayReadDone, InRelay;
      ghost var v := V();
      if r.Offered? && r.bytes != [] {
        next := RelayArrived(fromClient, r.bytes, sends);
        return;
      }
      if r.PeerClosed? {
        next := RelayEnded(fromClient);
        NoSends(v, V(), fromClient, r, sends, next);
        return;
      }
      RelayIdle(v, fromClient, r, sends);
      return if r.RecvFailed? then Failed else Relaying;
    }

    /** relay_write. */
    method RelayWrite(toClient: bool, sends: seq<SendResult>) returns (next: StateId)
      requires Valid() && InRelay(V())
      modifies this`originWrShut, this`clientWrShut, this`clientRow, this`originRow, this`clientInterest, this`originInterest,
               this`h, rb, rb.data, wb, wb.data
      ensures Valid() && (next.Relaying? || next.Finished? || next.Failed?)
      ensures RelayWriteDone(old(V()), V(), toClient, sends, next)
      ensures next.Relaying? ==> InRelay(V())
      ensures next.Finished? ==> Delivered(V())
      ensures next.Failed? ==> Base(V())
    {
      hide Base, Delivered, Buffer.Valid, FlushCount, InRelayCore, InRelay, RelayWriteDone, RelayNext;
      ghost var v := V();
      RelayRows(v);
      var ok := RelayFlush(toClient, sends);
      ghost var u := V();
      if !ok {
        CoreBase(u);
        Written(v, u, u, toClient, sends, ok, Failed);
        return Failed;
      }
      next := RelayUpdate();
      Written(v, u, V(), toClient, sends, ok, next);
    }

    // ------------------------------------------------------------------------ the engine (stm.c)

    /** handle_first. */
    method HandleFirst()
      requires Valid() && In(State(), V()) && (current.None? ==> neg == NEG_START)
      modifies this`current, this`neg
      ensures current == Some(old(State())) && V() == old(V())
    {
      if current.None? {
        current := Some(NegRead);
        neg := NEG_START;
      }
    }

    /** The arrival hooks: the parsers are reset, the relay sets itself up. */
    method Arrive(next: StateId)
      requires Valid() && Entering(next, V()) && !next.NegRead? && !arrivalError
      modifies this`auth, this`request, this`clientClosed, this`originClosed, this`originWrShut, this`clientWrShut, this`clientRow,
               this`originRow, this`clientInterest, this`originInterest, this`arrivalError, this`h, rb, rb.data, wb, wb.data
      ensures Valid() && In(next, V()) && !arrivalError
      ensures !Row(next).arrival ==> V() == old(V())
      ensures h == old(h).(relayed := h.relayed, originShuts := h.originShuts, clientShuts := h.clientShuts)
      ensures rb.contents == old(rb.contents) && wb.contents == old(wb.contents)
    {
      hide InNegRead, InNegWrite, InAuthRead, InAuthWrite, InReqRead, InReqResolve, InReqConnecting, InReqWrite, InRelay, Delivered, Base;
      hide EnterAuthRead, EnterReqRead, EnterRelay, Row, Buffer.Valid;
      Handlers(next);
      if next.AuthRead? {
        ArriveAuth(V());
        auth := AUTH_START;
      } else if next.ReqRead? {
        ArriveReq(V());
        request := REQ_START;
      } else if next.Relaying? {
        RelayInit();
      } else {
        EnteredAsIs(next, V());
      }
    }

    /** jump: nothing for the current state; otherwise the new state's arrival hook runs. No state has a
    departure hook, and no handler returns to NegRead from elsewhere. */
    method Jump(next: StateId)
      requires Valid() && current.Some? && !arrivalError && Left(State(), next, V())
      modifies this, rb, rb.data, wb, wb.data
      ensures Valid() && State() == next && current.Some? && In(next, V()) && !arrivalError
      ensures next == old(State()) || !Row(next).arrival ==> V() == old(V())
      ensures h == old(h).(relayed := h.relayed, originShuts := h.originShuts, clientShuts := h.clientShuts)
      ensures rb.contents == old(rb.contents) && wb.contents == old(wb.contents)
      ensures chosen == old(chosen) && authStatus == old(authStatus)
    {
      hide In, Entering, Row, Buffer.Valid;
      if current != Some(next) {
        current := Some(next);
        Arrive(next);
      }
    }

    /** The current state's on_read_ready. */
    method OnReadReady(fromClient: bool, r: RecvResult<byte>, world: World) returns (next: StateId)
      requires Valid() && In(State(), V()) && ValidWorld(world) && Row(State()).read
      requires State().Relaying? ==> if fromClient then clientInterest.read else originInterest.read
      modifies this`neg, this`auth, this`request, this`chosen, this`authStatus, this`candidates, this`lastRep, this`connected,
               this`clientClosed, this`originClosed, this`clientWrShut, this`originWrShut, this`clientRow, this`originRow,
               this`clientInterest, this`originInterest, this`h, rb, rb.data, wb, wb.data
      ensures Valid() && Left(State(), next, V()) && ReadDone(State(), old(V()), V(), fromClient, r, world, next)
      ensures (next == State() || !Row(next).arrival) && (IsReadState(next) ==> rb.contents == [])
    {
      hide InNegRead, InNegWrite, InAuthRead, InAuthWrite, InReqRead, InReqResolve, InReqConnecting, InReqWrite, InRelay, Delivered, Base;
      hide Buffer.Valid, Left, NegotiationReadDone, AuthReadDone, RequestReadDone, RelayReadDone, Row;
      Handlers(State());
      if State().NegRead? {
        next := NegotiationRead(r, world);
        LeftNegRead(next, V());
      } else if State().AuthRead? {
        next := AuthenticationRead(r, world);
        LeftAuthRead(next, V());
      } else if State().ReqRead? {
        next := RequestRead(r, world);
        LeftReqRead(next, V());
      } else {
        next := RelayRead(fromClient, r, world.sends);
        LeftRelay(next, V());
      }
      Handlers(next);
    }

    /** on_write_ready where a reply is being sent. */
    method OnReplyReady(s: SendResult) returns (next: StateId)
      requires Valid() && In(State(), V()) && (State().NegWrite? || State().AuthWrite? || State().ReqWrite?)
      modifies this`clientRow, this`h, wb, wb.data
      ensures Valid() && Left(State(), next, V())
      ensures PartSent(old(V()), V(), s, State(), ReplyNext(State(), old(V())), next)
    {
      hide InNegRead, InNegWrite, InAuthRead, InAuthWrite, InReqRead, InReqResolve, InReqConnecting, InReqWrite, InRelay, Delivered, Base;
      hide EnterAuthRead, EnterReqRead, EnterRelay, Buffer.Valid, Left, ReplySent, PartSent;
      ghost var v := V();
      if State().NegWrite? {
        next := NegotiationWrite(s);
        LeftNegWrite(next, V());
      } else if State().AuthWrite? {
        next := AuthenticationWrite(s);
        LeftAuthWrite(next, V());
      } else {
        next := RequestWrite(s);
        LeftReqWrite(next, V());
      }
      SentPart(v, V(), s, State(), ReplyNext(State(), v), next);
    }

    /** The current state's on_write_ready. */
    method OnWriteReady(toClient: bool, s: SendResult, soError: Option<byte>, local: Option<SockAddr>, world: World) returns (next: StateId)
      requires Valid() && In(State(), V()) && ValidWorld(world) && Row(State()).write
      requires local.Some? ==> ValidAddr(local.value)
      modifies this`neg, this`auth, this`request, this`chosen, this`authStatus, this`candidates, this`lastRep, this`connected,
               this`clientClosed, this`originClosed, this`clientWrShut, this`originWrShut, this`clientRow, this`originRow,
               this`clientInterest, this`originInterest, this`h, rb, rb.data, wb, wb.data
      ensures Valid() && Left(State(), next, V())
      ensures WriteDone(State(), old(V()), V(), toClient, s, soError, local, world, next)
      ensures State().ReqConnecting? || State().Relaying? ==> next == State() || !Row(next).arrival
    {
      hide InNegRead, InNegWrite, InAuthRead, InAuthWrite, InReqRead, InReqResolve, InReqConnecting, InReqWrite, InRelay, Delivered, Base;
      hide Buffer.Valid, Left, ReplySent, PartSent, ConnectingDone, RelayWriteDone, Row, ReplyNext;
      Handlers(State());
      if State().ReqConnecting? {
        next := RequestConnecting(soError, local, world);
        LeftConnecting(next, V());
      } else if State().Relaying? {
        next := RelayWrite(toClient, world.sends);
        LeftRelay(next, V());
      } else {
        next := OnReplyReady(s);
      }
      Handlers(next);
    }

    /** stm_handler_read. The engine aborts in a state without a read handler: a precondition here. */
    method StmRead(fromClient: bool, r: RecvResult<byte>, world: World) returns (next: StateId)
      requires Valid() && In(State(), V()) && !arrivalError && (current.None? ==> neg == NEG_START) && ValidWorld(world)
      requires Row(State()).read
      requires State().Relaying? ==> if fromClient then clientInterest.read else originInterest.read
      modifies this, rb, rb.data, wb, wb.data
      ensures Valid() && next == State() && current.Some? && In(next, V()) && !arrivalError
      ensures ReadDone(old(State()), old(V()), V(), fromClient, r, world, next)
      ensures IsReadState(next) ==> rb.contents == []
    {
      hide In, Left, Row, ReadDone, Buffer.Valid;
      HandleFirst();
      next := OnReadReady(fromClient, r, world);
      Jump(next);
    }

    /** stm_handler_write, for the event `toClient` or, during a connect, for the origin. */
    method StmWrite(toClient: bool, s: SendResult, soError: Option<byte>, local: Option<SockAddr>, world: World) returns (next: StateId)
      requires Valid() && In(State(), V()) && !arrivalError && (current.None? ==> neg == NEG_START) && ValidWorld(world)
      requires local.Some? ==> ValidAddr(local.value)
      requires Row(State()).write
      modifies this, rb, rb.data, wb, wb.data
      ensures Valid() && next == State() && current.Some? && In(next, V()) && !arrivalError
      ensures WriteDone(old(State()), old(V()), V(), toClient, s, soError, local, world, next)
    {
      hide In, Left, Row, WriteDone, Buffer.Valid;
      HandleFirst();
      ghost var v := V();
      next := OnWriteReady(toClient, s, soError, local, world);
      ghost var u := V();
      Jump(next);
      WriteKept(old(State()), v, u, V(), toClient, s, soError, local, world, next);
    }

    /** stm_handler_block. */
    method StmBlock(resolution: Resolution, world: World) returns (next: StateId)
      requires Valid() && In(State(), V()) && !arrivalError && (current.None? ==> neg == NEG_START) && ValidWorld(world)
      requires Row(State()).block
      modifies this, rb, rb.data, wb, wb.data
      ensures Valid() && next == State() && current.Some? && In(next, V()) && !arrivalError
      ensures next.ReqResolve? || next.ReqConnecting? || next.ReqWrite?
      ensures ResolveDone(old(V()), V(), resolution, world, old(lastRep), next)
    {
      hide InReqResolve, InReqConnecting, InReqWrite, Buffer.Valid, Left, ResolveDone, Row;
      Handlers(State());
      HandleFirst();
      next := RequestResolveDone(resolution, world);
      LeftResolve(next, V());
      Handlers(next);
      Jump(next);
    }

    // ------------------------------------------------------------- events (the selector's handlers)

    ghost function Snap(): (s: Snapshot)
      reads this, rb, wb
    {
      Snapshot(State(), V(), lastRep)
    }

    /** What holds between events. */
    ghost predicate AtRest()
      reads this, rb, rb.data, wb, wb.data
    {
      Valid() && (current.None? ==> neg == NEG_START) && Resting(Snap())
    }

    /** socks5_done: both descriptors are unregistered and closed. */
    method SocksDone()
      requires Valid() && In(State(), V()) && (current.None? ==> neg == NEG_START)
      modifies this`clientRow, this`originRow
      ensures AtRest() && clientRow.None? && State() == old(State()) && V() == Closed(old(V()))
    {
      hide InNegRead, InNegWrite, InAuthRead, InAuthWrite, InReqRead, InReqResolve, InReqConnecting, InReqWrite, InRelay, Delivered, Base, Buffer.Valid;
      ghost var v := V();
      ClosedOk(State(), v);
      clientRow, originRow := None, None;
      assert V() == v.(clientRow := None, originRow := None);
    }

    /** socks5_advance: re-run the read handler while it left bytes for the next phase; then close if the
    connection is over. One turn is enough: a read handler leaves its state or empties the buffer. */
    method Advance(st: StateId, recvs: seq<RecvResult<byte>>, world: World)
      requires Valid() && st == State() && current.Some? && In(st, V()) && !arrivalError && ValidWorld(world)
      modifies this, rb, rb.data, wb, wb.data
      ensures AtRest() && AdvanceDone(st, old(V()), First(recvs, NothingYet), world, State(), V())
    {
      hide In, Delivered, Base, Buffer.Valid, ReadDone;
      var next := st;
      var k := 0;
      while IsReadState(next) && rb.CanRead()
        invariant Valid() && next == State() && current.Some? && In(next, V()) && !arrivalError && 0 <= k
        invariant k == 0 ==> next == st && V() == old(V())
        invariant k > 0 ==> k == 1 && IsReadState(st) && old(V()).rb != [] && (IsReadState(next) ==> rb.contents == [])
                            && ReadDone(st, old(V()), V(), true, First(recvs, NothingYet), world, next) && Rested(next, V())
        decreases if IsReadState(next) && rb.CanRead() then 1 else 0
      {
        next := StmRead(true, if k < |recvs| then recvs[k] else NothingYet, world);
        k := k + 1;
      }
      ghost var m := V();
      if next == Failed || next == Finished || arrivalError {
        SocksDone();
      } else {
        LiveRow(next, V());
      }
      assert Settled(next, m, State(), V());
    }

    /** socks5_read on the client's descriptor. */
    method ClientReadable(recvs: seq<RecvResult<byte>>, world: World)
      requires AtRest() && ValidWorld(world)
      modifies this, rb, rb.data, wb, wb.data
      ensures AtRest() && if old(clientRow.Some? && clientRow.value.read) then ReadEvent(old(Snap()), true, recvs, world, Snap()) else Snap() == old(Snap())
    {
      hide In, Delivered, Base, Buffer.Valid, ReadDone, AdvanceDone;
      if clientRow.Some? && clientRow.value.read {
        InterestsAreHandled(State(), V());
        var next := StmRead(true, First(recvs, NothingYet), world);
        Advance(next, Rest(recvs), world);
      }
    }

    /** socks5_write on the client's descriptor. */
    method ClientWritable(recvs: seq<RecvResult<byte>>, world: World)
      requires AtRest() && ValidWorld(world)
      modifies this, rb, rb.data, wb, wb.data
      ensures AtRest() && if old(clientRow.Some? && clientRow.value.write) then WriteEvent(old(Snap()), true, First(world.sends, NotNow), None, None, recvs, world, Snap()) else Snap() == old(Snap())
    {
      hide In, Delivered, Base, Buffer.Valid, WriteDone, AdvanceDone;
      if clientRow.Some? && clientRow.value.write {
        InterestsAreHandled(State(), V());
        var next := StmWrite(true, First(world.sends, NotNow), None, None, world);
        Advance(next, recvs, world);
      }
    }

    /** socks5_read on the origin's descriptor. */
    method OriginReadable(recvs: seq<RecvResult<byte>>, world: World)
      requires AtRest() && ValidWorld(world)
      modifies this, rb, rb.data, wb, wb.data
      ensures AtRest() && if old(clientRow.Some? && originRow.Some? && originRow.value.read) then ReadEvent(old(Snap()), false, recvs, world, Snap()) else Snap() == old(Snap())
    {
      hide In, Delivered, Base, Buffer.Valid, ReadDone, AdvanceDone;
      if clientRow.Some? && originRow.Some? && originRow.value.read {
        InterestsAreHandled(State(), V());
        var next := StmRead(false, First(recvs, NothingYet), world);
        Advance(next, Rest(recvs), world);
      }
    }

    /** socks5_write on the origin's descriptor: the connect has completed, or the relay may send. */
    method OriginWritable(soError: Option<byte>, local: Option<SockAddr>, world: World)
      requires AtRest() && ValidWorld(world) && (local.Some? ==> ValidAddr(local.value))
      modifies this, rb, rb.data, wb, wb.data
      ensures AtRest() && if old(clientRow.Some? && originRow.Some? && originRow.value.write) then WriteEvent(old(Snap()), false, NotNow, soError, local, [], world, Snap()) else Snap() == old(Snap())
    {
      hide In, Delivered, Base, Buffer.Valid, WriteDone, AdvanceDone;
      if clientRow.Some? && originRow.Some? && originRow.value.write {
        InterestsAreHandled(State(), V());
        var next := StmWrite(false, NotNow, soError, local, world);
        Advance(next, [], world);
      }
    }

    /** socks5_block: a wake-up, possibly meant for an earlier owner of the descriptor. */
    method Woken(resolution: Resolution, world: World)
      requires AtRest() && ValidWorld(world)
      modifies this, rb, rb.data, wb, wb.data
      ensures AtRest() && if old(clientRow.Some? && State().ReqResolve?) then ResolveDone(old(V()), V(), resolution, world, old(lastRep), State()) else Snap() == old(Snap())
    {
      hide In, Delivered, Base, Buffer.Valid, ResolveDone;
      if clientRow.Some? && State().ReqResolve? {
        var next := StmBlock(resolution, world);
        Advance(next, [], world);
      }
    }

    /** socks5_reap_idle, for a resolution that is complete: the new state is assigned directly. */
    method ReapCompleted(resolution: Resolution, world: World)
      requires AtRest() && ValidWorld(world)
      modifies this, rb, rb.data, wb, wb.data
      ensures AtRest() && if old(clientRow.Some? && State().ReqResolve?) then ResolveDone(old(V()), V(), resolution, world, old(lastRep), State())
                          else Snap() == old(Snap())
    {
      hide InReqResolve, InReqConnecting, InReqWrite, Delivered, Base, Buffer.Valid, ResolveDone;
      if clientRow.Some? && State().ReqResolve? {
        var next := RequestResolveDone(resolution, world);
        TableIsSound(next);
        current := Some(next);
        LiveRow(next, V());
      }
    }

    /** request_fail from the reaper, which assigns the new state directly. */
    method ReapWaiting(rep: byte)
      requires AtRest() && clientRow.Some? && (State().ReqConnecting? || State().ReqResolve?)
      modifies this, rb, rb.data, wb, wb.data
      ensures AtRest() && State().ReqWrite? && Refused(V(), rep) && clientRow.Some? && h.grant == old(h.grant)
      ensures SameClient(old(V()), V()) && h.received == old(h.received) && h.sent == old(h.sent)
    {
      hide In, InReqWrite, Delivered, Base, Unanswered, Buffer.Valid, Refused;
      WaitingUnanswered(State(), V());
      var next := RequestFail(rep);
      TableIsSound(next);
      current := Some(next);
      ReplyingLive(V());
    }

    /** socks5_reap_idle, for a connection that has been idle too long. */
    method ReapExpired()
      requires AtRest()
      modifies this, rb, rb.data, wb, wb.data
      ensures AtRest() && if old(clientRow).Some? then ExpireEvent(old(Snap()), Snap()) else Snap() == old(Snap())
    {
      hide In, Delivered, Base, Buffer.Valid, Refused;
      if clientRow.Some? {
        if State().ReqConnecting? {
          ReapWaiting(REP_TTL_EXPIRED);
        } else if State().ReqResolve? {
          ReapWaiting(REP_GENERAL_FAILURE);
        } else {
          SocksDone();
        }
      }
    }

    method Dispatch(e: Event)
      requires AtRest() && ValidEvent(e)
      modifies this, rb, rb.data, wb, wb.data
      ensures AtRest() && EventStep(old(Snap()), e, Snap())
    {
      hide AtRest, Buffer.Valid, ReadEvent, WriteEvent, ResolveDone, ExpireEvent;
      match e {
        case ClientReadable(recvs, world) => ClientReadable(recvs, world);
        case ClientWritable(recvs, world) => ClientWritable(recvs, world);
        case OriginReadable(recvs, world) => OriginReadable(recvs, world);
        case OriginWritable(soError, local, world) => OriginWritable(soError, local, world);
        case Woken(resolution, world) => Woken(resolution, world);
        case ReapCompleted(resolution, world) => ReapCompleted(resolution, world);
        case ReapExpired => ReapExpired();
      }
    }
  }

  // ------------------------------------------- how the invariants fare, on abstract values

  /** Later bytes do not change why a client was let in. */
  lemma AuthorisedGrows(chosen: byte, status: byte, grant: Grant, received: seq<byte>, more: seq<byte>)
    requires AuthOver(received, chosen)
    ensures Authorised(chosen, status, grant, received) ==> Authorised(chosen, status, grant, received + more)
  {
    hide ParseNeg, ParseAuth, AfterNeg, AuthOver, Accepts;
    AuthStable(received, chosen, more);
  }

  /** Nor what it asked for. */
  lemma ObeyedGrows(chosen: byte, received: seq<byte>, more: seq<byte>, attempts: nat, relayed: bool, stage: nat, reply: seq<byte>)
    requires attempts > 0 || relayed || stage == 3 ==> ReqOver(received, chosen)
    ensures Obeyed(chosen, received, attempts, relayed, stage, reply) ==> Obeyed(chosen, received + more, attempts, relayed, stage, reply)
  {
    hide ParseReq, AfterAuth, ReqOver;
    if attempts > 0 || relayed || stage == 3 {
      PayloadGrows(received, chosen, more);
    }
  }

  /** Nor where a parser stopped. */
  lemma FaultsGrow(neg: NegView, auth: AuthView, received: seq<byte>, more: seq<byte>)
    requires Faults(neg, auth, received)
    ensures Faults(neg, auth, received + more)
  {
    hide ParseNeg, ParseAuth, AfterNeg;
    if neg.state.Invalid? {
      NegStable(received, more);
    }
    if auth.state.Error? {
      AuthStable(received, METHOD_USERPASS, more);
    }
  }

  /** The view after the negotiation parser has been fed. */
  ghost function NegFed(v: View, neg: NegView, received: seq<byte>, rest: seq<byte>, rbStart: nat): (r: View) {
    v.(neg := neg, rb := rest, rbStart := rbStart, h := v.h.(received := received))
  }

  lemma NegRoom(v: View)
    requires InNegRead(v)
    ensures v.wb == [] && v.wbCap >= MIN_BUFFER && v.rbCap > 0
    ensures ParseNeg(v.neg, v.rb) == ParseNeg(NEG_START, v.h.received) && !NegFinal(v.neg)
  {
    hide ParseNeg;
  }

  lemma NegFedOk(v: View, neg: NegView, received: seq<byte>, rest: seq<byte>, rbStart: nat)
    requires InNegRead(v) && (neg, rest) == ParseNeg(NEG_START, received) && |rest| <= v.rbCap
    ensures Base(NegFed(v, neg, received, rest, rbStart))
    ensures !NegFinal(neg) && rest == [] ==> InNegRead(NegFed(v, neg, received, rest, rbStart))
  {
    hide ParseNeg, Payload, ReqOver;
    ParseNegUnfold(neg, []);
  }

  /** The view after the authentication parser has been fed. */
  ghost function AuthFed(v: View, auth: AuthView, received: seq<byte>, rest: seq<byte>, rbStart: nat): (r: View) {
    v.(auth := auth, rb := rest, rbStart := rbStart, h := v.h.(received := received))
  }

  lemma AuthRoom(v: View)
    requires InAuthRead(v)
    ensures v.wb == [] && v.wbCap >= MIN_BUFFER && v.rbCap > 0 && NegOver(v.h.received)
    ensures v.neg == ParseNeg(NEG_START, v.h.received).0
    ensures ParseAuth(v.auth, v.rb) == ParseAuth(AUTH_START, AfterNeg(v.h.received)) && !AuthFinal(v.auth)
  {
    hide ParseNeg, ParseAuth, AfterNeg;
  }

  lemma AuthFedOk(v: View, auth: AuthView, received: seq<byte>, rest: seq<byte>, rbStart: nat)
    requires InAuthRead(v) && ParseNeg(NEG_START, received).0 == v.neg
    requires (auth, rest) == ParseAuth(AUTH_START, AfterNeg(received)) && |rest| <= v.rbCap
    ensures Base(AuthFed(v, auth, received, rest, rbStart))
    ensures !AuthFinal(auth) && rest == [] ==> InAuthRead(AuthFed(v, auth, received, rest, rbStart))
  {
    hide ParseNeg, ParseAuth, Payload, ReqOver, AfterNeg;
    ParseAuthUnfold(auth, []);
  }

  /** The view after the method has been chosen and its reply queued. */
  ghost function MethodQueued(v: View, neg: NegView, received: seq<byte>, rest: seq<byte>, rbStart: nat, wbStart: nat, chosen: byte, grant: Grant): (r: View) {
    v.(neg := neg, rb := rest, rbStart := rbStart, wbStart := wbStart, chosen := chosen, wb := MethodReply(chosen), clientRow := Some(OP_WRITE),
       h := v.h.(received := received, stage := 1, grant := grant))
  }

  lemma MethodQueuedOk(v: View, neg: NegView, received: seq<byte>, rest: seq<byte>, rbStart: nat, wbStart: nat, chosen: byte, store: seq<Entry<byte>>)
    requires InNegRead(v) && (neg, rest) == ParseNeg(NEG_START, received) && neg.state.Done? && |rest| <= v.rbCap
    requires chosen == ChooseMethod(neg, store != [])
    ensures InNegWrite(MethodQueued(v, neg, received, rest, rbStart, wbStart, chosen, MethodGrant(chosen, store)))
  {
    hide ParseNeg, Payload, ReqOver;
  }

  ghost function StatusQueued(v: View, auth: AuthView, received: seq<byte>, rest: seq<byte>, rbStart: nat, wbStart: nat, status: byte, grant: Grant): (r: View) {
    v.(auth := auth, rb := rest, rbStart := rbStart, wbStart := wbStart, authStatus := status, wb := AuthReply(status), clientRow := Some(OP_WRITE),
       h := v.h.(received := received, stage := 2, grant := grant))
  }

  /** The status of a finished authentication. */
  function AuthStatus(store: seq<Entry<byte>>, auth: AuthView): (status: byte) {
    if Accepts(store, auth.uname, auth.passwd) then AUTH_OK else AUTH_FAIL
  }

  lemma AcceptsKept(store: seq<Entry<byte>>, auth: AuthView)
    ensures Kept(store) ==> (Accepts(store, auth.uname, auth.passwd) <==> Entry(auth.uname, auth.passwd) in store)
  {
    if Kept(store) {
      AcceptsIff(store, auth.uname, auth.passwd);
    }
  }

  lemma StatusQueuedOk(v: View, auth: AuthView, received: seq<byte>, rest: seq<byte>, rbStart: nat, wbStart: nat, status: byte, store: seq<Entry<byte>>)
    requires InAuthRead(v) && ParseNeg(NEG_START, received).0 == v.neg
    requires (auth, rest) == ParseAuth(AUTH_START, AfterNeg(received)) && auth.state.Done? && |rest| <= v.rbCap
    requires status == AuthStatus(store, auth)
    ensures InAuthWrite(StatusQueued(v, auth, received, rest, rbStart, wbStart, status, StatusGrant(status, store, auth)))
  {
    hide ParseNeg, ParseAuth, Payload, ReqOver, AfterNeg, Accepts;
    AcceptedIsStored(store, auth.uname, auth.passwd);
    assert v.h.sent == v.h.sent + v.wb == Replies(v) == MethodReply(v.chosen);
  }

  /** What a reply writer did, and where it goes. */
  lemma SentReply(v: View, s: SendResult, start: nat, stay: StateId, sent: StateId)
    ensures var n := SentCount(s, |v.wb|); var u := PassedToClient(v, n, start); var next := AfterSend(s, |v.wb|, stay, sent);
            && ReplySent(v, u, s, stay, sent, next) && ReplySent(v, u.(clientRow := Some(OP_READ)), s, stay, sent, next)
            && |v.wb[n..]| == |v.wb| - n
            && next == if n == 0 then (if s.NotNow? then stay else Failed) else if n < |v.wb| then stay else sent
  {}

  /** What holds once `n` bytes of the method reply have been sent. */
  ghost predicate NegSent(v: View, n: nat, start: nat)
    requires n <= |v.wb|
  {
    var u := PassedToClient(v, n, start);
    && Base(u) && (n < |v.wb| ==> InNegWrite(u))
    && (n == |v.wb| && v.chosen == METHOD_USERPASS ==> EnterAuthRead(u.(clientRow := Some(OP_READ))))
    && (n == |v.wb| && v.chosen == METHOD_NOAUTH ==> EnterReqRead(u.(clientRow := Some(OP_READ))))
    && (v.chosen == METHOD_NOAUTH || v.chosen == METHOD_USERPASS || v.chosen == METHOD_NONE)
  }

  lemma NegWriting(v: View, n: nat)
    requires InNegWrite(v) && n <= |v.wb|
    ensures v.wb != [] && forall start: nat :: NegSent(v, n, start)
  {
    hide InNegWrite, NegSent;
    NegPending(v);
    forall start: nat
      ensures NegSent(v, n, start)
    {
      NegFlushedOk(v, n, start);
    }
  }

  lemma NegPending(v: View)
    requires InNegWrite(v)
    ensures v.wb != []
  {}

  lemma NegFlushedOk(v: View, n: nat, start: nat)
    requires InNegWrite(v) && n <= |v.wb|
    ensures NegSent(v, n, start)
  {
    hide ParseNeg, ParseAuth, Payload, ReqOver, AfterNeg;
    assert v.h.sent + v.wb[..n] + v.wb[n..] == v.h.sent + v.wb;
  }

  lemma AuthWriting(v: View)
    requires InAuthWrite(v)
    ensures v.wb != []
  {}

  lemma AuthFlushedOk(v: View, n: nat, wbStart: nat)
    requires InAuthWrite(v) && n <= |v.wb|
    ensures var u := PassedToClient(v, n, wbStart);
            && Base(u) && (n < |v.wb| ==> InAuthWrite(u))
            && (n == |v.wb| && v.authStatus == AUTH_OK ==> EnterReqRead(u.(clientRow := Some(OP_READ))))
  {
    hide ParseNeg, ParseAuth, Payload, ReqOver, AfterNeg, AfterAuth;
    assert v.h.sent + v.wb[..n] + v.wb[n..] == v.h.sent + v.wb;
  }

  lemma ReqWriting(v: View)
    requires InReqWrite(v)
    ensures v.wb != []
  {}

  lemma ReqFlushedOk(v: View, n: nat, wbStart: nat)
    requires InReqWrite(v) && n <= |v.wb|
    ensures var u := PassedToClient(v, n, wbStart);
            && Base(u) && (n < |v.wb| ==> InReqWrite(u))
            && (n == |v.wb| ==> if v.connected then EnterRelay(u) else Delivered(u))
  {
    hide ParseReq, AuthOver, ReqOver, AfterAuth, Payload, Authorised, Answers, Obeyed, Faults, SuccessReply, FailureReply;
    assert v.h.sent + v.wb[..n] + v.wb[n..] == v.h.sent + v.wb;
    RepliesSame(v, PassedToClient(v, n, wbStart));
  }

  /** The view after the one reply to a request has been queued. */
  ghost function Replied(v: View, reply: seq<byte>, connected: bool, origin: Option<Interest>): (r: View) {
    v.(connected := connected, wb := reply, clientRow := Some(OP_WRITE), originRow := origin, h := v.h.(stage := 3, reply := reply))
  }

  lemma RepliedOk(v: View, reply: seq<byte>, connected: bool)
    requires Unanswered(v) && reply != [] && |reply| <= MIN_BUFFER
    requires if connected then SuccessReply(reply) && IsConnect(v.request) else FailureReply(reply)
    requires Obeyed(v.chosen, v.h.received, v.h.attempts, v.h.relayed, 3, reply)
    ensures InReqWrite(Replied(v, reply, connected, if connected then Some(OP_NOOP) else None))
  {
    hide Payload, ParseReq, AfterAuth, AuthOver, SuccessReply, FailureReply, Authorised, Faults, Obeyed, IsConnect, Replies;
    RepliesMore(v, reply, connected);
  }

  lemma RepliesMore(v: View, reply: seq<byte>, connected: bool)
    requires Unanswered(v)
    ensures forall origin :: v.h.sent + reply == Replies(Replied(v, reply, connected, origin))
    ensures v.h.fromOrigin == []
  {
    hide Payload, ParseReq, AfterAuth, AuthOver, SuccessReply, FailureReply, Authorised, Faults, Obeyed, IsConnect, Answers;
    assert v.h.sent == v.h.sent + v.wb == Replies(v);
    assert Replies(Replied(v, reply, connected, None)) == Replies(v) + reply;
  }

  lemma RepliedObeyed(v: View, reply: seq<byte>, connected: bool)
    requires Unanswered(v)
    requires if connected then IsConnect(v.request) else exists rep: byte :: Suits(v.request, rep) && reply == FailReply(rep)
    ensures Obeyed(v.chosen, v.h.received, v.h.attempts, v.h.relayed, 3, reply)
  {
    hide Payload, ParseReq, AfterAuth, AuthOver, SuccessReply, FailureReply, Authorised, Faults, FailReply, Answers, Replies;
    if !connected {
      var rep: byte :| Suits(v.request, rep) && reply == FailReply(rep);
      FailReplyShape(rep);
    }
  }

  lemma SucceededOk(v: View, start: nat, local: SockAddr)
    requires Unanswered(v) && IsConnect(v.request) && ValidAddr(local) && !local.OtherFamily?
    ensures InReqWrite(Replied(v.(wbStart := start), AddrReply(REP_SUCCESS, local), true, Some(OP_NOOP)))
  {
    hide Unanswered, InReqWrite, AddrReply, FailureReply, SuccessReply, Replied, Obeyed, IsConnect;
    AddrReplyShape(local);
    UnansweredAny(v, v.(wbStart := start));
    RepliedObeyed(v, AddrReply(REP_SUCCESS, local), true);
    RepliedOk(v.(wbStart := start), AddrReply(REP_SUCCESS, local), true);
  }

  lemma FailedOk(v: View, start: nat, rep: byte)
    requires Unanswered(v) && Suits(v.request, rep)
    ensures InReqWrite(Replied(v.(wbStart := start), FailReply(rep), false, None))
  {
    hide Unanswered, InReqWrite, FailReply, FailureReply, SuccessReply, Suits, Replied, Obeyed;
    FailReplyShape(rep);
    UnansweredAny(v, v.(wbStart := start));
    RepliedObeyed(v, FailReply(rep), false);
    RepliedOk(v.(wbStart := start), FailReply(rep), false);
  }

  /** An unanswered connection has an empty write buffer with room for any reply. */
  lemma UnansweredRoom(v: View)
    requires Unanswered(v)
    ensures v.wb == [] && v.wbCap >= MIN_BUFFER && v.clientRow.Some?
  {}

  lemma FailReplyShape(rep: byte)
    ensures |FailReply(rep)| == 10 && FailReply(rep) == [5, rep, 0, 1, 0, 0, 0, 0, 0, 0] && FailureReply(FailReply(rep)) && ZeroReply(rep, ATYP_IPV4) == FailReply(rep)
  {}

  lemma AddrReplyShape(a: SockAddr)
    requires ValidAddr(a) && !a.OtherFamily?
    ensures 0 < |AddrReply(REP_SUCCESS, a)| <= 22 && SuccessReply(AddrReply(REP_SUCCESS, a))
  {}

  /** Being unanswered does not depend on `connected` or on where the write buffer starts. */
  lemma UnansweredAny(v: View, u: View)
    requires Unanswered(v) && u == v.(connected := u.connected, wbStart := u.wbStart)
    ensures Unanswered(u)
  {
    hide Payload, ParseReq, AfterAuth, AuthOver, ReqOver, Authorised, Answers, Obeyed, Faults;
  }

  lemma UnansweredAttempt(v: View)
    requires Unanswered(v) && IsConnect(v.request)
    ensures Unanswered(v.(h := v.h.(attempts := v.h.attempts + 1)))
  {
    hide Payload, ParseReq, AfterAuth, AuthOver, ReqOver, Authorised, Answers, Faults;
  }

  lemma UnansweredLeft(v: View, n: nat)
    requires Unanswered(v)
    ensures Unanswered(v.(candidates := n))
  {
    hide ReqOver, Payload, AfterAuth, AuthOver, ParseReq, Authorised, Answers, Obeyed, Faults, SuccessReply, FailureReply;
    RepliesSame(v, v.(candidates := n));
  }

  lemma UnansweredOrigin(v: View, origin: Interest)
    requires Unanswered(v)
    ensures Unanswered(v.(originRow := Some(origin)))
    ensures IsConnect(v.request) ==> InReqConnecting(v.(originRow := Some(OP_WRITE), clientRow := Some(OP_NOOP)))
  {
    hide Payload, ParseReq, AfterAuth, AuthOver, ReqOver, Authorised, Answers, Obeyed, Faults;
  }

  /** With one candidate the code remembered before does not matter. */
  lemma OneCandidate(next: StateId, v: View, connects: seq<ConnectResult>, last: byte)
    requires ConnectEnded(next, v, connects, 1, last)
    ensures ConnectEnded(next, v, connects, 1, REP_GENERAL_FAILURE)
  {}

  lemma CandidateValid(connects: seq<ConnectResult>, k: nat)
    requires forall i :: 0 <= i < |connects| ==> ValidConnect(connects[i])
    ensures ValidConnect(Candidate(connects, k))
  {}

  lemma UnansweredPark(v: View)
    requires Unanswered(v)
    ensures Unanswered(v.(clientRow := Some(OP_NOOP)))
  {
    hide Payload, ParseReq, AfterAuth, AuthOver, ReqOver, Authorised, Answers, Obeyed, Faults;
  }

  lemma UnansweredDrop(v: View)
    requires Unanswered(v)
    ensures Unanswered(v.(originRow := None))
  {
    hide Payload, ParseReq, AfterAuth, AuthOver, ReqOver, Authorised, Answers, Obeyed, Faults;
  }

  /** The replies do not depend on the relay's part of the state. */
  lemma RepliesSame(v: View, u: View)
    requires u.chosen == v.chosen && u.authStatus == v.authStatus && u.h.stage == v.h.stage && u.h.reply == v.h.reply
    ensures Replies(u) == Replies(v)
  {}

  lemma RelayDelivered(v: View)
    requires InRelayCore(v) && v.clientWrShut && v.originWrShut
    ensures Delivered(v)
  {
    hide ReqOver, Payload;
    assert v.h.sent + [] == v.h.sent && v.h.toOrigin + [] == v.h.toOrigin;
  }

  /** Interests and rows are not part of the relay's core. */
  lemma CoreRows(v: View, u: View)
    requires InRelayCore(v)
    requires u == v.(clientRow := u.clientRow, originRow := u.originRow, clientInterest := u.clientInterest, originInterest := u.originInterest)
    ensures InRelayCore(u)
  {
    hide ReqOver, Payload, Authorised, Answers, Obeyed, Faults, SuccessReply;
  }

  lemma RelayEntered(v: View)
    requires EnterRelay(v)
    ensures InRelayCore(v.(clientClosed := false, originClosed := false, clientWrShut := false, originWrShut := false, h := v.h.(relayed := true)))
    ensures |v.rb| < v.rbCap && v.clientInterest == OP_NOOP && v.originRow == Some(v.originInterest) && v.clientRow.Some?
  {
    hide Payload, ParseReq, AfterAuth, AuthOver, Authorised, Faults, SuccessReply, FailureReply, Replies;
    RepliesSame(v, v.(clientClosed := false, originClosed := false, clientWrShut := false, originWrShut := false, h := v.h.(relayed := true)));
    assert [] + v.rb == v.rb;
  }

  lemma CoreSentClient(v: View, n: nat, start: nat)
    requires InRelayCore(v) && n <= |v.wb|
    ensures InRelayCore(v.(wb := v.wb[n..], wbStart := start, h := v.h.(sent := v.h.sent + v.wb[..n])))
  {
    hide ReqOver, Payload, Authorised, Answers, Obeyed, Faults, SuccessReply;
    assert v.h.sent + v.wb[..n] + v.wb[n..] == v.h.sent + v.wb;
  }

  lemma CoreSentOrigin(v: View, n: nat, start: nat)
    requires InRelayCore(v) && n <= |v.rb|
    ensures InRelayCore(v.(rb := v.rb[n..], rbStart := start, h := v.h.(toOrigin := v.h.toOrigin + v.rb[..n])))
  {
    hide ReqOver, Payload, Authorised, Answers, Obeyed, Faults, SuccessReply;
    assert v.h.toOrigin + v.rb[..n] + v.rb[n..] == v.h.toOrigin + v.rb;
  }

  function Later(sends: seq<SendResult>, k: nat): (r: seq<SendResult>) {
    if k <= |sends| then sends[k..] else []
  }

  /** Progress of relay_flush: `n` octets of `all` sent in `k` calls, the rest still to go. */
  ghost predicate Flushing(all: seq<byte>, before: seq<byte>, sends: seq<SendResult>, n: nat, k: nat, left: seq<byte>, sent: seq<byte>) {
    && n <= |all| && left == all[n..] && sent == before + all[..n]
    && FlushCount(|all|, sends).0 == n + FlushCount(|left|, Later(sends, k)).0
    && FlushCount(|all|, sends).1 == FlushCount(|left|, Later(sends, k)).1
  }

  lemma FlushStart(all: seq<byte>, before: seq<byte>, sends: seq<SendResult>)
    ensures Flushing(all, before, sends, 0, 0, all, before)
  {
    hide FlushCount;
    assert all[..0] == [] && all[0..] == all && sends[0..] == sends && before + [] == before;
  }

  lemma FlushUnfold(pending: nat, sends: seq<SendResult>, k: nat)
    requires pending > 0
    ensures var s := if k < |sends| then sends[k] else NotNow;
            var n := SentCount(s, pending);
            && (n == 0 ==> FlushCount(pending, Later(sends, k)) == (0, !s.SendFailed?))
            && (n > 0 ==> FlushCount(pending, Later(sends, k)).0 == n + FlushCount(pending - n, Later(sends, k + 1)).0)
            && (n > 0 ==> FlushCount(pending, Later(sends, k)).1 == FlushCount(pending - n, Later(sends, k + 1)).1)
  {
    var rest := Later(sends, k);
    if k < |sends| {
      assert rest[0] == sends[k] && rest[1..] == Later(sends, k + 1);
    }
  }

  lemma FlushStep(all: seq<byte>, before: seq<byte>, sends: seq<SendResult>, n: nat, k: nat, left: seq<byte>, sent: seq<byte>)
    requires Flushing(all, before, sends, n, k, left, sent) && left != []
    ensures var s := if k < |sends| then sends[k] else NotNow;
            var m := SentCount(s, |left|);
            && (m > 0 ==> Flushing(all, before, sends, n + m, k + 1, left[m..], sent + left[..m]))
            && (m == 0 ==> FlushCount(|all|, sends) == (n, !s.SendFailed?) && left == left[0..] == all[n..] && sent + left[..0] == before + all[..n])
  {
    hide FlushCount, SentCount, Later;
    FlushUnfold(|left|, sends, k);
    var m := SentCount(if k < |sends| then sends[k] else NotNow, |left|);
    FlushPieces(all, before, n, m);
    assert left[..0] == [] && sent + [] == sent;
  }

  lemma FlushPieces(all: seq<byte>, before: seq<byte>, n: nat, m: nat)
    requires n + m <= |all|
    ensures all[n..][m..] == all[n + m..] && before + all[..n] + all[n..][..m] == before + all[..n + m]
  {
    assert all[..n] + all[n..][..m] == all[..n + m];
  }

  lemma FlushEnd(all: seq<byte>, before: seq<byte>, sends: seq<SendResult>, n: nat, k: nat, left: seq<byte>, sent: seq<byte>)
    requires Flushing(all, before, sends, n, k, left, sent) && left == []
    ensures FlushCount(|all|, sends) == (n, true) && left == all[n..] && sent == before + all[..n]
  {}

  /** A read interest means the side has not closed and its buffer has room. */
  lemma RelayWindow(v: View)
    requires InRelay(v)
    ensures v.clientInterest.read ==> !v.clientClosed && v.rbStart + |v.rb| < v.rbCap
    ensures v.originInterest.read ==> !v.originClosed && v.wbStart + |v.wb| < v.wbCap
    ensures v.rbStart == 0 && v.wbStart == 0
  {}

  lemma CoreFromClient(v: View, chunk: seq<byte>)
    requires InRelay(v) && !v.clientClosed && |v.rb| + |chunk| <= v.rbCap
    ensures InRelayCore(v.(rb := v.rb + chunk, h := v.h.(received := v.h.received + chunk)))
  {
    hide AuthOver, Payload, Authorised, Answers, Obeyed, Faults, SuccessReply, Replies, ParseReq, AfterAuth;
    AuthorisedGrows(v.chosen, v.authStatus, v.h.grant, v.h.received, chunk);
    FaultsGrow(v.neg, v.auth, v.h.received, chunk);
    ObeyedGrows(v.chosen, v.h.received, chunk, v.h.attempts, v.h.relayed, v.h.stage, v.h.reply);
    PayloadGrows(v.h.received, v.chosen, chunk);
    RepliesSame(v, v.(rb := v.rb + chunk, h := v.h.(received := v.h.received + chunk)));
    assert v.h.toOrigin + (v.rb + chunk) == v.h.toOrigin + v.rb + chunk;
  }

  lemma CoreFromOrigin(v: View, chunk: seq<byte>)
    requires InRelay(v) && !v.originClosed && |v.wb| + |chunk| <= v.wbCap
    ensures InRelayCore(v.(wb := v.wb + chunk, h := v.h.(fromOrigin := v.h.fromOrigin + chunk)))
  {
    hide ReqOver, Payload, Authorised, Answers, Obeyed, Faults, SuccessReply;
    assert v.h.sent + (v.wb + chunk) == v.h.sent + v.wb + chunk;
    assert Replies(v) + v.h.fromOrigin + chunk == Replies(v) + (v.h.fromOrigin + chunk);
  }

  lemma RelaySizes(v: View)
    requires InRelay(v)
    ensures |v.rb| <= v.rbCap && |v.wb| <= v.wbCap
    ensures v.clientInterest.read ==> |v.rb| < v.rbCap
    ensures v.originInterest.read ==> |v.wb| < v.wbCap
  {
    hide ReqOver, Payload, Authorised, Answers, Obeyed, Faults, SuccessReply, Replies;
  }

  ghost function GotFromClient(v: View, chunk: seq<byte>): (u: View) {
    v.(rb := v.rb + chunk, h := v.h.(received := v.h.received + chunk))
  }

  ghost function GotFromOrigin(v: View, chunk: seq<byte>): (u: View) {
    v.(wb := v.wb + chunk, h := v.h.(fromOrigin := v.h.fromOrigin + chunk))
  }

  ghost function PassedToClient(v: View, n: nat, start: nat): (u: View)
    requires n <= |v.wb|
  {
    v.(wb := v.wb[n..], wbStart := start, h := v.h.(sent := v.h.sent + v.wb[..n]))
  }

  ghost function PassedToOrigin(v: View, n: nat, start: nat): (u: View)
    requires n <= |v.rb|
  {
    v.(rb := v.rb[n..], rbStart := start, h := v.h.(toOrigin := v.h.toOrigin + v.rb[..n]))
  }

  /** Octets of the client received and flushed, before relay_update. */
  lemma ArrivedClient(v: View, u: View, bytes: seq<byte>, sends: seq<SendResult>, ok: bool, start: nat)
    requires |v.rb| < v.rbCap && bytes != []
    requires var got := GotFromClient(v, Taken(Offered(bytes), v.rbCap - |v.rb|));
             u == PassedToOrigin(got, FlushCount(|got.rb|, sends).0, start) && ok == FlushCount(|got.rb|, sends).1
    ensures if ok then Passed(v, u, true, Offered(bytes), sends) else RelayReadDone(v, u, true, Offered(bytes), sends, Failed)
  {
    hide FlushCount;
  }

  lemma ArrivedOrigin(v: View, u: View, bytes: seq<byte>, sends: seq<SendResult>, ok: bool, start: nat)
    requires |v.wb| < v.wbCap && bytes != []
    requires var got := GotFromOrigin(v, Taken(Offered(bytes), v.wbCap - |v.wb|));
             u == PassedToClient(got, FlushCount(|got.wb|, sends).0, start) && ok == FlushCount(|got.wb|, sends).1
    ensures if ok then Passed(v, u, false, Offered(bytes), sends) else RelayReadDone(v, u, false, Offered(bytes), sends, Failed)
  {
    hide FlushCount;
  }

  /** relay_read up to its relay_update. */
  ghost predicate Passed(v: View, u: View, fromClient: bool, r: RecvResult<byte>, sends: seq<SendResult>) {
    RelayReadDone(v, u, fromClient, r, sends, RelayNext(u))
  }

  /** relay_update keeps the buffers, the flags and the streams. */
  lemma ArrivedUpdated(v: View, u: View, w: View, fromClient: bool, r: RecvResult<byte>, sends: seq<SendResult>, next: StateId)
    requires Passed(v, u, fromClient, r, sends)
    requires w.rb == u.rb && w.wb == u.wb && w.clientClosed == u.clientClosed && w.originClosed == u.originClosed
    requires w.h.received == u.h.received && w.h.fromOrigin == u.h.fromOrigin && SameHandshake(u, w) && next == RelayNext(w)
    ensures RelayReadDone(v, w, fromClient, r, sends, next)
  {
    hide FlushCount;
  }

  lemma Written(v: View, u: View, w: View, toClient: bool, sends: seq<SendResult>, ok: bool, next: StateId)
    requires if toClient then u.wb == v.wb[FlushCount(|v.wb|, sends).0..] && u.rb == v.rb && ok == FlushCount(|v.wb|, sends).1
             else u.rb == v.rb[FlushCount(|v.rb|, sends).0..] && u.wb == v.wb && ok == FlushCount(|v.rb|, sends).1
    requires u.h == v.h.(sent := u.h.sent, toOrigin := u.h.toOrigin) && SameClient(v, u)
    requires w.rb == u.rb && w.wb == u.wb && w.h.received == u.h.received && w.h.fromOrigin == u.h.fromOrigin && SameHandshake(u, w)
    requires if ok then next == RelayNext(w) else next.Failed?
    ensures RelayWriteDone(v, w, toClient, sends, next)
  {
    hide FlushCount;
  }

  ghost function EndedView(v: View, fromClient: bool): (u: View) {
    if fromClient then v.(clientClosed := true) else v.(originClosed := true)
  }

  lemma EndedUpdated(v: View, w: View, fromClient: bool, next: StateId)
    requires |v.rb| <= v.rbCap && |v.wb| <= v.wbCap
    requires w.clientClosed == (v.clientClosed || fromClient) && w.originClosed == (v.originClosed || !fromClient)
    requires w.rb == v.rb && w.wb == v.wb && w.h.received == v.h.received && w.h.fromOrigin == v.h.fromOrigin
    requires SameHandshake(v, w) && next == RelayNext(w)
    ensures RelayReadDone(v, w, fromClient, PeerClosed, [], next)
  {}

  /** An end of stream does not look at the sends. */
  lemma NoSends(v: View, u: View, fromClient: bool, r: RecvResult<byte>, sends: seq<SendResult>, next: StateId)
    requires r.PeerClosed? && RelayReadDone(v, u, fromClient, PeerClosed, [], next)
    ensures RelayReadDone(v, u, fromClient, r, sends, next)
  {}

  /** Nothing to read: nothing changes; an error ends the connection. */
  lemma RelayIdle(v: View, fromClient: bool, r: RecvResult<byte>, sends: seq<SendResult>)
    requires InRelay(v) && !r.PeerClosed? && (r.Offered? ==> r.bytes == [])
    ensures RelayReadDone(v, v, fromClient, r, sends, if r.RecvFailed? then Failed else Relaying)
    ensures Base(v)
  {
    hide ReqOver, Payload, Authorised, Answers, Obeyed, Faults, SuccessReply, Replies;
  }

  lemma RelayRows(v: View)
    requires InRelay(v)
    ensures InRelayCore(v) && v.clientRow == Some(v.clientInterest) && v.originRow == Some(v.originInterest)
  {
    hide InRelayCore;
  }

  lemma CoreBase(v: View)
    requires InRelayCore(v)
    ensures Base(v)
  {}

  lemma CoreClosed(v: View)
    requires InRelay(v)
    ensures InRelayCore(v.(clientClosed := true)) && InRelayCore(v.(originClosed := true))
    ensures v.clientRow == Some(v.clientInterest) && v.originRow == Some(v.originInterest)
  {
    hide ReqOver, Payload, Authorised, Answers, Obeyed, Faults, SuccessReply;
  }

  lemma EnteredAsIs(s: StateId, v: View)
    requires Entering(s, v) && !s.AuthRead? && !s.ReqRead? && !s.Relaying?
    ensures In(s, v)
  {
    hide In;
  }

  lemma ArriveAuth(v: View)
    requires EnterAuthRead(v)
    ensures InAuthRead(v.(auth := AUTH_START))
  {
    hide ParseNeg, ParseAuth, AfterNeg, ReqOver, Payload;
  }

  lemma ArriveReq(v: View)
    requires EnterReqRead(v)
    ensures InReqRead(v.(request := REQ_START))
  {
    hide ParseNeg, ParseAuth, ParseReq, AfterNeg, AfterAuth, AuthOver, ReqOver, Payload;
  }

  /** The handlers of each state, read off the table. */
  lemma Handlers(s: StateId)
    ensures Row(s).read <==> IsReadState(s) || s.Relaying?
    ensures Row(s).write <==> s.NegWrite? || s.AuthWrite? || s.ReqConnecting? || s.ReqWrite? || s.Relaying?
    ensures Row(s).block <==> s.ReqResolve?
    ensures Row(s).arrival <==> IsReadState(s) || s.Relaying?
  {}

  // Which states a handler may leave for, and what it leaves behind.

  lemma LeftNegRead(next: StateId, u: View)
    requires (next.NegRead? && InNegRead(u)) || (next.NegWrite? && InNegWrite(u)) || (next.Failed? && Base(u))
    ensures Left(NegRead, next, u)
  {
    hide InNegRead, InNegWrite, InAuthRead, InAuthWrite, InReqRead, InReqResolve, InReqConnecting, InReqWrite, InRelay, Delivered, Base;
    hide EnterAuthRead, EnterReqRead, EnterRelay;
  }

  lemma LeftNegWrite(next: StateId, u: View)
    requires (next.NegWrite? && InNegWrite(u)) || (next.AuthRead? && EnterAuthRead(u)) || (next.ReqRead? && EnterReqRead(u)) || (next.Failed? && Base(u))
    ensures Left(NegWrite, next, u)
  {
    hide InNegRead, InNegWrite, InAuthRead, InAuthWrite, InReqRead, InReqResolve, InReqConnecting, InReqWrite, InRelay, Delivered, Base;
    hide EnterAuthRead, EnterReqRead, EnterRelay;
  }

  lemma LeftAuthRead(next: StateId, u: View)
    requires (next.AuthRead? && InAuthRead(u)) || (next.AuthWrite? && InAuthWrite(u)) || (next.Failed? && Base(u))
    ensures Left(AuthRead, next, u)
  {
    hide InNegRead, InNegWrite, InAuthRead, InAuthWrite, InReqRead, InReqResolve, InReqConnecting, InReqWrite, InRelay, Delivered, Base;
    hide EnterAuthRead, EnterReqRead, EnterRelay;
  }

  lemma LeftAuthWrite(next: StateId, u: View)
    requires (next.AuthWrite? && InAuthWrite(u)) || (next.ReqRead? && EnterReqRead(u)) || (next.Failed? && Base(u))
    ensures Left(AuthWrite, next, u)
  {
    hide InNegRead, InNegWrite, InAuthRead, InAuthWrite, InReqRead, InReqResolve, InReqConnecting, InReqWrite, InRelay, Delivered, Base;
    hide EnterAuthRead, EnterReqRead, EnterRelay;
  }

  lemma LeftReqRead(next: StateId, u: View)
    requires (next.ReqRead? && InReqRead(u)) || (next.ReqResolve? && InReqResolve(u)) || (next.ReqConnecting? && InReqConnecting(u)) || (next.ReqWrite? && InReqWrite(u)) || (next.Failed? && Base(u))
    ensures Left(ReqRead, next, u)
  {
    hide InNegRead, InNegWrite, InAuthRead, InAuthWrite, InReqRead, InReqResolve, InReqConnecting, InReqWrite, InRelay, Delivered, Base;
    hide EnterAuthRead, EnterReqRead, EnterRelay;
  }

  lemma LeftResolve(next: StateId, u: View)
    requires (next.ReqResolve? && InReqResolve(u)) || (next.ReqConnecting? && InReqConnecting(u)) || (next.ReqWrite? && InReqWrite(u))
    ensures Left(ReqResolve, next, u)
  {
    hide InNegRead, InNegWrite, InAuthRead, InAuthWrite, InReqRead, InReqResolve, InReqConnecting, InReqWrite, InRelay, Delivered, Base;
    hide EnterAuthRead, EnterReqRead, EnterRelay;
  }

  lemma LeftConnecting(next: StateId, u: View)
    requires (next.ReqConnecting? && InReqConnecting(u)) || (next.ReqWrite? && InReqWrite(u))
    ensures Left(ReqConnecting, next, u)
  {
    hide InNegRead, InNegWrite, InAuthRead, InAuthWrite, InReqRead, InReqResolve, InReqConnecting, InReqWrite, InRelay, Delivered, Base;
    hide EnterAuthRead, EnterReqRead, EnterRelay;
  }

  lemma LeftReqWrite(next: StateId, u: View)
    requires (next.ReqWrite? && InReqWrite(u)) || (next.Finished? && Delivered(u)) || (next.Relaying? && EnterRelay(u)) || (next.Failed? && Base(u))
    ensures Left(ReqWrite, next, u)
  {
    hide InNegRead, InNegWrite, InAuthRead, InAuthWrite, InReqRead, InReqResolve, InReqConnecting, InReqWrite, InRelay, Delivered, Base;
    hide EnterAuthRead, EnterReqRead, EnterRelay;
  }

  lemma LeftRelay(next: StateId, u: View)
    requires (next.Relaying? && InRelay(u)) || (next.Finished? && Delivered(u)) || (next.Failed? && Base(u))
    ensures Left(Relaying, next, u)
  {
    hide InNegRead, InNegWrite, InAuthRead, InAuthWrite, InReqRead, InReqResolve, InReqConnecting, InReqWrite, InRelay, Delivered, Base;
    hide EnterAuthRead, EnterReqRead, EnterRelay;
  }

  lemma SentPart(v: View, u: View, s: SendResult, stay: StateId, sent: StateId, next: StateId)
    requires ReplySent(v, u, s, stay, sent, next)
    ensures PartSent(v, u, s, stay, sent, next)
  {}

  /** The arrival hook of the next state does not change what a write handler did. */
  lemma WriteKept(s: StateId, v: View, u: View, w: View, toClient: bool, send: SendResult, soError: Option<byte>,
                  local: Option<SockAddr>, world: World, next: StateId)
    requires WriteDone(s, v, u, toClient, send, soError, local, world, next)
    requires w.h.sent == u.h.sent && w.h.received == u.h.received && w.h.grant == u.h.grant
    requires w.rb == u.rb && w.h.reply == u.h.reply && SameClient(u, w)
    requires s.ReqConnecting? || s.Relaying? ==> w == u
    ensures WriteDone(s, v, w, toClient, send, soError, local, world, next)
  {
    hide ConnectingDone, RelayWriteDone, AfterSend, ReplyNext;
  }

  /** Closing keeps what holds in every state, and what DONE promises. */
  lemma ClosedOk(s: StateId, v: View)
    requires In(s, v)
    ensures var c := v.(clientRow := None, originRow := None); Base(c) && (s.Finished? ==> Delivered(c))
  {
    hide ReqOver, Payload, AfterAuth, AuthOver, ParseReq, ParseNeg, ParseAuth, AfterNeg, Authorised, Answers, Obeyed, Faults, SuccessReply, FailureReply;
    RepliesSame(v, v.(clientRow := None, originRow := None));
  }

  lemma LiveRow(s: StateId, v: View)
    requires In(s, v) && !s.Finished? && !s.Failed?
    ensures v.clientRow.Some?
  {
    hide ReqOver, Payload, AfterAuth, AuthOver, ParseReq, ParseNeg, ParseAuth, AfterNeg, Authorised, Answers, Obeyed, Faults, SuccessReply, FailureReply, Base;
  }

  /** The engine never aborts: whatever interest the selector holds for either descriptor, the current
  state has the handler for it; in the relay it is the interest the handler relies on. */
  lemma InterestsAreHandled(s: StateId, v: View)
    requires In(s, v) && !s.Finished? && !s.Failed?
    ensures v.clientRow.Some?
    ensures v.clientRow.value.read ==> Row(s).read && (s.Relaying? ==> v.clientInterest.read)
    ensures v.clientRow.value.write ==> Row(s).write && !s.ReqConnecting?
    ensures v.originRow.Some? && v.originRow.value.read ==> s.Relaying? && Row(s).read && v.originInterest.read
    ensures v.originRow.Some? && v.originRow.value.write ==> (s.Relaying? || s.ReqConnecting?) && Row(s).write
  {
    hide ReqOver, Payload, AfterAuth, AuthOver, ParseReq, ParseNeg, ParseAuth, AfterNeg, Authorised, Answers, Obeyed, Faults, SuccessReply, FailureReply, Base;
  }

  /** A whole run: any sequence of events, readiness being filtered by the registered interest only. A connect
  was only tried for a client that one of the events let in, with the user store of that event. */
  method Serve(bufsize: nat, events: seq<Event>) returns (c: Connection, ghost run: seq<Snapshot>)
    requires bufsize >= MIN_BUFFER && forall i :: 0 <= i < |events| ==> ValidEvent(events[i])
    ensures c.AtRest() && StreamsIntact(c.V()) && AuthorisedOnly(c.V())
    ensures c.clientRow.Some? ==> In(c.State(), c.V())
    ensures c.clientRow.None? && c.State().Finished? ==> Delivered(c.V())
    ensures Run(run, events) && run[|events|] == c.Snap()
    ensures run[0].state == NegRead && run[0].view.neg == NEG_START && run[0].view.h == NO_HISTORY
    ensures forall i :: 0 <= i < |run| ==> Resting(run[i])
    ensures c.h.attempts > 0 || c.h.stage == 3 ==> exists i :: 0 <= i < |events| && GrantedAt(c.h.grant, events[i])
  {
    hide In, Base, Delivered, EventStep, Authorised, Buffer.Valid;
    c := new Connection(bufsize);
    FreshAtRest(c.V());
    run := [c.Snap()];
    for i := 0 to |events|
      invariant c.AtRest() && fresh(c) && fresh(c.rb) && fresh(c.wb) && fresh(c.rb.data) && fresh(c.wb.data)
      invariant Run(run, events[..i]) && run[i] == c.Snap()
      invariant run[0].state == NegRead && run[0].view.neg == NEG_START && run[0].view.h == NO_HISTORY
      invariant forall j :: 0 <= j < |run| ==> Resting(run[j])
      invariant !c.h.grant.NoGrant? ==> exists j :: 0 <= j < i && GrantedAt(c.h.grant, events[j])
    {
      hide Connection.AtRest, GrantedAt;
      ghost var before := c.Snap();
      c.Dispatch(events[i]);
      RestingOf(c);
      GrantFromEvent(before, events[i], c.Snap());
      RunGrows(run, events, i, c.Snap());
      run := run + [c.Snap()];
    }
    assert events[..|events|] == events;
    if c.clientRow.Some? {
      BaseOf(c.State(), c.V());
    }
    StreamIntegrity(c.V());
    if c.h.attempts > 0 || c.h.stage == 3 {
      AttemptGranted(c.V());
    }
  }

  lemma RestingOf(c: Connection)
    requires c.AtRest()
    ensures Resting(c.Snap())
  {
    hide Resting, Connection.Valid;
  }

  lemma RunGrows(run: seq<Snapshot>, events: seq<Event>, i: nat, next: Snapshot)
    requires i < |events| && Run(run, events[..i]) && EventStep(run[i], events[i], next)
    ensures Run(run + [next], events[..i + 1])
  {
    hide EventStep;
    var more := run + [next];
    forall k | 0 <= k < i + 1
      ensures EventStep(more[k], events[..i + 1][k], more[k + 1])
    {
      if k < i {
        assert EventStep(run[k], events[..i][k], run[k + 1]);
      }
    }
  }

  /** A grant never changes but in the event whose user store it names. */
  lemma GrantFromEvent(s: Snapshot, e: Event, t: Snapshot)
    requires EventStep(s, e, t)
    ensures t.view.h.grant == s.view.h.grant || t.view.h.grant.NoGrant? || GrantedAt(t.view.h.grant, e)
  {
    hide ReadDone, WriteDone, AdvanceDone, ResolveDone, Reaches, GrantedAt;
    if Reaches(s, e) {
      match e {
        case ClientReadable(recvs, world) => GrantFromRead(s, true, recvs, world, t, e);
        case ClientWritable(recvs, world) => GrantFromWrite(s, true, First(world.sends, NotNow), None, None, recvs, world, t, e);
        case OriginReadable(recvs, world) => GrantFromRead(s, false, recvs, world, t, e);
        case OriginWritable(soError, local, world) => GrantFromWrite(s, false, NotNow, soError, local, [], world, t, e);
        case Woken(resolution, world) => GrantKeptByResolve(s.view, t.view, resolution, world, s.lastRep, t.state);
        case ReapCompleted(resolution, world) => GrantKeptByResolve(s.view, t.view, resolution, world, s.lastRep, t.state);
        case ReapExpired =>
      }
    }
  }

  lemma GrantKeptByResolve(v: View, u: View, resolution: Resolution, world: World, last: byte, next: StateId)
    requires ResolveDone(v, u, resolution, world, last, next)
    ensures u.h.grant == v.h.grant
  {
    hide ConnectEnded, Refused;
  }

  lemma GrantFromHandler(s: StateId, v: View, u: View, fromClient: bool, r: RecvResult<byte>, world: World, next: StateId, e: Event)
    requires ReadDone(s, v, u, fromClient, r, world, next) && !e.ReapExpired? && e.world == world
    ensures u.h.grant == v.h.grant || u.h.grant.NoGrant? || GrantedAt(u.h.grant, e)
  {
    hide NegotiationReadDone, AuthReadDone, GrantedAt, ParseReq, Processed, RelayPassed, RelayNext, Taken;
    if s.NegRead? {
      GrantFromMethod(v, u, r, world, next, e);
    } else if s.AuthRead? {
      GrantFromStatus(v, u, r, world, next, e);
    }
  }

  lemma GrantFromMethod(v: View, u: View, r: RecvResult<byte>, world: World, next: StateId, e: Event)
    requires NegotiationReadDone(v, u, r, world, next) && !e.ReapExpired? && e.world == world
    ensures u.h.grant == v.h.grant || u.h.grant.NoGrant? || GrantedAt(u.h.grant, e)
  {
    hide ParseNeg, ChooseMethod, Taken;
  }

  lemma GrantFromStatus(v: View, u: View, r: RecvResult<byte>, world: World, next: StateId, e: Event)
    requires AuthReadDone(v, u, r, world, next) && !e.ReapExpired? && e.world == world
    ensures u.h.grant == v.h.grant || u.h.grant.NoGrant? || GrantedAt(u.h.grant, e)
  {
    hide ParseAuth, Accepts, Taken, Kept;
    AcceptedIsStored(world.store, u.auth.uname, u.auth.passwd);
  }

  lemma GrantKeptByWrite(s: StateId, v: View, u: View, toClient: bool, send: SendResult, soError: Option<byte>,
                         local: Option<SockAddr>, world: World, next: StateId)
    requires WriteDone(s, v, u, toClient, send, soError, local, world, next)
    ensures u.h.grant == v.h.grant
  {
    hide AfterSend, ConnectEnded, Announced, FlushCount, RelayNext;
  }

  lemma GrantFromAdvance(n: StateId, m: View, r: RecvResult<byte>, world: World, t: StateId, u: View, e: Event)
    requires AdvanceDone(n, m, r, world, t, u) && !e.ReapExpired? && e.world == world
    ensures u.h.grant == m.h.grant || u.h.grant.NoGrant? || GrantedAt(u.h.grant, e)
  {
    hide ReadDone, GrantedAt, In;
    if IsReadState(n) && m.rb != [] {
      var n': StateId, m': View :| ReadDone(n, m, m', true, r, world, n') && Rested(n', m') && Settled(n', m', t, u);
      GrantFromHandler(n, m, m', true, r, world, n', e);
    }
  }

  lemma GrantFromRead(s: Snapshot, fromClient: bool, recvs: seq<RecvResult<byte>>, world: World, t: Snapshot, e: Event)
    requires ReadEvent(s, fromClient, recvs, world, t) && !e.ReapExpired? && e.world == world
    ensures t.view.h.grant == s.view.h.grant || t.view.h.grant.NoGrant? || GrantedAt(t.view.h.grant, e)
  {
    hide ReadDone, AdvanceDone, GrantedAt, In;
    var n: StateId, m: View :| ReadDone(s.state, s.view, m, fromClient, First(recvs, NothingYet), world, n) && Rested(n, m)
                               && AdvanceDone(n, m, First(Rest(recvs), NothingYet), world, t.state, t.view);
    GrantFromHandler(s.state, s.view, m, fromClient, First(recvs, NothingYet), world, n, e);
    GrantFromAdvance(n, m, First(Rest(recvs), NothingYet), world, t.state, t.view, e);
  }

  lemma GrantFromWrite(s: Snapshot, toClient: bool, send: SendResult, soError: Option<byte>, local: Option<SockAddr>,
                       recvs: seq<RecvResult<byte>>, world: World, t: Snapshot, e: Event)
    requires WriteEvent(s, toClient, send, soError, local, recvs, world, t) && !e.ReapExpired? && e.world == world
    ensures t.view.h.grant == s.view.h.grant || t.view.h.grant.NoGrant? || GrantedAt(t.view.h.grant, e)
  {
    hide WriteDone, AdvanceDone, GrantedAt, In;
    var n: StateId, m: View :| WriteDone(s.state, s.view, m, toClient, send, soError, local, world, n) && In(n, m)
                               && AdvanceDone(n, m, First(recvs, NothingYet), world, t.state, t.view);
    GrantKeptByWrite(s.state, s.view, m, toClient, send, soError, local, world, n);
    GrantFromAdvance(n, m, First(recvs, NothingYet), world, t.state, t.view, e);
  }

  lemma AttemptGranted(v: View)
    requires AuthorisedOnly(v) && (v.h.attempts > 0 || v.h.stage == 3)
    ensures !v.h.grant.NoGrant?
  {}

  lemma FreshAtRest(v: View)
    requires InNegRead(v)
    ensures In(NegRead, v) && !v.arrivalError && v.clientRow.Some?
  {}

  lemma BaseOf(s: StateId, v: View)
    requires In(s, v)
    ensures Base(v)
  {
    hide ReqOver, Payload, AfterAuth, AuthOver, ParseReq, ParseNeg, ParseAuth, AfterNeg, Authorised, Answers, Obeyed, Faults, SuccessReply, FailureReply;
  }

  /** Bytes sent to the client are a prefix of the method reply, the authentication reply if there is
  one, exactly one request reply and the origin's bytes in order; bytes sent to the origin are a
  prefix of what the client sent after its request. Each reply is one the protocol knows, and bytes are
  relayed only after a success reply. Nothing is tried but for a CONNECT request. */
  ghost predicate StreamsIntact(v: View) {
    && v.h.sent <= Replies(v) + v.h.fromOrigin
    && v.h.toOrigin <= Payload(v.h.received, v.chosen)
    && (v.h.fromOrigin != [] || v.h.toOrigin != [] ==> v.h.stage == 3 && SuccessReply(v.h.reply))
    && Answers(v.chosen, v.authStatus, v.h.stage, v.h.reply, v.h.relayed)
    && (v.h.stage == 3 ==> ReqOver(v.h.received, v.chosen))
    && Obeyed(v.chosen, v.h.received, v.h.attempts, v.h.relayed, v.h.stage, v.h.reply)
    && v.h.clientShuts <= 1 && v.h.originShuts <= 1
  }

  /** No connect and no answer to a request without a reason: an empty user store, or credentials the client sent and the store accepted. */
  ghost predicate AuthorisedOnly(v: View) {
    v.h.attempts > 0 || v.h.stage == 3 ==> Authorised(v.chosen, v.authStatus, v.h.grant, v.h.received)
  }

  lemma StreamIntegrity(v: View)
    requires Base(v)
    ensures StreamsIntact(v) && AuthorisedOnly(v)
  {
    hide ReqOver, Payload, SuccessReply, FailureReply, Authorised, Faults;
    assert v.h.sent <= v.h.sent + v.wb;
    assert v.h.relayed ==> v.h.toOrigin <= v.h.toOrigin + v.rb;
  }

  /** Relay progress: a direction that has not been shut always has an interest armed that can move it on, and
  a side is shut exactly when its source has ended and everything for it has been sent. */
  lemma RelayProgress(v: View)
    requires InRelay(v)
    ensures v.originWrShut || v.clientInterest.read || v.originInterest.write
    ensures v.clientWrShut || v.originInterest.read || v.clientInterest.write
    ensures v.originWrShut <==> v.clientClosed && v.rb == []
    ensures v.clientWrShut <==> v.originClosed && v.wb == []
    ensures v.clientRow == Some(v.clientInterest) && v.originRow == Some(v.originInterest)
  {
    hide ReqOver, Payload, Authorised, Answers, Obeyed, Faults, SuccessReply, Replies;
  }

  /** However the stream was cut up, two connections that chose the same method and of which one has received
  at least what the other has parsed the same messages, and hold the same payload. */
  lemma SegmentationIndependent(v: View, u: View, more: seq<byte>)
    requires Requested(v) && Requested(u) && u.chosen == v.chosen && u.h.received == v.h.received + more
    ensures u.request == v.request && u.rb == v.rb + more
    ensures ParseNeg(NEG_START, u.h.received).0 == ParseNeg(NEG_START, v.h.received).0
    ensures v.chosen == METHOD_USERPASS ==>
              ParseAuth(AUTH_START, AfterNeg(u.h.received)).0 == ParseAuth(AUTH_START, AfterNeg(v.h.received)).0
  {
    hide ParseNeg, ParseAuth, ParseReq, AfterNeg, AfterAuth, Payload, Base, AuthOver, Authorised, Answers, Obeyed, Faults;
    AuthStable(v.h.received, v.chosen, more);
    PayloadGrows(v.h.received, v.chosen, more);
  }

  /** In a state that is not the error state the negotiation has not gone wrong. */
  lemma NegotiationSound(s: StateId, u: View)
    requires In(s, u) && (IsReadState(s) ==> u.rb == []) && !s.Failed?
    ensures !ParseNeg(NEG_START, u.h.received).0.state.Invalid?
    ensures NegOver(u.h.received) ==> !s.NegRead?
  {
    hide AfterNeg, AfterAuth, Payload, Answers, ParseReq, ParseAuth, ParseNeg, Replies, SuccessReply, FailureReply, Accepts;
    ParseNegUnfold(u.neg, []);
  }

  /** Nor, once credentials are being read, has the authentication. */
  lemma AuthenticationSound(s: StateId, u: View)
    requires In(s, u) && (IsReadState(s) ==> u.rb == []) && !s.Failed? && !s.NegRead? && !s.NegWrite? && u.chosen == METHOD_USERPASS
    ensures !ParseAuth(AUTH_START, AfterNeg(u.h.received)).0.state.Error?
  {
    hide AfterNeg, AfterAuth, Payload, Answers, ParseReq, ParseAuth, ParseNeg, Replies, SuccessReply, FailureReply, Accepts;
    ParseAuthUnfold(u.auth, []);
  }

  lemma FaultsOf(v: View)
    requires Base(v)
    ensures Faults(v.neg, v.auth, v.h.received)
  {
    hide Replies, ReqOver, Payload, Authorised, Answers, Obeyed, Faults;
  }

  /** A malformed negotiation ends every connection that receives it, however it arrives, at the same error. */
  lemma SameNegotiationError(v: View, s: StateId, u: View, more: seq<byte>)
    requires Base(v) && v.neg.state.Invalid? && u.h.received == v.h.received + more
    requires In(s, u) && (IsReadState(s) ==> u.rb == [])
    ensures s.Failed?
    ensures u.neg.state.Invalid? ==> u.neg == v.neg
  {
    hide In, Base, ParseNeg, ParseAuth, AfterNeg;
    FaultsOf(v);
    BaseOf(s, u);
    FaultsOf(u);
    NegStable(v.h.received, more);
    if !s.Failed? {
      NegotiationSound(s, u);
    }
  }

  /** And so does a malformed authentication, once the method reply is out, where one is demanded. */
  lemma SameAuthError(v: View, s: StateId, u: View, more: seq<byte>)
    requires Base(v) && v.auth.state.Error? && u.h.received == v.h.received + more && u.chosen == METHOD_USERPASS
    requires In(s, u) && (IsReadState(s) ==> u.rb == []) && !s.NegWrite?
    ensures s.Failed?
    ensures u.auth.state.Error? ==> u.auth == v.auth
  {
    hide In, Base, ParseNeg, ParseAuth, AfterNeg, AfterAuth;
    FaultsOf(v);
    BaseOf(s, u);
    FaultsOf(u);
    AuthStable(v.h.received, METHOD_USERPASS, more);
    if !s.Failed? {
      NegotiationSound(s, u);
      AuthenticationSound(s, u);
    }
  }

  lemma WaitingUnanswered(s: StateId, v: View)
    requires In(s, v) && (s.ReqConnecting? || s.ReqResolve?)
    ensures Unanswered(v) && IsConnect(v.request)
  {
    hide Unanswered;
  }

  lemma ReplyingLive(v: View)
    requires InReqWrite(v)
    ensures In(ReqWrite, v) && v.clientRow.Some?
  {
    hide Requested;
  }
}
