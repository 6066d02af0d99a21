/** What a client and an origin can count on, event by event, whatever the handlers are called. */
module Socks5Laws {
  import opened Sequences
  import opened Bytes
  import opened Negotiation
  import opened Auth
  import opened Request
  import opened Handshake
  import opened Users
  import opened Network
  import opened Socks5State
  import opened Socks5Spec
  import opened Socks5

  // -------------------------------------------------------------------------- messages taken in

  /** A client's bytes arrive in one piece. */
  ghost function Sends(bytes: seq<byte>, world: World): (e: Event) {
    ClientReadable([Offered(bytes)], world)
  }

  /** A complete negotiation, however much of it came before, is answered with the method its offer calls for. */
  lemma NegotiationIsAnswered(s: Snapshot, bytes: seq<byte>, world: World, t: Snapshot)
    requires Resting(s) && s.state.NegRead? && s.view.clientRow.Some? && 0 < |bytes| <= MIN_BUFFER
    requires ParseNeg(NEG_START, s.view.h.received + bytes).0.state.Done? && EventStep(s, Sends(bytes, world), t)
    ensures t.state.NegWrite? && InNegWrite(t.view) && t.view.h.received == s.view.h.received + bytes
    ensures ChosenByOffer(t.view.h.received, world.store != [], t.view.chosen) && t.view.h.sent + t.view.wb == [5, t.view.chosen]
  {
    hide InNegRead, InNegWrite, InAuthRead, InAuthWrite, InReqRead, InReqResolve, InReqConnecting, InReqWrite, InRelay, Delivered, Base;
    hide ParseNeg, ChosenByOffer, ChooseMethod, AdvanceDone;
    NegReading(s.view);
    var n: StateId, m: View :| NegotiationReadDone(s.view, m, Offered(bytes), world, n) && Rested(n, m)
                               && AdvanceDone(n, m, NothingYet, world, t.state, t.view);
    assert NegotiationReadDone(s.view, m, Offered(bytes), world, n);
    NegMoves(n, m);
    SettledAtOnce(n, m, NothingYet, world, t);
  }

  lemma NegReading(v: View)
    requires InNegRead(v) && v.rb == []
    ensures v.clientRow == Some(OP_READ) && v.rbCap >= MIN_BUFFER && !NegFinal(ParseNeg(v.neg, v.rb).0)
  {
    hide ParseNeg, Obeyed, Authorised, Answers, Payload, ReqOver, Replies;
    ParseNegUnfold(v.neg, []);
  }

  /** At rest the negotiation parser is where the stream puts it, and the reply is the method's. */
  lemma NegMoves(n: StateId, m: View)
    requires Rested(n, m) && (n.NegRead? || n.NegWrite? || (n.Failed? && m.neg.state.Invalid?))
    requires ParseNeg(NEG_START, m.h.received).0.state.Done?
    ensures n.NegWrite? && InNegWrite(m) && m.h.sent + m.wb == [5, m.chosen]
  {
    hide ParseNeg, AfterNeg, Obeyed, Authorised, Answers, Payload, ReqOver;
    ParseNegUnfold(m.neg, []);
  }

  /** Nothing buffered for the next phase: the event ends with its handler. */
  lemma SettledAtOnce(n: StateId, m: View, r: RecvResult<byte>, world: World, t: Snapshot)
    requires AdvanceDone(n, m, r, world, t.state, t.view) && (IsReadState(n) ==> m.rb == [])
    ensures t.state == n && t.view == if n.Failed? || n.Finished? then Closed(m) else m
  {}

  /** A complete authentication is answered with 0 exactly if its credentials are an entry of the store. */
  lemma AuthenticationIsAnswered(s: Snapshot, bytes: seq<byte>, world: World, t: Snapshot)
    requires Resting(s) && s.state.AuthRead? && s.view.clientRow.Some? && 0 < |bytes| <= MIN_BUFFER && Kept(world.store)
    requires ParseAuth(AUTH_START, AfterNeg(s.view.h.received + bytes)).0.state.Done? && EventStep(s, Sends(bytes, world), t)
    ensures t.state.AuthWrite? && InAuthWrite(t.view) && t.view.h.received == s.view.h.received + bytes
    ensures var auth := ParseAuth(AUTH_START, AfterNeg(t.view.h.received)).0;
            t.view.authStatus == 0 <==> Entry(auth.uname, auth.passwd) in world.store
  {
    hide InNegRead, InNegWrite, InAuthRead, InAuthWrite, InReqRead, InReqResolve, InReqConnecting, InReqWrite, InRelay, Delivered, Base;
    hide ParseNeg, ParseAuth, AfterNeg, AdvanceDone, AfterAuth, Accepts, Kept;
    AuthReading(s.view);
    var n: StateId, m: View :| AuthReadDone(s.view, m, Offered(bytes), world, n) && Rested(n, m)
                               && AdvanceDone(n, m, NothingYet, world, t.state, t.view);
    assert AuthReadDone(s.view, m, Offered(bytes), world, n);
    AuthMoves(n, m);
    SettledAtOnce(n, m, NothingYet, world, t);
  }

  lemma AuthReading(v: View)
    requires InAuthRead(v) && v.rb == []
    ensures v.clientRow == Some(OP_READ) && v.rbCap >= MIN_BUFFER && !AuthFinal(ParseAuth(v.auth, v.rb).0)
  {
    hide ParseNeg, ParseAuth, AfterNeg, Obeyed, Authorised, Answers, Payload, ReqOver, Replies;
    ParseAuthUnfold(v.auth, []);
  }

  /** At rest the authentication parser is where the stream puts it. */
  lemma AuthMoves(n: StateId, m: View)
    requires Rested(n, m) && (n.AuthRead? || n.AuthWrite? || (n.Failed? && m.auth.state.Error?))
    requires ParseAuth(AUTH_START, AfterNeg(m.h.received)).0.state.Done?
    ensures n.AuthWrite? && InAuthWrite(m) && m.auth == ParseAuth(AUTH_START, AfterNeg(m.h.received)).0
  {
    hide ParseNeg, ParseAuth, AfterNeg, AfterAuth, Obeyed, Authorised, Answers, Payload, ReqOver, Replies;
    ParseAuthUnfold(m.auth, []);
  }

  /** A complete CONNECT to an address whose first candidate connects is answered with success and the local address. */
  lemma ConnectIsAnswered(s: Snapshot, bytes: seq<byte>, world: World, t: Snapshot, local: SockAddr)
    requires Resting(s) && s.state.ReqRead? && s.view.clientRow.Some? && 0 < |bytes| <= MIN_BUFFER
    requires var r := ParseReq(REQ_START, AfterAuth(s.view.h.received + bytes, s.view.chosen)).0;
             r.state.Done? && r.cmd == 1 && (r.atyp == 1 || r.atyp == 4)
    requires world.connects != [] && world.connects[0] == Connected(true, Some(local)) && ValidAddr(local) && !local.OtherFamily?
    requires EventStep(s, Sends(bytes, world), t)
    ensures t.state.ReqWrite? && InReqWrite(t.view) && t.view.connected && t.view.h.received == s.view.h.received + bytes
    ensures ReadRequestReply(t.view.h.reply) == Some((0, local, [])) && SameClient(s.view, t.view)
  {
    hide InNegRead, InNegWrite, InAuthRead, InAuthWrite, InReqRead, InReqResolve, InReqConnecting, InReqWrite, InRelay, Delivered, Base;
    hide ParseReq, AfterAuth, AdvanceDone, AddrReply, ReadRequestReply;
    ReqReading(s.view);
    FirstUsableIsFirst(world.connects, 0, 1);
    var n: StateId, m: View :| RequestReadDone(s.view, m, Offered(bytes), world, n) && Rested(n, m)
                               && AdvanceDone(n, m, NothingYet, world, t.state, t.view);
    assert RequestReadDone(s.view, m, Offered(bytes), world, n);
    ReqMoves(n, m);
    SettledAtOnce(n, m, NothingYet, world, t);
    AddrReplyReadsBack(0, local, []);
    assert AddrReply(0, local) + [] == AddrReply(0, local);
  }

  lemma ReqReading(v: View)
    requires InReqRead(v) && v.rb == []
    ensures v.clientRow == Some(OP_READ) && v.rbCap >= MIN_BUFFER && !ReqFinal(ParseReq(v.request, v.rb).0)
  {
    hide ParseReq, AfterAuth, AuthOver, Obeyed, Authorised, Answers, Payload, ReqOver, Replies, Faults;
    ParseReqUnfold(v.request, []);
  }

  /** At rest the request parser is where the stream puts it. */
  lemma ReqMoves(n: StateId, m: View)
    requires Rested(n, m) && ReqFinal(ParseReq(REQ_START, AfterAuth(m.h.received, m.chosen)).0)
    requires if ReqFinal(m.request) then n.ReqWrite? || n.ReqConnecting? || n.ReqResolve? else n.ReqRead?
    ensures !n.ReqRead? && m.request == ParseReq(REQ_START, AfterAuth(m.h.received, m.chosen)).0
    ensures n.ReqWrite? ==> InReqWrite(m)
  {
    hide ParseReq, AfterAuth, AuthOver, Obeyed, Authorised, Answers, Payload, ReqOver, Replies, Faults, SuccessReply, FailureReply;
    ParseReqUnfold(m.request, []);
  }

  /** A complete request is obeyed or refused at once: a malformed one with 1, another command with 7; a name is
  looked up, or refused with 1 if it cannot be queued; an address is tried, and a connect that fails at once is
  answered with its code. */
  lemma RequestIsObeyed(s: Snapshot, bytes: seq<byte>, world: World, t: Snapshot)
    requires Resting(s) && s.state.ReqRead? && s.view.clientRow.Some? && 0 < |bytes| <= MIN_BUFFER
    requires ReqFinal(ParseReq(REQ_START, AfterAuth(s.view.h.received + bytes, s.view.chosen)).0) && EventStep(s, Sends(bytes, world), t)
    ensures var r := ParseReq(REQ_START, AfterAuth(s.view.h.received + bytes, s.view.chosen)).0; var first := Candidate(world.connects, 0);
            && t.view.h.received == s.view.h.received + bytes && SameClient(s.view, t.view)
            && (r.state.Error? ==> t.state.ReqWrite? && Refusal(t.view, 1))
            && (r.state.Done? && r.cmd != 1 ==> t.state.ReqWrite? && Refusal(t.view, 7))
            && (r.state.Done? && r.cmd == 1 && r.atyp != 1 && r.atyp != 4 ==> if world.queued then t.state.ReqResolve? else t.state.ReqWrite? && Refusal(t.view, 1))
            && (r.state.Done? && r.cmd == 1 && (r.atyp == 1 || r.atyp == 4) ==>
                  && (first.Unusable? ==> t.state.ReqWrite? && Refusal(t.view, first.rep))
                  && (first == InProgress(true) ==> t.state.ReqConnecting? && t.view.candidates == 0)
                  && (first == InProgress(false) || (first.Connected? && !first.registered) ==> t.state.ReqWrite? && Refusal(t.view, 1)))
  {
    hide InNegRead, InNegWrite, InAuthRead, InAuthWrite, InReqRead, InReqResolve, InReqConnecting, InReqWrite, InRelay, Delivered, Base;
    hide ParseReq, AfterAuth, AdvanceDone, Processed, Refusal;
    ReqReading(s.view);
    var n: StateId, m: View :| RequestReadDone(s.view, m, Offered(bytes), world, n) && Rested(n, m)
                               && AdvanceDone(n, m, NothingYet, world, t.state, t.view);
    assert RequestReadDone(s.view, m, Offered(bytes), world, n);
    ProcessedNext(n, m, world);
    ReqMoves(n, m);
    SettledAtOnce(n, m, NothingYet, world, t);
    ProcessedMeans(n, m, world);
  }

  /** The reply is a failure with this code. */
  ghost predicate Refusal(v: View, rep: byte) {
    !v.connected && v.h.reply == [5, rep, 0, 1, 0, 0, 0, 0, 0, 0]
  }

  lemma ProcessedNext(n: StateId, m: View, world: World)
    requires if ReqFinal(m.request) then Processed(n, m, m.request, world) else n.ReqRead? || n.Failed?
    ensures ReqFinal(m.request) ==> n.ReqWrite? || n.ReqConnecting? || n.ReqResolve?
  {
    hide Refused, FirstUsable;
    FirstUsableIsFirst(world.connects, 0, 1);
  }

  lemma ProcessedMeans(n: StateId, m: View, world: World)
    requires Processed(n, m, m.request, world)
    ensures var r := m.request; var first := Candidate(world.connects, 0);
            && (r.state.Error? ==> n.ReqWrite? && Refusal(m, 1))
            && (r.state.Done? && r.cmd != 1 ==> n.ReqWrite? && Refusal(m, 7))
            && (r.state.Done? && r.cmd == 1 && r.atyp != 1 && r.atyp != 4 ==> if world.queued then n.ReqResolve? else n.ReqWrite? && Refusal(m, 1))
            && (r.state.Done? && r.cmd == 1 && (r.atyp == 1 || r.atyp == 4) ==>
                  && (first.Unusable? ==> n.ReqWrite? && Refusal(m, first.rep))
                  && (first == InProgress(true) ==> n.ReqConnecting? && m.candidates == 0)
                  && (first == InProgress(false) || (first.Connected? && !first.registered) ==> n.ReqWrite? && Refusal(m, 1)))
  {
    hide FailReply, FirstUsable, Candidate, Announced;
    FirstUsableIsFirst(world.connects, 0, 1);
    FailReplyShape(1);
    FailReplyShape(7);
    if Candidate(world.connects, 0).Unusable? {
      FailReplyShape(Candidate(world.connects, 0).rep);
    }
  }

  // ------------------------------------------------------------------------------ replies sent

  /** A reply that the socket takes whole moves the connection on: to the phase its method or status calls for, to the
  relay after a success, or to its end. */
  lemma ReplyIsSent(s: Snapshot, world: World, t: Snapshot)
    requires Resting(s) && (s.state.NegWrite? || s.state.AuthWrite? || s.state.ReqWrite?) && s.view.clientRow.Some?
    requires world.sends != [] && world.sends[0].Accepted? && world.sends[0].n >= |s.view.wb| && s.view.rb == []
    requires EventStep(s, ClientWritable([], world), t)
    ensures t.view.h.sent == s.view.h.sent + s.view.wb && t.view.h.received == s.view.h.received && SameClient(s.view, t.view)
    ensures t.view.h.reply == s.view.h.reply
    ensures t.state == if s.state.NegWrite? then if s.view.chosen == 2 then AuthRead else if s.view.chosen == 255 then Failed else ReqRead
                       else if s.state.AuthWrite? then if s.view.authStatus == 0 then ReqRead else Failed
                       else if s.view.connected then Relaying else Finished
    ensures !t.state.Failed? && !t.state.Finished? ==> In(t.state, t.view)
  {
    hide In, AdvanceDone, Obeyed, Authorised, Answers;
    WritingNow(s.state, s.view);
    var n: StateId, m: View :| WriteDone(s.state, s.view, m, true, world.sends[0], None, None, world, n) && In(n, m)
                               && AdvanceDone(n, m, NothingYet, world, t.state, t.view);
    assert s.view.wb[..|s.view.wb|] == s.view.wb;
    SettledAtOnce(n, m, NothingYet, world, t);
  }

  lemma WritingNow(s: StateId, v: View)
    requires In(s, v) && (s.NegWrite? || s.AuthWrite? || s.ReqWrite?)
    ensures v.clientRow == Some(OP_WRITE) && v.wb != []
    ensures s.NegWrite? ==> v.chosen == 0 || v.chosen == 2 || v.chosen == 255
  {
    hide ParseNeg, ParseAuth, ParseReq, AfterNeg, AfterAuth, Payload, ReqOver, AuthOver, Obeyed, Authorised, Answers, Faults, Replies;
    hide SuccessReply, FailureReply, Base;
  }

  // ------------------------------------------------------------------------------ the whole way

  /** The six events of a client that offers user/password, gives its credentials and asks for an address. */
  ghost predicate CredentialsRun(run: seq<Snapshot>, negotiation: seq<byte>, auth: seq<byte>, request: seq<byte>, worlds: seq<World>) {
    && |run| == 7 && |worlds| == 6
    && EventStep(run[0], Sends(negotiation, worlds[0]), run[1]) && EventStep(run[1], ClientWritable([], worlds[1]), run[2])
    && EventStep(run[2], Sends(auth, worlds[2]), run[3]) && EventStep(run[3], ClientWritable([], worlds[3]), run[4])
    && EventStep(run[4], Sends(request, worlds[4]), run[5]) && EventStep(run[5], ClientWritable([], worlds[5]), run[6])
  }

  /** The sockets take a whole reply at once. */
  ghost predicate TakesReplies(world: World) {
    world.sends != [] && world.sends[0].Accepted? && world.sends[0].n >= MIN_BUFFER
  }

  lemma PendingFits(s: StateId, v: View)
    requires In(s, v) && (s.NegWrite? || s.AuthWrite? || s.ReqWrite?)
    ensures v.h.sent + v.wb == Replies(v) && v.h.fromOrigin == []
    ensures |Replies(v)| <= MIN_BUFFER
  {
    hide ParseNeg, ParseAuth, ParseReq, AfterNeg, AfterAuth, Payload, ReqOver, AuthOver, Obeyed, Authorised, Faults, AddrReply, FailReply;
    BaseOf(s, v);
    if v.h.stage == 3 {
      if SuccessReply(v.h.reply) {
        var a :| ValidAddr(a) && !a.OtherFamily? && v.h.reply == AddrReply(REP_SUCCESS, a);
        AddrReplyShape(a);
      } else {
        var rep: byte :| v.h.reply == FailReply(rep);
        FailReplyShape(rep);
      }
    }
  }

  lemma NegMessage(methods: seq<byte>, rest: seq<byte>)
    requires |methods| <= 255
    ensures var stream := [5, |methods| as byte] + methods + rest;
            ParseNeg(NEG_START, stream).0.state.Done? && AfterNeg(stream) == rest
    ensures ChosenByOffer([5, |methods| as byte] + methods, true, if 2 in methods then 2 else 255)
    ensures ChosenByOffer([5, |methods| as byte] + methods, false, if 0 in methods then 0 else 255)
  {
    hide ParseNeg;
    var stream := [5, |methods| as byte] + methods + rest;
    NegotiationExact(stream);
    var n: int := |methods|;
    assert stream[2..2 + n] == methods && stream[2 + n..] == rest;
    assert ([5, |methods| as byte] + methods)[2..2 + n] == methods;
  }

  lemma AuthAfterNeg(methods: seq<byte>, user: seq<byte>, pass: seq<byte>)
    requires |methods| <= 255 && |user| <= 255 && |pass| <= 255
    ensures var stream := [5, |methods| as byte] + methods + AuthMessage(user, pass);
            && ParseAuth(AUTH_START, AfterNeg(stream)).0 == AuthView(Auth.Done, |user|, user, |pass|, pass)
            && AfterAuth(stream, 2) == []
  {
    hide ParseNeg, ParseAuth, AuthMessage;
    NegMessage(methods, AuthMessage(user, pass));
    AuthComplete(user, pass, []);
    assert AuthMessage(user, pass) + [] == AuthMessage(user, pass);
  }

  /** The first message, and its reply. */
  lemma OfferIsServed(s: Snapshot, t: Snapshot, u: Snapshot, methods: seq<byte>, w0: World, w1: World, chosen: byte)
    requires Resting(s) && Resting(t) && s.state.NegRead? && s.view.clientRow.Some? && s.view.h == NO_HISTORY && |methods| <= 255
    requires chosen == if w0.store != [] then (if 2 in methods then 2 else 255) else if 0 in methods then 0 else 255
    requires EventStep(s, Sends([5, |methods| as byte] + methods, w0), t) && TakesReplies(w1) && EventStep(t, ClientWritable([], w1), u)
    ensures u.state == if chosen == 2 then AuthRead else if chosen == 0 then ReqRead else Failed
    ensures u.view.chosen == chosen && u.view.h.received == [5, |methods| as byte] + methods && u.view.h.sent == [5, chosen]
    ensures !u.state.Failed? ==> In(u.state, u.view)
  {
    hide In, Resting, EventStep, ParseNeg, AfterNeg, InNegWrite;
    var neg := [5, |methods| as byte] + methods;
    NegMessage(methods, []);
    assert neg + [] == neg && s.view.h.received + neg == neg;
    NegotiationIsAnswered(s, neg, w0, t);
    LiveNow(t);
    NegWriteNow(t.view);
    PendingFits(t.state, t.view);
    ReplyIsSent(t, w1, u);
  }

  lemma NegWriteNow(v: View)
    requires InNegWrite(v)
    ensures v.rb == AfterNeg(v.h.received) && v.clientRow.Some? && In(NegWrite, v)
  {
    hide ParseNeg, AfterNeg, Base;
  }

  /** A connection in a live state with its client registered is at rest there. */
  lemma LiveNow(s: Snapshot)
    requires Resting(s) && (s.state.NegWrite? || s.state.AuthWrite? || s.state.ReqWrite?)
    ensures s.view.clientRow.Some? ==> In(s.state, s.view)
  {
    hide In;
  }

  /** A client that offers user/password, sends credentials the store has and asks for an address whose connect
  succeeds gets, after its three messages, the three replies it expects and a relay, the last reply carrying the
  local address. */
  lemma CredentialsAreServed(run: seq<Snapshot>, methods: seq<byte>, user: seq<byte>, pass: seq<byte>, atyp: byte, addr: seq<byte>, port: int,
                             worlds: seq<World>, local: SockAddr)
    requires |methods| <= 255 && 2 in methods && |user| <= 255 && |pass| <= 255 && |user| + |pass| <= 509
    requires WellFormed(atyp, addr, port) && (atyp == 1 || atyp == 4) && ValidAddr(local) && !local.OtherFamily?
    requires CredentialsRun(run, [5, |methods| as byte] + methods, AuthMessage(user, pass), RequestMessage(1, atyp, addr, port), worlds)
    requires forall i :: 0 <= i < |run| ==> Resting(run[i])
    requires run[0].state.NegRead? && run[0].view.clientRow.Some? && run[0].view.h == NO_HISTORY
    requires worlds[0].store != [] && Kept(worlds[2].store) && Entry(user, pass) in worlds[2].store
    requires TakesReplies(worlds[1]) && TakesReplies(worlds[3]) && TakesReplies(worlds[5])
    requires worlds[4].connects != [] && worlds[4].connects[0] == Connected(true, Some(local))
    ensures var end := run[6];
            && end.state.Relaying? && end.view.h.sent == [5, 2] + [1, 0] + end.view.h.reply
            && ReadRequestReply(end.view.h.reply) == Some((0, local, []))
  {
    hide In, Resting, EventStep, ParseNeg, ParseAuth, AfterNeg, AfterAuth, Kept, TakesReplies, ReadRequestReply, AuthMessage, RequestMessage;
    OfferIsServed(run[0], run[1], run[2], methods, worlds[0], worlds[1], 2);
    LoginIsServed(run[2], run[3], run[4], methods, user, pass, worlds[2], worlds[3]);
    RequestIsServed(run[4], run[5], run[6], methods, user, pass, atyp, addr, port, worlds[4], worlds[5], local);
  }

  lemma ReadsNow(s: Snapshot)
    requires Resting(s) && In(s.state, s.view) && (s.state.AuthRead? || s.state.ReqRead?)
    ensures s.view.clientRow.Some? && Rested(s.state, s.view)
  {
    hide ParseNeg, ParseAuth, ParseReq, AfterNeg, AfterAuth, Base, Authorised, AuthOver;
  }

  lemma LoginIsServed(s: Snapshot, t: Snapshot, u: Snapshot, methods: seq<byte>, user: seq<byte>, pass: seq<byte>, w0: World, w1: World)
    requires Resting(s) && Resting(t) && s.state.AuthRead? && In(s.state, s.view) && s.view.chosen == 2
    requires |methods| <= 255 && |user| <= 255 && |pass| <= 255 && |user| + |pass| <= 509
    requires s.view.h.received == [5, |methods| as byte] + methods && s.view.h.sent == [5, 2] && Kept(w0.store) && Entry(user, pass) in w0.store
    requires EventStep(s, Sends(AuthMessage(user, pass), w0), t) && TakesReplies(w1) && EventStep(t, ClientWritable([], w1), u)
    ensures u.state.ReqRead? && In(u.state, u.view) && u.view.chosen == 2
    ensures u.view.h.received == [5, |methods| as byte] + methods + AuthMessage(user, pass) && u.view.h.sent == [5, 2] + [1, 0]
  {
    hide In, Resting, EventStep, ParseNeg, ParseAuth, AfterNeg, AfterAuth, Kept, InAuthWrite;
    AuthAfterNeg(methods, user, pass);
    ReadsNow(s);
    assert |AuthMessage(user, pass)| == 3 + |user| + |pass|;
    AuthenticationIsAnswered(s, AuthMessage(user, pass), w0, t);
    AuthWriteNow(t.view);
    PendingFits(t.state, t.view);
    ReplyIsSent(t, w1, u);
  }

  lemma AuthWriteNow(v: View)
    requires InAuthWrite(v)
    ensures v.rb == AfterAuth(v.h.received, v.chosen) && v.clientRow.Some? && In(AuthWrite, v) && v.chosen == 2
    ensures Replies(v) == [5, 2] + [1, v.authStatus]
  {
    hide ParseNeg, ParseAuth, AfterNeg, AfterAuth, Base, Authorised;
  }

  /** What a client that was let in has sent, and got, before its request. */
  ghost function SentSoFar(methods: seq<byte>, user: seq<byte>, pass: seq<byte>, chosen: byte): (s: seq<byte>)
    requires |methods| <= 255 && |user| <= 255 && |pass| <= 255
  {
    [5, |methods| as byte] + methods + if chosen == 2 then AuthMessage(user, pass) else []
  }

  ghost function GotSoFar(chosen: byte): (s: seq<byte>) {
    [5, chosen] + if chosen == 2 then [1, 0] else []
  }

  lemma RequestIsServed(s: Snapshot, t: Snapshot, u: Snapshot, methods: seq<byte>, user: seq<byte>, pass: seq<byte>, atyp: byte, addr: seq<byte>, port: int,
                        w0: World, w1: World, local: SockAddr)
    requires Resting(s) && Resting(t) && s.state.ReqRead? && In(s.state, s.view)
    requires |methods| <= 255 && |user| <= 255 && |pass| <= 255 && WellFormed(atyp, addr, port) && (atyp == 1 || atyp == 4)
    requires s.view.h.received == SentSoFar(methods, user, pass, s.view.chosen) && s.view.h.sent == GotSoFar(s.view.chosen)
    requires w0.connects != [] && w0.connects[0] == Connected(true, Some(local)) && ValidAddr(local) && !local.OtherFamily?
    requires EventStep(s, Sends(RequestMessage(1, atyp, addr, port), w0), t) && TakesReplies(w1) && EventStep(t, ClientWritable([], w1), u)
    ensures u.state.Relaying? && u.view.h.sent == GotSoFar(s.view.chosen) + u.view.h.reply && ReadRequestReply(u.view.h.reply) == Some((0, local, []))
  {
    hide In, Resting, EventStep, ParseNeg, ParseAuth, ParseReq, AfterNeg, AfterAuth, Kept, InReqWrite, Payload, ReadRequestReply, AuthMessage, ReqOver;
    var request := RequestMessage(1, atyp, addr, port);
    var chosen := s.view.chosen;
    HandshakeExact(methods, user, pass, 1, atyp, addr, port, [], chosen);
    assert s.view.h.received + request ==
           [5, |methods| as byte] + methods + (if chosen == 2 then AuthMessage(user, pass) else []) + request + [];
    ReadsNow(s);
    ConnectIsAnswered(s, request, w0, t, local);
    ReqWriteNow(t.view);
    PendingFits(t.state, t.view);
    ReplyIsSent(t, w1, u);
  }

  /** A client that offers no authentication, where there are no users, is served likewise. */
  lemma AnonymousIsServed(run: seq<Snapshot>, methods: seq<byte>, atyp: byte, addr: seq<byte>, port: int, worlds: seq<World>, local: SockAddr)
    requires |run| == 5 && |worlds| == 4 && |methods| <= 255 && 0 in methods
    requires WellFormed(atyp, addr, port) && (atyp == 1 || atyp == 4) && ValidAddr(local) && !local.OtherFamily?
    requires EventStep(run[0], Sends([5, |methods| as byte] + methods, worlds[0]), run[1]) && EventStep(run[1], ClientWritable([], worlds[1]), run[2])
    requires EventStep(run[2], Sends(RequestMessage(1, atyp, addr, port), worlds[2]), run[3]) && EventStep(run[3], ClientWritable([], worlds[3]), run[4])
    requires forall i :: 0 <= i < |run| ==> Resting(run[i])
    requires run[0].state.NegRead? && run[0].view.clientRow.Some? && run[0].view.h == NO_HISTORY
    requires worlds[0].store == [] && TakesReplies(worlds[1]) && TakesReplies(worlds[3])
    requires worlds[2].connects != [] && worlds[2].connects[0] == Connected(true, Some(local))
    ensures run[4].state.Relaying? && run[4].view.h.sent == [5, 0] + run[4].view.h.reply && ReadRequestReply(run[4].view.h.reply) == Some((0, local, []))
  {
    hide In, Resting, EventStep, ParseNeg, ParseAuth, AfterNeg, AfterAuth, TakesReplies, ReadRequestReply, AuthMessage, RequestMessage;
    OfferIsServed(run[0], run[1], run[2], methods, worlds[0], worlds[1], 0);
    assert [5, |methods| as byte] + methods + [] == [5, |methods| as byte] + methods;
    RequestIsServed(run[2], run[3], run[4], methods, [], [], atyp, addr, port, worlds[2], worlds[3], local);
  }

  lemma ReqWriteNow(v: View)
    requires InReqWrite(v)
    ensures v.rb == Payload(v.h.received, v.chosen) && v.clientRow.Some? && In(ReqWrite, v)
    ensures Replies(v) == GotSoFar(v.chosen) + v.h.reply
  {
    hide ParseReq, Payload, Obeyed, Faults, Authorised, AfterAuth, AuthOver, SuccessReply, FailureReply;
  }

  // ----------------------------------------------------------------------------------- the relay

  /** The sends take everything. */
  ghost predicate TakesAll(sends: seq<SendResult>, pending: nat) {
    Capacity(sends, Willing(sends)) >= pending
  }

  lemma Relays(v: View)
    requires InRelay(v)
    ensures Base(v) && v.h.relayed && v.clientRow == Some(v.clientInterest) && v.originRow == Some(v.originInterest)
    ensures v.h.toOrigin + v.rb == Payload(v.h.received, v.chosen) && v.h.sent + v.wb == Replies(v) + v.h.fromOrigin
  {
    hide Payload, Replies, ReqOver, Authorised, Answers, Obeyed, Faults;
  }

  /** What a relay has sent and still holds, also when it has just ended. */
  lemma RelayHolds(n: StateId, m: View)
    requires In(n, m) && (n.Relaying? || n.Finished? || n.Failed?)
    ensures m.h.relayed ==> m.h.toOrigin + m.rb == Payload(m.h.received, m.chosen)
    ensures m.h.sent + m.wb == Replies(m) + m.h.fromOrigin
  {
    hide Payload, Replies, ReqOver, Authorised, Answers, Obeyed, Faults, SuccessReply, FailureReply;
  }

  /** Bytes the client sends reach the origin, in order and at once, when its socket takes them. */
  lemma ClientReachesOrigin(s: Snapshot, bytes: seq<byte>, world: World, t: Snapshot)
    requires Resting(s) && s.state.Relaying? && s.view.clientRow.Some? && s.view.clientInterest.read && bytes != []
    requires TakesAll(world.sends, |s.view.rb| + |bytes|) && EventStep(s, Sends(bytes, world), t)
    ensures t.state.Relaying? && t.view.rb == [] && |s.view.rb| <= s.view.rbCap
    ensures t.view.h.received == s.view.h.received + Taken(Offered(bytes), s.view.rbCap - |s.view.rb|)
    ensures t.view.h.toOrigin == Payload(t.view.h.received, t.view.chosen)
  {
    hide Payload, Replies, In, InRelay, RelayReadDone, TakesAll, Resting, EventStep, Base;
    var m := RelayHasRead(s, true, Offered(bytes), world, t);
    Forwarded(s.view, m, true, bytes, world.sends, t.state);
    RelayHolds(t.state, m);
    StillRelayed(t.state, m);
  }

  /** A read event of the relay, taken apart. */
  lemma RelayHasRead(s: Snapshot, fromClient: bool, r: RecvResult<byte>, world: World, t: Snapshot) returns (m: View)
    requires Resting(s) && s.state.Relaying? && s.view.clientRow.Some?
    requires if fromClient then s.view.clientInterest.read else s.view.originInterest.read
    requires EventStep(s, if fromClient then ClientReadable([r], world) else OriginReadable([r], world), t)
    ensures RelayReadDone(s.view, m, fromClient, r, world.sends, t.state) && In(t.state, m)
    ensures t.view == if t.state.Failed? || t.state.Finished? then Closed(m) else m
    ensures |s.view.rb| <= s.view.rbCap && |s.view.wb| <= s.view.wbCap
    ensures if fromClient then |s.view.rb| < s.view.rbCap && !s.view.clientClosed else |s.view.wb| < s.view.wbCap && !s.view.originClosed
  {
    hide Payload, Replies, In, AdvanceDone, InRelay, RelayReadDone, Base;
    InRelayNow(s);
    Relays(s.view);
    RelayWindow(s.view);
    var n: StateId;
    n, m :| RelayReadDone(s.view, m, fromClient, r, world.sends, n) && Rested(n, m)
            && AdvanceDone(n, m, NothingYet, world, t.state, t.view);
    SettledAtOnce(n, m, NothingYet, world, t);
  }

  /** relay_read on a side with room, when the sends take everything: nothing stays behind. */
  lemma Forwarded(v: View, m: View, fromClient: bool, bytes: seq<byte>, sends: seq<SendResult>, n: StateId)
    requires RelayReadDone(v, m, fromClient, Offered(bytes), sends, n) && bytes != []
    requires if fromClient then |v.rb| < v.rbCap && !v.clientClosed && TakesAll(sends, |v.rb| + |bytes|)
             else |v.wb| < v.wbCap && !v.originClosed && TakesAll(sends, |v.wb| + |bytes|)
    ensures n.Relaying?
    ensures fromClient ==> m.rb == [] && m.h.received == v.h.received + Taken(Offered(bytes), v.rbCap - |v.rb|)
    ensures !fromClient ==> m.wb == [] && m.h.fromOrigin == v.h.fromOrigin + Taken(Offered(bytes), v.wbCap - |v.wb|)
  {
    hide RelayPassed, TakesAll;
    if fromClient {
      PassesAll(v.rb, m.rb, v.rbCap - |v.rb|, bytes, sends, n);
    } else {
      PassesAll(v.wb, m.wb, v.wbCap - |v.wb|, bytes, sends, n);
    }
  }

  lemma PassesAll(before: seq<byte>, after: seq<byte>, room: nat, bytes: seq<byte>, sends: seq<SendResult>, n: StateId)
    requires RelayPassed(before, after, Taken(Offered(bytes), room), Offered(bytes), sends, n)
    requires bytes != [] && room > 0 && TakesAll(sends, |before| + |bytes|)
    ensures after == [] && !n.Failed?
  {
    hide FlushCount;
    FlushIsCapacity(|before| + |Taken(Offered(bytes), room)|, sends);
  }

  lemma InRelayNow(s: Snapshot)
    requires Resting(s) && s.state.Relaying? && s.view.clientRow.Some?
    ensures InRelay(s.view) && |s.view.rb| <= s.view.rbCap && |s.view.wb| <= s.view.wbCap
  {
    hide Payload, Replies, ReqOver, Authorised, Answers, Obeyed, Faults;
  }

  lemma StillRelayed(n: StateId, m: View)
    requires In(n, m) && n.Relaying?
    ensures m.h.relayed && !(m.clientClosed && m.rb == [] && m.originClosed && m.wb == [])
  {
    hide Payload, Replies, ReqOver, Authorised, Answers, Obeyed, Faults;
  }

  /** Bytes the origin sends reach the client, in order after the replies and at once, when its socket takes them. */
  lemma OriginReachesClient(s: Snapshot, bytes: seq<byte>, world: World, t: Snapshot)
    requires Resting(s) && s.state.Relaying? && s.view.clientRow.Some? && s.view.originInterest.read && bytes != []
    requires TakesAll(world.sends, |s.view.wb| + |bytes|) && EventStep(s, OriginReadable([Offered(bytes)], world), t)
    ensures t.state.Relaying? && t.view.wb == [] && |s.view.wb| <= s.view.wbCap
    ensures t.view.h.fromOrigin == s.view.h.fromOrigin + Taken(Offered(bytes), s.view.wbCap - |s.view.wb|)
    ensures t.view.h.sent == Replies(t.view) + t.view.h.fromOrigin
  {
    hide Payload, Replies, In, InRelay, RelayReadDone, TakesAll, Resting, EventStep, Base;
    var m := RelayHasRead(s, false, Offered(bytes), world, t);
    Forwarded(s.view, m, false, bytes, world.sends, t.state);
    RelayHolds(t.state, m);
    StillRelayed(t.state, m);
  }

  /** What was held back for a side is sent, all of it, when its socket takes it. */
  lemma HeldBytesAreSent(s: Snapshot, toClient: bool, world: World, t: Snapshot)
    requires Resting(s) && s.state.Relaying? && s.view.clientRow.Some?
    requires if toClient then s.view.clientInterest.write && TakesAll(world.sends, |s.view.wb|) else s.view.originInterest.write && TakesAll(world.sends, |s.view.rb|)
    requires EventStep(s, if toClient then ClientWritable([], world) else OriginWritable(None, None, world), t)
    ensures t.state.Relaying? || t.state.Finished?
    ensures toClient ==> t.view.wb == [] && t.view.h.sent == Replies(t.view) + t.view.h.fromOrigin
    ensures !toClient && t.view.h.relayed ==> t.view.rb == [] && t.view.h.toOrigin == Payload(t.view.h.received, t.view.chosen)
  {
    hide Payload, Replies, In, InRelay, RelayWriteDone, TakesAll, Resting, EventStep, Base;
    var m := RelayHasWritten(s, toClient, world, t);
    Drained(s.view, m, toClient, world.sends, t.state);
    RelayHolds(t.state, m);
    ClosedReplies(m);
  }

  /** A write event of the relay, taken apart. */
  lemma RelayHasWritten(s: Snapshot, toClient: bool, world: World, t: Snapshot) returns (m: View)
    requires Resting(s) && s.state.Relaying? && s.view.clientRow.Some?
    requires if toClient then s.view.clientInterest.write else s.view.originInterest.write
    requires EventStep(s, if toClient then ClientWritable([], world) else OriginWritable(None, None, world), t)
    ensures RelayWriteDone(s.view, m, toClient, world.sends, t.state) && In(t.state, m)
    ensures t.view == if t.state.Failed? || t.state.Finished? then Closed(m) else m
  {
    hide Payload, Replies, AdvanceDone, InRelay, RelayWriteDone, Base;
    hide InNegRead, InNegWrite, InAuthRead, InAuthWrite, InReqRead, InReqResolve, InReqConnecting, InReqWrite, Delivered;
    InRelayNow(s);
    Relays(s.view);
    var send := if toClient then First(world.sends, NotNow) else NotNow;
    var n: StateId;
    n, m :| WriteDone(s.state, s.view, m, toClient, send, None, None, world, n) && In(n, m)
            && AdvanceDone(n, m, NothingYet, world, t.state, t.view);
    RelayedOn(n, s.view, m, toClient, world.sends);
    SettledAtOnce(n, m, NothingYet, world, t);
  }

  lemma RelayedOn(n: StateId, v: View, m: View, toClient: bool, sends: seq<SendResult>)
    requires RelayWriteDone(v, m, toClient, sends, n)
    ensures !IsReadState(n)
  {}

  lemma ClosedReplies(m: View)
    ensures Replies(Closed(m)) == Replies(m)
  {}

  lemma Drained(v: View, m: View, toClient: bool, sends: seq<SendResult>, n: StateId)
    requires RelayWriteDone(v, m, toClient, sends, n) && TakesAll(sends, if toClient then |v.wb| else |v.rb|)
    ensures (n.Relaying? || n.Finished?) && (if toClient then m.wb == [] else m.rb == [])
  {
    hide FlushCount;
    FlushIsCapacity(if toClient then |v.wb| else |v.rb|, sends);
  }

  /** When a side has ended and all it sent has been passed on, the other side is told, once; when both have, the
  connection ends with everything delivered. */
  lemma EndIsPassedOn(s: Snapshot, fromClient: bool, world: World, t: Snapshot)
    requires Resting(s) && Resting(t) && s.state.Relaying? && s.view.clientRow.Some?
    requires if fromClient then s.view.clientInterest.read && s.view.rb == [] else s.view.originInterest.read && s.view.wb == []
    requires EventStep(s, if fromClient then ClientReadable([PeerClosed], world) else OriginReadable([PeerClosed], world), t)
    ensures t.state.Relaying? ==> if fromClient then t.view.h.originShuts == 1 else t.view.h.clientShuts == 1
    ensures t.state.Finished? <==> if fromClient then s.view.originClosed && s.view.wb == [] else s.view.clientClosed && s.view.rb == []
    ensures t.state.Finished? ==> t.view.clientRow.None? && Delivered(t.view)
  {
    hide Payload, Replies, AdvanceDone, InRelayCore, Delivered, Base;
    InRelayNow(s);
    Relays(s.view);
    var n: StateId, m: View :| RelayReadDone(s.view, m, fromClient, PeerClosed, world.sends, n) && Rested(n, m)
                               && AdvanceDone(n, m, NothingYet, world, t.state, t.view);
    assert RelayReadDone(s.view, m, fromClient, PeerClosed, world.sends, n);
    SettledAtOnce(n, m, NothingYet, world, t);
    if n.Relaying? {
      ShutNow(m);
    }
  }

  lemma ShutNow(v: View)
    requires InRelay(v)
    ensures v.clientClosed && v.rb == [] ==> v.h.originShuts == 1
    ensures v.originClosed && v.wb == [] ==> v.h.clientShuts == 1
  {
    hide Payload, Replies, ReqOver, Authorised, Answers, Obeyed, Faults;
  }

  // --------------------------------------------------------------------- names, connects, time-outs

  /** Candidates tried in order, the first `k` of `n` being unusable: the next one decides, and if it connects the reply is
  success with the local address; if it is under way the rest is left; if none is usable the reply has the last one's
  code, or the code there was. */
  ghost predicate TriedInOrder(connects: seq<ConnectResult>, n: nat, k: nat, last: byte, state: StateId, v: View)
    requires k <= n
  {
    && (k < n ==>
          var c := Candidate(connects, k);
          && (c.Connected? && c.registered && Reportable(c.local) ==> state.ReqWrite? && v.connected && ReadRequestReply(v.h.reply) == Some((0, c.local.value, [])))
          && (c.Connected? && !(c.registered && Reportable(c.local)) ==> state.ReqWrite? && Refusal(v, 1))
          && (c.InProgress? ==> if c.registered then state.ReqConnecting? && v.candidates == n - k - 1 else state.ReqWrite? && Refusal(v, 1)))
    && (k == n ==> state.ReqWrite? && Refusal(v, if n == 0 then last else var c := Candidate(connects, n - 1); if c.Unusable? then c.rep else last))
  }

  lemma EndedInOrder(connects: seq<ConnectResult>, n: nat, k: nat, last: byte, state: StateId, v: View)
    requires k <= n && (forall i :: 0 <= i < k ==> Candidate(connects, i).Unusable?) && ConnectEnded(state, v, connects, n, last)
    ensures TriedInOrder(connects, n, k, last, state, v)
  {
    hide FailReply, AddrReply, ReadRequestReply, FirstUsable;
    FirstUsableIsFirst(connects, 0, n);
    FailReplyShape(1);
    FailReplyShape(LastRep(connects, n, last));
    if k < n && Candidate(connects, k).Connected? && Reportable(Candidate(connects, k).local) {
      ReadsBack(Candidate(connects, k).local.value);
    }
  }

  /** The addresses found for a name are tried in order. */
  lemma AddressesAreTried(s: Snapshot, n: nat, k: nat, world: World, t: Snapshot)
    requires s.state.ReqResolve? && s.view.clientRow.Some? && k <= n && EventStep(s, Woken(Addresses(n), world), t)
    requires forall i :: 0 <= i < k ==> Candidate(world.connects, i).Unusable?
    ensures TriedInOrder(world.connects, n, k, s.lastRep, t.state, t.view)
  {
    hide TriedInOrder, ConnectEnded;
    EndedInOrder(world.connects, n, k, s.lastRep, t.state, t.view);
  }

  /** When a connect under way fails, the addresses left are tried in order. */
  lemma FailedConnectTriesOn(s: Snapshot, rep: byte, local: Option<SockAddr>, k: nat, world: World, t: Snapshot)
    requires Resting(s) && s.state.ReqConnecting? && s.view.clientRow.Some? && k <= s.view.candidates
    requires EventStep(s, OriginWritable(Some(rep), local, world), t)
    requires forall i :: 0 <= i < k ==> Candidate(world.connects, i).Unusable?
    ensures TriedInOrder(world.connects, s.view.candidates, k, rep, t.state, t.view)
  {
    hide TriedInOrder, ConnectEnded, AdvanceDone, Requested, Base;
    var n: StateId, m: View :| WriteDone(s.state, s.view, m, false, NotNow, Some(rep), local, world, n) && In(n, m)
                               && AdvanceDone(n, m, NothingYet, world, t.state, t.view);
    assert ConnectingDone(s.view, m, Some(rep), local, world, n);
    EndedNext(n, m, world.connects, s.view.candidates, rep);
    SettledAtOnce(n, m, NothingYet, world, t);
    EndedInOrder(world.connects, s.view.candidates, k, rep, n, m);
  }

  lemma EndedNext(n: StateId, m: View, connects: seq<ConnectResult>, count: nat, last: byte)
    requires ConnectEnded(n, m, connects, count, last)
    ensures n.ReqWrite? || n.ReqConnecting?
  {
    hide FirstUsable, Refused;
    FirstUsableIsFirst(connects, 0, count);
  }

  lemma ReadsBack(local: SockAddr)
    requires ValidAddr(local) && !local.OtherFamily?
    ensures ReadRequestReply(AddrReply(REP_SUCCESS, local)) == Some((0, local, []))
  {
    hide AddrReply, ReadRequestReply;
    AddrReplyReadsBack(REP_SUCCESS, local, []);
    assert AddrReply(REP_SUCCESS, local) + [] == AddrReply(REP_SUCCESS, local);
  }

  /** A name that was not found is a general failure. */
  lemma NotFoundIsAnswered(s: Snapshot, world: World, t: Snapshot)
    requires s.state.ReqResolve? && s.view.clientRow.Some? && EventStep(s, Woken(NoAddress, world), t)
    ensures t.state.ReqWrite? && Refusal(t.view, 1)
  {
    hide FailReply;
    FailReplyShape(1);
  }

  /** A connect that completes is answered with success and the local address. */
  lemma CompletedConnectIsAnswered(s: Snapshot, local: SockAddr, world: World, t: Snapshot)
    requires Resting(s) && s.state.ReqConnecting? && s.view.clientRow.Some? && ValidAddr(local) && !local.OtherFamily?
    requires EventStep(s, OriginWritable(None, Some(local), world), t)
    ensures t.state.ReqWrite? && t.view.connected && ReadRequestReply(t.view.h.reply) == Some((0, local, []))
  {
    hide AddrReply, ReadRequestReply, AdvanceDone, Requested, Base;
    var n: StateId, m: View :| WriteDone(s.state, s.view, m, false, NotNow, None, Some(local), world, n) && In(n, m)
                               && AdvanceDone(n, m, NothingYet, world, t.state, t.view);
    assert ConnectingDone(s.view, m, None, Some(local), world, n);
    SettledAtOnce(n, m, NothingYet, world, t);
    ReadsBack(local);
  }

  /** A connection that has been idle too long is told so while it connects, given up while its name is looked up, and
  closed otherwise. */
  lemma ExpiredIsEnded(s: Snapshot, t: Snapshot)
    requires s.view.clientRow.Some? && EventStep(s, ReapExpired, t)
    ensures s.state.ReqConnecting? ==> t.state.ReqWrite? && Refusal(t.view, 6)
    ensures s.state.ReqResolve? ==> t.state.ReqWrite? && Refusal(t.view, 1)
    ensures !s.state.ReqConnecting? && !s.state.ReqResolve? ==> t.view.clientRow.None? && t.view.originRow.None? && t.view.h == s.view.h
  {
    hide FailReply;
    FailReplyShape(6);
    FailReplyShape(1);
  }

  // ------------------------------------------------------------------------------ nothing is taken back

  /** Each of the four streams has only been added to. */
  ghost predicate Extends(v: View, u: View) {
    v.h.received <= u.h.received && v.h.sent <= u.h.sent && v.h.fromOrigin <= u.h.fromOrigin && v.h.toOrigin <= u.h.toOrigin
  }

  /** Over any part of any run, what was received and sent on either side stays, and is only added to. */
  lemma {:induction false} StreamsOnlyGrow(run: seq<Snapshot>, events: seq<Event>, i: nat, j: nat)
    requires Run(run, events) && (forall k :: 0 <= k < |run| ==> Resting(run[k])) && i <= j < |run|
    ensures Extends(run[i].view, run[j].view)
    decreases j - i
  {
    hide Resting, EventStep;
    if i < j {
      StreamsOnlyGrow(run, events, i, j - 1);
      EventGrows(run[j - 1], events[j - 1], run[j]);
    }
  }

  lemma EventGrows(s: Snapshot, e: Event, t: Snapshot)
    requires Resting(s) && Resting(t) && EventStep(s, e, t)
    ensures Extends(s.view, t.view)
  {
    hide In, ReadDone, WriteDone, AdvanceDone, Extends, ResolveDone;
    if !Reaches(s, e) {
      Unmoved(s.view, s.view);
    } else {
      match e {
        case ClientReadable(recvs, world) => ReadEventGrows(s, true, recvs, world, t);
        case OriginReadable(recvs, world) => ReadEventGrows(s, false, recvs, world, t);
        case ClientWritable(recvs, world) => WriteEventGrows(s, true, First(world.sends, NotNow), None, None, recvs, world, t);
        case OriginWritable(soError, local, world) => WriteEventGrows(s, false, NotNow, soError, local, [], world, t);
        case Woken(resolution, world) => ResolveGrows(s, resolution, world, t);
        case ReapCompleted(resolution, world) => ResolveGrows(s, resolution, world, t);
        case ReapExpired => ExpiryGrows(s, t);
      }
    }
  }

  lemma Unmoved(v: View, u: View)
    requires u.h.received == v.h.received && v.h.sent <= u.h.sent && v.h.fromOrigin <= u.h.fromOrigin && v.h.toOrigin <= u.h.toOrigin
    ensures Extends(v, u) && Extends(v, Closed(u))
  {}

  /** Before the relay there is nothing of the origin's. */
  lemma NothingRelayed(s: StateId, v: View)
    requires In(s, v) && !s.Relaying? && !s.Finished? && !s.Failed?
    ensures v.h.fromOrigin == [] && v.h.toOrigin == []
  {
    hide ParseNeg, ParseAuth, ParseReq, AfterNeg, AfterAuth, AuthOver, Payload, ReqOver, Authorised, Answers, Obeyed, Faults, Replies, SuccessReply, FailureReply;
  }

  lemma ResolveGrows(s: Snapshot, resolution: Resolution, world: World, t: Snapshot)
    requires In(s.state, s.view) && s.state.ReqResolve? && ResolveDone(s.view, t.view, resolution, world, s.lastRep, t.state)
    ensures Extends(s.view, t.view)
  {
    hide In, ConnectEnded, Refused;
    NothingRelayed(s.state, s.view);
  }

  lemma ExpiryGrows(s: Snapshot, t: Snapshot)
    requires In(s.state, s.view) && !s.state.Finished? && !s.state.Failed? && ExpireEvent(s, t)
    ensures Extends(s.view, t.view)
  {
    hide In, Refused;
    if s.state.ReqConnecting? || s.state.ReqResolve? {
      NothingRelayed(s.state, s.view);
    }
  }

  lemma AdvanceGrows(n: StateId, m: View, r: RecvResult<byte>, world: World, t: StateId, u: View)
    requires In(n, m) && AdvanceDone(n, m, r, world, t, u)
    ensures Extends(m, u)
  {
    hide In, ReadDone;
    if IsReadState(n) && m.rb != [] {
      var n': StateId, m': View :| ReadDone(n, m, m', true, r, world, n') && Rested(n', m') && Settled(n', m', t, u);
      ReadGrows(n, m, m', true, r, world, n');
    }
  }

  lemma ReadEventGrows(s: Snapshot, fromClient: bool, recvs: seq<RecvResult<byte>>, world: World, t: Snapshot)
    requires In(s.state, s.view) && ReadEvent(s, fromClient, recvs, world, t)
    ensures Extends(s.view, t.view)
  {
    hide In, ReadDone, AdvanceDone;
    var n: StateId, m: View :| ReadDone(s.state, s.view, m, fromClient, First(recvs, NothingYet), world, n) && Rested(n, m)
                               && AdvanceDone(n, m, First(Rest(recvs), NothingYet), world, t.state, t.view);
    ReadGrows(s.state, s.view, m, fromClient, First(recvs, NothingYet), world, n);
    AdvanceGrows(n, m, First(Rest(recvs), NothingYet), world, t.state, t.view);
  }

  lemma WriteEventGrows(s: Snapshot, toClient: bool, send: SendResult, soError: Option<byte>, local: Option<SockAddr>,
                        recvs: seq<RecvResult<byte>>, world: World, t: Snapshot)
    requires In(s.state, s.view) && WriteEvent(s, toClient, send, soError, local, recvs, world, t)
    ensures Extends(s.view, t.view)
  {
    hide In, WriteDone, AdvanceDone;
    var n: StateId, m: View :| WriteDone(s.state, s.view, m, toClient, send, soError, local, world, n) && In(n, m)
                               && AdvanceDone(n, m, First(recvs, NothingYet), world, t.state, t.view);
    WriteGrows(s.state, s.view, m, toClient, send, soError, local, world, n);
    AdvanceGrows(n, m, First(recvs, NothingYet), world, t.state, t.view);
  }

  lemma InRelayOf(v: View)
    requires In(Relaying, v)
    ensures InRelay(v)
  {
    hide InRelay;
  }

  lemma ReadGrows(s: StateId, v: View, u: View, fromClient: bool, r: RecvResult<byte>, world: World, next: StateId)
    requires In(s, v) && In(next, u) && ReadDone(s, v, u, fromClient, r, world, next)
    ensures Extends(v, u)
  {
    hide In, RelayReadDone, ParseNeg, ParseAuth, ParseReq, Processed, Accepts, Kept, ChosenByOffer, ChooseMethod;
    if s.Relaying? {
      InRelayOf(v);
      RelayReadGrows(v, u, fromClient, r, world.sends, next);
    } else {
      NothingRelayed(s, v);
    }
  }

  lemma WriteGrows(s: StateId, v: View, u: View, toClient: bool, send: SendResult, soError: Option<byte>, local: Option<SockAddr>, world: World, next: StateId)
    requires In(s, v) && In(next, u) && WriteDone(s, v, u, toClient, send, soError, local, world, next)
    ensures Extends(v, u)
  {
    hide In, RelayWriteDone, ConnectEnded, Announced, AfterSend, ReplyNext;
    if s.Relaying? {
      InRelayOf(v);
      RelayWriteGrows(v, u, toClient, world.sends, next);
    } else {
      NothingRelayed(s, v);
    }
  }

  /** What a relay holds for either side, before and after. */
  lemma Held(next: StateId, v: View, u: View)
    requires InRelay(v) && In(next, u) && (next.Relaying? || next.Finished? || next.Failed?) && SameHandshake(v, u) && v.h.received <= u.h.received
    ensures ReqOver(v.h.received, v.chosen)
    ensures v.h.toOrigin + v.rb == Payload(v.h.received, v.chosen) && u.h.toOrigin + u.rb == Payload(u.h.received, v.chosen)
    ensures v.h.sent + v.wb == Replies(v) + v.h.fromOrigin && u.h.sent + u.wb == Replies(v) + u.h.fromOrigin
  {
    hide In, InRelay, Payload, Replies, ReqOver, Base;
    Relays(v);
    RelayHolds(next, u);
    RepliesSame(v, u);
    RelayOver(v);
  }

  lemma RelayOver(v: View)
    requires Base(v) && v.h.relayed
    ensures ReqOver(v.h.received, v.chosen)
  {
    hide Payload, Replies, ReqOver, Authorised, Answers, Obeyed, Faults;
  }

  /** What is no longer held has been sent, in order. */
  lemma Gone(before: seq<byte>, after: seq<byte>, held: seq<byte>, n: nat)
    requires n <= |held| && after + held[n..] == before + held
    ensures after == before + held[..n]
  {
    assert |after| == |before| + n;
    assert (before + held)[..|after|] == (after + held[n..])[..|after|] == after;
    assert (before + held)[..|before| + n] == before + held[..n];
  }

  lemma RelayReadGrows(v: View, u: View, fromClient: bool, r: RecvResult<byte>, sends: seq<SendResult>, next: StateId)
    requires InRelay(v) && In(next, u) && RelayReadDone(v, u, fromClient, r, sends, next)
    ensures Extends(v, u)
  {
    hide In, InRelay, Payload, Replies, ReqOver, RelayPassed;
    Held(next, v, u);
    if fromClient {
      var chunk := Taken(r, v.rbCap - |v.rb|);
      PayloadGrows(v.h.received, v.chosen, chunk);
      Gone(v.h.sent, u.h.sent, v.wb, 0);
      PassedOn(v.h.toOrigin, u.h.toOrigin, v.rb, u.rb, chunk, r, sends, next);
    } else {
      var chunk := Taken(r, v.wbCap - |v.wb|);
      Gone(v.h.toOrigin, u.h.toOrigin, v.rb, 0);
      Joined(v.h.sent, v.wb, Replies(v), v.h.fromOrigin, chunk);
      PassedOn(v.h.sent, u.h.sent, v.wb, u.wb, chunk, r, sends, next);
    }
  }

  lemma Joined(sent: seq<byte>, held: seq<byte>, replies: seq<byte>, origin: seq<byte>, chunk: seq<byte>)
    requires sent + held == replies + origin
    ensures replies + (origin + chunk) == sent + held + chunk
  {
    assert replies + (origin + chunk) == replies + origin + chunk;
  }

  lemma PassedOn(before: seq<byte>, after: seq<byte>, held: seq<byte>, left: seq<byte>, chunk: seq<byte>, r: RecvResult<byte>, sends: seq<SendResult>, next: StateId)
    requires RelayPassed(held, left, chunk, r, sends, next) && after + left == before + held + chunk
    ensures before <= after
  {
    hide FlushCount;
    assert before + held + chunk == before + (held + chunk);
    var n := if chunk == [] then 0 else FlushCount(|held| + |chunk|, sends).0;
    assert left == (held + chunk)[n..];
    Gone(before, after, held + chunk, n);
  }

  lemma RelayWriteGrows(v: View, u: View, toClient: bool, sends: seq<SendResult>, next: StateId)
    requires InRelay(v) && In(next, u) && RelayWriteDone(v, u, toClient, sends, next)
    ensures Extends(v, u)
  {
    hide In, InRelay, Payload, Replies, ReqOver, FlushCount;
    Held(next, v, u);
    Gone(v.h.sent, u.h.sent, v.wb, if toClient then FlushCount(|v.wb|, sends).0 else 0);
    Gone(v.h.toOrigin, u.h.toOrigin, v.rb, if toClient then 0 else FlushCount(|v.rb|, sends).0);
  }
}
