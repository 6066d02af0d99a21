/** One SMCP connection (src/server/mgmt.c:338-450): framing, back-pressure and flushing.

Between two events other sessions and the proxy may change the shared state at will; an exchange records
what it was when the line was obeyed. */
module MgmtSession {
  import opened Sequences
  import opened Buffers
  import opened Network
  import opened MgmtLine
  import opened MgmtReplies
  import opened MgmtCommands
  import opened MgmtHandler

  // ---------------------------------------------------------------------- what a session is

  /** What a framed line answers and changes. */
  ghost function Answered(d: Deps, auth: bool, v: Verdict): (o: Outcome) {
    match v
    case Ready(text) => Respond(d, auth, Words(text))
    case TooLong => Refuse(d, auth, "line too long")
    case Invalid => Refuse(d, auth, "invalid")
  }

  /** One line, and the shared state when it was obeyed. */
  datatype Exchange = Exchange(before: Deps, verdict: Verdict)

  /** Whether the session is authenticated after these exchanges. */
  ghost function AuthAfter(t: seq<Exchange>): (auth: bool) {
    t != [] && Answered(t[|t| - 1].before, AuthAfter(t[..|t| - 1]), t[|t| - 1].verdict).auth
  }

  ghost function OutcomeAt(t: seq<Exchange>, i: nat): (o: Outcome)
    requires i < |t|
  {
    Answered(t[i].before, AuthAfter(t[..i]), t[i].verdict)
  }

  ghost function QuitAfter(t: seq<Exchange>): (quit: bool) {
    t != [] && OutcomeAt(t, |t| - 1).quit
  }

  ghost function Replies(t: seq<Exchange>): (rs: seq<Reply>)
    ensures |rs| == |t|
  {
    if t == [] then [] else Replies(t[..|t| - 1]) + [OutcomeAt(t, |t| - 1).reply]
  }

  ghost function Verdicts(t: seq<Exchange>): (vs: seq<Verdict>)
    ensures |vs| == |t|
  {
    seq(|t|, i requires 0 <= i < |t| => t[i].verdict)
  }

  /** The abstract value of a connection. */
  datatype View = View(received: string, consumed: string, rest: string, partial: string, sent: string, pending: string,
                       auth: bool, closing: bool, trace: seq<Exchange>)

  /** The octets taken out of the read buffer are the lines answered and the current unfinished line; the
  octets sent and pending are the replies, whole and in order; only the last exchange may be a QUIT. */
  ghost predicate Inv(v: View) {
    && v.received == v.consumed + v.rest
    && Lines(v.consumed) == Verdicts(v.trace) && Partial(v.consumed) == v.partial
    && v.sent + v.pending == RenderAll(Replies(v.trace))
    && v.auth == AuthAfter(v.trace) && v.closing == QuitAfter(v.trace)
    && (forall i :: 0 <= i < |v.trace| ==> ValidDeps(v.trace[i].before))
    && (forall i :: 0 <= i < |v.trace| - 1 ==> !OutcomeAt(v.trace, i).quit)
  }

  lemma LineEndNone(s: string)
    requires '\n' !in s
    ensures LineEnd(s) == |s|
  {}

  /** The view after the unfinished line has grown by everything in the read buffer. */
  ghost function Grown(v: View): (r: View) {
    v.(consumed := v.consumed + v.rest, rest := [], partial := v.partial + v.rest)
  }

  lemma GrownOk(v: View)
    requires Inv(v) && '\n' !in v.rest
    ensures Inv(Grown(v))
  {
    hide Lines, Partial, RenderAll, Replies, Verdicts, AuthAfter, OutcomeAt, QuitAfter, ValidDeps;
    LinesAppend(v.consumed, v.rest);
    PartialClean(v.consumed);
    LinesNone(v.partial + v.rest);
    assert v.consumed + v.rest + [] == v.consumed + v.rest;
  }

  lemma PartialClean(s: string)
    ensures '\n' !in Partial(s)
  {}

  /** The view after one line has been answered. */
  ghost function Exchanged(v: View, k: nat, d: Deps): (r: View)
    requires k < |v.rest|
  {
    var line := v.partial + v.rest[..k];
    var t := v.trace + [Exchange(d, Classify(line))];
    var o := Answered(d, v.auth, Classify(line));
    v.(consumed := v.consumed + v.rest[..k + 1], rest := v.rest[k + 1..], partial := [],
       pending := Render(o.reply), auth := o.auth, closing := o.quit, trace := t)
  }

  /** The exchanges of `t` from `k` on were made one after the other, starting with the shared state `d0` and
  leaving `d1`: each line was obeyed in the state its predecessor left. */
  ghost predicate Chained(t: seq<Exchange>, k: nat, d0: Deps, d1: Deps)
    requires k <= |t|
  {
    && (k == |t| ==> d1 == d0)
    && (k < |t| ==> t[k].before == d0 && d1 == OutcomeAt(t, |t| - 1).deps)
    && forall i :: k < i < |t| ==> t[i].before == OutcomeAt(t, i - 1).deps
  }

  lemma ChainedNone(t: seq<Exchange>, d: Deps)
    ensures Chained(t, |t|, d, d)
  {}

  lemma ChainedOne(t: seq<Exchange>, e: Exchange)
    ensures Chained(t + [e], |t|, e.before, Answered(e.before, AuthAfter(t), e.verdict).deps)
  {
    hide Answered, AuthAfter, OutcomeAt;
    OutcomesGrow(t, e);
  }

  lemma OutcomesKept(t: seq<Exchange>, u: seq<Exchange>, i: nat)
    requires t <= u && i < |t|
    ensures OutcomeAt(u, i) == OutcomeAt(t, i)
  {
    hide Answered;
    assert u[..i] == t[..i];
  }

  lemma ChainedTrans(t: seq<Exchange>, u: seq<Exchange>, k: nat, d0: Deps, d1: Deps, d2: Deps)
    requires k <= |t| && t <= u && Chained(t, k, d0, d1) && Chained(u, |t|, d1, d2)
    ensures Chained(u, k, d0, d2)
  {
    hide OutcomeAt;
    forall i | k < i < |u|
      ensures u[i].before == OutcomeAt(u, i - 1).deps
    {
      if i <= |t| {
        OutcomesKept(t, u, i - 1);
      }
    }
    if k < |t| == |u| {
      OutcomesKept(t, u, |t| - 1);
    }
  }

  lemma OutcomesGrow(t: seq<Exchange>, e: Exchange)
    ensures var u := t + [e]; var o := Answered(e.before, AuthAfter(t), e.verdict);
            && OutcomeAt(u, |t|) == o && AuthAfter(u) == o.auth && QuitAfter(u) == o.quit
            && forall i :: 0 <= i < |t| ==> OutcomeAt(u, i) == OutcomeAt(t, i)
  {
    hide Answered;
    var u := t + [e];
    assert u[..|t|] == t;
    assert forall i :: 0 <= i < |t| ==> u[..i] == t[..i];
  }

  lemma RepliesGrow(t: seq<Exchange>, e: Exchange)
    ensures var u := t + [e]; var o := OutcomeAt(u, |t|);
            Replies(u) == Replies(t) + [o.reply] && RenderAll(Replies(u)) == RenderAll(Replies(t)) + Render(o.reply)
  {
    hide OutcomeAt, Render;
    var u := t + [e];
    assert u[..|t|] == t;
    var rs := Replies(t) + [OutcomeAt(u, |t|).reply];
    assert rs[..|t|] == Replies(t);
  }

  lemma TraceGrows(t: seq<Exchange>, e: Exchange)
    ensures var u := t + [e]; var o := Answered(e.before, AuthAfter(t), e.verdict);
            && AuthAfter(u) == o.auth && QuitAfter(u) == o.quit && Verdicts(u) == Verdicts(t) + [e.verdict]
            && RenderAll(Replies(u)) == RenderAll(Replies(t)) + Render(o.reply)
            && forall i :: 0 <= i < |t| ==> OutcomeAt(u, i) == OutcomeAt(t, i)
  {
    hide Answered, Render, RenderAll, Replies, AuthAfter, OutcomeAt, QuitAfter;
    OutcomesGrow(t, e);
    RepliesGrow(t, e);
  }

  lemma InvAuth(v: View)
    requires Inv(v)
    ensures v.auth == AuthAfter(v.trace)
  {}

  lemma ExchangedOk(v: View, k: nat, d: Deps)
    requires Inv(v) && !v.closing && v.pending == [] && k == LineEnd(v.rest) < |v.rest| && ValidDeps(d)
    ensures Inv(Exchanged(v, k, d))
  {
    hide Lines, Partial, RenderAll, Replies, Verdicts, AuthAfter, OutcomeAt, QuitAfter, ValidDeps, Classify, Answered, LineEnd, Render;
    var line := v.partial + v.rest[..k];
    PartialClean(v.consumed);
    LinesOne(line);
    LinesAppend(v.consumed, v.rest[..k + 1]);
    assert v.partial + v.rest[..k + 1] == line + ['\n'];
    assert v.consumed + v.rest == v.consumed + v.rest[..k + 1] + v.rest[k + 1..];
    TraceGrows(v.trace, Exchange(d, Classify(line)));
    LastQuit(v.trace);
    assert v.sent + v.pending == v.sent;
  }

  lemma LastQuit(t: seq<Exchange>)
    ensures t != [] ==> QuitAfter(t) == OutcomeAt(t, |t| - 1).quit
  {}

  /** The view after `n` octets have been sent. */
  ghost function Sent(v: View, n: nat): (r: View)
    requires n <= |v.pending|
  {
    v.(sent := v.sent + v.pending[..n], pending := v.pending[n..])
  }

  lemma SentOk(v: View, n: nat)
    requires Inv(v) && n <= |v.pending|
    ensures Inv(Sent(v, n))
  {
    hide Lines, Partial, RenderAll, Replies, Verdicts, AuthAfter, OutcomeAt, QuitAfter, ValidDeps;
    assert v.sent + v.pending[..n] + v.pending[n..] == v.sent + v.pending;
  }

  /** What sending `pending` octets comes to: how many go out, whether the connection survives, and the sends
  left over. */
  datatype Drained = Drained(n: nat, ok: bool, rest: seq<SendResult>)

  function Drain(pending: nat, sends: seq<SendResult>): (d: Drained)
    ensures d.n <= pending
    decreases |sends|
  {
    if pending == 0 then Drained(0, true, sends)
    else if sends == [] then Drained(0, true, [])
    else
      var m := SentCount(sends[0], pending);
      if sends[0].NotNow? then Drained(0, true, sends[1..])
      else if m == 0 then Drained(0, false, sends[1..])
      else
        var d := Drain(pending - m, sends[1..]);
        d.(n := m + d.n)
  }

  /** Progress of mgmt_flush: `n` octets of `all` sent, `rest` of the sends to come. */
  ghost predicate Draining(all: string, before: string, sends: seq<SendResult>, n: nat, rest: seq<SendResult>, left: string, sent: string) {
    && n <= |all| && left == all[n..] && sent == before + all[..n]
    && var d := Drain(|left|, rest); Drain(|all|, sends) == d.(n := n + d.n)
  }

  lemma DrainStart(all: string, before: string, sends: seq<SendResult>)
    ensures Draining(all, before, sends, 0, sends, all, before)
  {
    hide Drain;
    assert all[..0] == [] && all[0..] == all && before + [] == before;
  }

  lemma DrainStep(all: string, before: string, sends: seq<SendResult>, n: nat, rest: seq<SendResult>, left: string, sent: string)
    requires Draining(all, before, sends, n, rest, left, sent) && left != []
    ensures var s := if rest == [] then NotNow else rest[0];
            var later := if rest == [] then [] else rest[1..];
            var m := SentCount(s, |left|);
            && (s.NotNow? || m == 0 ==> Drain(|all|, sends) == Drained(n, s.NotNow?, later) && left == all[n..] && sent == before + all[..n])
            && (!s.NotNow? && m > 0 ==> Draining(all, before, sends, n + m, later, left[m..], sent + left[..m]))
  {
    hide Drain, SentCount;
    DrainUnfold(|left|, rest);
    var m := SentCount(if rest == [] then NotNow else rest[0], |left|);
    DrainPieces(all, before, n, m);
  }

  lemma DrainUnfold(pending: nat, sends: seq<SendResult>)
    requires pending > 0
    ensures var s := if sends == [] then NotNow else sends[0];
            var later := if sends == [] then [] else sends[1..];
            var m := SentCount(s, pending);
            && (s.NotNow? || m == 0 ==> Drain(pending, sends) == Drained(0, s.NotNow?, later))
            && (!s.NotNow? && m > 0 ==> Drain(pending, sends) == Drain(pending - m, later).(n := m + Drain(pending - m, later).n))
  {}

  lemma DrainPieces(all: string, before: string, n: nat, m: nat)
    requires n + m <= |all|
    ensures all[n..][m..] == all[n + m..] && before + all[..n] + all[n..][..m] == before + all[..n + m]
  {
    assert all[..n] + all[n..][..m] == all[..n + m];
  }

  lemma DrainEnd(all: string, before: string, sends: seq<SendResult>, n: nat, rest: seq<SendResult>, left: string, sent: string)
    requires Draining(all, before, sends, n, rest, left, sent) && left == []
    ensures Drain(|all|, sends) == Drained(n, true, rest) && left == all[n..] && sent == before + all[..n]
  {}

  // ------------------------------------------- what an event does, as a function of the sockets

  /** A connection and the shared state. */
  datatype Progress = Progress(view: View, deps: Deps)

  /** process_input_lines: with no output pending, the next line is obeyed, or an unfinished one taken in. */
  ghost function TakeLine(v: View, d: Deps): (p: Progress)
    ensures v.rest != [] && v.pending == [] ==> |p.view.rest| < |v.rest|
  {
    if v.rest == [] || v.pending != [] then Progress(v, d)
    else
      var k := LineEnd(v.rest);
      if k == |v.rest| then Progress(Grown(v), d)
      else Progress(Exchanged(v, k, d), Answered(d, v.auth, Classify(v.partial + v.rest[..k])).deps)
  }

  lemma TakeNothing(v: View, d: Deps)
    ensures v.rest == [] || v.pending != [] ==> TakeLine(v, d) == Progress(v, d)
  {}

  /** Whether process_and_flush goes round again. */
  ghost predicate GoesOn(ok: bool, v: View) {
    ok && v.pending == [] && !v.closing && v.rest != []
  }

  datatype Pumped = Pumped(view: View, deps: Deps, ok: bool)

  /** process_and_flush: lines are obeyed and their replies sent in turn, as far as the sends go. */
  ghost function Pump(v: View, d: Deps, sends: seq<SendResult>): (r: Pumped)
    decreases |v.rest|, |v.pending|
  {
    var p := TakeLine(v, d);
    var out := Drain(|p.view.pending|, sends);
    var w := Sent(p.view, out.n);
    if GoesOn(out.ok, w) then Pump(w, p.deps, out.rest) else Pumped(w, p.deps, out.ok)
  }

  /** `v`, `d` and `left` are where process_and_flush has come to. */
  ghost predicate Pumping(whole: Pumped, v: View, d: Deps, left: seq<SendResult>, ok: bool) {
    whole == if GoesOn(ok, v) then Pump(v, d, left) else Pumped(v, d, ok)
  }

  lemma PumpUnfold(v: View, d: Deps, sends: seq<SendResult>)
    ensures var p := TakeLine(v, d); var out := Drain(|p.view.pending|, sends);
            Pumping(Pump(v, d, sends), Sent(p.view, out.n), p.deps, out.rest, out.ok)
  {
    hide TakeLine, Drain, Sent;
  }

  /** It takes in nothing, and only adds to what has been sent and obeyed. */
  lemma {:induction false} PumpAdds(v: View, d: Deps, sends: seq<SendResult>)
    ensures var w := Pump(v, d, sends).view; w.received == v.received && v.sent <= w.sent && v.trace <= w.trace
    decreases |v.rest|, |v.pending|
  {
    hide Drain, Answered, Classify, LineEnd;
    var p := TakeLine(v, d);
    var out := Drain(|p.view.pending|, sends);
    var w := Sent(p.view, out.n);
    assert p.view.received == v.received && p.view.sent == v.sent && v.trace <= p.view.trace;
    if GoesOn(out.ok, w) {
      PumpAdds(w, p.deps, out.rest);
    }
  }

  /** `deps` is the shared state when the event is handled, whatever changed it meanwhile. */
  datatype Event = CanRead(deps: Deps, r: RecvResult<char>, sends: seq<SendResult>) | CanWrite(deps: Deps, sends: seq<SendResult>)

  const FRESH := View([], [], [], [], [], [], false, false, [])

  /** A connection between events. */
  datatype Snapshot = Snapshot(view: View, row: Option<Interest>, deps: Deps)

  /** What the descriptor waits for after an event. */
  ghost function Rearmed(v: View): (row: Option<Interest>) {
    if v.pending != [] then Some(OP_WRITE) else if v.closing then None else Some(OP_READ)
  }

  ghost function AfterPump(p: Pumped): (s: Snapshot) {
    Snapshot(p.view, if p.ok then Rearmed(p.view) else None, p.deps)
  }

  ghost function Received(v: View, chunk: string): (u: View) {
    v.(received := v.received + chunk, rest := v.rest + chunk)
  }

  /** The octets an event takes from the socket. */
  ghost function Took(s: Snapshot, e: Event): (chunk: string) {
    if e.CanRead? && s.row == Some(OP_READ) then Taken(e.r, MGMT_LINE_MAX) else []
  }

  /** mgmt_read and mgmt_write, for what the registered interest lets through. */
  ghost function Stepped(s: Snapshot, e: Event): (t: Snapshot) {
    match e
    case CanRead(deps, r, sends) =>
      if s.row != Some(OP_READ) then s.(deps := deps)
      else if Broken(r) then s.(deps := deps, row := None)
      else if Took(s, e) == [] then s.(deps := deps)
      else AfterPump(Pump(Received(s.view, Took(s, e)), deps, sends))
    case CanWrite(deps, sends) =>
      if s.row != Some(OP_WRITE) then s.(deps := deps) else AfterPump(Pump(s.view, deps, sends))
  }

  ghost predicate SessionRun(run: seq<Snapshot>, events: seq<Event>) {
    |run| == |events| + 1 && forall i :: 0 <= i < |events| ==> run[i + 1] == Stepped(run[i], events[i])
  }

  /** What the first `n` events took, in order. */
  ghost function TookAll(run: seq<Snapshot>, events: seq<Event>, n: nat): (s: string)
    requires n <= |events| && |run| == |events| + 1
  {
    if n == 0 then [] else TookAll(run, events, n - 1) + Took(run[n - 1], events[n - 1])
  }

  /** Over a run nothing is received but what the events took, and what was sent is never taken back. */
  lemma {:induction false} RunReceives(run: seq<Snapshot>, events: seq<Event>, n: nat)
    requires SessionRun(run, events) && n <= |events|
    ensures run[n].view.received == run[0].view.received + TookAll(run, events, n)
    ensures run[0].view.sent <= run[n].view.sent && run[0].view.trace <= run[n].view.trace
  {
    hide Pump;
    if n > 0 {
      RunReceives(run, events, n - 1);
      StepAdds(run[n - 1], events[n - 1]);
      assert run[n] == Stepped(run[n - 1], events[n - 1]);
    }
  }

  lemma StepAdds(s: Snapshot, e: Event)
    ensures var t := Stepped(s, e);
            t.view.received == s.view.received + Took(s, e) && s.view.sent <= t.view.sent && s.view.trace <= t.view.trace
  {
    hide Pump;
    var chunk := Took(s, e);
    match e {
      case CanRead(deps, r, sends) => PumpAdds(Received(s.view, chunk), deps, sends);
      case CanWrite(deps, sends) => PumpAdds(s.view, deps, sends);
    }
  }

  lemma ReceivedOk(v: View, chunk: string)
    requires Inv(v)
    ensures Inv(Received(v, chunk))
  {
    hide Lines, Partial, RenderAll, Replies, Verdicts, AuthAfter, OutcomeAt, QuitAfter, ValidDeps;
    assert v.received + chunk == v.consumed + (v.rest + chunk);
  }

  // ------------------------------------------------------------------------- the connection

  /** A line handed on has neither LF nor NUL. */
  ghost predicate Clean(v: Verdict) {
    v.Ready? ==> NoLf(v.text) && '\0' !in v.text
  }

  lemma ClassifyClean(body: string)
    ensures Clean(Classify(body))
  {
    if !BadEarly(body) && |body| < MGMT_LINE_MAX {
      assert forall i :: 0 <= i < |body| ==> !Bad(body[i]);
    }
  }

  /** This line of an authenticated session lists the users. */
  ghost predicate Lists(auth: bool, v: Verdict) {
    v.Ready? && ListsUsers(auth, Words(v.text))
  }

  lemma AnsweredGood(d: Deps, auth: bool, v: Verdict)
    requires ValidDeps(d) && Clean(v)
    ensures Kept(Answered(d, auth, v), Lists(auth, v) ==> CleanNames(d.users))
  {
    hide Respond, Words, ValidDeps, Fits, Sized, WellFramed, CleanNames, ListsUsers;
    ErrorFits("line too long");
    ErrorFits("invalid");
    if v.Ready? {
      WordsNoLf(v.text);
      RespondGood(d, auth, Words(v.text));
    }
  }

  /** Every reply fits the output buffer. */
  lemma AnsweredSized(d: Deps, auth: bool, v: Verdict)
    requires ValidDeps(d) && Clean(v)
    ensures ValidDeps(Answered(d, auth, v).deps) && |Render(Answered(d, auth, v).reply)| <= OUTPUT_SIZE
  {
    hide Answered, ValidDeps, WellFramed, Lists, CleanNames;
    AnsweredGood(d, auth, v);
  }

  class Conn {
    const session: Session
    const parser: LineParser
    const rb: Buffer<char>
    const wb: Buffer<char>
    var closeAfterWrite: bool
    var row: Option<Interest>     // None once the descriptor has been unregistered
    ghost var received: string
    ghost var consumed: string
    ghost var sent: string
    ghost var trace: seq<Exchange>

    ghost predicate Shape()
      reads this, rb, wb
    {
      && rb != wb && rb.data != wb.data && parser.line != rb.data && parser.line != wb.data
      && rb.data.Length == MGMT_LINE_MAX && wb.data.Length == OUTPUT_SIZE
    }

    ghost predicate Valid()
      reads this, session, session.shared, session.shared.users, session.shared.users.entries, parser, parser.line, rb, rb.data, wb, wb.data
    {
      Shape() && parser.Tracks() && rb.Valid() && wb.Valid() && session.shared.Valid()
    }

    ghost function V(): (v: View)
      reads this, session, parser, rb, wb
    {
      View(received, consumed, rb.contents, parser.partial, sent, wb.contents, session.authenticated, closeAfterWrite, trace)
    }

    /** mgmt_passive_accept. */
    constructor (shared: Shared)
      requires shared.Valid()
      ensures Valid() && Inv(V()) && session.shared == shared && row == Some(OP_READ)
      ensures V() == FRESH
      ensures fresh(session) && fresh(parser) && fresh(parser.line) && fresh(rb) && fresh(rb.data) && fresh(wb) && fresh(wb.data)
    {
      hide ValidDeps, Shared.Valid;
      session := new Session(shared);
      parser := new LineParser();
      rb := new Buffer<char>(MGMT_LINE_MAX);
      wb := new Buffer<char>(OUTPUT_SIZE);
      closeAfterWrite, row := false, Some(OP_READ);
      received, consumed, sent, trace := [], [], [], [];
      new;
      LinesNone([]);
    }

    /** process_input_lines, for a line the parser has just finished. The output buffer is empty, so the
    whole reply fits. */
    method AnswerLine(st: Verdict)
      requires Shape() && wb.Valid() && session.shared.Valid() && parser.Bounded() && wb.contents == []
      requires st == Classify(parser.partial)
      requires st.Ready? ==> parser.line[..parser.len] == st.text && parser.line[parser.len] == '\0'
      modifies this`closeAfterWrite, session, session.shared, session.shared.users, session.shared.users.entries, parser.line, wb, wb.data
      ensures wb.Valid() && session.shared.Valid() && parser.Bounded()
      ensures var o := Answered(old(session.shared.d), old(session.authenticated), st);
              && session.shared.d == o.deps && session.authenticated == o.auth
              && closeAfterWrite == (old(closeAfterWrite) || o.quit) && wb.contents == Render(o.reply)
    {
      hide ValidDeps, Respond, Classify, Words, Shared.Valid;
      ClassifyClean(parser.partial);
      AnsweredSized(session.shared.d, session.authenticated, st);
      if st.Ready? {
        var quit := session.HandleLine(parser.line, st.text, wb);
        if quit {
          closeAfterWrite := true;
        }
      } else if st.TooLong? {
        OutPrintf(wb, "-ERR " + "line too long\n");
      } else {
        OutPrintf(wb, "-ERR " + "invalid\n");
      }
    }

    /** One turn of the loop of process_input_lines; `more` when it may go on. */
    method ProcessLine() returns (more: bool)
      requires Valid() && Inv(V()) && rb.contents != [] && wb.contents == [] && !closeAfterWrite
      modifies this`closeAfterWrite, this`consumed, this`trace, session, session.shared, session.shared.users, session.shared.users.entries, parser, parser.line, rb, rb.data, wb, wb.data
      ensures Valid() && Inv(V()) && |rb.contents| < |old(rb.contents)|
      ensures rb.contents == [] || wb.contents != []
      ensures closeAfterWrite ==> wb.contents != [] && !more
      ensures old(trace) <= trace && Chained(trace, |old(trace)|, old(session.shared.d), session.shared.d)
      ensures Progress(V(), session.shared.d) == TakeLine(old(V()), old(session.shared.d))
    {
      hide ValidDeps, Inv, Classify, Answered, LineEnd, LineParser.Tracks, Buffer.Valid, Shared.Valid, Chained;
      ghost var v := V();
      ghost var d := session.shared.d;
      InvAuth(v);
      var st := parser.Feed(rb);
      if st.None? {
        consumed := consumed + v.rest;
        GrownOk(v);
        assert V() == Grown(v);
        LineEndNone(v.rest);
        ChainedNone(trace, d);
        return false;
      }
      AnswerLine(st.value);
      ghost var k := LineEnd(v.rest);
      consumed := consumed + v.rest[..k + 1];
      trace := trace + [Exchange(d, st.value)];
      parser.Reset();
      ExchangedOk(v, k, d);
      assert V() == Exchanged(v, k, d);
      ChainedOne(v.trace, Exchange(d, st.value));
      more := !closeAfterWrite;
    }

    /** process_input_lines. Every reply has at least one octet, so one line is answered at a time. */
    method ProcessInputLines()
      requires Valid() && Inv(V()) && (closeAfterWrite ==> wb.contents != [])
      modifies this`closeAfterWrite, this`consumed, this`trace, session, session.shared, session.shared.users, session.shared.users.entries, parser, parser.line, rb, rb.data, wb, wb.data
      ensures Valid() && Inv(V()) && |rb.contents| <= |old(rb.contents)|
      ensures rb.contents == [] || wb.contents != []
      ensures closeAfterWrite ==> wb.contents != []
      ensures old(rb.contents) != [] && old(wb.contents) == [] ==> |rb.contents| < |old(rb.contents)|
      ensures old(trace) <= trace && Chained(trace, |old(trace)|, old(session.shared.d), session.shared.d)
      ensures Progress(V(), session.shared.d) == TakeLine(old(V()), old(session.shared.d))
    {
      hide ValidDeps, Inv, LineParser.Tracks, Buffer.Valid, Shared.Valid, Chained, TakeLine;
      ghost var v, d0 := V(), session.shared.d;
      TakeNothing(v, d0);
      ChainedNone(trace, session.shared.d);
      while rb.CanRead() && !wb.CanRead()
        invariant old(trace) <= trace && Chained(trace, |old(trace)|, old(session.shared.d), session.shared.d)
        invariant (V() == v && session.shared.d == d0) || ((rb.contents == [] || wb.contents != []) && Progress(V(), session.shared.d) == TakeLine(v, d0))
        invariant Valid() && Inv(V()) && |rb.contents| <= |old(rb.contents)| && (closeAfterWrite ==> wb.contents != [])
        invariant old(rb.contents) != [] && old(wb.contents) == [] ==> |rb.contents| < |old(rb.contents)| || wb.contents == []
        decreases |rb.contents|
      {
        ghost var t, d := trace, session.shared.d;
        var more := ProcessLine();
        ChainedTrans(t, trace, |old(trace)|, old(session.shared.d), d, session.shared.d);
        if !more {
          break;
        }
      }
    }

    /** mgmt_flush: false once the descriptor has been unregistered. */
    method Flush(sends: seq<SendResult>) returns (ok: bool, rest: seq<SendResult>)
      requires Valid() && Inv(V())
      modifies this`row, this`sent, wb, wb.data
      ensures Valid() && Inv(V()) && (if ok then row == old(row) else row == None)
      ensures var d := Drain(|old(wb.contents)|, sends);
              ok == d.ok && rest == d.rest && wb.contents == old(wb.contents)[d.n..] && sent == old(sent) + old(wb.contents)[..d.n]
                && V() == Sent(old(V()), d.n)
    {
      hide ValidDeps, Inv, LineParser.Tracks, Buffer.Valid, Drain, Shared.Valid;
      rest := sends;
      ghost var n: nat := 0;
      DrainStart(wb.contents, sent, sends);
      while wb.CanRead()
        invariant Valid() && Inv(V()) && row == old(row)
        invariant Draining(old(wb.contents), old(sent), sends, n, rest, wb.contents, sent)
        decreases |wb.contents|
      {
        DrainStep(old(wb.contents), old(sent), sends, n, rest, wb.contents, sent);
        var s := if rest == [] then NotNow else rest[0];
        rest := if rest == [] then [] else rest[1..];
        if s.NotNow? {
          return true, rest;
        }
        var m := SentCount(s, wb.write - wb.read);
        if m == 0 {
          row := None;
          return false, rest;
        }
        ghost var v := V();
        SentOk(v, m);
        sent := sent + wb.contents[..m];
        wb.ReadAdv(m);
        n := n + m;
        assert V() == Sent(v, m);
      }
      DrainEnd(old(wb.contents), old(sent), sends, n, rest, wb.contents, sent);
      ok := true;
    }

    /** process_and_flush. The loop ends because a turn that starts with input and no output takes input. */
    method ProcessAndFlush(sends: seq<SendResult>) returns (ok: bool)
      requires Valid() && Inv(V()) && (closeAfterWrite ==> wb.contents != [])
      modifies this`closeAfterWrite, this`consumed, this`trace, this`row, this`sent, session, session.shared,
               session.shared.users, session.shared.users.entries, parser, parser.line, rb, rb.data, wb, wb.data
      ensures Valid() && Inv(V()) && (if ok then row == old(row) else row == None)
      ensures ok && wb.contents == [] && !closeAfterWrite ==> rb.contents == []
      ensures old(trace) <= trace && Chained(trace, |old(trace)|, old(session.shared.d), session.shared.d)
      ensures Pumped(V(), session.shared.d, ok) == Pump(old(V()), old(session.shared.d), sends)
    {
      hide ValidDeps, Inv, LineParser.Tracks, Buffer.Valid, Shared.Valid, Chained, Pump, TakeLine, Drain;
      ghost var whole := Pump(V(), session.shared.d, sends);
      PumpUnfold(V(), session.shared.d, sends);
      var left := sends;
      ProcessInputLines();
      ok, left := Flush(left);
      while ok && !wb.CanRead() && !closeAfterWrite && rb.CanRead()
        invariant Valid() && Inv(V()) && (if ok then row == old(row) else row == None)
        invariant Pumping(whole, V(), session.shared.d, left, ok)
        invariant old(trace) <= trace && Chained(trace, |old(trace)|, old(session.shared.d), session.shared.d)
        decreases |rb.contents|
      {
        ghost var t, d := trace, session.shared.d;
        PumpUnfold(V(), d, left);
        ProcessInputLines();
        ChainedTrans(t, trace, |old(trace)|, old(session.shared.d), d, session.shared.d);
        ok, left := Flush(left);
      }
    }

    // ---------------------------------------------------------------------------- events

    ghost function Snap(): (s: Snapshot)
      reads this, session, session.shared, parser, rb, wb
    {
      Snapshot(V(), row, session.shared.d)
    }

    /** Between events: while reading is armed nothing is buffered either way; while writing is armed there is
    something to write. */
    ghost predicate AtRest()
      reads this, session, session.shared, session.shared.users, session.shared.users.entries, parser, parser.line, rb, rb.data, wb, wb.data
    {
      && Valid() && Inv(V())
      && (row.None? || row == Some(OP_READ) || row == Some(OP_WRITE))
      && (row == Some(OP_READ) ==> rb.contents == [] && wb.contents == [] && !closeAfterWrite)
      && (row == Some(OP_WRITE) ==> wb.contents != [])
    }

    /** The end of mgmt_read and mgmt_write: wait for what is needed next, or close after QUIT. */
    method Rearm()
      requires Valid() && Inv(V()) && (wb.contents == [] && !closeAfterWrite ==> rb.contents == [])
      modifies this`row
      ensures AtRest() && row == Rearmed(V())
    {
      hide ValidDeps, Inv, LineParser.Tracks, Buffer.Valid, Shared.Valid, Chained;
      if closeAfterWrite && !wb.CanRead() {
        row := None;
      } else {
        row := Some(if wb.CanRead() then OP_WRITE else OP_READ);
      }
    }

    /** mgmt_read. The read window is the whole buffer, so a result of 0 is end of stream; the output buffer
    is empty, so the test for a full one never holds. */
    method Readable(r: RecvResult<char>, sends: seq<SendResult>)
      requires AtRest() && row == Some(OP_READ)
      modifies this, session, session.shared, session.shared.users, session.shared.users.entries, parser, parser.line, rb, rb.data, wb, wb.data
      ensures AtRest() && received == old(received) + Taken(r, MGMT_LINE_MAX)
      ensures Broken(r) ==> row == None
      ensures Taken(r, MGMT_LINE_MAX) == [] && !Broken(r) ==> row == old(row) && trace == old(trace)
      ensures old(trace) <= trace && Chained(trace, |old(trace)|, old(session.shared.d), session.shared.d)
      ensures Snap() == Stepped(old(Snap()), CanRead(old(session.shared.d), r, sends))
    {
      hide ValidDeps, Inv, LineParser.Tracks, Buffer.Valid, Shared.Valid, Chained, Pump;
      assert rb.Room() == MGMT_LINE_MAX && wb.CanWrite();
      ChainedNone(trace, session.shared.d);
      if r.Offered? && r.bytes != [] {
        ghost var v := V();
        var chunk := Taken(r, rb.Room());
        rb.Fill(chunk);
        received := received + chunk;
        ReceivedOk(v, chunk);
        assert V() == Received(v, chunk);
        PumpAdds(V(), session.shared.d, sends);
        var ok := ProcessAndFlush(sends);
        if ok {
          Rearm();
        }
      } else if r.PeerClosed? || r.RecvFailed? {
        row := None;
      }
    }

    /** mgmt_write. */
    method Writable(sends: seq<SendResult>)
      requires AtRest() && row == Some(OP_WRITE)
      modifies this, session, session.shared, session.shared.users, session.shared.users.entries, parser, parser.line, rb, rb.data, wb, wb.data
      ensures AtRest() && received == old(received)
      ensures old(trace) <= trace && Chained(trace, |old(trace)|, old(session.shared.d), session.shared.d)
      ensures Snap() == Stepped(old(Snap()), CanWrite(old(session.shared.d), sends))
    {
      hide ValidDeps, Inv, LineParser.Tracks, Buffer.Valid, Shared.Valid, Chained, Pump;
      var ok := ProcessAndFlush(sends);
      if ok {
        Rearm();
      }
    }

    /** One readiness event, filtered by the registered interest. */
    method Handle(e: Event)
      requires AtRest() && session.shared.d == e.deps
      modifies this, session, session.shared, session.shared.users, session.shared.users.entries, parser, parser.line, rb, rb.data, wb, wb.data
      ensures AtRest() && old(trace) <= trace && Chained(trace, |old(trace)|, old(session.shared.d), session.shared.d)
      ensures Snap() == Stepped(old(Snap()), e)
    {
      hide ValidDeps, Inv, LineParser.Tracks, Buffer.Valid, Shared.Valid, Chained, Pump;
      ChainedNone(trace, session.shared.d);
      match e {
        case CanRead(_, r, sends) =>
          if row == Some(OP_READ) {
            Readable(r, sends);
          }
        case CanWrite(_, sends) =>
          if row == Some(OP_WRITE) {
            Writable(sends);
          }
      }
    }

    /** The next event: meanwhile the shared state may have become anything. */
    method Next(e: Event)
      requires AtRest() && ValidDeps(e.deps)
      modifies this, session, session.shared, session.shared.users, session.shared.users.entries, parser, parser.line, rb, rb.data, wb, wb.data
      ensures AtRest() && old(trace) <= trace && Chained(trace, |old(trace)|, e.deps, session.shared.d)
      ensures Snap() == Stepped(old(Snap()), e)
    {
      hide ValidDeps, Inv, LineParser.Tracks, Buffer.Valid, Chained, Pump;
      session.shared.Become(e.deps);
      Handle(e);
    }
  }

  // ------------------------------------------------------------------------------ whole runs

  /** Exchange `j` is an AUTH line with the administrator's credentials of that moment. */
  ghost predicate LoginAt(t: seq<Exchange>, j: nat)
    requires j < |t|
  {
    t[j].verdict.Ready? && LogsIn(t[j].before, Words(t[j].verdict.text))
  }

  /** A session is authenticated exactly when one of its lines was a successful AUTH. */
  lemma {:induction false} AuthMeansLogin(t: seq<Exchange>)
    ensures AuthAfter(t) <==> exists j :: 0 <= j < |t| && LoginAt(t, j)
  {
    hide LogsIn, Respond, Words;
    if t != [] {
      var u := t[..|t| - 1];
      AuthMeansLogin(u);
      var last := t[|t| - 1];
      assert forall j :: 0 <= j < |u| ==> LoginAt(t, j) == LoginAt(u, j);
      if last.verdict.Ready? {
        AuthGate(last.before, AuthAfter(u), Words(last.verdict.text));
      }
      assert AuthAfter(t) <==> AuthAfter(u) || LoginAt(t, |u|);
    }
  }

  /** What a client and an administrator can rely on at any moment of any session. */
  ghost predicate Trustworthy(v: View) {
    && Verdicts(v.trace) <= Lines(v.received)                      // the lines answered are the first received
    && v.sent <= RenderAll(Replies(v.trace))                       // the output is their replies, in order
    && (ReadReplies(RenderAll(Replies(v.trace)), |v.trace|) == Some((Replies(v.trace), []))    // which decode, exactly
        <==> forall i :: 0 <= i < |v.trace| ==> ListsClean(v.trace, i))                      // if no name listed has an LF
    && (forall i :: 0 <= i < |v.trace| - 1 ==> !OutcomeAt(v.trace, i).quit)   // nothing follows QUIT's
    && (forall i :: 0 <= i < |v.trace| && OutcomeAt(v.trace, i).deps != v.trace[i].before ==>
          exists j :: 0 <= j < i && LoginAt(v.trace, j))           // changes only after a successful AUTH
  }

  lemma ChangeNeedsLogin(t: seq<Exchange>, i: nat)
    requires i < |t| && OutcomeAt(t, i).deps != t[i].before
    ensures exists j :: 0 <= j < i && LoginAt(t, j)
  {
    hide LogsIn, Respond, Words;
    if t[i].verdict.Ready? {
      AuthGate(t[i].before, AuthAfter(t[..i]), Words(t[i].verdict.text));
    }
    AuthMeansLogin(t[..i]);
    var j :| 0 <= j < i && LoginAt(t[..i], j);
    assert LoginAt(t, j);
  }

  /** Exchange `i` does not list a user whose name has an LF. */
  ghost predicate ListsClean(t: seq<Exchange>, i: nat)
    requires i < |t|
  {
    Lists(AuthAfter(t[..i]), t[i].verdict) ==> CleanNames(t[i].before.users)
  }

  lemma {:induction false} RepliesAt(t: seq<Exchange>, i: nat)
    requires i < |t|
    ensures Replies(t)[i] == OutcomeAt(t, i).reply
    decreases |t|
  {
    hide Answered, AuthAfter;
    var u := t[..|t| - 1];
    if i < |u| {
      RepliesAt(u, i);
      OutcomesKept(u, t, i);
    }
  }

  /** A reply is well framed exactly unless it lists a user whose name has an LF. */
  lemma RepliesFramed(t: seq<Exchange>, i: nat)
    requires i < |t| && ValidDeps(t[i].before) && Clean(t[i].verdict)
    ensures WellFramed(Replies(t)[i]) <==> ListsClean(t, i)
  {
    hide ValidDeps, Clean, WellFramed, Answered, AuthAfter, Sized, Lists, CleanNames, Replies;
    RepliesAt(t, i);
    AnsweredGood(t[i].before, AuthAfter(t[..i]), t[i].verdict);
  }

  lemma {:induction false} LinesClean(s: string)
    ensures forall i :: 0 <= i < |Lines(s)| ==> Clean(Lines(s)[i])
    decreases |s|
  {
    hide Classify, Clean;
    var k := LineEnd(s);
    if k < |s| {
      ClassifyClean(s[..k]);
      LinesClean(s[k + 1..]);
    }
  }

  /** While reading is armed nothing is owed: every complete line received has been answered, and every reply
  has been sent in full. */
  lemma ReadingMeansAnswered(v: View)
    requires Inv(v) && v.rest == [] && v.pending == []
    ensures Verdicts(v.trace) == Lines(v.received) && Partial(v.received) == v.partial && v.sent == RenderAll(Replies(v.trace))
  {
    hide Lines, Partial, RenderAll, Replies, Verdicts, AuthAfter, OutcomeAt, QuitAfter, ValidDeps;
    assert v.consumed + [] == v.consumed && v.sent + [] == v.sent;
  }

  lemma SessionIntegrity(v: View)
    requires Inv(v)
    ensures Trustworthy(v)
  {
    hide Lines, Partial, RenderAll, Replies, AuthAfter, OutcomeAt, QuitAfter, ValidDeps, Clean, LoginAt, ReadReplies, WellFramed, ListsClean;
    LinesAppend(v.consumed, v.rest);
    LinesClean(v.consumed);
    forall i | 0 <= i < |v.trace|
      ensures Clean(v.trace[i].verdict)
    {
      assert Verdicts(v.trace)[i] == v.trace[i].verdict;
    }
    forall i | 0 <= i < |v.trace|
      ensures WellFramed(Replies(v.trace)[i]) <==> ListsClean(v.trace, i)
    {
      RepliesFramed(v.trace, i);
    }
    ReadRenderAll(Replies(v.trace), []);
    assert RenderAll(Replies(v.trace)) + [] == RenderAll(Replies(v.trace));
    forall i | 0 <= i < |v.trace| && OutcomeAt(v.trace, i).deps != v.trace[i].before
      ensures exists j :: 0 <= j < i && LoginAt(v.trace, j)
    {
      ChangeNeedsLogin(v.trace, i);
    }
  }

  /** A run of exchanges that changes the shared state comes after a successful AUTH. */
  lemma {:induction false} ChainNeedsLogin(t: seq<Exchange>, k: nat, d0: Deps, d1: Deps)
    requires k <= |t| && Chained(t, k, d0, d1) && d1 != d0
    ensures exists j :: 0 <= j < |t| && LoginAt(t, j)
    decreases |t|
  {
    hide LoginAt, OutcomeAt;
    var n := |t| - 1;
    if OutcomeAt(t, n).deps != t[n].before {
      ChangeNeedsLogin(t, n);
    } else {
      var u := t[..n];
      if n > k {
        OutcomesKept(u, t, n - 1);
      }
      forall i | k < i < n
        ensures u[i].before == OutcomeAt(u, i - 1).deps
      {
        OutcomesKept(u, t, i - 1);
      }
      ChainNeedsLogin(u, k, d0, d1);
      var j :| 0 <= j < n && LoginAt(u, j);
      LoginKept(u, t, j);
    }
  }

  lemma LoginKept(t: seq<Exchange>, u: seq<Exchange>, j: nat)
    requires t <= u && j < |t| && LoginAt(t, j)
    ensures LoginAt(u, j)
  {}

  /** What one event did: the exchanges from `k` to the end of `t` started with the state the event found and
  left `end`, which is another state only after a successful AUTH. */
  ghost predicate EventDone(t: seq<Exchange>, k: nat, found: Deps, end: Deps) {
    && k <= |t| && Chained(t, k, found, end)
    && (end != found ==> exists j :: 0 <= j < |t| && LoginAt(t, j))
  }

  /** Every exchange of a run belongs to one event, and starts from what that event found. */
  ghost predicate Accounted(run: seq<Snapshot>, events: seq<Event>) {
    && |run| == |events| + 1
    && forall i :: 0 <= i < |events| ==> EventDone(run[i + 1].view.trace, |run[i].view.trace|, events[i].deps, run[i + 1].deps)
  }

  lemma RunGrows(run: seq<Snapshot>, events: seq<Event>, n: nat, next: Snapshot)
    requires n < |events| && SessionRun(run, events[..n]) && Accounted(run, events[..n]) && next == Stepped(run[n], events[n])
    requires run[n].view.trace <= next.view.trace && Chained(next.view.trace, |run[n].view.trace|, events[n].deps, next.deps)
    ensures SessionRun(run + [next], events[..n + 1]) && Accounted(run + [next], events[..n + 1])
  {
    hide Chained, LoginAt, Stepped;
    var sofar, more := events[..n + 1], run + [next];
    if next.deps != events[n].deps {
      ChainNeedsLogin(next.view.trace, |run[n].view.trace|, events[n].deps, next.deps);
    }
    forall i | 0 <= i < n + 1
      ensures more[i + 1] == Stepped(more[i], sofar[i])
      ensures EventDone(more[i + 1].view.trace, |more[i].view.trace|, sofar[i].deps, more[i + 1].deps)
    {
      if i < n {
        assert sofar[i] == events[..n][i];
        assert EventDone(run[i + 1].view.trace, |run[i].view.trace|, events[..n][i].deps, run[i + 1].deps);
      }
    }
  }

  /** A whole session: any readiness events, filtered by the registered interest, any chunks and partial sends.
  Each event does exactly what `Stepped` says of the shared state it finds, the octets on offer and the sends; the
  session has received what its events took, and leaves the shared state its last line left. */
  method Serve(shared: Shared, events: seq<Event>) returns (c: Conn, ghost run: seq<Snapshot>)
    requires shared.Valid() && forall i :: 0 <= i < |events| ==> ValidDeps(events[i].deps)
    modifies shared, shared.users, shared.users.entries
    ensures fresh(c) && c.session.shared == shared && c.AtRest() && Trustworthy(c.V())
    ensures SessionRun(run, events) && run[0] == Snapshot(FRESH, Some(OP_READ), old(shared.d)) && run[|events|] == c.Snap()
    ensures Accounted(run, events)
    ensures c.received == TookAll(run, events, |events|)
  {
    hide ValidDeps, Inv, Trustworthy, LineParser.Tracks, Buffer.Valid, Shared.Valid, Chained, Stepped;
    c := new Conn(shared);
    run := [c.Snap()];
    for i := 0 to |events|
      invariant fresh(c) && fresh(c.session) && fresh(c.parser) && fresh(c.parser.line) && fresh(c.rb) && fresh(c.rb.data)
      invariant fresh(c.wb) && fresh(c.wb.data) && c.session.shared == shared && c.AtRest()
      invariant SessionRun(run, events[..i]) && Accounted(run, events[..i]) && run[i] == c.Snap()
      invariant run[0] == Snapshot(FRESH, Some(OP_READ), old(shared.d))
    {
      hide Accounted, SessionRun;
      RunLength(run, events[..i]);
      c.Next(events[i]);
      RunGrows(run, events, i, c.Snap());
      run := run + [c.Snap()];
    }
    assert events[..|events|] == events;
    RunReceives(run, events, |events|);
    SessionIntegrity(c.V());
  }

  lemma RunLength(run: seq<Snapshot>, events: seq<Event>)
    requires SessionRun(run, events)
    ensures |run| == |events| + 1
  {}
}
