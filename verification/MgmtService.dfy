/** What a client whose socket takes its replies gets for the lines it sends, at once. */
module MgmtService {
  import opened Sequences
  import opened Network
  import opened MgmtLine
  import opened MgmtReplies
  import opened MgmtCommands
  import opened MgmtSession

  /** At least `n` sends, each taking any reply whole. */
  ghost predicate Generous(sends: seq<SendResult>, n: nat) {
    n <= |sends| && forall i :: 0 <= i < |sends| ==> sends[i].Accepted? && sends[i].n >= OUTPUT_SIZE
  }

  /** Nothing is owed and more may come. */
  ghost predicate Idle(v: View) {
    Inv(v) && v.pending == [] && !v.closing
  }

  /** A reply goes out in one send. */
  lemma DrainsAtOnce(pending: nat, sends: seq<SendResult>, n: nat)
    requires pending <= OUTPUT_SIZE && n > 0 && Generous(sends, n)
    ensures var out := Drain(pending, sends); out.n == pending && out.ok && Generous(out.rest, n - 1)
  {
    if pending > 0 {
      DrainUnfold(pending, sends);
    }
  }

  /** The next line is obeyed and its reply is small enough for one send. */
  lemma LineTaken(v: View, d: Deps)
    requires Idle(v) && ValidDeps(d) && v.rest != []
    ensures var p := TakeLine(v, d); Inv(p.view) && ValidDeps(p.deps) && |p.view.pending| <= OUTPUT_SIZE && |p.view.rest| < |v.rest|
  {
    hide Inv, ValidDeps, Answered, Classify, LineEnd, Render;
    var k := LineEnd(v.rest);
    if k == |v.rest| {
      NoEnd(v.rest);
      GrownOk(v);
    } else {
      var line := v.partial + v.rest[..k];
      ClassifyClean(line);
      AnsweredSized(d, v.auth, Classify(line));
      ExchangedOk(v, k, d);
    }
  }

  lemma {:induction false} NoEnd(s: string)
    requires LineEnd(s) == |s|
    ensures '\n' !in s
  {
    if s != [] {
      NoEnd(s[1..]);
      assert s == [s[0]] + s[1..];
    }
  }

  /** Everything in the buffer is obeyed, up to a QUIT, and every reply sent. */
  lemma {:induction false} PumpsAll(v: View, d: Deps, sends: seq<SendResult>)
    requires Idle(v) && ValidDeps(d) && v.rest != [] && Generous(sends, |v.rest|)
    ensures var r := Pump(v, d, sends);
            r.ok && Inv(r.view) && r.view.pending == [] && (r.view.closing || r.view.rest == []) && r.view.received == v.received
    decreases |v.rest|
  {
    hide Inv, ValidDeps, TakeLine, Drain, Generous;
    var p := TakeLine(v, d);
    LineTaken(v, d);
    DrainsAtOnce(|p.view.pending|, sends, |v.rest|);
    var out := Drain(|p.view.pending|, sends);
    SentOk(p.view, out.n);
    PumpAdds(v, d, sends);
    if GoesOn(out.ok, Sent(p.view, out.n)) {
      Fewer(out.rest, |v.rest| - 1, |p.view.rest|);
      PumpsAll(Sent(p.view, out.n), p.deps, out.rest);
    }
  }

  lemma Fewer(sends: seq<SendResult>, n: nat, m: nat)
    requires Generous(sends, n) && m <= n
    ensures Generous(sends, m)
  {}

  /** The lines a client completes are answered in the same event, in order and in full: all of them, or those up to a
  QUIT, after which the connection is closed. */
  lemma LinesAreAnswered(s: Snapshot, bytes: string, deps: Deps, sends: seq<SendResult>)
    requires Idle(s.view) && s.view.rest == [] && s.row == Some(OP_READ) && ValidDeps(deps)
    requires 0 < |bytes| <= MGMT_LINE_MAX && Generous(sends, |bytes|)
    ensures var t := Stepped(s, CanRead(deps, Offered(bytes), sends));
            && t.view.received == s.view.received + bytes && t.view.sent == RenderAll(Replies(t.view.trace))
            && (if QuitAfter(t.view.trace) then t.row.None? && Verdicts(t.view.trace) <= Lines(t.view.received)
                else t.row == Some(OP_READ) && Verdicts(t.view.trace) == Lines(t.view.received))
  {
    hide Inv, ValidDeps, Generous, Pump, Lines, RenderAll, QuitAfter, Verdicts;
    var v := Received(s.view, bytes);
    ReceivedOk(s.view, bytes);
    assert v.rest == bytes;
    PumpsAll(v, deps, sends);
    Owed(Pump(v, deps, sends).view);
  }

  lemma Owed(v: View)
    requires Inv(v) && v.pending == []
    ensures v.sent == RenderAll(Replies(v.trace)) && v.closing == QuitAfter(v.trace) && Verdicts(v.trace) <= Lines(v.received)
    ensures v.rest == [] ==> Verdicts(v.trace) == Lines(v.received)
  {
    hide Lines, RenderAll, QuitAfter, Verdicts;
    LinesAppend(v.consumed, v.rest);
    assert v.sent + [] == v.sent;
    if v.rest == [] {
      ReadingMeansAnswered(v);
    }
  }

  /** A socket that takes nothing more holds everything back: a reply that is not out yet stops the lines behind it. */
  lemma NothingOvertakes(v: View, d: Deps, sends: seq<SendResult>)
    requires v.pending != [] && (sends == [] || sends[0].NotNow?)
    ensures Pump(v, d, sends) == Pumped(v, d, true)
  {
    hide Drain;
    DrainUnfold(|v.pending|, sends);
    assert v.sent + v.pending[..0] == v.sent && v.pending[0..] == v.pending;
  }
}
