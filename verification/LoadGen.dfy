/** stress_load_run and its helpers (stress/loadgen.c): an array of client connections driven by poll(2). */
module LoadGen {
  import opened Sequences
  import opened Bytes
  import opened Network
  import opened LoadSpec
  import opened LoadSteps

  // --------------------------------------------------------------------------- the generator

  class Generator {
    const cfg: Config
    const conns: array<Conn>
    var failed: nat
    var corrupted: nat
    var finished: nat
    var total: nat
    var started: bool
    ghost var echoed: seq<seq<byte>>   // the payload octets each connection has seen come back
    ghost var fin: seq<bool>           // the connections counted in `finished`

    ghost function V(): (v: View)
      reads this, conns
    {
      View(conns[..], echoed, fin, failed, corrupted, finished, total, started)
    }

    /** What the generator is between two turns of the loop. */
    ghost function L(work: real): (l: Loop)
      reads this, conns
    {
      Loop(conns[..], echoed, started, work)
    }

    ghost predicate Valid()
      reads this, conns
    {
      ValidConfig(cfg) && conns.Length == cfg.concurrency && Inv(cfg, V())
    }

    method Store(i: nat, c: Conn, ghost e: seq<byte>, ghost f: bool)
      requires i < conns.Length == |echoed| == |fin|
      modifies conns, this`echoed, this`fin
      ensures conns[..] == old(conns[..])[i := c] && echoed == old(echoed)[i := e] && fin == old(fin)[i := f]
    {
      conns[i] := c;
      echoed, fin := echoed[i := e], fin[i := f];
    }

    /** A connection moves without completing a chunk, failing or finishing. */
    method Move(i: nat, c: Conn)
      requires Valid() && i < conns.Length && ConnOk(cfg, started, i, c, echoed[i], fin[i])
      requires c.completed == conns[i].completed && c.countedFailed == conns[i].countedFailed
      modifies conns, this`echoed, this`fin
      ensures Valid() && conns[..] == old(conns[..])[i := c] && echoed == old(echoed) && fin == old(fin)
    {
      hide Inv, ConnOk;
      ghost var v := V();
      Sizes(cfg, v);
      ConnAt(cfg, v, i);
      MovedOk(cfg, v, i, c, echoed[i], fin[i], 0, 0);
      Store(i, c, echoed[i], fin[i]);
      assert V() == Moved(v, i, c, v.echoed[i], v.fin[i], 0, 0);
    }

    /** fail_conn, for a connection whose structure has just become `c`: counted as failed at most once. */
    method FailAs(i: nat, c: Conn)
      requires Valid() && i < conns.Length && ConnOk(cfg, started, i, FailedConn(c), echoed[i], fin[i])
      requires c.completed == conns[i].completed && c.countedFailed == conns[i].countedFailed
      modifies conns, this`failed, this`echoed, this`fin
      ensures Valid() && conns[..] == old(conns[..])[i := FailedConn(c)] && failed > 0 && failed >= old(failed)
      ensures echoed == old(echoed) && fin == old(fin)
    {
      hide Inv, ConnOk;
      ghost var v := V();
      Sizes(cfg, v);
      ConnAt(cfg, v, i);
      MovedOk(cfg, v, i, FailedConn(c), echoed[i], fin[i], 0, 0);
      if !c.countedFailed {
        failed := failed + 1;
      }
      Store(i, FailedConn(c), echoed[i], fin[i]);
      assert V() == Moved(v, i, FailedConn(c), v.echoed[i], v.fin[i], 0, 0);
      FailedCounted(cfg, V(), i);
    }

    /** fail_conn. */
    method FailConn(i: nat)
      requires Valid() && i < conns.Length
      modifies conns, this`failed, this`echoed, this`fin
      ensures Valid() && conns[..] == old(conns[..])[i := FailedConn(old(conns[i]))] && failed > 0 && failed >= old(failed)
      ensures echoed == old(echoed) && fin == old(fin)
    {
      hide Inv, ConnOk;
      ConnAt(cfg, V(), i);
      FailedOk(cfg, started, i, conns[i], echoed[i], fin[i]);
      FailAs(i, conns[i]);
    }

    // ------------------------------------------------------------------------------ sending

    /** send(2) of payload. */
    method SendChunk(i: nat, s: SendResult)
      requires Valid() && i < conns.Length && conns[i].state.SendPayload?
      modifies conns, this`failed, this`echoed, this`fin
      ensures Valid() && echoed == old(echoed)
      ensures conns[..] == old(conns[..])[i := AfterChunkSend(old(conns[i]), s)]
    {
      hide Inv;
      var c := conns[i];
      ConnAt(cfg, V(), i);
      ChunkFacts(cfg, started, i, c, echoed[i], fin[i]);
      var n := SentCount(s, c.chunk - c.payloadOff);
      if n > 0 {
        SentChunkOk(cfg, started, i, c, echoed[i], fin[i], n);
        Move(i, SentChunk(c, n));
      } else if s.SendFailed? {
        FailConn(i);
      }
    }

    /** send(2) of a control message. */
    method SendControl(i: nat, s: SendResult)
      requires Valid() && i < conns.Length && (conns[i].state.SendNegotiation? || conns[i].state.SendAuth? || conns[i].state.SendConnect?)
      modifies conns, this`failed, this`echoed, this`fin
      ensures Valid() && echoed == old(echoed)
      ensures old(conns[i]).txOff <= old(conns[i]).txLen && conns[..] == old(conns[..])[i := AfterControlSend(old(conns[i]), s)]
    {
      hide Inv;
      var c := conns[i];
      ConnAt(cfg, V(), i);
      var n := SentCount(s, c.txLen - c.txOff);
      if n > 0 {
        var d := c.(txOff := c.txOff + n);
        Move(i, if d.txOff == d.txLen then Awaiting(d) else d);
      } else if s.SendFailed? {
        FailConn(i);
      }
    }

    // ---------------------------------------------------------------------------- receiving

    /** The comparison loop: whether what came back is the connection's pattern. */
    method Check(c: Conn, incoming: seq<byte>) returns (ok: bool)
      ensures ok <==> IsEcho(c, incoming)
    {
      for j := 0 to |incoming|
        invariant forall k :: 0 <= k < j ==> incoming[k] == PatternByte(c.id, Add64(c.completed, c.payloadOff + k))
      {
        if incoming[j] != PatternByte(c.id, Add64(c.completed, c.payloadOff + j)) {
          return false;
        }
      }
      ok := true;
    }

    /** An echo that differs from the pattern. */
    method Corrupt(i: nat)
      requires Valid() && i < conns.Length && !conns[i].countedFailed
      modifies conns, this`failed, this`corrupted, this`echoed, this`fin
      ensures Valid() && corrupted == old(corrupted) + 1 && echoed == old(echoed)
      ensures conns[..] == old(conns[..])[i := FailedConn(old(conns[i]))]
    {
      hide Inv, ConnOk;
      ghost var v := V();
      Sizes(cfg, v);
      ConnAt(cfg, v, i);
      FailedOk(cfg, started, i, conns[i], echoed[i], fin[i]);
      MovedOk(cfg, v, i, FailedConn(conns[i]), echoed[i], fin[i], 0, 1);
      corrupted := corrupted + 1;
      failed := failed + 1;
      Store(i, FailedConn(conns[i]), echoed[i], fin[i]);
      assert V() == Moved(v, i, FailedConn(v.conns[i]), v.echoed[i], v.fin[i], 0, 1);
    }

    /** The last octets of a chunk: total_bytes and the connection's own count grow together. */
    method CompleteChunk(i: nat, incoming: seq<byte>, now: real)
      requires Valid() && i < conns.Length && conns[i].state.RecvPayload? && started
      requires |incoming| > 0 && conns[i].payloadOff + |incoming| == conns[i].chunk && Echoed(i, echoed[i] + incoming)
      modifies conns, this`finished, this`total, this`echoed, this`fin
      ensures Valid() && echoed == old(echoed)[i := old(echoed[i]) + incoming] && total == Add64(old(total), old(conns[i]).chunk)
      ensures conns[..] == old(conns[..])[i := Advanced(cfg, old(conns[i]), now)]
    {
      hide Inv, Echoed, ConnOk, Advanced, Goal;
      ghost var v := V();
      Sizes(cfg, v);
      ConnAt(cfg, v, i);
      var c := conns[i];
      ghost var e := echoed[i] + incoming;
      ChunkFacts(cfg, true, i, c, echoed[i], fin[i]);
      GoalFits(cfg, i);
      AdvancedOk(cfg, i, c, e, now);
      var d := Advanced(cfg, c, now);
      var over := !cfg.mode.Soak? && d.completed >= d.goal;
      total := Add64(total, c.chunk);
      if over {
        finished := finished + 1;
      }
      AdvancedFlags(cfg, c, e, now);
      MovedOk(cfg, v, i, d, e, over, c.chunk, 0);
      Store(i, d, e, over);
      assert V() == Moved(v, i, d, e, over, c.chunk, 0);
    }

    /** recv(2) of payload. */
    method RecvChunk(i: nat, r: RecvResult<byte>, now: real)
      requires Valid() && i < conns.Length && conns[i].state.RecvPayload?
      modifies conns, this`failed, this`corrupted, this`finished, this`total, this`echoed, this`fin
      ensures Valid() && old(conns[i]).payloadOff <= old(conns[i]).chunk && i < |old(echoed)|
      ensures var c := old(conns[i]); var chunk := Taken(r, c.chunk - c.payloadOff);
              && conns[..] == old(conns[..])[i := AfterRecv(cfg, c, r, chunk, now)]
              && echoed == (if IsEcho(c, chunk) then old(echoed)[i := old(echoed[i]) + chunk] else old(echoed))
              && corrupted == old(corrupted) + (if IsEcho(c, chunk) then 0 else 1)
              && total == Add64(old(total), if IsEcho(c, chunk) && c.payloadOff + |chunk| == c.chunk then c.chunk else 0)
    {
      hide Inv, Echoed, IsEcho, Advanced, ConnOk;
      ConnAt(cfg, V(), i);
      Sizes(cfg, V());
      var c := conns[i];
      ChunkFacts(cfg, started, i, c, echoed[i], fin[i]);
      NoEcho(c, echoed, i, total);
      if r.Offered? && r.bytes != [] {
        var incoming := Taken(r, c.chunk - c.payloadOff);
        var ok := Check(c, incoming);
        if !ok {
          Corrupt(i);
          return;
        }
        EchoMore(c, echoed[i], incoming);
        if c.payloadOff + |incoming| == c.chunk {
          CompleteChunk(i, incoming, now);
        } else {
          GrowChunk(i, incoming);
        }
      } else if r.PeerClosed? || r.RecvFailed? {
        FailConn(i);
      }
    }

    method GrowChunk(i: nat, incoming: seq<byte>)
      requires Valid() && i < conns.Length && conns[i].state.RecvPayload? && started
      requires conns[i].payloadOff + |incoming| < conns[i].chunk && Echoed(i, echoed[i] + incoming)
      modifies conns, this`echoed, this`fin
      ensures Valid() && echoed == old(echoed)[i := old(echoed[i]) + incoming]
      ensures conns[..] == old(conns[..])[i := old(conns[i]).(payloadOff := old(conns[i]).payloadOff + |incoming|)]
    {
      hide Inv, Echoed;
      ghost var v := V();
      Sizes(cfg, v);
      ConnAt(cfg, v, i);
      var c := conns[i];
      ghost var e := echoed[i] + incoming;
      var d := c.(payloadOff := c.payloadOff + |incoming|);
      assert |e| - Back(d) == |v.echoed[i]| - Back(c);
      MovedOk(cfg, v, i, d, e, fin[i], 0, 0);
      Store(i, d, e, fin[i]);
      assert V() == Moved(v, i, d, e, v.fin[i], 0, 0);
    }

    /** recv(2) of a control reply. */
    method RecvControl(i: nat, r: RecvResult<byte>)
      requires Valid() && i < conns.Length && (conns[i].state.RecvNegotiation? || conns[i].state.RecvAuth? || conns[i].state.RecvConnect?)
      modifies conns, this`failed, this`echoed, this`fin
      ensures Valid() && echoed == old(echoed)
      ensures var c := old(conns[i]);
              && |c.control| == CONTROL_SIZE && c.rxOff <= c.rxGoal <= 10
              && conns[..] == old(conns[..])[i := AfterControlRecv(c, r, cfg.targetPort)]
    {
      hide Inv;
      var c := conns[i];
      ConnAt(cfg, V(), i);
      if r.Offered? && r.bytes != [] {
        var d := WithReply(c, Taken(r, c.rxGoal - c.rxOff));
        ControlReadOk(cfg, i, d);
        var next := ControlRead(d, cfg.targetPort);
        if next.None? {
          FailAs(i, d);
        } else {
          Move(i, next.value);
        }
      } else if r.PeerClosed? || r.RecvFailed? {
        FailConn(i);
      }
    }

    // ------------------------------------------------------------------------- one poll round

    /** POLLOUT. */
    method Writable(i: nat, s: SendResult)
      requires Valid() && i < conns.Length
      modifies conns, this`failed, this`echoed, this`fin
      ensures Valid() && conns[..] == old(conns[..])[i := AfterOut(old(conns[i]), s)] && echoed == old(echoed)
    {
      hide Inv, AfterChunkSend, AfterControlSend;
      if conns[i].state.SendPayload? {
        SendChunk(i, s);
      } else if conns[i].state.SendNegotiation? || conns[i].state.SendAuth? || conns[i].state.SendConnect? {
        SendControl(i, s);
      }
    }

    /** POLLIN. */
    method Readable(i: nat, r: RecvResult<byte>, now: real)
      requires Valid() && i < conns.Length
      modifies conns, this`failed, this`corrupted, this`finished, this`total, this`echoed, this`fin
      ensures Valid() && i < |old(echoed)| && conns[..] == old(conns[..])[i := AfterIn(cfg, old(conns[i]), r, now)]
      ensures echoed == old(echoed)[i := EchoIn(old(conns[i]), old(echoed[i]), r)]
    {
      hide Inv, AfterRecv, AfterControlRecv, IsEcho;
      Sizes(cfg, V());
      if conns[i].state.RecvPayload? {
        RecvChunk(i, r, now);
      } else if conns[i].state.RecvNegotiation? || conns[i].state.RecvAuth? || conns[i].state.RecvConnect? {
        RecvControl(i, r);
      }
    }

    /** The error checks of the event loop; a connect that has completed goes on to the negotiation. */
    method CheckErrors(i: nat, io: Io)
      requires Valid() && i < conns.Length
      modifies conns, this`failed, this`echoed, this`fin
      ensures Valid() && conns[..] == old(conns[..])[i := Checked(old(conns[i]), io)] && echoed == old(echoed)
    {
      hide Inv, ConnOk;
      if conns[i].state.Connecting? && (io.out || io.errOrHup) {
        if io.soError {
          FailConn(i);
          return;
        }
        ConnAt(cfg, V(), i);
        NegotiatingOk(cfg, started, i, conns[i], echoed[i], fin[i]);
        Move(i, Negotiating(conns[i]));
      }
      if (io.errOrHup || io.invalid) && !conns[i].state.Connecting? {
        FailConn(i);
      }
    }

    /** The body of the event loop for one connection. */
    method HandleEvents(i: nat, io: Io, now: real)
      requires Valid() && i < conns.Length
      modifies conns, this`failed, this`corrupted, this`finished, this`total, this`echoed, this`fin
      ensures Valid() && i < |old(echoed)| && conns[..] == old(conns[..])[i := AfterEvents(cfg, old(conns[i]), io, now)]
      ensures echoed == old(echoed)[i := EchoAfter(old(conns[i]), old(echoed[i]), io)]
    {
      hide Inv, Checked, AfterOut, AfterIn, EchoIn;
      Sizes(cfg, V());
      if !conns[i].open {
        return;
      }
      var report := Reported(conns[i], io);
      CheckErrors(i, report);
      if conns[i].open && report.out {
        Writable(i, report.send);
      }
      if conns[i].open && report.inp {
        Readable(i, report.recv, now);
      }
    }

    /** The handshake has taken too long: whoever is not ready has failed. */
    method ExpireHandshakes()
      requires Valid()
      modifies conns, this`failed, this`echoed, this`fin
      ensures Valid() && echoed == old(echoed)
      ensures forall j :: 0 <= j < conns.Length ==> conns[j] == ExpiredConn(old(conns[j]))
    {
      hide Inv;
      for i := 0 to conns.Length
        invariant Valid() && echoed == old(echoed)
        invariant forall j :: 0 <= j < i ==> conns[j] == ExpiredConn(old(conns[j]))
        invariant forall j :: i <= j < conns.Length ==> conns[j] == old(conns[j])
      {
        if !conns[i].state.Ready? && !conns[i].state.Failed? {
          FailConn(i);
        }
      }
    }

    /** The end of a soak: the connections that wait are closed and counted as finished. */
    method CloseWaiting(i: nat)
      requires Valid() && i < conns.Length && conns[i].state.Wait?
      modifies conns, this`finished, this`echoed, this`fin
      ensures Valid() && finished == old(finished) + 1 && conns[..] == old(conns[..])[i := ClosedConn(old(conns[i]))] && echoed == old(echoed)
    {
      hide Inv;
      ghost var v := V();
      Sizes(cfg, v);
      ConnAt(cfg, v, i);
      var d := ClosedConn(conns[i]);
      MovedOk(cfg, v, i, d, echoed[i], true, 0, 0);
      finished := finished + 1;
      Store(i, d, echoed[i], true);
      assert V() == Moved(v, i, d, v.echoed[i], true, 0, 0);
    }

    method FinishSoak()
      requires Valid()
      modifies conns, this`finished, this`echoed, this`fin
      ensures Valid() && echoed == old(echoed) && forall j :: 0 <= j < conns.Length ==> conns[j] == EndedConn(old(conns[j]))
    {
      hide Inv;
      for i := 0 to conns.Length
        invariant Valid() && echoed == old(echoed)
        invariant forall j :: 0 <= j < i ==> conns[j] == EndedConn(old(conns[j]))
        invariant forall j :: i <= j < conns.Length ==> conns[j] == old(conns[j])
      {
        if conns[i].state.Wait? {
          CloseWaiting(i);
        }
      }
    }

    /** The soak connections whose pause is over send again. */
    method Refill(now: real)
      requires Valid() && cfg.mode.Soak?
      modifies conns, this`echoed, this`fin
      ensures Valid() && echoed == old(echoed)
      ensures forall j :: 0 <= j < conns.Length ==> conns[j] == RefilledConn(old(conns[j]), now)
    {
      hide Inv, PatternBytes;
      for i := 0 to conns.Length
        invariant Valid() && echoed == old(echoed) && forall j :: i <= j < conns.Length ==> conns[j] == old(conns[j])
        invariant forall j :: 0 <= j < i ==> conns[j] == RefilledConn(old(conns[j]), now)
      {
        if conns[i].state.Wait? && now >= conns[i].nextSend {
          ConnAt(cfg, V(), i);
          Reloaded(cfg, started, i, conns[i], echoed[i], fin[i]);
          Move(i, Loaded(conns[i], SOAK_PAYLOAD));
        }
      }
    }

    method CountReady() returns (n: nat)
      requires Valid()
      ensures n == Readies(conns[..])
    {
      n := 0;
      assert conns[..0] == [];
      for i := 0 to conns.Length
        invariant n == Readies(conns[..i])
      {
        assert conns[..i + 1][..i] == conns[..i];
        if conns[i].state.Ready? {
          n := n + 1;
        }
      }
      assert conns[..conns.Length] == conns[..];
    }

    /** start_workload: every connection is ready; each gets its share of the work and its first chunk. */
    method StartWorkload(now: real)
      requires Valid() && !started && failed == 0 && Readies(conns[..]) == cfg.concurrency
      modifies conns, this`started
      ensures Valid() && started
      ensures forall j :: 0 <= j < conns.Length ==> conns[j] == Begun(cfg, old(conns[j]), j, now)
    {
      hide Inv, Goal;
      ghost var v := V();
      var base := if cfg.mode.Throughput? then cfg.totalBytes / cfg.concurrency else CAPACITY_PAYLOAD;
      var remainder := if cfg.mode.Throughput? then cfg.totalBytes % cfg.concurrency else 0;
      StartFacts(cfg, v);
      for i := 0 to conns.Length
        invariant |v.conns| == conns.Length && V() == v.(conns := conns[..])
        invariant forall j :: 0 <= j < i ==> conns[j] == Begun(cfg, v.conns[j], j, now)
        invariant forall j :: i <= j < conns.Length ==> conns[j] == v.conns[j]
      {
        ShareIsGoal(cfg, i);
        var goal := if cfg.mode.Soak? then TWO64 - 1 else base + if i < remainder then 1 else 0;
        var chunk := if cfg.mode.Soak? then SOAK_PAYLOAD else Chunk(goal);
        conns[i] := Loaded(conns[i].(goal := goal, completed := 0, nextSend := now), chunk);
      }
      started := true;
      StartOk(cfg, v, conns[..], now);
    }

    /** The end of a capacity run: the connections that were held open are closed. */
    method CloseHeld()
      requires Valid() && started && cfg.mode.Capacity? && failed == 0 && finished == cfg.concurrency
      modifies conns, this`echoed, this`fin
      ensures Valid() && echoed == old(echoed) && fin == old(fin)
      ensures forall j :: 0 <= j < conns.Length ==> conns[j] == ClosedConn(old(conns[j]))
    {
      hide Inv;
      for i := 0 to conns.Length
        invariant Valid() && echoed == old(echoed) && fin == old(fin)
        invariant forall j :: 0 <= j < i ==> conns[j] == ClosedConn(old(conns[j]))
        invariant forall j :: i <= j < conns.Length ==> conns[j] == old(conns[j])
      {
        FinishedAt(cfg, V(), i);
        Move(i, ClosedConn(conns[i]));
      }
    }

    constructor (c: Config, begins: seq<Begin>)
      requires ValidConfig(c)
      ensures Valid() && cfg == c && fresh(conns) && forall work :: L(work) == Initial(c, begins).(work := work)
    {
      hide Inv, Opened;
      cfg := c;
      conns := new Conn[c.concurrency](i requires i >= 0 => Blank(i));
      failed, corrupted, finished, total, started := 0, 0, 0, 0, false;
      echoed, fin := seq(c.concurrency, _ => []), seq(c.concurrency, _ => false);
      new;
      BlankOk(cfg, V());
      BeginAll(begins);
      assert conns[..] == Initial(c, begins).conns;
    }

    /** The set-up of stress_load_run: every connection is begun; those refused at once have failed. */
    method BeginAll(begins: seq<Begin>)
      requires Valid() && !started && forall j :: 0 <= j < conns.Length ==> conns[j] == Blank(j)
      modifies conns, this`failed, this`echoed, this`fin
      ensures Valid() && echoed == old(echoed) && forall j :: 0 <= j < conns.Length ==> conns[j] == Opened(j, begins)
    {
      hide Inv, Negotiating, ConnOk;
      for i := 0 to conns.Length
        invariant Valid() && echoed == old(echoed)
        invariant forall j :: 0 <= j < i ==> conns[j] == Opened(j, begins)
        invariant forall j :: i <= j < conns.Length ==> conns[j] == Blank(j)
      {
        var b := if i < |begins| then begins[i] else Refused;
        if b.Refused? {
          FailConn(i);
        } else if b.Connected? {
          ConnAt(cfg, V(), i);
          NegotiatingOk(cfg, started, i, conns[i], echoed[i], fin[i]);
          Move(i, Negotiating(conns[i]));
        }
      }
    }
  }

  lemma NegotiatingOk(cfg: Config, started: bool, i: nat, c: Conn, e: seq<byte>, f: bool)
    requires cfg.concurrency > 0 && ConnOk(cfg, started, i, c, e, f) && c.state.Connecting?
    ensures ConnOk(cfg, started, i, Negotiating(c), e, f) && Negotiating(c).completed == c.completed
    ensures Negotiating(c).countedFailed == c.countedFailed && Negotiating(c).state.SendNegotiation?
  {}

  lemma Reloaded(cfg: Config, started: bool, i: nat, c: Conn, e: seq<byte>, f: bool)
    requires cfg.concurrency > 0 && ConnOk(cfg, started, i, c, e, f) && c.state.Wait?
    ensures ConnOk(cfg, started, i, Loaded(c, SOAK_PAYLOAD), e, f)
  {
    hide PatternBytes, Echoed, Goal;
  }

  lemma SentChunkOk(cfg: Config, started: bool, i: nat, c: Conn, e: seq<byte>, f: bool, n: nat)
    requires cfg.concurrency > 0 && ConnOk(cfg, started, i, c, e, f) && c.state.SendPayload? && 0 < n <= c.chunk - c.payloadOff
    ensures ConnOk(cfg, started, i, SentChunk(c, n), e, f)
  {
    hide PatternBytes, Echoed, Goal;
  }

  /** What holds while a chunk is under way. */
  lemma ChunkFacts(cfg: Config, started: bool, i: nat, c: Conn, e: seq<byte>, f: bool)
    requires cfg.concurrency > 0 && ConnOk(cfg, started, i, c, e, f) && (c.state.SendPayload? || c.state.RecvPayload?)
    ensures started && !f && c.open && !c.countedFailed && c.payloadOff <= c.chunk <= CHUNK_SIZE && c.id == i
    ensures |c.control| == CONTROL_SIZE && c.goal == Goal(cfg, i) && Echoed(i, e)
    ensures c.state.RecvPayload? ==> c.payloadOff < c.chunk && |e| >= c.payloadOff && c.completed == (|e| - c.payloadOff) % TWO64
    ensures c.state.RecvPayload? && !cfg.mode.Soak? ==> |e| == c.completed + c.payloadOff && c.completed + c.chunk <= c.goal
  {
    hide PatternBytes, Echoed, Goal;
  }

  lemma AdvancedFlags(cfg: Config, c: Conn, e: seq<byte>, now: real)
    requires !cfg.mode.Soak? ==> |e| == c.completed + c.chunk <= c.goal < TWO64
    ensures Advanced(cfg, c, now).completed == Add64(c.completed, c.chunk)
    ensures Advanced(cfg, c, now).countedFailed == c.countedFailed && Advanced(cfg, c, now).goal == c.goal
    ensures !cfg.mode.Soak? ==> (|e| == c.goal <==> Advanced(cfg, c, now).completed >= c.goal)
  {
    hide PatternBytes;
  }

  // ------------------------------------------------------------------- starting the workload

  lemma ShareIsGoal(cfg: Config, i: nat)
    requires cfg.concurrency > 0
    ensures Goal(cfg, i) == if cfg.mode.Soak? then TWO64 - 1
                            else if cfg.mode.Throughput? then cfg.totalBytes / cfg.concurrency + (if i < cfg.totalBytes % cfg.concurrency then 1 else 0)
                            else CAPACITY_PAYLOAD
  {}

  lemma StartFacts(cfg: Config, v: View)
    requires Inv(cfg, v) && Readies(v.conns) == cfg.concurrency
    ensures |v.conns| == cfg.concurrency > 0 && forall i :: 0 <= i < |v.conns| ==> v.conns[i].state.Ready?
  {
    AllReady(v.conns);
  }

  lemma {:induction false} SumZero(conns: seq<Conn>)
    requires forall i :: 0 <= i < |conns| ==> conns[i].completed == 0
    ensures SumCompleted(conns) == 0
  {
    if conns != [] {
      SumZero(conns[..|conns| - 1]);
    }
  }

  lemma BegunOk(cfg: Config, i: nat, c: Conn, e: seq<byte>, f: bool, now: real)
    requires ValidConfig(cfg) && i < cfg.concurrency && ConnOk(cfg, false, i, c, e, f) && c.state.Ready?
    ensures ConnOk(cfg, true, i, Begun(cfg, c, i, now), e, f)
  {
    hide PatternBytes, Goal;
    GoalFits(cfg, i);
  }

  lemma ReadyFacts(cfg: Config, i: nat, c: Conn, e: seq<byte>, f: bool)
    requires cfg.concurrency > 0 && ConnOk(cfg, false, i, c, e, f) && c.state.Ready?
    ensures c.completed == 0 && !c.countedFailed
  {}

  lemma StartOk(cfg: Config, v: View, conns: seq<Conn>, now: real)
    requires ValidConfig(cfg) && Inv(cfg, v) && !v.started && v.failed == 0 && |conns| == |v.conns|
    requires forall i :: 0 <= i < |v.conns| ==> v.conns[i].state.Ready? && conns[i] == Begun(cfg, v.conns[i], i, now)
    ensures Inv(cfg, v.(conns := conns, started := true))
  {
    hide ConnOk, Goal, SumCompleted, CountFailed;
    forall i | 0 <= i < |conns|
      ensures ConnOk(cfg, true, i, conns[i], v.echoed[i], v.fin[i])
    {
      BegunOk(cfg, i, v.conns[i], v.echoed[i], v.fin[i], now);
    }
    forall i | 0 <= i < |conns|
      ensures v.conns[i].completed == 0 && !v.conns[i].countedFailed
    {
      ReadyFacts(cfg, i, v.conns[i], v.echoed[i], v.fin[i]);
    }
    SumZero(v.conns);
    SumZero(conns);
    NoneFailed(conns);
  }

  // ---------------------------------------------------------------- reading off the invariant

  lemma Sizes(cfg: Config, v: View)
    requires Inv(cfg, v)
    ensures |v.conns| == |v.echoed| == |v.fin| == cfg.concurrency > 0 && v.total < TWO64
  {}

  lemma ConnAt(cfg: Config, v: View, i: nat)
    requires Inv(cfg, v) && i < |v.conns|
    ensures i < |v.echoed| && i < |v.fin| && cfg.concurrency > 0
    ensures ConnOk(cfg, v.started, i, v.conns[i], v.echoed[i], v.fin[i])
    ensures v.conns[i].completed == Add64(v.conns[i].completed, 0)
  {
    hide WorkOk, SetupOk, Goal, CountFailed, CountTrue, SumCompleted;
  }

  lemma FailedCounted(cfg: Config, v: View, i: nat)
    requires Inv(cfg, v) && i < |v.conns| && v.conns[i].countedFailed
    ensures v.failed > 0
  {
    NoneFailed(v.conns);
  }

  lemma BlankOk(cfg: Config, v: View)
    requires ValidConfig(cfg) && |v.conns| == |v.echoed| == |v.fin| == cfg.concurrency && !v.started
    requires v.failed == v.corrupted == v.finished == v.total == 0
    requires forall i :: 0 <= i < |v.conns| ==>
               && v.echoed[i] == [] && !v.fin[i] && v.conns[i].state.Connecting? && v.conns[i].id == i && |v.conns[i].control| == CONTROL_SIZE
               && v.conns[i].open && !v.conns[i].countedFailed && v.conns[i].completed == 0
               && v.conns[i].txOff == v.conns[i].txLen == v.conns[i].rxOff == v.conns[i].rxGoal == 0
    ensures Inv(cfg, v)
  {
    hide Goal, SumCompleted, CountFailed, CountTrue;
    SumZero(v.conns);
    NoneFailed(v.conns);
    NoneTrue(v.fin);
  }

  lemma {:induction false} NoneTrue(fs: seq<bool>)
    requires forall i :: 0 <= i < |fs| ==> !fs[i]
    ensures CountTrue(fs) == 0
  {
    if fs != [] {
      NoneTrue(fs[..|fs| - 1]);
    }
  }

  /** When every connection has been counted as finished and none has failed, each has reached its goal. */
  lemma FinishedAt(cfg: Config, v: View, i: nat)
    requires Inv(cfg, v) && v.started && v.failed == 0 && v.finished == cfg.concurrency && !cfg.mode.Soak? && i < |v.conns|
    ensures i < |v.echoed| && |v.echoed[i]| == v.conns[i].completed == Goal(cfg, i) > 0 && Echoed(i, v.echoed[i])
    ensures i < |v.fin| && v.fin[i] && !v.conns[i].countedFailed
    ensures ConnOk(cfg, true, i, v.conns[i].(open := false, state := State.Done), v.echoed[i], v.fin[i])
  {
    hide Echoed, Goal, CountFailed, CountTrue, SumCompleted, PatternBytes;
    AllTrue(v.fin);
    NoneFailed(v.conns);
  }

  /** A run that succeeded: every connection got its whole pattern back, and the bytes add up. */
  ghost predicate AllEchoed(cfg: Config, v: View)
    requires cfg.concurrency > 0
  {
    && |v.echoed| == cfg.concurrency
    && (forall i :: 0 <= i < cfg.concurrency ==> |v.echoed[i]| == Goal(cfg, i) > 0 && Echoed(i, v.echoed[i]))
    && v.total == SumGoals(cfg, cfg.concurrency) % TWO64
  }

  lemma FinishedAll(cfg: Config, v: View)
    requires Inv(cfg, v) && v.started && v.failed == 0 && v.finished == cfg.concurrency && !cfg.mode.Soak?
    ensures AllEchoed(cfg, v)
  {
    hide Echoed, Goal, CountFailed, CountTrue, SumCompleted, ConnOk, SumGoals;
    forall i | 0 <= i < |v.conns|
      ensures |v.echoed[i]| == v.conns[i].completed == Goal(cfg, i) > 0 && Echoed(i, v.echoed[i])
    {
      FinishedAt(cfg, v, i);
    }
    SumIsGoals(cfg, v.conns);
  }

  /** A connection whose goal is zero stays where it starts or fails, and is never counted as finished. */
  lemma NothingToDo(cfg: Config, v: View, i: nat)
    requires Inv(cfg, v) && v.started && i < |v.conns| && Goal(cfg, i) == 0
    ensures v.conns[i].state.SendPayload? || v.conns[i].state.Failed?
    ensures i < |v.fin| && (v.fin[i] ==> v.conns[i].state.Failed?)
  {
    hide Echoed, CountFailed, CountTrue, SumCompleted, PatternBytes;
  }

  /** With nobody failed, everybody has been counted as finished exactly when everybody is done or held. */
  lemma OverIff(cfg: Config, v: View)
    requires Inv(cfg, v) && v.started && v.failed == 0
    ensures v.finished == cfg.concurrency <==> AllOver(v.conns)
    ensures v.corrupted == 0
  {
    hide Echoed, Goal, CountFailed, CountTrue, SumCompleted, PatternBytes;
    AllTrue(v.fin);
    NoneFailed(v.conns);
  }

  // --------------------------------------------------------------------------------- the run

  /** The poll results of a turn, connection by connection. */
  method HandlePoll(g: Generator, ios: seq<Io>, now: real, ghost work: real)
    requires g.Valid()
    modifies g, g.conns
    ensures g.Valid() && |old(g.echoed)| == g.conns.Length && g.L(work) == AfterPoll(g.cfg, old(g.L(work)), ios, now)
  {
    hide Inv, AfterEvents, EchoAfter;
    Sizes(g.cfg, g.V());
    ghost var l := g.L(work);
    for i := 0 to g.conns.Length
      invariant g.Valid() && |g.echoed| == g.conns.Length && g.started == l.started
      invariant forall j :: 0 <= j < i ==> g.conns[j] == AfterEvents(g.cfg, l.conns[j], IoAt(ios, j), now)
      invariant forall j :: 0 <= j < i ==> g.echoed[j] == EchoAfter(l.conns[j], l.echoed[j], IoAt(ios, j))
      invariant forall j :: i <= j < g.conns.Length ==> g.conns[j] == l.conns[j] && g.echoed[j] == l.echoed[j]
    {
      g.HandleEvents(i, if i < |ios| then ios[i] else QUIET, now);
    }
    ghost var m := AfterPoll(g.cfg, l, ios, now);
    assert g.conns[..] == m.conns;
    assert g.echoed == m.echoed;
  }

  /** A turn up to poll(2), once the workload has started and nobody has failed. */
  method Work(g: Generator, round: Round, work: real) returns (code: Option<int>)
    requires g.Valid() && g.started && g.failed == 0
    modifies g, g.conns
    ensures g.Valid() && (code == None || code == Some(0) || code == Some(1))
    ensures Turn(code, g.L(work)) == Working(g.cfg, old(g.L(work)), round)
    ensures code == Some(0) ==> g.started && g.failed == 0 && g.corrupted == 0 && g.finished == g.cfg.concurrency
    ensures code == Some(0) && !g.cfg.mode.Soak? ==> AllEchoed(g.cfg, g.V())
  {
    hide Inv, AllEchoed, AllOver;
    var now := round.now;
    ghost var l := g.L(work);
    if g.cfg.mode.Soak? && now - work >= g.cfg.duration as real {
      g.FinishSoak();
      assert g.conns[..] == Ended(l).conns;
    }
    OverIff(g.cfg, g.V());
    if g.finished == g.cfg.concurrency {
      code := Finish(g, round, work);
      return;
    }
    if now - work > RUN_TIMEOUT + if g.cfg.mode.Soak? then g.cfg.duration as real else 0.0 {
      return Some(1);
    }
    if g.cfg.mode.Soak? && now - work < g.cfg.duration as real {
      g.Refill(now);
      assert g.conns[..] == Refilled(l, now).conns;
    }
    code := None;
  }

  /** Everybody has finished. A capacity run holds its connections until it is released. */
  method Finish(g: Generator, round: Round, work: real) returns (code: Option<int>)
    requires g.Valid() && g.started && g.failed == 0 && g.corrupted == 0 && g.finished == g.cfg.concurrency
    modifies g.conns, g`echoed, g`fin
    ensures g.Valid() && g.L(work) == (if g.cfg.mode.Capacity? then Closed(old(g.L(work))) else old(g.L(work)))
    ensures code == Some(if g.cfg.mode.Capacity? && !round.released then 1 else 0)
    ensures !g.cfg.mode.Soak? ==> AllEchoed(g.cfg, g.V())
  {
    hide Inv, AllEchoed;
    ghost var l := g.L(work);
    if g.cfg.mode.Capacity? {
      g.CloseHeld();
      assert g.conns[..] == Closed(l).conns;
      code := if round.released then Some(0) else Some(1);
    } else {
      code := if g.failed == 0 && g.corrupted == 0 then Some(0) else Some(1);
    }
    FinishedIf(g.cfg, g.V());
  }

  lemma FinishedIf(cfg: Config, v: View)
    requires Inv(cfg, v) && v.started && v.failed == 0 && v.finished == cfg.concurrency
    ensures !cfg.mode.Soak? ==> AllEchoed(cfg, v)
  {
    hide Inv, AllEchoed;
    if !cfg.mode.Soak? {
      FinishedAll(cfg, v);
    }
  }

  /** The same while the connections are still being set up. */
  method SetUp(g: Generator, round: Round, setup: real, work: real) returns (code: Option<int>, work': real)
    requires g.Valid() && !g.started
    modifies g, g.conns
    ensures g.Valid() && (code == None || code == Some(0) || code == Some(1))
    ensures Turn(code, g.L(work')) == Before(g.cfg, old(g.L(work)), round, setup)
    ensures code == Some(0) ==> g.started && g.failed == 0 && g.corrupted == 0 && g.finished == g.cfg.concurrency
    ensures code == Some(0) && !g.cfg.mode.Soak? ==> AllEchoed(g.cfg, g.V())
  {
    hide Inv, AllEchoed, Working, Begun, Readies, CountFailed, ExpiredConn;
    ghost var l := g.L(work);
    work' := work;
    if round.now - setup > HANDSHAKE_TIMEOUT {
      g.ExpireHandshakes();
      assert g.conns[..] == Expired(l).conns;
    }
    Counts(g.cfg, g.V());
    var ready := g.CountReady();
    if ready + g.failed != g.cfg.concurrency {
      return None, work';
    }
    if g.failed > 0 {
      return Some(1), work';
    }
    work' := round.now;
    Launch(g, work, round.now);
    code := Work(g, round, work');
  }

  /** The workload starts. */
  method Launch(g: Generator, ghost work: real, now: real)
    requires g.Valid() && !g.started && g.failed == 0 && Readies(g.conns[..]) == g.cfg.concurrency
    modifies g, g.conns
    ensures g.Valid() && g.started && g.failed == 0 && g.L(now) == Started(g.cfg, old(g.L(work)), now)
  {
    hide Inv, Begun, Readies;
    ghost var l := g.L(work);
    g.StartWorkload(now);
    assert g.conns[..] == Started(g.cfg, l, now).conns;
  }

  /** One turn of the loop of stress_load_run up to poll(2): the exit code when it breaks out. `work` is when
  the workload started. */
  method BeforePoll(g: Generator, round: Round, setup: real, work: real) returns (code: Option<int>, work': real)
    requires g.Valid()
    modifies g, g.conns
    ensures g.Valid() && (code == None || code == Some(0) || code == Some(1))
    ensures Turn(code, g.L(work')) == Before(g.cfg, old(g.L(work)), round, setup)
    ensures code == Some(0) ==> g.started && g.failed == 0 && g.corrupted == 0 && g.finished == g.cfg.concurrency
    ensures code == Some(0) && !g.cfg.mode.Soak? ==> AllEchoed(g.cfg, g.V())
  {
    hide Inv, AllEchoed, Working, Readies, CountFailed, Expired, Started;
    Counts(g.cfg, g.V());
    work' := work;
    if !g.started {
      code, work' := SetUp(g, round, setup, work);
    } else if g.failed > 0 {
      code := Some(1);
    } else {
      code := Work(g, round, work');
    }
  }

  lemma Counts(cfg: Config, v: View)
    requires Inv(cfg, v)
    ensures v.failed == CountFailed(v.conns) && cfg.concurrency > 0
  {}

  /** stress_load_run: its exit code, or None while it is still going when the rounds run out. */
  method Run(cfg: Config, begins: seq<Begin>, setup: real, rounds: seq<Round>) returns (code: Option<int>, g: Generator?, ghost begun: real)
    requires cfg.totalBytes < TWO64 && 0 <= cfg.targetPort < 65536
    ensures code == Some(2) <==> cfg.concurrency == 0 || cfg.concurrency > CEILING
    ensures code != Some(2) ==> g != null && g.Valid() && g.cfg == cfg && cfg.concurrency > 0
    ensures code != Some(2) ==> Outcome(cfg, begins, setup, rounds) == Turn(code, g.L(begun))
    ensures code == Some(0) ==> g.started && g.failed == 0 && g.corrupted == 0 && g.finished == cfg.concurrency
    ensures code == Some(0) && !cfg.mode.Soak? ==> AllEchoed(cfg, g.V())
    ensures code == Some(0) && cfg.mode.Throughput? ==> g.total == cfg.totalBytes >= cfg.concurrency
  {
    hide Inv, AllEchoed, SumGoals, RunFrom, Before, AfterPoll, Initial;
    if cfg.concurrency == 0 || cfg.concurrency > CEILING {
      return Some(2), null, 0.0;
    }
    var gen := new Generator(cfg, begins);
    g := gen;
    var work := 0.0;
    ghost var l := Initial(cfg, begins);
    StartsAtZero(cfg, begins);
    for k := 0 to |rounds|
      invariant gen.Valid() && gen.cfg == cfg && fresh(gen) && fresh(gen.conns) && g == gen && |gen.echoed| == gen.conns.Length
      invariant RunFrom(cfg, l, setup, rounds) == RunFrom(cfg, gen.L(work), setup, rounds[k..])
    {
      RunFromUnfold(cfg, gen.L(work), setup, rounds, k);
      code, work := BeforePoll(gen, rounds[k], setup, work);
      Sizes(cfg, gen.V());
      if code.Some? {
        ThroughputTotal(cfg, gen.V());
        return code, g, work;
      }
      match rounds[k].poll {
        case Interrupted =>
        case PollFailed => return Some(1), g, work;
        case Polled(ios) =>
          HandlePoll(gen, ios, rounds[k].now, work);
          Sizes(cfg, gen.V());
      }
    }
    assert rounds[|rounds|..] == [];
    RunFromEnd(cfg, gen.L(work), setup);
    code, begun := None, work;
  }

  lemma StartsAtZero(cfg: Config, begins: seq<Begin>)
    ensures Initial(cfg, begins).(work := 0.0) == Initial(cfg, begins)
  {}

  lemma RunFromEnd(cfg: Config, l: Loop, setup: real)
    requires cfg.concurrency > 0 && |l.echoed| == |l.conns|
    ensures RunFrom(cfg, l, setup, []) == Turn(None, l)
  {}

  lemma RunFromUnfold(cfg: Config, l: Loop, setup: real, rounds: seq<Round>, k: nat)
    requires cfg.concurrency > 0 && |l.echoed| == |l.conns| && k < |rounds|
    ensures var t := Before(cfg, l, rounds[k], setup);
            RunFrom(cfg, l, setup, rounds[k..]) ==
              if t.code.Some? then t
              else match rounds[k].poll
                   case Interrupted => RunFrom(cfg, t.loop, setup, rounds[k + 1..])
                   case PollFailed => Turn(Some(1), t.loop)
                   case Polled(ios) => RunFrom(cfg, AfterPoll(cfg, t.loop, ios, rounds[k].now), setup, rounds[k + 1..])
  {
    hide Before, AfterPoll;
    assert rounds[k..][1..] == rounds[k + 1..];
  }

  /** In throughput mode success means exactly the bytes asked for, and at least one byte per connection: with
  fewer bytes than connections some connection has nothing to send and never finishes. */
  lemma ThroughputTotal(cfg: Config, v: View)
    requires ValidConfig(cfg)
    ensures AllEchoed(cfg, v) && cfg.mode.Throughput? ==> v.total == cfg.totalBytes >= cfg.concurrency
  {
    hide Goal, SumGoals, Echoed;
    if cfg.mode.Throughput? {
      GoalsSum(cfg);
      GoalFits(cfg, cfg.concurrency - 1);
    }
  }
}
