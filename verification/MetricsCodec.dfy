/** Reading METRICS back: stress_parse_metrics (stress/stress_helpers.c:76-145) against cmd_metrics. */
module MetricsCodec {
  import opened Sequences
  import opened Decimal
  import opened MgmtLine
  import opened MgmtReplies
  import opened MgmtCommands

  const HEADER := "+OK 7\n"
  const LINE_SIZE := 128

  /** The seven keys, in the order in which they are tried and printed. */
  function Key(k: nat): (s: string)
    requires k < 7
  {
    if k == 0 then "active_connections"
    else if k == 1 then "historical_connections"
    else if k == 2 then "max_active_connections"
    else if k == 3 then "bytes_client_to_origin"
    else if k == 4 then "bytes_origin_to_client"
    else if k == 5 then "total_bytes"
    else "users_count"
  }

  /** parse_u64: `key`, a space, a number and nothing else. */
  function ParseU64(line: string, key: string): (r: Option<nat>) {
    if |line| <= |key| || line[..|key|] != key || line[|key|] != ' ' then None
    else
      var text := line[|key| + 1..];
      var (v, end) := StrToUl(text);
      if end == 0 || end != |text| then None else Some(v)
  }

  predicate Has(line: string, k: nat)
    requires k < 7
  {
    ParseU64(line, Key(k)).Some?
  }

  /** The first key a line has a number for, or 7. */
  function FieldKey(line: string): (k: nat)
    ensures k <= 7
  {
    hide Has;
    if Has(line, 0) then 0
    else if Has(line, 1) then 1
    else if Has(line, 2) then 2
    else if Has(line, 3) then 3
    else if Has(line, 4) then 4
    else if Has(line, 5) then 5
    else if Has(line, 6) then 6
    else 7
  }

  /** That number. */
  function FieldValue(line: string): (v: nat)
    requires FieldKey(line) < 7
  {
    match ParseU64(line, Key(FieldKey(line)))
    case Some(v) => v
    case None => 0
  }

  // ---------------------------------------------------------------------- the specification

  ghost predicate GoodLine(line: string) {
    |line| < LINE_SIZE && FieldKey(line) < 7
  }

  ghost predicate Covers(lines: seq<string>, k: nat) {
    exists i :: 0 <= i < |lines| && FieldKey(lines[i]) == k
  }

  /** Every line has a key and a number, and no key comes twice. */
  ghost predicate GoodLines(lines: seq<string>) {
    && (forall i :: 0 <= i < |lines| ==> GoodLine(lines[i]))
    && (forall i, j :: 0 <= i < j < |lines| ==> FieldKey(lines[i]) != FieldKey(lines[j]))
  }

  /** `values` holds, for each key, the number on that key's line. */
  ghost predicate Reads(lines: seq<string>, values: seq<nat>) {
    hide FieldKey;
    |values| == 7 && forall i :: 0 <= i < |lines| ==> GoodLine(lines[i]) && values[FieldKey(lines[i])] == FieldValue(lines[i])
  }

  /** The texts that are a METRICS reply: the header, seven lines with all the keys, and the end. */
  ghost predicate IsMetrics(response: string, lines: seq<string>) {
    && HEADER <= response && TakeLines(response[|HEADER|..], 7) == Some((lines, []))
    && GoodLines(lines) && forall k :: 0 <= k < 7 ==> Covers(lines, k)
  }

  // -------------------------------------------------------------------------- the bit mask

  function Bit(k: nat): (b: bv8)
    requires k < 7
  {
    if k == 0 then 1 else if k == 1 then 2 else if k == 2 then 4 else if k == 3 then 8
    else if k == 4 then 16 else if k == 5 then 32 else 64
  }

  lemma BitSet(seen: bv8, j: nat, k: nat)
    requires j < 7 && k < 7
    ensures (seen | Bit(k)) & Bit(j) != 0 <==> seen & Bit(j) != 0 || j == k
    ensures seen & 0x80 == 0 ==> (seen | Bit(k)) & 0x80 == 0
  {}

  lemma AllBits(seen: bv8)
    requires seen & 0x80 == 0
    ensures seen == 0x7f <==> forall k :: 0 <= k < 7 ==> seen & Bit(k) != 0
  {
    if forall k :: 0 <= k < 7 ==> seen & Bit(k) != 0 {
      assert seen & Bit(0) != 0 && seen & Bit(1) != 0 && seen & Bit(2) != 0 && seen & Bit(3) != 0;
      assert seen & Bit(4) != 0 && seen & Bit(5) != 0 && seen & Bit(6) != 0;
    }
  }

  // ------------------------------------------------------------------------------ the scan

  function Joined(lines: seq<string>, r: Option<(seq<string>, string)>): (j: Option<(seq<string>, string)>) {
    match r
    case None => None
    case Some((more, rest)) => Some((lines + more, rest))
  }

  /** The lines read so far, the text left, the values stored and the keys marked as seen. */
  ghost predicate Scanned(response: string, lines: seq<string>, p: string, values: seq<nat>, seen: bv8) {
    && HEADER <= response && |lines| <= 7
    && TakeLines(response[|HEADER|..], 7) == Joined(lines, TakeLines(p, 7 - |lines|))
    && GoodLines(lines) && Reads(lines, values)
    && seen & 0x80 == 0 && forall k :: 0 <= k < 7 ==> (seen & Bit(k) != 0 <==> Covers(lines, k))
  }

  lemma ScanStart(response: string)
    requires HEADER <= response
    ensures Scanned(response, [], response[|HEADER|..], [0, 0, 0, 0, 0, 0, 0], 0)
  {
    hide TakeLines, Bit;
    var r := TakeLines(response[|HEADER|..], 7);
    if r.Some? {
      assert [] + r.value.0 == r.value.0;
    }
    forall k | 0 <= k < 7
      ensures (0 as bv8) & Bit(k) == 0
    {}
  }

  /** One line off the front. */
  lemma TakeOne(lines: seq<string>, p: string, n: nat)
    requires n > 0
    ensures var k := LineEnd(p);
            Joined(lines, TakeLines(p, n)) == if k == |p| then None else Joined(lines + [p[..k]], TakeLines(p[k + 1..], n - 1))
  {
    hide LineEnd;
    var k := LineEnd(p);
    if k < |p| {
      var r := TakeLines(p[k + 1..], n - 1);
      if r.Some? {
        assert lines + ([p[..k]] + r.value.0) == lines + [p[..k]] + r.value.0;
      }
    }
  }

  lemma GoodMore(lines: seq<string>, line: string, values: seq<nat>)
    requires GoodLines(lines) && Reads(lines, values) && GoodLine(line) && !Covers(lines, FieldKey(line))
    ensures var more := lines + [line];
            && GoodLines(more) && Reads(more, values[FieldKey(line) := FieldValue(line)])
            && forall k :: Covers(more, k) <==> Covers(lines, k) || k == FieldKey(line)
  {
    hide FieldKey, FieldValue;
    var more := lines + [line];
    forall k
      ensures Covers(more, k) <==> Covers(lines, k) || k == FieldKey(line)
    {
      if Covers(lines, k) {
        var i :| 0 <= i < |lines| && FieldKey(lines[i]) == k;
        assert FieldKey(more[i]) == k;
      }
      if k == FieldKey(line) {
        assert FieldKey(more[|lines|]) == k;
      }
    }
  }

  lemma ScanStep(response: string, lines: seq<string>, p: string, values: seq<nat>, seen: bv8, line: string)
    requires Scanned(response, lines, p, values, seen) && |lines| < 7 && LineEnd(p) < |p| && line == p[..LineEnd(p)]
    requires GoodLine(line) && seen & Bit(FieldKey(line)) == 0
    ensures Scanned(response, lines + [line], p[LineEnd(p) + 1..], values[FieldKey(line) := FieldValue(line)], seen | Bit(FieldKey(line)))
  {
    hide TakeLines, Bit, LineEnd, GoodLines, Reads, Covers, FieldKey, FieldValue, Joined;
    TakeOne(lines, p, 7 - |lines|);
    GoodMore(lines, line, values);
    forall k | 0 <= k < 7
      ensures (seen | Bit(FieldKey(line))) & Bit(k) != 0 <==> Covers(lines + [line], k)
    {
      BitSet(seen, k, FieldKey(line));
    }
    BitSet(seen, 0, FieldKey(line));
  }

  lemma NextLine(lines: seq<string>, p: string, n: nat, ls: seq<string>)
    requires n > 0 && Joined(lines, TakeLines(p, n)) == Some((ls, []))
    ensures LineEnd(p) < |p| && |lines| < |ls| && ls[|lines|] == p[..LineEnd(p)] && lines <= ls
  {
    hide TakeLines, LineEnd;
    TakeOne(lines, p, n);
  }

  /** A key met before. */
  lemma Repeated(lines: seq<string>, ls: seq<string>)
    requires lines < ls && GoodLines(ls)
    ensures GoodLine(ls[|lines|]) && !Covers(lines, FieldKey(ls[|lines|]))
  {
    hide FieldKey;
    forall i | 0 <= i < |lines|
      ensures FieldKey(lines[i]) != FieldKey(ls[|lines|])
    {
      assert ls[i] == lines[i];
    }
  }

  /** A line that is missing, bad or repeated: the text is not a METRICS reply. */
  lemma ScanFail(response: string, lines: seq<string>, p: string, values: seq<nat>, seen: bv8)
    requires Scanned(response, lines, p, values, seen) && |lines| < 7
    requires LineEnd(p) == |p| || !GoodLine(p[..LineEnd(p)]) || seen & Bit(FieldKey(p[..LineEnd(p)])) != 0
    ensures forall ls :: !IsMetrics(response, ls)
  {
    hide TakeLines, Bit, LineEnd, FieldKey, Joined, GoodLines, Covers, Reads;
    forall ls
      ensures !IsMetrics(response, ls)
    {
      if IsMetrics(response, ls) {
        NextLine(lines, p, 7 - |lines|, ls);
        Repeated(lines, ls);
      }
    }
  }

  lemma ScanEnd(response: string, lines: seq<string>, p: string, values: seq<nat>, seen: bv8)
    requires Scanned(response, lines, p, values, seen) && |lines| == 7
    ensures if seen == 0x7f && p == [] then IsMetrics(response, lines) else forall ls :: !IsMetrics(response, ls)
  {
    hide Bit, FieldKey, GoodLines, Reads, Covers;
    AllBits(seen);
    assert lines + [] == lines;
  }

  /** stress_parse_metrics: a value exactly for the METRICS replies, each number under its own key. */
  method ParseMetrics(response: string) returns (r: Option<seq<nat>>)
    ensures r.None? ==> forall lines :: !IsMetrics(response, lines)
    ensures r.Some? ==> exists lines :: IsMetrics(response, lines) && Reads(lines, r.value)
  {
    hide TakeLines, Bit, LineEnd, FieldKey, FieldValue, IsMetrics, Scanned, Reads;
    if !(HEADER <= response) {
      NoHeader(response);
      return None;
    }
    var values: seq<nat>, seen: bv8, p := [0, 0, 0, 0, 0, 0, 0], 0, response[|HEADER|..];
    ghost var lines := [];
    ScanStart(response);
    for i := 0 to 7
      invariant |lines| == i && |values| == 7 && Scanned(response, lines, p, values, seen)
    {
      var end := LineEnd(p);
      if end == |p| || end >= LINE_SIZE {
        ScanFail(response, lines, p, values, seen);
        return None;
      }
      var line := p[..end];
      var k := FieldKey(line);
      if k == 7 {
        ScanFail(response, lines, p, values, seen);
        return None;
      }
      if seen & Bit(k) != 0 {
        ScanFail(response, lines, p, values, seen);
        return None;
      }
      ScanStep(response, lines, p, values, seen, line);
      values, seen, p, lines := values[k := FieldValue(line)], seen | Bit(k), p[end + 1..], lines + [line];
    }
    ScanEnd(response, lines, p, values, seen);
    if seen != 0x7f || p != [] {
      return None;
    }
    ScanReads(response, lines, p, values, seen);
    r := Some(values);
  }

  lemma NoHeader(response: string)
    requires !(HEADER <= response)
    ensures forall lines :: !IsMetrics(response, lines)
  {}

  lemma ScanReads(response: string, lines: seq<string>, p: string, values: seq<nat>, seen: bv8)
    requires Scanned(response, lines, p, values, seen)
    ensures GoodLines(lines) && Reads(lines, values)
  {}

  // ------------------------------------------------------------------------- the round trip

  lemma KeyFacts(k: nat)
    requires k < 7
    ensures 0 < |Key(k)| <= 22 && ' ' !in Key(k)
  {}

  lemma KeysDiffer(j: nat, k: nat)
    requires j < k < 7
    ensures Key(j) != Key(k)
  {
    assert Key(1)[0] == 'h' && Key(2)[0] == 'm' && Key(3)[0] == 'b' && Key(4)[0] == 'b' && Key(5)[0] == 't' && Key(6)[0] == 'u';
    assert Key(3)[6] == 'c' && Key(4)[6] == 'o';
  }

  /** A key that is followed by a space is recognised by no other key. */
  lemma OtherKey(line: string, j: nat, k: nat)
    requires j < 7 && k < 7 && j != k && |line| > |Key(k)| && line[..|Key(k)|] == Key(k) && line[|Key(k)|] == ' '
    ensures !Has(line, j)
  {
    hide Key;
    KeyFacts(j);
    KeyFacts(k);
    if j < k {
      KeysDiffer(j, k);
    } else {
      KeysDiffer(k, j);
    }
    var a, b := Key(j), Key(k);
    assert |a| < |b| ==> line[|a|] == b[|a|] && b[|a|] in b;
    assert |b| < |a| ==> a[|b|] in a;
    assert |b| < |a| < |line| ==> line[..|a|][|b|] != a[|b|];
  }

  lemma FieldIs(k: nat, v: nat)
    requires k < 7 && v <= U64_MAX
    ensures var line := Key(k) + " " + Print(v); GoodLine(line) && FieldKey(line) == k && FieldValue(line) == v && NoLf(line)
  {
    hide Key, Has, Print, StrToUl;
    var line := Key(k) + " " + Print(v);
    KeyFacts(k);
    assert line[..|Key(k)|] == Key(k) && line[|Key(k)|] == ' ' && line[|Key(k)| + 1..] == Print(v) == Print(v) + [];
    StrToUlPrint(v, []);
    PrintLength64(v);
    HasOwn(line, k, v);
    forall j | 0 <= j < 7 && j != k
      ensures !Has(line, j)
    {
      OtherKey(line, j, k);
    }
    DigitsNoLf(v);
    KeyNoLf(k);
  }

  lemma HasOwn(line: string, k: nat, v: nat)
    requires k < 7 && ParseU64(line, Key(k)) == Some(v)
    ensures Has(line, k)
  {}

  lemma KeyNoLf(k: nat)
    requires k < 7
    ensures NoLf(Key(k))
  {}

  /** The seven numbers a METRICS reply stands for. */
  function Values(m: Counters, users: nat): (vs: seq<nat>)
    ensures |vs| == 7
  {
    [m.active, m.historical, m.maxActive, m.toOrigin, m.toClient, TotalBytes(m), users]
  }

  lemma MetricsLineIs(m: Counters, users: nat, k: nat)
    requires k < 7
    ensures MetricsLines(m, users)[k] == Key(k) + " " + Print(Values(m, users)[k])
  {
    hide Print;
  }

  lemma MetricsGood(m: Counters, users: nat)
    requires ValidMetrics(m) && users <= U64_MAX
    ensures var lines := MetricsLines(m, users);
            && GoodLines(lines) && (forall k :: 0 <= k < 7 ==> Covers(lines, k) && NoLf(lines[k]))
            && forall k :: 0 <= k < 7 ==> FieldKey(lines[k]) == k && FieldValue(lines[k]) == Values(m, users)[k]
  {
    hide MetricsLines, Values, FieldKey, FieldValue, NoLf, Print, Key;
    var lines := MetricsLines(m, users);
    ValuesBound(m, users);
    forall k | 0 <= k < 7
      ensures GoodLine(lines[k]) && FieldKey(lines[k]) == k && FieldValue(lines[k]) == Values(m, users)[k] && NoLf(lines[k])
    {
      MetricsLineIs(m, users, k);
      FieldIs(k, Values(m, users)[k]);
    }
    forall k | 0 <= k < 7
      ensures Covers(lines, k)
    {
      assert FieldKey(lines[k]) == k;
    }
  }

  lemma ValuesBound(m: Counters, users: nat)
    requires ValidMetrics(m) && users <= U64_MAX
    ensures forall k :: 0 <= k < 7 ==> Values(m, users)[k] <= U64_MAX
  {}

  lemma HeaderIs(lines: seq<string>)
    requires |lines| == 7
    ensures Render(Listing(lines)) == HEADER + Body(lines)
  {
    hide Body;
    assert Print(7) == "7";
  }

  /** The printed reply is a METRICS reply, and whoever reads it reads the counters. */
  lemma MetricsRoundTrip(m: Counters, users: nat, lines: seq<string>, values: seq<nat>)
    requires ValidMetrics(m) && users <= U64_MAX
    requires IsMetrics(Render(Listing(MetricsLines(m, users))), lines) && Reads(lines, values)
    ensures lines == MetricsLines(m, users) && values == Values(m, users)
  {
    hide MetricsLines, Values, FieldKey, FieldValue, Body, Render, GoodLines, Covers, Listing, TakeLines;
    var printed := MetricsLines(m, users);
    var text := Render(Listing(printed));
    MetricsGood(m, users);
    HeaderIs(printed);
    TakeBody(printed, []);
    assert text[|HEADER|..] == Body(printed) == Body(printed) + [];
    assert lines == printed;
    forall k | 0 <= k < 7
      ensures values[k] == Values(m, users)[k]
    {
      assert FieldKey(lines[k]) == k;
    }
  }

  lemma PrintedIsMetrics(m: Counters, users: nat)
    requires ValidMetrics(m) && users <= U64_MAX
    ensures IsMetrics(Render(Listing(MetricsLines(m, users))), MetricsLines(m, users))
  {
    hide MetricsLines, Values, FieldKey, FieldValue, Body, Render, GoodLines, Covers, Listing, TakeLines;
    var printed := MetricsLines(m, users);
    var text := Render(Listing(printed));
    MetricsGood(m, users);
    HeaderIs(printed);
    TakeBody(printed, []);
    assert text[|HEADER|..] == Body(printed) == Body(printed) + [];
  }

  /** Printing METRICS and reading it back gives the same seven values, for all 64-bit counters. */
  method ReadBack(m: Counters, users: nat) returns (r: Option<seq<nat>>)
    requires ValidMetrics(m) && users <= U64_MAX
    ensures r == Some(Values(m, users))
  {
    hide IsMetrics, Reads, MetricsLines, Values, Render, Listing;
    var text := Render(Listing(MetricsLines(m, users)));
    r := ParseMetrics(text);
    PrintedIsMetrics(m, users);
    ghost var lines :| IsMetrics(text, lines) && Reads(lines, r.value);
    MetricsRoundTrip(m, users, lines, r.value);
  }
}
