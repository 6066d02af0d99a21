/** SMCP replies: a status line, then as many data lines as the status line announces. */
module MgmtReplies {
  import opened Sequences
  import opened Decimal
  import opened MgmtLine

  datatype Reply = Reply(status: string, data: seq<string>)

  predicate NoLf(s: string) {
    '\n' !in s
  }

  /** The data lines, each with its LF. */
  function Body(data: seq<string>): (s: string) {
    if data == [] then [] else Body(data[..|data| - 1]) + data[|data| - 1] + "\n"
  }

  function Render(r: Reply): (s: string)
    ensures s != []
  {
    r.status + "\n" + Body(r.data)
  }

  function RenderAll(rs: seq<Reply>): (s: string) {
    if rs == [] then [] else RenderAll(rs[..|rs| - 1]) + Render(rs[|rs| - 1])
  }

  /** A reply with `n` data lines. */
  function Listing(data: seq<string>): (r: Reply) {
    Reply("+OK " + Print(|data|), data)
  }

  function Line(status: string): (r: Reply) {
    Reply(status, [])
  }

  /** How many data lines a status line announces: the number in "+OK n", otherwise none. */
  function Announced(status: string): (n: nat) {
    if |status| > 4 && status[..4] == "+OK " && DigitRun(status[4..]) == |status| - 4 then Value(status[4..][..|status| - 4])
    else 0
  }

  /** The line discipline of section 3.3 of docs/protocolo.md. */
  ghost predicate WellFramed(r: Reply) {
    && NoLf(r.status) && (forall i :: 0 <= i < |r.data| ==> NoLf(r.data[i]))
    && Announced(r.status) == |r.data|
  }

  lemma ListingAnnounces(data: seq<string>)
    requires forall i :: 0 <= i < |data| ==> NoLf(data[i])
    ensures WellFramed(Listing(data))
  {
    var digits := Print(|data|);
    var status := "+OK " + digits;
    assert status[4..] == digits == digits + [];
    DigitRunIs(digits, []);
    ValuePrint(|data|);
    assert digits[..|digits|] == digits;
    assert NoLf(status) by {
      assert forall i :: 0 <= i < |digits| ==> IsDigit(digits[i]);
    }
  }

  // -------------------------------------------------------- a client that knows the discipline

  function TakeLines(s: string, n: nat): (r: Option<(seq<string>, string)>)
    decreases n
  {
    if n == 0 then Some(([], s))
    else
      var k := LineEnd(s);
      if k == |s| then None
      else
        match TakeLines(s[k + 1..], n - 1)
        case None => None
        case Some((lines, rest)) => Some(([s[..k]] + lines, rest))
  }

  function ReadReply(s: string): (r: Option<(Reply, string)>) {
    var k := LineEnd(s);
    if k == |s| then None
    else
      match TakeLines(s[k + 1..], Announced(s[..k]))
      case None => None
      case Some((lines, rest)) => Some((Reply(s[..k], lines), rest))
  }

  lemma {:induction false} BodyCons(first: string, data: seq<string>)
    ensures Body([first] + data) == first + "\n" + Body(data)
  {
    var all := [first] + data;
    if data == [] {
      assert all[..0] == [];
      assert Body(all) == [] + first + "\n";
    } else {
      assert all[..|all| - 1] == [first] + data[..|data| - 1];
      BodyCons(first, data[..|data| - 1]);
    }
  }

  lemma FirstLine(line: string, rest: string)
    requires NoLf(line)
    ensures var s := line + "\n" + rest; LineEnd(s) == |line| < |s| && s[..|line|] == line && s[|line| + 1..] == rest
  {
    LineEndIs(line, "\n" + rest);
    assert line + "\n" + rest == line + ("\n" + rest);
  }

  lemma {:induction false} TakeBody(data: seq<string>, rest: string)
    requires forall i :: 0 <= i < |data| ==> NoLf(data[i])
    ensures TakeLines(Body(data) + rest, |data|) == Some((data, rest))
    decreases |data|
  {
    if data == [] {
      assert Body(data) + rest == rest;
    } else {
      BodyCons(data[0], data[1..]);
      assert data == [data[0]] + data[1..];
      assert Body(data) + rest == data[0] + "\n" + (Body(data[1..]) + rest);
      FirstLine(data[0], Body(data[1..]) + rest);
      TakeBody(data[1..], rest);
    }
  }

  lemma {:induction false} TakenLinesClean(s: string, n: nat)
    ensures var r := TakeLines(s, n); r.Some? ==> |r.value.0| == n && forall i :: 0 <= i < n ==> NoLf(r.value.0[i])
    decreases n
  {
    var k := LineEnd(s);
    if n > 0 && k < |s| {
      TakenLinesClean(s[k + 1..], n - 1);
    }
  }

  /** Whatever is read as a reply is well framed. */
  lemma ReadIsFramed(s: string)
    ensures ReadReply(s).Some? ==> WellFramed(ReadReply(s).value.0)
  {
    hide TakeLines, Announced;
    var k := LineEnd(s);
    if k < |s| {
      TakenLinesClean(s[k + 1..], Announced(s[..k]));
    }
  }

  /** Replies delimit themselves, exactly if they are well framed: whatever follows, a client then recovers the
  reply and the rest of the stream. */
  lemma ReadRender(r: Reply, rest: string)
    ensures ReadReply(Render(r) + rest) == Some((r, rest)) <==> WellFramed(r)
  {
    ReadIsFramed(Render(r) + rest);
    if WellFramed(r) {
      assert Render(r) + rest == r.status + "\n" + (Body(r.data) + rest);
      FirstLine(r.status, Body(r.data) + rest);
      TakeBody(r.data, rest);
    }
  }

  function ReadReplies(s: string, n: nat): (r: Option<(seq<Reply>, string)>)
    decreases n
  {
    if n == 0 then Some(([], s))
    else
      match ReadReply(s)
      case None => None
      case Some((first, rest)) =>
        match ReadReplies(rest, n - 1)
        case None => None
        case Some((more, tail)) => Some(([first] + more, tail))
  }

  lemma {:induction false} RenderAllCons(first: Reply, rs: seq<Reply>)
    ensures RenderAll([first] + rs) == Render(first) + RenderAll(rs)
  {
    hide Render;
    var all := [first] + rs;
    if rs == [] {
      assert all[..0] == [];
      assert RenderAll(all) == [] + Render(first);
    } else {
      assert all[..|all| - 1] == [first] + rs[..|rs| - 1];
      RenderAllCons(first, rs[..|rs| - 1]);
    }
  }

  /** A session's whole output decodes to its replies, in order, exactly if they are all well framed. */
  lemma ReadRenderAll(rs: seq<Reply>, rest: string)
    ensures ReadReplies(RenderAll(rs) + rest, |rs|) == Some((rs, rest)) <==> forall i :: 0 <= i < |rs| ==> WellFramed(rs[i])
  {
    hide ReadReplies, RenderAll, WellFramed;
    AllReadFramed(RenderAll(rs) + rest, |rs|);
    if forall i :: 0 <= i < |rs| ==> WellFramed(rs[i]) {
      FramedRepliesRead(rs, rest);
    }
  }

  lemma {:induction false} AllReadFramed(s: string, n: nat)
    ensures var r := ReadReplies(s, n); r.Some? ==> forall i :: 0 <= i < |r.value.0| ==> WellFramed(r.value.0[i])
    decreases n
  {
    hide ReadReply, WellFramed;
    ReadIsFramed(s);
    if n > 0 && ReadReply(s).Some? {
      AllReadFramed(ReadReply(s).value.1, n - 1);
    }
  }

  lemma {:induction false} FramedRepliesRead(rs: seq<Reply>, rest: string)
    requires forall i :: 0 <= i < |rs| ==> WellFramed(rs[i])
    ensures ReadReplies(RenderAll(rs) + rest, |rs|) == Some((rs, rest))
    decreases |rs|
  {
    hide ReadReply, WellFramed, Render;
    if rs == [] {
      assert RenderAll(rs) + rest == rest;
    } else {
      RenderAllCons(rs[0], rs[1..]);
      assert rs == [rs[0]] + rs[1..];
      assert RenderAll(rs) + rest == Render(rs[0]) + (RenderAll(rs[1..]) + rest);
      ReadRender(rs[0], RenderAll(rs[1..]) + rest);
      FramedRepliesRead(rs[1..], rest);
    }
  }

  // ----------------------------------------------------------------------------- sizes

  lemma {:induction false} BodySize(data: seq<string>, most: nat)
    requires forall i :: 0 <= i < |data| ==> |data[i]| < most
    ensures |Body(data)| <= |data| * most
  {
    if data != [] {
      BodySize(data[..|data| - 1], most);
    }
  }
}
