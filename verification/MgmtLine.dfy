/** SMCP line framing and the tokenizer (src/server/mgmt_parser.c). Octets are characters; those above
'~' are refused, so the model does not depend on how far beyond 255 the type reaches. */
module MgmtLine {
  import opened Sequences
  import opened Buffers

  const MGMT_LINE_MAX := 4096

  /** Neither printable ASCII nor a carriage return. */
  predicate Bad(c: char) {
    c != '\r' && (c < ' ' || c > '~')
  }

  datatype Verdict = Ready(text: string) | TooLong | Invalid

  // ---------------------------------------------------------------------- the specification

  ghost predicate BadEarly(body: string) {
    exists i :: 0 <= i < |body| && i < MGMT_LINE_MAX && Bad(body[i])
  }

  function WithoutCr(body: string): (text: string) {
    if body != [] && body[|body| - 1] == '\r' then body[..|body| - 1] else body
  }

  /** What a line is, given everything before its LF. */
  ghost function Classify(body: string): (v: Verdict) {
    if BadEarly(body) then Invalid
    else if |body| < MGMT_LINE_MAX then Ready(WithoutCr(body))
    else TooLong
  }

  /** Section 3.1 of docs/protocolo.md: a line longer than 4096 octets with its terminator is too long; one CR
  before the LF is dropped, and any other octet outside printable ASCII makes the line invalid. */
  ghost function Documented(body: string): (v: Verdict) {
    if |body| + 1 > MGMT_LINE_MAX then TooLong
    else if exists i :: 0 <= i < |WithoutCr(body)| && (Bad(WithoutCr(body)[i]) || WithoutCr(body)[i] == '\r') then Invalid
    else Ready(WithoutCr(body))
  }

  /** The parser differs in two ways, and in no other: it lets a CR through in the middle of a line, and it
  answers "invalid" to a long line with a bad octet among the first 4096. */
  lemma ClassifyDocumented(body: string)
    ensures Classify(body) == Documented(body) <==>
            if |body| >= MGMT_LINE_MAX then !BadEarly(body) else BadEarly(body) || '\r' !in WithoutCr(body)
  {
    var text := WithoutCr(body);
    if BadEarly(body) && |body| < MGMT_LINE_MAX {
      var i :| 0 <= i < |body| && Bad(body[i]);
      assert text[i] == body[i];
    }
  }

  lemma CrInsideIsAccepted()
    ensures Classify("A\rB") == Ready("A\rB") && Documented("A\rB") == Invalid
  {
    var body := "A\rB";
    assert WithoutCr(body) == body && body[1] == '\r';
  }

  /** A TAB followed by 4095 or more other octets: documented as too long, answered as invalid. */
  lemma LongBadLineIsInvalid(rest: string)
    requires |rest| >= MGMT_LINE_MAX - 1
    ensures Classify("\t" + rest) == Invalid && Documented("\t" + rest) == TooLong
  {
    var body := "\t" + rest;
    assert Bad(body[0]);
  }

  /** The length of the first line, or of all of `s` when it has no LF. */
  function LineEnd(s: string): (k: nat)
    ensures k <= |s| && '\n' !in s[..k]
    ensures k < |s| ==> s[k] == '\n'
  {
    if s == [] || s[0] == '\n' then 0 else 1 + LineEnd(s[1..])
  }

  /** The verdicts of the complete lines of a stream. */
  ghost function Lines(s: string): (vs: seq<Verdict>) {
    var k := LineEnd(s);
    if k == |s| then [] else [Classify(s[..k])] + Lines(s[k + 1..])
  }

  /** What follows the last LF. */
  function Partial(s: string): (p: string)
    ensures |p| <= |s| && '\n' !in p
  {
    var k := LineEnd(s);
    if k == |s| then s else Partial(s[k + 1..])
  }

  lemma {:induction false} LineEndIs(a: string, b: string)
    requires '\n' !in a
    ensures LineEnd(a + b) == |a| + LineEnd(b)
  {
    if a == [] {
      assert a + b == b;
    } else {
      assert (a + b)[1..] == a[1..] + b;
      LineEndIs(a[1..], b);
    }
  }

  /** A line without an LF is no line yet. */
  lemma LinesNone(s: string)
    requires '\n' !in s
    ensures Lines(s) == [] && Partial(s) == s
  {
    LineEndIs(s, []);
    assert s + [] == s;
  }

  lemma LinesUnfold(body: string, rest: string)
    requires '\n' !in body
    ensures Lines(body + ['\n'] + rest) == [Classify(body)] + Lines(rest)
    ensures Partial(body + ['\n'] + rest) == Partial(rest)
  {
    hide Classify;
    var s := body + ['\n'] + rest;
    assert s == body + (['\n'] + rest);
    LineEndIs(body, ['\n'] + rest);
    assert LineEnd(s) == |body| && s[..|body|] == body && s[|body| + 1..] == rest;
  }

  /** One more complete line. */
  lemma LinesOne(body: string)
    requires '\n' !in body
    ensures Lines(body + ['\n']) == [Classify(body)] && Partial(body + ['\n']) == []
  {
    hide Lines, Partial, Classify;
    LinesUnfold(body, []);
    LinesNone([]);
    assert body + ['\n'] + [] == body + ['\n'];
  }

  /** Fragments do not matter: framing resumes from the unfinished line alone. */
  lemma {:induction false} LinesAppend(a: string, b: string)
    ensures Lines(a + b) == Lines(a) + Lines(Partial(a) + b)
    ensures Partial(a + b) == Partial(Partial(a) + b)
    decreases |a|
  {
    hide Lines, Partial, LineEnd, Classify;
    var k := LineEnd(a);
    if k < |a| {
      var body, rest := a[..k], a[k + 1..];
      assert a == body + ['\n'] + rest;
      assert a + b == body + ['\n'] + (rest + b);
      LinesUnfold(body, rest);
      LinesUnfold(body, rest + b);
      LinesAppend(rest, b);
    } else {
      assert a[..k] == a;
      LinesNone(a);
    }
  }

  /** After any stream, a whole line is judged by itself: the framing resynchronises at every LF. */
  lemma LinesResync(s: string, body: string)
    requires '\n' !in body
    ensures Lines(s + ['\n'] + body + ['\n']) == Lines(s + ['\n']) + [Classify(body)]
  {
    hide Lines, Partial, Classify;
    LinesAppend(s, ['\n']);
    LinesOne(Partial(s));
    LinesOne(body);
    LinesAppend(s + ['\n'], body + ['\n']);
    assert s + ['\n'] + (body + ['\n']) == s + ['\n'] + body + ['\n'];
    assert [] + (body + ['\n']) == body + ['\n'];
  }

  // --------------------------------------------------------------------------- the parser

  class LineParser {
    const line: array<char>
    var len: nat
    var overflow: bool
    var invalid: bool
    ghost var partial: string   // the octets of the current line so far

    ghost predicate Bounded()
      reads this
    {
      line.Length == MGMT_LINE_MAX && len < MGMT_LINE_MAX
    }

    /** The flags and the stored text are what the octets so far determine. */
    ghost predicate Tracks()
      reads this, line
      ensures Tracks() ==> Bounded()
    {
      && Bounded() && '\n' !in partial
      && invalid == BadEarly(partial)
      && overflow == (!invalid && |partial| >= MGMT_LINE_MAX)
      && (!invalid && !overflow ==> line[..len] == partial)
    }

    constructor ()
      ensures Tracks() && partial == [] && fresh(line)
    {
      line := new char[MGMT_LINE_MAX];
      len, overflow, invalid, partial := 0, false, false, [];
      new;
      line[0] := '\0';
    }

    /** mgmt_parser_reset. */
    method Reset()
      requires Bounded()
      modifies this, line
      ensures Tracks() && partial == []
    {
      len, overflow, invalid, partial := 0, false, false, [];
      line[0] := '\0';
    }

    /** The body of the loop of mgmt_parser_feed for an octet other than LF. */
    method Accept(c: char)
      requires Tracks() && c != '\n'
      modifies this, line
      ensures Tracks() && partial == old(partial) + [c]
    {
      ghost var p := partial;
      partial := partial + [c];
      BadEarlyAppend(p, c);
      if overflow || invalid {
        return;
      }
      if c != '\r' && (c < ' ' || c > '~') {
        invalid := true;
        return;
      }
      if len >= MGMT_LINE_MAX - 1 {
        overflow := true;
        return;
      }
      line[len] := c;
      len := len + 1;
      assert line[..len] == old(line[..len]) + [c];
    }

    /** The LF branch of mgmt_parser_feed. */
    method Finish() returns (st: Verdict)
      requires Tracks()
      modifies this`len, line
      ensures Bounded() && st == Classify(partial)
      ensures st.Ready? ==> line[..len] == st.text && line[len] == '\0'
    {
      if overflow {
        return TooLong;
      }
      if invalid {
        return Invalid;
      }
      if len > 0 && line[len - 1] == '\r' {
        len := len - 1;
      }
      line[len] := '\0';
      st := Ready(line[..len]);
    }

    /** mgmt_parser_feed: None while the line is incomplete. */
    method Feed(b: Buffer<char>) returns (st: Option<Verdict>)
      requires Tracks() && b.Valid() && b.data != line
      modifies this, line, b, b.data
      ensures Bounded() && b.Valid()
      ensures st.None? ==> Tracks() && b.contents == [] && '\n' !in old(b.contents) && partial == old(partial) + old(b.contents)
      ensures st.Some? ==> var k := LineEnd(old(b.contents));
                           && k < |old(b.contents)| && b.contents == old(b.contents)[k + 1..]
                           && partial == old(partial) + old(b.contents)[..k] && st.value == Classify(partial)
                           && (st.value.Ready? ==> line[..len] == st.value.text && line[len] == '\0')
    {
      hide Classify, LineEnd, Tracks, Buffer.Valid;
      ghost var all := b.contents;
      ghost var done: string := [];
      while b.CanRead()
        invariant Tracks() && b.Valid() && all == done + b.contents && '\n' !in done && partial == old(partial) + done
        decreases |b.contents|
      {
        var c := b.Read('\0');
        OneRead(all, done, c, b.contents);
        if c == '\n' {
          var v := Finish();
          return Some(v);
        }
        Accept(c);
        done := done + [c];
      }
      assert all == done;
      st := None;
    }
  }

  lemma OneRead(all: string, done: string, c: char, rest: string)
    requires all == done + ([c] + rest) && '\n' !in done
    ensures all == done + [c] + rest
    ensures c == '\n' ==> LineEnd(all) == |done| < |all| && all[..|done|] == done && all[|done| + 1..] == rest
  {
    if c == '\n' {
      LineEndIs(done, [c] + rest);
    }
  }

  lemma BadEarlyAppend(p: string, c: char)
    ensures BadEarly(p + [c]) == (BadEarly(p) || (|p| < MGMT_LINE_MAX && Bad(c)))
  {
    var s := p + [c];
    if BadEarly(p) {
      var i :| 0 <= i < |p| && i < MGMT_LINE_MAX && Bad(p[i]);
      assert Bad(s[i]);
    }
    if |p| < MGMT_LINE_MAX && Bad(c) {
      assert Bad(s[|p|]);
    }
  }

  // -------------------------------------------------------------------------- the tokenizer

  /** The number of spaces `s` begins with. */
  function Spaces(s: string): (k: nat)
    ensures k <= |s| && (forall i :: 0 <= i < k ==> s[i] == ' ') && (k < |s| ==> s[k] != ' ')
  {
    if s != [] && s[0] == ' ' then 1 + Spaces(s[1..]) else 0
  }

  /** The length of the word `s` begins with. */
  function WordEnd(s: string): (k: nat)
    ensures k <= |s| && ' ' !in s[..k] && (k < |s| ==> s[k] == ' ')
  {
    if s == [] || s[0] == ' ' then 0 else 1 + WordEnd(s[1..])
  }

  /** The space-separated words of a text. */
  function Words(s: string): (ws: seq<string>)
    decreases |s|
  {
    var k := Spaces(s);
    if k == |s| then []
    else
      var n := WordEnd(s[k..]);
      [s[k..][..n]] + Words(s[k..][n..])
  }

  ghost predicate IsWord(w: string) {
    w != [] && ' ' !in w
  }

  lemma {:induction false} WordEndIs(w: string, rest: string)
    requires ' ' !in w && (rest == [] || rest[0] == ' ')
    ensures WordEnd(w + rest) == |w|
  {
    if w == [] {
      assert w + rest == rest;
    } else {
      assert (w + rest)[1..] == w[1..] + rest;
      WordEndIs(w[1..], rest);
    }
  }

  lemma WordsUnfold(s: string)
    ensures var k := Spaces(s);
            Words(s) == if k == |s| then [] else [s[k..][..WordEnd(s[k..])]] + Words(s[k..][WordEnd(s[k..])..])
  {}

  lemma WordsFirst(w: string, rest: string)
    requires IsWord(w) && (rest == [] || rest[0] == ' ')
    ensures Words(w + rest) == [w] + Words(rest)
  {
    hide Words;
    WordEndIs(w, rest);
    var s := w + rest;
    WordsUnfold(s);
    assert Spaces(s) == 0 && s[0..] == s;
    assert s[..|w|] == w && s[|w|..] == rest;
  }

  lemma {:induction false} SpacesIs(blanks: string, rest: string)
    requires forall i :: 0 <= i < |blanks| ==> blanks[i] == ' '
    ensures Spaces(blanks + rest) == |blanks| + Spaces(rest)
  {
    if blanks == [] {
      assert blanks + rest == rest;
    } else {
      assert (blanks + rest)[1..] == blanks[1..] + rest;
      SpacesIs(blanks[1..], rest);
    }
  }

  /** Leading spaces are dropped. */
  lemma WordsBlank(blanks: string, rest: string)
    requires forall i :: 0 <= i < |blanks| ==> blanks[i] == ' '
    ensures Words(blanks + rest) == Words(rest)
  {
    hide Words, Spaces, WordEnd;
    SpacesIs(blanks, rest);
    var s := blanks + rest;
    var k := Spaces(rest);
    WordsUnfold(s);
    WordsUnfold(rest);
    assert s[|blanks| + k..] == rest[k..];
  }

  lemma WordsSkip(blanks: string, w: string, rest: string)
    requires (forall i :: 0 <= i < |blanks| ==> blanks[i] == ' ') && IsWord(w) && (rest == [] || rest[0] == ' ')
    ensures Words(blanks + w + rest) == [w] + Words(rest)
  {
    hide Words, IsWord;
    assert blanks + w + rest == blanks + (w + rest);
    WordsBlank(blanks, w + rest);
    WordsFirst(w, rest);
  }

  /** Words are found piece by piece: with what WordsFirst says of one word, this determines the function. */
  lemma {:induction false} WordsSplit(a: string, b: string)
    ensures Words(a + (" " + b)) == Words(a) + Words(b)
    decreases |a|
  {
    hide Words, Spaces, WordEnd;
    var k := Spaces(a);
    var c := " " + b;
    if k == |a| {
      WordsBlank(a, c);
      WordsBlank(" ", b);
      WordsUnfold(a);
    } else {
      var n := WordEnd(a[k..]);
      var blanks, w, rest := a[..k], a[k..][..n], a[k..][n..];
      WordEndSome(a[k..]);
      assert a == blanks + w + rest;
      assert a + c == blanks + w + (rest + c);
      WordsSkip(blanks, w, rest);
      WordsSkip(blanks, w, rest + c);
      WordsSplit(rest, b);
    }
  }

  /** Every word is one: not empty and without spaces. */
  lemma {:induction false} WordsAreWords(s: string)
    ensures forall i :: 0 <= i < |Words(s)| ==> IsWord(Words(s)[i])
    decreases |s|
  {
    var k := Spaces(s);
    if k < |s| {
      var n := WordEnd(s[k..]);
      assert n > 0;
      WordsAreWords(s[k..][n..]);
    }
  }

  /** The C string that starts at index `i` of a NUL-terminated array. */
  function CString(a: seq<char>, i: nat): (s: string)
    requires i <= |a|
    decreases |a| - i
  {
    if i == |a| || a[i] == '\0' then [] else [a[i]] + CString(a, i + 1)
  }

  lemma {:induction false} CStringIs(a: seq<char>, i: nat, j: nat)
    requires i <= j < |a| && '\0' !in a[i..j] && a[j] == '\0'
    ensures CString(a, i) == a[i..j]
    decreases j - i
  {
    if i < j {
      assert a[i] == a[i..j][0] && a[i + 1..j] == a[i..j][1..];
      CStringIs(a, i + 1, j);
      assert a[i..j] == [a[i]] + a[i + 1..j];
    }
  }

  /** What mgmt_tokenize leaves behind: word `i` is the C string at argv[i]. */
  ghost predicate Tokenized(a: seq<char>, argv: seq<nat>, words: seq<string>) {
    |argv| == |words| && forall i :: 0 <= i < |argv| ==> argv[i] <= |a| && CString(a, argv[i]) == words[i]
  }

  function FirstWords(s: string, max: nat): (ws: seq<string>) {
    if |Words(s)| <= max then Words(s) else Words(s)[..max]
  }

  /** The tokens found before index `s`: word `i` lies between argv[i] and the NUL at ends[i]. */
  ghost predicate Placed(a: seq<char>, n: nat, s: nat, argv: seq<nat>, ends: seq<nat>, words: seq<string>) {
    && |argv| == |ends| == |words|
    && forall i :: 0 <= i < |argv| ==>
         && argv[i] <= ends[i] <= n < |a| && (ends[i] < s || ends[i] == n == s)
         && a[ends[i]] == '\0' && a[argv[i]..ends[i]] == words[i] && '\0' !in words[i]
  }

  lemma PlacedTokenized(a: seq<char>, n: nat, s: nat, argv: seq<nat>, ends: seq<nat>, words: seq<string>)
    requires Placed(a, n, s, argv, ends, words)
    ensures Tokenized(a, argv, words)
  {
    forall i | 0 <= i < |argv|
      ensures argv[i] <= |a| && CString(a, argv[i]) == words[i]
    {
      CStringIs(a, argv[i], ends[i]);
    }
  }

  /** One more token, ended at `e` by a NUL that was there or has just been written. */
  lemma PlacedMore(a: seq<char>, n: nat, s: nat, argv: seq<nat>, ends: seq<nat>, words: seq<string>, t: nat, e: nat, b: seq<char>)
    requires Placed(a, n, s, argv, ends, words) && s <= t < e <= n < |a| && '\0' !in a[t..e]
    requires b == a[e := '\0'] && (e == n ==> a[n] == '\0')
    ensures Placed(b, n, if e < n then e + 1 else n, argv + [t], ends + [e], words + [a[t..e]])
  {
    var argv', ends', words' := argv + [t], ends + [e], words + [a[t..e]];
    assert b[t..e] == a[t..e];
    forall i | 0 <= i < |argv|
      ensures argv'[i] <= ends'[i] < s && argv'[i] <= n < |b|
      ensures b[ends'[i]] == '\0' && b[argv'[i]..ends'[i]] == words'[i] && '\0' !in words'[i]
    {
      assert ends[i] < s;
      assert b[argv[i]..ends[i]] == a[argv[i]..ends[i]];
    }
  }

  /** The unread text and what it contributes. */
  ghost predicate Unread(a: seq<char>, n: nat, s: nat, text: string, words: seq<string>) {
    s <= n == |text| < |a| && a[n] == '\0' && a[s..n] == text[s..] && '\0' !in text && Words(text) == words + Words(text[s..])
  }

  /** Only the terminator is a NUL. */
  lemma UnreadEnd(a: seq<char>, n: nat, s: nat, text: string, words: seq<string>)
    requires Unread(a, n, s, text, words)
    ensures a[s] == '\0' <==> s == n
  {
    hide Words;
    if s < n {
      assert a[s] == a[s..n][0] == text[s];
    }
  }

  /** The words of a text whose spaces end at `k` and whose first word ends at `k + m`. */
  lemma WordsNext(s: string, k: nat, m: nat)
    requires k == Spaces(s) < |s| && m == WordEnd(s[k..])
    ensures 0 < m <= |s| - k && Words(s) == [s[k..k + m]] + Words(if k + m < |s| then s[k + m + 1..] else [])
  {
    hide Words, Spaces, WordEnd;
    WordsUnfold(s);
    WordEndSome(s[k..]);
    assert s[k..][..m] == s[k..k + m];
    if k + m < |s| {
      assert s[k..][m..] == " " + s[k + m + 1..];
      WordsBlank(" ", s[k + m + 1..]);
    } else {
      assert s[k..][m..] == [];
    }
  }

  /** The array and the text agree on what is unread. */
  lemma UnreadSlice(a: seq<char>, n: nat, s: nat, text: string, i: nat, j: nat)
    requires s <= n == |text| < |a| && a[s..n] == text[s..] && s <= i <= j <= n
    ensures a[i..j] == text[s..][i - s..j - s] == text[i..j]
  {
    forall k | i <= k < j
      ensures a[k] == text[k]
    {
      assert a[k] == a[s..n][k - s];
    }
  }

  /** Reading one word: the spaces end at `t` and the word at `e`. */
  lemma UnreadWord(a: seq<char>, n: nat, s: nat, text: string, words: seq<string>, t: nat, e: nat)
    requires Unread(a, n, s, text, words) && t == s + Spaces(text[s..]) < n && e == t + WordEnd(text[t..])
    ensures t < e <= n && '\0' !in a[t..e]
    ensures Unread(a[e := '\0'], n, if e < n then e + 1 else n, text, words + [a[t..e]])
  {
    hide Words, Spaces, WordEnd;
    var u := text[s..];
    assert u[t - s..] == text[t..];
    WordsNext(u, t - s, e - t);
    UnreadSlice(a, n, s, text, t, e);
    var s' := if e < n then e + 1 else n;
    UnreadSlice(a, n, s, text, s', n);
    assert a[e := '\0'][s'..n] == a[s'..n];
    assert text[s'..n] == text[s'..] == if e < n then u[e - s + 1..] else [];
    assert Words(text) == words + [a[t..e]] + Words(text[s'..]);
  }

  lemma WordEndSome(s: string)
    requires s != [] && s[0] != ' '
    ensures WordEnd(s) > 0
  {}

  /** The first loop of mgmt_tokenize: over spaces. */
  method SkipSpaces(line: array<char>, s: nat, ghost n: nat) returns (t: nat)
    requires s <= n < line.Length && line[n] == '\0' && '\0' !in line[s..n]
    ensures t == s + Spaces(line[s..n]) && t <= n && (line[t] == '\0' <==> t == n)
  {
    t := s;
    while line[t] == ' '
      invariant s <= t <= n && forall i :: s <= i < t ==> line[i] == ' '
      decreases n - t
    {
      t := t + 1;
    }
    assert t < n ==> line[t] in line[s..n];
    SpacesIs(line[s..t], line[t..n]);
    assert line[s..n] == line[s..t] + line[t..n];
  }

  /** The second loop of mgmt_tokenize: over a word. */
  method SkipWord(line: array<char>, s: nat, ghost n: nat) returns (e: nat)
    requires s <= n < line.Length && line[n] == '\0' && '\0' !in line[s..n]
    ensures e == s + WordEnd(line[s..n]) && e <= n && (line[e] == ' ' <==> e < n)
  {
    e := s;
    while line[e] != '\0' && line[e] != ' '
      invariant s <= e <= n && ' ' !in line[s..e]
      decreases n - e
    {
      e := e + 1;
    }
    assert e < n ==> line[e] in line[s..n];
    WordEndIs(line[s..e], line[e..n]);
    assert line[s..n] == line[s..e] + line[e..n];
  }

  /** The body of the outer loop of mgmt_tokenize: one more word, or none left. */
  method NextToken(line: array<char>, s: nat, argv: seq<nat>, ghost n: nat, ghost text: string, ghost words: seq<string>, ghost ends: seq<nat>)
    returns (found: bool, s': nat, argv': seq<nat>, ghost words': seq<string>, ghost ends': seq<nat>)
    requires Unread(line[..], n, s, text, words) && Placed(line[..], n, s, argv, ends, words)
    modifies line
    ensures Unread(line[..], n, s', text, words') && Placed(line[..], n, s', argv', ends', words')
    ensures !found ==> words' == words == Words(text)
    ensures found ==> s < s' && |words'| == |words| + 1
  {
    hide Words, Spaces, WordEnd, Placed;
    ghost var a := line[..];
    assert line[s..n] == a[s..n] == text[s..];
    var t := SkipSpaces(line, s, n);
    found, s', argv', words', ends' := false, s, argv, words, ends;
    if line[t] == '\0' {
      WordsUnfold(text[s..]);
      return;
    }
    assert line[t..n] == a[s..n][t - s..] == text[t..];
    var e := SkipWord(line, t, n);
    UnreadWord(a, n, s, text, words, t, e);
    PlacedMore(a, n, s, argv, ends, words, t, e, a[e := '\0']);
    found, argv', words', ends' := true, argv + [t], words + [a[t..e]], ends + [e];
    if line[e] == ' ' {
      line[e] := '\0';
      s' := e + 1;
    } else {
      s' := e;
    }
    assert line[..] == a[e := '\0'];
  }

  /** mgmt_tokenize: the line is cut up in place, each word ended by a NUL. */
  method Tokenize(line: array<char>, max: nat, ghost text: string) returns (argv: seq<nat>)
    requires |text| < line.Length && line[..|text|] == text && line[|text|] == '\0' && '\0' !in text
    modifies line
    ensures Tokenized(line[..], argv, FirstWords(text, max))
  {
    hide Words, Placed, Tokenized;
    argv := [];
    var s := 0;
    ghost var n := |text|;
    ghost var words: seq<string> := [];
    ghost var ends: seq<nat> := [];
    TokenizeStart(line[..], text);
    while line[s] != '\0' && |argv| < max
      invariant Unread(line[..], n, s, text, words) && Placed(line[..], n, s, argv, ends, words)
      invariant |argv| == |words| <= max
      decreases n - s
    {
      var found;
      found, s, argv, words, ends := NextToken(line, s, argv, n, text, words, ends);
      PlacedCount(line[..], n, s, argv, ends, words);
      if !found {
        break;
      }
    }
    PlacedTokenized(line[..], n, s, argv, ends, words);
    if line[s] == '\0' {
      UnreadEnd(line[..], n, s, text, words);
      assert text[s..] == [];
      WordsUnfold([]);
    }
    assert words == FirstWords(text, max);
  }

  lemma TokenizeStart(a: seq<char>, text: string)
    requires |text| < |a| && a[..|text|] == text && a[|text|] == '\0' && '\0' !in text
    ensures Unread(a, |text|, 0, text, []) && Placed(a, |text|, 0, [], [], [])
  {
    hide Words;
    assert text[0..] == text;
  }

  lemma PlacedCount(a: seq<char>, n: nat, s: nat, argv: seq<nat>, ends: seq<nat>, words: seq<string>)
    requires Placed(a, n, s, argv, ends, words)
    ensures |argv| == |words|
  {}
}
