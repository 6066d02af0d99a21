/** A string compiled into a transition table (src/shared/parser_utils.c) and the engine that interprets such
tables (src/shared/parser.c), used with the empty character classes of parser_no_classes. */
module StringTable {
  import opened Sequences
  import opened Bytes

  /** The event types of a comparison. */
  datatype Kind = MayEq | Eq | Neq

  datatype Event = Event(kind: Kind, c: byte)

  datatype Transition = Transition(when: int, dest: nat, act1: Kind)

  const ANY := 512
  const CLASSES_SIZE := 255

  // ------------------------------------------------------------------------------ the engine

  /** Whether a transition's condition holds; no octet belongs to a class. */
  predicate Matches(when: int, c: byte) {
    if when <= 0xFF then c == when else when == ANY
  }

  /** The first of the transitions from `lo` on whose condition holds. */
  function FirstMatch(t: seq<Transition>, lo: nat, n: nat, c: byte): (r: Option<Transition>)
    requires lo + n <= |t|
    decreases n
  {
    if n == 0 then None
    else if Matches(t[lo].when, c) then Some(t[lo])
    else FirstMatch(t, lo + 1, n - 1, c)
  }

  /** A table: the transitions of state `i` are the `count[i]` ones from `start[i]` on. */
  class Definition {
    const transitions: array<Transition>
    const start: array<nat>
    const count: array<nat>

    ghost predicate Valid()
      reads start, count, transitions
    {
      InTable(transitions[..], start[..], count[..])
    }

    /** parser_utils_strcmpi. */
    constructor (s: seq<byte>)
      requires Ascii(s)
      ensures Valid() && Compiled(transitions[..], start[..], count[..], s)
      ensures fresh(transitions) && fresh(start) && fresh(count)
    {
      hide RowOk, SinkOk;
      var n := |s|;
      var t := new Transition[3 * (n + 2)](_ => Transition(0, 0, MayEq));
      var st := new nat[n + 2](_ => 0);
      var ct := new nat[n + 2](_ => 0);
      for i := 0 to n
        invariant Rows(t[..], st[..], ct[..], s, i) && InTable(t[..], st[..], ct[..])
      {
        RowsMore(t[..], st[..], ct[..], s, i);
        FillRow(t, st, ct, s, i);
      }
      SinksMore(t[..], st[..], ct[..], s);
      FillSink(t, st, ct, n, n);
      FillSink(t, st, ct, n, n + 1);
      transitions, start, count := t, st, ct;
    }
  }

  /** The body of the loop of parser_utils_strcmpi. */
  method FillRow(t: array<Transition>, st: array<nat>, ct: array<nat>, s: seq<byte>, i: nat)
    requires i < |s| && t.Length == 3 * (|s| + 2) && st.Length == ct.Length == |s| + 2 && st != ct
    modifies t, st, ct
    ensures t[..] == WithRow(old(t[..]), s, i) && st[..] == old(st[..])[i := 3 * i] && ct[..] == old(ct[..])[i := 3]
  {
    var dest := if i + 1 == |s| then |s| else i + 1;
    var act := if i + 1 == |s| then Eq else MayEq;
    t[i * 3] := Transition(ToLower(s[i]), dest, act);
    t[i * 3 + 1] := Transition(ToUpper(s[i]), dest, act);
    t[i * 3 + 2] := Transition(ANY, |s| + 1, Neq);
    st[i] := i * 3;
    ct[i] := 3;
  }

  /** The two states after the loop, whose only transition leads to "different". */
  method FillSink(t: array<Transition>, st: array<nat>, ct: array<nat>, n: nat, i: nat)
    requires i < n + 2 && t.Length == 3 * (n + 2) && st.Length == ct.Length == n + 2 && st != ct
    modifies t, st, ct
    ensures t[..] == old(t[..])[3 * i := Transition(ANY, n + 1, Neq)]
    ensures st[..] == old(st[..])[i := 3 * i] && ct[..] == old(ct[..])[i := 1]
  {
    t[i * 3] := Transition(ANY, n + 1, Neq);
    st[i] := i * 3;
    ct[i] := 1;
  }

  ghost function WithRow(t: seq<Transition>, s: seq<byte>, i: nat): (r: seq<Transition>)
    requires i < |s| && |t| == 3 * (|s| + 2)
  {
    var act := if i + 1 == |s| then Eq else MayEq;
    t[3 * i := Transition(ToLower(s[i]), i + 1, act)][3 * i + 1 := Transition(ToUpper(s[i]), i + 1, act)]
     [3 * i + 2 := Transition(ANY, |s| + 1, Neq)]
  }

  /** Every state's transitions lie in the table and lead to states. */
  ghost predicate InTable(t: seq<Transition>, st: seq<nat>, ct: seq<nat>) {
    && |st| == |ct| && (forall i :: 0 <= i < |st| ==> st[i] + ct[i] <= |t|)
    && forall i :: 0 <= i < |t| ==> t[i].dest < |st|
  }

  /** The first `k` rows are done. */
  ghost predicate Rows(t: seq<Transition>, st: seq<nat>, ct: seq<nat>, s: seq<byte>, k: nat) {
    && k <= |s| && |t| == 3 * (|s| + 2) && |st| == |ct| == |s| + 2
    && forall i :: 0 <= i < k ==> RowOk(t, st, ct, s, i)
  }

  lemma RowsMore(t: seq<Transition>, st: seq<nat>, ct: seq<nat>, s: seq<byte>, k: nat)
    requires Rows(t, st, ct, s, k) && k < |s| && InTable(t, st, ct)
    ensures Rows(WithRow(t, s, k), st[k := 3 * k], ct[k := 3], s, k + 1)
    ensures InTable(WithRow(t, s, k), st[k := 3 * k], ct[k := 3])
  {
    var t', st', ct' := WithRow(t, s, k), st[k := 3 * k], ct[k := 3];
    forall i | 0 <= i < k
      ensures RowOk(t', st', ct', s, i)
    {
      assert RowOk(t, st, ct, s, i);
    }
  }

  lemma SinksMore(t: seq<Transition>, st: seq<nat>, ct: seq<nat>, s: seq<byte>)
    requires Rows(t, st, ct, s, |s|) && InTable(t, st, ct)
    ensures var n, sink := |s|, Transition(ANY, |s| + 1, Neq);
            var t', st', ct' := t[3 * n := sink][3 * (n + 1) := sink], st[n := 3 * n][n + 1 := 3 * (n + 1)], ct[n := 1][n + 1 := 1];
            Compiled(t', st', ct', s) && InTable(t', st', ct')
  {
    var n, sink := |s|, Transition(ANY, |s| + 1, Neq);
    var t', st', ct' := t[3 * n := sink][3 * (n + 1) := sink], st[n := 3 * n][n + 1 := 3 * (n + 1)], ct[n := 1][n + 1 := 1];
    forall i | 0 <= i < |s|
      ensures RowOk(t', st', ct', s, i)
    {
      assert RowOk(t, st, ct, s, i);
    }
  }

  // ------------------------------------------------------------------- comparing without case

  predicate Ascii(s: seq<byte>) {
    forall i :: 0 <= i < |s| ==> 0 < s[i] < 128
  }

  function ToLower(c: byte): (l: byte) {
    if 65 <= c <= 90 then c + 32 else c
  }

  function ToUpper(c: byte): (u: byte) {
    if 97 <= c <= 122 then c - 32 else c
  }

  lemma SameLetter(c: byte, d: byte)
    ensures c == ToLower(d) || c == ToUpper(d) <==> ToLower(c) == ToLower(d)
  {}

  /** Equal but for the case of ASCII letters. */
  ghost predicate SameText(a: seq<byte>, b: seq<byte>) {
    |a| == |b| && forall i :: 0 <= i < |a| ==> ToLower(a[i]) == ToLower(b[i])
  }

  ghost predicate RowOk(t: seq<Transition>, start: seq<nat>, count: seq<nat>, s: seq<byte>, i: nat)
    requires i < |s| && |t| == 3 * (|s| + 2) && |start| == |count| == |s| + 2
  {
    var dest := i + 1;
    var act := if i + 1 == |s| then Eq else MayEq;
    && start[i] == 3 * i && count[i] == 3
    && t[3 * i] == Transition(ToLower(s[i]), dest, act) && t[3 * i + 1] == Transition(ToUpper(s[i]), dest, act)
    && t[3 * i + 2] == Transition(ANY, |s| + 1, Neq)
  }

  ghost predicate SinkOk(t: seq<Transition>, start: seq<nat>, count: seq<nat>, s: seq<byte>, i: nat)
    requires i < |s| + 2 && |t| == 3 * (|s| + 2) && |start| == |count| == |s| + 2
  {
    start[i] == 3 * i && count[i] == 1 && t[3 * i] == Transition(ANY, |s| + 1, Neq)
  }

  /** State `i` waits for character `i`; the two last states are "equal" and "different". */
  ghost predicate Compiled(t: seq<Transition>, start: seq<nat>, count: seq<nat>, s: seq<byte>) {
    && |t| == 3 * (|s| + 2) && |start| == |count| == |s| + 2
    && (forall i :: 0 <= i < |s| ==> RowOk(t, start, count, s, i))
    && SinkOk(t, start, count, s, |s|) && SinkOk(t, start, count, s, |s| + 1)
  }

  // --------------------------------------------------------------------------- interpretation

  class Parser {
    const def: Definition
    var state: nat
    var e1: Event

    ghost predicate Valid()
      reads this, def.start, def.count, def.transitions
    {
      def.Valid() && state < def.start.Length
    }

    /** parser_init. */
    constructor (d: Definition)
      requires d.Valid() && d.start.Length > 0
      ensures Valid() && def == d && state == 0
    {
      def, state, e1 := d, 0, Event(MayEq, 0);
    }

    /** parser_feed: the first transition that applies is taken; without one nothing changes. */
    method Feed(c: byte) returns (e: Event)
      requires Valid() && c < CLASSES_SIZE
      modifies this
      ensures Valid() && e == e1
      ensures var s := old(state);
              match FirstMatch(def.transitions[..], def.start[s], def.count[s], c)
              case Some(t) => state == t.dest && e1 == Event(t.act1, c)
              case None => state == s && e1 == old(e1)
    {
      var lo, n := def.start[state], def.count[state];
      var i := 0;
      ghost var all := def.transitions[..];
      while i < n
        invariant 0 <= i <= n && FirstMatch(all, lo, n, c) == FirstMatch(all, lo + i, n - i, c)
      {
        var t := def.transitions[lo + i];
        var matched := if t.when <= 0xFF then c == t.when else t.when == ANY;
        if matched {
          e1 := Event(t.act1, c);
          state := t.dest;
          break;
        }
        i := i + 1;
      }
      e := e1;
    }
  }

  /** The state a comparison with `s` is in after `w`. */
  ghost function StateAfter(s: seq<byte>, w: seq<byte>): (k: nat) {
    if |w| <= |s| && SameText(w, s[..|w|]) then |w| else |s| + 1
  }

  /** What the last octet of `w` tells about the comparison with `s`. */
  ghost function Verdict(s: seq<byte>, w: seq<byte>): (k: Kind) {
    if SameText(w, s) then Eq
    else if |w| < |s| && SameText(w, s[..|w|]) then MayEq
    else Neq
  }

  lemma SameTextMore(s: seq<byte>, w: seq<byte>, c: byte)
    requires |w| < |s|
    ensures SameText(w + [c], s[..|w| + 1]) <==> SameText(w, s[..|w|]) && ToLower(c) == ToLower(s[|w|])
  {
    var v, p := w + [c], s[..|w| + 1];
    assert forall i :: 0 <= i < |w| ==> v[i] == w[i] && p[i] == s[..|w|][i];
    if SameText(v, p) {
      assert ToLower(v[|w|]) == ToLower(p[|w|]);
      forall i | 0 <= i < |w|
        ensures ToLower(w[i]) == ToLower(s[..|w|][i])
      {
        assert ToLower(v[i]) == ToLower(p[i]);
      }
    }
  }

  /** One step through a compiled table is one step of the comparison. */
  lemma StepCompares(t: seq<Transition>, start: seq<nat>, count: seq<nat>, s: seq<byte>, w: seq<byte>, c: byte)
    requires Compiled(t, start, count, s) && Ascii(s) && InTable(t, start, count)
    ensures var k := StateAfter(s, w);
            FirstMatch(t, start[k], count[k], c).Some? &&
            var tr := FirstMatch(t, start[k], count[k], c).value;
            tr.dest == StateAfter(s, w + [c]) && tr.act1 == Verdict(s, w + [c])
  {
    hide SameText, InTable;
    var k := StateAfter(s, w);
    if k < |s| {
      assert RowOk(t, start, count, s, k);
      SameTextMore(s, w, c);
      SameLetter(c, s[k]);
      assert s[..|s|] == s;
      assert FirstMatch(t, 3 * k, 3, c) ==
             if c == ToLower(s[k]) then Some(t[3 * k]) else if c == ToUpper(s[k]) then Some(t[3 * k + 1]) else Some(t[3 * k + 2]);
      SameLength(w + [c], s);
    } else {
      assert FirstMatch(t, 3 * k, 1, c) == Some(t[3 * k]);
      if |w| < |s| {
        SameTextMore(s, w, c);
        assert s[..|s|] == s;
      }
      SameLength(w + [c], s);
    }
  }

  lemma SameLength(a: seq<byte>, b: seq<byte>)
    ensures SameText(a, b) ==> |a| == |b|
  {}

  /** Compiling `s` and feeding `w`: every event says exactly how `w` so far compares with `s`, case ignored. */
  method Compare(s: seq<byte>, w: seq<byte>) returns (events: seq<Event>)
    requires Ascii(s) && forall i :: 0 <= i < |w| ==> w[i] < CLASSES_SIZE
    ensures |events| == |w|
    ensures forall i :: 0 <= i < |w| ==> events[i] == Event(Verdict(s, w[..i + 1]), w[i])
  {
    hide Compiled, InTable, StateAfter, Verdict, FirstMatch;
    var def := new Definition(s);
    ghost var t, start, count := def.transitions[..], def.start[..], def.count[..];
    StateStart(t, start, count, s);
    var p := new Parser(def);
    events := [];
    for i := 0 to |w|
      invariant p.Valid() && p.def == def && fresh(p) && |events| == i && p.state == StateAfter(s, w[..i])
      invariant def.transitions[..] == t && def.start[..] == start && def.count[..] == count
      invariant forall j :: 0 <= j < i ==> events[j] == Event(Verdict(s, w[..j + 1]), w[j])
    {
      StepCompares(t, start, count, s, w[..i], w[i]);
      assert w[..i] + [w[i]] == w[..i + 1];
      assert def.start[p.state] == start[p.state] && def.count[p.state] == count[p.state];
      var e := p.Feed(w[i]);
      events := events + [e];
    }
  }

  lemma StateStart(t: seq<Transition>, start: seq<nat>, count: seq<nat>, s: seq<byte>)
    requires Compiled(t, start, count, s)
    ensures |start| == |count| == |s| + 2 && StateAfter(s, []) == 0
  {}
}
