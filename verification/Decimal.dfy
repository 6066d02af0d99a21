/** Decimal text: what printf's %u writes and what strtoul reads back. */
module Decimal {
  import opened Sequences

  const U32_MAX := 0xFFFF_FFFF
  const U64_MAX := 0xFFFF_FFFF_FFFF_FFFF

  predicate IsDigit(c: char) {
    '0' <= c <= '9'
  }

  ghost predicate AllDigits(s: string) {
    forall i :: 0 <= i < |s| ==> IsDigit(s[i])
  }

  function Digit(d: nat): (c: char)
    requires d < 10
    ensures IsDigit(c) && DigitValue(c) == d
  {
    ('0' as int + d) as char
  }

  function DigitValue(c: char): (d: nat)
    requires IsDigit(c)
    ensures d < 10
  {
    c as int - '0' as int
  }

  /** printf's %u, %zu and %llu. */
  function Print(n: nat): (s: string)
    ensures s != [] && AllDigits(s)
  {
    if n < 10 then [Digit(n)] else Print(n / 10) + [Digit(n % 10)]
  }

  /** How many characters at the start of `s` are digits. */
  function DigitRun(s: string): (k: nat)
    ensures k <= |s| && AllDigits(s[..k])
    ensures k < |s| ==> !IsDigit(s[k])
  {
    if s != [] && IsDigit(s[0]) then 1 + DigitRun(s[1..]) else 0
  }

  function Value(s: string): (n: nat)
    requires AllDigits(s)
  {
    if s == [] then 0 else 10 * Value(s[..|s| - 1]) + DigitValue(s[|s| - 1])
  }

  lemma {:induction false} ValuePrint(n: nat)
    ensures Value(Print(n)) == n
  {
    if n >= 10 {
      ValuePrint(n / 10);
      assert Print(n)[..|Print(n)| - 1] == Print(n / 10);
    }
  }

  /** A number below 10 to the k has at most k digits. */
  lemma {:induction false} PrintLength(n: nat, k: nat)
    requires k > 0 && n < Power10(k)
    ensures |Print(n)| <= k
  {
    if n >= 10 {
      assert k > 1;
      PrintLength(n / 10, k - 1);
    }
  }

  function Power10(k: nat): (p: nat)
    ensures p > 0
  {
    if k == 0 then 1 else 10 * Power10(k - 1)
  }

  /** Every 64-bit counter prints in at most 20 characters. */
  lemma PrintLength64(n: nat)
    requires n <= U64_MAX
    ensures |Print(n)| <= 20
  {
    assert Power10(5) == 100000;
    assert Power10(10) == 100000 * Power10(5);
    assert Power10(15) == 100000 * Power10(10);
    assert Power10(20) == 100000 * Power10(15);
    PrintLength(n, 20);
  }

  lemma {:induction false} DigitRunIs(s: string, rest: string)
    requires AllDigits(s) && (rest == [] || !IsDigit(rest[0]))
    ensures DigitRun(s + rest) == |s|
  {
    if s == [] {
      assert s + rest == rest;
    } else {
      assert (s + rest)[1..] == s[1..] + rest;
      DigitRunIs(s[1..], rest);
    }
  }

  // ------------------------------------------------------------------------------- strtoul

  predicate IsBlank(c: char) {
    c == ' ' || '\t' <= c <= '\r'
  }

  /** The blanks strtoul skips. */
  function Blanks(s: string): (k: nat)
    ensures k <= |s| && (k < |s| ==> !IsBlank(s[k]))
  {
    if s != [] && IsBlank(s[0]) then 1 + Blanks(s[1..]) else 0
  }

  /** Where the digits start: after the blanks and one sign. */
  function Lead(s: string): (k: nat)
    ensures k <= |s|
  {
    var b := Blanks(s);
    if b < |s| && (s[b] == '+' || s[b] == '-') then b + 1 else b
  }

  predicate Negative(s: string) {
    Blanks(s) < |s| && s[Blanks(s)] == '-'
  }

  /** strtoul in base 10 with 64-bit results: the value and where reading stopped. A value out of range
  gives the greatest one; a minus sign negates modulo two to the 64. Without digits nothing is read. */
  function StrToUl(s: string): (r: (nat, nat))
    ensures r.1 <= |s| && r.0 <= U64_MAX
  {
    var k := Lead(s);
    var n := DigitRun(s[k..]);
    if n == 0 then (0, 0)
    else
      var v := Value(s[k..][..n]);
      (if v > U64_MAX then U64_MAX else if Negative(s) && v > 0 then U64_MAX + 1 - v else v, k + n)
  }

  /** strtoul inverts printf on every 64-bit value, and stops at the first character that is not a digit. */
  lemma StrToUlPrint(n: nat, rest: string)
    requires n <= U64_MAX && (rest == [] || !IsDigit(rest[0]))
    ensures StrToUl(Print(n) + rest) == (n, |Print(n)|)
  {
    var s := Print(n) + rest;
    assert s[0] == Print(n)[0];
    assert Lead(s) == 0 && !Negative(s);
    assert s[0..] == s;
    DigitRunIs(Print(n), rest);
    assert s[..|Print(n)|] == Print(n);
    ValuePrint(n);
  }

  /** parse_u32 (src/server/mgmt.c:119-131). */
  function ParseU32(s: string): (r: Option<nat>) {
    var (v, end) := StrToUl(s);
    if s == [] || end != |s| || v > U32_MAX then None else Some(v)
  }

  /** What parse_u32 is documented to do: read an unsigned decimal number, refusing everything else. */
  function DocumentedU32(s: string): (r: Option<nat>) {
    if s != [] && DigitRun(s) == |s| && Value(s[..|s|]) <= U32_MAX then Some(Value(s[..|s|])) else None
  }

  /** The texts strtoul lets through beyond the documented ones: blanks or a sign before the digits, with a
  value that, negated modulo two to the 64 if need be, still fits 32 bits. */
  predicate Lenient(s: string) {
    var k := Lead(s);
    && 0 < k < |s| && DigitRun(s[k..]) == |s| - k
    && var v := Value(s[k..][..|s| - k]);
       if Negative(s) then v == 0 || U64_MAX + 1 - U32_MAX <= v <= U64_MAX else v <= U32_MAX
  }

  /** parse_u32 does what it documents exactly on the texts that are not lenient. */
  lemma ParseU32Exact(s: string)
    ensures ParseU32(s) == DocumentedU32(s) <==> !Lenient(s)
  {
    var k := Lead(s);
    if k > 0 {
      assert !IsDigit(s[0]);
      assert DocumentedU32(s) == None;
    } else {
      assert s[0..] == s && !Negative(s);
      if s != [] && DigitRun(s) > 0 {
        assert s[..DigitRun(s)] == s[0..][..DigitRun(s)];
      }
    }
  }

  /** A spelling of `n` with a minus sign. */
  function NegativeSpelling(n: nat): (s: string)
    requires n <= U32_MAX
  {
    "-" + Print(if n == 0 then 0 else U64_MAX + 1 - n)
  }

  /** A minus sign is not refused: the number wraps around, so every 32-bit value has a negative spelling. */
  lemma ParseU32Wraps(n: nat)
    requires n <= U32_MAX
    ensures ParseU32(NegativeSpelling(n)) == Some(n) && DocumentedU32(NegativeSpelling(n)) == None
  {
    hide Print, Value, DigitRun;
    var m := if n == 0 then 0 else U64_MAX + 1 - n;
    var digits := Print(m);
    var s := "-" + digits;
    assert Blanks(s) == 0 && Lead(s) == 1 && Negative(s);
    assert s[1..] == digits == digits + [] == digits[..|digits|];
    DigitRunIs(digits, []);
    ValuePrint(m);
    assert !IsDigit(s[0]);
  }
}
