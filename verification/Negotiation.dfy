/** Method negotiation (src/server/negotiation.c; section 3 of RFC 1928). */
module Negotiation {
  import opened Bytes
  import opened Buffers
  import opened Feeding

  const SOCKS5_VERSION: byte := 5
  const METHOD_NOAUTH: byte := 0
  const METHOD_USERPASS: byte := 2
  const METHOD_NONE: byte := 255

  datatype NegState = Version | NMethods | Methods | Done | Invalid

  datatype NegView = NegView(state: NegState, pending: byte, userpass: bool, noauth: bool)

  const NEG_START := NegView(Version, 0, false, false)

  function NegStep(p: NegView, c: byte): (r: NegView) {
    match p.state
    case Version => p.(state := if c == SOCKS5_VERSION then NMethods else Invalid)
    case NMethods => p.(pending := c, state := if c == 0 then Done else Methods)
    case Methods =>
      var left := (p.pending + 255) % 256;
      p.(pending := left,
         userpass := p.userpass || c == METHOD_USERPASS,
         noauth := p.noauth || c == METHOD_NOAUTH,
         state := if left == 0 then Done else Methods)
    case _ => p
  }

  predicate NegFinal(p: NegView) {
    p.state.Done? || p.state.Invalid?
  }

  /** The parser run over `input`: the state reached and the bytes left unread. */
  function ParseNeg(p: NegView, input: seq<byte>): (r: (NegView, seq<byte>)) {
    Feed(NegStep, NegFinal, p, input)
  }

  lemma ParseNegUnfold(p: NegView, input: seq<byte>)
    ensures ParseNeg(p, input) == if input == [] || NegFinal(p) then (p, input) else ParseNeg(NegStep(p, input[0]), input[1..])
  {}

  class NegotiationParser {
    var state: NegState
    var pendingMethods: byte
    var hasUserpass: bool
    var hasNoauth: bool

    function View(): (v: NegView)
      reads this
    {
      NegView(state, pendingMethods, hasUserpass, hasNoauth)
    }

    constructor ()
      ensures View() == NEG_START
    {
      state, pendingMethods, hasUserpass, hasNoauth := Version, 0, false, false;
    }

    /** negotiation_parser_init. */
    method Init()
      modifies this
      ensures View() == NEG_START
    {
      state, pendingMethods, hasUserpass, hasNoauth := Version, 0, false, false;
    }

    /** negotiation_parser_feed. */
    method FeedFrom(b: Buffer<byte>)
      requires b.Valid()
      modifies this, b, b.data
      ensures b.Valid()
      ensures (View(), b.contents) == ParseNeg(old(View()), old(b.contents))
    {
      hide ParseNeg;
      while b.CanRead() && state != Done && state != Invalid
        invariant b.Valid()
        invariant ParseNeg(View(), b.contents) == ParseNeg(old(View()), old(b.contents))
        decreases b.write - b.read
      {
        ParseNegUnfold(View(), b.contents);
        ghost var before := b.contents;
        var c := b.Read(0);
        assert before[0] == c && before[1..] == b.contents;
        match state {
          case Version =>
            state := if c == SOCKS5_VERSION then NMethods else Invalid;
          case NMethods =>
            pendingMethods := c;
            state := if c == 0 then Done else Methods;
          case Methods =>
            if c == METHOD_USERPASS {
              hasUserpass := true;
            } else if c == METHOD_NOAUTH {
              hasNoauth := true;
            }
            pendingMethods := (pendingMethods + 255) % 256;
            if pendingMethods == 0 {
              state := Done;
            }
        }
      }
      ParseNegUnfold(View(), b.contents);
    }
  }

  /** fill_negotiation_reply. */
  method FillNegotiationReply(p: NegView, b: Buffer<byte>, requireAuth: bool) returns (chosen: byte)
    requires b.Valid() && b.write + 2 <= b.data.Length
    modifies b, b.data
    ensures b.Valid() && b.read == old(b.read) && chosen == ChooseMethod(p, requireAuth)
    ensures b.contents == old(b.contents) + MethodReply(chosen)
  {
    chosen := METHOD_NONE;
    if requireAuth {
      if p.userpass {
        chosen := METHOD_USERPASS;
      }
    } else {
      if p.noauth {
        chosen := METHOD_NOAUTH;
      }
    }
    b.Write(SOCKS5_VERSION);
    b.Write(chosen);
  }

  /** With users configured only user/password is acceptable; without users only no authentication. */
  function ChooseMethod(p: NegView, requireAuth: bool): (m: byte) {
    if requireAuth then if p.userpass then METHOD_USERPASS else METHOD_NONE
    else if p.noauth then METHOD_NOAUTH else METHOD_NONE
  }

  function MethodReply(method_: byte): (r: seq<byte>) {
    [SOCKS5_VERSION, method_]
  }

  // ------------------------------------------------------------- what the parser accepts

  /** The METHODS field, read byte by byte: done exactly when all of them have arrived. */
  lemma {:induction false} MethodsRead(p: NegView, input: seq<byte>)
    requires p.state.Methods? && p.pending > 0
    ensures var n: int := p.pending;
            var (q, rest) := ParseNeg(p, input);
            if |input| < n then q.state.Methods? && rest == []
            else rest == input[n..] && q == NegView(Done, 0, p.userpass || METHOD_USERPASS in input[..n],
                                                    p.noauth || METHOD_NOAUTH in input[..n])
    decreases |input|
  {
    hide ParseNeg;
    ParseNegUnfold(p, input);
    if input != [] {
      var n: int := p.pending;
      var q := NegStep(p, input[0]);
      assert |input| >= n ==> input[..n] == [input[0]] + input[1..][..n - 1];
      if q.state.Methods? {
        MethodsRead(q, input[1..]);
      } else {
        ParseNegUnfold(q, input[1..]);
      }
    }
  }

  /** The method for a complete message, from the octets offered: with users user/password or nothing, without them
  no authentication or nothing. */
  ghost predicate ChosenByOffer(message: seq<byte>, users: bool, chosen: byte) {
    |message| >= 2 &&
    var n: int := message[1];
    && |message| >= 2 + n
    && var offered := message[2..2 + n];
       chosen == if users then (if 2 in offered then 2 else 255) else if 0 in offered then 0 else 255
  }

  /** The parser accepts exactly the well-formed messages, reports the offered methods faithfully and
  leaves every byte after the message unread; it rejects exactly a wrong version byte. */
  lemma NegotiationExact(input: seq<byte>)
    ensures var (q, rest) := ParseNeg(NEG_START, input);
            var n: int := if |input| < 2 then 0 else input[1];
            && (q.state.Done? <==> |input| >= 2 + n && input[0] == SOCKS5_VERSION)
            && (q.state.Invalid? <==> |input| >= 1 && input[0] != SOCKS5_VERSION)
            && (q.state.Done? ==>
                  && rest == input[2 + n..]
                  && (q.userpass <==> METHOD_USERPASS in input[2..2 + n])
                  && (q.noauth <==> METHOD_NOAUTH in input[2..2 + n]))
  {
    hide ParseNeg;
    ParseNegUnfold(NEG_START, input);
    if input != [] {
      var p := NegStep(NEG_START, input[0]);
      ParseNegUnfold(p, input[1..]);
      if |input| >= 2 && input[0] == SOCKS5_VERSION {
        var q := NegStep(p, input[1]);
        var n: int := input[1];
        assert input[1..][1..] == input[2..];
        ParseNegUnfold(q, input[2..]);
        if q.state.Methods? {
          MethodsRead(q, input[2..]);
          assert |input| >= 2 + n ==> input[2..][..n] == input[2..2 + n] && input[2..][n..] == input[2 + n..];
        }
      }
    }
  }

  /** Whatever is offered, with or without users, the method chosen is the one the offer and the users call for. */
  lemma ChoiceIsByOffer(input: seq<byte>, users: bool)
    requires ParseNeg(NEG_START, input).0.state.Done?
    ensures ChosenByOffer(input, users, ChooseMethod(ParseNeg(NEG_START, input).0, users))
  {
    hide ParseNeg;
    NegotiationExact(input);
  }
}
