/** Username/password authentication (src/server/auth.c; section 2 of RFC 1929). */
module Auth {
  import opened Bytes
  import opened Buffers
  import opened Feeding

  const AUTH_VERSION: byte := 1
  const AUTH_OK: byte := 0
  const AUTH_FAIL: byte := 1

  datatype AuthState = Ver | ULen | UName | PLen | Passwd | Done | Error

  datatype AuthView = AuthView(state: AuthState, ulen: byte, uname: seq<byte>, plen: byte, passwd: seq<byte>)

  const AUTH_START := AuthView(Ver, 0, [], 0, [])

  function AuthStep(p: AuthView, c: byte): (r: AuthView) {
    match p.state
    case Ver => p.(state := if c == AUTH_VERSION then ULen else Error)
    case ULen => p.(ulen := c, uname := [], state := if c == 0 then PLen else UName)
    case UName => p.(uname := p.uname + [c], state := if |p.uname| + 1 == p.ulen then PLen else UName)
    case PLen => p.(plen := c, passwd := [], state := if c == 0 then Done else Passwd)
    case Passwd => p.(passwd := p.passwd + [c], state := if |p.passwd| + 1 == p.plen then Done else Passwd)
    case _ => p
  }

  predicate AuthFinal(p: AuthView) {
    p.state.Done? || p.state.Error?
  }

  function ParseAuth(p: AuthView, input: seq<byte>): (r: (AuthView, seq<byte>)) {
    Feed(AuthStep, AuthFinal, p, input)
  }

  lemma ParseAuthUnfold(p: AuthView, input: seq<byte>)
    ensures ParseAuth(p, input) == if input == [] || AuthFinal(p) then (p, input) else ParseAuth(AuthStep(p, input[0]), input[1..])
  {}

  /** The lengths agree with what has been collected; it bounds every array access of the parser. */
  ghost predicate AuthSane(p: AuthView) {
    && |p.uname| <= p.ulen && |p.passwd| <= p.plen
    && (p.state.UName? ==> |p.uname| < p.ulen)
    && (p.state.Passwd? ==> |p.passwd| < p.plen)
    && (p.state.PLen? || p.state.Passwd? || p.state.Done? ==> |p.uname| == p.ulen)
    && (p.state.Done? ==> |p.passwd| == p.plen)
  }

  class AuthParser {
    var state: AuthState
    var ulen: byte
    const uname: array<byte>
    var unameRead: byte
    var plen: byte
    const passwd: array<byte>
    var passwdRead: byte

    function View(): (v: AuthView)
      requires uname.Length == passwd.Length == 256
      reads this, uname, passwd
    {
      AuthView(state, ulen, uname[..unameRead], plen, passwd[..passwdRead])
    }

    ghost predicate Valid()
      reads this, uname, passwd
    {
      && uname.Length == passwd.Length == 256 && uname != passwd
      && AuthSane(View())
    }

    constructor ()
      ensures Valid() && View() == AUTH_START && fresh(uname) && fresh(passwd)
    {
      uname, passwd := new byte[256], new byte[256];
      state, ulen, unameRead, plen, passwdRead := Ver, 0, 0, 0, 0;
    }

    /** auth_parser_init. */
    method Init()
      requires Valid()
      modifies this, uname, passwd
      ensures Valid() && View() == AUTH_START
    {
      state, ulen, unameRead, plen, passwdRead := Ver, 0, 0, 0, 0;
      uname[0], passwd[0] := 0, 0;
    }

    /** One turn of the loop of auth_parser_feed. */
    method Consume(c: byte)
      requires Valid() && !AuthFinal(View())
      modifies this, uname, passwd
      ensures Valid() && View() == AuthStep(old(View()), c)
    {
      match state {
        case Ver =>
          state := if c == AUTH_VERSION then ULen else Error;
        case ULen =>
          ulen, unameRead := c, 0;
          if c == 0 {
            uname[0] := 0;
            state := PLen;
          } else {
            state := UName;
          }
        case UName =>
          uname[unameRead] := c;
          unameRead := unameRead + 1;
          if unameRead == ulen {
            uname[ulen] := 0;
            state := PLen;
          }
        case PLen =>
          plen, passwdRead := c, 0;
          if c == 0 {
            passwd[0] := 0;
            state := Done;
          } else {
            state := Passwd;
          }
        case Passwd =>
          passwd[passwdRead] := c;
          passwdRead := passwdRead + 1;
          if passwdRead == plen {
            passwd[plen] := 0;
            state := Done;
          }
      }
    }

    /** auth_parser_feed. */
    method FeedFrom(b: Buffer<byte>)
      requires Valid() && b.Valid() && b.data != uname && b.data != passwd
      modifies this, uname, passwd, b, b.data
      ensures Valid() && b.Valid()
      ensures (View(), b.contents) == ParseAuth(old(View()), old(b.contents))
    {
      hide ParseAuth, AuthStep;
      while b.CanRead() && state != Done && state != Error
        invariant Valid() && b.Valid()
        invariant ParseAuth(View(), b.contents) == ParseAuth(old(View()), old(b.contents))
        decreases b.write - b.read
      {
        ParseAuthUnfold(View(), b.contents);
        ghost var before := b.contents;
        var c := b.Read(0);
        assert before[0] == c && before[1..] == b.contents;
        Consume(c);
      }
      ParseAuthUnfold(View(), b.contents);
    }
  }

  function AuthReply(status: byte): (r: seq<byte>) {
    [AUTH_VERSION, status]
  }

  /** fill_auth_reply. */
  method FillAuthReply(b: Buffer<byte>, status: byte)
    requires b.Valid() && b.write + 2 <= b.data.Length
    modifies b, b.data
    ensures b.Valid() && b.read == old(b.read)
    ensures b.contents == old(b.contents) + AuthReply(status)
  {
    b.Write(AUTH_VERSION);
    b.Write(status);
  }

  // ------------------------------------------------------------- what the parser accepts

  /** The message that carries a user name and a password. */
  function AuthMessage(user: seq<byte>, pass: seq<byte>): (m: seq<byte>)
    requires |user| <= 255 && |pass| <= 255
  {
    [AUTH_VERSION, |user| as byte] + user + [|pass| as byte] + pass
  }

  /** The bytes a parser in this state has read so far. */
  ghost function AuthConsumed(p: AuthView): (s: seq<byte>) {
    match p.state
    case Ver => []
    case ULen => [AUTH_VERSION]
    case UName => [AUTH_VERSION, p.ulen] + p.uname
    case PLen => [AUTH_VERSION, p.ulen] + p.uname
    case _ => [AUTH_VERSION, p.ulen] + p.uname + [p.plen] + p.passwd
  }

  lemma {:induction false} AuthKeepsBytes(p: AuthView, input: seq<byte>)
    requires AuthSane(p) && !p.state.Error?
    ensures var (q, rest) := ParseAuth(p, input);
            !q.state.Error? ==> AuthSane(q) && AuthConsumed(q) + rest == AuthConsumed(p) + input
    decreases |input|
  {
    hide ParseAuth;
    ParseAuthUnfold(p, input);
    if input != [] && !AuthFinal(p) {
      var q := AuthStep(p, input[0]);
      ParseAuthUnfold(q, input[1..]);
      if !q.state.Error? {
        assert AuthConsumed(q) == AuthConsumed(p) + [input[0]];
        assert [input[0]] + input[1..] == input;
        AuthKeepsBytes(q, input[1..]);
      }
    }
  }

  /** Whatever the parser accepts is the message of the credentials it reports, byte for byte,
  followed by exactly what it left unread. */
  lemma AuthSound(input: seq<byte>)
    ensures var (q, rest) := ParseAuth(AUTH_START, input);
            q.state.Done? ==>
              && |q.uname| == q.ulen && |q.passwd| == q.plen
              && input == AuthMessage(q.uname, q.passwd) + rest
  {
    AuthKeepsBytes(AUTH_START, input);
  }

  lemma {:induction false} CollectName(p: AuthView, s: seq<byte>, tail: seq<byte>)
    requires p.state.UName? && s != [] && |p.uname| + |s| == p.ulen
    ensures ParseAuth(p, s + tail) == ParseAuth(p.(state := PLen, uname := p.uname + s), tail)
    decreases |s|
  {
    hide ParseAuth;
    ParseAuthUnfold(p, s + tail);
    assert (s + tail)[1..] == s[1..] + tail;
    assert p.uname + [s[0]] + s[1..] == p.uname + s;
    if |s| > 1 {
      CollectName(AuthStep(p, s[0]), s[1..], tail);
    } else {
      assert s == [s[0]] && s[1..] + tail == tail;
    }
  }

  lemma {:induction false} CollectPasswd(p: AuthView, s: seq<byte>, tail: seq<byte>)
    requires p.state.Passwd? && s != [] && |p.passwd| + |s| == p.plen
    ensures ParseAuth(p, s + tail) == (p.(state := Done, passwd := p.passwd + s), tail)
    decreases |s|
  {
    hide ParseAuth;
    ParseAuthUnfold(p, s + tail);
    assert (s + tail)[1..] == s[1..] + tail;
    assert p.passwd + [s[0]] + s[1..] == p.passwd + s;
    if |s| > 1 {
      CollectPasswd(AuthStep(p, s[0]), s[1..], tail);
    } else {
      assert s == [s[0]] && s[1..] + tail == tail;
      ParseAuthUnfold(AuthStep(p, s[0]), tail);
    }
  }

  /** Every message is accepted, its credentials are recovered, and the suffix is left untouched. */
  lemma AuthComplete(user: seq<byte>, pass: seq<byte>, suffix: seq<byte>)
    requires |user| <= 255 && |pass| <= 255
    ensures ParseAuth(AUTH_START, AuthMessage(user, pass) + suffix)
            == (AuthView(Done, |user|, user, |pass|, pass), suffix)
  {
    hide ParseAuth;
    var tail := [|pass| as byte] + (pass + suffix);
    var input := AuthMessage(user, pass) + suffix;
    assert input[0] == AUTH_VERSION && input[1..][0] == |user| && input[1..][1..] == user + tail;
    ParseAuthUnfold(AUTH_START, input);
    var p1 := AuthStep(AUTH_START, input[0]);
    ParseAuthUnfold(p1, input[1..]);
    var p2 := AuthStep(p1, |user|);
    if user != [] {
      CollectName(p2, user, tail);
      assert [] + user == user;
    } else {
      assert user + tail == tail;
    }
    var p3 := p2.(state := PLen, uname := user);
    ParseAuthUnfold(p3, tail);
    assert tail[1..] == pass + suffix;
    var p4 := AuthStep(p3, |pass|);
    if pass != [] {
      CollectPasswd(p4, pass, suffix);
      assert [] + pass == pass;
    } else {
      assert pass + suffix == suffix;
      ParseAuthUnfold(p4, suffix);
    }
  }
}
