/** What the SMCP commands mean for one another, over whole lines: section 4 of docs/protocolo.md. */
module MgmtLaws {
  import opened Sequences
  import opened Decimal
  import opened Users
  import opened MgmtReplies
  import opened MgmtCommands

  // ------------------------------------------------------------------------------ spelling

  /** The word is the name, letters in either case. */
  ghost predicate Spells(word: string, name: string) {
    |word| == |name| && forall i :: 0 <= i < |name| ==> word[i] == name[i] || ('a' <= name[i] <= 'z' && word[i] as int + 32 == name[i] as int)
  }

  ghost predicate NoCapitals(s: string) {
    forall i :: 0 <= i < |s| ==> !('A' <= s[i] <= 'Z')
  }

  lemma LowerSpells(word: string, name: string)
    requires NoCapitals(name)
    ensures Lower(word) == name <==> Spells(word, name)
  {
    if Lower(word) == name {
      assert forall i :: 0 <= i < |name| ==> name[i] == LowerChar(word[i]);
    }
    if Spells(word, name) {
      assert forall i :: 0 <= i < |name| ==> Lower(word)[i] == name[i];
    }
  }

  lemma Spelled(word: string, v: Verb)
    requires !v.Unknown? && Spells(word, Name(v))
    ensures VerbOf(word) == v
  {
    hide VerbOf, Lower, Spells;
    NamesPlain(v);
    LowerSpells(word, Name(v));
    VerbIs(word, v);
  }

  lemma NamesPlain(v: Verb)
    ensures NoCapitals(Name(v))
  {}

  /** A word that spells none of the eleven names is no command. */
  lemma Misspelled(word: string)
    requires forall v: Verb :: !v.Unknown? ==> !Spells(word, Name(v))
    ensures VerbOf(word) == Unknown
  {
    hide VerbOf, Spells, Name;
    VerbSpells(word);
  }

  lemma VerbSpells(word: string)
    ensures var v := VerbOf(word); !v.Unknown? ==> Spells(word, Name(v))
  {
    hide Lower, Spells, Name;
    var v := VerbOf(word);
    if !v.Unknown? {
      NamesPlain(v);
      LowerSpells(word, Name(v));
      assert Is(word, v);
    }
  }

  // ------------------------------------------------------------------------- the configuration

  /** The listing of GET-CONFIG, before or after. */
  ghost predicate Lists(d: Deps, get: string, lines: seq<string>) {
    Respond(d, true, [get]).reply == Reply("+OK 3", lines)
  }

  ghost predicate Begins(line: string, word: string) {
    word + " " <= line
  }

  ghost function ConfigNow(c: Config): (lines: seq<string>) {
    ["conn_timeout" + " " + Print(c.connTimeout), "io_buffer_size" + " " + Print(c.ioBufferSize), "max_connections" + " " + Print(c.maxConnections)]
  }

  lemma ConfigListed(d: Deps, get: string)
    requires Spells(get, "get-config")
    ensures Respond(d, true, [get]).deps == d && Lists(d, get, ConfigNow(d.config))
  {
    hide VerbOf, Print, Spells;
    Spelled(get, GetConfig);
    PrintThree();
    var c := d.config;
    assert "conn_timeout " + Print(c.connTimeout) == "conn_timeout" + " " + Print(c.connTimeout);
    assert "io_buffer_size " + Print(c.ioBufferSize) == "io_buffer_size" + " " + Print(c.ioBufferSize);
    assert "max_connections " + Print(c.maxConnections) == "max_connections" + " " + Print(c.maxConnections);
  }

  lemma PrintThree()
    ensures Print(3) == "3"
  {}

  /** A line made of a word without spaces and a number begins with that word and no other. */
  lemma OnlyWord(name: string, n: nat, word: string)
    requires ' ' !in name
    ensures Begins(name + " " + Print(n), word) <==> word == name
  {
    hide Print;
    var line := name + " " + Print(n);
    if word == name {
      assert line == word + " " + Print(n);
    }
    if Begins(line, word) {
      assert line[|word|] == (word + " ")[|word|] == ' ';
      OneSpace(name, n, |word|);
      assert word == (word + " ")[..|word|] == line[..|word|] == name;
    }
  }

  lemma OneSpace(name: string, n: nat, i: nat)
    requires ' ' !in name && i < |name + " " + Print(n)|
    ensures (name + " " + Print(n))[i] == ' ' <==> i == |name|
  {
    hide Print;
    assert (name + " " + Print(n))[i] == if i < |name| then name[i] else if i == |name| then ' ' else Print(n)[i - |name| - 1];
    DigitsOnly(n);
  }

  lemma DigitsOnly(n: nat)
    ensures forall i :: 0 <= i < |Print(n)| ==> Print(n)[i] != ' '
  {
    assert forall i :: 0 <= i < |Print(n)| ==> IsDigit(Print(n)[i]);
  }

  /** The values a parameter takes, by its name. */
  predicate Takes(c: Config, name: string, v: nat) {
    if name == "conn_timeout" then 1 <= v <= 3600
    else if name == "io_buffer_size" then 512 <= v <= 65536
    else 1 <= v <= c.hardLimit
  }

  /** SET is what GET-CONFIG then shows. The parameter is the line that begins with the key, its case ignored; without
  such a line the key is unknown. A number in the parameter's range replaces that line's number and is confirmed;
  anything else changes nothing. */
  lemma SetThenGet(d: Deps, set_: string, get: string, key: string, value: string, before: seq<string>, after: seq<string>)
    requires Spells(set_, "set") && Spells(get, "get-config")
    requires Lists(d, get, before) && Lists(Respond(d, true, [set_, key, value]).deps, get, after)
    ensures var o := Respond(d, true, [set_, key, value]); var n := ParseU32(value);
            var known := exists i :: 0 <= i < |before| && Begins(before[i], Lower(key));
            var done := known && n.Some? && Takes(d.config, Lower(key), n.value);
            && o.deps == d.(config := o.deps.config) && |after| == |before|
            && (forall i :: 0 <= i < |before| ==>
                  after[i] == if done && Begins(before[i], Lower(key)) then Lower(key) + " " + Print(n.value) else before[i])
            && o.reply == Line(if !known then "-ERR unknown key" else if !done then "-ERR invalid value"
                               else "+OK " + key + " = " + Print(n.value))
  {
    hide VerbOf, ParseU32, Print, Spells, Begins, Lower, ExecuteSet, Lists, Takes, ConfigNow;
    Spelled(set_, Set);
    assert Respond(d, true, [set_, key, value]) == ExecuteSet(d, key, value);
    SetMeans(d, key, value);
    SameListing(d, get, before);
    SameListing(Respond(d, true, [set_, key, value]).deps, get, after);
    KeyLines(d.config, Lower(key));
    var n := ParseU32(value);
    if IsKey(Lower(key)) && n.Some? {
      NewLines(d.config, Lower(key), n.value);
    }
  }

  /** Which line of the listing a key is. */
  lemma KeyLines(c: Config, w: string)
    ensures var lines := ConfigNow(c);
            && |lines| == 3 && (Begins(lines[0], w) <==> w == "conn_timeout")
            && (Begins(lines[1], w) <==> w == "io_buffer_size") && (Begins(lines[2], w) <==> w == "max_connections")
            && (IsKey(w) <==> exists i :: 0 <= i < |lines| && Begins(lines[i], w))
  {
    hide Print, Begins;
    OnlyWord("conn_timeout", c.connTimeout, w);
    OnlyWord("io_buffer_size", c.ioBufferSize, w);
    OnlyWord("max_connections", c.maxConnections, w);
  }

  predicate IsKey(w: string) {
    w == "conn_timeout" || w == "io_buffer_size" || w == "max_connections"
  }

  function With(c: Config, w: string, v: nat): (r: Config) {
    if w == "conn_timeout" then c.(connTimeout := v) else if w == "io_buffer_size" then c.(ioBufferSize := v) else c.(maxConnections := v)
  }

  /** Changing a parameter changes its line. */
  lemma NewLines(c: Config, w: string, v: nat)
    requires IsKey(w)
    ensures var lines, then_ := ConfigNow(c), ConfigNow(With(c, w, v));
            |then_| == |lines| && forall i :: 0 <= i < |lines| ==> then_[i] == if Begins(lines[i], w) then w + " " + Print(v) else lines[i]
  {
    hide Print, Begins;
    KeyLines(c, w);
    NamesOfParameters();
  }

  lemma SameListing(d: Deps, get: string, lines: seq<string>)
    requires Spells(get, "get-config") && Lists(d, get, lines)
    ensures lines == ConfigNow(d.config)
  {
    hide Spells, Respond, ConfigNow;
    ConfigListed(d, get);
  }

  lemma NamesOfParameters()
    ensures "conn_timeout" != "io_buffer_size" && "conn_timeout" != "max_connections" && "io_buffer_size" != "max_connections"
  {
    assert |"conn_timeout"| == 12 && |"io_buffer_size"| == 14 && |"max_connections"| == 15;
  }

  lemma SetMeans(d: Deps, key: string, value: string)
    ensures var o := ExecuteSet(d, key, value); var n := ParseU32(value); var w := Lower(key);
            var done := IsKey(w) && n.Some? && Takes(d.config, w, n.value);
            && o.reply == Line(if !IsKey(w) then "-ERR unknown key" else if !done then "-ERR invalid value" else "+OK " + key + " = " + Print(n.value))
            && o.deps == if done then d.(config := With(d.config, w, n.value)) else d
  {
    hide ParseU32, Print, Lower, KeyOf, Configured, Takes, IsKey, With;
    KeyMeans(key);
    if IsKey(Lower(key)) && ParseU32(value).Some? {
      ConfiguredMeans(d.config, key, ParseU32(value).value);
    }
    assert "-ERR " + "unknown key" == "-ERR unknown key" && "-ERR " + "invalid value" == "-ERR invalid value";
  }

  lemma KeyMeans(key: string)
    ensures KeyOf(key).NoKey? <==> !IsKey(Lower(key))
  {
    hide Lower;
  }

  lemma ConfiguredMeans(c: Config, key: string, v: nat)
    requires IsKey(Lower(key)) && !KeyOf(key).NoKey?
    ensures Configured(c, KeyOf(key), v) == if Takes(c, Lower(key), v) then Some(With(c, Lower(key), v)) else None
  {
    hide Lower;
    NamesOfParameters();
  }

  // --------------------------------------------------------------------------------- the users

  ghost predicate HasName(users: seq<Entry<char>>, name: string) {
    exists i :: 0 <= i < |users| && users[i].name == name
  }

  lemma LookupHasName(users: seq<Entry<char>>, name: string)
    requires UniqueNames(users)
    ensures Lookup(users, name) != None <==> HasName(users, name)
  {
    if Lookup(users, name) != None {
      var k := LookupSome(users, name);
    } else if HasName(users, name) {
      var i :| 0 <= i < |users| && users[i].name == name;
      LookupAt(users, i);
    }
  }

  /** LIST-USERS names the users in the order they came. */
  lemma UsersListed(d: Deps, list: string)
    requires Spells(list, "list-users")
    ensures var o := Respond(d, true, [list]);
            && o.deps == d && o.reply.status == "+OK " + Print(|d.users|) && |o.reply.data| == |d.users|
            && forall i :: 0 <= i < |d.users| ==> o.reply.data[i] == d.users[i].name
  {
    hide VerbOf, Print, Spells;
    Spelled(list, ListUsers);
  }

  /** ADD-USER, first the name and then the password: refused for a name that is there, a full store, or strings that
  are empty or too long, in that order; otherwise the pair is the last user, and may use the proxy. DEL-USER takes it
  back exactly. */
  lemma AddThenDelete(d: Deps, add: string, del: string, name: string, pass: string)
    requires ValidUsers(d.users) && Spells(add, "add-user") && Spells(del, "del-user")
    ensures var o := Respond(d, true, [add, name, pass]);
            if HasName(d.users, name) then o == Outcome(d, true, Line("-ERR user exists"), false)
            else if |d.users| >= 100 then o == Outcome(d, true, Line("-ERR store full"), false)
            else if !(1 <= |name| <= 255 && 1 <= |pass| <= 255) then o == Outcome(d, true, Line("-ERR invalid"), false)
            else
              && o == Outcome(d.(users := d.users + [Entry(name, pass)]), true, Line("+OK user added"), false)
              && Accepts(o.deps.users, name, pass) && Respond(o.deps, true, [del, name]) == Outcome(d, true, Line("+OK user removed"), false)
  {
    hide VerbOf, Spells, Lookup, Forget;
    Spelled(add, AddUser);
    Spelled(del, DelUser);
    LookupHasName(d.users, name);
    MgmtCommands.AddThenDelete(d, name, pass, name, [del, name]);
  }

  /** DEL-USER removes exactly the user of that name; the others keep their order. */
  lemma DeleteRemoves(d: Deps, del: string, name: string)
    requires ValidUsers(d.users) && Spells(del, "del-user")
    ensures var o := Respond(d, true, [del, name]);
            if !HasName(d.users, name) then o == Outcome(d, true, Line("-ERR no such user"), false)
            else exists k :: 0 <= k < |d.users| && d.users[k].name == name
                   && o == Outcome(d.(users := d.users[..k] + d.users[k + 1..]), true, Line("+OK user removed"), false)
  {
    hide VerbOf, Spells, Lookup, Forget;
    Spelled(del, DelUser);
    LookupHasName(d.users, name);
    if HasName(d.users, name) {
      var k := LookupSome(d.users, name);
      ForgetAt(d.users, k);
    }
  }

  // ------------------------------------------------------------------------ the administrator

  /** AUTH lets in exactly the configured administrator, by name and password in that order. */
  lemma AuthLetsIn(d: Deps, verb: string, name: string, pass: string)
    requires Spells(verb, "auth")
    ensures Respond(d, false, [verb, name, pass]) ==
              if d.admin.name != [] && name == d.admin.name && pass == d.admin.pass then Outcome(d, true, Line("+OK authenticated"), false)
              else Outcome(d, false, Line("-ERR bad credentials"), false)
    ensures Respond(d, true, [verb, name, pass]) == Outcome(d, true, Line("-ERR already authenticated"), false)
  {
    hide VerbOf, Spells, Execute;
    Spelled(verb, Auth);
    assert "-ERR " + "bad credentials" == "-ERR bad credentials" && "-ERR " + "already authenticated" == "-ERR already authenticated";
  }

  /** PASSWD with 1 to 255 characters changes that password and nothing else; otherwise nothing. */
  lemma PasswdThenAuth(d: Deps, passwd: string, verb: string, pass: string, name: string, attempt: string)
    requires Spells(passwd, "passwd") && Spells(verb, "auth")
    ensures var o := Respond(d, true, [passwd, pass]);
            if 1 <= |pass| <= 255 then
              && o == Outcome(d.(admin := Admin(d.admin.name, pass)), true, Line("+OK password changed"), false)
              && (Respond(o.deps, false, [verb, name, attempt]).auth <==> d.admin.name != [] && name == d.admin.name && attempt == pass)
            else o == Outcome(d, true, Line("-ERR invalid"), false)
  {
    hide VerbOf, Spells;
    Spelled(passwd, Passwd);
    Spelled(verb, Auth);
  }

  /** Without authentication only AUTH, HELP and QUIT do anything. */
  lemma GateIsClosed(d: Deps, words: seq<string>)
    requires words != [] && !Spells(words[0], "auth") && !Spells(words[0], "help") && !Spells(words[0], "quit")
    ensures Respond(d, false, words) == Outcome(d, false, Line("-ERR not authenticated"), false)
  {
    hide VerbOf, Spells, Execute;
    var v := VerbOf(words[0]);
    if Public(v) {
      VerbSpells(words[0]);
    }
  }

  /** A word that is none of the names is an unknown command, and so is an empty line. */
  lemma UnknownIsRefused(d: Deps, words: seq<string>)
    requires words == [] || forall v: Verb :: !v.Unknown? ==> !Spells(words[0], Name(v))
    ensures Respond(d, true, words) == Outcome(d, true, Line("-ERR unknown command"), false)
  {
    hide VerbOf, Spells, Name;
    if words != [] {
      Misspelled(words[0]);
    }
  }

  // -------------------------------------------------------------------------- log and metrics

  function Least(a: nat, b: nat): (n: nat) {
    if a < b then a else b
  }

  /** LOG n shows the newest n lines of the log, newest first, at most fifty and at most what there is; LOG alone ten;
  anything but a number is refused. */
  lemma LogShowsNewest(d: Deps, log: string, n: string)
    requires Spells(log, "log")
    ensures var o := Respond(d, true, [log]); var k := Least(10, |d.log|); o == Outcome(d, true, Reply("+OK " + Print(k), d.log[..k]), false)
    ensures var o := Respond(d, true, [log, n]);
            if ParseU32(n).None? then o == Outcome(d, true, Line("-ERR invalid"), false)
            else
              var k := Least(Least(ParseU32(n).value, 50), |d.log|);
              o == Outcome(d, true, Reply("+OK " + Print(k), d.log[..k]), false)
  {
    hide VerbOf, Spells, StrToUl, Print;
    Spelled(log, Log);
    assert d.log[..|d.log|] == d.log;
  }

  /** METRICS shows the five counters under their names, the sum of the two byte counters modulo two to the 64, and
  the number of users. */
  lemma MetricsShown(d: Deps, verb: string)
    requires Spells(verb, "metrics")
    ensures var o := Respond(d, true, [verb]); var m := d.metrics;
            && o.deps == d && o.reply.status == "+OK 7" && |o.reply.data| == 7
            && o.reply.data[0] == "active_connections " + Print(m.active)
            && o.reply.data[1] == "historical_connections " + Print(m.historical)
            && o.reply.data[2] == "max_active_connections " + Print(m.maxActive)
            && o.reply.data[3] == "bytes_client_to_origin " + Print(m.toOrigin)
            && o.reply.data[4] == "bytes_origin_to_client " + Print(m.toClient)
            && o.reply.data[5] == "total_bytes " + Print((m.toOrigin + m.toClient) % 0x1_0000_0000_0000_0000)
            && o.reply.data[6] == "users_count " + Print(|d.users|)
  {
    hide VerbOf, Spells, Print;
    Spelled(verb, Metrics);
    PrintSeven();
  }

  lemma PrintSeven()
    ensures Print(7) == "7"
  {}

  // ----------------------------------------------------------------------------------- words

  /** A command with too few or too many words is invalid and changes nothing, whatever the words. */
  lemma WrongArityIsInvalid(d: Deps, words: seq<string>)
    requires words != []
    requires var w, n := words[0], |words|;
             || (n != 1 && (Spells(w, "quit") || Spells(w, "help") || Spells(w, "metrics") || Spells(w, "list-users") || Spells(w, "get-config")))
             || (n != 2 && (Spells(w, "del-user") || Spells(w, "passwd")))
             || (n != 3 && (Spells(w, "add-user") || Spells(w, "set")))
             || (n > 2 && Spells(w, "log"))
    ensures Respond(d, true, words) == Outcome(d, true, Line("-ERR invalid"), false)
  {
    hide VerbOf, Spells, Execute;
    var w := words[0];
    forall v: Verb | !v.Unknown? && Spells(w, Name(v))
      ensures VerbOf(w) == v
    {
      Spelled(w, v);
    }
    assert Name(Quit) == "quit" && Name(Help) == "help" && Name(Metrics) == "metrics" && Name(ListUsers) == "list-users";
    assert Name(GetConfig) == "get-config" && Name(DelUser) == "del-user" && Name(Passwd) == "passwd" && Name(AddUser) == "add-user";
    assert Name(Set) == "set" && Name(Log) == "log";
  }

  /** QUIT says goodbye and ends the session, authenticated or not. */
  lemma QuitEnds(d: Deps, auth: bool, verb: string)
    requires Spells(verb, "quit")
    ensures Respond(d, auth, [verb]) == Outcome(d, auth, Line("+OK bye"), true)
  {
    hide VerbOf, Spells;
    Spelled(verb, Quit);
  }
}
