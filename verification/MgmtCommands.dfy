/** SMCP commands (src/server/mgmt.c): what each line answers and changes.

`Respond` is the specification, written from the command table of section 4 of docs/protocolo.md: a verb, who
may use it, how many words it takes, what it does. `Session.HandleLine` is the chain of tests of
mgmt_handle_line, over the in-place tokenizer and an output buffer that may run out of room. */
module MgmtCommands {
  import opened Sequences
  import opened Buffers
  import opened Decimal
  import opened Users
  import opened MgmtReplies

  const LOG_MAX_LINES := 50
  const LOG_LINE_MAX := 1024
  const OUTPUT_SIZE := LOG_MAX_LINES * LOG_LINE_MAX + 4096
  const PRINTF_MAX := LOG_LINE_MAX + 128

  datatype Admin = Admin(name: string, pass: string)
  datatype Config = Config(connTimeout: nat, ioBufferSize: nat, maxConnections: nat, hardLimit: nat)
  datatype Counters = Counters(active: nat, historical: nat, maxActive: nat, toOrigin: nat, toClient: nat)

  /** What the sessions share (struct mgmt_deps). `log` holds the access log's lines, newest first. */
  datatype Deps = Deps(users: seq<Entry<char>>, admin: Admin, config: Config, metrics: Counters, log: seq<string>)

  ghost predicate ValidUsers(users: seq<Entry<char>>) {
    && |users| <= USERS_MAX && UniqueNames(users)
    && forall i :: 0 <= i < |users| ==> Storable(users[i])
  }

  /** No name has an LF. ADD-USER keeps it so; names given at start-up may have one. */
  ghost predicate CleanNames(users: seq<Entry<char>>) {
    forall i :: 0 <= i < |users| ==> NoLf(users[i].name)
  }

  ghost predicate ValidConfig(c: Config) {
    1 <= c.connTimeout <= 3600 && 512 <= c.ioBufferSize <= 65536 && 1 <= c.maxConnections <= c.hardLimit <= U32_MAX
  }

  ghost predicate ValidMetrics(m: Counters) {
    m.active <= U64_MAX && m.historical <= U64_MAX && m.maxActive <= U64_MAX && m.toOrigin <= U64_MAX && m.toClient <= U64_MAX
  }

  ghost predicate ValidLog(log: seq<string>) {
    forall i :: 0 <= i < |log| ==> |log[i]| < LOG_LINE_MAX && NoLf(log[i])
  }

  ghost predicate ValidDeps(d: Deps) {
    && ValidUsers(d.users) && ValidConfig(d.config) && ValidMetrics(d.metrics) && ValidLog(d.log)
    && |d.admin.name| < 256 && |d.admin.pass| < 256
  }

  // ------------------------------------------------------------------------------- verbs

  function LowerChar(c: char): (l: char) {
    if 'A' <= c <= 'Z' then (c as int + 32) as char else c
  }

  /** A word with its case folded, as strcasecmp sees it. */
  function Lower(s: string): (l: string)
    ensures |l| == |s|
  {
    seq(|s|, i requires 0 <= i < |s| => LowerChar(s[i]))
  }

  datatype Verb = Quit | Help | Auth | Metrics | ListUsers | AddUser | DelUser | GetConfig | Set | Log | Passwd | Unknown

  /** The verb's name, in lower case. */
  function Name(v: Verb): (s: string) {
    match v
    case Quit => "quit"
    case Help => "help"
    case Auth => "auth"
    case Metrics => "metrics"
    case ListUsers => "list-users"
    case AddUser => "add-user"
    case DelUser => "del-user"
    case GetConfig => "get-config"
    case Set => "set"
    case Log => "log"
    case Passwd => "passwd"
    case Unknown => ""
  }

  predicate Is(word: string, v: Verb) {
    Lower(word) == Name(v)
  }

  function VerbOf(word: string): (v: Verb) {
    if Is(word, Quit) then Quit
    else if Is(word, Help) then Help
    else if Is(word, Auth) then Auth
    else if Is(word, Metrics) then Metrics
    else if Is(word, ListUsers) then ListUsers
    else if Is(word, AddUser) then AddUser
    else if Is(word, DelUser) then DelUser
    else if Is(word, GetConfig) then GetConfig
    else if Is(word, Set) then Set
    else if Is(word, Log) then Log
    else if Is(word, Passwd) then Passwd
    else Unknown
  }

  lemma NamesDiffer(v: Verb, w: Verb)
    requires v != w
    ensures Name(v) != Name(w)
  {
    assert |Name(v)| == |Name(w)| ==> v.Quit? || v.Help? || v.Auth? || v.ListUsers? || v.GetConfig? || v.AddUser? || v.DelUser? || v.Set? || v.Log?;
    assert Name(Quit)[0] == 'q' && Name(Help)[0] == 'h' && Name(Auth)[0] == 'a' && Name(ListUsers)[0] == 'l' && Name(GetConfig)[0] == 'g';
    assert Name(AddUser)[0] == 'a' && Name(DelUser)[0] == 'd' && Name(Set)[0] == 's' && Name(Log)[0] == 'l';
  }

  /** The tests of mgmt_handle_line exclude each other, so their order does not matter. */
  lemma VerbIs(word: string, v: Verb)
    requires !v.Unknown? && Is(word, v)
    ensures VerbOf(word) == v
  {
    hide Name, Lower;
    var w := VerbOf(word);
    if w != v && !w.Unknown? {
      assert Is(word, w);
      NamesDiffer(v, w);
    }
  }

  /** AUTH, HELP and QUIT need no authentication. */
  predicate Public(v: Verb) {
    v.Quit? || v.Help? || v.Auth?
  }

  /** How many words a command has, its verb included. */
  predicate ArityOk(v: Verb, n: nat) {
    match v
    case Auth => n == 3
    case AddUser => n == 3
    case Set => n == 3
    case DelUser => n == 2
    case Passwd => n == 2
    case Log => n <= 2
    case _ => n == 1
  }

  // ----------------------------------------------------------------------- what commands do

  datatype Outcome = Outcome(deps: Deps, auth: bool, reply: Reply, quit: bool)

  function TotalBytes(m: Counters): (n: nat)
    ensures n <= U64_MAX
  {
    (m.toOrigin + m.toClient) % (U64_MAX + 1)
  }

  function MetricsLines(m: Counters, users: nat): (lines: seq<string>)
    ensures |lines| == 7
  {
    ["active_connections " + Print(m.active),
     "historical_connections " + Print(m.historical),
     "max_active_connections " + Print(m.maxActive),
     "bytes_client_to_origin " + Print(m.toOrigin),
     "bytes_origin_to_client " + Print(m.toClient),
     "total_bytes " + Print(TotalBytes(m)),
     "users_count " + Print(users)]
  }

  function UserNames(users: seq<Entry<char>>): (names: seq<string>)
    ensures |names| == |users| && forall i :: 0 <= i < |users| ==> names[i] == users[i].name
  {
    seq(|users|, i requires 0 <= i < |users| => users[i].name)
  }

  function ConfigLines(c: Config): (lines: seq<string>) {
    ["conn_timeout " + Print(c.connTimeout), "io_buffer_size " + Print(c.ioBufferSize), "max_connections " + Print(c.maxConnections)]
  }

  const HELP_LINES: seq<string> :=
    ["AUTH <user> <pass>", "METRICS", "LIST-USERS", "ADD-USER <user> <pass>", "DEL-USER <user>",
     "GET-CONFIG", "SET <key> <value>", "LOG [n]", "PASSWD <newpass>", "QUIT"]

  datatype Key = ConnTimeout | IoBufferSize | MaxConnections | NoKey

  function KeyOf(word: string): (k: Key) {
    var w := Lower(word);
    if w == "conn_timeout" then ConnTimeout
    else if w == "io_buffer_size" then IoBufferSize
    else if w == "max_connections" then MaxConnections
    else NoKey
  }

  /** The configuration with one parameter changed, if the value is in that parameter's range. */
  function Configured(c: Config, k: Key, v: nat): (r: Option<Config>)
    requires !k.NoKey?
  {
    match k
    case ConnTimeout => if 1 <= v <= 3600 then Some(c.(connTimeout := v)) else None
    case IoBufferSize => if 512 <= v <= 65536 then Some(c.(ioBufferSize := v)) else None
    case MaxConnections => if 1 <= v <= c.hardLimit then Some(c.(maxConnections := v)) else None
  }

  /** admin_check: without a configured administrator nobody is one. */
  predicate AdminCheck(a: Admin, name: string, pass: string) {
    a.name != [] && a.name == name && a.pass == pass
  }

  /** The error replies that leave everything as it was. */
  function Refuse(d: Deps, auth: bool, why: string): (o: Outcome) {
    Outcome(d, auth, Line("-ERR " + why), false)
  }

  function Answer(d: Deps, auth: bool, r: Reply): (o: Outcome) {
    Outcome(d, auth, r, false)
  }

  function ExecuteAddUser(d: Deps, name: string, pass: string): (o: Outcome) {
    if Lookup(d.users, name) != None then Refuse(d, true, "user exists")
    else if |d.users| >= USERS_MAX then Refuse(d, true, "store full")
    else if 1 <= |name| <= USERS_NAME_MAX && 1 <= |pass| <= USERS_PASS_MAX then
      Answer(d.(users := d.users + [Entry(name, pass)]), true, Line("+OK user added"))
    else Refuse(d, true, "invalid")
  }

  function ExecuteSet(d: Deps, key: string, value: string): (o: Outcome) {
    var k := KeyOf(key);
    if k.NoKey? then Refuse(d, true, "unknown key")
    else
      match ParseU32(value)
      case None => Refuse(d, true, "invalid value")
      case Some(v) =>
        match Configured(d.config, k, v)
        case None => Refuse(d, true, "invalid value")
        case Some(c) => Answer(d.(config := c), true, Line("+OK " + key + " = " + Print(v)))
  }

  /** The newest lines of the access log, at most fifty. */
  function LogTail(log: seq<string>, n: nat): (lines: seq<string>)
    ensures |lines| <= LOG_MAX_LINES && lines <= log
  {
    var want := if n > LOG_MAX_LINES then LOG_MAX_LINES else n;
    if want <= |log| then log[..want] else log
  }

  function ExecuteLog(d: Deps, n: Option<nat>): (o: Outcome) {
    match n
    case None => Refuse(d, true, "invalid")
    case Some(k) => Answer(d, true, Listing(LogTail(d.log, k)))
  }

  /** A command used by someone who may, with the right number of words. */
  function Execute(v: Verb, words: seq<string>, d: Deps): (o: Outcome)
    requires words != [] && ArityOk(v, |words|) && !v.Unknown? && !v.Quit? && !v.Help? && !v.Auth?
  {
    match v
    case Metrics => Answer(d, true, Listing(MetricsLines(d.metrics, |d.users|)))
    case ListUsers => Answer(d, true, Listing(UserNames(d.users)))
    case AddUser => ExecuteAddUser(d, words[1], words[2])
    case DelUser =>
      if Lookup(d.users, words[1]) == None then Refuse(d, true, "no such user")
      else Answer(d.(users := Forget(d.users, words[1])), true, Line("+OK user removed"))
    case GetConfig => Answer(d, true, Listing(ConfigLines(d.config)))
    case Set => ExecuteSet(d, words[1], words[2])
    case Log => ExecuteLog(d, if |words| == 2 then ParseU32(words[1]) else Some(10))
    case Passwd =>
      if 1 <= |words[1]| < 256 then Answer(d.(admin := d.admin.(pass := words[1])), true, Line("+OK password changed"))
      else Refuse(d, true, "invalid")
  }

  /** What a line of these words answers and changes. */
  function Respond(d: Deps, auth: bool, words: seq<string>): (o: Outcome) {
    if words == [] then Refuse(d, auth, "unknown command")
    else
      var v := VerbOf(words[0]);
      if !auth && !Public(v) then Refuse(d, auth, "not authenticated")
      else if v.Unknown? then Refuse(d, auth, "unknown command")
      else if v.Auth? && auth then Refuse(d, auth, "already authenticated")
      else if !ArityOk(v, |words|) then Refuse(d, auth, "invalid")
      else if v.Quit? then Outcome(d, auth, Line("+OK bye"), true)
      else if v.Help? then Answer(d, auth, Listing(HELP_LINES))
      else if v.Auth? then
        if AdminCheck(d.admin, words[1], words[2]) then Answer(d, true, Line("+OK authenticated"))
        else Refuse(d, auth, "bad credentials")
      else Execute(v, words, d)
  }

  /** Whether these words, at this moment, turn a session into the administrator's. */
  predicate LogsIn(d: Deps, words: seq<string>) {
    |words| == 3 && VerbOf(words[0]) == Auth && AdminCheck(d.admin, words[1], words[2])
  }

  /** Authentication is the gate: nothing shared changes without it, and it is gained only by AUTH with the
  administrator's credentials and never lost. */
  lemma AuthGate(d: Deps, auth: bool, words: seq<string>)
    ensures var o := Respond(d, auth, words);
            && (o.deps != d ==> auth)
            && (o.auth <==> auth || LogsIn(d, words))
            && (o.quit <==> |words| == 1 && VerbOf(words[0]) == Quit)
            && o.deps.metrics == d.metrics && o.deps.log == d.log && o.deps.admin.name == d.admin.name
  {
    hide VerbOf, ParseU32, KeyOf, Lookup, Forget, Listing;
  }

  /** Five words are enough: no command takes more, so the rest cannot matter. */
  lemma FiveWords(d: Deps, auth: bool, words: seq<string>)
    requires |words| > 5
    ensures Respond(d, auth, words) == Respond(d, auth, words[..5])
  {
    hide VerbOf, Execute;
  }

  // ------------------------------------------------------- what a command means for later ones

  /** ADD-USER succeeds exactly for a new name that fits while there is room; it then opens the proxy to that
  name with that password and changes nothing for any other, and DEL-USER takes it back exactly. */
  lemma AddThenDelete(d: Deps, name: string, pass: string, other: string, words: seq<string>)
    requires ValidUsers(d.users) && |words| == 2 && words[1] == name
    ensures var o := ExecuteAddUser(d, name, pass);
            && (o.reply == Line("+OK user added") <==> Storable(Entry(name, pass)) && |d.users| < USERS_MAX && Lookup(d.users, name) == None)
            && (o.reply != Line("+OK user added") ==> o.deps == d)
            && (o.reply == Line("+OK user added") ==>
                  && Accepts(o.deps.users, name, pass)
                  && (other != name ==> Lookup(o.deps.users, other) == Lookup(d.users, other))
                  && Execute(DelUser, words, o.deps) == Outcome(d, true, Line("+OK user removed"), false))
  {
    hide Lookup, Forget;
    assert "+OK user added"[0] == '+' && ("-ERR " + "user exists")[0] == '-' && ("-ERR " + "store full")[0] == '-' && ("-ERR " + "invalid")[0] == '-';
    if Lookup(d.users, name) == None {
      var e := Entry(name, pass);
      LookupAdd(d.users, e, name);
      LookupAdd(d.users, e, other);
      forall i | 0 <= i < |d.users|
        ensures d.users[i].name != name
      {
        LookupAt(d.users, i);
      }
      var all := d.users + [e];
      ForgetAt(all, |d.users|);
      assert all[..|d.users|] + all[|d.users| + 1..] == d.users;
    }
  }

  /** DEL-USER succeeds exactly for a name in the store, forgets it and no other. */
  lemma DeleteForgets(d: Deps, name: string, other: string, words: seq<string>)
    requires ValidUsers(d.users) && |words| == 2 && words[1] == name
    ensures var o := Execute(DelUser, words, d);
            && (o.reply == Line("+OK user removed") <==> Lookup(d.users, name) != None)
            && Lookup(o.deps.users, other) == (if other == name then None else Lookup(d.users, other))
            && o.deps == d.(users := o.deps.users)
  {
    hide Lookup, Forget;
    assert "+OK user removed"[0] == '+' && ("-ERR " + "no such user")[0] == '-';
    if Lookup(d.users, name) != None {
      var k := LookupSome(d.users, name);
      ForgetAt(d.users, k);
      LookupDelete(d.users, k, other);
    }
  }

  /** PASSWD moves the gate: from then on AUTH succeeds with the new password and with no other. */
  lemma PasswdThenAuth(d: Deps, words: seq<string>, login: seq<string>)
    requires |words| == 2 && 1 <= |words[1]| < 256 && |login| == 3 && VerbOf(login[0]) == Auth
    ensures LogsIn(Execute(Passwd, words, d).deps, login) <==> d.admin.name != [] && login[1] == d.admin.name && login[2] == words[1]
  {
    hide VerbOf;
  }

  // ------------------------------------------------- replies are well framed and always fit

  /** Small enough for the line buffer of out_printf and for the output buffer. */
  ghost predicate Sized(r: Reply) {
    && |r.status| + 1 < PRINTF_MAX && |Render(r)| <= OUTPUT_SIZE
    && forall i :: 0 <= i < |r.data| ==> |r.data[i]| + 1 < PRINTF_MAX
  }

  /** And well framed. */
  ghost predicate Fits(r: Reply)
    ensures Fits(r) ==> Sized(r) && WellFramed(r)
  {
    WellFramed(r) && Sized(r)
  }

  lemma ErrorFits(why: string)
    requires NoLf(why) && |why| <= 100
    ensures Fits(Line("-ERR " + why))
  {
    var status := "-ERR " + why;
    assert status[0] == '-' && status[..4][0] == '-';
  }

  lemma StatusFits(status: string)
    requires NoLf(status) && 4 < |status| <= 100 && !IsDigit(status[4])
    ensures Fits(Line(status))
  {
    assert status[4..][0] == status[4];
  }

  lemma ListingSized(data: seq<string>, most: nat)
    requires |data| <= 100 && most < PRINTF_MAX && |data| * most <= LOG_MAX_LINES * LOG_LINE_MAX
    requires forall i :: 0 <= i < |data| ==> |data[i]| < most
    ensures Sized(Listing(data))
  {
    BodySize(data, most);
    PrintLength64(|data|);
  }

  lemma ListingFits(data: seq<string>, most: nat)
    requires |data| <= 100 && most < PRINTF_MAX && |data| * most <= LOG_MAX_LINES * LOG_LINE_MAX
    requires forall i :: 0 <= i < |data| ==> NoLf(data[i]) && |data[i]| < most
    ensures Fits(Listing(data))
  {
    hide Sized, WellFramed, Listing;
    ListingAnnounces(data);
    ListingSized(data, most);
  }

  lemma MetricsFit(m: Counters, users: nat)
    requires ValidMetrics(m) && users <= USERS_MAX
    ensures Fits(Listing(MetricsLines(m, users)))
  {
    hide Fits, Print;
    PrintLength64(m.active);
    PrintLength64(m.historical);
    PrintLength64(m.maxActive);
    PrintLength64(m.toOrigin);
    PrintLength64(m.toClient);
    PrintLength64(TotalBytes(m));
    PrintLength64(users);
    DigitsNoLf(m.active);
    DigitsNoLf(m.historical);
    DigitsNoLf(m.maxActive);
    DigitsNoLf(m.toOrigin);
    DigitsNoLf(m.toClient);
    DigitsNoLf(TotalBytes(m));
    DigitsNoLf(users);
    ListingFits(MetricsLines(m, users), 50);
  }

  lemma DigitsNoLf(n: nat)
    ensures NoLf(Print(n))
  {
    var s := Print(n);
    assert forall i :: 0 <= i < |s| ==> IsDigit(s[i]);
  }

  lemma ConfigFit(c: Config)
    requires ValidConfig(c)
    ensures Fits(Listing(ConfigLines(c)))
  {
    hide Fits, Print;
    PrintLength64(c.connTimeout);
    PrintLength64(c.ioBufferSize);
    PrintLength64(c.maxConnections);
    DigitsNoLf(c.connTimeout);
    DigitsNoLf(c.ioBufferSize);
    DigitsNoLf(c.maxConnections);
    ListingFits(ConfigLines(c), 50);
  }

  lemma HelpFits()
    ensures Fits(Listing(HELP_LINES))
  {
    hide Fits;
    ListingFits(HELP_LINES, 30);
  }

  /** The list of users always fits; it is well framed exactly when no name has an LF. */
  lemma UsersFit(users: seq<Entry<char>>)
    requires ValidUsers(users)
    ensures |users| <= USERS_MAX && Sized(Listing(UserNames(users)))
    ensures WellFramed(Listing(UserNames(users))) <==> CleanNames(users)
  {
    hide Sized, Announced, Print;
    var names := UserNames(users);
    ListingSized(names, USERS_NAME_MAX + 1);
    if CleanNames(users) {
      ListingAnnounces(names);
    } else {
      var i :| 0 <= i < |users| && !NoLf(users[i].name);
      assert !NoLf(Listing(names).data[i]);
    }
  }

  /** Any case variant of a parameter's name is short and does not start with a digit. */
  lemma KeyShape(key: string)
    requires !KeyOf(key).NoKey?
    ensures 0 < |key| <= 15 && !IsDigit(key[0])
  {
    var w := Lower(key);
    assert w[0] == LowerChar(key[0]);
    assert w[0] == 'c' || w[0] == 'i' || w[0] == 'm';
  }

  lemma SetFits(key: string, v: nat)
    requires !KeyOf(key).NoKey? && NoLf(key) && v <= U32_MAX
    ensures Fits(Line("+OK " + key + " = " + Print(v)))
  {
    hide Fits, KeyOf, Print;
    KeyShape(key);
    PrintLength64(v);
    DigitsNoLf(v);
    var status := "+OK " + key + " = " + Print(v);
    assert status[4] == key[0];
    StatusFits(status);
  }

  /** The shared state stays valid, the reply fits, and it is well framed exactly if `framed`. */
  ghost predicate Kept(o: Outcome, framed: bool) {
    ValidDeps(o.deps) && Sized(o.reply) && (WellFramed(o.reply) <==> framed)
  }

  ghost predicate Good(o: Outcome)
    ensures Good(o) ==> Kept(o, true)
  {
    ValidDeps(o.deps) && Fits(o.reply)
  }

  lemma AddUserGood(d: Deps, name: string, pass: string)
    requires ValidDeps(d)
    ensures Good(ExecuteAddUser(d, name, pass))
  {
    hide Fits, Sized, WellFramed, Lookup;
    ErrorFits("user exists");
    ErrorFits("store full");
    ErrorFits("invalid");
    StatusFits("+OK user added");
    if Lookup(d.users, name) == None {
      forall i | 0 <= i < |d.users|
        ensures d.users[i].name != name
      {
        LookupAt(d.users, i);
      }
    }
  }

  lemma DelUserGood(d: Deps, name: string)
    requires ValidDeps(d) && Lookup(d.users, name) != None
    ensures ValidUsers(Forget(d.users, name))
  {
    hide Fits, Lookup, Forget;
    var k := LookupSome(d.users, name);
    ForgetAt(d.users, k);
    UniqueDelete(d.users, k);
  }

  lemma SetGood(d: Deps, key: string, value: string)
    requires ValidDeps(d) && NoLf(key)
    ensures Good(ExecuteSet(d, key, value))
  {
    hide Fits, KeyOf, StrToUl;
    ErrorFits("unknown key");
    ErrorFits("invalid value");
    if !KeyOf(key).NoKey? && ParseU32(value).Some? {
      SetFits(key, ParseU32(value).value);
    }
  }

  lemma LogGood(d: Deps, n: Option<nat>)
    requires ValidDeps(d)
    ensures Good(ExecuteLog(d, n))
  {
    hide Fits;
    ErrorFits("invalid");
    if n.Some? {
      ListingFits(LogTail(d.log, n.value), LOG_LINE_MAX);
    }
  }

  lemma ExecuteGood(v: Verb, words: seq<string>, d: Deps)
    requires words != [] && ArityOk(v, |words|) && !v.Unknown? && !v.Quit? && !v.Help? && !v.Auth?
    requires ValidDeps(d) && forall i :: 0 <= i < |words| ==> NoLf(words[i])
    ensures Kept(Execute(v, words, d), v.ListUsers? ==> CleanNames(d.users))
  {
    hide Fits, Sized, WellFramed, Lookup, Forget, ValidUsers, CleanNames, NoLf, ExecuteAddUser, ExecuteSet, ExecuteLog, Listing;
    match v {
      case Metrics =>
        UsersFit(d.users);
        MetricsFit(d.metrics, |d.users|);
      case ListUsers => UsersFit(d.users);
      case AddUser => AddUserGood(d, words[1], words[2]);
      case DelUser =>
        ErrorFits("no such user");
        StatusFits("+OK user removed");
        if Lookup(d.users, words[1]) != None {
          DelUserGood(d, words[1]);
        }
      case GetConfig => ConfigFit(d.config);
      case Set => SetGood(d, words[1], words[2]);
      case Log => LogGood(d, if |words| == 2 then ParseU32(words[1]) else Some(10));
      case Passwd =>
        ErrorFits("invalid");
        StatusFits("+OK password changed");
    }
  }

  /** These words list the users. */
  predicate ListsUsers(auth: bool, words: seq<string>) {
    auth && |words| == 1 && VerbOf(words[0]).ListUsers?
  }

  /** Whatever the line: the shared state stays valid, and the reply fits the buffers; it is well framed exactly
  unless it lists users one of whose names has an LF. */
  lemma RespondGood(d: Deps, auth: bool, words: seq<string>)
    requires ValidDeps(d) && forall i :: 0 <= i < |words| ==> NoLf(words[i])
    ensures Kept(Respond(d, auth, words), ListsUsers(auth, words) ==> CleanNames(d.users))
  {
    hide VerbOf, ValidDeps, Fits, Sized, WellFramed, Execute, NoLf, Listing, CleanNames;
    ErrorFits("unknown command");
    ErrorFits("not authenticated");
    ErrorFits("already authenticated");
    ErrorFits("bad credentials");
    ErrorFits("invalid");
    StatusFits("+OK bye");
    StatusFits("+OK authenticated");
    HelpFits();
    if words != [] {
      var v := VerbOf(words[0]);
      if auth && !Public(v) && !v.Unknown? && ArityOk(v, |words|) {
        ExecuteGood(v, words, d);
      }
    }
  }

  /** No command brings an LF into a name. */
  lemma RespondKeepsNames(d: Deps, auth: bool, words: seq<string>)
    requires ValidDeps(d) && CleanNames(d.users) && forall i :: 0 <= i < |words| ==> NoLf(words[i])
    ensures CleanNames(Respond(d, auth, words).deps.users)
  {
    hide VerbOf, ParseU32, KeyOf, Lookup, Forget, Listing, NoLf;
    if words != [] && VerbOf(words[0]).DelUser? && |words| == 2 && Lookup(d.users, words[1]) != None {
      var k := LookupSome(d.users, words[1]);
      ForgetAt(d.users, k);
    }
  }

  /** A user given at start-up under a name with an LF: the one announced line comes out as two. */
  lemma LfNameBreaksFraming(d: Deps)
    requires d.users == [Entry("a\nb", "p")]
    ensures var text := Render(Execute(ListUsers, ["LIST-USERS"], d).reply);
            ReadReply(text) == Some((Reply("+OK 1", ["a"]), "b\n"))
  {
    hide TakeLines, Announced, ReadReply;
    var r := Listing(UserNames(d.users));
    assert UserNames(d.users) == ["a\nb"];
    assert Print(1) == "1";
    assert r.data[..0] == [] && Body(r.data) == [] + "a\nb" + "\n";
    var rest := "a" + "\n" + "b\n";
    assert Body(r.data) == rest;
    assert Render(r) == "+OK 1" + "\n" + rest;
    OneAnnounced();
    OneTaken("a", "b\n");
    StatusThen("+OK 1", rest);
  }

  lemma OneTaken(line: string, tail: string)
    requires NoLf(line)
    ensures TakeLines(line + "\n" + tail, 1) == Some(([line], tail))
  {
    FirstLine(line, tail);
    assert TakeLines(tail, 0) == Some(([], tail));
    assert [line] + [] == [line];
  }

  /** How a reply is read once its status line has been. */
  lemma StatusThen(status: string, rest: string)
    requires NoLf(status) && TakeLines(rest, Announced(status)).Some?
    ensures var (lines, tail) := TakeLines(rest, Announced(status)).value;
            ReadReply(status + "\n" + rest) == Some((Reply(status, lines), tail))
  {
    hide Announced, TakeLines;
    FirstLine(status, rest);
  }

  lemma OneAnnounced()
    ensures Announced("+OK 1") == 1
  {
    var data := ["x"];
    ListingAnnounces(data);
    assert Print(1) == "1";
    assert Listing(data).status == "+OK 1";
  }

  // ---------------------------------------------------------------------- the implementation

  /** out_printf, for a formatted text: cut to its line buffer, then to the room left. */
  method OutPrintf(out: Buffer<char>, s: string)
    requires out.Valid()
    modifies out, out.data
    ensures out.Valid() && out.contents == old(out.contents) + Clip(Clip(s, PRINTF_MAX - 1), old(out.Room()))
    ensures out.Room() == old(out.Room()) - |Clip(Clip(s, PRINTF_MAX - 1), old(out.Room()))|
  {
    out.Fill(Clip(Clip(s, PRINTF_MAX - 1), out.Room()));
  }

  /** The calls of out_printf that make up a reply: the status line, then the data lines. */
  method Emit(out: Buffer<char>, r: Reply)
    requires out.Valid() && |r.status| + 1 < PRINTF_MAX && forall i :: 0 <= i < |r.data| ==> |r.data[i]| + 1 < PRINTF_MAX
    modifies out, out.data
    ensures out.Valid() && out.contents == old(out.contents) + Clip(Render(r), old(out.Room()))
  {
    hide Clip;
    ghost var before, room := out.contents, out.Room();
    ghost var done := r.status + "\n";
    OutPrintf(out, r.status + "\n");
    ClipWhole(done);
    assert r.data[..0] == [] && done + [] == done;
    for i := 0 to |r.data|
      invariant out.Valid() && done == r.status + "\n" + Body(r.data[..i])
      invariant out.contents == before + Clip(done, room) && out.Room() == room - |Clip(done, room)|
    {
      OutPrintf(out, r.data[i] + "\n");
      ClipWhole(r.data[i] + "\n");
      ClipAppend(done, r.data[i] + "\n", room);
      BodySnoc(r.data, i);
      done := done + (r.data[i] + "\n");
    }
    assert r.data[..|r.data|] == r.data;
  }

  lemma ClipWhole(s: string)
    requires |s| < PRINTF_MAX
    ensures Clip(s, PRINTF_MAX - 1) == s
  {}

  lemma BodySnoc(data: seq<string>, i: nat)
    requires i < |data|
    ensures Body(data[..i + 1]) == Body(data[..i]) + (data[i] + "\n")
  {
    assert data[..i + 1][..i] == data[..i];
    assert Body(data[..i + 1]) == Body(data[..i]) + data[i] + "\n";
  }
}
