/** mgmt_handle_line and the commands it calls (src/server/mgmt.c:135-334), proved to do what `Respond` says. */
module MgmtHandler {
  import opened Sequences
  import opened Buffers
  import opened Decimal
  import opened Users
  import opened MgmtLine
  import opened MgmtReplies
  import opened MgmtCommands

  /** The state all sessions share (struct mgmt_deps): the proxy's own user store, and the rest. */
  class Shared {
    const users: UserStore<char>
    var admin: Admin
    var config: Config
    var metrics: Counters
    var log: seq<string>
    ghost var d: Deps

    ghost predicate Valid()
      reads this, users, users.entries
      ensures Valid() ==> ValidDeps(d) && d.admin == admin
    {
      users.Valid() && d == Deps(users.Contents(), admin, config, metrics, log) && ValidDeps(d)
    }

    constructor (d0: Deps)
      requires ValidDeps(d0)
      ensures Valid() && d == d0 && fresh(users) && fresh(users.entries)
    {
      users := new UserStore<char>();
      new;
      Become(d0);
    }

    /** Whatever other sessions and the proxy have made of it meanwhile. */
    method Become(d0: Deps)
      requires users.entries.Length == USERS_MAX && ValidDeps(d0)
      modifies this, users, users.entries
      ensures Valid() && d == d0
    {
      for i := 0 to |d0.users|
        invariant users.entries[..i] == d0.users[..i]
      {
        users.entries[i] := d0.users[i];
      }
      users.count := |d0.users|;
      admin, config, metrics, log, d := d0.admin, d0.config, d0.metrics, d0.log, d0;
      assert users.Contents() == d0.users;
    }
  }

  /** `out` after a reply, given what it held and the room it had. */
  ghost predicate Wrote(out: Buffer<char>, before: string, room: int, r: Reply)
    requires room >= 0
    reads out, out.data
  {
    out.Valid() && out.contents == before + Clip(Render(r), room)
  }

  class Session {
    const shared: Shared
    var authenticated: bool

    constructor (s: Shared)
      ensures shared == s && !authenticated
    {
      shared := s;
      authenticated := false;
    }

    /** A one-line reply. */
    method Say(out: Buffer<char>, status: string)
      requires out.Valid() && |status| + 1 < PRINTF_MAX
      modifies out, out.data
      ensures Wrote(out, old(out.contents), old(out.Room()), Line(status))
    {
      Emit(out, Line(status));
    }

    method Deny(out: Buffer<char>, why: string)
      requires out.Valid() && |why| + 6 < PRINTF_MAX
      modifies out, out.data
      ensures Wrote(out, old(out.contents), old(out.Room()), Line("-ERR " + why))
    {
      Emit(out, Line("-ERR " + why));
    }

    /** cmd_add_user, over the store's array. */
    method CmdAddUser(words: seq<string>, out: Buffer<char>)
      requires out.Valid() && shared.Valid() && 1 <= |words| <= 5
      modifies shared, shared.users, shared.users.entries, out, out.data
      ensures var o := if |words| == 3 then ExecuteAddUser(old(shared.d), words[1], words[2]) else Refuse(old(shared.d), true, "invalid");
              shared.Valid() && shared.d == o.deps && Wrote(out, old(out.contents), old(out.Room()), o.reply)
    {
      hide ExecuteAddUser, Wrote, ValidDeps, Shared.Valid;
      if |words| == 3 {
        StoreUser(words[1], words[2], out);
      } else {
        Deny(out, "invalid");
      }
    }

    method StoreUser(name: string, pass: string, out: Buffer<char>)
      requires out.Valid() && shared.Valid()
      modifies shared, shared.users, shared.users.entries, out, out.data
      ensures var o := ExecuteAddUser(old(shared.d), name, pass);
              shared.Valid() && shared.d == o.deps && Wrote(out, old(out.contents), old(out.Room()), o.reply)
    {
      hide Lookup, Wrote, ValidDeps, Fits;
      AddUserValid(shared.d, name, pass);
      var k := shared.users.Find(name);
      if k >= 0 {
        Deny(out, "user exists");
      } else if shared.users.count >= USERS_MAX {
        Deny(out, "store full");
      } else {
        var ok := shared.users.Add(name, pass);
        shared.d := shared.d.(users := shared.users.Contents());
        if ok {
          Say(out, "+OK user added");
        } else {
          Deny(out, "invalid");
        }
      }
    }

    /** cmd_del_user, over the store's array. */
    method CmdDelUser(words: seq<string>, out: Buffer<char>)
      requires out.Valid() && shared.Valid() && 1 <= |words| <= 5
      modifies shared, shared.users, shared.users.entries, out, out.data
      ensures var o := if |words| == 2 then Execute(DelUser, words, old(shared.d)) else Refuse(old(shared.d), true, "invalid");
              shared.Valid() && shared.d == o.deps && Wrote(out, old(out.contents), old(out.Room()), o.reply)
    {
      hide Lookup, Forget, Wrote, ValidUsers;
      if |words| != 2 {
        Deny(out, "invalid");
        return;
      }
      DelUserValid(shared.d, words[1]);
      var ok := shared.users.Delete(words[1]);
      shared.d := shared.d.(users := shared.users.Contents());
      if ok {
        Say(out, "+OK user removed");
      } else {
        Deny(out, "no such user");
      }
    }

    method CmdSet(words: seq<string>, out: Buffer<char>)
      requires out.Valid() && shared.Valid() && 1 <= |words| <= 5 && forall i :: 0 <= i < |words| ==> NoLf(words[i])
      modifies shared, shared.users, shared.users.entries, out, out.data
      ensures var o := if |words| == 3 then ExecuteSet(old(shared.d), words[1], words[2]) else Refuse(old(shared.d), true, "invalid");
              shared.Valid() && shared.d == o.deps && Wrote(out, old(out.contents), old(out.Room()), o.reply)
    {
      hide KeyOf, StrToUl, Wrote, Print;
      if |words| != 3 {
        Deny(out, "invalid");
        return;
      }
      var key := KeyOf(words[1]);
      if key.NoKey? {
        Deny(out, "unknown key");
        return;
      }
      var v := ParseU32(words[2]);
      if v.None? {
        Deny(out, "invalid value");
        return;
      }
      var c := Configured(shared.config, key, v.value);
      if c.Some? {
        SetGood(shared.d, words[1], words[2]);
        shared.config := c.value;
        shared.d := shared.d.(config := c.value);
        KeyShape(words[1]);
        PrintLength64(v.value);
        Say(out, "+OK " + words[1] + " = " + Print(v.value));
      } else {
        Deny(out, "invalid value");
      }
    }

    method CmdLog(words: seq<string>, out: Buffer<char>)
      requires out.Valid() && shared.Valid() && 1 <= |words| <= 5
      modifies out, out.data
      ensures var o := if |words| <= 2 then ExecuteLog(shared.d, if |words| == 2 then ParseU32(words[1]) else Some(10))
                       else Refuse(shared.d, true, "invalid");
              Wrote(out, old(out.contents), old(out.Room()), o.reply)
    {
      hide StrToUl;
      if |words| > 2 {
        Deny(out, "invalid");
        return;
      }
      var n := if |words| == 2 then ParseU32(words[1]) else Some(10);
      if n.None? {
        Deny(out, "invalid");
        return;
      }
      PrintLength64(|LogTail(shared.log, n.value)|);
      Emit(out, Listing(LogTail(shared.log, n.value)));
    }

    method CmdPasswd(words: seq<string>, out: Buffer<char>)
      requires out.Valid() && shared.Valid() && 1 <= |words| <= 5
      modifies shared, shared.users, shared.users.entries, out, out.data
      ensures var o := if |words| == 2 then Execute(Passwd, words, old(shared.d)) else Refuse(old(shared.d), true, "invalid");
              shared.Valid() && shared.d == o.deps && Wrote(out, old(out.contents), old(out.Room()), o.reply)
    {
      hide Wrote;
      if |words| != 2 {
        Deny(out, "invalid");
      } else if words[1] != [] && |words[1]| < 256 {
        shared.admin := shared.admin.(pass := words[1]);
        shared.d := shared.d.(admin := shared.admin);
        Say(out, "+OK password changed");
      } else {
        Deny(out, "invalid");
      }
    }

    /** The commands that only read the shared state. */
    method CmdShow(v: Verb, out: Buffer<char>)
      requires out.Valid() && shared.Valid() && (v.Metrics? || v.ListUsers? || v.GetConfig?)
      modifies out, out.data
      ensures Wrote(out, old(out.contents), old(out.Room()), Execute(v, [Name(v)], shared.d).reply)
    {
      hide Fits, Sized, Listing;
      var r :=
        if v.Metrics? then Listing(MetricsLines(shared.metrics, shared.users.count))
        else if v.ListUsers? then Listing(UserNames(shared.users.Contents()))
        else Listing(ConfigLines(shared.config));
      ExecuteGood(v, [Name(v)], shared.d);
      ReplyLines(r);
      Emit(out, r);
    }

    /** mgmt_handle_line, for an authenticated session and a command that needs it. */
    method DispatchPrivileged(words: seq<string>, out: Buffer<char>)
      requires out.Valid() && shared.Valid() && 1 <= |words| <= 5 && forall i :: 0 <= i < |words| ==> NoLf(words[i])
      requires authenticated && !Public(VerbOf(words[0]))
      modifies shared, shared.users, shared.users.entries, out, out.data
      ensures var o := Respond(old(shared.d), true, words);
              shared.Valid() && shared.d == o.deps && o.auth && !o.quit && Wrote(out, old(out.contents), old(out.Room()), o.reply)
    {
      hide Is, VerbOf, ExecuteAddUser, ExecuteSet, ValidDeps, Shared.Valid, Wrote, Lookup, Forget, Listing, NoLf;
      var cmd := words[0];
      ghost var v := VerbOf(cmd);
      VerbTests(cmd);
      AuthGate(shared.d, true, words);
      if |words| != 1 && (Is(cmd, Metrics) || Is(cmd, ListUsers) || Is(cmd, GetConfig)) {
        Deny(out, "invalid");
        return;
      }
      if Is(cmd, Metrics) {
        CmdShow(Metrics, out);
      } else if Is(cmd, ListUsers) {
        CmdShow(ListUsers, out);
      } else if Is(cmd, AddUser) {
        CmdAddUser(words, out);
      } else if Is(cmd, DelUser) {
        CmdDelUser(words, out);
      } else if Is(cmd, GetConfig) {
        CmdShow(GetConfig, out);
      } else if Is(cmd, Set) {
        CmdSet(words, out);
      } else if Is(cmd, Log) {
        CmdLog(words, out);
      } else if Is(cmd, Passwd) {
        CmdPasswd(words, out);
      } else {
        Deny(out, "unknown command");
      }
    }

    /** mgmt_handle_line, after the tokenizer. True when the session is to be closed. */
    method Dispatch(words: seq<string>, out: Buffer<char>) returns (quit: bool)
      requires out.Valid() && shared.Valid() && |words| <= 5 && forall i :: 0 <= i < |words| ==> NoLf(words[i])
      modifies this, shared, shared.users, shared.users.entries, out, out.data
      ensures var o := Respond(old(shared.d), old(authenticated), words);
              shared.Valid() && shared.d == o.deps && authenticated == o.auth && quit == o.quit
              && Wrote(out, old(out.contents), old(out.Room()), o.reply)
    {
      hide Is, VerbOf, Execute, ValidDeps, Shared.Valid, Wrote, Listing, Fits, NoLf;
      quit := false;
      if words == [] {
        Deny(out, "unknown command");
        return;
      }
      var cmd := words[0];
      ghost var v := VerbOf(cmd);
      VerbTests(cmd);
      if |words| != 1 && (Is(cmd, Quit) || Is(cmd, Help)) {
        Deny(out, "invalid");
        return;
      }
      if Is(cmd, Quit) {
        Say(out, "+OK bye");
        return true;
      }
      if Is(cmd, Help) {
        ShowHelp(out);
        return;
      }
      if Is(cmd, Auth) {
        if authenticated {
          Deny(out, "already authenticated");
        } else if |words| != 3 {
          Deny(out, "invalid");
        } else if AdminCheck(shared.admin, words[1], words[2]) {
          authenticated := true;
          Say(out, "+OK authenticated");
        } else {
          Deny(out, "bad credentials");
        }
        return;
      }
      if !authenticated {
        Deny(out, "not authenticated");
        return;
      }
      DispatchPrivileged(words, out);
    }

    method ShowHelp(out: Buffer<char>)
      requires out.Valid()
      modifies out, out.data
      ensures Wrote(out, old(out.contents), old(out.Room()), Listing(HELP_LINES))
    {
      hide Fits, Sized, Listing;
      HelpFits();
      ReplyLines(Listing(HELP_LINES));
      Emit(out, Listing(HELP_LINES));
    }

    /** mgmt_handle_line: the line is tokenized in place and obeyed. */
    method HandleLine(line: array<char>, ghost text: string, out: Buffer<char>) returns (quit: bool)
      requires out.Valid() && out.data != line && shared.Valid() && NoLf(text)
      requires |text| < line.Length && line[..|text|] == text && line[|text|] == '\0' && '\0' !in text
      modifies this, shared, shared.users, shared.users.entries, line, out, out.data
      ensures var o := Respond(old(shared.d), old(authenticated), Words(text));
              shared.Valid() && shared.d == o.deps && authenticated == o.auth && quit == o.quit
              && Wrote(out, old(out.contents), old(out.Room()), o.reply)
    {
      hide Respond, Words, ValidDeps, Shared.Valid, Wrote, NoLf, CString;
      var argv := Tokenize(line, 5, text);
      var all := line[..];
      var words := seq(|argv|, i requires 0 <= i < |argv| && argv[i] <= |all| => CString(all, argv[i]));
      WordsNoLf(text);
      assert words == FirstWords(text, 5);
      if |Words(text)| > 5 {
        FiveWords(shared.d, authenticated, Words(text));
      }
      quit := Dispatch(words, out);
    }
  }

  lemma AddUserValid(d: Deps, name: string, pass: string)
    requires ValidDeps(d)
    ensures ValidDeps(ExecuteAddUser(d, name, pass).deps)
  {
    hide ExecuteAddUser, ValidDeps;
    AddUserGood(d, name, pass);
  }

  lemma DelUserValid(d: Deps, name: string)
    requires ValidDeps(d)
    ensures Lookup(d.users, name) != None ==> ValidUsers(Forget(d.users, name))
  {
    if Lookup(d.users, name) != None {
      DelUserGood(d, name);
    }
  }

  /** The tests on the first word are the verb's. */
  lemma VerbTests(word: string)
    ensures forall v: Verb :: !v.Unknown? ==> (Is(word, v) <==> VerbOf(word) == v)
  {
    hide Name, Lower;
    forall v: Verb | !v.Unknown? && Is(word, v)
      ensures VerbOf(word) == v
    {
      VerbIs(word, v);
    }
  }

  lemma {:induction false} WordsNoLf(s: string)
    requires NoLf(s)
    ensures forall i :: 0 <= i < |Words(s)| ==> NoLf(Words(s)[i])
    decreases |s|
  {
    hide Words;
    WordsUnfold(s);
    var k := Spaces(s);
    if k < |s| {
      var n := WordEnd(s[k..]);
      WordEndSome(s[k..]);
      WordsNoLf(s[k..][n..]);
    }
  }

  lemma ReplyLines(r: Reply)
    requires Sized(r)
    ensures |r.status| + 1 < PRINTF_MAX && forall i :: 0 <= i < |r.data| ==> |r.data[i]| + 1 < PRINTF_MAX
  {}
}
