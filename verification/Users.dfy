/** The proxy's user store (src/server/users.c), generic in the character type: the SOCKS5 side compares
bytes, the management side characters. Names and passwords are the C strings, without their NUL. */
module Users {
  import opened Sequences

  const USERS_MAX := 100
  const USERS_NAME_MAX := 255
  const USERS_PASS_MAX := 255

  datatype Entry<T> = Entry(name: seq<T>, pass: seq<T>)

  /** The password stored for a name. */
  function Lookup<T(==)>(s: seq<Entry<T>>, name: seq<T>): (p: Option<seq<T>>) {
    if s == [] then None
    else if s[0].name == name then Some(s[0].pass)
    else Lookup(s[1..], name)
  }

  /** Whether these credentials open the proxy. Empty ones never do. */
  predicate Accepts<T(==)>(s: seq<Entry<T>>, user: seq<T>, pass: seq<T>) {
    user != [] && pass != [] && Lookup(s, user) == Some(pass)
  }

  ghost predicate UniqueNames<T>(s: seq<Entry<T>>) {
    forall i, j :: 0 <= i < j < |s| ==> s[i].name != s[j].name
  }

  ghost predicate Storable<T>(e: Entry<T>) {
    1 <= |e.name| <= USERS_NAME_MAX && 1 <= |e.pass| <= USERS_PASS_MAX
  }

  lemma {:induction false} LookupAt<T>(s: seq<Entry<T>>, k: nat)
    requires k < |s| && UniqueNames(s)
    ensures Lookup(s, s[k].name) == Some(s[k].pass)
  {
    if k > 0 {
      LookupAt(s[1..], k - 1);
    }
  }

  lemma {:induction false} LookupAbsent<T>(s: seq<Entry<T>>, name: seq<T>)
    requires forall i :: 0 <= i < |s| ==> s[i].name != name
    ensures Lookup(s, name) == None
  {
    if s != [] {
      LookupAbsent(s[1..], name);
    }
  }

  /** What is looked up is there. */
  lemma {:induction false} LookupIn<T>(s: seq<Entry<T>>, name: seq<T>)
    ensures Lookup(s, name).Some? ==> Entry(name, Lookup(s, name).value) in s
    decreases |s|
  {
    if s != [] && s[0].name != name {
      LookupIn(s[1..], name);
    }
  }

  /** Credentials open the proxy only if they are an entry of the store. */
  lemma AcceptedIsStored<T>(s: seq<Entry<T>>, user: seq<T>, pass: seq<T>)
    ensures Accepts(s, user, pass) ==> Entry(user, pass) in s
  {
    LookupIn(s, user);
  }

  /** And in a store as the program keeps it, exactly then. */
  lemma AcceptsIff<T>(s: seq<Entry<T>>, user: seq<T>, pass: seq<T>)
    requires UniqueNames(s) && forall i :: 0 <= i < |s| ==> Storable(s[i])
    ensures Accepts(s, user, pass) <==> Entry(user, pass) in s
  {
    AcceptedIsStored(s, user, pass);
    if Entry(user, pass) in s {
      var k :| 0 <= k < |s| && s[k] == Entry(user, pass);
      LookupAt(s, k);
    }
  }

  /** Adding a new name changes the answer for that name only. */
  lemma {:induction false} LookupAdd<T>(s: seq<Entry<T>>, e: Entry<T>, name: seq<T>)
    requires Lookup(s, e.name) == None
    ensures Lookup(s + [e], name) == if name == e.name then Some(e.pass) else Lookup(s, name)
  {
    if s == [] {
      assert s + [e] == [e];
    } else {
      assert (s + [e])[1..] == s[1..] + [e];
      LookupAdd(s[1..], e, name);
    }
  }

  /** Deleting an entry forgets its name and no other. */
  lemma {:induction false} LookupDelete<T>(s: seq<Entry<T>>, k: nat, name: seq<T>)
    requires k < |s| && UniqueNames(s)
    ensures Lookup(s[..k] + s[k + 1..], name) == if name == s[k].name then None else Lookup(s, name)
  {
    var r := s[..k] + s[k + 1..];
    if k == 0 {
      assert r == s[1..];
      if name == s[0].name {
        LookupAbsent(r, name);
      }
    } else {
      assert r[1..] == s[1..][..k - 1] + s[1..][k..];
      LookupDelete(s[1..], k - 1, name);
    }
  }

  /** The store without the entry of that name. */
  function Forget<T(==)>(s: seq<Entry<T>>, name: seq<T>): (r: seq<Entry<T>>) {
    if s == [] then []
    else if s[0].name == name then s[1..]
    else [s[0]] + Forget(s[1..], name)
  }

  lemma {:induction false} ForgetAt<T>(s: seq<Entry<T>>, k: nat)
    requires k < |s| && UniqueNames(s)
    ensures Forget(s, s[k].name) == s[..k] + s[k + 1..]
  {
    if k > 0 {
      ForgetAt(s[1..], k - 1);
      assert s[1..][..k - 1] == s[..k][1..];
    }
  }

  lemma {:induction false} LookupSome<T>(s: seq<Entry<T>>, name: seq<T>) returns (k: nat)
    requires Lookup(s, name) != None
    ensures k < |s| && s[k].name == name
  {
    if s[0].name == name {
      k := 0;
    } else {
      k := LookupSome(s[1..], name);
      k := k + 1;
    }
  }

  lemma UniqueDelete<T>(s: seq<Entry<T>>, k: nat)
    requires k < |s| && UniqueNames(s) && forall i :: 0 <= i < |s| ==> Storable(s[i])
    ensures var r := s[..k] + s[k + 1..]; UniqueNames(r) && forall i :: 0 <= i < |r| ==> Storable(r[i])
  {
    var r := s[..k] + s[k + 1..];
    assert forall i :: 0 <= i < |r| ==> r[i] == s[if i < k then i else i + 1];
  }

  class UserStore<T(==, 0)> {
    const entries: array<Entry<T>>
    var count: nat

    ghost predicate Valid()
      reads this, entries
    {
      && entries.Length == USERS_MAX && count <= USERS_MAX
      && UniqueNames(entries[..count])
      && forall i :: 0 <= i < count ==> Storable(entries[i])
    }

    function Contents(): (s: seq<Entry<T>>)
      requires count <= entries.Length
      reads this, entries
    {
      entries[..count]
    }

    constructor ()
      ensures Valid() && Contents() == [] && fresh(entries)
    {
      entries := new Entry<T>[USERS_MAX](_ => Entry([], []));
      count := 0;
    }

    /** users_find. */
    method Find(name: seq<T>) returns (k: int)
      requires Valid()
      ensures -1 <= k < count
      ensures k >= 0 ==> entries[k].name == name
      ensures k == -1 <==> Lookup(Contents(), name) == None
    {
      k := 0;
      while k < count
        invariant 0 <= k <= count
        invariant forall i :: 0 <= i < k ==> entries[i].name != name
      {
        if entries[k].name == name {
          LookupAt(Contents(), k);
          return;
        }
        k := k + 1;
      }
      k := -1;
      LookupAbsent(Contents(), name);
    }

    /** users_add: refused, with the store unchanged, unless the strings fit, there is room and the name is new. */
    method Add(name: seq<T>, pass: seq<T>) returns (ok: bool)
      requires Valid()
      modifies this, entries
      ensures Valid()
      ensures ok == (Storable(Entry(name, pass)) && old(count) < USERS_MAX && Lookup(old(Contents()), name) == None)
      ensures Contents() == if ok then old(Contents()) + [Entry(name, pass)] else old(Contents())
      ensures forall n :: Lookup(Contents(), n) == if ok && n == name then Some(pass) else Lookup(old(Contents()), n)
    {
      if |name| == 0 || |pass| == 0 || |name| > USERS_NAME_MAX || |pass| > USERS_PASS_MAX {
        return false;
      }
      if count >= USERS_MAX {
        return false;
      }
      var k := Find(name);
      if k >= 0 {
        return false;
      }
      ghost var before := Contents();
      forall i | 0 <= i < count
        ensures entries[i].name != name
      {
        LookupAt(Contents(), i);
      }
      entries[count] := Entry(name, pass);
      count := count + 1;
      ok := true;
      assert Contents() == before + [Entry(name, pass)];
      forall n {
        LookupAdd(before, Entry(name, pass), n);
      }
    }

    /** users_del: the later entries move down one place, so the order of arrival is kept. */
    method Delete(name: seq<T>) returns (ok: bool)
      requires Valid()
      modifies this, entries
      ensures Valid()
      ensures ok == (Lookup(old(Contents()), name) != None)
      ensures Contents() == if ok then Forget(old(Contents()), name) else old(Contents())
      ensures forall n :: Lookup(Contents(), n) == if n == name then None else Lookup(old(Contents()), n)
    {
      var k := Find(name);
      if k < 0 {
        return false;
      }
      ghost var before := Contents();
      ghost var after := before[..k] + before[k + 1..];
      UniqueDelete(before, k);
      ForgetAt(before, k);
      forall n {
        LookupDelete(before, k, n);
      }
      ShiftDown(k);
      ok := true;
      assert Contents() == after;
    }

    /** The loop of users_del. */
    method ShiftDown(k: nat)
      requires k < count <= entries.Length
      modifies this, entries
      ensures count == old(count) - 1
      ensures Contents() == old(Contents())[..k] + old(Contents())[k + 1..]
    {
      ghost var before := Contents();
      var i := k;
      while i + 1 < count
        invariant k <= i < count == old(count)
        invariant forall j :: 0 <= j < k ==> entries[j] == before[j]
        invariant forall j :: k <= j < i ==> entries[j] == before[j + 1]
        invariant forall j :: i <= j < count ==> entries[j] == before[j]
      {
        entries[i] := entries[i + 1];
        i := i + 1;
      }
      count := count - 1;
    }

    /** users_validate: the first entry with that name decides, and names are unique. */
    method Validate(user: seq<T>, pass: seq<T>) returns (ok: bool)
      requires Valid()
      ensures ok == Accepts(Contents(), user, pass)
      ensures ok <==> Entry(user, pass) in Contents()
    {
      AcceptsIff(Contents(), user, pass);
      if |user| == 0 || |pass| == 0 {
        return false;
      }
      var i := 0;
      while i < count
        invariant 0 <= i <= count
        invariant forall j :: 0 <= j < i ==> entries[j].name != user
      {
        if entries[i].name == user {
          LookupAt(Contents(), i);
          return entries[i].pass == pass;
        }
        i := i + 1;
      }
      LookupAbsent(Contents(), user);
      ok := false;
    }
  }
}
