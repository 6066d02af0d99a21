/** The selector's item table and the sets it caches for pselect(2) (src/shared/selector.c). */
module Selector {
  import opened Network

  const FD_SETSIZE := 1024
  const FD_UNUSED := -1

  /** selector_status. `Overrun` is not one of the source's: it stands for an access past the end of the table,
  after which C promises nothing. */
  datatype Status = Success | BadArgs | FdInUse | MaxFd | Overrun

  /** A slot of the table; `data` stands for the handler and its data. */
  datatype Item = Item(fd: int, interest: Interest, data: int)

  const EMPTY := Item(FD_UNUSED, OP_NOOP, 0)

  datatype Entry = Entry(interest: Interest, data: int)

  predicate InvalidFd(fd: int) {
    fd < 0 || fd >= FD_SETSIZE
  }

  // ---------------------------------------------------------------------------- growing

  function Pow2(k: nat): (p: nat)
    ensures p > 0
  {
    if k == 0 then 1 else 2 * Pow2(k - 1)
  }

  /** The least power of two greater than `n`, at most FD_SETSIZE, plus one. */
  ghost predicate IsNextCapacity(n: nat, r: nat) {
    exists k: nat :: Pow2(k) > n && (k > 0 ==> Pow2(k - 1) <= n) && r == (if Pow2(k) > FD_SETSIZE then FD_SETSIZE else Pow2(k)) + 1
  }

  /** `tmp` is `n` shifted right by the bits counted so far. */
  ghost predicate Shifted(n: nat, tmp: nat, bits: nat) {
    tmp * Pow2(bits) <= n < (tmp + 1) * Pow2(bits)
  }

  /** next_capacity: the loop counts the bits of `n`. */
  method NextCapacity(n: nat) returns (r: nat)
    ensures IsNextCapacity(n, r)
    ensures n <= FD_SETSIZE ==> n < r <= FD_SETSIZE + 1
  {
    hide Pow2, Shifted;
    var bits, tmp := 0, n;
    ShiftStart(n);
    while tmp != 0
      invariant Shifted(n, tmp, bits)
      invariant bits > 0 ==> Pow2(bits - 1) <= n
      decreases tmp
    {
      ShiftStep(n, tmp, bits);
      tmp, bits := tmp / 2, bits + 1;
    }
    ShiftEnd(n, bits);
    var size := Pow2(bits);
    r := (if size > FD_SETSIZE then FD_SETSIZE else size) + 1;
  }

  lemma ShiftStart(n: nat)
    ensures Shifted(n, n, 0)
  {}

  lemma ShiftStep(n: nat, tmp: nat, bits: nat)
    requires Shifted(n, tmp, bits) && tmp > 0
    ensures Shifted(n, tmp / 2, bits + 1) && Pow2(bits) <= n
  {
    HalveStep(n, tmp, Pow2(bits));
  }

  lemma HalveStep(n: nat, tmp: nat, size: nat)
    requires tmp * size <= n < (tmp + 1) * size && tmp > 0
    ensures tmp / 2 * (2 * size) <= n < (tmp / 2 + 1) * (2 * size) && size <= n
  {
    var h := tmp / 2;
    assert 2 * h <= tmp < 2 * h + 2;
    assert h * (2 * size) == 2 * h * size <= tmp * size;
    assert (h + 1) * (2 * size) == (2 * h + 2) * size >= (tmp + 1) * size;
    assert tmp * size >= size;
  }

  lemma ShiftEnd(n: nat, bits: nat)
    requires Shifted(n, 0, bits)
    ensures n < Pow2(bits)
  {}

  lemma {:induction false} Pow2Monotone(a: nat, b: nat)
    requires a <= b
    ensures Pow2(a) <= Pow2(b)
  {
    if a < b {
      Pow2Monotone(a, b - 1);
    }
  }

  lemma Pow2Values()
    ensures Pow2(9) == 512 && Pow2(10) == 1024
  {
    assert Pow2(5) == 32;
    assert Pow2(9) == 16 * Pow2(5);
  }

  /** A fresh table has a slot for every valid descriptor exactly when at least 512 elements were asked for;
  otherwise its size is itself a valid descriptor. */
  lemma RoomyIff(initial: nat, size: nat)
    requires initial <= FD_SETSIZE && IsNextCapacity(initial, size)
    ensures size >= FD_SETSIZE <==> initial >= 512
    ensures initial < 512 ==> !InvalidFd(size)
    ensures initial >= 512 ==> size == FD_SETSIZE + 1
  {
    var k: nat :| Pow2(k) > initial && (k > 0 ==> Pow2(k - 1) <= initial)
             && size == (if Pow2(k) > FD_SETSIZE then FD_SETSIZE else Pow2(k)) + 1;
    Pow2Values();
    if k <= 9 {
      Pow2Monotone(k, 9);
    } else {
      Pow2Monotone(10, k);
      Pow2Monotone(9, k - 1);
    }
  }

  /** The table's size when selector_register indexes it. */
  ghost predicate SizeAfter(size: nat, fd: nat, after: nat) {
    if fd > size then IsNextCapacity(fd, after) else after == size
  }

  /** Registering is in bounds for every descriptor but one: the table's own size. */
  lemma RegisterInBounds(size: nat, fd: nat, after: nat)
    requires !InvalidFd(fd) && SizeAfter(size, fd, after)
    ensures fd < after <==> fd != size
  {
    if fd > size {
      var k: nat :| Pow2(k) > fd && (k > 0 ==> Pow2(k - 1) <= fd)
                    && after == (if Pow2(k) > FD_SETSIZE then FD_SETSIZE else Pow2(k)) + 1;
    }
  }

  // ------------------------------------------------------------------------ the selector

  ghost predicate SlotsOk(t: seq<Item>) {
    forall i :: 0 <= i < |t| ==> (t[i].fd == FD_UNUSED && t[i].interest == OP_NOOP) || (t[i].fd == i && i < FD_SETSIZE)
  }

  /** The registered descriptors: the abstract value of the table. */
  ghost function Table(t: seq<Item>): (m: map<int, Entry>) {
    map i | 0 <= i < |t| && t[i].fd != FD_UNUSED :: Entry(t[i].interest, t[i].data)
  }

  /** `m` is the greatest registered descriptor, or 0. */
  ghost predicate IsMax(table: map<int, Entry>, m: nat) {
    (m in table || m == 0) && forall fd :: fd in table ==> fd <= m
  }

  /** The prototype sets hold exactly the descriptors with that interest. */
  ghost predicate Cached(table: map<int, Entry>, r: set<int>, w: set<int>) {
    forall fd :: (fd in r <==> fd in table && table[fd].interest.read) && (fd in w <==> fd in table && table[fd].interest.write)
  }

  ghost predicate Consistent(t: seq<Item>, m: nat, r: set<int>, w: set<int>) {
    SlotsOk(t) && m < |t| && IsMax(Table(t), m) && Cached(Table(t), r, w)
  }

  /** One slot rewritten. */
  lemma TableUpdate(t: seq<Item>, k: nat, item: Item)
    requires SlotsOk(t) && k < |t| && ((item.fd == k && k < FD_SETSIZE) || item == EMPTY)
    ensures var u := t[k := item];
            && SlotsOk(u)
            && Table(u) == if item.fd == k then Table(t)[k := Entry(item.interest, item.data)] else Table(t) - {k as int}
  {}

  /** Unused slots added at the end. */
  lemma TableGrow(t: seq<Item>, u: seq<Item>)
    requires SlotsOk(t) && |t| <= |u| && u[..|t|] == t && forall i :: |t| <= i < |u| ==> u[i] == EMPTY
    ensures SlotsOk(u) && Table(u) == Table(t)
  {
    assert forall i :: 0 <= i < |t| ==> u[i] == u[..|t|][i];
  }

  class Selector {
    var fds: array<Item>
    var maxFd: nat
    var masterR: set<int>
    var masterW: set<int>

    ghost predicate Valid()
      reads this, fds
    {
      Consistent(fds[..], maxFd, masterR, masterW)
    }

    ghost function Registered(): (m: map<int, Entry>)
      reads this, fds
    {
      Table(fds[..])
    }

    /** A slot for every valid descriptor. */
    ghost predicate Roomy()
      reads this
    {
      fds.Length >= FD_SETSIZE
    }

    /** selector_new, for a size ensure_capacity accepts. */
    constructor (initial: nat)
      requires initial <= FD_SETSIZE
      ensures Valid() && Registered() == map[] && fresh(fds)
      ensures Roomy() <==> initial >= 512
    {
      var size := NextCapacity(initial);
      RoomyIff(initial, size);
      fds := new Item[size](_ => EMPTY);
      maxFd, masterR, masterW := 0, {}, {};
    }

    /** ensure_capacity on a table that exists: realloc and blank the new slots. */
    method EnsureCapacity(n: nat) returns (st: Status)
      requires Valid()
      modifies this`fds
      ensures Valid() && Registered() == old(Registered())
      ensures st == (if n < old(fds.Length) || n <= FD_SETSIZE then Success else MaxFd)
      ensures fds == old(fds) || fresh(fds)
      ensures fds.Length >= old(fds.Length)
      ensures st == Success ==> n < fds.Length
    {
      if n < fds.Length {
        return Success;
      } else if n > FD_SETSIZE {
        return MaxFd;
      }
      var size := NextCapacity(n);
      var old_ := fds;
      var t := new Item[size](i requires 0 <= i < size reads this, old_ => if i < old_.Length then old_[i] else EMPTY);
      TableGrow(fds[..], t[..]);
      fds := t;
      st := Success;
    }

    /** items_update_fdset_for_fd. */
    method UpdateSets(fd: int, interest: Interest)
      modifies this`masterR, this`masterW
      ensures masterR == if interest.read then old(masterR) + {fd} else old(masterR) - {fd}
      ensures masterW == if interest.write then old(masterW) + {fd} else old(masterW) - {fd}
    {
      masterR := masterR - {fd};
      masterW := masterW - {fd};
      if interest.read {
        masterR := masterR + {fd};
      }
      if interest.write {
        masterW := masterW + {fd};
      }
    }

    /** selector_register. The test before growing is `>`, so descriptor fds.Length itself is looked up one past
    the end; a roomy table never meets it. */
    method Register(fd: int, interest: Interest, data: int) returns (st: Status)
      requires Valid()
      modifies this, fds
      ensures Valid() && (fds == old(fds) || (fresh(fds) && !old(Roomy()))) && fds.Length >= old(fds.Length)
      ensures st == if InvalidFd(fd) then BadArgs else if fd == old(fds.Length) then Overrun
                    else if fd in old(Registered()) then FdInUse else Success
      ensures Registered() == if st == Success then old(Registered())[fd := Entry(interest, data)] else old(Registered())
      ensures st == Overrun ==> !old(Roomy())
    {
      if InvalidFd(fd) {
        return BadArgs;
      }
      if fd > fds.Length {
        var grown := EnsureCapacity(fd);
      } else if fd == fds.Length {
        return Overrun;
      }
      if fds[fd].fd != FD_UNUSED {
        return FdInUse;
      }
      ghost var t := fds[..];
      TableUpdate(t, fd, Item(fd, interest, data));
      fds[fd] := Item(fd, interest, data);
      assert fds[..] == t[fd := Item(fd, interest, data)];
      if fd > maxFd {
        maxFd := fd;
      }
      UpdateSets(fd, interest);
      st := Success;
    }

    /** selector_set_interest. */
    method SetInterest(fd: int, interest: Interest) returns (st: Status)
      requires Valid()
      modifies this, fds
      ensures Valid() && fds == old(fds)
      ensures st == if fd in old(Registered()) then Success else if InvalidFd(fd) || fd < fds.Length then BadArgs else Overrun
      ensures st == Overrun ==> !Roomy()
      ensures Registered() == if st == Success then old(Registered())[fd := old(Registered())[fd].(interest := interest)] else old(Registered())
    {
      if InvalidFd(fd) {
        return BadArgs;
      }
      if fd >= fds.Length {
        return Overrun;
      }
      if fds[fd].fd == FD_UNUSED {
        return BadArgs;
      }
      ghost var t := fds[..];
      SlotMeans(t, maxFd, masterR, masterW, fd);
      assert fd <= maxFd;
      TableUpdate(t, fd, t[fd].(interest := interest));
      fds[fd] := fds[fd].(interest := interest);
      assert fds[..] == t[fd := t[fd].(interest := interest)];
      UpdateSets(fd, interest);
      st := Success;
    }

    /** items_max_fd: the greatest used descriptor among the slots up to the old maximum. */
    method ItemsMaxFd() returns (max: nat)
      requires SlotsOk(fds[..]) && maxFd < fds.Length && forall fd :: fd in Registered() ==> fd <= maxFd
      ensures max <= maxFd && IsMax(Registered(), max)
    {
      max := 0;
      var i := 0;
      while i <= maxFd
        invariant 0 <= i <= maxFd + 1 && max <= maxFd && (max in Registered() || max == 0)
        invariant forall fd :: fd in Registered() && fd < i ==> fd <= max
      {
        if fds[i].fd != FD_UNUSED && fds[i].fd > max {
          max := fds[i].fd;
        }
        i := i + 1;
      }
    }

    /** selector_unregister_fd. `close` is what the close handler does to the selector before the slot is cleared;
    a handler that acts needs a roomy table, since the slot's address is kept meanwhile. */
    method Unregister(fd: int, close: seq<Op>) returns (st: Status)
      requires Valid() && (close == [] || Roomy())
      modifies this, fds
      ensures Valid() && fds == old(fds)
      ensures st == if fd in old(Registered()) then Success else if InvalidFd(fd) || fd < fds.Length then BadArgs else Overrun
      ensures st == Overrun ==> !Roomy()
      ensures Registered() == if st == Success then ApplyAll(old(Registered()), close) - {fd} else old(Registered())
      decreases |close|, 2
    {
      hide ApplyAll;
      if InvalidFd(fd) {
        return BadArgs;
      }
      if fd >= fds.Length {
        return Overrun;
      }
      if fds[fd].fd == FD_UNUSED {
        return BadArgs;
      }
      if close != [] {
        PerformAll(close);
      } else {
        NothingDone(Registered());
      }
      ClearSlot(fd);
      st := Success;
    }

    /** The end of selector_unregister_fd. The slot may have been cleared by the close handler already. */
    method ClearSlot(fd: nat)
      requires Valid() && fd < fds.Length
      modifies this, fds
      ensures Valid() && fds == old(fds) && Registered() == old(Registered()) - {fd as int}
    {
      ghost var t := fds[..];
      SlotMeans(t, maxFd, masterR, masterW, fd);
      TableUpdate(t, fd, EMPTY);
      if fds[fd].fd != FD_UNUSED {
        UpdateSets(fd, OP_NOOP);
      }
      fds[fd] := EMPTY;
      assert fds[..] == t[fd := EMPTY];
      maxFd := ItemsMaxFd();
    }

    /** One operation, as a handler performs it. */
    method Perform(op: Op)
      requires Valid() && Roomy()
      modifies this, fds
      ensures Valid() && Roomy() && fds == old(fds) && Registered() == Apply(old(Registered()), op)
      decreases 0, 3
    {
      hide Consistent, ApplyAll;
      NothingDone(Registered());
      var st;
      match op {
        case Register(fd, interest, data) => st := Register(fd, interest, data);
        case Unregister(fd) => st := Unregister(fd, []);
        case SetInterest(fd, interest) => st := SetInterest(fd, interest);
      }
    }

    method PerformAll(ops: seq<Op>)
      requires Valid() && Roomy()
      modifies this, fds
      ensures Valid() && Roomy() && fds == old(fds) && Registered() == ApplyAll(old(Registered()), ops)
      decreases |ops|, 1
    {
      hide Consistent, Apply;
      assert ops[..0] == [];
      for i := 0 to |ops|
        invariant Valid() && Roomy() && fds == old(fds) && Registered() == ApplyAll(old(Registered()), ops[..i])
      {
        assert ops[..i + 1][..i] == ops[..i];
        Perform(ops[i]);
      }
      assert ops[..|ops|] == ops;
    }

    /** One slot of handle_iteration. `item` is read again after the read handler has run; the key is not. */
    method VisitSlot(i: nat, readable: set<int>, writable: set<int>, scripts: seq<seq<Op>>, calls: seq<Call>, ghost seen: seq<map<int, Entry>>)
      returns (more: seq<Call>, ghost seen': seq<map<int, Entry>>)
      requires Valid() && Roomy() && i < fds.Length
      modifies this, fds
      ensures Valid() && Roomy() && fds == old(fds)
      ensures Scan(Registered(), more, seen') == Visit(Scan(old(Registered()), calls, seen), i, readable, writable, scripts)
    {
      hide Consistent, ApplyAll, IsMax, Cached;
      more, seen' := calls, seen;
      SlotMeans(fds[..], maxFd, masterR, masterW, i);
      if fds[i].fd == FD_UNUSED {
        return;
      }
      var fd, data := fds[i].fd, fds[i].data;
      if fd in readable && fds[i].interest.read {
        seen' := seen' + [Registered()];
        more := more + [Call(fd, false, data)];
        PerformAll(ScriptAt(scripts, |calls|));
      }
      SlotMeans(fds[..], maxFd, masterR, masterW, i);
      if i in writable && fds[i].interest.write {
        seen' := seen' + [Registered()];
        var k := |more|;
        more := more + [Call(fd, true, data)];
        PerformAll(ScriptAt(scripts, k));
      }
    }

    /** handle_iteration, over the slots up to the maximum when it begins. `scripts` says what the handlers
    called do to the selector, call by call; `seen` is what was registered when each call was made. */
    method HandleIteration(readable: set<int>, writable: set<int>, scripts: seq<seq<Op>>)
      returns (calls: seq<Call>, ghost seen: seq<map<int, Entry>>)
      requires Valid() && Roomy()
      modifies this, fds
      ensures Valid() && Roomy() && fds == old(fds)
      ensures Scan(Registered(), calls, seen) == ScanUpTo(old(Registered()), old(maxFd) + 1, readable, writable, scripts)
      ensures forall fd, write :: 0 <= fd <= old(maxFd) ==>
                (Among(fd, write, calls) <==> Expected(old(Registered()), calls, scripts, fd, write, readable, writable))
    {
      hide Consistent, Visit, Expected, Among;
      InTable(fds[..], maxFd, masterR, masterW);
      var n := maxFd;
      calls, seen := [], [];
      for i := 0 to n + 1
        invariant Valid() && Roomy() && fds == old(fds) && n < fds.Length
        invariant Scan(Registered(), calls, seen) == ScanUpTo(old(Registered()), i, readable, writable, scripts)
      {
        calls, seen := VisitSlot(i, readable, writable, scripts, calls, seen);
      }
      forall fd, write | 0 <= fd <= n
        ensures Among(fd, write, calls) <==> Expected(old(Registered()), calls, scripts, fd, write, readable, writable)
      {
        CallsAreComplete(old(Registered()), n + 1, readable, writable, scripts, fd, write);
      }
    }

    /** One action of the main loop. */
    method Act(a: Action) returns (calls: seq<Call>, ghost seen: seq<map<int, Entry>>)
      requires Valid() && Roomy()
      modifies this, fds
      ensures Valid() && Roomy() && fds == old(fds) && Acted(old(Registered()), a, Scan(Registered(), calls, seen))
    {
      hide Consistent, Apply, ScanUpTo, IsMax;
      calls, seen := [], [];
      MaxOf(fds[..], maxFd, masterR, masterW);
      match a {
        case Do(op) => Perform(op);
        case Iterate(readable, writable, scripts) => calls, seen := HandleIteration(readable, writable, scripts);
      }
    }
  }

  lemma NothingDone(m: map<int, Entry>)
    ensures ApplyAll(m, []) == m
  {}

  lemma InTable(t: seq<Item>, m: nat, r: set<int>, w: set<int>)
    requires Consistent(t, m, r, w)
    ensures m < |t|
  {}

  /** What a slot says about the registered descriptors. */
  lemma SlotMeans(t: seq<Item>, m: nat, r: set<int>, w: set<int>, i: nat)
    requires Consistent(t, m, r, w) && i < |t|
    ensures t[i].fd != FD_UNUSED <==> i in Table(t)
    ensures i in Table(t) ==> t[i].fd == i && Table(t)[i] == Entry(t[i].interest, t[i].data)
    ensures i !in Table(t) ==> t[i].interest == OP_NOOP
  {
    hide IsMax, Cached;
  }

  // ---------------------------------------------------------------------- what an iteration is

  datatype Op = Register(fd: int, interest: Interest, data: int) | Unregister(fd: int) | SetInterest(fd: int, interest: Interest)

  /** What an operation does to the registered descriptors. */
  ghost function Apply(m: map<int, Entry>, op: Op): (r: map<int, Entry>) {
    match op
    case Register(fd, interest, data) => if InvalidFd(fd) || fd in m then m else m[fd := Entry(interest, data)]
    case Unregister(fd) => m - {fd}
    case SetInterest(fd, interest) => if fd in m then m[fd := m[fd].(interest := interest)] else m
  }

  ghost function ApplyAll(m: map<int, Entry>, ops: seq<Op>): (r: map<int, Entry>) {
    if ops == [] then m else Apply(ApplyAll(m, ops[..|ops| - 1]), ops[|ops| - 1])
  }

  /** What a close handler does is as if done right before: unregistering a registered descriptor, close handler
  and all, is the handler's operations and then the removal. */
  lemma CloseIsBefore(m: map<int, Entry>, fd: int, close: seq<Op>)
    ensures ApplyAll(m, close) - {fd} == ApplyAll(m, close + [Unregister(fd)])
  {
    var all := close + [Unregister(fd)];
    assert all[..|all| - 1] == close;
  }

  /** A handler called for a descriptor, with the data of its key. */
  datatype Call = Call(fd: int, write: bool, data: int)

  /** How far an iteration has come: what is registered, the calls made, what was registered at each. */
  datatype Scan = Scan(table: map<int, Entry>, calls: seq<Call>, seen: seq<map<int, Entry>>)

  function ScriptAt(scripts: seq<seq<Op>>, k: nat): (ops: seq<Op>) {
    if k < |scripts| then scripts[k] else []
  }

  /** A call is made, and its handler does what its script says. */
  ghost function Called(s: Scan, c: Call, scripts: seq<seq<Op>>): (r: Scan) {
    Scan(ApplyAll(s.table, ScriptAt(scripts, |s.calls|)), s.calls + [c], s.seen + [s.table])
  }

  /** The descriptor is registered, ready, and interested. */
  ghost predicate Due(m: map<int, Entry>, fd: int, write: bool, readable: set<int>, writable: set<int>) {
    fd in m && if write then fd in writable && m[fd].interest.write else fd in readable && m[fd].interest.read
  }

  ghost function Visit(s: Scan, fd: int, readable: set<int>, writable: set<int>, scripts: seq<seq<Op>>): (r: Scan) {
    if fd !in s.table then s
    else
      var data := s.table[fd].data;
      var t := if Due(s.table, fd, false, readable, writable) then Called(s, Call(fd, false, data), scripts) else s;
      if Due(t.table, fd, true, readable, writable) then Called(t, Call(fd, true, data), scripts) else t
  }

  ghost function ScanUpTo(m: map<int, Entry>, n: nat, readable: set<int>, writable: set<int>, scripts: seq<seq<Op>>): (r: Scan) {
    if n == 0 then Scan(m, [], []) else Visit(ScanUpTo(m, n - 1, readable, writable, scripts), n - 1, readable, writable, scripts)
  }

  ghost predicate Before(a: Call, b: Call) {
    a.fd < b.fd || (a.fd == b.fd && !a.write && b.write)
  }

  /** Whatever the handlers register, unregister or change meanwhile: every call goes to a descriptor that is
  registered at that moment with that interest and was reported ready, within the slots scanned, the calls
  being in order of descriptor with reads first. */
  lemma {:induction false} CallsAreDue(m: map<int, Entry>, n: nat, readable: set<int>, writable: set<int>, scripts: seq<seq<Op>>)
    ensures var s := ScanUpTo(m, n, readable, writable, scripts);
            && |s.seen| == |s.calls|
            && (forall k :: 0 <= k < |s.calls| ==> 0 <= s.calls[k].fd < n && Due(s.seen[k], s.calls[k].fd, s.calls[k].write, readable, writable))
            && (forall j, k :: 0 <= j < k < |s.calls| ==> Before(s.calls[j], s.calls[k]))
  {
    hide ApplyAll, Due;
    if n > 0 {
      CallsAreDue(m, n - 1, readable, writable, scripts);
    }
  }

  /** A read handler gets the data registered at that moment. */
  lemma {:induction false} ReadKeysAreFresh(m: map<int, Entry>, n: nat, readable: set<int>, writable: set<int>, scripts: seq<seq<Op>>, k: nat)
    requires k < |ScanUpTo(m, n, readable, writable, scripts).calls|
    ensures var s := ScanUpTo(m, n, readable, writable, scripts);
            k < |s.seen| && (!s.calls[k].write ==> s.calls[k].fd in s.seen[k] && s.calls[k].data == s.seen[k][s.calls[k].fd].data)
  {
    hide ApplyAll;
    CallsAreDue(m, n, readable, writable, scripts);
    if n > 0 {
      CallsAreDue(m, n - 1, readable, writable, scripts);
      if k < |ScanUpTo(m, n - 1, readable, writable, scripts).calls| {
        ReadKeysAreFresh(m, n - 1, readable, writable, scripts, k);
      }
    }
  }

  // Whether a handler's script puts other data in a slot, read off the script itself.

  predicate Registers(op: Op, fd: int) {
    op.Register? && op.fd == fd
  }

  /** The last operation that unregisters the descriptor is number `u`. */
  ghost predicate LastUnregister(ops: seq<Op>, u: int, fd: int) {
    0 <= u < |ops| && ops[u] == Unregister(fd) && forall i :: u < i < |ops| ==> ops[i] != Unregister(fd)
  }

  /** The first operation after `u` that registers the descriptor is number `j`. */
  ghost predicate FirstRegister(ops: seq<Op>, u: int, j: int, fd: int) {
    0 <= u < j < |ops| && Registers(ops[j], fd) && forall i :: u < i < j ==> !Registers(ops[i], fd)
  }

  /** The script unregisters the descriptor and then registers it with other data. */
  ghost predicate Replaces(ops: seq<Op>, fd: int, data: int) {
    exists u, j :: LastUnregister(ops, u, fd) && FirstRegister(ops, u, j, fd) && ops[j].data != data
  }

  /** Without unregistering, nothing changes a descriptor's data. */
  lemma {:induction false} DataKept(m: map<int, Entry>, ops: seq<Op>, fd: int)
    requires fd in m && Unregister(fd) !in ops
    ensures fd in ApplyAll(m, ops) && ApplyAll(m, ops)[fd].data == m[fd].data
    decreases |ops|
  {
    if ops != [] {
      var n := |ops| - 1;
      assert ops[n] in ops;
      DataKept(m, ops[..n], fd);
    }
  }

  /** After the last time it is unregistered, a descriptor has the data it is first registered with. */
  lemma {:induction false} DataAfter(m: map<int, Entry>, ops: seq<Op>, u: int, fd: int)
    requires !InvalidFd(fd) && LastUnregister(ops, u, fd)
    ensures var r := ApplyAll(m, ops);
            && (fd in r ==> exists j :: FirstRegister(ops, u, j, fd))
            && (forall j :: FirstRegister(ops, u, j, fd) ==> fd in r && r[fd].data == ops[j].data)
    decreases |ops|
  {
    var n := |ops| - 1;
    var init := ops[..n];
    if u < n {
      DataAfter(m, init, u, fd);
      if fd in ApplyAll(m, init) {
        var k :| FirstRegister(init, u, k, fd);
        assert FirstRegister(ops, u, k, fd);
      } else {
        NoneRegisters(init, u, fd);
        assert Registers(ops[n], fd) ==> FirstRegister(ops, u, n, fd);
      }
      forall j | FirstRegister(ops, u, j, fd)
        ensures fd in ApplyAll(m, ops) && ApplyAll(m, ops)[fd].data == ops[j].data
      {
        if j < n {
          assert FirstRegister(init, u, j, fd);
        }
      }
    }
  }

  /** No first one means none at all. */
  lemma {:induction false} NoneRegisters(ops: seq<Op>, u: nat, fd: int)
    requires forall j :: !FirstRegister(ops, u, j, fd)
    ensures forall i :: u < i < |ops| ==> !Registers(ops[i], fd)
  {
    var k := u + 1;
    while k < |ops|
      invariant u < k && forall i :: u < i < k && i < |ops| ==> !Registers(ops[i], fd)
    {
      assert !FirstRegister(ops, u, k, fd);
      k := k + 1;
    }
  }

  lemma {:induction false} LastOne(ops: seq<Op>, fd: int) returns (u: int)
    requires Unregister(fd) in ops
    ensures LastUnregister(ops, u, fd)
    decreases |ops|
  {
    var n := |ops| - 1;
    if ops[n] == Unregister(fd) {
      u := n;
    } else {
      u := LastOne(ops[..n], fd);
      assert forall i :: u < i < n ==> ops[..n][i] != Unregister(fd);
    }
  }

  /** A descriptor registered before and after a script has the same data exactly unless the script replaces it. */
  lemma DataSameIff(m: map<int, Entry>, ops: seq<Op>, fd: int)
    requires !InvalidFd(fd) && fd in m && fd in ApplyAll(m, ops)
    ensures ApplyAll(m, ops)[fd].data == m[fd].data <==> !Replaces(ops, fd, m[fd].data)
  {
    hide ApplyAll;
    if Unregister(fd) in ops {
      var u := LastOne(ops, fd);
      DataAfter(m, ops, u, fd);
      var j :| FirstRegister(ops, u, j, fd);
      forall v, k | LastUnregister(ops, v, fd) && FirstRegister(ops, v, k, fd)
        ensures v == u && k == j
      {
        assert Registers(ops[j], fd) && Registers(ops[k], fd);
      }
    } else {
      DataKept(m, ops, fd);
    }
  }

  /** The write call `k` of a scan gets what is registered then, exactly unless the call before it was the read
  handler of the same descriptor and its script replaced the data. */
  ghost predicate FreshUnlessReplaced(s: Scan, scripts: seq<seq<Op>>, k: nat)
    requires k < |s.calls| == |s.seen| && s.calls[k].fd in s.seen[k]
  {
    var fd, data := s.calls[k].fd, s.calls[k].data;
    data == s.seen[k][fd].data <==> !(k > 0 && s.calls[k - 1].fd == fd && Replaces(ScriptAt(scripts, k - 1), fd, data))
  }

  lemma VisitKeys(s: Scan, fd: int, readable: set<int>, writable: set<int>, scripts: seq<seq<Op>>)
    requires !InvalidFd(fd) && |s.seen| == |s.calls| && forall i :: 0 <= i < |s.calls| ==> s.calls[i].fd < fd
    ensures var r := Visit(s, fd, readable, writable, scripts);
            && s.calls <= r.calls && s.seen <= r.seen && |r.seen| == |r.calls|
            && forall k :: |s.calls| <= k < |r.calls| && r.calls[k].write ==>
                 r.calls[k].fd in r.seen[k] && FreshUnlessReplaced(r, scripts, k)
  {
    hide ApplyAll, Replaces;
    if Due(s.table, fd, false, readable, writable) {
      var t := ApplyAll(s.table, ScriptAt(scripts, |s.calls|));
      if fd in t {
        DataSameIff(s.table, ScriptAt(scripts, |s.calls|), fd);
      }
    }
  }

  /** In a whole iteration, every write handler gets the data registered when it is called, exactly unless the
  read handler called just before it, for the same descriptor, has a script that replaces that data. */
  lemma {:induction false} WriteKeysAreFreshIff(m: map<int, Entry>, n: nat, readable: set<int>, writable: set<int>, scripts: seq<seq<Op>>, k: nat)
    requires n <= FD_SETSIZE && k < |ScanUpTo(m, n, readable, writable, scripts).calls|
    requires ScanUpTo(m, n, readable, writable, scripts).calls[k].write
    ensures var s := ScanUpTo(m, n, readable, writable, scripts);
            k < |s.calls| == |s.seen| && s.calls[k].fd in s.seen[k] && FreshUnlessReplaced(s, scripts, k)
  {
    hide ApplyAll, Replaces, Visit;
    if n > 0 {
      var s := ScanUpTo(m, n - 1, readable, writable, scripts);
      CallsAreDue(m, n - 1, readable, writable, scripts);
      VisitKeys(s, n - 1, readable, writable, scripts);
      if k < |s.calls| {
        WriteKeysAreFreshIff(m, n - 1, readable, writable, scripts, k);
      }
    }
  }

  /** A read handler that replaces its own registration leaves the write handler the old data. */
  lemma StaleKey(fd: int, old_: int, new_: int)
    requires !InvalidFd(fd)
    ensures var both := Interest(true, true); var ops := [Unregister(fd), Register(fd, both, new_)];
            var s := Visit(Scan(map[fd := Entry(both, old_)], [], []), fd, {fd}, {fd}, [ops]);
            s.calls == [Call(fd, false, old_), Call(fd, true, old_)] && s.seen[1] == map[fd := Entry(both, new_)]
  {
    var both := Interest(true, true);
    var ops := [Unregister(fd), Register(fd, both, new_)];
    var m := map[fd := Entry(both, old_)];
    assert ops[..1] == [Unregister(fd)] && ops[..1][..0] == [];
    assert ApplyAll(m, ops[..1]) == map[];
    assert ApplyAll(m, ops) == map[fd := Entry(both, new_)];
  }

  /** The handler of that kind is called for the descriptor. */
  ghost predicate Among(fd: int, write: bool, calls: seq<Call>) {
    exists k :: 0 <= k < |calls| && calls[k].fd == fd && calls[k].write == write
  }

  /** With handlers that leave the selector alone the calls are exactly those due at the start. */
  lemma {:induction false} QuietScan(m: map<int, Entry>, n: nat, readable: set<int>, writable: set<int>, fd: int, write: bool)
    ensures var s := ScanUpTo(m, n, readable, writable, []);
            s.table == m && (Among(fd, write, s.calls) <==> 0 <= fd < n && Due(m, fd, write, readable, writable))
  {
    hide Due, Among;
    if n == 0 {
      NoneAmong(fd, write);
    } else {
      var s := ScanUpTo(m, n - 1, readable, writable, []);
      QuietScan(m, n - 1, readable, writable, fd, write);
      QuietVisit(s, n - 1, readable, writable, fd, write);
    }
  }

  lemma NoneAmong(fd: int, write: bool)
    ensures !Among(fd, write, [])
  {}

  lemma AmongMore(fd: int, write: bool, calls: seq<Call>, c: Call)
    ensures Among(fd, write, calls + [c]) <==> Among(fd, write, calls) || (c.fd == fd && c.write == write)
  {
    var more := calls + [c];
    if Among(fd, write, calls) {
      var k :| 0 <= k < |calls| && calls[k].fd == fd && calls[k].write == write;
      assert more[k] == calls[k];
    }
    if c.fd == fd && c.write == write {
      assert more[|calls|] == c;
    }
  }

  lemma QuietVisit(s: Scan, at: int, readable: set<int>, writable: set<int>, fd: int, write: bool)
    ensures var r := Visit(s, at, readable, writable, []);
            && r.table == s.table
            && (Among(fd, write, r.calls) <==> Among(fd, write, s.calls) || (fd == at && Due(s.table, fd, write, readable, writable)))
  {
    hide Among;
    if at in s.table {
      var data := s.table[at].data;
      AmongMore(fd, write, s.calls, Call(at, false, data));
      AmongMore(fd, write, s.calls, Call(at, true, data));
      AmongMore(fd, write, s.calls + [Call(at, false, data)], Call(at, true, data));
    }
  }

  // ---------------------------------------------- which calls are made, said without the scan itself

  /** What is registered after the first `k` handlers called have done what their scripts say. */
  ghost function TableAt(m: map<int, Entry>, scripts: seq<seq<Op>>, k: nat): (r: map<int, Entry>) {
    if k == 0 then m else ApplyAll(TableAt(m, scripts, k - 1), ScriptAt(scripts, k - 1))
  }

  /** How many calls come before that of this descriptor in this direction. */
  ghost function CallsBefore(calls: seq<Call>, fd: int, write: bool): (k: nat)
    ensures k <= |calls|
  {
    if calls == [] then 0
    else CallsBefore(calls[..|calls| - 1], fd, write) + if Before(calls[|calls| - 1], Call(fd, write, 0)) then 1 else 0
  }

  /** Whether a handler is to be called: the descriptor is registered when its slot is reached, and due in that
  direction when its turn comes. */
  ghost predicate Expected(m: map<int, Entry>, calls: seq<Call>, scripts: seq<seq<Op>>, fd: int, write: bool, readable: set<int>, writable: set<int>) {
    && fd in TableAt(m, scripts, CallsBefore(calls, fd, false))
    && Due(TableAt(m, scripts, CallsBefore(calls, fd, write)), fd, write, readable, writable)
  }

  lemma {:induction false} AllBefore(calls: seq<Call>, fd: int, write: bool)
    requires forall k :: 0 <= k < |calls| ==> Before(calls[k], Call(fd, write, 0))
    ensures CallsBefore(calls, fd, write) == |calls|
  {
    if calls != [] {
      AllBefore(calls[..|calls| - 1], fd, write);
    }
  }

  lemma OneMoreBefore(calls: seq<Call>, c: Call, fd: int, write: bool)
    ensures CallsBefore(calls + [c], fd, write) == CallsBefore(calls, fd, write) + if Before(c, Call(fd, write, 0)) then 1 else 0
  {
    var more := calls + [c];
    assert more[..|more| - 1] == calls;
  }

  /** The registrations of an iteration are those its handlers' scripts make, one after the other. */
  ghost predicate Scripted(m: map<int, Entry>, s: Scan, scripts: seq<seq<Op>>) {
    && |s.seen| == |s.calls| && s.table == TableAt(m, scripts, |s.calls|)
    && forall k :: 0 <= k < |s.calls| ==> s.seen[k] == TableAt(m, scripts, k)
  }

  lemma CalledScripted(m: map<int, Entry>, s: Scan, c: Call, scripts: seq<seq<Op>>)
    requires Scripted(m, s, scripts)
    ensures Scripted(m, Called(s, c, scripts), scripts)
  {
    hide ApplyAll;
  }

  lemma {:induction false} ScanScripted(m: map<int, Entry>, n: nat, readable: set<int>, writable: set<int>, scripts: seq<seq<Op>>)
    ensures Scripted(m, ScanUpTo(m, n, readable, writable, scripts), scripts)
  {
    hide ApplyAll, Scripted, Called, Due;
    if n == 0 {
      StartScripted(m, scripts);
    } else {
      var s := ScanUpTo(m, n - 1, readable, writable, scripts);
      ScanScripted(m, n - 1, readable, writable, scripts);
      var fd := n - 1;
      if fd in s.table {
        var data := s.table[fd].data;
        CalledScripted(m, s, Call(fd, false, data), scripts);
        CalledScripted(m, s, Call(fd, true, data), scripts);
        CalledScripted(m, Called(s, Call(fd, false, data), scripts), Call(fd, true, data), scripts);
      }
    }
  }

  lemma StartScripted(m: map<int, Entry>, scripts: seq<seq<Op>>)
    ensures Scripted(m, Scan(m, [], []), scripts)
  {}

  /** A visit makes the calls of its own slot, and they change nothing for smaller descriptors. */
  lemma VisitCalls(m: map<int, Entry>, s: Scan, at: int, readable: set<int>, writable: set<int>, scripts: seq<seq<Op>>, fd: int, write: bool)
    requires Scripted(m, s, scripts) && fd <= at && forall k :: 0 <= k < |s.calls| ==> s.calls[k].fd < at
    ensures var r := Visit(s, at, readable, writable, scripts);
            && (fd < at ==> (Among(fd, write, r.calls) <==> Among(fd, write, s.calls)))
            && (fd < at ==> CallsBefore(r.calls, fd, write) == CallsBefore(s.calls, fd, write))
            && (fd == at ==> CallsBefore(r.calls, fd, false) == |s.calls|)
            && (fd == at ==> (Among(fd, write, r.calls) <==> Expected(m, r.calls, scripts, fd, write, readable, writable)))
  {
    hide Among, ApplyAll, TableAt, CallsBefore;
    var read, both := Call(at, false, if at in s.table then s.table[at].data else 0), Call(at, true, if at in s.table then s.table[at].data else 0);
    var t := Called(s, read, scripts);
    CalledScripted(m, s, read, scripts);
    AllBefore(s.calls, at, false);
    AllBefore(s.calls, at, true);
    NoneAt(s.calls, at, write);
    BeforeSlot(s.calls, read, both, fd, false);
    BeforeSlot(s.calls, read, both, fd, write);
    AmongMore(fd, write, s.calls, read);
    AmongMore(fd, write, s.calls, both);
    AmongMore(fd, write, t.calls, both);
  }

  lemma BeforeSlot(calls: seq<Call>, read: Call, both: Call, fd: int, write: bool)
    ensures CallsBefore(calls + [read], fd, write) == CallsBefore(calls, fd, write) + if Before(read, Call(fd, write, 0)) then 1 else 0
    ensures CallsBefore(calls + [both], fd, write) == CallsBefore(calls, fd, write) + if Before(both, Call(fd, write, 0)) then 1 else 0
    ensures CallsBefore(calls + [read] + [both], fd, write)
            == CallsBefore(calls + [read], fd, write) + if Before(both, Call(fd, write, 0)) then 1 else 0
  {
    OneMoreBefore(calls, read, fd, write);
    OneMoreBefore(calls, both, fd, write);
    OneMoreBefore(calls + [read], both, fd, write);
  }

  lemma NoneAt(calls: seq<Call>, at: int, write: bool)
    requires forall k :: 0 <= k < |calls| ==> calls[k].fd < at
    ensures !Among(at, write, calls)
  {}

  /** Exactly the expected calls are made: however handlers act, a descriptor below `n` is called in a direction if and
  only if it is registered when its slot is reached and due in that direction when its turn comes. */
  lemma {:induction false} CallsAreComplete(m: map<int, Entry>, n: nat, readable: set<int>, writable: set<int>, scripts: seq<seq<Op>>, fd: int, write: bool)
    requires 0 <= fd < n
    ensures var s := ScanUpTo(m, n, readable, writable, scripts);
            Among(fd, write, s.calls) <==> Expected(m, s.calls, scripts, fd, write, readable, writable)
  {
    hide Among, Visit, TableAt, CallsBefore, Scripted, Due;
    var s := ScanUpTo(m, n - 1, readable, writable, scripts);
    ScanScripted(m, n - 1, readable, writable, scripts);
    CallsAreDue(m, n - 1, readable, writable, scripts);
    VisitCalls(m, s, n - 1, readable, writable, scripts, fd, write);
    VisitCalls(m, s, n - 1, readable, writable, scripts, fd, false);
    if fd < n - 1 {
      CallsAreComplete(m, n - 1, readable, writable, scripts, fd, write);
    }
  }

  /** No operation of these scripts names the descriptor. */
  ghost predicate Untouched(scripts: seq<seq<Op>>, fd: int) {
    forall i, j :: 0 <= i < |scripts| && 0 <= j < |scripts[i]| ==> scripts[i][j].fd != fd
  }

  lemma {:induction false} EntryKept(m: map<int, Entry>, ops: seq<Op>, fd: int)
    requires forall j :: 0 <= j < |ops| ==> ops[j].fd != fd
    ensures (fd in ApplyAll(m, ops) <==> fd in m) && (fd in m ==> ApplyAll(m, ops)[fd] == m[fd])
    decreases |ops|
  {
    if ops != [] {
      EntryKept(m, ops[..|ops| - 1], fd);
    }
  }

  lemma {:induction false} EntryKeptAt(m: map<int, Entry>, scripts: seq<seq<Op>>, fd: int, k: nat)
    requires Untouched(scripts, fd)
    ensures (fd in TableAt(m, scripts, k) <==> fd in m) && (fd in m ==> TableAt(m, scripts, k)[fd] == m[fd])
  {
    hide ApplyAll;
    if k > 0 {
      EntryKeptAt(m, scripts, fd, k - 1);
      EntryKept(TableAt(m, scripts, k - 1), ScriptAt(scripts, k - 1), fd);
    }
  }

  /** A descriptor that no handler touches is called exactly in the directions it is due in at the start. */
  lemma UntouchedIsServed(m: map<int, Entry>, n: nat, readable: set<int>, writable: set<int>, scripts: seq<seq<Op>>, fd: int, write: bool)
    requires 0 <= fd < n && Untouched(scripts, fd)
    ensures Among(fd, write, ScanUpTo(m, n, readable, writable, scripts).calls) <==> Due(m, fd, write, readable, writable)
  {
    hide Among, ScanUpTo, TableAt, CallsBefore, Untouched;
    var calls := ScanUpTo(m, n, readable, writable, scripts).calls;
    CallsAreComplete(m, n, readable, writable, scripts, fd, write);
    EntryKeptAt(m, scripts, fd, CallsBefore(calls, fd, false));
    EntryKeptAt(m, scripts, fd, CallsBefore(calls, fd, write));
  }

  // ------------------------------------------------------------------------------ whole runs

  /** What the main loop does with a selector. */
  datatype Action = Do(op: Op) | Iterate(readable: set<int>, writable: set<int>, scripts: seq<seq<Op>>)

  /** What an action did: what was registered after it, the handlers it called, what was registered at each call. */
  ghost predicate Acted(before: map<int, Entry>, a: Action, after: Scan) {
    match a
    case Do(op) => after == Scan(Apply(before, op), [], [])
    case Iterate(readable, writable, scripts) =>
      exists m: nat :: m < FD_SETSIZE && IsMax(before, m) && after == ScanUpTo(before, m + 1, readable, writable, scripts)
  }

  /** Any operations and iterations on a selector built the way main builds it: every access is in bounds, the
  table and its caches stay in step, and an iteration's calls are those of `ScanUpTo`. */
  method Run(actions: seq<Action>) returns (s: Selector, calls: seq<seq<Call>>, ghost done: seq<Scan>)
    ensures s.Valid() && s.Roomy() && |done| == |calls| == |actions|
    ensures s.Registered() == TableAfter(done, |actions|)
    ensures forall i :: 0 <= i < |actions| ==> calls[i] == done[i].calls && Acted(TableAfter(done, i), actions[i], done[i])
  {
    hide Consistent, Acted;
    s := new Selector(FD_SETSIZE);
    calls, done := [], [];
    for i := 0 to |actions|
      invariant s.Valid() && s.Roomy() && fresh(s) && fresh(s.fds) && |done| == |calls| == i && s.Registered() == TableAfter(done, i)
      invariant forall j :: 0 <= j < i ==> calls[j] == done[j].calls && Acted(TableAfter(done, j), actions[j], done[j])
    {
      var made;
      ghost var seen;
      ghost var sofar := done;
      made, seen := s.Act(actions[i]);
      calls, done := calls + [made], done + [Scan(s.Registered(), made, seen)];
      assert forall j :: 0 <= j <= i ==> TableAfter(done, j) == TableAfter(sofar, j);
    }
  }

  /** What is registered before action `i` of a run. */
  ghost function TableAfter(done: seq<Scan>, i: nat): (m: map<int, Entry>)
    requires i <= |done|
  {
    if i == 0 then map[] else done[i - 1].table
  }

  lemma MaxOf(t: seq<Item>, m: nat, r: set<int>, w: set<int>)
    requires Consistent(t, m, r, w)
    ensures IsMax(Table(t), m) && m < FD_SETSIZE
  {}

  /** So in a whole run every handler called is due when it is called, in order; a read handler gets the data
  registered then, and a write handler does exactly unless the read handler before it replaced it. */
  lemma RunCallsAreDue(before: map<int, Entry>, a: Action, after: Scan, k: nat)
    requires a.Iterate? && Acted(before, a, after) && k < |after.calls|
    ensures |after.seen| == |after.calls| && Due(after.seen[k], after.calls[k].fd, after.calls[k].write, a.readable, a.writable)
    ensures forall j :: 0 <= j < k ==> Before(after.calls[j], after.calls[k])
    ensures if after.calls[k].write then FreshUnlessReplaced(after, a.scripts, k)
            else after.calls[k].data == after.seen[k][after.calls[k].fd].data
  {
    hide ScanUpTo, FreshUnlessReplaced;
    var m: nat :| m < FD_SETSIZE && IsMax(before, m) && after == ScanUpTo(before, m + 1, a.readable, a.writable, a.scripts);
    CallsAreDue(before, m + 1, a.readable, a.writable, a.scripts);
    if after.calls[k].write {
      WriteKeysAreFreshIff(before, m + 1, a.readable, a.writable, a.scripts, k);
    } else {
      ReadKeysAreFresh(before, m + 1, a.readable, a.writable, a.scripts, k);
    }
  }

  /** And in a whole run no call is missed: every descriptor is called in a direction exactly when expected, and the
  registrations are those the handlers' scripts make. */
  lemma RunCallsAreComplete(before: map<int, Entry>, a: Action, after: Scan, fd: int, write: bool)
    requires a.Iterate? && Acted(before, a, after) && fd in before && fd >= 0
    ensures Among(fd, write, after.calls) <==> Expected(before, after.calls, a.scripts, fd, write, a.readable, a.writable)
    ensures Untouched(a.scripts, fd) ==> (Among(fd, write, after.calls) <==> Due(before, fd, write, a.readable, a.writable))
    ensures Scripted(before, after, a.scripts)
  {
    hide ScanUpTo, Among, Expected, Untouched, Scripted, Due;
    var m: nat :| m < FD_SETSIZE && IsMax(before, m) && after == ScanUpTo(before, m + 1, a.readable, a.writable, a.scripts);
    CallsAreComplete(before, m + 1, a.readable, a.writable, a.scripts, fd, write);
    ScanScripted(before, m + 1, a.readable, a.writable, a.scripts);
    if Untouched(a.scripts, fd) {
      UntouchedIsServed(before, m + 1, a.readable, a.writable, a.scripts, fd, write);
    }
  }
}
