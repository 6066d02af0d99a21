/** Facts about sequences shared by the other modules. */
module Sequences {

  datatype Option<T> = None | Some(value: T)

  ghost predicate NoDup<T>(s: seq<T>) {
    forall i, j :: 0 <= i < j < |s| ==> s[i] != s[j]
  }

  /** `s` with the first occurrence of `x` taken out. */
  function Without<T(==)>(s: seq<T>, x: T): (r: seq<T>) {
    if s == [] then []
    else if s[0] == x then s[1..]
    else [s[0]] + Without(s[1..], x)
  }

  lemma {:induction false} WithoutAbsent<T>(s: seq<T>, x: T)
    requires x !in s
    ensures Without(s, x) == s
  {
    if s != [] {
      WithoutAbsent(s[1..], x);
    }
  }

  /** Taking out element `k` of a duplicate-free sequence splices its neighbours together. */
  lemma {:induction false} WithoutAt<T>(s: seq<T>, k: nat)
    requires k < |s| && NoDup(s)
    ensures Without(s, s[k]) == s[..k] + s[k + 1..]
  {
    if k > 0 {
      WithoutAt(s[1..], k - 1);
      assert s[1..][..k - 1] == s[..k][1..];
    }
  }

  lemma WithoutIndex<T>(s: seq<T>, x: T) returns (k: nat)
    requires NoDup(s) && x in s
    ensures k < |s| && s[k] == x && Without(s, x) == s[..k] + s[k + 1..]
  {
    k :| k < |s| && s[k] == x;
    WithoutAt(s, k);
  }

  lemma WithoutMembers<T>(s: seq<T>, x: T)
    requires NoDup(s)
    ensures NoDup(Without(s, x))
    ensures forall y :: y in Without(s, x) <==> y in s && y != x
    ensures |Without(s, x)| == |s| - (if x in s then 1 else 0)
  {
    if x in s {
      var k := WithoutIndex(s, x);
      var r := Without(s, x);
      forall y | y in s && y != x
        ensures y in r
      {
        var i :| 0 <= i < |s| && s[i] == y;
        assert y == r[if i < k then i else i - 1];
      }
    } else {
      WithoutAbsent(s, x);
    }
  }

  /** The same, element by element: the form pointer splicing needs. */
  lemma Spliced<T>(s: seq<T>, k: nat, r: seq<T>)
    requires k < |s| && NoDup(s) && r == Without(s, s[k])
    ensures |r| == |s| - 1 && NoDup(r) && s[k] !in r
    ensures forall i {:trigger r[i]} :: 0 <= i < |r| ==> r[i] == if i < k then s[i] else s[i + 1]
  {
    hide Without;
    WithoutAt(s, k);
    assert forall i :: 0 <= i < k ==> r[i] == s[i];
    assert forall i :: k <= i < |r| ==> r[i] == s[i + 1];
  }

  /** As much of `s` as fits in `room`. */
  function Clip<T>(s: seq<T>, room: int): (r: seq<T>)
    requires room >= 0
    ensures |r| == (if |s| <= room then |s| else room) && r <= s
  {
    if |s| <= room then s else s[..room]
  }

  /** What is written in two goes is cut where what is written in one would be. */
  lemma ClipAppend<T>(a: seq<T>, b: seq<T>, room: nat)
    ensures Clip(a + b, room) == Clip(a, room) + Clip(b, room - |Clip(a, room)|)
  {}
}
