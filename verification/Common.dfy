/** Small pieces of stock vocabulary shared by every module of the model. */
module Common {

  datatype Option<+T> = None | Some(value: T)

  ghost predicate NoDup<T>(s: seq<T>) {
    forall i, j :: 0 <= i < j < |s| ==> s[i] != s[j]
  }

  /** The position of the first `x` in `s`, or -1 (JavaScript's `indexOf`). */
  function IndexOf<T(==)>(s: seq<T>, x: T): (i: int)
    ensures -1 <= i < |s|
    ensures i == -1 <==> x !in s
    ensures i >= 0 ==> s[i] == x && x !in s[..i]
  {
    if s == [] then -1
    else if s[0] == x then 0
    else
      var j := IndexOf(s[1..], x);
      if j == -1 then -1 else
        assert s[..j + 1] == [s[0]] + s[1..][..j];
        j + 1
  }

  /** `s` with its first `x` spliced out; `s` itself when there is none. */
  function Without<T(==)>(s: seq<T>, x: T): (r: seq<T>)
    ensures x !in s ==> r == s
    ensures forall y :: y in r ==> y in s
    ensures forall y :: y in s && y != x ==> y in r
    ensures NoDup(s) ==> NoDup(r) && x !in r
  {
    var i := IndexOf(s, x);
    if i == -1 then s else
      assert s == s[..i] + [s[i]] + s[i + 1..];
      s[..i] + s[i + 1..]
  }

  /** `s` with `x` pushed at the end unless it is already there. */
  function Pushed<T(==)>(s: seq<T>, x: T): (r: seq<T>)
    ensures x in r
    ensures forall y :: y in s ==> y in r
    ensures forall y :: y in r ==> y in s || y == x
    ensures NoDup(s) ==> NoDup(r)
  {
    if x in s then s else s + [x]
  }

  lemma EmptyOrMember<T>(s: seq<T>)
    ensures s == [] || exists x :: x in s
  {
    if s != [] {
      assert s[0] in s;
    }
  }

  lemma TakeStep<T>(s: seq<T>, i: nat)
    requires i < |s|
    ensures s[..i + 1] == s[..i] + [s[i]]
  {}

  /** Splicing position `i` out of a list whose first `i + 1` elements are those of `s`. */
  lemma Splice<T>(s: seq<T>, i: nat, tail: seq<T>)
    requires i < |s|
    ensures var l := s[..i + 1] + tail;
            l[..i] + l[i + 1..] == s[..i] + tail && l == s[..i] + ([s[i]] + tail) && l[i] == s[i]
  {}

  lemma Member<T>(s: set<T>) returns (x: T)
    requires s != {}
    ensures x in s
  {
    x :| x in s;
  }

  lemma SubsetSize<T>(a: set<T>, b: set<T>)
    requires a <= b
    ensures |a| <= |b|
  {
    assert |b| == |b - a| + |a|;
  }

  /** Two majorities of the same `total` members share one. */
  lemma QuorumsMeet<T>(all: set<T>, a: set<T>, b: set<T>, total: nat) returns (v: T)
    requires a <= all && b <= all && |all| <= total && |a| > total / 2 && |b| > total / 2
    ensures v in a && v in b
  {
    if a * b == {} {
      SubsetSize(a + b, all);
      assert false;
    }
    v :| v in a * b;
  }
}
