/** Python list operations the services rely on. */
module Seqs {

  /** `s.index(x)`: the position of the first occurrence of `x`. */
  function IndexOf<T(==)>(s: seq<T>, x: T): (i: nat)
    requires x in s
    ensures i < |s| && s[i] == x
    ensures forall j :: 0 <= j < i ==> s[j] != x
  {
    if s[0] == x then 0 else 1 + IndexOf(s[1..], x)
  }

  /** `s.remove(x)` on a list holding `x`: the first occurrence goes, the rest keeps its order. */
  function RemoveFirst<T(==)>(s: seq<T>, x: T): (r: seq<T>)
    requires x in s
    ensures r == s[..IndexOf(s, x)] + s[IndexOf(s, x) + 1..]
  {
    if s[0] == x then s[1..]
    else
      var k := IndexOf(s[1..], x);
      assert IndexOf(s, x) == k + 1;
      assert s[1..][..k] == s[1..k + 1] && s[1..][k + 1..] == s[k + 2..];
      [s[0]] + RemoveFirst(s[1..], x)
  }

  /** Removing one occurrence takes exactly one copy of `x` out of the multiset of elements. */
  lemma {:induction false} RemoveFirstMultiset<T>(s: seq<T>, x: T)
    requires x in s
    ensures multiset(RemoveFirst(s, x)) == multiset(s) - multiset{x}
    ensures |RemoveFirst(s, x)| == |s| - 1
  {
    var i := IndexOf(s, x);
    assert s == s[..i] + [x] + s[i + 1..];
    calc {
      multiset(s);
      multiset(s[..i] + [x] + s[i + 1..]);
      multiset(s[..i]) + multiset{x} + multiset(s[i + 1..]);
    }
  }

  /** A connection appended last and then removed leaves the list as it was, provided it was not there before. */
  lemma {:induction false} RemoveFirstAfterAppend<T>(s: seq<T>, x: T)
    requires x !in s
    ensures x in s + [x]
    ensures RemoveFirst(s + [x], x) == s
  {
    var t := s + [x];
    var i := IndexOf(t, x);
    assert i == |s|;
    assert t[..i] == s;
  }
}
