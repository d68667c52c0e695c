/** Sequences used as ordered collections without repetition. */
module Seqs {

  ghost predicate NoDup<T>(s: seq<T>)
  {
    forall i, j | 0 <= i < j < |s| :: s[i] != s[j]
  }

  /** The first position of x. */
  function Find<T(==)>(s: seq<T>, x: T): (k: nat)
    requires x in s
    ensures k < |s| && s[k] == x && x !in s[..k]
  {
    if s[0] == x then 0 else 1 + Find(s[1..], x)
  }

  /** The sequence with the first x taken out, if there is one. */
  function Without<T(==)>(s: seq<T>, x: T): (r: seq<T>)
    ensures x !in s ==> r == s
  {
    if s == [] then []
    else if s[0] == x then s[1..]
    else [s[0]] + Without(s[1..], x)
  }

  lemma {:induction false} WithoutAt<T>(s: seq<T>, k: nat)
    requires k < |s| && s[k] !in s[..k]
    ensures Without(s, s[k]) == s[..k] + s[k + 1..]
  {
    if k > 0 {
      assert s[1..][..k - 1] == s[..k][1..];
      WithoutAt(s[1..], k - 1);
      assert s[..k] + s[k + 1..] == [s[0]] + (s[1..][..k - 1] + s[1..][k..]);
    }
  }

  /** r is s with its first x taken out, everything else in its order. */
  ghost predicate TakenOut<T>(s: seq<T>, x: T, r: seq<T>)
  {
    exists k :: 0 <= k < |s| && s[k] == x && x !in s[..k] && r == s[..k] + s[k + 1..]
  }

  lemma EraseAt<T>(s: seq<T>, k: nat)
    requires NoDup(s) && k < |s|
    ensures var r := s[..k] + s[k + 1..]; NoDup(r) && forall x :: x in r <==> x in s && x != s[k]
  {
  }

  /** Taking out x takes out exactly x. */
  lemma WithoutExact<T>(s: seq<T>, x: T)
    requires NoDup(s) && x in s
    ensures var r := Without(s, x);
            && NoDup(r) && |r| == |s| - 1
            && forall y :: y in r <==> y in s && y != x
  {
    var k := Find(s, x);
    WithoutAt(s, k);
    EraseAt(s, k);
  }

  lemma WithoutTakesOut<T>(s: seq<T>, x: T)
    requires NoDup(s) && x in s
    ensures TakenOut(s, x, Without(s, x)) && x !in Without(s, x)
  {
    WithoutAt(s, Find(s, x));
    WithoutExact(s, x);
  }

  lemma {:induction false} WithoutMultiset<T>(s: seq<T>, x: T)
    requires x in s
    ensures multiset(Without(s, x)) == multiset(s) - multiset{x}
  {
    assert s == [s[0]] + s[1..];
    if s[0] != x {
      WithoutMultiset(s[1..], x);
    }
  }
}
