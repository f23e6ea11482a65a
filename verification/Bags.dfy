/** The multiset that the elements of a sequence contribute together. */
module Bags {

  function Bag<T, U(==)>(f: T -> multiset<U>, s: seq<T>): (m: multiset<U>) {
    if s == [] then multiset{} else f(s[0]) + Bag(f, s[1..])
  }

  lemma {:induction false} BagAppend<T, U>(f: T -> multiset<U>, a: seq<T>, b: seq<T>, u: U)
    ensures Bag(f, a + b)[u] == Bag(f, a)[u] + Bag(f, b)[u]
  {
    if a == [] {
      assert a + b == b;
    } else {
      BagAppend(f, a[1..], b, u);
      assert (a + b)[0] == a[0] && (a + b)[1..] == a[1..] + b;
    }
  }

  lemma BagOne<T, U>(f: T -> multiset<U>, x: T, u: U)
    ensures Bag(f, [x])[u] == f(x)[u]
  {
  }

  /** Exchanging one element exchanges its contribution. */
  lemma {:induction false} BagUpdate<T, U>(f: T -> multiset<U>, s: seq<T>, i: nat, x: T, u: U)
    requires i < |s|
    ensures Bag(f, s[i := x])[u] + f(s[i])[u] == Bag(f, s)[u] + f(x)[u]
  {
    if i == 0 {
      assert s[i := x][1..] == s[1..];
    } else {
      BagUpdate(f, s[1..], i - 1, x, u);
      assert s[i := x][1..] == s[1..][i - 1 := x];
    }
  }

  lemma {:induction false} BagNone<T, U>(f: T -> multiset<U>, s: seq<T>)
    requires forall i :: 0 <= i < |s| ==> f(s[i]) == multiset{}
    ensures Bag(f, s) == multiset{}
  {
    if s == [] {
    } else {
      BagNone(f, s[1..]);
    }
  }
}
