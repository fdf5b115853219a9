/** Sequences: their end, their orders, and what a reordering keeps. */
module Sequences {

  /** The last `n` elements, or all there are. */
  function LastOf<T>(s: seq<T>, n: nat): seq<T> {
    if |s| > n then s[|s| - n..] else s
  }

  /** An order in which the keys of a map may be visited. */
  ghost predicate MapOrder(order: seq<string>, keys: set<string>) {
    (forall k :: k in order <==> k in keys) && (forall i, j :: 0 <= i < j < |order| ==> order[i] != order[j])
  }

  lemma OneKeyMore(order: seq<string>, keys: set<string>, k: string)
    requires MapOrder(order, keys) && k !in keys
    ensures MapOrder(order + [k], keys + {k}) && forall x :: x in order + [k] ==> x in keys + {k}
  {
  }

  lemma HeadOfConcat<T>(a: seq<T>, b: seq<T>)
    requires a != []
    ensures (a + b)[0] == a[0] && (a + b)[1..] == a[1..] + b
  {
  }

  lemma ThreeParts<T>(a: seq<T>, b: seq<T>, c: seq<T>)
    ensures a + b + c == a + (b + c)
  {
  }

  /** Where an element sits in a reordering, and what is left once it is taken out of both. */
  lemma Pluck<T>(front: seq<T>, x: T, b: seq<T>) returns (i: nat)
    requires multiset(front + [x]) == multiset(b)
    ensures i < |b| && b[i] == x
    ensures b == b[..i] + [x] + b[i + 1..]
    ensures multiset(front) == multiset(b[..i] + b[i + 1..])
  {
    assert x in multiset(front + [x]);
    i :| 0 <= i < |b| && b[i] == x;
    Remove(b, i);
    assert multiset(front + [x]) == multiset(front) + multiset{x};
    assert multiset(front) == multiset(b) - multiset{x};
  }

  lemma Remove<T>(b: seq<T>, i: nat)
    requires i < |b|
    ensures b == b[..i] + [b[i]] + b[i + 1..]
    ensures multiset(b) == multiset(b[..i] + b[i + 1..]) + multiset{b[i]}
  {
    assert b == b[..i] + [b[i]] + b[i + 1..];
    assert multiset(b[..i] + [b[i]] + b[i + 1..]) == multiset(b[..i]) + multiset{b[i]} + multiset(b[i + 1..]);
  }
}
