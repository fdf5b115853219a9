/** Counters keyed by strings: Go's `m[k]++`, `cloneCounts`, `mergeCounts` and their totals. */
module Counts {

  type Tally = map<string, nat>

  function One(b: bool): nat {
    if b then 1 else 0
  }

  function Get(m: Tally, k: string): nat {
    if k in m then m[k] else 0
  }

  function Add(m: Tally, k: string, n: nat): Tally {
    m[k := Get(m, k) + n]
  }

  function Bump(m: Tally, k: string): Tally {
    Add(m, k, 1)
  }

  /** How often each string occurs in a list: the meaning a counter map should have. */
  function TallyOf(s: seq<string>): Tally {
    map k | k in s :: multiset(s)[k]
  }

  lemma BumpIsTally(s: seq<string>, k: string)
    ensures Bump(TallyOf(s), k) == TallyOf(s + [k])
  {
    assert multiset(s + [k]) == multiset(s) + multiset{k};
    assert forall x :: x in s + [k] <==> x in s || x == k;
    assert k !in s ==> multiset(s)[k] == 0;
  }

  /** A tally does not depend on the order of the list. */
  lemma TallyIgnoresOrder(s: seq<string>, t: seq<string>)
    requires multiset(s) == multiset(t)
    ensures TallyOf(s) == TallyOf(t)
  {
    assert forall k :: k in s <==> k in multiset(s);
    assert forall k :: k in t <==> k in multiset(t);
  }

  ghost function Total(m: Tally): nat {
    if m == map[] then 0 else
    var k :| k in m;
    m[k] + Total(m - {k})
  }

  lemma {:induction false} TotalSplit(m: Tally, k: string)
    requires k in m
    ensures Total(m) == m[k] + Total(m - {k})
    decreases |m|
  {
    var j :| j in m && Total(m) == m[j] + Total(m - {j});
    if j != k {
      TotalSplit(m - {j}, k);
      TotalSplit(m - {k}, j);
      assert m - {j} - {k} == m - {k} - {j};
    }
  }

  lemma TotalOfAdd(m: Tally, k: string, n: nat)
    ensures Total(Add(m, k, n)) == Total(m) + n
  {
    var after := Add(m, k, n);
    TotalSplit(after, k);
    assert after - {k} == m - {k};
    if k in m {
      TotalSplit(m, k);
    } else {
      assert m - {k} == m;
    }
  }

  lemma {:induction false} TotalOfTally(s: seq<string>)
    ensures Total(TallyOf(s)) == |s|
  {
    if s != [] {
      var front, k := s[..|s| - 1], s[|s| - 1];
      assert s == front + [k];
      TotalOfTally(front);
      BumpIsTally(front, k);
      TotalOfAdd(TallyOf(front), k, 1);
    } else {
      assert TallyOf(s) == map[];
    }
  }

  /** `mergeCounts`. */
  function Merged(a: Tally, b: Tally): Tally {
    map k | k in a.Keys + b.Keys :: Get(a, k) + Get(b, k)
  }

  method MergeCounts(dst: Tally, src: Tally) returns (out: Tally)
    ensures out == Merged(dst, src)
  {
    out := dst;
    var todo := src.Keys;
    while todo != {}
      invariant todo <= src.Keys
      invariant out.Keys == dst.Keys + (src.Keys - todo)
      invariant forall k :: k in out ==> out[k] == Get(dst, k) + if k in todo then 0 else Get(src, k)
    {
      var k :| k in todo;
      todo := todo - {k};
      out := Add(out, k, src[k]);
    }
  }

  lemma MergedStep(a: Tally, b: Tally, k: string)
    requires k in b
    ensures Merged(a, b) == Add(Merged(a, b - {k}), k, b[k])
  {
    var rest := b - {k};
    assert forall j :: j != k ==> Get(rest, j) == Get(b, j);
    assert Get(rest, k) == 0;
  }

  lemma {:induction false} TotalOfMerged(a: Tally, b: Tally)
    ensures Total(Merged(a, b)) == Total(a) + Total(b)
    decreases |b|
  {
    if b == map[] {
      assert Merged(a, b) == a;
    } else {
      var k :| k in b;
      TotalOfMerged(a, b - {k});
      TotalSplit(b, k);
      TotalOfAdd(Merged(a, b - {k}), k, b[k]);
      MergedStep(a, b, k);
    }
  }

  lemma MergedSwaps(a: Tally, b: Tally, c: Tally)
    ensures Merged(Merged(a, b), c) == Merged(Merged(a, c), b)
  {
    var l, r := Merged(Merged(a, b), c), Merged(Merged(a, c), b);
    assert l.Keys == r.Keys;
    forall k | k in l ensures l[k] == r[k] {
      GetMerged(a, b, k);
      GetMerged(a, c, k);
    }
  }

  lemma GetMerged(a: Tally, b: Tally, k: string)
    ensures Get(Merged(a, b), k) == Get(a, k) + Get(b, k)
  {
  }

  lemma AddSwaps(m: Tally, j: string, n: nat, k: string, o: nat)
    ensures Add(Add(m, j, n), k, o) == Add(Add(m, k, o), j, n)
  {
  }
}
