/** The two top lists: `topMessages` (internal/sourcecatalog/catalog.go) and `topOne`
    (internal/stats/stats.go). Both read a Go map, whose iteration order is arbitrary. */
module TopList {
  import opened Text
  import opened Counts
  import opened Sequences

  datatype Ranked = Ranked(name: string, count: nat)

  /** The order of `topMessages`: larger counts first, then by text. */
  predicate Ahead(a: Ranked, b: Ranked) {
    a.count > b.count || (a.count == b.count && Less(a.name, b.name))
  }

  predicate InRank(ps: seq<Ranked>) {
    forall i, j :: 0 <= i < j < |ps| ==> Ahead(ps[i], ps[j])
  }

  function Items(m: Tally): set<Ranked> {
    set k | k in m :: Ranked(k, m[k])
  }

  function Elements(ps: seq<Ranked>): set<Ranked> {
    set p | p in ps
  }

  function TopCount(m: Tally, limit: int): nat {
    if limit <= 0 || limit > |m| then |m| else limit
  }

  /** The first entries of a ranking of all of them. */
  ghost predicate IsTop(out: seq<Ranked>, m: Tally, limit: int) {
    exists ranking :: InRank(ranking) && Elements(ranking) == Items(m) && TopCount(m, limit) <= |ranking|
      && out == ranking[..TopCount(m, limit)]
  }

  lemma AheadIsStrict(a: Ranked, b: Ranked)
    ensures !(Ahead(a, b) && Ahead(b, a))
  {
    LessIrreflexive(a.name);
    if Less(a.name, b.name) && Less(b.name, a.name) { LessTransitive(a.name, b.name, a.name); }
  }

  lemma AheadTransitive(a: Ranked, b: Ranked, c: Ranked)
    requires Ahead(a, b) && Ahead(b, c)
    ensures Ahead(a, c)
  {
    if a.count == b.count == c.count { LessTransitive(a.name, b.name, c.name); }
  }

  lemma AheadTotal(a: Ranked, b: Ranked)
    requires a != b
    ensures Ahead(a, b) || Ahead(b, a)
  {
    LessTotal(a.name, b.name);
  }

  /** Two rankings of the same entries are the same list. */
  lemma {:induction false} RankingIsUnique(a: seq<Ranked>, b: seq<Ranked>)
    requires InRank(a) && InRank(b) && Elements(a) == Elements(b)
    ensures a == b
  {
    if a == [] {
      assert forall i :: 0 <= i < |b| ==> b[i] in Elements(b);
    } else {
      assert a[0] in Elements(b);
      assert b != [] && b[0] in Elements(a);
      var i :| 0 <= i < |a| && a[i] == b[0];
      var j :| 0 <= j < |b| && b[j] == a[0];
      AheadIsStrict(a[0], b[0]);
      assert a[0] == b[0];
      TailElements(a);
      TailElements(b);
      RankingIsUnique(a[1..], b[1..]);
    }
  }

  lemma TailElements(a: seq<Ranked>)
    requires InRank(a) && a != []
    ensures InRank(a[1..]) && Elements(a[1..]) == Elements(a) - {a[0]}
  {
    assert a == [a[0]] + a[1..];
    AheadIsStrict(a[0], a[0]);
    assert forall p :: p in a[1..] ==> Ahead(a[0], p);
  }

  /** The result does not depend on the order in which the map is read. */
  lemma TopIsUnique(a: seq<Ranked>, b: seq<Ranked>, m: Tally, limit: int)
    requires IsTop(a, m, limit) && IsTop(b, m, limit)
    ensures a == b
  {
    var ra :| InRank(ra) && Elements(ra) == Items(m) && TopCount(m, limit) <= |ra| && a == ra[..TopCount(m, limit)];
    var rb :| InRank(rb) && Elements(rb) == Items(m) && TopCount(m, limit) <= |rb| && b == rb[..TopCount(m, limit)];
    RankingIsUnique(ra, rb);
  }

  /** Every entry left out ranks behind every entry shown. */
  lemma TopBeatsTheRest(out: seq<Ranked>, m: Tally, limit: int, k: string, p: Ranked)
    requires IsTop(out, m, limit) && k in m && Ranked(k, m[k]) !in out && p in out
    ensures Ahead(p, Ranked(k, m[k]))
  {
    var n := TopCount(m, limit);
    var r :| InRank(r) && Elements(r) == Items(m) && n <= |r| && out == r[..n];
    assert Ranked(k, m[k]) in Items(m);
    var j :| 0 <= j < |r| && r[j] == Ranked(k, m[k]);
    var i :| 0 <= i < n && out[i] == p;
    assert forall l :: 0 <= l < n ==> out[l] == r[l];
  }

  /** The list in plain terms: as many entries as asked for, or all; the counts of their names; larger counts
      first and equal ones by name; and no name left out has a larger count, or an equal one and an earlier
      name. */
  lemma TopIs(out: seq<Ranked>, m: Tally, limit: int)
    requires IsTop(out, m, limit)
    ensures |out| == if 1 <= limit <= |m| then limit else |m|
    ensures forall p :: p in out ==> p.name in m && m[p.name] == p.count
    ensures forall i, j :: 0 <= i < j < |out| ==>
      out[i].count > out[j].count || (out[i].count == out[j].count && Less(out[i].name, out[j].name))
    ensures forall k, p :: k in m && p in out && Ranked(k, m[k]) !in out ==>
      p.count > m[k] || (p.count == m[k] && Less(p.name, k))
  {
    hide IsTop, Less;
    TopIsRanked(out, m, limit);
    forall k, p | k in m && p in out && Ranked(k, m[k]) !in out ensures Ahead(p, Ranked(k, m[k])) {
      TopBeatsTheRest(out, m, limit, k, p);
    }
  }

  lemma TopIsRanked(out: seq<Ranked>, m: Tally, limit: int)
    requires IsTop(out, m, limit)
    ensures |out| == TopCount(m, limit) && InRank(out) && forall p :: p in out ==> p.name in m && m[p.name] == p.count
  {
    hide Ahead;
    var n := TopCount(m, limit);
    var r :| InRank(r) && Elements(r) == Items(m) && n <= |r| && out == r[..n];
    forall p | p in out ensures p in Items(m) { assert p in Elements(r); }
  }

  /** One entry into a ranked list: what the library's sort does, an entry at a time. */
  lemma InsertedInRank(ps: seq<Ranked>, i: nat, x: Ranked)
    requires InRank(ps) && x !in ps && i <= |ps|
    requires (forall k :: 0 <= k < i ==> Ahead(ps[k], x)) && (i < |ps| ==> !Ahead(ps[i], x))
    ensures InRank(ps[..i] + [x] + ps[i..])
  {
    hide Ahead;
    if i < |ps| {
      AheadTotal(ps[i], x);
      forall k | i < k < |ps| ensures Ahead(x, ps[k]) { AheadTransitive(x, ps[i], ps[k]); }
    }
  }

  lemma InsertedElements(ps: seq<Ranked>, i: nat, x: Ranked)
    requires i <= |ps|
    ensures Elements(ps[..i] + [x] + ps[i..]) == Elements(ps) + {x}
  {
    assert ps == ps[..i] + ps[i..];
  }

  method Insert(ps: seq<Ranked>, x: Ranked) returns (qs: seq<Ranked>)
    requires InRank(ps) && x !in ps
    ensures InRank(qs) && Elements(qs) == Elements(ps) + {x} && |qs| == |ps| + 1
  {
    hide *;
    var i := 0;
    while i < |ps| && Ahead(ps[i], x)
      invariant 0 <= i <= |ps|
      invariant forall k :: 0 <= k < i ==> Ahead(ps[k], x)
    {
      i := i + 1;
    }
    InsertedInRank(ps, i, x);
    InsertedElements(ps, i, x);
    qs := ps[..i] + [x] + ps[i..];
  }

  function Some(m: Tally, keys: set<string>): set<Ranked>
    requires keys <= m.Keys
  {
    set k | k in keys :: Ranked(k, m[k])
  }

  lemma SomeMore(m: Tally, keys: set<string>, k: string)
    requires keys <= m.Keys && k in m && k !in keys
    ensures Some(m, keys + {k}) == Some(m, keys) + {Ranked(k, m[k])} && Ranked(k, m[k]) !in Some(m, keys)
  {
  }

  lemma NotAmong(ps: seq<Ranked>, x: Ranked)
    ensures x !in Elements(ps) ==> x !in ps
  {
  }

  lemma RankingIsTop(ranking: seq<Ranked>, m: Tally, limit: int)
    requires InRank(ranking) && |ranking| == |m.Keys| && Elements(ranking) == Some(m, m.Keys)
    ensures TopCount(m, limit) <= |ranking| && IsTop(ranking[..TopCount(m, limit)], m, limit)
  {
    hide InRank, Elements;
    assert Some(m, m.Keys) == Items(m);
  }

  lemma NothingRanked(m: Tally)
    ensures InRank([]) && Elements([]) == Some(m, {})
  {
  }

  method TopMessages(counts: Tally, limit: int) returns (out: seq<Ranked>)
    ensures IsTop(out, counts, limit)
  {
    hide *;
    var pairs: seq<Ranked> := [];
    ghost var done := {};
    var todo := counts.Keys;
    NothingRanked(counts);
    while todo != {}
      invariant todo <= counts.Keys && done == counts.Keys - todo
      invariant InRank(pairs) && |pairs| == |done|
      invariant Elements(pairs) == Some(counts, done)
    {
      var k :| k in todo;
      SomeMore(counts, done, k);
      NotAmong(pairs, Ranked(k, counts[k]));
      todo, done := todo - {k}, done + {k};
      pairs := Insert(pairs, Ranked(k, counts[k]));
    }
    RankingIsTop(pairs, counts, limit);
    out := pairs[..TopCount(counts, limit)];
  }

  // ----- topOne -----

  /** The loop of `topOne` over one iteration order. */
  function TopOver(order: seq<string>, m: Tally): Ranked
    requires forall k :: k in order ==> k in m
  {
    if order == [] then Ranked("", 0) else
    var best, k := TopOver(order[..|order| - 1], m), order[|order| - 1];
    if m[k] > best.count || best.name == "" then Ranked(k, m[k]) else best
  }

  lemma TopOverOneMore(order: seq<string>, m: Tally, k: string)
    requires (forall j :: j in order ==> j in m) && k in m
    ensures var best := TopOver(order, m);
      TopOver(order + [k], m) == if m[k] > best.count || best.name == "" then Ranked(k, m[k]) else best
  {
    assert (order + [k])[..|order|] == order;
  }

  method TopOne(m: Tally) returns (best: Ranked)
    ensures exists order | MapOrder(order, m.Keys) :: best == TopOver(order, m)
  {
    ghost var order: seq<string>, done := [], {};
    best := Ranked("", 0);
    var todo := m.Keys;
    assert MapOrder(order, done) && best == TopOver(order, m);
    hide *;
    while todo != {}
      invariant todo <= m.Keys && done == m.Keys - todo
      invariant MapOrder(order, done) && forall k :: k in order ==> k in done
      invariant best == TopOver(order, m)
    {
      var k :| k in todo;
      TopOverOneMore(order, m, k);
      OneKeyMore(order, done, k);
      todo, order, done := todo - {k}, order + [k], done + {k};
      if m[k] > best.count || best.name == "" {
        best := Ranked(k, m[k]);
      }
    }
    assert done == m.Keys;
  }

  predicate IsMaximal(r: Ranked, m: Tally) {
    r.name in m && m[r.name] == r.count && forall k :: k in m ==> m[k] <= r.count
  }

  /** The empty name does not stand alone at the top. */
  predicate EmptyNameIsHarmless(m: Tally) {
    "" !in m || m.Keys == {""} || exists k :: k in m && k != "" && m[k] >= m[""]
  }

  lemma SomeOrder(keys: set<string>) returns (order: seq<string>)
    ensures MapOrder(order, keys)
    decreases keys
  {
    if keys == {} {
      order := [];
    } else {
      var k :| k in keys;
      var rest := SomeOrder(keys - {k});
      order := rest + [k];
    }
  }

  /** With a name other than "" at the top, the loop ends there whatever the order. */
  lemma {:induction false} ReachesTheTop(order: seq<string>, m: Tally, top: string)
    requires (forall k :: k in order ==> k in m) && top in m && top != ""
    requires forall k :: k in m ==> m[k] <= m[top]
    ensures TopOver(order, m).count <= m[top]
    ensures top in order ==> TopOver(order, m).count == m[top] && TopOver(order, m).name != ""
    ensures order != [] ==> TopOver(order, m).name in m && m[TopOver(order, m).name] == TopOver(order, m).count
  {
    if order != [] {
      ReachesTheTop(order[..|order| - 1], m, top);
    }
  }

  /** Started on "", the loop never comes back to it. */
  lemma {:induction false} LeavesEmptyName(order: seq<string>, m: Tally)
    requires (forall k :: k in order ==> k in m) && |order| >= 2 && order[0] == ""
    requires forall i :: 1 <= i < |order| ==> order[i] != ""
    requires forall k :: k in m && k != "" ==> m[k] < m[""]
    ensures TopOver(order, m).name != "" && TopOver(order, m).count < m[""]
  {
    var front := order[..|order| - 1];
    if |order| == 2 {
      assert front[..0] == [] && front == [""];
      assert TopOver(front, m) == Ranked("", m[""]);
    } else {
      LeavesEmptyName(front, m);
    }
  }

  lemma GreatestName(m: Tally, keys: set<string>) returns (top: string)
    requires keys != {} && keys <= m.Keys
    ensures top in keys && forall k :: k in keys ==> m[k] <= m[top]
    decreases keys
  {
    var k :| k in keys;
    if keys == {k} {
      top := k;
    } else {
      var rest := GreatestName(m, keys - {k});
      top := if m[rest] >= m[k] then rest else k;
    }
  }

  /** `topOne` returns a largest count in every iteration order exactly when the empty name is harmless. */
  lemma TopOneIsMaximalIff(m: Tally)
    requires m != map[]
    ensures (forall order :: MapOrder(order, m.Keys) ==> IsMaximal(TopOver(order, m), m)) <==> EmptyNameIsHarmless(m)
  {
    if EmptyNameIsHarmless(m) {
      forall order | MapOrder(order, m.Keys) ensures IsMaximal(TopOver(order, m), m) { HarmlessIsMaximal(m, order); }
    } else {
      var order := BadOrder(m);
      assert MapOrder(order, m.Keys) && !IsMaximal(TopOver(order, m), m);
    }
  }

  lemma {:induction false} OnlyEmptyName(order: seq<string>, m: Tally)
    requires "" in m && forall i :: 0 <= i < |order| ==> order[i] == ""
    ensures TopOver(order, m) == Ranked("", if order == [] then 0 else m[""])
  {
    if order != [] { OnlyEmptyName(order[..|order| - 1], m); }
  }

  lemma HarmlessIsMaximal(m: Tally, order: seq<string>)
    requires m != map[] && EmptyNameIsHarmless(m) && MapOrder(order, m.Keys)
    ensures IsMaximal(TopOver(order, m), m)
  {
    if m.Keys == {""} {
      assert "" in m;
      forall i | 0 <= i < |order| ensures order[i] == "" { assert order[i] in m.Keys; }
      OnlyEmptyName(order, m);
    } else {
      var others := m.Keys - {""};
      assert others == {} ==> m.Keys <= {""};
      assert exists k :: k in m;
      var top := GreatestName(m, others);
      ReachesTheTop(order, m, top);
    }
  }

  lemma BadOrder(m: Tally) returns (order: seq<string>)
    requires !EmptyNameIsHarmless(m)
    ensures MapOrder(order, m.Keys) && !IsMaximal(TopOver(order, m), m)
  {
    var rest := SomeOrder(m.Keys - {""});
    order := [""] + rest;
    var k :| k in m && k != "";
    assert k in rest;
    LeavesEmptyName(order, m);
  }

  /** Counters that never saw an empty name: the loop is right whatever the order. */
  lemma TopOneWithoutEmptyName(m: Tally, order: seq<string>)
    requires m != map[] && "" !in m && MapOrder(order, m.Keys)
    ensures IsMaximal(TopOver(order, m), m)
  {
    HarmlessIsMaximal(m, order);
  }
}
