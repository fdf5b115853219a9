/** The two views of the catalog, `Snapshot` and `Summary` (internal/sourcecatalog/catalog.go). Each is
    a loop over the records in Go's arbitrary map order. */
module CatalogViews {
  import opened SourceUtil
  import opened Counts
  import opened Sequences
  import opened Catalog
  import CatalogLog

  datatype Options = Options(internal: bool, disabled: bool, directSIEM: bool)

  /** What decides whether a record is shown. */
  datatype Kind = Kind(direct: bool, internal: bool, enabled: bool)

  function KindOf(rec: SourceRecord): Kind {
    Kind(IsDirectSIEMSourceType(rec.sourceType),
         IsInternalDMZSourceType(rec.sourceType) || rec.group == "DMZ Services" || IsPlaceholderSourceName(rec.name),
         rec.enabled)
  }

  /** `shouldIncludeSource`. */
  predicate Included(k: Kind, opts: Options) {
    if opts.disabled then true
    else if k.direct then opts.directSIEM
    else if k.internal then opts.internal
    else k.enabled
  }

  /** The counters both views report. */
  datatype Seen = Seen(visible: nat, hidden: nat, configured: nat, discovered: nat,
                       internalHidden: nat, disabledHidden: nat, directHidden: nat)

  const NONE_SEEN := Seen(0, 0, 0, 0, 0, 0, 0)

  function SeenMore(c: Seen, rec: SourceRecord, k: Kind, opts: Options): Seen {
    var shown := Included(k, opts);
    Seen(c.visible + One(shown), c.hidden + One(!shown), c.configured + One(rec.configured),
         c.discovered + One(shown && rec.discovered), c.internalHidden + One(!shown && k.internal),
         c.disabledHidden + One(!shown && !k.enabled), c.directHidden + One(!shown && k.direct))
  }

  datatype Group = Group(sources: nat, configured: nat, discovered: nat, events: nat,
                         severities: Tally, categories: Tally)

  const NO_GROUP := Group(0, 0, 0, 0, map[], map[])

  datatype Summary = Summary(seen: Seen, byGroup: map<string, Group>, byType: Tally, byZone: Tally,
                             bySeverity: Tally, byCategory: Tally)

  datatype Snapshot = Snapshot(seen: Seen, sources: seq<SourceRecord>)

  function GroupAt(groups: map<string, Group>, name: string): Group {
    if name in groups then groups[name] else NO_GROUP
  }

  function GroupMore(g: Group, rec: SourceRecord): Group {
    Group(g.sources + 1, g.configured + One(rec.configured), g.discovered + One(rec.discovered),
          g.events + rec.eventCount, Merged(g.severities, rec.severityCounts), Merged(g.categories, rec.categoryCounts))
  }

  function Shown(s: Summary, rec: SourceRecord): Summary {
    Summary(s.seen, GroupsMore(s.byGroup, rec),
            Add(s.byType, rec.sourceType, rec.eventCount), Add(s.byZone, rec.zone, rec.eventCount),
            Merged(s.bySeverity, rec.severityCounts), Merged(s.byCategory, rec.categoryCounts))
  }

  function SummaryMore(s: Summary, rec: SourceRecord, k: Kind, opts: Options): Summary {
    var counted := s.(seen := SeenMore(s.seen, rec, k, opts));
    if Included(k, opts) then Shown(counted, rec) else counted
  }

  /** One pass over the records in a given order; `kind` classifies them. */
  function SummaryOf(recs: seq<SourceRecord>, kind: SourceRecord -> Kind, opts: Options): Summary {
    if recs == [] then Summary(NONE_SEEN, map[], map[], map[], map[], map[]) else
    var rec := recs[|recs| - 1];
    SummaryMore(SummaryOf(recs[..|recs| - 1], kind, opts), rec, kind(rec), opts)
  }

  function SnapshotOf(recs: seq<SourceRecord>, kind: SourceRecord -> Kind, opts: Options): Snapshot {
    if recs == [] then Snapshot(NONE_SEEN, []) else
    var rec, before := recs[|recs| - 1], SnapshotOf(recs[..|recs| - 1], kind, opts);
    Snapshot(SeenMore(before.seen, rec, kind(rec), opts),
             before.sources + if Included(kind(rec), opts) then [rec] else [])
  }

  // ----- the order of the pass does not matter -----

  function GroupsMore(groups: map<string, Group>, rec: SourceRecord): map<string, Group> {
    groups[rec.group := GroupMore(GroupAt(groups, rec.group), rec)]
  }

  lemma GroupMoreSwaps(g: Group, a: SourceRecord, b: SourceRecord)
    ensures GroupMore(GroupMore(g, a), b) == GroupMore(GroupMore(g, b), a)
  {
    MergedSwaps(g.severities, a.severityCounts, b.severityCounts);
    MergedSwaps(g.categories, a.categoryCounts, b.categoryCounts);
  }

  lemma GroupsSwap(groups: map<string, Group>, a: SourceRecord, b: SourceRecord)
    ensures GroupsMore(GroupsMore(groups, a), b) == GroupsMore(GroupsMore(groups, b), a)
  {
    hide GroupMore;
    GroupMoreSwaps(GroupAt(groups, a.group), a, b);
  }

  lemma ShownSwaps(s: Summary, a: SourceRecord, b: SourceRecord)
    ensures Shown(Shown(s, a), b) == Shown(Shown(s, b), a)
  {
    GroupsSwap(s.byGroup, a, b);
    AddSwaps(s.byType, a.sourceType, a.eventCount, b.sourceType, b.eventCount);
    AddSwaps(s.byZone, a.zone, a.eventCount, b.zone, b.eventCount);
    MergedSwaps(s.bySeverity, a.severityCounts, b.severityCounts);
    MergedSwaps(s.byCategory, a.categoryCounts, b.categoryCounts);
  }

  lemma SummarySwaps(s: Summary, a: SourceRecord, j: Kind, b: SourceRecord, k: Kind, opts: Options)
    ensures SummaryMore(SummaryMore(s, a, j, opts), b, k, opts) == SummaryMore(SummaryMore(s, b, k, opts), a, j, opts)
  {
    var c := s.(seen := SeenMore(SeenMore(s.seen, a, j, opts), b, k, opts));
    assert c.seen == SeenMore(SeenMore(s.seen, b, k, opts), a, j, opts);
    if Included(j, opts) && Included(k, opts) {
      ShownSwaps(c, a, b);
    }
  }

  /** A record in the middle may as well come last. */
  lemma {:induction false} LastIsAnywhere(pre: seq<SourceRecord>, rec: SourceRecord, post: seq<SourceRecord>,
                                          kind: SourceRecord -> Kind, opts: Options)
    ensures SummaryOf(pre + [rec] + post, kind, opts) ==
      SummaryMore(SummaryOf(pre + post, kind, opts), rec, kind(rec), opts)
    decreases |post|
  {
    if post == [] {
      assert (pre + [rec] + post)[..|pre|] == pre && pre + post == pre;
    } else {
      var front, last := post[..|post| - 1], post[|post| - 1];
      assert (pre + [rec] + post)[..|pre| + |post|] == pre + [rec] + front;
      assert (pre + post)[..|pre + post| - 1] == pre + front;
      LastIsAnywhere(pre, rec, front, kind, opts);
      SummarySwaps(SummaryOf(pre + front, kind, opts), rec, kind(rec), last, kind(last), opts);
    }
  }

  /** The summary depends on which records there are, not on the order of the pass. */
  lemma {:induction false} SummaryIgnoresOrder(a: seq<SourceRecord>, b: seq<SourceRecord>, kind: SourceRecord -> Kind,
      opts: Options)
    requires multiset(a) == multiset(b)
    ensures SummaryOf(a, kind, opts) == SummaryOf(b, kind, opts)
    decreases |a|
  {
    assert |multiset(a)| == |multiset(b)|;
    if a != [] {
      var front, last := a[..|a| - 1], a[|a| - 1];
      assert a == front + [last];
      var i := Pluck(front, last, b);
      SummaryIgnoresOrder(front, b[..i] + b[i + 1..], kind, opts);
      LastIsAnywhere(b[..i], last, b[i + 1..], kind, opts);
    }
  }

  // ----- Summary against Snapshot -----

  function Rollup(recs: seq<SourceRecord>): Summary {
    if recs == [] then Summary(NONE_SEEN, map[], map[], map[], map[], map[])
    else Shown(Rollup(recs[..|recs| - 1]), recs[|recs| - 1])
  }

  lemma ShownIgnoresSeen(s: Summary, t: Summary, rec: SourceRecord)
    requires t == s.(seen := t.seen)
    ensures Shown(t, rec) == Shown(s, rec).(seen := t.seen)
  {
  }

  /** On the same pass, the counters agree and the summary is the roll-up of the sources shown. */
  lemma {:induction false} SummaryRollsUpSnapshot(recs: seq<SourceRecord>, kind: SourceRecord -> Kind, opts: Options)
    ensures var snap := SnapshotOf(recs, kind, opts);
      SummaryOf(recs, kind, opts) == Rollup(snap.sources).(seen := snap.seen)
  {
    if recs != [] {
      var front, rec := recs[..|recs| - 1], recs[|recs| - 1];
      SummaryRollsUpSnapshot(front, kind, opts);
      var before, after := SnapshotOf(front, kind, opts), SnapshotOf(recs, kind, opts);
      if Included(kind(rec), opts) {
        assert after.sources[..|before.sources|] == before.sources;
        ShownIgnoresSeen(Rollup(before.sources), SummaryOf(front, kind, opts).(seen := after.seen), rec);
      } else {
        assert after.sources == before.sources;
      }
    }
  }

  // ----- passes over a catalog -----

  function RecordsIn(v: View, order: seq<string>): (r: seq<SourceRecord>)
    requires forall k :: k in order ==> k in v.sources
    ensures |r| == |order|
  {
    seq(|order|, i requires 0 <= i < |order| => v.sources[order[i]].rec)
  }

  lemma {:induction false} OrderCount(order: seq<string>, keys: set<string>)
    requires MapOrder(order, keys)
    ensures |order| == |keys| && multiset(order) == multiset(keys)
  {
    if order == [] {
      assert keys == {};
    } else {
      hide MapOrder;
      var front, last := order[..|order| - 1], order[|order| - 1];
      assert order == front + [last];
      OrderLast(order, keys);
      OrderCount(front, keys - {last});
    }
  }

  lemma RecordsOfSplit(v: View, a: seq<string>, k: string, b: seq<string>)
    requires forall j :: j in a + [k] + b ==> j in v.sources
    ensures (forall j :: j in a + b ==> j in v.sources) && k in v.sources
    ensures multiset(RecordsIn(v, a + [k] + b)) == multiset(RecordsIn(v, a + b)) + multiset{v.sources[k].rec}
  {
    assert k in a + [k] + b;
    forall j | j in a + b ensures j in v.sources { assert j in a + [k] + b; }
    assert RecordsIn(v, a + [k] + b) == RecordsIn(v, a) + [v.sources[k].rec] + RecordsIn(v, b);
    assert RecordsIn(v, a + b) == RecordsIn(v, a) + RecordsIn(v, b);
  }

  lemma {:induction false} SameKeysSameRecords(v: View, a: seq<string>, b: seq<string>)
    requires multiset(a) == multiset(b)
    requires (forall k :: k in a ==> k in v.sources) && (forall k :: k in b ==> k in v.sources)
    ensures multiset(RecordsIn(v, a)) == multiset(RecordsIn(v, b))
    decreases |a|
  {
    assert |multiset(a)| == |multiset(b)|;
    if a != [] {
      var front, last := a[..|a| - 1], a[|a| - 1];
      var i := Pluck(front, last, b) by { assert a == front + [last]; }
      assert a == front + [last] + [] && b == b[..i] + [last] + b[i + 1..];
      RecordsOfSplit(v, front, last, []);
      RecordsOfSplit(v, b[..i], last, b[i + 1..]);
      assert front + [] == front;
      SameKeysSameRecords(v, front, b[..i] + b[i + 1..]);
    }
  }

  lemma OrderOneMore(v: View, order: seq<string>, todo: set<string>, k: string)
    requires MapOrder(order, v.sources.Keys - todo) && k in todo && todo <= v.sources.Keys
    ensures MapOrder(order + [k], v.sources.Keys - (todo - {k}))
    ensures RecordsIn(v, order + [k]) == RecordsIn(v, order) + [v.sources[k].rec]
  {
    assert k !in order;
  }

  lemma PassOneMore(recs: seq<SourceRecord>, rec: SourceRecord, kind: SourceRecord -> Kind, opts: Options)
    ensures SummaryOf(recs + [rec], kind, opts) == SummaryMore(SummaryOf(recs, kind, opts), rec, kind(rec), opts)
    ensures SnapshotOf(recs + [rec], kind, opts) ==
      Snapshot(SeenMore(SnapshotOf(recs, kind, opts).seen, rec, kind(rec), opts),
               SnapshotOf(recs, kind, opts).sources + if Included(kind(rec), opts) then [rec] else [])
  {
    assert (recs + [rec])[..|recs|] == recs;
  }

  method TakeSnapshot(c: Catalog, opts: Options) returns (snap: Snapshot)
    requires c.Valid()
    ensures exists order | MapOrder(order, c.Contents().sources.Keys) ::
      snap == SnapshotOf(RecordsIn(c.Contents(), order), KindOf, opts)
  {
    hide Included, SeenMore, KindOf;
    ghost var v, order: seq<string> := c.Contents(), [];
    snap := Snapshot(NONE_SEEN, []);
    var todo := c.records.Keys;
    while todo != {}
      invariant todo <= c.records.Keys && c.Contents() == v
      invariant MapOrder(order, v.sources.Keys - todo)
      invariant snap == SnapshotOf(RecordsIn(v, order), KindOf, opts)
    {
      var k :| k in todo;
      OrderOneMore(v, order, todo, k);
      PassOneMore(RecordsIn(v, order), v.sources[k].rec, KindOf, opts);
      todo, order := todo - {k}, order + [k];
      var rec := c.records[k].rec;
      snap := ShowIn(snap, rec, KindOf(rec), opts);
    }
  }

  /** The body of the snapshot loop. */
  method ShowIn(before: Snapshot, rec: SourceRecord, k: Kind, opts: Options) returns (snap: Snapshot)
    ensures snap ==
      Snapshot(SeenMore(before.seen, rec, k, opts), before.sources + if Included(k, opts) then [rec] else [])
  {
    var c := before.seen;
    if rec.configured {
      c := c.(configured := c.configured + 1);
    }
    if Included(k, opts) {
      c := c.(visible := c.visible + 1);
      if rec.discovered {
        c := c.(discovered := c.discovered + 1);
      }
      return Snapshot(c, before.sources + [rec]);
    }
    c := c.(hidden := c.hidden + 1, internalHidden := c.internalHidden + One(k.internal),
            disabledHidden := c.disabledHidden + One(!k.enabled), directHidden := c.directHidden + One(k.direct));
    return Snapshot(c, before.sources);
  }

  lemma SummaryOfAnyOrder(v: View, a: seq<string>, b: seq<string>, kind: SourceRecord -> Kind, opts: Options)
    requires MapOrder(a, v.sources.Keys) && MapOrder(b, v.sources.Keys)
    ensures SummaryOf(RecordsIn(v, a), kind, opts) == SummaryOf(RecordsIn(v, b), kind, opts)
  {
    OrderCount(a, v.sources.Keys);
    OrderCount(b, v.sources.Keys);
    SameKeysSameRecords(v, a, b);
    SummaryIgnoresOrder(RecordsIn(v, a), RecordsIn(v, b), kind, opts);
  }

  /** Whatever order the map is visited in, the result is the summary in every order. */
  method Summarize(c: Catalog, opts: Options) returns (s: Summary)
    requires c.Valid()
    ensures forall order | MapOrder(order, c.Contents().sources.Keys) ::
      s == SummaryOf(RecordsIn(c.Contents(), order), KindOf, opts)
  {
    ghost var v, order: seq<string> := c.Contents(), [];
    s := Summary(NONE_SEEN, map[], map[], map[], map[], map[]);
    var todo := c.records.Keys;
    while todo != {}
      invariant todo <= c.records.Keys && c.Contents() == v
      invariant MapOrder(order, v.sources.Keys - todo)
      invariant s == SummaryOf(RecordsIn(v, order), KindOf, opts)
    {
      var k :| k in todo;
      OrderOneMore(v, order, todo, k);
      PassOneMore(RecordsIn(v, order), v.sources[k].rec, KindOf, opts);
      todo, order := todo - {k}, order + [k];
      var rec := c.records[k].rec;
      s := SumIn(s, rec, KindOf(rec), opts);
    }
    forall other | MapOrder(other, v.sources.Keys) ensures s == SummaryOf(RecordsIn(v, other), KindOf, opts) {
      SummaryOfAnyOrder(v, order, other, KindOf, opts);
    }
  }

  /** The body of the summary loop. */
  method SumIn(before: Summary, rec: SourceRecord, k: Kind, opts: Options) returns (s: Summary)
    ensures s == SummaryMore(before, rec, k, opts)
  {
    hide SeenMore, Included, Merged, Add;
    s := before.(seen := SeenMore(before.seen, rec, k, opts));
    if !Included(k, opts) {
      return;
    }
    var g := GroupAt(s.byGroup, rec.group);
    g := g.(sources := g.sources + 1, configured := g.configured + One(rec.configured),
            discovered := g.discovered + One(rec.discovered), events := g.events + rec.eventCount);
    var severities := MergeCounts(g.severities, rec.severityCounts);
    var categories := MergeCounts(g.categories, rec.categoryCounts);
    var bySeverity := MergeCounts(s.bySeverity, rec.severityCounts);
    var byCategory := MergeCounts(s.byCategory, rec.categoryCounts);
    s := Summary(s.seen, s.byGroup[rec.group := g.(severities := severities, categories := categories)],
                 Add(s.byType, rec.sourceType, rec.eventCount), Add(s.byZone, rec.zone, rec.eventCount),
                 bySeverity, byCategory);
  }

  /** The two views of one catalog agree, in whatever orders they read it: same counters, and the
      summary is the roll-up of the sources the snapshot lists. */
  lemma SummaryRefinesSnapshot(v: View, a: seq<string>, b: seq<string>, kind: SourceRecord -> Kind, opts: Options)
    requires MapOrder(a, v.sources.Keys) && MapOrder(b, v.sources.Keys)
    ensures var snap := SnapshotOf(RecordsIn(v, a), kind, opts);
      SummaryOf(RecordsIn(v, b), kind, opts) == Rollup(snap.sources).(seen := snap.seen)
  {
    SummaryOfAnyOrder(v, a, b, kind, opts);
    SummaryRollsUpSnapshot(RecordsIn(v, a), kind, opts);
  }

  // ----- conservation -----

  function GroupSources(groups: map<string, Group>): Tally {
    map g | g in groups :: groups[g].sources
  }

  function GroupEvents(groups: map<string, Group>): Tally {
    map g | g in groups :: groups[g].events
  }

  /** Records whose counters balance, as every record of a catalog does (`RecordTotals`). */
  ghost predicate Balanced(rec: SourceRecord) {
    rec.eventCount == Total(rec.severityCounts) == Total(rec.categoryCounts)
  }

  ghost predicate SummaryBalances(s: Summary) {
    && Total(s.byType) == Total(s.byZone) == Total(s.bySeverity) == Total(s.byCategory) == Total(GroupEvents(s.byGroup))
    && Total(GroupSources(s.byGroup)) == s.seen.visible
    && s.seen.hidden <= s.seen.internalHidden + s.seen.disabledHidden + s.seen.directHidden
  }

  lemma ShownBalances(s: Summary, rec: SourceRecord)
    requires Balanced(rec)
    ensures var t := Shown(s, rec);
      && Total(t.byType) == Total(s.byType) + rec.eventCount && Total(t.byZone) == Total(s.byZone) + rec.eventCount
      && Total(t.bySeverity) == Total(s.bySeverity) + rec.eventCount
      && Total(t.byCategory) == Total(s.byCategory) + rec.eventCount
  {
    TotalOfAdd(s.byType, rec.sourceType, rec.eventCount);
    TotalOfAdd(s.byZone, rec.zone, rec.eventCount);
    TotalOfMerged(s.bySeverity, rec.severityCounts);
    TotalOfMerged(s.byCategory, rec.categoryCounts);
  }

  lemma GroupSourcesBalance(groups: map<string, Group>, rec: SourceRecord)
    ensures Total(GroupSources(GroupsMore(groups, rec))) == Total(GroupSources(groups)) + 1
  {
    hide Merged, Total;
    assert GroupSources(GroupsMore(groups, rec)) == Add(GroupSources(groups), rec.group, 1);
    TotalOfAdd(GroupSources(groups), rec.group, 1);
  }

  lemma GroupEventsMore(groups: map<string, Group>, rec: SourceRecord)
    ensures GroupEvents(GroupsMore(groups, rec)) == Add(GroupEvents(groups), rec.group, rec.eventCount)
  {
    hide Merged;
  }

  lemma GroupsBalance(groups: map<string, Group>, rec: SourceRecord)
    ensures Total(GroupSources(GroupsMore(groups, rec))) == Total(GroupSources(groups)) + 1
    ensures Total(GroupEvents(GroupsMore(groups, rec))) == Total(GroupEvents(groups)) + rec.eventCount
  {
    hide Total;
    GroupSourcesBalance(groups, rec);
    GroupEventsMore(groups, rec);
    TotalOfAdd(GroupEvents(groups), rec.group, rec.eventCount);
  }

  /** Every breakdown of a summary adds up to the same number of events, the groups add up to the
      visible sources, and every hidden source is counted under a reason. */
  lemma {:induction false} SummaryAddsUp(recs: seq<SourceRecord>, kind: SourceRecord -> Kind, opts: Options)
    requires forall rec :: rec in recs ==> Balanced(rec)
    ensures SummaryBalances(SummaryOf(recs, kind, opts))
    ensures SummaryOf(recs, kind, opts).seen.visible + SummaryOf(recs, kind, opts).seen.hidden == |recs|
  {
    if recs == [] {
      assert GroupSources(map[]) == map[] && GroupEvents(map[]) == map[];
    } else {
      hide *;
      var front, rec := recs[..|recs| - 1], recs[|recs| - 1];
      assert recs == front + [rec];
      SummaryAddsUp(front, kind, opts);
      PassOneMore(front, rec, kind, opts);
      MoreBalances(SummaryOf(front, kind, opts), rec, kind(rec), opts);
    }
  }

  lemma MoreBalances(s: Summary, rec: SourceRecord, k: Kind, opts: Options)
    requires Balanced(rec) && SummaryBalances(s)
    ensures var t := SummaryMore(s, rec, k, opts);
      SummaryBalances(t) && t.seen.visible + t.seen.hidden == s.seen.visible + s.seen.hidden + 1
  {
    hide Total, Add, Merged, GroupsMore, Balanced;
    if Included(k, opts) {
      ShownBalances(s, rec);
      GroupsBalance(s.byGroup, rec);
    }
  }

  /** The events of a list of records. */
  function EventsOf(recs: seq<SourceRecord>): nat {
    if recs == [] then 0 else EventsOf(recs[..|recs| - 1]) + recs[|recs| - 1].eventCount
  }

  function CountsAt(v: View, keys: set<string>): Tally
    requires keys <= v.sources.Keys
  {
    map k | k in keys :: v.sources[k].rec.eventCount
  }

  lemma {:induction false} RecordsAddUp(v: View, order: seq<string>, keys: set<string>)
    requires MapOrder(order, keys) && keys <= v.sources.Keys
    ensures EventsOf(RecordsIn(v, order)) == Total(CountsAt(v, keys))
  {
    if order == [] {
      assert CountsAt(v, keys) == map[];
    } else {
      hide *;
      var front, k := order[..|order| - 1], order[|order| - 1];
      OrderLast(order, keys);
      RecordsAddUp(v, front, keys - {k});
      EventsOneMore(v, front, k);
      CountsWithout(v, keys, k);
      TotalSplit(CountsAt(v, keys), k);
    }
  }

  lemma EventsOneMore(v: View, order: seq<string>, k: string)
    requires (forall j :: j in order ==> j in v.sources) && k in v.sources
    ensures EventsOf(RecordsIn(v, order + [k])) == EventsOf(RecordsIn(v, order)) + v.sources[k].rec.eventCount
  {
    assert RecordsIn(v, order + [k])[..|order|] == RecordsIn(v, order);
  }

  lemma OrderLast(order: seq<string>, keys: set<string>)
    requires MapOrder(order, keys) && order != []
    ensures order == order[..|order| - 1] + [order[|order| - 1]]
    ensures order[|order| - 1] in keys && MapOrder(order[..|order| - 1], keys - {order[|order| - 1]})
    ensures forall k :: k in order[..|order| - 1] ==> k in keys
  {
    var front, last := order[..|order| - 1], order[|order| - 1];
    assert order == front + [last];
    assert last !in front;
  }

  lemma CountsWithout(v: View, keys: set<string>, k: string)
    requires keys <= v.sources.Keys && k in keys
    ensures k in CountsAt(v, keys) && CountsAt(v, keys)[k] == v.sources[k].rec.eventCount
    ensures CountsAt(v, keys) - {k} == CountsAt(v, keys - {k})
  {
  }

  lemma {:induction false} AllShown(recs: seq<SourceRecord>, kind: SourceRecord -> Kind, opts: Options)
    requires opts.disabled
    ensures var s := SummaryOf(recs, kind, opts); Total(s.byType) == EventsOf(recs) && s.seen.hidden == 0
  {
    if recs != [] {
      var front, rec := recs[..|recs| - 1], recs[|recs| - 1];
      AllShown(front, kind, opts);
      TotalOfAdd(SummaryOf(front, kind, opts).byType, rec.sourceType, rec.eventCount);
    }
  }

  lemma EverySourceAddsUp(ops: seq<CatalogLog.Op>, order: seq<string>)
    requires MapOrder(order, CatalogLog.After(ops).sources.Keys)
    ensures EventsOf(RecordsIn(CatalogLog.After(ops), order)) == |CatalogLog.Accepted(ops)|
  {
    var v := CatalogLog.After(ops);
    RecordsAddUp(v, order, v.sources.Keys);
    CatalogLog.CountsAreAccepted(ops);
    assert CountsAt(v, v.sources.Keys) == CatalogLog.EventCounts(v);
  }

  /** The summary of any catalog adds up, and when disabled sources are shown it hides none and accounts for
      every accepted event. */
  lemma CatalogAddsUp(ops: seq<CatalogLog.Op>, order: seq<string>, kind: SourceRecord -> Kind, opts: Options)
    requires MapOrder(order, CatalogLog.After(ops).sources.Keys)
    ensures var s := SummaryOf(RecordsIn(CatalogLog.After(ops), order), kind, opts);
      && SummaryBalances(s) && s.seen.visible + s.seen.hidden == |CatalogLog.After(ops).sources|
      && (opts.disabled ==> s.seen.hidden == 0 && Total(s.byType) == |CatalogLog.Accepted(ops)|)
  {
    hide SummaryOf, SummaryBalances, CatalogLog.After, CatalogLog.Accepted, Total;
    var v := CatalogLog.After(ops);
    if opts.disabled {
      AllShown(RecordsIn(v, order), kind, opts);
      EverySourceAddsUp(ops, order);
    }
    OrderCount(order, v.sources.Keys);
    forall rec | rec in RecordsIn(v, order) ensures Balanced(rec) {
      var i :| 0 <= i < |order| && rec == RecordsIn(v, order)[i];
      CatalogLog.RecordTotals(ops, order[i]);
    }
    SummaryAddsUp(RecordsIn(v, order), kind, opts);
  }

  // ----- visibility -----

  predicate AtMost(a: Options, b: Options) {
    (a.internal ==> b.internal) && (a.disabled ==> b.disabled) && (a.directSIEM ==> b.directSIEM)
  }

  /** Asking for more never hides a source: the shorter list is a sub-list of the longer one. */
  lemma {:induction false} MoreOptionsShowMore(recs: seq<SourceRecord>, kind: SourceRecord -> Kind, a: Options,
      b: Options)
    requires AtMost(a, b)
    ensures multiset(SnapshotOf(recs, kind, a).sources) <= multiset(SnapshotOf(recs, kind, b).sources)
    ensures b.disabled ==> SnapshotOf(recs, kind, b).sources == recs
  {
    if recs != [] {
      assert recs == recs[..|recs| - 1] + [recs[|recs| - 1]];
      MoreOptionsShowMore(recs[..|recs| - 1], kind, a, b);
    }
  }
}
