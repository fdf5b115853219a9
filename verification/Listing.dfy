/** Which sources the catalog lists, and what its summary says of them (internal/sourcecatalog/catalog.go), in
    the fields of the records. */
module Listing {
  import opened Text
  import opened SourceUtil
  import opened SourceTypes
  import opened Counts
  import opened Catalog
  import opened CatalogViews

  /** A source that reports to the SIEM itself. */
  predicate Direct(rec: SourceRecord) {
    NormalizeSourceType(rec.sourceType) == "ids"
  }

  /** A service of the DMZ, by its type or group, or a source yet to come, by its name. */
  predicate Internal(rec: SourceRecord) {
    || NormalizeSourceType(rec.sourceType) in SERVICES || rec.group == "DMZ Services"
    || Clean(rec.name) in {"firewall future", "ids future", "future ids"}
  }

  /** All are listed when disabled ones are asked for; else direct sources and internal ones each by their own
      option, enabled or not, and the others if they are enabled. */
  predicate Listed(rec: SourceRecord, opts: Options) {
    || opts.disabled || (Direct(rec) && opts.directSIEM) || (Internal(rec) && !Direct(rec) && opts.internal)
    || (rec.enabled && !Internal(rec) && !Direct(rec))
  }

  lemma IncludedIff(rec: SourceRecord, opts: Options)
    ensures Included(KindOf(rec), opts) <==> Listed(rec, opts)
  {
    hide NormalizeSourceType, Clean;
  }

  /** The records listed, in the order of the pass. */
  function ListedIn(recs: seq<SourceRecord>, opts: Options): seq<SourceRecord> {
    if recs == [] then []
    else ListedIn(recs[..|recs| - 1], opts) + if Listed(recs[|recs| - 1], opts) then [recs[|recs| - 1]] else []
  }

  /** How many records have a property. */
  function Count(recs: seq<SourceRecord>, has: SourceRecord -> bool): nat {
    if recs == [] then 0 else Count(recs[..|recs| - 1], has) + if has(recs[|recs| - 1]) then 1 else 0
  }

  const CONFIGURED: SourceRecord -> bool := (rec: SourceRecord) => rec.configured
  const DISCOVERED: SourceRecord -> bool := (rec: SourceRecord) => rec.discovered

  function HiddenIf(has: SourceRecord -> bool, opts: Options): SourceRecord -> bool {
    (rec: SourceRecord) => !Listed(rec, opts) && has(rec)
  }

  const INTERNAL: SourceRecord -> bool := (rec: SourceRecord) => Internal(rec)
  const DISABLED: SourceRecord -> bool := (rec: SourceRecord) => !rec.enabled
  const DIRECT: SourceRecord -> bool := (rec: SourceRecord) => Direct(rec)

  /** The counters of both views: of all records how many are configured, of the listed ones how many were
      discovered, and of the others how many for each reason. */
  ghost predicate CountersTell(c: Seen, recs: seq<SourceRecord>, listed: seq<SourceRecord>, opts: Options) {
    && c.visible == |listed| && c.hidden == |recs| - |listed| && c.configured == Count(recs, CONFIGURED)
    && c.discovered == Count(listed, DISCOVERED) && c.internalHidden == Count(recs, HiddenIf(INTERNAL, opts))
    && c.disabledHidden == Count(recs, HiddenIf(DISABLED, opts))
    && c.directHidden == Count(recs, HiddenIf(DIRECT, opts))
  }

  lemma CountMore(recs: seq<SourceRecord>, rec: SourceRecord, has: SourceRecord -> bool)
    ensures Count(recs + [rec], has) == Count(recs, has) + if has(rec) then 1 else 0
  {
    assert (recs + [rec])[..|recs|] == recs;
  }

  lemma SeenMoreTells(c: Seen, recs: seq<SourceRecord>, listed: seq<SourceRecord>, rec: SourceRecord, opts: Options)
    requires CountersTell(c, recs, listed, opts)
    ensures CountersTell(SeenMore(c, rec, KindOf(rec), opts), recs + [rec],
                         if Listed(rec, opts) then listed + [rec] else listed, opts)
  {
    hide Listed, Included, Internal, Direct, Count;
    IncludedIff(rec, opts);
    KindIs(rec);
    CountMore(recs, rec, CONFIGURED);
    CountMore(listed, rec, DISCOVERED);
    CountMore(recs, rec, HiddenIf(INTERNAL, opts));
    CountMore(recs, rec, HiddenIf(DISABLED, opts));
    CountMore(recs, rec, HiddenIf(DIRECT, opts));
  }

  lemma KindIs(rec: SourceRecord)
    ensures KindOf(rec).internal == Internal(rec) && KindOf(rec).direct == Direct(rec) &&
      KindOf(rec).enabled == rec.enabled
  {
    hide NormalizeSourceType, Clean;
  }

  /** A snapshot lists exactly the records its options ask for, each as often as it comes in the pass. */
  lemma {:induction false} SnapshotLists(recs: seq<SourceRecord>, opts: Options)
    ensures var snap := SnapshotOf(recs, KindOf, opts);
      snap.sources == ListedIn(recs, opts) && CountersTell(snap.seen, recs, ListedIn(recs, opts), opts)
  {
    if recs != [] {
      hide Listed, Included, KindOf, SeenMore, CountersTell;
      var front, rec := recs[..|recs| - 1], recs[|recs| - 1];
      assert recs == front + [rec];
      SnapshotLists(front, opts);
      IncludedIff(rec, opts);
      SeenMoreTells(SnapshotOf(front, KindOf, opts).seen, front, ListedIn(front, opts), rec, opts);
      assert ListedIn(front, opts) + [] == ListedIn(front, opts);
    }
  }

  lemma {:induction false} ListedAre(recs: seq<SourceRecord>, opts: Options)
    ensures forall rec :: rec in ListedIn(recs, opts) <==> rec in recs && Listed(rec, opts)
  {
    if recs != [] {
      hide Listed;
      assert recs == recs[..|recs| - 1] + [recs[|recs| - 1]];
      ListedAre(recs[..|recs| - 1], opts);
    }
  }

  /** So a record is in a snapshot exactly when it is listed; and a service that was disabled still is when
      services are asked for. */
  lemma SnapshotHasIff(recs: seq<SourceRecord>, opts: Options, rec: SourceRecord)
    ensures rec in SnapshotOf(recs, KindOf, opts).sources <==> rec in recs && Listed(rec, opts)
    ensures rec in recs && opts.internal && NormalizeSourceType(rec.sourceType) in SERVICES ==>
      rec in SnapshotOf(recs, KindOf, opts).sources
  {
    hide SnapshotOf, ListedIn, NormalizeSourceType, CountersTell;
    SnapshotLists(recs, opts);
    ListedAre(recs, opts);
  }

  // ----- the summary -----

  function SumOf(recs: seq<SourceRecord>, f: SourceRecord -> nat): nat {
    if recs == [] then 0 else SumOf(recs[..|recs| - 1], f) + f(recs[|recs| - 1])
  }

  function OfType(t: string): SourceRecord -> nat {
    (rec: SourceRecord) => if rec.sourceType == t then rec.eventCount else 0
  }

  function OfZone(z: string): SourceRecord -> nat {
    (rec: SourceRecord) => if rec.zone == z then rec.eventCount else 0
  }

  function OfSeverity(k: string): SourceRecord -> nat {
    (rec: SourceRecord) => Get(rec.severityCounts, k)
  }

  function OfCategory(k: string): SourceRecord -> nat {
    (rec: SourceRecord) => Get(rec.categoryCounts, k)
  }

  function InGroup(g: string, f: SourceRecord -> nat): SourceRecord -> nat {
    (rec: SourceRecord) => if rec.group == g then f(rec) else 0
  }

  const ONE: SourceRecord -> nat := (rec: SourceRecord) => 1
  const EVENTS: SourceRecord -> nat := (rec: SourceRecord) => rec.eventCount
  const IS_CONFIGURED: SourceRecord -> nat := (rec: SourceRecord) => if rec.configured then 1 else 0
  const IS_DISCOVERED: SourceRecord -> nat := (rec: SourceRecord) => if rec.discovered then 1 else 0

  /** Each breakdown holds the events of the listed records with that type, zone, severity or category. */
  ghost predicate BreakdownsTell(s: Summary, listed: seq<SourceRecord>, k: string) {
    && Get(s.byType, k) == SumOf(listed, OfType(k)) && Get(s.byZone, k) == SumOf(listed, OfZone(k))
    && Get(s.bySeverity, k) == SumOf(listed, OfSeverity(k)) && Get(s.byCategory, k) == SumOf(listed, OfCategory(k))
  }

  /** So does each group, of its own records. */
  ghost predicate GroupTells(s: Summary, listed: seq<SourceRecord>, g: string, k: string) {
    var group := GroupAt(s.byGroup, g);
    && group.sources == SumOf(listed, InGroup(g, ONE)) && group.events == SumOf(listed, InGroup(g, EVENTS))
    && group.configured == SumOf(listed, InGroup(g, IS_CONFIGURED))
    && group.discovered == SumOf(listed, InGroup(g, IS_DISCOVERED))
    && Get(group.severities, k) == SumOf(listed, InGroup(g, OfSeverity(k)))
    && Get(group.categories, k) == SumOf(listed, InGroup(g, OfCategory(k)))
  }

  lemma SumMore(recs: seq<SourceRecord>, rec: SourceRecord, f: SourceRecord -> nat)
    ensures SumOf(recs + [rec], f) == SumOf(recs, f) + f(rec)
  {
    assert (recs + [rec])[..|recs|] == recs;
  }

  lemma ShownBreaksDown(s: Summary, listed: seq<SourceRecord>, rec: SourceRecord, k: string)
    requires BreakdownsTell(s, listed, k)
    ensures BreakdownsTell(Shown(s, rec), listed + [rec], k)
  {
    hide SumOf, Merged, GroupsMore;
    SumMore(listed, rec, OfType(k));
    SumMore(listed, rec, OfZone(k));
    SumMore(listed, rec, OfSeverity(k));
    SumMore(listed, rec, OfCategory(k));
    GetMerged(s.bySeverity, rec.severityCounts, k);
    GetMerged(s.byCategory, rec.categoryCounts, k);
  }

  lemma ShownGroups(s: Summary, listed: seq<SourceRecord>, rec: SourceRecord, g: string, k: string)
    requires GroupTells(s, listed, g, k)
    ensures GroupTells(Shown(s, rec), listed + [rec], g, k)
  {
    hide SumOf, Merged, Get, Add;
    SumMore(listed, rec, InGroup(g, ONE));
    SumMore(listed, rec, InGroup(g, EVENTS));
    SumMore(listed, rec, InGroup(g, IS_CONFIGURED));
    SumMore(listed, rec, InGroup(g, IS_DISCOVERED));
    SumMore(listed, rec, InGroup(g, OfSeverity(k)));
    SumMore(listed, rec, InGroup(g, OfCategory(k)));
    GetMerged(GroupAt(s.byGroup, g).severities, rec.severityCounts, k);
    GetMerged(GroupAt(s.byGroup, g).categories, rec.categoryCounts, k);
  }

  lemma {:induction false} RollupTells(listed: seq<SourceRecord>, g: string, k: string)
    ensures BreakdownsTell(Rollup(listed), listed, k) && GroupTells(Rollup(listed), listed, g, k)
  {
    if listed != [] {
      hide BreakdownsTell, GroupTells, Shown;
      var front, rec := listed[..|listed| - 1], listed[|listed| - 1];
      assert listed == front + [rec];
      RollupTells(front, g, k);
      ShownBreaksDown(Rollup(front), front, rec, k);
      ShownGroups(Rollup(front), front, rec, g, k);
    }
  }

  /** The summary tells, under each name, the sums over the records listed, and counts the others. */
  lemma SummaryTells(recs: seq<SourceRecord>, opts: Options, g: string, k: string)
    ensures var s, listed := SummaryOf(recs, KindOf, opts), ListedIn(recs, opts);
      BreakdownsTell(s, listed, k) && GroupTells(s, listed, g, k) && CountersTell(s.seen, recs, listed, opts)
  {
    SummaryRollsUpSnapshot(recs, KindOf, opts);
    SnapshotLists(recs, opts);
    RollupTells(ListedIn(recs, opts), g, k);
    hide *;
    SameBreakdowns(Rollup(ListedIn(recs, opts)), SummaryOf(recs, KindOf, opts), ListedIn(recs, opts), g, k);
  }

  lemma SameBreakdowns(s: Summary, t: Summary, listed: seq<SourceRecord>, g: string, k: string)
    requires t == s.(seen := t.seen) && BreakdownsTell(s, listed, k) && GroupTells(s, listed, g, k)
    ensures BreakdownsTell(t, listed, k) && GroupTells(t, listed, g, k)
  {
  }
}
