/** The statistics object (internal/stats/stats.go). */
module Stats {
  import opened Json
  import opened Text
  import opened SourceUtil
  import opened Event
  import opened Counts
  import opened Sequences
  import opened TopList

  /** An event as the statistics read it. `bucket` is the minute its reception time falls in. */
  datatype Sample = Sample(source: string, severity: string, category: string, sourcetype: string, asset: string,
                           bucket: string, highValue: bool, assetIP: string, receivedAt: string, second: int)

  datatype SourceInfo = SourceInfo(assetName: string, assetIP: string, sourceType: string, eventCount: nat,
      lastSeen: string)

  datatype Rate = Rate(second: int, count: nat, eps: nat)

  datatype Totals = Totals(received: nat, security: nat, highValue: nat, bySource: Tally, bySeverity: Tally,
                           byCategory: Tally, bySourcetype: Tally, byAsset: Tally, timeline: Tally,
                           sources: map<string, SourceInfo>, rate: Rate, latest: string)

  function SampleOf(e: Event, bucket: string, second: int): Sample {
    var t := NormalizeSourceType(e.sourceType);
    var given := "splunk_sourcetype" in e.tags && e.tags["splunk_sourcetype"].Str?;
    var tag := if given then Trim(e.tags["splunk_sourcetype"].s) else "";
    Sample(t, e.severity, e.eventCategory,
           if tag != "" && !EqualFold(tag, UNKNOWN_SOURCETYPE) then tag else SplunkSourcetypeFor(t),
           e.assetName, bucket, "high_value" in e.tags && e.tags["high_value"] == Bool(true),
           e.assetIP, e.receivedAt, second)
  }

  const EMPTY := Totals(0, 0, 0, map[], map[], map[], map[], map[], map[], map[], Rate(0, 0, 0), "")

  function SourceOf(p: Sample): string {
    Or(p.assetIP, p.asset)
  }

  function Updated(sources: map<string, SourceInfo>, p: Sample): map<string, SourceInfo> {
    var k := SourceOf(p);
    sources[k := SourceInfo(p.asset, p.assetIP, p.source, (if k in sources then sources[k].eventCount else 0) + 1,
      p.receivedAt)]
  }

  /** `bumpRateLocked`. */
  function Bumped(r: Rate, now: int): Rate {
    if r.second != now then Rate(now, 1, r.count) else r.(count := r.count + 1)
  }

  function Later(latest: string, at: string): string {
    if at != "" && (latest == "" || Less(latest, at)) then at else latest
  }

  function Added(s: Totals, p: Sample): Totals {
    Totals(s.received + 1, s.security + (if p.category == "security" then 1 else 0),
           s.highValue + (if p.highValue then 1 else 0), Bump(s.bySource, p.source), Bump(s.bySeverity, p.severity),
           Bump(s.byCategory, p.category), Bump(s.bySourcetype, p.sourcetype), Bump(s.byAsset, p.asset),
           Bump(s.timeline, p.bucket), Updated(s.sources, p), Bumped(s.rate, p.second),
           Later(s.latest, p.receivedAt))
  }

  function AfterAll(ps: seq<Sample>): Totals {
    if ps == [] then EMPTY else Added(AfterAll(ps[..|ps| - 1]), ps[|ps| - 1])
  }

  class Stats {
    var totals: Totals

    constructor ()
      ensures totals == EMPTY
    {
      totals := EMPTY;
    }

    method Add(e: Event, bucket: string, second: int)
      modifies this
      ensures totals == Added(old(totals), SampleOf(e, bucket, second))
    {
      var p := SampleOf(e, bucket, second);
      Record(p);
    }

    method Record(p: Sample)
      modifies this
      ensures totals == Added(old(totals), p)
    {
      hide Bump, Updated, Later;
      var security, highValue, latest, rate := totals.security, totals.highValue, totals.latest, totals.rate;
      if p.category == "security" {
        security := security + 1;
      }
      if p.highValue {
        highValue := highValue + 1;
      }
      latest := Later(latest, p.receivedAt);
      if rate.second != p.second {
        rate := Rate(p.second, 0, rate.count);
      }
      rate := rate.(count := rate.count + 1);
      assert rate == Bumped(totals.rate, p.second);
      totals := Totals(totals.received + 1, security, highValue, Bump(totals.bySource, p.source),
                       Bump(totals.bySeverity, p.severity), Bump(totals.byCategory, p.category),
                       Bump(totals.bySourcetype, p.sourcetype), Bump(totals.byAsset, p.asset),
                       Bump(totals.timeline, p.bucket), Updated(totals.sources, p), rate, latest);
    }
  }

  // ----- what the counters mean -----

  function Project(ps: seq<Sample>, f: Sample -> string): (r: seq<string>)
    ensures |r| == |ps|
  {
    seq(|ps|, i requires 0 <= i < |ps| => f(ps[i]))
  }

  lemma ProjectOneMore(ps: seq<Sample>, p: Sample, f: Sample -> string)
    ensures Bump(TallyOf(Project(ps, f)), f(p)) == TallyOf(Project(ps + [p], f))
  {
    assert Project(ps + [p], f) == Project(ps, f) + [f(p)];
    BumpIsTally(Project(ps, f), f(p));
  }

  const SOURCE: Sample -> string := (p: Sample) => p.source
  const SEVERITY: Sample -> string := (p: Sample) => p.severity
  const CATEGORY: Sample -> string := (p: Sample) => p.category
  const SOURCETYPE: Sample -> string := (p: Sample) => p.sourcetype
  const ASSET: Sample -> string := (p: Sample) => p.asset
  const BUCKET: Sample -> string := (p: Sample) => p.bucket

  /** Each counter map is the tally of one field of everything added. */
  ghost predicate Tallies(s: Totals, ps: seq<Sample>) {
    && s.received == |ps|
    && s.bySource == TallyOf(Project(ps, SOURCE)) && s.bySeverity == TallyOf(Project(ps, SEVERITY))
    && s.byCategory == TallyOf(Project(ps, CATEGORY)) && s.bySourcetype == TallyOf(Project(ps, SOURCETYPE))
    && s.byAsset == TallyOf(Project(ps, ASSET)) && s.timeline == TallyOf(Project(ps, BUCKET))
    && s.security == Get(s.byCategory, "security")
  }

  lemma AddKeepsTallies(s: Totals, ps: seq<Sample>, p: Sample)
    requires Tallies(s, ps)
    ensures Tallies(Added(s, p), ps + [p])
  {
    hide Project, TallyOf, Updated;
    ProjectOneMore(ps, p, SOURCE);
    ProjectOneMore(ps, p, SEVERITY);
    ProjectOneMore(ps, p, CATEGORY);
    ProjectOneMore(ps, p, SOURCETYPE);
    ProjectOneMore(ps, p, ASSET);
    ProjectOneMore(ps, p, BUCKET);
  }

  lemma {:induction false} CountersAreTallies(ps: seq<Sample>)
    ensures Tallies(AfterAll(ps), ps)
  {
    hide *;
    if ps == [] {
      EmptyTotals();
      NothingIsTallied();
    } else {
      var front, last := ps[..|ps| - 1], ps[|ps| - 1];
      CountersAreTallies(front);
      AddKeepsTallies(AfterAll(front), front, last);
      assert ps == front + [last];
      AfterOneMore(ps);
    }
  }

  lemma EmptyTotals()
    ensures AfterAll([]) == EMPTY
  {
  }

  lemma AfterOneMore(ps: seq<Sample>)
    requires ps != []
    ensures AfterAll(ps) == Added(AfterAll(ps[..|ps| - 1]), ps[|ps| - 1])
  {
    hide Added;
  }

  lemma NothingIsTallied()
    ensures Tallies(EMPTY, [])
  {
    assert forall f :: Project([], f) == [];
    assert TallyOf([]) == map[];
  }

  function SourceCounts(sources: map<string, SourceInfo>): Tally {
    map k | k in sources :: sources[k].eventCount
  }

  lemma {:induction false} SourcesAddUp(ps: seq<Sample>)
    ensures Total(SourceCounts(AfterAll(ps).sources)) == |ps|
  {
    if ps == [] {
      assert SourceCounts(map[]) == map[];
    } else {
      var before, last := AfterAll(ps[..|ps| - 1]).sources, ps[|ps| - 1];
      SourcesAddUp(ps[..|ps| - 1]);
      assert SourceCounts(Updated(before, last)) == Bump(SourceCounts(before), SourceOf(last));
      TotalOfAdd(SourceCounts(before), SourceOf(last), 1);
    }
  }

  /** After any history every breakdown adds up to the events received. */
  lemma EveryBreakdownAddsUp(ps: seq<Sample>)
    ensures var s := AfterAll(ps);
      && s.received == Total(s.bySource) == Total(s.bySeverity) == Total(s.byCategory) == Total(s.bySourcetype)
      && s.received == Total(s.byAsset) == Total(s.timeline) == Total(SourceCounts(s.sources))
      && s.security == Get(s.byCategory, "security")
  {
    CountersAreTallies(ps);
    SourcesAddUp(ps);
    TotalOfTally(Project(ps, SOURCE));
    TotalOfTally(Project(ps, SEVERITY));
    TotalOfTally(Project(ps, CATEGORY));
    TotalOfTally(Project(ps, SOURCETYPE));
    TotalOfTally(Project(ps, ASSET));
    TotalOfTally(Project(ps, BUCKET));
  }

  /** No event has an empty source or sourcetype here. */
  lemma SampleIsNamed(e: Event, bucket: string, second: int)
    ensures SampleOf(e, bucket, second).source != "" && SampleOf(e, bucket, second).sourcetype != ""
  {
    NormalizeFixed(e.sourceType);
    SourcetypeIsNotEmpty(NormalizeSourceType(e.sourceType));
  }

  lemma SourcetypeIsNotEmpty(t: string)
    ensures SplunkSourcetypeFor(t) != ""
  {
  }

  lemma TopOfNamed(ps: seq<Sample>, order: seq<string>, byType: bool)
    requires ps != [] && forall p :: p in ps ==> p.source != "" && p.sourcetype != ""
    requires MapOrder(order, (if byType then AfterAll(ps).bySourcetype else AfterAll(ps).bySource).Keys)
    ensures var m := if byType then AfterAll(ps).bySourcetype else AfterAll(ps).bySource;
      IsMaximal(TopOver(order, m), m)
  {
    CountersAreTallies(ps);
    var f := if byType then SOURCETYPE else SOURCE;
    assert forall i :: 0 <= i < |ps| ==> ps[i] in ps;
    assert "" !in Project(ps, f);
    assert Project(ps, f)[0] in TallyOf(Project(ps, f));
    TopOneWithoutEmptyName(TallyOf(Project(ps, f)), order);
  }

  /** An event, the minute of its reception time and the second it is added in. */
  datatype Arrival = Arrival(event: Event, bucket: string, second: int)

  function SamplesOf(arrivals: seq<Arrival>): (ps: seq<Sample>)
    ensures |ps| == |arrivals|
  {
    seq(|arrivals|, i requires 0 <= i < |arrivals| =>
      SampleOf(arrivals[i].event, arrivals[i].bucket, arrivals[i].second))
  }

  /** After any events the two top lists show a largest count, in whatever order the map is read. */
  lemma TopListsAreRight(arrivals: seq<Arrival>, order: seq<string>, byType: bool)
    requires arrivals != []
    requires var s := AfterAll(SamplesOf(arrivals));
      MapOrder(order, (if byType then s.bySourcetype else s.bySource).Keys)
    ensures var s := AfterAll(SamplesOf(arrivals));
      var m := if byType then s.bySourcetype else s.bySource; IsMaximal(TopOver(order, m), m)
  {
    hide SampleOf, AfterAll, IsMaximal, TopOver, MapOrder;
    var ps := SamplesOf(arrivals);
    forall p | p in ps ensures p.source != "" && p.sourcetype != "" {
      var i :| 0 <= i < |ps| && ps[i] == p;
      SampleIsNamed(arrivals[i].event, arrivals[i].bucket, arrivals[i].second);
    }
    TopOfNamed(ps, order, byType);
  }

  // ----- the event rate -----

  /** How many of the last events came in the same second. */
  function LastRun(ps: seq<Sample>): nat {
    if ps == [] then 0
    else if |ps| > 1 && ps[|ps| - 2].second == ps[|ps| - 1].second then LastRun(ps[..|ps| - 1]) + 1
    else 1
  }

  lemma {:induction false} RunIsBounded(ps: seq<Sample>)
    ensures LastRun(ps) <= |ps| && (ps != [] ==> LastRun(ps) >= 1)
  {
    if ps != [] { RunIsBounded(ps[..|ps| - 1]); }
  }

  lemma RateOneMore(ps: seq<Sample>)
    requires ps != []
    ensures AfterAll(ps).rate == Bumped(AfterAll(ps[..|ps| - 1]).rate, ps[|ps| - 1].second)
  {
  }

  /** The rate reported is the length of the run of equal seconds before the current one. */
  lemma {:induction false} RateIsThePreviousRun(ps: seq<Sample>)
    requires ps != []
    ensures LastRun(ps) <= |ps|
    ensures var r := AfterAll(ps).rate;
      && r.second == ps[|ps| - 1].second && r.count == LastRun(ps) && r.eps == LastRun(ps[..|ps| - LastRun(ps)])
  {
    hide AfterAll, Added;
    RunIsBounded(ps);
    var front := ps[..|ps| - 1];
    RateOneMore(ps);
    if |ps| == 1 {
      EmptyTotals();
      assert front == [];
      assert ps[..0] == [];
    } else {
      RateIsThePreviousRun(front);
      RunIsBounded(front);
      if ps[|ps| - 2].second == ps[|ps| - 1].second {
        assert front[..|front| - LastRun(front)] == ps[..|ps| - LastRun(ps)];
      }
    }
  }
}
