/** What the statistics say of the events they counted (internal/stats/stats.go), in the events' fields. */
module Figures {
  import opened Json
  import opened Text
  import opened SourceUtil
  import opened Event
  import opened Counts
  import opened Stats

  /** How many of the events have a property. */
  function Count(es: seq<Arrival>, has: Arrival -> bool): nat {
    if es == [] then 0 else Count(es[..|es| - 1], has) + if has(es[|es| - 1]) then 1 else 0
  }

  /** The sourcetype an event is counted under: its own, unless that is blank, no text or the unknown one. */
  function Sourcetype(e: Event): string {
    var own := if "splunk_sourcetype" in e.tags && e.tags["splunk_sourcetype"].Str?
               then Trim(e.tags["splunk_sourcetype"].s) else "";
    if own == "" || ToLower(own) == "labshock:ot:unknown" then SplunkSourcetypeFor(e.sourceType) else own
  }

  /** The source an event is counted under: its address, failing that its name. */
  function SourceName(e: Event): string {
    if e.assetIP != "" then e.assetIP else e.assetName
  }

  function OfType(k: string): Arrival -> bool {
    (a: Arrival) => NormalizeSourceType(a.event.sourceType) == k
  }

  function OfSeverity(k: string): Arrival -> bool {
    (a: Arrival) => a.event.severity == k
  }

  function OfCategory(k: string): Arrival -> bool {
    (a: Arrival) => a.event.eventCategory == k
  }

  function OfSourcetype(k: string): Arrival -> bool {
    (a: Arrival) => Sourcetype(a.event) == k
  }

  function OfAsset(k: string): Arrival -> bool {
    (a: Arrival) => a.event.assetName == k
  }

  function OfMinute(k: string): Arrival -> bool {
    (a: Arrival) => a.bucket == k
  }

  function OfSource(k: string): Arrival -> bool {
    (a: Arrival) => SourceName(a.event) == k
  }

  const HIGH: Arrival -> bool :=
    (a: Arrival) => "high_value" in a.event.tags && a.event.tags["high_value"] == Bool(true)

  /** Each figure is the number of events with that type, severity, category, sourcetype, asset or minute. */
  ghost predicate FiguresTell(s: Totals, es: seq<Arrival>, k: string) {
    && s.received == |es| && s.security == Count(es, OfCategory("security")) && s.highValue == Count(es, HIGH)
    && Get(s.bySource, k) == Count(es, OfType(k)) && Get(s.bySeverity, k) == Count(es, OfSeverity(k))
    && Get(s.byCategory, k) == Count(es, OfCategory(k)) && Get(s.bySourcetype, k) == Count(es, OfSourcetype(k))
    && Get(s.byAsset, k) == Count(es, OfAsset(k)) && Get(s.timeline, k) == Count(es, OfMinute(k))
  }

  lemma CountMore(es: seq<Arrival>, a: Arrival, has: Arrival -> bool)
    ensures Count(es + [a], has) == Count(es, has) + if has(a) then 1 else 0
  {
    assert (es + [a])[..|es|] == es;
  }

  lemma SampleTells(a: Arrival)
    ensures var p := SampleOf(a.event, a.bucket, a.second);
      && p.source == NormalizeSourceType(a.event.sourceType) && p.sourcetype == Sourcetype(a.event)
      && p.highValue == HIGH(a)
      && SourceOf(p) == SourceName(a.event)
      && p == Sample(p.source, a.event.severity, a.event.eventCategory, p.sourcetype, a.event.assetName, a.bucket,
                     p.highValue, a.event.assetIP, a.event.receivedAt, a.second)
  {
    hide NormalizeSourceType, ToLower, Trim;
    NormalizeFixed(a.event.sourceType);
    UnknownIsLower();
  }

  lemma UnknownIsLower()
    ensures ToLower(UNKNOWN_SOURCETYPE) == "labshock:ot:unknown"
  {
  }

  lemma AddedTells(s: Totals, es: seq<Arrival>, a: Arrival, k: string)
    requires FiguresTell(s, es, k)
    ensures FiguresTell(Added(s, SampleOf(a.event, a.bucket, a.second)), es + [a], k)
  {
    hide Count, SampleOf, Updated, Bumped, Later, Sourcetype, NormalizeSourceType, SourceName;
    SampleTells(a);
    CountMore(es, a, OfCategory("security"));
    CountMore(es, a, HIGH);
    CountMore(es, a, OfType(k));
    CountMore(es, a, OfSeverity(k));
    CountMore(es, a, OfCategory(k));
    CountMore(es, a, OfSourcetype(k));
    CountMore(es, a, OfAsset(k));
    CountMore(es, a, OfMinute(k));
  }

  lemma AfterOne(es: seq<Arrival>)
    requires es != []
    ensures var n := |es| - 1;
      AfterAll(SamplesOf(es)) ==
        Added(AfterAll(SamplesOf(es[..n])), SampleOf(es[n].event, es[n].bucket, es[n].second))
  {
    hide Added, SampleOf;
    assert SamplesOf(es)[..|es| - 1] == SamplesOf(es[..|es| - 1]);
  }

  lemma NothingIsCounted(k: string)
    ensures FiguresTell(AfterAll(SamplesOf([])), [], k) && SourceTells(AfterAll(SamplesOf([])), [], k)
    ensures LatestTells(AfterAll(SamplesOf([])), [])
  {
    assert SamplesOf([]) == [];
  }

  /** After any events, in whatever order, each figure is the number of events it is about. */
  lemma {:induction false} EventsAreCounted(es: seq<Arrival>, k: string)
    ensures FiguresTell(AfterAll(SamplesOf(es)), es, k)
  {
    hide *;
    if es != [] {
      EventsAreCounted(es[..|es| - 1], k);
      AfterOne(es);
      AddedTells(AfterAll(SamplesOf(es[..|es| - 1])), es[..|es| - 1], es[|es| - 1], k);
      assert es == es[..|es| - 1] + [es[|es| - 1]];
    } else {
      NothingIsCounted(k);
    }
  }

  // ----- the sources and the latest time -----

  /** The last of the events from a source. */
  function LastFrom(es: seq<Arrival>, k: string): seq<Arrival> {
    if es == [] then [] else if SourceName(es[|es| - 1].event) == k then [es[|es| - 1]] else LastFrom(es[..|es| - 1], k)
  }

  /** A source is listed once it sent something, with what its last event says of it. */
  ghost predicate SourceTells(s: Totals, es: seq<Arrival>, k: string) {
    && (k in s.sources <==> LastFrom(es, k) != [])
    && (k in s.sources ==>
          var e := LastFrom(es, k)[0].event;
          s.sources[k] == SourceInfo(e.assetName, e.assetIP, NormalizeSourceType(e.sourceType), Count(es, OfSource(k)),
                                     e.receivedAt))
    && (k !in s.sources ==> Count(es, OfSource(k)) == 0)
  }

  lemma LastOneMore(es: seq<Arrival>, a: Arrival, k: string)
    ensures LastFrom(es + [a], k) == if SourceName(a.event) == k then [a] else LastFrom(es, k)
  {
    assert (es + [a])[..|es|] == es;
  }

  lemma AddedTellsSource(s: Totals, es: seq<Arrival>, a: Arrival, k: string)
    requires SourceTells(s, es, k)
    ensures SourceTells(Added(s, SampleOf(a.event, a.bucket, a.second)), es + [a], k)
  {
    hide Count, LastFrom, SampleOf, Bump, Bumped, Later, Sourcetype, NormalizeSourceType, SourceName, SourceOf;
    SampleTells(a);
    LastOneMore(es, a, k);
    CountMore(es, a, OfSource(k));
  }

  lemma {:induction false} SourcesAreListed(es: seq<Arrival>, k: string)
    ensures SourceTells(AfterAll(SamplesOf(es)), es, k)
  {
    hide *;
    if es != [] {
      SourcesAreListed(es[..|es| - 1], k);
      AfterOne(es);
      AddedTellsSource(AfterAll(SamplesOf(es[..|es| - 1])), es[..|es| - 1], es[|es| - 1], k);
      assert es == es[..|es| - 1] + [es[|es| - 1]];
    } else {
      NothingIsCounted(k);
    }
  }

  /** The latest time is the greatest reception time as texts compare, and empty only if all of them are. */
  ghost predicate LatestTells(s: Totals, es: seq<Arrival>) {
    && (s.latest != "" ==> exists a :: a in es && a.event.receivedAt == s.latest)
    && forall a :: a in es && a.event.receivedAt != "" ==> s.latest != "" && !Less(s.latest, a.event.receivedAt)
  }

  lemma AddedTellsLatest(s: Totals, es: seq<Arrival>, a: Arrival)
    requires LatestTells(s, es)
    ensures LatestTells(Added(s, SampleOf(a.event, a.bucket, a.second)), es + [a])
  {
    hide SampleOf, Bump, Bumped, Updated, Sourcetype, NormalizeSourceType, SourceName, SourceOf, Less;
    SampleTells(a);
    var at, t := a.event.receivedAt, Added(s, SampleOf(a.event, a.bucket, a.second));
    assert t.latest == Later(s.latest, at);
    assert a in es + [a];
    forall b | b in es + [a] && b.event.receivedAt != "" ensures t.latest != "" && !Less(t.latest, b.event.receivedAt) {
      LessIrreflexive(at);
      if t.latest == at && b in es && s.latest != "" && Less(at, b.event.receivedAt) {
        LessTransitive(s.latest, at, b.event.receivedAt);
      }
    }
    if t.latest != "" && t.latest != at {
      var b :| b in es && b.event.receivedAt == s.latest;
      assert b in es + [a];
    }
  }

  lemma {:induction false} LatestIsGreatest(es: seq<Arrival>)
    ensures LatestTells(AfterAll(SamplesOf(es)), es)
  {
    hide *;
    if es != [] {
      LatestIsGreatest(es[..|es| - 1]);
      AfterOne(es);
      AddedTellsLatest(AfterAll(SamplesOf(es[..|es| - 1])), es[..|es| - 1], es[|es| - 1]);
      assert es == es[..|es| - 1] + [es[|es| - 1]];
    } else {
      NothingIsCounted("");
    }
  }
}
