/** The catalog is a function of the log: whatever order observations and configuration merges come
    in, a record holds exactly the tallies of the events observed under its key. */
module CatalogLog {
  import opened Json
  import opened Wrappers
  import opened Counts
  import opened Catalog
  import opened Sequences

  datatype Op = Observe(g: Sighting) | Merge(entries: seq<Entry>)

  function Apply(v: View, op: Op): View {
    match op
    case Observe(g) => Observed(v, g)
    case Merge(entries) => MergedAll(v, entries)
  }

  /** The catalog after a history. */
  function After(ops: seq<Op>): View {
    if ops == [] then View(map[], {}) else Apply(After(ops[..|ops| - 1]), ops[|ops| - 1])
  }

  function KnownIds(gs: seq<Sighting>): set<string> {
    set g | g in gs && g.id != "" :: g.id
  }

  /** The sightings that count: the first of each ID, and all those without an ID. */
  function Accepted(ops: seq<Op>): seq<Sighting> {
    if ops == [] then [] else
    var earlier, op := Accepted(ops[..|ops| - 1]), ops[|ops| - 1];
    if op.Observe? && op.g.id !in KnownIds(earlier) then earlier + [op.g] else earlier
  }

  /** The accepted sightings of one source. */
  function LogOf(gs: seq<Sighting>, key: string): seq<Sighting> {
    if gs == [] then [] else
    var last := gs[|gs| - 1];
    LogOf(gs[..|gs| - 1], key) + if last.key == key then [last] else []
  }

  function Severities(gs: seq<Sighting>): (r: seq<string>)
    ensures |r| == |gs|
  {
    seq(|gs|, i requires 0 <= i < |gs| => gs[i].severity)
  }

  function Categories(gs: seq<Sighting>): (r: seq<string>)
    ensures |r| == |gs|
  {
    seq(|gs|, i requires 0 <= i < |gs| => gs[i].category)
  }

  function Docs(gs: seq<Sighting>): (r: seq<Doc>)
    ensures |r| == |gs|
  {
    seq(|gs|, i requires 0 <= i < |gs| => gs[i].doc)
  }

  /** The messages that are not blank. */
  function Messages(gs: seq<Sighting>): seq<string> {
    if gs == [] then [] else
    var last := gs[|gs| - 1];
    Messages(gs[..|gs| - 1]) + if last.message == "" then [] else [last.message]
  }

  /** A record that says exactly what a list of sightings says. */
  ghost predicate Agrees(src: Source, log: seq<Sighting>) {
    && src.rec.eventCount == |log|
    && src.rec.severityCounts == TallyOf(Severities(log))
    && src.rec.categoryCounts == TallyOf(Categories(log))
    && src.messages == TallyOf(Messages(log))
    && src.recent == LastOf(Docs(log), RECENT)
    && (src.rec.discovered <==> log != [])
    && src.rec.firstSeen == (if log == [] then None else Some(log[0].receivedAt))
    && src.rec.lastSeen == (if log == [] then None else Some(log[|log| - 1].receivedAt))
    && src.rec.lastEvent == (if log == [] then None else Some(log[|log| - 1].doc))
  }

  ghost predicate CatalogIs(v: View, gs: seq<Sighting>) {
    && v.seen == KnownIds(gs)
    && (forall k :: k in v.sources ==> Agrees(v.sources[k], LogOf(gs, k)))
    && (forall k :: k !in v.sources ==> LogOf(gs, k) == [])
  }

  lemma NewSourceCountsNothing(key: string, group: string)
    ensures Agrees(NewSource(key, group), [])
  {
    assert TallyOf([]) == map[];
  }

  lemma SightingCounts(src: Source, log: seq<Sighting>, g: Sighting)
    requires Agrees(src, log)
    ensures Agrees(Sighted(src, g), log + [g])
  {
    SeverityCounts(log, g);
    MessageCounts(log, g);
    WindowSlides(log, g);
    assert Described(src.rec, g).firstSeen == src.rec.firstSeen;
  }

  lemma SeverityCounts(log: seq<Sighting>, g: Sighting)
    ensures Bump(TallyOf(Severities(log)), g.severity) == TallyOf(Severities(log + [g]))
    ensures Bump(TallyOf(Categories(log)), g.category) == TallyOf(Categories(log + [g]))
  {
    assert Severities(log + [g]) == Severities(log) + [g.severity];
    assert Categories(log + [g]) == Categories(log) + [g.category];
    BumpIsTally(Severities(log), g.severity);
    BumpIsTally(Categories(log), g.category);
  }

  lemma MessageCounts(log: seq<Sighting>, g: Sighting)
    ensures TallyOf(Messages(log + [g])) ==
      if g.message == "" then TallyOf(Messages(log)) else Bump(TallyOf(Messages(log)), g.message)
  {
    assert (log + [g])[..|log|] == log;
    assert Messages(log) + [] == Messages(log);
    BumpIsTally(Messages(log), g.message);
  }

  /** Dropping the oldest of a window that overflows keeps the newest ones. */
  lemma WindowSlides(log: seq<Sighting>, g: Sighting)
    ensures LastOf(LastOf(Docs(log), RECENT) + [g.doc], RECENT) == LastOf(Docs(log + [g]), RECENT)
  {
    assert Docs(log + [g]) == Docs(log) + [g.doc];
  }

  lemma LogOneMore(gs: seq<Sighting>, g: Sighting, key: string)
    ensures LogOf(gs + [g], key) == LogOf(gs, key) + if g.key == key then [g] else []
  {
    assert (gs + [g])[..|gs|] == gs;
  }

  lemma ObserveAgreesAt(v: View, gs: seq<Sighting>, g: Sighting, k: string)
    requires CatalogIs(v, gs) && g.id !in v.seen
    ensures k in Observed(v, g).sources ==> Agrees(Observed(v, g).sources[k], LogOf(gs + [g], k))
    ensures k !in Observed(v, g).sources ==> LogOf(gs + [g], k) == []
  {
    LogOneMore(gs, g, k);
    if k == g.key {
      var src := SourceAt(v.sources, g.key, g.group);
      NewSourceCountsNothing(g.key, g.group);
      SightingCounts(src, LogOf(gs, g.key), g);
      assert Observed(v, g).sources[k] == Sighted(src, g);
    } else {
      assert LogOf(gs + [g], k) == LogOf(gs, k);
    }
  }

  lemma NewSightingIsLogged(v: View, gs: seq<Sighting>, g: Sighting)
    requires CatalogIs(v, gs) && g.id !in v.seen
    ensures CatalogIs(Observed(v, g), gs + [g])
  {
    var t := Observed(v, g);
    forall k | k in t.sources ensures Agrees(t.sources[k], LogOf(gs + [g], k)) { ObserveAgreesAt(v, gs, g, k); }
    forall k | k !in t.sources ensures LogOf(gs + [g], k) == [] { ObserveAgreesAt(v, gs, g, k); }
    KnownIdsOneMore(gs, g);
    assert t.seen == KnownIds(gs + [g]);
  }

  lemma KnownIdsOneMore(gs: seq<Sighting>, g: Sighting)
    ensures KnownIds(gs + [g]) == KnownIds(gs) + if g.id == "" then {} else {g.id}
  {
  }

  lemma MergeOneIsNotLogged(v: View, gs: seq<Sighting>, en: Entry)
    requires CatalogIs(v, gs)
    ensures CatalogIs(MergedOne(v, en), gs)
  {
    NewSourceCountsNothing(en.key, en.group);
  }

  lemma {:induction false} MergeIsNotLogged(v: View, gs: seq<Sighting>, entries: seq<Entry>)
    requires CatalogIs(v, gs)
    ensures CatalogIs(MergedAll(v, entries), gs)
  {
    if entries != [] {
      MergeIsNotLogged(v, gs, entries[..|entries| - 1]);
      MergeOneIsNotLogged(MergedAll(v, entries[..|entries| - 1]), gs, entries[|entries| - 1]);
    }
  }

  /** After any history every record is the tally of its log, whatever was merged in between. */
  lemma {:induction false} CatalogIsItsLog(ops: seq<Op>)
    ensures CatalogIs(After(ops), Accepted(ops))
  {
    if ops != [] {
      var front, op := ops[..|ops| - 1], ops[|ops| - 1];
      CatalogIsItsLog(front);
      match op
      case Observe(g) =>
        if g.id !in KnownIds(Accepted(front)) { NewSightingIsLogged(After(front), Accepted(front), g); }
      case Merge(entries) => MergeIsNotLogged(After(front), Accepted(front), entries);
    }
  }

  // ----- consequences -----

  lemma {:induction false} LogOfConcat(a: seq<Sighting>, b: seq<Sighting>, key: string)
    ensures LogOf(a + b, key) == LogOf(a, key) + LogOf(b, key)
  {
    if b == [] {
      assert a + b == a;
    } else {
      assert (a + b)[..|a + b| - 1] == a + b[..|b| - 1];
      LogOfConcat(a, b[..|b| - 1], key);
    }
  }

  lemma {:induction false} MessagesAtMost(gs: seq<Sighting>)
    ensures |Messages(gs)| <= |gs|
  {
    if gs != [] { MessagesAtMost(gs[..|gs| - 1]); }
  }

  /** Events are counted once by severity, once by category, and at most once by message. */
  lemma RecordTotals(ops: seq<Op>, k: string)
    requires k in After(ops).sources
    ensures var src := After(ops).sources[k];
      && src.rec.eventCount == Total(src.rec.severityCounts) == Total(src.rec.categoryCounts)
      && Total(src.messages) <= src.rec.eventCount
      && |src.recent| == (if src.rec.eventCount < RECENT then src.rec.eventCount else RECENT)
      && (src.rec.discovered <==> src.rec.eventCount > 0)
  {
    var log := LogOf(Accepted(ops), k);
    CatalogIsItsLog(ops);
    TotalOfTally(Severities(log));
    TotalOfTally(Categories(log));
    TotalOfTally(Messages(log));
    MessagesAtMost(log);
  }

  function EventCounts(v: View): Tally {
    map k | k in v.sources :: v.sources[k].rec.eventCount
  }

  lemma CountsAfterUpdate(v: View, t: View, k: string, src: Source)
    requires t.sources == v.sources[k := src]
    ensures EventCounts(t) == EventCounts(v)[k := src.rec.eventCount]
  {
  }

  lemma ObserveCountsOne(v: View, g: Sighting)
    requires g.id == "" || g.id !in v.seen
    ensures Total(EventCounts(Observed(v, g))) == Total(EventCounts(v)) + 1
  {
    var src := Sighted(SourceAt(v.sources, g.key, g.group), g);
    CountsAfterUpdate(v, Observed(v, g), g.key, src);
    assert src.rec.eventCount == SourceAt(v.sources, g.key, g.group).rec.eventCount + 1;
    assert EventCounts(v)[g.key := src.rec.eventCount] == Bump(EventCounts(v), g.key);
    TotalOfAdd(EventCounts(v), g.key, 1);
  }

  lemma MergeOneCountsNothing(v: View, en: Entry)
    ensures Total(EventCounts(MergedOne(v, en))) == Total(EventCounts(v))
  {
    var src := ConfiguredSource(SourceAt(v.sources, en.key, en.group), en);
    CountsAfterUpdate(v, MergedOne(v, en), en.key, src);
    assert src.rec.eventCount == SourceAt(v.sources, en.key, en.group).rec.eventCount;
    assert EventCounts(v)[en.key := src.rec.eventCount] == Add(EventCounts(v), en.key, 0);
    TotalOfAdd(EventCounts(v), en.key, 0);
  }

  lemma {:induction false} MergeCountsNothing(v: View, entries: seq<Entry>)
    ensures Total(EventCounts(MergedAll(v, entries))) == Total(EventCounts(v))
  {
    if entries != [] {
      var en, u := entries[|entries| - 1], MergedAll(v, entries[..|entries| - 1]);
      MergeCountsNothing(v, entries[..|entries| - 1]);
      MergeOneCountsNothing(u, en);
    }
  }

  lemma {:induction false} CountsAreAccepted(ops: seq<Op>)
    ensures Total(EventCounts(After(ops))) == |Accepted(ops)|
  {
    if ops == [] {
      assert EventCounts(After(ops)) == map[];
    } else {
      var front, op := ops[..|ops| - 1], ops[|ops| - 1];
      CountsAreAccepted(front);
      CatalogIsItsLog(front);
      match op
      case Observe(g) => if g.id !in KnownIds(Accepted(front)) { ObserveCountsOne(After(front), g); }
      case Merge(entries) => MergeCountsNothing(After(front), entries);
    }
  }

  lemma {:induction false} AcceptedHaveIds(ops: seq<Op>)
    ensures |Accepted(ops)| == |KnownIds(Accepted(ops))| + |Nameless(Accepted(ops))|
  {
    if ops != [] {
      var front, op := Accepted(ops[..|ops| - 1]), ops[|ops| - 1];
      AcceptedHaveIds(ops[..|ops| - 1]);
      if op.Observe? && op.g.id !in KnownIds(front) {
        NamelessOneMore(front, op.g);
        KnownIdsOneMore(front, op.g);
      }
    }
  }

  /** Over all sources, the events counted are those accepted: one per known ID, and every event
      without an ID. */
  lemma AllEventsAreCounted(ops: seq<Op>)
    ensures Total(EventCounts(After(ops))) == |Accepted(ops)|
    ensures |Accepted(ops)| == |After(ops).seen| + |Nameless(Accepted(ops))|
  {
    CountsAreAccepted(ops);
    CatalogIsItsLog(ops);
    AcceptedHaveIds(ops);
  }

  function Nameless(gs: seq<Sighting>): seq<Sighting> {
    if gs == [] then [] else
    Nameless(gs[..|gs| - 1]) + if gs[|gs| - 1].id == "" then [gs[|gs| - 1]] else []
  }

  lemma NamelessOneMore(gs: seq<Sighting>, g: Sighting)
    ensures Nameless(gs + [g]) == Nameless(gs) + if g.id == "" then [g] else []
  {
    assert (gs + [g])[..|gs|] == gs;
  }

  lemma {:induction false} SameEventsSameLog(a: seq<Sighting>, b: seq<Sighting>, key: string)
    requires multiset(a) == multiset(b)
    ensures multiset(LogOf(a, key)) == multiset(LogOf(b, key))
    decreases |a|
  {
    if a == [] {
      assert |multiset(b)| == 0;
    } else {
      var g, front := a[|a| - 1], a[..|a| - 1];
      assert a == front + [g];
      var i := Pluck(front, g, b);
      var rest := b[..i] + b[i + 1..];
      SameEventsSameLog(front, rest, key);
      LogOfConcat(b[..i] + [g], b[i + 1..], key);
      LogOfConcat(b[..i], b[i + 1..], key);
      LogOneMore(b[..i], g, key);
      LogOneMore(front, g, key);
    }
  }

  lemma {:induction false} MessagesIgnoreOrder(a: seq<Sighting>, b: seq<Sighting>)
    requires multiset(a) == multiset(b)
    ensures multiset(Messages(a)) == multiset(Messages(b))
    decreases |a|
  {
    if a == [] {
      assert |multiset(b)| == 0;
    } else {
      var g, front := a[|a| - 1], a[..|a| - 1];
      assert a == front + [g];
      var i := Pluck(front, g, b);
      var rest := b[..i] + b[i + 1..];
      MessagesIgnoreOrder(front, rest);
      MessagesOfConcat(b[..i] + [g], b[i + 1..]);
      MessagesOfConcat(b[..i], b[i + 1..]);
      MessagesOfConcat(b[..i], [g]);
      MessagesOfConcat(front, [g]);
    }
  }

  lemma {:induction false} MessagesOfConcat(a: seq<Sighting>, b: seq<Sighting>)
    ensures Messages(a + b) == Messages(a) + Messages(b)
  {
    if b == [] {
      assert a + b == a;
    } else {
      assert (a + b)[..|a + b| - 1] == a + b[..|b| - 1];
      MessagesOfConcat(a, b[..|b| - 1]);
    }
  }

  /** The counters of a key; a key without a record counts nothing. */
  datatype Counters = Counters(events: nat, severities: Tally, categories: Tally, messages: Tally)

  function CountersOf(v: View, k: string): Counters {
    if k in v.sources then
      var src := v.sources[k];
      Counters(src.rec.eventCount, src.rec.severityCounts, src.rec.categoryCounts, src.messages)
    else Counters(0, map[], map[], map[])
  }

  function CountersOfLog(log: seq<Sighting>): Counters {
    Counters(|log|, TallyOf(Severities(log)), TallyOf(Categories(log)), TallyOf(Messages(log)))
  }

  lemma CountersAreTheLogs(ops: seq<Op>, k: string)
    ensures CountersOf(After(ops), k) == CountersOfLog(LogOf(Accepted(ops), k))
  {
    CatalogIsItsLog(ops);
    assert TallyOf([]) == map[];
    assert Severities([]) == [] && Categories([]) == [];
  }

  /** Two histories that accept the same events agree on every counter of every source, whatever their
      order and whatever they merge. */
  lemma CountersIgnoreOrder(a: seq<Op>, b: seq<Op>, k: string)
    requires multiset(Accepted(a)) == multiset(Accepted(b))
    ensures CountersOf(After(a), k) == CountersOf(After(b), k)
  {
    var la, lb := LogOf(Accepted(a), k), LogOf(Accepted(b), k);
    CountersAreTheLogs(a, k);
    CountersAreTheLogs(b, k);
    SameEventsSameLog(Accepted(a), Accepted(b), k);
    MessagesIgnoreOrder(la, lb);
    TallyIgnoresOrder(Messages(la), Messages(lb));
    FieldsIgnoreOrder(la, lb);
    TallyIgnoresOrder(Severities(la), Severities(lb));
    TallyIgnoresOrder(Categories(la), Categories(lb));
  }

  lemma {:induction false} FieldsIgnoreOrder(a: seq<Sighting>, b: seq<Sighting>)
    requires multiset(a) == multiset(b)
    ensures |a| == |b|
    ensures multiset(Severities(a)) == multiset(Severities(b)) && multiset(Categories(a)) == multiset(Categories(b))
    decreases |a|
  {
    assert |multiset(a)| == |multiset(b)|;
    if a != [] {
      var g, front := a[|a| - 1], a[..|a| - 1];
      assert a == front + [g];
      var i := Pluck(front, g, b);
      FieldsIgnoreOrder(front, b[..i] + b[i + 1..]);
      FieldsOfSplit(front, g, []);
      FieldsOfSplit(b[..i], g, b[i + 1..]);
      assert front + [] == front && front + [g] + [] == a;
    } else {
      assert b == [];
    }
  }

  lemma FieldsOfSplit(a: seq<Sighting>, g: Sighting, b: seq<Sighting>)
    ensures multiset(Severities(a + [g] + b)) == multiset(Severities(a + b)) + multiset{g.severity}
    ensures multiset(Categories(a + [g] + b)) == multiset(Categories(a + b)) + multiset{g.category}
  {
    var s, t := Severities(a), Severities(b);
    assert Severities(a + [g] + b) == s + [g.severity] + t && Severities(a + b) == s + t;
    var c, d := Categories(a), Categories(b);
    assert Categories(a + [g] + b) == c + [g.category] + d && Categories(a + b) == c + d;
    OneMoreInTheMiddle(s, g.severity, t);
    OneMoreInTheMiddle(c, g.category, d);
  }

  lemma OneMoreInTheMiddle(a: seq<string>, x: string, b: seq<string>)
    ensures multiset(a + [x] + b) == multiset(a + b) + multiset{x}
  {
  }
}
