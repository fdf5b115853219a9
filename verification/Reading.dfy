/** How the collector itself reads: stored events by the codec, events into the catalog by `Sight`. The
    assumptions of `Delivery` and `Replay` hold of it. */
module Reading {
  import opened Json
  import opened Text
  import opened Wrappers
  import opened SourceUtil
  import opened Event
  import opened Normalizer
  import opened EventLog
  import opened Delivery
  import opened Books
  import opened Catalog
  import opened Replay

  /** Reading a stored event back, with the library's functions as they are. */
  function ReadBack(lib: Lib, now: string): Event -> Event {
    (e: Event) => Reload(e, lib, now)
  }

  lemma ReadBackKeepsIds(lib: Lib, now: string)
    ensures KeepsIds(ReadBack(lib, now))
  {
    forall e: Event | e.id != "" ensures ReadBack(lib, now)(e).id == e.id { ReloadKeepsId(e, lib, now); }
  }

  /** Reading back keeps every ID, and is the identity on prepared events whose severity and category are
      not blank and whose extra fields have names of their own. */
  lemma ReadBackIsSound(lib: Lib, now: string, given: Event)
    requires lib.Clock(now)
    ensures KeepsIds(ReadBack(lib, now))
    ensures var p := Prepared(given, lib, now);
      p.Ok? && NotBlank(p.value) && given.extra.Keys !! KNOWN_KEYS ==> ReadBack(lib, now)(p.value) == p.value
  {
    ReadBackKeepsIds(lib, now);
    var p := Prepared(given, lib, now);
    if p.Ok? {
      PreparedIsStorableIff(given, lib, now);
      ReloadIsIdentityIff(p.value, lib, now);
    }
  }

  /** The event comes out of the normaliser. */
  ghost predicate FromNormalizer(e: Event, lib: Lib) {
    exists given, now :: lib.Clock(now) && Prepared(given, lib, now) == Ok(e)
  }

  /** What reading back does to such an event, whenever it is read. */
  ghost predicate ReadsWithDefaults(p: Event, q: Event) {
    && p.id != "" && Clean(p.severity) == p.severity && Clean(p.eventCategory) == p.eventCategory
    && q == p.(severity := Or(p.severity, "info"), eventCategory := Or(p.eventCategory, "unknown"),
               extra := p.extra - KNOWN_KEYS)
  }

  lemma CleanIsLower(s: string)
    requires Clean(s) == s
    ensures ToLower(s) == s
  {
    CleanIsFixed(s);
  }

  lemma ReloadOfPrepared(given: Event, lib: Lib, now: string, later: string)
    requires lib.Clock(now) && Prepared(given, lib, now).Ok?
    ensures var p := Prepared(given, lib, now).value; ReadsWithDefaults(p, Reload(p, lib, later))
  {
    var n := Normalized(given, lib, now).value;
    var p := Prepared(given, lib, now).value;
    NormalizedIsClean(given, lib, now);
    NormalizedSettlesIff(given, lib, now);
    EnrichedFrame(n, now);
    CleanIsLower(n.severity);
    CleanIsLower(n.eventCategory);
    ReloadFields(p, lib, later);
    OnlyBlanksAreFilled(p.(extra := p.extra - KNOWN_KEYS), lib, later);
  }

  lemma OnlyBlanksAreFilled(e: Event, lib: Lib, now: string)
    requires Filled(e.(severity := "x", eventCategory := "x"))
    ensures WithDefaults(e, lib, now) ==
      e.(severity := Or(e.severity, "info"), eventCategory := Or(e.eventCategory, "unknown"))
  {
  }

  // ----- what the catalog sees -----

  /** The document of an event does not show extra fields under known names. */
  lemma EncodedHidesClashes(e: Event)
    ensures Encoded(e.(extra := e.extra - KNOWN_KEYS)) == Encoded(e)
  {
  }

  /** The document the catalog redacts for display. */
  function Shown(e: Event): Doc {
    Encoded(e.(sourceType := NormalizeSourceType(e.sourceType)))
  }

  /** Severity, category and extra fields enter a sighting in three places only. */
  lemma SightOfChange(e: Event, f: Event)
    requires f == e.(severity := f.severity, eventCategory := f.eventCategory, extra := f.extra)
    ensures Sight(f) == Sight(e).(severity := Clean(f.severity), category := Clean(f.eventCategory),
      doc := Sight(f).doc)
    ensures Shown(f) == Shown(e) ==> Sight(f).doc == Sight(e).doc
  {
  }

  lemma FieldsOfSight(p: Event)
    ensures Sight(p).id == p.id && Sight(p).severity == Clean(p.severity) && Sight(p).category == Clean(p.eventCategory)
  {
  }

  lemma DefaultsAreClean()
    ensures Clean("info") == "info" && Clean("unknown") == "unknown"
  {
    assert IsName("info") && IsName("unknown");
    NameIsClean("info");
    NameIsClean("unknown");
  }

  lemma SightOfReload(p: Event, q: Event)
    requires ReadsWithDefaults(p, q)
    ensures var g, h := Sight(p), Sight(q);
      && g.id == p.id && g.severity == p.severity && g.category == p.eventCategory
      && h == g.(severity := Or(g.severity, "info"), category := Or(g.category, "unknown"), doc := h.doc)
      && (p.severity != "" && p.eventCategory != "" ==> h == g)
  {
    hide Sight, Clean, Shown;
    SightOfChange(p, q);
    FieldsOfSight(p);
    DefaultsAreClean();
    if p.severity != "" && p.eventCategory != "" { ShownOfReload(p, q); }
  }

  lemma ShownOfReload(p: Event, q: Event)
    requires ReadsWithDefaults(p, q) && p.severity != "" && p.eventCategory != ""
    ensures Shown(q) == Shown(p)
  {
    EncodedHidesClashes(p.(sourceType := NormalizeSourceType(p.sourceType)));
  }

  /** The catalog sees a prepared event read back from the log exactly as it saw it live, whenever it is
      read, if and only if neither its severity nor its category is blank. */
  lemma SightOfReloadIff(given: Event, lib: Lib, now: string, later: string)
    requires lib.Clock(now) && Prepared(given, lib, now).Ok?
    ensures var p := Prepared(given, lib, now).value; Sight(ReadBack(lib, later)(p)) == Sight(p) <==> NotBlank(p)
  {
    var p := Prepared(given, lib, now).value;
    ReloadOfPrepared(given, lib, now, later);
    SightOfReload(p, Reload(p, lib, later));
  }

  /** A severity of white space is counted as empty when the event comes in and as "info" when it is read
      back. */
  lemma BlankIsReadAsInfo(given: Event, lib: Lib, now: string, later: string)
    requires lib.Clock(now) && Prepared(given, lib, now).Ok? && given.severity == "   "
    ensures var p := Prepared(given, lib, now).value;
      Sight(p).severity == "" && Sight(ReadBack(lib, later)(p)).severity == "info"
  {
    var p := Prepared(given, lib, now).value;
    BlankStaysBlank(given, lib, now);
    ReloadOfPrepared(given, lib, now, later);
    SightOfReload(p, Reload(p, lib, later));
  }

  lemma WhiteSpaceIsClean()
    ensures Clean("   ") == ""
  {
    assert "   "[1..] == "  " && "  "[1..] == " " && " "[1..] == "";
    assert TrimLeft(" ") == "" && TrimLeft("  ") == "" && TrimLeft("   ") == "";
  }

  lemma BlankStaysBlank(given: Event, lib: Lib, now: string)
    requires Prepared(given, lib, now).Ok? && given.severity == "   "
    ensures Prepared(given, lib, now).value.severity == ""
  {
    var named := given.(sourceType := NormalizeSourceType(given.sourceType));
    var c := Cleaned(WithDefaults(named, lib, now), lib, now);
    WhiteSpaceIsClean();
    NormalizeFixed(given.sourceType);
    SourceRulesSettle(c, Clean(given.sourceType), lib);
    EnrichedFrame(Normalized(given, lib, now).value, now);
  }

  /** The collector's own reader. */
  function OwnReader(lib: Lib, now: string, seed: seq<OTSource>): Reader {
    Reader(ReadBack(lib, now), (e: Event) => Sight(e), Entries(seed))
  }

  lemma PreparedReadAs(e: Event, lib: Lib, now: string, seed: seq<OTSource>)
    requires FromNormalizer(e, lib)
    ensures e.id != "" && ReadsAs(OwnReader(lib, now, seed), e)
  {
    var given, t :| lib.Clock(t) && Prepared(given, lib, t) == Ok(e);
    ReloadOfPrepared(given, lib, t, now);
    SightOfReload(e, Reload(e, lib, now));
  }

  /** Every event taken in comes out of the normaliser. */
  ghost predicate AllNormalized(moves: seq<Move>, lib: Lib) {
    forall move :: move in moves && move.Pipeline? && move.step.Ingest? ==> FromNormalizer(move.step.event, lib)
  }

  /** The live catalog is a replay of the log: in every run of the collector with its own codec and its
      own normaliser, whose restarts can scan the log, the live counters of a source are those a restart
      would rebuild exactly when the log can be scanned and, since the last start, no record of the
      source failed its spool append and none came in with a blank severity or category. */
  lemma LiveIsReplayOfTheLog(queueSize: nat, cfg: Config, moves: seq<Move>, lib: Lib, now: string,
      seed: seq<OTSource>, k: string)
    requires AllNormalized(moves, lib)
    requires var r := OwnReader(lib, now, seed); RestartsScan(Started(queueSize, cfg, r), moves, r)
    ensures var r := OwnReader(lib, now, seed);
      var w := WorldRun(Started(queueSize, cfg, r), moves, r);
      && (LiveCounters(w, k) == RebuiltCounters(w, k, r) <==> AgreesOn(w, k, r))
      && RebuiltCounters(w, k, r).events ==
           if StoreScannable(w.node.store) then
             LiveCounters(w, k).events + Since(w.node.store, w.booted, Missing(w, k, r))
           else 0
  {
    ReadBackKeepsIds(lib, now);
    var r := OwnReader(lib, now, seed);
    forall move | move in moves ensures Regular(move, r) {
      if move.Pipeline? && move.step.Ingest? { PreparedReadAs(move.step.event, lib, now, seed); }
    }
    LiveIsReplayIff(queueSize, cfg, moves, r, k);
  }
}
