/** Validation, normalisation and enrichment of an event on its way in
    (internal/normalizer/validator.go and internal/normalizer/enricher.go). */
module Normalizer {
  import opened Json
  import opened Text
  import opened SourceUtil
  import opened Event
  import opened Wrappers

  const ALARM_WORDS: set<string> := {"drop", "block", "deny", "reject", "alert"}

  predicate Alarming(text: string) {
    exists w | w in ALARM_WORDS :: Contains(text, w)
  }

  function TagString(tags: Doc, key: string, lib: Lib): string {
    if key in tags then Clean(lib.sprint(tags[key])) else ""
  }

  function FirewallCategory(message: string, raw: string, tags: Doc, sourceType: string, lib: Lib): string {
    var blob := ToLower(message + " " + raw + " " + sourceType + " " + TagString(tags, "action", lib) + " "
                        + TagString(tags, "firewall_action", lib));
    if Alarming(blob) then "security" else "network"
  }

  predicate LacksSourcetype(tags: Doc) {
    !("splunk_sourcetype" in tags && tags["splunk_sourcetype"].Str?
      && Trim(tags["splunk_sourcetype"].s) != "" && !EqualFold(Trim(tags["splunk_sourcetype"].s), UNKNOWN_SOURCETYPE))
  }

  function WithSourcetype(tags: Doc, sourceType: string): Doc {
    if LacksSourcetype(tags) then tags["splunk_sourcetype" := Str(SplunkSourcetypeFor(sourceType))] else tags
  }

  predicate HasSourceRule(t: string) {
    t in {"gds_agent", "plc", "opcua", "scada", "ews", "ids", "dmz_collector", "vault", "vault_agent",
          "influxdb", "opcua_dmz_gateway", "gds", "postgres_gds", "jumphost"}
  }

  const FIREWALL_TAGS: Doc :=
    map["firewall_vendor" := Str("opnsense"), "splunk_sourcetype" := Str("labshock:net:firewall"),
        "siem_index_hint" := Str("ot_security")]

  function BySource(e: Event, originalType: string, lib: Lib): Event {
    if e.sourceType == "firewall" then
      var tags := e.tags + FIREWALL_TAGS;
      e.(tags := tags, eventCategory := FirewallCategory(e.message, e.raw, tags, originalType, lib))
    else if HasSourceRule(e.sourceType) then
      e.(tags := WithSourcetype(e.tags, e.sourceType))
    else e
  }

  function Cleaned(e: Event, lib: Lib, now: string): Event {
    e.(receivedAt := if lib.isTime(e.receivedAt) then e.receivedAt else now,
       severity := Clean(e.severity), eventCategory := Clean(e.eventCategory))
  }

  function Normalized(e: Event, lib: Lib, now: string): Result<Event> {
    var d := WithDefaults(e.(sourceType := NormalizeSourceType(e.sourceType)), lib, now);
    if !lib.isTime(d.timestamp) then Err("invalid timestamp")
    else Ok(BySource(Cleaned(d, lib, now), Clean(e.sourceType), lib))
  }

  function PurdueZone(t: string): string {
    if t == "plc" then "level1"
    else if t in {"scada", "opcua", "ews"} then "level2"
    else if t in {"firewall", "ids", "dmz_collector", "vault", "vault_agent", "influxdb", "opcua_dmz_gateway",
                  "gds", "postgres_gds", "jumphost"} then "dmz"
    else "ot"
  }

  function IndexHint(t: string, category: string, severity: string): string {
    if t == "ids" || t == "firewall" || category == "security" || severity == "critical" || severity == "error" then
      "ot_security"
    else if category in {"operator_action", "operator_read", "operator_write"} then "ot_operations"
    else if category in {"runtime", "system", "network", "communication"} then "ot_telemetry"
    else "ot_security"
  }

  predicate Truthy(tags: Doc, key: string) {
    key in tags && (tags[key] == Bool(true) || (tags[key].Str? && EqualFold(tags[key].s, "true")))
  }

  predicate IsHighValue(e: Event) {
    var category, t, severity := ToLower(e.eventCategory), ToLower(e.sourceType), ToLower(e.severity);
    category == "operator_write" || category == "security" || severity == "critical" || severity == "error"
    || t == "ids" || t == "firewall" || Truthy(e.tags, "alert_candidate") || Truthy(e.tags, "sensitive_action")
  }

  /** The tags every event gets. */
  function CommonLayer(e: Event, now: string): Doc {
    map["dmz_collector" := Str("dmz_collector"), "dmz_received_at" := Str(now),
        "purdue_zone" := Str(PurdueZone(ToLower(e.sourceType))),
        "siem_index_hint" := Str(IndexHint(ToLower(e.sourceType), ToLower(e.eventCategory), ToLower(e.severity)))]
  }

  /** The tags enrichment sets. */
  function EnrichedLayer(e: Event, now: string): Doc {
    var layer := CommonLayer(e, now);
    if IsHighValue(e) then layer["high_value" := Bool(true)] else layer
  }

  function Enriched(e: Event, now: string): Event {
    e.(tags := WithSourcetype(e.tags, e.sourceType) + EnrichedLayer(e, now))
  }

  /** What every ingested event goes through before it is stored. */
  function Prepared(e: Event, lib: Lib, now: string): Result<Event> {
    match Normalized(e, lib, now)
    case Err(error) => Err(error)
    case Ok(n) => Ok(Enriched(n, now))
  }

  // ----- the methods, statement by statement -----

  method ValidateAndNormalize(given: Event, lib: Lib, now: string) returns (r: Result<Event>)
    ensures r == Normalized(given, lib, now)
  {
    var originalType := ToLower(Trim(given.sourceType));
    var e := given.(sourceType := NormalizeSourceType(given.sourceType));
    e := EnsureDefaults(e, lib, now);
    if !lib.isTime(e.timestamp) {
      return Err("invalid timestamp");
    }
    if !lib.isTime(e.receivedAt) {
      e := e.(receivedAt := now);
    }
    e := e.(severity := ToLower(Trim(e.severity)));
    e := e.(eventCategory := ToLower(Trim(e.eventCategory)));
    e := ApplySourceRules(e, originalType, lib);
    return Ok(e);
  }

  method ApplySourceRules(given: Event, originalType: string, lib: Lib) returns (e: Event)
    ensures e == BySource(given, originalType, lib)
  {
    e := given;
    if e.sourceType == "firewall" {
      var tags := e.tags["firewall_vendor" := Str("opnsense")];
      tags := tags["splunk_sourcetype" := Str("labshock:net:firewall")];
      tags := tags["siem_index_hint" := Str("ot_security")];
      assert tags == e.tags + FIREWALL_TAGS;
      e := e.(tags := tags);
      if FirewallCategory(e.message, e.raw, e.tags, originalType, lib) == "security" {
        e := e.(eventCategory := "security");
      } else {
        e := e.(eventCategory := "network");
      }
    } else if HasSourceRule(e.sourceType) {
      if LacksSourcetype(e.tags) {
        e := e.(tags := e.tags["splunk_sourcetype" := Str(SplunkSourcetypeFor(e.sourceType))]);
      }
    }
  }

  /** Successive writes to distinct keys are one layer. */
  lemma WritesAreLayer(tags: Doc, a: string, b: string, c: string, d: string, x: Json, y: Json, z: Json, w: Json)
    requires a != b && a != c && a != d && b != c && b != d && c != d
    ensures tags[a := x][b := y][c := z][d := w] == tags + map[a := x, b := y, c := z, d := w]
  {
  }

  lemma WriteBetween(tags: Doc, a: string, b: string, c: string, x: Json, y: Json, z: Json, s: string, v: Json)
    requires s != a && s != b && s != c
    ensures tags[a := x][b := y][c := z][s := v] == tags[s := v][a := x][b := y][c := z]
    ensures s in tags[a := x][b := y][c := z] <==> s in tags
    ensures s in tags ==> tags[a := x][b := y][c := z][s] == tags[s]
  {
  }

  lemma TruthyUnder(tags: Doc, layer: Doc, key: string)
    requires key !in layer
    ensures Truthy(tags + layer, key) == Truthy(tags, key)
  {
  }

  method CommonTags(given: Event, now: string) returns (tags: Doc)
    ensures tags == WithSourcetype(given.tags, given.sourceType) + CommonLayer(given, now)
  {
    ghost var zone := Str(PurdueZone(ToLower(given.sourceType)));
    ghost var hint := Str(IndexHint(ToLower(given.sourceType), ToLower(given.eventCategory), ToLower(given.severity)));
    ghost var settled := WithSourcetype(given.tags, given.sourceType);

    tags := given.tags["dmz_collector" := Str("dmz_collector")];
    tags := tags["dmz_received_at" := Str(now)];
    tags := tags["purdue_zone" := Str(PurdueZone(ToLower(given.sourceType)))];
    WriteBetween(given.tags, "dmz_collector", "dmz_received_at", "purdue_zone", Str("dmz_collector"), Str(now), zone,
                 "splunk_sourcetype", Str(SplunkSourcetypeFor(given.sourceType)));
    if LacksSourcetype(tags) {
      tags := tags["splunk_sourcetype" := Str(SplunkSourcetypeFor(given.sourceType))];
    }
    assert tags ==
      settled["dmz_collector" := Str("dmz_collector")]["dmz_received_at" := Str(now)]["purdue_zone" := zone];
    tags := tags["siem_index_hint" := Str(IndexHint(ToLower(given.sourceType), ToLower(given.eventCategory),
      ToLower(given.severity)))];
    WritesAreLayer(settled, "dmz_collector", "dmz_received_at", "purdue_zone", "siem_index_hint",
                   Str("dmz_collector"), Str(now), zone, hint);
  }

  method EnrichDMZ(given: Event, now: string) returns (e: Event)
    ensures e == Enriched(given, now)
  {
    hide WithSourcetype, IsHighValue, PurdueZone, IndexHint, ToLower;
    ghost var settled := WithSourcetype(given.tags, given.sourceType);
    var tags := CommonTags(given, now);
    TruthyOfSettled(given, CommonLayer(given, now));
    e := given.(tags := tags);
    if IsHighValue(e) {
      e := e.(tags := e.tags["high_value" := Bool(true)]);
      assert e.tags == settled + CommonLayer(given, now)["high_value" := Bool(true)];
    }
  }

  lemma TruthyOfSettled(e: Event, layer: Doc)
    requires "alert_candidate" !in layer && "sensitive_action" !in layer
    ensures IsHighValue(e.(tags := WithSourcetype(e.tags, e.sourceType) + layer)) == IsHighValue(e)
  {
    var settled := WithSourcetype(e.tags, e.sourceType);
    TruthyUnder(settled, layer, "alert_candidate");
    TruthyUnder(settled, layer, "sensitive_action");
  }

  // ----- normalising a prepared event again -----

  /** An event that normalisation leaves alone. */
  predicate Settled(e: Event, lib: Lib) {
    && Filled(e) && lib.isTime(e.timestamp) && lib.isTime(e.receivedAt)
    && NormalizeSourceType(e.sourceType) == e.sourceType
    && Clean(e.severity) == e.severity && Clean(e.eventCategory) == e.eventCategory
    && (e.sourceType == "firewall" ==>
          e.tags + FIREWALL_TAGS == e.tags
          && e.eventCategory == FirewallCategory(e.message, e.raw, e.tags, "firewall", lib))
    && (HasSourceRule(e.sourceType) ==> WithSourcetype(e.tags, e.sourceType) == e.tags)
  }

  lemma FilledDefaults(e: Event, lib: Lib, now: string)
    ensures Filled(e) ==> WithDefaults(e, lib, now) == e
  {
  }

  lemma SettledIsFixed(e: Event, lib: Lib, now: string)
    requires Settled(e, lib)
    ensures Normalized(e, lib, now) == Ok(e)
  {
    FilledDefaults(e, lib, now);
    CanonicalIsName(Clean(e.sourceType));
    NameIsClean(e.sourceType);
    assert e.(sourceType := NormalizeSourceType(e.sourceType)) == e;
    assert Cleaned(e, lib, now) == e;
  }

  lemma AlarmAcrossBlank(a: string, b: string)
    ensures Alarming(ToLower(a + " " + b)) <==> Alarming(ToLower(a)) || Alarming(ToLower(b))
  {
    LowerOfConcat(a + " ", b);
    LowerOfConcat(a, " ");
    assert ToLower(" ") == " ";
    forall w | w in ALARM_WORDS
      ensures Contains(ToLower(a + " " + b), w) <==> Contains(ToLower(a), w) || Contains(ToLower(b), w)
    {
      assert ToLower(a + " " + b) == ToLower(a) + " " + ToLower(b);
      ContainsAcrossBlank(ToLower(a), ToLower(b), w);
    }
  }

  /** The raising pieces of a firewall event, one by one. */
  lemma FirewallCategoryByPiece(message: string, raw: string, tags: Doc, sourceType: string, lib: Lib)
    ensures FirewallCategory(message, raw, tags, sourceType, lib) == "security" <==>
      Alarming(ToLower(message)) || Alarming(ToLower(raw)) || Alarming(ToLower(sourceType))
      || Alarming(ToLower(TagString(tags, "action", lib))) || Alarming(ToLower(TagString(tags, "firewall_action", lib)))
  {
    var a, f := TagString(tags, "action", lib), TagString(tags, "firewall_action", lib);
    AlarmAcrossBlank(message, raw);
    AlarmAcrossBlank(message + " " + raw, sourceType);
    AlarmAcrossBlank(message + " " + raw + " " + sourceType, a);
    AlarmAcrossBlank(message + " " + raw + " " + sourceType + " " + a, f);
  }

  lemma NoAlarmIn(text: string)
    requires text == "firewall" || text == "opnsense"
    ensures !Alarming(ToLower(text))
  {
    assert ToLower(text) == text;
    forall w, i | w in ALARM_WORDS && 0 <= i <= |text|
      ensures !OccursAt(text, w, i)
    {
      if OccursAt(text, w, i) {
        OccursCharacter(text, w, i, 0);
        OccursCharacter(text, w, i, 1);
        OccursCharacter(text, w, i, 2);
        OccursCharacter(text, w, i, 3);
      }
    }
  }

  /** The spelling of the firewall's source type has no say in the category. */
  lemma FirewallNameDoesNotMatter(message: string, raw: string, tags: Doc, name: string, lib: Lib)
    requires Canonical(name) == "firewall"
    ensures FirewallCategory(message, raw, tags, name, lib) == FirewallCategory(message, raw, tags, "firewall", lib)
  {
    FirewallCategoryByPiece(message, raw, tags, name, lib);
    FirewallCategoryByPiece(message, raw, tags, "firewall", lib);
    NoAlarmIn(name);
    NoAlarmIn("firewall");
  }

  /** Neither field was white space only. */
  predicate NotBlank(e: Event) {
    e.severity != "" && e.eventCategory != ""
  }

  lemma FirewallRuleSettles(e: Event, originalType: string, lib: Lib)
    requires e.sourceType == "firewall" && Canonical(originalType) == "firewall"
    ensures var n := BySource(e, originalType, lib);
      && n == e.(tags := e.tags + FIREWALL_TAGS, eventCategory := n.eventCategory)
      && n.eventCategory != "" && Clean(n.eventCategory) == n.eventCategory
      && n.eventCategory == FirewallCategory(n.message, n.raw, n.tags, "firewall", lib)
  {
    var n := BySource(e, originalType, lib);
    FirewallNameDoesNotMatter(e.message, e.raw, n.tags, originalType, lib);
    assert IsName("security") && IsName("network");
    NameIsClean(n.eventCategory);
  }

  lemma SourceRulesSettle(e: Event, originalType: string, lib: Lib)
    requires e.sourceType == "firewall" ==> Canonical(originalType) == "firewall"
    ensures var n := BySource(e, originalType, lib);
      && n == e.(tags := n.tags, eventCategory := n.eventCategory)
      && (n.sourceType == "firewall" ==>
            n.tags + FIREWALL_TAGS == n.tags && n.eventCategory != "" && Clean(n.eventCategory) == n.eventCategory
            && n.eventCategory == FirewallCategory(n.message, n.raw, n.tags, "firewall", lib))
      && (n.sourceType != "firewall" ==> n.eventCategory == e.eventCategory)
      && (HasSourceRule(n.sourceType) ==> WithSourcetype(n.tags, n.sourceType) == n.tags)
  {
    hide FirewallCategory, Clean;
    if e.sourceType == "firewall" {
      FirewallRuleSettles(e, originalType, lib);
      assert e.tags + FIREWALL_TAGS + FIREWALL_TAGS == e.tags + FIREWALL_TAGS;
    } else {
      SourcetypeSettles(e.tags, e.sourceType);
    }
  }

  lemma SourcetypeSettles(tags: Doc, sourceType: string)
    ensures WithSourcetype(WithSourcetype(tags, sourceType), sourceType) == WithSourcetype(tags, sourceType)
  {
    hide LacksSourcetype;
  }

  /** Normalisation yields an event it leaves alone, unless a blank severity or category is left. */
  lemma NormalizedSettlesIff(e: Event, lib: Lib, now: string)
    requires lib.Clock(now) && Normalized(e, lib, now).Ok?
    ensures var n := Normalized(e, lib, now).value;
      && (Settled(n, lib) <==> NotBlank(n))
      && Filled(n.(severity := "x", eventCategory := "x"))
      && n.extra == e.extra
  {
    var named := e.(sourceType := NormalizeSourceType(e.sourceType));
    var c := Cleaned(WithDefaults(named, lib, now), lib, now);
    NormalizeFixed(e.sourceType);
    assert c.sourceType == named.sourceType;
    SourceRulesSettle(c, Clean(e.sourceType), lib);
    CleanIsFixed(WithDefaults(named, lib, now).severity);
    CleanIsFixed(WithDefaults(named, lib, now).eventCategory);
  }

  /** The texts that normalisation rewrites come out clean. */
  lemma NormalizedIsClean(e: Event, lib: Lib, now: string)
    requires Normalized(e, lib, now).Ok?
    ensures var n := Normalized(e, lib, now).value;
      && NormalizeSourceType(n.sourceType) == n.sourceType
      && Clean(n.severity) == n.severity && Clean(n.eventCategory) == n.eventCategory
  {
    var named := e.(sourceType := NormalizeSourceType(e.sourceType));
    var c := Cleaned(WithDefaults(named, lib, now), lib, now);
    NormalizeFixed(e.sourceType);
    SourceRulesSettle(c, Clean(e.sourceType), lib);
    CleanIsFixed(WithDefaults(named, lib, now).severity);
    CleanIsFixed(WithDefaults(named, lib, now).eventCategory);
  }

  const ENRICHED_TAGS: set<string> :=
    {"dmz_collector", "dmz_received_at", "purdue_zone", "splunk_sourcetype", "siem_index_hint", "high_value"}

  /** Enrichment writes six tags and nothing else. */
  lemma EnrichedFrame(e: Event, now: string)
    ensures Enriched(e, now) == e.(tags := Enriched(e, now).tags)
    ensures Enriched(e, now).tags - ENRICHED_TAGS == e.tags - ENRICHED_TAGS
  {
    hide IsHighValue, LacksSourcetype, PurdueZone, IndexHint, SplunkSourcetypeFor, ToLower;
  }

  lemma FrameKeepsKey(e: Event, f: Event, key: string)
    requires f.tags - ENRICHED_TAGS == e.tags - ENRICHED_TAGS && key !in ENRICHED_TAGS
    ensures (key in f.tags <==> key in e.tags) && (key in e.tags ==> f.tags[key] == e.tags[key])
  {
    assert key in e.tags - ENRICHED_TAGS <==> key in e.tags;
    assert key in f.tags - ENRICHED_TAGS <==> key in f.tags;
  }

  lemma HighValueIsStable(e: Event, now: string)
    ensures IsHighValue(Enriched(e, now)) == IsHighValue(e)
  {
    EnrichedFrame(e, now);
    FrameKeepsKey(e, Enriched(e, now), "alert_candidate");
    FrameKeepsKey(e, Enriched(e, now), "sensitive_action");
  }

  lemma LayerTwice(tags: Doc, layer: Doc, sourceType: string)
    requires "splunk_sourcetype" !in layer
    ensures WithSourcetype(WithSourcetype(tags, sourceType) + layer, sourceType) ==
      WithSourcetype(tags, sourceType) + layer
  {
    var once := WithSourcetype(tags, sourceType);
    var t := once + layer;
    assert "splunk_sourcetype" in once && t["splunk_sourcetype"] == once["splunk_sourcetype"];
    assert LacksSourcetype(t) == LacksSourcetype(once);
  }

  lemma LayerMoves(e: Event, now: string, later: string)
    ensures EnrichedLayer(e, later) == EnrichedLayer(e, now)["dmz_received_at" := Str(later)]
  {
  }

  lemma MovedLayer(tags: Doc, layer: Doc, key: string, v: Json)
    ensures tags + layer + layer[key := v] == (tags + layer)[key := v]
  {
  }

  /** Enriching twice only moves the reception time. */
  lemma EnrichTwice(e: Event, now: string, later: string)
    ensures Enriched(Enriched(e, now), later) ==
      Enriched(e, now).(tags := Enriched(e, now).tags["dmz_received_at" := Str(later)])
  {
    var f := Enriched(e, now);
    HighValueIsStable(e, now);
    assert EnrichedLayer(f, later) == EnrichedLayer(e, later);
    LayerMoves(e, now, later);
    LayerTwice(e.tags, EnrichedLayer(e, now), e.sourceType);
    MovedLayer(WithSourcetype(e.tags, e.sourceType), EnrichedLayer(e, now), "dmz_received_at", Str(later));
  }

  lemma LayerOver(tags: Doc, fixed: Doc, layer: Doc)
    requires tags + fixed == tags
    requires forall k :: k in fixed && k in layer ==> layer[k] == fixed[k]
    ensures tags + layer + fixed == tags + layer
  {
    assert forall k :: k in fixed ==> k in tags + fixed && (tags + fixed)[k] == fixed[k];
  }

  lemma FirewallSourcetypeStays(tags: Doc)
    requires tags + FIREWALL_TAGS == tags
    ensures WithSourcetype(tags, "firewall") == tags
  {
    NameIsClean("firewall");
    assert "splunk_sourcetype" in FIREWALL_TAGS;
    assert (tags + FIREWALL_TAGS)["splunk_sourcetype"] == FIREWALL_TAGS["splunk_sourcetype"];
  }

  lemma FirewallLayer(e: Event, now: string, k: string)
    requires e.sourceType == "firewall" && k in FIREWALL_TAGS && k in EnrichedLayer(e, now)
    ensures EnrichedLayer(e, now)[k] == FIREWALL_TAGS[k]
  {
    hide CommonLayer, IsHighValue;
    NameIsClean("firewall");
    assert k != "high_value";
    CommonFirewallLayer(e, now, k);
  }

  lemma CommonFirewallLayer(e: Event, now: string, k: string)
    requires ToLower(e.sourceType) == "firewall" && k in FIREWALL_TAGS && k in CommonLayer(e, now)
    ensures CommonLayer(e, now)[k] == FIREWALL_TAGS[k]
  {
  }

  lemma EnrichKeepsFirewall(e: Event, lib: Lib, now: string)
    requires e.sourceType == "firewall" && e.tags + FIREWALL_TAGS == e.tags
    ensures Enriched(e, now).tags + FIREWALL_TAGS == Enriched(e, now).tags
    ensures FirewallCategory(e.message, e.raw, Enriched(e, now).tags, "firewall", lib)
         == FirewallCategory(e.message, e.raw, e.tags, "firewall", lib)
  {
    hide EnrichedLayer, FirewallCategory;
    var layer := EnrichedLayer(e, now);
    FirewallSourcetypeStays(e.tags);
    forall k | k in FIREWALL_TAGS && k in layer ensures layer[k] == FIREWALL_TAGS[k] {
      FirewallLayer(e, now, k);
    }
    LayerOver(e.tags, FIREWALL_TAGS, layer);
    EnrichKeepsActions(e, now);
    SameActionsSameCategory(e, Enriched(e, now).tags, lib);
  }

  predicate SameAt(a: Doc, b: Doc, key: string) {
    (key in a <==> key in b) && (key in a ==> a[key] == b[key])
  }

  lemma EnrichKeepsActions(e: Event, now: string)
    ensures SameAt(e.tags, Enriched(e, now).tags, "action") && SameAt(e.tags, Enriched(e, now).tags, "firewall_action")
  {
    hide Enriched;
    EnrichedFrame(e, now);
    FrameKeepsKey(e, Enriched(e, now), "action");
    FrameKeepsKey(e, Enriched(e, now), "firewall_action");
  }

  lemma SameActionsSameCategory(e: Event, tags: Doc, lib: Lib)
    requires SameAt(e.tags, tags, "action") && SameAt(e.tags, tags, "firewall_action")
    ensures FirewallCategory(e.message, e.raw, tags, "firewall", lib)
         == FirewallCategory(e.message, e.raw, e.tags, "firewall", lib)
  {
    hide Alarming, ToLower, Clean;
  }

  lemma EnrichKeepsSettled(e: Event, lib: Lib, now: string)
    requires Settled(e, lib)
    ensures Settled(Enriched(e, now), lib)
  {
    EnrichedFrame(e, now);
    LayerTwice(e.tags, EnrichedLayer(e, now), e.sourceType);
    if e.sourceType == "firewall" { EnrichKeepsFirewall(e, lib, now); }
  }

  /** Preparing an event is a projection up to the reception tag, exactly when neither its severity
      nor its category came out blank. */
  lemma PreparedIsProjectionIff(e: Event, lib: Lib, now: string, later: string)
    requires lib.Clock(now) && lib.Clock(later) && Prepared(e, lib, now).Ok?
    ensures var p := Prepared(e, lib, now).value;
      Prepared(p, lib, later) == Ok(p.(tags := p.tags["dmz_received_at" := Str(later)])) <==> NotBlank(p)
  {
    var n := Normalized(e, lib, now).value;
    var p := Enriched(n, now);
    NormalizedSettlesIff(e, lib, now);
    EnrichedFrame(n, now);
    if NotBlank(n) {
      EnrichKeepsSettled(n, lib, now);
      SettledIsFixed(p, lib, later);
      EnrichedFrame(p, later);
      EnrichTwice(n, now, later);
    } else if Prepared(p, lib, later).Ok? {
      NormalizedSettlesIff(p, lib, later);
      EnrichedFrame(Normalized(p, lib, later).value, later);
      BlankIsReplaced(p, lib, later);
    }
  }

  lemma BlankIsReplaced(p: Event, lib: Lib, now: string)
    requires !NotBlank(p) && Normalized(p, lib, now).Ok?
    ensures Normalized(p, lib, now).value.severity != p.severity ||
      Normalized(p, lib, now).value.eventCategory != p.eventCategory
  {
    var named := p.(sourceType := NormalizeSourceType(p.sourceType));
    var c := Cleaned(WithDefaults(named, lib, now), lib, now);
    BlankIsFilled(named, lib, now);
    NormalizeFixed(p.sourceType);
    SourceRulesSettle(c, Clean(p.sourceType), lib);
  }

  lemma BlankIsFilled(e: Event, lib: Lib, now: string)
    ensures var c := Cleaned(WithDefaults(e, lib, now), lib, now);
      (e.severity == "" ==> c.severity != "") && (e.eventCategory == "" ==> c.eventCategory != "")
  {
    assert IsName("info") && IsName("unknown");
    NameIsClean("info");
    NameIsClean("unknown");
  }

  /** A prepared event has an ID, and reads back from disk unchanged exactly when neither its severity
      nor its category is blank and no extra field uses a known name. */
  lemma PreparedIsStorableIff(e: Event, lib: Lib, now: string)
    requires lib.Clock(now) && Prepared(e, lib, now).Ok?
    ensures var p := Prepared(e, lib, now).value;
      && p.id != "" && p.extra == e.extra
      && (Storable(p) <==> NotBlank(p) && e.extra.Keys !! KNOWN_KEYS)
  {
    var n := Normalized(e, lib, now).value;
    NormalizedSettlesIff(e, lib, now);
    EnrichedFrame(n, now);
    LowerIdempotent(Trim(n.severity));
    LowerIdempotent(Trim(n.eventCategory));
  }
}
