/** What an event is after preparation, in the fields its sender gave (internal/normalizer/validator.go and
    internal/normalizer/enricher.go). */
module PreparedFields {
  import opened Json
  import opened Text
  import opened JoinedText
  import opened SourceUtil
  import opened Wrappers
  import opened Event
  import opened Normalizer
  import opened Documents

  /** An event is rejected exactly when its timestamp, the time of its arrival if it has none, is no time. */
  lemma RejectedIff(x: Event, lib: Lib, now: string)
    ensures Prepared(x, lib, now).Err? <==> !lib.isTime(Given(x.timestamp, now))
  {
    hide WithSourcetype, EnrichedLayer, BySource, NormalizeSourceType;
  }

  // ----- the steps of preparation -----

  /** The event before the rules of its source type. */
  function Cleansed(x: Event, lib: Lib, now: string): Event {
    Cleaned(WithDefaults(x.(sourceType := NormalizeSourceType(x.sourceType)), lib, now), lib, now)
  }

  lemma CleansedFields(x: Event, lib: Lib, now: string)
    ensures var c := Cleansed(x, lib, now);
      && c.timestamp == Given(x.timestamp, now) && c.zone == Given(x.zone, "OT")
      && c.source == Given(x.source, "unknown") && c.protocol == Given(x.protocol, "syslog")
      && c.receivedAt == (if x.receivedAt != "" && lib.isTime(x.receivedAt) then x.receivedAt else now)
      && c.sourceType == NormalizeSourceType(x.sourceType)
      && c.severity == Clean(Given(x.severity, "info")) && c.eventCategory == Clean(Given(x.eventCategory, "unknown"))
      && c.assetName == x.assetName && c.assetIP == x.assetIP && c.message == x.message && c.raw == x.raw
      && c.extra == x.extra && c.tags == x.tags
  {
    hide Clean, NormalizeSourceType;
    NormalizeFixed(x.sourceType);
  }

  lemma PreparedSteps(x: Event, lib: Lib, now: string)
    requires Prepared(x, lib, now).Ok?
    ensures var n := BySource(Cleansed(x, lib, now), Clean(x.sourceType), lib);
      Normalized(x, lib, now) == Ok(n) && Prepared(x, lib, now) == Ok(Enriched(n, now))
  {
    hide BySource, Enriched;
  }

  lemma RuledFields(c: Event, originalType: string, lib: Lib)
    ensures var n := BySource(c, originalType, lib);
      && n == c.(tags := n.tags, eventCategory := n.eventCategory)
      && (c.sourceType != "firewall" ==> n.eventCategory == c.eventCategory)
      && (c.sourceType == "firewall" ==>
            && n.tags == c.tags + FIREWALL_TAGS
            && n.eventCategory == FirewallCategory(c.message, c.raw, n.tags, originalType, lib))
      && (c.sourceType != "firewall" ==> WithSourcetype(n.tags, n.sourceType) == WithSourcetype(c.tags, c.sourceType))
  {
    hide FirewallCategory, WithSourcetype;
    if c.sourceType != "firewall" { SourcetypeSettles(c.tags, c.sourceType); }
  }

  /** The plain fields: defaults for what is missing, a canonical type, clean severity and category, a valid
      reception time; the rest as given. A firewall's category is judged anew. */
  lemma PlainFields(x: Event, lib: Lib, now: string)
    requires Prepared(x, lib, now).Ok?
    ensures var p := Prepared(x, lib, now).value;
      && p.timestamp == Given(x.timestamp, now) && p.zone == Given(x.zone, "OT")
      && p.source == Given(x.source, "unknown") && p.protocol == Given(x.protocol, "syslog")
      && p.receivedAt == (if x.receivedAt != "" && lib.isTime(x.receivedAt) then x.receivedAt else now)
      && p.sourceType == NormalizeSourceType(x.sourceType)
      && p.severity == Clean(Given(x.severity, "info"))
      && (p.sourceType != "firewall" ==> p.eventCategory == Clean(Given(x.eventCategory, "unknown")))
      && p.assetName == x.assetName && p.assetIP == x.assetIP && p.message == x.message && p.raw == x.raw
      && p.extra == x.extra
  {
    hide *;
    PreparedSteps(x, lib, now);
    var c := Cleansed(x, lib, now);
    CleansedFields(x, lib, now);
    RuledFields(c, Clean(x.sourceType), lib);
    EnrichedFrame(BySource(c, Clean(x.sourceType), lib), now);
  }

  // ----- the tags -----

  /** The tags a firewall's sender gets are three more, or overwritten. */
  lemma FirewallTags(tags: Doc, key: string)
    ensures var t := tags + FIREWALL_TAGS;
      && (key !in {"firewall_vendor", "splunk_sourcetype", "siem_index_hint"} ==> SameAt(tags, t, key))
      && "firewall_vendor" in t && t["firewall_vendor"] == Str("opnsense")
      && "splunk_sourcetype" in t && t["splunk_sourcetype"] == Str("labshock:net:firewall")
  {
  }

  /** Apart from the keys the collector writes, the tags are the sender's. */
  lemma SendersTags(x: Event, lib: Lib, now: string, key: string)
    requires Prepared(x, lib, now).Ok?
    requires key !in {"dmz_collector", "dmz_received_at", "purdue_zone", "splunk_sourcetype", "siem_index_hint",
                      "high_value"}
    requires key != "firewall_vendor" || NormalizeSourceType(x.sourceType) != "firewall"
    ensures SameAt(x.tags, Prepared(x, lib, now).value.tags, key)
  {
    hide *;
    PreparedSteps(x, lib, now);
    var c := Cleansed(x, lib, now);
    var n := BySource(c, Clean(x.sourceType), lib);
    CleansedFields(x, lib, now);
    RuledTags(c, Clean(x.sourceType), lib, key);
    EnrichedFrame(n, now);
    SameByFrame(n, Enriched(n, now), key);
    SameAtTwice(x.tags, n.tags, Enriched(n, now).tags, key);
  }

  lemma SameByFrame(e: Event, f: Event, key: string)
    requires f.tags - ENRICHED_TAGS == e.tags - ENRICHED_TAGS
    requires key !in {"dmz_collector", "dmz_received_at", "purdue_zone", "splunk_sourcetype", "siem_index_hint",
                      "high_value"}
    ensures SameAt(e.tags, f.tags, key)
  {
    FrameKeepsKey(e, f, key);
  }

  lemma SameAtTwice(a: Doc, b: Doc, c: Doc, key: string)
    requires SameAt(a, b, key) && SameAt(b, c, key)
    ensures SameAt(a, c, key)
  {
  }

  lemma RuledTags(c: Event, originalType: string, lib: Lib, key: string)
    requires key !in {"splunk_sourcetype", "siem_index_hint"}
    requires key != "firewall_vendor" || c.sourceType != "firewall"
    ensures SameAt(c.tags, BySource(c, originalType, lib).tags, key)
  {
    hide FirewallCategory, LacksSourcetype;
    FirewallTags(c.tags, key);
  }

  /** What preparation writes, in the layers it writes it in. */
  lemma TagsAre(x: Event, lib: Lib, now: string)
    requires Prepared(x, lib, now).Ok?
    ensures var p := Prepared(x, lib, now).value;
      var n := p.(tags := BySource(Cleansed(x, lib, now), Clean(x.sourceType), lib).tags);
      && p == Enriched(n, now)
      && WithSourcetype(n.tags, n.sourceType) ==
           WithSourcetype(if p.sourceType == "firewall" then x.tags + FIREWALL_TAGS else x.tags, p.sourceType)
      && ToLower(p.sourceType) == p.sourceType && ToLower(p.severity) == p.severity
      && ToLower(p.eventCategory) == p.eventCategory
  {
    hide *;
    PreparedSteps(x, lib, now);
    var c := Cleansed(x, lib, now);
    var n := BySource(c, Clean(x.sourceType), lib);
    CleansedFields(x, lib, now);
    RuledFields(c, Clean(x.sourceType), lib);
    EnrichedFrame(n, now);
    NormalizedIsClean(x, lib, now);
    CleanTwice(n.severity);
    CleanTwice(n.eventCategory);
    NormalizeFixed(x.sourceType);
    NameIsLower(n.sourceType);
  }

  lemma CleanTwice(s: string)
    requires Clean(s) == s
    ensures ToLower(s) == s
  {
    CleanIsFixed(s);
  }

  lemma NameIsLower(s: string)
    requires IsName(s)
    ensures ToLower(s) == s
  {
  }

  predicate TagIs(tags: Doc, key: string, v: Json) {
    key in tags && tags[key] == v
  }

  /** The tags every event gets, whatever it had under these keys: the collector's name, the time of
      preparation, the zone of the type and the index its events belong in. */
  lemma CommonTagsAre(x: Event, lib: Lib, now: string)
    requires Prepared(x, lib, now).Ok?
    ensures var p := Prepared(x, lib, now).value;
      && TagIs(p.tags, "dmz_collector", Str("dmz_collector")) && TagIs(p.tags, "dmz_received_at", Str(now))
      && TagIs(p.tags, "purdue_zone", Str(PurdueZone(p.sourceType)))
      && TagIs(p.tags, "siem_index_hint", Str(IndexHint(p.sourceType, p.eventCategory, p.severity)))
  {
    hide *;
    TagsAre(x, lib, now);
    var p := Prepared(x, lib, now).value;
    EnrichedCommonTags(p.(tags := BySource(Cleansed(x, lib, now), Clean(x.sourceType), lib).tags), now);
  }

  lemma EnrichedCommonTags(e: Event, now: string)
    requires ToLower(e.sourceType) == e.sourceType && ToLower(e.severity) == e.severity
    requires ToLower(e.eventCategory) == e.eventCategory
    ensures var tags := Enriched(e, now).tags;
      && TagIs(tags, "dmz_collector", Str("dmz_collector")) && TagIs(tags, "dmz_received_at", Str(now))
      && TagIs(tags, "purdue_zone", Str(PurdueZone(e.sourceType)))
      && TagIs(tags, "siem_index_hint", Str(IndexHint(e.sourceType, e.eventCategory, e.severity)))
  {
    hide WithSourcetype, IsHighValue, PurdueZone, IndexHint, ToLower;
  }

  /** Operations and telemetry are told by their category, unless type or severity make it a security matter;
      so is everything else. */
  lemma HintsAre(t: string, category: string, severity: string)
    ensures var hint, grave := IndexHint(t, category, severity), severity in {"critical", "error"} ||
      t in {"firewall", "ids"};
      && (hint == "ot_operations" <==> !grave && category in {"operator_action", "operator_read", "operator_write"})
      && (hint == "ot_telemetry" <==> !grave && category in {"runtime", "system", "network", "communication"})
      && hint in {"ot_operations", "ot_telemetry", "ot_security"}
  {
  }

  /** The sourcetype: a firewall's is always the same; another event keeps the one it has, unless that is
      blank, no text or the one of unknown sources, and then gets that of its type. */
  lemma SourcetypeTag(x: Event, lib: Lib, now: string)
    requires Prepared(x, lib, now).Ok?
    ensures var p := Prepared(x, lib, now).value;
      var own := if "splunk_sourcetype" in x.tags && x.tags["splunk_sourcetype"].Str?
                 then Trim(x.tags["splunk_sourcetype"].s) else "";
      TagIs(p.tags, "splunk_sourcetype",
            if p.sourceType == "firewall" then Str("labshock:net:firewall")
            else if own != "" && ToLower(own) != "labshock:ot:unknown" then x.tags["splunk_sourcetype"]
            else Str(SplunkSourcetypeFor(x.sourceType)))
  {
    hide BySource, Clean, Enriched, Prepared, Trim, SplunkSourcetypeFor, WithSourcetype;
    TagsAre(x, lib, now);
    PlainFields(x, lib, now);
    var p := Prepared(x, lib, now).value;
    EnrichedSourcetype(p.(tags := BySource(Cleansed(x, lib, now), Clean(x.sourceType), lib).tags), now);
    SourcetypeOf(if p.sourceType == "firewall" then x.tags + FIREWALL_TAGS else x.tags, p.sourceType);
    FirewallTags(x.tags, "action");
    FirewallName();
    SameTable(x.sourceType);
    UnknownIsLower();
  }

  lemma EnrichedSourcetype(e: Event, now: string)
    ensures SameAt(WithSourcetype(e.tags, e.sourceType), Enriched(e, now).tags, "splunk_sourcetype")
  {
    hide WithSourcetype, IsHighValue, PurdueZone, IndexHint, ToLower;
  }

  lemma FirewallName()
    ensures Trim("labshock:net:firewall") == "labshock:net:firewall"
    ensures ToLower("labshock:net:firewall") == "labshock:net:firewall"
  {
    TrimmedIsFixed("labshock:net:firewall");
  }

  lemma UnknownIsLower()
    ensures ToLower(UNKNOWN_SOURCETYPE) == "labshock:ot:unknown"
  {
  }

  lemma SameTable(raw: string)
    ensures SplunkSourcetypeFor(NormalizeSourceType(raw)) == SplunkSourcetypeFor(raw)
  {
    hide NormalizeSourceType;
    NormalizeFixed(raw);
  }

  lemma SourcetypeOf(tags: Doc, t: string)
    ensures var own := if "splunk_sourcetype" in tags && tags["splunk_sourcetype"].Str?
                       then Trim(tags["splunk_sourcetype"].s) else "";
      TagIs(WithSourcetype(tags, t), "splunk_sourcetype",
            if own != "" && !EqualFold(own, UNKNOWN_SOURCETYPE) then tags["splunk_sourcetype"]
            else Str(SplunkSourcetypeFor(t)))
  {
    hide Trim, SplunkSourcetypeFor, ToLower;
  }

  // ----- high value -----

  predicate TrueTag(tags: Doc, key: string) {
    key in tags && (tags[key] == Bool(true) || (tags[key].Str? && ToLower(tags[key].s) == "true"))
  }

  /** What makes an event urgent. */
  predicate Urgent(e: Event) {
    || e.severity in {"critical", "error"} || e.eventCategory in {"security", "operator_write"}
    || e.sourceType in {"ids", "firewall"} || TrueTag(e.tags, "alert_candidate") || TrueTag(e.tags, "sensitive_action")
  }

  /** The same of an event as its sender wrote it; the category a firewall gives has no say. */
  predicate UrgentAsSent(x: Event) {
    || Clean(x.severity) in {"critical", "error"} || Clean(x.eventCategory) in {"security", "operator_write"}
    || NormalizeSourceType(x.sourceType) in {"ids", "firewall"}
    || TrueTag(x.tags, "alert_candidate") || TrueTag(x.tags, "sensitive_action")
  }

  /** The tag by which events are sent first marks exactly the urgent ones and those whose sender set it. */
  lemma HighValueTag(x: Event, lib: Lib, now: string)
    requires Prepared(x, lib, now).Ok?
    ensures var p := Prepared(x, lib, now).value;
      TagIs(p.tags, "high_value", Bool(true)) <==> Urgent(p) || TagIs(x.tags, "high_value", Bool(true))
  {
    hide BySource, Clean, Enriched, Prepared, WithSourcetype, IsHighValue, TrueTag;
    TagsAre(x, lib, now);
    var p := Prepared(x, lib, now).value;
    var n := p.(tags := BySource(Cleansed(x, lib, now), Clean(x.sourceType), lib).tags);
    EnrichedHighValue(n, now);
    EnrichedFrame(n, now);
    SameTrueTags(n, p);
    UrgentIs(n);
    var base := if p.sourceType == "firewall" then x.tags + FIREWALL_TAGS else x.tags;
    OtherTagsStay(base, p.sourceType, "high_value");
    FirewallTags(x.tags, "high_value");
  }

  lemma EnrichedHighValue(e: Event, now: string)
    ensures TagIs(Enriched(e, now).tags, "high_value", Bool(true)) <==>
      IsHighValue(e) || TagIs(WithSourcetype(e.tags, e.sourceType), "high_value", Bool(true))
  {
    hide WithSourcetype, IsHighValue, PurdueZone, IndexHint, ToLower;
  }

  lemma SameTrueTags(e: Event, f: Event)
    requires f.tags - ENRICHED_TAGS == e.tags - ENRICHED_TAGS
    ensures TrueTag(f.tags, "alert_candidate") == TrueTag(e.tags, "alert_candidate")
    ensures TrueTag(f.tags, "sensitive_action") == TrueTag(e.tags, "sensitive_action")
  {
    FrameKeepsKey(e, f, "alert_candidate");
    FrameKeepsKey(e, f, "sensitive_action");
  }

  lemma UrgentIs(e: Event)
    requires ToLower(e.sourceType) == e.sourceType && ToLower(e.severity) == e.severity
    requires ToLower(e.eventCategory) == e.eventCategory
    ensures IsHighValue(e) <==> Urgent(e)
  {
    TrueTagIs(e.tags, "alert_candidate");
    TrueTagIs(e.tags, "sensitive_action");
    hide ToLower, Truthy, TrueTag;
  }

  lemma TrueTagIs(tags: Doc, key: string)
    ensures Truthy(tags, key) <==> TrueTag(tags, key)
  {
    assert ToLower("true") == "true";
  }

  lemma OtherTagsStay(tags: Doc, t: string, key: string)
    requires key != "splunk_sourcetype"
    ensures SameAt(tags, WithSourcetype(tags, t), key)
  {
    hide LacksSourcetype;
  }

  /** Urgency is decided by what the sender wrote. */
  lemma UrgencyIsTheSenders(x: Event, lib: Lib, now: string)
    requires Prepared(x, lib, now).Ok?
    ensures Urgent(Prepared(x, lib, now).value) <==> UrgentAsSent(x)
  {
    hide Prepared, Clean, NormalizeSourceType, SameAt;
    PlainFields(x, lib, now);
    DefaultsAreNotUrgent(x);
    SendersTags(x, lib, now, "alert_candidate");
    SendersTags(x, lib, now, "sensitive_action");
    SameTag(x.tags, Prepared(x, lib, now).value.tags, "alert_candidate");
    SameTag(x.tags, Prepared(x, lib, now).value.tags, "sensitive_action");
  }

  lemma SameTag(a: Doc, b: Doc, key: string)
    requires SameAt(a, b, key)
    ensures TrueTag(a, key) == TrueTag(b, key)
  {
  }

  lemma DefaultsAreNotUrgent(x: Event)
    ensures Clean("info") == "info" && Clean("unknown") == "unknown" && Clean("") == ""
  {
    assert IsName("info") && IsName("unknown");
    NameIsClean("info");
    NameIsClean("unknown");
  }

  // ----- the category of a firewall's event -----

  /** One of the five words of a refusal, in whatever case. */
  predicate Alarms(text: string) {
    || Contains(ToLower(text), "drop") || Contains(ToLower(text), "block") || Contains(ToLower(text), "deny")
    || Contains(ToLower(text), "reject") || Contains(ToLower(text), "alert")
  }

  predicate TagAlarms(tags: Doc, key: string, lib: Lib) {
    key in tags && Alarms(lib.sprint(tags[key]))
  }

  /** A firewall's event is a security matter exactly when its message, its raw text or one of its two action
      tags has one of the five words, and else it is network traffic; its sender's category has no say. */
  lemma FirewallCategoryIs(x: Event, lib: Lib, now: string)
    requires Prepared(x, lib, now).Ok? && NormalizeSourceType(x.sourceType) == "firewall"
    ensures Prepared(x, lib, now).value.eventCategory ==
      if Alarms(x.message) || Alarms(x.raw) || TagAlarms(x.tags, "action", lib)
         || TagAlarms(x.tags, "firewall_action", lib)
      then "security" else "network"
  {
    hide *;
    PreparedSteps(x, lib, now);
    var c := Cleansed(x, lib, now);
    var n := BySource(c, Clean(x.sourceType), lib);
    CleansedFields(x, lib, now);
    RuledFields(c, Clean(x.sourceType), lib);
    EnrichedFrame(n, now);
    FirewallTags(x.tags, "action");
    FirewallTags(x.tags, "firewall_action");
    FirewallAlarms(x, n.tags, lib);
  }

  lemma FirewallAlarms(x: Event, tags: Doc, lib: Lib)
    requires NormalizeSourceType(x.sourceType) == "firewall"
    requires SameAt(x.tags, tags, "action") && SameAt(x.tags, tags, "firewall_action")
    ensures FirewallCategory(x.message, x.raw, tags, Clean(x.sourceType), lib) ==
      if Alarms(x.message) || Alarms(x.raw) || TagAlarms(x.tags, "action", lib)
         || TagAlarms(x.tags, "firewall_action", lib)
      then "security" else "network"
  {
    FirewallNameDoesNotMatter(x.message, x.raw, tags, Clean(x.sourceType), lib);
    FirewallCategoryByPiece(x.message, x.raw, tags, "firewall", lib);
    TwoCategories(x.message, x.raw, tags, lib);
    NoAlarmIn("firewall");
    AlarmsIs(x.message);
    AlarmsIs(x.raw);
    TagAlarmsIs(x.tags, tags, "action", lib);
    TagAlarmsIs(x.tags, tags, "firewall_action", lib);
    hide *;
  }

  lemma TwoCategories(message: string, raw: string, tags: Doc, lib: Lib)
    ensures FirewallCategory(message, raw, tags, "firewall", lib) in {"security", "network"}
  {
    hide Alarming;
  }

  lemma AlarmsIs(text: string)
    ensures Alarming(ToLower(text)) <==> Alarms(text)
  {
    hide Contains, ToLower;
    assert forall w :: w in ALARM_WORDS <==> w in {"drop", "block", "deny", "reject", "alert"};
  }

  lemma TagAlarmsIs(a: Doc, b: Doc, key: string, lib: Lib)
    requires SameAt(a, b, key)
    ensures Alarming(ToLower(TagString(b, key, lib))) <==> TagAlarms(a, key, lib)
  {
    AlarmsIs(TagString(b, key, lib));
    if key in b {
      CleanAlarms(lib.sprint(b[key]));
    } else {
      assert !Contains("", "drop") && !Contains("", "block") && !Contains("", "deny") && !Contains("", "reject")
             && !Contains("", "alert");
    }
  }

  /** Cleaning a text up does not change whether it has one of the words. */
  lemma CleanAlarms(text: string)
    ensures Alarms(Clean(text)) <==> Alarms(text)
  {
    hide *;
    WordsAreSolid();
    CleanKeepsWord(text, "drop");
    CleanKeepsWord(text, "block");
    CleanKeepsWord(text, "deny");
    CleanKeepsWord(text, "reject");
    CleanKeepsWord(text, "alert");
    AlarmsByWord(text);
    AlarmsByWord(Clean(text));
  }

  lemma WordsAreSolid()
    ensures forall w, c :: w in {"drop", "block", "deny", "reject", "alert"} && c in w ==> !IsSpace(c)
  {
  }

  lemma AlarmsByWord(text: string)
    ensures Alarms(text) <==>
      || Contains(ToLower(text), "drop") || Contains(ToLower(text), "block") || Contains(ToLower(text), "deny")
      || Contains(ToLower(text), "reject") || Contains(ToLower(text), "alert")
  {
    hide Contains, ToLower;
  }

  lemma CleanKeepsWord(text: string, word: string)
    requires word != "" && forall c :: c in word ==> !IsSpace(c)
    ensures Contains(ToLower(Clean(text)), word) <==> Contains(ToLower(text), word)
  {
    CleanIsFixed(text);
    var before, after := TrimTakesTheEnds(text);
    SpacesStay(before, after);
    TrimKeepsWord(ToLower(before), ToLower(Trim(text)), ToLower(after), word);
    LowerOfConcat(before + Trim(text), after);
    LowerOfConcat(before, Trim(text));
    hide *;
  }

  lemma SpacesStay(a: string, b: string)
    requires forall c :: c in a + b ==> IsSpace(c)
    ensures forall c :: c in ToLower(a) + ToLower(b) ==> IsSpace(c)
  {
    forall i | 0 <= i < |a| ensures IsSpace(ToLower(a)[i]) { assert a[i] in a + b; }
    forall i | 0 <= i < |b| ensures IsSpace(ToLower(b)[i]) { assert b[i] in a + b; }
  }

  /** A word without white space is not found across the ends of a text. */
  lemma TrimKeepsWord(before: string, text: string, after: string, word: string)
    requires word != "" && (forall c :: c in word ==> !IsSpace(c)) && forall c :: c in before + after ==> IsSpace(c)
    ensures Contains(before + text + after, word) <==> Contains(text, word)
  {
    var s, n := before + text + after, |word|;
    if Contains(text, word) { ContainsPart(before, text, after, word); }
    forall j | 0 <= j < |before| || |before| + |text| <= j < |s| ensures IsSpace(s[j]) {
      assert s[j] in before + after;
    }
    if i :| 0 <= i <= |s| && OccursAt(s, word, i) {
      OccursCharacter(s, word, i, 0);
      OccursCharacter(s, word, i, n - 1);
      assert word[0] in word && word[n - 1] in word;
      assert s[i..i + n] == text[i - |before|..i - |before| + n];
      assert OccursAt(text, word, i - |before|);
    }
  }
}
