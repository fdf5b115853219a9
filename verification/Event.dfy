/** The event and its JSON form (internal/event/model.go). An event is stored as the document that
    `Encoded` gives and read back by `Decoded`. */
module Event {
  import opened Json
  import opened Text
  import opened SourceUtil

  datatype Event = Event(
    id: string, timestamp: string, receivedAt: string, zone: string, source: string,
    sourceType: string, assetName: string, assetIP: string, severity: string, protocol: string,
    eventCategory: string, message: string, raw: string, tags: Doc, extra: Doc)

  const KNOWN_KEYS: set<string> :=
    {"id", "timestamp", "received_at", "zone", "source", "source_type", "asset_name", "asset_ip",
     "severity", "protocol", "event_category", "message", "raw", "tags"}

  function KnownField(e: Event, k: string): Json {
    match k
    case "id" => Str(e.id)
    case "timestamp" => Str(e.timestamp)
    case "received_at" => Str(e.receivedAt)
    case "zone" => Str(e.zone)
    case "source" => Str(e.source)
    case "source_type" => Str(e.sourceType)
    case "asset_name" => Str(e.assetName)
    case "asset_ip" => Str(e.assetIP)
    case "severity" => Str(e.severity)
    case "protocol" => Str(e.protocol)
    case "event_category" => Str(e.eventCategory)
    case "message" => Str(e.message)
    case "raw" => Str(e.raw)
    case _ => Obj(e.tags)
  }

  /** The document of an event: the known fields, and the extra fields that clash with none. */
  function Encoded(e: Event): Doc {
    map k | k in KNOWN_KEYS + e.extra.Keys :: if k in KNOWN_KEYS then KnownField(e, k) else e.extra[k]
  }

  method ToMap(e: Event) returns (out: Doc)
    ensures out == Encoded(e)
  {
    out := map k | k in KNOWN_KEYS :: KnownField(e, k);
    var todo := e.extra.Keys;
    while todo != {}
      invariant todo <= e.extra.Keys
      invariant out.Keys == KNOWN_KEYS + (e.extra.Keys - todo)
      invariant forall k :: k in out ==> out[k] == if k in KNOWN_KEYS then KnownField(e, k) else e.extra[k]
    {
      var k :| k in todo;
      todo := todo - {k};
      if k !in out {
        out := out[k := e.extra[k]];
      }
    }
  }

  function GetString(m: Doc, k: string, lib: Lib): string {
    if k !in m || m[k].Null? then "" else if m[k].Str? then m[k].s else lib.sprint(m[k])
  }

  function Or(value: string, default: string): string {
    if value == "" then default else value
  }

  function DigestOf(e: Event): string {
    e.timestamp + "|" + e.sourceType + "|" + e.assetIP + "|" + e.message + "|" + e.raw + "|" + e.eventCategory
  }

  function FilledIn(e: Event, now: string): Event {
    e.(timestamp := Or(e.timestamp, now), receivedAt := Or(e.receivedAt, now), zone := Or(e.zone, "OT"),
       sourceType := Or(e.sourceType, "unknown"), source := Or(e.source, "unknown"),
       severity := Or(e.severity, "info"), protocol := Or(e.protocol, "syslog"),
       eventCategory := Or(e.eventCategory, "unknown"))
  }

  function WithId(e: Event, lib: Lib): Event {
    e.(id := Or(e.id, "dmz-" + lib.digest(DigestOf(e))))
  }

  function WithDefaults(e: Event, lib: Lib, now: string): Event {
    WithId(FilledIn(e, now), lib)
  }

  method EnsureDefaults(given: Event, lib: Lib, now: string) returns (e: Event)
    ensures e == WithDefaults(given, lib, now)
  {
    hide DigestOf, Or;
    e := FillTimes(given, now);
    e := FillNames(e);
    assert e == FilledIn(given, now);
    if e.id == "" {
      e := e.(id := "dmz-" + lib.digest(DigestOf(e)));
    }
    OrIs(given.id, "dmz-" + lib.digest(DigestOf(e.(id := given.id))));
  }

  lemma OrIs(value: string, default: string)
    ensures Or(value, default) == if value == "" then default else value
  {
  }

  /** The times and the zone. */
  method FillTimes(given: Event, now: string) returns (e: Event)
    ensures e == given.(timestamp := Or(given.timestamp, now), receivedAt := Or(given.receivedAt, now),
                        zone := Or(given.zone, "OT"))
  {
    e := given;
    if e.timestamp == "" { e := e.(timestamp := now); }
    if e.receivedAt == "" { e := e.(receivedAt := now); }
    if e.zone == "" { e := e.(zone := "OT"); }
  }

  /** Type, source, severity, protocol and category. */
  method FillNames(given: Event) returns (e: Event)
    ensures e == given.(sourceType := Or(given.sourceType, "unknown"), source := Or(given.source, "unknown"),
                        severity := Or(given.severity, "info"), protocol := Or(given.protocol, "syslog"),
                        eventCategory := Or(given.eventCategory, "unknown"))
  {
    e := given;
    if e.sourceType == "" { e := e.(sourceType := "unknown"); }
    if e.source == "" { e := e.(source := "unknown"); }
    if e.severity == "" { e := e.(severity := "info"); }
    if e.protocol == "" { e := e.(protocol := "syslog"); }
    if e.eventCategory == "" { e := e.(eventCategory := "unknown"); }
  }

  function DecodedTags(m: Doc): Doc {
    if "tags" in m && m["tags"].Obj? then m["tags"].fields else map[]
  }

  function Decoded(m: Doc, lib: Lib, now: string): Event {
    WithDefaults(DecodedFields(m, m - KNOWN_KEYS, lib), lib, now)
  }

  function DecodedFields(m: Doc, extra: Doc, lib: Lib): Event {
    Event(GetString(m, "id", lib), GetString(m, "timestamp", lib), GetString(m, "received_at", lib),
          GetString(m, "zone", lib), GetString(m, "source", lib),
          NormalizeSourceType(GetString(m, "source_type", lib)), GetString(m, "asset_name", lib),
          GetString(m, "asset_ip", lib), ToLower(GetString(m, "severity", lib)), GetString(m, "protocol", lib),
          ToLower(GetString(m, "event_category", lib)), GetString(m, "message", lib), GetString(m, "raw", lib),
          DecodedTags(m), extra)
  }

  method ParseOne(m: Doc, lib: Lib, now: string) returns (e: Event)
    ensures e == Decoded(m, lib, now)
  {
    var extra: Doc := map[];
    var todo := m.Keys;
    while todo != {}
      invariant todo <= m.Keys
      invariant extra == map k | k in m.Keys - todo && k !in KNOWN_KEYS :: m[k]
    {
      var k :| k in todo;
      todo := todo - {k};
      if k !in KNOWN_KEYS {
        extra := extra[k := m[k]];
      }
    }
    assert extra == m - KNOWN_KEYS;
    e := EnsureDefaults(DecodedFields(m, extra, lib), lib, now);
  }

  /** Writing an event to a JSONL file and reading it back. */
  function Reload(e: Event, lib: Lib, now: string): Event {
    Decoded(Encoded(e), lib, now)
  }

  /** The fields that reading back replaces when they are empty. */
  predicate Filled(e: Event) {
    e.id != "" && e.timestamp != "" && e.receivedAt != "" && e.zone != "" && e.source != "" &&
    e.sourceType != "" && e.severity != "" && e.protocol != "" && e.eventCategory != ""
  }

  /** The fields that reading back rewrites are already in their normal form. */
  predicate InNormalForm(e: Event) {
    NormalizeSourceType(e.sourceType) == e.sourceType && ToLower(e.severity) == e.severity &&
    ToLower(e.eventCategory) == e.eventCategory
  }

  predicate Storable(e: Event) {
    Filled(e) && InNormalForm(e) && e.extra.Keys !! KNOWN_KEYS
  }

  lemma EncodedKeepsExtra(e: Event)
    ensures Encoded(e) - KNOWN_KEYS == e.extra - KNOWN_KEYS
  {
  }

  lemma EncodedField(e: Event, k: string, lib: Lib)
    requires k in KNOWN_KEYS
    ensures k in Encoded(e) && Encoded(e)[k] == KnownField(e, k)
    ensures KnownField(e, k).Str? ==> GetString(Encoded(e), k, lib) == KnownField(e, k).s
  {
  }

  lemma EncodedFields(e: Event, lib: Lib)
    ensures GetString(Encoded(e), "id", lib) == e.id
    ensures GetString(Encoded(e), "timestamp", lib) == e.timestamp
    ensures GetString(Encoded(e), "received_at", lib) == e.receivedAt
    ensures GetString(Encoded(e), "zone", lib) == e.zone
    ensures GetString(Encoded(e), "source", lib) == e.source
    ensures GetString(Encoded(e), "source_type", lib) == e.sourceType
    ensures GetString(Encoded(e), "asset_name", lib) == e.assetName
  {
    EncodedField(e, "id", lib);
    EncodedField(e, "timestamp", lib);
    EncodedField(e, "received_at", lib);
    EncodedField(e, "zone", lib);
    EncodedField(e, "source", lib);
    EncodedField(e, "source_type", lib);
    EncodedField(e, "asset_name", lib);
  }

  lemma EncodedMoreFields(e: Event, lib: Lib)
    ensures GetString(Encoded(e), "asset_ip", lib) == e.assetIP
    ensures GetString(Encoded(e), "severity", lib) == e.severity
    ensures GetString(Encoded(e), "protocol", lib) == e.protocol
    ensures GetString(Encoded(e), "event_category", lib) == e.eventCategory
    ensures GetString(Encoded(e), "message", lib) == e.message
    ensures GetString(Encoded(e), "raw", lib) == e.raw
    ensures DecodedTags(Encoded(e)) == e.tags
  {
    EncodedField(e, "asset_ip", lib);
    EncodedField(e, "severity", lib);
    EncodedField(e, "protocol", lib);
    EncodedField(e, "event_category", lib);
    EncodedField(e, "message", lib);
    EncodedField(e, "raw", lib);
    EncodedField(e, "tags", lib);
  }

  /** What a reload is, field by field. */
  lemma ReloadFields(e: Event, lib: Lib, now: string)
    ensures Reload(e, lib, now) ==
      WithDefaults(e.(sourceType := NormalizeSourceType(e.sourceType), severity := ToLower(e.severity),
                      eventCategory := ToLower(e.eventCategory), extra := e.extra - KNOWN_KEYS), lib, now)
  {
    EncodedKeepsExtra(e);
    EncodedFields(e, lib);
    EncodedMoreFields(e, lib);
  }

  /** A reload gives back the event exactly when the event is `Storable`. */
  lemma ReloadIsIdentityIff(e: Event, lib: Lib, now: string)
    requires lib.Clock(now)
    ensures Reload(e, lib, now) == e <==> Storable(e)
  {
    ReloadFields(e, lib, now);
    NormalizeFixed(e.sourceType);
    assert ToLower(e.severity) == "" <==> e.severity == "";
    assert ToLower(e.eventCategory) == "" <==> e.eventCategory == "";
    if e.extra.Keys !! KNOWN_KEYS {
      assert e.extra - KNOWN_KEYS == e.extra;
    } else {
      var k :| k in e.extra.Keys && k in KNOWN_KEYS;
      assert k !in e.extra - KNOWN_KEYS;
    }
  }

  /** An ID, once set, survives every reload, whatever the other fields hold. */
  lemma ReloadKeepsId(e: Event, lib: Lib, now: string)
    requires e.id != ""
    ensures Reload(e, lib, now).id == e.id
  {
    ReloadFields(e, lib, now);
  }

  lemma DefaultsFill(e: Event, lib: Lib, now: string)
    requires now != "" && NormalizeSourceType(e.sourceType) == e.sourceType && e.sourceType != ""
    requires ToLower(e.severity) == e.severity && ToLower(e.eventCategory) == e.eventCategory
    ensures Filled(WithDefaults(e, lib, now)) && InNormalForm(WithDefaults(e, lib, now))
    ensures WithDefaults(e, lib, now).extra == e.extra
  {
    assert ToLower("info") == "info" && ToLower("unknown") == "unknown";
  }

  /** One reload is enough: whatever was stored, the event read back is stored without change. */
  lemma ReloadIsAProjection(e: Event, lib: Lib, now: string, later: string)
    requires lib.Clock(now) && lib.Clock(later)
    ensures Storable(Reload(e, lib, now))
    ensures Reload(Reload(e, lib, now), lib, later) == Reload(e, lib, now)
  {
    var d := e.(sourceType := NormalizeSourceType(e.sourceType), severity := ToLower(e.severity),
                eventCategory := ToLower(e.eventCategory), extra := e.extra - KNOWN_KEYS);
    ReloadFields(e, lib, now);
    NormalizeFixed(e.sourceType);
    LowerIdempotent(e.severity);
    LowerIdempotent(e.eventCategory);
    DefaultsFill(d, lib, now);
    ReloadIsIdentityIff(WithDefaults(d, lib, now), lib, later);
  }
}
