/** The JSON form of an event by its field names (internal/event/model.go): what each field of a document is
    made of, and what is made of each field of a document. */
module Documents {
  import opened Json
  import opened Text
  import opened SourceUtil
  import opened Event

  predicate Has(d: Doc, key: string, v: Json) {
    key in d && d[key] == v
  }

  /** A document holds the fourteen fields of the event under their names. */
  lemma DocumentFields(e: Event)
    ensures var d := Encoded(e);
      && Has(d, "id", Str(e.id)) && Has(d, "timestamp", Str(e.timestamp)) && Has(d, "received_at", Str(e.receivedAt))
      && Has(d, "zone", Str(e.zone)) && Has(d, "source", Str(e.source)) && Has(d, "source_type", Str(e.sourceType))
      && Has(d, "asset_name", Str(e.assetName)) && Has(d, "asset_ip", Str(e.assetIP))
  {
    hide Encoded;
    FieldIs(e, "id");
    FieldIs(e, "timestamp");
    FieldIs(e, "received_at");
    FieldIs(e, "zone");
    FieldIs(e, "source");
    FieldIs(e, "source_type");
    FieldIs(e, "asset_name");
    FieldIs(e, "asset_ip");
  }

  lemma MoreDocumentFields(e: Event)
    ensures var d := Encoded(e);
      && Has(d, "severity", Str(e.severity)) && Has(d, "protocol", Str(e.protocol))
      && Has(d, "event_category", Str(e.eventCategory)) && Has(d, "message", Str(e.message))
      && Has(d, "raw", Str(e.raw)) && Has(d, "tags", Obj(e.tags))
  {
    hide Encoded;
    FieldIs(e, "severity");
    FieldIs(e, "protocol");
    FieldIs(e, "event_category");
    FieldIs(e, "message");
    FieldIs(e, "raw");
    FieldIs(e, "tags");
  }

  lemma FieldIs(e: Event, key: string)
    requires key in KNOWN_KEYS
    ensures Has(Encoded(e), key, KnownField(e, key))
  {
    hide KnownField;
  }

  const NAMES: seq<string> :=
    ["id", "timestamp", "received_at", "zone", "source", "source_type", "asset_name", "asset_ip", "severity",
     "protocol", "event_category", "message", "raw", "tags"]

  /** Any other field of a document is an extra field of the event, and no extra field is lost unless it has one
      of these names. */
  lemma ExtraFields(e: Event, key: string)
    requires key !in NAMES
    ensures key in Encoded(e) <==> key in e.extra
    ensures key in e.extra ==> Encoded(e)[key] == e.extra[key]
  {
    assert forall k :: k in KNOWN_KEYS <==> k in NAMES;
  }

  // ----- reading -----

  /** The text of a field: none if there is no such field or it is null, and the library's print of a value that
      is no text. */
  function TextAt(d: Doc, key: string, lib: Lib): string {
    if key !in d then ""
    else match d[key]
      case Null => ""
      case Str(s) => s
      case v => lib.sprint(v)
  }

  /** A field that was given, or what stands in for it. */
  function Given(value: string, default: string): string {
    if value != "" then value else default
  }

  lemma TextIs(d: Doc, key: string, lib: Lib)
    ensures GetString(d, key, lib) == TextAt(d, key, lib)
  {
  }

  /** Each field is read from the document's field of its name, with its default, type, severity and category in
      their normal form. */
  lemma ParsedFields(d: Doc, lib: Lib, now: string)
    ensures var e := Decoded(d, lib, now);
      && e.timestamp == Given(TextAt(d, "timestamp", lib), now)
      && e.receivedAt == Given(TextAt(d, "received_at", lib), now)
      && e.zone == Given(TextAt(d, "zone", lib), "OT") && e.source == Given(TextAt(d, "source", lib), "unknown")
      && e.sourceType == NormalizeSourceType(TextAt(d, "source_type", lib))
      && e.assetName == TextAt(d, "asset_name", lib) && e.assetIP == TextAt(d, "asset_ip", lib)
      && (TextAt(d, "id", lib) != "" ==> e.id == TextAt(d, "id", lib))
  {
    hide GetString, NormalizeSourceType, ToLower, TextAt, DigestOf, DecodedTags;
    NormalizeFixed(TextAt(d, "source_type", lib));
    TextIs(d, "timestamp", lib);
    TextIs(d, "received_at", lib);
    TextIs(d, "zone", lib);
    TextIs(d, "source", lib);
    TextIs(d, "source_type", lib);
    TextIs(d, "asset_name", lib);
    TextIs(d, "asset_ip", lib);
    TextIs(d, "id", lib);
  }

  lemma MoreParsedFields(d: Doc, lib: Lib, now: string)
    ensures var e := Decoded(d, lib, now);
      && e.severity == Given(ToLower(TextAt(d, "severity", lib)), "info")
      && e.protocol == Given(TextAt(d, "protocol", lib), "syslog")
      && e.eventCategory == Given(ToLower(TextAt(d, "event_category", lib)), "unknown")
      && e.message == TextAt(d, "message", lib) && e.raw == TextAt(d, "raw", lib)
      && e.tags == (if "tags" in d && d["tags"].Obj? then d["tags"].fields else map[])
  {
    hide GetString, NormalizeSourceType, ToLower, TextAt, DigestOf;
    TextIs(d, "severity", lib);
    TextIs(d, "protocol", lib);
    TextIs(d, "event_category", lib);
    TextIs(d, "message", lib);
    TextIs(d, "raw", lib);
  }

  /** All fields with other names, and only these, become extra fields, as they are. */
  lemma ParsedExtra(d: Doc, lib: Lib, now: string, key: string)
    ensures var e := Decoded(d, lib, now);
      && (key in e.extra <==> key in d && key !in NAMES) && (key in e.extra ==> e.extra[key] == d[key])
  {
    hide GetString, NormalizeSourceType, ToLower, DigestOf, DecodedTags;
    assert forall k :: k in KNOWN_KEYS <==> k in NAMES;
  }
}
