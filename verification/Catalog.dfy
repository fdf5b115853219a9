/** The source catalog: one record per source, fed by observed events and by configured sources
    (internal/sourcecatalog/catalog.go). */
module Catalog {
  import opened Json
  import opened Text
  import opened Wrappers
  import opened SourceUtil
  import opened Event
  import opened Counts
  import opened Sequences
  import Redaction

  datatype SourceRecord = SourceRecord(
    sourceKey: string, id: string, name: string, sourceType: string, assetIP: string, assetName: string,
    protocol: string, impact: string, zone: string, enabled: bool, forwardEnabled: bool, configured: bool,
    discovered: bool, firstSeen: Option<string>, lastSeen: Option<string>, eventCount: nat,
    severityCounts: Tally, categoryCounts: Tally, siemIndexHint: Option<string>,
    splunkSourcetype: Option<string>, lastEvent: Option<Doc>, group: string)

  /** A record with what the catalog keeps beside it. */
  datatype Source = Source(rec: SourceRecord, messages: Tally, recent: seq<Doc>)

  datatype View = View(sources: map<string, Source>, seen: set<string>)

  /** An event as the catalog reads it: cleaned up, keyed and redacted. */
  datatype Sighting = Sighting(
    id: string, key: string, sourceType: string, group: string, source: string, assetName: string,
    assetIP: string, protocol: string, zone: string, receivedAt: string, severity: string, category: string,
    message: string, indexHint: Option<string>, splunkSourcetype: string, doc: Doc)

  /** A source as the OT collector configures it. */
  datatype OTSource = OTSource(
    id: string, name: string, sourceType: string, ip: string, protocol: string, impact: string, zone: string,
    enabled: bool, forwardEnabled: bool)

  /** A configured source with its key, canonical type and group. */
  datatype Entry = Entry(key: string, sourceType: string, group: string, item: OTSource)

  const RECENT: nat := 50

  function FirstNonEmpty(values: seq<string>): string {
    if values == [] then "" else if Trim(values[0]) != "" then Trim(values[0]) else FirstNonEmpty(values[1..])
  }

  function SourceKey(sourceType: string, assetIP: string, id: string): string {
    NormalizeSourceType(sourceType) + ":" +
    if Trim(assetIP) != "" then Trim(assetIP) else if Trim(id) != "" then Trim(id) else "unknown"
  }

  /** The part of a key before its first ':'. */
  function KeyType(key: string): string {
    if key == "" || key[0] == ':' then "" else [key[0]] + KeyType(key[1..])
  }

  function TagText(tags: Doc, key: string): Option<string> {
    if key in tags && tags[key].Str? && Trim(tags[key].s) != "" then Some(Trim(tags[key].s)) else None
  }

  function Sight(e: Event): Sighting {
    var t := NormalizeSourceType(e.sourceType);
    var hint := TagText(e.tags, "siem_index_hint");
    var given := TagText(e.tags, "splunk_sourcetype");
    Sighting(
      e.id, SourceKey(t, e.assetIP, e.id), t, GroupForSourceType(t), e.source, e.assetName, e.assetIP, e.protocol,
      e.zone, e.receivedAt, Clean(e.severity), Clean(e.eventCategory), Trim(e.message),
      if hint.Some? then hint else if t == "firewall" then Some("ot_security") else None,
      if given.Some? && !EqualFold(given.value, UNKNOWN_SOURCETYPE) then given.value else SplunkSourcetypeFor(t),
      Redaction.ForUI(e.(sourceType := t)))
  }

  function EntryOf(item: OTSource): Entry {
    var t := NormalizeSourceType(item.sourceType);
    Entry(SourceKey(t, item.ip, item.id), t, GroupForSourceType(t), item)
  }

  function NewSource(key: string, group: string): Source {
    Source(SourceRecord(key, "", "", "", "", "", "", "", "", false, false, false, false, None, None, 0,
                        map[], map[], None, None, None, group), map[], [])
  }

  function SourceAt(sources: map<string, Source>, key: string, group: string): Source {
    if key in sources then sources[key] else NewSource(key, group)
  }

  /** The descriptive fields after a sighting. */
  function Described(rec: SourceRecord, g: Sighting): SourceRecord {
    var id := if rec.id == "" then FirstNonEmpty([g.id, g.source, g.assetName, g.assetIP, g.key]) else rec.id;
    rec.(sourceKey := g.key, id := id,
         name := if rec.name == "" || !rec.configured
                 then FirstNonEmpty([g.assetName, g.source, g.assetIP, rec.name, id]) else rec.name,
         sourceType := g.sourceType, group := g.group,
         assetIP := Or(rec.assetIP, g.assetIP), assetName := Or(rec.assetName, g.assetName),
         protocol := Or(rec.protocol, g.protocol), zone := Or(rec.zone, g.zone),
         siemIndexHint := if g.indexHint.Some? then g.indexHint else rec.siemIndexHint,
         splunkSourcetype := Some(g.splunkSourcetype))
  }

  /** The counters and times after a sighting. */
  function Counted(rec: SourceRecord, g: Sighting): SourceRecord {
    rec.(firstSeen := if rec.firstSeen.None? then Some(g.receivedAt) else rec.firstSeen,
         lastSeen := Some(g.receivedAt), eventCount := rec.eventCount + 1,
         severityCounts := Bump(rec.severityCounts, g.severity),
         categoryCounts := Bump(rec.categoryCounts, g.category),
         lastEvent := Some(g.doc), discovered := true,
         enabled := if rec.configured then rec.enabled else true)
  }

  function Sighted(src: Source, g: Sighting): Source {
    Source(Counted(Described(src.rec, g), g),
           if g.message == "" then src.messages else Bump(src.messages, g.message),
           LastOf(src.recent + [g.doc], RECENT))
  }

  /** `ObserveEvent`. */
  function Observed(v: View, g: Sighting): View {
    if g.id != "" && g.id in v.seen then v
    else View(v.sources[g.key := Sighted(SourceAt(v.sources, g.key, g.group), g)],
              if g.id == "" then v.seen else v.seen + {g.id})
  }

  function ConfiguredRecord(rec: SourceRecord, en: Entry): SourceRecord {
    rec.(sourceKey := en.key, id := FirstNonEmpty([en.item.id, rec.id, en.key]),
         name := FirstNonEmpty([en.item.name, rec.name, en.item.id]), sourceType := en.sourceType,
         assetIP := FirstNonEmpty([en.item.ip, rec.assetIP]), assetName := FirstNonEmpty([en.item.name, rec.assetName]),
         protocol := FirstNonEmpty([en.item.protocol, rec.protocol]),
         impact := FirstNonEmpty([en.item.impact, rec.impact]), zone := FirstNonEmpty([en.item.zone, rec.zone]),
         enabled := en.item.enabled, forwardEnabled := en.item.forwardEnabled, configured := true,
         group := if rec.group == "" then en.group else rec.group)
  }

  function ConfiguredSource(src: Source, en: Entry): Source {
    src.(rec := ConfiguredRecord(src.rec, en))
  }

  /** `mergeConfiguredLocked`. */
  function MergedOne(v: View, en: Entry): View {
    v.(sources := v.sources[en.key := ConfiguredSource(SourceAt(v.sources, en.key, en.group), en)])
  }

  function MergedAll(v: View, entries: seq<Entry>): View {
    if entries == [] then v else MergedOne(MergedAll(v, entries[..|entries| - 1]), entries[|entries| - 1])
  }

  function Entries(items: seq<OTSource>): seq<Entry> {
    if items == [] then [] else Entries(items[..|items| - 1]) + [EntryOf(items[|items| - 1])]
  }

  lemma MergedOneMore(v: View, items: seq<OTSource>, i: nat)
    requires i < |items|
    ensures MergedAll(v, Entries(items[..i + 1])) == MergedOne(MergedAll(v, Entries(items[..i])), EntryOf(items[i]))
  {
    assert items[..i + 1][..i] == items[..i];
    var before := Entries(items[..i]);
    assert (before + [EntryOf(items[i])])[..|before|] == before;
  }

  // ----- keys -----

  lemma {:induction false} KeyTypeOf(name: string, rest: string)
    requires ':' !in name
    ensures KeyType(name + ":" + rest) == name
  {
    if name != "" {
      KeyTypeOf(name[1..], rest);
      assert (name + ":" + rest)[1..] == name[1..] + ":" + rest;
      assert name == [name[0]] + name[1..];
    }
  }

  lemma KeyCarriesType(sourceType: string, assetIP: string, id: string)
    ensures KeyType(SourceKey(sourceType, assetIP, id)) == NormalizeSourceType(sourceType)
  {
    NormalizeFixed(sourceType);
    NameIsClean(NormalizeSourceType(sourceType));
    KeyTypeOf(NormalizeSourceType(sourceType),
              if Trim(assetIP) != "" then Trim(assetIP) else if Trim(id) != "" then Trim(id) else "unknown");
  }

  lemma WriteTwice(m: map<string, Source>, k: string, a: Source, b: Source)
    ensures m[k := a][k := b] == m[k := b]
  {
  }

  // ----- the catalog object -----

  class SourceState {
    var rec: SourceRecord
    var messageCounts: Tally
    var recentEvents: seq<Doc>

    constructor (key: string, group: string)
      ensures Value() == NewSource(key, group)
    {
      rec, messageCounts, recentEvents := NewSource(key, group).rec, map[], [];
    }

    function Value(): Source
      reads this
    {
      Source(rec, messageCounts, recentEvents)
    }

    /** The descriptive fields of one sighting. */
    method Describe(g: Sighting)
      modifies this`rec
      ensures rec == Described(old(rec), g)
    {
      var id, name := rec.id, rec.name;
      if id == "" {
        id := FirstNonEmpty([g.id, g.source, g.assetName, g.assetIP, g.key]);
      }
      if name == "" || !rec.configured {
        name := FirstNonEmpty([g.assetName, g.source, g.assetIP, name, id]);
      }
      var hint := if g.indexHint.Some? then g.indexHint else rec.siemIndexHint;
      rec := rec.(sourceKey := g.key, id := id, name := name, sourceType := g.sourceType, group := g.group,
                  assetIP := Or(rec.assetIP, g.assetIP), assetName := Or(rec.assetName, g.assetName),
                  protocol := Or(rec.protocol, g.protocol), zone := Or(rec.zone, g.zone),
                  siemIndexHint := hint, splunkSourcetype := Some(g.splunkSourcetype));
    }

    /** The counters and times of one sighting. */
    method Count(g: Sighting)
      modifies this`rec
      ensures rec == Counted(old(rec), g)
    {
      var firstSeen, enabled := rec.firstSeen, rec.enabled;
      if firstSeen.None? {
        firstSeen := Some(g.receivedAt);
      }
      if !rec.configured {
        enabled := true;
      }
      rec := rec.(firstSeen := firstSeen, lastSeen := Some(g.receivedAt), eventCount := rec.eventCount + 1,
                  severityCounts := Bump(rec.severityCounts, g.severity),
                  categoryCounts := Bump(rec.categoryCounts, g.category),
                  lastEvent := Some(g.doc), discovered := true, enabled := enabled);
    }

    /** The updates of one sighting. */
    method Observe(g: Sighting)
      modifies this
      ensures Value() == Sighted(old(Value()), g)
    {
      Describe(g);
      Count(g);
      if g.message != "" {
        messageCounts := Bump(messageCounts, g.message);
      }
      recentEvents := recentEvents + [g.doc];
      if |recentEvents| > RECENT {
        recentEvents := recentEvents[|recentEvents| - RECENT..];
      }
    }

    method Configure(en: Entry)
      modifies this`rec
      ensures Value() == ConfiguredSource(old(Value()), en)
    {
      rec := ConfiguredRecord(rec, en);
    }
  }

  class Catalog {
    var records: map<string, SourceState>
    var seenEventIDs: set<string>

    constructor ()
      ensures Valid() && fresh(records.Values) && Contents() == View(map[], {})
    {
      records, seenEventIDs := map[], {};
    }

    /** Each source has an object of its own. */
    ghost predicate Valid()
      reads this`records
    {
      forall j, k :: j in records && k in records && j != k ==> records[j] != records[k]
    }

    ghost function Sources(): map<string, Source>
      reads this`records, records.Values
    {
      map k | k in records :: records[k].Value()
    }

    ghost function Contents(): View
      reads this, records.Values
    {
      View(Sources(), seenEventIDs)
    }

    twostate lemma OneChanged(key: string)
      requires Valid() && records == old(records) && key in records && unchanged(records.Values - {records[key]})
      ensures Sources() == old(Sources())[key := records[key].Value()]
    {
      assert forall k :: k in records && k != key ==> records[k] in records.Values - {records[key]};
    }

    method EnsureState(key: string, group: string) returns (state: SourceState)
      requires Valid()
      modifies this`records
      ensures Valid() && key in records && state == records[key]
      ensures state in old(records.Values) || fresh(state)
      ensures fresh(records.Values - old(records.Values))
      ensures Sources() == old(Sources())[key := SourceAt(old(Sources()), key, group)]
    {
      if key in records {
        state := records[key];
      } else {
        state := new SourceState(key, group);
        records := records[key := state];
      }
    }

    method ObserveEvent(e: Event) returns (observed: bool)
      requires Valid()
      modifies this, records.Values
      ensures Valid() && fresh(records.Values - old(records.Values))
      ensures Contents() == Observed(old(Contents()), Sight(e))
      ensures observed == !(e.id != "" && e.id in old(seenEventIDs))
    {
      SightIsKeyed(e);
      var g := Sight(e);
      observed := Record(g, GroupForSourceType(KeyType(g.key)));
    }

    method Record(g: Sighting, group: string) returns (observed: bool)
      requires Valid() && g.group == group
      modifies this, records.Values
      ensures Valid() && fresh(records.Values - old(records.Values))
      ensures Contents() == Observed(old(Contents()), g)
      ensures observed == !(g.id != "" && g.id in old(seenEventIDs))
    {
      hide SourceAt, Sighted;
      if g.id != "" {
        if g.id in seenEventIDs {
          return false;
        }
        seenEventIDs := seenEventIDs + {g.id};
      }
      Update(g, group);
      return true;
    }

    method Update(g: Sighting, group: string)
      requires Valid()
      modifies this`records, records.Values
      ensures Valid() && fresh(records.Values - old(records.Values))
      ensures Sources() == old(Sources())[g.key := Sighted(SourceAt(old(Sources()), g.key, group), g)]
    {
      hide SourceAt, NewSource, Sighted;
      ghost var src := SourceAt(Sources(), g.key, group);
      var state := EnsureState(g.key, group);
      label Ensured:
      state.Observe(g);
      OneChanged@Ensured(g.key);
      WriteTwice(old(Sources()), g.key, src, Sighted(src, g));
    }

    method MergeConfigured(item: OTSource)
      requires Valid()
      modifies this, records.Values
      ensures Valid() && fresh(records.Values - old(records.Values))
      ensures Contents() == MergedOne(old(Contents()), EntryOf(item))
    {
      EntryIsKeyed(item);
      var en := EntryOf(item);
      Configure(en, GroupForSourceType(KeyType(en.key)));
      assert Contents() == MergedOne(old(Contents()), en);
    }

    method Configure(en: Entry, group: string)
      requires Valid()
      modifies this`records, records.Values
      ensures Valid() && fresh(records.Values - old(records.Values))
      ensures Sources() == old(Sources())[en.key := ConfiguredSource(SourceAt(old(Sources()), en.key, group), en)]
    {
      hide SourceAt, NewSource, ConfiguredSource;
      ghost var src := SourceAt(Sources(), en.key, group);
      var state := EnsureState(en.key, group);
      label Ensured:
      state.Configure(en);
      OneChanged@Ensured(en.key);
      WriteTwice(old(Sources()), en.key, src, ConfiguredSource(src, en));
    }

    method MergeConfiguredSources(items: seq<OTSource>)
      requires Valid()
      modifies this, records.Values
      ensures Valid() && fresh(records.Values - old(records.Values))
      ensures Contents() == MergedAll(old(Contents()), Entries(items))
    {
      for i := 0 to |items|
        invariant Valid() && fresh(records.Values - old(records.Values))
        invariant Contents() == MergedAll(old(Contents()), Entries(items[..i]))
      {
        MergedOneMore(old(Contents()), items, i);
        MergeConfigured(items[i]);
      }
      assert items[..|items|] == items;
    }
  }

  lemma SightIsKeyed(e: Event)
    ensures Sight(e).id == e.id && KeyType(Sight(e).key) == Sight(e).sourceType
    ensures Sight(e).group == GroupForSourceType(KeyType(Sight(e).key))
  {
    NormalizeFixed(e.sourceType);
    KeyCarriesType(NormalizeSourceType(e.sourceType), e.assetIP, e.id);
  }

  lemma EntryIsKeyed(item: OTSource)
    ensures KeyType(EntryOf(item).key) == EntryOf(item).sourceType
    ensures EntryOf(item).group == GroupForSourceType(KeyType(EntryOf(item).key))
  {
    NormalizeFixed(item.sourceType);
    KeyCarriesType(NormalizeSourceType(item.sourceType), item.ip, item.id);
  }
}
