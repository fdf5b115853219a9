/** Which events and configured sources share a record of the catalog (internal/sourcecatalog/catalog.go),
    and what the record then tells of them. */
module SourceKeys {
  import opened Sequences
  import opened Text
  import opened SourceUtil
  import opened Wrappers
  import opened Event
  import opened Counts
  import opened Catalog
  import opened CatalogLog

  /** What stands for a source within its type: its address, failing that its ID, failing that nothing. */
  function Place(assetIP: string, id: string): string {
    if Trim(assetIP) != "" then Trim(assetIP) else if Trim(id) != "" then Trim(id) else "unknown"
  }

  /** A type without ':' in front of the first ':', and the rest behind it. */
  lemma TypesAndPlaces(t: string, u: string, p: string, q: string)
    requires ':' !in t && ':' !in u
    ensures t + ":" + p == u + ":" + q <==> t == u && p == q
  {
    KeyTypeOf(t, p);
    KeyTypeOf(u, q);
    assert (t + ":" + p)[|t| + 1..] == p && (u + ":" + q)[|u| + 1..] == q;
  }

  lemma KeyParts(sourceType: string, assetIP: string, id: string)
    ensures ':' !in NormalizeSourceType(sourceType)
    ensures SourceKey(NormalizeSourceType(sourceType), assetIP, id) ==
      NormalizeSourceType(sourceType) + ":" + Place(assetIP, id)
  {
    NormalizeFixed(sourceType);
    NameIsClean(NormalizeSourceType(sourceType));
  }

  /** An event or a configured source, as far as its key is concerned. */
  lemma KeysAgreeIff(a: string, ip: string, id: string, b: string, otherIP: string, other: string)
    ensures SourceKey(NormalizeSourceType(a), ip, id) == SourceKey(NormalizeSourceType(b), otherIP, other) <==>
      NormalizeSourceType(a) == NormalizeSourceType(b) && Place(ip, id) == Place(otherIP, other)
  {
    hide SourceKey, Place, NormalizeSourceType;
    KeyParts(a, ip, id);
    KeyParts(b, otherIP, other);
    TypesAndPlaces(NormalizeSourceType(a), NormalizeSourceType(b), Place(ip, id), Place(otherIP, other));
  }

  /** Two events with addresses go to one record exactly when types and addresses agree, whatever their IDs. */
  lemma EventsMeetByAddress(e: Event, f: Event)
    requires Trim(e.assetIP) != "" && Trim(f.assetIP) != ""
    ensures Sight(e).key == Sight(f).key <==>
      NormalizeSourceType(e.sourceType) == NormalizeSourceType(f.sourceType) && Trim(e.assetIP) == Trim(f.assetIP)
  {
    KeysAgreeIff(e.sourceType, e.assetIP, e.id, f.sourceType, f.assetIP, f.id);
  }

  /** Without addresses they do exactly when types and IDs agree. */
  lemma EventsMeetById(e: Event, f: Event)
    requires Trim(e.assetIP) == "" == Trim(f.assetIP) && Trim(e.id) != "" && Trim(f.id) != ""
    ensures Sight(e).key == Sight(f).key <==>
      NormalizeSourceType(e.sourceType) == NormalizeSourceType(f.sourceType) && Trim(e.id) == Trim(f.id)
  {
    KeysAgreeIff(e.sourceType, e.assetIP, e.id, f.sourceType, f.assetIP, f.id);
  }

  /** With neither, when the types agree; and an event with an address meets one without exactly when that
      one's ID is the address. */
  lemma EventsMeetWithoutAddress(e: Event, f: Event)
    requires Trim(f.assetIP) == ""
    ensures Trim(e.assetIP) == "" && Trim(e.id) == "" == Trim(f.id) ==>
      (Sight(e).key == Sight(f).key <==> NormalizeSourceType(e.sourceType) == NormalizeSourceType(f.sourceType))
    ensures Trim(e.assetIP) != "" && Trim(f.id) != "" ==>
      (Sight(e).key == Sight(f).key <==>
         NormalizeSourceType(e.sourceType) == NormalizeSourceType(f.sourceType) && Trim(e.assetIP) == Trim(f.id))
  {
    KeysAgreeIff(e.sourceType, e.assetIP, e.id, f.sourceType, f.assetIP, f.id);
  }

  /** An event meets a configured source with an address exactly when type and address agree (or, without an
      address of its own, when its ID is that address). */
  lemma EventMeetsSourceIff(e: Event, item: OTSource)
    requires Trim(item.ip) != ""
    ensures Sight(e).key == EntryOf(item).key <==>
      && NormalizeSourceType(e.sourceType) == NormalizeSourceType(item.sourceType)
      && (if Trim(e.assetIP) != "" then Trim(e.assetIP) == Trim(item.ip)
          else if Trim(e.id) != "" then Trim(e.id) == Trim(item.ip) else "unknown" == Trim(item.ip))
  {
    KeysAgreeIff(e.sourceType, e.assetIP, e.id, item.sourceType, item.ip, item.id);
  }

  /** Two configured sources with addresses share a record exactly when types and addresses agree. */
  lemma SourcesMeetByAddress(a: OTSource, b: OTSource)
    requires Trim(a.ip) != "" && Trim(b.ip) != ""
    ensures EntryOf(a).key == EntryOf(b).key <==>
      NormalizeSourceType(a.sourceType) == NormalizeSourceType(b.sourceType) && Trim(a.ip) == Trim(b.ip)
  {
    KeysAgreeIff(a.sourceType, a.ip, a.id, b.sourceType, b.ip, b.id);
  }

  // ----- over histories -----

  /** Some merge of the history has this configured source. */
  predicate Configures(op: Op, en: Entry) {
    op.Merge? && en in op.entries
  }

  predicate WasConfigured(ops: seq<Op>, en: Entry) {
    exists i :: 0 <= i < |ops| && Configures(ops[i], en)
  }

  ghost predicate ConfiguredAt(v: View, k: string) {
    k in v.sources && v.sources[k].rec.configured
  }

  lemma OneConfigures(v: View, en: Entry, k: string)
    ensures ConfiguredAt(v, k) || en.key == k ==> ConfiguredAt(MergedOne(v, en), k)
  {
    hide FirstNonEmpty;
  }

  lemma {:induction false} MergeConfigures(v: View, entries: seq<Entry>, k: string)
    ensures ConfiguredAt(v, k) ==> ConfiguredAt(MergedAll(v, entries), k)
    ensures (exists i :: 0 <= i < |entries| && entries[i].key == k) ==> ConfiguredAt(MergedAll(v, entries), k)
  {
    hide *;
    if entries != [] {
      var front, en := entries[..|entries| - 1], entries[|entries| - 1];
      MergeConfigures(v, front, k);
      OneConfigures(MergedAll(v, front), en, k);
      MergedLast(v, entries);
      assert forall i :: 0 <= i < |front| ==> front[i] == entries[i];
    } else {
      MergedNone(v);
    }
  }

  lemma MergedLast(v: View, entries: seq<Entry>)
    requires entries != []
    ensures MergedAll(v, entries) == MergedOne(MergedAll(v, entries[..|entries| - 1]), entries[|entries| - 1])
  {
    hide MergedOne;
  }

  lemma MergedNone(v: View)
    ensures MergedAll(v, []) == v
  {
  }

  /** A source once configured stays so, whatever is observed or merged. */
  lemma {:induction false} ConfiguredStays(ops: seq<Op>, en: Entry)
    requires WasConfigured(ops, en)
    ensures ConfiguredAt(After(ops), en.key)
  {
    var front, op := ops[..|ops| - 1], ops[|ops| - 1];
    if WasConfigured(front, en) { ConfiguredStays(front, en); }
    match op
    case Merge(entries) =>
      MergeConfigures(After(front), entries, en.key);
      if !WasConfigured(front, en) {
        var j :| 0 <= j < |entries| && entries[j] == en;
      }
    case Observe(g) =>
      assert WasConfigured(front, en);
  }

  /** An event with the type and address of a configured source is counted in that source's record, after any
      history in which it was configured, once for each ID. */
  lemma EventIsCountedThere(ops: seq<Op>, item: OTSource, e: Event)
    requires WasConfigured(ops, EntryOf(item)) && Trim(item.ip) != ""
    requires NormalizeSourceType(e.sourceType) == NormalizeSourceType(item.sourceType)
    requires Trim(e.assetIP) == Trim(item.ip)
    ensures var k := EntryOf(item).key;
      var before, after := After(ops), After(ops + [Observe(Sight(e))]);
      && ConfiguredAt(before, k) && ConfiguredAt(after, k)
      && after.sources[k].rec.eventCount ==
           before.sources[k].rec.eventCount + (if e.id != "" && e.id in before.seen then 0 else 1)
      && forall j :: j != k ==> (j in after.sources <==> j in before.sources)
                                && (j in before.sources ==> after.sources[j] == before.sources[j])
  {
    hide SourceKey, NormalizeSourceType, Described;
    EventMeetsSourceIff(e, item);
    ConfiguredStays(ops, EntryOf(item));
    assert (ops + [Observe(Sight(e))])[..|ops|] == ops;
    DescribedKeepsConfigured(After(ops).sources[EntryOf(item).key].rec, Sight(e));
  }

  lemma DescribedKeepsConfigured(rec: SourceRecord, g: Sighting)
    ensures Described(rec, g).configured == rec.configured && Described(rec, g).eventCount == rec.eventCount
  {
  }

  // ----- what a merge sets -----

  /** What a merge sets: non-blank fields of the configured source replace the record's, blank ones leave it. */
  lemma MergeSets(v: View, item: OTSource)
    ensures var k := EntryOf(item).key;
      var was, rec := SourceAt(v.sources, k, EntryOf(item).group).rec, MergedOne(v, EntryOf(item)).sources[k].rec;
      && (Trim(item.id) != "" ==> rec.id == Trim(item.id)) && (Trim(item.name) != "" ==> rec.name == Trim(item.name))
      && rec.assetIP == (if Trim(item.ip) != "" then Trim(item.ip) else Trim(was.assetIP))
      && rec.assetName == (if Trim(item.name) != "" then Trim(item.name) else Trim(was.assetName))
      && rec.protocol == (if Trim(item.protocol) != "" then Trim(item.protocol) else Trim(was.protocol))
      && rec.impact == (if Trim(item.impact) != "" then Trim(item.impact) else Trim(was.impact))
      && rec.zone == (if Trim(item.zone) != "" then Trim(item.zone) else Trim(was.zone))
      && rec.sourceType == NormalizeSourceType(item.sourceType) && rec.configured
      && rec.enabled == item.enabled && rec.forwardEnabled == item.forwardEnabled
      && rec.discovered == was.discovered && rec.siemIndexHint == was.siemIndexHint
      && rec.splunkSourcetype == was.splunkSourcetype && (was.group != "" ==> rec.group == was.group)
  {
    hide SourceKey, NormalizeSourceType, SourceAt, GroupForSourceType, Trim;
    var en := EntryOf(item);
    var was := SourceAt(v.sources, en.key, en.group).rec;
    FirstOfTwo(item.ip, was.assetIP);
    FirstOfTwo(item.name, was.assetName);
    FirstOfTwo(item.protocol, was.protocol);
    FirstOfTwo(item.impact, was.impact);
    FirstOfTwo(item.zone, was.zone);
  }

  lemma FirstOf(values: seq<string>, rest: seq<string>)
    requires values != [] && values[1..] == rest
    ensures FirstNonEmpty(values) == if Trim(values[0]) != "" then Trim(values[0]) else FirstNonEmpty(rest)
  {
    hide Trim;
  }

  lemma FirstOfTwo(a: string, b: string)
    ensures FirstNonEmpty([a, b]) == if Trim(a) != "" then Trim(a) else Trim(b)
  {
    hide Trim;
    FirstOf([a, b], [b]);
    FirstOf([b], []);
    assert FirstNonEmpty([]) == "" && (Trim(b) == "" ==> FirstNonEmpty([b]) == Trim(b));
  }

  /** An observation does not rename a configured source, nor give another ID to one that has one; a source
      that is not configured is named after the event. */
  lemma SightingNames(src: Source, e: Event)
    ensures var rec := Sighted(src, Sight(e)).rec;
      && (src.rec.configured && src.rec.name != "" ==> rec.name == src.rec.name)
      && (src.rec.id != "" ==> rec.id == src.rec.id)
      && (src.rec.id == "" && Trim(e.id) != "" ==> rec.id == Trim(e.id))
      && (!src.rec.configured && Trim(e.assetName) != "" ==> rec.name == Trim(e.assetName))
      && (!src.rec.configured && Trim(e.assetName) == "" && Trim(e.source) != "" ==> rec.name == Trim(e.source))
      && (src.rec.configured ==> rec.configured && rec.enabled == src.rec.enabled)
      && rec.lastSeen == Some(e.receivedAt) && rec.firstSeen.Some?
  {
    hide SourceKey, NormalizeSourceType, Trim, Bump, LastOf, FirstNonEmpty;
    var g := Sight(e);
    FirstOf([g.id, g.source, g.assetName, g.assetIP, g.key], [g.source, g.assetName, g.assetIP, g.key]);
    var id := Described(src.rec, g).id;
    FirstOf([g.assetName, g.source, g.assetIP, src.rec.name, id], [g.source, g.assetIP, src.rec.name, id]);
    FirstOf([g.source, g.assetIP, src.rec.name, id], [g.assetIP, src.rec.name, id]);
  }
}
