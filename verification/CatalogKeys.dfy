/** Every record of the catalog has the type and the group its key names. */
module CatalogKeys {
  import opened SourceUtil
  import opened Event
  import opened Catalog
  import opened CatalogLog

  /** How keys name types and groups. */
  datatype Naming = Naming(typeOf: string -> string, groupOf: string -> string)

  const KEYS: Naming := Naming(KeyType, key => GroupForSourceType(KeyType(key)))

  ghost predicate SightingFits(g: Sighting, n: Naming) {
    g.sourceType == n.typeOf(g.key) && g.group == n.groupOf(g.key)
  }

  ghost predicate EntryFits(en: Entry, n: Naming) {
    en.sourceType == n.typeOf(en.key) && en.group == n.groupOf(en.key)
  }

  ghost predicate OpFits(op: Op, n: Naming) {
    match op
    case Observe(g) => SightingFits(g, n)
    case Merge(entries) => forall i :: 0 <= i < |entries| ==> EntryFits(entries[i], n)
  }

  ghost predicate RecordFits(rec: SourceRecord, k: string, n: Naming) {
    rec.sourceKey == k && rec.sourceType == n.typeOf(k) && rec.group == n.groupOf(k)
  }

  ghost predicate RecordsFit(v: View, n: Naming) {
    forall k :: k in v.sources ==> RecordFits(v.sources[k].rec, k, n)
  }

  lemma ObserveFits(v: View, g: Sighting, n: Naming)
    requires RecordsFit(v, n) && SightingFits(g, n)
    ensures RecordsFit(Observed(v, g), n)
  {
    assert RecordFits(Counted(Described(SourceAt(v.sources, g.key, g.group).rec, g), g), g.key, n);
  }

  lemma {:induction false} MergeFits(v: View, entries: seq<Entry>, n: Naming)
    requires RecordsFit(v, n) && forall i :: 0 <= i < |entries| ==> EntryFits(entries[i], n)
    ensures RecordsFit(MergedAll(v, entries), n)
  {
    if entries != [] {
      var u, en := MergedAll(v, entries[..|entries| - 1]), entries[|entries| - 1];
      MergeFits(v, entries[..|entries| - 1], n);
      assert RecordFits(ConfiguredRecord(SourceAt(u.sources, en.key, en.group).rec, en), en.key, n);
    }
  }

  /** Whatever is observed and merged in whatever order, a record carries its own key and the type and
      group that key names. */
  lemma {:induction false} RecordsMatchTheirKeys(ops: seq<Op>, n: Naming)
    requires forall i :: 0 <= i < |ops| ==> OpFits(ops[i], n)
    ensures RecordsFit(After(ops), n)
  {
    if ops != [] {
      var front, op := ops[..|ops| - 1], ops[|ops| - 1];
      RecordsMatchTheirKeys(front, n);
      match op
      case Observe(g) => ObserveFits(After(front), g, n);
      case Merge(entries) => MergeFits(After(front), entries, n);
    }
  }

  /** An event, as the catalog reads it, fits the naming the catalog uses. */
  lemma SightFits(e: Event)
    ensures SightingFits(Sight(e), KEYS)
  {
    SightIsKeyed(e);
    FitsByKey(Sight(e));
  }

  lemma FitsByKey(g: Sighting)
    requires g.sourceType == KeyType(g.key) && g.group == GroupForSourceType(KeyType(g.key))
    ensures SightingFits(g, KEYS)
  {
  }

  /** So does a configured source. */
  lemma ItemFits(item: OTSource)
    ensures EntryFits(EntryOf(item), KEYS)
  {
    EntryIsKeyed(item);
  }
}
