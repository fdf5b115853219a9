/** Merging configured sources: idempotent, blind to counters, and the last word on `enabled`. */
module MergeLaws {
  import opened Text
  import opened Wrappers
  import opened Catalog
  import opened CatalogLog

  /** The value of one text field after a list of entries: each entry's own value if it has one, else
      the value so far, else the entry's fallback. */
  function Field(es: seq<Entry>, own: Entry -> string, fallback: Entry -> string, start: string): string {
    if es == [] then start else
    var last := es[|es| - 1];
    FirstNonEmpty([own(last), Field(es[..|es| - 1], own, fallback, start), fallback(last)])
  }

  lemma FirstOfThree(a: string, b: string, c: string)
    ensures FirstNonEmpty([a, b, c]) == if Trim(a) != "" then Trim(a) else if Trim(b) != "" then Trim(b) else Trim(c)
    ensures Trim(FirstNonEmpty([a, b, c])) == FirstNonEmpty([a, b, c])
  {
    assert [a, b, c][1..] == [b, c] && [b, c][1..] == [c] && [c][1..] == [];
    assert FirstNonEmpty([c]) == Trim(c);
    TrimIdempotent(a);
    TrimIdempotent(b);
    TrimIdempotent(c);
  }

  lemma FirstOfTwo(a: string, b: string)
    ensures FirstNonEmpty([a, b]) == FirstNonEmpty([a, b, ""])
  {
    FirstOfThree(a, b, "");
    assert [a, b][1..] == [b] && [b][1..] == [];
    assert FirstNonEmpty([b]) == Trim(b);
  }

  predicate Silent(es: seq<Entry>, own: Entry -> string) {
    forall i :: 0 <= i < |es| ==> Trim(own(es[i])) == ""
  }

  /** Once an entry has a value of its own, where the field started no longer matters. */
  lemma {:induction false} StartIsForgotten(es: seq<Entry>, own: Entry -> string, fallback: Entry -> string,
      a: string, b: string)
    requires !Silent(es, own)
    ensures Field(es, own, fallback, a) == Field(es, own, fallback, b)
  {
    var front, last := es[..|es| - 1], es[|es| - 1];
    FirstOfThree(own(last), Field(front, own, fallback, a), fallback(last));
    FirstOfThree(own(last), Field(front, own, fallback, b), fallback(last));
    if Trim(own(last)) == "" { StartIsForgotten(front, own, fallback, a, b); }
  }

  /** Entries without a value of their own keep a field that has one, and only trim it. */
  lemma {:induction false} SilentKeeps(es: seq<Entry>, own: Entry -> string, fallback: Entry -> string, a: string)
    requires Silent(es, own) && Trim(a) != "" && es != []
    ensures Field(es, own, fallback, a) == Trim(a)
  {
    var front, last := es[..|es| - 1], es[|es| - 1];
    FirstOfThree(own(last), Field(front, own, fallback, a), fallback(last));
    TrimIdempotent(a);
    if front != [] { SilentKeeps(front, own, fallback, a); }
  }

  /** Nothing to show in the end means nothing to show anywhere. */
  lemma {:induction false} SilentBlank(es: seq<Entry>, own: Entry -> string, fallback: Entry -> string, a: string)
    requires Silent(es, own) && Field(es, own, fallback, a) == "" && es != []
    ensures Field(es, own, fallback, "") == ""
  {
    var front, last := es[..|es| - 1], es[|es| - 1];
    FirstOfThree(own(last), Field(front, own, fallback, a), fallback(last));
    FirstOfThree(own(last), Field(front, own, fallback, ""), fallback(last));
    if front != [] {
      FieldIsTrimmed(front, own, fallback, a);
      SilentBlank(front, own, fallback, a);
    }
  }

  lemma FieldIsTrimmed(es: seq<Entry>, own: Entry -> string, fallback: Entry -> string, a: string)
    requires es != []
    ensures Trim(Field(es, own, fallback, a)) == Field(es, own, fallback, a)
  {
    FirstOfThree(own(es[|es| - 1]), Field(es[..|es| - 1], own, fallback, a), fallback(es[|es| - 1]));
  }

  lemma FieldTwice(es: seq<Entry>, own: Entry -> string, fallback: Entry -> string, a: string)
    ensures Field(es, own, fallback, Field(es, own, fallback, a)) == Field(es, own, fallback, a)
  {
    var w := Field(es, own, fallback, a);
    if es == [] {
    } else if !Silent(es, own) {
      StartIsForgotten(es, own, fallback, a, w);
    } else {
      FieldIsTrimmed(es, own, fallback, a);
      if w != "" { SilentKeeps(es, own, fallback, w); } else { SilentBlank(es, own, fallback, a); }
    }
  }

  // ----- whole records -----

  const OWN_ID: Entry -> string := (en: Entry) => en.item.id
  const OWN_NAME: Entry -> string := (en: Entry) => en.item.name
  const OWN_IP: Entry -> string := (en: Entry) => en.item.ip
  const OWN_PROTOCOL: Entry -> string := (en: Entry) => en.item.protocol
  const OWN_IMPACT: Entry -> string := (en: Entry) => en.item.impact
  const OWN_ZONE: Entry -> string := (en: Entry) => en.item.zone
  const KEY: Entry -> string := (en: Entry) => en.key
  const NOTHING: Entry -> string := (en: Entry) => ""

  function RecordAfter(rec: SourceRecord, es: seq<Entry>): SourceRecord {
    if es == [] then rec else ConfiguredRecord(RecordAfter(rec, es[..|es| - 1]), es[|es| - 1])
  }

  /** Entries for one source. */
  ghost predicate Alike(es: seq<Entry>, key: string, sourceType: string, group: string) {
    forall i :: 0 <= i < |es| ==> es[i].key == key && es[i].sourceType == sourceType && es[i].group == group
  }

  function FieldsAfter(rec: SourceRecord, es: seq<Entry>, key: string, sourceType: string, group: string): SourceRecord
    requires es != []
  {
    var last := es[|es| - 1].item;
    rec.(sourceKey := key, sourceType := sourceType, id := Field(es, OWN_ID, KEY, rec.id),
         name := Field(es, OWN_NAME, OWN_ID, rec.name), assetIP := Field(es, OWN_IP, NOTHING, rec.assetIP),
         assetName := Field(es, OWN_NAME, NOTHING, rec.assetName),
           protocol := Field(es, OWN_PROTOCOL, NOTHING, rec.protocol),
         impact := Field(es, OWN_IMPACT, NOTHING, rec.impact), zone := Field(es, OWN_ZONE, NOTHING, rec.zone),
         enabled := last.enabled, forwardEnabled := last.forwardEnabled, configured := true,
         group := if rec.group == "" then group else rec.group)
  }

  lemma FieldOfOne(en: Entry, own: Entry -> string, fallback: Entry -> string, a: string)
    ensures Field([en], own, fallback, a) == FirstNonEmpty([own(en), a, fallback(en)])
  {
    assert [en][..0] == [];
  }

  lemma ConfiguredFields(rec: SourceRecord, en: Entry)
    ensures ConfiguredRecord(rec, en) == FieldsAfter(rec, [en], en.key, en.sourceType, en.group)
  {
    FieldOfOne(en, OWN_ID, KEY, rec.id);
    FieldOfOne(en, OWN_NAME, OWN_ID, rec.name);
    FieldOfOne(en, OWN_IP, NOTHING, rec.assetIP);
    FieldOfOne(en, OWN_NAME, NOTHING, rec.assetName);
    FieldOfOne(en, OWN_PROTOCOL, NOTHING, rec.protocol);
    FieldOfOne(en, OWN_IMPACT, NOTHING, rec.impact);
    FieldOfOne(en, OWN_ZONE, NOTHING, rec.zone);
    FirstOfTwo(en.item.ip, rec.assetIP);
    FirstOfTwo(en.item.name, rec.assetName);
    FirstOfTwo(en.item.protocol, rec.protocol);
    FirstOfTwo(en.item.impact, rec.impact);
    FirstOfTwo(en.item.zone, rec.zone);
  }

  lemma FieldOneMore(es: seq<Entry>, en: Entry, own: Entry -> string, fallback: Entry -> string, a: string)
    ensures Field(es + [en], own, fallback, a) == Field([en], own, fallback, Field(es, own, fallback, a))
  {
    assert (es + [en])[..|es|] == es;
    FieldOfOne(en, own, fallback, Field(es, own, fallback, a));
  }

  lemma FieldsOneMore(rec: SourceRecord, es: seq<Entry>, en: Entry, key: string, sourceType: string, group: string)
    requires es != []
    ensures FieldsAfter(rec, es + [en], key, sourceType, group)
         == FieldsAfter(FieldsAfter(rec, es, key, sourceType, group), [en], key, sourceType, group)
  {
    FieldOneMore(es, en, OWN_ID, KEY, rec.id);
    FieldOneMore(es, en, OWN_NAME, OWN_ID, rec.name);
    FieldOneMore(es, en, OWN_IP, NOTHING, rec.assetIP);
    FieldOneMore(es, en, OWN_NAME, NOTHING, rec.assetName);
    FieldOneMore(es, en, OWN_PROTOCOL, NOTHING, rec.protocol);
    FieldOneMore(es, en, OWN_IMPACT, NOTHING, rec.impact);
    FieldOneMore(es, en, OWN_ZONE, NOTHING, rec.zone);
  }

  /** One more entry acts on the fields as on the record. */
  lemma FieldsStep(rec: SourceRecord, es: seq<Entry>, en: Entry, key: string, sourceType: string, group: string)
    requires es != [] && en.key == key && en.sourceType == sourceType && en.group == group
    ensures ConfiguredRecord(FieldsAfter(rec, es, key, sourceType, group), en) ==
      FieldsAfter(rec, es + [en], key, sourceType, group)
  {
    ConfiguredFields(FieldsAfter(rec, es, key, sourceType, group), en);
    FieldsOneMore(rec, es, en, key, sourceType, group);
  }

  lemma {:induction false} RecordIsItsFields(rec: SourceRecord, es: seq<Entry>, key: string, sourceType: string,
      group: string)
    requires es != [] && Alike(es, key, sourceType, group)
    ensures RecordAfter(rec, es) == FieldsAfter(rec, es, key, sourceType, group)
  {
    var front, last := es[..|es| - 1], es[|es| - 1];
    assert es == front + [last];
    if front == [] {
      assert es == [last];
      ConfiguredFields(rec, last);
    } else {
      RecordIsItsFields(rec, front, key, sourceType, group);
      FieldsStep(rec, front, last, key, sourceType, group);
    }
  }

  /** Configuring one source twice with the same entries is configuring it once. */
  lemma RecordTwice(rec: SourceRecord, es: seq<Entry>, key: string, sourceType: string, group: string)
    requires Alike(es, key, sourceType, group)
    ensures RecordAfter(RecordAfter(rec, es), es) == RecordAfter(rec, es)
  {
    if es != [] {
      var once := FieldsAfter(rec, es, key, sourceType, group);
      RecordIsItsFields(rec, es, key, sourceType, group);
      RecordIsItsFields(once, es, key, sourceType, group);
      FieldTwice(es, OWN_ID, KEY, rec.id);
      FieldTwice(es, OWN_NAME, OWN_ID, rec.name);
      FieldTwice(es, OWN_IP, NOTHING, rec.assetIP);
      FieldTwice(es, OWN_NAME, NOTHING, rec.assetName);
      FieldTwice(es, OWN_PROTOCOL, NOTHING, rec.protocol);
      FieldTwice(es, OWN_IMPACT, NOTHING, rec.impact);
      FieldTwice(es, OWN_ZONE, NOTHING, rec.zone);
    }
  }

  // ----- the whole catalog -----

  function OfKey(es: seq<Entry>, key: string): seq<Entry> {
    if es == [] then [] else
    OfKey(es[..|es| - 1], key) + if es[|es| - 1].key == key then [es[|es| - 1]] else []
  }

  /** Entries with one key name one type and group, as `EntryOf` makes them. */
  ghost predicate Consistent(es: seq<Entry>) {
    forall i, j :: 0 <= i < |es| && 0 <= j < |es| && es[i].key == es[j].key ==>
      es[i].sourceType == es[j].sourceType && es[i].group == es[j].group
  }

  lemma {:induction false} OfKeyAlike(es: seq<Entry>, key: string, sourceType: string, group: string)
    requires forall i :: 0 <= i < |es| && es[i].key == key ==> es[i].sourceType == sourceType && es[i].group == group
    ensures Alike(OfKey(es, key), key, sourceType, group)
    ensures OfKey(es, key) == [] <==> forall i :: 0 <= i < |es| ==> es[i].key != key
  {
    if es != [] { OfKeyAlike(es[..|es| - 1], key, sourceType, group); }
  }

  /** A merge acts on each source through the entries with its key alone. */
  lemma {:induction false} MergeActsByKey(v: View, es: seq<Entry>, key: string, sourceType: string, group: string)
    requires forall i :: 0 <= i < |es| && es[i].key == key ==> es[i].sourceType == sourceType && es[i].group == group
    ensures var t := MergedAll(v, es);
      && t.seen == v.seen
      && (key in t.sources <==> key in v.sources || OfKey(es, key) != [])
      && (key in t.sources && OfKey(es, key) == [] ==> t.sources[key] == v.sources[key])
      && (OfKey(es, key) != [] ==>
            var src := SourceAt(v.sources, key, group);
            t.sources[key] == src.(rec := RecordAfter(src.rec, OfKey(es, key))))
  {
    if es != [] {
      var front, last := es[..|es| - 1], es[|es| - 1];
      MergeActsByKey(v, front, key, sourceType, group);
      if last.key == key {
        assert OfKey(es, key) == OfKey(front, key) + [last];
        assert (OfKey(front, key) + [last])[..|OfKey(front, key)|] == OfKey(front, key);
      } else {
        assert OfKey(es, key) == OfKey(front, key);
      }
    }
  }

  /** Merging the same configured sources again changes nothing, even when several share a key. */
  lemma MergeIsIdempotent(v: View, es: seq<Entry>)
    requires Consistent(es)
    ensures MergedAll(MergedAll(v, es), es) == MergedAll(v, es)
  {
    var once := MergedAll(v, es);
    var twice := MergedAll(once, es);
    forall k
      ensures k in twice.sources <==> k in once.sources
      ensures k in once.sources ==> twice.sources[k] == once.sources[k]
      ensures twice.seen == once.seen
    {
      MergeTwiceAt(v, es, k);
    }
    MergeTwiceAt(v, es, "");
    assert twice.sources == once.sources;
  }

  lemma MergeTwiceAt(v: View, es: seq<Entry>, k: string)
    requires Consistent(es)
    ensures var once := MergedAll(v, es);
      var twice := MergedAll(once, es);
      && twice.seen == once.seen && (k in twice.sources <==> k in once.sources)
      && (k in once.sources ==> twice.sources[k] == once.sources[k])
  {
    var once := MergedAll(v, es);
    var sourceType, group := "", "";
    if i :| 0 <= i < |es| && es[i].key == k { sourceType, group := es[i].sourceType, es[i].group; }
    MergeActsByKey(v, es, k, sourceType, group);
    MergeActsByKey(once, es, k, sourceType, group);
    OfKeyAlike(es, k, sourceType, group);
    RecordTwice(SourceAt(v.sources, k, group).rec, OfKey(es, k), k, sourceType, group);
  }

  lemma {:induction false} EntriesAreConsistent(items: seq<OTSource>)
    ensures Consistent(Entries(items))
    ensures forall en :: en in Entries(items) ==> exists item :: en == EntryOf(item)
  {
    if items != [] { EntriesAreConsistent(items[..|items| - 1]); }
    forall en, fn | en in Entries(items) && fn in Entries(items) && en.key == fn.key
      ensures en.sourceType == fn.sourceType && en.group == fn.group
    {
      var item :| en == EntryOf(item);
      var other :| fn == EntryOf(other);
      EntryIsKeyed(item);
      EntryIsKeyed(other);
    }
  }

  // ----- who decides `enabled` -----

  /** The last configured setting of a source in a history. */
  function LastSetting(ops: seq<Op>, k: string): Option<bool> {
    if ops == [] then None else
    var op := ops[|ops| - 1];
    var earlier := LastSetting(ops[..|ops| - 1], k);
    if op.Merge? then SettingAfter(OfKey(op.entries, k), earlier) else earlier
  }

  ghost predicate EnabledIs(v: View, k: string, setting: Option<bool>) {
    k in v.sources ==>
      && (v.sources[k].rec.configured <==> setting.Some?)
      && v.sources[k].rec.enabled == (if setting.Some? then setting.value else true)
  }

  lemma EntrySetsEnabled(v: View, en: Entry, k: string, setting: Option<bool>)
    requires EnabledIs(v, k, setting)
    ensures EnabledIs(MergedOne(v, en), k, if en.key == k then Some(en.item.enabled) else setting)
    ensures k in MergedOne(v, en).sources <==> k in v.sources || k == en.key
  {
    var src := SourceAt(v.sources, en.key, en.group);
    assert ConfiguredRecord(src.rec, en).configured && ConfiguredRecord(src.rec, en).enabled == en.item.enabled;
  }

  /** The setting that the last of a source's entries makes. */
  function SettingAfter(mine: seq<Entry>, setting: Option<bool>): Option<bool> {
    if mine == [] then setting else Some(mine[|mine| - 1].item.enabled)
  }

  lemma SettingOneMore(front: seq<Entry>, last: Entry, k: string, setting: Option<bool>)
    ensures SettingAfter(OfKey(front + [last], k), setting) ==
      if last.key == k then Some(last.item.enabled) else SettingAfter(OfKey(front, k), setting)
  {
    assert (front + [last])[..|front|] == front;
  }

  lemma {:induction false} MergeAddsKeys(v: View, es: seq<Entry>, k: string)
    ensures k in MergedAll(v, es).sources <==> k in v.sources || OfKey(es, k) != []
  {
    if es != [] { MergeAddsKeys(v, es[..|es| - 1], k); }
  }

  lemma {:induction false} MergeSetsEnabled(v: View, es: seq<Entry>, k: string, setting: Option<bool>)
    requires EnabledIs(v, k, setting)
    ensures EnabledIs(MergedAll(v, es), k, SettingAfter(OfKey(es, k), setting))
  {
    if es != [] {
      var front, last := es[..|es| - 1], es[|es| - 1];
      assert es == front + [last];
      MergeSetsEnabled(v, front, k, setting);
      EntrySetsEnabled(MergedAll(v, front), last, k, SettingAfter(OfKey(front, k), setting));
      SettingOneMore(front, last, k, setting);
    }
  }

  /** Whatever events come in between, a configured source is enabled as last configured, and a source
      that was only discovered is enabled. */
  lemma {:induction false} EnabledIsTheLastSetting(ops: seq<Op>, k: string)
    ensures EnabledIs(After(ops), k, LastSetting(ops, k))
    ensures LastSetting(ops, k).Some? ==> k in After(ops).sources
  {
    if ops != [] {
      var front, op := ops[..|ops| - 1], ops[|ops| - 1];
      EnabledIsTheLastSetting(front, k);
      match op
      case Observe(g) =>
      case Merge(entries) =>
        MergeSetsEnabled(After(front), entries, k, LastSetting(front, k));
        MergeAddsKeys(After(front), entries, k);
    }
  }
}
