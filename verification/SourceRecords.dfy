/** What the catalog's record of a source says of the events that came from it
    (internal/sourcecatalog/catalog.go), in the fields of the events. */
module SourceRecords {
  import opened Json
  import opened Text
  import opened SourceUtil
  import opened Wrappers
  import opened Event
  import opened Counts
  import opened Sequences
  import opened Catalog
  import opened CatalogLog
  import opened SourceKeys
  import Figures
  import Redaction

  function Observes(es: seq<Event>): (ops: seq<Op>)
    ensures |ops| == |es|
  {
    seq(|es|, i requires 0 <= i < |es| => Observe(Sight(es[i])))
  }

  predicate ComesFrom(e: Event, t: string, place: string) {
    NormalizeSourceType(e.sourceType) == t && Place(e.assetIP, e.id) == place
  }

  /** The events of one source: of one type and from one place. */
  function From(es: seq<Event>, t: string, place: string): seq<Event> {
    if es == [] then []
    else if ComesFrom(es[|es| - 1], t, place) then From(es[..|es| - 1], t, place) + [es[|es| - 1]]
    else From(es[..|es| - 1], t, place)
  }

  /** No ID occurs twice. */
  predicate OnceEach(es: seq<Event>) {
    forall i, j :: 0 <= i < j < |es| ==> es[i].id == "" || es[i].id != es[j].id
  }

  function Texts(es: seq<Event>, f: Event -> string): (r: seq<string>)
    ensures |r| == |es|
  {
    seq(|es|, i requires 0 <= i < |es| => f(es[i]))
  }

  /** The first that is not empty. */
  function FirstSet(texts: seq<string>): string {
    if texts == [] then "" else if texts[0] != "" then texts[0] else FirstSet(texts[1..])
  }

  const ADDRESS: Event -> string := (e: Event) => e.assetIP
  const ASSET: Event -> string := (e: Event) => e.assetName
  const PROTOCOL: Event -> string := (e: Event) => e.protocol
  const ZONE: Event -> string := (e: Event) => e.zone
  const SEVERITY: Event -> string := (e: Event) => Clean(e.severity)
  const CATEGORY: Event -> string := (e: Event) => Clean(e.eventCategory)

  /** How many of the events have this message, but for white space around it. */
  function Saying(es: seq<Event>, text: string): nat {
    if es == [] then 0 else Saying(es[..|es| - 1], text) + if Trim(es[|es| - 1].message) == text then 1 else 0
  }

  /** How often, when first and last, by severity, by category and by message. */
  ghost predicate CountsTell(src: Source, es: seq<Event>, text: string) {
    && src.rec.eventCount == |es| && (src.rec.discovered <==> es != [])
    && src.rec.severityCounts == TallyOf(Texts(es, SEVERITY)) && src.rec.categoryCounts == TallyOf(Texts(es, CATEGORY))
    && Get(src.messages, text) == (if text == "" then 0 else Saying(es, text))
    && src.rec.firstSeen == (if es == [] then None else Some(es[0].receivedAt))
    && src.rec.lastSeen == (if es == [] then None else Some(es[|es| - 1].receivedAt))
  }

  /** Where it is, from the first event that says so; its sourcetype, as the statistics have it, and its index
      from the last; found, not configured, and enabled. */
  ghost predicate FieldsTell(rec: SourceRecord, es: seq<Event>, t: string) {
    && rec.assetIP == FirstSet(Texts(es, ADDRESS)) && rec.assetName == FirstSet(Texts(es, ASSET))
    && rec.protocol == FirstSet(Texts(es, PROTOCOL)) && rec.zone == FirstSet(Texts(es, ZONE))
    && !rec.configured && !rec.forwardEnabled
    && (es != [] ==>
          var e := es[|es| - 1];
          && rec.sourceType == t && rec.group == GroupForSourceType(t) && rec.enabled
          && rec.splunkSourcetype == Some(Figures.Sourcetype(e)) && HintTells(rec.siemIndexHint, e, t))
  }

  /** The index hint is the last event's, if that has one that is not blank, and a firewall's is known anyway. */
  predicate HintTells(hint: Option<string>, e: Event, t: string) {
    var own := if "siem_index_hint" in e.tags && e.tags["siem_index_hint"].Str? then Trim(e.tags["siem_index_hint"].s)
               else "";
    (own != "" ==> hint == Some(own)) && (own == "" && t == "firewall" ==> hint == Some("ot_security"))
  }

  /** Its ID is the first event's; its name is what the last one calls the asset, or else the source. */
  ghost predicate NamesTell(rec: SourceRecord, es: seq<Event>) {
    && (es == [] ==> rec.id == "")
    && (es != [] ==>
          && (Trim(es[0].id) != "" ==> rec.id == Trim(es[0].id))
          && var e := es[|es| - 1];
             && (Trim(e.assetName) != "" ==> rec.name == Trim(e.assetName))
             && (Trim(e.assetName) == "" && Trim(e.source) != "" ==> rec.name == Trim(e.source)))
  }

  /** The documents shown are the last 50, redacted for display. */
  ghost predicate DocsTell(src: Source, es: seq<Event>, t: string) {
    && |src.recent| == (if |es| > 50 then 50 else |es|)
    && (forall i :: 0 <= i < |src.recent| ==>
          src.recent[i] == Redaction.ForUI(es[|es| - |src.recent| + i].(sourceType := t)))
    && src.rec.lastEvent == if es == [] then None else Some(Redaction.ForUI(es[|es| - 1].(sourceType := t)))
  }

  // ----- one more event -----

  lemma TextsOneMore(es: seq<Event>, e: Event, f: Event -> string)
    ensures Texts(es + [e], f) == Texts(es, f) + [f(e)]
    ensures Bump(TallyOf(Texts(es, f)), f(e)) == TallyOf(Texts(es + [e], f))
    ensures FirstSet(Texts(es + [e], f)) == if FirstSet(Texts(es, f)) != "" then FirstSet(Texts(es, f)) else f(e)
  {
    assert Texts(es + [e], f) == Texts(es, f) + [f(e)];
    BumpIsTally(Texts(es, f), f(e));
    FirstSetOneMore(Texts(es, f), f(e));
  }

  lemma {:induction false} FirstSetOneMore(texts: seq<string>, v: string)
    ensures FirstSet(texts + [v]) == if FirstSet(texts) != "" then FirstSet(texts) else v
  {
    if texts == [] {
      assert texts + [v] == [v];
    } else if texts[0] == "" {
      FirstSetOneMore(texts[1..], v);
      assert (texts + [v])[1..] == texts[1..] + [v];
    }
  }

  lemma SayingOneMore(es: seq<Event>, e: Event, text: string)
    ensures Saying(es + [e], text) == Saying(es, text) + if Trim(e.message) == text then 1 else 0
  {
    assert (es + [e])[..|es|] == es;
  }

  lemma GetBump(m: Tally, k: string, x: string)
    ensures Get(Bump(m, k), x) == Get(m, x) + if k == x then 1 else 0
  {
  }

  lemma SightCounts(src: Source, es: seq<Event>, e: Event, text: string)
    requires CountsTell(src, es, text)
    ensures CountsTell(Sighted(src, Sight(e)), es + [e], text)
  {
    hide Texts, TallyOf, Saying, Bump, NormalizeSourceType, SourceKey, FirstNonEmpty, LastOf, Clean, Trim, TagText;
    TextsOneMore(es, e, SEVERITY);
    TextsOneMore(es, e, CATEGORY);
    SayingOneMore(es, e, text);
    GetBump(src.messages, Trim(e.message), text);
    SightedCounts(src, Sight(e));
  }

  lemma SightedCounts(src: Source, g: Sighting)
    ensures var t := Sighted(src, g);
      && t.rec.eventCount == src.rec.eventCount + 1 && t.rec.discovered
      && t.rec.severityCounts == Bump(src.rec.severityCounts, g.severity)
      && t.rec.categoryCounts == Bump(src.rec.categoryCounts, g.category)
      && t.messages == (if g.message == "" then src.messages else Bump(src.messages, g.message))
      && t.rec.firstSeen == (if src.rec.firstSeen.None? then Some(g.receivedAt) else src.rec.firstSeen)
      && t.rec.lastSeen == Some(g.receivedAt)
  {
    hide Bump, FirstNonEmpty, LastOf;
  }

  lemma SightTexts(e: Event, t: string)
    requires NormalizeSourceType(e.sourceType) == t
    ensures var g := Sight(e);
      && g.assetIP == e.assetIP && g.assetName == e.assetName && g.protocol == e.protocol && g.zone == e.zone
      && g.source == e.source && g.id == e.id && g.receivedAt == e.receivedAt
      && g.sourceType == t && g.group == GroupForSourceType(t)
      && g.doc == Redaction.ForUI(e.(sourceType := t))
  {
    hide NormalizeSourceType, SourceKey, Trim, Clean, TagText;
  }

  lemma SightTags(e: Event, t: string)
    requires NormalizeSourceType(e.sourceType) == t
    ensures Sight(e).splunkSourcetype == Figures.Sourcetype(e)
    ensures (Sight(e).indexHint.Some? || t != "firewall") && HintTells(Sight(e).indexHint, e, t)
    ensures Sight(e).indexHint.None? ==> forall hint :: HintTells(hint, e, t)
  {
    hide NormalizeSourceType, SourceKey, Trim, Clean, ToLower;
    NormalizeFixed(e.sourceType);
    Figures.UnknownIsLower();
  }

  lemma SightFields(rec: SourceRecord, es: seq<Event>, e: Event, t: string)
    requires FieldsTell(rec, es, t) && NormalizeSourceType(e.sourceType) == t
    ensures FieldsTell(Counted(Described(rec, Sight(e)), Sight(e)), es + [e], t)
  {
    hide Sight, Texts, FirstSet, Bump, NormalizeSourceType, FirstNonEmpty, HintTells, Figures.Sourcetype;
    TextsOneMore(es, e, ADDRESS);
    TextsOneMore(es, e, ASSET);
    TextsOneMore(es, e, PROTOCOL);
    TextsOneMore(es, e, ZONE);
    SightTexts(e, t);
    SightTags(e, t);
  }

  lemma SightNames(rec: SourceRecord, es: seq<Event>, e: Event)
    requires NamesTell(rec, es) && !rec.configured
    ensures NamesTell(Counted(Described(rec, Sight(e)), Sight(e)), es + [e])
  {
    hide Sight, Bump, Trim, FirstNonEmpty;
    SightTexts(e, NormalizeSourceType(e.sourceType));
    SightingNames(Source(rec, map[], []), e);
  }

  lemma SightDocs(src: Source, es: seq<Event>, e: Event, t: string)
    requires DocsTell(src, es, t) && NormalizeSourceType(e.sourceType) == t
    ensures DocsTell(Sighted(src, Sight(e)), es + [e], t)
  {
    hide Sight, Bump, Described, Redaction.ForUI, NormalizeSourceType;
    SightTexts(e, t);
  }

  // ----- any events -----

  /** What the catalog says of one source. */
  ghost predicate SourceTells(v: View, es: seq<Event>, mine: seq<Event>, t: string, place: string, text: string) {
    var k := t + ":" + place;
    && (k in v.sources <==> mine != [])
    && (k in v.sources ==> RecordTells(v.sources[k], mine, t, text))
    && forall id :: id in v.seen <==> id != "" && exists e :: e in es && e.id == id
  }

  ghost predicate RecordTells(src: Source, mine: seq<Event>, t: string, text: string) {
    && CountsTell(src, mine, text) && FieldsTell(src.rec, mine, t) && NamesTell(src.rec, mine)
    && DocsTell(src, mine, t)
  }

  lemma SightTells(src: Source, mine: seq<Event>, e: Event, t: string, text: string)
    requires RecordTells(src, mine, t, text) && NormalizeSourceType(e.sourceType) == t
    ensures RecordTells(Sighted(src, Sight(e)), mine + [e], t, text)
  {
    hide CountsTell, FieldsTell, NamesTell, DocsTell, Described, Counted, Sight, NormalizeSourceType;
    SightCounts(src, mine, e, text);
    SightFields(src.rec, mine, e, t);
    NotConfigured(src.rec, mine, t);
    SightNames(src.rec, mine, e);
    SightDocs(src, mine, e, t);
  }

  lemma NotConfigured(rec: SourceRecord, mine: seq<Event>, t: string)
    requires FieldsTell(rec, mine, t)
    ensures !rec.configured
  {
  }

  lemma NewTells(key: string, group: string, t: string, text: string)
    ensures RecordTells(NewSource(key, group), [], t, text)
  {
    assert forall f :: Texts([], f) == [];
    assert TallyOf([]) == map[];
  }

  lemma KeyOf(e: Event, t: string, place: string)
    requires ':' !in t
    ensures Sight(e).key == t + ":" + place <==> ComesFrom(e, t, place)
  {
    hide NormalizeSourceType, SourceKey, Place;
    KeyParts(e.sourceType, e.assetIP, e.id);
    NormalizeFixed(e.sourceType);
    TypesAndPlaces(NormalizeSourceType(e.sourceType), t, Place(e.assetIP, e.id), place);
    KeyIs(e);
  }

  lemma KeyIs(e: Event)
    ensures Sight(e).key == SourceKey(NormalizeSourceType(e.sourceType), e.assetIP, e.id) && Sight(e).id == e.id
  {
    hide NormalizeSourceType, SourceKey, Trim, Clean, TagText;
  }

  lemma ObservedTells(v: View, es: seq<Event>, e: Event, mine: seq<Event>, t: string, place: string, text: string)
    requires SourceTells(v, es, mine, t, place, text) && ':' !in t
    requires e.id == "" || forall f :: f in es ==> f.id != e.id
    ensures SourceTells(Observed(v, Sight(e)), es + [e], if ComesFrom(e, t, place) then mine + [e] else mine,
                        t, place, text)
  {
    hide RecordTells, Sighted, Sight, ComesFrom, NewSource;
    KeyOf(e, t, place);
    KeyIs(e);
    var g, k := Sight(e), t + ":" + place;
    if ComesFrom(e, t, place) {
      NewTells(k, g.group, t, text);
      TypeOf(e, t, place);
      SightTells(SourceAt(v.sources, k, g.group), mine, e, t, text);
    }
    forall id ensures id in Observed(v, g).seen <==> id != "" && exists f :: f in es + [e] && f.id == id {
      assert e in es + [e];
      assert forall f :: f in es ==> f in es + [e];
    }
  }

  lemma TypeOf(e: Event, t: string, place: string)
    requires ComesFrom(e, t, place)
    ensures NormalizeSourceType(e.sourceType) == t
  {
  }

  /** After any events, no ID twice, there is a record for a source exactly if an event came from it, and it
      says just what these events say. */
  lemma {:induction false} RecordsTellOfEvents(es: seq<Event>, t: string, place: string, text: string)
    requires OnceEach(es) && ':' !in t
    ensures SourceTells(After(Observes(es)), es, From(es, t, place), t, place, text)
  {
    hide *;
    if es != [] {
      var front, e := es[..|es| - 1], es[|es| - 1];
      assert es == front + [e];
      LastIsOnce(es);
      AfterOneMore(es);
      FromOneMore(es, t, place);
      RecordsTellOfEvents(front, t, place, text);
      ObservedTells(After(Observes(front)), front, e, From(front, t, place), t, place, text);
    } else {
      NoEvents(t, place, text);
    }
  }

  lemma LastIsOnce(es: seq<Event>)
    requires es != [] && OnceEach(es)
    ensures var n := |es| - 1;
      OnceEach(es[..n]) && (es[n].id == "" || forall f :: f in es[..n] ==> f.id != es[n].id)
  {
  }

  lemma AfterOneMore(es: seq<Event>)
    requires es != []
    ensures After(Observes(es)) == Observed(After(Observes(es[..|es| - 1])), Sight(es[|es| - 1]))
  {
    hide Sight, Observed;
    assert Observes(es)[..|es| - 1] == Observes(es[..|es| - 1]);
  }

  lemma FromOneMore(es: seq<Event>, t: string, place: string)
    requires es != []
    ensures var n := |es| - 1;
      From(es, t, place) ==
        if ComesFrom(es[n], t, place) then From(es[..n], t, place) + [es[n]] else From(es[..n], t, place)
  {
    hide ComesFrom;
  }

  lemma NoEvents(t: string, place: string, text: string)
    ensures SourceTells(After(Observes([])), [], From([], t, place), t, place, text)
  {
    assert After([]) == View(map[], {});
  }
}
