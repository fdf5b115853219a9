/** What a query of the event log selects (internal/storage/jsonl.go), in the fields of the events. */
module Queries {
  import opened Json
  import opened Text
  import opened JoinedText
  import opened SourceUtil
  import opened Event
  import opened EventLog
  import opened Store
  import opened Sequences

  /** The same text but for the case of its letters. */
  predicate SameText(a: string, b: string) {
    ToLower(a) == ToLower(b)
  }

  /** The event agrees with each field the query fills in. */
  predicate Agrees(e: Event, q: Query) {
    && (q.sourceType != "" ==> NormalizeSourceType(e.sourceType) == NormalizeSourceType(q.sourceType))
    && (q.severity != "" ==> SameText(e.severity, q.severity))
    && (q.category != "" ==> SameText(e.eventCategory, q.category))
    && (q.asset != "" ==> SameText(e.assetIP, q.asset) || SameText(e.assetName, q.asset))
  }

  /** The fields a search looks at, in the order they are joined. */
  function TextsOf(e: Event): seq<string> {
    [e.message, e.raw, e.assetName, e.assetIP, e.eventCategory, e.sourceType, e.severity, e.id]
  }

  predicate InText(text: string, search: string) {
    Contains(ToLower(text), ToLower(search))
  }

  predicate InTags(e: Event, search: string, lib: Lib) {
    exists k | k in e.tags :: InText(k, search) || InText(lib.marshal(e.tags[k]), search)
  }

  predicate InFields(e: Event, search: string) {
    exists i :: 0 <= i < 8 && InText(TextsOf(e)[i], search)
  }

  /** Found in a field, a tag key or a tag value. */
  predicate Found(e: Event, search: string, lib: Lib) {
    InFields(e, search) || InTags(e, search, lib)
  }

  /** The search text ends in one field and begins in an earlier one. */
  ghost predicate FoundAcross(e: Event, search: string) {
    AcrossSome(Lowered(TextsOf(e)), ToLower(search))
  }

  lemma SearchTextHas(e: Event, search: string)
    ensures Contains(ToLower(SearchText(e)), ToLower(search)) <==> InFields(e, search) || FoundAcross(e, search)
  {
    var texts, word := TextsOf(e), ToLower(search);
    assert ToLower(" ") == " ";
    LowerOfJoin(texts, " ");
    JoinContainsIff(Lowered(texts), word);
    if InSome(Lowered(texts), word) {
      var i :| 0 <= i < 8 && Contains(Lowered(texts)[i], word);
      assert InText(texts[i], search);
    }
    if i :| 0 <= i < 8 && InText(texts[i], search) { assert Contains(Lowered(texts)[i], word); }
  }

  lemma NamesAgree(a: string, b: string)
    ensures EqualFold(NormalizeSourceType(a), NormalizeSourceType(b)) <==>
      NormalizeSourceType(a) == NormalizeSourceType(b)
  {
    NormalizeFixed(a);
    NormalizeFixed(b);
    NameIsLower(NormalizeSourceType(a));
    NameIsLower(NormalizeSourceType(b));
  }

  lemma NameIsLower(s: string)
    requires IsName(s)
    ensures ToLower(s) == s
  {
  }

  lemma FilterIs(e: Event, q: Query, lib: Lib)
    ensures Filter(q, lib)(e) <==>
      Agrees(e, q) && (q.search == "" || Found(e, q.search, lib) || FoundAcross(e, q.search))
  {
    hide NormalizeSourceType, SearchText, FoundAcross, InFields, Contains, ToLower;
    NamesAgree(e.sourceType, q.sourceType);
    SearchTextHas(e, q.search);
  }

  /** A query selects the events that agree with each field it fills in and have the search text in a field,
      in a tag or across fields that a blank joins. */
  lemma QuerySelects(es: seq<Event>, q: Query, lib: Lib, e: Event)
    ensures e in Selected(es, Filter(q, lib)) <==>
      && e in es && Agrees(e, q)
      && (q.search == "" || Found(e, q.search, lib) || FoundAcross(e, q.search))
  {
    hide Agrees, Found, FoundAcross, Filter;
    SelectedAre(es, Filter(q, lib));
    FilterIs(e, q, lib);
  }

  lemma WordsAreNotAcross(e: Event, search: string)
    requires ' ' !in search
    ensures !FoundAcross(e, search)
  {
    if FoundAcross(e, search) {
      var i: nat, k: nat :| StraddlesAt(Lowered(TextsOf(e)), ToLower(search), i, k);
      BlankStays(search, k);
    }
  }

  lemma BlankStays(s: string, k: nat)
    requires k < |s| && ToLower(s)[k] == ' '
    ensures s[k] == ' '
  {
  }

  /** A search for text without a blank finds an event exactly when a field or a tag has it. */
  lemma WordSearchSelects(es: seq<Event>, q: Query, lib: Lib, e: Event)
    requires q.search != "" && ' ' !in q.search
    ensures e in Selected(es, Filter(q, lib)) <==> e in es && Agrees(e, q) && Found(e, q.search, lib)
  {
    hide *;
    QuerySelects(es, q, lib, e);
    WordsAreNotAcross(e, q.search);
  }

  /** A text with a blank can be found in an event that has it nowhere: with its first part for a message and
      the rest for a raw text. */
  lemma PhraseAcrossFields(e: Event, x: string, y: string, lib: Lib)
    requires e.message == x && e.raw == y && e.tags == map[]
    requires forall i :: 2 <= i < 8 ==> TextsOf(e)[i] == ""
    ensures var q := ANYTHING.(search := x + " " + y);
      e in Selected([e], Filter(q, lib)) && !Found(e, q.search, lib)
  {
    var q := ANYTHING.(search := x + " " + y);
    var texts, word := Lowered(TextsOf(e)), ToLower(q.search);
    assert forall i :: 0 <= i < 8 ==> |texts[i]| < |word|;
    assert word == texts[0] + " " + texts[1];
    FirstTwo(texts, |texts[0]|);
    QuerySelects([e], q, lib, e);
  }

  lemma FirstTwo(texts: seq<string>, k: nat)
    requires |texts| >= 2 && k == |texts[0]|
    ensures StraddlesAt(texts, texts[0] + " " + texts[1], 1, k)
  {
    assert texts[..1] == [texts[0]] && texts[1..][0] == texts[1];
    assert texts[1] <= Join(texts[1..], " ");
    var word := texts[0] + " " + texts[1];
    assert word[..k] == texts[0] && word[k + 1..] == texts[1] && texts[0][k - k..] == texts[0];
  }

  // ----- combined queries -----

  lemma {:induction false} SelectedTwice(es: seq<Event>, f: Event -> bool, g: Event -> bool, h: Event -> bool)
    requires forall e :: e in es ==> (h(e) <==> f(e) && g(e))
    ensures Selected(Selected(es, f), g) == Selected(es, h)
  {
    if es != [] {
      var front, e := es[..|es| - 1], es[|es| - 1];
      assert es == front + [e];
      SelectedTwice(front, f, g, h);
      SelectedOneMore(front, e, f);
      SelectedOneMore(front, e, h);
      SelectedOneMore(Selected(front, f), e, g);
    }
  }

  const ANYTHING := Query(0, "", "", "", "", "")

  /** A query that fills in several fields selects what its one-field queries select one after the other, in
      whatever order, and so their intersection. */
  lemma CombinedQuery(es: seq<Event>, q: Query, lib: Lib)
    ensures var byType := Selected(es, Filter(ANYTHING.(sourceType := q.sourceType), lib));
      var bySeverity := Selected(byType, Filter(ANYTHING.(severity := q.severity), lib));
      var byCategory := Selected(bySeverity, Filter(ANYTHING.(category := q.category), lib));
      var byAsset := Selected(byCategory, Filter(ANYTHING.(asset := q.asset), lib));
      Selected(byAsset, Filter(ANYTHING.(search := q.search), lib)) == Selected(es, Filter(q, lib))
  {
    var type_, search := ANYTHING.(sourceType := q.sourceType), ANYTHING.(search := q.search);
    var two := type_.(severity := q.severity);
    var three := two.(category := q.category);
    var four := three.(asset := q.asset);
    BothFields(es, type_, ANYTHING.(severity := q.severity), two, lib);
    BothFields(es, two, ANYTHING.(category := q.category), three, lib);
    BothFields(es, three, ANYTHING.(asset := q.asset), four, lib);
    BothFields(es, four, search, q, lib);
  }

  /** Two queries about different fields, and the one that asks for both. */
  lemma BothFields(es: seq<Event>, a: Query, b: Query, both: Query, lib: Lib)
    requires (a.sourceType == "" && both.sourceType == b.sourceType) ||
      (b.sourceType == "" && both.sourceType == a.sourceType)
    requires (a.severity == "" && both.severity == b.severity) || (b.severity == "" && both.severity == a.severity)
    requires (a.category == "" && both.category == b.category) || (b.category == "" && both.category == a.category)
    requires (a.asset == "" && both.asset == b.asset) || (b.asset == "" && both.asset == a.asset)
    requires (a.search == "" && both.search == b.search) || (b.search == "" && both.search == a.search)
    ensures Selected(Selected(es, Filter(a, lib)), Filter(b, lib)) == Selected(es, Filter(both, lib))
    ensures Selected(Selected(es, Filter(b, lib)), Filter(a, lib)) == Selected(es, Filter(both, lib))
  {
    forall e ensures Filter(both, lib)(e) <==> Filter(a, lib)(e) && Filter(b, lib)(e) {
      hide Filter, Found, FoundAcross, NormalizeSourceType, SameText;
      FilterIs(e, a, lib);
      FilterIs(e, b, lib);
      FilterIs(e, both, lib);
    }
    SelectedTwice(es, Filter(a, lib), Filter(b, lib), Filter(both, lib));
    SelectedTwice(es, Filter(b, lib), Filter(a, lib), Filter(both, lib));
  }

  // ----- the answer -----

  /** The answer of a query holds selected events only, no more than the limit (100 if none is given), and
      all those from some point of the log on; if it is not full, there are no others. */
  lemma AnswerIs(es: seq<Event>, q: Query, lib: Lib) returns (k: nat)
    ensures k <= |es|
    ensures var answer, limit := LastOf(Selected(es, Filter(q, lib)), LimitOf(q)), if q.limit >= 1 then q.limit
      else 100;
      && |answer| <= limit && answer == Selected(es[k..], Filter(q, lib))
      && (|answer| < limit ==> answer == Selected(es, Filter(q, lib)))
      && forall e :: e in answer ==> e in es && Agrees(e, q)
  {
    k := QueryReturnsNewest(es, Filter(q, lib), LimitOf(q));
    assert es == es[..k] + es[k..];
    SelectedOfConcat(es[..k], es[k..], Filter(q, lib));
    forall e | e in Selected(es[k..], Filter(q, lib)) ensures e in es && Agrees(e, q) {
      SelectedAre(es[k..], Filter(q, lib));
      FilterIs(e, q, lib);
    }
  }
}
