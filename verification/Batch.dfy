/** The order in which a batch is sent, and the checkpoint it earns
    (`sort.SliceStable`, `highValue`, `markBatchForwarded` in cmd/dmz-collector/main.go). */
module Batch {
  import opened Json
  import opened Event
  import opened Sequences
  import opened Wrappers

  predicate HighValue(e: Event) {
    "high_value" in e.tags && e.tags["high_value"] == Bool(true)
  }

  /** The events of one priority, in their order. */
  function Only(es: seq<Event>, high: bool): seq<Event> {
    if es == [] then []
    else (if HighValue(es[0]) == high then [es[0]] else []) + Only(es[1..], high)
  }

  /** High-value events first, each class in its old order. */
  function Prioritized(es: seq<Event>): seq<Event> {
    Only(es, true) + Only(es, false)
  }

  function Ids(es: seq<Event>): set<string> {
    set e | e in es :: e.id
  }

  /** No event comes before one of higher priority. */
  predicate Ordered(es: seq<Event>) {
    forall i, j :: 0 <= i < j < |es| ==> !(HighValue(es[j]) && !HighValue(es[i]))
  }

  lemma {:induction false} OnlyMembers(es: seq<Event>, high: bool)
    ensures forall e :: e in Only(es, high) <==> e in es && HighValue(e) == high
  {
    if es != [] {
      OnlyMembers(es[1..], high);
      assert es == [es[0]] + es[1..];
    }
  }

  lemma {:induction false} OnlySplit(es: seq<Event>)
    ensures multiset(Only(es, true)) + multiset(Only(es, false)) == multiset(es)
  {
    if es != [] {
      OnlySplit(es[1..]);
      assert es == [es[0]] + es[1..];
    }
  }

  lemma {:induction false} OnlyOfOnly(es: seq<Event>, a: bool, b: bool)
    ensures Only(Only(es, a), b) == if a == b then Only(es, a) else []
  {
    if es != [] {
      OnlyOfOnly(es[1..], a, b);
      if HighValue(es[0]) != a {
        assert Only(es, a) == Only(es[1..], a);
      } else {
        assert ([es[0]] + Only(es[1..], a))[1..] == Only(es[1..], a);
      }
    }
  }

  lemma {:induction false} OnlyOfConcat(a: seq<Event>, b: seq<Event>, high: bool)
    ensures Only(a + b, high) == Only(a, high) + Only(b, high)
  {
    if a == [] {
      assert a + b == b;
    } else {
      hide *;
      OnlyOfConcat(a[1..], b, high);
      OnlyOfHead(a, high);
      OnlyOfHead(a + b, high);
      HeadOfConcat(a, b);
      ThreeParts(if HighValue(a[0]) == high then [a[0]] else [], Only(a[1..], high), Only(b, high));
    }
  }

  lemma OnlyOfHead(es: seq<Event>, high: bool)
    requires es != []
    ensures Only(es, high) == (if HighValue(es[0]) == high then [es[0]] else []) + Only(es[1..], high)
  {
    hide HighValue;
  }

  /** Sorting keeps the events, puts high value first, is stable and, done twice, changes nothing. */
  lemma PrioritizedIsStableSort(es: seq<Event>)
    ensures multiset(Prioritized(es)) == multiset(es)
    ensures Ordered(Prioritized(es))
    ensures forall high :: Only(Prioritized(es), high) == Only(es, high)
    ensures Prioritized(Prioritized(es)) == Prioritized(es)
  {
    OnlySplit(es);
    OnlyMembers(es, true);
    OnlyMembers(es, false);
    forall high ensures Only(Prioritized(es), high) == Only(es, high) {
      OnlyOfConcat(Only(es, true), Only(es, false), high);
      OnlyOfOnly(es, true, high);
      OnlyOfOnly(es, false, high);
    }
  }

  lemma {:induction false} OnlyOfUniform(es: seq<Event>, high: bool)
    requires forall e :: e in es ==> HighValue(e) == high
    ensures Only(es, high) == es && Only(es, !high) == []
  {
    if es != [] {
      OnlyOfUniform(es[1..], high);
      assert es == [es[0]] + es[1..];
    }
  }

  lemma {:induction false} OrderedIsPrioritized(es: seq<Event>)
    requires Ordered(es)
    ensures es == Prioritized(es)
  {
    if es == [] {
    } else if HighValue(es[0]) {
      OrderedIsPrioritized(es[1..]);
      assert es == [es[0]] + es[1..];
    } else {
      OnlyOfUniform(es, false);
    }
  }

  /** Whatever algorithm the library uses, an ordered and stable result is this one. */
  lemma StableSortIsUnique(es: seq<Event>, sorted: seq<Event>)
    requires Ordered(sorted) && forall high :: Only(sorted, high) == Only(es, high)
    ensures sorted == Prioritized(es)
  {
    OrderedIsPrioritized(sorted);
  }

  lemma PrioritizedKeepsIds(es: seq<Event>)
    ensures Ids(Prioritized(es)) == Ids(es) && |Prioritized(es)| == |es|
    ensures forall e :: e in Prioritized(es) <==> e in es
  {
    PrioritizedIsStableSort(es);
    assert |multiset(Prioritized(es))| == |multiset(es)|;
    forall e ensures e in Prioritized(es) <==> e in es {
      assert e in multiset(Prioritized(es)) <==> e in multiset(es);
    }
  }

  /** The largest known offset of a batch. */
  function MaxOffset(es: seq<Event>, offsets: map<string, nat>): Option<nat> {
    if es == [] then None else
    var e, best := es[|es| - 1], MaxOffset(es[..|es| - 1], offsets);
    if e.id in offsets && (best.None? || offsets[e.id] > best.value) then Some(offsets[e.id]) else best
  }

  method BatchOffset(es: seq<Event>, offsets: map<string, nat>) returns (r: Option<nat>)
    ensures r == MaxOffset(es, offsets)
  {
    var maxOffset, found := 0, false;
    for i := 0 to |es|
      invariant MaxOffset(es[..i], offsets) == if found then Some(maxOffset) else None
    {
      assert es[..i + 1][..i] == es[..i];
      if es[i].id in offsets {
        if !found || offsets[es[i].id] > maxOffset {
          maxOffset, found := offsets[es[i].id], true;
        }
      }
    }
    assert es[..|es|] == es;
    r := if found then Some(maxOffset) else None;
  }

  lemma {:induction false} MaxOffsetIsGreatest(es: seq<Event>, offsets: map<string, nat>)
    ensures MaxOffset(es, offsets).None? <==> forall e :: e in es ==> e.id !in offsets
    ensures MaxOffset(es, offsets).Some? ==>
      && (exists e :: e in es && e.id in offsets && offsets[e.id] == MaxOffset(es, offsets).value)
      && (forall e :: e in es && e.id in offsets ==> offsets[e.id] <= MaxOffset(es, offsets).value)
  {
    if es != [] {
      var front, last := es[..|es| - 1], es[|es| - 1];
      MaxOffsetIsGreatest(front, offsets);
      assert es == front + [last];
      assert last in es;
    }
  }

  /** The checkpoint of a batch depends on its events only, not on how retries reordered it. */
  lemma RetriesKeepTheCheckpoint(es: seq<Event>, again: seq<Event>, offsets: map<string, nat>)
    requires multiset(es) == multiset(again)
    ensures MaxOffset(es, offsets) == MaxOffset(again, offsets)
  {
    hide MaxOffset;
    MaxOffsetIsGreatest(es, offsets);
    MaxOffsetIsGreatest(again, offsets);
    forall e ensures e in es <==> e in again {
      assert e in multiset(es) <==> e in multiset(again);
    }
  }
}
