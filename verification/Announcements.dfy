/** What a batch leaves behind and whom it is shown to: the events it takes in are those in the new lines of
    the spool, and statistics, catalog and every live stream hear of these, in this order, and of no other. */
module Announcements {
  import opened Wrappers
  import opened Event
  import opened Spool
  import opened EventLog
  import opened Delivery
  import opened Audience
  import opened Collector
  import Stats
  import Catalog
  import CatalogLog
  import opened SourceRecords
  import Stream

  // ----- which events a batch takes in -----

  /** Valid, and neither known before nor met earlier in the batch. */
  predicate NewAt(known: set<string>, prepared: seq<Result<Event>>, i: nat)
    requires i < |prepared|
  {
    && prepared[i].Ok? && prepared[i].value.id !in known
    && forall j :: 0 <= j < i && prepared[j].Ok? ==> prepared[j].value.id != prepared[i].value.id
  }

  predicate TakenAt(known: set<string>, prepared: seq<Result<Event>>, ms: seq<Meets>, i: nat)
    requires i < |prepared| == |ms|
  {
    NewAt(known, prepared, i) && ms[i].io.storeOk && ms[i].io.spoolOk
  }

  /** The events taken in, in order, each with the time it met. */
  function TakenOf(known: set<string>, prepared: seq<Result<Event>>, ms: seq<Meets>): seq<(Event, Moment)>
    requires |ms| == |prepared|
  {
    if prepared == [] then [] else
    var n := |prepared| - 1;
    TakenOf(known, prepared[..n], ms[..n]) +
      if TakenAt(known, prepared, ms, n) then [(prepared[n].value, ms[n].at)] else []
  }

  lemma TakenOneMore(known: set<string>, prepared: seq<Result<Event>>, ms: seq<Meets>)
    requires |ms| == |prepared| > 0
    ensures var n := |prepared| - 1;
      TakenOf(known, prepared, ms) ==
        if TakenAt(known, prepared, ms, n) then TakenOf(known, prepared[..n], ms[..n]) + [(prepared[n].value, ms[n].at)]
        else TakenOf(known, prepared[..n], ms[..n])
    ensures TakenAt(known, prepared, ms, |prepared| - 1) ==> prepared[|prepared| - 1].Ok?
  {
  }

  lemma NoneTaken(known: set<string>)
    ensures TakenOf(known, [], []) == []
  {
  }

  function EventsOf(taken: seq<(Event, Moment)>): (es: seq<Event>)
    ensures |es| == |taken|
  {
    seq(|taken|, i requires 0 <= i < |taken| => taken[i].0)
  }

  function KnownAfter(known: set<string>, prepared: seq<Result<Event>>): set<string> {
    known + set i | 0 <= i < |prepared| && prepared[i].Ok? :: prepared[i].value.id
  }

  lemma EventsOneMore(taken: seq<(Event, Moment)>, e: Event, at: Moment)
    ensures EventsOf(taken + [(e, at)]) == EventsOf(taken) + [e]
  {
  }

  lemma KnownOneMore(known: set<string>, prepared: seq<Result<Event>>)
    requires prepared != []
    ensures var n := |prepared| - 1;
      && KnownAfter(known, prepared) ==
           KnownAfter(known, prepared[..n]) + (if prepared[n].Ok? then {prepared[n].value.id} else {})
      && (NewAt(known, prepared, n) <==> prepared[n].Ok? && prepared[n].value.id !in KnownAfter(known, prepared[..n]))
  {
    var n := |prepared| - 1;
    assert forall i :: 0 <= i < n ==> prepared[..n][i] == prepared[i];
  }

  /** What one event of a batch does to the files and the known IDs. */
  lemma EventIsLogged(s: Node, e: Event, io: Appends)
    ensures var t := Ingested(s, e, io);
      && t.seen == s.seen + {e.id}
      && (e.id !in s.seen && io.storeOk && io.spoolOk ==>
            && t.spool.lines == s.spool.lines + [Line(FileSize(s.spool.lines), e, io.spoolSize)]
            && OutcomeOf(s, e, io).Taken?)
      && (!(e.id !in s.seen && io.storeOk && io.spoolOk) ==>
            t.spool.lines == s.spool.lines && !OutcomeOf(s, e, io).Taken?)
  {
  }

  /** The lines `after` has beyond those of `before` hold these events. */
  ghost predicate Adds(before: seq<Line>, after: seq<Line>, es: seq<Event>) {
    && |after| == |before| + |es| && after[..|before|] == before
    && forall i :: 0 <= i < |es| ==> after[|before| + i].event == es[i]
  }

  lemma AddsOneMore(before: seq<Line>, middle: seq<Line>, es: seq<Event>, l: Line)
    requires Adds(before, middle, es)
    ensures Adds(before, middle + [l], es + [l.event])
  {
  }

  /** A batch and its last event. */
  lemma LastOfBatch(s: Node, a: Audience, prepared: seq<Result<Event>>, ms: seq<Meets>)
    requires |ms| == |prepared| > 0
    ensures var n := |prepared| - 1;
      var r, t := Batched(s, a, prepared[..n], ms[..n]), Batched(s, a, prepared, ms);
      var p, io := prepared[n], ms[n].io;
      && (p.Err? ==> t.node == r.node && t.accepted == r.accepted && t.shown == r.shown)
      && (p.Ok? ==>
            && t.node == Ingested(r.node, p.value, io)
            && t.accepted == r.accepted + (if OutcomeOf(r.node, p.value, io).Taken? then 1 else 0)
            && t.shown == if OutcomeOf(r.node, p.value, io).Taken? then Announced(r.shown, p.value, ms[n].at)
              else r.shown)
  {
    hide Ingested, Announced;
  }

  /** The new lines of the spool are the events taken in, in order: of the valid ones the first of each ID
      not known before, if both its appends succeed. */
  lemma {:induction false} BatchIsLogged(s: Node, a: Audience, prepared: seq<Result<Event>>, ms: seq<Meets>)
    requires |ms| == |prepared|
    ensures var r, es := Batched(s, a, prepared, ms), EventsOf(TakenOf(s.seen, prepared, ms));
      && r.accepted == |es| && Adds(s.spool.lines, r.node.spool.lines, es)
      && r.node.seen == KnownAfter(s.seen, prepared)
  {
    if prepared != [] {
      hide Batched, KnownAfter, NewAt, TakenOf, Adds, EventsOf, Ingested, Announced, OutcomeOf, FileSize;
      var n := |prepared| - 1;
      TakenOneMore(s.seen, prepared, ms);
      var r, taken := Batched(s, a, prepared[..n], ms[..n]), TakenOf(s.seen, prepared[..n], ms[..n]);
      BatchIsLogged(s, a, prepared[..n], ms[..n]);
      KnownOneMore(s.seen, prepared);
      LastOfBatch(s, a, prepared, ms);
      if prepared[n].Ok? {
        var e, io := prepared[n].value, ms[n].io;
        EventIsLogged(r.node, e, io);
        EventsOneMore(taken, e, ms[n].at);
        AddsOneMore(s.spool.lines, r.node.spool.lines, EventsOf(taken),
                    Line(FileSize(r.node.spool.lines), e, io.spoolSize));
      }
    } else {
      NothingTaken(s, a);
    }
  }

  lemma NothingTaken(s: Node, a: Audience)
    ensures var r, es := Batched(s, a, [], []), EventsOf(TakenOf(s.seen, [], []));
      && r.accepted == |es| && Adds(s.spool.lines, r.node.spool.lines, es) && r.node.seen == KnownAfter(s.seen, [])
  {
  }

  /** The events of the new lines of the event log: a failed append to the spool does not undo them. */
  function StoredOf(known: set<string>, prepared: seq<Result<Event>>, ms: seq<Meets>): seq<Event>
    requires |ms| == |prepared|
  {
    if prepared == [] then [] else
    var n := |prepared| - 1;
    if NewAt(known, prepared, n) && ms[n].io.storeOk then
      StoredOf(known, prepared[..n], ms[..n]) + [prepared[n].value]
    else StoredOf(known, prepared[..n], ms[..n])
  }

  lemma EventIsStored(s: Node, e: Event, io: Appends)
    ensures Ingested(s, e, io).store ==
      if e.id !in s.seen && io.storeOk then s.store + [StoreLine(e, io.storeSize)] else s.store
  {
  }

  ghost predicate AddsToLog(before: seq<StoreLine>, after: seq<StoreLine>, es: seq<Event>) {
    && |after| == |before| + |es| && after[..|before|] == before
    && forall i :: 0 <= i < |es| ==> after[|before| + i].event == es[i]
  }

  lemma NothingLogged(lines: seq<StoreLine>)
    ensures AddsToLog(lines, lines, [])
  {
  }

  lemma LogOneMore(before: seq<StoreLine>, middle: seq<StoreLine>, es: seq<Event>, l: StoreLine)
    requires AddsToLog(before, middle, es)
    ensures AddsToLog(before, middle + [l], es + [l.event])
  {
  }

  lemma StoredOneMore(known: set<string>, prepared: seq<Result<Event>>, ms: seq<Meets>)
    requires |ms| == |prepared|
    ensures var n := |prepared| - 1;
      if prepared == [] then StoredOf(known, prepared, ms) == []
      else if NewAt(known, prepared, n) && ms[n].io.storeOk then
        prepared[n].Ok? &&
        StoredOf(known, prepared, ms) == StoredOf(known, prepared[..n], ms[..n]) + [prepared[n].value]
      else StoredOf(known, prepared, ms) == StoredOf(known, prepared[..n], ms[..n])
  {
  }

  /** The new lines of the event log are the valid events with a new ID whose append to it succeeds. */
  lemma {:induction false} BatchIsStored(s: Node, a: Audience, prepared: seq<Result<Event>>, ms: seq<Meets>)
    requires |ms| == |prepared|
    ensures AddsToLog(s.store, Batched(s, a, prepared, ms).node.store, StoredOf(s.seen, prepared, ms))
  {
    hide *;
    StoredOneMore(s.seen, prepared, ms);
    if prepared != [] {
      var n := |prepared| - 1;
      var r := Batched(s, a, prepared[..n], ms[..n]);
      BatchIsStored(s, a, prepared[..n], ms[..n]);
      BatchIsLogged(s, a, prepared[..n], ms[..n]);
      KnownOneMore(s.seen, prepared);
      LastOfBatch(s, a, prepared, ms);
      if prepared[n].Ok? {
        EventIsStored(r.node, prepared[n].value, ms[n].io);
        LogOneMore(s.store, r.node.store, StoredOf(s.seen, prepared[..n], ms[..n]),
                   StoreLine(prepared[n].value, ms[n].io.storeSize));
      }
    } else {
      BatchedNone(s, a);
      NothingLogged(s.store);
    }
  }

  // ----- what the sender is told -----

  /** How many of the first `n` events are duplicates: valid, but with an ID known before or met earlier. */
  function Duplicates(known: set<string>, prepared: seq<Result<Event>>, n: nat): nat
    requires n <= |prepared|
  {
    if n == 0 then 0
    else Duplicates(known, prepared, n - 1) + if prepared[n - 1].Ok? && !NewAt(known, prepared, n - 1) then 1 else 0
  }

  /** What was wrong with those rejected, in order: not valid, or not stored, or stored and not spooled. */
  function ErrorsOf(known: set<string>, prepared: seq<Result<Event>>, ms: seq<Meets>, n: nat): seq<string>
    requires n <= |prepared| == |ms|
  {
    if n == 0 then []
    else
      var p, io, before := prepared[n - 1], ms[n - 1].io, ErrorsOf(known, prepared, ms, n - 1);
      if p.Err? then before + [p.error]
      else if !NewAt(known, prepared, n - 1) then before
      else if !io.storeOk then before + ["event log append"]
      else if !io.spoolOk then before + ["spool append"]
      else before
  }

  lemma VerdictIs(s: Node, e: Event, io: Appends)
    ensures var o := OutcomeOf(s, e, io);
      && (o.Duplicate? <==> e.id in s.seen)
      && (o.Rejected? <==> e.id !in s.seen && !(io.storeOk && io.spoolOk))
      && (o.Rejected? ==> o.error == if !io.storeOk then "event log append" else "spool append")
  {
  }

  lemma LastIsTold(s: Node, a: Audience, prepared: seq<Result<Event>>, ms: seq<Meets>, n: nat)
    requires |ms| == |prepared| && n < |prepared|
    ensures var r, t := Batched(s, a, prepared[..n], ms[..n]), Batched(s, a, prepared[..n + 1], ms[..n + 1]);
      var o := if prepared[n].Err? then Rejected(prepared[n].error) else OutcomeOf(r.node, prepared[n].value, ms[n].io);
      && t.duplicates == r.duplicates + (if o.Duplicate? then 1 else 0)
      && t.rejected == r.rejected + (if o.Rejected? then 1 else 0)
      && t.errors == (if o.Rejected? then r.errors + [o.error] else r.errors)
  {
    hide Ingested, Announced, OutcomeOf;
    assert prepared[..n + 1][..n] == prepared[..n] && ms[..n + 1][..n] == ms[..n];
  }

  lemma KnownUpTo(known: set<string>, prepared: seq<Result<Event>>, n: nat)
    requires n < |prepared|
    ensures NewAt(known, prepared, n) <==> prepared[n].Ok? && prepared[n].value.id !in KnownAfter(known, prepared[..n])
  {
    assert forall i :: 0 <= i < n ==> prepared[..n][i] == prepared[i];
  }

  /** The sender is told how many of its events were duplicates, and of each rejected one why, in order. */
  lemma {:induction false} BatchIsTold(s: Node, a: Audience, prepared: seq<Result<Event>>, ms: seq<Meets>, n: nat)
    requires |ms| == |prepared| && n <= |prepared|
    ensures var r := Batched(s, a, prepared[..n], ms[..n]);
      && r.duplicates == Duplicates(s.seen, prepared, n)
      && r.errors == ErrorsOf(s.seen, prepared, ms, n) && r.rejected == |r.errors|
  {
    hide *;
    if n > 0 {
      ToldOneMore(s.seen, prepared, ms, n);
      BatchIsTold(s, a, prepared, ms, n - 1);
      BatchIsLogged(s, a, prepared[..n - 1], ms[..n - 1]);
      KnownUpTo(s.seen, prepared, n - 1);
      LastIsTold(s, a, prepared, ms, n - 1);
      if prepared[n - 1].Ok? {
        VerdictIs(Batched(s, a, prepared[..n - 1], ms[..n - 1]).node, prepared[n - 1].value, ms[n - 1].io);
      }
    } else {
      BatchedNone(s, a);
      assert prepared[..0] == [] && ms[..0] == [];
      NothingToTell(s.seen, prepared, ms);
    }
  }

  lemma NothingToTell(known: set<string>, prepared: seq<Result<Event>>, ms: seq<Meets>)
    requires |ms| == |prepared|
    ensures Duplicates(known, prepared, 0) == 0 && ErrorsOf(known, prepared, ms, 0) == []
  {
  }

  lemma ToldOneMore(known: set<string>, prepared: seq<Result<Event>>, ms: seq<Meets>, n: nat)
    requires 0 < n <= |prepared| == |ms|
    ensures var p, io, fresh_ := prepared[n - 1], ms[n - 1].io, NewAt(known, prepared, n - 1);
      && Duplicates(known, prepared, n) ==
           Duplicates(known, prepared, n - 1) + (if p.Ok? && !fresh_ then 1 else 0)
      && ErrorsOf(known, prepared, ms, n) == ErrorsOf(known, prepared, ms, n - 1) +
           (if p.Err? then [p.error] else if !fresh_ then [] else if !io.storeOk then ["event log append"]
            else if !io.spoolOk then ["spool append"] else [])
  {
    hide NewAt;
  }

  // ----- whom they are shown to -----

  /** An event taken in is shown to everyone; one that is not is shown to no one. */
  lemma LastIsShown(s: Node, a: Audience, prepared: seq<Result<Event>>, ms: seq<Meets>)
    requires |ms| == |prepared| > 0
    ensures var n := |prepared| - 1;
      Batched(s, a, prepared, ms).shown ==
        if TakenAt(s.seen, prepared, ms, n)
        then Announced(Batched(s, a, prepared[..n], ms[..n]).shown, prepared[n].value, ms[n].at)
        else Batched(s, a, prepared[..n], ms[..n]).shown
  {
    hide Batched, KnownAfter, NewAt, Ingested, Announced, OutcomeOf;
    var n := |prepared| - 1;
    BatchIsLogged(s, a, prepared[..n], ms[..n]);
    KnownOneMore(s.seen, prepared);
    LastOfBatch(s, a, prepared, ms);
    if prepared[n].Ok? {
      EventIsLogged(Batched(s, a, prepared[..n], ms[..n]).node, prepared[n].value, ms[n].io);
    }
  }

  /** A batch that adds nothing to the spool shows nothing to anyone. */
  lemma {:induction false} NothingTakenNothingShown(s: Node, a: Audience, prepared: seq<Result<Event>>, ms: seq<Meets>)
    requires |ms| == |prepared| && Batched(s, a, prepared, ms).node.spool.lines == s.spool.lines
    ensures Batched(s, a, prepared, ms).shown == a
  {
    BatchIsLogged(s, a, prepared, ms);
    NoneIsShown(s, a, prepared, ms);
  }

  lemma {:induction false} NoneIsShown(s: Node, a: Audience, prepared: seq<Result<Event>>, ms: seq<Meets>)
    requires |ms| == |prepared| && TakenOf(s.seen, prepared, ms) == []
    ensures Batched(s, a, prepared, ms).shown == a
  {
    if prepared != [] {
      hide *;
      TakenOneMore(s.seen, prepared, ms);
      LastIsShown(s, a, prepared, ms);
      NoneIsShown(s, a, prepared[..|prepared| - 1], ms[..|prepared| - 1]);
    } else {
      BatchedNone(s, a);
    }
  }

  /** The IDs of the events from some line of the spool on. */
  function IdsFrom(lines: seq<Line>, from: nat): set<string> {
    set i | from <= i < |lines| && lines[i].event.id != "" :: lines[i].event.id
  }

  lemma AnnouncedToAll(a: Audience, e: Event, at: Moment)
    ensures Announced(a, e, at).totals.received == a.totals.received + 1
    ensures Announced(a, e, at).view.seen == a.view.seen + if e.id == "" then {} else {e.id}
  {
    hide Catalog.Sighted, Catalog.SourceAt, Catalog.SourceKey, Stats.SampleOf, Stream.Published;
    assert Catalog.Sight(e).id == e.id;
  }

  lemma IdsOneMore(lines: seq<Line>, from: nat, l: Line)
    requires from <= |lines|
    ensures IdsFrom(lines + [l], from) == IdsFrom(lines, from) + if l.event.id == "" then {} else {l.event.id}
  {
    var more := lines + [l];
    forall i | from <= i < |lines| ensures more[i] == lines[i] {}
    forall id | id in IdsFrom(lines, from) ensures id in IdsFrom(more, from) {
      var i :| from <= i < |lines| && lines[i].event.id != "" && lines[i].event.id == id;
      assert more[i].event.id == id;
    }
    assert more[|lines|] == l;
  }

  /** A batch and its last event, as everyone hears of it: the spool has one line more, and they one event, or
      nothing happens to either. */
  lemma LastIsHeard(s: Node, a: Audience, prepared: seq<Result<Event>>, ms: seq<Meets>)
    requires |ms| == |prepared| > 0
    ensures var n := |prepared| - 1;
      var r, t := Batched(s, a, prepared[..n], ms[..n]), Batched(s, a, prepared, ms);
      if |t.node.spool.lines| == |r.node.spool.lines| then
        t.node.spool.lines == r.node.spool.lines && t.shown == r.shown
      else
        && |t.node.spool.lines| == |r.node.spool.lines| + 1
        && t.node.spool.lines == r.node.spool.lines + [t.node.spool.lines[|r.node.spool.lines|]]
        && prepared[n].Ok? && t.node.spool.lines[|r.node.spool.lines|].event == prepared[n].value
        && t.shown == Announced(r.shown, prepared[n].value, ms[n].at)
  {
    hide Batched, Ingested, Announced, OutcomeOf, FileSize;
    var n := |prepared| - 1;
    LastOfBatch(s, a, prepared, ms);
    if prepared[n].Ok? {
      EventIsLogged(Batched(s, a, prepared[..n], ms[..n]).node, prepared[n].value, ms[n].io);
    }
  }

  /** Whatever is ingested, the statistics count one event for each new line of the spool, and the catalog knows
      the IDs of these and no others besides those it knew. */
  lemma {:induction false} SpoolIsHeardOf(s: Node, a: Audience, prepared: seq<Result<Event>>, ms: seq<Meets>)
    requires |ms| == |prepared|
    ensures var r := Batched(s, a, prepared, ms);
      && |s.spool.lines| <= |r.node.spool.lines|
      && r.shown.totals.received == a.totals.received + (|r.node.spool.lines| - |s.spool.lines|)
      && r.shown.view.seen == a.view.seen + IdsFrom(r.node.spool.lines, |s.spool.lines|)
  {
    hide *;
    if prepared != [] {
      var n := |prepared| - 1;
      var r, t := Batched(s, a, prepared[..n], ms[..n]), Batched(s, a, prepared, ms);
      SpoolIsHeardOf(s, a, prepared[..n], ms[..n]);
      LastIsHeard(s, a, prepared, ms);
      if |t.node.spool.lines| != |r.node.spool.lines| {
        AnnouncedToAll(r.shown, prepared[n].value, ms[n].at);
        IdsOneMore(r.node.spool.lines, |s.spool.lines|, t.node.spool.lines[|r.node.spool.lines|]);
      }
    } else {
      BatchedNone(s, a);
      NoIdsFrom(s.spool.lines);
    }
  }

  lemma NoIdsFrom(lines: seq<Line>)
    ensures IdsFrom(lines, |lines|) == {}
  {
  }

  // ----- the statistics -----

  function ArrivalsOf(taken: seq<(Event, Moment)>): (as_: seq<Stats.Arrival>)
    ensures |as_| == |taken|
  {
    seq(|taken|, i requires 0 <= i < |taken| => Stats.Arrival(taken[i].0, taken[i].1.bucket, taken[i].1.second))
  }

  lemma AnnouncedIsCounted(a: Audience, e: Event, at: Moment, before: seq<Stats.Arrival>)
    requires a.totals == Stats.AfterAll(Stats.SamplesOf(before))
    ensures Announced(a, e, at).totals ==
      Stats.AfterAll(Stats.SamplesOf(before + [Stats.Arrival(e, at.bucket, at.second)]))
  {
    hide Stats.SampleOf, Stats.AfterAll, Catalog.Observed, Catalog.Sight, Stream.Published;
    var p := Stats.SampleOf(e, at.bucket, at.second);
    assert Stats.SamplesOf(before + [Stats.Arrival(e, at.bucket, at.second)]) == Stats.SamplesOf(before) + [p];
    AfterOneMore(Stats.SamplesOf(before), p);
  }

  lemma AfterOneMore(ps: seq<Stats.Sample>, p: Stats.Sample)
    ensures Stats.AfterAll(ps + [p]) == Stats.Added(Stats.AfterAll(ps), p)
  {
    hide Stats.Added;
    assert (ps + [p])[..|ps|] == ps;
  }

  lemma NoArrivals(before: seq<Stats.Arrival>)
    ensures before + ArrivalsOf([]) == before
  {
  }

  lemma ArrivalsOneMore(taken: seq<(Event, Moment)>, e: Event, at: Moment, before: seq<Stats.Arrival>)
    ensures before + ArrivalsOf(taken + [(e, at)]) ==
      before + ArrivalsOf(taken) + [Stats.Arrival(e, at.bucket, at.second)]
  {
  }

  /** The statistics count exactly the events taken in, each at the time it met. */
  lemma {:induction false} BatchIsCounted(s: Node, a: Audience, prepared: seq<Result<Event>>, ms: seq<Meets>,
      before: seq<Stats.Arrival>)
    requires |ms| == |prepared| && a.totals == Stats.AfterAll(Stats.SamplesOf(before))
    ensures Batched(s, a, prepared, ms).shown.totals ==
      Stats.AfterAll(Stats.SamplesOf(before + ArrivalsOf(TakenOf(s.seen, prepared, ms))))
  {
    hide *;
    if prepared != [] {
      TakenOneMore(s.seen, prepared, ms);
      var n := |prepared| - 1;
      var r, taken := Batched(s, a, prepared[..n], ms[..n]), TakenOf(s.seen, prepared[..n], ms[..n]);
      BatchIsCounted(s, a, prepared[..n], ms[..n], before);
      LastIsShown(s, a, prepared, ms);
      if TakenAt(s.seen, prepared, ms, n) {
        AnnouncedIsCounted(r.shown, prepared[n].value, ms[n].at, before + ArrivalsOf(taken));
        ArrivalsOneMore(taken, prepared[n].value, ms[n].at, before);
      }
    } else {
      BatchedNone(s, a);
      NoneTaken(s.seen);
      NoArrivals(before);
    }
  }

  // ----- the source catalog -----

  lemma AnnouncedIsObserved(a: Audience, e: Event, at: Moment, ops: seq<CatalogLog.Op>)
    requires a.view == CatalogLog.After(ops)
    ensures Announced(a, e, at).view == CatalogLog.After(ops + [CatalogLog.Observe(Catalog.Sight(e))])
  {
    hide Catalog.Observed, Catalog.Sight, Stats.SampleOf, Stats.Added;
    var op := CatalogLog.Observe(Catalog.Sight(e));
    assert (ops + [op])[..|ops|] == ops;
  }

  lemma ObservesOneMore(es: seq<Event>, e: Event, ops: seq<CatalogLog.Op>)
    ensures ops + Observes(es + [e]) == ops + Observes(es) + [CatalogLog.Observe(Catalog.Sight(e))]
  {
    hide Catalog.Sight;
    assert Observes(es + [e]) == Observes(es) + [CatalogLog.Observe(Catalog.Sight(e))];
  }

  lemma NoObserves(ops: seq<CatalogLog.Op>)
    ensures ops + Observes(EventsOf([])) == ops
  {
  }

  /** The catalog observes exactly the events taken in, in order. */
  lemma {:induction false} BatchIsObserved(s: Node, a: Audience, prepared: seq<Result<Event>>, ms: seq<Meets>,
      ops: seq<CatalogLog.Op>)
    requires |ms| == |prepared| && a.view == CatalogLog.After(ops)
    ensures Batched(s, a, prepared, ms).shown.view ==
      CatalogLog.After(ops + Observes(EventsOf(TakenOf(s.seen, prepared, ms))))
  {
    hide *;
    if prepared != [] {
      TakenOneMore(s.seen, prepared, ms);
      var n := |prepared| - 1;
      var r, taken := Batched(s, a, prepared[..n], ms[..n]), TakenOf(s.seen, prepared[..n], ms[..n]);
      BatchIsObserved(s, a, prepared[..n], ms[..n], ops);
      LastIsShown(s, a, prepared, ms);
      if TakenAt(s.seen, prepared, ms, n) {
        AnnouncedIsObserved(r.shown, prepared[n].value, ms[n].at, ops + Observes(EventsOf(taken)));
        EventsOneMore(taken, prepared[n].value, ms[n].at);
        ObservesOneMore(EventsOf(taken), prepared[n].value, ops);
      }
    } else {
      BatchedNone(s, a);
      NoneTaken(s.seen);
      NoObserves(ops);
    }
  }

  // ----- the live streams -----

  /** As many of the events as find room: a stream holds 128. */
  function Fitting(es: seq<Event>, waiting: nat): seq<Event> {
    if waiting >= 128 then [] else if waiting + |es| <= 128 then es else es[..128 - waiting]
  }

  /** Each open client has received these events as far as they fit, and no other client anything. */
  ghost predicate Receives(h: Stream.Hub, k: Stream.Hub, es: seq<Event>) {
    && k.nextID == h.nextID && k.open == h.open && k.buffers.Keys == h.buffers.Keys
    && forall id :: id in h.buffers ==>
         k.buffers[id] == if id in h.open then h.buffers[id] + Fitting(es, |h.buffers[id]|) else h.buffers[id]
  }

  lemma AnnouncedIsReceived(a: Audience, e: Event, at: Moment)
    ensures Receives(a.hub, Announced(a, e, at).hub, [e])
  {
    hide Stats.SampleOf, Stats.Added, Catalog.Observed, Catalog.Sight;
  }

  lemma ReceivesOneMore(h: Stream.Hub, k: Stream.Hub, l: Stream.Hub, es: seq<Event>, e: Event)
    requires Receives(h, k, es) && Receives(k, l, [e])
    ensures Receives(h, l, es + [e])
  {
    forall id | id in h.buffers && id in h.open
      ensures l.buffers[id] == h.buffers[id] + Fitting(es + [e], |h.buffers[id]|)
    {
      FittingOneMore(h.buffers[id], es, e);
    }
  }

  lemma FittingOneMore(buffer: seq<Event>, es: seq<Event>, e: Event)
    ensures var now := buffer + Fitting(es, |buffer|);
      now + Fitting([e], |now|) == buffer + Fitting(es + [e], |buffer|)
  {
  }

  /** Every open stream gets the events taken in, in order, as far as they fit; with room for all of them it
      gets all of them. */
  lemma {:induction false} BatchIsReceived(s: Node, a: Audience, prepared: seq<Result<Event>>, ms: seq<Meets>)
    requires |ms| == |prepared|
    ensures Receives(a.hub, Batched(s, a, prepared, ms).shown.hub, EventsOf(TakenOf(s.seen, prepared, ms)))
  {
    if prepared != [] {
      hide *;
      TakenOneMore(s.seen, prepared, ms);
      var n := |prepared| - 1;
      var r, taken := Batched(s, a, prepared[..n], ms[..n]), TakenOf(s.seen, prepared[..n], ms[..n]);
      BatchIsReceived(s, a, prepared[..n], ms[..n]);
      LastIsShown(s, a, prepared, ms);
      if TakenAt(s.seen, prepared, ms, n) {
        var e, at := prepared[n].value, ms[n].at;
        AnnouncedIsReceived(r.shown, e, at);
        ReceivesOneMore(a.hub, r.shown.hub, Announced(r.shown, e, at).hub, EventsOf(taken), e);
        EventsOneMore(taken, e, at);
      }
    } else {
      BatchedNone(s, a);
    }
  }

  /** So a client with room for the new lines of the spool gets exactly their events, in order. */
  lemma StreamsShowTheSpool(s: Node, a: Audience, prepared: seq<Result<Event>>, ms: seq<Meets>, id: nat)
    requires |ms| == |prepared| && id in a.hub.open && id in a.hub.buffers
    ensures var r, before := Batched(s, a, prepared, ms), a.hub.buffers[id];
      && |r.node.spool.lines| >= |s.spool.lines| && id in r.shown.hub.buffers
      && (|before| + |r.node.spool.lines| - |s.spool.lines| <= 128 ==>
            && |r.shown.hub.buffers[id]| == |before| + |r.node.spool.lines| - |s.spool.lines|
            && r.shown.hub.buffers[id][..|before|] == before
            && forall i :: |s.spool.lines| <= i < |r.node.spool.lines| ==>
                 r.shown.hub.buffers[id][|before| + i - |s.spool.lines|] == r.node.spool.lines[i].event)
  {
    hide Batched, TakenOf, EventsOf;
    BatchIsLogged(s, a, prepared, ms);
    BatchIsReceived(s, a, prepared, ms);
    var r, es := Batched(s, a, prepared, ms), EventsOf(TakenOf(s.seen, prepared, ms));
    var b, before := |s.spool.lines|, a.hub.buffers[id];
    assert r.shown.hub.buffers[id] == before + Fitting(es, |before|);
    if |before| + |es| <= 128 { SameEvents(s.spool.lines, r.node.spool.lines, before, es); }
  }

  lemma SameEvents(lines: seq<Line>, after: seq<Line>, before: seq<Event>, es: seq<Event>)
    requires Adds(lines, after, es)
    ensures (before + es)[..|before|] == before
    ensures forall i :: |lines| <= i < |after| ==> (before + es)[|before| + i - |lines|] == after[i].event
  {
    forall i | |lines| <= i < |after| ensures (before + es)[|before| + i - |lines|] == after[i].event {
      assert after[|lines| + (i - |lines|)].event == es[i - |lines|];
    }
  }
}
