/** What is sent first (cmd/dmz-collector/main.go): in every pass of every run the urgent events of the batch
    come before the others, by what their senders wrote. */
module Priority {
  import opened Json
  import opened Text
  import opened Wrappers
  import opened Event
  import opened Normalizer
  import opened Spool
  import opened Batch
  import opened Delivery
  import opened Content
  import opened PreparedFields
  import opened Reading
  import opened Sequences

  /** The event comes out of preparation, and its sender gave it no priority of its own. */
  ghost predicate Received(e: Event, lib: Lib) {
    exists x, now :: lib.Clock(now) && Prepared(x, lib, now) == Ok(e) && "high_value" !in x.tags
  }

  /** Such an event, as it came in or as it was read back from the spool. */
  ghost predicate Known(e: Event, lib: Lib) {
    Received(e, lib) || exists p: Event :: Received(p, lib) && ReadsWithDefaults(p, e)
  }

  ghost predicate AllKnown(es: seq<Event>, lib: Lib) {
    forall e :: e in es ==> Known(e, lib)
  }

  /** The urgent events of a batch, or the others, in order. */
  function Those(es: seq<Event>, urgent: bool): seq<Event> {
    if es == [] then []
    else if Urgent(es[0]) == urgent then [es[0]] + Those(es[1..], urgent) else Those(es[1..], urgent)
  }

  lemma ReceivedPriority(e: Event, lib: Lib)
    requires Received(e, lib)
    ensures TagIs(e.tags, "high_value", Bool(true)) <==> Urgent(e)
  {
    hide Prepared, Urgent;
    var x, now :| lib.Clock(now) && Prepared(x, lib, now) == Ok(e) && "high_value" !in x.tags;
    HighValueTag(x, lib, now);
  }

  lemma ReadingKeepsUrgency(p: Event, q: Event)
    requires ReadsWithDefaults(p, q)
    ensures Urgent(q) == Urgent(p) && q.tags == p.tags
  {
    hide Clean, TrueTag;
  }

  lemma KnownPriority(e: Event, lib: Lib)
    requires Known(e, lib)
    ensures HighValue(e) <==> Urgent(e)
  {
    hide Urgent, ReadsWithDefaults, Received;
    if Received(e, lib) {
      ReceivedPriority(e, lib);
    } else {
      var p: Event :| Received(p, lib) && ReadsWithDefaults(p, e);
      ReceivedPriority(p, lib);
      ReadingKeepsUrgency(p, e);
    }
  }

  lemma {:induction false} OnlyIsThose(es: seq<Event>, urgent: bool, lib: Lib)
    requires AllKnown(es, lib)
    ensures Only(es, urgent) == Those(es, urgent)
  {
    if es != [] {
      hide Known, Urgent, HighValue;
      KnownPriority(es[0], lib);
      OnlyIsThose(es[1..], urgent, lib);
      assert [] + Only(es[1..], urgent) == Only(es[1..], urgent);
    }
  }

  /** The order in which a batch is sent: its urgent events, in order, and then the others, in order. */
  lemma UrgentComeFirst(es: seq<Event>, lib: Lib)
    requires AllKnown(es, lib)
    ensures Prioritized(es) == Those(es, true) + Those(es, false)
    ensures forall i, j :: 0 <= i < j < |Prioritized(es)| ==> Urgent(Prioritized(es)[j]) ==> Urgent(Prioritized(es)[i])
  {
    hide AllKnown, Urgent;
    OnlyIsThose(es, true, lib);
    OnlyIsThose(es, false, lib);
    ThoseAre(es, true);
    ThoseAre(es, false);
  }

  /** A sender can give an event priority too: whatever a batch holds, the events tagged as of high value come
      first, and an event is so tagged if it is urgent or its sender tagged it. */
  lemma TaggedComeFirst(es: seq<Event>)
    ensures var order := Prioritized(es);
      forall i, j :: 0 <= i < j < |order| ==>
        TagIs(order[j].tags, "high_value", Bool(true)) ==> TagIs(order[i].tags, "high_value", Bool(true))
  {
    hide Prioritized;
    PrioritizedIsStableSort(es);
  }

  lemma {:induction false} ThoseAre(es: seq<Event>, urgent: bool)
    ensures forall i :: 0 <= i < |Those(es, urgent)| ==> Urgent(Those(es, urgent)[i]) == urgent
  {
    if es != [] {
      hide Urgent;
      ThoseAre(es[1..], urgent);
    }
  }

  // ----- in every run -----

  /** Only events out of preparation come in. */
  ghost predicate AllReceived(steps: seq<Step>, lib: Lib) {
    forall step :: step in steps && step.Ingest? ==> Received(step.event, lib)
  }

  ghost predicate SpoolReceived(s: Node, lib: Lib) {
    forall i :: 0 <= i < |s.spool.lines| ==> Received(s.spool.lines[i].event, lib)
  }

  lemma StepKeepsReceived(s: Node, step: Step, read: Event -> Event, lib: Lib)
    requires SpoolReceived(s, lib) && (step.Ingest? ==> Received(step.event, lib))
    ensures SpoolReceived(Next(s, step, read), lib)
  {
    hide Received;
    if step.Ingest? {
      assert Next(s, step, read).spool.lines == s.spool.lines ||
        Next(s, step, read).spool.lines == Appended(s.spool.lines, step.event, step.io.spoolSize);
    } else {
      OtherStepsKeepLines(s, step, read);
    }
  }

  lemma {:induction false} EnqueueAllKeepsLines(s: Node, rs: seq<SpoolRecord>)
    ensures EnqueueAll(s, rs).spool.lines == s.spool.lines
    decreases |rs|
  {
    if rs != [] { EnqueueAllKeepsLines(Enqueue(s, rs[0].event, rs[0].offset), rs[1..]); }
  }

  lemma RefillKeepsLines(s: Node, read: Event -> Event)
    ensures Refilled(s, read).spool.lines == s.spool.lines
  {
    EnqueueAllKeepsLines(s, PendingRecords(s.spool.lines, s.spool.checkpoint, read));
  }

  lemma OtherStepsKeepLines(s: Node, step: Step, read: Event -> Event)
    requires !step.Ingest?
    ensures Next(s, step, read).spool.lines == s.spool.lines
  {
    hide Refilled, Prioritized, MaxOffset, AfterWrite;
    match step
    case Configure(cfg, saved) => RefillKeepsLines(Replaced(s, cfg), read);
    case Refill => RefillKeepsLines(s, read);
    case Crash => RefillKeepsLines(Blank(s, read), read);
    case _ =>
  }

  lemma {:induction false} RunKeepsReceived(s: Node, steps: seq<Step>, read: Event -> Event, lib: Lib)
    requires SpoolReceived(s, lib) && AllReceived(steps, lib)
    ensures SpoolReceived(Run(s, steps, read), lib)
    decreases |steps|
  {
    if steps != [] {
      hide SpoolReceived, Next, Received;
      StepKeepsReceived(s, steps[0], read, lib);
      assert forall step :: step in steps[1..] ==> step in steps;
      RunKeepsReceived(Next(s, steps[0], read), steps[1..], read, lib);
    }
  }

  lemma PendingAreKnown(s: Node, lib: Lib, now: string)
    requires SpoolReceived(s, lib) && AllFromSpool(s.spool.lines, s.pending, ReadBack(lib, now))
    ensures AllKnown(s.pending, lib)
  {
    hide Received, ReadsWithDefaults;
    forall e | e in s.pending ensures Known(e, lib) {
      var i :| 0 <= i < |s.spool.lines| &&
               (e == s.spool.lines[i].event || e == ReadBack(lib, now)(s.spool.lines[i].event));
      var p := s.spool.lines[i].event;
      ReadOfReceived(p, lib, now);
      assert e == p || ReadsWithDefaults(p, e);
    }
  }

  lemma ReadOfReceived(p: Event, lib: Lib, now: string)
    requires Received(p, lib)
    ensures ReadsWithDefaults(p, ReadBack(lib, now)(p))
  {
    hide Prepared, ReadsWithDefaults, Reload;
    var x, t :| lib.Clock(t) && Prepared(x, lib, t) == Ok(p) && "high_value" !in x.tags;
    ReloadOfPrepared(x, lib, t, now);
  }

  /** In every run into which only prepared events come, what a pass sends are the first so many of the batch's
      urgent events and, only after all of these, of the others: no urgent event is ever sent in a pass after one
      that is not. */
  lemma PassesSendUrgentFirst(queueSize: nat, cfg: Config, steps: seq<Step>, lib: Lib, now: string, count: nat,
      when: string)
    requires AllReceived(steps, lib)
    ensures var s := Run(Installed(queueSize, cfg), steps, ReadBack(lib, now));
      var wire, order := Sent(s, count, when).wire, Those(s.pending, true) + Those(s.pending, false);
      && |s.wire| <= |wire| && wire[..|s.wire|] == s.wire && wire[|s.wire|..] <= order
      && (s.pending != [] && s.phase == Sending ==>
            |wire| - |s.wire| == if count < |s.pending| then count else |s.pending|)
      && forall i, j :: |s.wire| <= i < j < |wire| ==> Urgent(wire[j]) ==> Urgent(wire[i])
  {
    hide *;
    var read := ReadBack(lib, now);
    var s := Run(Installed(queueSize, cfg), steps, read);
    NothingYet(queueSize, cfg, read, lib);
    RunKeepsReceived(Installed(queueSize, cfg), steps, read, lib);
    RunKeepsContent(Installed(queueSize, cfg), steps, read);
    ContentOfPending(s, read);
    PendingAreKnown(s, lib, now);
    UrgentComeFirst(s.pending, lib);
    PrioritizedKeepsIds(s.pending);
    PassSends(s, count, when);
    var wire, order := Sent(s, count, when).wire, Prioritized(s.pending);
    forall i, j | |s.wire| <= i < j < |wire| ensures Urgent(wire[j]) ==> Urgent(wire[i]) {
      assert wire[|s.wire|..][i - |s.wire|] == order[i - |s.wire|];
      assert wire[|s.wire|..][j - |s.wire|] == order[j - |s.wire|];
    }
  }

  lemma NothingYet(queueSize: nat, cfg: Config, read: Event -> Event, lib: Lib)
    ensures ContentInv(Installed(queueSize, cfg), read) && SpoolReceived(Installed(queueSize, cfg), lib)
  {
  }

  lemma ContentOfPending(s: Node, read: Event -> Event)
    requires ContentInv(s, read)
    ensures AllFromSpool(s.spool.lines, s.pending, read)
  {
  }

  lemma PassSends(s: Node, count: nat, when: string)
    ensures var wire, batch := Sent(s, count, when).wire, Prioritized(s.pending);
      && |s.wire| <= |wire| && wire[..|s.wire|] == s.wire && wire[|s.wire|..] <= batch
      && (s.pending != [] && s.phase == Sending ==>
            |wire| - |s.wire| == if count < |batch| then count else |batch|)
  {
    hide Prioritized;
  }
}
