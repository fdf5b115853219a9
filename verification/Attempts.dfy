/** A batch from the pop that takes it to the checkpoint it earns, over any number of failed passes
    and whatever else happens meanwhile. */
module Attempts {
  import opened Event
  import opened Spool
  import opened Batch
  import opened Delivery
  import opened Books

  /** Once a pass has sent the whole batch, the batch is the end of what was sent: one pass sent it
      all, in the order it is held in. */
  ghost predicate LastPass(s: Node) {
    s.phase != Sending ==> |s.pending| <= |s.wire| && s.wire[|s.wire| - |s.pending|..] == s.pending
  }

  lemma EnqueueAllKeepsBatch(s: Node, rs: seq<SpoolRecord>)
    ensures var t := EnqueueAll(s, rs);
      t.pending == s.pending && t.phase == s.phase && t.wire == s.wire && t.spool == s.spool
  {
    EnqueueAllKeepsDisk(s, rs);
  }

  /** What every step but a send, a crash and the end of a batch leaves alone. */
  predicate SameBatch(s: Node, t: Node) {
    t.pending == s.pending && t.wire == s.wire && (t.phase == Sending <==> s.phase == Sending)
  }

  predicate Ends(s: Node, step: Step) {
    step.Forget? && s.phase == Checkpointed
  }

  lemma OtherStepsKeepBatch(s: Node, step: Step, read: Event -> Event)
    requires s.pending != [] && !step.Crash? && !step.Send? && !Ends(s, step)
    ensures SameBatch(s, Next(s, step, read))
  {
    match step
    case Configure(cfg, saved) =>
      EnqueueAllKeepsBatch(Replaced(s, cfg), PendingRecords(s.spool.lines, s.spool.checkpoint, read));
    case Refill => EnqueueAllKeepsBatch(s, PendingRecords(s.spool.lines, s.spool.checkpoint, read));
    case _ =>
  }

  lemma SendKeepsLastPass(s: Node, count: nat, when: string)
    requires LastPass(s)
    ensures LastPass(Sent(s, count, when)) && multiset(Sent(s, count, when).pending) == multiset(s.pending)
  {
    var batch := Prioritized(s.pending);
    PrioritizedIsStableSort(s.pending);
    if count >= |batch| { EndOfConcat(s.wire, batch); }
  }

  lemma EndOfConcat(a: seq<Event>, b: seq<Event>)
    ensures |b| <= |a + b| && (a + b)[|a + b| - |b|..] == b
  {
  }

  /** A step ends a batch exactly when the batch has been checkpointed and the worker forgets it;
      every other step but a crash keeps its events, whatever the order. */
  lemma BatchEndsIff(s: Node, step: Step, read: Event -> Event)
    requires s.pending != [] && LastPass(s) && !step.Crash?
    ensures multiset(Next(s, step, read).pending) == multiset(s.pending) <==> !Ends(s, step)
    ensures LastPass(Next(s, step, read))
  {
    hide Next, Sent, SameBatch, LastPass;
    if step.Send? {
      StepIsSent(s, step, read);
      SendKeepsLastPass(s, step.count, step.when);
    } else if Ends(s, step) {
      assert s.pending[0] in multiset(s.pending);
      EndOfBatch(s, step, read);
    } else {
      OtherStepsKeepBatch(s, step, read);
      SameBatchSamePass(s, Next(s, step, read));
    }
  }

  lemma StepIsSent(s: Node, step: Step, read: Event -> Event)
    requires step.Send?
    ensures Next(s, step, read) == Sent(s, step.count, step.when)
  {
  }

  lemma EndOfBatch(s: Node, step: Step, read: Event -> Event)
    requires Ends(s, step)
    ensures Next(s, step, read).pending == [] && LastPass(Next(s, step, read))
  {
  }

  lemma SameBatchSamePass(s: Node, t: Node)
    requires SameBatch(s, t)
    ensures t.pending == s.pending && LastPass(t) == LastPass(s)
  {
  }

  lemma IdleKeepsLastPass(s: Node, step: Step, read: Event -> Event)
    requires s.pending == [] && s.phase == Sending
    ensures LastPass(Next(s, step, read))
  {
    match step
    case Configure(cfg, saved) =>
      EnqueueAllKeepsBatch(Replaced(s, cfg), PendingRecords(s.spool.lines, s.spool.checkpoint, read));
    case Refill => EnqueueAllKeepsBatch(s, PendingRecords(s.spool.lines, s.spool.checkpoint, read));
    case Crash => RestartKeepsBatchIdle(s, read);
    case _ =>
  }

  lemma RestartKeepsBatchIdle(s: Node, read: Event -> Event)
    ensures Restarted(s, read).phase == Sending && Restarted(s, read).pending == []
  {
    var up := Blank(s, read);
    EnqueueAllKeepsBatch(up, PendingRecords(s.spool.lines, s.spool.checkpoint, read));
  }

  /** In every run, whenever a batch counts as delivered one pass has sent all of it. */
  lemma {:induction false} OnePassSendsTheBatch(s: Node, steps: seq<Step>, read: Event -> Event)
    requires LastPass(s) && (s.pending == [] ==> s.phase == Sending)
    ensures LastPass(Run(s, steps, read))
    decreases |steps|
  {
    if steps != [] {
      if s.pending == [] {
        IdleKeepsLastPass(s, steps[0], read);
      } else if steps[0].Crash? {
        RestartKeepsBatchIdle(s, read);
      } else {
        BatchEndsIff(s, steps[0], read);
      }
      PhaseNeedsBatch(s, steps[0], read);
      OnePassSendsTheBatch(Next(s, steps[0], read), steps[1..], read);
    }
  }

  lemma PhaseNeedsBatch(s: Node, step: Step, read: Event -> Event)
    requires s.pending == [] ==> s.phase == Sending
    ensures Next(s, step, read).pending == [] ==> Next(s, step, read).phase == Sending
  {
    match step
    case Configure(cfg, saved) =>
      EnqueueAllKeepsBatch(Replaced(s, cfg), PendingRecords(s.spool.lines, s.spool.checkpoint, read));
    case Refill => EnqueueAllKeepsBatch(s, PendingRecords(s.spool.lines, s.spool.checkpoint, read));
    case Crash => RestartKeepsBatchIdle(s, read);
    case Send(count, when) => PrioritizedKeepsIds(s.pending);
    case _ =>
  }

  // ----- the checkpoint a batch earns -----

  lemma SpoolOnlyGrows(s: Node, step: Step, read: Event -> Event)
    ensures s.spool.lines <= Next(s, step, read).spool.lines
  {
    match step
    case Configure(cfg, saved) =>
      EnqueueAllKeepsBatch(Replaced(s, cfg), PendingRecords(s.spool.lines, s.spool.checkpoint, read));
    case Refill => EnqueueAllKeepsBatch(s, PendingRecords(s.spool.lines, s.spool.checkpoint, read));
    case Crash => RestartForgets(s, read);
    case _ =>
  }

  /** The spool fixes the offset of an ID for good. */
  lemma OffsetsAreFixed(s: Node, t: Node, id: string)
    requires OffsetInv(s) && OffsetInv(t) && OneLineEach(t.spool.lines) && s.spool.lines <= t.spool.lines
    requires id in s.offsets && id in t.offsets
    ensures s.offsets[id] == t.offsets[id]
  {
    var l :| l in s.spool.lines && l.event.id == id && l.offset == s.offsets[id];
    var m :| m in t.spool.lines && m.event.id == id && m.offset == t.offsets[id];
    assert l in t.spool.lines;
    OneLinePerId(t.spool.lines, l, m);
  }

  lemma {:induction false} SameOffsetsSameMax(es: seq<Event>, a: map<string, nat>, b: map<string, nat>)
    requires forall e :: e in es ==> e.id in a && e.id in b && a[e.id] == b[e.id]
    ensures MaxOffset(es, a) == MaxOffset(es, b)
  {
    if es != [] { SameOffsetsSameMax(es[..|es| - 1], a, b); }
  }

  lemma BatchStepKeepsMax(s: Node, t: Node)
    requires BooksInv(s) && BooksInv(t) && s.spool.lines <= t.spool.lines && multiset(t.pending) == multiset(s.pending)
    ensures MaxOffset(t.pending, t.offsets) == MaxOffset(s.pending, s.offsets)
  {
    forall e | e in t.pending ensures e.id in s.offsets && e.id in t.offsets && s.offsets[e.id] == t.offsets[e.id] {
      assert e in multiset(t.pending);
      assert e in s.pending + s.queue.ch && e in t.pending + t.queue.ch;
      HeldOnSpool(s, e);
      HeldOnSpool(t, e);
      OffsetsAreFixed(s, t, e.id);
    }
    SameOffsetsSameMax(t.pending, s.offsets, t.offsets);
    RetriesKeepTheCheckpoint(t.pending, s.pending, s.offsets);
  }

  /** Steps during which the batch is neither dropped by a crash nor ended. */
  predicate Holds(s: Node, steps: seq<Step>, read: Event -> Event)
    decreases |steps|
  {
    steps != [] ==>
      && !steps[0].Crash? && !Ends(s, steps[0]) && Named(steps[0])
      && Holds(Next(s, steps[0], read), steps[1..], read)
  }

  lemma {:induction false} HeldBatchIsKept(s: Node, steps: seq<Step>, read: Event -> Event)
    requires BooksInv(s) && LastPass(s) && s.pending != [] && KeepsIds(read) && Holds(s, steps, read)
    ensures var t := Run(s, steps, read);
      && BooksInv(t) && multiset(t.pending) == multiset(s.pending)
      && MaxOffset(t.pending, t.offsets) == MaxOffset(s.pending, s.offsets)
    decreases |steps|
  {
    if steps != [] {
      var t := Next(s, steps[0], read);
      StepKeepsBooksIff(s, steps[0], read);
      BatchEndsIff(s, steps[0], read);
      SpoolOnlyGrows(s, steps[0], read);
      BatchStepKeepsMax(s, t);
      assert |multiset(t.pending)| == |multiset(s.pending)|;
      HeldBatchIsKept(t, steps[1..], read);
    }
  }

  /** However many passes fail, whatever is ingested, refilled and reconfigured meanwhile, the
      checkpoint written for a batch is the greatest spool offset among the events as popped. */
  lemma CheckpointIsTheBatchs(s: Node, steps: seq<Step>, read: Event -> Event)
    requires BooksInv(s) && LastPass(s) && s.pending != [] && KeepsIds(read) && Holds(s, steps, read)
    requires Run(s, steps, read).phase == Counted
    ensures var checkpoint := Marked(Run(s, steps, read), Written).spool.checkpoint;
      && (forall e :: e in s.pending ==> e.id in s.offsets && s.offsets[e.id] <= checkpoint)
      && (exists e :: e in s.pending && s.offsets[e.id] == checkpoint)
  {
    HeldBatchIsKept(s, steps, read);
    MaxOffsetIsGreatest(s.pending, s.offsets);
    forall e | e in s.pending ensures e.id in s.offsets {
      assert e in s.pending + s.queue.ch;
      HeldOnSpool(s, e);
    }
    assert s.pending[0] in s.pending;
  }

  // ----- refilling twice -----

  predicate Settled(s: Node, rs: seq<SpoolRecord>) {
    s.queue.Full() || forall r :: r in rs ==> r.event.id in s.inflight
  }

  lemma {:induction false} EnqueueAllSettles(s: Node, rs: seq<SpoolRecord>)
    ensures Settled(EnqueueAll(s, rs), rs)
    ensures s.inflight <= EnqueueAll(s, rs).inflight
    decreases |rs|
  {
    if rs != [] {
      var t := Enqueue(s, rs[0].event, rs[0].offset);
      EnqueueAllSettles(t, rs[1..]);
      if s.queue.Full() {
        SettledStays(s, rs);
      } else {
        assert rs == [rs[0]] + rs[1..];
      }
    }
  }

  lemma {:induction false} SettledStays(s: Node, rs: seq<SpoolRecord>)
    requires Settled(s, rs)
    ensures EnqueueAll(s, rs) == s
    decreases |rs|
  {
    if rs != [] { SettledStays(s, rs[1..]); }
  }

  /** A refill would find nothing to enqueue. */
  predicate CaughtUp(s: Node, read: Event -> Event) {
    Scannable(s.spool.lines) ==> Settled(s, PendingRecords(s.spool.lines, s.spool.checkpoint, read))
  }

  lemma RefillCatchesUp(s: Node, read: Event -> Event)
    ensures CaughtUp(Refilled(s, read), read)
  {
    var rs := PendingRecords(s.spool.lines, s.spool.checkpoint, read);
    EnqueueAllKeepsBatch(s, rs);
    EnqueueAllSettles(s, rs);
  }

  lemma CaughtUpStays(s: Node, read: Event -> Event)
    requires CaughtUp(s, read)
    ensures Refilled(s, read) == s
  {
    if Scannable(s.spool.lines) { SettledStays(s, PendingRecords(s.spool.lines, s.spool.checkpoint, read)); }
  }

  /** Steps that take nothing out of the channel, leave checkpoint and in-flight set alone, and offer to
      the channel whatever they accept. */
  predicate Quiet(s: Node, step: Step) {
    match step
    case Ingest(e, io) => e.id != "" && (Accepts(s, e, io) ==> s.cfg.Enabled())
    case Pop(_) => s.pending != []
    case Checkpoint(_) => s.phase != Counted
    case Forget => s.phase != Checkpointed
    case Crash => false
    case _ => true
  }

  lemma OfferedKeepsCaughtUp(s: Node, logged: Node, l: Line, read: Event -> Event)
    requires CaughtUp(s, read) && KeepsIds(read) && l.event.id != ""
    requires logged.spool == s.spool.(lines := s.spool.lines + [l])
    requires logged.queue == s.queue && logged.inflight == s.inflight
    ensures CaughtUp(Enqueue(logged, l.event, l.offset), read)
  {
    var lines := logged.spool.lines;
    if Scannable(lines) {
      assert forall i :: 0 <= i < |s.spool.lines| ==> lines[i] == s.spool.lines[i];
      assert lines[..|lines| - 1] == s.spool.lines;
      var older := PendingRecords(s.spool.lines, s.spool.checkpoint, read);
      forall r | r in PendingRecords(lines, s.spool.checkpoint, read) ensures r in older || r.event.id == l.event.id {}
    }
  }

  lemma IngestKeepsCaughtUp(s: Node, e: Event, io: Appends, read: Event -> Event)
    requires CaughtUp(s, read) && KeepsIds(read) && Quiet(s, Ingest(e, io))
    ensures CaughtUp(Ingested(s, e, io), read)
  {
    if Accepts(s, e, io) {
      OfferedKeepsCaughtUp(s, Logged(s, e, io), Line(FileSize(s.spool.lines), e, io.spoolSize), read);
    }
  }

  lemma QuietKeepsCaughtUp(s: Node, step: Step, read: Event -> Event)
    requires CaughtUp(s, read) && KeepsIds(read) && Quiet(s, step)
    ensures CaughtUp(Next(s, step, read), read)
  {
    hide Ingested, Refilled, PendingRecords, Prioritized;
    match step
    case Ingest(e, io) => IngestKeepsCaughtUp(s, e, io, read);
    case Configure(cfg, saved) => RefillCatchesUp(Replaced(s, cfg), read);
    case Refill => RefillCatchesUp(s, read);
    case _ =>
  }

  predicate QuietRun(s: Node, steps: seq<Step>, read: Event -> Event)
    decreases |steps|
  {
    steps != [] ==> Quiet(s, steps[0]) && QuietRun(Next(s, steps[0], read), steps[1..], read)
  }

  lemma {:induction false} QuietRunKeepsCaughtUp(s: Node, steps: seq<Step>, read: Event -> Event)
    requires CaughtUp(s, read) && KeepsIds(read) && QuietRun(s, steps, read)
    ensures CaughtUp(Run(s, steps, read), read)
    decreases |steps|
  {
    if steps != [] {
      QuietKeepsCaughtUp(s, steps[0], read);
      QuietRunKeepsCaughtUp(Next(s, steps[0], read), steps[1..], read);
    }
  }

  /** Refilling again, after any run that takes nothing out and offers what it accepts, enqueues nothing. */
  lemma RefillTwice(s: Node, steps: seq<Step>, read: Event -> Event)
    requires KeepsIds(read) && QuietRun(Refilled(s, read), steps, read)
    ensures var t := Run(Refilled(s, read), steps, read); Refilled(t, read) == t
  {
    RefillCatchesUp(s, read);
    QuietRunKeepsCaughtUp(Refilled(s, read), steps, read);
    CaughtUpStays(Run(Refilled(s, read), steps, read), read);
  }
}
