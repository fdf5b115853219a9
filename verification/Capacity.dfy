/** Conditions under which nothing is lost that a caller can see beforehand: the events not yet behind
    the checkpoint fit into the channel, lines can be scanned, and no save fails of a configuration
    that enables forwarding. */
module Capacity {
  import opened Event
  import opened Spool
  import opened EventLog
  import opened Queue
  import opened Batch
  import opened Delivery
  import opened Books
  import opened Watermark
  import opened Losses

  /** What is asked of a single input; crashes, failed sends and failed writes of events or checkpoints
      are all allowed. */
  predicate Modest(step: Step) {
    match step
    case Ingest(e, io) => e.id != "" && io.storeSize < SCAN_LIMIT && io.spoolSize < SCAN_LIMIT
    case Configure(cfg, saved) => saved.Saved? || !cfg.Enabled()
    case _ => true
  }

  predicate Short(s: Node) {
    Scannable(s.spool.lines) && StoreScannable(s.store)
  }

  /** The events in flight and those past the checkpoint. */
  function Backlog(s: Node, read: Event -> Event): set<string> {
    s.inflight + RecordIds(Recoverable(s, read))
  }

  /** The channel could hold the backlog and `more` events. */
  predicate Fits(s: Node, more: nat, read: Event -> Event) {
    |Backlog(s, read)| + more <= s.queue.capacity
  }

  lemma SubsetIsSmaller(a: set<string>, b: set<string>)
    requires a <= b
    ensures |a| <= |b|
  {
    assert b == a + (b - a);
  }

  lemma UnionCount(a: set<string>, b: set<string>)
    ensures |a + b| == |a| + |b - a|
  {
    assert a + b == a + (b - a);
  }

  lemma RefillIsComplete(s: Node, read: Event -> Event)
    requires BooksInv(s) && KeepsIds(read) && Scannable(s.spool.lines) && Fits(s, 0, read)
    ensures Unplaced(s, read) == {}
  {
    UnionCount(s.inflight, RecordIds(Recoverable(s, read)));
    RefillIsCompleteIff(s, read);
    if s.queue.Full() { assert |Waiting(s, read)| == 0; }
  }

  lemma BlankFits(s: Node, read: Event -> Event)
    requires BooksInv(s) && Fits(s, 0, read)
    ensures Fits(Blank(s, read), 0, read)
  {
    assert Recoverable(Blank(s, read), read) == Recoverable(s, read);
    SubsetIsSmaller(Backlog(Blank(s, read), read), Backlog(s, read));
  }

  lemma SpoolOfBlank(s: Node, read: Event -> Event)
    ensures Blank(s, read).spool == s.spool
  {
  }

  lemma IngestHasRoom(s: Node, e: Event, io: Appends, read: Event -> Event)
    requires BooksInv(s) && Fits(s, 1, read)
    ensures Guard(s, Ingest(e, io), read)
  {
    hide DiskInv, OffsetInv, Ids, PendingRecords;
    SubsetIsSmaller(s.inflight, Backlog(s, read));
  }

  predicate RoomFor(s: Node, step: Step, read: Event -> Event) {
    Fits(s, if step.Ingest? then 1 else 0, read)
  }

  /** While the backlog fits, a modest input strands nothing. */
  lemma ModestIsGuarded(s: Node, step: Step, read: Event -> Event)
    requires BooksInv(s) && Short(s) && KeepsIds(read) && Modest(step) && RoomFor(s, step, read)
    ensures Guard(s, step, read)
  {
    hide BooksInv, Unplaced, Backlog, Scannable, StoreScannable, Blank;
    match step
    case Ingest(e, io) => IngestHasRoom(s, e, io, read);
    case Configure(cfg, saved) => RefillIsComplete(s, read);
    case Crash =>
      assert Blank(s, read).spool == s.spool by { SpoolOfBlank(s, read); }
      BlankKeepsBooks(s, read);
      BlankFits(s, read);
      RefillIsComplete(Blank(s, read), read);
    case _ =>
  }

  /** Steps other than an ingest leave both files and the channel's capacity alone. */
  lemma OthersKeepFiles(s: Node, step: Step, read: Event -> Event)
    requires s.queue.capacity >= FLOOR && !step.Ingest?
    ensures var t := Next(s, step, read);
      t.spool.lines == s.spool.lines && t.store == s.store && t.queue.capacity == s.queue.capacity
  {
    match step
    case Configure(cfg, saved) =>
      EnqueueAllKeepsDisk(Replaced(s, cfg), PendingRecords(s.spool.lines, s.spool.checkpoint, read));
    case Refill => EnqueueAllKeepsDisk(s, PendingRecords(s.spool.lines, s.spool.checkpoint, read));
    case Crash => RestartForgets(s, read);
    case _ =>
  }

  lemma ModestKeepsShort(s: Node, step: Step, read: Event -> Event)
    requires Short(s) && s.queue.capacity >= FLOOR && Modest(step)
    ensures Short(Next(s, step, read))
  {
    if step.Ingest? {
      IngestKeepsShort(s, step.event, step.io);
    } else {
      OthersKeepFiles(s, step, read);
    }
  }

  lemma IngestKeepsShort(s: Node, e: Event, io: Appends)
    requires Short(s) && io.storeSize < SCAN_LIMIT && io.spoolSize < SCAN_LIMIT
    ensures Short(Ingested(s, e, io)) && |Ingested(s, e, io).spool.lines| <= |s.spool.lines| + 1
    ensures Ingested(s, e, io).queue.capacity == s.queue.capacity
  {
  }

  /** The backlog fits, and every input is modest, at each step of a run. */
  predicate FitsThroughout(s: Node, steps: seq<Step>, read: Event -> Event)
    decreases |steps|
  {
    steps != [] ==>
      && Modest(steps[0]) && RoomFor(s, steps[0], read)
      && FitsThroughout(Next(s, steps[0], read), steps[1..], read)
  }

  lemma {:induction false} FittingRunIsGuarded(s: Node, steps: seq<Step>, read: Event -> Event)
    requires Safe(s) && Short(s) && KeepsIds(read) && FitsThroughout(s, steps, read)
    ensures Guarded(s, steps, read)
    ensures Safe(Run(s, steps, read)) && Short(Run(s, steps, read))
    decreases |steps|
  {
    if steps != [] {
      ModestIsGuarded(s, steps[0], read);
      StepKeepsSafeIff(s, steps[0], read);
      ModestKeepsShort(s, steps[0], read);
      FittingRunIsGuarded(Next(s, steps[0], read), steps[1..], read);
    }
  }

  /** However long a run of a new collector is, whatever crashes and whatever sends fail: as long as the
      backlog fits the channel at each step, the checkpoint passes nothing unsent and everything spooled
      after the first record has been sent or comes back from the spool. */
  lemma FittingRunLosesNothing(queueSize: nat, cfg: Config, steps: seq<Step>, read: Event -> Event)
    requires KeepsIds(read) && FitsThroughout(Installed(queueSize, cfg), steps, read)
    ensures var t := Run(Installed(queueSize, cfg), steps, read);
      && (forall l :: l in t.spool.lines && 0 < l.offset <= t.spool.checkpoint ==> l.event.id in Ids(t.wire))
      && (forall l :: Unsent(t, l) && l.offset > 0 ==> Recovered(t, l, read))
  {
    InstalledIsSafe(queueSize, cfg);
    FittingRunIsGuarded(Installed(queueSize, cfg), steps, read);
    ConsistentPassesNone(Run(Installed(queueSize, cfg), steps, read), read);
  }

  // ----- a condition on the inputs alone -----

  function Ingests(steps: seq<Step>): nat {
    if steps == [] then 0 else (if steps[0].Ingest? then 1 else 0) + Ingests(steps[1..])
  }

  lemma {:induction false} SpoolIdsAtMost(lines: seq<Line>)
    ensures |SpoolIds(lines)| <= |lines|
  {
    if lines != [] {
      var front, last := lines[..|lines| - 1], lines[|lines| - 1];
      assert lines == front + [last];
      SpoolIdsAtMost(front);
      assert SpoolIds(lines) == SpoolIds(front) + {last.event.id};
    }
  }

  lemma InflightIsSpooled(s: Node, id: string)
    requires OffsetInv(s) && id in s.inflight
    ensures id in SpoolIds(s.spool.lines)
  {
    assert OnSpool(s.spool.lines, id, s.offsets[id]);
  }

  lemma BacklogIsSpooled(s: Node, read: Event -> Event)
    requires BooksInv(s) && KeepsIds(read)
    ensures |Backlog(s, read)| <= |s.spool.lines|
  {
    PendingAreDistinct(s.spool.lines, s.spool.checkpoint, read);
    forall id | id in s.inflight ensures id in SpoolIds(s.spool.lines) { InflightIsSpooled(s, id); }
    SubsetIsSmaller(Backlog(s, read), SpoolIds(s.spool.lines));
    SpoolIdsAtMost(s.spool.lines);
  }

  lemma {:induction false} ModestRunFits(s: Node, steps: seq<Step>, read: Event -> Event)
    requires Safe(s) && Short(s) && KeepsIds(read) && (forall step :: step in steps ==> Modest(step))
    requires |s.spool.lines| + Ingests(steps) <= s.queue.capacity
    ensures FitsThroughout(s, steps, read)
    decreases |steps|
  {
    if steps != [] {
      BacklogIsSpooled(s, read);
      ModestIsGuarded(s, steps[0], read);
      StepKeepsSafeIff(s, steps[0], read);
      ModestKeepsShort(s, steps[0], read);
      if steps[0].Ingest? {
        IngestKeepsShort(s, steps[0].event, steps[0].io);
      } else {
        OthersKeepFiles(s, steps[0], read);
      }
      ModestRunFits(Next(s, steps[0], read), steps[1..], read);
    }
  }

  /** A run of a new collector that takes in no more events than its channel holds loses nothing. */
  lemma ModestRunLosesNothing(queueSize: nat, cfg: Config, steps: seq<Step>, read: Event -> Event)
    requires KeepsIds(read) && (forall step :: step in steps ==> Modest(step))
    requires Ingests(steps) <= NewChannel(queueSize).capacity
    ensures var t := Run(Installed(queueSize, cfg), steps, read);
      && (forall l :: l in t.spool.lines && 0 < l.offset <= t.spool.checkpoint ==> l.event.id in Ids(t.wire))
      && (forall l :: Unsent(t, l) && l.offset > 0 ==> Recovered(t, l, read))
  {
    InstalledIsSafe(queueSize, cfg);
    ModestRunFits(Installed(queueSize, cfg), steps, read);
    FittingRunLosesNothing(queueSize, cfg, steps, read);
  }
}
