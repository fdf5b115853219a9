/** The order of the pipeline over every run. Only a push that overtakes an earlier record, and a restart
    that cannot scan the event log, break it: refused pushes, refills that overflow and saves that fail do
    not by themselves, because what they leave behind is read from the spool again. */
module Overtaking {
  import opened Event
  import opened Spool
  import opened EventLog
  import opened Queue
  import opened Batch
  import opened Delivery
  import opened Books
  import opened Watermark
  import opened Turns

  /** Accepting an event pushes it only when everything spooled earlier is on its way, and a restart can
      scan the event log. */
  ghost predicate OrderGuard(s: Node, step: Step) {
    KeepsBooks(s, step) && (step.Ingest? ==> !Overtakes(s, step.event, step.io))
  }

  /** A step keeps books and order exactly when it is guarded so. */
  lemma StepKeepsOrderIff(s: Node, step: Step, read: Event -> Event)
    requires Consistent(s) && Named(step) && KeepsIds(read)
    ensures Consistent(Next(s, step, read)) <==> OrderGuard(s, step)
  {
    hide Consistent, Overtakes, Ingested, Configured, Restarted;
    match step
    case Ingest(e, io) => IngestKeepsOrderIff(s, e, io);
    case Configure(cfg, saved) => ConfigureKeepsOrder(s, cfg, saved, read);
    case Crash => RestartKeepsOrderIff(s, read);
    case _ => OthersKeepOrder(s, step, read);
  }

  ghost predicate OrderGuarded(s: Node, steps: seq<Step>, read: Event -> Event)
    decreases |steps|
  {
    steps != [] ==> OrderGuard(s, steps[0]) && OrderGuarded(Next(s, steps[0], read), steps[1..], read)
  }

  ghost predicate ConsistentThroughout(s: Node, steps: seq<Step>, read: Event -> Event)
    decreases |steps|
  {
    Consistent(s) && (steps != [] ==> ConsistentThroughout(Next(s, steps[0], read), steps[1..], read))
  }

  /** A run is in order in every state exactly when every step of it is guarded. */
  lemma {:induction false} RunIsInOrderIff(s: Node, steps: seq<Step>, read: Event -> Event)
    requires Consistent(s) && KeepsIds(read) && forall step :: step in steps ==> Named(step)
    ensures ConsistentThroughout(s, steps, read) <==> OrderGuarded(s, steps, read)
    ensures OrderGuarded(s, steps, read) ==> Consistent(Run(s, steps, read))
    decreases |steps|
  {
    hide Consistent, OrderGuard, Next;
    if steps != [] {
      StepKeepsOrderIff(s, steps[0], read);
      if OrderGuard(s, steps[0]) {
        RunIsInOrderIff(Next(s, steps[0], read), steps[1..], read);
      }
    }
  }

  /** What strands nothing does not overtake. */
  lemma {:induction false} GuardedIsInOrder(s: Node, steps: seq<Step>, read: Event -> Event)
    requires Safe(s) && KeepsIds(read) && forall step :: step in steps ==> Named(step)
    requires Guarded(s, steps, read)
    ensures OrderGuarded(s, steps, read)
    decreases |steps|
  {
    hide Consistent, AllPlaced, Unplaced, Waiting, Next;
    if steps != [] {
      StepKeepsSafeIff(s, steps[0], read);
      GuardedIsInOrder(Next(s, steps[0], read), steps[1..], read);
    }
  }

  /** For every run of a new collector in which no push overtakes and every restart can scan the event log,
      whatever else happens: crashes with a backlog of any size, failed sends, failed writes of events,
      checkpoints and configurations, pushes refused and refills that overflow. Whatever the checkpoint has
      passed has been sent, and every unsent event after the first is read back exactly when the spool can
      be scanned. */
  lemma NothingIsPassed(queueSize: nat, cfg: Config, steps: seq<Step>, read: Event -> Event)
    requires KeepsIds(read) && (forall step :: step in steps ==> Named(step))
    requires OrderGuarded(Installed(queueSize, cfg), steps, read)
    ensures NonePassed(Run(Installed(queueSize, cfg), steps, read), read)
  {
    InstalledIsSafe(queueSize, cfg);
    RunIsInOrderIff(Installed(queueSize, cfg), steps, read);
    ConsistentPassesNone(Run(Installed(queueSize, cfg), steps, read), read);
  }

  // ----- what overtaking costs -----

  /** A record neither sent nor on its way when an event is accepted is older than that event. */
  lemma MissingIsOlder(s: Node, e: Event)
    returns (l: Line)
    requires BooksInv(s) && !AllPlaced(s) && e.id !in s.seen
    ensures l in s.spool.lines && 0 < l.offset < FileSize(s.spool.lines)
    ensures l.event.id !in Placed(s) && l.event.id != e.id
  {
    hide QueueInv, OffsetInv, WellFormed, OneLineEach, OneRecordEach, Placed;
    var id :| id in AllIds(s.spool.lines) && id !in Placed(s);
    l :| l in s.spool.lines && 0 < l.offset < FileSize(s.spool.lines) && l.event.id == id;
    assert id in SpoolIds(s.spool.lines);
  }

  // ----- what the worker does next -----

  predicate IsWorkers(step: Step) {
    step.Pop? || step.Send? || step.CountSuccess? || step.Checkpoint? || step.Forget? || step.Refill?
  }

  predicate OnlyWorker(steps: seq<Step>) {
    forall step :: step in steps ==> IsWorkers(step)
  }

  /** The checkpoint has passed that record although it was not sent. */
  predicate PassesUnsent(s: Node, l: Line) {
    Unsent(s, l) && 0 < l.offset <= s.spool.checkpoint
  }

  /** A pass that sends everything, and what follows it. */
  function Finish(n: nat): seq<Step> {
    [Send(n, ""), CountSuccess(""), Checkpoint(Written), Forget, Refill]
  }

  /** From any phase the worker can get through with its batch: what was on its way still is, in the same
      order, and a refill only adds to the end of the channel. */
  lemma Finishes(s: Node, read: Event -> Event)
    requires BooksInv(s) && KeepsIds(read)
    ensures var t := Run(s, Finish(|s.pending|), read);
      && BooksInv(t) && t.pending == [] && t.phase == Sending && t.spool.lines == s.spool.lines
      && Ids(t.wire) == Ids(s.wire) + Ids(s.pending) && s.queue.ch <= t.queue.ch
  {
    hide BooksInv, Run, Sent, SuccessCounted, Marked, Forgotten, Refilled;
    var sent := Sent(s, |s.pending|, "");
    var counted := SuccessCounted(sent, "");
    var marked := Marked(counted, Written);
    var done := Forgotten(marked);
    DeliveredTurn(s, |s.pending|, Written, "", read);
    SendKeepsBooks(s, |s.pending|, "");
    CountKeepsBooks(sent, "");
    MarkKeepsBooks(counted, Written);
    ForgetKeepsBooks(marked);
    RefillKeepsBooks(done, read);
    BatchIsThrough(s);
    RefillAddsToTheEnd(done, read);
  }

  lemma BatchIsThrough(s: Node)
    requires BooksInv(s)
    ensures var t := Forgotten(Marked(SuccessCounted(Sent(s, |s.pending|, ""), ""), Written));
      && t.pending == [] && t.phase == Sending && t.spool.lines == s.spool.lines && t.queue.ch == s.queue.ch
      && Ids(t.wire) == Ids(s.wire) + Ids(s.pending)
  {
    hide DiskInv, OffsetInv, Prioritized, MaxOffset, Ids;
    IdsOfNone();
    PrioritizedKeepsIds(s.pending);
    IdsOfConcat(s.wire, Prioritized(s.pending));
  }

  lemma RefillAddsToTheEnd(s: Node, read: Event -> Event)
    ensures var t := Refilled(s, read);
      t.pending == s.pending && t.phase == s.phase && t.wire == s.wire && t.spool == s.spool && s.queue.ch <= t.queue.ch
  {
    hide EnqueueAll, PendingRecords;
    EnqueueAllAddsToTheEnd(s, PendingRecords(s.spool.lines, s.spool.checkpoint, read));
  }

  lemma {:induction false} EnqueueAllAddsToTheEnd(s: Node, rs: seq<SpoolRecord>)
    ensures SameButQueue(s, EnqueueAll(s, rs)) && s.queue.ch <= EnqueueAll(s, rs).queue.ch
    decreases |rs|
  {
    if rs != [] { EnqueueAllAddsToTheEnd(Enqueue(s, rs[0].event, rs[0].offset), rs[1..]); }
  }

  /** The worker takes that many events, sends them and writes the checkpoint. */
  function TakeAndSend(n: nat): seq<Step> {
    [Pop(n), Send(n, ""), CountSuccess(""), Checkpoint(Written)]
  }

  function AfterTaken(s: Node, n: nat): Node {
    Marked(SuccessCounted(Sent(Popped(s, n), n, ""), ""), Written)
  }

  lemma RunsTaken(s: Node, n: nat, read: Event -> Event)
    ensures Run(s, TakeAndSend(n), read) == AfterTaken(s, n)
  {
    hide Popped, Sent, SuccessCounted, Marked;
    var s1 := Popped(s, n);
    var s2 := Sent(s1, n, "");
    var s3 := SuccessCounted(s2, "");
    var rest := [CountSuccess("")] + ([Checkpoint(Written)] + []);
    assert TakeAndSend(n) == [Pop(n)] + ([Send(n, "")] + rest);
    RunOne(s, Pop(n), [Send(n, "")] + rest, read);
    RunOne(s1, Send(n, ""), rest, read);
    RunOne(s2, CountSuccess(""), [Checkpoint(Written)] + [], read);
    RunOne(s3, Checkpoint(Written), [], read);
  }

  /** What it has sent then, and that the checkpoint has come to each of those events at least. */
  lemma TakenAreSent(s: Node, n: nat, e: Event)
    requires s.pending == [] && s.phase == Sending && n <= |s.queue.ch| && e in s.queue.ch[..n] && e.id in s.offsets
    ensures var t := AfterTaken(s, n);
      && t.spool.lines == s.spool.lines && Ids(t.wire) == Ids(s.wire) + Ids(s.queue.ch[..n])
      && t.spool.checkpoint >= s.offsets[e.id]
  {
    hide Prioritized, MaxOffset, Ids;
    var p := Popped(s, n);
    assert p.pending == s.queue.ch[..n];
    PrioritizedKeepsIds(p.pending);
    IdsOfConcat(s.wire, Prioritized(p.pending));
    MaxOffsetIsGreatest(Prioritized(p.pending), s.offsets);
  }

  /** The event just pushed is the last of the channel, and its line is in the spool. */
  lemma PushedLast(s: Node, e: Event, io: Appends)
    requires BooksInv(s) && Accepts(s, e, io) && s.cfg.Enabled() && !s.queue.Full()
    ensures var u := Ingested(s, e, io);
      && u.queue.ch == s.queue.ch + [e] && u.pending == s.pending && u.phase == s.phase && u.wire == s.wire
      && u.spool.lines == s.spool.lines + [Line(FileSize(s.spool.lines), e, io.spoolSize)]
      && Ids(u.queue.ch) == Ids(s.queue.ch) + {e.id}
  {
    hide BooksInv, Ids, AddsLine, FileSize;
    NewIsNotInFlight(s, Line(FileSize(s.spool.lines), e, io.spoolSize));
    IdsOfConcat(s.queue.ch, [e]);
    IdsOfOne(e);
  }

  /** While it is in the channel the table has its offset. */
  lemma OffsetOfHeld(s: Node, e: Event, l: Line)
    requires BooksInv(s) && e in s.queue.ch && l in s.spool.lines && l.event == e
    ensures e.id in s.offsets && s.offsets[e.id] == l.offset
  {
    hide QueueInv, OffsetInv, OnSpool;
    HeldOnSpool(s, e);
    OffsetIsTheLines(s.spool.lines, l, s.offsets[e.id]);
  }

  lemma {:induction false} RunBoth(s: Node, a: seq<Step>, b: seq<Step>, read: Event -> Event)
    ensures Run(s, a + b, read) == Run(Run(s, a, read), b, read)
    decreases |a|
  {
    hide Next;
    if a == [] {
      assert a + b == b;
    } else {
      RunBoth(Next(s, a[0], read), a[1..], b, read);
      assert (a + b)[1..] == a[1..] + b;
    }
  }

  lemma PassedIsNotPending(s: Node, l: Line, read: Event -> Event)
    requires l in s.spool.lines && l.offset <= s.spool.checkpoint
    ensures !Recovered(s, l, read)
  {
    PendingAreThePast(s.spool.lines, s.spool.checkpoint, read);
  }

  /** After a push that overtakes, the worker gets through with its batch, refills, takes the channel as the
      push left it and sends it: the checkpoint passes a record that was not sent, and the spool does not
      give it back any more. */
  lemma OvertakenIsPassed(s: Node, e: Event, io: Appends, read: Event -> Event) returns (rest: seq<Step>, l: Line)
    requires Consistent(s) && KeepsIds(read) && e.id != "" && Overtakes(s, e, io)
    ensures OnlyWorker(rest)
    ensures var t := Run(Ingested(s, e, io), rest, read); PassesUnsent(t, l) && !Recovered(t, l, read)
  {
    hide BooksInv, OrderInv, AllPlaced, Run, AfterTaken, Ingested, Recovered, Ids;
    var u, n := Ingested(s, e, io), |Ingested(s, e, io).queue.ch|;
    var last := Line(FileSize(s.spool.lines), e, io.spoolSize);
    l := MissingIsOlder(s, e);
    PushedLast(s, e, io);
    IngestKeepsBooks(s, e, io);
    Finishes(u, read);
    var v := Run(u, Finish(|u.pending|), read);
    assert u.queue.ch[n - 1] == e && v.queue.ch[..n] == u.queue.ch && v.queue.ch[n - 1] == e;
    assert last in v.spool.lines && l in v.spool.lines;
    OffsetOfHeld(v, e, last);
    RunsTaken(v, n, read);
    TakenAreSent(v, n, e);
    rest := Finish(|u.pending|) + TakeAndSend(n);
    RunBoth(u, Finish(|u.pending|), TakeAndSend(n), read);
    PassedIsNotPending(AfterTaken(v, n), l, read);
  }

  lemma {:induction false} WorkerKeepsOrder(s: Node, rest: seq<Step>, read: Event -> Event)
    requires Consistent(s) && KeepsIds(read) && OnlyWorker(rest)
    ensures Consistent(Run(s, rest, read))
    decreases |rest|
  {
    hide BooksInv, OrderInv, Next, AllPlaced;
    if rest != [] {
      assert rest[0] in rest;
      OthersKeepOrder(s, rest[0], read);
      WorkerKeepsOrder(Next(s, rest[0], read), rest[1..], read);
    }
  }

  /** From a state in order, an ingest can be followed by steps of the worker alone that bring the
      checkpoint past an unsent record exactly when it pushes past something that is not on its way. */
  lemma IngestPassesIff(s: Node, e: Event, io: Appends, read: Event -> Event)
    requires Consistent(s) && KeepsIds(read) && e.id != ""
    ensures (exists rest, l :: OnlyWorker(rest) && PassesUnsent(Run(Ingested(s, e, io), rest, read), l)) <==>
      Overtakes(s, e, io)
  {
    hide Consistent, Overtakes, Ingested, Run, OnlyWorker, PassesUnsent;
    if Overtakes(s, e, io) {
      var rest, l := OvertakenIsPassed(s, e, io, read);
    } else {
      IngestKeepsOrderIff(s, e, io);
      forall rest, l | OnlyWorker(rest) ensures !PassesUnsent(Run(Ingested(s, e, io), rest, read), l) {
        WorkerKeepsOrder(Ingested(s, e, io), rest, read);
        OrderPassesNone(Run(Ingested(s, e, io), rest, read), l);
      }
    }
  }

  lemma OrderPassesNone(s: Node, l: Line)
    requires Consistent(s)
    ensures !PassesUnsent(s, l)
  {
    hide BooksInv, BatchClosed, QueueClosed;
    if l in s.spool.lines { PassedIsSent(s, l); }
  }

  // ----- a restart with more to refill than the channel holds -----

  lemma {:induction false} EnqueueAllFits(s: Node, rs: seq<SpoolRecord>)
    requires |s.queue.ch| <= s.queue.capacity
    ensures |EnqueueAll(s, rs).queue.ch| <= s.queue.capacity == EnqueueAll(s, rs).queue.capacity
    decreases |rs|
  {
    if rs != [] { EnqueueAllFits(Enqueue(s, rs[0].event, rs[0].offset), rs[1..]); }
  }

  lemma RestartFits(s: Node, read: Event -> Event)
    requires s.queue.capacity >= FLOOR
    ensures var t := Restarted(s, read);
      && t.pending == [] && t.phase == Sending && t.cfg == s.savedCfg
      && |t.queue.ch| <= t.queue.capacity == s.queue.capacity
  {
    hide EnqueueAll, PendingRecords, ReadIds;
    RestartForgets(s, read);
    EnqueueAllFits(Blank(s, read), PendingRecords(s.spool.lines, s.spool.checkpoint, read));
  }

  lemma PopLeavesRoom(s: Node, max: int)
    requires QueueClosed(s) && s.pending == [] && |s.queue.ch| <= s.queue.capacity && s.queue.capacity > 0
    ensures var t := Popped(s, max);
      !t.queue.Full() && t.cfg == s.cfg && t.seen == s.seen && AllPlaced(t) == AllPlaced(s)
  {
    hide QueueClosed, Placed, Before;
    PopClosesBatch(s, BatchSize(s.queue, max), Popped(s, max));
  }

  /** When the refill of a restart leaves something out (`CrashGuardIff` says when), any event accepted once
      the worker has taken its first batch overtakes what was left out. */
  lemma BacklogIsOvertaken(s: Node, max: int, e: Event, io: Appends, read: Event -> Event)
    requires Consistent(s) && KeepsIds(read) && StoreScannable(s.store) && s.savedCfg.Enabled()
    requires !(Unplaced(Blank(s, read), read) <= Ids(s.wire)) && Accepts(Restarted(s, read), e, io)
    ensures Overtakes(Popped(Restarted(s, read), max), e, io) && Consistent(Popped(Restarted(s, read), max))
  {
    hide DiskInv, OffsetInv, WatermarkInv, BatchClosed, QueueClosed, AllPlaced, Restarted, Popped, Unplaced, Blank;
    var t := Restarted(s, read);
    RestartKeepsOrderIff(s, read);
    RestartFits(s, read);
    PopLeavesRoom(t, max);
    PopKeepsOrder(t, max);
  }
}
