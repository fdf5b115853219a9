/** The worker gets there: with forwarding on and a receiver that accepts, its turns send everything,
    however much a restart finds in the spool. */
module Liveness {
  import opened Event
  import opened Wrappers
  import opened Spool
  import opened Batch
  import opened EventLog
  import opened Delivery
  import opened Books
  import opened Watermark
  import opened Attempts
  import opened Turns

  /** The spooled IDs of a set, read as a binary number with the oldest record as its first digit. */
  function Weight(lines: seq<Line>, ids: set<string>): nat {
    if lines == [] then 0 else
    2 * Weight(lines[..|lines| - 1], ids) + if lines[|lines| - 1].event.id in ids then 1 else 0
  }

  lemma {:induction false} WeightGrows(lines: seq<Line>, a: set<string>, b: set<string>)
    requires forall i :: 0 <= i < |lines| && lines[i].event.id in a ==> lines[i].event.id in b
    ensures Weight(lines, a) <= Weight(lines, b)
  {
    if lines != [] { WeightGrows(lines[..|lines| - 1], a, b); }
  }

  /** Dropping a record outweighs gaining any number of younger ones. */
  lemma {:induction false} WeightDrops(lines: seq<Line>, a: set<string>, b: set<string>, m: nat)
    requires m < |lines| && lines[m].event.id in b && lines[m].event.id !in a
    requires forall i :: 0 <= i < m && lines[i].event.id in a ==> lines[i].event.id in b
    ensures Weight(lines, a) < Weight(lines, b)
  {
    var front := lines[..|lines| - 1];
    if m == |front| {
      WeightGrows(front, a, b);
    } else {
      WeightDrops(front, a, b, m);
    }
  }

  lemma {:induction false} EnqueuedOnly(s: Node, rs: seq<SpoolRecord>)
    ensures EnqueueAll(s, rs).inflight <= s.inflight + RecordIds(rs)
    decreases |rs|
  {
    if rs != [] {
      EnqueuedOnly(Enqueue(s, rs[0].event, rs[0].offset), rs[1..]);
      FirstRecordId(rs);
    }
  }

  lemma PassedIsNotRecoverable(s: Node, l: Line, read: Event -> Event)
    requires DiskInv(s) && KeepsIds(read) && l in s.spool.lines && l.offset <= s.spool.checkpoint
    ensures l.event.id !in RecordIds(Recoverable(s, read))
  {
    PendingOnSpool(s.spool.lines, s.spool.checkpoint, read);
    PendingAreThePast(s.spool.lines, s.spool.checkpoint, read);
    forall r | r in Recoverable(s, read) ensures r.event.id != l.event.id {
      if r.event.id == l.event.id { OffsetIsTheLines(s.spool.lines, l, r.offset); }
    }
  }

  /** After a refill, a record at or before the checkpoint is in flight only if it was before. */
  lemma RefillIsYounger(s: Node, m: nat, read: Event -> Event)
    requires DiskInv(s) && KeepsIds(read) && m < |s.spool.lines| && s.spool.lines[m].offset == s.spool.checkpoint
    ensures var t := Refilled(s, read);
      forall i :: 0 <= i <= m && s.spool.lines[i].event.id in t.inflight ==> s.spool.lines[i].event.id in s.inflight
  {
    var lines, t := s.spool.lines, Refilled(s, read);
    assert t.inflight <= s.inflight + RecordIds(Recoverable(s, read)) by { EnqueuedOnly(s, Recoverable(s, read)); }
    forall i | 0 <= i <= m ensures lines[i].event.id in t.inflight ==> lines[i].event.id in s.inflight {
      assert lines[i].offset <= lines[m].offset by { OffsetsIncrease(lines); }
      PassedIsNotRecoverable(s, lines[i], read);
    }
  }

  /** A batch that was delivered and counted: its newest record leaves the in-flight set, and the refill
      brings in younger ones only. */
  lemma CheckpointProgress(s: Node, read: Event -> Event)
    requires BooksInv(s) && KeepsIds(read) && s.phase == Counted
    ensures var t := Refilled(Forgotten(Marked(s, Written)), read);
      Weight(s.spool.lines, t.inflight) < Weight(s.spool.lines, s.inflight)
  {
    hide BooksInv, Weight, Refilled;
    var lines, t := s.spool.lines, Forgotten(Marked(s, Written));
    var m := NewestOfBatch(s);
    MarkKeepsBooks(s, Written);
    ForgetKeepsBooks(Marked(s, Written));
    DiskOfBooks(t);
    RefillIsYounger(t, m, read);
    WeightDrops(lines, Refilled(t, read).inflight, s.inflight, m);
  }

  lemma DiskOfBooks(s: Node)
    requires BooksInv(s)
    ensures DiskInv(s)
  {
  }

  /** The record of the batch that earns the checkpoint. */
  lemma NewestOfBatch(s: Node) returns (m: nat)
    requires BooksInv(s) && s.phase == Counted
    ensures m < |s.spool.lines| && s.spool.lines[m].event.id in Ids(s.pending) * s.inflight
    ensures Marked(s, Written).spool == Files(s.spool.lines, s.spool.lines[m].offset)
  {
    hide DiskInv, OffsetInv, MaxOffset;
    var lines := s.spool.lines;
    MaxOffsetIsGreatest(s.pending, s.offsets);
    HeldOnSpool(s, s.pending[0]);
    var e :| e in s.pending && e.id in s.offsets && MaxOffset(s.pending, s.offsets) == Some(s.offsets[e.id]);
    HeldOnSpool(s, e);
    m :| 0 <= m < |lines| && lines[m].event.id == e.id && lines[m].offset == s.offsets[e.id];
    assert e.id in Ids(s.pending);
  }

  predicate Idle(s: Node) {
    s.pending == [] && s.queue.ch == []
  }

  /** The whole batch of the turn is accepted, and the checkpoint written. */
  predicate Succeeds(s: Node, p: Pass) {
    p.count >= |Popped(s, p.max).pending| && p.write.Written?
  }

  lemma PassKeepsRest(s: Node, count: nat, when: string)
    requires BooksInv(s) && s.phase == Sending && s.pending != [] && count >= |s.pending|
    ensures var t := SuccessCounted(Sent(s, count, when), when);
      t.phase == Counted && t.inflight == s.inflight && t.spool == s.spool && t.cfg == s.cfg
  {
    PrioritizedKeepsIds(s.pending);
  }

  /** Between two turns: forwarding is on, the order holds, and whatever is not on its way yet can be read
      from the spool once the worker is done with what it has. */
  ghost predicate Draining(s: Node) {
    && Consistent(s) && s.phase == Sending && s.cfg.Enabled()
    && (AllPlaced(s) || (Scannable(s.spool.lines) && !Idle(s)))
  }

  lemma KeepsTwice(s: Node, t: Node, u: Node)
    requires Keeps(s, t) && Keeps(t, u)
    ensures Keeps(s, u)
  {
  }

  lemma PassKeeps(s: Node, count: nat, when: string, read: Event -> Event)
    requires Consistent(s) && KeepsIds(read)
    ensures var t := SuccessCounted(Sent(s, count, when), when);
      BooksInv(t) && Keeps(s, Forgotten(Marked(t, Written)))
  {
    hide BooksInv, OrderInv, AllPlaced, Sent, SuccessCounted, Marked, Forgotten, Refilled;
    var t1 := Sent(s, count, when);
    var t2 := SuccessCounted(t1, when);
    var t3 := Marked(t2, Written);
    PassKeepsOrder(s, count, when);
    CountKeepsOrder(t1, when);
    MarkKeepsOrder(t2, Written);
    ForgetKeepsOrder(t3);
  }

  /** A refill that leaves the queue empty has found nothing past the checkpoint: everything is sent. */
  lemma IdleRefillFoundNothing(s: Node, read: Event -> Event)
    requires Consistent(s) && KeepsIds(read) && Scannable(s.spool.lines) && Idle(Refilled(s, read))
    ensures AllPlaced(Refilled(s, read))
  {
    var rs, t := Recoverable(s, read), Refilled(s, read);
    RefillPlacesIff(s, read);
    EnqueueAllSettles(s, rs);
    NothingSettledIdle(t, rs);
    SentOrRecoverable(s, read);
  }

  lemma NothingSettledIdle(s: Node, rs: seq<SpoolRecord>)
    requires QueueInv(s) && Idle(s) && Settled(s, rs)
    ensures RecordIds(rs) == {}
  {
    assert s.inflight == {};
    assert RecordIds(rs) <= s.inflight;
  }

  /** After a refill the worker's turns are under way, whatever the refill left out. */
  lemma RefillDrains(s: Node, read: Event -> Event)
    requires Consistent(s) && KeepsIds(read) && s.phase == Sending && s.cfg.Enabled()
    requires AllPlaced(s) || Scannable(s.spool.lines)
    ensures Draining(Refilled(s, read))
  {
    hide BooksInv, OrderInv, AllPlaced, Refilled;
    RefillPlacesIff(s, read);
    if Scannable(s.spool.lines) && Idle(Refilled(s, read)) { IdleRefillFoundNothing(s, read); }
  }

  /** So they are after a restart, however many records lie past the checkpoint. */
  lemma RestartDrains(s: Node, read: Event -> Event)
    requires Consistent(s) && KeepsIds(read) && s.savedCfg.Enabled()
    requires StoreScannable(s.store) && Scannable(s.spool.lines)
    ensures Draining(Restarted(s, read)) && Restarted(s, read).spool == s.spool && Restarted(s, read).wire == s.wire
  {
    hide BooksInv, OrderInv, AllPlaced, Refilled, Draining;
    BlankKeepsBooks(s, read);
    BlankKeepsOrder(s, read);
    RefillDrains(Blank(s, read), read);
    RestartForgets(s, read);
  }

  /** And after forwarding is resumed between two turns, once the new setting is saved. */
  lemma ResumeDrains(s: Node, cfg: Config, read: Event -> Event)
    requires Consistent(s) && KeepsIds(read) && s.phase == Sending && cfg.Enabled() && Scannable(s.spool.lines)
    ensures Draining(Configured(s, cfg, Saved, read))
  {
    hide BooksInv, OrderInv, AllPlaced, Refilled, Draining;
    ReplacedKeepsBooks(s, cfg);
    FlowDecidesOrder(s, Replaced(s, cfg));
    RefillDrains(Replaced(s, cfg), read);
  }

  lemma FinishKeeps(s: Node, read: Event -> Event)
    requires s.phase == Counted
    ensures var t := Forgotten(Marked(s, Written));
      t.phase == Sending && t.cfg == s.cfg && t.spool.lines == s.spool.lines
    ensures Refilled(Forgotten(Marked(s, Written)), read).spool.lines == s.spool.lines
  {
    var t := Forgotten(Marked(s, Written));
    EnqueueAllKeepsDisk(t, PendingRecords(t.spool.lines, t.spool.checkpoint, read));
  }

  lemma PopHoldsUnlessIdle(s: Node, max: int)
    ensures Popped(s, max).pending == [] <==> Idle(s)
    ensures var t := Popped(s, max);
      t.phase == s.phase && t.inflight == s.inflight && t.spool == s.spool && t.cfg == s.cfg
  {
  }

  /** Every successful turn makes the in-flight records weigh less, until none is left. */
  lemma TurnProgress(s: Node, p: Pass, read: Event -> Event)
    requires Draining(s) && KeepsIds(read) && Succeeds(s, p)
    ensures var t := AfterTurn(s, p, read);
      && Draining(t) && t.spool.lines == s.spool.lines
      && (if Idle(s) then Idle(t) else Weight(t.spool.lines, t.inflight) < Weight(s.spool.lines, s.inflight))
  {
    hide BooksInv, OrderInv, AllPlaced, Run, Turn, Popped, Sent, SuccessCounted, Marked, Forgotten, Refilled, Weight;
    var b := Popped(s, p.max);
    var counted := SuccessCounted(Sent(b, p.count, p.when), p.when);
    TurnIs(s, p.max, p.count, p.write, p.when, read);
    PopKeepsOrder(s, p.max);
    PopHoldsUnlessIdle(s, p.max);
    if Idle(s) {
      PopOfIdle(s, p.max);
    } else {
      var done := Forgotten(Marked(counted, Written));
      PassKeeps(b, p.count, p.when, read);
      KeepsTwice(s, b, done);
      PassKeepsRest(b, p.count, p.when);
      CheckpointProgress(counted, read);
      FinishKeeps(counted, read);
      RefillDrains(done, read);
    }
  }

  lemma PopOfIdle(s: Node, max: int)
    requires Idle(s)
    ensures Idle(Popped(s, max))
  {
  }

  lemma SucceedsUnlessFails(s: Node, p: Pass)
    requires s.cfg.Enabled() && p.write.Written?
    ensures Succeeds(s, p) <==> !Fails(s, p)
  {
  }

  /** A failed turn leaves the in-flight records as they are. */
  lemma FailedTurnKeeps(s: Node, p: Pass, read: Event -> Event)
    requires Draining(s) && Fails(s, p)
    ensures var t := AfterTurn(s, p, read);
      Draining(t) && t.spool.lines == s.spool.lines && t.inflight == s.inflight
  {
    hide BooksInv, OrderInv, AllPlaced, Run, Turn, Popped, Refilled, Prioritized;
    var b := Popped(s, p.max);
    TurnIs(s, p.max, p.count, p.write, p.when, read);
    PopKeepsOrder(s, p.max);
    PopHoldsUnlessIdle(s, p.max);
    PassKeepsOrder(b, p.count, p.when);
    KeepsTwice(s, b, Sent(b, p.count, p.when));
    PrioritizedKeepsIds(b.pending);
  }

  /** How many of the turns do not fail. */
  function Successes(s: Node, ps: seq<Pass>, read: Event -> Event): nat
    decreases |ps|
  {
    if ps == [] then 0 else (if Fails(s, ps[0]) then 0 else 1) + Successes(AfterTurn(s, ps[0], read), ps[1..], read)
  }

  lemma WeightOfNone(s: Node)
    requires QueueInv(s) && Weight(s.spool.lines, s.inflight) == 0 && OffsetInv(s)
    ensures Idle(s)
  {
    hide OffsetInv, OnSpool;
    if s.pending + s.queue.ch != [] {
      var e := (s.pending + s.queue.ch)[0];
      HeldOnSpool(s, e);
      assert e.id in Ids(s.pending) + Ids(s.queue.ch);
      var l :| l in s.spool.lines && l.event.id == e.id;
      var m :| 0 <= m < |s.spool.lines| && s.spool.lines[m] == l;
      WeightDrops(s.spool.lines, {}, s.inflight, m);
    }
  }

  /** While the pipeline drains and checkpoints are written, the turns send everything spooled after the
      first record, however the batches fall, however much the refills have to bring back and however many
      passes fail in between: as many successes suffice as the records in flight weigh. */
  lemma {:induction false} TurnsDeliverEverything(s: Node, ps: seq<Pass>, read: Event -> Event)
    requires Draining(s) && KeepsIds(read) && (forall p :: p in ps ==> p.write.Written?)
    requires Successes(s, ps, read) >= Weight(s.spool.lines, s.inflight)
    ensures var t := AfterTurns(s, ps, read);
      && Draining(t) && Idle(t) && t.spool.lines == s.spool.lines
      && forall l :: l in t.spool.lines && l.offset > 0 ==> l.event.id in Ids(t.wire)
    decreases |ps|
  {
    hide Consistent, AllPlaced, Weight, AfterTurn, Fails, Succeeds;
    if ps == [] {
      DrainedWeighsNothing(s);
      IdleHasSentAll(s);
    } else {
      var t := AfterTurn(s, ps[0], read);
      if Fails(s, ps[0]) {
        FailedTurnKeeps(s, ps[0], read);
      } else {
        SucceedsUnlessFails(s, ps[0]);
        TurnProgress(s, ps[0], read);
        if Idle(s) { DrainedWeighsNothing(t); }
      }
      TurnsDeliverEverything(t, ps[1..], read);
    }
  }

  lemma DrainedWeighsNothing(s: Node)
    requires Consistent(s)
    ensures Idle(s) <==> Weight(s.spool.lines, s.inflight) == 0
  {
    if Idle(s) {
      assert s.inflight == {};
      WeightOfEmpty(s.spool.lines);
    } else if Weight(s.spool.lines, s.inflight) == 0 {
      WeightOfNone(s);
    }
  }

  lemma {:induction false} WeightOfEmpty(lines: seq<Line>)
    ensures Weight(lines, {}) == 0
  {
    if lines != [] { WeightOfEmpty(lines[..|lines| - 1]); }
  }

  lemma IdleHasSentAll(s: Node)
    requires Draining(s) && Idle(s)
    ensures forall l :: l in s.spool.lines && l.offset > 0 ==> l.event.id in Ids(s.wire)
  {
    OffsetsIncrease(s.spool.lines);
    forall l | l in s.spool.lines && l.offset > 0 ensures l.event.id in Ids(s.wire) {
      assert l.event.id in AllIds(s.spool.lines);
    }
  }

  /** There are such turns for every batch size: the receiver only has to accept each batch. */
  lemma {:induction false} WorkerDeliversEverything(s: Node, max: int, read: Event -> Event) returns (ps: seq<Pass>)
    requires Draining(s) && KeepsIds(read)
    ensures (forall p :: p in ps ==> p.max == max && p.write.Written?) && Successes(s, ps, read) == |ps|
    ensures var t := AfterTurns(s, ps, read);
      Idle(t) && forall l :: l in t.spool.lines && l.offset > 0 ==> l.event.id in Ids(t.wire)
    decreases Weight(s.spool.lines, s.inflight)
  {
    hide Consistent, AllPlaced, Weight, AfterTurn, Popped;
    if Idle(s) {
      ps := [];
      IdleHasSentAll(s);
    } else {
      var p := FullPass(s, max);
      TurnProgress(s, p, read);
      var rest := WorkerDeliversEverything(AfterTurn(s, p, read), max, read);
      ps := [p] + rest;
      assert ps[1..] == rest;
    }
  }

  lemma FullPass(s: Node, max: int) returns (p: Pass)
    ensures p.max == max && p.write.Written? && Succeeds(s, p) && !Fails(s, p)
  {
    p := Pass(max, |Popped(s, max).pending|, Written, "");
  }

  /** After a crash in any state whose order holds, with a backlog of any size: if event log and spool can be
      scanned and forwarding comes up enabled, turns with enough successes send everything spooled after the
      first record. */
  lemma RestartDeliversEverything(s: Node, ps: seq<Pass>, read: Event -> Event)
    requires Consistent(s) && KeepsIds(read) && s.savedCfg.Enabled()
    requires StoreScannable(s.store) && Scannable(s.spool.lines) && forall p :: p in ps ==> p.write.Written?
    requires Successes(Restarted(s, read), ps, read) >= Weight(s.spool.lines, Restarted(s, read).inflight)
    ensures var t := AfterTurns(Restarted(s, read), ps, read);
      && Idle(t) && t.spool.lines == s.spool.lines
      && forall l :: l in s.spool.lines && l.offset > 0 ==> l.event.id in Ids(t.wire)
  {
    hide Draining, Consistent, Restarted, Weight, Successes, AfterTurns;
    RestartDrains(s, read);
    TurnsDeliverEverything(Restarted(s, read), ps, read);
  }
}
