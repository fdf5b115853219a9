/** The bookkeeping every step of the pipeline keeps: unique IDs on disk, and an in-flight set, an
    offset table and counters that agree with the batch and the channel. */
module Books {
  import opened Event
  import opened Spool
  import opened Queue
  import opened Batch
  import opened EventLog
  import opened Delivery

  function SpoolIds(lines: seq<Line>): set<string> {
    set l | l in lines :: l.event.id
  }

  /** The spool holds that ID at that offset. */
  predicate OnSpool(lines: seq<Line>, id: string, offset: nat) {
    exists l | l in lines :: l.event.id == id && l.offset == offset
  }

  ghost predicate OneLineEach(lines: seq<Line>) {
    forall i, j :: 0 <= i < j < |lines| ==> lines[i].event.id != lines[j].event.id
  }

  ghost predicate OneRecordEach(lines: seq<StoreLine>) {
    forall i, j :: 0 <= i < j < |lines| ==> lines[i].event.id != lines[j].event.id
  }

  /** Files and deduplication: one line per ID, nothing spooled that is not stored, and every stored
      ID known as seen. */
  ghost predicate DiskInv(s: Node) {
    && WellFormed(s.spool.lines)
    && "" !in SpoolIds(s.spool.lines) && "" !in StoreIds(s.store)
    && OneLineEach(s.spool.lines) && OneRecordEach(s.store)
    && SpoolIds(s.spool.lines) <= StoreIds(s.store) <= s.seen
  }

  /** `inflight` is exactly the set of IDs in the batch and the channel, none is there twice, and the
      counters agree. */
  ghost predicate QueueInv(s: Node) {
    && s.inflight == Ids(s.pending) + Ids(s.queue.ch)
    && |s.inflight| == |s.pending| + |s.queue.ch|
    && (s.phase != Sending ==> s.pending != [] && Ids(s.pending) <= Ids(s.wire))
    && s.queue.stats.queued == |s.queue.ch| + (if s.phase == Counted || s.phase == Checkpointed then 0 else |s.pending|)
    && s.queue.capacity >= FLOOR
  }

  /** The offset table covers what is in flight and agrees with the spool. */
  ghost predicate OffsetInv(s: Node) {
    && s.inflight <= s.offsets.Keys
    && (forall id :: id in s.offsets ==> OnSpool(s.spool.lines, id, s.offsets[id]))
    && Ids(s.wire) <= SpoolIds(s.spool.lines)
  }

  ghost predicate BooksInv(s: Node) {
    DiskInv(s) && QueueInv(s) && OffsetInv(s)
  }

  /** What reading a stored event back must keep. */
  ghost predicate KeepsIds(read: Event -> Event) {
    forall e: Event :: e.id != "" ==> read(e).id == e.id
  }

  lemma OneLinePerId(lines: seq<Line>, l: Line, m: Line)
    requires OneLineEach(lines) && l in lines && m in lines && l.event.id == m.event.id
    ensures l == m
  {
    var i :| 0 <= i < |lines| && lines[i] == l;
    var j :| 0 <= j < |lines| && lines[j] == m;
  }

  lemma EnqueueKeepsQueue(s: Node, e: Event, offset: nat)
    requires QueueInv(s)
    ensures QueueInv(Enqueue(s, e, offset))
  {
    hide Ids;
    IdsOfConcat(s.queue.ch, [e]);
    IdsOfOne(e);
  }

  lemma EnqueueKeepsOffsets(s: Node, e: Event, offset: nat)
    requires OffsetInv(s) && OnSpool(s.spool.lines, e.id, offset)
    ensures OffsetInv(Enqueue(s, e, offset))
  {
    var t := Enqueue(s, e, offset);
    if t != s {
      assert t.offsets == s.offsets[e.id := offset] && t.inflight == s.inflight + {e.id};
    }
  }

  lemma EnqueueKeepsBooks(s: Node, e: Event, offset: nat)
    requires BooksInv(s) && OnSpool(s.spool.lines, e.id, offset)
    ensures BooksInv(Enqueue(s, e, offset))
  {
    hide QueueInv, OffsetInv;
    EnqueueKeepsQueue(s, e, offset);
    EnqueueKeepsOffsets(s, e, offset);
  }

  /** Enqueuing touches the queue, the in-flight set and the offsets only. */
  predicate SameButQueue(s: Node, t: Node) {
    t == s.(queue := t.queue, inflight := t.inflight, offsets := t.offsets)
    && t.queue.capacity == s.queue.capacity
  }

  lemma {:induction false} EnqueueAllKeepsBooks(s: Node, rs: seq<SpoolRecord>)
    requires BooksInv(s) && forall r :: r in rs ==> OnSpool(s.spool.lines, r.event.id, r.offset)
    ensures BooksInv(EnqueueAll(s, rs)) && SameButQueue(s, EnqueueAll(s, rs))
    decreases |rs|
  {
    if rs != [] {
      hide BooksInv, OnSpool;
      EnqueueKeepsBooks(s, rs[0].event, rs[0].offset);
      EnqueueAllKeepsBooks(Enqueue(s, rs[0].event, rs[0].offset), rs[1..]);
    }
  }

  lemma PendingOnSpool(lines: seq<Line>, checkpoint: nat, read: Event -> Event)
    requires "" !in SpoolIds(lines) && KeepsIds(read)
    ensures forall r :: r in PendingRecords(lines, checkpoint, read) ==> OnSpool(lines, r.event.id, r.offset)
  {
    PendingAreThePast(lines, checkpoint, read);
    forall r | r in PendingRecords(lines, checkpoint, read) ensures OnSpool(lines, r.event.id, r.offset) {
      var i :| 0 <= i < |lines| && r == SpoolRecord(lines[i].offset, read(lines[i].event));
      assert lines[i] in lines && lines[i].event.id in SpoolIds(lines);
    }
  }

  lemma RefillKeepsBooks(s: Node, read: Event -> Event)
    requires BooksInv(s) && KeepsIds(read)
    ensures BooksInv(Refilled(s, read)) && SameButQueue(s, Refilled(s, read))
  {
    PendingOnSpool(s.spool.lines, s.spool.checkpoint, read);
    if Scannable(s.spool.lines) {
      EnqueueAllKeepsBooks(s, PendingRecords(s.spool.lines, s.spool.checkpoint, read));
    }
  }

  lemma NewRecordKeepsStore(lines: seq<StoreLine>, l: StoreLine)
    requires OneRecordEach(lines) && l.event.id !in StoreIds(lines)
    ensures OneRecordEach(lines + [l]) && StoreIds(lines + [l]) == StoreIds(lines) + {l.event.id}
  {
    assert forall i :: 0 <= i < |lines| ==> lines[i].event.id in StoreIds(lines);
  }

  lemma NewLineKeepsSpool(lines: seq<Line>, l: Line)
    requires OneLineEach(lines) && l.event.id !in SpoolIds(lines)
    ensures OneLineEach(lines + [l]) && SpoolIds(lines + [l]) == SpoolIds(lines) + {l.event.id}
  {
    assert forall i :: 0 <= i < |lines| ==> lines[i].event.id in SpoolIds(lines);
  }

  lemma LogKeepsDisk(s: Node, e: Event, io: Appends)
    requires DiskInv(s) && e.id != ""
    ensures DiskInv(Logged(s, e, io))
  {
    if e.id !in s.seen && io.storeOk {
      NewRecordKeepsStore(s.store, StoreLine(e, io.storeSize));
      if io.spoolOk {
        AppendKeepsForm(s.spool.lines, e, io.spoolSize);
        NewLineKeepsSpool(s.spool.lines, Line(FileSize(s.spool.lines), e, io.spoolSize));
      }
    }
  }

  lemma OnSpoolStays(lines: seq<Line>, l: Line, id: string, offset: nat)
    requires OnSpool(lines, id, offset)
    ensures OnSpool(lines + [l], id, offset)
  {
    var m :| m in lines && m.event.id == id && m.offset == offset;
    assert m in lines + [l];
  }

  lemma LogKeepsMemory(s: Node, e: Event, io: Appends)
    requires BooksInv(s)
    ensures QueueInv(Logged(s, e, io)) && OffsetInv(Logged(s, e, io))
    ensures Accepts(s, e, io) ==> OnSpool(Logged(s, e, io).spool.lines, e.id, FileSize(s.spool.lines))
  {
    hide OnSpool, Ids;
    if Accepts(s, e, io) {
      NewLineKeepsOffsets(s, Logged(s, e, io), Line(FileSize(s.spool.lines), e, io.spoolSize));
    }
  }

  lemma NewLineKeepsOffsets(s: Node, t: Node, l: Line)
    requires OffsetInv(s)
    requires t.spool.lines == s.spool.lines + [l] && t.offsets == s.offsets[l.event.id := l.offset]
    requires t.inflight == s.inflight && t.wire == s.wire
    ensures OffsetInv(t) && OnSpool(t.spool.lines, l.event.id, l.offset)
  {
    assert l in t.spool.lines;
    forall id | id in s.offsets ensures OnSpool(t.spool.lines, id, s.offsets[id]) {
      OnSpoolStays(s.spool.lines, l, id, s.offsets[id]);
    }
    assert SpoolIds(t.spool.lines) == SpoolIds(s.spool.lines) + {l.event.id};
  }

  lemma IngestKeepsBooks(s: Node, e: Event, io: Appends)
    requires BooksInv(s) && e.id != ""
    ensures BooksInv(Ingested(s, e, io))
  {
    hide DiskInv, QueueInv, OffsetInv, OnSpool, Logged, Enqueue;
    LogKeepsDisk(s, e, io);
    LogKeepsMemory(s, e, io);
    if Accepts(s, e, io) {
      EnqueueKeepsBooks(Logged(s, e, io), e, FileSize(s.spool.lines));
    }
  }

  lemma ReplacedKeepsBooks(s: Node, cfg: Config)
    requires BooksInv(s)
    ensures BooksInv(Replaced(s, cfg)) && BooksInv(s.(cfg := cfg)) && BooksInv(s.(cfg := cfg, savedCfg := s.env))
  {
    hide WellFormed, OneLineEach, OneRecordEach, SpoolIds, StoreIds, OnSpool, Ids;
  }

  lemma ConfigureKeepsBooks(s: Node, cfg: Config, saved: Save, read: Event -> Event)
    requires BooksInv(s) && KeepsIds(read)
    ensures BooksInv(Configured(s, cfg, saved, read))
  {
    hide BooksInv, Replaced, Refilled;
    ReplacedKeepsBooks(s, cfg);
    RefillKeepsBooks(Replaced(s, cfg), read);
  }

  lemma ReadIdsAreStored(lines: seq<StoreLine>, read: Event -> Event)
    requires "" !in StoreIds(lines) && KeepsIds(read)
    ensures ReadIds(lines, read) == StoreIds(lines)
  {
    forall l | l in lines ensures l.event.id != "" && read(l.event).id == l.event.id {
      assert l.event.id in StoreIds(lines);
    }
  }

  /** A restart keeps the books exactly when the event log can be scanned: otherwise the collector
      forgets which IDs it has stored. */
  lemma RestartKeepsBooksIff(s: Node, read: Event -> Event)
    requires BooksInv(s) && KeepsIds(read)
    ensures BooksInv(Restarted(s, read)) <==> StoreScannable(s.store)
  {
    hide DiskInv, QueueInv, OffsetInv, Blank, Refilled, StoreScannable;
    if StoreScannable(s.store) {
      BlankKeepsBooks(s, read);
      RefillKeepsBooks(Blank(s, read), read);
    } else {
      UnscannedLosesBooks(s, read);
    }
  }

  lemma UnscannedLosesBooks(s: Node, read: Event -> Event)
    requires !StoreScannable(s.store)
    ensures !DiskInv(Restarted(s, read))
  {
    hide Refilled, WellFormed;
    var i :| 0 <= i < |s.store| && s.store[i].size >= SCAN_LIMIT;
    assert s.store[i].event.id in StoreIds(s.store);
    RestartForgets(s, read);
  }

  lemma BlankKeepsBooks(s: Node, read: Event -> Event)
    requires BooksInv(s) && KeepsIds(read) && StoreScannable(s.store)
    ensures BooksInv(Blank(s, read))
  {
    ReadIdsAreStored(s.store, read);
  }

  lemma {:induction false} EnqueueAllKeepsDisk(s: Node, rs: seq<SpoolRecord>)
    ensures SameButQueue(s, EnqueueAll(s, rs))
    decreases |rs|
  {
    if rs != [] { EnqueueAllKeepsDisk(Enqueue(s, rs[0].event, rs[0].offset), rs[1..]); }
  }

  lemma RestartForgets(s: Node, read: Event -> Event)
    ensures SameButQueue(Blank(s, read), Restarted(s, read))
  {
    EnqueueAllKeepsDisk(Blank(s, read), PendingRecords(s.spool.lines, s.spool.checkpoint, read));
  }

  lemma IdsOfConcat(a: seq<Event>, b: seq<Event>)
    ensures Ids(a + b) == Ids(a) + Ids(b)
  {
  }

  lemma IdsOfOne(e: Event)
    ensures Ids([e]) == {e.id}
  {
  }

  lemma IdsOfNone()
    ensures Ids([]) == {}
  {
  }

  lemma PopKeepsBooks(s: Node, max: int)
    requires BooksInv(s)
    ensures BooksInv(Popped(s, max))
  {
    var t := Popped(s, max);
    assert DiskInv(t) && t.phase == s.phase && t.inflight == s.inflight;
    if s.pending == [] { PopKeepsQueue(s, BatchSize(s.queue, max), t); }
  }

  lemma PopKeepsQueue(s: Node, n: nat, t: Node)
    requires QueueInv(s) && s.pending == [] && n <= |s.queue.ch|
    requires t.phase == s.phase && t.inflight == s.inflight && t.wire == s.wire
    requires t.pending == s.queue.ch[..n] && t.queue.ch == s.queue.ch[n..]
    requires t.queue.capacity == s.queue.capacity && t.queue.stats.queued == s.queue.stats.queued
    ensures QueueInv(t)
  {
    assert s.queue.ch == t.pending + t.queue.ch;
    IdsOfConcat(t.pending, t.queue.ch);
  }

  lemma {:induction false} IdsAtMost(es: seq<Event>)
    ensures |Ids(es)| <= |es|
  {
    if es != [] {
      IdsAtMost(es[1..]);
      assert es == [es[0]] + es[1..];
      IdsOfConcat([es[0]], es[1..]);
      assert Ids([es[0]]) == {es[0].id};
    }
  }

  lemma HeldOnSpool(s: Node, e: Event)
    requires QueueInv(s) && OffsetInv(s) && e in s.pending + s.queue.ch
    ensures e.id in s.offsets && OnSpool(s.spool.lines, e.id, s.offsets[e.id]) && e.id in SpoolIds(s.spool.lines)
  {
    assert e.id in Ids(s.pending) + Ids(s.queue.ch);
    var l :| l in s.spool.lines && l.event.id == e.id;
  }

  lemma SendKeepsBooks(s: Node, count: nat, when: string)
    requires BooksInv(s)
    ensures BooksInv(Sent(s, count, when))
  {
    if s.pending != [] && s.phase == Sending {
      var batch := Prioritized(s.pending);
      var sent := if count < |batch| then batch[..count] else batch;
      PrioritizedKeepsIds(s.pending);
      IdsOfConcat(s.wire, sent);
      assert Ids(sent) <= Ids(batch);
      forall e | e in s.pending ensures e.id in SpoolIds(s.spool.lines) { HeldOnSpool(s, e); }
    }
  }

  /** The counter never has to stop at zero: what is counted out was counted in. */
  lemma CountKeepsBooks(s: Node, when: string)
    requires BooksInv(s)
    ensures BooksInv(SuccessCounted(s, when))
    ensures s.phase == Delivered ==> |s.pending| <= s.queue.stats.queued
  {
  }

  lemma MarkKeepsBooks(s: Node, write: CheckpointWrite)
    requires BooksInv(s)
    ensures BooksInv(Marked(s, write))
  {
    hide WellFormed, OneLineEach, OneRecordEach, SpoolIds, StoreIds, OnSpool, Ids, MaxOffset;
  }

  lemma FullUnionIsDisjoint(a: set<string>, b: set<string>, m: nat, n: nat)
    requires |a| <= m && |b| <= n && |a + b| == m + n
    ensures a + b - a == b && |b| == n
  {
    assert |a + b| == |a| + |b| - |a * b|;
    assert a + b - a == b - a * b;
  }

  lemma ForgetKeepsBooks(s: Node)
    requires BooksInv(s)
    ensures BooksInv(Forgotten(s))
  {
    if s.phase == Checkpointed {
      ForgetKeepsQueue(s);
      assert OffsetInv(Forgotten(s));
    }
  }

  lemma ForgetKeepsQueue(s: Node)
    requires QueueInv(s) && s.phase == Checkpointed
    ensures QueueInv(Forgotten(s))
  {
    IdsAtMost(s.pending);
    IdsAtMost(s.queue.ch);
    FullUnionIsDisjoint(Ids(s.pending), Ids(s.queue.ch), |s.pending|, |s.queue.ch|);
  }

  /** The only step that can lose the books is a restart that cannot scan the event log. */
  predicate KeepsBooks(s: Node, step: Step) {
    step.Crash? ==> StoreScannable(s.store)
  }

  predicate Named(step: Step) {
    step.Ingest? ==> step.event.id != ""
  }

  lemma StepKeepsBooksIff(s: Node, step: Step, read: Event -> Event)
    requires BooksInv(s) && Named(step) && KeepsIds(read)
    ensures BooksInv(Next(s, step, read)) <==> KeepsBooks(s, step)
  {
    hide BooksInv, Ingested, Configured, Refilled, Popped, Sent, SuccessCounted, Marked, Forgotten, Restarted;
    match step
    case Ingest(e, io) => IngestKeepsBooks(s, e, io);
    case Configure(cfg, saved) => ConfigureKeepsBooks(s, cfg, saved, read);
    case Refill => RefillKeepsBooks(s, read);
    case Pop(max) => PopKeepsBooks(s, max);
    case Send(count, when) => SendKeepsBooks(s, count, when);
    case CountSuccess(when) => CountKeepsBooks(s, when);
    case Checkpoint(write) => MarkKeepsBooks(s, write);
    case Forget => ForgetKeepsBooks(s);
    case Crash => RestartKeepsBooksIff(s, read);
  }

  lemma InstalledKeepsBooks(queueSize: nat, cfg: Config)
    ensures BooksInv(Installed(queueSize, cfg))
  {
  }
}
