/** No event is lost: what the checkpoint passes has been sent, and whatever has not been sent is
    still in memory or comes back from the spool. Each step's effect on the order of the pipeline, and
    when it strands an unsent record while forwarding is enabled. */
module Watermark {
  import opened Event
  import opened Spool
  import opened Queue
  import opened Batch
  import opened EventLog
  import opened Delivery
  import opened Books

  /** IDs of the records before an offset. The record at offset 0 is left out: the checkpoint
      starts at 0, so the spool never gives that record back (see `FirstRecordIsNotRecovered`). */
  function Before(lines: seq<Line>, offset: nat): set<string> {
    set l | l in lines && 0 < l.offset < offset :: l.event.id
  }

  function OffsetOf(s: Node, e: Event): nat {
    if e.id in s.offsets then s.offsets[e.id] else 0
  }

  /** Everything the checkpoint has passed has been sent. */
  ghost predicate WatermarkInv(s: Node) {
    && Before(s.spool.lines, s.spool.checkpoint + 1) <= Ids(s.wire)
    && (s.spool.checkpoint == 0 || s.spool.checkpoint < FileSize(s.spool.lines))
  }

  /** Everything older than an event of the batch is sent or in the batch. */
  ghost predicate BatchClosed(s: Node) {
    forall e :: e in s.pending ==> Before(s.spool.lines, OffsetOf(s, e)) <= Ids(s.wire) + Ids(s.pending)
  }

  /** Everything older than an event of the channel is sent, in the batch, or further ahead. */
  ghost predicate QueueClosed(s: Node) {
    forall j :: 0 <= j < |s.queue.ch| ==>
      Before(s.spool.lines, OffsetOf(s, s.queue.ch[j])) <= Ids(s.wire) + Ids(s.pending) + Ids(s.queue.ch[..j])
  }

  function Placed(s: Node): set<string> {
    Ids(s.wire) + Ids(s.pending) + Ids(s.queue.ch)
  }

  function AllIds(lines: seq<Line>): set<string> {
    Before(lines, FileSize(lines))
  }

  ghost predicate AllPlaced(s: Node) {
    AllIds(s.spool.lines) <= Placed(s)
  }

  ghost predicate OrderInv(s: Node) {
    WatermarkInv(s) && BatchClosed(s) && QueueClosed(s)
  }

  /** Books and order: the checkpoint is behind what was sent, and batch and channel are in the order of
      the spool. */
  ghost predicate Consistent(s: Node) {
    BooksInv(s) && OrderInv(s)
  }

  /** And with forwarding on, everything spooled is on its way. */
  ghost predicate Safe(s: Node) {
    Consistent(s) && (s.cfg.Enabled() ==> AllPlaced(s))
  }

  /** A step that keeps books and order, and everything placed if it was. */
  ghost predicate Keeps(s: Node, t: Node) {
    Consistent(t) && t.cfg == s.cfg && (AllPlaced(s) ==> AllPlaced(t))
  }

  // ----- enqueuing -----

  lemma EnqueueKeepsOrder(s: Node, e: Event, offset: nat)
    requires QueueInv(s) && OrderInv(s)
    requires s.queue.Full() || e.id in s.inflight || Before(s.spool.lines, offset) <= Placed(s)
    ensures OrderInv(Enqueue(s, e, offset))
  {
    var t := Enqueue(s, e, offset);
    if t != s {
      EnqueueKeepsOffsetOf(s, e, offset);
      hide QueueInv, OffsetOf, Before, Ids;
      assert WatermarkInv(t) && BatchClosed(t);
      PushedIsClosed(s, t, e);
    }
  }

  lemma PushedIsClosed(s: Node, t: Node, e: Event)
    requires QueueClosed(s) && t.queue.ch == s.queue.ch + [e]
    requires t.spool == s.spool && t.wire == s.wire && t.pending == s.pending
    requires Before(t.spool.lines, OffsetOf(t, e)) <= Placed(s)
    requires forall j :: 0 <= j < |s.queue.ch| ==> OffsetOf(t, s.queue.ch[j]) == OffsetOf(s, s.queue.ch[j])
    ensures QueueClosed(t)
  {
    hide OffsetOf, Before, Ids;
    forall j | 0 <= j < |t.queue.ch|
      ensures Before(t.spool.lines, OffsetOf(t, t.queue.ch[j])) <= Ids(t.wire) + Ids(t.pending) + Ids(t.queue.ch[..j])
    {
      assert t.queue.ch[..j] == s.queue.ch[..j];
      if j == |s.queue.ch| { assert s.queue.ch[..j] == s.queue.ch; }
    }
  }

  /** Enqueuing enters an offset for the new event and leaves the others alone. */
  lemma EnqueueKeepsOffsetOf(s: Node, e: Event, offset: nat)
    requires QueueInv(s) && Enqueue(s, e, offset) != s
    ensures var t := Enqueue(s, e, offset);
      && OffsetOf(t, e) == offset
      && (forall p :: p in s.pending ==> OffsetOf(t, p) == OffsetOf(s, p))
      && (forall j :: 0 <= j < |s.queue.ch| ==> OffsetOf(t, s.queue.ch[j]) == OffsetOf(s, s.queue.ch[j]))
  {
    assert forall p :: p in s.pending ==> p.id in Ids(s.pending);
    assert forall j :: 0 <= j < |s.queue.ch| ==> s.queue.ch[j].id in Ids(s.queue.ch);
  }

  function RecordIds(rs: seq<SpoolRecord>): set<string> {
    set r | r in rs :: r.event.id
  }

  /** The IDs that enqueuing these records leaves out because the channel is full. */
  function LeftOut(s: Node, rs: seq<SpoolRecord>): set<string>
    decreases |rs|
  {
    if rs == [] then {}
    else
      (if rs[0].event.id !in s.inflight && s.queue.Full() then {rs[0].event.id} else {})
      + LeftOut(Enqueue(s, rs[0].event, rs[0].offset), rs[1..])
  }

  /** Records in file order, each one a line of the spool. */
  ghost predicate Lines(lines: seq<Line>, rs: seq<SpoolRecord>) {
    InFileOrder(rs) && forall r :: r in rs ==> OnSpool(lines, r.event.id, r.offset)
  }

  lemma OffsetIsTheLines(lines: seq<Line>, l: Line, offset: nat)
    requires OneLineEach(lines) && l in lines && OnSpool(lines, l.event.id, offset)
    ensures l.offset == offset
  {
    var m :| m in lines && m.event.id == l.event.id && m.offset == offset;
    OneLinePerId(lines, l, m);
  }

  lemma NothingBeforeTheFirst(lines: seq<Line>, rs: seq<SpoolRecord>, known: set<string>)
    requires OneLineEach(lines) && Lines(lines, rs) && rs != []
    requires AllIds(lines) <= known + RecordIds(rs)
    requires WellFormed(lines)
    ensures Before(lines, rs[0].offset) <= known
  {
    OffsetsIncrease(lines);
    assert forall r :: r in rs ==> rs[0].offset <= r.offset;
    forall l | l in lines && 0 < l.offset < rs[0].offset ensures l.event.id in known {
      assert l.event.id in AllIds(lines);
      if l.event.id !in known {
        var r :| r in rs && r.event.id == l.event.id;
        OffsetIsTheLines(lines, l, r.offset);
      }
    }
  }

  lemma TailLines(lines: seq<Line>, rs: seq<SpoolRecord>)
    requires Lines(lines, rs) && rs != []
    ensures Lines(lines, rs[1..]) && RecordIds(rs) == {rs[0].event.id} + RecordIds(rs[1..])
  {
    assert rs == [rs[0]] + rs[1..];
  }

  /** Enqueuing, in file order, records that cover everything not yet placed keeps the order; at the
      end everything is placed except what was left out. */
  lemma {:induction false} EnqueueAllKeepsOrder(s: Node, rs: seq<SpoolRecord>)
    requires BooksInv(s) && OrderInv(s) && Lines(s.spool.lines, rs)
    requires s.queue.Full() || AllIds(s.spool.lines) <= Placed(s) + RecordIds(rs)
    ensures BooksInv(EnqueueAll(s, rs)) && OrderInv(EnqueueAll(s, rs)) && SameButQueue(s, EnqueueAll(s, rs))
    decreases |rs|
  {
    if rs != [] {
      EnqueueFirstKeepsOrder(s, rs);
      EnqueueAllKeepsOrder(Enqueue(s, rs[0].event, rs[0].offset), rs[1..]);
    }
  }

  lemma EnqueueFirstKeepsOrder(s: Node, rs: seq<SpoolRecord>)
    requires BooksInv(s) && OrderInv(s) && Lines(s.spool.lines, rs) && rs != []
    requires s.queue.Full() || AllIds(s.spool.lines) <= Placed(s) + RecordIds(rs)
    ensures var t := Enqueue(s, rs[0].event, rs[0].offset);
      && BooksInv(t) && OrderInv(t) && Lines(t.spool.lines, rs[1..]) && SameButQueue(s, t)
      && (t.queue.Full() || AllIds(t.spool.lines) <= Placed(t) + RecordIds(rs[1..]))
  {
    hide DiskInv, OffsetInv, WatermarkInv, BatchClosed, QueueClosed, OnSpool;
    FormOfBooks(s);
    OneLineOfBooks(s);
    EnqueueKeepsBooks(s, rs[0].event, rs[0].offset);
    if !s.queue.Full() { NothingBeforeTheFirst(s.spool.lines, rs, Placed(s)); }
    EnqueueKeepsOrder(s, rs[0].event, rs[0].offset);
    TailLines(s.spool.lines, rs);
    EnqueuePlaces(s, rs[0].event, rs[0].offset);
  }

  lemma OneLineOfBooks(s: Node)
    requires BooksInv(s)
    ensures OneLineEach(s.spool.lines)
  {
  }

  lemma EnqueuePlaces(s: Node, e: Event, offset: nat)
    requires QueueInv(s)
    ensures Placed(Enqueue(s, e, offset)) == Placed(s) + if !s.queue.Full() then {e.id} else {}
    ensures Enqueue(s, e, offset).queue.Full() || !s.queue.Full()
  {
    IdsOfConcat(s.queue.ch, [e]);
  }

  lemma {:induction false} FullLeavesOut(s: Node, rs: seq<SpoolRecord>)
    requires s.queue.Full()
    ensures EnqueueAll(s, rs) == s && LeftOut(s, rs) == RecordIds(rs) - s.inflight
    decreases |rs|
  {
    if rs != [] {
      FullLeavesOut(s, rs[1..]);
      assert rs == [rs[0]] + rs[1..];
      assert RecordIds(rs) == {rs[0].event.id} + RecordIds(rs[1..]);
    }
  }

  /** `t` is `s` after enqueuing records with these IDs, all but `left`. */
  ghost predicate Enqueues(s: Node, t: Node, ids: set<string>, left: set<string>) {
    Placed(t) == Placed(s) + (ids - left) && s.inflight <= t.inflight && t.inflight !! left
  }

  lemma EnqueuesNothing(s: Node, ids: set<string>)
    requires QueueInv(s)
    ensures Enqueues(s, s, ids, ids - s.inflight)
  {
    assert s.inflight <= Placed(s);
    assert ids - (ids - s.inflight) <= s.inflight;
  }

  lemma EnqueuesOne(s: Node, mid: Node, t: Node, id: string, ids: set<string>, left: set<string>)
    requires Placed(mid) == Placed(s) + {id} && s.inflight <= mid.inflight && id in mid.inflight
    requires Enqueues(mid, t, ids, left)
    ensures Enqueues(s, t, {id} + ids, left)
  {
    assert id !in left;
    var p := Placed(s);
    assert p + {id} + (ids - left) == p + ({id} + ids - left);
  }

  /** What enqueuing places: every record but those left out, and those stay out. */
  lemma {:induction false} EnqueueAllPlaces(s: Node, rs: seq<SpoolRecord>)
    requires QueueInv(s)
    ensures Enqueues(s, EnqueueAll(s, rs), RecordIds(rs), LeftOut(s, rs))
    decreases |rs|
  {
    if s.queue.Full() {
      FullLeavesOut(s, rs);
      EnqueuesNothing(s, RecordIds(rs));
    } else if rs == [] {
    } else {
      hide *;
      var e, t := rs[0].event, Enqueue(s, rs[0].event, rs[0].offset);
      EnqueueKeepsQueue(s, e, rs[0].offset);
      EnqueueFirstPlaces(s, e, rs[0].offset);
      EnqueueAllPlaces(t, rs[1..]);
      EnqueuesOne(s, t, EnqueueAll(t, rs[1..]), e.id, RecordIds(rs[1..]), LeftOut(t, rs[1..]));
      FirstRecordId(rs);
      FirstEnqueued(s, rs);
    }
  }

  lemma FirstEnqueued(s: Node, rs: seq<SpoolRecord>)
    requires rs != [] && !s.queue.Full()
    ensures var t := Enqueue(s, rs[0].event, rs[0].offset);
      EnqueueAll(s, rs) == EnqueueAll(t, rs[1..]) && LeftOut(s, rs) == LeftOut(t, rs[1..])
  {
    hide Enqueue;
  }

  lemma FirstRecordId(rs: seq<SpoolRecord>)
    requires rs != []
    ensures RecordIds(rs) == {rs[0].event.id} + RecordIds(rs[1..])
  {
    assert rs == [rs[0]] + rs[1..];
  }

  lemma EnqueueFirstPlaces(s: Node, e: Event, offset: nat)
    requires QueueInv(s) && !s.queue.Full()
    ensures var t := Enqueue(s, e, offset);
      Placed(t) == Placed(s) + {e.id} && s.inflight <= t.inflight && e.id in t.inflight
  {
    EnqueuePlaces(s, e, offset);
  }

  lemma {:induction false} LeftOutAreRecords(s: Node, rs: seq<SpoolRecord>)
    ensures LeftOut(s, rs) <= RecordIds(rs)
    decreases |rs|
  {
    if rs != [] {
      LeftOutAreRecords(Enqueue(s, rs[0].event, rs[0].offset), rs[1..]);
      assert rs == [rs[0]] + rs[1..];
    }
  }

  // ----- refilling -----

  function Recoverable(s: Node, read: Event -> Event): seq<SpoolRecord> {
    PendingRecords(s.spool.lines, s.spool.checkpoint, read)
  }

  /** Recoverable records that are not in flight. */
  function Waiting(s: Node, read: Event -> Event): set<string> {
    RecordIds(Recoverable(s, read)) - s.inflight
  }

  /** What a refill leaves out of the queue: everything when the spool cannot be scanned. */
  function Unplaced(s: Node, read: Event -> Event): set<string> {
    if Scannable(s.spool.lines) then LeftOut(s, Recoverable(s, read)) else Waiting(s, read)
  }

  lemma RecoverableAreLines(s: Node, read: Event -> Event)
    requires DiskInv(s) && KeepsIds(read)
    ensures Lines(s.spool.lines, Recoverable(s, read))
    ensures RecordIds(Recoverable(s, read)) <= AllIds(s.spool.lines)
  {
    OffsetsIncrease(s.spool.lines);
    PendingIncrease(s.spool.lines, s.spool.checkpoint, read);
    PendingOnSpool(s.spool.lines, s.spool.checkpoint, read);
    PendingAreThePast(s.spool.lines, s.spool.checkpoint, read);
    forall r | r in Recoverable(s, read) ensures r.event.id in AllIds(s.spool.lines) {
      var l :| l in s.spool.lines && l.event.id == r.event.id && l.offset == r.offset;
    }
  }

  /** Below the checkpoint everything is sent; above it everything is recoverable. */
  lemma SentOrRecoverable(s: Node, read: Event -> Event)
    requires DiskInv(s) && WatermarkInv(s) && KeepsIds(read)
    ensures AllIds(s.spool.lines) <= Ids(s.wire) + RecordIds(Recoverable(s, read))
  {
    hide WellFormed, OneLineEach, OneRecordEach, PendingRecords;
    PendingAreThePast(s.spool.lines, s.spool.checkpoint, read);
    forall l | l in s.spool.lines && 0 < l.offset
      ensures l.event.id in Ids(s.wire) + RecordIds(Recoverable(s, read))
    {
      if l.offset <= s.spool.checkpoint {
        assert l.event.id in Before(s.spool.lines, s.spool.checkpoint + 1);
      } else {
        var i :| 0 <= i < |s.spool.lines| && s.spool.lines[i] == l;
        var r := SpoolRecord(l.offset, read(l.event));
        assert r in Recoverable(s, read) && l.event.id in SpoolIds(s.spool.lines);
      }
    }
  }

  /** Without enqueuing, everything is placed exactly when whatever waits has been sent. */
  lemma PlacedIffNothingWaits(s: Node, read: Event -> Event)
    requires BooksInv(s) && WatermarkInv(s) && KeepsIds(read)
    ensures AllPlaced(s) <==> Waiting(s, read) <= Ids(s.wire)
  {
    RecoverableAreLines(s, read);
    SentOrRecoverable(s, read);
  }

  /** Refilling keeps the order; afterwards everything is placed exactly when what was left out has
      been sent. */
  lemma RefillPlacesIff(s: Node, read: Event -> Event)
    requires Consistent(s) && KeepsIds(read)
    ensures Consistent(Refilled(s, read)) && SameButQueue(s, Refilled(s, read))
    ensures AllPlaced(Refilled(s, read)) <==> Unplaced(s, read) <= Ids(s.wire)
    ensures AllPlaced(s) ==> AllPlaced(Refilled(s, read))
  {
    RecoverableAreLines(s, read);
    SentOrRecoverable(s, read);
    if Scannable(s.spool.lines) {
      EnqueueAllKeepsOrder(s, Recoverable(s, read));
      EnqueueAllPlaces(s, Recoverable(s, read));
      LeftOutAreRecords(s, Recoverable(s, read));
    } else {
      PlacedIffNothingWaits(s, read);
    }
  }

  // ----- one lemma for each step -----

  lemma BeforeOneMore(lines: seq<Line>, l: Line, offset: nat)
    ensures Before(lines + [l], offset) == Before(lines, offset) + if 0 < l.offset < offset then {l.event.id} else {}
  {
    assert forall m :: m in lines + [l] <==> m in lines || m == l;
  }

  lemma SizeOneMore(lines: seq<Line>, e: Event, size: nat)
    ensures FileSize(Appended(lines, e, size)) == FileSize(lines) + size + 1
  {
    assert Appended(lines, e, size)[..|lines|] == lines;
  }

  lemma BeforeTheEnd(lines: seq<Line>, offset: nat)
    requires WellFormed(lines) && offset >= FileSize(lines)
    ensures Before(lines, offset) == AllIds(lines)
  {
    OffsetsIncrease(lines);
  }

  /** What a new line adds to the sets of older records. */
  lemma NewLineIsNotOlder(lines: seq<Line>, e: Event, size: nat, offset: nat)
    requires offset <= FileSize(lines)
    ensures Before(Appended(lines, e, size), offset) == Before(lines, offset)
  {
    BeforeOneMore(lines, Line(FileSize(lines), e, size), offset);
  }

  lemma NewLineIsAdded(lines: seq<Line>, e: Event, size: nat)
    requires WellFormed(lines)
    ensures AllIds(Appended(lines, e, size)) == AllIds(lines) + if FileSize(lines) > 0 then {e.id} else {}
  {
    var end := FileSize(lines) + size + 1;
    SizeOneMore(lines, e, size);
    BeforeOneMore(lines, Line(FileSize(lines), e, size), end);
    BeforeTheEnd(lines, end);
  }

  lemma NewLineKeepsWatermark(s: Node, t: Node, e: Event, size: nat)
    requires WatermarkInv(s) && t.wire == s.wire && t.spool == s.spool.(lines := Appended(s.spool.lines, e, size))
    ensures WatermarkInv(t)
  {
    SizeOneMore(s.spool.lines, e, size);
    BeforeOneMore(s.spool.lines, Line(FileSize(s.spool.lines), e, size), s.spool.checkpoint + 1);
  }

  /** A line for a new ID, and its entry in the offset table. */
  predicate AddsLine(s: Node, t: Node, l: Line) {
    l.event.id !in s.seen && l.offset == FileSize(s.spool.lines)
    && t == s.(seen := t.seen, store := t.store, spool := s.spool.(lines := s.spool.lines + [l]),
               offsets := s.offsets[l.event.id := l.offset])
  }

  lemma AcceptedAddsLine(s: Node, e: Event, io: Appends)
    requires Accepts(s, e, io)
    ensures AddsLine(s, Logged(s, e, io), Line(FileSize(s.spool.lines), e, io.spoolSize))
  {
  }

  /** A refused event changes neither the files the order speaks of nor what is on its way. */
  lemma RefusedKeepsFlow(s: Node, e: Event, io: Appends)
    requires !Accepts(s, e, io)
    ensures SameFlow(s, Logged(s, e, io)) && Logged(s, e, io).phase == s.phase
  {
  }

  /** Appending a record keeps the order among the others. */
  lemma LogKeepsOrder(s: Node, e: Event, io: Appends)
    requires BooksInv(s) && OrderInv(s)
    ensures OrderInv(Logged(s, e, io))
  {
    if Accepts(s, e, io) {
      var t, l := Logged(s, e, io), Line(FileSize(s.spool.lines), e, io.spoolSize);
      AcceptedAddsLine(s, e, io);
      NewLineKeepsWatermark(s, t, e, io.spoolSize);
      NewLineKeepsBatchClosed(s, t, l);
      NewLineKeepsQueueClosed(s, t, l);
    } else {
      RefusedKeepsFlow(s, e, io);
      FlowDecidesOrder(s, Logged(s, e, io));
    }
  }

  lemma NewLineKeepsOlder(s: Node, t: Node, l: Line, e: Event)
    requires BooksInv(s) && AddsLine(s, t, l) && e in s.pending + s.queue.ch
    ensures OffsetOf(t, e) == OffsetOf(s, e) &&
      Before(t.spool.lines, OffsetOf(t, e)) == Before(s.spool.lines, OffsetOf(s, e))
  {
    HeldOnSpool(s, e);
    OffsetsIncrease(s.spool.lines);
    BeforeOneMore(s.spool.lines, l, OffsetOf(s, e));
  }

  lemma NewLineKeepsBatchClosed(s: Node, t: Node, l: Line)
    requires BooksInv(s) && BatchClosed(s) && AddsLine(s, t, l)
    ensures BatchClosed(t)
  {
    forall e | e in t.pending ensures Before(t.spool.lines, OffsetOf(t, e)) <= Ids(t.wire) + Ids(t.pending) {
      NewLineKeepsOlder(s, t, l, e);
    }
  }

  lemma NewLineKeepsQueueClosed(s: Node, t: Node, l: Line)
    requires BooksInv(s) && QueueClosed(s) && AddsLine(s, t, l)
    ensures QueueClosed(t)
  {
    forall j | 0 <= j < |t.queue.ch|
      ensures Before(t.spool.lines, OffsetOf(t, t.queue.ch[j])) <= Ids(t.wire) + Ids(t.pending) + Ids(t.queue.ch[..j])
    {
      NewLineKeepsOlder(s, t, l, t.queue.ch[j]);
    }
  }

  /** An accepted event is pushed although something spooled earlier is not on its way. */
  ghost predicate Overtakes(s: Node, e: Event, io: Appends) {
    Accepts(s, e, io) && s.cfg.Enabled() && !s.queue.Full() && !AllPlaced(s)
  }

  /** An ingest keeps the order exactly when its push does not overtake. */
  lemma IngestKeepsOrderIff(s: Node, e: Event, io: Appends)
    requires Consistent(s) && e.id != ""
    ensures Consistent(Ingested(s, e, io)) <==> !Overtakes(s, e, io)
  {
    hide BooksInv, OrderInv, AllPlaced, Logged, Enqueue;
    IngestKeepsBooks(s, e, io);
    LogKeepsOrder(s, e, io);
    if Accepts(s, e, io) {
      var t, l := Logged(s, e, io), Line(FileSize(s.spool.lines), e, io.spoolSize);
      AcceptedAddsLine(s, e, io);
      LogKeepsMemory(s, e, io);
      NewIsPushedInOrderIff(s, t, l);
    }
  }

  lemma NewIsPushedInOrderIff(s: Node, t: Node, l: Line)
    requires BooksInv(s) && AddsLine(s, t, l) && OrderInv(t) && QueueInv(t)
    ensures OrderInv(Enqueue(t, l.event, l.offset)) <==> s.queue.Full() || AllPlaced(s)
  {
    hide DiskInv, OffsetInv;
    NewLineIsNotOlder(s.spool.lines, l.event, l.size, l.offset);
    NewIsNotInFlight(s, l);
    assert Placed(t) == Placed(s) && t.inflight == s.inflight && t.queue == s.queue;
    PushKeepsOrderIff(t, l.event, l.offset);
  }

  lemma NewIsNotInFlight(s: Node, l: Line)
    requires BooksInv(s) && l.event.id !in s.seen
    ensures l.event.id !in s.inflight
  {
    PlacedAreSeen(s);
  }

  lemma PushKeepsOrderIff(s: Node, e: Event, offset: nat)
    requires QueueInv(s) && OrderInv(s) && e.id !in s.inflight
    ensures OrderInv(Enqueue(s, e, offset)) <==> s.queue.Full() || Before(s.spool.lines, offset) <= Placed(s)
  {
    if s.queue.Full() || Before(s.spool.lines, offset) <= Placed(s) {
      EnqueueKeepsOrder(s, e, offset);
    } else {
      var t := Enqueue(s, e, offset);
      var j := |s.queue.ch|;
      assert t.queue.ch[j] == e && t.queue.ch[..j] == s.queue.ch && OffsetOf(t, e) == offset;
    }
  }

  /** Accepting an event keeps the pipeline safe exactly when its push is not refused. */
  lemma IngestKeepsSafeIff(s: Node, e: Event, io: Appends)
    requires Safe(s) && e.id != ""
    ensures Safe(Ingested(s, e, io)) <==> !(Accepts(s, e, io) && s.cfg.Enabled() && s.queue.Full())
  {
    hide BooksInv, OrderInv, AllPlaced, Logged, Enqueue;
    IngestKeepsOrderIff(s, e, io);
    IngestKeepsConfig(s, e, io);
    if s.cfg.Enabled() { IngestPlacesIff(s, e, io); }
  }

  lemma IngestKeepsConfig(s: Node, e: Event, io: Appends)
    ensures Ingested(s, e, io).cfg == s.cfg
  {
  }

  /** With everything placed and forwarding on, an accepted event is placed unless the channel is full. */
  lemma IngestPlacesIff(s: Node, e: Event, io: Appends)
    requires BooksInv(s) && AllPlaced(s) && s.cfg.Enabled()
    ensures AllPlaced(Ingested(s, e, io)) <==> !(Accepts(s, e, io) && s.queue.Full())
  {
    hide BooksInv, AllPlaced, Logged, Enqueue;
    if Accepts(s, e, io) {
      var l := Line(FileSize(s.spool.lines), e, io.spoolSize);
      AcceptedAddsLine(s, e, io);
      LogKeepsMemory(s, e, io);
      NewIsPlacedIff(s, Logged(s, e, io), l);
    } else {
      RefusedKeepsFlow(s, e, io);
      FlowDecidesOrder(s, Logged(s, e, io));
    }
  }

  /** A full channel holds spooled events, so the spool is not empty. */
  lemma FullMeansSpooled(s: Node)
    requires BooksInv(s) && s.queue.Full()
    ensures FileSize(s.spool.lines) > 0
  {
    HeldOnSpool(s, s.queue.ch[0]);
    OffsetsIncrease(s.spool.lines);
  }

  lemma NewIsPlacedIff(s: Node, t: Node, l: Line)
    requires BooksInv(s) && AllPlaced(s) && AddsLine(s, t, l) && QueueInv(t)
    ensures AllPlaced(Enqueue(t, l.event, l.offset)) <==> !s.queue.Full()
  {
    assert Enqueue(t, l.event, l.offset).spool == t.spool;
    NewLineIsAdded(s.spool.lines, l.event, l.size);
    PlacedAreSeen(s);
    EnqueuePlaces(t, l.event, l.offset);
    assert Placed(t) == Placed(s);
    if s.queue.Full() { FullMeansSpooled(s); }
    CoveredIff(AllIds(s.spool.lines), Placed(s), l.event.id, l.offset > 0, !s.queue.Full());
  }

  lemma CoveredIff(known: set<string>, placed: set<string>, id: string, needed: bool, pushed: bool)
    requires known <= placed && id !in placed && (pushed || needed)
    ensures known + (if needed then {id} else {}) <= placed + (if pushed then {id} else {}) <==> pushed
  {
    if !pushed { assert id in known + {id}; }
  }

  lemma HeldIsSeen(s: Node, e: Event)
    requires BooksInv(s) && e in s.pending + s.queue.ch
    ensures e.id in s.seen
  {
    hide QueueInv, OffsetInv, WellFormed, OneLineEach, OneRecordEach, SpoolIds, StoreIds;
    HeldOnSpool(s, e);
  }

  lemma SentAreSeen(s: Node)
    requires BooksInv(s)
    ensures Ids(s.wire) <= s.seen
  {
    hide QueueInv, WellFormed, OneLineEach, OneRecordEach, SpoolIds, StoreIds, Ids;
  }

  lemma PlacedAreSeen(s: Node)
    requires BooksInv(s)
    ensures Placed(s) <= s.seen
  {
    forall e | e in s.pending + s.queue.ch ensures e.id in s.seen { HeldIsSeen(s, e); }
    hide Ids, BooksInv;
    SentAreSeen(s);
    IdsWithin(s.pending, s.seen);
    IdsWithin(s.queue.ch, s.seen);
  }

  lemma IdsWithin(es: seq<Event>, ids: set<string>)
    requires forall e :: e in es ==> e.id in ids
    ensures Ids(es) <= ids
  {
  }

  /** States that hold the same events in the same places. */
  predicate SameFlow(s: Node, t: Node) {
    t.spool == s.spool && t.wire == s.wire && t.pending == s.pending && t.queue.ch == s.queue.ch
    && t.offsets == s.offsets && t.inflight == s.inflight && t.queue.capacity == s.queue.capacity
  }

  lemma FlowDecidesOrder(s: Node, t: Node)
    requires SameFlow(s, t)
    ensures OrderInv(t) == OrderInv(s) && AllPlaced(t) == AllPlaced(s)
  {
    assert forall e :: OffsetOf(t, e) == OffsetOf(s, e);
  }

  /** A configuration change keeps the order, whether it is saved and whatever its refill leaves out. */
  lemma ConfigureKeepsOrder(s: Node, cfg: Config, saved: Save, read: Event -> Event)
    requires Consistent(s) && KeepsIds(read)
    ensures var t := Configured(s, cfg, saved, read);
      && Consistent(t) && t.cfg == cfg
      && (saved.Saved? && cfg.Refills() ==> (AllPlaced(t) <==> Unplaced(s, read) <= Ids(s.wire)))
      && (!(saved.Saved? && cfg.Refills()) ==> (AllPlaced(t) <==> Waiting(s, read) <= Ids(s.wire)))
  {
    hide BooksInv, AllPlaced, WatermarkInv, BatchClosed, QueueClosed, Refilled, Unplaced, Waiting;
    ConfigureKeepsBooks(s, cfg, saved, read);
    PlacedIffNothingWaits(s, read);
    var replaced := Replaced(s, cfg);
    if saved.Saved? {
      ReplacedKeepsBooks(s, cfg);
      FlowDecidesOrder(s, replaced);
      RefillPlacesIff(replaced, read);
      UnplacedIgnoresConfig(s, replaced, read);
    } else {
      FlowDecidesOrder(s, Configured(s, cfg, saved, read));
    }
  }

  lemma ConfigureKeepsSafeIff(s: Node, cfg: Config, saved: Save, read: Event -> Event)
    requires Safe(s) && KeepsIds(read)
    ensures Safe(Configured(s, cfg, saved, read)) <==>
      (cfg.Enabled() ==> (if saved.Saved? then Unplaced(s, read) else Waiting(s, read)) <= Ids(s.wire))
  {
    hide Consistent, AllPlaced, Configured, Unplaced, Waiting;
    ConfigureKeepsOrder(s, cfg, saved, read);
  }

  /** What a refill leaves out depends on the files, the in-flight set and the room in the channel. */
  lemma {:induction false} LeftOutIgnoresConfig(s: Node, t: Node, rs: seq<SpoolRecord>)
    requires t.inflight == s.inflight && t.queue.ch == s.queue.ch && t.queue.capacity == s.queue.capacity
    ensures LeftOut(t, rs) == LeftOut(s, rs)
    decreases |rs|
  {
    if rs != [] {
      LeftOutIgnoresConfig(Enqueue(s, rs[0].event, rs[0].offset), Enqueue(t, rs[0].event, rs[0].offset), rs[1..]);
    }
  }

  lemma UnplacedIgnoresConfig(s: Node, t: Node, read: Event -> Event)
    requires SameFlow(s, t)
    ensures Unplaced(t, read) == Unplaced(s, read)
  {
    LeftOutIgnoresConfig(s, t, Recoverable(s, read));
  }

  lemma RefillKeepsOrder(s: Node, read: Event -> Event)
    requires Consistent(s) && KeepsIds(read)
    ensures Keeps(s, Refilled(s, read))
  {
    hide BooksInv, OrderInv, AllPlaced, Refilled;
    RefillPlacesIff(s, read);
  }

  lemma PopKeepsOrder(s: Node, max: int)
    requires Consistent(s)
    ensures Keeps(s, Popped(s, max))
  {
    hide BooksInv, BatchClosed, QueueClosed, WatermarkInv, Placed;
    var t := Popped(s, max);
    PopKeepsBooks(s, max);
    if s.pending == [] {
      PopClosesBatch(s, BatchSize(s.queue, max), t);
      PopClosesQueue(s, BatchSize(s.queue, max), t);
      SameSpoolSameWatermark(s, t);
    } else {
      FlowDecidesOrder(s, t);
    }
  }

  lemma SameSpoolSameWatermark(s: Node, t: Node)
    requires t.spool == s.spool && t.wire == s.wire
    ensures WatermarkInv(t) == WatermarkInv(s)
  {
  }

  predicate Pops(s: Node, n: nat, t: Node) {
    n <= |s.queue.ch| && s.pending == [] && t.pending == s.queue.ch[..n] && t.queue.ch == s.queue.ch[n..]
    && t.spool == s.spool && t.wire == s.wire && t.offsets == s.offsets
  }

  lemma PopClosesBatch(s: Node, n: nat, t: Node)
    requires QueueClosed(s) && Pops(s, n, t)
    ensures BatchClosed(t) && Placed(t) == Placed(s)
  {
    hide Before, Ids;
    IdsOfNone();
    var ch := s.queue.ch;
    assert ch == ch[..n] + ch[n..];
    IdsOfConcat(ch[..n], ch[n..]);
    forall e | e in t.pending ensures Before(t.spool.lines, OffsetOf(t, e)) <= Ids(t.wire) + Ids(t.pending) {
      var j :| 0 <= j < n && ch[j] == e;
      assert ch[..n] == ch[..j] + ch[j..n];
      IdsOfConcat(ch[..j], ch[j..n]);
    }
  }

  lemma PopClosesQueue(s: Node, n: nat, t: Node)
    requires QueueClosed(s) && Pops(s, n, t)
    ensures QueueClosed(t)
  {
    hide Before, Ids;
    IdsOfNone();
    var ch := s.queue.ch;
    forall j | 0 <= j < |t.queue.ch|
      ensures Before(t.spool.lines, OffsetOf(t, t.queue.ch[j])) <= Ids(t.wire) + Ids(t.pending) + Ids(t.queue.ch[..j])
    {
      assert ch[..n + j] == ch[..n] + ch[n..][..j];
      IdsOfConcat(ch[..n], ch[n..][..j]);
    }
  }

  lemma PassKeepsOrder(s: Node, count: nat, when: string)
    requires Consistent(s)
    ensures Keeps(s, Sent(s, count, when))
  {
    hide BooksInv, OrderInv, Placed, Prioritized;
    SendKeepsBooks(s, count, when);
    if s.pending != [] && s.phase == Sending {
      var batch := Prioritized(s.pending);
      PrioritizedKeepsIds(s.pending);
      SendKeepsOrder(s, if count < |batch| then batch[..count] else batch, Sent(s, count, when));
    }
  }

  lemma SendKeepsOrder(s: Node, sent: seq<Event>, t: Node)
    requires OrderInv(s)
    requires t.wire == s.wire + sent && t.spool == s.spool && t.offsets == s.offsets && t.queue.ch == s.queue.ch
    requires Ids(t.pending) == Ids(s.pending) && forall e :: e in t.pending ==> e in s.pending
    ensures OrderInv(t) && Placed(s) <= Placed(t)
  {
    IdsOfConcat(s.wire, sent);
    assert forall e :: OffsetOf(t, e) == OffsetOf(s, e);
  }

  /** No outcome of a checkpoint write passes an unsent record. */
  lemma MarkKeepsOrder(s: Node, write: CheckpointWrite)
    requires Consistent(s)
    ensures Keeps(s, Marked(s, write))
  {
    hide BooksInv, WatermarkInv, BatchClosed, QueueClosed, AllPlaced, MaxOffset;
    MarkKeepsBooks(s, write);
    if s.phase == Counted {
      MarkKeepsWatermark(s, write);
      MarkKeepsFlow(s, Marked(s, write));
    }
  }

  lemma MarkKeepsFlow(s: Node, t: Node)
    requires BatchClosed(s) && QueueClosed(s)
    requires t == s.(phase := t.phase, spool := s.spool.(checkpoint := t.spool.checkpoint))
    ensures BatchClosed(t) && QueueClosed(t) && AllPlaced(t) == AllPlaced(s)
  {
    assert forall e :: OffsetOf(t, e) == OffsetOf(s, e);
  }

  lemma MarkKeepsWatermark(s: Node, write: CheckpointWrite)
    requires Consistent(s) && s.phase == Counted
    ensures WatermarkInv(Marked(s, write))
  {
    hide MaxOffset, Before, BooksInv, BatchClosed, QueueClosed;
    NoneBeforeOne(s.spool.lines);
    if MaxOffset(s.pending, s.offsets).Some? { EarnedIsSent(s); }
  }

  /** Everything up to the offset a delivered batch earns has been sent. */
  lemma EarnedIsSent(s: Node)
    requires BooksInv(s) && BatchClosed(s) && s.phase == Counted && MaxOffset(s.pending, s.offsets).Some?
    ensures var best := MaxOffset(s.pending, s.offsets).value;
      Before(s.spool.lines, best + 1) <= Ids(s.wire) && best < FileSize(s.spool.lines)
  {
    hide MaxOffset, Before, DiskInv, OffsetInv, OnSpool;
    MaxOffsetIsGreatest(s.pending, s.offsets);
    FormOfBooks(s);
    var e :| e in s.pending && e.id in s.offsets && s.offsets[e.id] == MaxOffset(s.pending, s.offsets).value;
    HeldOnSpool(s, e);
    HeldIsSent(s, e);
    assert Before(s.spool.lines, OffsetOf(s, e)) <= Ids(s.wire);
    UpToIsSent(s.spool.lines, e.id, s.offsets[e.id], Ids(s.wire));
  }

  lemma HeldIsSent(s: Node, e: Event)
    requires e in s.pending && Ids(s.pending) <= Ids(s.wire)
    ensures e.id in Ids(s.wire)
  {
    assert e.id in Ids(s.pending);
  }

  lemma NoneBeforeOne(lines: seq<Line>)
    ensures Before(lines, 1) == {}
  {
  }

  lemma FormOfBooks(s: Node)
    requires BooksInv(s)
    ensures WellFormed(s.spool.lines)
  {
  }

  /** With everything older sent and the record itself sent, everything up to it is sent. */
  lemma UpToIsSent(lines: seq<Line>, id: string, offset: nat, sent: set<string>)
    requires WellFormed(lines) && OnSpool(lines, id, offset)
    requires Before(lines, offset) <= sent && id in sent
    ensures Before(lines, offset + 1) <= sent && offset < FileSize(lines)
  {
    OffsetsIncrease(lines);
    var m :| m in lines && m.event.id == id && m.offset == offset;
    forall l | l in lines && 0 < l.offset < offset + 1 ensures l.event.id in sent {
      if l.offset == offset {
        assert l == m;
      } else {
        assert l.event.id in Before(lines, offset);
      }
    }
  }

  lemma CountKeepsOrder(s: Node, when: string)
    requires Consistent(s)
    ensures Keeps(s, SuccessCounted(s, when))
  {
    hide BooksInv, OrderInv, AllPlaced;
    CountKeepsBooks(s, when);
    FlowDecidesOrder(s, SuccessCounted(s, when));
  }

  lemma BatchIsSent(s: Node)
    requires QueueInv(s) && s.phase != Sending
    ensures Ids(s.pending) <= Ids(s.wire)
  {
  }

  lemma ForgetKeepsOrder(s: Node)
    requires Consistent(s)
    ensures Keeps(s, Forgotten(s))
  {
    hide OrderInv, Placed, QueueInv, OffsetInv, DiskInv;
    ForgetKeepsBooks(s);
    if s.phase == Checkpointed {
      BatchIsSent(s);
      LettingGoKeepsOrder(s, Forgotten(s));
    }
  }

  lemma LettingGoKeepsOrder(s: Node, t: Node)
    requires OrderInv(s) && Ids(s.pending) <= Ids(s.wire)
    requires t.spool == s.spool && t.wire == s.wire && t.offsets == s.offsets && t.queue == s.queue && t.pending == []
    ensures OrderInv(t) && Placed(t) == Placed(s)
  {
    assert forall e :: OffsetOf(t, e) == OffsetOf(s, e);
  }

  /** A restart keeps the order exactly when it can scan the event log, however much is to be refilled. */
  lemma RestartKeepsOrderIff(s: Node, read: Event -> Event)
    requires Consistent(s) && KeepsIds(read)
    ensures Consistent(Restarted(s, read)) <==> StoreScannable(s.store)
    ensures StoreScannable(s.store) && s.savedCfg.Enabled() ==>
      (AllPlaced(Restarted(s, read)) <==> Unplaced(Blank(s, read), read) <= Ids(s.wire))
  {
    hide BooksInv, OrderInv, AllPlaced, Refilled, Unplaced;
    RestartKeepsBooksIff(s, read);
    if StoreScannable(s.store) {
      BlankKeepsBooks(s, read);
      BlankKeepsOrder(s, read);
      RefillPlacesIff(Blank(s, read), read);
    }
  }

  lemma BlankKeepsOrder(s: Node, read: Event -> Event)
    requires OrderInv(s)
    ensures OrderInv(Blank(s, read))
  {
    SameSpoolSameWatermark(s, Blank(s, read));
  }

  lemma RestartKeepsSafeIff(s: Node, read: Event -> Event)
    requires Safe(s) && KeepsIds(read)
    ensures Safe(Restarted(s, read)) <==>
      StoreScannable(s.store) && (s.savedCfg.Enabled() ==> Unplaced(Blank(s, read), read) <= Ids(s.wire))
  {
    hide Consistent, AllPlaced, Unplaced, Refilled, Blank;
    RestartKeepsOrderIff(s, read);
    RestartKeepsConfig(s, read);
  }

  lemma RestartKeepsConfig(s: Node, read: Event -> Event)
    ensures Restarted(s, read).cfg == s.savedCfg
  {
    RestartForgets(s, read);
  }

  // ----- every step, every run -----

  /** The records a step strands: accepted or recoverable, yet neither sent nor on their way. */
  function Stranded(s: Node, step: Step, read: Event -> Event): set<string> {
    match step
    case Ingest(e, io) => if Accepts(s, e, io) && s.queue.Full() then {e.id} else {}
    case Configure(cfg, saved) => (if saved.Saved? then Unplaced(s, read) else Waiting(s, read)) - Ids(s.wire)
    case Crash => Unplaced(Blank(s, read), read) - Ids(s.wire)
    case _ => {}
  }

  function ConfigAfter(s: Node, step: Step): Config {
    match step
    case Configure(cfg, _) => cfg
    case Crash => s.savedCfg
    case _ => s.cfg
  }

  /** What the pipeline asks of a step: that it strands nothing while forwarding is enabled, and that
      a restart can scan the event log. */
  predicate Guard(s: Node, step: Step, read: Event -> Event) {
    (ConfigAfter(s, step).Enabled() ==> Stranded(s, step, read) == {})
    && (step.Crash? ==> StoreScannable(s.store))
  }

  /** The three steps that can strand a record. */
  lemma IngestIsGuarded(s: Node, e: Event, io: Appends, read: Event -> Event)
    requires Safe(s) && e.id != ""
    ensures Safe(Next(s, Ingest(e, io), read)) <==> Guard(s, Ingest(e, io), read)
  {
    IngestKeepsSafeIff(s, e, io);
    assert e.id in {e.id};
  }

  lemma GuardOfConfigure(s: Node, cfg: Config, saved: Save, read: Event -> Event)
    ensures Guard(s, Configure(cfg, saved), read) <==>
      (cfg.Enabled() ==> (if saved.Saved? then Unplaced(s, read) else Waiting(s, read)) <= Ids(s.wire))
  {
    NoneLeft(if saved.Saved? then Unplaced(s, read) else Waiting(s, read), Ids(s.wire));
  }

  lemma ConfigureIsGuarded(s: Node, cfg: Config, saved: Save, read: Event -> Event)
    requires Safe(s) && KeepsIds(read)
    ensures Safe(Next(s, Configure(cfg, saved), read)) <==> Guard(s, Configure(cfg, saved), read)
  {
    hide Safe, Guard, Configured, Unplaced, Waiting;
    ConfigureKeepsSafeIff(s, cfg, saved, read);
    GuardOfConfigure(s, cfg, saved, read);
  }

  lemma GuardOfCrash(s: Node, read: Event -> Event)
    ensures Guard(s, Crash, read) <==>
      StoreScannable(s.store) && (s.savedCfg.Enabled() ==> Unplaced(Blank(s, read), read) <= Ids(s.wire))
  {
    NoneLeft(Unplaced(Blank(s, read), read), Ids(s.wire));
  }

  lemma CrashIsGuarded(s: Node, read: Event -> Event)
    requires Safe(s) && KeepsIds(read)
    ensures Safe(Next(s, Crash, read)) <==> Guard(s, Crash, read)
  {
    hide Safe, Guard, Restarted, Blank, Unplaced;
    RestartKeepsSafeIff(s, read);
    GuardOfCrash(s, read);
  }

  lemma NoneLeft(a: set<string>, b: set<string>)
    ensures a - b == {} <==> a <= b
  {
    assert a - b == {} ==> forall x :: x in a ==> x in b || x in a - b;
  }

  /** Every other step keeps the order, and everything placed. */
  lemma OthersKeepOrder(s: Node, step: Step, read: Event -> Event)
    requires Consistent(s) && KeepsIds(read) && !step.Ingest? && !step.Configure? && !step.Crash?
    ensures Keeps(s, Next(s, step, read))
  {
    hide Keeps, Consistent, Refilled, Popped, Sent, SuccessCounted, Marked, Forgotten;
    match step
    case Refill => RefillKeepsOrder(s, read);
    case Pop(max) => PopKeepsOrder(s, max);
    case Send(count, when) => PassKeepsOrder(s, count, when);
    case CountSuccess(when) => CountKeepsOrder(s, when);
    case Checkpoint(write) => MarkKeepsOrder(s, write);
    case Forget => ForgetKeepsOrder(s);
  }

  /** A step keeps the pipeline safe exactly when its guard holds. */
  lemma StepKeepsSafeIff(s: Node, step: Step, read: Event -> Event)
    requires Safe(s) && Named(step) && KeepsIds(read)
    ensures Safe(Next(s, step, read)) <==> Guard(s, step, read)
  {
    hide Consistent, AllPlaced, Unplaced, Waiting;
    match step
    case Ingest(e, io) => IngestIsGuarded(s, e, io, read);
    case Configure(cfg, saved) => ConfigureIsGuarded(s, cfg, saved, read);
    case Crash => CrashIsGuarded(s, read);
    case _ =>
      OthersKeepOrder(s, step, read);
  }

  predicate Guarded(s: Node, steps: seq<Step>, read: Event -> Event)
    decreases |steps|
  {
    steps != [] ==> Guard(s, steps[0], read) && Guarded(Next(s, steps[0], read), steps[1..], read)
  }

  ghost predicate SafeThroughout(s: Node, steps: seq<Step>, read: Event -> Event)
    decreases |steps|
  {
    Safe(s) && (steps != [] ==> SafeThroughout(Next(s, steps[0], read), steps[1..], read))
  }

  /** A run is safe in every state exactly when every step of it is guarded. */
  lemma {:induction false} RunIsSafeIff(s: Node, steps: seq<Step>, read: Event -> Event)
    requires Safe(s) && KeepsIds(read) && forall step :: step in steps ==> Named(step)
    ensures SafeThroughout(s, steps, read) <==> Guarded(s, steps, read)
    ensures Guarded(s, steps, read) ==> Safe(Run(s, steps, read))
    decreases |steps|
  {
    if steps != [] {
      StepKeepsSafeIff(s, steps[0], read);
      if Guard(s, steps[0], read) {
        RunIsSafeIff(Next(s, steps[0], read), steps[1..], read);
      }
    }
  }

  lemma InstalledIsSafe(queueSize: nat, cfg: Config)
    ensures Safe(Installed(queueSize, cfg))
  {
    InstalledKeepsBooks(queueSize, cfg);
  }

  // ----- what safety is for -----

  /** An event that was spooled and has not been sent. */
  predicate Unsent(s: Node, l: Line) {
    l in s.spool.lines && l.event.id !in Ids(s.wire)
  }

  /** Loading the pending records gives the event back. */
  predicate Recovered(s: Node, l: Line, read: Event -> Event) {
    var loaded := Pending(s.spool, read);
    loaded.Ok? && SpoolRecord(l.offset, read(l.event)) in loaded.value
  }

  lemma PassedIsSent(s: Node, l: Line)
    requires WatermarkInv(s) && l in s.spool.lines
    ensures 0 < l.offset <= s.spool.checkpoint ==> l.event.id in Ids(s.wire)
  {
    if 0 < l.offset <= s.spool.checkpoint {
      assert l.event.id in Before(s.spool.lines, s.spool.checkpoint + 1);
    }
  }

  /** Loading the pending records gives back an unsent event exactly when no line of the spool is too
      long to scan and the event is not the very first record. */
  lemma UnsentIsRecoveredIff(s: Node, l: Line, read: Event -> Event)
    requires DiskInv(s) && WatermarkInv(s) && Unsent(s, l)
    ensures Recovered(s, l, read) <==> Scannable(s.spool.lines) && l != s.spool.lines[0]
  {
    var i :| 0 <= i < |s.spool.lines| && s.spool.lines[i] == l;
    PassedIsSent(s, l);
    RecoveredIff(s.spool.lines, i, s.spool.checkpoint, read);
    FirstIsZero(s.spool.lines, i);
  }

  lemma FirstIsZero(lines: seq<Line>, i: nat)
    requires WellFormed(lines) && i < |lines|
    ensures lines[i].offset == 0 <==> lines[i] == lines[0]
  {
    OffsetsIncrease(lines);
  }

  lemma RecoveredIff(lines: seq<Line>, i: nat, checkpoint: nat, read: Event -> Event)
    requires WellFormed(lines) && i < |lines|
    ensures SpoolRecord(lines[i].offset, read(lines[i].event)) in PendingRecords(lines, checkpoint, read) <==>
      lines[i].offset > checkpoint
  {
    PendingAreThePast(lines, checkpoint, read);
  }

  /** In no state at all does the spool give back its first record. */
  lemma FirstRecordIsNotRecovered(s: Node, l: Line, read: Event -> Event)
    requires WellFormed(s.spool.lines) && l in s.spool.lines && l.offset == 0
    ensures !Recovered(s, l, read)
  {
    PendingAreThePast(s.spool.lines, s.spool.checkpoint, read);
  }

  /** What the checkpoint has passed was sent, and what is unsent, the first record apart, is read back
      exactly when the spool can be scanned. */
  ghost predicate NonePassed(t: Node, read: Event -> Event) {
    && (forall l :: l in t.spool.lines && 0 < l.offset <= t.spool.checkpoint ==> l.event.id in Ids(t.wire))
    && (forall l :: Unsent(t, l) && l.offset > 0 ==> (Recovered(t, l, read) <==> Scannable(t.spool.lines)))
  }

  lemma ConsistentPassesNone(t: Node, read: Event -> Event)
    requires Consistent(t)
    ensures NonePassed(t, read)
  {
    hide Recovered, Scannable, QueueInv, OffsetInv, BatchClosed, QueueClosed;
    OffsetsIncrease(t.spool.lines);
    forall l | l in t.spool.lines && 0 < l.offset <= t.spool.checkpoint ensures l.event.id in Ids(t.wire) {
      PassedIsSent(t, l);
    }
    forall l | Unsent(t, l) && l.offset > 0 ensures Recovered(t, l, read) <==> Scannable(t.spool.lines) {
      UnsentIsRecoveredIff(t, l, read);
    }
  }

  lemma PlacedIsQueued(t: Node)
    requires DiskInv(t) && AllPlaced(t)
    ensures forall l :: Unsent(t, l) && l.offset > 0 ==> l.event.id in Ids(t.pending) + Ids(t.queue.ch)
  {
    OffsetsIncrease(t.spool.lines);
    forall l | Unsent(t, l) && l.offset > 0 ensures l.event.id in Ids(t.pending) + Ids(t.queue.ch) {
      assert l.event.id in AllIds(t.spool.lines);
    }
  }

  /** For every run of a new collector in which each step is guarded, whatever crashes, failed sends
      and failed checkpoint writes it contains: nothing unsent is passed and, with forwarding enabled,
      every spooled event after the first is sent or queued. (`Overtaking.NothingIsPassed` has the first
      part for more runs.) */
  lemma NothingIsLost(queueSize: nat, cfg: Config, steps: seq<Step>, read: Event -> Event)
    requires KeepsIds(read) && (forall step :: step in steps ==> Named(step))
    requires Guarded(Installed(queueSize, cfg), steps, read)
    ensures var t := Run(Installed(queueSize, cfg), steps, read);
      && NonePassed(t, read)
      && (t.cfg.Enabled() ==>
            forall l :: Unsent(t, l) && l.offset > 0 ==> l.event.id in Ids(t.pending) + Ids(t.queue.ch))
  {
    hide NonePassed, Unsent, AllPlaced;
    var t := Run(Installed(queueSize, cfg), steps, read);
    InstalledIsSafe(queueSize, cfg);
    RunIsSafeIff(Installed(queueSize, cfg), steps, read);
    ConsistentPassesNone(t, read);
    if t.cfg.Enabled() { PlacedIsQueued(t); }
  }
}
