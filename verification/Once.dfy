/** When an event is sent twice: a pass that fails part of the way, a checkpoint write that fails and a
    crash before the checkpoint are what it takes; in a run without them no event is sent twice. */
module Once {
  import opened Event
  import opened Spool
  import opened Queue
  import opened Batch
  import opened Delivery
  import opened Books
  import opened EventLog
  import opened Watermark
  import opened Overtaking

  /** IDs up to an offset, the first record included. */
  function UpTo(lines: seq<Line>, offset: nat): set<string> {
    set l | l in lines && l.offset <= offset :: l.event.id
  }

  /** The first record, whose offset 0 no checkpoint lies below. */
  predicate IsFirst(s: Node, id: string) {
    s.spool.lines != [] && s.spool.lines[0].event.id == id
  }

  /** What waits has not been sent, and what was sent before this batch is behind the checkpoint. */
  ghost predicate SentInv(s: Node) {
    && |Ids(s.wire)| == |s.wire|
    && Ids(s.queue.ch) !! Ids(s.wire)
    && (s.phase == Sending ==> Ids(s.pending) !! Ids(s.wire))
    && Ids(s.wire) - Ids(s.pending) <= UpTo(s.spool.lines, s.spool.checkpoint)
  }

  /** The batch is ahead of the checkpoint until it is checkpointed, and behind it afterwards. */
  ghost predicate BatchInv(s: Node) {
    && (s.phase != Checkpointed ==> forall e :: e in s.pending ==>
          if IsFirst(s, e.id) then s.spool.checkpoint == 0 else e.id !in UpTo(s.spool.lines, s.spool.checkpoint))
    && (s.phase == Checkpointed ==> Ids(s.pending) <= UpTo(s.spool.lines, s.spool.checkpoint))
  }

  /** The first record can only be queued at the very front, before any checkpoint. */
  ghost predicate FrontInv(s: Node) {
    forall j :: 0 <= j < |s.queue.ch| && IsFirst(s, s.queue.ch[j].id) ==>
      j == 0 && s.pending == [] && s.spool.checkpoint == 0
  }

  ghost predicate OnceInv(s: Node) {
    SentInv(s) && BatchInv(s) && FrontInv(s)
  }

  lemma EnqueueKeepsOnce(s: Node, e: Event, offset: nat)
    requires OnceInv(s) && e.id !in Ids(s.wire)
    requires IsFirst(s, e.id) ==> s.queue.ch == [] && s.pending == [] && s.spool.checkpoint == 0
    ensures OnceInv(Enqueue(s, e, offset))
  {
    IdsOfConcat(s.queue.ch, [e]);
    assert Ids([e]) == {e.id};
  }

  lemma UpToIff(lines: seq<Line>, l: Line, offset: nat)
    requires OneLineEach(lines) && l in lines
    ensures l.event.id in UpTo(lines, offset) <==> l.offset <= offset
  {
    if l.event.id in UpTo(lines, offset) {
      var m :| m in lines && m.offset <= offset && m.event.id == l.event.id;
      OneLinePerId(lines, l, m);
    }
  }

  lemma FirstHasNoOffset(lines: seq<Line>, l: Line)
    requires WellFormed(lines) && OneLineEach(lines) && l in lines
    ensures l.event.id == lines[0].event.id <==> l.offset == 0
  {
    OffsetsIncrease(lines);
    var i :| 0 <= i < |lines| && lines[i] == l;
  }

  /** A record past the checkpoint that is not in flight was never sent. */
  lemma WaitingIsUnsent(s: Node, r: SpoolRecord)
    requires BooksInv(s) && SentInv(s) && OnSpool(s.spool.lines, r.event.id, r.offset)
    requires r.offset > s.spool.checkpoint && r.event.id !in s.inflight
    ensures r.event.id !in Ids(s.wire) && !IsFirst(s, r.event.id)
  {
    OffsetsIncrease(s.spool.lines);
    var l :| l in s.spool.lines && l.event.id == r.event.id && l.offset == r.offset;
    FirstHasNoOffset(s.spool.lines, l);
    UpToIff(s.spool.lines, l, s.spool.checkpoint);
  }

  /** Records past the checkpoint. */
  ghost predicate Ahead(files: Files, rs: seq<SpoolRecord>) {
    forall r :: r in rs ==> OnSpool(files.lines, r.event.id, r.offset) && r.offset > files.checkpoint
  }

  lemma EnqueueOneKeepsOnce(s: Node, r: SpoolRecord)
    requires BooksInv(s) && OnceInv(s) && Ahead(s.spool, [r])
    ensures OnceInv(Enqueue(s, r.event, r.offset))
  {
    assert r in [r];
    if r.event.id !in s.inflight {
      WaitingIsUnsent(s, r);
      EnqueueKeepsOnce(s, r.event, r.offset);
    }
  }

  lemma {:induction false} EnqueueAllKeepsOnce(s: Node, rs: seq<SpoolRecord>)
    requires BooksInv(s) && OnceInv(s) && Ahead(s.spool, rs)
    ensures OnceInv(EnqueueAll(s, rs))
    decreases |rs|
  {
    if rs != [] {
      hide BooksInv, OnceInv, OnSpool, Ahead, Enqueue;
      AheadOneByOne(s, rs);
      EnqueueKeepsBooks(s, rs[0].event, rs[0].offset);
      EnqueueOneKeepsOnce(s, rs[0]);
      EnqueueAllKeepsOnce(Enqueue(s, rs[0].event, rs[0].offset), rs[1..]);
    }
  }

  lemma AheadOneByOne(s: Node, rs: seq<SpoolRecord>)
    requires Ahead(s.spool, rs) && rs != []
    ensures Ahead(s.spool, [rs[0]]) && Ahead(Enqueue(s, rs[0].event, rs[0].offset).spool, rs[1..])
    ensures OnSpool(s.spool.lines, rs[0].event.id, rs[0].offset)
  {
    hide OnSpool;
  }

  lemma RefillKeepsOnce(s: Node, read: Event -> Event)
    requires BooksInv(s) && OnceInv(s) && KeepsIds(read)
    ensures OnceInv(Refilled(s, read))
  {
    PendingOnSpool(s.spool.lines, s.spool.checkpoint, read);
    PendingAreThePast(s.spool.lines, s.spool.checkpoint, read);
    if Scannable(s.spool.lines) { EnqueueAllKeepsOnce(s, Recoverable(s, read)); }
  }

  lemma UpToOneMore(lines: seq<Line>, l: Line, offset: nat)
    ensures UpTo(lines + [l], offset) == UpTo(lines, offset) + if l.offset <= offset then {l.event.id} else {}
  {
    assert forall m :: m in lines + [l] <==> m in lines || m == l;
  }

  lemma EmptySpoolHoldsNothing(s: Node)
    requires BooksInv(s) && s.spool.lines == []
    ensures s.pending == [] && s.queue.ch == []
  {
    assert forall id, offset :: !OnSpool([], id, offset);
    assert s.inflight == {};
  }

  lemma HeldIsNotNew(s: Node, l: Line, e: Event)
    requires BooksInv(s) && l.event.id !in s.seen && e in s.pending + s.queue.ch
    ensures e.id != l.event.id && s.spool.lines != []
  {
    HeldOnSpool(s, e);
  }

  lemma NewLineKeepsSent(s: Node, t: Node, l: Line)
    requires SentInv(s) && AddsLine(s, t, l)
    ensures SentInv(t)
  {
    UpToOneMore(s.spool.lines, l, s.spool.checkpoint);
  }

  lemma NewLineKeepsFirst(s: Node, t: Node, l: Line, e: Event)
    requires BooksInv(s) && AddsLine(s, t, l) && e in s.pending + s.queue.ch
    ensures e.id != l.event.id && (IsFirst(t, e.id) <==> IsFirst(s, e.id))
  {
    HeldIsNotNew(s, l, e);
    assert t.spool.lines[0] == s.spool.lines[0];
  }

  lemma NewLineKeepsBatch(s: Node, t: Node, l: Line)
    requires BooksInv(s) && BatchInv(s) && AddsLine(s, t, l)
    ensures BatchInv(t)
  {
    hide BooksInv, IsFirst, UpTo;
    var was, upTo := UpTo(s.spool.lines, s.spool.checkpoint), UpTo(t.spool.lines, t.spool.checkpoint);
    UpToOneMore(s.spool.lines, l, s.spool.checkpoint);
    assert was <= upTo <= was + {l.event.id};
    forall e | e in s.pending ensures e.id in was <==> e.id in upTo {
      NewLineKeepsFirst(s, t, l, e);
    }
    forall e | e in s.pending ensures IsFirst(t, e.id) <==> IsFirst(s, e.id) {
      NewLineKeepsFirst(s, t, l, e);
    }
  }

  lemma NewLineKeepsFront(s: Node, t: Node, l: Line)
    requires BooksInv(s) && FrontInv(s) && AddsLine(s, t, l)
    ensures FrontInv(t)
  {
    forall j | 0 <= j < |s.queue.ch| ensures IsFirst(t, s.queue.ch[j].id) <==> IsFirst(s, s.queue.ch[j].id) {
      NewLineKeepsFirst(s, t, l, s.queue.ch[j]);
    }
  }

  lemma AcceptKeepsOnce(s: Node, t: Node, l: Line)
    requires BooksInv(s) && OrderInv(s) && OnceInv(s) && AddsLine(s, t, l)
    ensures OnceInv(t) && OnceInv(Enqueue(t, l.event, l.offset))
  {
    NewLineKeepsSent(s, t, l);
    NewLineKeepsBatch(s, t, l);
    NewLineKeepsFront(s, t, l);
    PlacedAreSeen(s);
    NewIsFirstIff(s, t, l);
    EnqueueKeepsOnce(t, l.event, l.offset);
  }

  lemma FlowDecidesOnce(s: Node, t: Node)
    requires OnceInv(s) && SameFlow(s, t) && t.phase == s.phase
    ensures OnceInv(t)
  {
  }

  lemma IngestKeepsOnce(s: Node, e: Event, io: Appends)
    requires BooksInv(s) && OrderInv(s) && OnceInv(s) && e.id != ""
    ensures OnceInv(Ingested(s, e, io))
  {
    hide BooksInv, OrderInv, OnceInv, Logged, Enqueue;
    if Accepts(s, e, io) {
      AcceptedAddsLine(s, e, io);
      AcceptKeepsOnce(s, Logged(s, e, io), Line(FileSize(s.spool.lines), e, io.spoolSize));
    } else {
      RefusedKeepsFlow(s, e, io);
      FlowDecidesOnce(s, Logged(s, e, io));
    }
  }

  lemma NewIsFirstIff(s: Node, t: Node, l: Line)
    requires BooksInv(s) && WatermarkInv(s) && AddsLine(s, t, l)
    ensures IsFirst(t, l.event.id) ==> t.queue.ch == [] && t.pending == [] && t.spool.checkpoint == 0
  {
    if s.spool.lines == [] {
      EmptySpoolHoldsNothing(s);
    } else {
      assert t.spool.lines[0] == s.spool.lines[0] && s.spool.lines[0].event.id in SpoolIds(s.spool.lines);
    }
  }

  lemma PopKeepsOnce(s: Node, max: int)
    requires BooksInv(s) && OrderInv(s) && OnceInv(s)
    ensures OnceInv(Popped(s, max))
  {
    hide BooksInv, OrderInv, SentInv, BatchInv, FrontInv;
    var t := Popped(s, max);
    if s.pending == [] {
      PopKeepsSent(s, BatchSize(s.queue, max), t);
      PopKeepsBatch(s, BatchSize(s.queue, max), t);
      PopKeepsFront(s, BatchSize(s.queue, max), t);
    } else {
      FlowDecidesOnce(s, t);
    }
  }

  lemma PopKeepsFront(s: Node, n: nat, t: Node)
    requires FrontInv(s) && Pops(s, n, t) && (n == 0 ==> s.queue.ch == [])
    ensures FrontInv(t)
  {
    hide IsFirst;
    assert forall id :: IsFirst(t, id) == IsFirst(s, id) by { SameFirst(s, t); }
    assert forall j :: 0 <= j < |t.queue.ch| ==> t.queue.ch[j] == s.queue.ch[n + j];
  }

  lemma SameFirst(s: Node, t: Node)
    requires t.spool == s.spool
    ensures forall id :: IsFirst(t, id) == IsFirst(s, id)
  {
  }

  lemma PopKeepsSent(s: Node, n: nat, t: Node)
    requires SentInv(s) && Pops(s, n, t)
    ensures SentInv(t)
  {
    assert s.queue.ch == t.pending + t.queue.ch;
    IdsOfConcat(t.pending, t.queue.ch);
  }

  lemma PopKeepsBatch(s: Node, n: nat, t: Node)
    requires BooksInv(s) && OrderInv(s) && OnceInv(s) && Pops(s, n, t) && t.phase == s.phase
    ensures BatchInv(t)
  {
    forall e | e in t.pending
      ensures if IsFirst(t, e.id) then t.spool.checkpoint == 0 else e.id !in UpTo(t.spool.lines, t.spool.checkpoint)
    {
      assert e in s.queue.ch && e.id in Ids(s.queue.ch);
      if !IsFirst(s, e.id) { UnsentIsAhead(s, e.id); }
    }
  }

  /** What is not sent, the first record apart, is ahead of the checkpoint. */
  lemma UnsentIsAhead(s: Node, id: string)
    requires DiskInv(s) && WatermarkInv(s) && id !in Ids(s.wire) && !IsFirst(s, id)
    ensures id !in UpTo(s.spool.lines, s.spool.checkpoint)
  {
    OffsetsIncrease(s.spool.lines);
    forall l | l in s.spool.lines && l.offset <= s.spool.checkpoint ensures l.event.id != id {
      if l.offset > 0 {
        assert l.event.id in Before(s.spool.lines, s.spool.checkpoint + 1);
      } else {
        var i :| 0 <= i < |s.spool.lines| && s.spool.lines[i] == l;
      }
    }
  }

  lemma HeldOnce(s: Node)
    requires QueueInv(s)
    ensures |Ids(s.pending)| == |s.pending| && Ids(s.pending) !! Ids(s.queue.ch)
  {
    var a, b := Ids(s.pending), Ids(s.queue.ch);
    IdsAtMost(s.pending);
    IdsAtMost(s.queue.ch);
    assert a + b == b + a;
    FullUnionIsDisjoint(a, b, |s.pending|, |s.queue.ch|);
    FullUnionIsDisjoint(b, a, |s.queue.ch|, |s.pending|);
  }

  lemma SendKeepsOnce(s: Node, count: nat, when: string)
    requires BooksInv(s) && OnceInv(s) && (s.phase == Sending ==> count >= |s.pending|)
    ensures OnceInv(Sent(s, count, when))
  {
    if s.pending != [] && s.phase == Sending {
      hide DiskInv, QueueInv, OffsetInv, OnceInv, Ids, Prioritized;
      PrioritizedKeepsIds(s.pending);
      HeldOnce(s);
      SendsOnce(s, Sent(s, count, when));
    }
  }

  lemma SendsOnce(s: Node, t: Node)
    requires OnceInv(s) && s.phase == Sending && |Ids(s.pending)| == |s.pending| && Ids(s.pending) !! Ids(s.queue.ch)
    requires t == s.(pending := t.pending, wire := s.wire + t.pending, phase := Delivered)
    requires Ids(t.pending) == Ids(s.pending) && |t.pending| == |s.pending|
    requires forall e :: e in t.pending ==> e in s.pending
    ensures OnceInv(t)
  {
    hide Ids, UpTo;
    IdsOfConcat(s.wire, t.pending);
    SameFirst(s, t);
    assert Ids(t.wire) - Ids(t.pending) == Ids(s.wire) - Ids(s.pending);
    assert s.pending != [] ==> forall j :: 0 <= j < |s.queue.ch| ==> !IsFirst(s, s.queue.ch[j].id);
    if s.pending == [] { assert t.pending == []; }
  }

  lemma BatchIsUpTo(s: Node, e: Event, offset: nat)
    requires BooksInv(s) && BatchInv(s) && s.phase == Counted && e in s.pending
    ensures e.id in s.offsets && (e.id in UpTo(s.spool.lines, offset) <==> s.offsets[e.id] <= offset)
    ensures s.spool.checkpoint <= s.offsets[e.id]
  {
    hide QueueInv, OffsetInv;
    HeldOnSpool(s, e);
    var l :| l in s.spool.lines && l.event.id == e.id && l.offset == s.offsets[e.id];
    UpToIff(s.spool.lines, l, offset);
    UpToIff(s.spool.lines, l, s.spool.checkpoint);
  }

  lemma BatchIsBehind(s: Node)
    requires BooksInv(s) && BatchInv(s) && s.phase == Counted
    ensures MaxOffset(s.pending, s.offsets).Some? && var best := MaxOffset(s.pending, s.offsets).value;
      Ids(s.pending) <= UpTo(s.spool.lines, best) && s.spool.checkpoint <= best
  {
    hide DiskInv, QueueInv, OffsetInv, BatchInv, MaxOffset, UpTo;
    BatchIsHeld(s);
    MaxOffsetIsGreatest(s.pending, s.offsets);
    var best := MaxOffset(s.pending, s.offsets).value;
    forall e | e in s.pending ensures e.id in UpTo(s.spool.lines, best) && s.spool.checkpoint <= best {
      BatchIsUpTo(s, e, best);
    }
    assert s.pending[0] in s.pending;
  }

  lemma MarkKeepsOnce(s: Node)
    requires BooksInv(s) && OnceInv(s)
    ensures OnceInv(Marked(s, Written))
  {
    if s.phase == Counted {
      hide DiskInv, QueueInv, OffsetInv, UpTo, BatchInv, FrontInv, MaxOffset;
      var t := Marked(s, Written);
      BatchIsHeld(s);
      BatchIsBehind(s);
      UpToGrows(s.spool.lines, s.spool.checkpoint, t.spool.checkpoint);
      BehindAfterMark(s, t);
    }
  }

  lemma BatchIsHeld(s: Node)
    requires QueueInv(s) && OffsetInv(s) && s.phase != Sending
    ensures s.pending != [] && Ids(s.pending) <= Ids(s.wire) && MaxOffset(s.pending, s.offsets).Some?
  {
    hide MaxOffset;
    HeldOnSpool(s, s.pending[0]);
    MaxOffsetIsGreatest(s.pending, s.offsets);
  }

  /** The batch is the very first record and nothing else. */
  predicate FirstAlone(s: Node) {
    |s.pending| == 1 && IsFirst(s, s.pending[0].id)
  }

  /** A batch before its checkpoint lies behind the old one only if it is the first record alone. */
  lemma BatchBehindIff(s: Node)
    requires BooksInv(s) && OnceInv(s) && s.phase != Sending && s.phase != Checkpointed
    ensures Ids(s.wire) <= UpTo(s.spool.lines, s.spool.checkpoint) <==> FirstAlone(s)
    ensures FirstAlone(s) ==> s.spool.checkpoint == 0
  {
    hide DiskInv, QueueInv, OffsetInv, FrontInv;
    HeldOnce(s);
    BatchIsHeld(s);
    if FirstAlone(s) {
      assert s.pending[0] in s.pending && s.spool.lines[0] in s.spool.lines;
      FirstIsBehind(s);
      assert Ids(s.pending) == {s.pending[0].id};
    } else {
      OnlyOneIsFirst(s);
      var e :| e in s.pending && !IsFirst(s, e.id);
      assert e.id in Ids(s.pending);
    }
  }

  lemma FirstIsBehind(s: Node)
    requires DiskInv(s) && s.spool.lines != []
    ensures s.spool.lines[0].event.id in UpTo(s.spool.lines, s.spool.checkpoint)
  {
    OffsetsIncrease(s.spool.lines);
    assert s.spool.lines[0] in s.spool.lines;
  }

  lemma OnlyOneIsFirst(s: Node)
    requires |Ids(s.pending)| == |s.pending| && s.pending != [] && !FirstAlone(s)
    ensures exists e :: e in s.pending && !IsFirst(s, e.id)
  {
    DistinctByCount(s.pending);
    assert s.pending[0] in s.pending;
    if |s.pending| > 1 { assert s.pending[1] in s.pending && s.pending[0].id != s.pending[1].id; }
  }

  /** A write that fails leaves sent records past the checkpoint, unless the batch is the first record. */
  lemma FailedMarkKeepsOnceIff(s: Node, write: CheckpointWrite)
    requires BooksInv(s) && OnceInv(s) && s.phase == Counted && !write.Written?
    ensures OnceInv(Marked(s, write)) <==> FirstAlone(s)
  {
    hide DiskInv, QueueInv, OffsetInv, OnceInv, UpTo, MaxOffset;
    var t := Marked(s, write);
    BatchIsHeld(s);
    BatchBehindIff(s);
    BehindAfterMark(s, t);
    if FirstAlone(s) {
      assert t.spool.checkpoint == s.spool.checkpoint;
    } else {
      UpToGrows(s.spool.lines, t.spool.checkpoint, s.spool.checkpoint);
    }
  }

  lemma UpToGrows(lines: seq<Line>, a: nat, b: nat)
    requires a <= b
    ensures UpTo(lines, a) <= UpTo(lines, b)
  {
  }

  lemma BehindAfterMark(s: Node, t: Node)
    requires OnceInv(s) && s.phase == Counted && Ids(s.pending) <= Ids(s.wire) && s.pending != []
    requires t == s.(phase := Checkpointed, spool := s.spool.(checkpoint := t.spool.checkpoint))
    ensures OnceInv(t) <==> Ids(s.wire) <= UpTo(s.spool.lines, t.spool.checkpoint)
  {
  }

  /** A crash leaves sent records past the checkpoint exactly when it finds a batch delivered but not
      checkpointed, the first record apart. */
  lemma CrashKeepsOnceIff(s: Node, read: Event -> Event)
    requires BooksInv(s) && OnceInv(s) && KeepsIds(read) && StoreScannable(s.store)
    ensures OnceInv(Restarted(s, read)) <==> s.phase == Sending || s.phase == Checkpointed || FirstAlone(s)
  {
    hide BooksInv, Refilled, BatchInv, FrontInv;
    if s.phase == Delivered || s.phase == Counted {
      BatchBehindIff(s);
    } else {
      BehindBetween(s);
    }
    RestartIsOnceIff(s, read);
  }

  lemma BehindBetween(s: Node)
    requires SentInv(s) && BatchInv(s) && (s.phase == Sending || s.phase == Checkpointed)
    ensures Ids(s.wire) <= UpTo(s.spool.lines, s.spool.checkpoint)
  {
  }

  lemma RestartIsOnceIff(s: Node, read: Event -> Event)
    requires BooksInv(s) && KeepsIds(read) && StoreScannable(s.store) && |Ids(s.wire)| == |s.wire|
    ensures OnceInv(Restarted(s, read)) <==> Ids(s.wire) <= UpTo(s.spool.lines, s.spool.checkpoint)
  {
    hide BooksInv, Refilled;
    RestartForgets(s, read);
    BlankKeepsBooks(s, read);
    if Ids(s.wire) <= UpTo(s.spool.lines, s.spool.checkpoint) { RefillKeepsOnce(Blank(s, read), read); }
    RestartHoldsNoBatch(s, read);
  }

  lemma RestartHoldsNoBatch(s: Node, read: Event -> Event)
    ensures Restarted(s, read).pending == []
  {
    RestartForgets(s, read);
  }

  lemma ConfigureKeepsOnce(s: Node, cfg: Config, saved: Save, read: Event -> Event)
    requires BooksInv(s) && OnceInv(s) && KeepsIds(read)
    ensures OnceInv(Configured(s, cfg, saved, read))
  {
    hide BooksInv, OnceInv, Refilled;
    var replaced := Replaced(s, cfg);
    FlowDecidesOnce(s, s.(cfg := cfg));
    FlowDecidesOnce(s, s.(cfg := cfg, savedCfg := s.env));
    FlowDecidesOnce(s, replaced);
    ReplacedKeepsBooks(s, cfg);
    RefillKeepsOnce(replaced, read);
  }

  lemma CountKeepsOnce(s: Node, when: string)
    requires OnceInv(s)
    ensures OnceInv(SuccessCounted(s, when))
  {
  }

  lemma ForgetKeepsOnce(s: Node)
    requires OnceInv(s)
    ensures OnceInv(Forgotten(s))
  {
  }

  /** What it takes to send nothing again: a pass that fails does so at its first event; a checkpoint
      write succeeds and no crash comes between the last send of a batch and its checkpoint, unless the
      batch is the first record alone. */
  predicate OnceGuard(s: Node, step: Step) {
    match step
    case Send(count, _) => s.phase == Sending ==> count == 0 || count >= |s.pending|
    case Checkpoint(write) => s.phase == Counted ==> write.Written? || FirstAlone(s)
    case Crash => s.phase == Sending || s.phase == Checkpointed || FirstAlone(s)
    case _ => true
  }

  /** In order, and nothing sent waits to be sent again. */
  ghost predicate Single(s: Node) {
    Consistent(s) && OnceInv(s)
  }

  lemma SendKeepsOnceIff(s: Node, count: nat, when: string)
    requires BooksInv(s) && OnceInv(s)
    ensures OnceInv(Sent(s, count, when)) <==> OnceGuard(s, Send(count, when))
  {
    hide SentInv, BatchInv, FrontInv, BooksInv, Ids, Prioritized;
    PrioritizedKeepsIds(s.pending);
    if s.pending != [] && s.phase == Sending && count < |s.pending| {
      PrioritizedKeepsIds(s.pending);
      PartIsSentIff(s, Sent(s, count, when), count);
    } else {
      SendKeepsOnce(s, count, when);
    }
  }

  lemma PartIsSentIff(s: Node, t: Node, count: nat)
    requires OnceInv(s) && s.phase == Sending && count <= |t.pending|
    requires Ids(t.pending) == Ids(s.pending) && (forall e :: e in t.pending <==> e in s.pending)
    requires t.wire == s.wire + t.pending[..count] && t.queue.ch == s.queue.ch && t.spool == s.spool
    requires t.phase == Sending && (t.pending == [] <==> s.pending == [])
    ensures OnceInv(t) <==> count == 0
  {
    if count == 0 {
      assert t.wire == s.wire;
    } else {
      var e := t.pending[0];
      assert t.wire[|s.wire|] == e && e in t.wire && e in t.pending;
      assert e.id in Ids(t.wire) * Ids(t.pending);
    }
  }

  lemma StepKeepsOnceIff(s: Node, step: Step, read: Event -> Event)
    requires Single(s) && Named(step) && KeepsIds(read) && OrderGuard(s, step)
    ensures OnceInv(Next(s, step, read)) <==> OnceGuard(s, step)
  {
    hide OnceInv, BooksInv, OrderInv, Ingested, Configured, Refilled, Popped, Sent, SuccessCounted, Forgotten,
      Restarted;
    match step
    case Ingest(e, io) => IngestKeepsOnce(s, e, io);
    case Configure(cfg, saved) => ConfigureKeepsOnce(s, cfg, saved, read);
    case Refill => RefillKeepsOnce(s, read);
    case Pop(max) => PopKeepsOnce(s, max);
    case Send(count, when) => SendKeepsOnceIff(s, count, when);
    case CountSuccess(when) => CountKeepsOnce(s, when);
    case Checkpoint(write) =>
      if write.Written? {
        MarkKeepsOnce(s);
      } else if s.phase == Counted {
        FailedMarkKeepsOnceIff(s, write);
      }
    case Forget => ForgetKeepsOnce(s);
    case Crash => CrashKeepsOnceIff(s, read);
  }

  /** A step leaves nothing sent to be sent again exactly when it is guarded. */
  lemma StepKeepsSingleIff(s: Node, step: Step, read: Event -> Event)
    requires Single(s) && Named(step) && KeepsIds(read)
    ensures Single(Next(s, step, read)) <==> OrderGuard(s, step) && OnceGuard(s, step)
  {
    hide Consistent, OnceInv, OrderGuard, OnceGuard, Next;
    StepKeepsOrderIff(s, step, read);
    if OrderGuard(s, step) { StepKeepsOnceIff(s, step, read); }
  }

  ghost predicate OnceGuarded(s: Node, steps: seq<Step>, read: Event -> Event)
    decreases |steps|
  {
    steps != [] ==>
      && OrderGuard(s, steps[0]) && OnceGuard(s, steps[0])
      && OnceGuarded(Next(s, steps[0], read), steps[1..], read)
  }

  ghost predicate SingleThroughout(s: Node, steps: seq<Step>, read: Event -> Event)
    decreases |steps|
  {
    Single(s) && (steps != [] ==> SingleThroughout(Next(s, steps[0], read), steps[1..], read))
  }

  lemma {:induction false} RunIsSingleIff(s: Node, steps: seq<Step>, read: Event -> Event)
    requires Single(s) && KeepsIds(read) && (forall step :: step in steps ==> Named(step))
    ensures SingleThroughout(s, steps, read) <==> OnceGuarded(s, steps, read)
    ensures OnceGuarded(s, steps, read) ==> Single(Run(s, steps, read))
    decreases |steps|
  {
    hide Single, OrderGuard, OnceGuard, Next;
    if steps != [] {
      StepKeepsSingleIff(s, steps[0], read);
      if OrderGuard(s, steps[0]) && OnceGuard(s,
        steps[0]) { RunIsSingleIff(Next(s, steps[0], read), steps[1..], read); }
    }
  }

  /** In a guarded run of a new collector no event is sent twice, whatever crashes between batches, refills,
      passes that fail at once and saves that fail it contains. */
  lemma NothingIsSentTwice(queueSize: nat, cfg: Config, steps: seq<Step>, read: Event -> Event)
    requires KeepsIds(read) && (forall step :: step in steps ==> Named(step))
    requires OnceGuarded(Installed(queueSize, cfg), steps, read)
    ensures var wire := Run(Installed(queueSize, cfg), steps, read).wire;
      forall i, j :: 0 <= i < j < |wire| ==> wire[i].id != wire[j].id
  {
    InstalledIsSafe(queueSize, cfg);
    RunIsSingleIff(Installed(queueSize, cfg), steps, read);
    DistinctByCount(Run(Installed(queueSize, cfg), steps, read).wire);
  }

  /** And a pass that fails further on does send again: the next pass starts with what this one has sent. */
  lemma FailedPassRepeats(s: Node, count: nat, when: string)
    requires 0 < count < |s.pending| && s.phase == Sending
    ensures var t := Sent(s, count, when);
      && |t.pending| == |s.pending| && t.wire == s.wire + t.pending[..count]
      && Sent(t, |t.pending|, when).wire == t.wire + t.pending
  {
    PrioritizedKeepsIds(s.pending);
    PrioritizedIsStableSort(s.pending);
  }

  lemma {:induction false} DistinctByCount(es: seq<Event>)
    requires |Ids(es)| == |es|
    ensures forall i, j :: 0 <= i < j < |es| ==> es[i].id != es[j].id
  {
    if es != [] {
      var front, last := es[..|es| - 1], es[|es| - 1];
      LastIsNew(front, last);
      assert es == front + [last];
      DistinctByCount(front);
      assert forall i :: 0 <= i < |front| ==> front[i].id in Ids(front);
    }
  }

  lemma LastIsNew(front: seq<Event>, last: Event)
    ensures |Ids(front + [last])| == |front| + 1 ==> |Ids(front)| == |front| && last.id !in Ids(front)
  {
    hide Ids;
    IdsOfConcat(front, [last]);
    IdsOfOne(last);
    IdsAtMost(front);
    assert last.id in Ids(front) ==> Ids(front) + {last.id} == Ids(front);
  }
}
