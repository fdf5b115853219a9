/** What the collector's operations come to, in the fields of its state (cmd/dmz-collector/main.go,
    internal/buffer/queue.go, internal/buffer/spool.go): which records a refill puts into the channel, what a
    change of the setting and a restart do, and what a turn of the worker sends and counts. */
module Operations {
  import opened Event
  import opened Wrappers
  import opened Spool
  import opened EventLog
  import opened Queue
  import opened Batch
  import opened Delivery
  import opened Watermark
  import opened Losses
  import opened Books
  import opened Turns
  import opened Sequences

  // ----- files -----

  /** The length of the texts of the lines. */
  function TextLength(lines: seq<Line>): nat {
    if lines == [] then 0 else TextLength(lines[..|lines| - 1]) + lines[|lines| - 1].size
  }

  /** A file is as long as the texts of its lines and a line end for each. */
  lemma {:induction false} FileSizeIs(lines: seq<Line>)
    ensures FileSize(lines) == TextLength(lines) + |lines|
  {
    if lines != [] { FileSizeIs(lines[..|lines| - 1]); }
  }

  /** Both files can be read exactly if every line is shorter than 64 KiB. */
  lemma ScansIff(s: Node, read: Event -> Event)
    ensures Scannable(s.spool.lines) <==> forall i :: 0 <= i < |s.spool.lines| ==> s.spool.lines[i].size < 65536
    ensures StoreScannable(s.store) <==> forall i :: 0 <= i < |s.store| ==> s.store[i].size < 65536
    ensures Pending(s.spool, read).Ok? <==> forall i :: 0 <= i < |s.spool.lines| ==> s.spool.lines[i].size < 65536
  {
  }

  // ----- refills -----

  function EventsIn(rs: seq<SpoolRecord>): (es: seq<Event>)
    ensures |es| == |rs|
  {
    seq(|rs|, i requires 0 <= i < |rs| => rs[i].event)
  }

  function First(rs: seq<SpoolRecord>, n: int): seq<SpoolRecord> {
    if n <= 0 then [] else if |rs| <= n then rs else rs[..n]
  }

  /** Nothing but the queue, the IDs in flight and the offsets changes. */
  ghost predicate OnlyQueues(s: Node, t: Node) {
    && t == s.(queue := t.queue, inflight := t.inflight, offsets := t.offsets)
    && t.queue.capacity == s.queue.capacity
  }

  lemma FirstOneMore(r: SpoolRecord, rs: seq<SpoolRecord>, n: int)
    requires n > 0
    ensures First([r] + rs, n) == [r] + First(rs, n - 1)
    ensures EventsIn([r] + First(rs, n - 1)) == [r.event] + EventsIn(First(rs, n - 1))
  {
  }

  /** Enqueuing puts the records that are not in flight into the channel, in their order, as many as it has room
      for. */
  lemma {:induction false} EnqueueAllFills(s: Node, rs: seq<SpoolRecord>)
    requires DistinctRecords(rs)
    ensures var t := EnqueueAll(s, rs);
      && OnlyQueues(s, t)
      && t.queue.ch ==
           s.queue.ch + EventsIn(First(StillWaiting(rs, s.inflight), s.queue.capacity - |s.queue.ch|))
    decreases |rs|
  {
    hide *;
    if rs != [] {
      var e, rest, room := rs[0].event, rs[1..], s.queue.capacity - |s.queue.ch|;
      var t := Enqueue(s, e, rs[0].offset);
      EnqueuedFirst(s, rs);
      HeadIsNotInTail(rs);
      EnqueueAllFills(t, rest);
      WaitingFirst(rs, s.inflight);
      if e.id !in s.inflight && room > 0 {
        OthersStillWait(rest, s.inflight, e.id);
        FirstOneMore(rs[0], StillWaiting(rest, s.inflight), room);
        ThreeParts(s.queue.ch, [e], EventsIn(First(StillWaiting(rest, s.inflight), room - 1)));
      } else if room <= 0 {
        NoRoom(s.queue.ch, StillWaiting(rest, s.inflight), StillWaiting(rs, s.inflight), room);
      }
    } else {
      NoneToEnqueue(s);
    }
  }

  lemma NoneToEnqueue(s: Node)
    ensures EnqueueAll(s, []) == s && OnlyQueues(s, s)
    ensures s.queue.ch == s.queue.ch + EventsIn(First(StillWaiting([], s.inflight), s.queue.capacity - |s.queue.ch|))
  {
  }

  lemma NoRoom(ch: seq<Event>, a: seq<SpoolRecord>, b: seq<SpoolRecord>, room: int)
    requires room <= 0
    ensures ch + EventsIn(First(a, room)) == ch + EventsIn(First(b, room)) == ch
  {
  }

  lemma WaitingFirst(rs: seq<SpoolRecord>, inflight: set<string>)
    requires rs != []
    ensures StillWaiting(rs, inflight) ==
      if rs[0].event.id in inflight then StillWaiting(rs[1..], inflight) else [rs[0]] + StillWaiting(rs[1..], inflight)
  {
  }

  lemma EnqueuedFirst(s: Node, rs: seq<SpoolRecord>)
    requires rs != []
    ensures var e, t := rs[0].event, Enqueue(s, rs[0].event, rs[0].offset);
      && EnqueueAll(s, rs) == EnqueueAll(t, rs[1..])
      && (if e.id !in s.inflight && |s.queue.ch| < s.queue.capacity
          then t.queue.ch == s.queue.ch + [e] && t.inflight == s.inflight + {e.id} else t == s)
      && OnlyQueues(s, t) && forall u :: OnlyQueues(t, u) ==> OnlyQueues(s, u)
  {
  }

  /** What waits in the spool: the records past the checkpoint, as they read back, that are not in flight; none
      if a line is too long. */
  function WaitingIn(s: Node, inflight: set<string>, read: Event -> Event): seq<SpoolRecord> {
    if Scannable(s.spool.lines) then
      StillWaiting(PendingRecords(s.spool.lines, s.spool.checkpoint, read), inflight)
    else []
  }

  lemma RefillFills(s: Node, read: Event -> Event)
    requires DistinctRecords(PendingRecords(s.spool.lines, s.spool.checkpoint, read))
    ensures var t := Refilled(s, read);
      && OnlyQueues(s, t)
      && t.queue.ch ==
           s.queue.ch + EventsIn(First(WaitingIn(s, s.inflight, read), s.queue.capacity - |s.queue.ch|))
  {
    hide StillWaiting, PendingRecords, DistinctRecords, Scannable;
    if Scannable(s.spool.lines) {
      EnqueueAllFills(s, PendingRecords(s.spool.lines, s.spool.checkpoint, read));
    } else {
      assert s.queue.ch + EventsIn(First([], s.queue.capacity - |s.queue.ch|)) == s.queue.ch;
    }
  }

  // ----- the setting -----

  /** A new setting is in force at once, saved or not; a save that fails leaves the file, or an empty one, which
      counts as the setting without a file. What waits goes into the queue exactly if the setting was saved, is
      not paused and turns on one of the two ways of forwarding, be it the one the worker does not use. */
  lemma SettingTakesEffect(s: Node, cfg: Config, saved: Save, read: Event -> Event)
    requires DistinctRecords(PendingRecords(s.spool.lines, s.spool.checkpoint, read))
    ensures var t := Configured(s, cfg, saved, read);
      && t == s.(cfg := cfg, savedCfg := t.savedCfg, queue := t.queue, inflight := t.inflight, offsets := t.offsets)
      && t.savedCfg == (if saved.Saved? then cfg else if saved.SaveTruncated? then s.env else s.savedCfg)
      && (if saved.Saved? && !cfg.paused && (cfg.splunk || cfg.syslog)
          then t.queue.ch ==
                 s.queue.ch + EventsIn(First(WaitingIn(s, s.inflight, read), s.queue.capacity - |s.queue.ch|))
          else t.queue.ch == s.queue.ch && t.inflight == s.inflight)
      && (saved.Saved? ==> t.queue.stats.paused == cfg.paused)
  {
    hide PendingRecords, DistinctRecords, Scannable, WaitingIn, EventsIn, First;
    if saved.Saved? {
      SameWaiting(s, Replaced(s, cfg), s.inflight, read);
      RefillFills(Replaced(s, cfg), read);
      RefillKeepsPaused(Replaced(s, cfg), read);
    }
  }

  lemma SameWaiting(s: Node, t: Node, inflight: set<string>, read: Event -> Event)
    requires t.spool == s.spool
    ensures WaitingIn(t, inflight, read) == WaitingIn(s, inflight, read)
  {
  }

  lemma {:induction false} EnqueueAllKeepsPaused(s: Node, rs: seq<SpoolRecord>)
    ensures EnqueueAll(s, rs).queue.stats == s.queue.stats.(queued := EnqueueAll(s, rs).queue.stats.queued)
    decreases |rs|
  {
    if rs != [] { EnqueueAllKeepsPaused(Enqueue(s, rs[0].event, rs[0].offset), rs[1..]); }
  }

  lemma RefillKeepsPaused(s: Node, read: Event -> Event)
    ensures Refilled(s, read).queue.stats == s.queue.stats.(queued := Refilled(s, read).queue.stats.queued)
  {
    hide EnqueueAll;
    EnqueueAllKeepsPaused(s, PendingRecords(s.spool.lines, s.spool.checkpoint, read));
  }

  // ----- a restart -----

  /** A restart keeps the files and what was sent. It takes the setting from its file, and the known IDs from the
      event log, unless a line of it is too long; it has no batch, a fresh queue of the same size, at least 100,
      with fresh counters, and in it, if the setting has the worker send, the records past the checkpoint as far
      as they fit. */
  lemma RestartIs(s: Node, read: Event -> Event)
    requires DistinctRecords(PendingRecords(s.spool.lines, s.spool.checkpoint, read))
    ensures var t := Restarted(s, read);
      && t.store == s.store && t.spool == s.spool && t.savedCfg == s.savedCfg && t.env == s.env && t.wire == s.wire
      && t.cfg == s.savedCfg && t.pending == [] && t.phase == Sending && t.attempt == 0
      && t.seen == (if StoreScannable(s.store) then ReadIds(s.store, read) else {})
      && t.queue.capacity == (if s.queue.capacity < 100 then 100 else s.queue.capacity)
      && t.queue.stats == QueueStats(t.queue.stats.queued, 0, 0, "", "", false)
      && t.queue.ch == (if !s.savedCfg.paused && s.savedCfg.syslog
                        then EventsIn(First(WaitingIn(s, {}, read), t.queue.capacity)) else [])
  {
    hide PendingRecords, DistinctRecords, Scannable, StoreScannable, ReadIds, WaitingIn, EventsIn, First;
    var blank := Blank(s, read);
    SameWaiting(s, blank, {}, read);
    RefillFills(blank, read);
    RefillKeepsPaused(blank, read);
    assert [] + EventsIn(First(WaitingIn(s, {}, read), blank.queue.capacity)) ==
      EventsIn(First(WaitingIn(s, {}, read), blank.queue.capacity));
  }

  // ----- the checkpoint -----

  /** A checkpoint write of a counted batch leaves the greatest offset known of its events, what was there if it
      fails at once, or 0 if it leaves the file empty; there is none if no offset is known. */
  lemma CheckpointIs(s: Node, write: CheckpointWrite)
    requires s.phase == Counted
    ensures var t, c := Marked(s, write), Marked(s, write).spool.checkpoint;
      && t == s.(phase := Checkpointed, spool := s.spool.(checkpoint := c))
      && ((forall e :: e in s.pending ==> e.id !in s.offsets) || write.Untouched? ==> c == s.spool.checkpoint)
      && ((exists e :: e in s.pending && e.id in s.offsets) && write.Emptied? ==> c == 0)
      && ((exists e :: e in s.pending && e.id in s.offsets) && write.Written? ==>
            && (exists e :: e in s.pending && e.id in s.offsets && s.offsets[e.id] == c)
            && (forall e :: e in s.pending && e.id in s.offsets ==> s.offsets[e.id] <= c))
  {
    hide MaxOffset;
    MaxOffsetIsGreatest(s.pending, s.offsets);
  }

  /** After a write that leaves the file empty, every record of the spool but the first is read again. */
  lemma EmptiedReadsAgain(s: Node, read: Event -> Event)
    requires s.phase == Counted && WellFormed(s.spool.lines) && exists e :: e in s.pending && e.id in s.offsets
    ensures var files := Marked(s, Emptied).spool;
      forall r :: r in PendingRecords(files.lines, files.checkpoint, read) <==>
        exists i | 1 <= i < |s.spool.lines| :: r == SpoolRecord(s.spool.lines[i].offset, read(s.spool.lines[i].event))
  {
    CheckpointIs(s, Emptied);
    OffsetsIncrease(s.spool.lines);
    PendingAreThePast(s.spool.lines, 0, read);
  }

  // ----- a turn of the worker -----

  /** The batch of a turn: the one left over, or the oldest events of the channel, one at least and no more than
      asked for. */
  lemma BatchIs(s: Node, max: int)
    ensures var t := Popped(s, max);
      && t == s.(queue := t.queue, pending := t.pending)
      && t.queue == s.queue.(ch := t.queue.ch, stats := s.queue.stats.(paused := s.cfg.paused))
      && (s.pending != [] ==> t.pending == s.pending && t.queue.ch == s.queue.ch)
      && (s.pending == [] ==>
            && t.pending + t.queue.ch == s.queue.ch
            && |t.pending| == (if |s.queue.ch| == 0 then 0 else if max <= 1 then 1
                               else if max < |s.queue.ch| then max else |s.queue.ch|))
  {
  }

  /** A turn without a batch, or while forwarding is off, sends and counts nothing. A failed pass sends its first
      events, counts the whole batch as failed and keeps it for the next turn; one that succeeds sends the batch,
      counts it as forwarded, lets go of it and ends the streak of failures. */
  lemma TurnReports(s: Node, p: Pass, read: Event -> Event)
    requires s.phase == Sending
    ensures var t, batch := AfterTurn(s, p, read), Popped(s, p.max).pending;
      var was, now := s.queue.stats, t.queue.stats;
      && t.phase == Sending && t.cfg == s.cfg && t.savedCfg == s.savedCfg && t.store == s.store
      && t.spool.lines == s.spool.lines
      && (if batch == [] || s.cfg.paused || !s.cfg.syslog then
            && t.wire == s.wire && t.pending == batch && t.attempt == s.attempt && t.spool == s.spool
            && now == was.(paused := s.cfg.paused)
          else if p.count < |batch| then
            && p.count <= |Prioritized(batch)| && t.wire == s.wire + Prioritized(batch)[..p.count]
            && t.pending == Prioritized(batch)
            && t.attempt == s.attempt + 1 && t.spool == s.spool
            && now == was.(paused := s.cfg.paused, failed := was.failed + |batch|, lastFailure := p.when)
          else
            && t.wire == s.wire + Prioritized(batch) && t.pending == [] && t.attempt == 0
            && now == was.(paused := s.cfg.paused, queued := now.queued, forwarded := was.forwarded + |batch|,
                           lastSuccess := p.when))
  {
    hide Prioritized, MaxOffset, Refilled, Popped, Turn, Marked, Forgotten, SuccessCounted, Sent, Run;
    TurnIs(s, p.max, p.count, p.write, p.when, read);
    BatchIs(s, p.max);
    var batch := Popped(s, p.max);
    if Passes(s, p) {
      PrioritizedKeepsIds(batch.pending);
      PassReports(batch, p.count, p.when);
      if !Fails(s, p) {
        FinishReports(Sent(batch, p.count, p.when), p.when, p.write);
        var done := Forgotten(Marked(SuccessCounted(Sent(batch, p.count, p.when), p.when), p.write));
        RefillKeepsPaused(done, read);
        RefillOnlyQueues(done, read);
      }
    }
  }

  lemma PassReports(s: Node, count: nat, when: string)
    requires s.phase == Sending && s.pending != [] && |Prioritized(s.pending)| == |s.pending|
    ensures var t, batch := Sent(s, count, when), Prioritized(s.pending);
      && t == s.(pending := batch, wire := t.wire, attempt := t.attempt, queue := t.queue, phase := t.phase)
      && t.queue == s.queue.(stats := t.queue.stats)
      && (if count < |batch| then
            && t.wire == s.wire + batch[..count] && t.attempt == s.attempt + 1 && t.phase == Sending
            && t.queue.stats == s.queue.stats.(failed := s.queue.stats.failed + |batch|, lastFailure := when)
          else t.wire == s.wire + batch && t.attempt == s.attempt && t.phase == Delivered && t.queue == s.queue)
  {
    hide Prioritized;
  }

  lemma FinishReports(s: Node, when: string, write: CheckpointWrite)
    requires s.phase == Delivered
    ensures var t := Forgotten(Marked(SuccessCounted(s, when), write));
      && t == s.(queue := t.queue, spool := t.spool, inflight := t.inflight, pending := [], phase := Sending,
                 attempt := 0)
      && t.spool.lines == s.spool.lines
      && t.queue.stats == s.queue.stats.(queued := t.queue.stats.queued,
           forwarded := s.queue.stats.forwarded + |s.pending|, lastSuccess := when)
  {
    hide MaxOffset;
  }

  lemma {:induction false} EnqueueAllOnlyQueues(s: Node, rs: seq<SpoolRecord>)
    ensures OnlyQueues(s, EnqueueAll(s, rs))
    decreases |rs|
  {
    if rs != [] { EnqueueAllOnlyQueues(Enqueue(s, rs[0].event, rs[0].offset), rs[1..]); }
  }

  lemma RefillOnlyQueues(s: Node, read: Event -> Event)
    ensures OnlyQueues(s, Refilled(s, read))
  {
    hide EnqueueAll;
    EnqueueAllOnlyQueues(s, PendingRecords(s.spool.lines, s.spool.checkpoint, read));
  }

  /** What failed passes sent. */
  function Repeated(s: Node, ps: seq<Pass>, read: Event -> Event): nat
    decreases |ps|
  {
    if ps == [] then 0
    else (if Fails(s, ps[0]) then ps[0].count else 0) + Repeated(AfterTurn(s, ps[0], read), ps[1..], read)
  }

  /** Over any series of turns all that is sent is counted as forwarded, but for what failed passes sent of
      their batches. */
  lemma {:induction false} SentIsForwarded(s: Node, ps: seq<Pass>, read: Event -> Event)
    requires s.phase == Sending
    ensures var t := AfterTurns(s, ps, read);
      && t.phase == Sending && t.queue.stats.forwarded >= s.queue.stats.forwarded
      && |t.wire| - |s.wire| == t.queue.stats.forwarded - s.queue.stats.forwarded + Repeated(s, ps, read)
    decreases |ps|
  {
    if ps != [] {
      hide Prioritized, AfterTurn, Popped;
      TurnReports(s, ps[0], read);
      PrioritizedKeepsIds(Popped(s, ps[0].max).pending);
      SentIsForwarded(AfterTurn(s, ps[0], read), ps[1..], read);
    }
  }
}
