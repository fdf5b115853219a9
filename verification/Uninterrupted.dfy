/** The two models of the pipeline agree: each operation of `Delivery`, run without interruption, is a run of the
    lock regions of `Interleaving` (cmd/dmz-collector/main.go, internal/buffer/queue.go). */
module Uninterrupted {
  import opened Event
  import opened Spool
  import opened EventLog
  import opened Queue
  import opened Batch
  import opened Books
  import D = Delivery
  import I = Interleaving

  // ----- the state, seen by its IDs -----

  function EventIds(es: seq<Event>): (ids: seq<string>)
    ensures |ids| == |es|
  {
    seq(|es|, i requires 0 <= i < |es| => es[i].id)
  }

  function LineIds(lines: seq<StoreLine>): (ids: seq<string>)
    ensures |ids| == |lines|
  {
    seq(|lines|, i requires 0 <= i < |lines| => lines[i].event.id)
  }

  function RecordsOf(lines: seq<Line>): (rs: seq<I.Record>)
    ensures |rs| == |lines|
  {
    seq(|lines|, i requires 0 <= i < |lines| => I.Record(lines[i].event.id, lines[i].offset))
  }

  function PhaseOf(p: D.Phase): I.Phase {
    match p
    case Sending => I.Sending
    case Delivered => I.Delivered
    case Counted => I.Done
    case Checkpointed => I.Marked
  }

  /** What the model of the lock regions sees of a state without threads, `pushes` and `clamped` being its own
      records of the past. */
  function View(s: D.Node, pushes: nat, clamped: nat): I.Sys {
    I.Sys(LineIds(s.store), RecordsOf(s.spool.lines), FileSize(s.spool.lines), s.spool.checkpoint,
          s.seen, s.inflight, s.offsets, s.queue.capacity, EventIds(s.queue.ch), EventIds(s.pending),
          PhaseOf(s.phase), s.queue.stats.queued, s.queue.stats.forwarded, map[], EventIds(s.wire), pushes, clamped)
  }

  lemma OneMoreId(es: seq<Event>, e: Event)
    ensures EventIds(es + [e]) == EventIds(es) + [e.id]
  {
  }

  lemma OneMoreStored(lines: seq<StoreLine>, l: StoreLine)
    ensures LineIds(lines + [l]) == LineIds(lines) + [l.event.id]
  {
  }

  lemma OneMoreSpooled(lines: seq<Line>, l: Line)
    ensures RecordsOf(lines + [l]) == RecordsOf(lines) + [I.Record(l.event.id, l.offset)]
    ensures FileSize(lines + [l]) == FileSize(lines) + l.size + 1
  {
    assert (lines + [l])[..|lines|] == lines;
  }

  // ----- schedules -----

  lemma RunTwice(u: I.Sys, a: seq<I.Step>, b: seq<I.Step>)
    ensures I.Run(u, a + b) == I.Run(I.Run(u, a), b)
    decreases |a|
  {
    hide I.Next, I.Run;
    if a == [] {
      I.RunNone(u);
      assert a + b == b;
    } else {
      assert a + b == [a[0]] + (a[1..] + b) && a == [a[0]] + a[1..];
      I.RunOne(u, a[0], a[1..] + b);
      I.RunOne(u, a[0], a[1..]);
      RunTwice(I.Next(u, a[0]), a[1..], b);
    }
  }

  lemma RunFour(u: I.Sys, a: I.Step, b: I.Step, c: I.Step, d: I.Step)
    ensures I.Run(u, [a, b, c, d]) == I.Next(I.Next(I.Next(I.Next(u, a), b), c), d)
  {
    hide I.Next;
    assert [a, b, c, d] == [a] + [b, c, d] && [b, c, d] == [b] + [c, d] && [c, d] == [c] + [d] && [d] == [d] + [];
    I.RunOne(u, a, [b, c, d]);
    I.RunOne(I.Next(u, a), b, [c, d]);
    I.RunOne(I.Next(I.Next(u, a), b), c, [d]);
    I.RunOne(I.Next(I.Next(I.Next(u, a), b), c), d, []);
  }

  /** The regions of one call of `enqueueIfNeeded`: the look at `inflight`, the push, the count, the entry. */
  function Offer(t: nat): seq<I.Step> {
    var next := I.Advance(t, true, true, 0);
    [next, next, next, next]
  }

  /** A thread about to look. */
  function About(u: I.Sys, t: nat, id: string, offset: nat): I.Sys {
    u.(threads := map[t := I.Thread(id, I.Placed(offset))])
  }

  /** What these regions come to. */
  function Offered(u: I.Sys, id: string, offset: nat): I.Sys {
    if id in u.inflight || |u.chan| >= u.capacity then u
    else u.(chan := u.chan + [id], pushes := u.pushes + 1, queued := u.queued + 1, inflight := u.inflight + {id},
            offsets := u.offsets[id := offset])
  }

  lemma OfferRegions(u: I.Sys, t: nat, id: string, offset: nat)
    requires u.threads == map[]
    ensures I.Run(About(u, t, id, offset), Offer(t)) == Offered(u, id, offset)
  {
    var next := I.Advance(t, true, true, 0);
    var v := About(u, t, id, offset);
    RunFour(v, next, next, next, next);
    Look(u, t, id, offset);
    if id !in u.inflight {
      PushAndCount(u, t, id, offset);
    } else {
      Idle(u, next);
    }
  }

  /** A thread that is not there does nothing. */
  lemma Idle(u: I.Sys, step: I.Step)
    requires step.Advance? && step.t !in u.threads
    ensures I.Next(u, step) == u
  {
  }

  lemma Look(u: I.Sys, t: nat, id: string, offset: nat)
    requires u.threads == map[]
    ensures I.Next(About(u, t, id, offset), I.Advance(t, true, true, 0)) ==
      if id in u.inflight then u else u.(threads := map[t := I.Thread(id, I.Checked(offset))])
  {
    assert map[t := I.Thread(id, I.Placed(offset))] - {t} == map[];
  }

  lemma PushAndCount(u: I.Sys, t: nat, id: string, offset: nat)
    requires u.threads == map[] && id !in u.inflight
    ensures var next, v := I.Advance(t, true, true, 0), u.(threads := map[t := I.Thread(id, I.Checked(offset))]);
      I.Next(I.Next(I.Next(v, next), next), next) == Offered(u, id, offset)
  {
    var next, v := I.Advance(t, true, true, 0), u.(threads := map[t := I.Thread(id, I.Checked(offset))]);
    assert v.threads - {t} == map[];
    if |u.chan| < u.capacity {
      var w := I.Next(v, next);
      assert w == v.(threads := map[t := I.Thread(id, I.Pushed(offset))], chan := u.chan + [id],
        pushes := u.pushes + 1);
      var x := I.Next(w, next);
      assert x == w.(threads := map[t := I.Thread(id, I.Counted(offset))], queued := u.queued + 1);
      assert x.threads - {t} == map[];
    }
  }

  lemma OfferIs(s: D.Node, t: nat, e: Event, offset: nat, pushes: nat, clamped: nat) returns (after: nat)
    ensures I.Run(About(View(s, pushes, clamped), t, e.id, offset), Offer(t)) ==
      View(D.Enqueue(s, e, offset), after, clamped)
    ensures after == pushes + |D.Enqueue(s, e, offset).queue.ch| - |s.queue.ch|
  {
    OfferRegions(View(s, pushes, clamped), t, e.id, offset);
    OneMoreId(s.queue.ch, e);
    after := if e.id in s.inflight || s.queue.Full() then pushes else pushes + 1;
    hide FileSize, EventIds, LineIds, RecordsOf, I.Run;
  }

  // ----- an ingest -----

  /** Claiming the ID, the two appends and the entry in the offset table. */
  function Write(t: nat, id: string, io: D.Appends, enabled: bool): seq<I.Step> {
    [I.Start(t, id), I.Advance(t, io.storeOk, true, 0), I.Advance(t, io.spoolOk, true, io.spoolSize),
     I.Advance(t, true, enabled, 0)]
  }

  lemma StoreRegion(u: I.Sys, t: nat, id: string, ok: bool)
    requires u.threads == map[] && id !in u.seen
    ensures var claimed := u.(seen := u.seen + {id});
      I.Next(I.Next(u, I.Start(t, id)), I.Advance(t, ok, true, 0)) ==
        if ok then claimed.(store := u.store + [id], threads := map[t := I.Thread(id, I.Stored)]) else claimed
  {
    assert map[t := I.Thread(id, I.Claimed)] - {t} == map[];
  }

  lemma SpoolRegion(u: I.Sys, t: nat, id: string, ok: bool, size: nat, enabled: bool)
    requires u.threads == map[]
    ensures var v := u.(threads := map[t := I.Thread(id, I.Stored)]);
      var spooled := u.(spool := u.spool + [I.Record(id, u.size)], size := u.size + size + 1,
                        offsets := u.offsets[id := u.size]);
      I.Next(I.Next(v, I.Advance(t, ok, true, size)), I.Advance(t, true, enabled, 0)) ==
        if !ok then u else if enabled then About(spooled, t, id, u.size) else spooled
  {
    var v := u.(threads := map[t := I.Thread(id, I.Stored)]);
    assert v.threads - {t} == map[];
    assert map[t := I.Thread(id, I.Spooled(u.size))] - {t} == map[];
  }

  lemma WriteIs(s: D.Node, t: nat, e: Event, io: D.Appends, enabled: bool, pushes: nat, clamped: nat)
    ensures var v := View(D.Logged(s, e, io), pushes, clamped);
      I.Run(View(s, pushes, clamped), Write(t, e.id, io, enabled)) ==
        if D.Accepts(s, e, io) && enabled then About(v, t, e.id, FileSize(s.spool.lines)) else v
  {
    var u := View(s, pushes, clamped);
    RunFour(u, I.Start(t, e.id), I.Advance(t, io.storeOk, true, 0), I.Advance(t, io.spoolOk, true, io.spoolSize),
            I.Advance(t, true, enabled, 0));
    OneMoreStored(s.store, StoreLine(e, io.storeSize));
    OneMoreSpooled(s.spool.lines, Line(FileSize(s.spool.lines), e, io.spoolSize));
    hide FileSize, EventIds, LineIds, RecordsOf, I.Run;
    if e.id in s.seen {
      assert I.Next(u, I.Start(t, e.id)) == u;
    } else {
      StoreRegion(u, t, e.id, io.storeOk);
      if io.storeOk {
        SpoolRegion(u.(seen := u.seen + {e.id}, store := u.store + [e.id]), t, e.id, io.spoolOk, io.spoolSize, enabled);
      }
    }
  }

  /** An ingest that nothing interrupts is the ingest step. */
  lemma IngestIs(s: D.Node, t: nat, e: Event, io: D.Appends, pushes: nat, clamped: nat) returns (after: nat)
    ensures I.Run(View(s, pushes, clamped), Write(t, e.id, io, s.cfg.Enabled()) + Offer(t)) ==
      View(D.Ingested(s, e, io), after, clamped)
    ensures after == pushes + |D.Ingested(s, e, io).queue.ch| - |s.queue.ch|
  {
    var u, write := View(s, pushes, clamped), Write(t, e.id, io, s.cfg.Enabled());
    var logged := D.Logged(s, e, io);
    RunTwice(u, write, Offer(t));
    WriteIs(s, t, e, io, s.cfg.Enabled(), pushes, clamped);
    after := pushes;
    if D.Accepts(s, e, io) && s.cfg.Enabled() {
      after := OfferIs(logged, t, e, FileSize(s.spool.lines), pushes, clamped);
    } else {
      NoOffer(View(logged, pushes, clamped), t);
    }
  }

  lemma NoOffer(u: I.Sys, t: nat)
    requires t !in u.threads
    ensures I.Run(u, Offer(t)) == u
  {
    var next := I.Advance(t, true, true, 0);
    RunFour(u, next, next, next, next);
    Idle(u, next);
  }

  // ----- a refill -----

  /** The regions of a refill: each record of the spool in turn. */
  function Sweep(t: nat, n: nat): seq<I.Step> {
    if n == 0 then [] else Sweep(t, n - 1) + ([I.Reenqueue(t, n - 1)] + Offer(t))
  }

  lemma {:induction false} EnqueueAllTwice(s: D.Node, a: seq<SpoolRecord>, b: seq<SpoolRecord>)
    ensures D.EnqueueAll(s, a + b) == D.EnqueueAll(D.EnqueueAll(s, a), b)
    decreases |a|
  {
    hide D.Enqueue;
    if a == [] {
      assert a + b == b;
    } else {
      EnqueueAllTwice(D.Enqueue(s, a[0].event, a[0].offset), a[1..], b);
      assert (a + b)[1..] == a[1..] + b;
    }
  }

  lemma {:induction false} EnqueueAllKeepsSpool(s: D.Node, rs: seq<SpoolRecord>)
    ensures D.EnqueueAll(s, rs).spool == s.spool
    decreases |rs|
  {
    if rs != [] { EnqueueAllKeepsSpool(D.Enqueue(s, rs[0].event, rs[0].offset), rs[1..]); }
  }

  lemma OneMorePending(lines: seq<Line>, checkpoint: nat, read: Event -> Event, n: nat)
    requires n < |lines|
    ensures PendingRecords(lines[..n + 1], checkpoint, read) == PendingRecords(lines[..n], checkpoint, read) +
      if lines[n].offset <= checkpoint then [] else [SpoolRecord(lines[n].offset, read(lines[n].event))]
  {
    assert lines[..n + 1][..n] == lines[..n];
  }

  lemma EnqueueOne(s: D.Node, r: SpoolRecord)
    ensures D.EnqueueAll(s, [r]) == D.Enqueue(s, r.event, r.offset) && D.EnqueueAll(s, []) == s
  {
    hide D.Enqueue;
    assert [r][1..] == [];
  }

  /** One record of the sweep. */
  lemma SweepOne(s: D.Node, t: nat, n: nat, read: Event -> Event, pushes: nat, clamped: nat) returns (after: nat)
    requires n < |s.spool.lines| && read(s.spool.lines[n].event).id == s.spool.lines[n].event.id
    ensures var l := s.spool.lines[n];
      I.Run(View(s, pushes, clamped), [I.Reenqueue(t, n)] + Offer(t)) ==
        View(if l.offset <= s.spool.checkpoint then s else D.Enqueue(s, read(l.event), l.offset), after, clamped)
  {
    hide FileSize, EventIds, LineIds, I.Run, D.Enqueue, Offer;
    var u, l := View(s, pushes, clamped), s.spool.lines[n];
    I.RunOne(u, I.Reenqueue(t, n), Offer(t));
    after := pushes;
    if l.offset <= s.spool.checkpoint {
      assert I.Next(u, I.Reenqueue(t, n)) == u;
      NoOffer(u, t);
    } else {
      assert I.Next(u, I.Reenqueue(t, n)) == About(u, t, l.event.id, l.offset);
      after := OfferIs(s, t, read(l.event), l.offset, pushes, clamped);
    }
  }

  lemma {:induction false} SweepIs(s: D.Node, t: nat, n: nat, read: Event -> Event, pushes: nat, clamped: nat)
    returns (after: nat)
    requires n <= |s.spool.lines|
    requires forall i :: 0 <= i < n ==> read(s.spool.lines[i].event).id == s.spool.lines[i].event.id
    ensures I.Run(View(s, pushes, clamped), Sweep(t, n)) ==
      View(D.EnqueueAll(s, PendingRecords(s.spool.lines[..n], s.spool.checkpoint, read)), after, clamped)
  {
    hide *;
    if n == 0 {
      after := pushes;
      NoSweep(s, t, read, pushes, clamped);
    } else {
      var lines, checkpoint := s.spool.lines, s.spool.checkpoint;
      after := SweepIs(s, t, n - 1, read, pushes, clamped);
      var older := PendingRecords(lines[..n - 1], checkpoint, read);
      var v := D.EnqueueAll(s, older);
      EnqueueAllKeepsSpool(s, older);
      SweepUnfolds(t, n);
      RunTwice(View(s, pushes, clamped), Sweep(t, n - 1), [I.Reenqueue(t, n - 1)] + Offer(t));
      after := SweepOne(v, t, n - 1, read, after, clamped);
      OneMorePending(lines, checkpoint, read, n - 1);
      var r := SpoolRecord(lines[n - 1].offset, read(lines[n - 1].event));
      EnqueueAllTwice(s, older, if r.offset <= checkpoint then [] else [r]);
      EnqueueOne(v, r);
    }
  }

  lemma SweepUnfolds(t: nat, n: nat)
    requires n > 0
    ensures Sweep(t, n) == Sweep(t, n - 1) + ([I.Reenqueue(t, n - 1)] + Offer(t))
  {
  }

  lemma NoSweep(s: D.Node, t: nat, read: Event -> Event, pushes: nat, clamped: nat)
    ensures I.Run(View(s, pushes, clamped), Sweep(t, 0)) ==
      View(D.EnqueueAll(s, PendingRecords(s.spool.lines[..0], s.spool.checkpoint, read)), pushes, clamped)
  {
  }

  ghost predicate ReadsIds(s: D.Node, read: Event -> Event) {
    && (forall i :: 0 <= i < |s.spool.lines| ==> s.spool.lines[i].event.id != "")
    && (forall i :: 0 <= i < |s.store| ==> s.store[i].event.id != "")
    && KeepsIds(read)
  }

  function Refill(s: D.Node, t: nat): seq<I.Step> {
    if Scannable(s.spool.lines) then Sweep(t, |s.spool.lines|) else []
  }

  /** A refill that nothing interrupts is the refill step. */
  lemma RefillIs(s: D.Node, t: nat, read: Event -> Event, pushes: nat, clamped: nat) returns (after: nat)
    requires ReadsIds(s, read)
    ensures I.Run(View(s, pushes, clamped), Refill(s, t)) == View(D.Refilled(s, read), after, clamped)
  {
    hide View, I.Run, Sweep, D.EnqueueAll, PendingRecords, Scannable;
    if Scannable(s.spool.lines) {
      assert s.spool.lines[..|s.spool.lines|] == s.spool.lines;
      after := SweepIs(s, t, |s.spool.lines|, read, pushes, clamped);
    } else {
      after := pushes;
      I.RunNone(View(s, pushes, clamped));
    }
  }

  // ----- a restart -----

  lemma SameMembers(s: D.Node, read: Event -> Event)
    requires ReadsIds(s, read)
    ensures I.Members(LineIds(s.store)) == ReadIds(s.store, read)
  {
    var ids := LineIds(s.store);
    forall id ensures id in ids <==> id in ReadIds(s.store, read) {
      if id in ids {
        var i :| 0 <= i < |ids| && ids[i] == id;
        assert s.store[i] in s.store && read(s.store[i].event).id == id;
      }
      if id in ReadIds(s.store, read) {
        var l :| l in s.store && read(l.event).id == id && id != "";
        var i :| 0 <= i < |s.store| && s.store[i] == l;
        assert ids[i] == id;
      }
    }
  }

  lemma CrashIs(s: D.Node, read: Event -> Event, pushes: nat, clamped: nat)
    requires ReadsIds(s, read) && s.queue.capacity >= FLOOR
    ensures I.Next(View(s, pushes, clamped), I.Crash(StoreScannable(s.store))) == View(D.Blank(s, read), 0, 0)
  {
    hide FileSize, LineIds, RecordsOf, ReadIds, StoreScannable, I.Members;
    SameMembers(s, read);
    assert EventIds([]) == [];
  }

  /** A crash, the start after it and its refill, if the setting has one, are the crash step. */
  lemma RestartIs(s: D.Node, t: nat, read: Event -> Event, pushes: nat, clamped: nat) returns (after: nat)
    requires ReadsIds(s, read) && s.queue.capacity >= FLOOR
    ensures I.Run(View(s, pushes, clamped),
                  [I.Crash(StoreScannable(s.store))] + if s.savedCfg.Enabled() then Refill(s, t) else []) ==
      View(D.Restarted(s, read), after, 0)
  {
    hide View, I.Run, I.Next, Sweep, D.Refilled, Scannable, StoreScannable, ReadIds, KeepsIds;
    var blank := D.Blank(s, read);
    CrashIs(s, read, pushes, clamped);
    I.RunOne(View(s, pushes, clamped), I.Crash(StoreScannable(s.store)),
             if s.savedCfg.Enabled() then Refill(s, t) else []);
    if s.savedCfg.Enabled() {
      after := RefillIs(blank, t, read, 0, 0);
    } else {
      after := 0;
      I.RunNone(View(blank, 0, 0));
    }
  }

  // ----- the worker -----

  function Takes(n: nat): seq<I.Step> {
    if n == 0 then [] else Takes(n - 1) + [I.Take]
  }

  lemma {:induction false} TakesTake(u: I.Sys, n: nat)
    requires u.phase == I.Sending && n <= |u.chan|
    ensures I.Run(u, Takes(n)) == u.(pending := u.pending + u.chan[..n], chan := u.chan[n..])
  {
    if n == 0 {
      I.RunNone(u);
      assert u.pending + u.chan[..0] == u.pending;
    } else {
      hide I.Run;
      TakesTake(u, n - 1);
      RunTwice(u, Takes(n - 1), [I.Take]);
      var v := I.Run(u, Takes(n - 1));
      RunOnly(v, I.Take);
      assert u.pending + u.chan[..n - 1] + [u.chan[n - 1]] == u.pending + u.chan[..n];
    }
  }

  lemma RunOnly(u: I.Sys, step: I.Step)
    ensures I.Run(u, [step]) == I.Next(u, step)
  {
    hide I.Next;
    assert [step] == [step] + [];
    I.RunOne(u, step, []);
  }

  /** Taking a batch is so many receives from the channel. */
  lemma PopIs(s: D.Node, max: int, pushes: nat, clamped: nat)
    requires s.pending == [] && s.phase == D.Sending
    ensures I.Run(View(s, pushes, clamped), Takes(BatchSize(s.queue, max))) == View(D.Popped(s, max), pushes, clamped)
  {
    hide FileSize, LineIds, RecordsOf, I.Run, Takes, BatchSize;
    var n, ids := BatchSize(s.queue, max), EventIds(s.queue.ch);
    TakesTake(View(s, pushes, clamped), n);
    assert [] + ids[..n] == EventIds(s.queue.ch[..n]) && ids[n..] == EventIds(s.queue.ch[n..]);
  }

  /** A pass over the batch, once it is in the order of sending, and what follows when all of it is sent. */
  lemma PassIs(s: D.Node, count: nat, when: string, pushes: nat, clamped: nat)
    ensures I.Next(View(if s.phase == D.Sending then s.(pending := Prioritized(s.pending)) else s, pushes, clamped),
                   I.Send(count)) == View(D.Sent(s, count, when), pushes, clamped)
  {
    hide FileSize, LineIds, RecordsOf, Prioritized;
    PrioritizedKeepsIds(s.pending);
    var batch := Prioritized(s.pending);
    IdsOfPass(s.wire, batch, count);
  }

  lemma IdsOfPass(wire: seq<Event>, batch: seq<Event>, count: nat)
    ensures EventIds(wire + batch) == EventIds(wire) + EventIds(batch)
    ensures count < |batch| ==> EventIds(wire + batch[..count]) == EventIds(wire) + EventIds(batch)[..count]
  {
  }

  lemma CountIs(s: D.Node, when: string, pushes: nat, clamped: nat) returns (now: nat)
    ensures I.Next(View(s, pushes, clamped), I.CountSuccess) == View(D.SuccessCounted(s, when), pushes, now)
    ensures s.phase == D.Delivered && |s.pending| <= s.queue.stats.queued ==> now == clamped
  {
    hide FileSize, LineIds, RecordsOf;
    now := I.Next(View(s, pushes, clamped), I.CountSuccess).clamped;
  }

  lemma {:induction false} GreatestIs(es: seq<Event>, offsets: map<string, nat>)
    ensures var best := I.Greatest(EventIds(es), offsets);
      (best < 0 <==> forall e :: e in es ==> e.id !in offsets)
      && (best >= 0 ==> exists e :: e in es && e.id in offsets && offsets[e.id] == best)
      && (forall e :: e in es && e.id in offsets ==> offsets[e.id] <= best)
  {
    if es != [] {
      GreatestIs(es[1..], offsets);
      assert EventIds(es)[1..] == EventIds(es[1..]);
      assert es == [es[0]] + es[1..];
    }
  }

  lemma MarkIs(s: D.Node, write: CheckpointWrite, pushes: nat, clamped: nat)
    ensures I.Next(View(s, pushes, clamped), I.MarkForwarded(write)) == View(D.Marked(s, write), pushes, clamped)
  {
    hide FileSize, LineIds, RecordsOf, I.Greatest, MaxOffset;
    GreatestIs(s.pending, s.offsets);
    MaxOffsetIsGreatest(s.pending, s.offsets);
  }

  lemma ForgetIs(s: D.Node, pushes: nat, clamped: nat)
    ensures I.Next(View(s, pushes, clamped), I.Forget) == View(D.Forgotten(s), pushes, clamped)
  {
    hide FileSize, LineIds, RecordsOf;
    var ids := EventIds(s.pending);
    forall id ensures id in I.Members(ids) <==> id in Ids(s.pending) {
      if e :| e in s.pending && e.id == id {
        var i :| 0 <= i < |s.pending| && s.pending[i] == e;
        assert ids[i] == id;
      }
    }
    assert I.Members(ids) == Ids(s.pending);
    assert EventIds([]) == [];
  }
}
