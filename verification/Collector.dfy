/** The collector object (cmd/dmz-collector/main.go): its methods, statement by statement, against the
    steps of `Delivery`. Calls to the network and the clock are parameters. */
module Collector {
  import opened Json
  import opened Wrappers
  import opened Counts
  import opened Event
  import opened Normalizer
  import opened Spool
  import opened Queue
  import opened Batch
  import opened Store
  import opened Delivery
  import opened Books
  import opened Retry
  import opened Turns
  import opened Audience

  /** The local variables of the worker's loop. */
  datatype Worker = Worker(pending: seq<Event>, phase: Phase, attempt: nat)

  const IDLE := Worker([], Sending, 0)

  /** What `ingestOne` reports. */
  datatype Outcome = Rejected(error: string) | Duplicate | Taken(queued: bool)

  const STORE_ERROR := "event log append"
  const SPOOL_ERROR := "spool append"

  function OutcomeOf(s: Node, e: Event, io: Appends): Outcome {
    if e.id in s.seen then Duplicate
    else if !io.storeOk then Rejected(STORE_ERROR)
    else if !io.spoolOk then Rejected(SPOOL_ERROR)
    else Taken(s.cfg.Enabled() && e.id !in s.inflight && !s.queue.Full())
  }

  /** A batch, event by event; `prepared` holds the events as they come out of the normaliser. */
  datatype BatchResult = BatchResult(node: Node, shown: Audience, accepted: nat, rejected: nat, duplicates: nat,
                                     queued: nat, errors: seq<string>)

  /** What one event of a batch meets: the outcome of its two appends, and the time. */
  datatype Meets = Meets(io: Appends, at: Moment)

  function Batched(s: Node, a: Audience, prepared: seq<Result<Event>>, ms: seq<Meets>): BatchResult
    requires |ms| == |prepared|
  {
    if prepared == [] then BatchResult(s, a, 0, 0, 0, 0, []) else
    var n := |prepared| - 1;
    BatchStep(Batched(s, a, prepared[..n], ms[..n]), prepared[n], ms[n])
  }

  function BatchStep(r: BatchResult, p: Result<Event>, m: Meets): BatchResult {
    Tallied(r, Moved(r.node, p, m.io), Told(r.node, r.shown, p, m), Verdict(r.node, p, m.io))
  }

  function Verdict(s: Node, p: Result<Event>, io: Appends): Outcome {
    if p.Err? then Rejected(p.error) else OutcomeOf(s, p.value, io)
  }

  function Moved(s: Node, p: Result<Event>, io: Appends): Node {
    if p.Err? then s else Ingested(s, p.value, io)
  }

  /** Statistics, catalog and streams hear of exactly the events taken in. */
  function Told(s: Node, a: Audience, p: Result<Event>, m: Meets): Audience {
    if p.Ok? && Accepts(s, p.value, m.io) then Announced(a, p.value, m.at) else a
  }

  function Tallied(r: BatchResult, node: Node, shown: Audience, o: Outcome): BatchResult {
    BatchResult(node, shown, r.accepted + One(o.Taken?), r.rejected + One(o.Rejected?),
                r.duplicates + One(o.Duplicate?), r.queued + One(o.Taken? && o.queued),
                if o.Rejected? then r.errors + [o.error] else r.errors)
  }

  lemma BatchedNone(s: Node, a: Audience)
    ensures Batched(s, a, [], []) == BatchResult(s, a, 0, 0, 0, 0, [])
  {
  }

  lemma BatchedOneMore(s: Node, a: Audience, prepared: seq<Result<Event>>, ms: seq<Meets>, i: nat)
    requires |ms| == |prepared| && i < |prepared|
    ensures var r, p, m := Batched(s, a, prepared[..i], ms[..i]), prepared[i], ms[i];
      Batched(s, a, prepared[..i + 1], ms[..i + 1]) ==
        Tallied(r, Moved(r.node, p, m.io), Told(r.node, r.shown, p, m), Verdict(r.node, p, m.io))
  {
    assert prepared[..i + 1][..i] == prepared[..i] && ms[..i + 1][..i] == ms[..i];
  }

  lemma TalliedIs(r: BatchResult, node: Node, shown: Audience, o: Outcome)
    ensures var t := Tallied(r, node, shown, o);
      && t.node == node && t.shown == shown
      && match o
         case Rejected(error) =>
           t.accepted == r.accepted && t.rejected == r.rejected + 1 && t.queued == r.queued &&
             t.errors == r.errors + [error]
         case Duplicate =>
           t.accepted == r.accepted && t.rejected == r.rejected && t.queued == r.queued && t.errors == r.errors
         case Taken(q) =>
           t.accepted == r.accepted + 1 && t.rejected == r.rejected && t.queued == r.queued + (if q then 1 else 0)
           && t.errors == r.errors
  {
  }

  lemma StepCounts(r: BatchResult, p: Result<Event>, m: Meets)
    ensures var t, o := BatchStep(r, p, m), Verdict(r.node, p, m.io);
      && t == Tallied(r, t.node, t.shown, o)
      && |t.node.spool.lines| == |r.node.spool.lines| + One(o.Taken?)
      && |r.node.store| + One(o.Taken?) <= |t.node.store| <= |r.node.store| + One(o.Taken?) + One(o.Rejected?)
      && |t.node.queue.ch| == |r.node.queue.ch| + One(o.Taken? && o.queued)
  {
  }

  /** Every event of a batch is accepted, rejected or a duplicate, and each rejected one has its error;
      only accepted ones are queued; the spool grows by exactly the accepted ones. */
  lemma {:induction false} BatchCounts(s: Node, a: Audience, prepared: seq<Result<Event>>, ms: seq<Meets>)
    requires |ms| == |prepared|
    ensures var r := Batched(s, a, prepared, ms);
      && r.accepted + r.rejected + r.duplicates == |prepared| && r.queued <= r.accepted && |r.errors| == r.rejected
      && |r.node.spool.lines| == |s.spool.lines| + r.accepted
      && |r.node.store| <= |s.store| + r.accepted + r.rejected
      && |s.store| + r.accepted <= |r.node.store|
      && |r.node.queue.ch| == |s.queue.ch| + r.queued
  {
    if prepared != [] {
      var n := |prepared| - 1;
      BatchCounts(s, a, prepared[..n], ms[..n]);
      StepCounts(Batched(s, a, prepared[..n], ms[..n]), prepared[n], ms[n]);
    }
  }

  /** An ingest in two parts: the log, and the offer of what was accepted. */
  lemma IngestInParts(s: Node, e: Event, io: Appends)
    ensures var logged := Logged(s, e, io);
      var offered := Enqueue(logged, e, FileSize(s.spool.lines));
      logged.cfg == s.cfg &&
      if !Accepts(s, e, io) then Ingested(s, e, io) == logged && !OutcomeOf(s, e, io).Taken?
      else Ingested(s, e, io) == (if s.cfg.Enabled() then offered else logged)
           && OutcomeOf(s, e, io) == Taken(s.cfg.Enabled() && offered != logged)
  {
  }

  /** One event of a batch, rejected by the normaliser or not. */
  lemma OneEvent(s: Node, a: Audience, m: Meets, error: string, e: Event)
    ensures Moved(s, Err(error), m.io) == s && Verdict(s, Err(error), m.io) == Rejected(error) &&
      Told(s, a, Err(error), m) == a
    ensures Moved(s, Ok(e), m.io) == Ingested(s, e, m.io) && Verdict(s, Ok(e), m.io) == OutcomeOf(s, e, m.io)
    ensures Told(s, a, Ok(e), m) == if OutcomeOf(s, e, m.io).Taken? then Announced(a, e, m.at) else a
  {
    hide Ingested, Announced;
  }

  lemma PreparedInSteps(given: Event, lib: Lib, now: string)
    ensures match Normalized(given, lib, now)
      case Err(error) => Prepared(given, lib, now) == Err(error)
      case Ok(n) => Prepared(given, lib, now) == Ok(Enriched(n, now))
  {
  }

  class Collector {
    const store: JSONLStore
    const spool: Spool
    const queue: Queue
    const env: Config              // the setting when there is no file
    const stats: Stats.Stats
    const catalog: Catalog.Catalog
    const hub: Stream.StreamHub
    var cfg: Config
    var savedCfg: Config
    var seenIDs: set<string>
    var inflight: set<string>
    var offsetByID: map<string, nat>
    var failedBatches: nat
    var lastError: string
    ghost var wire: seq<Event>     // what the syslog server accepted

    /** A start on existing files: `loadSeenIDs`, then `bootstrapSpoolQueue`. `was` is the state the
        process died in. */
    constructor Start(store: JSONLStore, spool: Spool, savedCfg: Config, env: Config, queueSize: nat,
                      stats: Stats.Stats, catalog: Catalog.Catalog, hub: Stream.StreamHub,
                      read: Event -> Event, ghost was: Node)
      requires was.store == store.lines && was.spool == spool.Value() && was.savedCfg == savedCfg && was.env == env
      requires NewChannel(was.queue.capacity) == NewChannel(queueSize)
      ensures this.store == store && this.spool == spool && fresh(queue)
      ensures this.stats == stats && this.catalog == catalog && this.hub == hub
      ensures State(IDLE) == Restarted(was, read)
    {
      this.store, this.spool, this.env, this.savedCfg, cfg := store, spool, env, savedCfg, savedCfg;
      this.stats, this.catalog, this.hub := stats, catalog, hub;
      queue := new Queue(queueSize);
      seenIDs, inflight, offsetByID, failedBatches, lastError, wire := {}, {}, map[], 0, "", was.wire;
      new;
      var ids := store.LoadIDSet(read);
      if ids.Ok? {
        LoadedIds(store.lines, read);
        seenIDs := ids.value;
      }
      if !cfg.paused && cfg.syslog {
        var _ := EnqueuePendingFromSpool(read, IDLE);
      }
    }

    /** The state of the pipeline, given the worker's variables. */
    ghost function State(w: Worker): Node
      reads this, store, spool, queue
    {
      Node(store.lines, spool.Value(), savedCfg, env, cfg, seenIDs, inflight, offsetByID, queue.Value(),
           w.pending, w.phase, w.attempt, wire)
    }

    method EnqueueIfNeeded(e: Event, offset: nat, ghost w: Worker) returns (queued: bool)
      modifies this`inflight, this`offsetByID, queue
      ensures State(w) == Enqueue(old(State(w)), e, offset)
      ensures queued == (State(w) != old(State(w)))
    {
      if e.id in inflight {
        return false;
      }
      var pushed := queue.Push(e);
      if !pushed {
        return false;
      }
      inflight := inflight + {e.id};
      offsetByID := offsetByID[e.id := offset];
      return true;
    }

    method EnqueuePendingFromSpool(read: Event -> Event, ghost w: Worker) returns (count: nat)
      modifies this`inflight, this`offsetByID, queue
      ensures State(w) == Refilled(old(State(w)), read)
    {
      var loaded := spool.LoadPending(read);
      if loaded.Err? {
        return 0;
      }
      var records := loaded.value;
      ghost var before := State(w);
      count := 0;
      for i := 0 to |records|
        invariant spool.Value() == before.spool
        invariant EnqueueAll(before, records) == EnqueueAll(State(w), records[i..])
      {
        var queued := EnqueueIfNeeded(records[i].event, records[i].offset, w);
        if queued {
          count := count + 1;
        }
        assert records[i..][1..] == records[i + 1..];
      }
    }

    method MarkBatchForwarded(batch: seq<Event>, write: CheckpointWrite)
      modifies spool`checkpoint
      ensures var best := MaxOffset(batch, offsetByID);
        spool.checkpoint == if best.None? then old(spool.checkpoint)
          else AfterWrite(old(spool.checkpoint), best.value, write)
    {
      var best := BatchOffset(batch, offsetByID);
      if best.Some? {
        spool.MarkForwarded(best.value, write);
      }
    }

    method ForgetInflight(batch: seq<Event>)
      modifies this`inflight
      ensures inflight == old(inflight) - Ids(batch)
    {
      for i := 0 to |batch|
        invariant inflight == old(inflight) - Ids(batch[..i])
      {
        assert batch[..i + 1] == batch[..i] + [batch[i]];
        IdsOfConcat(batch[..i], [batch[i]]);
        assert Ids([batch[i]]) == {batch[i].id};
        inflight := inflight - {batch[i].id};
      }
      assert batch[..|batch|] == batch;
    }

    /** `count` is how many sends succeed before one fails. */
    method ForwardBatch(batch: seq<Event>, count: nat) returns (ok: bool)
      modifies this`wire
      ensures ok == (count >= |batch|)
      ensures wire == old(wire) + if ok then batch else batch[..count]
    {
      for i := 0 to |batch|
        invariant i <= count && wire == old(wire) + batch[..i]
      {
        if i == count {
          return false;
        }
        wire := wire + [batch[i]];
      }
      assert batch[..|batch|] == batch;
      return true;
    }

    method UpdateForwardingConfig(c: Config, saved: Save, read: Event -> Event, ghost w: Worker)
      modifies this`cfg, this`savedCfg, this`inflight, this`offsetByID, queue
      ensures State(w) == Configured(old(State(w)), c, saved, read)
    {
      cfg := c;
      if !saved.Saved? {
        savedCfg := if saved.SaveTruncated? then env else savedCfg;
        return;
      }
      savedCfg := c;
      queue.SetPaused(c.paused);
      if !c.paused && (c.splunk || c.syslog) {
        var _ := EnqueuePendingFromSpool(read, w);
      }
    }

    /** One turn of the worker's loop. */
    method ForwardWorkerTurn(given: seq<Event>, tries: nat, p: Pass, error: string, read: Event -> Event)
      returns (pending: seq<Event>, attempt: nat, wait: int)
      modifies this`inflight, this`offsetByID, this`wire, this`failedBatches, this`lastError, queue, spool`checkpoint
      ensures State(Worker(pending, Sending, attempt)) == AfterTurn(old(State(Worker(given, Sending, tries))), p, read)
      ensures var failed := Fails(old(State(Worker(given, Sending, tries))), p);
        && wait == (if failed then Backoff(tries + 1) else 0)
        && failedBatches == old(failedBatches) + One(failed)
        && lastError == if failed then error else old(lastError)
    {
      ghost var s := State(Worker(given, Sending, tries));
      attempt, wait := tries, 0;
      pending := Poll(given, p.max, tries);
      TurnIs(s, p.max, p.count, p.write, p.when, read);
      if pending == [] || cfg.paused || !cfg.syslog {
        return;
      }
      ghost var batch := pending;
      var failed;
      pending, attempt, failed := OnePass(pending, attempt, p, read);
      if failed {
        failedBatches := failedBatches + 1;
        lastError := error;
        wait := Backoff(attempt);
      }
    }

    /** The head of a turn: the paused flag, and a batch if there is none. */
    method Poll(given: seq<Event>, max: int, ghost tries: nat) returns (pending: seq<Event>)
      modifies queue
      ensures State(Worker(pending, Sending, tries)) == Popped(old(State(Worker(given, Sending, tries))), max)
    {
      pending := given;
      queue.SetPaused(cfg.paused);
      if pending == [] {
        pending := queue.PopBatch(max);
      }
    }

    /** One pass over a batch and what follows it. */
    method OnePass(given: seq<Event>, tries: nat, p: Pass, read: Event -> Event)
      returns (pending: seq<Event>, attempt: nat, failed: bool)
      requires given != []
      modifies this`inflight, this`offsetByID, this`wire, queue, spool`checkpoint
      ensures failed == (p.count < |given|) && (failed ==> attempt == tries + 1)
      ensures var sent := Sent(old(State(Worker(given, Sending, tries))), p.count, p.when);
        State(Worker(pending, Sending, attempt)) ==
          if failed then sent else Refilled(Forgotten(Marked(SuccessCounted(sent, p.when), p.write)), read)
    {
      ghost var s := State(Worker(given, Sending, tries));
      // The library's stable sort; see StableSortIsUnique.
      pending, attempt := Prioritized(given), tries;
      PrioritizedKeepsIds(given);
      var ok := ForwardBatch(pending, p.count);
      failed := !ok;
      if failed {
        queue.MarkFailure(|pending|, p.when);
        attempt := attempt + 1;
        assert State(Worker(pending, Sending, attempt)) == Sent(s, p.count, p.when);
        return;
      }
      assert State(Worker(pending, Delivered, attempt)) == Sent(s, p.count, p.when);
      Finish(pending, p.write, p.when, read, attempt);
      pending, attempt := [], 0;
    }

    /** The rest of a turn once the whole batch is sent. */
    method Finish(batch: seq<Event>, write: CheckpointWrite, when: string, read: Event -> Event, ghost attempt: nat)
      modifies this`inflight, this`offsetByID, queue, spool`checkpoint
      ensures State(IDLE) ==
        Refilled(Forgotten(Marked(SuccessCounted(old(State(Worker(batch, Delivered, attempt))), when), write)), read)
    {
      ghost var s := State(Worker(batch, Delivered, attempt));
      queue.MarkSuccess(|batch|, when);
      assert State(Worker(batch, Counted, attempt)) == SuccessCounted(s, when);
      MarkBatchForwarded(batch, write);
      assert State(Worker(batch, Checkpointed, attempt)) == Marked(SuccessCounted(s, when), write);
      ForgetInflight(batch);
      var _ := EnqueuePendingFromSpool(read, IDLE);
    }

    /** What statistics, catalog and streams hold. */
    ghost function Shown(): Audience
      reads stats, catalog, catalog.records.Values, hub, hub.issued.Values
    {
      Audience(stats.totals, catalog.Contents(), hub.View())
    }

    ghost predicate ValidOutlets()
      reads catalog, hub, hub.issued.Values
    {
      catalog.Valid() && hub.Valid()
    }

    /** The claim of the ID and the two appends, on an event as the normaliser leaves it. */
    method Record(e: Event, io: Appends, ghost w: Worker) returns (o: Outcome, offset: nat)
      modifies this`seenIDs, this`offsetByID, store, spool`lines
      ensures State(w) == Logged(old(State(w)), e, io)
      ensures o.Taken? == Accepts(old(State(w)), e, io) && (o.Taken? ==> offset == FileSize(old(State(w)).spool.lines))
      ensures !o.Taken? ==> o == OutcomeOf(old(State(w)), e, io)
    {
      offset := 0;
      if e.id in seenIDs {
        return Duplicate, offset;
      }
      seenIDs := seenIDs + {e.id};
      var stored := store.Append(e, io.storeSize, io.storeOk);
      if !stored {
        return Rejected(STORE_ERROR), offset;
      }
      var appended := spool.Append(e, io.spoolSize, io.spoolOk);
      if appended.Err? {
        return Rejected(appended.error), offset;
      }
      offset := appended.value;
      offsetByID := offsetByID[e.id := offset];
      return Taken(false), offset;
    }

    method CountEvent(e: Event, at: Moment)
      modifies stats
      ensures Shown() == Added(old(Shown()), e, at)
    {
      stats.Add(e, at.bucket, at.second);
    }

    method ObserveSource(e: Event)
      requires ValidOutlets()
      modifies catalog, catalog.records.Values
      ensures ValidOutlets() && fresh(catalog.records.Values - old(catalog.records.Values))
      ensures Shown() == Noted(old(Shown()), e)
    {
      hide Catalog.Observed, Catalog.Sight;
      var _ := catalog.ObserveEvent(e);
    }

    method PublishEvent(e: Event)
      requires ValidOutlets()
      modifies hub.clients.Values`buffer
      ensures ValidOutlets() && Shown() == Streamed(old(Shown()), e)
    {
      hide Stream.Published;
      hub.Publish(e);
    }

    method Announce(e: Event, at: Moment)
      requires ValidOutlets()
      modifies stats, catalog, catalog.records.Values, hub.clients.Values`buffer
      ensures ValidOutlets() && fresh(catalog.records.Values - old(catalog.records.Values))
      ensures Shown() == Announced(old(Shown()), e, at)
    {
      hide Added, Noted, Streamed;
      CountEvent(e, at);
      ObserveSource(e);
      PublishEvent(e);
    }

    /** Into the queue, if forwarding is on. */
    method Offer(e: Event, offset: nat, ghost w: Worker) returns (queued: bool)
      modifies this`inflight, this`offsetByID, queue
      ensures var s := old(State(w));
        && State(w) == (if s.cfg.Enabled() then Enqueue(s, e, offset) else s)
        && queued == (s.cfg.Enabled() && Enqueue(s, e, offset) != s)
    {
      queued := false;
      if !cfg.paused && cfg.syslog {
        queued := EnqueueIfNeeded(e, offset, w);
      }
    }

    /** What follows the appends: the event is shown to statistics, catalog and streams, then enqueued. */
    method Admit(e: Event, offset: nat, at: Moment, ghost w: Worker) returns (queued: bool)
      requires ValidOutlets()
      modifies this`inflight, this`offsetByID, queue
      modifies stats, catalog, catalog.records.Values, hub.clients.Values`buffer
      ensures ValidOutlets() && fresh(catalog.records.Values - old(catalog.records.Values))
      ensures var s := old(State(w));
        && State(w) == (if s.cfg.Enabled() then Enqueue(s, e, offset) else s)
        && queued == (s.cfg.Enabled() && Enqueue(s, e, offset) != s)
      ensures Shown() == Announced(old(Shown()), e, at)
    {
      hide *;
      ghost var before := State(w);
      Announce(e, at);
      assert State(w) == before;
      ghost var shown := Shown();
      queued := Offer(e, offset, w);
      assert Shown() == shown;
    }

    method Take(e: Event, io: Appends, at: Moment, ghost w: Worker) returns (o: Outcome)
      requires ValidOutlets()
      modifies this`seenIDs, this`inflight, this`offsetByID, store, spool`lines, queue
      modifies stats, catalog, catalog.records.Values, hub.clients.Values`buffer
      ensures ValidOutlets() && fresh(catalog.records.Values - old(catalog.records.Values))
      ensures State(w) == Ingested(old(State(w)), e, io)
      ensures o == OutcomeOf(old(State(w)), e, io)
      ensures Shown() == if o.Taken? then Announced(old(Shown()), e, at) else old(Shown())
    {
      hide *;
      IngestInParts(State(w), e, io);
      var offset;
      o, offset := Record(e, io, w);
      if o.Taken? {
        var queued := Admit(e, offset, at, w);
        o := Taken(queued);
      }
    }

    method IngestOne(given: Event, lib: Lib, m: Meets, ghost w: Worker) returns (o: Outcome)
      requires ValidOutlets()
      modifies this`seenIDs, this`inflight, this`offsetByID, store, spool`lines, queue
      modifies stats, catalog, catalog.records.Values, hub.clients.Values`buffer
      ensures ValidOutlets() && fresh(catalog.records.Values - old(catalog.records.Values))
      ensures State(w) == Moved(old(State(w)), Prepared(given, lib, m.at.now), m.io)
      ensures o == Verdict(old(State(w)), Prepared(given, lib, m.at.now), m.io)
      ensures Shown() == Told(old(State(w)), old(Shown()), Prepared(given, lib, m.at.now), m)
    {
      hide *;
      PreparedInSteps(given, lib, m.at.now);
      var normalized := ValidateAndNormalize(given, lib, m.at.now);
      if normalized.Err? {
        OneEvent(State(w), Shown(), m, normalized.error, given);
        return Rejected(normalized.error);
      }
      var e := EnrichDMZ(normalized.value, m.at.now);
      OneEvent(State(w), Shown(), m, "", e);
      o := Take(e, m.io, m.at, w);
    }

    method IngestBatch(events: seq<Event>, lib: Lib, ms: seq<Meets>, ghost w: Worker)
      returns (accepted: nat, rejected: nat, queued: nat, errors: seq<string>)
      requires |ms| == |events| && ValidOutlets()
      modifies this`seenIDs, this`inflight, this`offsetByID, store, spool`lines, queue
      modifies stats, catalog, catalog.records.Values, hub.clients.Values`buffer
      ensures ValidOutlets()
      ensures var r := Batched(old(State(w)), old(Shown()), AllPrepared(events, lib, ms), ms);
        && State(w) == r.node && Shown() == r.shown
        && accepted == r.accepted && rejected == r.rejected && queued == r.queued && errors == r.errors
    {
      hide *;
      BatchedNone(State(w), Shown());
      accepted, rejected, queued, errors := 0, 0, 0, [];
      ghost var s, a, prepared := State(w), Shown(), AllPrepared(events, lib, ms);
      ghost var r := BatchResult(s, a, 0, 0, 0, 0, []);
      assert prepared[..0] == [] && ms[..0] == [];
      for i := 0 to |events|
        invariant ValidOutlets() && fresh(catalog.records.Values - old(catalog.records.Values))
        invariant r == Batched(s, a, prepared[..i], ms[..i])
        invariant State(w) == r.node && Shown() == r.shown
        invariant accepted == r.accepted && rejected == r.rejected && queued == r.queued && errors == r.errors
      {
        BatchedOneMore(s, a, prepared, ms, i);
        var o := IngestOne(events[i], lib, ms[i], w);
        TalliedIs(r, State(w), Shown(), o);
        r := Tallied(r, State(w), Shown(), o);
        match o
        case Rejected(error) =>
          rejected := rejected + 1;
          errors := errors + [error];
        case Duplicate =>
        case Taken(q) =>
          accepted := accepted + 1;
          if q {
            queued := queued + 1;
          }
      }
      assert prepared[..|events|] == prepared && ms[..|events|] == ms;
    }
  }

  function AllPrepared(events: seq<Event>, lib: Lib, ms: seq<Meets>): (r: seq<Result<Event>>)
    requires |ms| == |events|
    ensures |r| == |events|
    ensures forall i :: 0 <= i < |events| ==> r[i] == Prepared(events[i], lib, ms[i].at.now)
  {
    seq(|events|, i requires 0 <= i < |events| => Prepared(events[i], lib, ms[i].at.now))
  }
}
