/** The delivery pipeline as a transition system: ingest, spool, queue, worker, checkpoint, crash and
    restart (cmd/dmz-collector/main.go). A step is one operation of the collector run on its own;
    the worker's loop is cut into steps wherever a crash or another thread can come in between. */
module Delivery {
  import opened Event
  import opened Spool
  import opened EventLog
  import opened Queue
  import opened Batch

  datatype Config = Config(paused: bool, splunk: bool, syslog: bool)
  {
    /** `isForwardingEnabled`. */
    predicate Enabled() {
      !paused && syslog
    }

    /** The test that makes `UpdateForwardingConfig` refill the queue. */
    predicate Refills() {
      !paused && (splunk || syslog)
    }
  }

  /** What a write to the configuration file can do: `os.WriteFile` truncates before it writes. */
  datatype Save = Saved | SaveFailed | SaveTruncated

  /** How far the worker has come with a batch: still sending, all sent, counted, checkpointed. */
  datatype Phase = Sending | Delivered | Counted | Checkpointed

  datatype Node = Node(
    store: seq<StoreLine>, spool: Files, savedCfg: Config,                                     // on disk
    env: Config,                                                                               // setting without a file
    cfg: Config, seen: set<string>, inflight: set<string>, offsets: map<string, nat>,          // in memory
    queue: Channel, pending: seq<Event>, phase: Phase, attempt: nat,
    wire: seq<Event>)                                                                          // sent so far

  /** The outcome of the two file appends of one ingest, and the lengths of the lines. */
  datatype Appends = Appends(storeOk: bool, spoolOk: bool, storeSize: nat, spoolSize: nat)

  datatype Step =
    | Ingest(event: Event, io: Appends)
    | Configure(cfg: Config, saved: Save)
    | Refill
    | Pop(max: int)
    | Send(count: nat, when: string)
    | CountSuccess(when: string)
    | Checkpoint(write: CheckpointWrite)
    | Forget
    | Crash

  /** A newly installed collector. */
  function Installed(queueSize: nat, cfg: Config): Node {
    Node([], Files([], 0), cfg, cfg, cfg, {}, {}, map[], NewChannel(queueSize), [], Sending, 0, [])
  }

  /** `enqueueIfNeeded`. */
  function Enqueue(s: Node, e: Event, offset: nat): Node {
    if e.id in s.inflight || s.queue.Full() then s
    else s.(queue := Pushed(s.queue, e), inflight := s.inflight + {e.id}, offsets := s.offsets[e.id := offset])
  }

  function EnqueueAll(s: Node, rs: seq<SpoolRecord>): Node
    decreases |rs|
  {
    if rs == [] then s else EnqueueAll(Enqueue(s, rs[0].event, rs[0].offset), rs[1..])
  }

  /** `enqueuePendingFromSpool`; `read` is what unmarshalling a stored event yields. */
  function Refilled(s: Node, read: Event -> Event): Node {
    if Scannable(s.spool.lines) then EnqueueAll(s, PendingRecords(s.spool.lines, s.spool.checkpoint, read)) else s
  }

  /** `ingestOne` on a prepared event, up to the decision to enqueue it. */
  function Logged(s: Node, e: Event, io: Appends): Node {
    if e.id in s.seen then s
    else
      var claimed := s.(seen := s.seen + {e.id});
      if !io.storeOk then claimed
      else
        var stored := claimed.(store := s.store + [StoreLine(e, io.storeSize)]);
        if !io.spoolOk then stored
        else stored.(spool := s.spool.(lines := Appended(s.spool.lines, e, io.spoolSize)),
                     offsets := s.offsets[e.id := FileSize(s.spool.lines)])
  }

  predicate Accepts(s: Node, e: Event, io: Appends) {
    e.id !in s.seen && io.storeOk && io.spoolOk
  }

  function Ingested(s: Node, e: Event, io: Appends): Node {
    var logged := Logged(s, e, io);
    if Accepts(s, e, io) && s.cfg.Enabled() then Enqueue(logged, e, FileSize(s.spool.lines)) else logged
  }

  function WithPaused(s: Node): Node {
    s.(queue := s.queue.(stats := s.queue.stats.(paused := s.cfg.paused)))
  }

  /** `UpdateForwardingConfig`: the new setting takes effect even when saving it fails, and then
      nothing is refilled. An emptied file counts as none. */
  function Configured(s: Node, cfg: Config, saved: Save, read: Event -> Event): Node {
    match saved
    case SaveFailed => s.(cfg := cfg)
    case SaveTruncated => s.(cfg := cfg, savedCfg := s.env)
    case Saved =>
      var replaced := Replaced(s, cfg);
      if cfg.Refills() then Refilled(replaced, read) else replaced
  }

  /** A new setting in force and saved. */
  function Replaced(s: Node, cfg: Config): Node {
    WithPaused(s.(cfg := cfg, savedCfg := cfg))
  }

  /** Memory as a restart finds it, before the queue is refilled. */
  function Blank(s: Node, read: Event -> Event): Node {
    s.(cfg := s.savedCfg, seen := if StoreScannable(s.store) then ReadIds(s.store, read) else {},
       inflight := {}, offsets := map[], queue := NewChannel(s.queue.capacity),
       pending := [], phase := Sending, attempt := 0)
  }

  /** Losing the memory, then `loadSeenIDs` and `bootstrapSpoolQueue`. */
  function Restarted(s: Node, read: Event -> Event): Node {
    var up := Blank(s, read);
    if up.cfg.Enabled() then Refilled(up, read) else up
  }

  /** The head of the worker's loop. */
  function Popped(s: Node, max: int): Node {
    var polled := WithPaused(s);
    if s.pending != [] then polled
    else
      var n := BatchSize(s.queue, max);
      polled.(pending := s.queue.ch[..n], queue := polled.queue.(ch := s.queue.ch[n..]))
  }

  /** One pass over the sorted batch that fails at event `count`, or sends them all. */
  function Sent(s: Node, count: nat, when: string): Node {
    if s.pending == [] || s.phase != Sending then s
    else
      var batch := Prioritized(s.pending);
      if count < |batch| then
        s.(pending := batch, wire := s.wire + batch[..count], attempt := s.attempt + 1,
           queue := AfterFailure(s.queue, |batch|, when))
      else
        s.(pending := batch, wire := s.wire + batch, phase := Delivered)
  }

  function SuccessCounted(s: Node, when: string): Node {
    if s.phase != Delivered then s
    else s.(queue := AfterSuccess(s.queue, |s.pending|, when), phase := Counted)
  }

  /** `markBatchForwarded`. */
  function Marked(s: Node, write: CheckpointWrite): Node {
    if s.phase != Counted then s
    else
      var best := MaxOffset(s.pending, s.offsets);
      s.(phase := Checkpointed,
         spool :=
           if best.None? then s.spool
           else s.spool.(checkpoint := AfterWrite(s.spool.checkpoint, best.value, write)))
  }

  /** `forgetInflight`, and the worker lets go of the batch. */
  function Forgotten(s: Node): Node {
    if s.phase != Checkpointed then s
    else s.(inflight := s.inflight - Ids(s.pending), pending := [], phase := Sending, attempt := 0)
  }

  function Next(s: Node, step: Step, read: Event -> Event): Node {
    match step
    case Ingest(e, io) => Ingested(s, e, io)
    case Configure(cfg, saved) => Configured(s, cfg, saved, read)
    case Refill => Refilled(s, read)
    case Pop(max) => Popped(s, max)
    case Send(count, when) => Sent(s, count, when)
    case CountSuccess(when) => SuccessCounted(s, when)
    case Checkpoint(write) => Marked(s, write)
    case Forget => Forgotten(s)
    case Crash => Restarted(s, read)
  }

  function Run(s: Node, steps: seq<Step>, read: Event -> Event): Node
    decreases |steps|
  {
    if steps == [] then s else Run(Next(s, steps[0], read), steps[1..], read)
  }

  lemma RunOne(s: Node, step: Step, rest: seq<Step>, read: Event -> Event)
    ensures Run(s, [step] + rest, read) == Run(Next(s, step, read), rest, read)
  {
    assert ([step] + rest)[1..] == rest;
  }
}
