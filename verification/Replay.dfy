/** The live catalog against the event log: what the collector's catalog counts is what a new process
    would rebuild from the log (cmd/dmz-collector/main.go, internal/sourcecatalog/catalog.go). */
module Replay {
  import opened Event
  import opened Spool
  import opened EventLog
  import opened Delivery
  import opened Books
  import opened Catalog
  import opened CatalogLog

  /** The pipeline, the history of its catalog since the last start, how long the log was then, and the
      IDs logged since then whose spool append failed: `ingestOne` gives up on those before it shows
      them to the catalog. */
  datatype World = World(node: Node, ops: seq<Op>, booted: nat, unspooled: set<string>)

  datatype Move = Pipeline(step: Step) | Configured(entries: seq<Entry>)

  /** How the process reads events: `read` from a file, `sight` into the catalog, `seed` at start. */
  datatype Reader = Reader(read: Event -> Event, sight: Event -> Sighting, seed: seq<Entry>)

  function Observations(lines: seq<StoreLine>, r: Reader): seq<Op> {
    if lines == [] then []
    else Observations(lines[..|lines| - 1], r) + [Observe(r.sight(r.read(lines[|lines| - 1].event)))]
  }

  /** `SeedConfiguredSources`, then `BootstrapEvents(LoadAll())`: nothing when a line is too long. */
  function Booted(lines: seq<StoreLine>, r: Reader): seq<Op> {
    [Merge(r.seed)] + if StoreScannable(lines) then Observations(lines, r) else []
  }

  function Started(queueSize: nat, cfg: Config, r: Reader): World {
    World(Installed(queueSize, cfg), [Merge(r.seed)], 0, {})
  }

  function WorldNext(w: World, move: Move, r: Reader): World {
    match move
    case Configured(entries) => w.(ops := w.ops + [Merge(entries)])
    case Pipeline(step) =>
      var moved := w.(node := Next(w.node, step, r.read));
      match step
      case Ingest(e, io) =>
        if Accepts(w.node, e, io) then moved.(ops := w.ops + [Observe(r.sight(e))])
        else if e.id !in w.node.seen && io.storeOk then moved.(unspooled := w.unspooled + {e.id})
        else moved
      case Crash => moved.(ops := Booted(w.node.store, r), booted := |w.node.store|, unspooled := {})
      case _ => moved
  }

  function WorldRun(w: World, moves: seq<Move>, r: Reader): World
    decreases |moves|
  {
    if moves == [] then w else WorldRun(WorldNext(w, moves[0], r), moves[1..], r)
  }

  /** What the catalog has seen of the log: up to the last start as it reads back, since then as it came
      in, and not at all when its spool append failed. */
  function Seen(lines: seq<StoreLine>, booted: nat, without: set<string>, r: Reader): seq<Sighting> {
    if lines == [] then [] else
    var n := |lines| - 1;
    Seen(lines[..n], booted, without, r)
    + if n < booted then [r.sight(r.read(lines[n].event))]
      else if lines[n].event.id in without then []
      else [r.sight(lines[n].event)]
  }

  predicate IsBlank(g: Sighting) {
    g.severity == "" || g.category == ""
  }

  /** The catalog sees an event read back from the log as it saw it when it came in, but for a blank
      severity or category, which reads back as a default. */
  ghost predicate ReadsAs(r: Reader, e: Event) {
    var g, h := r.sight(e), r.sight(r.read(e));
    && g.id == e.id
    && h == g.(severity := Or(g.severity, "info"), category := Or(g.category, "unknown"), doc := h.doc)
    && (!IsBlank(g) ==> h == g)
  }

  ghost predicate AllReadAs(r: Reader, lines: seq<StoreLine>) {
    forall i :: 0 <= i < |lines| ==> ReadsAs(r, lines[i].event)
  }

  ghost predicate ReplayInv(w: World, r: Reader) {
    && BooksInv(w.node) && AllReadAs(r, w.node.store)
    && w.booted <= |w.node.store| && w.unspooled <= StoreIds(w.node.store)
    && Accepted(w.ops) == Seen(w.node.store, w.booted, w.unspooled, r)
  }

  lemma SeenOneMore(lines: seq<StoreLine>, l: StoreLine, booted: nat, without: set<string>, r: Reader)
    ensures Seen(lines + [l], booted, without, r) ==
      Seen(lines, booted, without, r)
      + if |lines| < booted then [r.sight(r.read(l.event))]
        else if l.event.id in without then [] else [r.sight(l.event)]
    ensures StoreIds(lines + [l]) == StoreIds(lines) + {l.event.id}
  {
    assert (lines + [l])[..|lines|] == lines;
  }

  lemma {:induction false} SeenAreStored(lines: seq<StoreLine>, booted: nat, without: set<string>, r: Reader)
    requires AllReadAs(r, lines)
    ensures KnownIds(Seen(lines, booted, without, r)) <= StoreIds(lines)
  {
    if lines != [] {
      var front, last := lines[..|lines| - 1], lines[|lines| - 1];
      assert lines == front + [last];
      assert ReadsAs(r, last.event);
      SeenAreStored(front, booted, without, r);
      SeenOneMore(front, last, booted, without, r);
      KnownIdsOneMore(Seen(front, booted, without, r), r.sight(last.event));
      KnownIdsOneMore(Seen(front, booted, without, r), r.sight(r.read(last.event)));
    }
  }

  lemma {:induction false} SeenWithoutOthers(lines: seq<StoreLine>, booted: nat, without: set<string>, id: string,
      r: Reader)
    requires id !in StoreIds(lines)
    ensures Seen(lines, booted, without + {id}, r) == Seen(lines, booted, without, r)
  {
    if lines != [] {
      assert lines[|lines| - 1] in lines;
      assert forall l :: l in lines[..|lines| - 1] ==> l in lines;
      SeenWithoutOthers(lines[..|lines| - 1], booted, without, id, r);
    }
  }

  lemma AcceptedOneMore(ops: seq<Op>, op: Op)
    ensures Accepted(ops + [op]) ==
      if op.Observe? && op.g.id !in KnownIds(Accepted(ops)) then Accepted(ops) + [op.g] else Accepted(ops)
  {
    assert (ops + [op])[..|ops|] == ops;
  }

  lemma OnlySeeded(r: Reader)
    ensures Accepted([Merge(r.seed)]) == []
  {
    assert [Merge(r.seed)] == [] + [Merge(r.seed)];
    AcceptedOneMore([], Merge(r.seed));
  }

  lemma {:induction false} ObservationsAreAccepted(lines: seq<StoreLine>, booted: nat, r: Reader)
    requires OneRecordEach(lines) && "" !in StoreIds(lines) && AllReadAs(r, lines) && |lines| <= booted
    ensures Accepted([Merge(r.seed)] + Observations(lines, r)) == Seen(lines, booted, {}, r)
  {
    if lines == [] {
      OnlySeeded(r);
      assert [Merge(r.seed)] + Observations(lines, r) == [Merge(r.seed)];
    } else {
      var front, last := lines[..|lines| - 1], lines[|lines| - 1];
      assert lines == front + [last];
      hide Seen, Accepted;
      SeenOneMore(front, last, booted, {}, r);
      ObservationsAreAccepted(front, booted, r);
      SeenAreStored(front, booted, {}, r);
      assert last.event.id !in StoreIds(front) && ReadsAs(r, last.event);
      var op := Observe(r.sight(r.read(last.event)));
      assert [Merge(r.seed)] + Observations(lines, r) == [Merge(r.seed)] + Observations(front, r) + [op];
      AcceptedOneMore([Merge(r.seed)] + Observations(front, r), op);
    }
  }

  /** A new process counts every record of the log once, or none at all when a line is too long. */
  lemma BootAcceptsTheLog(lines: seq<StoreLine>, r: Reader)
    requires OneRecordEach(lines) && "" !in StoreIds(lines) && AllReadAs(r, lines)
    ensures Accepted(Booted(lines, r)) == if StoreScannable(lines) then Seen(lines, |lines|, {}, r) else []
  {
    ObservationsAreAccepted(lines, |lines|, r);
    OnlySeeded(r);
    assert [Merge(r.seed)] + [] == [Merge(r.seed)];
  }

  lemma AcceptKeepsReplay(lines: seq<StoreLine>, ops: seq<Op>, booted: nat, without: set<string>, l: StoreLine,
      r: Reader)
    requires Accepted(ops) == Seen(lines, booted, without, r) && without <= StoreIds(lines) && booted <= |lines|
    requires AllReadAs(r, lines) && ReadsAs(r, l.event) && l.event.id !in StoreIds(lines)
    ensures Accepted(ops + [Observe(r.sight(l.event))]) == Seen(lines + [l], booted, without, r)
    ensures Accepted(ops) == Seen(lines + [l], booted, without + {l.event.id}, r)
  {
    SeenOneMore(lines, l, booted, without, r);
    SeenAreStored(lines, booted, without, r);
    AcceptedOneMore(ops, Observe(r.sight(l.event)));
    SeenOneMore(lines, l, booted, without + {l.event.id}, r);
    SeenWithoutOthers(lines, booted, without, l.event.id, r);
  }

  /** A record is added to the log; the catalog sees it unless it is set aside as unspooled. */
  lemma StoreKeepsReplay(w: World, t: World, l: StoreLine, r: Reader)
    requires ReplayInv(w, r) && BooksInv(t.node) && l.event.id !in w.node.seen
    requires ReadsAs(r, l.event) && t.node.store == w.node.store + [l]
    requires t == w.(node := t.node, ops := w.ops + [Observe(r.sight(l.event))])
          || t == w.(node := t.node, unspooled := w.unspooled + {l.event.id})
    ensures ReplayInv(t, r)
  {
    hide BooksInv, Seen, Accepted, ReadsAs, StoreIds;
    UnseenIsNotStored(w.node, l.event.id);
    AcceptKeepsReplay(w.node.store, w.ops, w.booted, w.unspooled, l, r);
    SeenOneMore(w.node.store, l, 0, {}, r);
  }

  lemma IngestKeepsReplay(w: World, e: Event, io: Appends, r: Reader)
    requires ReplayInv(w, r) && e.id != "" && ReadsAs(r, e)
    ensures ReplayInv(WorldNext(w, Pipeline(Ingest(e, io)), r), r)
  {
    var t := WorldNext(w, Pipeline(Ingest(e, io)), r);
    IngestKeepsBooks(w.node, e, io);
    IngestStores(w.node, e, io);
    if e.id !in w.node.seen && io.storeOk {
      StoreKeepsReplay(w, t, StoreLine(e, io.storeSize), r);
    }
  }

  lemma IngestStores(s: Node, e: Event, io: Appends)
    ensures Ingested(s, e, io).store ==
      if e.id !in s.seen && io.storeOk then s.store + [StoreLine(e, io.storeSize)] else s.store
  {
  }

  /** Steps that leave the log alone. */
  lemma OtherStepsKeepTheLog(s: Node, step: Step, read: Event -> Event)
    requires !step.Ingest?
    ensures Next(s, step, read).store == s.store
  {
    match step
    case Configure(cfg, saved) =>
      EnqueueAllKeepsDisk(Replaced(s, cfg), PendingRecords(s.spool.lines, s.spool.checkpoint, read));
    case Refill => EnqueueAllKeepsDisk(s, PendingRecords(s.spool.lines, s.spool.checkpoint, read));
    case Crash => RestartForgets(s, read);
    case _ =>
  }

  lemma OtherStepsKeepReplay(w: World, step: Step, r: Reader)
    requires ReplayInv(w, r) && KeepsBooks(w.node, step) && KeepsIds(r.read) && !step.Ingest?
    ensures ReplayInv(WorldNext(w, Pipeline(step), r), r)
  {
    hide BooksInv, Next, Booted, Seen, Accepted, AllReadAs;
    StepKeepsBooksIff(w.node, step, r.read);
    OtherStepsKeepTheLog(w.node, step, r.read);
    if step.Crash? { BootOfBooks(w.node, r); }
  }

  lemma BootOfBooks(s: Node, r: Reader)
    requires BooksInv(s) && AllReadAs(r, s.store)
    ensures Accepted(Booted(s.store, r)) == if StoreScannable(s.store) then Seen(s.store, |s.store|, {}, r) else []
  {
    hide QueueInv, OffsetInv, AllReadAs, Booted, Seen, Accepted;
    BootAcceptsTheLog(s.store, r);
  }

  lemma UnseenIsNotStored(s: Node, id: string)
    requires BooksInv(s) && id !in s.seen
    ensures id !in StoreIds(s.store)
  {
  }

  /** Events that carry an ID and read back but for blanks. */
  ghost predicate Regular(move: Move, r: Reader) {
    move.Pipeline? && move.step.Ingest? ==> move.step.event.id != "" && ReadsAs(r, move.step.event)
  }

  /** Every restart of the run can scan the log. */
  predicate RestartsScan(w: World, moves: seq<Move>, r: Reader)
    decreases |moves|
  {
    moves != [] ==>
      && (moves[0].Pipeline? ==> KeepsBooks(w.node, moves[0].step))
      && RestartsScan(WorldNext(w, moves[0], r), moves[1..], r)
  }

  lemma MoveKeepsReplay(w: World, move: Move, r: Reader)
    requires ReplayInv(w, r) && KeepsIds(r.read) && Regular(move, r)
    requires move.Pipeline? ==> KeepsBooks(w.node, move.step)
    ensures ReplayInv(WorldNext(w, move, r), r)
  {
    match move
    case Configured(entries) => AcceptedOneMore(w.ops, Merge(entries));
    case Pipeline(step) =>
      if step.Ingest? {
        IngestKeepsReplay(w, step.event, step.io, r);
      } else {
        OtherStepsKeepReplay(w, step, r);
      }
  }

  lemma {:induction false} RunKeepsReplay(w: World, moves: seq<Move>, r: Reader)
    requires ReplayInv(w, r) && KeepsIds(r.read)
    requires (forall move :: move in moves ==> Regular(move, r)) && RestartsScan(w, moves, r)
    ensures ReplayInv(WorldRun(w, moves, r), r)
    decreases |moves|
  {
    if moves != [] {
      MoveKeepsReplay(w, moves[0], r);
      RunKeepsReplay(WorldNext(w, moves[0], r), moves[1..], r);
    }
  }

  lemma StartKeepsReplay(queueSize: nat, cfg: Config, r: Reader)
    ensures ReplayInv(Started(queueSize, cfg, r), r)
  {
    InstalledKeepsBooks(queueSize, cfg);
    OnlySeeded(r);
  }

  // ----- the two catalogs compared -----

  /** How many records logged since the last start have a property. */
  function Since(lines: seq<StoreLine>, booted: nat, has: Event -> bool): nat {
    if lines == [] then 0 else
    var n := |lines| - 1;
    Since(lines[..n], booted, has) + if n >= booted && has(lines[n].event) then 1 else 0
  }

  /** Records of a source that the live catalog never saw. */
  function Missing(w: World, k: string, r: Reader): Event -> bool {
    (e: Event) => e.id in w.unspooled && r.sight(e).key == k
  }

  /** Records of a source that it saw with a blank severity or category. */
  function Blank(w: World, k: string, r: Reader): Event -> bool {
    (e: Event) => e.id !in w.unspooled && r.sight(e).key == k && IsBlank(r.sight(e))
  }

  function LiveLog(w: World, lines: seq<StoreLine>, k: string, r: Reader): seq<Sighting> {
    LogOf(Seen(lines, w.booted, w.unspooled, r), k)
  }

  function BootLog(w: World, lines: seq<StoreLine>, k: string, r: Reader): seq<Sighting> {
    LogOf(Seen(lines, |w.node.store|, {}, r), k)
  }

  /** One line more in both logs. */
  lemma LogsOneMore(w: World, front: seq<StoreLine>, last: StoreLine, k: string, r: Reader)
    requires ReadsAs(r, last.event) && |front| < |w.node.store|
    ensures var g, h := r.sight(last.event), r.sight(r.read(last.event));
      && BootLog(w, front + [last], k, r) == BootLog(w, front, k, r) + (if g.key == k then [h] else [])
      && LiveLog(w, front + [last], k, r) ==
           LiveLog(w, front, k, r)
           + if g.key != k then [] else if |front| < w.booted then [h]
             else if last.event.id in w.unspooled then [] else [g]
  {
    SeenOneMore(front, last, w.booted, w.unspooled, r);
    SeenOneMore(front, last, |w.node.store|, {}, r);
    LogOneMore(Seen(front, |w.node.store|, {}, r), r.sight(r.read(last.event)), k);
    LogOneMore(Seen(front, w.booted, w.unspooled, r), r.sight(r.read(last.event)), k);
    LogOneMore(Seen(front, w.booted, w.unspooled, r), r.sight(last.event), k);
    assert Seen(front, w.booted, w.unspooled, r) + [] == Seen(front, w.booted, w.unspooled, r);
    assert LiveLog(w, front, k, r) + [] == LiveLog(w, front, k, r);
  }

  lemma SinceOneMore(front: seq<StoreLine>, last: StoreLine, booted: nat, has: Event -> bool)
    ensures Since(front + [last], booted, has) ==
      Since(front, booted, has) + if |front| >= booted && has(last.event) then 1 else 0
  {
    assert (front + [last])[..|front|] == front;
  }

  /** The rebuilt log holds the missing records besides, and without missing and blank ones the logs are
      the same. */
  lemma {:induction false} LogsCompare(w: World, lines: seq<StoreLine>, k: string, r: Reader)
    requires AllReadAs(r, lines) && |lines| <= |w.node.store|
    ensures |BootLog(w, lines, k, r)| == |LiveLog(w, lines, k, r)| + Since(lines, w.booted, Missing(w, k, r))
    ensures Since(lines, w.booted, Missing(w, k, r)) == 0 && Since(lines, w.booted, Blank(w, k, r)) == 0 ==>
      BootLog(w, lines, k, r) == LiveLog(w, lines, k, r)
  {
    if lines != [] {
      var front, last := lines[..|lines| - 1], lines[|lines| - 1];
      assert lines == front + [last] && ReadsAs(r, last.event);
      LogsCompare(w, front, k, r);
      LogsOneMore(w, front, last, k, r);
      SinceOneMore(front, last, w.booted, Missing(w, k, r));
      SinceOneMore(front, last, w.booted, Blank(w, k, r));
    }
  }

  predicate HasBlank(log: seq<Sighting>) {
    exists i :: 0 <= i < |log| && IsBlank(log[i])
  }

  lemma HasBlankOneMore(log: seq<Sighting>, g: Sighting)
    ensures HasBlank(log + [g]) <==> HasBlank(log) || IsBlank(g)
  {
    if IsBlank(g) { assert (log + [g])[|log|] == g; }
    if i :| 0 <= i < |log| && IsBlank(log[i]) { assert (log + [g])[i] == log[i]; }
  }

  /** Nothing reads back blank; what came in blank is blank in the live log. */
  lemma {:induction false} BlanksAreLive(w: World, lines: seq<StoreLine>, k: string, r: Reader)
    requires AllReadAs(r, lines) && |lines| <= |w.node.store|
    ensures !HasBlank(BootLog(w, lines, k, r))
    ensures Since(lines, w.booted, Blank(w, k, r)) > 0 ==> HasBlank(LiveLog(w, lines, k, r))
  {
    if lines != [] {
      var front, last := lines[..|lines| - 1], lines[|lines| - 1];
      var g, h := r.sight(last.event), r.sight(r.read(last.event));
      assert lines == front + [last] && ReadsAs(r, last.event) && !IsBlank(h);
      BlanksAreLive(w, front, k, r);
      LogsOneMore(w, front, last, k, r);
      SinceOneMore(front, last, w.booted, Blank(w, k, r));
      HasBlankOneMore(BootLog(w, front, k, r), h);
      HasBlankOneMore(LiveLog(w, front, k, r), h);
      HasBlankOneMore(LiveLog(w, front, k, r), g);
      assert LiveLog(w, front, k, r) + [] == LiveLog(w, front, k, r);
      assert BootLog(w, front, k, r) + [] == BootLog(w, front, k, r);
    }
  }

  /** The counters of a log show whether it has a blank. */
  lemma CountersShowBlanks(log: seq<Sighting>)
    ensures HasBlank(log) <==> "" in CountersOfLog(log).severities || "" in CountersOfLog(log).categories
  {
    if i :| 0 <= i < |log| && IsBlank(log[i]) {
      assert Severities(log)[i] in Severities(log) && Categories(log)[i] in Categories(log);
    }
    if "" in Severities(log) {
      var i :| 0 <= i < |log| && Severities(log)[i] == "";
      assert IsBlank(log[i]);
    }
    if "" in Categories(log) {
      var i :| 0 <= i < |log| && Categories(log)[i] == "";
      assert IsBlank(log[i]);
    }
  }

  lemma SameCountersIff(w: World, lines: seq<StoreLine>, k: string, r: Reader)
    requires AllReadAs(r, lines) && |lines| <= |w.node.store|
    ensures CountersOfLog(LiveLog(w, lines, k, r)) == CountersOfLog(BootLog(w, lines, k, r)) <==>
      Since(lines, w.booted, Missing(w, k, r)) == 0 && Since(lines, w.booted, Blank(w, k, r)) == 0
  {
    LogsCompare(w, lines, k, r);
    BlanksAreLive(w, lines, k, r);
    CountersShowBlanks(LiveLog(w, lines, k, r));
    CountersShowBlanks(BootLog(w, lines, k, r));
  }

  function LiveCounters(w: World, k: string): Counters {
    CountersOf(After(w.ops), k)
  }

  /** The counters of a catalog that a restart would build now. */
  function RebuiltCounters(w: World, k: string, r: Reader): Counters {
    CountersOf(After(Booted(w.node.store, r)), k)
  }

  /** The two catalogs agree on a source exactly when the log can be scanned and holds, since the last
      start, no record of the source that the live catalog missed or saw blank - or when it cannot be
      scanned and the live catalog has counted nothing for the source. */
  ghost predicate AgreesOn(w: World, k: string, r: Reader) {
    if StoreScannable(w.node.store) then
      Since(w.node.store, w.booted, Missing(w, k, r)) == 0 && Since(w.node.store, w.booted, Blank(w, k, r)) == 0
    else LiveCounters(w, k).events == 0
  }

  lemma ReplayIff(w: World, k: string, r: Reader)
    requires ReplayInv(w, r)
    ensures LiveCounters(w, k) == RebuiltCounters(w, k, r) <==> AgreesOn(w, k, r)
    ensures RebuiltCounters(w, k, r).events ==
      if StoreScannable(w.node.store) then
        LiveCounters(w, k).events + Since(w.node.store, w.booted, Missing(w, k, r))
      else 0
  {
    var lines := w.node.store;
    BootAcceptsTheLog(lines, r);
    CountersAreTheLogs(w.ops, k);
    CountersAreTheLogs(Booted(lines, r), k);
    SameCountersIff(w, lines, k, r);
    LogsCompare(w, lines, k, r);
    if !StoreScannable(lines) && LiveLog(w, lines, k, r) == [] {
      assert LogOf([], k) == [];
    }
  }

  /** In every run whose restarts can scan the log, live and rebuilt counters agree on a source exactly
      as `AgreesOn` says, and the rebuilt catalog counts the missed records besides. */
  lemma LiveIsReplayIff(queueSize: nat, cfg: Config, moves: seq<Move>, r: Reader, k: string)
    requires KeepsIds(r.read) && (forall move :: move in moves ==> Regular(move, r))
    requires RestartsScan(Started(queueSize, cfg, r), moves, r)
    ensures var w := WorldRun(Started(queueSize, cfg, r), moves, r);
      && (LiveCounters(w, k) == RebuiltCounters(w, k, r) <==> AgreesOn(w, k, r))
      && RebuiltCounters(w, k, r).events ==
           if StoreScannable(w.node.store) then
             LiveCounters(w, k).events + Since(w.node.store, w.booted, Missing(w, k, r))
           else 0
  {
    hide *;
    StartKeepsReplay(queueSize, cfg, r);
    RunKeepsReplay(Started(queueSize, cfg, r), moves, r);
    ReplayIff(WorldRun(Started(queueSize, cfg, r), moves, r), k, r);
  }

  // ----- where they differ -----

  /** A new collector has taken in one event, and both its appends succeeded. */
  function OneTakenIn(queueSize: nat, cfg: Config, e: Event, io: Appends, r: Reader): World {
    WorldNext(Started(queueSize, cfg, r), Pipeline(Ingest(e, io)), r)
  }

  lemma OneStored(queueSize: nat, cfg: Config, e: Event, io: Appends, r: Reader)
    requires e.id != "" && ReadsAs(r, e) && io.storeOk && io.spoolOk
    ensures var w := OneTakenIn(queueSize, cfg, e, io, r);
      ReplayInv(w, r) && w.node.store == [StoreLine(e, io.storeSize)] && w.booted == 0 && w.unspooled == {}
  {
    StartKeepsReplay(queueSize, cfg, r);
    IngestKeepsReplay(Started(queueSize, cfg, r), e, io, r);
    IngestStores(Installed(queueSize, cfg), e, io);
  }

  lemma SeenOfOne(l: StoreLine, r: Reader)
    ensures Seen([l], 0, {}, r) == [r.sight(l.event)] && Seen([l], 1, {}, r) == [r.sight(r.read(l.event))]
  {
    assert [l] == [] + [l];
    SeenOneMore([], l, 0, {}, r);
    SeenOneMore([], l, 1, {}, r);
  }

  lemma LogOfNone(k: string)
    ensures LogOf([], k) == []
  {
  }

  lemma LogOfOne(g: Sighting)
    ensures LogOf([g], g.key) == [g]
  {
    assert [g] == [] + [g];
    LogOneMore([], g, g.key);
  }

  lemma CountersOfOne(w: World, l: StoreLine, r: Reader)
    requires ReplayInv(w, r) && w.node.store == [l] && w.booted == 0 && w.unspooled == {}
    ensures var k := r.sight(l.event).key;
      && LiveCounters(w, k) == CountersOfLog([r.sight(l.event)])
      && RebuiltCounters(w, k, r) == CountersOfLog(if l.size < SCAN_LIMIT then [r.sight(r.read(l.event))] else [])
  {
    hide BooksInv, Booted, Seen, LogOf, CountersOfLog, CountersOf, After, Accepted;
    var k := r.sight(l.event).key;
    assert ReadsAs(r, w.node.store[0].event);
    SeenOfOne(l, r);
    LogOfNone(k);
    LogOfOne(r.sight(l.event));
    LogOfOne(r.sight(r.read(l.event)));
    BootOfBooks(w.node, r);
    CountersAreTheLogs(w.ops, k);
    CountersAreTheLogs(Booted(w.node.store, r), k);
  }

  /** One line of 64 KiB: the live catalog counts its event, a rebuilt one counts nothing. */
  lemma LongLineEmptiesTheCatalog(queueSize: nat, cfg: Config, e: Event, io: Appends, r: Reader)
    requires e.id != "" && ReadsAs(r, e) && io.storeOk && io.spoolOk && io.storeSize >= SCAN_LIMIT
    ensures var w, k := OneTakenIn(queueSize, cfg, e, io, r), r.sight(e).key;
      LiveCounters(w, k).events == 1 && RebuiltCounters(w, k, r).events == 0
  {
    OneStored(queueSize, cfg, e, io, r);
    CountersOfOne(OneTakenIn(queueSize, cfg, e, io, r), StoreLine(e, io.storeSize), r);
  }

  /** A blank severity: the live catalog counts it as "", a rebuilt one as "info". */
  lemma BlankIsRecounted(queueSize: nat, cfg: Config, e: Event, io: Appends, r: Reader)
    requires e.id != "" && ReadsAs(r, e) && io.storeOk && io.spoolOk && io.storeSize < SCAN_LIMIT
    requires r.sight(e).severity == ""
    ensures var w, k := OneTakenIn(queueSize, cfg, e, io, r), r.sight(e).key;
      LiveCounters(w, k).severities == map["" := 1] && RebuiltCounters(w, k, r).severities == map["info" := 1]
  {
    OneStored(queueSize, cfg, e, io, r);
    CountersOfOne(OneTakenIn(queueSize, cfg, e, io, r), StoreLine(e, io.storeSize), r);
    SeveritiesOfOne(r.sight(e));
    SeveritiesOfOne(r.sight(r.read(e)));
  }

  lemma SeveritiesOfOne(g: Sighting)
    ensures CountersOfLog([g]).severities == map[g.severity := 1]
  {
    assert Severities([g]) == [g.severity];
    assert multiset([g.severity])[g.severity] == 1;
  }
}
