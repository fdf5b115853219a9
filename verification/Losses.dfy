/** When a step strands records, in closed form, and what failed saves, failed appends and long lines
    cost. */
module Losses {
  import opened Event
  import opened Wrappers
  import opened Spool
  import opened Queue
  import opened Batch
  import opened EventLog
  import opened Delivery
  import opened Books
  import opened Watermark

  // ----- how much room a refill needs -----

  predicate DistinctRecords(rs: seq<SpoolRecord>) {
    forall i, j :: 0 <= i < j < |rs| ==> rs[i].event.id != rs[j].event.id
  }

  function Room(q: Channel): nat {
    if q.Full() then 0 else q.capacity - |q.ch|
  }

  function Excess(waiting: nat, room: nat): nat {
    if waiting <= room then 0 else waiting - room
  }

  lemma OneFewerWaits(ids: set<string>, id: string, inflight: set<string>)
    requires id !in ids
    ensures |{id} + ids - inflight| == |ids - (inflight + {id})| + if id in inflight then 0 else 1
  {
    if id in inflight {
      assert {id} + ids - inflight == ids - (inflight + {id});
    } else {
      assert {id} + ids - inflight == ids - (inflight + {id}) + {id};
    }
  }

  lemma OneEnqueued(s: Node, e: Event, offset: nat, ids: set<string>)
    requires !s.queue.Full() && e.id !in ids
    ensures var t := Enqueue(s, e, offset);
      Excess(|{e.id} + ids - s.inflight|, Room(s.queue)) == Excess(|ids - t.inflight|, Room(t.queue))
  {
    OneFewerWaits(ids, e.id, s.inflight);
    if e.id in s.inflight { assert s.inflight + {e.id} == s.inflight; }
  }

  lemma HeadIsNotInTail(rs: seq<SpoolRecord>)
    requires DistinctRecords(rs) && rs != []
    ensures rs[0].event.id !in RecordIds(rs[1..]) && DistinctRecords(rs[1..])
  {
  }

  /** Exactly the records that find no free slot are left out. */
  lemma {:induction false} LeftOutCount(s: Node, rs: seq<SpoolRecord>)
    requires DistinctRecords(rs)
    ensures |LeftOut(s, rs)| == Excess(|RecordIds(rs) - s.inflight|, Room(s.queue))
    decreases |rs|
  {
    if s.queue.Full() {
      FullLeavesOut(s, rs);
    } else if rs != [] {
      var t := Enqueue(s, rs[0].event, rs[0].offset);
      FirstRecordId(rs);
      HeadIsNotInTail(rs);
      LeftOutCount(t, rs[1..]);
      assert LeftOut(s, rs) == {} + LeftOut(t, rs[1..]);
      OneEnqueued(s, rs[0].event, rs[0].offset, RecordIds(rs[1..]));
    }
  }

  lemma {:induction false} PendingAreDistinct(lines: seq<Line>, checkpoint: nat, read: Event -> Event)
    requires OneLineEach(lines) && "" !in SpoolIds(lines) && KeepsIds(read)
    ensures DistinctRecords(PendingRecords(lines, checkpoint, read))
    ensures RecordIds(PendingRecords(lines, checkpoint, read)) <= SpoolIds(lines)
  {
    if lines != [] {
      var front, last := lines[..|lines| - 1], lines[|lines| - 1];
      assert SpoolIds(lines) == SpoolIds(front) + {last.event.id} by { assert lines == front + [last]; }
      NewestIsNotOlder(lines);
      hide SpoolIds, OneLineEach;
      NamedKeepId(lines, read);
      PendingAreDistinct(front, checkpoint, read);
      var older := PendingRecords(front, checkpoint, read);
      assert forall i :: 0 <= i < |older| ==> older[i].event.id in RecordIds(older);
    }
  }

  lemma NamedKeepId(lines: seq<Line>, read: Event -> Event)
    requires lines != [] && "" !in SpoolIds(lines) && KeepsIds(read)
    ensures read(lines[|lines| - 1].event).id == lines[|lines| - 1].event.id
  {
    assert lines[|lines| - 1] in lines;
  }

  lemma NewestIsNotOlder(lines: seq<Line>)
    requires OneLineEach(lines) && lines != []
    ensures lines[|lines| - 1].event.id !in SpoolIds(lines[..|lines| - 1]) && OneLineEach(lines[..|lines| - 1])
  {
  }

  /** A refill places everything it finds exactly when the spool can be scanned and has no more
      records waiting than the channel has free slots, or nothing waits at all. */
  lemma RefillIsCompleteIff(s: Node, read: Event -> Event)
    requires BooksInv(s) && KeepsIds(read)
    ensures Unplaced(s, read) == {} <==>
      Waiting(s, read) == {} || (Scannable(s.spool.lines) && |Waiting(s, read)| <= Room(s.queue))
  {
    PendingAreDistinct(s.spool.lines, s.spool.checkpoint, read);
    if Scannable(s.spool.lines) { LeftOutCount(s, Recoverable(s, read)); }
  }

  /** The records that are not in flight, in their order. */
  function StillWaiting(rs: seq<SpoolRecord>, inflight: set<string>): seq<SpoolRecord> {
    if rs == [] then []
    else if rs[0].event.id in inflight then StillWaiting(rs[1..], inflight)
    else [rs[0]] + StillWaiting(rs[1..], inflight)
  }

  function Beyond(rs: seq<SpoolRecord>, n: nat): seq<SpoolRecord> {
    if |rs| <= n then [] else rs[n..]
  }

  lemma {:induction false} WaitingIds(rs: seq<SpoolRecord>, inflight: set<string>)
    ensures RecordIds(StillWaiting(rs, inflight)) == RecordIds(rs) - inflight
    ensures forall r :: r in StillWaiting(rs, inflight) ==> r in rs
  {
    if rs != [] {
      WaitingIds(rs[1..], inflight);
      FirstRecordId(rs);
      if rs[0].event.id !in inflight {
        var w := StillWaiting(rs, inflight);
        assert w[1..] == StillWaiting(rs[1..], inflight);
        FirstRecordId(w);
      }
    }
  }

  lemma {:induction false} OthersStillWait(rs: seq<SpoolRecord>, inflight: set<string>, id: string)
    requires id !in RecordIds(rs)
    ensures StillWaiting(rs, inflight + {id}) == StillWaiting(rs, inflight)
  {
    if rs != [] {
      FirstRecordId(rs);
      OthersStillWait(rs[1..], inflight, id);
    }
  }

  /** What enqueuing leaves out: the waiting records after the first free slots, in file order. */
  lemma {:induction false} LeftOutIsTheRest(s: Node, rs: seq<SpoolRecord>)
    requires DistinctRecords(rs)
    ensures LeftOut(s, rs) == RecordIds(Beyond(StillWaiting(rs, s.inflight), Room(s.queue)))
    decreases |rs|
  {
    if s.queue.Full() {
      FullLeavesOut(s, rs);
      WaitingIds(rs, s.inflight);
      assert Beyond(StillWaiting(rs, s.inflight), 0) == StillWaiting(rs, s.inflight);
    } else if rs != [] {
      var t, w := Enqueue(s, rs[0].event, rs[0].offset), StillWaiting(rs, s.inflight);
      HeadIsNotInTail(rs);
      LeftOutIsTheRest(t, rs[1..]);
      assert LeftOut(s, rs) == {} + LeftOut(t, rs[1..]);
      if rs[0].event.id !in s.inflight {
        OthersStillWait(rs[1..], s.inflight, rs[0].event.id);
        BeyondOneMore(rs[0], StillWaiting(rs[1..], s.inflight), Room(s.queue));
      }
    }
  }

  lemma BeyondOneMore(r: SpoolRecord, rs: seq<SpoolRecord>, n: nat)
    requires n > 0
    ensures Beyond([r] + rs, n) == Beyond(rs, n - 1)
  {
  }

  /** What a refill of this state strands unless it has been sent. */
  function Overflow(s: Node, read: Event -> Event): seq<SpoolRecord> {
    var waiting := StillWaiting(Recoverable(s, read), s.inflight);
    if Scannable(s.spool.lines) then Beyond(waiting, Room(s.queue)) else waiting
  }

  lemma UnplacedIsTheOverflow(s: Node, read: Event -> Event)
    requires BooksInv(s) && KeepsIds(read)
    ensures Unplaced(s, read) == RecordIds(Overflow(s, read))
  {
    PendingAreDistinct(s.spool.lines, s.spool.checkpoint, read);
    WaitingIds(Recoverable(s, read), s.inflight);
    if Scannable(s.spool.lines) { LeftOutIsTheRest(s, Recoverable(s, read)); }
  }

  /** The guard of a crash in closed form: the event log can be scanned and, if forwarding comes up
      enabled, every record past the checkpoint has been sent except as many, in file order, as the
      channel holds - or none at all if the spool cannot be scanned. */
  lemma CrashGuardIff(s: Node, read: Event -> Event)
    requires BooksInv(s) && KeepsIds(read)
    ensures Guard(s, Crash, read) <==>
      StoreScannable(s.store) &&
      (s.savedCfg.Enabled() ==>
         var room := if Scannable(s.spool.lines) then s.queue.capacity else 0;
         RecordIds(Beyond(Recoverable(s, read), room)) <= Ids(s.wire))
  {
    GuardOfCrash(s, read);
    if StoreScannable(s.store) {
      BlankKeepsBooks(s, read);
      UnplacedIsTheOverflow(Blank(s, read), read);
      BlankOverflow(s, read);
    }
  }

  lemma BlankOverflow(s: Node, read: Event -> Event)
    requires s.queue.capacity >= FLOOR
    ensures Overflow(Blank(s, read), read) ==
      Beyond(Recoverable(s, read), if Scannable(s.spool.lines) then s.queue.capacity else 0)
  {
    hide StillWaiting, PendingRecords, Scannable, ReadIds, StoreScannable;
    NoneInFlight(Recoverable(s, read));
  }

  lemma {:induction false} NoneInFlight(rs: seq<SpoolRecord>)
    ensures StillWaiting(rs, {}) == rs
  {
    if rs != [] { NoneInFlight(rs[1..]); }
  }

  /** And of a configuration change: what it refills overflows by sent records only, and without a
      refill nothing unsent may wait. */
  lemma ConfigureGuardIff(s: Node, cfg: Config, saved: Save, read: Event -> Event)
    requires BooksInv(s) && KeepsIds(read)
    ensures Guard(s, Configure(cfg, saved), read) <==>
      (cfg.Enabled() ==>
         var left := if saved.Saved? then Overflow(s, read) else StillWaiting(Recoverable(s, read), s.inflight);
         RecordIds(left) <= Ids(s.wire))
  {
    GuardOfConfigure(s, cfg, saved, read);
    UnplacedIsTheOverflow(s, read);
    WaitingIds(Recoverable(s, read), s.inflight);
  }

  // ----- what a failed save of the configuration costs -----

  const OK := Appends(true, true, 9, 9)
  const PAUSED := Config(true, false, true)
  const RESUMED := Config(false, false, true)

  /** Two events are spooled while forwarding is paused. */
  function SpooledWhilePaused(a: Event, b: Event): Node {
    var lines := [Line(0, a, 9), Line(10, b, 9)];
    Installed(4096, PAUSED).(store := [StoreLine(a, 9), StoreLine(b, 9)], spool := Files(lines, 0),
                             seen := {a.id, b.id}, offsets := map[a.id := 0, b.id := 10])
  }

  lemma SpoolsWhilePaused(a: Event, b: Event, rest: seq<Step>, read: Event -> Event)
    requires a.id != b.id
    ensures Run(Installed(4096, PAUSED), [Ingest(a, OK)] + ([Ingest(b, OK)] + rest), read) ==
      Run(SpooledWhilePaused(a, b), rest, read)
  {
    var s := Installed(4096, PAUSED);
    RunOne(s, Ingest(a, OK), [Ingest(b, OK)] + rest, read);
    var t := Next(s, Ingest(a, OK), read);
    assert t.spool.lines == [Line(0, a, 9)];
    SizeOneMore([], a, 9);
    RunOne(t, Ingest(b, OK), rest, read);
    var u := Next(t, Ingest(b, OK), read);
    assert u.spool.lines == [Line(0, a, 9), Line(10, b, 9)];
    assert u.offsets == map[a.id := 0, b.id := 10] && u.store == [StoreLine(a, 9), StoreLine(b, 9)];
    assert u == SpooledWhilePaused(a, b);
  }

  /** A third event comes in after forwarding was resumed without a refill: it is all the queue holds. */
  function OnlyTheThird(a: Event, b: Event, c: Event): Node {
    var s := SpooledWhilePaused(a, b);
    s.(cfg := RESUMED, store := s.store + [StoreLine(c, 9)],
       spool := s.spool.(lines := s.spool.lines + [Line(20, c, 9)]), seen := s.seen + {c.id},
       offsets := s.offsets[c.id := 20], inflight := {c.id}, queue := Pushed(s.queue, c))
  }

  lemma QueuesOnlyTheThird(a: Event, b: Event, c: Event, rest: seq<Step>, read: Event -> Event)
    requires c.id != a.id && c.id != b.id
    ensures Run(SpooledWhilePaused(a, b), [Configure(RESUMED, SaveFailed)] + ([Ingest(c, OK)] + rest), read)
         == Run(OnlyTheThird(a, b, c), rest, read)
  {
    var s := SpooledWhilePaused(a, b);
    RunOne(s, Configure(RESUMED, SaveFailed), [Ingest(c, OK)] + rest, read);
    var t := Next(s, Configure(RESUMED, SaveFailed), read);
    RunOne(t, Ingest(c, OK), rest, read);
    SizeOneMore([], a, 9);
    SizeOneMore([Line(0, a, 9)], b, 9);
    assert [] + [Line(0, a, 9)] == [Line(0, a, 9)] && [Line(0, a, 9)] + [Line(10, b, 9)] == s.spool.lines;
    assert FileSize(s.spool.lines) == 20;
    var u := Next(t, Ingest(c, OK), read);
    assert u.offsets == t.offsets[c.id := 20];
    assert u == OnlyTheThird(a, b, c);
  }

  /** The worker sends that one event and checkpoints it. */
  function ThirdIsSent(a: Event, b: Event, c: Event): Node {
    var s := OnlyTheThird(a, b, c);
    s.(queue := Channel(4096, [], QueueStats(0, 1, 0, "", "", false)), inflight := {}, wire := [c],
       spool := s.spool.(checkpoint := 20))
  }

  /** One round of the worker in which every send succeeds. */
  function Round(max: int, all: nat): seq<Step> {
    [Pop(max), Send(all, ""), CountSuccess(""), Checkpoint(Written), Forget]
  }

  function AfterRound(s: Node, max: int, all: nat): Node {
    Forgotten(Marked(SuccessCounted(Sent(Popped(s, max), all, ""), ""), Written))
  }

  lemma RoundInSteps(max: int, all: nat, rest: seq<Step>)
    ensures Round(max, all) + rest ==
      [Pop(max)] + ([Send(all, "")] + ([CountSuccess("")] + ([Checkpoint(Written)] + ([Forget] + rest))))
  {
  }

  lemma RunsRound(s: Node, max: int, all: nat, rest: seq<Step>, read: Event -> Event)
    ensures Run(s, Round(max, all) + rest, read) == Run(AfterRound(s, max, all), rest, read)
  {
    hide Popped, Sent, SuccessCounted, Marked, Forgotten;
    var r2, r3, r4 := [Forget] + rest, [Checkpoint(Written)] + ([Forget] + rest),
      [CountSuccess("")] + ([Checkpoint(Written)] + ([Forget] + rest));
    RoundInSteps(max, all, rest);
    var s1 := Popped(s, max);
    var s2 := Sent(s1, all, "");
    var s3 := SuccessCounted(s2, "");
    RunOne(s, Pop(max), [Send(all, "")] + r4, read);
    RunOne(s1, Send(all, ""), r4, read);
    RunOne(s2, CountSuccess(""), r3, read);
    RunOne(s3, Checkpoint(Written), r2, read);
    RunOne(Marked(s3, Written), Forget, rest, read);
  }

  /** A round with a single event in the channel. */
  lemma RoundOfOne(s: Node, c: Event)
    requires s.queue.ch == [c] && s.pending == [] && s.phase == Sending && c.id in s.offsets
    ensures AfterRound(s, 50, 1) ==
      WithPaused(s).(queue := AfterSuccess(WithPaused(s).queue, 1, "").(ch := []), inflight := s.inflight - {c.id},
        attempt := 0,
                     wire := s.wire + [c], spool := s.spool.(checkpoint := s.offsets[c.id]))
  {
    hide Marked, Forgotten;
    SendOne(s, c);
    MarkOne(SuccessCounted(Sent(Popped(s, 50), 1, ""), ""), c);
  }

  lemma SendOne(s: Node, c: Event)
    requires s.queue.ch == [c] && s.pending == [] && s.phase == Sending
    ensures Sent(Popped(s, 50), 1, "") ==
      WithPaused(s).(queue := WithPaused(s).queue.(ch := []), pending := [c], wire := s.wire + [c], phase := Delivered)
  {
    hide Prioritized;
    OrderedIsPrioritized([c]);
    assert s.queue.ch[..1] == [c] && s.queue.ch[1..] == [];
  }

  lemma MarkOne(s: Node, c: Event)
    requires s.phase == Counted && s.pending == [c] && c.id in s.offsets
    ensures Forgotten(Marked(s, Written)) ==
      s.(inflight := s.inflight - {c.id}, pending := [], phase := Sending, attempt := 0,
        spool := s.spool.(checkpoint := s.offsets[c.id]))
  {
    hide Ids;
    assert MaxOffset([c], s.offsets) == Some(s.offsets[c.id]) by { assert [c][..0] == []; }
    IdsOfOne(c);
  }

  lemma SendsTheThird(a: Event, b: Event, c: Event)
    ensures AfterRound(OnlyTheThird(a, b, c), 50, 1) == ThirdIsSent(a, b, c)
  {
    assert OnlyTheThird(a, b, c).queue.ch == [c];
    RoundOfOne(OnlyTheThird(a, b, c), c);
  }

  lemma {:induction false} NonePending(lines: seq<Line>, checkpoint: nat, read: Event -> Event)
    requires forall i :: 0 <= i < |lines| ==> lines[i].offset <= checkpoint
    ensures PendingRecords(lines, checkpoint, read) == []
  {
    if lines != [] { NonePending(lines[..|lines| - 1], checkpoint, read); }
  }

  lemma NothingPastTheEnd(a: Event, b: Event, c: Event, read: Event -> Event)
    ensures Recoverable(ThirdIsSent(a, b, c), read) == []
  {
    var s := ThirdIsSent(a, b, c);
    assert s.spool.lines == [Line(0, a, 9), Line(10, b, 9), Line(20, c, 9)];
    NonePending(s.spool.lines, 20, read);
  }

  lemma SendsTheThirdFirst(a: Event, b: Event, c: Event, rest: seq<Step>, read: Event -> Event)
    returns (steps: seq<Step>)
    requires a.id != b.id && c.id != a.id && c.id != b.id
    ensures Run(Installed(4096, PAUSED), steps, read) == Run(ThirdIsSent(a, b, c), rest, read)
  {
    var tail := Round(50, 1) + rest;
    steps := [Ingest(a, OK)] + ([Ingest(b, OK)] + ([Configure(RESUMED, SaveFailed)] + ([Ingest(c, OK)] + tail)));
    SpoolsWhilePaused(a, b, [Configure(RESUMED, SaveFailed)] + ([Ingest(c, OK)] + tail), read);
    QueuesOnlyTheThird(a, b, c, tail, read);
    RunsRound(OnlyTheThird(a, b, c), 50, 1, rest, read);
    SendsTheThird(a, b, c);
  }

  /** Saving the configuration that resumes forwarding fails: forwarding is on all the same, but
      nothing was refilled. The next event is queued and sent ahead of those spooled during the pause,
      the checkpoint passes them, and they are neither in memory nor recoverable. */
  lemma FailedSaveLosesAnEvent(a: Event, b: Event, c: Event, read: Event -> Event) returns (steps: seq<Step>)
    requires a.id != b.id && c.id != a.id && c.id != b.id
    ensures var t := Run(Installed(4096, PAUSED), steps, read);
      && t.cfg.Enabled() && Unsent(t, Line(10, b, 9)) && 10 <= t.spool.checkpoint
      && t.pending == [] && t.queue.ch == [] && Recoverable(t, read) == []
  {
    steps := SendsTheThirdFirst(a, b, c, [Refill] + [], read);
    RunOne(ThirdIsSent(a, b, c), Refill, [], read);
    NothingPastTheEnd(a, b, c, read);
    SecondIsUnsent(a, b, c);
  }

  lemma SecondIsUnsent(a: Event, b: Event, c: Event)
    requires b.id != c.id
    ensures Unsent(ThirdIsSent(a, b, c), Line(10, b, 9))
  {
    var t := ThirdIsSent(a, b, c);
    assert t.spool.lines[1] == Line(10, b, 9);
    assert Ids(t.wire) == {c.id};
  }

  // ----- what a long line costs -----

  /** An event that is known, so that it is refused when it comes again, but neither sent nor on its
      way, with a spool that cannot be scanned. */
  ghost predicate Gone(s: Node, id: string) {
    && id in StoreIds(s.store) && id in s.seen
    && id !in Ids(s.wire) + Ids(s.pending) + Ids(s.queue.ch)
    && !Scannable(s.spool.lines)
  }

  lemma GoneStays(s: Node, step: Step, id: string, read: Event -> Event)
    requires Gone(s, id) && id != "" && KeepsIds(read) && KeepsBooks(s, step)
    ensures Gone(Next(s, step, read), id)
  {
    hide Ingested, Popped, Sent, Restarted, Scannable;
    match step
    case Ingest(e, io) => LogKeepsGone(s, e, io, id);
    case Pop(max) => PopKeepsGone(s, max, id);
    case Send(count, when) => SendKeepsGone(s, count, when, id);
    case Forget => ForgetKeepsGone(s, id);
    case Crash => RestartKeepsGone(s, id, read);
    case _ =>
  }

  lemma SendKeepsGone(s: Node, count: nat, when: string, id: string)
    requires Gone(s, id)
    ensures Gone(Sent(s, count, when), id)
  {
    hide Scannable, StoreIds, Prioritized;
    PrioritizedKeepsIds(s.pending);
  }

  lemma ForgetKeepsGone(s: Node, id: string)
    requires Gone(s, id)
    ensures Gone(Forgotten(s), id)
  {
  }

  lemma RestartKeepsGone(s: Node, id: string, read: Event -> Event)
    requires Gone(s, id) && id != "" && KeepsIds(read) && StoreScannable(s.store)
    ensures Gone(Restarted(s, read), id)
  {
    var l :| l in s.store && l.event.id == id;
    assert read(l.event).id == id;
  }

  lemma LogKeepsGone(s: Node, e: Event, io: Appends, id: string)
    requires Gone(s, id)
    ensures Gone(Ingested(s, e, io), id)
  {
    hide Ids, FileSize;
    var t := Logged(s, e, io);
    assert forall l :: l in s.store ==> l in t.store;
    assert forall i :: 0 <= i < |s.spool.lines| ==> t.spool.lines[i] == s.spool.lines[i];
    IdsOfConcat(s.queue.ch, [e]);
    IdsOfOne(e);
  }

  lemma PopKeepsGone(s: Node, max: int, id: string)
    requires Gone(s, id)
    ensures Gone(Popped(s, max), id)
  {
    var n := BatchSize(s.queue, max);
    assert s.queue.ch == s.queue.ch[..n] + s.queue.ch[n..];
    IdsOfConcat(s.queue.ch[..n], s.queue.ch[n..]);
  }

  /** Runs in which every restart can scan the event log. */
  predicate LogScans(s: Node, steps: seq<Step>, read: Event -> Event)
    decreases |steps|
  {
    steps != [] ==> KeepsBooks(s, steps[0]) && LogScans(Next(s, steps[0], read), steps[1..], read)
  }

  lemma {:induction false} GoneForGood(s: Node, steps: seq<Step>, id: string, read: Event -> Event)
    requires Gone(s, id) && id != "" && KeepsIds(read) && LogScans(s, steps, read)
    ensures Gone(Run(s, steps, read), id)
    decreases |steps|
  {
    if steps != [] {
      GoneStays(s, steps[0], id, read);
      GoneForGood(Next(s, steps[0], read), steps[1..], id, read);
    }
  }

  /** One spool line too long to scan, and a crash loses every event that was not sent by then: in no
      run that follows is it ever sent. */
  lemma LongLineLosesUnsent(s: Node, l: Line, steps: seq<Step>, read: Event -> Event)
    requires BooksInv(s) && KeepsIds(read) && Unsent(s, l) && !Scannable(s.spool.lines) && StoreScannable(s.store)
    requires LogScans(Restarted(s, read), steps, read)
    ensures l.event.id !in Ids(Run(Restarted(s, read), steps, read).wire)
  {
    assert l.event.id in SpoolIds(s.spool.lines);
    ReadIdsAreStored(s.store, read);
    GoneForGood(Restarted(s, read), steps, l.event.id, read);
  }

  /** An event whose line can be scanned in the event log but not in the spool, where it carries its
      offset as well. */
  const LONG := Appends(true, true, 65500, 65540)

  lemma RunsTwo(s: Node, one: Step, two: Step, read: Event -> Event)
    ensures Run(s, [one, two], read) == Next(Next(s, one, read), two, read)
    ensures Guarded(s, [one, two], read) <==> Guard(s, one, read) && Guard(Next(s, one, read), two, read)
  {
    var u := Next(s, one, read);
    assert [one, two][1..] == [two] && [two][1..] == [];
    assert Run(u, [two], read) == Next(u, two, read);
    assert Guarded(u, [two], read) == Guard(u, two, read);
  }

  lemma FirstQueued(a: Event, read: Event -> Event)
    requires a.id != ""
    ensures Guard(Installed(4096, RESUMED), Ingest(a, OK), read)
    ensures OneQueued(Next(Installed(4096, RESUMED), Ingest(a, OK), read), a)
  {
    var s := Installed(4096, RESUMED);
    InstalledIsSafe(4096, RESUMED);
    RoomIsGuarded(s, a, OK, read);
    FilesOneMore(s, a, OK);
    FirstLeavesRoom(s, a);
  }

  lemma FirstLeavesRoom(s: Node, a: Event)
    requires s.queue == NewChannel(4096) && s.seen == {} && s.wire == []
    ensures var t := Ingested(s, a, OK); t.seen == {a.id} && t.wire == [] && !t.queue.Full()
  {
  }

  /** One short event has come in and waits to be sent. */
  ghost predicate OneQueued(s: Node, a: Event) {
    && Safe(s) && s.spool.lines == [Line(0, a, 9)] && s.store == [StoreLine(a, 9)]
    && s.seen == {a.id} && s.wire == [] && !s.queue.Full()
  }

  ghost predicate LongSpooled(s: Node, a: Event, b: Event) {
    && Safe(s) && s.spool.lines == [Line(0, a, 9), Line(10, b, 65540)]
    && s.wire == [] && StoreScannable(s.store)
  }

  lemma RoomIsGuarded(s: Node, e: Event, io: Appends, read: Event -> Event)
    requires Safe(s) && e.id != "" && !s.queue.Full()
    ensures Guard(s, Ingest(e, io), read) && Safe(Ingested(s, e, io))
  {
    IngestKeepsSafeIff(s, e, io);
  }

  lemma AppendedLong(a: Event, b: Event)
    ensures Appended([Line(0, a, 9)], b, 65540) == [Line(0, a, 9), Line(10, b, 65540)]
  {
    assert [] + [Line(0, a, 9)] == [Line(0, a, 9)];
    SizeOneMore([], a, 9);
  }

  lemma LongSecond(u: Node, a: Event, b: Event, read: Event -> Event)
    requires OneQueued(u, a) && b.id != "" && a.id != b.id
    ensures Guard(u, Ingest(b, LONG), read) && LongSpooled(Ingested(u, b, LONG), a, b)
  {
    hide Ingested, Guard, Safe;
    RoomIsGuarded(u, b, LONG, read);
    FilesOneMore(u, b, LONG);
    AppendedLong(a, b);
  }

  lemma LongLineRun(a: Event, b: Event, read: Event -> Event) returns (t: Node)
    requires a.id != "" && b.id != "" && a.id != b.id
    ensures t == Run(Installed(4096, RESUMED), [Ingest(a, OK), Ingest(b, LONG)], read)
    ensures Guarded(Installed(4096, RESUMED), [Ingest(a, OK), Ingest(b, LONG)], read) && LongSpooled(t, a, b)
  {
    var u := Next(Installed(4096, RESUMED), Ingest(a, OK), read);
    FirstQueued(a, read);
    LongSecond(u, a, b, read);
    t := Next(u, Ingest(b, LONG), read);
    RunsTwo(Installed(4096, RESUMED), Ingest(a, OK), Ingest(b, LONG), read);
  }

  lemma FilesOneMore(s: Node, e: Event, io: Appends)
    requires Accepts(s, e, io)
    ensures Ingested(s, e, io).spool.lines == Appended(s.spool.lines, e, io.spoolSize)
    ensures Ingested(s, e, io).store == s.store + [StoreLine(e, io.storeSize)] && Ingested(s, e, io).wire == s.wire
  {
  }

  /** Such an event comes in while forwarding is on: the run is guarded and the event is queued, and yet
      a crash loses it for good. */
  lemma LongLineIsNotRecovered(a: Event, b: Event, read: Event -> Event) returns (t: Node)
    requires a.id != "" && b.id != "" && a.id != b.id && KeepsIds(read)
    ensures t == Run(Installed(4096, RESUMED), [Ingest(a, OK), Ingest(b, LONG)], read)
    ensures Guarded(Installed(4096, RESUMED), [Ingest(a, OK), Ingest(b, LONG)], read) && Safe(t)
    ensures Unsent(t, Line(10, b, 65540)) && !Recovered(t, Line(10, b, 65540), read)
    ensures Restarted(t, read).queue.ch == [] && forall steps :: LogScans(Restarted(t, read), steps, read) ==>
      b.id !in Ids(Run(Restarted(t, read), steps, read).wire)
  {
    hide Run, Guarded, LogScans, BooksInv, OrderInv, AllPlaced;
    t := LongLineRun(a, b, read);
    assert t.spool.lines[1] == Line(10, b, 65540);
    forall steps | LogScans(Restarted(t, read), steps, read)
      ensures b.id !in Ids(Run(Restarted(t, read), steps, read).wire)
    {
      LongLineLosesUnsent(t, Line(10, b, 65540), steps, read);
    }
  }

  // ----- what a failed append costs -----

  lemma {:induction false} EnqueueAllKeepsStore(s: Node, rs: seq<SpoolRecord>)
    ensures EnqueueAll(s, rs).store == s.store && EnqueueAll(s, rs).seen == s.seen
    decreases |rs|
  {
    EnqueueAllKeepsDisk(s, rs);
  }

  lemma StepKeepsUnlogged(s: Node, step: Step, id: string, read: Event -> Event)
    requires id in s.seen && id !in StoreIds(s.store) && !step.Crash?
    ensures id in Next(s, step, read).seen && id !in StoreIds(Next(s, step, read).store)
  {
    match step
    case Ingest(e, io) =>
      if e.id !in s.seen && io.storeOk {
        assert StoreIds(s.store + [StoreLine(e, io.storeSize)]) == StoreIds(s.store) + {e.id};
      }
    case Configure(cfg, saved) =>
      EnqueueAllKeepsStore(Replaced(s, cfg), Recoverable(s, read));
    case Refill => EnqueueAllKeepsStore(s, Recoverable(s, read));
    case _ =>
  }

  /** An event whose append to the event log failed is refused as a duplicate for as long as the
      process lives, however often it is sent again. */
  lemma {:induction false} FailedAppendBlocksTheId(s: Node, steps: seq<Step>, id: string, read: Event -> Event)
    requires id in s.seen && id !in StoreIds(s.store)
    requires forall step :: step in steps ==> !step.Crash?
    ensures id !in StoreIds(Run(s, steps, read).store)
    decreases |steps|
  {
    if steps != [] {
      StepKeepsUnlogged(s, steps[0], id, read);
      FailedAppendBlocksTheId(Next(s, steps[0], read), steps[1..], id, read);
    }
  }

  /** And it is that step that brings the state about; a restart that can scan the log ends it. */
  lemma FailedAppendClaimsTheId(s: Node, e: Event, io: Appends, read: Event -> Event)
    requires BooksInv(s) && KeepsIds(read) && e.id !in s.seen && !io.storeOk
    ensures var t := Next(s, Ingest(e, io), read);
      && e.id in t.seen && e.id !in StoreIds(t.store)
      && (StoreScannable(s.store) ==> e.id !in Next(t, Crash, read).seen)
  {
    hide QueueInv, OffsetInv, Restarted, ReadIds, StoreScannable;
    var t := Ingested(s, e, io);
    assert t == s.(seen := s.seen + {e.id});
    RestartForgets(t, read);
    ReadIdsAreStored(s.store, read);
  }

  // ----- what a failed append to the spool costs -----

  /** Stored and known, so that it is refused when it comes again, and yet not in the spool. */
  ghost predicate StoredOnly(s: Node, id: string) {
    id in StoreIds(s.store) && id in s.seen && id !in SpoolIds(s.spool.lines)
  }

  lemma LogKeepsStoredOnly(s: Node, e: Event, io: Appends, id: string)
    requires StoredOnly(s, id)
    ensures StoredOnly(Ingested(s, e, io), id)
  {
    hide FileSize;
    var t := Logged(s, e, io);
    assert forall l :: l in s.store ==> l in t.store;
    assert SpoolIds(t.spool.lines) <= SpoolIds(s.spool.lines) + if e.id in s.seen then {} else {e.id};
  }

  lemma RestartKeepsStoredOnly(s: Node, id: string, read: Event -> Event)
    requires StoredOnly(s, id) && id != "" && KeepsIds(read) && StoreScannable(s.store)
    ensures StoredOnly(Restarted(s, read), id)
  {
    hide Restarted, SpoolIds;
    RestartForgets(s, read);
    var l :| l in s.store && l.event.id == id;
    assert read(l.event).id == id;
  }

  lemma StoredOnlyStays(s: Node, step: Step, id: string, read: Event -> Event)
    requires StoredOnly(s, id) && id != "" && KeepsIds(read) && KeepsBooks(s, step)
    ensures StoredOnly(Next(s, step, read), id)
  {
    hide StoreIds, SpoolIds, Ingested, Restarted, EnqueueAll, Prioritized;
    match step
    case Ingest(e, io) => LogKeepsStoredOnly(s, e, io, id);
    case Configure(cfg, saved) => EnqueueAllKeepsDisk(Replaced(s, cfg), Recoverable(s, read));
    case Refill => EnqueueAllKeepsDisk(s, Recoverable(s, read));
    case Crash => RestartKeepsStoredOnly(s, id, read);
    case _ =>
  }

  lemma {:induction false} StoredOnlyForGood(s: Node, steps: seq<Step>, id: string, read: Event -> Event)
    requires BooksInv(s) && StoredOnly(s, id) && id != "" && KeepsIds(read) && LogScans(s, steps, read)
    requires forall step :: step in steps ==> Named(step)
    ensures StoredOnly(Run(s, steps, read), id) && BooksInv(Run(s, steps, read))
    decreases |steps|
  {
    hide BooksInv, StoredOnly, Next;
    if steps != [] {
      StepKeepsBooksIff(s, steps[0], read);
      StoredOnlyStays(s, steps[0], id, read);
      StoredOnlyForGood(Next(s, steps[0], read), steps[1..], id, read);
    }
  }

  lemma StoredOnlyIsUnsent(s: Node, id: string)
    requires OffsetInv(s) && StoredOnly(s, id)
    ensures id !in Ids(s.wire)
  {
  }

  /** An event whose append to the event log succeeds and whose append to the spool fails is lost for good: it
      is in the log, refused as a duplicate, and in no run that follows, restarts included, is it spooled or
      sent. (A crash between the two appends leaves the same files as such an ingest and a crash.) */
  lemma FailedSpoolAppendLosesTheEvent(s: Node, e: Event, io: Appends, steps: seq<Step>, read: Event -> Event)
    requires BooksInv(s) && KeepsIds(read) && e.id != "" && e.id !in s.seen && io.storeOk && !io.spoolOk
    requires LogScans(Next(s, Ingest(e, io), read), steps, read) && forall step :: step in steps ==> Named(step)
    ensures var t := Run(Next(s, Ingest(e, io), read), steps, read);
      && e.id in StoreIds(t.store) && e.id in t.seen
      && e.id !in SpoolIds(t.spool.lines) && e.id !in Ids(t.wire)
  {
    var u := Next(s, Ingest(e, io), read);
    assert StoredOnly(u, e.id) by { StoredWithoutSpool(s, e, io); }
    IngestKeepsBooks(s, e, io);
    hide QueueInv, DiskInv, OffsetInv, Next, Run, LogScans;
    StoredOnlyForGood(u, steps, e.id, read);
    StoredOnlyIsUnsent(Run(u, steps, read), e.id);
  }

  lemma StoredWithoutSpool(s: Node, e: Event, io: Appends)
    requires DiskInv(s) && e.id !in s.seen && io.storeOk && !io.spoolOk
    ensures StoredOnly(Ingested(s, e, io), e.id)
  {
    hide WellFormed, OneLineEach, OneRecordEach;
    NewRecordKeepsIds(s.store, StoreLine(e, io.storeSize));
  }

  lemma NewRecordKeepsIds(lines: seq<StoreLine>, l: StoreLine)
    ensures StoreIds(lines + [l]) == StoreIds(lines) + {l.event.id}
  {
  }
}
