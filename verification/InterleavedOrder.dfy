/** Order at the grain of the locks: when the checkpoint stays behind what has been sent, over every
    interleaving of ingests, refills, worker and crashes. */
module InterleavedOrder {
  import Spool
  import opened Interleaving

  /** IDs of the records before an offset, the one at offset 0 left out. */
  function Earlier(rs: seq<Record>, offset: nat): set<string> {
    set r | r in rs && 0 < r.offset < offset :: r.id
  }

  function Out(s: Sys): set<string> {
    Members(s.wire) + Members(s.pending)
  }

  /** Everything the checkpoint has passed has been sent. */
  ghost predicate Passed(s: Sys) {
    Earlier(s.spool, s.checkpoint + 1) <= Members(s.wire)
  }

  /** Everything spooled before a record of the batch is sent or in the batch. */
  ghost predicate BatchOrder(s: Sys) {
    forall r :: r in s.spool && r.id in s.pending ==> Earlier(s.spool, r.offset) <= Out(s)
  }

  /** Everything spooled before a record of the channel is sent, in the batch or ahead of it. */
  ghost predicate ChanOrder(s: Sys) {
    forall r, j :: r in s.spool && 0 <= j < |s.chan| && s.chan[j] == r.id ==>
      Earlier(s.spool, r.offset) <= Out(s) + Members(s.chan[..j])
  }

  ghost predicate RouteInv(s: Sys) {
    && Passed(s) && BatchOrder(s) && ChanOrder(s)
    && (s.phase != Sending ==> Members(s.pending) <= Members(s.wire))
  }

  // ----- what the offsets and the threads know -----

  predicate HasOffset(pc: Pc) {
    !pc.Claimed? && !pc.Stored?
  }

  ghost predicate SpoolForm(s: Sys) {
    && (forall r :: r in s.spool ==> r.offset < s.size)
    && (forall i, j :: 0 <= i < j < |s.spool| ==> s.spool[i].offset < s.spool[j].offset)
    && (s.checkpoint == 0 || s.checkpoint < s.size)
  }

  /** Threads, offset table and queue speak of records of the spool. */
  ghost predicate KnownInv(s: Sys) {
    && SpoolForm(s)
    && (forall t :: t in s.threads && HasOffset(s.threads[t].pc) ==>
          Record(s.threads[t].id, s.threads[t].pc.offset) in s.spool)
    && (forall id :: id in s.offsets ==> Record(id, s.offsets[id]) in s.spool)
    && Members(s.pending) + Members(s.chan) <= SpoolIds(s.spool)
  }

  ghost predicate OrderInv(s: Sys) {
    UniqueInv(s) && KnownInv(s) && RouteInv(s)
  }

  lemma OneRecordPerId(rs: seq<Record>, r: Record, q: Record)
    requires NoRepeatedRecord(rs) && r in rs && q in rs && r.id == q.id
    ensures r == q
  {
    var i :| 0 <= i < |rs| && rs[i] == r;
    var j :| 0 <= j < |rs| && rs[j] == q;
  }

  lemma EarlierOneMore(rs: seq<Record>, r: Record, offset: nat)
    requires offset <= r.offset
    ensures Earlier(rs + [r], offset) == Earlier(rs, offset)
  {
    assert forall q :: q in rs + [r] <==> q in rs || q == r;
  }

  lemma MembersOneMore(ids: seq<string>, id: string)
    ensures Members(ids + [id]) == Members(ids) + {id}
  {
  }

  // ----- the spool grows -----

  /** A record at the end of the file, for an ID that is nowhere in the queue. */
  ghost predicate Spools(s: Sys, u: Sys, r: Record) {
    && r.offset == s.size && r.id !in SpoolIds(s.spool)
    && u.spool == s.spool + [r] && u.size > s.size && u.checkpoint == s.checkpoint && u.wire == s.wire
    && u.pending == s.pending && u.chan == s.chan && u.phase == s.phase && u.offsets == s.offsets
  }

  lemma SpoolKeepsForm(s: Sys, u: Sys, r: Record)
    requires SpoolForm(s) && Spools(s, u, r)
    ensures SpoolForm(u)
  {
    assert forall q :: q in u.spool <==> q in s.spool || q == r;
    assert forall i :: 0 <= i < |s.spool| ==> s.spool[i] in s.spool;
  }

  lemma SpoolKeepsRoute(s: Sys, u: Sys, r: Record)
    requires KnownInv(s) && RouteInv(s) && Spools(s, u, r)
    ensures RouteInv(u)
  {
    EarlierOneMore(s.spool, r, if s.checkpoint == 0 then 0 else s.checkpoint + 1);
    assert Earlier(u.spool, s.checkpoint + 1) == Earlier(s.spool, s.checkpoint + 1);
    assert r.id !in s.pending && r.id !in s.chan by { assert r.id !in Members(s.pending) + Members(s.chan); }
    forall q | q in u.spool && (q.id in s.pending || q.id in s.chan)
      ensures q in s.spool && Earlier(u.spool, q.offset) == Earlier(s.spool, q.offset)
    {
      EarlierOneMore(s.spool, r, q.offset);
    }
  }

  // ----- the push -----

  /** The push region of a thread that finds room. */
  predicate PushesNow(s: Sys, step: Step) {
    step.Advance? && step.t in s.threads && s.threads[step.t].pc.Checked? && |s.chan| < s.capacity
  }

  /** Every earlier record is sent, in the batch or in the channel. */
  predicate InOrder(s: Sys, step: Step) {
    PushesNow(s, step) ==> Earlier(s.spool, s.threads[step.t].pc.offset) <= Out(s) + Members(s.chan)
  }

  ghost predicate PushesOnto(s: Sys, u: Sys, id: string) {
    && u.chan == s.chan + [id]
    && u.spool == s.spool && u.checkpoint == s.checkpoint && u.wire == s.wire && u.pending == s.pending &&
      u.phase == s.phase
  }

  /** A push keeps the order exactly when everything spooled earlier is sent, in the batch or in the
      channel already. */
  lemma PushKeepsRouteIff(s: Sys, u: Sys, r: Record)
    requires NoRepeatedRecord(s.spool) && RouteInv(s) && r in s.spool && PushesOnto(s, u, r.id)
    ensures RouteInv(u) <==> Earlier(s.spool, r.offset) <= Out(s) + Members(s.chan)
  {
    var n := |s.chan|;
    assert u.chan[..n] == s.chan && u.chan[n] == r.id;
    assert forall j :: 0 <= j < n ==> u.chan[j] == s.chan[j] && u.chan[..j] == s.chan[..j];
    if Earlier(s.spool, r.offset) <= Out(s) + Members(s.chan) {
      forall q, j | q in u.spool && 0 <= j < |u.chan| && u.chan[j] == q.id
        ensures Earlier(u.spool, q.offset) <= Out(u) + Members(u.chan[..j])
      {
        if j == n { OneRecordPerId(s.spool, q, r); }
      }
    }
  }

  // ----- the worker -----

  lemma TakeKeepsRoute(s: Sys, u: Sys)
    requires RouteInv(s) && s.chan != [] && s.phase == Sending
    requires u == s.(pending := s.pending + [s.chan[0]], chan := s.chan[1..])
    ensures RouteInv(u)
  {
    MembersOneMore(s.pending, s.chan[0]);
    forall r | r in u.spool && r.id in u.pending ensures Earlier(u.spool, r.offset) <= Out(u) {
      if r.id !in s.pending {
        assert s.chan[0] == r.id && s.chan[..0] == [];
      }
    }
    forall r, j | r in u.spool && 0 <= j < |u.chan| && u.chan[j] == r.id
      ensures Earlier(u.spool, r.offset) <= Out(u) + Members(u.chan[..j])
    {
      assert s.chan[j + 1] == r.id && s.chan[..j + 1] == [s.chan[0]] + u.chan[..j];
    }
  }

  lemma SendKeepsRoute(s: Sys, u: Sys, sent: seq<string>)
    requires RouteInv(s) && s.phase == Sending
    requires u == s.(wire := s.wire + sent, phase := u.phase) && (u.phase != Sending ==> sent == s.pending)
    ensures RouteInv(u)
  {
    assert Members(u.wire) == Members(s.wire) + Members(sent);
  }

  lemma {:induction false} GreatestIsKnown(ids: seq<string>, offsets: map<string, nat>)
    ensures Greatest(ids, offsets) >= 0 ==>
      exists id :: id in ids && id in offsets && offsets[id] == Greatest(ids, offsets)
  {
    if ids != [] {
      GreatestIsKnown(ids[1..], offsets);
      if ids[0] in offsets && offsets[ids[0]] > Greatest(ids[1..], offsets) { assert ids[0] in ids; }
    }
  }

  lemma SameOffsetSameRecord(s: Sys, r: Record, q: Record)
    requires SpoolForm(s) && r in s.spool && q in s.spool && r.offset == q.offset
    ensures r == q
  {
    var i :| 0 <= i < |s.spool| && s.spool[i] == r;
    var j :| 0 <= j < |s.spool| && s.spool[j] == q;
  }

  /** The checkpoint of a delivered batch passes nothing unsent. */
  lemma MarkKeepsPassed(s: Sys, id: string)
    requires KnownInv(s) && RouteInv(s) && s.phase != Sending && id in s.pending && id in s.offsets
    ensures Earlier(s.spool, s.offsets[id] + 1) <= Members(s.wire)
  {
    var r := Record(id, s.offsets[id]);
    assert r in s.spool && id in Members(s.pending);
    forall q | q in s.spool && 0 < q.offset < s.offsets[id] + 1 ensures q.id in Members(s.wire) {
      if q.offset == r.offset {
        SameOffsetSameRecord(s, q, r);
      } else {
        assert q.id in Earlier(s.spool, r.offset);
      }
    }
  }

  /** So nothing unsent is passed whether the checkpoint is written, left alone or emptied. */
  lemma MarkKeepsRoute(s: Sys, u: Sys, write: Spool.CheckpointWrite)
    requires KnownInv(s) && RouteInv(s) && s.phase == Done && u == Next(s, MarkForwarded(write))
    ensures RouteInv(u) && (u.checkpoint == s.checkpoint || u.checkpoint < s.size || u.checkpoint == 0)
  {
    GreatestIsKnown(s.pending, s.offsets);
    assert Earlier(s.spool, 1) == {};
    if Greatest(s.pending, s.offsets) >= 0 {
      var id :| id in s.pending && id in s.offsets && s.offsets[id] == Greatest(s.pending, s.offsets);
      MarkKeepsPassed(s, id);
      assert Record(id, s.offsets[id]) in s.spool;
    }
  }

  lemma ForgetKeepsRoute(s: Sys, u: Sys)
    requires RouteInv(s) && s.phase == Marked && u == Next(s, Forget)
    ensures RouteInv(u)
  {
    assert Out(s) == Members(u.wire) && Out(u) == Members(u.wire);
  }

  /** What a crash leaves is in order: only the checkpoint matters. */
  lemma CrashKeepsRoute(s: Sys, scanned: bool)
    requires RouteInv(s)
    ensures RouteInv(Next(s, Crash(scanned)))
  {
  }

  // ----- every step -----

  /** States that route the same events the same way. */
  predicate SameRoute(s: Sys, u: Sys) {
    u.spool == s.spool && u.checkpoint == s.checkpoint && u.wire == s.wire && u.pending == s.pending && u.chan == s.chan
    && (u.phase == Sending <==> s.phase == Sending)
  }

  lemma SameRouteKeeps(s: Sys, u: Sys)
    requires RouteInv(s) && SameRoute(s, u)
    ensures RouteInv(u)
  {
  }

  /** A lock region that neither spools nor pushes. */
  lemma OtherRegionsKeepRoute(s: Sys, t: nat, ok: bool, enabled: bool, size: nat)
    requires t in s.threads && !(s.threads[t].pc.Stored? && ok) && !(s.threads[t].pc.Checked? && |s.chan| < s.capacity)
    ensures SameRoute(s, Advanced(s, t, ok, enabled, size))
  {
  }

  lemma AdvanceKeepsRouteIff(s: Sys, step: Step)
    requires OrderInv(s) && step.Advance? && step.t in s.threads
    ensures RouteInv(Next(s, step)) <==> InOrder(s, step)
  {
    var t, th, u := step.t, s.threads[step.t], Next(s, step);
    if th.pc.Stored? && step.ok {
      SpoolKeepsRoute(s, u, Record(th.id, s.size));
    } else if PushesNow(s, step) {
      PushKeepsRouteIff(s, u, Record(th.id, th.pc.offset));
    } else {
      OtherRegionsKeepRoute(s, t, step.ok, step.enabled, step.size);
      SameRouteKeeps(s, u);
    }
  }

  predicate IsWorkers(step: Step) {
    step.Take? || step.Send? || step.CountSuccess? || step.MarkForwarded? || step.Forget?
  }

  lemma WorkerKeepsRoute(s: Sys, step: Step)
    requires KnownInv(s) && RouteInv(s) && IsWorkers(step)
    ensures RouteInv(Next(s, step))
  {
    var u := Next(s, step);
    match step
    case Take => if u != s { TakeKeepsRoute(s, u); }
    case Send(n) => if u != s { SendKeepsRoute(s, u, if n < |s.pending| then s.pending[..n] else s.pending); }
    case CountSuccess => SameRouteKeeps(s, u);
    case MarkForwarded(write) => if s.phase == Done { MarkKeepsRoute(s, u, write); }
    case Forget => if s.phase == Marked { ForgetKeepsRoute(s, u); }
  }

  lemma StepKeepsRouteIff(s: Sys, step: Step)
    requires OrderInv(s)
    ensures RouteInv(Next(s, step)) <==> InOrder(s, step)
  {
    hide RouteInv, KnownInv, UniqueInv, Advanced;
    match step
    case Advance(t, ok, enabled, size) => if t in s.threads { AdvanceKeepsRouteIff(s, step); }
    case Start(t, id) => SameRouteKeeps(s, Next(s, step));
    case Reenqueue(t, i) => SameRouteKeeps(s, Next(s, step));
    case Crash(scanned) => CrashKeepsRoute(s, scanned);
    case _ => WorkerKeepsRoute(s, step);
  }

  lemma SpoolKeepsKnown(s: Sys, t: nat, enabled: bool, size: nat)
    requires UniqueInv(s) && KnownInv(s) && t in s.threads && s.threads[t].pc.Stored?
    ensures KnownInv(Advanced(s, t, true, enabled, size))
  {
    var u, r := Advanced(s, t, true, enabled, size), Record(s.threads[t].id, s.size);
    SpoolKeepsForm(s, u, r);
    assert forall q :: q in u.spool <==> q in s.spool || q == r;
    assert SpoolIds(u.spool) == SpoolIds(s.spool) + {r.id};
  }

  lemma PushKeepsKnown(s: Sys, t: nat, ok: bool, enabled: bool, size: nat)
    requires KnownInv(s) && t in s.threads && s.threads[t].pc.Checked? && |s.chan| < s.capacity
    ensures KnownInv(Advanced(s, t, ok, enabled, size))
  {
    MembersOneMore(s.chan, s.threads[t].id);
    assert Record(s.threads[t].id, s.threads[t].pc.offset) in s.spool;
  }

  /** A region that neither spools nor pushes leaves spool and queue alone, and no thread or offset it
      leaves speaks of another record. */
  ghost predicate SameRecords(s: Sys, u: Sys) {
    && u.spool == s.spool && u.size == s.size && u.checkpoint == s.checkpoint
    && u.chan == s.chan && u.pending == s.pending
    && (forall k :: k in u.threads && HasOffset(u.threads[k].pc) ==>
      Record(u.threads[k].id, u.threads[k].pc.offset) in s.spool)
    && (forall id :: id in u.offsets ==> Record(id, u.offsets[id]) in s.spool)
  }

  lemma OtherRegionsKeepRecords(s: Sys, t: nat, ok: bool, enabled: bool, size: nat)
    requires KnownInv(s)
    requires t in s.threads && !(s.threads[t].pc.Stored? && ok) && !(s.threads[t].pc.Checked? && |s.chan| < s.capacity)
    ensures SameRecords(s, Advanced(s, t, ok, enabled, size))
  {
    hide SpoolForm, Members, SpoolIds;
    var u, th := Advanced(s, t, ok, enabled, size), s.threads[t];
    OneThreadMoves(s, t, ok, enabled, size);
    if HasOffset(th.pc) { assert Record(th.id, th.pc.offset) in s.spool; }
  }

  lemma OtherRegionsKeepKnown(s: Sys, t: nat, ok: bool, enabled: bool, size: nat)
    requires KnownInv(s)
    requires t in s.threads && !(s.threads[t].pc.Stored? && ok) && !(s.threads[t].pc.Checked? && |s.chan| < s.capacity)
    ensures KnownInv(Advanced(s, t, ok, enabled, size))
  {
    hide Advanced;
    OtherRegionsKeepRecords(s, t, ok, enabled, size);
  }

  lemma TakeKeepsKnown(s: Sys, u: Sys)
    requires KnownInv(s) && s.chan != [] && u == s.(pending := s.pending + [s.chan[0]], chan := s.chan[1..])
    ensures KnownInv(u)
  {
    MembersOneMore(s.pending, s.chan[0]);
    assert s.chan == [s.chan[0]] + s.chan[1..];
    assert Members(u.pending) + Members(u.chan) <= Members(s.pending) + Members(s.chan);
  }

  lemma WorkerKeepsKnown(s: Sys, step: Step)
    requires KnownInv(s) && RouteInv(s) && IsWorkers(step)
    ensures KnownInv(Next(s, step))
  {
    hide SpoolIds, Greatest, RouteInv;
    match step
    case Take => if s.phase == Sending && s.chan != [] { TakeKeepsKnown(s, Next(s, step)); }
    case MarkForwarded(write) => if s.phase == Done { MarkKeepsKnown(s, write); }
    case _ =>
  }

  lemma MarkKeepsKnown(s: Sys, write: Spool.CheckpointWrite)
    requires KnownInv(s) && RouteInv(s) && s.phase == Done
    ensures KnownInv(Next(s, MarkForwarded(write)))
  {
    hide Members, SpoolIds, Greatest, RouteInv;
    MarkKeepsRoute(s, Next(s, MarkForwarded(write)), write);
  }

  lemma StepKeepsKnown(s: Sys, step: Step)
    requires OrderInv(s)
    ensures KnownInv(Next(s, step))
  {
    match step
    case Advance(t, ok, enabled, size) =>
      if t in s.threads {
        if s.threads[t].pc.Stored? && ok {
          SpoolKeepsKnown(s, t, enabled, size);
        } else if s.threads[t].pc.Checked? && |s.chan| < s.capacity {
          PushKeepsKnown(s, t, ok, enabled, size);
        } else {
          OtherRegionsKeepKnown(s, t, ok, enabled, size);
        }
      }
    case Start(t, id) => StartKeepsKnown(s, t, id);
    case Reenqueue(t, i) => ReenqueueKeepsKnown(s, t, i);
    case Crash(scanned) =>
    case _ => WorkerKeepsKnown(s, step);
  }

  lemma SameForm(s: Sys, u: Sys)
    requires u.spool == s.spool && u.size == s.size && u.checkpoint == s.checkpoint
    ensures SpoolForm(u) == SpoolForm(s)
  {
  }

  lemma StartKeepsKnown(s: Sys, t: nat, id: string)
    requires KnownInv(s)
    ensures KnownInv(Next(s, Start(t, id)))
  {
    hide SpoolForm, Members, SpoolIds;
    SameForm(s, Next(s, Start(t, id)));
  }

  lemma ReenqueueKeepsKnown(s: Sys, t: nat, i: nat)
    requires KnownInv(s)
    ensures KnownInv(Next(s, Reenqueue(t, i)))
  {
    hide SpoolForm, Members, SpoolIds;
    SameForm(s, Next(s, Reenqueue(t, i)));
  }

  /** The guard of a step: a push comes after everything spooled earlier, and a restart can scan the log. */
  predicate OrderGuard(s: Sys, step: Step) {
    ScansLog(s, step) && InOrder(s, step)
  }

  /** A lock region, a step of the worker or a crash keeps the order exactly when its guard holds. */
  lemma StepKeepsOrderIff(s: Sys, step: Step)
    requires OrderInv(s)
    ensures OrderInv(Next(s, step)) <==> OrderGuard(s, step)
  {
    StepKeepsUniqueIff(s, step);
    StepKeepsKnown(s, step);
    StepKeepsRouteIff(s, step);
  }

  predicate OrderGuarded(s: Sys, steps: seq<Step>)
    decreases |steps|
  {
    steps != [] ==> OrderGuard(s, steps[0]) && OrderGuarded(Next(s, steps[0]), steps[1..])
  }

  ghost predicate OrderThroughout(s: Sys, steps: seq<Step>)
    decreases |steps|
  {
    OrderInv(s) && (steps != [] ==> OrderThroughout(Next(s, steps[0]), steps[1..]))
  }

  /** An interleaving is in order in every state exactly when each of its steps is guarded. */
  lemma {:induction false} RunIsInOrderIff(s: Sys, steps: seq<Step>)
    requires OrderInv(s)
    ensures OrderThroughout(s, steps) <==> OrderGuarded(s, steps)
    ensures OrderGuarded(s, steps) ==> OrderInv(Run(s, steps))
    decreases |steps|
  {
    if steps != [] {
      StepKeepsOrderIff(s, steps[0]);
      if OrderGuard(s, steps[0]) { RunIsInOrderIff(Next(s, steps[0]), steps[1..]); }
    }
  }

  lemma InitialIsInOrder(capacity: nat)
    ensures OrderInv(Initial(capacity))
  {
  }

  /** Over every interleaving whose pushes come in order, with any crashes, failed passes and failed
      checkpoint writes: what the checkpoint has passed has been sent. */
  lemma NothingIsPassed(capacity: nat, steps: seq<Step>)
    requires OrderGuarded(Initial(capacity), steps)
    ensures var s := Run(Initial(capacity), steps);
      forall r :: r in s.spool && 0 < r.offset <= s.checkpoint ==> r.id in s.wire
  {
    hide Run, OrderGuarded, OrderThroughout, OrderInv, Initial;
    InitialIsInOrder(capacity);
    RunIsInOrderIff(Initial(capacity), steps);
    PassedAreSent(Run(Initial(capacity), steps));
  }

  lemma PassedAreSent(s: Sys)
    requires OrderInv(s)
    ensures forall r :: r in s.spool && 0 < r.offset <= s.checkpoint ==> r.id in s.wire
  {
    hide UniqueInv, KnownInv, BatchOrder, ChanOrder;
    forall r | r in s.spool && 0 < r.offset <= s.checkpoint ensures r.id in s.wire {
      assert r.id in Earlier(s.spool, s.checkpoint + 1);
    }
  }

  // ----- the resume race -----

  /** A lone ingest while forwarding is off: both appends and the offset table. */
  function Paused(t: nat, id: string): seq<Step> {
    [Start(t, id), Advance(t, true, true, 9), Advance(t, true, true, 9), Advance(t, true, false, 9)]
  }

  function AfterPaused(s: Sys, id: string): Sys {
    s.(store := s.store + [id], spool := s.spool + [Record(id, s.size)], size := s.size + 10,
       seen := s.seen + {id}, offsets := s.offsets[id := s.size])
  }

  lemma SpoolsPaused(s: Sys, t: nat, id: string, rest: seq<Step>)
    requires t !in s.threads && id !in s.seen && id !in s.inflight
    ensures Run(s, Paused(t, id) + rest) == Run(AfterPaused(s, id), rest)
  {
    var go, stop := Advance(t, true, true, 9), Advance(t, true, false, 9);
    assert Paused(t, id) + rest == [Start(t, id)] + ([go] + ([go] + ([stop] + rest)));
    var seen := s.(seen := s.seen + {id});
    var u := At(Wrote(Wrote(seen, id, Claimed), id, Stored), t, id, Spooled(s.size));
    Starts(s, t, id, [go] + ([go] + ([stop] + rest)));
    TwoAppends(seen, t, id, [stop] + rest);
    RunOne(u, stop, rest);
    StopsPaused(s, t, id);
  }

  lemma StopsPaused(s: Sys, t: nat, id: string)
    requires t !in s.threads
    ensures Next(At(Wrote(Wrote(s.(seen := s.seen + {id}), id, Claimed), id, Stored), t, id, Spooled(s.size)),
                 Advance(t, true, false, 9)) == AfterPaused(s, id)
  {
    assert s.threads[t := Thread(id, Spooled(s.size))] - {t} == s.threads;
  }

  /** A lone thread pushes, counts and enters its ID in `inflight`. */
  function Queued(s: Sys, id: string, offset: nat): Sys {
    s.(chan := s.chan + [id], pushes := s.pushes + 1, queued := s.queued + 1, inflight := s.inflight + {id},
       offsets := s.offsets[id := offset])
  }

  function Enters(t: nat): seq<Step> {
    [Advance(t, true, true, 9), Advance(t, true, true, 9), Advance(t, true, true, 9)]
  }

  lemma CountsAndEnters(s: Sys, t: nat, id: string, offset: nat, rest: seq<Step>)
    requires t !in s.threads
    ensures Run(At(s, t, id, Pushed(offset)), [Advance(t, true, true, 9)] + ([Advance(t, true, true, 9)] + rest))
         == Run(s.(queued := s.queued + 1, inflight := s.inflight + {id}, offsets := s.offsets[id := offset]), rest)
  {
    var go := Advance(t, true, true, 9);
    RunOne(At(s, t, id, Pushed(offset)), go, [go] + rest);
    CountIs(s, t, id, offset);
    RunOne(At(s.(queued := s.queued + 1), t, id, Counted(offset)), go, rest);
    EnterIs(s.(queued := s.queued + 1), t, id, offset);
  }

  lemma EntersInThree(t: nat, rest: seq<Step>)
    ensures var go := [Advance(t, true, true, 9)]; Enters(t) + rest == go + (go + (go + rest))
  {
  }

  lemma EntersQueue(s: Sys, t: nat, id: string, offset: nat, rest: seq<Step>)
    requires t !in s.threads && |s.chan| < s.capacity
    ensures Run(At(s, t, id, Checked(offset)), Enters(t) + rest) == Run(Queued(s, id, offset), rest)
  {
    hide Run, Next;
    var go := Advance(t, true, true, 9);
    EntersInThree(t, rest);
    RunOne(At(s, t, id, Checked(offset)), go, [go] + ([go] + rest));
    PushIs(s, t, id, offset);
    CountsAndEnters(s.(chan := s.chan + [id], pushes := s.pushes + 1), t, id, offset, rest);
  }

  lemma PushIs(s: Sys, t: nat, id: string, offset: nat)
    requires |s.chan| < s.capacity
    ensures Next(At(s, t, id, Checked(offset)), Advance(t, true, true, 9))
         == At(s.(chan := s.chan + [id], pushes := s.pushes + 1), t, id, Pushed(offset))
  {
    assert s.threads[t := Thread(id, Checked(offset))][t := Thread(id, Pushed(offset))] ==
      s.threads[t := Thread(id, Pushed(offset))];
  }

  lemma CountIs(s: Sys, t: nat, id: string, offset: nat)
    ensures Next(At(s, t, id, Pushed(offset)), Advance(t, true, true, 9))
         == At(s.(queued := s.queued + 1), t, id, Counted(offset))
  {
    assert s.threads[t := Thread(id, Pushed(offset))][t := Thread(id, Counted(offset))] ==
      s.threads[t := Thread(id, Counted(offset))];
  }

  lemma EnterIs(s: Sys, t: nat, id: string, offset: nat)
    requires t !in s.threads
    ensures Next(At(s, t, id, Counted(offset)), Advance(t, true, true, 9))
         == s.(inflight := s.inflight + {id}, offsets := s.offsets[id := offset])
  {
    assert s.threads[t := Thread(id, Counted(offset))] - {t} == s.threads;
  }

  /** Two records wait in the spool; a third event is taken in, and sent, before the refill reads it. */
  function TwoPaused(first: string, early: string): Sys {
    AfterPaused(AfterPaused(Initial(4096), first), early)
  }

  function ThirdQueued(first: string, early: string, late: string): Sys {
    Queued(AtChecked(TwoPaused(first, early), 2, late).(threads := map[]), late, 20)
  }

  lemma ThirdEnters(first: string, early: string, late: string, rest: seq<Step>)
    requires first != early && first != late && early != late
    ensures Run(TwoPaused(first, early), [Start(2, late)] + ToChecked(2) + (Enters(2) + rest))
         == Run(ThirdQueued(first, early, late), rest)
  {
    var s := TwoPaused(first, early);
    ReachesChecked(s, 2, late, Enters(2) + rest);
    var u := AtChecked(s, 2, late).(threads := map[]);
    assert At(u, 2, late, Checked(20)) == AtChecked(s, 2, late);
    EntersQueue(u, 2, late, 20, rest);
  }

  /** The new setting is in force before the refill that belongs to it has read the spool. An event that
      comes in between is queued, sent and checkpointed ahead of those spooled during the pause: one
      ingest at a time and no crash, and yet an unsent record lies behind the checkpoint, where no
      refill finds it. */
  lemma ResumeRaceLosesAnEvent(first: string, early: string, late: string)
    requires first != early && first != late && early != late
    ensures var s := Run(Initial(4096),
                         Paused(0, first)
                         + (Paused(1, early) + ([Start(2, late)] + ToChecked(2) + (Enters(2) + DRAIN))));
      && Record(early, 10) in s.spool && early !in s.wire && s.checkpoint == 20
      && s.threads == map[] && s.chan == [] && s.pending == []
      && forall t, i :: Next(s, Reenqueue(t, i)) == s
  {
    var third := [Start(2, late)] + ToChecked(2) + (Enters(2) + DRAIN);
    SpoolsPaused(Initial(4096), 0, first, Paused(1, early) + third);
    SpoolsPaused(AfterPaused(Initial(4096), first), 1, early, third);
    ThirdEnters(first, early, late, DRAIN);
    ThirdDrains(first, early, late);
  }

  lemma ThirdDrains(first: string, early: string, late: string)
    requires first != early && first != late && early != late
    ensures var s := Run(ThirdQueued(first, early, late), DRAIN);
      && Record(early, 10) in s.spool && early !in s.wire && s.checkpoint == 20
      && s.threads == map[] && s.chan == [] && s.pending == []
      && forall t, i :: Next(s, Reenqueue(t, i)) == s
  {
    assert DRAIN == DRAIN + [];
    Drains(ThirdQueued(first, early, late), late, []);
    PassedOver(Drained(ThirdQueued(first, early, late), late), early);
  }

  lemma PassedOver(s: Sys, early: string)
    requires |s.spool| == 3 && s.spool[1] == Record(early, 10) && s.checkpoint == 20
    requires s.spool[0].offset == 0 && s.spool[2].offset == 20
    ensures Record(early, 10) in s.spool && forall t, i :: Next(s, Reenqueue(t, i)) == s
  {
  }
}
