/** The pipeline at the grain of its locks (cmd/dmz-collector/main.go, internal/buffer/queue.go). Any
    number of ingests and refills run at once; a thread can be stopped between any two lock regions,
    and the process can crash there. The worker may send whatever it has taken, so that every batch
    size is covered. Events are their IDs. */
module Interleaving {
  import Spool

  /** Where an ingest stands, and, from `Placed` on, any call of `enqueueIfNeeded`. */
  datatype Pc =
    | Claimed                    // the ID is in `seenIDs`, nothing is written
    | Stored                     // in the event log
    | Spooled(offset: nat)       // in the spool
    | Placed(offset: nat)        // about to look at `inflight`
    | Checked(offset: nat)       // found not in flight, lock released
    | Pushed(offset: nat)        // in the channel, not yet counted
    | Counted(offset: nat)       // counted, not yet in `inflight`

  datatype Thread = Thread(id: string, pc: Pc)

  datatype Record = Record(id: string, offset: nat)

  datatype Phase = Sending | Delivered | Done | Marked

  datatype Sys = Sys(
    store: seq<string>, spool: seq<Record>, size: nat, checkpoint: nat,
    seen: set<string>, inflight: set<string>, offsets: map<string, nat>,
    capacity: nat, chan: seq<string>, pending: seq<string>, phase: Phase,
    queued: nat, forwarded: nat, threads: map<nat, Thread>, wire: seq<string>,
    pushes: nat, clamped: nat)     // history: successful sends, and what the counter lost by stopping at zero

  datatype Step =
    | Start(t: nat, id: string)
    | Advance(t: nat, ok: bool, enabled: bool, size: nat)
    | Reenqueue(t: nat, i: nat)
    | Take              // one receive of `PopBatch`
    | Send(n: nat)      // a pass that fails at event n, or sends the whole batch
    | CountSuccess
    | MarkForwarded(write: Spool.CheckpointWrite)
    | Forget
    | Crash(scanned: bool)     // whether the restart can scan the event log

  function Initial(capacity: nat): Sys {
    Sys([], [], 0, 0, {}, {}, map[], capacity, [], [], Sending, 0, 0, map[], [], 0, 0)
  }

  function Go(s: Sys, t: nat, pc: Pc): Sys
    requires t in s.threads
  {
    s.(threads := s.threads[t := s.threads[t].(pc := pc)])
  }

  function End(s: Sys, t: nat): Sys {
    s.(threads := s.threads - {t})
  }

  /** One lock region of a thread. `ok` is the outcome of a file append, `enabled` what
      `isForwardingEnabled` answers. */
  function Advanced(s: Sys, t: nat, ok: bool, enabled: bool, size: nat): Sys
    requires t in s.threads
  {
    var id := s.threads[t].id;
    match s.threads[t].pc
    case Claimed => if ok then Go(s, t, Stored).(store := s.store + [id]) else End(s, t)
    case Stored =>
      if ok then Go(s, t, Spooled(s.size)).(spool := s.spool + [Record(id, s.size)], size := s.size + size + 1)
      else End(s, t)
    case Spooled(offset) =>
      (if enabled then Go(s, t, Placed(offset)) else End(s, t)).(offsets := s.offsets[id := offset])
    case Placed(offset) => if id in s.inflight then End(s, t) else Go(s, t, Checked(offset))
    case Checked(offset) =>
      if |s.chan| < s.capacity then Go(s, t, Pushed(offset)).(chan := s.chan + [id], pushes := s.pushes + 1)
      else End(s, t)
    case Pushed(offset) => Go(s, t, Counted(offset)).(queued := s.queued + 1)
    case Counted(offset) => End(s, t).(inflight := s.inflight + {id}, offsets := s.offsets[id := offset])
  }

  /** No thread but that one comes or moves. */
  ghost predicate OnlyMoves(s: Sys, u: Sys, t: nat) {
    forall k :: k in u.threads && k != t ==> k in s.threads && u.threads[k] == s.threads[k]
  }

  lemma OneThreadMoves(s: Sys, t: nat, ok: bool, enabled: bool, size: nat)
    requires t in s.threads
    ensures OnlyMoves(s, Advanced(s, t, ok, enabled, size), t)
  {
  }

  function Members(ids: seq<string>): set<string> {
    set id | id in ids
  }

  /** The largest offset known for a batch, -1 when none is. */
  function Greatest(ids: seq<string>, offsets: map<string, nat>): int {
    if ids == [] then -1 else
    var rest := Greatest(ids[1..], offsets);
    if ids[0] in offsets && offsets[ids[0]] > rest then offsets[ids[0]] else rest
  }

  function Next(s: Sys, step: Step): Sys {
    match step
    case Start(t, id) =>
      if t in s.threads || id in s.seen then s
      else s.(seen := s.seen + {id}, threads := s.threads[t := Thread(id, Claimed)])
    case Advance(t, ok, enabled, size) => if t in s.threads then Advanced(s, t, ok, enabled, size) else s
    case Reenqueue(t, i) =>
      if t in s.threads || i >= |s.spool| || s.spool[i].offset <= s.checkpoint then s
      else s.(threads := s.threads[t := Thread(s.spool[i].id, Placed(s.spool[i].offset))])
    case Take =>
      if s.phase != Sending || s.chan == [] then s else s.(pending := s.pending + [s.chan[0]], chan := s.chan[1..])
    case Send(n) =>
      if s.phase != Sending || s.pending == [] then s
      else if n < |s.pending| then s.(wire := s.wire + s.pending[..n])
      else s.(wire := s.wire + s.pending, phase := Delivered)
    case CountSuccess =>
      if s.phase != Delivered then s else
      var n := |s.pending|;
      s.(phase := Done, forwarded := s.forwarded + n, queued := if n <= s.queued then s.queued - n else 0,
         clamped := s.clamped + if n <= s.queued then 0 else n - s.queued)
    case MarkForwarded(write) =>
      if s.phase != Done then s else
      var best := Greatest(s.pending, s.offsets);
      s.(phase := Marked, checkpoint := if best < 0 then s.checkpoint else Spool.AfterWrite(s.checkpoint, best, write))
    case Forget =>
      if s.phase != Marked then s
      else s.(inflight := s.inflight - Members(s.pending), pending := [], phase := Sending)
    case Crash(scanned) =>
      s.(seen := if scanned then Members(s.store) else {},
         inflight := {}, offsets := map[], chan := [], pending := [], phase := Sending,
         queued := 0, forwarded := 0, threads := map[], pushes := 0, clamped := 0)
  }

  function Run(s: Sys, steps: seq<Step>): Sys
    decreases |steps|
  {
    if steps == [] then s else Run(Next(s, steps[0]), steps[1..])
  }

  // ----- one record for each ID -----

  ghost predicate NoRepeat(ids: seq<string>) {
    forall i, j :: 0 <= i < j < |ids| ==> ids[i] != ids[j]
  }

  ghost predicate NoRepeatedRecord(rs: seq<Record>) {
    forall i, j :: 0 <= i < j < |rs| ==> rs[i].id != rs[j].id
  }

  function SpoolIds(rs: seq<Record>): set<string> {
    set r | r in rs :: r.id
  }

  predicate Writing(th: Thread) {
    th.pc.Claimed? || th.pc.Stored?
  }

  /** Each log holds an ID once, the spool only what the event log holds, and each ID being written
      belongs to one thread. */
  ghost predicate UniqueInv(s: Sys) {
    && NoRepeat(s.store) && NoRepeatedRecord(s.spool)
    && (forall id :: id in SpoolIds(s.spool) ==> id in s.store)
    && (forall id :: id in s.store ==> id in s.seen)
    && (forall t :: t in s.threads && s.threads[t].pc.Claimed? ==>
      s.threads[t].id in s.seen && s.threads[t].id !in s.store)
    && (forall t :: t in s.threads && s.threads[t].pc.Stored? ==>
          s.threads[t].id in s.store && s.threads[t].id !in SpoolIds(s.spool))
    && (forall t, u :: t in s.threads && u in s.threads && t != u && Writing(s.threads[t]) && Writing(s.threads[u]) ==>
          s.threads[t].id != s.threads[u].id)
  }

  lemma SpoolKeepsUnique(s: Sys, t: nat, enabled: bool, size: nat)
    requires UniqueInv(s) && t in s.threads && s.threads[t].pc.Stored?
    ensures UniqueInv(Advanced(s, t, true, enabled, size))
  {
    var id := s.threads[t].id;
    assert SpoolIds(s.spool + [Record(id, s.size)]) == SpoolIds(s.spool) + {id};
    assert forall i :: 0 <= i < |s.spool| ==> s.spool[i].id in SpoolIds(s.spool);
  }

  lemma StoreKeepsUnique(s: Sys, t: nat, enabled: bool, size: nat)
    requires UniqueInv(s) && t in s.threads && s.threads[t].pc.Claimed?
    ensures UniqueInv(Advanced(s, t, true, enabled, size))
  {
    var id := s.threads[t].id;
    assert forall i :: 0 <= i < |s.store| ==> s.store[i] in s.store;
    assert forall x :: x in s.store + [id] <==> x in s.store || x == id;
  }

  /** Both logs and the known IDs stay as they are, and no thread begins to write. */
  ghost predicate SameLogs(s: Sys, u: Sys) {
    && u.store == s.store && u.spool == s.spool && u.seen == s.seen
    && (forall k :: k in u.threads && Writing(u.threads[k]) ==> k in s.threads && u.threads[k] == s.threads[k])
  }

  lemma SameLogsKeepUnique(s: Sys, u: Sys)
    requires UniqueInv(s) && SameLogs(s, u)
    ensures UniqueInv(u)
  {
    hide NoRepeat, NoRepeatedRecord, SpoolIds;
  }

  /** The other lock regions write no log. */
  lemma RestKeepsLogs(s: Sys, t: nat, ok: bool, enabled: bool, size: nat)
    requires t in s.threads && !(Writing(s.threads[t]) && ok)
    ensures SameLogs(s, Advanced(s, t, ok, enabled, size))
  {
    OneThreadMoves(s, t, ok, enabled, size);
  }

  lemma AdvanceKeepsUnique(s: Sys, t: nat, ok: bool, enabled: bool, size: nat)
    requires UniqueInv(s) && t in s.threads
    ensures UniqueInv(Advanced(s, t, ok, enabled, size))
  {
    hide UniqueInv, SameLogs, Advanced;
    if s.threads[t].pc.Stored? && ok {
      SpoolKeepsUnique(s, t, enabled, size);
    } else if s.threads[t].pc.Claimed? && ok {
      StoreKeepsUnique(s, t, enabled, size);
    } else {
      RestKeepsLogs(s, t, ok, enabled, size);
      SameLogsKeepUnique(s, Advanced(s, t, ok, enabled, size));
    }
  }

  /** A restart that cannot scan the event log forgets its IDs. */
  predicate ScansLog(s: Sys, step: Step) {
    step.Crash? ==> step.scanned || s.store == []
  }

  /** A step keeps all of this, the knowledge of stored IDs included, exactly when it is not such a
      restart. */
  lemma StepKeepsUniqueIff(s: Sys, step: Step)
    requires UniqueInv(s)
    ensures UniqueInv(Next(s, step)) <==> ScansLog(s, step)
  {
    hide UniqueInv, SameLogs, Advanced;
    match step
    case Advance(t, ok, enabled, size) => if t in s.threads { AdvanceKeepsUnique(s, t, ok, enabled, size); }
    case Start(t, id) => StartKeepsUnique(s, t, id);
    case Crash(scanned) => CrashKeepsUniqueIff(s, scanned);
    case _ =>
      OthersKeepLogs(s, step);
      SameLogsKeepUnique(s, Next(s, step));
  }

  lemma StartKeepsUnique(s: Sys, t: nat, id: string)
    requires UniqueInv(s)
    ensures UniqueInv(Next(s, Start(t, id)))
  {
    hide NoRepeat, NoRepeatedRecord, SpoolIds;
  }

  lemma CrashKeepsUniqueIff(s: Sys, scanned: bool)
    requires UniqueInv(s)
    ensures UniqueInv(Next(s, Crash(scanned))) <==> ScansLog(s, Crash(scanned))
  {
    hide NoRepeat, NoRepeatedRecord, SpoolIds;
    if !scanned && s.store != [] { assert s.store[0] in s.store; }
  }

  lemma OthersKeepLogs(s: Sys, step: Step)
    requires !step.Advance? && !step.Start? && !step.Crash?
    ensures SameLogs(s, Next(s, step))
  {
  }

  predicate ScansThroughout(s: Sys, steps: seq<Step>)
    decreases |steps|
  {
    steps != [] ==> ScansLog(s, steps[0]) && ScansThroughout(Next(s, steps[0]), steps[1..])
  }

  ghost predicate UniqueThroughout(s: Sys, steps: seq<Step>)
    decreases |steps|
  {
    UniqueInv(s) && (steps != [] ==> UniqueThroughout(Next(s, steps[0]), steps[1..]))
  }

  lemma {:induction false} RunIsUniqueIff(s: Sys, steps: seq<Step>)
    requires UniqueInv(s)
    ensures UniqueThroughout(s, steps) <==> ScansThroughout(s, steps)
    ensures ScansThroughout(s, steps) ==> UniqueInv(Run(s, steps))
    decreases |steps|
  {
    if steps != [] {
      StepKeepsUniqueIff(s, steps[0]);
      if ScansLog(s, steps[0]) { RunIsUniqueIff(Next(s, steps[0]), steps[1..]); }
    }
  }

  // ----- the step that repeats a record -----

  /** The region in which a thread appends its event to the event log. */
  predicate Stores(s: Sys, step: Step) {
    step.Advance? && step.ok && step.t in s.threads && s.threads[step.t].pc.Claimed?
  }

  /** The log holds that event already. */
  predicate StoresAgain(s: Sys, step: Step) {
    Stores(s, step) && s.threads[step.t].id in s.store
  }

  lemma StepStores(s: Sys, step: Step)
    ensures Next(s, step).store == s.store + if Stores(s, step) then [s.threads[step.t].id] else []
  {
    match step
    case Advance(t, ok, enabled, size) => assert s.store + [] == s.store;
    case _ => assert s.store + [] == s.store;
  }

  lemma NoRepeatOneMore(ids: seq<string>, id: string)
    requires NoRepeat(ids)
    ensures NoRepeat(ids + [id]) <==> id !in ids
  {
    if id in ids {
      var i :| 0 <= i < |ids| && ids[i] == id;
      assert (ids + [id])[i] == (ids + [id])[|ids|];
    }
  }

  /** A step, whatever the state, makes the event log repeat an ID exactly when it stores a stored one. */
  lemma StepRepeatsIff(s: Sys, step: Step)
    requires NoRepeat(s.store)
    ensures NoRepeat(Next(s, step).store) <==> !StoresAgain(s, step)
  {
    hide Next, NoRepeat;
    StepStores(s, step);
    if Stores(s, step) {
      NoRepeatOneMore(s.store, s.threads[step.t].id);
    } else {
      assert Next(s, step).store == s.store;
    }
  }

  predicate NeverStoresAgain(s: Sys, steps: seq<Step>)
    decreases |steps|
  {
    steps != [] ==> !StoresAgain(s, steps[0]) && NeverStoresAgain(Next(s, steps[0]), steps[1..])
  }

  lemma {:induction false} StoreOnlyGrows(s: Sys, steps: seq<Step>)
    ensures s.store <= Run(s, steps).store
    decreases |steps|
  {
    hide Next;
    if steps != [] {
      StepStores(s, steps[0]);
      StoreOnlyGrows(Next(s, steps[0]), steps[1..]);
    }
  }

  /** An interleaving leaves the event log with an ID twice exactly when some step of it stores an ID that is
      stored already. */
  lemma {:induction false} LogRepeatsIff(s: Sys, steps: seq<Step>)
    requires NoRepeat(s.store)
    ensures NoRepeat(Run(s, steps).store) <==> NeverStoresAgain(s, steps)
    decreases |steps|
  {
    hide Next, StoresAgain;
    if steps != [] {
      var u := Next(s, steps[0]);
      StepRepeatsIff(s, steps[0]);
      if StoresAgain(s, steps[0]) {
        StoreOnlyGrows(u, steps[1..]);
        PrefixRepeats(u.store, Run(u, steps[1..]).store);
      } else {
        LogRepeatsIff(u, steps[1..]);
      }
    }
  }

  lemma PrefixRepeats(a: seq<string>, b: seq<string>)
    requires a <= b && !NoRepeat(a)
    ensures !NoRepeat(b)
  {
    var i, j :| 0 <= i < j < |a| && a[i] == a[j];
    assert b[i] == b[j];
  }

  // ----- conservation -----

  /** Threads that have sent to the channel and not yet counted it. */
  function Uncounted(threads: map<nat, Thread>): set<nat> {
    set t | t in threads && threads[t].pc.Pushed?
  }

  /** Events popped and not yet counted out. */
  function Outstanding(s: Sys): nat {
    |s.chan| + if s.phase == Sending || s.phase == Delivered then |s.pending| else 0
  }

  /** Every push is forwarded or outstanding; the counter plus the pushes not yet counted is what is
      outstanding plus what stopping at zero added. */
  ghost predicate CountInv(s: Sys) {
    && s.pushes == s.forwarded + Outstanding(s)
    && s.queued + |Uncounted(s.threads)| == Outstanding(s) + s.clamped
  }

  lemma UncountedWithout(threads: map<nat, Thread>, t: nat)
    requires t in threads
    ensures |Uncounted(threads - {t})| == |Uncounted(threads)| - Weight(threads[t])
  {
    var rest := Uncounted(threads) - {t};
    assert Uncounted(threads - {t}) == rest;
    assert Uncounted(threads) == if threads[t].pc.Pushed? then rest + {t} else rest;
  }

  lemma UncountedAfter(threads: map<nat, Thread>, t: nat, th: Thread)
    requires t in threads
    ensures |Uncounted(threads[t := th])| == |Uncounted(threads)| - Weight(threads[t]) + Weight(th)
    ensures |Uncounted(threads - {t})| == |Uncounted(threads)| - Weight(threads[t])
  {
    var rest := Uncounted(threads - {t});
    UncountedWithout(threads, t);
    assert Uncounted(threads[t := th]) == if th.pc.Pushed? then rest + {t} else rest;
  }

  function Weight(th: Thread): nat {
    if th.pc.Pushed? then 1 else 0
  }

  lemma AdvanceKeepsCount(s: Sys, t: nat, ok: bool, enabled: bool, size: nat)
    requires CountInv(s) && t in s.threads
    ensures CountInv(Advanced(s, t, ok, enabled, size))
  {
    var th, offset := s.threads[t], if s.threads[t].pc.Checked? then s.threads[t].pc.offset else 0;
    var u := Advanced(s, t, ok, enabled, size);
    if th.pc.Checked? && |s.chan| < s.capacity {
      UncountedAfter(s.threads, t, th.(pc := Pushed(offset)));
    } else if th.pc.Pushed? {
      UncountedAfter(s.threads, t, th.(pc := Counted(th.pc.offset)));
    } else {
      RestKeepsCount(s, t, ok, enabled, size);
    }
  }

  lemma RestKeepsCount(s: Sys, t: nat, ok: bool, enabled: bool, size: nat)
    requires CountInv(s) && t in s.threads && !s.threads[t].pc.Pushed?
    requires s.threads[t].pc.Checked? ==> |s.chan| >= s.capacity
    ensures CountInv(Advanced(s, t, ok, enabled, size))
  {
    var th := s.threads[t];
    UncountedAfter(s.threads, t, match th.pc
      case Claimed => th.(pc := Stored)
      case Stored => th.(pc := Spooled(s.size))
      case Spooled(offset) => th.(pc := Placed(offset))
      case Placed(offset) => th.(pc := Checked(offset))
      case _ => th);
  }

  lemma StepKeepsCount(s: Sys, step: Step)
    requires CountInv(s)
    ensures CountInv(Next(s, step))
  {
    hide Advanced, Greatest, Members;
    match step
    case Advance(t, ok, enabled, size) => if t in s.threads { AdvanceKeepsCount(s, t, ok, enabled, size); }
    case Start(t, id) => assert Uncounted(Next(s, step).threads) == Uncounted(s.threads);
    case Reenqueue(t, i) => assert Uncounted(Next(s, step).threads) == Uncounted(s.threads);
    case Crash(scanned) => assert Uncounted(map[]) == {};
    case _ =>
  }

  lemma {:induction false} RunKeepsCount(s: Sys, steps: seq<Step>)
    requires CountInv(s)
    ensures CountInv(Run(s, steps))
    decreases |steps|
  {
    if steps != [] {
      StepKeepsCount(s, steps[0]);
      RunKeepsCount(Next(s, steps[0]), steps[1..]);
    }
  }

  lemma InitialKeeps(capacity: nat)
    ensures UniqueInv(Initial(capacity)) && CountInv(Initial(capacity))
  {
    assert Uncounted(map[]) == {};
  }

  /** Over every interleaving with any number of crashes: no push is lost, and the queue counter, read
      together with the pushes still to be counted, never reports fewer events than there are; it is
      exact precisely when it never had to stop at zero. When every restart that has a log can scan it,
      there is one log record per ID and spooled IDs are stored IDs; the invariant behind this, by which
      stored IDs are known, holds in every state exactly then. */
  lemma EveryInterleaving(capacity: nat, steps: seq<Step>)
    ensures var s := Run(Initial(capacity), steps);
      && s.pushes == s.forwarded + Outstanding(s)
      && Outstanding(s) <= s.queued + |Uncounted(s.threads)|
      && (s.queued + |Uncounted(s.threads)| == Outstanding(s) <==> s.clamped == 0)
    ensures UniqueThroughout(Initial(capacity), steps) <==> ScansThroughout(Initial(capacity), steps)
    ensures var s := Run(Initial(capacity), steps);
      ScansThroughout(Initial(capacity), steps) ==>
        NoRepeat(s.store) && NoRepeatedRecord(s.spool) && forall r :: r in s.spool ==> r.id in s.store
  {
    var s := Run(Initial(capacity), steps);
    InitialKeeps(capacity);
    RunKeepsCount(Initial(capacity), steps);
    RunIsUniqueIff(Initial(capacity), steps);
    assert forall r :: r in s.spool ==> r.id in SpoolIds(s.spool);
  }

  // ----- what the locks do not exclude -----

  lemma RunOne(s: Sys, step: Step, rest: seq<Step>)
    ensures Run(s, [step] + rest) == Run(Next(s, step), rest)
  {
    assert ([step] + rest)[1..] == rest;
  }

  lemma RunNone(s: Sys)
    ensures Run(s, []) == s
  {
  }

  /** A thread that was just started, taken through both appends, the offset table and the look at
      `inflight`. */
  function ToChecked(t: nat): seq<Step> {
    [Advance(t, true, true, 9), Advance(t, true, true, 9), Advance(t, true, true, 9), Advance(t, true, true, 9)]
  }

  /** The state a lone thread reaches that way. */
  function AtChecked(s: Sys, t: nat, id: string): Sys {
    s.(store := s.store + [id], spool := s.spool + [Record(id, s.size)], size := s.size + 10,
       seen := s.seen + {id}, offsets := s.offsets[id := s.size],
         threads := s.threads[t := Thread(id, Checked(s.size))])
  }

  function At(s: Sys, t: nat, id: string, pc: Pc): Sys {
    s.(threads := s.threads[t := Thread(id, pc)])
  }

  /** Where a thread stands after a lock region in which all goes well, up to the look at `inflight`. */
  function PcAfter(s: Sys, pc: Pc): Pc {
    match pc
    case Claimed => Stored
    case Stored => Spooled(s.size)
    case Spooled(offset) => Placed(offset)
    case Placed(offset) => Checked(offset)
    case _ => pc
  }

  /** What it writes. */
  function Wrote(s: Sys, id: string, pc: Pc): Sys {
    match pc
    case Claimed => s.(store := s.store + [id])
    case Stored => s.(spool := s.spool + [Record(id, s.size)], size := s.size + 10)
    case Spooled(offset) => s.(offsets := s.offsets[id := offset])
    case _ => s
  }

  lemma OneRegion(s: Sys, t: nat, id: string, pc: Pc, rest: seq<Step>)
    requires id !in s.inflight && !pc.Checked? && !pc.Pushed? && !pc.Counted?
    ensures Run(At(s, t, id, pc), [Advance(t, true, true, 9)] + rest) ==
      Run(At(Wrote(s, id, pc), t, id, PcAfter(s, pc)), rest)
  {
    RunOne(At(s, t, id, pc), Advance(t, true, true, 9), rest);
    RegionIs(s, t, id, pc);
  }

  lemma RegionIs(s: Sys, t: nat, id: string, pc: Pc)
    requires id !in s.inflight && !pc.Checked? && !pc.Pushed? && !pc.Counted?
    ensures Next(At(s, t, id, pc), Advance(t, true, true, 9)) == At(Wrote(s, id, pc), t, id, PcAfter(s, pc))
  {
    assert s.threads[t := Thread(id, pc)][t := Thread(id, PcAfter(s, pc))] ==
      s.threads[t := Thread(id, PcAfter(s, pc))];
  }

  lemma TwoAppends(s: Sys, t: nat, id: string, rest: seq<Step>)
    requires id !in s.inflight
    ensures Run(At(s, t, id, Claimed), [Advance(t, true, true, 9)] + ([Advance(t, true, true, 9)] + rest))
         == Run(At(Wrote(Wrote(s, id, Claimed), id, Stored), t, id, Spooled(s.size)), rest)
  {
    OneRegion(s, t, id, Claimed, [Advance(t, true, true, 9)] + rest);
    OneRegion(Wrote(s, id, Claimed), t, id, Stored, rest);
  }

  lemma TwoLooks(s: Sys, t: nat, id: string, offset: nat, rest: seq<Step>)
    requires id !in s.inflight
    ensures Run(At(s, t, id, Spooled(offset)), [Advance(t, true, true, 9)] + ([Advance(t, true, true, 9)] + rest))
         == Run(At(Wrote(s, id, Spooled(offset)), t, id, Checked(offset)), rest)
  {
    OneRegion(s, t, id, Spooled(offset), [Advance(t, true, true, 9)] + rest);
    OneRegion(Wrote(s, id, Spooled(offset)), t, id, Placed(offset), rest);
  }

  lemma ToCheckedInFour(t: nat, id: string, rest: seq<Step>)
    ensures var go := [Advance(t, true, true, 9)];
      [Start(t, id)] + ToChecked(t) + rest == [Start(t, id)] + (go + (go + (go + (go + rest))))
  {
  }

  lemma Starts(s: Sys, t: nat, id: string, rest: seq<Step>)
    requires t !in s.threads && id !in s.seen
    ensures Run(s, [Start(t, id)] + rest) == Run(At(s.(seen := s.seen + {id}), t, id, Claimed), rest)
  {
    RunOne(s, Start(t, id), rest);
  }

  lemma AtCheckedInSteps(s: Sys, t: nat, id: string)
    ensures At(Wrote(Wrote(Wrote(s.(seen := s.seen + {id}), id, Claimed), id, Stored), id, Spooled(s.size)), t, id,
      Checked(s.size))
         == AtChecked(s, t, id)
  {
  }

  lemma ReachesChecked(s: Sys, t: nat, id: string, rest: seq<Step>)
    requires t !in s.threads && id !in s.seen && id !in s.inflight
    ensures Run(s, [Start(t, id)] + ToChecked(t) + rest) == Run(AtChecked(s, t, id), rest)
  {
    var go := [Advance(t, true, true, 9)];
    var seen := s.(seen := s.seen + {id});
    ToCheckedInFour(t, id, rest);
    Starts(s, t, id, go + (go + (go + (go + rest))));
    TwoAppends(seen, t, id, go + (go + rest));
    TwoLooks(Wrote(Wrote(seen, id, Claimed), id, Stored), t, id, s.size, rest);
    AtCheckedInSteps(s, t, id);
  }

  const DRAIN: seq<Step> := [Take, Send(1), CountSuccess, MarkForwarded(Spool.Written), Forget]

  /** After the worker has taken the only event of the channel all the way. */
  function Drained(s: Sys, id: string): Sys
    requires id in s.offsets
  {
    s.(chan := [], wire := s.wire + [id], forwarded := s.forwarded + 1, checkpoint := s.offsets[id],
       queued := if s.queued >= 1 then s.queued - 1 else 0, clamped := s.clamped + if s.queued >= 1 then 0 else 1,
       inflight := s.inflight - {id})
  }

  /** The worker has sent the only event of the channel. */
  function Delivering(s: Sys, id: string): Sys {
    s.(chan := [], pending := [id], wire := s.wire + [id], phase := Delivered)
  }

  lemma DrainDelivers(s: Sys, id: string, rest: seq<Step>)
    requires s.chan == [id] && s.pending == [] && s.phase == Sending
    ensures Run(s, [Take] + ([Send(1)] + rest)) == Run(Delivering(s, id), rest)
  {
    assert s.chan[1..] == [] && s.pending + [id] == [id];
    RunOne(s, Take, [Send(1)] + rest);
    RunOne(Next(s, Take), Send(1), rest);
  }

  lemma DrainMarks(s: Sys, id: string, rest: seq<Step>)
    requires s.phase == Done && s.pending == [id] && id in s.offsets
    ensures Run(s, [MarkForwarded(Spool.Written)] + ([Forget] + rest)) ==
      Run(s.(checkpoint := s.offsets[id], inflight := s.inflight - {id}, pending := [], phase := Sending), rest)
  {
    assert Members([id]) == {id};
    assert Greatest([id], s.offsets) == s.offsets[id] by { assert [id][1..] == []; }
    RunOne(s, MarkForwarded(Spool.Written), [Forget] + rest);
    RunOne(Next(s, MarkForwarded(Spool.Written)), Forget, rest);
  }

  lemma DrainFinishes(s: Sys, id: string, rest: seq<Step>)
    requires s.chan == [id] && s.pending == [] && s.phase == Sending && id in s.offsets
    ensures Run(Delivering(s, id), [CountSuccess] + ([MarkForwarded(Spool.Written)] + ([Forget] + rest)))
         == Run(Drained(s, id), rest)
  {
    hide Run;
    RunOne(Delivering(s, id), CountSuccess, [MarkForwarded(Spool.Written)] + ([Forget] + rest));
    DrainMarks(Next(Delivering(s, id), CountSuccess), id, rest);
  }

  lemma Drains(s: Sys, id: string, rest: seq<Step>)
    requires s.chan == [id] && s.pending == [] && s.phase == Sending && id in s.offsets
    ensures Run(s, DRAIN + rest) == Run(Drained(s, id), rest)
  {
    var finish := [CountSuccess] + ([MarkForwarded(Spool.Written)] + ([Forget] + rest));
    assert DRAIN + rest == [Take] + ([Send(1)] + finish);
    DrainDelivers(s, id, finish);
    DrainFinishes(s, id, rest);
  }

  /** A lone thread has pushed the only event. */
  function JustPushed(s: Sys, id: string): Sys {
    s.(chan := [id], threads := map[0 := Thread(id, Pushed(0))], pushes := s.pushes + 1)
  }

  lemma Pushes(s: Sys, id: string, rest: seq<Step>)
    requires s.chan == [] && s.capacity > 0 && s.threads == map[0 := Thread(id, Checked(0))]
    ensures Run(s, [Advance(0, true, true, 9)] + rest) == Run(JustPushed(s, id), rest)
  {
    RunOne(s, Advance(0, true, true, 9), rest);
    assert Next(s, Advance(0, true, true, 9)) == JustPushed(s, id);
  }

  lemma CountsLate(s: Sys, id: string)
    requires s.threads == map[0 := Thread(id, Pushed(0))]
    ensures var t := Run(s, [Advance(0, true, true, 9)] + ([Advance(0, true, true, 9)] + []));
      && t.threads == map[] && t.chan == s.chan && t.pending == s.pending && t.wire == s.wire
      && t.queued == s.queued + 1 && t.inflight == s.inflight + {id}
  {
    var go := Advance(0, true, true, 9);
    var t := Next(s, go);
    RunOne(s, go, [go] + []);
    RunOne(t, go, []);
    assert t.threads == map[0 := Thread(id, Counted(0))];
    assert Next(t, go).threads == map[];
  }

  lemma StoresOne(s: Sys, t: nat, id: string, rest: seq<Step>)
    requires t !in s.threads && id !in s.seen
    ensures Run(s, [Start(t, id)] + ([Advance(t, true, true, 9)] + rest)) ==
      Run(At(s.(seen := s.seen + {id}, store := s.store + [id]), t, id, Stored), rest)
  {
    var u := At(s.(seen := s.seen + {id}), t, id, Claimed);
    RunOne(s, Start(t, id), [Advance(t, true, true, 9)] + rest);
    RunOne(u, Advance(t, true, true, 9), rest);
    assert s.threads[t := Thread(id, Claimed)][t := Thread(id, Stored)] == s.threads[t := Thread(id, Stored)];
  }

  /** A restart that cannot scan the log takes the same event in again. */
  lemma UnscannedRestartRepeats(id: string) returns (steps: seq<Step>)
    ensures Run(Initial(4096), steps).store == [id, id]
  {
    var again := [Start(0, id)] + ([Advance(0, true, true, 9)] + []);
    steps := [Start(0, id)] + ([Advance(0, true, true, 9)] + ([Crash(false)] + again));
    var s := At(Initial(4096).(seen := {id}, store := [id]), 0, id, Stored);
    StoresOne(Initial(4096), 0, id, [Crash(false)] + again);
    assert {} + {id} == {id} && [] + [id] == [id];
    RunOne(s, Crash(false), again);
    StoresOne(Next(s, Crash(false)), 0, id, []);
  }

  /** `Push` counts after it sends. A worker that is faster than the count makes the counter stop at
      zero, and when every thread has finished the counter reports an event that does not exist; the
      ID also stays in `inflight` for good, although nothing holds it. */
  lemma FastWorkerLeavesCounterHigh(id: string) returns (steps: seq<Step>)
    ensures var s := Run(Initial(4096), steps);
      s.threads == map[] && s.chan == [] && s.pending == [] && s.wire == [id] && s.queued == 1 && s.inflight == {id}
  {
    var go := Advance(0, true, true, 9);
    var late := [go] + ([go] + []);
    steps := [Start(0, id)] + ToChecked(0) + ([go] + (DRAIN + late));
    ReachesChecked(Initial(4096), 0, id, [go] + (DRAIN + late));
    var a := AtChecked(Initial(4096), 0, id);
    Pushes(a, id, DRAIN + late);
    Drains(JustPushed(a, id), id, late);
    CountsLate(Drained(JustPushed(a, id), id), id);
  }

  /** One thread is about to push, and a refill comes by for the same record. */
  lemma PushesTwice(s: Sys, id: string)
    requires 1 in s.threads && s.threads[1] == Thread(id, Checked(10)) && 2 !in s.threads && id !in s.inflight
    requires |s.spool| == 2 && s.spool[1] == Record(id, 10) && s.checkpoint == 0 && s.chan == [] && s.capacity > 1
    ensures Run(s, [Reenqueue(2, 1)] +
      ([Advance(2, true, true, 9)] + ([Advance(1, true, true, 9)] + ([Advance(2, true, true, 9)] + [])))).chan ==
        [id, id]
  {
    hide Run;
    var first, second := Advance(1, true, true, 9), Advance(2, true, true, 9);
    var a := Next(s, Reenqueue(2, 1));
    var b := Next(a, second);
    var c := Next(b, first);
    RunOne(s, Reenqueue(2, 1), [second] + ([first] + ([second] + [])));
    RunOne(a, second, [first] + ([second] + []));
    RunOne(b, first, [second] + []);
    RunOne(c, second, []);
    RunNone(Next(c, second));
  }

  /** `enqueueIfNeeded` lets go of the lock between its check and its push: a refill that comes in
      between puts the same event into the channel twice. */
  lemma RefillCanDuplicate(first: string, id: string) returns (steps: seq<Step>)
    requires first != id
    ensures Run(Initial(4096), steps).chan == [id, id]
  {
    hide Run, ToChecked;
    var check, push := Advance(2, true, true, 9), Advance(1, true, true, 9);
    var tail := [Reenqueue(2, 1)] + ([check] + ([push] + ([check] + [])));
    steps := [Start(0, first)] + ToChecked(0) + ([Start(1, id)] + ToChecked(1) + tail);
    ReachesChecked(Initial(4096), 0, first, [Start(1, id)] + ToChecked(1) + tail);
    var a := AtChecked(Initial(4096), 0, first);
    ReachesChecked(a, 1, id, tail);
    PushesTwice(AtChecked(a, 1, id), id);
  }

  /** Three ingests have written their records; the third is about to push, the others are not. */
  function ThreeWritten(a: string, b: string, c: string): Sys {
    AtChecked(AtChecked(AtChecked(Initial(4096), 0, a), 1, b), 2, c)
  }

  lemma ReachesThreeWritten(a: string, b: string, c: string, rest: seq<Step>)
    requires a != b && a != c && b != c
    ensures Run(Initial(4096), [Start(0, a)] + ToChecked(0) +
      ([Start(1, b)] + ToChecked(1) + ([Start(2, c)] + ToChecked(2) + rest)))
         == Run(ThreeWritten(a, b, c), rest)
  {
    var s := AtChecked(Initial(4096), 0, a);
    ReachesChecked(Initial(4096), 0, a, [Start(1, b)] + ToChecked(1) + ([Start(2, c)] + ToChecked(2) + rest));
    ReachesChecked(s, 1, b, [Start(2, c)] + ToChecked(2) + rest);
    ReachesChecked(AtChecked(s, 1, b), 2, c, rest);
  }

  lemma SendsTheLast(s: Sys, id: string)
    requires s.chan == [] && s.pending == [] && s.phase == Sending && s.capacity > 0
    requires 2 in s.threads && s.threads[2] == Thread(id, Checked(20)) && id in s.offsets
    ensures var t := Run(s, [Advance(2, true, true, 9)] + (DRAIN + ([Crash(true)] + [])));
      && t.spool == s.spool && t.wire == s.wire + [id] && t.checkpoint == s.offsets[id]
      && t.threads == map[] && t.chan == [] && t.pending == []
  {
    var pushed := Next(s, Advance(2, true, true, 9));
    RunOne(s, Advance(2, true, true, 9), DRAIN + ([Crash(true)] + []));
    Drains(pushed, id, [Crash(true)] + []);
    RunOne(Drained(pushed, id), Crash(true), []);
  }

  /** Two ingests at once: the later record is pushed, sent and checkpointed while the earlier one is
      still on its way to the queue. A crash then loses the earlier one: it was never sent, and the
      checkpoint has passed it. */
  lemma OvertakingLosesAnEvent(first: string, early: string, late: string) returns (steps: seq<Step>)
    requires first != early && first != late && early != late
    ensures var s := Run(Initial(4096), steps);
      Record(early, 10) in s.spool && early !in s.wire && 10 <= s.checkpoint && s.threads == map[] && s.chan == [] &&
        s.pending == []
  {
    var push := Advance(2, true, true, 9);
    var tail := [push] + (DRAIN + ([Crash(true)] + []));
    steps := [Start(0, first)] + ToChecked(0) +
      ([Start(1, early)] + ToChecked(1) + ([Start(2, late)] + ToChecked(2) + tail));
    ReachesThreeWritten(first, early, late, tail);
    var c := ThreeWritten(first, early, late);
    SendsTheLast(c, late);
    assert c.spool[1] == Record(early, 10) && c.offsets[late] == 20;
  }
}
