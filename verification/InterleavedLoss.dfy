/** What a push out of order leads to: the pushing thread and the worker alone can bring the checkpoint
    past an unsent record, and after a push in order they cannot. */
module InterleavedLoss {
  import Spool
  import opened Interleaving
  import opened InterleavedOrder

  /** The checkpoint has passed that record although it was not sent. */
  predicate PassesUnsent(s: Sys, r: Record) {
    r in s.spool && 0 < r.offset <= s.checkpoint && r.id !in s.wire
  }

  /** Steps of the worker and of one thread. */
  predicate OnlyWorkerAnd(t: nat, steps: seq<Step>) {
    forall step :: step in steps ==> IsWorkers(step) || (step.Advance? && step.t == t)
  }

  lemma {:induction false} RunBoth(s: Sys, a: seq<Step>, b: seq<Step>)
    ensures Run(s, a + b) == Run(Run(s, a), b)
    decreases |a|
  {
    hide Next;
    if a == [] {
      assert a + b == b;
    } else {
      RunBoth(Next(s, a[0]), a[1..], b);
      assert (a + b)[1..] == a[1..] + b;
    }
  }

  // ----- the worker is through with a batch -----

  const FINISH: seq<Step> := [CountSuccess, MarkForwarded(Spool.Written), Forget]

  /** Spool, channel and offsets stay as they are, and what was sent or in the batch still is. */
  ghost predicate SameGoods(s: Sys, u: Sys) {
    && u.spool == s.spool && u.chan == s.chan && u.offsets == s.offsets && u.wire == s.wire
    && u.capacity == s.capacity && Out(u) == Out(s)
  }

  lemma RunsThree(s: Sys, a: Step, b: Step, c: Step)
    ensures Run(s, [a, b, c]) == Next(Next(Next(s, a), b), c)
  {
    hide Next;
    assert [a, b, c] == [a] + ([b] + ([c] + []));
    RunOne(s, a, [b] + ([c] + []));
    RunOne(Next(s, a), b, [c] + []);
    RunOne(Next(Next(s, a), b), c, []);
  }

  /** From any phase the worker can get through with its batch, and what is on its way stays so. */
  lemma Finishes(s: Sys)
    requires s.phase != Sending ==> Members(s.pending) <= Members(s.wire)
    ensures Run(s, FINISH).phase == Sending && SameGoods(s, Run(s, FINISH))
  {
    hide Run, Members, Greatest;
    RunsThree(s, CountSuccess, MarkForwarded(Spool.Written), Forget);
    NoMembers();
  }

  lemma NoMembers()
    ensures Members([]) == {}
  {
  }

  // ----- the worker sends the whole channel -----

  function Takes(n: nat): seq<Step> {
    seq(n, i => Take)
  }

  /** The whole channel has moved to the batch. */
  function AllTaken(s: Sys): Sys {
    s.(pending := s.pending + s.chan, chan := [])
  }

  lemma {:induction false} TakesAll(s: Sys)
    requires s.phase == Sending
    ensures Run(s, Takes(|s.chan|)) == AllTaken(s)
    decreases |s.chan|
  {
    if s.chan == [] {
      assert s.pending + s.chan == s.pending;
    } else {
      var u := Next(s, Take);
      TakesAll(u);
      assert Takes(|s.chan|) == [Take] + Takes(|u.chan|);
      RunOne(s, Take, Takes(|u.chan|));
      assert s.pending + [s.chan[0]] + s.chan[1..] == s.pending + s.chan;
    }
  }

  lemma {:induction false} GreatestBounds(ids: seq<string>, id: string, offsets: map<string, nat>)
    requires id in ids && id in offsets
    ensures offsets[id] <= Greatest(ids, offsets)
  {
    if id in ids[1..] { GreatestBounds(ids[1..], id, offsets); }
  }

  /** The worker sends its batch and writes the checkpoint. */
  lemma SendsAndMarks(s: Sys, id: string)
    requires s.phase == Sending && id in s.pending && id in s.offsets
    ensures var u := Run(s, [Send(|s.pending|), CountSuccess, MarkForwarded(Spool.Written)]);
      u.spool == s.spool && u.wire == s.wire + s.pending && u.checkpoint >= s.offsets[id]
  {
    hide Run;
    RunsThree(s, Send(|s.pending|), CountSuccess, MarkForwarded(Spool.Written));
    GreatestBounds(s.pending, id, s.offsets);
  }

  function ToTheEnd(s: Sys): seq<Step> {
    Takes(|s.chan|) + [Send(|s.pending| + |s.chan|), CountSuccess, MarkForwarded(Spool.Written)]
  }

  /** From between two batches the worker can send all there is, and its checkpoint then passes every
      record up to each of those events. */
  lemma SendsEverything(s: Sys, id: string)
    requires s.phase == Sending && id in s.chan && id in s.offsets
    ensures var u := Run(s, ToTheEnd(s));
      && u.spool == s.spool && u.checkpoint >= s.offsets[id]
      && Members(u.wire) == Out(s) + Members(s.chan)
  {
    hide Run;
    var all := AllTaken(s);
    TakesAll(s);
    RunBoth(s, Takes(|s.chan|), [Send(|s.pending| + |s.chan|), CountSuccess, MarkForwarded(Spool.Written)]);
    SendsAndMarks(all, id);
  }

  // ----- after a push -----

  /** A push, and the two regions the thread has left: it counts, and enters its ID. */
  lemma PushAndEnter(s: Sys, step: Step)
    requires PushesNow(s, step)
    ensures var id := s.threads[step.t].id; var u := Run(s, [step, step, step]);
      && u.chan == s.chan + [id] && id in u.offsets && u.offsets[id] == s.threads[step.t].pc.offset
      && u.spool == s.spool && u.wire == s.wire && u.pending == s.pending && u.phase == s.phase
  {
    hide Run, Next;
    var u := Next(s, step);
    RunsThree(s, step, step, step);
    PushRegion(s, step);
    CountRegion(u, step);
    EnterRegion(Next(u, step), step);
  }

  /** States with the same route and offsets. */
  predicate SameWay(s: Sys, u: Sys) {
    u.spool == s.spool && u.wire == s.wire && u.pending == s.pending && u.phase == s.phase
  }

  lemma PushRegion(s: Sys, step: Step)
    requires PushesNow(s, step)
    ensures var u, th := Next(s, step), s.threads[step.t];
      && SameWay(s, u) && u.chan == s.chan + [th.id]
      && step.t in u.threads && u.threads[step.t] == Thread(th.id, Pushed(th.pc.offset))
  {
  }

  lemma CountRegion(s: Sys, step: Step)
    requires step.Advance? && step.t in s.threads && s.threads[step.t].pc.Pushed?
    ensures var u, th := Next(s, step), s.threads[step.t];
      && SameWay(s, u) && u.chan == s.chan
      && step.t in u.threads && u.threads[step.t] == Thread(th.id, Counted(th.pc.offset))
  {
  }

  lemma EnterRegion(s: Sys, step: Step)
    requires step.Advance? && step.t in s.threads && s.threads[step.t].pc.Counted?
    ensures var u, th := Next(s, step), s.threads[step.t];
      && SameWay(s, u) && u.chan == s.chan
      && th.id in u.offsets && u.offsets[th.id] == th.pc.offset
  {
  }

  /** A record that was to be pushed earlier. */
  lemma MissingIsEarlier(s: Sys, step: Step) returns (r: Record)
    requires OrderInv(s) && PushesNow(s, step) && !InOrder(s, step)
    ensures r in s.spool && 0 < r.offset < s.threads[step.t].pc.offset
    ensures r.id !in Out(s) + Members(s.chan) && r.id != s.threads[step.t].id
  {
    hide UniqueInv, RouteInv, SpoolForm;
    var th := s.threads[step.t];
    var id :| id in Earlier(s.spool, th.pc.offset) && id !in Out(s) + Members(s.chan);
    r :| r in s.spool && 0 < r.offset < th.pc.offset && r.id == id;
    var q := Record(th.id, th.pc.offset);
    assert q in s.spool;
    if r.id == q.id { OneRecordOfUnique(s, r, q); }
  }

  lemma OneRecordOfUnique(s: Sys, r: Record, q: Record)
    requires UniqueInv(s) && r in s.spool && q in s.spool && r.id == q.id
    ensures r == q
  {
    OneRecordPerId(s.spool, r, q);
  }

  lemma OnlyWorkerSteps(s: Sys, t: nat, step: Step)
    requires step.Advance? && step.t == t
    ensures OnlyWorkerAnd(t, [step, step] + FINISH + ToTheEnd(s))
  {
  }

  /** After a push out of order the thread counts and enters, the worker gets through with its batch, takes
      the channel, sends it and writes the checkpoint: a record is passed that was not sent. */
  lemma OutOfOrderIsPassed(s: Sys, step: Step) returns (rest: seq<Step>, r: Record)
    requires OrderInv(s) && PushesNow(s, step) && !InOrder(s, step)
    ensures OnlyWorkerAnd(step.t, rest) && PassesUnsent(Run(Next(s, step), rest), r)
  {
    hide Run, Next, UniqueInv, KnownInv, Passed, BatchOrder, ChanOrder, InOrder, OnlyWorkerAnd;
    r := MissingIsEarlier(s, step);
    var id := s.threads[step.t].id;
    PushAndEnter(s, step);
    var pushed := Run(s, [step, step, step]);
    Finishes(pushed);
    var between := Run(pushed, FINISH);
    LastInChannel(s.chan, id);
    SendsEverything(between, id);
    rest := [step, step] + FINISH + ToTheEnd(between);
    OnlyWorkerSteps(between, step.t, step);
    RunsOn(s, step, ToTheEnd(between));
    assert r.id !in Members(Run(between, ToTheEnd(between)).wire);
  }

  lemma LastInChannel(chan: seq<string>, id: string)
    ensures id in chan + [id] && Members(chan + [id]) == Members(chan) + {id}
  {
    assert (chan + [id])[|chan|] == id;
  }

  lemma RunsOn(s: Sys, step: Step, last: seq<Step>)
    ensures Run(Next(s, step), [step, step] + FINISH + last) == Run(Run(Run(s, [step, step, step]), FINISH), last)
  {
    hide Next;
    RunBoth(Next(s, step), [step, step] + FINISH, last);
    RunBoth(Next(s, step), [step, step], FINISH);
    assert [step, step, step] == [step] + [step, step];
    RunOne(s, step, [step, step]);
  }

  /** A thread that has pushed, or is gone: it does not push again. */
  predicate HasPushed(s: Sys, t: nat) {
    t in s.threads ==> s.threads[t].pc.Pushed? || s.threads[t].pc.Counted?
  }

  lemma StaysInOrder(s: Sys, t: nat, step: Step)
    requires OrderInv(s) && HasPushed(s, t) && (IsWorkers(step) || (step.Advance? && step.t == t))
    ensures OrderInv(Next(s, step)) && HasPushed(Next(s, step), t)
  {
    hide OrderInv;
    StepKeepsOrderIff(s, step);
  }

  lemma {:induction false} StaysBehind(s: Sys, t: nat, rest: seq<Step>)
    requires OrderInv(s) && HasPushed(s, t) && OnlyWorkerAnd(t, rest)
    ensures OrderInv(Run(s, rest))
    decreases |rest|
  {
    hide OrderInv, Next;
    if rest != [] {
      assert rest[0] in rest;
      StaysInOrder(s, t, rest[0]);
      StaysBehind(Next(s, rest[0]), t, rest[1..]);
    }
  }

  lemma OrderPassesNone(s: Sys, r: Record)
    requires OrderInv(s)
    ensures !PassesUnsent(s, r)
  {
    hide UniqueInv, KnownInv, BatchOrder, ChanOrder;
    if r in s.spool && 0 < r.offset <= s.checkpoint { assert r.id in Earlier(s.spool, s.checkpoint + 1); }
  }

  lemma PushedInOrder(s: Sys, step: Step)
    requires OrderInv(s) && PushesNow(s, step) && InOrder(s, step)
    ensures OrderInv(Next(s, step)) && HasPushed(Next(s, step), step.t)
  {
    hide OrderInv;
    StepKeepsOrderIff(s, step);
  }

  /** From a state in order, a push can be followed by steps of its own thread and of the worker alone that
      bring the checkpoint past an unsent record exactly when it comes out of order. */
  lemma PushPassesIff(s: Sys, step: Step)
    requires OrderInv(s) && PushesNow(s, step)
    ensures (exists rest, r :: OnlyWorkerAnd(step.t, rest) && PassesUnsent(Run(Next(s, step), rest), r)) <==>
      !InOrder(s, step)
  {
    hide OrderInv, Next, Run, PassesUnsent, OnlyWorkerAnd, InOrder;
    if !InOrder(s, step) {
      var rest, r := OutOfOrderIsPassed(s, step);
    } else {
      PushedInOrder(s, step);
      forall rest, r | OnlyWorkerAnd(step.t, rest) ensures !PassesUnsent(Run(Next(s, step), rest), r) {
        StaysBehind(Next(s, step), step.t, rest);
        OrderPassesNone(Run(Next(s, step), rest), r);
      }
    }
  }
}
