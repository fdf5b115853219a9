/** Deduplication at the grain of the locks: when batch and channel hold no ID twice and `inflight` is
    exactly their IDs, over every interleaving. */
module InterleavedQueue {
  import opened Interleaving

  /** Between the look at `inflight` and the entry in it. */
  predicate InTransit(th: Thread) {
    th.pc.Checked? || th.pc.Pushed? || th.pc.Counted?
  }

  /** In the channel or further, but not yet in `inflight`. */
  predicate Unentered(th: Thread) {
    th.pc.Pushed? || th.pc.Counted?
  }

  predicate BothInTransit(s: Sys, t: nat, u: nat)
    requires t in s.threads && u in s.threads
  {
    InTransit(s.threads[t]) && InTransit(s.threads[u])
  }

  function Held(s: Sys): seq<string> {
    s.pending + s.chan
  }

  /** No ID is held twice, and the IDs held are those in `inflight` and those of the threads that have
      pushed and not yet entered theirs. */
  ghost predicate HeldInv(s: Sys) {
    && NoRepeat(Held(s))
    && (forall id :: id in Held(s) ==> id in s.inflight || HasThread(s, id))
    && (forall id :: id in s.inflight ==> id in Held(s))
  }

  /** A thread that has pushed holds an ID that is held and not yet in `inflight`, a thread about to push
      one that is not held, and no two threads in transit have one ID. */
  ghost predicate TransitInv(s: Sys) {
    && (forall t :: t in s.threads && Unentered(s.threads[t]) ==>
          s.threads[t].id in Held(s) && s.threads[t].id !in s.inflight)
    && (forall t :: t in s.threads && s.threads[t].pc.Checked? ==> s.threads[t].id !in Held(s))
    && (forall t, u :: t in s.threads && u in s.threads && t != u && BothInTransit(s, t, u) ==>
          s.threads[t].id != s.threads[u].id)
  }

  ghost predicate ExactInv(s: Sys) {
    HeldInv(s) && TransitInv(s)
  }

  ghost predicate HasThread(s: Sys, id: string) {
    exists t :: t in s.threads && Unentered(s.threads[t]) && s.threads[t].id == id
  }

  // ----- the two regions that can go wrong -----

  /** A thread that looks at `inflight` and does not find its ID. */
  predicate LooksInVain(s: Sys, step: Step) {
    step.Advance? && step.t in s.threads && s.threads[step.t].pc.Placed? && s.threads[step.t].id !in s.inflight
  }

  predicate Alone(s: Sys, t: nat)
    requires t in s.threads
  {
    forall u :: u in s.threads && u != t && s.threads[u].id == s.threads[t].id ==> !InTransit(s.threads[u])
  }

  /** No thread of an event of the batch has yet to enter it in `inflight`. */
  predicate BatchEntered(s: Sys) {
    forall t :: t in s.threads && Unentered(s.threads[t]) ==> s.threads[t].id !in s.pending
  }

  /** The guard: a look in vain while no other thread of the same ID is between its own look and its
      entry, and a batch forgotten only when its events have been entered. */
  predicate QueueGuard(s: Sys, step: Step) {
    && (LooksInVain(s, step) ==> Alone(s, step.t))
    && (step.Forget? && s.phase == Marked ==> BatchEntered(s))
  }

  /** The push region: no ID is held twice afterwards exactly when the ID was not held before. */
  lemma PushKeepsDistinctIff(s: Sys, t: nat, ok: bool, enabled: bool, size: nat)
    requires t in s.threads && s.threads[t].pc.Checked? && |s.chan| < s.capacity && NoRepeat(Held(s))
    ensures NoRepeat(Held(Advanced(s, t, ok, enabled, size))) <==> s.threads[t].id !in Held(s)
  {
    var id, u := s.threads[t].id, Advanced(s, t, ok, enabled, size);
    assert Held(u) == Held(s) + [id];
    if id in Held(s) {
      var i :| 0 <= i < |Held(s)| && Held(s)[i] == id;
      assert Held(u)[i] == Held(u)[|Held(s)|];
    }
  }

  lemma LookKeepsExactIff(s: Sys, step: Step)
    requires ExactInv(s) && LooksInVain(s, step)
    ensures ExactInv(Next(s, step)) <==> Alone(s, step.t)
  {
    var t, u := step.t, Next(s, step);
    assert Held(u) == Held(s);
    assert u.threads == s.threads[t := s.threads[t].(pc := Checked(s.threads[t].pc.offset))];
    if Alone(s, t) {
      assert s.threads[t].id !in Held(s);
      forall id | id in Held(u) ensures id in u.inflight || HasThread(u, id) {
        if HasThread(s, id) {
          var k :| k in s.threads && Unentered(s.threads[k]) && s.threads[k].id == id;
          assert u.threads[k] == s.threads[k];
        }
      }
    } else {
      var k :| k in s.threads && k != t && s.threads[k].id == s.threads[t].id && InTransit(s.threads[k]);
      assert k in u.threads && t in u.threads && InTransit(u.threads[k]) && InTransit(u.threads[t]);
      assert u.threads[k].id == u.threads[t].id;
    }
  }

  lemma PushKeepsExact(s: Sys, t: nat, ok: bool, enabled: bool, size: nat)
    requires ExactInv(s) && t in s.threads && s.threads[t].pc.Checked? && |s.chan| < s.capacity
    ensures ExactInv(Advanced(s, t, ok, enabled, size))
  {
    var u := Advanced(s, t, ok, enabled, size);
    PushKeepsDistinctIff(s, t, ok, enabled, size);
    hide Advanced, NoRepeat;
    PushHolds(s, t, ok, enabled, size);
    PushKeepsHeld(s, u, t);
    PushKeepsTransit(s, u, t);
  }

  /** A thread pushes its ID; nothing else changes. */
  ghost predicate Pushes(s: Sys, u: Sys, t: nat) {
    && t in s.threads && s.threads[t].pc.Checked?
    && u.threads == s.threads[t := Thread(s.threads[t].id, Pushed(s.threads[t].pc.offset))]
    && Held(u) == Held(s) + [s.threads[t].id] && u.inflight == s.inflight
  }

  lemma PushHolds(s: Sys, t: nat, ok: bool, enabled: bool, size: nat)
    requires t in s.threads && s.threads[t].pc.Checked? && |s.chan| < s.capacity
    ensures Pushes(s, Advanced(s, t, ok, enabled, size), t)
  {
  }

  lemma PushKeepsHeld(s: Sys, u: Sys, t: nat)
    requires HeldInv(s) && Pushes(s, u, t) && NoRepeat(Held(u))
    ensures HeldInv(u)
  {
    hide Held, NoRepeat;
    assert HasThread(u, s.threads[t].id) by { assert Unentered(u.threads[t]); }
    forall x | x in Held(s) ensures x in u.inflight || HasThread(u, x) {
      if HasThread(s, x) {
        var k :| k in s.threads && Unentered(s.threads[k]) && s.threads[k].id == x;
        assert u.threads[k] == s.threads[k];
      }
    }
  }

  lemma PushKeepsTransit(s: Sys, u: Sys, t: nat)
    requires HeldInv(s) && TransitInv(s) && Pushes(s, u, t)
    ensures TransitInv(u)
  {
    hide Held, NoRepeat, HasThread;
    assert OnlyMoves(s, u, t);
  }

  /** A thread counts its push; nothing else changes. */
  ghost predicate Counts(s: Sys, u: Sys, t: nat) {
    && t in s.threads && s.threads[t].pc.Pushed?
    && u.threads == s.threads[t := Thread(s.threads[t].id, Counted(s.threads[t].pc.offset))]
    && u.pending == s.pending && u.chan == s.chan && u.inflight == s.inflight
  }

  lemma CountKeepsThreads(s: Sys, u: Sys, t: nat)
    requires Counts(s, u, t)
    ensures forall x :: HasThread(s, x) ==> HasThread(u, x)
    ensures forall k :: k in u.threads ==>
      && k in s.threads && u.threads[k].id == s.threads[k].id && Unentered(u.threads[k]) == Unentered(s.threads[k])
      && u.threads[k].pc.Checked? == s.threads[k].pc.Checked?
  {
    forall x | HasThread(s, x) ensures HasThread(u, x) {
      var k :| k in s.threads && Unentered(s.threads[k]) && s.threads[k].id == x;
      assert k in u.threads && Unentered(u.threads[k]) && u.threads[k].id == x;
    }
  }

  lemma CountKeepsTransit(s: Sys, u: Sys, t: nat)
    requires TransitInv(s) && Counts(s, u, t)
    ensures TransitInv(u)
  {
    CountKeepsThreads(s, u, t);
    assert forall k :: k in u.threads ==> InTransit(u.threads[k]) == InTransit(s.threads[k]);
    assert Held(u) == Held(s);
    hide Held, HasThread, InTransit, Unentered;
  }

  lemma CountKeepsExact(s: Sys, u: Sys, t: nat)
    requires ExactInv(s) && Counts(s, u, t)
    ensures ExactInv(u)
  {
    CountKeepsThreads(s, u, t);
    CountKeepsTransit(s, u, t);
    assert Held(u) == Held(s);
  }

  lemma EnterKeepsExact(s: Sys, t: nat, ok: bool, enabled: bool, size: nat)
    requires ExactInv(s) && t in s.threads && s.threads[t].pc.Counted?
    ensures ExactInv(Advanced(s, t, ok, enabled, size))
  {
    var u := Advanced(s, t, ok, enabled, size);
    assert u.threads == s.threads - {t} && u.inflight == s.inflight + {s.threads[t].id};
    hide Advanced, NoRepeat;
    forall x | HasThread(s, x) && x != s.threads[t].id ensures HasThread(u, x) {
      var k :| k in s.threads && Unentered(s.threads[k]) && s.threads[k].id == x;
      assert k in u.threads && u.threads[k] == s.threads[k];
    }
  }

  /** Regions that leave queue, `inflight` and the threads in transit as they are; a thread may leave
      from the look or from a full channel. */
  ghost predicate SameTransit(s: Sys, u: Sys) {
    && u.pending == s.pending && u.chan == s.chan && u.inflight == s.inflight
    && (forall k :: k in u.threads && InTransit(u.threads[k]) ==> k in s.threads && u.threads[k] == s.threads[k])
    && (forall k :: k in s.threads && Unentered(s.threads[k]) ==> k in u.threads && u.threads[k] == s.threads[k])
  }

  lemma SameTransitKeeps(s: Sys, u: Sys)
    requires ExactInv(s) && SameTransit(s, u)
    ensures ExactInv(u)
  {
    forall x | HasThread(s, x) ensures HasThread(u, x) {
      var k :| k in s.threads && Unentered(s.threads[k]) && s.threads[k].id == x;
      assert k in u.threads && u.threads[k] == s.threads[k];
    }
  }

  lemma OtherRegionsKeepTransit(s: Sys, step: Step)
    requires step.Advance? && step.t in s.threads && !LooksInVain(s, step) && !Unentered(s.threads[step.t])
    requires !(s.threads[step.t].pc.Checked? && |s.chan| < s.capacity)
    ensures SameTransit(s, Next(s, step))
  {
    OneThreadMoves(s, step.t, step.ok, step.enabled, step.size);
  }

  lemma AdvanceKeepsExactIff(s: Sys, step: Step)
    requires ExactInv(s) && step.Advance? && step.t in s.threads
    ensures ExactInv(Next(s, step)) <==> QueueGuard(s, step)
  {
    var th := s.threads[step.t];
    if LooksInVain(s, step) {
      LookKeepsExactIff(s, step);
    } else if th.pc.Checked? && |s.chan| < s.capacity {
      PushKeepsExact(s, step.t, step.ok, step.enabled, step.size);
    } else if th.pc.Pushed? {
      CountKeepsExact(s, Next(s, step), step.t);
    } else if th.pc.Counted? {
      EnterKeepsExact(s, step.t, step.ok, step.enabled, step.size);
    } else {
      OtherRegionsKeepTransit(s, step);
      SameTransitKeeps(s, Next(s, step));
    }
  }

  // ----- the worker -----

  lemma TakeKeepsExact(s: Sys)
    requires ExactInv(s)
    ensures ExactInv(Next(s, Take))
  {
    var u := Next(s, Take);
    if u != s { assert Held(u) == Held(s); }
    SameThreads(s, u);
  }

  lemma NotHeldTwice(s: Sys, id: string)
    requires NoRepeat(Held(s)) && id in s.pending
    ensures id !in s.chan
  {
    var i :| 0 <= i < |s.pending| && s.pending[i] == id;
    assert Held(s)[i] == id;
    assert forall j :: 0 <= j < |s.chan| ==> Held(s)[|s.pending| + j] == s.chan[j];
  }

  lemma ForgottenAreNotHeld(s: Sys, u: Sys)
    requires NoRepeat(Held(s)) && Forgets(s, u)
    ensures NoRepeat(Held(u)) && Held(u) == s.chan && forall id :: id in s.pending ==> id !in s.chan
  {
    assert forall i :: 0 <= i < |s.chan| ==> Held(s)[|s.pending| + i] == s.chan[i];
    forall id | id in s.pending ensures id !in s.chan { NotHeldTwice(s, id); }
  }

  lemma SameThreads(s: Sys, u: Sys)
    requires u.threads == s.threads
    ensures forall x :: HasThread(u, x) == HasThread(s, x)
  {
    forall x ensures HasThread(u, x) == HasThread(s, x) {
      assert forall t :: (t in u.threads && Unentered(u.threads[t])) <==> (t in s.threads && Unentered(s.threads[t]));
    }
  }

  /** The batch goes from the queue and its IDs from `inflight`. */
  ghost predicate Forgets(s: Sys, u: Sys) {
    u == s.(inflight := s.inflight - Members(s.pending), pending := [], phase := Sending)
  }

  lemma ForgetKeepsExactIff(s: Sys, u: Sys)
    requires ExactInv(s) && Forgets(s, u)
    ensures ExactInv(u) <==> BatchEntered(s)
  {
    if BatchEntered(s) {
      ForgetKeepsExact(s, u);
    } else {
      ForgottenIsUnentered(s, u);
    }
  }

  lemma ForgetKeepsExact(s: Sys, u: Sys)
    requires ExactInv(s) && Forgets(s, u) && BatchEntered(s)
    ensures ExactInv(u)
  {
    ForgottenAreNotHeld(s, u);
    hide NoRepeat, HasThread, Held, HeldInv, TransitInv;
    HeldInEither(s);
    ForgetKeepsHeld(s, u);
    ForgetKeepsTransit(s, u);
  }

  lemma HeldInEither(s: Sys)
    ensures forall id :: id in Held(s) <==> id in s.pending || id in s.chan
  {
  }

  lemma ForgetKeepsHeld(s: Sys, u: Sys)
    requires HeldInv(s) && Forgets(s, u) && NoRepeat(Held(u)) && Held(u) == s.chan
    requires forall id :: id in Held(s) <==> id in s.pending || id in s.chan
    requires forall id :: id in s.pending ==> id !in s.chan
    ensures HeldInv(u)
  {
    SameThreads(s, u);
    hide NoRepeat, HasThread, Held;
    forall id ensures id in u.inflight <==> id in s.inflight && id !in s.pending {}
  }

  lemma ForgetKeepsTransit(s: Sys, u: Sys)
    requires TransitInv(s) && Forgets(s, u) && BatchEntered(s) && Held(u) == s.chan
    requires forall id :: id in Held(s) <==> id in s.pending || id in s.chan
    ensures TransitInv(u)
  {
    hide Held, InTransit;
    forall t, k | t in u.threads && k in u.threads && BothInTransit(u, t, k) ensures BothInTransit(s, t, k) {}
  }

  lemma ForgottenIsUnentered(s: Sys, u: Sys)
    requires ExactInv(s) && Forgets(s, u) && !BatchEntered(s)
    ensures !TransitInv(u)
  {
    ForgottenAreNotHeld(s, u);
    hide NoRepeat, HeldInv, HasThread;
    var t :| t in s.threads && Unentered(s.threads[t]) && s.threads[t].id in s.pending;
    assert t in u.threads && Unentered(u.threads[t]) && u.threads[t].id !in Held(u);
  }

  lemma OtherStepsKeepTransit(s: Sys, step: Step)
    requires step.Start? || step.Reenqueue? || step.Send? || step.CountSuccess? || step.MarkForwarded?
    ensures SameTransit(s, Next(s, step))
  {
  }

  lemma CrashIsExact(s: Sys, scanned: bool)
    ensures ExactInv(Next(s, Crash(scanned)))
  {
  }

  /** A step keeps the queue exact exactly when its guard holds. */
  lemma StepKeepsExactIff(s: Sys, step: Step)
    requires ExactInv(s)
    ensures ExactInv(Next(s, step)) <==> QueueGuard(s, step)
  {
    match step
    case Advance(t, ok, enabled, size) => if t in s.threads { AdvanceKeepsExactIff(s, step); }
    case Take => TakeKeepsExact(s);
    case Forget => if s.phase == Marked { ForgetKeepsExactIff(s, Next(s, step)); }
    case Crash(scanned) => CrashIsExact(s, scanned);
    case _ =>
      OtherStepsKeepTransit(s, step);
      SameTransitKeeps(s, Next(s, step));
  }

  predicate QueueGuarded(s: Sys, steps: seq<Step>)
    decreases |steps|
  {
    steps != [] ==> QueueGuard(s, steps[0]) && QueueGuarded(Next(s, steps[0]), steps[1..])
  }

  ghost predicate ExactThroughout(s: Sys, steps: seq<Step>)
    decreases |steps|
  {
    ExactInv(s) && (steps != [] ==> ExactThroughout(Next(s, steps[0]), steps[1..]))
  }

  /** The queue is exact in every state of an interleaving exactly when each of its steps is guarded. */
  lemma {:induction false} RunIsExactIff(s: Sys, steps: seq<Step>)
    requires ExactInv(s)
    ensures ExactThroughout(s, steps) <==> QueueGuarded(s, steps)
    ensures QueueGuarded(s, steps) ==> ExactInv(Run(s, steps))
    decreases |steps|
  {
    if steps != [] {
      StepKeepsExactIff(s, steps[0]);
      if QueueGuard(s, steps[0]) { RunIsExactIff(Next(s, steps[0]), steps[1..]); }
    }
  }

  /** IDs pushed and not yet entered in `inflight`. */
  function Entering(s: Sys): set<string> {
    set t | t in s.threads && Unentered(s.threads[t]) :: s.threads[t].id
  }

  /** Over every guarded interleaving batch and channel hold no ID twice, and `inflight` and the IDs about
      to enter it are, without overlap, exactly the IDs held. */
  lemma NothingIsQueuedTwice(capacity: nat, steps: seq<Step>)
    requires QueueGuarded(Initial(capacity), steps)
    ensures var s := Run(Initial(capacity), steps);
      NoRepeat(s.pending + s.chan) && s.inflight !! Entering(s) &&
        s.inflight + Entering(s) == Members(s.pending + s.chan)
  {
    RunIsExactIff(Initial(capacity), steps);
    var s := Run(Initial(capacity), steps);
    assert forall id :: HasThread(s, id) <==> id in Entering(s);
    assert forall id :: id in Members(s.pending + s.chan) <==> id in Held(s);
  }
}
