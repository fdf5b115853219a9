/** Turns of the worker's loop (`runForwardWorker` in cmd/dmz-collector/main.go) as runs of steps. */
module Turns {
  import opened Event
  import opened Spool
  import opened Batch
  import opened Delivery
  import opened Books
  import opened Retry

  /** The steps one turn of the worker's loop takes: `count` is how many sends succeed before one fails. */
  function Turn(s: Node, max: int, count: nat, write: CheckpointWrite, when: string): seq<Step> {
    var batch := Popped(s, max).pending;
    if batch == [] || !s.cfg.Enabled() then [Pop(max)]
    else if count < |batch| then [Pop(max), Send(count, when)]
    else [Pop(max), Send(count, when), CountSuccess(when), Checkpoint(write), Forget, Refill]
  }

  lemma RunLast(s: Node, step: Step, read: Event -> Event)
    ensures Run(s, [step], read) == Next(s, step, read)
  {
    assert [step] + [] == [step];
    RunOne(s, step, [], read);
  }

  lemma CheckpointedTurn(s: Node, write: CheckpointWrite, read: Event -> Event)
    ensures Run(s, [Checkpoint(write)] + ([Forget] + [Refill]), read) == Refilled(Forgotten(Marked(s, write)), read)
  {
    var t := Marked(s, write);
    RunOne(s, Checkpoint(write), [Forget] + [Refill], read);
    RunOne(t, Forget, [Refill], read);
    RunLast(Forgotten(t), Refill, read);
  }

  lemma PassSteps(s: Node, t: Node, count: nat, when: string, read: Event -> Event)
    ensures Next(s, Send(count, when), read) == Sent(s, count, when)
    ensures Next(t, CountSuccess(when), read) == SuccessCounted(t, when)
  {
  }

  /** What the steps that follow a pass without failure amount to. */
  lemma DeliveredTurn(s: Node, count: nat, write: CheckpointWrite, when: string, read: Event -> Event)
    ensures Run(s, [Send(count, when), CountSuccess(when), Checkpoint(write), Forget, Refill], read) ==
      Refilled(Forgotten(Marked(SuccessCounted(Sent(s, count, when), when), write)), read)
  {
    hide *;
    var rest := [Checkpoint(write)] + ([Forget] + [Refill]);
    assert [Send(count, when), CountSuccess(when), Checkpoint(write), Forget, Refill] ==
      [Send(count, when)] + ([CountSuccess(when)] + rest);
    var t := Sent(s, count, when);
    RunOne(s, Send(count, when), [CountSuccess(when)] + rest, read);
    RunOne(t, CountSuccess(when), rest, read);
    PassSteps(s, t, count, when, read);
    CheckpointedTurn(SuccessCounted(t, when), write, read);
  }

  /** What the steps of a turn amount to. */
  lemma TurnIs(s: Node, max: int, count: nat, write: CheckpointWrite, when: string, read: Event -> Event)
    ensures var p := Popped(s, max);
      Run(s, Turn(s, max, count, write, when), read) ==
        if p.pending == [] || !s.cfg.Enabled() then p
        else if count < |p.pending| then Sent(p, count, when)
        else Refilled(Forgotten(Marked(SuccessCounted(Sent(p, count, when), when), write)), read)
  {
    hide Popped, Sent, SuccessCounted, Marked, Forgotten, Refilled, Run;
    var p := Popped(s, max);
    if p.pending == [] || !s.cfg.Enabled() {
      RunLast(s, Pop(max), read);
    } else if count < |p.pending| {
      assert [Pop(max)] + [Send(count, when)] == [Pop(max), Send(count, when)];
      RunOne(s, Pop(max), [Send(count, when)], read);
      RunLast(p, Send(count, when), read);
    } else {
      var rest := [Send(count, when), CountSuccess(when), Checkpoint(write), Forget, Refill];
      assert [Pop(max)] + rest == [Pop(max), Send(count, when), CountSuccess(when), Checkpoint(write), Forget, Refill];
      RunOne(s, Pop(max), rest, read);
      DeliveredTurn(p, count, write, when, read);
    }
  }

  // ----- series of turns -----

  /** What one turn meets: the batch size, how many sends succeed, and the checkpoint write. */
  datatype Pass = Pass(max: int, count: nat, write: CheckpointWrite, when: string)

  function AfterTurn(s: Node, p: Pass, read: Event -> Event): Node {
    Run(s, Turn(s, p.max, p.count, p.write, p.when), read)
  }

  function AfterTurns(s: Node, ps: seq<Pass>, read: Event -> Event): Node
    decreases |ps|
  {
    if ps == [] then s else AfterTurns(AfterTurn(s, ps[0], read), ps[1..], read)
  }

  /** The turn comes to a pass over a batch. */
  predicate Passes(s: Node, p: Pass) {
    s.cfg.Enabled() && Popped(s, p.max).pending != []
  }

  predicate Fails(s: Node, p: Pass) {
    Passes(s, p) && p.count < |Popped(s, p.max).pending|
  }

  // ----- how long the worker sleeps -----

  /** Which of the passes succeed; turns without a pass do not count. */
  function Outcomes(s: Node, ps: seq<Pass>, read: Event -> Event): seq<bool>
    decreases |ps|
  {
    if ps == [] then []
    else (if Passes(s, ps[0]) then [!Fails(s, ps[0])] else []) + Outcomes(AfterTurn(s, ps[0], read), ps[1..], read)
  }

  /** The sleeps after failed passes. */
  function Sleeps(s: Node, ps: seq<Pass>, read: Event -> Event): seq<int>
    decreases |ps|
  {
    if ps == [] then []
    else (if Fails(s, ps[0]) then [Backoff(s.attempt + 1)] else []) + Sleeps(AfterTurn(s, ps[0], read), ps[1..], read)
  }

  lemma AttemptAfterTurn(s: Node, p: Pass, read: Event -> Event)
    requires s.phase == Sending
    ensures var t := AfterTurn(s, p, read);
      && t.phase == Sending
      && t.attempt == if Fails(s, p) then s.attempt + 1 else if Passes(s, p) then 0 else s.attempt
  {
    TurnIs(s, p.max, p.count, p.write, p.when, read);
    var batch := Popped(s, p.max);
    PrioritizedKeepsIds(batch.pending);
    if Passes(s, p) && !Fails(s, p) {
      RefillKeepsWorker(Forgotten(Marked(SuccessCounted(Sent(batch, p.count, p.when), p.when), p.write)), read);
    }
  }

  lemma RefillKeepsWorker(s: Node, read: Event -> Event)
    ensures Refilled(s, read).attempt == s.attempt && Refilled(s, read).phase == s.phase
  {
    EnqueueAllKeepsDisk(s, PendingRecords(s.spool.lines, s.spool.checkpoint, read));
  }

  /** Over any series of turns the worker sleeps as `Waits` says of the outcomes of its passes. */
  lemma {:induction false} SleepsAreWaits(s: Node, ps: seq<Pass>, read: Event -> Event)
    requires s.phase == Sending
    ensures Sleeps(s, ps, read) == Waits(Outcomes(s, ps, read), s.attempt)
    decreases |ps|
  {
    hide Passes, AfterTurn, Backoff;
    if ps != [] {
      var t, rest := AfterTurn(s, ps[0], read), ps[1..];
      AttemptAfterTurn(s, ps[0], read);
      SleepsAreWaits(t, rest, read);
      if Passes(s, ps[0]) {
        assert ([!Fails(s, ps[0])] + Outcomes(t, rest, read))[1..] == Outcomes(t, rest, read);
      } else {
        assert [] + Outcomes(t, rest, read) == Outcomes(t, rest, read);
      }
    }
  }

  /** So all its sleeps are in bounds exactly when no streak of failed passes gets past the limit; and a
      failure right after a success sleeps 200 ms. */
  lemma SleepsAreBoundedIff(s: Node, ps: seq<Pass>, read: Event -> Event)
    requires s.phase == Sending && s.attempt <= LAST_GOOD
    ensures AllInBounds(Sleeps(s, ps, read)) <==> StreaksFit(Outcomes(s, ps, read), s.attempt)
    ensures s.attempt == 0 && Outcomes(s, ps, read) != [] && !Outcomes(s, ps, read)[0] ==>
      Sleeps(s, ps, read) != [] && Sleeps(s, ps, read)[0] == 200 * MILLISECOND
  {
    SleepsAreWaits(s, ps, read);
    WaitsAreBoundedIff(Outcomes(s, ps, read), s.attempt);
    BackoffIsQuadratic(1);
  }
}
