/** How long the worker waits after a failed pass (internal/forwarder/retry.go), in nanoseconds and in
    64-bit arithmetic. */
module Retry {

  const MILLISECOND: int := 1_000_000
  const SECOND: int := 1000 * MILLISECOND

  /** The value a 64-bit signed integer keeps. */
  function Wrap(x: int): (r: int)
    ensures -0x8000_0000_0000_0000 <= r < 0x8000_0000_0000_0000
    ensures -0x8000_0000_0000_0000 <= x < 0x8000_0000_0000_0000 ==> r == x
  {
    (x + 0x8000_0000_0000_0000) % 0x1_0000_0000_0000_0000 - 0x8000_0000_0000_0000
  }

  function Backoff(attempt: int): int {
    var a := if attempt < 1 then 1 else attempt;
    var d := Wrap(Wrap(Wrap(a * a) * 200) * MILLISECOND);
    if d > 30 * SECOND then 30 * SECOND else d
  }

  /** The last attempt whose product still fits. */
  const LAST_GOOD: int := 214748

  lemma SquaresGrow(a: int, b: int)
    requires 0 <= a <= b
    ensures a * a <= b * b
  {
    assert a * a <= a * b <= b * b;
  }

  lemma SquareFits(a: int)
    requires 1 <= a <= LAST_GOOD
    ensures 1 <= a * a <= LAST_GOOD * LAST_GOOD
  {
    SquaresGrow(a, LAST_GOOD);
    SquaresGrow(1, a);
  }

  lemma BackoffIsQuadratic(a: int)
    requires 1 <= a <= LAST_GOOD
    ensures Backoff(a) == if a * a * 200 * MILLISECOND > 30 * SECOND then 30 * SECOND else a * a * 200 * MILLISECOND
  {
    SquareFits(a);
  }

  /** Up to that attempt every wait lies between 200 ms and 30 s, and waits never shrink. */
  lemma WaitsGrowWithinBounds(a: int, b: int)
    requires a <= b <= LAST_GOOD
    ensures 200 * MILLISECOND <= Backoff(a) <= Backoff(b) <= 30 * SECOND
  {
    var x, y := if a < 1 then 1 else a, if b < 1 then 1 else b;
    SquareFits(x);
    SquareFits(y);
    SquaresGrow(x, y);
    BackoffIsQuadratic(x);
    BackoffIsQuadratic(y);
  }

  /** Up to the first overflow, a wait is at least 200 ms exactly when the product fits: the next
      attempt gives a negative wait, which is no wait at all. */
  lemma WaitIsSoundIff(a: int)
    requires a <= LAST_GOOD + 1
    ensures Backoff(a) >= 200 * MILLISECOND <==> a <= LAST_GOOD
    ensures a > LAST_GOOD ==> Backoff(a) < 0
  {
    if a <= LAST_GOOD { WaitsGrowWithinBounds(a, a); }
  }

  /** The waits of a worker over a series of passes, true for a pass that succeeded: the attempt count
      restarts with every success. */
  function Waits(passes: seq<bool>, attempt: nat): seq<int> {
    if passes == [] then []
    else if passes[0] then Waits(passes[1..], 0)
    else [Backoff(attempt + 1)] + Waits(passes[1..], attempt + 1)
  }

  /** No streak of failures gets past the limit. */
  predicate StreaksFit(passes: seq<bool>, attempt: nat) {
    if passes == [] then true
    else if passes[0] then StreaksFit(passes[1..], 0)
    else attempt < LAST_GOOD && StreaksFit(passes[1..], attempt + 1)
  }

  predicate InBounds(w: int) {
    200 * MILLISECOND <= w <= 30 * SECOND
  }

  predicate AllInBounds(ws: seq<int>) {
    forall i :: 0 <= i < |ws| ==> InBounds(ws[i])
  }

  /** However long the worker runs, all its waits are within bounds exactly when no streak of failures
      gets past the limit. */
  lemma {:induction false} WaitsAreBoundedIff(passes: seq<bool>, attempt: nat)
    requires attempt <= LAST_GOOD
    ensures AllInBounds(Waits(passes, attempt)) <==> StreaksFit(passes, attempt)
    decreases |passes|
  {
    if passes == [] {
    } else if passes[0] {
      WaitsAreBoundedIff(passes[1..], 0);
      assert Waits(passes, attempt) == Waits(passes[1..], 0);
    } else {
      WaitIsInBounds(attempt + 1);
      var all, rest := Waits(passes, attempt), Waits(passes[1..], attempt + 1);
      assert all == [Backoff(attempt + 1)] + rest;
      assert forall i :: 0 <= i < |rest| ==> all[i + 1] == rest[i];
      if attempt < LAST_GOOD { WaitsAreBoundedIff(passes[1..], attempt + 1); }
    }
  }

  lemma WaitIsInBounds(a: int)
    requires a <= LAST_GOOD + 1
    ensures InBounds(Backoff(a)) <==> a <= LAST_GOOD
  {
    WaitIsSoundIff(a);
    if a <= LAST_GOOD { WaitsGrowWithinBounds(a, a); }
  }
}
