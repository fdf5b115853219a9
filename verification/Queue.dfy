/** The forwarding queue: a bounded channel and its counters (internal/buffer/queue.go). */
module Queue {
  import opened Event

  datatype QueueStats = QueueStats(queued: nat, forwarded: nat, failed: nat, lastSuccess: string,
                                   lastFailure: string, paused: bool)

  datatype Channel = Channel(capacity: nat, ch: seq<Event>, stats: QueueStats)
  {
    predicate Full() {
      |ch| >= capacity
    }
  }

  const FLOOR: nat := 100

  function NewChannel(size: nat): Channel {
    Channel(if size < FLOOR then FLOOR else size, [], QueueStats(0, 0, 0, "", "", false))
  }

  /** `Push` as one step, on success. */
  function Pushed(q: Channel, e: Event): Channel {
    q.(ch := q.ch + [e], stats := q.stats.(queued := q.stats.queued + 1))
  }

  /** How many events one `PopBatch` takes. */
  function BatchSize(q: Channel, max: int): (n: nat)
    ensures n <= |q.ch| && (n == 0 <==> q.ch == []) && (max >= 1 ==> n <= max)
  {
    var m := if max <= 0 then 1 else max;
    if m <= |q.ch| then m else |q.ch|
  }

  /** The counter stops at zero. */
  function AfterSuccess(q: Channel, n: nat, when: string): Channel {
    q.(stats := q.stats.(queued := if n <= q.stats.queued then q.stats.queued - n else 0,
                         forwarded := q.stats.forwarded + n, lastSuccess := when))
  }

  function AfterFailure(q: Channel, n: nat, when: string): Channel {
    q.(stats := q.stats.(failed := q.stats.failed + n, lastFailure := when))
  }

  class Queue {
    const capacity: nat
    var ch: seq<Event>
    var stats: QueueStats

    constructor (size: nat)
      ensures Value() == NewChannel(size)
    {
      capacity := if size < FLOOR then FLOOR else size;
      ch, stats := [], QueueStats(0, 0, 0, "", "", false);
    }

    function Value(): Channel
      reads this
    {
      Channel(capacity, ch, stats)
    }

    method Push(e: Event) returns (ok: bool)
      modifies this
      ensures ok == !old(Value()).Full()
      ensures Value() == if ok then Pushed(old(Value()), e) else old(Value())
    {
      if |ch| >= capacity {
        return false;
      }
      ch := ch + [e];
      stats := stats.(queued := stats.queued + 1);
      return true;
    }

    /** An empty result stands for the wait running out. */
    method PopBatch(max: int) returns (out: seq<Event>)
      modifies this`ch
      ensures var n := BatchSize(old(Value()), max);
        out == old(ch)[..n] && ch == old(ch)[n..]
    {
      var limit := if max <= 0 then 1 else max;
      if ch == [] {
        return [];
      }
      out, ch := [ch[0]], ch[1..];
      while |out| < limit && ch != []
        invariant out + ch == old(ch)
        invariant 1 <= |out| <= limit
      {
        out, ch := out + [ch[0]], ch[1..];
      }
    }

    method MarkSuccess(n: nat, when: string)
      modifies this`stats
      ensures Value() == AfterSuccess(old(Value()), n, when)
    {
      var queued: int := stats.queued - n;
      if queued < 0 {
        queued := 0;
      }
      stats := stats.(queued := queued, forwarded := stats.forwarded + n, lastSuccess := when);
    }

    method MarkFailure(n: nat, when: string)
      modifies this`stats
      ensures Value() == AfterFailure(old(Value()), n, when)
    {
      stats := stats.(failed := stats.failed + n, lastFailure := when);
    }

    method SetPaused(v: bool)
      modifies this`stats
      ensures stats == old(stats).(paused := v)
    {
      stats := stats.(paused := v);
    }
  }
}
