/** The live event stream: one buffered channel for each subscriber (internal/api/stream.go). */
module Stream {
  import opened Event
  import opened Wrappers

  const BUFFER: nat := 128

  /** The hub and its channels as values. A closed channel can still be drained by its reader. */
  datatype Hub = Hub(nextID: nat, open: set<nat>, buffers: map<nat, seq<Event>>)

  const EMPTY := Hub(0, {}, map[])

  function Subscribed(h: Hub): Hub {
    Hub(h.nextID + 1, h.open + {h.nextID}, h.buffers[h.nextID := []])
  }

  function Unsubscribed(h: Hub, id: nat): Hub {
    h.(open := h.open - {id})
  }

  function OfferTo(buffer: seq<Event>, e: Event): seq<Event> {
    if |buffer| < BUFFER then buffer + [e] else buffer
  }

  function Published(h: Hub, e: Event): Hub {
    h.(buffers := map id | id in h.buffers :: if id in h.open then OfferTo(h.buffers[id], e) else h.buffers[id])
  }

  function Received(h: Hub, id: nat): Hub {
    if id in h.buffers && h.buffers[id] != [] then h.(buffers := h.buffers[id := h.buffers[id][1..]]) else h
  }

  // ----- the object -----

  class Chan {
    var buffer: seq<Event>
    var closed: bool

    constructor ()
      ensures buffer == [] && !closed
    {
      buffer, closed := [], false;
    }

    /** A send that does not wait. On a closed channel it would panic. */
    method Offer(e: Event)
      requires !closed
      modifies this`buffer
      ensures buffer == OfferTo(old(buffer), e)
    {
      if |buffer| < BUFFER {
        buffer := buffer + [e];
      }
    }

    /** A receive that does not wait; what is left in a closed channel can still be received. */
    method Receive() returns (r: Option<Event>)
      modifies this`buffer
      ensures r == if old(buffer) == [] then None else Some(old(buffer)[0])
      ensures buffer == if old(buffer) == [] then [] else old(buffer)[1..]
    {
      if buffer == [] {
        return None;
      }
      r := Some(buffer[0]);
      buffer := buffer[1..];
    }
  }

  class StreamHub {
    var nextID: nat
    var clients: map<nat, Chan>
    ghost var issued: map<nat, Chan>     // every channel ever handed out

    constructor ()
      ensures Valid() && View() == EMPTY
    {
      nextID, clients, issued := 0, map[], map[];
      new;
      assert View().open == {} && View().buffers == map[];
    }

    /** Each ID below `nextID` was issued once with a channel of its own, which is open exactly while it
        is a client's. */
    ghost predicate Valid()
      reads this, issued.Values
    {
      && (forall id: nat :: id in issued <==> id < nextID)
      && (forall i, j :: i in issued && j in issued && i != j ==> issued[i] != issued[j])
      && (forall id :: id in clients ==> id in issued && clients[id] == issued[id])
      && (forall id :: id in issued ==> (issued[id].closed <==> id !in clients))
    }

    ghost function Buffers(): map<nat, seq<Event>>
      reads this`issued, issued.Values
    {
      map id | id in issued :: issued[id].buffer
    }

    ghost function View(): Hub
      reads this, issued.Values
    {
      Hub(nextID, clients.Keys, Buffers())
    }

    twostate lemma OneIssued(id: nat, new ch: Chan)
      requires issued == old(issued)[id := ch] && fresh(ch) && ch.buffer == []
      requires forall i :: i in old(issued) ==> unchanged(old(issued[i])) && i != id
      ensures Buffers() == old(Buffers())[id := []]
    {
    }

    method Subscribe() returns (id: nat, ch: Chan)
      requires Valid()
      modifies this
      ensures Valid() && fresh(ch) && id == old(nextID)
      ensures clients == old(clients)[id := ch] && issued == old(issued)[id := ch]
      ensures View() == Subscribed(old(View()))
    {
      id := nextID;
      nextID := nextID + 1;
      ch := new Chan();
      clients, issued := clients[id := ch], issued[id := ch];
      OneIssued(id, ch);
    }

    method Unsubscribe(id: nat)
      requires Valid()
      modifies this`clients, clients.Values
      ensures Valid() && clients == old(clients) - {id}
      ensures View() == Unsubscribed(old(View()), id)
    {
      if id in clients {
        clients[id].closed := true;
        clients := clients - {id};
      }
    }

    method Publish(e: Event)
      requires Valid()
      modifies clients.Values`buffer
      ensures Valid() && View() == Published(old(View()), e)
    {
      hide OfferTo;
      OfferAll(e);
    }

    /** One offer to each client, in Go's arbitrary map order; none goes to a closed channel. */
    method OfferAll(e: Event)
      requires Valid()
      modifies clients.Values`buffer
      ensures forall id :: id in issued ==>
        issued[id].buffer == if id in clients then OfferTo(old(issued[id].buffer), e) else old(issued[id].buffer)
    {
      var todo := clients.Keys;
      while todo != {}
        invariant todo <= clients.Keys
        invariant forall id :: id in issued ==>
          issued[id].buffer ==
            if id in clients && id !in todo then OfferTo(old(issued[id].buffer), e) else old(issued[id].buffer)
      {
        var id :| id in todo;
        todo := todo - {id};
        clients[id].Offer(e);
      }
    }

    /** A client, or one that was, takes what waits for it. */
    method Receive(ghost id: nat, ch: Chan) returns (r: Option<Event>)
      requires Valid() && id in issued && ch == issued[id]
      modifies ch`buffer
      ensures Valid() && View() == Received(old(View()), id)
      ensures r == if old(ch.buffer) == [] then None else Some(old(ch.buffer)[0])
    {
      r := ch.Receive();
    }
  }

  // ----- runs -----

  datatype Step = Subscribe | Unsubscribe(id: nat) | Publish(e: Event) | Receive(id: nat)

  function Next(h: Hub, step: Step): Hub {
    match step
    case Subscribe => Subscribed(h)
    case Unsubscribe(id) => Unsubscribed(h, id)
    case Publish(e) => Published(h, e)
    case Receive(id) => Received(h, id)
  }

  function After(steps: seq<Step>): Hub {
    if steps == [] then EMPTY else Next(After(steps[..|steps| - 1]), steps[|steps| - 1])
  }

  /** What one client sees, computed from its own steps and the publishes alone: whether it has
      subscribed yet, whether it still is, what waits for it, what it has received, and what was
      published while it was subscribed. */
  datatype Lane = Lane(issued: nat, subscribed: bool, open: bool, buffer: seq<Event>, received: seq<Event>,
      offered: seq<Event>)

  function LaneNext(l: Lane, id: nat, step: Step): Lane {
    match step
    case Subscribe =>
      l.(issued := l.issued + 1, subscribed := l.subscribed || l.issued == id, open := l.open || l.issued == id)
    case Unsubscribe(j) => if j == id then l.(open := false) else l
    case Publish(e) => if l.open then l.(buffer := OfferTo(l.buffer, e), offered := l.offered + [e]) else l
    case Receive(j) =>
      if j == id && l.buffer != [] then l.(buffer := l.buffer[1..], received := l.received + [l.buffer[0]]) else l
  }

  function LaneOf(steps: seq<Step>, id: nat): Lane {
    if steps == [] then Lane(0, false, false, [], [], [])
      else LaneNext(LaneOf(steps[..|steps| - 1], id), id, steps[|steps| - 1])
  }

  /** The hub, seen by one client, is its lane. */
  ghost predicate Shows(h: Hub, id: nat, l: Lane) {
    && h.nextID == l.issued && (l.subscribed <==> id < h.nextID) && (id in h.buffers <==> l.subscribed)
    && (id in h.open <==> l.open) && (l.open ==> l.subscribed)
    && l.buffer == (if id in h.buffers then h.buffers[id] else [])
  }

  /** No client's events depend on what another client does: in every run each client sees what it
      would see alone. IDs are never issued twice. */
  lemma {:induction false} ClientsAreIndependent(steps: seq<Step>, id: nat)
    ensures Shows(After(steps), id, LaneOf(steps, id))
    ensures !LaneOf(steps, id).subscribed ==> LaneOf(steps, id).buffer == []
  {
    if steps != [] {
      var front, step := steps[..|steps| - 1], steps[|steps| - 1];
      ClientsAreIndependent(front, id);
      assert After(steps) == Next(After(front), step);
    }
  }

  /** `a` is `b` with some elements left out. */
  predicate Subsequence(a: seq<Event>, b: seq<Event>) {
    a == [] || (b != [] &&
      (Subsequence(a, b[..|b| - 1])
       || (a[|a| - 1] == b[|b| - 1] && Subsequence(a[..|a| - 1], b[..|b| - 1]))))
  }

  lemma SubsequenceGrows(a: seq<Event>, b: seq<Event>, e: Event)
    requires Subsequence(a, b)
    ensures Subsequence(a, b + [e]) && Subsequence(a + [e], b + [e])
  {
    assert (b + [e])[..|b|] == b && (a + [e])[..|a|] == a;
  }

  /** Whether a publish found the client's buffer full at some point of a run. */
  predicate WasFull(steps: seq<Step>, id: nat) {
    steps != [] &&
    var front, step := steps[..|steps| - 1], steps[|steps| - 1];
    WasFull(front, id) || (step.Publish? && LaneOf(front, id).open && |LaneOf(front, id).buffer| >= BUFFER)
  }

  /** One step of a lane: a publish adds to what was offered, and to what is delivered unless the
      buffer is full; nothing else changes either. */
  lemma LaneStep(l: Lane, id: nat, step: Step)
    requires |l.buffer| <= BUFFER
    ensures var m := LaneNext(l, id, step);
      && |m.buffer| <= BUFFER
      && (if step.Publish? && l.open then
            m.offered == l.offered + [step.e]
            && m.received + m.buffer == if |l.buffer| < BUFFER then l.received + l.buffer + [step.e]
              else l.received + l.buffer
          else m.offered == l.offered && m.received + m.buffer == l.received + l.buffer)
  {
    match step
    case Publish(e) => assert l.received + (l.buffer + [e]) == l.received + l.buffer + [e];
    case Receive(j) =>
      if l.buffer != [] { assert l.received + [l.buffer[0]] + l.buffer[1..] == l.received + l.buffer; }
    case _ =>
  }

  /** Every client receives, in order, events published while it was subscribed; at most 128 wait for
      it; and it misses none exactly when no publish ever found its buffer full. */
  lemma {:induction false} ClientsReceiveInOrder(steps: seq<Step>, id: nat)
    ensures |LaneOf(steps, id).buffer| <= BUFFER
    ensures Subsequence(LaneOf(steps, id).received + LaneOf(steps, id).buffer, LaneOf(steps, id).offered)
    ensures MissesNone(LaneOf(steps, id)) <==> !WasFull(steps, id)
    ensures !MissesNone(LaneOf(steps, id)) ==>
      |LaneOf(steps, id).received + LaneOf(steps, id).buffer| < |LaneOf(steps, id).offered|
  {
    if steps != [] {
      var front, step := steps[..|steps| - 1], steps[|steps| - 1];
      var l := LaneOf(front, id);
      ClientsReceiveInOrder(front, id);
      LaneStep(l, id, step);
      if step.Publish? { SubsequenceGrows(l.received + l.buffer, l.offered, step.e); }
    }
  }

  predicate MissesNone(l: Lane) {
    l.received + l.buffer == l.offered
  }
}
