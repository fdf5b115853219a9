/** Nothing but accepted events is ever queued or sent, and each as it was accepted or as it reads back. */
module Content {
  import opened Event
  import opened Spool
  import opened Batch
  import opened Delivery

  /** The event is a line of the spool, as written or as read. */
  ghost predicate FromSpool(lines: seq<Line>, e: Event, read: Event -> Event) {
    exists i :: 0 <= i < |lines| && (e == lines[i].event || e == read(lines[i].event))
  }

  ghost predicate AllFromSpool(lines: seq<Line>, es: seq<Event>, read: Event -> Event) {
    forall e :: e in es ==> FromSpool(lines, e, read)
  }

  ghost predicate ContentInv(s: Node, read: Event -> Event) {
    && AllFromSpool(s.spool.lines, s.pending, read) && AllFromSpool(s.spool.lines, s.queue.ch, read)
    && AllFromSpool(s.spool.lines, s.wire, read)
  }

  lemma MoreLines(lines: seq<Line>, l: Line, es: seq<Event>, read: Event -> Event)
    requires AllFromSpool(lines, es, read)
    ensures AllFromSpool(lines + [l], es, read)
  {
    forall e | e in es ensures FromSpool(lines + [l], e, read) {
      var i :| 0 <= i < |lines| && (e == lines[i].event || e == read(lines[i].event));
      assert (lines + [l])[i] == lines[i];
    }
  }

  lemma EnqueueKeepsContent(s: Node, e: Event, offset: nat, read: Event -> Event)
    requires ContentInv(s, read) && FromSpool(s.spool.lines, e, read)
    ensures ContentInv(Enqueue(s, e, offset), read) && Enqueue(s, e, offset).spool == s.spool
  {
  }

  lemma {:induction false} EnqueueAllKeepsContent(s: Node, rs: seq<SpoolRecord>, read: Event -> Event)
    requires ContentInv(s, read) && forall r :: r in rs ==> FromSpool(s.spool.lines, r.event, read)
    ensures ContentInv(EnqueueAll(s, rs), read)
    decreases |rs|
  {
    if rs != [] {
      EnqueueKeepsContent(s, rs[0].event, rs[0].offset, read);
      EnqueueAllKeepsContent(Enqueue(s, rs[0].event, rs[0].offset), rs[1..], read);
    }
  }

  lemma RefillKeepsContent(s: Node, read: Event -> Event)
    requires ContentInv(s, read)
    ensures ContentInv(Refilled(s, read), read)
  {
    var rs := PendingRecords(s.spool.lines, s.spool.checkpoint, read);
    PendingAreThePast(s.spool.lines, s.spool.checkpoint, read);
    forall r | r in rs ensures FromSpool(s.spool.lines, r.event, read) {
      var i :| 0 <= i < |s.spool.lines| && r == SpoolRecord(s.spool.lines[i].offset, read(s.spool.lines[i].event));
    }
    EnqueueAllKeepsContent(s, rs, read);
  }

  lemma IngestKeepsContent(s: Node, e: Event, io: Appends, read: Event -> Event)
    requires ContentInv(s, read)
    ensures ContentInv(Ingested(s, e, io), read)
  {
    if Accepts(s, e, io) {
      var lines, l := s.spool.lines, Line(FileSize(s.spool.lines), e, io.spoolSize);
      MoreLines(lines, l, s.pending, read);
      MoreLines(lines, l, s.queue.ch, read);
      MoreLines(lines, l, s.wire, read);
      assert (lines + [l])[|lines|] == l;
      EnqueueKeepsContent(Logged(s, e, io), e, l.offset, read);
    }
  }

  lemma SendKeepsContent(s: Node, count: nat, when: string, read: Event -> Event)
    requires ContentInv(s, read)
    ensures ContentInv(Sent(s, count, when), read)
  {
    PrioritizedKeepsIds(s.pending);
    var batch := Prioritized(s.pending);
    assert AllFromSpool(s.spool.lines, batch, read);
    if count < |batch| { assert forall e :: e in batch[..count] ==> e in batch; }
  }

  lemma StepKeepsContent(s: Node, step: Step, read: Event -> Event)
    requires ContentInv(s, read)
    ensures ContentInv(Next(s, step, read), read)
  {
    match step
    case Ingest(e, io) => IngestKeepsContent(s, e, io, read);
    case Configure(cfg, saved) => RefillKeepsContent(Replaced(s, cfg), read);
    case Refill => RefillKeepsContent(s, read);
    case Send(count, when) => SendKeepsContent(s, count, when, read);
    case Crash => RestartKeepsContent(s, read);
    case _ =>
  }

  lemma RestartKeepsContent(s: Node, read: Event -> Event)
    requires ContentInv(s, read)
    ensures ContentInv(Restarted(s, read), read)
  {
    var blank := Blank(s, read);
    RefillKeepsContent(blank, read);
  }

  lemma {:induction false} RunKeepsContent(s: Node, steps: seq<Step>, read: Event -> Event)
    requires ContentInv(s, read)
    ensures ContentInv(Run(s, steps, read), read)
    decreases |steps|
  {
    if steps != [] {
      StepKeepsContent(s, steps[0], read);
      RunKeepsContent(Next(s, steps[0], read), steps[1..], read);
    }
  }

  /** In every run whatsoever, each event sent is a spooled one, unchanged if reading back keeps the
      spooled events (`ReloadIsIdentityIff` says which ones it keeps). */
  lemma OnlySpooledEventsAreSent(queueSize: nat, cfg: Config, steps: seq<Step>, read: Event -> Event)
    ensures var s := Run(Installed(queueSize, cfg), steps, read);
      && AllFromSpool(s.spool.lines, s.wire, read)
      && ((forall l :: l in s.spool.lines ==> read(l.event) == l.event) ==>
            forall e :: e in s.wire ==> exists l | l in s.spool.lines :: l.event == e)
  {
    RunKeepsContent(Installed(queueSize, cfg), steps, read);
    var s := Run(Installed(queueSize, cfg), steps, read);
    if forall l :: l in s.spool.lines ==> read(l.event) == l.event {
      forall e | e in s.wire ensures exists l | l in s.spool.lines :: l.event == e {
        var i :| 0 <= i < |s.spool.lines| && (e == s.spool.lines[i].event || e == read(s.spool.lines[i].event));
        assert s.spool.lines[i] in s.spool.lines;
      }
    }
  }
}
