/** The lines of the event log (internal/storage/jsonl.go). */
module EventLog {
  import opened Event
  import opened Spool

  /** A line of the event log and the length of its text. */
  datatype StoreLine = StoreLine(event: Event, size: nat)

  function StoreIds(lines: seq<StoreLine>): set<string> {
    set l | l in lines :: l.event.id
  }

  /** The IDs as they read back; `read` is what unmarshalling a stored event yields. */
  function ReadIds(lines: seq<StoreLine>, read: Event -> Event): set<string> {
    set l | l in lines && read(l.event).id != "" :: read(l.event).id
  }

  predicate StoreScannable(lines: seq<StoreLine>) {
    forall i :: 0 <= i < |lines| ==> lines[i].size < SCAN_LIMIT
  }
}
