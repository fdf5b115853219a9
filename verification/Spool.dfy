/** The spool: an append-only file of records that carry their own byte offset, and a checkpoint file
    with the last forwarded offset (internal/buffer/spool.go). */
module Spool {
  import opened Event
  import opened Wrappers

  /** A line of the file: the record that was marshalled and the length of its text, newline excluded. */
  datatype Line = Line(offset: nat, event: Event, size: nat)

  datatype SpoolRecord = SpoolRecord(offset: nat, event: Event)

  /** The longest line `bufio.Scanner` reads is one byte short of its 64 KiB buffer. */
  const SCAN_LIMIT: nat := 65536

  /** The two files. A missing, empty or unreadable checkpoint counts as 0. */
  datatype Files = Files(lines: seq<Line>, checkpoint: nat)

  /** What a write to the checkpoint file can do: `os.WriteFile` truncates before it writes. */
  datatype CheckpointWrite = Written | Untouched | Emptied

  function AfterWrite(checkpoint: nat, offset: nat, write: CheckpointWrite): nat {
    match write
    case Written => offset
    case Untouched => checkpoint
    case Emptied => 0
  }

  function FileSize(lines: seq<Line>): nat {
    if lines == [] then 0 else FileSize(lines[..|lines| - 1]) + lines[|lines| - 1].size + 1
  }

  predicate Scannable(lines: seq<Line>) {
    forall i :: 0 <= i < |lines| ==> lines[i].size < SCAN_LIMIT
  }

  function Appended(lines: seq<Line>, e: Event, size: nat): seq<Line> {
    lines + [Line(FileSize(lines), e, size)]
  }

  /** The records past the checkpoint, in file order; `read` is what unmarshalling an event yields. */
  function PendingRecords(lines: seq<Line>, checkpoint: nat, read: Event -> Event): seq<SpoolRecord> {
    if lines == [] then [] else
    var last := lines[|lines| - 1];
    PendingRecords(lines[..|lines| - 1], checkpoint, read)
    + if last.offset <= checkpoint then [] else [SpoolRecord(last.offset, read(last.event))]
  }

  /** What loading the pending records comes to: one line too long fails the whole scan. */
  function Pending(files: Files, read: Event -> Event): Result<seq<SpoolRecord>> {
    if Scannable(files.lines) then Ok(PendingRecords(files.lines, files.checkpoint, read)) else Err("token too long")
  }

  /** Every record's offset is the size the file had when it was appended. */
  ghost predicate WellFormed(lines: seq<Line>) {
    forall i :: 0 <= i < |lines| ==> lines[i].offset == FileSize(lines[..i])
  }

  ghost predicate Increasing(lines: seq<Line>) {
    forall i, j :: 0 <= i < j < |lines| ==> lines[i].offset < lines[j].offset
  }

  lemma AppendKeepsForm(lines: seq<Line>, e: Event, size: nat)
    requires WellFormed(lines)
    ensures WellFormed(Appended(lines, e, size))
  {
    var after := Appended(lines, e, size);
    forall i | 0 <= i < |after| ensures after[i].offset == FileSize(after[..i]) {
      assert after[..i] == lines[..i];
      assert lines[..|lines|] == lines;
    }
  }

  lemma {:induction false} SizeGrows(lines: seq<Line>, i: nat)
    requires i < |lines|
    ensures FileSize(lines[..i]) < FileSize(lines)
  {
    var front := lines[..|lines| - 1];
    if i < |front| {
      SizeGrows(front, i);
      assert front[..i] == lines[..i];
    } else {
      assert front == lines[..i];
    }
  }

  /** Offsets strictly increase along the file, and a new record lies beyond them all. */
  lemma OffsetsIncrease(lines: seq<Line>)
    requires WellFormed(lines)
    ensures Increasing(lines)
    ensures forall i :: 0 <= i < |lines| ==> lines[i].offset < FileSize(lines)
    ensures forall i :: 0 <= i < |lines| ==> (lines[i].offset == 0 <==> i == 0)
  {
    forall i, j | 0 <= i < j < |lines| ensures lines[i].offset < lines[j].offset {
      SizeGrows(lines[..j], i);
      assert lines[..j][..i] == lines[..i];
    }
    forall i | 0 <= i < |lines| ensures lines[i].offset < FileSize(lines) {
      SizeGrows(lines, i);
    }
    if lines != [] { assert lines[..0] == []; }
  }

  /** A line is recovered exactly when its offset lies past the checkpoint. */
  lemma {:induction false} PendingAreThePast(lines: seq<Line>, checkpoint: nat, read: Event -> Event)
    ensures forall r :: r in PendingRecords(lines, checkpoint, read) <==>
      exists i | 0 <= i < |lines| :: lines[i].offset > checkpoint &&
        r == SpoolRecord(lines[i].offset, read(lines[i].event))
  {
    if lines != [] {
      var front, last := lines[..|lines| - 1], lines[|lines| - 1];
      PendingAreThePast(front, checkpoint, read);
      assert forall i :: 0 <= i < |front| ==> lines[i] == front[i];
      forall r
        ensures r in PendingRecords(lines, checkpoint, read) <==>
          exists i | 0 <= i < |lines| :: lines[i].offset > checkpoint &&
            r == SpoolRecord(lines[i].offset, read(lines[i].event))
      {
        if r in PendingRecords(front, checkpoint, read) {
          var i :| 0 <= i < |front| && front[i].offset > checkpoint &&
            r == SpoolRecord(front[i].offset, read(front[i].event));
          assert lines[i] == front[i];
        }
      }
    }
  }

  ghost predicate InFileOrder(rs: seq<SpoolRecord>) {
    forall i, j :: 0 <= i < j < |rs| ==> rs[i].offset < rs[j].offset
  }

  lemma {:induction false} PendingBelow(lines: seq<Line>, checkpoint: nat, read: Event -> Event, bound: nat)
    requires forall i :: 0 <= i < |lines| ==> lines[i].offset < bound
    ensures forall r :: r in PendingRecords(lines, checkpoint, read) ==> r.offset < bound
  {
    if lines != [] {
      PendingBelow(lines[..|lines| - 1], checkpoint, read, bound);
    }
  }

  /** Recovered records keep the order of the file. */
  lemma {:induction false} PendingIncrease(lines: seq<Line>, checkpoint: nat, read: Event -> Event)
    requires Increasing(lines)
    ensures InFileOrder(PendingRecords(lines, checkpoint, read))
  {
    if lines != [] {
      var front := lines[..|lines| - 1];
      PendingIncrease(front, checkpoint, read);
      PendingBelow(front, checkpoint, read, lines[|front|].offset);
      var rs, older := PendingRecords(lines, checkpoint, read), PendingRecords(front, checkpoint, read);
      forall i, j | 0 <= i < j < |rs| ensures rs[i].offset < rs[j].offset {
        assert rs[i] == older[i] && older[i] in older;
        if j < |older| {
          assert rs[j] == older[j];
        } else {
          assert rs[j].offset == lines[|front|].offset;
        }
      }
    }
  }

  class Spool {
    var lines: seq<Line>
    var checkpoint: nat

    constructor ()
      ensures lines == [] && checkpoint == 0
    {
      lines, checkpoint := [], 0;
    }

    function Value(): Files
      reads this
    {
      Files(lines, checkpoint)
    }

    /** `ok` says whether the file could be opened and the line written; `size` is the line's length. */
    method Append(e: Event, size: nat, ok: bool) returns (r: Result<nat>)
      modifies this`lines
      ensures r == if ok then Ok(FileSize(old(lines))) else Err("spool append")
      ensures lines == if ok then Appended(old(lines), e, size) else old(lines)
    {
      if !ok {
        return Err("spool append");
      }
      var record := Line(FileSize(lines), e, size);
      lines := lines + [record];
      return Ok(record.offset);
    }

    method LoadPending(read: Event -> Event) returns (r: Result<seq<SpoolRecord>>)
      ensures r == Pending(Value(), read)
    {
      var out := [];
      for i := 0 to |lines|
        invariant Scannable(lines[..i])
        invariant out == PendingRecords(lines[..i], checkpoint, read)
      {
        assert lines[..i + 1][..i] == lines[..i];
        if lines[i].size >= SCAN_LIMIT {
          return Err("token too long");
        }
        if lines[i].offset <= checkpoint {
          continue;
        }
        out := out + [SpoolRecord(lines[i].offset, read(lines[i].event))];
      }
      assert lines[..|lines|] == lines;
      return Ok(out);
    }

    method MarkForwarded(offset: nat, write: CheckpointWrite)
      modifies this`checkpoint
      ensures checkpoint == AfterWrite(old(checkpoint), offset, write)
    {
      match write
      case Written => checkpoint := offset;
      case Untouched =>
      case Emptied => checkpoint := 0;
    }
  }
}
