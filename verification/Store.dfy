/** The append-only event log (internal/storage/jsonl.go). */
module Store {
  import opened Json
  import opened Text
  import opened SourceUtil
  import opened Event
  import opened Wrappers
  import opened Spool
  import opened EventLog
  import opened Sequences

  datatype Query = Query(limit: int, sourceType: string, severity: string, category: string, asset: string,
      search: string)

  function SearchText(e: Event): string {
    Join([e.message, e.raw, e.assetName, e.assetIP, e.eventCategory, e.sourceType, e.severity, e.id], " ")
  }

  /** `matches`. */
  predicate Matches(e: Event, q: Query, lib: Lib) {
    && (q.sourceType == "" || EqualFold(NormalizeSourceType(e.sourceType), NormalizeSourceType(q.sourceType)))
    && (q.severity == "" || EqualFold(e.severity, q.severity))
    && (q.category == "" || EqualFold(e.eventCategory, q.category))
    && (q.asset == "" || EqualFold(e.assetIP, q.asset) || EqualFold(e.assetName, q.asset))
    && (q.search == "" || Contains(ToLower(SearchText(e)), ToLower(q.search))
        || exists k | k in e.tags :: Contains(ToLower(k), ToLower(q.search))
                                     || Contains(ToLower(lib.marshal(e.tags[k])), ToLower(q.search)))
  }

  function Filter(q: Query, lib: Lib): Event -> bool {
    e => Matches(e, q, lib)
  }

  /** The events of the file, as they read back. */
  function Loaded(lines: seq<StoreLine>, read: Event -> Event): seq<Event> {
    if lines == [] then [] else Loaded(lines[..|lines| - 1], read) + [read(lines[|lines| - 1].event)]
  }

  function Selected(es: seq<Event>, keep: Event -> bool): seq<Event> {
    if es == [] then [] else
    Selected(es[..|es| - 1], keep) + if keep(es[|es| - 1]) then [es[|es| - 1]] else []
  }

  function LimitOf(q: Query): nat {
    if q.limit <= 0 then 100 else q.limit
  }

  function IdSet(es: seq<Event>): set<string> {
    set e | e in es && e.id != "" :: e.id
  }

  /** Where `ReadByID` stops: at the first line with the ID, or at a line too long to scan. */
  function FirstMatch(lines: seq<StoreLine>, id: string, read: Event -> Event): Result<Option<Event>> {
    if lines == [] then Ok(None)
    else if lines[0].size >= SCAN_LIMIT then Err("token too long")
    else if read(lines[0].event).id == id then Ok(Some(read(lines[0].event)))
    else FirstMatch(lines[1..], id, read)
  }

  class JSONLStore {
    var lines: seq<StoreLine>

    constructor ()
      ensures lines == []
    {
      lines := [];
    }

    method Append(e: Event, size: nat, ok: bool) returns (stored: bool)
      modifies this
      ensures stored == ok && lines == if ok then old(lines) + [StoreLine(e, size)] else old(lines)
    {
      if ok {
        lines := lines + [StoreLine(e, size)];
      }
      return ok;
    }

    method ReadFiltered(q: Query, lib: Lib, read: Event -> Event) returns (r: Result<seq<Event>>)
      ensures r == if StoreScannable(lines) then Ok(LastOf(Selected(Loaded(lines, read), Filter(q, lib)), LimitOf(q)))
                   else Err("token too long")
    {
      r := ScanNewest(LimitOf(q), Filter(q, lib), read);
    }

    /** A sliding window over the matching events. */
    method ScanNewest(limit: nat, keep: Event -> bool, read: Event -> Event) returns (r: Result<seq<Event>>)
      ensures r == if StoreScannable(lines) then Ok(LastOf(Selected(Loaded(lines, read), keep), limit))
                   else Err("token too long")
    {
      var out: seq<Event> := [];
      for i := 0 to |lines|
        invariant StoreScannable(lines[..i])
        invariant out == LastOf(Selected(Loaded(lines[..i], read), keep), limit)
      {
        if lines[i].size >= SCAN_LIMIT {
          return Err("token too long");
        }
        var e := read(lines[i].event);
        WindowSlides(lines, i, read, keep, limit);
        if !keep(e) {
          continue;
        }
        out := out + [e];
        if |out| > limit {
          out := out[1..];
        }
      }
      assert lines[..|lines|] == lines;
      return Ok(out);
    }

    method ReadByID(id: string, read: Event -> Event) returns (r: Result<Option<Event>>)
      ensures r == FirstMatch(lines, id, read)
    {
      for i := 0 to |lines|
        invariant FirstMatch(lines, id, read) == FirstMatch(lines[i..], id, read)
      {
        if lines[i].size >= SCAN_LIMIT {
          return Err("token too long");
        }
        var e := read(lines[i].event);
        if e.id == id {
          return Ok(Some(e));
        }
      }
      return Ok(None);
    }

    method LoadIDSet(read: Event -> Event) returns (r: Result<set<string>>)
      ensures r == if StoreScannable(lines) then Ok(IdSet(Loaded(lines, read))) else Err("token too long")
    {
      hide IdSet, Loaded;
      var out: set<string> := {};
      assert lines[..0] == [];
      NoIds(read);
      for i := 0 to |lines|
        invariant StoreScannable(lines[..i])
        invariant out == IdSet(Loaded(lines[..i], read))
      {
        IdsOneMore(lines, i, read);
        if lines[i].size >= SCAN_LIMIT {
          return Err("token too long");
        }
        var e := read(lines[i].event);
        if e.id != "" {
          out := out + {e.id};
        }
      }
      assert lines[..|lines|] == lines;
      return Ok(out);
    }

    method LoadAll(read: Event -> Event) returns (r: Result<seq<Event>>)
      ensures r == if StoreScannable(lines) then Ok(Loaded(lines, read)) else Err("token too long")
    {
      var out := [];
      for i := 0 to |lines|
        invariant StoreScannable(lines[..i])
        invariant out == Loaded(lines[..i], read)
      {
        LoadedOneMore(lines, i, read);
        if lines[i].size >= SCAN_LIMIT {
          return Err("token too long");
        }
        out := out + [read(lines[i].event)];
      }
      assert lines[..|lines|] == lines;
      return Ok(out);
    }
  }

  /** Dropping the oldest match whenever the window overflows leaves the newest ones. */
  lemma WindowOneMore(es: seq<Event>, e: Event, keep: Event -> bool, limit: nat)
    ensures var window := LastOf(Selected(es, keep), limit);
      LastOf(Selected(es + [e], keep), limit) ==
        if !keep(e) then window else if |window + [e]| > limit then (window + [e])[1..] else window + [e]
  {
    SelectedOneMore(es, e, keep);
    EndOneMore(Selected(es, keep), e, limit);
  }

  lemma SelectedOneMore(es: seq<Event>, e: Event, keep: Event -> bool)
    ensures Selected(es + [e], keep) == if keep(e) then Selected(es, keep) + [e] else Selected(es, keep)
  {
    assert (es + [e])[..|es|] == es;
    assert Selected(es, keep) + [] == Selected(es, keep);
  }

  lemma EndOneMore(s: seq<Event>, e: Event, n: nat)
    ensures var end := LastOf(s, n) + [e]; LastOf(s + [e], n) == if |end| > n then end[1..] else end
  {
  }

  lemma LoadedOneMore(lines: seq<StoreLine>, i: nat, read: Event -> Event)
    requires i < |lines|
    ensures lines[..i + 1][..i] == lines[..i]
    ensures Loaded(lines[..i + 1], read) == Loaded(lines[..i], read) + [read(lines[i].event)]
    ensures Loaded(lines[..i + 1], read)[..|Loaded(lines[..i + 1], read)| - 1] == Loaded(lines[..i], read)
  {
    assert lines[..i + 1][..i] == lines[..i];
  }

  lemma NoIds(read: Event -> Event)
    ensures IdSet(Loaded([], read)) == {}
  {
  }

  lemma IdsOneMore(lines: seq<StoreLine>, i: nat, read: Event -> Event)
    requires i < |lines|
    ensures var ids, id := IdSet(Loaded(lines[..i], read)), read(lines[i].event).id;
      IdSet(Loaded(lines[..i + 1], read)) == if id != "" then ids + {id} else ids
  {
    LoadedOneMore(lines, i, read);
  }

  /** The window over one more line. */
  lemma WindowSlides(lines: seq<StoreLine>, i: nat, read: Event -> Event, keep: Event -> bool, limit: nat)
    requires i < |lines| && StoreScannable(lines[..i]) && lines[i].size < SCAN_LIMIT
    ensures StoreScannable(lines[..i + 1])
    ensures var window, e := LastOf(Selected(Loaded(lines[..i], read), keep), limit), read(lines[i].event);
      LastOf(Selected(Loaded(lines[..i + 1], read), keep), limit) ==
        if !keep(e) then window else if |window + [e]| > limit then (window + [e])[1..] else window + [e]
  {
    hide Loaded, Selected, LastOf;
    LoadedOneMore(lines, i, read);
    WindowOneMore(Loaded(lines[..i], read), read(lines[i].event), keep, limit);
  }

  lemma {:induction false} LoadedAt(lines: seq<StoreLine>, read: Event -> Event)
    ensures |Loaded(lines, read)| == |lines|
    ensures forall i :: 0 <= i < |lines| ==> Loaded(lines, read)[i] == read(lines[i].event)
  {
    if lines != [] { LoadedAt(lines[..|lines| - 1], read); }
  }

  /** The IDs `LoadIDSet` collects, line by line. */
  lemma LoadedIds(lines: seq<StoreLine>, read: Event -> Event)
    ensures IdSet(Loaded(lines, read)) == ReadIds(lines, read)
  {
    LoadedAt(lines, read);
    var es := Loaded(lines, read);
    forall i | 0 <= i < |lines| ensures es[i] == read(lines[i].event) && es[i] in es && lines[i] in lines {}
  }

  // ----- lookups -----

  /** A lookup by ID finds an event exactly when the set of IDs has it, and then the only one, in a log
      with one record for each ID. */
  lemma LookupIsExact(lines: seq<StoreLine>, id: string, read: Event -> Event)
    requires StoreScannable(lines) && id != ""
    requires forall i, j :: 0 <= i < j < |lines| ==> read(lines[i].event).id != read(lines[j].event).id
    ensures var r := FirstMatch(lines, id, read);
      && r.Ok? && (r.value.Some? <==> id in IdSet(Loaded(lines, read)))
      && forall i :: 0 <= i < |lines| && read(lines[i].event).id == id ==> r == Ok(Some(read(lines[i].event)))
  {
    LoadedAt(lines, read);
    FirstMatchIsFirst(lines, id, read);
    if id in IdSet(Loaded(lines, read)) {
      var i :| 0 <= i < |lines| && Loaded(lines, read)[i].id == id;
    }
  }

  /** A lookup goes wrong exactly when a line too long to scan comes before the event it looks for. */
  lemma {:induction false} FirstMatchIsFirst(lines: seq<StoreLine>, id: string, read: Event -> Event)
    ensures FirstMatch(lines, id, read).Err? <==>
      exists i :: 0 <= i < |lines| && lines[i].size >= SCAN_LIMIT && NoneBefore(lines, i, id, read)
    ensures FirstMatch(lines, id, read) == Ok(None) ==> forall i :: 0 <= i < |lines| ==> read(lines[i].event).id != id
    ensures var r := FirstMatch(lines, id, read);
      r.Ok? && r.value.Some? ==>
        exists i :: 0 <= i < |lines| && read(lines[i].event) == r.value.value && r.value.value.id == id &&
          NoneBefore(lines, i, id, read)
  {
    if lines != [] && lines[0].size < SCAN_LIMIT && read(lines[0].event).id != id {
      var rest := lines[1..];
      FirstMatchIsFirst(rest, id, read);
      forall i | 0 <= i < |rest| ensures NoneBefore(rest, i, id, read) <==> NoneBefore(lines, i + 1, id, read) {
        assert forall j :: 0 <= j < i ==> rest[j] == lines[j + 1];
        assert forall j :: 1 <= j < i + 1 ==> lines[j] == rest[j - 1];
      }
      assert forall i :: 0 <= i < |rest| ==> rest[i] == lines[i + 1];
      assert forall i :: 1 <= i < |lines| ==> lines[i] == rest[i - 1];
    } else if lines != [] {
      assert NoneBefore(lines, 0, id, read);
    }
  }

  predicate NoneBefore(lines: seq<StoreLine>, i: nat, id: string, read: Event -> Event)
    requires i <= |lines|
  {
    forall j :: 0 <= j < i ==> read(lines[j].event).id != id
  }

  // ----- queries -----

  lemma {:induction false} SelectedAre(es: seq<Event>, keep: Event -> bool)
    ensures forall e :: e in Selected(es, keep) <==> e in es && keep(e)
  {
    if es != [] {
      assert es == es[..|es| - 1] + [es[|es| - 1]];
      SelectedAre(es[..|es| - 1], keep);
    }
  }

  lemma {:induction false} SelectedOfConcat(a: seq<Event>, b: seq<Event>, keep: Event -> bool)
    ensures Selected(a + b, keep) == Selected(a, keep) + Selected(b, keep)
  {
    if b == [] {
      assert a + b == a;
    } else {
      assert (a + b)[..|a + b| - 1] == a + b[..|b| - 1];
      SelectedOfConcat(a, b[..|b| - 1], keep);
    }
  }

  /** What a query leaves out is older than everything it returns: the log splits in two, the answer
      holds all matches of the newer part, and is full if the older part has any. */
  lemma QueryReturnsNewest(es: seq<Event>, keep: Event -> bool, limit: nat) returns (k: nat)
    ensures k <= |es| && LastOf(Selected(es, keep), limit) == Selected(es[k..], keep)
    ensures |Selected(es[k..], keep)| < limit ==> Selected(es[..k], keep) == []
    ensures |Selected(es[k..], keep)| <= limit
    decreases |es|
  {
    if |Selected(es, keep)| <= limit {
      k := 0;
      assert es[0..] == es && es[..0] == [];
    } else {
      k := Cut(es, keep, limit);
    }
  }

  lemma {:induction false} Cut(es: seq<Event>, keep: Event -> bool, n: nat) returns (k: nat)
    requires n <= |Selected(es, keep)|
    ensures k <= |es| && Selected(es[k..], keep) == Selected(es, keep)[|Selected(es, keep)| - n..]
    decreases |es|
  {
    if n == 0 {
      k := |es|;
    } else {
      var front, last := es[..|es| - 1], es[|es| - 1];
      k := Cut(front, keep, if keep(last) then n - 1 else n);
      assert es[k..][..|es[k..]| - 1] == front[k..];
    }
  }
}
