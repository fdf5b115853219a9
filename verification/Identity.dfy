/** What the ID of an event without one depends on (internal/event/model.go): six fields, and on nothing
    else; when two such events get one ID; and what that means for duplicates. */
module Identity {
  import opened Json
  import opened Text
  import opened JoinedText
  import opened SourceUtil
  import opened Wrappers
  import opened Event
  import opened Normalizer
  import opened Delivery

  /** The fields an ID is to tell apart, as they are once the defaults are filled in. */
  function Traits(e: Event, now: string): seq<string> {
    [if e.timestamp == "" then now else e.timestamp, if e.sourceType == "" then "unknown" else e.sourceType,
     e.assetIP, e.message, e.raw, if e.eventCategory == "" then "unknown" else e.eventCategory]
  }

  ghost predicate Injective(digest: string -> string) {
    forall a, b :: digest(a) == digest(b) ==> a == b
  }

  /** Texts with a bar between them. */
  function Joined(parts: seq<string>): string {
    Join(parts, "|")
  }

  function DefaultId(e: Event, lib: Lib, now: string): string {
    WithDefaults(e, lib, now).id
  }

  lemma DefaultIdIs(e: Event, lib: Lib, now: string)
    requires e.id == ""
    ensures DefaultId(e, lib, now) == "dmz-" + lib.digest(Joined(Traits(e, now)))
  {
    var t := Traits(e, now);
    var d := FilledIn(e, now);
    assert t == [d.timestamp, d.sourceType, d.assetIP, d.message, d.raw, d.eventCategory];
    JoinedSix(d.timestamp, d.sourceType, d.assetIP, d.message, d.raw, d.eventCategory);
  }

  lemma JoinedHead(x: string, rest: seq<string>)
    requires rest != []
    ensures Joined([x] + rest) == x + "|" + Joined(rest)
  {
    assert ([x] + rest)[1..] == rest;
  }

  lemma JoinedSix(a: string, b: string, c: string, d: string, e: string, f: string)
    ensures Joined([a, b, c, d, e, f]) == a + "|" + b + "|" + c + "|" + d + "|" + e + "|" + f
  {
    hide Joined;
    JoinedHead(a, [b, c, d, e, f]);
    JoinedHead(b, [c, d, e, f]);
    JoinedHead(c, [d, e, f]);
    JoinedTail(d, e, f);
    var j4 := Joined([c, d, e, f]);
    assert [a] + [b, c, d, e, f] == [a, b, c, d, e, f] && [b] + [c, d, e, f] == [b, c, d, e, f];
    assert [c] + [d, e, f] == [c, d, e, f];
    BarsMove("", a, b, j4);
    BarsMove(a + "|", b, c, Joined([d, e, f]));
    BarsMove(a + "|" + b + "|", c, d, e + "|" + f);
    BarsMove(a + "|" + b + "|" + c + "|", d, e, f);
  }

  lemma JoinedTail(d: string, e: string, f: string)
    ensures Joined([d, e, f]) == d + "|" + (e + "|" + f)
  {
    JoinedHead(d, [e, f]);
    JoinedHead(e, [f]);
    assert [d] + [e, f] == [d, e, f] && [e] + [f] == [e, f];
  }

  lemma BarsMove(start: string, x: string, y: string, end: string)
    ensures start + (x + "|" + (y + "|" + end)) == start + x + "|" + (y + "|" + end)
    ensures start + x + "|" + (y + "|" + end) == start + x + "|" + y + "|" + end
    ensures "" + x == x
  {
  }

  /** Nothing but these six fields enters the ID: asset name, severity, source, zone, protocol, reception
      time, tags and extra fields have no say. */
  lemma SameTraitsSameId(e: Event, f: Event, lib: Lib, now: string, later: string)
    requires e.id == "" && f.id == "" && Traits(e, now) == Traits(f, later)
    ensures DefaultId(e, lib, now) == DefaultId(f, lib, later)
  {
    DefaultIdIs(e, lib, now);
    DefaultIdIs(f, lib, later);
  }

  lemma SameDigestSameText(e: Event, f: Event, lib: Lib, now: string, later: string)
    requires e.id == "" && f.id == "" && Injective(lib.digest)
    ensures DefaultId(e, lib, now) == DefaultId(f, lib, later) <==> Joined(Traits(e, now)) == Joined(Traits(f, later))
  {
    DefaultIdIs(e, lib, now);
    DefaultIdIs(f, lib, later);
    var a, b := lib.digest(Joined(Traits(e, now))), lib.digest(Joined(Traits(f, later)));
    assert ("dmz-" + a)[4..] == a && ("dmz-" + b)[4..] == b;
  }

  // ----- one field changed -----

  lemma {:induction false} JoinedOneApart(a: seq<string>, b: seq<string>, i: nat)
    requires |a| == |b| && i < |a| && forall j :: 0 <= j < |a| && j != i ==> a[j] == b[j]
    ensures Joined(a) == Joined(b) <==> a[i] == b[i]
  {
    if |a| == 1 {
    } else if i == 0 {
      assert a[1..] == b[1..];
      assert Joined(a) == a[0] + ("|" + Joined(a[1..])) && Joined(b) == b[0] + ("|" + Joined(a[1..]));
      SameEnd(a[0], b[0], "|" + Joined(a[1..]));
    } else {
      JoinedOneApart(a[1..], b[1..], i - 1);
      SameStart(a[0] + "|", Joined(a[1..]), Joined(b[1..]));
    }
    if a[i] == b[i] { assert a == b; }
  }

  lemma SameEnd(a: string, b: string, end: string)
    ensures a + end == b + end <==> a == b
  {
    if a + end == b + end {
      assert a == (a + end)[..|a|] && b == (b + end)[..|b|];
    }
  }

  lemma SameStart(start: string, a: string, b: string)
    ensures start + a == start + b <==> a == b
  {
    assert a == (start + a)[|start|..] && b == (start + b)[|start|..];
  }

  /** Of two events without an ID that differ in one of the six fields only, whatever that field holds, each
      gets an ID of its own; and an equal one exactly if they do not differ there either. */
  lemma OneFieldTellsApart(e: Event, f: Event, i: nat, lib: Lib, now: string, later: string)
    requires e.id == "" && f.id == "" && Injective(lib.digest) && i < 6
    requires forall j :: 0 <= j < 6 && j != i ==> Traits(e, now)[j] == Traits(f, later)[j]
    ensures DefaultId(e, lib, now) == DefaultId(f, lib, later) <==> Traits(e, now)[i] == Traits(f, later)[i]
  {
    SameDigestSameText(e, f, lib, now, later);
    JoinedOneApart(Traits(e, now), Traits(f, later), i);
  }

  /** So another message or another raw text is another event. */
  lemma MessageTellsApart(e: Event, message: string, raw: string, lib: Lib, now: string)
    requires e.id == "" && Injective(lib.digest)
    ensures DefaultId(e.(message := message), lib, now) == DefaultId(e, lib, now) <==> message == e.message
    ensures DefaultId(e.(raw := raw), lib, now) == DefaultId(e, lib, now) <==> raw == e.raw
  {
    OneFieldTellsApart(e.(message := message), e, 3, lib, now, now);
    OneFieldTellsApart(e.(raw := raw), e, 4, lib, now, now);
  }

  // ----- several fields changed -----

  lemma FirstBar(a: string, b: string, s: string, t: string)
    requires '|' !in a && '|' !in b && a + "|" + s == b + "|" + t
    ensures a == b && s == t
  {
    var x, y := a + "|" + s, b + "|" + t;
    assert x[|a|] == '|' && y[|b|] == '|';
    assert forall k :: 0 <= k < |a| ==> x[k] == a[k];
    assert forall k :: 0 <= k < |b| ==> y[k] == b[k];
    assert a == x[..|a|] && b == y[..|b|];
    assert s == x[|a| + 1..] && t == y[|b| + 1..];
  }

  lemma LastBar(a: string, b: string, s: string, t: string)
    requires '|' !in s && '|' !in t && a + "|" + s == b + "|" + t
    ensures a == b && s == t
  {
    var x, y := a + "|" + s, b + "|" + t;
    assert x[|a|] == '|' && y[|b|] == '|';
    assert forall k :: |a| < k < |x| ==> x[k] == s[k - |a| - 1];
    assert forall k :: |b| < k < |y| ==> y[k] == t[k - |b| - 1];
    assert a == x[..|a|] && b == y[..|b|];
    assert s == x[|a| + 1..] && t == y[|b| + 1..];
  }

  /** No bar in any text but one. */
  predicate UnbarredBut(parts: seq<string>, i: nat) {
    forall j :: 0 <= j < |parts| && j != i ==> '|' !in parts[j]
  }

  lemma JoinedFromTheEnd(parts: seq<string>)
    requires |parts| >= 2
    ensures Joined(parts) == Joined(parts[..|parts| - 1]) + "|" + parts[|parts| - 1]
  {
    JoinSplits(parts, "|", |parts| - 1);
    assert parts[|parts| - 1..] == [parts[|parts| - 1]];
  }

  /** The joined text gives the parts back when all the bars inside are in one of them. */
  lemma {:induction false} PartsFromJoined(a: seq<string>, b: seq<string>, i: nat)
    requires |a| == |b| && i < |a| && UnbarredBut(a, i) && UnbarredBut(b, i) && Joined(a) == Joined(b)
    ensures a == b
    decreases |a|
  {
    var n := |a| - 1;
    if n == 0 {
    } else if i > 0 {
      FirstBar(a[0], b[0], Joined(a[1..]), Joined(b[1..]));
      PartsFromJoined(a[1..], b[1..], i - 1);
      assert a == [a[0]] + a[1..] && b == [b[0]] + b[1..];
    } else {
      JoinedFromTheEnd(a);
      JoinedFromTheEnd(b);
      LastBar(Joined(a[..n]), Joined(b[..n]), a[n], b[n]);
      PartsFromJoined(a[..n], b[..n], i);
      assert a == a[..n] + [a[n]] && b == b[..n] + [b[n]];
    }
  }

  /** As long as '|' occurs in no more than one of the six fields, the same in both events, they get one ID
      exactly when all six agree. */
  lemma OneIdIff(e: Event, f: Event, i: nat, lib: Lib, now: string, later: string)
    requires e.id == "" && f.id == "" && Injective(lib.digest) && i < 6
    requires UnbarredBut(Traits(e, now), i) && UnbarredBut(Traits(f, later), i)
    ensures DefaultId(e, lib, now) == DefaultId(f, lib, later) <==> Traits(e, now) == Traits(f, later)
  {
    SameDigestSameText(e, f, lib, now, later);
    if Joined(Traits(e, now)) == Joined(Traits(f, later)) { PartsFromJoined(Traits(e, now), Traits(f, later), i); }
  }

  /** With bars in two fields different events can get one ID, whatever the digest. */
  lemma BarsCanCollide(e: Event, lib: Lib, now: string)
    requires e.id == ""
    ensures var f, g := e.(message := "a|b", raw := "c"), e.(message := "a", raw := "b|c");
      f.message != g.message && f.raw != g.raw && DefaultId(f, lib, now) == DefaultId(g, lib, now)
  {
    var f, g := e.(message := "a|b", raw := "c"), e.(message := "a", raw := "b|c");
    assert |f.message| != |g.message| && |f.raw| != |g.raw|;
    hide DefaultId, Joined;
    var t := Traits(e, now);
    DefaultIdIs(f, lib, now);
    DefaultIdIs(g, lib, now);
    JoinedSix(t[0], t[1], t[2], "a|b", "c", t[5]);
    JoinedSix(t[0], t[1], t[2], "a", "b|c", t[5]);
    BarMoves(t[0] + "|" + t[1] + "|" + t[2] + "|", t[5]);
    assert Traits(f, now) == [t[0], t[1], t[2], "a|b", "c", t[5]];
    assert Traits(g, now) == [t[0], t[1], t[2], "a", "b|c", t[5]];
  }

  lemma BarMoves(head: string, tail: string)
    ensures head + "a|b" + "|" + "c" + "|" + tail == head + "a" + "|" + "b|c" + "|" + tail
  {
    assert "a|b" + "|" + "c" == "a|b|c" && "a" + "|" + "b|c" == "a|b|c";
    assert head + "a|b" + "|" + "c" == head + ("a|b" + "|" + "c");
    assert head + "a" + "|" + "b|c" == head + ("a" + "|" + "b|c");
  }

  // ----- defaults -----

  /** An ID that was given is kept, and so is every other field that is not empty. */
  lemma GivenFieldsAreKept(e: Event, lib: Lib, now: string)
    ensures var d := WithDefaults(e, lib, now);
      && (e.id != "" ==> d.id == e.id) && (e.id == "" ==> "dmz-" <= d.id)
      && d == e.(id := d.id, timestamp := d.timestamp, receivedAt := d.receivedAt, zone := d.zone,
                 sourceType := d.sourceType, source := d.source, severity := d.severity, protocol := d.protocol,
                 eventCategory := d.eventCategory)
      && d.timestamp == (if e.timestamp != "" then e.timestamp else now)
      && d.receivedAt == (if e.receivedAt != "" then e.receivedAt else now)
      && d.zone == (if e.zone != "" then e.zone else "OT")
      && d.sourceType == (if e.sourceType != "" then e.sourceType else "unknown")
      && d.source == (if e.source != "" then e.source else "unknown")
      && d.severity == (if e.severity != "" then e.severity else "info")
      && d.protocol == (if e.protocol != "" then e.protocol else "syslog")
      && d.eventCategory == (if e.eventCategory != "" then e.eventCategory else "unknown")
  {
    assert "dmz-" <= "dmz-" + lib.digest(DigestOf(FilledIn(e, now)));
  }

  // ----- what it means for duplicates -----

  /** The event as it is when the defaults are filled in. */
  function Named(e: Event): Event {
    e.(sourceType := NormalizeSourceType(e.sourceType))
  }

  /** Normalisation and enrichment keep the ID the defaults gave. */
  lemma PreparedId(e: Event, lib: Lib, now: string)
    requires Prepared(e, lib, now).Ok?
    ensures Prepared(e, lib, now).value.id == DefaultId(Named(e), lib, now)
  {
    hide NormalizeSourceType, FirewallCategory, WithSourcetype, EnrichedLayer, HasSourceRule, Clean, WithDefaults;
  }

  /** Once an event without an ID was taken in, another one is refused as a duplicate exactly when it was
      known before or all six fields agree, whatever else differs. */
  lemma RefusedIff(s: Node, e: Event, f: Event, i: nat, io: Appends, lib: Lib, now: string, later: string)
    requires Prepared(e, lib, now).Ok? && Prepared(f, lib, later).Ok? && Accepts(s, Prepared(e, lib, now).value, io)
    requires e.id == "" && f.id == "" && Injective(lib.digest) && i < 6
    requires UnbarredBut(Traits(Named(e), now), i) && UnbarredBut(Traits(Named(f), later), i)
    ensures var p, q := Prepared(e, lib, now).value, Prepared(f, lib, later).value;
      q.id in Ingested(s, p, io).seen <==> q.id in s.seen || Traits(Named(e), now) == Traits(Named(f), later)
  {
    hide Prepared, Traits, DefaultId, NormalizeSourceType;
    PreparedId(e, lib, now);
    PreparedId(f, lib, later);
    OneIdIff(Named(e), Named(f), i, lib, now, later);
  }

  /** The same event sent again later is recognised exactly when it carries a timestamp of its own: without
      one its ID depends on the time of its arrival. */
  lemma RetryIsRecognisedIff(e: Event, lib: Lib, now: string, later: string)
    requires e.id == "" && Injective(lib.digest) && now != later
    ensures DefaultId(Named(e), lib, now) == DefaultId(Named(e), lib, later) <==> e.timestamp != ""
  {
    OneFieldTellsApart(Named(e), Named(e), 0, lib, now, later);
  }
}
