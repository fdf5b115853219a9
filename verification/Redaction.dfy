/** Redaction and compaction of JSON trees (internal/ingest/jumphost_events.go,
    internal/ingest/opcua_dmz_events.go, internal/ingest/gds_events.go) and of an event's tags for
    display (internal/sourcecatalog/catalog.go). The three value redactors share one recursion and
    differ in their tests on keys and on strings. */
module Redaction {
  import opened Json
  import opened Text
  import opened Event

  /** One redactor: its tests, what it puts in place of a secret, and whether it looks inside arrays. */
  datatype Rules = Rules(key: string -> bool, secret: string -> bool, marker: string, arrays: bool)

  function Redacted(v: Json, r: Rules): Json
    decreases v
  {
    match v
    case Obj(m) => Obj(map k | k in m :: if r.key(k) then Str(r.marker) else Redacted(m[k], r))
    case Arr(xs) => if r.arrays then Arr(seq(|xs|, i requires 0 <= i < |xs| => Redacted(xs[i], r))) else v
    case Str(s) => if r.secret(s) then Str(r.marker) else v
    case _ => v
  }

  /** No sensitive key, at any depth the redactor looks at, holds anything but the marker, and no
      string looks like a secret. */
  ghost predicate NoLeak(v: Json, r: Rules)
    decreases v
  {
    match v
    case Obj(m) => forall k :: k in m ==> if r.key(k) then m[k] == Str(r.marker) else NoLeak(m[k], r)
    case Arr(xs) => r.arrays ==> forall i :: 0 <= i < |xs| ==> NoLeak(xs[i], r)
    case Str(s) => !r.secret(s)
    case _ => true
  }

  lemma {:induction false} RedactedDoesNotLeak(v: Json, r: Rules)
    requires !r.secret(r.marker)
    ensures NoLeak(Redacted(v, r), r)
    decreases v
  {
    match v
    case Obj(m) =>
      forall k | k in m && !r.key(k) ensures NoLeak(Redacted(m[k], r), r) { RedactedDoesNotLeak(m[k], r); }
    case Arr(xs) =>
      forall i | 0 <= i < |xs| ensures NoLeak(Redacted(xs[i], r), r) { RedactedDoesNotLeak(xs[i], r); }
    case _ =>
  }

  /** Redaction leaves a tree alone exactly when nothing in it leaks. */
  lemma {:induction false} RedactionFixesIff(v: Json, r: Rules)
    requires !r.secret(r.marker)
    ensures Redacted(v, r) == v <==> NoLeak(v, r)
    decreases v
  {
    match v
    case Obj(m) =>
      var out := Redacted(v, r).fields;
      forall k | k in m && !r.key(k) ensures out[k] == m[k] <==> NoLeak(m[k], r) { RedactionFixesIff(m[k], r); }
      assert out.Keys == m.Keys;
      if NoLeak(v, r) { assert forall k :: k in m ==> out[k] == m[k]; }
    case Arr(xs) =>
      if r.arrays {
        var out := Redacted(v, r).items;
        forall i | 0 <= i < |xs| ensures out[i] == xs[i] <==> NoLeak(xs[i], r) { RedactionFixesIff(xs[i], r); }
      }
    case _ =>
  }

  lemma RedactionIsAProjection(v: Json, r: Rules)
    requires !r.secret(r.marker)
    ensures Redacted(Redacted(v, r), r) == Redacted(v, r)
  {
    RedactedDoesNotLeak(v, r);
    RedactionFixesIff(Redacted(v, r), r);
  }

  /** The recursion as the code has it, filling fresh maps and slices. */
  method RedactValue(v: Json, r: Rules) returns (out: Json)
    ensures out == Redacted(v, r)
    decreases v
  {
    match v
    case Obj(m) =>
      var fields: Doc := map[];
      var todo := m.Keys;
      while todo != {}
        invariant todo <= m.Keys && fields.Keys == m.Keys - todo
        invariant forall k :: k in fields ==> fields[k] == if r.key(k) then Str(r.marker) else Redacted(m[k], r)
      {
        var k :| k in todo;
        todo := todo - {k};
        if r.key(k) {
          fields := fields[k := Str(r.marker)];
        } else {
          var item := RedactValue(m[k], r);
          fields := fields[k := item];
        }
      }
      assert fields == Redacted(v, r).fields;
      out := Obj(fields);
    case Arr(xs) =>
      if !r.arrays {
        return v;
      }
      var items := [];
      for i := 0 to |xs|
        invariant |items| == i && forall j :: 0 <= j < i ==> items[j] == Redacted(xs[j], r)
      {
        var item := RedactValue(xs[i], r);
        items := items + [item];
      }
      out := Arr(items);
    case Str(s) =>
      out := if r.secret(s) then Str(r.marker) else v;
    case _ =>
      out := v;
  }

  // ----- compaction -----

  /** What `compactGDSMap` keeps of a value, once that is compacted. */
  predicate Kept(c: Json) {
    match c
    case Null => false
    case Str(s) => Trim(s) != ""
    case Obj(m) => m != map[]
    case _ => true
  }

  /** `compactGDSMap`; it does not look inside arrays. */
  function Compacted(v: Json): Json
    decreases v
  {
    match v
    case Obj(m) => Obj(map k | k in m && Kept(Compacted(m[k])) :: Compacted(m[k]))
    case _ => v
  }

  ghost predicate Dense(v: Json)
    decreases v
  {
    v.Obj? ==> forall k :: k in v.fields ==> Kept(v.fields[k]) && Dense(v.fields[k])
  }

  lemma {:induction false} CompactedIsDense(v: Json)
    ensures Dense(Compacted(v))
    decreases v
  {
    if v.Obj? {
      forall k | k in v.fields ensures Dense(Compacted(v.fields[k])) { CompactedIsDense(v.fields[k]); }
    }
  }

  /** Compaction leaves a tree alone exactly when there is nothing to drop. */
  lemma {:induction false} CompactionFixesIff(v: Json)
    ensures Compacted(v) == v <==> Dense(v)
    decreases v
  {
    if v.Obj? {
      var m, out := v.fields, Compacted(v).fields;
      forall k | k in m ensures Compacted(m[k]) == m[k] <==> Dense(m[k]) { CompactionFixesIff(m[k]); }
      if Compacted(v) == v {
        assert forall k :: k in m ==> k in out && out[k] == m[k];
      }
      if Dense(v) {
        assert out.Keys == m.Keys;
      }
    }
  }

  lemma CompactionIsAProjection(v: Json)
    ensures Compacted(Compacted(v)) == Compacted(v)
  {
    CompactedIsDense(v);
    CompactionFixesIff(Compacted(v));
  }

  /** What was redacted stays redacted. */
  lemma {:induction false} CompactionDoesNotLeak(v: Json, r: Rules)
    requires NoLeak(v, r)
    ensures NoLeak(Compacted(v), r)
    decreases v
  {
    if v.Obj? {
      forall k | k in v.fields && !r.key(k) ensures NoLeak(Compacted(v.fields[k]), r) {
        CompactionDoesNotLeak(v.fields[k], r);
      }
    }
  }

  /** What compaction makes of some of the entries. */
  function CompactedAt(m: Doc, keys: set<string>): Doc
    requires keys <= m.Keys
  {
    map k | k in keys && Kept(Compacted(m[k])) :: Compacted(m[k])
  }

  lemma CompactedOneMore(m: Doc, keys: set<string>, k: string)
    requires keys <= m.Keys && k in m && k !in keys
    ensures CompactedAt(m, keys + {k}) ==
      if Kept(Compacted(m[k])) then CompactedAt(m, keys)[k := Compacted(m[k])] else CompactedAt(m, keys)
  {
    hide Compacted, Kept;
  }

  /** `compactGDSMap` as the code has it. */
  method CompactMap(m: Doc) returns (out: Doc)
    ensures Obj(out) == Compacted(Obj(m))
    decreases Obj(m)
  {
    out := map[];
    var todo := m.Keys;
    while todo != {}
      invariant todo <= m.Keys
      invariant out == CompactedAt(m, m.Keys - todo)
    {
      var k :| k in todo;
      CompactedOneMore(m, m.Keys - todo, k);
      assert m.Keys - (todo - {k}) == m.Keys - todo + {k};
      todo := todo - {k};
      match m[k]
      case Null =>
      case Str(s) =>
        if Trim(s) != "" {
          out := out[k := m[k]];
        }
      case Obj(inner) =>
        var compact := CompactMap(inner);
        if compact != map[] {
          out := out[k := Obj(compact)];
        }
      case _ =>
        out := out[k := m[k]];
    }
    assert m.Keys - todo == m.Keys;
    assert CompactedAt(m, m.Keys) == map k | k in m && Kept(Compacted(m[k])) :: Compacted(m[k]);
  }

  // ----- the redactors -----

  /** `strings.NewReplacer("-", "_", ".", "_")` on a cleaned key. */
  function Collapsed(key: string): string {
    var k := Clean(key);
    seq(|k|, i requires 0 <= i < |k| => if k[i] == '-' || k[i] == '.' then '_' else k[i])
  }

  predicate ContainsAny(s: string, words: set<string>) {
    exists w | w in words :: Contains(s, w)
  }

  predicate IsJumphostSensitiveKey(key: string) {
    Collapsed(key) == "key"
    || ContainsAny(Collapsed(key), {"password", "token", "secret", "authorization", "private_key", "credential"})
  }

  predicate LooksLikeJumphostSecret(value: string) {
    Contains(ToLower(value), "-----begin ") || HasPrefix(Trim(ToLower(value)), "bearer ")
  }

  const JUMPHOST := Rules(IsJumphostSensitiveKey, LooksLikeJumphostSecret, "[REDACTED]", true)

  predicate IsOPCUADMZSensitiveKey(key: string) {
    var k := Collapsed(key);
    if k in {"cert_path", "key_path", "trust_path", "private_key_found"} then false
    else
      k in {"token", "authorization", "password", "secret", "secret_id", "role_id", "private_key", "privatekey", "pem",
            "csr", "crl", "certificate_pem", "certificate_body", "cert_body", "crl_body", "ca_chain", "signature"}
      || ContainsAny(k, {"token", "authorization", "password", "secret", "secret_id", "role_id", "private_key",
                         "privatekey", "certificate_pem", "certificate_body", "cert_body", "crl_body", "ca_chain"})
  }

  predicate LooksLikeOPCUADMZSecret(value: string) {
    var lower := ToLower(value);
    Contains(lower, "-----begin ") || Contains(lower, "-----end ")
    || (Contains(lower, "bearer ") && |value| > |"bearer "|)
  }

  const OPCUA_DMZ := Rules(IsOPCUADMZSensitiveKey, LooksLikeOPCUADMZSecret, "[REDACTED]", true)

  predicate IsGDSFacadeSensitiveKey(key: string) {
    Collapsed(key) in {"private_key", "key", "token", "secret", "password", "client_token", "secret_id", "role_id",
                       "accessor", "authorization", "x_vault_token", "x_gds_agent_token"}
  }

  predicate LooksLikeGDSFacadeSecret(value: string) {
    var lower := ToLower(value);
    ContainsAny(lower, {"-----begin private key-----", "-----begin rsa private key-----",
      "-----begin ec private key-----",
                        "-----end private key-----", "-----end rsa private key-----", "-----end ec private key-----"})
    || HasPrefix(Trim(lower), "bearer ")
  }

  const GDS_FACADE := Rules(IsGDSFacadeSensitiveKey, LooksLikeGDSFacadeSecret, "[REDACTED]", true)

  predicate LooksSensitiveKey(key: string) {
    ContainsAny(ToLower(key), {"token", "secret", "password", "private", "key", "cert", "certificate", "crl", "role_id",
                               "secret_id", "vault"})
  }

  predicate LooksSensitiveValue(value: string) {
    ContainsAny(ToLower(value), {"-----begin", "-----end", "token", "secret", "password", "private key",
      "certificate", "crl"})
  }

  /** The catalog's display form; it does not look inside arrays. */
  const DISPLAY := Rules(LooksSensitiveKey, LooksSensitiveValue, "[redacted]", false)

  /** `redactEventForUI`. */
  function ForUI(e: Event): Doc {
    Encoded(e)["raw" := Str("[redacted]")]["tags" := Redacted(Obj(e.tags), DISPLAY)]
  }

  /** A word with a character missing from a text does not occur in it. */
  lemma NotWithout(s: string, word: string, k: nat)
    requires k < |word| && word[k] !in s
    ensures !Contains(s, word) && !HasPrefix(s, word)
  {
    forall i | OccursAt(s, word, i) ensures false { OccursCharacter(s, word, i, k); }
    assert HasPrefix(s, word) ==> OccursAt(s, word, 0);
  }

  const SHOWN_MARKER := "[redacted]"

  lemma MarkerInLowerCase()
    ensures ToLower("[REDACTED]") == SHOWN_MARKER && ToLower(SHOWN_MARKER) == SHOWN_MARKER &&
      Trim(SHOWN_MARKER) == SHOWN_MARKER
  {
  }

  /** No redactor takes its own marker for a secret. */
  lemma MarkersAreNotSecrets()
    ensures !JUMPHOST.secret(JUMPHOST.marker) && !OPCUA_DMZ.secret(OPCUA_DMZ.marker)
    ensures !GDS_FACADE.secret(GDS_FACADE.marker) && !DISPLAY.secret(DISPLAY.marker)
  {
    MarkerInLowerCase();
    NotWithout(SHOWN_MARKER, "-----begin ", 0);
    NotWithout(SHOWN_MARKER, "-----end ", 0);
    NotWithout(SHOWN_MARKER, "bearer ", 0);
    FacadeMarker();
    DisplayMarker();
  }

  lemma FacadeMarker()
    ensures !ContainsAny(SHOWN_MARKER,
      {"-----begin private key-----", "-----begin rsa private key-----", "-----begin ec private key-----",
       "-----end private key-----", "-----end rsa private key-----", "-----end ec private key-----"})
  {
    NotWithout(SHOWN_MARKER, "-----begin private key-----", 0);
    NotWithout(SHOWN_MARKER, "-----begin rsa private key-----", 0);
    NotWithout(SHOWN_MARKER, "-----begin ec private key-----", 0);
    NotWithout(SHOWN_MARKER, "-----end private key-----", 0);
    NotWithout(SHOWN_MARKER, "-----end rsa private key-----", 0);
    NotWithout(SHOWN_MARKER, "-----end ec private key-----", 0);
  }

  lemma DisplayMarkerNamesNoKey()
    ensures !ContainsAny(SHOWN_MARKER, {"private key", "certificate", "crl"})
  {
    NotWithout(SHOWN_MARKER, "private key", 0);
    NotWithout(SHOWN_MARKER, "certificate", 4);
    NotWithout(SHOWN_MARKER, "crl", 2);
  }

  lemma DisplayMarkerNamesNoSecret()
    ensures !ContainsAny(SHOWN_MARKER, {"-----begin", "-----end", "token", "secret", "password"})
  {
    NotWithout(SHOWN_MARKER, "-----begin", 0);
    NotWithout(SHOWN_MARKER, "-----end", 0);
    NotWithout(SHOWN_MARKER, "token", 1);
    NotWithout(SHOWN_MARKER, "secret", 0);
    NotWithout(SHOWN_MARKER, "password", 0);
  }

  lemma DisplayMarker()
    ensures !LooksSensitiveValue(SHOWN_MARKER)
  {
    MarkerInLowerCase();
    DisplayMarkerNamesNoKey();
    DisplayMarkerNamesNoSecret();
  }

  /** The four redactors: nothing leaks, and redacting again changes nothing. */
  lemma RedactorsDoNotLeak(v: Json, r: Rules)
    requires r == JUMPHOST || r == OPCUA_DMZ || r == GDS_FACADE || r == DISPLAY
    ensures NoLeak(Redacted(v, r), r) && Redacted(Redacted(v, r), r) == Redacted(v, r)
    ensures Redacted(v, r) == v <==> NoLeak(v, r)
    ensures NoLeak(Compacted(Redacted(v, r)), r)
  {
    MarkersAreNotSecrets();
    RedactedDoesNotLeak(v, r);
    RedactionIsAProjection(v, r);
    RedactionFixesIff(v, r);
    CompactionDoesNotLeak(Redacted(v, r), r);
  }
}
