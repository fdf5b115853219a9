/** Which JSON keys and which texts each redactor hides (internal/ingest/jumphost_events.go,
    internal/ingest/opcua_dmz_events.go, internal/ingest/gds_events.go, internal/sourcecatalog/catalog.go). */
module RedactionRules {
  import opened Json
  import opened Text
  import opened Event
  import opened Redaction

  /** Whatever the value, under this key it is replaced, and nothing else is. */
  ghost predicate Hides(r: Rules, key: string) {
    forall v :: Redacted(Obj(map[key := v]), r) == Obj(map[key := Str(r.marker)])
  }

  /** The text itself is replaced. */
  predicate HidesText(r: Rules, s: string) {
    Redacted(Str(s), r) == Str(r.marker)
  }

  lemma HidesIff(r: Rules, key: string)
    ensures Hides(r, key) <==> r.key(key)
  {
    var v := Number("0");
    assert Redacted(Obj(map[key := v]), r).fields[key] == if r.key(key) then Str(r.marker) else v;
    if r.key(key) {
      forall v ensures Redacted(Obj(map[key := v]), r) == Obj(map[key := Str(r.marker)]) {
        assert Redacted(Obj(map[key := v]), r).fields == map[key := Str(r.marker)];
      }
    }
  }

  /** A key in plain letters: no white space around it, lower case, and '_' for '-' and '.'. */
  predicate PlainForm(key: string, plain: string) {
    var k := Trim(key);
    |plain| == |k| && forall i :: 0 <= i < |k| ==> plain[i] == if k[i] in "-." then '_' else LowerChar(k[i])
  }

  lemma CollapsedIsPlain(key: string)
    ensures PlainForm(key, Collapsed(key))
  {
  }

  lemma PlainIsCollapsed(key: string, plain: string)
    requires PlainForm(key, plain)
    ensures plain == Collapsed(key)
  {
    CollapsedIsPlain(key);
    hide Collapsed;
  }

  lemma AnyOf(s: string, words: set<string>)
    ensures ContainsAny(s, words) <==> exists w :: w in words && Contains(s, w)
  {
  }

  predicate HasAny(s: string, words: seq<string>) {
    exists i :: 0 <= i < |words| && Contains(s, words[i])
  }

  lemma SameWords(s: string, words: set<string>, list: seq<string>)
    requires forall w :: w in words <==> w in list
    ensures ContainsAny(s, words) <==> HasAny(s, list)
  {
    hide Contains;
    if HasAny(s, list) {
      var i :| 0 <= i < |list| && Contains(s, list[i]);
      assert list[i] in words;
    }
  }

  /** The jump host's redactor hides `key` and every key with one of six words in it. */
  lemma JumphostHidesIff(key: string, plain: string)
    requires PlainForm(key, plain)
    ensures Hides(JUMPHOST, key) <==>
      plain == "key" || HasAny(plain, ["password", "token", "secret", "authorization", "private_key", "credential"])
  {
    HidesIff(JUMPHOST, key);
    PlainIsCollapsed(key, plain);
    hide Collapsed, Contains, ContainsAny, HasAny;
    SameWords(plain, {"password", "token", "secret", "authorization", "private_key", "credential"},
              ["password", "token", "secret", "authorization", "private_key", "credential"]);
  }

  lemma PartOfWord(s: string, before: string, part: string, after: string)
    requires Contains(s, before + part + after)
    ensures Contains(s, part)
  {
    var whole := before + part + after;
    ContainsIff(s, whole);
    var b, a :| s == b + whole + a;
    assert s == (b + before) + part + (after + a);
    ContainsIff(s, part);
  }

  lemma WholeWord(s: string)
    ensures Contains(s, s)
  {
    assert s == "" + s + "";
    ContainsIff(s, s);
  }

  const GATEWAY_WORDS: seq<string> :=
    ["token", "authorization", "password", "secret", "role_id", "private_key", "privatekey", "certificate_pem",
     "certificate_body", "cert_body", "crl_body", "ca_chain"]

  /** The gateway's hides keys with one of its words in them and four more, but never a path or a mere finding. */
  lemma GatewayHidesIff(key: string, plain: string)
    requires PlainForm(key, plain)
    ensures Hides(OPCUA_DMZ, key) <==>
      && plain !in {"cert_path", "key_path", "trust_path", "private_key_found"}
      && (plain in {"pem", "csr", "crl", "signature"} || HasAny(plain, GATEWAY_WORDS))
  {
    HidesIff(OPCUA_DMZ, key);
    PlainIsCollapsed(key, plain);
    hide Collapsed, Contains, ContainsAny, HasAny, Hides;
    var all := GATEWAY_WORDS + ["secret_id"];
    SameWords(plain, {"token", "authorization", "password", "secret", "secret_id", "role_id", "private_key",
                      "privatekey", "certificate_pem", "certificate_body", "cert_body", "crl_body", "ca_chain"}, all);
    SecretIdIsSecret(plain);
    OwnWord(plain);
  }

  lemma SecretIdIsSecret(plain: string)
    ensures HasAny(plain, GATEWAY_WORDS + ["secret_id"]) <==> HasAny(plain, GATEWAY_WORDS)
  {
    hide Contains;
    var words := GATEWAY_WORDS;
    var all := words + ["secret_id"];
    assert all[12] == "secret_id" && words[3] == "secret" && "secret_id" == "" + "secret" + "_id";
    if Contains(plain, "secret_id") { PartOfWord(plain, "", "secret", "_id"); }
    assert forall i :: 0 <= i < 12 ==> all[i] == words[i];
  }

  lemma OwnWord(plain: string)
    ensures plain in GATEWAY_WORDS || plain == "secret_id" ==> HasAny(plain, GATEWAY_WORDS + ["secret_id"])
  {
    hide Contains;
    WholeWord(plain);
    var all := GATEWAY_WORDS + ["secret_id"];
    if plain in GATEWAY_WORDS || plain == "secret_id" {
      assert plain in all;
      var i :| 0 <= i < |all| && all[i] == plain;
    }
  }

  /** The certificate service's hides these keys and no others. */
  lemma FacadeHidesIff(key: string, plain: string)
    requires PlainForm(key, plain)
    ensures Hides(GDS_FACADE, key) <==>
      plain in {"accessor", "authorization", "client_token", "key", "password", "private_key", "role_id", "secret",
                "secret_id", "token", "x_gds_agent_token", "x_vault_token"}
  {
    HidesIff(GDS_FACADE, key);
    PlainIsCollapsed(key, plain);
    hide Collapsed, Hides;
  }

  /** All of these but two are hidden by the jump host's too. */
  lemma JumphostHidesFacades(key: string)
    requires Hides(GDS_FACADE, key)
    ensures Hides(JUMPHOST, key) || PlainForm(key, "role_id") || PlainForm(key, "accessor")
  {
    var plain := Collapsed(key);
    CollapsedIsPlain(key);
    FacadeHidesIff(key, plain);
    JumphostHidesIff(key, plain);
    hide *;
    if plain !in {"role_id", "accessor", "key"} { FacadeWords(plain); }
  }

  lemma FacadeWords(plain: string)
    requires plain in {"authorization", "client_token", "password", "private_key", "secret", "secret_id", "token",
                       "x_gds_agent_token", "x_vault_token"}
    ensures HasAny(plain, ["password", "token", "secret", "authorization", "private_key", "credential"])
  {
    hide Contains;
    var words := ["password", "token", "secret", "authorization", "private_key", "credential"];
    WholeWord(plain);
    assert "secret_id" == "" + "secret" + "_id" && "client_token" == "client_" + "token" + "";
    assert "x_vault_token" == "x_vault_" + "token" + "" && "x_gds_agent_token" == "x_gds_agent_" + "token" + "";
    if plain == "secret_id" {
      PartOfWord(plain, "", "secret", "_id");
      assert Contains(plain, words[2]);
    } else if plain in {"client_token", "x_gds_agent_token", "x_vault_token"} {
      PartOfWord(plain, if plain == "client_token" then "client_" else if plain == "x_vault_token" then "x_vault_"
                        else "x_gds_agent_", "token", "");
      assert Contains(plain, words[1]);
    } else {
      assert plain in words;
      var i :| 0 <= i < |words| && words[i] == plain;
    }
  }

  const DISPLAY_WORDS: seq<string> :=
    ["token", "secret", "password", "private", "key", "cert", "crl", "role_id", "vault"]

  /** The display of the catalog hides every key with one of these words in it, in whatever case. */
  lemma DisplayHidesIff(key: string)
    ensures Hides(DISPLAY, key) <==> HasAny(ToLower(key), DISPLAY_WORDS)
  {
    HidesIff(DISPLAY, key);
    hide Contains, ContainsAny, Hides, HasAny, ToLower;
    var k, all := ToLower(key), DISPLAY_WORDS + ["certificate", "secret_id"];
    SameWords(k, {"token", "secret", "password", "private", "key", "cert", "certificate", "crl", "role_id", "secret_id",
                  "vault"}, all);
    LongerDisplayWords(k);
  }

  lemma LongerDisplayWords(k: string)
    ensures HasAny(k, DISPLAY_WORDS + ["certificate", "secret_id"]) <==> HasAny(k, DISPLAY_WORDS)
  {
    hide Contains;
    var words := DISPLAY_WORDS;
    var all := words + ["certificate", "secret_id"];
    assert all[9] == "certificate" && all[10] == "secret_id" && words[1] == "secret" && words[5] == "cert";
    assert "certificate" == "" + "cert" + "ificate" && "secret_id" == "" + "secret" + "_id";
    if Contains(k, "certificate") { PartOfWord(k, "", "cert", "ificate"); }
    if Contains(k, "secret_id") { PartOfWord(k, "", "secret", "_id"); }
    assert forall i :: 0 <= i < 9 ==> all[i] == words[i];
  }

  // ----- texts -----

  /** The texts each redactor replaces, or finds replaced. */
  lemma TextsHiddenIff(s: string)
    ensures var t := ToLower(s);
      && (HidesText(JUMPHOST, s) <==>
            Contains(t, "-----begin ") || "bearer " <= Trim(t) || s == "[REDACTED]")
      && (HidesText(OPCUA_DMZ, s) <==>
            || Contains(t, "-----begin ") || Contains(t, "-----end ") || s == "[REDACTED]"
            || (Contains(t, "bearer ") && |s| > 7))
      && (HidesText(GDS_FACADE, s) <==>
            || "bearer " <= Trim(t) || s == "[REDACTED]"
            || HasAny(t, ["-----begin private key-----", "-----begin rsa private key-----",
                          "-----begin ec private key-----", "-----end private key-----",
                          "-----end rsa private key-----", "-----end ec private key-----"]))
      && (HidesText(DISPLAY, s) <==>
            || s == "[redacted]"
            || HasAny(t, ["-----begin", "-----end", "token", "secret", "password", "private key", "certificate",
              "crl"]))
  {
    hide Contains, ContainsAny, HasAny, Trim, ToLower;
    KeyHeaders(ToLower(s));
    SameWords(ToLower(s), {"-----begin", "-----end", "token", "secret", "password", "private key", "certificate",
      "crl"},
              ["-----begin", "-----end", "token", "secret", "password", "private key", "certificate", "crl"]);
  }

  lemma KeyHeaders(t: string)
    ensures ContainsAny(t, {"-----begin private key-----", "-----begin rsa private key-----",
                            "-----begin ec private key-----", "-----end private key-----",
                            "-----end rsa private key-----", "-----end ec private key-----"}) <==>
      HasAny(t, ["-----begin private key-----", "-----begin rsa private key-----", "-----begin ec private key-----",
                 "-----end private key-----", "-----end rsa private key-----", "-----end ec private key-----"])
  {
    hide ContainsAny, HasAny;
    SameWords(t, {"-----begin private key-----", "-----begin rsa private key-----", "-----begin ec private key-----",
                  "-----end private key-----", "-----end rsa private key-----", "-----end ec private key-----"},
              ["-----begin private key-----", "-----begin rsa private key-----", "-----begin ec private key-----",
               "-----end private key-----", "-----end rsa private key-----", "-----end ec private key-----"]);
  }

  // ----- the display of an event -----

  /** The display of an event shows its document, but never its raw text, and of its tags those it does not
      hide; redaction goes into the objects among them. */
  lemma DisplayShows(e: Event, key: string)
    requires key in e.tags
    ensures var d := ForUI(e);
      && d.Keys == Encoded(e).Keys && d["raw"] == Str("[redacted]")
      && (forall k :: k in d && k != "raw" && k != "tags" ==> d[k] == Encoded(e)[k])
      && d["tags"].Obj? && d["tags"].fields.Keys == e.tags.Keys
      && (Hides(DISPLAY, key) ==> d["tags"].fields[key] == Str("[redacted]"))
      && (!Hides(DISPLAY, key) && e.tags[key].Str? ==>
            d["tags"].fields[key] == if HidesText(DISPLAY, e.tags[key].s) then Str("[redacted]") else e.tags[key])
      && (!Hides(DISPLAY, key) && e.tags[key].Arr? ==> d["tags"].fields[key] == e.tags[key])
  {
    HidesIff(DISPLAY, key);
    hide Hides, LooksSensitiveKey, LooksSensitiveValue;
    assert "raw" in KNOWN_KEYS && "tags" in KNOWN_KEYS;
    assert e.tags[key].Arr? ==> Redacted(e.tags[key], DISPLAY) == e.tags[key];
  }

  /** The three redactors of incoming events go into arrays, and into objects there. */
  lemma ArraysAreEntered(xs: seq<Json>, i: nat, key: string, r: Rules)
    requires r == JUMPHOST || r == OPCUA_DMZ || r == GDS_FACADE
    requires i < |xs| && xs[i].Obj? && key in xs[i].fields && Hides(r, key)
    ensures var out := Redacted(Arr(xs), r);
      && out.Arr? && |out.items| == |xs| && out.items[i].Obj? && out.items[i].fields.Keys == xs[i].fields.Keys
      && out.items[i].fields[key] == Str("[REDACTED]")
  {
    HidesIff(r, key);
    hide Hides, IsJumphostSensitiveKey, IsOPCUADMZSensitiveKey, IsGDSFacadeSensitiveKey;
  }

  // ----- compaction -----

  /** There is something in the value: a text that is not blank, a number, a truth value or an array, or an
      object with such a thing in it. */
  predicate Worth(v: Json)
    decreases v
  {
    match v
    case Null => false
    case Str(s) => Trim(s) != ""
    case Obj(m) => exists k | k in m :: Worth(m[k])
    case _ => true
  }

  lemma {:induction false} KeptIff(v: Json)
    ensures Kept(Compacted(v)) <==> Worth(v)
    decreases v
  {
    if v.Obj? {
      forall k | k in v.fields ensures Kept(Compacted(v.fields[k])) <==> Worth(v.fields[k]) { KeptIff(v.fields[k]); }
      var out := Compacted(v).fields;
      if out == map[] {
        assert forall k :: k in v.fields && Worth(v.fields[k]) ==> k in out;
      }
    }
  }

  /** Compaction keeps exactly the fields with something in them, and only objects change. */
  lemma CompactionKeepsIff(m: Doc, key: string)
    ensures var c := Compacted(Obj(m));
      && c.Obj? && (key in c.fields <==> key in m && Worth(m[key]))
      && (key in c.fields ==> c.fields[key] == if m[key].Obj? then Compacted(m[key]) else m[key])
  {
    if key in m { KeptIff(m[key]); }
  }
}
