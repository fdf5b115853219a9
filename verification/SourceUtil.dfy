/** Source types: the canonical names and the tables keyed on them (internal/sourceutil/source.go). */
module SourceUtil {
  import opened Text

  /** The switch on the cleaned name. */
  function Canonical(t: string): string {
    match t
    case "opnsense" => "firewall"
    case "firewall" => "firewall"
    case "gds-agent" => "gds_agent"
    case "gds_agent" => "gds_agent"
    case "fuxa" => "scada"
    case "fuxa-ui" => "scada"
    case "scada" => "scada"
    case "plc" => "plc"
    case "opcua" => "opcua"
    case "opcua_gateway" => "opcua_dmz_gateway"
    case "opcua_dmz_gateway" => "opcua_dmz_gateway"
    case "opcua-dmz-gateway" => "opcua_dmz_gateway"
    case "ews" => "ews"
    case "ids" => "ids"
    case "influxdb" => "influxdb"
    case "dmz_collector" => "dmz_collector"
    case "dmz-collector" => "dmz_collector"
    case "vault_agent" => "vault_agent"
    case "vault-agent" => "vault_agent"
    case "gds" => "gds"
    case "postgres_gds" => "postgres_gds"
    case "postgres-gds" => "postgres_gds"
    case "jumphost" => "jumphost"
    case "jump_host" => "jumphost"
    case "jump-host" => "jumphost"
    case "ot_collector" => "collector"
    case "collector" => "collector"
    case "vault" => "vault"
    case "manual_test" => "manual_test"
    case _ => "unknown"
  }

  function NormalizeSourceType(raw: string): string {
    Canonical(Clean(raw))
  }

  function GroupForSourceType(sourceType: string): string {
    match NormalizeSourceType(sourceType)
    case "firewall" => "Firewall"
    case "plc" => "PLCs"
    case "scada" => "SCADA / FUXA"
    case "opcua" => "OPC UA"
    case "gds_agent" => "GDS / PKI"
    case "ews" => "Engineering Workstation"
    case "ids" => "IDS / Future Monitoring"
    case t => if IsInternalName(t) then "DMZ Services" else "Unknown / Other"
  }

  function SplunkSourcetypeFor(sourceType: string): string {
    match NormalizeSourceType(sourceType)
    case "firewall" => "labshock:net:firewall"
    case "plc" => "labshock:ot:plc"
    case "opcua" => "labshock:ot:opcua"
    case "scada" => "labshock:ot:scada"
    case "gds_agent" => "labshock:ot:gds"
    case "ews" => "labshock:ot:ews"
    case "ids" => "labshock:ot:ids"
    case "dmz_collector" => "labshock:dmz:dmz_collector"
    case "vault" => "labshock:dmz:vault"
    case "vault_agent" => "labshock:dmz:vault_agent"
    case "influxdb" => "labshock:dmz:influxdb"
    case "opcua_dmz_gateway" => "labshock:dmz:opcua_gateway"
    case "gds" => "labshock:dmz:gds"
    case "postgres_gds" => "labshock:dmz:postgres_gds"
    case "jumphost" => "labshock:dmz:jumphost"
    case _ => UNKNOWN_SOURCETYPE
  }

  const UNKNOWN_SOURCETYPE := "labshock:ot:unknown"

  predicate IsInternalName(t: string) {
    t in {"influxdb", "opcua_dmz_gateway", "collector", "vault", "dmz_collector", "vault_agent", "gds",
          "postgres_gds", "jumphost"}
  }

  predicate IsInternalDMZSourceType(sourceType: string) {
    IsInternalName(NormalizeSourceType(sourceType))
  }

  predicate IsDirectSIEMSourceType(sourceType: string) {
    NormalizeSourceType(sourceType) == "ids"
  }

  predicate IsPlaceholderSourceName(name: string) {
    Clean(name) in {"firewall future", "ids future", "future ids"}
  }

  /** A name the clean-up leaves alone: lower case, without white space or ':'. */
  predicate IsName(s: string) {
    s != "" && forall i :: 0 <= i < |s| ==> 'a' <= s[i] <= 'z' || s[i] == '_'
  }

  lemma CanonicalFixed(t: string)
    ensures Canonical(Canonical(t)) == Canonical(t)
  {
    var c := Canonical(t);
    if |c| > 7 {
    } else if |c| > 4 {
    } else {
    }
  }

  lemma CanonicalIsName(t: string)
    ensures IsName(Canonical(t))
  {
    var c := Canonical(t);
    if |c| > 5 {
      LongNames(c);
    } else {
      assert c == "scada" || c == "plc" || c == "opcua" || c == "ews" || c == "ids" || c == "gds" || c == "vault";
    }
  }

  lemma LongestNames(c: string)
    requires c in {"opcua_dmz_gateway", "dmz_collector", "postgres_gds"}
    ensures IsName(c)
  {
  }

  lemma LongNames(c: string)
    requires c in {"opcua_dmz_gateway", "dmz_collector", "vault_agent", "postgres_gds", "manual_test", "firewall",
                   "gds_agent", "influxdb", "jumphost", "collector", "unknown"}
    ensures IsName(c)
  {
    if |c| > 11 {
      LongestNames(c);
    } else if |c| > 8 {
      assert c == "vault_agent" || c == "manual_test" || c == "gds_agent" || c == "collector";
    } else {
      assert c == "firewall" || c == "influxdb" || c == "jumphost" || c == "unknown";
    }
  }

  lemma NameIsClean(s: string)
    requires IsName(s)
    ensures Clean(s) == s && ':' !in s
  {
    assert ToLower(s) == s;
  }

  lemma NormalizeFixed(raw: string)
    ensures NormalizeSourceType(NormalizeSourceType(raw)) == NormalizeSourceType(raw)
    ensures IsName(NormalizeSourceType(raw))
  {
    CanonicalIsName(Clean(raw));
    NameIsClean(NormalizeSourceType(raw));
    CanonicalFixed(Clean(raw));
  }
}
