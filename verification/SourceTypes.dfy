/** What the tables keyed on source types say, one against another (internal/sourceutil/source.go and
    internal/normalizer/enricher.go). */
module SourceTypes {
  import opened Text
  import opened SourceUtil
  import opened Normalizer

  const NAMES: set<string> :=
    {"firewall", "plc", "scada", "opcua", "gds_agent", "ews", "ids", "dmz_collector", "vault", "vault_agent",
     "influxdb", "opcua_dmz_gateway", "gds", "postgres_gds", "jumphost", "collector", "manual_test", "unknown"}

  /** Names of services inside the DMZ. */
  const SERVICES: set<string> :=
    {"influxdb", "opcua_dmz_gateway", "collector", "vault", "dmz_collector", "vault_agent", "gds", "postgres_gds",
     "jumphost"}

  /** The spellings of each type; any other text is unknown. */
  function Spellings(t: string): set<string> {
    match t
    case "firewall" => {"firewall", "opnsense"}
    case "scada" => {"scada", "fuxa", "fuxa-ui"}
    case "gds_agent" => {"gds_agent", "gds-agent"}
    case "opcua_dmz_gateway" => {"opcua_dmz_gateway", "opcua-dmz-gateway", "opcua_gateway"}
    case "dmz_collector" => {"dmz_collector", "dmz-collector"}
    case "vault_agent" => {"vault_agent", "vault-agent"}
    case "postgres_gds" => {"postgres_gds", "postgres-gds"}
    case "jumphost" => {"jumphost", "jump_host", "jump-host"}
    case "collector" => {"collector", "ot_collector"}
    case _ => {t}
  }

  /** A text names a known type exactly when it is one of its spellings, but for case and white space. */
  lemma NamedIff(raw: string, t: string)
    requires t in NAMES && t != "unknown"
    ensures NormalizeSourceType(raw) == t <==> Clean(raw) in Spellings(t)
    ensures NormalizeSourceType(raw) in NAMES
  {
    hide Clean;
  }

  /** The group says whether a type is a service of the DMZ, is not known, or is the only one of its group. */
  lemma GroupsName(raw: string)
    ensures var t, g := NormalizeSourceType(raw), GroupForSourceType(raw);
      && (g == "DMZ Services" <==> t in SERVICES) && (g == "Unknown / Other" <==> t in {"unknown", "manual_test"})
      && (IsInternalDMZSourceType(raw) <==> t in SERVICES) && (IsDirectSIEMSourceType(raw) <==> t == "ids")
  {
    hide NormalizeSourceType;
    NamedIff(raw, "plc");
  }

  /** The groups of a single type. */
  lemma GroupsOfOne(raw: string)
    ensures var t, g := NormalizeSourceType(raw), GroupForSourceType(raw);
      && (g == "Firewall" <==> t == "firewall") && (g == "PLCs" <==> t == "plc") && (g == "OPC UA" <==> t == "opcua")
      && (g == "SCADA / FUXA" <==> t == "scada") && (g == "GDS / PKI" <==> t == "gds_agent")
      && (g == "Engineering Workstation" <==> t == "ews") && (g == "IDS / Future Monitoring" <==> t == "ids")
  {
    hide NormalizeSourceType;
  }

  lemma GroupsTellApart(a: string, b: string)
    requires GroupForSourceType(a) == GroupForSourceType(b)
    requires GroupForSourceType(a) !in {"DMZ Services", "Unknown / Other"}
    ensures NormalizeSourceType(a) == NormalizeSourceType(b)
  {
    hide NormalizeSourceType;
    GroupsName(a);
    GroupsName(b);
  }

  /** The zone of a type against its group. The OT collector is a service of the DMZ by its group but not by
      its zone. */
  lemma ZonesFollowGroups(raw: string)
    ensures var t, g, zone := NormalizeSourceType(raw), GroupForSourceType(raw), PurdueZone(NormalizeSourceType(raw));
      && (zone == "level1" <==> g == "PLCs")
      && (zone == "level2" <==> g in {"SCADA / FUXA", "OPC UA", "Engineering Workstation"})
      && (zone == "dmz" <==> g in {"Firewall", "IDS / Future Monitoring", "DMZ Services"} && t != "collector")
      && (zone == "ot" <==> g in {"GDS / PKI", "Unknown / Other"} || t == "collector")
  {
    hide NormalizeSourceType;
    NamedIff(raw, "plc");
  }

  /** The name of a type in its Splunk sourcetype. */
  function Stem(t: string): string {
    if t == "gds_agent" then "gds" else if t == "opcua_dmz_gateway" then "opcua_gateway" else t
  }

  /** The sourcetype of a type: the firewall's own, that of a service of the DMZ or of a device, or unknown. */
  lemma SourcetypesAre(raw: string)
    ensures var t := NormalizeSourceType(raw);
      SplunkSourcetypeFor(raw) ==
        if t == "firewall" then "labshock:net:firewall"
        else if t in {"collector", "manual_test", "unknown"} then "labshock:ot:unknown"
        else (if t in SERVICES then "labshock:dmz:" else "labshock:ot:") + Stem(t)
  {
    hide NormalizeSourceType;
    NamedIff(raw, "plc");
    var t := NormalizeSourceType(raw);
    if t in SERVICES {
      ServiceStems();
    } else {
      DeviceStems();
    }
  }

  lemma ServiceStems()
    ensures "labshock:dmz:dmz_collector" == "labshock:dmz:" + "dmz_collector"
    ensures "labshock:dmz:vault" == "labshock:dmz:" + "vault"
    ensures "labshock:dmz:vault_agent" == "labshock:dmz:" + "vault_agent"
    ensures "labshock:dmz:influxdb" == "labshock:dmz:" + "influxdb"
    ensures "labshock:dmz:opcua_gateway" == "labshock:dmz:" + "opcua_gateway"
    ensures "labshock:dmz:gds" == "labshock:dmz:" + "gds"
    ensures "labshock:dmz:postgres_gds" == "labshock:dmz:" + "postgres_gds"
    ensures "labshock:dmz:jumphost" == "labshock:dmz:" + "jumphost"
  {
  }

  lemma DeviceStems()
    ensures "labshock:ot:plc" == "labshock:ot:" + "plc" && "labshock:ot:opcua" == "labshock:ot:" + "opcua"
    ensures "labshock:ot:scada" == "labshock:ot:" + "scada" && "labshock:ot:gds" == "labshock:ot:" + "gds"
    ensures "labshock:ot:ews" == "labshock:ot:" + "ews" && "labshock:ot:ids" == "labshock:ot:" + "ids"
  {
  }

  /** The part of the plant in a sourcetype shows in its tenth letter, and what comes after it. */
  lemma Parts(stem: string)
    ensures ("labshock:dmz:" + stem)[9] == 'd' && ("labshock:dmz:" + stem)[13..] == stem
    ensures ("labshock:ot:" + stem)[9] == 'o' && ("labshock:ot:" + stem)[12..] == stem
    ensures "labshock:net:firewall"[9] == 'n'
  {
  }

  /** Within a part of the plant the names tell types apart. */
  lemma StemsTellApart(t: string, u: string)
    requires t in NAMES && u in NAMES && Stem(t) == Stem(u) && (t in SERVICES <==> u in SERVICES)
    ensures t == u
  {
  }

  /** The sourcetype tells the type, unless it is the one of unknown sources. */
  lemma SourcetypesTellApart(a: string, b: string)
    requires SplunkSourcetypeFor(a) == SplunkSourcetypeFor(b) != "labshock:ot:unknown"
    ensures NormalizeSourceType(a) == NormalizeSourceType(b)
  {
    hide NormalizeSourceType, SplunkSourcetypeFor, Stem;
    var t, u := NormalizeSourceType(a), NormalizeSourceType(b);
    SourcetypesAre(a);
    SourcetypesAre(b);
    NamedIff(a, "plc");
    NamedIff(b, "plc");
    Parts(Stem(t));
    Parts(Stem(u));
    if t != "firewall" && u != "firewall" { StemsTellApart(t, u); }
  }

  /** The mapping the documentation gives holds, except for intrusion detection, which the documentation maps
      to a sourcetype the collector never uses. */
  lemma DocumentedMapping(raw: string)
    ensures var t, s := NormalizeSourceType(raw), SplunkSourcetypeFor(raw);
      && (t == "plc" ==> s == "labshock:ot:plc") && (t == "scada" ==> s == "labshock:ot:scada")
      && (t == "opcua" ==> s == "labshock:ot:opcua") && (t == "ews" ==> s == "labshock:ot:ews")
      && (t == "firewall" ==> s == "labshock:net:firewall") && (t == "unknown" ==> s == "labshock:ot:unknown")
      && s != "labshock:ids:alert"
  {
    hide NormalizeSourceType;
    NamedIff(raw, "plc");
  }
}
