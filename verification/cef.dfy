/**
  The CEF firewall generator: TRAFFIC (70%), THREAT (20%) and SYSTEM (10%)
  events. Each builder draws a device, fills an extensions dict in insertion
  order, adding some keys only under conditions, and formats the line.
  The dict is a sequence of (key, value) pairs here; the keys each builder
  inserts are distinct, so no insertion overwrites an earlier one.
*/
module Cef {
  import opened Common
  import opened Text
  import opened Net
  import opened Random
  import opened Base
  import opened CefFormat
  import Fake

  /** vendor -> (product, versions), in table order. */
  const Vendors: seq<(string, string, seq<string>)> := [PaloAlto, CiscoAsa, FortiGate, CheckPoint, PfSense]
  const PaloAlto: (string, string, seq<string>) := ("Palo Alto Networks", "PAN-OS", ["9.0.0", "9.1.0", "10.0.0", "10.1.0"])
  const CiscoAsa: (string, string, seq<string>) := ("Cisco", "ASA", ["9.8", "9.12", "9.14"])
  const FortiGate: (string, string, seq<string>) := ("Fortinet", "FortiGate", ["6.0.0", "6.2.0", "6.4.0", "7.0.0"])
  const CheckPoint: (string, string, seq<string>) := ("Check Point", "VPN-1 & FireWall-1", ["R80.40", "R81", "R81.10"])
  const PfSense: (string, string, seq<string>) := ("pfSense", "pfSense", ["2.5.0", "2.6.0"])

  const Protocols: seq<string> := ["TCP", "UDP", "ICMP", "GRE", "ESP"]
  const ProtocolWeights: seq<real> := [0.5, 0.3, 0.15, 0.03, 0.02]

  /** service -> (port, protocol), in table order. */
  const Services: seq<(string, int, string)> := [
    ("http", 80, "TCP"), ("https", 443, "TCP"), ("ssh", 22, "TCP"), ("telnet", 23, "TCP"),
    ("smtp", 25, "TCP"), ("dns", 53, "UDP"), ("dhcp", 67, "UDP"), ("tftp", 69, "UDP"),
    ("pop3", 110, "TCP"), ("imap", 143, "TCP"), ("snmp", 161, "UDP"), ("ldap", 389, "TCP"),
    ("smb", 445, "TCP"), ("mysql", 3306, "TCP"), ("rdp", 3389, "TCP"), ("postgresql", 5432, "TCP"),
    ("mongodb", 27017, "TCP"), ("redis", 6379, "TCP")]

  datatype EventClass = Traffic | Threat | System

  const EventClasses: seq<EventClass> := [Traffic, Threat, System]
  const EventWeights: seq<real> := [0.7, 0.2, 0.1]

  function ClassId(c: EventClass): string
  {
    match c
    case Traffic => "TRAFFIC"
    case Threat => "THREAT"
    case System => "SYSTEM"
  }

  const ThreatCategories: seq<string> := [
    "malware", "spyware", "vulnerability", "virus", "wildfire", "url-filtering", "data-filtering",
    "file-blocking", "scan", "flood"]
  const AllowActions: seq<string> := ["allowed", "permit", "accept"]
  const DenyActions: seq<string> := ["denied", "drop", "reject", "block"]
  const ThreatActions: seq<string> := DenyActions + ["alert", "reset-both"]
  const TimeFormat: string := "%b %d %Y %H:%M:%S"
  const Applications: seq<string> := ["web-browsing", "ssl", "dns", "ssh", "ftp", "smtp", "http", "smtp", "ms-rdp"]
  const Zones: seq<string> := ["trust", "untrust", "dmz", "internal", "external", "vpn"]
  const ThreatNames: seq<string> := [
    "Generic.Malware.Detected", "Trojan.Win32.Agent", "Exploit.CVE-2021-44228", "Malicious.URL.Detected",
    "Suspicious.Network.Traffic", "SQL.Injection.Attempt", "XSS.Attack.Detected", "Brute.Force.Attack",
    "Port.Scan.Detected", "DDoS.Attack.Detected"]
  const MaliciousUrls: seq<string> := [
    "http://malicious-site.com/payload.exe", "http://phishing-site.net/login.php",
    "http://c2-server.org/beacon", "http://exploit-kit.ru/landing"]
  const MalwareFiles: seq<string> := ["payload.exe", "malware.dll", "trojan.js", "backdoor.sh"]
  const HexDigits: string := "0123456789abcdef"

  /** (event id, name, severity), in table order. */
  const SystemEvents: seq<(string, string, int)> := [
    ("admin-login", "Administrator login", 5), ("admin-logout", "Administrator logout", 3),
    ("config-change", "Configuration changed", 6), ("system-start", "System started", 4),
    ("system-shutdown", "System shutdown", 4), ("ha-failover", "HA failover occurred", 8),
    ("license-expire", "License expiring soon", 7), ("disk-space-low", "Disk space low", 7)]
  const AdminEvents: seq<string> := ["admin-login", "admin-logout", "config-change"]
  const Admins: seq<string> := ["admin", "firewall-admin", "security-admin"]

  /** messages[event_id], given the two numbers the messages dict draws. */
  function SystemMessage(eventId: string, days: int, percent: int): string
  {
    match eventId
    case "admin-login" => "Administrator logged in from management interface"
    case "admin-logout" => "Administrator logged out"
    case "config-change" => "Security policy modified"
    case "system-start" => "Firewall system started successfully"
    case "system-shutdown" => "Firewall system shutting down"
    case "ha-failover" => "HA failover to secondary device"
    case "license-expire" => "License will expire in " + IntStr(days) + " days"
    case _ => "Disk space at " + IntStr(percent) + "% capacity"
  }

  /** A vendor, its product and one of its versions. */
  predicate KnownDevice(vendor: string, product: string, version: string)
  {
    exists i :: 0 <= i < |Vendors| && Vendors[i].0 == vendor && Vendors[i].1 == product && version in Vendors[i].2
  }

  predicate DeviceEntryPlain(d: (string, string, seq<string>))
  {
    Plain(d.0) && Plain(d.1) && forall j :: 0 <= j < |d.2| ==> Plain(d.2[j])
  }

  lemma PaloAltoPlain() ensures DeviceEntryPlain(PaloAlto) {}
  lemma CiscoAsaPlain() ensures DeviceEntryPlain(CiscoAsa) {}
  lemma FortiGatePlain() ensures DeviceEntryPlain(FortiGate) {}
  lemma CheckPointPlain() ensures DeviceEntryPlain(CheckPoint) {}
  lemma PfSensePlain() ensures DeviceEntryPlain(PfSense) {}

  lemma DeviceTablePlain(i: nat)
    requires i < |Vendors|
    ensures DeviceEntryPlain(Vendors[i])
  {
    PaloAltoPlain();
    CiscoAsaPlain();
    FortiGatePlain();
    CheckPointPlain();
    PfSensePlain();
  }

  /** Vendor, product and version never hold a pipe or a backslash. */
  lemma DevicePlain(vendor: string, product: string, version: string)
    requires KnownDevice(vendor, product, version)
    ensures Plain(vendor) && Plain(product) && Plain(version)
  {
    var i :| 0 <= i < |Vendors| && Vendors[i].0 == vendor && Vendors[i].1 == product && version in Vendors[i].2;
    DeviceTablePlain(i);
  }

  // ---------------------------------------------------------------------
  // Extension keys
  // ---------------------------------------------------------------------

  /** Appending keeps entries distinct exactly when both parts are and they share none. */
  lemma DistinctAppend(x: seq<string>, y: seq<string>)
    ensures Distinct(x + y) <==>
      Distinct(x) && Distinct(y) && forall i, j :: 0 <= i < |x| && 0 <= j < |y| ==> x[i] != y[j]
  {
    if Distinct(x + y) {
      forall i, j | 0 <= i < |x| && 0 <= j < |y| ensures x[i] != y[j] {
        assert (x + y)[i] == x[i] && (x + y)[|x| + j] == y[j];
      }
      forall a, b | 0 <= a < b < |y| ensures y[a] != y[b] {
        assert (x + y)[|x| + a] == y[a] && (x + y)[|x| + b] == y[b];
      }
      forall a, b | 0 <= a < b < |x| ensures x[a] != x[b] {
        assert (x + y)[a] == x[a] && (x + y)[b] == x[b];
      }
    }
  }

  /**
    Keys drawn from a list without repetition, in its order, leaving out the
    optional middle or last part, are still without repetition.
  */
  lemma OptionalKeys(a: seq<string>, b: seq<string>, c: seq<string>, keepB: bool, keepC: bool)
    requires Distinct(a + b + c)
    ensures Distinct(a + (if keepB then b else []) + (if keepC then c else []))
    ensures forall k :: k in a + (if keepB then b else []) + (if keepC then c else []) ==> k in a + b + c
  {
    DistinctAppend(a + b, c);
    DistinctAppend(a, b);
    var b' := if keepB then b else [];
    var c' := if keepC then c else [];
    DistinctAppend(a, b');
    assert forall i, j :: 0 <= i < |a + b'| && 0 <= j < |c'| ==> (a + b')[i] != c'[j] by {
      forall i, j | 0 <= i < |a + b'| && 0 <= j < |c'| ensures (a + b')[i] != c'[j] {
        assert (a + b')[i] == (a + b)[i];
      }
    }
    DistinctAppend(a + b', c');
  }

  // ---------------------------------------------------------------------
  // _format_cef
  // ---------------------------------------------------------------------

  /** _format_cef: the ext_parts loop, the space join and the pipe join. */
  method FormatCef(vendor: string, product: string, version: string, classId: string, name: string,
                   severity: int, extensions: seq<(string, string)>) returns (line: string)
    ensures line == CefLine(vendor, product, version, classId, name, severity, extensions)
  {
    var extParts: seq<string> := [];
    for i := 0 to |extensions|
      invariant extParts == ExtParts(extensions[..i])
    {
      assert extensions[..i + 1] == extensions[..i] + [extensions[i]];
      var (key, value) := extensions[i];
      extParts := extParts + [key + "=" + Escape(value)];
    }
    assert extensions[..|extensions|] == extensions;
    var extensionsStr := Join(" ", extParts);
    line := Join("|", ["CEF:0", vendor, product, version, classId, name, IntStr(severity), extensionsStr]);
  }

  // ---------------------------------------------------------------------
  // TRAFFIC
  // ---------------------------------------------------------------------

  datatype TrafficRecord = TrafficRecord(
    vendor: string, product: string, version: string, allowed: bool, action: string, severity: int,
    name: string, srcInternal: bool, src: Ipv4, dst: Ipv4, proto: string, service: Option<nat>,
    spt: int, dpt: int, outBytes: int, inBytes: int, rt: string, direction: string, connection: int,
    app: Option<string>, zones: Option<(string, string)>)

  /** The keys a TRAFFIC event always carries, in insertion order. */
  const TrafficCoreKeys: seq<string> := [
    "rt", "src", "dst", "spt", "dpt", "proto", "act", "out", "in", "deviceDirection", "cn1", "cn1Label"]
  const ZoneKeys: seq<string> := ["deviceInboundInterface", "deviceOutboundInterface"]

  function TrafficCoreValues(t: TrafficRecord): (vs: seq<string>)
    ensures |vs| == |TrafficCoreKeys|
  {
    [t.rt, t.src.Dotted(), t.dst.Dotted(), IntStr(t.spt), IntStr(t.dpt), t.proto, t.action,
     IntStr(t.outBytes), IntStr(t.inBytes), t.direction, IntStr(t.connection), "ConnectionID"]
  }

  function TrafficCore(t: TrafficRecord): seq<(string, string)>
  {
    Pairs(TrafficCoreKeys, TrafficCoreValues(t))
  }

  function AppExtension(app: Option<string>): seq<(string, string)>
  {
    if app.Some? then Pairs(["app"], [app.value]) else []
  }

  function ZoneExtensions(zones: Option<(string, string)>): seq<(string, string)>
  {
    if zones.Some? then Pairs(ZoneKeys, [zones.value.0, zones.value.1]) else []
  }

  function TrafficExtensions(t: TrafficRecord): seq<(string, string)>
  {
    TrafficCore(t) + AppExtension(t.app) + ZoneExtensions(t.zones)
  }

  /** Allowed traffic is low severity with an allow action; denied traffic is the opposite. */
  predicate VerdictConsistent(allowed: bool, action: string, severity: int, name: string)
  {
    (allowed ==> severity in [1, 2, 3] && name == "traffic-allowed" && action in AllowActions) &&
    (!allowed ==> severity in [5, 6, 7] && name == "traffic-denied" && action in DenyActions)
  }

  /**
    Ports exist only for TCP and UDP: spt is ephemeral, and dpt is the chosen
    service's port when that service runs over the same protocol.
  */
  predicate PortsConsistent(proto: string, service: Option<nat>, spt: int, dpt: int)
  {
    if proto == "TCP" || proto == "UDP" then
      1024 <= spt <= 65535 &&
      match service
      case Some(i) =>
        i < |Services| && (Services[i].2 == proto ==> dpt == Services[i].1) &&
        (Services[i].2 != proto ==> dpt in CommonPorts)
      case None => dpt in CommonPorts || 1024 <= dpt <= 65535
    else spt == 0 && dpt == 0 && service.None?
  }

  /** An internal source is a generated private address; an external one talks to a private one. */
  predicate EndpointsConsistent(srcInternal: bool, src: Ipv4, dst: Ipv4)
  {
    (srcInternal ==> GeneratedPrivate(src) && (GeneratedPrivate(dst) || !InRfc1918(dst))) &&
    (!srcInternal ==> !InRfc1918(src) && GeneratedPrivate(dst))
  }

  predicate TrafficConsistent(t: TrafficRecord)
  {
    KnownDevice(t.vendor, t.product, t.version) &&
    VerdictConsistent(t.allowed, t.action, t.severity, t.name) &&
    EndpointsConsistent(t.srcInternal, t.src, t.dst) &&
    t.proto in Protocols && PortsConsistent(t.proto, t.service, t.spt, t.dpt) &&
    100 <= t.outBytes <= 1000000 && 100 <= t.inBytes <= 1000000 &&
    (t.direction == "0" || t.direction == "1") && 1 <= t.connection <= 999999 &&
    (t.app.Some? ==> t.app.value in Applications) &&
    (t.zones.Some? ==> t.zones.value.0 in Zones && t.zones.value.1 in Zones)
  }

  function TrafficLine(t: TrafficRecord): string
  {
    CefLine(t.vendor, t.product, t.version, "TRAFFIC", t.name, t.severity, TrafficExtensions(t))
  }

  lemma TrafficKeysDistinct()
    ensures Distinct(TrafficCoreKeys + ["app"] + ZoneKeys)
  {
  }

  lemma TrafficKeysPlain()
    ensures forall k :: k in TrafficCoreKeys + ["app"] + ZoneKeys ==> Plain(k)
  {
  }

  /** No TRAFFIC key is inserted twice, and every key is plain. */
  lemma TrafficKeys(t: TrafficRecord)
    ensures Distinct(Keys(TrafficExtensions(t))) && PlainKeys(TrafficExtensions(t))
  {
    var app := AppExtension(t.app);
    var zones := ZoneExtensions(t.zones);
    KeysConcat(TrafficCore(t) + app, zones);
    KeysConcat(TrafficCore(t), app);
    KeysOfPairs(TrafficCoreKeys, TrafficCoreValues(t));
    if t.app.Some? { KeysOfPairs(["app"], [t.app.value]); }
    if t.zones.Some? { KeysOfPairs(ZoneKeys, [t.zones.value.0, t.zones.value.1]); }
    TrafficKeysDistinct();
    TrafficKeysPlain();
    OptionalKeys(TrafficCoreKeys, ["app"], ZoneKeys, t.app.Some?, t.zones.Some?);
  }

  // ---------------------------------------------------------------------
  // THREAT
  // ---------------------------------------------------------------------

  datatype ThreatRecord = ThreatRecord(
    vendor: string, product: string, version: string, category: string, threatId: int, severity: int,
    src: Ipv4, dst: Ipv4, proto: string, spt: int, dpt: int, rt: string, threatName: string,
    action: string, request: Option<string>, file: Option<(string, string)>)

  /** The keys a THREAT event always carries, in insertion order. */
  const ThreatCoreKeys: seq<string> := [
    "rt", "src", "dst", "spt", "dpt", "proto", "act", "cat", "cs1", "cs1Label", "cn1", "cn1Label",
    "deviceDirection"]
  const FileKeys: seq<string> := ["fname", "fileHash"]

  function ThreatCoreValues(t: ThreatRecord): (vs: seq<string>)
    ensures |vs| == |ThreatCoreKeys|
  {
    [t.rt, t.src.Dotted(), t.dst.Dotted(), IntStr(t.spt), IntStr(t.dpt), t.proto, t.action, t.category,
     t.threatName, "ThreatName", IntStr(t.threatId), "ThreatID", "0"]
  }

  function ThreatCore(t: ThreatRecord): seq<(string, string)>
  {
    Pairs(ThreatCoreKeys, ThreatCoreValues(t))
  }

  function RequestExtension(request: Option<string>): seq<(string, string)>
  {
    if request.Some? then Pairs(["request"], [request.value]) else []
  }

  function FileExtensions(file: Option<(string, string)>): seq<(string, string)>
  {
    if file.Some? then Pairs(FileKeys, [file.value.0, file.value.1]) else []
  }

  function ThreatExtensions(t: ThreatRecord): seq<(string, string)>
  {
    ThreatCore(t) + RequestExtension(t.request) + FileExtensions(t.file)
  }

  /** A malware or virus category, for which the event names a file. */
  predicate CarriesFile(category: string)
  {
    Contains(category, "malware") || Contains(category, "virus")
  }

  predicate ThreatConsistent(t: ThreatRecord)
  {
    KnownDevice(t.vendor, t.product, t.version) && t.category in ThreatCategories &&
    10000 <= t.threatId <= 99999 && 7 <= t.severity <= 10 &&
    !InRfc1918(t.src) && GeneratedPrivate(t.dst) && t.proto in ["TCP", "UDP", "ICMP"] &&
    (if t.proto == "ICMP" then t.spt == 0 && t.dpt == 0 else 1024 <= t.spt <= 65535 && t.dpt in CommonPorts) &&
    t.threatName in ThreatNames && t.action in ThreatActions &&
    (Contains(t.category, "url") ==> t.request.Some?) &&
    (t.request.Some? ==> t.request.value in MaliciousUrls) &&
    (t.file.Some? <==> CarriesFile(t.category)) &&
    (t.file.Some? ==> t.file.value.0 in MalwareFiles && |t.file.value.1| == 64 && AllLowerHex(t.file.value.1))
  }

  function ThreatLine(t: ThreatRecord): string
  {
    CefLine(t.vendor, t.product, t.version, "THREAT", "threat-" + t.category, t.severity, ThreatExtensions(t))
  }

  lemma ThreatKeysDistinct()
    ensures Distinct(ThreatCoreKeys + ["request"] + FileKeys)
  {
  }

  lemma ThreatKeysPlain()
    ensures forall k :: k in ThreatCoreKeys + ["request"] + FileKeys ==> Plain(k)
  {
  }

  /** No THREAT key is inserted twice, and every key is plain. */
  lemma ThreatKeys(t: ThreatRecord)
    ensures Distinct(Keys(ThreatExtensions(t))) && PlainKeys(ThreatExtensions(t))
  {
    var request := RequestExtension(t.request);
    var file := FileExtensions(t.file);
    KeysConcat(ThreatCore(t) + request, file);
    KeysConcat(ThreatCore(t), request);
    KeysOfPairs(ThreatCoreKeys, ThreatCoreValues(t));
    if t.request.Some? { KeysOfPairs(["request"], [t.request.value]); }
    if t.file.Some? { KeysOfPairs(FileKeys, [t.file.value.0, t.file.value.1]); }
    ThreatKeysDistinct();
    ThreatKeysPlain();
    OptionalKeys(ThreatCoreKeys, ["request"], FileKeys, t.request.Some?, t.file.Some?);
  }

  lemma HexDigitsLowerHex()
    ensures forall c :: c in HexDigits ==> IsLowerHex(c)
  {
  }

  /** The THREAT name "threat-<category>" is plain. */
  lemma ThreatNamePlain(category: string)
    requires category in ThreatCategories
    ensures Plain("threat-" + category)
  {
    assert Plain(category);
    PlainConcat("threat-", category);
  }

  // ---------------------------------------------------------------------
  // SYSTEM
  // ---------------------------------------------------------------------

  datatype SystemRecord = SystemRecord(
    vendor: string, product: string, version: string, eventId: string, name: string, severity: int,
    rt: string, dvc: Ipv4, hostNumber: int, admin: Option<(string, Ipv4)>, days: int, percent: int)

  const SystemCoreKeys: seq<string> := ["rt", "dvc", "dvchost"]
  const AdminKeys: seq<string> := ["suser", "src"]

  function SystemCore(s: SystemRecord): seq<(string, string)>
  {
    Pairs(SystemCoreKeys, [s.rt, s.dvc.Dotted(), Hostname("fw", s.hostNumber)])
  }

  function AdminExtensions(admin: Option<(string, Ipv4)>): seq<(string, string)>
  {
    if admin.Some? then Pairs(AdminKeys, [admin.value.0, admin.value.1.Dotted()]) else []
  }

  function MessageExtension(s: SystemRecord): seq<(string, string)>
  {
    Pairs(["msg"], [SystemMessage(s.eventId, s.days, s.percent)])
  }

  function SystemExtensions(s: SystemRecord): seq<(string, string)>
  {
    SystemCore(s) + AdminExtensions(s.admin) + MessageExtension(s)
  }

  /** The name and severity come with the event id; suser and src exactly on admin events. */
  predicate SystemConsistent(s: SystemRecord)
  {
    KnownDevice(s.vendor, s.product, s.version) && (s.eventId, s.name, s.severity) in SystemEvents &&
    GeneratedPrivate(s.dvc) && 1 <= s.hostNumber <= 100 &&
    (s.admin.Some? <==> s.eventId in AdminEvents) &&
    (s.admin.Some? ==> s.admin.value.0 in Admins && GeneratedPrivate(s.admin.value.1)) &&
    1 <= s.days <= 30 && 85 <= s.percent <= 95
  }

  function SystemLine(s: SystemRecord): string
  {
    CefLine(s.vendor, s.product, s.version, "SYSTEM", s.name, s.severity, SystemExtensions(s))
  }

  lemma SystemKeyNames()
    ensures Distinct(SystemCoreKeys + AdminKeys + ["msg"])
    ensures forall k :: k in SystemCoreKeys + AdminKeys + ["msg"] ==> Plain(k)
  {
  }

  /** No SYSTEM key is inserted twice, and every key is plain. */
  lemma SystemKeys(s: SystemRecord)
    ensures Distinct(Keys(SystemExtensions(s))) && PlainKeys(SystemExtensions(s))
  {
    var admin := AdminExtensions(s.admin);
    KeysConcat(SystemCore(s) + admin, MessageExtension(s));
    KeysConcat(SystemCore(s), admin);
    KeysOfPairs(SystemCoreKeys, [s.rt, s.dvc.Dotted(), Hostname("fw", s.hostNumber)]);
    if s.admin.Some? { KeysOfPairs(AdminKeys, [s.admin.value.0, s.admin.value.1.Dotted()]); }
    KeysOfPairs(["msg"], [SystemMessage(s.eventId, s.days, s.percent)]);
    SystemKeyNames();
    OptionalKeys(SystemCoreKeys, AdminKeys, ["msg"], s.admin.Some?, true);
  }

  lemma SystemNamesPlainLow()
    ensures forall i :: 0 <= i < 4 ==> Plain(SystemEvents[i].1)
  {
  }

  lemma SystemNamesPlainHigh()
    ensures forall i :: 4 <= i < 8 ==> Plain(SystemEvents[i].1)
  {
  }

  /** Every SYSTEM event name is plain. */
  lemma SystemNamePlain(e: (string, string, int))
    requires e in SystemEvents
    ensures Plain(e.1)
  {
    SystemNamesPlainLow();
    SystemNamesPlainHigh();
  }

  // ---------------------------------------------------------------------
  // The generator
  // ---------------------------------------------------------------------

  class CefFirewallGenerator {
    const base: BaseGenerator

    constructor (base: BaseGenerator)
      ensures this.base == base
    {
      this.base := base;
    }

    /** rt: generate_datetime() formatted as "%b %d %Y %H:%M:%S". */
    ghost predicate Stamped(rt: string)
    {
      exists t :: base.currentTime - 7 * SecondsPerDay * MicrosPerSecond <= t <= base.currentTime &&
        rt == base.strftime(TimeFormat, t)
    }

    /** What generate_log promises of one line: eight segments, the fifth naming its class. */
    predicate Emitted(line: string, c: EventClass)
    {
      c in EventClasses && |SplitBare(line)| == 8 && SplitBare(line)[0] == "CEF:0" && SplitBare(line)[4] == ClassId(c)
    }

    /** generate_logs: count lines, each one generate_log call, in call order. */
    method GenerateLogs(count: int) returns (logs: seq<string>, classes: seq<EventClass>)
      modifies base.rng, base.faker
      ensures |logs| == |classes| == (if count < 0 then 0 else count)
      ensures forall k :: 0 <= k < |logs| ==> Emitted(logs[k], classes[k])
    {
      var n := if count < 0 then 0 else count;
      logs, classes := [], [];
      for i := 0 to n
        invariant |logs| == |classes| == i
        invariant forall k :: 0 <= k < i ==> Emitted(logs[k], classes[k])
      {
        var line, c := GenerateLog();
        assert Emitted(line, c);
        logs, classes := logs + [line], classes + [c];
      }
    }

    /**
      generate_log: a weighted pick of the event class, then its builder; the
      line splits on unescaped pipes into its eight segments, the fifth naming
      the class.
    */
    method GenerateLog() returns (line: string, c: EventClass)
      modifies base.rng, base.faker
      ensures c in EventClasses
      ensures |SplitBare(line)| == 8 && SplitBare(line)[0] == "CEF:0" && SplitBare(line)[4] == ClassId(c)
    {
      assert Sum(EventWeights) > 0.0;
      var picked := base.WeightedChoice(EventClasses, EventWeights);
      c := picked.value;
      match c {
        case Traffic =>
          var t;
          line, t := TrafficEvent();
          TrafficSegments(t);
        case Threat =>
          var t;
          line, t := ThreatEvent();
          ThreatSegments(t);
        case System =>
          var s;
          line, s := SystemEvent();
          SystemSegments(s);
      }
    }

    /** random.choice(list(self.vendors.items())), then one of its versions. */
    method DeviceDraw() returns (vendor: string, product: string, version: string)
      modifies base.rng
      ensures KnownDevice(vendor, product, version)
    {
      var i := base.rng.RandBelow(|Vendors|);
      var versions;
      vendor, product, versions := Vendors[i].0, Vendors[i].1, Vendors[i].2;
      version := base.rng.Choice(versions);
    }

    /** generate_datetime() and strftime("%b %d %Y %H:%M:%S"). */
    method Timestamp() returns (rt: string)
      modifies base.rng
      ensures Stamped(rt)
    {
      var t := base.GenerateDatetime(7);
      rt := base.strftime(TimeFormat, t);
    }

    /** _generate_traffic_event */
    method TrafficEvent() returns (line: string, t: TrafficRecord)
      modifies base.rng, base.faker
      ensures TrafficConsistent(t) && Stamped(t.rt)
      ensures line == TrafficLine(t)
    {
      t := TrafficDraw();
      var extensions := TrafficCore(t);
      var app, zones;
      extensions, app, zones := TrafficExtras(extensions);
      t := t.(app := app, zones := zones);
      line := FormatCef(t.vendor, t.product, t.version, "TRAFFIC", t.name, t.severity, extensions);
    }

    /** Every TRAFFIC field but the optional app and zones, in draw order. */
    method TrafficDraw() returns (t: TrafficRecord)
      modifies base.rng, base.faker
      ensures TrafficConsistent(t) && Stamped(t.rt) && t.app.None? && t.zones.None?
    {
      var vendor, product, version := DeviceDraw();
      var allowed, action, severity, name := TrafficVerdict();
      var srcInternal, src, dst := TrafficEndpoints();
      var proto, service, spt, dpt := TrafficPorts();
      var outBytes, inBytes, rt, direction, connection := TrafficCounters();
      t := TrafficRecord(vendor, product, version, allowed, action, severity, name, srcInternal, src, dst,
        proto, service, spt, dpt, outBytes, inBytes, rt, direction, connection, None, None);
    }

    /** Byte counts, the time, the direction and the connection id. */
    method TrafficCounters() returns (outBytes: int, inBytes: int, rt: string, direction: string, connection: int)
      modifies base.rng
      ensures 100 <= outBytes <= 1000000 && 100 <= inBytes <= 1000000 && Stamped(rt)
      ensures (direction == "0" || direction == "1") && 1 <= connection <= 999999
    {
      outBytes := base.rng.RandInt(100, 1000000);
      inBytes := base.rng.RandInt(100, 1000000);
      rt := Timestamp();
      direction := base.rng.Choice(["0", "1"]);
      connection := base.rng.RandInt(1, 999999);
    }

    /** allowed = random.random() > 0.3, then the action and severity for the verdict. */
    method TrafficVerdict() returns (allowed: bool, action: string, severity: int, name: string)
      modifies base.rng
      ensures VerdictConsistent(allowed, action, severity, name)
    {
      var u := base.rng.Random();
      allowed := u > 0.3;
      if allowed {
        action := base.rng.Choice(AllowActions);
        severity := base.rng.Choice([1, 2, 3]);
        name := "traffic-allowed";
      } else {
        action := base.rng.Choice(DenyActions);
        severity := base.rng.Choice([5, 6, 7]);
        name := "traffic-denied";
      }
    }

    /** An internal source talks mostly to external hosts; an external one to an internal host. */
    method TrafficEndpoints() returns (srcInternal: bool, src: Ipv4, dst: Ipv4)
      modifies base.rng, base.faker
      ensures EndpointsConsistent(srcInternal, src, dst)
    {
      var u := base.rng.Random();
      srcInternal := u > 0.3;
      var text;
      text, src := base.GenerateIpAddress(srcInternal);
      if srcInternal {
        var v := base.rng.Random();
        text, dst := base.GenerateIpAddress(!(v > 0.3));
      } else {
        text, dst := base.GenerateIpAddress(true);
      }
    }

    /** The weighted protocol, then the ports it has. */
    method TrafficPorts() returns (proto: string, service: Option<nat>, spt: int, dpt: int)
      modifies base.rng
      ensures proto in Protocols && PortsConsistent(proto, service, spt, dpt)
    {
      assert Sum(ProtocolWeights) > 0.0;
      var picked := base.WeightedChoice(Protocols, ProtocolWeights);
      proto := picked.value;
      service := None;
      if proto == "TCP" || proto == "UDP" {
        var u := base.rng.Random();
        if u > 0.5 {
          var i := base.rng.RandBelow(|Services|);
          service := Some(i);
          if Services[i].2 == proto {
            dpt := Services[i].1;
          } else {
            dpt := base.GeneratePort(true);
          }
        } else {
          var v := base.rng.Random();
          dpt := base.GeneratePort(v > 0.7);
        }
        spt := base.GeneratePort(false);
      } else {
        spt, dpt := 0, 0;
      }
    }

    /** The optional app and zone keys, inserted after the others. */
    method TrafficExtras(extensions: seq<(string, string)>) returns (
      extended: seq<(string, string)>, app: Option<string>, zones: Option<(string, string)>)
      modifies base.rng
      ensures extended == extensions + AppExtension(app) + ZoneExtensions(zones)
      ensures app.Some? ==> app.value in Applications
      ensures zones.Some? ==> zones.value.0 in Zones && zones.value.1 in Zones
    {
      extended := extensions;
      app, zones := None, None;
      var u := base.rng.Random();
      if u > 0.5 {
        var a := base.rng.Choice(Applications);
        extended := extended + Pairs(["app"], [a]);
        app := Some(a);
      }
      var v := base.rng.Random();
      if v > 0.5 {
        var inbound := base.rng.Choice(Zones);
        var outbound := base.rng.Choice(Zones);
        extended := extended + Pairs(ZoneKeys, [inbound, outbound]);
        zones := Some((inbound, outbound));
      }
    }

    /** _generate_threat_event */
    method ThreatEvent() returns (line: string, t: ThreatRecord)
      modifies base.rng, base.faker
      ensures ThreatConsistent(t) && Stamped(t.rt)
      ensures line == ThreatLine(t)
    {
      t := ThreatDraw();
      var extensions := ThreatCore(t);
      var request;
      extensions, request := RequestDraw(t.category, extensions);
      var file;
      extensions, file := FileDraw(t.category, extensions);
      t := t.(request := request, file := file);
      line := FormatCef(t.vendor, t.product, t.version, "THREAT", "threat-" + t.category, t.severity, extensions);
    }

    /** Every THREAT field but the optional request and file, in draw order. */
    method ThreatDraw() returns (t: ThreatRecord)
      modifies base.rng, base.faker
      ensures KnownDevice(t.vendor, t.product, t.version) && t.category in ThreatCategories
      ensures 10000 <= t.threatId <= 99999 && 7 <= t.severity <= 10
      ensures !InRfc1918(t.src) && GeneratedPrivate(t.dst) && t.proto in ["TCP", "UDP", "ICMP"]
      ensures if t.proto == "ICMP" then t.spt == 0 && t.dpt == 0 else 1024 <= t.spt <= 65535 && t.dpt in CommonPorts
      ensures t.threatName in ThreatNames && t.action in ThreatActions && Stamped(t.rt)
      ensures t.request.None? && t.file.None?
    {
      var vendor, product, version := DeviceDraw();
      var category := base.rng.Choice(ThreatCategories);
      var threatId := base.rng.RandInt(10000, 99999);
      var severity := base.rng.RandInt(7, 10);
      var srcText, src := base.GenerateIpAddress(false);
      var dstText, dst := base.GenerateIpAddress(true);
      var proto, spt, dpt := ThreatPorts();
      var rt := Timestamp();
      var threatName := base.rng.Choice(ThreatNames);
      var action := base.rng.Choice(ThreatActions);
      t := ThreatRecord(vendor, product, version, category, threatId, severity, src, dst, proto, spt, dpt,
        rt, threatName, action, None, None);
    }

    method ThreatPorts() returns (proto: string, spt: int, dpt: int)
      modifies base.rng
      ensures proto in ["TCP", "UDP", "ICMP"]
      ensures if proto == "ICMP" then spt == 0 && dpt == 0 else 1024 <= spt <= 65535 && dpt in CommonPorts
    {
      proto := base.rng.Choice(["TCP", "UDP", "ICMP"]);
      if proto == "TCP" || proto == "UDP" {
        dpt := base.GeneratePort(true);
        spt := base.GeneratePort(false);
      } else {
        spt, dpt := 0, 0;
      }
    }

    /**
      The request key for url categories, and for three in ten others; the
      `or` draws no number when the category already decides.
    */
    method RequestDraw(category: string, extensions: seq<(string, string)>) returns (
      extended: seq<(string, string)>, request: Option<string>)
      modifies base.rng
      ensures extended == extensions + RequestExtension(request)
      ensures Contains(category, "url") ==> request.Some?
      ensures request.Some? ==> request.value in MaliciousUrls
    {
      extended := extensions;
      request := None;
      var withUrl := Contains(category, "url");
      if !withUrl {
        var u := base.rng.Random();
        withUrl := u > 0.7;
      }
      if withUrl {
        var url := base.rng.Choice(MaliciousUrls);
        extended := extended + Pairs(["request"], [url]);
        request := Some(url);
      }
    }

    /** For malware and virus categories: a file name and a 64-digit lower-case hex hash. */
    method FileDraw(category: string, extensions: seq<(string, string)>) returns (
      extended: seq<(string, string)>, file: Option<(string, string)>)
      modifies base.rng
      ensures extended == extensions + FileExtensions(file)
      ensures file.Some? <==> CarriesFile(category)
      ensures file.Some? ==> file.value.0 in MalwareFiles && |file.value.1| == 64 && AllLowerHex(file.value.1)
    {
      extended := extensions;
      file := None;
      if CarriesFile(category) {
        var fname := base.rng.Choice(MalwareFiles);
        var hash := base.rng.Choices(HexDigits, 64);
        HexDigitsLowerHex();
        extended := extended + Pairs(FileKeys, [fname, hash]);
        file := Some((fname, hash));
      }
    }

    /** _generate_system_event */
    method SystemEvent() returns (line: string, s: SystemRecord)
      modifies base.rng, base.faker
      ensures SystemConsistent(s) && Stamped(s.rt)
      ensures line == SystemLine(s)
    {
      var dvcText, host;
      s, dvcText, host := SystemDraw();
      var extensions := Pairs(SystemCoreKeys, [s.rt, dvcText, host]);
      assert extensions == SystemCore(s);
      if s.admin.Some? {
        extensions := extensions + Pairs(AdminKeys, [s.admin.value.0, s.admin.value.1.Dotted()]);
      }
      assert extensions == SystemCore(s) + AdminExtensions(s.admin);
      extensions := extensions + Pairs(["msg"], [SystemMessage(s.eventId, s.days, s.percent)]);
      assert extensions == SystemExtensions(s);
      line := FormatCef(s.vendor, s.product, s.version, "SYSTEM", s.name, s.severity, extensions);
    }

    /** Every SYSTEM field in draw order, with the dvc and dvchost texts. */
    method SystemDraw() returns (s: SystemRecord, dvcText: string, host: string)
      modifies base.rng, base.faker
      ensures SystemConsistent(s) && Stamped(s.rt)
      ensures dvcText == s.dvc.Dotted() && host == Hostname("fw", s.hostNumber)
    {
      var vendor, product, version := DeviceDraw();
      var triple := base.rng.Choice(SystemEvents);
      var (eventId, name, severity) := triple;
      var rt := Timestamp();
      var dvc;
      dvcText, dvc := base.GenerateIpAddress(true);
      var p, n;
      host, p, n := base.GenerateHostname(Some("fw"));
      var admin := AdminDraw(eventId);
      var days := base.rng.RandInt(1, 30);
      var percent := base.rng.RandInt(85, 95);
      s := SystemRecord(vendor, product, version, eventId, name, severity, rt, dvc, n, admin, days, percent);
    }

    /** For login, logout and config changes: an admin user and a private source address. */
    method AdminDraw(eventId: string) returns (admin: Option<(string, Ipv4)>)
      modifies base.rng, base.faker
      ensures admin.Some? <==> eventId in AdminEvents
      ensures admin.Some? ==> admin.value.0 in Admins && GeneratedPrivate(admin.value.1)
    {
      admin := None;
      if eventId in AdminEvents {
        var user := base.rng.Choice(Admins);
        var text, src := base.GenerateIpAddress(true);
        admin := Some((user, src));
      }
    }
  }

  /** The TRAFFIC names are plain. */
  lemma VerdictNamePlain(allowed: bool, action: string, severity: int, name: string)
    requires VerdictConsistent(allowed, action, severity, name)
    ensures Plain(name)
  {
  }

  /** A TRAFFIC line has eight segments, the fifth TRAFFIC. */
  lemma TrafficSegments(t: TrafficRecord)
    requires KnownDevice(t.vendor, t.product, t.version)
    requires VerdictConsistent(t.allowed, t.action, t.severity, t.name)
    ensures |SplitBare(TrafficLine(t))| == 8 && SplitBare(TrafficLine(t))[0] == "CEF:0" &&
      SplitBare(TrafficLine(t))[4] == "TRAFFIC"
  {
    DevicePlain(t.vendor, t.product, t.version);
    TrafficKeys(t);
    VerdictNamePlain(t.allowed, t.action, t.severity, t.name);
    assert Plain("TRAFFIC");
    CefLineShape(t.vendor, t.product, t.version, "TRAFFIC", t.name, t.severity, TrafficExtensions(t));
  }

  /** A THREAT line has eight segments, the fifth THREAT. */
  lemma ThreatSegments(t: ThreatRecord)
    requires KnownDevice(t.vendor, t.product, t.version) && t.category in ThreatCategories
    ensures |SplitBare(ThreatLine(t))| == 8 && SplitBare(ThreatLine(t))[0] == "CEF:0" &&
      SplitBare(ThreatLine(t))[4] == "THREAT"
  {
    DevicePlain(t.vendor, t.product, t.version);
    ThreatKeys(t);
    ThreatNamePlain(t.category);
    assert Plain("THREAT");
    CefLineShape(t.vendor, t.product, t.version, "THREAT", "threat-" + t.category, t.severity, ThreatExtensions(t));
  }

  /** A SYSTEM line has eight segments, the fifth SYSTEM. */
  lemma SystemSegments(s: SystemRecord)
    requires KnownDevice(s.vendor, s.product, s.version) && (s.eventId, s.name, s.severity) in SystemEvents
    ensures |SplitBare(SystemLine(s))| == 8 && SplitBare(SystemLine(s))[0] == "CEF:0" &&
      SplitBare(SystemLine(s))[4] == "SYSTEM"
  {
    DevicePlain(s.vendor, s.product, s.version);
    SystemKeys(s);
    SystemNamePlain((s.eventId, s.name, s.severity));
    assert Plain("SYSTEM");
    CefLineShape(s.vendor, s.product, s.version, "SYSTEM", s.name, s.severity, SystemExtensions(s));
  }
}
