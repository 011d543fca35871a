/**
  The Windows Security event generator: twelve event ids, each rendered as
  "EventID=<id> Level=<level> Computer=<name> TimeGenerated=<ts> " followed by
  its "Key: Value" fields joined by "; " in insertion order. The fields each
  builder fills are an `Event` value; the draws that produce them follow the
  order in which Python evaluates the builder's statements and dict literal.
*/
module Windows {
  import opened Common
  import opened Text
  import opened Net
  import opened Random
  import opened Base
  import Fake

  const Domains: seq<string> := ["CORP", "ENTERPRISE", "DOMAIN", "CONTOSO"]
  const ComputerPrefixes: seq<string> := ["DC", "WS", "SRV", "FS", "EXCH", "SQL", "APP"]
  const WindowsUsers: seq<string> := [
    "Administrator", "admin", "john.doe", "jane.smith", "service_account", "backup_admin", "sql_service",
    "iis_apppool", "system", "network_service"]

  /** logon type code -> name */
  const LogonTypes: map<int, string> := map[
    2 := "Interactive", 3 := "Network", 4 := "Batch", 5 := "Service", 7 := "Unlock",
    8 := "NetworkCleartext", 10 := "RemoteInteractive", 11 := "CachedInteractive"]

  const SecurityGroups: seq<string> := [
    "Domain Admins", "Enterprise Admins", "Administrators", "Remote Desktop Users", "Backup Operators",
    "Account Operators", "Server Operators"]

  const FailureReasons: seq<string> := [
    "Unknown user name or bad password", "Account currently disabled",
    "Account logon time restriction violation", "User not allowed to logon at this computer",
    "Password has expired", "Account locked out"]

  /** failure reason -> (Status, Sub_Status) */
  const StatusCodes: map<string, (string, string)> := map[
    "Unknown user name or bad password" := ("0xC000006D", "0xC000006A"),
    "Account currently disabled" := ("0xC0000072", "0x0"),
    "Account logon time restriction violation" := ("0xC000006F", "0x0"),
    "User not allowed to logon at this computer" := ("0xC0000070", "0x0"),
    "Password has expired" := ("0xC0000071", "0x0"),
    "Account locked out" := ("0xC0000234", "0xC0000234")]

  const EventIds: seq<int> := [4624, 4625, 4634, 4672, 4720, 4732, 4740, 4768, 4776, 5140, 5156, 5157]
  const EventWeights: seq<real> := [0.35, 0.15, 0.20, 0.05, 0.02, 0.03, 0.02, 0.05, 0.05, 0.05, 0.02, 0.01]

  lemma EventWeightsPositive()
    ensures Sum(EventWeights) > 0.0
  {
  }

  lemma EventIdCases(id: int)
    requires id in EventIds
    ensures id == 4624 || id == 4625 || id == 4634 || id == 4672 || id == 4720 || id == 4732 ||
            id == 4740 || id == 4768 || id == 4776 || id == 5140 || id == 5156 || id == 5157
  {
  }

  const TimeFormat: string := "%m/%d/%Y %I:%M:%S %p"

  const SubjectAccounts: seq<string> := ["SYSTEM", "LOCAL SERVICE"]
  const Packages: seq<string> := ["Kerberos", "NTLM", "Negotiate"]
  const SuccessLogonTypes: seq<int> := [2, 3, 10, 5, 4]
  const SuccessLogonWeights: seq<real> := [0.2, 0.3, 0.3, 0.1, 0.1]
  const FailedLogonTypes: seq<int> := [2, 3, 10]
  const FailedLogonWeights: seq<real> := [0.2, 0.4, 0.4]
  const InvalidUsers: seq<string> := ["admin", "test", "guest", "user", "sqlserver"]
  const Privileges: seq<string> := [
    "SeSecurityPrivilege", "SeBackupPrivilege", "SeRestorePrivilege", "SeTakeOwnershipPrivilege",
    "SeDebugPrivilege", "SeSystemEnvironmentPrivilege", "SeLoadDriverPrivilege", "SeImpersonatePrivilege"]
  const Creators: seq<string> := ["Administrator", "admin", "hr_admin"]
  const GroupAdmins: seq<string> := ["Administrator", "admin"]
  const KerberosFailures: seq<string> := ["0x6", "0x12", "0x17", "0x18"]
  const EncryptionTypes: seq<string> := ["0x12", "0x17", "0x18"]
  const NtlmPackage: string := "MICROSOFT_AUTHENTICATION_PACKAGE_V1_0"
  const NtlmFailures: seq<string> := ["0xC0000064", "0xC000006A", "0xC0000234"]
  const Shares: seq<string> := [
    "\\\\*\\C$", "\\\\*\\ADMIN$", "\\\\*\\IPC$", "\\\\*\\SYSVOL", "\\\\*\\NETLOGON", "\\\\*\\Shared",
    "\\\\*\\Users"]
  const AccessMasks: seq<string> := ["0x1", "0x2", "0x3"]
  const AppPaths: seq<string> := [
    "\\device\\harddiskvolume2\\windows\\system32\\svchost.exe",
    "\\device\\harddiskvolume2\\program files\\microsoft sql server\\mssql\\binn\\sqlservr.exe",
    "\\device\\harddiskvolume2\\windows\\system32\\dns.exe",
    "\\device\\harddiskvolume2\\windows\\explorer.exe"]
  const Directions: seq<string> := ["Inbound", "Outbound"]
  const IpProtocols: seq<int> := [6, 17]

  // ---------------------------------------------------------------------
  // Computer names
  // ---------------------------------------------------------------------

  /** _get_computer_name draws a prefix and a number. */
  datatype Computer = Computer(prefix: string, number: nat)

  predicate ValidComputer(c: Computer)
  {
    c.prefix in ComputerPrefixes && 1 <= c.number <= 100
  }

  /** f"{prefix}-{n:03d}" */
  function ComputerName(c: Computer): string
  {
    c.prefix + "-" + ZeroPad(NatStr(c.number), 3)
  }

  /** Reads "<prefix>-<ddd>" back; None unless three digits follow the first dash. */
  function ParseComputerName(name: string): Option<Computer>
  {
    match SplitFirst(name, '-')
    case None => None
    case Some((prefix, digits)) =>
      if |digits| == 3 && AllDigits(digits) then Some(Computer(prefix, DigitsValue(digits))) else None
  }

  lemma PrefixesPlain()
    ensures forall p :: p in ComputerPrefixes ==> !HasChar(p, '-') && !HasChar(p, ' ')
  {
  }

  /** A number in [1, 100] pads to exactly three digits. */
  lemma PaddedNumber(n: nat)
    requires 1 <= n <= 100
    ensures |ZeroPad(NatStr(n), 3)| == 3 && AllDigits(ZeroPad(NatStr(n), 3))
    ensures DigitsValue(ZeroPad(NatStr(n), 3)) == n
  {
    if n < 10 {
      NatStrLength(n, 1);
    } else if n < 100 {
      NatStrLength(n, 2);
    } else {
      NatStrLength(n, 3);
    }
    DigitsValueZeroPad(NatStr(n), 3);
    NatStrRoundTrip(n);
  }

  /** The name reads back as the prefix and the number it was made of. */
  lemma ComputerNameRoundTrip(c: Computer)
    requires ValidComputer(c)
    ensures ParseComputerName(ComputerName(c)) == Some(c)
    ensures |ComputerName(c)| == |c.prefix| + 4
  {
    var digits := ZeroPad(NatStr(c.number), 3);
    PrefixesPlain();
    PaddedNumber(c.number);
    assert ComputerName(c) == c.prefix + ['-'] + digits;
    SplitFirstAt(c.prefix, digits, '-');
  }

  /** A computer name is a single token: it holds no space. */
  lemma ComputerNameHasNoSpace(c: Computer)
    requires ValidComputer(c)
    ensures !HasChar(ComputerName(c), ' ')
  {
    PrefixesPlain();
    PaddedNumber(c.number);
    assert !HasChar(ZeroPad(NatStr(c.number), 3), ' ');
  }

  // ---------------------------------------------------------------------
  // _format_event
  // ---------------------------------------------------------------------

  function FieldPart(field: (string, string)): string
  {
    field.0 + ": " + field.1
  }

  /** field_parts: one "Key: Value" per field, in order. */
  function FieldParts(fields: seq<(string, string)>): (parts: seq<string>)
    ensures |parts| == |fields|
    ensures forall i :: 0 <= i < |fields| ==> parts[i] == FieldPart(fields[i])
  {
    if fields == [] then [] else FieldParts(fields[..|fields| - 1]) + [FieldPart(fields[|fields| - 1])]
  }

  /**
    The line _format_event returns: the four header tokens, a space and the
    joined fields. Concatenation is associative; the bracketing follows the
    order in which a reader splits the tokens off.
  */
  function WindowsEvent(eventId: int, level: string, computer: string, timestamp: string,
                        fields: seq<(string, string)>): string
  {
    "EventID=" + IntStr(eventId) + " " +
    ("Level=" + level + " " +
     ("Computer=" + computer + " " +
      ("TimeGenerated=" + (timestamp + " " + Join("; ", FieldParts(fields))))))
  }

  /** Reads the event id, the level and the computer back from the first three tokens. */
  function ParseWindowsHeader(line: string): Option<(int, string, string)>
  {
    match SplitFirst(line, ' ')
    case None => None
    case Some((first, rest1)) =>
      match SplitFirst(rest1, ' ')
      case None => None
      case Some((second, rest2)) =>
        match SplitFirst(rest2, ' ')
        case None => None
        case Some((third, rest3)) =>
          if StartsWith(first, "EventID=") && StartsWith(second, "Level=") &&
             StartsWith(third, "Computer=") && StartsWith(rest3, "TimeGenerated=")
          then
            match ParseInt(first[8..])
            case None => None
            case Some(id) => Some((id, second[6..], third[9..]))
          else None
  }

  /** A line whose level and computer hold no space reads back as its id, level and computer. */
  lemma WindowsHeaderRoundTrip(eventId: int, level: string, computer: string, timestamp: string,
                               fields: seq<(string, string)>)
    requires !HasChar(level, ' ') && !HasChar(computer, ' ')
    ensures ParseWindowsHeader(WindowsEvent(eventId, level, computer, timestamp, fields)) ==
      Some((eventId, level, computer))
  {
    var first := "EventID=" + IntStr(eventId);
    var second := "Level=" + level;
    var third := "Computer=" + computer;
    var tail := timestamp + " " + Join("; ", FieldParts(fields));
    var rest3 := "TimeGenerated=" + tail;
    var rest2 := third + " " + rest3;
    var rest1 := second + " " + rest2;
    IntStrFree(eventId, ' ');
    assert !HasChar(first, ' ');
    assert !HasChar(second, ' ');
    assert !HasChar(third, ' ');
    SplitFirstAt(first, rest1, ' ');
    SplitFirstAt(second, rest2, ' ');
    SplitFirstAt(third, rest3, ' ');
    Concat("EventID=", IntStr(eventId));
    Concat("Level=", level);
    Concat("Computer=", computer);
    Concat("TimeGenerated=", tail);
    ParseIntRoundTrip(eventId);
  }

  /** The line of an event, written on computer c at ts with the level its id is written with. */
  function Rendered(e: Event, c: Computer, ts: string): string
  {
    WindowsEvent(EventId(e), ExpectedLevel(EventId(e)), ComputerName(c), ts, Fields(e))
  }

  /** The level each event id is written with: Warning for a lockout, Information otherwise. */
  function ExpectedLevel(eventId: int): string
  {
    if eventId == 4740 then "Warning" else "Information"
  }

  lemma LevelsHaveNoSpace(eventId: int)
    ensures !HasChar(ExpectedLevel(eventId), ' ')
  {
  }

  // ---------------------------------------------------------------------
  // Field values
  // ---------------------------------------------------------------------

  /** f"0x{n:X}" */
  function HexId(n: nat): string
  {
    "0x" + HexStr(n, true)
  }

  /** A logon id drawn from [0x100000, 0xFFFFFF] is "0x" and six upper-case hex digits. */
  lemma LogonIdShape(n: nat)
    requires 0x100000 <= n <= 0xFFFFFF
    ensures |HexId(n)| == 8 && HexId(n)[..2] == "0x" && AllUpperHex(HexId(n)[2..])
  {
    assert Pow16(5) == 0x100000 && Pow16(6) == 0x1000000;
    HexStrLength(n, true, 6);
    assert HexId(n)[2..] == HexStr(n, true);
  }

  /**
    f"{logon_type} ({logon_types[logon_type]})". Every builder draws a code
    that is in the table; an unknown code, where Python would raise KeyError,
    gives the empty string here.
  */
  function LogonTypeText(code: int): string
  {
    if code in LogonTypes then IntStr(code) + " (" + LogonTypes[code] + ")" else ""
  }

  /** Reads the code back from a Logon_Type value, checking that the name belongs to it. */
  function ParseLogonType(text: string): Option<int>
  {
    match SplitFirst(text, ' ')
    case None => None
    case Some((digits, rest)) =>
      match ParseInt(digits)
      case None => None
      case Some(code) => if code in LogonTypes && rest == "(" + LogonTypes[code] + ")" then Some(code) else None
  }

  lemma LogonTypeRoundTrip(code: int)
    requires code in LogonTypes
    ensures ParseLogonType(LogonTypeText(code)) == Some(code)
  {
    IntStrFree(code, ' ');
    assert LogonTypeText(code) == IntStr(code) + [' '] + ("(" + LogonTypes[code] + ")");
    SplitFirstAt(IntStr(code), "(" + LogonTypes[code] + ")", ' ');
    ParseIntRoundTrip(code);
  }

  /** Batch logons, code 4, are among the successful logon types and are named so. */
  lemma BatchLogon()
    ensures 4 in SuccessLogonTypes && LogonTypeText(4) == "4 (Batch)"
  {
    assert IntStr(4) == "4";
  }

  lemma LogonTypesKnown()
    ensures forall code :: code in SuccessLogonTypes ==> code in LogonTypes
    ensures forall code :: code in FailedLogonTypes ==> code in LogonTypes
  {
  }

  /** The Status code alone tells the failure reason. */
  lemma StatusIdentifiesReason(r1: string, r2: string)
    requires r1 in FailureReasons && r2 in FailureReasons
    requires StatusCodes[r1].0 == StatusCodes[r2].0
    ensures r1 == r2
  {
  }

  /** Sub_Status is set exactly for a bad password and a locked-out account. */
  lemma SubStatusSet(reason: string)
    requires reason in FailureReasons
    ensures StatusCodes[reason].1 != "0x0" <==>
      reason == "Unknown user name or bad password" || reason == "Account locked out"
  {
  }

  /** No failure code reads as the success code "0x0". */
  lemma FailureCodesNonZero()
    ensures forall r :: r in KerberosFailures ==> r != "0x0"
    ensures forall r :: r in NtlmFailures ==> r != "0x0"
  {
  }

  /** The four numbers of a Target_Security_ID. */
  datatype Sid = Sid(a: nat, b: nat, c: nat, d: nat)

  predicate SidInRange(s: Sid)
  {
    1000000000 <= s.a <= 9999999999 && 100000 <= s.b <= 999999 && 100000 <= s.c <= 999999 &&
    1000 <= s.d <= 9999
  }

  /** f"S-1-5-21-{a}-{b}-{c}-{d}" */
  function SidText(s: Sid): string
  {
    "S-1-5-21-" + (NatStr(s.a) + "-" + (NatStr(s.b) + "-" + (NatStr(s.c) + "-" + NatStr(s.d))))
  }

  lemma NatStrHasNoDash(n: nat)
    ensures !HasChar(NatStr(n), '-')
  {
    assert AllDigits(NatStr(n));
  }

  /** Numbers drawn from the four ranges print with 10, 6, 6 and 4 digits. */
  lemma SidNumberLengths(s: Sid)
    requires SidInRange(s)
    ensures |NatStr(s.a)| == 10 && |NatStr(s.b)| == 6 && |NatStr(s.c)| == 6 && |NatStr(s.d)| == 4
  {
    assert Pow10(9) == 1000000000 && Pow10(10) == 10000000000;
    assert Pow10(5) == 100000 && Pow10(6) == 1000000;
    assert Pow10(3) == 1000 && Pow10(4) == 10000;
    NatStrLength(s.a, 10);
    NatStrLength(s.b, 6);
    NatStrLength(s.c, 6);
    NatStrLength(s.d, 4);
  }

  /** Four dash-free numbers joined by '-' split back into the four. */
  lemma SidNumbersSplit(a: string, b: string, c: string, d: string)
    requires !HasChar(a, '-') && !HasChar(b, '-') && !HasChar(c, '-') && !HasChar(d, '-')
    ensures Split(a + "-" + (b + "-" + (c + "-" + d)), '-') == [a, b, c, d]
  {
    var t3 := c + "-" + d;
    var t2 := b + "-" + t3;
    SplitFree(d, '-');
    SplitPrefix(c, d, '-');
    SplitPrefix(b, t3, '-');
    SplitPrefix(a, t2, '-');
  }

  /** Splitting a SID on '-' gives the four fixed parts and the four numbers. */
  lemma SidSplit(s: Sid)
    ensures Split(SidText(s), '-') == ["S", "1", "5", "21", NatStr(s.a), NatStr(s.b), NatStr(s.c), NatStr(s.d)]
  {
    var a, b, c, d := NatStr(s.a), NatStr(s.b), NatStr(s.c), NatStr(s.d);
    NatStrHasNoDash(s.a);
    NatStrHasNoDash(s.b);
    NatStrHasNoDash(s.c);
    NatStrHasNoDash(s.d);
    var t1 := a + "-" + (b + "-" + (c + "-" + d));
    SidNumbersSplit(a, b, c, d);
    SidPrefix(t1);
    SplitPrefix("21", t1, '-');
    SplitPrefix("5", "21" + ['-'] + t1, '-');
    SplitPrefix("1", "5" + ['-'] + ("21" + ['-'] + t1), '-');
    SplitPrefix("S", "1" + ['-'] + ("5" + ['-'] + ("21" + ['-'] + t1)), '-');
  }

  lemma SidPrefix(t: string)
    ensures "S-1-5-21-" + t == "S" + ['-'] + ("1" + ['-'] + ("5" + ['-'] + ("21" + ['-'] + t)))
  {
  }

  /** The SID has the shape S-1-5-21-<10 digits>-<6>-<6>-<4>. */
  lemma SidShape(s: Sid)
    requires SidInRange(s)
    ensures Split(SidText(s), '-') == ["S", "1", "5", "21", NatStr(s.a), NatStr(s.b), NatStr(s.c), NatStr(s.d)]
    ensures |NatStr(s.a)| == 10 && |NatStr(s.b)| == 6 && |NatStr(s.c)| == 6 && |NatStr(s.d)| == 4
  {
    SidNumberLengths(s);
    SidSplit(s);
  }

  // ---------------------------------------------------------------------
  // The events
  // ---------------------------------------------------------------------

  /** What each builder puts in its fields dict, in the order it draws them. */
  datatype Event =
    | SuccessfulLogon(subject: string, user: string, domain: string, subjectLogonId: nat, logonId: nat,
                      logonType: int, srcPrivate: bool, src: Ipv4, srcPort: int,
                      workstation: Option<Computer>, package: string)
    | FailedLogon(user: string, domain: string, reason: string, status: string, subStatus: string,
                  logonType: int, src: Ipv4, srcPort: int, caller: Computer)
    | Logoff(user: string, domain: string, logonId: nat, logonType: int)
    | SpecialPrivileges(user: string, domain: string, logonId: nat, privileges: seq<string>)
    | UserCreated(creator: string, domain: string, first: string, last: string, sid: Sid)
    | MemberAdded(admin: string, domain: string, user: string, group: string)
    | AccountLocked(user: string, domain: string, caller: Computer)
    | KerberosTgt(user: string, domain: string, src: Ipv4, success: bool, result: string, encryption: string)
    | NtlmAuth(user: string, caller: Computer, success: bool, result: string)
    | ShareAccess(user: string, domain: string, src: Ipv4, srcPort: int, share: string, mask: string)
    | FirewallAllowed(application: string, direction: string, src: Ipv4, srcPort: int, dstPrivate: bool,
                      dst: Ipv4, dstPort: int, protocol: int)
    | FirewallBlocked(src: Ipv4, srcPort: int, dst: Ipv4, dstPort: int, protocol: int)

  function EventId(e: Event): int
  {
    match e
    case SuccessfulLogon(_, _, _, _, _, _, _, _, _, _, _) => 4624
    case FailedLogon(_, _, _, _, _, _, _, _, _) => 4625
    case Logoff(_, _, _, _) => 4634
    case SpecialPrivileges(_, _, _, _) => 4672
    case UserCreated(_, _, _, _, _) => 4720
    case MemberAdded(_, _, _, _) => 4732
    case AccountLocked(_, _, _) => 4740
    case KerberosTgt(_, _, _, _, _, _) => 4768
    case NtlmAuth(_, _, _, _) => 4776
    case ShareAccess(_, _, _, _, _, _) => 5140
    case FirewallAllowed(_, _, _, _, _, _, _, _) => 5156
    case FirewallBlocked(_, _, _, _, _) => 5157
  }

  function WorkstationText(w: Option<Computer>): string
  {
    if w.Some? then ComputerName(w.value) else "-"
  }

  /** The fields dict of each builder, in insertion order. */
  function Fields(e: Event): seq<(string, string)>
  {
    match e
    case SuccessfulLogon(subject, user, domain, subjectLogonId, logonId, logonType, _, src, srcPort, workstation, package) =>
      SuccessfulLogonFields(subject, user, domain, subjectLogonId, logonId, logonType, src, srcPort, workstation, package)
    case FailedLogon(user, domain, reason, status, subStatus, logonType, src, srcPort, caller) =>
      FailedLogonFields(user, domain, reason, status, subStatus, logonType, src, srcPort, caller)
    case Logoff(user, domain, logonId, logonType) => LogoffFields(user, domain, logonId, logonType)
    case SpecialPrivileges(user, domain, logonId, privileges) =>
      SpecialPrivilegesFields(user, domain, logonId, privileges)
    case UserCreated(creator, domain, first, last, sid) =>
      UserCreatedFields(creator, domain, first, last, sid)
    case MemberAdded(admin, domain, user, group) => MemberAddedFields(admin, domain, user, group)
    case AccountLocked(user, domain, caller) => AccountLockedFields(user, domain, caller)
    case KerberosTgt(user, domain, src, _, result, encryption) =>
      KerberosTgtFields(user, domain, src, result, encryption)
    case NtlmAuth(user, caller, _, result) => NtlmAuthFields(user, caller, result)
    case ShareAccess(user, domain, src, srcPort, share, mask) =>
      ShareAccessFields(user, domain, src, srcPort, share, mask)
    case FirewallAllowed(application, direction, src, srcPort, _, dst, dstPort, protocol) =>
      FirewallAllowedFields(application, direction, src, srcPort, dst, dstPort, protocol)
    case FirewallBlocked(src, srcPort, dst, dstPort, protocol) =>
      FirewallBlockedFields(src, srcPort, dst, dstPort, protocol)
  }

  function SuccessfulLogonFields(subject: string, user: string, domain: string,
                                subjectLogonId: nat, logonId: nat, logonType: int, src: Ipv4,
                                srcPort: int, workstation: Option<Computer>, package: string): seq<(string, string)>
  {
    [("Subject_Account_Name", subject), ("Subject_Account_Domain", domain),
     ("Subject_Logon_ID", HexId(subjectLogonId)), ("Target_Account_Name", user),
     ("Target_Account_Domain", domain), ("Target_Logon_ID", HexId(logonId)),
     ("Logon_Type", LogonTypeText(logonType)),
     ("Source_Network_Address", src.Dotted()), ("Source_Port", IntStr(srcPort)),
     ("Workstation_Name", WorkstationText(workstation)), ("Authentication_Package", package)]
  }

  function FailedLogonFields(user: string, domain: string, reason: string, status: string,
                             subStatus: string, logonType: int, src: Ipv4, srcPort: int,
                             caller: Computer): seq<(string, string)>
  {
    [("Target_Account_Name", user), ("Target_Account_Domain", domain), ("Failure_Reason", reason),
     ("Status", status), ("Sub_Status", subStatus),
     ("Logon_Type", LogonTypeText(logonType)),
     ("Source_Network_Address", src.Dotted()), ("Source_Port", IntStr(srcPort)),
     ("Workstation_Name", ComputerName(caller))]
  }

  function LogoffFields(user: string, domain: string, logonId: nat, logonType: int): seq<(string, string)>
  {
    [("Account_Name", user), ("Account_Domain", domain), ("Logon_ID", HexId(logonId)),
     ("Logon_Type", LogonTypeText(logonType))]
  }

  function SpecialPrivilegesFields(user: string, domain: string, logonId: nat,
                                   privileges: seq<string>): seq<(string, string)>
  {
    [("Account_Name", user), ("Account_Domain", domain), ("Logon_ID", HexId(logonId)),
     ("Privileges", Join(", ", privileges))]
  }

  function UserCreatedFields(creator: string, domain: string, first: string, last: string,
                             sid: Sid): seq<(string, string)>
  {
    [("Subject_Account_Name", creator), ("Subject_Account_Domain", domain),
     ("Target_Account_Name", Lower(first) + "." + Lower(last)), ("Target_Account_Domain", domain),
     ("Target_Security_ID", SidText(sid))]
  }

  function MemberAddedFields(admin: string, domain: string, user: string, group: string): seq<(string, string)>
  {
    [("Subject_Account_Name", admin), ("Subject_Account_Domain", domain),
     ("Member_Name", domain + "\\" + user), ("Target_Group_Name", group), ("Target_Group_Domain", domain)]
  }

  function AccountLockedFields(user: string, domain: string, caller: Computer): seq<(string, string)>
  {
    [("Target_Account_Name", user), ("Target_Account_Domain", domain),
     ("Caller_Computer_Name", ComputerName(caller))]
  }

  function KerberosTgtFields(user: string, domain: string, src: Ipv4, result: string,
                             encryption: string): seq<(string, string)>
  {
    [("Account_Name", user), ("Account_Domain", domain), ("Client_Address", src.Dotted()),
     ("Ticket_Options", "0x40810010"), ("Result_Code", result), ("Ticket_Encryption_Type", encryption)]
  }

  function NtlmAuthFields(user: string, caller: Computer, result: string): seq<(string, string)>
  {
    [("Authentication_Package", NtlmPackage), ("Logon_Account", user),
     ("Source_Workstation", ComputerName(caller)), ("Error_Code", result)]
  }

  function ShareAccessFields(user: string, domain: string, src: Ipv4, srcPort: int, share: string,
                             mask: string): seq<(string, string)>
  {
    [("Subject_Account_Name", user), ("Subject_Account_Domain", domain), ("Source_Address", src.Dotted()),
     ("Source_Port", IntStr(srcPort)), ("Share_Name", share), ("Access_Mask", mask)]
  }

  function FirewallAllowedFields(application: string, direction: string, src: Ipv4, srcPort: int,
                                 dst: Ipv4, dstPort: int, protocol: int): seq<(string, string)>
  {
    [("Application", application), ("Direction", direction), ("Source_Address", src.Dotted()),
     ("Source_Port", IntStr(srcPort)), ("Destination_Address", dst.Dotted()),
     ("Destination_Port", IntStr(dstPort)), ("Protocol", IntStr(protocol))]
  }

  function FirewallBlockedFields(src: Ipv4, srcPort: int, dst: Ipv4, dstPort: int, protocol: int): seq<(string, string)>
  {
    [("Application", "System"), ("Direction", "Inbound"), ("Source_Address", src.Dotted()),
     ("Source_Port", IntStr(srcPort)), ("Destination_Address", dst.Dotted()),
     ("Destination_Port", IntStr(dstPort)), ("Protocol", IntStr(protocol))]
  }

  /** An address drawn by generate_ip_address(private=p). */
  predicate Drawn(private: bool, ip: Ipv4)
  {
    (private ==> GeneratedPrivate(ip)) && (!private ==> !InRfc1918(ip))
  }

  predicate AccountOf(user: string, domain: string)
  {
    user in WindowsUsers && domain in Domains
  }

  /** The correlations and ranges each builder guarantees. */
  predicate Consistent(e: Event)
  {
    match e
    case SuccessfulLogon(_, _, _, _, _, _, _, _, _, _, _) => SuccessfulLogonOk(e)
    case FailedLogon(_, _, _, _, _, _, _, _, _) => FailedLogonOk(e)
    case Logoff(_, _, _, _) => LogoffOk(e)
    case SpecialPrivileges(_, _, _, _) => SpecialPrivilegesOk(e)
    case UserCreated(_, _, _, _, _) => UserCreatedOk(e)
    case MemberAdded(_, _, _, _) => MemberAddedOk(e)
    case AccountLocked(_, _, _) => AccountLockedOk(e)
    case KerberosTgt(_, _, _, _, _, _) => KerberosTgtOk(e)
    case NtlmAuth(_, _, _, _) => NtlmAuthOk(e)
    case ShareAccess(_, _, _, _, _, _) => ShareAccessOk(e)
    case FirewallAllowed(_, _, _, _, _, _, _, _) => FirewallAllowedOk(e)
    case FirewallBlocked(_, _, _, _, _) => FirewallBlockedOk(e)
  }

  predicate SuccessfulLogonOk(e: Event)
    requires e.SuccessfulLogon?
  {
    AccountOf(e.user, e.domain) && (e.subject in SubjectAccounts || e.subject == e.user) &&
    0x1000 <= e.subjectLogonId <= 0xFFFF && 0x100000 <= e.logonId <= 0xFFFFFF &&
    e.logonType in SuccessLogonTypes && Drawn(e.srcPrivate, e.src) && 49152 <= e.srcPort <= 65535 &&
    (e.workstation.Some? ==> ValidComputer(e.workstation.value)) && e.package in Packages
  }

  predicate FailedLogonOk(e: Event)
    requires e.FailedLogon?
  {
    (e.user in WindowsUsers || e.user in InvalidUsers) && e.domain in Domains &&
    e.reason in FailureReasons && (e.status, e.subStatus) == StatusCodes[e.reason] &&
    e.logonType in FailedLogonTypes && !InRfc1918(e.src) && 49152 <= e.srcPort <= 65535 && ValidComputer(e.caller)
  }

  predicate LogoffOk(e: Event)
    requires e.Logoff?
  {
    AccountOf(e.user, e.domain) && 0x100000 <= e.logonId <= 0xFFFFFF && e.logonType in FailedLogonTypes
  }

  predicate SpecialPrivilegesOk(e: Event)
    requires e.SpecialPrivileges?
  {
    AccountOf(e.user, e.domain) && 0x100000 <= e.logonId <= 0xFFFFFF &&
    3 <= |e.privileges| <= 6 && Distinct(e.privileges) && multiset(e.privileges) <= multiset(Privileges)
  }

  predicate UserCreatedOk(e: Event)
    requires e.UserCreated?
  {
    e.creator in Creators && e.domain in Domains && SidInRange(e.sid) && |e.first| >= 1 && |e.last| >= 1
  }

  predicate MemberAddedOk(e: Event)
    requires e.MemberAdded?
  {
    e.admin in GroupAdmins && AccountOf(e.user, e.domain) && e.group in SecurityGroups
  }

  predicate AccountLockedOk(e: Event)
    requires e.AccountLocked?
  {
    AccountOf(e.user, e.domain) && ValidComputer(e.caller)
  }

  predicate KerberosTgtOk(e: Event)
    requires e.KerberosTgt?
  {
    AccountOf(e.user, e.domain) && GeneratedPrivate(e.src) && (e.result == "0x0" <==> e.success) &&
    (!e.success ==> e.result in KerberosFailures) && e.encryption in EncryptionTypes
  }

  predicate NtlmAuthOk(e: Event)
    requires e.NtlmAuth?
  {
    e.user in WindowsUsers && ValidComputer(e.caller) && (e.result == "0x0" <==> e.success) &&
    (!e.success ==> e.result in NtlmFailures)
  }

  predicate ShareAccessOk(e: Event)
    requires e.ShareAccess?
  {
    AccountOf(e.user, e.domain) && GeneratedPrivate(e.src) && 49152 <= e.srcPort <= 65535 &&
    e.share in Shares && e.mask in AccessMasks
  }

  predicate FirewallAllowedOk(e: Event)
    requires e.FirewallAllowed?
  {
    e.application in AppPaths && e.direction in Directions && GeneratedPrivate(e.src) &&
    1024 <= e.srcPort <= 65535 && Drawn(e.dstPrivate, e.dst) && e.dstPort in CommonPorts && e.protocol in IpProtocols
  }

  predicate FirewallBlockedOk(e: Event)
    requires e.FirewallBlocked?
  {
    !InRfc1918(e.src) && 1024 <= e.srcPort <= 65535 && GeneratedPrivate(e.dst) && e.dstPort in CommonPorts &&
    e.protocol in IpProtocols
  }

  /** The Logon_Type field of a 4624 record reads back as its code. */
  lemma SuccessfulLogonTypeField(e: Event)
    requires e.SuccessfulLogon? && e.logonType in SuccessLogonTypes
    ensures Fields(e)[6].0 == "Logon_Type"
    ensures ParseLogonType(Fields(e)[6].1) == Some(e.logonType)
  {
    assert Fields(e)[6].1 == LogonTypeText(e.logonType);
    LogonTypesKnown();
    LogonTypeRoundTrip(e.logonType);
  }

  /** The Logon_Type field of a 4625 record reads back as its code. */
  lemma FailedLogonTypeField(e: Event)
    requires e.FailedLogon? && e.logonType in FailedLogonTypes
    ensures Fields(e)[5].0 == "Logon_Type"
    ensures ParseLogonType(Fields(e)[5].1) == Some(e.logonType)
  {
    assert Fields(e)[5].1 == LogonTypeText(e.logonType);
    LogonTypesKnown();
    LogonTypeRoundTrip(e.logonType);
  }

  /** The Logon_Type field of a 4634 record reads back as its code. */
  lemma LogoffTypeField(e: Event)
    requires e.Logoff? && e.logonType in FailedLogonTypes
    ensures Fields(e)[3].0 == "Logon_Type"
    ensures ParseLogonType(Fields(e)[3].1) == Some(e.logonType)
  {
    assert Fields(e)[3].1 == LogonTypeText(e.logonType);
    LogonTypesKnown();
    LogonTypeRoundTrip(e.logonType);
  }

  /** The Privileges field of a 4672 record is 3 to 6 distinct privilege names. */
  lemma PrivilegesField(e: Event)
    requires e.SpecialPrivileges? && SpecialPrivilegesOk(e)
    ensures Fields(e)[3].0 == "Privileges" && Fields(e)[3].1 == Join(", ", e.privileges)
    ensures 3 <= |e.privileges| <= 6 && Distinct(e.privileges)
    ensures forall i :: 0 <= i < |e.privileges| ==> e.privileges[i] in Privileges
  {
    SampleMembers(Privileges, e.privileges);
  }

  // ---------------------------------------------------------------------
  // The generator
  // ---------------------------------------------------------------------

  class WindowsSecurityGenerator {
    const base: BaseGenerator

    constructor (base: BaseGenerator)
      ensures this.base == base
    {
      this.base := base;
    }

    /** _get_windows_timestamp: generate_datetime() formatted as "%m/%d/%Y %I:%M:%S %p". */
    ghost predicate Stamped(ts: string)
    {
      exists t :: base.currentTime - 7 * SecondsPerDay * MicrosPerSecond <= t <= base.currentTime &&
        ts == base.strftime(TimeFormat, t)
    }

    /** What generate_log promises of one line: a consistent event, written with its id, level and computer. */
    ghost predicate Emitted(line: string, e: Event, ts: string, c: Computer)
    {
      EventId(e) in EventIds && Consistent(e) && Stamped(ts) && ValidComputer(c) && line == Rendered(e, c, ts) &&
      ParseWindowsHeader(line) == Some((EventId(e), ExpectedLevel(EventId(e)), ComputerName(c)))
    }

    /** generate_logs: count lines, each one generate_log call, in call order. */
    method GenerateLogs(count: int) returns (logs: seq<string>, events: seq<Event>, stamps: seq<string>, computers: seq<Computer>)
      modifies base.rng, base.faker
      ensures |logs| == |events| == |stamps| == |computers| == (if count < 0 then 0 else count)
      ensures forall k :: 0 <= k < |logs| ==> Emitted(logs[k], events[k], stamps[k], computers[k])
    {
      var n := if count < 0 then 0 else count;
      logs, events, stamps, computers := [], [], [], [];
      for i := 0 to n
        invariant |logs| == |events| == |stamps| == |computers| == i
        invariant forall k :: 0 <= k < i ==> Emitted(logs[k], events[k], stamps[k], computers[k])
      {
        var line, e, ts, c := GenerateLog();
        assert Emitted(line, e, ts, c);
        logs, events, stamps, computers := logs + [line], events + [e], stamps + [ts], computers + [c];
      }
    }

    /**
      generate_log: a weighted pick of the event id, then its builder. The line
      reads back as that id, the level the id is written with and the name of a
      generated computer.
    */
    method GenerateLog() returns (line: string, e: Event, ts: string, c: Computer)
      modifies base.rng, base.faker
      ensures EventId(e) in EventIds && Consistent(e) && Stamped(ts) && ValidComputer(c)
      ensures line == Rendered(e, c, ts)
      ensures ParseWindowsHeader(line) == Some((EventId(e), ExpectedLevel(EventId(e)), ComputerName(c)))
    {
      EventWeightsPositive();
      var picked := base.WeightedChoice(EventIds, EventWeights);
      var id := picked.value;
      EventIdCases(id);
      if id == 4624 || id == 4625 || id == 4634 || id == 4672 || id == 4720 || id == 4732 {
        line, e, ts, c := DispatchLow(id);
      } else {
        line, e, ts, c := DispatchHigh(id);
      }
      ComputerNameHasNoSpace(c);
      LevelsHaveNoSpace(EventId(e));
      WindowsHeaderRoundTrip(EventId(e), ExpectedLevel(EventId(e)), ComputerName(c), ts, Fields(e));
    }

    /** event_generators[event_id]() for 4624 to 4732. */
    method DispatchLow(id: int) returns (line: string, e: Event, ts: string, c: Computer)
      requires id == 4624 || id == 4625 || id == 4634 || id == 4672 || id == 4720 || id == 4732
      modifies base.rng, base.faker
      ensures EventId(e) == id && Consistent(e) && Stamped(ts) && ValidComputer(c)
      ensures line == Rendered(e, c, ts)
    {
      if id == 4624 {
        line, e, ts, c := SuccessfulLogonEvent();
      } else if id == 4625 {
        line, e, ts, c := FailedLogonEvent();
      } else if id == 4634 {
        line, e, ts, c := LogoffEvent();
      } else if id == 4672 {
        line, e, ts, c := SpecialPrivilegesEvent();
      } else if id == 4720 {
        line, e, ts, c := UserCreatedEvent();
      } else {
        line, e, ts, c := MemberAddedEvent();
      }
    }

    /** event_generators[event_id]() for 4740 to 5157. */
    method DispatchHigh(id: int) returns (line: string, e: Event, ts: string, c: Computer)
      requires id == 4740 || id == 4768 || id == 4776 || id == 5140 || id == 5156 || id == 5157
      modifies base.rng, base.faker
      ensures EventId(e) == id && Consistent(e) && Stamped(ts) && ValidComputer(c)
      ensures line == Rendered(e, c, ts)
    {
      if id == 4740 {
        line, e, ts, c := AccountLockedEvent();
      } else if id == 4768 {
        line, e, ts, c := KerberosTgtEvent();
      } else if id == 4776 {
        line, e, ts, c := NtlmAuthEvent();
      } else if id == 5140 {
        line, e, ts, c := ShareAccessEvent();
      } else if id == 5156 {
        line, e, ts, c := FirewallAllowedEvent();
      } else {
        line, e, ts, c := FirewallBlockedEvent();
      }
    }

    /** _format_event: the field_parts loop, the "; " join and the header. */
    method FormatEvent(eventId: int, level: string, computer: string, timestamp: string,
                       fields: seq<(string, string)>) returns (line: string)
      ensures line == WindowsEvent(eventId, level, computer, timestamp, fields)
    {
      var fieldParts: seq<string> := [];
      for i := 0 to |fields|
        invariant fieldParts == FieldParts(fields[..i])
      {
        assert fields[..i + 1] == fields[..i] + [fields[i]];
        var (key, value) := fields[i];
        fieldParts := fieldParts + [key + ": " + value];
      }
      assert fields[..|fields|] == fields;
      var fieldsStr := Join("; ", fieldParts);
      line := "EventID=" + IntStr(eventId) + " " +
        ("Level=" + level + " " + ("Computer=" + computer + " " + ("TimeGenerated=" + (timestamp + " " + fieldsStr))));
    }

    /** The timestamp and the computer every builder draws first. */
    method Header() returns (ts: string, c: Computer)
      modifies base.rng
      ensures Stamped(ts) && ValidComputer(c)
    {
      var t := base.GenerateDatetime(7);
      ts := base.strftime(TimeFormat, t);
      c := ComputerDraw();
    }

    /** _get_computer_name */
    method ComputerDraw() returns (c: Computer)
      modifies base.rng
      ensures ValidComputer(c)
    {
      var prefix := base.rng.Choice(ComputerPrefixes);
      var n := base.rng.RandInt(1, 100);
      c := Computer(prefix, n);
    }

    /** _get_domain_user */
    method DomainUser() returns (domain: string, user: string)
      modifies base.rng
      ensures AccountOf(user, domain)
    {
      domain := base.rng.Choice(Domains);
      user := base.rng.Choice(WindowsUsers);
    }

    /** _generate_4624_successful_logon */
    method SuccessfulLogonEvent() returns (line: string, e: Event, ts: string, c: Computer)
      modifies base.rng, base.faker
      ensures e.SuccessfulLogon? && SuccessfulLogonOk(e) && Stamped(ts) && ValidComputer(c)
      ensures line == Rendered(e, c, ts)
    {
      ts, c := Header();
      e := SuccessfulLogonDraw();
      line := FormatEvent(EventId(e), ExpectedLevel(EventId(e)), ComputerName(c), ts, Fields(e));
    }

    method SuccessfulLogonDraw() returns (e: Event)
      modifies base.rng, base.faker
      ensures e.SuccessfulLogon? && SuccessfulLogonOk(e)
    {
      var domain, user := DomainUser();
      assert Sum(SuccessLogonWeights) > 0.0;
      var picked := base.WeightedChoice(SuccessLogonTypes, SuccessLogonWeights);
      var logonType := picked.value;
      var srcPrivate, src, workstation := LogonSource();
      var logonId := base.rng.RandInt(0x100000, 0xFFFFFF);
      var subject := base.rng.Choice(SubjectAccounts + [user]);
      var subjectLogonId := base.rng.RandInt(0x1000, 0xFFFF);
      var srcPort := base.rng.RandInt(49152, 65535);
      var package := base.rng.Choice(Packages);
      e := SuccessfulLogon(subject, user, domain, subjectLogonId, logonId, logonType, srcPrivate, src, srcPort,
        workstation, package);
    }

    /** The source address (private for seven in ten) and, for half the logons, a workstation. */
    method LogonSource() returns (srcPrivate: bool, src: Ipv4, workstation: Option<Computer>)
      modifies base.rng, base.faker
      ensures Drawn(srcPrivate, src) && (workstation.Some? ==> ValidComputer(workstation.value))
    {
      var u := base.rng.Random();
      srcPrivate := u > 0.3;
      var text;
      text, src := base.GenerateIpAddress(srcPrivate);
      var v := base.rng.Random();
      if v > 0.5 {
        var w := ComputerDraw();
        workstation := Some(w);
      } else {
        workstation := None;
      }
    }

    /** _generate_4625_failed_logon */
    method FailedLogonEvent() returns (line: string, e: Event, ts: string, c: Computer)
      modifies base.rng, base.faker
      ensures e.FailedLogon? && FailedLogonOk(e) && Stamped(ts) && ValidComputer(c)
      ensures line == Rendered(e, c, ts)
    {
      ts, c := Header();
      e := FailedLogonDraw();
      line := FormatEvent(EventId(e), ExpectedLevel(EventId(e)), ComputerName(c), ts, Fields(e));
    }

    method FailedLogonDraw() returns (e: Event)
      modifies base.rng, base.faker
      ensures e.FailedLogon? && FailedLogonOk(e)
    {
      var domain, user := DomainUser();
      var u := base.rng.Random();
      if u > 0.7 {
        user := base.rng.Choice(InvalidUsers);
      }
      assert Sum(FailedLogonWeights) > 0.0;
      var picked := base.WeightedChoice(FailedLogonTypes, FailedLogonWeights);
      var logonType := picked.value;
      var reason := base.rng.Choice(FailureReasons);
      var (status, subStatus) := StatusCodes[reason];
      var text, src := base.GenerateIpAddress(false);
      var srcPort := base.rng.RandInt(49152, 65535);
      var caller := ComputerDraw();
      e := FailedLogon(user, domain, reason, status, subStatus, logonType, src, srcPort, caller);
    }

    /** _generate_4634_logoff */
    method LogoffEvent() returns (line: string, e: Event, ts: string, c: Computer)
      modifies base.rng, base.faker
      ensures e.Logoff? && LogoffOk(e) && Stamped(ts) && ValidComputer(c)
      ensures line == Rendered(e, c, ts)
    {
      ts, c := Header();
      var domain, user := DomainUser();
      var logonType := base.rng.Choice(FailedLogonTypes);
      var logonId := base.rng.RandInt(0x100000, 0xFFFFFF);
      e := Logoff(user, domain, logonId, logonType);
      line := FormatEvent(EventId(e), ExpectedLevel(EventId(e)), ComputerName(c), ts, Fields(e));
    }

    /** _generate_4672_special_privileges */
    method SpecialPrivilegesEvent() returns (line: string, e: Event, ts: string, c: Computer)
      modifies base.rng, base.faker
      ensures e.SpecialPrivileges? && SpecialPrivilegesOk(e) && Stamped(ts) && ValidComputer(c)
      ensures line == Rendered(e, c, ts)
    {
      ts, c := Header();
      e := SpecialPrivilegesDraw();
      line := FormatEvent(EventId(e), ExpectedLevel(EventId(e)), ComputerName(c), ts, Fields(e));
    }

    method SpecialPrivilegesDraw() returns (e: Event)
      modifies base.rng, base.faker
      ensures e.SpecialPrivileges? && SpecialPrivilegesOk(e)
    {
      var domain, user := DomainUser();
      var u := base.rng.Random();
      if u > 0.5 {
        user := "Administrator";
      }
      var k := base.rng.RandInt(3, 6);
      ghost var src, start := base.rng.source, base.rng.cursor;
      var sampled := base.rng.Sample(Privileges, k);
      var selected := sampled.value;
      PrivilegesDistinct();
      PoolSampleMultiset(Privileges, Upcoming(src, start, k));
      SampleDistinct(Privileges, selected);
      var logonId := base.rng.RandInt(0x100000, 0xFFFFFF);
      e := SpecialPrivileges(user, domain, logonId, selected);
    }

    /** _generate_4720_user_created */
    method UserCreatedEvent() returns (line: string, e: Event, ts: string, c: Computer)
      modifies base.rng, base.faker
      ensures e.UserCreated? && UserCreatedOk(e) && Stamped(ts) && ValidComputer(c)
      ensures line == Rendered(e, c, ts)
    {
      ts, c := Header();
      e := UserCreatedDraw();
      line := FormatEvent(EventId(e), ExpectedLevel(EventId(e)), ComputerName(c), ts, Fields(e));
    }

    method UserCreatedDraw() returns (e: Event)
      modifies base.rng, base.faker
      ensures e.UserCreated? && UserCreatedOk(e)
    {
      var domain, ignored := DomainUser();
      var creator := base.rng.Choice(Creators);
      var first := base.faker.Name(Fake.FirstName);
      var last := base.faker.Name(Fake.LastName);
      var sid := SidDraw();
      e := UserCreated(creator, domain, first, last, sid);
    }

    /** The four randint calls of the Target_Security_ID f-string, left to right. */
    method SidDraw() returns (sid: Sid)
      modifies base.rng
      ensures SidInRange(sid)
    {
      var a := base.rng.RandInt(1000000000, 9999999999);
      var b := base.rng.RandInt(100000, 999999);
      var c := base.rng.RandInt(100000, 999999);
      var d := base.rng.RandInt(1000, 9999);
      sid := Sid(a, b, c, d);
    }

    /** _generate_4732_member_added */
    method MemberAddedEvent() returns (line: string, e: Event, ts: string, c: Computer)
      modifies base.rng, base.faker
      ensures e.MemberAdded? && MemberAddedOk(e) && Stamped(ts) && ValidComputer(c)
      ensures line == Rendered(e, c, ts)
    {
      ts, c := Header();
      var domain, user := DomainUser();
      var admin := base.rng.Choice(GroupAdmins);
      var group := base.rng.Choice(SecurityGroups);
      e := MemberAdded(admin, domain, user, group);
      line := FormatEvent(EventId(e), ExpectedLevel(EventId(e)), ComputerName(c), ts, Fields(e));
    }

    /** _generate_4740_account_locked: the one builder that writes Level=Warning. */
    method AccountLockedEvent() returns (line: string, e: Event, ts: string, c: Computer)
      modifies base.rng, base.faker
      ensures e.AccountLocked? && AccountLockedOk(e) && Stamped(ts) && ValidComputer(c)
      ensures line == Rendered(e, c, ts)
    {
      ts, c := Header();
      var domain, user := DomainUser();
      var caller := ComputerDraw();
      e := AccountLocked(user, domain, caller);
      line := FormatEvent(EventId(e), ExpectedLevel(EventId(e)), ComputerName(c), ts, Fields(e));
    }

    /** _generate_4768_kerberos_tgt */
    method KerberosTgtEvent() returns (line: string, e: Event, ts: string, c: Computer)
      modifies base.rng, base.faker
      ensures e.KerberosTgt? && KerberosTgtOk(e) && Stamped(ts) && ValidComputer(c)
      ensures line == Rendered(e, c, ts)
    {
      ts, c := Header();
      e := KerberosTgtDraw();
      line := FormatEvent(EventId(e), ExpectedLevel(EventId(e)), ComputerName(c), ts, Fields(e));
    }

    method KerberosTgtDraw() returns (e: Event)
      modifies base.rng, base.faker
      ensures e.KerberosTgt? && KerberosTgtOk(e)
    {
      var domain, user := DomainUser();
      var u := base.rng.Random();
      var success := u > 0.1;
      var text, src := base.GenerateIpAddress(true);
      var result := "0x0";
      if !success {
        result := base.rng.Choice(KerberosFailures);
        FailureCodesNonZero();
      }
      var encryption := base.rng.Choice(EncryptionTypes);
      e := KerberosTgt(user, domain, src, success, result, encryption);
    }

    /** _generate_4776_ntlm_auth; the drawn domain is not written. */
    method NtlmAuthEvent() returns (line: string, e: Event, ts: string, c: Computer)
      modifies base.rng, base.faker
      ensures e.NtlmAuth? && NtlmAuthOk(e) && Stamped(ts) && ValidComputer(c)
      ensures line == Rendered(e, c, ts)
    {
      ts, c := Header();
      e := NtlmAuthDraw();
      line := FormatEvent(EventId(e), ExpectedLevel(EventId(e)), ComputerName(c), ts, Fields(e));
    }

    method NtlmAuthDraw() returns (e: Event)
      modifies base.rng
      ensures e.NtlmAuth? && NtlmAuthOk(e)
    {
      var domain, user := DomainUser();
      var u := base.rng.Random();
      var success := u > 0.15;
      var caller := ComputerDraw();
      var result := "0x0";
      if !success {
        result := base.rng.Choice(NtlmFailures);
        FailureCodesNonZero();
      }
      e := NtlmAuth(user, caller, success, result);
    }

    /** _generate_5140_share_access */
    method ShareAccessEvent() returns (line: string, e: Event, ts: string, c: Computer)
      modifies base.rng, base.faker
      ensures e.ShareAccess? && ShareAccessOk(e) && Stamped(ts) && ValidComputer(c)
      ensures line == Rendered(e, c, ts)
    {
      ts, c := Header();
      e := ShareAccessDraw();
      line := FormatEvent(EventId(e), ExpectedLevel(EventId(e)), ComputerName(c), ts, Fields(e));
    }

    method ShareAccessDraw() returns (e: Event)
      modifies base.rng, base.faker
      ensures e.ShareAccess? && ShareAccessOk(e)
    {
      var domain, user := DomainUser();
      var text, src := base.GenerateIpAddress(true);
      var srcPort := base.rng.RandInt(49152, 65535);
      var share := base.rng.Choice(Shares);
      var mask := base.rng.Choice(AccessMasks);
      e := ShareAccess(user, domain, src, srcPort, share, mask);
    }

    /** _generate_5156_fw_allowed */
    method FirewallAllowedEvent() returns (line: string, e: Event, ts: string, c: Computer)
      modifies base.rng, base.faker
      ensures e.FirewallAllowed? && FirewallAllowedOk(e) && Stamped(ts) && ValidComputer(c)
      ensures line == Rendered(e, c, ts)
    {
      ts, c := Header();
      e := FirewallAllowedDraw();
      line := FormatEvent(EventId(e), ExpectedLevel(EventId(e)), ComputerName(c), ts, Fields(e));
    }

    method FirewallAllowedDraw() returns (e: Event)
      modifies base.rng, base.faker
      ensures e.FirewallAllowed? && FirewallAllowedOk(e)
    {
      var protocol := base.rng.Choice(IpProtocols);
      var application := base.rng.Choice(AppPaths);
      var direction := base.rng.Choice(Directions);
      var srcText, src := base.GenerateIpAddress(true);
      var srcPort := base.rng.RandInt(1024, 65535);
      var u := base.rng.Random();
      var dstPrivate := u > 0.5;
      var dstText, dst := base.GenerateIpAddress(dstPrivate);
      var dstPort := base.GeneratePort(true);
      e := FirewallAllowed(application, direction, src, srcPort, dstPrivate, dst, dstPort, protocol);
    }

    /** _generate_5157_fw_blocked */
    method FirewallBlockedEvent() returns (line: string, e: Event, ts: string, c: Computer)
      modifies base.rng, base.faker
      ensures e.FirewallBlocked? && FirewallBlockedOk(e) && Stamped(ts) && ValidComputer(c)
      ensures line == Rendered(e, c, ts)
    {
      ts, c := Header();
      var protocol := base.rng.Choice(IpProtocols);
      var srcText, src := base.GenerateIpAddress(false);
      var srcPort := base.rng.RandInt(1024, 65535);
      var dstText, dst := base.GenerateIpAddress(true);
      var dstPort := base.GeneratePort(true);
      e := FirewallBlocked(src, srcPort, dst, dstPort, protocol);
      line := FormatEvent(EventId(e), ExpectedLevel(EventId(e)), ComputerName(c), ts, Fields(e));
    }
  }

  lemma PrivilegesDistinct()
    ensures Distinct(Privileges)
  {
  }
}

