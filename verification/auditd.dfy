/**
  The Linux auditd generator. Every record is "type=<TYPE> msg=audit(<stamp>:<serial>): ..."
  with the fields space-joined; the stamp is "<epoch seconds>.<millis>" and the
  sequence number comes from a counter that each record raises by 1 to 10.
*/
module Auditd {
  import opened Common
  import opened Text
  import opened Net
  import opened Random
  import opened Base
  import Fake

  const Arch: string := "c000003e"

  /** Each executable with the arguments EXECVE records may show for it, in table order. */
  const Executables: seq<(string, seq<string>)> := [
    ("/bin/ls", ["ls", "-la", "-lh", "-R"]),
    ("/bin/cat", ["cat", "/etc/passwd", "/var/log/syslog"]),
    ("/usr/bin/vim", ["vim", "/etc/hosts", "/etc/nginx/nginx.conf"]),
    ("/usr/bin/sudo", ["sudo", "-i", "systemctl restart nginx"]),
    ("/bin/ps", ["ps", "aux", "-ef"]),
    ("/usr/bin/netstat", ["netstat", "-tulpn", "-an"]),
    ("/usr/bin/ssh", ["ssh", "user@192.168.1.10"]),
    ("/bin/chmod", ["chmod", "755", "/tmp/script.sh"]),
    ("/bin/chown", ["chown", "root:root", "/etc/passwd"]),
    ("/usr/sbin/useradd", ["useradd", "-m", "newuser"]),
    ("/usr/sbin/userdel", ["userdel", "olduser"]),
    ("/bin/mount", ["mount", "/dev/sda1", "/mnt"]),
    ("/bin/systemctl", ["systemctl", "restart", "nginx"])]

  /** The x86_64 system call numbers, in table order. */
  const Syscalls: seq<(string, int)> := [
    ("open", 2), ("close", 3), ("read", 0), ("write", 1), ("execve", 59), ("fork", 57),
    ("kill", 62), ("chmod", 90), ("chown", 92), ("setuid", 105), ("setgid", 106),
    ("unlink", 87), ("connect", 42), ("accept", 43), ("bind", 49), ("socket", 41)]

  const Outcomes: seq<string> := ["yes", "yes", "yes", "no"]
  const FailureExits: seq<int> := [1, 13, 2]
  const Ids: seq<int> := [0, 1000, 1001, 1002]
  const Keys: seq<string> := ["commands", "access", "modify", "delete", "(null)"]
  const AuthTerminals: seq<string> := ["ssh", "pts/0", "pts/1", "tty1", ":0"]
  const AuthExes: seq<string> := ["/usr/sbin/sshd", "/bin/login", "/usr/bin/sudo"]
  const UserCommands: seq<string> := [
    "/usr/bin/systemctl restart nginx", "/usr/bin/apt update", "/bin/cat /var/log/syslog",
    "/usr/sbin/iptables -L", "/usr/bin/docker ps -a", "/bin/journalctl -xe"]
  const CredTypes: seq<string> := ["CRED_ACQ", "CRED_DISP", "CRED_REFR"]
  const CredExes: seq<string> := ["/usr/bin/sudo", "/usr/sbin/sshd", "/bin/su"]
  const CredResults: seq<string> := ["success", "success", "success", "failed"]
  const LoginResults: seq<string> := ["success", "success", "failed"]

  /** [f'pts/{i}' for i in range(6)] followed by the extra terminals. */
  function Ptys(extra: seq<string>): seq<string>
  {
    seq(6, i requires 0 <= i < 6 => "pts/" + NatStr(i)) + extra
  }

  datatype EventKind = Syscall | Execve | UserAuth | UserCmd | Cred | Login

  const EventKinds: seq<EventKind> := [Syscall, Execve, UserAuth, UserCmd, Cred, Login]
  const EventWeights: seq<real> := [0.25, 0.25, 0.15, 0.15, 0.1, 0.1]

  lemma WeightsPositive()
    ensures Sum(EventWeights) > 0.0
  {
  }

  // ---------------------------------------------------------------------
  // Stamps and record layout
  // ---------------------------------------------------------------------

  /** int(dt.timestamp()): seconds since the epoch, truncated toward zero. */
  function EpochSeconds(t: int): (s: int)
    ensures t >= 0 ==> s >= 0 && s * MicrosPerSecond <= t < (s + 1) * MicrosPerSecond
    ensures t < 0 ==> s <= 0 && (s - 1) * MicrosPerSecond < t <= s * MicrosPerSecond
  {
    if t >= 0 then t / MicrosPerSecond else -((-t) / MicrosPerSecond)
  }

  /** f"{timestamp}.{millisec:03d}" */
  function AuditStamp(epoch: int, millis: nat): string
  {
    IntStr(epoch) + "." + ZeroPad(NatStr(millis), 3)
  }

  /** Reads "<epoch>.<mmm>" back: an integer, a dot, exactly three digits. */
  function ParseAuditStamp(s: string): Option<(int, nat)>
  {
    match SplitFirst(s, '.')
    case None => None
    case Some((whole, frac)) =>
      if |frac| == 3 && AllDigits(frac) then
        match ParseInt(whole)
        case Some(epoch) => Some((epoch, DigitsValue(frac)))
        case None => None
      else None
  }

  /** Millis below 1000 print as exactly three digits. */
  lemma MillisWidth(millis: nat)
    requires millis < 1000
    ensures |ZeroPad(NatStr(millis), 3)| == 3 && AllDigits(ZeroPad(NatStr(millis), 3))
  {
    if millis == 0 {
    } else if millis < 10 {
      NatStrLength(millis, 1);
    } else if millis < 100 {
      NatStrLength(millis, 2);
    } else {
      NatStrLength(millis, 3);
    }
    DigitsValueZeroPad(NatStr(millis), 3);
  }

  /** Every stamp reads back as its seconds and millis. */
  lemma AuditStampRoundTrip(epoch: int, millis: nat)
    requires millis < 1000
    ensures ParseAuditStamp(AuditStamp(epoch, millis)) == Some((epoch, millis))
  {
    var whole := IntStr(epoch);
    var frac := ZeroPad(NatStr(millis), 3);
    MillisWidth(millis);
    assert !HasChar(whole, '.') by {
      if epoch < 0 {
        assert whole == "-" + NatStr(-epoch);
        assert AllDigits(NatStr(-epoch));
      } else {
        assert AllDigits(whole);
      }
    }
    assert AuditStamp(epoch, millis) == whole + ['.'] + frac;
    SplitFirstAt(whole, frac, '.');
    ParseIntRoundTrip(epoch);
    DigitsValueZeroPad(NatStr(millis), 3);
    NatStrRoundTrip(millis);
  }

  /** A stamp holds no space and no colon, so it stays one token and parses out of the header. */
  lemma AuditStampChars(epoch: int, millis: nat)
    requires millis < 1000
    ensures !HasChar(AuditStamp(epoch, millis), ' ') && !HasChar(AuditStamp(epoch, millis), ':')
  {
    MillisWidth(millis);
    var whole := IntStr(epoch);
    var frac := ZeroPad(NatStr(millis), 3);
    IntStrFree(epoch, ' ');
    IntStrFree(epoch, ':');
    assert ' ' !in frac && ':' !in frac by {
      assert forall i :: 0 <= i < |frac| ==> IsDigit(frac[i]);
    }
    assert AuditStamp(epoch, millis) == whole + "." + frac;
  }

  /** f"msg=audit({timestamp}:{serial}):" */
  function AuditHeader(stamp: string, serial: int): string
  {
    "msg=audit(" + stamp + ":" + IntStr(serial) + "):"
  }

  /** " ".join of the type token, the header and the record's own fields. */
  function AuditRecord(kind: string, stamp: string, serial: int, fields: seq<string>): string
  {
    Join(" ", ["type=" + kind, AuditHeader(stamp, serial)] + fields)
  }

  /** The first two space-separated tokens of a line. */
  function LeadingTokens(line: string): Option<(string, string)>
  {
    match SplitFirst(line, ' ')
    case None => None
    case Some((first, rest)) =>
      match SplitFirst(rest, ' ')
      case Some((second, _)) => Some((first, second))
      case None => Some((first, rest))
  }

  /** Reads "msg=audit(<stamp>:<serial>):" back, the stamp ending at the first colon. */
  function ParseAuditHeader(header: string): Option<(string, int)>
  {
    if |header| >= 12 && StartsWith(header, "msg=audit(") && EndsWith(header, "):") then
      match SplitFirst(header[10..|header| - 2], ':')
      case None => None
      case Some((stamp, digits)) =>
        match ParseInt(digits)
        case None => None
        case Some(serial) => Some((stamp, serial))
    else None
  }

  /** Reads the type and the "msg=audit(<stamp>:<serial>):" token back. */
  function ParseAuditPrefix(line: string): Option<(string, string, int)>
  {
    match LeadingTokens(line)
    case None => None
    case Some((first, header)) =>
      if StartsWith(first, "type=") then
        match ParseAuditHeader(header)
        case None => None
        case Some((stamp, serial)) => Some((first[5..], stamp, serial))
      else None
  }

  lemma IntStrHasNoSpaceOrColon(i: int)
    ensures !HasChar(IntStr(i), ' ') && !HasChar(IntStr(i), ':')
  {
    if i < 0 {
      assert AllDigits(NatStr(-i));
      assert IntStr(i) == "-" + NatStr(-i);
    } else {
      assert AllDigits(IntStr(i));
    }
  }

  lemma LeadingTokensOfRecord(kind: string, stamp: string, serial: int, fields: seq<string>)
    requires !HasChar(kind, ' ') && !HasChar(stamp, ' ')
    ensures LeadingTokens(AuditRecord(kind, stamp, serial, fields)) == Some(("type=" + kind, AuditHeader(stamp, serial)))
  {
    var first := "type=" + kind;
    var header := AuditHeader(stamp, serial);
    IntStrHasNoSpaceOrColon(serial);
    assert !HasChar(first, ' ');
    assert !HasChar(header, ' ');
    var parts := [first, header] + fields;
    assert parts[1..] == [header] + fields;
    var rest := Join(" ", [header] + fields);
    assert AuditRecord(kind, stamp, serial, fields) == first + [' '] + rest;
    SplitFirstAt(first, rest, ' ');
    if fields == [] {
      assert rest == header;
    } else {
      assert ([header] + fields)[1..] == fields;
      assert rest == header + [' '] + Join(" ", fields);
      SplitFirstAt(header, Join(" ", fields), ' ');
    }
  }

  /** A header whose stamp holds no colon reads back as its stamp and sequence number. */
  lemma AuditHeaderRoundTrip(stamp: string, serial: int)
    requires !HasChar(stamp, ':')
    ensures ParseAuditHeader(AuditHeader(stamp, serial)) == Some((stamp, serial))
  {
    var header := AuditHeader(stamp, serial);
    var digits := IntStr(serial);
    var inner := stamp + [':'] + digits;
    assert header == "msg=audit(" + (inner + "):");
    Concat("msg=audit(", inner + "):");
    Concat(inner, "):");
    EndsWithAfter("msg=audit(", inner + "):", "):");
    assert header[10..|header| - 2] == inner;
    SplitFirstAt(stamp, digits, ':');
    ParseIntRoundTrip(serial);
  }

  /**
    The first token is "type=<kind>" and the second "msg=audit(<stamp>:<serial>):":
    both read back from every record.
  */
  lemma AuditPrefixRoundTrip(kind: string, stamp: string, serial: int, fields: seq<string>)
    requires !HasChar(kind, ' ') && !HasChar(stamp, ' ') && !HasChar(stamp, ':')
    ensures ParseAuditPrefix(AuditRecord(kind, stamp, serial, fields)) == Some((kind, stamp, serial))
  {
    LeadingTokensOfRecord(kind, stamp, serial, fields);
    AuditHeaderRoundTrip(stamp, serial);
    Concat("type=", kind);
  }

  // ---------------------------------------------------------------------
  // SYSCALL
  // ---------------------------------------------------------------------

  /** The numbers of the system call table, in order. */
  function SyscallNumbers(): (ns: seq<int>)
    ensures |ns| == |Syscalls| && forall i :: 0 <= i < |Syscalls| ==> ns[i] == Syscalls[i].1
  {
    seq(|Syscalls|, i requires 0 <= i < |Syscalls| => Syscalls[i].1)
  }

  /** The executables' paths, in table order. */
  function ExecutablePaths(): (ps: seq<string>)
    ensures |ps| == |Executables| && forall i :: 0 <= i < |Executables| ==> ps[i] == Executables[i].0
  {
    seq(|Executables|, i requires 0 <= i < |Executables| => Executables[i].0)
  }

  datatype SyscallRecord = SyscallRecord(
    number: int, success: string, exit: int, args: seq<string>, items: int, ppid: int, pid: int,
    auid: int, uid: int, gid: int, euid: int, egid: int, comm: string, exe: string, key: string)

  function SyscallFields(r: SyscallRecord): seq<string>
    requires |r.args| == 4
  {
    ["arch=" + Arch, "syscall=" + IntStr(r.number), "success=" + r.success, "exit=" + IntStr(r.exit),
     "a0=" + r.args[0], "a1=" + r.args[1], "a2=" + r.args[2], "a3=" + r.args[3],
     "items=" + IntStr(r.items), "ppid=" + IntStr(r.ppid), "pid=" + IntStr(r.pid),
     "auid=" + IntStr(r.auid), "uid=" + IntStr(r.uid), "gid=" + IntStr(r.gid),
     "euid=" + IntStr(r.euid), "egid=" + IntStr(r.egid),
     "comm=\"" + r.comm + "\"", "exe=\"" + r.exe + "\"", "key=\"" + r.key + "\""]
  }

  /** The correlations the SYSCALL builder keeps between its fields. */
  predicate SyscallConsistent(r: SyscallRecord)
  {
    |r.args| == 4 &&
    (r.success == "yes" || r.success == "no") &&
    (r.exit == 0 <==> r.success == "yes") &&
    (r.success == "no" ==> r.exit in FailureExits) &&
    r.auid == r.uid && r.euid == r.uid && r.egid == r.gid &&
    r.comm == LastPart(r.exe, '/')
  }

  /** The tables and ranges every SYSCALL field is drawn from. */
  predicate SyscallInRange(r: SyscallRecord)
  {
    r.number in SyscallNumbers() && r.exe in ExecutablePaths() && r.key in Keys &&
    r.uid in Ids && r.gid in Ids && 1000 <= r.pid <= 65535 && 1 <= r.ppid <= 1000 &&
    0 <= r.items <= 2 && |r.args| == 4 &&
    (forall i :: 0 <= i < 4 ==> AllLowerHex(r.args[i]))
  }

  /** comm is the file name of exe: no slash, and exe ends with it. */
  lemma CommIsBaseName(r: SyscallRecord)
    requires SyscallConsistent(r)
    ensures !HasChar(r.comm, '/') && EndsWith(r.exe, r.comm)
  {
    LastPartSuffix(r.exe, '/');
  }

  // ---------------------------------------------------------------------
  // EXECVE
  // ---------------------------------------------------------------------

  /** f'a{i}="{arg}"' */
  function ArgPart(i: nat, arg: string): string
  {
    "a" + NatStr(i) + "=\"" + arg + "\""
  }

  /** The arguments of an EXECVE record, numbered from a0. */
  function ArgParts(args: seq<string>): (parts: seq<string>)
    ensures |parts| == |args|
    ensures forall i :: 0 <= i < |args| ==> parts[i] == ArgPart(i, args[i])
  {
    if args == [] then [] else ArgParts(args[..|args| - 1]) + [ArgPart(|args| - 1, args[|args| - 1])]
  }

  function ExecveFields(args: seq<string>): seq<string>
  {
    ["argc=" + IntStr(|args|), Join(" ", ArgParts(args))]
  }

  /** The arguments EXECVE may show for an executable: distinct in every table entry. */
  lemma ArgumentListsDistinct()
    ensures forall i :: 0 <= i < |Executables| ==> Distinct(Executables[i].1) && |Executables[i].1| >= 2
  {
  }

  /** argc counts the arguments, which are sampled without repetition from the executable's list. */
  predicate ExecveConsistent(exe: string, args: seq<string>)
  {
    exists i :: 0 <= i < |Executables| && Executables[i].0 == exe &&
      1 <= |args| <= 3 && |args| <= |Executables[i].1| &&
      multiset(args) <= multiset(Executables[i].1) && Distinct(args)
  }

  // ---------------------------------------------------------------------
  // USER_AUTH, USER_CMD, CRED_*, LOGIN
  // ---------------------------------------------------------------------

  /** The hostname/addr of USER_AUTH: the public address on ssh, '?' otherwise. */
  function AddrText(ip: Option<Ipv4>): string
  {
    match ip
    case None => "?"
    case Some(a) => a.Dotted()
  }

  datatype UserAuthRecord = UserAuthRecord(
    pid: int, uid: int, auid: int, user: string, exe: string, ip: Option<Ipv4>, terminal: string, res: string)

  function UserAuthFields(r: UserAuthRecord): seq<string>
  {
    ["pid=" + IntStr(r.pid), "uid=" + IntStr(r.uid), "auid=" + IntStr(r.auid),
     "msg='op=PAM:authentication grantors=pam_unix acct=\"" + r.user + "\" exe=\"" + r.exe +
       "\" hostname=" + AddrText(r.ip) + " addr=" + AddrText(r.ip) + " terminal=" + r.terminal +
       " res=" + r.res + "'"]
  }

  /** An address exactly on the ssh terminals, and then a public one. */
  predicate UserAuthConsistent(r: UserAuthRecord)
  {
    r.terminal in AuthTerminals && (r.ip.Some? <==> Contains(r.terminal, "ssh")) &&
    (r.ip.Some? ==> !InRfc1918(r.ip.value)) &&
    (r.res == "success" || r.res == "failed") && r.exe in AuthExes &&
    (r.uid == 0 || r.uid == 1000) && 1000 <= r.auid <= 2000 && 1000 <= r.pid <= 65535 && |r.user| >= 1
  }

  /** Of the USER_AUTH terminals only "ssh" contains "ssh". */
  lemma SshTerminal(t: string)
    requires t in AuthTerminals
    ensures Contains(t, "ssh") <==> t == "ssh"
  {
    assert StartsWith("ssh", "ssh");
    if t != "ssh" {
      NoSshIn(t);
    }
  }

  /** A string with no two 's' in a row holds no "ssh". */
  lemma {:induction false} NoSshIn(t: string)
    requires forall i :: 0 <= i < |t| - 1 ==> !(t[i] == 's' && t[i + 1] == 's')
    ensures !Contains(t, "ssh")
    decreases |t|
  {
    if |t| >= 3 {
      assert t[..3][0] == t[0] && t[..3][1] == t[1];
    }
    if |t| > 0 {
      assert forall i :: 0 <= i < |t[1..]| ==> t[1..][i] == t[i + 1];
      NoSshIn(t[1..]);
    }
  }

  datatype UserCmdRecord = UserCmdRecord(pid: int, uid: int, auid: int, user: string, command: string, tty: int)

  function UserCmdFields(r: UserCmdRecord): seq<string>
  {
    ["pid=" + IntStr(r.pid), "uid=" + IntStr(r.uid), "auid=" + IntStr(r.auid),
     "msg='cwd=\"/home/" + r.user + "\" cmd=\"" + r.command + "\" terminal=pts/" + IntStr(r.tty) +
       " res=success'"]
  }

  predicate UserCmdConsistent(r: UserCmdRecord)
  {
    r.command in UserCommands && 0 <= r.tty <= 5 && 1000 <= r.uid <= 2000 && 1000 <= r.auid <= 2000 &&
    1000 <= r.pid <= 65535 && |r.user| >= 1
  }

  datatype CredRecord = CredRecord(
    kind: string, pid: int, uid: int, auid: int, user: string, exe: string, terminal: string, res: string)

  function CredFields(r: CredRecord): seq<string>
  {
    ["pid=" + IntStr(r.pid), "uid=" + IntStr(r.uid), "auid=" + IntStr(r.auid),
     "msg='op=PAM:setcred grantors=pam_unix acct=\"" + r.user + "\" exe=\"" + r.exe +
       "\" hostname=? addr=? terminal=" + r.terminal + " res=" + r.res + "'"]
  }

  predicate CredConsistent(r: CredRecord)
  {
    r.kind in CredTypes && r.exe in CredExes && r.terminal in Ptys(["ssh", ":0"]) && r.res in CredResults &&
    (r.uid == 0 || r.uid == 1000) && 1000 <= r.auid <= 2000 && 1000 <= r.pid <= 65535 && |r.user| >= 1
  }

  datatype LoginRecord = LoginRecord(
    pid: int, uid: int, oldAuid: string, auid: int, tty: string, oldSes: string, ses: int, res: string)

  function LoginFields(r: LoginRecord): seq<string>
  {
    ["pid=" + IntStr(r.pid), "uid=" + IntStr(r.uid), "old-auid=" + r.oldAuid, "auid=" + IntStr(r.auid),
     "tty=" + r.tty, "old-ses=" + r.oldSes, "ses=" + IntStr(r.ses), "res=" + r.res]
  }

  /** LOGIN records: auid is the uid, old-ses is always unset. */
  predicate LoginConsistent(r: LoginRecord)
  {
    r.auid == r.uid && r.oldSes == "unset" && 1000 <= r.uid <= 2000 &&
    (r.oldAuid == "unset" || exists a :: 1000 <= a <= 2000 && r.oldAuid == IntStr(a)) &&
    r.tty in Ptys(["/dev/tty1"]) && r.res in LoginResults && 1 <= r.ses <= 999 && 1000 <= r.pid <= 65535
  }

  /** The auid and uid fields of a consistent LOGIN record carry the same number. */
  lemma LoginIdsAgree(r: LoginRecord)
    requires LoginConsistent(r)
    ensures LoginFields(r)[1][4..] == LoginFields(r)[3][5..] && LoginFields(r)[5] == "old-ses=unset"
  {
    Concat("uid=", IntStr(r.uid));
    Concat("auid=", IntStr(r.auid));
  }

  /** The type token each builder writes. */
  predicate TypeNameOf(kind: EventKind, typeName: string)
  {
    match kind
    case Syscall => typeName == "SYSCALL"
    case Execve => typeName == "EXECVE"
    case UserAuth => typeName == "USER_AUTH"
    case UserCmd => typeName == "USER_CMD"
    case Cred => typeName in CredTypes
    case Login => typeName == "LOGIN"
  }

  lemma TypeNameHasNoSpace(kind: EventKind, typeName: string)
    requires TypeNameOf(kind, typeName)
    ensures !HasChar(typeName, ' ')
  {
  }

  /** Every later record's sequence number is larger than every earlier one's. */
  predicate Increasing(prefixes: seq<(string, string, int)>)
  {
    forall i, j :: 0 <= i < j < |prefixes| ==> prefixes[i].2 < prefixes[j].2
  }

  /** Appending a record numbered above all earlier ones keeps the numbers increasing. */
  lemma RaiseSerials(prefixes: seq<(string, string, int)>, start: int, p: (string, string, int))
    requires Increasing(prefixes) && forall k :: 0 <= k < |prefixes| ==> start < prefixes[k].2 < p.2
    requires start < p.2
    ensures Increasing(prefixes + [p])
    ensures forall k :: 0 <= k < |prefixes| + 1 ==> start < (prefixes + [p])[k].2 <= p.2
  {
  }

  /** The text of f"{random.randint(0, 0xffffffff):x}" for the draw at position `at`. */
  function SyscallArg(source: nat -> nat, at: nat): (a: string)
    ensures AllLowerHex(a) && 1 <= |a| <= 8
  {
    var n := Reduce(source(at), 0x1_0000_0000);
    Word32Hex(n);
    HexStr(n, false)
  }

  /** f"{n:x}" of a 32-bit value is one to eight hex digits. */
  lemma Word32Hex(n: nat)
    requires n <= 0xffff_ffff
    ensures 1 <= |HexStr(n, false)| <= 8
  {
    assert Pow16(8) == 0x1_0000_0000 by {
      assert Pow16(2) == 256;
      assert Pow16(4) == 16 * (16 * Pow16(2));
      assert Pow16(6) == 16 * (16 * Pow16(4));
      assert Pow16(8) == 16 * (16 * Pow16(6));
    }
    HexStrBound(n, false, 8);
  }

  class AuditdGenerator {
    const base: BaseGenerator
    var sequenceCounter: int

    /** __init__: the counter starts at a draw in [100, 10000]. */
    constructor (base: BaseGenerator)
      modifies base.rng
      ensures this.base == base && 100 <= sequenceCounter <= 10000
      ensures base.rng.source == old(base.rng.source) && base.rng.cursor == old(base.rng.cursor) + 1
    {
      this.base := base;
      new;
      sequenceCounter := base.rng.RandInt(100, 10000);
    }

    /** The stamps of the last 7 days the records carry. */
    ghost predicate Stamped(stamp: string)
    {
      exists t, millis :: base.currentTime - 7 * SecondsPerDay * MicrosPerSecond <= t <= base.currentTime &&
        0 <= millis <= 999 && stamp == AuditStamp(EpochSeconds(t), millis)
    }

    /** A stamp of the last 7 days is a single token and holds no colon. */
    lemma StampChars(stamp: string)
      requires Stamped(stamp)
      ensures !HasChar(stamp, ' ') && !HasChar(stamp, ':')
    {
      var t, millis :| base.currentTime - 7 * SecondsPerDay * MicrosPerSecond <= t <= base.currentTime &&
        0 <= millis <= 999 && stamp == AuditStamp(EpochSeconds(t), millis);
      AuditStampChars(EpochSeconds(t), millis);
    }

    /** _get_audit_timestamp: a stamp, and the counter raised by 1 to 10 and returned. */
    method AuditTimestamp() returns (stamp: string, serial: int)
      modifies this, base.rng
      ensures Stamped(stamp)
      ensures old(sequenceCounter) + 1 <= sequenceCounter <= old(sequenceCounter) + 10
      ensures serial == sequenceCounter
    {
      var t := base.GenerateDatetime(7);
      var millis := base.rng.RandInt(0, 999);
      var step := base.rng.RandInt(1, 10);
      sequenceCounter := sequenceCounter + step;
      stamp := AuditStamp(EpochSeconds(t), millis);
      serial := sequenceCounter;
    }

    /**
      generate_log: a weighted pick of a builder, then that builder's record, whose
      type, stamp and sequence number read back from its first two tokens.
    */
    method GenerateLog() returns (line: string, kind: EventKind, typeName: string, stamp: string, serial: int)
      modifies this, base.rng, base.faker
      ensures kind in EventKinds && TypeNameOf(kind, typeName) && Stamped(stamp)
      ensures ParseAuditPrefix(line) == Some((typeName, stamp, serial))
      ensures old(sequenceCounter) + 1 <= sequenceCounter <= old(sequenceCounter) + 10
      ensures serial == sequenceCounter
    {
      WeightsPositive();
      var picked := base.WeightedChoice(EventKinds, EventWeights);
      kind := picked.value;
      var fields;
      line, typeName, stamp, serial, fields := Dispatch(kind);
      StampChars(stamp);
      TypeNameHasNoSpace(kind, typeName);
      AuditPrefixRoundTrip(typeName, stamp, serial, fields);
    }

    /** A record of the given kind, type token, stamp, sequence number and fields. */
    ghost predicate Recorded(line: string, kind: EventKind, prefix: (string, string, int), fields: seq<string>)
    {
      line == AuditRecord(prefix.0, prefix.1, prefix.2, fields) && TypeNameOf(kind, prefix.0) && Stamped(prefix.1)
    }

    /**
      generate_logs: count records in call order, each reading back as its type,
      stamp and sequence number. The sequence numbers strictly increase, and the
      counter ends between count and 10 * count above where it started, at the
      last record's number.
    */
    method GenerateLogs(count: int) returns (logs: seq<string>, kinds: seq<EventKind>, prefixes: seq<(string, string, int)>)
      modifies this, base.rng, base.faker
      ensures |logs| == |kinds| == |prefixes| == (if count < 0 then 0 else count)
      ensures forall k :: 0 <= k < |logs| ==>
        ParseAuditPrefix(logs[k]) == Some(prefixes[k]) && TypeNameOf(kinds[k], prefixes[k].0) && Stamped(prefixes[k].1)
      ensures Increasing(prefixes)
      ensures forall k :: 0 <= k < |prefixes| ==> old(sequenceCounter) < prefixes[k].2 <= sequenceCounter
      ensures |prefixes| > 0 ==> prefixes[|prefixes| - 1].2 == sequenceCounter
      ensures old(sequenceCounter) + |logs| <= sequenceCounter <= old(sequenceCounter) + 10 * |logs|
    {
      var n := if count < 0 then 0 else count;
      ghost var written;
      logs, kinds, prefixes, written := CollectRecords(n);
      BatchReadsBack(logs, kinds, prefixes, written);
    }

    /** The loop of generate_logs: n records, drawn one after another. */
    method CollectRecords(n: nat) returns (logs: seq<string>, kinds: seq<EventKind>, prefixes: seq<(string, string, int)>, ghost written: seq<seq<string>>)
      modifies this, base.rng, base.faker
      ensures |logs| == n && BatchSoFar(logs, kinds, prefixes, written, old(sequenceCounter), sequenceCounter)
    {
      ghost var start := sequenceCounter;
      written := [];
      logs, kinds, prefixes := [], [], [];
      for i := 0 to n
        invariant |logs| == i && BatchSoFar(logs, kinds, prefixes, written, start, sequenceCounter)
      {
        ghost var before := sequenceCounter;
        var line, kind, prefix, fields := BatchStep();
        BatchGrow(logs, kinds, prefixes, written, start, before, line, kind, prefix, fields, sequenceCounter);
        logs, kinds, prefixes, written := logs + [line], kinds + [kind], prefixes + [prefix], written + [fields];
      }
    }

    /**
      The records of a batch so far: each one read back as its prefix, the numbers
      increasing above `start`, the last one at `counter`, one to ten apart.
    */
    ghost predicate BatchSoFar(logs: seq<string>, kinds: seq<EventKind>, prefixes: seq<(string, string, int)>,
                               written: seq<seq<string>>, start: int, counter: int)
    {
      |logs| == |kinds| == |prefixes| == |written| &&
      (forall k :: 0 <= k < |logs| ==> Recorded(logs[k], kinds[k], prefixes[k], written[k])) &&
      Increasing(prefixes) &&
      (forall k :: 0 <= k < |prefixes| ==> start < prefixes[k].2 <= counter) &&
      (|prefixes| > 0 ==> prefixes[|prefixes| - 1].2 == counter) &&
      start + |logs| <= counter <= start + 10 * |logs|
    }

    /** One more record, numbered one to ten above the counter, extends the batch. */
    lemma BatchGrow(logs: seq<string>, kinds: seq<EventKind>, prefixes: seq<(string, string, int)>,
                    written: seq<seq<string>>, start: int, counter: int,
                    line: string, kind: EventKind, p: (string, string, int), fields: seq<string>, next: int)
      requires BatchSoFar(logs, kinds, prefixes, written, start, counter)
      requires Recorded(line, kind, p, fields) && counter + 1 <= next <= counter + 10 && p.2 == next
      ensures BatchSoFar(logs + [line], kinds + [kind], prefixes + [p], written + [fields], start, next)
    {
      RaiseSerials(prefixes, start, p);
      RecordsGrow(logs, kinds, prefixes, written, line, kind, p, fields);
    }

    /** One more record keeps every record of the batch read back as its prefix. */
    lemma RecordsGrow(logs: seq<string>, kinds: seq<EventKind>, prefixes: seq<(string, string, int)>,
                      written: seq<seq<string>>, line: string, kind: EventKind, p: (string, string, int), fields: seq<string>)
      requires |logs| == |kinds| == |prefixes| == |written|
      requires forall k :: 0 <= k < |logs| ==> Recorded(logs[k], kinds[k], prefixes[k], written[k])
      requires Recorded(line, kind, p, fields)
      ensures forall k :: 0 <= k < |logs| + 1 ==>
        Recorded((logs + [line])[k], (kinds + [kind])[k], (prefixes + [p])[k], (written + [fields])[k])
    {
      forall k | 0 <= k < |logs| + 1
        ensures Recorded((logs + [line])[k], (kinds + [kind])[k], (prefixes + [p])[k], (written + [fields])[k])
      {
        if k < |logs| {
          assert (logs + [line])[k] == logs[k] && (kinds + [kind])[k] == kinds[k];
          assert (prefixes + [p])[k] == prefixes[k] && (written + [fields])[k] == written[k];
        }
      }
    }

    /** Each record of a batch reads back as its prefix. */
    lemma BatchReadsBack(logs: seq<string>, kinds: seq<EventKind>, prefixes: seq<(string, string, int)>, written: seq<seq<string>>)
      requires |logs| == |kinds| == |prefixes| == |written|
      requires forall k :: 0 <= k < |logs| ==> Recorded(logs[k], kinds[k], prefixes[k], written[k])
      ensures forall k :: 0 <= k < |logs| ==>
        ParseAuditPrefix(logs[k]) == Some(prefixes[k]) && TypeNameOf(kinds[k], prefixes[k].0) && Stamped(prefixes[k].1)
    {
      forall k | 0 <= k < |logs|
        ensures ParseAuditPrefix(logs[k]) == Some(prefixes[k])
      {
        StampChars(prefixes[k].1);
        TypeNameHasNoSpace(kinds[k], prefixes[k].0);
        AuditPrefixRoundTrip(prefixes[k].0, prefixes[k].1, prefixes[k].2, written[k]);
      }
    }

    /** One generate_log call of the batch: its record, kind, prefix and fields. */
    method BatchStep() returns (line: string, kind: EventKind, prefix: (string, string, int), fields: seq<string>)
      modifies this, base.rng, base.faker
      ensures Recorded(line, kind, prefix, fields)
      ensures old(sequenceCounter) + 1 <= sequenceCounter <= old(sequenceCounter) + 10
      ensures prefix.2 == sequenceCounter
    {
      WeightsPositive();
      var picked := base.WeightedChoice(EventKinds, EventWeights);
      kind := picked.value;
      var typeName, stamp, serial;
      line, typeName, stamp, serial, fields := Dispatch(kind);
      prefix := (typeName, stamp, serial);
    }

    /** The builder of each kind; it reports the type token and the fields it wrote. */
    method Dispatch(kind: EventKind) returns (line: string, typeName: string, stamp: string, serial: int, fields: seq<string>)
      modifies this, base.rng, base.faker
      ensures Stamped(stamp) && TypeNameOf(kind, typeName)
      ensures line == AuditRecord(typeName, stamp, serial, fields)
      ensures old(sequenceCounter) + 1 <= sequenceCounter <= old(sequenceCounter) + 10
      ensures serial == sequenceCounter
    {
      match kind {
        case Syscall =>
          var r;
          line, stamp, serial, r := SyscallEvent();
          typeName, fields := "SYSCALL", SyscallFields(r);
        case Execve =>
          var exe, args;
          line, stamp, serial, exe, args := ExecveEvent();
          typeName, fields := "EXECVE", ExecveFields(args);
        case UserAuth =>
          var r;
          line, stamp, serial, r := UserAuthEvent();
          typeName, fields := "USER_AUTH", UserAuthFields(r);
        case UserCmd =>
          var r;
          line, stamp, serial, r := UserCmdEvent();
          typeName, fields := "USER_CMD", UserCmdFields(r);
        case Cred =>
          var r;
          line, stamp, serial, r := CredEvent();
          typeName, fields := r.kind, CredFields(r);
        case Login =>
          var r;
          line, stamp, serial, r := LoginEvent();
          typeName, fields := "LOGIN", LoginFields(r);
      }
    }

    /** _generate_syscall_event */
    method SyscallEvent() returns (line: string, stamp: string, serial: int, r: SyscallRecord)
      modifies this, base.rng
      ensures Stamped(stamp) && SyscallConsistent(r) && SyscallInRange(r)
      ensures line == AuditRecord("SYSCALL", stamp, serial, SyscallFields(r))
      ensures old(sequenceCounter) + 1 <= sequenceCounter <= old(sequenceCounter) + 10
      ensures serial == sequenceCounter
    {
      stamp, serial := AuditTimestamp();
      r := SyscallDraw();
      line := AuditRecord("SYSCALL", stamp, serial, SyscallFields(r));
    }

    /** The SYSCALL fields, drawn in the order the builder draws them. */
    method SyscallDraw() returns (r: SyscallRecord)
      modifies base.rng
      ensures SyscallConsistent(r) && SyscallInRange(r)
    {
      var number, success, exit := SyscallOutcome();
      var uid, gid, pid, ppid := SyscallIds();
      var exe, comm := SyscallExe();
      var args := SyscallArgs();
      var items := base.rng.RandInt(0, 2);
      var key := base.rng.Choice(Keys);
      r := SyscallRecord(number, success, exit, args, items, ppid, pid, uid, uid, gid, uid, gid, comm, exe, key);
    }

    /** The system call, whether it succeeded, and its exit code. */
    method SyscallOutcome() returns (number: int, success: string, exit: int)
      modifies base.rng
      ensures number in SyscallNumbers() && (success == "yes" || success == "no")
      ensures (exit == 0 <==> success == "yes") && (success == "no" ==> exit in FailureExits)
    {
      var which := base.rng.RandBelow(|Syscalls|);
      number := Syscalls[which].1;
      assert number == SyscallNumbers()[which];
      success := base.rng.Choice(Outcomes);
      exit := 0;
      if success != "yes" {
        exit := base.rng.Choice(FailureExits);
      }
    }

    method SyscallIds() returns (uid: int, gid: int, pid: int, ppid: int)
      modifies base.rng
      ensures uid in Ids && gid in Ids && 1000 <= pid <= 65535 && 1 <= ppid <= 1000
    {
      uid := base.rng.Choice(Ids);
      gid := base.rng.Choice(Ids);
      pid := base.rng.RandInt(1000, 65535);
      ppid := base.rng.RandInt(1, 1000);
    }

    /** exe from the table; comm is what follows its last slash. */
    method SyscallExe() returns (exe: string, comm: string)
      modifies base.rng
      ensures exe in ExecutablePaths() && comm == LastPart(exe, '/')
    {
      var i := base.rng.RandBelow(|Executables|);
      exe := Executables[i].0;
      assert exe == ExecutablePaths()[i];
      comm := LastPart(exe, '/');
    }

    /** One f"{random.randint(0, 0xffffffff):x}". */
    method SyscallArgDraw() returns (a: string)
      modifies base.rng
      ensures a == SyscallArg(old(base.rng.source), old(base.rng.cursor))
      ensures base.rng.source == old(base.rng.source) && base.rng.cursor == old(base.rng.cursor) + 1
    {
      var n := base.rng.RandInt(0, 0xffff_ffff);
      a := HexStr(n, false);
    }

    /** a0..a3: f"{random.randint(0, 0xffffffff):x}" four times. */
    method SyscallArgs() returns (args: seq<string>)
      modifies base.rng
      ensures args == [SyscallArg(old(base.rng.source), old(base.rng.cursor)),
                       SyscallArg(old(base.rng.source), old(base.rng.cursor) + 1),
                       SyscallArg(old(base.rng.source), old(base.rng.cursor) + 2),
                       SyscallArg(old(base.rng.source), old(base.rng.cursor) + 3)]
      ensures |args| == 4 && forall i :: 0 <= i < 4 ==> AllLowerHex(args[i]) && 1 <= |args[i]| <= 8
      ensures base.rng.source == old(base.rng.source) && base.rng.cursor == old(base.rng.cursor) + 4
    {
      var a0 := SyscallArgDraw();
      var a1 := SyscallArgDraw();
      var a2 := SyscallArgDraw();
      var a3 := SyscallArgDraw();
      args := [a0, a1, a2, a3];
    }

    /** _generate_execve_event */
    method ExecveEvent() returns (line: string, stamp: string, serial: int, exe: string, args: seq<string>)
      modifies this, base.rng
      ensures Stamped(stamp) && ExecveConsistent(exe, args)
      ensures line == AuditRecord("EXECVE", stamp, serial, ExecveFields(args))
      ensures old(sequenceCounter) + 1 <= sequenceCounter <= old(sequenceCounter) + 10
      ensures serial == sequenceCounter
    {
      stamp, serial := AuditTimestamp();
      exe, args := ExecveDraw();
      var argParts := FormatArgs(args);
      line := AuditRecord("EXECVE", stamp, serial, ["argc=" + IntStr(|args|), Join(" ", argParts)]);
    }

    /** An executable, then up to three of its arguments by random.sample. */
    method ExecveDraw() returns (exe: string, args: seq<string>)
      modifies base.rng
      ensures ExecveConsistent(exe, args)
    {
      var i := base.rng.RandBelow(|Executables|);
      var pool;
      exe, pool := Executables[i].0, Executables[i].1;
      var wanted := base.rng.RandInt(1, 3);
      var k := if |pool| < wanted then |pool| else wanted;
      ArgumentListsDistinct();
      ghost var src, start := base.rng.source, base.rng.cursor;
      var picked := base.rng.Sample(pool, k);
      args := picked.value;
      PoolSampleMultiset(pool, Upcoming(src, start, k));
      SampleDistinct(pool, args);
    }

    /** The argument loop: a{i}="<arg>" for each picked argument, in order. */
    method FormatArgs(args: seq<string>) returns (parts: seq<string>)
      ensures parts == ArgParts(args)
    {
      parts := [];
      for i := 0 to |args|
        invariant parts == ArgParts(args[..i])
      {
        assert args[..i + 1] == args[..i] + [args[i]];
        parts := parts + [ArgPart(i, args[i])];
      }
      assert args[..|args|] == args;
    }

    /** _generate_user_auth_event */
    method UserAuthEvent() returns (line: string, stamp: string, serial: int, r: UserAuthRecord)
      modifies this, base.rng, base.faker
      ensures Stamped(stamp) && UserAuthConsistent(r)
      ensures line == AuditRecord("USER_AUTH", stamp, serial, UserAuthFields(r))
      ensures old(sequenceCounter) + 1 <= sequenceCounter <= old(sequenceCounter) + 10
      ensures serial == sequenceCounter
    {
      stamp, serial := AuditTimestamp();
      r := UserAuthDraw();
      line := AuditRecord("USER_AUTH", stamp, serial, UserAuthFields(r));
    }

    method UserAuthDraw() returns (r: UserAuthRecord)
      modifies base.rng, base.faker
      ensures UserAuthConsistent(r)
    {
      var user := base.GenerateUsername();
      var terminal := base.rng.Choice(AuthTerminals);
      var ip := None;
      if Contains(terminal, "ssh") {
        var addr, a := base.GenerateIpAddress(false);
        ip := Some(a);
      }
      var res, exe, pid, uid, auid := UserAuthOutcome();
      r := UserAuthRecord(pid, uid, auid, user, exe, ip, terminal, res);
    }

    /** The result (success three times in four), the executable and the ids. */
    method UserAuthOutcome() returns (res: string, exe: string, pid: int, uid: int, auid: int)
      modifies base.rng
      ensures (res == "success" || res == "failed") && exe in AuthExes
      ensures (uid == 0 || uid == 1000) && 1000 <= auid <= 2000 && 1000 <= pid <= 65535
    {
      var success := base.rng.Choice(Outcomes);
      res := if success == "yes" then "success" else "failed";
      exe := base.rng.Choice(AuthExes);
      pid := base.rng.RandInt(1000, 65535);
      uid := base.rng.Choice([0, 1000]);
      auid := base.rng.RandInt(1000, 2000);
    }

    /** _generate_user_cmd_event */
    method UserCmdEvent() returns (line: string, stamp: string, serial: int, r: UserCmdRecord)
      modifies this, base.rng, base.faker
      ensures Stamped(stamp) && UserCmdConsistent(r)
      ensures line == AuditRecord("USER_CMD", stamp, serial, UserCmdFields(r))
      ensures old(sequenceCounter) + 1 <= sequenceCounter <= old(sequenceCounter) + 10
      ensures serial == sequenceCounter
    {
      stamp, serial := AuditTimestamp();
      r := UserCmdDraw();
      line := AuditRecord("USER_CMD", stamp, serial, UserCmdFields(r));
    }

    method UserCmdDraw() returns (r: UserCmdRecord)
      modifies base.rng, base.faker
      ensures UserCmdConsistent(r)
    {
      var user := base.GenerateUsername();
      var tty := base.rng.RandInt(0, 5);
      var command := base.rng.Choice(UserCommands);
      var pid := base.rng.RandInt(1000, 65535);
      var uid := base.rng.RandInt(1000, 2000);
      var auid := base.rng.RandInt(1000, 2000);
      r := UserCmdRecord(pid, uid, auid, user, command, tty);
    }

    /** _generate_cred_event */
    method CredEvent() returns (line: string, stamp: string, serial: int, r: CredRecord)
      modifies this, base.rng, base.faker
      ensures Stamped(stamp) && CredConsistent(r)
      ensures line == AuditRecord(r.kind, stamp, serial, CredFields(r))
      ensures old(sequenceCounter) + 1 <= sequenceCounter <= old(sequenceCounter) + 10
      ensures serial == sequenceCounter
    {
      stamp, serial := AuditTimestamp();
      r := CredDraw();
      line := AuditRecord(r.kind, stamp, serial, CredFields(r));
    }

    method CredDraw() returns (r: CredRecord)
      modifies base.rng, base.faker
      ensures CredConsistent(r)
    {
      var kind := base.rng.Choice(CredTypes);
      var user := base.GenerateUsername();
      var terminal := base.rng.Choice(Ptys(["ssh", ":0"]));
      var exe := base.rng.Choice(CredExes);
      var res := base.rng.Choice(CredResults);
      var pid := base.rng.RandInt(1000, 65535);
      var uid := base.rng.Choice([0, 1000]);
      var auid := base.rng.RandInt(1000, 2000);
      r := CredRecord(kind, pid, uid, auid, user, exe, terminal, res);
    }

    /** _generate_login_event */
    method LoginEvent() returns (line: string, stamp: string, serial: int, r: LoginRecord)
      modifies this, base.rng, base.faker
      ensures Stamped(stamp) && LoginConsistent(r)
      ensures line == AuditRecord("LOGIN", stamp, serial, LoginFields(r))
      ensures old(sequenceCounter) + 1 <= sequenceCounter <= old(sequenceCounter) + 10
      ensures serial == sequenceCounter
    {
      stamp, serial := AuditTimestamp();
      r := LoginDraw();
      line := AuditRecord("LOGIN", stamp, serial, LoginFields(r));
    }

    method LoginDraw() returns (r: LoginRecord)
      modifies base.rng, base.faker
      ensures LoginConsistent(r)
    {
      var user := base.GenerateUsername();
      var uid := base.rng.RandInt(1000, 2000);
      var oldAuid := OldAuid();
      var tty := base.rng.Choice(Ptys(["/dev/tty1"]));
      var res := base.rng.Choice(LoginResults);
      var pid := base.rng.RandInt(1000, 65535);
      var ses := base.rng.RandInt(1, 999);
      r := LoginRecord(pid, uid, oldAuid, uid, tty, "unset", ses, res);
    }

    /** 'unset' if random.random() > 0.5, else the text of a fresh draw in [1000, 2000]. */
    method OldAuid() returns (oldAuid: string)
      modifies base.rng
      ensures oldAuid == "unset" || exists a :: 1000 <= a <= 2000 && oldAuid == IntStr(a)
    {
      var u := base.rng.Random();
      if u > 0.5 {
        oldAuid := "unset";
      } else {
        var a := base.rng.RandInt(1000, 2000);
        oldAuid := IntStr(a);
      }
    }
  }
}
