/**
  The Linux syslog generator: seven event builders and the weighted dispatch
  over them. A line is "<timestamp> <host> <process>[<pid>]: <message>", or
  "<timestamp> <host> kernel: <message>" for kernel events, close to the
  HEADER and MSG parts of section 4.1 of RFC 3164 but without a PRI part.
*/
module Syslog {
  import opened Common
  import opened Text
  import opened Net
  import opened Random
  import opened Base
  import Fake

  const Users: seq<string> :=
    ["root", "admin", "ubuntu", "centos", "deploy", "ansible", "jenkins", "www-data", "mysql", "postgres", "redis"]

  /** Extra names a failed SSH login can be attempted with. */
  const ProbeUsers: seq<string> := ["invalid", "test", "guest", "oracle"]

  const SudoCommands: seq<string> := [
    "/usr/bin/systemctl restart nginx", "/usr/bin/systemctl status apache2", "/usr/bin/apt update",
    "/usr/bin/yum update", "/bin/cat /var/log/syslog", "/usr/bin/docker ps",
    "/usr/bin/docker restart webapp", "/bin/journalctl -u sshd", "/usr/sbin/iptables -L",
    "/usr/bin/vim /etc/nginx/nginx.conf"]

  const CronCommands: seq<string> := [
    "/usr/bin/backup.sh", "/usr/local/bin/cleanup.sh", "/home/user/scripts/monitor.py",
    "/usr/bin/certbot renew", "/usr/bin/updatedb"]

  const Services: seq<string> := [
    "nginx.service", "apache2.service", "mysql.service", "postgresql.service", "redis.service",
    "docker.service", "sshd.service", "cron.service", "ufw.service"]

  const AuthProcesses: seq<string> := ["systemd-logind", "su", "login"]
  const OutInterfaces: seq<string> := ["eth0", "eth1", "ens33", "enp0s3"]
  const InInterfaces: seq<string> := ["eth0", "eth1"]
  const HexAlphabet: string := "0123456789abcdef"
  const TimestampFormat: string := "%b %d %H:%M:%S"

  /** The builders of generate_log, in the order of its weight table. */
  datatype EventKind = Ssh | Sudo | Auth | Cron | Systemd | Kernel | Network

  const EventKinds: seq<EventKind> := [Ssh, Sudo, Auth, Cron, Systemd, Kernel, Network]
  const EventWeights: seq<real> := [0.3, 0.15, 0.15, 0.1, 0.15, 0.05, 0.1]

  datatype SshKind = Accepted | Failed | Disconnect

  const SshKinds: seq<SshKind> := [Accepted, Failed, Disconnect]
  const SshWeights: seq<real> := [0.6, 0.3, 0.1]

  /** The parts of one line; kernel lines have no pid. */
  datatype Entry = Entry(timestamp: string, hostname: string, process: string, pid: Option<nat>, message: string)

  /** _format_syslog */
  function FormatSyslog(timestamp: string, hostname: string, process: string, pid: int, message: string): string
  {
    timestamp + " " + hostname + " " + process + "[" + IntStr(pid) + "]: " + message
  }

  function Render(e: Entry): string
  {
    match e.pid
    case Some(pid) => FormatSyslog(e.timestamp, e.hostname, e.process, pid, e.message)
    case None => e.timestamp + " " + e.hostname + " " + e.process + ": " + e.message
  }

  /** The entries whose lines read back unambiguously: single-word host and bracket-free process. */
  predicate WellFormed(e: Entry)
  {
    !HasChar(e.hostname, ' ') &&
    !HasChar(e.process, ' ') && !HasChar(e.process, '[') && !HasChar(e.process, ']')
  }

  /** Reads the "<process>[<pid>]:" or "<process>:" token. */
  function ParseTag(tag: string): Option<(string, Option<nat>)>
  {
    if EndsWith(tag, "]:") then
      match SplitFirst(tag[..|tag| - 2], '[')
      case Some((process, digits)) =>
        if |digits| >= 1 && AllDigits(digits) then Some((process, Some(DigitsValue(digits)))) else None
      case None => None
    else if EndsWith(tag, ":") then Some((tag[..|tag| - 1], None))
    else None
  }

  /** Reads a line back into its parts, given the timestamp it starts with. */
  function ParseSyslog(timestamp: string, line: string): Option<Entry>
  {
    if !StartsWith(line, timestamp + " ") then None
    else
      match SplitFirst(line[|timestamp| + 1..], ' ')
      case None => None
      case Some((hostname, rest)) =>
        match SplitFirst(rest, ' ')
        case None => None
        case Some((tag, message)) =>
          match ParseTag(tag)
          case None => None
          case Some((process, pid)) => Some(Entry(timestamp, hostname, process, pid, message))
  }

  lemma TagRoundTrip(process: string, pid: Option<nat>)
    requires !HasChar(process, '[') && !HasChar(process, ']')
    ensures pid.Some? ==> ParseTag(process + "[" + NatStr(pid.value) + "]:") == Some((process, pid))
    ensures pid.None? ==> ParseTag(process + ":") == Some((process, pid))
  {
    if pid.Some? {
      var digits := NatStr(pid.value);
      var tag := process + "[" + digits + "]:";
      assert tag[..|tag| - 2] == process + ['['] + digits;
      SplitFirstAt(process, digits, '[');
      NatStrRoundTrip(pid.value);
    } else {
      var tag := process + ":";
      assert !EndsWith(tag, "]:") by {
        if |process| >= 1 {
          assert tag[|tag| - 2] == process[|process| - 1];
        }
      }
      assert tag[..|tag| - 1] == process;
    }
  }

  /** The text after the timestamp reads back as host, tag and message. */
  lemma BodyRoundTrip(hostname: string, tag: string, message: string)
    requires !HasChar(hostname, ' ') && !HasChar(tag, ' ')
    ensures SplitFirst(hostname + " " + tag + " " + message, ' ') == Some((hostname, tag + " " + message))
    ensures SplitFirst(tag + " " + message, ' ') == Some((tag, message))
  {
    assert hostname + " " + tag + " " + message == hostname + [' '] + (tag + [' '] + message);
    SplitFirstAt(hostname, tag + [' '] + message, ' ');
    SplitFirstAt(tag, message, ' ');
  }

  /** Every well-formed entry's line reads back as the entry. */
  lemma SyslogRoundTrip(e: Entry)
    requires WellFormed(e)
    ensures ParseSyslog(e.timestamp, Render(e)) == Some(e)
  {
    var tag := if e.pid.Some? then e.process + "[" + NatStr(e.pid.value) + "]:" else e.process + ":";
    var body := e.hostname + " " + tag + " " + e.message;
    assert Render(e) == (e.timestamp + " ") + body;
    Concat(e.timestamp + " ", body);
    assert !HasChar(tag, ' ') by {
      if e.pid.Some? {
        assert AllDigits(NatStr(e.pid.value));
        assert ' ' !in NatStr(e.pid.value);
      }
    }
    BodyRoundTrip(e.hostname, tag, e.message);
    TagRoundTrip(e.process, e.pid);
  }

  /** A kernel line has no pid bracket: "<ts> <host> kernel: <message>". */
  lemma KernelShape(e: Entry)
    requires e.process == "kernel" && e.pid.None?
    ensures Render(e) == e.timestamp + " " + e.hostname + " kernel: " + e.message
  {
    assert " " + "kernel" + ": " == " kernel: ";
  }

  /** Distinct well-formed entries with the same timestamp print as distinct lines. */
  lemma RenderInjective(e1: Entry, e2: Entry)
    requires WellFormed(e1) && WellFormed(e2) && e1.timestamp == e2.timestamp
    requires Render(e1) == Render(e2)
    ensures e1 == e2
  {
    SyslogRoundTrip(e1);
    SyslogRoundTrip(e2);
  }

  // ---------------------------------------------------------------------
  // Messages
  // ---------------------------------------------------------------------

  function AcceptedMessages(user: string, ip: string, port: int, key: string): seq<string>
  {
    ["Accepted password for " + user + " from " + ip + " port " + IntStr(port) + " ssh2",
     "Accepted publickey for " + user + " from " + ip + " port " + IntStr(port) + " ssh2: RSA SHA256:" + key,
     "pam_unix(sshd:session): session opened for user " + user + " by (uid=0)"]
  }

  function FailedMessages(user: string, ip: string, port: int): seq<string>
  {
    ["Failed password for " + user + " from " + ip + " port " + IntStr(port) + " ssh2",
     "Failed password for invalid user " + user + " from " + ip + " port " + IntStr(port) + " ssh2",
     "Connection closed by authenticating user " + user + " " + ip + " port " + IntStr(port) + " [preauth]",
     "Invalid user " + user + " from " + ip + " port " + IntStr(port),
     "Received disconnect from " + ip + " port " + IntStr(port) + ":11: Bye Bye [preauth]"]
  }

  function DisconnectMessage(ip: string, port: int): string
  {
    "Received disconnect from " + ip + " port " + IntStr(port) + ":11: disconnected by user"
  }

  const RootTarget: string := " ; USER=root ; COMMAND="
  const Refusal: string := "command not allowed ; "

  function SudoTail(user: string, tty: int, command: string): string
  {
    ("TTY=pts/" + IntStr(tty) + " ; PWD=/home/" + user) + (RootTarget + command)
  }

  /**
    The sudo message: it opens with "<user> : " and ends with the root target
    and the command.
  */
  function SudoMessage(user: string, tty: int, command: string, success: bool): (m: string)
    ensures StartsWith(m, user + " : ")
    ensures EndsWith(m, RootTarget + command)
  {
    var tail := SudoTail(user, tty, command);
    var rest := (if success then "" else Refusal) + tail;
    Concat("TTY=pts/" + IntStr(tty) + " ; PWD=/home/" + user, RootTarget + command);
    EndsWithAfter(if success then "" else Refusal, tail, RootTarget + command);
    EndsWithAfter(user + " : ", rest, RootTarget + command);
    Concat(user + " : ", rest);
    (user + " : ") + rest
  }

  /** The refused form is the granted one with "command not allowed ; " inserted after "<user> : ". */
  lemma SudoRefusalInserts(user: string, tty: int, command: string)
    ensures SudoMessage(user, tty, command, false) ==
      user + " : " + Refusal + SudoMessage(user, tty, command, true)[|user| + 3..]
  {
    var tail := SudoTail(user, tty, command);
    assert SudoMessage(user, tty, command, true) == (user + " : ") + tail;
    Concat(user + " : ", tail);
  }

  function AuthMessages(user: string, newSession: int, removed: int): seq<string>
  {
    ["pam_unix(cron:session): session opened for user " + user + " by (uid=0)",
     "pam_unix(cron:session): session closed for user " + user,
     "pam_unix(sudo:session): session opened for user root by " + user + "(uid=0)",
     "pam_unix(sudo:session): session closed for user root",
     "New session " + IntStr(newSession) + " of user " + user + ".",
     "Removed session " + IntStr(removed) + "."]
  }

  function CronMessages(user: string, command: string): seq<string>
  {
    ["(" + user + ") CMD (" + command + ")",
     "(CRON) info (No MTA installed, discarding output)",
     "(" + user + ") CMD (cd /var/www && php artisan schedule:run)"]
  }

  function SystemdMessages(service: string): seq<string>
  {
    ["Started " + service + ".", "Stopped " + service + ".", "Reloading " + service + ".",
     "Stopping " + service + "...", "Starting " + service + "...", service + ": Succeeded.",
     service + ": Main process exited, code=exited, status=0/SUCCESS"]
  }

  /** The values one kernel event draws, in draw order. */
  datatype KernelDraws = KernelDraws(
    outIf: string, mac1: string, src1: Ipv4, dst1: Ipv4,
    inIf: string, mac2: string, src2: Ipv4, dst2: Ipv4, dport: int, usbDevice: int)

  function KernelMessages(d: KernelDraws): seq<string>
  {
    ["Kernel logging (proc) stopped.",
     "Kernel log daemon terminating.",
     "OUT=" + d.outIf + " MAC=" + d.mac1 + " SRC=" + d.src1.Dotted() + " DST=" + d.dst1.Dotted(),
     "[UFW BLOCK] IN=" + d.inIf + " OUT= MAC=" + d.mac2 + " SRC=" + d.src2.Dotted() + " DST=" + d.dst2.Dotted() +
       " PROTO=TCP DPT=" + IntStr(d.dport),
     "usb 1-1: new high-speed USB device number " + IntStr(d.usbDevice) + " using ehci-pci"]
  }

  /** Text generate_mac_address can print: the MAC address of some six octets. */
  ghost predicate MacText(m: string)
  {
    exists o: seq<Octet> :: |o| == 6 && m == Mac(o)
  }

  /**
    What the kernel builder draws: listed interfaces, two MAC addresses, private
    addresses except the public UFW source, an unprivileged port and a USB
    device number in [2, 10].
  */
  ghost predicate KernelDrawsOk(d: KernelDraws)
  {
    d.outIf in OutInterfaces && MacText(d.mac1) && GeneratedPrivate(d.src1) && GeneratedPrivate(d.dst1) &&
    d.inIf in InInterfaces && MacText(d.mac2) && !InRfc1918(d.src2) && GeneratedPrivate(d.dst2) &&
    1024 <= d.dport <= 65535 && 2 <= d.usbDevice <= 10
  }

  /**
    The (message, process) pairs of a network event: the DHCPACK message and
    only it goes with dhclient, every other with NetworkManager.
  */
  function NetworkEvents(lease: string, xid: nat, server: string, connection: int): (events: seq<(string, string)>)
    ensures |events| == 4
    ensures forall i :: 0 <= i < 4 ==>
      (events[i].1 == "dhclient" <==> StartsWith(events[i].0, "DHCPACK")) &&
      (events[i].1 == "dhclient" || events[i].1 == "NetworkManager")
  {
    var events := [
      ("DHCPACK from " + lease + " (xid=0x" + HexStr(xid, false) + ")", "dhclient"),
      ("Server " + server + " not responding, still trying", "NetworkManager"),
      ("link becomes ready", "NetworkManager"),
      ("Connection 'Wired connection 1' (" + IntStr(connection) + ") successfully activated.", "NetworkManager")];
    assert StartsWith(events[0].0, "DHCPACK");
    assert events[1].0[0] == 'S' && events[2].0[0] == 'l' && events[3].0[0] == 'C';
    events
  }

  /** [u for u in users if u != x] */
  function Without(users: seq<string>, x: string): (r: seq<string>)
    ensures forall u :: u in r <==> u in users && u != x
  {
    if users == [] then []
    else (if users[0] == x then [] else [users[0]]) + Without(users[1..], x)
  }

  lemma SudoersNonEmpty()
    ensures |Without(Users, "root")| > 0
  {
    assert "admin" in Users;
    assert "admin" != "root";
  }

  lemma WeightsPositive()
    ensures Sum(EventWeights) > 0.0 && Sum(SshWeights) > 0.0
  {
  }

  lemma HexAlphabetIsLowerHex()
    ensures forall j :: 0 <= j < |HexAlphabet| ==> IsLowerHex(HexAlphabet[j])
  {
  }

  /** The pid range of each builder; kernel lines have none. */
  predicate PidInRange(kind: EventKind, pid: Option<nat>)
  {
    match kind
    case Kernel => pid.None?
    case Systemd => pid.Some? && 1 <= pid.value <= 2000
    case _ => pid.Some? && 1000 <= pid.value <= 65535
  }

  /** The process names each builder uses. */
  predicate ProcessOf(kind: EventKind, process: string)
  {
    match kind
    case Ssh => process == "sshd"
    case Sudo => process == "sudo"
    case Auth => process in AuthProcesses
    case Cron => process == "CRON"
    case Systemd => process == "systemd"
    case Kernel => process == "kernel"
    case Network => process == "dhclient" || process == "NetworkManager"
  }

  /** Every process name a builder uses keeps its line parseable. */
  lemma ProcessesWellFormed(kind: EventKind, process: string)
    requires ProcessOf(kind, process)
    ensures !HasChar(process, ' ') && !HasChar(process, '[') && !HasChar(process, ']')
  {
  }

  /** Only the network builder picks its process by the message: dhclient exactly for DHCPACK. */
  predicate MessageFitsProcess(kind: EventKind, e: Entry)
  {
    kind == Network ==> (e.process == "dhclient" <==> StartsWith(e.message, "DHCPACK"))
  }

  class SyslogGenerator {
    const base: BaseGenerator

    constructor (base: BaseGenerator)
      ensures this.base == base
    {
      this.base := base;
    }

    /** The timestamps the builders print: some instant of the last 7 days, formatted. */
    ghost predicate Stamped(ts: string)
    {
      exists t :: base.currentTime - 7 * SecondsPerDay * MicrosPerSecond <= t <= base.currentTime &&
        ts == base.strftime(TimestampFormat, t)
    }

    /** The timestamp and host name every builder draws first. */
    method Header() returns (ts: string, host: string)
      modifies base.rng
      ensures Stamped(ts) && GeneratedHost(host)
    {
      var t;
      ts, t := base.GenerateTimestamp(TimestampFormat, 7);
      var p, n;
      host, p, n := base.GenerateHostname(None);
    }

    /** generate_log: a weighted pick of a builder, then that builder's line. */
    method GenerateLog() returns (line: string, kind: EventKind, e: Entry)
      modifies base.rng, base.faker
      ensures line == Render(e) && WellFormed(e)
      ensures kind in EventKinds && PidInRange(kind, e.pid) && ProcessOf(kind, e.process)
      ensures MessageFitsProcess(kind, e)
      ensures Stamped(e.timestamp) && GeneratedHost(e.hostname)
    {
      WeightsPositive();
      var picked := base.WeightedChoice(EventKinds, EventWeights);
      kind := picked.value;
      line, e := Dispatch(kind);
      GeneratedHostHasNoSpace(e.hostname);
      ProcessesWellFormed(kind, e.process);
    }

    /** What generate_log promises of one line: its entry, kind, pid, process, stamp and host. */
    ghost predicate Emitted(line: string, kind: EventKind, e: Entry)
    {
      line == Render(e) && WellFormed(e) && kind in EventKinds && PidInRange(kind, e.pid) &&
      ProcessOf(kind, e.process) && MessageFitsProcess(kind, e) && Stamped(e.timestamp) && GeneratedHost(e.hostname)
    }

    /** generate_logs: count lines, each one generate_log call, in call order. */
    method GenerateLogs(count: int) returns (logs: seq<string>, kinds: seq<EventKind>, entries: seq<Entry>)
      modifies base.rng, base.faker
      ensures |logs| == |kinds| == |entries| == (if count < 0 then 0 else count)
      ensures forall k :: 0 <= k < |logs| ==> Emitted(logs[k], kinds[k], entries[k])
    {
      var n := if count < 0 then 0 else count;
      logs, kinds, entries := [], [], [];
      for i := 0 to n
        invariant |logs| == |kinds| == |entries| == i
        invariant forall k :: 0 <= k < i ==> Emitted(logs[k], kinds[k], entries[k])
      {
        var line, kind, e := GenerateLog();
        assert Emitted(line, kind, e);
        logs, kinds, entries := logs + [line], kinds + [kind], entries + [e];
      }
    }

    /** The builder of each kind. */
    method Dispatch(kind: EventKind) returns (line: string, e: Entry)
      modifies base.rng, base.faker
      ensures line == Render(e)
      ensures PidInRange(kind, e.pid) && ProcessOf(kind, e.process) && MessageFitsProcess(kind, e)
      ensures Stamped(e.timestamp) && GeneratedHost(e.hostname)
    {
      match kind {
        case Ssh =>
          var sshKind, user, ip, port, key;
          line, e, sshKind, user, ip, port, key := SshEvent();
        case Sudo =>
          var user, command, success;
          line, e, user, command, success := SudoEvent();
        case Auth => line, e := AuthEvent();
        case Cron => line, e := CronEvent();
        case Systemd => line, e := SystemdEvent();
        case Kernel => line, e := KernelEvent();
        case Network => line, e := NetworkEvent();
      }
    }

    /** _generate_ssh_event */
    method SshEvent() returns (line: string, e: Entry, kind: SshKind, user: string, ip: Ipv4, port: int, key: string)
      modifies base.rng, base.faker
      ensures PidInRange(Ssh, e.pid) && ProcessOf(Ssh, e.process) && MessageFitsProcess(Ssh, e)
      ensures line == Render(e) && e.process == "sshd" && e.pid.Some? && 1000 <= e.pid.value <= 65535
      ensures Stamped(e.timestamp) && GeneratedHost(e.hostname)
      ensures kind in SshKinds && !InRfc1918(ip) && 40000 <= port <= 65000
      ensures kind == Accepted ==>
        user in Users && |key| == 43 && AllLowerHex(key) &&
        e.message in AcceptedMessages(user, ip.Dotted(), port, key)
      ensures kind == Failed ==> user in Users + ProbeUsers && e.message in FailedMessages(user, ip.Dotted(), port)
      ensures kind == Disconnect ==> e.message == DisconnectMessage(ip.Dotted(), port)
    {
      var ts, host := Header();
      var pid := base.rng.RandInt(1000, 65535);
      WeightsPositive();
      var picked := base.WeightedChoice(SshKinds, SshWeights);
      kind := picked.value;
      var message;
      user, key := "", "";
      if kind == Accepted {
        message, user, ip, port, key := SshAccepted();
      } else if kind == Failed {
        message, user, ip, port := SshFailed();
      } else {
        var src;
        src, ip := base.GenerateIpAddress(false);
        port := base.rng.RandInt(40000, 65000);
        message := DisconnectMessage(src, port);
      }
      e := Entry(ts, host, "sshd", Some(pid), message);
      line := Render(e);
    }

    /** The accepted branch: the publickey message's 43 hex digits are drawn whichever message is kept. */
    method SshAccepted() returns (message: string, user: string, ip: Ipv4, port: int, key: string)
      modifies base.rng, base.faker
      ensures user in Users && !InRfc1918(ip) && 40000 <= port <= 65000
      ensures |key| == 43 && AllLowerHex(key)
      ensures message in AcceptedMessages(user, ip.Dotted(), port, key)
    {
      user := base.rng.Choice(Users);
      var src;
      src, ip := base.GenerateIpAddress(false);
      port := base.rng.RandInt(40000, 65000);
      key := base.rng.Choices(HexAlphabet, 43);
      HexAlphabetIsLowerHex();
      message := base.rng.Choice(AcceptedMessages(user, src, port, key));
    }

    /** The failed branch: the user may also be one of the probe names. */
    method SshFailed() returns (message: string, user: string, ip: Ipv4, port: int)
      modifies base.rng, base.faker
      ensures user in Users + ProbeUsers && !InRfc1918(ip) && 40000 <= port <= 65000
      ensures message in FailedMessages(user, ip.Dotted(), port)
    {
      user := base.rng.Choice(Users + ProbeUsers);
      var src;
      src, ip := base.GenerateIpAddress(false);
      port := base.rng.RandInt(40000, 65000);
      message := base.rng.Choice(FailedMessages(user, src, port));
    }

    /** _generate_sudo_event */
    method SudoEvent() returns (line: string, e: Entry, user: string, command: string, success: bool)
      modifies base.rng
      ensures PidInRange(Sudo, e.pid) && ProcessOf(Sudo, e.process) && MessageFitsProcess(Sudo, e)
      ensures line == Render(e) && e.process == "sudo" && e.pid.Some? && 1000 <= e.pid.value <= 65535
      ensures Stamped(e.timestamp) && GeneratedHost(e.hostname)
      ensures user in Users && user != "root" && command in SudoCommands
      ensures exists tty :: 0 <= tty <= 5 && e.message == SudoMessage(user, tty, command, success)
    {
      var ts, host := Header();
      var pid := base.rng.RandInt(1000, 65535);
      var message;
      message, user, command, success := SudoDraw();
      e := Entry(ts, host, "sudo", Some(pid), message);
      line := Render(e);
    }

    /** The sudo message's draws: user, command, outcome (random() > 0.1), then the tty. */
    method SudoDraw() returns (message: string, user: string, command: string, success: bool)
      modifies base.rng
      ensures user in Users && user != "root" && command in SudoCommands
      ensures exists tty :: 0 <= tty <= 5 && message == SudoMessage(user, tty, command, success)
    {
      var sudoers := Without(Users, "root");
      SudoersNonEmpty();
      user := base.rng.Choice(sudoers);
      command := base.rng.Choice(SudoCommands);
      var u := base.rng.Random();
      success := u > 0.1;
      var tty := base.rng.RandInt(0, 5);
      message := SudoMessage(user, tty, command, success);
    }

    /** _generate_auth_event */
    method AuthEvent() returns (line: string, e: Entry)
      modifies base.rng
      ensures PidInRange(Auth, e.pid) && ProcessOf(Auth, e.process) && MessageFitsProcess(Auth, e)
      ensures line == Render(e) && e.process in AuthProcesses && e.pid.Some? && 1000 <= e.pid.value <= 65535
      ensures Stamped(e.timestamp) && GeneratedHost(e.hostname)
      ensures exists user, newSession, removed ::
        user in Users && 1 <= newSession <= 999 && 1 <= removed <= 999 && e.message in AuthMessages(user, newSession, removed)
    {
      var ts, host := Header();
      var pid := base.rng.RandInt(1000, 65535);
      var user := base.rng.Choice(Users);
      var newSession := base.rng.RandInt(1, 999);
      var removed := base.rng.RandInt(1, 999);
      var message := base.rng.Choice(AuthMessages(user, newSession, removed));
      var process := base.rng.Choice(AuthProcesses);
      e := Entry(ts, host, process, Some(pid), message);
      line := Render(e);
    }

    /** _generate_cron_event */
    method CronEvent() returns (line: string, e: Entry)
      modifies base.rng
      ensures PidInRange(Cron, e.pid) && ProcessOf(Cron, e.process) && MessageFitsProcess(Cron, e)
      ensures line == Render(e) && e.process == "CRON" && e.pid.Some? && 1000 <= e.pid.value <= 65535
      ensures Stamped(e.timestamp) && GeneratedHost(e.hostname)
      ensures exists user, command ::
        user in Users && command in CronCommands && e.message in CronMessages(user, command)
    {
      var ts, host := Header();
      var pid := base.rng.RandInt(1000, 65535);
      var user := base.rng.Choice(Users);
      var command := base.rng.Choice(CronCommands);
      var message := base.rng.Choice(CronMessages(user, command));
      e := Entry(ts, host, "CRON", Some(pid), message);
      line := Render(e);
    }

    /** _generate_systemd_event */
    method SystemdEvent() returns (line: string, e: Entry)
      modifies base.rng
      ensures PidInRange(Systemd, e.pid) && ProcessOf(Systemd, e.process) && MessageFitsProcess(Systemd, e)
      ensures line == Render(e) && e.process == "systemd" && e.pid.Some? && 1 <= e.pid.value <= 2000
      ensures Stamped(e.timestamp) && GeneratedHost(e.hostname)
      ensures exists service :: service in Services && e.message in SystemdMessages(service)
    {
      var ts, host := Header();
      var pid := base.rng.RandInt(1, 2000);
      var service := base.rng.Choice(Services);
      var message := base.rng.Choice(SystemdMessages(service));
      e := Entry(ts, host, "systemd", Some(pid), message);
      line := Render(e);
    }

    /** The values the kernel builder draws, in the order its message list is built. */
    method KernelValues() returns (d: KernelDraws)
      modifies base.rng, base.faker
      ensures KernelDrawsOk(d)
    {
      var outIf := base.rng.Choice(OutInterfaces);
      var mac1, octets1 := base.GenerateMacAddress();
      var src1, ip1 := base.GenerateIpAddress(true);
      var dst1, ip2 := base.GenerateIpAddress(true);
      var inIf := base.rng.Choice(InInterfaces);
      var mac2, octets2 := base.GenerateMacAddress();
      var src2, ip3 := base.GenerateIpAddress(false);
      var dst2, ip4 := base.GenerateIpAddress(true);
      var dport := base.GeneratePort(false);
      var usbDevice := base.rng.RandInt(2, 10);
      d := KernelDraws(outIf, mac1, ip1, ip2, inIf, mac2, ip3, ip4, dport, usbDevice);
    }

    /** _generate_kernel_event: every listed message is built, in order, before one is picked. */
    method KernelEvent() returns (line: string, e: Entry)
      modifies base.rng, base.faker
      ensures PidInRange(Kernel, e.pid) && ProcessOf(Kernel, e.process) && MessageFitsProcess(Kernel, e)
      ensures line == Render(e) && e.process == "kernel" && e.pid.None?
      ensures line == e.timestamp + " " + e.hostname + " kernel: " + e.message
      ensures Stamped(e.timestamp) && GeneratedHost(e.hostname)
      ensures exists d :: KernelDrawsOk(d) && e.message in KernelMessages(d)
    {
      var ts, host := Header();
      var d := KernelValues();
      var message := base.rng.Choice(KernelMessages(d));
      e := Entry(ts, host, "kernel", None, message);
      line := Render(e);
      KernelShape(e);
    }

    /** _generate_network_event */
    method NetworkEvent() returns (line: string, e: Entry)
      modifies base.rng, base.faker
      ensures PidInRange(Network, e.pid) && ProcessOf(Network, e.process) && MessageFitsProcess(Network, e)
      ensures line == Render(e) && e.pid.Some? && 1000 <= e.pid.value <= 65535
      ensures e.process == "dhclient" || e.process == "NetworkManager"
      ensures e.process == "dhclient" <==> StartsWith(e.message, "DHCPACK")
      ensures Stamped(e.timestamp) && GeneratedHost(e.hostname)
    {
      var ts, host := Header();
      var pid := base.rng.RandInt(1000, 65535);
      var lease, ip1 := base.GenerateIpAddress(true);
      var xid := base.rng.RandInt(10000000, 99999999);
      var server, ip2 := base.GenerateIpAddress(true);
      var connection := base.rng.RandInt(1000, 9999);
      var events := NetworkEvents(lease, xid, server, connection);
      var pair := base.rng.Choice(events);
      var message, process := pair.0, pair.1;
      e := Entry(ts, host, process, Some(pid), message);
      line := Render(e);
    }
  }
}
