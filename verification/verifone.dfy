/**
  The Verifone POS security log generator: the millisecond timestamp, the six
  line builders, the weighted dispatch and the batch path that sorts its lines
  in reverse string order.

  A line is "<timestamp>     - Store <id> - <store ip> - <body>". The body of the
  four HTTP-request kinds starts with the level/category segment
  "WARN  security - " and ends with the four characters \012; the PAM/SSH and
  SSH-error bodies are the bare message.

  Instants are naive local datetimes counted in microseconds. The calendar that
  turns an instant into year, month, day and time of day is an oracle, and
  datetime.now() is a parameter.
*/
module Verifone {
  import opened Common
  import opened Text
  import opened Net
  import opened Random
  import opened Base
  import opened Sorting

  // ---------------------------------------------------------------------
  // Timestamps
  // ---------------------------------------------------------------------

  /** The fields of a naive datetime. */
  datatype DateTime = DateTime(year: nat, month: nat, day: nat, hour: nat, minute: nat, second: nat, micro: nat)

  /** Field ranges of a datetime with a four-digit year. */
  predicate ValidDateTime(d: DateTime)
  {
    1000 <= d.year <= 9999 && 1 <= d.month <= 12 && 1 <= d.day <= 31 &&
    d.hour < 24 && d.minute < 60 && d.second < 60 && d.micro < 1000000
  }

  /** The calendar of naive datetimes: instant (microseconds) to fields. */
  type Calendar = f: int -> DateTime | forall t :: ValidDateTime(f(t))
    witness (t: int) => DateTime(2000, 1, 1, 0, 0, 0, 0)

  /** "%m", "%d", "%H", "%M", "%S": two digits, zero-filled. */
  function Two(n: nat): string
  {
    ZeroPad(NatStr(n), 2)
  }

  /** "%Y-%m-%d %H:%M:%S" for a four-digit year. */
  function WholeSeconds(d: DateTime): string
  {
    NatStr(d.year) + ("-" + (Two(d.month) + ("-" + (Two(d.day) + (" " + (Two(d.hour) + (":" + (Two(d.minute) + (":" + Two(d.second))))))))))
  }

  /** "%f": the microseconds as six digits, zero-filled. */
  function Micros6(micro: nat): string
  {
    ZeroPad(NatStr(micro), 6)
  }

  /** strftime('%Y-%m-%d %H:%M:%S.%f') */
  function FullStamp(d: DateTime): string
  {
    WholeSeconds(d) + ("." + Micros6(d.micro))
  }

  /** Python's s[:-3]. */
  function DropLast3(s: string): string
  {
    if |s| >= 3 then s[..|s| - 3] else ""
  }

  /** _generate_timestamp: the full stamp without its last three digits. */
  function VerifoneTimestamp(d: DateTime): string
  {
    DropLast3(FullStamp(d))
  }

  /** A number below 10^k prints with at most k digits. */
  lemma {:induction false} NatStrBound(n: nat, k: nat)
    requires 1 <= k && n < Pow10(k)
    ensures |NatStr(n)| <= k
  {
    if n >= 10 {
      assert Pow10(k) == 10 * Pow10(k - 1);
      NatStrBound(n / 10, k - 1);
    }
  }

  lemma TwoLength(n: nat)
    requires n < 100
    ensures |Two(n)| == 2
  {
    NatStrBound(n, 2);
  }

  lemma WholeSecondsLength(d: DateTime)
    requires ValidDateTime(d)
    ensures |WholeSeconds(d)| == 19
  {
    assert Pow10(3) == 1000 && Pow10(4) == 10000;
    NatStrLength(d.year, 4);
    TwoLength(d.month);
    TwoLength(d.day);
    TwoLength(d.hour);
    TwoLength(d.minute);
    TwoLength(d.second);
  }

  /** The digits of s split at k: the head's value shifted past the tail's digits, plus the tail's value. */
  lemma {:induction false} DigitsValueSplit(s: string, k: nat)
    requires AllDigits(s) && k <= |s|
    ensures DigitsValue(s) == DigitsValue(s[..k]) * Pow10(|s| - k) + DigitsValue(s[k..])
    decreases |s| - k
  {
    if k < |s| {
      var t := s[..|s| - 1];
      var u := s[k..];
      var last := s[|s| - 1] as int - '0' as int;
      DigitsValueSplit(t, k);
      assert t[..k] == s[..k];
      assert u[..|u| - 1] == t[k..] && u[|u| - 1] == s[|s| - 1];
      assert Pow10(|s| - k) == 10 * Pow10(|t| - k);
      ShiftDigit(DigitsValue(s[..k]), Pow10(|t| - k), DigitsValue(t[k..]), last);
    } else {
      assert s[..k] == s;
    }
  }

  lemma ShiftDigit(a: int, p: int, b: int, d: int)
    ensures (a * p + b) * 10 + d == a * (10 * p) + (b * 10 + d)
  {
  }

  lemma {:induction false} DigitsValueBound(s: string)
    requires AllDigits(s)
    ensures DigitsValue(s) < Pow10(|s|)
  {
    if s != [] {
      DigitsValueBound(s[..|s| - 1]);
    }
  }

  /** The six "%f" digits of a microsecond count read back as that count. */
  lemma MicrosDigits(micro: nat)
    requires micro < 1000000
    ensures |Micros6(micro)| == 6 && AllDigits(Micros6(micro))
    ensures DigitsValue(Micros6(micro)) == micro
  {
    assert Pow10(6) == 1000000;
    NatStrBound(micro, 6);
    DigitsValueZeroPad(NatStr(micro), 6);
    NatStrRoundTrip(micro);
  }

  /** Six digits split after the third: the head's value times 1000 plus the tail's, the tail below 1000. */
  lemma SixDigitsSplit(z: string)
    requires |z| == 6 && AllDigits(z)
    ensures DigitsValue(z) == DigitsValue(z[..3]) * 1000 + DigitsValue(z[3..])
    ensures DigitsValue(z[3..]) < 1000
  {
    assert Pow10(3) == 1000;
    DigitsValueSplit(z, 3);
    DigitsValueBound(z[3..]);
  }

  lemma DivThousand(n: int, a: int, b: int)
    requires n == a * 1000 + b && 0 <= b < 1000
    ensures n / 1000 == a
  {
  }

  /** The first three of the six "%f" digits are the milliseconds. */
  lemma MillisDigits(micro: nat)
    requires micro < 1000000
    ensures |Micros6(micro)| == 6 && AllDigits(Micros6(micro)[..3])
    ensures DigitsValue(Micros6(micro)[..3]) == micro / 1000
  {
    var z := Micros6(micro);
    MicrosDigits(micro);
    SixDigitsSplit(z);
    DivThousand(micro, DigitsValue(z[..3]), DigitsValue(z[3..]));
  }

  /** Nineteen characters, a dot and six more, cut to 23: the first part, the dot and three of the six. */
  lemma CutStamp(w: string, z: string)
    requires |w| == 19 && |z| == 6
    ensures |DropLast3(w + ("." + z))| == 23
    ensures DropLast3(w + ("." + z))[..19] == w && DropLast3(w + ("." + z))[19] == '.'
    ensures DropLast3(w + ("." + z))[20..] == z[..3]
  {
    var f := w + ("." + z);
    assert |f| == 26;
    var ts := f[..23];
    assert DropLast3(f) == ts;
    assert ts[..19] == w;
    assert ts[20..] == z[..3];
  }

  /**
    The Verifone timestamp is 23 characters wide: the whole seconds, a dot, and
    three digits that are the milliseconds.
  */
  lemma TimestampShape(d: DateTime)
    requires ValidDateTime(d)
    ensures |VerifoneTimestamp(d)| == 23
    ensures VerifoneTimestamp(d)[..19] == WholeSeconds(d) && VerifoneTimestamp(d)[19] == '.'
    ensures AllDigits(VerifoneTimestamp(d)[20..]) && DigitsValue(VerifoneTimestamp(d)[20..]) == d.micro / 1000
  {
    WholeSecondsLength(d);
    MillisDigits(d.micro);
    CutStamp(WholeSeconds(d), Micros6(d.micro));
  }

  /** datetime.now().strftime('%m-%d') */
  function MonthDay(d: DateTime): string
  {
    Two(d.month) + "-" + Two(d.day)
  }

  // ---------------------------------------------------------------------
  // Tables
  // ---------------------------------------------------------------------

  /** list(range(100, 800)) */
  const StoreIds: seq<nat> := seq(700, i => 100 + i)

  /** f"192.168.31.{i}" for i in range(100, 210) */
  const RemoteIps: seq<Ipv4> := seq(110, i requires 0 <= i < 110 => Ipv4(192, 168, 31, 100 + i))

  const Usernames: seq<string> := [
    "mbsusr", "proctor", "pdipos", "archiver", "admin", "cashier",
    "manager", "supervisor", "sysadmin", "posuser", "backoffice"]

  const ApiActions: seq<string> := [
    "cfdcposrequest", "vtlogpdlist", "validate", "vAppInfo", "vtransset",
    "vrubyrept", "vgrouplist", "vreportpdlist", "vMovement", "vsalestotals",
    "vitemlist", "vtenderlist", "vauditreport", "vlogin", "vlogout"]

  const AuthActions: seq<string> := ["validate", "vlogin", "vlogout", "authenticate", "authorization"]

  /** list(range(0, 10)) */
  const RegisterIds: seq<nat> := seq(10, i => i)

  const LogLevel: string := "WARN"
  const Category: string := "security"

  const FailureMessages: seq<string> := [
    " - Invalid Credentials", " - Account Locked", " - Expired Password",
    " - Insufficient Privileges", " - Session Timeout"]

  const ErrorTag: string := "error: "

  const SshErrors: seq<string> := [
    ErrorTag + "Could not load host key: /etc/openssh/ssh_host_rsa_key",
    ErrorTag + "Could not load host certificate: /etc/openssh/ssh_host_rsa_key-cert.pub",
    ErrorTag + "SSH connection failed - timeout",
    ErrorTag + "Authentication method not supported"]

  /** The fixed user of PAM/SSH lines. */
  const PamUser: string := "archiver"

  /** The store IPs drawn at construction: 172.[17..25].[1..254].[1..254]. */
  predicate StoreAddress(ip: Ipv4)
  {
    ip.a == 172 && 17 <= ip.b <= 25 && 1 <= ip.c <= 254 && 1 <= ip.d <= 254
  }

  /** Store addresses lie in the 172.16.0.0/12 block of RFC 1918. */
  lemma StoreAddressPrivate(ip: Ipv4)
    requires StoreAddress(ip)
    ensures InRfc1918(ip) && ip.a == 172 && 16 <= ip.b <= 31
  {
  }

  /** The 200 store addresses of a generator. */
  type StoreIpTable = s: seq<Ipv4> | |s| == 200 && forall i :: 0 <= i < |s| ==> StoreAddress(s[i])
    witness seq(200, i => Ipv4(172, 17, 1, 1))

  predicate RemoteAddress(ip: Ipv4)
  {
    ip.a == 192 && ip.b == 168 && ip.c == 31 && 100 <= ip.d <= 209
  }

  lemma StoreIdRange(id: nat)
    requires id in StoreIds
    ensures 100 <= id <= 799
  {
  }

  lemma RegisterIdRange(r: nat)
    requires r in RegisterIds
    ensures r <= 9
  {
  }

  /** Every remote address is 192.168.31.[100..209], in the 192.168.0.0/16 block of RFC 1918. */
  lemma RemoteIpRange(ip: Ipv4)
    requires ip in RemoteIps
    ensures RemoteAddress(ip) && InRfc1918(ip)
  {
  }

  /** [a for a in xs if a not in ys], in the order of xs. */
  function Exclude(xs: seq<string>, ys: seq<string>): (r: seq<string>)
    ensures forall a :: a in r <==> a in xs && a !in ys
  {
    if xs == [] then []
    else if xs[0] in ys then Exclude(xs[1..], ys)
    else [xs[0]] + Exclude(xs[1..], ys)
  }

  /**
    The string tables __init__ keeps as attributes and the builders draw from:
    the users, the API actions, the authentication actions, the failure reasons
    and the SSH errors.
  */
  datatype Tables = Tables(usernames: seq<string>, apiActions: seq<string>, authActions: seq<string>,
                           failureMessages: seq<string>, sshErrors: seq<string>)

  const SourceTables: Tables := Tables(Usernames, ApiActions, AuthActions, FailureMessages, SshErrors)

  /** The actions of API requests with a user: never an authentication action. */
  function UserApiActions(t: Tables): seq<string>
  {
    Exclude(t.apiActions, t.authActions)
  }

  /** An action is a non-empty word that does not start with U, so it never reads as a user. */
  predicate ActionWord(a: string)
  {
    |a| > 0 && a[0] != 'U' && !HasChar(a, ' ')
  }

  /** What the read-back needs of each entry of a table. */
  datatype Rule = NoSpace | Action | NotEmpty | NotWarn

  predicate Obeys(m: string, r: Rule)
  {
    match r
    case NoSpace => !HasChar(m, ' ')
    case Action => ActionWord(m)
    case NotEmpty => m != ""
    case NotWarn => |m| > 0 && m[0] != 'W'
  }

  /** Every entry of the table obeys the rule. */
  predicate AllObey(s: seq<string>, r: Rule)
  {
    s == [] || (Obeys(s[0], r) && AllObey(s[1..], r))
  }

  lemma {:induction false} AllObeyMember(s: seq<string>, r: Rule, m: string)
    requires AllObey(s, r) && m in s
    ensures Obeys(m, r)
  {
    if s[0] != m {
      AllObeyMember(s[1..], r, m);
    }
  }

  lemma {:induction false} AllObeyFrom(s: seq<string>, r: Rule)
    requires forall m :: m in s ==> Obeys(m, r)
    ensures AllObey(s, r)
  {
    if s != [] {
      assert forall m :: m in s[1..] ==> m in s;
      AllObeyFrom(s[1..], r);
    }
  }

  /** What the builders and the read-back rely on about the tables. */
  predicate TablesOk(t: Tables)
  {
    |t.usernames| > 0 && |t.apiActions| > 0 && |t.authActions| > 0 && |UserApiActions(t)| > 0 &&
    |t.failureMessages| > 0 && |t.sshErrors| > 0 &&
    AllObey(t.usernames, NoSpace) && AllObey(t.apiActions, Action) && AllObey(t.authActions, Action) &&
    AllObey(t.failureMessages, NotEmpty) && AllObey(t.sshErrors, NotWarn)
  }

  /** Tables with what TablesOk asks of them. */
  type GoodTables = t: Tables | TablesOk(t)
    witness Tables(["u"], ["a"], ["b"], ["m"], ["e"])

  lemma UserApiActionsNonEmpty()
    ensures |UserApiActions(SourceTables)| > 0
  {
    assert "vtransset" in ApiActions && "vtransset" !in AuthActions;
    assert "vtransset" in UserApiActions(SourceTables);
  }

  /** The source's tables, as tables with what TablesOk asks of them. */
  function SourceGoodTables(): (t: GoodTables)
    ensures t == SourceTables
  {
    SourceTablesOk();
    SourceTables
  }

  /** The source's tables have what the builders and the read-back rely on. */
  lemma SourceTablesOk()
    ensures TablesOk(SourceTables)
  {
    UserApiActionsNonEmpty();
    UsernamesWellFormed();
    AllObeyFrom(Usernames, NoSpace);
    ApiActionsWellFormed();
    AllObeyFrom(ApiActions, Action);
    AuthActionsWellFormed();
    AllObeyFrom(AuthActions, Action);
    FailureMessagesNonEmpty();
    AllObeyFrom(FailureMessages, NotEmpty);
    SshErrorsStart();
    AllObeyFrom(SshErrors, NotWarn);
  }

  // ---------------------------------------------------------------------
  // Lines
  // ---------------------------------------------------------------------

  datatype Status = Passed | Failed

  function StatusText(s: Status): string
  {
    match s
    case Passed => "PASSED"
    case Failed => "FAILED"
  }

  /** The fields after the level/category segment of an HTTP-request body. */
  datatype Request = Request(user: Option<string>, action: string, status: Status, register: nat, remote: string, message: string)

  /** One line's content; each kind keeps what its builder drew. */
  datatype Entry =
    | ApiRequest(storeId: nat, storeIp: Ipv4, action: string, status: Status, register: nat, remote: Ipv4)
    | UserAuth(storeId: nat, storeIp: Ipv4, user: string, action: string, status: Status, register: nat, remote: Ipv4, message: string)
    | ApiRequestWithUser(storeId: nat, storeIp: Ipv4, user: string, action: string, status: Status, register: nat, remote: Ipv4)
    | PamSsh(storeId: nat, storeIp: Ipv4, remote: Ipv4, auditBatch: nat, date: string, ossecBatch: nat, pid: nat, message: string)
    | SshError(storeId: nat, storeIp: Ipv4, message: string)
    | Movement(storeId: nat, storeIp: Ipv4)

  const StoreTag: string := "     - Store "
  const LevelCategory: string := LogLevel + "  " + Category + " - "
  const UserTag: string := "USER: "
  const HttpTag: string := "HTTP REQUEST - Register ID# "
  const RemoteTag: string := "REMOTE IP# "
  /** The literal backslash, zero, one, two that ends an HTTP-request line. */
  const Terminator: string := "\\012"

  /**
    The fixed request of a movement line. The source spells the whole body as
    one literal; its text is this request's, with an empty message.
  */
  const MovementRequest: Request := Request(None, "vMovement", Passed, 0, "127.0.0.1", "")

  /** "<ts>     - Store <id> - <ip> - <body>" */
  function Line(ts: string, storeId: nat, storeIp: string, body: string): string
  {
    ts + (StoreTag + (NatStr(storeId) + (" - " + (storeIp + (" - " + body)))))
  }

  /** "REMOTE IP# <ip> - <message>\012" */
  function RemoteText(remote: string, message: string): string
  {
    RemoteTag + (remote + (" - " + (message + Terminator)))
  }

  /** "HTTP REQUEST - Register ID# <r> - " and the remote part. */
  function RouteText(register: nat, remote: string, message: string): string
  {
    HttpTag + (NatStr(register) + (" - " + RemoteText(remote, message)))
  }

  /** The request fields from the action on. */
  function RequestTail(q: Request): string
  {
    q.action + (" - " + (StatusText(q.status) + (" - " + RouteText(q.register, q.remote, q.message))))
  }

  /** "WARN  security - [USER: <u> - ]<action> - <status> - HTTP REQUEST - Register ID# <r> - REMOTE IP# <ip> - <message>\012" */
  function HttpBody(q: Request): string
  {
    LevelCategory + UserText(q)
  }

  /** The request with its "USER: <u> - " part when it names a user. */
  function UserText(q: Request): string
  {
    match q.user
    case Some(u) => UserTag + (u + (" - " + RequestTail(q)))
    case None => RequestTail(q)
  }

  /** The HTTP-request kinds; the PAM/SSH and SSH-error kinds carry no request. */
  predicate IsHttp(e: Entry)
  {
    e.ApiRequest? || e.UserAuth? || e.ApiRequestWithUser? || e.Movement?
  }

  /** The request fields a line of an HTTP-request kind prints. */
  function RequestOf(e: Entry): Request
    requires IsHttp(e)
  {
    match e
    case ApiRequest(_, _, action, status, register, remote) => Request(None, action, status, register, remote.Dotted(), "")
    case UserAuth(_, _, user, action, status, register, remote, message) => Request(Some(user), action, status, register, remote.Dotted(), message)
    case ApiRequestWithUser(_, _, user, action, status, register, remote) => Request(Some(user), action, status, register, remote.Dotted(), "")
    case Movement(_, _) => MovementRequest
  }

  /** Everything after the store address. */
  function Body(e: Entry): string
  {
    match e
    case PamSsh(_, _, _, _, _, _, _, message) => message
    case SshError(_, _, message) => message
    case _ => HttpBody(RequestOf(e))
  }

  /** The line a builder returns for entry e at timestamp ts. */
  function Render(ts: string, e: Entry): string
  {
    Line(ts, e.storeId, e.storeIp.Dotted(), Body(e))
  }

  // ---------------------------------------------------------------------
  // Reading lines back
  // ---------------------------------------------------------------------

  /** The text up to the next " - " and the text after it. */
  function NextField(s: string): Option<(string, string)>
  {
    match SplitFirst(s, ' ')
    case Some((f, r)) => if StartsWith(r, "- ") then Some((f, r[2..])) else None
    case None => None
  }

  lemma NextFieldAt(f: string, r: string)
    requires !HasChar(f, ' ')
    ensures NextField(f + (" - " + r)) == Some((f, r))
  {
    assert f + (" - " + r) == f + [' '] + ("- " + r);
    SplitFirstAt(f, "- " + r, ' ');
    Concat("- ", r);
  }

  /** Reads a line into its timestamp, store id, store address and body. */
  function ParseLine(line: string): Option<(string, nat, Ipv4, string)>
  {
    if |line| < 23 || !StartsWith(line[23..], StoreTag) then None
    else
      match NextField(line[23 + |StoreTag|..])
      case None => None
      case Some((idText, r)) =>
        if |idText| == 0 || !AllDigits(idText) then None
        else
          match NextField(r)
          case None => None
          case Some((ipText, body)) =>
            match ParseDotted(ipText)
            case None => None
            case Some(ip) => Some((line[..23], DigitsValue(idText), ip, body))
  }

  /** A line with a 23-character timestamp reads back as its parts. */
  lemma LineRoundTrip(ts: string, storeId: nat, storeIp: Ipv4, body: string)
    requires |ts| == 23
    ensures ParseLine(Line(ts, storeId, storeIp.Dotted(), body)) == Some((ts, storeId, storeIp, body))
  {
    var id, ip := NatStr(storeId), storeIp.Dotted();
    var line := Line(ts, storeId, ip, body);
    var afterTag := id + (" - " + (ip + (" - " + body)));
    Concat(ts, StoreTag + afterTag);
    Concat(StoreTag, afterTag);
    assert line[23..] == StoreTag + afterTag;
    assert line[23 + |StoreTag|..] == afterTag;
    assert line[..23] == ts;
    assert !HasChar(id, ' ') by {
      assert AllDigits(id);
    }
    NextFieldAt(id, ip + (" - " + body));
    DottedFree(storeIp, ' ');
    NextFieldAt(ip, body);
    NatStrRoundTrip(storeId);
    DottedRoundTrip(storeIp);
  }

  function ParseStatus(t: string): Option<Status>
  {
    if t == "PASSED" then Some(Passed) else if t == "FAILED" then Some(Failed) else None
  }

  /** Reads the "USER: <u> - " part when there is one. */
  function ParseUser(s: string): Option<(Option<string>, string)>
  {
    if StartsWith(s, UserTag) then
      match NextField(s[|UserTag|..])
      case Some((u, r)) => Some((Some(u), r))
      case None => None
    else Some((None, s))
  }

  /** Reads "REMOTE IP# <ip> - <message>\012". */
  function ParseRemote(s: string): Option<(string, string)>
  {
    if !StartsWith(s, RemoteTag) then None
    else
      match NextField(s[|RemoteTag|..])
      case None => None
      case Some((remote, r)) =>
        if !EndsWith(r, Terminator) then None else Some((remote, r[..|r| - |Terminator|]))
  }

  /** Reads "HTTP REQUEST - Register ID# <r> - " and the remote part. */
  function ParseRoute(s: string): Option<(nat, string, string)>
  {
    if !StartsWith(s, HttpTag) then None
    else
      match NextField(s[|HttpTag|..])
      case None => None
      case Some((registerText, r)) =>
        if |registerText| == 0 || !AllDigits(registerText) then None
        else
          match ParseRemote(r)
          case None => None
          case Some((remote, message)) => Some((DigitsValue(registerText), remote, message))
  }

  /** Reads the request fields from the action on. */
  function ParseTail(user: Option<string>, s: string): Option<Request>
  {
    match NextField(s)
    case None => None
    case Some((action, r1)) =>
      match NextField(r1)
      case None => None
      case Some((statusText, r2)) =>
        match (ParseStatus(statusText), ParseRoute(r2))
        case (Some(status), Some((register, remote, message))) => Some(Request(user, action, status, register, remote, message))
        case _ => None
  }

  /** Reads the body of an HTTP-request line; None for a body without the level/category segment. */
  function ParseHttp(body: string): Option<Request>
  {
    if !StartsWith(body, LevelCategory) then None
    else
      match ParseUser(body[|LevelCategory|..])
      case None => None
      case Some((user, rest)) => ParseTail(user, rest)
  }

  /** The requests whose text reads back: space-free user, action and address, an action not starting with U. */
  predicate RequestWellFormed(q: Request)
  {
    (q.user.Some? ==> !HasChar(q.user.value, ' ')) &&
    |q.action| > 0 && q.action[0] != 'U' && !HasChar(q.action, ' ') && !HasChar(q.remote, ' ')
  }

  lemma RemoteRoundTrip(remote: string, message: string)
    requires !HasChar(remote, ' ')
    ensures ParseRemote(RemoteText(remote, message)) == Some((remote, message))
  {
    var last := message + Terminator;
    Concat(RemoteTag, remote + (" - " + last));
    NextFieldAt(remote, last);
    Concat(message, Terminator);
    assert last[..|last| - |Terminator|] == message;
  }

  lemma RouteRoundTrip(register: nat, remote: string, message: string)
    requires !HasChar(remote, ' ')
    ensures ParseRoute(RouteText(register, remote, message)) == Some((register, remote, message))
  {
    var digits := NatStr(register);
    Concat(HttpTag, digits + (" - " + RemoteText(remote, message)));
    assert !HasChar(digits, ' ') by {
      assert AllDigits(digits);
    }
    NextFieldAt(digits, RemoteText(remote, message));
    RemoteRoundTrip(remote, message);
    NatStrRoundTrip(register);
  }

  lemma StatusRoundTrip(s: Status)
    ensures ParseStatus(StatusText(s)) == Some(s) && !HasChar(StatusText(s), ' ')
  {
  }

  lemma TailRoundTrip(q: Request)
    requires RequestWellFormed(q)
    ensures ParseTail(q.user, RequestTail(q)) == Some(q)
  {
    var status := StatusText(q.status);
    var route := RouteText(q.register, q.remote, q.message);
    NextFieldAt(q.action, status + (" - " + route));
    StatusRoundTrip(q.status);
    NextFieldAt(status, route);
    RouteRoundTrip(q.register, q.remote, q.message);
  }

  lemma UserRoundTrip(q: Request)
    requires RequestWellFormed(q)
    ensures ParseUser(UserText(q)) == Some((q.user, RequestTail(q)))
  {
    match q.user
    case Some(u) =>
      Concat(UserTag, u + (" - " + RequestTail(q)));
      NextFieldAt(u, RequestTail(q));
    case None =>
      assert UserText(q)[0] == q.action[0];
  }

  /** Every well-formed request's body reads back as the request. */
  lemma HttpRoundTrip(q: Request)
    requires RequestWellFormed(q)
    ensures ParseHttp(HttpBody(q)) == Some(q)
  {
    Concat(LevelCategory, UserText(q));
    UserRoundTrip(q);
    TailRoundTrip(q);
  }

  /** A body that does not start with W has no level/category segment. */
  lemma BareBodyNotHttp(m: string)
    requires |m| > 0 && m[0] != 'W'
    ensures ParseHttp(m) == None
  {
    assert LevelCategory[0] == LogLevel[0] == 'W';
  }

  lemma ApiActionsWellFormed()
    ensures forall a :: a in ApiActions ==> ActionWord(a)
  {
    forall a | a in ApiActions ensures ActionWord(a) {
      if a in ApiActions[..8] {
        FirstActionsWellFormed(a);
      } else {
        assert a in ApiActions[8..];
        LastActionsWellFormed(a);
      }
    }
  }

  lemma FirstActionsWellFormed(a: string)
    requires a in ApiActions[..8]
    ensures ActionWord(a)
  {
  }

  lemma LastActionsWellFormed(a: string)
    requires a in ApiActions[8..]
    ensures ActionWord(a)
  {
  }

  lemma AuthActionsWellFormed()
    ensures forall a :: a in AuthActions ==> ActionWord(a)
  {
  }

  lemma UsernamesWellFormed()
    ensures forall u :: u in Usernames ==> !HasChar(u, ' ')
  {
  }

  const SessionTag: string := "pam_unix(sshd:session): session "
  const RequestTag: string := "Remote request "
  const HistoryTag: string := "HISTORY: PID="

  /** The six messages of a PAM/SSH line, in the order the source builds them. */
  function PamMessages(user: string, remote: string, auditBatch: nat, date: string, ossecBatch: nat, pid: nat): seq<string>
  {
    [SessionTag + ("opened for user " + user + " by (uid=0)"),
     SessionTag + ("closed for user " + user),
     RequestTag + (remote + ": scp -t /cygdrive/d/ftproot/TopazLogs/topaz" + NatStr(auditBatch) + "-" + date + "T09-audit.gz"),
     RequestTag + (remote + ": scp -t /cygdrive/d/ftproot/TopazLogs/topaz" + NatStr(ossecBatch) + "-" + date + "T09-ossec.log.gz"),
     RequestTag + (remote + ": MKDIR /cygdrive/d/ftproot/TopazLogs"),
     HistoryTag + (NatStr(pid) + " UID=48 /home/archiver/bin/cmd.sh")]
  }

  /** What each builder guarantees about the entry it prints. */
  predicate EntryOk(e: Entry, t: Tables)
  {
    100 <= e.storeId <= 799 && StoreAddress(e.storeIp) &&
    match e
    case ApiRequest(_, _, _, _, _, _) => ApiRequestOk(e, t)
    case UserAuth(_, _, _, _, _, _, _, _) => UserAuthOk(e, t)
    case ApiRequestWithUser(_, _, _, _, _, _, _) => ApiRequestWithUserOk(e, t)
    case PamSsh(_, _, _, _, _, _, _, _) => PamSshOk(e)
    case SshError(_, _, _) => e.message in t.sshErrors
    case Movement(_, _) => true
  }

  predicate ApiRequestOk(e: Entry, t: Tables)
    requires e.ApiRequest?
  {
    e.action in t.apiActions && e.register <= 9 && RemoteAddress(e.remote)
  }

  /** PASSED exactly when the message is empty; FAILED carries one of the five reasons. */
  predicate UserAuthOk(e: Entry, t: Tables)
    requires e.UserAuth?
  {
    e.user in t.usernames && e.action in t.authActions && e.register <= 9 && RemoteAddress(e.remote) &&
    (e.status == Passed <==> e.message == "") && (e.status == Failed ==> e.message in t.failureMessages)
  }

  predicate ApiRequestWithUserOk(e: Entry, t: Tables)
    requires e.ApiRequestWithUser?
  {
    e.user in t.usernames && e.action in UserApiActions(t) && e.register <= 9 && RemoteAddress(e.remote)
  }

  /** The user is always archiver; the message is one of the six, built from the drawn values. */
  predicate PamSshOk(e: Entry)
    requires e.PamSsh?
  {
    RemoteAddress(e.remote) && 100 <= e.auditBatch <= 200 && 100 <= e.ossecBatch <= 200 && 5000 <= e.pid <= 6000 &&
    e.message in PamMessages(PamUser, e.remote.Dotted(), e.auditBatch, e.date, e.ossecBatch, e.pid)
  }

  lemma FailureMessagesNonEmpty()
    ensures forall m :: m in FailureMessages ==> m != ""
  {
  }

  /** The messages of the PAM/SSH lines do not start with W. */
  lemma PamMessagesStart(user: string, remote: string, auditBatch: nat, date: string, ossecBatch: nat, pid: nat)
    ensures forall m :: m in PamMessages(user, remote, auditBatch, date, ossecBatch, pid) ==> |m| > 0 && m[0] != 'W'
  {
    assert SessionTag[0] == 'p' && RequestTag[0] == 'R' && HistoryTag[0] == 'H';
  }

  /** The SSH error messages do not start with W. */
  lemma SshErrorsStart()
    ensures forall m :: m in SshErrors ==> |m| > 0 && m[0] != 'W'
  {
    assert ErrorTag[0] == 'e';
  }

  /** The request of every HTTP-request entry a builder returns reads back. */
  lemma RequestOfWellFormed(e: Entry, t: Tables)
    requires TablesOk(t) && EntryOk(e, t) && IsHttp(e)
    ensures RequestWellFormed(RequestOf(e))
  {
    match e
    case ApiRequest(_, _, action, _, _, remote) =>
      AllObeyMember(t.apiActions, Action, action);
      DottedFree(remote, ' ');
    case UserAuth(_, _, user, action, _, _, remote, _) =>
      AllObeyMember(t.authActions, Action, action);
      AllObeyMember(t.usernames, NoSpace, user);
      DottedFree(remote, ' ');
    case ApiRequestWithUser(_, _, user, action, _, _, remote) =>
      AllObeyMember(t.apiActions, Action, action);
      AllObeyMember(t.usernames, NoSpace, user);
      DottedFree(remote, ' ');
    case Movement(_, _) =>
  }

  /**
    Every line a builder returns reads back: its timestamp, store id and store
    address, then for the HTTP-request kinds the request, and for the PAM/SSH and
    SSH-error kinds the bare message with no level/category segment.
  */
  lemma RenderReadsBack(ts: string, e: Entry, t: Tables)
    requires |ts| == 23 && TablesOk(t) && EntryOk(e, t)
    ensures ParseLine(Render(ts, e)) == Some((ts, e.storeId, e.storeIp, Body(e)))
    ensures IsHttp(e) ==> ParseHttp(Body(e)) == Some(RequestOf(e))
    ensures !IsHttp(e) ==> Body(e) == e.message && ParseHttp(Body(e)) == None
  {
    LineRoundTrip(ts, e.storeId, e.storeIp, Body(e));
    if IsHttp(e) {
      RequestOfWellFormed(e, t);
      HttpRoundTrip(RequestOf(e));
    } else if e.PamSsh? {
      PamMessagesStart(PamUser, e.remote.Dotted(), e.auditBatch, e.date, e.ossecBatch, e.pid);
      BareBodyNotHttp(e.message);
    } else {
      AllObeyMember(t.sshErrors, NotWarn, e.message);
      BareBodyNotHttp(e.message);
    }
  }

  /** A user-auth line read back says PASSED exactly when its message is empty, and FAILED with one of the five reasons. */
  lemma UserAuthOutcome(ts: string, e: Entry, t: Tables)
    requires |ts| == 23 && e.UserAuth? && TablesOk(t) && EntryOk(e, t)
    ensures ParseLine(Render(ts, e)).Some? && ParseHttp(ParseLine(Render(ts, e)).value.3).Some?
    ensures var q := ParseHttp(ParseLine(Render(ts, e)).value.3).value;
      q.user.Some? && q.user.value in t.usernames && q.action in t.authActions &&
      (q.status == Passed <==> q.message == "") && (q.status == Failed ==> q.message in t.failureMessages)
  {
    RenderReadsBack(ts, e, t);
  }

  /** Every HTTP-request line ends with the four characters \012. */
  lemma HttpLineEnds(ts: string, e: Entry)
    requires IsHttp(e)
    ensures EndsWith(Render(ts, e), Terminator)
  {
    var q := RequestOf(e);
    var last := q.message + Terminator;
    Concat(q.message, Terminator);
    EndsWithAfter(" - ", last, Terminator);
    EndsWithAfter(q.remote, " - " + last, Terminator);
    EndsWithAfter(RemoteTag, q.remote + (" - " + last), Terminator);
    var remote := RemoteText(q.remote, q.message);
    EndsWithAfter(" - ", remote, Terminator);
    EndsWithAfter(NatStr(q.register), " - " + remote, Terminator);
    EndsWithAfter(HttpTag, NatStr(q.register) + (" - " + remote), Terminator);
    var route := RouteText(q.register, q.remote, q.message);
    EndsWithAfter(" - ", route, Terminator);
    EndsWithAfter(StatusText(q.status), " - " + route, Terminator);
    EndsWithAfter(" - ", StatusText(q.status) + (" - " + route), Terminator);
    EndsWithAfter(q.action, " - " + (StatusText(q.status) + (" - " + route)), Terminator);
    var tail := RequestTail(q);
    if q.user.Some? {
      EndsWithAfter(" - ", tail, Terminator);
      EndsWithAfter(q.user.value, " - " + tail, Terminator);
      EndsWithAfter(UserTag, q.user.value + (" - " + tail), Terminator);
    }
    var body := Body(e);
    assert body == LevelCategory + UserText(q);
    EndsWithAfter(LevelCategory, UserText(q), Terminator);
    EndsWithAfter(" - ", body, Terminator);
    EndsWithAfter(e.storeIp.Dotted(), " - " + body, Terminator);
    EndsWithAfter(" - ", e.storeIp.Dotted() + (" - " + body), Terminator);
    EndsWithAfter(NatStr(e.storeId), " - " + (e.storeIp.Dotted() + (" - " + body)), Terminator);
    EndsWithAfter(StoreTag, NatStr(e.storeId) + (" - " + (e.storeIp.Dotted() + (" - " + body))), Terminator);
    EndsWithAfter(ts, StoreTag + (NatStr(e.storeId) + (" - " + (e.storeIp.Dotted() + (" - " + body)))), Terminator);
  }

  /** Every line starts with its timestamp. */
  lemma RenderStartsWithStamp(ts: string, e: Entry)
    ensures StartsWith(Render(ts, e), ts)
  {
    Concat(ts, Render(ts, e)[|ts|..]);
  }

  /** Rearranging lines of at least 23 characters leaves lines of at least 23 characters. */
  lemma LongLinesStayLong(generated: seq<string>, logs: seq<string>)
    requires multiset(logs) == multiset(generated)
    requires forall k :: 0 <= k < |generated| ==> |generated[k]| >= 23
    ensures forall k :: 0 <= k < |logs| ==> |logs[k]| >= 23
  {
    forall k | 0 <= k < |logs| ensures |logs[k]| >= 23 {
      assert logs[k] in multiset(generated);
    }
  }

  /**
    A batch in reverse string order is in reverse timestamp order: the first 23
    characters of a later line never exceed those of an earlier one.
  */
  lemma BatchStampsDescending(logs: seq<string>)
    requires Descending(logs)
    requires forall k :: 0 <= k < |logs| ==> |logs[k]| >= 23
    ensures forall i, j :: 0 <= i < j < |logs| ==> LexLe(logs[j][..23], logs[i][..23])
  {
    forall i, j | 0 <= i < j < |logs| ensures LexLe(logs[j][..23], logs[i][..23]) {
      LexLePrefix(logs[j], logs[i], 23);
    }
  }

  // ---------------------------------------------------------------------
  // The generator
  // ---------------------------------------------------------------------

  /** The builders of generate_log, in the order of its weight table. */
  datatype LogType = ApiRequestType | UserAuthType | ApiRequestWithUserType | PamSshType | SshErrorType | MovementType

  const LogTypes: seq<LogType> := [ApiRequestType, UserAuthType, ApiRequestWithUserType, PamSshType, SshErrorType, MovementType]
  const LogWeights: seq<real> := [40.0, 20.0, 25.0, 8.0, 2.0, 5.0]

  function TypeOf(e: Entry): LogType
  {
    match e
    case ApiRequest(_, _, _, _, _, _) => ApiRequestType
    case UserAuth(_, _, _, _, _, _, _, _) => UserAuthType
    case ApiRequestWithUser(_, _, _, _, _, _, _) => ApiRequestWithUserType
    case PamSsh(_, _, _, _, _, _, _, _) => PamSshType
    case SshError(_, _, _) => SshErrorType
    case Movement(_, _) => MovementType
  }

  lemma LogWeightsPositive()
    ensures Sum(LogWeights) > 0.0
  {
  }

  /** The store address drawn at position `at` of the stream: three randint draws. */
  function StoreIpDraw(source: nat -> nat, at: nat): (ip: Ipv4)
    ensures StoreAddress(ip)
  {
    Ipv4(172, 17 + Reduce(source(at), 9), 1 + Reduce(source(at + 1), 254), 1 + Reduce(source(at + 2), 254))
  }

  /** An instant between half a second and five seconds per step before now. */
  predicate Backdated(now: int, steps: int, when: int)
  {
    now - steps * 5000000 <= when <= now - steps * 500000
  }

  /** timedelta(seconds=s) in microseconds, rounded to the nearest (halves up). */
  function RoundMicros(seconds: real): int
  {
    (seconds * 1000000.0 + 0.5).Floor
  }

  /** Rounding keeps a value between integer bounds within them. */
  lemma RoundWithin(seconds: real, lo: int, hi: int)
    requires lo as real <= seconds * 1000000.0 <= hi as real
    ensures lo <= RoundMicros(seconds) <= hi
  {
  }

  /** (count - i) * uniform(0.5, 5) seconds lies between half a second and five seconds per step. */
  lemma BackdateBounds(steps: nat, x: real)
    requires 0.5 <= x <= 5.0
    ensures (steps * 500000) as real <= (steps as real * x) * 1000000.0 <= (steps * 5000000) as real
  {
    var m := steps as real;
    assert m * x >= m * 0.5;
    assert m * x <= m * 5.0;
  }

  /** What one pass of generate_logs drew: the line, the entry it shows and the instant it carries. */
  datatype Draw = Draw(line: string, entry: Entry, when: int)

  class VerifoneGenerator {
    const base: BaseGenerator
    const calendar: Calendar
    const storeIps: StoreIpTable
    const tables: GoodTables

    /** __init__: the tables, and 200 store addresses drawn from the stream. */
    constructor (base: BaseGenerator, calendar: Calendar)
      modifies base.rng
      ensures this.base == base && this.calendar == calendar && tables == SourceTables
      ensures forall k :: 0 <= k < 200 ==> storeIps[k] == StoreIpDraw(old(base.rng.source), old(base.rng.cursor) + 3 * k)
      ensures base.rng.source == old(base.rng.source) && base.rng.cursor == old(base.rng.cursor) + 600
    {
      var ips: seq<Ipv4> := [];
      for k := 0 to 200
        invariant |ips| == k
        invariant base.rng.source == old(base.rng.source) && base.rng.cursor == old(base.rng.cursor) + 3 * k
        invariant forall j :: 0 <= j < k ==> ips[j] == StoreIpDraw(old(base.rng.source), old(base.rng.cursor) + 3 * j)
      {
        var b := base.rng.RandInt(17, 25);
        var c := base.rng.RandInt(1, 254);
        var d := base.rng.RandInt(1, 254);
        ips := ips + [Ipv4(172, b, c, d)];
      }
      this.base := base;
      this.calendar := calendar;
      storeIps := ips;
      tables := SourceGoodTables();
    }

    /** _generate_timestamp of the instant `when`. */
    function Stamp(when: int): (ts: string)
      ensures |ts| == 23
    {
      TimestampShape(calendar(when));
      VerifoneTimestamp(calendar(when))
    }

    /** The store id and store address every builder draws first. */
    method Store() returns (id: nat, ip: Ipv4)
      modifies base.rng
      ensures 100 <= id <= 799 && ip in storeIps && StoreAddress(ip)
    {
      id := base.rng.Choice(StoreIds);
      StoreIdRange(id);
      ip := base.rng.Choice(storeIps);
    }

    /** _generate_api_request_log: PASSED when random() < 0.95. */
    method ApiRequestLog(when: int) returns (line: string, e: Entry)
      modifies base.rng
      ensures e.ApiRequest? && EntryOk(e, tables) && e.storeIp in storeIps
      ensures line == Render(Stamp(when), e)
    {
      var id, ip := Store();
      var action := base.rng.Choice(tables.apiActions);
      var register := base.rng.Choice(RegisterIds);
      RegisterIdRange(register);
      var remote := base.rng.Choice(RemoteIps);
      RemoteIpRange(remote);
      var u := base.rng.Random();
      var status := if u < 0.95 then Passed else Failed;
      e := ApiRequest(id, ip, action, status, register, remote);
      line := Render(Stamp(when), e);
    }

    /** _generate_user_auth_log: PASSED with no message when random() < 0.8, else FAILED with a reason. */
    method UserAuthLog(when: int) returns (line: string, e: Entry)
      modifies base.rng
      ensures e.UserAuth? && EntryOk(e, tables) && e.storeIp in storeIps
      ensures line == Render(Stamp(when), e)
    {
      var id, ip := Store();
      var user := base.rng.Choice(tables.usernames);
      var action := base.rng.Choice(tables.authActions);
      var register := base.rng.Choice(RegisterIds);
      RegisterIdRange(register);
      var remote := base.rng.Choice(RemoteIps);
      RemoteIpRange(remote);
      var u := base.rng.Random();
      var status, message;
      if u < 0.8 {
        status, message := Passed, "";
      } else {
        status := Failed;
        message := base.rng.Choice(tables.failureMessages);
        AllObeyMember(tables.failureMessages, NotEmpty, message);
      }
      e := UserAuth(id, ip, user, action, status, register, remote, message);
      line := Render(Stamp(when), e);
    }

    /** _generate_api_request_with_user_log: the action is drawn from the non-authentication actions. */
    method ApiRequestWithUserLog(when: int) returns (line: string, e: Entry)
      modifies base.rng
      ensures e.ApiRequestWithUser? && EntryOk(e, tables) && e.storeIp in storeIps
      ensures line == Render(Stamp(when), e)
    {
      var id, ip := Store();
      var user := base.rng.Choice(tables.usernames);
      var action := base.rng.Choice(UserApiActions(tables));
      var register := base.rng.Choice(RegisterIds);
      RegisterIdRange(register);
      var remote := base.rng.Choice(RemoteIps);
      RemoteIpRange(remote);
      var u := base.rng.Random();
      var status := if u < 0.95 then Passed else Failed;
      e := ApiRequestWithUser(id, ip, user, action, status, register, remote);
      line := Render(Stamp(when), e);
    }

    /**
      _generate_pam_ssh_log: all six messages are built, drawing in list order,
      before one is picked; `now` is the instant datetime.now() reads.
    */
    method PamSshLog(when: int, now: int) returns (line: string, e: Entry)
      modifies base.rng
      ensures e.PamSsh? && EntryOk(e, tables) && e.storeIp in storeIps && e.date == MonthDay(calendar(now))
      ensures line == Render(Stamp(when), e)
    {
      var id, ip := Store();
      var remote := base.rng.Choice(RemoteIps);
      RemoteIpRange(remote);
      var auditBatch := base.rng.RandInt(100, 200);
      var date := MonthDay(calendar(now));
      var ossecBatch := base.rng.RandInt(100, 200);
      var pid := base.rng.RandInt(5000, 6000);
      var message := base.rng.Choice(PamMessages(PamUser, remote.Dotted(), auditBatch, date, ossecBatch, pid));
      e := PamSsh(id, ip, remote, auditBatch, date, ossecBatch, pid, message);
      line := Render(Stamp(when), e);
    }

    /** _generate_ssh_error_log */
    method SshErrorLog(when: int) returns (line: string, e: Entry)
      modifies base.rng
      ensures e.SshError? && EntryOk(e, tables) && e.storeIp in storeIps
      ensures line == Render(Stamp(when), e)
    {
      var id, ip := Store();
      var message := base.rng.Choice(tables.sshErrors);
      e := SshError(id, ip, message);
      line := Render(Stamp(when), e);
    }

    /** _generate_movement_log */
    method MovementLog(when: int) returns (line: string, e: Entry)
      modifies base.rng
      ensures e.Movement? && EntryOk(e, tables) && e.storeIp in storeIps
      ensures line == Render(Stamp(when), e)
    {
      var id, ip := Store();
      e := Movement(id, ip);
      line := Render(Stamp(when), e);
    }

    /** The builder of each log type. */
    method Dispatch(t: LogType, when: int, now: int) returns (line: string, e: Entry)
      modifies base.rng
      ensures TypeOf(e) == t && EntryOk(e, tables) && e.storeIp in storeIps
      ensures line == Render(Stamp(when), e)
    {
      match t
      case ApiRequestType => line, e := ApiRequestLog(when);
      case UserAuthType => line, e := UserAuthLog(when);
      case ApiRequestWithUserType => line, e := ApiRequestWithUserLog(when);
      case PamSshType => line, e := PamSshLog(when, now);
      case SshErrorType => line, e := SshErrorLog(when);
      case MovementType => line, e := MovementLog(when);
    }

    /** random.choices over the builders with weights 40, 20, 25, 8, 2, 5. */
    method PickType() returns (t: LogType)
      modifies base.rng
      ensures Some(t) == WeightedPick(LogTypes, LogWeights, UnitOf(old(base.rng.Peek())))
      ensures base.rng.source == old(base.rng.source) && base.rng.cursor == old(base.rng.cursor) + 1
    {
      LogWeightsPositive();
      var picked := base.WeightedChoice(LogTypes, LogWeights);
      t := picked.value;
    }

    /** generate_log: an instant up to an hour before now, then a weighted pick of the builder. */
    method GenerateLog(now: int) returns (line: string, e: Entry, when: int, seconds: int)
      modifies base.rng
      ensures 0 <= seconds <= 3600 && when == now - seconds * MicrosPerSecond
      ensures TypeOf(e) in LogTypes && EntryOk(e, tables) && e.storeIp in storeIps
      ensures line == Render(Stamp(when), e)
    {
      seconds := base.rng.RandInt(0, 3600);
      when := now - seconds * MicrosPerSecond;
      var t := PickType();
      line, e := Dispatch(t, when, now);
      RenderStartsWithStamp(Stamp(when), e);
    }

    /** Line `line` shows entry e, built at `when`, `steps` steps of the batch before now. */
    predicate Made(line: string, e: Entry, when: int, steps: int, now: int)
    {
      EntryOk(e, tables) && e.storeIp in storeIps && line == Render(Stamp(when), e) && Backdated(now, steps, when)
    }

    /** Every line collected so far is the line of its draw, made for its place in the batch. */
    predicate Collected(generated: seq<string>, draws: seq<Draw>, count: int, now: int)
    {
      |generated| == |draws| &&
      forall k :: 0 <= k < |draws| ==>
        generated[k] == draws[k].line && Made(draws[k].line, draws[k].entry, draws[k].when, count - k, now) && |draws[k].line| >= 23
    }

    lemma CollectedAppend(generated: seq<string>, draws: seq<Draw>, count: int, now: int, d: Draw)
      requires Collected(generated, draws, count, now)
      requires Made(d.line, d.entry, d.when, count - |draws|, now) && |d.line| >= 23
      ensures Collected(generated + [d.line], draws + [d], count, now)
    {
    }

    /** One pass of the batch loop: the backdated instant, then a weighted pick of the builder. */
    method BatchStep(steps: nat, now: int) returns (line: string, e: Entry, when: int)
      modifies base.rng
      ensures Made(line, e, when, steps, now)
      ensures |line| >= 23
    {
      var x := base.rng.Uniform(0.5, 5.0);
      var seconds := steps as real * x;
      BackdateBounds(steps, x);
      RoundWithin(seconds, steps * 500000, steps * 5000000);
      when := now - RoundMicros(seconds);
      var t := PickType();
      line, e := Dispatch(t, when, now);
    }

    /**
      generate_logs: line i is backdated by (count - i) * uniform(0.5, 5) seconds
      from now, the lines are collected in call order, then sorted in reverse
      string order.
    */
    method GenerateLogs(count: int, now: int) returns (logs: seq<string>, generated: seq<string>, draws: seq<Draw>)
      modifies base.rng
      ensures |generated| == |draws| == (if count < 0 then 0 else count)
      ensures forall k :: 0 <= k < |draws| ==>
        generated[k] == draws[k].line && Made(draws[k].line, draws[k].entry, draws[k].when, count - k, now)
      ensures logs == SortedDesc(generated)
      ensures |logs| == |generated| && multiset(logs) == multiset(generated)
      ensures Descending(logs) && SortedDesc(logs) == logs
      ensures forall k :: 0 <= k < |logs| ==> |logs[k]| >= 23
      ensures forall i, j :: 0 <= i < j < |logs| ==> LexLe(logs[j][..23], logs[i][..23])
    {
      generated, draws := CollectBatch(count, now);
      logs := SortBatch(generated);
      LongLinesStayLong(generated, logs);
      BatchStampsDescending(logs);
    }

    /** The loop of generate_logs, before the sort. */
    method CollectBatch(count: int, now: int) returns (generated: seq<string>, draws: seq<Draw>)
      modifies base.rng
      ensures |generated| == (if count < 0 then 0 else count)
      ensures Collected(generated, draws, count, now)
    {
      var n := if count < 0 then 0 else count;
      generated, draws := [], [];
      for i := 0 to n
        invariant |generated| == i
        invariant Collected(generated, draws, count, now)
      {
        var line, e, when := BatchStep(count - i, now);
        CollectedAppend(generated, draws, count, now, Draw(line, e, when));
        generated, draws := generated + [line], draws + [Draw(line, e, when)];
      }
    }

    /** logs.sort(reverse=True) on the collected lines. */
    method SortBatch(generated: seq<string>) returns (logs: seq<string>)
      ensures logs == SortedDesc(generated)
      ensures |logs| == |generated| && multiset(logs) == multiset(generated)
      ensures Descending(logs) && SortedDesc(logs) == logs
    {
      var a := new string[|generated|](k requires 0 <= k < |generated| => generated[k]);
      assert a[..] == generated;
      SortDescending(a);
      logs := a[..];
      SortedDescIsDescending(generated);
      ResortUnchanged(logs);
    }
  }
}
