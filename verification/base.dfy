/**
  The shared base of every generator: seeding, the field synthesizers
  (timestamps, addresses, user and host names, ports, MAC addresses) and the
  weighted choice helper.

  Times are instants in microseconds since the epoch. datetime.now() at
  construction is a parameter, and strftime is an oracle that turns a format
  and an instant into text.
*/
module Base {
  import opened Common
  import opened Text
  import opened Net
  import opened Random
  import Fake

  const MicrosPerSecond: int := 1000000
  const SecondsPerDay: int := 86400

  /** The prefixes generate_hostname picks from when it is given none. */
  const HostPrefixes: seq<string> := ["web", "app", "db", "mail", "dns", "fw", "proxy", "dc", "fs"]

  /** The well-known ports of generate_port(True). */
  const CommonPorts: seq<int> := [22, 23, 25, 53, 80, 110, 143, 443, 445, 3306, 3389, 5432, 8080, 8443]

  /** The address templates generate_ip_address(True) picks from. */
  const PrivateTemplates: seq<string> := ["10.{}.{}.{}", "172.{}.{}.{}", "192.168.{}.{}"]

  /** Python's truth value of an Optional[int]: None and 0 are false. */
  predicate Truthy(seed: Option<int>)
  {
    seed.Some? && seed.value != 0
  }

  /** Python's truth value of an Optional[str]: None and "" are false. */
  predicate TruthyText(s: Option<string>)
  {
    s.Some? && s.value != ""
  }

  /** The addresses generate_ip_address(True) can produce: host part never 0 or 255. */
  predicate GeneratedPrivate(ip: Ipv4)
  {
    1 <= ip.d <= 254 &&
    (ip.a == 10 || (ip.a == 172 && 16 <= ip.b <= 31) || (ip.a == 192 && ip.b == 168))
  }

  /** Every address generate_ip_address(True) produces is an RFC 1918 address. */
  lemma GeneratedPrivateIsRfc1918(ip: Ipv4)
    requires GeneratedPrivate(ip)
    ensures InRfc1918(ip)
  {
  }

  /** The host name f"{prefix}-{n}". */
  function Hostname(prefix: string, n: int): string
  {
    prefix + "-" + IntStr(n)
  }

  /** The names generate_hostname() produces when given no prefix. */
  ghost predicate GeneratedHost(h: string)
  {
    exists p, n :: p in HostPrefixes && 1 <= n <= 100 && h == Hostname(p, n)
  }

  lemma PrefixesHaveNoSpace()
    ensures forall q :: q in HostPrefixes ==> ' ' !in q
  {
  }

  /** Generated host names are single words. */
  lemma GeneratedHostHasNoSpace(h: string)
    requires GeneratedHost(h)
    ensures !HasChar(h, ' ')
  {
    var p, n :| p in HostPrefixes && 1 <= n <= 100 && h == Hostname(p, n);
    PrefixesHaveNoSpace();
    var digits := IntStr(n);
    assert AllDigits(digits);
    assert ' ' !in digits;
    assert h == p + "-" + digits;
  }

  // ---------------------------------------------------------------------
  // MAC addresses
  // ---------------------------------------------------------------------

  /** f"{o:02x}": an octet in lowercase hex, zero-filled to width two. */
  function Hex2(o: Octet): (s: string)
    ensures s == [HexChar(o / 16, false), HexChar(o % 16, false)]
  {
    Hex2Digits(o);
    ZeroPad(HexStr(o, false), 2)
  }

  /** The two-digit form of an octet is its high nibble then its low nibble. */
  lemma Hex2Digits(o: Octet)
    ensures ZeroPad(HexStr(o, false), 2) == [HexChar(o / 16, false), HexChar(o % 16, false)]
  {
    var h := HexStr(o, false);
    if o < 16 {
      assert h == [HexChar(o, false)];
      assert ZeroPad(h, 2) == Repeat('0', 1) + h;
    } else {
      assert h == HexStr(o / 16, false) + [HexChar(o % 16, false)];
      assert HexStr(o / 16, false) == [HexChar(o / 16, false)];
    }
  }

  function HexDigitValue(c: char): nat
    requires IsLowerHex(c)
  {
    if IsDigit(c) then c as int - '0' as int else c as int - 'a' as int + 10
  }

  lemma HexCharValue(d: nat)
    requires d < 16
    ensures HexDigitValue(HexChar(d, false)) == d
  {
  }

  /** The two-digit forms of the octets, in order. */
  function HexParts(octets: seq<Octet>): (parts: seq<string>)
    ensures |parts| == |octets|
    ensures forall k :: 0 <= k < |octets| ==> parts[k] == Hex2(octets[k])
  {
    if octets == [] then [] else HexParts(octets[..|octets| - 1]) + [Hex2(octets[|octets| - 1])]
  }

  /** The k-th two-character field of a colon-separated address. */
  function Field(m: string, k: nat): string
    requires 3 * k + 2 <= |m|
  {
    m[3 * k..3 * k + 2]
  }

  /** The character after the k-th field. */
  function Separator(m: string, k: nat): char
    requires 3 * k + 2 < |m|
  {
    m[3 * k + 2]
  }

  /** Joining two-character parts with ":" puts part k at 3k and a ":" right after it. */
  lemma {:induction false} JoinPairs(parts: seq<string>)
    requires |parts| >= 1
    requires forall k :: 0 <= k < |parts| ==> |parts[k]| == 2
    ensures |Join(":", parts)| == 3 * |parts| - 1
    ensures forall k :: 0 <= k < |parts| ==> Field(Join(":", parts), k) == parts[k]
    ensures forall k :: 0 <= k < |parts| - 1 ==> Separator(Join(":", parts), k) == ':'
  {
    if |parts| > 1 {
      JoinPairs(parts[1..]);
      var rest := Join(":", parts[1..]);
      var whole := Join(":", parts);
      assert whole == parts[0] + ":" + rest;
      assert whole[3..] == rest;
      forall k | 1 <= k < |parts|
        ensures Field(whole, k) == parts[k]
      {
        assert Field(rest, k - 1) == parts[1..][k - 1];
        assert whole[3 * k..3 * k + 2] == rest[3 * (k - 1)..3 * (k - 1) + 2];
      }
      forall k | 1 <= k < |parts| - 1
        ensures Separator(whole, k) == ':'
      {
        assert Separator(rest, k - 1) == ':';
        assert whole[3 * k + 2] == rest[3 * (k - 1) + 2];
      }
      assert Field(whole, 0) == parts[0];
    }
  }

  /** ":".join of the octets' two-digit forms, as generate_mac_address prints them. */
  function Mac(octets: seq<Octet>): (m: string)
    requires |octets| == 6
    ensures |m| == 17
    ensures forall k :: 0 <= k < 6 ==> Field(m, k) == Hex2(octets[k]) && AllLowerHex(Field(m, k))
    ensures forall k :: 0 <= k < 5 ==> Separator(m, k) == ':'
  {
    MacShape(octets);
    Join(":", HexParts(octets))
  }

  lemma MacShape(octets: seq<Octet>)
    requires |octets| == 6
    ensures |Join(":", HexParts(octets))| == 17
    ensures forall k :: 0 <= k < 6 ==>
      Field(Join(":", HexParts(octets)), k) == Hex2(octets[k]) && AllLowerHex(Field(Join(":", HexParts(octets)), k))
    ensures forall k :: 0 <= k < 5 ==> Separator(Join(":", HexParts(octets)), k) == ':'
  {
    var parts := HexParts(octets);
    var m := Join(":", parts);
    JoinPairs(parts);
    forall k | 0 <= k < 6
      ensures Field(m, k) == Hex2(octets[k]) && AllLowerHex(Field(m, k))
    {
      assert Field(m, k) == parts[k] == Hex2(octets[k]);
    }
  }

  /** The octet a two-digit lowercase hex field denotes. */
  function FieldValue(m: string, k: nat): nat
    requires 3 * k + 2 <= |m| && AllLowerHex(Field(m, k))
  {
    16 * HexDigitValue(Field(m, k)[0]) + HexDigitValue(Field(m, k)[1])
  }

  /** Reads a MAC address back into its six octets. */
  function ParseMac(m: string): (r: Option<seq<nat>>)
    ensures r.Some? ==> |r.value| == 6
  {
    if |m| == 17 &&
       (forall k :: 0 <= k < 5 ==> Separator(m, k) == ':') &&
       (forall k :: 0 <= k < 6 ==> AllLowerHex(Field(m, k)))
    then Some(seq(6, k requires 0 <= k < 6 => FieldValue(m, k)))
    else None
  }

  /** Every generated MAC address reads back as its octets. */
  lemma MacRoundTrip(octets: seq<Octet>)
    requires |octets| == 6
    ensures ParseMac(Mac(octets)) == Some(octets)
  {
    var m := Mac(octets);
    forall k | 0 <= k < 6
      ensures FieldValue(m, k) == octets[k]
    {
      HexCharValue(octets[k] / 16);
      HexCharValue(octets[k] % 16);
    }
    assert seq(6, k requires 0 <= k < 6 => FieldValue(m, k)) == octets;
  }

  // ---------------------------------------------------------------------
  // weighted_choice
  // ---------------------------------------------------------------------

  /**
    The key weighted_choice returns when random() returns u: random.choices
    over the keys with the values as weights. None where random.choices raises.
  */
  function WeightedPick<T>(keys: seq<T>, weights: seq<real>, u: real): (r: Option<T>)
    requires |keys| == |weights| && 0.0 <= u < 1.0
    ensures r.Some? <==> |weights| > 0 && Sum(weights) > 0.0
    ensures r.Some? ==> r.value in keys
    ensures r.Some? && NonNegative(weights) ==>
      exists i :: 0 <= i < |keys| && keys[i] == r.value && weights[i] > 0.0
    ensures |keys| == 1 && weights[0] > 0.0 ==> r == Some(keys[0])
  {
    match ChoicesIndex(weights, u)
    case None => None
    case Some(i) =>
      assert NonNegative(weights) ==> weights[i] > 0.0 by {
        if NonNegative(weights) {
          ChoicesIndexSelects(weights, u);
        }
      }
      Some(keys[i])
  }

  // ---------------------------------------------------------------------
  // The generator base class
  // ---------------------------------------------------------------------

  class BaseGenerator {
    const rng: Rng
    const faker: Fake.Faker
    const seed: Option<int>
    /** datetime.now() when the generator was built; never reassigned. */
    const currentTime: int
    const strftime: (string, int) -> string

    /** __init__: the stream and Faker are seeded only for a truthy seed. */
    constructor (seed: Option<int>, now: int, strftime: (string, int) -> string, rng: Rng, faker: Fake.Faker)
      modifies rng, faker
      ensures this.seed == seed && currentTime == now && this.strftime == strftime
      ensures this.rng == rng && this.faker == faker
      ensures Truthy(seed) ==>
        rng.source == rng.seeding(Abs(seed.value)) && rng.cursor == 0 &&
        faker.stream == faker.seeding(Abs(seed.value)) && faker.cursor == 0
      ensures !Truthy(seed) ==>
        rng.source == old(rng.source) && rng.cursor == old(rng.cursor) &&
        faker.stream == old(faker.stream) && faker.cursor == old(faker.cursor)
    {
      this.seed := seed;
      this.rng := rng;
      this.faker := faker;
      this.strftime := strftime;
      currentTime := now;
      if Truthy(seed) {
        rng.Seed(seed.value);
        faker.Seed(seed.value);
      }
    }

    /** generate_datetime: a whole number of seconds, at most max_days_past days, before now. */
    method GenerateDatetime(maxDaysPast: int) returns (t: int)
      requires maxDaysPast >= 0
      modifies rng
      ensures currentTime - maxDaysPast * SecondsPerDay * MicrosPerSecond <= t <= currentTime
      ensures (currentTime - t) % MicrosPerSecond == 0
      ensures rng.source == old(rng.source) && rng.cursor == old(rng.cursor) + 1
    {
      var secondsPast := rng.RandInt(0, maxDaysPast * 24 * 3600);
      t := currentTime - secondsPast * MicrosPerSecond;
    }

    /** generate_timestamp: the instant of generate_datetime, formatted. */
    method GenerateTimestamp(format: string, maxDaysPast: int) returns (s: string, t: int)
      requires maxDaysPast >= 0
      modifies rng
      ensures s == strftime(format, t)
      ensures currentTime - maxDaysPast * SecondsPerDay * MicrosPerSecond <= t <= currentTime
      ensures rng.source == old(rng.source) && rng.cursor == old(rng.cursor) + 1
    {
      var secondsPast := rng.RandInt(0, maxDaysPast * 24 * 3600);
      t := currentTime - secondsPast * MicrosPerSecond;
      s := strftime(format, t);
    }

    /**
      generate_ip_address: a private address from one of the three templates,
      or Faker's public address.
    */
    method GenerateIpAddress(private: bool) returns (s: string, ip: Ipv4)
      modifies rng, faker
      ensures s == ip.Dotted()
      ensures private ==> GeneratedPrivate(ip)
      ensures !private ==> !InRfc1918(ip)
      ensures private ==> faker.stream == old(faker.stream) && faker.cursor == old(faker.cursor)
      ensures !private ==> rng.source == old(rng.source) && rng.cursor == old(rng.cursor)
    {
      if private {
        var subnet := rng.Choice(PrivateTemplates);
        if StartsWith(subnet, "10") {
          var x := rng.RandInt(0, 255);
          var y := rng.RandInt(0, 255);
          var z := rng.RandInt(1, 254);
          ip := Ipv4(10, x, y, z);
        } else if StartsWith(subnet, "172") {
          var x := rng.RandInt(16, 31);
          var y := rng.RandInt(0, 255);
          var z := rng.RandInt(1, 254);
          ip := Ipv4(172, x, y, z);
        } else {
          var y := rng.RandInt(0, 255);
          var z := rng.RandInt(1, 254);
          ip := Ipv4(192, 168, y, z);
        }
      } else {
        ip := faker.Ipv4Public();
      }
      s := ip.Dotted();
    }

    /** generate_username: one of four patterns over Faker's names, picked first. */
    method GenerateUsername() returns (u: string)
      modifies rng, faker
      ensures |u| >= 1
    {
      var pattern := rng.Choice([0, 1, 2, 3]);
      if pattern == 0 {
        u := faker.Name(Fake.UserName);
      } else if pattern == 1 {
        var first := faker.Name(Fake.FirstName);
        u := Lower(first);
      } else if pattern == 2 {
        var first := faker.Name(Fake.FirstName);
        var last := faker.Name(Fake.LastName);
        u := Lower(first) + "." + Lower(last);
      } else {
        var first := faker.Name(Fake.FirstName);
        var last := faker.Name(Fake.LastName);
        u := [LowerChar(first[0])] + Lower(last);
      }
    }

    /** generate_hostname: "<prefix>-<n>" with n in [1, 100]. */
    method GenerateHostname(prefix: Option<string>) returns (h: string, p: string, n: int)
      modifies rng
      ensures h == Hostname(p, n) && 1 <= n <= 100
      ensures TruthyText(prefix) ==> p == prefix.value
      ensures !TruthyText(prefix) ==> p in HostPrefixes
      ensures rng.source == old(rng.source) && rng.cursor == old(rng.cursor) + (if TruthyText(prefix) then 1 else 2)
    {
      if TruthyText(prefix) {
        p := prefix.value;
      } else {
        p := rng.Choice(HostPrefixes);
      }
      n := rng.RandInt(1, 100);
      h := Hostname(p, n);
    }

    /** generate_port: a listed well-known port, or one in [1024, 65535]. */
    method GeneratePort(wellKnown: bool) returns (port: int)
      modifies rng
      ensures wellKnown ==> port in CommonPorts
      ensures !wellKnown ==> 1024 <= port <= 65535
      ensures rng.source == old(rng.source) && rng.cursor == old(rng.cursor) + 1
    {
      if wellKnown {
        port := rng.Choice(CommonPorts);
      } else {
        port := rng.RandInt(1024, 65535);
      }
    }

    /** generate_mac_address: six draws in [0, 255], printed as a MAC address. */
    method GenerateMacAddress() returns (m: string, octets: seq<Octet>)
      modifies rng
      ensures |octets| == 6 && m == Mac(octets)
      ensures forall i :: 0 <= i < 6 ==> octets[i] == Reduce(old(rng.source)(old(rng.cursor) + i), 256)
      ensures rng.source == old(rng.source) && rng.cursor == old(rng.cursor) + 6
    {
      octets := [];
      for i := 0 to 6
        invariant |octets| == i && rng.source == old(rng.source) && rng.cursor == old(rng.cursor) + i
        invariant forall k :: 0 <= k < i ==> octets[k] == Reduce(old(rng.source)(old(rng.cursor) + k), 256)
      {
        var o := rng.RandInt(0, 255);
        octets := octets + [o];
      }
      m := Mac(octets);
    }

    /** weighted_choice: random.choices over the keys, weighted by the values. */
    method WeightedChoice<T>(keys: seq<T>, weights: seq<real>) returns (r: Option<T>)
      requires |keys| == |weights|
      modifies rng
      ensures r == WeightedPick(keys, weights, UnitOf(old(rng.Peek())))
      ensures rng.source == old(rng.source)
      ensures rng.cursor == if r.Some? then old(rng.cursor) + 1 else old(rng.cursor)
    {
      var i := rng.WeightedIndex(weights);
      match i
      case None => r := None;
      case Some(j) => r := Some(keys[j]);
    }
  }
}
