/**
  IPv4 addresses as the generators print them, and the private-use blocks of
  section 3 of RFC 1918 (10.0.0.0/8, 172.16.0.0/12, 192.168.0.0/16).
*/
module Net {
  import opened Common
  import opened Text

  type Octet = x: nat | x < 256

  datatype Ipv4 = Ipv4(a: Octet, b: Octet, c: Octet, d: Octet)
  {
    /** The dotted-quad text the f-strings of the generators produce. */
    function Dotted(): string
    {
      Join(".", [NatStr(a), NatStr(b), NatStr(c), NatStr(d)])
    }
  }

  /** Membership in one of the three private-use blocks of section 3 of RFC 1918. */
  predicate InRfc1918(ip: Ipv4)
  {
    ip.a == 10 || (ip.a == 172 && 16 <= ip.b <= 31) || (ip.a == 192 && ip.b == 168)
  }

  /** One decimal field of a dotted quad. */
  function ParseOctet(s: string): (r: Option<Octet>)
    ensures r.Some? ==> AllDigits(s) && r.value == DigitsValue(s)
  {
    if 1 <= |s| && AllDigits(s) && DigitsValue(s) < 256 then Some(DigitsValue(s)) else None
  }

  /** Reads a dotted quad back: exactly four decimal fields below 256. */
  function ParseDotted(s: string): (r: Option<Ipv4>)
  {
    var parts := Split(s, '.');
    if |parts| != 4 then None
    else
      match (ParseOctet(parts[0]), ParseOctet(parts[1]), ParseOctet(parts[2]), ParseOctet(parts[3]))
      case (Some(a), Some(b), Some(c), Some(d)) => Some(Ipv4(a, b, c, d))
      case _ => None
  }

  lemma DigitsHaveNoDot(s: string)
    requires AllDigits(s)
    ensures !HasChar(s, '.')
  {
    assert forall i :: 0 <= i < |s| ==> s[i] != '.';
  }

  /** A dotted quad holds only digits and dots. */
  lemma DottedFree(ip: Ipv4, c: char)
    requires !IsDigit(c) && c != '.'
    ensures !HasChar(ip.Dotted(), c)
  {
    var parts := [NatStr(ip.a), NatStr(ip.b), NatStr(ip.c), NatStr(ip.d)];
    forall i | 0 <= i < 4 ensures c !in parts[i] {
      assert AllDigits(parts[i]);
    }
    assert parts[1..][1..][1..] == [parts[3]];
    assert Join(".", parts[1..][1..]) == parts[2] + "." + parts[3];
    assert Join(".", parts[1..]) == parts[1] + "." + (parts[2] + "." + parts[3]);
    assert ip.Dotted() == parts[0] + "." + (parts[1] + "." + (parts[2] + "." + parts[3]));
  }

  lemma OctetRoundTrip(x: Octet)
    ensures ParseOctet(NatStr(x)) == Some(x)
  {
    NatStrRoundTrip(x);
  }

  /** Every printed address reads back as itself. */
  lemma DottedRoundTrip(ip: Ipv4)
    ensures ParseDotted(ip.Dotted()) == Some(ip)
  {
    var parts := [NatStr(ip.a), NatStr(ip.b), NatStr(ip.c), NatStr(ip.d)];
    forall i | 0 <= i < 4 ensures !HasChar(parts[i], '.') {
      DigitsHaveNoDot(parts[i]);
    }
    JoinSplit(parts, '.');
    OctetRoundTrip(ip.a);
    OctetRoundTrip(ip.b);
    OctetRoundTrip(ip.c);
    OctetRoundTrip(ip.d);
  }

  /** Distinct addresses print differently. */
  lemma DottedInjective(x: Ipv4, y: Ipv4)
    requires x.Dotted() == y.Dotted()
    ensures x == y
  {
    DottedRoundTrip(x);
    DottedRoundTrip(y);
  }
}
