/** The value-or-nothing type used wherever the source returns None. */
module Common {
  datatype Option<T> = None | Some(value: T)
}

/**
  String building blocks shared by the generators: Python's str() of an int, the
  format specs "0<w>d", "x" and "X", str.join, str.replace, str.split, str.lower
  and the `in` substring test, each on strings as sequences of characters.
*/
module Text {
  import opened Common

  predicate IsDigit(c: char) { '0' <= c <= '9' }
  predicate IsLowerHex(c: char) { IsDigit(c) || 'a' <= c <= 'f' }
  predicate IsUpperHex(c: char) { IsDigit(c) || 'A' <= c <= 'F' }

  predicate AllDigits(s: string) { forall i :: 0 <= i < |s| ==> IsDigit(s[i]) }
  predicate AllLowerHex(s: string) { forall i :: 0 <= i < |s| ==> IsLowerHex(s[i]) }
  predicate AllUpperHex(s: string) { forall i :: 0 <= i < |s| ==> IsUpperHex(s[i]) }

  function DigitChar(d: nat): (c: char)
    requires d < 10
    ensures IsDigit(c) && c as int - '0' as int == d
  {
    ('0' as int + d) as char
  }

  function HexChar(d: nat, upper: bool): (c: char)
    requires d < 16
    ensures upper ==> IsUpperHex(c)
    ensures !upper ==> IsLowerHex(c)
  {
    if d < 10 then DigitChar(d)
    else ((if upper then 'A' else 'a') as int + d - 10) as char
  }

  /** str(n) for n >= 0: its decimal digits, without leading zeros. */
  function NatStr(n: nat): (s: string)
    ensures |s| >= 1 && AllDigits(s)
    ensures (s[0] == '0') == (n == 0)
  {
    if n < 10 then [DigitChar(n)] else NatStr(n / 10) + [DigitChar(n % 10)]
  }

  /** str(i) for any int: a '-' in front of the digits of a negative number. */
  function IntStr(i: int): (s: string)
    ensures |s| >= 1
    ensures i >= 0 ==> s == NatStr(i)
    ensures i < 0 ==> s[0] == '-' && s[1..] == NatStr(-i)
  {
    if i < 0 then "-" + NatStr(-i) else NatStr(i)
  }

  /** The number a string of decimal digits denotes (the digits part of int()). */
  function DigitsValue(s: string): nat
    requires AllDigits(s)
  {
    if s == [] then 0 else DigitsValue(s[..|s| - 1]) * 10 + (s[|s| - 1] as int - '0' as int)
  }

  /** Reading back the digits that str() printed gives the number. */
  lemma {:induction false} NatStrRoundTrip(n: nat)
    ensures DigitsValue(NatStr(n)) == n
  {
    if n >= 10 {
      var s := NatStr(n);
      assert s[..|s| - 1] == NatStr(n / 10);
      NatStrRoundTrip(n / 10);
    }
  }

  /** Distinct numbers print differently. */
  lemma NatStrInjective(m: nat, n: nat)
    requires NatStr(m) == NatStr(n)
    ensures m == n
  {
    NatStrRoundTrip(m);
    NatStrRoundTrip(n);
  }

  function Pow10(k: nat): (p: nat)
    ensures p >= 1
  {
    if k == 0 then 1 else 10 * Pow10(k - 1)
  }

  /** A number in [10^(k-1), 10^k) prints with exactly k digits. */
  lemma {:induction false} NatStrLength(n: nat, k: nat)
    requires 1 <= k && Pow10(k - 1) <= n < Pow10(k)
    ensures |NatStr(n)| == k
  {
    if k > 1 {
      assert Pow10(k - 1) == 10 * Pow10(k - 2);
      assert Pow10(k - 2) <= n / 10 < Pow10(k - 1);
      NatStrLength(n / 10, k - 1);
    }
  }

  function Repeat(c: char, n: nat): (s: string)
    ensures |s| == n
    ensures forall i :: 0 <= i < n ==> s[i] == c
  {
    if n == 0 then [] else [c] + Repeat(c, n - 1)
  }

  /** The zero fill of a format spec "0<width>d" or "0<width>x" applied to unsigned digits. */
  function ZeroPad(s: string, width: nat): (r: string)
    ensures |r| == if |s| >= width then |s| else width
    ensures r[|r| - |s|..] == s
    ensures forall i :: 0 <= i < |r| - |s| ==> r[i] == '0'
  {
    if |s| >= width then s else Repeat('0', width - |s|) + s
  }

  /** f"{n:x}" (upper == false) and f"{n:X}" (upper == true) for n >= 0. */
  function HexStr(n: nat, upper: bool): (s: string)
    ensures |s| >= 1
    ensures upper ==> AllUpperHex(s)
    ensures !upper ==> AllLowerHex(s)
    ensures n < 16 ==> |s| == 1
    ensures 16 <= n < 256 ==> |s| == 2
  {
    if n < 16 then [HexChar(n, upper)] else HexStr(n / 16, upper) + [HexChar(n % 16, upper)]
  }

  function Pow16(k: nat): (p: nat)
    ensures p >= 1
  {
    if k == 0 then 1 else 16 * Pow16(k - 1)
  }

  /** A number in [16^(k-1), 16^k) prints with exactly k hex digits. */
  lemma {:induction false} HexStrLength(n: nat, upper: bool, k: nat)
    requires 1 <= k && Pow16(k - 1) <= n < Pow16(k)
    ensures |HexStr(n, upper)| == k
  {
    if k > 1 {
      assert Pow16(k - 1) == 16 * Pow16(k - 2);
      assert Pow16(k - 2) <= n / 16 < Pow16(k - 1);
      HexStrLength(n / 16, upper, k - 1);
    }
  }

  /** A number below 16^k prints with at most k hex digits. */
  lemma {:induction false} HexStrBound(n: nat, upper: bool, k: nat)
    requires 1 <= k && n < Pow16(k)
    ensures |HexStr(n, upper)| <= k
  {
    if n >= 16 {
      assert k > 1;
      assert Pow16(k) == 16 * Pow16(k - 1);
      assert n / 16 < Pow16(k - 1);
      HexStrBound(n / 16, upper, k - 1);
    }
  }

  /** str() of an int holds only digits and a leading minus sign. */
  lemma IntStrFree(i: int, c: char)
    requires !IsDigit(c) && c != '-'
    ensures !HasChar(IntStr(i), c)
  {
    if i < 0 {
      assert AllDigits(NatStr(-i));
      assert IntStr(i) == "-" + NatStr(-i);
    } else {
      assert AllDigits(IntStr(i));
    }
  }

  /** sep.join(parts) */
  function Join(sep: string, parts: seq<string>): string
  {
    if |parts| == 0 then ""
    else if |parts| == 1 then parts[0]
    else parts[0] + sep + Join(sep, parts[1..])
  }

  /** Joining a list extended by one element puts one separator before that element. */
  lemma {:induction false} JoinSnoc(sep: string, parts: seq<string>, last: string)
    requires |parts| >= 1
    ensures Join(sep, parts + [last]) == Join(sep, parts) + sep + last
  {
    if |parts| > 1 {
      assert (parts + [last])[1..] == parts[1..] + [last];
      JoinSnoc(sep, parts[1..], last);
    }
  }

  predicate StartsWith(s: string, prefix: string)
  {
    |prefix| <= |s| && s[..|prefix|] == prefix
  }

  predicate EndsWith(s: string, suffix: string)
  {
    |suffix| <= |s| && s[|s| - |suffix|..] == suffix
  }

  lemma EndsWithAfter(a: string, x: string, suffix: string)
    requires EndsWith(x, suffix)
    ensures EndsWith(a + x, suffix)
  {
    assert (a + x)[|a + x| - |suffix|..] == x[|x| - |suffix|..];
  }

  /** A concatenation starts with its first part, ends with its last, and drops back to it. */
  lemma Concat(a: string, b: string)
    ensures StartsWith(a + b, a) && EndsWith(a + b, b) && (a + b)[|a|..] == b
  {
    assert (a + b)[..|a|] == a;
    assert (a + b)[|a|..] == b;
  }

  /** Python's `sub in s` on strings. */
  predicate Contains(s: string, sub: string)
    decreases |s|
  {
    StartsWith(s, sub) || (|s| > 0 && Contains(s[1..], sub))
  }

  /** Python's `c in s` for a single character. */
  predicate HasChar(s: string, c: char)
  {
    c in s
  }

  function LowerChar(c: char): char
  {
    if 'A' <= c <= 'Z' then (c as int + 32) as char else c
  }

  /** str.lower(), on the ASCII letters. */
  function Lower(s: string): (r: string)
    ensures |r| == |s|
    ensures forall i :: 0 <= i < |s| ==> r[i] == LowerChar(s[i])
  {
    if s == [] then [] else [LowerChar(s[0])] + Lower(s[1..])
  }

  /** s.replace(c, r) for a one-character pattern c. */
  function ReplaceChar(s: string, c: char, r: string): string
  {
    if s == [] then [] else (if s[0] == c then r else [s[0]]) + ReplaceChar(s[1..], c, r)
  }

  lemma {:induction false} ReplaceCharConcat(a: string, b: string, c: char, r: string)
    ensures ReplaceChar(a + b, c, r) == ReplaceChar(a, c, r) + ReplaceChar(b, c, r)
  {
    if a != [] {
      assert (a + b)[0] == a[0] && (a + b)[1..] == a[1..] + b;
      ReplaceCharConcat(a[1..], b, c, r);
    } else {
      assert a + b == b;
    }
  }

  /** s.split(c) for a one-character separator: never empty, and no part holds c. */
  function Split(s: string, c: char): (parts: seq<string>)
    ensures |parts| >= 1
    ensures forall i :: 0 <= i < |parts| ==> !HasChar(parts[i], c)
    decreases |s|
  {
    if s == [] then [""]
    else
      var rest := Split(s[1..], c);
      if s[0] == c then [""] + rest
      else
        assert forall i :: 0 < i < |rest| ==> ([[s[0]] + rest[0]] + rest[1..])[i] == rest[i];
        [[s[0]] + rest[0]] + rest[1..]
  }

  /** Joining the parts of a split with the separator gives back the string. */
  lemma {:induction false} SplitJoin(s: string, c: char)
    ensures Join([c], Split(s, c)) == s
    decreases |s|
  {
    if s != [] {
      var rest := Split(s[1..], c);
      SplitJoin(s[1..], c);
      if s[0] == c {
        assert Split(s, c) == [""] + rest;
        assert Join([c], [""] + rest) == [c] + Join([c], rest);
      } else {
        var parts := [[s[0]] + rest[0]] + rest[1..];
        assert Split(s, c) == parts;
        if |rest| == 1 {
          assert Join([c], rest) == rest[0];
        } else {
          assert rest == [rest[0]] + rest[1..];
          assert Join([c], rest) == rest[0] + [c] + Join([c], rest[1..]);
          assert parts[1..] == rest[1..];
        }
      }
    }
  }

  /** Splitting a join of separator-free parts gives back the parts. */
  lemma {:induction false} JoinSplit(parts: seq<string>, c: char)
    requires |parts| >= 1
    requires forall i :: 0 <= i < |parts| ==> !HasChar(parts[i], c)
    ensures Split(Join([c], parts), c) == parts
  {
    if |parts| == 1 {
      SplitFree(parts[0], c);
    } else {
      JoinSplit(parts[1..], c);
      SplitPrefix(parts[0], Join([c], parts[1..]), c);
      assert parts == [parts[0]] + parts[1..];
    }
  }

  /** A string without the separator splits into itself. */
  lemma {:induction false} SplitFree(s: string, c: char)
    requires !HasChar(s, c)
    ensures Split(s, c) == [s]
    decreases |s|
  {
    if s != [] {
      assert s == [s[0]] + s[1..];
      SplitFree(s[1..], c);
    }
  }

  /** A separator-free head followed by the separator contributes exactly one part. */
  lemma {:induction false} SplitPrefix(a: string, b: string, c: char)
    requires !HasChar(a, c)
    ensures Split(a + [c] + b, c) == [a] + Split(b, c)
    decreases |a|
  {
    if a == [] {
      assert a + [c] + b == [c] + b;
      assert ([c] + b)[1..] == b;
    } else {
      assert a == [a[0]] + a[1..];
      SplitPrefix(a[1..], b, c);
      assert (a + [c] + b)[1..] == a[1..] + [c] + b;
      var rest := Split(a[1..] + [c] + b, c);
      assert rest == [a[1..]] + Split(b, c);
      assert [a[0]] + a[1..] == a;
    }
  }

  /** The text before the first c and the text after it; None when s holds no c. */
  function SplitFirst(s: string, c: char): (r: Option<(string, string)>)
    ensures r.None? <==> !HasChar(s, c)
    ensures r.Some? ==> s == r.value.0 + [c] + r.value.1 && !HasChar(r.value.0, c)
    decreases |s|
  {
    if s == [] then None
    else if s[0] == c then Some(([], s[1..]))
    else
      match SplitFirst(s[1..], c)
      case None => None
      case Some((a, b)) => Some(([s[0]] + a, b))
  }

  /** Cutting at the first c finds the boundary after a c-free head. */
  lemma {:induction false} SplitFirstAt(a: string, b: string, c: char)
    requires !HasChar(a, c)
    ensures SplitFirst(a + [c] + b, c) == Some((a, b))
    decreases |a|
  {
    if a == [] {
      assert a + [c] + b == [c] + b;
      assert ([c] + b)[1..] == b;
    } else {
      assert a == [a[0]] + a[1..];
      SplitFirstAt(a[1..], b, c);
      assert (a + [c] + b)[1..] == a[1..] + [c] + b;
    }
  }
  /** The characters str.strip() and int() skip around a number (the ASCII ones). */
  predicate IsSpace(c: char)
  {
    c == ' ' || c == '\t' || c == '\n' || c == '\r' || c == '\U{000B}' || c == '\U{000C}'
  }

  function StripLeft(s: string): (r: string)
    ensures |r| <= |s| && r == s[|s| - |r|..]
    ensures |r| > 0 ==> !IsSpace(r[0])
  {
    if s != [] && IsSpace(s[0]) then StripLeft(s[1..]) else s
  }

  function StripRight(s: string): (r: string)
    ensures |r| <= |s| && r == s[..|r|]
    ensures |r| > 0 ==> !IsSpace(r[|r| - 1])
  {
    if s != [] && IsSpace(s[|s| - 1]) then StripRight(s[..|s| - 1]) else s
  }

  /** str.strip() */
  function Strip(s: string): string
  {
    StripRight(StripLeft(s))
  }

  /** A string with no surrounding space strips to itself. */
  lemma StripTrimmed(s: string)
    requires |s| > 0 ==> !IsSpace(s[0]) && !IsSpace(s[|s| - 1])
    ensures Strip(s) == s
  {
  }

  /** int(s) on a str: optional surrounding space, an optional sign, then decimal digits. */
  function ParseInt(s: string): Option<int>
  {
    SignedDigits(Strip(s))
  }

  /** An optional sign, then decimal digits, with nothing around them. */
  function SignedDigits(t: string): Option<int>
  {
    if |t| >= 2 && (t[0] == '-' || t[0] == '+') && AllDigits(t[1..]) then
      var v: int := DigitsValue(t[1..]);
      Some(if t[0] == '-' then -v else v)
    else if |t| >= 1 && AllDigits(t) then Some(DigitsValue(t))
    else None
  }

  /** A minus sign and digits, with nothing around them, read as the negated value. */
  lemma SignedNegative(d: string)
    requires |d| >= 1 && AllDigits(d)
    ensures SignedDigits("-" + d) == Some(-(DigitsValue(d) as int))
  {
    var t := "-" + d;
    assert t[0] == '-' && t[1..] == d;
  }

  /** int() of plain digits is their value. */
  lemma ParseIntDigits(d: string)
    requires |d| >= 1 && AllDigits(d)
    ensures ParseInt(d) == Some(DigitsValue(d))
  {
    assert IsDigit(d[0]) && IsDigit(d[|d| - 1]);
    StripTrimmed(d);
  }

  /** int() of a minus sign and digits is the negated value. */
  lemma ParseIntNegative(d: string)
    requires |d| >= 1 && AllDigits(d)
    ensures ParseInt("-" + d) == Some(-(DigitsValue(d) as int))
  {
    var s := "-" + d;
    assert s[0] == '-' && s[|s| - 1] == d[|d| - 1] && IsDigit(d[|d| - 1]);
    StripTrimmed(s);
    SignedNegative(d);
  }

  /** int(str(i)) == i */
  lemma ParseIntRoundTrip(i: int)
    ensures ParseInt(IntStr(i)) == Some(i)
  {
    if i < 0 {
      NegativeRoundTrip(i);
    } else {
      PositiveRoundTrip(i);
    }
  }

  lemma NegativeRoundTrip(i: int)
    requires i < 0
    ensures ParseInt(IntStr(i)) == Some(i)
  {
    var n: nat := -i;
    var d := NatStr(n);
    assert IntStr(i) == "-" + d;
    ParseIntNegative(d);
    NatStrRoundTrip(n);
    assert DigitsValue(d) == n;
  }

  lemma PositiveRoundTrip(n: nat)
    ensures ParseInt(IntStr(n)) == Some(n)
  {
    ParseIntDigits(NatStr(n));
    NatStrRoundTrip(n);
  }

  /** The last part of s.split(c), as in s.split(c)[-1]. */
  function LastPart(s: string, c: char): string
  {
    var parts := Split(s, c);
    parts[|parts| - 1]
  }

  /** A join ends with its last part. */
  lemma {:induction false} JoinEndsWithLast(sep: string, parts: seq<string>)
    requires |parts| >= 1
    ensures EndsWith(Join(sep, parts), parts[|parts| - 1])
  {
    if |parts| == 1 {
      Concat([], parts[0]);
      assert [] + parts[0] == parts[0];
    } else {
      JoinEndsWithLast(sep, parts[1..]);
      EndsWithAfter(parts[0] + sep, Join(sep, parts[1..]), parts[|parts| - 1]);
    }
  }

  /** The last component holds no separator and is a suffix of the whole. */
  lemma LastPartSuffix(s: string, c: char)
    ensures !HasChar(LastPart(s, c), c) && EndsWith(s, LastPart(s, c))
  {
    SplitJoin(s, c);
    JoinEndsWithLast([c], Split(s, c));
  }
  /** Leading zeros do not change the number a digit string denotes. */
  lemma {:induction false} DigitsValueZeroPad(s: string, width: nat)
    requires AllDigits(s)
    ensures AllDigits(ZeroPad(s, width)) && DigitsValue(ZeroPad(s, width)) == DigitsValue(s)
    decreases |s|
  {
    var r := ZeroPad(s, width);
    if |s| < width {
      if s == [] {
        ZerosValue(width);
        assert r == Repeat('0', width);
      } else {
        var init, last := s[..|s| - 1], s[|s| - 1];
        assert s == init + [last];
        DigitsValueZeroPad(init, width - 1);
        var p := ZeroPad(init, width - 1);
        var zeros := Repeat('0', width - |s|);
        assert p == zeros + init && r == zeros + s;
        assert r == p + [last];
        assert r[..|r| - 1] == p;
        assert DigitsValue(r) == DigitsValue(p) * 10 + (last as int - '0' as int);
      }
    }
  }

  lemma {:induction false} ZerosValue(n: nat)
    ensures AllDigits(Repeat('0', n)) && DigitsValue(Repeat('0', n)) == 0
  {
    if n > 0 {
      ZerosValue(n - 1);
      assert Repeat('0', n) == Repeat('0', n - 1) + ['0'];
    }
  }
}
