/**
  The CEF line layout of the firewall generator:
  "CEF:0|vendor|product|version|classId|name|severity|extensions", where the
  extensions are "key=value" pairs joined by single spaces and every value has
  its backslashes doubled and then its pipes escaped. Header fields and the
  '=' sign are not escaped (unlike the ArcSight Common Event Format v0 rules).
*/
module CefFormat {
  import opened Text

  // ---------------------------------------------------------------------
  // Escaping of extension values
  // ---------------------------------------------------------------------

  /** str(value).replace('\\', '\\\\').replace('|', '\\|') */
  function Escape(v: string): string
  {
    ReplaceChar(ReplaceChar(v, '\\', "\\\\"), '|', "\\|")
  }

  /** What one character of a value becomes. */
  function EscapeChar(c: char): string
  {
    if c == '\\' then "\\\\" else if c == '|' then "\\|" else [c]
  }

  /** The two replacements act character by character. */
  lemma EscapeCons(c: char, rest: string)
    ensures Escape([c] + rest) == EscapeChar(c) + Escape(rest)
  {
    ReplaceCharConcat([c], rest, '\\', "\\\\");
    var head := ReplaceChar([c], '\\', "\\\\");
    ReplaceCharConcat(head, ReplaceChar(rest, '\\', "\\\\"), '|', "\\|");
    if c == '\\' {
      assert head == "\\\\";
      assert ReplaceChar(head, '|', "\\|") == "\\\\";
    } else {
      assert head == [c];
    }
  }

  /** Reads an escaped value back: a backslash takes the next character literally. */
  function Unescape(s: string): string
  {
    if s == [] then []
    else if s[0] == '\\' && |s| >= 2 then [s[1]] + Unescape(s[2..])
    else [s[0]] + Unescape(s[1..])
  }

  /** Unescaping recovers every value. */
  lemma {:induction false} UnescapeRoundTrip(v: string)
    ensures Unescape(Escape(v)) == v
  {
    if v == [] {
      assert Escape(v) == [];
    } else {
      var rest := Escape(v[1..]);
      assert v == [v[0]] + v[1..];
      EscapeCons(v[0], v[1..]);
      var s := EscapeChar(v[0]) + rest;
      if v[0] == '\\' || v[0] == '|' {
        assert s[0] == '\\' && s[1] == v[0] && s[2..] == rest;
      } else {
        assert s[0] == v[0] && s[1..] == rest;
      }
      UnescapeRoundTrip(v[1..]);
    }
  }

  /**
    A string every pipe of which is escaped: read left to right, a backslash
    always has a partner character, and no pipe stands alone.
  */
  predicate BarePipeFree(s: string)
    decreases |s|
  {
    if s == [] then true
    else if s[0] == '|' then false
    else if s[0] == '\\' then |s| >= 2 && BarePipeFree(s[2..])
    else BarePipeFree(s[1..])
  }

  /** An escaped value contains no unescaped pipe. */
  lemma {:induction false} EscapeBarePipeFree(v: string)
    ensures BarePipeFree(Escape(v))
  {
    if v == [] {
      assert Escape(v) == [];
    } else {
      assert v == [v[0]] + v[1..];
      EscapeCons(v[0], v[1..]);
      var rest := Escape(v[1..]);
      var s := EscapeChar(v[0]) + rest;
      EscapeBarePipeFree(v[1..]);
      if v[0] == '\\' || v[0] == '|' {
        assert s[2..] == rest;
      } else {
        assert s[1..] == rest;
      }
    }
  }

  /** Strings free of bare pipes stay so when put together. */
  lemma {:induction false} BarePipeFreeConcat(a: string, b: string)
    requires BarePipeFree(a) && BarePipeFree(b)
    ensures BarePipeFree(a + b)
    decreases |a|
  {
    if a == [] {
      assert a + b == b;
    } else if a[0] == '\\' {
      assert (a + b)[2..] == a[2..] + b;
      BarePipeFreeConcat(a[2..], b);
    } else {
      assert (a + b)[1..] == a[1..] + b;
      BarePipeFreeConcat(a[1..], b);
    }
  }

  /** Text with neither a pipe nor a backslash: the header fields and extension keys. */
  predicate Plain(s: string)
  {
    '|' !in s && '\\' !in s
  }

  lemma {:induction false} PlainBarePipeFree(s: string)
    requires Plain(s)
    ensures BarePipeFree(s)
    decreases |s|
  {
    if s != [] {
      assert s[0] in s;
      assert Plain(s[1..]) by {
        assert forall c :: c in s[1..] ==> c in s;
      }
      PlainBarePipeFree(s[1..]);
    }
  }

  lemma PlainConcat(a: string, b: string)
    requires Plain(a) && Plain(b)
    ensures Plain(a + b)
  {
  }

  lemma DigitsArePlain(s: string)
    requires AllDigits(s)
    ensures Plain(s)
  {
    assert forall i :: 0 <= i < |s| ==> IsDigit(s[i]);
  }

  /** str() of an integer is plain. */
  lemma IntStrPlain(i: int)
    ensures Plain(IntStr(i))
  {
    if i < 0 {
      DigitsArePlain(NatStr(-i));
      PlainConcat("-", NatStr(-i));
    } else {
      DigitsArePlain(NatStr(i));
    }
  }

  // ---------------------------------------------------------------------
  // Splitting on unescaped pipes
  // ---------------------------------------------------------------------

  /** Puts a prefix in front of the first segment. */
  function Prepend(p: string, parts: seq<string>): (r: seq<string>)
    requires |parts| >= 1
    ensures |r| == |parts| && r[0] == p + parts[0] && r[1..] == parts[1..]
  {
    [p + parts[0]] + parts[1..]
  }

  /**
    The segments of a CEF line: split at each pipe that is not escaped; an
    escape pair stays in its segment as written.
  */
  function SplitBare(s: string): (parts: seq<string>)
    ensures |parts| >= 1
    decreases |s|
  {
    if s == [] then [""]
    else if s[0] == '|' then [""] + SplitBare(s[1..])
    else if s[0] == '\\' && |s| >= 2 then Prepend(s[..2], SplitBare(s[2..]))
    else Prepend([s[0]], SplitBare(s[1..]))
  }

  /** A segment free of bare pipes splits off whole before a separator. */
  lemma {:induction false} SplitBareSegment(a: string, b: string)
    requires BarePipeFree(a)
    ensures SplitBare(a + "|" + b) == [a] + SplitBare(b)
    decreases |a|
  {
    var s := a + "|" + b;
    if a == [] {
      assert s == "|" + b && s[1..] == b;
    } else if a[0] == '\\' {
      assert s[..2] == a[..2] && s[2..] == a[2..] + "|" + b;
      SplitBareSegment(a[2..], b);
      assert a[..2] + a[2..] == a;
    } else {
      assert s[1..] == a[1..] + "|" + b;
      SplitBareSegment(a[1..], b);
      assert [a[0]] + a[1..] == a;
    }
  }

  /** A string free of bare pipes is a single segment. */
  lemma {:induction false} SplitBareWhole(a: string)
    requires BarePipeFree(a)
    ensures SplitBare(a) == [a]
    decreases |a|
  {
    if a == [] {
    } else if a[0] == '\\' {
      SplitBareWhole(a[2..]);
      assert a[..2] + a[2..] == a;
    } else {
      SplitBareWhole(a[1..]);
      assert [a[0]] + a[1..] == a;
    }
  }

  /** Joining segments free of bare pipes with '|' and splitting again gives them back. */
  lemma {:induction false} SplitBareJoin(parts: seq<string>)
    requires |parts| >= 1
    requires forall i :: 0 <= i < |parts| ==> BarePipeFree(parts[i])
    ensures SplitBare(Join("|", parts)) == parts
  {
    if |parts| == 1 {
      SplitBareWhole(parts[0]);
    } else {
      SplitBareSegment(parts[0], Join("|", parts[1..]));
      SplitBareJoin(parts[1..]);
      assert [parts[0]] + parts[1..] == parts;
    }
  }

  // ---------------------------------------------------------------------
  // Extensions and the line
  // ---------------------------------------------------------------------

  /** f"{key}={escaped_value}" */
  function ExtPart(key: string, value: string): string
  {
    key + "=" + Escape(value)
  }

  /** The ext_parts list: one part per extension, in insertion order. */
  function ExtParts(extensions: seq<(string, string)>): (parts: seq<string>)
    ensures |parts| == |extensions|
    ensures forall i :: 0 <= i < |parts| ==> parts[i] == ExtPart(extensions[i].0, extensions[i].1)
  {
    if extensions == [] then []
    else ExtParts(extensions[..|extensions| - 1]) + [ExtPart(extensions[|extensions| - 1].0, extensions[|extensions| - 1].1)]
  }

  /** The extension keys, in insertion order. */
  function Keys(extensions: seq<(string, string)>): (ks: seq<string>)
    ensures |ks| == |extensions| && forall i :: 0 <= i < |ks| ==> ks[i] == extensions[i].0
  {
    seq(|extensions|, i requires 0 <= i < |extensions| => extensions[i].0)
  }

  /** Extensions listed as their keys beside their values. */
  function Pairs(keys: seq<string>, values: seq<string>): (r: seq<(string, string)>)
    requires |keys| == |values|
    ensures |r| == |keys| && forall i :: 0 <= i < |r| ==> r[i] == (keys[i], values[i])
  {
    seq(|keys|, i requires 0 <= i < |keys| => (keys[i], values[i]))
  }

  lemma KeysOfPairs(keys: seq<string>, values: seq<string>)
    requires |keys| == |values|
    ensures Keys(Pairs(keys, values)) == keys
  {
  }

  lemma KeysConcat(a: seq<(string, string)>, b: seq<(string, string)>)
    ensures Keys(a + b) == Keys(a) + Keys(b)
  {
  }

  predicate PlainKeys(extensions: seq<(string, string)>)
  {
    forall k :: k in Keys(extensions) ==> Plain(k)
  }

  /** The eight header segments and the extension string, pipe-joined. */
  function CefLine(vendor: string, product: string, version: string, classId: string, name: string,
                   severity: int, extensions: seq<(string, string)>): string
  {
    Join("|", ["CEF:0", vendor, product, version, classId, name, IntStr(severity), Join(" ", ExtParts(extensions))])
  }

  lemma {:induction false} JoinBarePipeFree(parts: seq<string>)
    requires forall i :: 0 <= i < |parts| ==> BarePipeFree(parts[i])
    ensures BarePipeFree(Join(" ", parts))
  {
    if |parts| >= 2 {
      JoinBarePipeFree(parts[1..]);
      assert BarePipeFree(" ");
      BarePipeFreeConcat(" ", Join(" ", parts[1..]));
      BarePipeFreeConcat(parts[0], " " + Join(" ", parts[1..]));
      assert parts[0] + " " + Join(" ", parts[1..]) == parts[0] + (" " + Join(" ", parts[1..]));
    }
  }

  /** With plain keys the extension string has no bare pipe. */
  lemma ExtensionsBarePipeFree(extensions: seq<(string, string)>)
    requires PlainKeys(extensions)
    ensures BarePipeFree(Join(" ", ExtParts(extensions)))
  {
    var parts := ExtParts(extensions);
    forall i | 0 <= i < |parts| ensures BarePipeFree(parts[i]) {
      var key := extensions[i].0;
      assert key == Keys(extensions)[i];
      PlainConcat(key, "=");
      PlainBarePipeFree(key + "=");
      EscapeBarePipeFree(extensions[i].1);
      BarePipeFreeConcat(key + "=", Escape(extensions[i].1));
    }
    JoinBarePipeFree(parts);
  }

  /**
    With plain header fields and keys, splitting a line on unescaped pipes gives
    exactly its eight segments back: the header fields in order, then the
    extension string.
  */
  lemma CefLineSegments(vendor: string, product: string, version: string, classId: string, name: string,
                        severity: int, extensions: seq<(string, string)>)
    requires Plain(vendor) && Plain(product) && Plain(version) && Plain(classId) && Plain(name)
    requires PlainKeys(extensions)
    ensures SplitBare(CefLine(vendor, product, version, classId, name, severity, extensions)) ==
      ["CEF:0", vendor, product, version, classId, name, IntStr(severity), Join(" ", ExtParts(extensions))]
  {
    var parts := ["CEF:0", vendor, product, version, classId, name, IntStr(severity), Join(" ", ExtParts(extensions))];
    IntStrPlain(severity);
    assert Plain("CEF:0");
    forall i | 0 <= i < 7 ensures BarePipeFree(parts[i]) {
      PlainBarePipeFree(parts[i]);
    }
    ExtensionsBarePipeFree(extensions);
    SplitBareJoin(parts);
  }

  /** The line splits into eight segments: the version tag first and the class id fifth. */
  lemma CefLineShape(vendor: string, product: string, version: string, classId: string, name: string,
                     severity: int, extensions: seq<(string, string)>)
    requires Plain(vendor) && Plain(product) && Plain(version) && Plain(classId) && Plain(name)
    requires PlainKeys(extensions)
    ensures |SplitBare(CefLine(vendor, product, version, classId, name, severity, extensions))| == 8
    ensures SplitBare(CefLine(vendor, product, version, classId, name, severity, extensions))[0] == "CEF:0"
    ensures SplitBare(CefLine(vendor, product, version, classId, name, severity, extensions))[4] == classId
  {
    CefLineSegments(vendor, product, version, classId, name, severity, extensions);
  }
}
