/**
  The input validators behind the command line (a log count and a seed typed as
  text) and the naming of output files.
*/
module Helpers {
  import opened Common
  import opened Text
  import Base

  /** validate_count: int(count) when it lies in [1, max_count], otherwise the default. */
  function ValidateCount(count: string, default: int, maxCount: int): (r: int)
    ensures r == default || (ParseInt(count) == Some(r) && 1 <= r <= maxCount)
    ensures ParseInt(count).Some? && 1 <= ParseInt(count).value <= maxCount ==> r == ParseInt(count).value
  {
    match ParseInt(count)
    case None => default
    case Some(num) =>
      if num <= 0 then default
      else if num > maxCount then default
      else num
  }

  /** A count written out in decimal and within bounds is read back as itself. */
  lemma ValidCountAccepted(n: int, default: int, maxCount: int)
    requires 1 <= n <= maxCount
    ensures ValidateCount(IntStr(n), default, maxCount) == n
  {
    ParseIntRoundTrip(n);
  }

  /** A count of zero or less, or above the maximum, gives the default. */
  lemma OutOfRangeCountRejected(n: int, default: int, maxCount: int)
    requires n <= 0 || n > maxCount
    ensures ValidateCount(IntStr(n), default, maxCount) == default
  {
    ParseIntRoundTrip(n);
  }

  /** Text that int() cannot parse gives the default. */
  lemma UnparsableCountRejected(count: string, default: int, maxCount: int)
    requires ParseInt(count).None?
    ensures ValidateCount(count, default, maxCount) == default
  {
  }

  /** The words that ask for an unseeded run, compared in lower case. */
  const RandomWords: seq<string> := ["none", "null", "random"]

  /** validate_seed: no seed for missing or empty text or one of the words; otherwise int(seed) if it parses. */
  function ValidateSeed(seed: Option<string>): (r: Option<int>)
    ensures seed.None? || seed.value == "" || Lower(seed.value) in RandomWords ==> r.None?
    ensures seed.Some? && seed.value != "" && Lower(seed.value) !in RandomWords ==> r == ParseInt(seed.value)
  {
    if seed.None? || seed.value == "" || Lower(seed.value) in RandomWords then None
    else ParseInt(seed.value)
  }

  /** A seed written out in decimal is read back as itself. */
  lemma SeedRoundTrip(i: int)
    ensures ValidateSeed(Some(IntStr(i))) == Some(i)
  {
    ParseIntRoundTrip(i);
    var s := IntStr(i);
    assert s[0] == '-' || IsDigit(s[0]);
    NotRandomWord(s);
  }

  /** Text starting with a sign or a digit is none of the words. */
  lemma NotRandomWord(s: string)
    requires |s| > 0 && (s[0] == '-' || IsDigit(s[0]))
    ensures Lower(s) !in RandomWords
  {
    var l := Lower(s);
    assert l[0] == LowerChar(s[0]) == s[0];
    assert RandomWords[0][0] == 'n' && RandomWords[1][0] == 'n' && RandomWords[2][0] == 'r';
    assert l != RandomWords[0] && l != RandomWords[1] && l != RandomWords[2];
  }

  /**
    The seed 0 is accepted here and handed on, but the generators then leave the
    random stream unseeded, as they do for no seed at all.
  */
  lemma ZeroSeedUnseeded()
    ensures ValidateSeed(Some("0")) == Some(0)
    ensures !Base.Truthy(ValidateSeed(Some("0"))) && !Base.Truthy(ValidateSeed(None))
  {
    var z := "0";
    assert z[0] == '0' && |z| == 1;
    NotRandomWord(z);
    ParseIntDigits(z);
    assert DigitsValue(z) == 0 by {
      assert z[..0] == [];
    }
  }

  /** os.path.join(a, b) on POSIX: b alone when it is absolute, else joined with one slash. */
  function PathJoin(a: string, b: string): (r: string)
    ensures EndsWith(r, b)
  {
    if |b| > 0 && b[0] == '/' then b
    else if a == [] || a[|a| - 1] == '/' then a + b
    else a + "/" + b
  }

  /** The file name get_output_filename builds, ts being the clock's "%Y%m%d_%H%M%S". */
  function OutputName(logType: string, timestamp: bool, extension: string, ts: string): string
  {
    if timestamp then logType + "_" + ts + extension else logType + extension
  }

  /** get_output_filename: the file name placed under the output directory. */
  function OutputFilename(logType: string, outputDir: string, timestamp: bool, extension: string, ts: string): (path: string)
    ensures EndsWith(path, OutputName(logType, timestamp, extension, ts))
    ensures EndsWith(path, extension)
  {
    var name := OutputName(logType, timestamp, extension, ts);
    EndsWithAfter(if timestamp then logType + "_" + ts else logType, extension, extension);
    PathJoinEndsWith(outputDir, name, extension);
    PathJoin(outputDir, name)
  }

  lemma PathJoinEndsWith(a: string, b: string, suffix: string)
    requires EndsWith(b, suffix)
    ensures EndsWith(PathJoin(a, b), suffix)
  {
    if |b| > 0 && b[0] == '/' {
    } else if a == [] || a[|a| - 1] == '/' {
      EndsWithAfter(a, b, suffix);
    } else {
      EndsWithAfter(a + "/", b, suffix);
    }
  }

  /**
    With no slash in the type, stamp or extension, the path is the directory, a
    slash when it lacks one, and the name; its last component is the name.
  */
  lemma OutputFilenameShape(logType: string, outputDir: string, timestamp: bool, extension: string, ts: string)
    requires !HasChar(logType, '/') && !HasChar(extension, '/') && !HasChar(ts, '/')
    ensures var name := OutputName(logType, timestamp, extension, ts);
      var path := OutputFilename(logType, outputDir, timestamp, extension, ts);
      StartsWith(path, outputDir) &&
      (path == outputDir + name || path == outputDir + "/" + name) &&
      LastPart(path, '/') == name
  {
    var name := OutputName(logType, timestamp, extension, ts);
    assert !HasChar(name, '/');
    var path := OutputFilename(logType, outputDir, timestamp, extension, ts);
    if outputDir == [] || outputDir[|outputDir| - 1] == '/' {
      assert path == outputDir + name;
      LastPartAfterSlash(outputDir, name);
    } else {
      assert path == outputDir + "/" + name;
      LastPartAfterSlash(outputDir + "/", name);
    }
  }

  /** Text ending in a slash, then a slash-free name: the last component is the name. */
  lemma LastPartAfterSlash(dir: string, name: string)
    requires dir == [] || dir[|dir| - 1] == '/'
    requires !HasChar(name, '/')
    ensures LastPart(dir + name, '/') == name
  {
    if dir == [] {
      assert dir + name == name;
      SplitFree(name, '/');
    } else {
      var d := dir[..|dir| - 1];
      assert dir + name == d + ['/'] + name;
      SplitFree(name, '/');
      SplitSuffix(d, name, '/');
    }
  }

  /** Whatever comes before the last separator, the parts after it end the split. */
  lemma {:induction false} SplitSuffix(x: string, b: string, c: char)
    ensures |Split(x + [c] + b, c)| > |Split(b, c)|
    ensures Split(x + [c] + b, c)[|Split(x + [c] + b, c)| - |Split(b, c)|..] == Split(b, c)
    decreases |x|, 1
  {
    if x == [] {
      var s := x + [c] + b;
      assert s == [c] + b && s[1..] == b;
      SplitStep(s, c);
      assert Split(s, c)[1..] == Split(b, c);
    } else {
      SplitSuffixStep(x, b, c);
    }
  }

  /** The step of SplitSuffix: the first character of x adds a part or joins the first one. */
  lemma {:induction false} SplitSuffixStep(x: string, b: string, c: char)
    requires x != []
    ensures |Split(x + [c] + b, c)| > |Split(b, c)|
    ensures Split(x + [c] + b, c)[|Split(x + [c] + b, c)| - |Split(b, c)|..] == Split(b, c)
    decreases |x|, 0
  {
    var s := x + [c] + b;
    var q := Split(b, c);
    assert s[0] == x[0] && s[1..] == x[1..] + [c] + b;
    SplitSuffix(x[1..], b, c);
    var rest := Split(s[1..], c);
    SplitStep(s, c);
    var p := Split(s, c);
    SameSuffix(p, rest, |q|);
  }

  /** One step of the split: a leading separator opens an empty part, any other character joins the first part. */
  lemma SplitStep(s: string, c: char)
    requires |s| > 0
    ensures s[0] == c ==> Split(s, c) == [""] + Split(s[1..], c)
    ensures s[0] != c ==> Split(s, c) == [[s[0]] + Split(s[1..], c)[0]] + Split(s[1..], c)[1..]
  {
  }

  lemma SameSuffix(p: seq<string>, r: seq<string>, n: nat)
    requires n < |r| && |p| > 0
    requires (|p| == |r| + 1 && p[1..] == r) || (|p| == |r| && p[1..] == r[1..])
    ensures p[|p| - n..] == r[|r| - n..]
  {
    if |p| == |r| + 1 {
      assert p[|p| - n..] == p[1..][|r| - n..];
    } else {
      assert p[|p| - n..] == p[1..][|r| - 1 - n..];
      assert r[|r| - n..] == r[1..][|r| - 1 - n..];
    }
  }
}
