/**
  Python's ordering of str values (lexicographic by code point, a proper prefix
  first) and list.sort(reverse=True) on a list of strings, done in place on an
  array. Equal strings are identical, so the stability of Python's sort does not
  show in the result: the result is the one non-increasing rearrangement of the
  input.
*/
module Sorting {

  /** a <= b on Python strings. */
  predicate LexLe(a: string, b: string)
    decreases |a|
  {
    |a| == 0 || (|b| > 0 && (a[0] < b[0] || (a[0] == b[0] && LexLe(a[1..], b[1..]))))
  }

  lemma {:induction false} LexLeReflexive(a: string)
    ensures LexLe(a, a)
    decreases |a|
  {
    if |a| > 0 {
      LexLeReflexive(a[1..]);
    }
  }

  lemma {:induction false} LexLeTotal(a: string, b: string)
    ensures LexLe(a, b) || LexLe(b, a)
    decreases |a|
  {
    if |a| > 0 && |b| > 0 && a[0] == b[0] {
      LexLeTotal(a[1..], b[1..]);
    }
  }

  lemma {:induction false} LexLeAntisymmetric(a: string, b: string)
    requires LexLe(a, b) && LexLe(b, a)
    ensures a == b
    decreases |a|
  {
    if |a| > 0 {
      LexLeAntisymmetric(a[1..], b[1..]);
      assert a == [a[0]] + a[1..] && b == [b[0]] + b[1..];
    }
  }

  lemma {:induction false} LexLeTransitive(a: string, b: string, c: string)
    requires LexLe(a, b) && LexLe(b, c)
    ensures LexLe(a, c)
    decreases |a|
  {
    if |a| > 0 && a[0] == b[0] && b[0] == c[0] {
      LexLeTransitive(a[1..], b[1..], c[1..]);
    }
  }

  /** Strings that agree on their first k characters compare as those prefixes do when they differ there. */
  lemma {:induction false} LexLePrefix(a: string, b: string, k: nat)
    requires k <= |a| && k <= |b| && LexLe(a, b)
    ensures LexLe(a[..k], b[..k])
    decreases k
  {
    if k > 0 && a[0] == b[0] {
      LexLePrefix(a[1..], b[1..], k - 1);
      assert a[..k][1..] == a[1..][..k - 1];
      assert b[..k][1..] == b[1..][..k - 1];
    }
  }

  /** Every later entry is <= every earlier one: the order of sort(reverse=True). */
  predicate Descending(s: seq<string>)
  {
    forall i, j :: 0 <= i < j < |s| ==> LexLe(s[j], s[i])
  }

  // ---------------------------------------------------------------------
  // The reference definition: insertion into a non-increasing sequence
  // ---------------------------------------------------------------------

  /** x placed before the first entry that is <= x and not >= x. */
  function Insert(x: string, s: seq<string>): (r: seq<string>)
    ensures multiset(r) == multiset(s) + multiset{x}
    ensures |r| == |s| + 1
  {
    if s == [] || LexLe(s[0], x) then [x] + s
    else
      assert s == [s[0]] + s[1..];
      [s[0]] + Insert(x, s[1..])
  }

  lemma {:induction false} InsertDescending(x: string, s: seq<string>)
    requires Descending(s)
    ensures Descending(Insert(x, s))
    decreases |s|
  {
    if s == [] || LexLe(s[0], x) {
      forall j | 0 < j < |s| + 1 ensures LexLe(([x] + s)[j], x) {
        if j > 1 {
          LexLeTransitive(s[j - 1], s[0], x);
        }
      }
    } else {
      var t := s[1..];
      assert Descending(t);
      InsertDescending(x, t);
      var r := Insert(x, t);
      LexLeTotal(s[0], x);
      forall j | 0 <= j < |r| ensures LexLe(r[j], s[0]) {
        assert r[j] in multiset(r);
        assert r[j] in multiset(t) + multiset{x};
        if r[j] != x {
          var k :| 0 <= k < |t| && t[k] == r[j];
          assert s[k + 1] == r[j];
        }
      }
    }
  }

  /** The list sort(reverse=True) leaves behind. */
  function SortedDesc(s: seq<string>): (r: seq<string>)
    ensures multiset(r) == multiset(s)
    ensures |r| == |s|
  {
    if s == [] then []
    else
      assert s == [s[0]] + s[1..];
      Insert(s[0], SortedDesc(s[1..]))
  }

  lemma {:induction false} SortedDescIsDescending(s: seq<string>)
    ensures Descending(SortedDesc(s))
  {
    if s != [] {
      SortedDescIsDescending(s[1..]);
      InsertDescending(s[0], SortedDesc(s[1..]));
    }
  }

  /** Two non-increasing arrangements of the same strings are the same sequence. */
  lemma {:induction false} DescendingUnique(x: seq<string>, y: seq<string>)
    requires Descending(x) && Descending(y) && multiset(x) == multiset(y)
    ensures x == y
    decreases |x|
  {
    assert |x| == |multiset(x)| == |y|;
    if |x| > 0 {
      assert x[0] in multiset(y);
      var i :| 0 <= i < |y| && y[i] == x[0];
      assert y[0] in multiset(x);
      var j :| 0 <= j < |x| && x[j] == y[0];
      if i > 0 {
        assert LexLe(x[0], y[0]);
      } else {
        LexLeReflexive(x[0]);
      }
      if j > 0 {
        assert LexLe(y[0], x[0]);
      } else {
        LexLeReflexive(y[0]);
      }
      LexLeAntisymmetric(x[0], y[0]);
      SameTails(x, y);
      assert Descending(x[1..]) by {
        forall p, q | 0 <= p < q < |x| - 1 ensures LexLe(x[1..][q], x[1..][p]) {
          assert x[1..][q] == x[q + 1] && x[1..][p] == x[p + 1];
        }
      }
      assert Descending(y[1..]) by {
        forall p, q | 0 <= p < q < |y| - 1 ensures LexLe(y[1..][q], y[1..][p]) {
          assert y[1..][q] == y[q + 1] && y[1..][p] == y[p + 1];
        }
      }
      DescendingUnique(x[1..], y[1..]);
    }
  }

  lemma SameTails(x: seq<string>, y: seq<string>)
    requires |x| > 0 && |y| > 0 && x[0] == y[0] && multiset(x) == multiset(y)
    ensures multiset(x[1..]) == multiset(y[1..])
  {
    assert x == [x[0]] + x[1..] && y == [y[0]] + y[1..];
    assert multiset(x[1..]) == multiset(x) - multiset{x[0]};
    assert multiset(y[1..]) == multiset(y) - multiset{y[0]};
  }

  /** Sorting an already sorted list in reverse changes nothing. */
  lemma ResortUnchanged(s: seq<string>)
    requires Descending(s)
    ensures SortedDesc(s) == s
  {
    SortedDescIsDescending(s);
    DescendingUnique(SortedDesc(s), s);
  }

  // ---------------------------------------------------------------------
  // The in-place sort
  // ---------------------------------------------------------------------

  method Swap(a: array<string>, i: int, j: int)
    requires 0 <= i < j < a.Length
    modifies a
    ensures a[..] == old(a[..])[i := old(a[j])][j := old(a[i])]
    ensures multiset(a[..]) == old(multiset(a[..]))
  {
    a[i], a[j] := a[j], a[i];
  }

  /** logs.sort(reverse=True): insertion sort, each new entry moved left past the smaller ones. */
  method SortDescending(a: array<string>)
    modifies a
    ensures a[..] == SortedDesc(old(a[..]))
  {
    for i := 0 to a.Length
      invariant multiset(a[..]) == multiset(old(a[..]))
      invariant Descending(a[..i])
    {
      var j := i;
      while j > 0 && !LexLe(a[j], a[j - 1])
        invariant 0 <= j <= i
        invariant multiset(a[..]) == multiset(old(a[..]))
        invariant forall p, q :: 0 <= p < q <= i && p != j && q != j ==> LexLe(a[q], a[p])
        invariant forall q :: j < q <= i ==> LexLe(a[q], a[j])
      {
        LexLeTotal(a[j], a[j - 1]);
        Swap(a, j - 1, j);
        j := j - 1;
      }
      InsertionStep(a[..], i, j);
    }
    SortedDescIsDescending(old(a[..]));
    assert a[..a.Length] == a[..];
    DescendingUnique(a[..], SortedDesc(old(a[..])));
  }

  /** Where the moved entry stops, the prefix up to i is non-increasing. */
  lemma InsertionStep(s: seq<string>, i: nat, j: nat)
    requires j <= i < |s|
    requires forall p, q :: 0 <= p < q <= i && p != j && q != j ==> LexLe(s[q], s[p])
    requires forall q :: j < q <= i ==> LexLe(s[q], s[j])
    requires j == 0 || LexLe(s[j], s[j - 1])
    ensures Descending(s[..i + 1])
  {
    forall p, q | 0 <= p < q <= i ensures LexLe(s[q], s[p]) {
      if q == j && p < j - 1 {
        LexLeTransitive(s[j], s[j - 1], s[p]);
      }
    }
  }
}
