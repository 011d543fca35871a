/**
  Python's process-wide `random` stream, as the generators use it.

  The stream is an oracle: `source(i)` is the i-th raw draw, `cursor` counts the
  draws consumed so far, and `seeding(s)` is the stream that random.seed(s)
  selects. Every primitive consumes exactly one draw, except sample(), which
  consumes one per element picked, and choices(), which consumes none when it
  raises. The primitives reduce a draw the way CPython does: randbelow(n) is a
  draw modulo n, randint(a, b) is a + randbelow(b - a + 1), choice(xs) is
  xs[randbelow(len(xs))], and random() is a multiple of 2^-53 in [0, 1).
*/
module Random {
  import opened Common

  /** random() returns k / 2^53 for some k < 2^53. */
  const Pow53: nat := 0x20_0000_0000_0000

  function Abs(i: int): nat
  {
    if i < 0 then -i else i
  }

  /** The value random() returns for the raw draw d. */
  function UnitOf(d: nat): (u: real)
    ensures 0.0 <= u < 1.0
  {
    var k := d % Pow53;
    assert (k as real) < (Pow53 as real);
    (k as real) / (Pow53 as real)
  }

  /** A raw draw reduced below n (CPython's randbelow, one draw per call). */
  function Reduce(d: nat, n: nat): (x: nat)
    requires n > 0
    ensures x < n
  {
    d % n
  }

  /** The next m raw draws of `source` from position `cursor` on. */
  function Upcoming(source: nat -> nat, cursor: nat, m: nat): (ds: seq<nat>)
    ensures |ds| == m
    decreases m
  {
    if m == 0 then [] else [source(cursor)] + Upcoming(source, cursor + 1, m - 1)
  }

  // ---------------------------------------------------------------------
  // random.choices(population, weights, k=1)
  // ---------------------------------------------------------------------

  function Sum(ws: seq<real>): real
  {
    if ws == [] then 0.0 else ws[0] + Sum(ws[1..])
  }

  predicate NonNegative(ws: seq<real>)
  {
    forall i :: 0 <= i < |ws| ==> ws[i] >= 0.0
  }

  predicate Nondecreasing(a: seq<real>)
  {
    forall i, j :: 0 <= i <= j < |a| ==> a[i] <= a[j]
  }

  lemma {:induction false} SumSnoc(ws: seq<real>, w: real)
    ensures Sum(ws + [w]) == Sum(ws) + w
  {
    if ws == [] {
      assert ws + [w] == [w];
      assert [w][1..] == [];
    } else {
      assert (ws + [w])[1..] == ws[1..] + [w];
      SumSnoc(ws[1..], w);
    }
  }

  lemma SumPrefixStep(ws: seq<real>, i: nat)
    requires i < |ws|
    ensures Sum(ws[..i + 1]) == Sum(ws[..i]) + ws[i]
  {
    assert ws[..i + 1] == ws[..i] + [ws[i]];
    SumSnoc(ws[..i], ws[i]);
  }

  /** The running totals itertools.accumulate yields, starting from `acc`. */
  function AccumulateFrom(acc: real, ws: seq<real>): (cum: seq<real>)
    ensures |cum| == |ws|
    ensures forall i :: 0 <= i < |ws| ==> cum[i] == acc + Sum(ws[..i + 1])
    decreases |ws|
  {
    if ws == [] then []
    else
      var rest := AccumulateFrom(acc + ws[0], ws[1..]);
      assert forall i :: 0 < i < |ws| ==> ws[..i + 1][1..] == ws[1..][..i];
      [acc + ws[0]] + rest
  }

  /** list(itertools.accumulate(ws)): entry i is the total of the first i + 1 weights. */
  function Accumulate(ws: seq<real>): (cum: seq<real>)
    ensures |cum| == |ws|
    ensures forall i :: 0 <= i < |ws| ==> cum[i] == Sum(ws[..i + 1])
  {
    AccumulateFrom(0.0, ws)
  }

  /** Non-negative weights have non-decreasing running totals. */
  lemma AccumulateNondecreasing(ws: seq<real>)
    requires NonNegative(ws)
    ensures Nondecreasing(Accumulate(ws))
  {
    var cum := Accumulate(ws);
    forall i, j | 0 <= i <= j < |cum| ensures cum[i] <= cum[j] {
      var k := i;
      while k < j
        invariant i <= k <= j
        invariant cum[i] <= cum[k]
      {
        SumPrefixStep(ws, k + 1);
        k := k + 1;
      }
    }
  }

  /** random() * total, kept behind a name so that the solver sees one product term. */
  function Scale(u: real, t: real): real
  {
    u * t
  }

  /** Scaling by a factor in [0, 1) stays below a positive bound. */
  lemma ScaleBelow(t: real, u: real)
    requires t > 0.0 && 0.0 <= u < 1.0
    ensures 0.0 <= Scale(u, t) < t
  {
  }

  /** Scaling by a factor in [0, 1] stays within [0, d]. */
  lemma ScaleWithin(d: real, u: real)
    requires d >= 0.0 && 0.0 <= u <= 1.0
    ensures 0.0 <= d * u <= d
  {
  }

  /**
    bisect.bisect_right(a, x, lo, hi): on a sorted range, the position after the
    last entry <= x.
  */
  function BisectRight(a: seq<real>, x: real, lo: nat, hi: nat): (i: nat)
    requires lo <= hi <= |a|
    ensures lo <= i <= hi
    ensures Nondecreasing(a) ==> forall j :: lo <= j < i ==> a[j] <= x
    ensures Nondecreasing(a) ==> forall j :: i <= j < hi ==> x < a[j]
    decreases hi - lo
  {
    if lo == hi then lo
    else
      var mid := (lo + hi) / 2;
      if x < a[mid] then BisectRight(a, x, lo, mid) else BisectRight(a, x, mid + 1, hi)
  }

  /**
    The index random.choices(population, ws, k=1) picks when random() returns u.
    None where CPython raises: IndexError for no weights, ValueError for a total
    that is not positive.
  */
  function ChoicesIndex(ws: seq<real>, u: real): (r: Option<nat>)
    requires 0.0 <= u < 1.0
    ensures r.None? <==> (|ws| == 0 || Sum(ws) <= 0.0)
    ensures r.Some? ==> r.value < |ws|
  {
    // the total is the last running total, which is the sum of all weights
    if |ws| == 0 || Sum(ws) <= 0.0 then None
    else Some(BisectRight(Accumulate(ws), Scale(u, Sum(ws)), 0, |ws| - 1))
  }

  /**
    bisect_right over the running totals finds the entry whose share of [0, total)
    holds x; that entry's weight is therefore positive.
  */
  lemma BisectAccumulate(ws: seq<real>, x: real)
    requires NonNegative(ws) && |ws| > 0 && 0.0 <= x < Sum(ws)
    ensures var i := BisectRight(Accumulate(ws), x, 0, |ws| - 1);
      Sum(ws[..i]) <= x < Sum(ws[..i + 1]) && ws[i] > 0.0
  {
    var n := |ws|;
    var cum := Accumulate(ws);
    var i := BisectRight(cum, x, 0, n - 1);
    assert ws[..n] == ws;
    assert cum[n - 1] == Sum(ws);
    AccumulateNondecreasing(ws);
    if i > 0 {
      assert cum[i - 1] <= x;
      assert cum[i - 1] == Sum(ws[..i]);
    } else {
      assert ws[..0] == [];
    }
    if i < n - 1 {
      assert x < cum[i];
    } else {
      assert x < cum[n - 1];
    }
    assert cum[i] == Sum(ws[..i + 1]);
    SumPrefixStep(ws, i);
  }

  /** The point choices() looks up lies in [0, total). */
  lemma ChoicesPoint(ws: seq<real>, u: real)
    requires 0.0 <= u < 1.0 && Sum(ws) > 0.0
    ensures 0.0 <= Scale(u, Sum(ws)) < Sum(ws)
  {
    ScaleBelow(Sum(ws), u);
  }

  /**
    The selection rule of choices(): with non-negative weights, index i is picked
    exactly when u * total falls in [weight of entries before i, that plus ws[i]).
    So the picked weight is positive: a zero-weight entry is never picked.
  */
  lemma ChoicesIndexSelects(ws: seq<real>, u: real)
    requires 0.0 <= u < 1.0
    requires NonNegative(ws) && |ws| > 0 && Sum(ws) > 0.0
    ensures ChoicesIndex(ws, u).Some?
    ensures var i := ChoicesIndex(ws, u).value;
      Sum(ws[..i]) <= Scale(u, Sum(ws)) < Sum(ws[..i + 1]) && ws[i] > 0.0
  {
    ChoicesPoint(ws, u);
    BisectAccumulate(ws, Scale(u, Sum(ws)));
  }

  // ---------------------------------------------------------------------
  // random.sample(population, k), the pool branch
  // ---------------------------------------------------------------------

  /** One pool step of sample(): the entry at j is taken and the last live entry moves into its slot. */
  function TakeFrom<T>(pool: seq<T>, j: nat): (rest: seq<T>)
    requires j < |pool|
    ensures |rest| == |pool| - 1
  {
    pool[j := pool[|pool| - 1]][..|pool| - 1]
  }

  /** A pool step removes exactly the taken entry. */
  lemma TakeFromMultiset<T>(pool: seq<T>, j: nat)
    requires j < |pool|
    ensures multiset(TakeFrom(pool, j)) + multiset{pool[j]} == multiset(pool)
  {
    var n := |pool|;
    assert pool == pool[..n - 1] + [pool[n - 1]];
    if j < n - 1 {
      assert TakeFrom(pool, j) == pool[..n - 1][j := pool[n - 1]];
    } else {
      assert TakeFrom(pool, j) == pool[..n - 1];
    }
  }

  /** Taking from the live prefix of a pool that keeps its full length, as CPython's loop does. */
  lemma TakeFromPrefix<T>(pool: seq<T>, m: nat, j: nat)
    requires j < m <= |pool|
    ensures pool[j := pool[m - 1]][..m - 1] == TakeFrom(pool[..m], j)
  {
  }

  /** The elements sample() picks from `pool`, one per raw draw in ds. */
  function PoolSample<T>(pool: seq<T>, ds: seq<nat>): (r: seq<T>)
    requires |ds| <= |pool|
    ensures |r| == |ds|
    decreases |ds|
  {
    if ds == [] then []
    else
      var j := Reduce(ds[0], |pool|);
      [pool[j]] + PoolSample(TakeFrom(pool, j), ds[1..])
  }

  lemma PoolSampleStep<T>(pool: seq<T>, ds: seq<nat>)
    requires 0 < |ds| <= |pool|
    ensures var j := Reduce(ds[0], |pool|);
      PoolSample(pool, ds) == [pool[j]] + PoolSample(TakeFrom(pool, j), ds[1..])
  {
  }

  /**
    sample()'s loop state as CPython keeps it: the pool keeps its full length and
    only its first `live` slots are still to be picked from; `acc` is what has
    been picked so far.
  */
  function PoolLoop<T>(pool: seq<T>, live: nat, ds: seq<nat>, acc: seq<T>): seq<T>
    requires |ds| <= live <= |pool|
    decreases |ds|
  {
    if ds == [] then acc
    else
      var j := Reduce(ds[0], live);
      PoolLoop(pool[j := pool[live - 1]], live - 1, ds[1..], acc + [pool[j]])
  }

  /** The next draw comes first; the ones after it follow. */
  lemma UpcomingFirst(source: nat -> nat, at: nat, m: nat)
    requires 0 < m
    ensures Upcoming(source, at, m)[0] == source(at)
    ensures Upcoming(source, at, m)[1..] == Upcoming(source, at + 1, m - 1)
  {
  }

  /** One pass of the pool loop consumes the next draw. */
  lemma PoolLoopOnce<T>(pool: seq<T>, live: nat, ds: seq<nat>, acc: seq<T>)
    requires 0 < |ds| <= live <= |pool|
    ensures var j := Reduce(ds[0], live);
      PoolLoop(pool, live, ds, acc) == PoolLoop(pool[j := pool[live - 1]], live - 1, ds[1..], acc + [pool[j]])
  {
  }

  /** Running the loop to the end appends the sample of the live prefix. */
  lemma {:induction false} PoolLoopSample<T>(pool: seq<T>, live: nat, ds: seq<nat>, acc: seq<T>)
    requires |ds| <= live <= |pool|
    ensures PoolLoop(pool, live, ds, acc) == acc + PoolSample(pool[..live], ds)
    decreases |ds|
  {
    if ds != [] {
      var j := Reduce(ds[0], live);
      TakeFromPrefix(pool, live, j);
      PoolLoopSample(pool[j := pool[live - 1]], live - 1, ds[1..], acc + [pool[j]]);
      PoolSampleStep(pool[..live], ds);
    }
  }

  /** sample() picks entries at distinct positions: as a multiset, its result is within the population. */
  lemma {:induction false} PoolSampleMultiset<T>(pool: seq<T>, ds: seq<nat>)
    requires |ds| <= |pool|
    ensures multiset(PoolSample(pool, ds)) <= multiset(pool)
    decreases |ds|
  {
    if ds != [] {
      var j := Reduce(ds[0], |pool|);
      TakeFromMultiset(pool, j);
      PoolSampleMultiset(TakeFrom(pool, j), ds[1..]);
    }
  }

  predicate Distinct<T(==)>(s: seq<T>)
  {
    forall a, b :: 0 <= a < b < |s| ==> s[a] != s[b]
  }

  /** Every entry of a sample is an entry of the pool. */
  lemma SampleMembers<T>(pool: seq<T>, r: seq<T>)
    requires multiset(r) <= multiset(pool)
    ensures forall i :: 0 <= i < |r| ==> r[i] in pool
  {
    forall i | 0 <= i < |r| ensures r[i] in pool {
      assert r[i] in multiset(r);
    }
  }

  /** A sample from a list without repeated entries has no repeated entries. */
  lemma SampleDistinct<T>(pool: seq<T>, r: seq<T>)
    requires Distinct(pool)
    requires multiset(r) <= multiset(pool)
    ensures Distinct(r)
  {
    forall a, b | 0 <= a < b < |r| ensures r[a] != r[b] {
      var x := r[a];
      CountAtMostOne(pool, x);
      assert r == r[..a] + [x] + r[a + 1..];
      assert multiset(r) == multiset(r[..a]) + multiset{x} + multiset(r[a + 1..]);
      assert r[b] == r[a + 1..][b - a - 1];
      assert r[b] in multiset(r[a + 1..]);
    }
  }

  lemma {:induction false} CountAtMostOne<T>(s: seq<T>, x: T)
    requires Distinct(s)
    ensures multiset(s)[x] <= 1
  {
    if s != [] {
      var n := |s|;
      assert s == s[..n - 1] + [s[n - 1]];
      CountAtMostOne(s[..n - 1], x);
      if s[n - 1] == x {
        assert x !in s[..n - 1];
      }
    }
  }

  /** The position random.choices takes without weights for one draw u: floor(u * n). */
  function ChoicesPosition(u: real, n: nat): (i: nat)
    requires 0.0 <= u < 1.0 && n > 0
    ensures i < n
  {
    ScaleBelow(n as real, u);
    Scale(u, n as real).Floor
  }

  // ---------------------------------------------------------------------
  // The stream itself
  // ---------------------------------------------------------------------

  class Rng {
    var source: nat -> nat
    var cursor: nat
    const seeding: nat -> (nat -> nat)

    /** The module's state at start-up: an unseeded stream. */
    constructor (initial: nat -> nat, seeding: nat -> (nat -> nat))
      ensures source == initial && cursor == 0 && this.seeding == seeding
    {
      source := initial;
      cursor := 0;
      this.seeding := seeding;
    }

    /** The raw draw the next primitive consumes. */
    function Peek(): nat
      reads this
    {
      source(cursor)
    }

    /** random.seed(s): CPython seeds an int by its absolute value. */
    method Seed(s: int)
      modifies this
      ensures source == seeding(Abs(s)) && cursor == 0
    {
      source := seeding(Abs(s));
      cursor := 0;
    }

    /** randbelow(n): one draw reduced below n. */
    method RandBelow(n: nat) returns (x: nat)
      requires n > 0
      modifies this
      ensures x == Reduce(old(Peek()), n)
      ensures source == old(source) && cursor == old(cursor) + 1
    {
      x := Reduce(source(cursor), n);
      cursor := cursor + 1;
    }

    /** random.randint(lo, hi); CPython raises ValueError for lo > hi. */
    method RandInt(lo: int, hi: int) returns (x: int)
      requires lo <= hi
      modifies this
      ensures lo <= x <= hi && x == lo + Reduce(old(Peek()), hi - lo + 1)
      ensures source == old(source) && cursor == old(cursor) + 1
    {
      var d := RandBelow(hi - lo + 1);
      x := lo + d;
    }

    /** random.random() */
    method Random() returns (u: real)
      modifies this
      ensures 0.0 <= u < 1.0 && u == UnitOf(old(Peek()))
      ensures source == old(source) && cursor == old(cursor) + 1
    {
      u := UnitOf(source(cursor));
      cursor := cursor + 1;
    }

    /** random.uniform(a, b) = a + (b - a) * random(), in exact arithmetic. */
    method Uniform(a: real, b: real) returns (x: real)
      requires a <= b
      modifies this
      ensures a <= x <= b && x == a + (b - a) * UnitOf(old(Peek()))
      ensures source == old(source) && cursor == old(cursor) + 1
    {
      var u := Random();
      var d := b - a;
      ScaleWithin(d, u);
      var t := d * u;
      x := a + t;
    }

    /** random.choice(xs); CPython raises IndexError for an empty sequence. */
    method Choice<T>(xs: seq<T>) returns (x: T)
      requires |xs| > 0
      modifies this
      ensures x in xs && x == xs[Reduce(old(Peek()), |xs|)]
      ensures source == old(source) && cursor == old(cursor) + 1
    {
      var i := RandBelow(|xs|);
      x := xs[i];
    }

    /** random.choices(population, k=k) without weights: one random() per element. */
    method Choices(population: string, k: nat) returns (r: string)
      requires |population| > 0
      modifies this
      ensures |r| == k && forall i :: 0 <= i < k ==> r[i] in population
      ensures forall i :: 0 <= i < k ==>
        r[i] == population[ChoicesPosition(UnitOf(old(source)(old(cursor) + i)), |population|)]
      ensures source == old(source) && cursor == old(cursor) + k
    {
      r := [];
      for i := 0 to k
        invariant |r| == i && source == old(source) && cursor == old(cursor) + i
        invariant forall j :: 0 <= j < i ==>
          r[j] == population[ChoicesPosition(UnitOf(source(old(cursor) + j)), |population|)]
      {
        var u := Random();
        r := r + [population[ChoicesPosition(u, |population|)]];
      }
    }

    /** The index random.choices(range(|ws|), ws, k=1)[0] returns; no draw when it raises. */
    method WeightedIndex(ws: seq<real>) returns (r: Option<nat>)
      modifies this
      ensures r == ChoicesIndex(ws, UnitOf(old(Peek())))
      ensures source == old(source)
      ensures cursor == if r.Some? then old(cursor) + 1 else old(cursor)
    {
      if |ws| == 0 || Sum(ws) <= 0.0 {
        r := None;
      } else {
        var u := Random();
        r := ChoicesIndex(ws, u);
      }
    }

    /**
      random.sample(population, k) on a list of strings: k entries at distinct
      positions, by the pool algorithm; None where CPython raises ValueError
      (k larger than the population).
    */
    method Sample(population: seq<string>, k: nat) returns (r: Option<seq<string>>)
      modifies this
      ensures k > |population| ==> r.None? && source == old(source) && cursor == old(cursor)
      ensures k <= |population| ==>
        r == Some(PoolSample(population, Upcoming(old(source), old(cursor), k))) &&
        source == old(source) && cursor == old(cursor) + k
    {
      if k > |population| {
        return None;
      }
      var picked := SamplePool(population, k);
      r := Some(picked);
    }

    /** The pool loop of sample(): pool[j] is picked and the last live slot moves into it. */
    method SamplePool(population: seq<string>, k: nat) returns (result: seq<string>)
      requires k <= |population|
      modifies this
      ensures result == PoolSample(population, Upcoming(old(source), old(cursor), k))
      ensures source == old(source) && cursor == old(cursor) + k
    {
      var n := |population|;
      var pool := population;
      result := [];
      ghost var src, start := source, cursor;
      ghost var ds := Upcoming(src, start, k);
      ghost var target := PoolLoop(population, n, ds, []);
      ghost var at := start;
      var live := n;
      var i := 0;
      while i < k
        invariant 0 <= i <= k && |pool| == n && live == n - i && live >= k - i
        invariant source == src && cursor == at && at == start + i
        invariant ds == Upcoming(src, at, k - i)
        invariant PoolLoop(pool, live, ds, result) == target
      {
        UpcomingFirst(src, at, k - i);
        var j := RandBelow(live);
        PoolLoopOnce(pool, live, ds, result);
        result := result + [pool[j]];
        pool := pool[j := pool[live - 1]];
        ds := ds[1..];
        at := at + 1;
        live := live - 1;
        i := i + 1;
      }
      PoolLoopSample(population, n, Upcoming(src, start, k), []);
      assert population[..n] == population;
    }
  }
}
