/** Latency statistics (canon-bench, histogram.rs), with exact reals for the floating-point part. */
module Histograms {
  import opened Events

  // ----- Sorting -----

  ghost predicate Sorted(s: seq<u64>) {
    forall i, j :: 0 <= i <= j < |s| ==> s[i] <= s[j]
  }

  function Insert(x: u64, s: seq<u64>): (r: seq<u64>)
    ensures |r| == |s| + 1
  {
    if s == [] then [x]
    else if x <= s[0] then [x] + s
    else [s[0]] + Insert(x, s[1..])
  }

  /** The samples in ascending order. */
  function Sort(s: seq<u64>): (r: seq<u64>)
    ensures |r| == |s|
  {
    if s == [] then [] else Insert(s[0], Sort(s[1..]))
  }

  lemma {:induction false} InsertAdds(x: u64, s: seq<u64>)
    ensures multiset(Insert(x, s)) == multiset{x} + multiset(s)
  {
    if s != [] && x > s[0] {
      InsertAdds(x, s[1..]);
      assert s == [s[0]] + s[1..];
    }
  }

  lemma SortedPrepend(x: u64, s: seq<u64>)
    requires Sorted(s) && (s != [] ==> x <= s[0])
    ensures Sorted([x] + s)
  {}

  lemma {:induction false} InsertKeeps(x: u64, s: seq<u64>)
    requires Sorted(s)
    ensures Sorted(Insert(x, s)) && multiset(Insert(x, s)) == multiset{x} + multiset(s)
    ensures Insert(x, s)[0] == if s == [] || x <= s[0] then x else s[0]
  {
    InsertAdds(x, s);
    if s == [] {
    } else if x <= s[0] {
      SortedPrepend(x, s);
    } else {
      var rest := s[1..];
      InsertKeeps(x, rest);
      assert rest != [] ==> s[0] <= rest[0];
      SortedPrepend(s[0], Insert(x, rest));
    }
  }

  lemma {:induction false} SortSorts(s: seq<u64>)
    ensures Sorted(Sort(s)) && multiset(Sort(s)) == multiset(s)
  {
    if s != [] {
      SortSorts(s[1..]);
      InsertKeeps(s[0], Sort(s[1..]));
      assert s == [s[0]] + s[1..];
    }
  }

  lemma LeastIsFirst(a: seq<u64>, b: seq<u64>)
    requires Sorted(a) && Sorted(b) && multiset(a) == multiset(b) && a != []
    ensures b != [] && a[0] == b[0]
  {
    assert a[0] in multiset(b) && |multiset(b)| == |b|;
    assert b[0] in multiset(a);
  }

  lemma WithoutFirst(s: seq<u64>)
    requires s != []
    ensures multiset(s[1..]) == multiset(s) - multiset{s[0]}
  {
    assert s == [s[0]] + s[1..];
  }

  /** Only one arrangement of given samples is sorted. */
  lemma {:induction false} SortedUnique(a: seq<u64>, b: seq<u64>)
    requires Sorted(a) && Sorted(b) && multiset(a) == multiset(b)
    ensures a == b
  {
    if a == [] {
      assert |multiset(b)| == |b|;
    } else {
      LeastIsFirst(a, b);
      WithoutFirst(a);
      WithoutFirst(b);
      SortedUnique(a[1..], b[1..]);
      assert a == [a[0]] + a[1..] && b == [b[0]] + b[1..];
    }
  }

  // ----- Nearest-rank percentiles -----

  /** How many samples are at most `v`, and how many are below it. */
  function AtMost(s: seq<u64>, v: nat): nat {
    if s == [] then 0 else (if s[0] <= v then 1 else 0) + AtMost(s[1..], v)
  }

  function Below(s: seq<u64>, v: nat): nat {
    if s == [] then 0 else (if s[0] < v then 1 else 0) + Below(s[1..], v)
  }

  function CeilDiv(a: nat, b: nat): nat
    requires b > 0
  {
    (a + b - 1) / b
  }

  function RankIndex(num: nat, den: nat, n: nat): (i: nat)
    requires den > 0 && n > 0
    ensures i < n
  {
    var rank := CeilDiv(num * n, den);
    var i := if rank == 0 then 0 else rank - 1;
    if i >= n then n - 1 else i
  }

  function PercentileNearestRank(sorted: seq<u64>, num: nat, den: nat): u64
    requires den > 0
  {
    if sorted == [] then 0
    else if num == 0 then sorted[0]
    else sorted[RankIndex(num, den, |sorted|)]
  }

  lemma {:induction false} CountsAtIndex(s: seq<u64>, v: nat, i: nat)
    requires i <= |s|
    requires forall k :: 0 <= k < i ==> s[k] <= v
    ensures AtMost(s, v) >= i
    decreases |s|
  {
    if i > 0 {
      CountsAtIndex(s[1..], v, i - 1);
    }
  }

  lemma {:induction false} CountsBelowIndex(s: seq<u64>, v: nat, i: nat)
    requires i <= |s|
    requires forall k :: i <= k < |s| ==> s[k] >= v
    ensures Below(s, v) <= i
    decreases |s|
  {
    if s != [] {
      CountsBelowIndex(s[1..], v, if i > 0 then i - 1 else 0);
    }
  }

  lemma {:induction false} BelowWithinAtMost(s: seq<u64>, v: nat, w: nat)
    requires v < w
    ensures AtMost(s, v) <= Below(s, w)
  {
    if s != [] {
      BelowWithinAtMost(s[1..], v, w);
    }
  }

  lemma {:induction false} CountsOfInsert(x: u64, s: seq<u64>, v: nat)
    ensures AtMost(Insert(x, s), v) == (if x <= v then 1 else 0) + AtMost(s, v)
    ensures Below(Insert(x, s), v) == (if x < v then 1 else 0) + Below(s, v)
  {
    if s != [] {
      if x <= s[0] {
        assert ([x] + s)[1..] == s;
      } else {
        CountsOfInsert(x, s[1..], v);
        assert Insert(x, s)[1..] == Insert(x, s[1..]);
      }
    }
  }

  lemma {:induction false} CountsOfSort(s: seq<u64>, v: nat)
    ensures AtMost(Sort(s), v) == AtMost(s, v) && Below(Sort(s), v) == Below(s, v)
  {
    if s != [] {
      CountsOfSort(s[1..], v);
      CountsOfInsert(s[0], Sort(s[1..]), v);
    }
  }

  lemma CeilDivBounds(a: nat, b: nat)
    requires b > 0
    ensures CeilDiv(a, b) * b >= a
    ensures a > 0 ==> CeilDiv(a, b) >= 1 && (CeilDiv(a, b) - 1) * b < a
  {
    var q, r := (a + b - 1) / b, (a + b - 1) % b;
    assert a + b - 1 == q * b + r;
    assert (q - 1) * b == q * b - b;
  }

  lemma RankIndexBounds(num: nat, den: nat, n: nat)
    requires 0 < num <= den && n > 0
    ensures den * (RankIndex(num, den, n) + 1) >= num * n
    ensures den * RankIndex(num, den, n) < num * n
  {
    CeilDivBounds(num * n, den);
    var rank := CeilDiv(num * n, den);
    assert num * n >= 1;
    assert (rank - 1) * den < num * n <= den * n;
    assert rank - 1 < n;
    assert RankIndex(num, den, n) == rank - 1;
    assert rank * den == den * rank && (rank - 1) * den == den * (rank - 1);
  }

  /**
   * What the `num/den` percentile of some samples is: a sample that enough
   * samples do not exceed, and too few are below.
   */
  ghost predicate IsPercentile(s: seq<u64>, num: nat, den: nat, v: nat) {
    && v in s
    && den * AtMost(s, v) >= num * |s|
    && den * Below(s, v) < num * |s|
  }

  lemma PercentileOfSorted(s: seq<u64>, num: nat, den: nat)
    requires Sorted(s) && s != [] && 0 < num <= den
    ensures IsPercentile(s, num, den, PercentileNearestRank(s, num, den))
  {
    var i := RankIndex(num, den, |s|);
    RankIndexBounds(num, den, |s|);
    CountsAtIndex(s, s[i], i + 1);
    CountsBelowIndex(s, s[i], i);
    MulMono(den, i + 1, AtMost(s, s[i]));
    MulMono(den, Below(s, s[i]), i);
  }

  lemma MulMono(c: nat, a: nat, b: nat)
    requires a <= b
    ensures c * a <= c * b
  {}

  lemma PercentileUnique(s: seq<u64>, num: nat, den: nat, v: nat, w: nat)
    requires IsPercentile(s, num, den, v) && IsPercentile(s, num, den, w)
    ensures v == w
  {
    if v < w {
      BelowWithinAtMost(s, v, w);
      MulMono(den, AtMost(s, v), Below(s, w));
    } else if w < v {
      BelowWithinAtMost(s, w, v);
      MulMono(den, AtMost(s, w), Below(s, v));
    }
  }

  /** For samples in any order, the computed value is the one and only percentile. */
  lemma PercentileMeaning(s: seq<u64>, num: nat, den: nat, v: nat)
    requires s != [] && 0 < num <= den
    ensures PercentileNearestRank(Sort(s), num, den) == v <==> IsPercentile(s, num, den, v)
  {
    SortSorts(s);
    var r := PercentileNearestRank(Sort(s), num, den);
    PercentileOfSorted(Sort(s), num, den);
    CountsOfSort(s, r);
    assert r in multiset(Sort(s));
    assert IsPercentile(s, num, den, r);
    if IsPercentile(s, num, den, v) {
      PercentileUnique(s, num, den, v, r);
    }
  }

  /** A rank that covers the larger fraction covers the smaller one. */
  lemma RankCovers(a: nat, b: nat, c: nat, d: nat, n: nat, q: nat)
    requires d > 0 && a * d <= c * b && q * d >= c * n
    ensures q * b >= a * n
  {
    MulMono(n, a * d, c * b);
    MulMono(b, c * n, q * d);
    assert (q * b) * d == b * (q * d) >= b * (c * n) == n * (c * b) >= n * (a * d) == (a * n) * d;
    if a * n > 0 {
      Cancel(q * b, a * n - 1, d, (a * n) * d);
    }
  }

  /** What times `d` reaches a bound is larger than what times `d` does not. */
  lemma Cancel(x: nat, y: nat, d: nat, bound: nat)
    requires y * d < bound <= x * d
    ensures y < x
  {
    assert y >= x ==> y * d >= x * d;
  }

  lemma RanksOrdered(a: nat, b: nat, c: nat, d: nat, n: nat)
    requires b > 0 && d > 0 && n > 0 && a * d <= c * b
    ensures CeilDiv(a * n, b) <= CeilDiv(c * n, d)
  {
    var p, q := CeilDiv(a * n, b), CeilDiv(c * n, d);
    CeilDivBounds(a * n, b);
    CeilDivBounds(c * n, d);
    RankCovers(a, b, c, d, n, q);
    if a * n > 0 {
      hide CeilDiv;
      Cancel(q, p - 1, b, a * n);
    } else {
      CeilDivZero(b);
    }
  }

  lemma CeilDivZero(b: nat)
    requires b > 0
    ensures CeilDiv(0, b) == 0
  {}

  /** A larger fraction never gives a smaller percentile. */
  lemma PercentilesOrdered(s: seq<u64>, a: nat, b: nat, c: nat, d: nat)
    requires Sorted(s) && s != [] && b > 0 && d > 0 && a * d <= c * b
    ensures s[0] <= PercentileNearestRank(s, a, b) <= PercentileNearestRank(s, c, d) <= s[|s| - 1]
  {
    RanksOrdered(a, b, c, d, |s|);
    if a > 0 {
      assert c * b > 0;
    }
  }

  /** At the ends: no samples give 0, fraction 0 gives the least sample, fraction 1 and more the greatest. */
  lemma PercentileEnds(s: seq<u64>, num: nat, den: nat)
    requires den > 0 && Sorted(s)
    ensures s == [] ==> PercentileNearestRank(s, num, den) == 0
    ensures s != [] && num == 0 ==> PercentileNearestRank(s, num, den) == s[0]
    ensures s != [] && num >= den ==> PercentileNearestRank(s, num, den) == s[|s| - 1]
  {
    if s != [] && num >= den {
      var n := |s|;
      RanksOrdered(1, 1, num, den, n);
      assert CeilDiv(1 * n, 1) == n;
    }
  }

  // ----- Mean and variance -----

  function Square(y: real): real {
    y * y
  }

  function Sum(s: seq<u64>): real {
    if s == [] then 0.0 else Sum(s[..|s| - 1]) + s[|s| - 1] as real
  }

  function SumOfSquares(s: seq<u64>): real {
    if s == [] then 0.0 else SumOfSquares(s[..|s| - 1]) + Square(s[|s| - 1] as real)
  }

  /** Sum of squared deviations from `c`: the second pass of the two-pass definition. */
  function SquaredDeviations(s: seq<u64>, c: real): real {
    if s == [] then 0.0 else SquaredDeviations(s[..|s| - 1], c) + Square(s[|s| - 1] as real - c)
  }

  /** Squared deviations from `c` of `n` numbers with sum `t` and sum of squares `q`. */
  function Expanded(q: real, t: real, n: real, c: real): real {
    q - 2.0 * (c * t) + c * c * n
  }

  lemma ExpandOne(q: real, t: real, n: real, c: real, x: real)
    ensures Expanded(q, t, n, c) + Square(x - c) == Expanded(q + Square(x), t + x, n + 1.0, c)
  {
    assert (x - c) * (x - c) == x * x - 2.0 * (c * x) + c * c;
    assert c * (t + x) == c * t + c * x;
    assert c * c * (n + 1.0) == c * c * n + c * c;
  }

  lemma {:induction false} DeviationsExpand(s: seq<u64>, c: real)
    ensures SquaredDeviations(s, c) == Expanded(SumOfSquares(s), Sum(s), |s| as real, c)
  {
    if s == [] {
      assert c * 0.0 == 0.0 && c * c * 0.0 == 0.0;
    } else {
      hide Expanded, Square;
      var p := s[..|s| - 1];
      DeviationsExpand(p, c);
      ExpandOne(SumOfSquares(p), Sum(p), |p| as real, c, s[|s| - 1] as real);
    }
  }

  lemma SquareNonNegative(y: real)
    ensures Square(y) >= 0.0
  {}

  lemma {:induction false} DeviationsNonNegative(s: seq<u64>, c: real)
    ensures SquaredDeviations(s, c) >= 0.0
  {
    hide Square;
    if s != [] {
      DeviationsNonNegative(s[..|s| - 1], c);
      SquareNonNegative(s[|s| - 1] as real - c);
    }
  }

  lemma MeanUpdate(n: real, m: real, x: real, k: real)
    requires n >= 0.0 && k == m + (x - m) / (n + 1.0)
    ensures k * (n + 1.0) == m * n + x
  {
    var step := (x - m) / (n + 1.0);
    assert step * (n + 1.0) == x - m;
    assert (m + step) * (n + 1.0) == m * (n + 1.0) + step * (n + 1.0);
  }

  /** The algebra of one update: `n` samples of mean `m`, a new sample `x`, and the new mean `k`. */
  lemma UpdateAlgebra(n: real, m: real, x: real, k: real, q: real)
    requires k * (n + 1.0) == m * n + x
    ensures Expanded(q, m * n, n, m) + (x - m) * (x - k) == Expanded(q + Square(x), m * n + x, n + 1.0, k)
  {
    assert m * (m * n) == m * m * n;
    assert k * (k * (n + 1.0)) == k * k * (n + 1.0);
    assert (x - m) * (x - k) == x * x - k * x - m * x + m * k;
    assert k * x == k * (k * (n + 1.0) - m * n) == k * k * (n + 1.0) - k * (m * n);
    assert m * x == m * (k * (n + 1.0) - m * n) == m * (k * (n + 1.0)) - m * (m * n);
    assert m * (k * (n + 1.0)) == k * (m * n) + m * k;
  }

  lemma UpdateExpanded(q: real, t: real, n: real, m: real, x: real, k: real, q': real, t': real, n': real)
    requires t == m * n && q' == q + Square(x) && t' == t + x && n' == n + 1.0 && k * n' == t'
    ensures Expanded(q', t', n', k) == Expanded(q, t, n, m) + (x - m) * (x - k)
  {
    hide Expanded, Square;
    UpdateAlgebra(n, m, x, k, q);
  }

  /** One Welford update turns the deviations of `s` into those of `s + [x]`. */
  lemma WelfordUpdate(s: seq<u64>, x: u64, mean: real, mean': real)
    requires mean * |s| as real == Sum(s)
    requires mean' == mean + (x as real - mean) / (|s| as real + 1.0)
    ensures mean' * (|s| as real + 1.0) == Sum(s + [x])
    ensures SquaredDeviations(s + [x], mean') == SquaredDeviations(s, mean) + (x as real - mean) * (x as real - mean')
  {
    hide Expanded, Square, SquaredDeviations;
    var y, n, n' := x as real, |s| as real, |s + [x]| as real;
    assert (s + [x])[..|s|] == s;
    MeanUpdate(n, mean, y, mean');
    DeviationsExpand(s, mean);
    DeviationsExpand(s + [x], mean');
    UpdateExpanded(SumOfSquares(s), Sum(s), n, mean, y, mean', SumOfSquares(s + [x]), Sum(s + [x]), n');
  }

  lemma NoSamples()
    ensures Sum([]) == 0.0 && SquaredDeviations([], 0.0) == 0.0
  {}

  /** The one-pass loop computes the two-pass mean and sum of squared deviations. */
  method Welford(samples: seq<u64>) returns (count: real, mean: real, m2: real)
    ensures count == |samples| as real && mean * count == Sum(samples)
    ensures m2 == SquaredDeviations(samples, mean) >= 0.0
  {
    hide Square, Sum, SquaredDeviations;
    count, mean, m2 := 0.0, 0.0, 0.0;
    NoSamples();
    for i := 0 to |samples|
      invariant count == i as real && mean * count == Sum(samples[..i])
      invariant m2 == SquaredDeviations(samples[..i], mean)
    {
      ghost var before := mean;
      var x := samples[i] as real;
      count := count + 1.0;
      var delta := x - mean;
      mean := mean + delta / count;
      var delta2 := x - mean;
      m2 := m2 + delta * delta2;
      WelfordUpdate(samples[..i], samples[i], before, mean);
      assert samples[..i + 1] == samples[..i] + [samples[i]];
    }
    assert samples[..|samples|] == samples;
    DeviationsNonNegative(samples, mean);
  }

  // ----- Order does not matter -----

  lemma {:induction false} SumsOfInsert(x: u64, s: seq<u64>, c: real)
    ensures Sum(Insert(x, s)) == Sum(s) + x as real
    ensures SquaredDeviations(Insert(x, s), c) == SquaredDeviations(s, c) + Square(x as real - c)
  {
    hide Square;
    if s == [] {
      assert [x][..0] == [];
    } else if x <= s[0] {
      SumsPrepend(x, s, c);
    } else {
      SumsOfInsert(x, s[1..], c);
      SumsPrepend(s[0], Insert(x, s[1..]), c);
      SumsPrepend(s[0], s[1..], c);
      assert [s[0]] + s[1..] == s;
    }
  }

  lemma {:induction false} SumsPrepend(x: u64, s: seq<u64>, c: real)
    ensures Sum([x] + s) == x as real + Sum(s)
    ensures SquaredDeviations([x] + s, c) == Square(x as real - c) + SquaredDeviations(s, c)
  {
    hide Square;
    if s == [] {
      assert ([x] + s)[..0] == [] && [x] + s == [x];
    } else {
      SumsPrepend(x, s[..|s| - 1], c);
      assert ([x] + s)[..|s|] == [x] + s[..|s| - 1];
    }
  }

  lemma {:induction false} SumsOfSort(s: seq<u64>, c: real)
    ensures Sum(Sort(s)) == Sum(s) && SquaredDeviations(Sort(s), c) == SquaredDeviations(s, c)
  {
    hide Square;
    if s != [] {
      SumsOfSort(s[1..], c);
      SumsOfInsert(s[0], Sort(s[1..]), c);
      SumsPrepend(s[0], s[1..], c);
      assert [s[0]] + s[1..] == s;
    }
  }

  // ----- The histogram -----

  datatype Summary = Summary(
    count: nat, minNs: u64, maxNs: u64, mean: real, variance: real, p50: u64, p90: u64, p99: u64, p999: u64)

  function Mean(s: seq<u64>): real {
    if s == [] then 0.0 else Sum(s) / |s| as real
  }

  function Variance(s: seq<u64>): real {
    if s == [] then 0.0 else SquaredDeviations(s, Mean(s)) / |s| as real
  }

  /** The summary of samples in insertion order. */
  function SummaryOf(s: seq<u64>): Summary {
    if s == [] then Summary(0, 0, 0, 0.0, 0.0, 0, 0, 0, 0)
    else
      var o := Sort(s);
      Summary(|s|, o[0], o[|s| - 1], Mean(s), Variance(s),
              PercentileNearestRank(o, 50, 100), PercentileNearestRank(o, 90, 100),
              PercentileNearestRank(o, 99, 100), PercentileNearestRank(o, 999, 1000))
  }

  /** What each field of a summary means for the samples it was made from. */
  ghost predicate Describes(r: Summary, s: seq<u64>) {
    && r.count == |s|
    && (s == [] ==> r == Summary(0, 0, 0, 0.0, 0.0, 0, 0, 0, 0))
    && (s != [] ==>
          && r.minNs in s && r.maxNs in s && (forall x :: x in s ==> r.minNs <= x <= r.maxNs)
          && IsPercentile(s, 50, 100, r.p50) && IsPercentile(s, 90, 100, r.p90)
          && IsPercentile(s, 99, 100, r.p99) && IsPercentile(s, 999, 1000, r.p999)
          && r.mean * r.count as real == Sum(s)
          && r.variance * r.count as real == SquaredDeviations(s, r.mean))
  }

  lemma ExtremesOfSort(s: seq<u64>)
    requires s != []
    ensures var o := Sort(s);
            o[0] in s && o[|s| - 1] in s && (forall x :: x in s ==> o[0] <= x <= o[|s| - 1])
  {
    SortSorts(s);
    hide Sort;
    var o := Sort(s);
    assert o[0] in multiset(o) && o[|s| - 1] in multiset(o);
    forall x | x in s ensures o[0] <= x <= o[|s| - 1] {
      assert x in multiset(o);
    }
  }

  lemma MomentsBack(s: seq<u64>)
    requires s != []
    ensures Mean(s) * |s| as real == Sum(s)
    ensures Variance(s) * |s| as real == SquaredDeviations(s, Mean(s))
  {
    hide Sum, SquaredDeviations;
    MultiplyBack(Sum(s), |s| as real);
    MultiplyBack(SquaredDeviations(s, Mean(s)), |s| as real);
  }

  lemma MultiplyBack(x: real, c: real)
    requires c > 0.0
    ensures (x / c) * c == x
  {}

  /** Every field of a summary means what it is named for. */
  lemma {:induction false} SummaryDescribes(s: seq<u64>)
    ensures Describes(SummaryOf(s), s)
  {
    hide Sort, Sum, SquaredDeviations, PercentileNearestRank, IsPercentile, Mean, Variance;
    if s != [] {
      var o := Sort(s);
      ExtremesOfSort(s);
      MomentsBack(s);
      PercentileMeaning(s, 50, 100, PercentileNearestRank(o, 50, 100));
      PercentileMeaning(s, 90, 100, PercentileNearestRank(o, 90, 100));
      PercentileMeaning(s, 99, 100, PercentileNearestRank(o, 99, 100));
      PercentileMeaning(s, 999, 1000, PercentileNearestRank(o, 999, 1000));
    }
  }

  /** A description leaves nothing open: only one summary describes given samples. */
  lemma DescribedOnce(a: Summary, b: Summary, s: seq<u64>)
    requires Describes(a, s) && Describes(b, s)
    ensures a == b
  {
    hide Sum, SquaredDeviations, IsPercentile;
    if s != [] {
      PercentileUnique(s, 50, 100, a.p50, b.p50);
      PercentileUnique(s, 90, 100, a.p90, b.p90);
      PercentileUnique(s, 99, 100, a.p99, b.p99);
      PercentileUnique(s, 999, 1000, a.p999, b.p999);
      SameProduct(a.mean, b.mean, |s| as real);
      SameProduct(a.variance, b.variance, |s| as real);
    }
  }

  lemma SameProduct(x: real, y: real, c: real)
    requires c > 0.0 && x * c == y * c
    ensures x == y
  {}

  class Histogram {
    var samples: seq<u64>

    constructor ()
      ensures samples == []
    {
      samples := [];
    }

    /** Records a duration in nanoseconds, saturating at 64 bits. */
    method Record(nanos: nat)
      modifies this
      ensures samples == old(samples) + [if nanos <= U64_MAX then nanos else U64_MAX]
    {
      RecordNs(if nanos <= U64_MAX then nanos else U64_MAX);
    }

    method RecordNs(ns: u64)
      modifies this
      ensures samples == old(samples) + [ns]
    {
      samples := samples + [ns];
    }

    method Merge(other: Histogram)
      modifies this
      ensures samples == old(samples) + old(other.samples)
    {
      samples := samples + other.samples;
    }

    /** Sorts the samples in place and summarises them; the summary is that of the samples as recorded. */
    method Summarise() returns (summary: Summary)
      modifies this
      ensures Sorted(samples) && multiset(samples) == multiset(old(samples))
      ensures summary == SummaryOf(old(samples)) && Describes(summary, old(samples))
    {
      SummaryDescribes(samples);
      SortSorts(samples);
      hide Describes, Sorted;
      hide Sort, Sum, SquaredDeviations, PercentileNearestRank;
      if samples == [] {
        SortOfEmpty();
        return Summary(0, 0, 0, 0.0, 0.0, 0, 0, 0, 0);
      }
      ghost var recorded := samples;
      samples := Sort(samples);
      var n := |samples|;
      var p50 := PercentileNearestRank(samples, 50, 100);
      var p90 := PercentileNearestRank(samples, 90, 100);
      var p99 := PercentileNearestRank(samples, 99, 100);
      var p999 := PercentileNearestRank(samples, 999, 1000);
      var count, mean, m2 := Welford(samples);
      var variance := if count > 1.0 then m2 / count else 0.0;
      MomentsOf(recorded, count, mean, m2);
      summary := Summary(n, samples[0], samples[n - 1], mean, variance, p50, p90, p99, p999);
    }
  }

  lemma SortOfEmpty()
    ensures Sort([]) == []
  {}

  lemma DivideBack(m: real, c: real)
    requires c > 0.0
    ensures (m * c) / c == m
  {}

  /** What the loop leaves behind is the two-pass mean and variance of the samples in any order. */
  lemma MomentsOf(s: seq<u64>, count: real, mean: real, m2: real)
    requires s != [] && count == |s| as real && mean * count == Sum(Sort(s)) && m2 == SquaredDeviations(Sort(s), mean)
    ensures mean == Mean(s)
    ensures (if count > 1.0 then m2 / count else 0.0) == Variance(s)
  {
    hide Sum, SquaredDeviations, Sort, Square, Variance;
    SumsOfSort(s, mean);
    DivideBack(mean, count);
    if |s| == 1 {
      SingleDeviation(s);
    } else {
      VarianceOf(s);
    }
  }

  lemma VarianceOf(s: seq<u64>)
    requires s != []
    ensures Variance(s) == SquaredDeviations(s, Mean(s)) / |s| as real
  {}

  lemma SingleDeviation(s: seq<u64>)
    requires |s| == 1
    ensures Variance(s) == 0.0
  {
    hide Square;
    var x := s[0] as real;
    assert s[..0] == [];
    assert Sum(s) == x;
    DivideBack(x, 1.0);
    assert x * 1.0 == x;
    assert Mean(s) == x;
    assert SquaredDeviations(s, x) == Square(0.0);
    SquareOfZero();
  }

  lemma SquareOfZero()
    ensures Square(0.0) == 0.0
  {}

  lemma {:induction false} SortDependsOnMultiset(a: seq<u64>, b: seq<u64>)
    requires multiset(a) == multiset(b)
    ensures Sort(a) == Sort(b)
  {
    SortSorts(a);
    SortSorts(b);
    SortedUnique(Sort(a), Sort(b));
  }

  /** The summary depends only on the multiset of samples: not on insertion order, merge order or an earlier summary. */
  lemma SummaryDependsOnMultiset(a: seq<u64>, b: seq<u64>)
    requires multiset(a) == multiset(b)
    ensures SummaryOf(a) == SummaryOf(b)
  {
    hide Sum, SquaredDeviations, PercentileNearestRank;
    assert |multiset(a)| == |a| && |multiset(b)| == |b|;
    SortDependsOnMultiset(a, b);
    if a != [] {
      SumsOfSort(a, Mean(a));
      SumsOfSort(b, Mean(a));
    }
  }

  /** Percentiles of a summary ascend between the extremes, and the variance is never negative. */
  lemma SummaryOrdered(s: seq<u64>)
    requires s != []
    ensures var r := SummaryOf(s);
            r.minNs <= r.p50 <= r.p90 <= r.p99 <= r.p999 <= r.maxNs && r.variance >= 0.0
  {
    hide Sum, SquaredDeviations, PercentileNearestRank, Sort;
    SortSorts(s);
    PercentilesOrdered(Sort(s), 50, 100, 90, 100);
    PercentilesOrdered(Sort(s), 90, 100, 99, 100);
    PercentilesOrdered(Sort(s), 99, 100, 999, 1000);
    DeviationsNonNegative(s, Mean(s));
  }
}
