/**
 `computeStats` over the reals: the two loops, and the inequalities a reader of the summary
 relies on.
 */
module Stats {
  import opened Telemetry

  /** `Empty` is the record whose count is 0 and whose other fields are all NaN. */
  datatype SeriesStats =
    | Empty
    | SeriesStats(count: nat, last: real, min: real, max: real, mean: real, stddev: real)

  function FiniteOf(values: seq<Double>): seq<real> {
    if values == [] then []
    else
      var v := values[|values| - 1];
      FiniteOf(values[..|values| - 1]) + if v.Finite? then [v.r] else []
  }

  ghost function Sum(s: seq<real>): real {
    if s == [] then 0.0 else Sum(s[..|s| - 1]) + s[|s| - 1]
  }

  ghost function SumSq(s: seq<real>): real {
    if s == [] then 0.0 else SumSq(s[..|s| - 1]) + s[|s| - 1] * s[|s| - 1]
  }

  /** Sum of the squared distances to `m`. */
  ghost function Deviation(s: seq<real>, m: real): real {
    if s == [] then 0.0 else Deviation(s[..|s| - 1], m) + (s[|s| - 1] - m) * (s[|s| - 1] - m)
  }

  /** What the summary of a nonempty list of finite values is; `variance` is the argument of
      the final square root. */
  ghost predicate Summarises(st: SeriesStats, s: seq<real>, variance: real) {
    && s != [] && st.SeriesStats? && st.count == |s| && st.last == s[|s| - 1]
    && st.min in s && (forall i :: 0 <= i < |s| ==> st.min <= s[i])
    && st.max in s && (forall i :: 0 <= i < |s| ==> s[i] <= st.max)
    && IsMean(st.mean, |s| as real, Sum(s))
    && IsMean(variance, |s| as real, Deviation(s, st.mean))
  }

  ghost predicate IsMean(mean: real, count: real, sum: real) {
    mean * count == sum
  }

  /** The positions that hold a number. */
  ghost function FinitePositions(values: seq<Double>): set<nat> {
    set i: nat | i < |values| && values[i].Finite?
  }

  /** `s` are the numbers among the values: `at` lists their positions, all of them, in order. */
  ghost predicate Selects(values: seq<Double>, s: seq<real>, at: seq<nat>) {
    && |at| == |s| && StrictlyIncreasing(at)
    && (forall j :: 0 <= j < |at| ==> at[j] < |values| && values[at[j]] == Finite(s[j]))
    && forall i: nat :: i < |values| && values[i].Finite? ==> i in at
  }

  lemma SelectOneMore(values: seq<Double>, s: seq<real>, at: seq<nat>, v: Double)
    requires Selects(values, s, at)
    ensures if v.Finite? then Selects(values + [v], s + [v.r], at + [|values|]) else Selects(values + [v], s, at)
  {
    var more := values + [v];
    forall i: nat | i < |more| && more[i].Finite? ensures i in at + [|values|] && (!v.Finite? ==> i in at) {
      if i < |values| { assert values[i].Finite?; }
    }
  }

  lemma CountOneMore(values: seq<Double>, v: Double)
    ensures |FinitePositions(values + [v])| == |FinitePositions(values)| + if v.Finite? then 1 else 0
  {
    var more := values + [v];
    assert FinitePositions(more) == FinitePositions(values) + if v.Finite? then {|values|} else {};
  }

  /** The filter keeps exactly the numbers, in order. */
  lemma {:induction false} FilterSelects(values: seq<Double>) returns (at: seq<nat>)
    ensures Selects(values, FiniteOf(values), at) && |FiniteOf(values)| == |FinitePositions(values)|
  {
    if values == [] {
      at := [];
      assert FinitePositions(values) == {};
    } else {
      var front, v := values[..|values| - 1], values[|values| - 1];
      at := FilterSelects(front);
      assert values == front + [v];
      SelectOneMore(front, FiniteOf(front), at, v);
      CountOneMore(front, v);
      if v.Finite? {
        at := at + [|front|];
      } else {
        assert FiniteOf(values) == FiniteOf(front);
      }
    }
  }

  ghost predicate LastNumber(x: real, values: seq<Double>) {
    exists i :: 0 <= i < |values| && values[i] == Finite(x) && forall j :: i < j < |values| ==> !values[j].Finite?
  }

  /** What a summary says about the list itself, numbers or not. */
  ghost predicate SummaryOf(st: SeriesStats, values: seq<Double>) {
    if forall i :: 0 <= i < |values| ==> !values[i].Finite? then st.Empty?
    else
      && st.SeriesStats? && st.count == |FinitePositions(values)|
      && LastNumber(st.last, values)
      && Finite(st.min) in values && Finite(st.max) in values
      && forall i :: 0 <= i < |values| && values[i].Finite? ==> st.min <= values[i].r <= st.max
  }

  lemma SummaryOfNumbers(st: SeriesStats, values: seq<Double>, s: seq<real>, at: seq<nat>)
    requires Selects(values, s, at) && |s| == |FinitePositions(values)| && s != []
    requires st.SeriesStats? && st.count == |s| && st.last == s[|s| - 1] && st.min in s && st.max in s
    requires forall j :: 0 <= j < |s| ==> st.min <= s[j] <= st.max
    ensures SummaryOf(st, values)
  {
    assert values[at[0]].Finite?;
    assert LastNumber(st.last, values) by { LastOfSelection(values, s, at); }
    var lo, hi :| 0 <= lo < |s| && s[lo] == st.min && 0 <= hi < |s| && s[hi] == st.max;
    assert values[at[lo]] == Finite(st.min) && values[at[hi]] == Finite(st.max);
    forall i | 0 <= i < |values| && values[i].Finite? ensures st.min <= values[i].r <= st.max {
      var j :| 0 <= j < |at| && at[j] == i;
    }
  }

  lemma NumberIsListed(values: seq<Double>, s: seq<real>, at: seq<nat>, k: nat)
    requires Selects(values, s, at) && k < |values| && values[k].Finite?
    ensures at != [] && k <= at[|at| - 1]
  {
    var j :| 0 <= j < |at| && at[j] == k;
  }

  lemma LastOfSelection(values: seq<Double>, s: seq<real>, at: seq<nat>)
    requires Selects(values, s, at) && s != []
    ensures LastNumber(s[|s| - 1], values)
  {
    var i := at[|at| - 1];
    assert values[i] == Finite(s[|s| - 1]);
    forall k: nat | k < |values| && values[k].Finite? ensures k <= i {
      NumberIsListed(values, s, at, k);
    }
  }

  lemma NoNumbers(values: seq<Double>, at: seq<nat>)
    requires Selects(values, [], at)
    ensures SummaryOf(Empty, values)
  {
  }

  /** `sqrt` is whatever the platform's square root does. */
  method ComputeStats(values: seq<Double>, sqrt: real -> real) returns (st: SeriesStats, ghost variance: real)
    ensures SummaryOf(st, values)
    ensures st.SeriesStats? ==> Summarises(st, FiniteOf(values), variance) && st.stddev == sqrt(variance)
  {
    var finite := FiniteOf(values);
    ghost var at := FilterSelects(values);
    if finite == [] {
      NoNumbers(values, at);
      return Empty, 0.0;
    }
    var min, max, sum := FirstPass(finite);
    var mean := Quotient(sum, |finite|);
    var sqSum := SquaredDeviation(finite, mean);
    var quotient := Quotient(sqSum, |finite|);
    variance := quotient;
    st := SeriesStats(|finite|, finite[|finite| - 1], min.value, max.value, mean, sqrt(quotient));
    SummaryOfNumbers(st, values, finite, at);
  }

  function Quotient(a: real, n: nat): (q: real)
    requires n > 0
    ensures IsMean(q, n as real, a)
  {
    a / (n as real)
  }

  /** The first loop; `None` stands for the initial infinities. */
  method FirstPass(finite: seq<real>) returns (min: Option<real>, max: Option<real>, sum: real)
    ensures sum == Sum(finite)
    ensures finite != [] ==>
      && min.Some? && min.value in finite && max.Some? && max.value in finite
      && forall j :: 0 <= j < |finite| ==> min.value <= finite[j] <= max.value
  {
    min, max, sum := None, None, 0.0;
    ghost var minAt, maxAt := 0, 0;
    for i := 0 to |finite|
      invariant sum == Sum(finite[..i])
      invariant i == 0 ==> min.None? && max.None?
      invariant i > 0 ==> 0 <= minAt < i && min == Some(finite[minAt]) && 0 <= maxAt < i && max == Some(finite[maxAt])
      invariant forall j :: 0 <= j < i ==> finite[minAt] <= finite[j] <= finite[maxAt]
    {
      var v := finite[i];
      assert finite[..i + 1][..i] == finite[..i];
      if min.None? || v < min.value { min, minAt := Some(v), i; }
      if max.None? || v > max.value { max, maxAt := Some(v), i; }
      sum := sum + v;
    }
    assert finite[..|finite|] == finite;
    assert finite != [] ==> finite[minAt] in finite && finite[maxAt] in finite;
  }

  /** The second loop. */
  method SquaredDeviation(finite: seq<real>, mean: real) returns (sqSum: real)
    ensures sqSum == Deviation(finite, mean)
  {
    sqSum := 0.0;
    for i := 0 to |finite|
      invariant sqSum == Deviation(finite[..i], mean)
    {
      sqSum := sqSum + (finite[i] - mean) * (finite[i] - mean);
      assert finite[..i + 1][..i] == finite[..i];
    }
    assert finite[..|finite|] == finite;
  }

  // ----- Sums -----

  ghost predicate Expansion(deviation: real, squares: real, m: real, sum: real, n: real) {
    deviation == squares - 2.0 * m * sum + n * (m * m)
  }

  lemma {:induction false} DeviationExpands(s: seq<real>, m: real)
    ensures Expansion(Deviation(s, m), SumSq(s), m, Sum(s), |s| as real)
  {
    if s == [] {
      EmptyExpansion(m);
    } else {
      var r := s[..|s| - 1];
      DeviationExpands(r, m);
      assert |s| as real == (|r| as real) + 1.0;
      ExpansionStep(Deviation(r, m), SumSq(r), m, Sum(r), |r| as real, s[|s| - 1],
                    Deviation(s, m), SumSq(s), Sum(s), |s| as real);
    }
  }

  lemma EmptyExpansion(m: real)
    ensures Expansion(0.0, 0.0, m, 0.0, 0.0)
  {
  }

  lemma ExpansionStep(d: real, q: real, m: real, t: real, n: real, x: real, d': real, q': real, t': real, n': real)
    requires Expansion(d, q, m, t, n)
    requires d' == d + (x - m) * (x - m) && q' == q + x * x && t' == t + x && n' == n + 1.0
    ensures Expansion(d', q', m, t', n')
  {
  }

  lemma {:induction false} SumIsBounded(s: seq<real>, lo: real, hi: real)
    requires forall i :: 0 <= i < |s| ==> lo <= s[i] <= hi
    ensures lo * (|s| as real) <= Sum(s) <= hi * (|s| as real)
  {
    if s != [] {
      SumIsBounded(s[..|s| - 1], lo, hi);
      assert lo * (|s| as real) == lo * ((|s| - 1) as real) + lo;
      assert hi * (|s| as real) == hi * ((|s| - 1) as real) + hi;
    }
  }

  ghost predicate Capped(squares: real, lo: real, hi: real, sum: real, n: real) {
    squares <= (lo + hi) * sum - n * (lo * hi)
  }

  /** From the sum of the products (x - lo)(hi - x), none of which is negative. */
  lemma {:induction false} SquaresAreBounded(s: seq<real>, lo: real, hi: real)
    requires forall i :: 0 <= i < |s| ==> lo <= s[i] <= hi
    ensures Capped(SumSq(s), lo, hi, Sum(s), |s| as real)
  {
    if s != [] {
      var r := s[..|s| - 1];
      SquaresAreBounded(r, lo, hi);
      CapStep(SumSq(r), lo, hi, Sum(r), |r| as real, s[|s| - 1]);
    }
  }

  lemma CapStep(squares: real, lo: real, hi: real, sum: real, n: real, x: real)
    requires Capped(squares, lo, hi, sum, n) && lo <= x <= hi
    ensures Capped(squares + x * x, lo, hi, sum + x, n + 1.0)
  {
    ProductOfDistances(x, lo, hi);
  }

  lemma ProductOfDistances(x: real, lo: real, hi: real)
    requires lo <= x <= hi
    ensures x * x <= (lo + hi) * x - lo * hi
  {
    ProductOfSigns(x - lo, hi - x);
    assert (x - lo) * (hi - x) == (lo + hi) * x - lo * hi - x * x;
  }

  lemma ProductOfSigns(a: real, b: real)
    requires a >= 0.0 && b >= 0.0
    ensures a * b >= 0.0
  {
  }

  lemma DivideOut(a: real, b: real, n: real)
    requires n > 0.0 && a * n <= b * n
    ensures a <= b
  {
    assert a * n - b * n == (a - b) * n;
  }

  // ----- The laws -----

  ghost function Square(x: real): real {
    x * x
  }

  ghost function HalfRange(lo: real, hi: real): real {
    (hi - lo) / 2.0
  }

  lemma MeanIsBetween(st: SeriesStats, s: seq<real>, variance: real)
    requires Summarises(st, s, variance)
    ensures st.min <= st.mean <= st.max
  {
    SumIsBounded(s, st.min, st.max);
    BetweenPerValue(st.mean, |s| as real, Sum(s), st.min, st.max);
  }

  lemma BetweenPerValue(m: real, n: real, sum: real, lo: real, hi: real)
    requires n > 0.0 && IsMean(m, n, sum) && lo * n <= sum <= hi * n
    ensures lo <= m <= hi
  {
    DivideOut(lo, m, n);
    DivideOut(m, hi, n);
  }

  /** The variance in terms of the sum of squares. */
  ghost predicate Identity(variance: real, n: real, squares: real, m: real) {
    variance * n == squares - n * Square(m)
  }

  lemma CompleteTheSquare(n: real, m: real, sum: real, squares: real, deviation: real, variance: real)
    requires IsMean(m, n, sum) && IsMean(variance, n, deviation) && Expansion(deviation, squares, m, sum, n)
    ensures Identity(variance, n, squares, m)
  {
    assert m * sum == n * (m * m);
  }

  /** count * variance == sum of squares - count * mean^2. */
  lemma VarianceIdentity(st: SeriesStats, s: seq<real>, variance: real)
    requires Summarises(st, s, variance)
    ensures Identity(variance, |s| as real, SumSq(s), st.mean)
  {
    DeviationExpands(s, st.mean);
    CompleteTheSquare(|s| as real, st.mean, Sum(s), SumSq(s), Deviation(s, st.mean), variance);
  }

  /** The products (x - lo)(hi - x) leave no room for more than half the range. */
  lemma CrossBound(n: real, m: real, lo: real, hi: real, sum: real, squares: real, variance: real)
    requires n > 0.0 && IsMean(m, n, sum) && Identity(variance, n, squares, m) && Capped(squares, lo, hi, sum, n)
    ensures variance <= Square(HalfRange(lo, hi))
  {
    var bound := (lo + hi) * m - lo * hi - m * m;
    assert bound * n == (lo + hi) * (m * n) - n * (lo * hi) - n * (m * m);
    DivideOut(variance, bound, n);
    var c := (hi + lo) / 2.0 - m;
    SquareIsNonNegative(c);
    assert Square(HalfRange(lo, hi)) - bound == c * c;
  }

  lemma SquareIsNonNegative(c: real)
    ensures c * c >= 0.0
  {
    if c >= 0.0 { ProductOfSigns(c, c); } else { ProductOfSigns(-c, -c); }
  }

  /** The variance never exceeds the square of half the range. */
  lemma VarianceIsBounded(st: SeriesStats, s: seq<real>, variance: real)
    requires Summarises(st, s, variance)
    ensures variance <= Square(HalfRange(st.min, st.max))
  {
    VarianceIdentity(st, s, variance);
    SquaresAreBounded(s, st.min, st.max);
    CrossBound(|s| as real, st.mean, st.min, st.max, Sum(s), SumSq(s), variance);
  }

  lemma RootsCompare(a: real, b: real)
    requires a >= 0.0 && b >= 0.0 && Square(a) <= Square(b)
    ensures a <= b
  {
    if a > b { SquaresGrow(b, a); }
  }

  lemma SquaresGrow(b: real, a: real)
    requires 0.0 <= b < a
    ensures Square(b) < Square(a)
  {
    var d := a - b;
    PositiveSquare(d);
    ProductOfSigns(d, b);
    assert a * a == b * b + 2.0 * (d * b) + d * d;
  }

  lemma PositiveSquare(c: real)
    requires c > 0.0
    ensures c * c > 0.0
  {
  }

  lemma {:induction false} DeviationIsNonNegative(s: seq<real>, m: real)
    ensures Deviation(s, m) >= 0.0
  {
    if s != [] {
      DeviationIsNonNegative(s[..|s| - 1], m);
      SquareIsNonNegative(s[|s| - 1] - m);
    }
  }

  /** A square root exists only of a variance that is not negative, and it is not. */
  lemma VarianceIsNotNegative(st: SeriesStats, s: seq<real>, variance: real)
    requires Summarises(st, s, variance)
    ensures variance >= 0.0
  {
    DeviationIsNonNegative(s, st.mean);
    NonNegativePerValue(variance, |s| as real, Deviation(s, st.mean));
  }

  lemma NonNegativePerValue(m: real, n: real, sum: real)
    requires n > 0.0 && IsMean(m, n, sum) && sum >= 0.0
    ensures m >= 0.0
  {
    DivideOut(0.0, m, n);
  }

  /** For the standard deviation itself, the nonnegative root of the variance: the mean lies
      between the extremes, stddev is at most half the range, and
      count * stddev^2 == sum of squares - count * mean^2. */
  lemma StddevLaws(st: SeriesStats, s: seq<real>, variance: real)
    requires Summarises(st, s, variance) && st.stddev >= 0.0 && Square(st.stddev) == variance
    ensures st.min <= st.mean <= st.max
    ensures st.stddev <= HalfRange(st.min, st.max)
    ensures Identity(Square(st.stddev), |s| as real, SumSq(s), st.mean)
  {
    MeanIsBetween(st, s, variance);
    VarianceIsBounded(st, s, variance);
    VarianceIdentity(st, s, variance);
    RootsCompare(st.stddev, HalfRange(st.min, st.max));
  }
}
