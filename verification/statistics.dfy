/** The streaming feature statistics of `stats.py`, proved equal to direct reductions over everything folded in. */
module Statistics {
  import opened Wrappers
  import opened Numbers
  import opened Sequences

  // ---- Direct reductions ----

  function Sum(xs: seq<real>): real {
    if xs == [] then 0.0 else Sum(xs[..|xs| - 1]) + xs[|xs| - 1]
  }

  function Square(x: real): (r: real)
    ensures r >= 0.0
  {
    x * x
  }

  function Squares(xs: seq<real>): real {
    if xs == [] then 0.0 else Squares(xs[..|xs| - 1]) + Square(xs[|xs| - 1])
  }

  /** The summed squared distance from `m`. */
  function Deviations(xs: seq<real>, m: real): (r: real)
    ensures r >= 0.0
  {
    if xs == [] then 0.0 else Deviations(xs[..|xs| - 1], m) + Square(xs[|xs| - 1] - m)
  }

  ghost predicate IsLowest(low: Option<real>, xs: seq<real>) {
    if xs == [] then low == None else low.Some? && low.value in xs && forall i :: 0 <= i < |xs| ==> low.value <= xs[i]
  }

  ghost predicate IsHighest(high: Option<real>, xs: seq<real>) {
    if xs == [] then high == None
    else high.Some? && high.value in xs && forall i :: 0 <= i < |xs| ==> xs[i] <= high.value
  }

  /** `n` equal shares of `mean`. */
  function Total(mean: real, n: nat): real { mean * n as real }

  /** The total over the count, an empty count taken as one. */
  function Average(total: real, count: nat): real { total / MaxInt(count, 1) as real }

  lemma TotalOfAverage(total: real, n: nat)
    requires n > 0
    ensures Total(Average(total, n), n) == total
  {
  }

  /** One component's published statistics; the published deviation is the square root of the variance. `None` is the
      infinity a minimum or maximum starts from. */
  datatype Stat = Stat(low: Option<real>, high: Option<real>, mean: real, variance: real)

  /** The statistics are the minimum, maximum, mean and mean squared distance from the mean of the samples. */
  ghost predicate Describes(s: Stat, xs: seq<real>) {
    && IsLowest(s.low, xs) && IsHighest(s.high, xs)
    && Total(s.mean, |xs|) == Sum(xs)
    && Total(s.variance, |xs|) == Deviations(xs, s.mean)
  }

  lemma {:induction false} SumAppends(xs: seq<real>, ys: seq<real>)
    ensures Sum(xs + ys) == Sum(xs) + Sum(ys)
    ensures Squares(xs + ys) == Squares(xs) + Squares(ys)
  {
    if ys == [] {
      assert xs + ys == xs;
    } else {
      assert (xs + ys)[..|xs + ys| - 1] == xs + ys[..|ys| - 1];
      SumAppends(xs, ys[..|ys| - 1]);
    }
  }

  /** The summed squared distances from `m` of `n` samples with sum `s` and square sum `q`. */
  function Expanded(n: real, s: real, q: real, m: real): real { q - 2.0 * m * s + n * m * m }

  lemma ExpandedOneMore(n: real, s: real, q: real, x: real, m: real)
    ensures Expanded(n + 1.0, s + x, q + Square(x), m) == Expanded(n, s, q, m) + Square(x - m)
  {
  }

  lemma {:induction false} DeviationsExpand(xs: seq<real>, m: real)
    ensures Deviations(xs, m) == Expanded(|xs| as real, Sum(xs), Squares(xs), m)
  {
    if xs != [] {
      var init, x := xs[..|xs| - 1], xs[|xs| - 1];
      DeviationsExpand(init, m);
      ExpandedOneMore(|init| as real, Sum(init), Squares(init), x, m);
      assert |xs| as real == |init| as real + 1.0;
    }
  }

  /** About the mean, the expansion times the count is n·Σx² - (Σx)². */
  lemma AboutTheMean(n: real, mean: real, s: real, q: real)
    requires mean * n == s
    ensures Expanded(n, s, q, mean) == q - mean * s
    ensures n * (mean * s) == s * s
  {
    assert n * mean * mean == mean * (mean * n);
    assert n * (mean * s) == (mean * n) * s;
  }

  lemma DominateFrom(n: real, s: real, q: real)
    requires n > 0.0 && Expanded(n, s, q, s / n) >= 0.0
    ensures n * q >= s * s
  {
    var mean := s / n;
    AboutTheMean(n, mean, s, q);
    Product(n, q - mean * s);
    assert n * (q - mean * s) == n * q - n * (mean * s);
  }

  /** n·Σx² ≥ (Σx)². */
  lemma SquaresDominate(xs: seq<real>)
    ensures |xs| as real * Squares(xs) >= Sum(xs) * Sum(xs)
  {
    if xs != [] {
      ExpandedIsPositive(xs, Sum(xs) / |xs| as real);
      DominateFrom(|xs| as real, Sum(xs), Squares(xs));
    }
  }

  lemma ExpandedIsPositive(xs: seq<real>, m: real)
    ensures Expanded(|xs| as real, Sum(xs), Squares(xs), m) >= 0.0
  {
    DeviationsExpand(xs, m);
  }

  lemma MomentProduct(n: real, mean: real, meanSquare: real)
    ensures (meanSquare - mean * mean) * n == meanSquare * n - mean * (mean * n)
  {
  }

  lemma NonNegativeQuotient(x: real, n: real)
    requires n > 0.0 && x * n >= 0.0
    ensures x >= 0.0
  {
    if x < 0.0 { SameSign(-x, n); }
  }

  /** The clamped variance. */
  function Variance(mean: real, meanSquare: real): real { Max(meanSquare - mean * mean, 0.0) }

  lemma VarianceFrom(n: nat, s: real, q: real, mean: real, meanSquare: real)
    requires n > 0 && Total(mean, n) == s && Total(meanSquare, n) == q && Expanded(n as real, s, q, mean) >= 0.0
    ensures Variance(mean, meanSquare) == meanSquare - mean * mean
    ensures Total(Variance(mean, meanSquare), n) == Expanded(n as real, s, q, mean)
  {
    AboutTheMean(n as real, mean, s, q);
    MomentProduct(n as real, mean, meanSquare);
    NonNegativeQuotient(meanSquare - mean * mean, n as real);
  }

  /** The variance from the moments needs no clamp and is the mean squared distance from the mean. */
  lemma MomentsGiveVariance(xs: seq<real>, mean: real, meanSquare: real)
    requires xs != [] && Total(mean, |xs|) == Sum(xs) && Total(meanSquare, |xs|) == Squares(xs)
    ensures Variance(mean, meanSquare) == meanSquare - mean * mean
    ensures Total(Variance(mean, meanSquare), |xs|) == Deviations(xs, mean)
  {
    DeviationsExpand(xs, mean);
    VarianceFrom(|xs|, Sum(xs), Squares(xs), mean, meanSquare);
  }

  lemma LowestExtends(low: Option<real>, xs: seq<real>, x: real)
    requires IsLowest(low, xs)
    ensures IsLowest(Lower(low, x), xs + [x])
  {
    assert (xs + [x])[|xs|] == x;
    assert forall y :: y in xs ==> y in xs + [x];
  }

  lemma HighestExtends(high: Option<real>, xs: seq<real>, x: real)
    requires IsHighest(high, xs)
    ensures IsHighest(Higher(high, x), xs + [x])
  {
    assert (xs + [x])[|xs|] == x;
    assert forall y :: y in xs ==> y in xs + [x];
  }

  // ---- Vector features ----

  predicate Fits(samples: seq<Vector>, dim: nat) { forall i :: 0 <= i < |samples| ==> |samples[i]| == dim }

  function Component(samples: seq<Vector>, dim: nat, d: nat): (r: seq<real>)
    requires Fits(samples, dim) && d < dim
    ensures |r| == |samples| && forall i :: 0 <= i < |r| ==> r[i] == samples[i][d]
  {
    seq(|samples|, i requires 0 <= i < |samples| => samples[i][d])
  }

  function Lower(low: Option<real>, x: real): Option<real> { if low.None? || x < low.value then Some(x) else low }

  function Higher(high: Option<real>, x: real): Option<real> { if high.None? || x > high.value then Some(x) else high }

  /** The running fields of one vector feature. */
  datatype VectorSums = VectorSums(count: nat, sum: Vector, sumsq: Vector, low: seq<Option<real>>,
                                   high: seq<Option<real>>)

  predicate HasDim(s: VectorSums, dim: nat) { |s.sum| == |s.sumsq| == |s.low| == |s.high| == dim }

  function NewVectorSums(dim: nat): VectorSums {
    VectorSums(0, seq(dim, _ => 0.0), seq(dim, _ => 0.0), seq(dim, _ => None), seq(dim, _ => None))
  }

  function PlusEach(a: Vector, b: Vector): (r: Vector)
    requires |a| == |b|
    ensures |r| == |a| && forall d :: 0 <= d < |r| ==> r[d] == a[d] + b[d]
  {
    seq(|a|, d requires 0 <= d < |a| => a[d] + b[d])
  }

  function SquareEach(v: Vector): (r: Vector)
    ensures |r| == |v| && forall d :: 0 <= d < |r| ==> r[d] == Square(v[d])
  {
    seq(|v|, d requires 0 <= d < |v| => Square(v[d]))
  }

  function LowerEach(low: seq<Option<real>>, v: Vector): (r: seq<Option<real>>)
    requires |low| == |v|
    ensures |r| == |v| && forall d :: 0 <= d < |r| ==> r[d] == Lower(low[d], v[d])
  {
    seq(|v|, d requires 0 <= d < |v| => Lower(low[d], v[d]))
  }

  function HigherEach(high: seq<Option<real>>, v: Vector): (r: seq<Option<real>>)
    requires |high| == |v|
    ensures |r| == |v| && forall d :: 0 <= d < |r| ==> r[d] == Higher(high[d], v[d])
  {
    seq(|v|, d requires 0 <= d < |v| => Higher(high[d], v[d]))
  }

  function AddVector(s: VectorSums, v: Vector): (r: VectorSums)
    requires HasDim(s, |v|)
    ensures HasDim(r, |v|)
  {
    VectorSums(s.count + 1, PlusEach(s.sum, v), PlusEach(s.sumsq, SquareEach(v)), LowerEach(s.low, v),
               HigherEach(s.high, v))
  }

  function FoldVectors(samples: seq<Vector>, dim: nat): (r: VectorSums)
    requires Fits(samples, dim)
    ensures HasDim(r, dim)
  {
    if samples == [] then NewVectorSums(dim)
    else AddVector(FoldVectors(samples[..|samples| - 1], dim), samples[|samples| - 1])
  }

  lemma FoldOneMoreVector(samples: seq<Vector>, v: Vector, dim: nat)
    requires Fits(samples, dim) && |v| == dim
    ensures Fits(samples + [v], dim) && FoldVectors(samples + [v], dim) == AddVector(FoldVectors(samples, dim), v)
  {
    assert (samples + [v])[..|samples|] == samples;
  }

  /** `VectorStats.stats`, per dimension. */
  function VectorStat(s: VectorSums, d: nat): Stat
    requires d < |s.sum| && HasDim(s, |s.sum|)
  {
    var mean := Average(s.sum[d], s.count);
    Stat(s.low[d], s.high[d], mean, Variance(mean, Average(s.sumsq[d], s.count)))
  }

  lemma {:induction false} FoldedVectors(samples: seq<Vector>, dim: nat, d: nat)
    requires Fits(samples, dim) && d < dim
    ensures var s, xs := FoldVectors(samples, dim), Component(samples, dim, d);
            && s.count == |samples| && s.sum[d] == Sum(xs) && s.sumsq[d] == Squares(xs)
            && IsLowest(s.low[d], xs) && IsHighest(s.high[d], xs)
  {
    if samples != [] {
      var init, x := samples[..|samples| - 1], samples[|samples| - 1][d];
      FoldedVectors(init, dim, d);
      var s, xs := FoldVectors(init, dim), Component(init, dim, d);
      assert Component(samples, dim, d) == xs + [x];
      LowestExtends(s.low[d], xs, x);
      HighestExtends(s.high[d], xs, x);
      SumOneMore(xs, x);
    }
  }

  lemma {:induction false} FoldedCount(samples: seq<Vector>, dim: nat)
    requires Fits(samples, dim)
    ensures FoldVectors(samples, dim).count == |samples|
  {
    if samples != [] { FoldedCount(samples[..|samples| - 1], dim); }
  }

  lemma SumOneMore(xs: seq<real>, x: real)
    ensures Sum(xs + [x]) == Sum(xs) + x && Squares(xs + [x]) == Squares(xs) + Square(x)
  {
    assert (xs + [x])[..|xs|] == xs;
  }

  /** The published statistics of a vector feature are those of the samples themselves, and the clamp never acts. */
  lemma VectorStatsAreDirect(samples: seq<Vector>, dim: nat, d: nat)
    requires Fits(samples, dim) && d < dim
    ensures Describes(VectorStat(FoldVectors(samples, dim), d), Component(samples, dim, d))
  {
    FoldedVectors(samples, dim, d);
    var xs := Component(samples, dim, d);
    MomentsDescribe(xs);
  }

  lemma MomentsDescribe(xs: seq<real>)
    ensures var mean := Average(Sum(xs), |xs|);
            && Total(mean, |xs|) == Sum(xs)
            && Total(Variance(mean, Average(Squares(xs), |xs|)), |xs|) == Deviations(xs, mean)
  {
    if xs != [] {
      TotalOfAverage(Sum(xs), |xs|);
      TotalOfAverage(Squares(xs), |xs|);
      MomentsGiveVariance(xs, Average(Sum(xs), |xs|), Average(Squares(xs), |xs|));
    }
  }

  /** `VectorStats`. */
  class VectorStats {
    const dim: nat
    var count: nat
    var sum: Vector
    var sumsq: Vector
    var low: seq<Option<real>>
    var high: seq<Option<real>>

    constructor (dim: nat)
      ensures this.dim == dim && Sums() == FoldVectors([], dim)
    {
      this.dim := dim;
      count := 0;
      sum, sumsq := seq(dim, _ => 0.0), seq(dim, _ => 0.0);
      low, high := seq(dim, _ => None), seq(dim, _ => None);
    }

    function Sums(): VectorSums
      reads this
    {
      VectorSums(count, sum, sumsq, low, high)
    }

    method Add(v: Vector, ghost samples: seq<Vector>)
      requires |v| == dim && Fits(samples, dim) && Sums() == FoldVectors(samples, dim)
      modifies this
      ensures Fits(samples + [v], dim) && Sums() == FoldVectors(samples + [v], dim)
    {
      count := count + 1;
      sum := PlusEach(sum, v);
      sumsq := PlusEach(sumsq, SquareEach(v));
      low := LowerEach(low, v);
      high := HigherEach(high, v);
      FoldOneMoreVector(samples, v, dim);
    }

    method Stats(ghost samples: seq<Vector>) returns (stats: seq<Stat>, published: nat)
      requires Fits(samples, dim) && Sums() == FoldVectors(samples, dim)
      ensures |stats| == dim && published == |samples|
      ensures forall d :: 0 <= d < dim ==> Describes(stats[d], Component(samples, dim, d))
    {
      stats := seq(dim, d requires 0 <= d < dim && HasDim(Sums(), dim) reads this => VectorStat(Sums(), d));
      forall d | 0 <= d < dim ensures Describes(stats[d], Component(samples, dim, d)) {
        VectorStatsAreDirect(samples, dim, d);
      }
      published := count;
      FoldedCount(samples, dim);
    }
  }

  // ---- Pooling ----

  /** Each part has samples and its own statistics. */
  ghost predicate DescribesEach(stats: seq<Stat>, parts: seq<seq<real>>) {
    && |stats| == |parts|
    && forall k :: 0 <= k < |parts| ==> parts[k] != [] && Describes(stats[k], parts[k])
  }

  /** The parts' means weighted by their sample counts. */
  ghost function PooledTotal(stats: seq<Stat>, parts: seq<seq<real>>): real
    requires |stats| == |parts|
  {
    if parts == [] then 0.0
    else
      var k := |parts| - 1;
      PooledTotal(stats[..k], parts[..k]) + Total(stats[k].mean, |parts[k]|)
  }

  /** The parts' mean squares, each the variance plus the squared mean, weighted by their sample counts. */
  ghost function PooledSquares(stats: seq<Stat>, parts: seq<seq<real>>): real
    requires |stats| == |parts|
  {
    if parts == [] then 0.0
    else
      var k := |parts| - 1;
      PooledSquares(stats[..k], parts[..k]) + Total(stats[k].variance + Square(stats[k].mean), |parts[k]|)
  }

  lemma SquaresFromMean(n: nat, mean: real, variance: real, s: real, q: real)
    requires Total(mean, n) == s && Total(variance, n) == Expanded(n as real, s, q, mean)
    ensures Total(variance + Square(mean), n) == q
  {
    AboutTheMean(n as real, mean, s, q);
    assert (mean * mean) * n as real == mean * (mean * n as real);
    assert (variance + mean * mean) * n as real == variance * n as real + (mean * mean) * n as real;
  }

  lemma SquaresFromStat(s: Stat, xs: seq<real>)
    requires Describes(s, xs)
    ensures Total(s.variance + Square(s.mean), |xs|) == Squares(xs)
  {
    DeviationsExpand(xs, s.mean);
    SquaresFromMean(|xs|, s.mean, s.variance, Sum(xs), Squares(xs));
  }

  lemma {:induction false} PooledSums(stats: seq<Stat>, parts: seq<seq<real>>)
    requires DescribesEach(stats, parts)
    ensures PooledTotal(stats, parts) == Sum(Flat(parts))
    ensures PooledSquares(stats, parts) == Squares(Flat(parts))
  {
    if parts != [] {
      var k := |parts| - 1;
      PooledSums(stats[..k], parts[..k]);
      PooledOneMore(stats[k], parts[k], Flat(parts[..k]));
      assert Flat(parts) == Flat(parts[..k]) + parts[k];
    }
  }

  lemma PooledOneMore(s: Stat, xs: seq<real>, before: seq<real>)
    requires Describes(s, xs)
    ensures Sum(before + xs) == Sum(before) + Total(s.mean, |xs|)
    ensures Squares(before + xs) == Squares(before) + Total(s.variance + Square(s.mean), |xs|)
  {
    SquaresFromStat(s, xs);
    SumAppends(before, xs);
  }

  lemma At(x: real, xs: seq<real>) returns (i: nat)
    requires x in xs
    ensures i < |xs| && xs[i] == x
  {
    i :| 0 <= i < |xs| && xs[i] == x;
  }

  lemma PooledLowest(whole: Stat, stats: seq<Stat>, parts: seq<seq<real>>) returns (k: nat)
    requires DescribesEach(stats, parts) && Flat(parts) != [] && IsLowest(whole.low, Flat(parts))
    ensures k < |stats| && stats[k].low == whole.low
    ensures forall l :: 0 <= l < |stats| ==> whole.low.value <= stats[l].low.value
  {
    forall l | 0 <= l < |stats| ensures whole.low.value <= stats[l].low.value {
      var j := At(stats[l].low.value, parts[l]);
      FlatAt(parts, l, j);
    }
    var i := At(whole.low.value, Flat(parts));
    var part, j := FromPart(parts, i);
    k := part;
    assert stats[k].low.value <= parts[k][j];
  }

  lemma PooledHighest(whole: Stat, stats: seq<Stat>, parts: seq<seq<real>>) returns (k: nat)
    requires DescribesEach(stats, parts) && Flat(parts) != [] && IsHighest(whole.high, Flat(parts))
    ensures k < |stats| && stats[k].high == whole.high
    ensures forall l :: 0 <= l < |stats| ==> stats[l].high.value <= whole.high.value
  {
    forall l | 0 <= l < |stats| ensures stats[l].high.value <= whole.high.value {
      var j := At(stats[l].high.value, parts[l]);
      FlatAt(parts, l, j);
    }
    var i := At(whole.high.value, Flat(parts));
    var part, j := FromPart(parts, i);
    k := part;
    assert parts[k][j] <= stats[k].high.value;
  }

  /** The statistics of everything are those of the parts combined: the extreme of the extremes, and the mean and mean
      square weighted by sample counts. */
  ghost predicate Combines(whole: Stat, stats: seq<Stat>, parts: seq<seq<real>>) {
    && |stats| == |parts|
    && Total(whole.mean, |Flat(parts)|) == PooledTotal(stats, parts)
    && Total(whole.variance + Square(whole.mean), |Flat(parts)|) == PooledSquares(stats, parts)
    && whole.low.Some? && whole.high.Some?
    && (exists k :: 0 <= k < |stats| && stats[k].low == whole.low)
    && (exists k :: 0 <= k < |stats| && stats[k].high == whole.high)
    && forall k :: 0 <= k < |stats| ==>
         && stats[k].low.Some? && whole.low.value <= stats[k].low.value
         && stats[k].high.Some? && stats[k].high.value <= whole.high.value
  }

  lemma StatsCombine(whole: Stat, stats: seq<Stat>, parts: seq<seq<real>>)
    requires DescribesEach(stats, parts) && Flat(parts) != [] && Describes(whole, Flat(parts))
    ensures Combines(whole, stats, parts)
  {
    PooledSums(stats, parts);
    SquaresFromStat(whole, Flat(parts));
    var low := PooledLowest(whole, stats, parts);
    var high := PooledHighest(whole, stats, parts);
  }
}
