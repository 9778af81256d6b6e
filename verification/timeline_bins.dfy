/** Binning of `_build_timeline`: bin width, message counts and gap flags per bin. */
module TimelineBins {
  import opened Numbers
  import opened LossDetection

  const MIN_BINS := 600
  const MAX_BINS := 1800
  const NICE_WIDTHS: seq<real> := [0.05, 0.1, 0.2, 0.5, 1.0, 2.0, 5.0, 10.0, 20.0, 30.0, 60.0]

  /** The loop of `_calc_bin_width` from width `i` on, with the best width so far. */
  function PickWidth(duration: real, i: nat, best: real): real
    requires i <= |NICE_WIDTHS|
    decreases |NICE_WIDTHS| - i
  {
    if i == |NICE_WIDTHS| then best
    else
      var w := NICE_WIDTHS[i];
      if MIN_BINS as real <= duration / w <= MAX_BINS as real then w
      else if duration / w < MIN_BINS as real then best
      else PickWidth(duration, i + 1, w)
  }

  function BinWidth(duration: real): real {
    if duration <= 0.0 then 1.0 else PickWidth(duration, 0, NICE_WIDTHS[0])
  }

  method CalcBinWidth(duration: real) returns (best: real)
    ensures best == BinWidth(duration)
  {
    if duration <= 0.0 {
      return 1.0;
    }
    best := NICE_WIDTHS[0];
    for i := 0 to |NICE_WIDTHS|
      invariant BinWidth(duration) == PickWidth(duration, i, best)
    {
      var w := NICE_WIDTHS[i];
      var numBins := duration / w;
      if MIN_BINS as real <= numBins <= MAX_BINS as real {
        best := w;
        return;
      }
      if numBins < MIN_BINS as real {
        return;
      }
      best := w;
    }
  }

  function NumBins(duration: real, width: real): int
    requires width > 0.0
  {
    MaxInt(1, Ceil(duration / width))
  }

  function CountIn(ts: seq<real>, low: real, high: real): int {
    if ts == [] then 0 else (if low <= ts[0] < high then 1 else 0) + CountIn(ts[1..], low, high)
  }

  datatype Bin = Bin(t: real, count: int, expected: real, hasGap: bool, hasMinorLoss: bool)

  /** The gap reaches into the bin that starts `t` seconds in. */
  predicate Overlaps(g: RawGap, t: real, width: real) {
    g.at + g.what.duration > t && g.at < t + width
  }

  ghost predicate Flagged(gaps: seq<RawGap>, t: real, width: real, severity: Severity) {
    exists k :: 0 <= k < |gaps| && Overlaps(gaps[k], t, width) && gaps[k].what.severity == severity
  }

  /** What bin `i` must hold. */
  ghost predicate IsBin(b: Bin, ts: seq<real>, gaps: seq<RawGap>, start: real, width: real, expected: real, i: int) {
    var t := i as real * width;
    && b.t == t && b.expected == expected
    && b.count == CountIn(ts, start + t, start + t + width)
    && (b.hasGap <==> Flagged(gaps, t, width, Major))
    && (b.hasMinorLoss <==> Flagged(gaps, t, width, Minor))
  }

  /** The first `n` bins hold what they must. */
  ghost predicate Binned(bins: seq<Bin>, ts: seq<real>, gaps: seq<RawGap>, start: real, width: real, expected: real,
                         n: nat)
    requires n <= |bins|
  {
    n == 0 || (Binned(bins, ts, gaps, start, width, expected, n - 1)
               && IsBin(bins[n - 1], ts, gaps, start, width, expected, n - 1))
  }

  lemma {:induction false} BinnedAt(bins: seq<Bin>, ts: seq<real>, gaps: seq<RawGap>, start: real, width: real,
                                    expected: real, n: nat, i: nat)
    requires i < n <= |bins| && Binned(bins, ts, gaps, start, width, expected, n)
    ensures IsBin(bins[i], ts, gaps, start, width, expected, i)
  {
    if i < n - 1 { BinnedAt(bins, ts, gaps, start, width, expected, n - 1, i); }
  }

  lemma {:induction false} BinnedPrefix(bins: seq<Bin>, b: Bin, ts: seq<real>, gaps: seq<RawGap>, start: real,
                                        width: real, expected: real, n: nat)
    requires n <= |bins| && Binned(bins, ts, gaps, start, width, expected, n)
    ensures Binned(bins + [b], ts, gaps, start, width, expected, n)
  {
    if n > 0 { BinnedPrefix(bins, b, ts, gaps, start, width, expected, n - 1); }
  }

  method CountBetween(ts: seq<real>, low: real, high: real) returns (count: int)
    ensures count == CountIn(ts, low, high)
  {
    count := 0;
    for i := 0 to |ts|
      invariant CountIn(ts, low, high) == count + CountIn(ts[i..], low, high)
    {
      if low <= ts[i] < high {
        count := count + 1;
      }
      assert ts[i..][1..] == ts[i + 1..];
    }
  }

  method GapFlags(gaps: seq<RawGap>, t: real, width: real) returns (hasGap: bool, hasMinor: bool)
    ensures hasGap <==> Flagged(gaps, t, width, Major)
    ensures hasMinor <==> Flagged(gaps, t, width, Minor)
  {
    hasGap, hasMinor := false, false;
    for k := 0 to |gaps|
      invariant hasGap <==> exists j :: 0 <= j < k && Overlaps(gaps[j], t, width) && gaps[j].what.severity == Major
      invariant hasMinor <==> exists j :: 0 <= j < k && Overlaps(gaps[j], t, width) && gaps[j].what.severity == Minor
    {
      if Overlaps(gaps[k], t, width) {
        if gaps[k].what.severity == Major { hasGap := true; } else { hasMinor := true; }
      }
    }
  }

  method BuildBins(ts: seq<real>, gaps: seq<RawGap>, start: real, duration: real, hz: real)
    returns (width: real, bins: seq<Bin>)
    ensures width == BinWidth(duration) && width > 0.0
    ensures |bins| == NumBins(duration, width)
    ensures Binned(bins, ts, gaps, start, width, Max(0.1, hz * width), |bins|)
  {
    width := CalcBinWidth(duration);
    WidthPositive(duration);
    var expected := Max(0.1, hz * width);
    bins := [];
    for i := 0 to NumBins(duration, width)
      invariant |bins| == i
      invariant Binned(bins, ts, gaps, start, width, expected, i)
    {
      var b := BuildBin(ts, gaps, start, width, expected, i);
      BinnedPrefix(bins, b, ts, gaps, start, width, expected, i);
      bins := bins + [b];
    }
  }

  method BuildBin(ts: seq<real>, gaps: seq<RawGap>, start: real, width: real, expected: real, i: int) returns (b: Bin)
    ensures IsBin(b, ts, gaps, start, width, expected, i)
  {
    var t := i as real * width;
    var binStart := start + t;
    var count := CountBetween(ts, binStart, binStart + width);
    var hasGap, hasMinor := GapFlags(gaps, t, width);
    b := Bin(t, count, expected, hasGap, hasMinor);
  }

  // ---- Bin width ----

  lemma {:induction false} PickedIsNice(duration: real, i: nat, best: real)
    requires i <= |NICE_WIDTHS| && best in NICE_WIDTHS
    ensures PickWidth(duration, i, best) in NICE_WIDTHS
    decreases |NICE_WIDTHS| - i
  {
    if i < |NICE_WIDTHS| { PickedIsNice(duration, i + 1, NICE_WIDTHS[i]); }
  }

  /** Entering the loop at `i`, every earlier width gave more than 1800 bins, and neighbouring ranges overlap. */
  lemma {:induction false} PickedWidth(duration: real, i: nat, best: real)
    requires duration > 0.0 && i <= |NICE_WIDTHS|
    requires best == NICE_WIDTHS[if i == 0 then 0 else i - 1]
    requires i > 0 ==> duration > 1800.0 * best
    ensures Fitting(duration, PickWidth(duration, i, best))
    decreases |NICE_WIDTHS| - i
  {
    if i < |NICE_WIDTHS| {
      var w := NICE_WIDTHS[i];
      NiceWidths(i);
      WidthTest(duration, w, best);
      if duration / w > 1800.0 { PickedWidth(duration, i + 1, w); }
    }
  }

  /** The width gives 600 to 1800 bins, or it is the smallest or the largest and no other would do better. */
  predicate Fitting(duration: real, w: real) {
    w > 0.0 &&
    (600.0 * w <= duration <= 1800.0 * w || (w == 0.05 && duration < 30.0) || (w == 60.0 && duration > 108000.0))
  }

  /** Where one turn of the loop leaves the search. */
  lemma WidthTest(duration: real, w: real, best: real)
    requires w > 0.0 && duration > 0.0
    requires (w == 0.05 && best == 0.05) || (0.0 < w <= 3.0 * best && duration > 1800.0 * best)
    ensures 600.0 <= duration / w <= 1800.0 ==> Fitting(duration, w)
    ensures duration / w < 600.0 ==> Fitting(duration, best)
    ensures duration / w > 1800.0 ==> duration > 1800.0 * w
  {
    var n := duration / w;
    assert n * w == duration;
    CountAgainst(n, duration, w, 600.0);
    CountAgainst(n, duration, w, 1800.0);
  }

  /** The widths range from 0.05 s to 60 s, each at most three times the one before. */
  lemma NiceWidths(i: nat)
    requires i < |NICE_WIDTHS|
    ensures 0.05 <= NICE_WIDTHS[i] <= 60.0 && (i > 0 ==> NICE_WIDTHS[i] <= 3.0 * NICE_WIDTHS[i - 1])
    ensures (i == 0 ==> NICE_WIDTHS[i] == 0.05) && (i == |NICE_WIDTHS| - 1 ==> NICE_WIDTHS[i] == 60.0)
  {
  }

  lemma CountAgainst(n: real, duration: real, w: real, limit: real)
    requires w > 0.0 && n * w == duration
    ensures n < limit <==> duration < limit * w
    ensures n > limit <==> duration > limit * w
  {
    SameSign(n - limit, w);
    SameSign(limit - n, w);
    assert (n - limit) * w == duration - limit * w;
    assert (limit - n) * w == limit * w - duration;
  }

  lemma WidthPositive(duration: real)
    ensures BinWidth(duration) > 0.0
  {
    if duration > 0.0 { PickedWidth(duration, 0, NICE_WIDTHS[0]); }
  }

  lemma CeilBounds(x: real)
    ensures Ceil(x) as real - 1.0 < x <= Ceil(x) as real
  {
  }

  lemma BinsOfWidth(duration: real, w: real)
    requires w > 0.0
    ensures var n := NumBins(duration, w);
            && (n <= 1800 <==> duration <= 1800.0 * w)
            && (n >= 600 <==> duration > 599.0 * w)
  {
    var q := duration / w;
    assert q * w == duration;
    CeilBounds(q);
    CeilAgainst(q, 1800);
    CeilAgainst(q, 599);
    SameSign(q - 599.0, w);
    SameSign(q - 1800.0, w);
    assert (q - 599.0) * w == duration - 599.0 * w && (q - 1800.0) * w == duration - 1800.0 * w;
    assert q <= 1800.0 <==> duration <= 1800.0 * w;
    assert q > 599.0 <==> duration > 599.0 * w;
    var n := NumBins(duration, w);
    assert n == MaxInt(1, Ceil(q));
    assert n <= 1800 <==> Ceil(q) <= 1800;
    assert n >= 600 <==> Ceil(q) > 599;
  }

  lemma CeilAgainst(q: real, k: int)
    ensures Ceil(q) <= k <==> q <= k as real
  {
  }

  lemma NiceWidthRange(w: real)
    requires w in NICE_WIDTHS
    ensures 0.05 <= w <= 60.0
  {
  }

  /** The documented 600 to 1800 bins hold exactly for recordings longer than 29.95 seconds and at most 30 hours. */
  lemma BinCountInRange(duration: real)
    ensures BinWidth(duration) > 0.0
    ensures MIN_BINS <= NumBins(duration, BinWidth(duration)) <= MAX_BINS <==> 29.95 < duration <= 108000.0
  {
    WidthPositive(duration);
    var w := BinWidth(duration);
    BinsOfWidth(duration, w);
    if duration > 0.0 {
      PickedWidth(duration, 0, NICE_WIDTHS[0]);
      PickedIsNice(duration, 0, NICE_WIDTHS[0]);
      NiceWidthRange(w);
    }
  }

  // ---- Every message in one bin ----

  function SumCounts(bins: seq<Bin>, n: nat): int
    requires n <= |bins|
  {
    if n == 0 then 0 else SumCounts(bins, n - 1) + bins[n - 1].count
  }

  lemma {:induction false} CountsJoin(ts: seq<real>, low: real, mid: real, high: real)
    requires low <= mid <= high
    ensures CountIn(ts, low, mid) + CountIn(ts, mid, high) == CountIn(ts, low, high)
  {
    if ts != [] { CountsJoin(ts[1..], low, mid, high); }
  }

  lemma {:induction false} CountEmpty(ts: seq<real>, low: real)
    ensures CountIn(ts, low, low) == 0
  {
    if ts != [] { CountEmpty(ts[1..], low); }
  }

  /** The bins' counts add up to the messages before the end of the last bin: each is counted once. */
  lemma {:induction false} CountsAddUp(bins: seq<Bin>, ts: seq<real>, gaps: seq<RawGap>, start: real, width: real,
                                       expected: real, n: nat)
    requires width > 0.0 && n <= |bins| && Binned(bins, ts, gaps, start, width, expected, n)
    ensures SumCounts(bins, n) == CountIn(ts, start, start + End(n, width))
  {
    if n == 0 {
      CountEmpty(ts, start);
    } else {
      CountsAddUp(bins, ts, gaps, start, width, expected, n - 1);
      var t := (n - 1) as real * width;
      assert n as real * width == t + width;
      CountsJoin(ts, start, start + t, start + t + width);
    }
  }

  predicate InBinAt(x: real, start: real, width: real, i: int) {
    start + i as real * width <= x < start + i as real * width + width
  }

  /** A message lies in bin `i` and in no other. */
  lemma TheBinOf(x: real, start: real, width: real, n: nat) returns (i: int)
    requires width > 0.0 && start <= x < start + n as real * width
    ensures 0 <= i < n && InBinAt(x, start, width, i)
    ensures forall j :: InBinAt(x, start, width, j) ==> j == i
  {
    var d := x - start;
    var q := d / width;
    assert q * width == d;
    i := q.Floor;
    SameSign(n as real - q, width);
    assert (n as real - q) * width > 0.0;
    InBin(d, width, q, i);
    forall j | InBinAt(x, start, width, j) ensures j == i {
      OnlyBin(d, width, q, j);
    }
  }

  lemma InBin(d: real, width: real, q: real, i: int)
    requires width > 0.0 && q * width == d && d >= 0.0 && i == q.Floor
    ensures i >= 0 && i as real * width <= d < i as real * width + width
  {
    SameSign(-q, width);
    assert (-q) * width == -d;
    assert q >= 0.0;
    var f := q - i as real;
    assert 0.0 <= f < 1.0;
    assert i >= 0;
    assert f * width == d - i as real * width;
    assert (1.0 - f) * width == width - f * width;
    SameSign(1.0 - f, width);
    SameSign(-f, width);
    assert (-f) * width == -(f * width);
    assert f * width >= 0.0;
    assert width - f * width > 0.0;
  }

  lemma OnlyBin(d: real, width: real, q: real, j: int)
    requires width > 0.0 && q * width == d && j as real * width <= d < j as real * width + width
    ensures j == q.Floor
  {
    SameSign(j as real - q, width);
    SameSign(j as real + 1.0 - q, width);
    assert (j as real - q) * width == j as real * width - d;
    assert (j as real + 1.0 - q) * width == j as real * width + width - d;
    FloorBetween(q, j);
  }

  lemma FloorBetween(q: real, j: int)
    requires j as real <= q < j as real + 1.0
    ensures q.Floor == j
  {
  }

  lemma {:induction false} AllOrNot(ts: seq<real>, low: real, high: real)
    requires forall k :: 0 <= k < |ts| ==> low <= ts[k]
    ensures CountIn(ts, low, high) == |ts| <==> forall k :: 0 <= k < |ts| ==> ts[k] < high
    ensures CountIn(ts, low, high) <= |ts|
  {
    if ts != [] {
      assert ts == [ts[0]] + ts[1..];
      AllOrNot(ts[1..], low, high);
    }
  }

  /** No message is missing from the bins exactly when the recording is not a whole number of bins long or none of the
      topic's messages is the one that ends the recording: bins are half-open, and the last one has no successor. */
  lemma BinsHoldEveryMessage(bins: seq<Bin>, ts: seq<real>, gaps: seq<RawGap>, start: real, duration: real,
                             width: real, expected: real)
    requires width > 0.0 && |bins| == NumBins(duration, width)
    requires forall k :: 0 <= k < |ts| ==> start <= ts[k] <= start + duration
    requires Binned(bins, ts, gaps, start, width, expected, |bins|)
    ensures SumCounts(bins, |bins|) == |ts| <==>
            !(duration == End(|bins|, width) && exists k :: 0 <= k < |ts| && ts[k] == start + duration)
  {
    CountsAddUp(bins, ts, gaps, start, width, expected, |bins|);
    LastBinEnds(duration, width);
    LastMessageDecides(ts, start, duration, End(|bins|, width));
  }

  /** A recording of 30 s gets 600 bins of 0.05 s, which end where it ends: its last message is in none of them. */
  lemma LastMessageIsLost(bins: seq<Bin>, gaps: seq<RawGap>, start: real, expected: real)
    requires |bins| == NumBins(30.0, BinWidth(30.0)) && BinWidth(30.0) > 0.0
    requires Binned(bins, [start, start + 30.0], gaps, start, BinWidth(30.0), expected, |bins|)
    ensures BinWidth(30.0) == 0.05 && |bins| == 600
    ensures SumCounts(bins, |bins|) == 1
  {
    var ts := [start, start + 30.0];
    CountsAddUp(bins, ts, gaps, start, 0.05, expected, 600);
    assert 600 as real * 0.05 == 30.0 && ts[1..] == [start + 30.0] && ts[1..][1..] == [];
    assert CountIn(ts, start, start + 30.0) == 1 + CountIn(ts[1..], start, start + 30.0);
    assert CountIn(ts[1..], start, start + 30.0) == CountIn(ts[1..][1..], start, start + 30.0);
  }

  /** `n` bins of this width. */
  function End(n: int, width: real): real { n as real * width }

  lemma LastMessageDecides(ts: seq<real>, start: real, duration: real, end: real)
    requires end >= duration && forall k :: 0 <= k < |ts| ==> start <= ts[k] <= start + duration
    ensures CountIn(ts, start, start + end) == |ts| <==>
            !(duration == end && exists k :: 0 <= k < |ts| && ts[k] == start + duration)
  {
    AllOrNot(ts, start, start + end);
  }

  lemma LastBinEnds(duration: real, width: real)
    requires width > 0.0
    ensures End(NumBins(duration, width), width) >= duration
  {
    var q, n := duration / width, NumBins(duration, width);
    assert q * width == duration;
    CeilBounds(q);
    SameSign(q - n as real, width);
    assert (q - n as real) * width == duration - n as real * width;
  }

  /** Every gap inside the recording lights a bin, with its own severity. */
  lemma GapIsVisible(bins: seq<Bin>, ts: seq<real>, gaps: seq<RawGap>, start: real, width: real, expected: real, k: nat)
    returns (i: int)
    requires width > 0.0 && k < |gaps| && 0.0 <= gaps[k].at < |bins| as real * width && gaps[k].what.duration > 0.0
    requires Binned(bins, ts, gaps, start, width, expected, |bins|)
    ensures 0 <= i < |bins| && bins[i].t <= gaps[k].at < bins[i].t + width
    ensures if gaps[k].what.severity == Major then bins[i].hasGap else bins[i].hasMinorLoss
  {
    i := TheBinOf(gaps[k].at, 0.0, width, |bins|);
    BinnedAt(bins, ts, gaps, start, width, expected, |bins|, i);
    assert Overlaps(gaps[k], i as real * width, width);
    assert Flagged(gaps, i as real * width, width, gaps[k].what.severity);
  }

  /** Some gap of this severity and the bin share a moment. */
  ghost predicate MeetsGap(b: Bin, gaps: seq<RawGap>, width: real, severity: Severity) {
    exists k, x: real :: 0 <= k < |gaps| && gaps[k].what.severity == severity && InBoth(gaps[k], b.t, width, x)
  }

  /** The moment lies inside both the gap and the bin that starts `t` seconds in. */
  predicate InBoth(g: RawGap, t: real, width: real, x: real) {
    g.at < x < g.at + g.what.duration && t < x < t + width
  }

  lemma OverlapIsShared(g: RawGap, t: real, width: real)
    requires width > 0.0 && g.what.duration > 0.0
    ensures Overlaps(g, t, width) <==> exists x: real :: InBoth(g, t, width, x)
  {
    if Overlaps(g, t, width) {
      var low := Max(g.at, t);
      var high := if g.at + g.what.duration <= t + width then g.at + g.what.duration else t + width;
      assert InBoth(g, t, width, (low + high) / 2.0);
    }
  }

  lemma FlaggedMeets(b: Bin, gaps: seq<RawGap>, width: real, severity: Severity)
    requires width > 0.0 && forall k :: 0 <= k < |gaps| ==> gaps[k].what.duration > 0.0
    ensures Flagged(gaps, b.t, width, severity) <==> MeetsGap(b, gaps, width, severity)
  {
    if Flagged(gaps, b.t, width, severity) {
      var k :| 0 <= k < |gaps| && Overlaps(gaps[k], b.t, width) && gaps[k].what.severity == severity;
      OverlapIsShared(gaps[k], b.t, width);
      var x :| InBoth(gaps[k], b.t, width, x);
    }
    if MeetsGap(b, gaps, width, severity) {
      var k, x :| 0 <= k < |gaps| && gaps[k].what.severity == severity && InBoth(gaps[k], b.t, width, x);
      OverlapIsShared(gaps[k], b.t, width);
    }
  }

  /** A bin is flagged exactly when a gap of that severity reaches into it. */
  lemma FlagsMeetGaps(bins: seq<Bin>, ts: seq<real>, gaps: seq<RawGap>, start: real, width: real, expected: real,
                      i: nat)
    requires width > 0.0 && forall k :: 0 <= k < |gaps| ==> gaps[k].what.duration > 0.0
    requires i < |bins| && Binned(bins, ts, gaps, start, width, expected, |bins|)
    ensures bins[i].t == End(i, width) && bins[i].expected == expected
    ensures bins[i].hasGap <==> MeetsGap(bins[i], gaps, width, Major)
    ensures bins[i].hasMinorLoss <==> MeetsGap(bins[i], gaps, width, Minor)
  {
    BinnedAt(bins, ts, gaps, start, width, expected, |bins|, i);
    FlaggedMeets(bins[i], gaps, width, Major);
    FlaggedMeets(bins[i], gaps, width, Minor);
  }

  /** The width is the smallest that gives at most 1800 bins, or the largest when none does. */
  lemma WidthIsTheSmallest(duration: real, i: nat)
    requires duration > 0.0 && i < |NICE_WIDTHS|
    ensures NICE_WIDTHS[i] < BinWidth(duration) ==> duration > 1800.0 * NICE_WIDTHS[i]
    ensures duration <= 1800.0 * BinWidth(duration) || BinWidth(duration) == 60.0
    ensures BinWidth(duration) in NICE_WIDTHS
  {
    PickedWidth(duration, 0, NICE_WIDTHS[0]);
    PickedIsNice(duration, 0, NICE_WIDTHS[0]);
    SmallerIsTooSmall(duration, 0, NICE_WIDTHS[0], i);
  }

  lemma {:induction false} SmallerIsTooSmall(duration: real, from: nat, best: real, i: nat)
    requires duration > 0.0 && from <= |NICE_WIDTHS| && i < |NICE_WIDTHS|
    requires best == NICE_WIDTHS[if from == 0 then 0 else from - 1]
    requires forall k :: 0 <= k < from ==> duration > 1800.0 * NICE_WIDTHS[k]
    ensures NICE_WIDTHS[i] < PickWidth(duration, from, best) ==> duration > 1800.0 * NICE_WIDTHS[i]
    decreases |NICE_WIDTHS| - from
  {
    if from < |NICE_WIDTHS| {
      var w := NICE_WIDTHS[from];
      NiceWidths(from);
      WidthTest(duration, w, best);
      if duration / w > 1800.0 { SmallerIsTooSmall(duration, from + 1, w, i); }
    }
  }
}
