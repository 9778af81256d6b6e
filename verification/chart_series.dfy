/** The browser's two charts over the timeline bins: the loss-rate series (`loss-rate-utils.ts`) and the smoothed
    heatmap deficits (`heatmap-utils.ts`). Both use prefix sums; the specifications are direct sums over the bins of a
    window. */
module ChartSeries {
  import opened Numbers

  const WINDOW_SEC := 1.0
  const STEP_SEC := 0.1

  /** A timeline bin as the charts read it. */
  datatype ChartBin = ChartBin(received: nat, expected: real)

  /** Both columns summed over the bins `low <= j < high`. */
  function Received(bins: seq<ChartBin>, low: nat, high: nat): int
    requires low <= high <= |bins|
  {
    if low == high then 0 else Received(bins, low, high - 1) + bins[high - 1].received
  }

  function Expected(bins: seq<ChartBin>, low: nat, high: nat): real
    requires low <= high <= |bins|
  {
    if low == high then 0.0 else Expected(bins, low, high - 1) + bins[high - 1].expected
  }

  /** The share of expected messages that a window is missing. */
  function Deficit(received: int, expected: real): real
    requires expected > 0.0
  {
    Max(0.0, 1.0 - received as real / expected)
  }

  lemma {:induction false} ReceivedSplit(bins: seq<ChartBin>, low: nat, high: nat)
    requires low <= high <= |bins|
    ensures Received(bins, 0, high) == Received(bins, 0, low) + Received(bins, low, high)
    ensures Received(bins, low, high) >= 0
  {
    if low == high {
    } else {
      ReceivedSplit(bins, low, high - 1);
    }
  }

  lemma {:induction false} ExpectedSplit(bins: seq<ChartBin>, low: nat, high: nat)
    requires low <= high <= |bins|
    ensures Expected(bins, 0, high) == Expected(bins, 0, low) + Expected(bins, low, high)
  {
    if low == high {
    } else {
      ExpectedSplit(bins, low, high - 1);
    }
  }

  /** A window never misses more than everything, nor less than nothing. */
  lemma DeficitRange(received: int, expected: real)
    requires received >= 0 && expected > 0.0
    ensures 0.0 <= Deficit(received, expected) <= 1.0
  {
    var share := received as real / expected;
    assert share * expected == received as real;
    SameSign(-share, expected);
    assert (-share) * expected == -(received as real);
  }

  /** The two prefix-sum arrays. */
  method PrefixSums(bins: seq<ChartBin>) returns (received: array<int>, expected: array<real>)
    ensures ArePrefixSums(received, expected, bins) && fresh(received) && fresh(expected)
  {
    received, expected := new int[|bins| + 1], new real[|bins| + 1];
    received[0], expected[0] := 0, 0.0;
    for j := 0 to |bins|
      invariant forall k :: 0 <= k <= j ==> received[k] == Received(bins, 0, k) && expected[k] == Expected(bins, 0, k)
    {
      received[j + 1] := received[j] + bins[j].received;
      expected[j + 1] := expected[j] + bins[j].expected;
    }
  }

  /** The deficit of a window by direct summation, 0 where nothing is expected. */
  function DeficitOver(bins: seq<ChartBin>, low: nat, high: nat): real
    requires low <= high <= |bins|
  {
    if Expected(bins, low, high) > 0.0 then Deficit(Received(bins, low, high), Expected(bins, low, high)) else 0.0
  }

  ghost predicate ArePrefixSums(received: array<int>, expected: array<real>, bins: seq<ChartBin>)
    reads received, expected
  {
    && received.Length == expected.Length == |bins| + 1
    && forall j :: 0 <= j <= |bins| ==> received[j] == Received(bins, 0, j) && expected[j] == Expected(bins, 0, j)
  }

  /** One window read off the prefix sums. */
  method WindowDeficit(received: array<int>, expected: array<real>, low: nat, high: nat, ghost bins: seq<ChartBin>)
    returns (d: real)
    requires ArePrefixSums(received, expected, bins) && low <= high <= |bins|
    ensures d == DeficitOver(bins, low, high) && 0.0 <= d <= 1.0
  {
    ReceivedSplit(bins, low, high);
    ExpectedSplit(bins, low, high);
    var inWindow := received[high] - received[low];
    var due := expected[high] - expected[low];
    if due <= 0.0 {
      return 0.0;
    }
    DeficitRange(inWindow, due);
    d := Deficit(inWindow, due);
  }

  // ---- Loss-rate series ----

  /** The window of point `i` around `i * STEP_SEC`, as bin indices. */
  function Low(i: nat, width: real): nat
    requires width > 0.0
  {
    MaxInt(0, ((i as real * STEP_SEC - WINDOW_SEC / 2.0) / width).Floor)
  }

  function High(i: nat, width: real, n: nat): int
    requires width > 0.0
  {
    MinInt(n, Ceil((i as real * STEP_SEC + WINDOW_SEC / 2.0) / width))
  }

  /** The loss percentage over the bins of the window, by direct summation; 0 for an empty or rateless window. */
  function LossPoint(bins: seq<ChartBin>, i: nat, width: real): real
    requires width > 0.0
  {
    var low, high := Low(i, width), High(i, width, |bins|);
    if high <= low then 0.0 else DeficitOver(bins, low, high) * 100.0
  }

  method BuildTopicLossRateSeries(expectedHz: real, bins: seq<ChartBin>, numPoints: nat, width: real)
    returns (ys: array<real>)
    ensures ys.Length == numPoints
    ensures expectedHz <= 0.0 || bins == [] || width <= 0.0 ==> forall i :: 0 <= i < numPoints ==> ys[i] == 0.0
    ensures expectedHz > 0.0 && bins != [] && width > 0.0 ==>
              forall i :: 0 <= i < numPoints ==> ys[i] == LossPoint(bins, i, width)
    ensures forall i :: 0 <= i < numPoints ==> 0.0 <= ys[i] <= 100.0
  {
    ys := new real[numPoints](_ => 0.0);
    if expectedHz <= 0.0 || |bins| == 0 || width <= 0.0 {
      return;
    }
    var prefReceived, prefExpected := PrefixSums(bins);
    for i := 0 to numPoints
      invariant ArePrefixSums(prefReceived, prefExpected, bins)
      invariant forall k :: 0 <= k < i ==> ys[k] == LossPoint(bins, k, width) && 0.0 <= ys[k] <= 100.0
      invariant forall k :: i <= k < numPoints ==> ys[k] == 0.0
    {
      var y := PointOf(prefReceived, prefExpected, i, width, bins);
      ys[i] := y;
    }
  }

  method PointOf(received: array<int>, expected: array<real>, i: nat, width: real, ghost bins: seq<ChartBin>)
    returns (y: real)
    requires ArePrefixSums(received, expected, bins) && width > 0.0
    ensures y == LossPoint(bins, i, width) && 0.0 <= y <= 100.0
  {
    var low, high := Low(i, width), High(i, width, received.Length - 1);
    if high <= low {
      return 0.0;
    }
    var d := WindowDeficit(received, expected, low, high, bins);
    y := if d * 100.0 > 100.0 then 100.0 else d * 100.0;
  }

  /** The window is the set of bins whose time span meets the second around the point. */
  lemma WindowIsOverlap(i: nat, width: real, n: nat, j: nat)
    requires width > 0.0 && j < n
    ensures Low(i, width) <= j < High(i, width, n) <==>
            && j as real * width < i as real * STEP_SEC + WINDOW_SEC / 2.0
            && (j + 1) as real * width > i as real * STEP_SEC - WINDOW_SEC / 2.0
  {
    var from, to := i as real * STEP_SEC - WINDOW_SEC / 2.0, i as real * STEP_SEC + WINDOW_SEC / 2.0;
    FloorMeets(from, width, j);
    CeilMeets(to, width, j);
  }

  lemma FloorMeets(from: real, width: real, j: nat)
    requires width > 0.0
    ensures (from / width).Floor <= j <==> (j + 1) as real * width > from
  {
    var q := from / width;
    assert q * width == from;
    SameSign((j + 1) as real - q, width);
    assert ((j + 1) as real - q) * width == (j + 1) as real * width - from;
  }

  lemma CeilMeets(to: real, width: real, j: nat)
    requires width > 0.0
    ensures j < Ceil(to / width) <==> j as real * width < to
  {
    var q := to / width;
    assert q * width == to;
    SameSign(q - j as real, width);
    assert (q - j as real) * width == to - j as real * width;
  }

  // ---- Smoothed deficits ----

  /** `Math.round`. */
  function JsRound(x: real): int { (x + 0.5).Floor }

  function HalfWindow(width: real): nat
    requires width > 0.0
  {
    MaxInt(1, JsRound(0.5 / width))
  }

  /** The deficit over the bins at most `HalfWindow` away, by direct summation. */
  function SmoothedAt(bins: seq<ChartBin>, i: nat, width: real): real
    requires width > 0.0 && i < |bins|
  {
    var low, high := MaxInt(0, i - HalfWindow(width)), MinInt(|bins|, i + HalfWindow(width) + 1);
    DeficitOver(bins, low, high)
  }

  method ComputeSmoothedDeficits(bins: seq<ChartBin>, width: real) returns (out: array<real>)
    ensures out.Length == |bins|
    ensures width <= 0.0 ==> forall i :: 0 <= i < |bins| ==> out[i] == 0.0
    ensures width > 0.0 ==> forall i :: 0 <= i < |bins| ==> out[i] == SmoothedAt(bins, i, width)
    ensures forall i :: 0 <= i < |bins| ==> 0.0 <= out[i] <= 1.0
  {
    var n := |bins|;
    out := new real[n](_ => 0.0);
    if n == 0 || width <= 0.0 {
      return;
    }
    var prefReceived, prefExpected := PrefixSums(bins);
    var half := HalfWindow(width);
    for i := 0 to n
      invariant ArePrefixSums(prefReceived, prefExpected, bins)
      invariant forall k :: 0 <= k < i ==> out[k] == SmoothedAt(bins, k, width) && 0.0 <= out[k] <= 1.0
    {
      var low, high := MaxInt(0, i - half), MinInt(n, i + half + 1);
      var d := WindowDeficit(prefReceived, prefExpected, low, high, bins);
      out[i] := d;
    }
  }

  // ---- What a point means ----

  function Times(share: real, whole: real): real { share * whole }

  /** The deficit is the share of the expected messages that did not come. */
  lemma DeficitIsShare(received: int, expected: real)
    requires expected > 0.0
    ensures Times(Deficit(received, expected), expected) == Max(0.0, expected - received as real)
  {
    var share := received as real / expected;
    assert share * expected == received as real;
    SameSign(1.0 - share, expected);
    assert (1.0 - share) * expected == expected - received as real;
  }

  type Choice = int -> bool

  /** Both columns summed over the chosen bins of the first `n`. */
  function ReceivedBy(bins: seq<ChartBin>, n: nat, chosen: Choice): int
    requires n <= |bins|
  {
    if n == 0 then 0
    else ReceivedBy(bins, n - 1, chosen) + if chosen(n - 1) then bins[n - 1].received else 0
  }

  function ExpectedBy(bins: seq<ChartBin>, n: nat, chosen: Choice): real
    requires n <= |bins|
  {
    if n == 0 then 0.0
    else ExpectedBy(bins, n - 1, chosen) + if chosen(n - 1) then bins[n - 1].expected else 0.0
  }

  lemma {:induction false} ChosenRange(bins: seq<ChartBin>, n: nat, low: nat, high: nat, chosen: Choice)
    requires n <= |bins| && low <= high && forall j: nat :: j < n ==> (chosen(j) <==> low <= j < high)
    ensures ReceivedBy(bins, n, chosen) == if n <= low then 0 else Received(bins, low, MinInt(n, high))
    ensures ExpectedBy(bins, n, chosen) == if n <= low then 0.0 else Expected(bins, low, MinInt(n, high))
  {
    if n > 0 { ChosenRange(bins, n - 1, low, high, chosen); }
  }

  /** The value is the share missing of what the chosen bins expect. */
  ghost predicate MissingOf(value: real, bins: seq<ChartBin>, chosen: Choice) {
    var expected := ExpectedBy(bins, |bins|, chosen);
    if expected > 0.0 then
      Times(value, expected) == Max(0.0, expected - ReceivedBy(bins, |bins|, chosen) as real)
    else value == 0.0
  }

  lemma DeficitOverMeans(bins: seq<ChartBin>, low: nat, high: nat, chosen: Choice)
    requires low <= high <= |bins| && forall j: nat :: j < |bins| ==> (chosen(j) <==> low <= j < high)
    ensures MissingOf(DeficitOver(bins, low, high), bins, chosen)
  {
    ChosenRange(bins, |bins|, low, high, chosen);
    if Expected(bins, low, high) > 0.0 { DeficitIsShare(Received(bins, low, high), Expected(bins, low, high)); }
  }

  /** The bin's time span meets the second around point `i`, a tenth of a second a point. */
  predicate MeetsSecond(i: nat, width: real, j: int) {
    && j as real * width < i as real * 0.1 + 0.5
    && (j + 1) as real * width > i as real * 0.1 - 0.5
  }

  /** A point of the loss-rate series is the percentage missing of what is expected in the bins around its second. */
  lemma LossPointMeans(bins: seq<ChartBin>, i: nat, width: real)
    requires width > 0.0
    ensures MissingOf(LossPoint(bins, i, width) / 100.0, bins, j => MeetsSecond(i, width, j))
  {
    var low, high := Low(i, width), High(i, width, |bins|);
    var chosen: Choice := j => MeetsSecond(i, width, j);
    forall j: nat | j < |bins| ensures chosen(j) <==> low <= j < high { WindowIsOverlap(i, width, |bins|, j); }
    if high <= low {
      ChosenRange(bins, |bins|, |bins|, |bins|, chosen);
    } else {
      DeficitOverMeans(bins, low, high, chosen);
    }
  }

  /** The bins of a heatmap cell: as many on each side as fit half a second best, and at least one. */
  lemma HalfWindowIsHalfSecond(width: real)
    requires width > 0.0
    ensures HalfWindow(width) >= 1
    ensures Seconds(2 * HalfWindow(width) + 1, width) > 1.0
    ensures HalfWindow(width) > 1 ==> Seconds(2 * HalfWindow(width) - 1, width) <= 1.0
  {
    var q, n := 0.5 / width, HalfWindow(width);
    assert JsRound(q) as real <= q + 0.5 < JsRound(q) as real + 1.0;
    HalvesOfSecond(width, 2 * n + 1);
    HalvesOfSecond(width, 2 * n - 1);
  }

  function Seconds(bins: int, width: real): real { bins as real * width }

  lemma HalvesOfSecond(width: real, k: int)
    requires width > 0.0
    ensures Seconds(k, width) <= 1.0 <==> k as real <= 2.0 * (0.5 / width)
  {
    var q := 0.5 / width;
    assert q * width == 0.5;
    SameSign(k as real - 2.0 * q, width);
    assert (k as real - 2.0 * q) * width == k as real * width - 1.0;
  }

  predicate Around(i: nat, half: nat, j: int) { i - half <= j <= i + half }

  /** A cell is the share missing of what is expected in the bins at most that far from it. */
  lemma SmoothedMeans(bins: seq<ChartBin>, i: nat, width: real)
    requires width > 0.0 && i < |bins|
    ensures MissingOf(SmoothedAt(bins, i, width), bins, j => Around(i, HalfWindow(width), j))
  {
    var low, high := MaxInt(0, i - HalfWindow(width)), MinInt(|bins|, i + HalfWindow(width) + 1);
    DeficitOverMeans(bins, low, high, j => Around(i, HalfWindow(width), j));
  }
}
