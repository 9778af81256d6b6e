/** Resampling of one topic onto reference timestamps: `interpolation.py` and the image alignment of `converter.py`.
    Timestamps are integer nanoseconds. */
module Resampling {
  import opened Wrappers
  import opened Numbers

  datatype Stamped<T> = Stamped(at: int, value: T)

  predicate Ascending(ts: seq<int>) { forall i, j :: 0 <= i < j < |ts| ==> ts[i] <= ts[j] }

  predicate Increasing(ts: seq<int>) { forall i, j :: 0 <= i < j < |ts| ==> ts[i] < ts[j] }

  function Times<T>(source: seq<Stamped<T>>): (r: seq<int>)
    ensures |r| == |source| && forall i :: 0 <= i < |source| ==> r[i] == source[i].at
  {
    seq(|source|, i requires 0 <= i < |source| => source[i].at)
  }

  /** `bisect.bisect_left` on `ts[low..high]`. */
  function BisectLeft(ts: seq<int>, t: int, low: nat, high: nat): (k: nat)
    requires low <= high <= |ts|
    ensures low <= k <= high
    decreases high - low
  {
    if low == high then low
    else
      var mid := (low + high) / 2;
      if ts[mid] < t then BisectLeft(ts, t, mid + 1, high) else BisectLeft(ts, t, low, mid)
  }

  /** `bisect.bisect_right` on `ts[low..high]`. */
  function BisectRight(ts: seq<int>, t: int, low: nat, high: nat): (k: nat)
    requires low <= high <= |ts|
    ensures low <= k <= high
    decreases high - low
  {
    if low == high then low
    else
      var mid := (low + high) / 2;
      if t < ts[mid] then BisectRight(ts, t, low, mid) else BisectRight(ts, t, mid + 1, high)
  }

  /** The first `k` stamps are before `t`. */
  ghost predicate AllBefore(ts: seq<int>, t: int, k: nat)
    requires k <= |ts|
  {
    forall i :: 0 <= i < k ==> ts[i] < t
  }

  /** From `k` on no stamp is before `t`. */
  ghost predicate NoneBefore(ts: seq<int>, t: int, k: nat)
    requires k <= |ts|
  {
    forall i :: k <= i < |ts| ==> ts[i] >= t
  }

  lemma {:induction false} BisectLeftSplits(ts: seq<int>, t: int, low: nat, high: nat)
    requires low <= high <= |ts| && Ascending(ts) && AllBefore(ts, t, low) && NoneBefore(ts, t, high)
    ensures AllBefore(ts, t, BisectLeft(ts, t, low, high)) && NoneBefore(ts, t, BisectLeft(ts, t, low, high))
    decreases high - low
  {
    if low < high {
      var mid := (low + high) / 2;
      if ts[mid] < t {
        BeforeUpTo(ts, t, mid);
        BisectLeftSplits(ts, t, mid + 1, high);
      } else {
        NotBeforeFrom(ts, t, mid);
        BisectLeftSplits(ts, t, low, mid);
      }
    }
  }

  lemma BeforeUpTo(ts: seq<int>, t: int, i: nat)
    requires Ascending(ts) && i < |ts| && ts[i] < t
    ensures AllBefore(ts, t, i + 1)
  {
  }

  lemma NotBeforeFrom(ts: seq<int>, t: int, i: nat)
    requires Ascending(ts) && i < |ts| && ts[i] >= t
    ensures NoneBefore(ts, t, i)
  {
  }

  lemma {:induction false} BisectRightSplits(ts: seq<int>, t: int, low: nat, high: nat)
    requires low <= high <= |ts| && Ascending(ts)
    requires forall i :: 0 <= i < low ==> ts[i] <= t
    requires forall i :: high <= i < |ts| ==> ts[i] > t
    ensures var k := BisectRight(ts, t, low, high);
            (forall i :: 0 <= i < k ==> ts[i] <= t) && (forall i :: k <= i < |ts| ==> ts[i] > t)
    decreases high - low
  {
    if low < high {
      var mid := (low + high) / 2;
      if t < ts[mid] { BisectRightSplits(ts, t, low, mid); } else { BisectRightSplits(ts, t, mid + 1, high); }
    }
  }

  // ---- Nearest neighbour ----

  /** The better of the running best and one candidate index; an index out of range is skipped. */
  function Consider(ts: seq<int>, t: int, candidate: int, best: Option<nat>, bestDiff: int): (Option<nat>, int) {
    if 0 <= candidate < |ts| && Abs(ts[candidate] - t) < bestDiff then (Some(candidate), Abs(ts[candidate] - t))
    else (best, bestDiff)
  }

  /** The message the source picks: only the two bisect neighbours are looked at, and only within the tolerance. */
  function NearestIndex(ts: seq<int>, t: int, tolerance: int): Option<nat> {
    var k := BisectLeft(ts, t, 0, |ts|);
    var (first, diff) := Consider(ts, t, k - 1, None, tolerance + 1);
    Consider(ts, t, k, first, diff).0
  }

  /** The loop over the two candidates. */
  method PickNearest(ts: seq<int>, t: int, tolerance: int) returns (best: Option<nat>, bestDiff: int)
    ensures best == NearestIndex(ts, t, tolerance)
    ensures best.Some? ==> best.value < |ts| && bestDiff == Abs(ts[best.value] - t) <= tolerance
  {
    var k := BisectLeft(ts, t, 0, |ts|);
    best, bestDiff := None, tolerance + 1;
    var candidates: seq<int> := [k as int - 1, k];
    for c := 0 to 2
      invariant (best, bestDiff) ==
                if c == 0 then (None, tolerance + 1)
                else if c == 1 then Consider(ts, t, k as int - 1, None, tolerance + 1)
                else
                  var (first, diff) := Consider(ts, t, k as int - 1, None, tolerance + 1);
                  Consider(ts, t, k, first, diff)
    {
      var candidate := candidates[c];
      if 0 <= candidate < |ts| {
        var diff := Abs(ts[candidate] - t);
        if diff < bestDiff {
          best, bestDiff := Some(candidate), diff;
        }
      }
    }
  }

  /** Looking at the two bisect neighbours finds a globally nearest message, and misses none within the tolerance. */
  lemma NearestIsGlobal(ts: seq<int>, t: int, tolerance: int)
    requires Ascending(ts)
    ensures IsNearest(ts, t, tolerance, NearestIndex(ts, t, tolerance))
  {
    BisectLeftSplits(ts, t, 0, |ts|);
    NeighboursAreNearest(ts, t, BisectLeft(ts, t, 0, |ts|));
    BestOfNeighbours(ts, t, tolerance, BisectLeft(ts, t, 0, |ts|));
  }

  /** On each side of the split the neighbour is the nearest. */
  lemma NeighboursAreNearest(ts: seq<int>, t: int, k: nat)
    requires Ascending(ts) && k <= |ts| && AllBefore(ts, t, k) && NoneBefore(ts, t, k)
    ensures forall j :: 0 <= j < |ts| ==> NeighbourBeats(ts, t, k, j)
  {
    forall j | 0 <= j < |ts| ensures NeighbourBeats(ts, t, k, j) {
      if j < k - 1 { assert ts[j] <= ts[k - 1]; }
      if j > k { assert ts[k] <= ts[j]; }
    }
  }

  /** The neighbour of the split on message `j`'s side is at least as near. */
  ghost predicate NeighbourBeats(ts: seq<int>, t: int, k: nat, j: nat)
    requires j < |ts| && k <= |ts|
  {
    if j < k then ts[k - 1] < t && Beats(ts, t, k - 1, j) else ts[k] >= t && Beats(ts, t, k, j)
  }

  /** Message `k` is nearer than `j`, or as near and preferred: the earlier time, and among messages of one time the one
      next to the reference time. */
  ghost predicate Beats(ts: seq<int>, t: int, k: nat, j: nat)
    requires k < |ts| && j < |ts|
  {
    || Abs(ts[k] - t) < Abs(ts[j] - t)
    || (Abs(ts[k] - t) == Abs(ts[j] - t)
        && (ts[k] < ts[j] || (ts[k] == ts[j] && if ts[k] < t then j <= k else k <= j)))
  }

  /** The nearest of all messages, or none when all are beyond the tolerance. */
  ghost predicate IsNearest(ts: seq<int>, t: int, tolerance: int, pick: Option<nat>) {
    match pick
    case Some(k) => k < |ts| && Abs(ts[k] - t) <= tolerance && forall j :: 0 <= j < |ts| ==> Beats(ts, t, k, j)
    case None => forall j :: 0 <= j < |ts| ==> Abs(ts[j] - t) > tolerance
  }

  lemma BestOfNeighbours(ts: seq<int>, t: int, tolerance: int, k: nat)
    requires k <= |ts| && forall j :: 0 <= j < |ts| ==> NeighbourBeats(ts, t, k, j)
    ensures var (first, diff) := Consider(ts, t, k - 1, None, tolerance + 1);
            IsNearest(ts, t, tolerance, Consider(ts, t, k, first, diff).0)
  {
    var (first, diff) := Consider(ts, t, k - 1, None, tolerance + 1);
    var pick := Consider(ts, t, k, first, diff).0;
    forall j | 0 <= j < |ts|
      ensures if pick.Some? then Beats(ts, t, pick.value, j) else Abs(ts[j] - t) > tolerance
    {
      assert NeighbourBeats(ts, t, k, j);
    }
  }

  /** A later reference time never picks an earlier message. */
  lemma NearestMovesForward(ts: seq<int>, t: int, u: int, tolerance: int)
    requires Ascending(ts) && t < u
    ensures NearestIndex(ts, t, tolerance).Some? && NearestIndex(ts, u, tolerance).Some? ==>
              NearestIndex(ts, t, tolerance).value <= NearestIndex(ts, u, tolerance).value
  {
    BisectLeftSplits(ts, t, 0, |ts|);
    BisectLeftSplits(ts, u, 0, |ts|);
    var k, l := BisectLeft(ts, t, 0, |ts|), BisectLeft(ts, u, 0, |ts|);
    if l < |ts| { assert ts[l] >= u; }
  }

  /** `NearestInterpolator.interpolate`. */
  method InterpolateNearest<T>(refs: seq<int>, source: seq<Stamped<T>>, tolerance: int)
    returns (results: seq<Option<T>>)
    ensures results == NearestValues(refs, source, tolerance)
  {
    if source == [] {
      results := seq(|refs|, _ => None);
      assert forall i :: 0 <= i < |refs| ==> NearestValue(source, refs[i], tolerance) == None;
      return;
    }
    var ts := Times(source);
    results := [];
    for i := 0 to |refs|
      invariant |results| == i && forall j :: 0 <= j < i ==> results[j] == NearestValue(source, refs[j], tolerance)
    {
      var best, _ := PickNearest(ts, refs[i], tolerance);
      results := results + [if best.Some? then Some(source[best.value].value) else None];
    }
  }

  function NearestValue<T>(source: seq<Stamped<T>>, t: int, tolerance: int): Option<T> {
    var k := NearestIndex(Times(source), t, tolerance);
    if k.Some? && k.value < |source| then Some(source[k.value].value) else None
  }

  function NearestValues<T>(refs: seq<int>, source: seq<Stamped<T>>, tolerance: int): (r: seq<Option<T>>)
    ensures |r| == |refs| && forall i :: 0 <= i < |refs| ==> r[i] == NearestValue(source, refs[i], tolerance)
  {
    seq(|refs|, i requires 0 <= i < |refs| => NearestValue(source, refs[i], tolerance))
  }

  // ---- Image alignment ----

  /** Forward fill: the latest present entry up to position `i`. */
  function FillAt<T>(picks: seq<Option<T>>, i: nat): Option<T>
    requires i < |picks|
  {
    if picks[i].Some? then picks[i] else if i == 0 then None else FillAt(picks, i - 1)
  }

  /** The nearest picks as message indices. */
  function Picks(refs: seq<int>, ts: seq<int>, tolerance: int): (r: seq<Option<nat>>)
    ensures |r| == |refs| && forall i :: 0 <= i < |refs| ==> r[i] == NearestIndex(ts, refs[i], tolerance)
  {
    seq(|refs|, i requires 0 <= i < |refs| => NearestIndex(ts, refs[i], tolerance))
  }

  /** `aligned` holds the forward fill of the first picks. */
  ghost predicate Filled<T>(aligned: seq<Option<T>>, picks: seq<Option<T>>) {
    |aligned| <= |picks| && forall i :: 0 <= i < |aligned| ==> aligned[i] == FillAt(picks, i)
  }

  /** `align_nearest_forward_fill`: exactly the forward fill of the nearest interpolator's results. */
  method AlignNearestForwardFill<T>(refs: seq<int>, messages: seq<Stamped<T>>, tolerance: int)
    returns (aligned: seq<Option<T>>)
    ensures |aligned| == |refs| && Filled(aligned, NearestValues(refs, messages, tolerance))
  {
    ghost var picks := NearestValues(refs, messages, tolerance);
    if messages == [] {
      aligned := seq(|refs|, _ => None);
      forall i | 0 <= i < |refs| ensures FillAt(picks, i) == None { NothingToFill(picks, i); }
      return;
    }
    var ts := Times(messages);
    aligned := [];
    var lastMatched: Option<T> := None;
    for i := 0 to |refs|
      invariant |aligned| == i && Filled(aligned, picks)
      invariant lastMatched == LastFill(picks, i)
    {
      var best, bestDiff := PickNearest(ts, refs[i], tolerance);
      PickedValue(refs, messages, tolerance, i, best);
      FilledOneMore(aligned, picks, i);
      if best.Some? && bestDiff <= tolerance {
        lastMatched := Some(messages[best.value].value);
      }
      aligned := aligned + [lastMatched];
    }
  }

  lemma FilledOneMore<T>(aligned: seq<Option<T>>, picks: seq<Option<T>>, i: nat)
    requires |aligned| == i < |picks| && Filled(aligned, picks)
    ensures Filled(aligned + [FillAt(picks, i)], picks)
  {
  }

  /** The fill before position `i`. */
  ghost function LastFill<T>(picks: seq<Option<T>>, i: nat): Option<T>
    requires i <= |picks|
  {
    if i == 0 then None else FillAt(picks, i - 1)
  }

  /** The picked message's value is the interpolator's result at that position. */
  lemma PickedValue<T>(refs: seq<int>, messages: seq<Stamped<T>>, tolerance: int, i: nat, best: Option<nat>)
    requires i < |refs| && best == NearestIndex(Times(messages), refs[i], tolerance)
    requires best.Some? ==> best.value < |messages|
    ensures var picks := NearestValues(refs, messages, tolerance);
            && picks[i] == (if best.Some? then Some(messages[best.value].value) else None)
            && LastFill(picks, i + 1) == FillAt(picks, i) == if best.Some? then picks[i] else LastFill(picks, i)
  {
  }

  lemma {:induction false} NothingToFill<T>(picks: seq<Option<T>>, i: nat)
    requires i < |picks| && forall j :: 0 <= j <= i ==> picks[j] == None
    ensures FillAt(picks, i) == None
  {
    if i > 0 { NothingToFill(picks, i - 1); }
  }

  /** A filled position shows the pick of some earlier position with nothing in between. */
  lemma {:induction false} FillSource<T>(picks: seq<Option<T>>, i: nat) returns (k: nat)
    requires i < |picks| && FillAt(picks, i).Some?
    ensures k <= i && picks[k] == FillAt(picks, i) && forall j :: k < j <= i ==> picks[j].None?
  {
    if picks[i].Some? { k := i; } else { k := FillSource(picks, i - 1); }
  }

  lemma {:induction false} FillStays<T>(picks: seq<Option<T>>, i: nat, j: nat)
    requires i <= j < |picks| && FillAt(picks, i).Some?
    ensures FillAt(picks, j).Some?
  {
    if i < j { FillStays(picks, i, j - 1); }
  }

  /** On increasing reference times an aligned camera never goes back to an earlier message, and never loses its
      image. */
  lemma VideoNeverStepsBack(refs: seq<int>, ts: seq<int>, tolerance: int, i: nat, j: nat)
    requires Ascending(ts) && Increasing(refs) && i <= j < |refs|
    ensures var picks := Picks(refs, ts, tolerance);
            FillAt(picks, i).Some? ==> FillAt(picks, j).Some? && FillAt(picks, i).value <= FillAt(picks, j).value
  {
    var picks := Picks(refs, ts, tolerance);
    if FillAt(picks, i).Some? {
      FillStays(picks, i, j);
      var a := FillSource(picks, i);
      var b := FillSource(picks, j);
      if a < b { NearestMovesForward(ts, refs[a], refs[b], tolerance); } else { assert a == b; }
    }
  }

  /** The image shown is the one at the filled index. */
  lemma {:induction false} FillOfIndices<T>(refs: seq<int>, messages: seq<Stamped<T>>, tolerance: int, i: nat)
    requires i < |refs|
    ensures SameMessage(FillAt(Picks(refs, Times(messages), tolerance), i),
                        FillAt(NearestValues(refs, messages, tolerance), i), messages)
  {
    PickIsShown(refs, messages, tolerance, i);
    if i > 0 { FillOfIndices(refs, messages, tolerance, i - 1); }
  }

  /** The value is that of the indexed message; both are absent together. */
  ghost predicate SameMessage<T>(index: Option<nat>, value: Option<T>, messages: seq<Stamped<T>>) {
    match index
    case Some(k) => k < |messages| && value == Some(messages[k].value)
    case None => value == None
  }

  lemma PickIsShown<T>(refs: seq<int>, messages: seq<Stamped<T>>, tolerance: int, i: nat)
    requires i < |refs|
    ensures SameMessage(Picks(refs, Times(messages), tolerance)[i], NearestValues(refs, messages, tolerance)[i],
                        messages)
  {
    PickInRange(Times(messages), refs[i], tolerance);
  }

  lemma PickInRange(ts: seq<int>, t: int, tolerance: int)
    ensures NearestIndex(ts, t, tolerance).Some? ==> NearestIndex(ts, t, tolerance).value < |ts|
  {
  }

  // ---- Linear interpolation ----

  predicate SameLength(source: seq<Stamped<Vector>>, dim: nat) {
    forall i :: 0 <= i < |source| ==> |source[i].value| == dim
  }

  function Blend(v0: Vector, v1: Vector, alpha: real): (r: Vector)
    requires |v0| == |v1|
    ensures |r| == |v0| && forall d :: 0 <= d < |r| ==> r[d] == v0[d] + (v1[d] - v0[d]) * alpha
  {
    seq(|v0|, d requires 0 <= d < |v0| => v0[d] + (v1[d] - v0[d]) * alpha)
  }

  /** `_interpolate_single`, with the single-sample shortcut of `interpolate`. */
  function LinearAt(source: seq<Stamped<Vector>>, t: int, ghost dim: nat): (r: Vector)
    requires source != [] && Ascending(Times(source)) && SameLength(source, dim)
    ensures |r| == dim
  {
    BisectLeftSplits(Times(source), t, 0, |source|);
    var k := BisectLeft(Times(source), t, 0, |source|);
    if |source| == 1 || k == 0 then source[0].value
    else if k >= |source| then source[|source| - 1].value
    else
      assert Times(source)[k - 1] < t <= Times(source)[k];
      Blend(source[k - 1].value, source[k].value, Fraction(source[k - 1].at, t, source[k].at))
  }

  /** `(ts - t0) / (t1 - t0)`. */
  function Fraction(t0: int, t: int, t1: int): real
    requires t0 < t1
  {
    (t - t0) as real / (t1 - t0) as real
  }

  lemma FractionOfSpan(t0: int, t: int, t1: int)
    requires t0 < t1
    ensures Fraction(t0, t, t1) * (t1 - t0) as real == (t - t0) as real
  {
  }

  /** `x` at `t` lies on the straight line from `a` at `t0` to `b` at `t1`. */
  predicate OnLine(x: real, a: real, b: real, t0: int, t: int, t1: int) {
    (x - a) * (t1 - t0) as real == (b - a) * (t - t0) as real
  }

  /** `v` is, component by component, on the line between sample `k - 1` and sample `k`. */
  ghost predicate OnSegment(source: seq<Stamped<Vector>>, t: int, v: Vector, k: int)
    requires 0 < k < |source|
  {
    var a, b := source[k - 1], source[k];
    && |a.value| == |b.value| == |v|
    && forall d :: 0 <= d < |v| ==> OnLine(v[d], a.value[d], b.value[d], a.at, t, b.at)
  }

  lemma BlendOnLine(a: real, b: real, t0: int, t: int, t1: int, alpha: real)
    requires alpha * (t1 - t0) as real == (t - t0) as real
    ensures OnLine(a + (b - a) * alpha, a, b, t0, t, t1)
  {
    var whole := (t1 - t0) as real;
    assert ((b - a) * alpha) * whole == (b - a) * (alpha * whole);
  }

  /** Between two samples every component is on the line through them. */
  lemma LinearBetween(source: seq<Stamped<Vector>>, t: int, dim: nat, k: nat)
    requires source != [] && Ascending(Times(source)) && SameLength(source, dim)
    requires 0 < k < |source| && source[k - 1].at < t <= source[k].at
    ensures OnSegment(source, t, LinearAt(source, t, dim), k)
  {
    SplitAt(source, t, k);
    BlendOnSegment(source, t, k, Fraction(source[k - 1].at, t, source[k].at));
  }

  lemma BlendOnSegment(source: seq<Stamped<Vector>>, t: int, k: nat, alpha: real)
    requires 0 < k < |source| && |source[k - 1].value| == |source[k].value|
    requires source[k - 1].at < source[k].at && alpha == Fraction(source[k - 1].at, t, source[k].at)
    ensures OnSegment(source, t, Blend(source[k - 1].value, source[k].value, alpha), k)
  {
    var a, b := source[k - 1], source[k];
    FractionOfSpan(a.at, t, b.at);
    forall d | 0 <= d < |a.value|
      ensures OnLine(Blend(a.value, b.value, alpha)[d], a.value[d], b.value[d], a.at, t, b.at)
    {
      BlendOnLine(a.value[d], b.value[d], a.at, t, b.at, alpha);
    }
  }

  /** The position is the one whose left neighbour is before `t` and which is not itself. */
  lemma SplitAt(source: seq<Stamped<Vector>>, t: int, k: nat)
    requires Ascending(Times(source)) && k <= |source|
    requires (k > 0 ==> source[k - 1].at < t) && (k < |source| ==> t <= source[k].at)
    ensures BisectLeft(Times(source), t, 0, |source|) == k
  {
    var ts, l := Times(source), BisectLeft(Times(source), t, 0, |source|);
    BisectLeftSplits(ts, t, 0, |source|);
    if k > 0 { assert ts[k - 1] < t; }
    if k < |source| { assert ts[k] >= t; }
  }

  /** At a sample's time the value is that of the first sample with this time. */
  lemma LinearAtSample(source: seq<Stamped<Vector>>, dim: nat, j: nat)
    requires Ascending(Times(source)) && SameLength(source, dim)
    requires j < |source| && (j > 0 ==> source[j - 1].at < source[j].at)
    ensures LinearAt(source, source[j].at, dim) == source[j].value
  {
    var t := source[j].at;
    SplitAt(source, t, j);
    if j > 0 {
      var a, b, v := source[j - 1], source[j], LinearAt(source, t, dim);
      LinearBetween(source, t, dim, j);
      forall d | 0 <= d < |v| ensures v[d] == b.value[d] {
        assert OnLine(v[d], a.value[d], b.value[d], a.at, t, b.at);
        SameFactor(v[d] - a.value[d], b.value[d] - a.value[d], (b.at - a.at) as real);
      }
    }
  }

  lemma SameFactor(x: real, y: real, whole: real)
    requires whole > 0.0 && x * whole == y * whole
    ensures x == y
  {
    SameSign(x - y, whole);
    SameSign(y - x, whole);
    assert (x - y) * whole == 0.0 && (y - x) * whole == 0.0;
  }

  /** Outside the source's time range the value is held: the first sample's before it, the last one's after it. */
  lemma LinearHolds(source: seq<Stamped<Vector>>, t: int, dim: nat)
    requires source != [] && Ascending(Times(source)) && SameLength(source, dim)
    ensures t <= source[0].at ==> LinearAt(source, t, dim) == source[0].value
    ensures t > source[|source| - 1].at ==> LinearAt(source, t, dim) == source[|source| - 1].value
  {
    if t <= source[0].at { SplitAt(source, t, 0); }
    if t > source[|source| - 1].at { SplitAt(source, t, |source|); }
  }

  /** The first of the samples that share sample `k`'s time. */
  function FirstOfTime(source: seq<Stamped<Vector>>, k: nat): (j: nat)
    requires k < |source|
    ensures j <= k && source[j].at == source[k].at
    ensures j > 0 ==> source[j - 1].at != source[j].at
  {
    if k > 0 && source[k - 1].at == source[k].at then FirstOfTime(source, k - 1) else k
  }

  /** On a closed segment the value is on the line exactly unless the time is the segment's start, several samples share
      it, and the first of them is not the one the segment starts from. */
  lemma ClosedSegmentIff(source: seq<Stamped<Vector>>, t: int, dim: nat, k: nat)
    requires source != [] && Ascending(Times(source)) && SameLength(source, dim)
    requires 0 < k < |source| && source[k - 1].at <= t <= source[k].at && source[k - 1].at < source[k].at
    ensures OnSegment(source, t, LinearAt(source, t, dim), k) <==>
            (t == source[k - 1].at ==> source[FirstOfTime(source, k - 1)].value == source[k - 1].value)
  {
    if t > source[k - 1].at {
      LinearBetween(source, t, dim, k);
    } else {
      var j := FirstOfTime(source, k - 1);
      if j > 0 { assert Times(source)[j - 1] <= Times(source)[j]; }
      LinearAtSample(source, dim, j);
      StartOfSegment(source, t, source[j].value, k);
    }
  }

  /** At the segment's start only the segment's own first sample is on the line. */
  lemma StartOfSegment(source: seq<Stamped<Vector>>, t: int, v: Vector, k: nat)
    requires 0 < k < |source| && t == source[k - 1].at < source[k].at
    requires |v| == |source[k - 1].value| == |source[k].value|
    ensures OnSegment(source, t, v, k) <==> v == source[k - 1].value
  {
    var a, b := source[k - 1], source[k];
    forall d | 0 <= d < |v| ensures OnLine(v[d], a.value[d], b.value[d], a.at, t, b.at) <==> v[d] == a.value[d] {
      assert (b.value[d] - a.value[d]) * (t - a.at) as real == 0.0;
      if OnLine(v[d], a.value[d], b.value[d], a.at, t, b.at) {
        SameFactor(v[d] - a.value[d], 0.0, (b.at - a.at) as real);
      }
    }
    if OnSegment(source, t, v, k) {
      forall d | 0 <= d < |v| ensures v[d] == a.value[d] {
        assert OnLine(v[d], a.value[d], b.value[d], a.at, t, b.at);
      }
    }
  }

  /** Two samples at the same time: the segment that leaves from the second one does not start on its own line. */
  lemma RepeatedTimeJumps()
    ensures var source := [Stamped(0, [0.0]), Stamped(100, [1.0]), Stamped(100, [2.0]), Stamped(200, [3.0])];
            && Ascending(Times(source)) && LinearAt(source, 100, 1) == [1.0]
            && !OnSegment(source, 100, LinearAt(source, 100, 1), 3)
  {
    var source := [Stamped(0, [0.0]), Stamped(100, [1.0]), Stamped(100, [2.0]), Stamped(200, [3.0])];
    LinearAtSample(source, 1, 1);
    assert FirstOfTime(source, 1) == 1 && FirstOfTime(source, 2) == 1;
    ClosedSegmentIff(source, 100, 1, 3);
  }

  /** The value is that of the first sample taken at that very time, or lies strictly inside two consecutive samples and
      on the line between them. */
  ghost predicate Interpolated(source: seq<Stamped<Vector>>, t: int, v: Vector) {
    || (exists k :: 0 <= k < |source| && FirstSampleAt(source, t, v, k))
    || (exists k :: 0 < k < |source| && Bracketed(source, t, v, k))
  }

  ghost predicate FirstSampleAt(source: seq<Stamped<Vector>>, t: int, v: Vector, k: int)
    requires 0 <= k < |source|
  {
    source[k].at == t && source[k].value == v && (k > 0 ==> source[k - 1].at < t)
  }

  ghost predicate Bracketed(source: seq<Stamped<Vector>>, t: int, v: Vector, k: int)
    requires 0 < k < |source|
  {
    source[k - 1].at < t < source[k].at && OnSegment(source, t, v, k)
  }

  /** What a linear source shows at any time. */
  ghost predicate LinearValue(source: seq<Stamped<Vector>>, t: int, v: Vector)
    requires source != []
  {
    if t < source[0].at then v == source[0].value
    else if t > source[|source| - 1].at then v == source[|source| - 1].value
    else Interpolated(source, t, v)
  }

  /** Before the first sample the first one is held, after the last one the last, and in between the value is on the
      line. */
  lemma LinearMeans(source: seq<Stamped<Vector>>, t: int, dim: nat)
    requires source != [] && Ascending(Times(source)) && SameLength(source, dim)
    ensures LinearValue(source, t, LinearAt(source, t, dim))
  {
    LinearHolds(source, t, dim);
    if source[0].at <= t <= source[|source| - 1].at { LinearIsInterpolated(source, t, dim); }
  }

  /** Inside the source's own time range no value is held at a boundary. */
  lemma LinearIsInterpolated(source: seq<Stamped<Vector>>, t: int, dim: nat)
    requires source != [] && Ascending(Times(source)) && SameLength(source, dim)
    requires source[0].at <= t <= source[|source| - 1].at
    ensures Interpolated(source, t, LinearAt(source, t, dim))
  {
    var ts := Times(source);
    var k := BisectLeft(ts, t, 0, |source|);
    BisectLeftSplits(ts, t, 0, |source|);
    assert ts[|source| - 1] >= t && k < |source| && ts[k] >= t;
    if k > 0 { assert ts[k - 1] < t; } else { assert ts[0] <= t; }
    if source[k].at == t {
      LinearAtSample(source, dim, k);
      assert FirstSampleAt(source, t, LinearAt(source, t, dim), k);
    } else {
      LinearBetween(source, t, dim, k);
      assert Bracketed(source, t, LinearAt(source, t, dim), k);
    }
  }
}
