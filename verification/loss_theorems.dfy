/** What the two loss detectors promise: they agree with each other, and losses plus messages account for the grid. */
module LossTheorems {
  import opened Numbers
  import opened Sorting
  import opened LossDetection

  // ---- The IQR threshold on few intervals ----

  /** With at most four intervals the third quartile is the longest one, so nothing exceeds the threshold. */
  lemma FewIntervalsDetectNothing(intervals: seq<real>, period: real, i: nat)
    requires i < |intervals| <= 4
    ensures intervals[i] <= Threshold(intervals, period)
  {
    SortRealsSorted(intervals);
    var n := |intervals|;
    assert n * 3 / 4 == n - 1 && n / 4 <= n - 1;
    assert intervals[i] in intervals;
    BelowTheLast(SortReals(intervals), intervals[i]);
  }

  lemma BelowTheLast(sorted: seq<real>, x: real)
    requires Sorted(sorted) && x in sorted
    ensures x <= sorted[|sorted| - 1]
    ensures forall k :: 0 <= k < |sorted| ==> sorted[k] <= sorted[|sorted| - 1]
  {
  }

  // ---- The two detectors agree ----

  /** A report event as the timeline lists it. */
  function AsGap(e: LossEvent): TimelineGap {
    TimelineGap(e.at, e.at + e.what.duration, e.what.duration, e.what.lost, e.what.severity)
  }

  function AsGaps(events: seq<LossEvent>): seq<TimelineGap> {
    if events == [] then [] else [AsGap(events[0])] + AsGaps(events[1..])
  }

  function Raw(e: LossEvent): RawGap { Timed(e.at, RawLoss(e.what.duration, e.what.severity)) }

  function Raws(events: seq<LossEvent>): (r: seq<RawGap>)
    ensures |r| == |events| && forall i :: 0 <= i < |r| ==> r[i] == Raw(events[i])
  {
    if events == [] then [] else [Raw(events[0])] + Raws(events[1..])
  }

  ghost predicate LostFromDuration(period: real, events: seq<LossEvent>)
    requires period > 0.0
  {
    forall i :: 0 <= i < |events| ==> events[i].what.lost == Lost(events[i].what.duration, period)
  }

  lemma SnocRaws(a: seq<LossEvent>, b: seq<LossEvent>)
    ensures Raws(a + b) == Raws(a) + Raws(b)
  {
  }

  lemma JoinedLost(period: real, edges: seq<LossEvent>, middle: seq<LossEvent>)
    requires period > 0.0 && LostFromDuration(period, edges) && LostFromDuration(period, middle)
    ensures LostFromDuration(period, edges + middle)
  {
  }

  lemma SameOne(at: real, span: real, threshold: real, period: real)
    requires period > 0.0
    ensures RawOf(at, span, threshold, period) == Raws(EventOf(at, span, threshold, period))
    ensures LostFromDuration(period, EventOf(at, span, threshold, period))
  {
  }

  lemma JoinedRaws(period: real, before: seq<LossEvent>, one: seq<LossEvent>, rawBefore: seq<RawGap>,
                   rawOne: seq<RawGap>)
    requires period > 0.0 && rawBefore == Raws(before) && rawOne == Raws(one)
    requires LostFromDuration(period, before) && LostFromDuration(period, one)
    ensures rawBefore + rawOne == Raws(before + one) && LostFromDuration(period, before + one)
  {
    SnocRaws(before, one);
  }

  lemma {:induction false} SameIntervalEvents(intervals: seq<real>, ts: seq<real>, threshold: real, period: real,
                                              start: real, n: nat)
    requires period > 0.0 && n <= |intervals| < |ts|
    ensures RawUpTo(intervals, ts, threshold, period, start, n) ==
            Raws(EventsUpTo(intervals, ts, threshold, period, start, n))
    ensures LostFromDuration(period, EventsUpTo(intervals, ts, threshold, period, start, n))
  {
    if n == 0 {
    } else {
      SameIntervalEvents(intervals, ts, threshold, period, start, n - 1);
      var at, span := ts[n - 1] - start, intervals[n - 1];
      SameOne(at, span, threshold, period);
      JoinedRaws(period, EventsUpTo(intervals, ts, threshold, period, start, n - 1),
                 EventOf(at, span, threshold, period),
                 RawUpTo(intervals, ts, threshold, period, start, n - 1), RawOf(at, span, threshold, period));
    }
  }

  lemma {:induction false} NoIntervalEvents(intervals: seq<real>, ts: seq<real>, threshold: real, period: real,
                                            start: real, n: nat)
    requires period > 0.0 && n <= |intervals| < |ts|
    requires forall i :: 0 <= i < |intervals| ==> intervals[i] <= threshold
    ensures RawUpTo(intervals, ts, threshold, period, start, n) == []
    ensures EventsUpTo(intervals, ts, threshold, period, start, n) == []
  {
    if n == 0 {
    } else {
      NoIntervalEvents(intervals, ts, threshold, period, start, n - 1);
    }
  }

  lemma SameMiddle(ts: seq<real>, period: real, start: real)
    requires |ts| >= 2 && period > 0.0
    ensures RawGaps(ts, period, start) == Raws(Events(Intervals(ts), ts, period, start))
    ensures LostFromDuration(period, Events(Intervals(ts), ts, period, start))
  {
    var intervals := Intervals(ts);
    var threshold := Threshold(intervals, period);
    if |intervals| <= 4 {
      forall i | 0 <= i < |intervals|
        ensures intervals[i] <= threshold { FewIntervalsDetectNothing(intervals, period, i); }
      NoIntervalEvents(intervals, ts, threshold, period, start, |intervals|);
    } else {
      SameIntervalEvents(intervals, ts, threshold, period, start, |intervals|);
    }
  }

  lemma SameEdges(startDelay: real, endEarly: real, period: real, lastRel: real, duration: real)
    requires endEarly == EndGap(duration, lastRel) && period > 0.0
    ensures RawEdges(startDelay, lastRel, duration, period) == Raws(EdgeEvents(startDelay, endEarly, period, lastRel))
    ensures LostFromDuration(period, EdgeEvents(startDelay, endEarly, period, lastRel))
  {
  }

  lemma {:induction false} InsertRaw(x: LossEvent, s: seq<LossEvent>)
    ensures InsertTimed(Raw(x), Raws(s)) == Raws(InsertTimed(x, s))
  {
    if s == [] || x.at <= s[0].at {
      assert Raws([x] + s) == [Raw(x)] + Raws(s);
    } else {
      InsertRaw(x, s[1..]);
      assert Raws([s[0]] + InsertTimed(x, s[1..])) == [Raw(s[0])] + Raws(InsertTimed(x, s[1..]));
    }
  }

  lemma {:induction false} SortRaw(s: seq<LossEvent>)
    ensures SortTimed(Raws(s)) == Raws(SortTimed(s))
  {
    if s == [] {
    } else {
      SortRaw(s[1..]);
      InsertRaw(s[0], SortTimed(s[1..]));
    }
  }

  lemma SortKeepsLost(period: real, events: seq<LossEvent>)
    requires period > 0.0 && LostFromDuration(period, events)
    ensures LostFromDuration(period, SortTimed(events))
  {
    SortTimedOrdered(events);
    var sorted := SortTimed(events);
    forall i | 0 <= i < |sorted| ensures sorted[i].what.lost == Lost(sorted[i].what.duration, period) {
      assert sorted[i] in multiset(events);
      var k :| 0 <= k < |events| && events[k] == sorted[i];
    }
  }

  lemma {:induction false} GapsOfRaws(period: real, events: seq<LossEvent>)
    requires period > 0.0 && LostFromDuration(period, events)
    ensures ToGaps(period, Raws(events)) == AsGaps(events)
  {
    if events == [] {
    } else {
      GapsOfRaws(period, events[1..]);
      assert Raws(events)[1..] == Raws(events[1..]);
    }
  }

  lemma JoinedGaps(period: real, edges: seq<LossEvent>, middle: seq<LossEvent>)
    requires period > 0.0 && LostFromDuration(period, edges) && LostFromDuration(period, middle)
    ensures ToGaps(period, TimeMerged(Raws(edges), Raws(middle))) == AsGaps(TimeMerged(edges, middle))
  {
    SnocRaws(edges, middle);
    SortRaw(edges + middle);
    JoinedLost(period, edges, middle);
    SortKeepsLost(period, edges + middle);
    GapsOfRaws(period, SortTimed(edges + middle));
  }

  lemma TwoOrMoreAgree(ts: seq<real>, start: real, duration: real, period: real)
    requires |ts| >= 2 && period > 0.0
    ensures ToGaps(period, SortedRaw(ts, start, duration, period)) == AsGaps(SortedReport(ts, start, duration, period))
  {
    var first, end, last := StartDelay(ts, start), EndEarly(ts, start, duration), LastRel(ts, start);
    SameMiddle(ts, period, start);
    SameEdges(first, end, period, last, duration);
    Agree(period, EdgeEvents(first, end, period, last), Events(Intervals(ts), ts, period, start),
          RawEdges(first, last, duration, period), RawGaps(ts, period, start));
  }

  lemma Agree(period: real, edges: seq<LossEvent>, middle: seq<LossEvent>, rawEdges: seq<RawGap>,
              rawMiddle: seq<RawGap>)
    requires period > 0.0
    requires rawEdges == Raws(edges) && rawMiddle == Raws(middle)
    requires LostFromDuration(period, edges) && LostFromDuration(period, middle)
    ensures ToGaps(period, TimeMerged(rawEdges, rawMiddle)) == AsGaps(TimeMerged(edges, middle))
  {
    JoinedGaps(period, edges, middle);
  }

  /** A span over 1.5 periods has lost at least one message, so the threshold is the only test that matters. */
  lemma OverThresholdLoses(span: real, period: real)
    requires period > 0.0 && span > period * 1.5
    ensures Lost(span, period) > 0
  {
    var x := span / period;
    assert x * period == span;
    SameSign(x - 1.5, period);
    RoundAtLeastTwo(x);
  }

  lemma RoundAtLeastTwo(x: real)
    requires x > 1.5
    ensures Round(x) >= 2
  {
    assert x.Floor >= 1;
  }

  lemma LoneMessage(t: real, start: real, duration: real, period: real)
    requires period > 0.0
    ensures ToGaps(period, SortedRaw([t], start, duration, period)) == [] <==>
            t - start <= period * 1.5 && start + duration - t <= period * 1.5
  {
    var first := StartDelay([t], start);
    LoneEdges(first, start + duration - t, duration, period);
    LoneMerge(RawEdges(first, first, duration, period));
    assert LastRel([t], start) == first && RawGaps([t], period, start) == [];
  }

  lemma LoneMerge(edges: seq<RawGap>)
    ensures TimeMerged(edges, []) == [] <==> edges == []
  {
    assert edges + [] == edges;
    SortTimedOrdered(edges);
  }

  lemma LoneEdges(first: real, endGap: real, duration: real, period: real)
    requires period > 0.0 && endGap == EndGap(duration, first)
    ensures RawEdges(first, first, duration, period) == [] <==> first <= period * 1.5 && endGap <= period * 1.5
  {
    if first > period * 1.5 { OverThresholdLoses(first, period); }
    if endGap > period * 1.5 { OverThresholdLoses(endGap, period); }
  }

  /** The report skips its edge check for a lone message while the timeline does not: the two lists agree for every
      input but a single message more than 1.5 periods away from an end of the recording. */
  lemma DetectorsAgree(timestamps: seq<real>, start: real, duration: real, hz: real)
    requires hz > 0.0
    ensures TimelineGaps(timestamps, start, duration, hz) == AsGaps(ReportEvents(timestamps, start, duration, hz)) <==>
            (|timestamps| == 1 ==>
               timestamps[0] - start <= (1.0 / hz) * 1.5 && start + duration - timestamps[0] <= (1.0 / hz) * 1.5)
  {
    SortRealsSorted(timestamps);
    if |timestamps| >= 2 {
      TwoOrMoreAgree(SortReals(timestamps), start, duration, 1.0 / hz);
    } else {
      SortRealsIdentity(timestamps);
      if |timestamps| == 1 {
        assert timestamps == [timestamps[0]];
        LoneMessage(timestamps[0], start, duration, 1.0 / hz);
      }
    }
  }

  /** The disagreement: one message two seconds into a four second recording at 1 Hz. */
  lemma LoneMessageDisagrees()
    ensures TimelineGaps([2.0], 0.0, 4.0, 1.0) != AsGaps(ReportEvents([2.0], 0.0, 4.0, 1.0))
  {
    DetectorsAgree([2.0], 0.0, 4.0, 1.0);
  }

  // ---- Messages and losses account for the grid ----

  /** The length of `k` periods. */
  function Periods(k: int, period: real): real { k as real * period }

  lemma PeriodsGrow(k: int, l: int, period: real)
    requires k <= l && period > 0.0
    ensures Periods(k, period) <= Periods(l, period)
    ensures Periods(l, period) - Periods(k, period) == Periods(l - k, period)
    ensures Periods(1, period) == period && Periods(2, period) == period + period
    ensures Periods(k, period) / period == k as real
  {
    Product((l - k) as real, period);
    assert (l - k) as real * period == l as real * period - k as real * period;
  }

  /** Grid positions of the timestamps: `ts[i] == base + slots[i] * period`. */
  ghost predicate OnGrid(ts: seq<real>, slots: seq<int>, base: real, period: real) {
    && |ts| == |slots|
    && (forall i :: 0 <= i < |ts| ==> ts[i] == base + Periods(slots[i], period))
    && (forall i, j :: 0 <= i < j < |slots| ==> slots[i] < slots[j])
  }

  /** Periods skipped by the first `n` intervals that are at or below the threshold. */
  function Unseen(intervals: seq<real>, slots: seq<int>, threshold: real, n: nat): int
    requires n <= |intervals| < |slots|
  {
    if n == 0 then 0
    else Unseen(intervals, slots, threshold, n - 1)
         + if intervals[n - 1] > threshold then 0 else slots[n] - slots[n - 1] - 1
  }

  lemma SpanOfSlots(ts: seq<real>, slots: seq<int>, base: real, period: real, i: nat)
    requires OnGrid(ts, slots, base, period) && period > 0.0 && i + 1 < |ts|
    ensures slots[i] < slots[i + 1] && Intervals(ts)[i] == Periods(slots[i + 1] - slots[i], period)
    ensures Lost(Intervals(ts)[i], period) == slots[i + 1] - slots[i] - 1
  {
    PeriodsGrow(slots[i], slots[i + 1], period);
    LostOfPeriods(slots[i + 1] - slots[i], period);
  }

  /** A span of `k` periods has lost `k - 1` messages. */
  lemma LostOfPeriods(k: int, period: real)
    requires k >= 1 && period > 0.0
    ensures Lost(Periods(k, period), period) == k - 1
  {
    PeriodsGrow(k, k, period);
    RoundNear(k as real, k);
  }

  lemma {:induction false} TotalLostSnoc(events: seq<LossEvent>, more: seq<LossEvent>)
    requires |more| <= 1
    ensures TotalLost(events + more) == TotalLost(events) + if more == [] then 0 else more[0].what.lost
  {
    if more == [] { assert events + more == events; } else { assert (events + more)[..|events|] == events; }
  }

  /** Skipped periods are counted as lost when their interval is over the threshold and missed otherwise. */
  lemma {:induction false} Accounted(ts: seq<real>, slots: seq<int>, base: real, period: real, threshold: real,
                                     start: real, n: nat)
    requires OnGrid(ts, slots, base, period) && period > 0.0 && n < |ts|
    ensures TotalLost(EventsUpTo(Intervals(ts), ts, threshold, period, start, n)) +
            Unseen(Intervals(ts), slots, threshold, n)
            == slots[n] - slots[0] - n
  {
    if n == 0 {
    } else {
      Accounted(ts, slots, base, period, threshold, start, n - 1);
      SpanOfSlots(ts, slots, base, period, n - 1);
      TotalLostSnoc(EventsUpTo(Intervals(ts), ts, threshold, period, start, n - 1),
                    EventOf(ts[n - 1] - start, Intervals(ts)[n - 1], threshold, period));
    }
  }

  lemma {:induction false} UnseenBound(intervals: seq<real>, slots: seq<int>, threshold: real, n: nat, i: nat)
    requires i < n <= |intervals| < |slots|
    requires forall k, l :: 0 <= k < l < |slots| ==> slots[k] < slots[l]
    ensures Unseen(intervals, slots, threshold, n) >=
            if intervals[i] > threshold then 0 else slots[i + 1] - slots[i] - 1
    decreases n
  {
    if i < n - 1 {
      UnseenBound(intervals, slots, threshold, n - 1, i);
    } else if n > 1 {
      UnseenBound(intervals, slots, threshold, n - 1, n - 2);
    }
  }

  lemma {:induction false} NothingUnseen(ts: seq<real>, slots: seq<int>, base: real, period: real, threshold: real,
                                         n: nat)
    requires OnGrid(ts, slots, base, period) && period > 0.0 && n < |ts| && threshold == period * 1.5
    ensures Unseen(Intervals(ts), slots, threshold, n) == 0
  {
    if n == 0 {
    } else {
      NothingUnseen(ts, slots, base, period, threshold, n - 1);
      SpanOfSlots(ts, slots, base, period, n - 1);
      var k := slots[n] - slots[n - 1];
      if k >= 2 { PeriodsGrow(2, k, period); }
    }
  }

  /** The middle events of the report: those of the interval detector. */
  function MiddleLost(ts: seq<real>, period: real, start: real): int
    requires |ts| >= 2
  {
    TotalLost(Events(Intervals(ts), ts, period, start))
  }

  lemma SortedFrom(s: seq<real>, k: nat) returns (i: nat)
    requires k < |s|
    ensures |SortReals(s)| == |s| && i < |s| && SortReals(s)[k] == s[i]
  {
    SortRealsSorted(s);
    var x := SortReals(s)[k];
    assert x in s;
    i :| 0 <= i < |s| && s[i] == x;
  }

  /** Every interval of a grid spans at least one period, and the quartiles are intervals. */
  lemma QuartilesAreIntervals(ts: seq<real>, slots: seq<int>, base: real, period: real)
    returns (i: nat)
    requires OnGrid(ts, slots, base, period) && period > 0.0 && |ts| >= 2
    ensures i < |ts| - 1 && Intervals(ts)[i] == Quartile3(Intervals(ts))
    ensures period <= Quartile1(Intervals(ts)) <= Quartile3(Intervals(ts))
  {
    var n := |ts| - 1;
    i := SortedFrom(Intervals(ts), n * 3 / 4);
    var j := SortedFrom(Intervals(ts), n / 4);
    SortRealsSorted(Intervals(ts));
    SpanOfSlots(ts, slots, base, period, j);
    PeriodsGrow(1, slots[j + 1] - slots[j], period);
  }

  lemma MiddleIsScan(ts: seq<real>, period: real, start: real)
    requires |ts| >= 2 && period > 0.0
    ensures var intervals := Intervals(ts);
            MiddleLost(ts, period, start) ==
            TotalLost(EventsUpTo(intervals, ts, Threshold(intervals, period), period, start, |intervals|))
  {
    var intervals := Intervals(ts);
    if |intervals| < 4 {
      forall i | 0 <= i < |intervals| ensures intervals[i] <= Threshold(intervals, period) {
        FewIntervalsDetectNothing(intervals, period, i);
      }
      NoIntervalEvents(intervals, ts, Threshold(intervals, period), period, start, |intervals|);
    }
  }

  lemma UnseenDecides(ts: seq<real>, slots: seq<int>, base: real, period: real)
    requires OnGrid(ts, slots, base, period) && period > 0.0 && |ts| >= 2
    ensures Unseen(Intervals(ts), slots, Threshold(Intervals(ts), period), |ts| - 1) == 0 <==>
            Quartile3(Intervals(ts)) == period
  {
    var intervals := Intervals(ts);
    var threshold, n := Threshold(intervals, period), |ts| - 1;
    var i := QuartilesAreIntervals(ts, slots, base, period);
    if Quartile3(intervals) == period {
      assert threshold == period * 1.5;
      NothingUnseen(ts, slots, base, period, threshold, n);
    } else {
      SpanOfSlots(ts, slots, base, period, i);
      PeriodsGrow(1, slots[i + 1] - slots[i], period);
      assert slots[i + 1] - slots[i] != 1;
      assert intervals[i] <= threshold;
      UnseenBound(intervals, slots, threshold, n, i);
    }
  }

  /** On strictly increasing grid stamps, messages plus the losses of the non-edge events equal the grid slots from
      first to last exactly when the third-quartile interval is one period. Once a quarter of the intervals are gaps,
      the quartile itself is a gap and the threshold hides it. */
  lemma LossesAccountForGrid(ts: seq<real>, slots: seq<int>, base: real, period: real, start: real)
    requires OnGrid(ts, slots, base, period) && period > 0.0 && |ts| >= 2
    ensures |ts| + MiddleLost(ts, period, start) == slots[|ts| - 1] - slots[0] + 1 <==>
            Quartile3(Intervals(ts)) == period
  {
    MiddleIsScan(ts, period, start);
    Accounted(ts, slots, base, period, Threshold(Intervals(ts), period), start, |ts| - 1);
    UnseenDecides(ts, slots, base, period);
  }

  /** Losing every second message throughout a recording of any length is reported as no loss at all. */
  lemma EverySecondLostIsUnseen(ts: seq<real>, period: real, start: real)
    requires |ts| >= 2 && period > 0.0
    requires forall i :: 0 <= i < |ts| - 1 ==> Intervals(ts)[i] == 2.0 * period
    ensures MiddleLost(ts, period, start) == 0
  {
    var intervals := Intervals(ts);
    var n := |intervals|;
    var i := SortedFrom(intervals, n * 3 / 4);
    var j := SortedFrom(intervals, n / 4);
    MiddleIsScan(ts, period, start);
    NoIntervalEvents(intervals, ts, Threshold(intervals, period), period, start, n);
  }
}
