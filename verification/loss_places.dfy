/** Where the reported losses lie: each is a stretch without messages between two messages or an end of the recording,
    and every such stretch that is long enough is reported, once. */
module LossPlaces {
  import opened Numbers
  import opened Sorting
  import opened LossDetection
  import opened LossTheorems

  // ---- The threshold, by ranks ----

  function CountBelow(s: seq<real>, x: real): nat {
    if s == [] then 0 else (if s[0] < x then 1 else 0) + CountBelow(s[1..], x)
  }

  function CountUpTo(s: seq<real>, x: real): nat {
    if s == [] then 0 else (if s[0] <= x then 1 else 0) + CountUpTo(s[1..], x)
  }

  /** `x` is an element of rank `k`: at most `k` elements are smaller, and more than `k` are not larger. */
  ghost predicate Ranked(s: seq<real>, k: nat, x: real) {
    x in s && CountBelow(s, x) <= k < CountUpTo(s, x)
  }

  /** The span is above the quartile fence of the intervals and above one and a half periods. */
  ghost predicate OverFence(intervals: seq<real>, period: real, span: real) {
    exists q1, q3 ::
      && Ranked(intervals, |intervals| / 4, q1) && Ranked(intervals, |intervals| * 3 / 4, q3)
      && span > q3 + 1.5 * (q3 - q1) && span > period * 1.5
  }

  lemma {:induction false} InsertCounts(x: real, s: seq<real>, y: real)
    ensures CountBelow(InsertReal(x, s), y) == CountBelow(s, y) + if x < y then 1 else 0
    ensures CountUpTo(InsertReal(x, s), y) == CountUpTo(s, y) + if x <= y then 1 else 0
  {
    if s == [] || x <= s[0] {
      assert ([x] + s)[1..] == s;
    } else {
      InsertCounts(x, s[1..], y);
      assert ([s[0]] + InsertReal(x, s[1..]))[1..] == InsertReal(x, s[1..]);
    }
  }

  lemma {:induction false} SortCounts(s: seq<real>, y: real)
    ensures CountBelow(SortReals(s), y) == CountBelow(s, y) && CountUpTo(SortReals(s), y) == CountUpTo(s, y)
  {
    if s != [] {
      SortCounts(s[1..], y);
      InsertCounts(s[0], SortReals(s[1..]), y);
    }
  }

  /** In a sorted list the elements before position `k` are not larger, those after it not smaller. */
  lemma {:induction false} SortedCounts(s: seq<real>, k: nat, x: real)
    requires Sorted(s) && k < |s| && s[k] == x
    ensures CountBelow(s, x) <= k < CountUpTo(s, x)
  {
    if k > 0 {
      SortedCounts(s[1..], k - 1, x);
      assert s[0] <= s[k];
    } else {
      NoneBelow(s, x);
    }
  }

  lemma {:induction false} NoneBelow(s: seq<real>, x: real)
    requires forall i :: 0 <= i < |s| ==> x <= s[i]
    ensures CountBelow(s, x) == 0
  {
    if s != [] { NoneBelow(s[1..], x); }
  }

  lemma {:induction false} SmallerCounts(s: seq<real>, x: real, y: real)
    requires x < y
    ensures CountUpTo(s, x) <= CountBelow(s, y)
  {
    if s != [] { SmallerCounts(s[1..], x, y); }
  }

  lemma SortedIsRanked(s: seq<real>, k: nat)
    requires k < |s|
    ensures |SortReals(s)| == |s| && Ranked(s, k, SortReals(s)[k])
  {
    SortRealsSorted(s);
    SortedCounts(SortReals(s), k, SortReals(s)[k]);
    SortCounts(s, SortReals(s)[k]);
    assert SortReals(s)[k] in SortReals(s);
  }

  lemma RankIsUnique(s: seq<real>, k: nat, x: real, y: real)
    requires Ranked(s, k, x) && Ranked(s, k, y)
    ensures x == y
  {
    if x < y { SmallerCounts(s, x, y); }
    if y < x { SmallerCounts(s, y, x); }
  }

  /** The threshold of both detectors is the fence. */
  lemma FenceIsThreshold(intervals: seq<real>, period: real, span: real)
    requires intervals != []
    ensures OverFence(intervals, period, span) <==> span > Threshold(intervals, period)
  {
    var n := |intervals|;
    SortedIsRanked(intervals, n / 4);
    SortedIsRanked(intervals, n * 3 / 4);
    var a, b := Quartile1(intervals), Quartile3(intervals);
    assert Ranked(intervals, n / 4, a) && Ranked(intervals, n * 3 / 4, b);
    if OverFence(intervals, period, span) {
      var q1, q3 :| && Ranked(intervals, n / 4, q1) && Ranked(intervals, n * 3 / 4, q3)
                    && span > q3 + 1.5 * (q3 - q1) && span > period * 1.5;
      RankIsUnique(intervals, n / 4, q1, a);
      RankIsUnique(intervals, n * 3 / 4, q3, b);
    }
  }

  // ---- The number of lost messages ----

  /** Of a span over one and a half periods, one message less than the nearest number of periods is missing. */
  lemma LostIsNearest(span: real, period: real)
    requires period > 0.0 && span > period * 1.5
    ensures Lost(span, period) >= 1
    ensures Periods(2 * Lost(span, period) + 1, period) <= 2.0 * span <= Periods(2 * Lost(span, period) + 3, period)
  {
    var x := span / period;
    OverThresholdLoses(span, period);
    RoundIsNear(x);
    Doubled(x, span, period);
    PeriodsBound(2.0 * x, 2.0 * span, 2 * Lost(span, period) + 1, 2 * Lost(span, period) + 3, period);
  }

  lemma Doubled(x: real, span: real, period: real)
    requires period > 0.0 && x == span / period
    ensures (2.0 * x) * period == 2.0 * span
  {
    assert x * period == span;
    assert (2.0 * x) * period == 2.0 * (x * period);
  }

  lemma RoundIsNear(x: real)
    ensures (2 * Round(x) - 1) as real <= 2.0 * x <= (2 * Round(x) + 1) as real
  {
  }

  lemma PeriodsBound(x: real, span: real, k: int, l: int, period: real)
    requires k as real <= x <= l as real && period > 0.0 && x * period == span
    ensures Periods(k, period) <= span <= Periods(l, period)
  {
    Product(x - k as real, period);
    Product(l as real - x, period);
    assert (x - k as real) * period == x * period - k as real * period;
    assert (l as real - x) * period == l as real * period - x * period;
  }

  // ---- Stretches without messages ----

  /** No message lies strictly between the two times. */
  ghost predicate Silent(timestamps: seq<real>, a: real, b: real) {
    forall x :: x in timestamps ==> !(a < x < b)
  }

  /** Two consecutive messages. */
  ghost predicate Between(timestamps: seq<real>, a: real, b: real) {
    a in timestamps && b in timestamps && a < b && Silent(timestamps, a, b)
  }

  ghost predicate Earliest(timestamps: seq<real>, b: real) {
    b in timestamps && forall x :: x in timestamps ==> b <= x
  }

  ghost predicate Latest(timestamps: seq<real>, a: real) {
    a in timestamps && forall x :: x in timestamps ==> x <= a
  }

  /** What is reported of a span. */
  function LossFor(span: real, period: real): Loss
    requires period > 0.0
  {
    Loss(span, Lost(span, period), SeverityOf(Lost(span, period)))
  }

  /** The stretch from `a` to `b` is to be reported: two consecutive messages over the fence, or an end of the recording
      and the message next to it, more than one and a half periods apart. */
  ghost predicate LongSilence(timestamps: seq<real>, start: real, duration: real, period: real, a: real, b: real) {
    || (Between(timestamps, a, b) && OverFence(Intervals(SortReals(timestamps)), period, b - a))
    || (a == start && Earliest(timestamps, b) && b - a > period * 1.5)
    || (Latest(timestamps, a) && b == start + duration && b - a > period * 1.5)
  }

  /** The event stands for such a stretch, at its place. */
  ghost predicate Reports(timestamps: seq<real>, start: real, duration: real, period: real, e: LossEvent)
    requires period > 0.0
  {
    && e.what == LossFor(e.what.duration, period)
    && LongSilence(timestamps, start, duration, period, start + e.at, start + e.at + e.what.duration)
  }

  // ---- The middle events ----

  lemma EventMeans(at: real, span: real, threshold: real, period: real, e: LossEvent)
    requires period > 0.0 && threshold >= period * 1.5
    ensures e in EventOf(at, span, threshold, period) <==>
            e == Timed(at, LossFor(span, period)) && span > threshold
  {
    if span > threshold { OverThresholdLoses(span, period); }
  }

  /** Event `e` is that of interval `i`. */
  ghost predicate OfInterval(intervals: seq<real>, ts: seq<real>, threshold: real, period: real, start: real,
                             e: LossEvent, i: nat)
    requires period > 0.0 && i < |intervals| < |ts|
  {
    e == Timed(ts[i] - start, LossFor(intervals[i], period)) && intervals[i] > threshold
  }

  lemma {:induction false} ScanMeans(intervals: seq<real>, ts: seq<real>, threshold: real, period: real, start: real,
                                     n: nat, e: LossEvent)
    requires period > 0.0 && n <= |intervals| < |ts| && threshold >= period * 1.5
    ensures e in EventsUpTo(intervals, ts, threshold, period, start, n) <==>
            exists i: nat :: i < n && OfInterval(intervals, ts, threshold, period, start, e, i)
  {
    if n > 0 {
      ScanMeans(intervals, ts, threshold, period, start, n - 1, e);
      EventMeans(ts[n - 1] - start, intervals[n - 1], threshold, period, e);
      assert e in EventOf(ts[n - 1] - start, intervals[n - 1], threshold, period) <==>
             OfInterval(intervals, ts, threshold, period, start, e, n - 1);
    }
  }

  /** Where consecutive messages stand in the sorted list. */
  lemma {:induction false} GapIndex(ts: seq<real>, a: real, b: real) returns (i: nat)
    requires Sorted(ts) && Between(ts, a, b)
    ensures i + 1 < |ts| && ts[i] == a && ts[i + 1] == b
  {
    i := LastUpTo(ts, a);
    var k :| 0 <= k < |ts| && ts[k] == a;
    var l :| 0 <= l < |ts| && ts[l] == b;
    assert k <= i && ts[k] <= ts[i];
    assert i + 1 <= l && ts[i + 1] <= ts[l];
    assert ts[i + 1] in ts;
  }

  /** The last position whose stamp is not after `a`. */
  lemma {:induction false} LastUpTo(ts: seq<real>, a: real) returns (i: nat)
    requires Sorted(ts) && a in ts
    ensures i < |ts| && ts[i] <= a && forall j :: i < j < |ts| ==> ts[j] > a
  {
    var n := |ts| - 1;
    if ts[n] <= a {
      i := n;
    } else {
      assert ts == ts[..n] + [ts[n]];
      i := LastUpTo(ts[..n], a);
    }
  }

  lemma ConsecutiveIsBetween(ts: seq<real>, i: nat)
    requires Sorted(ts) && i + 1 < |ts| && ts[i] < ts[i + 1]
    ensures Between(ts, ts[i], ts[i + 1])
  {
    forall x | x in ts ensures !(ts[i] < x < ts[i + 1]) {
      var k :| 0 <= k < |ts| && ts[k] == x;
      if k <= i { assert ts[k] <= ts[i]; } else { assert ts[i + 1] <= ts[k]; }
    }
  }

  /** The middle stretch of an event. */
  ghost predicate ReportsMiddle(ts: seq<real>, start: real, period: real, e: LossEvent)
    requires period > 0.0
  {
    && e.what == LossFor(e.what.duration, period)
    && Between(ts, start + e.at, start + e.at + e.what.duration) && OverFence(Intervals(ts), period, e.what.duration)
  }

  lemma IntervalReports(ts: seq<real>, start: real, period: real, e: LossEvent, i: nat)
    requires Sorted(ts) && period > 0.0 && i + 1 < |ts|
    requires OfInterval(Intervals(ts), ts, Threshold(Intervals(ts), period), period, start, e, i)
    ensures ReportsMiddle(ts, start, period, e)
  {
    FenceIsThreshold(Intervals(ts), period, Intervals(ts)[i]);
    ConsecutiveIsBetween(ts, i);
    assert start + (ts[i] - start) == ts[i] && ts[i] + Intervals(ts)[i] == ts[i + 1];
  }

  lemma ReportedInterval(ts: seq<real>, start: real, period: real, e: LossEvent) returns (i: nat)
    requires Sorted(ts) && period > 0.0 && |ts| >= 2 && ReportsMiddle(ts, start, period, e)
    ensures i < |Intervals(ts)|
    ensures OfInterval(Intervals(ts), ts, Threshold(Intervals(ts), period), period, start, e, i)
  {
    i := GapIndex(ts, start + e.at, start + e.at + e.what.duration);
    FenceIsThreshold(Intervals(ts), period, e.what.duration);
    IsOfInterval(Intervals(ts), ts, Threshold(Intervals(ts), period), period, start, e, i);
  }

  lemma IsOfInterval(intervals: seq<real>, ts: seq<real>, threshold: real, period: real, start: real, e: LossEvent,
                     i: nat)
    requires period > 0.0 && i < |intervals| < |ts| && e.what == LossFor(e.what.duration, period)
    requires ts[i] == start + e.at && intervals[i] == ts[i + 1] - ts[i]
    requires ts[i + 1] == start + e.at + e.what.duration && e.what.duration > threshold
    ensures OfInterval(intervals, ts, threshold, period, start, e, i)
  {
  }

  lemma MiddleMeans(ts: seq<real>, start: real, period: real, e: LossEvent)
    requires Sorted(ts) && period > 0.0 && |ts| >= 2
    ensures e in Events(Intervals(ts), ts, period, start) <==> ReportsMiddle(ts, start, period, e)
  {
    var intervals := Intervals(ts);
    var threshold := Threshold(intervals, period);
    ScanMeans(intervals, ts, threshold, period, start, |intervals|, e);
    EventsAreScanned(ts, start, period);
    if e in Events(intervals, ts, period, start) {
      var i: nat :| i < |intervals| && OfInterval(intervals, ts, threshold, period, start, e, i);
      IntervalReports(ts, start, period, e, i);
    }
    if ReportsMiddle(ts, start, period, e) {
      var i := ReportedInterval(ts, start, period, e);
    }
  }

  /** With few intervals the scan finds nothing, as the early return says. */
  lemma EventsAreScanned(ts: seq<real>, start: real, period: real)
    requires period > 0.0 && |ts| >= 2
    ensures Events(Intervals(ts), ts, period, start) ==
            EventsUpTo(Intervals(ts), ts, Threshold(Intervals(ts), period), period, start, |Intervals(ts)|)
  {
    var intervals := Intervals(ts);
    if |intervals| < 4 {
      forall i | 0 <= i < |intervals| ensures intervals[i] <= Threshold(intervals, period) {
        FewIntervalsDetectNothing(intervals, period, i);
      }
      NoIntervalEvents(intervals, ts, Threshold(intervals, period), period, start, |intervals|);
    }
  }

  // ---- The edges ----

  ghost predicate ReportsEdge(ts: seq<real>, start: real, duration: real, period: real, e: LossEvent)
    requires period > 0.0
  {
    var a, b := start + e.at, start + e.at + e.what.duration;
    && e.what == LossFor(e.what.duration, period) && e.what.duration > period * 1.5
    && ((a == start && Earliest(ts, b)) || (Latest(ts, a) && b == start + duration))
  }

  lemma EndsOfSorted(ts: seq<real>, x: real)
    requires Sorted(ts) && ts != []
    ensures Earliest(ts, x) <==> x == ts[0]
    ensures Latest(ts, x) <==> x == ts[|ts| - 1]
  {
    assert ts[0] in ts && ts[|ts| - 1] in ts;
    forall y | y in ts ensures ts[0] <= y <= ts[|ts| - 1] {
      var k :| 0 <= k < |ts| && ts[k] == y;
      if k > 0 { assert ts[0] <= ts[k]; }
      if k < |ts| - 1 { assert ts[k] <= ts[|ts| - 1]; }
    }
  }

  lemma EdgesMean(ts: seq<real>, start: real, duration: real, period: real, e: LossEvent)
    requires Sorted(ts) && ts != [] && period > 0.0
    ensures e in EdgeEvents(StartDelay(ts, start), EndEarly(ts, start, duration), period, LastRel(ts, start)) <==>
            ReportsEdge(ts, start, duration, period, e)
  {
    var first, end, last := StartDelay(ts, start), EndEarly(ts, start, duration), LastRel(ts, start);
    EventMeans(0.0, first, period * 1.5, period, e);
    EventMeans(last, end, period * 1.5, period, e);
    EndsOfSorted(ts, start + e.at + e.what.duration);
    EndsOfSorted(ts, start + e.at);
    EdgeShapes(ts, start, duration, period, e);
  }

  /** The two edge events, by their places. */
  lemma EdgeShapes(ts: seq<real>, start: real, duration: real, period: real, e: LossEvent)
    requires ts != [] && period > 0.0
    ensures e == Timed(0.0, LossFor(StartDelay(ts, start), period)) <==>
            && e.what == LossFor(e.what.duration, period)
            && start + e.at == start && start + e.at + e.what.duration == ts[0]
    ensures e == Timed(LastRel(ts, start), LossFor(EndEarly(ts, start, duration), period)) <==>
            && e.what == LossFor(e.what.duration, period)
            && start + e.at == ts[|ts| - 1] && start + e.at + e.what.duration == start + duration
  {
  }

  // ---- All events ----

  lemma InMerged<T>(edges: seq<Timed<T>>, middle: seq<Timed<T>>, e: Timed<T>)
    ensures e in TimeMerged(edges, middle) <==> e in edges || e in middle
  {
    SortTimedOrdered(edges + middle);
    SameMembers(TimeMerged(edges, middle), edges + middle);
  }

  lemma SameContents(timestamps: seq<real>)
    ensures forall a, b :: Between(SortReals(timestamps), a, b) <==> Between(timestamps, a, b)
    ensures forall b :: Earliest(SortReals(timestamps), b) <==> Earliest(timestamps, b)
    ensures forall a :: Latest(SortReals(timestamps), a) <==> Latest(timestamps, a)
  {
    SortRealsSorted(timestamps);
  }

  /** The events of sorted timestamps before the report leaves out those of a lone message. */
  function AllEvents(ts: seq<real>, start: real, duration: real, period: real): seq<LossEvent>
    requires ts != []
  {
    TimeMerged(EdgeEvents(StartDelay(ts, start), EndEarly(ts, start, duration), period, LastRel(ts, start)),
               Events(Intervals(ts), ts, period, start))
  }

  lemma OneHasNoMiddle(ts: seq<real>, start: real, period: real, e: LossEvent)
    requires |ts| == 1 && period > 0.0
    ensures Events(Intervals(ts), ts, period, start) == [] && !ReportsMiddle(ts, start, period, e)
  {
  }

  lemma AllEventsMean(ts: seq<real>, start: real, duration: real, period: real, e: LossEvent)
    requires Sorted(ts) && ts != [] && period > 0.0
    ensures e in AllEvents(ts, start, duration, period) <==>
            ReportsMiddle(ts, start, period, e) || ReportsEdge(ts, start, duration, period, e)
  {
    if |ts| == 1 { OneHasNoMiddle(ts, start, period, e); } else { MiddleMeans(ts, start, period, e); }
    EdgesMean(ts, start, duration, period, e);
    InMerged(EdgeEvents(StartDelay(ts, start), EndEarly(ts, start, duration), period, LastRel(ts, start)),
             Events(Intervals(ts), ts, period, start), e);
  }

  lemma PlacesMean(timestamps: seq<real>, start: real, duration: real, period: real, e: LossEvent)
    requires period > 0.0
    ensures Reports(timestamps, start, duration, period, e) <==>
            ReportsMiddle(SortReals(timestamps), start, period, e)
            || ReportsEdge(SortReals(timestamps), start, duration, period, e)
  {
    SameContents(timestamps);
    assert start + e.at + e.what.duration - (start + e.at) == e.what.duration;
  }

  lemma SortedMeans(timestamps: seq<real>, start: real, duration: real, period: real, e: LossEvent)
    requires period > 0.0 && timestamps != []
    ensures SortReals(timestamps) != []
    ensures e in AllEvents(SortReals(timestamps), start, duration, period) <==>
            Reports(timestamps, start, duration, period, e)
  {
    SortRealsSorted(timestamps);
    AllEventsMean(SortReals(timestamps), start, duration, period, e);
    PlacesMean(timestamps, start, duration, period, e);
  }

  /** The quality report lists exactly the long silences of two or more messages, each at its place with its length
      and loss. */
  lemma ReportedIff(timestamps: seq<real>, start: real, duration: real, hz: real, e: LossEvent)
    requires hz > 0.0
    ensures 1.0 / hz > 0.0
    ensures e in ReportEvents(timestamps, start, duration, hz) <==>
            |timestamps| >= 2 && Reports(timestamps, start, duration, 1.0 / hz, e)
  {
    DivideByPeriod(1.0, hz);
    SortRealsSorted(timestamps);
    if |timestamps| >= 2 { SortedMeans(timestamps, start, duration, 1.0 / hz, e); }
  }

  // ---- The timeline ----

  /** A gap of the timeline as the report would list it. */
  function AsEvent(g: TimelineGap): LossEvent { Timed(g.start, Loss(g.duration, g.lost, g.severity)) }

  lemma {:induction false} AsGapsAt(events: seq<LossEvent>)
    ensures |AsGaps(events)| == |events|
    ensures forall i :: 0 <= i < |events| ==> AsGaps(events)[i] == AsGap(events[i])
  {
    if events != [] { AsGapsAt(events[1..]); }
  }

  lemma InGaps(events: seq<LossEvent>, g: TimelineGap)
    ensures g in AsGaps(events) <==> g.end == g.start + g.duration && AsEvent(g) in events
  {
    AsGapsAt(events);
    if g in AsGaps(events) {
      var i :| 0 <= i < |events| && AsGaps(events)[i] == g;
      assert AsEvent(g) == events[i];
    }
    if g.end == g.start + g.duration && AsEvent(g) in events {
      var i :| 0 <= i < |events| && events[i] == AsEvent(g);
      assert AsGap(events[i]) == g;
    }
  }

  lemma TimelineIsAllEvents(ts: seq<real>, start: real, duration: real, period: real)
    requires ts != [] && period > 0.0
    ensures ToGaps(period, SortedRaw(ts, start, duration, period)) == AsGaps(AllEvents(ts, start, duration, period))
  {
    if |ts| == 1 {
      var first, end, last := StartDelay(ts, start), EndEarly(ts, start, duration), LastRel(ts, start);
      SameEdges(first, end, period, last, duration);
      OneHasNoMiddle(ts, start, period, Timed(0.0, LossFor(0.0, period)));
      Agree(period, EdgeEvents(first, end, period, last), [], RawEdges(first, last, duration, period), []);
    } else {
      TwoOrMoreAgree(ts, start, duration, period);
    }
  }

  /** The timeline lists exactly the long silences of any number of messages. */
  lemma TimelineListsIff(timestamps: seq<real>, start: real, duration: real, hz: real, g: TimelineGap)
    requires hz > 0.0
    ensures 1.0 / hz > 0.0
    ensures g in TimelineGaps(timestamps, start, duration, hz) <==>
            g.end == g.start + g.duration && Reports(timestamps, start, duration, 1.0 / hz, AsEvent(g))
  {
    DivideByPeriod(1.0, hz);
    if timestamps != [] {
      SortedMeans(timestamps, start, duration, 1.0 / hz, AsEvent(g));
      TimelineIsAllEvents(SortReals(timestamps), start, duration, 1.0 / hz);
      InGaps(AllEvents(SortReals(timestamps), start, duration, 1.0 / hz), g);
    } else {
      NoMessagesNoSilence(start, duration, 1.0 / hz, AsEvent(g));
    }
  }

  lemma NoMessagesNoSilence(start: real, duration: real, period: real, e: LossEvent)
    requires period > 0.0
    ensures !Reports([], start, duration, period, e)
  {
  }

  // ---- What a report says, and what it leaves out ----

  /** No message lies strictly inside, and each end is a message or that end of the recording. */
  ghost predicate Empty(timestamps: seq<real>, start: real, duration: real, a: real, b: real) {
    && Silent(timestamps, a, b)
    && (a == start || a in timestamps) && (b == start + duration || b in timestamps)
  }

  lemma LongIsEmpty(timestamps: seq<real>, start: real, duration: real, period: real, a: real, b: real)
    requires LongSilence(timestamps, start, duration, period, a, b) && period > 0.0
    ensures Empty(timestamps, start, duration, a, b)
    ensures a < b
  {
  }

  lemma ReportsEmpty(timestamps: seq<real>, start: real, duration: real, period: real, e: LossEvent)
    requires period > 0.0 && Reports(timestamps, start, duration, period, e)
    ensures Empty(timestamps, start, duration, start + e.at, start + e.at + e.what.duration)
    ensures e.what.duration > 0.0
  {
    LongIsEmpty(timestamps, start, duration, period, start + e.at, start + e.at + e.what.duration);
  }

  lemma SilenceReports(timestamps: seq<real>, start: real, duration: real, period: real, a: real, b: real)
    requires period > 0.0 && LongSilence(timestamps, start, duration, period, a, b)
    ensures Reports(timestamps, start, duration, period, Timed(a - start, LossFor(b - a, period)))
  {
    var e := Timed(a - start, LossFor(b - a, period));
    assert start + e.at == a;
    assert a + e.what.duration == b;
  }

  /** No message lies inside a reported loss, and each of its ends is a message or an end of the recording. */
  lemma LossesAreEmpty(timestamps: seq<real>, start: real, duration: real, hz: real, e: LossEvent)
    requires hz > 0.0 && e in ReportEvents(timestamps, start, duration, hz)
    ensures Empty(timestamps, start, duration, start + e.at, start + e.at + e.what.duration)
    ensures e.what.duration > 0.0
  {
    ReportedIff(timestamps, start, duration, hz, e);
    ReportsEmpty(timestamps, start, duration, 1.0 / hz, e);
  }

  /** Every long silence is reported. */
  lemma SilencesAreReported(timestamps: seq<real>, start: real, duration: real, hz: real, a: real, b: real)
    requires hz > 0.0 && |timestamps| >= 2 && LongSilence(timestamps, start, duration, 1.0 / hz, a, b)
    ensures 1.0 / hz > 0.0
    ensures Timed(a - start, LossFor(b - a, 1.0 / hz)) in ReportEvents(timestamps, start, duration, hz)
  {
    DivideByPeriod(1.0, hz);
    ReportedIff(timestamps, start, duration, hz, Timed(a - start, LossFor(b - a, 1.0 / hz)));
    SilenceReports(timestamps, start, duration, 1.0 / hz, a, b);
  }

  // ---- Nothing is listed twice ----

  /** Pairwise different times. */
  ghost predicate Apart<T>(s: seq<Timed<T>>) { forall i, j :: 0 <= i < j < |s| ==> s[i].at != s[j].at }

  ghost predicate StrictlyRising<T>(s: seq<Timed<T>>) { forall i, j :: 0 <= i < j < |s| ==> s[i].at < s[j].at }

  ghost predicate Misses<T>(s: seq<Timed<T>>, at: real) { forall x :: x in s ==> x.at != at }

  lemma {:induction false} InsertMisses<T>(x: Timed<T>, s: seq<Timed<T>>, at: real)
    requires Misses(s, at) && x.at != at
    ensures Misses(InsertTimed(x, s), at)
  {
    if s == [] || x.at <= s[0].at {
    } else {
      InsertMisses(x, s[1..], at);
    }
  }

  lemma {:induction false} InsertRising<T>(x: Timed<T>, s: seq<Timed<T>>)
    requires StrictlyRising(s) && Misses(s, x.at)
    ensures StrictlyRising(InsertTimed(x, s))
  {
    if s == [] || x.at <= s[0].at {
      if s != [] { assert s[0] in s; }
    } else {
      InsertRising(x, s[1..]);
      var rest := InsertTimed(x, s[1..]);
      InsertTimedContents(x, s[1..]);
      forall i | 0 <= i < |rest| ensures s[0].at < rest[i].at {
        assert rest[i] in multiset(s[1..]) + multiset{x};
      }
    }
  }

  lemma {:induction false} SortRising<T>(s: seq<Timed<T>>)
    requires Apart(s)
    ensures StrictlyRising(SortTimed(s))
  {
    if s != [] {
      SortRising(s[1..]);
      SortTimedContents(s[1..]);
      forall x | x in SortTimed(s[1..]) ensures x.at != s[0].at {
        assert x in multiset(s[1..]);
        var k :| 0 <= k < |s[1..]| && s[1..][k] == x;
        assert s[k + 1] == x;
      }
      InsertRising(s[0], SortTimed(s[1..]));
    }
  }

  /** The first `n` intervals give events at different times, all before message `n`. */
  ghost predicate RisingBefore(events: seq<LossEvent>, low: real, high: real) {
    StrictlyRising(events) && forall i :: 0 <= i < |events| ==> low <= events[i].at < high
  }

  lemma OneMore(events: seq<LossEvent>, low: real, at: real, span: real, threshold: real, period: real, high: real)
    requires period > 0.0 && threshold > 0.0 && RisingBefore(events, low, at) && low <= at && at + span == high
    requires span >= 0.0
    ensures RisingBefore(events + EventOf(at, span, threshold, period), low, high)
  {
  }

  lemma {:induction false} EventsRise(intervals: seq<real>, ts: seq<real>, threshold: real, period: real, start: real,
                                      n: nat)
    requires Sorted(ts) && intervals == Intervals(ts) && period > 0.0 && threshold > 0.0 && n <= |intervals| < |ts|
    ensures RisingBefore(EventsUpTo(intervals, ts, threshold, period, start, n), ts[0] - start, ts[n] - start)
  {
    if n > 0 {
      EventsRise(intervals, ts, threshold, period, start, n - 1);
      assert ts[n - 1] <= ts[n];
      if n > 1 { assert ts[0] <= ts[n - 1]; }
      OneMore(EventsUpTo(intervals, ts, threshold, period, start, n - 1), ts[0] - start, ts[n - 1] - start,
              intervals[n - 1], threshold, period, ts[n] - start);
    }
  }

  lemma EdgesApart(middle: seq<LossEvent>, first: real, end: real, last: real, period: real)
    requires period > 0.0 && RisingBefore(middle, first, last) && first <= last
    ensures Apart(EdgeEvents(first, end, period, last) + middle)
  {
    var start, finish := EventOf(0.0, first, period * 1.5, period), EventOf(last, end, period * 1.5, period);
    ApartJoined(finish, middle);
    ApartJoined(start, finish + middle);
    assert EdgeEvents(first, end, period, last) + middle == start + (finish + middle);
  }

  lemma ApartJoined(a: seq<LossEvent>, b: seq<LossEvent>)
    requires |a| <= 1 && Apart(b) && (a != [] ==> Misses(b, a[0].at))
    ensures Apart(a + b)
  {
  }

  lemma AllEventsRise(ts: seq<real>, start: real, duration: real, period: real)
    requires Sorted(ts) && ts != [] && period > 0.0
    ensures StrictlyRising(AllEvents(ts, start, duration, period))
  {
    var middle := Events(Intervals(ts), ts, period, start);
    var first, end, last := StartDelay(ts, start), EndEarly(ts, start, duration), LastRel(ts, start);
    if |ts| >= 2 {
      EventsAreScanned(ts, start, period);
      EventsRise(Intervals(ts), ts, Threshold(Intervals(ts), period), period, start, |ts| - 1);
      assert ts[0] <= ts[|ts| - 1];
    }
    EdgesApart(middle, first, end, last, period);
    SortRising(EdgeEvents(first, end, period, last) + middle);
  }

  /** One ends before or where the other begins. */
  ghost predicate EndsBefore(a: LossEvent, b: LossEvent) { a.at + a.what.duration <= b.at }

  lemma StretchesInOrder(timestamps: seq<real>, start: real, duration: real, period: real, e: LossEvent, f: LossEvent)
    requires period > 0.0 && e.at < f.at
    requires Reports(timestamps, start, duration, period, e) && Reports(timestamps, start, duration, period, f)
    ensures EndsBefore(e, f)
  {
    ReportsEmpty(timestamps, start, duration, period, e);
    LaterIsAtMessage(timestamps, start, duration, period, start + e.at, start + f.at, start + f.at + f.what.duration);
  }

  /** A long silence that begins after a message, or after the start, begins at a message. */
  lemma LaterIsAtMessage(timestamps: seq<real>, start: real, duration: real, period: real, a: real, c: real, d: real)
    requires a < c && period > 0.0 && LongSilence(timestamps, start, duration, period, c, d)
    requires a == start || a in timestamps
    ensures c in timestamps
  {
  }

  /** The losses of the report stand in time order and do not overlap: none is listed twice. */
  lemma LossesAreDisjoint(timestamps: seq<real>, start: real, duration: real, hz: real, i: nat, j: nat)
    requires hz > 0.0 && i < j < |ReportEvents(timestamps, start, duration, hz)|
    ensures var events := ReportEvents(timestamps, start, duration, hz);
            events[i].at < events[j].at && EndsBefore(events[i], events[j])
  {
    var events := ReportEvents(timestamps, start, duration, hz);
    ReportedIff(timestamps, start, duration, hz, events[i]);
    ReportedIff(timestamps, start, duration, hz, events[j]);
    SortRealsSorted(timestamps);
    AllEventsRise(SortReals(timestamps), start, duration, 1.0 / hz);
    StretchesInOrder(timestamps, start, duration, 1.0 / hz, events[i], events[j]);
  }

  /** So do the gaps of the timeline. */
  lemma GapsAreDisjoint(timestamps: seq<real>, start: real, duration: real, hz: real, i: nat, j: nat)
    requires hz > 0.0 && i < j < |TimelineGaps(timestamps, start, duration, hz)|
    ensures var gaps := TimelineGaps(timestamps, start, duration, hz);
            gaps[i].start < gaps[j].start && gaps[i].end <= gaps[j].start
  {
    var gaps := TimelineGaps(timestamps, start, duration, hz);
    TimelineListsIff(timestamps, start, duration, hz, gaps[i]);
    TimelineListsIff(timestamps, start, duration, hz, gaps[j]);
    assert timestamps != [] by { if timestamps == [] { assert false; } }
    SortRealsSorted(timestamps);
    var ts := SortReals(timestamps);
    AllEventsRise(ts, start, duration, 1.0 / hz);
    TimelineIsAllEvents(ts, start, duration, 1.0 / hz);
    AsGapsAt(AllEvents(ts, start, duration, 1.0 / hz));
    StretchesInOrder(timestamps, start, duration, 1.0 / hz, AsEvent(gaps[i]), AsEvent(gaps[j]));
  }
}
