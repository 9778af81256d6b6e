/** Loss events of the quality report (`analysis/models.py`) and gaps of the timeline (`timeline_analyzer.py`): two
    detectors written independently. Times are exact seconds; display rounding is not modelled. */
module LossDetection {
  import opened Numbers
  import opened Sorting

  datatype Severity = Minor | Major

  datatype Loss = Loss(duration: real, lost: int, severity: Severity)

  /** `LossEvent`: seconds since the recording start, and what was lost. */
  type LossEvent = Timed<Loss>

  function Lost(span: real, period: real): int
    requires period > 0.0
  {
    MaxInt(0, Round(span / period) - 1)
  }

  function SeverityOf(lost: int): Severity { if lost >= 3 then Major else Minor }

  /** Adjacent differences. */
  function Intervals(ts: seq<real>): (r: seq<real>)
    ensures |r| == if |ts| == 0 then 0 else |ts| - 1
    ensures forall i {:trigger r[i]} :: 0 <= i < |r| ==> r[i] == ts[i + 1] - ts[i]
  {
    if |ts| == 0 then [] else seq(|ts| - 1, i requires 0 <= i < |ts| - 1 => ts[i + 1] - ts[i])
  }

  function Quartile1(intervals: seq<real>): real
    requires intervals != []
  {
    SortRealsSorted(intervals);
    SortReals(intervals)[|intervals| / 4]
  }

  function Quartile3(intervals: seq<real>): real
    requires intervals != []
  {
    SortRealsSorted(intervals);
    SortReals(intervals)[|intervals| * 3 / 4]
  }

  /** Q3 + 1.5 IQR, and at least 1.5 expected periods. */
  function Threshold(intervals: seq<real>, period: real): real
    requires intervals != []
  {
    Max(Quartile3(intervals) + 1.5 * (Quartile3(intervals) - Quartile1(intervals)), period * 1.5)
  }

  // ---- Quality report ----

  /** The event of one span over a threshold, if it lost a message. */
  function EventOf(at: real, span: real, threshold: real, period: real): seq<LossEvent>
    requires period > 0.0
  {
    if span > threshold && Lost(span, period) > 0 then
      [Timed(at, Loss(span, Lost(span, period), SeverityOf(Lost(span, period))))]
    else []
  }

  /** The events among the first `n` intervals. */
  function EventsUpTo(intervals: seq<real>, ts: seq<real>, threshold: real, period: real, start: real,
                      n: nat): seq<LossEvent>
    requires period > 0.0 && n <= |intervals| < |ts|
  {
    if n == 0 then []
    else EventsUpTo(intervals, ts, threshold, period, start, n - 1)
         + EventOf(ts[n - 1] - start, intervals[n - 1], threshold, period)
  }

  function Events(intervals: seq<real>, ts: seq<real>, period: real, start: real): seq<LossEvent>
    requires |intervals| < |ts|
  {
    if |intervals| < 4 || period <= 0.0 then []
    else EventsUpTo(intervals, ts, Threshold(intervals, period), period, start, |intervals|)
  }

  method DetectLossEvents(intervals: seq<real>, ts: seq<real>, period: real, start: real)
    returns (events: seq<LossEvent>)
    requires |intervals| < |ts|
    ensures events == Events(intervals, ts, period, start)
  {
    if |intervals| < 4 || period <= 0.0 {
      return [];
    }
    SortRealsSorted(intervals);
    var sorted := SortReals(intervals);
    var n := |sorted|;
    var q1, q3 := sorted[n / 4], sorted[n * 3 / 4];
    var threshold := Max(q3 + 1.5 * (q3 - q1), period * 1.5);
    events := [];
    for i := 0 to |intervals|
      invariant events == EventsUpTo(intervals, ts, threshold, period, start, i)
    {
      if intervals[i] > threshold {
        var lost := Lost(intervals[i], period);
        if lost > 0 {
          events := events + [Timed(ts[i] - start, Loss(intervals[i], lost, if lost >= 3 then Major else Minor))];
        }
      }
    }
  }

  function EdgeEvents(startDelay: real, endEarly: real, period: real, lastRel: real): seq<LossEvent> {
    if period <= 0.0 then []
    else EventOf(0.0, startDelay, period * 1.5, period) + EventOf(lastRel, endEarly, period * 1.5, period)
  }

  method DetectEdgeLoss(startDelay: real, endEarly: real, period: real, lastRel: real) returns (events: seq<LossEvent>)
    ensures events == EdgeEvents(startDelay, endEarly, period, lastRel) && AllJudged(events)
  {
    EdgesJudged(startDelay, endEarly, period, lastRel);
    if period <= 0.0 {
      return [];
    }
    events := [];
    var threshold := period * 1.5;
    if startDelay > threshold {
      var lost := Lost(startDelay, period);
      if lost > 0 {
        events := events + [Timed(0.0, Loss(startDelay, lost, if lost >= 3 then Major else Minor))];
      }
    }
    assert events == EventOf(0.0, startDelay, threshold, period);
    if endEarly > threshold {
      var lost := Lost(endEarly, period);
      if lost > 0 {
        events := events + [Timed(lastRel, Loss(endEarly, lost, if lost >= 3 then Major else Minor))];
      }
    }
  }

  /** Edge and interval events of sorted timestamps, in time order. */
  function SortedReport(ts: seq<real>, start: real, duration: real, period: real): seq<LossEvent>
    requires |ts| >= 2
  {
    TimeMerged(EdgeEvents(StartDelay(ts, start), EndEarly(ts, start, duration), period, LastRel(ts, start)),
           Events(Intervals(ts), ts, period, start))
  }

  /** The empty stretches before the first and after the last message. */
  function StartDelay(ts: seq<real>, start: real): real
    requires ts != []
  {
    ts[0] - start
  }

  function EndEarly(ts: seq<real>, start: real, duration: real): real
    requires ts != []
  {
    start + duration - ts[|ts| - 1]
  }

  function LastRel(ts: seq<real>, start: real): real
    requires ts != []
  {
    ts[|ts| - 1] - start
  }

  function TimeMerged<T>(edges: seq<Timed<T>>, middle: seq<Timed<T>>): seq<Timed<T>> { SortTimed(edges + middle) }

  /** The report's loss events for a configured rate. */
  function ReportEvents(timestamps: seq<real>, start: real, duration: real, hz: real): seq<LossEvent>
    requires hz > 0.0
  {
    var ts := SortReals(timestamps);
    if |ts| < 2 then [] else SortedReport(ts, start, duration, 1.0 / hz)
  }

  function TotalLost(events: seq<LossEvent>): int {
    if events == [] then 0 else TotalLost(events[..|events| - 1]) + events[|events| - 1].what.lost
  }

  /** Every reported event lost at least one message, and is major from three on. */
  ghost predicate WellJudged(e: LossEvent) { e.what.lost > 0 && e.what.severity == SeverityOf(e.what.lost) }

  ghost predicate AllJudged(events: seq<LossEvent>) { forall i :: 0 <= i < |events| ==> WellJudged(events[i]) }

  /** The events that lost three messages or more. */
  function MajorLosses(events: seq<LossEvent>): (n: nat)
    ensures n <= |events|
  {
    if events == [] then 0
    else MajorLosses(events[..|events| - 1]) + if events[|events| - 1].what.lost >= 3 then 1 else 0
  }

  datatype QualityStatus = Ok | Warning | Danger

  const LOSS_RATE_WARN := 0.02
  const LOSS_RATE_DANGER := 0.05

  /** `_count_loss_rate`. */
  function CountLossRate(count: nat, hz: real, duration: real): real {
    if hz > 0.0 && duration > 0.0 then
      SameSign(hz, duration);
      Max(0.0, 1.0 - count as real / (hz * duration))
    else 0.0
  }

  /** `_status_from_loss_rate`. */
  function StatusFromLossRate(lossRate: real): QualityStatus {
    if lossRate > LOSS_RATE_DANGER then Danger
    else if lossRate > LOSS_RATE_WARN then Warning
    else Ok
  }

  /** Received and lost messages together. */
  function AllMessages(count: nat, lost: int): int { count + lost }

  function LossShare(lost: int, total: int): real {
    if total > 0 then lost as real / total as real else 0.0
  }

  /** `_determine_status`. */
  function DetermineStatus(majorLoss: nat, minorLoss: nat, count: nat, lossCount: int): QualityStatus {
    if count == 0 then Ok
    else StatusFromLosses(LossShare(lossCount, AllMessages(count, lossCount)), majorLoss, minorLoss)
  }

  function StatusFromLosses(lossRate: real, majorLoss: nat, minorLoss: nat): QualityStatus {
    if lossRate > LOSS_RATE_DANGER || majorLoss > 0 then Danger
    else if lossRate > LOSS_RATE_WARN || minorLoss > 0 then Warning
    else Ok
  }

  /** The loss part of a topic's quality. */
  datatype TopicLoss = TopicLoss(
    events: seq<LossEvent>, lossRate: real, lossCount: int, minorCount: nat, majorCount: nat, status: QualityStatus)

  /** The loss part of `TopicQuality.from_timestamps` under a configured rate. */
  method FromTimestamps(timestamps: seq<real>, start: real, duration: real, hz: real) returns (q: TopicLoss)
    requires hz > 0.0
    ensures q.events == ReportEvents(timestamps, start, duration, hz)
    ensures InTimeOrder(q.events) && AllJudged(q.events)
    ensures q.lossCount == TotalLost(q.events)
    ensures q.majorCount == MajorLosses(q.events) && q.minorCount == |q.events| - MajorLosses(q.events)
    ensures q.lossRate == CountLossRate(|timestamps|, hz, duration)
    ensures |timestamps| < 2 ==> q.status == StatusFromLossRate(q.lossRate)
    ensures |timestamps| >= 2 ==>
              && (q.status == Ok <==> q.events == [])
              && (q.status == Danger <==>
                    q.majorCount > 0 || Exceeds(q.lossCount, AllMessages(|timestamps|, q.lossCount), LOSS_RATE_DANGER))
  {
    SortRealsSorted(timestamps);
    var ts := SortReals(timestamps);
    var lossRate := CountLossRate(|ts|, hz, duration);
    if |ts| < 2 {
      return TopicLoss([], lossRate, 0, 0, 0, StatusFromLossRate(lossRate));
    }
    var events := DetectAll(ts, start, duration, 1.0 / hz);
    q := JudgeLosses(events, |ts|, lossRate);
  }

  /** The totals over the events and the status of a topic with `count` messages. */
  method JudgeLosses(events: seq<LossEvent>, count: nat, lossRate: real) returns (q: TopicLoss)
    requires count > 0 && AllJudged(events)
    ensures q.events == events && q.lossRate == lossRate
    ensures q.lossCount == TotalLost(q.events)
    ensures q.majorCount == MajorLosses(q.events) && q.minorCount == |q.events| - MajorLosses(q.events)
    ensures q.status == Ok <==> q.events == []
    ensures q.status == Danger <==>
              q.majorCount > 0 || Exceeds(q.lossCount, AllMessages(count, q.lossCount), LOSS_RATE_DANGER)
  {
    var lossCount, minorCount, majorCount := Totals(events);
    StatusMeans(events, count);
    return TopicLoss(events, lossRate, lossCount, minorCount, majorCount,
                     DetermineStatus(majorCount, minorCount, count, lossCount));
  }

  /** Interval and edge events together, in time order. */
  method DetectAll(ts: seq<real>, start: real, duration: real, period: real) returns (events: seq<LossEvent>)
    requires |ts| >= 2
    ensures events == SortedReport(ts, start, duration, period)
    ensures InTimeOrder(events) && AllJudged(events)
  {
    events := DetectLossEvents(Intervals(ts), ts, period, start);
    MiddleJudged(Intervals(ts), ts, period, start);
    events := AddEdgeEvents(ts, start, duration, period, events);
  }

  method AddEdgeEvents(ts: seq<real>, start: real, duration: real, period: real, middle: seq<LossEvent>)
    returns (events: seq<LossEvent>)
    requires ts != [] && AllJudged(middle)
    ensures events == TimeMerged(EdgeEvents(StartDelay(ts, start), EndEarly(ts, start, duration), period,
                                        LastRel(ts, start)), middle)
    ensures InTimeOrder(events) && AllJudged(events)
  {
    events := MergeEdges(StartDelay(ts, start), EndEarly(ts, start, duration), period, LastRel(ts, start), middle);
  }

  method MergeEdges(startDelay: real, endEarly: real, period: real, lastRel: real, middle: seq<LossEvent>)
    returns (events: seq<LossEvent>)
    requires AllJudged(middle)
    ensures events == TimeMerged(EdgeEvents(startDelay, endEarly, period, lastRel), middle)
    ensures InTimeOrder(events) && AllJudged(events)
  {
    var edges := DetectEdgeLoss(startDelay, endEarly, period, lastRel);
    JudgedSorted(edges, middle);
    events := TimeMerged(edges, middle);
  }

  /** The three sums over the events. */
  method Totals(events: seq<LossEvent>) returns (lossCount: int, minorCount: nat, majorCount: nat)
    requires AllJudged(events)
    ensures lossCount == TotalLost(events)
    ensures majorCount == MajorLosses(events) && minorCount == |events| - MajorLosses(events)
  {
    lossCount, minorCount, majorCount := 0, 0, 0;
    for i := 0 to |events|
      invariant lossCount == TotalLost(events[..i])
      invariant majorCount == MajorLosses(events[..i]) && minorCount == i - MajorLosses(events[..i])
    {
      assert events[..i + 1][..i] == events[..i];
      assert WellJudged(events[i]);
      lossCount := lossCount + events[i].what.lost;
      if events[i].what.severity == Major { majorCount := majorCount + 1; } else { minorCount := minorCount + 1; }
    }
    assert events[..|events|] == events;
  }

  /** More than this share of the whole. */
  predicate Exceeds(part: int, whole: int, limit: real) { part as real > limit * whole as real }

  lemma ShareExceeds(part: int, whole: int, limit: real)
    requires whole > 0
    ensures LossShare(part, whole) > limit <==> Exceeds(part, whole, limit)
  {
    var share := part as real / whole as real;
    assert share * whole as real == part as real;
    SameSign(share - limit, whole as real);
    assert (share - limit) * whole as real == part as real - limit * whole as real;
  }

  lemma {:induction false} LossesCounted(events: seq<LossEvent>)
    requires AllJudged(events)
    ensures TotalLost(events) >= |events| && (events == [] ==> TotalLost(events) == 0)
  {
    if events != [] {
      var n := |events| - 1;
      LossesCounted(events[..n]);
      assert WellJudged(events[n]);
    }
  }

  /** There is a major loss exactly when some event lost three messages or more. */
  lemma {:induction false} MajorLossExists(events: seq<LossEvent>)
    ensures MajorLosses(events) > 0 <==> exists i :: 0 <= i < |events| && events[i].what.lost >= 3
  {
    if events != [] {
      var n := |events| - 1;
      MajorLossExists(events[..n]);
      if MajorLosses(events[..n]) > 0 {
        var i :| 0 <= i < n && events[..n][i].what.lost >= 3;
        assert events[i].what.lost >= 3;
      }
    }
  }

  /** The status of a topic with messages: ok exactly without an event, danger exactly when some event is a
      major loss or more than one message in twenty is lost. */
  lemma StatusMeans(events: seq<LossEvent>, count: nat)
    requires count > 0 && AllJudged(events)
    ensures var major, lost := MajorLosses(events), TotalLost(events);
            var status := DetermineStatus(major, |events| - major, count, lost);
            && (status == Ok <==> events == [])
            && (status == Danger <==>
                  major > 0 || 20 * lost > count + lost)
  {
    LossesCounted(events);
    OneInTwenty(TotalLost(events), AllMessages(count, TotalLost(events)));
    StatusOfCounts(MajorLosses(events), |events| - MajorLosses(events), count, TotalLost(events));
  }

  lemma OneInTwenty(part: int, whole: int)
    ensures Exceeds(part, whole, LOSS_RATE_DANGER) <==> 20 * part > whole
  {
  }

  lemma StatusOfCounts(major: nat, minor: nat, count: nat, lost: int)
    requires count > 0 && lost >= major + minor && (major + minor == 0 ==> lost == 0)
    ensures var status := DetermineStatus(major, minor, count, lost);
            && (status == Ok <==> major + minor == 0)
            && (status == Danger <==> major > 0 || Exceeds(lost, AllMessages(count, lost), LOSS_RATE_DANGER))
  {
    ShareExceeds(lost, AllMessages(count, lost), LOSS_RATE_DANGER);
    StatusFrom(LossShare(lost, AllMessages(count, lost)), major, minor);
    if lost == 0 { NoShare(AllMessages(count, lost)); }
  }

  lemma NoShare(total: int)
    requires total > 0
    ensures LossShare(0, total) == 0.0
  {
  }

  lemma StatusFrom(lossRate: real, major: nat, minor: nat)
    ensures var status := StatusFromLosses(lossRate, major, minor);
            && (status == Danger <==> lossRate > LOSS_RATE_DANGER || major > 0)
            && (status == Ok <==> lossRate <= LOSS_RATE_WARN && major == 0 && minor == 0)
  {
  }

  lemma RateExceeds(count: nat, expected: real, limit: real)
    requires expected > 0.0 && limit >= 0.0
    ensures Max(0.0, 1.0 - count as real / expected) > limit <==> count as real < (1.0 - limit) * expected
  {
    var share := count as real / expected;
    assert share * expected == count as real;
    SameSign(1.0 - share - limit, expected);
    assert (1.0 - share - limit) * expected == (1.0 - limit) * expected - count as real;
  }

  /** A topic with too few messages for intervals is judged by its count alone: in danger exactly below 95% of the
      messages its rate and the duration call for, ok from 98% on. */
  lemma FewMessagesStatus(count: nat, hz: real, duration: real)
    requires hz > 0.0
    ensures var status := StatusFromLossRate(CountLossRate(count, hz, duration));
            && (status == Danger <==> duration > 0.0 && count as real < 0.95 * (hz * duration))
            && (status == Ok <==> duration <= 0.0 || count as real >= 0.98 * (hz * duration))
  {
    if duration > 0.0 {
      SameSign(hz, duration);
      RateExceeds(count, hz * duration, LOSS_RATE_DANGER);
      RateExceeds(count, hz * duration, LOSS_RATE_WARN);
    }
  }

  lemma {:induction false} JudgedUpTo(intervals: seq<real>, ts: seq<real>, threshold: real, period: real, start: real,
                                      n: nat)
    requires period > 0.0 && n <= |intervals| < |ts|
    ensures AllJudged(EventsUpTo(intervals, ts, threshold, period, start, n))
  {
    if n > 0 {
      JudgedUpTo(intervals, ts, threshold, period, start, n - 1);
      OneJudged(ts[n - 1] - start, intervals[n - 1], threshold, period);
      BothJudged(EventsUpTo(intervals, ts, threshold, period, start, n - 1),
                 EventOf(ts[n - 1] - start, intervals[n - 1], threshold, period));
    }
  }

  lemma OneJudged(at: real, span: real, threshold: real, period: real)
    requires period > 0.0
    ensures AllJudged(EventOf(at, span, threshold, period))
  {
  }

  lemma BothJudged(a: seq<LossEvent>, b: seq<LossEvent>)
    requires AllJudged(a) && AllJudged(b)
    ensures AllJudged(a + b)
  {
  }

  lemma EdgesJudged(startDelay: real, endEarly: real, period: real, lastRel: real)
    ensures AllJudged(EdgeEvents(startDelay, endEarly, period, lastRel))
  {
    if period > 0.0 {
      OneJudged(0.0, startDelay, period * 1.5, period);
      OneJudged(lastRel, endEarly, period * 1.5, period);
      BothJudged(EventOf(0.0, startDelay, period * 1.5, period), EventOf(lastRel, endEarly, period * 1.5, period));
    }
  }

  lemma MiddleJudged(intervals: seq<real>, ts: seq<real>, period: real, start: real)
    requires |intervals| < |ts|
    ensures AllJudged(Events(intervals, ts, period, start))
  {
    if |intervals| >= 4 && period > 0.0 {
      JudgedUpTo(intervals, ts, Threshold(intervals, period), period, start, |intervals|);
    }
  }

  lemma JudgedSorted(edges: seq<LossEvent>, middle: seq<LossEvent>)
    requires AllJudged(edges) && AllJudged(middle)
    ensures InTimeOrder(TimeMerged(edges, middle)) && AllJudged(TimeMerged(edges, middle))
  {
    var events := SortTimed(edges + middle);
    SortTimedOrdered(edges + middle);
    forall i | 0 <= i < |events| ensures WellJudged(events[i]) {
      assert events[i] in multiset(edges + middle);
      var k :| 0 <= k < |edges + middle| && (edges + middle)[k] == events[i];
    }
  }

  // ---- Timeline ----

  datatype RawLoss = RawLoss(duration: real, severity: Severity)

  /** (relative timestamp, duration, severity). */
  type RawGap = Timed<RawLoss>

  datatype TimelineGap = TimelineGap(start: real, end: real, duration: real, lost: int, severity: Severity)

  function RawOf(at: real, span: real, threshold: real, period: real): seq<RawGap>
    requires period > 0.0
  {
    if span > threshold && Lost(span, period) > 0 then [Timed(at, RawLoss(span, SeverityOf(Lost(span, period))))]
    else []
  }

  function RawUpTo(intervals: seq<real>, ts: seq<real>, threshold: real, period: real, start: real, n: nat): seq<RawGap>
    requires period > 0.0 && n <= |intervals| < |ts|
  {
    if n == 0 then []
    else RawUpTo(intervals, ts, threshold, period, start, n - 1)
         + RawOf(ts[n - 1] - start, intervals[n - 1], threshold, period)
  }

  function RawGaps(ts: seq<real>, period: real, start: real): seq<RawGap> {
    if |ts| < 4 || period <= 0.0 then []
    else RawUpTo(Intervals(ts), ts, Threshold(Intervals(ts), period), period, start, |Intervals(ts)|)
  }

  method DetectLossEventsForTimeline(ts: seq<real>, period: real, start: real) returns (gaps: seq<RawGap>)
    ensures gaps == RawGaps(ts, period, start)
  {
    if |ts| < 4 || period <= 0.0 {
      return [];
    }
    var intervals := Intervals(ts);
    SortRealsSorted(intervals);
    var sorted := SortReals(intervals);
    var n := |sorted|;
    var q1, q3 := sorted[n / 4], sorted[n * 3 / 4];
    var threshold := Max(q3 + 1.5 * (q3 - q1), period * 1.5);
    assert threshold == Threshold(intervals, period);
    gaps := LongIntervals(intervals, ts, threshold, period, start);
  }

  /** The loop over the intervals. */
  method LongIntervals(intervals: seq<real>, ts: seq<real>, threshold: real, period: real, start: real)
    returns (gaps: seq<RawGap>)
    requires period > 0.0 && |intervals| < |ts|
    ensures gaps == RawUpTo(intervals, ts, threshold, period, start, |intervals|)
  {
    gaps := [];
    for i := 0 to |intervals|
      invariant gaps == RawUpTo(intervals, ts, threshold, period, start, i)
    {
      if intervals[i] > threshold {
        var lost := Lost(intervals[i], period);
        if lost > 0 {
          gaps := gaps + [Timed(ts[i] - start, RawLoss(intervals[i], if lost >= 3 then Major else Minor))];
        }
      }
    }
  }

  function EndGap(duration: real, lastRel: real): real { duration - lastRel }

  function RawEdges(firstRel: real, lastRel: real, duration: real, period: real): seq<RawGap> {
    if period <= 0.0 then []
    else RawOf(0.0, firstRel, period * 1.5, period) + RawOf(lastRel, EndGap(duration, lastRel), period * 1.5, period)
  }

  method DetectEdgeLossForTimeline(firstRel: real, lastRel: real, duration: real, period: real)
    returns (gaps: seq<RawGap>)
    ensures gaps == RawEdges(firstRel, lastRel, duration, period)
  {
    if period <= 0.0 {
      return [];
    }
    gaps := [];
    var threshold := period * 1.5;
    if firstRel > threshold {
      var lost := Lost(firstRel, period);
      if lost > 0 {
        gaps := gaps + [Timed(0.0, RawLoss(firstRel, if lost >= 3 then Major else Minor))];
      }
    }
    assert gaps == RawOf(0.0, firstRel, threshold, period);
    var endGap := EndGap(duration, lastRel);
    if endGap > threshold {
      var lost := Lost(endGap, period);
      if lost > 0 {
        gaps := gaps + [Timed(lastRel, RawLoss(endGap, if lost >= 3 then Major else Minor))];
      }
    }
  }

  function ToGap(period: real, g: RawGap): TimelineGap
    requires period > 0.0
  {
    TimelineGap(g.at, g.at + g.what.duration, g.what.duration, Lost(g.what.duration, period), g.what.severity)
  }

  function ToGaps(period: real, raw: seq<RawGap>): (r: seq<TimelineGap>)
    requires period > 0.0
    ensures |r| == |raw| && forall i :: 0 <= i < |raw| ==> r[i] == ToGap(period, raw[i])
  {
    if raw == [] then [] else [ToGap(period, raw[0])] + ToGaps(period, raw[1..])
  }

  /** Edge and interval gaps of sorted timestamps, in time order. */
  function SortedRaw(ts: seq<real>, start: real, duration: real, period: real): seq<RawGap> {
    if ts == [] then []
    else TimeMerged(RawEdges(StartDelay(ts, start), LastRel(ts, start), duration, period), RawGaps(ts, period, start))
  }

  /** The gaps of one topic in `_build_timeline` for a configured rate. */
  function TimelineGaps(timestamps: seq<real>, start: real, duration: real, hz: real): seq<TimelineGap>
    requires hz > 0.0
  {
    ToGaps(1.0 / hz, SortedRaw(SortReals(timestamps), start, duration, 1.0 / hz))
  }

  method BuildGaps(timestamps: seq<real>, start: real, duration: real, hz: real)
    returns (raw: seq<RawGap>, gaps: seq<TimelineGap>)
    requires hz > 0.0
    ensures raw == SortedRaw(SortReals(timestamps), start, duration, 1.0 / hz)
    ensures gaps == TimelineGaps(timestamps, start, duration, hz)
  {
    raw := CollectRaw(SortReals(timestamps), start, duration, 1.0 / hz);
    gaps := ConvertGaps(1.0 / hz, raw);
  }

  method CollectRaw(ts: seq<real>, start: real, duration: real, period: real) returns (raw: seq<RawGap>)
    requires period > 0.0
    ensures raw == SortedRaw(ts, start, duration, period)
  {
    raw := DetectLossEventsForTimeline(ts, period, start);
    if ts != [] && period > 0.0 {
      raw := AddEdges(ts, start, duration, period, raw);
    }
  }

  method AddEdges(ts: seq<real>, start: real, duration: real, period: real, middle: seq<RawGap>)
    returns (raw: seq<RawGap>)
    requires ts != []
    ensures var edges := RawEdges(StartDelay(ts, start), LastRel(ts, start), duration, period);
            raw == TimeMerged(edges, middle)
  {
    var edges := DetectEdgeLossForTimeline(StartDelay(ts, start), LastRel(ts, start), duration, period);
    raw := TimeMerged(edges, middle);
  }

  method ConvertGaps(period: real, raw: seq<RawGap>) returns (gaps: seq<TimelineGap>)
    requires period > 0.0
    ensures gaps == ToGaps(period, raw)
  {
    gaps := [];
    for i := 0 to |raw|
      invariant |gaps| == i && forall k :: 0 <= k < i ==> gaps[k] == ToGap(period, raw[k])
    {
      var g := raw[i];
      var lost := Lost(g.what.duration, period);
      gaps := gaps + [TimelineGap(g.at, g.at + g.what.duration, g.what.duration, lost, g.what.severity)];
    }
  }
}
