/** The live statistics of one topic as a value: `TopicStats` and `BaselineLearner` step by step, and the operations of
    `TopicMonitorService` on one topic. Times are `time.monotonic()` readings; 0.0 means "not started", as in the
    source. */
module TopicStatsSpec {
  import opened Wrappers
  import opened Numbers

  const HZ_WINDOW_SEC := 3.0
  const HZ_MIN_SAMPLE_SEC := 0.5
  const LOSS_RATE_WINDOW_SEC := 5.0
  const WARMUP_SEC := 1.0
  const MIN_SEC := 3.0
  const MIN_SAMPLES := 50

  datatype Status = Inactive | Ok | Warning | Danger

  datatype Learner = Learner(countStart: int, timeStart: real)

  datatype Stats = Stats(
    messageCount: int, baselineHz: Option<real>, baselineFixed: bool, firstReceived: Option<real>,
    windowStart: real, windowCount: int, lastLossRate: real, lastDropCount: int,
    lastStamp: real, stampWindowStart: real, stampLossCount: int, stampMsgCount: int, stampQuality: bool,
    gapThreshold: real, hzDropThreshold: real,
    hzCount: int, hzCountStart: real, lastMsgTime: real, cachedHz: real, cachedStatus: Status,
    learner: Learner)

  /** `_subscribe_to_topic`: a rate resolved from the YAML config is fixed, otherwise it is learned. */
  function Subscribed(expectedHz: Option<real>, stampQuality: bool, gapThreshold: real): Stats {
    Stats(0, expectedHz, expectedHz.Some?, None, 0.0, 0, 0.0, 0, 0.0, 0.0, 0, 0, stampQuality, gapThreshold, 0.5,
          0, 0.0, 0.0, 0.0, Inactive, Learner(0, 0.0))
  }

  /** `BaselineLearner.step`: the new snapshot and the rate to lock in, if any. */
  function LearnerStep(l: Learner, now: real, first: Option<real>, count: int, last: real): (Learner, Option<real>) {
    if first.None? then (l, None)
    else if l.timeStart == 0.0 then
      (if now - first.value >= WARMUP_SEC then Learner(count, now) else l, None)
    else
      var n := count - l.countStart;
      var elapsed := last - l.timeStart;
      if n < MIN_SAMPLES || elapsed < MIN_SEC then (l, None) else (l, Some(n as real / elapsed))
  }

  predicate HasRate(s: Stats) { s.baselineHz.Some? && s.baselineHz.value > 0.0 }

  /** `on_stamp`, first half: the receive counter. */
  function CountArrival(s: Stats, now: real): Stats {
    s.(hzCount := s.hzCount + 1, hzCountStart := if s.hzCountStart == 0.0 then now else s.hzCountStart)
  }

  /** How many messages the interval since the previous stamp is missing. */
  function LostSince(s: Stats, stamp: real): int
    requires HasRate(s)
  {
    var interval := stamp - s.lastStamp;
    var expected := 1.0 / s.baselineHz.value;
    DivideByPeriod(interval, s.baselineHz.value);
    if s.lastStamp > 0.0 && interval > expected * 1.5 then MaxInt(0, Round(interval / expected) - 1) else 0
  }

  /** `on_stamp`, second half: the stamp counters. */
  function CountStamp(s: Stats, now: real, stamp: Option<real>): Stats {
    if stamp.Some? && HasRate(s) then
      s.(stampWindowStart := if s.stampWindowStart == 0.0 then now else s.stampWindowStart,
         stampMsgCount := s.stampMsgCount + 1,
         stampLossCount := s.stampLossCount + LostSince(s, stamp.value),
         lastStamp := stamp.value)
    else s
  }

  function OnStamp(s: Stats, now: real, stamp: Option<real>): Stats {
    CountStamp(CountArrival(s, now), now, stamp)
  }

  function TickLossWindow(s: Stats, now: real): Stats {
    s.(windowCount := s.windowCount + 1, windowStart := if s.windowStart == 0.0 then now else s.windowStart)
  }

  /** `on_message` under the lock, while not paused. */
  function OnMessage(s: Stats, now: real, stamp: Option<real>): Stats {
    var seen := s.(firstReceived := if s.firstReceived.None? then Some(now) else s.firstReceived, lastMsgTime := now);
    var counted := OnStamp(seen, now, stamp);
    TickLossWindow(counted.(messageCount := counted.messageCount + 1), now)
  }

  function ComputeActualHz(s: Stats, now: real): real {
    if s.hzCountStart == 0.0 then 0.0
    else
      var elapsed := now - s.hzCountStart;
      if elapsed < HZ_MIN_SAMPLE_SEC then s.cachedHz else s.hzCount as real / elapsed
  }

  function ComputeStatus(s: Stats, now: real): Status {
    if s.messageCount == 0 || s.lastMsgTime == 0.0 then Inactive
    else if now - s.lastMsgTime > s.gapThreshold then Danger
    else if HasRate(s) && s.cachedHz < s.baselineHz.value * s.hzDropThreshold then Warning
    else Ok
  }

  function NoLoss(s: Stats): Stats { s.(lastLossRate := 0.0, lastDropCount := 0) }

  function StampElapsed(s: Stats, now: real): real {
    if s.stampWindowStart > 0.0 then now - s.stampWindowStart else 0.0
  }

  /** The stamp branch of `_compute_loss_rate`: publish, and restart the window once it is used up. */
  function StampLossRate(s: Stats, now: real): Stats
    requires StampElapsed(s, now) >= 1.0
  {
    var elapsed := StampElapsed(s, now);
    var total := s.stampMsgCount + s.stampLossCount;
    var rated := s.(lastLossRate := if total > 0 then s.stampLossCount as real / total as real else 0.0,
                    lastDropCount := Round(s.stampLossCount as real / elapsed));
    if elapsed >= LOSS_RATE_WINDOW_SEC then rated.(stampWindowStart := now, stampLossCount := 0, stampMsgCount := 0)
    else rated
  }

  function ExpectedCount(hz: real, elapsed: real): (expected: real)
    ensures hz > 0.0 && elapsed > 0.0 ==> expected > 0.0
  {
    hz * elapsed
  }

  function MissingShare(received: int, expected: real): real
    requires expected > 0.0
  {
    Max(0.0, 1.0 - received as real / expected)
  }

  function DropsPerSecond(received: int, expected: real, elapsed: real): int
    requires elapsed > 0.0
  {
    Round(Max(0.0, expected - received as real) / elapsed)
  }

  /** The count-based branch. */
  function CountLossRate(s: Stats, now: real): Stats
    requires HasRate(s)
  {
    var elapsed := now - s.windowStart;
    if s.windowStart == 0.0 || elapsed < 1.0 then NoLoss(s)
    else
      var expected := ExpectedCount(s.baselineHz.value, elapsed);
      var rated := s.(lastLossRate := MissingShare(s.windowCount, expected),
                      lastDropCount := DropsPerSecond(s.windowCount, expected, elapsed));
      if elapsed >= LOSS_RATE_WINDOW_SEC then rated.(windowStart := now, windowCount := 0) else rated
  }

  function ComputeLossRate(s: Stats, now: real): Stats {
    if !HasRate(s) then NoLoss(s)
    else if s.stampQuality && s.stampMsgCount > 0 && StampElapsed(s, now) >= 1.0 then StampLossRate(s, now)
    else CountLossRate(s, now)
  }

  /** `refresh_cache` up to the status: the receive window and the cached rate. */
  function RefreshHz(s: Stats, now: real): Stats {
    var cached := s.(cachedHz := ComputeActualHz(s, now));
    if cached.hzCountStart > 0.0 && now - cached.hzCountStart > HZ_WINDOW_SEC then
      cached.(hzCount := 0, hzCountStart := now)
    else cached
  }

  function RefreshCache(s: Stats, now: real): Stats {
    var windowed := RefreshHz(s, now);
    var judged := windowed.(cachedStatus := ComputeStatus(windowed, now));
    if judged.cachedStatus == Danger then NoLoss(judged) else ComputeLossRate(judged, now)
  }

  function MaybeLearn(s: Stats, now: real): (Stats, Option<real>) {
    if s.baselineHz.Some? then (s, None)
    else
      var (learner, hz) := LearnerStep(s.learner, now, s.firstReceived, s.messageCount, s.lastMsgTime);
      (s.(learner := learner, baselineHz := if hz.Some? then hz else s.baselineHz), hz)
  }

  /** One topic's share of `get_topic_stats`: learning runs before the refresh. */
  function Tick(s: Stats, now: real): Stats { RefreshCache(MaybeLearn(s, now).0, now) }

  /** `_reset_stats_timing`. */
  function ResetTiming(s: Stats): Stats {
    s.(messageCount := 0, firstReceived := None, windowStart := 0.0, windowCount := 0, lastLossRate := 0.0,
       lastDropCount := 0, lastMsgTime := 0.0, lastStamp := 0.0, stampWindowStart := 0.0, stampLossCount := 0,
       stampMsgCount := 0, hzCount := 0, hzCountStart := 0.0, learner := Learner(0, 0.0), cachedHz := 0.0,
       cachedStatus := Inactive)
  }

  function ResetBaseline(s: Stats): Stats {
    ResetTiming(if s.baselineFixed then s else s.(baselineHz := None))
  }
}
