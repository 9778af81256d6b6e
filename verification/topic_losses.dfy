/** When a refresh publishes which loss, from which messages, and what a restart forgets. */
module TopicLosses {
  import opened Wrappers
  import opened Numbers
  import opened TopicStatsSpec
  import opened TopicTheorems
  import opened TopicRates
  import opened TopicWindows

  /** A refresh that publishes the loss counted from stamps: there are some, over a second or more. */
  ghost predicate FromStamps(s: Stats, now: real) {
    && HasRate(Tick(s, now)) && Tick(s, now).cachedStatus != Danger
    && s.stampQuality && s.stampMsgCount > 0 && s.stampWindowStart > 0.0 && now - s.stampWindowStart >= 1.0
  }

  /** A refresh that publishes what is missing of the messages expected over a second or more. */
  ghost predicate FromCounts(s: Stats, now: real) {
    && HasRate(Tick(s, now)) && Tick(s, now).cachedStatus != Danger && !FromStamps(s, now)
    && s.windowStart != 0.0 && now - s.windowStart >= 1.0
  }

  /** The state a refresh rates the losses of. */
  function Rated(s: Stats, now: real): Stats {
    var windowed := RefreshHz(MaybeLearn(s, now).0, now);
    windowed.(cachedStatus := ComputeStatus(windowed, now))
  }

  lemma TickRates(s: Stats, now: real)
    ensures var r := Rated(s, now);
            && Tick(s, now) == (if r.cachedStatus == Danger then NoLoss(r) else ComputeLossRate(r, now))
            && r.windowStart == s.windowStart && r.windowCount == s.windowCount
            && r.stampWindowStart == s.stampWindowStart && r.stampMsgCount == s.stampMsgCount
            && r.stampLossCount == s.stampLossCount && r.stampQuality == s.stampQuality
  {
  }

  lemma RatesKeepBaseline(r: Stats, now: real)
    ensures ComputeLossRate(r, now).baselineHz == r.baselineHz && NoLoss(r).baselineHz == r.baselineHz
    ensures ComputeLossRate(r, now).cachedStatus == r.cachedStatus && NoLoss(r).cachedStatus == r.cachedStatus
  {
  }

  /** What is published from counts, and the window it leaves. */
  lemma CountsPublish(r: Stats, now: real)
    requires HasRate(r) && r.windowStart != 0.0 && now - r.windowStart >= 1.0
    ensures var t, elapsed := CountLossRate(r, now), now - r.windowStart;
            var expected := TimesHz(r.baselineHz.value, elapsed);
            && Part(t.lastLossRate, expected) == Max(0.0, expected - r.windowCount as real)
            && t.lastDropCount == Round(Max(0.0, expected - r.windowCount as real) / elapsed)
            && t.windowStart == (if elapsed >= 5.0 then now else r.windowStart)
            && t.windowCount == (if elapsed >= 5.0 then 0 else r.windowCount)
            && Open(t) == Open(r)
  {
    CountShare(r, now);
    assert ExpectedCount(r.baselineHz.value, now - r.windowStart) == TimesHz(r.baselineHz.value, now - r.windowStart);
  }

  lemma TickCounts(s: Stats, now: real)
    requires FromCounts(s, now)
    ensures HasRate(Rated(s, now)) && Tick(s, now) == CountLossRate(Rated(s, now), now)
    ensures Tick(s, now).baselineHz == Rated(s, now).baselineHz
  {
    TickRates(s, now);
    RatesKeepBaseline(Rated(s, now), now);
  }

  /** In every run, a loss published from counts is the share of the messages the rate calls for since the window began
      that were not heard in it; the window starts over once it is five seconds old. */
  lemma ShownLossFromCounts(expectedHz: Option<real>, stampQuality: bool, gap: real, clock: real, ops: seq<Op>,
                            now: real)
    requires clock > 0.0 && Follows(None, clock, Ear(false, []), ops + [StatsTick(now)])
    requires FromCounts(StatsAfter(expectedHz, stampQuality, gap, ops), now)
    ensures var s := StatsAfter(expectedHz, stampQuality, gap, ops);
            var t, elapsed := Tick(s, now), now - s.windowStart;
            var missing := Max(0.0, TimesHz(t.baselineHz.value, elapsed) - s.windowCount as real);
            && WindowOf(s.windowStart, s.windowCount, Arrivals(ops))
            && Part(t.lastLossRate, TimesHz(t.baselineHz.value, elapsed)) == missing
            && t.lastDropCount == Round(missing / elapsed)
            && t.windowStart == (if elapsed >= 5.0 then now else s.windowStart)
  {
    TopicHears(expectedHz, stampQuality, gap, None, clock, ops, now);
    var s := StatsAfter(expectedHz, stampQuality, gap, ops);
    TickCounts(s, now);
    TickRates(s, now);
    CountsPublish(Rated(s, now), now);
  }

  /** A loss published from stamps is the open window's, which starts over once it is five seconds old. */
  lemma StampsPublish(s: Stats, now: real)
    requires FromStamps(s, now) && s.stampLossCount >= 0
    ensures var t, elapsed := Tick(s, now), now - s.stampWindowStart;
            && Part(t.lastLossRate, (s.stampMsgCount + s.stampLossCount) as real) == s.stampLossCount as real
            && t.lastDropCount == Round(s.stampLossCount as real / elapsed)
            && t.stampWindowStart == (if elapsed >= 5.0 then now else s.stampWindowStart)
            && Open(t) == (if elapsed >= 5.0 then Tally(0, 0) else Open(s))
            && t.windowStart == s.windowStart && t.windowCount == s.windowCount
  {
    TickRates(s, now);
    var r := Rated(s, now);
    RatesKeepBaseline(r, now);
    assert Tick(s, now) == StampLossRate(r, now);
    StampShare(r, now);
  }

  /** In every other case no loss is shown and all windows go on. */
  lemma NothingPublished(s: Stats, now: real)
    requires !FromStamps(s, now) && !FromCounts(s, now)
    ensures var t := Tick(s, now);
            && t.lastLossRate == 0.0 && t.lastDropCount == 0
            && t.windowStart == s.windowStart && t.windowCount == s.windowCount
            && t.stampWindowStart == s.stampWindowStart && Open(t) == Open(s)
  {
    TickRates(s, now);
    RatesKeepBaseline(Rated(s, now), now);
  }

  // ---- Starting over ----

  /** What no call changes. */
  ghost predicate SameConfig(s: Stats, t: Stats) {
    && t.stampQuality == s.stampQuality && t.gapThreshold == s.gapThreshold
    && t.hzDropThreshold == s.hzDropThreshold && t.baselineFixed == s.baselineFixed
  }

  lemma MessageConfig(s: Stats, now: real, stamp: Option<real>)
    ensures SameConfig(s, OnMessage(s, now, stamp))
  {
  }

  lemma TickConfig(s: Stats, now: real)
    ensures SameConfig(s, Tick(s, now))
  {
  }

  lemma {:induction false} ConfigKept(m: Monitor, ops: seq<Op>)
    ensures SameConfig(m.stats, Run(m, ops).stats)
    decreases |ops|
  {
    if ops != [] {
      match ops[0] {
        case Message(now, stamp) => MessageConfig(m.stats, now, stamp);
        case StatsTick(now) => TickConfig(m.stats, now);
        case _ =>
      }
      ConfigKept(Apply(m, ops[0]), ops[1..]);
    }
  }

  /** Whatever came before, a reset topic is as newly subscribed, and a resumed one too but for the rate it keeps. */
  lemma RestartForgets(expectedHz: Option<real>, stampQuality: bool, gap: real, ops: seq<Op>)
    ensures var m := Monitor(false, Subscribed(expectedHz, stampQuality, gap));
            var s := Run(m, ops).stats;
            && Run(m, ops + [BaselineReset]).stats == m.stats
            && Run(m, ops + [Resume]) == Monitor(false, m.stats.(baselineHz := s.baselineHz))
            && (expectedHz.Some? ==> s.baselineHz == expectedHz)
  {
    var m := Monitor(false, Subscribed(expectedHz, stampQuality, gap));
    ConfigKept(m, ops);
    if expectedHz.Some? { FixedBaselineIsNeverChanged(m, ops); }
    OneMore(m, ops, BaselineReset);
    OneMore(m, ops, Resume);
    assert ResetTiming(Run(m, ops).stats) == m.stats.(baselineHz := Run(m, ops).stats.baselineHz);
  }

  lemma OneMore(m: Monitor, ops: seq<Op>, op: Op)
    ensures Run(m, ops + [op]) == Apply(Run(m, ops), op)
  {
    RunJoined(m, ops, [op]);
    var n := Run(m, ops);
    assert Run(n, [op]) == Run(Apply(n, op), []);
  }
}
