/** What the operator sees of a topic's losses: the published rate and drop count over whole runs. */
module TopicRates {
  import opened Wrappers
  import opened Numbers
  import opened TopicStatsSpec
  import opened TopicTheorems

  // ---- Ranges, in every run ----

  lemma RoundKeepsSign(x: real)
    requires x >= 0.0
    ensures Round(x) >= 0
  {
  }

  lemma QuotientKeepsSign(x: real, y: real)
    requires x >= 0.0 && y > 0.0
    ensures x / y >= 0.0
  {
    var q := x / y;
    SameSign(-q, y);
    assert (-q) * y == -x;
  }

  /** Counters do not go below zero, the published loss is a share and a count, and a stalled topic shows none. */
  ghost predicate Sane(s: Stats) {
    && s.stampMsgCount >= 0 && s.stampLossCount >= 0 && s.windowCount >= 0 && s.hzCount >= 0
    && s.cachedHz >= 0.0
    && 0.0 <= s.lastLossRate <= 1.0 && s.lastDropCount >= 0
    && (s.cachedStatus == Danger ==> s.lastLossRate == 0.0 && s.lastDropCount == 0)
  }

  lemma MessageSane(s: Stats, now: real, stamp: Option<real>)
    requires Sane(s)
    ensures Sane(OnMessage(s, now, stamp))
  {
  }

  lemma StampRateSane(s: Stats, now: real)
    requires Sane(s) && s.cachedStatus != Danger && StampElapsed(s, now) >= 1.0
    ensures Sane(StampLossRate(s, now))
  {
    var total := s.stampMsgCount + s.stampLossCount;
    if total > 0 { ShareRange(s.stampLossCount as real, total as real); }
    QuotientKeepsSign(s.stampLossCount as real, StampElapsed(s, now));
    RoundKeepsSign(s.stampLossCount as real / StampElapsed(s, now));
  }

  lemma MissingShareRange(received: int, expected: real)
    requires received >= 0 && expected > 0.0
    ensures 0.0 <= MissingShare(received, expected) <= 1.0
  {
    QuotientKeepsSign(received as real, expected);
  }

  lemma CountRateSane(s: Stats, now: real)
    requires Sane(s) && s.cachedStatus != Danger && HasRate(s)
    ensures Sane(CountLossRate(s, now))
  {
    var elapsed := now - s.windowStart;
    if s.windowStart != 0.0 && elapsed >= 1.0 {
      var expected := ExpectedCount(s.baselineHz.value, elapsed);
      MissingShareRange(s.windowCount, expected);
      QuotientKeepsSign(Max(0.0, expected - s.windowCount as real), elapsed);
      RoundKeepsSign(Max(0.0, expected - s.windowCount as real) / elapsed);
    }
  }

  lemma RefreshHzSane(s: Stats, now: real)
    requires Sane(s)
    ensures Sane(RefreshHz(s, now))
  {
    var elapsed := now - s.hzCountStart;
    if elapsed >= HZ_MIN_SAMPLE_SEC { QuotientKeepsSign(s.hzCount as real, elapsed); }
  }

  lemma LossRateSane(s: Stats, now: real)
    requires Sane(s) && s.cachedStatus != Danger
    ensures Sane(ComputeLossRate(s, now))
  {
    if HasRate(s) {
      if s.stampQuality && s.stampMsgCount > 0 && StampElapsed(s, now) >= 1.0 {
        StampRateSane(s, now);
      } else {
        CountRateSane(s, now);
      }
    }
  }

  lemma TickSane(s: Stats, now: real)
    requires Sane(s)
    ensures Sane(Tick(s, now))
  {
    var learned := MaybeLearn(s, now).0;
    RefreshHzSane(learned, now);
    var windowed := RefreshHz(learned, now);
    var judged := windowed.(cachedStatus := ComputeStatus(windowed, now));
    if judged.cachedStatus != Danger { LossRateSane(judged, now); }
  }

  lemma ApplySane(m: Monitor, op: Op)
    requires Sane(m.stats)
    ensures Sane(Apply(m, op).stats)
  {
    match op
    case Message(now, stamp) => MessageSane(m.stats, now, stamp);
    case StatsTick(now) => TickSane(m.stats, now);
    case Pause =>
    case Resume =>
    case BaselineReset =>
  }

  lemma {:induction false} RunSane(m: Monitor, ops: seq<Op>)
    requires Sane(m.stats)
    ensures Sane(Run(m, ops).stats)
    decreases |ops|
  {
    if ops == [] {
    } else {
      ApplySane(m, ops[0]);
      RunSane(Apply(m, ops[0]), ops[1..]);
    }
  }

  /** In every run, whatever the clock and the stamps: the published loss rate is between 0 and 1, rate and drop count
      are not negative, and a topic shown in danger publishes no loss. */
  lemma PublishedNumbersInRange(expectedHz: Option<real>, stampQuality: bool, gapThreshold: real, ops: seq<Op>)
    ensures var s := Run(Monitor(false, Subscribed(expectedHz, stampQuality, gapThreshold)), ops).stats;
            && 0.0 <= s.lastLossRate <= 1.0 && s.lastDropCount >= 0 && s.cachedHz >= 0.0
            && (s.cachedStatus == Danger ==> s.lastLossRate == 0.0 && s.lastDropCount == 0)
  {
    RunSane(Monitor(false, Subscribed(expectedHz, stampQuality, gapThreshold)), ops);
  }

  // ---- What the rate means ----

  /** A refresh that publishes from the stamp counters. */
  ghost predicate PublishesStamps(s: Stats, now: real) {
    && HasRate(s) && s.stampQuality && s.stampMsgCount > 0 && StampElapsed(s, now) >= 1.0
    && Tick(s, now).cachedStatus != Danger
  }

  /** A refresh that publishes from the message counter. */
  ghost predicate PublishesCounts(s: Stats, now: real) {
    && HasRate(s) && s.windowStart != 0.0 && now - s.windowStart >= 1.0
    && !(s.stampQuality && s.stampMsgCount > 0 && StampElapsed(s, now) >= 1.0)
    && Tick(s, now).cachedStatus != Danger
  }

  /** A share of a whole. */
  function Part(share: real, whole: real): real { share * whole }

  lemma ShareOf(part: real, whole: real)
    requires whole > 0.0
    ensures Part(part / whole, whole) == part
  {
  }

  lemma TickIsStampRate(s: Stats, now: real)
    requires PublishesStamps(s, now)
    ensures Tick(s, now).lastLossRate == StampLossRate(s, now).lastLossRate
    ensures Tick(s, now).lastDropCount == StampLossRate(s, now).lastDropCount
  {
  }

  /** The published rate is the open window's lost messages over its received and lost ones. */
  lemma StampRateIsShare(s: Stats, now: real)
    requires Sane(s) && PublishesStamps(s, now)
    ensures Part(Tick(s, now).lastLossRate, (s.stampMsgCount + s.stampLossCount) as real) == s.stampLossCount as real
    ensures Tick(s, now).lastDropCount == Round(s.stampLossCount as real / (now - s.stampWindowStart))
  {
    TickIsStampRate(s, now);
    StampShare(s, now);
  }

  lemma StampShare(s: Stats, now: real)
    requires s.stampMsgCount > 0 && s.stampLossCount >= 0 && StampElapsed(s, now) >= 1.0
    ensures Part(StampLossRate(s, now).lastLossRate, (s.stampMsgCount + s.stampLossCount) as real) ==
            s.stampLossCount as real
    ensures StampLossRate(s, now).lastDropCount == Round(s.stampLossCount as real / (now - s.stampWindowStart))
  {
    ShareOf(s.stampLossCount as real, (s.stampMsgCount + s.stampLossCount) as real);
  }

  lemma TickIsCountRate(s: Stats, now: real)
    requires PublishesCounts(s, now)
    ensures Tick(s, now).lastLossRate == CountLossRate(s, now).lastLossRate
    ensures Tick(s, now).lastDropCount == CountLossRate(s, now).lastDropCount
  {
  }

  lemma MissingShareTotal(received: int, expected: real)
    requires expected > 0.0
    ensures Part(MissingShare(received, expected), expected) == Max(0.0, expected - received as real)
  {
    ShareOf(received as real, expected);
    var share := received as real / expected;
    assert (1.0 - share) * expected == expected - received as real;
    SameSign(1.0 - share, expected);
  }

  lemma CountShare(s: Stats, now: real)
    requires HasRate(s) && s.windowStart != 0.0 && now - s.windowStart >= 1.0
    ensures var expected := ExpectedCount(s.baselineHz.value, now - s.windowStart);
            Part(CountLossRate(s, now).lastLossRate, expected) == Max(0.0, expected - s.windowCount as real)
  {
    MissingShareTotal(s.windowCount, ExpectedCount(s.baselineHz.value, now - s.windowStart));
  }

  /** The published rate times the messages expected since the window began is what is missing of them. */
  lemma CountRateIsShare(s: Stats, now: real)
    requires PublishesCounts(s, now)
    ensures var expected := ExpectedCount(s.baselineHz.value, now - s.windowStart);
            Part(Tick(s, now).lastLossRate, expected) == Max(0.0, expected - s.windowCount as real)
  {
    TickIsCountRate(s, now);
    CountShare(s, now);
  }

  // ---- The rate and the grid ----

  /** The grid slots the last `n` of the stamps `h` account for: those after the stamp before them, or from their
      first. */
  function Covered(hz: real, offset: real, h: seq<real>, n: nat): int
    requires n <= |h|
  {
    if n == 0 then 0
    else if n == |h| then Slot(hz, offset, h[n - 1]) - Slot(hz, offset, h[0]) + 1
    else Slot(hz, offset, h[|h| - 1]) - Slot(hz, offset, h[|h| - n - 1])
  }

  /** After the stamps `h`, the open window has counted every slot since its beginning as received or lost. */
  ghost predicate WindowOk(hz: real, offset: real, s: Stats, h: seq<real>) {
    && s.baselineHz == Some(hz) && 0 <= s.stampMsgCount <= |h|
    && s.lastStamp == (if h == [] then 0.0 else h[|h| - 1])
    && (h != [] ==> NearSlot(hz, offset, h[|h| - 1]))
    && s.stampMsgCount + s.stampLossCount == Covered(hz, offset, h, s.stampMsgCount)
  }

  function LastOf(h: seq<real>): Option<real> { if h == [] then None else Some(h[|h| - 1]) }

  lemma CoveredOneMore(hz: real, offset: real, h: seq<real>, n: nat, stamp: real)
    requires n <= |h|
    ensures Covered(hz, offset, h + [stamp], n + 1) ==
            if h == [] then 1
            else Covered(hz, offset, h, n) + Slot(hz, offset, stamp) - Slot(hz, offset, h[|h| - 1])
  {
  }

  lemma StampedWindow(m: Monitor, hz: real, offset: real, h: seq<real>, now: real, stamp: real)
    requires !m.paused && hz > 0.0 && WindowOk(hz, offset, m.stats, h) && NearSlot(hz, offset, stamp)
    requires h != [] ==> Slot(hz, offset, h[|h| - 1]) < Slot(hz, offset, stamp)
    ensures WindowOk(hz, offset, Apply(m, Message(now, Some(stamp))).stats, h + [stamp])
  {
    StampedMessage(m, now, stamp);
    CoveredOneMore(hz, offset, h, m.stats.stampMsgCount, stamp);
    if h != [] { LostBetweenSlots(m.stats, hz, offset, stamp); }
  }

  lemma TickWindow(hz: real, offset: real, s: Stats, h: seq<real>, now: real)
    requires hz > 0.0 && WindowOk(hz, offset, s, h)
    ensures WindowOk(hz, offset, Tick(s, now), h)
  {
    TickKeepsWindow(s, now);
  }

  /** A refresh leaves the stamp counters or starts both from zero. */
  lemma TickKeepsWindow(s: Stats, now: real)
    requires HasRate(s)
    ensures var t := Tick(s, now);
            && t.baselineHz == s.baselineHz && t.lastStamp == s.lastStamp && t.stampQuality == s.stampQuality
            && (Open(t) == Open(s) || Open(t) == Tally(0, 0))
  {
  }

  /** The stamps after one more operation. */
  function Heard(h: seq<real>, op: Op): seq<real> {
    if op.Message? && op.stamp.Some? then h + [op.stamp.value] else h
  }

  lemma NextWindow(m: Monitor, hz: real, offset: real, h: seq<real>, ops: seq<Op>)
    requires !m.paused && hz > 0.0 && WindowOk(hz, offset, m.stats, h) && ops != []
             && OnGrid(hz, offset, LastOf(h), ops)
    ensures WindowOk(hz, offset, Apply(m, ops[0]).stats, Heard(h, ops[0])) && !Apply(m, ops[0]).paused
    ensures OnGrid(hz, offset, LastOf(Heard(h, ops[0])), ops[1..])
  {
    match ops[0]
    case Message(now, Some(stamp)) => StampedWindow(m, hz, offset, h, now, stamp);
    case Message(now, None) => UnstampedMessage(m, now);
    case StatsTick(now) => TickWindow(hz, offset, m.stats, h, now);
  }

  lemma HeardAll(h: seq<real>, ops: seq<Op>)
    requires ops != []
    ensures Heard(h, ops[0]) + Stamps(ops[1..]) == h + Stamps(ops)
  {
  }

  lemma {:induction false} WindowAfter(m: Monitor, hz: real, offset: real, h: seq<real>, ops: seq<Op>)
    requires !m.paused && hz > 0.0 && WindowOk(hz, offset, m.stats, h) && OnGrid(hz, offset, LastOf(h), ops)
    ensures WindowOk(hz, offset, Run(m, ops).stats, h + Stamps(ops))
    decreases |ops|
  {
    if ops == [] {
      assert h + [] == h;
    } else {
      NextWindow(m, hz, offset, h, ops);
      WindowAfter(Apply(m, ops[0]), hz, offset, Heard(h, ops[0]), ops[1..]);
      HeardAll(h, ops);
    }
  }

  lemma WindowShare(hz: real, offset: real, s: Stats, h: seq<real>, now: real)
    requires Sane(s) && WindowOk(hz, offset, s, h) && PublishesStamps(s, now)
    ensures var n := s.stampMsgCount;
            && 0 < n <= |h| && n <= Covered(hz, offset, h, n)
            && Part(Tick(s, now).lastLossRate, Covered(hz, offset, h, n) as real) ==
               (Covered(hz, offset, h, n) - n) as real
  {
    StampRateIsShare(s, now);
  }

  /** On grid stamps, a rate published from the stamp counters is the share of the open window's grid slots that have no
      message, however messages and refreshes came before. */
  lemma PublishedRateIsMissingShare(hz: real, gapThreshold: real, offset: real, ops: seq<Op>, now: real)
    requires hz > 0.0 && OnGrid(hz, offset, None, ops)
    requires PublishesStamps(Run(Monitor(false, Subscribed(Some(hz), true, gapThreshold)), ops).stats, now)
    ensures var s := Run(Monitor(false, Subscribed(Some(hz), true, gapThreshold)), ops).stats;
            var n := s.stampMsgCount;
            && 0 < n <= |Stamps(ops)| && n <= Covered(hz, offset, Stamps(ops), n)
            && Part(Tick(s, now).lastLossRate, Covered(hz, offset, Stamps(ops), n) as real) ==
               (Covered(hz, offset, Stamps(ops), n) - n) as real
  {
    var m := Monitor(false, Subscribed(Some(hz), true, gapThreshold));
    RunSane(m, ops);
    WindowAfter(m, hz, offset, [], ops);
    assert [] + Stamps(ops) == Stamps(ops);
    WindowShare(hz, offset, Run(m, ops).stats, Stamps(ops), now);
  }
}
