/** What a topic's live numbers say about the messages heard, over every run of the service: when it shows which status,
    and which messages its rate is measured from. */
module TopicWindows {
  import opened Wrappers
  import opened TopicStatsSpec
  import opened TopicTheorems

  /** A listener beside the service: the times of the messages since the topic was subscribed, resumed or reset. */
  datatype Ear = Ear(paused: bool, heard: seq<real>)

  function Listen(e: Ear, op: Op): Ear {
    match op
    case Message(now, _) => if e.paused then e else Ear(false, e.heard + [now])
    case StatsTick(_) => e
    case Pause => Ear(true, e.heard)
    case Resume => Ear(false, [])
    case BaselineReset => Ear(e.paused, [])
  }

  function ListenAll(e: Ear, ops: seq<Op>): Ear
    decreases |ops|
  {
    if ops == [] then e else ListenAll(Listen(e, ops[0]), ops[1..])
  }

  function Arrivals(ops: seq<Op>): seq<real> { ListenAll(Ear(false, []), ops).heard }

  function Last(h: seq<real>): real
    requires h != []
  {
    h[|h| - 1]
  }

  /** The clock never goes back from `clock` on; with a period, the messages heard come exactly that far apart. */
  predicate Follows(period: Option<real>, clock: real, e: Ear, ops: seq<Op>)
    decreases |ops|
  {
    ops == [] ||
    match ops[0]
    case Message(now, _) =>
      if e.paused then Follows(period, clock, e, ops[1..])
      else OnTime(period, clock, e.heard, now) && Follows(period, now, Listen(e, ops[0]), ops[1..])
    case StatsTick(now) => now >= clock && Follows(period, now, e, ops[1..])
    case _ => Follows(period, clock, Listen(e, ops[0]), ops[1..])
  }

  predicate OnTime(period: Option<real>, clock: real, h: seq<real>, now: real) {
    now >= clock && (period.Some? && h != [] ==> now == Last(h) + period.value)
  }

  /** The receive window that began at `start` has counted the last `n` of the messages. */
  ghost predicate WindowOf(start: real, n: int, h: seq<real>) {
    if h == [] then start == 0.0 && n == 0
    else
      && 0 <= n <= |h| && h[0] <= start
      && (n < |h| ==> h[|h| - n - 1] <= start) && (n > 0 ==> start <= h[|h| - n])
  }

  /** Message counter, first and last arrival are those of the messages heard. */
  ghost predicate Counted(s: Stats, h: seq<real>) {
    && s.messageCount == |h|
    && s.firstReceived == (if h == [] then None else Some(h[0]))
    && s.lastMsgTime == (if h == [] then 0.0 else Last(h))
  }

  ghost predicate InOrder(h: seq<real>, clock: real) {
    && clock > 0.0 && (h != [] ==> 0.0 < h[0] <= Last(h) <= clock)
  }

  ghost predicate Linked(s: Stats, h: seq<real>, clock: real) {
    && Counted(s, h) && InOrder(h, clock) && s.hzCountStart <= clock
    && WindowOf(s.hzCountStart, s.hzCount, h)
  }

  /** The window of the count-based loss rate. */
  ghost predicate LossLinked(s: Stats, h: seq<real>, clock: real) {
    s.windowStart <= clock && WindowOf(s.windowStart, s.windowCount, h)
  }

  /** The learner's snapshot: the messages before it, and a second after the first. */
  ghost predicate Snapped(l: Learner, h: seq<real>, clock: real) {
    l.timeStart == 0.0 ||
    (h != [] && 1 <= l.countStart <= |h| && h[0] + 1.0 <= l.timeStart <= clock)
  }

  ghost predicate Thresholds(s: Stats, gap: real) { s.gapThreshold == gap && s.hzDropThreshold == 0.5 }

  // ---- One call ----

  /** What a message does to the receive window. */
  lemma MessageReceived(s: Stats, now: real, stamp: Option<real>)
    ensures var t := OnMessage(s, now, stamp);
            && t.hzCount == s.hzCount + 1 && t.hzCountStart == (if s.hzCountStart == 0.0 then now else s.hzCountStart)
            && t.cachedHz == s.cachedHz && t.gapThreshold == s.gapThreshold && t.hzDropThreshold == s.hzDropThreshold
  {
  }

  /** What a refresh does to it: a window of half a second or more is measured, one of over three seconds restarted. */
  lemma TickReceived(s: Stats, now: real)
    ensures var t := Tick(s, now);
            var restarts := s.hzCountStart > 0.0 && now - s.hzCountStart > 3.0;
            && t.cachedHz == RateNow(s, now)
            && t.hzCount == (if restarts then 0 else s.hzCount)
            && t.hzCountStart == (if restarts then now else s.hzCountStart)
            && t.gapThreshold == s.gapThreshold && t.hzDropThreshold == s.hzDropThreshold
  {
    ReceivedFrame(s, now);
  }

  function RateNow(s: Stats, now: real): real {
    if s.hzCountStart == 0.0 then 0.0
    else if now - s.hzCountStart < 0.5 then s.cachedHz
    else s.hzCount as real / (now - s.hzCountStart)
  }

  predicate SameReceived(s: Stats, t: Stats) {
    && t.hzCount == s.hzCount && t.hzCountStart == s.hzCountStart && t.cachedHz == s.cachedHz
    && t.gapThreshold == s.gapThreshold && t.hzDropThreshold == s.hzDropThreshold
    && t.cachedStatus == s.cachedStatus
  }

  lemma RatesKeepReceived(s: Stats, now: real)
    ensures SameReceived(s, ComputeLossRate(s, now)) && SameReceived(s, NoLoss(s))
  {
  }

  lemma ReceivedFrame(s: Stats, now: real)
    ensures var windowed := RefreshHz(MaybeLearn(s, now).0, now);
            SameReceived(windowed.(cachedStatus := ComputeStatus(windowed, now)), Tick(s, now))
  {
    var windowed := RefreshHz(MaybeLearn(s, now).0, now);
    RatesKeepReceived(windowed.(cachedStatus := ComputeStatus(windowed, now)), now);
  }

  /** The status a refresh shows, from what it leaves behind. */
  lemma TickShows(s: Stats, now: real)
    requires s.hzDropThreshold == 0.5
    ensures var t := Tick(s, now);
            && (t.cachedStatus == Inactive <==> s.messageCount == 0 || s.lastMsgTime == 0.0)
            && (t.cachedStatus == Danger <==>
                  s.messageCount != 0 && s.lastMsgTime != 0.0 && now - s.lastMsgTime > s.gapThreshold)
            && (t.cachedStatus == Warning ==> HasRate(t) && 2.0 * t.cachedHz < t.baselineHz.value)
            && (t.cachedStatus == Ok ==> !(HasRate(t) && 2.0 * t.cachedHz < t.baselineHz.value))
  {
    ReceivedFrame(s, now);
    TickFrame(s, now);
  }

  lemma MessageLinked(s: Stats, h: seq<real>, clock: real, now: real, stamp: Option<real>)
    requires Linked(s, h, clock) && now >= clock
    ensures Linked(OnMessage(s, now, stamp), h + [now], now)
  {
    MessageFrame(s, now, stamp);
    MessageReceived(s, now, stamp);
    OneMoreCounted(s.hzCountStart, s.hzCount, h, now);
  }

  lemma OneMoreCounted(start: real, n: int, h: seq<real>, now: real)
    requires WindowOf(start, n, h) && start <= now && now > 0.0 && (h != [] ==> start > 0.0)
    ensures WindowOf(if start == 0.0 then now else start, n + 1, h + [now])
  {
    if h != [] {
      assert (h + [now])[|h + [now]| - (n + 1)] == if n == 0 then now else h[|h| - n];
      assert n < |h| ==> (h + [now])[|h + [now]| - (n + 1) - 1] == h[|h| - n - 1];
    }
  }

  lemma MessageLossLinked(s: Stats, h: seq<real>, clock: real, now: real, stamp: Option<real>)
    requires InOrder(h, clock) && LossLinked(s, h, clock) && now >= clock
    ensures LossLinked(OnMessage(s, now, stamp), h + [now], now)
  {
    MessageLossWindow(s, now, stamp);
    OneMoreCounted(s.windowStart, s.windowCount, h, now);
  }

  lemma MessageLossWindow(s: Stats, now: real, stamp: Option<real>)
    ensures var t := OnMessage(s, now, stamp);
            && t.windowCount == s.windowCount + 1
            && t.windowStart == (if s.windowStart == 0.0 then now else s.windowStart)
  {
  }

  /** A refresh keeps the loss window or, once there is one, restarts it. */
  lemma TickLossWindow(s: Stats, now: real)
    ensures var t := Tick(s, now);
            || (t.windowCount == s.windowCount && t.windowStart == s.windowStart)
            || (t.windowCount == 0 && t.windowStart == now && s.windowStart != 0.0)
  {
  }

  lemma TickLossLinked(s: Stats, h: seq<real>, clock: real, now: real)
    requires InOrder(h, clock) && LossLinked(s, h, clock) && now >= clock
    ensures LossLinked(Tick(s, now), h, now)
  {
    TickLossWindow(s, now);
  }

  lemma TickLinked(s: Stats, h: seq<real>, clock: real, now: real)
    requires Linked(s, h, clock) && now >= clock
    ensures Linked(Tick(s, now), h, now)
  {
    TickFrame(s, now);
    TickReceived(s, now);
  }

  lemma MessageSnapped(s: Stats, h: seq<real>, clock: real, now: real, stamp: Option<real>)
    requires Snapped(s.learner, h, clock) && now >= clock
    ensures Snapped(OnMessage(s, now, stamp).learner, h + [now], now)
  {
    MessageFrame(s, now, stamp);
  }

  lemma TickSnapped(s: Stats, h: seq<real>, clock: real, now: real)
    requires Counted(s, h) && Snapped(s.learner, h, clock) && now >= clock
    ensures Snapped(Tick(s, now).learner, h, now)
  {
    TickFrame(s, now);
  }

  lemma ResetLinked(s: Stats, clock: real)
    requires clock > 0.0
    ensures Linked(ResetTiming(s), [], clock) && Linked(ResetBaseline(s), [], clock)
    ensures Snapped(ResetTiming(s).learner, [], clock) && Snapped(ResetBaseline(s).learner, [], clock)
    ensures LossLinked(ResetTiming(s), [], clock) && LossLinked(ResetBaseline(s), [], clock)
  {
  }

  lemma ResetReceived(s: Stats)
    ensures ResetTiming(s).gapThreshold == s.gapThreshold && ResetBaseline(s).gapThreshold == s.gapThreshold
    ensures ResetTiming(s).hzDropThreshold == s.hzDropThreshold && ResetBaseline(s).hzDropThreshold == s.hzDropThreshold
  {
  }

  // ---- Whole runs ----

  ghost predicate Hears(m: Monitor, e: Ear, clock: real, gap: real) {
    && m.paused == e.paused && Linked(m.stats, e.heard, clock) && Snapped(m.stats.learner, e.heard, clock)
    && LossLinked(m.stats, e.heard, clock) && Thresholds(m.stats, gap)
  }

  /** The clock after one more call. */
  function ClockAfter(clock: real, e: Ear, op: Op): real {
    match op
    case Message(now, _) => if e.paused then clock else now
    case StatsTick(now) => now
    case _ => clock
  }

  lemma ApplyHears(m: Monitor, e: Ear, clock: real, gap: real, op: Op)
    requires Hears(m, e, clock, gap) && ClockAfter(clock, e, op) >= clock
    ensures Hears(Apply(m, op), Listen(e, op), ClockAfter(clock, e, op), gap)
  {
    match op
    case Message(now, stamp) =>
      if !m.paused {
        MessageLinked(m.stats, e.heard, clock, now, stamp);
        MessageSnapped(m.stats, e.heard, clock, now, stamp);
        MessageLossLinked(m.stats, e.heard, clock, now, stamp);
        MessageReceived(m.stats, now, stamp);
      }
    case StatsTick(now) =>
      TickLinked(m.stats, e.heard, clock, now);
      TickSnapped(m.stats, e.heard, clock, now);
      TickLossLinked(m.stats, e.heard, clock, now);
      TickReceived(m.stats, now);
    case Pause =>
    case Resume =>
      ResetLinked(m.stats, clock);
      ResetReceived(m.stats);
    case BaselineReset =>
      ResetLinked(m.stats, clock);
      ResetReceived(m.stats);
  }

  lemma FollowsNext(period: Option<real>, clock: real, e: Ear, ops: seq<Op>)
    requires ops != [] && Follows(period, clock, e, ops)
    ensures ClockAfter(clock, e, ops[0]) >= clock
    ensures Follows(period, ClockAfter(clock, e, ops[0]), Listen(e, ops[0]), ops[1..])
  {
  }

  /** After the run, before one more refresh. */
  lemma {:induction false} RunHears(period: Option<real>, m: Monitor, e: Ear, clock: real, gap: real, ops: seq<Op>,
                                    now: real)
    returns (end: real)
    requires Hears(m, e, clock, gap) && Follows(period, clock, e, ops + [StatsTick(now)])
    ensures end <= now && Hears(Run(m, ops), ListenAll(e, ops), end, gap)
    decreases |ops|
  {
    if ops == [] {
      assert ops + [StatsTick(now)] == [StatsTick(now)];
      end := clock;
    } else {
      FollowsNext(period, clock, e, ops + [StatsTick(now)]);
      assert (ops + [StatsTick(now)])[1..] == ops[1..] + [StatsTick(now)];
      ApplyHears(m, e, clock, gap, ops[0]);
      end := RunHears(period, Apply(m, ops[0]), Listen(e, ops[0]), ClockAfter(clock, e, ops[0]), gap, ops[1..], now);
    }
  }

  lemma NewTopicHears(expectedHz: Option<real>, stampQuality: bool, gap: real, clock: real)
    requires clock > 0.0
    ensures Hears(Monitor(false, Subscribed(expectedHz, stampQuality, gap)), Ear(false, []), clock, gap)
  {
  }

  /** The topic's statistics after a run. */
  function StatsAfter(expectedHz: Option<real>, stampQuality: bool, gap: real, ops: seq<Op>): Stats {
    Run(Monitor(false, Subscribed(expectedHz, stampQuality, gap)), ops).stats
  }

  lemma TopicHears(expectedHz: Option<real>, stampQuality: bool, gap: real, period: Option<real>, clock: real,
                   ops: seq<Op>, now: real)
    requires clock > 0.0 && Follows(period, clock, Ear(false, []), ops + [StatsTick(now)])
    ensures var s := StatsAfter(expectedHz, stampQuality, gap, ops);
            && Linked(s, Arrivals(ops), now) && LossLinked(s, Arrivals(ops), now)
            && Snapped(s.learner, Arrivals(ops), now) && Thresholds(s, gap)
  {
    NewTopicHears(expectedHz, stampQuality, gap, clock);
    var m := Monitor(false, Subscribed(expectedHz, stampQuality, gap));
    var end := RunHears(period, m, Ear(false, []), clock, gap, ops, now);
  }

  // ---- What is shown ----

  /** Inactive without a message since the topic was subscribed, resumed or reset; Danger when the last one is further
      back than the gap threshold; otherwise Warning exactly when the topic has a rate and the published one is below
      half of it. */
  lemma ShownStatus(expectedHz: Option<real>, stampQuality: bool, gap: real, clock: real, ops: seq<Op>, now: real)
    requires clock > 0.0 && Follows(None, clock, Ear(false, []), ops + [StatsTick(now)])
    ensures var h := Arrivals(ops);
            var shown := Tick(StatsAfter(expectedHz, stampQuality, gap, ops), now);
            && (shown.cachedStatus == Inactive <==> h == [])
            && (shown.cachedStatus == Danger <==> h != [] && now - Last(h) > gap)
            && (shown.cachedStatus == Warning <==>
                  && h != [] && now - Last(h) <= gap
                  && HasRate(shown) && 2.0 * shown.cachedHz < shown.baselineHz.value)
  {
    TopicHears(expectedHz, stampQuality, gap, None, clock, ops, now);
    TickShows(StatsAfter(expectedHz, stampQuality, gap, ops), now);
  }

  function TimesHz(hz: real, elapsed: real): real { hz * elapsed }

  lemma QuotientTimes(n: real, elapsed: real)
    requires elapsed > 0.0
    ensures TimesHz(n / elapsed, elapsed) == n
  {
  }

  /** The published rate: over a receive window of half a second or more it times the window's length is the number of
      messages heard in it; over a shorter one it is what was shown before; and no window is older than three seconds
      after a refresh. */
  lemma ShownRate(expectedHz: Option<real>, stampQuality: bool, gap: real, clock: real, ops: seq<Op>, now: real)
    requires clock > 0.0 && Follows(None, clock, Ear(false, []), ops + [StatsTick(now)])
    ensures var h, s := Arrivals(ops), StatsAfter(expectedHz, stampQuality, gap, ops);
            var elapsed := now - s.hzCountStart;
            && WindowOf(s.hzCountStart, s.hzCount, h)
            && (h == [] ==> Tick(s, now).cachedHz == 0.0)
            && (h != [] && elapsed < 0.5 ==> Tick(s, now).cachedHz == s.cachedHz)
            && (h != [] && elapsed >= 0.5 ==> TimesHz(Tick(s, now).cachedHz, elapsed) == s.hzCount as real)
            && (h != [] ==> 0.0 <= now - Tick(s, now).hzCountStart <= 3.0)
  {
    TopicHears(expectedHz, stampQuality, gap, None, clock, ops, now);
    var s := StatsAfter(expectedHz, stampQuality, gap, ops);
    TickReceived(s, now);
    if now - s.hzCountStart >= 0.5 { QuotientTimes(s.hzCount as real, now - s.hzCountStart); }
  }

  // ---- Learning a rate ----

  /** A rate is learned at the earliest from 51 messages over four seconds. */
  lemma NothingIsLearnedEarly(stampQuality: bool, gap: real, clock: real, ops: seq<Op>, now: real)
    requires clock > 0.0 && Follows(None, clock, Ear(false, []), ops + [StatsTick(now)])
    requires MaybeLearn(StatsAfter(None, stampQuality, gap, ops), now).1.Some?
    ensures |Arrivals(ops)| >= 51 && Last(Arrivals(ops)) - Arrivals(ops)[0] >= 4.0
  {
    TopicHears(None, stampQuality, gap, None, clock, ops, now);
  }

  /** Messages and refreshes only. */
  predicate Undisturbed(ops: seq<Op>) { forall i :: 0 <= i < |ops| ==> ops[i].Message? || ops[i].StatsTick? }

  /** A rate, or a snapshot taken no later than the refresh at `t` and after no more than `n` messages. */
  ghost predicate Learning(s: Stats, t: real, n: int) {
    s.baselineHz.Some? || (s.learner.timeStart != 0.0 && s.learner.timeStart <= t && s.learner.countStart <= n)
  }

  lemma SnapshotIsTaken(s: Stats, h: seq<real>, now: real)
    requires Linked(s, h, now) && Snapped(s.learner, h, now) && h != [] && now - h[0] >= 1.0
    ensures Learning(Tick(s, now), now, |h|)
  {
    TickFrame(s, now);
  }

  lemma LearningGoesOn(m: Monitor, op: Op, t: real, n: int)
    requires Learning(m.stats, t, n) && (op.Message? || op.StatsTick?)
    ensures Learning(Apply(m, op).stats, t, n)
  {
    match op
    case Message(now, stamp) => MessageFrame(m.stats, now, stamp);
    case StatsTick(now) =>
      TickFrame(m.stats, now);
  }

  lemma {:induction false} LearningKept(m: Monitor, ops: seq<Op>, t: real, n: int)
    requires Learning(m.stats, t, n) && Undisturbed(ops)
    ensures Learning(Run(m, ops).stats, t, n)
    decreases |ops|
  {
    if ops != [] {
      LearningGoesOn(m, ops[0], t, n);
      LearningKept(Apply(m, ops[0]), ops[1..], t, n);
    }
  }

  lemma {:induction false} RunJoined(m: Monitor, a: seq<Op>, b: seq<Op>)
    ensures Run(m, a + b) == Run(Run(m, a), b)
    decreases |a|
  {
    if a == [] {
      assert a + b == b;
    } else {
      assert (a + b)[1..] == a[1..] + b;
      RunJoined(Apply(m, a[0]), a[1..], b);
    }
  }

  lemma {:induction false} FollowsPrefix(period: Option<real>, clock: real, e: Ear, a: seq<Op>, b: seq<Op>)
    requires Follows(period, clock, e, a + b)
    ensures Follows(period, clock, e, a)
    decreases |a|
  {
    if a != [] {
      FollowsNext(period, clock, e, a + b);
      assert (a + b)[1..] == a[1..] + b;
      FollowsPrefix(period, ClockAfter(clock, e, a[0]), Listen(e, a[0]), a[1..], b);
    }
  }

  /** A rate is learned: once a refresh comes a second after the first message, the next refresh after 50 more messages
      that reach three seconds past it finds or sets a rate. */
  lemma RateIsLearned(stampQuality: bool, gap: real, clock: real, before: seq<Op>, t: real, after: seq<Op>, now: real)
    requires clock > 0.0 && Undisturbed(after)
    requires Follows(None, clock, Ear(false, []), before + [StatsTick(t)] + after + [StatsTick(now)])
    requires var h, k := Arrivals(before + [StatsTick(t)] + after), Arrivals(before);
             && k != [] && t - k[0] >= 1.0 && |h| - |k| >= 50 && Last(h) - t >= 3.0
    ensures Tick(StatsAfter(None, stampQuality, gap, before + [StatsTick(t)] + after), now).baselineHz.Some?
  {
    var m, k := Monitor(false, Subscribed(None, stampQuality, gap)), Arrivals(before);
    var ops := before + [StatsTick(t)] + after;
    assert before + [StatsTick(t)] + (after + [StatsTick(now)]) == ops + [StatsTick(now)];
    FollowsPrefix(None, clock, Ear(false, []), before + [StatsTick(t)], after + [StatsTick(now)]);
    TopicHears(None, stampQuality, gap, None, clock, before, t);
    SnapshotIsTaken(Run(m, before).stats, k, t);
    RunJoined(m, before, [StatsTick(t)]);
    RunJoined(m, before + [StatsTick(t)], after);
    OneTick(Run(m, before), t);
    LearningKept(Apply(Run(m, before), StatsTick(t)), after, t, |k|);
    TopicHears(None, stampQuality, gap, None, clock, ops, now);
    LearnedAtLast(Run(m, ops).stats, Arrivals(ops), t, |k|, now);
  }

  lemma OneTick(m: Monitor, t: real)
    ensures Run(m, [StatsTick(t)]) == Apply(m, StatsTick(t))
  {
    assert Run(Apply(m, StatsTick(t)), []) == Apply(m, StatsTick(t));
  }

  lemma LearnedAtLast(s: Stats, h: seq<real>, t: real, n: int, now: real)
    requires Counted(s, h) && Learning(s, t, n) && h != [] && |h| - n >= 50 && Last(h) - t >= 3.0
    ensures Tick(s, now).baselineHz.Some?
  {
    TickFrame(s, now);
  }
}
