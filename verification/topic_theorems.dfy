/** What the live monitor promises about one topic over whole runs of the service. */
module TopicTheorems {
  import opened Wrappers
  import opened Numbers
  import opened TopicStatsSpec

  /** The calls of `TopicMonitorService` that reach a topic. */
  datatype Op =
    | Message(now: real, stamp: Option<real>)
    | StatsTick(now: real)
    | Pause
    | Resume
    | BaselineReset

  datatype Monitor = Monitor(paused: bool, stats: Stats)

  function Apply(m: Monitor, op: Op): Monitor {
    match op
    case Message(now, stamp) => if m.paused then m else m.(stats := OnMessage(m.stats, now, stamp))
    case StatsTick(now) => m.(stats := Tick(m.stats, now))
    case Pause => m.(paused := true)
    case Resume => Monitor(false, ResetTiming(m.stats))
    case BaselineReset => m.(stats := ResetBaseline(m.stats))
  }

  function Run(m: Monitor, ops: seq<Op>): Monitor
    decreases |ops|
  {
    if ops == [] then m else Run(Apply(m, ops[0]), ops[1..])
  }

  // ---- A YAML-fixed baseline never changes ----

  lemma {:induction false} FixedBaselineIsNeverChanged(m: Monitor, ops: seq<Op>)
    requires m.stats.baselineFixed && m.stats.baselineHz.Some?
    ensures Run(m, ops).stats.baselineFixed && Run(m, ops).stats.baselineHz == m.stats.baselineHz
    decreases |ops|
  {
    if ops == [] {
    } else {
      FixedBaselineIsNeverChanged(Apply(m, ops[0]), ops[1..]);
    }
  }

  // ---- Stamp loss conservation ----

  /** The grid slot a stamp falls on, for slots every 1/hz seconds from `offset`. */
  function Slot(hz: real, offset: real, stamp: real): int { Round(Position(hz, offset, stamp)) }

  /** How many periods after the offset a stamp lies. */
  function Position(hz: real, offset: real, stamp: real): real { Since(offset, stamp) * hz }

  function Since(offset: real, stamp: real): real { stamp - offset }

  /** A positive stamp less than a quarter period off its slot. */
  predicate NearSlot(hz: real, offset: real, stamp: real) {
    var d := Position(hz, offset, stamp) - Slot(hz, offset, stamp) as real;
    stamp > 0.0 && -0.25 < d < 0.25
  }

  /** Messages and refreshes in any interleaving, the stamps near strictly increasing slots. Messages without a header
      stamp may occur anywhere. */
  predicate OnGrid(hz: real, offset: real, last: Option<real>, ops: seq<Op>)
    decreases |ops|
  {
    ops == [] ||
    match ops[0]
    case Message(_, Some(stamp)) =>
      && NearSlot(hz, offset, stamp)
      && (last.Some? ==> Slot(hz, offset, last.value) < Slot(hz, offset, stamp))
      && OnGrid(hz, offset, Some(stamp), ops[1..])
    case Message(_, None) => OnGrid(hz, offset, last, ops[1..])
    case StatsTick(_) => OnGrid(hz, offset, last, ops[1..])
    case _ => false
  }

  /** The stamps of a run, in order. */
  function Stamps(ops: seq<Op>): seq<real> {
    if ops == [] then []
    else if ops[0].Message? && ops[0].stamp.Some? then [ops[0].stamp.value] + Stamps(ops[1..])
    else Stamps(ops[1..])
  }

  /** A pair of counters summed over loss windows. */
  datatype Tally = Tally(received: int, lost: int)

  function Plus(a: Tally, b: Tally): Tally { Tally(a.received + b.received, a.lost + b.lost) }

  function Open(s: Stats): Tally { Tally(s.stampMsgCount, s.stampLossCount) }

  /** The window an operation closes: its counters just before they start again from zero. */
  function Closed(before: Stats, after: Stats): Tally {
    if after.stampMsgCount < before.stampMsgCount then Open(before) else Tally(0, 0)
  }

  /** The sum over every window of the run, the last one still open. */
  function AllWindows(m: Monitor, ops: seq<Op>): Tally
    decreases |ops|
  {
    if ops == [] then Open(m.stats)
    else Plus(Closed(m.stats, Apply(m, ops[0]).stats), AllWindows(Apply(m, ops[0]), ops[1..]))
  }

  /** Between two slots the interval rule counts exactly the slots in between. */
  lemma LostBetweenSlots(s: Stats, hz: real, offset: real, stamp: real)
    requires s.baselineHz == Some(hz) && hz > 0.0
    requires NearSlot(hz, offset, s.lastStamp) && NearSlot(hz, offset, stamp)
    requires Slot(hz, offset, s.lastStamp) < Slot(hz, offset, stamp)
    ensures LostSince(s, stamp) == Slot(hz, offset, stamp) - Slot(hz, offset, s.lastStamp) - 1
  {
    var interval := stamp - s.lastStamp;
    var k := Slot(hz, offset, stamp) - Slot(hz, offset, s.lastStamp);
    DivideByPeriod(interval, hz);
    CompareWithPeriods(interval, hz);
    var a, b := Position(hz, offset, stamp), Position(hz, offset, s.lastStamp);
    assert interval * hz == a - b;
    assert k as real == Slot(hz, offset, stamp) as real - Slot(hz, offset, s.lastStamp) as real;
    assert k as real - 0.5 < interval * hz < k as real + 0.5;
    RoundNear(interval * hz, k);
  }

  /** A refresh moves the stamp counters to a closed window or leaves them, and never touches the last stamp. */
  lemma TickKeepsStampCount(s: Stats, now: real)
    requires HasRate(s) && s.stampMsgCount >= 0
    ensures var t := Tick(s, now);
            && t.baselineHz == s.baselineHz && t.lastStamp == s.lastStamp && t.stampMsgCount >= 0
            && Plus(Closed(s, t), Open(t)) == Open(s)
  {
  }

  lemma StampedMessage(m: Monitor, now: real, stamp: real)
    requires !m.paused && HasRate(m.stats) && m.stats.stampMsgCount >= 0
    ensures var t := Apply(m, Message(now, Some(stamp))).stats;
            && t.baselineHz == m.stats.baselineHz && t.lastStamp == stamp
            && t.stampMsgCount == m.stats.stampMsgCount + 1
            && t.stampLossCount == m.stats.stampLossCount + LostSince(m.stats, stamp)
            && Closed(m.stats, t) == Tally(0, 0)
  {
  }

  lemma UnstampedMessage(m: Monitor, now: real)
    requires !m.paused
    ensures var t := Apply(m, Message(now, None)).stats;
            && t.baselineHz == m.stats.baselineHz && t.lastStamp == m.stats.lastStamp
            && Open(t) == Open(m.stats) && Closed(m.stats, t) == Tally(0, 0)
  {
  }

  /** The grid slots from the first stamp to the last. */
  function GridSlots(hz: real, offset: real, stamps: seq<real>): int {
    if stamps == [] then 0 else Slot(hz, offset, stamps[|stamps| - 1]) - Slot(hz, offset, stamps[0]) + 1
  }

  /** The grid slots after the last stamp so far up to the last of all. */
  function SlotsAfter(hz: real, offset: real, last: real, stamps: seq<real>): int {
    if stamps == [] then 0 else Slot(hz, offset, stamps[|stamps| - 1]) - Slot(hz, offset, last)
  }

  /** The slots of this stretch of the grid that no stamp falls on. */
  function Skipped(hz: real, offset: real, last: Option<real>, stamps: seq<real>): int {
    (if last.Some? then SlotsAfter(hz, offset, last.value, stamps) else GridSlots(hz, offset, stamps)) - |stamps|
  }

  lemma SkippedCons(hz: real, offset: real, last: Option<real>, stamp: real, rest: seq<real>)
    ensures Skipped(hz, offset, last, [stamp] + rest) ==
            (if last.Some? then Slot(hz, offset, stamp) - Slot(hz, offset, last.value) - 1 else 0)
            + Skipped(hz, offset, Some(stamp), rest)
  {
    var stamps := [stamp] + rest;
    if rest != [] { assert stamps[|stamps| - 1] == rest[|rest| - 1]; }
  }

  /** The monitor runs at this rate, and its last stamp is the given one. */
  predicate Tracks(m: Monitor, hz: real, offset: real, last: Option<real>) {
    && !m.paused && m.stats.baselineHz == Some(hz) && hz > 0.0 && m.stats.stampMsgCount >= 0
    && if last.Some? then m.stats.lastStamp == last.value && NearSlot(hz, offset, last.value)
       else m.stats.lastStamp == 0.0
  }

  lemma {:induction false} ConservedFrom(m: Monitor, hz: real, offset: real, last: Option<real>, ops: seq<Op>)
    requires Tracks(m, hz, offset, last) && OnGrid(hz, offset, last, ops)
    ensures AllWindows(m, ops).received == m.stats.stampMsgCount + |Stamps(ops)|
    ensures AllWindows(m, ops).lost == m.stats.stampLossCount + Skipped(hz, offset, last, Stamps(ops))
    decreases |ops|
  {
    if ops == [] {
    } else {
      match ops[0]
      case Message(now, Some(stamp)) => ConservedByStamp(m, hz, offset, last, ops, now, stamp);
      case Message(now, None) =>
        UnstampedMessage(m, now);
        ConservedFrom(Apply(m, ops[0]), hz, offset, last, ops[1..]);
      case StatsTick(now) =>
        TickKeepsStampCount(m.stats, now);
        ConservedFrom(Apply(m, ops[0]), hz, offset, last, ops[1..]);
    }
  }

  lemma {:induction false} ConservedByStamp(m: Monitor, hz: real, offset: real, last: Option<real>, ops: seq<Op>,
                                            now: real, stamp: real)
    requires Tracks(m, hz, offset, last) && OnGrid(hz, offset, last, ops)
    requires ops != [] && ops[0] == Message(now, Some(stamp))
    ensures AllWindows(m, ops).received == m.stats.stampMsgCount + |Stamps(ops)|
    ensures AllWindows(m, ops).lost == m.stats.stampLossCount + Skipped(hz, offset, last, Stamps(ops))
    decreases |ops|, 0
  {
    var next := Apply(m, ops[0]);
    LostSinceLast(m, hz, offset, last, stamp);
    StampedMessage(m, now, stamp);
    ConservedFrom(next, hz, offset, Some(stamp), ops[1..]);
    assert Stamps(ops) == [stamp] + Stamps(ops[1..]);
    SkippedCons(hz, offset, last, stamp, Stamps(ops[1..]));
  }

  /** What a stamp adds to the loss counter. */
  lemma LostSinceLast(m: Monitor, hz: real, offset: real, last: Option<real>, stamp: real)
    requires Tracks(m, hz, offset, last) && NearSlot(hz, offset, stamp)
    requires last.Some? ==> Slot(hz, offset, last.value) < Slot(hz, offset, stamp)
    ensures LostSince(m.stats, stamp) ==
            if last.Some? then Slot(hz, offset, stamp) - Slot(hz, offset, last.value) - 1 else 0
  {
    if last.Some? { LostBetweenSlots(m.stats, hz, offset, stamp); }
  }

  /** Received plus counted-lost messages, summed over all tumbling windows, is the number of grid slots from the first
      stamp to the last, whatever the clock readings and however refreshes fall between messages. */
  lemma StampLossIsConserved(hz: real, stampQuality: bool, gapThreshold: real, offset: real, ops: seq<Op>)
    requires hz > 0.0 && OnGrid(hz, offset, None, ops)
    ensures var windows := AllWindows(Monitor(false, Subscribed(Some(hz), stampQuality, gapThreshold)), ops);
            var stamps := Stamps(ops);
            && windows.received == |stamps|
            && windows.received + windows.lost == GridSlots(hz, offset, stamps)
  {
    ConservedFrom(Monitor(false, Subscribed(Some(hz), stampQuality, gapThreshold)), hz, offset, None, ops);
  }

  /** A quarter period is the exact tolerance: at the quarter itself a lost message can go uncounted. */
  lemma QuarterPeriodIsTight(quality: bool, threshold: real, t: real)
    ensures var ops := [Message(t, Some(1.25)), Message(t, Some(2.75))];
            var windows := AllWindows(Monitor(false, Subscribed(Some(1.0), quality, threshold)), ops);
            Slot(1.0, 0.0, 1.25) == 1 && Slot(1.0, 0.0, 2.75) == 3 && windows.received + windows.lost == 2
  {
    var first, second := Message(t, Some(1.25)), Message(t, Some(2.75));
    var m := Monitor(false, Subscribed(Some(1.0), quality, threshold));
    var m1 := Apply(m, first);
    StampedMessage(m, t, 1.25);
    StampedMessage(m1, t, 2.75);
    assert LostSince(m1.stats, 2.75) == 0;
    var m2 := Apply(m1, second);
    assert [first, second][1..] == [second] && [second][1..] == [];
    assert AllWindows(m2, []) == Open(m2.stats);
    assert AllWindows(m1, [second]) == Plus(Closed(m1.stats, m2.stats), AllWindows(m2, []));
    assert AllWindows(m, [first, second]) == Plus(Closed(m.stats, m1.stats), AllWindows(m1, [second]));
    RoundNear(1.25, 1);
    RoundNear(2.75, 3);
  }

  // ---- Baseline learning error ----

  /** Clock readings never go back, and between resets the processed messages arrive exactly every `p` seconds. */
  predicate Periodic(p: real, clock: real, m: Monitor, ops: seq<Op>)
    decreases |ops|
  {
    ops == [] ||
    (match ops[0]
     case Message(now, _) =>
       if m.paused then Periodic(p, clock, m, ops[1..])
       else
         && now >= clock
         && (m.stats.messageCount > 0 ==> now == m.stats.lastMsgTime + p)
         && Periodic(p, now, Apply(m, ops[0]), ops[1..])
     case StatsTick(now) => now >= clock && Periodic(p, now, Apply(m, ops[0]), ops[1..])
     case _ => Periodic(p, clock, Apply(m, ops[0]), ops[1..]))
  }

  /** The arrival `k` periods after the first one. */
  function Arrival(p: real, first: real, k: int): real { first + k as real * p }

  lemma ArrivalsApart(p: real, first: real, k: int, n: int)
    ensures Arrival(p, first, k + n) == Arrival(p, first, k) + n as real * p
    ensures Arrival(p, first, k + 1) == Arrival(p, first, k) + p
  {
    assert (k + n) as real * p == k as real * p + n as real * p;
    assert (k + 1) as real * p == k as real * p + p;
  }

  /** Where arrivals and the learner's snapshot stand on the arrival grid. */
  ghost predicate Measured(p: real, clock: real, s: Stats) {
    && s.messageCount >= 0
    && (s.firstReceived.Some? <==> s.messageCount > 0)
    && (s.messageCount > 0 ==>
          && s.lastMsgTime == Arrival(p, s.firstReceived.value, s.messageCount - 1)
          && s.lastMsgTime <= clock)
    && (s.learner.timeStart != 0.0 ==>
          && 1 <= s.learner.countStart <= s.messageCount
          && Arrival(p, s.firstReceived.value, s.learner.countStart - 1) <= s.learner.timeStart <= clock
          && (s.messageCount > s.learner.countStart ==>
                s.learner.timeStart <= Arrival(p, s.firstReceived.value, s.learner.countStart)))
  }

  /** A learned rate is the true rate or above it by at most one part in 49. */
  ghost predicate WithinBound(p: real, hz: real) {
    p > 0.0 && 1.0 / p <= hz <= (1.0 / p) * (1.0 + 1.0 / 49.0)
  }

  lemma RateBound(p: real, n: int, elapsed: real)
    requires n >= 50 && elapsed >= 3.0 && (n - 1) as real * p <= elapsed <= n as real * p
    ensures WithinBound(p, n as real / elapsed)
  {
    var hz := n as real / elapsed;
    SameSign(p, n as real);
    assert hz * elapsed == n as real;
    var rate := 1.0 / p;
    assert rate * p == 1.0;
    assert n as real == n as real * (p * rate) >= elapsed * rate by { assert (n as real * p) * rate >= elapsed * rate; }
    assert hz * elapsed >= rate * elapsed;
    assert (n - 1) as real == ((n - 1) as real * p) * rate <= elapsed * rate;
    assert n as real <= (n - 1) as real * (1.0 + 1.0 / 49.0);
    var top := rate * (1.0 + 1.0 / 49.0);
    assert top * elapsed >= hz * elapsed;
  }

  lemma MessageMeasured(p: real, clock: real, s: Stats, now: real, stamp: Option<real>)
    requires Measured(p, clock, s) && now >= clock
    requires s.messageCount > 0 ==> now == s.lastMsgTime + p
    ensures Measured(p, now, OnMessage(s, now, stamp))
    ensures OnMessage(s, now, stamp).baselineHz == s.baselineHz
    ensures OnMessage(s, now, stamp).baselineFixed == s.baselineFixed
  {
    var t := OnMessage(s, now, stamp);
    MessageFrame(s, now, stamp);
    if s.messageCount > 0 {
      var first, n := s.firstReceived.value, s.messageCount;
      ArrivalsApart(p, first, n - 1, 1);
      assert now == Arrival(p, first, n);
      assert t.messageCount - 1 == n;
    } else {
      assert Arrival(p, now, 0) == now;
    }
  }

  /** What a message leaves for the learner to measure with. */
  lemma MessageFrame(s: Stats, now: real, stamp: Option<real>)
    ensures var t := OnMessage(s, now, stamp);
            && t.messageCount == s.messageCount + 1 && t.lastMsgTime == now && t.learner == s.learner
            && t.firstReceived == (if s.firstReceived.None? then Some(now) else s.firstReceived)
            && t.baselineHz == s.baselineHz && t.baselineFixed == s.baselineFixed
  {
  }

  /** A stats tick changes nothing the learner measures with but the learner itself and the rate it proposes. */
  lemma TickFrame(s: Stats, now: real)
    ensures var (learned, t) := (MaybeLearn(s, now).0, Tick(s, now));
            && t.messageCount == s.messageCount && t.firstReceived == s.firstReceived && t.lastMsgTime == s.lastMsgTime
            && t.learner == learned.learner && t.baselineHz == learned.baselineHz
            && t.baselineFixed == s.baselineFixed
  {
    RefreshFrame(MaybeLearn(s, now).0, now);
  }

  /** Refreshing changes none of the fields a baseline is learned from. */
  predicate SameBasis(s: Stats, t: Stats) {
    && t.messageCount == s.messageCount && t.firstReceived == s.firstReceived && t.lastMsgTime == s.lastMsgTime
    && t.learner == s.learner && t.baselineHz == s.baselineHz && t.baselineFixed == s.baselineFixed
  }

  lemma RefreshFrame(s: Stats, now: real)
    ensures SameBasis(s, RefreshCache(s, now))
  {
    var windowed := RefreshHz(s, now);
    LossRateFrame(windowed.(cachedStatus := ComputeStatus(windowed, now)), now);
  }

  lemma LossRateFrame(s: Stats, now: real)
    ensures SameBasis(s, ComputeLossRate(s, now))
  {
  }

  lemma LearnMeasured(p: real, clock: real, s: Stats, now: real)
    requires Measured(p, clock, s) && now >= clock
    ensures Measured(p, now, MaybeLearn(s, now).0)
  {
  }

  lemma LockInBound(p: real, clock: real, s: Stats, now: real)
    requires Measured(p, clock, s) && MaybeLearn(s, now).1.Some?
    ensures WithinBound(p, MaybeLearn(s, now).1.value)
  {
    var c := s.learner.countStart;
    var n, elapsed := s.messageCount - c, s.lastMsgTime - s.learner.timeStart;
    ArrivalsApart(p, s.firstReceived.value, c, n - 1);
    ArrivalsApart(p, s.firstReceived.value, c - 1, n);
    RateBound(p, n, elapsed);
  }

  lemma TickMeasured(p: real, clock: real, s: Stats, now: real)
    requires Measured(p, clock, s) && now >= clock
    ensures Measured(p, now, Tick(s, now)) && Tick(s, now).baselineFixed == s.baselineFixed
    ensures s.baselineHz.None? && Tick(s, now).baselineHz.Some? ==> WithinBound(p, Tick(s, now).baselineHz.value)
    ensures s.baselineHz.Some? ==> Tick(s, now).baselineHz == s.baselineHz
  {
    TickFrame(s, now);
    LearnMeasured(p, clock, s, now);
    if MaybeLearn(s, now).1.Some? { LockInBound(p, clock, s, now); }
  }

  lemma ResetMeasured(p: real, clock: real, s: Stats)
    ensures Measured(p, clock, ResetTiming(s)) && Measured(p, clock, ResetBaseline(s))
    ensures ResetTiming(s).baselineFixed == s.baselineFixed && ResetBaseline(s).baselineFixed == s.baselineFixed
    ensures ResetTiming(s).baselineHz == s.baselineHz
    ensures ResetBaseline(s).baselineHz == if s.baselineFixed then s.baselineHz else None
  {
  }

  lemma {:induction false} LearnedFrom(p: real, clock: real, m: Monitor, ops: seq<Op>)
    requires Measured(p, clock, m.stats) && Periodic(p, clock, m, ops) && !m.stats.baselineFixed
    requires m.stats.baselineHz.Some? ==> WithinBound(p, m.stats.baselineHz.value)
    ensures Run(m, ops).stats.baselineHz.Some? ==> WithinBound(p, Run(m, ops).stats.baselineHz.value)
    decreases |ops|
  {
    if ops == [] {
    } else {
      var next := Apply(m, ops[0]);
      match ops[0]
      case Message(now, stamp) =>
        if m.paused {
          LearnedFrom(p, clock, next, ops[1..]);
        } else {
          MessageMeasured(p, clock, m.stats, now, stamp);
          LearnedFrom(p, now, next, ops[1..]);
        }
      case StatsTick(now) =>
        TickMeasured(p, clock, m.stats, now);
        LearnedFrom(p, now, next, ops[1..]);
      case Pause => LearnedFrom(p, clock, next, ops[1..]);
      case Resume =>
        ResetMeasured(p, clock, m.stats);
        LearnedFrom(p, clock, next, ops[1..]);
      case BaselineReset =>
        ResetMeasured(p, clock, m.stats);
        LearnedFrom(p, clock, next, ops[1..]);
    }
  }

  /** Whatever pauses, resumes and resets a run contains, a rate it locks in is at least 1/p and at most 50/49 of it. */
  lemma LearnedBaselineIsClose(p: real, clock: real, stampQuality: bool, gapThreshold: real, ops: seq<Op>)
    requires Periodic(p, clock, Monitor(false, Subscribed(None, stampQuality, gapThreshold)), ops)
    ensures var s := Run(Monitor(false, Subscribed(None, stampQuality, gapThreshold)), ops).stats;
            s.baselineHz.Some? ==> p > 0.0 && 1.0 / p <= s.baselineHz.value <= (1.0 / p) * (1.0 + 1.0 / 49.0)
  {
    LearnedFrom(p, clock, Monitor(false, Subscribed(None, stampQuality, gapThreshold)), ops);
  }
}
