/** The status a steady source is shown with. Its messages come every `p` seconds; the topic has a configured rate. Both
    main results say exactly for which rates, periods and delays every refresh shows Ok, or Warning. */
module TopicStatus {
  import opened Wrappers
  import opened Numbers
  import opened TopicStatsSpec
  import opened TopicTheorems
  import opened TopicWindows

  // ---- Steady arrivals ----

  /** `k` periods. */
  function Spans(k: int, p: real): real { k as real * p }

  ghost predicate Spaced(p: real, h: seq<real>) {
    forall i :: 0 <= i < |h| ==> h[i] == Arrival(p, h[0], i)
  }

  lemma SpacedNext(p: real, h: seq<real>, now: real)
    requires Spaced(p, h) && (h != [] ==> now == Last(h) + p)
    ensures Spaced(p, h + [now])
  {
    if h == [] {
      assert Arrival(p, now, 0) == now;
    } else {
      ArrivalsApart(p, h[0], |h| - 1, 1);
    }
  }

  lemma SpacedApart(p: real, h: seq<real>, i: nat, j: nat)
    requires Spaced(p, h) && i <= j < |h|
    ensures h[j] - h[i] == Spans(j - i, p)
  {
    ArrivalsApart(p, h[0], i, j - i);
  }

  lemma SpansAdd(p: real, k: int, l: int)
    ensures Spans(k + l, p) == Spans(k, p) + Spans(l, p) && Spans(1, p) == p && Spans(0, p) == 0.0
  {
    assert (k + l) as real * p == k as real * p + l as real * p;
  }

  /** What a window has counted lies within one message of the periods it spans, up to how late the refresh is. */
  lemma CountedSpan(p: real, h: seq<real>, start: real, n: int, now: real)
    requires p > 0.0 && Spaced(p, h) && h != [] && WindowOf(start, n, h) && start <= now && Last(h) <= now
    ensures Spans(n - 1, p) <= now - start <= Spans(n, p) + (now - Last(h))
  {
    SpansAdd(p, n - 1, 1);
    SpansAdd(p, -1, 1);
    if n > 0 { SpacedApart(p, h, |h| - n, |h| - 1); }
    if n < |h| { SpacedApart(p, h, |h| - n - 1, |h| - 1); }
  }

  // ---- Bands of rates ----

  /** Where a published rate lies. */
  datatype Band = AtLeast(limit: real) | AtMost(limit: real) | Below(limit: real)

  predicate Within(b: Band, hz: real) {
    match b
    case AtLeast(limit) => hz >= limit
    case AtMost(limit) => hz <= limit
    case Below(limit) => hz < limit
  }

  /** A window that a refresh can measure: `late` seconds after the last message, or about to restart in time for the
      next one. */
  ghost predicate Measurable(p: real, late: real, n: int, elapsed: real, delay: real) {
    && Spans(n - 1, p) <= elapsed <= Spans(n, p) + delay && n >= 0 && delay >= 0.0
    && ((elapsed >= 0.5 && delay <= late) || (elapsed > 3.0 && delay <= p))
  }

  ghost predicate AllWithin(b: Band, p: real, late: real) {
    forall n: int, elapsed: real, delay: real ::
      Measurable(p, late, n, elapsed, delay) ==> Within(b, n as real / elapsed)
  }

  /** Unless the window is still the first one or old enough to be measured next time, the published rate is in the
      band; past the latest time a message or refresh is due, nothing is said. */
  ghost predicate Settled(b: Band, p: real, late: real, s: Stats, h: seq<real>, clock: real) {
    || h == [] || s.hzCountStart == h[0] || Within(b, s.cachedHz) || clock - s.hzCountStart >= 0.5
    || clock > Last(h) + Max(p, late)
  }

  ghost predicate Steady(b: Band, p: real, late: real, s: Stats, h: seq<real>, clock: real) {
    Linked(s, h, clock) && Spaced(p, h) && Settled(b, p, late, s, h, clock)
  }

  lemma SteadyMessage(b: Band, p: real, late: real, s: Stats, h: seq<real>, clock: real, now: real,
                      stamp: Option<real>)
    requires Steady(b, p, late, s, h, clock) && p > 0.0 && OnTime(Some(p), clock, h, now)
    ensures Steady(b, p, late, OnMessage(s, now, stamp), h + [now], now)
  {
    MessageLinked(s, h, clock, now, stamp);
    MessageReceived(s, now, stamp);
    SpacedNext(p, h, now);
  }

  /** A refresh of a window that can be measured publishes a rate of the band. */
  lemma MeasuredWithin(b: Band, p: real, late: real, s: Stats, h: seq<real>, clock: real, now: real)
    requires Linked(s, h, clock) && Spaced(p, h) && AllWithin(b, p, late) && p > 0.0 && now >= clock && h != []
    requires var elapsed, delay := now - s.hzCountStart, now - Last(h);
             (elapsed >= 0.5 && delay <= late) || (elapsed > 3.0 && delay <= p)
    ensures Within(b, Tick(s, now).cachedHz)
  {
    TickReceived(s, now);
    CountedSpan(p, h, s.hzCountStart, s.hzCount, now);
    assert Measurable(p, late, s.hzCount, now - s.hzCountStart, now - Last(h));
  }

  lemma SteadyTick(b: Band, p: real, late: real, s: Stats, h: seq<real>, clock: real, now: real)
    requires Steady(b, p, late, s, h, clock) && AllWithin(b, p, late) && p > 0.0 && now >= clock
    ensures Steady(b, p, late, Tick(s, now), h, now)
  {
    TickLinked(s, h, clock, now);
    TickReceived(s, now);
    if h != [] && now - s.hzCountStart > 3.0 && now <= Last(h) + Max(p, late) {
      MeasuredWithin(b, p, late, s, h, clock, now);
    }
  }

  /** Half a second after the first message, a refresh in time publishes a rate of the band. */
  lemma ShownWithin(b: Band, p: real, late: real, s: Stats, h: seq<real>, clock: real, now: real)
    requires Steady(b, p, late, s, h, clock) && AllWithin(b, p, late) && p > 0.0 && now >= clock
    requires h != [] && now - h[0] >= 0.5 && now - Last(h) <= late
    ensures Within(b, Tick(s, now).cachedHz)
  {
    TickReceived(s, now);
    if now - s.hzCountStart >= 0.5 { MeasuredWithin(b, p, late, s, h, clock, now); }
  }

  lemma ApplySteady(b: Band, p: real, late: real, m: Monitor, e: Ear, clock: real, ops: seq<Op>)
    requires ops != [] && m.paused == e.paused && Steady(b, p, late, m.stats, e.heard, clock)
    requires AllWithin(b, p, late) && p > 0.0 && Follows(Some(p), clock, e, ops)
    ensures var f := Listen(e, ops[0]);
            && Apply(m, ops[0]).paused == f.paused
            && Steady(b, p, late, Apply(m, ops[0]).stats, f.heard, ClockAfter(clock, e, ops[0]))
  {
    match ops[0]
    case Message(now, stamp) => if !m.paused { SteadyMessage(b, p, late, m.stats, e.heard, clock, now, stamp); }
    case StatsTick(now) => SteadyTick(b, p, late, m.stats, e.heard, clock, now);
    case Pause =>
    case Resume => ResetLinked(m.stats, clock);
    case BaselineReset => ResetLinked(m.stats, clock);
  }

  lemma {:induction false} RunSteady(b: Band, p: real, late: real, m: Monitor, e: Ear, clock: real, ops: seq<Op>,
                                     now: real)
    returns (end: real)
    requires m.paused == e.paused && Steady(b, p, late, m.stats, e.heard, clock)
    requires AllWithin(b, p, late) && p > 0.0 && Follows(Some(p), clock, e, ops + [StatsTick(now)])
    ensures end <= now && Steady(b, p, late, Run(m, ops).stats, ListenAll(e, ops).heard, end)
    decreases |ops|
  {
    if ops == [] {
      assert ops + [StatsTick(now)] == [StatsTick(now)];
      end := clock;
    } else {
      FollowsNext(Some(p), clock, e, ops + [StatsTick(now)]);
      ApplySteady(b, p, late, m, e, clock, ops + [StatsTick(now)]);
      assert (ops + [StatsTick(now)])[1..] == ops[1..] + [StatsTick(now)];
      end := RunSteady(b, p, late, Apply(m, ops[0]), Listen(e, ops[0]), ClockAfter(clock, e, ops[0]), ops[1..], now);
    }
  }

  /** A refresh no more than `late` seconds after the last of the messages, half a second or more after their first. */
  ghost predicate InTime(p: real, late: real, clock: real, ops: seq<Op>, now: real) {
    && clock > 0.0 && Follows(Some(p), clock, Ear(false, []), ops + [StatsTick(now)])
    && Arrivals(ops) != [] && now - Arrivals(ops)[0] >= 0.5 && now - Last(Arrivals(ops)) <= late
  }

  lemma InTimeWithin(b: Band, p: real, late: real, expectedHz: Option<real>, stampQuality: bool, gap: real,
                     clock: real, ops: seq<Op>, now: real)
    requires InTime(p, late, clock, ops, now) && AllWithin(b, p, late) && p > 0.0
    ensures Within(b, Tick(StatsAfter(expectedHz, stampQuality, gap, ops), now).cachedHz)
  {
    var m := Monitor(false, Subscribed(expectedHz, stampQuality, gap));
    NewTopicHears(expectedHz, stampQuality, gap, clock);
    var end := RunSteady(b, p, late, m, Ear(false, []), clock, ops, now);
    ShownWithin(b, p, late, Run(m, ops).stats, Arrivals(ops), end, now);
  }

  // ---- The published rate is near the arrival rate ----

  lemma AgainstQuotient(n: real, elapsed: real, limit: real)
    requires elapsed > 0.0
    ensures n / elapsed >= limit <==> n >= TimesHz(limit, elapsed)
    ensures n / elapsed <= limit <==> n <= TimesHz(limit, elapsed)
  {
    var q := n / elapsed;
    assert q * elapsed == n;
    SameSign(q - limit, elapsed);
    SameSign(limit - q, elapsed);
    assert (q - limit) * elapsed == n - limit * elapsed && (limit - q) * elapsed == limit * elapsed - n;
  }

  lemma PeriodsOf(p: real, n: int, elapsed: real)
    requires p > 0.0 && Spans(n - 1, p) <= elapsed <= Spans(n + 1, p)
    ensures (n - 1) as real <= TimesHz(1.0 / p, elapsed) <= (n + 1) as real
  {
    AgainstQuotient(elapsed, p, (n - 1) as real);
    AgainstQuotient(elapsed, p, (n + 1) as real);
    assert elapsed / p == TimesHz(1.0 / p, elapsed);
  }

  lemma TwoHzApart(rate: real, elapsed: real)
    requires elapsed >= 0.5
    ensures TimesHz(rate - 2.0, elapsed) <= TimesHz(rate, elapsed) - 1.0
    ensures TimesHz(rate, elapsed) + 1.0 <= TimesHz(rate + 2.0, elapsed)
  {
  }

  lemma NearRateWithin(p: real)
    requires p > 0.0
    ensures AllWithin(AtLeast(1.0 / p - 2.0), p, p) && AllWithin(AtMost(1.0 / p + 2.0), p, p)
  {
    forall n: int, elapsed: real, delay: real | Measurable(p, p, n, elapsed, delay)
      ensures 1.0 / p - 2.0 <= n as real / elapsed <= 1.0 / p + 2.0
    {
      SpansAdd(p, n, 1);
      PeriodsOf(p, n, elapsed);
      TwoHzApart(1.0 / p, elapsed);
      AgainstQuotient(n as real, elapsed, 1.0 / p - 2.0);
      AgainstQuotient(n as real, elapsed, 1.0 / p + 2.0);
    }
  }

  /** While messages keep coming every `p` seconds, the published rate is within two hertz of `1/p`, in any run and for
      any kind of topic; over a window of half a second or more, within one message per window. */
  lemma ShownRateIsNear(p: real, expectedHz: Option<real>, stampQuality: bool, gap: real, clock: real, ops: seq<Op>,
                        now: real)
    requires p > 0.0 && InTime(p, p, clock, ops, now)
    ensures var s := StatsAfter(expectedHz, stampQuality, gap, ops);
            var elapsed := now - s.hzCountStart;
            && 1.0 / p - 2.0 <= Tick(s, now).cachedHz <= 1.0 / p + 2.0
            && (elapsed >= 0.5 ==>
                  && TimesHz(1.0 / p, elapsed) - 1.0 <= TimesHz(Tick(s, now).cachedHz, elapsed)
                  && TimesHz(Tick(s, now).cachedHz, elapsed) <= TimesHz(1.0 / p, elapsed) + 1.0)
  {
    NearRateWithin(p);
    InTimeWithin(AtLeast(1.0 / p - 2.0), p, p, expectedHz, stampQuality, gap, clock, ops, now);
    InTimeWithin(AtMost(1.0 / p + 2.0), p, p, expectedHz, stampQuality, gap, clock, ops, now);
    var s := StatsAfter(expectedHz, stampQuality, gap, ops);
    if now - s.hzCountStart >= 0.5 { WindowIsNear(p, expectedHz, stampQuality, gap, clock, ops, now); }
  }

  lemma WindowIsNear(p: real, expectedHz: Option<real>, stampQuality: bool, gap: real, clock: real, ops: seq<Op>,
                     now: real)
    requires p > 0.0 && InTime(p, p, clock, ops, now)
    requires now - StatsAfter(expectedHz, stampQuality, gap, ops).hzCountStart >= 0.5
    ensures var s := StatsAfter(expectedHz, stampQuality, gap, ops);
            var elapsed := now - s.hzCountStart;
            && TimesHz(1.0 / p, elapsed) - 1.0 <= TimesHz(Tick(s, now).cachedHz, elapsed)
            && TimesHz(Tick(s, now).cachedHz, elapsed) <= TimesHz(1.0 / p, elapsed) + 1.0
  {
    var m := Monitor(false, Subscribed(expectedHz, stampQuality, gap));
    var s := StatsAfter(expectedHz, stampQuality, gap, ops);
    NewTopicHears(expectedHz, stampQuality, gap, clock);
    NearRateWithin(p);
    var end := RunSteady(AtLeast(1.0 / p - 2.0), p, p, m, Ear(false, []), clock, ops, now);
    CountedSpan(p, Arrivals(ops), s.hzCountStart, s.hzCount, now);
    SpansAdd(p, s.hzCount, 1);
    PeriodsOf(p, s.hzCount, now - s.hzCountStart);
    TickReceived(s, now);
    QuotientTimes(s.hzCount as real, now - s.hzCountStart);
  }

  // ---- Shown as Ok ----

  function Ceiling(x: real): int { -((-x).Floor) }

  /** The fewest messages of a window of half a second, and of one that restarts after three. */
  function FewestAtSample(p: real, late: real): int
    requires p > 0.0
  {
    MaxInt(0, Ceiling((0.5 - late) / p))
  }

  function FewestAtRestart(p: real): int
    requires p > 0.0
  {
    (3.0 / p).Floor
  }

  /** Even then the window holds half of what the rate calls for. */
  ghost predicate EnoughForOk(hz: real, p: real, late: real)
    requires p > 0.0
  {
    var k, j := FewestAtSample(p, late), FewestAtRestart(p);
    && (2 * k) as real >= TimesHz(hz, Spans(k, p) + late)
    && (2 * j) as real >= TimesHz(hz, Spans(j + 1, p))
  }

  /** Every refresh in time shows this status. */
  ghost predicate AlwaysShows(status: Status, hz: real, p: real, gap: real, late: real) {
    forall stampQuality: bool, clock: real, ops: seq<Op>, now: real ::
      InTime(p, late, clock, ops, now) ==> ShownAt(hz, stampQuality, gap, ops, now) == status
  }

  function ShownAt(hz: real, stampQuality: bool, gap: real, ops: seq<Op>, now: real): Status {
    Tick(StatsAfter(Some(hz), stampQuality, gap, ops), now).cachedStatus
  }

  lemma {:induction false} FollowsAny(p: real, clock: real, e: Ear, ops: seq<Op>)
    requires Follows(Some(p), clock, e, ops)
    ensures Follows(None, clock, e, ops)
    decreases |ops|
  {
    if ops != [] {
      FollowsNext(Some(p), clock, e, ops);
      FollowsAny(p, ClockAfter(clock, e, ops[0]), Listen(e, ops[0]), ops[1..]);
    }
  }

  /** Within the gap threshold the published rate decides. */
  lemma ShownByRate(hz: real, stampQuality: bool, gap: real, p: real, late: real, clock: real, ops: seq<Op>, now: real)
    requires InTime(p, late, clock, ops, now) && late <= gap && hz > 0.0
    ensures ShownAt(hz, stampQuality, gap, ops, now) == Warning <==>
            Within(Below(0.5 * hz), Tick(StatsAfter(Some(hz), stampQuality, gap, ops), now).cachedHz)
    ensures ShownAt(hz, stampQuality, gap, ops, now) == Ok <==>
            Within(AtLeast(0.5 * hz), Tick(StatsAfter(Some(hz), stampQuality, gap, ops), now).cachedHz)
  {
    FollowsAny(p, clock, Ear(false, []), ops + [StatsTick(now)]);
    ShownStatus(Some(hz), stampQuality, gap, clock, ops, now);
    var m := Monitor(false, Subscribed(Some(hz), stampQuality, gap));
    FixedBaselineIsNeverChanged(m, ops);
    TickFrame(Run(m, ops).stats, now);
  }

  lemma WholePeriods(hz: real, p: real, n: int, extra: real)
    ensures TimesHz(hz, Spans(n, p) + extra) == n as real * (hz * p) + hz * extra
  {
    assert hz * (n as real * p) == n as real * (hz * p);
  }

  /** If `k` messages are enough for the time they span, so are more. */
  lemma MoreIsEnough(hz: real, p: real, extra: real, k: int, n: int)
    requires hz > 0.0 && p > 0.0 && extra >= 0.0 && 0 <= k <= n && (k > 0 || extra > 0.0)
    requires (2 * k) as real >= TimesHz(hz, Spans(k, p) + extra)
    ensures (2 * n) as real >= TimesHz(hz, Spans(n, p) + extra)
  {
    WholePeriods(hz, p, k, extra);
    WholePeriods(hz, p, n, extra);
    MoreByTwo(hz * p, hz * extra, k, n) by {
      Product(hz, extra);
      if k == 0 { SameSign(hz, extra); }
    }
  }

  lemma MoreByTwo(w: real, x: real, k: int, n: int)
    requires 0 <= k <= n && x >= 0.0 && (k == 0 ==> x > 0.0) && (2 * k) as real >= k as real * w + x
    ensures (2 * n) as real >= n as real * w + x
  {
    assert k > 0;
    SameSign(w - 2.0, k as real);
    assert (w - 2.0) * k as real == k as real * w - (2 * k) as real;
    Product(2.0 - w, (n - k) as real);
    assert (2.0 - w) * (n - k) as real == (2 * n) as real - (2 * k) as real - (n as real * w - k as real * w);
  }

  lemma HzGrows(hz: real, a: real, b: real)
    requires hz > 0.0 && a <= b
    ensures TimesHz(hz, a) <= TimesHz(hz, b)
  {
    Product(hz, b - a);
    assert hz * (b - a) == hz * b - hz * a;
  }

  lemma FewestHold(p: real, late: real, n: int)
    requires p > 0.0 && n >= 0
    ensures Spans(n, p) + late >= 0.5 ==> n >= FewestAtSample(p, late)
    ensures Spans(n + 1, p) > 3.0 <==> n >= FewestAtRestart(p)
    ensures Spans(FewestAtSample(p, late), p) + late >= 0.5
    ensures FewestAtSample(p, late) > 0 || late >= 0.5
    ensures FewestAtRestart(p) >= 0
  {
    var q, r := (0.5 - late) / p, 3.0 / p;
    AgainstQuotient(0.5 - late, p, n as real);
    AgainstQuotient(0.5 - late, p, FewestAtSample(p, late) as real);
    AgainstQuotient(0.5 - late, p, 0.0);
    AgainstQuotient(3.0, p, (n + 1) as real);
    AgainstQuotient(3.0, p, 0.0);
    assert TimesHz(n as real, p) == Spans(n, p) && TimesHz((n + 1) as real, p) == Spans(n + 1, p);
    assert TimesHz(FewestAtSample(p, late) as real, p) == Spans(FewestAtSample(p, late), p) && TimesHz(0.0, p) == 0.0;
  }

  lemma EnoughWithin(hz: real, p: real, late: real)
    requires hz > 0.0 && p > 0.0 && late >= 0.0 && EnoughForOk(hz, p, late)
    ensures AllWithin(AtLeast(0.5 * hz), p, late)
  {
    forall n: int, elapsed: real, delay: real | Measurable(p, late, n, elapsed, delay)
      ensures n as real / elapsed >= 0.5 * hz
    {
      EnoughMeasured(hz, p, late, n, elapsed, delay);
      AgainstQuotient(n as real, elapsed, 0.5 * hz);
      assert TimesHz(0.5 * hz, elapsed) == 0.5 * TimesHz(hz, elapsed);
    }
  }

  lemma EnoughMeasured(hz: real, p: real, late: real, n: int, elapsed: real, delay: real)
    requires hz > 0.0 && p > 0.0 && late >= 0.0 && EnoughForOk(hz, p, late) && Measurable(p, late, n, elapsed, delay)
    ensures (2 * n) as real >= TimesHz(hz, elapsed)
  {
    FewestHold(p, late, n);
    var k, j := FewestAtSample(p, late), FewestAtRestart(p);
    SpansAdd(p, n, 1);
    SpansAdd(p, j, 1);
    if elapsed >= 0.5 && delay <= late {
      MoreIsEnough(hz, p, late, k, n);
      HzGrows(hz, elapsed, Spans(n, p) + late);
    } else {
      MoreIsEnough(hz, p, p, j, n);
      HzGrows(hz, elapsed, Spans(n, p) + p);
    }
  }

  // ---- Runs step by step ----

  /** A run, its last clock reading, its first and last message, and the receive window and rate it ends with. */
  datatype Trace = Trace(ops: seq<Op>, end: real, first: real, last: real, start: real, counted: int, rate: real)

  ghost predicate Ends(m: Monitor, e: Ear, gap: real, x: Trace) {
    && !m.paused && !e.paused && e.heard != [] && e.heard[0] == x.first && Last(e.heard) == x.last
    && m.stats.hzCountStart == x.start && m.stats.hzCount == x.counted && m.stats.cachedHz == x.rate
    && 0.0 < x.first <= x.last <= x.end && 0.0 < x.start <= x.end
  }

  function EndOf(clock: real, e: Ear, ops: seq<Op>): real
    decreases |ops|
  {
    if ops == [] then clock else EndOf(ClockAfter(clock, e, ops[0]), Listen(e, ops[0]), ops[1..])
  }

  ghost predicate Reached(hz: real, quality: bool, gap: real, p: real, x: Trace) {
    && Follows(Some(p), 1.0, Ear(false, []), x.ops) && EndOf(1.0, Ear(false, []), x.ops) == x.end
    && Ends(Run(Monitor(false, Subscribed(Some(hz), quality, gap)), x.ops), ListenAll(Ear(false, []), x.ops), gap, x)
  }

  lemma {:induction false} OneMoreOp(period: Option<real>, m: Monitor, clock: real, e: Ear, ops: seq<Op>, op: Op)
    requires Follows(period, clock, e, ops)
    requires Follows(period, EndOf(clock, e, ops), ListenAll(e, ops), [op])
    ensures Follows(period, clock, e, ops + [op])
    ensures Run(m, ops + [op]) == Apply(Run(m, ops), op)
    ensures ListenAll(e, ops + [op]) == Listen(ListenAll(e, ops), op)
    ensures EndOf(clock, e, ops + [op]) == ClockAfter(EndOf(clock, e, ops), ListenAll(e, ops), op)
    decreases |ops|
  {
    if ops == [] {
      OnlyOp(m, clock, e, op);
      assert ops + [op] == [op];
    } else {
      FollowsNext(period, clock, e, ops);
      assert (ops + [op])[1..] == ops[1..] + [op];
      OneMoreOp(period, Apply(m, ops[0]), ClockAfter(clock, e, ops[0]), Listen(e, ops[0]), ops[1..], op);
    }
  }

  lemma OnlyOp(m: Monitor, clock: real, e: Ear, op: Op)
    ensures Run(m, [op]) == Apply(m, op) && ListenAll(e, [op]) == Listen(e, op)
    ensures EndOf(clock, e, [op]) == ClockAfter(clock, e, op)
  {
    assert Run(Apply(m, op), []) == Apply(m, op);
    assert ListenAll(Listen(e, op), []) == Listen(e, op);
    assert EndOf(ClockAfter(clock, e, op), Listen(e, op), []) == ClockAfter(clock, e, op);
  }

  lemma FirstMessage(hz: real, quality: bool, gap: real, p: real) returns (x: Trace)
    ensures Reached(hz, quality, gap, p, x) && x == Trace([Message(1.0, None)], 1.0, 1.0, 1.0, 1.0, 1, 0.0)
  {
    x := Trace([Message(1.0, None)], 1.0, 1.0, 1.0, 1.0, 1, 0.0);
    var m := Monitor(false, Subscribed(Some(hz), quality, gap));
    OnlyOp(m, 1.0, Ear(false, []), Message(1.0, None));
    MessageReceived(m.stats, 1.0, None);
    assert Follows(Some(p), 1.0, Ear(false, [1.0]), []);
  }

  lemma Beat(hz: real, quality: bool, gap: real, p: real, x: Trace) returns (y: Trace)
    requires Reached(hz, quality, gap, p, x) && p > 0.0 && x.end <= x.last + p
    ensures Reached(hz, quality, gap, p, y)
    ensures y == x.(ops := x.ops + [Message(x.last + p, None)], end := x.last + p, last := x.last + p,
                    counted := x.counted + 1)
  {
    var op := Message(x.last + p, None);
    y := x.(ops := x.ops + [op], end := x.last + p, last := x.last + p, counted := x.counted + 1);
    var m, e := Monitor(false, Subscribed(Some(hz), quality, gap)), Ear(false, []);
    assert Follows(Some(p), x.end, ListenAll(e, x.ops), [op]);
    OneMoreOp(Some(p), m, 1.0, e, x.ops, op);
    MessageReceived(Run(m, x.ops).stats, x.last + p, None);
  }

  lemma {:induction false} Beats(hz: real, quality: bool, gap: real, p: real, x: Trace, n: nat) returns (y: Trace)
    requires Reached(hz, quality, gap, p, x) && p > 0.0 && x.end <= x.last + p
    ensures Reached(hz, quality, gap, p, y)
    ensures y.last == x.last + Spans(n, p) && y.end == (if n == 0 then x.end else y.last)
    ensures y.counted == x.counted + n && y.first == x.first && y.start == x.start && y.rate == x.rate
  {
    SpansAdd(p, n - 1, 1);
    if n == 0 {
      y := x;
    } else {
      var z := Beats(hz, quality, gap, p, x, n - 1);
      y := Beat(hz, quality, gap, p, z);
    }
  }

  lemma Refresh(hz: real, quality: bool, gap: real, p: real, x: Trace, now: real) returns (y: Trace)
    requires Reached(hz, quality, gap, p, x) && now >= x.end
    ensures Reached(hz, quality, gap, p, y) && y.first == x.first && y.last == x.last && y.end == now
    ensures var restarts := now - x.start > 3.0;
            y.start == (if restarts then now else x.start) && y.counted == (if restarts then 0 else x.counted)
    ensures now - x.start >= 0.5 ==> y.rate == x.counted as real / (now - x.start)
    ensures now - x.start < 0.5 ==> y.rate == x.rate
    ensures y.ops == x.ops + [StatsTick(now)]
  {
    var op, m, e := StatsTick(now), Monitor(false, Subscribed(Some(hz), quality, gap)), Ear(false, []);
    var t := Tick(Run(m, x.ops).stats, now);
    y := x.(ops := x.ops + [op], end := now, start := t.hzCountStart, counted := t.hzCount, rate := t.cachedHz);
    assert Follows(Some(p), x.end, ListenAll(e, x.ops), [op]);
    OneMoreOp(Some(p), m, 1.0, e, x.ops, op);
    TickReceived(Run(m, x.ops).stats, now);
  }

  /** What a last refresh of the run shows. */
  lemma ShowsAtLast(hz: real, quality: bool, gap: real, p: real, late: real, x: Trace, now: real)
    requires Reached(hz, quality, gap, p, x) && now >= x.end && hz > 0.0 && late <= gap
    requires now - x.first >= 0.5 && now - x.last <= late
    ensures InTime(p, late, 1.0, x.ops, now)
    ensures var rate := if now - x.start < 0.5 then x.rate else x.counted as real / (now - x.start);
            && (ShownAt(hz, quality, gap, x.ops, now) == Warning <==> Within(Below(0.5 * hz), rate))
            && (ShownAt(hz, quality, gap, x.ops, now) == Ok <==> Within(AtLeast(0.5 * hz), rate))
  {
    var m, e := Monitor(false, Subscribed(Some(hz), quality, gap)), Ear(false, []);
    assert Follows(Some(p), x.end, ListenAll(e, x.ops), [StatsTick(now)]);
    OneMoreOp(Some(p), m, 1.0, e, x.ops, StatsTick(now));
    ShownByRate(hz, quality, gap, p, late, 1.0, x.ops, now);
    TickReceived(Run(m, x.ops).stats, now);
  }

  /** A window that restarts `wait` seconds after a message, more than three seconds into the run. */
  lemma RestartAfter(hz: real, quality: bool, gap: real, p: real, wait: real) returns (y: Trace)
    requires p > 0.0 && 0.0 <= wait <= p
    ensures Reached(hz, quality, gap, p, y)
    ensures y.last - y.first > 3.0 && y.start == y.last + wait && y.end == y.start && y.counted == 0
  {
    var j := FewestAtRestart(p);
    FewestHold(p, 0.0, j);
    var x := FirstMessage(hz, quality, gap, p);
    x := Beats(hz, quality, gap, p, x, j + 1);
    y := Refresh(hz, quality, gap, p, x, x.last + wait);
  }

  /** Too few messages in the shortest sample of a restarted window. */
  lemma WarnsAtSample(hz: real, p: real, gap: real, late: real)
    requires hz > 0.0 && p > 0.0 && 0.0 <= late <= gap
    requires (2 * FewestAtSample(p, late)) as real < TimesHz(hz, Spans(FewestAtSample(p, late), p) + late)
    ensures !AlwaysShows(Ok, hz, p, gap, late)
  {
    var k := FewestAtSample(p, late);
    FewestHold(p, late, k);
    var x := RestartAfter(hz, false, gap, p, 0.0);
    x := Beats(hz, false, gap, p, x, k);
    var now := x.last + late;
    BelowHalf(hz, k, Spans(k, p) + late);
    SpansPositive(k, p);
    ShowsAtLast(hz, false, gap, p, late, x, now);
    assert now - x.start == Spans(k, p) + late;
  }

  lemma SpansPositive(k: int, p: real)
    requires k >= 0 && p > 0.0
    ensures Spans(k, p) >= 0.0
  {
    Product(k as real, p);
  }

  lemma BelowHalf(hz: real, n: int, elapsed: real)
    requires elapsed > 0.0
    ensures Within(Below(0.5 * hz), n as real / elapsed) <==> (2 * n) as real < TimesHz(hz, elapsed)
  {
    AgainstQuotient(n as real, elapsed, 0.5 * hz);
    assert TimesHz(0.5 * hz, elapsed) == 0.5 * TimesHz(hz, elapsed);
  }

  /** Too few messages in a window that restarts, and a refresh soon after. */
  lemma WarnsAfterRestart(hz: real, p: real, gap: real, late: real)
    requires hz > 0.0 && p > 0.0 && 0.0 <= late <= gap
    requires (2 * FewestAtRestart(p)) as real < TimesHz(hz, Spans(FewestAtRestart(p) + 1, p))
    ensures !AlwaysShows(Ok, hz, p, gap, late)
  {
    var j := FewestAtRestart(p);
    FewestHold(p, 0.0, j);
    SpansAdd(p, j, 1);
    SpansPositive(j, p);
    var x := RestartAfter(hz, false, gap, p, 0.0);
    x := Beats(hz, false, gap, p, x, j);
    assert x.last + p - x.start == Spans(j + 1, p);
    BelowHalf(hz, j, Spans(j + 1, p));
    x := Refresh(hz, false, gap, p, x, x.last + p);
    x := Beat(hz, false, gap, p, x);
    ShowsAtLast(hz, false, gap, p, late, x, x.last);
  }

  /** A source whose messages come every `p` seconds is shown as Ok by every refresh up to `late` seconds after its last
      message exactly when its two emptiest windows hold half of what the configured rate calls for. */
  lemma AlwaysOkIff(hz: real, p: real, gap: real, late: real)
    requires hz > 0.0 && p > 0.0 && 0.0 <= late <= gap
    ensures AlwaysShows(Ok, hz, p, gap, late) <==> EnoughForOk(hz, p, late)
  {
    if EnoughForOk(hz, p, late) {
      EnoughWithin(hz, p, late);
      forall quality: bool, clock: real, ops: seq<Op>, now: real | InTime(p, late, clock, ops, now)
        ensures ShownAt(hz, quality, gap, ops, now) == Ok
      {
        InTimeWithin(AtLeast(0.5 * hz), p, late, Some(hz), quality, gap, clock, ops, now);
        ShownByRate(hz, quality, gap, p, late, clock, ops, now);
      }
    } else if (2 * FewestAtSample(p, late)) as real < TimesHz(hz, Spans(FewestAtSample(p, late), p) + late) {
      WarnsAtSample(hz, p, gap, late);
    } else {
      WarnsAfterRestart(hz, p, gap, late);
    }
  }

  /** A source that keeps its configured rate, of any refresh before its next message is overdue: Ok exactly when the
      messages come less than half a second apart. */
  lemma OnRateShowsOkIff(hz: real, gap: real)
    requires hz > 0.0 && 1.0 / hz <= gap
    ensures 1.0 / hz > 0.0
    ensures AlwaysShows(Ok, hz, 1.0 / hz, gap, 1.0 / hz) <==> hz > 2.0
  {
    var p := 1.0 / hz;
    DivideByPeriod(1.0, hz);
    AlwaysOkIff(hz, p, gap, p);
    OnRateEnough(hz, p);
  }

  lemma OnRateEnough(hz: real, p: real)
    requires hz > 0.0 && p > 0.0 && hz * p == 1.0
    ensures EnoughForOk(hz, p, p) <==> hz > 2.0
  {
    var k, j := FewestAtSample(p, p), FewestAtRestart(p);
    FewestHold(p, p, 0);
    FewestHold(p, p, 1);
    FewestHold(p, p, k);
    WholePeriods(hz, p, k, p);
    WholePeriods(hz, p, j + 1, 0.0);
    SpansAdd(p, 0, 1);
    SpansAdd(p, 1, 1);
    HalfSecond(hz, p);
  }

  lemma HalfSecond(hz: real, p: real)
    requires hz > 0.0 && p > 0.0 && hz * p == 1.0
    ensures hz > 2.0 <==> p < 0.5
  {
    SameSign(0.5 - p, hz);
    assert (0.5 - p) * hz == 0.5 * hz - 1.0;
  }

  // ---- Shown as Warning ----

  /** The fullest windows hold less than half of what the rate calls for: a sample of half a second, and the shortest
      longer one with a message at both ends. */
  predicate TooFewForOk(hz: real, p: real)
    requires p > 0.0
  {
    var f := (0.5 / p).Floor;
    (4 * (f + 1)) as real < hz && (2 * (f + 2)) as real < TimesHz(hz, Spans(f + 1, p))
  }

  lemma MostInSample(p: real, n: int)
    requires p > 0.0
    ensures Spans(n, p) <= 0.5 <==> n <= (0.5 / p).Floor
    ensures (0.5 / p).Floor >= 0
  {
    AgainstQuotient(0.5, p, n as real);
    AgainstQuotient(0.5, p, 0.0);
    assert TimesHz(n as real, p) == Spans(n, p) && TimesHz(0.0, p) == 0.0;
  }

  lemma TooFewMeasured(hz: real, p: real, n: int, elapsed: real)
    requires hz > 0.0 && p > 0.0 && TooFewForOk(hz, p) && elapsed >= 0.5 && Spans(n - 1, p) <= elapsed
    ensures (2 * n) as real < TimesHz(hz, elapsed)
  {
    var f := (0.5 / p).Floor;
    if n <= f + 1 {
      HzGrows(hz, 0.5, elapsed);
    } else {
      MostInSample(p, n);
      HzGrows(hz, Spans(n - 1, p), elapsed);
      WholePeriods(hz, p, f + 1, 0.0);
      WholePeriods(hz, p, n - 1, 0.0);
      MoreStaysFew(hz * p, f, n);
    }
  }

  lemma MoreStaysFew(w: real, f: int, n: int)
    requires 0 <= f && f + 2 <= n && (2 * (f + 2)) as real < (f + 1) as real * w
    ensures (2 * n) as real < (n - 1) as real * w
  {
    SameSign(w - 2.0, (f + 1) as real);
    assert (w - 2.0) * (f + 1) as real == (f + 1) as real * w - (2 * (f + 1)) as real;
    Product(w - 2.0, (n - f - 2) as real);
    assert (w - 2.0) * (n - f - 2) as real == (n - 1) as real * w - (f + 1) as real * w - (2 * (n - f - 2)) as real;
  }

  lemma TooFewWithin(hz: real, p: real, late: real)
    requires hz > 0.0 && p > 0.0 && TooFewForOk(hz, p)
    ensures AllWithin(Below(0.5 * hz), p, late)
  {
    forall n: int, elapsed: real, delay: real | Measurable(p, late, n, elapsed, delay)
      ensures Within(Below(0.5 * hz), n as real / elapsed)
    {
      TooFewMeasured(hz, p, n, elapsed);
      BelowHalf(hz, n, elapsed);
    }
  }

  /** Enough messages in a sample of half a second, the last one at its end. */
  lemma OkAtSample(hz: real, p: real, gap: real)
    requires hz > 0.0 && p > 0.0 && gap >= 0.0 && (4 * ((0.5 / p).Floor + 1)) as real >= hz
    ensures !AlwaysShows(Warning, hz, p, gap, gap)
  {
    var f := (0.5 / p).Floor;
    MostInSample(p, f);
    MostInSample(p, f + 1);
    SpansAdd(p, f, 1);
    var x := RestartAfter(hz, false, gap, p, Spans(f + 1, p) - 0.5);
    x := Beats(hz, false, gap, p, x, f + 1);
    assert x.last - x.start == 0.5;
    BelowHalf(hz, f + 1, 0.5);
    ShowsAtLast(hz, false, gap, p, gap, x, x.last);
  }

  /** Enough in the first window. */
  lemma OkInFirstWindow(hz: real, p: real, gap: real)
    requires hz > 0.0 && p > 0.0 && gap >= 0.0
    requires (2 * ((0.5 / p).Floor + 2)) as real >= TimesHz(hz, Spans((0.5 / p).Floor + 1, p))
    ensures !AlwaysShows(Warning, hz, p, gap, gap)
  {
    var f := (0.5 / p).Floor;
    MostInSample(p, f + 1);
    var x := FirstMessage(hz, false, gap, p);
    x := Beats(hz, false, gap, p, x, f + 1);
    assert x.last - x.start == Spans(f + 1, p);
    BelowHalf(hz, f + 2, Spans(f + 1, p));
    ShowsAtLast(hz, false, gap, p, gap, x, x.last);
  }

  /** A source that sends every `p` seconds is shown as Warning by every refresh within the gap threshold exactly when
      even its fullest windows hold less than half of what the configured rate calls for. */
  lemma AlwaysWarningIff(hz: real, p: real, gap: real)
    requires hz > 0.0 && p > 0.0 && gap >= 0.0
    ensures AlwaysShows(Warning, hz, p, gap, gap) <==> TooFewForOk(hz, p)
  {
    if TooFewForOk(hz, p) {
      TooFewWithin(hz, p, gap);
      forall quality: bool, clock: real, ops: seq<Op>, now: real | InTime(p, gap, clock, ops, now)
        ensures ShownAt(hz, quality, gap, ops, now) == Warning
      {
        InTimeWithin(Below(0.5 * hz), p, gap, Some(hz), quality, gap, clock, ops, now);
        ShownByRate(hz, quality, gap, p, gap, clock, ops, now);
      }
    } else if (4 * ((0.5 / p).Floor + 1)) as real >= hz {
      OkAtSample(hz, p, gap);
    } else {
      OkInFirstWindow(hz, p, gap);
    }
  }

  /** Two hertz of slack are always enough. */
  lemma SlowShowsWarning(hz: real, p: real, gap: real)
    requires hz > 0.0 && p > 0.0 && gap >= 0.0 && 2.0 * (1.0 / p + 2.0) < hz
    ensures AlwaysShows(Warning, hz, p, gap, gap)
  {
    var f, rate := (0.5 / p).Floor, 1.0 / p;
    assert rate * p == 1.0 && 0.5 / p == 0.5 * rate;
    MostInSample(p, f + 1);
    MostInSample(p, f);
    AlwaysWarningIff(hz, p, gap);
    SlowIsTooFew(hz, p, rate, f);
  }

  lemma SlowIsTooFew(hz: real, p: real, rate: real, f: int)
    requires hz > 0.0 && p > 0.0 && rate * p == 1.0 && 2.0 * (rate + 2.0) < hz && f >= 0 && f as real <= 0.5 * rate
    requires Spans(f + 1, p) > 0.5
    ensures (4 * (f + 1)) as real < hz && (2 * (f + 2)) as real < TimesHz(hz, Spans(f + 1, p))
  {
    var span := Spans(f + 1, p);
    HzMore(2.0 * (rate + 2.0), hz, span);
    assert TimesHz(2.0 * (rate + 2.0), span) == 2.0 * (f + 1) as real * (rate * p) + 4.0 * span;
  }

  lemma HzMore(a: real, b: real, span: real)
    requires a < b && span > 0.0
    ensures TimesHz(a, span) < TimesHz(b, span)
  {
    SameSign(b - a, span);
    assert (b - a) * span == b * span - a * span;
  }

  /** A source on time at 0.5 Hz, half a second after its last message: a warning. */
  lemma SlowOnRateWarns(gap: real)
    requires gap >= 0.5
    ensures var ops := [Message(1.0, None), Message(3.0, None), Message(5.0, None), StatsTick(5.0)];
            InTime(2.0, 0.5, 1.0, ops, 5.5) && ShownAt(0.5, false, gap, ops, 5.5) == Warning
  {
    var x := FirstMessage(0.5, false, gap, 2.0);
    x := Beat(0.5, false, gap, 2.0, x);
    x := Beat(0.5, false, gap, 2.0, x);
    assert x.ops == [Message(1.0, None), Message(3.0, None), Message(5.0, None)];
    x := Refresh(0.5, false, gap, 2.0, x, 5.0);
    assert x.ops == [Message(1.0, None), Message(3.0, None), Message(5.0, None), StatsTick(5.0)];
    ShowsAtLast(0.5, false, gap, 2.0, 0.5, x, 5.5);
  }

  /** A message every second where three are to come: ok. */
  lemma SlowShowsOk(gap: real)
    requires gap >= 0.0
    ensures var ops := [Message(1.0, None), Message(2.0, None)];
            InTime(1.0, 0.0, 1.0, ops, 2.0) && ShownAt(3.0, false, gap, ops, 2.0) == Ok
  {
    var x := FirstMessage(3.0, false, gap, 1.0);
    x := Beat(3.0, false, gap, 1.0, x);
    assert x.ops == [Message(1.0, None), Message(2.0, None)];
    ShowsAtLast(3.0, false, gap, 1.0, 0.0, x, 2.0);
  }

  /** The gap threshold does not mean that a source may stall that long: from half a second on any source, however fast,
      may be shown as Warning. */
  lemma StallShowsWarning(hz: real, p: real, gap: real, late: real)
    requires hz > 0.0 && p > 0.0 && 0.5 <= late <= gap
    ensures !AlwaysShows(Ok, hz, p, gap, late)
  {
    FewestHold(p, late, 0);
    SpansAdd(p, 0, 0);
    SameSign(hz, late);
    WarnsAtSample(hz, p, gap, late);
  }
}
