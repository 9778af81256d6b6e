/** `BaselineLearner`, `TopicStats` and `TopicMonitorService` with their mutable fields; every method moves the abstract
    statistics as `TopicStatsSpec` says. */
module TopicMonitoring {
  import opened Wrappers
  import opened Numbers
  import Spec = TopicStatsSpec

  type TopicName(==,!new)

  class BaselineLearner {
    var countStart: int
    var timeStart: real

    constructor ()
      ensures State() == Spec.Learner(0, 0.0)
    {
      countStart, timeStart := 0, 0.0;
    }

    ghost function State(): Spec.Learner
      reads this
    {
      Spec.Learner(countStart, timeStart)
    }

    method Step(now: real, first: Option<real>, messageCount: int, lastMsgTime: real) returns (hz: Option<real>)
      modifies this
      ensures (State(), hz) == Spec.LearnerStep(old(State()), now, first, messageCount, lastMsgTime)
    {
      if first.None? {
        return None;
      }
      if timeStart == 0.0 {
        if now - first.value >= Spec.WARMUP_SEC {
          timeStart := now;
          countStart := messageCount;
        }
        return None;
      }
      var count := messageCount - countStart;
      var elapsed := lastMsgTime - timeStart;
      if count < Spec.MIN_SAMPLES || elapsed < Spec.MIN_SEC {
        return None;
      }
      return Some(count as real / elapsed);
    }

    method Reset()
      modifies this
      ensures State() == Spec.Learner(0, 0.0)
    {
      countStart := 0;
      timeStart := 0.0;
    }
  }

  class TopicStats {
    var messageCount: int
    var baselineHz: Option<real>
    var baselineFixed: bool
    var firstReceived: Option<real>
    var windowStart: real
    var windowCount: int
    var lastLossRate: real
    var lastDropCount: int
    var lastStamp: real
    var stampWindowStart: real
    var stampLossCount: int
    var stampMsgCount: int
    const stampQuality: bool
    const gapThreshold: real
    const hzDropThreshold: real
    var hzCount: int
    var hzCountStart: real
    var lastMsgTime: real
    var cachedHz: real
    var cachedStatus: Spec.Status
    const learner: BaselineLearner

    ghost function State(): Spec.Stats
      reads this, learner
    {
      Spec.Stats(messageCount, baselineHz, baselineFixed, firstReceived, windowStart, windowCount, lastLossRate,
                 lastDropCount, lastStamp, stampWindowStart, stampLossCount, stampMsgCount, stampQuality, gapThreshold,
                 hzDropThreshold, hzCount, hzCountStart, lastMsgTime, cachedHz, cachedStatus, learner.State())
    }

    constructor (expectedHz: Option<real>, stampQuality: bool, gapThreshold: real)
      ensures State() == Spec.Subscribed(expectedHz, stampQuality, gapThreshold) && fresh(learner)
    {
      messageCount, baselineHz, baselineFixed, firstReceived := 0, expectedHz, expectedHz.Some?, None;
      windowStart, windowCount, lastLossRate, lastDropCount := 0.0, 0, 0.0, 0;
      lastStamp, stampWindowStart, stampLossCount, stampMsgCount := 0.0, 0.0, 0, 0;
      this.stampQuality, this.gapThreshold, hzDropThreshold := stampQuality, gapThreshold, 0.5;
      hzCount, hzCountStart, lastMsgTime, cachedHz, cachedStatus := 0, 0.0, 0.0, 0.0, Spec.Inactive;
      learner := new BaselineLearner();
    }

    method OnStamp(now: real, stamp: Option<real>)
      modifies this
      ensures State() == Spec.OnStamp(old(State()), now, stamp)
    {
      hzCount := hzCount + 1;
      if hzCountStart == 0.0 {
        hzCountStart := now;
      }
      assert State() == Spec.CountArrival(old(State()), now);
      if stamp.Some? && baselineHz.Some? && baselineHz.value > 0.0 {
        CountStamp(now, stamp.value);
      }
    }

    /** The loss detection of `on_stamp`, for a topic with a rate. */
    method CountStamp(now: real, stamp: real)
      requires Spec.HasRate(State())
      modifies this`stampWindowStart, this`stampMsgCount, this`stampLossCount, this`lastStamp
      ensures State() == Spec.CountStamp(old(State()), now, Some(stamp))
    {
      if stampWindowStart == 0.0 {
        stampWindowStart := now;
      }
      stampMsgCount := stampMsgCount + 1;
      if lastStamp > 0.0 {
        var interval := stamp - lastStamp;
        DivideByPeriod(interval, baselineHz.value);
        var expectedInterval := 1.0 / baselineHz.value;
        if interval > expectedInterval * 1.5 {
          var lost := MaxInt(0, Round(interval / expectedInterval) - 1);
          stampLossCount := stampLossCount + lost;
        }
      }
      lastStamp := stamp;
    }

    method TickLossWindow(now: real)
      modifies this`windowCount, this`windowStart
      ensures State() == Spec.TickLossWindow(old(State()), now)
    {
      windowCount := windowCount + 1;
      if windowStart == 0.0 {
        windowStart := now;
      }
    }

    function ComputeActualHz(now: real): (hz: real)
      reads this, learner
      ensures hz == Spec.ComputeActualHz(State(), now)
    {
      if hzCountStart == 0.0 then 0.0
      else if now - hzCountStart < Spec.HZ_MIN_SAMPLE_SEC then cachedHz
      else hzCount as real / (now - hzCountStart)
    }

    function ComputeStatus(now: real): (status: Spec.Status)
      reads this, learner
      ensures status == Spec.ComputeStatus(State(), now)
    {
      if messageCount == 0 then Spec.Inactive
      else if lastMsgTime == 0.0 then Spec.Inactive
      else if now - lastMsgTime > gapThreshold then Spec.Danger
      else if baselineHz.Some? && baselineHz.value > 0.0 && cachedHz < baselineHz.value * hzDropThreshold then
        Spec.Warning
      else Spec.Ok
    }

    method StartHzWindow(now: real)
      modifies this`hzCount, this`hzCountStart
      ensures State() == old(State()).(hzCount := 0, hzCountStart := now)
    {
      hzCount := 0;
      hzCountStart := now;
    }

    method ComputeLossRate(now: real)
      modifies this
      ensures State() == Spec.ComputeLossRate(old(State()), now)
    {
      if baselineHz.None? || baselineHz.value <= 0.0 {
        lastLossRate, lastDropCount := 0.0, 0;
      } else {
        var stampElapsed := if stampWindowStart > 0.0 then now - stampWindowStart else 0.0;
        if stampQuality && stampMsgCount > 0 && stampElapsed >= 1.0 {
          StampLossRate(now, stampElapsed);
        } else {
          CountLossRate(now);
        }
      }
    }

    /** `_compute_loss_rate` from the stamp counters. */
    method StampLossRate(now: real, stampElapsed: real)
      requires stampElapsed == Spec.StampElapsed(State(), now) && stampElapsed >= 1.0
      modifies this`lastLossRate, this`lastDropCount, this`stampWindowStart, this`stampLossCount, this`stampMsgCount
      ensures State() == Spec.StampLossRate(old(State()), now)
    {
      var total := stampMsgCount + stampLossCount;
      lastLossRate := if total > 0 then stampLossCount as real / total as real else 0.0;
      lastDropCount := Round(stampLossCount as real / stampElapsed);
      if stampElapsed >= Spec.LOSS_RATE_WINDOW_SEC {
        stampWindowStart := now;
        stampLossCount := 0;
        stampMsgCount := 0;
      }
    }

    /** `_compute_loss_rate` from the message counter. */
    method CountLossRate(now: real)
      requires Spec.HasRate(State())
      modifies this`lastLossRate, this`lastDropCount, this`windowStart, this`windowCount
      ensures State() == Spec.CountLossRate(old(State()), now)
    {
      if windowStart == 0.0 || now - windowStart < 1.0 {
        lastLossRate, lastDropCount := 0.0, 0;
        return;
      }
      var elapsed := now - windowStart;
      var expected := baselineHz.value * elapsed;
      SameSign(baselineHz.value, elapsed);
      lastLossRate := Max(0.0, 1.0 - windowCount as real / expected);
      var totalDrops := Max(0.0, expected - windowCount as real);
      lastDropCount := Round(totalDrops / elapsed);
      assert expected == Spec.ExpectedCount(baselineHz.value, elapsed);
      if elapsed >= Spec.LOSS_RATE_WINDOW_SEC {
        windowStart := now;
        windowCount := 0;
      }
    }

    /** `refresh_cache` up to the status. */
    method RefreshHz(now: real)
      modifies this`cachedHz, this`hzCount, this`hzCountStart
      ensures State() == Spec.RefreshHz(old(State()), now)
    {
      cachedHz := ComputeActualHz(now);
      if hzCountStart > 0.0 && now - hzCountStart > Spec.HZ_WINDOW_SEC {
        StartHzWindow(now);
      }
    }

    method RefreshCache(now: real)
      modifies this
      ensures State() == Spec.RefreshCache(old(State()), now)
    {
      RefreshHz(now);
      cachedStatus := ComputeStatus(now);
      if cachedStatus == Spec.Danger {
        lastLossRate, lastDropCount := 0.0, 0;
      } else {
        ComputeLossRate(now);
      }
    }

    method MaybeLearnBaseline(now: real) returns (learned: Option<real>)
      modifies this`baselineHz, learner
      ensures (State(), learned) == Spec.MaybeLearn(old(State()), now)
    {
      if baselineHz.Some? {
        return None;
      }
      learned := learner.Step(now, firstReceived, messageCount, lastMsgTime);
      if learned.Some? {
        baselineHz := learned;
      }
    }

    /** `on_message` under the lock. */
    method OnMessage(now: real, stamp: Option<real>)
      modifies this
      ensures State() == Spec.OnMessage(old(State()), now, stamp)
    {
      if firstReceived.None? {
        firstReceived := Some(now);
      }
      lastMsgTime := now;
      OnStamp(now, stamp);
      messageCount := messageCount + 1;
      TickLossWindow(now);
    }

    /** `_reset_stats_timing`. */
    method ResetTiming()
      modifies this, learner
      ensures State() == Spec.ResetTiming(old(State()))
    {
      ResetLossCounters();
      ResetStampCounters();
      ResetArrivals();
      ResetRate();
      learner.Reset();
    }

    method ResetArrivals()
      modifies this`messageCount, this`firstReceived, this`lastMsgTime
      ensures State() == old(State()).(messageCount := 0, firstReceived := None, lastMsgTime := 0.0)
    {
      messageCount := 0;
      firstReceived := None;
      lastMsgTime := 0.0;
    }

    method ResetRate()
      modifies this`hzCount, this`hzCountStart, this`cachedHz, this`cachedStatus
      ensures State() ==
              old(State()).(hzCount := 0, hzCountStart := 0.0, cachedHz := 0.0, cachedStatus := Spec.Inactive)
    {
      hzCount := 0;
      hzCountStart := 0.0;
      cachedHz := 0.0;
      cachedStatus := Spec.Inactive;
    }

    method ResetLossCounters()
      modifies this`windowStart, this`windowCount, this`lastLossRate, this`lastDropCount
      ensures State() == old(State()).(windowStart := 0.0, windowCount := 0, lastLossRate := 0.0, lastDropCount := 0)
    {
      windowStart := 0.0;
      windowCount := 0;
      lastLossRate := 0.0;
      lastDropCount := 0;
    }

    method ResetStampCounters()
      modifies this`lastStamp, this`stampWindowStart, this`stampLossCount, this`stampMsgCount
      ensures State() ==
              old(State()).(lastStamp := 0.0, stampWindowStart := 0.0, stampLossCount := 0, stampMsgCount := 0)
    {
      lastStamp := 0.0;
      stampWindowStart := 0.0;
      stampLossCount := 0;
      stampMsgCount := 0;
    }

    /** One topic's turn in `reset_baseline`. */
    method ResetBaseline()
      modifies this, learner
      ensures State() == Spec.ResetBaseline(old(State()))
    {
      if !baselineFixed {
        baselineHz := None;
      }
      ResetTiming();
    }

    /** One topic's turn in `get_topic_stats`. */
    method Tick(now: real)
      modifies this, learner
      ensures State() == Spec.Tick(old(State()), now)
    {
      var _ := MaybeLearnBaseline(now);
      RefreshCache(now);
    }
  }

  class TopicMonitorService {
    var topics: map<TopicName, TopicStats>
    var paused: bool
    ghost var repr: set<object>

    /** Every topic has its own statistics object and learner. */
    ghost predicate Valid()
      reads this
    {
      && this !in repr
      && (forall n :: n in topics ==> topics[n] in repr && topics[n].learner in repr)
      && (forall n, m :: n in topics && m in topics && n != m ==>
            topics[n] != topics[m] && topics[n].learner != topics[m].learner)
    }

    constructor ()
      ensures Valid() && topics == map[] && !paused && fresh(repr)
    {
      topics, paused, repr := map[], false, {};
    }

    /** `_subscribe_to_topic` for a topic whose type the subscriber knows. */
    method Subscribe(name: TopicName, expectedHz: Option<real>, stampQuality: bool, gapThreshold: real)
      requires Valid() && name !in topics
      modifies this
      ensures Valid() && paused == old(paused) && fresh(repr - old(repr))
      ensures topics.Keys == old(topics.Keys) + {name}
      ensures topics[name].State() == Spec.Subscribed(expectedHz, stampQuality, gapThreshold)
      ensures forall n :: n in old(topics) ==> topics[n] == old(topics[n])
    {
      var stats := new TopicStats(expectedHz, stampQuality, gapThreshold);
      topics := topics[name := stats];
      repr := repr + {stats, stats.learner};
    }

    method OnMessage(name: TopicName, now: real, stamp: Option<real>)
      requires Valid()
      modifies repr
      ensures Valid()
      ensures States() ==
              if name in topics && !paused then old(States())[name := Spec.OnMessage(old(States())[name], now, stamp)]
              else old(States())
    {
      if paused {
        return;
      }
      if name in topics {
        topics[name].OnMessage(now, stamp);
      }
    }

    /** The statistics of every topic. */
    ghost function States(): map<TopicName, Spec.Stats>
      requires Valid()
      reads this, repr
    {
      map n | n in topics :: topics[n].State()
    }

    method GetTopicStats(now: real)
      requires Valid()
      modifies repr
      ensures Valid()
      ensures States() == Visited(old(States()), {}, TickCall(now))
    {
      ghost var before := States();
      VisitedNone(before, TickCall(now));
      var todo := topics.Keys;
      while todo != {}
        invariant topics == old(topics) && repr == old(repr)
        invariant Valid() && todo <= topics.Keys
        invariant States() == Visited(before, todo, TickCall(now))
        decreases |todo|
      {
        var name :| name in todo;
        VisitedNext(before, todo, name, TickCall(now));
        TickTopic(name, now);
        todo := todo - {name};
      }
    }

    twostate lemma OneTopicChanged(name: TopicName)
      requires old(Valid()) && Valid() && topics == old(topics) && repr == old(repr) && name in topics
      requires forall n :: n in topics && n != name ==> unchanged(topics[n]) && unchanged(topics[n].learner)
      ensures States() == old(States())[name := topics[name].State()]
    {
      forall n | n in topics && n != name ensures topics[n].State() == old(topics[n].State()) {
      }
    }

    method TickTopic(name: TopicName, now: real)
      requires Valid() && name in topics
      modifies repr
      ensures topics == old(topics) && repr == old(repr) && paused == old(paused)
      ensures Valid() && States() == old(States())[name := Spec.Tick(old(States())[name], now)]
    {
      topics[name].Tick(now);
      OneTopicChanged(name);
    }

    method ResetBaseline()
      requires Valid()
      modifies repr
      ensures Valid()
      ensures States() == Visited(old(States()), {}, BaselineCall)
    {
      ghost var before := States();
      VisitedNone(before, BaselineCall);
      var todo := topics.Keys;
      while todo != {}
        invariant topics == old(topics) && repr == old(repr)
        invariant Valid() && todo <= topics.Keys
        invariant States() == Visited(before, todo, BaselineCall)
        decreases |todo|
      {
        var name :| name in todo;
        VisitedNext(before, todo, name, BaselineCall);
        ResetTopicBaseline(name);
        todo := todo - {name};
      }
    }

    method ResetTopicBaseline(name: TopicName)
      requires Valid() && name in topics
      modifies repr
      ensures topics == old(topics) && repr == old(repr) && paused == old(paused)
      ensures Valid() && States() == old(States())[name := Spec.ResetBaseline(old(States())[name])]
    {
      topics[name].ResetBaseline();
      OneTopicChanged(name);
    }

    method Pause()
      requires Valid()
      modifies this`paused
      ensures Valid() && paused
    {
      paused := true;
    }

    method Resume()
      requires Valid()
      modifies this`paused, repr
      ensures Valid() && !paused
      ensures States() == Visited(old(States()), {}, TimingCall)
    {
      ResetAllTiming();
      paused := false;
    }

    /** The loop of `resume`. */
    method ResetAllTiming()
      requires Valid()
      modifies repr
      ensures Valid()
      ensures States() == Visited(old(States()), {}, TimingCall)
    {
      ghost var before := States();
      VisitedNone(before, TimingCall);
      var todo := topics.Keys;
      while todo != {}
        invariant topics == old(topics) && repr == old(repr)
        invariant Valid() && todo <= before.Keys
        invariant States() == Visited(before, todo, TimingCall)
        decreases |todo|
      {
        var name :| name in todo;
        VisitedNext(before, todo, name, TimingCall);
        ResetTopicTiming(name);
        todo := todo - {name};
      }
    }

    method ResetTopicTiming(name: TopicName)
      requires Valid() && name in topics
      modifies repr
      ensures topics == old(topics) && repr == old(repr) && paused == old(paused)
      ensures Valid() && States() == old(States())[name := Spec.ResetTiming(old(States())[name])]
    {
      topics[name].ResetTiming();
      OneTopicChanged(name);
    }
  }

  /** The calls that visit every topic. */
  datatype Call = TickCall(now: real) | BaselineCall | TimingCall

  ghost function AfterCall(s: Spec.Stats, call: Call): Spec.Stats {
    match call
    case TickCall(now) => Spec.Tick(s, now)
    case BaselineCall => Spec.ResetBaseline(s)
    case TimingCall => Spec.ResetTiming(s)
  }

  /** A loop over the topics has made the call on all but those still to do. */
  ghost function Visited(states: map<TopicName, Spec.Stats>, todo: set<TopicName>, call: Call)
    : map<TopicName, Spec.Stats>
  {
    map n | n in states :: if n in todo then states[n] else AfterCall(states[n], call)
  }

  lemma VisitedNext(states: map<TopicName, Spec.Stats>, todo: set<TopicName>, name: TopicName, call: Call)
    requires name in todo && name in states
    ensures Visited(states, todo, call)[name] == states[name]
    ensures Visited(states, todo - {name}, call) == Visited(states, todo, call)[name := AfterCall(states[name], call)]
  {
  }

  lemma VisitedNone(states: map<TopicName, Spec.Stats>, call: Call)
    ensures Visited(states, states.Keys, call) == states
    ensures Visited(states, {}, call) == map n | n in states :: AfterCall(states[n], call)
  {
  }
}
