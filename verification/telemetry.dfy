/** `_generate_telemetry_from_data`: the joint values and names of every video frame. */
module Telemetry {
  import opened Wrappers
  import opened Numbers
  import opened Sequences
  import opened Resampling
  import opened MediaStream

  type Prefix(==,!new)

  /** A configured topic with the joint positions extracted from it, in arrival order. */
  datatype JointTopic = JointTopic(prefix: Prefix, messages: seq<Stamped<Vector>>)

  datatype JointName = JointName(prefix: Prefix, number: nat)

  datatype TelemetryFrame = TelemetryFrame(observation: Vector, action: Vector, frameIndex: nat, timestamp: real,
                                           observationNames: seq<JointName>, actionNames: seq<JointName>)

  // ---- What a frame holds ----

  predicate AllHaveMessages(topics: seq<JointTopic>) { forall k :: 0 <= k < |topics| ==> topics[k].messages != [] }

  /** The topics with messages, each sorted by time. */
  function SortedTopics(topics: seq<JointTopic>): (r: seq<JointTopic>)
    ensures AllHaveMessages(r)
  {
    if topics == [] then []
    else
      var last := topics[|topics| - 1];
      SortedTopics(topics[..|topics| - 1]) +
      if last.messages == [] then [] else [last.(messages := SortTopicData(last.messages))]
  }

  /** What one sorted topic shows at the target time. */
  function Shown(topic: JointTopic, t: int): Vector
    requires topic.messages != []
  {
    topic.messages[FindNearestIndex(Times(topic.messages), t)].value
  }

  function ShownBy(topics: seq<JointTopic>, t: int): (r: seq<Vector>)
    requires AllHaveMessages(topics)
    ensures |r| == |topics| && forall k :: 0 <= k < |r| ==> r[k] == Shown(topics[k], t)
  {
    seq(|topics|, k requires 0 <= k < |topics| => Shown(topics[k], t))
  }

  /** The values of all topics, one after the other. */
  function RowAt(topics: seq<JointTopic>, t: int): Vector
    requires AllHaveMessages(topics)
  {
    Flat(ShownBy(topics, t))
  }

  function NamesOf(topic: JointTopic): (r: seq<JointName>)
    requires topic.messages != []
    ensures |r| == |topic.messages[0].value| && forall j :: 0 <= j < |r| ==> r[j] == JointName(topic.prefix, j + 1)
  {
    seq(|topic.messages[0].value|, j requires j >= 0 => JointName(topic.prefix, j + 1))
  }

  function NamedBy(topics: seq<JointTopic>): (r: seq<seq<JointName>>)
    requires AllHaveMessages(topics)
    ensures |r| == |topics| && forall k :: 0 <= k < |r| ==> r[k] == NamesOf(topics[k])
  {
    seq(|topics|, k requires 0 <= k < |topics| => NamesOf(topics[k]))
  }

  function Names(topics: seq<JointTopic>): seq<JointName>
    requires AllHaveMessages(topics)
  {
    Flat(NamedBy(topics))
  }

  /** The action side falls back to the observation side when no action topic has messages. */
  function ActionSide(observation: seq<JointTopic>, action: seq<JointTopic>): (r: seq<JointTopic>)
    ensures AllHaveMessages(r)
  {
    if SortedTopics(action) == [] then SortedTopics(observation) else SortedTopics(action)
  }

  function FrameOf(observation: seq<JointTopic>, action: seq<JointTopic>, i: nat, t: int, fps: nat): TelemetryFrame
    requires AllHaveMessages(observation) && AllHaveMessages(action) && fps > 0
  {
    TelemetryFrame(RowAt(observation, t), RowAt(action, t), i, TimeOf(i, fps), Names(observation), Names(action))
  }

  function TimeOf(i: nat, fps: nat): real
    requires fps > 0
  {
    i as real / fps as real
  }

  // ---- The loops ----

  /** Preparing one side. */
  method SortSide(topics: seq<JointTopic>) returns (r: seq<JointTopic>)
    ensures r == SortedTopics(topics)
  {
    r := [];
    for k := 0 to |topics|
      invariant r == SortedTopics(topics[..k])
    {
      assert topics[..k + 1][..k] == topics[..k];
      if topics[k].messages == [] {
        continue;
      }
      r := r + [topics[k].(messages := SortTopicData(topics[k].messages))];
    }
    assert topics[..|topics|] == topics;
  }

  method GenerateNames(topics: seq<JointTopic>) returns (names: seq<JointName>)
    requires AllHaveMessages(topics)
    ensures names == Names(topics)
  {
    names := [];
    for k := 0 to |topics|
      invariant names == Flat(NamedBy(topics)[..k])
    {
      assert NamedBy(topics)[..k + 1] == NamedBy(topics)[..k] + [NamesOf(topics[k])];
      FlatOneMore(NamedBy(topics)[..k], NamesOf(topics[k]));
      names := names + NamesOf(topics[k]);
    }
    assert NamedBy(topics)[..|topics|] == NamedBy(topics);
  }

  /** One side at one target time. */
  method ResampleRow(topics: seq<JointTopic>, t: int) returns (values: Vector)
    requires AllHaveMessages(topics)
    ensures values == RowAt(topics, t)
  {
    values := [];
    for k := 0 to |topics|
      invariant values == Flat(ShownBy(topics, t)[..k])
    {
      assert ShownBy(topics, t)[..k + 1] == ShownBy(topics, t)[..k] + [Shown(topics[k], t)];
      FlatOneMore(ShownBy(topics, t)[..k], Shown(topics[k], t));
      var index := FindNearestIndex(Times(topics[k].messages), t);
      values := values + topics[k].messages[index].value;
    }
    assert ShownBy(topics, t)[..|topics|] == ShownBy(topics, t);
  }

  /** `_generate_telemetry_from_data`: nothing is written when no observation topic has messages. */
  method GenerateTelemetry(observation: seq<JointTopic>, action: seq<JointTopic>, targets: seq<int>, fps: nat)
    returns (frames: Option<seq<TelemetryFrame>>)
    requires fps > 0
    ensures frames.None? <==> SortedTopics(observation) == []
    ensures frames.Some? ==> |frames.value| == |targets|
    ensures frames.Some? ==> forall i :: 0 <= i < |targets| ==>
              frames.value[i] == FrameOf(SortedTopics(observation), ActionSide(observation, action), i, targets[i], fps)
  {
    var obs := SortSide(observation);
    if obs == [] {
      return None;
    }
    var act := SortSide(action);
    if act == [] {
      act := obs;
    }
    var obsNames := GenerateNames(obs);
    var actNames := GenerateNames(act);
    var list := [];
    for i := 0 to |targets|
      invariant |list| == i
      invariant forall j :: 0 <= j < i ==> list[j] == FrameOf(obs, act, j, targets[j], fps)
    {
      var frame := MakeFrame(obs, act, i, targets[i], fps, obsNames, actNames);
      list := list + [frame];
    }
    return Some(list);
  }

  /** One turn of the loop over the frames. */
  method MakeFrame(obs: seq<JointTopic>, act: seq<JointTopic>, i: nat, t: int, fps: nat, obsNames: seq<JointName>,
                   actNames: seq<JointName>)
    returns (frame: TelemetryFrame)
    requires AllHaveMessages(obs) && AllHaveMessages(act) && fps > 0
    requires obsNames == Names(obs) && actNames == Names(act)
    ensures frame == FrameOf(obs, act, i, t, fps)
  {
    var obsValues := ResampleRow(obs, t);
    var actValues := ResampleRow(act, t);
    frame := TelemetryFrame(obsValues, actValues, i, TimeOf(i, fps), obsNames, actNames);
  }

  // ---- Names and values ----

  /** Every message of a topic has as many joints as its first one. */
  ghost predicate Regular(topics: seq<JointTopic>) {
    forall k :: 0 <= k < |topics| ==> topics[k].messages != [] && RegularTopic(topics[k])
  }

  ghost predicate RegularTopic(topic: JointTopic)
    requires topic.messages != []
  {
    forall i :: 0 <= i < |topic.messages| ==> |topic.messages[i].value| == |topic.messages[0].value|
  }

  /** Where the joints of topic `k` begin in a row. */
  function Offset(topics: seq<JointTopic>, k: nat): nat
    requires AllHaveMessages(topics) && k <= |topics|
  {
    |Flat(NamedBy(topics)[..k])|
  }

  lemma ShownLength(topic: JointTopic, t: int)
    requires topic.messages != [] && RegularTopic(topic)
    ensures |Shown(topic, t)| == |NamesOf(topic)| == |topic.messages[0].value|
  {
  }

  lemma EachTopicIsNamed(topics: seq<JointTopic>, t: int)
    requires Regular(topics)
    ensures forall k :: 0 <= k < |topics| ==> |ShownBy(topics, t)[k]| == |NamedBy(topics)[k]|
  {
    forall k | 0 <= k < |topics| ensures |ShownBy(topics, t)[k]| == |NamedBy(topics)[k]| {
      ShownLength(topics[k], t);
    }
  }

  /** Names and values line up: there is one name per value, and position `j` of topic `k` carries that topic's value
      and is named by its prefix and joint number. */
  lemma NamesLabelValues(topics: seq<JointTopic>, t: int, k: nat, j: nat)
    requires Regular(topics) && k < |topics| && j < |NamesOf(topics[k])|
    ensures |Names(topics)| == |RowAt(topics, t)|
    ensures var at := Offset(topics, k) + j;
            && at < |Names(topics)| && j < |ShownBy(topics, t)[k]|
            && RowAt(topics, t)[at] == ShownBy(topics, t)[k][j]
            && Names(topics)[at] == JointName(topics[k].prefix, j + 1)
  {
    EachTopicIsNamed(topics, t);
    FlatLinesUp(ShownBy(topics, t), NamedBy(topics), k, j);
  }

  // ---- What a frame says ----

  /** Topics without messages drop out, the others keep their order, their prefix and, sorted by time, their messages.
      */
  lemma {:induction false} SidesJoin(a: seq<JointTopic>, b: seq<JointTopic>)
    ensures SortedTopics(a + b) == SortedTopics(a) + SortedTopics(b)
  {
    if b == [] {
      assert a + b == a;
    } else {
      LastOfConcat(a, b);
      SidesJoin(a, b[..|b| - 1]);
    }
  }

  lemma OneTopic(topic: JointTopic)
    ensures SortedTopics([topic]) ==
            if topic.messages == [] then []
            else [JointTopic(topic.prefix, SortTopicData(topic.messages))]
  {
    assert [topic][..0] == [];
    assert SortedTopics([]) == [];
  }

  /** Joint `j` of topic `k` stands in this row under its own name, with the value of a message that none at or before
      the target is later than. */
  ghost predicate Says(row: Vector, names: seq<JointName>, side: seq<JointTopic>, t: int, k: nat, j: nat)
    requires AllHaveMessages(side) && k < |side|
  {
    var at := Offset(side, k) + j;
    && |row| == |names| && at < |row| && names[at] == JointName(side[k].prefix, j + 1)
    && exists m :: m in side[k].messages && LatestAt(m, side[k].messages, t) && j < |m.value| && row[at] == m.value[j]
  }

  ghost predicate LatestAt(m: Stamped<Vector>, messages: seq<Stamped<Vector>>, t: int) {
    && (forall x :: x in messages && x.at <= t ==> x.at <= m.at <= t)
    && (m.at > t ==> forall x :: x in messages ==> m.at <= x.at)
  }

  lemma ShownIsLatest(topic: JointTopic, t: int) returns (m: Stamped<Vector>)
    requires topic.messages != [] && Ascending(Times(topic.messages))
    ensures m in topic.messages && LatestAt(m, topic.messages, t) && m.value == Shown(topic, t)
  {
    var ts := Times(topic.messages);
    FindNearestIsLatest(ts, t);
    var k := FindNearestIndex(ts, t);
    m := topic.messages[k];
    forall x | x in topic.messages
      ensures x.at <= t ==> x.at <= m.at <= t
      ensures m.at > t ==> m.at <= x.at
    {
      var i :| 0 <= i < |topic.messages| && topic.messages[i] == x;
      assert ts[i] == x.at && ts[k] == m.at;
    }
  }

  ghost predicate InStampOrder(side: seq<JointTopic>) {
    forall k :: 0 <= k < |side| ==> Ascending(Times(side[k].messages))
  }

  lemma {:induction false} SidesAreSorted(topics: seq<JointTopic>)
    ensures InStampOrder(SortedTopics(topics))
  {
    if topics != [] { SidesAreSorted(topics[..|topics| - 1]); }
  }

  lemma RowSays(side: seq<JointTopic>, t: int, k: nat, j: nat)
    requires Regular(side) && InStampOrder(side) && k < |side| && j < |side[k].messages[0].value|
    ensures Says(RowAt(side, t), Names(side), side, t, k, j)
  {
    NamesLabelValues(side, t, k, j);
    var m := ShownIsLatest(side[k], t);
  }

  /** A frame's number and time are its position's; its observation says what the observation topics' messages do, and
      its action what the action topics' do. Without a message on any action topic the action repeats the
      observation. */
  lemma FrameMeans(observation: seq<JointTopic>, action: seq<JointTopic>, i: nat, t: int, fps: nat)
    requires fps > 0 && Regular(SortedTopics(observation)) && Regular(SortedTopics(action))
    ensures var f := FrameOf(SortedTopics(observation), ActionSide(observation, action), i, t, fps);
            && f.frameIndex == i && Seconds(f.timestamp, fps) == i as real
            && SideSays(f.observation, f.observationNames, SortedTopics(observation), t)
            && (SortedTopics(action) == [] ==> f.action == f.observation && f.actionNames == f.observationNames)
            && (SortedTopics(action) != [] ==> SideSays(f.action, f.actionNames, SortedTopics(action), t))
  {
    SidesAreSorted(observation);
    SidesAreSorted(action);
    RowsSay(SortedTopics(observation), t);
    RowsSay(SortedTopics(action), t);
    FrameNumber(i, fps);
  }

  function Seconds(time: real, fps: nat): real { time * fps as real }

  lemma FrameNumber(i: nat, fps: nat)
    requires fps > 0
    ensures Seconds(TimeOf(i, fps), fps) == i as real
  {
  }

  ghost predicate SideSays(row: Vector, names: seq<JointName>, side: seq<JointTopic>, t: int)
    requires AllHaveMessages(side)
  {
    forall k: nat, j: nat :: k < |side| && j < |side[k].messages[0].value| ==> Says(row, names, side, t, k, j)
  }

  lemma RowsSay(side: seq<JointTopic>, t: int)
    requires Regular(side) && InStampOrder(side)
    ensures SideSays(RowAt(side, t), Names(side), side, t)
  {
    forall k: nat, j: nat | k < |side| && j < |side[k].messages[0].value|
      ensures Says(RowAt(side, t), Names(side), side, t, k, j)
    {
      RowSays(side, t, k, j);
    }
  }
}
