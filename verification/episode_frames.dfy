/** One recording as synchronized frames: the timebase and `iter_episode_frames` of `converter.py`. */
module EpisodeFrames {
  import opened Wrappers
  import opened Numbers
  import opened Resampling

  type Topic(==,!new)
  type Camera(==,!new)
  type FieldName(==,!new)
  /** A decoded ROS message. */
  type Decoded(==,!new)

  datatype Interpolation = Linear | Nearest

  /** `SourceConfig`: a topic and the extraction of a fixed-length vector from its messages. */
  datatype Source = Source(topic: Topic, extract: Decoded -> Vector, dim: nat, interpolation: Interpolation)

  datatype Field = Field(name: FieldName, sources: seq<Source>)

  datatype CameraTopic = CameraTopic(camera: Camera, topic: Topic)

  /** `ExportConfig`, its dictionaries as ordered lists. */
  datatype Config = Config(images: seq<CameraTopic>, observation: seq<Field>, action: seq<Source>,
                           syncTolerance: int, imageTolerance: int)

  type Messages = map<Topic, seq<Stamped<Decoded>>>

  /** `Frame` before its images are decoded. */
  datatype SyncedFrame = SyncedFrame(images: seq<(Camera, Decoded)>, observations: seq<(FieldName, Vector)>,
                                     action: Vector)

  // ---- Timebase ----

  function Least(values: seq<int>): (r: int)
    requires values != []
    ensures r in values && forall v :: v in values ==> r <= v
  {
    if |values| == 1 then values[0]
    else
      assert values == [values[0]] + values[1..];
      MinInt(values[0], Least(values[1..]))
  }

  function Greatest(values: seq<int>): (r: int)
    requires values != []
    ensures r in values && forall v :: v in values ==> v <= r
  {
    if |values| == 1 then values[0]
    else
      assert values == [values[0]] + values[1..];
      MaxInt(values[0], Greatest(values[1..]))
  }

  /** Python's `range(first, last + 1, step)`. */
  function Steps(first: int, last: int, step: nat): (r: seq<int>)
    requires step > 0
    ensures forall i :: 0 <= i < |r| ==> r[i] == first + i * step && first <= r[i] <= last
    decreases last - first
  {
    if first > last then []
    else
      var rest := Steps(first + step, last, step);
      assert forall i :: 0 <= i < |rest| ==> rest[i] == first + (i + 1) * step;
      [first] + rest
  }

  predicate NonEmpty(topics: seq<seq<int>>) { forall i :: 0 <= i < |topics| ==> topics[i] != [] }

  function Firsts(topics: seq<seq<int>>): (r: seq<int>)
    requires NonEmpty(topics)
    ensures |r| == |topics| && forall i :: 0 <= i < |r| ==> r[i] == topics[i][0]
  {
    seq(|topics|, i requires 0 <= i < |topics| => topics[i][0])
  }

  function Lasts(topics: seq<seq<int>>): (r: seq<int>)
    requires NonEmpty(topics)
    ensures |r| == |topics| && forall i :: 0 <= i < |r| ==> r[i] == topics[i][|topics[i]| - 1]
  {
    seq(|topics|, i requires 0 <= i < |topics| => topics[i][|topics[i]| - 1])
  }

  function FirstTime(topics: seq<seq<int>>, union: bool): int
    requires topics != [] && NonEmpty(topics)
  {
    if union then Least(Firsts(topics)) else Greatest(Firsts(topics))
  }

  function LastTime(topics: seq<seq<int>>, union: bool): int
    requires topics != [] && NonEmpty(topics)
  {
    if union then Greatest(Lasts(topics)) else Least(Lasts(topics))
  }

  function Interval(fps: nat): (r: nat)
    requires fps > 0
    ensures r > 0
  {
    MaxInt(1_000_000_000 / fps, 1)
  }

  /** The step is the frame period in whole nanoseconds, at least one. */
  lemma IntervalIsFramePeriod(fps: nat)
    requires 0 < fps <= 1_000_000_000
    ensures Interval(fps) * fps <= 1_000_000_000 < (Interval(fps) + 1) * fps
  {
    var q, r := 1_000_000_000 / fps, 1_000_000_000 % fps;
    assert 1_000_000_000 == q * fps + r;
  }

  /** `compute_ref_timestamps` over the timestamps of the non-empty topics. */
  function RefTimestamps(topics: seq<seq<int>>, fps: nat, union: bool): (r: seq<int>)
    requires NonEmpty(topics) && fps > 0
  {
    if topics == [] then []
    else if !union && FirstTime(topics, union) > LastTime(topics, union) then []
    else Steps(FirstTime(topics, union), LastTime(topics, union), Interval(fps))
  }

  /** The timebase is uniform and increasing, and covers its window: in union mode from the first message of all until
      no further step fits before the last message of all; in intersection mode from the moment the last topic has
      started until no further step fits before the first topic ends, staying inside every topic's own range. */
  lemma RefTimestampsFit(topics: seq<seq<int>>, fps: nat, union: bool)
    requires NonEmpty(topics) && fps > 0
    ensures var refs := RefTimestamps(topics, fps, union);
            && Increasing(refs)
            && (forall i :: 0 < i < |refs| ==> refs[i] - refs[i - 1] == Interval(fps))
            && (refs != [] ==> Covers(Firsts(topics), Lasts(topics), refs[0], refs[|refs| - 1] + Interval(fps), union))
            && (!union ==> forall i, k :: 0 <= i < |refs| && 0 <= k < |topics| ==>
                  topics[k][0] <= refs[i] <= topics[k][|topics[k]| - 1])
            && (refs != [] ==> Reaches(topics, refs[|refs| - 1]))
  {
    var refs := RefTimestamps(topics, fps, union);
    if refs != [] {
      var first, last := FirstTime(topics, union), LastTime(topics, union);
      StepsIncreasing(first, last, Interval(fps));
      StepsReach(first, last, Interval(fps));
      WindowCovers(topics, union, refs[|refs| - 1] + Interval(fps));
      LastIsReached(topics, union, refs[|refs| - 1]);
      if !union { RefsInside(topics, fps); }
    }
  }

  /** Some topic has a message at this time or later. */
  ghost predicate Reaches(topics: seq<seq<int>>, t: int)
    requires NonEmpty(topics)
  {
    exists k :: 0 <= k < |topics| && t <= topics[k][|topics[k]| - 1]
  }

  lemma LastIsReached(topics: seq<seq<int>>, union: bool, t: int)
    requires topics != [] && NonEmpty(topics) && t <= LastTime(topics, union)
    ensures Reaches(topics, t)
  {
    assert LastTime(topics, union) in Lasts(topics);
    var k :| 0 <= k < |topics| && Lasts(topics)[k] == LastTime(topics, union);
  }

  lemma RefsInside(topics: seq<seq<int>>, fps: nat)
    requires NonEmpty(topics) && fps > 0
    ensures forall i, k :: 0 <= i < |RefTimestamps(topics, fps, false)| && 0 <= k < |topics| ==>
              topics[k][0] <= RefTimestamps(topics, fps, false)[i] <= topics[k][|topics[k]| - 1]
  {
    if topics != [] { InsideEveryRange(topics, RefTimestamps(topics, fps, false)); }
  }

  lemma InsideEveryRange(topics: seq<seq<int>>, refs: seq<int>)
    requires topics != [] && NonEmpty(topics)
    requires forall i :: 0 <= i < |refs| ==> FirstTime(topics, false) <= refs[i] <= LastTime(topics, false)
    ensures forall i, k :: 0 <= i < |refs| && 0 <= k < |topics| ==>
              topics[k][0] <= refs[i] <= topics[k][|topics[k]| - 1]
  {
    forall k | 0 <= k < |topics|
      ensures topics[k][0] <= FirstTime(topics, false) && LastTime(topics, false) <= topics[k][|topics[k]| - 1]
    {
      assert Firsts(topics)[k] in Firsts(topics) && Lasts(topics)[k] in Lasts(topics);
    }
  }

  /** The window of the timebase: it begins with the outermost (union) or innermost (intersection) start of a topic, and
      `beyond`, one step after its last time, is past its end. */
  ghost predicate Covers(starts: seq<int>, ends: seq<int>, first: int, beyond: int, union: bool) {
    && first in starts
    && (forall k :: 0 <= k < |starts| ==> if union then first <= starts[k] else starts[k] <= first)
    && if union then forall k :: 0 <= k < |ends| ==> ends[k] < beyond
       else exists k :: 0 <= k < |ends| && ends[k] < beyond
  }

  lemma WindowCovers(topics: seq<seq<int>>, union: bool, beyond: int)
    requires topics != [] && NonEmpty(topics) && beyond > LastTime(topics, union)
    ensures Covers(Firsts(topics), Lasts(topics), FirstTime(topics, union), beyond, union)
  {
    assert forall k :: 0 <= k < |topics| ==> Firsts(topics)[k] in Firsts(topics);
    assert forall k :: 0 <= k < |topics| ==> Lasts(topics)[k] in Lasts(topics);
    assert LastTime(topics, union) in Lasts(topics);
  }

  /** There is a timebase exactly when the window exists: always in union mode, and in intersection mode when every
      topic starts no later than any topic ends. */
  lemma RefTimestampsExist(topics: seq<seq<int>>, fps: nat, union: bool)
    requires NonEmpty(topics) && fps > 0
    requires forall k :: 0 <= k < |topics| ==> topics[k][0] <= topics[k][|topics[k]| - 1]
    ensures RefTimestamps(topics, fps, union) != [] <==>
            topics != [] &&
            (!union ==> forall j, k :: 0 <= j < |topics| && 0 <= k < |topics| ==>
               topics[j][0] <= topics[k][|topics[k]| - 1])
  {
    if topics != [] {
      if union {
        assert Firsts(topics)[0] in Firsts(topics) && Lasts(topics)[0] in Lasts(topics);
      } else {
        StartsMeetEnds(topics);
      }
    }
  }

  lemma StartsMeetEnds(topics: seq<seq<int>>)
    requires topics != [] && NonEmpty(topics)
    ensures FirstTime(topics, false) <= LastTime(topics, false) <==>
            forall j, k :: 0 <= j < |topics| && 0 <= k < |topics| ==> topics[j][0] <= topics[k][|topics[k]| - 1]
  {
    var starts, ends := Firsts(topics), Lasts(topics);
    var i :| 0 <= i < |starts| && starts[i] == FirstTime(topics, false);
    var l :| 0 <= l < |ends| && ends[l] == LastTime(topics, false);
    forall j, k | 0 <= j < |topics| && 0 <= k < |topics|
      ensures topics[j][0] <= FirstTime(topics, false) && LastTime(topics, false) <= topics[k][|topics[k]| - 1]
    {
      assert starts[j] in starts && ends[k] in ends;
    }
    assert topics[i][0] == starts[i] && topics[l][|topics[l]| - 1] == ends[l];
  }

  lemma StepsIncreasing(first: int, last: int, step: nat)
    requires step > 0
    ensures var r := Steps(first, last, step);
            Increasing(r) && forall i :: 0 < i < |r| ==> r[i] - r[i - 1] == step
  {
    var r := Steps(first, last, step);
    forall i, j | 0 <= i < j < |r| ensures r[i] < r[j] {
      assert j * step == i * step + (j - i) * step;
      PositiveProduct(j - i, step);
    }
    forall i | 0 < i < |r| ensures r[i] - r[i - 1] == step {
      assert i * step == (i - 1) * step + step;
    }
  }

  lemma {:induction false} StepsReach(first: int, last: int, step: nat)
    requires step > 0 && first <= last
    ensures var r := Steps(first, last, step); r != [] && r[0] == first && r[|r| - 1] + step > last
    decreases last - first
  {
    if first + step <= last { StepsReach(first + step, last, step); }
  }

  lemma PositiveProduct(a: int, b: int)
    requires a > 0 && b > 0
    ensures a * b > 0
  {
  }

  // ---- Resampled sources ----

  /** One value per reference time; None where the source has none. */
  type Column = seq<Option<Vector>>

  function Of(messages: Messages, topic: Topic): seq<Stamped<Decoded>> {
    if topic in messages then messages[topic] else []
  }

  function Extracted(messages: seq<Stamped<Decoded>>, source: Source): (r: seq<Stamped<Vector>>)
    ensures |r| == |messages|
    ensures forall i :: 0 <= i < |r| ==> r[i] == Stamped(messages[i].at, source.extract(messages[i].value))
  {
    seq(|messages|, i requires 0 <= i < |messages| => Stamped(messages[i].at, source.extract(messages[i].value)))
  }

  /** The topic's messages are in time order and the extraction yields vectors of the source's own length. */
  ghost predicate SourceOk(messages: Messages, source: Source) {
    var data := Extracted(Of(messages, source.topic), source);
    Ascending(Times(data)) && SameLength(data, source.dim)
  }

  ghost predicate SourcesOk(messages: Messages, sources: seq<Source>) {
    forall k :: 0 <= k < |sources| ==> SourceOk(messages, sources[k])
  }

  /** `_interpolate_source` at one reference time. */
  ghost function ValueAt(messages: Messages, source: Source, t: int, tolerance: int): Option<Vector>
    requires SourceOk(messages, source)
  {
    var data := Extracted(Of(messages, source.topic), source);
    if data == [] then None
    else match source.interpolation
      case Linear => Some(LinearAt(data, t, source.dim))
      case Nearest => NearestValue(data, t, tolerance)
  }

  ghost predicate IsColumn(column: Column, messages: Messages, source: Source, refs: seq<int>, tolerance: int)
    requires SourceOk(messages, source)
  {
    && |column| == |refs|
    && forall i :: 0 <= i < |refs| ==> column[i] == ValueAt(messages, source, refs[i], tolerance)
  }

  method InterpolateSource(refs: seq<int>, messages: Messages, source: Source, tolerance: int) returns (column: Column)
    requires SourceOk(messages, source)
    ensures IsColumn(column, messages, source, refs, tolerance)
  {
    var data := Extracted(Of(messages, source.topic), source);
    if data == [] {
      column := seq(|refs|, _ => None);
    } else if source.interpolation == Linear {
      column := seq(|refs|, i requires 0 <= i < |refs| => Some(LinearAt(data, refs[i], source.dim)));
    } else {
      column := InterpolateNearest(refs, data, tolerance);
    }
  }

  method InterpolateSources(refs: seq<int>, messages: Messages, sources: seq<Source>, tolerance: int)
    returns (columns: seq<Column>)
    requires SourcesOk(messages, sources)
    ensures |columns| == |sources|
    ensures forall k :: 0 <= k < |sources| ==> IsColumn(columns[k], messages, sources[k], refs, tolerance)
  {
    columns := [];
    for k := 0 to |sources|
      invariant |columns| == k
      invariant forall j :: 0 <= j < k ==> IsColumn(columns[j], messages, sources[j], refs, tolerance)
    {
      var column := InterpolateSource(refs, messages, sources[k], tolerance);
      columns := columns + [column];
    }
  }

  // ---- Frames ----

  predicate Long(columns: seq<Column>, n: nat) { forall k :: 0 <= k < |columns| ==> |columns[k]| == n }

  /** The sources' values at one position, one after the other; None when any is missing. */
  function Concatenated(columns: seq<Column>, i: nat): Option<Vector>
    requires forall k :: 0 <= k < |columns| ==> i < |columns[k]|
  {
    if columns == [] then Some([])
    else
      var init := columns[..|columns| - 1];
      var rest, last := Concatenated(init, i), columns[|columns| - 1][i];
      if rest.None? || last.None? then None else Some(rest.value + last.value)
  }

  datatype ObservationColumns = ObservationColumns(name: FieldName, columns: seq<Column>)

  datatype CameraColumn = CameraColumn(camera: Camera, aligned: seq<Option<Decoded>>)

  /** Everything `iter_episode_frames` prepares before its loop, for `n` reference times. */
  datatype Prepared = Prepared(observations: seq<ObservationColumns>, action: seq<Column>, cameras: seq<CameraColumn>)

  ghost predicate PreparedFor(p: Prepared, n: nat) {
    && (forall f :: 0 <= f < |p.observations| ==> Long(p.observations[f].columns, n))
    && Long(p.action, n)
    && (forall c :: 0 <= c < |p.cameras| ==> |p.cameras[c].aligned| == n)
  }

  ghost function ObservationsAt(fields: seq<ObservationColumns>, n: nat, i: nat): (r: Option<seq<(FieldName, Vector)>>)
    requires i < n && forall f :: 0 <= f < |fields| ==> Long(fields[f].columns, n)
    ensures r.Some? ==> |r.value| == |fields| && forall f :: 0 <= f < |fields| ==> r.value[f].0 == fields[f].name
  {
    if fields == [] then Some([])
    else
      var rest := ObservationsAt(fields[..|fields| - 1], n, i);
      var last := fields[|fields| - 1];
      assert Long(last.columns, n);
      var value := Concatenated(last.columns, i);
      if rest.None? || value.None? then None else Some(rest.value + [(last.name, value.value)])
  }

  ghost function ImagesAt(cameras: seq<CameraColumn>, n: nat, i: nat): (r: Option<seq<(Camera, Decoded)>>)
    requires i < n && forall c :: 0 <= c < |cameras| ==> |cameras[c].aligned| == n
    ensures r.Some? ==> |r.value| == |cameras| && forall c :: 0 <= c < |cameras| ==> r.value[c].0 == cameras[c].camera
  {
    if cameras == [] then Some([])
    else
      var rest := ImagesAt(cameras[..|cameras| - 1], n, i);
      var last := cameras[|cameras| - 1];
      if rest.None? || last.aligned[i].None? then None else Some(rest.value + [(last.camera, last.aligned[i].value)])
  }

  ghost function ActionAt(action: seq<Column>, n: nat, i: nat): Option<Vector>
    requires i < n && Long(action, n)
  {
    if action == [] then None else Concatenated(action, i)
  }

  /** The frame at one reference time, or None when the loop drops it. */
  ghost function FrameAt(p: Prepared, n: nat, i: nat): Option<SyncedFrame>
    requires i < n && PreparedFor(p, n)
  {
    var observations, action, images :=
      ObservationsAt(p.observations, n, i), ActionAt(p.action, n, i), ImagesAt(p.cameras, n, i);
    if observations.None? || action.None? || images.None? then None
    else Some(SyncedFrame(images.value, observations.value, action.value))
  }

  /** The frames the first `k` iterations yield. */
  ghost function Yielded(p: Prepared, n: nat, k: nat): seq<SyncedFrame>
    requires k <= n && PreparedFor(p, n)
  {
    if k == 0 then []
    else Yielded(p, n, k - 1) + (if FrameAt(p, n, k - 1).Some? then [FrameAt(p, n, k - 1).value] else [])
  }

  method ConcatColumns(columns: seq<Column>, n: nat, i: nat) returns (value: Option<Vector>)
    requires i < n && Long(columns, n)
    ensures value == Concatenated(columns, i)
  {
    var arrays := [];
    for k := 0 to |columns|
      invariant Concatenated(columns[..k], i) == Some(arrays)
    {
      assert columns[..k + 1][..k] == columns[..k];
      if columns[k][i].None? {
        MissingStays(columns, n, i, k + 1);
        return None;
      }
      arrays := arrays + columns[k][i].value;
    }
    assert columns[..|columns|] == columns;
    return Some(arrays);
  }

  lemma {:induction false} MissingStays(columns: seq<Column>, n: nat, i: nat, k: nat)
    requires i < n && Long(columns, n) && k <= |columns| && Concatenated(columns[..k], i).None?
    ensures Concatenated(columns, i).None?
    decreases |columns| - k
  {
    if k == |columns| {
      assert columns[..k] == columns;
    } else {
      assert columns[..k + 1][..k] == columns[..k];
      MissingStays(columns, n, i, k + 1);
    }
  }

  /** `_concat_sources_at`. */
  method ConcatSourcesAt(fields: seq<ObservationColumns>, n: nat, i: nat) returns (r: Option<seq<(FieldName, Vector)>>)
    requires i < n && forall f :: 0 <= f < |fields| ==> Long(fields[f].columns, n)
    ensures r == ObservationsAt(fields, n, i)
  {
    var observations := [];
    for f := 0 to |fields|
      invariant ObservationsAt(fields[..f], n, i) == Some(observations)
    {
      assert fields[..f + 1][..f] == fields[..f];
      var value := ConcatColumns(fields[f].columns, n, i);
      if value.None? {
        MissingFieldStays(fields, n, i, f + 1);
        return None;
      }
      observations := observations + [(fields[f].name, value.value)];
    }
    assert fields[..|fields|] == fields;
    return Some(observations);
  }

  lemma {:induction false} MissingFieldStays(fields: seq<ObservationColumns>, n: nat, i: nat, k: nat)
    requires i < n && forall f :: 0 <= f < |fields| ==> Long(fields[f].columns, n)
    requires k <= |fields| && ObservationsAt(fields[..k], n, i).None?
    ensures ObservationsAt(fields, n, i).None?
    decreases |fields| - k
  {
    if k == |fields| {
      assert fields[..k] == fields;
    } else {
      assert fields[..k + 1][..k] == fields[..k];
      MissingFieldStays(fields, n, i, k + 1);
    }
  }

  /** `_decode_images_at`. */
  method DecodeImagesAt(cameras: seq<CameraColumn>, n: nat, i: nat) returns (r: Option<seq<(Camera, Decoded)>>)
    requires i < n && forall c :: 0 <= c < |cameras| ==> |cameras[c].aligned| == n
    ensures r == ImagesAt(cameras, n, i)
  {
    var images := [];
    for c := 0 to |cameras|
      invariant ImagesAt(cameras[..c], n, i) == Some(images)
    {
      assert cameras[..c + 1][..c] == cameras[..c];
      var message := cameras[c].aligned[i];
      if message.None? {
        MissingImageStays(cameras, n, i, c + 1);
        return None;
      }
      images := images + [(cameras[c].camera, message.value)];
    }
    assert cameras[..|cameras|] == cameras;
    return Some(images);
  }

  lemma {:induction false} MissingImageStays(cameras: seq<CameraColumn>, n: nat, i: nat, k: nat)
    requires i < n && forall c :: 0 <= c < |cameras| ==> |cameras[c].aligned| == n
    requires k <= |cameras| && ImagesAt(cameras[..k], n, i).None?
    ensures ImagesAt(cameras, n, i).None?
    decreases |cameras| - k
  {
    if k == |cameras| {
      assert cameras[..k] == cameras;
    } else {
      assert cameras[..k + 1][..k] == cameras[..k];
      MissingImageStays(cameras, n, i, k + 1);
    }
  }

  /** The frame loop of `iter_episode_frames`. */
  method EmitFrames(p: Prepared, n: nat) returns (frames: seq<SyncedFrame>)
    requires PreparedFor(p, n)
    ensures frames == Yielded(p, n, n)
  {
    frames := [];
    for i := 0 to n
      invariant frames == Yielded(p, n, i)
    {
      var observations := ConcatSourcesAt(p.observations, n, i);
      if observations.None? {
        continue;
      }
      var action := None;
      if p.action != [] {
        action := ConcatColumns(p.action, n, i);
      }
      if action.None? {
        continue;
      }
      var images := DecodeImagesAt(p.cameras, n, i);
      if images.None? {
        continue;
      }
      frames := frames + [SyncedFrame(images.value, observations.value, action.value)];
    }
  }

  /** What the preparation computes from the messages of one recording. */
  ghost predicate PreparedFrom(p: Prepared, messages: Messages, config: Config, refs: seq<int>)
    requires ConfigOk(messages, config)
  {
    && |p.observations| == |config.observation| && |p.action| == |config.action| && |p.cameras| == |config.images|
    && (forall f :: 0 <= f < |p.observations| ==>
          && p.observations[f].name == config.observation[f].name
          && |p.observations[f].columns| == |config.observation[f].sources|
          && forall k :: 0 <= k < |p.observations[f].columns| ==>
               IsColumn(p.observations[f].columns[k], messages, config.observation[f].sources[k], refs,
                        config.syncTolerance))
    && (forall k :: 0 <= k < |p.action| ==>
        IsColumn(p.action[k], messages, config.action[k], refs, config.syncTolerance))
    && (forall c :: 0 <= c < |p.cameras| ==>
        IsAligned(p.cameras[c], config.images[c], messages, refs, config.imageTolerance))
  }

  ghost predicate IsAligned(column: CameraColumn, image: CameraTopic, messages: Messages, refs: seq<int>,
                            tolerance: int) {
    && column.camera == image.camera && |column.aligned| == |refs|
    && forall i :: 0 <= i < |refs| ==>
       column.aligned[i] == FillAt(NearestValues(refs, Of(messages, image.topic), tolerance), i)
  }

  /** The source's own demand: every observation field names at least one source. */
  ghost predicate ConfigOk(messages: Messages, config: Config) {
    && (forall f :: 0 <= f < |config.observation| ==>
          config.observation[f].sources != [] && SourcesOk(messages, config.observation[f].sources))
    && SourcesOk(messages, config.action)
  }

  function TopicsOf(sources: seq<Source>): seq<Topic> {
    seq(|sources|, k requires 0 <= k < |sources| => sources[k].topic)
  }

  function FieldTopics(fields: seq<Field>): seq<Topic> {
    if fields == [] then [] else TopicsOf(fields[0].sources) + FieldTopics(fields[1..])
  }

  /** `all_topics`, whose repetitions do not matter here. */
  function AllTopics(config: Config): seq<Topic> {
    seq(|config.images|, c requires 0 <= c < |config.images| => config.images[c].topic) +
    FieldTopics(config.observation) + TopicsOf(config.action)
  }

  /** The timestamps of the topics that have messages. */
  function TopicTimes(messages: Messages, topics: seq<Topic>): (r: seq<seq<int>>)
    ensures NonEmpty(r)
  {
    if topics == [] then []
    else
      var rest := TopicTimes(messages, topics[1..]);
      if Of(messages, topics[0]) == [] then rest else [Times(Of(messages, topics[0]))] + rest
  }

  ghost function ColumnOf(messages: Messages, source: Source, refs: seq<int>, tolerance: int): (r: Column)
    requires SourceOk(messages, source)
    ensures IsColumn(r, messages, source, refs, tolerance)
  {
    seq(|refs|, i requires 0 <= i < |refs| => ValueAt(messages, source, refs[i], tolerance))
  }

  ghost function ColumnsOf(messages: Messages, sources: seq<Source>, refs: seq<int>, tolerance: int): (r: seq<Column>)
    requires SourcesOk(messages, sources)
    ensures |r| == |sources| && forall k :: 0 <= k < |r| ==> r[k] == ColumnOf(messages, sources[k], refs, tolerance)
  {
    seq(|sources|, k requires 0 <= k < |sources| => ColumnOf(messages, sources[k], refs, tolerance))
  }

  ghost function AlignedOf(messages: Messages, image: CameraTopic, refs: seq<int>, tolerance: int): (r: CameraColumn)
    ensures IsAligned(r, image, messages, refs, tolerance)
  {
    var picks := NearestValues(refs, Of(messages, image.topic), tolerance);
    CameraColumn(image.camera, seq(|refs|, i requires 0 <= i < |refs| => FillAt(picks, i)))
  }

  ghost function FieldOf(messages: Messages, field: Field, refs: seq<int>, tolerance: int): ObservationColumns
    requires SourcesOk(messages, field.sources)
  {
    ObservationColumns(field.name, ColumnsOf(messages, field.sources, refs, tolerance))
  }

  /** The preparation a recording's messages and the configuration determine. */
  ghost function PreparationOf(messages: Messages, config: Config, refs: seq<int>): (p: Prepared)
    requires ConfigOk(messages, config)
    ensures PreparedFrom(p, messages, config, refs) && PreparedFor(p, |refs|)
  {
    var p := Prepared(
      seq(|config.observation|, f requires 0 <= f < |config.observation| =>
          FieldOf(messages, config.observation[f], refs, config.syncTolerance)),
      ColumnsOf(messages, config.action, refs, config.syncTolerance),
      seq(|config.images|, c requires 0 <= c < |config.images| =>
          AlignedOf(messages, config.images[c], refs, config.imageTolerance)));
    PreparedIsLong(p, messages, config, refs);
    p
  }

  lemma ColumnsAreOnce(a: seq<Column>, b: seq<Column>, messages: Messages, sources: seq<Source>, refs: seq<int>,
                       tolerance: int)
    requires SourcesOk(messages, sources) && |a| == |b| == |sources|
    requires forall k :: 0 <= k < |a| ==> IsColumn(a[k], messages, sources[k], refs, tolerance)
    requires forall k :: 0 <= k < |b| ==> IsColumn(b[k], messages, sources[k], refs, tolerance)
    ensures a == b
  {
    forall k | 0 <= k < |a| ensures a[k] == b[k] {
      assert IsColumn(a[k], messages, sources[k], refs, tolerance)
             && IsColumn(b[k], messages, sources[k], refs, tolerance);
    }
  }

  /** There is only one preparation. */
  lemma PreparedOnce(p: Prepared, q: Prepared, messages: Messages, config: Config, refs: seq<int>)
    requires ConfigOk(messages, config) && PreparedFrom(p, messages, config, refs)
             && PreparedFrom(q, messages, config, refs)
    ensures p == q
  {
    ColumnsAreOnce(p.action, q.action, messages, config.action, refs, config.syncTolerance);
    forall f | 0 <= f < |p.observations| ensures p.observations[f] == q.observations[f] {
      ColumnsAreOnce(p.observations[f].columns, q.observations[f].columns, messages, config.observation[f].sources,
                     refs, config.syncTolerance);
    }
    forall c | 0 <= c < |p.cameras| ensures p.cameras[c] == q.cameras[c] {
      assert IsAligned(p.cameras[c], config.images[c], messages, refs, config.imageTolerance);
      assert IsAligned(q.cameras[c], config.images[c], messages, refs, config.imageTolerance);
    }
  }

  /** The frames of one recording: one per reference time at which nothing is missing, in order. */
  ghost function EpisodeOf(messages: Messages, config: Config, refs: seq<int>): seq<SyncedFrame>
    requires ConfigOk(messages, config)
  {
    Yielded(PreparationOf(messages, config, refs), |refs|, |refs|)
  }

  /** `iter_episode_frames`. */
  method IterEpisodeFrames(messages: Messages, config: Config, refs: seq<int>) returns (frames: seq<SyncedFrame>)
    requires ConfigOk(messages, config)
    ensures frames == EpisodeOf(messages, config, refs)
  {
    var cameras := AlignCameras(messages, config, refs);
    var observations := ResampleObservations(messages, config, refs);
    var action := InterpolateSources(refs, messages, config.action, config.syncTolerance);
    var prepared := Prepared(observations, action, cameras);
    PreparedOnce(prepared, PreparationOf(messages, config, refs), messages, config, refs);
    frames := EmitFrames(prepared, |refs|);
  }

  lemma PreparedIsLong(p: Prepared, messages: Messages, config: Config, refs: seq<int>)
    requires ConfigOk(messages, config) && PreparedFrom(p, messages, config, refs)
    ensures PreparedFor(p, |refs|)
  {
  }

  method AlignCameras(messages: Messages, config: Config, refs: seq<int>) returns (cameras: seq<CameraColumn>)
    ensures |cameras| == |config.images|
    ensures forall c :: 0 <= c < |cameras| ==>
            IsAligned(cameras[c], config.images[c], messages, refs, config.imageTolerance)
  {
    cameras := [];
    for c := 0 to |config.images|
      invariant |cameras| == c
      invariant forall d :: 0 <= d < c ==>
                IsAligned(cameras[d], config.images[d], messages, refs, config.imageTolerance)
    {
      var aligned := AlignNearestForwardFill(refs, Of(messages, config.images[c].topic), config.imageTolerance);
      cameras := cameras + [CameraColumn(config.images[c].camera, aligned)];
    }
  }

  method ResampleObservations(messages: Messages, config: Config, refs: seq<int>)
    returns (fields: seq<ObservationColumns>)
    requires ConfigOk(messages, config)
    ensures |fields| == |config.observation|
    ensures forall f :: 0 <= f < |fields| ==>
              && fields[f].name == config.observation[f].name
              && |fields[f].columns| == |config.observation[f].sources|
              && forall k :: 0 <= k < |fields[f].columns| ==>
                   IsColumn(fields[f].columns[k], messages, config.observation[f].sources[k], refs,
                            config.syncTolerance)
  {
    fields := [];
    for f := 0 to |config.observation|
      invariant |fields| == f
      invariant forall g :: 0 <= g < f ==>
                  && fields[g].name == config.observation[g].name
                  && |fields[g].columns| == |config.observation[g].sources|
                  && forall k :: 0 <= k < |fields[g].columns| ==>
                       IsColumn(fields[g].columns[k], messages, config.observation[g].sources[k], refs,
                                config.syncTolerance)
    {
      var columns := InterpolateSources(refs, messages, config.observation[f].sources, config.syncTolerance);
      fields := fields + [ObservationColumns(config.observation[f].name, columns)];
    }
  }

  // ---- What a frame holds ----

  /** The frame has one image per configured camera and one vector per configured field, in the configuration's
      order. */
  ghost predicate Complete(frame: SyncedFrame, config: Config) {
    && |frame.images| == |config.images| && |frame.observations| == |config.observation|
    && (forall c :: 0 <= c < |config.images| ==> frame.images[c].0 == config.images[c].camera)
    && (forall f :: 0 <= f < |config.observation| ==> frame.observations[f].0 == config.observation[f].name)
  }

  /** The prepared columns carry the configuration's names. */
  ghost predicate Named(p: Prepared, config: Config) {
    && |p.cameras| == |config.images| && |p.observations| == |config.observation|
    && (forall c :: 0 <= c < |p.cameras| ==> p.cameras[c].camera == config.images[c].camera)
    && (forall f :: 0 <= f < |p.observations| ==> p.observations[f].name == config.observation[f].name)
  }

  lemma PreparedIsNamed(p: Prepared, messages: Messages, config: Config, refs: seq<int>)
    requires ConfigOk(messages, config) && PreparedFrom(p, messages, config, refs)
    ensures Named(p, config)
  {
    forall c | 0 <= c < |p.cameras| ensures p.cameras[c].camera == config.images[c].camera {
      assert IsAligned(p.cameras[c], config.images[c], messages, refs, config.imageTolerance);
    }
  }

  lemma FrameIsComplete(p: Prepared, config: Config, n: nat, i: nat)
    requires PreparedFor(p, n) && Named(p, config) && i < n && FrameAt(p, n, i).Some?
    ensures Complete(FrameAt(p, n, i).value, config)
  {
  }

  lemma {:induction false} YieldedAreComplete(p: Prepared, config: Config, n: nat, k: nat, j: nat)
    requires PreparedFor(p, n) && Named(p, config) && k <= n && j < |Yielded(p, n, k)|
    ensures Complete(Yielded(p, n, k)[j], config)
  {
    if j < |Yielded(p, n, k - 1)| {
      YieldedAreComplete(p, config, n, k - 1, j);
    } else {
      FrameIsComplete(p, config, n, k - 1);
    }
  }

  /** No emitted frame lacks an image or a field. */
  lemma EmittedFramesAreComplete(messages: Messages, config: Config, refs: seq<int>, j: nat)
    requires ConfigOk(messages, config) && j < |EpisodeOf(messages, config, refs)|
    ensures Complete(EpisodeOf(messages, config, refs)[j], config)
  {
    PreparedIsNamed(PreparationOf(messages, config, refs), messages, config, refs);
    YieldedAreComplete(PreparationOf(messages, config, refs), config, |refs|, |refs|, j);
  }

  // ---- Which frames are emitted ----

  /** Every source is linear and has messages, and there is an action. */
  ghost predicate AllLinear(messages: Messages, config: Config) {
    && config.action != []
    && LinearSources(messages, config.action)
    && forall f :: 0 <= f < |config.observation| ==> LinearSources(messages, config.observation[f].sources)
  }

  ghost predicate LinearSources(messages: Messages, sources: seq<Source>) {
    forall k :: 0 <= k < |sources| ==> sources[k].interpolation == Linear && Of(messages, sources[k].topic) != []
  }

  predicate Full(columns: seq<Column>, i: nat) {
    forall k :: 0 <= k < |columns| ==> i < |columns[k]| && columns[k][i].Some?
  }

  lemma {:induction false} FullConcatenates(columns: seq<Column>, i: nat)
    requires Full(columns, i)
    ensures Concatenated(columns, i).Some?
  {
    if columns != [] { FullConcatenates(columns[..|columns| - 1], i); }
  }

  lemma {:induction false} FullObservations(fields: seq<ObservationColumns>, n: nat, i: nat)
    requires i < n && forall f :: 0 <= f < |fields| ==> Long(fields[f].columns, n) && Full(fields[f].columns, i)
    ensures ObservationsAt(fields, n, i).Some?
  {
    if fields != [] {
      FullConcatenates(fields[|fields| - 1].columns, i);
      FullObservations(fields[..|fields| - 1], n, i);
    }
  }

  /** Every camera has matched an image by position `i`. */
  ghost predicate AllMatched(cameras: seq<CameraColumn>, i: nat) {
    forall c :: 0 <= c < |cameras| ==> i < |cameras[c].aligned| && cameras[c].aligned[i].Some?
  }

  lemma {:induction false} ImagesWhenMatched(cameras: seq<CameraColumn>, n: nat, i: nat)
    requires i < n && forall c :: 0 <= c < |cameras| ==> |cameras[c].aligned| == n
    ensures ImagesAt(cameras, n, i).Some? <==> AllMatched(cameras, i)
  {
    if cameras != [] {
      ImagesWhenMatched(cameras[..|cameras| - 1], n, i);
    }
  }

  lemma LinearColumnsFull(columns: seq<Column>, messages: Messages, sources: seq<Source>, refs: seq<int>,
                          tolerance: int, i: nat)
    requires SourcesOk(messages, sources) && LinearSources(messages, sources) && |columns| == |sources| && i < |refs|
    requires forall k :: 0 <= k < |columns| ==> IsColumn(columns[k], messages, sources[k], refs, tolerance)
    ensures Full(columns, i)
  {
    forall k | 0 <= k < |columns| ensures columns[k][i].Some? {
      assert columns[k][i] == ValueAt(messages, sources[k], refs[i], tolerance);
    }
  }

  /** With linear sources a frame is dropped exactly while some camera has not matched yet. */
  lemma FrameWhenMatched(p: Prepared, messages: Messages, config: Config, refs: seq<int>, i: nat)
    requires ConfigOk(messages, config) && PreparedFrom(p, messages, config, refs) && PreparedFor(p, |refs|)
    requires AllLinear(messages, config) && i < |refs|
    ensures FrameAt(p, |refs|, i).Some? <==> AllMatched(p.cameras, i)
  {
    LinearColumnsFull(p.action, messages, config.action, refs, config.syncTolerance, i);
    FullConcatenates(p.action, i);
    forall f | 0 <= f < |p.observations| ensures Full(p.observations[f].columns, i) {
      LinearColumnsFull(p.observations[f].columns, messages, config.observation[f].sources, refs,
                        config.syncTolerance, i);
    }
    FullObservations(p.observations, |refs|, i);
    ImagesWhenMatched(p.cameras, |refs|, i);
  }

  lemma MatchedStays(p: Prepared, messages: Messages, config: Config, refs: seq<int>, i: nat, j: nat)
    requires ConfigOk(messages, config) && PreparedFrom(p, messages, config, refs) && i <= j < |refs|
    requires AllMatched(p.cameras, i)
    ensures AllMatched(p.cameras, j)
  {
    forall c | 0 <= c < |p.cameras| ensures j < |p.cameras[c].aligned| && p.cameras[c].aligned[j].Some? {
      assert IsAligned(p.cameras[c], config.images[c], messages, refs, config.imageTolerance);
      FillStays(NearestValues(refs, Of(messages, config.images[c].topic), config.imageTolerance), i, j);
    }
  }

  /** `frames` are those of the positions from `k` on, and nothing before `k` yields a frame. */
  ghost predicate SuffixFrom(p: Prepared, n: nat, frames: seq<SyncedFrame>, upTo: nat, k: nat)
    requires PreparedFor(p, n) && k <= upTo <= n
  {
    && |frames| == upTo - k
    && (forall i :: 0 <= i < k ==> FrameAt(p, n, i).None?)
    && (forall i :: k <= i < upTo ==> FrameAt(p, n, i) == Some(frames[i - k]))
  }

  /** Dropping is monotone: once a frame is emitted, every later one is. */
  ghost predicate NeverDropsAgain(p: Prepared, n: nat)
    requires PreparedFor(p, n)
  {
    forall i, j :: 0 <= i <= j < n && FrameAt(p, n, i).Some? ==> FrameAt(p, n, j).Some?
  }

  lemma {:induction false} YieldedSuffix(p: Prepared, n: nat, upTo: nat) returns (k: nat)
    requires PreparedFor(p, n) && NeverDropsAgain(p, n) && upTo <= n
    ensures k <= upTo && SuffixFrom(p, n, Yielded(p, n, upTo), upTo, k)
  {
    if upTo == 0 {
      k := 0;
    } else {
      k := YieldedSuffix(p, n, upTo - 1);
      k := SuffixOneMore(p, n, Yielded(p, n, upTo - 1), upTo - 1, k);
    }
  }

  lemma SuffixOneMore(p: Prepared, n: nat, frames: seq<SyncedFrame>, i: nat, k: nat) returns (l: nat)
    requires PreparedFor(p, n) && NeverDropsAgain(p, n) && k <= i < n && SuffixFrom(p, n, frames, i, k)
    ensures l <= i + 1
    ensures SuffixFrom(p, n, frames + (if FrameAt(p, n, i).Some? then [FrameAt(p, n, i).value] else []), i + 1, l)
  {
    if k < i { assert FrameAt(p, n, k).Some?; }
    l := if FrameAt(p, n, i).None? then i + 1 else k;
  }

  /** With linear sources, messages on every topic and an action, the emitted frames are a contiguous suffix of the
      timebase: everything from the first time at which every camera has matched. */
  lemma EmittedFramesAreASuffix(messages: Messages, config: Config, refs: seq<int>) returns (k: nat)
    requires ConfigOk(messages, config) && AllLinear(messages, config)
    ensures k <= |refs| && |EpisodeOf(messages, config, refs)| == |refs| - k
    ensures var p := PreparationOf(messages, config, refs);
            && SuffixFrom(p, |refs|, EpisodeOf(messages, config, refs), |refs|, k)
            && forall i :: 0 <= i < |refs| ==> (i < k <==> !AllMatched(p.cameras, i))
  {
    k := FramesAreASuffix(PreparationOf(messages, config, refs), messages, config, refs);
  }

  lemma FramesAreASuffix(p: Prepared, messages: Messages, config: Config, refs: seq<int>) returns (k: nat)
    requires ConfigOk(messages, config) && PreparedFrom(p, messages, config, refs) && PreparedFor(p, |refs|)
    requires AllLinear(messages, config)
    ensures k <= |refs| && SuffixFrom(p, |refs|, Yielded(p, |refs|, |refs|), |refs|, k)
    ensures forall i :: 0 <= i < |refs| ==> (i < k <==> !AllMatched(p.cameras, i))
  {
    forall i, j | 0 <= i <= j < |refs| && FrameAt(p, |refs|, i).Some? ensures FrameAt(p, |refs|, j).Some? {
      FrameWhenMatched(p, messages, config, refs, i);
      MatchedStays(p, messages, config, refs, i, j);
      FrameWhenMatched(p, messages, config, refs, j);
    }
    k := YieldedSuffix(p, |refs|, |refs|);
    forall i | 0 <= i < |refs| ensures i < k <==> !AllMatched(p.cameras, i) {
      FrameWhenMatched(p, messages, config, refs, i);
    }
  }

  /** In intersection mode every linear value is a sample of that time or lies between its two bracketing samples. */
  lemma IntersectionNeverHolds(messages: Messages, source: Source, topics: seq<seq<int>>, fps: nat, tolerance: int,
                               i: nat, k: nat)
    requires SourceOk(messages, source) && source.interpolation == Linear && NonEmpty(topics) && fps > 0
    requires k < |topics| && topics[k] == Times(Of(messages, source.topic))
    requires i < |RefTimestamps(topics, fps, false)|
    ensures var t := RefTimestamps(topics, fps, false)[i];
            var value := ValueAt(messages, source, t, tolerance);
            value.Some? && Interpolated(Extracted(Of(messages, source.topic), source), t, value.value)
  {
    RefsInside(topics, fps);
    var t := RefTimestamps(topics, fps, false)[i];
    var data := Extracted(Of(messages, source.topic), source);
    assert topics[k][0] == data[0].at && topics[k][|topics[k]| - 1] == data[|data| - 1].at;
    LinearIsInterpolated(data, t, source.dim);
  }
}
