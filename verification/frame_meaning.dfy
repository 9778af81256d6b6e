/** What an emitted frame shows, in terms of the messages alone. */
module FrameMeaning {
  import opened Wrappers
  import opened Numbers
  import opened Sequences
  import opened Resampling
  import opened EpisodeFrames

  // ---- Sources ----

  /** A vector a source shows at a reference time: on the line through its samples or held outside them, or that of the
      nearest message within the sync tolerance. */
  ghost predicate Shows(messages: Messages, source: Source, t: int, tolerance: int, v: Vector) {
    var data := Extracted(Of(messages, source.topic), source);
    match source.interpolation
    case Linear => data != [] && LinearValue(data, t, v)
    case Nearest => OfNearest(data, t, tolerance, v)
  }

  /** The value of the nearest message, which is within the tolerance. */
  ghost predicate OfNearest<T>(data: seq<Stamped<T>>, t: int, tolerance: int, v: T) {
    exists k: nat :: k < |data| && data[k].value == v && IsNearest(Times(data), t, tolerance, Some(k))
  }

  ghost predicate OutOfReach<T>(data: seq<Stamped<T>>, t: int, tolerance: int) {
    forall k :: 0 <= k < |data| ==> Abs(data[k].at - t) > tolerance
  }

  /** The source has nothing to show at a reference time. */
  ghost predicate ShowsNothing(messages: Messages, source: Source, t: int, tolerance: int) {
    var data := Extracted(Of(messages, source.topic), source);
    data == [] || (source.interpolation.Nearest? && OutOfReach(data, t, tolerance))
  }

  lemma ValueShows(messages: Messages, source: Source, t: int, tolerance: int)
    requires SourceOk(messages, source)
    ensures match ValueAt(messages, source, t, tolerance)
            case Some(v) => Shows(messages, source, t, tolerance, v)
            case None => ShowsNothing(messages, source, t, tolerance)
  {
    var data := Extracted(Of(messages, source.topic), source);
    if data != [] {
      match source.interpolation
      case Linear => LinearMeans(data, t, source.dim);
      case Nearest => PickOf(data, t, tolerance);
    }
  }

  lemma PickOf<T>(data: seq<Stamped<T>>, t: int, tolerance: int)
    requires Ascending(Times(data))
    ensures PickMeans(data, t, tolerance, NearestValue(data, t, tolerance))
  {
    NearestIsGlobal(Times(data), t, tolerance);
    PickInRange(Times(data), t, tolerance);
    if NearestIndex(Times(data), t, tolerance).None? {
      forall k | 0 <= k < |data| ensures Abs(data[k].at - t) > tolerance {
        assert Abs(Times(data)[k] - t) > tolerance;
      }
    }
  }

  lemma WithinReach<T>(data: seq<Stamped<T>>, t: int, tolerance: int, v: T)
    requires OfNearest(data, t, tolerance, v)
    ensures !OutOfReach(data, t, tolerance)
  {
    var k: nat :| k < |data| && data[k].value == v && IsNearest(Times(data), t, tolerance, Some(k));
    assert Abs(data[k].at - t) <= tolerance;
  }

  /** The sources' vectors, one after the other. */
  ghost predicate ShowsAll(messages: Messages, sources: seq<Source>, t: int, tolerance: int, v: Vector,
                           parts: seq<Vector>) {
    && |parts| == |sources| && v == Flat(parts)
    && forall k :: 0 <= k < |sources| ==> Shows(messages, sources[k], t, tolerance, parts[k])
  }

  ghost predicate AllShow(messages: Messages, sources: seq<Source>, t: int, tolerance: int) {
    forall k :: 0 <= k < |sources| ==> !ShowsNothing(messages, sources[k], t, tolerance)
  }

  /** The present entries of a row of columns. */
  ghost function RowOf(columns: seq<Column>, i: nat): (r: seq<Vector>)
    requires Full(columns, i)
    ensures |r| == |columns| && forall k :: 0 <= k < |r| ==> r[k] == columns[k][i].value
  {
    seq(|columns|, k requires 0 <= k < |columns| => columns[k][i].value)
  }

  lemma {:induction false} ConcatenatedIsFlat(columns: seq<Column>, i: nat)
    requires forall k :: 0 <= k < |columns| ==> i < |columns[k]|
    ensures Concatenated(columns, i).Some? <==> Full(columns, i)
    ensures Full(columns, i) ==> Concatenated(columns, i) == Some(Flat(RowOf(columns, i)))
  {
    if columns != [] {
      var n := |columns| - 1;
      ConcatenatedIsFlat(columns[..n], i);
      if Full(columns, i) {
        assert RowOf(columns, i)[..n] == RowOf(columns[..n], i);
      }
    }
  }

  lemma ColumnShows(column: Column, messages: Messages, source: Source, refs: seq<int>, tolerance: int, i: nat)
    requires SourceOk(messages, source) && IsColumn(column, messages, source, refs, tolerance) && i < |refs|
    ensures column[i].Some? ==> Shows(messages, source, refs[i], tolerance, column[i].value)
    ensures column[i].None? ==> ShowsNothing(messages, source, refs[i], tolerance)
  {
    ValueShows(messages, source, refs[i], tolerance);
  }

  /** A source does not show something and nothing. */
  lemma NotBoth(messages: Messages, source: Source, t: int, tolerance: int, v: Vector)
    requires Shows(messages, source, t, tolerance, v)
    ensures !ShowsNothing(messages, source, t, tolerance)
  {
    var data := Extracted(Of(messages, source.topic), source);
    if source.interpolation.Nearest? { WithinReach(data, t, tolerance, v); }
  }

  lemma ColumnsShow(columns: seq<Column>, messages: Messages, sources: seq<Source>, refs: seq<int>, tolerance: int,
                    i: nat)
    requires SourcesOk(messages, sources) && |columns| == |sources| && Long(columns, |refs|) && i < |refs|
    requires forall k :: 0 <= k < |columns| ==> IsColumn(columns[k], messages, sources[k], refs, tolerance)
    ensures Concatenated(columns, i).Some? <==> AllShow(messages, sources, refs[i], tolerance)
    ensures Full(columns, i) <==> Concatenated(columns, i).Some?
    ensures Full(columns, i) ==>
              ShowsAll(messages, sources, refs[i], tolerance, Concatenated(columns, i).value, RowOf(columns, i))
  {
    forall k | 0 <= k < |columns|
      ensures columns[k][i].Some? ==> Shows(messages, sources[k], refs[i], tolerance, columns[k][i].value)
      ensures columns[k][i].Some? <==> !ShowsNothing(messages, sources[k], refs[i], tolerance)
    {
      ColumnShows(columns[k], messages, sources[k], refs, tolerance, i);
      if columns[k][i].Some? { NotBoth(messages, sources[k], refs[i], tolerance, columns[k][i].value); }
    }
    ConcatenatedIsFlat(columns, i);
  }

  // ---- Cameras ----

  /** The image at position `i` is that of the nearest message at position `j`, the last one up to `i` at which any
      message was within the image tolerance. */
  ghost predicate LastMatch(data: seq<Stamped<Decoded>>, refs: seq<int>, tolerance: int, i: nat, j: nat, image: Decoded)
    requires j <= i < |refs|
  {
    && OfNearest(data, refs[j], tolerance, image)
    && forall l :: j < l <= i ==> OutOfReach(data, refs[l], tolerance)
  }

  /** What is shown at position `i`: the last match, or nothing while nothing has matched. */
  ghost predicate FillIs(data: seq<Stamped<Decoded>>, refs: seq<int>, tolerance: int, i: nat, fill: Option<Decoded>)
    requires i < |refs|
  {
    if fill.Some? then exists j: nat :: j <= i && LastMatch(data, refs, tolerance, i, j, fill.value)
    else forall l :: 0 <= l <= i ==> OutOfReach(data, refs[l], tolerance)
  }

  lemma FillContinues(data: seq<Stamped<Decoded>>, refs: seq<int>, tolerance: int, i: nat, fill: Option<Decoded>)
    requires 0 < i < |refs| && FillIs(data, refs, tolerance, i - 1, fill) && OutOfReach(data, refs[i], tolerance)
    ensures FillIs(data, refs, tolerance, i, fill)
  {
    if fill.Some? {
      var j: nat :| j <= i - 1 && LastMatch(data, refs, tolerance, i - 1, j, fill.value);
      assert LastMatch(data, refs, tolerance, i, j, fill.value);
    }
  }

  lemma MatchedNow(data: seq<Stamped<Decoded>>, refs: seq<int>, tolerance: int, i: nat, image: Decoded)
    requires i < |refs|
    requires OfNearest(data, refs[i], tolerance, image)
    ensures FillIs(data, refs, tolerance, i, Some(image))
  {
    assert LastMatch(data, refs, tolerance, i, i, image);
  }

  /** What the nearest interpolator returns at one time. */
  ghost predicate PickMeans<T>(data: seq<Stamped<T>>, t: int, tolerance: int, pick: Option<T>) {
    if pick.Some? then OfNearest(data, t, tolerance, pick.value) else OutOfReach(data, t, tolerance)
  }

  lemma {:induction false} FillMeans(picks: seq<Option<Decoded>>, data: seq<Stamped<Decoded>>, refs: seq<int>,
                                     tolerance: int, i: nat)
    requires |picks| == |refs| && i < |refs|
    requires forall l :: 0 <= l < |refs| ==> PickMeans(data, refs[l], tolerance, picks[l])
    ensures FillIs(data, refs, tolerance, i, FillAt(picks, i))
  {
    assert PickMeans(data, refs[i], tolerance, picks[i]);
    if picks[i].Some? {
      MatchedNow(data, refs, tolerance, i, picks[i].value);
    } else if i > 0 {
      FillMeans(picks, data, refs, tolerance, i - 1);
      FillContinues(data, refs, tolerance, i, FillAt(picks, i - 1));
    }
  }

  lemma CameraFill(data: seq<Stamped<Decoded>>, refs: seq<int>, tolerance: int, i: nat)
    requires Ascending(Times(data)) && i < |refs|
    ensures FillIs(data, refs, tolerance, i, FillAt(NearestValues(refs, data, tolerance), i))
  {
    var picks := NearestValues(refs, data, tolerance);
    forall l | 0 <= l < |refs| ensures PickMeans(data, refs[l], tolerance, picks[l]) {
      PickOf(data, refs[l], tolerance);
    }
    FillMeans(picks, data, refs, tolerance, i);
  }

  ghost predicate CamerasOk(messages: Messages, config: Config) {
    forall c :: 0 <= c < |config.images| ==> Ascending(Times(Of(messages, config.images[c].topic)))
  }

  ghost predicate ShowsImage(messages: Messages, image: CameraTopic, refs: seq<int>, tolerance: int, i: nat,
                             decoded: Decoded)
    requires i < |refs|
  {
    exists j: nat :: j <= i && LastMatch(Of(messages, image.topic), refs, tolerance, i, j, decoded)
  }

  /** No message of the camera was within reach at any time so far. */
  ghost predicate NeverSeen(messages: Messages, image: CameraTopic, refs: seq<int>, tolerance: int, i: nat)
    requires i < |refs|
  {
    forall l :: 0 <= l <= i ==> OutOfReach(Of(messages, image.topic), refs[l], tolerance)
  }

  // ---- Frames ----

  /** The frame of reference position `i`: every image, observation and action value is what its messages say. */
  ghost predicate FrameMeans(messages: Messages, config: Config, refs: seq<int>, i: nat, frame: SyncedFrame)
    requires i < |refs|
  {
    && ImagesMeanAt(messages, config, refs, i, frame.images)
    && FieldsMeanAt(messages, config, refs[i], frame.observations)
    && ShowsField(messages, config.action, refs[i], config.syncTolerance, frame.action)
  }

  ghost predicate ImagesMeanAt(messages: Messages, config: Config, refs: seq<int>, i: nat,
                               images: seq<(Camera, Decoded)>)
    requires i < |refs|
  {
    && |images| == |config.images|
    && forall c :: 0 <= c < |config.images| ==>
         && images[c].0 == config.images[c].camera
         && ShowsImage(messages, config.images[c], refs, config.imageTolerance, i, images[c].1)
  }

  ghost predicate FieldsMeanAt(messages: Messages, config: Config, t: int, values: seq<(FieldName, Vector)>) {
    && |values| == |config.observation|
    && forall f :: 0 <= f < |config.observation| ==>
         && values[f].0 == config.observation[f].name
         && ShowsField(messages, config.observation[f].sources, t, config.syncTolerance, values[f].1)
  }

  ghost predicate ShowsField(messages: Messages, sources: seq<Source>, t: int, tolerance: int, v: Vector) {
    exists parts :: ShowsAll(messages, sources, t, tolerance, v, parts)
  }

  /** Everything a frame needs is there at position `i`. */
  ghost predicate NothingMissing(messages: Messages, config: Config, refs: seq<int>, i: nat)
    requires i < |refs|
  {
    && config.action != [] && AllShow(messages, config.action, refs[i], config.syncTolerance)
    && FieldsPresent(messages, config, refs[i]) && ImagesPresent(messages, config, refs, i)
  }

  ghost predicate FieldsPresent(messages: Messages, config: Config, t: int) {
    forall f :: 0 <= f < |config.observation| ==>
      AllShow(messages, config.observation[f].sources, t, config.syncTolerance)
  }

  ghost predicate ImagesPresent(messages: Messages, config: Config, refs: seq<int>, i: nat)
    requires i < |refs|
  {
    forall c :: 0 <= c < |config.images| ==> !NeverSeen(messages, config.images[c], refs, config.imageTolerance, i)
  }

  lemma {:induction false} ObservationsMean(fields: seq<ObservationColumns>, n: nat, i: nat)
    requires i < n && forall f :: 0 <= f < |fields| ==> Long(fields[f].columns, n)
    ensures ObservationsAt(fields, n, i).Some? <==>
            forall f :: 0 <= f < |fields| ==> Concatenated(fields[f].columns, i).Some?
    ensures ObservationsAt(fields, n, i).Some? ==>
              forall f :: 0 <= f < |fields| ==>
                Concatenated(fields[f].columns, i) == Some(ObservationsAt(fields, n, i).value[f].1)
  {
    if fields != [] {
      ObservationsMean(fields[..|fields| - 1], n, i);
    }
  }

  lemma {:induction false} ImagesMean(cameras: seq<CameraColumn>, n: nat, i: nat)
    requires i < n && forall c :: 0 <= c < |cameras| ==> |cameras[c].aligned| == n
    ensures ImagesAt(cameras, n, i).Some? <==> forall c :: 0 <= c < |cameras| ==> cameras[c].aligned[i].Some?
    ensures ImagesAt(cameras, n, i).Some? ==>
              forall c :: 0 <= c < |cameras| ==> cameras[c].aligned[i] == Some(ImagesAt(cameras, n, i).value[c].1)
  {
    if cameras != [] {
      ImagesMean(cameras[..|cameras| - 1], n, i);
    }
  }

  lemma CameraShows(column: CameraColumn, image: CameraTopic, messages: Messages, refs: seq<int>, tolerance: int,
                    i: nat)
    requires IsAligned(column, image, messages, refs, tolerance) && i < |refs|
    requires Ascending(Times(Of(messages, image.topic)))
    ensures column.aligned[i].Some? ==> ShowsImage(messages, image, refs, tolerance, i, column.aligned[i].value)
    ensures column.aligned[i].Some? <==> !NeverSeen(messages, image, refs, tolerance, i)
  {
    var data := Of(messages, image.topic);
    CameraFill(data, refs, tolerance, i);
    if column.aligned[i].Some? {
      var j: nat :| j <= i && LastMatch(data, refs, tolerance, i, j, column.aligned[i].value);
      WithinReach(data, refs[j], tolerance, column.aligned[i].value);
    }
  }

  lemma ImagesShow(p: Prepared, messages: Messages, config: Config, refs: seq<int>, i: nat)
    requires ConfigOk(messages, config) && CamerasOk(messages, config)
    requires PreparedFrom(p, messages, config, refs) && PreparedFor(p, |refs|) && i < |refs|
    ensures ImagesAt(p.cameras, |refs|, i).Some? <==> ImagesPresent(messages, config, refs, i)
    ensures ImagesAt(p.cameras, |refs|, i).Some? ==>
              ImagesMeanAt(messages, config, refs, i, ImagesAt(p.cameras, |refs|, i).value)
  {
    ImagesMean(p.cameras, |refs|, i);
    forall c | 0 <= c < |config.images|
      ensures p.cameras[c].camera == config.images[c].camera
      ensures p.cameras[c].aligned[i].Some? ==>
                ShowsImage(messages, config.images[c], refs, config.imageTolerance, i, p.cameras[c].aligned[i].value)
      ensures p.cameras[c].aligned[i].Some? <==>
                !NeverSeen(messages, config.images[c], refs, config.imageTolerance, i)
    {
      assert IsAligned(p.cameras[c], config.images[c], messages, refs, config.imageTolerance);
      CameraShows(p.cameras[c], config.images[c], messages, refs, config.imageTolerance, i);
    }
  }

  lemma FieldShows(columns: seq<Column>, messages: Messages, sources: seq<Source>, refs: seq<int>, tolerance: int,
                   i: nat)
    requires SourcesOk(messages, sources) && |columns| == |sources| && Long(columns, |refs|) && i < |refs|
    requires forall k :: 0 <= k < |columns| ==> IsColumn(columns[k], messages, sources[k], refs, tolerance)
    ensures Concatenated(columns, i).Some? <==> AllShow(messages, sources, refs[i], tolerance)
    ensures Concatenated(columns, i).Some? ==>
              ShowsField(messages, sources, refs[i], tolerance, Concatenated(columns, i).value)
  {
    ColumnsShow(columns, messages, sources, refs, tolerance, i);
    if Full(columns, i) {
      assert ShowsAll(messages, sources, refs[i], tolerance, Concatenated(columns, i).value, RowOf(columns, i));
    }
  }

  lemma FieldsShow(p: Prepared, messages: Messages, config: Config, refs: seq<int>, i: nat)
    requires ConfigOk(messages, config)
    requires PreparedFrom(p, messages, config, refs) && PreparedFor(p, |refs|) && i < |refs|
    ensures ObservationsAt(p.observations, |refs|, i).Some? <==> FieldsPresent(messages, config, refs[i])
    ensures ObservationsAt(p.observations, |refs|, i).Some? ==>
              FieldsMeanAt(messages, config, refs[i], ObservationsAt(p.observations, |refs|, i).value)
  {
    ObservationsMean(p.observations, |refs|, i);
    forall f | 0 <= f < |config.observation|
      ensures Concatenated(p.observations[f].columns, i).Some? <==>
              AllShow(messages, config.observation[f].sources, refs[i], config.syncTolerance)
      ensures Concatenated(p.observations[f].columns, i).Some? ==>
                ShowsField(messages, config.observation[f].sources, refs[i], config.syncTolerance,
                           Concatenated(p.observations[f].columns, i).value)
    {
      FieldShows(p.observations[f].columns, messages, config.observation[f].sources, refs, config.syncTolerance, i);
    }
  }

  lemma FrameParts(p: Prepared, n: nat, i: nat)
    requires PreparedFor(p, n) && i < n
    ensures FrameAt(p, n, i).Some? <==>
            && ObservationsAt(p.observations, n, i).Some? && ActionAt(p.action, n, i).Some?
            && ImagesAt(p.cameras, n, i).Some?
    ensures FrameAt(p, n, i).Some? ==>
              && FrameAt(p, n, i).value.observations == ObservationsAt(p.observations, n, i).value
              && FrameAt(p, n, i).value.action == ActionAt(p.action, n, i).value
              && FrameAt(p, n, i).value.images == ImagesAt(p.cameras, n, i).value
  {
  }

  lemma ActionShows(p: Prepared, messages: Messages, config: Config, refs: seq<int>, i: nat)
    requires ConfigOk(messages, config)
    requires PreparedFrom(p, messages, config, refs) && PreparedFor(p, |refs|) && i < |refs|
    ensures ActionAt(p.action, |refs|, i).Some? <==>
            config.action != [] && AllShow(messages, config.action, refs[i], config.syncTolerance)
    ensures ActionAt(p.action, |refs|, i).Some? ==>
              ShowsField(messages, config.action, refs[i], config.syncTolerance, ActionAt(p.action, |refs|, i).value)
  {
    FieldShows(p.action, messages, config.action, refs, config.syncTolerance, i);
  }

  ghost predicate OutcomeMeans(messages: Messages, config: Config, refs: seq<int>, i: nat, frame: Option<SyncedFrame>)
    requires i < |refs|
  {
    && (frame.Some? <==> NothingMissing(messages, config, refs, i))
    && (frame.Some? ==> FrameMeans(messages, config, refs, i, frame.value))
  }

  /** At one position: a frame exactly when nothing is missing, and the frame says what the messages say. */
  lemma FrameAtMeans(p: Prepared, messages: Messages, config: Config, refs: seq<int>, i: nat)
    requires ConfigOk(messages, config) && CamerasOk(messages, config)
    requires PreparedFrom(p, messages, config, refs) && PreparedFor(p, |refs|) && i < |refs|
    ensures OutcomeMeans(messages, config, refs, i, FrameAt(p, |refs|, i))
  {
    ImagesShow(p, messages, config, refs, i);
    FieldsShow(p, messages, config, refs, i);
    ActionShows(p, messages, config, refs, i);
    FrameParts(p, |refs|, i);
  }

  /** The frames are those of the positions. */
  ghost predicate EachMeans(messages: Messages, config: Config, refs: seq<int>, frames: seq<SyncedFrame>,
                            positions: seq<nat>)
  {
    && |positions| == |frames|
    && forall j :: 0 <= j < |frames| ==>
         positions[j] < |refs| && FrameMeans(messages, config, refs, positions[j], frames[j])
  }

  lemma EachOneMore(messages: Messages, config: Config, refs: seq<int>, frames: seq<SyncedFrame>, positions: seq<nat>,
                    frame: SyncedFrame, i: nat)
    requires EachMeans(messages, config, refs, frames, positions)
    requires i < |refs| && FrameMeans(messages, config, refs, i, frame)
    ensures EachMeans(messages, config, refs, frames + [frame], positions + [i])
  {
    var longer, more := frames + [frame], positions + [i];
    forall j | 0 <= j < |longer|
      ensures more[j] < |refs| && FrameMeans(messages, config, refs, more[j], longer[j])
    {
      if j < |frames| { assert longer[j] == frames[j] && more[j] == positions[j]; }
    }
  }

  /** The positions below `n` at which nothing is missing, in increasing order. */
  ghost predicate Positions(messages: Messages, config: Config, refs: seq<int>, positions: seq<nat>, n: nat)
    requires n <= |refs|
  {
    && (forall j, k :: 0 <= j < k < |positions| ==> positions[j] < positions[k])
    && (forall j :: 0 <= j < |positions| ==> positions[j] < n)
    && forall i :: 0 <= i < n ==> (i in positions <==> NothingMissing(messages, config, refs, i))
  }

  lemma PositionsOneMore(messages: Messages, config: Config, refs: seq<int>, positions: seq<nat>, n: nat)
    requires n < |refs| && Positions(messages, config, refs, positions, n)
    ensures Positions(messages, config, refs,
                     if NothingMissing(messages, config, refs, n) then positions + [n] else positions, n + 1)
  {
    var more := positions + [n];
    assert more[|positions|] == n;
    forall i | 0 <= i < n + 1 ensures i in more <==> i == n || i in positions {}
  }

  lemma {:induction false} YieldedMean(p: Prepared, messages: Messages, config: Config, refs: seq<int>, n: nat)
    returns (positions: seq<nat>)
    requires PreparedFor(p, |refs|) && n <= |refs|
    requires forall i :: 0 <= i < |refs| ==> OutcomeMeans(messages, config, refs, i, FrameAt(p, |refs|, i))
    ensures EachMeans(messages, config, refs, Yielded(p, |refs|, n), positions)
    ensures Positions(messages, config, refs, positions, n)
  {
    if n == 0 {
      positions := [];
    } else {
      positions := YieldedMean(p, messages, config, refs, n - 1);
      positions := EmitOneMore(messages, config, refs, Yielded(p, |refs|, n - 1), positions, n - 1,
                               FrameAt(p, |refs|, n - 1));
    }
  }

  lemma EmitOneMore(messages: Messages, config: Config, refs: seq<int>, frames: seq<SyncedFrame>, positions: seq<nat>,
                    i: nat, frame: Option<SyncedFrame>)
    returns (more: seq<nat>)
    requires i < |refs| && EachMeans(messages, config, refs, frames, positions)
    requires Positions(messages, config, refs, positions, i)
    requires OutcomeMeans(messages, config, refs, i, frame)
    ensures EachMeans(messages, config, refs, frames + (if frame.Some? then [frame.value] else []), more)
    ensures Positions(messages, config, refs, more, i + 1)
  {
    PositionsOneMore(messages, config, refs, positions, i);
    if frame.Some? {
      EachOneMore(messages, config, refs, frames, positions, frame.value, i);
      more := positions + [i];
    } else {
      assert frames + [] == frames;
      more := positions;
    }
  }

  /** An episode has one frame for every reference time at which nothing is missing, in order, and each shows what the
      messages say: linear sources on the line through their samples or held at the ends, nearest ones within the sync
      tolerance, cameras the last image that came within the image tolerance. */
  lemma EpisodeMeans(messages: Messages, config: Config, refs: seq<int>) returns (positions: seq<nat>)
    requires ConfigOk(messages, config) && CamerasOk(messages, config)
    ensures EachMeans(messages, config, refs, EpisodeOf(messages, config, refs), positions)
    ensures Positions(messages, config, refs, positions, |refs|)
  {
    var p := PreparationOf(messages, config, refs);
    forall i | 0 <= i < |refs| ensures OutcomeMeans(messages, config, refs, i, FrameAt(p, |refs|, i)) {
      FrameAtMeans(p, messages, config, refs, i);
    }
    positions := YieldedMean(p, messages, config, refs, |refs|);
  }

  // ---- Topics of the timebase ----

  lemma {:induction false} TopicCounts(messages: Messages, topics: seq<Topic>, topic: Topic)
    requires topic in topics && Of(messages, topic) != []
    ensures Times(Of(messages, topic)) in TopicTimes(messages, topics)
  {
    if topics[0] != topic || Of(messages, topics[0]) == [] {
      assert topics == [topics[0]] + topics[1..];
      TopicCounts(messages, topics[1..], topic);
    }
  }

  lemma {:induction false} FieldTopicsHas(fields: seq<Field>, f: nat, k: nat)
    requires f < |fields| && k < |fields[f].sources|
    ensures fields[f].sources[k].topic in FieldTopics(fields)
  {
    if f == 0 {
      assert TopicsOf(fields[0].sources)[k] == fields[0].sources[k].topic;
    } else {
      FieldTopicsHas(fields[1..], f - 1, k);
    }
  }

  /** Every topic the configuration names has its say in the timebase. */
  lemma EveryTopicCounts(messages: Messages, config: Config)
    ensures forall c :: 0 <= c < |config.images| ==> InTimebase(messages, config, config.images[c].topic)
    ensures forall f, k :: 0 <= f < |config.observation| && 0 <= k < |config.observation[f].sources| ==>
              InTimebase(messages, config, config.observation[f].sources[k].topic)
    ensures forall k :: 0 <= k < |config.action| ==> InTimebase(messages, config, config.action[k].topic)
  {
    var all := AllTopics(config);
    forall c | 0 <= c < |config.images| ensures InTimebase(messages, config, config.images[c].topic) {
      assert all[c] == config.images[c].topic;
      TopicInTimebase(messages, config, all[c]);
    }
    forall f, k | 0 <= f < |config.observation| && 0 <= k < |config.observation[f].sources|
      ensures InTimebase(messages, config, config.observation[f].sources[k].topic)
    {
      FieldTopicsHas(config.observation, f, k);
      TopicInTimebase(messages, config, config.observation[f].sources[k].topic);
    }
    forall k | 0 <= k < |config.action| ensures InTimebase(messages, config, config.action[k].topic) {
      assert TopicsOf(config.action)[k] == config.action[k].topic;
      TopicInTimebase(messages, config, config.action[k].topic);
    }
  }

  ghost predicate InTimebase(messages: Messages, config: Config, topic: Topic) {
    Of(messages, topic) != [] ==> Times(Of(messages, topic)) in TopicTimes(messages, AllTopics(config))
  }

  lemma TopicInTimebase(messages: Messages, config: Config, topic: Topic)
    requires topic in AllTopics(config)
    ensures InTimebase(messages, config, topic)
  {
    if Of(messages, topic) != [] { TopicCounts(messages, AllTopics(config), topic); }
  }
}
