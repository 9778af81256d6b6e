/** What the writer and the export loop answer, in terms of the frames and recordings themselves: which frame is refused
    for which reason, what an episode's record says, where a row comes from, and which recordings are skipped. */
module DatasetMeaning {
  import opened Sequences
  import opened DatasetFrames
  import opened DatasetWriter
  import opened DatasetTheorems
  import opened DatasetExport
  import E = EpisodeFrames

  // ---- Refused frames ----

  predicate ImageGood(spec: FeatureSpec, image: NamedImage) {
    image.0 in spec.imageShapes && image.1.shape == spec.imageShapes[image.0]
  }

  predicate VectorGood(spec: FeatureSpec, v: NamedVector) {
    v.0 in spec.observationFields && |v.1| == spec.observationFields[v.0]
  }

  ghost predicate ImagesGood(spec: FeatureSpec, images: seq<NamedImage>, n: nat) {
    n <= |images| && forall i :: 0 <= i < n ==> ImageGood(spec, images[i])
  }

  ghost predicate VectorsGood(spec: FeatureSpec, vectors: seq<NamedVector>, n: nat) {
    n <= |vectors| && forall i :: 0 <= i < n ==> VectorGood(spec, vectors[i])
  }

  /** The first image that is not as probed, of a camera that was or was not probed. */
  ghost predicate BadImage(spec: FeatureSpec, images: seq<NamedImage>, known: bool) {
    exists i: nat :: i < |images| && ImagesGood(spec, images, i) && !ImageGood(spec, images[i])
                     && (known <==> images[i].0 in spec.imageShapes)
  }

  ghost predicate BadVector(spec: FeatureSpec, vectors: seq<NamedVector>, known: bool) {
    exists i: nat :: i < |vectors| && VectorsGood(spec, vectors, i) && !VectorGood(spec, vectors[i])
                     && (known <==> vectors[i].0 in spec.observationFields)
  }

  /** The first thing wrong with a frame: its images come first, then the action, then the observations. */
  ghost predicate Faults(spec: FeatureSpec, frame: Frame, outcome: Outcome) {
    match outcome
    case NotOpened => false
    case UnknownCamera => BadImage(spec, frame.images, false)
    case ImageShapeMismatch => BadImage(spec, frame.images, true)
    case ActionDimMismatch => ImagesGood(spec, frame.images, |frame.images|) && |frame.action| != spec.actionDim
    case UnknownField => BeforeObservations(spec, frame) && BadVector(spec, frame.observations, false)
    case ObservationDimMismatch => BeforeObservations(spec, frame) && BadVector(spec, frame.observations, true)
    case Added => BeforeObservations(spec, frame) && VectorsGood(spec, frame.observations, |frame.observations|)
  }

  ghost predicate BeforeObservations(spec: FeatureSpec, frame: Frame) {
    ImagesGood(spec, frame.images, |frame.images|) && |frame.action| == spec.actionDim
  }

  lemma {:induction false} FirstImageFault(spec: FeatureSpec, images: seq<NamedImage>, i: nat)
    requires i <= |images| && ImagesGood(spec, images, i)
    ensures match ImagesVerdict(spec, images, i)
            case Added => ImagesGood(spec, images, |images|)
            case UnknownCamera => BadImage(spec, images, false)
            case ImageShapeMismatch => BadImage(spec, images, true)
            case _ => false
    decreases |images| - i
  {
    if i < |images| && ImageGood(spec, images[i]) { FirstImageFault(spec, images, i + 1); }
  }

  lemma {:induction false} FirstVectorFault(spec: FeatureSpec, vectors: seq<NamedVector>, i: nat)
    requires i <= |vectors| && VectorsGood(spec, vectors, i)
    ensures match VectorsVerdict(spec, vectors, i)
            case Added => VectorsGood(spec, vectors, |vectors|)
            case UnknownField => BadVector(spec, vectors, false)
            case ObservationDimMismatch => BadVector(spec, vectors, true)
            case _ => false
    decreases |vectors| - i
  {
    if i < |vectors| && VectorGood(spec, vectors[i]) { FirstVectorFault(spec, vectors, i + 1); }
  }

  lemma VerdictFaults(spec: FeatureSpec, frame: Frame)
    ensures Faults(spec, frame, Verdict(spec, frame))
  {
    FirstImageFault(spec, frame.images, 0);
    FirstVectorFault(spec, frame.observations, 0);
  }

  lemma OneBadImage(spec: FeatureSpec, images: seq<NamedImage>)
    ensures !(BadImage(spec, images, true) && BadImage(spec, images, false))
    ensures ImagesGood(spec, images, |images|) ==> !BadImage(spec, images, true) && !BadImage(spec, images, false)
  {
  }

  lemma OneBadVector(spec: FeatureSpec, vectors: seq<NamedVector>)
    ensures !(BadVector(spec, vectors, true) && BadVector(spec, vectors, false))
    ensures VectorsGood(spec, vectors, |vectors|) ==>
              !BadVector(spec, vectors, true) && !BadVector(spec, vectors, false)
  {
  }

  /** The verdict names the first fault of the frame, and is `Added` when there is none. */
  lemma VerdictIsTheFirstFault(spec: FeatureSpec, frame: Frame, outcome: Outcome)
    ensures Verdict(spec, frame) == outcome <==> Faults(spec, frame, outcome)
  {
    VerdictFaults(spec, frame);
    OneBadImage(spec, frame.images);
    OneBadVector(spec, frame.observations);
  }

  // ---- Records and rows ----

  function Scaled(time: real, fps: nat): real { time * fps as real }

  lemma SecondsScaled(i: nat, fps: nat)
    requires fps > 0
    ensures Scaled(Seconds(i, fps), fps) == i as real
  {
  }

  lemma {:induction false} TasksInMeans(frames: seq<Frame>, t: Task)
    ensures t in TasksIn(frames) <==> exists i :: 0 <= i < |frames| && frames[i].task == t
  {
    if frames != [] {
      var n := |frames| - 1;
      TasksInMeans(frames[..n], t);
      if t in TasksIn(frames[..n]) {
        var i :| 0 <= i < n && frames[..n][i].task == t;
        assert frames[i].task == t;
      }
    }
  }

  /** The record of an episode: its number, its length, where and when it begins and ends in the dataset, and exactly
      the tasks of its frames. */
  lemma RecordMeans(w: LeRobotV30Writer, k: nat)
    requires w.Valid() && k < |w.episodes|
    ensures |w.done| == |w.episodes|
    ensures var e := w.episodes[k];
            && e.index == k && e.length == |w.done[k]| == e.to - e.from
            && Scaled(e.fromTimestamp, w.fps) == e.from as real && Scaled(e.toTimestamp, w.fps) == e.to as real
            && (forall i: nat :: e.from <= i < e.to ==>
                  i < |w.frames| && i - e.from < |w.done[k]| && w.frames[i] == w.done[k][i - e.from])
            && (forall t :: t in e.tasks <==> exists i :: 0 <= i < |w.done[k]| && w.done[k][i].task == t)
  {
    EpisodeAt(w.episodes, w.done, w.spec, w.fps, k);
    var e := w.episodes[k];
    SecondsScaled(e.from, w.fps);
    SecondsScaled(e.to, w.fps);
    forall i: nat | e.from <= i < e.to
      ensures i < |w.frames| && i - e.from < |w.done[k]| && w.frames[i] == w.done[k][i - e.from]
    {
      EpisodeFrames(w.episodes, w.done, w.spec, w.fps, k, i);
    }
    forall t ensures t in e.tasks <==> exists i :: 0 <= i < |w.done[k]| && w.done[k][i].task == t {
      TasksInMeans(w.done[k], t);
    }
  }

  /** A row's time is its position in its episode over the frame rate. */
  lemma RowTimes(w: LeRobotV30Writer, i: nat)
    requires w.Valid() && i < w.index
    ensures |w.timestamps| == |w.frameIndices| == w.index
    ensures Scaled(w.timestamps[i], w.fps) == w.frameIndices[i] as real
  {
    TimeAt(w.frameIndices, w.fps, i);
    SecondsScaled(w.frameIndices[i], w.fps);
  }

  /** Each camera's video has one image per frame, the frame's own. */
  lemma {:induction false} VideoFollowsRows(frames: seq<Frame>, camera: E.Camera, i: nat)
    requires forall j :: 0 <= j < |frames| ==> |ImagesIn(frames[j].images, camera)| == 1
    requires i < |frames|
    ensures |ImagesIn(AllImages(frames), camera)| == |frames|
    ensures [ImagesIn(AllImages(frames), camera)[i]] == ImagesIn(frames[i].images, camera)
  {
    var n := |frames| - 1;
    if n > 0 { VideoFollowsRows(frames[..n], camera, if i < n then i else 0); }
    ImagesInAppend(AllImages(frames[..n]), frames[n].images, camera);
    OneLonger(ImagesIn(AllImages(frames[..n]), camera), ImagesIn(frames[n].images, camera));
  }

  lemma OneLonger<T>(init: seq<T>, last: seq<T>)
    requires |last| == 1
    ensures |init + last| == |init| + 1 && [(init + last)[|init|]] == last
    ensures forall i :: 0 <= i < |init| ==> (init + last)[i] == init[i]
  {
  }

  lemma WrittenVideo(w: LeRobotV30Writer, camera: E.Camera, i: nat)
    requires w.Valid() && w.sink.Some? && i < |w.frames|
    requires forall j :: 0 <= j < |w.frames| ==> |ImagesIn(w.frames[j].images, camera)| == 1
    ensures |ImagesIn(w.sink.value, camera)| == |w.frames|
    ensures [ImagesIn(w.sink.value, camera)[i]] == ImagesIn(w.frames[i].images, camera)
  {
    VideoFollowsRows(w.frames, camera, i);
  }

  // ---- Where a row comes from ----

  /** The synchronized frame with its images decoded and the recording's task. */
  ghost predicate IsDecoded(frame: Frame, synced: E.SyncedFrame, setup: Setup, task: Task) {
    && |frame.images| == |synced.images|
    && (forall c :: 0 <= c < |frame.images| ==>
          frame.images[c].0 == synced.images[c].0 && frame.images[c].1 == setup.decode(synced.images[c].1))
    && frame.action == synced.action && frame.observations == synced.observations && frame.task == task
  }

  /** Frame `j` the converter yields for this recording, on the recording's own timebase. */
  ghost predicate ComesFrom(frame: Frame, setup: Setup, recording: Recording, j: nat) {
    && setup.fps > 0 && Readable(setup, recording)
    && var synced := E.EpisodeOf(recording.messages, setup.config, RefsOf(setup, recording));
       j < |synced| && IsDecoded(frame, synced[j], setup, recording.task)
  }

  lemma {:induction false} ContributesFrom(parts: seq<Contribution>, k: nat) returns (l: nat)
    requires k < |Contributing(parts)|
    ensures l < |parts| && parts[l].frames == Contributing(parts)[k]
  {
    var n := |parts| - 1;
    if k < |Contributing(parts[..n])| { l := ContributesFrom(parts[..n], k); } else { l := n; }
  }

  lemma {:induction false} UsableMeans(recordings: seq<Recording>, r: Recording)
    ensures r in Usable(recordings) <==> r in recordings && r.hasMcap
  {
    if recordings != [] {
      var n := |recordings| - 1;
      UsableMeans(recordings[..n], r);
      assert recordings == recordings[..n] + [recordings[n]];
    }
  }

  /** Every row of an exported dataset is a frame of one of the recordings that hold an MCAP file. */
  lemma RowComesFrom(w: LeRobotV30Writer, setup: Setup, recordings: seq<Recording>, i: nat)
    returns (r: Recording, j: nat)
    requires SetupOk(setup) && AllReadable(setup, Usable(recordings))
    requires w.Valid() && w.current == [] && i < w.index
    requires w.done == Contributing(ContributionsOf(setup, Usable(recordings)))
    ensures r in recordings && r.hasMcap && |w.frames| == w.index && ComesFrom(w.frames[i], setup, r, j)
  {
    FinishedFrames(w);
    var k;
    k, j := FromPart(w.done, i);
    var l := ContributesFrom(ContributionsOf(setup, Usable(recordings)), k);
    r := Usable(recordings)[l];
    UsableMeans(recordings, r);
    FrameComesFrom(setup, r, j);
  }

  lemma FrameComesFrom(setup: Setup, r: Recording, j: nat)
    requires setup.fps > 0 && Readable(setup, r) && j < |FramesOf(setup, r)|
    ensures ComesFrom(FramesOf(setup, r)[j], setup, r, j)
  {
  }

  // ---- The answer ----

  lemma {:induction false} WithoutMcapMeans(recordings: seq<Recording>, name: RecordingName)
    ensures name in WithoutMcap(recordings) <==>
            exists k :: 0 <= k < |recordings| && recordings[k].name == name && !recordings[k].hasMcap
  {
    if recordings != [] {
      var n := |recordings| - 1;
      WithoutMcapMeans(recordings[..n], name);
      if name in WithoutMcap(recordings[..n]) {
        var k :| 0 <= k < n && recordings[..n][k].name == name && !recordings[..n][k].hasMcap;
        assert recordings[k].name == name && !recordings[k].hasMcap;
      }
    }
  }

  lemma {:induction false} BarrenMeans(parts: seq<Contribution>, name: RecordingName)
    ensures name in Barren(parts) <==> exists k :: 0 <= k < |parts| && parts[k].name == name && parts[k].frames == []
  {
    if parts != [] {
      var n := |parts| - 1;
      BarrenMeans(parts[..n], name);
      if name in Barren(parts[..n]) {
        var k :| 0 <= k < n && parts[..n][k].name == name && parts[..n][k].frames == [];
        assert parts[k].name == name && parts[k].frames == [];
      }
    }
  }

  /** The first frame, recording by recording, that the writer refuses, and why. */
  ghost predicate FirstRefused(spec: FeatureSpec, parts: seq<Contribution>, outcome: Outcome) {
    exists k: nat, j: nat ::
      && k < |parts| && j < |parts[k].frames| && GoodBefore(spec, parts, k, j)
      && Verdict(spec, parts[k].frames[j]) == outcome != Added
  }

  ghost predicate AllTaken(spec: FeatureSpec, frames: seq<Frame>, n: nat) {
    n <= |frames| && forall j :: 0 <= j < n ==> Verdict(spec, frames[j]).Added?
  }

  ghost predicate GoodBefore(spec: FeatureSpec, parts: seq<Contribution>, k: nat, j: nat)
    requires k < |parts|
  {
    && (forall l :: 0 <= l < k ==> AllTaken(spec, parts[l].frames, |parts[l].frames|))
    && AllTaken(spec, parts[k].frames, j)
  }

  lemma {:induction false} FirstFaultAt(spec: FeatureSpec, frames: seq<Frame>, i: nat) returns (j: nat)
    requires i <= |frames| && AllTaken(spec, frames, i)
    ensures j <= |frames| && AllTaken(spec, frames, j)
    ensures if j == |frames| then FirstFault(spec, frames, i).Added?
            else FirstFault(spec, frames, i) == Verdict(spec, frames[j]) != Added
    decreases |frames| - i
  {
    if i == |frames| || !Verdict(spec, frames[i]).Added? { j := i; } else { j := FirstFaultAt(spec, frames, i + 1); }
  }

  ghost predicate AllPartsTaken(spec: FeatureSpec, parts: seq<Contribution>, k: nat) {
    k <= |parts| && forall l :: 0 <= l < k ==> AllTaken(spec, parts[l].frames, |parts[l].frames|)
  }

  lemma {:induction false} FirstBadIs(spec: FeatureSpec, parts: seq<Contribution>, k: nat)
    requires k <= |parts| && AllPartsTaken(spec, parts, k)
    ensures var outcome := FirstBadRecording(spec, parts, k);
            if outcome.Added? then AllPartsTaken(spec, parts, |parts|) else FirstRefused(spec, parts, outcome)
    decreases |parts| - k
  {
    if k < |parts| {
      var j := FirstFaultAt(spec, parts[k].frames, 0);
      if j == |parts[k].frames| {
        FirstBadIs(spec, parts, k + 1);
      } else {
        assert GoodBefore(spec, parts, k, j);
      }
    }
  }

  lemma {:induction false} NoFramesMeans(parts: seq<Contribution>)
    ensures AllFrames(parts) == [] <==> forall k :: 0 <= k < |parts| ==> parts[k].frames == []
  {
    if parts != [] {
      var n := |parts| - 1;
      NoFramesMeans(parts[..n]);
      assert forall k :: 0 <= k < n ==> parts[k] == parts[..n][k];
    }
  }

  /** What an answer says about the recordings with an MCAP file, `parts`, and the others. */
  ghost predicate Answers(result: ExportResult, spec: FeatureSpec, recordings: seq<Recording>,
                          parts: seq<Contribution>) {
    match result
    case NoRecordings => forall k :: 0 <= k < |recordings| ==> !recordings[k].hasMcap
    case Failed(outcome) => FirstRefused(spec, parts, outcome)
    case NoFrames =>
      && AllPartsTaken(spec, parts, |parts|) && parts != []
      && forall k :: 0 <= k < |parts| ==> parts[k].frames == []
    case Exported(totalEpisodes, totalFrames, skipped) =>
      && AllPartsTaken(spec, parts, |parts|) && totalFrames > 0
      && totalEpisodes == |Contributing(parts)| && totalFrames == |Flat(Contributing(parts))|
      && totalEpisodes + |skipped| == |recordings|
      && forall name :: name in skipped <==> Skipped(recordings, parts, name)
  }

  /** A recording of this name has no MCAP file or yields no frame. */
  ghost predicate Skipped(recordings: seq<Recording>, parts: seq<Contribution>, name: RecordingName) {
    || (exists k :: 0 <= k < |recordings| && recordings[k].name == name && !recordings[k].hasMcap)
    || (exists k :: 0 <= k < |parts| && parts[k].name == name && parts[k].frames == [])
  }

  /** The answer of an export: no recording has an MCAP file; the first frame that is refused, and why; every frame fits
      but there is none; or the counts of episodes and frames, and every other recording by name. */
  lemma ExportMeans(setup: Setup, spec: FeatureSpec, recordings: seq<Recording>)
    requires setup.fps > 0 && AllReadable(setup, Usable(recordings))
    ensures Answers(ExportOf(setup, spec, recordings), spec, recordings, ContributionsOf(setup, Usable(recordings)))
  {
    if Usable(recordings) == [] {
      forall k | 0 <= k < |recordings| ensures !recordings[k].hasMcap { UsableMeans(recordings, recordings[k]); }
    } else {
      AnswerMeans(spec, recordings, ContributionsOf(setup, Usable(recordings)));
    }
  }

  lemma AnswerMeans(spec: FeatureSpec, recordings: seq<Recording>, parts: seq<Contribution>)
    requires |parts| == |Usable(recordings)| > 0
    ensures Answers(AnswerOf(spec, parts, WithoutMcap(recordings)), spec, recordings, parts)
  {
    FirstBadIs(spec, parts, 0);
    NoFramesMeans(parts);
    NothingIsLost(parts);
    forall name ensures name in WithoutMcap(recordings) + Barren(parts) <==> Skipped(recordings, parts, name) {
      WithoutMcapMeans(recordings, name);
      BarrenMeans(parts, name);
    }
    SkippedCount(recordings);
  }

  lemma {:induction false} SkippedCount(recordings: seq<Recording>)
    ensures |WithoutMcap(recordings)| + |Usable(recordings)| == |recordings|
  {
    if recordings != [] { SkippedCount(recordings[..|recordings| - 1]); }
  }
}
