/** The recording loop of `run_export` in `service.py`, driving the dataset writer. */
module DatasetExport {
  import opened Sequences
  import opened ImageStatistics
  import opened DatasetFrames
  import opened DatasetWriter
  import E = EpisodeFrames

  type RecordingName(==,!new)

  /** A recording directory: whether it holds an MCAP file, the messages read from it and the task it names. */
  datatype Recording = Recording(name: RecordingName, hasMcap: bool, messages: E.Messages, task: Task)

  /** What an export fixes for all recordings: the configuration, the timebase and the image decoder. */
  datatype Setup = Setup(config: E.Config, fps: nat, union: bool, decode: E.Decoded -> Image)

  datatype ExportResult =
    | NoRecordings
    | NoFrames
    | Failed(outcome: Outcome)
    | Exported(totalEpisodes: nat, totalFrames: nat, skipped: seq<RecordingName>)

  // ---- What an export is ----

  /** The decoder returns proper arrays, and field names are the keys of a dictionary. */
  ghost predicate SetupOk(setup: Setup) {
    && setup.fps > 0
    && (forall d :: IsArray(setup.decode(d)))
    && forall j, k :: 0 <= j < k < |setup.config.observation| ==>
         setup.config.observation[j].name != setup.config.observation[k].name
  }

  ghost predicate Readable(setup: Setup, recording: Recording) {
    E.ConfigOk(recording.messages, setup.config)
  }

  ghost predicate AllReadable(setup: Setup, recordings: seq<Recording>) {
    forall k :: 0 <= k < |recordings| ==> Readable(setup, recordings[k])
  }

  function DecodedImages(images: seq<(E.Camera, E.Decoded)>, decode: E.Decoded -> Image): (r: seq<NamedImage>)
    ensures |r| == |images| && forall i :: 0 <= i < |r| ==> r[i] == (images[i].0, decode(images[i].1))
  {
    seq(|images|, i requires 0 <= i < |images| => (images[i].0, decode(images[i].1)))
  }

  /** A synchronized frame with its images decoded and its task. */
  function DecodedFrame(frame: E.SyncedFrame, decode: E.Decoded -> Image, task: Task): Frame {
    Frame(DecodedImages(frame.images, decode), frame.action, frame.observations, task)
  }

  function DecodedFrames(frames: seq<E.SyncedFrame>, decode: E.Decoded -> Image, task: Task): (r: seq<Frame>)
    ensures |r| == |frames| && forall i :: 0 <= i < |r| ==> r[i] == DecodedFrame(frames[i], decode, task)
  {
    seq(|frames|, i requires 0 <= i < |frames| => DecodedFrame(frames[i], decode, task))
  }

  /** The timebase of one recording. */
  function RefsOf(setup: Setup, recording: Recording): seq<int>
    requires setup.fps > 0
  {
    E.RefTimestamps(E.TopicTimes(recording.messages, E.AllTopics(setup.config)), setup.fps, setup.union)
  }

  /** The frames the converter yields for a recording. */
  ghost function FramesOf(setup: Setup, recording: Recording): seq<Frame>
    requires setup.fps > 0 && Readable(setup, recording)
  {
    DecodedFrames(E.EpisodeOf(recording.messages, setup.config, RefsOf(setup, recording)), setup.decode, recording.task)
  }

  /** A recording's contribution to the dataset. */
  datatype Contribution = Contribution(name: RecordingName, frames: seq<Frame>)

  ghost function ContributionsOf(setup: Setup, recordings: seq<Recording>): (r: seq<Contribution>)
    requires setup.fps > 0 && AllReadable(setup, recordings)
    ensures |r| == |recordings|
    ensures forall k :: 0 <= k < |r| ==> r[k] == Contribution(recordings[k].name, FramesOf(setup, recordings[k]))
  {
    seq(|recordings|, k requires 0 <= k < |recordings| =>
      Contribution(recordings[k].name, FramesOf(setup, recordings[k])))
  }

  function Usable(recordings: seq<Recording>): seq<Recording> {
    if recordings == [] then []
    else
      var last := recordings[|recordings| - 1];
      Usable(recordings[..|recordings| - 1]) + if last.hasMcap then [last] else []
  }

  function WithoutMcap(recordings: seq<Recording>): seq<RecordingName> {
    if recordings == [] then []
    else
      var last := recordings[|recordings| - 1];
      WithoutMcap(recordings[..|recordings| - 1]) + if last.hasMcap then [] else [last.name]
  }

  /** The frames of the recordings that contributed any, recording by recording. */
  ghost function Contributing(parts: seq<Contribution>): seq<seq<Frame>> {
    if parts == [] then []
    else
      var last := parts[|parts| - 1];
      Contributing(parts[..|parts| - 1]) + if last.frames == [] then [] else [last.frames]
  }

  /** The recordings that contributed no frame. */
  ghost function Barren(parts: seq<Contribution>): seq<RecordingName> {
    if parts == [] then []
    else
      var last := parts[|parts| - 1];
      Barren(parts[..|parts| - 1]) + if last.frames == [] then [last.name] else []
  }

  ghost function AllFrames(parts: seq<Contribution>): seq<Frame> {
    if parts == [] then [] else AllFrames(parts[..|parts| - 1]) + parts[|parts| - 1].frames
  }

  /** The complaint about the first frame, from `i` on, that does not have the probed shapes. */
  ghost function FirstFault(spec: FeatureSpec, frames: seq<Frame>, i: nat): Outcome
    requires i <= |frames|
    decreases |frames| - i
  {
    if i == |frames| then Added
    else if Verdict(spec, frames[i]).Added? then FirstFault(spec, frames, i + 1)
    else Verdict(spec, frames[i])
  }

  /** The first complaint about the usable recordings' frames, recording by recording from `k` on. */
  ghost function FirstBadRecording(spec: FeatureSpec, parts: seq<Contribution>, k: nat): Outcome
    requires k <= |parts|
    decreases |parts| - k
  {
    if k == |parts| then Added
    else if FirstFault(spec, parts[k].frames, 0).Added? then FirstBadRecording(spec, parts, k + 1)
    else FirstFault(spec, parts[k].frames, 0)
  }

  /** What an export answers. */
  ghost function ExportOf(setup: Setup, spec: FeatureSpec, recordings: seq<Recording>): ExportResult
    requires setup.fps > 0 && AllReadable(setup, Usable(recordings))
  {
    if Usable(recordings) == [] then NoRecordings
    else AnswerOf(spec, ContributionsOf(setup, Usable(recordings)), WithoutMcap(recordings))
  }

  /** The answer once there are recordings to export; `first` are skipped already. */
  ghost function AnswerOf(spec: FeatureSpec, parts: seq<Contribution>, first: seq<RecordingName>): ExportResult {
    var frames := AllFrames(parts);
    if !FirstBadRecording(spec, parts, 0).Added? then Failed(FirstBadRecording(spec, parts, 0))
    else if frames == [] then NoFrames
    else Exported(|Contributing(parts)|, |frames|, first + Barren(parts))
  }

  /** Recording `k` is the next episode when it yields a frame and the next skipped one when it yields none; nothing
      else is an episode or skipped, and the episodes hold all frames in order. */
  lemma {:induction false} NothingIsLost(parts: seq<Contribution>)
    ensures |Contributing(parts)| + |Barren(parts)| == |parts|
    ensures forall k :: 0 <= k < |parts| ==> EndsUp(parts, k)
    ensures Flat(Contributing(parts)) == AllFrames(parts)
  {
    if parts != [] {
      var n := |parts| - 1;
      NothingIsLost(parts[..n]);
      forall k | 0 <= k < n ensures EndsUp(parts, k) {
        assert EndsUp(parts[..n], k) && parts[..n][..k] == parts[..k];
      }
    }
    FramesInOrder(parts);
  }

  lemma {:induction false} FramesInOrder(parts: seq<Contribution>)
    ensures Flat(Contributing(parts)) == AllFrames(parts)
  {
    if parts != [] {
      var n := |parts| - 1;
      FramesInOrder(parts[..n]);
      if parts[n].frames == [] {
        assert AllFrames(parts) == AllFrames(parts[..n]) && Contributing(parts) == Contributing(parts[..n]);
      } else {
        FlatOneMore(Contributing(parts[..n]), parts[n].frames);
      }
    }
  }

  /** Where recording `k` ended up: after the episodes, or the skipped ones, of the recordings before it. */
  ghost predicate EndsUp(parts: seq<Contribution>, k: nat)
    requires k < |parts|
  {
    if parts[k].frames == [] then
      var i := |Barren(parts[..k])|; i < |Barren(parts)| && Barren(parts)[i] == parts[k].name
    else
      var i := |Contributing(parts[..k])|; i < |Contributing(parts)| && Contributing(parts)[i] == parts[k].frames
  }

  ghost predicate ArraysOf(frames: seq<Frame>) { forall i :: 0 <= i < |frames| ==> Arrays(frames[i].images) }

  lemma DecodedAreArrays(setup: Setup, frames: seq<E.SyncedFrame>, task: Task)
    requires SetupOk(setup)
    ensures ArraysOf(DecodedFrames(frames, setup.decode, task))
  {
    forall i | 0 <= i < |frames| ensures Arrays(DecodedImages(frames[i].images, setup.decode)) {
      assert forall k :: 0 <= k < |frames[i].images| ==> IsArray(setup.decode(frames[i].images[k].1));
    }
  }

  // ---- The loop ----

  /** The first `i` frames are in the current episode, and none of them was refused. */
  ghost predicate Adding(spec: FeatureSpec, frames: seq<Frame>, i: nat, current: seq<Frame>)
    requires i <= |frames|
  {
    current == frames[..i] && FirstFault(spec, frames, 0) == FirstFault(spec, frames, i)
  }

  lemma AddingOneMore(spec: FeatureSpec, frames: seq<Frame>, i: nat, current: seq<Frame>)
    requires i < |frames| && Adding(spec, frames, i, current)
    ensures if Verdict(spec, frames[i]).Added? then Adding(spec, frames, i + 1, current + [frames[i]])
            else FirstFault(spec, frames, 0) == Verdict(spec, frames[i])
  {
    assert frames[..i] + [frames[i]] == frames[..i + 1];
  }

  /** One turn of the frame loop of `_export_recording`. */
  method AddNext(writer: LeRobotV30Writer, frames: seq<Frame>, i: nat) returns (outcome: Outcome)
    requires writer.Valid() && writer.sink.Some? && i < |frames| && Arrays(frames[i].images)
    requires Adding(writer.spec, frames, i, writer.current)
    modifies writer
    ensures !outcome.Added? ==> outcome == FirstFault(writer.spec, frames, 0)
    ensures outcome.Added? ==> writer.Valid() && writer.sink.Some? && writer.done == old(writer.done)
    ensures outcome.Added? ==> Adding(writer.spec, frames, i + 1, writer.current)
  {
    AddingOneMore(writer.spec, frames, i, writer.current);
    outcome := writer.AddFrame(frames[i]);
  }

  /** The frame loop of `_export_recording`. */
  method AddFrames(writer: LeRobotV30Writer, frames: seq<Frame>) returns (outcome: Outcome)
    requires writer.Valid() && writer.sink.Some? && writer.current == [] && ArraysOf(frames)
    modifies writer
    ensures outcome == FirstFault(writer.spec, frames, 0)
    ensures outcome.Added? ==> writer.Valid() && writer.sink.Some?
    ensures outcome.Added? ==> writer.current == frames && writer.done == old(writer.done)
  {
    for i := 0 to |frames|
      invariant writer.Valid() && writer.sink.Some? && writer.done == old(writer.done)
      invariant Adding(writer.spec, frames, i, writer.current)
    {
      outcome := AddNext(writer, frames, i);
      if !outcome.Added? {
        return;
      }
    }
    assert frames[..|frames|] == frames;
    return Added;
  }

  /** `_export_recording`: every frame is added, then the episode ends; without reference timestamps nothing happens. */
  method ExportRecording(writer: LeRobotV30Writer, setup: Setup, recording: Recording) returns (outcome: Outcome)
    requires writer.Valid() && writer.sink.Some? && writer.current == []
    requires SetupOk(setup) && Readable(setup, recording)
    modifies writer
    ensures outcome == FirstFault(writer.spec, FramesOf(setup, recording), 0)
    ensures outcome.Added? ==> writer.Valid() && writer.sink.Some? && writer.current == []
    ensures outcome.Added? ==> writer.done == DoneAfter(old(writer.done), FramesOf(setup, recording))
  {
    var refs := RefsOf(setup, recording);
    if refs == [] {
      assert FramesOf(setup, recording) == [];
      return Added;
    }
    var frames := E.IterEpisodeFrames(recording.messages, setup.config, refs);
    DecodedAreArrays(setup, frames, recording.task);
    outcome := AddFrames(writer, DecodedFrames(frames, setup.decode, recording.task));
    if outcome.Added? {
      writer.EndEpisode();
    }
  }

  /** The finished episodes after one more recording. */
  ghost function DoneAfter(done: seq<seq<Frame>>, frames: seq<Frame>): seq<seq<Frame>> {
    if frames == [] then done else done + [frames]
  }

  /** One turn of the recording loop of `run_export`: a recording that leaves the frame count as it was is skipped. */
  method ExportNext(writer: LeRobotV30Writer, setup: Setup, recording: Recording, skipped: seq<RecordingName>)
    returns (outcome: Outcome, skippedNow: seq<RecordingName>)
    requires writer.Valid() && writer.sink.Some? && writer.current == []
    requires SetupOk(setup) && Readable(setup, recording)
    modifies writer
    ensures outcome == FirstFault(writer.spec, FramesOf(setup, recording), 0)
    ensures outcome.Added? ==> writer.Valid() && writer.sink.Some? && writer.current == []
    ensures outcome.Added? ==> writer.done == DoneAfter(old(writer.done), FramesOf(setup, recording))
    ensures outcome.Added? ==>
              skippedNow == if FramesOf(setup, recording) == [] then skipped + [recording.name] else skipped
  {
    var before := writer.index;
    writer.Counts();
    ghost var done := writer.done;
    FlatOneMore(done, FramesOf(setup, recording));
    outcome := ExportRecording(writer, setup, recording);
    skippedNow := skipped;
    if outcome.Added? {
      writer.Counts();
      if writer.index == before {
        skippedNow := skipped + [recording.name];
      }
    }
  }

  /** The first `i` recordings are exported: their frames are the episodes, and the barren ones are listed. */
  ghost predicate Exporting(spec: FeatureSpec, parts: seq<Contribution>, first: seq<RecordingName>, i: nat,
                            done: seq<seq<Frame>>, skipped: seq<RecordingName>)
    requires i <= |parts|
  {
    && done == Contributing(parts[..i]) && skipped == first + Barren(parts[..i])
    && FirstBadRecording(spec, parts, 0) == FirstBadRecording(spec, parts, i)
  }

  lemma ExportingOneMore(spec: FeatureSpec, parts: seq<Contribution>, first: seq<RecordingName>, i: nat,
                         done: seq<seq<Frame>>, skipped: seq<RecordingName>)
    requires i < |parts| && Exporting(spec, parts, first, i, done, skipped)
    ensures var y := parts[i];
            if FirstFault(spec, y.frames, 0).Added? then
              Exporting(spec, parts, first, i + 1, DoneAfter(done, y.frames),
                        if y.frames == [] then skipped + [y.name] else skipped)
            else
              FirstBadRecording(spec, parts, 0) == FirstFault(spec, y.frames, 0)
  {
    assert parts[..i + 1][..i] == parts[..i];
    if parts[i].frames == [] { AppendLater(first, Barren(parts[..i]), parts[i].name); }
  }

  lemma ExportingStarts(spec: FeatureSpec, parts: seq<Contribution>, first: seq<RecordingName>)
    ensures Exporting(spec, parts, first, 0, [], first)
  {
    assert parts[..0] == [] && first + [] == first;
  }

  lemma ExportingEnds(spec: FeatureSpec, parts: seq<Contribution>, first: seq<RecordingName>,
                      done: seq<seq<Frame>>, skipped: seq<RecordingName>)
    requires Exporting(spec, parts, first, |parts|, done, skipped)
    ensures FirstBadRecording(spec, parts, 0).Added?
    ensures done == Contributing(parts) && skipped == first + Barren(parts)
  {
    assert parts[..|parts|] == parts;
  }

  lemma AppendLater<T>(a: seq<T>, b: seq<T>, x: T)
    ensures a + b + [x] == a + (b + [x])
  {
  }

  /** One turn over the list of usable recordings. */
  method ExportAt(writer: LeRobotV30Writer, setup: Setup, usable: seq<Recording>, i: nat, skipped: seq<RecordingName>,
                  ghost parts: seq<Contribution>, ghost first: seq<RecordingName>)
    returns (outcome: Outcome, skippedNow: seq<RecordingName>)
    requires writer.Valid() && writer.sink.Some? && writer.current == []
    requires SetupOk(setup) && i < |usable| == |parts| && Readable(setup, usable[i])
    requires parts[i] == Contribution(usable[i].name, FramesOf(setup, usable[i]))
    requires Exporting(writer.spec, parts, first, i, writer.done, skipped)
    modifies writer
    ensures !outcome.Added? ==> outcome == FirstBadRecording(writer.spec, parts, 0)
    ensures outcome.Added? ==> writer.Valid() && writer.sink.Some? && writer.current == []
    ensures outcome.Added? ==> Exporting(writer.spec, parts, first, i + 1, writer.done, skippedNow)
  {
    ExportingOneMore(writer.spec, parts, first, i, writer.done, skipped);
    outcome, skippedNow := ExportNext(writer, setup, usable[i], skipped);
  }

  /** The recording loop of `run_export`. */
  method ExportAll(writer: LeRobotV30Writer, setup: Setup, usable: seq<Recording>, first: seq<RecordingName>,
                   ghost parts: seq<Contribution>)
    returns (outcome: Outcome, skipped: seq<RecordingName>)
    requires writer.Valid() && writer.sink.Some? && writer.current == [] && writer.done == []
    requires SetupOk(setup) && AllReadable(setup, usable) && parts == ContributionsOf(setup, usable)
    modifies writer
    ensures outcome == FirstBadRecording(writer.spec, parts, 0)
    ensures outcome.Added? ==> writer.Valid() && writer.current == []
    ensures outcome.Added? ==> writer.done == Contributing(parts) && skipped == first + Barren(parts)
  {
    skipped := first;
    ExportingStarts(writer.spec, parts, first);
    for i := 0 to |usable|
      invariant writer.Valid() && writer.sink.Some? && writer.current == []
      invariant Exporting(writer.spec, parts, first, i, writer.done, skipped)
    {
      outcome, skipped := ExportAt(writer, setup, usable, i, skipped, parts, first);
      if !outcome.Added? {
        return;
      }
    }
    ExportingEnds(writer.spec, parts, first, writer.done, skipped);
    return Added, skipped;
  }

  /** `run_export` after validation and probing, which fix `spec` and `fps`. */
  method RunExport(recordings: seq<Recording>, setup: Setup, spec: FeatureSpec) returns (result: ExportResult,
                   writer: LeRobotV30Writer)
    requires SetupOk(setup) && AllReadable(setup, Usable(recordings))
    ensures result == ExportOf(setup, spec, recordings)
    ensures fresh(writer) && writer.spec == spec && writer.fps == setup.fps
    ensures result.Exported? ==> writer.Valid() && writer.current == []
    ensures result.Exported? ==> writer.done == Contributing(ContributionsOf(setup, Usable(recordings)))
  {
    writer := new LeRobotV30Writer(setup.fps, spec);
    var usable := Usable(recordings);
    if usable == [] {
      return NoRecordings, writer;
    }
    result := ExportUsable(writer, setup, usable, WithoutMcap(recordings));
  }

  /** `run_export` from opening the writer on. */
  method ExportUsable(writer: LeRobotV30Writer, setup: Setup, usable: seq<Recording>, first: seq<RecordingName>)
    returns (result: ExportResult)
    requires writer.Valid() && writer.frames == [] && writer.current == [] && writer.done == []
    requires SetupOk(setup) && AllReadable(setup, usable)
    modifies writer
    ensures result == AnswerOf(writer.spec, ContributionsOf(setup, usable), first)
    ensures result.Exported? ==> writer.Valid() && writer.current == []
    ensures result.Exported? ==> writer.done == Contributing(ContributionsOf(setup, usable))
  {
    writer.Open();
    ghost var parts := ContributionsOf(setup, usable);
    var outcome, skipped := ExportAll(writer, setup, usable, first, parts);
    if !outcome.Added? {
      return Failed(outcome);
    }
    FramesInOrder(parts);
    result := Conclude(writer, skipped);
  }

  /** The end of `run_export`: nothing is written when no recording contributed. */
  method Conclude(writer: LeRobotV30Writer, skipped: seq<RecordingName>) returns (result: ExportResult)
    requires writer.Valid() && writer.current == []
    modifies writer
    ensures writer.Valid() && writer.current == [] && writer.done == old(writer.done)
    ensures var frames := Flat(writer.done);
            result == if frames == [] then NoFrames else Exported(|writer.done|, |frames|, skipped)
  {
    writer.Counts();
    if writer.index == 0 {
      return NoFrames;
    }
    var _ := writer.Close();
    return Exported(writer.episodeCounter, writer.index, skipped);
  }
}
