/** What an exported dataset says about its recordings: no row lacks a camera or a field, every column holds the frames'
    own values, and the dataset statistics combine those of the episodes. */
module DatasetExportTheorems {
  import opened Sequences
  import opened Statistics
  import opened ImageStatistics
  import opened DatasetFrames
  import opened DatasetWriter
  import opened DatasetTheorems
  import opened DatasetExport
  import E = EpisodeFrames

  /** The probe has a shape for exactly the configured cameras and fields. */
  ghost predicate Probed(spec: FeatureSpec, config: E.Config) {
    && (forall name :: name in spec.observationFields <==> name in FieldNames(config))
    && (forall camera :: camera in spec.imageShapes <==> camera in CameraNames(config))
  }

  function FieldNames(config: E.Config): (r: seq<E.FieldName>)
    ensures |r| == |config.observation| && forall f :: 0 <= f < |r| ==> r[f] == config.observation[f].name
  {
    seq(|config.observation|, f requires 0 <= f < |config.observation| => config.observation[f].name)
  }

  function CameraNames(config: E.Config): (r: seq<E.Camera>)
    ensures |r| == |config.images| && forall c :: 0 <= c < |r| ==> r[c] == config.images[c].camera
  {
    seq(|config.images|, c requires 0 <= c < |config.images| => config.images[c].camera)
  }

  // ---- Every frame carries every camera and field ----

  ghost predicate Carries(frame: Frame, config: E.Config) {
    && (forall name :: name in FieldNames(config) ==> HasOne(frame, name))
    && (forall camera :: camera in CameraNames(config) ==> ImagesIn(frame.images, camera) != [])
    && forall i :: 0 <= i < |frame.images| ==> IsArray(frame.images[i].1)
  }

  /** The frame has exactly one vector of the field. */
  predicate HasOne(frame: Frame, name: E.FieldName) { |ValuesIn(frame.observations, name)| == 1 }

  lemma {:induction false} OtherNames(vectors: seq<NamedVector>, name: E.FieldName)
    requires forall i :: 0 <= i < |vectors| ==> vectors[i].0 != name
    ensures ValuesIn(vectors, name) == []
  {
    if vectors != [] { OtherNames(vectors[..|vectors| - 1], name); }
  }

  lemma {:induction false} OwnName(vectors: seq<NamedVector>, i: nat)
    requires i < |vectors| && forall j, k :: 0 <= j < k < |vectors| ==> vectors[j].0 != vectors[k].0
    ensures ValuesIn(vectors, vectors[i].0) == [vectors[i].1]
  {
    var n := |vectors| - 1;
    if i == n { OtherNames(vectors[..n], vectors[n].0); } else { OwnName(vectors[..n], i); }
  }

  lemma {:induction false} ImageIsIn(images: seq<NamedImage>, i: nat)
    requires i < |images|
    ensures images[i].1 in ImagesIn(images, images[i].0)
  {
    if i < |images| - 1 { ImageIsIn(images[..|images| - 1], i); }
  }

  lemma CompleteFrameCarries(setup: Setup, frame: E.SyncedFrame, task: Task)
    requires SetupOk(setup) && E.Complete(frame, setup.config)
    ensures Carries(DecodedFrame(frame, setup.decode, task), setup.config)
  {
    var config, decoded := setup.config, DecodedFrame(frame, setup.decode, task);
    forall name | name in FieldNames(config) ensures HasOne(decoded, name) {
      var f :| 0 <= f < |config.observation| && FieldNames(config)[f] == name;
      OwnName(decoded.observations, f);
    }
    forall camera | camera in CameraNames(config) ensures ImagesIn(decoded.images, camera) != [] {
      var c :| 0 <= c < |config.images| && CameraNames(config)[c] == camera;
      ImageIsIn(decoded.images, c);
    }
    assert forall i :: 0 <= i < |decoded.images| ==> IsArray(setup.decode(frame.images[i].1));
  }

  ghost predicate AllCarry(frames: seq<Frame>, config: E.Config) {
    forall i :: 0 <= i < |frames| ==> Carries(frames[i], config)
  }

  lemma FramesCarry(setup: Setup, recording: Recording)
    requires SetupOk(setup) && Readable(setup, recording)
    ensures AllCarry(FramesOf(setup, recording), setup.config)
  {
    var refs := RefsOf(setup, recording);
    var synced := E.EpisodeOf(recording.messages, setup.config, refs);
    forall i | 0 <= i < |synced| ensures Carries(FramesOf(setup, recording)[i], setup.config) {
      E.EmittedFramesAreComplete(recording.messages, setup.config, refs, i);
      CompleteFrameCarries(setup, synced[i], recording.task);
    }
  }

  /** No frame of any exported recording lacks a configured camera or field. */
  lemma {:induction false} EpisodesCarry(parts: seq<Contribution>, config: E.Config, k: nat)
    requires forall j :: 0 <= j < |parts| ==> AllCarry(parts[j].frames, config)
    requires k < |Contributing(parts)|
    ensures Contributing(parts)[k] != [] && AllCarry(Contributing(parts)[k], config)
  {
    var n := |parts| - 1;
    if k < |Contributing(parts[..n])| { EpisodesCarry(parts[..n], config, k); }
  }

  lemma ExportedEpisodesCarry(setup: Setup, recordings: seq<Recording>, k: nat)
    requires SetupOk(setup) && AllReadable(setup, recordings)
    requires k < |Contributing(ContributionsOf(setup, recordings))|
    ensures var episode := Contributing(ContributionsOf(setup, recordings))[k];
            episode != [] && AllCarry(episode, setup.config)
  {
    var parts := ContributionsOf(setup, recordings);
    forall j | 0 <= j < |parts| ensures AllCarry(parts[j].frames, setup.config) {
      FramesCarry(setup, recordings[j]);
    }
    EpisodesCarry(parts, setup.config, k);
  }

  lemma ExportCarries(setup: Setup, recordings: seq<Recording>)
    requires SetupOk(setup) && AllReadable(setup, Usable(recordings))
    ensures var done := Contributing(ContributionsOf(setup, Usable(recordings)));
            forall k :: 0 <= k < |done| ==> AllCarry(done[k], setup.config)
  {
    var done := Contributing(ContributionsOf(setup, Usable(recordings)));
    forall k | 0 <= k < |done| ensures AllCarry(done[k], setup.config) {
      ExportedEpisodesCarry(setup, Usable(recordings), k);
    }
  }

  // ---- Statistics ----

  /** The component has samples in every frame: a camera without pixels is the only exception. */
  predicate HasSamples(spec: FeatureSpec, x: Component)
    requires HasComponent(spec, x)
  {
    x.VideoChannel? ==> Area(spec.imageShapes[x.camera]) > 0
  }

  lemma {:induction false} ChannelPixelsCount(images: seq<Image>, channels: nat, c: nat)
    requires AllHaveChannels(images, channels) && c < channels && images != []
    ensures |ChannelPixels(images, channels, c)| >= |images[|images| - 1].pixels|
  {
  }

  lemma FrameHasSamples(spec: FeatureSpec, config: E.Config, frame: Frame, x: Component)
    requires Probed(spec, config) && Carries(frame, config) && FrameFits(spec, frame)
    requires HasComponent(spec, x) && HasSamples(spec, x)
    ensures FrameSamples(spec, frame, x) != []
  {
    match x
    case ActionDim(_) =>
    case ObservationDim(name, d) =>
      ValuesInFit(spec, frame.observations, name);
      assert HasOne(frame, name);
      assert |Entries(spec, frame.observations, name, d)| == |ValuesIn(frame.observations, name)|;
    case VideoChannel(camera, c) => VideoHasSamples(spec, frame.images, camera, c);
  }

  lemma VideoHasSamples(spec: FeatureSpec, images: seq<NamedImage>, camera: E.Camera, c: nat)
    requires Arrays(images) && ImagesFit(spec, images) && HasComponent(spec, VideoChannel(camera, c))
    requires ImagesIn(images, camera) != [] && Area(spec.imageShapes[camera]) > 0
    requires forall i :: 0 <= i < |images| ==> IsArray(images[i].1)
    ensures Pixels(spec, images, camera, c) != []
  {
    var own := ImagesIn(images, camera);
    ImagesInFit(spec, images, camera);
    ImagesInAreOwn(spec, images, camera);
    assert own[|own| - 1] in own;
    ChannelPixelsCount(own, spec.imageShapes[camera].channels, c);
  }

  lemma {:induction false} ImagesInAreOwn(spec: FeatureSpec, images: seq<NamedImage>, camera: E.Camera)
    requires ImagesFit(spec, images) && camera in spec.imageShapes
    requires forall i :: 0 <= i < |images| ==> IsArray(images[i].1)
    ensures forall image :: image in ImagesIn(images, camera) ==> |image.pixels| == Area(spec.imageShapes[camera])
  {
    if images != [] {
      var last := images[|images| - 1];
      ImagesInAreOwn(spec, images[..|images| - 1], camera);
      assert ImageVerdict(spec, last).Added? && IsArray(last.1);
    }
  }

  lemma EpisodeHasSamples(spec: FeatureSpec, config: E.Config, frames: seq<Frame>, x: Component)
    requires Probed(spec, config) && AllCarry(frames, config) && FramesFit(spec, frames) && frames != []
    requires HasComponent(spec, x) && HasSamples(spec, x)
    ensures Samples(spec, frames, x) != []
  {
    FrameHasSamples(spec, config, frames[|frames| - 1], x);
    SamplesOfLast(spec, frames, x);
  }

  lemma EpisodesHaveSamples(episodes: seq<Episode>, done: seq<seq<Frame>>, spec: FeatureSpec, fps: nat,
                            config: E.Config, x: Component)
    requires fps > 0 && EpisodesOk(episodes, done, spec, fps) && Probed(spec, config)
    requires forall k :: 0 <= k < |done| ==> AllCarry(done[k], config)
    requires HasComponent(spec, x) && HasSamples(spec, x)
    ensures forall k :: 0 <= k < |done| ==> Parts(spec, done, x)[k] != []
  {
    forall k | 0 <= k < |done| ensures Parts(spec, done, x)[k] != [] {
      EpisodeAt(episodes, done, spec, fps, k);
      EpisodeHasSamples(spec, config, done[k], x);
    }
  }

  /** In an exported dataset the statistics of every action, observation and image component with pixels are those of
      the episodes combined: the extreme of the extremes, and mean and mean square weighted by sample counts. */
  lemma ExportedStatsCombine(w: LeRobotV30Writer, setup: Setup, recordings: seq<Recording>, x: Component)
    requires SetupOk(setup) && AllReadable(setup, Usable(recordings)) && Probed(w.spec, setup.config)
    requires w.Valid() && w.current == [] && w.done != []
    requires w.done == Contributing(ContributionsOf(setup, Usable(recordings)))
    requires HasComponent(w.spec, x) && HasSamples(w.spec, x)
    ensures Publishes(StatsOf(w.globalStats), x) && AllPublish(w.episodes, x)
    ensures Combines(StatAt(StatsOf(w.globalStats), x), EpisodeStats(w.episodes, x), Parts(w.spec, w.done, x))
  {
    FinishedFrames(w);
    ExportCarries(setup, recordings);
    EpisodesHaveSamples(w.episodes, w.done, w.spec, w.fps, setup.config, x);
    GlobalStatsCombineEpisodes(w.episodes, w.done, w.spec, w.fps, w.globalStats, x);
  }

  // ---- Columns ----

  /** When every frame has one vector of a field, row `i` of its column is the vector of frame `i`. */
  lemma {:induction false} ColumnFollowsRows(frames: seq<Frame>, name: E.FieldName, i: nat)
    requires forall j :: 0 <= j < |frames| ==> HasOne(frames[j], name)
    requires i < |frames|
    ensures |ValuesIn(AllObservations(frames), name)| == |frames|
    ensures [ValuesIn(AllObservations(frames), name)[i]] == ValuesIn(frames[i].observations, name)
  {
    var n := |frames| - 1;
    ValuesInAppend(AllObservations(frames[..n]), frames[n].observations, name);
    assert HasOne(frames[n], name);
    if n > 0 {
      ColumnFollowsRows(frames[..n], name, if i < n then i else 0);
    } else {
      assert AllObservations(frames[..0]) == [];
    }
  }

  lemma {:induction false} FlattenedCarry(done: seq<seq<Frame>>, config: E.Config)
    requires forall k :: 0 <= k < |done| ==> AllCarry(done[k], config)
    ensures AllCarry(Flat(done), config)
  {
    if done != [] { FlattenedCarry(done[..|done| - 1], config); }
  }

  lemma CarriedColumn(done: seq<seq<Frame>>, config: E.Config, name: E.FieldName, i: nat)
    requires forall k :: 0 <= k < |done| ==> AllCarry(done[k], config)
    requires name in FieldNames(config) && i < |Flat(done)|
    ensures var frames := Flat(done); var column := ValuesIn(AllObservations(frames), name);
            |column| == |frames| && [column[i]] == ValuesIn(frames[i].observations, name)
  {
    var frames := Flat(done);
    FlattenedCarry(done, config);
    forall j | 0 <= j < |frames| ensures HasOne(frames[j], name) { assert Carries(frames[j], config); }
    ColumnFollowsRows(frames, name, i);
  }

  lemma ExportedColumn(setup: Setup, recordings: seq<Recording>, name: E.FieldName, i: nat)
    requires SetupOk(setup) && AllReadable(setup, Usable(recordings)) && name in FieldNames(setup.config)
    requires i < |Flat(Contributing(ContributionsOf(setup, Usable(recordings))))|
    ensures var frames := Flat(Contributing(ContributionsOf(setup, Usable(recordings))));
            var column := ValuesIn(AllObservations(frames), name);
            |column| == |frames| && [column[i]] == ValuesIn(frames[i].observations, name)
  {
    ExportCarries(setup, recordings);
    CarriedColumn(Contributing(ContributionsOf(setup, Usable(recordings))), setup.config, name, i);
  }

  /** In an exported dataset, row `i` of every observation column is the vector of frame `i`. */
  lemma ExportedColumns(w: LeRobotV30Writer, setup: Setup, recordings: seq<Recording>, name: E.FieldName, i: nat)
    requires SetupOk(setup) && AllReadable(setup, Usable(recordings)) && Probed(w.spec, setup.config)
    requires w.Valid() && w.current == [] && i < w.index && name in w.spec.observationFields
    requires w.done == Contributing(ContributionsOf(setup, Usable(recordings)))
    ensures name in w.obs && |w.obs[name]| == w.index == |w.frames|
    ensures [w.obs[name][i]] == ValuesIn(w.frames[i].observations, name)
  {
    WriterColumns(w);
    FinishedFrames(w);
    ExportedColumn(setup, recordings, name, i);
  }
}
