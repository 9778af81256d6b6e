/** The frames of a dataset, the running statistics over them, and what the published statistics say about them. */
module DatasetFrames {
  import opened Numbers
  import opened Sequences
  import opened Statistics
  import opened ImageStatistics
  import E = EpisodeFrames

  type Task(==,!new)

  /** `FeatureSpec`: the shapes probed from the first recording. */
  datatype FeatureSpec = FeatureSpec(imageShapes: map<E.Camera, Shape>, observationFields: map<E.FieldName, nat>,
                                     actionDim: nat)

  type NamedImage = (E.Camera, Image)

  type NamedVector = (E.FieldName, Vector)

  datatype Frame = Frame(images: seq<NamedImage>, action: Vector, observations: seq<NamedVector>, task: Task)

  /** An image array has as many values per pixel as its shape says. */
  ghost predicate Arrays(images: seq<NamedImage>) {
    forall i :: 0 <= i < |images| ==> HasChannels(images[i].1, images[i].1.shape.channels)
  }

  // ---- What a frame is checked for ----

  datatype Outcome =
    | Added
    | NotOpened
    | UnknownCamera
    | ImageShapeMismatch
    | ActionDimMismatch
    | UnknownField
    | ObservationDimMismatch

  function ImageVerdict(spec: FeatureSpec, image: NamedImage): Outcome {
    if image.0 !in spec.imageShapes then UnknownCamera
    else if image.1.shape != spec.imageShapes[image.0] then ImageShapeMismatch
    else Added
  }

  function VectorVerdict(spec: FeatureSpec, v: NamedVector): Outcome {
    if v.0 !in spec.observationFields then UnknownField
    else if |v.1| != spec.observationFields[v.0] then ObservationDimMismatch
    else Added
  }

  function ImagesVerdict(spec: FeatureSpec, images: seq<NamedImage>, i: nat): Outcome
    requires i <= |images|
    decreases |images| - i
  {
    if i == |images| then Added
    else if ImageVerdict(spec, images[i]).Added? then ImagesVerdict(spec, images, i + 1)
    else ImageVerdict(spec, images[i])
  }

  function VectorsVerdict(spec: FeatureSpec, vectors: seq<NamedVector>, i: nat): Outcome
    requires i <= |vectors|
    decreases |vectors| - i
  {
    if i == |vectors| then Added
    else if VectorVerdict(spec, vectors[i]).Added? then VectorsVerdict(spec, vectors, i + 1)
    else VectorVerdict(spec, vectors[i])
  }

  /** The first complaint about a frame: its images in order, its action, its observations in order. */
  function Verdict(spec: FeatureSpec, frame: Frame): Outcome {
    if !ImagesVerdict(spec, frame.images, 0).Added? then ImagesVerdict(spec, frame.images, 0)
    else if |frame.action| != spec.actionDim then ActionDimMismatch
    else VectorsVerdict(spec, frame.observations, 0)
  }

  ghost predicate ImagesFit(spec: FeatureSpec, images: seq<NamedImage>) {
    forall i :: 0 <= i < |images| ==> ImageVerdict(spec, images[i]).Added?
  }

  ghost predicate VectorsFit(spec: FeatureSpec, vectors: seq<NamedVector>) {
    forall i :: 0 <= i < |vectors| ==> VectorVerdict(spec, vectors[i]).Added?
  }

  /** The frame has exactly the shapes of the spec. */
  ghost predicate FrameFits(spec: FeatureSpec, frame: Frame) {
    && Arrays(frame.images) && ImagesFit(spec, frame.images)
    && |frame.action| == spec.actionDim
    && VectorsFit(spec, frame.observations)
  }

  ghost predicate FramesFit(spec: FeatureSpec, frames: seq<Frame>) {
    frames == [] || (FramesFit(spec, frames[..|frames| - 1]) && FrameFits(spec, frames[|frames| - 1]))
  }

  lemma {:induction false} ImagesVerdictFits(spec: FeatureSpec, images: seq<NamedImage>, i: nat)
    requires i <= |images|
    ensures ImagesVerdict(spec, images, i).Added? <==>
            forall j :: i <= j < |images| ==> ImageVerdict(spec, images[j]).Added?
    decreases |images| - i
  {
    if i < |images| { ImagesVerdictFits(spec, images, i + 1); }
  }

  lemma {:induction false} VectorsVerdictFits(spec: FeatureSpec, vectors: seq<NamedVector>, i: nat)
    requires i <= |vectors|
    ensures VectorsVerdict(spec, vectors, i).Added? <==>
            forall j :: i <= j < |vectors| ==> VectorVerdict(spec, vectors[j]).Added?
    decreases |vectors| - i
  {
    if i < |vectors| { VectorsVerdictFits(spec, vectors, i + 1); }
  }

  /** A frame is taken exactly when every image, the action and every observation has the probed shape. */
  lemma VerdictFits(spec: FeatureSpec, frame: Frame)
    requires Arrays(frame.images)
    ensures Verdict(spec, frame).Added? <==> FrameFits(spec, frame)
  {
    ImagesVerdictFits(spec, frame.images, 0);
    VectorsVerdictFits(spec, frame.observations, 0);
  }

  // ---- The values of one feature ----

  /** The images of one camera, in order. */
  function ImagesIn(images: seq<NamedImage>, camera: E.Camera): seq<Image> {
    if images == [] then []
    else
      var last := images[|images| - 1];
      ImagesIn(images[..|images| - 1], camera) + if last.0 == camera then [last.1] else []
  }

  function ValuesIn(vectors: seq<NamedVector>, name: E.FieldName): seq<Vector> {
    if vectors == [] then []
    else
      var last := vectors[|vectors| - 1];
      ValuesIn(vectors[..|vectors| - 1], name) + if last.0 == name then [last.1] else []
  }

  function AllImages(frames: seq<Frame>): seq<NamedImage> {
    if frames == [] then [] else AllImages(frames[..|frames| - 1]) + frames[|frames| - 1].images
  }

  function AllObservations(frames: seq<Frame>): seq<NamedVector> {
    if frames == [] then [] else AllObservations(frames[..|frames| - 1]) + frames[|frames| - 1].observations
  }

  function ActionsOf(frames: seq<Frame>): (r: seq<Vector>)
    ensures |r| == |frames| && forall i :: 0 <= i < |r| ==> r[i] == frames[i].action
  {
    seq(|frames|, i requires 0 <= i < |frames| => frames[i].action)
  }

  lemma {:induction false} ImagesInFit(spec: FeatureSpec, images: seq<NamedImage>, camera: E.Camera)
    requires Arrays(images) && ImagesFit(spec, images) && camera in spec.imageShapes
    ensures AllHaveChannels(ImagesIn(images, camera), spec.imageShapes[camera].channels)
  {
    if images != [] {
      ImagesInFit(spec, images[..|images| - 1], camera);
      assert ImageVerdict(spec, images[|images| - 1]).Added?;
    }
  }

  lemma {:induction false} ValuesInFit(spec: FeatureSpec, vectors: seq<NamedVector>, name: E.FieldName)
    requires VectorsFit(spec, vectors) && name in spec.observationFields
    ensures Fits(ValuesIn(vectors, name), spec.observationFields[name])
  {
    if vectors != [] {
      ValuesInFit(spec, vectors[..|vectors| - 1], name);
      assert VectorVerdict(spec, vectors[|vectors| - 1]).Added?;
    }
  }

  lemma {:induction false} AllImagesFit(spec: FeatureSpec, frames: seq<Frame>)
    requires FramesFit(spec, frames)
    ensures Arrays(AllImages(frames)) && ImagesFit(spec, AllImages(frames))
  {
    if frames != [] {
      AllImagesFit(spec, frames[..|frames| - 1]);
      assert FrameFits(spec, frames[|frames| - 1]);
    }
  }

  lemma {:induction false} AllObservationsFit(spec: FeatureSpec, frames: seq<Frame>)
    requires FramesFit(spec, frames)
    ensures VectorsFit(spec, AllObservations(frames))
  {
    if frames != [] {
      AllObservationsFit(spec, frames[..|frames| - 1]);
      assert FrameFits(spec, frames[|frames| - 1]);
    }
  }

  lemma {:induction false} AllActionsFit(spec: FeatureSpec, frames: seq<Frame>)
    requires FramesFit(spec, frames)
    ensures Fits(ActionsOf(frames), spec.actionDim)
  {
    if frames != [] {
      AllActionsFit(spec, frames[..|frames| - 1]);
      assert FrameFits(spec, frames[|frames| - 1]);
    }
  }

  function TasksIn(frames: seq<Frame>): set<Task> {
    if frames == [] then {} else TasksIn(frames[..|frames| - 1]) + {frames[|frames| - 1].task}
  }

  // ---- Running statistics ----

  /** The accumulators of one scope (the dataset or the current episode), by feature. */
  datatype Accumulators = Accumulators(action: VectorSums, observations: map<E.FieldName, VectorSums>,
                                       images: map<E.Camera, ImageSums>)

  /** `_new_accumulators`. */
  function NewAccumulators(spec: FeatureSpec): Accumulators {
    Accumulators(NewVectorSums(spec.actionDim),
                 map name | name in spec.observationFields :: NewVectorSums(spec.observationFields[name]),
                 map camera | camera in spec.imageShapes :: NewImageSums(spec.imageShapes[camera].channels))
  }

  ghost predicate FoldsImages(acc: map<E.Camera, ImageSums>, spec: FeatureSpec, images: seq<NamedImage>) {
    && acc.Keys == spec.imageShapes.Keys
    && forall camera :: camera in spec.imageShapes ==>
         FoldsCamera(acc[camera], ImagesIn(images, camera), spec.imageShapes[camera].channels)
  }

  ghost predicate FoldsCamera(sums: ImageSums, images: seq<Image>, channels: nat) {
    AllHaveChannels(images, channels) && sums == FoldImages(images, channels)
  }

  ghost predicate FoldsValues(acc: map<E.FieldName, VectorSums>, spec: FeatureSpec, vectors: seq<NamedVector>) {
    && acc.Keys == spec.observationFields.Keys
    && forall name :: name in spec.observationFields ==>
         FoldsField(acc[name], ValuesIn(vectors, name), spec.observationFields[name])
  }

  ghost predicate FoldsField(sums: VectorSums, values: seq<Vector>, dim: nat) {
    Fits(values, dim) && sums == FoldVectors(values, dim)
  }

  ghost predicate FoldsActions(acc: VectorSums, spec: FeatureSpec, frames: seq<Frame>) {
    Fits(ActionsOf(frames), spec.actionDim) && acc == FoldVectors(ActionsOf(frames), spec.actionDim)
  }

  /** The accumulators hold exactly these frames. */
  ghost predicate Accumulates(acc: Accumulators, spec: FeatureSpec, frames: seq<Frame>) {
    && FoldsActions(acc.action, spec, frames)
    && FoldsValues(acc.observations, spec, AllObservations(frames))
    && FoldsImages(acc.images, spec, AllImages(frames))
  }

  lemma NewAccumulatesNothing(spec: FeatureSpec)
    ensures Accumulates(NewAccumulators(spec), spec, [])
  {
    assert ActionsOf([]) == [];
  }

  /** Folding one image's histogram into its camera; the guard holds for every image that passes the checks. */
  function FoldImage(acc: map<E.Camera, ImageSums>, camera: E.Camera, h: seq<seq<nat>>): map<E.Camera, ImageSums> {
    if camera in acc && IsHistogram(acc[camera].histogram, |h|) && IsHistogram(h, |h|)
    then acc[camera := AddHistogram(acc[camera], h, |h|)]
    else acc
  }

  function HistogramOf(image: Image): seq<seq<nat>>
    requires HasChannels(image, image.shape.channels)
  {
    Histogram(image, image.shape.channels)
  }

  /** The image accumulators after a run of images. */
  ghost function FoldAllImages(acc: map<E.Camera, ImageSums>, images: seq<NamedImage>): map<E.Camera, ImageSums>
    requires Arrays(images)
  {
    if images == [] then acc
    else
      var last := images[|images| - 1];
      FoldImage(FoldAllImages(acc, images[..|images| - 1]), last.0, HistogramOf(last.1))
  }

  lemma OneMoreImage(images: seq<NamedImage>, image: NamedImage, camera: E.Camera)
    ensures ImagesIn(images + [image], camera) ==
            if camera == image.0 then ImagesIn(images, camera) + [image.1] else ImagesIn(images, camera)
  {
    assert (images + [image])[..|images|] == images;
  }

  lemma FoldsOneMoreImage(acc: map<E.Camera, ImageSums>, spec: FeatureSpec, images: seq<NamedImage>, image: NamedImage)
    requires FoldsImages(acc, spec, images) && ImageVerdict(spec, image).Added?
    requires HasChannels(image.1, image.1.shape.channels)
    ensures FoldsImages(FoldImage(acc, image.0, HistogramOf(image.1)), spec, images + [image])
  {
    var r := FoldImage(acc, image.0, HistogramOf(image.1));
    forall camera | camera in spec.imageShapes
      ensures FoldsCamera(r[camera], ImagesIn(images + [image], camera), spec.imageShapes[camera].channels)
    {
      assert FoldsCamera(acc[camera], ImagesIn(images, camera), spec.imageShapes[camera].channels);
      OneMoreImage(images, image, camera);
      if camera == image.0 { FoldOneMoreImage(ImagesIn(images, camera), image.1, image.1.shape.channels); }
    }
  }

  lemma {:induction false} FoldsMoreImages(acc: map<E.Camera, ImageSums>, spec: FeatureSpec, before: seq<NamedImage>,
                                           images: seq<NamedImage>)
    requires FoldsImages(acc, spec, before) && Arrays(images) && ImagesFit(spec, images)
    ensures FoldsImages(FoldAllImages(acc, images), spec, before + images)
  {
    if images == [] {
      assert before + images == before;
    } else {
      var n := |images| - 1;
      var init, last := images[..n], images[n];
      Associates(before, init, [last]);
      assert images == init + [last];
      assert ImageVerdict(spec, last).Added?;
      FoldsMoreImages(acc, spec, before, init);
      FoldsOneMoreImage(FoldAllImages(acc, init), spec, before + init, last);
    }
  }

  /** Folding one vector into its field; the guard holds for every vector that passes the checks. */
  function FoldValue(acc: map<E.FieldName, VectorSums>, v: NamedVector): map<E.FieldName, VectorSums> {
    if v.0 in acc && HasDim(acc[v.0], |v.1|) then acc[v.0 := AddVector(acc[v.0], v.1)] else acc
  }

  ghost function FoldAllValues(acc: map<E.FieldName, VectorSums>, vectors: seq<NamedVector>)
    : map<E.FieldName, VectorSums>
  {
    if vectors == [] then acc else FoldValue(FoldAllValues(acc, vectors[..|vectors| - 1]), vectors[|vectors| - 1])
  }

  lemma OneMoreValue(vectors: seq<NamedVector>, v: NamedVector, name: E.FieldName)
    ensures ValuesIn(vectors + [v], name) ==
            if name == v.0 then ValuesIn(vectors, name) + [v.1] else ValuesIn(vectors, name)
  {
    assert (vectors + [v])[..|vectors|] == vectors;
  }

  lemma FoldsOneMoreValue(acc: map<E.FieldName, VectorSums>, spec: FeatureSpec, vectors: seq<NamedVector>,
                          v: NamedVector)
    requires FoldsValues(acc, spec, vectors) && VectorVerdict(spec, v).Added?
    ensures FoldsValues(FoldValue(acc, v), spec, vectors + [v])
  {
    var r := FoldValue(acc, v);
    forall name | name in spec.observationFields
      ensures FoldsField(r[name], ValuesIn(vectors + [v], name), spec.observationFields[name])
    {
      assert FoldsField(acc[name], ValuesIn(vectors, name), spec.observationFields[name]);
      OneMoreValue(vectors, v, name);
      if name == v.0 { FoldOneMoreVector(ValuesIn(vectors, name), v.1, spec.observationFields[name]); }
    }
  }

  lemma {:induction false} FoldsMoreValues(acc: map<E.FieldName, VectorSums>, spec: FeatureSpec,
                                           before: seq<NamedVector>, vectors: seq<NamedVector>)
    requires FoldsValues(acc, spec, before) && VectorsFit(spec, vectors)
    ensures FoldsValues(FoldAllValues(acc, vectors), spec, before + vectors)
  {
    if vectors == [] {
      assert before + vectors == before;
    } else {
      var n := |vectors| - 1;
      var init, last := vectors[..n], vectors[n];
      Associates(before, init, [last]);
      assert vectors == init + [last];
      assert VectorVerdict(spec, last).Added?;
      FoldsMoreValues(acc, spec, before, init);
      FoldsOneMoreValue(FoldAllValues(acc, init), spec, before + init, last);
    }
  }

  lemma FoldsOneMoreAction(acc: VectorSums, spec: FeatureSpec, frames: seq<Frame>, frame: Frame)
    requires FoldsActions(acc, spec, frames) && |frame.action| == spec.actionDim
    ensures FoldsActions(AddVector(acc, frame.action), spec, frames + [frame])
  {
    assert ActionsOf(frames + [frame])[..|frames|] == ActionsOf(frames);
  }

  /** The accumulators after one more frame. */
  ghost function Absorb(acc: Accumulators, frame: Frame): Accumulators
    requires Arrays(frame.images) && HasDim(acc.action, |frame.action|)
  {
    Accumulators(AddVector(acc.action, frame.action),
                 FoldAllValues(acc.observations, frame.observations),
                 FoldAllImages(acc.images, frame.images))
  }

  lemma AllOneMore(frames: seq<Frame>, frame: Frame)
    ensures AllImages(frames + [frame]) == AllImages(frames) + frame.images
    ensures AllObservations(frames + [frame]) == AllObservations(frames) + frame.observations
    ensures ActionsOf(frames + [frame]) == ActionsOf(frames) + [frame.action]
  {
    assert (frames + [frame])[..|frames|] == frames;
  }

  lemma AccumulatesOneMore(acc: Accumulators, spec: FeatureSpec, frames: seq<Frame>, frame: Frame)
    requires Accumulates(acc, spec, frames) && FrameFits(spec, frame)
    ensures HasDim(acc.action, |frame.action|) && Accumulates(Absorb(acc, frame), spec, frames + [frame])
  {
    FoldsOneMoreAction(acc.action, spec, frames, frame);
    FoldsMoreValues(acc.observations, spec, AllObservations(frames), frame.observations);
    FoldsMoreImages(acc.images, spec, AllImages(frames), frame.images);
    AllOneMore(frames, frame);
  }

  /** The accumulators after a run of frames. */
  ghost function AbsorbAll(spec: FeatureSpec, frames: seq<Frame>): (r: Accumulators)
    requires FramesFit(spec, frames)
    ensures HasDim(r.action, spec.actionDim)
  {
    if frames == [] then NewAccumulators(spec)
    else
      var last := frames[|frames| - 1];
      assert FrameFits(spec, last);
      Absorb(AbsorbAll(spec, frames[..|frames| - 1]), last)
  }

  lemma AbsorbOneMore(spec: FeatureSpec, frames: seq<Frame>, frame: Frame)
    requires FramesFit(spec, frames) && FrameFits(spec, frame)
    ensures FramesFit(spec, frames + [frame])
    ensures AbsorbAll(spec, frames + [frame]) == Absorb(AbsorbAll(spec, frames), frame)
  {
    assert (frames + [frame])[..|frames|] == frames;
  }

  lemma {:induction false} AbsorbAllAccumulates(spec: FeatureSpec, frames: seq<Frame>)
    requires FramesFit(spec, frames)
    ensures Accumulates(AbsorbAll(spec, frames), spec, frames)
  {
    if frames == [] {
      NewAccumulatesNothing(spec);
    } else {
      var init, last := frames[..|frames| - 1], frames[|frames| - 1];
      AbsorbAllAccumulates(spec, init);
      assert init + [last] == frames;
      AccumulatesOneMore(AbsorbAll(spec, init), spec, init, last);
    }
  }

  // ---- Published statistics ----

  /** One component of a feature: a dimension of a vector or a channel of a camera. */
  datatype Component =
    | ActionDim(d: nat)
    | ObservationDim(name: E.FieldName, d: nat)
    | VideoChannel(camera: E.Camera, c: nat)

  predicate HasComponent(spec: FeatureSpec, x: Component) {
    match x
    case ActionDim(d) => d < spec.actionDim
    case ObservationDim(name, d) => name in spec.observationFields && d < spec.observationFields[name]
    case VideoChannel(camera, c) => camera in spec.imageShapes && c < spec.imageShapes[camera].channels
  }

  /** The published statistics of every feature, one entry per component. */
  datatype FeatureStats =
    FeatureStats(action: seq<Stat>, observations: map<E.FieldName, seq<Stat>>, images: map<E.Camera, seq<Stat>>)

  function VectorStatsOf(s: VectorSums): seq<Stat> {
    if HasDim(s, |s.sum|) then seq(|s.sum|, d requires 0 <= d < |s.sum| => VectorStat(s, d)) else []
  }

  function ImageStatsOf(s: ImageSums): seq<Stat> {
    if IsHistogram(s.histogram, |s.histogram|)
    then seq(|s.histogram|, c requires 0 <= c < |s.histogram| => ImageStat(s.histogram[c]))
    else []
  }

  /** `{feature: accum.stats()}`. */
  function StatsOf(acc: Accumulators): FeatureStats {
    FeatureStats(VectorStatsOf(acc.action),
                 map name | name in acc.observations :: VectorStatsOf(acc.observations[name]),
                 map camera | camera in acc.images :: ImageStatsOf(acc.images[camera]))
  }

  ghost predicate Publishes(stats: FeatureStats, x: Component) {
    match x
    case ActionDim(d) => d < |stats.action|
    case ObservationDim(name, d) => name in stats.observations && d < |stats.observations[name]|
    case VideoChannel(camera, c) => camera in stats.images && c < |stats.images[camera]|
  }

  ghost function StatAt(stats: FeatureStats, x: Component): Stat
    requires Publishes(stats, x)
  {
    match x
    case ActionDim(d) => stats.action[d]
    case ObservationDim(name, d) => stats.observations[name][d]
    case VideoChannel(camera, c) => stats.images[camera][c]
  }

  /** One dimension of the values of a field. */
  ghost function Entries(spec: FeatureSpec, vectors: seq<NamedVector>, name: E.FieldName, d: nat): seq<real>
    requires VectorsFit(spec, vectors) && HasComponent(spec, ObservationDim(name, d))
  {
    ValuesInFit(spec, vectors, name);
    Statistics.Component(ValuesIn(vectors, name), spec.observationFields[name], d)
  }

  /** One channel of the pixels of a camera. */
  ghost function Pixels(spec: FeatureSpec, images: seq<NamedImage>, camera: E.Camera, c: nat): seq<Byte>
    requires Arrays(images) && ImagesFit(spec, images) && HasComponent(spec, VideoChannel(camera, c))
  {
    ImagesInFit(spec, images, camera);
    ChannelPixels(ImagesIn(images, camera), spec.imageShapes[camera].channels, c)
  }

  /** What one frame contributes to a component; a frame without the probed shapes contributes nothing. */
  ghost function FrameSamples(spec: FeatureSpec, frame: Frame, x: Component): seq<real> {
    if !FrameFits(spec, frame) || !HasComponent(spec, x) then []
    else match x
      case ActionDim(d) => [frame.action[d]]
      case ObservationDim(name, d) => Entries(spec, frame.observations, name, d)
      case VideoChannel(camera, c) => Normalized(Pixels(spec, frame.images, camera, c))
  }

  ghost function Contributions(spec: FeatureSpec, frames: seq<Frame>, x: Component): (r: seq<seq<real>>)
    ensures |r| == |frames| && forall i :: 0 <= i < |r| ==> r[i] == FrameSamples(spec, frames[i], x)
  {
    seq(|frames|, i requires 0 <= i < |frames| => FrameSamples(spec, frames[i], x))
  }

  /** Every sample of a component in these frames. */
  ghost function Samples(spec: FeatureSpec, frames: seq<Frame>, x: Component): seq<real> {
    Flat(Contributions(spec, frames, x))
  }

  lemma ContributionsAppend(spec: FeatureSpec, a: seq<Frame>, b: seq<Frame>, x: Component)
    ensures Contributions(spec, a + b, x) == Contributions(spec, a, x) + Contributions(spec, b, x)
  {
    var joined := Contributions(spec, a, x) + Contributions(spec, b, x);
    forall i | 0 <= i < |a| + |b| ensures Contributions(spec, a + b, x)[i] == joined[i] {
      if i < |a| { assert (a + b)[i] == a[i]; } else { assert (a + b)[i] == b[i - |a|]; }
    }
  }

  lemma SamplesAppend(spec: FeatureSpec, a: seq<Frame>, b: seq<Frame>, x: Component)
    ensures Samples(spec, a + b, x) == Samples(spec, a, x) + Samples(spec, b, x)
  {
    ContributionsAppend(spec, a, b, x);
    FlatAppends(Contributions(spec, a, x), Contributions(spec, b, x));
  }

  lemma SamplesOfLast(spec: FeatureSpec, frames: seq<Frame>, x: Component)
    requires frames != []
    ensures var n := |frames| - 1;
            Samples(spec, frames, x) == Samples(spec, frames[..n], x) + FrameSamples(spec, frames[n], x)
  {
    var n := |frames| - 1;
    assert Contributions(spec, frames, x)[..n] == Contributions(spec, frames[..n], x);
  }

  lemma {:induction false} ActionSamples(spec: FeatureSpec, frames: seq<Frame>, d: nat)
    requires FramesFit(spec, frames) && d < spec.actionDim && Fits(ActionsOf(frames), spec.actionDim)
    ensures Samples(spec, frames, ActionDim(d)) == Statistics.Component(ActionsOf(frames), spec.actionDim, d)
  {
    if frames != [] {
      var n := |frames| - 1;
      SamplesOfLast(spec, frames, ActionDim(d));
      ActionSamples(spec, frames[..n], d);
    }
  }

  lemma {:induction false} ValuesInAppend(a: seq<NamedVector>, b: seq<NamedVector>, name: E.FieldName)
    ensures ValuesIn(a + b, name) == ValuesIn(a, name) + ValuesIn(b, name)
  {
    if b == [] {
      assert a + b == a;
    } else {
      LastOfConcat(a, b);
      ValuesInAppend(a, b[..|b| - 1], name);
    }
  }

  lemma {:induction false} ImagesInAppend(a: seq<NamedImage>, b: seq<NamedImage>, camera: E.Camera)
    ensures ImagesIn(a + b, camera) == ImagesIn(a, camera) + ImagesIn(b, camera)
  {
    if b == [] {
      assert a + b == a;
    } else {
      LastOfConcat(a, b);
      ImagesInAppend(a, b[..|b| - 1], camera);
    }
  }

  lemma {:induction false} ChannelPixelsAppend(a: seq<Image>, b: seq<Image>, channels: nat, c: nat)
    requires AllHaveChannels(a, channels) && AllHaveChannels(b, channels) && c < channels
    ensures AllHaveChannels(a + b, channels)
    ensures ChannelPixels(a + b, channels, c) == ChannelPixels(a, channels, c) + ChannelPixels(b, channels, c)
  {
    if b == [] {
      assert a + b == a;
    } else {
      var n := |b| - 1;
      LastOfConcat(a, b);
      ChannelPixelsAppend(a, b[..n], channels, c);
      Associates(ChannelPixels(a, channels, c), ChannelPixels(b[..n], channels, c), Channel(b[n], channels, c));
    }
  }

  lemma EntriesAppend(spec: FeatureSpec, a: seq<NamedVector>, b: seq<NamedVector>, name: E.FieldName, d: nat)
    requires VectorsFit(spec, a) && VectorsFit(spec, b) && HasComponent(spec, ObservationDim(name, d))
    ensures VectorsFit(spec, a + b)
            && Entries(spec, a + b, name, d) == Entries(spec, a, name, d) + Entries(spec, b, name, d)
  {
    ValuesInAppend(a, b, name);
  }

  lemma PixelsAppend(spec: FeatureSpec, a: seq<NamedImage>, b: seq<NamedImage>, camera: E.Camera, c: nat)
    requires Arrays(a) && ImagesFit(spec, a) && Arrays(b) && ImagesFit(spec, b)
             && HasComponent(spec, VideoChannel(camera, c))
    ensures Arrays(a + b) && ImagesFit(spec, a + b)
    ensures Pixels(spec, a + b, camera, c) == Pixels(spec, a, camera, c) + Pixels(spec, b, camera, c)
  {
    ImagesInFit(spec, a, camera);
    ImagesInFit(spec, b, camera);
    ImagesInAppend(a, b, camera);
    ChannelPixelsAppend(ImagesIn(a, camera), ImagesIn(b, camera), spec.imageShapes[camera].channels, c);
  }

  lemma NormalizedAppend(a: seq<Byte>, b: seq<Byte>)
    ensures Normalized(a + b) == Normalized(a) + Normalized(b)
  {
  }

  lemma {:induction false} ObservationSamples(spec: FeatureSpec, frames: seq<Frame>, name: E.FieldName, d: nat)
    requires FramesFit(spec, frames) && HasComponent(spec, ObservationDim(name, d))
    ensures VectorsFit(spec, AllObservations(frames))
    ensures Samples(spec, frames, ObservationDim(name, d)) == Entries(spec, AllObservations(frames), name, d)
  {
    if frames != [] {
      var init, last := frames[..|frames| - 1], frames[|frames| - 1];
      SamplesOfLast(spec, frames, ObservationDim(name, d));
      ObservationSamples(spec, init, name, d);
      assert FrameFits(spec, last);
      EntriesAppend(spec, AllObservations(init), last.observations, name, d);
    }
  }

  lemma {:induction false} VideoSamples(spec: FeatureSpec, frames: seq<Frame>, camera: E.Camera, c: nat)
    requires FramesFit(spec, frames) && HasComponent(spec, VideoChannel(camera, c))
    ensures Arrays(AllImages(frames)) && ImagesFit(spec, AllImages(frames))
    ensures Samples(spec, frames, VideoChannel(camera, c)) == Normalized(Pixels(spec, AllImages(frames), camera, c))
  {
    if frames != [] {
      var init, last := frames[..|frames| - 1], frames[|frames| - 1];
      SamplesOfLast(spec, frames, VideoChannel(camera, c));
      VideoSamples(spec, init, camera, c);
      assert FrameFits(spec, last);
      PixelsAppend(spec, AllImages(init), last.images, camera, c);
      NormalizedAppend(Pixels(spec, AllImages(init), camera, c), Pixels(spec, last.images, camera, c));
    }
  }

  /** Every component is published, and its statistics are those of its samples in these frames. */
  ghost predicate DescribesFrames(stats: FeatureStats, spec: FeatureSpec, frames: seq<Frame>) {
    forall x :: HasComponent(spec, x) ==>
      && Publishes(stats, x)
      && (Samples(spec, frames, x) != [] ==> Describes(StatAt(stats, x), Samples(spec, frames, x)))
  }

  lemma StatsDescribe(acc: Accumulators, spec: FeatureSpec, frames: seq<Frame>)
    requires FramesFit(spec, frames) && Accumulates(acc, spec, frames)
    ensures DescribesFrames(StatsOf(acc), spec, frames)
  {
    forall x | HasComponent(spec, x)
      ensures Publishes(StatsOf(acc), x)
      ensures Samples(spec, frames, x) != [] ==> Describes(StatAt(StatsOf(acc), x), Samples(spec, frames, x))
    {
      match x
      case ActionDim(d) => ActionStatDescribes(acc, spec, frames, d);
      case ObservationDim(name, d) => ObservationStatDescribes(acc, spec, frames, name, d);
      case VideoChannel(camera, c) => VideoStatDescribes(acc, spec, frames, camera, c);
    }
  }

  lemma ActionStatDescribes(acc: Accumulators, spec: FeatureSpec, frames: seq<Frame>, d: nat)
    requires FramesFit(spec, frames) && FoldsActions(acc.action, spec, frames) && d < spec.actionDim
    ensures Publishes(StatsOf(acc), ActionDim(d))
    ensures Describes(StatAt(StatsOf(acc), ActionDim(d)), Samples(spec, frames, ActionDim(d)))
  {
    ActionSamples(spec, frames, d);
    VectorStatsAreDirect(ActionsOf(frames), spec.actionDim, d);
  }

  lemma ObservationStatDescribes(acc: Accumulators, spec: FeatureSpec, frames: seq<Frame>, name: E.FieldName, d: nat)
    requires FramesFit(spec, frames) && FoldsValues(acc.observations, spec, AllObservations(frames))
    requires HasComponent(spec, ObservationDim(name, d))
    ensures Publishes(StatsOf(acc), ObservationDim(name, d))
    ensures Describes(StatAt(StatsOf(acc), ObservationDim(name, d)), Samples(spec, frames, ObservationDim(name, d)))
  {
    assert FoldsField(acc.observations[name], ValuesIn(AllObservations(frames), name), spec.observationFields[name]);
    ObservationSamples(spec, frames, name, d);
    VectorStatsAreDirect(ValuesIn(AllObservations(frames), name), spec.observationFields[name], d);
  }

  lemma VideoStatDescribes(acc: Accumulators, spec: FeatureSpec, frames: seq<Frame>, camera: E.Camera, c: nat)
    requires FramesFit(spec, frames) && FoldsImages(acc.images, spec, AllImages(frames))
    requires HasComponent(spec, VideoChannel(camera, c))
    ensures Publishes(StatsOf(acc), VideoChannel(camera, c))
    ensures Samples(spec, frames, VideoChannel(camera, c)) != [] ==>
              Describes(StatAt(StatsOf(acc), VideoChannel(camera, c)), Samples(spec, frames, VideoChannel(camera, c)))
  {
    assert FoldsCamera(acc.images[camera], ImagesIn(AllImages(frames), camera), spec.imageShapes[camera].channels);
    VideoSamples(spec, frames, camera, c);
    ImageStatsAreDirect(ImagesIn(AllImages(frames), camera), spec.imageShapes[camera].channels, c);
  }

  /** The statistics published for a run of frames are those of the frames' own samples. */
  lemma PublishedStatsDescribe(spec: FeatureSpec, frames: seq<Frame>)
    requires FramesFit(spec, frames)
    ensures DescribesFrames(StatsOf(AbsorbAll(spec, frames)), spec, frames)
  {
    AbsorbAllAccumulates(spec, frames);
    StatsDescribe(AbsorbAll(spec, frames), spec, frames);
  }
}
