/** What a finished dataset guarantees: episodes tile the rows, and the dataset statistics combine those of the
    episodes. */
module DatasetTheorems {
  import opened Sequences
  import opened Statistics
  import opened DatasetFrames
  import opened DatasetWriter
  import E = EpisodeFrames

  /** The episodes are numbered in order, none is empty, and together they cover [0, n) without gap or overlap. */
  ghost predicate Tiles(episodes: seq<Episode>, n: nat) {
    && (forall k :: 0 <= k < |episodes| ==> episodes[k].index == k && episodes[k].from < episodes[k].to)
    && (forall k :: 0 < k < |episodes| ==> episodes[k].from == episodes[k - 1].to)
    && (episodes == [] ==> n == 0)
    && (episodes != [] ==> episodes[0].from == 0 && episodes[|episodes| - 1].to == n)
  }

  lemma TilesOneMore(episodes: seq<Episode>, n: nat, e: Episode)
    requires Tiles(episodes, n) && e.index == |episodes| && e.from == n < e.to
    ensures Tiles(episodes + [e], e.to)
  {
    var more := episodes + [e];
    assert forall k :: 0 <= k < |episodes| ==> more[k] == episodes[k];
  }

  lemma {:induction false} EpisodesTile(episodes: seq<Episode>, done: seq<seq<Frame>>, spec: FeatureSpec, fps: nat)
    requires fps > 0 && EpisodesOk(episodes, done, spec, fps)
    ensures Tiles(episodes, |Flat(done)|)
  {
    if done != [] {
      var k := |done| - 1;
      EpisodesTile(episodes[..k], done[..k], spec, fps);
      TilesOneMore(episodes[..k], |Flat(done[..k])|, episodes[k]);
      assert episodes == episodes[..k] + [episodes[k]];
    }
  }

  lemma {:induction false} EpisodeAt(episodes: seq<Episode>, done: seq<seq<Frame>>, spec: FeatureSpec, fps: nat, k: nat)
    requires fps > 0 && EpisodesOk(episodes, done, spec, fps) && k < |episodes|
    ensures Records(episodes[k], spec, done[k], k, |Flat(done[..k])|, fps)
  {
    var last := |done| - 1;
    if k < last {
      EpisodeAt(episodes[..last], done[..last], spec, fps, k);
      assert done[..last][..k] == done[..k];
    }
  }

  /** The frames of an episode's range are its own. */
  lemma EpisodeFrames(episodes: seq<Episode>, done: seq<seq<Frame>>, spec: FeatureSpec, fps: nat, k: nat, i: nat)
    requires fps > 0 && EpisodesOk(episodes, done, spec, fps) && k < |episodes|
    requires episodes[k].from <= i < episodes[k].to
    ensures |done| == |episodes| && episodes[k].length == |done[k]| && i - episodes[k].from < |done[k]|
    ensures i < |Flat(done)| && done[k][i - episodes[k].from] == Flat(done)[i]
  {
    EpisodeAt(episodes, done, spec, fps, k);
    FlatAt(done, k, i - episodes[k].from);
  }

  /** Which episode holds a position. */
  lemma {:induction false} Holder(episodes: seq<Episode>, done: seq<seq<Frame>>, spec: FeatureSpec, fps: nat,
                                  i: nat) returns (k: nat)
    requires fps > 0 && EpisodesOk(episodes, done, spec, fps) && i < |Flat(done)|
    ensures k < |episodes| && episodes[k].from <= i < episodes[k].to
  {
    var last := |done| - 1;
    if i < |Flat(done[..last])| {
      k := Holder(episodes[..last], done[..last], spec, fps, i);
    } else {
      k := last;
    }
  }

  lemma {:induction false} Apart(episodes: seq<Episode>, n: nat, k: nat, l: nat)
    requires Tiles(episodes, n) && k < l < |episodes|
    ensures episodes[k].to <= episodes[l].from
    decreases l
  {
    if k < l - 1 { Apart(episodes, n, k, l - 1); }
  }

  lemma OnlyHolder(episodes: seq<Episode>, n: nat, i: nat, k: nat)
    requires Tiles(episodes, n) && k < |episodes| && episodes[k].from <= i < episodes[k].to
    ensures forall l :: 0 <= l < |episodes| ==> (episodes[l].from <= i < episodes[l].to <==> l == k)
  {
    forall l | 0 <= l < |episodes| ensures episodes[l].from <= i < episodes[l].to <==> l == k {
      if l < k { Apart(episodes, n, l, k); }
      if k < l { Apart(episodes, n, k, l); }
    }
  }

  /** The time column follows the frame column. */
  lemma {:induction false} TimeAt(frameIndices: seq<nat>, fps: nat, i: nat)
    requires fps > 0 && i < |frameIndices|
    ensures |TimesOf(frameIndices, fps)| == |frameIndices|
    ensures TimesOf(frameIndices, fps)[i] == Seconds(frameIndices[i], fps)
  {
    var n := |frameIndices| - 1;
    if i < n {
      TimeAt(frameIndices[..n], fps, i);
    } else if n > 0 {
      TimeAt(frameIndices[..n], fps, 0);
    }
  }

  /** After the last `end_episode`, each row names the one episode whose range holds it, counts frames and time from
      that episode's start, and stands for that episode's frame. */
  lemma RowsNameTheirEpisode(episodes: seq<Episode>, done: seq<seq<Frame>>, spec: FeatureSpec, fps: nat,
                             ei: seq<nat>, fi: seq<nat>, ts: seq<real>, gi: seq<nat>, i: nat)
    requires fps > 0 && EpisodesOk(episodes, done, spec, fps) && i < |Flat(done)|
    requires RowsOk(episodes, ei, fi, ts, gi, fps, 0, |Flat(done)|)
    ensures gi[i] == i && ei[i] < |episodes|
    ensures forall k :: 0 <= k < |episodes| ==> (episodes[k].from <= i < episodes[k].to <==> k == ei[i])
    ensures fi[i] == i - episodes[ei[i]].from < episodes[ei[i]].length
    ensures |ts| == |fi| && ts[i] == Seconds(fi[i], fps)
    ensures |done| == |episodes| && fi[i] < |done[ei[i]]| && done[ei[i]][fi[i]] == Flat(done)[i]
  {
    var k := Holder(episodes, done, spec, fps, i);
    EpisodesTile(episodes, done, spec, fps);
    EpisodeAt(episodes, done, spec, fps, k);
    EpisodeFrames(episodes, done, spec, fps, k, i);
    assert RowsOf(ei, fi, episodes[k].index, episodes[k].from, episodes[k].to);
    OnlyHolder(episodes, |Flat(done)|, i, k);
    TimeAt(fi, fps, i);
  }

  // ---- Statistics ----

  /** The samples of one component, episode by episode. */
  ghost function Parts(spec: FeatureSpec, done: seq<seq<Frame>>, x: Component): (r: seq<seq<real>>)
    ensures |r| == |done| && forall k :: 0 <= k < |r| ==> r[k] == Samples(spec, done[k], x)
  {
    seq(|done|, k requires 0 <= k < |done| => Samples(spec, done[k], x))
  }

  ghost predicate AllPublish(episodes: seq<Episode>, x: Component) {
    forall k :: 0 <= k < |episodes| ==> Publishes(episodes[k].stats, x)
  }

  /** One component's published statistics, episode by episode. */
  ghost function EpisodeStats(episodes: seq<Episode>, x: Component): (r: seq<Stat>)
    requires AllPublish(episodes, x)
    ensures |r| == |episodes| && forall k :: 0 <= k < |r| ==> r[k] == StatAt(episodes[k].stats, x)
  {
    seq(|episodes|, k requires 0 <= k < |episodes| => StatAt(episodes[k].stats, x))
  }

  lemma {:induction false} SamplesOfAll(spec: FeatureSpec, done: seq<seq<Frame>>, x: Component)
    ensures Samples(spec, Flat(done), x) == Flat(Parts(spec, done, x))
  {
    if done != [] {
      var k := |done| - 1;
      SamplesOfAll(spec, done[..k], x);
      SamplesAppend(spec, Flat(done[..k]), done[k], x);
      assert Parts(spec, done, x)[..k] == Parts(spec, done[..k], x);
    }
  }

  lemma EpisodesDescribed(episodes: seq<Episode>, done: seq<seq<Frame>>, spec: FeatureSpec, fps: nat, x: Component)
    requires fps > 0 && EpisodesOk(episodes, done, spec, fps) && HasComponent(spec, x)
    requires forall k :: 0 <= k < |done| ==> Parts(spec, done, x)[k] != []
    ensures AllPublish(episodes, x) && DescribesEach(EpisodeStats(episodes, x), Parts(spec, done, x))
  {
    forall k | 0 <= k < |episodes|
      ensures Publishes(episodes[k].stats, x) && Describes(StatAt(episodes[k].stats, x), Parts(spec, done, x)[k])
    {
      EpisodeAt(episodes, done, spec, fps, k);
      PublishedStatsDescribe(spec, done[k]);
    }
  }

  /** For every component with samples in each episode, the dataset's statistics are the episodes' combined: the extreme
      of the extremes, and mean and mean square weighted by sample counts. */
  lemma GlobalStatsCombineEpisodes(episodes: seq<Episode>, done: seq<seq<Frame>>, spec: FeatureSpec, fps: nat,
                                   stats: Accumulators, x: Component)
    requires fps > 0 && EpisodesOk(episodes, done, spec, fps) && HasComponent(spec, x) && done != []
    requires FramesFit(spec, Flat(done)) && stats == AbsorbAll(spec, Flat(done))
    requires forall k :: 0 <= k < |done| ==> Parts(spec, done, x)[k] != []
    ensures Publishes(StatsOf(stats), x) && AllPublish(episodes, x)
    ensures Combines(StatAt(StatsOf(stats), x), EpisodeStats(episodes, x), Parts(spec, done, x))
  {
    PublishedStatsDescribe(spec, Flat(done));
    SamplesOfAll(spec, done, x);
    EpisodesDescribed(episodes, done, spec, fps, x);
    var k := |done| - 1;
    assert Flat(Parts(spec, done, x)) == Flat(Parts(spec, done, x)[..k]) + Parts(spec, done, x)[k];
    StatsCombine(StatAt(StatsOf(stats), x), EpisodeStats(episodes, x), Parts(spec, done, x));
  }

  /** The action has a sample in every frame, so its statistics always combine. */
  lemma ActionStatsCombineEpisodes(episodes: seq<Episode>, done: seq<seq<Frame>>, spec: FeatureSpec, fps: nat,
                                   stats: Accumulators, d: nat)
    requires fps > 0 && EpisodesOk(episodes, done, spec, fps) && d < spec.actionDim && done != []
    requires FramesFit(spec, Flat(done)) && stats == AbsorbAll(spec, Flat(done))
    ensures var x := ActionDim(d);
            && Publishes(StatsOf(stats), x) && AllPublish(episodes, x)
            && Combines(StatAt(StatsOf(stats), x), EpisodeStats(episodes, x), Parts(spec, done, x))
            && forall k :: 0 <= k < |done| ==> |done| == |episodes| && |Parts(spec, done, x)[k]| == episodes[k].length
  {
    forall k | 0 <= k < |done| ensures |Parts(spec, done, ActionDim(d))[k]| == episodes[k].length > 0 {
      EpisodeAt(episodes, done, spec, fps, k);
      AllActionsFit(spec, done[k]);
      ActionSamples(spec, done[k], d);
    }
    GlobalStatsCombineEpisodes(episodes, done, spec, fps, stats, ActionDim(d));
  }

  // ---- The writer's own fields ----

  /** A buffered column holds the field's values in order. */
  lemma {:induction false} ColumnHoldsValues(spec: FeatureSpec, vectors: seq<NamedVector>, name: E.FieldName)
    requires name in spec.observationFields
    ensures var columns := AppendRows(NewRows(spec), vectors);
            name in columns && columns[name] == ValuesIn(vectors, name)
  {
    if vectors != [] { ColumnHoldsValues(spec, vectors[..|vectors| - 1], name); }
  }

  lemma FinishedFrames(w: LeRobotV30Writer)
    requires w.Valid() && w.current == []
    ensures w.frames == Flat(w.done) && w.index == |w.frames|
  {
  }

  lemma WriterColumns(w: LeRobotV30Writer)
    requires w.Valid()
    ensures forall name :: name in w.spec.observationFields ==>
              name in w.obs && w.obs[name] == ValuesIn(AllObservations(w.frames), name)
  {
    forall name | name in w.spec.observationFields
      ensures name in w.obs && w.obs[name] == ValuesIn(AllObservations(w.frames), name)
    {
      ColumnHoldsValues(w.spec, AllObservations(w.frames), name);
    }
  }

  /** A finished writer's rows tile into its episodes; row `i` holds the action, task, position and time of frame `i`,
      and every observation column holds the frames' values in order. */
  lemma FinishedDataset(w: LeRobotV30Writer, i: nat)
    requires w.Valid() && w.current == [] && i < w.index
    ensures Tiles(w.episodes, w.index) && w.episodeCounter == |w.episodes|
    ensures |w.episodeIndices| == |w.frameIndices| == |w.globalIndices| == |w.actions| == |w.taskIndices| ==
            |w.frames| == w.index
    ensures w.episodeIndices[i] < |w.episodes| && w.globalIndices[i] == i
    ensures var e := w.episodes[w.episodeIndices[i]];
            e.from <= i < e.to && w.frameIndices[i] == i - e.from
    ensures |w.timestamps| == w.index && w.timestamps[i] == Seconds(w.frameIndices[i], w.fps)
    ensures w.actions[i] == w.frames[i].action
    ensures forall name :: name in w.spec.observationFields ==>
              name in w.obs && w.obs[name] == ValuesIn(AllObservations(w.frames), name)
    ensures w.taskIndices[i] < |w.tasks| && w.tasks[w.taskIndices[i]] == w.frames[i].task
  {
    FinishedFrames(w);
    EpisodesTile(w.episodes, w.done, w.spec, w.fps);
    RowsNameTheirEpisode(w.episodes, w.done, w.spec, w.fps, w.episodeIndices, w.frameIndices, w.timestamps,
                         w.globalIndices, i);
    WriterColumns(w);
  }

  /** Task positions and tasks determine each other. */
  lemma TasksAreNumbered(tasks: seq<Task>, taskToIndex: map<Task, nat>, i: nat, t: Task)
    requires TaskTable(tasks, taskToIndex)
    ensures i < |tasks| ==> tasks[i] in taskToIndex && taskToIndex[tasks[i]] == i
    ensures t in taskToIndex ==> taskToIndex[t] < |tasks| && tasks[taskToIndex[t]] == t
  {
    if i < |tasks| { IndexMapHas(tasks, i); }
    if t in taskToIndex { IndexMapFinds(tasks, t); }
  }
}
