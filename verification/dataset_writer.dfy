/** The stateful dataset writer of `writer.py`: row buffers, episodes, the task table and both scopes of statistics. */
module DatasetWriter {
  import opened Wrappers
  import opened Numbers
  import opened Sequences
  import opened Statistics
  import opened DatasetFrames
  import E = EpisodeFrames

  datatype Episode = Episode(
    index: nat, from: nat, to: nat, fromTimestamp: real, toTimestamp: real, tasks: set<Task>, length: nat,
    stats: FeatureStats)

  /** The time of frame `i` of an episode or dataset. */
  function Seconds(i: nat, fps: nat): real
    requires fps > 0
  {
    i as real / fps as real
  }

  // ---- Episodes ----

  /** The episode record states the number, range, times, tasks and statistics of its own frames. */
  ghost predicate Records(e: Episode, spec: FeatureSpec, frames: seq<Frame>, index: nat, from: nat, fps: nat)
    requires fps > 0
  {
    && e.index == index
    && e.from == from && e.to == from + |frames| && e.length == |frames| > 0
    && e.fromTimestamp == Seconds(e.from, fps) && e.toTimestamp == Seconds(e.to, fps)
    && e.tasks == TasksIn(frames)
    && FramesFit(spec, frames) && e.stats == StatsOf(AbsorbAll(spec, frames))
  }

  /** One record per finished episode, each starting where the one before it ended. */
  ghost predicate EpisodesOk(episodes: seq<Episode>, done: seq<seq<Frame>>, spec: FeatureSpec, fps: nat)
    requires fps > 0
  {
    && |episodes| == |done|
    && (done == [] ||
        var k := |done| - 1;
        && EpisodesOk(episodes[..k], done[..k], spec, fps)
        && Records(episodes[k], spec, done[k], k, |Flat(done[..k])|, fps))
  }

  /** The counters count the frames of the finished episodes and of the current one. */
  ghost predicate CountersOk(index: nat, curEpCount: nat, episodeCounter: nat, done: seq<seq<Frame>>,
                             current: seq<Frame>, frames: seq<Frame>) {
    && frames == Flat(done) + current && index == |frames|
    && curEpCount == |current| && episodeCounter == |done|
  }

  lemma CountersOkOneMore(index: nat, curEpCount: nat, episodeCounter: nat, done: seq<seq<Frame>>, current: seq<Frame>,
                          frames: seq<Frame>, frame: Frame)
    requires CountersOk(index, curEpCount, episodeCounter, done, current, frames)
    ensures CountersOk(index + 1, curEpCount + 1, episodeCounter, done, current + [frame], frames + [frame])
  {
    assert frames + [frame] == Flat(done) + (current + [frame]);
  }

  // ---- Rows ----

  /** The time in its episode of every row. */
  function TimesOf(frameIndices: seq<nat>, fps: nat): seq<real>
    requires fps > 0
  {
    if frameIndices == [] then []
    else TimesOf(frameIndices[..|frameIndices| - 1], fps) + [Seconds(frameIndices[|frameIndices| - 1], fps)]
  }

  /** Every row from `from` to `to` has the episode's number and its own position in the episode. */
  ghost predicate RowsOf(ei: seq<nat>, fi: seq<nat>, e: nat, from: nat, to: nat) {
    && from <= to <= |ei| == |fi|
    && forall i :: from <= i < to ==> ei[i] == e && fi[i] == i - from
  }

  ghost predicate RowsOfAll(episodes: seq<Episode>, ei: seq<nat>, fi: seq<nat>) {
    forall k :: 0 <= k < |episodes| ==> RowsOf(ei, fi, episodes[k].index, episodes[k].from, episodes[k].to)
  }

  /** The row buffers of a writer with `index` rows, the last `cur` of them in the current episode. */
  ghost predicate RowsOk(episodes: seq<Episode>, ei: seq<nat>, fi: seq<nat>, ts: seq<real>, gi: seq<nat>, fps: nat,
                         cur: nat, index: nat)
    requires fps > 0
  {
    && cur <= index && |fi| == |ei| == |gi| == index
    && ts == TimesOf(fi, fps)
    && RowsOfAll(episodes, ei, fi)
    && RowsOf(ei, fi, |episodes|, index - cur, index)
    && forall i :: 0 <= i < index ==> gi[i] == i
  }

  lemma RowsOfAllKept(episodes: seq<Episode>, ei: seq<nat>, fi: seq<nat>, e1: nat, f1: nat)
    requires RowsOfAll(episodes, ei, fi)
    ensures RowsOfAll(episodes, ei + [e1], fi + [f1])
  {
    forall k | 0 <= k < |episodes|
      ensures RowsOf(ei + [e1], fi + [f1], episodes[k].index, episodes[k].from, episodes[k].to)
    {
      assert RowsOf(ei, fi, episodes[k].index, episodes[k].from, episodes[k].to);
    }
  }

  lemma RowsOkOneMore(episodes: seq<Episode>, ei: seq<nat>, fi: seq<nat>, ts: seq<real>, gi: seq<nat>, fps: nat,
                      cur: nat, index: nat)
    requires fps > 0 && RowsOk(episodes, ei, fi, ts, gi, fps, cur, index)
    ensures RowsOk(episodes, ei + [|episodes|], fi + [cur], ts + [Seconds(cur, fps)], gi + [index], fps, cur + 1,
                   index + 1)
  {
    RowsOfAllKept(episodes, ei, fi, |episodes|, cur);
    assert (fi + [cur])[..|fi|] == fi;
  }

  // ---- Tasks ----

  /** Each task at its position in the list. */
  ghost function IndexMap(tasks: seq<Task>): map<Task, nat> {
    if tasks == [] then map[] else IndexMap(tasks[..|tasks| - 1])[tasks[|tasks| - 1] := |tasks| - 1]
  }

  ghost predicate DistinctTasks(tasks: seq<Task>) {
    tasks == [] || (DistinctTasks(tasks[..|tasks| - 1]) && tasks[|tasks| - 1] !in IndexMap(tasks[..|tasks| - 1]))
  }

  /** No task is listed twice, and the index gives every task its position. */
  ghost predicate TaskTable(tasks: seq<Task>, taskToIndex: map<Task, nat>) {
    DistinctTasks(tasks) && taskToIndex == IndexMap(tasks)
  }

  lemma {:induction false} IndexMapFinds(tasks: seq<Task>, t: Task)
    requires t in IndexMap(tasks)
    ensures IndexMap(tasks)[t] < |tasks| && tasks[IndexMap(tasks)[t]] == t
  {
    if tasks[|tasks| - 1] != t { IndexMapFinds(tasks[..|tasks| - 1], t); }
  }

  lemma {:induction false} IndexMapHas(tasks: seq<Task>, i: nat)
    requires DistinctTasks(tasks) && i < |tasks|
    ensures tasks[i] in IndexMap(tasks) && IndexMap(tasks)[tasks[i]] == i
  {
    if i < |tasks| - 1 { IndexMapHas(tasks[..|tasks| - 1], i); }
  }

  lemma TaskTableOneMore(tasks: seq<Task>, taskToIndex: map<Task, nat>, task: Task)
    requires TaskTable(tasks, taskToIndex) && task !in taskToIndex
    ensures TaskTable(tasks + [task], taskToIndex[task := |tasks|])
  {
    assert (tasks + [task])[..|tasks|] == tasks;
  }

  ghost predicate TaskRows(tasks: seq<Task>, taskIndices: seq<nat>, frames: seq<Frame>) {
    && |taskIndices| == |frames|
    && forall i :: 0 <= i < |frames| ==> taskIndices[i] < |tasks| && tasks[taskIndices[i]] == frames[i].task
  }

  lemma TaskRowsOneMore(tasks: seq<Task>, more: seq<Task>, taskIndices: seq<nat>, frames: seq<Frame>, i: nat,
                        frame: Frame)
    requires TaskRows(tasks, taskIndices, frames) && tasks <= more && i < |more| && more[i] == frame.task
    ensures TaskRows(more, taskIndices + [i], frames + [frame])
  {
  }

  ghost predicate TasksOk(tasks: seq<Task>, taskToIndex: map<Task, nat>, taskIndices: seq<nat>, curEpTasks: set<Task>,
                          frames: seq<Frame>, current: seq<Frame>) {
    TaskTable(tasks, taskToIndex) && TaskRows(tasks, taskIndices, frames) && curEpTasks == TasksIn(current)
  }

  lemma TasksOkOneMore(tasks: seq<Task>, more: seq<Task>, taskToIndex: map<Task, nat>, taskIndices: seq<nat>,
                       curEpTasks: set<Task>, frames: seq<Frame>, current: seq<Frame>, i: nat, frame: Frame)
    requires TaskRows(tasks, taskIndices, frames) && curEpTasks == TasksIn(current)
    requires TaskTable(more, taskToIndex) && tasks <= more && i < |more| && more[i] == frame.task
    ensures TasksOk(more, taskToIndex, taskIndices + [i], curEpTasks + {frame.task}, frames + [frame],
                    current + [frame])
  {
    TaskRowsOneMore(tasks, more, taskIndices, frames, i, frame);
    TasksOneMore(current, frame);
  }

  lemma TasksOneMore(frames: seq<Frame>, frame: Frame)
    ensures TasksIn(frames + [frame]) == TasksIn(frames) + {frame.task}
  {
    assert (frames + [frame])[..|frames|] == frames;
  }

  // ---- Buffered values ----

  /** One observation appended to its column. */
  function AppendRow(obs: map<E.FieldName, seq<Vector>>, v: NamedVector): map<E.FieldName, seq<Vector>> {
    if v.0 in obs then obs[v.0 := obs[v.0] + [v.1]] else obs
  }

  ghost function AppendRows(obs: map<E.FieldName, seq<Vector>>, vectors: seq<NamedVector>)
    : map<E.FieldName, seq<Vector>>
  {
    if vectors == [] then obs else AppendRow(AppendRows(obs, vectors[..|vectors| - 1]), vectors[|vectors| - 1])
  }

  function NewRows(spec: FeatureSpec): map<E.FieldName, seq<Vector>> {
    map name | name in spec.observationFields :: []
  }

  lemma {:induction false} AppendRowsTwice(obs: map<E.FieldName, seq<Vector>>, a: seq<NamedVector>, b: seq<NamedVector>)
    ensures AppendRows(AppendRows(obs, a), b) == AppendRows(obs, a + b)
  {
    if b == [] {
      assert a + b == a;
    } else {
      assert (a + b)[..|a + b| - 1] == a + b[..|b| - 1];
      AppendRowsTwice(obs, a, b[..|b| - 1]);
    }
  }

  /** The vector columns, the encoder input and the dataset-wide statistics hold exactly these frames. */
  ghost predicate BuffersOk(spec: FeatureSpec, sink: Option<seq<NamedImage>>, actions: seq<Vector>,
                            obs: map<E.FieldName, seq<Vector>>, stats: Accumulators, frames: seq<Frame>) {
    && (sink.Some? ==> sink.value == AllImages(frames))
    && actions == ActionsOf(frames)
    && obs == AppendRows(NewRows(spec), AllObservations(frames))
    && FramesFit(spec, frames) && stats == AbsorbAll(spec, frames)
  }

  lemma BuffersClosed(spec: FeatureSpec, sink: Option<seq<NamedImage>>, actions: seq<Vector>,
                      obs: map<E.FieldName, seq<Vector>>, stats: Accumulators, frames: seq<Frame>)
    requires BuffersOk(spec, sink, actions, obs, stats, frames)
    ensures BuffersOk(spec, None, actions, obs, stats, frames)
  {
  }

  /** A writer that has taken nothing. */
  lemma NothingWritten(spec: FeatureSpec, fps: nat)
    requires fps > 0
    ensures CountersOk(0, 0, 0, [], [], []) && EpisodesOk([], [], spec, fps)
    ensures RowsOk([], [], [], [], [], fps, 0, 0) && TasksOk([], map[], [], {}, [], [])
    ensures BuffersOk(spec, None, [], NewRows(spec), NewAccumulators(spec), [])
    ensures EpisodeStatsOk(spec, NewAccumulators(spec), [])
  {
    assert ActionsOf([]) == [];
  }

  ghost predicate EpisodeStatsOk(spec: FeatureSpec, stats: Accumulators, frames: seq<Frame>) {
    FramesFit(spec, frames) && stats == AbsorbAll(spec, frames)
  }

  lemma BuffersOkOneMore(spec: FeatureSpec, sink: Option<seq<NamedImage>>, actions: seq<Vector>,
                         obs: map<E.FieldName, seq<Vector>>,
                         stats: Accumulators, frames: seq<Frame>, frame: Frame)
    requires sink.Some? && BuffersOk(spec, sink, actions, obs, stats, frames) && FrameFits(spec, frame)
    ensures HasDim(stats.action, |frame.action|)
    ensures BuffersOk(spec, Some(sink.value + frame.images), actions + [frame.action],
                      AppendRows(obs, frame.observations), Absorb(stats, frame), frames + [frame])
  {
    AppendRowsTwice(NewRows(spec), AllObservations(frames), frame.observations);
    AllOneMore(frames, frame);
    AbsorbOneMore(spec, frames, frame);
  }

  // ---- One more episode ----

  lemma CountersOkAfter(index: nat, curEpCount: nat, episodeCounter: nat, done: seq<seq<Frame>>, current: seq<Frame>,
                        frames: seq<Frame>)
    requires CountersOk(index, curEpCount, episodeCounter, done, current, frames)
    ensures CountersOk(index, 0, episodeCounter + 1, done + [current], [], frames)
  {
    FlatOneMore(done, current);
    assert Flat(done) + current + [] == frames;
  }

  lemma EpisodesOkAfter(episodes: seq<Episode>, done: seq<seq<Frame>>, spec: FeatureSpec, fps: nat, e: Episode,
                        frames: seq<Frame>)
    requires fps > 0 && EpisodesOk(episodes, done, spec, fps)
    requires Records(e, spec, frames, |done|, |Flat(done)|, fps)
    ensures EpisodesOk(episodes + [e], done + [frames], spec, fps)
  {
    assert (episodes + [e])[..|done|] == episodes && (done + [frames])[..|done|] == done;
  }

  lemma RowsOkAfter(episodes: seq<Episode>, ei: seq<nat>, fi: seq<nat>, ts: seq<real>, gi: seq<nat>, fps: nat,
                    cur: nat, index: nat, e: Episode)
    requires fps > 0 && RowsOk(episodes, ei, fi, ts, gi, fps, cur, index)
    requires e.index == |episodes| && e.from == index - cur && e.to == index
    ensures RowsOk(episodes + [e], ei, fi, ts, gi, fps, 0, index)
  {
  }

  /** The record `end_episode` appends. */
  function NewEpisode(number: nat, index: nat, count: nat, fps: nat, tasks: set<Task>, stats: Accumulators): Episode
    requires fps > 0 && count <= index
  {
    Episode(number, index - count, index, Seconds(index - count, fps), Seconds(index, fps), tasks, count,
            StatsOf(stats))
  }

  lemma NewEpisodeRecords(spec: FeatureSpec, fps: nat, index: nat, cur: nat, counter: nat, done: seq<seq<Frame>>,
                          current: seq<Frame>, frames: seq<Frame>, stats: Accumulators)
    requires fps > 0 && CountersOk(index, cur, counter, done, current, frames)
    requires EpisodeStatsOk(spec, stats, current) && cur > 0
    ensures Records(NewEpisode(counter, index, cur, fps, TasksIn(current), stats), spec, current, |done|,
                    |Flat(done)|, fps)
  {
  }

  lemma EpisodeFinishes(spec: FeatureSpec, fps: nat, index: nat, cur: nat, counter: nat, done: seq<seq<Frame>>,
                        current: seq<Frame>,
                        frames: seq<Frame>, tasks: set<Task>, stats: Accumulators, episodes: seq<Episode>,
                        ei: seq<nat>, fi: seq<nat>, ts: seq<real>, gi: seq<nat>)
    requires fps > 0 && CountersOk(index, cur, counter, done, current, frames)
    requires EpisodeStatsOk(spec, stats, current) && cur > 0 && tasks == TasksIn(current)
    requires EpisodesOk(episodes, done, spec, fps) && RowsOk(episodes, ei, fi, ts, gi, fps, cur, index)
    ensures var e := NewEpisode(counter, index, cur, fps, tasks, stats);
            && EpisodesOk(episodes + [e], done + [current], spec, fps)
            && RowsOk(episodes + [e], ei, fi, ts, gi, fps, 0, index)
    ensures CountersOk(index, 0, counter + 1, done + [current], [], frames)
  {
    var e := NewEpisode(counter, index, cur, fps, tasks, stats);
    NewEpisodeRecords(spec, fps, index, cur, counter, done, current, frames, stats);
    CountersOkAfter(index, cur, counter, done, current, frames);
    EpisodesOkAfter(episodes, done, spec, fps, e, current);
    RowsOkAfter(episodes, ei, fi, ts, gi, fps, cur, index, e);
  }

  // ---- The writer ----

  class LeRobotV30Writer {
    const fps: nat
    const spec: FeatureSpec
    /** What the encoders were given, while they are open. */
    var sink: Option<seq<NamedImage>>
    var actions: seq<Vector>
    var obs: map<E.FieldName, seq<Vector>>
    var timestamps: seq<real>
    var frameIndices: seq<nat>
    var episodeIndices: seq<nat>
    var globalIndices: seq<nat>
    var taskIndices: seq<nat>
    var tasks: seq<Task>
    var taskToIndex: map<Task, nat>
    var episodes: seq<Episode>
    var globalStats: Accumulators
    var epStats: Accumulators
    var index: nat
    var episodeCounter: nat
    var curEpCount: nat
    var curEpTasks: set<Task>
    /** The frames of each finished episode, those of the current one, and all of them. */
    ghost var done: seq<seq<Frame>>
    ghost var current: seq<Frame>
    ghost var frames: seq<Frame>

    constructor (fps: nat, spec: FeatureSpec)
      requires fps > 0
      ensures this.fps == fps && this.spec == spec && Valid()
      ensures sink == None && frames == [] && done == [] && current == []
    {
      this.fps, this.spec := fps, spec;
      sink := None;
      actions := [];
      obs := NewRows(spec);
      timestamps, frameIndices, episodeIndices, globalIndices, taskIndices := [], [], [], [], [];
      tasks, taskToIndex := [], map[];
      episodes := [];
      globalStats, epStats := NewAccumulators(spec), NewAccumulators(spec);
      index, episodeCounter, curEpCount := 0, 0, 0;
      curEpTasks := {};
      done, current, frames := [], [], [];
      NothingWritten(spec, fps);
    }

    ghost predicate Valid()
      reads this
    {
      && fps > 0
      && CountersOk(index, curEpCount, episodeCounter, done, current, frames)
      && EpisodesOk(episodes, done, spec, fps)
      && RowsOk(episodes, episodeIndices, frameIndices, timestamps, globalIndices, fps, curEpCount, index)
      && TasksOk(tasks, taskToIndex, taskIndices, curEpTasks, frames, current)
      && BuffersOk(spec, sink, actions, obs, globalStats, frames)
      && EpisodeStatsOk(spec, epStats, current)
    }

    twostate predicate BuffersKept()
      reads this
    {
      && sink == old(sink) && actions == old(actions) && obs == old(obs)
      && globalStats == old(globalStats) && epStats == old(epStats)
    }

    twostate predicate RowsKept()
      reads this
    {
      && timestamps == old(timestamps) && frameIndices == old(frameIndices) && episodeIndices == old(episodeIndices)
      && globalIndices == old(globalIndices) && index == old(index) && curEpCount == old(curEpCount)
    }

    twostate predicate TasksKept()
      reads this
    {
      && tasks == old(tasks) && taskToIndex == old(taskToIndex) && taskIndices == old(taskIndices)
      && curEpTasks == old(curEpTasks)
    }

    twostate predicate EpisodesKept()
      reads this
    {
      episodes == old(episodes) && episodeCounter == old(episodeCounter) && done == old(done)
    }

    /** `total_frames` and `total_episodes`. */
    lemma Counts()
      requires Valid()
      ensures frames == Flat(done) + current && index == |Flat(done)| + |current| && episodeCounter == |done|
    {
    }

    /** `open`. */
    method Open()
      requires Valid() && frames == []
      modifies `sink
      ensures Valid() && sink == Some([])
    {
      sink := Some([]);
    }

    /** The image loop of `add_frame`: write to the encoder and fold one histogram into both scopes. */
    method WriteImages(images: seq<NamedImage>) returns (outcome: Outcome)
      requires sink.Some? && Arrays(images)
      modifies `sink, `globalStats, `epStats
      ensures outcome == ImagesVerdict(spec, images, 0)
      ensures outcome.Added? ==>
                && sink == Some(old(sink.value) + images)
                && globalStats == old(globalStats).(images := FoldAllImages(old(globalStats).images, images))
                && epStats == old(epStats).(images := FoldAllImages(old(epStats).images, images))
    {
      for i := 0 to |images|
        invariant sink.Some? && sink.value == old(sink.value) + images[..i]
        invariant ImagesVerdict(spec, images, 0) == ImagesVerdict(spec, images, i)
        invariant globalStats == old(globalStats).(images := FoldAllImages(old(globalStats).images, images[..i]))
        invariant epStats == old(epStats).(images := FoldAllImages(old(epStats).images, images[..i]))
      {
        var verdict := ImageVerdict(spec, images[i]);
        if !verdict.Added? {
          return verdict;
        }
        assert images[..i + 1][..i] == images[..i];
        sink := Some(sink.value + [images[i]]);
        var histogram := HistogramOf(images[i].1);
        globalStats := globalStats.(images := FoldImage(globalStats.images, images[i].0, histogram));
        epStats := epStats.(images := FoldImage(epStats.images, images[i].0, histogram));
      }
      assert images[..|images|] == images;
      return Added;
    }

    /** The observation loop of `add_frame`: append to the column and fold into both scopes. */
    method AddObservations(vectors: seq<NamedVector>) returns (outcome: Outcome)
      modifies `obs, `globalStats, `epStats
      ensures outcome == VectorsVerdict(spec, vectors, 0)
      ensures outcome.Added? ==>
                && obs == AppendRows(old(obs), vectors)
                && globalStats ==
                   old(globalStats).(observations := FoldAllValues(old(globalStats).observations, vectors))
                && epStats == old(epStats).(observations := FoldAllValues(old(epStats).observations, vectors))
    {
      for i := 0 to |vectors|
        invariant VectorsVerdict(spec, vectors, 0) == VectorsVerdict(spec, vectors, i)
        invariant obs == AppendRows(old(obs), vectors[..i])
        invariant globalStats ==
                  old(globalStats).(observations := FoldAllValues(old(globalStats).observations, vectors[..i]))
        invariant epStats == old(epStats).(observations := FoldAllValues(old(epStats).observations, vectors[..i]))
      {
        var verdict := VectorVerdict(spec, vectors[i]);
        if !verdict.Added? {
          return verdict;
        }
        assert vectors[..i + 1][..i] == vectors[..i];
        obs := AppendRow(obs, vectors[i]);
        globalStats := globalStats.(observations := FoldValue(globalStats.observations, vectors[i]));
        epStats := epStats.(observations := FoldValue(epStats.observations, vectors[i]));
      }
      assert vectors[..|vectors|] == vectors;
      return Added;
    }

    /** `_resolve_task_index`. */
    method ResolveTaskIndex(task: Task) returns (i: nat)
      requires TaskTable(tasks, taskToIndex)
      modifies `tasks, `taskToIndex
      ensures TaskTable(tasks, taskToIndex) && old(tasks) <= tasks
      ensures i < |tasks| && tasks[i] == task
      ensures taskIndices == old(taskIndices) && curEpTasks == old(curEpTasks)
      ensures BuffersKept() && RowsKept() && EpisodesKept() && frames == old(frames) && current == old(current)
    {
      if task !in taskToIndex {
        TaskTableOneMore(tasks, taskToIndex, task);
        taskToIndex := taskToIndex[task := |tasks|];
        tasks := tasks + [task];
      }
      IndexMapFinds(tasks, task);
      return taskToIndex[task];
    }

    /** The checked part of `add_frame`: encode, buffer and fold until something does not have the probed shape. */
    method Take(frame: Frame) returns (outcome: Outcome)
      requires sink.Some? && Arrays(frame.images)
      requires HasDim(globalStats.action, spec.actionDim) && HasDim(epStats.action, spec.actionDim)
      modifies `sink, `actions, `obs, `globalStats, `epStats
      ensures outcome == Verdict(spec, frame)
      ensures outcome.Added? ==>
                && |frame.action| == spec.actionDim
                && sink == Some(old(sink.value) + frame.images)
                && actions == old(actions) + [frame.action]
                && obs == AppendRows(old(obs), frame.observations)
                && globalStats == Absorb(old(globalStats), frame)
                && epStats == Absorb(old(epStats), frame)
    {
      outcome := WriteImages(frame.images);
      if !outcome.Added? {
        return;
      }
      if |frame.action| != spec.actionDim {
        return ActionDimMismatch;
      }
      actions := actions + [frame.action];
      globalStats := globalStats.(action := AddVector(globalStats.action, frame.action));
      epStats := epStats.(action := AddVector(epStats.action, frame.action));
      outcome := AddObservations(frame.observations);
    }

    method TakeFrame(frame: Frame) returns (outcome: Outcome)
      requires sink.Some? && Arrays(frame.images)
      requires BuffersOk(spec, sink, actions, obs, globalStats, frames) && EpisodeStatsOk(spec, epStats, current)
      modifies `sink, `actions, `obs, `globalStats, `epStats
      ensures RowsKept() && TasksKept() && EpisodesKept() && current == old(current) && frames == old(frames)
      ensures outcome == Verdict(spec, frame)
      ensures outcome.Added? ==>
                && sink.Some? && BuffersOk(spec, sink, actions, obs, globalStats, frames + [frame])
                && EpisodeStatsOk(spec, epStats, current + [frame])
    {
      outcome := Take(frame);
      VerdictFits(spec, frame);
      if outcome.Added? {
        BuffersOkOneMore(spec, old(sink), old(actions), old(obs), old(globalStats), frames, frame);
        AbsorbOneMore(spec, current, frame);
      }
    }

    /** The bookkeeping part of `add_frame`: the task, one row, and the counters. */
    method RecordTask(frame: Frame)
      requires TasksOk(tasks, taskToIndex, taskIndices, curEpTasks, frames, current)
      modifies `taskIndices, `tasks, `taskToIndex, `curEpTasks, `current, `frames
      ensures BuffersKept() && RowsKept() && EpisodesKept()
      ensures TasksOk(tasks, taskToIndex, taskIndices, curEpTasks, frames, current)
      ensures frames == old(frames) + [frame] && current == old(current) + [frame]
    {
      var taskIndex := ResolveTaskIndex(frame.task);
      TasksOkOneMore(old(tasks), tasks, taskToIndex, taskIndices, curEpTasks, frames, current, taskIndex, frame);
      AppendTask(taskIndex, frame);
    }

    method AppendTask(taskIndex: nat, frame: Frame)
      modifies `taskIndices, `curEpTasks, `current, `frames
      ensures taskIndices == old(taskIndices) + [taskIndex] && curEpTasks == old(curEpTasks) + {frame.task}
      ensures current == old(current) + [frame] && frames == old(frames) + [frame]
      ensures tasks == old(tasks) && taskToIndex == old(taskToIndex) && BuffersKept() && RowsKept() && EpisodesKept()
    {
      taskIndices := taskIndices + [taskIndex];
      curEpTasks := curEpTasks + {frame.task};
      current := current + [frame];
      frames := frames + [frame];
    }

    method RecordRow()
      requires fps > 0 && episodeCounter == |episodes|
      requires RowsOk(episodes, episodeIndices, frameIndices, timestamps, globalIndices, fps, curEpCount, index)
      modifies `timestamps, `frameIndices, `episodeIndices, `globalIndices, `curEpCount, `index
      ensures BuffersKept() && TasksKept() && EpisodesKept() && current == old(current) && frames == old(frames)
      ensures RowsOk(episodes, episodeIndices, frameIndices, timestamps, globalIndices, fps, curEpCount, index)
      ensures curEpCount == old(curEpCount) + 1 && index == old(index) + 1
    {
      RowsOkOneMore(episodes, episodeIndices, frameIndices, timestamps, globalIndices, fps, curEpCount, index);
      timestamps := timestamps + [Seconds(curEpCount, fps)];
      frameIndices := frameIndices + [curEpCount];
      episodeIndices := episodeIndices + [episodeCounter];
      globalIndices := globalIndices + [index];
      curEpCount := curEpCount + 1;
      index := index + 1;
    }

    /** `add_frame`. */
    method AddFrame(frame: Frame) returns (outcome: Outcome)
      requires Valid() && Arrays(frame.images)
      modifies this
      ensures outcome == if old(sink).None? then NotOpened else Verdict(spec, frame)
      ensures outcome.Added? ==> Valid() && sink.Some?
      ensures outcome.Added? ==> current == old(current) + [frame]
      ensures !outcome.Added? ==> current == old(current) && index == old(index)
      ensures done == old(done) && episodes == old(episodes)
    {
      if sink.None? {
        return NotOpened;
      }
      CountersOkOneMore(index, curEpCount, episodeCounter, done, current, frames, frame);
      outcome := TakeFrame(frame);
      if outcome.Added? {
        RecordTask(frame);
        RecordRow();
      }
    }

    /** Append the record of the current episode and count it. */
    method FinishEpisode(e: Episode)
      modifies `episodes, `episodeCounter, `curEpCount, `done, `current
      ensures episodes == old(episodes) + [e]
      ensures episodeCounter == old(episodeCounter) + 1 && curEpCount == 0
      ensures done == old(done) + [old(current)] && current == []
      ensures BuffersKept() && TasksKept() && frames == old(frames) && index == old(index)
      ensures timestamps == old(timestamps) && frameIndices == old(frameIndices)
      ensures episodeIndices == old(episodeIndices) && globalIndices == old(globalIndices)
    {
      done, current, curEpCount := done + [current], [], 0;
      AppendEpisode(e);
    }

    method AppendEpisode(e: Episode)
      modifies `episodes, `episodeCounter
      ensures episodes == old(episodes) + [e] && episodeCounter == old(episodeCounter) + 1
      ensures BuffersKept() && RowsKept() && TasksKept()
      ensures done == old(done) && current == old(current) && frames == old(frames)
    {
      episodes := episodes + [e];
      episodeCounter := episodeCounter + 1;
    }

    /** Fresh accumulators and tasks for the next episode. */
    method ResetEpisode()
      modifies `curEpTasks, `epStats
      ensures curEpTasks == TasksIn([]) && EpisodeStatsOk(spec, epStats, [])
      ensures sink == old(sink) && actions == old(actions) && obs == old(obs) && globalStats == old(globalStats)
      ensures tasks == old(tasks) && taskToIndex == old(taskToIndex) && taskIndices == old(taskIndices)
      ensures RowsKept() && EpisodesKept() && current == old(current) && frames == old(frames)
    {
      curEpTasks := {};
      epStats := NewAccumulators(spec);
    }

    /** `end_episode`: a recording without frames leaves no episode and uses up no number. */
    method EndEpisode()
      requires Valid()
      modifies this
      ensures Valid() && frames == old(frames) && current == [] && sink == old(sink)
      ensures done == if old(current) == [] then old(done) else old(done) + [old(current)]
    {
      if curEpCount == 0 {
        ResetEpisode();
        return;
      }
      EpisodeFinishes(spec, fps, index, curEpCount, episodeCounter, done, current, frames, curEpTasks, epStats,
                      episodes,
                      episodeIndices, frameIndices, timestamps, globalIndices);
      FinishEpisode(NewEpisode(episodeCounter, index, curEpCount, fps, curEpTasks, epStats));
      ResetEpisode();
    }

    method CloseSink()
      modifies `sink
      ensures sink == None && actions == old(actions) && obs == old(obs) && globalStats == old(globalStats)
      ensures epStats == old(epStats) && frames == old(frames) && current == old(current)
      ensures RowsKept() && TasksKept() && EpisodesKept()
    {
      sink := None;
    }

    /** `close`, up to the files it writes: the encoders are closed and the statistics of the whole dataset
        published. */
    method Close() returns (stats: FeatureStats)
      requires Valid()
      modifies `sink
      ensures Valid() && sink == None
      ensures stats == StatsOf(globalStats) && index == old(index) && episodeCounter == old(episodeCounter)
      ensures current == old(current) && done == old(done)
    {
      BuffersClosed(spec, sink, actions, obs, globalStats, frames);
      CloseSink();
      stats := StatsOf(globalStats);
    }
  }
}
