# Verified model of the ROS 2 recorder

A Dafny model of five cores of the recorder's backend and frontend, with proofs of what they promise.

- **Job queue and live view** (`job_models`, `job_queue_spec`, `job_queue_invariant`, `job_queue`, `jobs_stream`,
  `job_system`, `job_theorems`, `job_outcomes`, `job_lists`). `JobQueueSpec` gives every atomic section of the queue as a function on its fields,
  `JobQueues` holds the queue as a class whose methods are proved against these functions, and `JobSystem` interleaves
  them: enqueues, the worker, threads that set progress and then schedule its broadcast, browsers that connect, fold and
  leave, and waiters. The steps are the real suspension points.
- **Loss accounting** (`topic_stats_spec`, `topic_monitor`, `topic_theorems`, `topic_rates`, `topic_windows`,
  `topic_losses`, `topic_status`, `loss_detection`, `loss_theorems`, `loss_places`, `timeline_bins`, `chart_series`).
  Live loss from header stamps with tumbling windows and a learned baseline, the rates and the status it publishes, the
  two quartile detectors of the quality report and of the timeline, and the charts' prefix sums.
- **Dataset export and preview** (`resampling`, `episode_frames`, `frame_meaning`, `statistics`, `image_stats`,
  `dataset_frames`, `dataset_writer`, `dataset_theorems`, `dataset_export`, `dataset_export_theorems`,
  `dataset_meaning`, `media_stream`, `telemetry`).
  Resampling onto a uniform timebase, the stateful writer with its episodes and statistics, the export from messages to
  dataset, the preview's one-pass merge and its telemetry.
- **Recording scan cache** (`scan_cache`, `scan_runs`, `scan_cache_theorems`, `recording_scanner`, `sequential_scan`). A
  step system in which files are written while overlapping scans take stats, decide, read and publish; the scan's own
  loops; and a scan on its own as a run of the step system.
- **Bulk tags** (`bulk_tags`, `recording_meta`, `bulk_tag_theorems`, `bulk_tag_clicks`). The dialog's rows and clicks, the request it saves
  and the merge that applies it.

`numbers`, `sequences`, `sorting` and `wrappers` are shared. Time is exact: `real` seconds and `int` nanoseconds, and
Python's `round` is modelled half to even. Counters are unbounded. Ids, folders, messages, contents and names are
abstract types. What a job body does, what a file parses to and what a message decodes to are arbitrary.

Where code and documentation differ, the model follows the code:

- `_calc_bin_width` promises 600 to 1800 bins; this holds exactly between 29.95 s and 30 h (`BinCountInRange`).
- The comment in `recording/router.py` says the quality job always finishes before validation; a validation that was
  already active, and ahead of the quality job, when the chain began goes first (`ValidationFollowsQuality`,
  `ValidationCanGoFirst`).
- The timeline says it matches the quality report; they differ for a lone message far from an end of the recording
  (`DetectorsAgree`).
- Messages and interval losses add up to the grid exactly while the third-quartile interval is one period
  (`LossesAccountForGrid`); a steady loss of every second message is not seen (`EverySecondLostIsUnseen`).
- Bins are half-open and the last one has no successor, so a message that ends a recording of a whole number of bins is
  in none of them (`BinsHoldEveryMessage`); one of 30 s gets 600 bins of 0.05 s (`LastMessageIsLost`).
- A scan's fingerprint counts an absent file as a stamp, so deletion brings a stamp back (`DeletionGoesStale`).
- Progress that a thread scheduled before its job ended is announced afterwards, as progress of an ended job
  (`NamedByStatusIff`, `LateProgress`).
- A topic below half its configured rate is to be shown as a warning. Over its shortest window, half a second, the
  measured rate is off by up to two hertz, so this is certain exactly under the conditions of `AlwaysWarningIff`; a
  source that keeps a rate of 2 Hz or less can be shown as a warning and a slow one as ok (`AlwaysOkIff`,
  `OnRateShowsOkIff`, `SlowOnRateWarns`, `SlowShowsOk`), and so can a fast source that stalls for half a second, far below the
  gap threshold (`StallShowsWarning`).
- Samples that share a stamp resolve to the first of them, as the comment in `interpolation.py` says; so a linear value
  lies on the line between two consecutive samples exactly unless the time is such a stamp and the segment leaves from a
  later, different sample of it (`ClosedSegmentIff`, `RepeatedTimeJumps`).
- If the file list is fetched again while the bulk dialog is open, a tag that was typed and then turns up on some
  recordings is shown mixed but added (`RowIsKeptIff`, `RefetchBreaksARow`), and one that was unchecked, vanished and is
  typed again is shown unchecked (`TypedIsCheckedIff`, `TypedAgainIsUnchecked`).

## Model

| member | source | states |
|---|---|---|
| `JobsStream.FoldAppend` | frontend/src/hooks/use-jobs-stream.ts:81-99 | delivering one more event is the same as having folded the longer stream from the start |
| `JobsStream.UpsertIsUpdate` | frontend/src/hooks/use-jobs-stream.ts:56-67 | on a list without repeated ids an upsert leaves exactly one entry for the job, the new one, and all other entries as they were |
| `JobSystem.StepInv` | backend/app/features/jobs/service.py:278-424 | every step of the queue, its worker, threads, browsers and waiters keeps the system invariant |
| `JobSystem.Reachable` | backend/app/features/jobs/service.py:65-424 | the invariant holds after every legal run from an empty queue |
| `JobTheorems.LiveViewConverges` | backend/app/features/jobs/service.py:329-346 | whenever a browser joined, folding what was sent to it gives one entry per job of `list_jobs()` with the server's key, status and error, and its progress unless a thread's broadcast is still to run; anything else it holds is an ended, evicted job |
| `JobTheorems.StatusNeverGoesBack` | frontend/src/hooks/use-jobs-stream.ts:56-99 | no browser shows a job at an earlier stage than it showed before, across deliveries, reconnects and evictions |
| `JobTheorems.OneUnfinishedJobPerKey` | backend/app/features/jobs/service.py:348-358 | in every reachable state the active map is a bijection with the unfinished jobs and never points to a job that was dropped |
| `JobTheorems.EnqueueReturnsTheUnfinishedJob` | backend/app/features/jobs/service.py:107-276 | an enqueue answers with the only unfinished job of its type and folder, and creates one exactly when there was none |
| `JobTheorems.MemoryIsBounded` | backend/app/features/jobs/service.py:405-424 | `_jobs` and the completion events are exactly the unfinished jobs and the history; the history has at most 50 jobs and no duplicates; an event is set exactly when its job is in the history |
| `JobTheorems.DroppedEventsAreSet` | backend/app/features/jobs/service.py:414-424 | eviction drops no event that is not set, and the job that just ended is signalled |
| `JobTheorems.RunsInPutOrder` | backend/app/features/jobs/service.py:360-377 | at most one job runs, and none leaves the queue before every job put earlier has ended |
| `JobTheorems.WorkerIsNeverStuck` | backend/app/features/jobs/service.py:360-424 | while some job is unfinished the worker can take or end a job |
| `JobTheorems.WorkRunsOut` | backend/app/features/jobs/service.py:360-424 | a job has ended once the worker has made the number of steps that stood before it, whatever else happens in between |
| `JobTheorems.WaitersWake` | backend/app/features/jobs/service.py:278-299 | no lost wakeup: after those worker steps a waiter is awake or can wake, even if its job has been evicted |
| `JobTheorems.ValidationFollowsQuality` | backend/app/features/recording/router.py:160-188 | in every run, the validation job the chain gets waits for the quality job it gets, new or already active, exactly unless the validation active when the chain began is still active and stands before the quality job |
| `JobTheorems.ValidationCanGoFirst` | backend/app/features/recording/router.py:160-188 | a validation started by hand just before the quality job is enqueued goes first |
| `JobOutcomes.JobsEndAsTheyRan` | backend/app/features/jobs/service.py:379-424 | in every reachable state a job that has ended is completed without error if its own body returned and failed with that message if it raised; one that has not ended has no error |
| `JobOutcomes.OutcomeIsKept` | backend/app/features/jobs/service.py:379-403 | what a body ends with, status, error and key, is what every later state holds |
| `JobOutcomes.ProgressIsTheLastReported` | backend/app/features/jobs/service.py:449-487 | in every run a job shows the progress that was set last, on the event loop or by a thread |
| `JobOutcomes.FailedMeansError` | backend/app/features/jobs/service.py:390-403 | in every reachable state, on the server, in every browser and in every event on its way, a job is failed exactly when it carries an error, and started, completed and failed events carry such jobs |
| `JobOutcomes.FinishIsAnnounced` | backend/app/features/jobs/service.py:390-403 | every connected browser is sent the ended job, under the name of its outcome |
| `JobOutcomes.NamedByStatusIff` | backend/app/features/jobs/service.py:444-460 | an event is called completed or failed exactly when it carries such a job, exactly unless it is a thread's late announcement of an ended job |
| `JobOutcomes.LateProgress` | backend/app/features/jobs/service.py:444-460 | a run in which progress of a completed job is announced |
| `JobOutcomes.WaitBlocksIff` | backend/app/features/jobs/service.py:278-299 | waiting for a job blocks exactly while it has not ended |
| `JobOutcomes.WakesIff` | backend/app/features/jobs/service.py:278-299 | a waiter can wake exactly when its job has ended |
| `JobLists.HistoryIsTheLastFifty` | backend/app/features/jobs/service.py:405-424 | the history holds the last fifty jobs that ended, the newest first |
| `JobLists.ListOrder` | backend/app/features/jobs/service.py:324-327 | unfinished jobs are listed first, in the order they were put; ended ones after them, the newest first |
| `JobLists.QueuesAreTheConnected` | backend/app/features/jobs/service.py:329-346 | in every run exactly the connected browsers have a queue |
| `JobLists.UpsertKeepsPlaces` | frontend/src/hooks/use-jobs-stream.ts:56-67 | a job a browser lists keeps its place, and one it does not comes first |
| `JobQueues.JobQueue.Enqueue` | backend/app/features/jobs/service.py:107-276 | the method's new state is the specified one: the existing active job, or a new registered, queued and announced one |
| `JobQueues.JobQueue.StartNext` | backend/app/features/jobs/service.py:360-377 | takes the front of the queue, marks it running and announces it |
| `JobQueues.JobQueue.Report` | backend/app/features/jobs/service.py:462-487 | progress set on the event loop changes the running job and is announced at once |
| `JobQueues.JobQueue.ThreadSet` | backend/app/features/jobs/service.py:449-454 | a worker thread's assignment changes the job and announces nothing |
| `JobQueues.JobQueue.ThreadSchedule` | backend/app/features/jobs/service.py:455-458 | the thread's next operation schedules the announcement, however much happened in between |
| `JobQueues.JobQueue.RunCallback` | backend/app/features/jobs/service.py:444-460 | a scheduled announcement carries the job as it is when it runs |
| `JobQueues.JobQueue.EndCurrent` | backend/app/features/jobs/service.py:379-424 | ends the running job as its body did, announces it, frees its key, files it in the bounded history and signals its event; `JobOutcomes` says what that makes of the job |
| `JobQueues.JobQueue.Subscribe` | backend/app/features/jobs/service.py:329-346 | a new subscriber's stream starts with the snapshot of `list_jobs()` |
| `JobQueues.JobQueue.Broadcast` | backend/app/features/jobs/service.py:675-682 | one event with the job's present fields is appended to every subscriber's queue |
| `JobQueues.JobQueue.ListJobs` | backend/app/features/jobs/service.py:324-327 | the unfinished jobs in the order of `_jobs`, then the history |
| `JobQueueInvariant.ListJobsContents` | backend/app/features/jobs/service.py:324-327 | `list_jobs()` names every unfinished job and every job of the history once |
| `TopicTheorems.LostBetweenSlots` | backend/app/features/topics/models.py:171-183 | for stamps less than a quarter period off their grid slots the interval rule counts exactly the slots in between |
| `TopicTheorems.StampLossIsConserved` | backend/app/features/topics/models.py:154-197 | with a fixed baseline, received plus counted-lost messages over all tumbling windows is the number of grid slots from the first stamp to the last, however refreshes interleave |
| `TopicTheorems.QuarterPeriodIsTight` | backend/app/features/topics/models.py:171-183 | exactly at a quarter period a lost message can go uncounted |
| `TopicTheorems.FixedBaselineIsNeverChanged` | backend/app/features/topics/service.py:210-248 | no run of messages, ticks, pauses, resumes and resets changes a baseline fixed by the configuration |
| `TopicTheorems.RateBound` | backend/app/features/topics/models.py:79-85 | 50 or more arrivals over 3 s or more, measured with an error of one period, give a rate of at least 1/p and at most 50/49 of it |
| `TopicTheorems.LearnedBaselineIsClose` | backend/app/features/topics/models.py:60-90 | for arrivals every p seconds, in every run with any pauses and resets, a rate that is locked in lies between 1/p and 50/49 of 1/p |
| `TopicMonitoring.BaselineLearner.Step` | backend/app/features/topics/models.py:60-85 | the learner's new snapshot and proposal are the specified ones |
| `TopicMonitoring.TopicStats.OnStamp` | backend/app/features/topics/models.py:154-183 | the receive and stamp counters after a message |
| `TopicMonitoring.TopicStats.RefreshCache` | backend/app/features/topics/models.py:185-197 | rate, status and loss after a tick, including the restarts of both tumbling windows; what is shown is said by `TopicWindows`, `TopicLosses` and `TopicStatus` |
| `TopicMonitoring.TopicStats.ComputeLossRate` | backend/app/features/topics/models.py:288-330 | the branch taken and the new counters, from stamps while they are usable and from counts otherwise; the rows below say what the published numbers mean |
| `TopicRates.PublishedNumbersInRange` | backend/app/features/topics/models.py:185-197 | in every run the published loss rate is in [0, 1], rate and drop count are not negative, and both losses are 0 in danger |
| `TopicRates.StampRateIsShare` | backend/app/features/topics/models.py:297-309 | published from stamps, rate times received and lost messages of the open window is its lost messages |
| `TopicRates.CountRateIsShare` | backend/app/features/topics/models.py:310-330 | published from counts, rate times the messages expected since the window began is what is missing of them, or 0 when none is |
| `TopicRates.PublishedRateIsMissingShare` | backend/app/features/topics/models.py:288-309 | for stamps near a grid, in every run, the published rate is the share of the open window's grid slots that no stamp falls on |
| `TopicWindows.ShownStatus` | backend/app/features/topics/models.py:332-349 | in every run, inactive without a message since the topic was subscribed, resumed or reset; danger when the last one is further back than the gap threshold; otherwise warning exactly when there is a rate and the published one is below half of it |
| `TopicWindows.ShownRate` | backend/app/features/topics/models.py:274-286 | in every run, over a window of half a second or more the published rate times its length is the number of messages heard in it, over a shorter one it stays; after a tick no window is older than three seconds |
| `TopicWindows.NothingIsLearnedEarly` | backend/app/features/topics/models.py:60-85 | in every run a rate is learned from at least 51 messages over four seconds |
| `TopicWindows.RateIsLearned` | backend/app/features/topics/models.py:60-85 | a second after the first message, 50 messages that reach three seconds further are enough to learn a rate |
| `TopicLosses.ShownLossFromCounts` | backend/app/features/topics/models.py:310-330 | in every run, published from counts, rate and drops come from the messages heard in the window against those the rate calls for, and the window starts over at five seconds |
| `TopicLosses.StampsPublish` | backend/app/features/topics/models.py:297-309 | published from stamps, rate and drops are the open window's, which starts over at five seconds |
| `TopicLosses.NothingPublished` | backend/app/features/topics/models.py:288-330 | in every other case no loss is shown and the windows go on |
| `TopicLosses.RestartForgets` | backend/app/features/topics/service.py:210-248 | after any run, a reset topic is as newly subscribed and a resumed one too but for its rate |
| `TopicStatus.ShownRateIsNear` | backend/app/features/topics/models.py:274-286 | while messages come every p seconds the published rate is within two hertz of 1/p, and over a window of half a second or more within one message |
| `TopicStatus.AlwaysOkIff` | backend/app/features/topics/models.py:332-349 | a source with a message every p seconds is shown as ok by every tick up to a given delay after its last message, from half a second after its first, exactly when its two emptiest windows hold half of what the configured rate calls for |
| `TopicStatus.OnRateShowsOkIff` | backend/app/features/topics/models.py:332-349 | a source that keeps its configured rate is always shown as ok before its next message is due exactly above 2 Hz |
| `TopicStatus.AlwaysWarningIff` | backend/app/features/topics/models.py:332-349 | a source with a message every p seconds is shown as warning by every tick within the gap threshold exactly when its two fullest windows hold less than half of what the configured rate calls for |
| `TopicStatus.SlowShowsWarning` | backend/app/features/topics/models.py:332-349 | more than two hertz below half the configured rate is always a warning |
| `TopicStatus.SlowOnRateWarns` | backend/app/features/topics/models.py:332-349 | a run of a source that is on time at 0.5 Hz and is shown as warning |
| `TopicStatus.SlowShowsOk` | backend/app/features/topics/models.py:332-349 | a run of a source with a message every second that is shown as ok at 3 Hz |
| `TopicStatus.StallShowsWarning` | backend/app/features/topics/models.py:332-349 | any source, however fast, that stalls for half a second can be shown as warning |
| `TopicMonitoring.TopicStats.MaybeLearnBaseline` | backend/app/features/topics/models.py:208-221 | a proposed rate is committed only while there is no baseline |
| `TopicMonitoring.TopicMonitorService.OnMessage` | backend/app/features/topics/service.py:312-358 | nothing while paused or for a topic that is not subscribed; one topic's counters otherwise |
| `TopicMonitoring.TopicMonitorService.GetTopicStats` | backend/app/features/topics/service.py:92-112 | every topic learns and then refreshes, in that order |
| `TopicMonitoring.TopicMonitorService.ResetBaseline` | backend/app/features/topics/service.py:210-223 | learned baselines are forgotten, fixed ones stay, and all timing starts over |
| `TopicMonitoring.TopicMonitorService.Resume` | backend/app/features/topics/service.py:236-248 | all timing starts over, baselines stay, and monitoring is on again |
| `LossDetection.DetectLossEvents` | backend/app/features/analysis/models.py:291-328 | the loop returns the specified events of the intervals over the quartile threshold; `LossPlaces.ReportedIff` says which stretches these are |
| `LossDetection.DetectEdgeLoss` | backend/app/features/analysis/models.py:242-289 | the events of the empty stretches at both ends |
| `LossDetection.FromTimestamps` | backend/app/features/analysis/models.py:139-240 | the report's events are the edge and interval events in time order; lost messages, minor and major losses (three messages or more) are counted; ok exactly without an event, danger exactly with a major loss or more than 5% lost; with under two messages the status follows the count-based rate |
| `LossDetection.StatusMeans` | backend/app/features/analysis/models.py:362-378 | with messages, the two thresholds and both counts come down to: ok without any event, danger with a major loss or more than one message in twenty lost |
| `LossDetection.FewMessagesStatus` | backend/app/features/analysis/models.py:337-360 | judged by the count alone, a topic is in danger exactly below 95% of the messages its rate and the duration call for, and ok from 98% on |
| `LossDetection.BuildGaps` | backend/app/features/analysis/timeline_analyzer.py:266-296 | the timeline's gaps are the specified ones |
| `LossDetection.DetectLossEventsForTimeline` | backend/app/features/analysis/timeline_analyzer.py:377-407 | the loop of the second detector, with its own early return and threshold; `LossPlaces.TimelineListsIff` says which stretches it finds |
| `LossTheorems.FewIntervalsDetectNothing` | backend/app/features/analysis/models.py:304-313 | with at most four intervals the third quartile is the longest, so nothing exceeds the threshold and the two detectors' different early returns do not matter |
| `LossTheorems.DetectorsAgree` | backend/app/features/analysis/timeline_analyzer.py:270-296 | under a configured rate the timeline's gaps and the report's events are the same list exactly unless there is a single message more than 1.5 periods from an end |
| `LossTheorems.LoneMessageDisagrees` | backend/app/features/analysis/models.py:139-163 | one message in the middle of four seconds at 1 Hz: the timeline shows gaps, the report none |
| `LossTheorems.Accounted` | backend/app/features/analysis/models.py:315-328 | periods skipped on a grid are the lost counts of the events plus those hidden below the threshold |
| `LossTheorems.LossesAccountForGrid` | backend/app/features/analysis/models.py:307-328 | messages plus interval losses equal the grid slots from first to last exactly when the third-quartile interval is one period |
| `LossTheorems.EverySecondLostIsUnseen` | backend/app/features/analysis/models.py:307-328 | losing every second message throughout is reported as no loss |
| `LossPlaces.FenceIsThreshold` | backend/app/features/analysis/models.py:304-313 | the threshold is the upper quartile fence, by ranks of the interval lengths, and at least one and a half periods |
| `LossPlaces.LostIsNearest` | backend/app/features/analysis/models.py:315-328 | of a span over one and a half periods, one message less than the nearest number of periods is lost |
| `LossPlaces.ReportedIff` | backend/app/features/analysis/models.py:242-328 | an event is reported exactly when it stands, at its place and with its length and loss, for two consecutive messages further apart than the threshold or for an end of the recording without messages |
| `LossPlaces.LossesAreEmpty` | backend/app/features/analysis/models.py:242-328 | no message lies inside a reported loss, and each of its ends is a message or an end of the recording |
| `LossPlaces.SilencesAreReported` | backend/app/features/analysis/models.py:242-328 | every such stretch is reported |
| `LossPlaces.LossesAreDisjoint` | backend/app/features/analysis/models.py:139-240 | reported losses stand in time order and do not overlap, so none is reported twice |
| `LossPlaces.TimelineListsIff` | backend/app/features/analysis/timeline_analyzer.py:266-407 | a gap is on the timeline exactly when it stands for such a stretch, for any number of messages |
| `LossPlaces.GapsAreDisjoint` | backend/app/features/analysis/timeline_analyzer.py:266-296 | the timeline's gaps stand in time order and do not overlap |
| `TimelineBins.CalcBinWidth` | backend/app/features/analysis/timeline_analyzer.py:202-218 | the loop returns the width the specification picks |
| `TimelineBins.BinCountInRange` | backend/app/features/analysis/timeline_analyzer.py:202-218 | the documented 600 to 1800 bins hold exactly for recordings longer than 29.95 s and at most 30 h |
| `TimelineBins.WidthIsTheSmallest` | backend/app/features/analysis/timeline_analyzer.py:202-218 | the width is the smallest of the list that gives at most 1800 bins, or its largest |
| `TimelineBins.BuildBins` | backend/app/features/analysis/timeline_analyzer.py:298-321 | every bin counts the messages of its half-open interval and is flagged by the gaps that overlap it |
| `TimelineBins.TheBinOf` | backend/app/features/analysis/timeline_analyzer.py:298-301 | a message before the end of the last bin lies in exactly one bin |
| `TimelineBins.CountsAddUp` | backend/app/features/analysis/timeline_analyzer.py:298-301 | the counts of the first n bins add up to the messages before the end of bin n |
| `TimelineBins.BinsHoldEveryMessage` | backend/app/features/analysis/timeline_analyzer.py:255-321 | the counts add up to all messages exactly unless the recording is a whole number of bins long and one of the topic's messages ends it |
| `TimelineBins.LastMessageIsLost` | backend/app/features/analysis/timeline_analyzer.py:202-321 | a 30 s recording with a message at both ends: the code's own 600 bins count one of the two |
| `TimelineBins.GapIsVisible` | backend/app/features/analysis/timeline_analyzer.py:302-321 | every gap that starts inside the bins flags the bin it starts in, with its own severity |
| `TimelineBins.FlagsMeetGaps` | backend/app/features/analysis/timeline_analyzer.py:302-321 | a bin is flagged exactly when a gap of that severity has a moment in common with it |
| `ChartSeries.BuildTopicLossRateSeries` | frontend/src/features/quality-timeline/loss-rate-utils.ts:27-54 | each point is the deficit of the direct sums over its clamped bin range, in percent between 0 and 100; no index is out of range |
| `ChartSeries.WindowIsOverlap` | frontend/src/features/quality-timeline/loss-rate-utils.ts:42-46 | the bin range of a point is exactly the bins whose time span meets the second around it |
| `ChartSeries.ComputeSmoothedDeficits` | frontend/src/features/quality-timeline/heatmap-utils.ts:33-54 | each bin's value is the deficit of the direct sums over the bins around it, between 0 and 1 |
| `ChartSeries.LossPointMeans` | frontend/src/features/quality-timeline/loss-rate-utils.ts:27-54 | a point times what is expected in the bins that meet the second around it is a hundred times what is missing of it |
| `ChartSeries.SmoothedMeans` | frontend/src/features/quality-timeline/heatmap-utils.ts:33-54 | a cell times what is expected in the bins around it is what is missing of it |
| `ChartSeries.HalfWindowIsHalfSecond` | frontend/src/features/quality-timeline/heatmap-utils.ts:33-54 | on each side as many bins as fit half a second best, and at least one |
| `Resampling.BisectLeftSplits` | backend/app/features/lerobot_export/interpolation.py:121-121 | on sorted stamps the position splits those before the target from the rest |
| `Resampling.NearestIsGlobal` | backend/app/features/lerobot_export/interpolation.py:120-131 | looking only at the two bisect neighbours finds a nearest message of all, and misses none within the tolerance |
| `Resampling.InterpolateNearest` | backend/app/features/lerobot_export/interpolation.py:109-131 | the loop returns the nearest message's value at each time, None beyond the tolerance |
| `Resampling.AlignNearestForwardFill` | backend/app/features/lerobot_export/converter.py:186-218 | the aligned images are the forward fill of what the nearest interpolator returns |
| `Resampling.VideoNeverStepsBack` | backend/app/features/lerobot_export/converter.py:203-218 | on increasing times a camera never goes back to an earlier message and, once it has an image, always has one |
| `Resampling.FillOfIndices` | backend/app/features/lerobot_export/converter.py:203-218 | the image shown is that of the filled index, so the order of indices is the order of images |
| `Resampling.LinearIsInterpolated` | backend/app/features/lerobot_export/interpolation.py:58-95 | inside the source's own time range every value is that of the first sample of that time or lies on the line through its two bracketing samples |
| `Resampling.LinearBetween` | backend/app/features/lerobot_export/interpolation.py:58-95 | strictly between two samples every component lies on the straight line through them |
| `Resampling.LinearMeans` | backend/app/features/lerobot_export/interpolation.py:58-95 | at any time the value is the first sample's before all, the last one's after all, and otherwise a sample's or on the line |
| `Resampling.ClosedSegmentIff` | backend/app/features/lerobot_export/interpolation.py:88-95 | on a closed segment the value is on the line exactly unless the time is a repeated stamp the segment leaves from, where the samples differ |
| `Resampling.RepeatedTimeJumps` | backend/app/features/lerobot_export/interpolation.py:88-95 | two samples at one time: the segment that leaves from the second does not start on its own line |
| `EpisodeFrames.RefTimestampsFit` | backend/app/features/lerobot_export/converter.py:85-110 | the timebase is uniform and increasing, starts where the window starts, stops when one more step would pass its end and, in intersection mode, stays inside every topic's range |
| `EpisodeFrames.IntervalIsFramePeriod` | backend/app/features/lerobot_export/converter.py:85-110 | the step is the frame period in whole nanoseconds |
| `EpisodeFrames.RefTimestampsExist` | backend/app/features/lerobot_export/converter.py:85-110 | there is a timebase exactly when some topic has messages and, in intersection mode, every topic starts before any ends |
| `EpisodeFrames.IterEpisodeFrames` | backend/app/features/lerobot_export/converter.py:145-183 | the frames are those of the positions at which every observation, the action and every image has a value |
| `EpisodeFrames.EmittedFramesAreComplete` | backend/app/features/lerobot_export/converter.py:168-183 | every emitted frame has one image per configured camera and one vector per configured field, in order |
| `EpisodeFrames.EmittedFramesAreASuffix` | backend/app/features/lerobot_export/converter.py:161-183 | with linear sources, messages on every topic and an action, the frames are a contiguous suffix of the timebase that starts where the last camera first matches |
| `EpisodeFrames.IntersectionNeverHolds` | backend/app/features/lerobot_export/converter.py:104-110 | in intersection mode no linear value is a held boundary sample |
| `FrameMeaning.EpisodeMeans` | backend/app/features/lerobot_export/converter.py:145-218 | an episode has one frame for every reference time at which nothing is missing, in order; every vector is on the line through its source's samples or that of the nearest message within the sync tolerance, and every image is of the last message matched within the image tolerance |
| `FrameMeaning.EveryTopicCounts` | backend/app/features/lerobot_export/converter.py:85-110 | every configured topic with messages has its say in the timebase |
| `Statistics.SquaresDominate` | backend/app/features/lerobot_export/stats.py:58-68 | n·Σx² ≥ (Σx)² for all samples |
| `Statistics.MomentsGiveVariance` | backend/app/features/lerobot_export/stats.py:58-68 | mean square minus squared mean is the mean squared distance from the mean, so the clamp at zero never acts |
| `Statistics.VectorStatsAreDirect` | backend/app/features/lerobot_export/stats.py:50-68 | after any samples the published minimum, maximum, mean and variance are those of the samples themselves |
| `Statistics.VectorStats.Add` | backend/app/features/lerobot_export/stats.py:50-56 | the running fields after one more vector |
| `Statistics.VectorStats.Stats` | backend/app/features/lerobot_export/stats.py:58-68 | every dimension's statistics describe the samples added, and their number is published |
| `Statistics.StatsCombine` | backend/app/features/lerobot_export/stats.py:58-127 | statistics of everything are those of the parts combined: the extreme of the extremes, and mean and mean square weighted by sample counts |
| `ImageStatistics.FoldedImages` | backend/app/features/lerobot_export/stats.py:94-107 | the folded histogram counts the pixel values of all frames |
| `ImageStatistics.MomentOfBincount` | backend/app/features/lerobot_export/stats.py:109-116 | sums over bins weighted by value equal the sums over the pixels |
| `ImageStatistics.BinsAreExtremes` | backend/app/features/lerobot_export/stats.py:117-120 | first and last populated bin are the smallest and largest pixel value |
| `ImageStatistics.ImageStatsAreDirect` | backend/app/features/lerobot_export/stats.py:86-127 | each channel's published statistics are those of all its pixels in [0, 1]; a channel without pixels is all zero |
| `ImageStatistics.ImageStats.Fold` | backend/app/features/lerobot_export/stats.py:104-107 | one histogram folded in adds one frame |
| `ImageStatistics.ImageStats.Stats` | backend/app/features/lerobot_export/stats.py:109-127 | every channel's statistics describe the pixels folded in, all zero without any, and the number of frames is published |
| `DatasetFrames.VerdictFits` | backend/app/features/lerobot_export/writer.py:133-171 | a frame is taken exactly when every image, the action and every observation has the probed shape |
| `DatasetMeaning.VerdictIsTheFirstFault` | backend/app/features/lerobot_export/writer.py:133-171 | the verdict names the first fault: the images in order, then the action, then the observations in order |
| `DatasetFrames.PublishedStatsDescribe` | backend/app/features/lerobot_export/writer.py:204-204 | the statistics published for a run of frames describe every component's samples in these frames |
| `DatasetWriter.LeRobotV30Writer.constructor` | backend/app/features/lerobot_export/writer.py:63-98 | a new writer is consistent and empty |
| `DatasetWriter.LeRobotV30Writer.AddFrame` | backend/app/features/lerobot_export/writer.py:128-184 | refuses a frame with the first complaint in the order of the checks, or takes it and keeps rows, tasks, buffers and both scopes of statistics consistent |
| `DatasetWriter.LeRobotV30Writer.ResolveTaskIndex` | backend/app/features/lerobot_export/writer.py:250-254 | a known task keeps its position, a new one gets the next |
| `DatasetWriter.LeRobotV30Writer.EndEpisode` | backend/app/features/lerobot_export/writer.py:186-210 | a non-empty episode is recorded with its range, times, tasks and statistics; an empty one leaves no trace and uses no number |
| `DatasetTheorems.EpisodesTile` | backend/app/features/lerobot_export/writer.py:193-210 | episodes are numbered in order, never empty, and cover all frames without gap or overlap |
| `DatasetTheorems.RowsNameTheirEpisode` | backend/app/features/lerobot_export/writer.py:176-184 | each row names the one episode whose range holds it, counts frames and time from that episode's start and stands for that episode's frame |
| `DatasetTheorems.FinishedDataset` | backend/app/features/lerobot_export/writer.py:256-296 | after the last episode the written columns of row i are frame i's action, task, episode, position and time, and each observation column holds the frames' values in order |
| `DatasetTheorems.TasksAreNumbered` | backend/app/features/lerobot_export/writer.py:250-254 | task positions and tasks determine each other |
| `DatasetMeaning.RecordMeans` | backend/app/features/lerobot_export/writer.py:193-210 | an episode's record states its number, length, range, begin and end times and exactly the tasks of its frames |
| `DatasetMeaning.RowTimes` | backend/app/features/lerobot_export/writer.py:176-184 | a row's time times the frame rate is its position in its episode |
| `DatasetMeaning.WrittenVideo` | backend/app/features/lerobot_export/writer.py:133-148 | each camera's encoder got one image per frame, the frame's own |
| `DatasetTheorems.GlobalStatsCombineEpisodes` | backend/app/features/lerobot_export/writer.py:145-174 | for every component with samples in each episode the dataset's statistics are the episodes' combined |
| `DatasetTheorems.ActionStatsCombineEpisodes` | backend/app/features/lerobot_export/writer.py:161-164 | for the action always, weighted by the episodes' lengths |
| `DatasetExport.RunExport` | backend/app/features/lerobot_export/service.py:65-121 | from the recordings' messages, the answer is the specified one: no recordings, the first bad frame, no frames, or the counts and the skipped names; the writer holds the resampled, decoded frames of the contributing recordings as its episodes |
| `DatasetExport.ExportRecording` | backend/app/features/lerobot_export/service.py:124-139 | the recording's timebase and frames become one episode, or none when it yields no frame |
| `DatasetExport.NothingIsLost` | backend/app/features/lerobot_export/service.py:91-104 | recording k is the next episode if it yields a frame and the next skipped name if not; there is nothing else, and the episodes hold all frames in order |
| `DatasetMeaning.ExportMeans` | backend/app/features/lerobot_export/service.py:65-121 | the answer: no recording has an MCAP file; the first refused frame and why; no frame at all; or the numbers of episodes and frames, and as skipped exactly the recordings without file or frame |
| `DatasetMeaning.RowComesFrom` | backend/app/features/lerobot_export/service.py:124-139 | every row of an exported dataset is a frame the converter yields for one of the recordings, decoded and with that recording's task |
| `DatasetExportTheorems.ExportedStatsCombine` | backend/app/features/lerobot_export/service.py:91-104 | in an exported dataset the statistics of every action and observation component and of every camera with pixels are the episodes' combined |
| `DatasetExportTheorems.ExportedColumns` | backend/app/features/lerobot_export/service.py:124-139 | in an exported dataset row i of every observation column is the vector of frame i, so no frame lacks or repeats a field |
| `MediaStream.StreamFrames` | backend/app/features/media/mcap_converter.py:286-319 | one pass over the messages writes at each non-decreasing target the streamed message; without messages nothing is written |
| `MediaStream.FindNearestIsLatest` | backend/app/features/media/mcap_converter.py:488-500 | on sorted stamps the binary search finds the last message at or before the target, or the first one |
| `MediaStream.StreamingIsBinarySearch` | backend/app/features/media/mcap_converter.py:309-319 | for messages in stamp order the one-pass merge shows the very message the binary search picks |
| `MediaStream.StreamShowsTheLatest` | backend/app/features/media/mcap_converter.py:309-319 | the stream shows the latest message at every target exactly when the messages after the first arrive in stamp order |
| `MediaStream.StreamNeverStepsBack` | backend/app/features/media/mcap_converter.py:313-319 | in any arrival order the shown message never goes back |
| `Telemetry.GenerateTelemetry` | backend/app/features/media/mcap_converter.py:403-484 | one frame per target with both sides' values found by the binary search, index, time and names; the action falls back to the observation; nothing without observation messages |
| `Telemetry.NamesLabelValues` | backend/app/features/media/mcap_converter.py:443-469 | for topics of constant length there is one name per value, and each joint's value carries its own prefix and number |
| `Telemetry.FrameMeans` | backend/app/features/media/mcap_converter.py:403-484 | every joint of a frame's observation carries its name and the value of a latest message of its observation topic, the action likewise of its action topic or, without any, the observation; number and time are the frame's |
| `MediaStream.TelemetryShowsTheLatest` | backend/app/features/media/mcap_converter.py:390-400 | in any arrival order the telemetry shows a latest message at or before the target, or an earliest one when all are later |
| `ScanCache.StepInv` | backend/app/features/recordings/scanner.py:76-262 | every write, stat, decision, read and publication keeps the invariant that links cache entries to file versions |
| `ScanCacheTheorems.ReusedBundleIsRight` | backend/app/features/recordings/scanner.py:220-223 | in every interleaving of writes and scans a reused bundle is the parse of the files at the stamps just read, if no file's stamp recurs after other contents |
| `ScanCacheTheorems.UnchangedFolderIsCurrent` | backend/app/features/recordings/scanner.py:178-262 | reused or parsed, a folder whose files did not change since their stats shows what the files hold |
| `ScanCacheTheorems.NeverRepeatingIsSteady` | backend/app/features/recordings/scanner.py:65-68 | stamps that never repeat, absence included, meet the condition |
| `ScanCacheTheorems.CacheIsTheLastScan` | backend/app/features/recordings/scanner.py:114-123 | between two publications the cache holds exactly the recordings of the scan that published, with its results |
| `ScanCacheTheorems.UnsteadyFileGoesStale` | backend/app/features/recordings/scanner.py:220-223 | the condition is needed: any file history that breaks it leads, with two scans, to a reused bundle that differs from the files at the stamps just read |
| `ScanCacheTheorems.DeletionGoesStale` | backend/app/features/recordings/scanner.py:65-68 | a file created during a parse and deleted afterwards keeps its parse |
| `RecordingScanner.BuildRecordingEntry` | backend/app/features/recordings/scanner.py:178-242 | nothing for an unreadable folder or one without a recording file; otherwise size, modification time, flags, fingerprint and the cached or parsed bundle |
| `RecordingScanner.EntryMeans` | backend/app/features/recordings/scanner.py:178-242 | a folder is a recording when an MCAP file is listed; its entry has the sum of the files' sizes, its own modification time, whether a quality report is listed, and the cached bundle while all source stamps are as cached |
| `RecordingScanner.StampMeans` | backend/app/features/recordings/scanner.py:178-242 | the stamp in the fingerprint is that of a listed file, and there is none without one |
| `RecordingScanner.EveryRecordingIsScanned` | backend/app/features/recordings/scanner.py:111-127 | the scanned recordings are exactly those among the folders |
| `RecordingScanner.Scanner.ScanOutputDir` | backend/app/features/recordings/scanner.py:111-127 | every recording's entry, sorted, and a cache replaced by exactly these recordings |
| `RecordingScanner.NewestFirstSorts` | backend/app/features/recordings/scanner.py:271-281 | the list is newest first by start, then by modification time, and equal keys keep the listing order |
| `RecordingScanner.DescendingMeans` | backend/app/features/recordings/scanner.py:271-281 | newest first means by start, without one last, then by modification time |
| `RecordingScanner.CacheKeys` | backend/app/features/recordings/scanner.py:120-123 | the cached folders are exactly the recordings scanned |
| `RecordingScanner.RescanReuses` | backend/app/features/recordings/scanner.py:220-223 | scanning unchanged listings again gives the same entries, but for the folder's own modification time, whatever a parse would give now |
| `SequentialScan.ScanAloneIsARun` | backend/app/features/recordings/scanner.py:114-123 | a scan during which nothing is written is a legal run of the step system that publishes the very cache `ScanOutputDir` leaves |
| `BulkTags.BuildTagRows` | frontend/src/features/recordings/bulk-tags.ts:24-40 | one row per tag found, with the number of recordings that carry it, its presence and check, most common first and ties by name |
| `BulkTagTheorems.RequestIsDisjoint` | frontend/src/features/recordings/bulk-tags.ts:64-79 | in any dialog state, also after a refetch, no tag is both added and removed |
| `BulkTagTheorems.SavedRequestIsAccepted` | backend/app/features/recordings/schemas.py:75-82 | the server accepts the request exactly when Save is enabled |
| `BulkTagTheorems.CheckedOnAllUncheckedOnNone` | frontend/src/features/recordings/bulk-tags.ts:47-79 | in any dialog state, saving leaves each checked tag on all selected recordings and each unchecked one on none |
| `BulkTagTheorems.RowIsKeptIff` | frontend/src/features/recordings/ui/bulk-meta-edit-dialog.tsx:37-132 | in every run of clicks, typed tags and refetches, saving does what a row shows (checked on all, unchecked on none, mixed as before) exactly unless the row is mixed and its tag was typed and never clicked |
| `BulkTagTheorems.SavingDoesWhatTheDialogShows` | frontend/src/features/recordings/ui/bulk-meta-edit-dialog.tsx:64-132 | without a refetch every row's promise holds for every recording |
| `BulkTagClicks.ToggleMeans` | frontend/src/features/recordings/bulk-tags.ts:55-61 | a click changes the checks of its tag and nothing else, each to the next in its cycle |
| `BulkTagClicks.TwoClicksRestore` | frontend/src/features/recordings/bulk-tags.ts:55-61 | a row on all recordings or typed new shows the opposite after one click and the first check again after two |
| `BulkTagClicks.ThreeClicksRestore` | frontend/src/features/recordings/bulk-tags.ts:55-61 | a row on some shows checked, unchecked and mixed after one, two and three clicks |
| `BulkTagClicks.OneClickThenSave` | frontend/src/features/recordings/ui/bulk-meta-edit-dialog.tsx:64-132 | one click on an untouched row, then save: a tag on all is on none, one on some is on all |
| `BulkTagClicks.TwoClicksThenSave` | frontend/src/features/recordings/ui/bulk-meta-edit-dialog.tsx:64-132 | two clicks: a tag on all stays, one on some is on none |
| `BulkTagClicks.TypedIsCheckedIff` | frontend/src/features/recordings/ui/bulk-meta-edit-dialog.tsx:119-132 | a typed tag is shown checked exactly unless it has no row and an earlier click left it another check |
| `BulkTagClicks.TypedIsChecked` | frontend/src/features/recordings/ui/bulk-meta-edit-dialog.tsx:119-132 | without a refetch it always is |
| `BulkTagClicks.TypedAgainIsUnchecked` | frontend/src/features/recordings/ui/bulk-meta-edit-dialog.tsx:37-132 | a tag that was unchecked, vanished from the fetched list and is typed again is shown unchecked |
| `BulkTagClicks.DraftIsAdded` | frontend/src/features/recordings/ui/bulk-meta-edit-dialog.tsx:64-84 | a tag still being typed when Save is pressed ends on every recording |
| `BulkTagTheorems.RefetchBreaksARow` | frontend/src/features/recordings/ui/bulk-meta-edit-dialog.tsx:37-78 | a run that breaks a row: a tag is typed, the refetched list has it on one of two recordings, and the row shown mixed adds it to the other |
| `BulkTagTheorems.MixedRowIsKeptIff` | frontend/src/features/recordings/ui/bulk-meta-edit-dialog.tsx:37-78 | in any dialog state a mixed row is kept exactly unless its tag was also typed and not clicked since |
| `BulkTagTheorems.SavingKeepsOrder` | backend/app/features/recordings/meta.py:94-101 | tags that stay on a recording keep their order |
| `RecordingMetas.MergeRecordingMeta` | backend/app/features/recordings/meta.py:80-103 | the two loops compute the specified merge, and metadata keys are set over the old ones |
| `RecordingMetas.MergedMeans` | backend/app/features/recordings/meta.py:96-101 | a tag is on the recording afterwards exactly when it was added, or was there and not removed; kept tags come first |
| `RecordingMetas.MergedDistinct` | backend/app/features/recordings/meta.py:96-101 | a recording without repeated tags has none afterwards, even if the request repeats one |

## Left out

- Jobs: one `Enqueue` stands for the six `enqueue_*` methods, which differ in job class and id prefix only. Timestamps,
  folder names and source paths of jobs are left out; job ids are fresh by assumption, as random ids are.
- Jobs: runs end before `shutdown`; cancelling a running job is not modelled. Subscriber queues are unbounded, as in the
  code, so the full-queue branch of the broadcast is dead.
- Jobs: `wait_for_completion` is proved to wake; the record it returns after many later evictions is not.
- Topics: the gap log, the continuity score, discovery, live capture and rounding for display are left out. The clock is
  a parameter of every call, and the lock makes each call one step.
- Quality report: the automatically estimated rate, the legacy gap list, frequency deviation, the continuity score and
  message sizes are left out; the two detectors are compared under a configured rate. Rounding for display is left out,
  also inside sort keys.
- Timeline: several topics, nanosecond offsets and the estimated rate are left out; one topic is built at a time.
- Charts: the assembly of several series, colours and drawing are left out.
- Export: probing of shapes and rate, validation of the recordings, video encoding and the parquet and JSON files are
  left out, and so are images that cannot be decoded and messages from which a field cannot be extracted, which end an
  export early. Standard deviations are given by their squares. Values are exact instead of 32-bit.
- DatasetWriter.LeRobotV30Writer.AddFrame: the accumulators of both scopes are values in the writer's fields, because
  their classes (`Statistics.VectorStats`, `ImageStatistics.ImageStats`) are proved against the same functions; sharing
  between accumulator objects is not modelled. A refused frame leaves the buffers partly written, as in the code, and
  only counters and episodes are promised then.
- EpisodeFrames.EmittedFramesAreASuffix: for linear sources; nearest sources can drop frames anywhere, by their
  tolerance.
- Media: reading the container, classifying topics and the encoder process are left out.
- Scan cache: in the step system every stat succeeds; the date filter and the cache reset are left out. A folder may
  disappear at any time, which the `isRecording` choice of a decision covers.
- Bulk tags: select metadata is a map that is passed through; draft text is taken trimmed. The edits are a map, so tag
  names that collide with properties every JavaScript object has are outside the model.
- Bulk tags: the update of several folders is one merge per folder; partial failure between folders is not modelled.
- The HTTP routes, generated clients, page layout, upload, simulator and device code are left out.
