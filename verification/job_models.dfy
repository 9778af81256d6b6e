/** Jobs as the queue stores them and as the SSE stream publishes them. */
module JobModels {
  import opened Wrappers

  /** Identifiers the model only ever compares: `uuid4` job ids, SSE connections, waiting coroutines, target paths. */
  type JobId(==,!new)
  type ClientId(==,!new)
  type WaiterId(==,!new)
  type TargetPath(==,!new)

  datatype JobStatus = Queued | Running | Completed | Failed
  datatype JobType = Media | Quality | Timeline | Validation | LeRobotExport | Upload
  datatype JobProgress = JobProgress(step: string, stepLabel: string, current: int, total: int)

  /** Dedup key of `_active_folders`: job type and target path. */
  datatype JobKey = JobKey(kind: JobType, target: TargetPath)

  /** The fields of a job that change or that the API publishes; `key` never changes. */
  datatype Job = Job(key: JobKey, status: JobStatus, progress: JobProgress, error: Option<string>)

  /** `JobSchema`: one published copy of a job. */
  datatype JobSchema = JobSchema(id: JobId, job: Job)

  datatype JobChangeName = JobAdded | JobStarted | JobProgressed | JobCompleted | JobFailed

  /** What travels over one SSE connection. */
  datatype JobEvent =
    | QueueSnapshot(jobs: seq<JobSchema>)
    | JobChange(name: JobChangeName, schema: JobSchema)

  /** How a job body ends: normally or by raising. */
  datatype Outcome = Succeeded | Raised(message: string)

  predicate Finished(s: JobStatus) { s.Completed? || s.Failed? }

  /** `b` is `a` or a later stage of the lifecycle queued -> running -> completed or failed. */
  predicate Forward(a: JobStatus, b: JobStatus)
  {
    a == b || a == Queued || (a == Running && Finished(b))
  }

  /** The published jobs an event carries. */
  function Carried(e: JobEvent): seq<JobSchema> {
    match e
    case QueueSnapshot(jobs) => jobs
    case JobChange(_, schema) => [schema]
  }

  predicate NoDuplicates<T(==)>(s: seq<T>) {
    forall i, j :: 0 <= i < j < |s| ==> s[i] != s[j]
  }
}
