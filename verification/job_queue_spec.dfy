/** `JobQueue` as a state and one function per uninterrupted section of its coroutines. */
module JobQueueSpec {
  import opened Wrappers
  import opened JobModels

  const MAX_HISTORY: nat := 50

  /** The fields of `JobQueue`. `store` holds the job objects, `signalled` the ids whose completion event is set,
      `reporting` the jobs of threads between their two operations, and three history variables that no operation reads
      record the run: `puts` lists every job ever put on the queue in order, `ticket` gives each its position there, and
      `done` counts the jobs that have ended. */
  datatype Server = Server(
    store: map<JobId, Job>,
    jobs: seq<JobId>,
    active: map<JobKey, JobId>,
    completionEvents: set<JobId>,
    signalled: set<JobId>,
    history: seq<JobId>,
    queue: seq<JobId>,
    current: Option<JobId>,
    reporting: seq<JobId>,
    callbacks: seq<JobId>,
    subscribers: map<ClientId, seq<JobEvent>>,
    puts: seq<JobId>,
    ticket: map<JobId, nat>,
    done: nat)

  const EMPTY_SERVER := Server(map[], [], map[], {}, {}, [], [], None, [], [], map[], [], map[], 0)

  const WAITING := JobProgress("queued", "Waiting", 0, 1)

  function Schema(store: map<JobId, Job>, id: JobId): JobSchema
    requires id in store
  {
    JobSchema(id, store[id])
  }

  function Schemas(store: map<JobId, Job>, ids: seq<JobId>): (r: seq<JobSchema>)
    requires forall id :: id in ids ==> id in store
    ensures |r| == |ids|
    ensures forall i :: 0 <= i < |ids| ==> r[i] == Schema(store, ids[i])
  {
    if ids == [] then [] else [Schema(store, ids[0])] + Schemas(store, ids[1..])
  }

  /** `_broadcast`: the payload is the job as it is now. */
  function Broadcast(s: Server, name: JobChangeName, id: JobId): Server
    requires id in s.store
  {
    s.(subscribers := map c | c in s.subscribers :: s.subscribers[c] + [JobChange(name, Schema(s.store, id))])
  }

  /** `_register_active` and the unbounded `put`. */
  function Put(s: Server, key: JobKey, id: JobId): Server {
    s.(active := s.active[key := id], jobs := s.jobs + [id], store := s.store[id := Job(key, Queued, WAITING, None)],
       completionEvents := s.completionEvents + {id}, queue := s.queue + [id],
       puts := s.puts + [id], ticket := s.ticket[id := |s.puts|])
  }

  /** The body of every `enqueue_*`: the lock section, the put and the broadcast never suspend. */
  function Enqueue(s: Server, key: JobKey, id: JobId): (Server, JobId) {
    if key in s.active && s.active[key] in s.jobs then (s, s.active[key])
    else (Broadcast(Put(s, key, id), JobAdded, id), id)
  }

  /** The worker between `queue.get` and the job body. */
  predicate CanStart(s: Server) { s.current.None? && s.queue != [] && s.queue[0] in s.store }

  function Start(s: Server): Server
    requires CanStart(s)
  {
    var id := s.queue[0];
    Broadcast(s.(queue := s.queue[1..], current := Some(id), store := s.store[id := s.store[id].(status := Running)]),
              JobStarted, id)
  }

  /** A job body replacing the progress on the event loop. */
  predicate CanReport(s: Server) { s.current.Some? && s.current.value in s.store }

  function Report(s: Server, p: JobProgress): Server
    requires CanReport(s)
  {
    var id := s.current.value;
    Broadcast(s.(store := s.store[id := s.store[id].(progress := p)]), JobProgressed, id)
  }

  /** `on_progress` on a worker thread, first operation: the field changes, nothing is announced. */
  function ThreadSet(s: Server, id: JobId, p: JobProgress): Server
    requires id in s.store
  {
    s.(store := s.store[id := s.store[id].(progress := p)], reporting := s.reporting + [id])
  }

  /** `on_progress` on a worker thread, second operation: the broadcast is scheduled on the event loop. */
  predicate CanSchedule(s: Server, k: nat) { k < |s.reporting| }

  function ThreadSchedule(s: Server, k: nat): Server
    requires CanSchedule(s, k)
  {
    s.(reporting := s.reporting[..k] + s.reporting[k + 1..], callbacks := s.callbacks + [s.reporting[k]])
  }

  /** A thread has set the job's progress and the broadcast that follows has not run yet. */
  predicate Pending(s: Server, id: JobId) { id in s.reporting || id in s.callbacks }

  /** The event loop running a scheduled broadcast, however late. */
  predicate CanCallBack(s: Server, k: nat) { k < |s.callbacks| && s.callbacks[k] in s.store }

  function CallBack(s: Server, k: nat): Server
    requires CanCallBack(s, k)
  {
    Broadcast(s.(callbacks := s.callbacks[..k] + s.callbacks[k + 1..]), JobProgressed, s.callbacks[k])
  }

  /** Drop the given keys from `_jobs`, keeping the order of the rest. */
  function Without(ids: seq<JobId>, removed: seq<JobId>): seq<JobId> {
    if ids == [] then []
    else if ids[0] in removed then Without(ids[1..], removed)
    else [ids[0]] + Without(ids[1..], removed)
  }

  /** The status change and broadcast at the end of `_execute`. */
  function Ended(s: Server, outcome: Outcome): Server
    requires CanReport(s)
  {
    var id := s.current.value;
    match outcome
    case Succeeded =>
      Broadcast(s.(store := s.store[id := s.store[id].(status := Completed)]), JobCompleted, id)
    case Raised(message) =>
      Broadcast(s.(store := s.store[id := s.store[id].(status := Failed, error := Some(message))]), JobFailed, id)
  }

  function ReleaseKey(s: Server): Server
    requires CanReport(s)
  {
    var id := s.current.value;
    var key := s.store[id].key;
    if key in s.active && s.active[key] == id then s.(active := s.active - {key}) else s
  }

  function Push(s: Server): Server
    requires CanReport(s)
  {
    var grown := [s.current.value] + s.history;
    var removed := if |grown| > MAX_HISTORY then grown[MAX_HISTORY..] else [];
    s.(history := if |grown| > MAX_HISTORY then grown[..MAX_HISTORY] else grown,
       jobs := Without(s.jobs, removed),
       completionEvents := s.completionEvents - (set r | r in removed))
  }

  function Signal(s: Server): Server
    requires CanReport(s)
  {
    var id := s.current.value;
    s.(signalled := if id in s.completionEvents then s.signalled + {id} else s.signalled,
       current := None, done := s.done + 1)
  }

  /** The `finally` block: release the key, push to history and evict, signal the completion event. */
  function Release(s: Server): Server
    requires CanReport(s)
  {
    Signal(Push(ReleaseKey(s)))
  }

  function Finish(s: Server, outcome: Outcome): Server
    requires CanReport(s)
  {
    Release(Ended(s, outcome))
  }

  /** The unfinished jobs of `_jobs`, in dict order. */
  function Unfinished(store: map<JobId, Job>, ids: seq<JobId>): (r: seq<JobId>)
    ensures forall id :: id in r ==> id in ids
  {
    if ids == [] then []
    else if ids[0] in store && !Finished(store[ids[0]].status) then [ids[0]] + Unfinished(store, ids[1..])
    else Unfinished(store, ids[1..])
  }

  function ListJobs(s: Server): seq<JobId> {
    Unfinished(s.store, s.jobs) + s.history
  }

  /** First resumption of `subscribe`: register the queue and yield the snapshot, without a suspension between. */
  predicate CanSubscribe(s: Server) { forall id :: id in ListJobs(s) ==> id in s.store }

  function Subscribe(s: Server, c: ClientId): Server
    requires CanSubscribe(s)
  {
    s.(subscribers := s.subscribers[c := [QueueSnapshot(Schemas(s.store, ListJobs(s)))]])
  }

  function Unsubscribe(s: Server, c: ClientId): Server {
    s.(subscribers := s.subscribers - {c})
  }
}
