/** `JobQueue` with its mutable fields: every method is one uninterrupted section of the source's coroutines and moves
    the abstract state exactly as `JobQueueSpec` says. */
module JobQueues {
  import opened Wrappers
  import opened JobModels
  import Spec = JobQueueSpec

  /** A job object: shared by the queue, `_jobs`, `_history` and the worker, changed in place. */
  class LiveJob {
    const id: JobId
    const key: JobKey
    var status: JobStatus
    var progress: JobProgress
    var error: Option<string>

    constructor (id: JobId, key: JobKey)
      ensures this.id == id && this.key == key && Value() == Job(key, Queued, Spec.WAITING, None)
    {
      this.id, this.key := id, key;
      status, progress, error := Queued, Spec.WAITING, None;
    }

    function Value(): Job
      reads this
    {
      Job(key, status, progress, error)
    }

    /** `JobSchema.from_job`. */
    function Schema(): JobSchema
      reads this
    {
      JobSchema(id, Value())
    }
  }

  function IdsOf(list: seq<LiveJob>): (r: seq<JobId>)
    ensures |r| == |list|
    ensures forall i :: 0 <= i < |list| ==> r[i] == list[i].id
  {
    seq(|list|, i requires 0 <= i < |list| => list[i].id)
  }

  lemma IdsOfAppend(list: seq<LiveJob>, job: LiveJob)
    ensures IdsOf(list + [job]) == IdsOf(list) + [job.id]
  {
  }

  lemma RegisteredOneMore(objects: map<JobId, LiveJob>, repr: set<LiveJob>, job: LiveJob)
    requires Registered(objects, repr) && job.id !in objects
    ensures Registered(objects[job.id := job], repr + {job})
    ensures StoreOf(objects[job.id := job]) == StoreOf(objects)[job.id := job.Value()]
  {
  }

  ghost function StoreOf(objects: map<JobId, LiveJob>): map<JobId, Job>
    reads objects.Values
  {
    map id | id in objects :: objects[id].Value()
  }

  /** `repr` holds the objects of the map, each under its own id. */
  ghost predicate Registered(objects: map<JobId, LiveJob>, repr: set<LiveJob>) {
    && (forall id :: id in objects ==> objects[id].id == id && objects[id] in repr)
    && (forall job :: job in repr ==> job.id in objects && objects[job.id] == job)
  }

  ghost predicate Within(list: seq<LiveJob>, objects: set<LiveJob>) {
    forall i :: 0 <= i < |list| ==> list[i] in objects
  }

  class JobQueue {
    var queue: seq<LiveJob>
    /** `_jobs`, in insertion order. */
    var jobs: seq<LiveJob>
    var history: seq<LiveJob>
    var active: map<JobKey, JobId>
    var completionEvents: set<JobId>
    var signalled: set<JobId>
    var subscribers: map<ClientId, seq<JobEvent>>
    /** The worker's local `job`, the jobs of threads between setting progress and scheduling its broadcast, and the
        job arguments of scheduled broadcasts. */
    var current: LiveJob?
    var reporting: seq<LiveJob>
    var callbacks: seq<LiveJob>

    ghost var objects: map<JobId, LiveJob>
    ghost var repr: set<LiveJob>
    ghost var puts: seq<JobId>
    ghost var ticket: map<JobId, nat>
    ghost var done: nat

    ghost predicate Valid()
      reads this
    {
      && Registered(objects, repr)
      && Within(queue, repr) && Within(jobs, repr) && Within(history, repr) && Within(reporting, repr)
      && Within(callbacks, repr)
      && (current != null ==> current in repr)
    }

    /** The job objects by id. */
    ghost function Store(): map<JobId, Job>
      requires Valid()
      reads this, repr
    {
      StoreOf(objects)
    }

    ghost function State(): Spec.Server
      requires Valid()
      reads this, repr
    {
      Spec.Server(Store(), IdsOf(jobs), active, completionEvents, signalled,
                  IdsOf(history), IdsOf(queue), if current == null then None else Some(current.id),
                  IdsOf(reporting), IdsOf(callbacks), subscribers, puts, ticket, done)
    }

    /** Changing one job object changes one entry of the store. */
    twostate lemma OneJobChanged(job: LiveJob)
      requires old(Valid()) && Valid() && objects == old(objects) && repr == old(repr) && job in repr
      requires forall other :: other in repr && other != job ==> unchanged(other)
      ensures Store() == old(Store())[job.id := job.Value()]
    {
      assert forall id :: id in objects && id != job.id ==> objects[id] != job;
      assert forall id :: id in objects && id != job.id ==> objects[id].Value() == old(objects[id].Value());
    }

    constructor ()
      ensures Valid() && State() == Spec.EMPTY_SERVER
    {
      queue, jobs, history, reporting, callbacks := [], [], [], [], [];
      active, completionEvents, signalled, subscribers, current := map[], {}, {}, map[], null;
      objects, repr, puts, ticket, done := map[], {}, [], map[], 0;
    }

    /** `_broadcast`: one payload, put on every subscriber queue. */
    method Broadcast(name: JobChangeName, job: LiveJob)
      requires Valid() && job in repr
      modifies this`subscribers
      ensures Valid() && State() == Spec.Broadcast(old(State()), name, job.id)
    {
      var payload := JobChange(name, job.Schema());
      subscribers := PutOnAll(subscribers, payload);
    }

    /** Look a job up in `_jobs`. */
    method Find(id: JobId) returns (job: LiveJob?)
      requires Valid()
      ensures job == null <==> id !in IdsOf(jobs)
      ensures job != null ==> job.id == id && job in repr
    {
      for i := 0 to |jobs|
        invariant forall k :: 0 <= k < i ==> jobs[k].id != id
      {
        if jobs[i].id == id {
          assert IdsOf(jobs)[i] == id;
          return jobs[i];
        }
      }
      return null;
    }

    /** `enqueue_*`. */
    method Enqueue(key: JobKey, freshId: JobId) returns (job: LiveJob)
      requires Valid() && freshId !in objects
      modifies this
      ensures Valid() && job in repr && fresh(repr - old(repr))
      ensures (State(), job.id) == Spec.Enqueue(old(State()), key, freshId)
    {
      if key in active {
        var existing := Find(active[key]);
        if existing != null {
          return existing;
        }
      }
      job := Put(key, freshId);
      Broadcast(JobAdded, job);
    }

    /** A new job object, `_register_active` and `queue.put`. */
    method Put(key: JobKey, freshId: JobId) returns (job: LiveJob)
      requires Valid() && freshId !in objects
      modifies this
      ensures Valid() && job in repr && job.id == freshId && fresh(repr - old(repr))
      ensures State() == Spec.Put(old(State()), key, freshId)
    {
      job := new LiveJob(freshId, key);
      Record(freshId);
      Track(job);
      RegisterActive(job);
      Offer(job);
    }

    /** `queue.put` on the unbounded queue. */
    method Offer(job: LiveJob)
      requires Valid() && job in repr
      modifies this`queue
      ensures Valid() && State() == old(State()).(queue := old(IdsOf(queue)) + [job.id])
    {
      queue := queue + [job];
      IdsOfAppend(old(queue), job);
    }

    /** A new object joins the ones the queue knows. */
    ghost method Track(job: LiveJob)
      requires Valid() && job.id !in objects
      modifies this`objects, this`repr
      ensures Valid() && repr == old(repr) + {job}
      ensures State() == old(State()).(store := old(Store())[job.id := job.Value()])
    {
      RegisteredOneMore(objects, repr, job);
      objects, repr := objects[job.id := job], repr + {job};
    }

    /** The next ticket goes to this job. */
    ghost method Record(id: JobId)
      requires Valid()
      modifies this`puts, this`ticket
      ensures Valid() && objects == old(objects) && repr == old(repr)
      ensures State() == old(State()).(puts := old(puts) + [id], ticket := old(ticket)[id := |old(puts)|])
    {
      ticket, puts := ticket[id := |puts|], puts + [id];
    }

    /** `_register_active`. */
    method RegisterActive(job: LiveJob)
      requires Valid() && job in repr
      modifies this`active, this`jobs, this`completionEvents
      ensures Valid()
      ensures State() == old(State()).(active := old(active)[job.key := job.id], jobs := old(IdsOf(jobs)) + [job.id],
                                       completionEvents := old(completionEvents) + {job.id})
    {
      active := active[job.key := job.id];
      jobs := jobs + [job];
      completionEvents := completionEvents + {job.id};
      IdsOfAppend(old(jobs), job);
    }

    /** The worker from `queue.get` to the job body. */
    method StartNext()
      requires Valid() && current == null && queue != []
      modifies this, repr
      ensures Valid() && objects == old(objects) && repr == old(repr)
      ensures Spec.CanStart(old(State())) && State() == Spec.Start(old(State()))
    {
      var job := queue[0];
      queue := queue[1..];
      current := job;
      job.status := Running;
      OneJobChanged(job);
      assert IdsOf(queue) == old(IdsOf(queue))[1..];
      Broadcast(JobStarted, job);
    }

    /** A job body reporting progress on the event loop. */
    method Report(progress: JobProgress)
      requires Valid() && current != null
      modifies this, repr
      ensures Valid() && objects == old(objects) && repr == old(repr)
      ensures Spec.CanReport(old(State())) && State() == Spec.Report(old(State()), progress)
    {
      current.progress := progress;
      OneJobChanged(current);
      Broadcast(JobProgressed, current);
    }

    /** `on_progress` called from a worker thread, up to the assignment. */
    method ThreadSet(job: LiveJob, progress: JobProgress)
      requires Valid() && job in repr
      modifies this, repr
      ensures Valid() && objects == old(objects) && repr == old(repr)
      ensures State() == Spec.ThreadSet(old(State()), job.id, progress)
    {
      job.progress := progress;
      reporting := reporting + [job];
      OneJobChanged(job);
      IdsOfAppend(old(reporting), job);
    }

    /** `run_coroutine_threadsafe` after it. */
    method ThreadSchedule(k: nat)
      requires Valid() && k < |reporting|
      modifies this`reporting, this`callbacks
      ensures Valid() && State() == Spec.ThreadSchedule(old(State()), k)
    {
      var job := reporting[k];
      reporting := reporting[..k] + reporting[k + 1..];
      callbacks := callbacks + [job];
      assert IdsOf(reporting) == old(IdsOf(reporting))[..k] + old(IdsOf(reporting))[k + 1..];
      IdsOfAppend(old(callbacks), job);
    }

    /** The event loop running a broadcast scheduled by `run_coroutine_threadsafe`. */
    method RunCallback(k: nat)
      requires Valid() && k < |callbacks|
      modifies this
      ensures Valid() && objects == old(objects) && repr == old(repr)
      ensures Spec.CanCallBack(old(State()), k) && State() == Spec.CallBack(old(State()), k)
    {
      var job := callbacks[k];
      callbacks := callbacks[..k] + callbacks[k + 1..];
      assert IdsOf(callbacks) == old(IdsOf(callbacks))[..k] + old(IdsOf(callbacks))[k + 1..];
      Broadcast(JobProgressed, job);
    }

    /** The end of `_execute`, with its `finally` block. */
    method EndCurrent(outcome: Outcome)
      requires Valid() && current != null
      modifies this, repr
      ensures Valid() && objects == old(objects) && repr == old(repr)
      ensures Spec.CanReport(old(State())) && State() == Spec.Finish(old(State()), outcome)
    {
      var job := current;
      match outcome {
        case Succeeded =>
          job.status := Completed;
          OneJobChanged(job);
          Broadcast(JobCompleted, job);
        case Raised(message) =>
          job.status := Failed;
          job.error := Some(message);
          OneJobChanged(job);
          Broadcast(JobFailed, job);
      }
      assert State() == Spec.Ended(old(State()), outcome);
      Release();
    }

    method Release()
      requires Valid() && current != null
      modifies this
      ensures Valid() && objects == old(objects) && repr == old(repr)
      ensures Spec.CanReport(old(State())) && State() == Spec.Release(old(State()))
    {
      ghost var s0 := State();
      ReleaseKey();
      ghost var s1 := State();
      assert s1 == Spec.ReleaseKey(s0);
      Push();
      assert State() == Spec.Push(s1);
      Signal();
    }

    method ReleaseKey()
      requires Valid() && current != null
      modifies this`active
      ensures Valid()
      ensures Spec.CanReport(old(State())) && State() == Spec.ReleaseKey(old(State()))
    {
      if current.key in active && active[current.key] == current.id {
        active := active - {current.key};
      }
    }

    method Push()
      requires Valid() && current != null
      modifies this`history, this`jobs, this`completionEvents
      ensures Valid()
      ensures Spec.CanReport(old(State())) && State() == Spec.Push(old(State()))
    {
      ghost var was := State();
      history, jobs, completionEvents := PushToHistory(current, history, jobs, completionEvents, repr);
      assert Store() == was.store;
    }

    method Signal()
      requires Valid() && current != null
      modifies this`signalled, this`current, this`done
      ensures Valid()
      ensures Spec.CanReport(old(State())) && State() == Spec.Signal(old(State()))
    {
      if current.id in completionEvents {
        signalled := signalled + {current.id};
      }
      current, done := null, done + 1;
    }

    /** First resumption of `subscribe`. */
    method Subscribe(c: ClientId)
      requires Valid() && Spec.CanSubscribe(State())
      modifies this
      ensures Valid() && objects == old(objects) && repr == old(repr)
      ensures State() == Spec.Subscribe(old(State()), c)
    {
      var list := ListJobs();
      var schemas := SchemasOf(list, Store());
      Connect(c, [QueueSnapshot(schemas)]);
    }

    method Connect(c: ClientId, stream: seq<JobEvent>)
      requires Valid()
      modifies this`subscribers
      ensures Valid() && State() == old(State()).(subscribers := old(subscribers)[c := stream])
    {
      subscribers := subscribers[c := stream];
    }

    method Unsubscribe(c: ClientId)
      requires Valid()
      modifies this
      ensures Valid() && objects == old(objects) && repr == old(repr)
      ensures State() == Spec.Unsubscribe(old(State()), c)
    {
      subscribers := subscribers - {c};
    }

    /** `list_jobs`. */
    method ListJobs() returns (list: seq<LiveJob>)
      requires Valid()
      ensures Within(list, repr)
      ensures IdsOf(list) == Spec.ListJobs(State())
    {
      var unfinished := UnfinishedOf(jobs, Store(), repr);
      list := unfinished + history;
    }
  }

  /** The loop of `_broadcast` over the subscriber queues. */
  method PutOnAll(subscribers: map<ClientId, seq<JobEvent>>, payload: JobEvent)
    returns (after: map<ClientId, seq<JobEvent>>)
    ensures after == map c | c in subscribers :: subscribers[c] + [payload]
  {
    after := subscribers;
    var todo := subscribers.Keys;
    while todo != {}
      invariant todo <= subscribers.Keys == after.Keys
      invariant forall c :: c in subscribers ==>
                  after[c] == if c in todo then subscribers[c] else subscribers[c] + [payload]
      decreases |todo|
    {
      var c :| c in todo;
      after := after[c := after[c] + [payload]];
      todo := todo - {c};
    }
  }

  /** The comprehension that fills the snapshot. */
  method SchemasOf(list: seq<LiveJob>, ghost store: map<JobId, Job>) returns (schemas: seq<JobSchema>)
    requires forall i :: 0 <= i < |list| ==> list[i].id in store && store[list[i].id] == list[i].Value()
    requires forall id :: id in IdsOf(list) ==> id in store
    ensures schemas == Spec.Schemas(store, IdsOf(list))
  {
    schemas := [];
    for i := 0 to |list|
      invariant |schemas| == i
      invariant forall k :: 0 <= k < i ==> schemas[k] == list[k].Schema()
    {
      schemas := schemas + [list[i].Schema()];
    }
  }

  /** The comprehension of `list_jobs` over `_jobs`. */
  method UnfinishedOf(jobs: seq<LiveJob>, ghost store: map<JobId, Job>, ghost objects: set<LiveJob>)
    returns (list: seq<LiveJob>)
    requires Within(jobs, objects)
    requires forall i :: 0 <= i < |jobs| ==> jobs[i].id in store && store[jobs[i].id] == jobs[i].Value()
    ensures IdsOf(list) == Spec.Unfinished(store, IdsOf(jobs))
    ensures Within(list, objects)
  {
    list := [];
    for i := 0 to |jobs|
      invariant Within(list, objects)
      invariant IdsOf(list) == Spec.Unfinished(store, IdsOf(jobs)[..i])
    {
      UnfinishedSnoc(store, IdsOf(jobs)[..i], jobs[i].id);
      assert IdsOf(jobs)[..i + 1] == IdsOf(jobs)[..i] + [jobs[i].id];
      if !Finished(jobs[i].status) {
        list := list + [jobs[i]];
      }
    }
    assert IdsOf(jobs)[..|jobs|] == IdsOf(jobs);
  }

  /** Insert at the front of the history and drop what no longer fits, with its `_jobs` entry and completion event. */
  method PushToHistory(job: LiveJob, history: seq<LiveJob>, jobs: seq<LiveJob>, events: set<JobId>,
                       ghost objects: set<LiveJob>)
    returns (kept: seq<LiveJob>, left: seq<LiveJob>, leftEvents: set<JobId>)
    requires job in objects && Within(history, objects) && Within(jobs, objects)
    ensures var grown := [job.id] + IdsOf(history);
            var removed := if |grown| > Spec.MAX_HISTORY then grown[Spec.MAX_HISTORY..] else [];
            && IdsOf(kept) == (if |grown| > Spec.MAX_HISTORY then grown[..Spec.MAX_HISTORY] else grown)
            && IdsOf(left) == Spec.Without(IdsOf(jobs), removed)
            && leftEvents == events - (set r | r in removed)
    ensures Within(kept, objects) && Within(left, objects)
  {
    ghost var grown := [job.id] + IdsOf(history);
    kept, left, leftEvents := [job] + history, jobs, events;
    assert IdsOf(kept) == grown;
    WithoutNone(IdsOf(jobs));
    if |kept| > Spec.MAX_HISTORY {
      var removed := kept[Spec.MAX_HISTORY..];
      ghost var ids := grown[Spec.MAX_HISTORY..];
      assert IdsOf(removed) == ids;
      kept := kept[..Spec.MAX_HISTORY];
      for i := 0 to |removed|
        invariant Within(left, objects)
        invariant IdsOf(left) == Spec.Without(IdsOf(jobs), ids[..i])
        invariant leftEvents == events - (set r | r in ids[..i])
      {
        assert ids[..i + 1] == ids[..i] + [removed[i].id];
        DropOne(IdsOf(jobs), ids[..i], removed[i].id);
        left := Dropped(left, removed[i].id, objects);
        leftEvents := leftEvents - {removed[i].id};
      }
      assert ids[..|removed|] == ids;
    }
  }

  /** `dict.pop` on the ordered `_jobs`. */
  function Dropped(list: seq<LiveJob>, id: JobId, ghost objects: set<LiveJob>): (r: seq<LiveJob>)
    requires Within(list, objects)
    ensures IdsOf(r) == Spec.Without(IdsOf(list), [id])
    ensures Within(r, objects)
  {
    if list == [] then []
    else
      assert IdsOf(list)[1..] == IdsOf(list[1..]);
      if list[0].id == id then Dropped(list[1..], id, objects) else [list[0]] + Dropped(list[1..], id, objects)
  }

  lemma {:induction false} WithoutNone(ids: seq<JobId>)
    ensures Spec.Without(ids, []) == ids
  {
    if ids != [] { WithoutNone(ids[1..]); }
  }

  lemma {:induction false} DropOne(ids: seq<JobId>, removed: seq<JobId>, id: JobId)
    ensures Spec.Without(Spec.Without(ids, removed), [id]) == Spec.Without(ids, removed + [id])
  {
    if ids == [] {
    } else {
      DropOne(ids[1..], removed, id);
      assert ids[0] in removed + [id] <==> ids[0] in removed || ids[0] == id;
      if ids[0] !in removed {
        assert Spec.Without(ids, removed) == [ids[0]] + Spec.Without(ids[1..], removed);
        assert Spec.Without(ids, removed)[1..] == Spec.Without(ids[1..], removed);
      }
    }
  }

  lemma {:induction false} UnfinishedSnoc(store: map<JobId, Job>, ids: seq<JobId>, id: JobId)
    ensures Spec.Unfinished(store, ids + [id]) ==
            Spec.Unfinished(store, ids) + (if id in store && !Finished(store[id].status) then [id] else [])
  {
    if ids == [] {
      assert ids + [id] == [id];
    } else {
      assert (ids + [id])[1..] == ids[1..] + [id];
      UnfinishedSnoc(store, ids[1..], id);
    }
  }
}
