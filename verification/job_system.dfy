/** The queue together with the browsers that fold its stream and the coroutines that wait for a job. */
module JobSystem {
  import opened Wrappers
  import opened JobModels
  import opened JobsStream
  import opened JobQueueSpec
  import opened JobQueueInvariant

  /** `views` are the cached lists of the browsers, kept across reconnects; `waiters` are blocked in `event.wait()`. */
  datatype System = System(server: Server, views: map<ClientId, seq<JobSchema>>, waiters: map<WaiterId, JobId>)

  const INITIAL := System(EMPTY_SERVER, map[], map[])

  /** One uninterrupted section of some coroutine or thread. */
  datatype Step =
    | EnqueueStep(key: JobKey, freshId: JobId)
    | StartStep
    | ReportStep(progress: JobProgress)
    | ThreadSetStep(id: JobId, progress: JobProgress)
    | ThreadScheduleStep(k: nat)
    | CallBackStep(k: nat)
    | FinishStep(outcome: Outcome)
    | ConnectStep(c: ClientId)
    | DisconnectStep(c: ClientId)
    | DeliverStep(c: ClientId)
    | WaitStep(w: WaiterId, id: JobId)
    | WakeStep(w: WaiterId)

  predicate Enabled(s: System, step: Step) {
    match step
    case EnqueueStep(_, freshId) => freshId !in s.server.store
    case StartStep => s.server.current.None? && CanStart(s.server)
    case ReportStep(_) => CanReport(s.server)
    case ThreadSetStep(id, _) => id in s.server.store && s.server.store[id].status != Queued
    case ThreadScheduleStep(k) => CanSchedule(s.server, k)
    case CallBackStep(k) => CanCallBack(s.server, k)
    case FinishStep(_) => CanReport(s.server)
    case ConnectStep(_) => CanSubscribe(s.server)
    case DisconnectStep(_) => true
    case DeliverStep(c) => c in s.server.subscribers && c in s.views && s.server.subscribers[c] != []
    case WaitStep(w, _) => w !in s.waiters
    case WakeStep(w) => w in s.waiters && s.waiters[w] in s.server.signalled
  }

  function Apply(s: System, step: Step): System
    requires Enabled(s, step)
  {
    match step
    case EnqueueStep(key, freshId) => s.(server := Enqueue(s.server, key, freshId).0)
    case StartStep => s.(server := Start(s.server))
    case ReportStep(progress) => s.(server := Report(s.server, progress))
    case ThreadSetStep(id, progress) => s.(server := ThreadSet(s.server, id, progress))
    case ThreadScheduleStep(k) => s.(server := ThreadSchedule(s.server, k))
    case CallBackStep(k) => s.(server := CallBack(s.server, k))
    case FinishStep(outcome) => s.(server := Finish(s.server, outcome))
    case ConnectStep(c) =>
      s.(server := Subscribe(s.server, c), views := if c in s.views then s.views else s.views[c := []])
    case DisconnectStep(c) => s.(server := Unsubscribe(s.server, c))
    case DeliverStep(c) =>
      var stream := s.server.subscribers[c];
      s.(server := s.server.(subscribers := s.server.subscribers[c := stream[1..]]),
         views := s.views[c := Receive(s.views[c], stream[0])])
    case WaitStep(w, id) => if MustWait(s.server, id) then s.(waiters := s.waiters[w := id]) else s
    case WakeStep(w) => s.(waiters := s.waiters - {w})
  }

  /** `wait_for_completion` returns at once for an unknown or ended job and blocks on the event otherwise. */
  predicate MustWait(s: Server, id: JobId) {
    id in s.jobs && id in s.store && !Finished(s.store[id].status) && id in s.completionEvents
  }

  predicate Legal(s: System, run: seq<Step>)
    decreases |run|
  {
    run == [] || (Enabled(s, run[0]) && Legal(Apply(s, run[0]), run[1..]))
  }

  function Run(s: System, run: seq<Step>): System
    requires Legal(s, run)
    decreases |run|
  {
    if run == [] then s else Run(Apply(s, run[0]), run[1..])
  }

  // ---- What a browser's list says about the server ----

  /** A published copy agrees with the job but for progress whose broadcast is still pending. */
  ghost predicate Current(s: Server, e: JobSchema) {
    && e.id in s.store
    && e.job.(progress := s.store[e.id].progress) == s.store[e.id]
    && (!Pending(s, e.id) ==> e.job == s.store[e.id])
  }

  /** One entry for every job of `_jobs`, each entry current; anything else listed has been evicted. */
  ghost predicate Reflects(s: Server, list: seq<JobSchema>) {
    && UniqueIds(list)
    && (forall e :: e in list ==> Current(s, e))
    && (forall id :: id in s.ticket && s.ticket[id] >= Evicted(s) ==> id in Ids(list))
  }

  /** Every entry is at or behind its job. */
  ghost predicate Behind(s: Server, list: seq<JobSchema>) {
    forall e :: e in list ==> e.id in s.store && Forward(e.job.status, s.store[e.id].status)
  }

  /** No entry of `later` is behind an entry of `earlier` for the same job. */
  ghost predicate Follows(earlier: seq<JobSchema>, later: seq<JobSchema>) {
    forall a, b :: a in earlier && b in later && a.id == b.id ==> Forward(a.job.status, b.job.status)
  }

  /** The list now, then every event in flight, then the server: statuses only move forward along this chain. */
  ghost predicate Chained(s: Server, view: seq<JobSchema>, stream: seq<JobEvent>) {
    && Behind(s, view)
    && (forall i :: 0 <= i < |stream| ==>
          UniqueIds(Carried(stream[i])) && Behind(s, Carried(stream[i])) && Follows(view, Carried(stream[i])))
    && (forall i, j :: 0 <= i < j < |stream| ==> Follows(Carried(stream[i]), Carried(stream[j])))
  }

  ghost predicate ClientOk(s: Server, view: seq<JobSchema>, stream: seq<JobEvent>) {
    Chained(s, view, stream) && Reflects(s, Fold(view, stream))
  }

  ghost predicate ClientsOk(s: System) {
    && s.server.subscribers.Keys <= s.views.Keys
    && (forall c :: c in s.server.subscribers ==> ClientOk(s.server, s.views[c], s.server.subscribers[c]))
    && (forall c :: c in s.views ==> UniqueIds(s.views[c]) && Behind(s.server, s.views[c]))
  }

  /** Every blocked waiter waits for a job that is unfinished or whose event is already set. */
  ghost predicate WaitersOk(s: System) {
    forall w :: w in s.waiters ==>
      s.waiters[w] in s.server.store && s.waiters[w] in s.server.ticket
  }

  ghost predicate SystemInv(s: System) {
    Inv(s.server) && ClientsOk(s) && WaitersOk(s)
  }

  // ---- How one announced change reaches a client ----

  /** `r` follows `s` by changing at most one job object, which then is announced. */
  ghost predicate Changes(s: Server, id: JobId, r: Server) {
    && id in r.store
    && r.store == s.store[id := r.store[id]]
    && (id in s.store ==> Forward(s.store[id].status, r.store[id].status))
    && (forall j :: j in r.ticket && r.ticket[j] >= Evicted(r) && j != id ==>
        j in s.ticket && s.ticket[j] >= Evicted(s))
    && (forall j :: Pending(s, j) && j != id ==> Pending(r, j))
  }

  lemma BehindLater(s: Server, id: JobId, r: Server, list: seq<JobSchema>)
    requires Changes(s, id, r) && Behind(s, list)
    ensures Behind(r, list)
  {
  }

  lemma ChainedAppend(s: Server, id: JobId, r: Server, view: seq<JobSchema>, stream: seq<JobEvent>, name: JobChangeName)
    requires Changes(s, id, r) && Chained(s, view, stream)
    ensures Chained(r, view, stream + [JobChange(name, Schema(r.store, id))])
  {
    var e := JobChange(name, Schema(r.store, id));
    var longer := stream + [e];
    BehindLater(s, id, r, view);
    forall i | 0 <= i < |longer|
      ensures UniqueIds(Carried(longer[i])) && Behind(r, Carried(longer[i])) && Follows(view, Carried(longer[i]))
    {
      if i < |stream| { BehindLater(s, id, r, Carried(stream[i])); }
    }
    forall i, j | 0 <= i < j < |longer| ensures Follows(Carried(longer[i]), Carried(longer[j])) {
      if j == |stream| { BehindLater(s, id, r, Carried(stream[i])); }
    }
  }

  lemma ReflectsUpsert(s: Server, id: JobId, r: Server, list: seq<JobSchema>)
    requires Changes(s, id, r) && Reflects(s, list)
    ensures Reflects(r, Upsert(list, Schema(r.store, id)))
  {
    UpsertIsUpdate(list, Schema(r.store, id));
  }

  lemma AnnouncedToOne(s: Server, id: JobId, r: Server, view: seq<JobSchema>, stream: seq<JobEvent>,
                       name: JobChangeName)
    requires Changes(s, id, r) && ClientOk(s, view, stream)
    ensures ClientOk(r, view, stream + [JobChange(name, Schema(r.store, id))])
  {
    var e := JobChange(name, Schema(r.store, id));
    ChainedAppend(s, id, r, view, stream, name);
    FoldAppend(view, stream, e);
    ReflectsUpsert(s, id, r, Fold(view, stream));
  }

  /** A section that changes one job and broadcasts it keeps every client in step. */
  lemma Announced(s: System, id: JobId, r: Server, name: JobChangeName)
    requires ClientsOk(s) && Changes(s.server, id, r)
    requires r.subscribers.Keys == s.server.subscribers.Keys
    requires forall c :: c in r.subscribers ==>
               r.subscribers[c] == s.server.subscribers[c] + [JobChange(name, Schema(r.store, id))]
    ensures ClientsOk(s.(server := r))
  {
    forall c | c in r.subscribers ensures ClientOk(r, s.views[c], r.subscribers[c]) {
      AnnouncedToOne(s.server, id, r, s.views[c], s.server.subscribers[c], name);
    }
    forall c | c in s.views ensures Behind(r, s.views[c]) {
      BehindLater(s.server, id, r, s.views[c]);
    }
  }

  // ---- Sections that announce nothing ----

  /** `r` differs from `s` at most by progress of jobs with a pending broadcast and by evictions. */
  ghost predicate Quiet(s: Server, r: Server) {
    && r.ticket == s.ticket && Evicted(r) >= Evicted(s)
    && (forall id :: id in s.store ==> id in r.store && QuietJob(s, id, r))
  }

  ghost predicate QuietJob(s: Server, id: JobId, r: Server)
    requires id in s.store && id in r.store
  {
    && r.store[id].(progress := s.store[id].progress) == s.store[id]
    && (Pending(s, id) ==> Pending(r, id))
    && (!Pending(r, id) ==> r.store[id] == s.store[id])
  }

  lemma QuietBehind(s: Server, r: Server, list: seq<JobSchema>)
    requires Quiet(s, r) && Behind(s, list)
    ensures Behind(r, list)
  {
  }

  lemma QuietChained(s: Server, r: Server, view: seq<JobSchema>, stream: seq<JobEvent>)
    requires Quiet(s, r) && Chained(s, view, stream)
    ensures Chained(r, view, stream)
  {
    QuietBehind(s, r, view);
    forall i | 0 <= i < |stream| ensures Behind(r, Carried(stream[i])) {
      QuietBehind(s, r, Carried(stream[i]));
    }
  }

  lemma QuietReflects(s: Server, r: Server, list: seq<JobSchema>)
    requires Quiet(s, r) && Reflects(s, list)
    ensures Reflects(r, list)
  {
    forall e | e in list ensures Current(r, e) { assert QuietJob(s, e.id, r); }
  }

  /** A quiet section, in which clients may leave, keeps every client in step. */
  lemma Unannounced(s: System, r: Server)
    requires ClientsOk(s) && Quiet(s.server, r)
    requires forall c :: c in r.subscribers ==> c in s.server.subscribers && r.subscribers[c] == s.server.subscribers[c]
    ensures ClientsOk(s.(server := r))
  {
    forall c | c in r.subscribers ensures c in s.views && ClientOk(r, s.views[c], r.subscribers[c]) {
      QuietChained(s.server, r, s.views[c], r.subscribers[c]);
      QuietReflects(s.server, r, Fold(s.views[c], r.subscribers[c]));
    }
    forall c | c in s.views ensures Behind(r, s.views[c]) { QuietBehind(s.server, r, s.views[c]); }
  }

  /** Progress set on a worker thread reaches nobody yet, and its broadcast is pending from now on. */
  lemma ThreadSetIsQuiet(s: Server, id: JobId, p: JobProgress)
    requires id in s.store
    ensures Quiet(s, ThreadSet(s, id, p))
  {
    var r := ThreadSet(s, id, p);
    assert r.reporting[|s.reporting|] == id;
    forall j | Pending(s, j) ensures Pending(r, j) {
      if j in s.reporting { assert j in s.reporting + [id]; }
    }
  }

  /** Scheduling the broadcast leaves the same jobs pending. */
  lemma SchedulingMoves(s: Server, k: nat, id: JobId)
    requires CanSchedule(s, k)
    ensures Pending(s, id) <==> Pending(ThreadSchedule(s, k), id)
  {
    var was, now := s.reporting, ThreadSchedule(s, k).reporting;
    assert was == was[..k] + [was[k]] + was[k + 1..];
    assert id in was <==> id in now || id == was[k];
  }

  lemma ScheduleIsQuiet(s: Server, k: nat)
    requires CanSchedule(s, k)
    ensures Quiet(s, ThreadSchedule(s, k))
  {
    forall id ensures Pending(s, id) <==> Pending(ThreadSchedule(s, k), id) { SchedulingMoves(s, k, id); }
  }

  lemma SnapshotIsCurrent(s: Server, ids: seq<JobId>)
    requires forall id :: id in ids ==> id in s.store
    requires NoDuplicates(ids)
    requires forall id :: id in s.ticket && s.ticket[id] >= Evicted(s) ==> id in ids
    ensures Reflects(s, Schemas(s.store, ids)) && Behind(s, Schemas(s.store, ids))
    ensures forall e :: e in Schemas(s.store, ids) ==> e.id in s.store && e.job.status == s.store[e.id].status
  {
    var list := Schemas(s.store, ids);
    forall id | id in ids ensures id in Ids(list) {
      var i :| 0 <= i < |ids| && ids[i] == id;
      assert list[i] in list && list[i].id == id;
    }
  }

  lemma FreshConnection(s: Server, view: seq<JobSchema>, e: JobEvent)
    requires e.QueueSnapshot? && Reflects(s, e.jobs) && Behind(s, e.jobs) && Behind(s, view)
    requires forall x :: x in e.jobs ==> x.id in s.store && x.job.status == s.store[x.id].status
    ensures ClientOk(s, view, [e])
  {
    assert Fold(view, [e]) == Fold(Receive(view, e), [e][1..]) == e.jobs;
  }

  lemma Connected(s: System, c: ClientId)
    requires ClientsOk(s) && CanSubscribe(s.server) && NoDuplicates(ListJobs(s.server))
    requires forall id :: id in s.server.ticket && s.server.ticket[id] >= Evicted(s.server) ==> id in ListJobs(s.server)
    ensures ClientsOk(Apply(s, ConnectStep(c)))
  {
    var t := Apply(s, ConnectStep(c));
    forall d | d in t.server.subscribers
      ensures d in t.views && ClientOk(t.server, t.views[d], t.server.subscribers[d])
    {
      if d == c {
        Subscribed(s.server, c, t.views[c]);
      } else {
        SameJobs(s.server, t.server, s.views[d], s.server.subscribers[d]);
      }
    }
    assert Quiet(s.server, t.server);
    forall d | d in t.views ensures UniqueIds(t.views[d]) && Behind(t.server, t.views[d]) {
      if d in s.views { QuietBehind(s.server, t.server, s.views[d]); }
    }
  }

  lemma Subscribed(s: Server, c: ClientId, view: seq<JobSchema>)
    requires CanSubscribe(s) && NoDuplicates(ListJobs(s)) && Behind(s, view)
    requires forall id :: id in s.ticket && s.ticket[id] >= Evicted(s) ==> id in ListJobs(s)
    ensures ClientOk(Subscribe(s, c), view, Subscribe(s, c).subscribers[c])
  {
    var e := QueueSnapshot(Schemas(s.store, ListJobs(s)));
    SnapshotIsCurrent(s, ListJobs(s));
    FreshConnection(s, view, e);
    SameJobs(s, Subscribe(s, c), view, [e]);
  }

  lemma SameJobs(s: Server, r: Server, view: seq<JobSchema>, stream: seq<JobEvent>)
    requires r == s.(subscribers := r.subscribers) && ClientOk(s, view, stream)
    ensures ClientOk(r, view, stream)
  {
    assert Reflects(r, Fold(view, stream));
  }

  lemma ReceiveIsOlder(view: seq<JobSchema>, e: JobEvent, x: JobSchema)
    requires x in Receive(view, e)
    ensures x in view || x in Carried(e)
  {
  }

  lemma DeliveredToOne(s: Server, view: seq<JobSchema>, stream: seq<JobEvent>)
    requires stream != [] && ClientOk(s, view, stream) && UniqueIds(view)
    ensures var next := Receive(view, stream[0]);
            ClientOk(s, next, stream[1..]) && UniqueIds(next) && Behind(s, next)
  {
    var next, rest := Receive(view, stream[0]), stream[1..];
    assert UniqueIds(Carried(stream[0]));
    if stream[0].JobChange? { UpsertIsUpdate(view, stream[0].schema); }
    DeliveredChain(s, view, stream, next);
  }

  lemma DeliveredChain(s: Server, view: seq<JobSchema>, stream: seq<JobEvent>, next: seq<JobSchema>)
    requires stream != [] && Chained(s, view, stream)
    requires forall x :: x in next ==> x in view || x in Carried(stream[0])
    ensures Chained(s, next, stream[1..])
  {
    var rest := stream[1..];
    forall i | 0 <= i < |rest|
      ensures UniqueIds(Carried(rest[i])) && Behind(s, Carried(rest[i])) && Follows(next, Carried(rest[i]))
    {
      assert rest[i] == stream[i + 1];
      assert Follows(Carried(stream[0]), Carried(stream[i + 1]));
    }
  }

  lemma Delivered(s: System, c: ClientId)
    requires ClientsOk(s) && Enabled(s, DeliverStep(c))
    ensures ClientsOk(Apply(s, DeliverStep(c)))
  {
    var t := Apply(s, DeliverStep(c));
    DeliveredToOne(s.server, s.views[c], s.server.subscribers[c]);
    forall d | d in t.server.subscribers ensures ClientOk(t.server, t.views[d], t.server.subscribers[d]) {
      SameJobs(s.server, t.server, t.views[d], t.server.subscribers[d]);
    }
  }

  // ---- Every step and every run ----

  lemma StepServer(s: System, step: Step)
    requires Inv(s.server) && Enabled(s, step)
    ensures Inv(Apply(s, step).server)
  {
    var r := Apply(s, step).server;
    match step
    case EnqueueStep(key, id) => EnqueueInv(s.server, key, id);
    case StartStep => StartInv(s.server);
    case ReportStep(_) => StoreChange(s.server, s.server.current.value, r);
    case ThreadSetStep(id, p) => ThreadSetInv(s.server, id, p);
    case ThreadScheduleStep(k) => ThreadScheduleInv(s.server, k);
    case CallBackStep(k) => CallBackInv(s.server, k);
    case FinishStep(outcome) => FinishInv(s.server, outcome);
    case ConnectStep(c) => SubscribeInv(s.server, c);
    case DisconnectStep(_) => SubscribersFree(s.server, r);
    case DeliverStep(_) => SubscribersFree(s.server, r);
    case WaitStep(_, _) =>
    case WakeStep(_) =>
  }

  lemma ThreadSetInv(s: Server, id: JobId, p: JobProgress)
    requires Inv(s) && id in s.store
    ensures Inv(ThreadSet(s, id, p))
  {
    StoreChange(s, id, ThreadSet(s, id, p));
  }

  lemma ThreadScheduleInv(s: Server, k: nat)
    requires Inv(s) && CanSchedule(s, k)
    ensures Inv(ThreadSchedule(s, k))
  {
    var id, r := s.reporting[k], ThreadSchedule(s, k);
    assert Pending(s, id);
    assert r.store == s.store[id := s.store[id]];
    forall j | Pending(r, j) ensures j in r.store { SchedulingMoves(s, k, j); }
    StoreChange(s, id, r);
  }

  lemma CallBackInv(s: Server, k: nat)
    requires Inv(s) && CanCallBack(s, k)
    ensures Inv(CallBack(s, k))
  {
    var r := CallBack(s, k);
    assert r.store == s.store[s.callbacks[k] := s.store[s.callbacks[k]]];
    StoreChange(s, s.callbacks[k], r);
  }

  lemma EnqueueChanges(s: System, key: JobKey, id: JobId)
    requires Inv(s.server) && ClientsOk(s) && id !in s.server.store
    ensures ClientsOk(s.(server := Enqueue(s.server, key, id).0))
  {
    var r := Enqueue(s.server, key, id).0;
    if r != s.server {
      Announced(s, id, r, JobAdded);
    }
  }

  lemma StartChanges(s: System)
    requires ClientsOk(s) && CanStart(s.server) && s.server.store[s.server.queue[0]].status == Queued
    ensures ClientsOk(s.(server := Start(s.server)))
  {
    Announced(s, s.server.queue[0], Start(s.server), JobStarted);
  }

  lemma CallBackChanges(s: System, k: nat)
    requires ClientsOk(s) && CanCallBack(s.server, k)
    ensures ClientsOk(s.(server := CallBack(s.server, k)))
  {
    var r, id, old' := CallBack(s.server, k), s.server.callbacks[k], s.server.callbacks;
    forall j | j in old' && j != id ensures j in r.callbacks {
      var i :| 0 <= i < |old'| && old'[i] == j;
      assert if i < k then r.callbacks[i] == j else r.callbacks[i - 1] == j;
    }
    assert r.store == s.server.store[id := r.store[id]];
    Announced(s, id, r, JobProgressed);
  }

  lemma EndedChanges(s: System, outcome: Outcome)
    requires ClientsOk(s) && CanReport(s.server) && s.server.store[s.server.current.value].status == Running
    ensures ClientsOk(s.(server := Ended(s.server, outcome)))
  {
    var id := s.server.current.value;
    match outcome
    case Succeeded => JobReplaced(s, id, s.server.store[id].(status := Completed), JobCompleted);
    case Raised(message) =>
      JobReplaced(s, id, s.server.store[id].(status := Failed, error := Some(message)), JobFailed);
  }

  /** Replacing a job object by a later one and announcing it. */
  lemma JobReplaced(s: System, id: JobId, job: Job, name: JobChangeName)
    requires ClientsOk(s) && id in s.server.store && Forward(s.server.store[id].status, job.status)
    ensures ClientsOk(s.(server := Broadcast(s.server.(store := s.server.store[id := job]), name, id)))
  {
    Announced(s, id, Broadcast(s.server.(store := s.server.store[id := job]), name, id), name);
  }

  lemma ReleaseKeepsObjects(s: Server)
    requires CanReport(s)
    ensures var r := Release(s);
            r.store == s.store && r.subscribers == s.subscribers && r.reporting == s.reporting
            && r.callbacks == s.callbacks && r.ticket == s.ticket && r.puts == s.puts && r.done == s.done + 1
            && r.current.None?
  {
  }

  lemma FinishChanges(s: System, outcome: Outcome)
    requires ClientsOk(s) && CanReport(s.server) && s.server.store[s.server.current.value].status == Running
    ensures ClientsOk(s.(server := Finish(s.server, outcome)))
  {
    EndedChanges(s, outcome);
    ReleaseKeepsObjects(Ended(s.server, outcome));
    Unannounced(s.(server := Ended(s.server, outcome)), Finish(s.server, outcome));
  }

  lemma StepClients(s: System, step: Step)
    requires Inv(s.server) && ClientsOk(s) && Enabled(s, step)
    ensures ClientsOk(Apply(s, step))
  {
    TurnHolds(s.server);
    ListJobsContents(s.server);
    if step.EnqueueStep? { EnqueueChanges(s, step.key, step.freshId); } else { StepClientsOther(s, step); }
  }

  lemma StepClientsOther(s: System, step: Step)
    requires Turn(s.server) && ClientsOk(s) && Enabled(s, step) && !step.EnqueueStep?
    requires NoDuplicates(ListJobs(s.server))
    requires forall id :: id in s.server.ticket && s.server.ticket[id] >= Evicted(s.server) ==> id in ListJobs(s.server)
    ensures ClientsOk(Apply(s, step))
  {
    match step
    case StartStep => StartChanges(s);
    case ReportStep(p) => Announced(s, s.server.current.value, Report(s.server, p), JobProgressed);
    case ThreadSetStep(id, p) =>
      ThreadSetIsQuiet(s.server, id, p);
      Unannounced(s, ThreadSet(s.server, id, p));
    case ThreadScheduleStep(k) =>
      ScheduleIsQuiet(s.server, k);
      Unannounced(s, ThreadSchedule(s.server, k));
    case CallBackStep(k) => CallBackChanges(s, k);
    case FinishStep(outcome) => FinishChanges(s, outcome);
    case ConnectStep(c) => Connected(s, c);
    case DisconnectStep(c) => Unannounced(s, Unsubscribe(s.server, c));
    case DeliverStep(c) => Delivered(s, c);
    case WaitStep(_, _) => assert Apply(s, step).server == s.server && Apply(s, step).views == s.views;
    case WakeStep(_) => assert Apply(s, step).server == s.server && Apply(s, step).views == s.views;
  }

  lemma EnqueueContinues(s: Server, key: JobKey, id: JobId)
    requires id !in s.store && Ticketed(s)
    ensures Continues(s, Enqueue(s, key, id).0) && Ticketed(Enqueue(s, key, id).0)
  {
    ContinuesByPut(s, key, id);
  }

  lemma FinishContinues(s: Server, outcome: Outcome)
    requires CanReport(s) && Ticketed(s)
    ensures Continues(s, Finish(s, outcome)) && Ticketed(Finish(s, outcome))
  {
    ReleaseKeepsObjects(Ended(s, outcome));
    ContinuesByOne(s, s.current.value, Finish(s, outcome));
  }

  lemma StepContinues(s: System, step: Step)
    requires Ticketed(s.server) && Enabled(s, step)
    ensures Continues(s.server, Apply(s, step).server) && Ticketed(Apply(s, step).server)
  {
    match step
    case EnqueueStep(key, id) => EnqueueContinues(s.server, key, id);
    case StartStep => ContinuesByOne(s.server, s.server.queue[0], Start(s.server));
    case ReportStep(p) => ContinuesByOne(s.server, s.server.current.value, Report(s.server, p));
    case ThreadSetStep(id, p) => ContinuesByOne(s.server, id, ThreadSet(s.server, id, p));
    case ThreadScheduleStep(k) =>
    case CallBackStep(k) =>
    case FinishStep(outcome) => FinishContinues(s.server, outcome);
    case ConnectStep(c) =>
    case DisconnectStep(c) =>
    case DeliverStep(c) =>
    case WaitStep(_, _) =>
    case WakeStep(_) =>
  }

  /** Only the worker's own steps move the worker. */
  lemma StepTurn(s: System, step: Step)
    requires Enabled(s, step)
    ensures Apply(s, step).server.done == s.server.done + (if step.FinishStep? then 1 else 0)
    ensures Apply(s, step).server.current.Some? <==>
              step.StartStep? || (s.server.current.Some? && !step.FinishStep?)
  {
    if step.FinishStep? { ReleaseKeepsObjects(Ended(s.server, step.outcome)); }
  }

  lemma WaitersContinues(s: System, t: System)
    requires WaitersOk(s) && Continues(s.server, t.server)
    requires forall w :: w in t.waiters ==>
               if w in s.waiters then t.waiters[w] == s.waiters[w]
               else t.waiters[w] in t.server.store && t.waiters[w] in t.server.ticket
    ensures WaitersOk(t)
  {
    forall w | w in t.waiters ensures t.waiters[w] in t.server.store && t.waiters[w] in t.server.ticket {
      assert ContinuesFor(s.server, t.server, t.waiters[w]);
    }
  }

  lemma StepWaiters(s: System, step: Step)
    requires WaitersOk(s) && Ticketed(s.server) && Enabled(s, step)
    ensures WaitersOk(Apply(s, step))
  {
    StepContinues(s, step);
    WaitersContinues(s, Apply(s, step));
  }

  lemma StepInv(s: System, step: Step)
    requires SystemInv(s) && Enabled(s, step)
    ensures SystemInv(Apply(s, step))
  {
    StepServer(s, step);
    StepClients(s, step);
    StepWaiters(s, step);
  }

  lemma {:induction false} RunInv(s: System, run: seq<Step>)
    requires SystemInv(s) && Legal(s, run)
    ensures SystemInv(Run(s, run))
    decreases |run|
  {
    if run == [] {
    } else {
      StepInv(s, run[0]);
      RunInv(Apply(s, run[0]), run[1..]);
    }
  }

  /** Every state a run can reach from the empty queue satisfies the invariant. */
  lemma Reachable(run: seq<Step>)
    requires Legal(INITIAL, run)
    ensures SystemInv(Run(INITIAL, run))
  {
    EmptyServerInv();
    RunInv(INITIAL, run);
  }
}
