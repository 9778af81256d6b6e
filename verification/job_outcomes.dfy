/** How jobs end and what is said about it: a job's final state is the outcome of its own run, and every copy and every
    event that is published says so. */
module JobOutcomes {
  import opened Wrappers
  import opened Sequences
  import opened JobModels
  import opened JobsStream
  import opened JobQueueSpec
  import opened JobQueueInvariant
  import opened JobSystem
  import opened JobTheorems

  // ---- The state of every job, from the outcomes of the run ----

  /** The outcomes of the job bodies that ended in a run, in order. */
  function OutcomesOf(run: seq<Step>): seq<Outcome> {
    if run == [] then [] else OutcomeOf(run[0]) + OutcomesOf(run[1..])
  }

  function OutcomeOf(step: Step): seq<Outcome> { if step.FinishStep? then [step.outcome] else [] }

  /** A body that returns completes its job, one that raises fails it with its message. */
  predicate EndedAs(job: Job, outcome: Outcome) {
    match outcome
    case Succeeded => job.status == Completed && job.error == None
    case Raised(message) => job.status == Failed && job.error == Some(message)
  }

  /** The job put at position `t` has ended as the `t`-th outcome says, or has not ended and has no error. */
  ghost predicate MatchesOutcome(job: Job, t: nat, outcomes: seq<Outcome>) {
    if t < |outcomes| then EndedAs(job, outcomes[t]) else job.error == None
  }

  ghost predicate OutcomesOk(s: Server, outcomes: seq<Outcome>) {
    && |outcomes| == s.done
    && forall id :: id in s.store && id in s.ticket ==> MatchesOutcome(s.store[id], s.ticket[id], outcomes)
  }

  lemma SameObjects(s: Server, r: Server, outcomes: seq<Outcome>)
    requires OutcomesOk(s, outcomes) && r.store == s.store && r.ticket == s.ticket && r.done == s.done
    ensures OutcomesOk(r, outcomes)
  {
  }

  /** Changing a job's progress, or starting an unfinished one. */
  lemma OneObject(s: Server, id: JobId, r: Server, outcomes: seq<Outcome>)
    requires OutcomesOk(s, outcomes) && r.ticket == s.ticket && r.done == s.done
    requires id in s.store && id in r.store && id in s.ticket && r.store == s.store[id := r.store[id]]
    requires r.store[id].error == s.store[id].error
    requires s.ticket[id] < s.done ==> r.store[id].status == s.store[id].status
    ensures OutcomesOk(r, outcomes)
  {
  }

  lemma NewObject(s: Server, key: JobKey, id: JobId, outcomes: seq<Outcome>)
    requires OutcomesOk(s, outcomes) && TicketsOk(s) && id !in s.store && s.done <= |s.puts|
    ensures OutcomesOk(Enqueue(s, key, id).0, outcomes)
  {
    if key !in s.active || s.active[key] !in s.jobs { EnqueuePut(s, key, id); }
  }

  lemma EnqueuePut(s: Server, key: JobKey, id: JobId)
    requires key !in s.active || s.active[key] !in s.jobs
    ensures var r := Enqueue(s, key, id).0;
            && r.store == s.store[id := Job(key, Queued, WAITING, None)] && r.ticket == s.ticket[id := |s.puts|]
            && r.done == s.done
  {
  }

  lemma FinishedObject(s: Server, outcome: Outcome)
    requires CanReport(s)
    ensures var id, r := s.current.value, Finish(s, outcome);
            && id in r.store && r.store == s.store[id := r.store[id]] && r.ticket == s.ticket && r.done == s.done + 1
            && r.store[id].key == s.store[id].key && r.store[id].progress == s.store[id].progress
            && (s.store[id].error == None ==> EndedAs(r.store[id], outcome))
  {
    ReleaseKeepsObjects(Ended(s, outcome));
  }

  lemma OneMoreOutcome(s: Server, outcome: Outcome, outcomes: seq<Outcome>)
    requires OutcomesOk(s, outcomes) && TicketsOk(s) && CanReport(s) && s.ticket[s.current.value] == s.done
    ensures OutcomesOk(Finish(s, outcome), outcomes + [outcome])
  {
    FinishedObject(s, outcome);
    var id, r, more := s.current.value, Finish(s, outcome), outcomes + [outcome];
    assert MatchesOutcome(s.store[id], s.ticket[id], outcomes);
    forall j | j in r.store && j in r.ticket ensures MatchesOutcome(r.store[j], r.ticket[j], more) {
      if j == id {
        assert more[s.done] == outcome;
      } else {
        assert MatchesOutcome(s.store[j], s.ticket[j], outcomes);
        OtherTicket(s, id, j);
      }
    }
  }

  lemma OtherTicket(s: Server, a: JobId, b: JobId)
    requires TicketsOk(s) && a in s.ticket && b in s.ticket && a != b
    ensures s.ticket[a] != s.ticket[b]
  {
    assert s.puts[s.ticket[a]] == a && s.puts[s.ticket[b]] == b;
  }

  /** Where the worker stands in the put order. */
  ghost predicate WorkerPlace(s: Server) {
    && (s.current.Some? ==> s.current.value in s.ticket && s.ticket[s.current.value] == s.done)
    && (s.queue != [] ==> s.queue[0] in s.ticket && s.ticket[s.queue[0]] == Started(s))
    && s.done <= |s.puts|
  }

  lemma WorkerIsPlaced(s: Server)
    requires TicketsOk(s) && LogOk(s)
    ensures WorkerPlace(s)
  {
    if s.queue != [] { assert s.queue[0] == s.puts[Started(s)]; }
  }

  lemma StepOutcomes(s: System, step: Step, outcomes: seq<Outcome>)
    requires TicketsOk(s.server) && WorkerPlace(s.server) && Enabled(s, step) && OutcomesOk(s.server, outcomes)
    ensures OutcomesOk(Apply(s, step).server, outcomes + OutcomeOf(step))
  {
    assert outcomes + [] == outcomes;
    var r := Apply(s, step).server;
    match step
    case EnqueueStep(key, id) => NewObject(s.server, key, id, outcomes);
    case StartStep => OneObject(s.server, s.server.queue[0], r, outcomes);
    case ReportStep(_) => OneObject(s.server, s.server.current.value, r, outcomes);
    case ThreadSetStep(id, _) => OneObject(s.server, id, r, outcomes);
    case ThreadScheduleStep(_) => SameObjects(s.server, r, outcomes);
    case CallBackStep(_) => SameObjects(s.server, r, outcomes);
    case FinishStep(outcome) => OneMoreOutcome(s.server, outcome, outcomes);
    case ConnectStep(_) => SameObjects(s.server, r, outcomes);
    case DisconnectStep(_) => SameObjects(s.server, r, outcomes);
    case DeliverStep(_) => SameObjects(s.server, r, outcomes);
    case WaitStep(_, _) =>
    case WakeStep(_) =>
  }

  lemma StepKeepsOutcomes(s: System, step: Step, outcomes: seq<Outcome>)
    requires SystemInv(s) && Enabled(s, step) && OutcomesOk(s.server, outcomes)
    ensures SystemInv(Apply(s, step)) && OutcomesOk(Apply(s, step).server, outcomes + OutcomeOf(step))
  {
    WorkerIsPlaced(s.server);
    StepInv(s, step);
    StepOutcomes(s, step, outcomes);
  }

  lemma {:induction false} RunOutcomes(s: System, run: seq<Step>, outcomes: seq<Outcome>)
    requires SystemInv(s) && Legal(s, run) && OutcomesOk(s.server, outcomes)
    ensures OutcomesOk(Run(s, run).server, outcomes + OutcomesOf(run))
    decreases |run|
  {
    if run == [] {
      assert outcomes + OutcomesOf(run) == outcomes;
    } else {
      StepKeepsOutcomes(s, run[0], outcomes);
      RunOutcomes(Apply(s, run[0]), run[1..], outcomes + OutcomeOf(run[0]));
      Associates(outcomes, OutcomeOf(run[0]), OutcomesOf(run[1..]));
    }
  }

  lemma ReachableOutcomes(run: seq<Step>)
    requires Legal(INITIAL, run)
    ensures OutcomesOk(Run(INITIAL, run).server, OutcomesOf(run))
  {
    NothingEndedYet();
    RunOutcomes(INITIAL, run, []);
    assert [] + OutcomesOf(run) == OutcomesOf(run);
  }

  lemma NothingEndedYet()
    ensures SystemInv(INITIAL) && OutcomesOk(INITIAL.server, [])
  {
    EmptyServerInv();
  }

  /** In every reachable state the ended jobs are as many as the outcomes of the run; the one put at position `t` is
      completed or failed as the `t`-th outcome says. Of the others, the worker's is running, those in the queue are
      queued, and none has an error. */
  lemma JobsEndAsTheyRan(run: seq<Step>, id: JobId)
    requires Legal(INITIAL, run) && id in Run(INITIAL, run).server.store
    ensures RanAs(Run(INITIAL, run).server, OutcomesOf(run), id)
  {
    Reachable(run);
    ReachableOutcomes(run);
    WorkerIsPlaced(Run(INITIAL, run).server);
    QueuedIsInQueue(Run(INITIAL, run).server, id);
  }

  ghost predicate RanAs(s: Server, outcomes: seq<Outcome>, id: JobId)
    requires id in s.store
  {
    && id in s.ticket && |outcomes| == s.done
    && (s.ticket[id] < s.done ==> EndedAs(s.store[id], outcomes[s.ticket[id]]))
    && (s.ticket[id] >= s.done ==> s.store[id].error == None)
    && (s.store[id].status == Running <==> s.current == Some(id))
    && (s.store[id].status == Queued <==> id in s.queue)
  }

  lemma QueuedIsInQueue(s: Server, id: JobId)
    requires TicketsOk(s) && LogOk(s) && StatusOk(s) && id in s.store
    ensures id in s.ticket
    ensures s.store[id].status == Running <==> s.current == Some(id)
    ensures s.store[id].status == Queued <==> id in s.queue
  {
    var t, n := s.ticket[id], Started(s);
    assert s.puts[t] == id;
    if id in s.queue {
      var i :| 0 <= i < |s.queue| && s.queue[i] == id;
      assert s.puts[n + i] == id;
    }
    if t >= n { assert s.queue[t - n] == id; }
  }

  /** The job that a body ends is completed without error or failed with its message, and so it stays. */
  lemma OutcomeIsKept(before: seq<Step>, outcome: Outcome, after: seq<Step>)
    requires Legal(INITIAL, before) && Enabled(Run(INITIAL, before), FinishStep(outcome))
    requires Legal(Apply(Run(INITIAL, before), FinishStep(outcome)), after)
    ensures var s := Run(INITIAL, before);
            var id, t := s.server.current.value, Run(Apply(s, FinishStep(outcome)), after).server;
            id in t.store && EndedAs(t.store[id], outcome) && t.store[id].key == s.server.store[id].key
  {
    Reachable(before);
    ReachableOutcomes(before);
    OutcomeStays(Run(INITIAL, before), OutcomesOf(before), outcome, after);
  }

  lemma OutcomeStays(s: System, outcomes: seq<Outcome>, outcome: Outcome, after: seq<Step>)
    requires SystemInv(s) && OutcomesOk(s.server, outcomes) && Enabled(s, FinishStep(outcome))
    requires Legal(Apply(s, FinishStep(outcome)), after)
    ensures var id, t := s.server.current.value, Run(Apply(s, FinishStep(outcome)), after).server;
            id in t.store && EndedAs(t.store[id], outcome) && t.store[id].key == s.server.store[id].key
  {
    var id, one := s.server.current.value, Apply(s, FinishStep(outcome));
    WorkerIsPlaced(s.server);
    StepKeepsOutcomes(s, FinishStep(outcome), outcomes);
    RunOutcomes(one, after, outcomes + [outcome]);
    StepContinues(s, FinishStep(outcome));
    RunContinues(one, after);
    OutcomeAt(s.server, one.server, Run(one, after).server, id, outcomes, outcome, OutcomesOf(after));
  }

  lemma OutcomeAt(s: Server, one: Server, t: Server, id: JobId, outcomes: seq<Outcome>, outcome: Outcome,
                  later: seq<Outcome>)
    requires id in s.store && id in s.ticket && s.ticket[id] == |outcomes|
    requires Continues(s, one) && Continues(one, t) && OutcomesOk(t, outcomes + [outcome] + later)
    ensures id in t.store && EndedAs(t.store[id], outcome) && t.store[id].key == s.store[id].key
  {
    assert ContinuesFor(s, one, id) && ContinuesFor(one, t, id);
    assert MatchesOutcome(t.store[id], t.ticket[id], outcomes + [outcome] + later);
    assert (outcomes + [outcome] + later)[|outcomes|] == outcome;
  }

  // ---- Progress ----

  /** The progress a step sets for a job. */
  function ReportedBy(s: System, step: Step, id: JobId): Option<JobProgress> {
    match step
    case ReportStep(p) => if s.server.current == Some(id) then Some(p) else None
    case ThreadSetStep(other, p) => if other == id then Some(p) else None
    case _ => None
  }

  /** The last progress a run sets for a job that had this one. */
  function LastReported(s: System, run: seq<Step>, id: JobId, had: JobProgress): JobProgress
    requires Legal(s, run)
    decreases |run|
  {
    if run == [] then had
    else
      var now := ReportedBy(s, run[0], id);
      LastReported(Apply(s, run[0]), run[1..], id, if now.Some? then now.value else had)
  }

  lemma StepProgress(s: System, step: Step, id: JobId)
    requires Enabled(s, step) && id in s.server.store
    ensures id in Apply(s, step).server.store
    ensures var now := ReportedBy(s, step, id);
            Apply(s, step).server.store[id].progress == if now.Some? then now.value else s.server.store[id].progress
  {
    if step.FinishStep? { FinishedObject(s.server, step.outcome); }
  }

  /** A job's progress is always the one reported last. */
  lemma {:induction false} ProgressIsTheLastReported(s: System, run: seq<Step>, id: JobId)
    requires Legal(s, run) && id in s.server.store
    ensures id in Run(s, run).server.store
    ensures Run(s, run).server.store[id].progress == LastReported(s, run, id, s.server.store[id].progress)
    decreases |run|
  {
    if run != [] {
      StepProgress(s, run[0], id);
      ProgressIsTheLastReported(Apply(s, run[0]), run[1..], id);
    }
  }

  /** A new job waits, without progress and without error. */
  lemma NewJobWaits(s: System, key: JobKey, freshId: JobId)
    requires Enabled(s, EnqueueStep(key, freshId))
    ensures var t := Apply(s, EnqueueStep(key, freshId)).server;
            freshId in t.store ==>
              && t.store[freshId].key == key && t.store[freshId].status == Queued && t.store[freshId].error == None
              && t.store[freshId].progress.step == "queued" && t.store[freshId].progress.current == 0
              && t.store[freshId].progress.total == 1
  {
  }

  // ---- What is published ----

  /** Failed and having an error are the same. */
  predicate JobFits(job: Job) { job.status == Failed <==> job.error.Some? }

  /** Which states an event of this name can carry. Progress may be announced after the job has ended. */
  predicate NameFits(name: JobChangeName, status: JobStatus) {
    match name
    case JobAdded => status == Queued
    case JobStarted => status == Running
    case JobProgressed => status != Queued
    case JobCompleted => status == Completed
    case JobFailed => status == Failed
  }

  ghost predicate ListFits(list: seq<JobSchema>) { forall e :: e in list ==> JobFits(e.job) }

  ghost predicate EventFits(e: JobEvent) {
    ListFits(Carried(e)) && (e.JobChange? ==> NameFits(e.name, e.schema.job.status))
  }

  ghost predicate StreamFits(stream: seq<JobEvent>) { forall i :: 0 <= i < |stream| ==> EventFits(stream[i]) }

  ghost predicate StoreFits(s: Server) {
    && (forall id :: id in s.store ==> JobFits(s.store[id]))
    && (forall id :: Pending(s, id) && id in s.store ==> s.store[id].status != Queued)
  }

  ghost predicate TellsRight(s: System) {
    && StoreFits(s.server)
    && (forall c :: c in s.server.subscribers ==> StreamFits(s.server.subscribers[c]))
    && (forall c :: c in s.views ==> ListFits(s.views[c]))
  }

  /** A changed job that is announced under a fitting name. */
  lemma AnnouncedRight(s: System, id: JobId, r: Server, name: JobChangeName)
    requires TellsRight(s) && StoreFits(r) && id in r.store && NameFits(name, r.store[id].status)
    requires r.subscribers.Keys == s.server.subscribers.Keys
    requires forall c :: c in r.subscribers ==>
               r.subscribers[c] == s.server.subscribers[c] + [JobChange(name, Schema(r.store, id))]
    ensures TellsRight(s.(server := r))
  {
    var e := JobChange(name, Schema(r.store, id));
    assert EventFits(e);
    forall c | c in r.subscribers ensures StreamFits(r.subscribers[c]) {
      assert StreamFits(s.server.subscribers[c]);
    }
  }

  lemma SilentRight(s: System, r: Server)
    requires TellsRight(s) && StoreFits(r)
    requires forall c :: c in r.subscribers ==> c in s.server.subscribers && r.subscribers[c] == s.server.subscribers[c]
    ensures TellsRight(s.(server := r))
  {
    forall c | c in r.subscribers ensures StreamFits(r.subscribers[c]) {
      assert StreamFits(s.server.subscribers[c]);
    }
  }

  /** One job object replaced. */
  lemma StoreStillFits(s: Server, id: JobId, r: Server)
    requires StoreFits(s) && id in s.store && id in r.store && r.store == s.store[id := r.store[id]]
    requires JobFits(r.store[id]) && r.store[id].status != Queued
    requires forall j :: Pending(r, j) ==> Pending(s, j) || j == id
    ensures StoreFits(r)
  {
  }

  lemma EnqueueRight(s: System, key: JobKey, id: JobId)
    requires TellsRight(s) && PendingOk(s.server) && id !in s.server.store
    ensures TellsRight(Apply(s, EnqueueStep(key, id)))
  {
    var r := Enqueue(s.server, key, id).0;
    if r != s.server {
      EnqueuePut(s.server, key, id);
      PutFits(s.server, key, id);
      AnnouncedRight(s, id, r, JobAdded);
    }
  }

  lemma PutFits(s: Server, key: JobKey, id: JobId)
    requires StoreFits(s) && PendingOk(s) && id !in s.store && (key !in s.active || s.active[key] !in s.jobs)
    ensures StoreFits(Enqueue(s, key, id).0)
  {
    var r := Enqueue(s, key, id).0;
    EnqueuePut(s, key, id);
    forall j | Pending(r, j) ensures Pending(s, j) {}
  }

  lemma StartRight(s: System)
    requires TellsRight(s) && Turn(s.server) && Enabled(s, StartStep)
    ensures TellsRight(Apply(s, StartStep))
  {
    var id, r := s.server.queue[0], Start(s.server);
    assert JobFits(s.server.store[id]);
    StoreStillFits(s.server, id, r);
    AnnouncedRight(s, id, r, JobStarted);
  }

  lemma ReportRight(s: System, p: JobProgress)
    requires TellsRight(s) && Turn(s.server) && CanReport(s.server)
    ensures TellsRight(Apply(s, ReportStep(p)))
  {
    var id, r := s.server.current.value, Report(s.server, p);
    assert JobFits(s.server.store[id]);
    StoreStillFits(s.server, id, r);
    AnnouncedRight(s, id, r, JobProgressed);
  }

  lemma ThreadSetRight(s: System, id: JobId, p: JobProgress)
    requires TellsRight(s) && Enabled(s, ThreadSetStep(id, p))
    ensures TellsRight(Apply(s, ThreadSetStep(id, p)))
  {
    var r := ThreadSet(s.server, id, p);
    assert JobFits(s.server.store[id]);
    StoreStillFits(s.server, id, r);
    SilentRight(s, r);
  }

  lemma ScheduleRight(s: System, k: nat)
    requires TellsRight(s) && CanSchedule(s.server, k)
    ensures TellsRight(Apply(s, ThreadScheduleStep(k)))
  {
    var r := ThreadSchedule(s.server, k);
    forall j | Pending(r, j) ensures Pending(s.server, j) { SchedulingMoves(s.server, k, j); }
    SilentRight(s, r);
  }

  lemma CallBackRight(s: System, k: nat)
    requires TellsRight(s) && CanCallBack(s.server, k)
    ensures TellsRight(Apply(s, CallBackStep(k)))
  {
    var id, r := s.server.callbacks[k], CallBack(s.server, k);
    assert Pending(s.server, id);
    forall j | Pending(r, j) ensures Pending(s.server, j) {}
    AnnouncedRight(s, id, r, JobProgressed);
  }

  lemma FinishRight(s: System, outcome: Outcome)
    requires TellsRight(s) && Turn(s.server) && CanReport(s.server)
    ensures TellsRight(Apply(s, FinishStep(outcome)))
  {
    var e := Ended(s.server, outcome);
    EndedRight(s, outcome);
    ReleaseKeepsObjects(e);
    ReleasedFits(e);
    SilentRight(s.(server := e), Release(e));
  }

  lemma EndedRight(s: System, outcome: Outcome)
    requires TellsRight(s) && Turn(s.server) && CanReport(s.server)
    ensures TellsRight(s.(server := Ended(s.server, outcome)))
  {
    var id, e := s.server.current.value, Ended(s.server, outcome);
    assert JobFits(s.server.store[id]);
    StoreStillFits(s.server, id, e);
    AnnouncedRight(s, id, e, EndName(outcome));
  }

  lemma ReleasedFits(e: Server)
    requires StoreFits(e) && CanReport(e)
    ensures StoreFits(Release(e))
  {
    ReleaseKeepsObjects(e);
    forall j | Pending(Release(e), j) ensures Pending(e, j) {}
  }

  /** The name under which an end is announced. */
  function EndName(outcome: Outcome): JobChangeName { if outcome.Succeeded? then JobCompleted else JobFailed }

  lemma ConnectRight(s: System, c: ClientId)
    requires TellsRight(s) && CanSubscribe(s.server)
    ensures TellsRight(Apply(s, ConnectStep(c)))
  {
    var t, ids := Apply(s, ConnectStep(c)), ListJobs(s.server);
    var snapshot := QueueSnapshot(Schemas(s.server.store, ids));
    forall e | e in Carried(snapshot) ensures JobFits(e.job) {
      var i :| 0 <= i < |ids| && Schemas(s.server.store, ids)[i] == e;
      assert ids[i] in ids;
    }
    forall d | d in t.server.subscribers ensures StreamFits(t.server.subscribers[d]) {
      if d != c { assert StreamFits(s.server.subscribers[d]); } else { assert EventFits(snapshot); }
    }
    forall j | Pending(t.server, j) ensures Pending(s.server, j) {}
  }

  lemma DeliverRight(s: System, c: ClientId)
    requires TellsRight(s) && Enabled(s, DeliverStep(c))
    ensures TellsRight(Apply(s, DeliverStep(c)))
  {
    var t := Apply(s, DeliverStep(c));
    var stream, view := s.server.subscribers[c], s.views[c];
    assert StreamFits(stream) && EventFits(stream[0]) && ListFits(view);
    forall e | e in Receive(view, stream[0]) ensures JobFits(e.job) { ReceiveIsOlder(view, stream[0], e); }
    forall d | d in t.server.subscribers ensures StreamFits(t.server.subscribers[d]) {
      assert StreamFits(s.server.subscribers[d]);
    }
    forall j | Pending(t.server, j) ensures Pending(s.server, j) {}
  }

  lemma DisconnectRight(s: System, c: ClientId)
    requires TellsRight(s)
    ensures TellsRight(Apply(s, DisconnectStep(c)))
  {
    var r := Unsubscribe(s.server, c);
    forall j | Pending(r, j) ensures Pending(s.server, j) {}
    SilentRight(s, r);
  }

  lemma StepRight(s: System, step: Step)
    requires TellsRight(s) && Turn(s.server) && PendingOk(s.server) && Enabled(s, step)
    ensures TellsRight(Apply(s, step))
  {
    match step
    case EnqueueStep(key, id) => EnqueueRight(s, key, id);
    case StartStep => StartRight(s);
    case ReportStep(p) => ReportRight(s, p);
    case ThreadSetStep(id, p) => ThreadSetRight(s, id, p);
    case ThreadScheduleStep(k) => ScheduleRight(s, k);
    case CallBackStep(k) => CallBackRight(s, k);
    case FinishStep(outcome) => FinishRight(s, outcome);
    case ConnectStep(c) => ConnectRight(s, c);
    case DisconnectStep(c) => DisconnectRight(s, c);
    case DeliverStep(c) => DeliverRight(s, c);
    case WaitStep(_, _) =>
    case WakeStep(_) =>
  }

  lemma {:induction false} RunRight(s: System, run: seq<Step>)
    requires SystemInv(s) && TellsRight(s) && Legal(s, run)
    ensures TellsRight(Run(s, run))
    decreases |run|
  {
    if run != [] {
      StepInv(s, run[0]);
      TurnHolds(s.server);
      StepRight(s, run[0]);
      RunRight(Apply(s, run[0]), run[1..]);
    }
  }

  /** In every reachable state a job has failed exactly when it has an error: on the server, in every browser and in
      every event on the way; and each event on the way carries a state that fits its name. */
  lemma FailedMeansError(run: seq<Step>)
    requires Legal(INITIAL, run)
    ensures var s := Run(INITIAL, run);
            && (forall id :: id in s.server.store ==>
                  (s.server.store[id].status == Failed <==> s.server.store[id].error.Some?))
            && (forall c :: c in s.views ==> ListFits(s.views[c]))
            && (forall c :: c in s.server.subscribers ==> StreamFits(s.server.subscribers[c]))
  {
    EmptyServerInv();
    RunRight(INITIAL, run);
    forall id | id in Run(INITIAL, run).server.store
      ensures Run(INITIAL, run).server.store[id].status == Failed <==>
              Run(INITIAL, run).server.store[id].error.Some?
    {
      assert JobFits(Run(INITIAL, run).server.store[id]);
    }
  }

  /** The end of a job is announced to every browser, with the job as it ended. */
  lemma FinishIsAnnounced(run: seq<Step>, outcome: Outcome, c: ClientId)
    requires Legal(INITIAL, run) && Enabled(Run(INITIAL, run), FinishStep(outcome))
    requires c in Run(INITIAL, run).server.subscribers
    ensures var s := Run(INITIAL, run).server; var id, t := s.current.value, Finish(s, outcome);
            && c in t.subscribers && id in t.store && EndedAs(t.store[id], outcome)
            && t.subscribers[c] == s.subscribers[c] +
                 [JobChange(if outcome == Succeeded then JobCompleted else JobFailed, JobSchema(id, t.store[id]))]
  {
    JobsEndAsTheyRan(run, Run(INITIAL, run).server.current.value);
    FinishedObject(Run(INITIAL, run).server, outcome);
    ReleaseKeepsObjects(Ended(Run(INITIAL, run).server, outcome));
  }

  // ---- Late progress ----

  /** The event is called completed or failed exactly when it carries such a job. */
  predicate NamedByStatus(e: JobEvent)
    requires e.JobChange?
  {
    && (e.name == JobCompleted <==> e.schema.job.status == Completed)
    && (e.name == JobFailed <==> e.schema.job.status == Failed)
  }

  /** The event a step puts on a browser's stream is named by the status it carries, exactly unless the step runs a
      thread's scheduled announcement after the job has ended. */
  lemma NamedByStatusIff(run: seq<Step>, step: Step, c: ClientId, e: JobEvent)
    requires Legal(INITIAL, run) && Enabled(Run(INITIAL, run), step) && e.JobChange?
    requires var s := Run(INITIAL, run).server; var t := Apply(Run(INITIAL, run), step).server;
             c in s.subscribers && c in t.subscribers && t.subscribers[c] == s.subscribers[c] + [e]
    ensures var s := Run(INITIAL, run).server;
            NamedByStatus(e) <==> !(step.CallBackStep? && Finished(s.store[s.callbacks[step.k]].status))
  {
    Reachable(run);
    TurnHolds(Run(INITIAL, run).server);
    NewEventIff(Run(INITIAL, run), step, c, e);
  }

  lemma NewEventIff(s: System, step: Step, c: ClientId, e: JobEvent)
    requires Turn(s.server) && Enabled(s, step) && e.JobChange?
    requires var t := Apply(s, step).server;
             c in s.server.subscribers && c in t.subscribers && t.subscribers[c] == s.server.subscribers[c] + [e]
    ensures NamedByStatus(e) <==>
            !(step.CallBackStep? && Finished(s.server.store[s.server.callbacks[step.k]].status))
  {
    NewEvent(s, step, c, e);
  }

  /** The event is the one the section appended for this browser. */
  ghost predicate Appended(s: Server, r: Server, c: ClientId, e: JobEvent) {
    && c in s.subscribers && c in r.subscribers && r.subscribers[c] == s.subscribers[c] + [e]
  }

  lemma AppendedIs(s: Server, r: Server, c: ClientId, e: JobEvent, f: JobEvent)
    requires Appended(s, r, c, e) && r.subscribers[c] == s.subscribers[c] + [f]
    ensures e == f
  {
    assert r.subscribers[c][|s.subscribers[c]|] == e;
  }

  lemma StartEvent(s: Server, c: ClientId, e: JobEvent)
    requires CanStart(s) && Appended(s, Start(s), c, e)
    ensures e.JobChange? && NamedByStatus(e)
  {
    AppendedIs(s, Start(s), c, e, JobChange(JobStarted, Schema(Start(s).store, s.queue[0])));
  }

  lemma ReportEvent(s: Server, p: JobProgress, c: ClientId, e: JobEvent)
    requires CanReport(s) && s.store[s.current.value].status == Running && Appended(s, Report(s, p), c, e)
    ensures e.JobChange? && NamedByStatus(e)
  {
    AppendedIs(s, Report(s, p), c, e, JobChange(JobProgressed, Schema(Report(s, p).store, s.current.value)));
  }

  lemma CallBackEvent(s: Server, k: nat, c: ClientId, e: JobEvent)
    requires CanCallBack(s, k) && Appended(s, CallBack(s, k), c, e)
    ensures e == JobChange(JobProgressed, Schema(s.store, s.callbacks[k]))
  {
    AppendedIs(s, CallBack(s, k), c, e, JobChange(JobProgressed, Schema(s.store, s.callbacks[k])));
  }

  lemma FinishEvent(s: Server, outcome: Outcome, c: ClientId, e: JobEvent)
    requires CanReport(s) && Appended(s, Finish(s, outcome), c, e)
    ensures e.JobChange? && NamedByStatus(e)
  {
    var ended := Ended(s, outcome);
    ReleaseKeepsObjects(ended);
    AppendedIs(s, Finish(s, outcome), c, e, JobChange(EndName(outcome), Schema(ended.store, s.current.value)));
  }

  lemma EnqueueEvent(s: Server, key: JobKey, id: JobId, c: ClientId, e: JobEvent)
    requires Appended(s, Enqueue(s, key, id).0, c, e)
    ensures e.JobChange? && NamedByStatus(e)
  {
    var r := Enqueue(s, key, id).0;
    assert |r.subscribers[c]| == |s.subscribers[c]| + 1;
    AppendedIs(s, r, c, e, JobChange(JobAdded, JobSchema(id, Job(key, Queued, WAITING, None))));
  }

  /** Which event a step announces. */
  lemma NewEvent(s: System, step: Step, c: ClientId, e: JobEvent)
    requires Turn(s.server) && Enabled(s, step) && e.JobChange? && Appended(s.server, Apply(s, step).server, c, e)
    ensures step.CallBackStep? ==> e == JobChange(JobProgressed, Schema(s.server.store, s.server.callbacks[step.k]))
    ensures !step.CallBackStep? ==> NamedByStatus(e)
  {
    var before, after := s.server.subscribers[c], Apply(s, step).server.subscribers[c];
    assert |after| == |before| + 1 && after[|before|] == e;
    match step
    case EnqueueStep(key, id) => EnqueueEvent(s.server, key, id, c, e);
    case StartStep => StartEvent(s.server, c, e);
    case ReportStep(p) => ReportEvent(s.server, p, c, e);
    case CallBackStep(k) => CallBackEvent(s.server, k, c, e);
    case FinishStep(outcome) => FinishEvent(s.server, outcome, c, e);
    case _ =>
  }

  // ---- Progress of an ended job ----

  /** The run is legal and leaves this event last in the browser's queue. */
  ghost predicate LeadsTo(s: System, run: seq<Step>, c: ClientId, e: JobEvent) {
    Legal(s, run) && HasLast(Run(s, run).server, c, e)
  }

  ghost predicate HasLast(s: Server, c: ClientId, e: JobEvent) {
    c in s.subscribers && s.subscribers[c] != [] && s.subscribers[c][|s.subscribers[c]| - 1] == e
  }

  lemma LeadsByOne(s: System, step: Step, rest: seq<Step>, c: ClientId, e: JobEvent)
    requires Enabled(s, step) && LeadsTo(Apply(s, step), rest, c, e)
    ensures LeadsTo(s, [step] + rest, c, e)
  {
    RunOfMore(s, step, rest);
  }

  /** A thread sets progress, the job ends, and only then is the progress announced: as progress of a completed job. */
  lemma LateProgress(key: JobKey, id: JobId, c: ClientId, p: JobProgress)
    ensures LeadsTo(INITIAL, [ConnectStep(c), EnqueueStep(key, id), StartStep, ThreadSetStep(id, p),
                              ThreadScheduleStep(0), FinishStep(Succeeded), CallBackStep(0)],
                    c, JobChange(JobProgressed, JobSchema(id, Job(key, Completed, p, None))))
  {
    var e := JobChange(JobProgressed, JobSchema(id, Job(key, Completed, p, None)));
    var s1 := Apply(INITIAL, ConnectStep(c));
    var s2 := Apply(s1, EnqueueStep(key, id));
    var run := LateFrom(s2, key, id, c, p);
    LeadsByOne(s1, EnqueueStep(key, id), run, c, e);
    LeadsByOne(INITIAL, ConnectStep(c), [EnqueueStep(key, id)] + run, c, e);
    assert [ConnectStep(c)] + ([EnqueueStep(key, id)] + run) ==
           [ConnectStep(c), EnqueueStep(key, id), StartStep, ThreadSetStep(id, p), ThreadScheduleStep(0),
            FinishStep(Succeeded), CallBackStep(0)];
  }

  lemma LateFrom(s: System, key: JobKey, id: JobId, c: ClientId, p: JobProgress) returns (run: seq<Step>)
    requires s.server.store == map[id := Job(key, Queued, WAITING, None)] && s.server.queue == [id]
    requires s.server.current == None && s.server.reporting == s.server.callbacks == []
    requires c in s.server.subscribers
    ensures run == [StartStep, ThreadSetStep(id, p), ThreadScheduleStep(0), FinishStep(Succeeded), CallBackStep(0)]
    ensures LeadsTo(s, run, c, JobChange(JobProgressed, JobSchema(id, Job(key, Completed, p, None))))
  {
    var e := JobChange(JobProgressed, JobSchema(id, Job(key, Completed, p, None)));
    var s1 := Apply(s, StartStep);
    var s2 := Apply(s1, ThreadSetStep(id, p));
    run := [FinishStep(Succeeded), CallBackStep(0)];
    ReadyToEnd(s1, key, id, p, c);
    EndsBeforeAnnouncing(Apply(s2, ThreadScheduleStep(0)), key, id, c, p);
    LeadsByOne(s2, ThreadScheduleStep(0), run, c, e);
    LeadsByOne(s1, ThreadSetStep(id, p), [ThreadScheduleStep(0)] + run, c, e);
    LeadsByOne(s, StartStep, [ThreadSetStep(id, p)] + ([ThreadScheduleStep(0)] + run), c, e);
    run := [StartStep] + ([ThreadSetStep(id, p)] + ([ThreadScheduleStep(0)] + run));
  }

  lemma ReadyToEnd(s: System, key: JobKey, id: JobId, p: JobProgress, c: ClientId)
    requires s.server.store == map[id := Job(key, Running, WAITING, None)] && s.server.current == Some(id)
    requires s.server.reporting == s.server.callbacks == [] && c in s.server.subscribers
    ensures Enabled(s, ThreadSetStep(id, p)) && Enabled(Apply(s, ThreadSetStep(id, p)), ThreadScheduleStep(0))
    ensures var t := Apply(Apply(s, ThreadSetStep(id, p)), ThreadScheduleStep(0)).server;
            && t.callbacks == [id] && t.current == Some(id) && c in t.subscribers
            && t.store == map[id := Job(key, Running, p, None)]
  {
  }

  lemma EndsBeforeAnnouncing(s: System, key: JobKey, id: JobId, c: ClientId, p: JobProgress)
    requires s.server.store == map[id := Job(key, Running, p, None)] && s.server.current == Some(id)
    requires s.server.callbacks == [id] && c in s.server.subscribers
    ensures LeadsTo(s, [FinishStep(Succeeded), CallBackStep(0)], c,
                    JobChange(JobProgressed, JobSchema(id, Job(key, Completed, p, None))))
  {
    var s1 := Apply(s, FinishStep(Succeeded));
    FinishedObject(s.server, Succeeded);
    ReleaseKeepsObjects(Ended(s.server, Succeeded));
    RunOfOne(s1, CallBackStep(0));
    LeadsByOne(s, FinishStep(Succeeded), [CallBackStep(0)], c,
               JobChange(JobProgressed, JobSchema(id, Job(key, Completed, p, None))));
    assert [FinishStep(Succeeded)] + [CallBackStep(0)] == [FinishStep(Succeeded), CallBackStep(0)];
  }

  // ---- Waiting ----

  /** `wait_for_completion` blocks exactly on an unfinished job. */
  lemma WaitBlocksIff(run: seq<Step>, id: JobId)
    requires Legal(INITIAL, run)
    ensures var s := Run(INITIAL, run).server;
            MustWait(s, id) <==> id in s.store && !Finished(s.store[id].status)
  {
    Reachable(run);
    var s := Run(INITIAL, run).server;
    JobsByTicket(s);
    UnfinishedIsActive(s);
  }

  /** A waiter can wake exactly when its job has ended. */
  lemma WakesIff(run: seq<Step>, w: WaiterId)
    requires Legal(INITIAL, run) && w in Run(INITIAL, run).waiters
    ensures var s := Run(INITIAL, run);
            && s.waiters[w] in s.server.store
            && (Enabled(s, WakeStep(w)) <==> Finished(s.server.store[s.waiters[w]].status))
  {
    Reachable(run);
    UnfinishedIsActive(Run(INITIAL, run).server);
  }
}
