/** The promises of the job queue and its stream, over every run from the empty queue. */
module JobTheorems {
  import opened Wrappers
  import opened JobModels
  import opened JobsStream
  import opened JobQueueSpec
  import opened JobQueueInvariant
  import opened JobSystem

  /** What a browser holds once everything sent to it so far has been delivered. */
  function Drained(s: System, c: ClientId): seq<JobSchema>
    requires c in s.views && c in s.server.subscribers
  {
    Fold(s.views[c], s.server.subscribers[c])
  }

  /** A connected browser, whenever it joined, drains to exactly one entry per job of `list_jobs()`, with the server's
      key, status and error, and its progress too unless a thread's broadcast is still pending. Entries for other
      jobs are ended jobs that the server has evicted. */
  lemma LiveViewConverges(run: seq<Step>, c: ClientId)
    requires Legal(INITIAL, run) && c in Run(INITIAL, run).server.subscribers
    ensures c in Run(INITIAL, run).views
    ensures var s := Run(INITIAL, run); var list := Drained(s, c);
            && UniqueIds(list)
            && (forall id :: id in ListJobs(s.server) ==> id in Ids(list))
            && (forall e :: e in list ==>
                  && e.id in s.server.store
                  && e.job.key == s.server.store[e.id].key
                  && e.job.status == s.server.store[e.id].status
                  && e.job.error == s.server.store[e.id].error
                  && (!Pending(s.server, e.id) ==> e.job == s.server.store[e.id])
                  && (e.id !in ListJobs(s.server) ==> Finished(e.job.status) && e.id !in s.server.jobs))
  {
    Reachable(run);
    var s := Run(INITIAL, run);
    ListJobsContents(s.server);
    JobsByTicket(s.server);
    assert ClientOk(s.server, s.views[c], s.server.subscribers[c]);
    forall e | e in Drained(s, c) && e.id !in ListJobs(s.server)
      ensures Finished(e.job.status) && e.id !in s.server.jobs
    {
      assert Current(s.server, e) && e.id in s.server.ticket;
    }
  }

  // ---- No list goes backwards ----

  /** Every entry for `a`'s job that browser `c` holds or has in flight is at `a`'s stage or later. */
  ghost predicate NotBefore(s: System, c: ClientId, a: JobSchema) {
    && a.id in s.server.store && Forward(a.job.status, s.server.store[a.id].status)
    && (c in s.views ==> Follows([a], s.views[c]))
    && (c in s.server.subscribers ==>
          forall i :: 0 <= i < |s.server.subscribers[c]| ==> Follows([a], Carried(s.server.subscribers[c][i])))
  }

  lemma PublishedNow(s: System, c: ClientId, a: JobSchema, id: JobId, r: Server, name: JobChangeName)
    requires NotBefore(s, c, a) && Changes(s.server, id, r)
    requires r.subscribers.Keys == s.server.subscribers.Keys
    requires c in r.subscribers ==>
               r.subscribers[c] == s.server.subscribers[c] + [JobChange(name, Schema(r.store, id))]
    ensures NotBefore(s.(server := r), c, a)
  {
  }

  lemma StillNotBefore(s: System, c: ClientId, a: JobSchema, t: System)
    requires NotBefore(s, c, a) && t.views == s.views
    requires s.server.store.Keys <= t.server.store.Keys
    requires forall id :: id in s.server.store ==> s.server.store[id].status == t.server.store[id].status
    requires c in t.server.subscribers ==>
               c in s.server.subscribers && t.server.subscribers[c] == s.server.subscribers[c]
    ensures NotBefore(t, c, a)
  {
  }

  lemma ConnectNotBefore(s: System, c: ClientId, a: JobSchema, d: ClientId)
    requires NotBefore(s, c, a) && CanSubscribe(s.server)
    ensures NotBefore(Apply(s, ConnectStep(d)), c, a)
  {
    var t := Apply(s, ConnectStep(d));
    if c == d {
      var snapshot := Schemas(s.server.store, ListJobs(s.server));
      forall x | x in snapshot && x.id == a.id ensures Forward(a.job.status, x.job.status) {
        var i :| 0 <= i < |snapshot| && snapshot[i] == x;
        assert x == Schema(s.server.store, ListJobs(s.server)[i]);
      }
      assert t.server.subscribers[c] == [QueueSnapshot(snapshot)];
    }
  }

  lemma DeliverNotBefore(s: System, c: ClientId, a: JobSchema, d: ClientId)
    requires NotBefore(s, c, a) && Enabled(s, DeliverStep(d))
    ensures NotBefore(Apply(s, DeliverStep(d)), c, a)
  {
    if c == d {
      var view, stream := s.views[c], s.server.subscribers[c];
      assert forall i :: 0 <= i < |stream[1..]| ==> stream[1..][i] == stream[i + 1];
      forall x | x in Receive(view, stream[0]) ensures x in view || x in Carried(stream[0]) {
        ReceiveIsOlder(view, stream[0], x);
      }
    }
  }

  lemma FinishNotBefore(s: System, c: ClientId, a: JobSchema, outcome: Outcome)
    requires NotBefore(s, c, a) && CanReport(s.server) && s.server.store[s.server.current.value].status == Running
    ensures NotBefore(Apply(s, FinishStep(outcome)), c, a)
  {
    EndedNotBefore(s, c, a, outcome);
    ReleaseKeepsObjects(Ended(s.server, outcome));
    StillNotBefore(s.(server := Ended(s.server, outcome)), c, a, Apply(s, FinishStep(outcome)));
  }

  lemma EndedNotBefore(s: System, c: ClientId, a: JobSchema, outcome: Outcome)
    requires NotBefore(s, c, a) && CanReport(s.server) && s.server.store[s.server.current.value].status == Running
    ensures NotBefore(s.(server := Ended(s.server, outcome)), c, a)
  {
    var name := if outcome.Succeeded? then JobCompleted else JobFailed;
    PublishedNow(s, c, a, s.server.current.value, Ended(s.server, outcome), name);
  }

  lemma EnqueueNotBefore(s: System, c: ClientId, a: JobSchema, key: JobKey, id: JobId)
    requires NotBefore(s, c, a) && id !in s.server.store
    ensures NotBefore(Apply(s, EnqueueStep(key, id)), c, a)
  {
    var t := Apply(s, EnqueueStep(key, id));
    if t != s { PublishedNow(s, c, a, id, t.server, JobAdded); }
  }

  lemma StartNotBefore(s: System, c: ClientId, a: JobSchema)
    requires Turn(s.server) && NotBefore(s, c, a) && Enabled(s, StartStep)
    ensures NotBefore(Apply(s, StartStep), c, a)
  {
    PublishedNow(s, c, a, s.server.queue[0], Start(s.server), JobStarted);
  }

  lemma ReportNotBefore(s: System, c: ClientId, a: JobSchema, p: JobProgress)
    requires NotBefore(s, c, a) && CanReport(s.server)
    ensures NotBefore(Apply(s, ReportStep(p)), c, a)
  {
    PublishedNow(s, c, a, s.server.current.value, Report(s.server, p), JobProgressed);
  }

  lemma StepNotBefore(s: System, c: ClientId, a: JobSchema, step: Step)
    requires Turn(s.server) && NotBefore(s, c, a) && Enabled(s, step)
    ensures NotBefore(Apply(s, step), c, a)
  {
    var t := Apply(s, step);
    match step
    case EnqueueStep(key, id) => EnqueueNotBefore(s, c, a, key, id);
    case StartStep => StartNotBefore(s, c, a);
    case ReportStep(p) => ReportNotBefore(s, c, a, p);
    case ThreadSetStep(_, _) => StillNotBefore(s, c, a, t);
    case ThreadScheduleStep(_) => StillNotBefore(s, c, a, t);
    case CallBackStep(k) => CallBackNotBefore(s, c, a, k);
    case FinishStep(outcome) => FinishNotBefore(s, c, a, outcome);
    case ConnectStep(d) => ConnectNotBefore(s, c, a, d);
    case DisconnectStep(_) => StillNotBefore(s, c, a, t);
    case DeliverStep(d) => DeliverNotBefore(s, c, a, d);
    case WaitStep(_, _) => StillNotBefore(s, c, a, t);
    case WakeStep(_) => StillNotBefore(s, c, a, t);
  }

  lemma CallBackNotBefore(s: System, c: ClientId, a: JobSchema, k: nat)
    requires NotBefore(s, c, a) && CanCallBack(s.server, k)
    ensures NotBefore(Apply(s, CallBackStep(k)), c, a)
  {
    var t, id := Apply(s, CallBackStep(k)), s.server.callbacks[k];
    if c in t.server.subscribers {
      var longer := t.server.subscribers[c];
      assert longer == s.server.subscribers[c] + [JobChange(JobProgressed, Schema(s.server.store, id))];
    }
  }

  lemma {:induction false} RunNotBefore(s: System, c: ClientId, a: JobSchema, run: seq<Step>)
    requires SystemInv(s) && NotBefore(s, c, a) && Legal(s, run)
    ensures NotBefore(Run(s, run), c, a)
    decreases |run|
  {
    if run == [] {
    } else {
      StepInv(s, run[0]);
      TurnHolds(s.server);
      StepNotBefore(s, c, a, run[0]);
      RunNotBefore(Apply(s, run[0]), c, a, run[1..]);
    }
  }

  /** No browser ever shows a job at an earlier stage than it showed before, across deliveries, reconnects and
      evictions. */
  lemma StatusNeverGoesBack(before: seq<Step>, after: seq<Step>, c: ClientId, a: JobSchema, b: JobSchema)
    requires Legal(INITIAL, before) && Legal(Run(INITIAL, before), after)
    requires c in Run(INITIAL, before).views && a in Run(INITIAL, before).views[c]
    requires c in Run(Run(INITIAL, before), after).views && b in Run(Run(INITIAL, before), after).views[c]
    requires a.id == b.id
    ensures Forward(a.job.status, b.job.status)
  {
    Reachable(before);
    var s := Run(INITIAL, before);
    ShownIsNotBefore(s, c, a);
    RunNotBefore(s, c, a, after);
    assert a in [a];
  }

  /** What a browser shows now bounds what it holds and what it is sent. */
  lemma ShownIsNotBefore(s: System, c: ClientId, a: JobSchema)
    requires ClientsOk(s) && c in s.views && a in s.views[c]
    ensures NotBefore(s, c, a)
  {
    var view := s.views[c];
    assert Behind(s.server, view) && UniqueIds(view);
    forall x | x in view && x.id == a.id ensures x == a {
      var i, j :| 0 <= i < |view| && 0 <= j < |view| && view[i] == a && view[j] == x;
    }
    if c in s.server.subscribers { assert ClientOk(s.server, view, s.server.subscribers[c]); }
  }

  // ---- Dedup, memory, waiting, order ----

  /** Unfinished means queued or running, which is what the active map indexes. */
  lemma UnfinishedIsActive(s: Server)
    requires TicketsOk(s) && LogOk(s) && StatusOk(s) && ActiveOk(s)
    ensures forall id :: id in s.store ==>
              (!Finished(s.store[id].status) <==> s.ticket[id] >= s.done)
    ensures forall id :: id in s.store && !Finished(s.store[id].status) ==>
              s.store[id].key in s.active && s.active[s.store[id].key] == id
    ensures forall key :: key in s.active ==>
              s.active[key] in s.store && s.store[s.active[key]].key == key && !Finished(s.store[s.active[key]].status)
  {
  }

  /** The active map is a bijection between keys and unfinished jobs, all of which are still stored. */
  lemma OneUnfinishedJobPerKey(run: seq<Step>)
    requires Legal(INITIAL, run)
    ensures var s := Run(INITIAL, run).server;
            && (forall id :: id in s.store && !Finished(s.store[id].status) ==>
                  id in s.jobs && s.store[id].key in s.active && s.active[s.store[id].key] == id)
            && (forall key :: key in s.active ==>
                  && s.active[key] in s.jobs && s.active[key] in s.store
                  && s.store[s.active[key]].key == key && !Finished(s.store[s.active[key]].status))
            && (forall a, b ::
                  a in s.store && b in s.store && !Finished(s.store[a].status) && !Finished(s.store[b].status) ==>
                  s.store[a].key == s.store[b].key ==> a == b)
  {
    Reachable(run);
    var s := Run(INITIAL, run).server;
    JobsByTicket(s);
    UnfinishedIsActive(s);
  }

  /** The unfinished job of a key, if the key has one. */
  ghost predicate IsTheUnfinished(s: Server, key: JobKey, id: JobId) {
    && id in s.store && s.store[id].key == key && !Finished(s.store[id].status)
    && forall other :: other in s.store && s.store[other].key == key && !Finished(s.store[other].status) ==> other == id
  }

  ghost predicate NoneUnfinished(s: Server, key: JobKey) {
    forall other :: other in s.store && s.store[other].key == key ==> Finished(s.store[other].status)
  }

  /** An enqueue returns the one unfinished job of its key, creating it only when there was none. */
  lemma EnqueueReturnsTheUnfinishedJob(run: seq<Step>, key: JobKey, freshId: JobId)
    requires Legal(INITIAL, run) && freshId !in Run(INITIAL, run).server.store
    ensures var s := Run(INITIAL, run).server; var (t, id) := Enqueue(s, key, freshId);
            IsTheUnfinished(t, key, id) && (id == freshId <==> NoneUnfinished(s, key))
  {
    Reachable(run);
    EnqueueReturns(Run(INITIAL, run).server, key, freshId);
  }

  lemma EnqueueReturns(s: Server, key: JobKey, freshId: JobId)
    requires Inv(s) && freshId !in s.store
    ensures var (t, id) := Enqueue(s, key, freshId);
            IsTheUnfinished(t, key, id) && (id == freshId <==> NoneUnfinished(s, key))
    ensures key in s.active <==> Enqueue(s, key, freshId).1 != freshId
  {
    EnqueueInv(s, key, freshId);
    UnfinishedIsActive(s);
    var (t, id) := Enqueue(s, key, freshId);
    if key in s.active {
      assert s.active[key] in s.store && s.active[key] != freshId;
    } else {
      EnqueueCreates(s, key, freshId);
    }
  }

  lemma EnqueueCreates(s: Server, key: JobKey, freshId: JobId)
    requires key !in s.active
    ensures var (t, id) := Enqueue(s, key, freshId);
            id == freshId && t.store == s.store[freshId := Job(key, Queued, WAITING, None)]
            && t.ticket == s.ticket[freshId := |s.puts|] && |t.puts| == |s.puts| + 1
  {
  }

  /** Bounded memory: `_jobs` and the completion events hold the unfinished jobs and the at most 50 jobs of the history,
      without duplicates, and an event is set exactly when its job is in the history. */
  lemma MemoryIsBounded(run: seq<Step>)
    requires Legal(INITIAL, run)
    ensures var s := Run(INITIAL, run).server;
            && |s.history| <= MAX_HISTORY && NoDuplicates(s.history) && NoDuplicates(s.jobs)
            && (forall id :: id in s.jobs <==>
                  id in s.store && (!Finished(s.store[id].status) || id in s.history))
            && (forall id :: id in s.completionEvents <==> id in s.jobs)
            && (forall id :: id in s.completionEvents ==> (id in s.signalled <==> id in s.history))
  {
    Reachable(run);
    var s := Run(INITIAL, run).server;
    JobsByTicket(s);
    HistoryByTicket(s);
  }

  lemma HistoryByTicket(s: Server)
    requires TicketsOk(s) && HistoryOk(s)
    ensures NoDuplicates(s.history)
    ensures forall id :: id in s.history <==> id in s.ticket && Evicted(s) <= s.ticket[id] < s.done
  {
    forall i, j | 0 <= i < j < |s.history| ensures s.history[i] != s.history[j] {
      assert s.ticket[s.puts[s.done - 1 - i]] == s.done - 1 - i && s.ticket[s.puts[s.done - 1 - j]] == s.done - 1 - j;
    }
    forall id ensures id in s.history <==> id in s.ticket && Evicted(s) <= s.ticket[id] < s.done {
      if id in s.history {
        var i :| 0 <= i < |s.history| && s.history[i] == id;
        assert id == s.puts[s.done - 1 - i];
      }
      if id in s.ticket && Evicted(s) <= s.ticket[id] < s.done {
        assert s.history[s.done - 1 - s.ticket[id]] == id;
      }
    }
  }

  /** Every completion event that eviction drops is already set, so whoever holds it wakes. */
  lemma DroppedEventsAreSet(run: seq<Step>, outcome: Outcome)
    requires Legal(INITIAL, run) && CanReport(Run(INITIAL, run).server)
    ensures var s := Run(INITIAL, run).server; var t := Finish(s, outcome);
            && (forall id :: id in s.completionEvents && id !in t.completionEvents ==> id in t.signalled)
            && s.current.value in t.signalled && s.current.value in t.history
  {
    Reachable(run);
    var s := Run(INITIAL, run).server;
    assert s.ticket[s.current.value] == s.done;
    FinishInv(s, outcome);
    var t := Finish(s, outcome);
    HistoryByTicket(t);
  }

  // ---- Order and progress ----

  /** At most one job runs, and a job leaves the queue only after every job put before it has ended. */
  lemma RunsInPutOrder(run: seq<Step>, a: JobId, b: JobId)
    requires Legal(INITIAL, run)
    requires var s := Run(INITIAL, run).server; a in s.ticket && b in s.ticket && s.ticket[a] < s.ticket[b]
    ensures var s := Run(INITIAL, run).server; a in s.store && b in s.store
    ensures var s := Run(INITIAL, run).server;
            s.store[b].status != Queued ==> Finished(s.store[a].status)
    ensures var s := Run(INITIAL, run).server;
            s.store[a].status == Running ==> s.current == Some(a) && s.store[b].status == Queued
  {
    Reachable(run);
  }

  /** No run takes a job, its key or its ticket away, and a new job's ticket is above all earlier ones. */
  lemma {:induction false} RunContinues(s: System, run: seq<Step>)
    requires Ticketed(s.server) && Legal(s, run)
    ensures Continues(s.server, Run(s, run).server)
    decreases |run|
  {
    if run == [] {
    } else {
      var t := Apply(s, run[0]);
      StepContinues(s, run[0]);
      RunContinues(t, run[1..]);
      ContinuesTrans(s.server, t.server, Run(s, run).server);
    }
  }

  /** Steps in which the worker takes or ends a job. */
  function WorkerSteps(run: seq<Step>): nat {
    if run == [] then 0 else WorkerMoved(run[0]) + WorkerSteps(run[1..])
  }

  function WorkerMoved(step: Step): nat { if step.StartStep? || step.FinishStep? then 1 else 0 }

  function LeftAfter(work: nat, steps: nat): nat { if work <= steps then 0 else work - steps }

  /** How many worker steps are left until the job has ended. */
  function WorkLeft(s: Server, id: JobId): nat
    requires id in s.ticket
  {
    if s.ticket[id] < s.done then 0
    else 2 * (s.ticket[id] + 1 - s.done) - (if s.current.Some? then 1 else 0)
  }

  /** While a job is unfinished the worker can move, whatever else has happened. */
  lemma WorkerIsNeverStuck(s: System, id: JobId)
    requires SystemInv(s) && id in s.server.ticket && WorkLeft(s.server, id) > 0
    ensures Enabled(s, StartStep) || forall outcome :: Enabled(s, FinishStep(outcome))
  {
    if s.server.current.None? { assert s.server.queue[0] == s.server.puts[s.server.done]; }
  }

  lemma StepWork(s: System, step: Step, id: JobId)
    requires Ticketed(s.server) && Enabled(s, step) && id in s.server.ticket
    ensures var t := Apply(s, step).server;
            && id in t.ticket
            && WorkLeft(t, id) == LeftAfter(WorkLeft(s.server, id), WorkerMoved(step))
  {
    StepContinues(s, step);
    StepTurn(s, step);
    assert ContinuesFor(s.server, Apply(s, step).server, id);
  }

  lemma LeftAfterBoth(work: nat, first: nat, rest: nat)
    ensures LeftAfter(LeftAfter(work, first), rest) == LeftAfter(work, first + rest)
  {
  }

  /** Every other step leaves a job's remaining work alone, so it ends after that many worker steps. */
  lemma {:induction false} WorkRunsOut(s: System, run: seq<Step>, id: JobId)
    requires Ticketed(s.server) && Legal(s, run) && id in s.server.ticket
    ensures id in Run(s, run).server.ticket
    ensures WorkLeft(Run(s, run).server, id) == LeftAfter(WorkLeft(s.server, id), WorkerSteps(run))
    decreases |run|
  {
    if run == [] {
    } else {
      var t := Apply(s, run[0]);
      StepContinues(s, run[0]);
      StepWork(s, run[0], id);
      WorkRunsOut(t, run[1..], id);
      LeftAfterBoth(WorkLeft(s.server, id), WorkerMoved(run[0]), WorkerSteps(run[1..]));
    }
  }

  /** No lost wakeup: once the worker has made the steps its job still needed, a waiter is awake or can wake, even if
      its job has been evicted meanwhile. */
  lemma WaitersWake(before: seq<Step>, after: seq<Step>, w: WaiterId)
    requires Legal(INITIAL, before) && Legal(Run(INITIAL, before), after)
    requires var s := Run(INITIAL, before); w in s.waiters && s.waiters[w] in s.server.ticket
    requires var s := Run(INITIAL, before); WorkerSteps(after) >= WorkLeft(s.server, s.waiters[w])
    ensures var s := Run(INITIAL, before); var t := Run(s, after);
            w in t.waiters && t.waiters[w] == s.waiters[w] ==> Enabled(t, WakeStep(w))
  {
    Reachable(before);
    var s := Run(INITIAL, before);
    RunInv(s, after);
    WorkRunsOut(s, after, s.waiters[w]);
  }

  // ---- Validation after quality ----

  /** In every continuation `second` waits in the queue until `first` has ended. */
  ghost predicate AlwaysAfter(s: System, first: JobId, second: JobId) {
    forall run :: Legal(s, run) ==> AfterIn(Run(s, run).server, first, second)
  }

  ghost predicate AfterIn(s: Server, first: JobId, second: JobId) {
    && first in s.store && second in s.store
    && (s.store[second].status != Queued ==> Finished(s.store[first].status))
  }

  lemma PutBeforeRunsBefore(s: System, first: JobId, second: JobId)
    requires SystemInv(s) && first in s.server.ticket && second in s.server.ticket
    requires s.server.ticket[first] < s.server.ticket[second]
    ensures AlwaysAfter(s, first, second)
  {
    forall run | Legal(s, run) ensures AfterIn(Run(s, run).server, first, second) {
      RunInv(s, run);
      RunContinues(s, run);
      assert ContinuesFor(s.server, Run(s, run).server, first) && ContinuesFor(s.server, Run(s, run).server, second);
    }
  }

  /** The worker's next step brings an unfinished job closer to its end and does not end a job before it has run. */
  lemma WorkerMoves(s: System, step: Step, id: JobId)
    requires SystemInv(s) && id in s.server.ticket && s.server.ticket[id] >= s.server.done
    requires s.server.store[id].status != Running
    requires step == if s.server.current.None? then StartStep else FinishStep(Succeeded)
    ensures Enabled(s, step) && SystemInv(Apply(s, step))
    ensures var t := Apply(s, step).server;
            id in t.ticket && t.ticket[id] >= t.done && WorkLeft(t, id) < WorkLeft(s.server, id)
  {
    WorkerIsNeverStuck(s, id);
    StepInv(s, step);
    StepWork(s, step, id);
    StepTurn(s, step);
    StepContinues(s, step);
    assert ContinuesFor(s.server, Apply(s, step).server, id);
  }

  /** Alternating worker steps bring any unfinished job to running. */
  lemma ReachRunning(s: System, id: JobId) returns (run: seq<Step>)
    requires SystemInv(s) && id in s.server.ticket && s.server.ticket[id] >= s.server.done
    ensures Legal(s, run)
    ensures id in Run(s, run).server.store && Run(s, run).server.store[id].status == Running
    decreases WorkLeft(s.server, id)
  {
    if s.server.store[id].status == Running {
      run := [];
    } else {
      var step := if s.server.current.None? then StartStep else FinishStep(Succeeded);
      WorkerMoves(s, step, id);
      var rest := ReachRunning(Apply(s, step), id);
      run := [step] + rest;
      assert run[1..] == rest;
    }
  }

  lemma StillWaiting(s: Server, first: JobId, second: JobId)
    requires Inv(s) && first in s.ticket && second in s.ticket && s.ticket[second] < s.ticket[first]
    requires s.store[second].status == Running
    ensures !Finished(s.store[first].status)
  {
  }

  lemma PutBeforeCanRunBefore(s: System, first: JobId, second: JobId)
    requires SystemInv(s) && first in s.server.ticket && second in s.server.ticket
    requires s.server.done <= s.server.ticket[second] < s.server.ticket[first]
    ensures !AlwaysAfter(s, first, second)
  {
    var run := ReachRunning(s, second);
    RunInv(s, run);
    RunContinues(s, run);
    assert ContinuesFor(s.server, Run(s, run).server, first) && ContinuesFor(s.server, Run(s, run).server, second);
    StillWaiting(Run(s, run).server, first, second);
    assert !AfterIn(Run(s, run).server, first, second);
  }

  /** For an unfinished `second`, waiting for `first` in every continuation is a matter of put order. */
  lemma PutOrderDecides(s: System, first: JobId, second: JobId)
    requires SystemInv(s) && first in s.server.ticket && second in s.server.ticket && first != second
    requires s.server.ticket[second] >= s.server.done
    ensures AlwaysAfter(s, first, second) <==> s.server.ticket[first] < s.server.ticket[second]
  {
    if s.server.ticket[first] < s.server.ticket[second] {
      PutBeforeRunsBefore(s, first, second);
    } else {
      assert s.server.puts[s.server.ticket[first]] != s.server.puts[s.server.ticket[second]];
      PutBeforeCanRunBefore(s, first, second);
    }
  }

  /** A job that is unfinished later was, if it already existed, the active job of its key. */
  lemma WasActive(s: Server, t: Server, id: JobId)
    requires TicketsOk(s) && ActiveOk(s) && Continues(s, t)
    requires id in t.store && id in t.ticket && t.ticket[id] >= t.done
    ensures id in s.ticket <==> t.store[id].key in s.active && s.active[t.store[id].key] == id
  {
    assert ContinuesFor(s, t, id);
  }

  /** `a` stands before `b` in the list. */
  ghost predicate StandsBefore(list: seq<JobId>, a: JobId, b: JobId) {
    exists i, j :: 0 <= i < j < |list| && list[i] == a && list[j] == b
  }

  lemma JobsInPutOrder(s: Server, a: JobId, b: JobId)
    requires TicketsOk(s) && LogOk(s) && a in s.jobs && b in s.jobs
    ensures StandsBefore(s.jobs, a, b) <==> s.ticket[a] < s.ticket[b]
  {
    var e := Evicted(s);
    assert forall i :: 0 <= i < |s.jobs| ==> s.ticket[s.puts[e + i]] == e + i && s.jobs[i] == s.puts[e + i];
    var i, j :| 0 <= i < |s.jobs| && 0 <= j < |s.jobs| && s.jobs[i] == a && s.jobs[j] == b;
  }

  /** The validation active before the chain began is still the active one, and stands before the quality job. */
  ghost predicate ValidationIsAhead(s0: Server, s2: Server, quality: JobKey, validation: JobKey) {
    && validation in s0.active && validation in s2.active && s2.active[validation] == s0.active[validation]
    && (quality in s0.active ==> StandsBefore(s0.jobs, s0.active[validation], s0.active[quality]))
  }

  /** The post-recording chain enqueues a quality job and later the validation of the same folder. The validation job
      it gets waits for the quality job it got exactly when it is not one that was already active, and ahead of the
      quality job, when the chain began: the single FIFO worker alone does not make quality finish first. */
  lemma ValidationFollowsQuality(before: seq<Step>, mid: seq<Step>, quality: JobKey, validation: JobKey,
                                 qualityId: JobId, validationId: JobId)
    requires quality != validation
    requires Legal(INITIAL, before) && Enabled(Run(INITIAL, before), EnqueueStep(quality, qualityId))
    requires Legal(Apply(Run(INITIAL, before), EnqueueStep(quality, qualityId)), mid)
    requires Enabled(Run(Apply(Run(INITIAL, before), EnqueueStep(quality, qualityId)), mid),
                     EnqueueStep(validation, validationId))
    ensures var s0 := Run(INITIAL, before);
            var s2 := Run(Apply(s0, EnqueueStep(quality, qualityId)), mid);
            var q := Enqueue(s0.server, quality, qualityId).1;
            var v := Enqueue(s2.server, validation, validationId).1;
            AlwaysAfter(Apply(s2, EnqueueStep(validation, validationId)), q, v) <==>
              !ValidationIsAhead(s0.server, s2.server, quality, validation)
  {
    Reachable(before);
    ChainDecides(Run(INITIAL, before), mid, quality, validation, qualityId, validationId);
  }

  lemma ChainDecides(s0: System, mid: seq<Step>, quality: JobKey, validation: JobKey, qualityId: JobId,
                     validationId: JobId)
    requires SystemInv(s0) && quality != validation && Enabled(s0, EnqueueStep(quality, qualityId))
    requires Legal(Apply(s0, EnqueueStep(quality, qualityId)), mid)
    requires Enabled(Run(Apply(s0, EnqueueStep(quality, qualityId)), mid), EnqueueStep(validation, validationId))
    ensures var s2 := Run(Apply(s0, EnqueueStep(quality, qualityId)), mid);
            var q := Enqueue(s0.server, quality, qualityId).1;
            var v := Enqueue(s2.server, validation, validationId).1;
            AlwaysAfter(Apply(s2, EnqueueStep(validation, validationId)), q, v) <==>
              !ValidationIsAhead(s0.server, s2.server, quality, validation)
  {
    var s1 := Apply(s0, EnqueueStep(quality, qualityId));
    var s2 := Run(s1, mid);
    var t := Apply(s2, EnqueueStep(validation, validationId));
    var q, v := Enqueue(s0.server, quality, qualityId).1, Enqueue(s2.server, validation, validationId).1;
    EnqueuePlaces(s0, quality, qualityId);
    RunInv(s1, mid);
    RunContinues(s1, mid);
    EnqueuePlaces(s2, validation, validationId);
    ChainOrder(s0.server, s1.server, s2.server, t.server, quality, validation, q, v);
    PutOrderDecides(t, q, v);
  }

  /** Where an enqueue's job stands: it is the active one and unfinished; new jobs come last. */
  ghost predicate Placed(s: Server, t: Server, key: JobKey, id: JobId) {
    && id in t.store && t.store[id].key == key && id in t.ticket && t.ticket[id] >= t.done
    && (key in s.active ==> t == s && s.active[key] == id && id in s.ticket)
    && (key !in s.active ==> id !in s.ticket && t.ticket == s.ticket[id := |s.puts|] && |t.puts| == |s.puts| + 1)
  }

  lemma EnqueuePlaces(s: System, key: JobKey, freshId: JobId)
    requires SystemInv(s) && Enabled(s, EnqueueStep(key, freshId))
    ensures var t := Apply(s, EnqueueStep(key, freshId));
            && SystemInv(t) && Continues(s.server, t.server)
            && Placed(s.server, t.server, key, Enqueue(s.server, key, freshId).1)
  {
    StepInv(s, EnqueueStep(key, freshId));
    StepContinues(s, EnqueueStep(key, freshId));
    EnqueueIsPlaced(s.server, key, freshId);
  }

  lemma EnqueueIsPlaced(s: Server, key: JobKey, freshId: JobId)
    requires Inv(s) && freshId !in s.store
    ensures Placed(s, Enqueue(s, key, freshId).0, key, Enqueue(s, key, freshId).1)
  {
    EnqueueInv(s, key, freshId);
    if key !in s.active { EnqueueCreates(s, key, freshId); }
  }

  lemma ChainOrder(s0: Server, s1: Server, s2: Server, t: Server, quality: JobKey, validation: JobKey, q: JobId,
                   v: JobId)
    requires Inv(s0) && TicketsOk(s2) && ActiveOk(s2) && quality != validation
    requires Placed(s0, s1, quality, q) && Placed(s2, t, validation, v)
    requires Continues(s0, s1) && Continues(s1, s2) && Continues(s2, t)
    ensures q != v && q in t.ticket && v in t.ticket && t.ticket[v] >= t.done
    ensures t.ticket[q] < t.ticket[v] <==> !ValidationIsAhead(s0, s2, quality, validation)
  {
    ContinuesTrans(s0, s1, s2);
    ContinuesTrans(s0, s2, t);
    ContinuesTrans(s1, s2, t);
    AheadMeans(s0, s2, t, quality, validation, v);
    assert ContinuesFor(s1, t, q) && ContinuesFor(s1, t, v) && ContinuesFor(s0, t, v);
    WhoIsAhead(s0, s1, t, quality, validation, q, v);
  }

  lemma AheadMeans(s0: Server, s2: Server, t: Server, quality: JobKey, validation: JobKey, v: JobId)
    requires TicketsOk(s0) && ActiveOk(s0) && TicketsOk(s2) && ActiveOk(s2)
    requires Placed(s2, t, validation, v) && Continues(s0, s2) && Continues(s2, t) && Continues(s0, t)
    ensures v in s0.ticket <==> validation in s0.active && s0.active[validation] == v
    ensures ValidationIsAhead(s0, s2, quality, validation) <==>
              v in s0.ticket && (quality in s0.active ==> StandsBefore(s0.jobs, v, s0.active[quality]))
  {
    WasActive(s0, t, v);
    WasActive(s2, t, v);
    assert ContinuesFor(s0, s2, v);
  }

  lemma AheadByTicket(s: Server, a: JobId, b: JobId)
    requires TicketsOk(s) && LogOk(s) && a in s.ticket && b in s.ticket && a != b
    requires s.ticket[a] >= s.done && s.ticket[b] >= s.done
    ensures StandsBefore(s.jobs, a, b) <==> s.ticket[a] < s.ticket[b]
    ensures s.ticket[a] != s.ticket[b]
  {
    JobsByTicket(s);
    JobsInPutOrder(s, a, b);
    assert s.puts[s.ticket[a]] == a && s.puts[s.ticket[b]] == b;
  }

  lemma WhoIsAhead(s0: Server, s1: Server, t: Server, quality: JobKey, validation: JobKey, q: JobId, v: JobId)
    requires TicketsOk(s0) && LogOk(s0)
    requires v in s0.ticket ==> s0.ticket[v] >= s0.done
    requires Placed(s0, s1, quality, q) && ContinuesFor(s1, t, q) && ContinuesFor(s1, t, v) && ContinuesFor(s0, t, v)
    requires q != v && v in t.ticket
    requires v in s0.ticket ==> validation in s0.active && s0.active[validation] == v
    ensures t.ticket[q] < t.ticket[v] <==>
              !(v in s0.ticket && (quality in s0.active ==> StandsBefore(s0.jobs, v, s0.active[quality])))
  {
    if v in s0.ticket && quality in s0.active {
      AheadByTicket(s0, v, q);
    }
  }

  lemma RunOfOne(s: System, step: Step)
    requires Enabled(s, step)
    ensures Legal(s, [step]) && Run(s, [step]) == Apply(s, step)
  {
    assert [step][1..] == [] && Legal(Apply(s, step), []);
  }

  lemma RunOfMore(s: System, step: Step, rest: seq<Step>)
    requires Enabled(s, step) && Legal(Apply(s, step), rest)
    ensures Legal(s, [step] + rest) && Run(s, [step] + rest) == Run(Apply(s, step), rest)
  {
    assert ([step] + rest)[1..] == rest;
  }

  lemma ThreeSteps(a: Step, b: Step, c: Step)
    requires Enabled(INITIAL, a) && Enabled(Apply(INITIAL, a), b) && Enabled(Apply(Apply(INITIAL, a), b), c)
    ensures Legal(INITIAL, [a, b, c]) && Run(INITIAL, [a, b, c]) == Apply(Apply(Apply(INITIAL, a), b), c)
    ensures Legal(INITIAL, [a, b]) && Run(INITIAL, [a, b]) == Apply(Apply(INITIAL, a), b)
  {
    var s1 := Apply(INITIAL, a);
    assert [a, b] == [a] + [b] && [a, b, c] == [a] + ([b] + [c]);
    RunOfOne(s1, b);
    RunOfOne(Apply(s1, b), c);
    RunOfMore(s1, b, [c]);
    RunOfMore(INITIAL, a, [b]);
    RunOfMore(INITIAL, a, [b] + [c]);
  }

  /** A validation that was re-run by hand just before the recording's quality job is enqueued starts first. */
  lemma ValidationCanGoFirst(folder: TargetPath, one: JobId, two: JobId, three: JobId)
    requires one != two && one != three && two != three
    ensures var quality, validation := JobKey(Quality, folder), JobKey(Validation, folder);
            var chain := [EnqueueStep(validation, one), EnqueueStep(quality, two), EnqueueStep(validation, three)];
            Legal(INITIAL, chain) && !AlwaysAfter(Run(INITIAL, chain), two, one)
            && Enqueue(Run(INITIAL, chain[..2]).server, validation, three).1 == one
  {
    var quality, validation := JobKey(Quality, folder), JobKey(Validation, folder);
    var a, b, c := EnqueueStep(validation, one), EnqueueStep(quality, two), EnqueueStep(validation, three);
    ThreeSteps(a, b, c);
    assert [a, b, c][..2] == [a, b];
    Reachable([a, b, c]);
    PutBeforeCanRunBefore(Run(INITIAL, [a, b, c]), two, one);
  }
}
