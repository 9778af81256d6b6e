/** What the job list shows and in which order: unfinished jobs first, oldest first, then the last fifty ended ones,
    newest first; and who receives it. */
module JobLists {
  import opened JobModels
  import opened JobsStream
  import opened JobQueueSpec
  import opened JobQueueInvariant
  import opened JobSystem
  import opened JobOutcomes

  // ---- The history ----

  /** The history is the last fifty jobs that ended, newest first: its entry `i` is the one that ended `i` before the
      last. */
  lemma HistoryIsTheLastFifty(run: seq<Step>)
    requires Legal(INITIAL, run)
    ensures var s, ended := Run(INITIAL, run).server, |OutcomesOf(run)|;
            && |s.history| == (if ended < 50 then ended else 50)
            && forall i :: 0 <= i < |s.history| ==>
                 s.history[i] in s.ticket && s.ticket[s.history[i]] == ended - 1 - i
  {
    Reachable(run);
    ReachableOutcomes(run);
    HistoryTickets(Run(INITIAL, run).server);
  }

  lemma HistoryTickets(s: Server)
    requires TicketsOk(s) && HistoryOk(s)
    ensures |s.history| == (if s.done < 50 then s.done else 50)
    ensures forall i :: 0 <= i < |s.history| ==>
              s.history[i] in s.ticket && s.ticket[s.history[i]] == s.done - 1 - i
  {
  }

  // ---- The order of the list ----

  /** Put one after the other. */
  ghost predicate Rising(ticket: map<JobId, nat>, ids: seq<JobId>) {
    && (forall id :: id in ids ==> id in ticket)
    && forall i, j :: 0 <= i < j < |ids| ==> ticket[ids[i]] < ticket[ids[j]]
  }

  ghost predicate AllUnfinished(store: map<JobId, Job>, ids: seq<JobId>) {
    forall i :: 0 <= i < |ids| ==> ids[i] in store && !Finished(store[ids[i]].status)
  }

  lemma RisingCons(ticket: map<JobId, nat>, id: JobId, rest: seq<JobId>)
    requires Rising(ticket, rest) && id in ticket && forall x :: x in rest ==> x in ticket && ticket[id] < ticket[x]
    ensures Rising(ticket, [id] + rest)
  {
    var ids := [id] + rest;
    forall i, j | 0 <= i < j < |ids| ensures ticket[ids[i]] < ticket[ids[j]] {
      assert ids[j] == rest[j - 1];
      if i > 0 { assert ids[i] == rest[i - 1]; }
    }
  }

  lemma RisingTail(ticket: map<JobId, nat>, ids: seq<JobId>)
    requires Rising(ticket, ids) && ids != []
    ensures Rising(ticket, ids[1..]) && forall x :: x in ids[1..] ==> x in ticket && ticket[ids[0]] < ticket[x]
  {
  }

  lemma {:induction false} UnfinishedRises(store: map<JobId, Job>, ticket: map<JobId, nat>, ids: seq<JobId>)
    requires Rising(ticket, ids)
    ensures Rising(ticket, Unfinished(store, ids))
  {
    if ids != [] {
      RisingTail(ticket, ids);
      UnfinishedRises(store, ticket, ids[1..]);
      RisingCons(ticket, ids[0], Unfinished(store, ids[1..]));
    }
  }

  lemma {:induction false} UnfinishedAre(store: map<JobId, Job>, ids: seq<JobId>)
    ensures AllUnfinished(store, Unfinished(store, ids))
  {
    if ids != [] { UnfinishedAre(store, ids[1..]); }
  }

  lemma JobsRise(s: Server)
    requires TicketsOk(s) && LogOk(s)
    ensures Rising(s.ticket, s.jobs)
  {
    forall i | 0 <= i < |s.jobs| ensures s.jobs[i] in s.ticket && s.ticket[s.jobs[i]] == Evicted(s) + i {
      assert s.jobs[i] == s.puts[Evicted(s) + i];
    }
  }

  /** An entry of the list and one further down: unfinished ones stand first and in the order they were put, ended ones
      the other way round. */
  ghost predicate Listed(s: Server, a: JobId, b: JobId)
    requires a in s.store && b in s.store && a in s.ticket && b in s.ticket
  {
    if Finished(s.store[a].status) then Finished(s.store[b].status) && s.ticket[b] < s.ticket[a]
    else !Finished(s.store[b].status) ==> s.ticket[a] < s.ticket[b]
  }

  lemma ListIsOrdered(s: Server, i: nat, j: nat)
    requires TicketsOk(s) && LogOk(s) && HistoryOk(s) && StatusOk(s) && i < j < |ListJobs(s)|
    ensures var a, b := ListJobs(s)[i], ListJobs(s)[j];
            && a in s.store && b in s.store && a in s.ticket && b in s.ticket && Listed(s, a, b)
  {
    JobsRise(s);
    UnfinishedRises(s.store, s.ticket, s.jobs);
    UnfinishedAre(s.store, s.jobs);
    HistoryTickets(s);
    var front := Unfinished(s.store, s.jobs);
    var a, b := ListJobs(s)[i], ListJobs(s)[j];
    assert if i < |front| then a == front[i] else a == s.history[i - |front|];
    assert if j < |front| then b == front[j] else b == s.history[j - |front|];
  }

  /** In every reachable state the list is in that order. */
  lemma ListOrder(run: seq<Step>, i: nat, j: nat)
    requires Legal(INITIAL, run) && i < j < |ListJobs(Run(INITIAL, run).server)|
    ensures var s := Run(INITIAL, run).server; var a, b := ListJobs(s)[i], ListJobs(s)[j];
            && a in s.store && b in s.store && a in s.ticket && b in s.ticket && Listed(s, a, b)
  {
    Reachable(run);
    ListIsOrdered(Run(INITIAL, run).server, i, j);
  }

  /** In a browser's list a job keeps its place, and a job it did not list comes first. */
  lemma UpsertKeepsPlaces(list: seq<JobSchema>, job: JobSchema)
    ensures var after := Upsert(list, job);
            if job.id in Ids(list) then |after| == |list| && forall i :: 0 <= i < |list| ==> after[i].id == list[i].id
            else after == [job] + list
  {
    var k := IndexOf(list, job.id);
    assert k < |list| ==> list[k] in list && list[k].id == job.id;
    if job.id in Ids(list) {
      var e :| e in list && e.id == job.id;
      var i :| 0 <= i < |list| && list[i] == e;
    }
  }

  // ---- Who is connected ----

  /** The browsers connected after a run. */
  function Connected(before: set<ClientId>, run: seq<Step>): set<ClientId>
    decreases |run|
  {
    if run == [] then before else Connected(ConnectedAfter(before, run[0]), run[1..])
  }

  function ConnectedAfter(before: set<ClientId>, step: Step): set<ClientId> {
    match step
    case ConnectStep(c) => before + {c}
    case DisconnectStep(c) => before - {c}
    case _ => before
  }

  lemma EndingKeepsConnections(s: Server, outcome: Outcome)
    requires CanReport(s)
    ensures Finish(s, outcome).subscribers.Keys == s.subscribers.Keys
  {
    assert Release(Ended(s, outcome)).subscribers == Ended(s, outcome).subscribers;
    assert Ended(s, outcome).subscribers.Keys == s.subscribers.Keys;
  }

  lemma PuttingKeepsConnections(s: Server, key: JobKey, id: JobId)
    ensures Enqueue(s, key, id).0.subscribers.Keys == s.subscribers.Keys
  {
  }

  lemma StepConnects(s: System, step: Step)
    requires Enabled(s, step)
    ensures Apply(s, step).server.subscribers.Keys == ConnectedAfter(s.server.subscribers.Keys, step)
  {
    match step
    case DeliverStep(c) =>
      var stream := s.server.subscribers[c];
      assert s.server.subscribers[c := stream[1..]].Keys == s.server.subscribers.Keys;
    case ConnectStep(c) => assert Apply(s, step).server.subscribers.Keys == s.server.subscribers.Keys + {c};
    case DisconnectStep(c) => assert Apply(s, step).server.subscribers.Keys == s.server.subscribers.Keys - {c};
    case FinishStep(outcome) => EndingKeepsConnections(s.server, outcome);
    case EnqueueStep(key, id) => PuttingKeepsConnections(s.server, key, id);
    case StartStep =>
    case ReportStep(_) =>
    case CallBackStep(_) =>
    case ThreadSetStep(_, _) =>
    case ThreadScheduleStep(_) =>
    case WaitStep(_, _) =>
    case WakeStep(_) =>
  }

  /** Exactly the connected browsers have a queue, so none is kept for one that left. */
  lemma {:induction false} QueuesAreTheConnected(s: System, run: seq<Step>)
    requires Legal(s, run)
    ensures Run(s, run).server.subscribers.Keys == Connected(s.server.subscribers.Keys, run)
    decreases |run|
  {
    if run != [] {
      StepConnects(s, run[0]);
      QueuesAreTheConnected(Apply(s, run[0]), run[1..]);
    }
  }
}
