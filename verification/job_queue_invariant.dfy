/** What every section of the queue keeps, for the server's own fields. */
module JobQueueInvariant {
  import opened Wrappers
  import opened JobModels
  import opened JobQueueSpec

  /** How many finished jobs have fallen out of the bounded history. */
  function Evicted(s: Server): nat {
    if s.done > MAX_HISTORY then s.done - MAX_HISTORY else 0
  }

  /** How many jobs the worker has taken from the queue. */
  function Started(s: Server): nat {
    if s.current.Some? then s.done + 1 else s.done
  }

  /** Tickets are positions in the put order; every job object has one. */
  ghost predicate TicketsOk(s: Server) {
    && Ticketed(s)
    && (forall i :: 0 <= i < |s.puts| ==> s.puts[i] in s.ticket && s.ticket[s.puts[i]] == i)
    && (forall id :: id in s.ticket ==> s.ticket[id] < |s.puts| && s.puts[s.ticket[id]] == id)
  }

  /** The put order splits into ended jobs, the running one and the queue; `_jobs` is all of it but the evicted. */
  ghost predicate LogOk(s: Server) {
    && Started(s) <= |s.puts|
    && (s.current.Some? ==> s.current.value == s.puts[s.done])
    && |s.queue| == |s.puts| - Started(s)
    && (forall i :: 0 <= i < |s.queue| ==> s.queue[i] == s.puts[Started(s) + i])
    && |s.jobs| == |s.puts| - Evicted(s)
    && (forall i :: 0 <= i < |s.jobs| ==> s.jobs[i] == s.puts[Evicted(s) + i])
  }

  /** `_history` is the most recently ended jobs, newest first. */
  ghost predicate HistoryOk(s: Server) {
    && s.done <= |s.puts|
    && |s.history| == s.done - Evicted(s)
    && forall i :: 0 <= i < |s.history| ==> s.history[i] == s.puts[s.done - 1 - i]
  }

  /** A job's status is its place in the put order. */
  ghost predicate StatusOk(s: Server) {
    forall id :: id in s.store && id in s.ticket ==>
      var status := s.store[id].status;
      if s.ticket[id] < s.done then Finished(status)
      else if s.ticket[id] < Started(s) then status == Running
      else status == Queued
  }

  /** A completion event exists for every job of `_jobs` and is set once the job has ended. */
  ghost predicate EventsOk(s: Server) {
    && (forall id :: id in s.completionEvents <==> id in s.ticket && s.ticket[id] >= Evicted(s))
    && (forall id :: id in s.signalled <==> id in s.ticket && s.ticket[id] < s.done)
  }

  /** `_active_folders` is a bijection between keys and unfinished jobs. */
  ghost predicate ActiveOk(s: Server) {
    && (forall key :: key in s.active ==>
          var id := s.active[key]; id in s.store && id in s.ticket && s.ticket[id] >= s.done && s.store[id].key == key)
    && (forall id :: id in s.store && id in s.ticket && s.ticket[id] >= s.done ==>
          s.store[id].key in s.active && s.active[s.store[id].key] == id)
  }

  /** Threads and scheduled broadcasts refer to existing jobs. */
  ghost predicate PendingOk(s: Server) {
    forall id :: Pending(s, id) ==> id in s.store
  }

  ghost predicate Inv(s: Server) {
    && TicketsOk(s) && LogOk(s) && HistoryOk(s) && StatusOk(s) && EventsOk(s) && ActiveOk(s)
    && PendingOk(s)
  }

  /** Nothing that later sections do takes a job object, its key or its ticket away; new tickets are later ones. */
  ghost predicate Continues(s: Server, t: Server) {
    && |s.puts| <= |t.puts| && s.done <= t.done
    && forall id :: ContinuesFor(s, t, id)
  }

  ghost predicate ContinuesFor(s: Server, t: Server, id: JobId) {
    && (id in s.store ==> id in t.store && t.store[id].key == s.store[id].key)
    && (id in s.ticket ==> id in t.ticket && t.ticket[id] == s.ticket[id])
    && (id in t.ticket && id !in s.ticket ==> t.ticket[id] >= |s.puts|)
  }

  predicate Ticketed(s: Server) { s.ticket.Keys == s.store.Keys }

  lemma ContinuesTrans(s: Server, t: Server, u: Server)
    requires Continues(s, t) && Continues(t, u)
    ensures Continues(s, u)
  {
    forall id ensures ContinuesFor(s, u, id) { assert ContinuesFor(s, t, id) && ContinuesFor(t, u, id); }
  }

  lemma ContinuesByOne(s: Server, id: JobId, t: Server)
    requires id in s.store && id in t.store && t.store == s.store[id := t.store[id]]
    requires t.store[id].key == s.store[id].key
    requires t.puts == s.puts && t.ticket == s.ticket && s.done <= t.done && Ticketed(s)
    ensures Continues(s, t) && Ticketed(t)
  {
  }

  lemma ContinuesByPut(s: Server, key: JobKey, id: JobId)
    requires id !in s.store && Ticketed(s)
    ensures Continues(s, Put(s, key, id)) && Ticketed(Put(s, key, id))
  {
  }

  /** `_jobs` by ticket, and without duplicates. */
  lemma JobsByTicket(s: Server)
    requires TicketsOk(s) && LogOk(s)
    ensures forall id :: id in s.jobs <==> id in s.ticket && s.ticket[id] >= Evicted(s)
    ensures NoDuplicates(s.jobs)
  {
    var e := Evicted(s);
    forall id ensures id in s.jobs <==> id in s.ticket && s.ticket[id] >= e {
      if id in s.jobs {
        var i :| 0 <= i < |s.jobs| && s.jobs[i] == id;
        assert s.puts[e + i] == id;
      }
      if id in s.ticket && s.ticket[id] >= e {
        assert s.jobs[s.ticket[id] - e] == id;
      }
    }
    forall i, j | 0 <= i < j < |s.jobs| ensures s.jobs[i] != s.jobs[j] {
      assert s.ticket[s.puts[e + i]] == e + i && s.ticket[s.puts[e + j]] == e + j;
    }
  }

  lemma EmptyServerInv()
    ensures Inv(EMPTY_SERVER)
  {
  }

  lemma PutTickets(s: Server, key: JobKey, id: JobId)
    requires TicketsOk(s) && id !in s.store
    ensures TicketsOk(Put(s, key, id))
  {
  }

  lemma PutLog(s: Server, key: JobKey, id: JobId)
    requires LogOk(s)
    ensures LogOk(Put(s, key, id))
  {
  }

  lemma PutHistory(s: Server, key: JobKey, id: JobId)
    requires HistoryOk(s)
    ensures HistoryOk(Put(s, key, id))
  {
  }

  lemma PutStatus(s: Server, key: JobKey, id: JobId)
    requires StatusOk(s) && s.done <= |s.puts| && Started(s) <= |s.puts|
    ensures StatusOk(Put(s, key, id))
  {
  }

  lemma PutEvents(s: Server, key: JobKey, id: JobId)
    requires EventsOk(s) && s.done <= |s.puts| && id !in s.ticket
    ensures EventsOk(Put(s, key, id))
  {
  }

  lemma PutActive(s: Server, key: JobKey, id: JobId)
    requires ActiveOk(s) && s.done <= |s.puts| && id !in s.store && key !in s.active
    ensures ActiveOk(Put(s, key, id))
  {
  }

  lemma PutInv(s: Server, key: JobKey, id: JobId)
    requires Inv(s) && id !in s.store && key !in s.active
    ensures Inv(Put(s, key, id))
  {
    PutTickets(s, key, id);
    PutLog(s, key, id);
    PutHistory(s, key, id);
    PutStatus(s, key, id);
    PutEvents(s, key, id);
    PutActive(s, key, id);
  }

  lemma ActiveIsStored(s: Server, key: JobKey)
    requires TicketsOk(s) && LogOk(s) && ActiveOk(s) && key in s.active
    ensures s.active[key] in s.jobs
  {
    JobsByTicket(s);
  }

  lemma EnqueueInv(s: Server, key: JobKey, id: JobId)
    requires Inv(s) && id !in s.store
    ensures Inv(Enqueue(s, key, id).0)
    ensures key in s.active ==> Enqueue(s, key, id) == (s, s.active[key])
    ensures key !in s.active ==> Enqueue(s, key, id).0.puts == s.puts + [id] && Enqueue(s, key, id).1 == id
  {
    if key in s.active {
      ActiveIsStored(s, key);
    } else {
      PutInv(s, key, id);
      SubscribersFree(Put(s, key, id), Enqueue(s, key, id).0);
    }
  }

  /** `r` is `s` but for one job object (whose key stays), the pending broadcasts and the subscriber queues. */
  ghost predicate OnlyJob(s: Server, id: JobId, r: Server) {
    && r == s.(store := r.store, reporting := r.reporting, callbacks := r.callbacks, subscribers := r.subscribers)
    && id in s.store && id in r.store
    && r.store == s.store[id := r.store[id]] && r.store[id].key == s.store[id].key
  }

  lemma OnlyJobLog(s: Server, id: JobId, r: Server)
    requires LogOk(s) && HistoryOk(s) && OnlyJob(s, id, r)
    ensures LogOk(r) && HistoryOk(r)
  {
  }

  lemma OnlyJobTickets(s: Server, id: JobId, r: Server)
    requires TicketsOk(s) && EventsOk(s) && OnlyJob(s, id, r)
    ensures TicketsOk(r) && EventsOk(r)
  {
  }

  lemma OnlyJobActive(s: Server, id: JobId, r: Server)
    requires ActiveOk(s) && OnlyJob(s, id, r)
    ensures ActiveOk(r)
  {
  }

  lemma OnlyJobStatus(s: Server, id: JobId, r: Server)
    requires StatusOk(s) && OnlyJob(s, id, r) && r.store[id].status == s.store[id].status
    ensures StatusOk(r)
  {
  }

  lemma StoreChange(s: Server, id: JobId, r: Server)
    requires Inv(s) && OnlyJob(s, id, r)
    requires r.store[id].status == s.store[id].status
    requires PendingOk(r)
    ensures Inv(r)
  {
    OnlyJobLog(s, id, r);
    OnlyJobTickets(s, id, r);
    OnlyJobActive(s, id, r);
    OnlyJobStatus(s, id, r);
  }

  lemma StartLog(s: Server)
    requires LogOk(s) && HistoryOk(s) && s.current.None? && CanStart(s)
    ensures LogOk(Start(s)) && HistoryOk(Start(s))
  {
    assert s.queue[0] == s.puts[s.done];
  }

  lemma StartStatus(s: Server)
    requires TicketsOk(s) && StatusOk(s) && s.current.None? && CanStart(s) && s.ticket[s.queue[0]] == s.done
    ensures TicketsOk(Start(s)) && StatusOk(Start(s))
  {
  }

  lemma StartActive(s: Server)
    requires TicketsOk(s) && EventsOk(s) && ActiveOk(s) && CanStart(s)
    ensures EventsOk(Start(s)) && ActiveOk(Start(s))
  {
  }

  lemma StartInv(s: Server)
    requires Inv(s) && s.current.None? && CanStart(s)
    ensures Inv(Start(s)) && Start(s).puts == s.puts
  {
    assert s.queue[0] == s.puts[s.done];
    StartLog(s);
    StartStatus(s);
    StartActive(s);
  }

  lemma {:induction false} WithoutNothing(ids: seq<JobId>, removed: seq<JobId>)
    requires forall i :: 0 <= i < |ids| ==> ids[i] !in removed
    ensures Without(ids, removed) == ids
  {
    if ids == [] {
    } else {
      WithoutNothing(ids[1..], removed);
      assert Without(ids, removed) == [ids[0]] + Without(ids[1..], removed);
    }
  }

  /** Dropping the first key of a list without duplicates. */
  lemma WithoutFirst(ids: seq<JobId>)
    requires ids != [] && NoDuplicates(ids)
    ensures Without(ids, [ids[0]]) == ids[1..]
  {
    assert forall i :: 0 <= i < |ids[1..]| ==> ids[1..][i] == ids[i + 1];
    WithoutNothing(ids[1..], [ids[0]]);
  }

  /** What the `finally` block amounts to: the history and `_jobs` move on by one, dropping the oldest when full. */
  ghost predicate Released(s: Server, r: Server)
    requires s.current.Some? && s.current.value in s.store
  {
    var id := s.current.value;
    && r.puts == s.puts && r.ticket == s.ticket && r.store == s.store && r.queue == s.queue
    && r.reporting == s.reporting && r.callbacks == s.callbacks
    && r.current == None && r.done == s.done + 1
    && r.active == (var key := s.store[id].key;
                    if key in s.active && s.active[key] == id then s.active - {key} else s.active)
    && r.signalled == s.signalled + {id}
    && if s.done < MAX_HISTORY then
         r.jobs == s.jobs && r.history == [id] + s.history && r.completionEvents == s.completionEvents
       else
         && s.jobs != [] && |s.history| == MAX_HISTORY
         && r.jobs == s.jobs[1..] && r.history == [id] + s.history[..MAX_HISTORY - 1]
         && r.completionEvents == s.completionEvents - {s.jobs[0]}
  }

  lemma PushWithRoom(s: Server)
    requires CanReport(s) && |s.history| < MAX_HISTORY
    ensures Push(s) == s.(history := [s.current.value] + s.history)
  {
    WithoutNothing(s.jobs, []);
    assert s.completionEvents - (set r: JobId | r in []) == s.completionEvents;
  }

  lemma PushWhenFull(s: Server)
    requires CanReport(s) && s.jobs != [] && NoDuplicates(s.jobs)
    requires |s.history| == MAX_HISTORY && s.history[MAX_HISTORY - 1] == s.jobs[0]
    ensures Push(s) == s.(history := [s.current.value] + s.history[..MAX_HISTORY - 1], jobs := s.jobs[1..],
                          completionEvents := s.completionEvents - {s.jobs[0]})
  {
    var grown := [s.current.value] + s.history;
    assert grown[MAX_HISTORY..] == [s.jobs[0]];
    assert grown[..MAX_HISTORY] == [s.current.value] + s.history[..MAX_HISTORY - 1];
    assert (set r | r in [s.jobs[0]]) == {s.jobs[0]};
    WithoutFirst(s.jobs);
  }

  lemma ReleaseIsReleased(s: Server)
    requires CanReport(s) && s.current.value in s.completionEvents
    requires s.jobs != [] && NoDuplicates(s.jobs)
    requires s.done < MAX_HISTORY ==> |s.history| < MAX_HISTORY
    requires s.done >= MAX_HISTORY ==> |s.history| == MAX_HISTORY && s.history[MAX_HISTORY - 1] == s.jobs[0]
    requires s.done >= MAX_HISTORY ==> s.current.value != s.jobs[0]
    ensures Released(s, Release(s))
  {
    if s.done < MAX_HISTORY { PushWithRoom(ReleaseKey(s)); } else { PushWhenFull(ReleaseKey(s)); }
  }

  lemma ReleaseOnce(s: Server)
    requires TicketsOk(s) && LogOk(s) && HistoryOk(s) && CanReport(s) && s.current.value in s.completionEvents
    ensures Released(s, Release(s))
  {
    assert s.jobs[0] == s.puts[Evicted(s)];
    assert s.ticket[s.puts[s.done]] == s.done && s.ticket[s.puts[Evicted(s)]] == Evicted(s);
    JobsByTicket(s);
    ReleaseIsReleased(s);
  }

  lemma ReleasedLog(s: Server, r: Server)
    requires LogOk(s) && HistoryOk(s) && CanReport(s) && Released(s, r)
    ensures LogOk(r) && HistoryOk(r)
  {
    forall i | 0 <= i < |r.history| ensures r.history[i] == s.puts[r.done - 1 - i] {
      if i > 0 { assert r.history[i] == s.history[i - 1]; }
    }
    forall i | 0 <= i < |r.jobs| ensures r.jobs[i] == s.puts[Evicted(r) + i] {
      if s.done >= MAX_HISTORY { assert r.jobs[i] == s.jobs[i + 1]; }
    }
  }

  /** Eviction drops only completion events that are set, and the ended job's own event is there to be set. */
  lemma ReleasedEvents(s: Server, r: Server)
    requires TicketsOk(s) && LogOk(s) && EventsOk(s) && CanReport(s) && Released(s, r)
    ensures EventsOk(r)
    ensures forall id :: id in s.completionEvents && id !in r.completionEvents ==> id in s.signalled
  {
    assert s.ticket[s.current.value] == s.done;
    if s.done >= MAX_HISTORY { assert s.jobs[0] == s.puts[Evicted(s)]; }
  }

  lemma ReleasedActive(s: Server, r: Server)
    requires TicketsOk(s) && LogOk(s) && ActiveOk(s) && CanReport(s) && Released(s, r)
    ensures ActiveOk(r)
  {
    assert s.ticket[s.current.value] == s.done;
  }

  lemma ReleasedStatus(s: Server, e: Server, r: Server)
    requires TicketsOk(s) && StatusOk(s) && CanReport(s) && OnlyJob(s, s.current.value, e)
    requires s.ticket[s.current.value] == s.done
    requires Finished(e.store[s.current.value].status) && Released(e, r)
    ensures TicketsOk(r) && StatusOk(r)
  {
  }

  lemma FinishInv(s: Server, outcome: Outcome)
    requires Inv(s) && CanReport(s)
    ensures Inv(Finish(s, outcome)) && Finish(s, outcome).puts == s.puts
  {
    FinishedInv(s, Ended(s, outcome));
  }

  lemma FinishedInv(s: Server, e: Server)
    requires Inv(s) && CanReport(s) && OnlyJob(s, s.current.value, e)
    requires e.reporting == s.reporting && e.callbacks == s.callbacks
    requires Finished(e.store[s.current.value].status)
    ensures Inv(Release(e)) && Release(e).puts == s.puts
  {
    OnlyJobLog(s, s.current.value, e);
    OnlyJobTickets(s, s.current.value, e);
    OnlyJobActive(s, s.current.value, e);
    assert s.ticket[s.current.value] == s.done;
    var r := Release(e);
    ReleaseOnce(e);
    ReleasedLog(e, r);
    ReleasedEvents(e, r);
    ReleasedActive(e, r);
    ReleasedStatus(s, e, r);
  }

  lemma {:induction false} UnfinishedSplit(store: map<JobId, Job>, a: seq<JobId>, b: seq<JobId>)
    ensures Unfinished(store, a + b) == Unfinished(store, a) + Unfinished(store, b)
  {
    if a == [] {
      assert a + b == b;
    } else {
      assert (a + b)[1..] == a[1..] + b;
      UnfinishedSplit(store, a[1..], b);
    }
  }

  lemma {:induction false} UnfinishedAll(store: map<JobId, Job>, ids: seq<JobId>, done: bool)
    requires forall i :: 0 <= i < |ids| ==> ids[i] in store && Finished(store[ids[i]].status) == done
    ensures Unfinished(store, ids) == if done then [] else ids
  {
    if ids == [] {
    } else {
      assert ids == [ids[0]] + ids[1..];
      UnfinishedAll(store, ids[1..], done);
    }
  }

  /** Where the worker stands: the head of the queue is queued and the current job is running. */
  ghost predicate Turn(s: Server) {
    && (s.current.None? && CanStart(s) ==> s.store[s.queue[0]].status == Queued)
    && (CanReport(s) ==> s.store[s.current.value].status == Running)
  }

  lemma TurnHolds(s: Server)
    requires TicketsOk(s) && LogOk(s) && StatusOk(s)
    ensures Turn(s)
  {
    if s.queue != [] { assert s.queue[0] == s.puts[Started(s)]; }
  }

  lemma StatusByPosition(s: Server, i: nat)
    requires TicketsOk(s) && StatusOk(s) && i < |s.puts|
    ensures s.puts[i] in s.store && (Finished(s.store[s.puts[i]].status) <==> i < s.done)
  {
  }

  lemma UnfinishedArePending(s: Server)
    requires TicketsOk(s) && LogOk(s) && StatusOk(s)
    ensures Unfinished(s.store, s.jobs) == s.puts[s.done..]
  {
    var kept, pending := s.puts[Evicted(s)..s.done], s.puts[s.done..];
    JobsAreKeptThenPending(s);
    forall i | 0 <= i < |kept| ensures kept[i] in s.store && Finished(s.store[kept[i]].status) {
      StatusByPosition(s, Evicted(s) + i);
    }
    forall i | 0 <= i < |pending| ensures pending[i] in s.store && !Finished(s.store[pending[i]].status) {
      StatusByPosition(s, s.done + i);
    }
    UnfinishedSplit(s.store, kept, pending);
    UnfinishedAll(s.store, kept, true);
    UnfinishedAll(s.store, pending, false);
  }

  lemma JobsAreKeptThenPending(s: Server)
    requires LogOk(s)
    ensures s.jobs == s.puts[Evicted(s)..s.done] + s.puts[s.done..]
  {
  }

  /** `list_jobs()` is the running job, the queued jobs in queue order, then the history: each key of `_jobs` once. */
  lemma ListJobsContents(s: Server)
    requires Inv(s)
    ensures ListJobs(s) == s.puts[s.done..] + s.history
    ensures forall id :: id in ListJobs(s) <==> id in s.ticket && s.ticket[id] >= Evicted(s)
    ensures NoDuplicates(ListJobs(s))
  {
    UnfinishedArePending(s);
    ListedByTicket(s, s.puts[s.done..] + s.history);
  }

  /** The ticket of position `i` of the list: the pending jobs in put order, then the ended ones backwards. */
  function TicketAt(s: Server, i: nat): int {
    if i < |s.puts| - s.done then s.done + i else |s.puts| - 1 - i
  }

  lemma ListedTicket(s: Server, list: seq<JobId>, i: nat)
    requires TicketsOk(s) && HistoryOk(s) && list == s.puts[s.done..] + s.history && i < |list|
    ensures list[i] in s.ticket && s.ticket[list[i]] == TicketAt(s, i) >= Evicted(s)
  {
    var n := |s.puts| - s.done;
    assert list[i] == if i < n then s.puts[s.done + i] else s.history[i - n];
  }

  lemma TicketListed(s: Server, list: seq<JobId>, id: JobId)
    requires TicketsOk(s) && HistoryOk(s) && list == s.puts[s.done..] + s.history
    requires id in s.ticket && s.ticket[id] >= Evicted(s)
    ensures id in list
  {
    var t, n := s.ticket[id], |s.puts| - s.done;
    assert id == if t >= s.done then list[t - s.done] else list[n + s.done - 1 - t];
  }

  lemma ListedByTicket(s: Server, list: seq<JobId>)
    requires TicketsOk(s) && HistoryOk(s) && list == s.puts[s.done..] + s.history
    ensures forall id :: id in list <==> id in s.ticket && s.ticket[id] >= Evicted(s)
    ensures NoDuplicates(list)
  {
    forall i | 0 <= i < |list|
      ensures list[i] in s.ticket && s.ticket[list[i]] == TicketAt(s, i) >= Evicted(s)
    {
      ListedTicket(s, list, i);
    }
    forall id | id in s.ticket && s.ticket[id] >= Evicted(s) ensures id in list { TicketListed(s, list, id); }
  }

  lemma SubscribersFree(s: Server, r: Server)
    requires r == s.(subscribers := r.subscribers)
    ensures TicketsOk(s) && EventsOk(s) && ActiveOk(s) ==> TicketsOk(r) && EventsOk(r) && ActiveOk(r)
    ensures LogOk(s) && HistoryOk(s) ==> LogOk(r) && HistoryOk(r)
    ensures StatusOk(s) && PendingOk(s) ==> StatusOk(r) && PendingOk(r)
  {
  }

  lemma SubscribeInv(s: Server, c: ClientId)
    requires Inv(s) && CanSubscribe(s)
    ensures Inv(Subscribe(s, c))
  {
    SubscribersFree(s, Subscribe(s, c));
  }
}
