/** The browser's side of the job stream: how `use-jobs-stream.ts` folds events into its cached list. */
module JobsStream {
  import opened JobModels

  /** Position of the first entry with the id, or the length when there is none (`findIndex`). */
  function IndexOf(list: seq<JobSchema>, id: JobId): (k: nat)
    ensures k <= |list|
    ensures k < |list| ==> list[k].id == id
    ensures forall i :: 0 <= i < k ==> list[i].id != id
  {
    if list == [] then 0
    else if list[0].id == id then 0
    else 1 + IndexOf(list[1..], id)
  }

  function Upsert(list: seq<JobSchema>, job: JobSchema): seq<JobSchema> {
    var k := IndexOf(list, job.id);
    if k < |list| then list[k := job] else [job] + list
  }

  /** The listeners: a snapshot replaces the list, every other event upserts one job. */
  function Receive(list: seq<JobSchema>, e: JobEvent): seq<JobSchema> {
    match e
    case QueueSnapshot(jobs) => jobs
    case JobChange(_, schema) => Upsert(list, schema)
  }

  function Fold(list: seq<JobSchema>, events: seq<JobEvent>): seq<JobSchema>
    decreases |events|
  {
    if events == [] then list else Fold(Receive(list, events[0]), events[1..])
  }

  predicate UniqueIds(list: seq<JobSchema>) {
    forall i, j :: 0 <= i < j < |list| ==> list[i].id != list[j].id
  }

  function Ids(list: seq<JobSchema>): set<JobId> {
    set e | e in list :: e.id
  }

  lemma {:induction false} FoldAppend(list: seq<JobSchema>, events: seq<JobEvent>, e: JobEvent)
    ensures Fold(list, events + [e]) == Receive(Fold(list, events), e)
    decreases |events|
  {
    if events == [] {
      assert events + [e] == [e];
      assert Fold(list, [e]) == Fold(Receive(list, e), [e][1..]);
    } else {
      assert (events + [e])[0] == events[0];
      assert (events + [e])[1..] == events[1..] + [e];
      FoldAppend(Receive(list, events[0]), events[1..], e);
    }
  }

  /** On a list without duplicate ids an upsert is a map update: one entry for the job, all others kept. */
  lemma UpsertIsUpdate(list: seq<JobSchema>, job: JobSchema)
    requires UniqueIds(list)
    ensures UniqueIds(Upsert(list, job))
    ensures forall e :: e in Upsert(list, job) <==> e == job || (e in list && e.id != job.id)
    ensures Ids(Upsert(list, job)) == Ids(list) + {job.id}
  {
    var k := IndexOf(list, job.id);
    var after := Upsert(list, job);
    forall e ensures e in after <==> e == job || (e in list && e.id != job.id) {
      if k < |list| {
        assert after[k] == job;
        if e in list && e.id != job.id {
          var i :| 0 <= i < |list| && list[i] == e;
          assert after[i] == e;
        }
      } else {
        assert after == [job] + list;
      }
    }
    forall id ensures id in Ids(after) <==> id in Ids(list) + {job.id} {
      if id in Ids(list) && id != job.id {
        var e :| e in list && e.id == id;
        assert e in after;
      }
      assert job in after;
    }
  }
}
