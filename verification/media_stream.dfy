/** The preview converter of `mcap_converter.py`: the streaming forward-fill that writes the video, and the binary
    search over sorted stamps that fills the telemetry. */
module MediaStream {
  import opened Wrappers
  import opened Numbers
  import opened Resampling
  import opened Sorting

  /** `_find_nearest_index`. */
  function FindNearestIndex(ts: seq<int>, t: int): nat {
    MaxInt(BisectRight(ts, t, 0, |ts|) - 1, 0)
  }

  /** What forward-fill promises: the last message at or before the target, or the first message when there is none. */
  ghost predicate IsLatest(ts: seq<int>, t: int, k: nat) {
    && k < |ts|
    && (forall j :: k < j < |ts| ==> ts[j] > t)
    && (ts[k] <= t || (k == 0 && forall j :: 0 <= j < |ts| ==> ts[j] > t))
  }

  lemma LatestIsUnique(ts: seq<int>, t: int, k: nat, l: nat)
    requires IsLatest(ts, t, k) && IsLatest(ts, t, l)
    ensures k == l
  {
  }

  lemma FindNearestIsLatest(ts: seq<int>, t: int)
    requires Ascending(ts) && ts != []
    ensures IsLatest(ts, t, FindNearestIndex(ts, t))
  {
    BisectRightSplits(ts, t, 0, |ts|);
    var k := BisectRight(ts, t, 0, |ts|);
    if k > 0 {
      assert ts[k - 1] <= t;
    }
  }

  // ---- The streaming merge ----

  /** How far the stream has been consumed once every message up to the first one later than `t` is read. */
  function Consumed(ts: seq<int>, t: int, from: nat): (k: nat)
    requires from <= |ts|
    ensures from <= k <= |ts|
    ensures forall j :: from <= j < k ==> ts[j] <= t
    ensures k < |ts| ==> ts[k] > t
    decreases |ts| - from
  {
    if from < |ts| && ts[from] <= t then Consumed(ts, t, from + 1) else from
  }

  /** The message the stream shows at `t`: message 0 is always taken, later ones only while none is past the target. */
  function Streamed(ts: seq<int>, t: int): (k: nat)
    requires ts != []
    ensures k < |ts|
  {
    Consumed(ts, t, 1) - 1
  }

  /** The message iterator and the one message read ahead of the target. */
  class FrameReader<T> {
    const messages: seq<Stamped<T>>
    var next: nat
    var pending: Option<Stamped<T>>

    constructor (messages: seq<Stamped<T>>)
      ensures this.messages == messages && next == 0 && pending == None
    {
      this.messages := messages;
      next := 0;
      pending := None;
    }

    /** `next` messages were read, and the last of them is pending unless the stream has ended. */
    ghost predicate AtMessage(k: nat)
      reads this
    {
      if k < |messages| then next == k + 1 && pending == Some(messages[k])
      else k == |messages| && next == |messages| && pending == None
    }

    /** `_advance`. */
    method Advance() returns (more: bool)
      requires next <= |messages|
      modifies this
      ensures more <==> old(next) < |messages|
      ensures AtMessage(old(next))
    {
      if next < |messages| {
        pending := Some(messages[next]);
        next := next + 1;
        return true;
      }
      pending := None;
      return false;
    }
  }

  /** The loop body for one target time: read on while the pending message is due. */
  method AdvanceTo<T>(reader: FrameReader<T>, t: int, current: T, ghost ts: seq<int>, ghost k: nat) returns (data: T)
    requires ts == Times(reader.messages)
    requires 1 <= k <= |reader.messages| && reader.AtMessage(k) && current == reader.messages[k - 1].value
    modifies reader
    ensures var l := Consumed(ts, t, k);
            reader.AtMessage(l) && data == reader.messages[l - 1].value
  {
    data := current;
    ghost var read := k;
    while reader.pending.Some? && reader.pending.value.at <= t
      invariant k <= read <= |reader.messages| == |ts|
      invariant reader.AtMessage(read)
      invariant data == reader.messages[read - 1].value
      invariant Consumed(ts, t, read) == Consumed(ts, t, k)
      decreases |reader.messages| - read
    {
      assert read < |ts| && ts[read] <= t;
      data := reader.pending.value.value;
      var _ := reader.Advance();
      read := read + 1;
    }
  }

  /** One frame per target, each the streamed message. */
  ghost predicate Shows<T>(frames: seq<T>, messages: seq<Stamped<T>>, targets: seq<int>) {
    && |frames| == |targets|
    && forall i :: 0 <= i < |frames| ==>
       messages != [] && frames[i] == messages[Streamed(Times(messages), targets[i])].value
  }

  /** `_stream_generate_mp4` from the first message on: what is written to the encoder, or None when the topic has no
      message and no file is made. */
  method StreamFrames<T>(messages: seq<Stamped<T>>, targets: seq<int>) returns (written: Option<seq<T>>)
    requires Ascending(targets)
    ensures written == None <==> messages == []
    ensures written.Some? ==> Shows(written.value, messages, targets)
  {
    var reader := new FrameReader(messages);
    var any := reader.Advance();
    if !any {
      return None;
    }
    var current := reader.pending.value.value;
    var _ := reader.Advance();
    var frames := WriteFrames(reader, targets, current);
    return Some(frames);
  }

  /** How many messages were read before target `i`. */
  ghost function ReadBefore(ts: seq<int>, targets: seq<int>, i: nat): nat
    requires ts != [] && i <= |targets|
  {
    if i == 0 then 1 else Consumed(ts, targets[i - 1], 1)
  }

  lemma ReadingResumes(ts: seq<int>, targets: seq<int>, i: nat)
    requires ts != [] && i < |targets| && Ascending(targets)
    ensures ReadBefore(ts, targets, i) <= |ts|
    ensures Consumed(ts, targets[i], ReadBefore(ts, targets, i)) == ReadBefore(ts, targets, i + 1)
  {
    if i > 0 {
      ConsumedResumes(ts, targets[i - 1], targets[i], 1);
    }
  }

  lemma ShowsOneMore<T>(frames: seq<T>, messages: seq<Stamped<T>>, targets: seq<int>, i: nat, data: T)
    requires i < |targets| && messages != [] && Shows(frames, messages, targets[..i])
    requires data == messages[Streamed(Times(messages), targets[i])].value
    ensures Shows(frames + [data], messages, targets[..i + 1])
  {
  }

  method WriteFrames<T>(reader: FrameReader<T>, targets: seq<int>, first: T) returns (frames: seq<T>)
    requires Ascending(targets) && reader.messages != [] && reader.AtMessage(1) && first == reader.messages[0].value
    modifies reader
    ensures Shows(frames, reader.messages, targets)
  {
    var current := first;
    ghost var ts := Times(reader.messages);
    ghost var k := 1;
    frames := [];
    for i := 0 to |targets|
      invariant 1 <= k <= |reader.messages| && reader.AtMessage(k) && current == reader.messages[k - 1].value
      invariant k == ReadBefore(ts, targets, i)
      invariant Shows(frames, reader.messages, targets[..i])
    {
      ReadingResumes(ts, targets, i);
      current := AdvanceTo(reader, targets[i], current, ts, k);
      k := Consumed(ts, targets[i], k);
      ShowsOneMore(frames, reader.messages, targets, i, current);
      frames := frames + [current];
    }
    assert targets[..|targets|] == targets;
  }

  /** One pass suffices for non-decreasing targets: reading on from where the earlier target stopped loses nothing. */
  lemma {:induction false} ConsumedResumes(ts: seq<int>, t: int, u: int, from: nat)
    requires from <= |ts| && t <= u
    ensures Consumed(ts, u, Consumed(ts, t, from)) == Consumed(ts, u, from)
    decreases |ts| - from
  {
    if from < |ts| && ts[from] <= t {
      ConsumedResumes(ts, t, u, from + 1);
    }
  }

  /** The stream shows the latest message at every target time exactly when the messages after the first arrive in
      stamp order. */
  lemma StreamShowsTheLatest(ts: seq<int>)
    requires ts != []
    ensures (forall t :: IsLatest(ts, t, Streamed(ts, t))) <==> Ascending(ts[1..])
  {
    if Ascending(ts[1..]) {
      forall t ensures IsLatest(ts, t, Streamed(ts, t)) { OrderedStreamShowsTheLatest(ts, t); }
    } else {
      var i, j :| 0 <= i < j < |ts[1..]| && ts[1..][i] > ts[1..][j];
      LateMessageIsMissed(ts, i + 1, j + 1);
    }
  }

  lemma OrderedStreamShowsTheLatest(ts: seq<int>, t: int)
    requires ts != [] && Ascending(ts[1..])
    ensures IsLatest(ts, t, Streamed(ts, t))
  {
    var k := Consumed(ts, t, 1);
    forall j | k <= j < |ts| ensures ts[j] > t {
      assert ts[1..][k - 1] <= ts[1..][j - 1];
    }
  }

  /** At the stamp of a message that arrives after a later-stamped one, the stream still shows an earlier message. */
  lemma LateMessageIsMissed(ts: seq<int>, i: nat, j: nat)
    requires 1 <= i < j < |ts| && ts[i] > ts[j]
    ensures Streamed(ts, ts[j]) < i && !IsLatest(ts, ts[j], Streamed(ts, ts[j]))
  {
    assert Consumed(ts, ts[j], 1) <= i;
  }

  /** For messages arriving in stamp order the one-pass merge shows the very message the binary search picks. */
  lemma StreamingIsBinarySearch(ts: seq<int>, t: int)
    requires ts != [] && Ascending(ts)
    ensures Streamed(ts, t) == FindNearestIndex(ts, t)
  {
    assert Ascending(ts[1..]);
    OrderedStreamShowsTheLatest(ts, t);
    FindNearestIsLatest(ts, t);
    LatestIsUnique(ts, t, Streamed(ts, t), FindNearestIndex(ts, t));
  }

  /** In any arrival order the shown message never goes back. */
  lemma StreamNeverStepsBack(ts: seq<int>, t: int, u: int)
    requires ts != [] && t <= u
    ensures Streamed(ts, t) <= Streamed(ts, u)
  {
    ConsumedResumes(ts, t, u, 1);
  }

  // ---- Telemetry ----

  function Keys<T>(messages: seq<Stamped<T>>): (r: seq<Timed<int>>)
    ensures |r| == |messages| && forall i :: 0 <= i < |r| ==> r[i] == Timed(messages[i].at as real, i)
  {
    seq(|messages|, i requires 0 <= i < |messages| => Timed(messages[i].at as real, i))
  }

  /** `sorted(range(n), key=...)`: the message indices by stamp, equal stamps in arrival order. */
  function Order<T>(messages: seq<Stamped<T>>): seq<Timed<int>> { SortTimed(Keys(messages)) }

  lemma SameElement<T>(a: seq<T>, b: seq<T>, k: nat) returns (i: nat)
    requires multiset(a) == multiset(b) && k < |a|
    ensures i < |b| && b[i] == a[k]
  {
    assert a[k] in multiset(a);
    assert a[k] in b;
    i :| 0 <= i < |b| && b[i] == a[k];
  }

  lemma OrderIsSorted<T>(messages: seq<Stamped<T>>)
    ensures |Order(messages)| == |messages| && InTimeOrder(Order(messages))
    ensures forall k :: 0 <= k < |Order(messages)| ==>
              && 0 <= Order(messages)[k].what < |messages|
              && Order(messages)[k].at == messages[Order(messages)[k].what].at as real
  {
    SortTimedOrdered(Keys(messages));
    forall k | 0 <= k < |Order(messages)|
      ensures 0 <= Order(messages)[k].what < |messages|
      ensures Order(messages)[k].at == messages[Order(messages)[k].what].at as real
    {
      var i := SameElement(Order(messages), Keys(messages), k);
    }
  }

  /** Every message has its place in the order. */
  lemma OrderHolds<T>(messages: seq<Stamped<T>>, i: nat) returns (k: nat)
    requires i < |messages|
    ensures k < |Order(messages)| && Order(messages)[k].what == i
  {
    SortTimedOrdered(Keys(messages));
    k := SameElement(Keys(messages), Order(messages), i);
  }

  /** `_sort_topic_data`. */
  function SortTopicData<T>(messages: seq<Stamped<T>>): (r: seq<Stamped<T>>)
    ensures |r| == |messages|
    ensures Ascending(Times(r))
    ensures forall k :: 0 <= k < |r| ==> r[k] in messages
  {
    OrderIsSorted(messages);
    var order := Order(messages);
    seq(|order|, k requires 0 <= k < |order| => messages[order[k].what])
  }

  lemma SortKeepsEveryMessage<T>(messages: seq<Stamped<T>>, i: nat) returns (k: nat)
    requires i < |messages|
    ensures k < |messages| && SortTopicData(messages)[k] == messages[i]
  {
    OrderIsSorted(messages);
    k := OrderHolds(messages, i);
    assert SortTopicData(messages)[k] == messages[Order(messages)[k].what];
  }

  /** Whatever order a topic's messages arrived in, the telemetry shows a message no other at or before the target is
      later than; only when all are after the target does it show an earliest one. */
  lemma TelemetryShowsTheLatest<T>(messages: seq<Stamped<T>>, t: int)
    requires messages != []
    ensures var data := SortTopicData(messages);
            var shown := data[FindNearestIndex(Times(data), t)];
            && shown in messages
            && (forall i :: 0 <= i < |messages| && messages[i].at <= t ==> messages[i].at <= shown.at <= t)
            && (shown.at > t ==> forall i :: 0 <= i < |messages| ==> shown.at <= messages[i].at)
  {
    var data := SortTopicData(messages);
    var ts := Times(data);
    FindNearestIsLatest(ts, t);
    var k := FindNearestIndex(ts, t);
    forall i | 0 <= i < |messages|
      ensures messages[i].at <= t ==> messages[i].at <= data[k].at <= t
      ensures data[k].at > t ==> data[k].at <= messages[i].at
    {
      var j := SortKeepsEveryMessage(messages, i);
      assert ts[j] == messages[i].at;
    }
  }
}
