/** The recording scan cache of `scanner.py` as a step system: files are written while any number of scans, each with
    one worker per folder, look at them. */
module ScanCache {
  import opened Wrappers

  type Folder(==,!new)
  type ScanId(==,!new)
  datatype Stamp = Stamp(mtimeNs: int, size: nat)
  /** What a file holds; a parse result is a function of the contents of the source files. */
  type Content(==,!new)

  /** `_SOURCE_FILENAMES`: metadata.yaml, the recording meta, the validation report and the upload state. */
  const FILES: nat := 4

  datatype Source = Source(folder: Folder, file: nat)

  /** One state of a source file; an absent file has neither stamp nor content. */
  datatype Version = Version(stamp: Option<Stamp>, content: Option<Content>)

  /** Every version each file has had, the last one current. */
  type Disk = map<Source, seq<Version>>

  /** A cache entry. `seen` and `read` record which versions the fingerprint and the bundle came from; nothing decides
      on them. */
  datatype Entry = Entry(fingerprint: seq<Option<Stamp>>, bundle: seq<Option<Content>>, seen: seq<nat>, read: seq<nat>)

  type Cache = map<Folder, Entry>

  /** A folder's worker: taking the stats of the source files, reading them one after the other, or done. */
  datatype Worker =
    | Statting(stats: seq<Option<nat>>)
    | Parsing(seen: seq<nat>, read: seq<nat>)
    | Finished(seen: seq<nat>, result: Option<Entry>, reused: bool)

  datatype Scan = Scan(snapshot: Cache, workers: map<Folder, Worker>)

  datatype State = State(disk: Disk, cache: Cache, scans: map<ScanId, Scan>)

  datatype Step =
    | Write(source: Source, version: Version)
    | Begin(scan: ScanId, folders: set<Folder>)
    | Stat(scan: ScanId, folder: Folder, file: nat)
    | Decide(scan: ScanId, folder: Folder, isRecording: bool)
    | Read(scan: ScanId, folder: Folder)
    | Publish(scan: ScanId)

  // ---- Files ----

  function HistoryOf(disk: Disk, source: Source): (h: seq<Version>)
    ensures |h| > 0
  {
    if source in disk && disk[source] != [] then disk[source] else [Version(None, None)]
  }

  function Current(disk: Disk, folder: Folder, file: nat): nat { |HistoryOf(disk, Source(folder, file))| - 1 }

  ghost predicate Exists(disk: Disk, folder: Folder, versions: seq<nat>) {
    |versions| == FILES && forall f :: 0 <= f < FILES ==> versions[f] <= Current(disk, folder, f)
  }

  function StampsAt(disk: Disk, folder: Folder, versions: seq<nat>): (r: seq<Option<Stamp>>)
    requires Exists(disk, folder, versions)
    ensures |r| == FILES && forall f :: 0 <= f < FILES ==> r[f] == HistoryOf(disk, Source(folder, f))[versions[f]].stamp
  {
    seq(FILES, f requires 0 <= f < FILES => HistoryOf(disk, Source(folder, f))[versions[f]].stamp)
  }

  function ContentsAt(disk: Disk, folder: Folder, versions: seq<nat>): (r: seq<Option<Content>>)
    requires Exists(disk, folder, versions)
    ensures |r| == FILES && forall f :: 0 <= f < FILES ==>
            r[f] == HistoryOf(disk, Source(folder, f))[versions[f]].content
  {
    seq(FILES, f requires 0 <= f < FILES => HistoryOf(disk, Source(folder, f))[versions[f]].content)
  }

  // ---- Steps ----

  /** The worker a step is about. */
  ghost predicate Works(s: State, scan: ScanId, folder: Folder) { scan in s.scans && folder in s.scans[scan].workers }

  ghost function WorkerOf(s: State, scan: ScanId, folder: Folder): Worker
    requires Works(s, scan, folder)
  {
    s.scans[scan].workers[folder]
  }

  ghost function WithWorker(s: State, scan: ScanId, folder: Folder, w: Worker): State
    requires Works(s, scan, folder)
  {
    s.(scans := s.scans[scan := s.scans[scan].(workers := s.scans[scan].workers[folder := w])])
  }

  ghost predicate AllStatted(stats: seq<Option<nat>>) {
    |stats| == FILES && forall f :: 0 <= f < FILES ==> stats[f].Some?
  }

  function SeenOf(stats: seq<Option<nat>>): (r: seq<nat>)
    ensures |r| == |stats| && forall f :: 0 <= f < |r| && stats[f].Some? ==> r[f] == stats[f].value
  {
    seq(|stats|, f requires 0 <= f < |stats| => if stats[f].Some? then stats[f].value else 0)
  }

  /** Whether a step can happen. */
  ghost predicate Enabled(s: State, step: Step) {
    match step
    case Write(source, version) => source.file < FILES
    case Begin(scan, folders) => scan !in s.scans
    case Stat(scan, folder, file) =>
      && Works(s, scan, folder) && WorkerOf(s, scan, folder).Statting?
      && file < |WorkerOf(s, scan, folder).stats| == FILES && WorkerOf(s, scan, folder).stats[file].None?
    case Decide(scan, folder, isRecording) =>
      && Works(s, scan, folder) && WorkerOf(s, scan, folder).Statting?
      && AllStatted(WorkerOf(s, scan, folder).stats)
      && Exists(s.disk, folder, SeenOf(WorkerOf(s, scan, folder).stats))
    case Read(scan, folder) =>
      Works(s, scan, folder) && WorkerOf(s, scan, folder).Parsing? && |WorkerOf(s, scan, folder).read| < FILES
    case Publish(scan) => scan in s.scans && forall w :: w in s.scans[scan].workers.Values ==> w.Finished?
  }

  /** The worker's choice once every stat is in: nothing for a folder that is no recording, the cached bundle when the
      fingerprint matches the snapshot's, a parse otherwise. */
  ghost function Decision(disk: Disk, folder: Folder, snapshot: Cache, seen: seq<nat>, isRecording: bool): Worker
    requires Exists(disk, folder, seen)
  {
    if !isRecording then Finished(seen, None, false)
    else if folder in snapshot && snapshot[folder].fingerprint == StampsAt(disk, folder, seen)
    then Finished(seen, Some(snapshot[folder]), true)
    else Parsing(seen, [])
  }

  /** The next file is read; after the last one the entry is complete. */
  ghost function AfterRead(disk: Disk, folder: Folder, seen: seq<nat>, read: seq<nat>): Worker
    requires |read| < FILES
  {
    var all := read + [Current(disk, folder, |read|)];
    if |all| < FILES || !Exists(disk, folder, seen) || !Exists(disk, folder, all) then Parsing(seen, all)
    else Finished(seen, Some(Entry(StampsAt(disk, folder, seen), ContentsAt(disk, folder, all), seen, all)), false)
  }

  /** What a finished scan publishes: the entries of its recordings. */
  function Results(workers: map<Folder, Worker>): Cache {
    map folder | folder in workers && workers[folder].Finished? && workers[folder].result.Some? ::
      workers[folder].result.value
  }

  function NewWorker(): (w: Worker)
    ensures w.Statting? && |w.stats| == FILES && forall f :: 0 <= f < FILES ==> w.stats[f].None?
  {
    Statting(seq(FILES, _ => None))
  }

  function NewWorkers(folders: set<Folder>): (r: map<Folder, Worker>)
    ensures r.Keys == folders && forall folder :: folder in r ==> r[folder] == NewWorker()
  {
    map folder | folder in folders :: NewWorker()
  }

  ghost function Apply(s: State, step: Step): State
    requires Enabled(s, step)
  {
    match step
    case Write(source, version) => s.(disk := s.disk[source := HistoryOf(s.disk, source) + [version]])
    case Begin(scan, folders) =>
      s.(scans := s.scans[scan := Scan(s.cache, NewWorkers(folders))])
    case Stat(scan, folder, file) =>
      WithWorker(s, scan, folder,
                 Statting(WorkerOf(s, scan, folder).stats[file := Some(Current(s.disk, folder, file))]))
    case Decide(scan, folder, isRecording) =>
      WithWorker(s, scan, folder,
                 Decision(s.disk, folder, s.scans[scan].snapshot, SeenOf(WorkerOf(s, scan, folder).stats), isRecording))
    case Read(scan, folder) =>
      WithWorker(s, scan, folder,
                 AfterRead(s.disk, folder, WorkerOf(s, scan, folder).seen, WorkerOf(s, scan, folder).read))
    case Publish(scan) =>
      s.(cache := Results(s.scans[scan].workers), scans := map id | id in s.scans && id != scan :: s.scans[id])
  }

  ghost predicate Legal(s: State, steps: seq<Step>)
    decreases |steps|
  {
    steps == [] || (Enabled(s, steps[0]) && Legal(Apply(s, steps[0]), steps[1..]))
  }

  ghost function Run(s: State, steps: seq<Step>): State
    requires Legal(s, steps)
    decreases |steps|
  {
    if steps == [] then s else Run(Apply(s, steps[0]), steps[1..])
  }

  /** A fresh process: nothing cached, nothing scanning, any files on disk. */
  ghost predicate Fresh(s: State) { s.cache == map[] && s.scans == map[] }

  // ---- Invariant ----

  /** The entry's fingerprint and bundle are those of versions that exist, and no file was read before its stat. */
  ghost predicate EntryOk(disk: Disk, folder: Folder, e: Entry) {
    && Exists(disk, folder, e.seen) && Exists(disk, folder, e.read)
    && e.fingerprint == StampsAt(disk, folder, e.seen) && e.bundle == ContentsAt(disk, folder, e.read)
    && forall f :: 0 <= f < FILES ==> e.seen[f] <= e.read[f]
  }

  ghost predicate CacheOk(disk: Disk, cache: Cache) {
    forall folder :: folder in cache ==> EntryOk(disk, folder, cache[folder])
  }

  /** A snapshot entry of this folder was read no later than the stats taken since. */
  ghost predicate ReadBefore(snapshot: Cache, folder: Folder, f: nat, version: nat) {
    folder in snapshot ==> f < |snapshot[folder].read| && snapshot[folder].read[f] <= version
  }

  ghost predicate WorkerOk(disk: Disk, snapshot: Cache, folder: Folder, w: Worker) {
    match w
    case Statting(stats) =>
      && |stats| == FILES
      && forall f :: 0 <= f < FILES && stats[f].Some? ==>
           stats[f].value <= Current(disk, folder, f) && ReadBefore(snapshot, folder, f, stats[f].value)
    case Parsing(seen, read) =>
      && Exists(disk, folder, seen) && |read| < FILES
      && forall f :: 0 <= f < |read| ==> seen[f] <= read[f] <= Current(disk, folder, f)
    case Finished(seen, result, reused) =>
      && Exists(disk, folder, seen)
      && (result.Some? ==> EntryOk(disk, folder, result.value))
      && (result.Some? ==> if reused then Reuses(disk, folder, seen, result.value) else result.value.seen == seen)
  }

  /** A reused entry has the fingerprint just taken and was read before. */
  ghost predicate Reuses(disk: Disk, folder: Folder, seen: seq<nat>, e: Entry)
    requires Exists(disk, folder, seen)
  {
    && e.fingerprint == StampsAt(disk, folder, seen)
    && |e.read| == FILES && forall f :: 0 <= f < FILES ==> e.read[f] <= seen[f]
  }

  ghost predicate ScanOk(disk: Disk, scan: Scan) {
    && CacheOk(disk, scan.snapshot)
    && forall folder :: folder in scan.workers ==> WorkerOk(disk, scan.snapshot, folder, scan.workers[folder])
  }

  ghost predicate Inv(s: State) {
    && CacheOk(s.disk, s.cache)
    && forall scan :: scan in s.scans ==> ScanOk(s.disk, s.scans[scan])
  }

  // ---- Preservation ----

  /** Every version stays where it was. */
  ghost predicate Grows(a: Disk, b: Disk) {
    forall source :: HistoryOf(a, source) <= HistoryOf(b, source)
  }

  lemma WriteGrows(disk: Disk, source: Source, version: Version)
    ensures Grows(disk, disk[source := HistoryOf(disk, source) + [version]])
  {
  }

  lemma ExistsKept(a: Disk, b: Disk, folder: Folder, versions: seq<nat>)
    requires Grows(a, b) && Exists(a, folder, versions)
    ensures Exists(b, folder, versions)
    ensures StampsAt(b, folder, versions) == StampsAt(a, folder, versions)
    ensures ContentsAt(b, folder, versions) == ContentsAt(a, folder, versions)
  {
    forall f | 0 <= f < FILES
      ensures versions[f] <= Current(b, folder, f)
      ensures HistoryOf(b, Source(folder, f))[versions[f]] == HistoryOf(a, Source(folder, f))[versions[f]]
    {
      assert HistoryOf(a, Source(folder, f)) <= HistoryOf(b, Source(folder, f));
    }
  }

  lemma EntryOkKept(a: Disk, b: Disk, folder: Folder, e: Entry)
    requires Grows(a, b) && EntryOk(a, folder, e)
    ensures EntryOk(b, folder, e)
  {
    ExistsKept(a, b, folder, e.seen);
    ExistsKept(a, b, folder, e.read);
  }

  lemma CacheOkKept(a: Disk, b: Disk, cache: Cache)
    requires Grows(a, b) && CacheOk(a, cache)
    ensures CacheOk(b, cache)
  {
    forall folder | folder in cache ensures EntryOk(b, folder, cache[folder]) {
      EntryOkKept(a, b, folder, cache[folder]);
    }
  }

  lemma CurrentGrows(a: Disk, b: Disk, folder: Folder, f: nat)
    requires Grows(a, b)
    ensures Current(a, folder, f) <= Current(b, folder, f)
  {
    assert HistoryOf(a, Source(folder, f)) <= HistoryOf(b, Source(folder, f));
  }

  lemma WorkerOkKept(a: Disk, b: Disk, snapshot: Cache, folder: Folder, w: Worker)
    requires Grows(a, b) && WorkerOk(a, snapshot, folder, w)
    ensures WorkerOk(b, snapshot, folder, w)
  {
    forall f: nat | f < FILES ensures Current(a, folder, f) <= Current(b, folder, f) { CurrentGrows(a, b, folder, f); }
    match w
    case Statting(stats) =>
    case Parsing(seen, read) => ExistsKept(a, b, folder, seen);
    case Finished(seen, result, reused) =>
      ExistsKept(a, b, folder, seen);
      if result.Some? { EntryOkKept(a, b, folder, result.value); }
  }

  lemma ScanOkKept(a: Disk, b: Disk, scan: Scan)
    requires Grows(a, b) && ScanOk(a, scan)
    ensures ScanOk(b, scan)
  {
    CacheOkKept(a, b, scan.snapshot);
    forall folder | folder in scan.workers ensures WorkerOk(b, scan.snapshot, folder, scan.workers[folder]) {
      WorkerOkKept(a, b, scan.snapshot, folder, scan.workers[folder]);
    }
  }

  lemma WriteInv(s: State, source: Source, version: Version)
    requires Inv(s) && Enabled(s, Write(source, version))
    ensures Inv(Apply(s, Write(source, version)))
  {
    var t := Apply(s, Write(source, version));
    WriteGrows(s.disk, source, version);
    CacheOkKept(s.disk, t.disk, s.cache);
    forall scan | scan in t.scans ensures ScanOk(t.disk, t.scans[scan]) {
      ScanOkKept(s.disk, t.disk, s.scans[scan]);
    }
  }

  lemma WithWorkerInv(s: State, scan: ScanId, folder: Folder, w: Worker)
    requires Inv(s) && Works(s, scan, folder) && WorkerOk(s.disk, s.scans[scan].snapshot, folder, w)
    ensures Inv(WithWorker(s, scan, folder, w))
  {
    var t := WithWorker(s, scan, folder, w);
    assert ScanOk(s.disk, s.scans[scan]);
    forall id | id in t.scans ensures ScanOk(t.disk, t.scans[id]) {
      assert ScanOk(s.disk, s.scans[id]);
    }
  }

  /** A stat sees the current version, and every snapshot entry was read from versions that already existed. */
  lemma StatWorkerOk(disk: Disk, snapshot: Cache, folder: Folder, stats: seq<Option<nat>>, file: nat)
    requires CacheOk(disk, snapshot) && WorkerOk(disk, snapshot, folder, Statting(stats)) && file < FILES
    ensures WorkerOk(disk, snapshot, folder, Statting(stats[file := Some(Current(disk, folder, file))]))
  {
    if folder in snapshot { assert EntryOk(disk, folder, snapshot[folder]); }
  }

  lemma DecisionOk(disk: Disk, snapshot: Cache, folder: Folder, stats: seq<Option<nat>>, isRecording: bool)
    requires CacheOk(disk, snapshot) && WorkerOk(disk, snapshot, folder, Statting(stats)) && AllStatted(stats)
    ensures Exists(disk, folder, SeenOf(stats))
    ensures WorkerOk(disk, snapshot, folder, Decision(disk, folder, snapshot, SeenOf(stats), isRecording))
  {
    var seen := SeenOf(stats);
    if folder in snapshot { assert EntryOk(disk, folder, snapshot[folder]); }
    forall f | 0 <= f < FILES ensures seen[f] <= Current(disk, folder, f) && ReadBefore(snapshot, folder, f, seen[f]) {
      assert stats[f].Some?;
    }
  }

  lemma ReadWorkerOk(disk: Disk, snapshot: Cache, folder: Folder, seen: seq<nat>, read: seq<nat>)
    requires WorkerOk(disk, snapshot, folder, Parsing(seen, read))
    ensures WorkerOk(disk, snapshot, folder, AfterRead(disk, folder, seen, read))
    ensures AfterRead(disk, folder, seen, read).Finished? <==> |read| == FILES - 1
  {
    var all := read + [Current(disk, folder, |read|)];
    forall f | 0 <= f < |all| ensures seen[f] <= all[f] <= Current(disk, folder, f) {
      if f < |read| { assert all[f] == read[f]; }
    }
  }

  lemma BeginInv(s: State, scan: ScanId, folders: set<Folder>)
    requires Inv(s) && Enabled(s, Begin(scan, folders))
    ensures Inv(Apply(s, Begin(scan, folders)))
  {
    var t := Apply(s, Begin(scan, folders));
    forall id | id in t.scans ensures ScanOk(t.disk, t.scans[id]) {
      if id != scan { assert ScanOk(s.disk, s.scans[id]); }
    }
  }

  lemma PublishInv(s: State, scan: ScanId)
    requires Inv(s) && Enabled(s, Publish(scan))
    ensures Inv(Apply(s, Publish(scan)))
  {
    var t := Apply(s, Publish(scan));
    assert ScanOk(s.disk, s.scans[scan]);
    forall folder | folder in t.cache ensures EntryOk(t.disk, folder, t.cache[folder]) {
      assert WorkerOk(s.disk, s.scans[scan].snapshot, folder, s.scans[scan].workers[folder]);
    }
    forall id | id in t.scans ensures ScanOk(t.disk, t.scans[id]) {
      assert ScanOk(s.disk, s.scans[id]);
    }
  }

  /** Every step keeps the invariant. */
  lemma StepInv(s: State, step: Step)
    requires Inv(s) && Enabled(s, step)
    ensures Inv(Apply(s, step))
  {
    match step
    case Write(source, version) => WriteInv(s, source, version);
    case Begin(scan, folders) => BeginInv(s, scan, folders);
    case Stat(scan, folder, file) =>
      assert ScanOk(s.disk, s.scans[scan]);
      var stats := WorkerOf(s, scan, folder).stats;
      StatWorkerOk(s.disk, s.scans[scan].snapshot, folder, stats, file);
      WithWorkerInv(s, scan, folder, Statting(stats[file := Some(Current(s.disk, folder, file))]));
    case Decide(scan, folder, isRecording) =>
      assert ScanOk(s.disk, s.scans[scan]);
      var stats := WorkerOf(s, scan, folder).stats;
      DecisionOk(s.disk, s.scans[scan].snapshot, folder, stats, isRecording);
      WithWorkerInv(s, scan, folder, Decision(s.disk, folder, s.scans[scan].snapshot, SeenOf(stats), isRecording));
    case Read(scan, folder) =>
      assert ScanOk(s.disk, s.scans[scan]);
      var w := WorkerOf(s, scan, folder);
      ReadWorkerOk(s.disk, s.scans[scan].snapshot, folder, w.seen, w.read);
      WithWorkerInv(s, scan, folder, AfterRead(s.disk, folder, w.seen, w.read));
    case Publish(scan) => PublishInv(s, scan);
  }

  lemma {:induction false} RunInv(s: State, steps: seq<Step>)
    requires Inv(s) && Legal(s, steps)
    ensures Inv(Run(s, steps))
    decreases |steps|
  {
    if steps != [] {
      StepInv(s, steps[0]);
      RunInv(Apply(s, steps[0]), steps[1..]);
    }
  }
}
