/** When a reused parse is right: in every interleaving of writes and overlapping scans, exactly when no file's stamp
    comes back after the file held something else. */
module ScanCacheTheorems {
  import opened Wrappers
  import opened ScanCache
  import opened ScanRuns

  /** Between two versions with the same stamp the file always held the same thing. */
  ghost predicate Steady(h: seq<Version>) {
    forall i, k, j :: 0 <= i <= k <= j < |h| && h[i].stamp == h[j].stamp ==> h[k].content == h[j].content
  }

  ghost predicate AllSteady(disk: Disk) {
    forall folder: Folder, f: nat :: f < FILES ==> Steady(HistoryOf(disk, Source(folder, f)))
  }

  /** No stamp comes back at all; absence counts as a stamp, so a deleted file does not count. */
  ghost predicate NeverRepeats(h: seq<Version>) {
    forall i, j :: 0 <= i < j < |h| ==> h[i].stamp != h[j].stamp
  }

  lemma NeverRepeatingIsSteady(h: seq<Version>)
    requires NeverRepeats(h)
    ensures Steady(h)
  {
    forall i, k, j | 0 <= i <= k <= j < |h| && h[i].stamp == h[j].stamp ensures h[k].content == h[j].content {
      assert i == j;
    }
  }

  // ---- Soundness ----

  lemma FreshInv(s: State)
    requires Fresh(s)
    ensures Inv(s)
  {
  }

  /** In every reachable state, a reused bundle is the parse of the files at the very versions whose stamps were
      read. */
  lemma ReusedBundleIsRight(s: State, steps: seq<Step>, scan: ScanId, folder: Folder)
    requires Fresh(s) && Legal(s, steps) && AllSteady(Run(s, steps).disk)
    requires Works(Run(s, steps), scan, folder)
    ensures var t := Run(s, steps);
            match WorkerOf(t, scan, folder)
            case Finished(seen, Some(entry), true) =>
              && Exists(t.disk, folder, seen)
              && entry.fingerprint == StampsAt(t.disk, folder, seen)
              && entry.bundle == ContentsAt(t.disk, folder, seen)
            case _ => true
  {
    FreshInv(s);
    RunInv(s, steps);
    var t := Run(s, steps);
    assert ScanOk(t.disk, t.scans[scan]);
    var w := WorkerOf(t, scan, folder);
    assert WorkerOk(t.disk, t.scans[scan].snapshot, folder, w);
    if w.Finished? && w.result.Some? && w.reused {
      ReuseIsRight(t.disk, folder, w.seen, w.result.value);
    }
  }

  lemma ReuseIsRight(disk: Disk, folder: Folder, seen: seq<nat>, e: Entry)
    requires Exists(disk, folder, seen) && EntryOk(disk, folder, e) && Reuses(disk, folder, seen, e) && AllSteady(disk)
    ensures e.bundle == ContentsAt(disk, folder, seen)
  {
    forall f | 0 <= f < FILES ensures e.bundle[f] == ContentsAt(disk, folder, seen)[f] {
      var h := HistoryOf(disk, Source(folder, f));
      assert Steady(h);
      assert StampsAt(disk, folder, e.seen)[f] == StampsAt(disk, folder, seen)[f];
    }
  }

  /** In every reachable state, whether parsed or reused, a finished folder whose files have not changed since their
      stats shows what the files hold now. */
  lemma UnchangedFolderIsCurrent(s: State, steps: seq<Step>, scan: ScanId, folder: Folder)
    requires Fresh(s) && Legal(s, steps) && AllSteady(Run(s, steps).disk)
    requires Works(Run(s, steps), scan, folder)
    ensures var t := Run(s, steps);
            match WorkerOf(t, scan, folder)
            case Finished(seen, Some(entry), reused) =>
              && Exists(t.disk, folder, seen)
              && ((forall f :: 0 <= f < FILES ==> seen[f] == Current(t.disk, folder, f)) ==>
                    entry.bundle == ContentsAt(t.disk, folder, seen))
            case _ => true
  {
    FreshInv(s);
    RunInv(s, steps);
    var t := Run(s, steps);
    assert ScanOk(t.disk, t.scans[scan]);
    var w := WorkerOf(t, scan, folder);
    assert WorkerOk(t.disk, t.scans[scan].snapshot, folder, w);
    if w.Finished? && w.result.Some? {
      var e := w.result.value;
      if w.reused {
        ReuseIsRight(t.disk, folder, w.seen, e);
      } else if forall f :: 0 <= f < FILES ==> w.seen[f] == Current(t.disk, folder, f) {
        forall f | 0 <= f < FILES ensures e.read[f] == w.seen[f] {
          assert e.seen[f] <= e.read[f];
        }
        assert e.read == w.seen;
      }
    }
  }

  // ---- What is published ----

  ghost predicate NoPublish(steps: seq<Step>) { forall i :: 0 <= i < |steps| ==> !steps[i].Publish? }

  lemma {:induction false} CacheStays(s: State, steps: seq<Step>)
    requires Legal(s, steps) && NoPublish(steps)
    ensures Run(s, steps).cache == s.cache
    decreases |steps|
  {
    if steps != [] {
      assert !steps[0].Publish?;
      assert NoPublish(steps[1..]);
      CacheStays(Apply(s, steps[0]), steps[1..]);
    }
  }

  /** From one publication to the next the cache holds exactly the recordings of the scan that published, each with that
      scan's result: whatever an overlapping scan had published before is gone. */
  lemma CacheIsTheLastScan(s: State, scan: ScanId, steps: seq<Step>)
    requires Enabled(s, Publish(scan)) && Legal(Apply(s, Publish(scan)), steps) && NoPublish(steps)
    ensures var cache, workers := Run(Apply(s, Publish(scan)), steps).cache, s.scans[scan].workers;
            && (forall folder :: folder in cache <==>
                  folder in workers && workers[folder].Finished? && workers[folder].result.Some?)
            && (forall folder :: folder in cache ==> workers[folder].result == Some(cache[folder]))
  {
    CacheStays(Apply(s, Publish(scan)), steps);
    var workers := s.scans[scan].workers;
    forall folder | folder in workers ensures workers[folder].Finished? {
      assert workers[folder] in workers.Values;
    }
  }

  // ---- The condition is needed ----

  function One(source: Source, h: seq<Version>): Disk { map[source := h] }

  /** One file, one folder, and at most one scan of it. */
  ghost function Single(source: Source, h: seq<Version>, cache: Cache, scan: ScanId, snapshot: Cache,
                        w: Worker): State {
    State(One(source, h), cache, map[scan := Scan(snapshot, map[source.folder := w])])
  }

  ghost function Idle(source: Source, h: seq<Version>, cache: Cache): State { State(One(source, h), cache, map[]) }

  lemma SingleWorks(source: Source, h: seq<Version>, cache: Cache, scan: ScanId, snapshot: Cache, w: Worker, v: Worker)
    ensures var s := Single(source, h, cache, scan, snapshot, w);
            && Works(s, scan, source.folder) && WorkerOf(s, scan, source.folder) == w
            && s.scans[scan].snapshot == snapshot
            && WithWorker(s, scan, source.folder, v) == Single(source, h, cache, scan, snapshot, v)
  {
    var s := Single(source, h, cache, scan, snapshot, w);
    assert s.scans[scan].workers[source.folder := v] == map[source.folder := v];
    assert s.scans[scan := Scan(snapshot, map[source.folder := v])] ==
           map[scan := Scan(snapshot, map[source.folder := v])];
  }

  /** The file goes through the versions after `n` up to `m`. */
  function Writes(source: Source, h: seq<Version>, n: nat, m: nat): seq<Step>
    requires n <= m < |h|
    decreases m - n
  {
    if n == m then [] else [Write(source, h[n + 1])] + Writes(source, h, n + 1, m)
  }

  lemma {:induction false} WritesRun(s: State, source: Source, h: seq<Version>, n: nat, m: nat)
    requires n <= m < |h| && s.disk == One(source, h[..n + 1]) && source.file < FILES
    ensures Legal(s, Writes(source, h, n, m)) && Run(s, Writes(source, h, n, m)) == s.(disk := One(source, h[..m + 1]))
    decreases m - n
  {
    if n < m {
      var t := Apply(s, Write(source, h[n + 1]));
      assert h[..n + 1] + [h[n + 1]] == h[..n + 2];
      assert t.disk == One(source, h[..n + 2]);
      assert t == s.(disk := t.disk);
      WritesRun(t, source, h, n + 1, m);
      assert Writes(source, h, n, m)[1..] == Writes(source, h, n + 1, m);
    }
  }

  /** A scan of the folder up to the decision. */
  function Looking(scan: ScanId, folder: Folder): seq<Step> { [Begin(scan, {folder})] + Opening(scan, folder, true) }

  lemma LookingRun(source: Source, h: seq<Version>, cache: Cache, scan: ScanId)
    ensures var disk, folder := One(source, h), source.folder;
            && Legal(Idle(source, h, cache), Looking(scan, folder))
            && Run(Idle(source, h, cache), Looking(scan, folder)) ==
                 Single(source, h, cache, scan, cache, Decision(disk, folder, cache, Latest(disk, folder), true))
  {
    var disk, folder := One(source, h), source.folder;
    var s := Single(source, h, cache, scan, cache, NewWorker());
    assert NewWorkers({folder}) == map[folder := NewWorker()];
    assert Apply(Idle(source, h, cache), Begin(scan, {folder})) == s;
    SingleWorks(source, h, cache, scan, cache, NewWorker(), Decision(disk, folder, cache, Latest(disk, folder), true));
    OpeningRun(s, scan, folder, true);
    RunCons(Idle(source, h, cache), Begin(scan, {folder}), Opening(scan, folder, true));
  }

  lemma ReadingRun(source: Source, h: seq<Version>, scan: ScanId, seen: seq<nat>)
    requires Exists(One(source, h), source.folder, seen)
    ensures var disk, folder := One(source, h), source.folder;
            var s := Single(source, h, map[], scan, map[], Parsing(seen, []));
            && Legal(s, Reads(scan, folder, 0))
            && Run(s, Reads(scan, folder, 0)) ==
                 Single(source, h, map[], scan, map[], Finished(seen, Some(ParsedEntry(disk, folder, seen)), false))
  {
    var disk, folder := One(source, h), source.folder;
    assert Latest(disk, folder)[..0] == [];
    SingleWorks(source, h, map[], scan, map[], Parsing(seen, []), HavingRead(disk, folder, seen, FILES));
    ReadsRun(Single(source, h, map[], scan, map[], Parsing(seen, [])), scan, folder, seen, 0);
  }

  lemma PublishRun(source: Source, h: seq<Version>, cache: Cache, scan: ScanId, seen: seq<nat>, e: Entry)
    ensures var s := Single(source, h, cache, scan, cache, Finished(seen, Some(e), false));
            Legal(s, [Publish(scan)]) && Run(s, [Publish(scan)]) == Idle(source, h, map[source.folder := e])
  {
    var s := Single(source, h, cache, scan, cache, Finished(seen, Some(e), false));
    var t := Apply(s, Publish(scan));
    assert Results(s.scans[scan].workers) == map[source.folder := e];
    assert t.scans == map[];
    assert t == Idle(source, h, map[source.folder := e]);
    assert [Publish(scan)][1..] == [];
  }

  /** A first scan whose folder is written to, from version `n` to version `m`, between the stats and the reads. */
  function RacedScan(source: Source, h: seq<Version>, n: nat, m: nat, scan: ScanId): seq<Step>
    requires n <= m < |h|
  {
    Looking(scan, source.folder) + (Writes(source, h, n, m) + (Reads(scan, source.folder, 0) + [Publish(scan)]))
  }

  /** The stats saw version `n`, the reads version `m`. */
  ghost function RacedEntry(source: Source, h: seq<Version>, n: nat, m: nat): Entry
    requires n <= m < |h| && source.file < FILES
  {
    LaterExists(source, h, n, m);
    ParsedEntry(One(source, h[..m + 1]), source.folder, Latest(One(source, h[..n + 1]), source.folder))
  }

  lemma LaterExists(source: Source, h: seq<Version>, n: nat, m: nat)
    requires n <= m < |h| && source.file < FILES
    ensures Exists(One(source, h[..m + 1]), source.folder, Latest(One(source, h[..n + 1]), source.folder))
  {
  }

  lemma RacedScanRun(source: Source, h: seq<Version>, n: nat, m: nat, scan: ScanId)
    requires n <= m < |h| && source.file < FILES
    ensures Legal(Idle(source, h[..n + 1], map[]), RacedScan(source, h, n, m, scan))
    ensures Run(Idle(source, h[..n + 1], map[]), RacedScan(source, h, n, m, scan)) ==
            Idle(source, h[..m + 1], map[source.folder := RacedEntry(source, h, n, m)])
  {
    var folder, g := source.folder, h[..m + 1];
    var seen := Latest(One(source, h[..n + 1]), folder);
    var parsing := Single(source, h[..n + 1], map[], scan, map[], Parsing(seen, []));
    LookingRun(source, h[..n + 1], map[], scan);
    WritesRun(parsing, source, h, n, m);
    LaterExists(source, h, n, m);
    var late := Single(source, g, map[], scan, map[], Parsing(seen, []));
    assert parsing.(disk := One(source, g)) == late;
    ReadingRun(source, g, scan, seen);
    PublishRun(source, g, map[], scan, seen, RacedEntry(source, h, n, m));
    RunAppend(late, Reads(scan, folder, 0), [Publish(scan)]);
    RunAppend(parsing, Writes(source, h, n, m), Reads(scan, folder, 0) + [Publish(scan)]);
    RunAppend(Idle(source, h[..n + 1], map[]), Looking(scan, folder),
              Writes(source, h, n, m) + (Reads(scan, folder, 0) + [Publish(scan)]));
  }

  /** A scan races with a write, the file goes on to version `j`, and a second scan looks at it. */
  function StaleRun(source: Source, h: seq<Version>, i: nat, k: nat, j: nat, scan: ScanId): seq<Step>
    requires i <= k <= j < |h|
  {
    RacedScan(source, h, i, k, scan) + (Writes(source, h, k, j) + Looking(scan, source.folder))
  }

  /** A legal run of a fresh process after which the folder's worker has reused a bundle that differs from the files at
      the very stamps it has just read. */
  ghost predicate EndsStale(s: State, steps: seq<Step>, scan: ScanId, folder: Folder) {
    && Fresh(s) && Legal(s, steps)
    && var t := Run(s, steps);
       && Works(t, scan, folder)
       && match WorkerOf(t, scan, folder)
          case Finished(seen, Some(entry), true) =>
            && Exists(t.disk, folder, seen)
            && entry.fingerprint == StampsAt(t.disk, folder, seen)
            && entry.bundle != ContentsAt(t.disk, folder, seen)
          case _ => false
  }

  /** Without the condition a stale bundle is reused: whatever history of whichever file is not steady, two scans and
      the writes of that history, in some order, end with a bundle that differs from the files at the stamps just
      read. */
  lemma UnsteadyFileGoesStale(source: Source, h: seq<Version>, i: nat, k: nat, j: nat, scan: ScanId)
    requires source.file < FILES && i <= k <= j < |h| && h[i].stamp == h[j].stamp && h[k].content != h[j].content
    ensures EndsStale(Idle(source, h[..i + 1], map[]), StaleRun(source, h, i, k, j, scan), scan, source.folder)
    ensures HistoryOf(Run(Idle(source, h[..i + 1], map[]), StaleRun(source, h, i, k, j, scan)).disk, source) ==
            h[..j + 1]
  {
    var folder, g := source.folder, h[..j + 1];
    var e := RacedEntry(source, h, i, k);
    var start, mid, end :=
      Idle(source, h[..i + 1], map[]), Idle(source, h[..k + 1], map[folder := e]), Idle(source, g, map[folder := e]);
    RacedScanRun(source, h, i, k, scan);
    WritesRun(mid, source, h, k, j);
    assert mid.(disk := One(source, g)) == end;
    LookingRun(source, g, map[folder := e], scan);
    RunAppend(mid, Writes(source, h, k, j), Looking(scan, folder));
    RunAppend(start, RacedScan(source, h, i, k, scan), Writes(source, h, k, j) + Looking(scan, folder));
    StaleEntry(source, h, i, k, j);
    SingleWorks(source, g, map[folder := e], scan, map[folder := e],
                Decision(One(source, g), folder, map[folder := e], Latest(One(source, g), folder), true),
                Finished([], None, false));
  }

  /** The raced entry has the fingerprint of version `j` and the contents of version `k`. */
  lemma StaleEntry(source: Source, h: seq<Version>, i: nat, k: nat, j: nat)
    requires source.file < FILES && i <= k <= j < |h| && h[i].stamp == h[j].stamp && h[k].content != h[j].content
    ensures var e, disk := RacedEntry(source, h, i, k), One(source, h[..j + 1]);
            var seen := Latest(disk, source.folder);
            && e.fingerprint == StampsAt(disk, source.folder, seen)
            && e.bundle != ContentsAt(disk, source.folder, seen)
  {
    var folder := source.folder;
    var e, disk := RacedEntry(source, h, i, k), One(source, h[..j + 1]);
    var seen := Latest(disk, folder);
    forall f | 0 <= f < FILES ensures e.fingerprint[f] == StampsAt(disk, folder, seen)[f] {
    }
    assert e.bundle[source.file] == h[k].content;
    assert ContentsAt(disk, folder, seen)[source.file] == h[j].content;
  }

  /** A file created during a parse and deleted afterwards brings the stamp "absent" back: its parse is kept. */
  lemma DeletionGoesStale(source: Source, written: Version, scan: ScanId)
    requires source.file < FILES && written.content.Some?
    ensures var h := [Version(None, None), written, Version(None, None)];
            EndsStale(Idle(source, h[..1], map[]), StaleRun(source, h, 0, 1, 2, scan), scan, source.folder)
  {
    var h := [Version(None, None), written, Version(None, None)];
    UnsteadyFileGoesStale(source, h, 0, 1, 2, scan);
  }
}
