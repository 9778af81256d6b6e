/** A scan during which nothing is written and no other scan runs is a run of the step system. */
module SequentialScan {
  import opened ScanCache
  import opened ScanRuns
  import R = RecordingScanner

  /** A parse cache without the version records. */
  function Plain(cache: Cache): R.ParseCache {
    map folder | folder in cache :: R.Parsed(cache[folder].fingerprint, cache[folder].bundle)
  }

  /** What the scan finds in a folder that can be listed is what is on disk. */
  ghost predicate Sees(disk: Disk, view: R.FolderView) {
    view.listing.Some? ==>
      && R.FingerprintOf(view.listing.value) == StampsAt(disk, view.folder, Latest(disk, view.folder))
      && view.contents == ContentsAt(disk, view.folder, Latest(disk, view.folder))
  }

  /** The folders' workers after their turns. */
  ghost function Settling(disk: Disk, snapshot: Cache, workers: map<Folder, Worker>,
                          views: seq<R.FolderView>): map<Folder, Worker> {
    if views == [] then workers
    else
      var last := views[|views| - 1];
      Settling(disk, snapshot, workers, views[..|views| - 1])
        [last.folder := Settled(disk, last.folder, snapshot, R.IsRecording(last))]
  }

  /** One worker after the other. */
  ghost function InTurn(disk: Disk, snapshot: Cache, scan: ScanId, views: seq<R.FolderView>): seq<Step> {
    if views == [] then []
    else
      var last := views[|views| - 1];
      InTurn(disk, snapshot, scan, views[..|views| - 1]) +
      FolderSteps(disk, snapshot, scan, last.folder, R.IsRecording(last))
  }

  lemma {:induction false} OthersAreNew(disk: Disk, snapshot: Cache, workers: map<Folder, Worker>,
                                        views: seq<R.FolderView>, folder: Folder)
    requires forall k :: 0 <= k < |views| ==> views[k].folder != folder
    ensures folder in Settling(disk, snapshot, workers, views) <==> folder in workers
    ensures folder in workers ==> Settling(disk, snapshot, workers, views)[folder] == workers[folder]
  {
    if views != [] { OthersAreNew(disk, snapshot, workers, views[..|views| - 1], folder); }
  }

  ghost function WithWorkers(s: State, scan: ScanId, workers: map<Folder, Worker>): State
    requires scan in s.scans
  {
    s.(scans := s.scans[scan := s.scans[scan].(workers := workers)])
  }

  lemma OneMoreWorker(s: State, scan: ScanId, workers: map<Folder, Worker>, folder: Folder, w: Worker)
    requires scan in s.scans && folder in workers
    ensures var t := WithWorkers(s, scan, workers);
            Works(t, scan, folder) && WithWorker(t, scan, folder, w) == WithWorkers(s, scan, workers[folder := w])
  {
    var before, after := s.scans[scan].(workers := workers), s.scans[scan].(workers := workers[folder := w]);
    assert s.scans[scan := before][scan := after] == s.scans[scan := after];
  }

  lemma OneTurn(s: State, scan: ScanId, before: map<Folder, Worker>, folder: Folder, isRecording: bool)
    requires scan in s.scans && folder in before && before[folder] == NewWorker()
    ensures var snapshot, t := s.scans[scan].snapshot, WithWorkers(s, scan, before);
            var steps := FolderSteps(s.disk, snapshot, scan, folder, isRecording);
            && Legal(t, steps)
            && Run(t, steps) ==
                 WithWorkers(s, scan, before[folder := Settled(s.disk, folder, snapshot, isRecording)])
  {
    OneMoreWorker(s, scan, before, folder, Settled(s.disk, folder, s.scans[scan].snapshot, isRecording));
    WorkerRun(WithWorkers(s, scan, before), scan, folder, isRecording);
  }

  lemma {:induction false} InTurnRun(s: State, scan: ScanId, views: seq<R.FolderView>)
    requires scan in s.scans && R.DistinctFolders(views)
    requires forall k :: 0 <= k < |views| ==> Works(s, scan, views[k].folder) &&
                                              WorkerOf(s, scan, views[k].folder) == NewWorker()
    ensures var snapshot := s.scans[scan].snapshot;
            && Legal(s, InTurn(s.disk, snapshot, scan, views))
            && Run(s, InTurn(s.disk, snapshot, scan, views)) ==
                 WithWorkers(s, scan, Settling(s.disk, snapshot, s.scans[scan].workers, views))
  {
    var snapshot, workers := s.scans[scan].snapshot, s.scans[scan].workers;
    if views == [] {
      assert s.scans[scan := s.scans[scan]] == s.scans;
    } else {
      var n := |views| - 1;
      var init, last := views[..n], views[n];
      var before := Settling(s.disk, snapshot, workers, init);
      InTurnRun(s, scan, init);
      OthersAreNew(s.disk, snapshot, workers, init, last.folder);
      OneTurn(s, scan, before, last.folder, R.IsRecording(last));
      RunAppend(s, InTurn(s.disk, snapshot, scan, init),
                FolderSteps(s.disk, snapshot, scan, last.folder, R.IsRecording(last)));
    }
  }

  /** A settled worker holds what the scanner's own functions give for the folder. */
  lemma SettledIsParsed(disk: Disk, snapshot: Cache, view: R.FolderView)
    requires Sees(disk, view)
    ensures var w := Settled(disk, view.folder, snapshot, R.IsRecording(view));
            && w.Finished? && (w.result.Some? <==> R.IsRecording(view))
            && (R.IsRecording(view) ==>
                  R.Parsed(w.result.value.fingerprint, w.result.value.bundle) == R.ParsedOf(view, Plain(snapshot)))
  {
  }

  lemma ResultsOfOne(workers: map<Folder, Worker>, folder: Folder, w: Worker)
    requires folder in workers && !workers[folder].Finished? && w.Finished?
    ensures Plain(Results(workers[folder := w])) ==
            if w.result.Some? then
              Plain(Results(workers))[folder := R.Parsed(w.result.value.fingerprint, w.result.value.bundle)]
            else Plain(Results(workers))
  {
  }

  /** The results of the workers are the cache the scanner builds. */
  lemma {:induction false} ResultsAreTheCache(disk: Disk, snapshot: Cache, workers: map<Folder, Worker>,
                                              views: seq<R.FolderView>)
    requires R.DistinctFolders(views) && forall k :: 0 <= k < |views| ==> Sees(disk, views[k])
    requires forall folder :: folder in workers ==> workers[folder] == NewWorker()
    requires forall k :: 0 <= k < |views| ==> views[k].folder in workers
    ensures (R.RecordingsAre(views);
             Plain(Results(Settling(disk, snapshot, workers, views))) ==
               R.CacheOf(R.Recordings(views), Plain(snapshot)))
  {
    R.RecordingsAre(views);
    if views != [] {
      var n := |views| - 1;
      var init, last := views[..n], views[n];
      ResultsAreTheCache(disk, snapshot, workers, init);
      OthersAreNew(disk, snapshot, workers, init, last.folder);
      SettledIsParsed(disk, snapshot, last);
      ResultsOfOne(Settling(disk, snapshot, workers, init), last.folder,
                   Settled(disk, last.folder, snapshot, R.IsRecording(last)));
      assert views[..n + 1] == views;
      R.OneMoreFolder(views, n, Plain(snapshot));
    }
  }

  lemma {:induction false} AllSettled(disk: Disk, snapshot: Cache, workers: map<Folder, Worker>,
                                      views: seq<R.FolderView>, k: nat)
    requires k < |views| && forall j :: 0 <= j < |views| ==> Sees(disk, views[j])
    ensures views[k].folder in Settling(disk, snapshot, workers, views)
    ensures Settling(disk, snapshot, workers, views)[views[k].folder].Finished?
  {
    var n := |views| - 1;
    SettledIsParsed(disk, snapshot, views[n]);
    if k < n { AllSettled(disk, snapshot, workers, views[..n], k); }
  }

  function FoldersOf(views: seq<R.FolderView>): set<Folder> { set k | 0 <= k < |views| :: views[k].folder }

  /** The whole scan: it begins, every worker has its turn, and it publishes. */
  ghost function Alone(s: State, scan: ScanId, views: seq<R.FolderView>): seq<Step> {
    [Begin(scan, FoldersOf(views))] + (InTurn(s.disk, s.cache, scan, views) + [Publish(scan)])
  }

  lemma {:induction false} SettlingKeys(disk: Disk, snapshot: Cache, workers: map<Folder, Worker>,
                                        views: seq<R.FolderView>)
    requires forall k :: 0 <= k < |views| ==> views[k].folder in workers
    ensures Settling(disk, snapshot, workers, views).Keys == workers.Keys
  {
    if views != [] { SettlingKeys(disk, snapshot, workers, views[..|views| - 1]); }
  }

  lemma AllFinish(disk: Disk, snapshot: Cache, views: seq<R.FolderView>)
    requires forall k :: 0 <= k < |views| ==> Sees(disk, views[k])
    ensures forall w :: w in Settling(disk, snapshot, NewWorkers(FoldersOf(views)), views).Values ==> w.Finished?
  {
    var settled := Settling(disk, snapshot, NewWorkers(FoldersOf(views)), views);
    SettlingKeys(disk, snapshot, NewWorkers(FoldersOf(views)), views);
    forall folder | folder in settled ensures settled[folder].Finished? {
      assert folder in FoldersOf(views);
      var k :| 0 <= k < |views| && views[k].folder == folder;
      AllSettled(disk, snapshot, NewWorkers(FoldersOf(views)), views, k);
    }
  }

  /** A scan that nothing interferes with is a legal run of the step system, and what it publishes is, apart from the
      version records, the cache that `Scanner.ScanOutputDir` leaves behind. */
  lemma ScanAloneIsARun(s: State, scan: ScanId, views: seq<R.FolderView>)
    requires scan !in s.scans && R.DistinctFolders(views) && forall k :: 0 <= k < |views| ==> Sees(s.disk, views[k])
    ensures Legal(s, Alone(s, scan, views))
    ensures var t := Run(s, Alone(s, scan, views));
            && t.disk == s.disk && t.scans == s.scans
            && (R.RecordingsAre(views); Plain(t.cache) == R.CacheOf(R.Recordings(views), Plain(s.cache)))
  {
    var workers := NewWorkers(FoldersOf(views));
    AllFinish(s.disk, s.cache, views);
    PublishedAlone(s, scan, Settling(s.disk, s.cache, workers, views));
    AloneRuns(s, scan, views);
    ResultsAreTheCache(s.disk, s.cache, workers, views);
  }

  lemma AloneRuns(s: State, scan: ScanId, views: seq<R.FolderView>)
    requires scan !in s.scans && R.DistinctFolders(views)
    requires var settled := Settling(s.disk, s.cache, NewWorkers(FoldersOf(views)), views);
             Enabled(s.(scans := s.scans[scan := Scan(s.cache, settled)]), Publish(scan))
    ensures var settled := Settling(s.disk, s.cache, NewWorkers(FoldersOf(views)), views);
            var t := s.(scans := s.scans[scan := Scan(s.cache, settled)]);
            && Legal(s, Alone(s, scan, views))
            && Run(s, Alone(s, scan, views)) == Apply(t, Publish(scan))
  {
    var workers := NewWorkers(FoldersOf(views));
    var begun := Apply(s, Begin(scan, FoldersOf(views)));
    var settled := Settling(s.disk, s.cache, workers, views);
    var t := s.(scans := s.scans[scan := Scan(s.cache, settled)]);
    BegunWith(s, scan, workers, settled);
    InTurnRun(begun, scan, views);
    RunOne(t, Publish(scan));
    RunAppend(begun, InTurn(s.disk, s.cache, scan, views), [Publish(scan)]);
    RunCons(s, Begin(scan, FoldersOf(views)), InTurn(s.disk, s.cache, scan, views) + [Publish(scan)]);
  }

  lemma BegunWith(s: State, scan: ScanId, before: map<Folder, Worker>, after: map<Folder, Worker>)
    requires scan !in s.scans
    ensures var begun := s.(scans := s.scans[scan := Scan(s.cache, before)]);
            WithWorkers(begun, scan, after) == s.(scans := s.scans[scan := Scan(s.cache, after)])
  {
    assert s.scans[scan := Scan(s.cache, before)][scan := Scan(s.cache, after)] ==
           s.scans[scan := Scan(s.cache, after)];
  }

  lemma PublishedAlone(s: State, scan: ScanId, workers: map<Folder, Worker>)
    requires scan !in s.scans && forall w :: w in workers.Values ==> w.Finished?
    ensures var t := s.(scans := s.scans[scan := Scan(s.cache, workers)]);
            Enabled(t, Publish(scan)) && Apply(t, Publish(scan)) == s.(cache := Results(workers))
  {
    var t := s.(scans := s.scans[scan := Scan(s.cache, workers)]);
    assert (map id | id in t.scans && id != scan :: t.scans[id]) == s.scans;
  }
}
