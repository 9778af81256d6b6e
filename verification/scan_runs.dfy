/** Runs of one folder's worker while nothing is written: its stats, its decision and its reads. */
module ScanRuns {
  import opened Wrappers
  import opened ScanCache

  lemma {:induction false} RunAppend(s: State, a: seq<Step>, b: seq<Step>)
    requires Legal(s, a) && Legal(Run(s, a), b)
    ensures Legal(s, a + b) && Run(s, a + b) == Run(Run(s, a), b)
    decreases |a|
  {
    if a == [] {
      assert a + b == b;
    } else {
      RunAppend(Apply(s, a[0]), a[1..], b);
      assert (a + b)[1..] == a[1..] + b;
    }
  }

  lemma RunCons(s: State, step: Step, rest: seq<Step>)
    requires Enabled(s, step) && Legal(Apply(s, step), rest)
    ensures Legal(s, [step] + rest) && Run(s, [step] + rest) == Run(Apply(s, step), rest)
  {
    assert ([step] + rest)[1..] == rest;
  }

  lemma RunOne(s: State, step: Step)
    requires Enabled(s, step)
    ensures Legal(s, [step]) && Run(s, [step]) == Apply(s, step)
  {
    assert [step][1..] == [] && Legal(Apply(s, step), []);
  }

  /** Setting a worker twice is setting it once; setting it to itself changes nothing. */
  lemma WithWorkerAgain(s: State, scan: ScanId, folder: Folder, v: Worker, w: Worker)
    requires Works(s, scan, folder)
    ensures var t := WithWorker(s, scan, folder, v);
            && Works(t, scan, folder) && WorkerOf(t, scan, folder) == v
            && t.scans[scan].snapshot == s.scans[scan].snapshot
            && WithWorker(t, scan, folder, w) == WithWorker(s, scan, folder, w)
    ensures WithWorker(s, scan, folder, WorkerOf(s, scan, folder)) == s
  {
    var t := WithWorker(s, scan, folder, v);
    var scans, workers := s.scans, s.scans[scan].workers;
    assert workers[folder := v][folder := w] == workers[folder := w];
    assert t.scans[scan := t.scans[scan].(workers := workers[folder := v][folder := w])] ==
           scans[scan := scans[scan].(workers := workers[folder := w])];
    assert workers[folder := workers[folder]] == workers;
    assert scans[scan := scans[scan]] == scans;
  }

  function Latest(disk: Disk, folder: Folder): (r: seq<nat>)
    ensures |r| == FILES && forall f :: 0 <= f < FILES ==> r[f] == Current(disk, folder, f)
  {
    seq(FILES, f requires 0 <= f < FILES => Current(disk, folder, f))
  }

  // ---- Stats ----

  /** The stats of the first `k` files, the rest still missing. */
  function Statted(disk: Disk, folder: Folder, k: nat): (r: seq<Option<nat>>)
    ensures |r| == FILES
    ensures forall f :: 0 <= f < FILES ==> r[f] == if f < k then Some(Current(disk, folder, f)) else None
  {
    seq(FILES, f requires 0 <= f < FILES => if f < k then Some(Current(disk, folder, f)) else None)
  }

  function Stats(scan: ScanId, folder: Folder, k: nat): seq<Step>
    requires k <= FILES
    decreases FILES - k
  {
    if k == FILES then [] else [Stat(scan, folder, k)] + Stats(scan, folder, k + 1)
  }

  lemma {:induction false} StatsRun(s: State, scan: ScanId, folder: Folder, k: nat)
    requires k <= FILES && Works(s, scan, folder) && WorkerOf(s, scan, folder) == Statting(Statted(s.disk, folder, k))
    ensures Legal(s, Stats(scan, folder, k))
    ensures Run(s, Stats(scan, folder, k)) == WithWorker(s, scan, folder, Statting(Statted(s.disk, folder, FILES)))
    decreases FILES - k
  {
    var all := Statting(Statted(s.disk, folder, FILES));
    if k == FILES {
      WithWorkerAgain(s, scan, folder, all, all);
    } else {
      var w := Statting(Statted(s.disk, folder, k + 1));
      assert Statted(s.disk, folder, k)[k := Some(Current(s.disk, folder, k))] == w.stats;
      WithWorkerAgain(s, scan, folder, w, all);
      StatsRun(WithWorker(s, scan, folder, w), scan, folder, k + 1);
      RunCons(s, Stat(scan, folder, k), Stats(scan, folder, k + 1));
    }
  }

  lemma DecideRun(s: State, scan: ScanId, folder: Folder, isRecording: bool)
    requires Works(s, scan, folder) && WorkerOf(s, scan, folder) == Statting(Statted(s.disk, folder, FILES))
    ensures Legal(s, [Decide(scan, folder, isRecording)])
    ensures Run(s, [Decide(scan, folder, isRecording)]) ==
            WithWorker(s, scan, folder,
                       Decision(s.disk, folder, s.scans[scan].snapshot, Latest(s.disk, folder), isRecording))
  {
    assert SeenOf(Statted(s.disk, folder, FILES)) == Latest(s.disk, folder);
    RunOne(s, Decide(scan, folder, isRecording));
  }

  /** A new worker up to the decision, all on the current versions. */
  function Opening(scan: ScanId, folder: Folder, isRecording: bool): seq<Step> {
    Stats(scan, folder, 0) + [Decide(scan, folder, isRecording)]
  }

  lemma OpeningRun(s: State, scan: ScanId, folder: Folder, isRecording: bool)
    requires Works(s, scan, folder) && WorkerOf(s, scan, folder) == NewWorker()
    ensures Legal(s, Opening(scan, folder, isRecording))
    ensures Run(s, Opening(scan, folder, isRecording)) ==
            WithWorker(s, scan, folder,
                       Decision(s.disk, folder, s.scans[scan].snapshot, Latest(s.disk, folder), isRecording))
  {
    var w := Statting(Statted(s.disk, folder, FILES));
    assert NewWorker().stats == Statted(s.disk, folder, 0);
    StatsRun(s, scan, folder, 0);
    WithWorkerAgain(s, scan, folder, w,
                    Decision(s.disk, folder, s.scans[scan].snapshot, Latest(s.disk, folder), isRecording));
    DecideRun(WithWorker(s, scan, folder, w), scan, folder, isRecording);
    RunAppend(s, Stats(scan, folder, 0), [Decide(scan, folder, isRecording)]);
  }

  // ---- Reads ----

  function Reads(scan: ScanId, folder: Folder, k: nat): seq<Step>
    requires k <= FILES
    decreases FILES - k
  {
    if k == FILES then [] else [Read(scan, folder)] + Reads(scan, folder, k + 1)
  }

  /** The entry a parse of the current files yields after stats of the versions `seen`. */
  ghost function ParsedEntry(disk: Disk, folder: Folder, seen: seq<nat>): Entry
    requires Exists(disk, folder, seen)
  {
    Entry(StampsAt(disk, folder, seen), ContentsAt(disk, folder, Latest(disk, folder)), seen, Latest(disk, folder))
  }

  /** What the worker is once it has read the first `k` files. */
  ghost function HavingRead(disk: Disk, folder: Folder, seen: seq<nat>, k: nat): Worker
    requires k <= FILES && Exists(disk, folder, seen)
  {
    if k < FILES then Parsing(seen, Latest(disk, folder)[..k])
    else Finished(seen, Some(ParsedEntry(disk, folder, seen)), false)
  }

  lemma OneRead(disk: Disk, folder: Folder, seen: seq<nat>, k: nat)
    requires k < FILES && Exists(disk, folder, seen)
    ensures AfterRead(disk, folder, seen, Latest(disk, folder)[..k]) == HavingRead(disk, folder, seen, k + 1)
  {
    var latest := Latest(disk, folder);
    assert latest[..k] + [Current(disk, folder, k)] == latest[..k + 1];
    if k + 1 == FILES { assert latest[..k + 1] == latest; }
  }

  lemma {:induction false} ReadsRun(s: State, scan: ScanId, folder: Folder, seen: seq<nat>, k: nat)
    requires k <= FILES && Exists(s.disk, folder, seen)
    requires Works(s, scan, folder) && WorkerOf(s, scan, folder) == HavingRead(s.disk, folder, seen, k)
    ensures Legal(s, Reads(scan, folder, k))
    ensures Run(s, Reads(scan, folder, k)) == WithWorker(s, scan, folder, HavingRead(s.disk, folder, seen, FILES))
    decreases FILES - k
  {
    var all := HavingRead(s.disk, folder, seen, FILES);
    if k == FILES {
      WithWorkerAgain(s, scan, folder, all, all);
    } else {
      var w := HavingRead(s.disk, folder, seen, k + 1);
      ReadStep(s, scan, folder, seen, k);
      WithWorkerAgain(s, scan, folder, w, all);
      ReadsRun(WithWorker(s, scan, folder, w), scan, folder, seen, k + 1);
      RunCons(s, Read(scan, folder), Reads(scan, folder, k + 1));
    }
  }

  lemma ReadStep(s: State, scan: ScanId, folder: Folder, seen: seq<nat>, k: nat)
    requires k < FILES && Exists(s.disk, folder, seen)
    requires Works(s, scan, folder) && WorkerOf(s, scan, folder) == HavingRead(s.disk, folder, seen, k)
    ensures Enabled(s, Read(scan, folder))
    ensures Apply(s, Read(scan, folder)) == WithWorker(s, scan, folder, HavingRead(s.disk, folder, seen, k + 1))
  {
    OneRead(s.disk, folder, seen, k);
  }

  // ---- A whole worker ----

  /** What a new worker ends as when nothing is written meanwhile. */
  ghost function Settled(disk: Disk, folder: Folder, snapshot: Cache, isRecording: bool): Worker {
    var decision := Decision(disk, folder, snapshot, Latest(disk, folder), isRecording);
    if decision.Parsing? then HavingRead(disk, folder, Latest(disk, folder), FILES) else decision
  }

  ghost function FolderSteps(disk: Disk, snapshot: Cache, scan: ScanId, folder: Folder, isRecording: bool): seq<Step> {
    var decision := Decision(disk, folder, snapshot, Latest(disk, folder), isRecording);
    Opening(scan, folder, isRecording) + if decision.Parsing? then Reads(scan, folder, 0) else []
  }

  lemma WorkerRun(s: State, scan: ScanId, folder: Folder, isRecording: bool)
    requires Works(s, scan, folder) && WorkerOf(s, scan, folder) == NewWorker()
    ensures Legal(s, FolderSteps(s.disk, s.scans[scan].snapshot, scan, folder, isRecording))
    ensures Run(s, FolderSteps(s.disk, s.scans[scan].snapshot, scan, folder, isRecording)) ==
            WithWorker(s, scan, folder, Settled(s.disk, folder, s.scans[scan].snapshot, isRecording))
  {
    var latest := Latest(s.disk, folder);
    var decision := Decision(s.disk, folder, s.scans[scan].snapshot, latest, isRecording);
    var t := WithWorker(s, scan, folder, decision);
    OpeningRun(s, scan, folder, isRecording);
    if decision.Parsing? {
      assert latest[..0] == [];
      WithWorkerAgain(s, scan, folder, decision, HavingRead(s.disk, folder, latest, FILES));
      ReadsRun(t, scan, folder, latest, 0);
      RunAppend(s, Opening(scan, folder, isRecording), Reads(scan, folder, 0));
    } else {
      RunAppend(s, Opening(scan, folder, isRecording), []);
    }
  }
}
