/** One scan of the recordings on its own: the loops of `_build_recording_entry` and `scan_output_dir`. */
module RecordingScanner {
  import opened Wrappers
  import opened ScanCache

  datatype Kind = Mcap | QualityReport | SourceFile(file: nat) | Other

  /** A directory entry; the stat is missing when it could not be taken. */
  datatype Child = Child(kind: Kind, isFile: bool, stat: Option<Stamp>)

  type Fingerprint = seq<Option<Stamp>>

  type Bundle = seq<Option<Content>>

  datatype Parsed = Parsed(fingerprint: Fingerprint, bundle: Bundle)

  type ParseCache = map<Folder, Parsed>

  /** A folder as a scan finds it: its listing (None when it cannot be read), its own modification time, and what
      parsing its files would give. */
  datatype FolderView = FolderView(folder: Folder, listing: Option<seq<Child>>, modifiedAt: real, contents: Bundle)

  datatype FileEntry = FileEntry(folder: Folder, size: nat, modifiedAt: real, hasQualityReport: bool, bundle: Bundle)

  // ---- What the listing says ----

  predicate Counted(c: Child) { c.isFile && c.stat.Some? }

  function TotalSize(children: seq<Child>): nat {
    if children == [] then 0
    else
      var last := children[|children| - 1];
      TotalSize(children[..|children| - 1]) + if Counted(last) then last.stat.value.size else 0
  }

  predicate Has(children: seq<Child>, kind: Kind) {
    children != [] &&
    (Has(children[..|children| - 1], kind)
     || (Counted(children[|children| - 1]) && children[|children| - 1].kind == kind))
  }

  lemma {:induction false} HasMeans(children: seq<Child>, kind: Kind)
    ensures Has(children, kind) <==> exists i :: 0 <= i < |children| && Counted(children[i]) && children[i].kind == kind
  {
    if children != [] {
      var n := |children| - 1;
      HasMeans(children[..n], kind);
      if Has(children[..n], kind) {
        var i :| 0 <= i < n && Counted(children[..n][i]) && children[..n][i].kind == kind;
        assert Counted(children[i]) && children[i].kind == kind;
      }
    }
  }

  /** The stamp of a source file: that of its entry, None without one. */
  function StampIn(children: seq<Child>, file: nat): Option<Stamp> {
    if children == [] then None
    else
      var last := children[|children| - 1];
      if Counted(last) && last.kind == SourceFile(file) then last.stat else StampIn(children[..|children| - 1], file)
  }

  function FingerprintOf(children: seq<Child>): (r: Fingerprint)
    ensures |r| == FILES && forall f :: 0 <= f < FILES ==> r[f] == StampIn(children, f)
  {
    seq(FILES, f requires 0 <= f < FILES => StampIn(children, f))
  }

  ghost predicate IsRecording(view: FolderView) { view.listing.Some? && Has(view.listing.value, Mcap) }

  /** The cached bundle while the fingerprint is unchanged, a parse otherwise. */
  function BundleFor(view: FolderView, children: seq<Child>, cache: ParseCache): Bundle {
    if view.folder in cache && cache[view.folder].fingerprint == FingerprintOf(children) then cache[view.folder].bundle
    else view.contents
  }

  ghost function ParsedOf(view: FolderView, cache: ParseCache): Parsed
    requires IsRecording(view)
  {
    Parsed(FingerprintOf(view.listing.value), BundleFor(view, view.listing.value, cache))
  }

  ghost function EntryOf(view: FolderView, cache: ParseCache): FileEntry
    requires IsRecording(view)
  {
    var children := view.listing.value;
    FileEntry(view.folder, TotalSize(children), view.modifiedAt, Has(children, QualityReport),
              BundleFor(view, children, cache))
  }

  /** The recordings among the folders, in order. */
  ghost function Recordings(views: seq<FolderView>): seq<FolderView> {
    if views == [] then []
    else Recordings(views[..|views| - 1]) + if IsRecording(views[|views| - 1]) then [views[|views| - 1]] else []
  }

  lemma {:induction false} RecordingsAre(views: seq<FolderView>)
    ensures forall i :: 0 <= i < |Recordings(views)| ==> IsRecording(Recordings(views)[i])
  {
    if views != [] { RecordingsAre(views[..|views| - 1]); }
  }

  ghost function EntriesOf(recordings: seq<FolderView>, cache: ParseCache): seq<FileEntry>
    requires forall i :: 0 <= i < |recordings| ==> IsRecording(recordings[i])
  {
    seq(|recordings|, i requires 0 <= i < |recordings| => EntryOf(recordings[i], cache))
  }

  ghost function CacheOf(recordings: seq<FolderView>, cache: ParseCache): ParseCache
    requires forall i :: 0 <= i < |recordings| ==> IsRecording(recordings[i])
  {
    if recordings == [] then map[]
    else
      var n := |recordings| - 1;
      CacheOf(recordings[..n], cache)[recordings[n].folder := ParsedOf(recordings[n], cache)]
  }

  // ---- The loops ----

  /** `_build_recording_entry`. */
  method BuildRecordingEntry(view: FolderView, snapshot: ParseCache) returns (result: Option<(Parsed, FileEntry)>)
    ensures result.Some? <==> IsRecording(view)
    ensures result.Some? ==> result.value == (ParsedOf(view, snapshot), EntryOf(view, snapshot))
  {
    if view.listing.None? {
      return None;
    }
    var children := view.listing.value;
    var totalSize := 0;
    var hasMcap, hasQualityReport := false, false;
    var sourceStats: map<nat, Stamp> := map[];
    for i := 0 to |children|
      invariant totalSize == TotalSize(children[..i])
      invariant hasMcap <==> Has(children[..i], Mcap)
      invariant hasQualityReport <==> Has(children[..i], QualityReport)
      invariant forall f: nat :: StampIn(children[..i], f) == if f in sourceStats then Some(sourceStats[f]) else None
    {
      var child := children[i];
      assert children[..i + 1][..i] == children[..i];
      if !child.isFile || child.stat.None? {
        continue;
      }
      totalSize := totalSize + child.stat.value.size;
      match child.kind
      case Mcap => hasMcap := true;
      case QualityReport => hasQualityReport := true;
      case SourceFile(file) => sourceStats := sourceStats[file := child.stat.value];
      case Other =>
    }
    assert children[..|children|] == children;
    if !hasMcap {
      return None;
    }
    var fingerprint := seq(FILES, f requires 0 <= f < FILES => if f in sourceStats then Some(sourceStats[f]) else None);
    assert fingerprint == FingerprintOf(children);
    var hit := view.folder in snapshot && snapshot[view.folder].fingerprint == fingerprint;
    var bundle := if hit then snapshot[view.folder].bundle else view.contents;
    return Some((Parsed(fingerprint, bundle),
                 FileEntry(view.folder, totalSize, view.modifiedAt, hasQualityReport, bundle)));
  }

  /** One more folder in `Recordings`, `EntriesOf` and `CacheOf`. */
  lemma OneMoreFolder(views: seq<FolderView>, i: nat, cache: ParseCache)
    requires i < |views|
    ensures var before, after := Recordings(views[..i]), Recordings(views[..i + 1]);
            (RecordingsAre(views[..i]); RecordingsAre(views[..i + 1]);
             if IsRecording(views[i])
             then && EntriesOf(after, cache) == EntriesOf(before, cache) + [EntryOf(views[i], cache)]
                  && CacheOf(after, cache) == CacheOf(before, cache)[views[i].folder := ParsedOf(views[i], cache)]
             else after == before)
  {
    assert views[..i + 1][..i] == views[..i];
    RecordingsAre(views[..i]);
    RecordingsAre(views[..i + 1]);
    var before, after := Recordings(views[..i]), Recordings(views[..i + 1]);
    if IsRecording(views[i]) {
      assert after == before + [views[i]];
      assert after[..|after| - 1] == before;
    }
  }

  // ---- The order of the list ----

  /** `_sort_key_recording_desc`: the recording's start, 0 if missing, then the folder's modification time. */
  datatype SortKey = SortKey(start: int, modifiedAt: real)

  /** How a parsed bundle states the recording's start. */
  type StartOf = Bundle -> Option<int>

  function KeyOf(e: FileEntry, startOf: StartOf): SortKey {
    SortKey(if startOf(e.bundle).Some? then startOf(e.bundle).value else 0, e.modifiedAt)
  }

  /** `a` is at least as new as `b`. */
  predicate NotOlder(a: SortKey, b: SortKey) {
    a.start > b.start || (a.start == b.start && a.modifiedAt >= b.modifiedAt)
  }

  function InsertEntry(e: FileEntry, entries: seq<FileEntry>, startOf: StartOf): seq<FileEntry> {
    if entries == [] || NotOlder(KeyOf(e, startOf), KeyOf(entries[0], startOf)) then [e] + entries
    else [entries[0]] + InsertEntry(e, entries[1..], startOf)
  }

  /** The stable sort in descending order. */
  function NewestFirst(entries: seq<FileEntry>, startOf: StartOf): seq<FileEntry> {
    if entries == [] then [] else InsertEntry(entries[0], NewestFirst(entries[1..], startOf), startOf)
  }

  ghost predicate Descending(entries: seq<FileEntry>, startOf: StartOf) {
    forall i, j :: 0 <= i < j < |entries| ==> NotOlder(KeyOf(entries[i], startOf), KeyOf(entries[j], startOf))
  }

  /** The recording's start as the list is sorted by. */
  function StartedAt(e: FileEntry, startOf: StartOf): int {
    match startOf(e.bundle)
    case Some(start) => start
    case None => 0
  }

  /** Newest first by start, one without a start last, and among equal starts by modification time. */
  lemma DescendingMeans(entries: seq<FileEntry>, startOf: StartOf)
    ensures Descending(entries, startOf) <==>
            forall i, j :: 0 <= i < j < |entries| ==>
              && StartedAt(entries[i], startOf) >= StartedAt(entries[j], startOf)
              && (StartedAt(entries[i], startOf) == StartedAt(entries[j], startOf) ==>
                    entries[i].modifiedAt >= entries[j].modifiedAt)
  {
    forall e ensures KeyOf(e, startOf) == SortKey(StartedAt(e, startOf), e.modifiedAt) {}
  }

  /** The entries of one key, in their order. */
  function WithKey(entries: seq<FileEntry>, startOf: StartOf, key: SortKey): seq<FileEntry> {
    if entries == [] then []
    else (if KeyOf(entries[0], startOf) == key then [entries[0]] else []) + WithKey(entries[1..], startOf, key)
  }

  lemma {:induction false} InsertedIsNotNewer(e: FileEntry, entries: seq<FileEntry>, startOf: StartOf, top: SortKey)
    requires NotOlder(top, KeyOf(e, startOf))
    requires forall x :: x in entries ==> NotOlder(top, KeyOf(x, startOf))
    ensures forall x :: x in InsertEntry(e, entries, startOf) ==> NotOlder(top, KeyOf(x, startOf))
  {
    if entries == [] || NotOlder(KeyOf(e, startOf), KeyOf(entries[0], startOf)) {
    } else {
      InsertedIsNotNewer(e, entries[1..], startOf, top);
    }
  }

  lemma {:induction false} InsertDescending(e: FileEntry, entries: seq<FileEntry>, startOf: StartOf)
    requires Descending(entries, startOf)
    ensures Descending(InsertEntry(e, entries, startOf), startOf)
  {
    if entries == [] || NotOlder(KeyOf(e, startOf), KeyOf(entries[0], startOf)) {
      forall x | x in entries ensures NotOlder(KeyOf(e, startOf), KeyOf(x, startOf)) {
        var i :| 0 <= i < |entries| && entries[i] == x;
        if i > 0 { assert NotOlder(KeyOf(entries[0], startOf), KeyOf(entries[i], startOf)); }
      }
      PrependDescending(e, entries, startOf);
    } else {
      InsertDescending(e, entries[1..], startOf);
      forall x | x in entries[1..] ensures NotOlder(KeyOf(entries[0], startOf), KeyOf(x, startOf)) {
        var i :| 1 <= i < |entries| && entries[i] == x;
      }
      InsertedIsNotNewer(e, entries[1..], startOf, KeyOf(entries[0], startOf));
      PrependDescending(entries[0], InsertEntry(e, entries[1..], startOf), startOf);
    }
  }

  lemma PrependDescending(e: FileEntry, entries: seq<FileEntry>, startOf: StartOf)
    requires Descending(entries, startOf)
    requires forall x :: x in entries ==> NotOlder(KeyOf(e, startOf), KeyOf(x, startOf))
    ensures Descending([e] + entries, startOf)
  {
    var r := [e] + entries;
    forall i, j | 0 <= i < j < |r| ensures NotOlder(KeyOf(r[i], startOf), KeyOf(r[j], startOf)) {
      assert r[j] == entries[j - 1];
      if i > 0 { assert r[i] == entries[i - 1]; }
    }
  }

  lemma {:induction false} InsertWithKey(e: FileEntry, entries: seq<FileEntry>, startOf: StartOf, key: SortKey)
    ensures WithKey(InsertEntry(e, entries, startOf), startOf, key) == WithKey([e] + entries, startOf, key)
  {
    assert ([e] + entries)[1..] == entries;
    if entries != [] && !NotOlder(KeyOf(e, startOf), KeyOf(entries[0], startOf)) {
      var rest := InsertEntry(e, entries[1..], startOf);
      InsertWithKey(e, entries[1..], startOf, key);
      assert ([entries[0]] + rest)[1..] == rest && ([e] + entries[1..])[1..] == entries[1..];
    }
  }

  /** The list is newest first, and entries of equal keys keep the order in which the folders were listed; so it holds
      the same entries. */
  lemma {:induction false} NewestFirstSorts(entries: seq<FileEntry>, startOf: StartOf, key: SortKey)
    ensures Descending(NewestFirst(entries, startOf), startOf)
    ensures WithKey(NewestFirst(entries, startOf), startOf, key) == WithKey(entries, startOf, key)
  {
    if entries != [] {
      var rest := NewestFirst(entries[1..], startOf);
      NewestFirstSorts(entries[1..], startOf, key);
      InsertDescending(entries[0], rest, startOf);
      InsertWithKey(entries[0], rest, startOf, key);
      assert ([entries[0]] + rest)[1..] == rest;
    }
  }

  /** The module's parse cache. */
  class Scanner {
    const startOf: StartOf
    var parseCache: ParseCache

    constructor (startOf: StartOf)
      ensures this.startOf == startOf && parseCache == map[]
    {
      this.startOf, parseCache := startOf, map[];
    }

    /** `scan_output_dir`: every recording's entry, newest first, and a cache of exactly these recordings. */
    method ScanOutputDir(views: seq<FolderView>) returns (sorted: seq<FileEntry>)
      modifies this
      ensures (RecordingsAre(views); sorted == NewestFirst(EntriesOf(Recordings(views), old(parseCache)), startOf))
      ensures (RecordingsAre(views); parseCache == CacheOf(Recordings(views), old(parseCache)))
    {
      var snapshot := parseCache;
      var freshCache: ParseCache := map[];
      var entries := [];
      RecordingsAre(views);
      for i := 0 to |views|
        invariant snapshot == old(parseCache) && parseCache == old(parseCache)
        invariant forall j :: 0 <= j < |Recordings(views[..i])| ==> IsRecording(Recordings(views[..i])[j])
        invariant entries == EntriesOf(Recordings(views[..i]), snapshot)
        invariant freshCache == CacheOf(Recordings(views[..i]), snapshot)
      {
        OneMoreFolder(views, i, snapshot);
        RecordingsAre(views[..i + 1]);
        var built := BuildRecordingEntry(views[i], snapshot);
        if built.Some? {
          freshCache := freshCache[views[i].folder := built.value.0];
          entries := entries + [built.value.1];
        }
      }
      assert views[..|views|] == views;
      parseCache := map[];
      parseCache := freshCache;
      sorted := NewestFirst(entries, startOf);
    }
  }

  /** After a scan the cached folders are exactly the recordings it saw. */
  lemma {:induction false} CacheKeys(recordings: seq<FolderView>, cache: ParseCache)
    requires forall i :: 0 <= i < |recordings| ==> IsRecording(recordings[i])
    ensures forall folder :: folder in CacheOf(recordings, cache) <==>
            exists i :: 0 <= i < |recordings| && recordings[i].folder == folder
  {
    if recordings != [] {
      var n := |recordings| - 1;
      CacheKeys(recordings[..n], cache);
      forall folder
        ensures folder in CacheOf(recordings, cache) <==>
                exists i :: 0 <= i < |recordings| && recordings[i].folder == folder
      {
        if exists i :: 0 <= i < n && recordings[..n][i].folder == folder {
          var i :| 0 <= i < n && recordings[..n][i].folder == folder;
          assert recordings[i].folder == folder;
        }
        if recordings[n].folder == folder {
          assert folder in CacheOf(recordings, cache);
        }
      }
    }
  }

  ghost predicate DistinctFolders(recordings: seq<FolderView>) {
    forall i, j :: 0 <= i < j < |recordings| ==> recordings[i].folder != recordings[j].folder
  }

  lemma {:induction false} CachedUnderItsFolder(recordings: seq<FolderView>, cache: ParseCache, i: nat)
    requires forall k :: 0 <= k < |recordings| ==> IsRecording(recordings[k])
    requires DistinctFolders(recordings) && i < |recordings|
    ensures recordings[i].folder in CacheOf(recordings, cache)
    ensures CacheOf(recordings, cache)[recordings[i].folder] == ParsedOf(recordings[i], cache)
  {
    var n := |recordings| - 1;
    if i < n { CachedUnderItsFolder(recordings[..n], cache, i); }
  }

  /** Scanning again the same listings answers the same without parsing anything: the entries, but for the folder's own
      modification time, do not depend on what a parse would give now. */
  lemma RescanReuses(recordings: seq<FolderView>, again: seq<FolderView>, cache: ParseCache)
    requires forall k :: 0 <= k < |recordings| ==> IsRecording(recordings[k])
    requires DistinctFolders(recordings) && |again| == |recordings|
    requires forall k :: 0 <= k < |again| ==>
             again[k].folder == recordings[k].folder && again[k].listing == recordings[k].listing
    ensures forall k :: 0 <= k < |again| ==> IsRecording(again[k])
    ensures forall k :: 0 <= k < |again| ==>
              EntryOf(again[k], CacheOf(recordings, cache)) ==
              EntryOf(recordings[k], cache).(modifiedAt := again[k].modifiedAt)
  {
    forall k | 0 <= k < |again| ensures IsRecording(again[k]) {
      assert IsRecording(recordings[k]);
    }
    forall k | 0 <= k < |again|
      ensures EntryOf(again[k], CacheOf(recordings, cache)) ==
              EntryOf(recordings[k], cache).(modifiedAt := again[k].modifiedAt)
    {
      CachedUnderItsFolder(recordings, cache, k);
    }
  }

  // ---- What an entry says ----

  /** The listing holds a file of this kind whose stat could be taken. */
  ghost predicate HasFile(children: seq<Child>, kind: Kind) {
    exists i :: 0 <= i < |children| && children[i].isFile && children[i].stat.Some? && children[i].kind == kind
  }

  /** The sum of the files' sizes, directories and files without a stat left out. */
  lemma {:induction false} SizesAdd(a: seq<Child>, b: seq<Child>)
    ensures TotalSize(a + b) == TotalSize(a) + TotalSize(b)
  {
    if b == [] {
      assert a + b == a;
    } else {
      var whole := a + b;
      assert whole[..|whole| - 1] == a + b[..|b| - 1];
      SizesAdd(a, b[..|b| - 1]);
    }
  }

  lemma OneSize(c: Child)
    ensures TotalSize([c]) == if c.isFile && c.stat.Some? then c.stat.value.size else 0
  {
    assert [c][..0] == [];
    assert TotalSize([]) == 0;
  }

  /** The stamp of a source file is that of a listed file, and there is none exactly when none is listed. */
  lemma {:induction false} StampMeans(children: seq<Child>, file: nat)
    ensures StampIn(children, file).None? <==> !HasFile(children, SourceFile(file))
    ensures StampIn(children, file).Some? ==>
              exists i :: 0 <= i < |children| && children[i].isFile && children[i].kind == SourceFile(file)
                          && children[i].stat == StampIn(children, file)
  {
    if children != [] {
      var n := |children| - 1;
      StampMeans(children[..n], file);
      if HasFile(children[..n], SourceFile(file)) {
        var i :| 0 <= i < n && children[..n][i].isFile && children[..n][i].stat.Some?
                 && children[..n][i].kind == SourceFile(file);
        assert children[i].isFile && children[i].stat.Some? && children[i].kind == SourceFile(file);
      }
      if StampIn(children, file).Some? && !(Counted(children[n]) && children[n].kind == SourceFile(file)) {
        var i :| 0 <= i < n && children[..n][i].isFile && children[..n][i].kind == SourceFile(file)
                 && children[..n][i].stat == StampIn(children[..n], file);
        assert children[i].stat == StampIn(children, file);
      }
    }
  }

  /** A folder is a recording when a recording file is listed. Its entry names the folder and its own modification time,
      the sum of the files' sizes and whether a quality report is listed; it shows the cached bundle while every source
      file's stamp is as cached, and what a parse gives otherwise. */
  lemma EntryMeans(view: FolderView, cache: ParseCache)
    ensures IsRecording(view) <==> view.listing.Some? && HasFile(view.listing.value, Mcap)
    ensures IsRecording(view) ==>
              && EntryOf(view, cache).folder == view.folder && EntryOf(view, cache).modifiedAt == view.modifiedAt
              && EntryOf(view, cache).size == TotalSize(view.listing.value)
              && (EntryOf(view, cache).hasQualityReport <==> HasFile(view.listing.value, QualityReport))
              && EntryOf(view, cache).bundle == ParsedOf(view, cache).bundle
              && ParsedOf(view, cache).bundle ==
                 (if StampsAsCached(view, cache) then cache[view.folder].bundle else view.contents)
              && StampsAre(ParsedOf(view, cache).fingerprint, view.listing.value)
  {
    if view.listing.Some? {
      HasMeans(view.listing.value, Mcap);
      HasMeans(view.listing.value, QualityReport);
    }
  }

  ghost predicate StampsAre(fingerprint: Fingerprint, children: seq<Child>) {
    |fingerprint| == FILES && forall f :: 0 <= f < FILES ==> fingerprint[f] == StampIn(children, f)
  }

  ghost predicate StampsAsCached(view: FolderView, cache: ParseCache)
    requires view.listing.Some?
  {
    view.folder in cache && StampsAre(cache[view.folder].fingerprint, view.listing.value)
  }

  /** The scanned recordings are those of the folders, each as often as it was listed. */
  lemma {:induction false} EveryRecordingIsScanned(views: seq<FolderView>, view: FolderView)
    ensures multiset(Recordings(views))[view] == if IsRecording(view) then multiset(views)[view] else 0
  {
    if views != [] {
      var n := |views| - 1;
      EveryRecordingIsScanned(views[..n], view);
      assert views == views[..n] + [views[n]];
    }
  }
}
