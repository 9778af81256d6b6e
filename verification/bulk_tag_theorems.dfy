/** Saving does what the dialog shows. */
module BulkTagTheorems {
  import opened Wrappers
  import opened BulkTags
  import opened RecordingMetas

  /** The rows found on the recordings, as they start. */
  ghost predicate Found(initial: seq<TagRow>) {
    && Distinct(TagsOf(initial))
    && forall i :: 0 <= i < |initial| ==>
       initial[i].presence != OnNone && initial[i].check == CheckOf(initial[i].presence)
  }

  lemma RowsAreFound(initial: seq<TagRow>, entries: seq<seq<Tag>>, total: nat)
    requires RowsFor(initial, entries, total)
    ensures Found(initial)
  {
    forall i | 0 <= i < |initial|
      ensures initial[i].presence != OnNone && initial[i].check == CheckOf(initial[i].presence)
    {
      assert IsRow(initial[i], entries, total);
    }
  }

  /** What a row shows: an edited check, or the one it started with. */
  lemma RowShown(initial: seq<TagRow>, d: Dialog, draft: Option<Tag>, i: nat)
    requires Found(initial) && i < |SavedRows(initial, d, draft)|
    ensures var row := SavedRows(initial, d, draft)[i];
            && (draft == Some(row.tag) ==> row.check == Checked)
            && (draft != Some(row.tag) && row.tag in d.tagChecks ==> row.check == d.tagChecks[row.tag])
            && (draft != Some(row.tag) && row.tag !in d.tagChecks ==>
                  row.check == if row.presence == OnSome then Mixed else Checked)
            && (row.presence == OnNone ==> row.tag in d.newTags || draft == Some(row.tag))
  {
    var rows := Rows(initial, d);
    if i < |initial| {
      assert rows[i] == Edited(initial[i], d.tagChecks);
    } else if i < |rows| {
      assert rows[i] == Edited(NewTagRow(d.newTags[i - |initial|]), d.tagChecks);
      assert d.newTags[i - |initial|] in d.newTags;
    }
    if draft.Some? { HasTagMeans(rows, draft.value); }
  }

  /** In any dialog state whatever, also after the rows were fetched again, no tag is both added and removed. */
  lemma RequestIsDisjoint(initial: seq<TagRow>, d: Dialog, draft: Option<Tag>, t: Tag)
    requires Found(initial)
    ensures var rows := SavedRows(initial, d, draft); !(t in TagsWith(rows, Add) && t in TagsWith(rows, Remove))
  {
    var rows := SavedRows(initial, d, draft);
    TagsWithMeans(rows, Add, t);
    TagsWithMeans(rows, Remove, t);
    if t in TagsWith(rows, Add) && t in TagsWith(rows, Remove) {
      var i :| 0 <= i < |rows| && rows[i].tag == t && TagDelta(rows[i]) == Add;
      var j :| 0 <= j < |rows| && rows[j].tag == t && TagDelta(rows[j]) == Remove;
      RowShown(initial, d, draft, i);
      RowShown(initial, d, draft, j);
      assert false;
    }
  }

  /** Whenever Save is enabled, the server accepts the request. */
  lemma SavedRequestIsAccepted(initial: seq<TagRow>, d: Dialog, draft: Option<Tag>, metadata: map<Key, Value>)
    requires Found(initial)
    ensures var rows := SavedRows(initial, d, draft);
            var add, remove := TagsWith(rows, Add), TagsWith(rows, Remove);
            |add| + |remove| + |metadata| > 0 <==> Accepted(metadata, add, remove)
  {
    forall t
      ensures !(t in TagsWith(SavedRows(initial, d, draft), Add)
                && t in TagsWith(SavedRows(initial, d, draft), Remove))
    {
      RequestIsDisjoint(initial, d, draft, t);
    }
  }

  // ---- What saving does ----

  /** The tags of one recording after the save. */
  function After(tags: seq<Tag>, rows: seq<TagRow>): seq<Tag> {
    Merged(tags, TagsWith(rows, Add), TagsWith(rows, Remove))
  }

  /** What a row promises for one recording: on it, not on it, or as before. */
  ghost predicate Kept(row: TagRow, before: seq<Tag>, after: seq<Tag>) {
    match row.check
    case Checked => row.tag in after
    case Unchecked => row.tag !in after
    case Mixed => row.tag in after <==> row.tag in before
  }

  lemma {:induction false} OnEvery(entries: seq<seq<Tag>>, t: Tag, e: nat)
    requires e < |entries|
    ensures CountOf(entries, t) == |entries| ==> t in entries[e]
    ensures t in entries[e] ==> CountOf(entries, t) > 0
  {
    if e < |entries| - 1 { OnEvery(entries[..|entries| - 1], t, e); }
  }

  /** A tag that some recording carries has a row, and that row is not "on none". */
  lemma CarriedTagHasRow(initial: seq<TagRow>, d: Dialog, draft: Option<Tag>, entries: seq<seq<Tag>>, total: nat,
                         e: nat, t: Tag)
    returns (i: nat)
    requires RowsFor(initial, entries, total) && e < |entries| && t in entries[e]
    ensures i < |SavedRows(initial, d, draft)|
    ensures SavedRows(initial, d, draft)[i].tag == t && SavedRows(initial, d, draft)[i].presence != OnNone
  {
    OnEvery(entries, t, e);
    assert t in TagsOf(initial);
    i :| 0 <= i < |initial| && TagsOf(initial)[i] == t;
    assert IsRow(initial[i], entries, total);
    assert Rows(initial, d)[i] == Edited(initial[i], d.tagChecks);
  }

  /** A row "on all" is on every recording when all of the selected ones are loaded. */
  lemma OnAllIsOnEvery(initial: seq<TagRow>, d: Dialog, draft: Option<Tag>, entries: seq<seq<Tag>>, i: nat, e: nat)
    requires RowsFor(initial, entries, |entries|) && e < |entries|
    requires i < |SavedRows(initial, d, draft)| && SavedRows(initial, d, draft)[i].presence == OnAll
    ensures SavedRows(initial, d, draft)[i].tag in entries[e]
  {
    var rows := Rows(initial, d);
    assert i < |initial|;
    assert rows[i] == Edited(initial[i], d.tagChecks);
    assert IsRow(initial[i], entries, |entries|);
    OnEvery(entries, initial[i].tag, e);
  }

  /** In any dialog state, saving leaves each checked tag on all of the selected recordings and each unchecked tag on
      none. */
  lemma CheckedOnAllUncheckedOnNone(initial: seq<TagRow>, d: Dialog, draft: Option<Tag>, entries: seq<seq<Tag>>,
                                    i: nat, e: nat)
    requires RowsFor(initial, entries, |entries|) && e < |entries|
    requires i < |SavedRows(initial, d, draft)| && SavedRows(initial, d, draft)[i].check != Mixed
    ensures var rows := SavedRows(initial, d, draft); Kept(rows[i], entries[e], After(entries[e], rows))
  {
    RowsAreFound(initial, entries, |entries|);
    var rows := SavedRows(initial, d, draft);
    var row := rows[i];
    MergedMeans(entries[e], TagsWith(rows, Add), TagsWith(rows, Remove), row.tag);
    TagsWithMeans(rows, Add, row.tag);
    TagsWithMeans(rows, Remove, row.tag);
    RequestIsDisjoint(initial, d, draft, row.tag);
    RowShown(initial, d, draft, i);
    if row.check == Checked && row.presence == OnAll {
      OnAllIsOnEvery(initial, d, draft, entries, i, e);
      if row.tag in TagsWith(rows, Remove) {
        var j :| 0 <= j < |rows| && rows[j].tag == row.tag && TagDelta(rows[j]) == Remove;
        RowShown(initial, d, draft, j);
      }
    }
    if row.check == Unchecked {
      if row.tag in TagsWith(rows, Add) {
        var j :| 0 <= j < |rows| && rows[j].tag == row.tag && TagDelta(rows[j]) == Add;
        RowShown(initial, d, draft, j);
      }
      if row.tag in entries[e] {
        var j := CarriedTagHasRow(initial, d, draft, entries, |entries|, e, row.tag);
        RowShown(initial, d, draft, j);
        assert TagDelta(rows[j]) == Remove;
      }
    }
  }

  // ---- Runs of clicks and typed tags ----

  lemma {:induction false} RunsKeepRowsFound(s: Session, events: seq<Event>)
    requires RowsFor(s.initial, s.entries, |s.entries|) && forall k :: 0 <= k < |events| ==> Fetched(events[k])
    ensures var t := HandleAll(s, events); RowsFor(t.initial, t.entries, |t.entries|)
    decreases |events|
  {
    if events != [] {
      assert Fetched(events[0]);
      RunsKeepRowsFound(Handle(s, events[0]), events[1..]);
    }
  }

  /** In every run of clicks, typed tags and refetches, saving does to all of the recordings what a row shows (checked
      on it, unchecked not on it, mixed as before) exactly unless the row is mixed although its tag was typed and never
      clicked: then the typed row adds it to every recording. */
  lemma RowIsKeptIff(entries: seq<seq<Tag>>, initial: seq<TagRow>, events: seq<Event>, draft: Option<Tag>, i: nat)
    requires RowsFor(initial, entries, |entries|) && forall k :: 0 <= k < |events| ==> Fetched(events[k])
    requires var s := HandleAll(Open(entries, initial), events); i < |SavedRows(s.initial, s.dialog, draft)|
    ensures var s := HandleAll(Open(entries, initial), events);
            var rows := SavedRows(s.initial, s.dialog, draft);
            (forall e :: 0 <= e < |s.entries| ==> Kept(rows[i], s.entries[e], After(s.entries[e], rows)))
            <==> !(rows[i].check == Mixed && rows[i].tag in s.dialog.newTags && rows[i].tag !in s.dialog.tagChecks)
  {
    RunsKeepRowsFound(Open(entries, initial), events);
    var s := HandleAll(Open(entries, initial), events);
    var rows := SavedRows(s.initial, s.dialog, draft);
    if rows[i].check == Mixed {
      MixedRowIsKeptIff(s.initial, s.dialog, draft, s.entries, i);
    } else {
      forall e | 0 <= e < |s.entries| ensures Kept(rows[i], s.entries[e], After(s.entries[e], rows)) {
        CheckedOnAllUncheckedOnNone(s.initial, s.dialog, draft, s.entries, i, e);
      }
    }
  }

  /** Typed tags are new: none is a row found on the recordings, none is typed twice. */
  ghost predicate NewTagsAreNew(initial: seq<TagRow>, d: Dialog) { Distinct(TagsOf(initial) + d.newTags) }

  lemma TagsOfRows(initial: seq<TagRow>, d: Dialog)
    ensures TagsOf(Rows(initial, d)) == TagsOf(initial) + d.newTags
  {
  }

  lemma HandleKeepsNew(s: Session, event: Event)
    requires NewTagsAreNew(s.initial, s.dialog) && !event.Refetched?
    ensures NewTagsAreNew(s.initial, Handle(s, event).dialog)
  {
    var rows := Rows(s.initial, s.dialog);
    if event.Typed? && !HasTag(rows, event.tag) {
      TagsOfRows(s.initial, s.dialog);
      HasTagMeans(rows, event.tag);
      var tags := TagsOf(s.initial) + s.dialog.newTags;
      forall k | 0 <= k < |tags| ensures tags[k] != event.tag {
        assert rows[k].tag == tags[k];
      }
      assert TagsOf(s.initial) + (s.dialog.newTags + [event.tag]) == tags + [event.tag];
    }
  }

  lemma {:induction false} EditsKeepNew(s: Session, events: seq<Event>)
    requires NewTagsAreNew(s.initial, s.dialog) && forall k :: 0 <= k < |events| ==> !events[k].Refetched?
    ensures var t := HandleAll(s, events);
            t.entries == s.entries && t.initial == s.initial && NewTagsAreNew(t.initial, t.dialog)
    decreases |events|
  {
    if events != [] {
      HandleKeepsNew(s, events[0]);
      EditsKeepNew(Handle(s, events[0]), events[1..]);
    }
  }

  /** While typed tags are new, a typed row is the only one of its tag, and it is mixed only if it was clicked. */
  lemma MixedWasNotTyped(initial: seq<TagRow>, d: Dialog, draft: Option<Tag>, i: nat)
    requires Found(initial) && NewTagsAreNew(initial, d)
    requires i < |SavedRows(initial, d, draft)| && SavedRows(initial, d, draft)[i].check == Mixed
    ensures var t := SavedRows(initial, d, draft)[i].tag; !(t in d.newTags && t !in d.tagChecks)
  {
    RowShown(initial, d, draft, i);
    var t := SavedRows(initial, d, draft)[i].tag;
    if t !in d.tagChecks {
      var tags := TagsOf(initial) + d.newTags;
      assert i < |initial| && tags[i] == t;
      forall k | 0 <= k < |d.newTags| ensures d.newTags[k] != t {
        assert tags[|initial| + k] == d.newTags[k];
      }
    }
  }

  /** While the list is not fetched again, saving does to every recording what every row shows. */
  lemma SavingDoesWhatTheDialogShows(entries: seq<seq<Tag>>, initial: seq<TagRow>, events: seq<Event>,
                                     draft: Option<Tag>, i: nat, e: nat)
    requires RowsFor(initial, entries, |entries|) && e < |entries|
    requires forall k :: 0 <= k < |events| ==> !events[k].Refetched?
    requires i < |SavedRows(initial, HandleAll(Open(entries, initial), events).dialog, draft)|
    ensures var rows := SavedRows(initial, HandleAll(Open(entries, initial), events).dialog, draft);
            Kept(rows[i], entries[e], After(entries[e], rows))
  {
    var d := HandleAll(Open(entries, initial), events).dialog;
    assert TagsOf(initial) + [] == TagsOf(initial);
    EditsKeepNew(Open(entries, initial), events);
    RowIsKeptIff(entries, initial, events, draft, i);
    RowsAreFound(initial, entries, |entries|);
    if SavedRows(initial, d, draft)[i].check == Mixed { MixedWasNotTyped(initial, d, draft, i); }
  }

  /** A run in which a row is not kept: a tag is typed over two recordings without tags, the list is fetched again after
      somebody else put the tag on the first, and the row that now shows the tag as mixed adds it to the second. */
  lemma RefetchBreaksARow(t: Tag)
    ensures var events := [Typed(t), Refetched([[t], []], [TagRow(t, 1, OnSome, Mixed)])];
            var s := HandleAll(Open([[], []], []), events);
            var rows := SavedRows(s.initial, s.dialog, None);
            && RowsFor([], [[], []], 2) && Fetched(events[0]) && Fetched(events[1])
            && s.entries == [[t], []] && |rows| == 2 && rows[0] == TagRow(t, 1, OnSome, Mixed)
            && !Kept(rows[0], s.entries[1], After(s.entries[1], rows))
  {
    var found := TagRow(t, 1, OnSome, Mixed);
    var typed, refetched := Typed(t), Refetched([[t], []], [found]);
    CountsOfTwo([], [], t);
    CountsOfTwo([t], [], t);
    forall u ensures u in TagsOf([]) <==> CountOf([[], []], u) > 0 { CountsOfTwo([], [], u); }
    forall u ensures u in TagsOf([found]) <==> CountOf([[t], []], u) > 0 {
      CountsOfTwo([t], [], u);
      assert TagsOf([found])[0] == t;
    }
    assert RowsFor([found], [[t], []], 2);
    var s0 := Open([[], []], []);
    var s1 := Session([[], []], [], Dialog(map[], [t]));
    var s := Session([[t], []], [found], Dialog(map[], [t]));
    assert Handle(s0, typed) == s1 && Handle(s1, refetched) == s;
    assert [typed, refetched][1..] == [refetched] && [refetched][1..] == [];
    assert HandleAll(s0, [typed, refetched]) == HandleAll(s1, [refetched]) == HandleAll(s, []) == s;
    RefetchedRowIsMixed(t, s, found);
  }

  lemma RefetchedRowIsMixed(t: Tag, s: Session, found: TagRow)
    requires found == TagRow(t, 1, OnSome, Mixed) && s == Session([[t], []], [found], Dialog(map[], [t]))
    ensures var rows := SavedRows(s.initial, s.dialog, None);
            |rows| == 2 && rows[0] == found && !Kept(rows[0], s.entries[1], After(s.entries[1], rows))
  {
    var rows := SavedRows(s.initial, s.dialog, None);
    assert rows == [found, NewTagRow(t)];
    TypedRowAdds(s.initial, s.dialog, None, t);
    MergedMeans([], TagsWith(rows, Add), TagsWith(rows, Remove), t);
  }

  lemma CountsOfTwo(a: seq<Tag>, b: seq<Tag>, t: Tag)
    ensures CountOf([a, b], t) == (if t in a then 1 else 0) + if t in b then 1 else 0
  {
    assert [a, b][..1] == [a] && [a][..0] == [];
    assert CountOf([a], t) == CountOf([], t) + if t in a then 1 else 0;
  }

  /** Tags that stay on a recording keep their order, and come before the added ones. */
  lemma SavingKeepsOrder(tags: seq<Tag>, rows: seq<TagRow>, t: Tag, u: Tag)
    requires t in tags && t !in TagsWith(rows, Remove) && u !in TagsWith(rows, Remove) && Before(tags, t, u)
    ensures Before(After(tags, rows), t, u)
  {
    var remove := TagsWith(rows, Remove);
    KeptOrder(tags, remove, t, u);
    var kept := Remaining(tags, remove);
    var i, j :| 0 <= i < j < |kept| && kept[i] == t && kept[j] == u;
    MergedMeans(tags, TagsWith(rows, Add), remove, t);
    assert After(tags, rows)[i] == t && After(tags, rows)[j] == u;
  }

  // ---- Any dialog state ----

  /** A mixed row is kept exactly unless its tag was also typed and never clicked: then the typed row adds it. */
  lemma MixedRowIsKeptIff(initial: seq<TagRow>, d: Dialog, draft: Option<Tag>, entries: seq<seq<Tag>>, i: nat)
    requires RowsFor(initial, entries, |entries|)
    requires i < |SavedRows(initial, d, draft)| && SavedRows(initial, d, draft)[i].check == Mixed
    ensures var rows := SavedRows(initial, d, draft);
            (forall e :: 0 <= e < |entries| ==> Kept(rows[i], entries[e], After(entries[e], rows)))
            <==> !(rows[i].tag in d.newTags && rows[i].tag !in d.tagChecks)
  {
    RowsAreFound(initial, entries, |entries|);
    var rows := SavedRows(initial, d, draft);
    var t := rows[i].tag;
    RowShown(initial, d, draft, i);
    TagsWithMeans(rows, Add, t);
    TagsWithMeans(rows, Remove, t);
    if t in d.newTags && t !in d.tagChecks {
      TypedRowAdds(initial, d, draft, t);
      var e := NotOnThis(initial, d, draft, entries, i);
      MergedMeans(entries[e], TagsWith(rows, Add), TagsWith(rows, Remove), t);
      assert !Kept(rows[i], entries[e], After(entries[e], rows));
    } else {
      forall j | 0 <= j < |rows| && rows[j].tag == t ensures TagDelta(rows[j]) == Keep {
        RowShown(initial, d, draft, j);
      }
      forall e | 0 <= e < |entries| ensures Kept(rows[i], entries[e], After(entries[e], rows)) {
        MergedMeans(entries[e], TagsWith(rows, Add), TagsWith(rows, Remove), t);
      }
    }
  }

  /** A typed tag that was not clicked since is added. */
  lemma TypedRowAdds(initial: seq<TagRow>, d: Dialog, draft: Option<Tag>, t: Tag)
    requires t in d.newTags && t !in d.tagChecks
    ensures t in TagsWith(SavedRows(initial, d, draft), Add)
  {
    var rows := SavedRows(initial, d, draft);
    var k :| 0 <= k < |d.newTags| && d.newTags[k] == t;
    assert Rows(initial, d)[|initial| + k] == NewTagRow(t);
    assert rows[|initial| + k] == NewTagRow(t);
    TagsWithMeans(rows, Add, t);
    assert TagDelta(rows[|initial| + k]) == Add;
  }

  lemma {:induction false} Missing(entries: seq<seq<Tag>>, t: Tag) returns (e: nat)
    requires CountOf(entries, t) < |entries|
    ensures e < |entries| && t !in entries[e]
  {
    var n := |entries| - 1;
    if t in entries[n] {
      e := Missing(entries[..n], t);
    } else {
      e := n;
    }
  }

  /** A mixed, unclicked row is on some of the recordings but not on this one. */
  lemma NotOnThis(initial: seq<TagRow>, d: Dialog, draft: Option<Tag>, entries: seq<seq<Tag>>, i: nat) returns (e: nat)
    requires RowsFor(initial, entries, |entries|) && i < |SavedRows(initial, d, draft)|
    requires var row := SavedRows(initial, d, draft)[i]; row.check == Mixed && row.tag !in d.tagChecks
    ensures e < |entries| && SavedRows(initial, d, draft)[i].tag !in entries[e]
  {
    RowsAreFound(initial, entries, |entries|);
    RowShown(initial, d, draft, i);
    var rows := Rows(initial, d);
    assert i < |initial|;
    assert rows[i] == Edited(initial[i], d.tagChecks);
    assert IsRow(initial[i], entries, |entries|);
    e := Missing(entries, initial[i].tag);
  }
}
