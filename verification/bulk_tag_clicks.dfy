/** What clicks and typed tags do to the rows of the dialog, and what saving right after them does. */
module BulkTagClicks {
  import opened Wrappers
  import opened BulkTags
  import opened BulkTagTheorems
  import opened RecordingMetas

  function RowsOf(s: Session): seq<TagRow> { Rows(s.initial, s.dialog) }

  /** Row `i` is the first with its tag. */
  ghost predicate First(rows: seq<TagRow>, i: nat) {
    i < |rows| && forall j :: 0 <= j < i ==> rows[j].tag != rows[i].tag
  }

  lemma {:induction false} FindsFirst(rows: seq<TagRow>, i: nat)
    requires First(rows, i)
    ensures Find(rows, rows[i].tag) == Some(rows[i])
  {
    if i > 0 { FindsFirst(rows[1..], i - 1); }
  }

  /** The rows with the check of one tag replaced. */
  ghost predicate ChecksOnly(before: seq<TagRow>, after: seq<TagRow>, tag: Tag, check: Check) {
    && |after| == |before|
    && forall i :: 0 <= i < |before| ==>
         after[i] == if before[i].tag == tag then before[i].(check := check) else before[i]
  }

  lemma ChecksSet(initial: seq<TagRow>, d: Dialog, tag: Tag, check: Check)
    ensures ChecksOnly(Rows(initial, d), Rows(initial, d.(tagChecks := d.tagChecks[tag := check])), tag, check)
  {
  }

  /** The opposite of checked is unchecked; what is not checked becomes checked. */
  function Flipped(check: Check): Check { if check == Checked then Unchecked else Checked }

  /** A click on a row changes the checks of its tag and nothing else: a row on some recordings moves from mixed to
      checked to unchecked to mixed, any other row flips. */
  lemma ToggleMeans(s: Session, i: nat)
    requires First(RowsOf(s), i)
    ensures var rows, t := RowsOf(s), Handle(s, Toggle(RowsOf(s)[i].tag));
            && t.entries == s.entries && t.initial == s.initial && t.dialog.newTags == s.dialog.newTags
            && ChecksOnly(rows, RowsOf(t), rows[i].tag, RowsOf(t)[i].check)
            && First(RowsOf(t), i) && RowsOf(t)[i].check != rows[i].check
            && (rows[i].presence != OnSome ==> RowsOf(t)[i].check == Flipped(rows[i].check))
            && (rows[i].presence == OnSome && rows[i].check == Mixed ==> RowsOf(t)[i].check == Checked)
            && (rows[i].presence == OnSome && rows[i].check == Checked ==> RowsOf(t)[i].check == Unchecked)
            && (rows[i].presence == OnSome && rows[i].check == Unchecked ==> RowsOf(t)[i].check == Mixed)
  {
    var row := RowsOf(s)[i];
    FindsFirst(RowsOf(s), i);
    ChecksSet(s.initial, s.dialog, row.tag, CycleTagCheck(row));
  }

  /** A click on a tag that has no row does nothing. */
  lemma ToggleWithoutRow(s: Session, tag: Tag)
    requires !HasTag(RowsOf(s), tag)
    ensures Handle(s, Toggle(tag)) == s
  {
    HasTagMeans(RowsOf(s), tag);
  }

  /** `n` clicks on one row. */
  function Clicks(tag: Tag, n: nat): seq<Event> { if n == 0 then [] else [Toggle(tag)] + Clicks(tag, n - 1) }

  function Clicked(s: Session, tag: Tag, n: nat): Session { HandleAll(s, Clicks(tag, n)) }

  lemma ClickedOnce(s: Session, tag: Tag, n: nat)
    requires n > 0
    ensures Clicked(s, tag, n) == Clicked(Handle(s, Toggle(tag)), tag, n - 1)
  {
    assert Clicks(tag, n)[1..] == Clicks(tag, n - 1);
  }

  lemma SeveralClicks(s: Session, tag: Tag)
    ensures var one := Handle(s, Toggle(tag)); var two := Handle(one, Toggle(tag));
            Clicked(s, tag, 1) == one && Clicked(s, tag, 2) == two && Clicked(s, tag, 3) == Handle(two, Toggle(tag))
  {
    var one := Handle(s, Toggle(tag));
    var two := Handle(one, Toggle(tag));
    ClickedOnce(s, tag, 1);
    ClickedOnce(s, tag, 2);
    ClickedOnce(s, tag, 3);
    ClickedOnce(one, tag, 1);
    ClickedOnce(one, tag, 2);
    ClickedOnce(two, tag, 1);
  }

  /** A row found on all recordings, or typed new, shows the other check after one click and the first again after two.
      */
  lemma TwoClicksRestore(s: Session, i: nat)
    requires First(RowsOf(s), i) && RowsOf(s)[i].presence != OnSome && RowsOf(s)[i].check != Mixed
    ensures var tag := RowsOf(s)[i].tag;
            && ChecksOnly(RowsOf(s), RowsOf(Clicked(s, tag, 1)), tag, Flipped(RowsOf(s)[i].check))
            && ChecksOnly(RowsOf(s), RowsOf(Clicked(s, tag, 2)), tag, RowsOf(s)[i].check)
  {
    var tag := RowsOf(s)[i].tag;
    SeveralClicks(s, tag);
    ToggleMeans(s, i);
    ToggleMeans(Handle(s, Toggle(tag)), i);
  }

  /** A row on some recordings shows checked after one click from mixed, unchecked after two and mixed after three. */
  lemma ThreeClicksRestore(s: Session, i: nat)
    requires First(RowsOf(s), i) && RowsOf(s)[i].presence == OnSome && RowsOf(s)[i].check == Mixed
    ensures var row := RowsOf(s)[i];
            && ChecksOnly(RowsOf(s), RowsOf(Clicked(s, row.tag, 1)), row.tag, Checked)
            && ChecksOnly(RowsOf(s), RowsOf(Clicked(s, row.tag, 2)), row.tag, Unchecked)
            && ChecksOnly(RowsOf(s), RowsOf(Clicked(s, row.tag, 3)), row.tag, Mixed)
  {
    var tag := RowsOf(s)[i].tag;
    var one := Handle(s, Toggle(tag));
    SeveralClicks(s, tag);
    ToggleMeans(s, i);
    ToggleMeans(one, i);
    ToggleMeans(Handle(one, Toggle(tag)), i);
  }

  // ---- Clicks and then Save ----

  /** The rows of a dialog just opened. */
  lemma OpenRows(entries: seq<seq<Tag>>, initial: seq<TagRow>, i: nat)
    requires RowsFor(initial, entries, |entries|) && i < |initial|
    ensures var s := Open(entries, initial);
            && RowsOf(s) == initial && First(initial, i)
            && initial[i].presence != OnNone && initial[i].check == CheckOf(initial[i].presence)
  {
    assert RowsOf(Open(entries, initial)) == initial;
    assert IsRow(initial[i], entries, |entries|);
    forall j | 0 <= j < i ensures initial[j].tag != initial[i].tag {
      assert TagsOf(initial)[j] != TagsOf(initial)[i];
    }
  }

  /** One click on an untouched row, then Save: a tag that was on all recordings is on none, one that was on some is on
      all. */
  lemma OneClickThenSave(entries: seq<seq<Tag>>, initial: seq<TagRow>, i: nat, e: nat)
    requires RowsFor(initial, entries, |entries|) && i < |initial| && e < |entries|
    ensures var s := Handle(Open(entries, initial), Toggle(initial[i].tag));
            initial[i].tag in After(entries[e], SavedRows(s.initial, s.dialog, None)) <==> initial[i].presence == OnSome
  {
    var s0 := Open(entries, initial);
    var s := Handle(s0, Toggle(initial[i].tag));
    OpenRows(entries, initial, i);
    ToggleMeans(s0, i);
    CheckedOnAllUncheckedOnNone(initial, s.dialog, None, entries, i, e);
  }

  /** Two clicks on an untouched row: a tag that was on all stays on all, one that was on some is on none. */
  lemma TwoClicksThenSave(entries: seq<seq<Tag>>, initial: seq<TagRow>, i: nat, e: nat)
    requires RowsFor(initial, entries, |entries|) && i < |initial| && e < |entries|
    ensures var s := Clicked(Open(entries, initial), initial[i].tag, 2);
            initial[i].tag in After(entries[e], SavedRows(s.initial, s.dialog, None)) <==> initial[i].presence == OnAll
  {
    var s0 := Open(entries, initial);
    var one := Handle(s0, Toggle(initial[i].tag));
    OpenRows(entries, initial, i);
    SeveralClicks(s0, initial[i].tag);
    ToggleMeans(s0, i);
    ToggleMeans(one, i);
    CheckedOnAllUncheckedOnNone(initial, Clicked(s0, initial[i].tag, 2).dialog, None, entries, i, e);
  }

  // ---- Typed tags ----

  /** Every row of the tag is checked, and there is one. */
  ghost predicate ShownChecked(rows: seq<TagRow>, tag: Tag) {
    && (exists i :: 0 <= i < |rows| && rows[i].tag == tag)
    && forall i :: 0 <= i < |rows| && rows[i].tag == tag ==> rows[i].check == Checked
  }

  /** The rows of other tags stay as they are and in place. */
  ghost predicate OthersStay(before: seq<TagRow>, after: seq<TagRow>, tag: Tag) {
    && |before| <= |after|
    && (forall i :: 0 <= i < |before| ==>
          after[i].tag == before[i].tag && (before[i].tag != tag ==> after[i] == before[i]))
    && forall i :: |before| <= i < |after| ==> after[i].tag == tag
  }

  /** A typed tag is shown checked exactly unless it has no row but an earlier click left it another check, which a
      refetch can bring about; no other row changes. */
  lemma TypedIsCheckedIff(s: Session, tag: Tag)
    ensures var t := Handle(s, Typed(tag));
            && OthersStay(RowsOf(s), RowsOf(t), tag)
            && (ShownChecked(RowsOf(t), tag) <==>
                  HasTag(RowsOf(s), tag) || tag !in s.dialog.tagChecks || s.dialog.tagChecks[tag] == Checked)
  {
    var rows, t := RowsOf(s), Handle(s, Typed(tag));
    HasTagMeans(rows, tag);
    if HasTag(rows, tag) {
      ChecksSet(s.initial, s.dialog, tag, Checked);
      var i :| 0 <= i < |rows| && rows[i].tag == tag;
      assert RowsOf(t)[i].tag == tag;
    } else {
      TypedAppends(s, tag);
      assert RowsOf(t)[|rows|].tag == tag;
    }
  }

  lemma TypedAppends(s: Session, tag: Tag)
    requires !HasTag(RowsOf(s), tag)
    ensures RowsOf(Handle(s, Typed(tag))) == RowsOf(s) + [Edited(NewTagRow(tag), s.dialog.tagChecks)]
  {
  }

  /** Every clicked tag has a row. */
  ghost predicate ClicksHaveRows(s: Session) {
    forall tag :: tag in s.dialog.tagChecks ==> tag in TagsOf(RowsOf(s))
  }

  lemma InTags(rows: seq<TagRow>, tag: Tag)
    ensures tag in TagsOf(rows) <==> HasTag(rows, tag)
  {
    HasTagMeans(rows, tag);
    if HasTag(rows, tag) {
      var i :| 0 <= i < |rows| && rows[i].tag == tag;
      assert TagsOf(rows)[i] == tag;
    }
  }

  lemma EditKeepsClicks(s: Session, event: Event)
    requires ClicksHaveRows(s) && !event.Refetched?
    ensures ClicksHaveRows(Handle(s, event))
  {
    var t := Handle(s, event);
    TagsOfRows(s.initial, s.dialog);
    TagsOfRows(t.initial, t.dialog);
    InTags(RowsOf(s), event.tag);
    if event.Toggle? {
      var row := Find(RowsOf(s), event.tag);
      if row.Some? { assert row.value in RowsOf(s); HasTagMeans(RowsOf(s), event.tag); }
    } else if !HasTag(RowsOf(s), event.tag) {
      assert TagsOf(RowsOf(t)) == TagsOf(RowsOf(s)) + [event.tag];
    }
  }

  lemma {:induction false} EditsKeepClicks(s: Session, events: seq<Event>)
    requires ClicksHaveRows(s) && forall k :: 0 <= k < |events| ==> !events[k].Refetched?
    ensures ClicksHaveRows(HandleAll(s, events))
    decreases |events|
  {
    if events != [] {
      EditKeepsClicks(s, events[0]);
      EditsKeepClicks(Handle(s, events[0]), events[1..]);
    }
  }

  /** While the list is not fetched again, a typed tag is always shown checked. */
  lemma TypedIsChecked(entries: seq<seq<Tag>>, initial: seq<TagRow>, events: seq<Event>, tag: Tag)
    requires forall k :: 0 <= k < |events| ==> !events[k].Refetched?
    ensures var s := HandleAll(Open(entries, initial), events);
            ShownChecked(RowsOf(Handle(s, Typed(tag))), tag)
  {
    EditsKeepClicks(Open(entries, initial), events);
    var s := HandleAll(Open(entries, initial), events);
    InTags(RowsOf(s), tag);
    TypedIsCheckedIff(s, tag);
  }

  /** A tag that was unchecked, vanished from the fetched list and is typed again is shown unchecked. */
  lemma TypedAgainIsUnchecked(t: Tag)
    ensures var events := [Toggle(t), Refetched([[]], []), Typed(t)];
            var s := HandleAll(Open([[t]], [TagRow(t, 1, OnAll, Checked)]), events);
            && RowsFor([TagRow(t, 1, OnAll, Checked)], [[t]], 1) && Fetched(events[1])
            && RowsOf(s) == [TagRow(t, 0, OnNone, Unchecked)]
            && t !in After([], SavedRows(s.initial, s.dialog, None))
  {
    var found := TagRow(t, 1, OnAll, Checked);
    var a, b, c := Toggle(t), Refetched([[]], []), Typed(t);
    var s0 := Open([[t]], [found]);
    var checks := map[t := Unchecked];
    var s1 := Session([[t]], [found], Dialog(checks, []));
    var s2 := Session([[]], [], Dialog(checks, []));
    var s3 := Session([[]], [], Dialog(checks, [t]));
    OneTagFound(t);
    FirstClick(t);
    assert Handle(s1, b) == s2 && RowsOf(s2) == [] && Handle(s2, c) == s3;
    assert [a, b, c][1..] == [b, c] && [b, c][1..] == [c] && [c][1..] == [];
    assert HandleAll(s0, [a, b, c]) == HandleAll(s1, [b, c]) == HandleAll(s2, [c]) == HandleAll(s3, []) == s3;
    UncheckedIsNotAdded(t, s3);
  }

  lemma OneTagFound(t: Tag)
    ensures RowsFor([TagRow(t, 1, OnAll, Checked)], [[t]], 1) && RowsFor([], [[]], 1)
  {
    var found := TagRow(t, 1, OnAll, Checked);
    CountsOfOne([t], t);
    forall u ensures u in TagsOf([found]) <==> CountOf([[t]], u) > 0 {
      CountsOfOne([t], u);
      assert TagsOf([found])[0] == t;
    }
    forall u ensures u in TagsOf([]) <==> CountOf([[]], u) > 0 { CountsOfOne([], u); }
  }

  lemma FirstClick(t: Tag)
    ensures var found := TagRow(t, 1, OnAll, Checked);
            Handle(Open([[t]], [found]), Toggle(t)) == Session([[t]], [found], Dialog(map[t := Unchecked], []))
  {
    var s := Open([[t]], [TagRow(t, 1, OnAll, Checked)]);
    assert RowsOf(s) == [TagRow(t, 1, OnAll, Checked)];
    FindsFirst(RowsOf(s), 0);
  }

  lemma UncheckedIsNotAdded(t: Tag, s: Session)
    requires s == Session([[]], [], Dialog(map[t := Unchecked], [t]))
    ensures RowsOf(s) == [TagRow(t, 0, OnNone, Unchecked)]
    ensures t !in After([], SavedRows(s.initial, s.dialog, None))
  {
    var rows := SavedRows(s.initial, s.dialog, None);
    NothingToAdd(t);
    assert RowsOf(s) == [Edited(NewTagRow(t), s.dialog.tagChecks)];
    assert rows == [TagRow(t, 0, OnNone, Unchecked)];
    MergedMeans([], TagsWith(rows, Add), TagsWith(rows, Remove), t);
  }

  lemma NothingToAdd(t: Tag)
    ensures TagsWith([TagRow(t, 0, OnNone, Unchecked)], Add) == []
  {
    assert [TagRow(t, 0, OnNone, Unchecked)][..0] == [];
  }

  lemma CountsOfOne(a: seq<Tag>, t: Tag)
    ensures CountOf([a], t) == if t in a then 1 else 0
  {
    assert [a][..0] == [];
  }

  /** Whatever the rows, a tag still being typed when Save is pressed ends on every recording. */
  lemma DraftIsAdded(initial: seq<TagRow>, d: Dialog, draft: Tag, entries: seq<seq<Tag>>, e: nat)
    requires RowsFor(initial, entries, |entries|) && e < |entries|
    ensures draft in After(entries[e], SavedRows(initial, d, Some(draft)))
  {
    var rows, saved := Rows(initial, d), SavedRows(initial, d, Some(draft));
    HasTagMeans(rows, draft);
    var i: nat;
    if HasTag(rows, draft) { i :| 0 <= i < |rows| && rows[i].tag == draft; } else { i := |rows|; }
    assert saved[i].tag == draft && saved[i].check == Checked;
    CheckedOnAllUncheckedOnNone(initial, d, Some(draft), entries, i, e);
  }
}
