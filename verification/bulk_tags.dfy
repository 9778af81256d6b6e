/** Bulk tag editing: the rows of the dialog, its clicks and typed tags, and the request it saves (`bulk-tags.ts` and
    the state of `bulk-meta-edit-dialog.tsx`). */
module BulkTags {
  import opened Wrappers

  type Name(==,!new)

  /** A tag; `collation` is its place in the locale's order. */
  datatype Tag = Tag(name: Name, collation: int)

  datatype Presence = OnAll | OnSome | OnNone

  datatype Check = Checked | Mixed | Unchecked

  datatype TagRow = TagRow(tag: Tag, count: nat, presence: Presence, check: Check)

  // ---- Rows found on the recordings ----

  /** How many recordings carry the tag. */
  function CountOf(entries: seq<seq<Tag>>, t: Tag): (n: nat)
    ensures n <= |entries|
  {
    if entries == [] then 0
    else CountOf(entries[..|entries| - 1], t) + if t in entries[|entries| - 1] then 1 else 0
  }

  function CheckOf(presence: Presence): Check { if presence == OnAll then Checked else Mixed }

  predicate Distinct(tags: seq<Tag>) { forall i, j :: 0 <= i < j < |tags| ==> tags[i] != tags[j] }

  function TagsOf(rows: seq<TagRow>): (r: seq<Tag>)
    ensures |r| == |rows| && forall i :: 0 <= i < |r| ==> r[i] == rows[i].tag
  {
    seq(|rows|, i requires 0 <= i < |rows| => rows[i].tag)
  }

  /** One row per tag found, stating on how many of the `total` selected recordings it is. */
  ghost predicate RowsFor(rows: seq<TagRow>, entries: seq<seq<Tag>>, total: nat) {
    && Distinct(TagsOf(rows))
    && (forall t :: t in TagsOf(rows) <==> CountOf(entries, t) > 0)
    && forall i :: 0 <= i < |rows| ==> IsRow(rows[i], entries, total)
  }

  ghost predicate IsRow(row: TagRow, entries: seq<seq<Tag>>, total: nat) {
    && row.count == CountOf(entries, row.tag) > 0
    && row.presence == (if row.count == total then OnAll else OnSome)
    && row.check == CheckOf(row.presence)
  }

  /** Most common first, ties by name. */
  predicate Precedes(a: TagRow, b: TagRow) {
    a.count > b.count || (a.count == b.count && a.tag.collation <= b.tag.collation)
  }

  /** Most common first, ties by name: no row is less common than, or as common as and named after, one below it. */
  ghost predicate Ranked(rows: seq<TagRow>) {
    forall i, j :: 0 <= i < j < |rows| ==>
      && rows[i].count >= rows[j].count
      && (rows[i].count == rows[j].count ==> rows[i].tag.collation <= rows[j].tag.collation)
  }

  function Insert(row: TagRow, rows: seq<TagRow>): seq<TagRow> {
    if rows == [] || Precedes(row, rows[0]) then [row] + rows else [rows[0]] + Insert(row, rows[1..])
  }

  /** The stable sort of the rows. */
  function Sort(rows: seq<TagRow>): seq<TagRow> {
    if rows == [] then [] else Insert(rows[0], Sort(rows[1..]))
  }

  lemma {:induction false} InsertBound(row: TagRow, rows: seq<TagRow>, first: TagRow)
    requires Precedes(first, row) && forall k :: 0 <= k < |rows| ==> Precedes(first, rows[k])
    ensures forall k :: 0 <= k < |Insert(row, rows)| ==> Precedes(first, Insert(row, rows)[k])
  {
    if rows == [] || Precedes(row, rows[0]) {
    } else {
      InsertBound(row, rows[1..], first);
    }
  }

  lemma {:induction false} InsertContents(row: TagRow, rows: seq<TagRow>)
    ensures multiset(Insert(row, rows)) == multiset(rows) + multiset{row} && |Insert(row, rows)| == |rows| + 1
  {
    if rows == [] || Precedes(row, rows[0]) {
    } else {
      InsertContents(row, rows[1..]);
      assert rows == [rows[0]] + rows[1..];
    }
  }

  lemma {:induction false} InsertRanked(row: TagRow, rows: seq<TagRow>)
    requires Ranked(rows)
    ensures Ranked(Insert(row, rows))
  {
    if rows == [] || Precedes(row, rows[0]) {
    } else {
      InsertRanked(row, rows[1..]);
      InsertBound(row, rows[1..], rows[0]);
    }
  }

  lemma {:induction false} SortContents(rows: seq<TagRow>)
    ensures multiset(Sort(rows)) == multiset(rows) && |Sort(rows)| == |rows|
  {
    if rows != [] {
      SortContents(rows[1..]);
      InsertContents(rows[0], Sort(rows[1..]));
      assert rows == [rows[0]] + rows[1..];
    }
  }

  lemma {:induction false} SortRanked(rows: seq<TagRow>)
    ensures Ranked(Sort(rows)) && multiset(Sort(rows)) == multiset(rows) && |Sort(rows)| == |rows|
  {
    SortContents(rows);
    if rows != [] {
      SortRanked(rows[1..]);
      InsertRanked(rows[0], Sort(rows[1..]));
    }
  }

  /** `new Set(tags)` in insertion order. */
  function Dedupe(tags: seq<Tag>): (r: seq<Tag>)
    ensures Distinct(r) && forall t :: t in r <==> t in tags
  {
    if tags == [] then []
    else
      assert tags == tags[..|tags| - 1] + [tags[|tags| - 1]];
      var init := Dedupe(tags[..|tags| - 1]);
      if tags[|tags| - 1] in init then init else init + [tags[|tags| - 1]]
  }

  /** `counts` holds, in insertion order, each tag found so far with the number of recordings it is on. */
  ghost predicate Counts(order: seq<Tag>, counts: map<Tag, nat>, entries: seq<seq<Tag>>, more: seq<Tag>) {
    && Distinct(order)
    && (forall t :: t in order <==> t in counts)
    && (forall t :: t in counts <==> CountOf(entries, t) > 0 || t in more)
    && forall t :: t in counts ==> counts[t] == CountOf(entries, t) + if t in more then 1 else 0
  }

  lemma CountOneMore(order: seq<Tag>, counts: map<Tag, nat>, entries: seq<seq<Tag>>, more: seq<Tag>, tag: Tag)
    requires Counts(order, counts, entries, more) && tag !in more
    ensures Counts(if tag in counts then order else order + [tag],
                   counts[tag := (if tag in counts then counts[tag] else 0) + 1], entries, more + [tag])
  {
  }

  lemma CountsOfNext(order: seq<Tag>, counts: map<Tag, nat>, entries: seq<seq<Tag>>, i: nat)
    requires i < |entries| && Counts(order, counts, entries[..i], Dedupe(entries[i]))
    ensures Counts(order, counts, entries[..i + 1], [])
  {
    assert entries[..i + 1][..i] == entries[..i];
    forall t
      ensures CountOf(entries[..i + 1], t) == CountOf(entries[..i], t) + if t in Dedupe(entries[i]) then 1 else 0
    {
    }
  }

  method CountTags(entries: seq<seq<Tag>>) returns (order: seq<Tag>, counts: map<Tag, nat>)
    ensures Counts(order, counts, entries, [])
  {
    order, counts := [], map[];
    for i := 0 to |entries|
      invariant Counts(order, counts, entries[..i], [])
    {
      var tags := Dedupe(entries[i]);
      for j := 0 to |tags|
        invariant Counts(order, counts, entries[..i], tags[..j])
      {
        CountOneMore(order, counts, entries[..i], tags[..j], tags[j]);
        assert tags[..j] + [tags[j]] == tags[..j + 1];
        if tags[j] !in counts {
          order := order + [tags[j]];
        }
        counts := counts[tags[j] := (if tags[j] in counts then counts[tags[j]] else 0) + 1];
      }
      assert tags[..|tags|] == tags;
      CountsOfNext(order, counts, entries, i);
    }
    assert entries[..|entries|] == entries;
  }

  function FoundRow(tag: Tag, count: nat, total: nat): TagRow {
    var presence := if count == total then OnAll else OnSome;
    TagRow(tag, count, presence, CheckOf(presence))
  }

  /** `buildTagRows`. */
  method BuildTagRows(entries: seq<seq<Tag>>, total: nat) returns (rows: seq<TagRow>)
    ensures RowsFor(rows, entries, total) && Ranked(rows)
  {
    var order, counts := CountTags(entries);
    var found :=
      seq(|order|, i requires 0 <= i < |order| && order[i] in counts => FoundRow(order[i], counts[order[i]], total));
    rows := Sort(found);
    SortRanked(found);
    SortedRowsFor(found, rows, order, counts, entries, total);
  }

  lemma SortedRowsFor(found: seq<TagRow>, rows: seq<TagRow>, order: seq<Tag>, counts: map<Tag, nat>,
                      entries: seq<seq<Tag>>, total: nat)
    requires Counts(order, counts, entries, []) && |found| == |order|
    requires forall i :: 0 <= i < |order| ==>
             order[i] in counts && found[i] == FoundRow(order[i], counts[order[i]], total)
    requires multiset(rows) == multiset(found) && |rows| == |found|
    ensures RowsFor(rows, entries, total)
  {
    forall i | 0 <= i < |rows| ensures rows[i].tag in order && IsRow(rows[i], entries, total) {
      assert rows[i] in multiset(found);
      var k :| 0 <= k < |found| && found[k] == rows[i];
      assert order[k] in order;
    }
    forall t | t in order ensures t in TagsOf(rows) {
      var k :| 0 <= k < |order| && order[k] == t;
      assert found[k] in multiset(rows);
      var i :| 0 <= i < |rows| && rows[i] == found[k];
      assert TagsOf(rows)[i] == t;
    }
    DistinctRows(found, rows, order);
  }

  /** Rearranging rows with distinct tags leaves the tags distinct. */
  lemma DistinctRows(found: seq<TagRow>, rows: seq<TagRow>, order: seq<Tag>)
    requires Distinct(order) && |found| == |order| && forall i :: 0 <= i < |order| ==> found[i].tag == order[i]
    requires multiset(rows) == multiset(found)
    ensures Distinct(TagsOf(rows))
  {
    forall i, j | 0 <= i < j < |rows| ensures rows[i].tag != rows[j].tag {
      assert rows[i] in multiset(found) && rows[j] in multiset(found);
      var k :| 0 <= k < |found| && found[k] == rows[i];
      var l :| 0 <= l < |found| && found[l] == rows[j];
      if k == l {
        OnceIn(found, k);
        TwiceIn(rows, i, j);
      }
    }
  }

  lemma {:induction false} OnceIn(found: seq<TagRow>, k: nat)
    requires k < |found| && forall i, j :: 0 <= i < j < |found| ==> found[i].tag != found[j].tag
    ensures multiset(found)[found[k]] == 1
  {
    assert found == found[..k] + [found[k]] + found[k + 1..];
    assert found[k] !in found[..k] && found[k] !in found[k + 1..];
  }

  lemma TwiceIn(rows: seq<TagRow>, i: nat, j: nat)
    requires i < j < |rows| && rows[i] == rows[j]
    ensures multiset(rows)[rows[i]] >= 2
  {
    assert rows == rows[..j] + [rows[j]] + rows[j + 1..];
    assert rows[i] == rows[..j][i];
    assert rows[i] in rows[..j];
  }

  // ---- Edits ----

  function NewTagRow(tag: Tag): TagRow { TagRow(tag, 0, OnNone, Checked) }

  predicate HasTag(rows: seq<TagRow>, tag: Tag) {
    rows != [] && (rows[|rows| - 1].tag == tag || HasTag(rows[..|rows| - 1], tag))
  }

  function CheckRow(row: TagRow, tag: Tag): TagRow { if row.tag == tag then row.(check := Checked) else row }

  /** `withTagChecked`. */
  function WithTagChecked(rows: seq<TagRow>, tag: Tag): seq<TagRow> {
    if HasTag(rows, tag) then seq(|rows|, i requires 0 <= i < |rows| => CheckRow(rows[i], tag))
    else rows + [NewTagRow(tag)]
  }

  /** `cycleTagCheck`. */
  function CycleTagCheck(row: TagRow): Check {
    if row.presence == OnSome then
      if row.check == Mixed then Checked
      else if row.check == Checked then Unchecked
      else Mixed
    else if row.check == Checked then Unchecked
    else Checked
  }

  datatype Delta = Add | Remove | Keep

  /** `tagDelta`. */
  function TagDelta(row: TagRow): Delta {
    if row.check == Checked && row.presence != OnAll then Add
    else if row.check == Unchecked && row.presence != OnNone then Remove
    else Keep
  }

  /** The tags of the rows with this delta, in row order: one half of `tagRequest`. */
  function TagsWith(rows: seq<TagRow>, delta: Delta): seq<Tag> {
    if rows == [] then []
    else
      var last := rows[|rows| - 1];
      TagsWith(rows[..|rows| - 1], delta) + if TagDelta(last) == delta then [last.tag] else []
  }

  // ---- The dialog ----

  /** The clicks and typed tags kept apart from the rows derived from the server. */
  datatype Dialog = Dialog(tagChecks: map<Tag, Check>, newTags: seq<Tag>)

  const OPENED := Dialog(map[], [])

  function Edited(row: TagRow, checks: map<Tag, Check>): TagRow {
    row.(check := if row.tag in checks then checks[row.tag] else row.check)
  }

  /** The rows shown: those found on the recordings, then the typed ones. */
  function Rows(initial: seq<TagRow>, d: Dialog): seq<TagRow> {
    seq(|initial|, i requires 0 <= i < |initial| => Edited(initial[i], d.tagChecks)) +
    seq(|d.newTags|, i requires 0 <= i < |d.newTags| => Edited(NewTagRow(d.newTags[i]), d.tagChecks))
  }

  /** The rows saved: a tag still being typed counts as added. */
  function SavedRows(initial: seq<TagRow>, d: Dialog, draft: Option<Tag>): seq<TagRow> {
    if draft.Some? then WithTagChecked(Rows(initial, d), draft.value) else Rows(initial, d)
  }

  /** The first row of a tag. */
  function Find(rows: seq<TagRow>, tag: Tag): (r: Option<TagRow>)
    ensures r.Some? ==> r.value in rows && r.value.tag == tag
    ensures r.None? <==> forall i :: 0 <= i < |rows| ==> rows[i].tag != tag
  {
    if rows == [] then None else if rows[0].tag == tag then Some(rows[0]) else Find(rows[1..], tag)
  }

  /** An open dialog: the selected recordings' tags as last fetched, the rows found on them, and the edits. */
  datatype Session = Session(entries: seq<seq<Tag>>, initial: seq<TagRow>, dialog: Dialog)

  function Open(entries: seq<seq<Tag>>, initial: seq<TagRow>): Session { Session(entries, initial, OPENED) }

  datatype Event =
    | Toggle(tag: Tag)
    | Typed(tag: Tag)
    | Refetched(entries: seq<seq<Tag>>, rows: seq<TagRow>)

  /** What a click on a row, a committed draft or a background refetch does: only the latter changes the rows found, and
      it keeps the edits. */
  function Handle(s: Session, event: Event): Session {
    match event
    case Toggle(tag) =>
      var row := Find(Rows(s.initial, s.dialog), tag);
      if row.Some? then s.(dialog := s.dialog.(tagChecks := s.dialog.tagChecks[tag := CycleTagCheck(row.value)])) else s
    case Typed(tag) =>
      if HasTag(Rows(s.initial, s.dialog), tag) then
        s.(dialog := s.dialog.(tagChecks := s.dialog.tagChecks[tag := Checked]))
      else
        s.(dialog := s.dialog.(newTags := s.dialog.newTags + [tag]))
    case Refetched(entries, rows) => s.(entries := entries, initial := rows)
  }

  function HandleAll(s: Session, events: seq<Event>): Session
    decreases |events|
  {
    if events == [] then s else HandleAll(Handle(s, events[0]), events[1..])
  }

  /** A refetch brings the rows of what it fetched. */
  ghost predicate Fetched(event: Event) { event.Refetched? ==> RowsFor(event.rows, event.entries, |event.entries|) }

  lemma {:induction false} HasTagMeans(rows: seq<TagRow>, tag: Tag)
    ensures HasTag(rows, tag) <==> exists i :: 0 <= i < |rows| && rows[i].tag == tag
  {
    if rows != [] {
      var n := |rows| - 1;
      HasTagMeans(rows[..n], tag);
      if HasTag(rows[..n], tag) {
        var i :| 0 <= i < n && rows[..n][i].tag == tag;
        assert rows[i].tag == tag;
      }
    }
  }

  lemma {:induction false} TagsWithMeans(rows: seq<TagRow>, delta: Delta, t: Tag)
    ensures t in TagsWith(rows, delta) <==>
            exists i :: 0 <= i < |rows| && rows[i].tag == t && TagDelta(rows[i]) == delta
  {
    if rows != [] {
      var n := |rows| - 1;
      TagsWithMeans(rows[..n], delta, t);
      if t in TagsWith(rows[..n], delta) {
        var i :| 0 <= i < n && rows[..n][i].tag == t && TagDelta(rows[..n][i]) == delta;
        assert rows[i].tag == t && TagDelta(rows[i]) == delta;
      }
    }
  }
}
