/** The partial update of a recording's meta in `meta.py` and the request it comes with. */
module RecordingMetas {
  import opened BulkTags

  type Key(==,!new)
  type Value(==,!new)

  datatype RecordingMeta = RecordingMeta(tags: seq<Tag>, metadata: map<Key, Value>)

  /** The tags that are not removed, in their order. */
  function Remaining(tags: seq<Tag>, remove: seq<Tag>): seq<Tag> {
    if tags == [] then []
    else Remaining(tags[..|tags| - 1], remove) + if tags[|tags| - 1] in remove then [] else [tags[|tags| - 1]]
  }

  /** Each tag appended unless it is already there. */
  function Appended(tags: seq<Tag>, add: seq<Tag>): (r: seq<Tag>)
    ensures tags <= r
    ensures forall t :: t in r <==> t in tags || t in add
  {
    if add == [] then tags
    else
      var n := |add| - 1;
      var init := Appended(tags, add[..n]);
      assert add == add[..n] + [add[n]];
      if add[n] in init then init else init + [add[n]]
  }

  function Merged(tags: seq<Tag>, add: seq<Tag>, remove: seq<Tag>): seq<Tag> { Appended(Remaining(tags, remove), add) }

  lemma {:induction false} RemainingMeans(tags: seq<Tag>, remove: seq<Tag>, t: Tag)
    ensures t in Remaining(tags, remove) <==> t in tags && t !in remove
  {
    if tags != [] {
      var n := |tags| - 1;
      RemainingMeans(tags[..n], remove, t);
      assert tags == tags[..n] + [tags[n]];
    }
  }

  /** A tag is on the recording afterwards exactly when it is added, or was there and is not removed; the kept tags come
      first, in their old order. */
  lemma MergedMeans(tags: seq<Tag>, add: seq<Tag>, remove: seq<Tag>, t: Tag)
    ensures t in Merged(tags, add, remove) <==> t in add || (t in tags && t !in remove)
    ensures Remaining(tags, remove) <= Merged(tags, add, remove)
  {
    RemainingMeans(tags, remove, t);
  }

  lemma {:induction false} RemainingDistinct(tags: seq<Tag>, remove: seq<Tag>)
    requires Distinct(tags)
    ensures Distinct(Remaining(tags, remove))
  {
    if tags != [] {
      var n := |tags| - 1;
      RemainingDistinct(tags[..n], remove);
      RemainingMeans(tags[..n], remove, tags[n]);
    }
  }

  lemma {:induction false} AppendedDistinct(tags: seq<Tag>, add: seq<Tag>)
    requires Distinct(tags)
    ensures Distinct(Appended(tags, add))
  {
    if add != [] { AppendedDistinct(tags, add[..|add| - 1]); }
  }

  /** A recording without repeated tags has none afterwards, even if the request repeats one. */
  lemma MergedDistinct(tags: seq<Tag>, add: seq<Tag>, remove: seq<Tag>)
    requires Distinct(tags)
    ensures Distinct(Merged(tags, add, remove))
  {
    RemainingDistinct(tags, remove);
    AppendedDistinct(Remaining(tags, remove), add);
  }

  /** Removing leaves a subsequence: two kept tags keep their order. */
  ghost predicate Before(tags: seq<Tag>, t: Tag, u: Tag) {
    exists i, j :: 0 <= i < j < |tags| && tags[i] == t && tags[j] == u
  }

  lemma {:induction false} KeptOrder(tags: seq<Tag>, remove: seq<Tag>, t: Tag, u: Tag)
    requires t !in remove && u !in remove
    ensures Before(tags, t, u) <==> Before(Remaining(tags, remove), t, u)
  {
    if tags != [] {
      var n := |tags| - 1;
      KeptOrder(tags[..n], remove, t, u);
      RemainingMeans(tags[..n], remove, t);
      BeforeOneMore(tags[..n], tags[n], t, u);
      assert tags == tags[..n] + [tags[n]];
      if tags[n] in remove {
        assert Remaining(tags, remove) == Remaining(tags[..n], remove);
      } else {
        BeforeOneMore(Remaining(tags[..n], remove), tags[n], t, u);
      }
    }
  }

  lemma BeforeOneMore(tags: seq<Tag>, last: Tag, t: Tag, u: Tag)
    ensures Before(tags + [last], t, u) <==> Before(tags, t, u) || (last == u && t in tags)
  {
    var more := tags + [last];
    if Before(tags, t, u) {
      var i, j :| 0 <= i < j < |tags| && tags[i] == t && tags[j] == u;
      assert more[i] == t && more[j] == u;
    }
    if last == u && t in tags {
      var i :| 0 <= i < |tags| && tags[i] == t;
      assert more[i] == t && more[|tags|] == u;
    }
    if Before(more, t, u) {
      var i, j :| 0 <= i < j < |more| && more[i] == t && more[j] == u;
      assert tags[i] == t;
      if j < |tags| { assert tags[j] == u; }
    }
  }

  /** `merge_recording_meta`. */
  method MergeRecordingMeta(meta: RecordingMeta, metadata: map<Key, Value>, add: seq<Tag>,
                            remove: seq<Tag>) returns (r: RecordingMeta)
    ensures r == RecordingMeta(Merged(meta.tags, add, remove), meta.metadata + metadata)
  {
    var tags := [];
    for i := 0 to |meta.tags|
      invariant tags == Remaining(meta.tags[..i], remove)
    {
      assert meta.tags[..i + 1][..i] == meta.tags[..i];
      if meta.tags[i] !in remove {
        tags := tags + [meta.tags[i]];
      }
    }
    assert meta.tags[..|meta.tags|] == meta.tags;
    ghost var kept := tags;
    for i := 0 to |add|
      invariant tags == Appended(kept, add[..i])
    {
      assert add[..i + 1][..i] == add[..i];
      if add[i] !in tags {
        tags := tags + [add[i]];
      }
    }
    assert add[..|add|] == add;
    return RecordingMeta(tags, meta.metadata + metadata);
  }

  /** The request is refused when it changes nothing or both adds and removes a tag. */
  ghost predicate Accepted(metadata: map<Key, Value>, add: seq<Tag>, remove: seq<Tag>) {
    && (metadata != map[] || add != [] || remove != [])
    && forall t :: !(t in add && t in remove)
  }
}
