/** Python's `sorted` on numbers, and its stable `sorted(..., key=timestamp)`. */
module Sorting {
  function InsertReal(x: real, s: seq<real>): seq<real> {
    if s == [] || x <= s[0] then [x] + s else [s[0]] + InsertReal(x, s[1..])
  }

  function SortReals(s: seq<real>): seq<real> {
    if s == [] then [] else InsertReal(s[0], SortReals(s[1..]))
  }

  ghost predicate Sorted(s: seq<real>) { forall i, j :: 0 <= i < j < |s| ==> s[i] <= s[j] }

  lemma {:induction false} InsertRealContents(x: real, s: seq<real>)
    ensures multiset(InsertReal(x, s)) == multiset(s) + multiset{x} && |InsertReal(x, s)| == |s| + 1
  {
    if s == [] || x <= s[0] {
    } else {
      InsertRealContents(x, s[1..]);
      assert s == [s[0]] + s[1..];
    }
  }

  lemma {:induction false} InsertRealBound(x: real, s: seq<real>, low: real)
    requires low <= x && forall i :: 0 <= i < |s| ==> low <= s[i]
    ensures forall i :: 0 <= i < |InsertReal(x, s)| ==> low <= InsertReal(x, s)[i]
  {
    if s == [] || x <= s[0] {
    } else {
      InsertRealBound(x, s[1..], low);
    }
  }

  lemma {:induction false} InsertRealSorted(x: real, s: seq<real>)
    requires Sorted(s)
    ensures Sorted(InsertReal(x, s))
  {
    if s == [] || x <= s[0] {
    } else {
      InsertRealSorted(x, s[1..]);
      InsertRealBound(x, s[1..], s[0]);
    }
  }

  lemma {:induction false} SortRealsContents(s: seq<real>)
    ensures multiset(SortReals(s)) == multiset(s) && |SortReals(s)| == |s|
  {
    if s != [] {
      SortRealsContents(s[1..]);
      InsertRealContents(s[0], SortReals(s[1..]));
      assert s == [s[0]] + s[1..];
    }
  }

  lemma {:induction false} SortRealsOrdered(s: seq<real>)
    ensures Sorted(SortReals(s))
  {
    if s != [] {
      SortRealsOrdered(s[1..]);
      InsertRealSorted(s[0], SortReals(s[1..]));
    }
  }

  lemma SameMembers<T>(a: seq<T>, b: seq<T>)
    requires multiset(a) == multiset(b)
    ensures forall x :: x in a <==> x in b
  {
    forall x ensures x in a <==> x in b {
      assert x in multiset(a) <==> x in multiset(b);
    }
  }

  lemma SortRealsSorted(s: seq<real>)
    ensures Sorted(SortReals(s)) && |SortReals(s)| == |s| && multiset(SortReals(s)) == multiset(s)
    ensures forall x :: x in SortReals(s) <==> x in s
  {
    SortRealsContents(s);
    SortRealsOrdered(s);
    SameMembers(SortReals(s), s);
  }

  /** Sorting what is already sorted changes nothing. */
  lemma {:induction false} SortRealsIdentity(s: seq<real>)
    requires Sorted(s)
    ensures SortReals(s) == s
  {
    if s == [] {
    } else {
      SortRealsIdentity(s[1..]);
      assert s == [s[0]] + s[1..];
      if |s| > 1 { assert s[0] <= s[1..][0]; }
    }
  }

  /** An item with the time it is sorted by. */
  datatype Timed<T> = Timed(at: real, what: T)

  function InsertTimed<T>(x: Timed<T>, s: seq<Timed<T>>): seq<Timed<T>> {
    if s == [] || x.at <= s[0].at then [x] + s else [s[0]] + InsertTimed(x, s[1..])
  }

  function SortTimed<T>(s: seq<Timed<T>>): seq<Timed<T>> {
    if s == [] then [] else InsertTimed(s[0], SortTimed(s[1..]))
  }

  ghost predicate InTimeOrder<T>(s: seq<Timed<T>>) { forall i, j :: 0 <= i < j < |s| ==> s[i].at <= s[j].at }

  lemma {:induction false} InsertTimedContents<T>(x: Timed<T>, s: seq<Timed<T>>)
    ensures multiset(InsertTimed(x, s)) == multiset(s) + multiset{x} && |InsertTimed(x, s)| == |s| + 1
  {
    if s == [] || x.at <= s[0].at {
    } else {
      InsertTimedContents(x, s[1..]);
      assert s == [s[0]] + s[1..];
    }
  }

  lemma {:induction false} InsertTimedBound<T>(x: Timed<T>, s: seq<Timed<T>>, low: real)
    requires low <= x.at && forall i :: 0 <= i < |s| ==> low <= s[i].at
    ensures forall i :: 0 <= i < |InsertTimed(x, s)| ==> low <= InsertTimed(x, s)[i].at
  {
    if s == [] || x.at <= s[0].at {
    } else {
      InsertTimedBound(x, s[1..], low);
    }
  }

  lemma {:induction false} InsertTimedOrdered<T>(x: Timed<T>, s: seq<Timed<T>>)
    requires InTimeOrder(s)
    ensures InTimeOrder(InsertTimed(x, s))
  {
    if s == [] || x.at <= s[0].at {
    } else {
      InsertTimedOrdered(x, s[1..]);
      InsertTimedBound(x, s[1..], s[0].at);
    }
  }

  lemma {:induction false} SortTimedContents<T>(s: seq<Timed<T>>)
    ensures |SortTimed(s)| == |s| && multiset(SortTimed(s)) == multiset(s)
  {
    if s != [] {
      SortTimedContents(s[1..]);
      InsertTimedContents(s[0], SortTimed(s[1..]));
      assert s == [s[0]] + s[1..];
    }
  }

  lemma {:induction false} SortTimedOrdered<T>(s: seq<Timed<T>>)
    ensures InTimeOrder(SortTimed(s)) && |SortTimed(s)| == |s| && multiset(SortTimed(s)) == multiset(s)
  {
    SortTimedContents(s);
    if s != [] {
      SortTimedOrdered(s[1..]);
      InsertTimedOrdered(s[0], SortTimed(s[1..]));
    }
  }
}
