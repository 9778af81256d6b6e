/** Concatenation of two sequences and of many. */
module Sequences {
  lemma Associates<T>(a: seq<T>, b: seq<T>, c: seq<T>)
    ensures (a + b) + c == a + (b + c)
  {
  }

  /** The last element of a concatenation, and everything before it. */
  lemma LastOfConcat<T>(a: seq<T>, b: seq<T>)
    requires b != []
    ensures var whole, n := a + b, |b| - 1;
            whole != [] && whole[|whole| - 1] == b[n] && whole[..|whole| - 1] == a + b[..n]
  {
    assert (a + b)[..|a + b| - 1] == a + b[..|b| - 1];
  }

  /** All parts, one after the other. */
  function Flat<T>(parts: seq<seq<T>>): seq<T> {
    if parts == [] then [] else Flat(parts[..|parts| - 1]) + parts[|parts| - 1]
  }

  lemma FlatOneMore<T>(parts: seq<seq<T>>, part: seq<T>)
    ensures Flat(parts + [part]) == Flat(parts) + part
  {
    assert (parts + [part])[..|parts|] == parts;
  }

  lemma {:induction false} FlatAppends<T>(a: seq<seq<T>>, b: seq<seq<T>>)
    ensures Flat(a + b) == Flat(a) + Flat(b)
  {
    if b == [] {
      assert a + b == a;
    } else {
      LastOfConcat(a, b);
      FlatAppends(a, b[..|b| - 1]);
      Associates(Flat(a), Flat(b[..|b| - 1]), b[|b| - 1]);
    }
  }

  /** Where element `j` of part `k` is. */
  lemma {:induction false} FlatAt<T>(parts: seq<seq<T>>, k: nat, j: nat)
    requires k < |parts| && j < |parts[k]|
    ensures var at := |Flat(parts[..k])| + j; at < |Flat(parts)| && Flat(parts)[at] == parts[k][j]
  {
    var last := |parts| - 1;
    if k < last {
      assert parts[..last][..k] == parts[..k];
      FlatAt(parts[..last], k, j);
    }
  }

  /** The part and position an element comes from. */
  lemma {:induction false} FromPart<T>(parts: seq<seq<T>>, i: nat) returns (k: nat, j: nat)
    requires i < |Flat(parts)|
    ensures k < |parts| && j < |parts[k]| && parts[k][j] == Flat(parts)[i]
  {
    var last := |parts| - 1;
    if i < |Flat(parts[..last])| {
      k, j := FromPart(parts[..last], i);
    } else {
      k, j := last, i - |Flat(parts[..last])|;
    }
  }

  lemma {:induction false} SameLengths<T, U>(a: seq<seq<T>>, b: seq<seq<U>>)
    requires |a| == |b| && forall k :: 0 <= k < |a| ==> |a[k]| == |b[k]|
    ensures |Flat(a)| == |Flat(b)|
  {
    if a != [] { SameLengths(a[..|a| - 1], b[..|b| - 1]); }
  }

  /** Parts of equal lengths line up. */
  lemma FlatLinesUp<T, U>(a: seq<seq<T>>, b: seq<seq<U>>, k: nat, j: nat)
    requires |a| == |b| && forall i :: 0 <= i < |a| ==> |a[i]| == |b[i]|
    requires k < |a| && j < |a[k]|
    ensures var at := |Flat(b[..k])| + j;
            && |Flat(a)| == |Flat(b)| && at < |Flat(b)|
            && Flat(a)[at] == a[k][j] && Flat(b)[at] == b[k][j]
  {
    SameLengths(a, b);
    SameLengths(a[..k], b[..k]);
    FlatAt(a, k, j);
    FlatAt(b, k, j);
  }
}
