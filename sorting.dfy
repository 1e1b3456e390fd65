/**
 * A stable sort under a total preorder `le` (`le(a, b)`: a may stay before b),
 * as a function, with sortedness, permutation and stability proved, and an
 * in-place insertion sort on an array proved to produce the same sequence.
 */
module Sorting {
  import opened Seqs

  ghost predicate TotalPreorder<T(!new)>(le: (T, T) -> bool)
  {
    && (forall a, b :: le(a, b) || le(b, a))
    && (forall a, b, c :: le(a, b) && le(b, c) ==> le(a, c))
  }

  ghost predicate SortedBy<T>(r: seq<T>, le: (T, T) -> bool)
  {
    forall i, j :: 0 <= i < j < |r| ==> le(r[i], r[j])
  }

  /**
   * Where a stable insertion puts x into t: just after the last element that
   * may stay before x; every element from there on may not.
   */
  function InsertPos<T>(t: seq<T>, x: T, le: (T, T) -> bool): (p: nat)
    ensures p <= |t|
    ensures forall k :: p <= k < |t| ==> !le(t[k], x)
    ensures p > 0 ==> le(t[p - 1], x)
  {
    if t == [] then 0
    else if !le(t[|t| - 1], x) then InsertPos(t[..|t| - 1], x, le)
    else |t|
  }

  function Insert<T>(t: seq<T>, x: T, le: (T, T) -> bool): (r: seq<T>)
    ensures |r| == |t| + 1
  {
    var p := InsertPos(t, x, le);
    t[..p] + [x] + t[p..]
  }

  /** Insertion of each element in turn, from the left. */
  function SortBy<T>(s: seq<T>, le: (T, T) -> bool): (r: seq<T>)
    ensures |r| == |s|
  {
    if s == [] then []
    else Insert(SortBy(s[..|s| - 1], le), s[|s| - 1], le)
  }

  lemma InsertPermutation<T>(t: seq<T>, x: T, le: (T, T) -> bool)
    ensures multiset(Insert(t, x, le)) == multiset(t) + multiset{x}
  {
    var p := InsertPos(t, x, le);
    assert t == t[..p] + t[p..];
  }

  /** The output is a permutation of the input. */
  lemma {:induction false} SortByPermutation<T>(s: seq<T>, le: (T, T) -> bool)
    ensures multiset(SortBy(s, le)) == multiset(s)
  {
    if s != [] {
      var init, last := s[..|s| - 1], s[|s| - 1];
      SortByPermutation(init, le);
      InsertPermutation(SortBy(init, le), last, le);
      assert s == init + [last];
    }
  }

  /** Inserting into a sorted sequence keeps it sorted. */
  lemma InsertSorted<T(!new)>(t: seq<T>, x: T, le: (T, T) -> bool)
    requires TotalPreorder(le) && SortedBy(t, le)
    ensures SortedBy(Insert(t, x, le), le)
  {
  }

  /** The output is sorted. */
  lemma {:induction false} SortBySorted<T(!new)>(s: seq<T>, le: (T, T) -> bool)
    requires TotalPreorder(le)
    ensures SortedBy(SortBy(s, le), le)
  {
    if s != [] {
      SortBySorted(s[..|s| - 1], le);
      InsertSorted(SortBy(s[..|s| - 1], le), s[|s| - 1], le);
    }
  }

  /** The elements that compare equal to e. */
  function TieWith<T>(e: T, le: (T, T) -> bool): T -> bool
  {
    x => le(x, e) && le(e, x)
  }

  /** Filtering the sequence that Insert builds, piece by piece. */
  lemma FilterAround<T>(front: seq<T>, x: T, back: seq<T>, keep: T -> bool)
    ensures Filter(front + [x] + back, keep) == Filter(front, keep) + Filter([x], keep) + Filter(back, keep)
  {
    FilterConcat(front + [x], back, keep);
    FilterConcat(front, [x], keep);
  }

  /** When x ties with e, nothing after x's insertion point ties with e. */
  lemma TiesBeforeInsertPos<T(!new)>(t: seq<T>, x: T, e: T, le: (T, T) -> bool)
    requires TotalPreorder(le) && TieWith(e, le)(x)
    ensures forall y :: y in t[InsertPos(t, x, le)..] ==> !TieWith(e, le)(y)
  {
  }

  lemma InsertStable<T(!new)>(t: seq<T>, x: T, e: T, le: (T, T) -> bool)
    requires TotalPreorder(le)
    ensures Filter(Insert(t, x, le), TieWith(e, le)) == Filter(t, TieWith(e, le)) + Filter([x], TieWith(e, le))
  {
    var p := InsertPos(t, x, le);
    var tie := TieWith(e, le);
    var front, back := t[..p], t[p..];
    var f, m, b := Filter(front, tie), Filter([x], tie), Filter(back, tie);
    assert Filter(t, tie) == f + b by {
      assert t == front + back;
      FilterConcat(front, back, tie);
    }
    assert Filter(Insert(t, x, le), tie) == f + m + b by {
      FilterAround(front, x, back, tie);
    }
    if tie(x) {
      assert b == [] by {
        TiesBeforeInsertPos(t, x, e, le);
        FilterDropsAll(back, tie);
      }
      assert f + m + b == f + m;
      assert f + b == f;
    } else {
      assert m == [];
      assert f + m + b == f + b;
      assert f + b + m == f + b;
    }
  }

  /** Stability: elements that compare equal keep their relative input order. */
  lemma {:induction false} SortByStable<T(!new)>(s: seq<T>, e: T, le: (T, T) -> bool)
    requires TotalPreorder(le)
    ensures Filter(SortBy(s, le), TieWith(e, le)) == Filter(s, TieWith(e, le))
  {
    if s != [] {
      var init, last := s[..|s| - 1], s[|s| - 1];
      var tie := TieWith(e, le);
      calc {
        Filter(SortBy(s, le), tie);
        { InsertStable(SortBy(init, le), last, e, le); }
        Filter(SortBy(init, le), tie) + Filter([last], tie);
        { SortByStable(init, e, le); }
        Filter(init, tie) + Filter([last], tie);
        { FilterConcat(init, [last], tie); }
        Filter(init + [last], tie);
        { assert s == init + [last]; }
        Filter(s, tie);
      }
    }
  }

  /** When everything compares equal the sort leaves the order as it was. */
  lemma {:induction false} SortByAllEqual<T>(s: seq<T>, le: (T, T) -> bool)
    requires forall a, b :: a in s && b in s ==> le(a, b)
    ensures SortBy(s, le) == s
  {
    if s != [] {
      var init := s[..|s| - 1];
      assert forall a :: a in init ==> a in s;
      SortByAllEqual(init, le);
      assert s == init + [s[|s| - 1]];
    }
  }

  /** One shift of the inner loop leaves the insertion point unchanged. */
  lemma InsertPosShift<T>(t: seq<T>, j: nat, x: T, le: (T, T) -> bool)
    requires 0 < j <= |t| && !le(t[j - 1], x)
    ensures InsertPos(t[..j - 1], x, le) == InsertPos(t[..j], x, le)
  {
  }

  /** The inner loop stops where the insertion point is. */
  lemma InsertPosStop<T>(t: seq<T>, j: nat, x: T, le: (T, T) -> bool)
    requires j <= |t| && InsertPos(t[..j], x, le) == InsertPos(t, x, le)
    requires j == 0 || le(t[j - 1], x)
    ensures InsertPos(t, x, le) == j
  {
  }

  /** A sequence that agrees with Insert(t, x, le) at every index is that insertion. */
  lemma InsertAssembled<T>(r: seq<T>, t: seq<T>, x: T, j: nat, le: (T, T) -> bool)
    requires |r| == |t| + 1 && j == InsertPos(t, x, le)
    requires forall k :: 0 <= k < j ==> r[k] == t[k]
    requires r[j] == x
    requires forall k :: j < k < |r| ==> r[k] == t[k - 1]
    ensures r == Insert(t, x, le)
  {
  }

  /**
   * One step of insertion sort: a[i] moves left past the elements of a[..i]
   * that may not stay before it, and lands at its insertion point.
   */
  method InsertInPlace<T>(a: array<T>, i: nat, le: (T, T) -> bool)
    requires i < a.Length
    modifies a
    ensures a[..i + 1] == Insert(old(a[..i]), old(a[i]), le)
    ensures a[i + 1..] == old(a[i + 1..])
  {
    var x := a[i];
    ghost var t := a[..i];
    ghost var rest := a[i + 1..];
    var j := i;
    while j > 0 && !le(a[j - 1], x)
      invariant 0 <= j <= i
      invariant forall k :: 0 <= k < j ==> a[k] == t[k]
      invariant forall k :: j < k <= i ==> a[k] == t[k - 1]
      invariant a[i + 1..] == rest
      invariant InsertPos(t[..j], x, le) == InsertPos(t, x, le)
    {
      InsertPosShift(t, j, x, le);
      a[j] := a[j - 1];
      j := j - 1;
    }
    a[j] := x;
    InsertPosStop(t, j, x, le);
    InsertAssembled(a[..i + 1], t, x, j, le);
  }

  /** Insertion sort in place: the array ends up holding the sort of its old contents. */
  method SortInPlace<T>(a: array<T>, le: (T, T) -> bool)
    modifies a
    ensures a[..] == SortBy(old(a[..]), le)
  {
    ghost var input := a[..];
    var i := 0;
    while i < a.Length
      invariant 0 <= i <= a.Length
      invariant a[..i] == SortBy(input[..i], le)
      invariant a[i..] == input[i..]
    {
      InsertInPlace(a, i, le);
      assert input[..i + 1] == input[..i] + [input[i]];
      i := i + 1;
    }
    assert input[..a.Length] == input;
  }
}
