/**
 Stable sorting by a total preorder, and why its result is determined: a list is
 the stable sort of another exactly when it is sorted and keeps, for every
 element, the sequence of elements equivalent to it.
*/
module StableSort {

  ghost predicate Preorder<T(!new)>(leq: (T, T) -> bool) {
    && (forall a, b :: leq(a, b) || leq(b, a))
    && (forall a, b, c :: leq(a, b) && leq(b, c) ==> leq(a, c))
  }

  ghost predicate Sorted<T>(s: seq<T>, leq: (T, T) -> bool) {
    forall i, j :: 0 <= i < j < |s| ==> leq(s[i], s[j])
  }

  predicate Same<T>(a: T, b: T, leq: (T, T) -> bool) {
    leq(a, b) && leq(b, a)
  }

  /** The elements of `s` that compare equal to `x`, in order. */
  function Like<T>(s: seq<T>, x: T, leq: (T, T) -> bool): seq<T> {
    if s == [] then []
    else Like(s[..|s| - 1], x, leq) + (if Same(s[|s| - 1], x, leq) then [s[|s| - 1]] else [])
  }

  /** Every class of equivalent elements reads the same in both lists. */
  ghost predicate SameClasses<T(!new)>(a: seq<T>, b: seq<T>, leq: (T, T) -> bool) {
    forall x :: Like(a, x, leq) == Like(b, x, leq)
  }

  /** Inserts after every element that is not greater. */
  function Insert<T>(s: seq<T>, x: T, leq: (T, T) -> bool): seq<T> {
    if s == [] || leq(s[|s| - 1], x) then s + [x]
    else Insert(s[..|s| - 1], x, leq) + [s[|s| - 1]]
  }

  function Sort<T>(s: seq<T>, leq: (T, T) -> bool): seq<T> {
    if s == [] then [] else Insert(Sort(s[..|s| - 1], leq), s[|s| - 1], leq)
  }

  lemma LikeSnoc<T>(s: seq<T>, y: T, x: T, leq: (T, T) -> bool)
    ensures Like(s + [y], x, leq) == Like(s, x, leq) + (if Same(y, x, leq) then [y] else [])
  {
    assert (s + [y])[..|s|] == s;
  }

  lemma {:induction false} InsertMembers<T>(s: seq<T>, x: T, leq: (T, T) -> bool)
    ensures |Insert(s, x, leq)| == |s| + 1
    ensures forall y :: y in Insert(s, x, leq) <==> y in s || y == x
  {
    if s != [] && !leq(s[|s| - 1], x) {
      InsertMembers(s[..|s| - 1], x, leq);
      assert s == s[..|s| - 1] + [s[|s| - 1]];
    }
  }

  lemma {:induction false} InsertSorted<T(!new)>(s: seq<T>, x: T, leq: (T, T) -> bool)
    requires Preorder(leq) && Sorted(s, leq)
    ensures Sorted(Insert(s, x, leq), leq)
  {
    if s != [] && !leq(s[|s| - 1], x) {
      var front, last := s[..|s| - 1], s[|s| - 1];
      InsertSorted(front, x, leq);
      InsertMembers(front, x, leq);
      var out := Insert(front, x, leq);
      forall i | 0 <= i < |out| ensures leq(out[i], last) {
        assert out[i] in out;
        if out[i] != x {
          var j :| 0 <= j < |front| && front[j] == out[i];
          assert s[j] == out[i];
        }
      }
    }
  }

  lemma {:induction false} InsertStable<T(!new)>(s: seq<T>, y: T, x: T, leq: (T, T) -> bool)
    requires Preorder(leq)
    ensures Like(Insert(s, y, leq), x, leq) == Like(s, x, leq) + (if Same(y, x, leq) then [y] else [])
  {
    if s == [] || leq(s[|s| - 1], y) {
      LikeSnoc(s, y, x, leq);
    } else {
      var front, last := s[..|s| - 1], s[|s| - 1];
      InsertStable(front, y, x, leq);
      LikeSnoc(Insert(front, y, leq), last, x, leq);
    }
  }

  /** The result is sorted and keeps the order of equivalent elements. */
  lemma {:induction false} SortIsStable<T(!new)>(s: seq<T>, leq: (T, T) -> bool)
    requires Preorder(leq)
    ensures Sorted(Sort(s, leq), leq)
    ensures SameClasses(Sort(s, leq), s, leq)
  {
    if s != [] {
      var front, last := s[..|s| - 1], s[|s| - 1];
      SortIsStable(front, leq);
      InsertSorted(Sort(front, leq), last, leq);
      forall x ensures Like(Sort(s, leq), x, leq) == Like(s, x, leq) {
        InsertStable(Sort(front, leq), last, x, leq);
      }
    }
  }

  lemma {:induction false} LikeIn<T>(s: seq<T>, x: T, y: T, leq: (T, T) -> bool)
    ensures y in Like(s, x, leq) <==> y in s && Same(y, x, leq)
  {
    if s != [] {
      LikeIn(s[..|s| - 1], x, y, leq);
      assert s == s[..|s| - 1] + [s[|s| - 1]];
    }
  }

  /** The last element of either list is equivalent to the last of the other. */
  lemma LastBelow<T(!new)>(a: seq<T>, b: seq<T>, leq: (T, T) -> bool)
    requires Preorder(leq) && a != [] && Sorted(b, leq)
    requires SameClasses(a, b, leq)
    ensures b != [] && leq(a[|a| - 1], b[|b| - 1])
  {
    var x := a[|a| - 1];
    LikeIn(a, x, x, leq);
    LikeIn(b, x, x, leq);
    assert x in b;
    var j :| 0 <= j < |b| && b[j] == x;
    if j < |b| - 1 {
      assert leq(b[j], b[|b| - 1]);
    }
  }

  lemma SameEnds<T>(a: seq<T>, b: seq<T>, x: T, y: T)
    requires a + [x] == b + [y]
    ensures a == b && x == y
  {
    assert (a + [x])[..|a|] == a && (b + [y])[..|b|] == b;
    assert (a + [x])[|a|] == x && (b + [y])[|b|] == y;
  }

  /** Two sorted lists with the same classes are the same list. */
  lemma {:induction false} SortedUnique<T(!new)>(a: seq<T>, b: seq<T>, leq: (T, T) -> bool)
    requires Preorder(leq) && Sorted(a, leq) && Sorted(b, leq)
    requires SameClasses(a, b, leq)
    ensures a == b
    decreases |a|
  {
    if a == [] {
      if b != [] {
        LastBelow(b, a, leq);
      }
    } else {
      LastBelow(a, b, leq);
      LastBelow(b, a, leq);
      var a', x, b', y := a[..|a| - 1], a[|a| - 1], b[..|b| - 1], b[|b| - 1];
      assert Like(a, x, leq) == Like(a', x, leq) + [x] && Like(b, x, leq) == Like(b', x, leq) + [y];
      SameEnds(Like(a', x, leq), Like(b', x, leq), x, y);
      forall z ensures Like(a', z, leq) == Like(b', z, leq) {
        assert Like(a, z, leq) == Like(b, z, leq);
        if Same(x, z, leq) {
          SameEnds(Like(a', z, leq), Like(b', z, leq), x, y);
        } else {
          assert Like(a, z, leq) == Like(a', z, leq) && Like(b, z, leq) == Like(b', z, leq);
        }
      }
      SortedUnique(a', b', leq);
      assert a == a' + [x] && b == b' + [y];
    }
  }

  /** Lists sort to the same list if and only if every class reads the same in both. */
  lemma SameSortIffSameClasses<T(!new)>(a: seq<T>, b: seq<T>, leq: (T, T) -> bool)
    requires Preorder(leq)
    ensures Sort(a, leq) == Sort(b, leq) <==> SameClasses(a, b, leq)
  {
    hide Sort, Like;
    SortIsStable(a, leq);
    SortIsStable(b, leq);
    if SameClasses(a, b, leq) {
      SortedUnique(Sort(a, leq), Sort(b, leq), leq);
    } else {
      var x :| Like(a, x, leq) != Like(b, x, leq);
      assert Like(Sort(a, leq), x, leq) != Like(Sort(b, leq), x, leq);
    }
  }

  lemma {:induction false} InsertPermutes<T>(s: seq<T>, x: T, leq: (T, T) -> bool)
    ensures multiset(Insert(s, x, leq)) == multiset(s) + multiset{x}
  {
    if s != [] && !leq(s[|s| - 1], x) {
      InsertPermutes(s[..|s| - 1], x, leq);
      assert s == s[..|s| - 1] + [s[|s| - 1]];
    }
  }

  lemma {:induction false} SortPermutes<T>(s: seq<T>, leq: (T, T) -> bool)
    ensures multiset(Sort(s, leq)) == multiset(s)
  {
    if s != [] {
      SortPermutes(s[..|s| - 1], leq);
      InsertPermutes(Sort(s[..|s| - 1], leq), s[|s| - 1], leq);
      assert s == s[..|s| - 1] + [s[|s| - 1]];
    }
  }
}
