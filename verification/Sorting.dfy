/** Go's sort.Slice, seen through its contract: a permutation that respects a strict order.
    Two strictly sorted sequences over the same elements are the same sequence, so for
    keys that never tie the result does not depend on the order of the input. */
module Sorting {

  predicate Sorted<T>(less: (T, T) -> bool, s: seq<T>) {
    forall i, j :: 0 <= i < j < |s| ==> less(s[i], s[j])
  }

  predicate Distinct<T(==)>(s: seq<T>) {
    forall i, j :: 0 <= i < j < |s| ==> s[i] != s[j]
  }

  function Elements<T>(s: seq<T>): set<T> {
    set x | x in s
  }

  /** `less` orders the elements of `xs` strictly and totally. */
  ghost predicate StrictTotalOn<T(!new)>(less: (T, T) -> bool, xs: set<T>) {
    && (forall x :: x in xs ==> !less(x, x))
    && (forall x, y, z :: x in xs && y in xs && z in xs && less(x, y) && less(y, z) ==> less(x, z))
    && (forall x, y :: x in xs && y in xs ==> x == y || less(x, y) || less(y, x))
  }

  function Insert<T>(less: (T, T) -> bool, x: T, s: seq<T>): seq<T> {
    if s == [] || less(x, s[0]) then [x] + s else [s[0]] + Insert(less, x, s[1..])
  }

  function Sort<T>(less: (T, T) -> bool, s: seq<T>): seq<T> {
    if s == [] then [] else Insert(less, s[0], Sort(less, s[1..]))
  }

  lemma {:induction false} InsertSorted<T(!new)>(less: (T, T) -> bool, x: T, s: seq<T>, xs: set<T>)
    requires Sorted(less, s) && x !in s
    requires xs == Elements(s) + {x} && StrictTotalOn(less, xs)
    ensures Sorted(less, Insert(less, x, s))
    ensures Elements(Insert(less, x, s)) == xs
  {
    var r := Insert(less, x, s);
    if s == [] || less(x, s[0]) {
      forall i, j | 0 <= i < j < |r| ensures less(r[i], r[j]) {
        if i == 0 && j > 1 {
          assert less(s[0], s[j - 1]);
        }
      }
      assert forall y :: y in r <==> y == x || y in s;
    } else {
      var t := s[1..];
      assert s == [s[0]] + t;
      var ys := Elements(t) + {x};
      assert ys <= xs;
      InsertSorted(less, x, t, ys);
      var q := Insert(less, x, t);
      assert forall y :: y in q <==> y in ys;
      forall i, j | 0 <= i < j < |r| ensures less(r[i], r[j]) {
        if i == 0 {
          assert r[j] == q[j - 1];
          assert q[j - 1] in ys;
          if q[j - 1] != x {
            var k :| 0 <= k < |t| && t[k] == q[j - 1];
            assert t[k] == s[k + 1];
          }
        }
      }
      assert forall y :: y in r <==> y == s[0] || y in q;
    }
  }

  lemma DistinctTail<T>(s: seq<T>)
    requires s != [] && Distinct(s)
    ensures Distinct(s[1..]) && s[0] !in s[1..]
    ensures Elements(s) == Elements(s[1..]) + {s[0]}
  {
    assert forall i :: 0 <= i < |s[1..]| ==> s[1..][i] == s[i + 1];
    assert s == [s[0]] + s[1..];
  }

  /** Sorting distinct elements puts them in order. */
  lemma {:induction false} SortSorts<T(!new)>(less: (T, T) -> bool, s: seq<T>)
    requires Distinct(s) && StrictTotalOn(less, Elements(s))
    ensures Sorted(less, Sort(less, s))
  {
    if s != [] {
      DistinctTail(s);
      SortSorts(less, s[1..]);
      SortKeepsElements(less, s[1..]);
      assert s[0] !in Elements(Sort(less, s[1..]));
      InsertSorted(less, s[0], Sort(less, s[1..]), Elements(s));
    }
  }

  lemma {:induction false} InsertAddsOne<T>(less: (T, T) -> bool, x: T, s: seq<T>)
    ensures multiset(Insert(less, x, s)) == multiset(s) + multiset{x}
  {
    if !(s == [] || less(x, s[0])) {
      InsertAddsOne(less, x, s[1..]);
      assert s == [s[0]] + s[1..];
    }
  }

  lemma {:induction false} SortPermutes<T>(less: (T, T) -> bool, s: seq<T>)
    ensures multiset(Sort(less, s)) == multiset(s)
  {
    if s != [] {
      SortPermutes(less, s[1..]);
      InsertAddsOne(less, s[0], Sort(less, s[1..]));
      assert s == [s[0]] + s[1..];
    }
  }

  /** Sorting is a permutation. */
  lemma SortKeepsElements<T(!new)>(less: (T, T) -> bool, s: seq<T>)
    ensures multiset(Sort(less, s)) == multiset(s)
    ensures Elements(Sort(less, s)) == Elements(s)
    ensures |Sort(less, s)| == |s|
  {
    SortPermutes(less, s);
    var r := Sort(less, s);
    assert |multiset(r)| == |r| && |multiset(s)| == |s|;
    forall x ensures x in r <==> x in s {
      assert x in r <==> x in multiset(r);
      assert x in s <==> x in multiset(s);
    }
  }

  /** A strictly sorted sequence is determined by its elements. */
  lemma {:induction false} SortedUnique<T(!new)>(less: (T, T) -> bool, s: seq<T>, t: seq<T>)
    requires Elements(s) == Elements(t)
    requires StrictTotalOn(less, Elements(s))
    requires Sorted(less, s) && Sorted(less, t)
    ensures s == t
  {
    assert forall x :: x in s <==> x in Elements(s);
    assert forall x :: x in t <==> x in Elements(t);
    assert t == [] || t[0] in t;
    if s != [] {
      assert s[0] in s;
      assert t != [] by {
        assert s[0] in t;
      }
      HeadsAgree(less, s, t);
      var s', t' := s[1..], t[1..];
      assert s == [s[0]] + s' && t == [t[0]] + t';
      assert s[0] !in s' && t[0] !in t' by {
        NotInTail(less, s);
        NotInTail(less, t);
      }
      assert Elements(s') == Elements(s) - {s[0]};
      assert Elements(t') == Elements(t) - {t[0]};
      assert Sorted(less, s') by {
        assert forall i :: 0 <= i < |s'| ==> s'[i] == s[i + 1];
      }
      assert Sorted(less, t') by {
        assert forall i :: 0 <= i < |t'| ==> t'[i] == t[i + 1];
      }
      SortedUnique(less, s', t');
    }
  }

  lemma HeadsAgree<T(!new)>(less: (T, T) -> bool, s: seq<T>, t: seq<T>)
    requires s != [] && t != [] && Elements(s) == Elements(t)
    requires StrictTotalOn(less, Elements(s))
    requires Sorted(less, s) && Sorted(less, t)
    ensures s[0] == t[0]
  {
    assert s[0] in Elements(s) && t[0] in Elements(t);
    assert s[0] in t && t[0] in s;
    var i :| 0 <= i < |t| && t[i] == s[0];
    var j :| 0 <= j < |s| && s[j] == t[0];
  }

  lemma NotInTail<T(!new)>(less: (T, T) -> bool, s: seq<T>)
    requires s != [] && Sorted(less, s) && StrictTotalOn(less, Elements(s))
    ensures s[0] !in s[1..]
  {
    assert s[0] in Elements(s);
    forall k | 0 <= k < |s[1..]| ensures s[1..][k] != s[0] {
      assert less(s[0], s[k + 1]);
    }
  }

  /** A non-empty finite set has a first element. */
  lemma {:induction false} LeastExists<T(!new)>(less: (T, T) -> bool, xs: set<T>) returns (first: T)
    requires xs != {} && StrictTotalOn(less, xs)
    ensures first in xs && forall y :: y in xs && y != first ==> less(first, y)
    decreases xs
  {
    var x :| x in xs;
    if xs == {x} {
      return x;
    }
    var y := LeastExists(less, xs - {x});
    first := if less(x, y) then x else y;
  }
}
