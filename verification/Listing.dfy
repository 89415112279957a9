/** The repository's list operations: collect the records that pass a filter, then sort them. */
module Listing {
  import opened Sorting

  ghost function Matching<K, V(!new)>(m: map<K, V>, keep: V -> bool): set<V> {
    set k | k in m && keep(m[k]) :: m[k]
  }

  predicate Injective<K, V(==)>(m: map<K, V>) {
    forall j, k :: j in m && k in m && m[j] == m[k] ==> j == k
  }

  method ListWhere<K, V(==, !new)>(m: map<K, V>, keep: V -> bool, less: (V, V) -> bool) returns (l: seq<V>)
    requires Injective(m)
    ensures Elements(l) == Matching(m, keep) && Distinct(l)
    ensures StrictTotalOn(less, Matching(m, keep)) ==> Sorted(less, l)
  {
    var found := Collect(m, keep);
    SortKeepsElements(less, found);
    PermutationDistinct(found, Sort(less, found));
    l := Sort(less, found);
    if StrictTotalOn(less, Matching(m, keep)) {
      SortSorts(less, found);
    }
  }

  method Collect<K, V(==, !new)>(m: map<K, V>, keep: V -> bool) returns (found: seq<V>)
    requires Injective(m)
    ensures Elements(found) == Matching(m, keep) && Distinct(found)
  {
    found := [];
    var todo := m.Keys;
    while todo != {}
      invariant todo <= m.Keys
      invariant forall v :: v in found <==> exists k :: k in m && k !in todo && m[k] == v && keep(v)
      invariant Distinct(found)
      decreases |todo|
    {
      var k :| k in todo;
      todo := todo - {k};
      if keep(m[k]) {
        assert m[k] !in found;
        found := found + [m[k]];
      }
    }
  }

  lemma PermutationDistinct<T>(s: seq<T>, t: seq<T>)
    requires Distinct(s) && multiset(s) == multiset(t)
    ensures Distinct(t)
  {
    forall i, j | 0 <= i < j < |t| ensures t[i] != t[j] {
      if t[i] == t[j] {
        TwiceInMultiset(t, i, j);
        OnceInMultiset(s, t[i]);
        assert false;
      }
    }
  }

  lemma TwiceInMultiset<T>(t: seq<T>, i: nat, j: nat)
    requires i < j < |t| && t[i] == t[j]
    ensures multiset(t)[t[i]] >= 2
  {
    assert t == t[..i] + [t[i]] + t[i + 1..j] + [t[j]] + t[j + 1..];
  }

  lemma {:induction false} OnceInMultiset<T>(s: seq<T>, x: T)
    requires Distinct(s)
    ensures multiset(s)[x] <= 1
  {
    if s != [] {
      DistinctTail(s);
      assert s == [s[0]] + s[1..];
      OnceInMultiset(s[1..], x);
    }
  }
}
