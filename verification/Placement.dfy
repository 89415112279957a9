/** Capacity-aware placement: which storage nodes receive a replica (internal/mds/allocator.go). */
module Placement {
  import opened Metadata
  import opened Strings
  import opened Sorting

  function Available(node: Node): int {
    node.capacity - node.used
  }

  predicate Eligible(node: Node, excluded: set<NodeId>, requiredBytes: int) {
    && node.healthy
    && !Blank(node.address)
    && node.id !in excluded
    && node.capacity >= 0 && node.used >= 0
    && node.used <= node.capacity
    && Available(node) > 0
    && Available(node) >= requiredBytes
  }

  /** More free space first; equal free space by node id. */
  predicate Better(a: Node, b: Node) {
    Available(a) > Available(b) || (Available(a) == Available(b) && Less(a.id, b.id))
  }

  ghost predicate DistinctIds(nodes: set<Node>) {
    forall a, b :: a in nodes && b in nodes && a.id == b.id ==> a == b
  }

  ghost function EligibleNodes(candidates: set<Node>, excluded: set<NodeId>, requiredBytes: int): set<Node> {
    set n | n in candidates && Eligible(n, excluded, requiredBytes)
  }

  /** What a placement is, without saying how it is found: the best `count` eligible
      candidates (all of them if there are fewer), best first. */
  ghost predicate IsPlacement(candidates: set<Node>, excluded: set<NodeId>, requiredBytes: int, count: int,
                              r: seq<Node>) {
    var eligible := EligibleNodes(candidates, excluded, requiredBytes);
    && Sorted(Better, r)
    && Elements(r) <= eligible
    && |r| == (if count <= 0 then 0 else if count < |eligible| then count else |eligible|)
    && forall a, b :: a in Elements(r) && b in eligible - Elements(r) ==> Better(a, b)
  }

  lemma BetterStrictTotal(nodes: set<Node>)
    requires DistinctIds(nodes)
    ensures StrictTotalOn(Better, nodes)
  {
    forall x | x in nodes ensures !Better(x, x) {
      LessIrreflexive(x.id);
    }
    forall x, y, z | x in nodes && y in nodes && z in nodes && Better(x, y) && Better(y, z) ensures Better(x, z) {
      if Available(x) == Available(z) {
        LessTransitive(x.id, y.id, z.id);
      }
    }
    forall x, y | x in nodes && y in nodes ensures x == y || Better(x, y) || Better(y, x) {
      LessTotal(x.id, y.id);
    }
  }

  lemma BetterAsymmetric(a: Node, b: Node)
    ensures !(Better(a, b) && Better(b, a))
  {
    if Less(a.id, b.id) && Less(b.id, a.id) {
      LessTransitive(a.id, b.id, a.id);
      LessIrreflexive(a.id);
    }
  }

  /** Any two placements for the same candidates are the same list: the choice does not
      depend on the order in which the candidates were presented. */
  lemma PlacementUnique(candidates: set<Node>, excluded: set<NodeId>, requiredBytes: int, count: int, r: seq<Node>,
                        q: seq<Node>)
    requires DistinctIds(candidates)
    requires IsPlacement(candidates, excluded, requiredBytes, count, r)
    requires IsPlacement(candidates, excluded, requiredBytes, count, q)
    ensures r == q
  {
    BetterStrictTotal(candidates);
    var R, Q := Elements(r), Elements(q);
    SortedCardinality(r, candidates);
    SortedCardinality(q, candidates);
    forall a | a in R ensures a in Q {
      if a !in Q {
        // |R| == |Q|, so Q also holds a node that R lacks, and each should beat the other.
        SameSizeWitness(R, Q, a);
        var b :| b in Q - R;
        BetterAsymmetric(a, b);
        assert false;
      }
    }
    SubsetSameSize(R, Q);
    SortedUnique(Better, r, q);
  }

  lemma {:induction false} SortedCardinality(r: seq<Node>, nodes: set<Node>)
    requires Sorted(Better, r) && Elements(r) <= nodes && StrictTotalOn(Better, nodes)
    ensures |Elements(r)| == |r|
  {
    if r == [] {
      assert Elements(r) == {};
    } else {
      var last := |r| - 1;
      assert r == r[..last] + [r[last]];
      assert r[last] in Elements(r);
      SortedCardinality(r[..last], nodes);
      assert r[last] !in Elements(r[..last]) by {
        assert forall i :: 0 <= i < last ==> Better(r[i], r[last]);
      }
      assert Elements(r) == Elements(r[..last]) + {r[last]};
    }
  }

  lemma SameSizeWitness<T>(R: set<T>, Q: set<T>, a: T)
    requires |R| == |Q| && a in R - Q
    ensures exists b :: b in Q - R
  {
    assert R == R * Q + (R - Q) && Q == R * Q + (Q - R);
    assert |R| == |R * Q| + |R - Q| && |Q| == |R * Q| + |Q - R|;
    assert |R - Q| > 0;
    assert Q - R != {};
  }

  lemma SubsetSameSize<T>(R: set<T>, Q: set<T>)
    requires R <= Q && |R| == |Q|
    ensures R == Q
  {
    assert |Q - R| == |Q| - |R|;
  }

  /** The first `count` of the sorted eligible candidates form a placement. */
  lemma TakeIsPlacement(candidates: set<Node>, excluded: set<NodeId>, requiredBytes: int, count: nat, all: seq<Node>)
    requires DistinctIds(candidates)
    requires Sorted(Better, all) && Elements(all) == EligibleNodes(candidates, excluded, requiredBytes)
    ensures IsPlacement(candidates, excluded, requiredBytes, count, if count < |all| then all[..count] else all)
  {
    BetterStrictTotal(candidates);
    SortedCardinality(all, candidates);
    var r := if count < |all| then all[..count] else all;
    assert forall k :: 0 <= k < |r| ==> r[k] in Elements(r) && r[k] == all[k];
    forall a, b | a in Elements(r) && b in Elements(all) - Elements(r) ensures Better(a, b) {
      var i :| 0 <= i < |r| && r[i] == a;
      var j :| 0 <= j < |all| && all[j] == b;
    }
  }

  /** What a placement promises about the nodes: every one of them is up, can be reached, is not
      excluded and has room for the bytes; if there are too few, every other candidate lacks one of
      these; and no candidate that has them all and is left out has more free space. */
  lemma PlacementHasRoom(candidates: set<Node>, excluded: set<NodeId>, requiredBytes: int, count: int, r: seq<Node>)
    requires IsPlacement(candidates, excluded, requiredBytes, count, r) && DistinctIds(candidates)
    ensures forall n :: n in r ==>
              && n in candidates && n.healthy && !Blank(n.address) && n.id !in excluded
              && 0 <= n.used < n.capacity && n.used + requiredBytes <= n.capacity
    ensures |r| <= if count < 0 then 0 else count
    ensures |r| < count ==> forall n :: n in candidates && n !in r ==>
              || !n.healthy || Blank(n.address) || n.id in excluded
              || n.used < 0 || n.used >= n.capacity || n.used + requiredBytes > n.capacity
    ensures forall n, m :: n in r && m in candidates && m !in r && m.healthy && !Blank(m.address) && m.id !in excluded
                           && 0 <= m.used < m.capacity && m.used + requiredBytes <= m.capacity ==>
              m.capacity - m.used <= n.capacity - n.used
  {
    var eligible := EligibleNodes(candidates, excluded, requiredBytes);
    assert forall n :: n in r <==> n in Elements(r);
    forall n, m | n in r && m in eligible && m !in r ensures m.capacity - m.used <= n.capacity - n.used {
      assert n in Elements(r) && m in eligible - Elements(r);
    }
    assert forall m :: m in eligible <==> m in candidates && Eligible(m, excluded, requiredBytes);
    if |r| < count {
      BetterStrictTotal(candidates);
      SortedCardinality(r, candidates);
      SubsetSameSize(Elements(r), eligible);
    }
  }

  /** Candidates of a placement that have room for `bytes`, asked for or not. */
  ghost function Roomy(candidates: set<Node>, excluded: set<NodeId>, requiredBytes: int, bytes: int): set<Node> {
    set n | n in EligibleNodes(candidates, excluded, requiredBytes) && n.used + bytes <= n.capacity
  }

  /** All chosen nodes have room for `bytes` exactly when as many candidates as are chosen have it. */
  lemma AllRoomyIff(candidates: set<Node>, excluded: set<NodeId>, requiredBytes: int, count: int, r: seq<Node>,
                    bytes: int)
    requires IsPlacement(candidates, excluded, requiredBytes, count, r) && DistinctIds(candidates)
    ensures (forall n :: n in r ==> n.used + bytes <= n.capacity) <==>
            |r| <= |Roomy(candidates, excluded, requiredBytes, bytes)|
  {
    var roomy, chosen := Roomy(candidates, excluded, requiredBytes, bytes), Elements(r);
    assert forall n :: n in r <==> n in chosen;
    BetterStrictTotal(candidates);
    SortedCardinality(r, candidates);
    if chosen <= roomy {
      SubsetSize(chosen, roomy);
    } else {
      var a :| a in chosen && a !in roomy;
      forall b | b in EligibleNodes(candidates, excluded, requiredBytes) && b !in chosen ensures b !in roomy {
        assert Better(a, b);
      }
      SubsetSize(roomy, chosen - {a});
    }
  }

  lemma SubsetSize<T>(R: set<T>, Q: set<T>)
    requires R <= Q
    ensures |R| <= |Q|
  {
    assert |Q - R| == |Q| - |R|;
  }

  method SelectPlacementTargets(candidates: seq<Node>, excluded: set<NodeId>, requiredBytes: int, count: int)
    returns (selected: seq<Node>)
    ensures forall n :: n in selected ==>
              && n in candidates && n.healthy && !Blank(n.address) && n.id !in excluded
              && 0 <= n.used < n.capacity && n.used + requiredBytes <= n.capacity
    ensures |selected| < count ==> forall n :: n in candidates && n !in selected ==>
              || !n.healthy || Blank(n.address) || n.id in excluded
              || n.used < 0 || n.used >= n.capacity || n.used + requiredBytes > n.capacity
    ensures Distinct(candidates) && DistinctIds(Elements(candidates))
            ==> IsPlacement(Elements(candidates), excluded, requiredBytes, count, selected)
  {
    if count <= 0 || |candidates| == 0 {
      selected := [];
      assert |candidates| == 0 ==> EligibleNodes(Elements(candidates), excluded, requiredBytes) == {};
      assert Elements(selected) == {};
      return;
    }
    var eligible: seq<Node> := [];
    for i := 0 to |candidates|
      invariant forall n :: n in eligible <==> n in candidates[..i] && Eligible(n, excluded, requiredBytes)
      invariant Distinct(candidates) ==> Distinct(eligible)
    {
      var node := candidates[i];
      assert candidates[..i + 1] == candidates[..i] + [node];
      if Eligible(node, excluded, requiredBytes) {
        assert Distinct(candidates) ==> node !in candidates[..i];
        eligible := eligible + [node];
      }
    }
    assert candidates[..|candidates|] == candidates;
    SortKeepsElements(Better, eligible);
    selected := Sort(Better, eligible);
    assert forall n :: n in selected <==> n in Elements(selected);
    assert Elements(selected) == EligibleNodes(Elements(candidates), excluded, requiredBytes);
    if Distinct(candidates) && DistinctIds(Elements(candidates)) {
      BetterStrictTotal(Elements(eligible));
      SortSorts(Better, eligible);
      TakeIsPlacement(Elements(candidates), excluded, requiredBytes, count, selected);
    }
    assert forall n :: n in selected ==> n in Elements(candidates) && Eligible(n, excluded, requiredBytes);
    if count < |selected| {
      assert forall n :: n in selected[..count] ==> n in selected;
      selected := selected[..count];
    }
    assert forall n :: n in selected ==> n in Elements(candidates);
  }
}
