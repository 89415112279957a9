/** The repairer (internal/mds/coordinator/repairer.go): copies ready replicas onto pending ones,
    chunk by chunk, within a budget per pass and with a back-off per replica. */
module Repairer {
  import opened Wrappers
  import opened Metadata
  import opened Strings
  import opened Sorting
  import opened Listing
  import opened Placement
  import opened ReplicaStore
  import opened Coordinator
  import opened ReplicaProtocol
  import opened Store
  import opened DataNodes
  import opened PlanningQueries
  import opened RepairSchedule
  import opened RepairPass

  // ---------------------------------------------------------------- choosing source and targets

  method SortNames(names: seq<string>) returns (sorted: seq<string>)
    requires Distinct(names)
    ensures Sorted(Less, sorted) && Distinct(sorted) && Elements(sorted) == Elements(names)
  {
    LessIsStrictTotal(Elements(names));
    SortSorts(Less, names);
    SortKeepsElements(Less, names);
    PermutationDistinct(names, Sort(Less, names));
    sorted := Sort(Less, names);
  }

  /** A ready replica to copy from, the empty name if there is none, and the pending ones in order. */
  method SelectRepairTargets(replicas: ReplicaSet) returns (source: NodeId, pending: seq<NodeId>)
    ensures Sorted(Less, pending) && Distinct(pending) && Elements(pending) == PendingNodes(replicas)
    ensures source != "" ==> IsRepairSource(replicas, source)
    ensures source == "" ==> NoSource(replicas)
  {
    var ready: seq<NodeId> := [];
    pending := [];
    var primary := "";
    var todo := replicas.Keys;
    while todo != {}
      invariant todo <= replicas.Keys && Distinct(ready) && Distinct(pending)
      invariant forall n :: n in ready <==> n in ReadyNodes(replicas) && n !in todo
      invariant forall n :: n in pending <==> n in PendingNodes(replicas) && n !in todo
      invariant primary != "" ==> primary in ready && replicas[primary].role == Primary
      invariant primary == "" ==> forall n :: n in ready && n != "" ==> replicas[n].role != Primary
      decreases |todo|
    {
      var n :| n in todo;
      todo := todo - {n};
      if replicas[n].state == Ready {
        ready := ready + [n];
        if replicas[n].role == Primary && n != "" {
          primary := n;
        }
      }
      if replicas[n].state == Pending {
        pending := pending + [n];
      }
    }
    assert Elements(ready) == ReadyNodes(replicas) && Elements(pending) == PendingNodes(replicas);
    ready := SortNames(ready);
    pending := SortNames(pending);
    assert forall n :: n in ready <==> n in Elements(ready);
    if primary != "" {
      source := primary;
    } else if |ready| > 0 {
      source := ready[0];
      FirstIsSmallest(replicas, ready);
    } else {
      source := "";
    }
  }

  lemma FirstIsSmallest(replicas: ReplicaSet, ready: seq<NodeId>)
    requires Sorted(Less, ready) && Elements(ready) == ReadyNodes(replicas) && ready != []
    requires forall n :: n in ReadyNodes(replicas) && n != "" ==> replicas[n].role != Primary
    ensures ready[0] != "" ==> IsRepairSource(replicas, ready[0])
    ensures ready[0] == "" ==> NoSource(replicas)
  {
    assert ready[0] in Elements(ready);
    forall n | n != "" && n in ReadyNodes(replicas) && ready[0] == "" ensures !Less(n, "") {
    }
    if ready[0] != "" {
      forall n | n in ReadyNodes(replicas) ensures replicas[n].role != Primary && (n == ready[0] || Less(ready[0], n)) {
        assert n in Elements(ready);
        var k :| 0 <= k < |ready| && ready[k] == n;
        if k > 0 {
          assert Less(ready[0], ready[k]);
          LessIrreflexive("");
        }
      }
    }
  }

  lemma {:induction false} DistinctSize<T>(s: seq<T>)
    requires Distinct(s)
    ensures |Elements(s)| == |s|
  {
    if s == [] {
      assert Elements(s) == {};
    } else {
      DistinctTail(s);
      DistinctSize(s[1..]);
    }
  }

  /** Asked for at least as many as there are candidates, placement returns all that are eligible. */
  lemma WholePlacement(candidates: seq<Node>, count: int, r: seq<Node>)
    requires Distinct(candidates) && DistinctIds(Elements(candidates)) && |candidates| <= count
    requires IsPlacement(Elements(candidates), {}, 0, count, r)
    ensures Elements(r) == EligibleNodes(Elements(candidates), {}, 0) && Distinct(r)
  {
    var all := Elements(candidates);
    var eligible := EligibleNodes(all, {}, 0);
    DistinctSize(candidates);
    SubsetSize(eligible, all);
    BetterStrictTotal(all);
    SortedCardinality(r, all);
    SubsetSameSize(Elements(r), eligible);
    forall i, j | 0 <= i < j < |r| ensures r[i] != r[j] {
      assert Better(r[i], r[j]) && r[i] in Elements(r);
    }
  }

  /** Eligible nodes among the due ones, by id. */
  method SelectTargets(s: State, due: seq<NodeId>, candidates: seq<Node>) returns (targets: seq<NodeId>)
    requires Keyed(s) && Distinct(candidates) && |candidates| <= |due|
    requires forall c :: c in candidates <==> c.id in due && c.id in s.nodes && s.nodes[c.id] == c && !Blank(c.address)
    ensures Distinct(targets) && Elements(targets) == Dispatched(s, Elements(due))
  {
    var selected := SelectPlacementTargets(candidates, {}, 0, |due|);
    assert forall c :: c in candidates <==> c in Elements(candidates);
    WholePlacement(candidates, |due|, selected);
    targets := [];
    for i := 0 to |selected|
      invariant |targets| == i && forall j :: 0 <= j < i ==> targets[j] == selected[j].id
    {
      targets := targets + [selected[i].id];
    }
    SelectedIds(s, due, candidates, selected, targets);
  }

  lemma SelectedIds(s: State, due: seq<NodeId>, candidates: seq<Node>, selected: seq<Node>, targets: seq<NodeId>)
    requires Keyed(s) && Distinct(selected)
    requires forall c :: c in candidates <==> c.id in due && c.id in s.nodes && s.nodes[c.id] == c && !Blank(c.address)
    requires Elements(selected) == EligibleNodes(Elements(candidates), {}, 0)
    requires |targets| == |selected| && forall j :: 0 <= j < |selected| ==> targets[j] == selected[j].id
    ensures Distinct(targets) && Elements(targets) == Dispatched(s, Elements(due))
  {
    forall j | 0 <= j < |selected|
      ensures selected[j].id in Dispatched(s, Elements(due)) && s.nodes[selected[j].id] == selected[j]
    {
      assert selected[j] in Elements(selected);
    }
    forall n | n in Dispatched(s, Elements(due)) ensures n in targets {
      assert s.nodes[n] in candidates;
      assert s.nodes[n] in Elements(selected);
      var j :| 0 <= j < |selected| && selected[j] == s.nodes[n];
      assert targets[j] == n;
    }
  }

  method Rest(due: seq<NodeId>, targets: seq<NodeId>) returns (skipped: seq<NodeId>)
    requires Distinct(due) && Distinct(targets) && Elements(targets) <= Elements(due)
    ensures Distinct(skipped) && Elements(skipped) == Elements(due) - Elements(targets)
    ensures |targets| + |skipped| == |due|
  {
    skipped := [];
    for i := 0 to |due|
      invariant Distinct(skipped)
      invariant forall n :: n in skipped <==> n in due[..i] && n !in targets
    {
      assert due[..i + 1] == due[..i] + [due[i]];
      if due[i] !in targets {
        assert due[i] !in due[..i];
        skipped := skipped + [due[i]];
      }
    }
    assert due[..|due|] == due;
    DistinctSize(due);
    DistinctSize(targets);
    DistinctSize(skipped);
    assert Elements(skipped) == Elements(due) - Elements(targets);
  }

  /** The due replicas a request is sent for, and the others. */
  method Dispatch(s: State, due: seq<NodeId>) returns (missing: bool, targets: seq<NodeId>, skipped: seq<NodeId>)
    requires Keyed(s) && Distinct(due)
    ensures missing <==> exists n :: n in due && n !in s.nodes
    ensures !missing ==> Distinct(targets) && Elements(targets) == Dispatched(s, Elements(due))
    ensures !missing ==> Distinct(skipped) && Elements(skipped) == Elements(due) - Elements(targets)
    ensures !missing ==> |targets| + |skipped| == |due|
  {
    missing, targets, skipped := false, [], [];
    var candidates: seq<Node> := [];
    for i := 0 to |due|
      invariant forall j :: 0 <= j < i ==> due[j] in s.nodes
      invariant Distinct(candidates) && |candidates| <= i
      invariant forall c :: c in candidates <==> c.id in due[..i] && s.nodes[c.id] == c && !Blank(c.address)
    {
      var n := due[i];
      assert due[..i + 1] == due[..i] + [n];
      if n !in s.nodes {
        missing := true;
        return;
      }
      if !Blank(s.nodes[n].address) {
        assert n !in due[..i];
        candidates := candidates + [s.nodes[n]];
      }
    }
    assert due[..|due|] == due;
    targets := SelectTargets(s, due, candidates);
    skipped := Rest(due, targets);
  }

  // ---------------------------------------------------------------- the schedule, one entry at a time

  lemma DeferKey(next: Schedule, keys: set<string>, k: string, at: int)
    ensures Deferred(next, keys, at)[k := at] == Deferred(next, keys + {k}, at)
  {
  }

  lemma KeysOneMore(chunk: ChunkId, nodes: set<NodeId>, n: NodeId)
    ensures Keys(chunk, nodes + {n}) == Keys(chunk, nodes) + {Key(chunk, n)}
  {
  }

  lemma DeferOneMore(next: Schedule, chunk: ChunkId, nodes: set<NodeId>, n: NodeId, at: int)
    ensures Deferred(next, Keys(chunk, nodes), at)[Key(chunk, n) := at] == Deferred(next, Keys(chunk, nodes + {n}), at)
  {
    KeysOneMore(chunk, nodes, n);
    DeferKey(next, Keys(chunk, nodes), Key(chunk, n), at);
  }

  lemma RecordReady(next: Schedule, a: Attempt, n: NodeId, backoff: int)
    requires n !in a.due && a.done <= a.due
    ensures Recorded(next, a, backoff) - {Key(a.chunk, n)}
            == Recorded(next, a.(due := a.due + {n}, done := a.done + {n}), backoff)
  {
    KeysOneMore(a.chunk, a.done, n);
    assert (a.due + {n}) - (a.done + {n}) == a.due - a.done;
    KeyInKeys(a.chunk, a.due - a.done, n);
  }

  lemma RecordDeferred(next: Schedule, a: Attempt, a': Attempt, n: NodeId, backoff: int)
    requires n !in a.due && a.done <= a.due && a' == a.(due := a.due + {n})
    ensures Recorded(next, a, backoff)[Key(a.chunk, n) := a.now + backoff] == Recorded(next, a', backoff)
  {
    var cleared, waiting, at := next - Keys(a.chunk, a.done), Keys(a.chunk, a.due - a.done), a.now + backoff;
    calc {
      Recorded(next, a, backoff)[Key(a.chunk, n) := at];
    == { RecordedByKeys(next, a, backoff); }
      Deferred(cleared, waiting, at)[Key(a.chunk, n) := at];
    == { DeferKey(cleared, waiting, Key(a.chunk, n), at); }
      Deferred(cleared, waiting + {Key(a.chunk, n)}, at);
    == { StillWaiting(a, n); }
      Deferred(cleared, Keys(a.chunk, (a.due + {n}) - a.done), at);
    == { RecordedByKeys(next, a', backoff); }
      Recorded(next, a', backoff);
    }
  }

  lemma RecordedByKeys(next: Schedule, a: Attempt, backoff: int)
    ensures Recorded(next, a, backoff)
            == Deferred(next - Keys(a.chunk, a.done), Keys(a.chunk, a.due - a.done), a.now + backoff)
  {
  }

  lemma StillWaiting(a: Attempt, n: NodeId)
    requires n !in a.due && a.done <= a.due
    ensures Keys(a.chunk, (a.due + {n}) - a.done) == Keys(a.chunk, a.due - a.done) + {Key(a.chunk, n)}
  {
    assert (a.due + {n}) - a.done == (a.due - a.done) + {n};
    KeysOneMore(a.chunk, a.due - a.done, n);
  }

  lemma AllDeferred(next: Schedule, chunk: ChunkId, due: set<NodeId>, now: int, backoff: int)
    ensures Deferred(next, Keys(chunk, due), now + backoff) == Recorded(next, Attempt(chunk, due, {}, now), backoff)
  {
    assert due - {} == due && Keys(chunk, {}) == {};
    assert next - {} == next;
  }

  lemma NoneRecorded(next: Schedule, chunk: ChunkId, now: int, backoff: int)
    ensures Recorded(next, Attempt(chunk, {}, {}, now), backoff) == next
  {
  }

  lemma SingleDeferred(next: Schedule, chunk: ChunkId, n: NodeId, at: int)
    ensures Deferred(next, Keys(chunk, Elements([n])), at) == next[Key(chunk, n) := at]
  {
    assert Elements([n]) == {n};
    assert Keys(chunk, {n}) == {Key(chunk, n)};
  }

  function Upserts(chunk: Chunk, due: set<NodeId>, done: set<NodeId>): ReplicaSet
    requires due <= chunk.replicas.Keys
  {
    map n | n in due :: RepairedReplica(chunk, n, n in done)
  }

  lemma UpsertOneMore(chunk: Chunk, due: set<NodeId>, done: set<NodeId>, n: NodeId, ready: bool)
    requires due + {n} <= chunk.replicas.Keys && n !in due && done <= due
    ensures Upserts(chunk, due, done)[n := RepairedReplica(chunk, n, ready)]
            == Upserts(chunk, due + {n}, if ready then done + {n} else done)
  {
  }

  lemma LogOneMore(log: seq<Attempt>, a: Attempt, backoff: int)
    requires Admissible(log, backoff) && MayAttempt(Replay(log, backoff), a)
    ensures Admissible(log + [a], backoff) && Replay(log + [a], backoff) == Recorded(Replay(log, backoff), a, backoff)
  {
    var more := log + [a];
    assert more[..|log|] == log;
    forall i | 0 <= i < |more| ensures Allowed(more, backoff, i) {
      assert i < |log| ==> more[..i] == log[..i] && Allowed(log, backoff, i);
    }
  }

  // ---------------------------------------------------------------- the repairer

  class PendingReplicaRepairer {
    const retryBackoff: int
    const maxReplicasPerRun: nat
    var nextAttempt: Schedule
    /** Every attempt made so far. */
    ghost var log: seq<Attempt>

    ghost predicate Valid()
      reads this
    {
      retryBackoff > 0 && maxReplicasPerRun > 0
      && Admissible(log, retryBackoff) && nextAttempt == Replay(log, retryBackoff)
    }

    /** A back-off of 30 seconds and a budget of 32 unless configured otherwise. */
    constructor (retryBackoff: nat, maxReplicasPerRun: nat)
      ensures Valid() && log == []
      ensures this.retryBackoff == (if retryBackoff == 0 then 30_000_000_000 else retryBackoff)
      ensures this.maxReplicasPerRun == if maxReplicasPerRun == 0 then 32 else maxReplicasPerRun
    {
      this.retryBackoff := if retryBackoff == 0 then 30_000_000_000 else retryBackoff;
      this.maxReplicasPerRun := if maxReplicasPerRun == 0 then 32 else maxReplicasPerRun;
      nextAttempt := map[];
      log := [];
    }

    method SelectDueTargets(chunk: ChunkId, nodes: seq<NodeId>, limit: nat, now: int) returns (due: seq<NodeId>)
      ensures due == Cut(DueOf(nextAttempt, chunk, nodes, now), limit)
    {
      due := [];
      for i := 0 to |nodes|
        invariant due == DueOf(nextAttempt, chunk, nodes[..i], now) && |due| <= limit
      {
        if |due| == limit {
          DuePrefix(nextAttempt, chunk, nodes, i, now);
          return;
        }
        assert nodes[..i + 1][..i] == nodes[..i];
        if !(Key(chunk, nodes[i]) in nextAttempt && nextAttempt[Key(chunk, nodes[i])] > now) {
          due := due + [nodes[i]];
        }
      }
      assert nodes[..|nodes|] == nodes;
    }

    method DeferTargets(chunk: ChunkId, nodes: seq<NodeId>, now: int)
      modifies this`nextAttempt
      ensures nextAttempt == Deferred(old(nextAttempt), Keys(chunk, Elements(nodes)), now + retryBackoff)
    {
      var retryAt := now + retryBackoff;
      assert Elements(nodes[..0]) == {} && Keys(chunk, {}) == {};
      for i := 0 to |nodes|
        invariant nextAttempt == Deferred(old(nextAttempt), Keys(chunk, Elements(nodes[..i])), retryAt)
      {
        assert Elements(nodes[..i + 1]) == Elements(nodes[..i]) + {nodes[i]};
        DeferOneMore(old(nextAttempt), chunk, Elements(nodes[..i]), nodes[i], retryAt);
        nextAttempt := nextAttempt[Key(chunk, nodes[i]) := retryAt];
      }
      assert nodes[..|nodes|] == nodes;
    }

    method ClearRetry(chunk: ChunkId, node: NodeId)
      modifies this`nextAttempt
      ensures nextAttempt == old(nextAttempt) - {Key(chunk, node)}
    {
      nextAttempt := nextAttempt - {Key(chunk, node)};
    }

    /** The schedule and the new replica record for one due replica. */
    method RecordOne(chunk: Chunk, n: NodeId, ready: bool, now: int, upserts: ReplicaSet, ghost base: Schedule,
                     ghost a: Attempt)
      returns (upserts': ReplicaSet, ghost a': Attempt)
      requires a.chunk == chunk.id && a.now == now && a.done <= a.due && n !in a.due
               && a.due + {n} <= chunk.replicas.Keys
      requires nextAttempt == Recorded(base, a, retryBackoff) && upserts == Upserts(chunk, a.due, a.done)
      modifies this`nextAttempt
      ensures a' == a.(due := a.due + {n}, done := if ready then a.done + {n} else a.done)
      ensures nextAttempt == Recorded(base, a', retryBackoff) && upserts' == Upserts(chunk, a'.due, a'.done)
      ensures |a'.done| == |a.done| + if ready then 1 else 0
    {
      a' := a.(due := a.due + {n}, done := if ready then a.done + {n} else a.done);
      UpsertOneMore(chunk, a.due, a.done, n, ready);
      upserts' := upserts[n := RepairedReplica(chunk, n, ready)];
      if ready {
        RecordReady(base, a, n, retryBackoff);
        ClearRetry(chunk.id, n);
      } else {
        RecordDeferred(base, a, a', n, retryBackoff);
        SingleDeferred(nextAttempt, chunk.id, n, now + retryBackoff);
        DeferTargets(chunk.id, [n], now);
      }
    }

    /** What the response means for the targets. */
    method RecordAnswers(chunk: Chunk, targets: seq<NodeId>, ready: set<NodeId>, now: int)
      returns (upserts: ReplicaSet, succeeded: nat, failed: nat)
      requires Distinct(targets) && Elements(targets) <= chunk.replicas.Keys && ready <= Elements(targets)
      modifies this`nextAttempt
      ensures nextAttempt == Recorded(old(nextAttempt), Attempt(chunk.id, Elements(targets), ready, now), retryBackoff)
      ensures upserts == Upserts(chunk, Elements(targets), ready)
      ensures succeeded == |ready| && succeeded + failed == |targets|
    {
      ghost var base := nextAttempt;
      ghost var a := Attempt(chunk.id, {}, {}, now);
      NoneRecorded(base, chunk.id, now, retryBackoff);
      assert Elements(targets[..0]) == {} && Elements(targets[..0]) * ready == {};
      upserts, succeeded, failed := map[], 0, 0;
      for i := 0 to |targets|
        invariant a == Attempt(chunk.id, Elements(targets[..i]), Elements(targets[..i]) * ready, now)
        invariant nextAttempt == Recorded(base, a, retryBackoff) && upserts == Upserts(chunk, a.due, a.done)
        invariant succeeded == |a.done| && succeeded + failed == i
      {
        OneMoreElement(targets, i);
        OneMoreReady(targets, i, ready);
        upserts, a := RecordOne(chunk, targets[i], targets[i] in ready, now, upserts, base, a);
        if targets[i] in ready {
          succeeded := succeeded + 1;
        } else {
          failed := failed + 1;
        }
      }
      assert targets[..|targets|] == targets;
      assert Elements(targets) * ready == ready;
    }

    /** The replicas no request was sent for fail too. */
    method RecordSkipped(chunk: Chunk, skipped: seq<NodeId>, now: int, upserts: ReplicaSet, ghost base: Schedule,
                         ghost a: Attempt)
      returns (upserts': ReplicaSet)
      requires a.chunk == chunk.id && a.now == now && a.done <= a.due && Distinct(skipped) && a.due !! Elements(skipped)
      requires a.due + Elements(skipped) <= chunk.replicas.Keys
      requires nextAttempt == Recorded(base, a, retryBackoff) && upserts == Upserts(chunk, a.due, a.done)
      modifies this`nextAttempt
      ensures nextAttempt == Recorded(base, a.(due := a.due + Elements(skipped)), retryBackoff)
      ensures upserts' == Upserts(chunk, a.due + Elements(skipped), a.done)
    {
      upserts' := upserts;
      ghost var b := a;
      for i := 0 to |skipped|
        invariant b == a.(due := a.due + Elements(skipped[..i]))
        invariant nextAttempt == Recorded(base, b, retryBackoff) && upserts' == Upserts(chunk, b.due, b.done)
      {
        OneMoreElement(skipped, i);
        upserts', b := RecordOne(chunk, skipped[i], false, now, upserts', base, b);
      }
      assert skipped[..|skipped|] == skipped;
    }

    /** All due replicas fail and wait. */
    method FailAll(chunk: ChunkId, due: seq<NodeId>, attempted: nat, now: int) returns (o: Outcome)
      requires attempted <= |due|
      modifies this`nextAttempt
      ensures nextAttempt == Recorded(old(nextAttempt), Attempt(chunk, Elements(due), {}, now), retryBackoff)
      ensures o == Outcome(attempted, 0, |due|, |due|)
    {
      AllDeferred(nextAttempt, chunk, Elements(due), now, retryBackoff);
      DeferTargets(chunk, due, now);
      o := Outcome(attempted, 0, |due|, |due|);
    }

    /** The request itself, to targets that can be sent one. */
    method CopyTo(repo: Repository, cluster: Cluster, now: int, chunk: Chunk, source: NodeId, due: seq<NodeId>,
                  targets: seq<NodeId>, skipped: seq<NodeId>, net: Net)
      returns (o: Outcome, err: bool)
      requires chunk.id in repo.state.chunks && repo.state.chunks[chunk.id] == chunk
      requires Elements(due) <= PendingNodes(chunk.replicas) && IsRepairSource(chunk.replicas, source)
      requires Addressable(repo.state, source, Elements(due))
               && Elements(targets) == Dispatched(repo.state, Elements(due)) != {}
      requires Distinct(due) && Distinct(targets) && Distinct(skipped)
      requires Elements(skipped) == Elements(due) - Elements(targets) && |targets| + |skipped| == |due|
      modifies repo, cluster, this`nextAttempt
      ensures WorldOf(repo, cluster)
              == Coordinator.RepairChunk(old(WorldOf(repo, cluster)), chunk.id, source, Elements(due), net)
      ensures nextAttempt == Recorded(old(nextAttempt), Attempt(chunk.id, Elements(due),
                Succeeded(old(WorldOf(repo, cluster)), chunk.id, source, Elements(due), net), now), retryBackoff)
      ensures IsOutcome(o, old(WorldOf(repo, cluster)), chunk.id, source, Elements(due), net)
      ensures err == CopyFails(old(WorldOf(repo, cluster)), chunk.id, source, Elements(due), net)
    {
      DistinctSize(due);
      DistinctSize(targets);
      var ready := cluster.Replicate(source, chunk.id, targets, net);
      if ready.None? {
        o := FailAll(chunk.id, due, |targets|, now);
        return o, true;
      }
      ghost var base := nextAttempt;
      var upserts, succeeded, failed := RecordAnswers(chunk, targets, ready.value, now);
      upserts := RecordSkipped(chunk, skipped, now, upserts, base,
                               Attempt(chunk.id, Elements(targets), ready.value, now));
      failed := failed + |skipped|;
      assert Elements(targets) + Elements(skipped) == Elements(due);
      repo.state := repo.state.(chunks := repo.state.chunks[chunk.id :=
                      Patched(chunk, ReplicaPatch(upserts, {}, Some(|chunk.replicas|), None))]);
      o := Outcome(|targets|, succeeded, failed, failed);
      err := false;
    }

    method ExecuteReplicaCopy(repo: Repository, cluster: Cluster, now: int, chunk: Chunk, source: NodeId,
                              due: seq<NodeId>, net: Net)
      returns (o: Outcome, err: bool)
      requires Keyed(repo.state) && chunk.id in repo.state.chunks && repo.state.chunks[chunk.id] == chunk
      requires Distinct(due) && Elements(due) <= PendingNodes(chunk.replicas) && IsRepairSource(chunk.replicas, source)
      modifies repo, cluster, this`nextAttempt
      ensures WorldOf(repo, cluster)
              == Coordinator.RepairChunk(old(WorldOf(repo, cluster)), chunk.id, source, Elements(due), net)
      ensures nextAttempt == Recorded(old(nextAttempt), Attempt(chunk.id, Elements(due),
                Succeeded(old(WorldOf(repo, cluster)), chunk.id, source, Elements(due), net), now), retryBackoff)
      ensures IsOutcome(o, old(WorldOf(repo, cluster)), chunk.id, source, Elements(due), net)
      ensures err == CopyFails(old(WorldOf(repo, cluster)), chunk.id, source, Elements(due), net)
    {
      DistinctSize(due);
      if source !in repo.state.nodes || Blank(repo.state.nodes[source].address) {
        o := FailAll(chunk.id, due, 0, now);
        return o, true;
      }
      var missing, targets, skipped := Dispatch(repo.state, due);
      if missing {
        o := FailAll(chunk.id, due, 0, now);
        return o, true;
      }
      if |targets| == 0 {
        assert Dispatched(repo.state, Elements(due)) == {};
        o := FailAll(chunk.id, due, 0, now);
        return o, false;
      }
      assert targets[0] in Elements(targets);
      o, err := CopyTo(repo, cluster, now, chunk, source, due, targets, skipped, net);
    }

    /** One logged attempt at the replicas that are due. */
    method AttemptRepair(repo: Repository, cluster: Cluster, now: int, chunk: Chunk, source: NodeId, due: seq<NodeId>,
                         net: Net, ghost left: nat, ghost pass: Pass)
      returns (o: Outcome, err: bool, ghost a: Action)
      requires Valid() && Keyed(repo.state) && chunk.id in repo.state.chunks && repo.state.chunks[chunk.id] == chunk
      requires pass.now == now && pass.backoff == retryBackoff && IsRepairSource(chunk.replicas, source)
      requires due != [] && Distinct(due) && Elements(due) <= PendingNodes(chunk.replicas)
      requires forall n :: n in due ==> IsDue(nextAttempt, chunk.id, n, now)
      requires IsFirstDue(nextAttempt, chunk, left, now, Elements(due))
      modifies repo, cluster, this
      ensures Valid() && a == RepairAction(chunk.id, source, Elements(due), net)
      ensures Attempted(pass, old(WorldOf(repo, cluster)), WorldOf(repo, cluster), old(log), log, left, a, o, err)
    {
      a := RepairAction(chunk.id, source, Elements(due), net);
      assert due[0] in Elements(due);
      ghost var w := WorldOf(repo, cluster);
      ghost var attempt := Attempt(chunk.id, Elements(due), Succeeded(w, chunk.id, source, Elements(due), net), now);
      MayTryDue(nextAttempt, w, chunk.id, source, Elements(due), net, now);
      LogOneMore(log, attempt, retryBackoff);
      o, err := ExecuteReplicaCopy(repo, cluster, now, chunk, source, due, net);
      AttemptMade(pass, w, WorldOf(repo, cluster), log, left, chunk, source, Elements(due), net, o, err);
      log := log + [attempt];
    }

    /** One chunk: nothing exactly when there is no budget, no source or nothing due; otherwise one
        logged attempt at its first due replicas. */
    method RepairChunk(repo: Repository, cluster: Cluster, now: int, chunk: Chunk, remaining: nat, net: Net,
                       ghost pass: Pass)
      returns (o: Outcome, err: bool, ghost acted: Option<Action>)
      requires Valid() && Keyed(repo.state) && chunk.id in repo.state.chunks && repo.state.chunks[chunk.id] == chunk
      requires pass.now == now && pass.backoff == retryBackoff
      modifies repo, cluster, this
      ensures Valid()
      ensures acted.None? <==> remaining == 0 || NoSource(chunk.replicas) || NoneDue(old(nextAttempt), chunk, now)
      ensures acted.None? ==>
                o == NOTHING && !err && log == old(log) && WorldOf(repo, cluster) == old(WorldOf(repo, cluster))
      ensures acted.Some? ==> acted.value.RepairAction? && acted.value.chunk == chunk.id && acted.value.net == net
      ensures acted.Some? ==>
                Attempted(pass, old(WorldOf(repo, cluster)), WorldOf(repo, cluster), old(log), log, remaining,
                          acted.value,
                          o, err)
      ensures acted.Some? ==> |acted.value.due| <= remaining
    {
      o, err, acted := NOTHING, false, None;
      var source, pending := SelectRepairTargets(chunk.replicas);
      if source == "" || |pending| == 0 || remaining == 0 {
        assert |pending| == 0 ==> Elements(pending) == {};
        return;
      }
      var due := SelectDueTargets(chunk.id, pending, remaining, now);
      FirstDueIsDue(nextAttempt, chunk, pending, due, remaining, now);
      if |due| == 0 {
        return;
      }
      DistinctSize(due);
      ghost var a;
      o, err, a := AttemptRepair(repo, cluster, now, chunk, source, due, net, remaining, pass);
      acted := Some(a);
    }

    /** The next chunk in a list. */
    method RepairNext(repo: Repository, cluster: Cluster, now: int, chunks: seq<Chunk>, i: nat, remaining: nat,
                      net: Net, total: Outcome, ghost pass: Pass, ghost done: Tally, ghost failed: bool)
      returns (total': Outcome, remaining': nat, err: bool, ghost done': Tally)
      requires Valid() && i < |chunks| && AsListed(repo.state, chunks, i) && remaining > 0
      requires Progress(pass, WorldOf(repo, cluster), log, done, failed) && Charged(pass, done, total, remaining)
      requires pass.now == now && pass.backoff == retryBackoff
      modifies repo, cluster, this
      ensures Valid() && AsListed(repo.state, chunks, i + 1) && OthersStay(old(repo.state), repo.state, chunks[i].id)
      ensures Progress(pass, WorldOf(repo, cluster), log, done', failed || err)
              && Charged(pass, done', total', remaining')
      ensures old(log) <= log && HadTurn(pass, log, chunks[i])
    {
      ghost var w, before := WorldOf(repo, cluster), log;
      var o;
      ghost var acted;
      o, err, acted := RepairChunk(repo, cluster, now, chunks[i], remaining, net, pass);
      done' := done;
      if acted.Some? {
        ghost var a := acted.value;
        ProgressOneMore(pass, w, WorldOf(repo, cluster), before, log, done, remaining, a, o, failed, err);
        OutcomeBounds(o, w, a.chunk, a.source, a.due, a.net);
        RepairLeavesOthers(w, chunks, i, a.source, a.due, a.net);
        done' := Tally(done.actions + [a], done.outcomes + [o]);
      }
      TurnNow(pass, before, log, chunks[i]);
      total' := Plus(total, o);
      remaining' := remaining - o.attempted;
    }

    method RepairFile(repo: Repository, cluster: Cluster, now: int, file: FileId, budget: nat, nets: ChunkId -> Net,
                      total: Outcome, ghost pass: Pass, ghost done: Tally, ghost failed: bool)
      returns (total': Outcome, remaining: nat, err: bool, ghost done': Tally)
      requires Valid() && Progress(pass, WorldOf(repo, cluster), log, done, failed)
               && Charged(pass, done, total, budget)
      requires pass.now == now && pass.backoff == retryBackoff
      modifies repo, cluster, this
      ensures Valid() && OtherFilesStay(old(repo.state), repo.state, file)
      ensures Progress(pass, WorldOf(repo, cluster), log, done', failed || err)
              && Charged(pass, done', total', remaining)
      ensures old(log) <= log && (remaining > 0 ==> FileHadTurn(pass, log, old(repo.state).chunks, file))
    {
      total', remaining, done', err := total, budget, done, false;
      var chunks := ListFileChunks(repo.state, file);
      ghost var first := repo.state;
      for i := 0 to |chunks|
        invariant Valid() && AsListed(repo.state, chunks, i) && old(log) <= log
        invariant OtherFilesStay(first, repo.state, file)
        invariant Progress(pass, WorldOf(repo, cluster), log, done', failed || err)
                  && Charged(pass, done', total', remaining)
        invariant HadTurns(pass, log, chunks, i)
      {
        if remaining == 0 {
          return;
        }
        ghost var before, seen := repo.state, log;
        var e;
        total', remaining, e, done' :=
          RepairNext(repo, cluster, now, chunks, i, remaining, nets(chunks[i].id), total', pass, done', failed || err);
        err := err || e;
        FileStays(first, before, repo.state, chunks[i], file);
        TurnsKept(pass, seen, log, chunks, i);
      }
    }

    /** One pass: a run of repair steps, one logged attempt each.  The totals add up what the steps
        came to, the requests sent stay within the budget, and an error is reported exactly when
        some copy failed.  With budget left every chunk of a recorded file has had its turn. */
    method RepairOnce(repo: Repository, cluster: Cluster, now: int, nets: ChunkId -> Net)
      returns (total: Outcome, failed: bool, ghost pass: Pass, ghost done: Tally)
      requires Valid() && Sound(repo.state) && FilesKeyed(repo.state.files)
      modifies repo, cluster, this
      ensures Valid() && pass == Pass(old(WorldOf(repo, cluster)), old(log), now, maxReplicasPerRun, retryBackoff)
      ensures Progress(pass, WorldOf(repo, cluster), log, done, failed)
      ensures total == Total(done.outcomes) && total.attempted <= maxReplicasPerRun
      ensures total.attempted < maxReplicasPerRun ==>
                forall c :: c in old(repo.state).chunks && old(repo.state).chunks[c].fileId in old(repo.state).files ==>
                  HadTurn(pass, log, old(repo.state).chunks[c])
    {
      pass := Pass(WorldOf(repo, cluster), log, now, maxReplicasPerRun, retryBackoff);
      total, failed, done := NOTHING, false, Tally([], []);
      var remaining := maxReplicasPerRun;
      ghost var first := repo.state;
      var files := ListFiles(repo.state.files);
      for i := 0 to |files|
        invariant Valid() && Progress(pass, WorldOf(repo, cluster), log, done, failed)
                  && Charged(pass, done, total, remaining)
        invariant FilesAhead(first, repo.state, files, i)
        invariant remaining > 0 ==> forall j :: 0 <= j < i ==> FileHadTurn(pass, log, first.chunks, files[j].id)
      {
        if remaining == 0 {
          return;
        }
        ghost var before, seen := repo.state, log;
        var e;
        total, remaining, e, done := RepairFile(repo, cluster, now, files[i].id, remaining, nets, total, pass, done,
                                                failed);
        failed := failed || e;
        NextFile(pass, first, before, repo.state, files, i, seen, log, remaining > 0);
      }
    }
  }

  /** Requests sent so far and budget left make up the budget. */
  predicate Charged(pass: Pass, done: Tally, total: Outcome, remaining: nat) {
    total == Total(done.outcomes) && total.attempted + remaining == pass.budget
  }

  /** Everything but chunk `c` stays; that one stays in its file. */
  predicate OthersStay(s: State, t: State, c: ChunkId) {
    && t.chunks.Keys == s.chunks.Keys && c in s.chunks && t.chunks[c].fileId == s.chunks[c].fileId
    && forall d :: d in s.chunks && d != c ==> t.chunks[d] == s.chunks[d]
  }

  /** Chunks of other files stay, and no chunk changes its file. */
  predicate OtherFilesStay(s: State, t: State, f: FileId) {
    && t.chunks.Keys == s.chunks.Keys
    && forall c :: c in s.chunks ==>
         t.chunks[c].fileId == s.chunks[c].fileId && (s.chunks[c].fileId != f ==> t.chunks[c] == s.chunks[c])
  }

  lemma FileStays(first: State, s: State, t: State, chunk: Chunk, f: FileId)
    requires OtherFilesStay(first, s, f) && OthersStay(s, t, chunk.id) && s.chunks[chunk.id].fileId == f
    ensures OtherFilesStay(first, t, f)
  {
  }

  ghost predicate HadTurns(pass: Pass, log: seq<Attempt>, chunks: seq<Chunk>, n: nat)
    requires n <= |chunks|
  {
    forall j :: 0 <= j < n ==> HadTurn(pass, log, chunks[j])
  }

  lemma TurnsKept(pass: Pass, log: seq<Attempt>, log': seq<Attempt>, chunks: seq<Chunk>, i: nat)
    requires i < |chunks| && HadTurns(pass, log, chunks, i) && HadTurn(pass, log', chunks[i]) && log <= log'
    ensures HadTurns(pass, log', chunks, i + 1)
  {
    forall j | 0 <= j < i ensures HadTurn(pass, log', chunks[j]) {
      TurnKept(pass, log, log', chunks[j]);
    }
  }

  ghost predicate FileHadTurn(pass: Pass, log: seq<Attempt>, chunks: map<ChunkId, Chunk>, f: FileId) {
    forall c :: c in chunks && chunks[c].fileId == f ==> HadTurn(pass, log, chunks[c])
  }

  /** The chunks of the files from `i` on are as they were. */
  predicate FilesAhead(first: State, s: State, files: seq<File>, i: nat)
    requires i <= |files|
  {
    && s.chunks.Keys == first.chunks.Keys
    && (forall c :: c in first.chunks ==> s.chunks[c].fileId == first.chunks[c].fileId)
    && forall j, c :: i <= j < |files| && c in first.chunks && first.chunks[c].fileId == files[j].id ==>
         s.chunks[c] == first.chunks[c]
  }

  lemma NextFile(pass: Pass, first: State, s: State, t: State, files: seq<File>, i: nat, log: seq<Attempt>,
                 log': seq<Attempt>, left: bool)
    requires i < |files| && forall k, j :: 0 <= k < j < |files| ==> files[k].id != files[j].id
    requires FilesAhead(first, s, files, i) && OtherFilesStay(s, t, files[i].id) && log <= log'
    requires left ==> FileHadTurn(pass, log', s.chunks, files[i].id)
    requires left ==> forall j :: 0 <= j < i ==> FileHadTurn(pass, log, first.chunks, files[j].id)
    ensures FilesAhead(first, t, files, i + 1)
    ensures left ==> forall j :: 0 <= j < i + 1 ==> FileHadTurn(pass, log', first.chunks, files[j].id)
  {
    if left {
      forall j, c | 0 <= j < i + 1 && c in first.chunks && first.chunks[c].fileId == files[j].id
        ensures HadTurn(pass, log', first.chunks[c])
      {
        if j < i {
          assert FileHadTurn(pass, log, first.chunks, files[j].id);
          TurnKept(pass, log, log', first.chunks[c]);
        } else {
          assert s.chunks[c] == first.chunks[c];
        }
      }
    }
  }

  predicate FilesKeyed(files: map<FileId, File>) {
    forall f :: f in files ==> files[f].id == f
  }

  predicate ByPath(a: File, b: File) {
    Less(a.path, b.path)
  }

  method ListFiles(files: map<FileId, File>) returns (l: seq<File>)
    requires FilesKeyed(files)
    ensures forall f :: f in files ==> exists j :: 0 <= j < |l| && l[j].id == f
    ensures forall i, j :: 0 <= i < j < |l| ==> l[i].id != l[j].id
  {
    var all := (f: File) => true;
    l := ListWhere(files, all, ByPath);
    forall f | f in files ensures exists j :: 0 <= j < |l| && l[j].id == f {
      assert files[f] in Matching(files, all);
      assert files[f] in Elements(l);
      var j :| 0 <= j < |l| && l[j] == files[f];
    }
    forall j | 0 <= j < |l| ensures l[j].id in files && files[l[j].id] == l[j] {
      assert l[j] in Elements(l);
    }
  }

  method ListFileChunks(s: State, file: FileId) returns (l: seq<Chunk>)
    requires Keyed(s)
    ensures AsListed(s, l, 0) && forall j :: 0 <= j < |l| ==> l[j].fileId == file
    ensures forall c :: c in s.chunks && s.chunks[c].fileId == file ==> s.chunks[c] in l
  {
    var ofFile := (c: Chunk) => c.fileId == file;
    l := ListWhere(s.chunks, ofFile, ByFileAndIndex);
    assert forall j :: 0 <= j < |l| ==> l[j] in Elements(l);
    forall c | c in s.chunks && s.chunks[c].fileId == file ensures s.chunks[c] in l {
      assert s.chunks[c] in Matching(s.chunks, ofFile);
    }
  }

  /** The chunks from `i` on are still as they were listed. */
  predicate AsListed(s: State, chunks: seq<Chunk>, i: nat) {
    && (forall j :: i <= j < |chunks| ==> chunks[j].id in s.chunks && s.chunks[chunks[j].id] == chunks[j])
    && (forall k, j :: 0 <= k < j < |chunks| ==> chunks[k].id != chunks[j].id)
  }

  lemma RepairLeavesOthers(w: World, chunks: seq<Chunk>, i: nat, source: NodeId, due: set<NodeId>, net: Net)
    requires i < |chunks| && AsListed(w.db, chunks, i)
    ensures var t := Coordinator.RepairChunk(w, chunks[i].id, source, due, net).db;
            AsListed(t, chunks, i + 1) && OthersStay(w.db, t, chunks[i].id)
  {
  }

  lemma OneMoreElement(s: seq<NodeId>, i: nat)
    requires Distinct(s) && i < |s|
    ensures Elements(s[..i + 1]) == Elements(s[..i]) + {s[i]} && s[i] !in Elements(s[..i]) && s[i] in Elements(s)
    ensures Elements(s[..i]) <= Elements(s)
  {
    assert s[..i + 1] == s[..i] + [s[i]];
  }

  lemma OneMoreReady(s: seq<NodeId>, i: nat, ready: set<NodeId>)
    requires i < |s|
    ensures Elements(s[..i + 1]) * ready
            == if s[i] in ready then Elements(s[..i]) * ready + {s[i]} else Elements(s[..i]) * ready
  {
    assert s[..i + 1] == s[..i] + [s[i]];
  }
}
