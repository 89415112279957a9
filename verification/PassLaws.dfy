/** What a pass of the clean-up controller looks at, what a repair attempt picks, and how it is
    accounted for and scheduled again, said on the fields of plans, replicas and the schedule. */
module PassLaws {
  import opened Metadata
  import opened Strings
  import opened Sorting
  import opened Listing
  import opened Coordinator
  import opened ReplicaProtocol
  import opened CleanupController
  import opened RepairSchedule
  import opened RepairPass
  import opened RepairLaws

  // ---------------------------------------------------------------- clean-up

  /** A failover or rebalance plan whose target has been recorded and that is not finished. */
  predicate UnderWay(p: Plan) {
    p.kind != Cleanup && p.state in {Materialized, CopyReady, CleanupReady}
  }

  /** A pass looks at the oldest such plans, of equal age at those with the smaller ids, at all of them
      if the limit allows. */
  lemma WindowIsOldest(plans: Plans, limit: int, l: seq<Plan>, i: nat)
    requires IsWindow(plans, limit, l) && i < |l|
    ensures |l| <= limit && UnderWay(l[i]) && l[i] in plans.Values
    ensures forall j :: i < j < |l| ==> Before(l[i], l[j])
    ensures forall p :: p in plans && UnderWay(plans[p]) && plans[p] !in l ==> |l| == limit && Before(l[i], plans[p])
  {
    assert forall q :: q in l <==> q in Elements(l);
    assert l[i] in Elements(l);
    forall p | p in plans && UnderWay(plans[p]) && plans[p] !in l ensures |l| == limit && Before(l[i], plans[p]) {
      assert Due(plans[p]) && plans[p] in Matching(plans, Due) - Elements(l);
      assert Older(l[i], plans[p]);
    }
  }

  predicate Before(p: Plan, q: Plan) {
    p.createdAt < q.createdAt || (p.createdAt == q.createdAt && Less(p.id, q.id))
  }

  lemma NothingPassedOver(plans: Plans, limit: int, l: seq<Plan>)
    requires IsWindow(plans, limit, l) && |l| < limit
    ensures forall p :: p in plans && UnderWay(plans[p]) ==> plans[p] in l
  {
    forall p | p in plans && UnderWay(plans[p]) ensures plans[p] in l {
      assert Due(plans[p]) && plans[p] in Matching(plans, Due);
      assert plans[p] in Elements(l);
    }
  }

  /** A pass fails at a plan exactly when the chunk is gone, or when it is a failover plan with a ready
      target whose source replica is gone. */
  lemma BlocksIff(s: State, plan: Plan)
    requires plan.id in s.plans && s.plans[plan.id] == plan && UnderWay(plan)
    ensures Blocks(s, plan) <==>
            || plan.chunkId !in s.chunks
            || (plan.kind == Failover && plan.target in s.chunks[plan.chunkId].replicas
                && s.chunks[plan.chunkId].replicas[plan.target].state == Ready
                && plan.source !in s.chunks[plan.chunkId].replicas)
  {
  }

  // ---------------------------------------------------------------- repair

  /** The pending replicas that do not have to wait. */
  function Waiting(next: Schedule, chunk: Chunk, now: int): set<NodeId> {
    set n | n in chunk.replicas && chunk.replicas[n].state == Pending
            && (chunk.id + "::" + n in next ==> next[chunk.id + "::" + n] <= now)
  }

  /** An attempt is for the pending replicas that do not have to wait, for those with the smallest node
      ids if the limit does not allow all. */
  lemma FirstDueIs(next: Schedule, chunk: Chunk, limit: nat, now: int, due: set<NodeId>)
    requires IsFirstDue(next, chunk, limit, now, due)
    ensures due <= Waiting(next, chunk, now)
    ensures |due| == if limit < |Waiting(next, chunk, now)| then limit else |Waiting(next, chunk, now)|
    ensures forall m, n :: m in due && n in Waiting(next, chunk, now) && n !in due ==> Less(m, n)
  {
    var pending :| IsPending(chunk, pending) && due == Elements(Cut(DueOf(next, chunk.id, pending, now), limit));
    var all := DueOf(next, chunk.id, pending, now);
    DueElements(next, chunk.id, pending, now);
    DueSorted(next, chunk.id, pending, now);
    forall n ensures n in Elements(all) <==> n in Waiting(next, chunk, now) {
      assert n in Elements(all) <==> n in all;
      assert n in pending <==> n in Elements(pending);
      assert Key(chunk.id, n) == chunk.id + "::" + n;
    }
    assert Elements(all) == Waiting(next, chunk, now);
    DistinctSize(all);
    DistinctSize(Cut(all, limit));
    CutIsFirst(all, limit);
  }

  lemma CutIsFirst(all: seq<NodeId>, limit: nat)
    requires Sorted(Less, all)
    ensures Elements(Cut(all, limit)) <= Elements(all)
    ensures forall m, n :: m in Elements(Cut(all, limit)) && n in Elements(all) && n !in Elements(Cut(all, limit)) ==>
              Less(m, n)
  {
    var cut := Cut(all, limit);
    assert forall k :: 0 <= k < |cut| ==> cut[k] == all[k] && cut[k] in Elements(cut);
    forall m, n | m in Elements(cut) && n in Elements(all) && n !in Elements(cut) ensures Less(m, n) {
      var i :| 0 <= i < |cut| && cut[i] == m;
      var j :| 0 <= j < |all| && all[j] == n;
    }
  }

  lemma {:induction false} DueSorted(next: Schedule, chunk: ChunkId, nodes: seq<NodeId>, now: int)
    requires Sorted(Less, nodes) && Distinct(nodes)
    ensures Sorted(Less, DueOf(next, chunk, nodes, now))
  {
    if nodes != [] {
      var last := |nodes| - 1;
      DueSorted(next, chunk, nodes[..last], now);
      DueElements(next, chunk, nodes[..last], now);
      var rest := DueOf(next, chunk, nodes[..last], now);
      forall i | 0 <= i < |rest| ensures Less(rest[i], nodes[last]) {
        assert rest[i] in nodes[..last];
        var j :| 0 <= j < last && nodes[j] == rest[i];
      }
    }
  }

  lemma {:induction false} DistinctSize(s: seq<NodeId>)
    requires Distinct(s)
    ensures |Elements(s)| == |s|
  {
    if s == [] {
      assert Elements(s) == {};
    } else {
      var last := |s| - 1;
      DistinctSize(s[..last]);
      assert s == s[..last] + [s[last]];
      assert Elements(s) == Elements(s[..last]) + {s[last]};
      assert s[last] !in s[..last];
    }
  }

  /** There is nothing to copy from exactly when no node with a name has a ready replica. */
  lemma NoSourceIff(replicas: ReplicaSet)
    requires "" !in replicas
    ensures NoSource(replicas) <==> forall n :: n in replicas ==> replicas[n].state != Ready
  {
    var ready := ReadyNodes(replicas);
    if ready != {} {
      if p :| p in ready && replicas[p].role == Primary {
        assert IsRepairSource(replicas, p);
      } else {
        LessIsStrictTotal(ready);
        var n := LeastExists(Less, ready);
        assert forall m :: m in ready && m != n ==> Less(n, m);
        assert IsRepairSource(replicas, n);
      }
    }
    forall n | n in replicas ensures n in ready <==> replicas[n].state == Ready {
    }
  }

  /** Source and due nodes are known, and the source can be reached. */
  predicate Known(s: State, source: NodeId, due: set<NodeId>) {
    source in s.nodes && !Blank(s.nodes[source].address) && forall n :: n in due ==> n in s.nodes
  }

  /** The account of an attempt: as many requests as nodes that take a copy, as many successes as copies
      that arrived and were reported, and everything else due is a failure and deferred. */
  lemma AccountIff(o: Outcome, w: World, c: ChunkId, source: NodeId, due: set<NodeId>, net: Net)
    ensures IsOutcome(o, w, c, source, due, net) <==>
            && o.attempted == (if Known(w.db, source, due) then |set n | n in due && TakesCopy(w.db, n)| else 0)
            && o.succeeded == (if MayCopy(w, c, source, due) && net.responded
                               then |set n | n in due && Arrives(w, due, net, n) && n in net.acked| else 0)
            && o.failed == |due| - o.succeeded && o.deferred == |due| - o.succeeded
  {
    MayCopyIff(w, c, source, due);
    assert Dispatched(w.db, due) == set n | n in due && TakesCopy(w.db, n);
    assert Dispatched(w.db, due) * net.delivered * net.acked ==
           set n | n in due && Arrives(w, due, net, n) && n in net.acked;
  }

  /** The attempt ends with an error exactly when a node is not known, the source cannot be reached, or
      requests were due and the source has no bytes or does not answer. */
  lemma CopyFailsIff(w: World, c: ChunkId, source: NodeId, due: set<NodeId>, net: Net)
    ensures CopyFails(w, c, source, due, net) <==>
            || !Known(w.db, source, due)
            || ((exists n :: n in due && TakesCopy(w.db, n)) && (Held(w, source, c).None? || !net.responded))
  {
    forall n | n in due ensures n in Dispatched(w.db, due) <==> TakesCopy(w.db, n) {
    }
    assert Dispatched(w.db, due) != {} <==> exists n :: n in due && TakesCopy(w.db, n);
  }

  /** Totals are sums. */
  lemma TotalsAdd(outcomes: seq<Outcome>, o: Outcome)
    ensures Total([]) == Outcome(0, 0, 0, 0)
    ensures var a, b := Total(outcomes), Total(outcomes + [o]);
            && b.attempted == a.attempted + o.attempted && b.succeeded == a.succeeded + o.succeeded
            && b.failed == a.failed + o.failed && b.deferred == a.deferred + o.deferred
  {
    assert (outcomes + [o])[..|outcomes|] == outcomes;
  }

  /** After an attempt, replicas that became ready have no entry, the others wait for the back-off from
      now, and entries under other keys stay. */
  lemma ScheduledAgain(next: Schedule, a: Attempt, backoff: int, k: string)
    requires a.done <= a.due
    ensures var after := Recorded(next, a, backoff);
            if exists n :: n in a.due && n !in a.done && k == a.chunk + "::" + n
            then k in after && after[k] == a.now + backoff
            else if exists n :: n in a.done && k == a.chunk + "::" + n then k !in after
            else (k in after <==> k in next) && (k in next ==> after[k] == next[k])
  {
    assert forall n :: Key(a.chunk, n) == a.chunk + "::" + n;
    assert k in Keys(a.chunk, a.due - a.done) <==> exists n :: n in a.due && n !in a.done && k == a.chunk + "::" + n;
    assert k in Keys(a.chunk, a.done) <==> exists n :: n in a.done && k == a.chunk + "::" + n;
  }
}
