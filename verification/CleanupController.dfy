/** The clean-up controller (internal/mds/coordinator/cleanup.go): each pass takes the oldest
    plans that may be due and settles them one by one. */
module CleanupController {
  import opened Wrappers
  import opened Metadata
  import opened Strings
  import opened Sorting
  import opened Listing
  import opened ReplicaStore
  import opened Coordinator
  import opened ReplicaProtocol
  import opened Store
  import opened DataNodes

  /** Plans the pass looks at. */
  predicate Due(p: Plan) {
    && (p.kind == Failover || p.kind == Rebalance)
    && (p.state == Materialized || p.state == CopyReady || p.state == CleanupReady)
  }

  /** Oldest first; plans of the same age by id. */
  predicate Older(a: Plan, b: Plan) {
    a.createdAt < b.createdAt || (a.createdAt == b.createdAt && Less(a.id, b.id))
  }

  predicate PlansKeyed(plans: Plans) {
    forall p :: p in plans ==> plans[p].id == p
  }

  lemma OlderStrictTotal(plans: Plans)
    requires PlansKeyed(plans)
    ensures Injective(plans) && StrictTotalOn(Older, Matching(plans, Due))
  {
    var xs := Matching(plans, Due);
    forall x | x in xs ensures !Older(x, x) {
      LessIrreflexive(x.id);
    }
    forall x, y, z | x in xs && y in xs && z in xs && Older(x, y) && Older(y, z) ensures Older(x, z) {
      if x.createdAt == z.createdAt {
        LessTransitive(x.id, y.id, z.id);
      }
    }
    forall x, y | x in xs && y in xs ensures x == y || Older(x, y) || Older(y, x) {
      LessTotal(x.id, y.id);
    }
  }

  /** The oldest due plans, at most `limit` of them, in order: nothing due is passed over for
      something younger. */
  ghost predicate IsWindow(plans: Plans, limit: int, l: seq<Plan>) {
    && Sorted(Older, l) && Distinct(l) && |l| <= limit
    && Elements(l) <= Matching(plans, Due)
    && (|l| < limit ==> Elements(l) == Matching(plans, Due))
    && forall a, b :: a in l && b in Matching(plans, Due) - Elements(l) ==> Older(a, b)
  }

  method ListDuePlans(plans: Plans, limit: int) returns (l: seq<Plan>)
    requires PlansKeyed(plans) && limit > 0
    ensures IsWindow(plans, limit, l)
  {
    OlderStrictTotal(plans);
    var all := ListWhere(plans, Due, Older);
    l := if limit >= |all| then all else all[..limit];
    WindowOfSorted(plans, limit, all, l);
  }

  lemma WindowOfSorted(plans: Plans, limit: int, all: seq<Plan>, l: seq<Plan>)
    requires limit > 0 && Sorted(Older, all) && Distinct(all) && Elements(all) == Matching(plans, Due)
    requires l == if limit >= |all| then all else all[..limit]
    ensures IsWindow(plans, limit, l)
  {
    assert forall k :: 0 <= k < |l| ==> l[k] == all[k] && l[k] in Elements(all);
    forall a, b | a in l && b in Elements(all) - Elements(l) ensures Older(a, b) {
      var i :| 0 <= i < |l| && l[i] == a;
      var j :| 0 <= j < |all| && all[j] == b;
    }
  }

  /** Settling this plan ends the whole pass with an error: its chunk is gone, or it is a
      failover plan whose target is ready but whose source replica is no longer recorded. */
  predicate Blocks(s: State, plan: Plan) {
    || plan.chunkId !in s.chunks
    || (plan.kind == Failover && Finalizable(s, plan.id) && plan.source !in s.chunks[plan.chunkId].replicas)
  }

  method RemoveSource(repo: Repository, plan: Plan) returns (err: Option<StoreError>)
    modifies repo
    ensures Settles(old(repo.state), repo.state, err, FinishPlan(old(repo.state), plan))
  {
    var tx := repo.state;
    if plan.chunkId !in tx.chunks || plan.source !in tx.chunks[plan.chunkId].replicas {
      return Some(NotFound);
    }
    tx := tx.(chunks := tx.chunks[plan.chunkId := Without(tx.chunks[plan.chunkId], plan.source)]);
    if plan.id !in tx.plans {
      return Some(NotFound);
    }
    repo.state := WithPlanState(tx, plan.id, Done);
    err := None;
  }

  method FinalizeCompletedPlan(repo: Repository, cluster: Cluster, plan: Plan, del: Delete)
    returns (err: Option<StoreError>)
    requires Keyed(repo.state) && plan.id in repo.state.plans && repo.state.plans[plan.id] == plan && Due(plan)
    modifies repo, cluster
    ensures WorldOf(repo, cluster) == FinalizePlan(old(WorldOf(repo, cluster)), plan.id, del)
    ensures err == if Blocks(old(repo.state), plan) then Some(NotFound) else None
  {
    if plan.chunkId !in repo.state.chunks {
      return Some(NotFound);
    }
    var chunk := repo.state.chunks[plan.chunkId];
    if plan.target !in chunk.replicas || chunk.replicas[plan.target].state != Ready {
      return None;
    }
    if plan.kind == Failover {
      err := RemoveSource(repo, plan);
      return;
    }
    var released := false;
    if plan.source in repo.state.nodes {
      released := cluster.Delete(plan.source, plan.chunkId, del);
    }
    if released {
      var failure := RemoveSource(repo, plan);
      released := failure.None?;
    }
    if !released {
      repo.state := WithRetryCount(repo.state, plan.id, plan.retryCount + 1);
    }
    err := None;
  }

  function CleanupActions(plans: seq<Plan>, dels: PlanId -> Delete): seq<Action> {
    seq(|plans|, i requires 0 <= i < |plans| => CleanupAction(plans[i].id, dels(plans[i].id)))
  }

  /** The world once the first `n` of the plans are settled. */
  ghost function After(w: World, plans: seq<Plan>, dels: PlanId -> Delete, n: nat): World
    requires n <= |plans|
  {
    Run(w, CleanupActions(plans[..n], dels))
  }

  /** The pass covers all plans of the window, or ends with an error at the first that blocks. */
  ghost predicate PassEnds(w: World, window: seq<Plan>, dels: PlanId -> Delete, settled: nat, err: Option<StoreError>) {
    && settled <= |window|
    && (err.None? ==> settled == |window|)
    && (err.Some? ==> settled > 0 && Blocks(After(w, window, dels, settled - 1).db, window[settled - 1]))
    && forall i :: 0 <= i < (if err.None? then settled else settled - 1) ==>
         !Blocks(After(w, window, dels, i).db, window[i])
  }

  lemma OneMore(w: World, plans: seq<Plan>, dels: PlanId -> Delete, i: nat)
    requires i < |plans|
    ensures After(w, plans, dels, i + 1) == FinalizePlan(After(w, plans, dels, i), plans[i].id, dels(plans[i].id))
  {
    var a := CleanupAction(plans[i].id, dels(plans[i].id));
    assert CleanupActions(plans[..i + 1], dels) == CleanupActions(plans[..i], dels) + [a];
    RunAppend(w, CleanupActions(plans[..i], dels), [a]);
  }

  lemma WindowIsRecorded(plans: Plans, limit: int, l: seq<Plan>)
    requires PlansKeyed(plans) && IsWindow(plans, limit, l)
    ensures forall j :: 0 <= j < |l| ==> l[j].id in plans && plans[l[j].id] == l[j] && Due(l[j])
    ensures forall i, j :: 0 <= i < j < |l| ==> l[i].id != l[j].id
  {
    forall j | 0 <= j < |l| ensures l[j].id in plans && plans[l[j].id] == l[j] && Due(l[j]) {
      assert l[j] in Elements(l);
    }
  }

  /** Settling one plan leaves the records of all other plans alone. */
  lemma OthersKept(w: World, id: PlanId, del: Delete, p: PlanId)
    requires Sound(w.db) && p in w.db.plans && p != id
    ensures p in FinalizePlan(w, id, del).db.plans && FinalizePlan(w, id, del).db.plans[p] == w.db.plans[p]
  {
    var change := CleanupChange(w, id, del);
  }

  class Controller {
    const maxPlansPerRun: int

    constructor (maxPlansPerRun: int)
      ensures this.maxPlansPerRun == if maxPlansPerRun <= 0 then 32 else maxPlansPerRun
    {
      this.maxPlansPerRun := if maxPlansPerRun <= 0 then 32 else maxPlansPerRun;
    }

    /** One pass: a run of clean-up steps over the oldest due plans, in order.  It covers all of
        them unless some plan blocks, and then it covers those up to and including that plan. */
    method CleanupOnce(repo: Repository, cluster: Cluster, dels: PlanId -> Delete)
      returns (err: Option<StoreError>, ghost window: seq<Plan>, ghost settled: nat)
      requires Sound(repo.state) && maxPlansPerRun > 0
      modifies repo, cluster
      ensures IsWindow(old(repo.state.plans), maxPlansPerRun, window) && settled <= |window|
      ensures WorldOf(repo, cluster) == After(old(WorldOf(repo, cluster)), window, dels, settled)
      ensures PassEnds(old(WorldOf(repo, cluster)), window, dels, settled, err)
    {
      ghost var start := WorldOf(repo, cluster);
      var plans := ListDuePlans(repo.state.plans, maxPlansPerRun);
      WindowIsRecorded(repo.state.plans, maxPlansPerRun, plans);
      window, settled := plans, 0;
      PassStarts(start, plans, dels);
      for i := 0 to |plans|
        invariant settled == i && window == plans && Passing(start, WorldOf(repo, cluster), plans, dels, i)
      {
        PassingOneMore(start, WorldOf(repo, cluster), plans, dels, i);
        err := FinalizeCompletedPlan(repo, cluster, plans[i], dels(plans[i].id));
        settled := i + 1;
        if err.Some? {
          return;
        }
      }
      err := None;
    }
  }

  /** Where a pass stands after the first `i` plans. */
  ghost predicate Passing(start: World, w: World, plans: seq<Plan>, dels: PlanId -> Delete, i: nat) {
    && i <= |plans| && Sound(w.db) && w == After(start, plans, dels, i)
    && (forall j :: i <= j < |plans| ==> plans[j].id in w.db.plans && w.db.plans[plans[j].id] == plans[j])
    && (forall k, j :: 0 <= k < j < |plans| ==> plans[k].id != plans[j].id)
    && (forall j :: 0 <= j < i ==> !Blocks(After(start, plans, dels, j).db, plans[j]))
  }

  lemma PassStarts(w: World, plans: seq<Plan>, dels: PlanId -> Delete)
    requires Sound(w.db) && forall j :: 0 <= j < |plans| ==>
               plans[j].id in w.db.plans && w.db.plans[plans[j].id] == plans[j]
    requires forall k, j :: 0 <= k < j < |plans| ==> plans[k].id != plans[j].id
    ensures Passing(w, w, plans, dels, 0)
  {
    assert CleanupActions(plans[..0], dels) == [];
  }

  lemma PassingOneMore(start: World, w: World, plans: seq<Plan>, dels: PlanId -> Delete, i: nat)
    requires i < |plans| && Passing(start, w, plans, dels, i)
    ensures var v := FinalizePlan(w, plans[i].id, dels(plans[i].id));
            && v == After(start, plans, dels, i + 1)
            && (!Blocks(w.db, plans[i]) ==> Passing(start, v, plans, dels, i + 1))
  {
    OneMore(start, plans, dels, i);
    SettlingKeeps(w, plans, i, dels(plans[i].id));
  }

  lemma SettlingKeeps(w: World, plans: seq<Plan>, i: nat, del: Delete)
    requires Sound(w.db) && i < |plans|
    requires forall j :: i <= j < |plans| ==> plans[j].id in w.db.plans && w.db.plans[plans[j].id] == plans[j]
    requires forall k, j :: 0 <= k < j < |plans| ==> plans[k].id != plans[j].id
    ensures var s := FinalizePlan(w, plans[i].id, del).db;
            && Sound(s)
            && forall j :: i < j < |plans| ==> plans[j].id in s.plans && s.plans[plans[j].id] == plans[j]
  {
    StepSound(w, CleanupAction(plans[i].id, del));
    forall j | i < j < |plans|
      ensures var s := FinalizePlan(w, plans[i].id, del).db; plans[j].id in s.plans && s.plans[plans[j].id] == plans[j]
    {
      OthersKept(w, plans[i].id, del, plans[j].id);
    }
  }
}
