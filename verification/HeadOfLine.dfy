/** One plan can stop all clean-up.  A pass takes the oldest due plans in order and ends at the first
    one that fails, so a stranded plan with a ready target, or a plan whose chunk was deleted, that
    is the oldest due plan is all that any later pass gets to. */
module HeadOfLine {
  import opened Wrappers
  import opened Metadata
  import opened Strings
  import opened Sorting
  import opened Listing
  import opened Coordinator
  import opened ReplicaProtocol
  import opened StrandedPlans
  import opened CleanupController

  /** A stranded plan whose target is ready and will stay recorded: no active plan moves the
      chunk off that target. */
  predicate Blocker(s: State, id: PlanId) {
    && Stranded(s, id) && Due(s.plans[id])
    && s.plans[id].target in ReadyNodes(Replicas(s, s.plans[id].chunkId))
    && forall p :: p in Active(s.plans, s.plans[id].chunkId) ==> s.plans[p].source != s.plans[id].target
  }

  predicate OldestDue(plans: Plans, id: PlanId) {
    id in plans && forall p :: p in plans && p != id && Due(plans[p]) ==> Older(plans[id], plans[p])
  }

  /** A due plan whose chunk is no longer recorded: deleting a file leaves the plans of its chunks. */
  predicate Orphan(s: State, id: PlanId) {
    id in s.plans && Due(s.plans[id]) && s.plans[id].chunkId !in s.chunks
  }

  predicate Stuck(s: State, id: PlanId) {
    Blocker(s, id) || Orphan(s, id)
  }

  lemma StuckBlocks(s: State, id: PlanId)
    requires Keyed(s) && Stuck(s, id)
    ensures Blocks(s, s.plans[id])
  {
  }

  lemma ChangeKeepsBlocker(s: State, t: State, change: Change, id: PlanId)
    requires Blocker(s, id) && Becomes(s, t, change) && !Replaces(change, s.plans[id].chunkId)
    requires change.PlanAdded? ==> FreshPlan(s, change.plan)
    ensures Blocker(t, id) && t.plans[id].chunkId == s.plans[id].chunkId
            && t.plans[id].createdAt == s.plans[id].createdAt
  {
    ChangeKeepsStranded(s, t, change, id);
    var c := s.plans[id].chunkId;
    assert t.plans[id].target in ReadyNodes(Replicas(t, c)) by {
      if change.PlanFinished? && s.plans[change.id].chunkId == c {
        assert change.id in Active(s.plans, c);
      }
    }
  }

  /** A deleted chunk turns a blocker into an orphan, and an orphan stays one until a client has a
      record committed under the chunk's id again. */
  lemma ChangeKeepsStuck(s: State, t: State, change: Change, id: PlanId)
    requires Stuck(s, id) && Becomes(s, t, change)
    requires change.ChunkPut? ==> change.record.id != s.plans[id].chunkId
    requires change.PlanAdded? ==> FreshPlan(s, change.plan)
    ensures Stuck(t, id) && t.plans[id].chunkId == s.plans[id].chunkId && t.plans[id].createdAt == s.plans[id].createdAt
  {
    if Blocker(s, id) && !Replaces(change, s.plans[id].chunkId) {
      ChangeKeepsBlocker(s, t, change, id);
    }
  }

  /** No upload commits a record under the id. */
  predicate NotRevived(actions: seq<Action>, c: ChunkId) {
    forall i :: 0 <= i < |actions| && actions[i].UploadAction? && actions[i].committed ==> actions[i].record.id != c
  }

  lemma ChangeKeepsOldest(s: State, t: State, change: Change, id: PlanId)
    requires Keyed(s) && OldestDue(s.plans, id) && Becomes(s, t, change)
    requires change.PlanAdded? ==> change.plan.createdAt > s.plans[id].createdAt
    ensures OldestDue(t.plans, id) && t.plans[id].createdAt == s.plans[id].createdAt
  {
  }

  /** The planners' clock is past `time`. */
  predicate AfterTime(actions: seq<Action>, time: int) {
    forall i :: 0 <= i < |actions| && (actions[i].FailoverAction? || actions[i].RebalanceAction?) ==>
        actions[i].now > time
  }

  /** Once a stuck plan is the oldest due plan it is so after every run that does not put its chunk
      on record again. */
  lemma {:induction false} StuckForever(w: World, actions: seq<Action>, id: PlanId)
    requires Sound(w.db) && Stuck(w.db, id) && OldestDue(w.db.plans, id)
    requires AfterTime(actions, w.db.plans[id].createdAt) && NotRevived(actions, w.db.plans[id].chunkId)
    ensures var t := Run(w, actions).db; Sound(t) && Stuck(t, id) && OldestDue(t.plans, id)
    decreases |actions|
  {
    if actions != [] {
      var v := Step(w, actions[0]);
      var change := StepChange(w, actions[0]);
      ChangeKeepsStuck(w.db, v.db, change, id);
      ChangeKeepsOldest(w.db, v.db, change, id);
      StepSound(w, actions[0]);
      LaterActions(actions, w.db.plans[id].createdAt, w.db.plans[id].chunkId);
      StuckForever(v, actions[1..], id);
    }
  }

  lemma LaterActions(actions: seq<Action>, time: int, c: ChunkId)
    requires actions != [] && AfterTime(actions, time) && NotRevived(actions, c)
    ensures AfterTime(actions[1..], time) && NotRevived(actions[1..], c)
  {
    assert forall i :: 0 <= i < |actions[1..]| ==> actions[1..][i] == actions[i + 1];
  }

  lemma OldestComesFirst(plans: Plans, limit: int, window: seq<Plan>, id: PlanId)
    requires PlansKeyed(plans) && limit > 0 && IsWindow(plans, limit, window)
    requires OldestDue(plans, id) && Due(plans[id])
    ensures window != [] && window[0] == plans[id]
  {
    var plan := plans[id];
    assert plan in Matching(plans, Due);
    assert |window| < limit ==> plan in Elements(window);
    assert plan in Elements(window) ==> window != [];
    FirstOrOlder(plans, limit, window, plan);
    WindowIsRecorded(plans, limit, window);
    OlderAsymmetric(plan, window[0]);
  }

  lemma FirstOrOlder(plans: Plans, limit: int, window: seq<Plan>, plan: Plan)
    requires IsWindow(plans, limit, window) && window != [] && plan in Matching(plans, Due)
    ensures window[0] == plan || Older(window[0], plan)
  {
    assert window[0] in window;
    if plan in Elements(window) {
      var k :| 0 <= k < |window| && window[k] == plan;
      assert k > 0 ==> Older(window[0], window[k]);
    }
  }

  lemma OlderAsymmetric(a: Plan, b: Plan)
    ensures !(Older(a, b) && Older(b, a))
  {
    if Less(a.id, b.id) && Less(b.id, a.id) {
      LessTransitive(a.id, b.id, a.id);
      LessIrreflexive(a.id);
    }
  }

  /** What a pass does then, for any outcome its contract allows: it fails at the stuck plan, the
      first it comes to, and changes nothing. */
  lemma PassStopsAtStuck(w: World, id: PlanId, limit: int, window: seq<Plan>, settled: nat, dels: PlanId -> Delete,
                         err: Option<StoreError>)
    requires Sound(w.db) && Stuck(w.db, id) && OldestDue(w.db.plans, id) && limit > 0
    requires IsWindow(w.db.plans, limit, window) && PassEnds(w, window, dels, settled, err)
    ensures err.Some? && settled == 1 && After(w, window, dels, settled) == w
  {
    OldestComesFirst(w.db.plans, limit, window, id);
    StuckBlocks(w.db, id);
    assert CleanupActions(window[..0], dels) == [];
    assert After(w, window, dels, 0) == w;
    OneMore(w, window, dels, 0);
  }
}
