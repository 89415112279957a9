/** What a pass of either planner leaves behind: the steps it took, each allowed where it was taken,
    and why it ended. */
module PlanningPass {
  import opened Wrappers
  import opened Metadata
  import opened ReplicaStore
  import opened Coordinator
  import opened ReplicaProtocol
  import opened ReplicaSafety
  import opened PlanningLaws

  predicate IsPlanning(a: Action) {
    a.FailoverAction? || a.RebalanceAction?
  }

  /** The planner's own guard for the step. */
  ghost predicate Enabled(s: State, a: Action) {
    match a
    case FailoverAction(chunk, failed, target, now, nodeTimeout, _) =>
      CanFailover(s, chunk, failed, target, now, nodeTimeout)
    case RebalanceAction(chunk, source, target, _, high, low, _) => CanRebalance(s, chunk, source, target, high, low)
    case _ => false
  }

  ghost function PlanOf(s: State, a: Action): Plan
    requires IsPlanning(a) && a.chunk in s.chunks
  {
    if a.FailoverAction? then NewPlan(Failover, s.chunks[a.chunk], a.failed, a.target, a.now)
    else NewPlan(Rebalance, s.chunks[a.chunk], a.source, a.target, a.now)
  }

  /** The error of the planning transaction, if any. */
  function PlanError(s: State, plan: Plan, published: bool): Option<StoreError> {
    if PlanRefused(s, plan).Some? then PlanRefused(s, plan)
    else if !published then Some(PublishFailed)
    else None
  }

  /** The step is enabled and the repository accepts its plan. */
  ghost predicate Accepted(s: State, a: Action) {
    Enabled(s, a) && PlanRefused(s, PlanOf(s, a)).None?
  }

  /** Every step is accepted in the state it acts on. */
  ghost predicate AllAccepted(w: World, actions: seq<Action>) {
    forall k :: 0 <= k < |actions| ==> StepAccepted(w, actions, k)
  }

  ghost predicate StepAccepted(w: World, actions: seq<Action>, k: nat)
    requires k < |actions|
  {
    Accepted(Run(w, actions[..k]).db, actions[k])
  }

  predicate AllPublished(actions: seq<Action>) {
    forall i :: 0 <= i < |actions| ==> IsPlanning(actions[i]) && actions[i].published
  }

  lemma PublishedOneMore(actions: seq<Action>, a: Action)
    requires AllPublished(actions) && IsPlanning(a) && a.published
    ensures AllPublished(actions + [a])
  {
  }

  lemma AcceptedOneMore(w: World, actions: seq<Action>, a: Action)
    requires AllAccepted(w, actions) && Accepted(Run(w, actions).db, a)
    ensures AllAccepted(w, actions + [a])
  {
    var more := actions + [a];
    forall k | 0 <= k < |more| ensures StepAccepted(w, more, k) {
      if k < |actions| {
        assert StepAccepted(w, actions, k);
        assert more[..k] == actions[..k] && more[k] == actions[k];
      } else {
        assert more[..k] == actions;
      }
    }
  }

  /** The last step is enabled but its transaction ends with `err`; all steps before it went
      through.  If `heard` is false, a failed publication is no error. */
  ghost predicate LastFails(w: World, actions: seq<Action>, err: StoreError, heard: bool) {
    actions != [] &&
    var init, last := actions[..|actions| - 1], actions[|actions| - 1];
    && AllAccepted(w, init)
    && Enabled(Run(w, init).db, last)
    && PlanError(Run(w, init).db, PlanOf(Run(w, init).db, last), heard ==> last.published) == Some(err)
  }

  lemma FailsLast(w: World, actions: seq<Action>, a: Action, err: StoreError, heard: bool)
    requires AllAccepted(w, actions) && Enabled(Run(w, actions).db, a)
    requires PlanError(Run(w, actions).db, PlanOf(Run(w, actions).db, a), heard ==> a.published) == Some(err)
    ensures LastFails(w, actions + [a], err, heard)
  {
    assert (actions + [a])[..|actions|] == actions;
  }

  // ---------------------------------------------------------------- from where to where

  /** The step replaces a replica on a failed node, or moves one off a node above the high watermark
      to a node below the low one; its target is the node with the most room among those allowed. */
  ghost predicate Goes(s: State, a: Action) {
    match a
    case FailoverAction(chunk, failed, target, now, nodeTimeout, _) =>
      && failed in s.nodes && Failed(s.nodes[failed], now, nodeTimeout)
      && chunk in s.chunks && target in s.nodes && Fits(s.nodes[target], s.chunks[chunk])
      && forall m :: m in s.nodes && m != target && Fits(s.nodes[m], s.chunks[chunk]) ==>
           Preferable(s.nodes[target], s.nodes[m])
    case RebalanceAction(chunk, source, target, _, high, low, _) =>
      && source in s.nodes && Pressed(s.nodes[source], high)
      && chunk in s.chunks && target in s.nodes && Fits(s.nodes[target], s.chunks[chunk])
      && Relaxed(s.nodes[target], high, low)
      && forall m :: m in s.nodes && m != target && Relaxed(s.nodes[m], high, low)
                     && Fits(s.nodes[m], s.chunks[chunk]) ==>
           Preferable(s.nodes[target], s.nodes[m])
    case _ => false
  }

  lemma EnabledGoes(s: State, a: Action)
    requires Keyed(s) && Enabled(s, a)
    ensures Goes(s, a)
  {
    match a
    case FailoverAction(chunk, failed, target, now, nodeTimeout, _) =>
      FailoverGoes(s, chunk, failed, target, now, nodeTimeout);
      forall m | m in s.nodes ensures s.nodes[m] in NodeSet(s) {
      }
    case RebalanceAction(chunk, source, target, _, high, low, _) =>
      RebalanceGoes(s, chunk, source, target, high, low);
      forall m | m in s.nodes && Relaxed(s.nodes[m], high, low) ensures s.nodes[m] in UnderfullNodes(s, high, low) {
        WatermarksIff(s.nodes[m], high, low);
      }
  }

  /** Every step of the pass goes that way, by the nodes as they were when the pass began. */
  ghost predicate AllGo(w: World, actions: seq<Action>) {
    forall k :: 0 <= k < |actions| ==> StepGoes(w, actions, k)
  }

  ghost predicate StepGoes(w: World, actions: seq<Action>, k: nat)
    requires k < |actions|
  {
    var s := Run(w, actions[..k]).db;
    s.nodes == w.db.nodes && Goes(s, actions[k])
  }

  lemma PlanningStepKeepsNodes(w: World, a: Action)
    requires IsPlanning(a)
    ensures Step(w, a).db.nodes == w.db.nodes
  {
    if a.FailoverAction? {
      FailoverKeepsNodes(w.db, a.chunk, a.failed, a.target, a.now, a.nodeTimeout, a.published);
    } else {
      RebalanceKeepsNodes(w.db, a.chunk, a.source, a.target, a.now, a.high, a.low, a.published);
    }
  }

  lemma OutcomeKeepsNodes(s: State, plan: Plan, chunk: Chunk, role: ReplicaRole, published: bool)
    ensures PlanAndPublish(s, plan, chunk, role, published).nodes == s.nodes
  {
  }

  lemma FailoverKeepsNodes(s: State, c: ChunkId, n: NodeId, target: NodeId, now: int, timeout: int, published: bool)
    ensures PlanFailover(s, c, n, target, now, timeout, published).nodes == s.nodes
  {
    if CanFailover(s, c, n, target, now, timeout) {
      var role := if |s.chunks[c].replicas| == 0 then Primary else Secondary;
      OutcomeKeepsNodes(s, NewPlan(Failover, s.chunks[c], n, target, now), s.chunks[c], role, published);
    }
  }

  lemma RebalanceKeepsNodes(s: State, c: ChunkId, n: NodeId, target: NodeId, now: int, high: real, low: real,
                            published: bool)
    ensures PlanRebalance(s, c, n, target, now, high, low, published).nodes == s.nodes
  {
    if CanRebalance(s, c, n, target, high, low) {
      OutcomeKeepsNodes(s, NewPlan(Rebalance, s.chunks[c], n, target, now), s.chunks[c], Secondary, published);
    }
  }

  lemma {:induction false} PlanningKeepsNodes(w: World, actions: seq<Action>)
    requires Sound(w.db) && forall i :: 0 <= i < |actions| ==> IsPlanning(actions[i])
    ensures Sound(Run(w, actions).db) && Run(w, actions).db.nodes == w.db.nodes
    decreases |actions|
  {
    if actions != [] {
      StepSound(w, actions[0]);
      PlanningStepKeepsNodes(w, actions[0]);
      PlanningKeepsNodes(Step(w, actions[0]), actions[1..]);
    }
  }

  lemma PassGoes(w: World, actions: seq<Action>)
    requires Sound(w.db) && (forall i :: 0 <= i < |actions| ==> IsPlanning(actions[i]))
    requires AllAccepted(w, actions) || exists err, heard :: LastFails(w, actions, err, heard)
    ensures AllGo(w, actions)
  {
    forall k | 0 <= k < |actions| ensures StepGoes(w, actions, k) {
      PlanningKeepsNodes(w, actions[..k]);
      EnabledAt(w, actions, k);
      EnabledGoes(Run(w, actions[..k]).db, actions[k]);
    }
  }

  lemma EnabledAt(w: World, actions: seq<Action>, k: nat)
    requires k < |actions|
    requires AllAccepted(w, actions) || exists err, heard :: LastFails(w, actions, err, heard)
    ensures Enabled(Run(w, actions[..k]).db, actions[k])
  {
    if AllAccepted(w, actions) {
      assert StepAccepted(w, actions, k);
    } else {
      var err, heard :| LastFails(w, actions, err, heard);
      EnabledBeforeLast(w, actions, k, err, heard);
    }
  }

  lemma EnabledBeforeLast(w: World, actions: seq<Action>, k: nat, err: StoreError, heard: bool)
    requires k < |actions| && LastFails(w, actions, err, heard)
    ensures Enabled(Run(w, actions[..k]).db, actions[k])
  {
    var init := actions[..|actions| - 1];
    if k < |init| {
      assert StepAccepted(w, init, k);
      assert init[..k] == actions[..k];
    }
  }

  /** A planning pass loses no acknowledgement, so what holds of such runs holds of it. */
  lemma PlanningLosesNoAck(actions: seq<Action>)
    requires forall i :: 0 <= i < |actions| ==> IsPlanning(actions[i])
    ensures AcksKept(actions)
  {
  }
}
