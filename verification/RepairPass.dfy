/** What a pass of the repairer is: its steps, the log entries that go with them, its totals, and
    whose turn came. */
module RepairPass {
  import opened Metadata
  import opened Strings
  import opened Sorting
  import opened Placement
  import opened Coordinator
  import opened ReplicaProtocol
  import opened ReplicaSafety
  import opened RepairSchedule

  // ---------------------------------------------------------------- one chunk

  lemma LessIsStrictTotal(names: set<string>)
    ensures StrictTotalOn(Less, names)
  {
    forall x | x in names ensures !Less(x, x) {
      LessIrreflexive(x);
    }
    forall x, y, z | x in names && y in names && z in names && Less(x, y) && Less(y, z) ensures Less(x, z) {
      LessTransitive(x, y, z);
    }
    forall x, y | x in names && y in names ensures x == y || Less(x, y) || Less(y, x) {
      LessTotal(x, y);
    }
  }

  /** There is nothing to copy from. */
  ghost predicate NoSource(replicas: ReplicaSet) {
    forall n :: n != "" ==> !IsRepairSource(replicas, n)
  }

  /** No pending replica's time has come. */
  predicate NoneDue(next: Schedule, chunk: Chunk, now: int) {
    forall n :: n in PendingNodes(chunk.replicas) ==> !IsDue(next, chunk.id, n, now)
  }

  /** The pending replicas whose time has come, in order. */
  function DueOf(next: Schedule, chunk: ChunkId, nodes: seq<NodeId>, now: int): seq<NodeId> {
    if nodes == [] then []
    else
      var rest := DueOf(next, chunk, nodes[..|nodes| - 1], now);
      var n := nodes[|nodes| - 1];
      if IsDue(next, chunk, n, now) then rest + [n] else rest
  }

  lemma {:induction false} DueElements(next: Schedule, chunk: ChunkId, nodes: seq<NodeId>, now: int)
    requires Distinct(nodes)
    ensures Distinct(DueOf(next, chunk, nodes, now))
    ensures forall n :: n in DueOf(next, chunk, nodes, now) <==> n in nodes && IsDue(next, chunk, n, now)
  {
    if nodes != [] {
      var last := |nodes| - 1;
      assert nodes == nodes[..last] + [nodes[last]];
      DueElements(next, chunk, nodes[..last], now);
      assert nodes[last] !in nodes[..last];
    }
  }

  lemma {:induction false} DuePrefix(next: Schedule, chunk: ChunkId, nodes: seq<NodeId>, i: nat, now: int)
    requires i <= |nodes|
    ensures DueOf(next, chunk, nodes[..i], now) <= DueOf(next, chunk, nodes, now)
    decreases |nodes|
  {
    if i < |nodes| {
      var last := |nodes| - 1;
      assert nodes[..last][..i] == nodes[..i];
      DuePrefix(next, chunk, nodes[..last], i, now);
    } else {
      assert nodes[..i] == nodes;
    }
  }

  function Cut<T>(s: seq<T>, limit: nat): seq<T> {
    if |s| <= limit then s else s[..limit]
  }

  /** `due` is the first due replicas of the chunk, by node id, as many as the limit allows. */
  ghost predicate IsFirstDue(next: Schedule, chunk: Chunk, limit: nat, now: int, due: set<NodeId>) {
    exists pending :: IsPending(chunk, pending) && due == Elements(Cut(DueOf(next, chunk.id, pending, now), limit))
  }

  predicate IsPending(chunk: Chunk, pending: seq<NodeId>) {
    Sorted(Less, pending) && Distinct(pending) && Elements(pending) == PendingNodes(chunk.replicas)
  }

  lemma FirstDueIsDue(next: Schedule, chunk: Chunk, pending: seq<NodeId>, due: seq<NodeId>, limit: nat, now: int)
    requires IsPending(chunk, pending) && due == Cut(DueOf(next, chunk.id, pending, now), limit)
    ensures Distinct(due) && |due| <= limit && Elements(due) <= PendingNodes(chunk.replicas)
    ensures IsFirstDue(next, chunk, limit, now, Elements(due))
    ensures forall n :: n in due ==> IsDue(next, chunk.id, n, now)
    ensures due == [] <==> limit == 0 || NoneDue(next, chunk, now)
  {
    DueElements(next, chunk.id, pending, now);
    var all := DueOf(next, chunk.id, pending, now);
    assert forall n :: n in due ==> n in all;
    assert forall n :: n in pending <==> n in Elements(pending);
    assert all != [] ==> all[0] in all;
    assert NoneDue(next, chunk, now) <==> all == [] by {
      assert all != [] ==> all[0] in PendingNodes(chunk.replicas) && IsDue(next, chunk.id, all[0], now);
    }
  }

  datatype Outcome = Outcome(attempted: nat, succeeded: nat, failed: nat, deferred: nat)

  const NOTHING := Outcome(0, 0, 0, 0)

  function Plus(a: Outcome, b: Outcome): Outcome {
    Outcome(a.attempted + b.attempted, a.succeeded + b.succeeded, a.failed + b.failed, a.deferred + b.deferred)
  }

  /** Source and due nodes are known, and the source has an address. */
  predicate Addressable(s: State, source: NodeId, due: set<NodeId>) {
    source in s.nodes && !Blank(s.nodes[source].address) && due <= s.nodes.Keys
  }

  /** The due replicas that become ready. */
  function Succeeded(w: World, chunk: ChunkId, source: NodeId, due: set<NodeId>, net: Net): set<NodeId> {
    if CanCopy(w, chunk, source, due) && net.responded then Dispatched(w.db, due) * net.delivered * net.acked else {}
  }

  /** The repairer's account of one chunk: the requests sent, the replicas that became ready, and
      the rest of the due replicas as failed and deferred. */
  predicate IsOutcome(o: Outcome, w: World, chunk: ChunkId, source: NodeId, due: set<NodeId>, net: Net) {
    && o.attempted == (if Addressable(w.db, source, due) then |Dispatched(w.db, due)| else 0)
    && o.succeeded == |Succeeded(w, chunk, source, due, net)|
    && o.succeeded + o.failed == |due| && o.deferred == o.failed
  }

  lemma OutcomeBounds(o: Outcome, w: World, chunk: ChunkId, source: NodeId, due: set<NodeId>, net: Net)
    requires IsOutcome(o, w, chunk, source, due, net)
    ensures o.succeeded <= o.attempted <= |due|
  {
    SubsetSize(Dispatched(w.db, due), due);
    if Succeeded(w, chunk, source, due, net) != {} {
      SubsetSize(Succeeded(w, chunk, source, due, net), Dispatched(w.db, due));
    }
  }

  /** The repairer reports an error for the chunk: a node is unknown, the source has no address, or
      no answer arrives to the request that was sent. */
  predicate CopyFails(w: World, chunk: ChunkId, source: NodeId, due: set<NodeId>, net: Net) {
    || !Addressable(w.db, source, due)
    || (Dispatched(w.db, due) != {} && !(chunk in Disk(w, source) && net.responded))
  }

  // ---------------------------------------------------------------- a pass

  datatype Pass = Pass(start: World, log: seq<Attempt>, now: int, budget: nat, backoff: int)

  /** What a pass has done: its steps, and the repairer's account of each. */
  datatype Tally = Tally(actions: seq<Action>, outcomes: seq<Outcome>)

  /** Step `k` is a repair step from a ready source onto the first due replicas, as many as the budget
      left allows, and goes with the log entry and the account that belong to it. */
  ghost predicate StepOk(pass: Pass, log: seq<Attempt>, done: Tally, k: nat)
    requires k < |done.actions| == |done.outcomes| && |log| == |pass.log| + |done.actions|
  {
    var w, a := Run(pass.start, done.actions[..k]), done.actions[k];
    && a.RepairAction? && a.chunk in w.db.chunks && a.due != {}
    && IsRepairSource(w.db.chunks[a.chunk].replicas, a.source) && a.due <= PendingNodes(w.db.chunks[a.chunk].replicas)
    && log[|pass.log| + k] == Attempt(a.chunk, a.due, Succeeded(w, a.chunk, a.source, a.due, a.net), pass.now)
    && IsOutcome(done.outcomes[k], w, a.chunk, a.source, a.due, a.net)
    && Total(done.outcomes[..k]).attempted <= pass.budget
    && IsFirstDue(Replay(log[..|pass.log| + k], pass.backoff), w.db.chunks[a.chunk],
                  pass.budget - Total(done.outcomes[..k]).attempted, pass.now, a.due)
  }

  ghost predicate StepFails(pass: Pass, actions: seq<Action>, k: nat)
    requires k < |actions|
  {
    var w, a := Run(pass.start, actions[..k]), actions[k];
    a.RepairAction? && CopyFails(w, a.chunk, a.source, a.due, a.net)
  }

  ghost predicate SomeFails(pass: Pass, actions: seq<Action>) {
    exists k :: 0 <= k < |actions| && StepFails(pass, actions, k)
  }

  function Total(outcomes: seq<Outcome>): Outcome {
    if outcomes == [] then NOTHING else Plus(Total(outcomes[..|outcomes| - 1]), outcomes[|outcomes| - 1])
  }

  /** Where a pass stands. */
  ghost predicate Progress(pass: Pass, w: World, log: seq<Attempt>, done: Tally, failed: bool) {
    && w == Run(pass.start, done.actions) && Sound(w.db)
    && pass.log <= log && |done.actions| == |done.outcomes| && |log| == |pass.log| + |done.actions|
    && (forall k :: 0 <= k < |done.actions| ==> StepOk(pass, log, done, k))
    && failed == SomeFails(pass, done.actions)
  }

  /** A pass loses no acknowledgement. */
  lemma RepairLosesNoAck(pass: Pass, w: World, log: seq<Attempt>, done: Tally, failed: bool)
    requires Progress(pass, w, log, done, failed)
    ensures AcksKept(done.actions)
  {
    forall k | 0 <= k < |done.actions| ensures done.actions[k].RepairAction? {
      assert StepOk(pass, log, done, k);
    }
  }

  /** One more attempt. */
  ghost predicate Attempted(pass: Pass, w: World, v: World, log: seq<Attempt>, log': seq<Attempt>, left: nat, a: Action,
                            o: Outcome, err: bool) {
    && a.RepairAction? && a.chunk in w.db.chunks && a.due != {}
    && IsRepairSource(w.db.chunks[a.chunk].replicas, a.source) && a.due <= PendingNodes(w.db.chunks[a.chunk].replicas)
    && v == Step(w, a)
    && log' == log + [Attempt(a.chunk, a.due, Succeeded(w, a.chunk, a.source, a.due, a.net), pass.now)]
    && IsOutcome(o, w, a.chunk, a.source, a.due, a.net)
    && err == CopyFails(w, a.chunk, a.source, a.due, a.net)
    && IsFirstDue(Replay(log, pass.backoff), w.db.chunks[a.chunk], left, pass.now, a.due)
  }

  lemma AttemptMade(pass: Pass, w: World, v: World, log: seq<Attempt>, left: nat, chunk: Chunk, source: NodeId,
                    due: set<NodeId>, net: Net, o: Outcome, err: bool)
    requires chunk.id in w.db.chunks && w.db.chunks[chunk.id] == chunk && due != {}
    requires IsRepairSource(chunk.replicas, source) && due <= PendingNodes(chunk.replicas)
    requires v == RepairChunk(w, chunk.id, source, due, net) && IsOutcome(o, w, chunk.id, source, due, net)
    requires err == CopyFails(w, chunk.id, source, due, net)
    requires IsFirstDue(Replay(log, pass.backoff), chunk, left, pass.now, due)
    ensures Attempted(pass, w, v, log,
                      log + [Attempt(chunk.id, due, Succeeded(w, chunk.id, source, due, net), pass.now)],
                      left, RepairAction(chunk.id, source, due, net), o, err)
  {
  }

  lemma MayTryDue(next: Schedule, w: World, chunk: ChunkId, source: NodeId, due: set<NodeId>, net: Net, now: int)
    requires forall n :: n in due ==> IsDue(next, chunk, n, now)
    ensures MayAttempt(next, Attempt(chunk, due, Succeeded(w, chunk, source, due, net), now))
  {
  }

  lemma RunOneMore(w: World, actions: seq<Action>, a: Action)
    ensures Run(w, actions + [a]) == Step(Run(w, actions), a)
  {
    RunAppend(w, actions, [a]);
  }

  lemma OldStep(pass: Pass, log: seq<Attempt>, log': seq<Attempt>, done: Tally, a: Action, o: Outcome, k: nat)
    requires |done.actions| == |done.outcomes| && |log| == |pass.log| + |done.actions| && k < |done.actions|
    requires StepOk(pass, log, done, k) && |log'| == |log| + 1 && log <= log'
    ensures StepOk(pass, log', Tally(done.actions + [a], done.outcomes + [o]), k)
    ensures StepFails(pass, done.actions + [a], k) == StepFails(pass, done.actions, k)
  {
    assert (done.actions + [a])[..k] == done.actions[..k] && (done.outcomes + [o])[..k] == done.outcomes[..k];
    assert log'[..|pass.log| + k] == log[..|pass.log| + k];
  }

  lemma NewStep(pass: Pass, w: World, v: World, log: seq<Attempt>, log': seq<Attempt>, done: Tally, left: nat,
                a: Action,
                o: Outcome, err: bool)
    requires w == Run(pass.start, done.actions) && Attempted(pass, w, v, log, log', left, a, o, err)
    requires |done.actions| == |done.outcomes| && |log| == |pass.log| + |done.actions|
    requires Total(done.outcomes).attempted + left == pass.budget
    ensures |log'| == |pass.log| + |done.actions| + 1
    ensures StepOk(pass, log', Tally(done.actions + [a], done.outcomes + [o]), |done.actions|)
    ensures StepFails(pass, done.actions + [a], |done.actions|) == err
  {
    var k := |done.actions|;
    assert (done.actions + [a])[..k] == done.actions && (done.outcomes + [o])[..k] == done.outcomes;
    assert log'[..|pass.log| + k] == log;
  }

  lemma ProgressOneMore(pass: Pass, w: World, v: World, log: seq<Attempt>, log': seq<Attempt>, done: Tally, left: nat,
                        a: Action, o: Outcome, failed: bool, err: bool)
    requires Progress(pass, w, log, done, failed) && Attempted(pass, w, v, log, log', left, a, o, err)
    requires Total(done.outcomes).attempted + left == pass.budget
    ensures Progress(pass, v, log', Tally(done.actions + [a], done.outcomes + [o]), failed || err)
    ensures Total(done.outcomes + [o]) == Plus(Total(done.outcomes), o)
  {
    RunOneMore(pass.start, done.actions, a);
    assert Sound(v.db) by {
      StepSound(w, a);
    }
    NewStep(pass, w, v, log, log', done, left, a, o, err);
    OldSteps(pass, log, log', done, a, o);
    FailsOneMore(pass, done.actions, a, err);
    assert (done.outcomes + [o])[..|done.outcomes|] == done.outcomes;
  }

  lemma OldSteps(pass: Pass, log: seq<Attempt>, log': seq<Attempt>, done: Tally, a: Action, o: Outcome)
    requires |done.actions| == |done.outcomes| && |log| == |pass.log| + |done.actions| && |log'| == |log| + 1
             && log <= log'
    requires forall k :: 0 <= k < |done.actions| ==> StepOk(pass, log, done, k)
    ensures forall k :: 0 <= k < |done.actions| ==>
              StepOk(pass, log', Tally(done.actions + [a], done.outcomes + [o]), k)
    ensures forall k :: 0 <= k < |done.actions| ==>
              StepFails(pass, done.actions + [a], k) == StepFails(pass, done.actions, k)
  {
    forall k | 0 <= k < |done.actions|
      ensures StepOk(pass, log', Tally(done.actions + [a], done.outcomes + [o]), k)
      ensures StepFails(pass, done.actions + [a], k) == StepFails(pass, done.actions, k)
    {
      OldStep(pass, log, log', done, a, o, k);
    }
  }

  lemma FailsOneMore(pass: Pass, actions: seq<Action>, a: Action, err: bool)
    requires forall k :: 0 <= k < |actions| + 1 ==>
               StepFails(pass, actions + [a], k) == if k < |actions| then StepFails(pass, actions, k) else err
    ensures SomeFails(pass, actions + [a]) <==> SomeFails(pass, actions) || err
  {
    var more := actions + [a];
    if SomeFails(pass, more) {
      var k :| 0 <= k < |more| && StepFails(pass, more, k);
    }
    if SomeFails(pass, actions) {
      var k :| 0 <= k < |actions| && StepFails(pass, actions, k);
      assert StepFails(pass, more, k);
    }
    assert StepFails(pass, more, |actions|) == err;
  }

  // ---------------------------------------------------------------- turns

  /** The chunk had its turn when the log had `k` entries: the next entry is for it, or there was
      nothing to copy from or nothing due. */
  ghost predicate TurnAt(log: seq<Attempt>, chunk: Chunk, now: int, backoff: int, k: nat)
    requires k <= |log|
  {
    || (k < |log| && log[k].chunk == chunk.id)
    || NoSource(chunk.replicas)
    || NoneDue(Replay(log[..k], backoff), chunk, now)
  }

  /** The chunk has had its turn in this pass. */
  ghost predicate HadTurn(pass: Pass, log: seq<Attempt>, chunk: Chunk) {
    exists k :: |pass.log| <= k <= |log| && TurnAt(log, chunk, pass.now, pass.backoff, k)
  }

  lemma TurnKept(pass: Pass, log: seq<Attempt>, log': seq<Attempt>, chunk: Chunk)
    requires HadTurn(pass, log, chunk) && log <= log'
    ensures HadTurn(pass, log', chunk)
  {
    var k :| |pass.log| <= k <= |log| && TurnAt(log, chunk, pass.now, pass.backoff, k);
    assert log'[..k] == log[..k];
    assert TurnAt(log', chunk, pass.now, pass.backoff, k);
  }

  lemma TurnNow(pass: Pass, log: seq<Attempt>, log': seq<Attempt>, chunk: Chunk)
    requires |pass.log| <= |log| && log <= log'
    requires (|log'| > |log| && log'[|log|].chunk == chunk.id) || NoSource(chunk.replicas)
             || NoneDue(Replay(log, pass.backoff), chunk, pass.now)
    ensures HadTurn(pass, log', chunk)
  {
    assert log'[..|log|] == log;
    assert TurnAt(log', chunk, pass.now, pass.backoff, |log|);
  }
}
