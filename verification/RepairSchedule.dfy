/** When the repairer may try a replica again.  The schedule is a map from a string key, made of
    the chunk id and the node id, to the earliest time of the next attempt. */
module RepairSchedule {
  import opened Metadata

  type Schedule = map<string, int>

  function Key(chunk: ChunkId, node: NodeId): string {
    chunk + "::" + node
  }

  function Keys(chunk: ChunkId, nodes: set<NodeId>): set<string> {
    set n | n in nodes :: Key(chunk, n)
  }

  /** One attempt to repair a chunk: the replicas tried, those that became ready, and the time. */
  datatype Attempt = Attempt(chunk: ChunkId, due: set<NodeId>, done: set<NodeId>, now: int)

  predicate IsDue(next: Schedule, chunk: ChunkId, node: NodeId, now: int) {
    Key(chunk, node) in next ==> next[Key(chunk, node)] <= now
  }

  predicate MayAttempt(next: Schedule, a: Attempt) {
    a.done <= a.due && forall n :: n in a.due ==> IsDue(next, a.chunk, n, a.now)
  }

  function Deferred(next: Schedule, keys: set<string>, at: int): Schedule {
    next + map k | k in keys :: at
  }

  /** Replicas that became ready are forgotten; the others wait for the back-off. */
  function Recorded(next: Schedule, a: Attempt, backoff: int): Schedule {
    Deferred(next - Keys(a.chunk, a.done), Keys(a.chunk, a.due - a.done), a.now + backoff)
  }

  function Replay(log: seq<Attempt>, backoff: int): Schedule {
    if log == [] then map[] else Recorded(Replay(log[..|log| - 1], backoff), log[|log| - 1], backoff)
  }

  /** The log of a repairer that consults its schedule before every attempt. */
  predicate Admissible(log: seq<Attempt>, backoff: int) {
    forall i :: 0 <= i < |log| ==> Allowed(log, backoff, i)
  }

  predicate Allowed(log: seq<Attempt>, backoff: int, i: nat)
    requires i < |log|
  {
    MayAttempt(Replay(log[..i], backoff), log[i])
  }

  predicate ClockRuns(log: seq<Attempt>) {
    forall i, j :: 0 <= i <= j < |log| ==> log[i].now <= log[j].now
  }

  predicate Failed(a: Attempt, chunk: ChunkId, node: NodeId) {
    a.chunk == chunk && node in a.due && node !in a.done
  }

  // ---------------------------------------------------------------- back-off

  lemma ReplayStep(log: seq<Attempt>, backoff: int, j: nat)
    requires j < |log|
    ensures Replay(log[..j + 1], backoff) == Recorded(Replay(log[..j], backoff), log[j], backoff)
  {
    assert log[..j + 1][..j] == log[..j];
  }

  lemma SameChunkKeys(chunk: ChunkId, m: NodeId, n: NodeId)
    ensures Key(chunk, m) == Key(chunk, n) <==> m == n
  {
    assert Key(chunk, m)[|chunk| + 2..] == m && Key(chunk, n)[|chunk| + 2..] == n;
  }

  lemma KeyInKeys(chunk: ChunkId, nodes: set<NodeId>, n: NodeId)
    ensures Key(chunk, n) in Keys(chunk, nodes) <==> n in nodes
  {
    forall m | m in nodes ensures Key(chunk, m) == Key(chunk, n) ==> m == n {
      SameChunkKeys(chunk, m, n);
    }
  }

  lemma RecordedFailure(next: Schedule, a: Attempt, backoff: int, n: NodeId)
    requires n in a.due - a.done
    ensures var key := Key(a.chunk, n);
            key in Recorded(next, a, backoff) && Recorded(next, a, backoff)[key] == a.now + backoff
  {
    KeyInKeys(a.chunk, a.due - a.done, n);
  }

  /** Keys that the attempt does not use keep their entry. */
  lemma RecordedElsewhere(next: Schedule, a: Attempt, backoff: int, key: string)
    requires a.done <= a.due && key !in Keys(a.chunk, a.due)
    ensures key in Recorded(next, a, backoff) <==> key in next
    ensures key in next ==> Recorded(next, a, backoff)[key] == next[key]
  {
    assert key !in Keys(a.chunk, a.done) && key !in Keys(a.chunk, a.due - a.done);
  }

  predicate Blocked(next: Schedule, key: string, until: int) {
    key in next && next[key] >= until
  }

  predicate TriedLate(log: seq<Attempt>, i: nat, j: nat, until: int)
    requires j <= |log|
  {
    exists k :: i < k < j && log[k].now >= until
  }

  lemma ReplayFailure(log: seq<Attempt>, backoff: int, i: nat, n: NodeId)
    requires i < |log| && Failed(log[i], log[i].chunk, n)
    ensures Blocked(Replay(log[..i + 1], backoff), Key(log[i].chunk, n), log[i].now + backoff)
  {
    ReplayStep(log, backoff, i);
    RecordedFailure(Replay(log[..i], backoff), log[i], backoff, n);
  }

  lemma ReplayBlocked(log: seq<Attempt>, backoff: int, j: nat, key: string, until: int)
    requires j < |log| && MayAttempt(Replay(log[..j], backoff), log[j])
             && Blocked(Replay(log[..j], backoff), key, until)
    ensures Blocked(Replay(log[..j + 1], backoff), key, until) || log[j].now >= until
  {
    ReplayStep(log, backoff, j);
    if key !in Keys(log[j].chunk, log[j].due) {
      RecordedElsewhere(Replay(log[..j], backoff), log[j], backoff, key);
    }
  }

  /** After a failure the key stays blocked until its time, unless something was tried at or
      after that time. */
  lemma {:induction false} StaysBlocked(log: seq<Attempt>, backoff: int, i: nat, j: nat, n: NodeId)
    requires Admissible(log, backoff)
    requires i < j <= |log| && Failed(log[i], log[i].chunk, n)
    ensures var until := log[i].now + backoff;
            Blocked(Replay(log[..j], backoff), Key(log[i].chunk, n), until) || TriedLate(log, i, j, until)
    decreases j
  {
    if j - 1 == i {
      ReplayFailure(log, backoff, i, n);
    } else {
      var key, until := Key(log[i].chunk, n), log[i].now + backoff;
      StaysBlocked(log, backoff, i, j - 1, n);
      if Blocked(Replay(log[..j - 1], backoff), key, until) {
        assert Allowed(log, backoff, j - 1);
        ReplayBlocked(log, backoff, j - 1, key, until);
      }
    }
  }

  /** Back-off: whatever happens in between, two attempts at the same replica are at least the
      back-off apart if the first of them failed. */
  lemma BackoffHeld(log: seq<Attempt>, backoff: int, i: nat, j: nat, n: NodeId)
    requires Admissible(log, backoff) && ClockRuns(log)
    requires i < j < |log| && Failed(log[i], log[i].chunk, n)
    requires log[j].chunk == log[i].chunk && n in log[j].due
    ensures log[j].now >= log[i].now + backoff
  {
    StaysBlocked(log, backoff, i, j, n);
    assert Allowed(log, backoff, j);
    assert IsDue(Replay(log[..j], backoff), log[j].chunk, n, log[j].now);
  }

  // ---------------------------------------------------------------- shared keys

  /** A colon at the end of the id, or two in a row, with something before. */
  predicate Ambiguous(chunk: ChunkId) {
    exists k :: 0 < k < |chunk| && chunk[k] == ':' && (k + 1 == |chunk| || chunk[k + 1] == ':')
  }

  /** Some replica of the other chunk has the key of this chunk's replica on node `n`. */
  ghost predicate SharesKey(chunk: ChunkId, n: NodeId, other: ChunkId) {
    exists m :: m != "" && Key(other, m) == Key(chunk, n)
  }

  lemma SharedKeyAmbiguous(chunk: ChunkId, other: ChunkId, m: NodeId, n: NodeId)
    requires 0 < |other| < |chunk| && Key(other, m) == Key(chunk, n)
    ensures Ambiguous(chunk)
  {
    var k := |other|;
    assert Key(other, m)[k] == Key(chunk, n)[k] && Key(other, m)[k + 1] == Key(chunk, n)[k + 1];
    assert chunk[k] == ':' && (k + 1 == |chunk| || chunk[k + 1] == ':');
  }

  lemma AmbiguousShares(chunk: ChunkId, n: NodeId) returns (other: ChunkId)
    requires Ambiguous(chunk)
    ensures 0 < |other| < |chunk| && SharesKey(chunk, n, other)
  {
    var k :| 0 < k < |chunk| && chunk[k] == ':' && (k + 1 == |chunk| || chunk[k + 1] == ':');
    other := chunk[..k];
    if k + 1 == |chunk| {
      assert chunk == other + ":";
      assert Key(other, ":" + n) == Key(chunk, n);
    } else {
      assert chunk == other + "::" + chunk[k + 2..];
      assert Key(other, chunk[k + 2..] + "::" + n) == Key(chunk, n);
    }
  }

  /** On every node, a replica of a chunk shares its key with a replica of some chunk with a shorter,
      non-empty id exactly when the chunk's id is ambiguous. */
  lemma SharedKeyIff(chunk: ChunkId, n: NodeId)
    ensures (exists other :: 0 < |other| < |chunk| && SharesKey(chunk, n, other)) <==> Ambiguous(chunk)
  {
    forall other | 0 < |other| < |chunk| && SharesKey(chunk, n, other) ensures Ambiguous(chunk) {
      var m :| m != "" && Key(other, m) == Key(chunk, n);
      SharedKeyAmbiguous(chunk, other, m, n);
    }
    if Ambiguous(chunk) {
      var other := AmbiguousShares(chunk, n);
    }
  }

  lemma KeyInjective(b: ChunkId, m: NodeId, c: ChunkId, n: NodeId)
    requires b != "" && c != "" && !Ambiguous(b) && !Ambiguous(c) && Key(b, m) == Key(c, n)
    ensures b == c && m == n
  {
    assert |b| == |c| by {
      if |b| < |c| {
        SharedKeyAmbiguous(c, b, m, n);
      } else if |c| < |b| {
        SharedKeyAmbiguous(b, c, n, m);
      }
    }
    assert b == Key(b, m)[..|b|] == Key(c, n)[..|c|] == c;
    SameChunkKeys(b, m, n);
  }

  predicate Unambiguous(log: seq<Attempt>) {
    forall i :: 0 <= i < |log| ==> log[i].chunk != "" && !Ambiguous(log[i].chunk)
  }

  predicate Tries(a: Attempt, chunk: ChunkId, n: NodeId) {
    a.chunk == chunk && n in a.due
  }

  /** Attempt `i` is the last one at this replica; it failed, and its back-off ends at `at`. */
  predicate LastFailure(log: seq<Attempt>, backoff: int, chunk: ChunkId, n: NodeId, i: nat, at: int) {
    && i < |log| && Failed(log[i], chunk, n) && at == log[i].now + backoff
    && forall k :: i < k < |log| ==> !Tries(log[k], chunk, n)
  }

  lemma OtherAttempt(a: Attempt, chunk: ChunkId, n: NodeId)
    requires a.chunk != "" && chunk != "" && !Ambiguous(a.chunk) && !Ambiguous(chunk) && !Tries(a, chunk, n)
    ensures Key(chunk, n) !in Keys(a.chunk, a.due)
  {
    forall m | m in a.due ensures Key(a.chunk, m) != Key(chunk, n) {
      if Key(a.chunk, m) == Key(chunk, n) {
        KeyInjective(a.chunk, m, chunk, n);
      }
    }
  }

  lemma OwnAttempt(next: Schedule, a: Attempt, backoff: int, n: NodeId)
    requires a.done <= a.due && n in a.due && Key(a.chunk, n) in Recorded(next, a, backoff)
    ensures n !in a.done && Recorded(next, a, backoff)[Key(a.chunk, n)] == a.now + backoff
  {
    KeyInKeys(a.chunk, a.done, n);
    KeyInKeys(a.chunk, a.due - a.done, n);
  }

  /** With unambiguous chunk ids, a replica is held back only because its own last attempt
      failed, and only until the back-off after that. */
  lemma {:induction false} HeldBackByOwnFailure(log: seq<Attempt>, backoff: int, chunk: ChunkId, n: NodeId)
    returns (i: nat)
    requires Unambiguous(log) && chunk != "" && !Ambiguous(chunk) && Key(chunk, n) in Replay(log, backoff)
    requires forall k :: 0 <= k < |log| ==> log[k].done <= log[k].due
    ensures LastFailure(log, backoff, chunk, n, i, Replay(log, backoff)[Key(chunk, n)])
    decreases |log|
  {
    var last := |log| - 1;
    var a, rest := log[last], log[..last];
    if Tries(a, chunk, n) {
      OwnAttempt(Replay(rest, backoff), a, backoff, n);
      i := last;
    } else {
      OtherAttempt(a, chunk, n);
      RecordedElsewhere(Replay(rest, backoff), a, backoff, Key(chunk, n));
      i := HeldBackByOwnFailure(rest, backoff, chunk, n);
      assert forall k :: 0 <= k < last ==> rest[k] == log[k];
    }
  }

  /** With an ambiguous id the claim fails: a replica that was never tried is held back. */
  lemma HeldBackByAnother(backoff: int)
    requires backoff > 0
    ensures var log := [Attempt("a", {":b"}, {}, 0)];
            && Admissible(log, backoff) && !IsDue(Replay(log, backoff), "a:", "b", 0)
            && forall i :: 0 <= i < |log| ==> log[i].chunk != "a:"
  {
    var log := [Attempt("a", {":b"}, {}, 0)];
    assert log[..0] == [];
    assert Key("a", ":b") == "a:::b" == Key("a:", "b");
    assert Key("a", ":b") in Keys("a", {":b"});
  }
}
