/** Leader hand-over (internal/mds/coordinator/supervisor.go) as a step system.

    Each StartLeading call makes a new generation of controller loops.  What happens under the
    mutex is one step; waiting for a channel, spawning the loops and their return are further
    steps, so a run is any interleaving of any number of StartLeading and StopLeading calls. */
module Supervisor {
  import opened Wrappers

  /** Prepared: the call has left the mutex and waits for the generation in `waitFor`, if any.
      Running: the loops have been spawned.  Ended: they returned and `done` is closed. */
  datatype Stage = Prepared | Running | Ended
  datatype Generation = Generation(waitFor: Option<nat>, stage: Stage)

  /** A StopLeading call past the mutex, waiting for `waitOn` unless it has returned. */
  datatype StopCall = StopCall(waitOn: Option<nat>, returned: bool)

  /** `current` is the generation behind the fields `cancel` and `done`, if they are set. */
  datatype Supervisor = Supervisor(current: Option<nat>, gens: seq<Generation>, stops: seq<StopCall>)

  datatype Event = StartLeading | Spawn(g: nat) | LoopsEnd(g: nat) | StopLeading | StopReturns(k: nat)

  predicate HasEnded(s: Supervisor, g: Option<nat>) {
    g.Some? ==> g.value < |s.gens| && s.gens[g.value].stage == Ended
  }

  function Next(s: Supervisor, e: Event): Supervisor {
    match e
    case StartLeading =>
      Supervisor(Some(|s.gens|), s.gens + [Generation(s.current, Prepared)], s.stops)
    case Spawn(g) =>
      if g < |s.gens| && s.gens[g].stage == Prepared && HasEnded(s, s.gens[g].waitFor)
      then s.(gens := s.gens[g := s.gens[g].(stage := Running)]) else s
    case LoopsEnd(g) =>
      if g < |s.gens| && s.gens[g].stage == Running
      then s.(gens := s.gens[g := s.gens[g].(stage := Ended)]) else s
    case StopLeading =>
      Supervisor(None, s.gens, s.stops + [StopCall(s.current, false)])
    case StopReturns(k) =>
      if k < |s.stops| && HasEnded(s, s.stops[k].waitOn)
      then s.(stops := s.stops[k := s.stops[k].(returned := true)]) else s
  }

  function After(s: Supervisor, events: seq<Event>): Supervisor
    decreases |events|
  {
    if events == [] then s else After(Next(s, events[0]), events[1..])
  }

  const INITIAL := Supervisor(None, [], [])

  /** Some StopLeading call is still waiting for loops that have not ended. */
  predicate StopWaiting(s: Supervisor) {
    exists k :: 0 <= k < |s.stops| && !HasEnded(s, s.stops[k].waitOn)
  }

  /** No StartLeading call begins while a StopLeading call is still waiting. */
  predicate Orderly(s: Supervisor, events: seq<Event>)
    decreases |events|
  {
    events != [] ==> (events[0].StartLeading? ==> !StopWaiting(s)) && Orderly(Next(s, events[0]), events[1..])
  }

  predicate Overlap(s: Supervisor) {
    exists g, h :: 0 <= g < h < |s.gens| && s.gens[g].stage == Running && s.gens[h].stage == Running
  }

  // ---------------------------------------------------------------- the invariant

  predicate AllEndedBefore(s: Supervisor, n: nat)
    requires n <= |s.gens|
  {
    forall h :: 0 <= h < n ==> s.gens[h].stage == Ended
  }

  predicate GenerationOk(s: Supervisor, g: nat)
    requires g < |s.gens|
  {
    && (s.gens[g].stage != Prepared ==> AllEndedBefore(s, g))
    && (if s.gens[g].waitFor.Some? then s.gens[g].waitFor.value == g - 1 else AllEndedBefore(s, g))
  }

  predicate StopOk(s: Supervisor, k: nat)
    requires k < |s.stops|
  {
    && (s.stops[k].waitOn.Some? ==> s.stops[k].waitOn.value < |s.gens|)
    && (s.stops[k].returned ==> HasEnded(s, s.stops[k].waitOn))
    && (!HasEnded(s, s.stops[k].waitOn) ==> s.current.None? && s.stops[k].waitOn.value == |s.gens| - 1)
  }

  predicate CurrentOk(s: Supervisor) {
    if s.current.Some? then s.current.value == |s.gens| - 1
    else |s.gens| == 0 || s.gens[|s.gens| - 1].stage == Ended || StopWaiting(s)
  }

  predicate Good(s: Supervisor) {
    && (forall g :: 0 <= g < |s.gens| ==> GenerationOk(s, g))
    && (forall k :: 0 <= k < |s.stops| ==> StopOk(s, k))
    && CurrentOk(s)
  }

  lemma GoodNoOverlap(s: Supervisor)
    requires Good(s)
    ensures !Overlap(s)
  {
    forall g, h | 0 <= g < h < |s.gens| && s.gens[g].stage == Running ensures s.gens[h].stage != Running {
      assert GenerationOk(s, h);
    }
  }

  /** Ending and spawning generations only moves stages forward. */
  predicate Advances(s: Supervisor, t: Supervisor) {
    && |t.gens| == |s.gens| && t.current == s.current && t.stops == s.stops
    && forall g :: 0 <= g < |s.gens| ==> t.gens[g].waitFor == s.gens[g].waitFor
                                         && (s.gens[g].stage == Ended ==> t.gens[g].stage == Ended)
  }

  lemma AdvanceKeepsStops(s: Supervisor, t: Supervisor)
    requires Good(s) && Advances(s, t)
    ensures forall k :: 0 <= k < |t.stops| ==> StopOk(t, k)
  {
    forall k | 0 <= k < |t.stops| ensures StopOk(t, k) {
      assert StopOk(s, k);
    }
  }

  lemma AdvanceKeepsCurrent(s: Supervisor, t: Supervisor)
    requires Good(s) && Advances(s, t)
    ensures CurrentOk(t)
  {
    if t.current.None? && |t.gens| > 0 && s.gens[|s.gens| - 1].stage != Ended {
      var k :| 0 <= k < |s.stops| && !HasEnded(s, s.stops[k].waitOn);
      assert StopOk(s, k);
      assert HasEnded(t, t.stops[k].waitOn) ==> t.gens[|t.gens| - 1].stage == Ended;
    }
  }

  lemma StartKeepsGood(s: Supervisor)
    requires Good(s) && !StopWaiting(s)
    ensures Good(Next(s, StartLeading))
  {
    var t, n := Next(s, StartLeading), |s.gens|;
    assert n > 0 && s.current.None? ==> s.gens[n - 1].stage == Ended;
    assert n > 0 ==> GenerationOk(s, n - 1);
    forall g | 0 <= g < |t.gens| ensures GenerationOk(t, g) {
      if g < n {
        assert GenerationOk(s, g);
      }
    }
    forall k | 0 <= k < |t.stops| ensures StopOk(t, k) {
      assert StopOk(s, k);
    }
  }

  lemma SpawnKeepsGood(s: Supervisor, g: nat)
    requires Good(s)
    ensures Good(Next(s, Spawn(g)))
  {
    var t := Next(s, Spawn(g));
    if t != s {
      assert GenerationOk(s, g);
      assert g > 0 && s.gens[g].waitFor.Some? ==> GenerationOk(s, g - 1);
      assert AllEndedBefore(s, g);
      forall h | 0 <= h < |t.gens| ensures GenerationOk(t, h) {
        assert GenerationOk(s, h);
      }
      AdvanceKeepsStops(s, t);
      AdvanceKeepsCurrent(s, t);
    }
  }

  lemma EndKeepsGood(s: Supervisor, g: nat)
    requires Good(s)
    ensures Good(Next(s, LoopsEnd(g)))
  {
    var t := Next(s, LoopsEnd(g));
    if t != s {
      forall h | 0 <= h < |t.gens| ensures GenerationOk(t, h) {
        assert GenerationOk(s, h);
      }
      AdvanceKeepsStops(s, t);
      AdvanceKeepsCurrent(s, t);
    }
  }

  lemma StopKeepsGood(s: Supervisor)
    requires Good(s)
    ensures Good(Next(s, StopLeading))
  {
    var t, n := Next(s, StopLeading), |s.stops|;
    forall h | 0 <= h < |t.gens| ensures GenerationOk(t, h) {
      assert GenerationOk(s, h);
    }
    forall k | 0 <= k < |t.stops| ensures StopOk(t, k) {
      if k < n {
        assert StopOk(s, k);
      }
    }
    assert t.stops[n].waitOn == s.current;
    if s.current.Some? && s.gens[s.current.value].stage != Ended {
      assert !HasEnded(t, t.stops[n].waitOn);
    } else if s.current.None? && StopWaiting(s) {
      var k :| 0 <= k < |s.stops| && !HasEnded(s, s.stops[k].waitOn);
      assert !HasEnded(t, t.stops[k].waitOn);
    }
  }

  lemma ReturnKeepsGood(s: Supervisor, k: nat)
    requires Good(s)
    ensures Good(Next(s, StopReturns(k)))
  {
    var t := Next(s, StopReturns(k));
    if t != s {
      forall h | 0 <= h < |t.gens| ensures GenerationOk(t, h) {
        assert GenerationOk(s, h);
      }
      forall j | 0 <= j < |t.stops| ensures StopOk(t, j) {
        assert StopOk(s, j);
      }
      if StopWaiting(s) {
        var j :| 0 <= j < |s.stops| && !HasEnded(s, s.stops[j].waitOn);
        assert !HasEnded(t, t.stops[j].waitOn);
      }
    }
  }

  // ---------------------------------------------------------------- every run

  lemma {:induction false} OrderlyRunsAreGood(s: Supervisor, events: seq<Event>)
    requires Good(s) && Orderly(s, events)
    ensures Good(After(s, events))
    decreases |events|
  {
    if events != [] {
      match events[0] {
        case StartLeading => StartKeepsGood(s);
        case Spawn(g) => SpawnKeepsGood(s, g);
        case LoopsEnd(g) => EndKeepsGood(s, g);
        case StopLeading => StopKeepsGood(s);
        case StopReturns(k) => ReturnKeepsGood(s, k);
      }
      OrderlyRunsAreGood(Next(s, events[0]), events[1..]);
    }
  }

  /** Hand-over: in every interleaving in which no StartLeading begins while a StopLeading still
      waits, the loops of two generations never run together, and a StopLeading that has
      returned took a generation whose loops have ended. */
  lemma HandOver(events: seq<Event>)
    requires Orderly(INITIAL, events)
    ensures var s := After(INITIAL, events);
            && !Overlap(s)
            && forall k :: 0 <= k < |s.stops| && s.stops[k].returned ==> HasEnded(s, s.stops[k].waitOn)
  {
    OrderlyRunsAreGood(INITIAL, events);
    var s := After(INITIAL, events);
    GoodNoOverlap(s);
    forall k | 0 <= k < |s.stops| && s.stops[k].returned ensures HasEnded(s, s.stops[k].waitOn) {
      assert StopOk(s, k);
    }
  }

  /** The oldest generation that has not ended can be running at once. */
  lemma {:induction false} OldestCanRun(s: Supervisor, g: nat) returns (h: nat)
    requires Good(s) && g < |s.gens| && s.gens[g].stage != Ended
    ensures h <= g && s.gens[h].stage != Ended && AllEndedBefore(s, h)
    ensures s.gens[h].stage == Running || HasEnded(s, s.gens[h].waitFor)
    decreases g
  {
    if AllEndedBefore(s, g) {
      h := g;
      assert GenerationOk(s, g);
    } else {
      var e :| 0 <= e < g && s.gens[e].stage != Ended;
      h := OldestCanRun(s, e);
    }
  }

  /** The condition is exact: a StartLeading that begins while a StopLeading still waits can be
      followed by two generations running together. */
  lemma EarlyStartOverlaps(s: Supervisor) returns (h: nat)
    requires Good(s) && StopWaiting(s)
    ensures h < |s.gens|
    ensures Overlap(After(s, [StartLeading, Spawn(|s.gens|), Spawn(h)]))
  {
    var n := |s.gens|;
    var k :| 0 <= k < |s.stops| && !HasEnded(s, s.stops[k].waitOn);
    assert StopOk(s, k);
    h := OldestCanRun(s, n - 1);
    var s1 := Next(s, StartLeading);
    var s2 := Next(s1, Spawn(n));
    assert s1.gens[n].waitFor == None;
    assert s2.gens[n].stage == Running && s2.gens[h] == s.gens[h];
    var s3 := Next(s2, Spawn(h));
    assert s3.gens[h].stage == Running && s3.gens[n].stage == Running;
    UnfoldThree(s, StartLeading, Spawn(n), Spawn(h));
  }

  /** The shortest such run: the second StartLeading does not wait for the generation that the
      StopLeading before it is still stopping. */
  lemma TwoGenerationsRun()
    ensures Overlap(After(INITIAL, [StartLeading, Spawn(0), StopLeading, StartLeading, Spawn(1)]))
  {
    var events := [StartLeading, Spawn(0), StopLeading, StartLeading, Spawn(1)];
    assert events[1..] == [Spawn(0), StopLeading, StartLeading, Spawn(1)];
    assert events[1..][1..] == [StopLeading, StartLeading, Spawn(1)];
    UnfoldThree(Next(Next(INITIAL, StartLeading), Spawn(0)), StopLeading, StartLeading, Spawn(1));
    var t := After(INITIAL, events);
    assert t.gens[0].stage == Running && t.gens[1].stage == Running;
  }

  // ---------------------------------------------------------------- nothing waits for ever

  /** A generation waits for an earlier one, and a StopLeading call for one there is. */
  predicate Wired(s: Supervisor) {
    && (s.current.Some? ==> s.current.value < |s.gens|)
    && (forall g :: 0 <= g < |s.gens| && s.gens[g].waitFor.Some? ==> s.gens[g].waitFor.value < g)
    && (forall k :: 0 <= k < |s.stops| && s.stops[k].waitOn.Some? ==> s.stops[k].waitOn.value < |s.gens|)
  }

  lemma {:induction false} RunsAreWired(s: Supervisor, events: seq<Event>)
    requires Wired(s)
    ensures Wired(After(s, events))
    decreases |events|
  {
    if events != [] {
      RunsAreWired(Next(s, events[0]), events[1..]);
    }
  }

  /** A call coming to an end: its loops are spawned, they return, it returns. */
  predicate IsEnding(e: Event) {
    e.Spawn? || e.LoopsEnd? || e.StopReturns?
  }

  predicate AllFinished(s: Supervisor) {
    && (forall g :: 0 <= g < |s.gens| ==> s.gens[g].stage == Ended)
    && (forall k :: 0 <= k < |s.stops| ==> s.stops[k].returned)
  }

  /** No deadlock: however StartLeading and StopLeading calls have been interleaved, orderly or not, all
      loops can still end and all calls return, without a further call. */
  lemma NoDeadlock(events: seq<Event>) returns (rest: seq<Event>)
    ensures forall i :: 0 <= i < |rest| ==> IsEnding(rest[i])
    ensures var s, t := After(INITIAL, events), After(INITIAL, events + rest);
            AllFinished(t) && |t.gens| == |s.gens| && |t.stops| == |s.stops|
  {
    var s := After(INITIAL, events);
    RunsAreWired(INITIAL, events);
    var ends := EndFrom(s, 0);
    var closing := ReturnFrom(After(s, ends), 0);
    rest := ends + closing;
    AfterBoth(s, ends, closing);
    AfterBoth(INITIAL, events, rest);
  }

  lemma {:induction false} EndFrom(s: Supervisor, g: nat) returns (events: seq<Event>)
    requires Wired(s) && g <= |s.gens| && AllEndedBefore(s, g)
    ensures forall i :: 0 <= i < |events| ==> IsEnding(events[i])
    ensures var t := After(s, events);
            |t.gens| == |s.gens| && t.stops == s.stops && AllEndedBefore(t, |t.gens|) && Wired(t)
    decreases |s.gens| - g
  {
    if g == |s.gens| {
      events := [];
    } else {
      var s1 := Next(s, Spawn(g));
      var s2 := Next(s1, LoopsEnd(g));
      assert s1.gens[g].stage != Prepared && s2.gens[g].stage == Ended;
      assert forall h :: 0 <= h < |s.gens| && h != g ==> s2.gens[h] == s.gens[h];
      assert s2.gens[g].waitFor == s.gens[g].waitFor;
      var more := EndFrom(s2, g + 1);
      events := [Spawn(g), LoopsEnd(g)] + more;
      AfterTwo(s, Spawn(g), LoopsEnd(g));
      AfterBoth(s, [Spawn(g), LoopsEnd(g)], more);
    }
  }

  lemma {:induction false} ReturnFrom(s: Supervisor, k: nat) returns (events: seq<Event>)
    requires Wired(s) && AllEndedBefore(s, |s.gens|) && k <= |s.stops|
    requires forall j :: 0 <= j < k ==> s.stops[j].returned
    ensures forall i :: 0 <= i < |events| ==> IsEnding(events[i])
    ensures var t := After(s, events); AllFinished(t) && t.gens == s.gens && |t.stops| == |s.stops|
    decreases |s.stops| - k
  {
    if k == |s.stops| {
      events := [];
    } else {
      var t := Next(s, StopReturns(k));
      assert HasEnded(s, s.stops[k].waitOn);
      assert t.stops[k].returned;
      var more := ReturnFrom(t, k + 1);
      events := [StopReturns(k)] + more;
      AfterBoth(s, [StopReturns(k)], more);
      assert [StopReturns(k)][1..] == [];
    }
  }

  lemma {:induction false} AfterBoth(s: Supervisor, a: seq<Event>, b: seq<Event>)
    ensures After(s, a + b) == After(After(s, a), b)
    decreases |a|
  {
    if a == [] {
      assert a + b == b;
    } else {
      assert (a + b)[1..] == a[1..] + b;
      AfterBoth(Next(s, a[0]), a[1..], b);
    }
  }

  lemma AfterTwo(s: Supervisor, a: Event, b: Event)
    ensures After(s, [a, b]) == Next(Next(s, a), b)
  {
    assert [a, b][1..] == [b];
    assert [b][1..] == [];
    assert After(Next(s, a), [b]) == After(Next(Next(s, a), b), []);
  }

  lemma UnfoldThree(s: Supervisor, a: Event, b: Event, c: Event)
    ensures After(s, [a, b, c]) == Next(Next(Next(s, a), b), c)
  {
    assert [a, b, c][1..] == [b, c];
    assert [b, c][1..] == [c];
    assert [c][1..] == [];
    assert After(Next(Next(s, a), b), [c]) == After(Next(Next(Next(s, a), b), c), []);
  }
}
