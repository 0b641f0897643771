// The orchestrator around the event loop: construction from a validated
// pipeline, one step at a time, and ranks yielded and reclaimed in between.
module Orchestration {
  import opened Collections
  import opened Graphs
  import opened DagValidation
  import P = RankPools
  import opened RankPoolObjects
  import S = Scheduling
  import opened SchedulerInvariant
  import opened SchedulerRuns
  import opened EventLoops

  datatype Orch = Orch(sched: S.Sched, deferred: set<int>)

  datatype Action =
    | Advance(input: S.Input)
    | Yield(yielded: seq<int>)
    | Reclaim(wanted: set<int>)

  ghost function SettleDeferred(o: Orch): Orch
    requires |o.sched.pool.ids| == |o.sched.pool.bits|
  {
    Orch(o.sched.(pool := P.RemoveAvailable(o.sched.pool, o.deferred)), o.deferred - P.Free(o.sched.pool))
  }

  ghost function ReclaimNow(o: Orch, wanted: set<int>): Orch
    requires |o.sched.pool.ids| == |o.sched.pool.bits|
  {
    Orch(o.sched.(pool := P.RemoveAvailable(o.sched.pool, wanted)), o.deferred + (wanted - P.Free(o.sched.pool)))
  }

  ghost function Perform(t: S.Tasks, o: Orch, a: Action): (r: Orch)
    requires Inv(t, o.sched)
    ensures Inv(t, r.sched)
  {
    match a
    case Advance(input) =>
      CycleKeeps(t, o.sched, input);
      RemovalKeeps(t, S.Cycle(t, o.sched, input), o.deferred);
      SettleDeferred(o.(sched := S.Cycle(t, o.sched, input)))
    case Yield(yielded) =>
      YieldKeeps(t, o.sched, yielded);
      o.(sched := o.sched.(pool := P.AddRanks(o.sched.pool, yielded)))
    case Reclaim(wanted) =>
      RemovalKeeps(t, o.sched, wanted);
      ReclaimNow(o, wanted)
  }

  lemma RemovalKeeps(t: S.Tasks, s: S.Sched, wanted: set<int>)
    requires Inv(t, s)
    ensures Inv(t, s.(pool := P.RemoveAvailable(s.pool, wanted)))
  {
    P.RemoveMeaning(s.pool, wanted);
  }

  lemma YieldKeeps(t: S.Tasks, s: S.Sched, yielded: seq<int>)
    requires Inv(t, s)
    ensures Inv(t, s.(pool := P.AddRanks(s.pool, yielded)))
  {
    P.AddMeaning(s.pool, yielded);
  }

  ghost function PerformAll(t: S.Tasks, o: Orch, actions: seq<Action>): (r: Orch)
    requires Inv(t, o.sched)
    ensures Inv(t, r.sched)
    decreases |actions|
  {
    if actions == [] then o else PerformAll(t, Perform(t, o, actions[0]), actions[1..])
  }

  ghost function Sum(sizes: seq<set<int>>): nat
  {
    if sizes == [] then 0 else Sum(sizes[..|sizes| - 1]) + |sizes[|sizes| - 1]|
  }

  lemma {:induction false} HeldIsSum(ranks: seq<set<int>>, held: set<int>)
    requires forall i, j :: 0 <= i < j < |ranks| ==> ranks[i] !! ranks[j]
    requires forall r :: r in held <==> InUse(ranks, r)
    ensures |held| == Sum(ranks)
    decreases |ranks|
  {
    if ranks == [] {
      assert held == {} by {
        forall r ensures r !in held {
          assert !InUse(ranks, r);
        }
      }
    } else {
      var n := |ranks| - 1;
      var rest := held - ranks[n];
      forall r ensures r in rest <==> InUse(ranks[..n], r) {
        if InUse(ranks[..n], r) {
          var i :| 0 <= i < n && r in ranks[i];
          assert InUse(ranks, r);
        }
        if r in rest {
          var i :| 0 <= i < |ranks| && r in ranks[i];
          assert r in ranks[..n][i];
        }
      }
      HeldIsSum(ranks[..n], rest);
      forall r | r in ranks[n] ensures r in held {
        assert InUse(ranks, r);
      }
      assert held == rest + ranks[n];
    }
  }

  // Conservation and exclusivity, across dispatch, completion, failure, yield
  // and reclaim in any order.
  lemma RanksConserved(t: S.Tasks, o: Orch, actions: seq<Action>)
    requires Inv(t, o.sched)
    ensures var s := PerformAll(t, o, actions).sched;
      && s.pool.total == s.pool.available + Sum(s.ranks)
      && s.pool.available == |P.Free(s.pool)|
      && (forall i, j :: 0 <= i < j < |s.ranks| ==> s.ranks[i] !! s.ranks[j])
      && (forall i :: 0 <= i < |s.ranks| ==> |s.ranks[i]| == if s.status[i].Running? then t.required[i] else 0)
      && s.inFlight == |RunningSet(s.status)| <= t.maxConcurrency
  {
    var s := PerformAll(t, o, actions).sched;
    P.Sizes(s.pool);
    HeldIsSum(s.ranks, P.Held(s.pool));
  }

  // A reclaimed rank in use is never taken from its task; it leaves the pool
  // at the end of the first step in which it is free.
  lemma DeferredLeaveWhenFree(t: S.Tasks, o: Orch, input: S.Input)
    requires Inv(t, o.sched)
    ensures var o' := Perform(t, o, Advance(input));
      && P.Held(o'.sched.pool) == P.Held(S.Cycle(t, o.sched, input).pool)
      && P.Free(o'.sched.pool) == P.Free(S.Cycle(t, o.sched, input).pool) - o.deferred
      && o'.deferred !! P.Free(o'.sched.pool)
      && o.deferred == o'.deferred + (o.deferred * P.Free(S.Cycle(t, o.sched, input).pool))
  {
    CycleKeeps(t, o.sched, input);
    var s := S.Cycle(t, o.sched, input);
    P.RemoveMeaning(s.pool, o.deferred);
  }

  // A reclaim takes the named ranks that are free out of the pool at once and
  // remembers the others; a yield adds the ranks that are new, as free ones.
  // Neither touches a rank in use.
  lemma ReclaimMeaning(t: S.Tasks, o: Orch, wanted: set<int>)
    requires Inv(t, o.sched)
    ensures var o' := Perform(t, o, Reclaim(wanted));
      && P.Free(o'.sched.pool) == P.Free(o.sched.pool) - wanted
      && P.Held(o'.sched.pool) == P.Held(o.sched.pool)
      && (forall r :: r in o'.deferred <==> r in o.deferred || (r in wanted && r !in P.Free(o.sched.pool)))
      && o'.sched == o.sched.(pool := o'.sched.pool)
  {
    P.RemoveMeaning(o.sched.pool, wanted);
  }

  lemma YieldMeaning(t: S.Tasks, o: Orch, yielded: seq<int>)
    requires Inv(t, o.sched)
    ensures var o' := Perform(t, o, Yield(yielded));
      && (forall r :: r in P.Free(o'.sched.pool) <==>
            r in P.Free(o.sched.pool) || (r in yielded && r !in P.Held(o.sched.pool)))
      && P.Held(o'.sched.pool) == P.Held(o.sched.pool)
      && o' == o.(sched := o.sched.(pool := o'.sched.pool))
  {
    P.AddMeaning(o.sched.pool, yielded);
  }

  // A cycle moves ranks between the free and the held, and adds or drops none.
  lemma {:induction false} DispatchIds(t: S.Tasks, s: S.Sched, refused: set<nat>)
    requires S.Shape(t, s)
    ensures S.Dispatch(t, s, refused).pool.ids == s.pool.ids
    decreases |s.queue|
  {
    if s.queue != [] && s.inFlight < t.maxConcurrency {
      if !s.status[s.queue[0]].Ready? {
        DispatchIds(t, s.(queue := s.queue[1..]), refused);
      } else if P.TryAllocate(s.pool, t.required[s.queue[0]]).1 != {} {
        DispatchIds(t, S.DispatchFront(t, s, refused), refused);
      }
    }
  }

  lemma {:induction false} CompleteIds(t: S.Tasks, s: S.Sched, reports: seq<(nat, bool)>)
    requires S.Shape(t, s)
    ensures S.Complete(t, s, reports).pool.ids == s.pool.ids
    decreases |reports|
  {
    if reports != [] {
      var (id, success) := reports[0];
      if id >= |s.status| || !s.status[id].Running? {
        CompleteIds(t, s, reports[1..]);
      } else {
        CompleteIds(t, if success then S.Finish(t, s, id) else S.Fail(t, s, id), reports[1..]);
      }
    }
  }

  lemma {:induction false} PollIds(t: S.Tasks, s: S.Sched, i: nat)
    requires S.Shape(t, s) && i <= |s.status|
    ensures S.PollFrom(t, s, i).pool == s.pool
    decreases |s.status| - i
  {
    if i < |s.status| {
      PollIds(t, if s.status[i].Pending? && s.pendingDeps[i] == 0 then S.MarkReady(s, i) else s, i + 1);
    }
  }

  ghost function Managed(p: P.Pool): set<int> {
    set r | r in p.ids
  }

  lemma ManagedSplit(p: P.Pool)
    requires |p.ids| == |p.bits|
    ensures Managed(p) == P.Free(p) + P.Held(p)
  {
    forall r | r in Managed(p) ensures r in P.Free(p) + P.Held(p) {
      var i :| 0 <= i < |p.ids| && p.ids[i] == r;
    }
  }

  lemma CycleManaged(t: S.Tasks, s: S.Sched, input: S.Input)
    requires Inv(t, s)
    ensures S.Shape(t, S.Cycle(t, s, input))
    ensures P.Free(S.Cycle(t, s, input).pool) + P.Held(S.Cycle(t, s, input).pool) == P.Free(s.pool) + P.Held(s.pool)
  {
    PollIds(t, s, 0);
    var polled := S.PollFrom(t, s, 0);
    DispatchIds(t, polled, input.refused);
    CompleteIds(t, S.Dispatch(t, polled, input.refused), input.reports);
    ManagedSplit(s.pool);
    ManagedSplit(S.Cycle(t, s, input).pool);
  }

  // The interface says reclaiming defers ranks that are allocated. Every
  // operation keeps the deferred ranks among the held ones, except a reclaim,
  // which does so exactly when every rank it names belongs to the pool.
  lemma DeferredAreAllocated(t: S.Tasks, o: Orch, a: Action)
    requires Inv(t, o.sched) && o.deferred <= P.Held(o.sched.pool)
    ensures var o' := Perform(t, o, a);
      o'.deferred <= P.Held(o'.sched.pool)
      <==> (a.Reclaim? ==> a.wanted <= P.Free(o.sched.pool) + P.Held(o.sched.pool))
  {
    match a
    case Advance(input) =>
      CycleKeeps(t, o.sched, input);
      CycleManaged(t, o.sched, input);
      DeferredLeaveWhenFree(t, o, input);
    case Yield(yielded) => P.AddMeaning(o.sched.pool, yielded);
    case Reclaim(wanted) => P.RemoveMeaning(o.sched.pool, wanted);
  }

  // The failing family, whatever the pipeline: a rank the pool never managed is
  // remembered, and the first step after it is yielded takes it away again,
  // unless that step left it with a task.
  lemma UnmanagedReclaimUndoesYield(t: S.Tasks, o: Orch, r: int, input: S.Input)
    requires Inv(t, o.sched) && r !in P.Free(o.sched.pool) + P.Held(o.sched.pool)
    ensures var yielded := PerformAll(t, o, [Reclaim({r}), Yield([r])]);
      var stepped := Perform(t, yielded, Advance(input));
      && r in P.Free(yielded.sched.pool)
      && r !in P.Free(stepped.sched.pool)
      && (r in P.Held(stepped.sched.pool) <==> r in P.Held(S.Cycle(t, yielded.sched, input).pool))
  {
    var first := Perform(t, o, Reclaim({r}));
    var yielded := Perform(t, first, Yield([r]));
    var actions := [Reclaim({r}), Yield([r])];
    assert actions[1..] == [Yield([r])] && [Yield([r])][1..] == [];
    assert PerformAll(t, o, actions) == PerformAll(t, first, [Yield([r])]) == PerformAll(t, yielded, []);
    YieldedDeferred(t, o, r);
    CycleKeeps(t, yielded.sched, input);
    P.RemoveMeaning(S.Cycle(t, yielded.sched, input).pool, yielded.deferred);
  }

  lemma YieldedDeferred(t: S.Tasks, o: Orch, r: int)
    requires Inv(t, o.sched) && r !in P.Free(o.sched.pool) + P.Held(o.sched.pool)
    ensures var yielded := Perform(t, Perform(t, o, Reclaim({r})), Yield([r]));
      r in yielded.deferred && r in P.Free(yielded.sched.pool)
  {
    var first := Perform(t, o, Reclaim({r}));
    P.RemoveMeaning(o.sched.pool, {r});
    P.AddMeaning(first.sched.pool, [r]);
    assert r in set x | x in [r];
  }

  // ----- termination -----

  // No reclaim names one of these ranks.
  ghost predicate Spares(actions: seq<Action>, core: set<int>) {
    forall i :: 0 <= i < |actions| && actions[i].Reclaim? ==> actions[i].wanted !! core
  }

  // The ranks belong to the pool, and none is waiting to leave it.
  ghost predicate Stay(o: Orch, core: set<int>) {
    && |o.sched.pool.ids| == |o.sched.pool.bits|
    && core <= P.Free(o.sched.pool) + P.Held(o.sched.pool) && core !! o.deferred
  }

  function Steps(actions: seq<Action>): nat {
    if actions == [] then 0 else Steps(actions[1..]) + if actions[0].Advance? then 1 else 0
  }

  // In every step in which tasks run, the environment reports one of them.
  ghost predicate AllRespond(t: S.Tasks, o: Orch, actions: seq<Action>)
    requires Inv(t, o.sched)
    decreases |actions|
  {
    actions == []
    || ((actions[0].Advance? ==> Responsive(t, o.sched, actions[0].input))
        && AllRespond(t, Perform(t, o, actions[0]), actions[1..]))
  }

  lemma ActionKeepsCore(t: S.Tasks, o: Orch, a: Action, core: set<int>)
    requires Inv(t, o.sched) && Stay(o, core) && (a.Reclaim? ==> a.wanted !! core)
    ensures Stay(Perform(t, o, a), core)
  {
    match a
    case Advance(input) =>
      CycleKeeps(t, o.sched, input);
      CycleManaged(t, o.sched, input);
      P.RemoveMeaning(S.Cycle(t, o.sched, input).pool, o.deferred);
    case Yield(yielded) => P.AddMeaning(o.sched.pool, yielded);
    case Reclaim(wanted) => P.RemoveMeaning(o.sched.pool, wanted);
  }

  lemma CoreIsAffordable(t: S.Tasks, o: Orch, core: set<int>)
    requires Inv(t, o.sched) && Stay(o, core) && Affordable(t, |core|)
    ensures Affordable(t, o.sched.pool.total)
  {
    hide CountsOk, Causal, QueueOk, FlightOk, TraceOk;
    var pool := o.sched.pool;
    P.Sizes(pool);
    P.Apart(pool);
    SubsetSize(core, P.Free(pool) + P.Held(pool));
    assert |P.Free(pool) + P.Held(pool)| == |P.Free(pool)| + |P.Held(pool)|;
  }

  lemma ActionShrinks(t: S.Tasks, o: Orch, a: Action, core: set<int>)
    requires Inv(t, o.sched) && Acyclic(t.dependents) && Stay(o, core) && Affordable(t, |core|)
    requires a.Advance? ==> Responsive(t, o.sched, a.input)
    ensures var o' := Perform(t, o, a);
      && S.Live(o'.sched.status) <= S.Live(o.sched.status)
      && (a.Advance? && !S.AllComplete(o.sched) ==> S.Live(o'.sched.status) < S.Live(o.sched.status))
  {
    hide Stay, Responsive, Affordable, Acyclic, CountsOk, Causal, QueueOk, FlightOk, RanksOk, TraceOk;
    if a.Advance? {
      if S.AllComplete(o.sched) {
        CycleKeeps(t, o.sched, a.input);
        StaysComplete(o.sched.status, S.Cycle(t, o.sched, a.input).status);
      } else {
        CoreIsAffordable(t, o, core);
        CycleShrinks(t, o.sched, a.input);
      }
    }
  }

  lemma StaysComplete(before: seq<S.Status>, after: seq<S.Status>)
    requires Advances(before, after)
    ensures S.Live(after) <= S.Live(before)
  {
    forall i: nat | i in S.Live(after) ensures i in S.Live(before) {
      assert Later(before[i], after[i]);
    }
  }

  lemma NothingLive(s: S.Sched)
    ensures S.Live(s.status) == {} <==> S.AllComplete(s)
  {
    if !S.AllComplete(s) {
      var i :| 0 <= i < |s.status| && !S.Terminal(s.status[i]);
      assert i in S.Live(s.status);
    }
  }

  // Whatever is yielded and reclaimed in between, and while deferred ranks
  // drain away: if the demands are affordable from some ranks that are never
  // reclaimed, as many responsive steps as there are unfinished tasks complete
  // everything.
  lemma {:induction false} StepsTerminate(t: S.Tasks, o: Orch, actions: seq<Action>, core: set<int>)
    requires Inv(t, o.sched) && Acyclic(t.dependents)
    requires Stay(o, core) && Spares(actions, core) && Affordable(t, |core|)
    requires AllRespond(t, o, actions) && Steps(actions) >= |S.Live(o.sched.status)|
    ensures S.AllComplete(PerformAll(t, o, actions).sched)
    decreases |actions|
  {
    hide Inv, Stay, Responsive, Affordable, Acyclic, Perform;
    NothingLive(o.sched);
    if actions != [] {
      var o' := Perform(t, o, actions[0]);
      ActionKeepsCore(t, o, actions[0], core);
      ActionShrinks(t, o, actions[0], core);
      SubsetSize(S.Live(o'.sched.status), S.Live(o.sched.status));
      if S.Live(o'.sched.status) < S.Live(o.sched.status) {
        ProperSubsetSize(S.Live(o'.sched.status), S.Live(o.sched.status));
      }
      StepsTerminate(t, o', actions[1..], core);
    }
  }

  // ----- run() -----

  ghost predicate NoneTerminal(s: S.Sched) {
    forall i :: 0 <= i < |s.status| ==> !S.Terminal(s.status[i])
  }

  lemma {:induction false} PollStaysOpen(t: S.Tasks, s: S.Sched, i: nat)
    requires S.Shape(t, s) && i <= |s.status| && NoneTerminal(s)
    ensures NoneTerminal(S.PollFrom(t, s, i)) && |S.PollFrom(t, s, i).status| == |s.status|
    decreases |s.status| - i
  {
    if i < |s.status| {
      if s.status[i].Pending? && s.pendingDeps[i] == 0 {
        PollStaysOpen(t, S.MarkReady(s, i), i + 1);
      } else {
        PollStaysOpen(t, s, i + 1);
      }
    }
  }

  lemma {:induction false} DispatchStaysOpen(t: S.Tasks, s: S.Sched)
    requires S.Shape(t, s) && NoneTerminal(s)
    ensures NoneTerminal(S.Dispatch(t, s, {})) && |S.Dispatch(t, s, {}).status| == |s.status|
    decreases |s.queue|
  {
    if s.queue != [] && s.inFlight < t.maxConcurrency {
      if !s.status[s.queue[0]].Ready? {
        DispatchStaysOpen(t, s.(queue := s.queue[1..]));
      } else if P.TryAllocate(s.pool, t.required[s.queue[0]]).1 != {} {
        DispatchStaysOpen(t, S.DispatchFront(t, s, {}));
      }
    }
  }

  // run()'s loop body: a cycle in which every dispatch is accepted and nothing
  // is reported, then deferred reclamation.
  function OwnSteps(cycles: nat): seq<Action> {
    seq(cycles, _ => Advance(S.Input({}, [])))
  }

  lemma OwnStepStaysOpen(t: S.Tasks, o: Orch)
    requires Inv(t, o.sched) && NoneTerminal(o.sched)
    ensures var o' := Perform(t, o, Advance(S.Input({}, [])));
      NoneTerminal(o'.sched) && |o'.sched.status| == |o.sched.status|
  {
    PollStaysOpen(t, o.sched, 0);
    DispatchStaysOpen(t, S.PollFrom(t, o.sched, 0));
  }

  // However often run() goes round, and whatever ranks are waiting to be
  // reclaimed, it is finished exactly when there was nothing to do.
  lemma {:induction false} RunReturnsOnlyWhenEmpty(t: S.Tasks, o: Orch, cycles: nat)
    requires Inv(t, o.sched) && NoneTerminal(o.sched)
    ensures S.AllComplete(PerformAll(t, o, OwnSteps(cycles)).sched) <==> |o.sched.status| == 0
    decreases cycles
  {
    var steps := OwnSteps(cycles);
    if cycles == 0 {
      assert |o.sched.status| > 0 ==> !S.Terminal(o.sched.status[0]);
    } else {
      assert steps[1..] == OwnSteps(cycles - 1);
      OwnStepStaysOpen(t, o);
      RunReturnsOnlyWhenEmpty(t, Perform(t, o, steps[0]), cycles - 1);
    }
  }

  // ----- the object -----

  function WorldRanks(size: nat): seq<int> {
    seq(size, i => i)
  }

  datatype Constructed =
    | BadGraph(verdict: Verdict)
    | BadConfig
    | Ready(orchestrator: GraphOrchestrator)

  class GraphOrchestrator {
    const loop: EventLoop
    var deferred: set<int>

    ghost function State(): Orch
      reads this, loop, loop.pool
    {
      Orch(loop.State(), deferred)
    }

    constructor (loop: EventLoop)
      ensures this.loop == loop && deferred == {}
    {
      this.loop := loop;
      deferred := {};
    }

    // Validation first, then the configuration ranges; a usable orchestrator
    // satisfies the scheduler invariant on an acyclic graph with every task
    // needing one rank.
    static method Construct(n: nat, edges: seq<Edge>, worldSize: nat, maxConcurrency: nat, deadlockTimeoutS: nat)
      returns (r: Constructed)
      ensures r.BadGraph? <==> !AllValid(n, edges) || HasCycle(edges)
      ensures r.BadConfig? ==> !(1 <= maxConcurrency <= 1024 && 1 <= deadlockTimeoutS <= 3600)
      ensures r.Ready? ==>
        && 1 <= maxConcurrency <= 1024 && 1 <= deadlockTimeoutS <= 3600
        && fresh(r.orchestrator) && fresh(r.orchestrator.loop) && fresh(r.orchestrator.loop.pool)
        && r.orchestrator.loop.tasks.maxConcurrency == maxConcurrency
        && r.orchestrator.loop.tasks.required == seq(n, _ => 1)
        && Represents(r.orchestrator.loop.tasks.dependents, n, edges)
        && Acyclic(r.orchestrator.loop.tasks.dependents)
        && Inv(r.orchestrator.loop.tasks, r.orchestrator.loop.State())
        && NoneTerminal(r.orchestrator.loop.State())
        && P.Free(r.orchestrator.loop.pool.State()) == set x | x in WorldRanks(worldSize)
    {
      var verdict := ValidateDag(n, edges);
      if !verdict.Accepted? {
        return BadGraph(verdict);
      }
      var pool := new RankPool(WorldRanks(worldSize));
      var dependents, inDegree := BuildAdjacency(n, edges);
      RepresentsEdges(dependents, n, edges);
      SameCycles(dependents, n, edges);
      var loop := EventLoop.Create(dependents, seq(n, _ => 1), inDegree, pool, maxConcurrency, deadlockTimeoutS);
      if loop.None? {
        return BadConfig;
      }
      FreshKeeps(loop.value.tasks, inDegree, pool.State());
      var o := new GraphOrchestrator(loop.value);
      return Ready(o);
    }

    method ProcessDeferredReclamation()
      requires Inv(loop.tasks, loop.State())
      modifies this, loop.pool
      ensures State() == SettleDeferred(old(State())) && Inv(loop.tasks, loop.State())
    {
      RemovalKeeps(loop.tasks, loop.State(), deferred);
      if deferred == {} {
        RemoveNothing(loop.pool.State());
        return;
      }
      var removed := loop.pool.RemoveAvailable(deferred);
      deferred := deferred - removed;
    }

    method AdvanceStep(input: S.Input) returns (done: bool)
      requires Inv(loop.tasks, loop.State())
      modifies this, loop, loop.pool
      ensures State() == Perform(loop.tasks, old(State()), Advance(input))
      ensures done <==> S.AllComplete(loop.State())
    {
      done := loop.RunCycle(input);
      ProcessDeferredReclamation();
    }

    method YieldRanks(yielded: seq<int>)
      requires Inv(loop.tasks, loop.State())
      modifies loop.pool
      ensures State() == Perform(loop.tasks, old(State()), Yield(yielded))
    {
      loop.pool.AddRanks(yielded);
    }

    method ReclaimRanks(wanted: set<int>)
      requires Inv(loop.tasks, loop.State())
      modifies this, loop.pool
      ensures State() == Perform(loop.tasks, old(State()), Reclaim(wanted))
    {
      var removed := loop.pool.RemoveAvailable(wanted);
      deferred := deferred + (wanted - removed);
    }
  }

  lemma RemoveNothing(p: P.Pool)
    requires P.Valid(p)
    ensures P.RemoveAvailable(p, {}) == p
  {
    P.SkipKept(p.ids, p.bits, {}, |p.ids|, 0);
  }
}
