// The DAGR event loop as the object its three phases mutate. Every method is
// tied to the function of the same phase; what those functions guarantee over
// whole runs is proved in SchedulerRuns.
module EventLoops {
  import opened Collections
  import opened Graphs
  import opened RankPools
  import opened RankPoolObjects
  import opened Scheduling
  import opened SchedulerInvariant
  import opened SchedulerRuns

  class EventLoop {
    const tasks: Tasks
    const pool: RankPool
    var status: seq<Status>
    var pendingDeps: seq<nat>
    var readyQueue: seq<nat>
    var inFlight: nat
    var heldRanks: seq<set<int>>
    ghost var trace: seq<Event>

    ghost function State(): Sched
      reads this, pool
    {
      Sched(status, pendingDeps, readyQueue, inFlight, heldRanks, pool.State(), trace)
    }

    ghost predicate Ok()
      reads this, pool
    {
      Shape(tasks, State()) && Valid(pool.State())
    }

    constructor (tasks: Tasks, pendingDeps: seq<nat>, pool: RankPool)
      ensures this.tasks == tasks && this.pool == pool && pool.State() == old(pool.State())
      ensures State() == Fresh(tasks, pendingDeps, pool.State())
    {
      this.tasks, this.pool, this.pendingDeps := tasks, pool, pendingDeps;
      status := seq(|tasks.dependents|, _ => Pending);
      heldRanks := seq(|tasks.dependents|, _ => {});
      readyQueue, inFlight, trace := [], 0, [];
    }

    // Construction with the configuration checks; None is the exception.
    static method Create(dependents: Graph, required: seq<nat>, pendingDeps: seq<nat>, pool: RankPool,
                         maxConcurrency: nat, deadlockTimeoutS: nat)
      returns (r: Option<EventLoop>)
      ensures r.Some? <==> 1 <= maxConcurrency <= 1024 && 1 <= deadlockTimeoutS <= 3600
      ensures r.Some? ==>
        && fresh(r.value) && r.value.pool == pool && r.value.tasks == Tasks(dependents, required, maxConcurrency)
        && r.value.State() == Fresh(r.value.tasks, pendingDeps, pool.State())
      ensures pool.State() == old(pool.State())
    {
      if maxConcurrency < 1 || maxConcurrency > 1024 {
        return None;
      }
      if deadlockTimeoutS < 1 || deadlockTimeoutS > 3600 {
        return None;
      }
      var loop := new EventLoop(Tasks(dependents, required, maxConcurrency), pendingDeps, pool);
      return Some(loop);
    }

    method PollReadyNodes()
      requires Ok()
      modifies this
      ensures Ok() && State() == PollFrom(tasks, old(State()), 0)
    {
      for i := 0 to |status|
        invariant Ok() && |status| == |old(status)|
        invariant PollFrom(tasks, State(), i) == PollFrom(tasks, old(State()), 0)
      {
        if status[i].Pending? && pendingDeps[i] == 0 {
          status := status[i := Ready];
          readyQueue := readyQueue + [i];
        }
      }
    }

    method ReleaseRanksOf(id: nat)
      requires Ok() && id < |status|
      modifies this, pool
      ensures Ok() && State() == ReleaseRanks(old(State()), id)
    {
      if heldRanks[id] != {} {
        pool.Release(heldRanks[id]);
        heldRanks := heldRanks[id := {}];
      }
    }

    // Breadth-first cancellation of everything below a failed task.
    method PropagateFailure(id: nat)
      requires Ok() && id < |status|
      modifies this, pool
      ensures Ok() && State() == Fail(tasks, old(State()), id)
    {
      ghost var before := State();
      status := status[id := Failed];
      ReleaseRanksOf(id);
      if inFlight > 0 {
        inFlight := inFlight - 1;
      }
      var work := tasks.dependents[id];
      while work != []
        invariant |status| == |tasks.dependents| && Valid(pool.State())
        invariant State() == Fail(tasks, before, id).(status := status)
        invariant CancelFrom(tasks.dependents, status, work) == Fail(tasks, before, id).status
        decreases Live(status), |work|
      {
        var current := work[0];
        work := work[1..];
        if current >= |status| {
          continue;
        }
        if Terminal(status[current]) {
          continue;
        }
        if status[current].Running? {
          continue;
        }
        ghost var live := Live(status);
        status := status[current := Cancelled];
        assert Live(status) == live - {current} && current in live;
        work := work + tasks.dependents[current];
      }
    }

    method DispatchReadyNodes(refused: set<nat>)
      requires Ok()
      modifies this, pool
      ensures Ok() && State() == Dispatch(tasks, old(State()), refused)
    {
      while readyQueue != []
        invariant Ok() && Dispatch(tasks, State(), refused) == Dispatch(tasks, old(State()), refused)
        decreases |readyQueue|
      {
        if inFlight >= tasks.maxConcurrency {
          break;
        }
        var id := readyQueue[0];
        if !status[id].Ready? {
          readyQueue := readyQueue[1..];
          continue;
        }
        ghost var before := State();
        var ranks := pool.TryAllocate(tasks.required[id]);
        if ranks.value == {} {
          EmptyKeeps(before.pool, tasks.required[id]);
          break;
        }
        readyQueue := readyQueue[1..];
        heldRanks := heldRanks[id := ranks.value];
        status := status[id := Running];
        inFlight := inFlight + 1;
        trace := trace + [Dispatched(id)];
        assert State() == Start(before, pool.State(), ranks.value);
        if id in refused {
          PropagateFailure(id);
        }
        assert State() == DispatchFront(tasks, before, refused);
      }
    }

    method ProcessCompletions(reports: seq<(nat, bool)>)
      requires Ok()
      modifies this, pool
      ensures Ok() && State() == Complete(tasks, old(State()), reports)
    {
      for k := 0 to |reports|
        invariant Ok() && Complete(tasks, State(), reports[k..]) == Complete(tasks, old(State()), reports)
      {
        assert reports[k..][1..] == reports[k + 1..];
        var (id, success) := reports[k];
        if id >= |status| {
          continue;
        }
        if !status[id].Running? {
          continue;
        }
        if success {
          CompleteTask(id);
        } else {
          PropagateFailure(id);
        }
      }
    }

    method CompleteTask(id: nat)
      requires Ok() && id < |status|
      modifies this, pool
      ensures Ok() && State() == Finish(tasks, old(State()), id)
    {
      status := status[id := Completed];
      ReleaseRanksOf(id);
      inFlight := Decrement(inFlight);
      trace := trace + [Finished(id)];
      var deps := tasks.dependents[id];
      ghost var counts := pendingDeps;
      for k := 0 to |deps|
        invariant State() == Finish(tasks, old(State()), id).(pendingDeps := pendingDeps)
        invariant DecrementAll(pendingDeps, deps[k..]) == DecrementAll(counts, deps)
        invariant |pendingDeps| == |counts|
      {
        assert deps[k..][1..] == deps[k + 1..];
        if deps[k] < |status| {
          pendingDeps := pendingDeps[deps[k] := Decrement(pendingDeps[deps[k]])];
        }
      }
    }

    method AllDone() returns (done: bool)
      ensures done <==> AllComplete(State())
    {
      for i := 0 to |status|
        invariant forall k :: 0 <= k < i ==> Terminal(status[k])
      {
        if !Terminal(status[i]) {
          return false;
        }
      }
      return true;
    }

    // One full cycle keeps the invariant and reports whether work remains.
    method RunCycle(input: Input) returns (done: bool)
      requires Inv(tasks, State())
      modifies this, pool
      ensures Inv(tasks, State()) && State() == Cycle(tasks, old(State()), input)
      ensures done <==> AllComplete(State())
    {
      CycleKeeps(tasks, State(), input);
      PollReadyNodes();
      DispatchReadyNodes(input.refused);
      ProcessCompletions(input.reports);
      done := AllDone();
    }
  }

  lemma EmptyKeeps(p: Pool, count: nat)
    requires Valid(p) && count > 0 && TryAllocate(p, count).1 == {}
    ensures TryAllocate(p, count).0 == p
  {
    AllocateMeaning(p, count);
  }
}
