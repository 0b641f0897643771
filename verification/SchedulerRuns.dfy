// What the scheduler promises over whole runs: any number of cycles, with any
// dispatch refusals and any completion reports.
module SchedulerRuns {
  import opened Collections
  import opened Graphs
  import opened RankPools
  import opened Scheduling
  import opened SchedulerInvariant

  function Run(t: Tasks, s: Sched, inputs: seq<Input>): (r: Sched)
    requires Shape(t, s)
    ensures Shape(t, r)
    decreases |inputs|
  {
    if inputs == [] then s else Run(t, Cycle(t, s, inputs[0]), inputs[1..])
  }

  lemma AdvancesTrans(a: seq<Status>, b: seq<Status>, c: seq<Status>)
    requires Advances(a, b) && Advances(b, c)
    ensures Advances(a, c)
  {
    forall i | 0 <= i < |a| ensures Later(a[i], c[i]) {
      assert Later(a[i], b[i]) && Later(b[i], c[i]);
    }
  }

  // ----- the phases -----

  // Nobody outside the list leaves its status but a pending task that is
  // cancelled.
  ghost predicate Others(before: seq<Status>, after: seq<Status>, moved: seq<nat>) {
    && |before| == |after|
    && forall i: nat :: i < |before| && i !in moved ==>
         after[i] == before[i] || (before[i].Pending? && after[i].Cancelled?)
  }

  lemma DispatchFrontKeeps(t: Tasks, s: Sched, refused: set<nat>)
    requires Inv(t, s) && s.queue != [] && s.inFlight < t.maxConcurrency
    requires TryAllocate(s.pool, t.required[s.queue[0]]).1 != {}
    ensures var s' := DispatchFront(t, s, refused);
      && Inv(t, s') && Advances(s.status, s'.status)
      && s'.pool.total == s.pool.total && s.trace <= s'.trace
      && (forall i :: 0 <= i < |s.status| && s.status[i].Running? ==> s'.status[i].Running?)
      && s'.status[s.queue[0]] == (if s.queue[0] in refused then Failed else Running)
      && Others(s.status, s'.status, [s.queue[0]])
  {
    hide CountsOk, Causal, FlightOk, RanksOk, TraceOk, TryAllocate;
    StartKeeps(t, s);
    if s.queue[0] in refused {
      var (pool, got) := TryAllocate(s.pool, t.required[s.queue[0]]);
      FailKeeps(t, Start(s, pool, got), s.queue[0]);
    }
  }

  // Ready tasks start in queue order; running ones are not disturbed.
  lemma {:induction false} DispatchKeeps(t: Tasks, s: Sched, refused: set<nat>)
    requires Inv(t, s)
    ensures var s' := Dispatch(t, s, refused);
      && Inv(t, s') && Advances(s.status, s'.status)
      && s'.pool.total == s.pool.total && s.trace <= s'.trace
      && (forall i :: 0 <= i < |s.status| && s.status[i].Running? ==> s'.status[i].Running?)
      && (s.queue != [] && s.inFlight < t.maxConcurrency && t.required[s.queue[0]] <= |Free(s.pool)| ==>
            s'.status[s.queue[0]].Running? || s'.status[s.queue[0]].Failed?)
    decreases |s.queue|
  {
    hide CountsOk, Causal, FlightOk, TraceOk;
    if s.queue != [] && s.inFlight < t.maxConcurrency {
      assert s.queue[0] in s.queue;
      if TryAllocate(s.pool, t.required[s.queue[0]]).1 != {} {
        DispatchFrontKeeps(t, s, refused);
        var next := DispatchFront(t, s, refused);
        DispatchKeeps(t, next, refused);
        AdvancesTrans(s.status, next.status, Dispatch(t, next, refused).status);
        assert Later(next.status[s.queue[0]], Dispatch(t, next, refused).status[s.queue[0]]);
      } else {
        AllocateMeaning(s.pool, t.required[s.queue[0]]);
      }
    }
  }

  // What stops the dispatch phase: nothing is ready, the cap is reached, or
  // the front task wants more ranks than are free.
  ghost predicate Stopped(t: Tasks, s: Sched)
    requires Shape(t, s)
  {
    s.queue == [] || s.inFlight >= t.maxConcurrency || |Free(s.pool)| < t.required[s.queue[0]]
  }

  ghost predicate Answered(status: seq<Status>, tried: seq<nat>, refused: set<nat>) {
    forall k :: 0 <= k < |tried| ==>
      tried[k] < |status| && status[tried[k]] == if tried[k] in refused then Failed else Running
  }

  lemma OthersStep(a: seq<Status>, b: seq<Status>, c: seq<Status>, first: nat, rest: seq<nat>)
    requires Others(a, b, [first]) && Others(b, c, rest)
    ensures Others(a, c, [first] + rest)
  {
    forall i: nat | i < |a| && i !in [first] + rest
      ensures c[i] == a[i] || (a[i].Pending? && c[i].Cancelled?)
    {
      assert i !in [first] && i !in rest;
    }
  }

  lemma AnsweredStep(b: seq<Status>, c: seq<Status>, first: nat, rest: seq<nat>, refused: set<nat>)
    requires Others(b, c, rest) && Answered(c, rest, refused) && first !in rest && first < |b|
    requires b[first] == if first in refused then Failed else Running
    ensures Answered(c, [first] + rest, refused)
  {
  }

  lemma RefusedRanks(t: Tasks, s: Sched)
    requires Inv(t, s) && s.queue != []
    ensures s.queue[0] < |t.required|
    ensures TryAllocate(s.pool, t.required[s.queue[0]]).1 == {} <==> |Free(s.pool)| < t.required[s.queue[0]]
  {
    AllocateMeaning(s.pool, t.required[s.queue[0]]);
  }

  lemma FrontIsReady(status: seq<Status>, queue: seq<nat>)
    requires QueueOk(status, queue) && queue != []
    ensures status[queue[0]].Ready? && queue[0] !in queue[1..]
  {
    assert queue[0] in queue;
  }

  // The whole phase: tasks are taken from the front of the queue, in order;
  // those whose callback refuses have failed and the others run; nobody else
  // moves but what a failure cancels; and the phase goes on until it must
  // stop.
  lemma {:induction false} DispatchOutcome(t: Tasks, s: Sched, refused: set<nat>)
    requires Inv(t, s)
    ensures var s' := Dispatch(t, s, refused);
      var k := |s.queue| - |s'.queue|;
      && 0 <= k <= |s.queue| && s'.queue == s.queue[k..]
      && Answered(s'.status, s.queue[..k], refused) && Others(s.status, s'.status, s.queue[..k])
      && Stopped(t, s')
    decreases |s.queue|
  {
    hide CountsOk, Causal, QueueOk, FlightOk, RanksOk, TraceOk, Others, Answered, TryAllocate;
    if s.queue == [] || s.inFlight >= t.maxConcurrency {
      NobodyTried(s.status, refused);
      assert s.queue[..0] == [];
    } else {
      FrontIsReady(s.status, s.queue);
      RefusedRanks(t, s);
      if TryAllocate(s.pool, t.required[s.queue[0]]).1 == {} {
        NobodyTried(s.status, refused);
        assert s.queue[..0] == [];
      } else {
        DispatchFrontKeeps(t, s, refused);
        var next := DispatchFront(t, s, refused);
        DispatchOutcome(t, next, refused);
        var s' := Dispatch(t, next, refused);
        var k := |next.queue| - |s'.queue|;
        assert s.queue[..k + 1] == [s.queue[0]] + next.queue[..k];
        assert s.queue[0] !in next.queue[..k];
        OthersStep(s.status, next.status, s'.status, s.queue[0], next.queue[..k]);
        AnsweredStep(next.status, s'.status, s.queue[0], next.queue[..k], refused);
      }
    }
  }

  lemma NobodyTried(status: seq<Status>, refused: set<nat>)
    ensures Others(status, status, []) && Answered(status, [], refused)
  {
  }

  // So a ready task that the phase leaves failed was refused, and one that it
  // leaves running was not.
  lemma DispatchedByAnswer(t: Tasks, s: Sched, refused: set<nat>, i: nat)
    requires Inv(t, s) && i < |s.status| && s.status[i].Ready?
    ensures var s' := Dispatch(t, s, refused);
      && (s'.status[i].Failed? ==> i in refused)
      && (s'.status[i].Running? ==> i !in refused)
      && (s'.status[i].Failed? || s'.status[i].Running? || s'.status[i].Ready?)
  {
    hide CountsOk, Causal, FlightOk, RanksOk, TraceOk, QueueOk;
    DispatchOutcome(t, s, refused);
    var s' := Dispatch(t, s, refused);
    var tried := s.queue[..|s.queue| - |s'.queue|];
    if i in tried {
      var k :| 0 <= k < |tried| && tried[k] == i;
    }
  }

  function FirstReport(reports: seq<(nat, bool)>, id: nat): Option<bool>
    decreases |reports|
  {
    if reports == [] then None
    else if reports[0].0 == id then Some(reports[0].1)
    else FirstReport(reports[1..], id)
  }

  // A running task ends the phase as its first report says, and keeps running
  // without one; nobody else is completed or failed.
  lemma {:induction false} CompleteKeeps(t: Tasks, s: Sched, reports: seq<(nat, bool)>)
    requires Inv(t, s)
    ensures var s' := Complete(t, s, reports);
      && Inv(t, s') && Advances(s.status, s'.status)
      && s'.pool.total == s.pool.total && s.trace <= s'.trace
      && (forall i :: 0 <= i < |s.status| && s.status[i].Running? ==>
            s'.status[i] == match FirstReport(reports, i)
                            case None => Running
                            case Some(success) => if success then Completed else Failed)
      && (forall i :: 0 <= i < |s.status| && !s.status[i].Running? ==>
            s'.status[i] == s.status[i] || (s.status[i].Pending? && s'.status[i].Cancelled?))
    decreases |reports|
  {
    hide CountsOk, Causal, QueueOk, FlightOk, RanksOk, TraceOk, Fail;
    if reports != [] {
      var (id, success) := reports[0];
      if id < |s.status| && s.status[id].Running? {
        if success {
          FinishKeeps(t, s, id);
        } else {
          FailKeeps(t, s, id);
        }
        var next := if success then Finish(t, s, id) else Fail(t, s, id);
        assert Advances(s.status, next.status);
        CompleteKeeps(t, next, reports[1..]);
        AdvancesTrans(s.status, next.status, Complete(t, next, reports[1..]).status);
      } else {
        CompleteKeeps(t, s, reports[1..]);
      }
    }
  }

  lemma CycleKeeps(t: Tasks, s: Sched, input: Input)
    requires Inv(t, s)
    ensures var s' := Cycle(t, s, input);
      && Inv(t, s') && Advances(s.status, s'.status)
      && s'.pool.total == s.pool.total && s.trace <= s'.trace
  {
    hide CountsOk, Causal, QueueOk, FlightOk, RanksOk, TraceOk, Advances;
    PollKeeps(t, s, 0);
    var polled := PollFrom(t, s, 0);
    DispatchKeeps(t, polled, input.refused);
    var dispatched := Dispatch(t, polled, input.refused);
    CompleteKeeps(t, dispatched, input.reports);
    AdvancesTrans(s.status, polled.status, dispatched.status);
    AdvancesTrans(s.status, dispatched.status, Cycle(t, s, input).status);
  }

  lemma {:induction false} RunKeeps(t: Tasks, s: Sched, inputs: seq<Input>)
    requires Inv(t, s)
    ensures var s' := Run(t, s, inputs);
      && Inv(t, s') && Advances(s.status, s'.status)
      && s'.pool.total == s.pool.total && s.trace <= s'.trace
    decreases |inputs|
  {
    hide CountsOk, Causal, QueueOk, FlightOk, RanksOk, TraceOk, Cycle;
    if inputs != [] {
      CycleKeeps(t, s, inputs[0]);
      RunKeeps(t, Cycle(t, s, inputs[0]), inputs[1..]);
      AdvancesTrans(s.status, Cycle(t, s, inputs[0]).status, Run(t, s, inputs).status);
    }
  }

  // A freshly populated loop: every task pending and counting its in-edges.
  function Fresh(t: Tasks, pendingDeps: seq<nat>, pool: Pool): Sched {
    var n := |t.dependents|;
    Sched(seq(n, _ => Pending), pendingDeps, [], 0, seq(n, _ => {}), pool, [])
  }

  lemma FreshKeeps(t: Tasks, pendingDeps: seq<nat>, pool: Pool)
    requires InRange(t.dependents) && |t.required| == |t.dependents| == |pendingDeps|
    requires forall i :: 0 <= i < |t.required| ==> t.required[i] > 0
    requires forall d :: 0 <= d < |pendingDeps| ==> pendingDeps[d] == Incoming(t.dependents, {}, d, |t.dependents|)
    requires Valid(pool) && Held(pool) == {}
    ensures Inv(t, Fresh(t, pendingDeps, pool))
  {
    var s := Fresh(t, pendingDeps, pool);
    assert Done(s.status) == {} && RunningSet(s.status) == {};
    assert forall r :: !InUse(s.ranks, r);
  }

  // ----- declarative outcome -----

  ghost predicate HasFailedAncestor(g: Graph, status: seq<Status>, d: nat) {
    exists a: nat :: a < |status| && status[a].Failed? && Ancestor(g, a, d)
  }

  lemma {:induction false} FailureReaches(t: Tasks, s: Sched, path: seq<nat>, a: nat, d: nat)
    requires Inv(t, s) && a < |s.status| && s.status[a].Failed?
    requires Connects(t.dependents, path, a, d)
    ensures d < |s.status| && s.status[d].Cancelled?
    decreases |path|
  {
    var g, n := t.dependents, |path| - 1;
    assert HasEdge(g, path[n - 1], path[n]);
    if n > 1 {
      assert Connects(g, path[..n], a, path[n - 1]);
      FailureReaches(t, s, path[..n], a, path[n - 1]);
    }
  }

  ghost predicate Unexplained(g: Graph, status: seq<Status>, v: nat) {
    v < |status| && status[v].Cancelled? && !HasFailedAncestor(g, status, v)
  }

  // Blame is passed up until it meets a failure.
  lemma UnexplainedProducer(g: Graph, status: seq<Status>, v: nat)
    requires Causal(g, status, []) && Unexplained(g, status, v)
    ensures exists p: nat :: HasEdge(g, p, v) && Unexplained(g, status, p)
  {
    assert Blamed(g, status, v);
    var p: nat :| HasEdge(g, p, v) && p < |status| && Bad(status[p]);
    EdgeIsAncestor(g, p, v);
    if HasFailedAncestor(g, status, p) {
      var a: nat :| a < |status| && status[a].Failed? && Ancestor(g, a, p);
      AncestorStep(g, a, p, v);
    }
    assert Unexplained(g, status, p);
  }

  lemma NoneUnexplained(g: Graph, status: seq<Status>, d: nat)
    requires Causal(g, status, []) && Acyclic(g)
    ensures !Unexplained(g, status, d)
  {
    hide Acyclic, HasFailedAncestor, HasEdge;
    var unexplained := set v | v in Below(|g|) && Unexplained(g, status, v);
    forall v | v in unexplained ensures HasProducerIn(g, unexplained, v) {
      UnexplainedProducer(g, status, v);
      var p: nat :| HasEdge(g, p, v) && Unexplained(g, status, p);
      assert p in unexplained;
    }
    NoCycles(g, unexplained);
    assert Unexplained(g, status, d) ==> d in unexplained;
  }

  lemma NoCycles(g: Graph, tasks: set<nat>)
    requires Acyclic(g) && (forall v :: v in tasks ==> v < |g|)
    requires forall v :: v in tasks ==> HasProducerIn(g, tasks, v)
    ensures tasks == {}
  {
    if tasks != {} {
      var v := BackwardClosedHasCycle(g, tasks);
      assert false;
    }
  }

  // In every reachable state a task is cancelled exactly when a task above it
  // has failed.
  lemma CancelledIffFailedAncestor(t: Tasks, s: Sched, d: nat)
    requires Inv(t, s) && Acyclic(t.dependents) && d < |s.status|
    ensures s.status[d].Cancelled? <==> HasFailedAncestor(t.dependents, s.status, d)
  {
    hide CountsOk, Causal, QueueOk, FlightOk, RanksOk, TraceOk, Acyclic, Ancestor;
    var g := t.dependents;
    if HasFailedAncestor(g, s.status, d) {
      var a: nat :| a < |s.status| && s.status[a].Failed? && Ancestor(g, a, d);
      FailureReachesBelow(t, s, a, d);
    } else {
      NoneUnexplained(g, s.status, d);
    }
  }

  lemma FailureReachesBelow(t: Tasks, s: Sched, a: nat, d: nat)
    requires Inv(t, s) && a < |s.status| && s.status[a].Failed? && Ancestor(t.dependents, a, d)
    ensures d < |s.status| && s.status[d].Cancelled?
  {
    hide Inv;
    var path :| Connects(t.dependents, path, a, d);
    FailureReaches(t, s, path, a, d);
  }

  // The failure cascade meets only tasks that never left pending: nothing
  // below a running task is ready, running, completed or failed.
  lemma {:induction false} BelowRunningIsWaiting(t: Tasks, s: Sched, path: seq<nat>, a: nat, d: nat)
    requires Inv(t, s) && a < |s.status| && !s.status[a].Completed?
    requires Connects(t.dependents, path, a, d)
    ensures d < |s.status| && (s.status[d].Pending? || s.status[d].Cancelled?)
    decreases |path|
  {
    var g, n := t.dependents, |path| - 1;
    assert HasEdge(g, path[n - 1], path[n]);
    if n > 1 {
      assert Connects(g, path[..n], a, path[n - 1]);
      BelowRunningIsWaiting(t, s, path[..n], a, path[n - 1]);
    }
  }

  // ----- dependency safety -----

  lemma {:induction false} PathOrdered(t: Tasks, s: Sched, k: nat, path: seq<nat>, a: nat, d: nat)
    requires Inv(t, s) && k < |s.trace| && s.trace[k] == Dispatched(d)
    requires Connects(t.dependents, path, a, d)
    ensures Finished(a) in s.trace[..k]
    decreases |path|
  {
    var g, n := t.dependents, |path| - 1;
    var p := path[n - 1];
    assert HasEdge(g, p, path[n]);
    assert OrderedAt(g, s.trace, k);
    if n > 1 {
      var j: nat :| j < k && s.trace[..k][j] == Finished(p);
      assert OrderedAt(g, s.trace, j);
      var i: nat :| i < j && s.trace[..j][i] == Dispatched(p);
      assert Connects(g, path[..n], a, p);
      PathOrdered(t, s, i, path[..n], a, p);
      assert Finished(a) in s.trace[..i] && s.trace[..k][..i] == s.trace[..i];
    }
  }

  // A task is dispatched at most once, and only after everything above it has
  // reported success.
  lemma DispatchOrder(t: Tasks, s: Sched, k: nat, d: nat)
    requires Inv(t, s) && k < |s.trace| && s.trace[k] == Dispatched(d)
    ensures forall a :: Ancestor(t.dependents, a, d) ==> Finished(a) in s.trace[..k]
    ensures forall j :: 0 <= j < |s.trace| && s.trace[j] == Dispatched(d) ==> j == k
  {
    forall a | Ancestor(t.dependents, a, d) ensures Finished(a) in s.trace[..k] {
      var path :| Connects(t.dependents, path, a, d);
      PathOrdered(t, s, k, path, a, d);
    }
    forall j: nat | j < |s.trace| && s.trace[j] == Dispatched(d) ensures j == k {
      assert OrderedAt(t.dependents, s.trace, j) && OrderedAt(t.dependents, s.trace, k);
    }
  }

  // ----- progress -----

  ghost predicate Affordable(t: Tasks, total: nat) {
    && t.maxConcurrency >= 1
    && forall i :: 0 <= i < |t.required| ==> t.required[i] <= total
  }

  lemma {:induction false} NothingHeld(t: Tasks, s: Sched)
    requires Inv(t, s) && RunningSet(s.status) == {}
    ensures Held(s.pool) == {} && |Free(s.pool)| == s.pool.total
  {
    forall i | 0 <= i < |s.ranks| ensures s.ranks[i] == {} {
      assert i in RunningSet(s.status) <==> s.status[i].Running?;
    }
    assert forall r :: r in Held(s.pool) <==> InUse(s.ranks, r);
    assert Held(s.pool) == {};
    Sizes(s.pool);
  }

  // Nothing ready and nothing running: every pending task waits for another.
  lemma WaitsForPending(g: Graph, status: seq<Status>, pendingDeps: seq<nat>, v: nat)
    requires InRange(g) && CountsOk(g, status, pendingDeps) && Causal(g, status, [])
    requires v < |g| && status[v].Pending? && pendingDeps[v] > 0
    requires forall u :: 0 <= u < |g| ==> !status[u].Ready? && !status[u].Running?
    ensures exists p: nat :: HasEdge(g, p, v) && p < |g| && status[p].Pending?
  {
    IncomingZero(g, Done(status), v, |g|);
    var p: nat :| p < |g| && HasEdge(g, p, v) && p !in Done(status);
    assert !Bad(status[p]);
  }

  lemma NonePending(g: Graph, status: seq<Status>, pendingDeps: seq<nat>, d: nat)
    requires InRange(g) && CountsOk(g, status, pendingDeps) && Causal(g, status, []) && Acyclic(g)
    requires forall v :: 0 <= v < |g| && status[v].Pending? ==> pendingDeps[v] > 0
    requires forall u :: 0 <= u < |g| ==> !status[u].Ready? && !status[u].Running?
    requires d < |g|
    ensures Terminal(status[d])
  {
    hide Causal, Acyclic, HasEdge, InRange;
    var waiting := set v | v in Below(|g|) && status[v].Pending?;
    forall v | v in waiting ensures HasProducerIn(g, waiting, v) {
      WaitsForPending(g, status, pendingDeps, v);
      var p: nat :| HasEdge(g, p, v) && p < |g| && status[p].Pending?;
      assert p in waiting;
    }
    NoCycles(g, waiting);
    assert d !in waiting;
  }

  lemma NothingOpen(status: seq<Status>, queue: seq<nat>)
    requires QueueOk(status, queue) && RunningSet(status) == {}
    ensures queue == [] ==> forall u :: 0 <= u < |status| ==> !status[u].Ready? && !status[u].Running?
  {
    forall u | 0 <= u < |status| ensures !status[u].Running? && (queue == [] ==> !status[u].Ready?) {
      assert u !in RunningSet(status) && (u in queue <==> status[u].Ready?);
    }
  }

  lemma SomeReady(g: Graph, status: seq<Status>, pendingDeps: seq<nat>, queue: seq<nat>, d: nat)
    requires InRange(g) && CountsOk(g, status, pendingDeps) && Causal(g, status, []) && Acyclic(g)
    requires forall v :: 0 <= v < |g| && status[v].Pending? ==> pendingDeps[v] > 0
    requires QueueOk(status, queue) && RunningSet(status) == {} && d < |g| && !Terminal(status[d])
    ensures queue != []
  {
    hide Causal, Acyclic, InRange, QueueOk;
    NothingOpen(status, queue);
    if queue == [] {
      NonePending(g, status, pendingDeps, d);
      assert false;
    }
  }

  // With work left and nothing running, polling always finds a ready task:
  // otherwise every pending task would wait for another pending task.
  lemma PollFindsWork(t: Tasks, s: Sched)
    requires Inv(t, s) && Acyclic(t.dependents) && !AllComplete(s) && RunningSet(s.status) == {}
    ensures PollFrom(t, s, 0).queue != []
  {
    hide CountsOk, Causal, QueueOk, FlightOk, RanksOk, TraceOk, Acyclic;
    PollKeeps(t, s, 0);
    var i :| 0 <= i < |s.status| && !Terminal(s.status[i]);
    TerminalOnlyFromPoll(t, s, 0, i);
    var s' := PollFrom(t, s, 0);
    SomeReady(t.dependents, s'.status, s'.pendingDeps, s'.queue, i);
  }

  lemma {:induction false} TerminalOnlyFromPoll(t: Tasks, s: Sched, from: nat, i: nat)
    requires Shape(t, s) && from <= |s.status| && i < |s.status| && !Terminal(s.status[i])
    ensures !Terminal(PollFrom(t, s, from).status[i])
    decreases |s.status| - from
  {
    if from < |s.status| {
      if s.status[from].Pending? && s.pendingDeps[from] == 0 {
        TerminalOnlyFromPoll(t, MarkReady(s, from), from + 1, i);
      } else {
        TerminalOnlyFromPoll(t, s, from + 1, i);
      }
    }
  }

  // A cycle that starts with work left and nothing running hands at least one
  // task to its ranks.
  lemma CycleDispatches(t: Tasks, s: Sched, input: Input)
    requires Inv(t, s) && Acyclic(t.dependents) && !AllComplete(s)
    requires s.inFlight == 0 && Affordable(t, s.pool.total)
    ensures exists i: nat :: i < |s.status| && !Terminal(s.status[i])
              && (Dispatch(t, PollFrom(t, s, 0), input.refused).status[i].Running?
                  || Dispatch(t, PollFrom(t, s, 0), input.refused).status[i].Failed?)
  {
    hide CountsOk, Causal, RanksOk, TraceOk, Acyclic;
    PollKeeps(t, s, 0);
    PollFindsWork(t, s);
    var polled := PollFrom(t, s, 0);
    NothingHeld(t, polled);
    DispatchKeeps(t, polled, input.refused);
    var id := polled.queue[0];
    assert id in polled.queue && polled.status[id].Ready?;
    assert Later(s.status[id], polled.status[id]);
  }

  // The environment reports at least one of the tasks running after dispatch.
  ghost predicate Responsive(t: Tasks, s: Sched, input: Input)
    requires Shape(t, s)
  {
    var dispatched := Dispatch(t, PollFrom(t, s, 0), input.refused);
    dispatched.inFlight > 0 ==>
      exists r :: r in input.reports && r.0 < |dispatched.status| && dispatched.status[r.0].Running?
  }

  ghost predicate AllResponsive(t: Tasks, s: Sched, inputs: seq<Input>)
    requires Shape(t, s)
    decreases |inputs|
  {
    inputs == [] || (Responsive(t, s, inputs[0]) && AllResponsive(t, Cycle(t, s, inputs[0]), inputs[1..]))
  }

  lemma {:induction false} ReportedOnce(reports: seq<(nat, bool)>, r: (nat, bool))
    requires r in reports
    ensures FirstReport(reports, r.0).Some?
    decreases |reports|
  {
    if reports[0].0 != r.0 {
      ReportedOnce(reports[1..], r);
    }
  }

  // What a cycle does to statuses, without the rest of the invariant.
  lemma CyclePhases(t: Tasks, s: Sched, input: Input)
    requires Inv(t, s)
    ensures var dispatched := Dispatch(t, PollFrom(t, s, 0), input.refused);
      && Advances(s.status, dispatched.status)
      && RunningSet(s.status) <= RunningSet(dispatched.status)
      && s.inFlight == |RunningSet(s.status)| && dispatched.inFlight == |RunningSet(dispatched.status)|
      && (forall i :: 0 <= i < |s.status| && dispatched.status[i].Running? && FirstReport(input.reports, i).Some? ==>
            Terminal(Cycle(t, s, input).status[i]))
      && (forall i :: 0 <= i < |s.status| && dispatched.status[i].Failed? ==> Cycle(t, s, input).status[i].Failed?)
  {
    hide CountsOk, Causal, QueueOk, RanksOk, TraceOk, Later;
    PollKeeps(t, s, 0);
    var polled := PollFrom(t, s, 0);
    DispatchKeeps(t, polled, input.refused);
    var dispatched := Dispatch(t, polled, input.refused);
    CompleteKeeps(t, dispatched, input.reports);
    AdvancesTrans(s.status, polled.status, dispatched.status);
  }

  lemma CycleRetires(t: Tasks, s: Sched, input: Input) returns (done: nat)
    requires Inv(t, s) && Acyclic(t.dependents) && !AllComplete(s)
    requires Affordable(t, s.pool.total) && Responsive(t, s, input)
    ensures done < |s.status| && !Terminal(s.status[done]) && Terminal(Cycle(t, s, input).status[done])
  {
    hide CountsOk, Causal, QueueOk, RanksOk, TraceOk, FlightOk, Acyclic;
    CyclePhases(t, s, input);
    var dispatched := Dispatch(t, PollFrom(t, s, 0), input.refused);
    if dispatched.inFlight > 0 {
      var r :| r in input.reports && r.0 < |dispatched.status| && dispatched.status[r.0].Running?;
      ReportedOnce(input.reports, r);
      done := r.0;
    } else {
      CycleDispatches(t, s, input);
      done :| done < |s.status| && !Terminal(s.status[done])
           && (dispatched.status[done].Running? || dispatched.status[done].Failed?);
      assert dispatched.status[done].Running? ==> done in RunningSet(dispatched.status);
    }
    assert Later(s.status[done], dispatched.status[done]);
  }

  lemma CycleShrinks(t: Tasks, s: Sched, input: Input)
    requires Inv(t, s) && Acyclic(t.dependents) && !AllComplete(s)
    requires Affordable(t, s.pool.total) && Responsive(t, s, input)
    ensures Live(Cycle(t, s, input).status) < Live(s.status)
  {
    hide CountsOk, Causal, QueueOk, RanksOk, TraceOk, FlightOk, Acyclic;
    CycleKeeps(t, s, input);
    var s' := Cycle(t, s, input);
    forall i: nat | i in Live(s'.status) ensures i in Live(s.status) {
      assert Later(s.status[i], s'.status[i]);
    }
    var done := CycleRetires(t, s, input);
    assert done in Live(s.status) && done !in Live(s'.status);
  }

  // On an acyclic graph whose demands fit the pool, and with an environment
  // that reports at least one running task per cycle, as many cycles as there
  // are unfinished tasks complete everything.
  lemma {:induction false} RunTerminates(t: Tasks, s: Sched, inputs: seq<Input>)
    requires Inv(t, s) && Acyclic(t.dependents) && Affordable(t, s.pool.total)
    requires AllResponsive(t, s, inputs) && |inputs| >= |Live(s.status)|
    ensures AllComplete(Run(t, s, inputs))
    decreases |inputs|
  {
    hide CountsOk, Causal, QueueOk, RanksOk, TraceOk, FlightOk, Acyclic, Cycle;
    if AllComplete(s) {
      RunKeeps(t, s, inputs);
      var s' := Run(t, s, inputs);
      forall i | 0 <= i < |s'.status| ensures Terminal(s'.status[i]) {
        assert Later(s.status[i], s'.status[i]);
      }
    } else {
      var i :| 0 <= i < |s.status| && !Terminal(s.status[i]);
      assert i in Live(s.status);
      CycleShrinks(t, s, inputs[0]);
      CycleKeeps(t, s, inputs[0]);
      var s' := Cycle(t, s, inputs[0]);
      ProperSubsetSize(Live(s'.status), Live(s.status));
      RunTerminates(t, s', inputs[1..]);
    }
  }

  // When everything is complete the pool is whole again, nothing is in flight,
  // and every task either ran once or sits below a failure.
  lemma FinalState(t: Tasks, s: Sched)
    requires Inv(t, s) && Acyclic(t.dependents) && AllComplete(s)
    ensures s.inFlight == 0 && s.queue == [] && Held(s.pool) == {}
    ensures forall d: nat :: d < |s.status| ==>
      (Dispatched(d) in s.trace <==> !HasFailedAncestor(t.dependents, s.status, d))
  {
    hide CountsOk, RanksOk, Acyclic;
    assert RunningSet(s.status) == {};
    NothingHeld(t, s);
    if s.queue != [] {
      FrontIsReady(s.status, s.queue);
    }
    forall d: nat | d < |s.status|
      ensures Dispatched(d) in s.trace <==> !HasFailedAncestor(t.dependents, s.status, d)
    {
      CancelledIffFailedAncestor(t, s, d);
    }
  }
}
