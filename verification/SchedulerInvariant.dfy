// The inductive invariant of the event loop, one predicate per part of the
// state, and its preservation by every step.
module SchedulerInvariant {
  import opened Collections
  import opened Graphs
  import opened RankPools
  import opened Scheduling

  predicate Started(s: Status) {
    s.Ready? || s.Running? || s.Completed? || s.Failed?
  }

  predicate Bad(s: Status) {
    s.Failed? || s.Cancelled?
  }

  ghost function Done(status: seq<Status>): set<nat> {
    set i: nat | 0 <= i < |status| && status[i].Completed?
  }

  ghost function RunningSet(status: seq<Status>): set<nat> {
    set i: nat | 0 <= i < |status| && status[i].Running?
  }

  // pendingDeps counts the edges, with multiplicity, from producers that have
  // not completed.
  ghost predicate CountsOk(g: Graph, status: seq<Status>, pendingDeps: seq<nat>) {
    && |status| == |pendingDeps| == |g|
    && forall d :: 0 <= d < |g| ==> pendingDeps[d] == Incoming(g, Done(status), d, |g|)
  }

  // Only tasks with completed producers get past pending; failure and
  // cancellation have reached every consumer, except those on the work list.
  ghost predicate Causal(g: Graph, status: seq<Status>, work: seq<nat>) {
    && |status| == |g|
    && (forall p: nat, d: nat :: HasEdge(g, p, d) && d < |g| && Started(status[d]) ==> status[p].Completed?)
    && (forall p: nat, d: nat :: HasEdge(g, p, d) && d < |g| && Bad(status[p]) ==> status[d].Cancelled? || d in work)
    && (forall d: nat :: d < |g| && status[d].Cancelled? ==> Blamed(g, status, d))
    && (forall d: nat :: d in work ==> d < |g| && Blamed(g, status, d))
  }

  ghost predicate Blamed(g: Graph, status: seq<Status>, d: nat) {
    exists p: nat :: HasEdge(g, p, d) && p < |status| && Bad(status[p])
  }

  ghost predicate QueueOk(status: seq<Status>, queue: seq<nat>) {
    && Distinct(queue)
    && (forall k :: 0 <= k < |queue| ==> queue[k] < |status|)
    && (forall v :: 0 <= v < |status| ==> (v in queue <==> status[v].Ready?))
  }

  ghost predicate FlightOk(t: Tasks, status: seq<Status>, inFlight: nat) {
    inFlight == |RunningSet(status)| && inFlight <= t.maxConcurrency
  }

  ghost predicate InUse(ranks: seq<set<int>>, r: int) {
    exists i :: 0 <= i < |ranks| && r in ranks[i]
  }

  // Each running task holds exactly the ranks it asked for, nobody else holds
  // any, no rank is held twice, and the pool's held ranks are those in use.
  ghost predicate RanksOk(t: Tasks, status: seq<Status>, ranks: seq<set<int>>, pool: Pool) {
    && |ranks| == |status| == |t.required|
    && Valid(pool)
    && (forall i :: 0 <= i < |ranks| ==> |ranks[i]| == if status[i].Running? then t.required[i] else 0)
    && (forall i, j :: 0 <= i < j < |ranks| ==> ranks[i] !! ranks[j])
    && (forall r :: r in Held(pool) <==> InUse(ranks, r))
  }

  ghost predicate OrderedAt(g: Graph, trace: seq<Event>, k: nat)
    requires k < |trace|
  {
    && trace[k] !in trace[..k]
    && match trace[k]
       case Dispatched(d) => forall p {:trigger HasEdge(g, p, d)} :: HasEdge(g, p, d) ==> Finished(p) in trace[..k]
       case Finished(d) => Dispatched(d) in trace[..k]
  }

  ghost predicate TraceOk(g: Graph, status: seq<Status>, trace: seq<Event>) {
    && (forall k: nat {:trigger OrderedAt(g, trace, k)} :: k < |trace| ==> OrderedAt(g, trace, k))
    && (forall i: nat :: Dispatched(i) in trace
         <==> i < |status| && (status[i].Running? || status[i].Completed? || status[i].Failed?))
    && (forall i: nat :: Finished(i) in trace <==> i < |status| && status[i].Completed?)
  }

  ghost predicate Inv(t: Tasks, s: Sched) {
    && Shape(t, s) && InRange(t.dependents)
    && CountsOk(t.dependents, s.status, s.pendingDeps)
    && Causal(t.dependents, s.status, [])
    && QueueOk(s.status, s.queue)
    && FlightOk(t, s.status, s.inFlight)
    && RanksOk(t, s.status, s.ranks, s.pool)
    && TraceOk(t.dependents, s.status, s.trace)
  }

  // A status never moves backwards, and terminal statuses never move.
  predicate Later(a: Status, b: Status) {
    || a == b
    || a.Pending?
    || (a.Ready? && !b.Pending?)
    || (a.Running? && (b.Completed? || b.Failed?))
  }

  ghost predicate Advances(before: seq<Status>, after: seq<Status>) {
    |before| == |after| && forall i :: 0 <= i < |before| ==> Later(before[i], after[i])
  }

  // ----- poll -----

  // What blames a task goes on blaming it while statuses only turn worse.
  lemma StillBlamed(g: Graph, status: seq<Status>, after: seq<Status>, d: nat)
    requires Blamed(g, status, d) && |after| == |status|
    requires forall p :: 0 <= p < |status| && Bad(status[p]) ==> Bad(after[p])
    ensures Blamed(g, after, d)
  {
    var p: nat :| HasEdge(g, p, d) && p < |status| && Bad(status[p]);
    assert Bad(after[p]);
  }

  lemma AllStillBlamed(g: Graph, status: seq<Status>, after: seq<Status>)
    requires |after| == |status| == |g|
    requires forall p :: 0 <= p < |status| && Bad(status[p]) ==> Bad(after[p])
    ensures forall d: nat :: d < |g| && Blamed(g, status, d) ==> Blamed(g, after, d)
  {
    forall d: nat | d < |g| && Blamed(g, status, d) ensures Blamed(g, after, d) {
      StillBlamed(g, status, after, d);
    }
  }

  // A task moves on, with all its producers completed.
  lemma MovesOn(g: Graph, status: seq<Status>, i: nat, to: Status)
    requires InRange(g) && Causal(g, status, []) && i < |g| && !Bad(status[i]) && !Bad(to) && !Terminal(status[i])
    requires to.Completed? || to.Ready? || to.Running?
    requires forall p: nat :: HasEdge(g, p, i) ==> p < |status| && status[p].Completed?
    ensures Causal(g, status[i := to], [])
  {
    hide Blamed, InRange;
    AllStillBlamed(g, status, status[i := to]);
  }

  lemma MarkReadyKeeps(t: Tasks, s: Sched, i: nat)
    requires Inv(t, s) && i < |s.status| && s.status[i].Pending? && s.pendingDeps[i] == 0
    ensures Inv(t, MarkReady(s, i))
  {
    hide Causal, Valid, OrderedAt, HasEdge;
    var g := t.dependents;
    var s' := MarkReady(s, i);
    IncomingZero(g, Done(s.status), i, |g|);
    ProducersDone(g, s.status, i);
    MovesOn(g, s.status, i, Ready);
    assert Done(s'.status) == Done(s.status);
    assert RunningSet(s'.status) == RunningSet(s.status);
    assert i !in s.queue;
  }

  lemma ProducersDone(g: Graph, status: seq<Status>, i: nat)
    requires InRange(g) && |status| == |g| && i < |g| && Incoming(g, Done(status), i, |g|) == 0
    ensures forall p: nat :: HasEdge(g, p, i) ==> p < |status| && status[p].Completed?
  {
    IncomingZero(g, Done(status), i, |g|);
  }

  // Polling touches statuses and the queue only, and runs nothing.
  lemma {:induction false} PollFrame(t: Tasks, s: Sched, i: nat)
    requires Shape(t, s) && i <= |s.status|
    ensures var s' := PollFrom(t, s, i);
      && Advances(s.status, s'.status)
      && s'.pendingDeps == s.pendingDeps && s'.pool == s.pool && s'.trace == s.trace
      && (forall k :: 0 <= k < |s.status| ==> (s'.status[k].Running? <==> s.status[k].Running?))
      && (forall k :: 0 <= k < i ==> s'.status[k] == s.status[k])
      && (forall k :: i <= k < |s.status| && s'.status[k].Pending? ==> s.pendingDeps[k] > 0)
    decreases |s.status| - i
  {
    if i < |s.status| {
      PollFrame(t, if s.status[i].Pending? && s.pendingDeps[i] == 0 then MarkReady(s, i) else s, i + 1);
    }
  }

  lemma {:induction false} PollInv(t: Tasks, s: Sched, i: nat)
    requires Inv(t, s) && i <= |s.status|
    ensures Inv(t, PollFrom(t, s, i))
    decreases |s.status| - i
  {
    if i < |s.status| {
      if s.status[i].Pending? && s.pendingDeps[i] == 0 {
        MarkReadyKeeps(t, s, i);
        PollInv(t, MarkReady(s, i), i + 1);
      } else {
        PollInv(t, s, i + 1);
      }
    }
  }

  // New entries join the queue at the back, in task order.
  lemma {:induction false} PollOrder(t: Tasks, s: Sched, i: nat)
    requires Shape(t, s) && i <= |s.status|
    ensures var queue := PollFrom(t, s, i).queue;
      && s.queue <= queue
      && (forall a :: |s.queue| <= a < |queue| ==> queue[a] >= i)
      && (forall a, b :: |s.queue| <= a < b < |queue| ==> queue[a] < queue[b])
    decreases |s.status| - i
  {
    if i < |s.status| {
      PollOrder(t, if s.status[i].Pending? && s.pendingDeps[i] == 0 then MarkReady(s, i) else s, i + 1);
    }
  }

  lemma PollKeeps(t: Tasks, s: Sched, i: nat)
    requires Inv(t, s) && i <= |s.status|
    requires forall k :: 0 <= k < i && s.status[k].Pending? ==> s.pendingDeps[k] > 0
    ensures var s' := PollFrom(t, s, i);
      && Inv(t, s') && Advances(s.status, s'.status)
      && s'.pendingDeps == s.pendingDeps && s'.pool == s.pool && s'.trace == s.trace
      && RunningSet(s'.status) == RunningSet(s.status)
      && forall k :: 0 <= k < |s'.status| && s'.status[k].Pending? ==> s'.pendingDeps[k] > 0
  {
    PollInv(t, s, i);
    PollFrame(t, s, i);
    var s' := PollFrom(t, s, i);
    assert RunningSet(s'.status) == RunningSet(s.status);
  }

  // ----- failure -----

  // The work list reaches only pending and already cancelled tasks, and when
  // it is exhausted the cascade is complete.
  lemma {:induction false} CancelKeeps(g: Graph, status: seq<Status>, work: seq<nat>)
    requires InRange(g) && Causal(g, status, work)
    ensures var after := CancelFrom(g, status, work);
      && Causal(g, after, [])
      && forall i :: 0 <= i < |status| ==> after[i] == status[i] || (status[i].Pending? && after[i].Cancelled?)
    decreases Live(status), |work|
  {
    if work != [] {
      var c := work[0];
      assert c in work && Blamed(g, status, c);
      assert work == [c] + work[1..];
      assert forall d: nat :: d in work[1..] ==> d in work;
      if Terminal(status[c]) || status[c].Running? {
        CancelKeeps(g, status, work[1..]);
      } else {
        var status' := status[c := Cancelled];
        assert Live(status') == Live(status) - {c} && c in Live(status);
        CancelStep(g, status, work);
        CancelKeeps(g, status', work[1..] + g[c]);
      }
    }
  }

  lemma CancelStep(g: Graph, status: seq<Status>, work: seq<nat>)
    requires InRange(g) && Causal(g, status, work) && work != [] && work[0] < |g|
    requires status[work[0]].Pending? || status[work[0]].Ready?
    ensures Causal(g, status[work[0] := Cancelled], work[1..] + g[work[0]])
  {
    var c := work[0];
    var status' := status[c := Cancelled];
    var work' := work[1..] + g[c];
    assert work == [c] + work[1..];
    assert Blamed(g, status, c);
    forall d: nat | d < |g| && Blamed(g, status, d) ensures Blamed(g, status', d) {
      var p: nat :| HasEdge(g, p, d) && p < |status| && Bad(status[p]);
      assert Bad(status'[p]);
    }
    forall d: nat | d in work' ensures d < |g| && Blamed(g, status', d) {
      if d in work[1..] {
        assert d in work;
      } else {
        assert HasEdge(g, c, d) && Bad(status'[c]);
      }
    }
  }

  // ----- releasing ranks -----

  lemma ReleaseKeeps(t: Tasks, s: Sched, id: nat, after: seq<Status>)
    requires RanksOk(t, s.status, s.ranks, s.pool) && id < |s.status| == |after|
    requires s.status[id].Running? && t.required[id] > 0 && !after[id].Running?
    requires forall i :: 0 <= i < |after| && i != id ==> (after[i].Running? <==> s.status[i].Running?)
    ensures var s' := ReleaseRanks(s, id);
      RanksOk(t, after, s'.ranks, s'.pool) && s'.pool.total == s.pool.total
      && s' == s.(ranks := s'.ranks, pool := s'.pool)
  {
    ReleaseMeaning(s.pool, s.ranks[id]);
    var s' := ReleaseRanks(s, id);
    assert s.ranks[id] != {};
    forall r ensures r in Held(s'.pool) <==> InUse(s'.ranks, r) {
      if InUse(s'.ranks, r) {
        var i :| 0 <= i < |s'.ranks| && r in s'.ranks[i];
        assert r in s.ranks[i] && InUse(s.ranks, r);
        assert r !in s.ranks[id];
      }
      if r in Held(s'.pool) {
        assert InUse(s.ranks, r);
        var i :| 0 <= i < |s.ranks| && r in s.ranks[i];
        assert r in s'.ranks[i];
      }
    }
  }

  lemma RunningLess(before: seq<Status>, after: seq<Status>, id: nat)
    requires id < |before| == |after| && before[id].Running? && !after[id].Running?
    requires forall i :: 0 <= i < |after| && i != id ==> (after[i].Running? <==> before[i].Running?)
    ensures RunningSet(after) == RunningSet(before) - {id} && id in RunningSet(before)
    ensures |RunningSet(after)| == |RunningSet(before)| - 1
  {
  }

  // A running task has no failed or cancelled producer, so its own failure is
  // the only cause its consumers can have.
  lemma FailCausal(g: Graph, status: seq<Status>, id: nat)
    requires InRange(g) && Causal(g, status, []) && id < |g| && status[id].Running?
    ensures Causal(g, status[id := Failed], g[id])
  {
    hide Blamed;
    var failed := status[id := Failed];
    assert forall d: nat :: d in g[id] <==> HasEdge(g, id, d);
    AllStillBlamed(g, status, failed);
    forall d: nat | d in g[id] ensures Blamed(g, failed, d) {
      BlamedBy(g, failed, id, d);
    }
  }

  lemma BlamedBy(g: Graph, status: seq<Status>, p: nat, d: nat)
    requires HasEdge(g, p, d) && p < |status| && Bad(status[p])
    ensures Blamed(g, status, d)
  {
  }

  // A failure and its cascade: nobody else starts, finishes or stops running.
  ghost predicate OnlyCancels(status: seq<Status>, after: seq<Status>, id: nat) {
    && |after| == |status| && id < |status| && status[id].Running? && after[id].Failed?
    && forall i :: 0 <= i < |status| && i != id ==>
         after[i] == status[i] || (status[i].Pending? && after[i].Cancelled?)
  }

  lemma FailTables(t: Tasks, s: Sched, after: seq<Status>, id: nat)
    requires Inv(t, s) && OnlyCancels(s.status, after, id)
    ensures CountsOk(t.dependents, after, s.pendingDeps) && QueueOk(after, s.queue)
        && TraceOk(t.dependents, after, s.trace)
  {
    hide Causal, RanksOk, OrderedAt;
    assert Done(after) == Done(s.status);
  }

  lemma FailKeeps(t: Tasks, s: Sched, id: nat)
    requires Inv(t, s) && id < |s.status| && s.status[id].Running?
    ensures var s' := Fail(t, s, id);
      && Inv(t, s') && s'.pool.total == s.pool.total && s'.trace == s.trace
      && s'.pendingDeps == s.pendingDeps
      && s'.status[id].Failed?
      && (forall i :: 0 <= i < |s.status| && i != id ==>
            s'.status[i] == s.status[i] || (s.status[i].Pending? && s'.status[i].Cancelled?))
  {
    hide CountsOk, Causal, QueueOk, RanksOk, TraceOk;
    var g := t.dependents;
    FailCausal(g, s.status, id);
    CancelKeeps(g, s.status[id := Failed], g[id]);
    var s' := Fail(t, s, id);
    ReleaseKeeps(t, s, id, s'.status);
    RunningLess(s.status, s'.status, id);
    FailTables(t, s, s'.status, id);
  }

  // ----- success -----

  lemma {:induction false} DecrementAllEffect(counts: seq<nat>, deps: seq<nat>, d: nat)
    requires d < |counts| && counts[d] >= multiset(deps)[d]
    ensures DecrementAll(counts, deps)[d] == counts[d] - multiset(deps)[d]
    decreases |deps|
  {
    if deps != [] {
      assert deps == [deps[0]] + deps[1..];
      if deps[0] < |counts| {
        DecrementAllEffect(counts[deps[0] := Decrement(counts[deps[0]])], deps[1..], d);
      } else {
        DecrementAllEffect(counts, deps[1..], d);
      }
    }
  }

  lemma FinishCounts(t: Tasks, s: Sched, id: nat)
    requires Inv(t, s) && id < |s.status| && s.status[id].Running?
    ensures CountsOk(t.dependents, s.status[id := Completed], DecrementAll(s.pendingDeps, t.dependents[id]))
  {
    var g := t.dependents;
    var status' := s.status[id := Completed];
    assert Done(status') == Done(s.status) + {id};
    forall d | 0 <= d < |g|
      ensures DecrementAll(s.pendingDeps, g[id])[d] == Incoming(g, Done(status'), d, |g|)
    {
      IncomingFinish(g, Done(s.status), id, d, |g|);
      DecrementAllEffect(s.pendingDeps, g[id], d);
    }
  }

  lemma ExtendTrace(g: Graph, trace: seq<Event>, e: Event)
    requires forall k: nat {:trigger OrderedAt(g, trace, k)} :: k < |trace| ==> OrderedAt(g, trace, k)
    requires OrderedAt(g, trace + [e], |trace|)
    ensures forall k: nat {:trigger OrderedAt(g, trace + [e], k)} :: k < |trace + [e]| ==> OrderedAt(g, trace + [e], k)
  {
    forall k: nat | k < |trace| ensures OrderedAt(g, trace + [e], k) {
      assert OrderedAt(g, trace, k);
      assert (trace + [e])[..k] == trace[..k];
    }
  }

  lemma FinishTrace(g: Graph, status: seq<Status>, trace: seq<Event>, id: nat)
    requires TraceOk(g, status, trace) && id < |status| && status[id].Running?
    ensures TraceOk(g, status[id := Completed], trace + [Finished(id)])
  {
    var trace' := trace + [Finished(id)];
    assert trace'[..|trace|] == trace;
    assert OrderedAt(g, trace', |trace|);
    ExtendTrace(g, trace, Finished(id));
  }

  // Everything a running task needs has completed.
  lemma NeedsDone(g: Graph, status: seq<Status>, id: nat)
    requires InRange(g) && Causal(g, status, []) && id < |g| && Started(status[id])
    ensures forall p: nat :: HasEdge(g, p, id) ==> p < |status| && status[p].Completed?
  {
  }

  lemma FinishQueue(status: seq<Status>, queue: seq<nat>, id: nat, to: Status)
    requires QueueOk(status, queue) && id < |status| && !status[id].Ready? && !to.Ready?
    ensures QueueOk(status[id := to], queue)
  {
  }

  lemma FinishKeeps(t: Tasks, s: Sched, id: nat)
    requires Inv(t, s) && id < |s.status| && s.status[id].Running?
    ensures var s' := Finish(t, s, id);
      && Inv(t, s') && s'.pool.total == s.pool.total && s'.status == s.status[id := Completed]
  {
    hide CountsOk, Causal, QueueOk, RanksOk, TraceOk;
    var g := t.dependents;
    var s' := Finish(t, s, id);
    FinishCounts(t, s, id);
    NeedsDone(g, s.status, id);
    MovesOn(g, s.status, id, Completed);
    FinishQueue(s.status, s.queue, id, Completed);
    ReleaseKeeps(t, s, id, s'.status);
    RunningLess(s.status, s'.status, id);
    FinishTrace(g, s.status, s.trace, id);
  }

  // ----- dispatch -----

  // Free ranks given to a task that has none.
  lemma GiveRanks(t: Tasks, status: seq<Status>, ranks: seq<set<int>>, before: Pool, after: Pool, id: nat,
      got: set<int>)
    requires RanksOk(t, status, ranks, before) && id < |status| && !status[id].Running?
    requires Valid(after) && got !! Held(before) && Held(after) == Held(before) + got && |got| == t.required[id]
    ensures RanksOk(t, status[id := Running], ranks[id := got], after)
  {
    var ranks' := ranks[id := got];
    forall i | 0 <= i < |ranks| && i != id ensures ranks[i] !! got {
      forall r | r in ranks[i] ensures r !in got {
        assert InUse(ranks, r);
      }
    }
    forall r ensures r in Held(after) <==> InUse(ranks', r) {
      if InUse(ranks', r) {
        var i :| 0 <= i < |ranks'| && r in ranks'[i];
        assert i != id ==> InUse(ranks, r);
      }
      if r in got {
        assert r in ranks'[id];
      } else if r in Held(before) {
        assert InUse(ranks, r);
        var i :| 0 <= i < |ranks| && r in ranks[i];
        assert i != id && r in ranks'[i];
      }
    }
  }

  lemma StartRanks(t: Tasks, s: Sched, id: nat)
    requires RanksOk(t, s.status, s.ranks, s.pool) && id < |s.status| && !s.status[id].Running? && t.required[id] > 0
    requires TryAllocate(s.pool, t.required[id]).1 != {}
    ensures var (pool, got) := TryAllocate(s.pool, t.required[id]);
      RanksOk(t, s.status[id := Running], s.ranks[id := got], pool) && pool.total == s.pool.total
  {
    AllocateMeaning(s.pool, t.required[id]);
    Apart(s.pool);
    var (pool, got) := TryAllocate(s.pool, t.required[id]);
    GiveRanks(t, s.status, s.ranks, s.pool, pool, id, got);
  }

  lemma StartTrace(g: Graph, status: seq<Status>, trace: seq<Event>, id: nat)
    requires TraceOk(g, status, trace) && id < |status| && status[id].Ready?
    requires forall p: nat :: HasEdge(g, p, id) ==> p < |status| && status[p].Completed?
    ensures TraceOk(g, status[id := Running], trace + [Dispatched(id)])
  {
    var trace' := trace + [Dispatched(id)];
    assert trace'[..|trace|] == trace;
    assert OrderedAt(g, trace', |trace|);
    ExtendTrace(g, trace, Dispatched(id));
  }

  lemma StartCounts(g: Graph, status: seq<Status>, pendingDeps: seq<nat>, id: nat)
    requires CountsOk(g, status, pendingDeps) && id < |status| && status[id].Ready?
    ensures CountsOk(g, status[id := Running], pendingDeps)
  {
    assert Done(status[id := Running]) == Done(status);
  }

  lemma StartKeeps(t: Tasks, s: Sched)
    requires Inv(t, s) && s.queue != [] && s.inFlight < t.maxConcurrency
    requires TryAllocate(s.pool, t.required[s.queue[0]]).1 != {}
    ensures var (pool, got) := TryAllocate(s.pool, t.required[s.queue[0]]);
      && Inv(t, Start(s, pool, got)) && pool.total == s.pool.total
      && s.status[s.queue[0]].Ready?
  {
    hide CountsOk, Causal, RanksOk, TraceOk, TryAllocate;
    var g, id := t.dependents, s.queue[0];
    var (pool, got) := TryAllocate(s.pool, t.required[id]);
    AllocateShape(s.pool, t.required[id]);
    var s' := Start(s, pool, got);
    assert id in s.queue;
    StartRanks(t, s, id);
    RunningLess(s'.status, s.status, id);
    StartCounts(g, s.status, s.pendingDeps, id);
    NeedsDone(g, s.status, id);
    MovesOn(g, s.status, id, Running);
    StartQueue(s);
    StartTrace(g, s.status, s.trace, id);
  }

  lemma StartQueue(s: Sched)
    requires QueueOk(s.status, s.queue) && s.queue != []
    ensures QueueOk(s.status[s.queue[0] := Running], s.queue[1..])
  {
    assert s.queue == [s.queue[0]] + s.queue[1..];
    assert forall k :: 0 <= k < |s.queue| - 1 ==> s.queue[1..][k] == s.queue[k + 1];
    assert s.queue[0] !in s.queue[1..];
  }
}
