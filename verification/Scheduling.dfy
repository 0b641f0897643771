// The poll, dispatch and complete phases of the DAGR event loop as functions
// on the state they update.
module Scheduling {
  import opened Graphs
  import opened RankPools

  datatype Status = Pending | Ready | Running | Completed | Failed | Cancelled

  predicate Terminal(s: Status) {
    s.Completed? || s.Failed? || s.Cancelled?
  }

  // What never changes while the loop runs.
  datatype Tasks = Tasks(dependents: Graph, required: seq<nat>, maxConcurrency: nat)

  // History of the run: a task was handed to its ranks, or reported success.
  datatype Event = Dispatched(id: nat) | Finished(id: nat)

  datatype Sched = Sched(
    status: seq<Status>,
    pendingDeps: seq<nat>,
    queue: seq<nat>,
    inFlight: nat,
    ranks: seq<set<int>>,
    pool: Pool,
    trace: seq<Event>)

  // What the environment contributes to one cycle: the tasks whose dispatch
  // callback refuses or throws, and the completions reported afterwards.
  datatype Input = Input(refused: set<nat>, reports: seq<(nat, bool)>)

  predicate Shape(t: Tasks, s: Sched) {
    && |s.status| == |s.pendingDeps| == |s.ranks| == |t.dependents| == |t.required|
    && (forall i :: 0 <= i < |t.required| ==> t.required[i] > 0)
    && (forall k :: 0 <= k < |s.queue| ==> s.queue[k] < |s.status|)
    && |s.pool.ids| == |s.pool.bits|
  }

  // Counters are 32 bits wide and wrap when decremented below zero.
  function Decrement(x: nat): nat {
    if x == 0 then 0xFFFF_FFFF else x - 1
  }

  function MarkReady(s: Sched, i: nat): Sched
    requires i < |s.status|
  {
    s.(status := s.status[i := Ready], queue := s.queue + [i])
  }

  function PollFrom(t: Tasks, s: Sched, i: nat): (r: Sched)
    requires Shape(t, s) && i <= |s.status|
    ensures Shape(t, r)
    decreases |s.status| - i
  {
    if i == |s.status| then s
    else if s.status[i].Pending? && s.pendingDeps[i] == 0 then PollFrom(t, MarkReady(s, i), i + 1)
    else PollFrom(t, s, i + 1)
  }

  function Live(status: seq<Status>): set<nat> {
    set i: nat | 0 <= i < |status| && !Terminal(status[i])
  }

  // The work list holds consumers of failed or cancelled tasks. There is no
  // visited set: a task is expanded only when it turns cancelled.
  function CancelFrom(g: Graph, status: seq<Status>, work: seq<nat>): (r: seq<Status>)
    requires |status| == |g|
    ensures |r| == |status|
    decreases Live(status), |work|
  {
    if work == [] then status
    else if work[0] >= |status| || Terminal(status[work[0]]) || status[work[0]].Running? then
      CancelFrom(g, status, work[1..])
    else
      var status' := status[work[0] := Cancelled];
      assert Live(status') == Live(status) - {work[0]} && work[0] in Live(status);
      CancelFrom(g, status', work[1..] + g[work[0]])
  }

  function ReleaseRanks(s: Sched, id: nat): Sched
    requires id < |s.ranks| && |s.pool.ids| == |s.pool.bits|
  {
    if s.ranks[id] == {} then s else s.(pool := Release(s.pool, s.ranks[id]), ranks := s.ranks[id := {}])
  }

  function Fail(t: Tasks, s: Sched, id: nat): (r: Sched)
    requires Shape(t, s) && id < |s.status|
    ensures Shape(t, r) && r.queue == s.queue
  {
    ReleaseRanks(s, id).(
      status := CancelFrom(t.dependents, s.status[id := Failed], t.dependents[id]),
      inFlight := if s.inFlight > 0 then s.inFlight - 1 else 0)
  }

  function DecrementAll(counts: seq<nat>, deps: seq<nat>): (r: seq<nat>)
    ensures |r| == |counts|
    decreases |deps|
  {
    if deps == [] then counts
    else if deps[0] < |counts| then DecrementAll(counts[deps[0] := Decrement(counts[deps[0]])], deps[1..])
    else DecrementAll(counts, deps[1..])
  }

  function Finish(t: Tasks, s: Sched, id: nat): (r: Sched)
    requires Shape(t, s) && id < |s.status|
    ensures Shape(t, r)
  {
    ReleaseRanks(s, id).(
      status := s.status[id := Completed],
      inFlight := Decrement(s.inFlight),
      pendingDeps := DecrementAll(s.pendingDeps, t.dependents[id]),
      trace := s.trace + [Finished(id)])
  }

  // The task at the front of the queue takes the ranks allocated to it.
  function Start(s: Sched, pool: Pool, got: set<int>): Sched
    requires s.queue != [] && s.queue[0] < |s.status| == |s.ranks|
  {
    var id := s.queue[0];
    s.(status := s.status[id := Running], queue := s.queue[1..], inFlight := s.inFlight + 1,
       ranks := s.ranks[id := got], pool := pool, trace := s.trace + [Dispatched(id)])
  }

  // The task at the front starts on its ranks and fails at once if its
  // dispatch callback refuses or throws.
  function DispatchFront(t: Tasks, s: Sched, refused: set<nat>): (r: Sched)
    requires Shape(t, s) && s.queue != []
    ensures Shape(t, r) && r.queue == s.queue[1..]
  {
    var (pool, got) := TryAllocate(s.pool, t.required[s.queue[0]]);
    AllocateShape(s.pool, t.required[s.queue[0]]);
    var started := Start(s, pool, got);
    if s.queue[0] in refused then Fail(t, started, s.queue[0]) else started
  }

  function Dispatch(t: Tasks, s: Sched, refused: set<nat>): (r: Sched)
    requires Shape(t, s)
    ensures Shape(t, r)
    decreases |s.queue|
  {
    if s.queue == [] || s.inFlight >= t.maxConcurrency then s
    else if !s.status[s.queue[0]].Ready? then Dispatch(t, s.(queue := s.queue[1..]), refused)
    else if TryAllocate(s.pool, t.required[s.queue[0]]).1 == {} then s
    else Dispatch(t, DispatchFront(t, s, refused), refused)
  }

  function Complete(t: Tasks, s: Sched, reports: seq<(nat, bool)>): (r: Sched)
    requires Shape(t, s)
    ensures Shape(t, r)
    decreases |reports|
  {
    if reports == [] then s
    else
      var (id, success) := reports[0];
      if id >= |s.status| || !s.status[id].Running? then Complete(t, s, reports[1..])
      else Complete(t, if success then Finish(t, s, id) else Fail(t, s, id), reports[1..])
  }

  function Cycle(t: Tasks, s: Sched, input: Input): (r: Sched)
    requires Shape(t, s)
    ensures Shape(t, r)
  {
    Complete(t, Dispatch(t, PollFrom(t, s, 0), input.refused), input.reports)
  }

  lemma AllocateShape(p: Pool, count: nat)
    requires |p.ids| == |p.bits| && 0 < count
    ensures var r := TryAllocate(p, count).0; |r.ids| == |r.bits|
  {
    ClaimShape(p.ids, p.bits, count, 0, {});
  }

  lemma {:induction false} ClaimShape(ids: seq<int>, bits: seq<bool>, count: nat, i: nat, got: set<int>)
    requires |ids| == |bits| && i <= |ids|
    ensures |ClaimFrom(ids, bits, count, i, got).0| == |ids|
    decreases |ids| - i
  {
    if i < |ids| && |got| < count {
      if bits[i] {
        ClaimShape(ids, bits[i := false], count, i + 1, got + {ids[i]});
      } else {
        ClaimShape(ids, bits, count, i + 1, got);
      }
    }
  }

  predicate AllComplete(s: Sched) {
    forall i :: 0 <= i < |s.status| ==> Terminal(s.status[i])
  }
}
