// The worker pool's write-ordering protocol as atomic steps that any number
// of workers interleave freely: submit, try (start a task or rotate the
// queue), callback returned, worker done.
module WriteOrdering {
  datatype Key = Key(dataset: nat, variable: nat)

  datatype Write = Write(key: Key, dvSeq: nat, handle: nat, callback: nat)

  datatype Prefetch = Prefetch(timestep: int, distance: int, dataset: nat, handle: nat, callback: nat)

  // Next sequence number to assign, and to execute, for one key.
  datatype Order = Order(next: nat, exec: nat)

  datatype Job =
    | Writing(write: Write)       // inside the write callback, ordering mutex held
    | Fetching(prefetch: Prefetch)
    | Leaving(wrote: bool)        // callback returned, counters not yet updated

  datatype Config = Config(threads: nat, capacity: nat)

  datatype State = State(
    writes: seq<Write>,
    prefetches: seq<Prefetch>,
    orders: map<Key, Order>,
    busy: map<nat, Job>,
    inFlight: nat,
    writesCompleted: nat,
    prefetchesCompleted: nat,
    shutdown: bool,
    accepted: seq<Write>,   // history: submissions that were enqueued
    executed: seq<Write>,   // history: write callbacks that have returned
    fetchesAccepted: seq<Prefetch>,   // the same two histories for prefetches
    fetchesRun: seq<Prefetch>)

  datatype Step =
    | Submit(key: Key, handle: nat, callback: nat)
    | SubmitFetch(fetch: Prefetch)
    | Try(worker: nat, pick: nat)
    | Return(worker: nat)
    | Retire(worker: nat)
    | Shutdown

  datatype Code = Ok | QueueFull

  function OrderOf(s: State, k: Key): Order {
    if k in s.orders then s.orders[k] else Order(0, 0)
  }

  // After shutdown a submission is dropped, but the code is still Ok.
  function SubmitWrite(c: Config, s: State, k: Key, handle: nat, callback: nat): (State, Code, nat) {
    if s.shutdown then (s, Ok, 0)
    else if |s.writes| >= c.capacity then (s, QueueFull, 0)
    else
      var order := OrderOf(s, k);
      var w := Write(k, order.next, handle, callback);
      (s.(orders := s.orders[k := order.(next := order.next + 1)], writes := s.writes + [w],
          accepted := s.accepted + [w]),
       Ok, order.next)
  }

  function SubmitPrefetch(s: State, p: Prefetch): State {
    if s.shutdown then s
    else s.(prefetches := s.prefetches + [p], fetchesAccepted := s.fetchesAccepted + [p])
  }

  predicate Nearest(prefetches: seq<Prefetch>, pick: nat) {
    pick < |prefetches| && forall i :: 0 <= i < |prefetches| ==> prefetches[pick].distance <= prefetches[i].distance
  }

  function BeginFetch(s: State, worker: nat, pick: nat): State
    requires pick < |s.prefetches|
  {
    s.(prefetches := s.prefetches[..pick] + s.prefetches[pick + 1..],
       busy := s.busy[worker := Fetching(s.prefetches[pick])], inFlight := s.inFlight + 1)
  }

  function BeginWrite(s: State, worker: nat): State
    requires s.writes != []
  {
    s.(writes := s.writes[1..], busy := s.busy[worker := Writing(s.writes[0])], inFlight := s.inFlight + 1)
  }

  function Rotate(s: State): State
    requires s.writes != []
  {
    s.(writes := s.writes[1..] + [s.writes[0]])
  }

  predicate Eligible(s: State, i: nat)
    requires i < |s.writes|
  {
    s.writes[i].dvSeq == OrderOf(s, s.writes[i].key).exec
  }

  // Writes first; a write whose turn has not come goes to the back and a
  // prefetch, if there is one, runs instead.
  function TryExecute(s: State, worker: nat, pick: nat): State
    requires s.prefetches != [] ==> pick < |s.prefetches|
  {
    if s.writes != [] && Eligible(s, 0) then BeginWrite(s, worker)
    else
      var s' := if s.writes != [] then Rotate(s) else s;
      if s.prefetches != [] then BeginFetch(s', worker, pick) else s'
  }

  // The callback is over, normally or by an exception the cordon swallowed:
  // either way a write advances its key's execution counter.
  function ReturnFrom(s: State, worker: nat): State
    requires worker in s.busy && !s.busy[worker].Leaving?
  {
    match s.busy[worker]
    case Writing(w) =>
      var order := OrderOf(s, w.key);
      s.(orders := s.orders[w.key := order.(exec := order.exec + 1)],
         busy := s.busy[worker := Leaving(true)], executed := s.executed + [w])
    case Fetching(p) => s.(busy := s.busy[worker := Leaving(false)], fetchesRun := s.fetchesRun + [p])
  }

  function RetireWorker(s: State, worker: nat): State
    requires worker in s.busy && s.busy[worker].Leaving?
  {
    s.(busy := s.busy - {worker}, inFlight := if s.inFlight > 0 then s.inFlight - 1 else 0,
       writesCompleted := s.writesCompleted + (if s.busy[worker].wrote then 1 else 0),
       prefetchesCompleted := s.prefetchesCompleted + (if s.busy[worker].wrote then 0 else 1))
  }

  predicate Enabled(c: Config, s: State, step: Step) {
    match step
    case Try(worker, pick) => worker < c.threads && worker !in s.busy
        && (s.prefetches != [] ==> Nearest(s.prefetches, pick))
    case Return(worker) => worker in s.busy && !s.busy[worker].Leaving?
    case Retire(worker) => worker in s.busy && s.busy[worker].Leaving?
    case _ => true
  }

  function Apply(c: Config, s: State, step: Step): State
    requires Enabled(c, s, step)
  {
    match step
    case Submit(k, handle, callback) => SubmitWrite(c, s, k, handle, callback).0
    case SubmitFetch(p) => SubmitPrefetch(s, p)
    case Try(worker, pick) => TryExecute(s, worker, pick)
    case Return(worker) => ReturnFrom(s, worker)
    case Retire(worker) => RetireWorker(s, worker)
    case Shutdown => s.(shutdown := true)
  }

  predicate Runs(c: Config, s: State, steps: seq<Step>)
    decreases |steps|
  {
    steps == [] || (Enabled(c, s, steps[0]) && Runs(c, Apply(c, s, steps[0]), steps[1..]))
  }

  function Execute(c: Config, s: State, steps: seq<Step>): State
    requires Runs(c, s, steps)
    decreases |steps|
  {
    if steps == [] then s else Execute(c, Apply(c, s, steps[0]), steps[1..])
  }

  const IDLE := State([], [], map[], map[], 0, 0, 0, false, [], [], [], [])

  // ----- the invariant -----

  function PerKey(log: seq<Write>, k: Key): seq<Write> {
    if log == [] then []
    else PerKey(log[..|log| - 1], k) + if log[|log| - 1].key == k then [log[|log| - 1]] else []
  }

  // w is the submission its key and number say it is.
  ghost predicate Genuine(s: State, w: Write) {
    w.dvSeq < |PerKey(s.accepted, w.key)| && PerKey(s.accepted, w.key)[w.dvSeq] == w
  }

  ghost predicate IsWriting(s: State, worker: nat) {
    worker in s.busy && s.busy[worker].Writing?
  }

  ghost predicate Outstanding(s: State, k: Key, n: nat) {
    || (exists i :: 0 <= i < |s.writes| && s.writes[i].key == k && s.writes[i].dvSeq == n)
    || (exists w :: IsWriting(s, w) && s.busy[w].write.key == k && s.busy[w].write.dvSeq == n)
  }

  // Queued writes are genuine, in [exec, next), and no number occurs twice.
  ghost predicate QueueOk(s: State) {
    && (forall i :: 0 <= i < |s.writes| ==>
         Genuine(s, s.writes[i]) && OrderOf(s, s.writes[i].key).exec <= s.writes[i].dvSeq)
    && (forall i, j :: 0 <= i < j < |s.writes| && s.writes[i].key == s.writes[j].key ==>
         s.writes[i].dvSeq != s.writes[j].dvSeq)
  }

  // A write in its callback is the next one of its key, alone, and not queued.
  ghost predicate WritersOk(s: State) {
    && (forall w :: IsWriting(s, w) ==>
          Genuine(s, s.busy[w].write) && s.busy[w].write.dvSeq == OrderOf(s, s.busy[w].write.key).exec)
    && (forall v, w :: IsWriting(s, v) && IsWriting(s, w) && s.busy[v].write.key == s.busy[w].write.key ==> v == w)
    && (forall w, i :: IsWriting(s, w) && 0 <= i < |s.writes| && s.writes[i].key == s.busy[w].write.key ==>
          s.writes[i].dvSeq != s.busy[w].write.dvSeq)
  }

  ghost predicate KeyOk(s: State, k: Key) {
    && OrderOf(s, k).exec <= OrderOf(s, k).next == |PerKey(s.accepted, k)|
    && PerKey(s.executed, k) == PerKey(s.accepted, k)[..OrderOf(s, k).exec]
    && (forall n: nat :: n < OrderOf(s, k).next ==> PerKey(s.accepted, k)[n].dvSeq == n)
    && (forall n: nat :: OrderOf(s, k).exec <= n < OrderOf(s, k).next ==> Outstanding(s, k, n))
  }

  ghost function Left(busy: map<nat, Job>): set<nat> {
    set w | w in busy && busy[w] == Leaving(true)
  }

  ghost predicate CountersOk(c: Config, s: State) {
    && s.inFlight == |s.busy|
    && (forall w :: w in s.busy ==> w < c.threads)
    && s.writesCompleted + |Left(s.busy)| == |s.executed|
    && |s.writes| <= c.capacity
  }

  ghost predicate WriteInv(c: Config, s: State) {
    QueueOk(s) && WritersOk(s) && (forall k :: KeyOk(s, k)) && CountersOk(c, s)
  }

  ghost function FetchOf(busy: map<nat, Job>, w: nat): multiset<Prefetch> {
    if w in busy && busy[w].Fetching? then multiset{busy[w].prefetch} else multiset{}
  }

  // The prefetches inside a callback of the workers below n.
  ghost function InCallbacks(busy: map<nat, Job>, n: nat): multiset<Prefetch> {
    if n == 0 then multiset{} else InCallbacks(busy, n - 1) + FetchOf(busy, n - 1)
  }

  ghost function LeftFetch(busy: map<nat, Job>): set<nat> {
    set w | w in busy && busy[w] == Leaving(false)
  }

  // Each accepted prefetch is queued, in a callback or has run.
  ghost predicate Conserved(c: Config, s: State) {
    multiset(s.fetchesAccepted) == multiset(s.prefetches) + InCallbacks(s.busy, c.threads) + multiset(s.fetchesRun)
  }

  ghost predicate FetchesCounted(s: State) {
    s.prefetchesCompleted + |LeftFetch(s.busy)| == |s.fetchesRun|
  }

  ghost predicate FetchesOk(c: Config, s: State) {
    Conserved(c, s) && FetchesCounted(s)
  }

  ghost predicate Inv(c: Config, s: State) {
    WriteInv(c, s) && FetchesOk(c, s)
  }

  lemma {:induction false} NobodyFetching(n: nat)
    ensures InCallbacks(map[], n) == multiset{}
  {
    if n > 0 {
      NobodyFetching(n - 1);
    }
  }

  lemma IdleKeeps(c: Config)
    ensures Inv(c, IDLE)
  {
    assert Left(IDLE.busy) == {} && LeftFetch(IDLE.busy) == {};
    NobodyFetching(c.threads);
  }

  // ----- preservation -----

  lemma PerKeyAppend(log: seq<Write>, w: Write, j: Key)
    ensures PerKey(log + [w], j) == PerKey(log, j) + if j == w.key then [w] else []
  {
    assert (log + [w])[..|log|] == log;
  }

  lemma SubmitOutstanding(s: State, s': State, w: Write, j: Key, n: nat)
    requires s'.writes == s.writes + [w] && s'.busy == s.busy
    requires Outstanding(s, j, n) || (j == w.key && n == w.dvSeq)
    ensures Outstanding(s', j, n)
  {
    hide PerKey, Genuine;
    if j == w.key && n == w.dvSeq {
      assert s'.writes[|s.writes|] == w;
    } else {
      assert forall v :: IsWriting(s, v) ==> IsWriting(s', v);
      KeepsOutstanding(s, s', j, n);
    }
  }

  lemma SubmitKey(c: Config, s: State, k: Key, handle: nat, callback: nat, j: Key)
    requires KeyOk(s, j) && !s.shutdown && |s.writes| < c.capacity
    ensures var s' := SubmitWrite(c, s, k, handle, callback).0;
      && KeyOk(s', j)
      && PerKey(s'.accepted, j)
         == PerKey(s.accepted, j) + if j == k then [Write(k, OrderOf(s, k).next, handle, callback)] else []
  {
    hide PerKey, Genuine, Outstanding;
    var s' := SubmitWrite(c, s, k, handle, callback).0;
    var w := Write(k, OrderOf(s, k).next, handle, callback);
    PerKeyAppend(s.accepted, w, j);
    forall n: nat | OrderOf(s', j).exec <= n < OrderOf(s', j).next ensures Outstanding(s', j, n) {
      SubmitOutstanding(s, s', w, j, n);
    }
  }

  // Appending to the history keeps earlier submissions genuine, and gives the
  // new one a number none of them has.
  lemma GenuineAfter(s: State, s': State, k: Key, w: Write, earlier: Write)
    requires forall j :: PerKey(s'.accepted, j) == PerKey(s.accepted, j) + if j == k then [w] else []
    requires w.key == k && w.dvSeq == |PerKey(s.accepted, k)| && Genuine(s, earlier)
    ensures Genuine(s', earlier) && (earlier.key == k ==> earlier.dvSeq < w.dvSeq)
    ensures Genuine(s', w)
  {
    hide PerKey;
  }

  lemma SubmitQueue(s: State, s': State, k: Key, w: Write)
    requires QueueOk(s) && w.key == k && w.dvSeq == |PerKey(s.accepted, k)|
    requires forall j :: PerKey(s'.accepted, j) == PerKey(s.accepted, j) + if j == k then [w] else []
    requires s'.writes == s.writes + [w] && OrderOf(s, k).exec <= w.dvSeq
    requires forall j :: OrderOf(s', j).exec == OrderOf(s, j).exec
    ensures QueueOk(s')
  {
    hide PerKey;
    forall i | 0 <= i < |s.writes|
      ensures Genuine(s', s.writes[i]) && (s.writes[i].key == k ==> s.writes[i].dvSeq < w.dvSeq)
    {
      GenuineAfter(s, s', k, w, s.writes[i]);
    }
  }

  lemma SubmitWriters(s: State, s': State, k: Key, w: Write)
    requires WritersOk(s) && w.key == k && w.dvSeq == |PerKey(s.accepted, k)|
    requires forall j :: PerKey(s'.accepted, j) == PerKey(s.accepted, j) + if j == k then [w] else []
    requires s'.writes == s.writes + [w] && s'.busy == s.busy
    requires forall j :: OrderOf(s', j).exec == OrderOf(s, j).exec
    ensures WritersOk(s')
  {
    hide PerKey;
    assert forall v :: IsWriting(s', v) <==> IsWriting(s, v);
    forall v | IsWriting(s, v)
      ensures Genuine(s', s.busy[v].write) && (s.busy[v].write.key == k ==> s.busy[v].write.dvSeq < w.dvSeq)
    {
      GenuineAfter(s, s', k, w, s.busy[v].write);
    }
  }

  lemma SubmitKeeps(c: Config, s: State, k: Key, handle: nat, callback: nat)
    requires WriteInv(c, s)
    ensures WriteInv(c, SubmitWrite(c, s, k, handle, callback).0)
  {
    hide QueueOk, WritersOk, Genuine, PerKey, Outstanding;
    var s' := SubmitWrite(c, s, k, handle, callback).0;
    if !s.shutdown && |s.writes| < c.capacity {
      var w := Write(k, OrderOf(s, k).next, handle, callback);
      forall j
        ensures KeyOk(s', j)
        ensures PerKey(s'.accepted, j) == PerKey(s.accepted, j) + if j == k then [w] else []
      {
        SubmitKey(c, s, k, handle, callback, j);
      }
      assert KeyOk(s, k);
      SubmitQueue(s, s', k, w);
      SubmitWriters(s, s', k, w);
    }
  }

  lemma KeepsOutstanding(s: State, s': State, k: Key, n: nat)
    requires Outstanding(s, k, n)
    requires forall i :: 0 <= i < |s.writes| ==>
        s.writes[i] in s'.writes || exists v :: IsWriting(s', v) && s'.busy[v].write == s.writes[i]
    requires forall v :: IsWriting(s, v) ==> IsWriting(s', v) && s'.busy[v] == s.busy[v]
    ensures Outstanding(s', k, n)
  {
    hide PerKey;
    if i :| 0 <= i < |s.writes| && s.writes[i].key == k && s.writes[i].dvSeq == n {
      if s.writes[i] in s'.writes {
        var j :| 0 <= j < |s'.writes| && s'.writes[j] == s.writes[i];
      }
    } else {
      var w :| IsWriting(s, w) && s.busy[w].write.key == k && s.busy[w].write.dvSeq == n;
      assert IsWriting(s', w);
    }
  }

  // Steps that move tasks but neither number nor execute any.
  lemma SameHistory(s: State, s': State)
    requires forall k :: KeyOk(s, k)
    requires s'.orders == s.orders && s'.accepted == s.accepted && s'.executed == s.executed
    requires forall i :: 0 <= i < |s.writes| ==>
        s.writes[i] in s'.writes || exists v :: IsWriting(s', v) && s'.busy[v].write == s.writes[i]
    requires forall v :: IsWriting(s, v) ==> IsWriting(s', v) && s'.busy[v] == s.busy[v]
    ensures forall k :: KeyOk(s', k)
  {
    hide PerKey, Outstanding;
    forall k ensures KeyOk(s', k) {
      assert KeyOk(s, k);
      forall n: nat | OrderOf(s, k).exec <= n < OrderOf(s, k).next ensures Outstanding(s', k, n) {
        KeepsOutstanding(s, s', k, n);
      }
    }
  }

  // Steps that touch neither the write queue nor a running write.
  lemma SilentKeeps(s: State, s': State)
    requires QueueOk(s) && WritersOk(s) && forall k :: KeyOk(s, k)
    requires s'.writes == s.writes && s'.orders == s.orders && s'.accepted == s.accepted && s'.executed == s.executed
    requires forall w :: IsWriting(s', w) <==> IsWriting(s, w)
    requires forall w :: IsWriting(s, w) && IsWriting(s', w) ==> s'.busy[w] == s.busy[w]
    ensures QueueOk(s') && WritersOk(s') && forall k :: KeyOk(s', k)
  {
    hide KeyOk, PerKey;
    SameHistory(s, s');
  }

  // The rotated queue is the old one with its indices shifted.
  function Shifted(n: nat, j: nat): nat
    requires j < n
  {
    if j == n - 1 then 0 else j + 1
  }

  lemma RotatedAt(s: State)
    requires s.writes != []
    ensures var n := |s.writes|;
      && |Rotate(s).writes| == n
      && (forall j :: 0 <= j < n ==> Rotate(s).writes[j] == s.writes[Shifted(n, j)])
      && (forall i :: 0 <= i < n ==> s.writes[i] in Rotate(s).writes)
  {
    var s', n := Rotate(s), |s.writes|;
    forall i | 0 <= i < n ensures s.writes[i] in s'.writes {
      assert s.writes[i] == s'.writes[if i == 0 then n - 1 else i - 1];
    }
  }

  lemma RotateQueue(s: State)
    requires QueueOk(s) && s.writes != []
    ensures QueueOk(Rotate(s))
  {
    hide PerKey, Rotate;
    RotatedAt(s);
    var s', n := Rotate(s), |s.writes|;
    RotatedHistory(s);
    forall i, j | 0 <= i < j < n && s'.writes[i].key == s'.writes[j].key
      ensures s'.writes[i].dvSeq != s'.writes[j].dvSeq
    {
      var a, b := Shifted(n, i), Shifted(n, j);
      assert if a < b then s.writes[a].dvSeq != s.writes[b].dvSeq else s.writes[b].dvSeq != s.writes[a].dvSeq;
    }
  }

  lemma RotatedHistory(s: State)
    requires s.writes != []
    ensures Rotate(s).accepted == s.accepted && Rotate(s).executed == s.executed
    ensures Rotate(s).orders == s.orders && Rotate(s).busy == s.busy
  {
  }

  lemma RotateWriters(s: State)
    requires WritersOk(s) && s.writes != []
    ensures WritersOk(Rotate(s))
  {
    hide PerKey, Rotate;
    RotatedAt(s);
    RotatedHistory(s);
    assert forall w :: IsWriting(Rotate(s), w) <==> IsWriting(s, w);
  }

  lemma RotateKeeps(c: Config, s: State)
    requires WriteInv(c, s) && s.writes != []
    ensures WriteInv(c, Rotate(s))
  {
    hide KeyOk, QueueOk, WritersOk;
    RotateQueue(s);
    RotateWriters(s);
    RotatedAt(s);
    SameHistory(s, Rotate(s));
  }

  lemma BeginFetchKeeps(c: Config, s: State, worker: nat, pick: nat)
    requires WriteInv(c, s) && pick < |s.prefetches| && worker < c.threads && worker !in s.busy
    ensures WriteInv(c, BeginFetch(s, worker, pick))
  {
    hide QueueOk, WritersOk, KeyOk, PerKey;
    var s' := BeginFetch(s, worker, pick);
    SilentKeeps(s, s');
    assert Left(s'.busy) == Left(s.busy);
  }

  lemma BeginWriteQueues(s: State, worker: nat)
    requires QueueOk(s) && WritersOk(s) && s.writes != [] && Eligible(s, 0) && worker !in s.busy
    ensures QueueOk(BeginWrite(s, worker)) && WritersOk(BeginWrite(s, worker))
  {
    hide PerKey;
    var s' := BeginWrite(s, worker);
    assert forall i :: 0 <= i < |s'.writes| ==> s'.writes[i] == s.writes[i + 1];
    assert forall w :: IsWriting(s', w) <==> IsWriting(s, w) || w == worker;
    assert Genuine(s, s.writes[0]);
  }

  lemma BeginWriteKeeps(c: Config, s: State, worker: nat)
    requires WriteInv(c, s) && s.writes != [] && Eligible(s, 0) && worker < c.threads && worker !in s.busy
    ensures WriteInv(c, BeginWrite(s, worker))
  {
    hide QueueOk, WritersOk, KeyOk, PerKey;
    var s' := BeginWrite(s, worker);
    BeginWriteQueues(s, worker);
    assert Left(s'.busy) == Left(s.busy);
    forall i | 0 <= i < |s.writes|
      ensures s.writes[i] in s'.writes || exists v :: IsWriting(s', v) && s'.busy[v].write == s.writes[i]
    {
      if i == 0 {
        assert IsWriting(s', worker);
      } else {
        assert s'.writes[i - 1] == s.writes[i];
      }
    }
    SameHistory(s, s');
  }

  lemma ReturnQueues(s: State, worker: nat)
    requires QueueOk(s) && WritersOk(s) && IsWriting(s, worker)
    ensures QueueOk(ReturnFrom(s, worker)) && WritersOk(ReturnFrom(s, worker))
  {
    hide PerKey;
    var s', k := ReturnFrom(s, worker), s.busy[worker].write.key;
    assert forall w :: IsWriting(s', w) <==> IsWriting(s, w) && w != worker;
    assert forall j :: j != k ==> OrderOf(s', j) == OrderOf(s, j);
    forall i | 0 <= i < |s.writes| ensures OrderOf(s', s.writes[i].key).exec <= s.writes[i].dvSeq {
      assert s.writes[i].key == k ==> s.writes[i].dvSeq != s.busy[worker].write.dvSeq;
    }
  }

  lemma ReturnKey(s: State, worker: nat, j: Key)
    requires WritersOk(s) && IsWriting(s, worker) && KeyOk(s, j)
    ensures KeyOk(ReturnFrom(s, worker), j)
  {
    var s', w := ReturnFrom(s, worker), s.busy[worker].write;
    assert s'.executed[..|s.executed|] == s.executed;
    assert Genuine(s, w);
    if j == w.key {
      var all, exec := PerKey(s.accepted, j), OrderOf(s, j).exec;
      assert all[..exec + 1] == all[..exec] + [all[exec]];
    }
    forall n: nat | OrderOf(s', j).exec <= n < OrderOf(s', j).next ensures Outstanding(s', j, n) {
      assert Outstanding(s, j, n);
      if v :| IsWriting(s, v) && s.busy[v].write.key == j && s.busy[v].write.dvSeq == n {
        assert v != worker;
        assert IsWriting(s', v);
      }
    }
  }

  lemma ReturnCounters(c: Config, s: State, worker: nat)
    requires CountersOk(c, s) && worker in s.busy && !s.busy[worker].Leaving?
    ensures CountersOk(c, ReturnFrom(s, worker))
  {
    var s' := ReturnFrom(s, worker);
    assert s'.busy.Keys == s.busy.Keys;
    if s.busy[worker].Writing? {
      assert Left(s'.busy) == Left(s.busy) + {worker} && worker !in Left(s.busy);
    } else {
      assert Left(s'.busy) == Left(s.busy);
    }
  }

  lemma ReturnKeeps(c: Config, s: State, worker: nat)
    requires WriteInv(c, s) && worker in s.busy && !s.busy[worker].Leaving?
    ensures WriteInv(c, ReturnFrom(s, worker))
  {
    hide QueueOk, WritersOk, CountersOk, KeyOk, PerKey;
    ReturnCounters(c, s, worker);
    if s.busy[worker].Writing? {
      ReturnQueues(s, worker);
      forall j ensures KeyOk(ReturnFrom(s, worker), j) {
        ReturnKey(s, worker, j);
      }
    } else {
      SilentKeeps(s, ReturnFrom(s, worker));
    }
  }

  lemma RetireCounters(c: Config, s: State, worker: nat)
    requires CountersOk(c, s) && worker in s.busy && s.busy[worker].Leaving?
    ensures CountersOk(c, RetireWorker(s, worker))
  {
    var s' := RetireWorker(s, worker);
    assert s'.busy.Keys == s.busy.Keys - {worker};
    assert Left(s'.busy) == Left(s.busy) - {worker};
    assert worker in Left(s.busy) <==> s.busy[worker].wrote;
  }

  lemma RetireKeeps(c: Config, s: State, worker: nat)
    requires WriteInv(c, s) && worker in s.busy && s.busy[worker].Leaving?
    ensures WriteInv(c, RetireWorker(s, worker))
  {
    hide QueueOk, WritersOk, KeyOk, CountersOk;
    RetireCounters(c, s, worker);
    SilentKeeps(s, RetireWorker(s, worker));
  }

  lemma WriteStepKeeps(c: Config, s: State, step: Step)
    requires WriteInv(c, s) && Enabled(c, s, step)
    ensures WriteInv(c, Apply(c, s, step))
  {
    hide QueueOk, WritersOk, KeyOk, PerKey;
    match step
    case Submit(k, handle, callback) => SubmitKeeps(c, s, k, handle, callback);
    case SubmitFetch(p) => SilentKeeps(s, SubmitPrefetch(s, p));
    case Shutdown => SilentKeeps(s, s.(shutdown := true));
    case Return(worker) => ReturnKeeps(c, s, worker);
    case Retire(worker) => RetireKeeps(c, s, worker);
    case Try(worker, pick) =>
      if s.writes != [] && Eligible(s, 0) {
        BeginWriteKeeps(c, s, worker);
      } else {
        var s' := if s.writes != [] then Rotate(s) else s;
        if s.writes != [] {
          RotateKeeps(c, s);
        }
        if s.prefetches != [] {
          BeginFetchKeeps(c, s', worker, pick);
        }
      }
  }

  // One worker's job changes the callbacks by that job.
  lemma {:induction false} CallbacksChange(busy: map<nat, Job>, busy': map<nat, Job>, worker: nat, n: nat, p: Prefetch)
    requires forall w :: w != worker ==> FetchOf(busy', w) == FetchOf(busy, w)
    ensures InCallbacks(busy', n)[p] + (if worker < n then FetchOf(busy, worker)[p] else 0)
         == InCallbacks(busy, n)[p] + if worker < n then FetchOf(busy', worker)[p] else 0
  {
    hide FetchOf;
    if n > 0 {
      CallbacksChange(busy, busy', worker, n - 1, p);
    }
  }

  // A step of one worker conserves prefetches if, for each of them, what it
  // adds in one place it takes from another.
  lemma MoveConserves(c: Config, s: State, s': State, worker: nat)
    requires Conserved(c, s) && worker < c.threads && s'.fetchesAccepted == s.fetchesAccepted
    requires forall w :: w != worker ==> FetchOf(s'.busy, w) == FetchOf(s.busy, w)
    requires forall p: Prefetch ::
      multiset(s'.prefetches)[p] + FetchOf(s'.busy, worker)[p] + multiset(s'.fetchesRun)[p]
      == multiset(s.prefetches)[p] + FetchOf(s.busy, worker)[p] + multiset(s.fetchesRun)[p]
    ensures Conserved(c, s')
  {
    hide InCallbacks, FetchOf;
    var there := multiset(s'.prefetches) + InCallbacks(s'.busy, c.threads) + multiset(s'.fetchesRun);
    forall p: Prefetch ensures multiset(s'.fetchesAccepted)[p] == there[p] {
      CallbacksChange(s.busy, s'.busy, worker, c.threads, p);
      assert multiset(s.fetchesAccepted)[p]
          == multiset(s.prefetches)[p] + InCallbacks(s.busy, c.threads)[p] + multiset(s.fetchesRun)[p];
    }
  }

  lemma TakeOne(prefetches: seq<Prefetch>, pick: nat)
    requires pick < |prefetches|
    ensures multiset(prefetches) == multiset(prefetches[..pick] + prefetches[pick + 1..]) + multiset{prefetches[pick]}
  {
    assert prefetches == prefetches[..pick] + [prefetches[pick]] + prefetches[pick + 1..];
  }

  lemma BeginFetchConserves(c: Config, s: State, worker: nat, pick: nat)
    requires FetchesOk(c, s) && pick < |s.prefetches| && worker < c.threads && worker !in s.busy
    ensures FetchesOk(c, BeginFetch(s, worker, pick))
  {
    hide Conserved;
    var s' := BeginFetch(s, worker, pick);
    TakeOne(s.prefetches, pick);
    MoveConserves(c, s, s', worker);
    assert LeftFetch(s'.busy) == LeftFetch(s.busy);
  }

  lemma BeginWriteConserves(c: Config, s: State, worker: nat)
    requires FetchesOk(c, s) && s.writes != [] && worker !in s.busy && worker < c.threads
    ensures FetchesOk(c, BeginWrite(s, worker))
  {
    hide Conserved;
    var s' := BeginWrite(s, worker);
    MoveConserves(c, s, s', worker);
    assert LeftFetch(s'.busy) == LeftFetch(s.busy);
  }

  lemma ReturnCounted(s: State, worker: nat)
    requires FetchesCounted(s) && worker in s.busy && !s.busy[worker].Leaving?
    ensures FetchesCounted(ReturnFrom(s, worker))
  {
    var s' := ReturnFrom(s, worker);
    if s.busy[worker].Fetching? {
      assert LeftFetch(s'.busy) == LeftFetch(s.busy) + {worker} && worker !in LeftFetch(s.busy);
    } else {
      assert LeftFetch(s'.busy) == LeftFetch(s.busy);
    }
  }

  lemma ReturnConserves(c: Config, s: State, worker: nat)
    requires FetchesOk(c, s) && worker in s.busy && !s.busy[worker].Leaving? && worker < c.threads
    ensures FetchesOk(c, ReturnFrom(s, worker))
  {
    hide Conserved, FetchesCounted, OrderOf;
    var s' := ReturnFrom(s, worker);
    ReturnCounted(s, worker);
    if s.busy[worker].Fetching? {
      assert s'.fetchesRun == s.fetchesRun + [s.busy[worker].prefetch];
      assert multiset(s'.fetchesRun) == multiset(s.fetchesRun) + multiset{s.busy[worker].prefetch};
    }
    MoveConserves(c, s, s', worker);
  }

  lemma RetireConserves(c: Config, s: State, worker: nat)
    requires FetchesOk(c, s) && worker in s.busy && s.busy[worker].Leaving? && worker < c.threads
    ensures FetchesOk(c, RetireWorker(s, worker))
  {
    hide Conserved;
    var s' := RetireWorker(s, worker);
    MoveConserves(c, s, s', worker);
    assert LeftFetch(s'.busy) == LeftFetch(s.busy) - {worker};
    assert worker in LeftFetch(s.busy) <==> !s.busy[worker].wrote;
  }

  lemma SubmitFetchConserves(c: Config, s: State, p: Prefetch)
    requires FetchesOk(c, s)
    ensures FetchesOk(c, SubmitPrefetch(s, p))
  {
    hide InCallbacks, LeftFetch;
  }

  lemma FetchStepKeeps(c: Config, s: State, step: Step)
    requires FetchesOk(c, s) && CountersOk(c, s) && Enabled(c, s, step)
    ensures FetchesOk(c, Apply(c, s, step))
  {
    hide InCallbacks, LeftFetch, Eligible;
    match step
    case SubmitFetch(p) => SubmitFetchConserves(c, s, p);
    case Return(worker) => ReturnConserves(c, s, worker);
    case Retire(worker) => RetireConserves(c, s, worker);
    case Try(worker, pick) =>
      if s.writes != [] && Eligible(s, 0) {
        BeginWriteConserves(c, s, worker);
      } else if s.prefetches != [] {
        assert pick < |s.prefetches|;
        BeginFetchConserves(c, if s.writes != [] then Rotate(s) else s, worker, pick);
      }
    case _ =>
  }

  lemma StepKeeps(c: Config, s: State, step: Step)
    requires Inv(c, s) && Enabled(c, s, step)
    ensures Inv(c, Apply(c, s, step))
  {
    hide QueueOk, WritersOk, KeyOk, CountersOk, FetchesOk;
    WriteStepKeeps(c, s, step);
    FetchStepKeeps(c, s, step);
  }

  lemma {:induction false} RunKeeps(c: Config, s: State, steps: seq<Step>)
    requires Inv(c, s) && Runs(c, s, steps)
    ensures Inv(c, Execute(c, s, steps))
    decreases |steps|
  {
    if steps != [] {
      StepKeeps(c, s, steps[0]);
      RunKeeps(c, Apply(c, s, steps[0]), steps[1..]);
    }
  }

  // ----- what the protocol promises -----

  // A queued write of the key with this number.
  ghost predicate InQueue(s: State, i: nat, k: Key, n: nat) {
    i < |s.writes| && s.writes[i].key == k && s.writes[i].dvSeq == n
  }

  ghost predicate InCallback(s: State, worker: nat, k: Key, n: nat) {
    IsWriting(s, worker) && s.busy[worker].write.key == k && s.busy[worker].write.dvSeq == n
  }

  // Each number of the key is in one place at most: once in the queue, or in
  // one worker's callback.
  ghost predicate InOnePlace(s: State, k: Key, n: nat) {
    && (forall i, j :: InQueue(s, i, k, n) && InQueue(s, j, k, n) ==> i == j)
    && (forall v, w :: InCallback(s, v, k, n) && InCallback(s, w, k, n) ==> v == w)
    && (forall i, w :: InQueue(s, i, k, n) ==> !InCallback(s, w, k, n))
  }

  lemma QueuedOnce(s: State, i: nat, j: nat, k: Key, n: nat)
    requires QueueOk(s) && InQueue(s, i, k, n) && InQueue(s, j, k, n)
    ensures i >= j
  {
    hide Genuine;
  }

  lemma NumbersInOnePlace(s: State, k: Key, n: nat)
    requires QueueOk(s) && WritersOk(s)
    ensures InOnePlace(s, k, n)
  {
    hide Genuine, QueueOk;
    forall i: nat, j: nat | InQueue(s, i, k, n) && InQueue(s, j, k, n) ensures i == j {
      QueuedOnce(s, i, j, k, n);
      QueuedOnce(s, j, i, k, n);
    }
  }

  lemma OutstandingInRange(s: State, k: Key, n: nat)
    requires QueueOk(s) && WritersOk(s) && KeyOk(s, k) && Outstanding(s, k, n)
    ensures OrderOf(s, k).exec <= n < OrderOf(s, k).next
  {
    hide PerKey;
    if w :| IsWriting(s, w) && s.busy[w].write.key == k && s.busy[w].write.dvSeq == n {
      assert Genuine(s, s.busy[w].write);
    } else {
      var i :| 0 <= i < |s.writes| && s.writes[i].key == k && s.writes[i].dvSeq == n;
      assert Genuine(s, s.writes[i]);
    }
  }

  // However workers and submitters interleave, and whether or not callbacks
  // throw: per key, the callbacks that have run are the first submissions, in
  // submission order, each once; at most one is running; and the numbers
  // still queued or running are exactly those from exec_seq to next_seq, each
  // in one place.
  lemma WritesRunInOrder(c: Config, steps: seq<Step>, k: Key)
    requires Runs(c, IDLE, steps)
    ensures var s := Execute(c, IDLE, steps);
      && PerKey(s.executed, k) <= PerKey(s.accepted, k)
      && (forall n: nat :: n < |PerKey(s.executed, k)| ==> PerKey(s.executed, k)[n].dvSeq == n)
      && (forall v, w :: IsWriting(s, v) && IsWriting(s, w) && s.busy[v].write.key == s.busy[w].write.key ==> v == w)
      && (forall n: nat :: OrderOf(s, k).exec <= n < OrderOf(s, k).next <==> Outstanding(s, k, n))
      && (forall n: nat :: InOnePlace(s, k, n))
  {
    hide QueueOk, CountersOk, Outstanding, InOnePlace, PerKey, Runs, Execute;
    IdleKeeps(c);
    RunKeeps(c, IDLE, steps);
    var s := Execute(c, IDLE, steps);
    assert KeyOk(s, k);
    forall n: nat
      ensures InOnePlace(s, k, n)
      ensures Outstanding(s, k, n) ==> OrderOf(s, k).exec <= n < OrderOf(s, k).next
    {
      NumbersInOnePlace(s, k, n);
      if Outstanding(s, k, n) {
        OutstandingInRange(s, k, n);
      }
    }
  }

  // A submission answered Ok is enqueued exactly when the pool is not shut
  // down; a full queue changes nothing, not even the next number.
  lemma AcceptedUnlessShutdown(c: Config, s: State, k: Key, handle: nat, callback: nat)
    ensures var (s', code, dvSeq) := SubmitWrite(c, s, k, handle, callback);
      && (code.Ok? ==> (s'.accepted == s.accepted + [Write(k, dvSeq, handle, callback)] <==> !s.shutdown))
      && (code.QueueFull? <==> !s.shutdown && |s.writes| >= c.capacity)
      && (code.QueueFull? || s.shutdown ==> s' == s)
  {
    var w := Write(k, 0, handle, callback);
    assert |s.accepted + [w]| == |s.accepted| + 1;
  }

  lemma {:induction false} RunsPrefix(c: Config, s: State, steps: seq<Step>)
    requires steps != [] && Runs(c, s, steps)
    ensures var n := |steps| - 1;
      && Runs(c, s, steps[..n]) && Enabled(c, Execute(c, s, steps[..n]), steps[n])
      && Execute(c, s, steps) == Apply(c, Execute(c, s, steps[..n]), steps[n])
    decreases |steps|
  {
    var n := |steps| - 1;
    if n == 0 {
      assert steps[..n] == [] && steps[1..] == [];
    } else {
      RunsPrefix(c, Apply(c, s, steps[0]), steps[1..]);
      assert steps[..n][1..] == steps[1..][..n - 1] && steps[..n][0] == steps[0];
    }
  }

  function Submissions(log: seq<Write>): seq<Step> {
    seq(|log|, i requires 0 <= i < |log| => Submit(log[i].key, log[i].handle, log[i].callback))
  }

  // Before any shutdown, and with room in the queue.
  ghost predicate Admits(c: Config, s: State, before: seq<Step>, step: Step) {
    step.Submit? && Shutdown !in before && |s.writes| < c.capacity
  }

  // The submissions of a run made before any shutdown and while the queue had
  // room.
  ghost function Admitted(c: Config, steps: seq<Step>): seq<Step>
    requires Runs(c, IDLE, steps)
    decreases |steps|
  {
    if steps == [] then []
    else
      var n := |steps| - 1;
      RunsPrefix(c, IDLE, steps);
      var last := if Admits(c, Execute(c, IDLE, steps[..n]), steps[..n], steps[n]) then [steps[n]] else [];
      Admitted(c, steps[..n]) + last
  }

  lemma AdmittedLast(c: Config, steps: seq<Step>)
    requires steps != [] && Runs(c, IDLE, steps)
    ensures var n := |steps| - 1;
      && Runs(c, IDLE, steps[..n])
      && Admitted(c, steps) == Admitted(c, steps[..n])
           + if Admits(c, Execute(c, IDLE, steps[..n]), steps[..n], steps[n]) then [steps[n]] else []
  {
    hide Admits, Execute, Enabled, Apply;
    RunsPrefix(c, IDLE, steps);
  }

  lemma NothingAccepted(c: Config)
    ensures Runs(c, IDLE, []) && Submissions(Execute(c, IDLE, []).accepted) == Admitted(c, [])
    ensures !Execute(c, IDLE, []).shutdown
  {
  }

  lemma AcceptedStep(c: Config, s: State, step: Step)
    requires Enabled(c, s, step)
    ensures var taken := step.Submit? && !s.shutdown && |s.writes| < c.capacity;
      Submissions(Apply(c, s, step).accepted) == Submissions(s.accepted) + if taken then [step] else []
    ensures Apply(c, s, step).shutdown <==> s.shutdown || step.Shutdown?
  {
    hide Eligible;
  }

  // Over any run, what was accepted is exactly those submissions, in order:
  // whatever code a caller saw, nothing is enqueued after shutdown.
  lemma {:induction false} AcceptedOverRun(c: Config, steps: seq<Step>)
    requires Runs(c, IDLE, steps)
    ensures Submissions(Execute(c, IDLE, steps).accepted) == Admitted(c, steps)
    ensures Execute(c, IDLE, steps).shutdown <==> Shutdown in steps
    decreases |steps|
  {
    hide Enabled, Apply, Submissions, Runs, Execute, Admitted;
    if steps == [] {
      NothingAccepted(c);
    } else {
      var n := |steps| - 1;
      RunsPrefix(c, IDLE, steps);
      AdmittedLast(c, steps);
      AcceptedOverRun(c, steps[..n]);
      AcceptedStep(c, Execute(c, IDLE, steps[..n]), steps[n]);
      assert steps == steps[..n] + [steps[n]];
    }
  }

  ghost predicate NoWriter(s: State) {
    forall w :: !IsWriting(s, w)
  }

  // Writes are never stuck: with the queue non-empty and no write running,
  // some queued task's turn has come.
  lemma SomeTaskEligible(c: Config, s: State) returns (i: nat)
    requires Inv(c, s) && s.writes != [] && NoWriter(s)
    ensures i < |s.writes| && Eligible(s, i)
  {
    var k := s.writes[0].key;
    assert KeyOk(s, k) && Genuine(s, s.writes[0]);
    assert Outstanding(s, k, OrderOf(s, k).exec);
    i :| 0 <= i < |s.writes| && s.writes[i].key == k && s.writes[i].dvSeq == OrderOf(s, k).exec;
  }

  function Tries(steps: seq<Step>): nat
    decreases |steps|
  {
    if steps == [] then 0 else Tries(steps[1..]) + if steps[0].Try? then 1 else 0
  }

  // The write is inside its callback or has returned from it.
  ghost predicate Started(s: State, w: Write) {
    || (exists v :: IsWriting(s, v) && s.busy[v].write == w)
    || OrderOf(s, w.key).exec > w.dvSeq
  }

  lemma StartedStays(c: Config, s: State, step: Step, w: Write)
    requires WritersOk(s) && Enabled(c, s, step) && Started(s, w)
    ensures Started(Apply(c, s, step), w)
  {
    if OrderOf(s, w.key).exec <= w.dvSeq {
      var v :| IsWriting(s, v) && s.busy[v].write == w;
      assert step == Return(v) || IsWriting(Apply(c, s, step), v);
    }
  }

  lemma {:induction false} StartedForever(c: Config, s: State, steps: seq<Step>, w: Write)
    requires Inv(c, s) && Runs(c, s, steps) && Started(s, w)
    ensures Started(Execute(c, s, steps), w)
    decreases |steps|
  {
    if steps != [] {
      StepKeeps(c, s, steps[0]);
      StartedStays(c, s, steps[0], w);
      StartedForever(c, Apply(c, s, steps[0]), steps[1..], w);
    }
  }

  // A write whose turn has come moves one place forward with every try, and
  // starts when it is in front; nothing else moves it or takes its turn.
  lemma TurnStays(c: Config, s: State, step: Step, i: nat)
    requires WritersOk(s) && Enabled(c, s, step) && i < |s.writes| && Eligible(s, i)
    ensures var s' := Apply(c, s, step);
      if step.Try? && i == 0 then Started(s', s.writes[i])
      else var j := if step.Try? then i - 1 else i;
        j < |s'.writes| && s'.writes[j] == s.writes[i] && Eligible(s', j)
  {
    var s' := Apply(c, s, step);
    if step.Try? && i == 0 {
      assert IsWriting(s', step.worker) && s'.busy[step.worker].write == s.writes[0];
    }
    if step.Return? && s.busy[step.worker].Writing? {
      assert IsWriting(s, step.worker);
      assert s.writes[i].key != s.busy[step.worker].write.key;
    }
  }

  // Rotation: a write whose turn has come starts within as many tries as
  // there are tasks in front of it, whatever else the workers and submitters
  // do in between.
  lemma {:induction false} RotationFindsWork(c: Config, s: State, steps: seq<Step>, i: nat)
    requires Inv(c, s) && Runs(c, s, steps) && i < |s.writes| && Eligible(s, i) && Tries(steps) > i
    ensures Started(Execute(c, s, steps), s.writes[i])
    decreases |steps|
  {
    var s' := Apply(c, s, steps[0]);
    StepKeeps(c, s, steps[0]);
    TurnStays(c, s, steps[0], i);
    if steps[0].Try? && i == 0 {
      StartedForever(c, s', steps[1..], s.writes[i]);
    } else {
      RotationFindsWork(c, s', steps[1..], if steps[0].Try? then i - 1 else i);
    }
  }

  // ----- completion -----

  ghost predicate KeyIdle(s: State, k: Key) {
    forall w :: IsWriting(s, w) ==> s.busy[w].write.key != k
  }

  // A lap for a key: as many tries as the queue can hold, at the end of which
  // no write of the key is running. Submissions may arrive throughout.
  ghost predicate Lap(c: Config, s: State, k: Key, steps: seq<Step>) {
    Runs(c, s, steps) && Tries(steps) >= c.capacity && KeyIdle(Execute(c, s, steps), k)
  }

  ghost predicate Laps(c: Config, s: State, k: Key, laps: seq<seq<Step>>)
    decreases |laps|
  {
    laps == [] || (Lap(c, s, k, laps[0]) && Laps(c, Execute(c, s, laps[0]), k, laps[1..]))
  }

  ghost function AfterLaps(c: Config, s: State, k: Key, laps: seq<seq<Step>>): State
    requires Laps(c, s, k, laps)
    decreases |laps|
  {
    if laps == [] then s else AfterLaps(c, Execute(c, s, laps[0]), k, laps[1..])
  }

  lemma {:induction false} OrdersGrow(c: Config, s: State, steps: seq<Step>, k: Key)
    requires Runs(c, s, steps)
    ensures OrderOf(s, k).exec <= OrderOf(Execute(c, s, steps), k).exec
    ensures OrderOf(s, k).next <= OrderOf(Execute(c, s, steps), k).next
    decreases |steps|
  {
    if steps != [] {
      OrdersGrow(c, Apply(c, s, steps[0]), steps[1..], k);
    }
  }

  // With nothing of the key running, its oldest unexecuted write is queued,
  // and its turn has come.
  lemma OldestIsQueued(c: Config, s: State, k: Key) returns (i: nat)
    requires Inv(c, s) && KeyIdle(s, k) && OrderOf(s, k).exec < OrderOf(s, k).next
    ensures i < |s.writes| <= c.capacity && Eligible(s, i)
    ensures s.writes[i].key == k && s.writes[i].dvSeq == OrderOf(s, k).exec
  {
    assert KeyOk(s, k);
    assert Outstanding(s, k, OrderOf(s, k).exec);
    i :| 0 <= i < |s.writes| && s.writes[i].key == k && s.writes[i].dvSeq == OrderOf(s, k).exec;
  }

  // So a lap executes at least one more write of a key that has one.
  lemma LapAdvances(c: Config, s: State, k: Key, steps: seq<Step>)
    requires Inv(c, s) && KeyIdle(s, k) && Lap(c, s, k, steps) && OrderOf(s, k).exec < OrderOf(s, k).next
    ensures OrderOf(Execute(c, s, steps), k).exec > OrderOf(s, k).exec
  {
    var i := OldestIsQueued(c, s, k);
    RotationFindsWork(c, s, steps, i);
  }

  // Per key, and however many submissions keep arriving: an accepted write
  // has run after as many laps as there are unexecuted writes up to it.
  lemma {:induction false} KeyCompletes(c: Config, s: State, k: Key, laps: seq<seq<Step>>, n: nat)
    requires Inv(c, s) && KeyIdle(s, k) && Laps(c, s, k, laps)
    requires n < OrderOf(s, k).next && |laps| > n - OrderOf(s, k).exec
    ensures var s' := AfterLaps(c, s, k, laps); Inv(c, s') && n < |PerKey(s'.executed, k)|
    decreases |laps|
  {
    if laps == [] {
      assert KeyOk(s, k);
    } else {
      var s' := Execute(c, s, laps[0]);
      RunKeeps(c, s, laps[0]);
      OrdersGrow(c, s, laps[0], k);
      if OrderOf(s, k).exec < OrderOf(s, k).next {
        LapAdvances(c, s, k, laps[0]);
      }
      KeyCompletes(c, s', k, laps[1..], n);
    }
  }

  // ----- draining -----

  // What drain() waits for.
  predicate Drained(s: State) {
    s.writes == [] && s.prefetches == [] && s.inFlight == 0
  }

  lemma NothingOutstanding(c: Config, s: State)
    requires Inv(c, s) && NoWriter(s) && s.writes == []
    ensures forall k :: PerKey(s.executed, k) == PerKey(s.accepted, k)
  {
    forall k ensures PerKey(s.executed, k) == PerKey(s.accepted, k) {
      assert KeyOk(s, k);
      assert !Outstanding(s, k, OrderOf(s, k).exec);
    }
  }

  // ----- prefetches -----

  // The prefetches a run submits before any shutdown.
  function FetchesSubmitted(steps: seq<Step>): seq<Prefetch>
    decreases |steps|
  {
    if steps == [] || steps[0].Shutdown? then []
    else (if steps[0].SubmitFetch? then [steps[0].fetch] else []) + FetchesSubmitted(steps[1..])
  }

  lemma FetchesAcceptedStep(c: Config, s: State, step: Step)
    requires Enabled(c, s, step)
    ensures Apply(c, s, step).shutdown <==> s.shutdown || step.Shutdown?
    ensures Apply(c, s, step).fetchesAccepted
         == s.fetchesAccepted + if step.SubmitFetch? && !s.shutdown then [step.fetch] else []
  {
    hide Eligible, Nearest;
  }

  lemma {:induction false} NoneAfterShutdown(c: Config, s: State, steps: seq<Step>)
    requires Runs(c, s, steps) && s.shutdown
    ensures Execute(c, s, steps).fetchesAccepted == s.fetchesAccepted
    decreases |steps|
  {
    hide Enabled, Apply;
    if steps != [] {
      FetchesAcceptedStep(c, s, steps[0]);
      NoneAfterShutdown(c, Apply(c, s, steps[0]), steps[1..]);
    }
  }

  lemma Joined<T>(whole: seq<T>, a: seq<T>, b: seq<T>, rest: seq<T>)
    requires whole == a + b + rest
    ensures whole == a + (b + rest)
  {
  }

  lemma {:induction false} FetchesAcceptedOver(c: Config, s: State, steps: seq<Step>)
    requires Runs(c, s, steps) && !s.shutdown
    ensures Execute(c, s, steps).fetchesAccepted == s.fetchesAccepted + FetchesSubmitted(steps)
    decreases |steps|
  {
    hide Enabled, Apply;
    if steps != [] {
      var s' := Apply(c, s, steps[0]);
      FetchesAcceptedStep(c, s, steps[0]);
      if steps[0].Shutdown? {
        NoneAfterShutdown(c, s', steps[1..]);
      } else {
        FetchesAcceptedOver(c, s', steps[1..]);
        Joined(Execute(c, s', steps[1..]).fetchesAccepted, s.fetchesAccepted,
               if steps[0].SubmitFetch? then [steps[0].fetch] else [], FetchesSubmitted(steps[1..]));
      }
    }
  }

  // Over every run, the prefetches submitted before shutdown are, each as
  // often as it was submitted, queued, inside a callback, or run; the counter
  // says how many have run and been counted. So a drained pool has run each
  // of them once.
  lemma PrefetchesRunOnce(c: Config, steps: seq<Step>)
    requires Runs(c, IDLE, steps)
    ensures var s := Execute(c, IDLE, steps);
      && multiset(FetchesSubmitted(steps))
         == multiset(s.prefetches) + InCallbacks(s.busy, c.threads) + multiset(s.fetchesRun)
      && s.prefetchesCompleted + |LeftFetch(s.busy)| == |s.fetchesRun|
    ensures var s := Execute(c, IDLE, steps);
      Drained(s) ==>
        multiset(s.fetchesRun) == multiset(FetchesSubmitted(steps)) &&
        s.prefetchesCompleted == |FetchesSubmitted(steps)|
  {
    hide WriteInv, Runs, Execute, FetchesSubmitted, InCallbacks;
    IdleKeeps(c);
    RunKeeps(c, IDLE, steps);
    FetchesAcceptedOver(c, IDLE, steps);
    var s := Execute(c, IDLE, steps);
    if Drained(s) {
      DrainedMeansRun(c, s);
    }
  }

  lemma DrainedMeansRun(c: Config, s: State)
    requires Inv(c, s) && Drained(s)
    ensures s.busy == map[] && multiset(s.fetchesRun) == multiset(s.fetchesAccepted)
    ensures s.prefetchesCompleted == |s.fetchesAccepted|
  {
    hide QueueOk, WritersOk, KeyOk;
    assert s.busy == map[] && LeftFetch(s.busy) == {};
    NobodyFetching(c.threads);
    SameSize(s.fetchesRun, s.fetchesAccepted);
  }

  lemma SameSize<T>(a: seq<T>, b: seq<T>)
    requires multiset(a) == multiset(b)
    ensures |a| == |b|
  {
    assert |multiset(a)| == |a| && |multiset(b)| == |b|;
  }

  // The write in front, if there is one, is the next of its key.
  predicate FrontTurn(s: State) {
    s.writes != [] && s.writes[0].dvSeq == OrderOf(s, s.writes[0].key).exec
  }

  // What a try may have started: the write in front when its turn has come,
  // and otherwise a queued prefetch none of the others is nearer than. What
  // was started is what left its queue.
  ghost predicate MayStart(s: State, s': State, job: Job) {
    match job
    case Writing(w) =>
      FrontTurn(s) && s.writes == [w] + s'.writes && s'.prefetches == s.prefetches
    case Fetching(p) =>
      && !FrontTurn(s) && multiset(s'.writes) == multiset(s.writes)
      && multiset(s'.prefetches) + multiset{p} == multiset(s.prefetches)
      && forall q :: q in s.prefetches ==> p.distance <= q.distance
    case Leaving(_) => false
  }

  lemma RotateSame(s: State)
    requires s.writes != []
    ensures multiset(Rotate(s).writes) == multiset(s.writes) && |Rotate(s).writes| == |s.writes|
    ensures Rotate(s).prefetches == s.prefetches && Rotate(s).busy == s.busy
  {
    assert s.writes == [s.writes[0]] + s.writes[1..];
  }

  lemma BeginFetchTakes(s: State, worker: nat, pick: nat)
    requires worker !in s.busy && Nearest(s.prefetches, pick)
    ensures var s', p := BeginFetch(s, worker, pick), s.prefetches[pick];
      && s'.writes == s.writes && s'.busy == s.busy[worker := Fetching(p)] && s'.busy - {worker} == s.busy
      && multiset(s'.prefetches) + multiset{p} == multiset(s.prefetches)
      && forall q :: q in s.prefetches ==> p.distance <= q.distance
  {
    TakeOne(s.prefetches, pick);
    assert s.busy[worker := Fetching(s.prefetches[pick])] - {worker} == s.busy;
  }

  lemma StartsFetch(s: State, worker: nat, pick: nat)
    requires worker !in s.busy && Nearest(s.prefetches, pick) && !FrontTurn(s)
    ensures var s' := TryExecute(s, worker, pick);
      worker in s'.busy && s'.busy - {worker} == s.busy && MayStart(s, s', s'.busy[worker])
  {
    hide OrderOf, BeginFetch, Rotate, Nearest;
    if s.writes != [] {
      RotateSame(s);
      BeginFetchTakes(Rotate(s), worker, pick);
    } else {
      BeginFetchTakes(s, worker, pick);
    }
  }

  // A worker stays idle exactly when no prefetch is queued and no write, or
  // one whose turn has not come, is in front.
  lemma TryStarts(c: Config, s: State, worker: nat, pick: nat)
    requires Enabled(c, s, Try(worker, pick))
    ensures var s' := Apply(c, s, Try(worker, pick));
      && s'.busy - {worker} == s.busy && (worker in s'.busy <==> FrontTurn(s) || s.prefetches != [])
      && (if worker in s'.busy then MayStart(s, s', s'.busy[worker])
          else s'.prefetches == s.prefetches == [] && multiset(s'.writes) == multiset(s.writes))
  {
    hide OrderOf, Nearest;
    if FrontTurn(s) {
      assert s.writes == [s.writes[0]] + s.writes[1..];
    } else if s.prefetches != [] {
      StartsFetch(s, worker, pick);
    } else if s.writes != [] {
      RotateSame(s);
    }
  }
}
