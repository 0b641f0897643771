// The worker pool's queues, ordering states and counters as fields that the
// lock-protected sections update. Each section is one atomic step of the
// protocol in WriteOrdering; a worker's callback runs between BeginOne and
// EndCallback with no pool lock held.
module WorkerPools {
  import opened WriteOrdering

  class WorkerPool {
    const config: Config
    var writeQueue: seq<Write>
    var prefetchQueue: seq<Prefetch>
    var dvStates: map<Key, Order>
    var busy: map<nat, Job>
    var inFlight: nat
    var writesCompleted: nat
    var prefetchesCompleted: nat
    var shutdown: bool
    ghost var accepted: seq<Write>
    ghost var executed: seq<Write>
    ghost var fetchesAccepted: seq<Prefetch>
    ghost var fetchesRun: seq<Prefetch>

    ghost function Snapshot(): State
      reads this
    {
      State(writeQueue, prefetchQueue, dvStates, busy, inFlight, writesCompleted, prefetchesCompleted, shutdown,
            accepted, executed, fetchesAccepted, fetchesRun)
    }

    constructor (config: Config)
      ensures this.config == config && Snapshot() == IDLE && Inv(config, Snapshot())
    {
      this.config := config;
      writeQueue, prefetchQueue, dvStates, busy := [], [], map[], map[];
      inFlight, writesCompleted, prefetchesCompleted, shutdown := 0, 0, 0, false;
      accepted, executed, fetchesAccepted, fetchesRun := [], [], [], [];
      new;
      IdleKeeps(config);
    }

    method GetDvState(key: Key) returns (order: Order)
      ensures order == OrderOf(Snapshot(), key)
    {
      if key in dvStates {
        order := dvStates[key];
      } else {
        order := Order(0, 0);
      }
    }

    method SubmitWriteTask(key: Key, handle: nat, callback: nat) returns (code: Code, dvSeq: nat)
      requires Inv(config, Snapshot())
      modifies this
      ensures (Snapshot(), code, dvSeq) == SubmitWrite(config, old(Snapshot()), key, handle, callback)
      ensures Inv(config, Snapshot())
    {
      hide Inv;
      StepKeeps(config, Snapshot(), Submit(key, handle, callback));
      if shutdown {
        return Ok, 0;
      }
      if |writeQueue| >= config.capacity {
        return QueueFull, 0;
      }
      var order := GetDvState(key);
      dvSeq := order.next;
      dvStates := dvStates[key := order.(next := dvSeq + 1)];
      writeQueue := writeQueue + [Write(key, dvSeq, handle, callback)];
      accepted := accepted + [Write(key, dvSeq, handle, callback)];
      code := Ok;
    }

    method SubmitPrefetchTask(p: Prefetch)
      requires Inv(config, Snapshot())
      modifies this
      ensures Snapshot() == SubmitPrefetch(old(Snapshot()), p) && Inv(config, Snapshot())
    {
      hide Inv;
      StepKeeps(config, Snapshot(), SubmitFetch(p));
      if !shutdown {
        prefetchQueue := prefetchQueue + [p];
        fetchesAccepted := fetchesAccepted + [p];
      }
    }

    method TakePrefetch(worker: nat, pick: nat)
      requires pick < |prefetchQueue|
      modifies this
      ensures Snapshot() == BeginFetch(old(Snapshot()), worker, pick)
    {
      busy := busy[worker := Fetching(prefetchQueue[pick])];
      prefetchQueue := prefetchQueue[..pick] + prefetchQueue[pick + 1..];
      inFlight := inFlight + 1;
    }

    // The locked half of one execution attempt by an idle worker; pick is the
    // entry the priority queue has on top. False means no task was started.
    method BeginOne(worker: nat, pick: nat) returns (started: bool)
      requires Inv(config, Snapshot()) && Enabled(config, Snapshot(), Try(worker, pick))
      modifies this
      ensures Snapshot() == TryExecute(old(Snapshot()), worker, pick) && Inv(config, Snapshot())
      ensures started <==> worker in busy
    {
      hide Inv;
      StepKeeps(config, Snapshot(), Try(worker, pick));
      if writeQueue != [] {
        var task := writeQueue[0];
        writeQueue := writeQueue[1..];
        var order := GetDvState(task.key);
        if task.dvSeq != order.exec {
          writeQueue := writeQueue + [task];
          if prefetchQueue != [] {
            TakePrefetch(worker, pick);
            return true;
          }
          return false;
        }
        busy := busy[worker := Writing(task)];
        inFlight := inFlight + 1;
        return true;
      }
      if prefetchQueue != [] {
        TakePrefetch(worker, pick);
        return true;
      }
      return false;
    }

    // The callback is over; whether it threw makes no difference here.
    method EndCallback(worker: nat)
      requires Inv(config, Snapshot()) && Enabled(config, Snapshot(), Return(worker))
      modifies this
      ensures Snapshot() == ReturnFrom(old(Snapshot()), worker) && Inv(config, Snapshot())
    {
      hide Inv;
      StepKeeps(config, Snapshot(), Return(worker));
      match busy[worker] {
        case Writing(w) =>
          var order := GetDvState(w.key);
          dvStates := dvStates[w.key := order.(exec := order.exec + 1)];
          executed := executed + [w];
          busy := busy[worker := Leaving(true)];
        case Fetching(p) =>
          fetchesRun := fetchesRun + [p];
          busy := busy[worker := Leaving(false)];
      }
    }

    static lemma BusyInFlight(config: Config, s: State, worker: nat)
      requires Inv(config, s) && worker in s.busy
      ensures s.inFlight > 0
    {
      hide QueueOk, WritersOk, KeyOk;
      assert |s.busy.Keys| > 0;
    }

    method FinishOne(worker: nat)
      requires Inv(config, Snapshot()) && Enabled(config, Snapshot(), Retire(worker))
      modifies this
      ensures Snapshot() == RetireWorker(old(Snapshot()), worker) && Inv(config, Snapshot())
    {
      hide Inv;
      StepKeeps(config, Snapshot(), Retire(worker));
      BusyInFlight(config, Snapshot(), worker);
      if busy[worker].wrote {
        writesCompleted := writesCompleted + 1;
      } else {
        prefetchesCompleted := prefetchesCompleted + 1;
      }
      inFlight := inFlight - 1;
      busy := busy - {worker};
    }

    // What drain() waits for. It means every accepted write has run.
    method IsDrained() returns (drained: bool)
      requires Inv(config, Snapshot())
      ensures drained <==> Drained(Snapshot())
      ensures drained <==> writeQueue == [] && prefetchQueue == [] && busy == map[]
      ensures drained ==> writesCompleted == |executed| && forall k :: PerKey(executed, k) == PerKey(accepted, k)
      ensures drained ==> multiset(fetchesRun) == multiset(fetchesAccepted) && prefetchesCompleted == |fetchesRun|
    {
      drained := writeQueue == [] && prefetchQueue == [] && inFlight == 0;
      assert inFlight == 0 <==> busy == map[];
      if drained {
        assert Left(busy) == {};
        NothingOutstanding(config, Snapshot());
        DrainedMeansRun(config, Snapshot());
      }
    }
  }
}
