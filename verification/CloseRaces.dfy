// Which reads under way can still end with a view of a dataset whose close
// has passed its guard: exactly when a view of the dataset can appear without
// a new read of it.
module CloseRaces {
  import opened Collections
  import opened Staging
  import opened Prefetching
  import opened Ownership
  import opened ReadPath
  import opened ReadRuns

  // A run without new reads of the dataset ends with a view of it.
  ghost predicate CanBeViewed(s: State, dataset: nat) {
    exists steps :: Runs(s, steps) && NoNewRead(s, steps, dataset) && Viewed(Execute(s, steps), dataset)
  }

  lemma ViewedNow(s: State, dataset: nat)
    requires Viewed(s, dataset)
    ensures CanBeViewed(s, dataset)
  {
    assert Runs(s, []) && NoNewRead(s, [], dataset) && Execute(s, []) == s;
  }

  lemma Then(s: State, step: Step, dataset: nat)
    requires Enabled(s, step) && !Reads(s, step, dataset) && CanBeViewed(After(s, step), dataset)
    ensures CanBeViewed(s, dataset)
  {
    hide Enabled, After, Viewed, Reads;
    var s' := After(s, step);
    var steps :| Runs(s', steps) && NoNewRead(s', steps, dataset) && Viewed(Execute(s', steps), dataset);
    var all := [step] + steps;
    assert all[0] == step && all[1..] == steps;
    assert Runs(s, all) && NoNewRead(s, all, dataset) && Execute(s, all) == Execute(s', steps);
  }

  lemma HandCanBeViewed(s: State, reader: nat)
    requires reader in s.hands
    ensures CanBeViewed(s, s.hands[reader].dataset)
  {
    hide CanBeViewed, Enabled, Viewed;
    var token := FreshToken(s.tokens);
    MintsView(s, reader, token);
    ViewedNow(After(s, Mint(reader, token)), s.hands[reader].dataset);
    Then(s, Mint(reader, token), s.hands[reader].dataset);
  }

  // A read of timestep t of variable v, which is of the dataset.
  ghost predicate WaitsFor(s: State, reader: nat, dataset: nat, v: nat, t: int) {
    && reader in s.waiting && s.waiting[reader].v == v && s.waiting[reader].t == t
    && v < |s.vars| && s.vars[v].dataset == dataset
  }

  ghost predicate NotAlone(s: State, reader: nat) {
    reader in s.waiting
    && exists other :: other != reader && other in s.waiting
         && s.waiting[other].v == s.waiting[reader].v && s.waiting[other].t == s.waiting[reader].t
  }

  // A waiting read can get a buffer if its timestep is staged or past the
  // cancellation check, or if it can still be scheduled: the queue is not
  // cancelled, and a failure recorded for the timestep has somebody else to
  // go to.
  ghost predicate Hopeful(q: Queue, t: int, alone: bool) {
    Busy(q, t) || (!q.cancelled && (t in q.failed ==> !alone))
  }

  // Somebody is past the queue, holds a view, or waits and can get a buffer.
  ghost predicate Live(s: State, dataset: nat) {
    || (exists r :: r in s.hands && s.hands[r].dataset == dataset)
    || Viewed(s, dataset)
    || (exists r, v, t :: WaitsFor(s, r, dataset, v, t) && Hopeful(Q(s, v), t, !NotAlone(s, r)))
  }

  // ----- a read that can get a buffer does, in some run -----

  lemma StagedCanBeViewed(s: State, reader: nat, d: nat, v: nat, t: int)
    requires WaitsFor(s, reader, d, v, t) && t in Q(s, v).completed
    ensures CanBeViewed(s, d)
  {
    hide CanBeViewed;
    var s' := After(s, Expire(reader));
    assert reader in s'.hands && s'.hands[reader].dataset == d;
    HandCanBeViewed(s', reader);
    Then(s, Expire(reader), d);
  }

  lemma FetchedCanBeViewed(s: State, reader: nat, d: nat, v: nat, t: int)
    requires PathInv(s) && WaitsFor(s, reader, d, v, t) && t in Q(s, v).tasks && Q(s, v).tasks[t].Reading?
    ensures CanBeViewed(s, d)
  {
    hide CanBeViewed, Inv, Records, Owned, HeldIn, Fill, Bytes;
    var step := Finish(v, t, Returned(0));
    FetchCanFinish(s, v, t, Returned(0));
    var s' := After(s, step);
    assert t in Q(s', v).completed && WaitsFor(s', reader, d, v, t);
    StagedCanBeViewed(s', reader, d, v, t);
    Then(s, step, d);
  }

  // The read's fetch is past the cancellation check and wants a buffer.
  ghost predicate Acquires(s: State, reader: nat, d: nat, v: nat, t: int) {
    PathInv(s) && WaitsFor(s, reader, d, v, t) && t in Q(s, v).tasks && Q(s, v).tasks[t].Acquiring?
  }

  lemma RoomToGrab(s: State, v: nat, t: int)
    requires PathInv(s) && Enabled(s, Grab(v, t)) && !Exhausted(s.pool)
    ensures var s' := After(s, Grab(v, t));
      && s'.waiting == s.waiting && |s'.vars| == |s.vars| && s'.vars[v].dataset == s.vars[v].dataset
      && t in Q(s', v).tasks && Q(s', v).tasks[t].Reading?
  {
    hide Inv, Records, Owned, HeldIn, Exhausted, Acquire, AcquireBytes, Granted;
    AcquireMeaning(s.pool, AcquireBytes(s.vars[v].src, Q(s, v).tasks[t].sel, s.pool.nominal));
  }

  lemma RoomCanBeViewed(s: State, reader: nat, d: nat, v: nat, t: int)
    requires Acquires(s, reader, d, v, t) && !Exhausted(s.pool)
    ensures CanBeViewed(s, d)
  {
    hide CanBeViewed, PathInv, Exhausted, AcquireFor;
    RoomToGrab(s, v, t);
    StepKeeps(s, Grab(v, t));
    FetchedCanBeViewed(After(s, Grab(v, t)), reader, d, v, t);
    Then(s, Grab(v, t), d);
  }

  // No step but its own takes the read out of this state.
  ghost predicate LeavesAlone(step: Step, reader: nat, v: nat, t: int) {
    && step != Grab(v, t) && step != Look(reader) && step != GiveUp(reader) && step != Expire(reader)
  }

  lemma TasksStay(q: Queue, p: IndexedPool, t: int, u: int, req: Selection)
    requires QueueInv(q) && t in q.tasks && q.tasks[t].Acquiring?
    ensures forall q' :: q' == Latch(q, req) || q' == Schedule(q, u) || q' == Cancelled(q) ==>
      t in q'.tasks && q'.tasks[t] == q.tasks[t]
    ensures u in q.tasks && q.tasks[u].Queued? ==>
      var q' := CheckCancelled(q, u); t in q'.tasks && q'.tasks[t] == q.tasks[t]
    ensures Collect(q, p, u, req).0.tasks == q.tasks && CollectAfterTimeout(q, u).0.tasks == q.tasks
  {
    hide BboxSame, Drop;
  }

  lemma TaskStays(q: Queue, p: IndexedPool, src: Source, t: int, u: int, o: Outcome)
    requires t in q.tasks && q.tasks[t].Acquiring? && u in q.tasks && u != t
    ensures q.tasks[u].Acquiring? ==>
      var q' := AcquireFor(q, p, src, u).0; t in q'.tasks && q'.tasks[t] == q.tasks[t]
    ensures q.tasks[u].Reading? && InUse(p, q.tasks[u].slot) ==>
      var q' := Deliver(q, p, src, u, o).0; t in q'.tasks && q'.tasks[t] == q.tasks[t]
  {
    hide Acquire, AcquireBytes, Fill, Drop;
  }

  ghost predicate SameTask(s: State, s': State, v: nat, t: int)
    requires v < |s.vars| && t in Q(s, v).tasks
  {
    && |s'.vars| >= |s.vars| && s'.vars[v].dataset == s.vars[v].dataset
    && t in Q(s', v).tasks && Q(s', v).tasks[t] == Q(s, v).tasks[t]
  }

  ghost predicate KeepsTask(q: Queue, q': Queue, t: int) {
    t in q.tasks ==> t in q'.tasks && q'.tasks[t] == q.tasks[t]
  }

  lemma SetKeepsTask(s: State, u: nat, q: Queue, p: IndexedPool, v: nat, t: int)
    requires HasTask(s, v, t) && u < |s.vars| && (u == v ==> KeepsTask(Q(s, v), q, t))
    ensures SameTask(s, WithQueue(s, u, q), v, t) && SameTask(s, WithQueue(s, u, q).(pool := p), v, t)
  {
  }

  lemma FetchStepKeepsTask(s: State, step: Step, v: nat, t: int)
    requires HasTask(s, v, t) && Q(s, v).tasks[t].Acquiring? && QueueInv(Q(s, v))
    requires Enabled(s, step) && FetchStep(step) && step != Grab(v, t)
    ensures SameTask(s, After(s, step), v, t) && After(s, step).waiting == s.waiting
  {
    hide SameTask, AcquireFor, Deliver, DropAll, Schedule, CheckCancelled, Cancelled, QueueInv;
    match step
    case ScheduleFetch(u, k) =>
      TasksStay(Q(s, v), s.pool, t, k, None);
      SetKeepsTask(s, u, Schedule(Q(s, u), k), s.pool, v, t);
    case Check(u, k) =>
      TasksStay(Q(s, v), s.pool, t, k, None);
      SetKeepsTask(s, u, CheckCancelled(Q(s, u), k), s.pool, v, t);
    case Grab(u, k) => GrabKeepsTask(s, u, k, v, t);
    case Finish(u, k, o) => FinishKeepsTask(s, u, k, o, v, t);
    case Cancel(u) =>
      TasksStay(Q(s, v), s.pool, t, t, None);
      SetKeepsTask(s, u, Cancelled(Q(s, u)), DropAll(Q(s, u).completed, s.pool), v, t);
  }

  lemma GrabKeepsTask(s: State, u: nat, k: int, v: nat, t: int)
    requires HasTask(s, v, t) && Q(s, v).tasks[t].Acquiring? && Enabled(s, Grab(u, k)) && (u, k) != (v, t)
    ensures SameTask(s, After(s, Grab(u, k)), v, t)
  {
    hide SameTask;
    if u == v {
      TaskStays(Q(s, v), s.pool, s.vars[v].src, t, k, Returned(0));
    }
    var (q, p) := AcquireFor(Q(s, u), s.pool, s.vars[u].src, k);
    SetKeepsTask(s, u, q, p, v, t);
  }

  lemma FinishKeepsTask(s: State, u: nat, k: int, o: Outcome, v: nat, t: int)
    requires HasTask(s, v, t) && Q(s, v).tasks[t].Acquiring? && Enabled(s, Finish(u, k, o))
    ensures SameTask(s, After(s, Finish(u, k, o)), v, t)
  {
    hide SameTask, Deliver;
    if u == v {
      TaskStays(Q(s, v), s.pool, s.vars[v].src, t, k, o);
    }
    var (q, p) := Deliver(Q(s, u), s.pool, s.vars[u].src, k, o);
    SetKeepsTask(s, u, q, p, v, t);
  }

  lemma TakenKeepsTask(s: State, reader: nat, late: bool, result: (Queue, Pool, Taken), v: nat, t: int)
    requires HasTask(s, v, t) && reader in s.waiting && s.waiting[reader].v < |s.vars| && Indexed(result.1)
    requires s.waiting[reader].v == v ==> KeepsTask(Q(s, v), result.0, t)
    ensures SameTask(s, AfterLook(s, reader, late, result), v, t)
    ensures forall r :: r != reader && r in s.waiting ==>
      var w := AfterLook(s, reader, late, result).waiting; r in w && w[r] == s.waiting[r]
  {
    hide Indexed, Have;
    SetKeepsTask(s, s.waiting[reader].v, result.0, result.1, v, t);
  }

  lemma LookKeepsTask(s: State, step: Step, v: nat, t: int)
    requires HasTask(s, v, t) && Q(s, v).tasks[t].Acquiring? && QueueInv(Q(s, v))
    requires Enabled(s, step) && (step.Look? || step.Expire?)
    ensures SameTask(s, After(s, step), v, t)
    ensures forall r :: r != step.reader && r in s.waiting ==>
      r in After(s, step).waiting && After(s, step).waiting[r] == s.waiting[r]
  {
    hide SameTask, QueueInv, Collect, CollectAfterTimeout;
    var req := s.waiting[step.reader];
    TasksStay(Q(s, v), s.pool, t, req.t, req.sel);
    if step.Look? {
      TakenKeepsTask(s, step.reader, false, Collect(Q(s, req.v), s.pool, req.t, req.sel), v, t);
    } else {
      var (q, taken) := CollectAfterTimeout(Q(s, req.v), req.t);
      TakenKeepsTask(s, step.reader, true, (q, s.pool, taken), v, t);
    }
  }

  lemma StillAcquires(s: State, step: Step, reader: nat, d: nat, v: nat, t: int)
    requires Acquires(s, reader, d, v, t) && Enabled(s, step) && LeavesAlone(step, reader, v, t)
    ensures Acquires(After(s, step), reader, d, v, t)
  {
    hide PathInv, Collect, CollectAfterTimeout, AcquireFor, Deliver, DropAll;
    StepKeeps(s, step);
    InvQueueAt(s, v);
    if FetchStep(step) {
      FetchStepKeepsTask(s, step, v, t);
    } else if step.Look? || step.Expire? {
      LookKeepsTask(s, step, v, t);
    }
  }

  // ----- making room -----

  lemma FreeSlotIsRoom(p: Pool, i: nat)
    requires i < |p.buffers| && !InUse(p, i)
    ensures !Exhausted(p)
  {
  }

  lemma StepThenRoom(s: State, step: Step, reader: nat, d: nat, v: nat, t: int, i: nat)
    requires Acquires(s, reader, d, v, t) && Enabled(s, step) && LeavesAlone(step, reader, v, t) && !step.Ask?
    requires i < |After(s, step).pool.buffers| && !InUse(After(s, step).pool, i)
    ensures CanBeViewed(s, d)
  {
    hide Acquires, Enabled, After, CanBeViewed, Exhausted, InUse;
    StillAcquires(s, step, reader, d, v, t);
    FreeSlotIsRoom(After(s, step).pool, i);
    RoomCanBeViewed(After(s, step), reader, d, v, t);
    Then(s, step, d);
  }

  // The slot is inside the driver: that fetch may fail.
  lemma FetchMakesRoom(s: State, reader: nat, d: nat, v: nat, t: int, u: nat, k: int)
    requires Acquires(s, reader, d, v, t) && HasTask(s, u, k) && Q(s, u).tasks[k].Reading?
    ensures CanBeViewed(s, d)
  {
    hide Inv, Records, Owned, HeldIn, CanBeViewed, Fill, Drop, InUse;
    var o := Threw([], 0);
    FetchHolds(s, u, k);
    FetchCanFinish(s, u, k, o);
    var slot := Q(s, u).tasks[k].slot;
    Delivered(s.pool, s.vars[u].src, k, Q(s, u).tasks[k].sel, slot, o);
    DroppedLength(s.pool, s.vars[u].src, k, Q(s, u).tasks[k].sel, slot, o);
    StepThenRoom(s, Finish(u, k, o), reader, d, v, t, slot);
  }

  lemma DroppedLength(p: Pool, src: Source, k: int, sel: Selection, slot: nat, o: Outcome)
    requires Inv(p) && InUse(p, slot) && p.buffers[slot].refs == 1
    ensures slot < |Drop(Fill(p, slot, Bytes(src, k, sel, o), o.used), slot).buffers|
  {
    FillKeeps(p, slot, Bytes(src, k, sel, o), o.used);
    DropKeeps(Fill(p, slot, Bytes(src, k, sel, o), o.used), slot);
  }

  lemma ViewMakesRoom(s: State, reader: nat, d: nat, v: nat, t: int, token: nat)
    requires Acquires(s, reader, d, v, t) && token in s.views
    ensures CanBeViewed(s, d)
  {
    hide PathInv, CanBeViewed, WaitsFor;
    if token in s.counted {
      CountedViewMakesRoom(s, reader, d, v, t, token);
    } else {
      var step := CountView(token);
      StillAcquires(s, step, reader, d, v, t);
      CountedViewMakesRoom(After(s, step), reader, d, v, t, token);
      Then(s, step, d);
    }
  }

  lemma CountedViewMakesRoom(s: State, reader: nat, d: nat, v: nat, t: int, token: nat)
    requires Acquires(s, reader, d, v, t) && token in s.views && token in s.counted
    ensures CanBeViewed(s, d)
  {
    hide Inv, Records, Owned, CanBeViewed, Drop, InUse;
    assert Held(s)(View(token)).Some?;
    DropHeld(s, View(token));
    DroppedSlot(s, token);
    StepThenRoom(s, ReleaseView(token), reader, d, v, t, s.views[token].slot);
  }

  lemma DroppedSlot(s: State, token: nat)
    requires Inv(s.pool) && Owned(s.pool, Held(s)) && token in s.views
    ensures s.views[token].slot < |Drop(s.pool, s.views[token].slot).buffers|
  {
    hide Inv;
    assert Held(s)(View(token)).Some?;
    DropKeeps(s.pool, s.views[token].slot);
  }

  lemma HandMakesRoom(s: State, reader: nat, d: nat, v: nat, t: int, other: nat)
    requires Acquires(s, reader, d, v, t) && other in s.hands
    ensures CanBeViewed(s, d)
  {
    hide PathInv, CanBeViewed, WaitsFor;
    var token := FreshToken(s.tokens);
    var step := Mint(other, token);
    StillAcquires(s, step, reader, d, v, t);
    ViewMakesRoom(After(s, step), reader, d, v, t, token);
    Then(s, step, d);
  }

  lemma FreshReader(s: State) returns (reader: nat)
    ensures reader !in s.waiting && reader !in s.hands
  {
    reader := FreshToken(s.waiting.Keys + s.hands.Keys);
  }

  // A record staged for another dataset: a reader of that one takes it.
  lemma ForeignEntryMakesRoom(s: State, reader: nat, d: nat, v: nat, t: int, u: nat, k: int)
    requires Acquires(s, reader, d, v, t) && u < |s.vars| && s.vars[u].dataset != d && k in Q(s, u).completed
    ensures CanBeViewed(s, d)
  {
    hide PathInv, CanBeViewed;
    var other := FreshReader(s);
    var ask, take := Ask(other, Request(u, k, None)), Expire(other);
    StillAcquires(s, ask, reader, d, v, t);
    var s1 := After(s, ask);
    assert k in Q(s1, u).completed && other in s1.waiting && other != reader;
    StillAcquires(s1, take, reader, d, v, t);
    assert other in After(s1, take).hands;
    HandMakesRoom(After(s1, take), reader, d, v, t, other);
    Then(s1, take, d);
    Then(s, ask, d);
  }

  // A record staged for the dataset itself: its close cancels the queue.
  lemma CancelMakesRoom(s: State, reader: nat, d: nat, v: nat, t: int, u: nat, k: int)
    requires Acquires(s, reader, d, v, t) && u < |s.vars| && s.vars[u].dataset == d && k in Q(s, u).completed
    requires d in s.closing
    ensures CanBeViewed(s, d)
  {
    hide Inv, Records, Owned, HeldIn, CanBeViewed, DropAll, HeldOnce;
    EntriesHeldOnce(s, u);
    DropAllKeeps(Q(s, u).completed, s.pool);
    var slot := Q(s, u).completed[k];
    EntrySlot(s, u, k);
    assert Stages(Q(s, u).completed, slot);
    StepThenRoom(s, Cancel(u), reader, d, v, t, slot);
  }

  lemma EntrySlot(s: State, u: nat, k: int)
    requires Owned(s.pool, Held(s)) && u < |s.vars| && k in Q(s, u).completed
    ensures InUse(s.pool, Q(s, u).completed[k])
  {
    assert Held(s)(Entry(u, k)).Some?;
  }

  lemma CountZero(s: State, d: nat)
    requires Records(s) && d in s.outstanding && CountedOf(s.counted, d) == {}
    ensures s.outstanding[d] == 0
  {
  }

  lemma CountedIsGone(s: State, d: nat, token: nat)
    requires Records(s) && !Viewed(s, d) && token in CountedOf(s.counted, d)
    ensures Enabled(s, Uncount(token))
        && CountedOf(After(s, Uncount(token)).counted, d) == CountedOf(s.counted, d) - {token}
    ensures After(s, Uncount(token)).views == s.views
  {
    hide Viewed;
    NoneViewed(s, d);
  }

  lemma NoneViewed(s: State, d: nat)
    ensures !Viewed(s, d) <==> forall k :: k in s.views ==> s.views[k].dataset != d
  {
  }

  lemma VarDataset(s: State, v: nat)
    requires Records(s) && v < |s.vars|
    ensures s.vars[v].dataset in s.outstanding
  {
  }

  // Views released and not yet uncounted are uncounted, the guard passes, and
  // the queue is cancelled.
  lemma {:induction false} OwnEntryMakesRoom(s: State, reader: nat, d: nat, v: nat, t: int, u: nat, k: int)
    requires Acquires(s, reader, d, v, t) && u < |s.vars| && s.vars[u].dataset == d && k in Q(s, u).completed
    requires !Viewed(s, d)
    ensures CanBeViewed(s, d)
    decreases |CountedOf(s.counted, d)|
  {
    hide Inv, Records, Owned, HeldIn, CanBeViewed, CountedOf;
    if d in s.closing {
      CancelMakesRoom(s, reader, d, v, t, u, k);
    } else if CountedOf(s.counted, d) == {} {
      VarDataset(s, u);
      CountZero(s, d);
      StillAcquires(s, CheckClose(d), reader, d, v, t);
      CancelMakesRoom(After(s, CheckClose(d)), reader, d, v, t, u, k);
      Then(s, CheckClose(d), d);
    } else {
      var token := Pick(CountedOf(s.counted, d));
      CountedIsGone(s, d, token);
      StillAcquires(s, Uncount(token), reader, d, v, t);
      OwnEntryMakesRoom(After(s, Uncount(token)), reader, d, v, t, u, k);
      Then(s, Uncount(token), d);
    }
  }

  lemma SomeOwner(s: State) returns (o: Owner)
    requires PathInv(s) && s.pool.buffers != [] && Exhausted(s.pool)
    ensures Held(s)(o).Some?
  {
    hide Inv, Records, HeldIn;
    assert InUse(s.pool, 0);
    o :| Held(s)(o).Some? && Held(s)(o).value.slot == 0;
  }

  // Whoever holds a slot of a full pool can let go of it, without a new read
  // of the dataset.
  lemma AcquiresCanBeViewed(s: State, reader: nat, d: nat, v: nat, t: int)
    requires Acquires(s, reader, d, v, t) && s.pool.buffers != []
    ensures CanBeViewed(s, d)
  {
    hide PathInv, CanBeViewed, Exhausted, WaitsFor, Viewed;
    if !Exhausted(s.pool) {
      RoomCanBeViewed(s, reader, d, v, t);
    } else if Viewed(s, d) {
      ViewedNow(s, d);
    } else {
      var o := SomeOwner(s);
      match o
      case Fetch(u, k) => FetchMakesRoom(s, reader, d, v, t, u, k);
      case Entry(u, k) =>
        if s.vars[u].dataset == d {
          OwnEntryMakesRoom(s, reader, d, v, t, u, k);
        } else {
          ForeignEntryMakesRoom(s, reader, d, v, t, u, k);
        }
      case Hand(other) => HandMakesRoom(s, reader, d, v, t, other);
      case View(token) => ViewMakesRoom(s, reader, d, v, t, token);
    }
  }

  // ----- the others never do -----

  lemma HopelessStays(q: Queue, t: int, alone: bool, u: int, req: Selection)
    requires QueueInv(q) && !Hopeful(q, t, alone)
    ensures !Hopeful(Latch(q, req), t, alone) && !Hopeful(Schedule(q, u), t, alone) && !Hopeful(Cancelled(q), t, alone)
    ensures u in q.tasks && q.tasks[u].Queued? ==> !Hopeful(CheckCancelled(q, u), t, alone)
  {
  }

  lemma HopelessFetches(q: Queue, t: int, alone: bool, u: int, p: IndexedPool, src: Source, o: Outcome)
    requires QueueInv(q) && !Hopeful(q, t, alone)
    ensures u in q.tasks && q.tasks[u].Acquiring? ==> !Hopeful(AcquireFor(q, p, src, u).0, t, alone)
    ensures u in q.tasks && q.tasks[u].Reading? && InUse(p, q.tasks[u].slot) ==>
        !Hopeful(Deliver(q, p, src, u, o).0, t, alone)
  {
    hide Acquire, AcquireBytes, Fill, Drop;
  }

  // A look for the same timestep comes from another reader.
  lemma HopelessLooks(q: Queue, t: int, alone: bool, u: int, p: IndexedPool, req: Selection)
    requires QueueInv(q) && !Hopeful(q, t, alone) && (u == t ==> !alone)
    ensures !Hopeful(Collect(q, p, u, req).0, t, alone) && !Hopeful(CollectAfterTimeout(q, u).0, t, alone)
  {
    hide BboxSame, Drop;
  }

  lemma HopelessTakesNothing(q: Queue, t: int, alone: bool, p: IndexedPool, req: Selection)
    requires !Hopeful(q, t, alone)
    ensures !Collect(q, p, t, req).2.Got? && !CollectAfterTimeout(q, t).1.Got?
  {
    hide BboxSame, Drop;
  }

  lemma SetHopeless(s: State, u: nat, q: Queue, p: IndexedPool, v: nat, t: int, alone: bool)
    requires v < |s.vars| && u < |s.vars| && !Hopeful(Q(s, v), t, alone) && (u == v ==> !Hopeful(q, t, alone))
    ensures !Hopeful(Q(WithQueue(s, u, q), v), t, alone) && !Hopeful(Q(WithQueue(s, u, q).(pool := p), v), t, alone)
  {
    hide Hopeful;
  }

  lemma FetchStepHopeless(s: State, step: Step, v: nat, t: int, alone: bool)
    requires v < |s.vars| && QueueInv(Q(s, v)) && !Hopeful(Q(s, v), t, alone) && Enabled(s, step) && FetchStep(step)
    ensures !Hopeful(Q(After(s, step), v), t, alone)
  {
    hide Hopeful, QueueInv, Deliver, DropAll, Schedule, CheckCancelled, Cancelled;
    match step
    case ScheduleFetch(u, k) =>
      HopelessStays(Q(s, v), t, alone, k, None);
      SetHopeless(s, u, Schedule(Q(s, u), k), s.pool, v, t, alone);
    case Check(u, k) =>
      HopelessStays(Q(s, v), t, alone, k, None);
      SetHopeless(s, u, CheckCancelled(Q(s, u), k), s.pool, v, t, alone);
    case Grab(u, k) =>
      HopelessFetches(Q(s, v), t, alone, k, s.pool, s.vars[v].src, Returned(0));
      var (q, p) := AcquireFor(Q(s, u), s.pool, s.vars[u].src, k);
      SetHopeless(s, u, q, p, v, t, alone);
    case Finish(u, k, o) =>
      HopelessFetches(Q(s, v), t, alone, k, s.pool, s.vars[v].src, o);
      var (q, p) := Deliver(Q(s, u), s.pool, s.vars[u].src, k, o);
      SetHopeless(s, u, q, p, v, t, alone);
    case Cancel(u) =>
      HopelessStays(Q(s, v), t, alone, t, None);
      SetHopeless(s, u, Cancelled(Q(s, u)), DropAll(Q(s, u).completed, s.pool), v, t, alone);
  }

  lemma TakenHopeless(s: State, reader: nat, late: bool, result: (Queue, Pool, Taken), v: nat, t: int, alone: bool)
    requires v < |s.vars| && !Hopeful(Q(s, v), t, alone) && Indexed(result.1)
    requires reader in s.waiting && s.waiting[reader].v < |s.vars|
    requires s.waiting[reader].v == v ==> !Hopeful(result.0, t, alone)
    ensures !Hopeful(Q(AfterLook(s, reader, late, result), v), t, alone)
  {
    hide Hopeful, Have;
    SetHopeless(s, s.waiting[reader].v, result.0, result.1, v, t, alone);
  }

  lemma LookHopeless(s: State, step: Step, v: nat, t: int, alone: bool)
    requires v < |s.vars| && QueueInv(Q(s, v)) && !Hopeful(Q(s, v), t, alone)
    requires Enabled(s, step) && (step.Look? || step.Expire?)
    requires s.waiting[step.reader].v == v && s.waiting[step.reader].t == t ==> !alone
    ensures !Hopeful(Q(After(s, step), v), t, alone)
  {
    hide Hopeful, QueueInv, Collect, CollectAfterTimeout;
    var req := s.waiting[step.reader];
    if req.v == v {
      HopelessLooks(Q(s, v), t, alone, req.t, s.pool, req.sel);
    }
    if step.Look? {
      TakenHopeless(s, step.reader, false, Collect(Q(s, req.v), s.pool, req.t, req.sel), v, t, alone);
    } else {
      var (q, taken) := CollectAfterTimeout(Q(s, req.v), req.t);
      TakenHopeless(s, step.reader, true, (q, s.pool, taken), v, t, alone);
    }
  }

  // Nobody but a new reader starts to wait, and nobody waits for another
  // record than before.
  ghost predicate FewerWait(s: State, s': State, asking: set<nat>) {
    && |s'.vars| >= |s.vars| && (forall v :: 0 <= v < |s.vars| ==> s'.vars[v].dataset == s.vars[v].dataset)
    && (forall r :: r in s'.waiting && r !in asking ==> r in s.waiting && s'.waiting[r] == s.waiting[r])
  }

  function Asking(step: Step): set<nat> {
    if step.Ask? then {step.reader} else {}
  }

  lemma SetFewerWait(s: State, v: nat, q: Queue, p: IndexedPool)
    requires v < |s.vars|
    ensures FewerWait(s, WithQueue(s, v, q), {}) && FewerWait(s, WithQueue(s, v, q).(pool := p), {})
  {
  }

  lemma TakenFewerWait(s: State, reader: nat, late: bool, result: (Queue, Pool, Taken))
    requires reader in s.waiting && s.waiting[reader].v < |s.vars| && Indexed(result.1)
    ensures FewerWait(s, AfterLook(s, reader, late, result), {})
  {
    hide Indexed, Have;
  }

  lemma StepFewerWait(s: State, step: Step)
    requires Enabled(s, step)
    ensures FewerWait(s, After(s, step), Asking(step))
  {
    hide Collect, CollectAfterTimeout, Deliver, DropAll, FewerWait;
    match step
    case ScheduleFetch(v, t) => SetFewerWait(s, v, Schedule(Q(s, v), t), s.pool);
    case Check(v, t) => SetFewerWait(s, v, CheckCancelled(Q(s, v), t), s.pool);
    case Grab(v, t) =>
      var (q, p) := AcquireFor(Q(s, v), s.pool, s.vars[v].src, t);
      SetFewerWait(s, v, q, p);
    case Finish(v, t, o) =>
      var (q, p) := Deliver(Q(s, v), s.pool, s.vars[v].src, t, o);
      SetFewerWait(s, v, q, p);
    case Cancel(v) => SetFewerWait(s, v, Cancelled(Q(s, v)), DropAll(Q(s, v).completed, s.pool));
    case Look(reader) =>
      var req := s.waiting[reader];
      TakenFewerWait(s, reader, false, Collect(Q(s, req.v), s.pool, req.t, req.sel));
    case Expire(reader) =>
      var req := s.waiting[reader];
      var (q, taken) := CollectAfterTimeout(Q(s, req.v), req.t);
      TakenFewerWait(s, reader, true, (q, s.pool, taken));
    case _ => OtherFewerWait(s, step);
  }

  lemma OtherFewerWait(s: State, step: Step)
    requires Enabled(s, step) && !FetchStep(step) && !step.Look? && !step.Expire?
    ensures FewerWait(s, After(s, step), Asking(step))
  {
  }

  lemma NewVar(s: State, step: Step, reader: nat)
    requires PathInv(s) && Enabled(s, step) && reader in s.waiting
    ensures s.waiting[reader].v < |s.vars|
  {
    hide Inv, QueuesOk, AllAnswer, TokensOk, CountsOk, Owned, HeldIn, Enabled;
  }

  lemma AskedVar(s: State, step: Step)
    requires Enabled(s, step) && step.Ask?
    ensures step.req.v < |s.vars| && After(s, step).waiting[step.reader] == step.req
  {
  }

  // Who waits for the dataset after the step waited before, for the same
  // record, and with no less company.
  lemma StillWaits(s: State, step: Step, reader: nat, d: nat, v: nat, t: int)
    requires PathInv(s) && Enabled(s, step) && !Reads(s, step, d) && WaitsFor(After(s, step), reader, d, v, t)
    ensures WaitsFor(s, reader, d, v, t) && (NotAlone(After(s, step), reader) ==> NotAlone(s, reader))
  {
    hide PathInv, Enabled, After;
    StepFewerWait(s, step);
    if step.Ask? {
      AskedVar(s, step);
    }
    if reader in s.waiting {
      NewVar(s, step, reader);
    }
  }

  lemma MissingChangesNothing(s: State, reader: nat)
    requires Enabled(s, Look(reader)) && reader in After(s, Look(reader)).waiting
    requires s.waiting[reader].t !in Q(s, s.waiting[reader].v).completed
    ensures After(s, Look(reader)).vars == s.vars
  {
    hide BboxSame, Drop;
  }

  lemma ExpiredLeaves(s: State, reader: nat)
    requires Enabled(s, Expire(reader))
    ensures reader !in After(s, Expire(reader)).waiting
  {
  }

  lemma LookStaysHopeless(s: State, step: Step, reader: nat, d: nat, v: nat, t: int)
    requires PathInv(s) && Enabled(s, step) && (step.Look? || step.Expire?) && WaitsFor(After(s, step), reader, d, v, t)
    requires v < |s.vars| && !Hopeful(Q(s, v), t, !NotAlone(s, reader)) && WaitsFor(s, reader, d, v, t)
    ensures !Hopeful(Q(After(s, step), v), t, !NotAlone(s, reader))
  {
    hide PathInv, Collect, CollectAfterTimeout;
    InvQueueAt(s, v);
    if step.Expire? {
      ExpiredLeaves(s, step.reader);
    }
    if step.reader == reader {
      MissingChangesNothing(s, reader);
    } else {
      LookHopeless(s, step, v, t, !NotAlone(s, reader));
    }
  }

  lemma WaitStaysHopeless(s: State, step: Step, reader: nat, d: nat, v: nat, t: int)
    requires PathInv(s) && Enabled(s, step) && !Reads(s, step, d) && WaitsFor(After(s, step), reader, d, v, t)
    requires v < |s.vars| && !Hopeful(Q(s, v), t, !NotAlone(s, reader)) && WaitsFor(s, reader, d, v, t)
    ensures !Hopeful(Q(After(s, step), v), t, !NotAlone(s, reader))
  {
    hide PathInv, Hopeful, Collect, CollectAfterTimeout, AcquireFor, Deliver, DropAll;
    InvQueueAt(s, v);
    if FetchStep(step) {
      FetchStepHopeless(s, step, v, t, !NotAlone(s, reader));
    } else if step.Look? || step.Expire? {
      LookStaysHopeless(s, step, reader, d, v, t);
    } else if step.Ask? {
      HopelessStays(Q(s, v), t, !NotAlone(s, reader), t, step.req.sel);
    }
  }

  ghost predicate NoGrants(s: State, d: nat) {
    && (forall r :: r in s.hands ==> s.hands[r].dataset != d)
    && (forall k :: k in s.views ==> s.views[k].dataset != d)
  }

  ghost predicate NoHope(s: State, d: nat) {
    forall r, v, t :: WaitsFor(s, r, d, v, t) ==> !Hopeful(Q(s, v), t, !NotAlone(s, r))
  }

  lemma LiveParts(s: State, d: nat)
    ensures !Live(s, d) <==> NoGrants(s, d) && NoHope(s, d)
  {
  }

  lemma TakenNoGrants(s: State, reader: nat, late: bool, result: (Queue, Pool, Taken), d: nat)
    requires reader in s.waiting && s.waiting[reader].v < |s.vars| && Indexed(result.1) && NoGrants(s, d)
    requires s.vars[s.waiting[reader].v].dataset == d ==> !result.2.Got?
    ensures NoGrants(AfterLook(s, reader, late, result), d)
  {
    hide Indexed, Have;
  }

  lemma LookNoGrants(s: State, step: Step, d: nat)
    requires Enabled(s, step) && (step.Look? || step.Expire?) && NoGrants(s, d) && NoHope(s, d)
    ensures NoGrants(After(s, step), d)
  {
    hide NoGrants, Hopeful, Collect, CollectAfterTimeout;
    var req := s.waiting[step.reader];
    var q := Q(s, req.v);
    if s.vars[req.v].dataset == d {
      assert WaitsFor(s, step.reader, d, req.v, req.t);
      HopelessTakesNothing(q, req.t, !NotAlone(s, step.reader), s.pool, req.sel);
    }
    if step.Look? {
      TakenNoGrants(s, step.reader, false, Collect(q, s.pool, req.t, req.sel), d);
    } else {
      var (q', taken) := CollectAfterTimeout(q, req.t);
      TakenNoGrants(s, step.reader, true, (q', s.pool, taken), d);
    }
  }

  lemma StepNoGrants(s: State, step: Step, d: nat)
    requires Enabled(s, step) && NoGrants(s, d) && NoHope(s, d)
    ensures NoGrants(After(s, step), d)
  {
    hide NoHope, Collect, CollectAfterTimeout, AcquireFor, Deliver, DropAll;
    if step.Look? || step.Expire? {
      LookNoGrants(s, step, d);
    }
  }

  lemma MoreAlone(q: Queue, t: int, alone: bool, after: bool)
    requires !Hopeful(q, t, alone) && (alone ==> after)
    ensures !Hopeful(q, t, after)
  {
  }

  lemma StepNoHope(s: State, step: Step, d: nat)
    requires PathInv(s) && Enabled(s, step) && !Reads(s, step, d) && NoHope(s, d)
    ensures NoHope(After(s, step), d)
  {
    hide PathInv, Enabled, After, Reads, NotAlone, Busy, Hopeful;
    var s' := After(s, step);
    forall r, v, t | WaitsFor(s', r, d, v, t) ensures !Hopeful(Q(s', v), t, !NotAlone(s', r)) {
      StillWaits(s, step, r, d, v, t);
      WaitStaysHopeless(s, step, r, d, v, t);
      MoreAlone(Q(s', v), t, !NotAlone(s, r), !NotAlone(s', r));
    }
  }

  lemma {:induction false} DeadForever(s: State, steps: seq<Step>, d: nat)
    requires PathInv(s) && Runs(s, steps) && NoNewRead(s, steps, d) && NoGrants(s, d) && NoHope(s, d)
    ensures NoGrants(Execute(s, steps), d)
    decreases |steps|
  {
    hide PathInv, Enabled, After, NoGrants, NoHope, Reads;
    if steps != [] {
      StepKeeps(s, steps[0]);
      StepNoGrants(s, steps[0], d);
      StepNoHope(s, steps[0], d);
      DeadForever(After(s, steps[0]), steps[1..], d);
    }
  }

  lemma QueuedCanBeViewed(s: State, reader: nat, d: nat, v: nat, t: int)
    requires PathInv(s) && WaitsFor(s, reader, d, v, t) && s.pool.buffers != []
    requires t in Q(s, v).tasks && Q(s, v).tasks[t].Queued? && !Q(s, v).cancelled
    ensures CanBeViewed(s, d)
  {
    hide PathInv, CanBeViewed;
    StepKeeps(s, Check(v, t));
    AcquiresCanBeViewed(After(s, Check(v, t)), reader, d, v, t);
    Then(s, Check(v, t), d);
  }

  lemma BusyCanBeViewed(s: State, reader: nat, d: nat, v: nat, t: int)
    requires PathInv(s) && WaitsFor(s, reader, d, v, t) && s.pool.buffers != [] && Busy(Q(s, v), t)
    ensures CanBeViewed(s, d)
  {
    hide PathInv, CanBeViewed;
    if t in Q(s, v).completed {
      StagedCanBeViewed(s, reader, d, v, t);
    } else if Q(s, v).tasks[t].Reading? {
      FetchedCanBeViewed(s, reader, d, v, t);
    } else {
      AcquiresCanBeViewed(s, reader, d, v, t);
    }
  }

  lemma ScheduledCanBeViewed(s: State, reader: nat, d: nat, v: nat, t: int)
    requires PathInv(s) && WaitsFor(s, reader, d, v, t) && s.pool.buffers != []
    requires !Q(s, v).cancelled && t !in Q(s, v).failed
    ensures CanBeViewed(s, d)
  {
    hide PathInv, CanBeViewed;
    InvQueueAt(s, v);
    if Busy(Q(s, v), t) {
      BusyCanBeViewed(s, reader, d, v, t);
    } else if t in Q(s, v).tasks {
      QueuedCanBeViewed(s, reader, d, v, t);
    } else {
      StepKeeps(s, ScheduleFetch(v, t));
      QueuedCanBeViewed(After(s, ScheduleFetch(v, t)), reader, d, v, t);
      Then(s, ScheduleFetch(v, t), d);
    }
  }

  // The failure goes to the other reader.
  lemma FailureElsewhere(s: State, reader: nat, d: nat, v: nat, t: int)
    requires PathInv(s) && WaitsFor(s, reader, d, v, t) && s.pool.buffers != []
    requires !Q(s, v).cancelled && t in Q(s, v).failed && NotAlone(s, reader)
    ensures CanBeViewed(s, d)
  {
    hide PathInv, CanBeViewed;
    InvQueueAt(s, v);
    var other :| other != reader && other in s.waiting && s.waiting[other].v == v && s.waiting[other].t == t;
    StepKeeps(s, Expire(other));
    ScheduledCanBeViewed(After(s, Expire(other)), reader, d, v, t);
    Then(s, Expire(other), d);
  }

  lemma HopefulCanBeViewed(s: State, reader: nat, d: nat, v: nat, t: int)
    requires PathInv(s) && WaitsFor(s, reader, d, v, t) && s.pool.buffers != []
    requires Hopeful(Q(s, v), t, !NotAlone(s, reader))
    ensures CanBeViewed(s, d)
  {
    hide PathInv, CanBeViewed, NotAlone, Busy;
    if Busy(Q(s, v), t) {
      BusyCanBeViewed(s, reader, d, v, t);
    } else if t in Q(s, v).failed {
      FailureElsewhere(s, reader, d, v, t);
    } else {
      ScheduledCanBeViewed(s, reader, d, v, t);
    }
  }

  lemma LiveCanBeViewed(s: State, d: nat)
    requires PathInv(s) && s.pool.buffers != [] && Live(s, d)
    ensures CanBeViewed(s, d)
  {
    hide PathInv, CanBeViewed, Hopeful, NotAlone, Viewed;
    if Viewed(s, d) {
      ViewedNow(s, d);
    } else if r :| r in s.hands && s.hands[r].dataset == d {
      HandCanBeViewed(s, r);
    } else {
      var r, v, t :| WaitsFor(s, r, d, v, t) && Hopeful(Q(s, v), t, !NotAlone(s, r));
      HopefulCanBeViewed(s, r, d, v, t);
    }
  }

  // From any state of the invariant, whatever the pool and other datasets are
  // busy with: a view of the dataset can appear without a new read of it
  // exactly when somebody is past its queues, holds a view of it, or waits
  // and can still get a buffer. The guard of a close asks none of this.
  lemma ViewedLaterExactlyWhen(s: State, d: nat)
    requires PathInv(s) && s.pool.buffers != []
    ensures CanBeViewed(s, d) <==> Live(s, d)
  {
    hide PathInv, CanBeViewed, Live;
    if Live(s, d) {
      LiveCanBeViewed(s, d);
    } else {
      DeadCannotBeViewed(s, d);
    }
  }

  lemma DeadCannotBeViewed(s: State, d: nat)
    requires PathInv(s) && !Live(s, d)
    ensures !CanBeViewed(s, d)
  {
    hide PathInv, Live, NoHope, Enabled, After, Reads;
    LiveParts(s, d);
    forall steps | Runs(s, steps) && NoNewRead(s, steps, d) ensures !Viewed(Execute(s, steps), d) {
      DeadForever(s, steps, d);
    }
  }
}
