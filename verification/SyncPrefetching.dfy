// The queue without a worker pool: every scheduled fetch runs to its end
// inside the call, so a whole get_buffer is one function of the queue, the
// pool and the driver's answers.
module SyncPrefetching {
  import opened Collections
  import opened Staging
  import opened Prefetching

  // The driver answers its n-th call as it likes.
  datatype Driver = Driver(src: Source, respond: (nat, int, Selection) -> Outcome)

  datatype World = World(q: Queue, p: IndexedPool, calls: nat)

  datatype Reply = Ready(slot: nat) | Refused(error: Error)

  datatype Attempt = Landed(slot: nat) | Lost(error: Error)

  // One fetch on the pool: a buffer, the driver's answer in it, and the
  // buffer back in the pool unless it holds a record that fits.
  function Perform(p: Pool, d: Driver, t: int, sel: Selection, n: nat): (r: (Pool, Attempt, nat))
    requires Indexed(p)
    ensures Indexed(r.0)
  {
    hide AcquireBytes;
    var (p1, slot) := Acquire(p, AcquireBytes(d.src, sel, p.nominal));
    if slot.None? then (p1, Lost(StagingBackpressure), n)
    else
      var o := d.respond(n, t, ForDriver(sel));
      var p2 := Fill(p1, slot.value, Bytes(d.src, t, sel, o), o.used);
      if Kept(o, p1.buffers[slot.value].capacity) then (p2, Landed(slot.value), n + 1)
      else (Drop(p2, slot.value), Lost(BackendFailure), n + 1)
  }

  // Recording the attempt in the queue.
  function Record(q: Queue, t: int, sel: Selection, a: Attempt): Queue {
    if a.Landed? then MarkComplete(q, t, a.slot, sel) else MarkFailed(q, t, a.error)
  }

  function FetchNow(w: World, d: Driver, t: int): (r: World)
  {
    if w.q.cancelled || Tracked(w.q, t) then w
    else
      var (p, a, n) := Perform(w.p, d, t, w.q.latched, w.calls);
      World(Record(w.q, t, w.q.latched, a), p, n)
  }

  function Repeat<W>(f: (W, nat) -> W, w: W, n: nat): W {
    if n == 0 then w else f(Repeat(f, w, n - 1), n - 1)
  }

  lemma {:induction false} RepeatKeeps<W(!new)>(f: (W, nat) -> W, w: W, n: nat, good: W -> bool)
    requires good(w) && forall x: W, k: nat :: good(x) ==> good(f(x, k))
    ensures good(Repeat(f, w, n))
  {
    if n > 0 {
      RepeatKeeps(f, w, n - 1, good);
    }
  }

  // The timesteps t, t + 1, ... in order.
  function FetchAll(w: World, d: Driver, t: int, count: nat): World {
    Repeat((x: World, k: nat) => FetchNow(x, d, t + k), w, count)
  }

  // How many timesteps the first request looks ahead.
  function Window(src: Source, t: int): nat {
    if src.total - t < 0 then 0 else if src.depth <= src.total - t then src.depth else src.total - t
  }

  function Open(w: World, d: Driver, t: int, req: Selection): (r: World)
  {
    var q := Latch(w.q, req);
    if q.kickedOff then w.(q := q)
    else FetchAll(w.(q := q.(kickedOff := true)), d, t, Window(d.src, t))
  }

  function Look(w: World, t: int, req: Selection): (r: (World, Taken))
  {
    var (q, p, taken) := Collect(w.q, w.p, t, req);
    (w.(q := q, p := p), taken)
  }

  function AfterDeadline(w: World, t: int): (World, Reply) {
    var (q, taken) := CollectAfterTimeout(w.q, t);
    (w.(q := q), if taken.Got? then Ready(taken.slot) else if taken.Failure? then Refused(taken.error)
        else Refused(Timeout))
  }

  // What follows the look: failure, cancellation, or a wait that nobody ends.
  function Settle(w: World, t: int): (World, Reply) {
    if t in w.q.failed then (w.(q := w.q.(failed := w.q.failed - {t})), Refused(w.q.failed[t]))
    else if w.q.cancelled then (w, Refused(BackendFailure))
    else AfterDeadline(w, t)
  }

  // The slow path: fetch unless someone already does, then look again.
  function Refetch(w: World, d: Driver, t: int, req: Selection): (World, Reply)
  {
    var w2 := if t in w.q.pending then w else FetchNow(w, d, t);
    match Look(w2, t, req)
    case (w3, Got(slot)) => (w3, Ready(slot))
    case (w3, Failure(e)) => (w3, Refused(e))
    case (w3, Stale) => Settle(FetchNow(w3, d, t), t)
    case (w3, Missing) => Settle(w3, t)
  }

  function LookThenFetch(w: World, d: Driver, t: int, req: Selection): (World, Reply)
  {
    var (w1, taken) := Look(w, t, req);
    if taken.Got? then (w1, Ready(taken.slot))
    else if taken.Failure? then (w1, Refused(taken.error))
    else Refetch(w1, d, t, req)
  }

  function GetBuffer(w: World, d: Driver, t: int, req: Selection): (World, Reply)
  {
    LookThenFetch(Open(w, d, t, req), d, t, req)
  }

  function ScheduleNext(w: World, d: Driver, t: int): World
  {
    if t + d.src.depth >= d.src.total then w else FetchNow(w, d, t + d.src.depth)
  }

  // ----- the invariant -----

  // A staged slot is held once, by the queue alone, and holds the record of
  // its own timestep under the selection noted beside it.
  ghost predicate Staged(w: World, src: Source) {
    && HeldOnce(w.q.completed, w.p)
    && forall t :: t in w.q.completed ==> Right(src, t, Have(w.q, t), w.p.buffers[w.q.completed[t]])
  }

  ghost predicate SyncInv(w: World, d: Driver) {
    && Inv(w.p) && QueueInv(w.q) && w.q.tasks == map[]
    && Staged(w, d.src)
    && (forall t :: t in w.q.failed ==> w.q.failed[t] != Timeout)
    && (w.q.cancelled ==> w.q.completed == map[] && w.q.failed == map[])
  }

  // Slots that someone outside the queue holds.
  ghost predicate Elsewhere(w: World, i: nat) {
    InUse(w.p, i) && !Stages(w.q.completed, i)
  }

  ghost predicate Undisturbed(w: World, w': World) {
    forall i: nat :: Elsewhere(w, i) ==> Elsewhere(w', i) && w'.p.buffers[i] == w.p.buffers[i]
  }

  // The driver threw, or claimed more bytes than were asked for.
  predicate Misbehaves(o: Outcome, asked: nat) {
    o.Threw? || o.used > asked
  }

  // Some call numbered from `from` up to `to` went wrong for this request.
  predicate DriverFailed(d: Driver, t: int, sel: Selection, asked: nat, from: nat, to: nat)
    decreases to - from
  {
    from < to && (Misbehaves(d.respond(from, t, ForDriver(sel)), asked) || DriverFailed(d, t, sel, asked, from + 1, to))
  }

  lemma {:induction false} DriverFailedWider(d: Driver, t: int, sel: Selection, asked: nat, from: nat, to: nat,
      from': nat, to': nat)
    requires DriverFailed(d, t, sel, asked, from, to) && from' <= from && to <= to'
    ensures DriverFailed(d, t, sel, asked, from', to')
    decreases to' - from'
  {
    if from' < from {
      DriverFailedWider(d, t, sel, asked, from, to, from' + 1, to');
    } else if !Misbehaves(d.respond(from, t, ForDriver(sel)), asked) {
      DriverFailedWider(d, t, sel, asked, from + 1, to, from + 1, to');
    }
  }

  // A failure recorded between the two states, with its cause.
  ghost predicate FreshFailure(w: World, w': World, d: Driver, t: int)
    requires t in w'.q.failed
  {
    && w'.q.failed[t] != Timeout
    && (w'.q.failed[t] == StagingBackpressure ==> Exhausted(w'.p))
    && (w'.q.failed[t] == BackendFailure ==>
          DriverFailed(d, t, w.q.latched, AcquireBytes(d.src, w.q.latched, w.p.nominal), w.calls, w'.calls))
  }

  // What one fetch that really runs leaves behind.
  ghost predicate Fetched(w: World, w': World, d: Driver, t: int) {
    && w'.q.latched == w.q.latched && w'.q.kickedOff == w.q.kickedOff && w'.q.cancelled == w.q.cancelled
    && w'.p.nominal == w.p.nominal && w.calls <= w'.calls
    && (t in w'.q.completed || t in w'.q.failed)
    && (t in w'.q.completed ==> Have(w'.q, t) == w.q.latched)
    && (Exhausted(w.p) ==> Exhausted(w'.p))
    && (t in w'.q.failed ==> FreshFailure(w, w', d, t))
    && (forall u :: u != t ==>
          && (u in w'.q.completed <==> u in w.q.completed)
          && (u in w'.q.failed <==> u in w.q.failed)
          && (u in w.q.failed ==> w'.q.failed[u] == w.q.failed[u]))
  }

  ghost predicate HeldUnchanged(p: Pool, p': Pool) {
    forall i: nat :: InUse(p, i) ==> InUse(p', i) && p'.buffers[i] == p.buffers[i]
  }

  // One fetch never touches a held slot, and either lands the record in a
  // slot nobody held or says why not.
  ghost predicate Performed(p: Pool, p': Pool, d: Driver, t: int, sel: Selection, a: Attempt, n: nat, n': nat) {
    && Inv(p') && SameLimits(p, p') && n <= n'
    && HeldUnchanged(p, p') && (Exhausted(p) ==> p' == p)
    && match a
       case Landed(i) => !InUse(p, i) && InUse(p', i) && p'.buffers[i].refs == 1 && Right(d.src, t, sel, p'.buffers[i])
       case Lost(StagingBackpressure) => Exhausted(p)
       case Lost(BackendFailure) => DriverFailed(d, t, sel, AcquireBytes(d.src, sel, p.nominal), n, n')
       case Lost(Timeout) => false
  }

  // The slot just granted, filled and then perhaps dropped.
  lemma GrantedAndFilled(p: Pool, p1: Pool, i: nat, asked: nat, data: Payload, used: nat)
    requires Inv(p1) && Granted(p, p1, asked, i) && SameLimits(p, p1)
    ensures !InUse(p, i) && InUse(p1, i) && p1.buffers[i].capacity >= asked
    ensures var p2 := Fill(p1, i, data, used);
      && Inv(p2) && SameLimits(p, p2) && HeldUnchanged(p, p2)
      && InUse(p2, i) && p2.buffers[i] == p1.buffers[i].(data := data, used := used) && p2.buffers[i].refs == 1
      && Inv(Drop(p2, i)) && SameLimits(p, Drop(p2, i)) && HeldUnchanged(p, Drop(p2, i))
  {
    FillKeeps(p1, i, data, used);
    DropKeeps(Fill(p1, i, data, used), i);
  }

  lemma PerformMeaning(p: Pool, d: Driver, t: int, sel: Selection, n: nat)
    requires Inv(p)
    ensures var (p', a, n') := Perform(p, d, t, sel, n); Performed(p, p', d, t, sel, a, n, n')
  {
    hide AcquireBytes, Acquire, Exhausted;
    var asked := AcquireBytes(d.src, sel, p.nominal);
    AcquireMeaning(p, asked);
    var (p1, slot) := Acquire(p, asked);
    if slot.Some? {
      var o := d.respond(n, t, ForDriver(sel));
      GrantedAndFilled(p, p1, slot.value, asked, Bytes(d.src, t, sel, o), o.used);
      if !Kept(o, p1.buffers[slot.value].capacity) {
        assert Misbehaves(o, asked);
      }
    }
  }

  lemma LandedInv(w: World, p': IndexedPool, d: Driver, t: int, slot: nat, n': nat)
    requires SyncInv(w, d) && !w.q.cancelled && !Tracked(w.q, t)
    requires Performed(w.p, p', d, t, w.q.latched, Landed(slot), w.calls, n')
    ensures var w' := World(MarkComplete(w.q, t, slot, w.q.latched), p', n');
      SyncInv(w', d) && forall i: nat :: Stages(w'.q.completed, i) <==> Stages(w.q.completed, i) || i == slot
  {
    hide Inv, DriverFailed, AcquireBytes, Right;
    var q' := MarkComplete(w.q, t, slot, w.q.latched);
    assert q'.completed == w.q.completed[t := slot];
    assert forall u :: u in w.q.completed ==> q'.completed[u] == w.q.completed[u] && Have(q', u) == Have(w.q, u);
    assert q'.completed[t] == slot;
  }

  lemma LostInv(w: World, p': IndexedPool, d: Driver, t: int, e: Error, n': nat)
    requires SyncInv(w, d) && !w.q.cancelled && !Tracked(w.q, t)
    requires Performed(w.p, p', d, t, w.q.latched, Lost(e), w.calls, n')
    ensures var w' := World(MarkFailed(w.q, t, e), p', n'); SyncInv(w', d)
  {
    hide DriverFailed, AcquireBytes, Right, Inv;
  }

  lemma RecordInv(w: World, p': IndexedPool, d: Driver, t: int, a: Attempt, n': nat)
    requires SyncInv(w, d) && !w.q.cancelled && !Tracked(w.q, t)
    requires Performed(w.p, p', d, t, w.q.latched, a, w.calls, n')
    ensures var w' := World(Record(w.q, t, w.q.latched, a), p', n'); SyncInv(w', d) && Undisturbed(w, w')
  {
    hide SyncInv, AcquireBytes, DriverFailed;
    match a
    case Landed(slot) => LandedInv(w, p', d, t, slot, n');
    case Lost(e) => LostInv(w, p', d, t, e, n');
  }

  lemma RecordFetched(w: World, p': Pool, d: Driver, t: int, a: Attempt, n': nat)
    requires Inv(w.p) && !w.q.cancelled && !Tracked(w.q, t)
    requires Performed(w.p, p', d, t, w.q.latched, a, w.calls, n')
    ensures Fetched(w, World(Record(w.q, t, w.q.latched, a), p', n'), d, t)
  {
    hide AcquireBytes, Inv;
  }

  lemma FetchKeeps(w: World, d: Driver, t: int)
    requires SyncInv(w, d)
    ensures var w' := FetchNow(w, d, t);
      && SyncInv(w', d) && Undisturbed(w, w')
      && (if w.q.cancelled || Tracked(w.q, t) then w' == w else Fetched(w, w', d, t))
  {
    hide Fetched, Record, AcquireBytes, DriverFailed;
    if !w.q.cancelled && !Tracked(w.q, t) {
      PerformMeaning(w.p, d, t, w.q.latched, w.calls);
      var (p', a, n') := Perform(w.p, d, t, w.q.latched, w.calls);
      RecordInv(w, p', d, t, a, n');
      RecordFetched(w, p', d, t, a, n');
    }
  }

  ghost predicate Explained(w: World, w': World, d: Driver, t: int) {
    t in w'.q.failed ==> (t in w.q.failed && w'.q.failed[t] == w.q.failed[t]) || FreshFailure(w, w', d, t)
  }

  // A failure recorded for timestep t is an old one, or has its cause between
  // the two states.
  ghost predicate Progress(w: World, w': World, d: Driver, t: int) {
    && SyncInv(w', d) && Undisturbed(w, w')
    && w'.q.latched == w.q.latched && w'.q.cancelled == w.q.cancelled
    && w'.p.nominal == w.p.nominal && w.calls <= w'.calls
    && Explained(w, w', d, t)
    && (t in w.q.failed ==> t in w'.q.failed && (Exhausted(w.p) ==> Exhausted(w'.p)))
  }

  lemma FetchProgress(w: World, d: Driver, t: int, u: int)
    requires SyncInv(w, d)
    ensures Progress(w, FetchNow(w, d, t), d, u)
  {
    hide SyncInv, Undisturbed, FetchNow, AcquireBytes, Exhausted, DriverFailed;
    FetchKeeps(w, d, t);
  }

  lemma ProgressTrans(w0: World, w1: World, w2: World, d: Driver, t: int)
    requires Progress(w0, w1, d, t) && Progress(w1, w2, d, t)
    ensures Progress(w0, w2, d, t)
  {
    hide SyncInv, AcquireBytes, Exhausted;
    var asked := AcquireBytes(d.src, w0.q.latched, w0.p.nominal);
    if DriverFailed(d, t, w0.q.latched, asked, w0.calls, w1.calls) {
      DriverFailedWider(d, t, w0.q.latched, asked, w0.calls, w1.calls, w0.calls, w2.calls);
    }
    if DriverFailed(d, t, w0.q.latched, asked, w1.calls, w2.calls) {
      DriverFailedWider(d, t, w0.q.latched, asked, w1.calls, w2.calls, w0.calls, w2.calls);
    }
  }

  lemma ThenFetch(w0: World, w: World, d: Driver, t: int, u: int)
    requires SyncInv(w, d) && Progress(w0, w, d, u)
    ensures Progress(w0, FetchNow(w, d, t), d, u)
  {
    FetchProgress(w, d, t, u);
    ProgressTrans(w0, w, FetchNow(w, d, t), d, u);
  }

  lemma FetchAllKeeps(w0: World, w: World, d: Driver, t: int, count: nat, u: int)
    requires Progress(w0, w, d, u)
    ensures Progress(w0, FetchAll(w, d, t, count), d, u)
  {
    var f := (x: World, k: nat) => FetchNow(x, d, t + k);
    forall x, k: nat | Progress(w0, x, d, u) ensures Progress(w0, f(x, k), d, u) {
      ThenFetch(w0, x, d, t + k, u);
    }
    RepeatKeeps(f, w, count, x => Progress(w0, x, d, u));
  }

  // What a look returns: the record asked for, released from the queue.
  ghost predicate Delivered(w: World, d: Driver, t: int, req: Selection, slot: nat) {
    && Elsewhere(w, slot) && w.p.buffers[slot].refs == 1
    && Right(d.src, t, req, w.p.buffers[slot])
  }

  lemma DroppedInv(w: World, d: Driver, t: int)
    requires SyncInv(w, d) && t in w.q.completed
    ensures var q := w.q.(completed := w.q.completed - {t}, fetched := w.q.fetched - {t});
      SyncInv(World(q, Drop(w.p, w.q.completed[t]), w.calls), d)
  {
    hide Inv, Drop, Right;
    var slot := w.q.completed[t];
    RestHeldOnce(w.q.completed, t, w.p);
    DropKeeps(w.p, slot);
    assert forall u :: u in w.q.completed && u != t ==> w.q.completed[u] != slot;
  }

  lemma DroppedUndisturbed(w: World, q: Queue, d: Driver, t: int)
    requires SyncInv(w, d) && t in w.q.completed && q.completed == w.q.completed - {t}
    ensures Undisturbed(w, World(q, Drop(w.p, w.q.completed[t]), w.calls))
    ensures Drop(w.p, w.q.completed[t]).nominal == w.p.nominal
  {
    hide Inv, Drop, Right, QueueInv;
    DropKeeps(w.p, w.q.completed[t]);
    assert Stages(w.q.completed, w.q.completed[t]);
    assert forall i :: Stages(q.completed, i) ==> Stages(w.q.completed, i);
  }

  lemma StaleKeeps(w: World, d: Driver, t: int, req: Selection)
    requires SyncInv(w, d) && t in w.q.completed && !BboxSame(Have(w.q, t), req)
    ensures var (w', taken) := Look(w, t, req);
      taken.Stale? && Progress(w, w', d, t) && !Tracked(w'.q, t)
  {
    hide Inv, Staged, BboxSame, Drop, Undisturbed, Exhausted;
    DroppedInv(w, d, t);
    DroppedUndisturbed(w, w.q.(completed := w.q.completed - {t}, fetched := w.q.fetched - {t}), d, t);
  }

  lemma GotKeeps(w: World, d: Driver, t: int, req: Selection)
    requires SyncInv(w, d) && t in w.q.completed && BboxSame(Have(w.q, t), req)
    ensures var (w', taken) := Look(w, t, req);
      taken == Got(w.q.completed[t]) && Progress(w, w', d, t) && Delivered(w', d, t, req, taken.slot)
  {
    hide DriverFailed, AcquireBytes;
    var slot := w.q.completed[t];
    assert forall u :: u in w.q.completed - {t} ==> (w.q.completed - {t})[u] != slot;
    BboxSameMeaning(Have(w.q, t), req);
  }

  lemma LookKeeps(w: World, d: Driver, t: int, req: Selection)
    requires SyncInv(w, d)
    ensures var (w', taken) := Look(w, t, req);
      && (if taken.Failure? then SyncInv(w', d) && w'.p == w.p && w'.calls == w.calls && Undisturbed(w, w')
           else Progress(w, w', d, t))
      && (taken.Got? ==> t in w.q.completed && taken.slot == w.q.completed[t] && Delivered(w', d, t, req, taken.slot))
      && (taken.Failure? ==> t in w.q.failed && taken.error == w.q.failed[t])
      && (taken.Missing? ==> w' == w)
      && (taken.Stale? || taken.Missing? ==> !Tracked(w'.q, t))
      && (taken.Stale? <==> t in w.q.completed && !BboxSame(Have(w.q, t), req))
  {
    hide BboxSame, AcquireBytes, DriverFailed;
    if t in w.q.completed {
      if BboxSame(Have(w.q, t), req) {
        GotKeeps(w, d, t, req);
      } else {
        StaleKeeps(w, d, t, req);
      }
    }
  }

  lemma OpenKeeps(w: World, d: Driver, t: int, req: Selection)
    requires SyncInv(w, d)
    ensures var w0 := w.(q := Latch(w.q, req)); SyncInv(w0, d) && Progress(w0, Open(w, d, t, req), d, t)
  {
    var w0 := w.(q := Latch(w.q, req));
    if !w.q.kickedOff {
      FetchAllKeeps(w0, w0.(q := w0.q.(kickedOff := true)), d, t, Window(d.src, t), t);
    }
  }

  lemma BboxSameRefl(sel: Selection)
    ensures BboxSame(sel, sel)
  {
    BboxSameMeaning(sel, sel);
  }

  // An error and its cause: an earlier failure, cancellation, no buffer, or
  // the driver.
  ghost predicate Caused(w: World, w': World, d: Driver, t: int, req: Selection, e: Error) {
    || (t in w.q.failed && e == w.q.failed[t] && e != Timeout)
    || (w.q.cancelled && e == BackendFailure)
    || (e == StagingBackpressure && Exhausted(w'.p))
    || (e == BackendFailure && DriverFailed(d, t, req, AcquireBytes(d.src, req, w.p.nominal), w.calls, w'.calls))
  }

  ghost predicate Answered(w: World, w': World, d: Driver, t: int, req: Selection, r: Reply) {
    && SyncInv(w', d) && Undisturbed(w, w') && w.calls <= w'.calls
    && match r
       case Ready(slot) => !Elsewhere(w, slot) && Delivered(w', d, t, req, slot)
       case Refused(e) => Caused(w, w', d, t, req, e)
  }

  lemma AnsweredLook(w0: World, w1: World, d: Driver, t: int, req: Selection)
    requires SyncInv(w1, d) && Progress(w0, w1, d, t) && w0.q.latched == req
    ensures var (w', taken) := Look(w1, t, req);
      && (taken.Got? ==> Answered(w0, w', d, t, req, Ready(taken.slot)))
      && (taken.Failure? ==> Answered(w0, w', d, t, req, Refused(taken.error)))
      && (taken.Stale? || taken.Missing? ==> SyncInv(w', d) && !Tracked(w'.q, t) && Progress(w0, w', d, t))
  {
    LookKeeps(w1, d, t, req);
    if !Look(w1, t, req).1.Failure? {
      ProgressTrans(w0, w1, Look(w1, t, req).0, d, t);
    }
  }

  lemma RefetchMeaning(w: World, d: Driver, t: int, req: Selection)
    requires SyncInv(w, d) && !Tracked(w.q, t) && w.q.latched == req
    ensures var (w', r) := Refetch(w, d, t, req); Answered(w, w', d, t, req, r)
  {
    FetchKeeps(w, d, t);
    FetchProgress(w, d, t, t);
    var w2 := FetchNow(w, d, t);
    AnsweredLook(w, w2, d, t, req);
    LookKeeps(w2, d, t, req);
    BboxSameRefl(req);
  }

  lemma AnsweredTrans(w: World, w1: World, w': World, d: Driver, t: int, req: Selection, r: Reply)
    requires Progress(w, w1, d, t) && !Tracked(w1.q, t) && w.q.latched == req && Answered(w1, w', d, t, req, r)
    ensures Answered(w, w', d, t, req, r)
  {
    var asked := AcquireBytes(d.src, req, w.p.nominal);
    if DriverFailed(d, t, req, asked, w1.calls, w'.calls) {
      DriverFailedWider(d, t, req, asked, w1.calls, w'.calls, w.calls, w'.calls);
    }
  }

  lemma LookThenFetchMeaning(w0: World, w1: World, d: Driver, t: int, req: Selection)
    requires SyncInv(w1, d) && Progress(w0, w1, d, t) && w0.q.latched == req
    ensures var (w', r) := LookThenFetch(w1, d, t, req); Answered(w0, w', d, t, req, r)
  {
    AnsweredLook(w0, w1, d, t, req);
    var (w2, taken) := Look(w1, t, req);
    if taken.Stale? || taken.Missing? {
      RefetchMeaning(w2, d, t, req);
      var (w', r) := Refetch(w2, d, t, req);
      AnsweredTrans(w0, w2, w', d, t, req, r);
    }
  }

  // Latching changes nothing an answer speaks of.
  lemma AnsweredLatch(w: World, w': World, d: Driver, t: int, req: Selection, r: Reply)
    requires Answered(w.(q := Latch(w.q, req)), w', d, t, req, r)
    ensures Answered(w, w', d, t, req, r)
  {
    assert forall i: nat :: Elsewhere(w, i) <==> Elsewhere(w.(q := Latch(w.q, req)), i);
  }

  // The refinement: whatever selections came before, a synchronous request
  // yields exactly the driver's record for this timestep and this selection,
  // in a buffer nobody else holds, or an error with its cause. It never times
  // out, and never touches a buffer held outside the queue.
  lemma GetBufferMeaning(w: World, d: Driver, t: int, req: Selection)
    requires SyncInv(w, d)
    ensures var (w', r) := GetBuffer(w, d, t, req); Answered(w, w', d, t, req, r)
  {
    OpenKeeps(w, d, t, req);
    LookThenFetchMeaning(w.(q := Latch(w.q, req)), Open(w, d, t, req), d, t, req);
    var (w', r) := GetBuffer(w, d, t, req);
    AnsweredLatch(w, w', d, t, req, r);
  }

  ghost function Cancel(w: World): World {
    w.(q := Cancelled(w.q), p := DropAll(w.q.completed, w.p))
  }

  // Cancelling frees every staged buffer and no other.
  lemma CancelKeeps(w: World, d: Driver)
    requires SyncInv(w, d)
    ensures SyncInv(Cancel(w), d) && Undisturbed(w, Cancel(w))
    ensures forall i: nat :: InUse(Cancel(w).p, i) <==> Elsewhere(w, i)
  {
    DropAllKeeps(w.q.completed, w.p);
  }

  // So does a holder that returns its buffer.
  lemma ReturnKeeps(w: World, d: Driver, i: nat)
    requires SyncInv(w, d) && Elsewhere(w, i)
    ensures SyncInv(w.(p := Drop(w.p, i)), d)
  {
    ReleaseKeeps(w.p, i);
  }

  // ----- sequences of calls -----

  // What a caller does with one queue: requests, replenishments, returning a
  // buffer it was given, cancellation.
  datatype Call = Get(t: int, req: Selection) | Next(t: int) | Return(slot: nat) | CancelAll

  // The buffers handed out and not yet returned, with the request each answers.
  datatype Session = Session(w: World, granted: map<nat, (int, Selection)>)

  predicate Permitted(s: Session, call: Call) {
    call.Return? ==> call.slot in s.granted
  }

  ghost function Answer(s: Session, d: Driver, call: Call): Session
    requires Permitted(s, call)
  {
    match call
    case Get(t, req) =>
      var (w, r) := GetBuffer(s.w, d, t, req);
      Session(w, if r.Ready? then s.granted[r.slot := (t, req)] else s.granted)
    case Next(t) => s.(w := ScheduleNext(s.w, d, t))
    case Return(slot) => Session(s.w.(p := Drop(s.w.p, slot)), s.granted - {slot})
    case CancelAll => s.(w := Cancel(s.w))
  }

  // Every buffer handed out still shows its own request's record.
  ghost predicate SessionInv(s: Session, d: Driver) {
    && SyncInv(s.w, d)
    && forall i :: i in s.granted ==> Delivered(s.w, d, s.granted[i].0, s.granted[i].1, i)
  }

  lemma EmptyKeeps(p: IndexedPool, d: Driver, calls: nat)
    requires Inv(p)
    ensures SyncInv(World(EMPTY, p, calls), d)
  {
  }

  lemma NextKeeps(w: World, d: Driver, t: int)
    requires SyncInv(w, d)
    ensures var w' := ScheduleNext(w, d, t); SyncInv(w', d) && Undisturbed(w, w')
  {
    hide FetchNow, SyncInv, Fetched;
    var u := t + d.src.depth;
    FetchKeeps(w, d, u);
    var w' := FetchNow(w, d, u);
    assert SyncInv(w', d) && Undisturbed(w, w');
    assert ScheduleNext(w, d, t) == (if u >= d.src.total then w else w');
  }

  lemma StillDelivered(w: World, w': World, d: Driver, granted: map<nat, (int, Selection)>)
    requires SessionInv(Session(w, granted), d) && SyncInv(w', d) && Undisturbed(w, w')
    ensures SessionInv(Session(w', granted), d)
  {
    forall i | i in granted ensures Delivered(w', d, granted[i].0, granted[i].1, i) {
      assert Elsewhere(w, i);
    }
  }

  lemma GetKeeps(s: Session, d: Driver, t: int, req: Selection)
    requires SessionInv(s, d)
    ensures SessionInv(Answer(s, d, Get(t, req)), d)
  {
    GetBufferMeaning(s.w, d, t, req);
    var (w, r) := GetBuffer(s.w, d, t, req);
    StillDelivered(s.w, w, d, s.granted);
  }

  lemma ReturnedKeeps(s: Session, d: Driver, slot: nat)
    requires SessionInv(s, d) && slot in s.granted
    ensures SessionInv(Session(s.w.(p := Drop(s.w.p, slot)), s.granted - {slot}), d)
  {
    assert Delivered(s.w, d, s.granted[slot].0, s.granted[slot].1, slot);
    ReturnKeeps(s.w, d, slot);
    DropKeeps(s.w.p, slot);
    forall i | i in s.granted - {slot}
      ensures Delivered(s.w.(p := Drop(s.w.p, slot)), d, s.granted[i].0, s.granted[i].1, i)
    {
      assert Delivered(s.w, d, s.granted[i].0, s.granted[i].1, i);
    }
  }

  lemma CallKeeps(s: Session, d: Driver, call: Call)
    requires SessionInv(s, d) && Permitted(s, call)
    ensures SessionInv(Answer(s, d, call), d)
  {
    match call
    case Get(t, req) => GetKeeps(s, d, t, req);
    case Next(t) =>
      NextKeeps(s.w, d, t);
      StillDelivered(s.w, ScheduleNext(s.w, d, t), d, s.granted);
    case Return(slot) => ReturnedKeeps(s, d, slot);
    case CancelAll =>
      CancelKeeps(s.w, d);
      StillDelivered(s.w, Cancel(s.w), d, s.granted);
  }

  ghost predicate AllPermitted(s: Session, d: Driver, calls: seq<Call>)
    decreases |calls|
  {
    calls == [] || (Permitted(s, calls[0]) && AllPermitted(Answer(s, d, calls[0]), d, calls[1..]))
  }

  ghost function PerformAll(s: Session, d: Driver, calls: seq<Call>): Session
    requires AllPermitted(s, d, calls)
    decreases |calls|
  {
    if calls == [] then s else PerformAll(Answer(s, d, calls[0]), d, calls[1..])
  }

  lemma {:induction false} CallsKeep(s: Session, d: Driver, calls: seq<Call>)
    requires SessionInv(s, d) && AllPermitted(s, d, calls)
    ensures SessionInv(PerformAll(s, d, calls), d)
    decreases |calls|
  {
    if calls != [] {
      CallKeeps(s, d, calls[0]);
      CallsKeep(Answer(s, d, calls[0]), d, calls[1..]);
    }
  }

  function Opened(p: IndexedPool): Session {
    Session(World(EMPTY, p, 0), map[])
  }

  // The cache refines direct reads. After any sequence of requests with
  // arbitrarily changing boxes, replenishments, returns and cancellations
  // from an empty queue, every buffer handed out and not yet returned holds
  // exactly what the driver returns for its timestep and box, and the next
  // request is answered the same way or refused with its cause.
  lemma ReadsRefineDriver(p: IndexedPool, d: Driver, calls: seq<Call>, t: int, req: Selection)
    requires Inv(p) && AllPermitted(Opened(p), d, calls)
    ensures var s := PerformAll(Opened(p), d, calls);
      && (forall i :: i in s.granted ==>
            InUse(s.w.p, i) && s.w.p.buffers[i].data == d.src.content(s.granted[i].0, ForDriver(s.granted[i].1)))
      && var (w, r) := GetBuffer(s.w, d, t, req);
         match r
         case Ready(slot) =>
           slot !in s.granted && InUse(w.p, slot) && w.p.buffers[slot].data == d.src.content(t, ForDriver(req))
         case Refused(e) => e != Timeout && Caused(s.w, w, d, t, req, e)
  {
    EmptyKeeps(p, d, 0);
    CallsKeep(Opened(p), d, calls);
    var s := PerformAll(Opened(p), d, calls);
    GetBufferMeaning(s.w, d, t, req);
    forall i | i in s.granted
      ensures Elsewhere(s.w, i) && Right(d.src, s.granted[i].0, s.granted[i].1, s.w.p.buffers[i])
    {
      assert Delivered(s.w, d, s.granted[i].0, s.granted[i].1, i);
    }
  }
}
