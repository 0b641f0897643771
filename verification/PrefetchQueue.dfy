// The prefetch queue as an object, with no worker pool behind it. Each method
// is proved equal to its function in SyncPrefetching, where GetBufferMeaning,
// FetchKeeps, CancelKeeps and ReturnKeeps say what the calls achieve and that
// they keep SyncInv.
module PrefetchQueues {
  import opened Collections
  import opened Staging
  import opened Prefetching
  import S = SyncPrefetching
  import opened StagingPools

  const MIN_DEPTH := 1
  const MAX_DEPTH := 1024

  // A backend whose n-th call does as it likes, short of returning a wrong
  // record without an error.
  class BackendDriver {
    const content: (int, Selection) -> Payload
    const respond: (nat, int, Selection) -> Outcome
    var calls: nat

    constructor (content: (int, Selection) -> Payload, respond: (nat, int, Selection) -> Outcome)
      ensures this.content == content && this.respond == respond && calls == 0
    {
      this.content, this.respond, calls := content, respond, 0;
    }

    method Read(pool: StagingPool, slot: nat, t: int, box: Selection) returns (threw: bool)
      requires InUse(pool.State(), slot)
      modifies this, pool
      ensures calls == old(calls) + 1
      ensures var o := respond(old(calls), t, box);
        && threw == o.Threw?
        && pool.State() == Fill(old(pool.State()), slot, if threw then o.garbage else content(t, box), o.used)
    {
      var o := respond(calls, t, box);
      calls := calls + 1;
      threw := o.Threw?;
      pool.Deposit(slot, if threw then o.garbage else content(t, box), o.used);
    }
  }

  // The loop that compares two windows up to their common rank.
  method SameSelection(a: Selection, b: Selection) returns (same: bool)
    ensures same == BboxSame(a, b)
  {
    if a.None? || b.None? {
      return a.None? && b.None?;
    }
    var x, y := a.value, b.value;
    if x.rank != y.rank {
      return false;
    }
    var d := 0;
    while d < x.rank && d < MAX_RANK
      invariant 0 <= d <= MAX_RANK && forall e :: 0 <= e < d ==> SameEntries(x, y, e)
    {
      if x.offsets[d] != y.offsets[d] || x.extents[d] != y.extents[d] || x.strides[d] != y.strides[d] {
        assert !SameEntries(x, y, d);
        return false;
      }
      d := d + 1;
    }
    return true;
  }

  // A zeroed box with the entries up to the rank copied over.
  method DriverBox(sel: Selection) returns (box: Selection)
    ensures box == ForDriver(sel)
    ensures sel.None? <==> box.None?
    ensures sel.Some? ==> box.value.rank == sel.value.rank
    ensures sel.Some? ==> forall d :: 0 <= d < MAX_RANK && d < sel.value.rank ==> SameEntries(box.value, sel.value, d)
    ensures sel.Some? ==> forall d :: 0 <= d < MAX_RANK && d >= sel.value.rank ==>
      box.value.offsets[d] == box.value.extents[d] == box.value.strides[d] == 0
  {
    if sel.None? {
      return None;
    }
    var b := sel.value;
    var offsets: Dims, extents: Dims, strides: Dims := seq(7, _ => 0), seq(7, _ => 0), seq(7, _ => 0);
    var d := 0;
    while d < b.rank && d < MAX_RANK
      invariant 0 <= d <= MAX_RANK && (d <= b.rank || d == 0)
      invariant forall e :: 0 <= e < 7 ==>
        && offsets[e] == (if e < d then b.offsets[e] else 0)
        && extents[e] == (if e < d then b.extents[e] else 0)
        && strides[e] == (if e < d then b.strides[e] else 0)
    {
      offsets := offsets[d := b.offsets[d]];
      extents := extents[d := b.extents[d]];
      strides := strides[d := b.strides[d]];
      d := d + 1;
    }
    assert offsets == Clip(b.offsets, b.rank);
    assert extents == Clip(b.extents, b.rank);
    assert strides == Clip(b.strides, b.rank);
    return Some(Bbox(b.rank, offsets, extents, strides));
  }

  method CountBytes(elementSize: nat, extents: Dims, rank: int, otherwise: nat) returns (bytes: nat)
    ensures bytes == PayloadBytes(elementSize, extents, rank, otherwise)
  {
    if elementSize == 0 || rank <= 0 {
      return otherwise;
    }
    var product: nat, d := 1, 0;
    while d < rank && d < MAX_RANK
      invariant 0 <= d <= MAX_RANK
      invariant Product(extents, rank, d, product) == Product(extents, rank, 0, 1)
    {
      if extents[d] <= 0 {
        return otherwise;
      }
      product := product * extents[d] % SIZE_RANGE;
      d := d + 1;
    }
    return elementSize * product % SIZE_RANGE;
  }

  class PrefetchQueue {
    const depth: nat
    const total: int
    const elementSize: nat
    const rank: int
    const extents: Dims
    const pool: StagingPool
    const driver: BackendDriver
    var completed: map<int, nat>
    var fetched: map<int, Bbox>
    var pending: set<int>
    var failed: map<int, Error>
    var latched: Selection
    var kickedOff: bool
    var cancelled: bool

    function D(): S.Driver {
      S.Driver(Source(depth, total, elementSize, rank, extents, driver.content), driver.respond)
    }

    function State(): Queue
      reads this
    {
      Queue(completed, fetched, pending, failed, latched, kickedOff, cancelled, map[])
    }

    function World(): S.World
      requires Indexed(pool.State())
      reads this, pool, driver
    {
      S.World(State(), pool.State(), driver.calls)
    }

    // A depth outside the configured range is moved to its nearer end.
    constructor (depth: nat, pool: StagingPool, driver: BackendDriver, total: int, elementSize: nat, rank: int,
        extents: Dims)
      ensures State() == EMPTY && this.pool == pool && this.driver == driver
      ensures MIN_DEPTH <= this.depth <= MAX_DEPTH
      ensures MIN_DEPTH <= depth <= MAX_DEPTH ==> this.depth == depth
      ensures (depth < MIN_DEPTH ==> this.depth == MIN_DEPTH) && (depth > MAX_DEPTH ==> this.depth == MAX_DEPTH)
    {
      this.depth := if depth < MIN_DEPTH then MIN_DEPTH else if depth > MAX_DEPTH then MAX_DEPTH else depth;
      this.pool, this.driver, this.total := pool, driver, total;
      this.elementSize, this.rank, this.extents := elementSize, rank, extents;
      completed, fetched, pending, failed := map[], map[], {}, map[];
      latched, kickedOff, cancelled := None, false, false;
    }

    method BytesFor(sel: Selection) returns (bytes: nat)
      ensures bytes == AcquireBytes(D().src, sel, pool.nominal)
    {
      hide PayloadBytes;
      bytes := CountBytes(elementSize, extents, rank, 0);
      if sel.Some? {
        bytes := CountBytes(elementSize, sel.value.extents, sel.value.rank, bytes);
      }
      if bytes == 0 {
        bytes := pool.nominal;
      }
    }

    method MarkComplete(t: int, slot: nat, sel: Selection)
      modifies this
      ensures State() == Prefetching.MarkComplete(old(State()), t, slot, sel)
    {
      pending := pending - {t};
      completed := completed[t := slot];
      fetched := if sel.Some? then fetched[t := sel.value] else fetched - {t};
      ghost var none: map<int, Task> := map[];
      assert none - {t} == none;
    }

    method MarkFailed(t: int, e: Error)
      modifies this
      ensures State() == Prefetching.MarkFailed(old(State()), t, e)
    {
      pending := pending - {t};
      failed := failed[t := e];
      ghost var none: map<int, Task> := map[];
      assert none - {t} == none;
    }

    // After the driver: a buffer that does not hold a record goes back.
    method Judge(slot: nat, threw: bool) returns (a: S.Attempt)
      requires Indexed(pool.State()) && slot < |pool.buffers|
      modifies pool
      ensures Indexed(pool.State())
      ensures var p := old(pool.State());
        if threw || p.buffers[slot].used > p.buffers[slot].capacity
        then a == S.Lost(BackendFailure) && pool.State() == Staging.Drop(p, slot)
        else a == S.Landed(slot) && pool.State() == p
    {
      if threw || pool.buffers[slot].used > pool.buffers[slot].capacity {
        pool.Drop(slot);
        a := S.Lost(BackendFailure);
      } else {
        a := S.Landed(slot);
      }
    }

    // The fetch itself, before its result is recorded.
    method FetchRecord(t: int, sel: Selection) returns (a: S.Attempt)
      requires Indexed(pool.State())
      modifies pool, driver
      ensures Indexed(pool.State())
      ensures (pool.State(), a, driver.calls) == S.Perform(old(pool.State()), D(), t, sel, old(driver.calls))
    {
      hide AcquireBytes, PayloadBytes, ForDriver, SameEntries;
      var bytes := BytesFor(sel);
      var slot := pool.Acquire(bytes);
      if slot.None? {
        return S.Lost(StagingBackpressure);
      }
      var box := DriverBox(sel);
      var threw := driver.Read(pool, slot.value, t, box);
      a := Judge(slot.value, threw);
    }

    method SyncFetch(t: int, sel: Selection)
      requires Indexed(pool.State()) && !cancelled
      modifies this, pool, driver
      ensures Indexed(pool.State())
      ensures var (p, a, n) := S.Perform(old(pool.State()), D(), t, sel, old(driver.calls));
        World() == S.World(S.Record(old(State()), t, sel, a), p, n)
    {
      var a := FetchRecord(t, sel);
      match a
      case Landed(slot) => MarkComplete(t, slot, sel);
      case Lost(e) => MarkFailed(t, e);
    }

    method ScheduleFetch(t: int)
      requires Indexed(pool.State())
      modifies this, pool, driver
      ensures Indexed(pool.State()) && World() == S.FetchNow(old(World()), D(), t)
    {
      if cancelled || t in pending || t in completed || t in failed {
        return;
      }
      pending := pending + {t};
      assert pending - {t} == old(pending);
      SyncFetch(t, latched);
    }

    // Open the look-ahead window at the first timestep anyone asks for.
    method KickOff(t: int)
      requires Indexed(pool.State())
      modifies this, pool, driver
      ensures Indexed(pool.State())
      ensures World() == if old(kickedOff) then old(World()) else
        S.FetchAll(old(World()).(q := old(State()).(kickedOff := true)), D(), t, S.Window(D().src, t))
    {
      hide S.FetchNow;
      if kickedOff {
        return;
      }
      kickedOff := true;
      ghost var start := World();
      var count := if depth <= total - t then depth else total - t;
      ghost var step := (x: S.World, k: nat) => S.FetchNow(x, D(), t + k);
      var k := 0;
      while k < count
        invariant k <= S.Window(D().src, t) && Indexed(pool.State())
        invariant World() == S.Repeat(step, start, k)
      {
        ScheduleFetch(t + k);
        k := k + 1;
      }
      assert World() == S.FetchAll(start, D(), t, k);
    }

    // A failure or a matching buffer, taken out of the maps; a buffer staged
    // under another selection goes back to the pool.
    method Look(t: int, req: Selection) returns (r: Taken)
      requires Indexed(pool.State())
      modifies this, pool
      ensures Indexed(pool.State()) && (World(), r) == S.Look(old(World()), t, req)
    {
      if t in failed {
        r := Failure(failed[t]);
        failed := failed - {t};
        return;
      }
      if t !in completed {
        return Missing;
      }
      var have := if t in fetched then Some(fetched[t]) else None;
      var same := SameSelection(have, req);
      var slot := completed[t];
      if same {
        r := Got(slot);
      } else {
        pool.Drop(slot);
        r := Stale;
      }
      completed := completed - {t};
      fetched := fetched - {t};
    }

    // What a wait that nothing ends returns: no selections are compared.
    method AfterDeadline(t: int) returns (r: S.Reply)
      requires Indexed(pool.State())
      modifies this
      ensures (World(), r) == S.AfterDeadline(old(World()), t)
    {
      if t in completed {
        r := S.Ready(completed[t]);
        completed := completed - {t};
      } else if t in failed {
        r := S.Refused(failed[t]);
        failed := failed - {t};
      } else {
        r := S.Refused(Timeout);
      }
    }

    method Settle(t: int) returns (r: S.Reply)
      requires Indexed(pool.State())
      modifies this
      ensures (World(), r) == S.Settle(old(World()), t)
    {
      if t in failed {
        r := S.Refused(failed[t]);
        failed := failed - {t};
      } else if cancelled {
        r := S.Refused(BackendFailure);
      } else {
        r := AfterDeadline(t);
      }
    }

    method FetchAgain(t: int)
      requires Indexed(pool.State())
      modifies this, pool, driver
      ensures Indexed(pool.State())
      ensures World() == if t in old(pending) then old(World()) else S.FetchNow(old(World()), D(), t)
    {
      if t !in pending {
        ScheduleFetch(t);
      }
    }

    method Refetch(t: int, req: Selection) returns (r: S.Reply)
      requires Indexed(pool.State())
      modifies this, pool, driver
      ensures Indexed(pool.State())
      ensures (World(), r) == S.Refetch(old(World()), D(), t, req)
    {
      hide S.FetchNow, S.Look, S.Settle;
      FetchAgain(t);
      var taken := Look(t, req);
      match taken
      case Got(slot) => r := S.Ready(slot);
      case Failure(e) => r := S.Refused(e);
      case Stale =>
        ScheduleFetch(t);
        r := Settle(t);
      case Missing => r := Settle(t);
    }

    method GetBuffer(t: int, req: Selection) returns (r: S.Reply)
      requires Indexed(pool.State())
      modifies this, pool, driver
      ensures Indexed(pool.State()) && (World(), r) == S.GetBuffer(old(World()), D(), t, req)
    {
      hide S.FetchAll, S.Look, S.Refetch;
      latched := req;
      KickOff(t);
      var taken := Look(t, req);
      match taken
      case Got(slot) => r := S.Ready(slot);
      case Failure(e) => r := S.Refused(e);
      case _ => r := Refetch(t, req);
    }

    method ScheduleNext(t: int)
      requires Indexed(pool.State())
      modifies this, pool, driver
      ensures Indexed(pool.State()) && World() == S.ScheduleNext(old(World()), D(), t)
    {
      if t + depth >= total {
        return;
      }
      ScheduleFetch(t + depth);
    }

    method ReleaseFirst()
      requires Indexed(pool.State()) && completed != map[]
      modifies this`completed, pool
      ensures Indexed(pool.State()) && |completed| < |old(completed)|
      ensures DropAll(completed, pool.State()) == DropAll(old(completed), old(pool.State()))
    {
      ghost var least := LeastExists(completed.Keys);
      var t :| t in completed && forall u :: u in completed ==> t <= u;
      DropAllStep(completed, t, pool.State());
      pool.Drop(completed[t]);
      completed := completed - {t};
    }

    // Staged buffers are released in timestep order.
    method ReleaseStaged()
      requires Indexed(pool.State())
      modifies this`completed, pool
      ensures completed == map[] && Indexed(pool.State())
      ensures pool.State() == DropAll(old(completed), old(pool.State()))
    {
      while completed != map[]
        invariant Indexed(pool.State())
        invariant DropAll(completed, pool.State()) == DropAll(old(completed), old(pool.State()))
        decreases |completed|
      {
        ReleaseFirst();
      }
    }

    method CancelPending()
      requires Indexed(pool.State())
      modifies this, pool
      ensures Indexed(pool.State()) && World() == S.Cancel(old(World()))
    {
      cancelled := true;
      pending := {};
      ReleaseStaged();
      fetched, failed := map[], map[];
    }
  }
}
