// One variable's look-ahead queue as functions on its maps and on the shared
// staging pool, cut at the queue's lock-protected sections.
module Prefetching {
  import opened Collections
  import opened Staging

  const MAX_RANK := 7

  // Sizes wrap around at this bound.
  const SIZE_RANGE := 0x1_0000_0000_0000_0000

  type Dims = s: seq<int> | |s| == 7 witness [0, 0, 0, 0, 0, 0, 0]

  datatype Bbox = Bbox(rank: int, offsets: Dims, extents: Dims, strides: Dims)

  // None selects the full record.
  type Selection = Option<Bbox>

  datatype Error = StagingBackpressure | BackendFailure | Timeout

  // What the driver reports for the variable, and what it would deliver for
  // each timestep and selection.
  datatype Source = Source(
    depth: nat, total: int, elementSize: nat, rank: int, extents: Dims,
    content: (int, Selection) -> Payload)

  // A fetch waits for a worker, has passed the cancellation check, or is
  // inside the driver with a buffer.
  datatype Task = Queued(sel: Selection) | Acquiring(sel: Selection) | Reading(sel: Selection, slot: nat)

  datatype Queue = Queue(
    completed: map<int, nat>,
    fetched: map<int, Bbox>,
    pending: set<int>,
    failed: map<int, Error>,
    latched: Selection,
    kickedOff: bool,
    cancelled: bool,
    tasks: map<int, Task>)

  const EMPTY := Queue(map[], map[], {}, map[], None, false, false, map[])

  // ----- selections -----

  predicate SameEntries(x: Bbox, y: Bbox, d: nat)
    requires d < MAX_RANK
  {
    x.offsets[d] == y.offsets[d] && x.extents[d] == y.extents[d] && x.strides[d] == y.strides[d]
  }

  predicate BboxSame(a: Selection, b: Selection) {
    match (a, b)
    case (None, None) => true
    case (Some(x), Some(y)) =>
      x.rank == y.rank && forall d :: 0 <= d < x.rank && d < MAX_RANK ==> SameEntries(x, y, d)
    case _ => false
  }

  function Clip(s: Dims, rank: int): Dims {
    seq(7, d requires 0 <= d < 7 => if d < rank then s[d] else 0)
  }

  // The bounding box the driver is handed: entries beyond the rank are zero.
  function ForDriver(sel: Selection): Selection {
    if sel.None? then None
    else
      var b := sel.value;
      Some(Bbox(b.rank, Clip(b.offsets, b.rank), Clip(b.extents, b.rank), Clip(b.strides, b.rank)))
  }

  // The cache's notion of equal selections is exactly what the driver can
  // tell apart.
  lemma BboxSameMeaning(a: Selection, b: Selection)
    ensures BboxSame(a, b) <==> ForDriver(a) == ForDriver(b)
  {
    if a.Some? && b.Some? {
      var x, y := a.value, b.value;
      if BboxSame(a, b) {
        forall d: nat | d < 7
          ensures Clip(x.offsets, x.rank)[d] == Clip(y.offsets, y.rank)[d]
          ensures Clip(x.extents, x.rank)[d] == Clip(y.extents, y.rank)[d]
          ensures Clip(x.strides, x.rank)[d] == Clip(y.strides, y.rank)[d]
        {
          assert d < x.rank ==> SameEntries(x, y, d);
        }
        assert Clip(x.offsets, x.rank) == Clip(y.offsets, y.rank);
        assert Clip(x.extents, x.rank) == Clip(y.extents, y.rank);
        assert Clip(x.strides, x.rank) == Clip(y.strides, y.rank);
      }
      if ForDriver(a) == ForDriver(b) {
        forall d: nat | d < x.rank && d < MAX_RANK ensures SameEntries(x, y, d) {
          assert Clip(x.offsets, x.rank)[d] == Clip(y.offsets, y.rank)[d];
          assert Clip(x.extents, x.rank)[d] == Clip(y.extents, y.rank)[d];
          assert Clip(x.strides, x.rank)[d] == Clip(y.strides, y.rank)[d];
        }
      }
    }
  }

  // Product of the extents from dimension d on, times acc, or None if one of
  // them is not positive.
  function Product(extents: Dims, rank: int, d: nat, acc: nat): Option<nat>
    requires d <= MAX_RANK
    decreases MAX_RANK - d
  {
    if d >= rank || d == MAX_RANK then Some(acc)
    else if extents[d] <= 0 then None
    else Product(extents, rank, d + 1, acc * extents[d] % SIZE_RANGE)
  }

  function PayloadBytes(elementSize: nat, extents: Dims, rank: int, otherwise: nat): nat {
    if elementSize == 0 || rank <= 0 then otherwise
    else match Product(extents, rank, 0, 1)
         case None => otherwise
         case Some(n) => elementSize * n % SIZE_RANGE
  }

  // The selection's payload, else the whole record's, else one nominal buffer.
  function AcquireBytes(src: Source, sel: Selection, nominal: nat): nat {
    var whole := PayloadBytes(src.elementSize, src.extents, src.rank, 0);
    var bytes := if sel.None? then whole else PayloadBytes(src.elementSize, sel.value.extents, sel.value.rank, whole);
    if bytes > 0 then bytes else nominal
  }

  // ----- the sections -----

  function Have(q: Queue, t: int): Selection {
    if t in q.fetched then Some(q.fetched[t]) else None
  }

  predicate Tracked(q: Queue, t: int) {
    t in q.pending || t in q.completed || t in q.failed
  }

  function Latch(q: Queue, sel: Selection): Queue {
    q.(latched := sel)
  }

  function Schedule(q: Queue, t: int): Queue {
    if q.cancelled || Tracked(q, t) then q
    else q.(pending := q.pending + {t}, tasks := q.tasks[t := Queued(q.latched)])
  }

  function CheckCancelled(q: Queue, t: int): Queue
    requires t in q.tasks && q.tasks[t].Queued?
  {
    if q.cancelled then q.(pending := q.pending - {t}, tasks := q.tasks - {t})
    else q.(tasks := q.tasks[t := Acquiring(q.tasks[t].sel)])
  }

  function MarkFailed(q: Queue, t: int, e: Error): Queue {
    q.(pending := q.pending - {t}, failed := q.failed[t := e], tasks := q.tasks - {t})
  }

  function MarkComplete(q: Queue, t: int, slot: nat, sel: Selection): Queue {
    q.(pending := q.pending - {t}, completed := q.completed[t := slot],
       fetched := if sel.Some? then q.fetched[t := sel.value] else q.fetched - {t},
       tasks := q.tasks - {t})
  }

  function AcquireFor(q: Queue, p: Pool, src: Source, t: int): (r: (Queue, Pool))
    requires Indexed(p) && t in q.tasks && q.tasks[t].Acquiring?
  {
    var sel := q.tasks[t].sel;
    var (p', slot) := Acquire(p, AcquireBytes(src, sel, p.nominal));
    if slot.None? then (MarkFailed(q, t, StagingBackpressure), p')
    else (q.(tasks := q.tasks[t := Reading(sel, slot.value)]), p')
  }

  // A driver call throws, leaving arbitrary bytes behind, or returns the
  // record it was asked for; either way it sets a byte count of its choice.
  datatype Outcome = Threw(garbage: Payload, used: nat) | Returned(used: nat)

  // The buffer holds the record of timestep t under the selection.
  ghost predicate Right(src: Source, t: int, sel: Selection, b: Buffer) {
    b.data == src.content(t, ForDriver(sel)) && b.used <= b.capacity
  }

  function Bytes(src: Source, t: int, sel: Selection, o: Outcome): Payload {
    if o.Threw? then o.garbage else src.content(t, ForDriver(sel))
  }

  // The capacity guard after the driver's read.
  predicate Kept(o: Outcome, capacity: nat) {
    o.Returned? && o.used <= capacity
  }

  function Deliver(q: Queue, p: Pool, src: Source, t: int, o: Outcome): (r: (Queue, Pool))
    requires Indexed(p) && t in q.tasks && q.tasks[t].Reading? && InUse(p, q.tasks[t].slot)
    ensures Indexed(r.1)
  {
    var Reading(sel, slot) := q.tasks[t];
    var p' := Fill(p, slot, Bytes(src, t, sel, o), o.used);
    if Kept(o, p.buffers[slot].capacity) then (MarkComplete(q, t, slot, sel), p')
    else (MarkFailed(q, t, BackendFailure), Drop(p', slot))
  }

  datatype Taken = Got(slot: nat) | Failure(error: Error) | Stale | Missing

  // The check get_buffer makes before waiting and after each wake-up: a
  // recorded failure, or a buffer staged under exactly the requested
  // selection; one staged under another selection is released.
  function Collect(q: Queue, p: Pool, t: int, req: Selection): (r: (Queue, Pool, Taken))
    requires Indexed(p)
    ensures Indexed(r.1)
  {
    if t in q.failed then (q.(failed := q.failed - {t}), p, Failure(q.failed[t]))
    else if t !in q.completed then (q, p, Missing)
    else
      var q' := q.(completed := q.completed - {t}, fetched := q.fetched - {t});
      if BboxSame(Have(q, t), req) then (q', p, Got(q.completed[t]))
      else (q', Drop(p, q.completed[t]), Stale)
  }

  // The last look after the deadline compares no selections.
  function CollectAfterTimeout(q: Queue, t: int): (Queue, Taken) {
    if t in q.completed then (q.(completed := q.completed - {t}), Got(q.completed[t]))
    else if t in q.failed then (q.(failed := q.failed - {t}), Failure(q.failed[t]))
    else (q, Failure(Timeout))
  }

  lemma {:induction false} LeastExists(s: set<int>) returns (t: int)
    requires s != {}
    ensures t in s && forall u :: u in s ==> t <= u
    decreases |s|
  {
    var x := Pick(s);
    var rest := s - {x};
    if rest == {} {
      assert s == {x};
      t := x;
    } else {
      var u := LeastExists(rest);
      assert forall v :: v in s ==> v == x || v in rest;
      t := if u < x then u else x;
    }
  }

  ghost function Least(s: set<int>): (t: int)
    requires s != {}
    ensures t in s && forall u :: u in s ==> t <= u
  {
    assert exists t :: t in s && forall u :: u in s ==> t <= u by {
      var t := LeastExists(s);
    }
    var t :| t in s && forall u :: u in s ==> t <= u;
    t
  }

  // Release every staged buffer, in timestep order.
  ghost function DropAll(completed: map<int, nat>, p: Pool): (r: Pool)
    requires Indexed(p)
    ensures Indexed(r)
    decreases |completed.Keys|
  {
    if completed == map[] then p
    else
      var t := Least(completed.Keys);
      assert (completed - {t}).Keys == completed.Keys - {t};
      DropAll(completed - {t}, Drop(p, completed[t]))
  }

  ghost predicate Stages(completed: map<int, nat>, i: nat) {
    exists t :: t in completed && completed[t] == i
  }

  // Each staged slot is held once, by nothing but its entry.
  ghost predicate HeldOnce(completed: map<int, nat>, p: Pool) {
    && (forall t :: t in completed ==> InUse(p, completed[t]) && p.buffers[completed[t]].refs == 1)
    && (forall t, u :: t in completed && u in completed && t != u ==> completed[t] != completed[u])
  }

  lemma DropKeeps(p: Pool, i: nat)
    requires Inv(p) && InUse(p, i) && p.buffers[i].refs == 1
    ensures Inv(Drop(p, i)) && SameLimits(p, Drop(p, i)) && !InUse(Drop(p, i), i)
    ensures forall j: nat :: j < |p.buffers| && j != i ==> Drop(p, i).buffers[j] == p.buffers[j]
    ensures |Drop(p, i).buffers| == |p.buffers|
  {
    ReleaseKeeps(p, i);
  }

  // Exactly the staged slots have come free.
  ghost predicate Freed(completed: map<int, nat>, p: Pool, p': Pool) {
    && Inv(p') && SameLimits(p, p') && |p'.buffers| == |p.buffers|
    && (forall i: nat :: InUse(p', i) <==> InUse(p, i) && !Stages(completed, i))
    && (forall i: nat :: InUse(p', i) ==> p'.buffers[i] == p.buffers[i])
  }

  lemma RestStages(completed: map<int, nat>, t: int)
    requires t in completed
    ensures forall i :: Stages(completed, i) <==> Stages(completed - {t}, i) || i == completed[t]
  {
    var rest := completed - {t};
    forall i | Stages(completed, i) ensures Stages(rest, i) || i == completed[t] {
      var u :| u in completed && completed[u] == i;
      assert u != t ==> u in rest && rest[u] == i;
    }
  }

  lemma RestHeldOnce(completed: map<int, nat>, t: int, p: Pool)
    requires Inv(p) && HeldOnce(completed, p) && t in completed
    ensures HeldOnce(completed - {t}, Drop(p, completed[t]))
  {
    hide Inv, Drop;
    DropKeeps(p, completed[t]);
  }

  lemma RestFreed(completed: map<int, nat>, t: int, p: Pool, p': Pool)
    requires Inv(p) && HeldOnce(completed, p) && t in completed
    requires Freed(completed - {t}, Drop(p, completed[t]), p')
    ensures Freed(completed, p, p')
  {
    hide Inv, Drop, Stages;
    DropKeeps(p, completed[t]);
    RestStages(completed, t);
  }

  lemma DropAllStep(completed: map<int, nat>, t: int, p: Pool)
    requires Indexed(p) && t in completed && forall u :: u in completed ==> t <= u
    ensures DropAll(completed, p) == DropAll(completed - {t}, Drop(p, completed[t]))
  {
    assert Least(completed.Keys) == t;
  }

  lemma {:induction false} DropAllKeeps(completed: map<int, nat>, p: Pool)
    requires Inv(p) && HeldOnce(completed, p)
    ensures Freed(completed, p, DropAll(completed, p))
    decreases |completed.Keys|
  {
    if completed != map[] {
      var t := Least(completed.Keys);
      assert (completed - {t}).Keys == completed.Keys - {t};
      DropKeeps(p, completed[t]);
      RestHeldOnce(completed, t, p);
      DropAllKeeps(completed - {t}, Drop(p, completed[t]));
      RestFreed(completed, t, p, DropAll(completed, p));
    }
  }

  function Cancelled(q: Queue): Queue {
    q.(cancelled := true, pending := {}, completed := map[], fetched := map[], failed := map[])
  }

  // ----- invariant of one queue -----

  // A timestep is in at most one of: being fetched, staged, failed. Until
  // cancellation, pending is exactly what is being fetched.
  ghost predicate QueueInv(q: Queue) {
    && q.tasks.Keys !! q.completed.Keys
    && q.tasks.Keys !! q.failed.Keys
    && q.completed.Keys !! q.failed.Keys
    && (if q.cancelled then q.pending == {} else q.pending == q.tasks.Keys)
  }

  lemma ScheduleSection(q: Queue, t: int)
    requires QueueInv(q)
    ensures QueueInv(Schedule(q, t)) && QueueInv(Cancelled(q)) && QueueInv(CollectAfterTimeout(q, t).0)
  {
  }

  lemma TaskEnds(q: Queue, t: int)
    requires QueueInv(q) && t in q.tasks
    ensures forall e :: QueueInv(MarkFailed(q, t, e))
    ensures forall slot, sel :: QueueInv(MarkComplete(q, t, slot, sel))
  {
  }

  lemma CheckSection(q: Queue, t: int)
    requires QueueInv(q) && t in q.tasks && q.tasks[t].Queued?
    ensures QueueInv(CheckCancelled(q, t))
  {
  }

  lemma SectionsKeep(q: Queue, t: int)
    requires QueueInv(q)
    ensures QueueInv(Schedule(q, t))
    ensures t in q.tasks && q.tasks[t].Queued? ==> QueueInv(CheckCancelled(q, t))
    ensures forall e :: t in q.tasks ==> QueueInv(MarkFailed(q, t, e))
    ensures forall slot, sel :: t in q.tasks ==> QueueInv(MarkComplete(q, t, slot, sel))
    ensures QueueInv(CollectAfterTimeout(q, t).0)
    ensures QueueInv(Cancelled(q))
  {
    hide QueueInv, Schedule, CheckCancelled, MarkFailed, MarkComplete, CollectAfterTimeout, Cancelled;
    ScheduleSection(q, t);
    if t in q.tasks {
      TaskEnds(q, t);
      if q.tasks[t].Queued? {
        CheckSection(q, t);
      }
    }
  }
}
