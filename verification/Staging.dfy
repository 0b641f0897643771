// The staging allocator as functions on its slots: lazy commit, best fit,
// growth of buffers and of the slot count, and reference counts.
module Staging {
  import opened Collections

  type Payload = seq<int>

  datatype Buffer = Buffer(committed: bool, capacity: nat, used: nat, refs: nat, stamp: nat, data: Payload)

  const FRESH_SLOT := Buffer(false, 0, 0, 0, 0, [])

  // Slot indices in free are kept sorted by capacity. The ceiling bounds the
  // number of slots; only a growing pool adds any.
  datatype Pool = Pool(buffers: seq<Buffer>, free: seq<nat>, nominal: nat, ceiling: nat, growing: bool)

  predicate Indexed(p: Pool) {
    forall k :: 0 <= k < |p.free| ==> p.free[k] < |p.buffers|
  }

  type IndexedPool = p: Pool | Indexed(p) witness Pool([], [], 0, 0, false)

  function FreeBuffer(p: Pool, k: nat): Buffer
    requires Indexed(p) && k < |p.free|
  {
    p.buffers[p.free[k]]
  }

  predicate Fits(b: Buffer, n: nat) {
    b.committed && b.capacity >= n
  }

  function FirstFit(p: Pool, n: nat, k: nat): (r: nat)
    requires Indexed(p) && k <= |p.free|
    ensures k <= r <= |p.free|
    decreases |p.free| - k
  {
    if k == |p.free| || Fits(FreeBuffer(p, k), n) then k else FirstFit(p, n, k + 1)
  }

  function FirstUncommitted(p: Pool, k: nat): (r: nat)
    requires Indexed(p) && k <= |p.free|
    ensures k <= r <= |p.free|
    decreases |p.free| - k
  {
    if k == |p.free| || !FreeBuffer(p, k).committed then k else FirstUncommitted(p, k + 1)
  }

  // Reuse, else commit, else grow the last (largest) free buffer; |free| when
  // nothing is free.
  function FindBestFit(p: Pool, n: nat): (r: nat)
    requires Indexed(p)
    ensures r <= |p.free| && (r == |p.free| <==> p.free == [])
  {
    if FirstFit(p, n, 0) < |p.free| then FirstFit(p, n, 0)
    else if FirstUncommitted(p, 0) < |p.free| then FirstUncommitted(p, 0)
    else if p.free != [] then |p.free| - 1
    else |p.free|
  }

  function Larger(a: nat, b: nat): nat {
    if a > b then a else b
  }

  function EnsureStorage(b: Buffer, n: nat, nominal: nat): Buffer {
    var target := Larger(n, nominal);
    if b.committed && b.capacity >= target then b
    else b.(committed := true, capacity := target, data := [])
  }

  predicate CanAddSlot(p: Pool) {
    p.free == [] && p.growing && |p.buffers| < p.ceiling
  }

  function WithSlot(p: Pool): Pool {
    if CanAddSlot(p) then p.(buffers := p.buffers + [FRESH_SLOT], free := [|p.buffers|]) else p
  }

  function Take(p: Pool, n: nat, k: nat): Pool
    requires Indexed(p) && k < |p.free|
  {
    var i := p.free[k];
    var b := EnsureStorage(p.buffers[i], n, p.nominal);
    p.(buffers := p.buffers[i := b.(refs := 1, stamp := b.stamp + 1)], free := p.free[..k] + p.free[k + 1..])
  }

  // None is the timeout: nothing free and no slot may be added.
  function Acquire(p: Pool, n: nat): (Pool, Option<nat>)
    requires Indexed(p)
  {
    var q := WithSlot(p);
    var k := FindBestFit(q, n);
    if k == |q.free| then (q, None) else (Take(q, n, k), Some(q.free[k]))
  }

  function LowerBound(p: Pool, capacity: nat, k: nat): (r: nat)
    requires Indexed(p) && k <= |p.free|
    ensures k <= r <= |p.free|
    decreases |p.free| - k
  {
    if k == |p.free| || FreeBuffer(p, k).capacity >= capacity then k else LowerBound(p, capacity, k + 1)
  }

  function Insert(p: Pool, i: nat): Pool
    requires Indexed(p) && i < |p.buffers|
  {
    var k := LowerBound(p, p.buffers[i].capacity, 0);
    p.(free := p.free[..k] + [i] + p.free[k..])
  }

  predicate InUse(p: Pool, i: nat) {
    i < |p.buffers| && p.buffers[i].refs > 0
  }

  function Release(p: Pool, i: nat): Pool
    requires Indexed(p) && InUse(p, i)
  {
    var b := p.buffers[i];
    if b.refs > 1 then p.(buffers := p.buffers[i := b.(refs := b.refs - 1)])
    else Insert(p.(buffers := p.buffers[i := b.(refs := 0, used := 0)]), i)
  }

  // The source asserts that the slot is in use; runs of the read path never
  // meet the other branch.
  function Drop(p: Pool, i: nat): (r: Pool)
    requires Indexed(p)
    ensures Indexed(r)
  {
    if InUse(p, i) then Release(p, i) else p
  }

  function AddRef(p: Pool, i: nat): Pool
    requires InUse(p, i)
  {
    p.(buffers := p.buffers[i := p.buffers[i].(refs := p.buffers[i].refs + 1)])
  }

  // A driver deposits a payload in a buffer its holder acquired.
  function Fill(p: Pool, i: nat, data: Payload, used: nat): Pool
    requires InUse(p, i)
  {
    p.(buffers := p.buffers[i := p.buffers[i].(data := data, used := used)])
  }

  function Committed(buffers: seq<Buffer>): nat {
    if buffers == [] then 0 else Committed(buffers[..|buffers| - 1]) + buffers[|buffers| - 1].capacity
  }

  // ----- the invariant -----

  ghost predicate Sorted(p: Pool)
    requires Indexed(p)
  {
    forall a, b :: 0 <= a < b < |p.free| ==> p.buffers[p.free[a]].capacity <= p.buffers[p.free[b]].capacity
  }

  ghost predicate Inv(p: Pool) {
    && Indexed(p) && Distinct(p.free)
    && |p.buffers| <= p.ceiling
    && (forall i :: 0 <= i < |p.buffers| ==> (i in p.free <==> p.buffers[i].refs == 0))
    && Sorted(p)
    && (forall i :: 0 <= i < |p.buffers| ==>
          if p.buffers[i].committed then p.buffers[i].capacity >= p.nominal
          else p.buffers[i].capacity == 0 && p.buffers[i].refs == 0)
  }

  function Initial(count: nat, nominal: nat, ceiling: nat, growing: bool): Pool {
    Pool(seq(count, _ => FRESH_SLOT), seq(count, i => i), nominal, if growing then ceiling else count, growing)
  }

  lemma InitialKeeps(count: nat, nominal: nat, ceiling: nat, growing: bool)
    requires count <= ceiling
    ensures Inv(Initial(count, nominal, ceiling, growing))
  {
    var p := Initial(count, nominal, ceiling, growing);
    forall i | 0 <= i < count ensures i in p.free {
      assert p.free[i] == i;
    }
  }

  lemma {:induction false} FirstFitMeaning(p: Pool, n: nat, k: nat)
    requires Indexed(p) && k <= |p.free|
    ensures var r := FirstFit(p, n, k);
      && (r < |p.free| ==> Fits(FreeBuffer(p, r), n))
      && (forall j :: k <= j < r ==> !Fits(FreeBuffer(p, j), n))
    decreases |p.free| - k
  {
    if k < |p.free| && !Fits(FreeBuffer(p, k), n) {
      FirstFitMeaning(p, n, k + 1);
    }
  }

  lemma {:induction false} FirstUncommittedMeaning(p: Pool, k: nat)
    requires Indexed(p) && k <= |p.free|
    ensures var r := FirstUncommitted(p, k);
      && (r < |p.free| ==> !FreeBuffer(p, r).committed)
      && (forall j :: k <= j < r ==> FreeBuffer(p, j).committed)
    decreases |p.free| - k
  {
    if k < |p.free| && FreeBuffer(p, k).committed {
      FirstUncommittedMeaning(p, k + 1);
    }
  }

  ghost predicate SomeFit(p: Pool, n: nat)
    requires Indexed(p)
  {
    exists j :: 0 <= j < |p.free| && Fits(FreeBuffer(p, j), n)
  }

  ghost predicate SomeUncommitted(p: Pool)
    requires Indexed(p)
  {
    exists j :: 0 <= j < |p.free| && !FreeBuffer(p, j).committed
  }

  // The choice: the smallest sufficient committed buffer, else an uncommitted
  // one, else the free buffer that needs the least growth.
  lemma BestFit(p: Pool, n: nat)
    requires Inv(p) && p.free != []
    ensures var k := FindBestFit(p, n);
      && (SomeFit(p, n) ==> Fits(FreeBuffer(p, k), n))
      && (SomeFit(p, n) ==>
            forall j :: 0 <= j < |p.free| && Fits(FreeBuffer(p, j), n) ==>
                FreeBuffer(p, k).capacity <= FreeBuffer(p, j).capacity)
      && (!SomeFit(p, n) && SomeUncommitted(p) ==> !FreeBuffer(p, k).committed)
      && (!SomeFit(p, n) && !SomeUncommitted(p) ==>
            forall j :: 0 <= j < |p.free| ==> n - FreeBuffer(p, k).capacity <= n - FreeBuffer(p, j).capacity)
  {
    FirstFitMeaning(p, n, 0);
    FirstUncommittedMeaning(p, 0);
  }

  // ----- preservation -----

  lemma TakeSorted(p: Pool, n: nat, k: nat)
    requires Indexed(p) && Distinct(p.free) && Sorted(p) && k < |p.free|
    ensures Indexed(Take(p, n, k)) && Sorted(Take(p, n, k))
  {
    var p' := Take(p, n, k);
    assert forall j :: 0 <= j < |p'.free| ==> p'.free[j] == p.free[if j < k then j else j + 1];
  }

  lemma TakeKeeps(p: Pool, n: nat, k: nat)
    requires Inv(p) && k < |p.free|
    ensures Inv(Take(p, n, k))
  {
    RemoveAt(p.free, k);
    TakeSorted(p, n, k);
    assert p.free[k] in p.free;
  }

  lemma WithSlotKeeps(p: Pool)
    requires Inv(p)
    ensures Inv(WithSlot(p))
  {
    if CanAddSlot(p) {
      assert |p.buffers| in WithSlot(p).free;
    }
  }

  lemma {:induction false} LowerBoundMeaning(p: Pool, capacity: nat, k: nat)
    requires Indexed(p) && k <= |p.free| && Sorted(p)
    ensures var r := LowerBound(p, capacity, k);
      && (forall j :: k <= j < r ==> FreeBuffer(p, j).capacity < capacity)
      && (forall j :: r <= j < |p.free| ==> FreeBuffer(p, j).capacity >= capacity)
    decreases |p.free| - k
  {
    if k < |p.free| && FreeBuffer(p, k).capacity < capacity {
      LowerBoundMeaning(p, capacity, k + 1);
    }
  }

  // Everything but the returned slot's own membership.
  ghost predicate InvExcept(p: Pool, i: nat) {
    && Indexed(p) && Distinct(p.free) && i !in p.free && i < |p.buffers| <= p.ceiling
    && (forall j :: 0 <= j < |p.buffers| && j != i ==> (j in p.free <==> p.buffers[j].refs == 0))
    && p.buffers[i].refs == 0
    && Sorted(p)
    && (forall j :: 0 <= j < |p.buffers| ==>
          if p.buffers[j].committed then p.buffers[j].capacity >= p.nominal
          else p.buffers[j].capacity == 0 && p.buffers[j].refs == 0)
  }

  lemma InsertKeeps(p: Pool, i: nat)
    requires InvExcept(p, i)
    ensures Inv(Insert(p, i))
  {
    var k := LowerBound(p, p.buffers[i].capacity, 0);
    InsertAt(p.free, k, i);
    InsertSorted(p, i);
  }

  // Inserting before the first entry that is not smaller keeps the order.
  lemma InsertInOrder(caps: seq<nat>, k: nat, c: nat)
    requires k <= |caps| && Ascending(caps)
    requires (k > 0 ==> caps[k - 1] < c) && (k < |caps| ==> c <= caps[k])
    ensures Ascending(caps[..k] + [c] + caps[k..])
  {
  }

  function FreeCapacities(p: Pool): (caps: seq<nat>)
    requires Indexed(p)
    ensures |caps| == |p.free| && forall k :: 0 <= k < |caps| ==> caps[k] == p.buffers[p.free[k]].capacity
  {
    seq(|p.free|, k requires 0 <= k < |p.free| => p.buffers[p.free[k]].capacity)
  }

  ghost predicate Ascending(caps: seq<nat>) {
    forall a, b :: 0 <= a < b < |caps| ==> caps[a] <= caps[b]
  }

  lemma SortedCapacities(p: Pool)
    requires Indexed(p)
    ensures Sorted(p) <==> Ascending(FreeCapacities(p))
  {
    var caps := FreeCapacities(p);
    if Sorted(p) {
      forall a, b | 0 <= a < b < |caps| ensures caps[a] <= caps[b] {
        assert p.buffers[p.free[a]].capacity <= p.buffers[p.free[b]].capacity;
      }
    }
  }

  lemma InsertedCapacities(p: Pool, i: nat, k: nat)
    requires Indexed(p) && i < |p.buffers| && k <= |p.free|
    ensures var q := p.(free := p.free[..k] + [i] + p.free[k..]);
      Indexed(q) && FreeCapacities(q) == FreeCapacities(p)[..k] + [p.buffers[i].capacity] + FreeCapacities(p)[k..]
  {
  }

  lemma InsertSorted(p: Pool, i: nat)
    requires Indexed(p) && Sorted(p) && i < |p.buffers|
    ensures Indexed(Insert(p, i)) && Sorted(Insert(p, i))
  {
    LowerBoundMeaning(p, p.buffers[i].capacity, 0);
    var k := LowerBound(p, p.buffers[i].capacity, 0);
    var caps := FreeCapacities(p);
    assert k > 0 ==> FreeBuffer(p, k - 1).capacity == caps[k - 1];
    assert k < |caps| ==> FreeBuffer(p, k).capacity == caps[k];
    SortedCapacities(p);
    InsertInOrder(caps, k, p.buffers[i].capacity);
    InsertedCapacities(p, i, k);
    SortedCapacities(Insert(p, i));
  }

  lemma LastReference(p: Pool, i: nat)
    requires Inv(p) && InUse(p, i)
    ensures InvExcept(p.(buffers := p.buffers[i := p.buffers[i].(refs := 0, used := 0)]), i)
  {
    assert forall k :: 0 <= k < |p.free| ==> p.free[k] in p.free;
  }

  lemma ReleaseKeeps(p: Pool, i: nat)
    requires Inv(p) && InUse(p, i)
    ensures Inv(Release(p, i))
  {
    hide Insert;
    if p.buffers[i].refs == 1 {
      LastReference(p, i);
      InsertKeeps(p.(buffers := p.buffers[i := p.buffers[i].(refs := 0, used := 0)]), i);
    } else {
      assert forall k :: 0 <= k < |p.free| ==> p.free[k] in p.free;
    }
  }

  lemma AddRefKeeps(p: Pool, i: nat)
    requires Inv(p) && InUse(p, i)
    ensures Inv(AddRef(p, i))
  {
    assert forall k :: 0 <= k < |p.free| ==> p.free[k] in p.free;
  }

  lemma FillKeeps(p: Pool, i: nat, data: Payload, used: nat)
    requires Inv(p) && InUse(p, i)
    ensures Inv(Fill(p, i, data, used))
  {
    assert forall k :: 0 <= k < |p.free| ==> p.free[k] in p.free;
  }

  lemma NothingFree(p: Pool)
    requires Inv(p)
    ensures p.free == [] <==> forall i :: 0 <= i < |p.buffers| ==> p.buffers[i].refs > 0
  {
    if p.free == [] {
      assert forall i :: 0 <= i < |p.buffers| ==> i !in p.free;
    } else {
      assert p.free[0] in p.free;
    }
  }

  // Growth never shrinks the buffer it picks.
  lemma TakeGrows(p: Pool, n: nat)
    requires Inv(p) && p.free != []
    ensures var i := p.free[FindBestFit(p, n)];
      var b, b' := p.buffers[i], EnsureStorage(p.buffers[i], n, p.nominal);
      b'.committed && b'.capacity >= b.capacity
      && Larger(n, p.nominal) <= b'.capacity <= Larger(Larger(n, p.nominal), b.capacity)
  {
    var k := FindBestFit(p, n);
    BestFit(p, n);
    if !SomeFit(p, n) {
      assert !Fits(FreeBuffer(p, k), n);
    }
  }

  // Every slot is held and none may be added.
  predicate Exhausted(p: Pool) {
    && (forall i :: 0 <= i < |p.buffers| ==> p.buffers[i].refs > 0)
    && !(p.growing && |p.buffers| < p.ceiling)
  }

  // Acquisition as its callers see it: it fails exactly when every slot is
  // held and none may be added, and otherwise hands out one unheld slot with
  // room for the request and disturbs no other.
  lemma AcquireMeaning(p: Pool, n: nat)
    requires Inv(p)
    ensures var (p', r) := Acquire(p, n);
      && Inv(p') && SameLimits(p, p')
      && (r.None? <==> Exhausted(p))
      && (r.None? ==> p' == p)
      && (r.Some? ==> Granted(p, p', n, r.value))
  {
    NothingFree(p);
    WithSlotKeeps(p);
    var q := WithSlot(p);
    if q.free != [] {
      TakeGrows(q, n);
      TakeKeeps(q, n, FindBestFit(q, n));
      assert q.free[FindBestFit(q, n)] in q.free;
    }
  }

  // Slot i was handed out for n bytes: one reference, enough storage, never
  // less than it had; a fresh slot only if none was free.
  ghost predicate Granted(p: Pool, p': Pool, n: nat, i: nat) {
    && i < |p'.buffers| && !InUse(p, i)
    && (|p'.buffers| == |p.buffers| || (|p'.buffers| == |p.buffers| + 1 && i == |p.buffers| && p.free == []))
    && p'.buffers[i].refs == 1 && p'.buffers[i].committed
    && (forall j :: 0 <= j < |p.buffers| && j != i ==> p'.buffers[j] == p.buffers[j])
    && (var before := if i < |p.buffers| then p.buffers[i] else FRESH_SLOT;
        && before.capacity <= p'.buffers[i].capacity && p'.buffers[i].stamp == before.stamp + 1
        && Larger(n, p.nominal) <= p'.buffers[i].capacity <= Larger(Larger(n, p.nominal), before.capacity))
  }

  // With a sufficient committed buffer free, no storage is touched.
  lemma ReuseAllocatesNothing(p: Pool, n: nat)
    requires Inv(p) && SomeFit(p, n)
    ensures var (p', r) := Acquire(p, n);
      && r.Some? && r.value in p.free
      && p'.buffers[r.value] == p.buffers[r.value].(refs := 1, stamp := p.buffers[r.value].stamp + 1)
      && (forall j :: 0 <= j < |p.free| && Fits(FreeBuffer(p, j), n) ==>
           p.buffers[r.value].capacity <= FreeBuffer(p, j).capacity)
  {
    BestFit(p, n);
  }

  // ----- whole runs -----

  datatype Op = DoAcquire(bytes: nat) | DoRelease(slot: nat) | DoAddRef(slot: nat)

  predicate Allowed(p: Pool, op: Op) {
    op.DoAcquire? || InUse(p, op.slot)
  }

  function Apply(p: Pool, op: Op): Pool
    requires Indexed(p) && Allowed(p, op)
  {
    match op
    case DoAcquire(bytes) => Acquire(p, bytes).0
    case DoRelease(slot) => Release(p, slot)
    case DoAddRef(slot) => AddRef(p, slot)
  }

  predicate SameLimits(p: Pool, q: Pool) {
    q.nominal == p.nominal && q.ceiling == p.ceiling && q.growing == p.growing
  }

  ghost predicate NeverShrinks(p: Pool, q: Pool) {
    && |p.buffers| <= |q.buffers|
    && forall i :: 0 <= i < |p.buffers| ==>
         p.buffers[i].capacity <= q.buffers[i].capacity && p.buffers[i].stamp <= q.buffers[i].stamp
  }

  ghost predicate Bounded(p: Pool, most: nat) {
    forall i :: 0 <= i < |p.buffers| ==> p.buffers[i].capacity <= Larger(p.nominal, most)
  }

  lemma ApplyKeeps(p: Pool, op: Op)
    requires Inv(p) && Allowed(p, op)
    ensures Inv(Apply(p, op)) && SameLimits(p, Apply(p, op))
  {
    match op
    case DoAcquire(bytes) => AcquireMeaning(p, bytes);
    case DoRelease(slot) => ReleaseKeeps(p, slot);
    case DoAddRef(slot) => AddRefKeeps(p, slot);
  }

  lemma GrantBounded(p: Pool, p': Pool, n: nat, i: nat, most: nat)
    requires Granted(p, p', n, i) && SameLimits(p, p') && Bounded(p, most) && n <= most
    ensures Bounded(p', most) && NeverShrinks(p, p')
  {
  }

  lemma ApplyBounded(p: Pool, op: Op, most: nat)
    requires Inv(p) && Allowed(p, op) && Bounded(p, most) && (op.DoAcquire? ==> op.bytes <= most)
    ensures Bounded(Apply(p, op), most) && NeverShrinks(p, Apply(p, op))
  {
    match op
    case DoAcquire(bytes) =>
      AcquireMeaning(p, bytes);
      if Acquire(p, bytes).1.Some? {
        GrantBounded(p, Apply(p, op), bytes, Acquire(p, bytes).1.value, most);
      }
    case DoRelease(slot) =>
    case DoAddRef(slot) =>
  }

  ghost predicate AllAllowed(p: Pool, ops: seq<Op>)
    requires Inv(p)
    decreases |ops|
  {
    if ops == [] then true
    else Allowed(p, ops[0]) && (ApplyKeeps(p, ops[0]); AllAllowed(Apply(p, ops[0]), ops[1..]))
  }

  ghost function ApplyAll(p: Pool, ops: seq<Op>): Pool
    requires Inv(p) && AllAllowed(p, ops)
    decreases |ops|
  {
    if ops == [] then p else ApplyKeeps(p, ops[0]); ApplyAll(Apply(p, ops[0]), ops[1..])
  }

  lemma {:induction false} CommittedBound(buffers: seq<Buffer>, each: nat)
    requires forall i :: 0 <= i < |buffers| ==> buffers[i].capacity <= each
    ensures Committed(buffers) <= |buffers| * each
    decreases |buffers|
  {
    if buffers != [] {
      var n := |buffers| - 1;
      CommittedBound(buffers[..n], each);
      assert |buffers| * each == n * each + each;
    }
  }

  // Over any run: the invariant, capacities that never shrink, never more
  // slots than the ceiling, and committed memory within the ceiling times the
  // larger of the nominal capacity and the largest request.
  lemma {:induction false} RunKeeps(p: Pool, ops: seq<Op>, most: nat)
    requires Inv(p) && AllAllowed(p, ops) && Bounded(p, most)
    requires forall k :: 0 <= k < |ops| && ops[k].DoAcquire? ==> ops[k].bytes <= most
    ensures var q := ApplyAll(p, ops);
      && Inv(q) && NeverShrinks(p, q) && |q.buffers| <= p.ceiling
      && Committed(q.buffers) <= p.ceiling * Larger(p.nominal, most)
    decreases |ops|
  {
    if ops == [] {
      var each := Larger(p.nominal, most);
      CommittedBound(p.buffers, each);
      assert |p.buffers| * each <= p.ceiling * each by {
        Scale(|p.buffers|, p.ceiling, each);
      }
    } else {
      ApplyKeeps(p, ops[0]);
      ApplyBounded(p, ops[0], most);
      RunKeeps(Apply(p, ops[0]), ops[1..], most);
    }
  }

  lemma Scale(a: nat, b: nat, x: nat)
    requires a <= b
    ensures a * x <= b * x
  {
  }

  // ----- which free buffer grows -----

  ghost predicate IsSmallest(p: Pool, k: nat)
    requires Indexed(p) && k < |p.free|
  {
    forall j :: 0 <= j < |p.free| ==> FreeBuffer(p, k).capacity <= FreeBuffer(p, j).capacity
  }

  // When a free buffer has to grow it is a largest one. It is also a smallest
  // one exactly when all free buffers have the same capacity.
  lemma GrowsSmallestExactlyWhen(p: Pool, n: nat)
    requires Inv(p) && p.free != [] && !SomeFit(p, n) && !SomeUncommitted(p)
    ensures FindBestFit(p, n) == |p.free| - 1
    ensures forall j :: 0 <= j < |p.free| ==> FreeBuffer(p, j).capacity <= FreeBuffer(p, |p.free| - 1).capacity
    ensures IsSmallest(p, FindBestFit(p, n)) <==>
      forall i, j :: 0 <= i < |p.free| && 0 <= j < |p.free| ==> FreeBuffer(p, i).capacity == FreeBuffer(p, j).capacity
  {
    FirstFitMeaning(p, n, 0);
    FirstUncommittedMeaning(p, 0);
    var k := |p.free| - 1;
    assert forall j :: 0 <= j < k ==> p.buffers[p.free[j]].capacity <= p.buffers[p.free[k]].capacity;
  }

  // Two slots that served requests of a and of b bytes; capacity zero stands
  // for a slot not yet used.
  function TwoSlots(nominal: nat, a: nat, refsA: nat, b: nat, refsB: nat, free: seq<nat>): Pool {
    Pool([Buffer(a > 0, a, 0, refsA, if a > 0 then 1 else 0, []),
        Buffer(b > 0, b, 0, refsB, if b > 0 then 1 else 0, [])],
         free, nominal, 2, false)
  }

  ghost predicate StepsTo(p: Pool, op: Op, q: Pool) {
    Inv(p) && Allowed(p, op) && Apply(p, op) == q && Inv(q)
  }

  lemma FirstRequest(p: Pool, a: nat)
    requires 1 <= p.nominal <= a && p == TwoSlots(p.nominal, 0, 0, 0, 0, [0, 1]) && Inv(p)
    ensures StepsTo(p, DoAcquire(a), TwoSlots(p.nominal, a, 1, 0, 0, [1]))
  {
    assert FirstFit(p, a, 0) == FirstFit(p, a, 1) == FirstFit(p, a, 2) == 2;
    assert FindBestFit(p, a) == 0;
    assert Take(p, a, 0).free == [1];
    ApplyKeeps(p, DoAcquire(a));
  }

  lemma SecondRequest(p: Pool, a: nat, b: nat)
    requires 1 <= p.nominal <= a < b && p == TwoSlots(p.nominal, a, 1, 0, 0, [1]) && Inv(p)
    ensures StepsTo(p, DoAcquire(b), TwoSlots(p.nominal, a, 1, b, 1, []))
  {
    assert FirstFit(p, b, 0) == FirstFit(p, b, 1) == 1;
    assert FindBestFit(p, b) == 0;
    assert Take(p, b, 0).free == [];
    ApplyKeeps(p, DoAcquire(b));
  }

  lemma FirstReturn(p: Pool, a: nat, b: nat)
    requires 1 <= p.nominal <= a < b && p == TwoSlots(p.nominal, a, 1, b, 1, []) && Inv(p)
    ensures StepsTo(p, DoRelease(0), TwoSlots(p.nominal, a, 0, b, 1, [0]))
  {
    assert Insert(TwoSlots(p.nominal, a, 0, b, 1, []), 0).free == [0];
    ApplyKeeps(p, DoRelease(0));
  }

  lemma SecondReturn(p: Pool, a: nat, b: nat)
    requires 1 <= p.nominal <= a < b && p == TwoSlots(p.nominal, a, 0, b, 1, [0]) && Inv(p)
    ensures StepsTo(p, DoRelease(1), TwoSlots(p.nominal, a, 0, b, 0, [0, 1]))
  {
    var q := TwoSlots(p.nominal, a, 0, b, 0, [0]);
    assert LowerBound(q, b, 0) == LowerBound(q, b, 1) == 1;
    assert Insert(q, 1).free == [0, 1];
    ApplyKeeps(p, DoRelease(1));
  }

  lemma Prepend(p: Pool, op: Op, q: Pool, ops: seq<Op>, r: Pool)
    requires StepsTo(p, op, q) && AllAllowed(q, ops) && ApplyAll(q, ops) == r
    ensures AllAllowed(p, [op] + ops) && ApplyAll(p, [op] + ops) == r
  {
    assert ([op] + ops)[1..] == ops;
  }

  ghost predicate Reachable(p: Pool, q: Pool) {
    Inv(p) && exists ops :: AllAllowed(p, ops) && ApplyAll(p, ops) == q
  }

  lemma OneStepEarlier(p: Pool, op: Op, q: Pool, r: Pool)
    requires StepsTo(p, op, q) && Reachable(q, r)
    ensures Reachable(p, r)
  {
    var ops :| AllAllowed(q, ops) && ApplyAll(q, ops) == r;
    Prepend(p, op, q, ops, r);
  }

  lemma HereReachable(p: Pool)
    requires Inv(p)
    ensures Reachable(p, p)
  {
    assert AllAllowed(p, []) && ApplyAll(p, []) == p;
  }

  // The documented choice fails in pools that requests produce: after any two
  // requests of different sizes were served and returned, a larger one grows
  // the larger of the two buffers.
  lemma GrowsLargerBuffer(p: Pool, a: nat, b: nat, n: nat)
    requires p == Initial(2, p.nominal, 2, false) && 1 <= p.nominal <= a < b < n
    ensures var q := TwoSlots(p.nominal, a, 0, b, 0, [0, 1]);
      && Reachable(p, q) && Inv(q) && !SomeFit(q, n) && !SomeUncommitted(q)
      && q.free[FindBestFit(q, n)] == 1 && !IsSmallest(q, FindBestFit(q, n))
  {
    InitialKeeps(2, p.nominal, 2, false);
    assert p.free == [0, 1];
    var p1, p2 := TwoSlots(p.nominal, a, 1, 0, 0, [1]), TwoSlots(p.nominal, a, 1, b, 1, []);
    var p3, q := TwoSlots(p.nominal, a, 0, b, 1, [0]), TwoSlots(p.nominal, a, 0, b, 0, [0, 1]);
    FirstRequest(p, a);
    SecondRequest(p1, a, b);
    FirstReturn(p2, a, b);
    SecondReturn(p3, a, b);
    HereReachable(q);
    OneStepEarlier(p3, DoRelease(1), q, q);
    OneStepEarlier(p2, DoRelease(0), p3, q);
    OneStepEarlier(p1, DoAcquire(b), p2, q);
    OneStepEarlier(p, DoAcquire(a), p1, q);
    LargerGrows(q, a, b, n);
  }

  lemma LargerGrows(q: Pool, a: nat, b: nat, n: nat)
    requires q == TwoSlots(q.nominal, a, 0, b, 0, [0, 1]) && Inv(q) && 1 <= a < b < n
    ensures !SomeFit(q, n) && !SomeUncommitted(q)
    ensures q.free[FindBestFit(q, n)] == 1 && !IsSmallest(q, FindBestFit(q, n))
  {
    assert FreeBuffer(q, 0).capacity == a && FreeBuffer(q, 1).capacity == b;
    GrowsSmallestExactlyWhen(q, n);
  }
}
