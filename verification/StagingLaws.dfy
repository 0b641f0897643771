// What is conserved over runs of the staging allocator: references, used
// bytes and committed memory.
module StagingLaws {
  import opened Collections
  import opened Staging

  // ----- committed memory -----

  lemma {:induction false} CommittedChanges(buffers: seq<Buffer>, buffers': seq<Buffer>, i: nat)
    requires i < |buffers| == |buffers'| && forall j :: 0 <= j < |buffers| && j != i ==> buffers'[j] == buffers[j]
    ensures Committed(buffers') + buffers[i].capacity == Committed(buffers) + buffers'[i].capacity
    decreases |buffers|
  {
    var n := |buffers| - 1;
    if i == n {
      assert buffers'[..n] == buffers[..n];
    } else {
      CommittedChanges(buffers[..n], buffers'[..n], i);
    }
  }

  function CapacityOf(p: Pool, i: nat): nat {
    if i < |p.buffers| then p.buffers[i].capacity else 0
  }

  // An acquisition commits exactly what the slot it hands out grows by, so
  // nothing when a buffer is reused; returns and added references commit and
  // free nothing.
  lemma CommitsGrowth(p: Pool, op: Op)
    requires Inv(p) && Allowed(p, op)
    ensures var p' := Apply(p, op);
      if op.DoAcquire? && Acquire(p, op.bytes).1.Some? then
        var i := Acquire(p, op.bytes).1.value;
        && Committed(p'.buffers) + CapacityOf(p, i) == Committed(p.buffers) + CapacityOf(p', i)
        && (SomeFit(p, op.bytes) ==> Committed(p'.buffers) == Committed(p.buffers))
      else Committed(p'.buffers) == Committed(p.buffers)
  {
    match op
    case DoAcquire(bytes) =>
      AcquireMeaning(p, bytes);
      var (p', r) := Acquire(p, bytes);
      if r.Some? {
        CommitsGrant(p, p', bytes, r.value);
        if SomeFit(p, bytes) {
          ReuseAllocatesNothing(p, bytes);
        }
      }
    case DoRelease(slot) => CommittedChanges(p.buffers, Apply(p, op).buffers, slot);
    case DoAddRef(slot) => CommittedChanges(p.buffers, Apply(p, op).buffers, slot);
  }

  lemma CommitsGrant(p: Pool, p': Pool, n: nat, i: nat)
    requires Granted(p, p', n, i)
    ensures Committed(p'.buffers) + CapacityOf(p, i) == Committed(p.buffers) + CapacityOf(p', i)
  {
    if i < |p.buffers| {
      CommittedChanges(p.buffers, p'.buffers, i);
    } else {
      assert p'.buffers[..|p.buffers|] == p.buffers;
    }
  }

  // A new pool holds no memory, and as many of its slots as it was asked for
  // are there and free; it can grow to its ceiling, or not at all.
  lemma InitialMeaning(count: nat, nominal: nat, ceiling: nat, growing: bool)
    requires count <= ceiling
    ensures var p := Initial(count, nominal, ceiling, growing);
      && Committed(p.buffers) == 0 && |p.buffers| == |p.free| == count && p.nominal == nominal
      && (forall i: nat :: !InUse(p, i)) && Clean(p)
      && (Exhausted(p) <==> count == 0 && (!growing || ceiling == 0))
      && p.ceiling == (if growing then ceiling else count)
  {
    NothingCommitted(count);
  }

  lemma {:induction false} NothingCommitted(count: nat)
    ensures Committed(seq(count, _ => FRESH_SLOT)) == 0
    decreases count
  {
    if count > 0 {
      NothingCommitted(count - 1);
      assert seq(count, _ => FRESH_SLOT)[..count - 1] == seq(count - 1, _ => FRESH_SLOT);
    }
  }

  // ----- reuse -----

  lemma FirstFitIs(p: Pool, n: nat, k: nat)
    requires Indexed(p) && k < |p.free| && Fits(FreeBuffer(p, k), n)
    requires forall j :: 0 <= j < k ==> !Fits(FreeBuffer(p, j), n)
    ensures Acquire(p, n).1 == Some(p.free[k])
  {
    FirstFitMeaning(p, n, 0);
  }

  lemma InsertedAt(q: Pool, i: nat) returns (k: nat)
    requires Indexed(q) && Sorted(q) && i < |q.buffers|
    ensures var r := Insert(q, i);
      && Indexed(r) && k < |r.free| && r.free[k] == i && r.buffers == q.buffers && k <= |q.free|
      && forall j :: 0 <= j < k ==> r.free[j] == q.free[j] && FreeBuffer(q, j).capacity < q.buffers[i].capacity
  {
    k := LowerBound(q, q.buffers[i].capacity, 0);
    LowerBoundMeaning(q, q.buffers[i].capacity, 0);
  }

  lemma ReturnedSame(p: Pool, q: Pool, i: nat)
    requires Inv(p) && InUse(p, i) && q == p.(buffers := p.buffers[i := p.buffers[i].(refs := 0, used := 0)])
    ensures Indexed(q) && Sorted(q) && forall j :: 0 <= j < |p.free| ==> FreeBuffer(q, j) == FreeBuffer(p, j)
  {
    assert forall j :: 0 <= j < |p.free| ==> p.free[j] in p.free && p.free[j] != i;
  }

  // Where a returned buffer lands: behind the smaller ones.
  lemma ReturnedAt(p: Pool, i: nat) returns (k: nat)
    requires Inv(p) && InUse(p, i) && p.buffers[i].refs == 1
    ensures var r := Release(p, i);
      && Indexed(r) && k < |r.free| && r.free[k] == i && k <= |p.free|
      && FreeBuffer(r, k) == p.buffers[i].(refs := 0, used := 0)
      && (forall j :: 0 <= j < k ==> FreeBuffer(r, j) == FreeBuffer(p, j))
      && (forall j :: 0 <= j < k ==> FreeBuffer(p, j).capacity < p.buffers[i].capacity)
  {
    hide Inv, Sorted, Insert;
    var q := p.(buffers := p.buffers[i := p.buffers[i].(refs := 0, used := 0)]);
    ReturnedSame(p, q, i);
    k := InsertedAt(q, i);
    assert Release(p, i) == Insert(q, i);
    assert forall j :: 0 <= j < k ==> FreeBuffer(q, j) == FreeBuffer(p, j);
  }

  // The buffer returned last serves the next request, if no smaller free one
  // would do.
  lemma ReusesReturned(p: Pool, i: nat, n: nat)
    requires Inv(p) && InUse(p, i) && p.buffers[i].refs == 1 && Fits(p.buffers[i], n)
    requires forall j :: 0 <= j < |p.free| && Fits(FreeBuffer(p, j), n) ==>
      p.buffers[i].capacity <= FreeBuffer(p, j).capacity
    ensures Indexed(Release(p, i)) && Acquire(Release(p, i), n).1 == Some(i)
  {
    hide Release, Acquire;
    var k := ReturnedAt(p, i);
    FirstFitIs(Release(p, i), n, k);
  }

  // ----- used bytes -----

  // A slot nobody holds holds no bytes.
  ghost predicate Clean(p: Pool) {
    forall i :: 0 <= i < |p.buffers| && p.buffers[i].refs == 0 ==> p.buffers[i].used == 0
  }

  lemma TakeIsEmpty(p: Pool, n: nat, k: nat)
    requires Indexed(p) && Clean(p) && k < |p.free| && p.buffers[p.free[k]].refs == 0
    ensures var p' := Take(p, n, k);
      Clean(p') && |p'.buffers| == |p.buffers| && p'.buffers[p.free[k]].used == 0
  {
  }

  // So a buffer is always handed out empty, however it was filled before.
  lemma GrantsAreEmpty(p: Pool, n: nat)
    requires Inv(p) && Clean(p)
    ensures var (p', r) := Acquire(p, n);
      Clean(p') && (r.Some? ==> r.value < |p'.buffers| && p'.buffers[r.value].used == 0)
  {
    hide Take, FindBestFit, Inv;
    var q := WithSlot(p);
    WithSlotKeeps(p);
    IndexedClean(p);
    if q.free != [] {
      TakeIsEmpty(q, n, FindBestFit(q, n));
    }
  }

  lemma IndexedClean(p: Pool)
    requires Inv(p) && Clean(p)
    ensures var q := WithSlot(p);
      Indexed(p) && Indexed(q) && Clean(q) && forall k :: 0 <= k < |q.free| ==> q.buffers[q.free[k]].refs == 0
  {
    WithSlotKeeps(p);
    var q := WithSlot(p);
    assert forall k :: 0 <= k < |q.free| ==> q.free[k] in q.free;
  }

  lemma StaysClean(p: Pool, op: Op)
    requires Inv(p) && Allowed(p, op) && Clean(p)
    ensures Clean(Apply(p, op))
  {
    if op.DoAcquire? {
      GrantsAreEmpty(p, op.bytes);
    }
  }

  lemma FilledStaysClean(p: Pool, i: nat, data: Payload, used: nat)
    requires Clean(p) && InUse(p, i)
    ensures Clean(Fill(p, i, data, used))
  {
  }

  // ----- references -----

  function RefsOf(p: Pool, i: nat): nat {
    if i < |p.buffers| then p.buffers[i].refs else 0
  }

  ghost predicate GrantedBy(p: Pool, op: Op, i: nat)
    requires Inv(p)
  {
    op.DoAcquire? && Acquire(p, op.bytes).1 == Some(i)
  }

  // How often a run hands out slot i or adds a reference to it, and how often
  // it releases one.
  ghost function Takes(p: Pool, ops: seq<Op>, i: nat): nat
    requires Inv(p) && AllAllowed(p, ops)
    decreases |ops|
  {
    if ops == [] then 0
    else
      ApplyKeeps(p, ops[0]);
      (if ops[0] == DoAddRef(i) || GrantedBy(p, ops[0], i) then 1 else 0) + Takes(Apply(p, ops[0]), ops[1..], i)
  }

  function Returns(ops: seq<Op>, i: nat): nat
    decreases |ops|
  {
    if ops == [] then 0 else (if ops[0] == DoRelease(i) then 1 else 0) + Returns(ops[1..], i)
  }

  lemma RefsStep(p: Pool, op: Op, i: nat)
    requires Inv(p) && Allowed(p, op)
    ensures RefsOf(Apply(p, op), i) + (if op == DoRelease(i) then 1 else 0)
         == RefsOf(p, i) + if op == DoAddRef(i) || GrantedBy(p, op, i) then 1 else 0
  {
    hide Acquire, LowerBound, Inv;
    if op.DoAcquire? {
      AcquireMeaning(p, op.bytes);
      RefsGranted(p, op.bytes, i);
    }
  }

  lemma RefsGranted(p: Pool, n: nat, i: nat)
    requires Inv(p)
    ensures var (p', r) := Acquire(p, n); RefsOf(p', i) == RefsOf(p, i) + if r == Some(i) then 1 else 0
  {
    hide Acquire;
    AcquireMeaning(p, n);
  }

  // Over any run, the references of a slot are what it started with, plus its
  // grants and added references, less its releases.
  lemma {:induction false} ReferencesBalance(p: Pool, ops: seq<Op>, i: nat)
    requires Inv(p) && AllAllowed(p, ops)
    ensures RefsOf(ApplyAll(p, ops), i) + Returns(ops, i) == RefsOf(p, i) + Takes(p, ops, i)
    decreases |ops|
  {
    hide Apply, RefsOf, GrantedBy;
    if ops != [] {
      ApplyKeeps(p, ops[0]);
      RefsStep(p, ops[0], i);
      ReferencesBalance(Apply(p, ops[0]), ops[1..], i);
    }
  }
}
