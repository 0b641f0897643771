// The staging pool as the object that owns the slots and the free list. A
// method is one section under the pool's mutex; waiting for another thread's
// release is a later call.
// That every call keeps Staging.Inv is AcquireMeaning, ReleaseKeeps and
// AddRefKeeps there.
module StagingPools {
  import opened Collections
  import S = Staging
  import opened Staging

  class StagingPool {
    const nominal: nat
    const ceiling: nat
    const growing: bool
    var buffers: seq<Buffer>
    var freeList: seq<nat>

    function State(): Pool
      reads this
    {
      Pool(buffers, freeList, nominal, ceiling, growing)
    }

    // Bounded pools never exceed the configured count.
    constructor (count: nat, capacity: nat, maxCount: nat, growing: bool)
      requires 1 <= count <= maxCount && 1 <= capacity
      ensures State() == Initial(count, capacity, maxCount, growing) && Inv(State())
    {
      nominal := capacity;
      ceiling := if growing then maxCount else count;
      this.growing := growing;
      buffers := seq(count, _ => FRESH_SLOT);
      freeList := seq(count, i => i);
      new;
      InitialKeeps(count, capacity, maxCount, growing);
    }

    method FindBestFit(required: nat) returns (k: nat)
      requires Indexed(State())
      ensures k == S.FindBestFit(State(), required)
    {
      for i := 0 to |freeList|
        invariant FirstFit(State(), required, i) == FirstFit(State(), required, 0)
      {
        var b := buffers[freeList[i]];
        if b.committed && b.capacity >= required {
          return i;
        }
      }
      for i := 0 to |freeList|
        invariant FirstUncommitted(State(), i) == FirstUncommitted(State(), 0)
      {
        if !buffers[freeList[i]].committed {
          return i;
        }
      }
      if freeList != [] {
        return |freeList| - 1;
      }
      return |freeList|;
    }

    method EnsureStorage(i: nat, required: nat)
      requires i < |buffers|
      modifies this`buffers
      ensures buffers == old(buffers)[i := S.EnsureStorage(old(buffers)[i], required, nominal)]
    {
      var b := buffers[i];
      var target := if required > nominal then required else nominal;
      if b.committed && b.capacity >= target {
        return;
      }
      buffers := buffers[i := b.(committed := true, capacity := target, data := [])];
    }

    method RemoveFromFreeList(k: nat) returns (i: nat)
      requires Indexed(State()) && k < |freeList|
      modifies this
      ensures i == old(freeList)[k]
      ensures freeList == old(freeList)[..k] + old(freeList)[k + 1..]
      ensures buffers == old(buffers)[i := old(buffers)[i].(refs := 1, stamp := old(buffers)[i].stamp + 1)]
    {
      i := freeList[k];
      freeList := freeList[..k] + freeList[k + 1..];
      buffers := buffers[i := buffers[i].(refs := 1, stamp := buffers[i].stamp + 1)];
    }

    // None after the wait has timed out with nothing released.
    method Acquire(required: nat) returns (r: Option<nat>)
      requires Indexed(State())
      modifies this
      ensures (State(), r) == S.Acquire(old(State()), required)
    {
      while true
        invariant Indexed(State())
        invariant State() == old(State()) || (CanAddSlot(old(State())) && State() == WithSlot(old(State())))
        decreases freeList == []
      {
        var k := FindBestFit(required);
        if k < |freeList| {
          ghost var q := WithSlot(old(State()));
          assert State() == q;
          EnsureStorage(freeList[k], required);
          var i := RemoveFromFreeList(k);
          assert buffers == Take(q, required, k).buffers;
          return Some(i);
        }
        if growing && |buffers| < ceiling {
          buffers := buffers + [FRESH_SLOT];
          freeList := freeList + [|buffers| - 1];
          continue;
        }
        return None;
      }
    }

    // Where a buffer of this capacity goes in the sorted free list.
    method InsertionPoint(capacity: nat) returns (k: nat)
      requires Indexed(State())
      ensures k == LowerBound(State(), capacity, 0)
    {
      k := 0;
      while k < |freeList| && buffers[freeList[k]].capacity < capacity
        invariant k <= |freeList|
        invariant LowerBound(State(), capacity, k) == LowerBound(State(), capacity, 0)
      {
        k := k + 1;
      }
    }

    // The last reference is gone: back into the free list.
    method Reclaim(i: nat)
      requires Indexed(State()) && i < |buffers|
      modifies this
      ensures State() == Insert(old(State()).(buffers := old(buffers)[i := old(buffers)[i].(refs := 0, used := 0)]), i)
    {
      buffers := buffers[i := buffers[i].(refs := 0, used := 0)];
      var k := InsertionPoint(buffers[i].capacity);
      freeList := freeList[..k] + [i] + freeList[k..];
    }

    method Release(i: nat)
      requires Indexed(State()) && InUse(State(), i)
      modifies this
      ensures State() == S.Release(old(State()), i)
    {
      if buffers[i].refs > 1 {
        buffers := buffers[i := buffers[i].(refs := buffers[i].refs - 1)];
      } else {
        Reclaim(i);
      }
    }

    method Drop(i: nat)
      requires Indexed(State())
      modifies this
      ensures State() == S.Drop(old(State()), i)
    {
      if i < |buffers| && buffers[i].refs > 0 {
        Release(i);
      }
    }

    method AddReference(i: nat)
      requires InUse(State(), i)
      modifies this
      ensures State() == AddRef(old(State()), i)
    {
      buffers := buffers[i := buffers[i].(refs := buffers[i].refs + 1)];
    }

    // A driver writing through the buffer pointer it was given.
    method Deposit(i: nat, data: Payload, used: nat)
      requires InUse(State(), i)
      modifies this
      ensures State() == Fill(old(State()), i, data, used)
    {
      buffers := buffers[i := buffers[i].(data := data, used := used)];
    }

    method CommittedBytes() returns (total: nat)
      ensures total == Committed(buffers)
    {
      total := 0;
      for i := 0 to |buffers|
        invariant total == Committed(buffers[..i])
      {
        assert buffers[..i + 1][..i] == buffers[..i];
        total := total + buffers[i].capacity;
      }
      assert buffers[..|buffers|] == buffers;
    }
  }
}
