// The rank pool as the object whose vectors and counters its operations
// update in place.
module RankPoolObjects {
  import opened Collections
  import P = RankPools
  import opened RankPools

  class RankPool {
    var ids: seq<int>
    var bits: seq<bool>
    var total: nat
    var available: nat

    function State(): Pool
      reads this
    {
      Pool(ids, bits, total, available)
    }

    constructor (ranks: seq<int>)
      requires Distinct(ranks)
      ensures Valid(State()) && ids == ranks && Held(State()) == {} && Free(State()) == set r | r in ranks
    {
      ids := ranks;
      bits := seq(|ranks|, _ => true);
      total := |ranks|;
      available := |ranks|;
      new;
      AllTrue(bits);
    }

    // None is the exception thrown for a request of zero ranks.
    method TryAllocate(count: nat) returns (r: Option<set<int>>)
      requires Valid(State())
      modifies this
      ensures Valid(State())
      ensures r.None? <==> count == 0
      ensures r.None? ==> State() == old(State())
      ensures r.Some? ==> (State(), r.value) == P.TryAllocate(old(State()), count)
    {
      if count == 0 {
        return None;
      }
      AllocateKeepsValid(State(), count);
      if available < count {
        return Some({});
      }
      ClaimSize(State(), count);
      var got: set<int> := {};
      ghost var claimed := ClaimFrom(ids, bits, count, 0, {});
      var i := 0;
      while i < |ids| && |got| < count
        invariant i <= |ids| == |bits|
        invariant ids == old(ids) && total == old(total) && available == old(available)
        invariant ClaimFrom(ids, bits, count, i, got) == claimed
      {
        if bits[i] {
          bits := bits[i := false];
          got := got + {ids[i]};
        }
        i := i + 1;
      }
      if |got| < count {
        // The roll-back: the available count promised enough free slots, so
        // the scan cannot come up short.
        assert false;
      }
      available := available - |got|;
      return Some(got);
    }

    method Release(ranks: set<int>)
      requires Valid(State())
      modifies this
      ensures Valid(State()) && State() == P.Release(old(State()), ranks)
    {
      ghost var target := P.Release(State(), ranks).bits;
      ReleaseMeaning(State(), ranks);
      var released := 0;
      for i := 0 to |ids|
        invariant ids == old(ids) && total == old(total) && available == old(available)
        invariant |bits| == |ids|
        invariant forall j :: 0 <= j < |ids| ==> bits[j] == if j < i then target[j] else old(bits)[j]
        invariant Trues(bits) == available + released
      {
        if ids[i] in ranks && !bits[i] {
          TruesUpdate(bits[i := true], i);
          assert bits[i := true][i := false] == bits;
          bits := bits[i := true];
          released := released + 1;
        }
      }
      assert bits == target;
      available := available + released;
    }

    method AddRanks(ranks: seq<int>)
      requires Valid(State())
      modifies this
      ensures Valid(State()) && State() == P.AddRanks(old(State()), ranks)
    {
      AddMeaning(State(), ranks);
      for k := 0 to |ranks|
        invariant |ids| == |bits|
        invariant P.AddRanks(State(), ranks[k..]) == P.AddRanks(old(State()), ranks)
      {
        assert ranks[k..][1..] == ranks[k + 1..];
        var found := false;
        for i := 0 to |ids|
          invariant found <==> ranks[k] in ids[..i]
        {
          if ids[i] == ranks[k] {
            found := true;
            break;
          }
        }
        if !found {
          ids := ids + [ranks[k]];
          bits := bits + [true];
          total := total + 1;
          available := available + 1;
        }
      }
    }

    // The indices of the free slots whose rank is requested, ascending.
    method CollectRemovable(ranks: set<int>) returns (indices: seq<nat>, removed: set<int>)
      requires Valid(State())
      ensures Ascending(indices)
      ensures forall j :: j in indices <==> 0 <= j < |ids| && Removable(ids, bits, ranks, j)
      ensures removed == Free(State()) * ranks
    {
      removed := {};
      indices := [];
      for i := 0 to |ids|
        invariant forall k :: 0 <= k < |indices| ==> indices[k] < i
        invariant Ascending(indices)
        invariant forall j :: j in indices <==> 0 <= j < i && Removable(ids, bits, ranks, j)
        invariant removed == set j | 0 <= j < i && Removable(ids, bits, ranks, j) :: ids[j]
      {
        if ids[i] in ranks && bits[i] {
          indices := indices + [i];
          removed := removed + {ids[i]};
        }
      }
      forall x | x in Free(State()) * ranks ensures x in removed {
        var j :| 0 <= j < |ids| && bits[j] && ids[j] == x;
        assert Removable(ids, bits, ranks, j);
      }
    }

    // Swap-and-pop at each index, highest first.
    method DropIndices(indices: seq<nat>, ranks: set<int>)
      requires |ids| == |bits| && Ascending(indices)
      requires forall j :: j in indices <==> 0 <= j < |ids| && Removable(ids, bits, ranks, j)
      modifies this`ids, this`bits
      ensures (ids, bits) == old(RemoveBelow(ids, bits, ranks, |ids|))
    {
      forall k | 0 <= k < |indices| ensures indices[k] < |ids| {
        assert indices[k] in indices;
      }
      var m := |indices|;
      ghost var bound: nat := |ids|;
      while m > 0
        invariant 0 <= m <= |indices| && bound <= |ids| == |bits| && bound <= |old(ids)|
        invariant forall j :: 0 <= j < bound ==> ids[j] == old(ids)[j] && bits[j] == old(bits)[j]
        invariant forall k :: 0 <= k < |indices| ==> (indices[k] < bound <==> k < m)
        invariant RemoveBelow(ids, bits, ranks, bound) == old(RemoveBelow(ids, bits, ranks, |ids|))
      {
        m := m - 1;
        var index := indices[m];
        assert index in indices;
        forall j | index < j < bound ensures !Removable(ids, bits, ranks, j) {
          assert j !in indices;
        }
        SkipKept(ids, bits, ranks, bound, index + 1);
        ids, bits, bound := Drop(ids, index), Drop(bits, index), index;
      }
      forall j | 0 <= j < bound ensures !Removable(ids, bits, ranks, j) {
        assert j !in indices;
      }
      SkipKept(ids, bits, ranks, bound, 0);
    }

    method RemoveAvailable(ranks: set<int>) returns (removed: set<int>)
      requires Valid(State())
      modifies this
      ensures Valid(State()) && State() == P.RemoveAvailable(old(State()), ranks)
      ensures removed == Free(old(State())) * ranks
    {
      RemovalSizes(State(), ranks);
      var indices;
      indices, removed := CollectRemovable(ranks);
      DropIndices(indices, ranks);
      total := total - |removed|;
      available := available - |removed|;
    }
  }

  ghost predicate Ascending(indices: seq<nat>) {
    forall a, b :: 0 <= a < b < |indices| ==> indices[a] < indices[b]
  }

  // Both counters drop by the number of ranks removed.
  lemma RemovalSizes(p: Pool, ranks: set<int>)
    requires Valid(p)
    ensures Valid(P.RemoveAvailable(p, ranks))
    ensures p.total == P.RemoveAvailable(p, ranks).total + |Free(p) * ranks|
    ensures p.available == P.RemoveAvailable(p, ranks).available + |Free(p) * ranks|
  {
    RemoveMeaning(p, ranks);
    Sizes(p);
    Sizes(P.RemoveAvailable(p, ranks));
    assert Free(p) == (Free(p) - ranks) + Free(p) * ranks;
  }
}
