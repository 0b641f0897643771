// The pool of exclusive MPI ranks: one availability bit per managed rank.
module RankPools {
  import opened Collections

  datatype Pool = Pool(ids: seq<int>, bits: seq<bool>, total: nat, available: nat)

  ghost function Free(p: Pool): set<int>
    requires |p.ids| == |p.bits|
  {
    set i | 0 <= i < |p.ids| && p.bits[i] :: p.ids[i]
  }

  ghost function Held(p: Pool): set<int>
    requires |p.ids| == |p.bits|
  {
    set i | 0 <= i < |p.ids| && !p.bits[i] :: p.ids[i]
  }

  function Trues(bits: seq<bool>): nat {
    if bits == [] then 0 else Trues(bits[..|bits| - 1]) + if bits[|bits| - 1] then 1 else 0
  }

  ghost predicate Valid(p: Pool) {
    && |p.ids| == |p.bits| == p.total
    && Distinct(p.ids)
    && p.available == Trues(p.bits)
  }

  lemma SplitLast(p: Pool, q: Pool)
    requires |p.ids| == |p.bits| == |q.ids| + 1 && |q.bits| == |q.ids|
    requires q.ids == p.ids[..|q.ids|] && q.bits == p.bits[..|q.ids|] && Distinct(p.ids)
    ensures Free(p) == Free(q) + if p.bits[|q.ids|] then {p.ids[|q.ids|]} else {}
    ensures Held(p) == Held(q) + if p.bits[|q.ids|] then {} else {p.ids[|q.ids|]}
    ensures p.ids[|q.ids|] !in Free(q) + Held(q) && Distinct(q.ids)
  {
    forall x | x in Free(q) + Held(q) ensures x != p.ids[|q.ids|] {
      var i :| 0 <= i < |q.ids| && q.ids[i] == x;
      assert p.ids[i] == x;
    }
    forall x | x in Free(q) ensures x in Free(p) {
      var i :| 0 <= i < |q.ids| && q.bits[i] && q.ids[i] == x;
      assert p.bits[i] && p.ids[i] == x;
    }
    forall x | x in Held(q) ensures x in Held(p) {
      var i :| 0 <= i < |q.ids| && !q.bits[i] && q.ids[i] == x;
      assert !p.bits[i] && p.ids[i] == x;
    }
    forall x | x in Free(p) ensures x in Free(q) + if p.bits[|q.ids|] then {p.ids[|q.ids|]} else {} {
      var i :| 0 <= i < |p.ids| && p.bits[i] && p.ids[i] == x;
      assert i < |q.ids| ==> q.bits[i] && q.ids[i] == x;
    }
    forall x | x in Held(p) ensures x in Held(q) + if p.bits[|q.ids|] then {} else {p.ids[|q.ids|]} {
      var i :| 0 <= i < |p.ids| && !p.bits[i] && p.ids[i] == x;
      assert i < |q.ids| ==> !q.bits[i] && q.ids[i] == x;
    }
  }

  lemma Grow(s: set<int>, x: int)
    requires x !in s
    ensures |s + {x}| == |s| + 1 && |s + {}| == |s|
  {
    assert s + {} == s;
  }

  // The two counters are the sizes of the two halves of the pool.
  lemma {:induction false} Sizes(p: Pool)
    requires |p.ids| == |p.bits| && Distinct(p.ids)
    ensures |Free(p)| == Trues(p.bits)
    ensures |Held(p)| == |p.ids| - Trues(p.bits)
    decreases |p.ids|
  {
    if p.ids == [] {
      assert Free(p) == {} && Held(p) == {};
    } else {
      var k := |p.ids| - 1;
      var q := Pool(p.ids[..k], p.bits[..k], 0, 0);
      SplitLast(p, q);
      Sizes(q);
      Grow(Free(q), p.ids[k]);
      Grow(Held(q), p.ids[k]);
    }
  }

  lemma Apart(p: Pool)
    requires |p.ids| == |p.bits| && Distinct(p.ids)
    ensures Free(p) !! Held(p)
  {
    forall x | x in Free(p) ensures x !in Held(p) {
      var i :| 0 <= i < |p.ids| && p.bits[i] && p.ids[i] == x;
      forall j | 0 <= j < |p.ids| && p.ids[j] == x ensures j == i {
      }
    }
  }

  // The claiming scan: take available slots in slot order until enough.
  function ClaimFrom(ids: seq<int>, bits: seq<bool>, count: nat, i: nat, got: set<int>): (seq<bool>, set<int>)
    requires |ids| == |bits| && i <= |ids|
    decreases |ids| - i
  {
    if i == |ids| || |got| >= count then (bits, got)
    else if bits[i] then ClaimFrom(ids, bits[i := false], count, i + 1, got + {ids[i]})
    else ClaimFrom(ids, bits, count, i + 1, got)
  }

  // An empty set means nothing was allocated and nothing changed.
  function TryAllocate(p: Pool, count: nat): (r: (Pool, set<int>))
    requires |p.ids| == |p.bits| && 0 < count
  {
    if p.available < count then (p, {})
    else
      var (bits, got) := ClaimFrom(p.ids, p.bits, count, 0, {});
      if |got| < count || p.available < |got| then (p, {})
      else (p.(bits := bits, available := p.available - |got|), got)
  }

  function Release(p: Pool, ranks: set<int>): Pool
    requires |p.ids| == |p.bits|
  {
    var bits := seq(|p.ids|, i requires 0 <= i < |p.ids| => p.bits[i] || p.ids[i] in ranks);
    p.(bits := bits, available := Trues(bits))
  }

  function AddRank(p: Pool, rank: int): Pool {
    if rank in p.ids then p
    else Pool(p.ids + [rank], p.bits + [true], p.total + 1, p.available + 1)
  }

  function AddRanks(p: Pool, ranks: seq<int>): Pool
    decreases |ranks|
  {
    if ranks == [] then p else AddRanks(AddRank(p, ranks[0]), ranks[1..])
  }

  predicate Removable(ids: seq<int>, bits: seq<bool>, ranks: set<int>, i: nat)
    requires i < |ids| == |bits|
  {
    ids[i] in ranks && bits[i]
  }

  // Swap with the last slot, then pop.
  function Drop<T>(s: seq<T>, i: nat): (r: seq<T>)
    requires i < |s|
  {
    s[i := s[|s| - 1]][..|s| - 1]
  }

  function RemoveBelow(ids: seq<int>, bits: seq<bool>, ranks: set<int>, i: nat): (seq<int>, seq<bool>)
    requires i <= |ids| == |bits|
    decreases i
  {
    if i == 0 then (ids, bits)
    else if Removable(ids, bits, ranks, i - 1) then RemoveBelow(Drop(ids, i - 1), Drop(bits, i - 1), ranks, i - 1)
    else RemoveBelow(ids, bits, ranks, i - 1)
  }

  function RemoveAvailable(p: Pool, ranks: set<int>): Pool
    requires |p.ids| == |p.bits|
  {
    var (ids, bits) := RemoveBelow(p.ids, p.bits, ranks, |p.ids|);
    Pool(ids, bits, |ids|, Trues(bits))
  }

  // ----- what the operations mean as operations on two sets of ranks -----

  lemma {:induction false} TruesUpdate(bits: seq<bool>, i: nat)
    requires i < |bits| && bits[i]
    ensures Trues(bits) == Trues(bits[i := false]) + 1
    decreases |bits|
  {
    var k := |bits| - 1;
    if i == k {
      assert bits[..k] == bits[i := false][..k];
    } else {
      TruesUpdate(bits[..k], i);
      assert bits[i := false][..k] == bits[..k][i := false];
    }
  }

  lemma {:induction false} ClaimMeaning(ids: seq<int>, bits: seq<bool>, count: nat, i: nat, got: set<int>)
    requires |ids| == |bits| && i <= |ids| && Distinct(ids)
    requires |got| <= count <= |got| + Trues(bits)
    requires forall j :: 0 <= j < |ids| && bits[j] ==> j >= i && ids[j] !in got
    ensures var (bits', got') := ClaimFrom(ids, bits, count, i, got);
      && |got'| == count && |bits'| == |bits| && got <= got'
      && Trues(bits') + count == Trues(bits) + |got|
      && (forall x :: x in got' ==> x in got || exists j :: 0 <= j < |ids| && bits[j] && ids[j] == x)
      && (forall j :: 0 <= j < |ids| ==> bits'[j] == (bits[j] && ids[j] !in got'))
    decreases |ids| - i
  {
    if i == |ids| {
      NoTrues(bits);
    } else if |got| < count {
      if bits[i] {
        TruesUpdate(bits, i);
        ClaimMeaning(ids, bits[i := false], count, i + 1, got + {ids[i]});
      } else {
        ClaimMeaning(ids, bits, count, i + 1, got);
      }
    }
  }

  lemma {:induction false} NoTrues(bits: seq<bool>)
    requires forall j :: 0 <= j < |bits| ==> !bits[j]
    ensures Trues(bits) == 0
    decreases |bits|
  {
    if bits != [] {
      NoTrues(bits[..|bits| - 1]);
    }
  }

  // Taking `got` clears exactly its availability bits.
  lemma Taken(p: Pool, q: Pool, got: set<int>)
    requires |p.ids| == |p.bits| == |q.bits| && q.ids == p.ids && Distinct(p.ids)
    requires forall j :: 0 <= j < |p.ids| ==> q.bits[j] == (p.bits[j] && p.ids[j] !in got)
    requires forall x :: x in got ==> exists j :: 0 <= j < |p.ids| && p.bits[j] && p.ids[j] == x
    ensures got <= Free(p) && Free(q) == Free(p) - got && Held(q) == Held(p) + got
  {
    forall x | x in got ensures x in Free(p) && x in Held(q) {
      var j :| 0 <= j < |p.ids| && p.bits[j] && p.ids[j] == x;
      assert !q.bits[j];
    }
    forall x | x in Free(p) - got ensures x in Free(q) {
      var j :| 0 <= j < |p.ids| && p.bits[j] && p.ids[j] == x;
      assert q.bits[j];
    }
    forall x | x in Held(p) ensures x in Held(q) {
      var j :| 0 <= j < |p.ids| && p.ids[j] == x && !p.bits[j];
      assert !q.bits[j];
    }
  }

  // Allocation is all or nothing, takes only free ranks, and succeeds exactly
  // when enough are free.
  lemma AllocateMeaning(p: Pool, count: nat)
    requires Valid(p) && 0 < count
    ensures var (p', got) := TryAllocate(p, count);
      && Valid(p') && p'.total == p.total
      && got <= Free(p) && Free(p') == Free(p) - got && Held(p') == Held(p) + got
      && (if |Free(p)| >= count then |got| == count else p' == p && got == {})
  {
    Sizes(p);
    if p.available >= count {
      ClaimMeaning(p.ids, p.bits, count, 0, {});
      var (p', got) := TryAllocate(p, count);
      Taken(p, p', got);
    }
  }

  lemma {:induction false} ClaimOrder(ids: seq<int>, bits: seq<bool>, count: nat, i: nat, got: set<int>)
    requires |ids| == |bits| && i <= |ids| && Distinct(ids)
    ensures var got' := ClaimFrom(ids, bits, count, i, got).1;
      && got <= got'
      && (forall j, k :: i <= j < k < |ids| && bits[j] && ids[k] in got' && ids[k] !in got ==> ids[j] in got')
    decreases |ids| - i
  {
    if i < |ids| && |got| < count {
      if bits[i] {
        ClaimOrder(ids, bits[i := false], count, i + 1, got + {ids[i]});
      } else {
        ClaimOrder(ids, bits, count, i + 1, got);
      }
    }
  }

  // Free ranks are handed out in slot order: none is passed over.
  lemma AllocatesFirst(p: Pool, count: nat, j: nat, k: nat)
    requires Valid(p) && 0 < count && j < k < |p.ids| && p.bits[j]
    ensures p.ids[k] in TryAllocate(p, count).1 ==> p.ids[j] in TryAllocate(p, count).1
  {
    ClaimOrder(p.ids, p.bits, count, 0, {});
  }

  lemma AllocateKeepsValid(p: Pool, count: nat)
    requires Valid(p) && 0 < count
    ensures Valid(TryAllocate(p, count).0)
  {
    AllocateMeaning(p, count);
  }

  // The claiming scan never comes up short of a count the pool has free.
  lemma ClaimSize(p: Pool, count: nat)
    requires Valid(p) && count <= p.available
    ensures |ClaimFrom(p.ids, p.bits, count, 0, {}).1| == count
  {
    ClaimMeaning(p.ids, p.bits, count, 0, {});
  }

  // Releasing ranks frees exactly those of them that were held.
  lemma ReleaseMeaning(p: Pool, ranks: set<int>)
    requires Valid(p)
    ensures Valid(Release(p, ranks)) && Release(p, ranks).total == p.total
    ensures Free(Release(p, ranks)) == Free(p) + Held(p) * ranks
    ensures Held(Release(p, ranks)) == Held(p) - ranks
  {
    var q := Release(p, ranks);
    Apart(p);
    forall x | x in Free(p) + Held(p) * ranks ensures x in Free(q) {
      var i :| 0 <= i < |p.ids| && p.ids[i] == x && (p.bits[i] || x in ranks);
      assert q.bits[i];
    }
    forall x | x in Held(p) - ranks ensures x in Held(q) {
      var i :| 0 <= i < |p.ids| && p.ids[i] == x && !p.bits[i];
      assert !q.bits[i];
    }
  }

  lemma AddRankMeaning(p: Pool, rank: int)
    requires Valid(p) && rank !in p.ids
    ensures Valid(AddRank(p, rank))
    ensures Free(AddRank(p, rank)) == Free(p) + {rank} && Held(AddRank(p, rank)) == Held(p)
  {
    var q := AddRank(p, rank);
    assert q.ids[..|p.ids|] == p.ids && q.bits[..|p.ids|] == p.bits;
    SplitLast(q, p);
  }

  // A rank of the pool is free or held.
  lemma KnownRank(p: Pool, rank: int)
    requires Valid(p)
    ensures rank in p.ids <==> rank in Free(p) + Held(p)
  {
  }

  lemma {:induction false} AddMeaning(p: Pool, ranks: seq<int>)
    requires Valid(p)
    ensures Valid(AddRanks(p, ranks))
    ensures Held(AddRanks(p, ranks)) == Held(p)
    ensures Free(AddRanks(p, ranks)) == Free(p) + ((set r | r in ranks) - Held(p))
    decreases |ranks|
  {
    hide Valid, Free, Held;
    if ranks != [] {
      KnownRank(p, ranks[0]);
      if ranks[0] !in p.ids {
        AddRankMeaning(p, ranks[0]);
      }
      AddMeaning(AddRank(p, ranks[0]), ranks[1..]);
      assert ranks == [ranks[0]] + ranks[1..];
    }
  }

  // Swapping a free rank with the last one and popping it.
  lemma DropMeaning(p: Pool, k: nat)
    requires k < |p.ids| == |p.bits| && Distinct(p.ids) && p.bits[k]
    ensures var q := p.(ids := Drop(p.ids, k), bits := Drop(p.bits, k));
      |q.ids| == |q.bits| && Distinct(q.ids) && Free(q) == Free(p) - {p.ids[k]} && Held(q) == Held(p)
  {
    var last := |p.ids| - 1;
    var q := p.(ids := Drop(p.ids, k), bits := Drop(p.bits, k));
    forall x | x in Free(p) && x != p.ids[k] ensures x in Free(q) {
      var j :| 0 <= j < |p.ids| && p.ids[j] == x && p.bits[j];
      assert q.bits[if j == last then k else j] && q.ids[if j == last then k else j] == x;
    }
    forall x | x in Held(p) ensures x in Held(q) {
      var j :| 0 <= j < |p.ids| && p.ids[j] == x && !p.bits[j];
      assert !q.bits[if j == last then k else j] && q.ids[if j == last then k else j] == x;
    }
  }

  lemma {:induction false} RemoveBelowMeaning(p: Pool, ranks: set<int>, i: nat)
    requires i <= |p.ids| == |p.bits| && Distinct(p.ids)
    requires forall j :: i <= j < |p.ids| ==> !Removable(p.ids, p.bits, ranks, j)
    ensures var (ids, bits) := RemoveBelow(p.ids, p.bits, ranks, i);
      && |ids| == |bits| && Distinct(ids)
      && Free(p.(ids := ids, bits := bits)) == Free(p) - ranks
      && Held(p.(ids := ids, bits := bits)) == Held(p)
    decreases i
  {
    if i == 0 {
      forall x | x in Free(p) ensures x !in ranks {
        var j :| 0 <= j < |p.ids| && p.bits[j] && p.ids[j] == x;
        assert !Removable(p.ids, p.bits, ranks, j);
      }
    } else if Removable(p.ids, p.bits, ranks, i - 1) {
      var k, last := i - 1, |p.ids| - 1;
      var q := p.(ids := Drop(p.ids, k), bits := Drop(p.bits, k));
      forall j | i - 1 <= j < |q.ids| ensures !Removable(q.ids, q.bits, ranks, j) {
        assert !Removable(p.ids, p.bits, ranks, if j == k then last else j);
      }
      DropMeaning(p, k);
      RemoveBelowMeaning(q, ranks, k);
    } else {
      RemoveBelowMeaning(p, ranks, i - 1);
    }
  }

  // Removal takes every requested rank that is free and no rank in use.
  lemma RemoveMeaning(p: Pool, ranks: set<int>)
    requires Valid(p)
    ensures Valid(RemoveAvailable(p, ranks))
    ensures Free(RemoveAvailable(p, ranks)) == Free(p) - ranks
    ensures Held(RemoveAvailable(p, ranks)) == Held(p)
  {
    RemoveBelowMeaning(p, ranks, |p.ids|);
  }

  lemma {:induction false} SkipKept(ids: seq<int>, bits: seq<bool>, ranks: set<int>, from: nat, to: nat)
    requires to <= from <= |ids| == |bits|
    requires forall j :: to <= j < from ==> !Removable(ids, bits, ranks, j)
    ensures RemoveBelow(ids, bits, ranks, from) == RemoveBelow(ids, bits, ranks, to)
    decreases from
  {
    if to < from {
      SkipKept(ids, bits, ranks, from - 1, to);
    }
  }

  lemma {:induction false} AllTrue(bits: seq<bool>)
    requires forall j :: 0 <= j < |bits| ==> bits[j]
    ensures Trues(bits) == |bits|
    decreases |bits|
  {
    if bits != [] {
      AllTrue(bits[..|bits| - 1]);
    }
  }
}
