// How many bytes a fetch needs: the element size times the number of index
// vectors its box selects.
module FetchSizes {
  import opened Collections
  import opened Prefetching

  // The index vectors of the first n dimensions.
  ghost function Indices(extents: Dims, n: nat): set<seq<int>>
    requires n <= MAX_RANK
  {
    if n == 0 then {[]} else Extended(Indices(extents, n - 1), extents[n - 1])
  }

  ghost function Extended(s: set<seq<int>>, k: int): set<seq<int>> {
    set v, i | v in s && 0 <= i < k :: v + [i]
  }

  ghost function Ending(s: set<seq<int>>, i: int): set<seq<int>> {
    set v | v in s :: v + [i]
  }

  lemma {:induction false} IndicesMeaning(extents: Dims, n: nat, v: seq<int>)
    requires n <= MAX_RANK
    ensures v in Indices(extents, n) <==> |v| == n && forall d :: 0 <= d < n ==> 0 <= v[d] < extents[d]
  {
    if n > 0 {
      if |v| == n {
        IndicesMeaning(extents, n - 1, v[..n - 1]);
        assert v == v[..n - 1] + [v[n - 1]];
      }
      if u, i :| u in Indices(extents, n - 1) && 0 <= i < extents[n - 1] && v == u + [i] {
        IndicesMeaning(extents, n - 1, u);
        assert v[..n - 1] == u;
      }
    }
  }

  lemma {:induction false} EndingSize(s: set<seq<int>>, i: int)
    ensures |Ending(s, i)| == |s|
    decreases |s|
  {
    if s != {} {
      var v := Pick(s);
      EndingSize(s - {v}, i);
      assert Ending(s, i) == Ending(s - {v}, i) + {v + [i]};
      assert v + [i] !in Ending(s - {v}, i) by {
        forall u | u in s - {v} ensures u + [i] != v + [i] {
          assert (u + [i])[..|u|] == u && (v + [i])[..|v|] == v;
        }
      }
    }
  }

  lemma {:induction false} ExtendedSize(s: set<seq<int>>, k: nat)
    ensures |Extended(s, k)| == |s| * k
    decreases k
  {
    if k == 0 {
      assert Extended(s, k) == {};
    } else {
      ExtendedSize(s, k - 1);
      EndingSize(s, k - 1);
      var shorter, last := Extended(s, k - 1), Ending(s, k - 1);
      assert Extended(s, k) == shorter + last;
      forall v | v in shorter ensures v !in last {
        assert v[|v| - 1] != k - 1;
      }
      assert |s| * k == |s| * (k - 1) + |s|;
    }
  }

  // ----- the products of the source -----

  lemma ModTimes(a: nat, b: nat)
    ensures (a % SIZE_RANGE) * b % SIZE_RANGE == a * b % SIZE_RANGE
  {
    var q, r := a / SIZE_RANGE, a % SIZE_RANGE;
    assert a * b == SIZE_RANGE * (q * b) + r * b;
    Reduced(q * b, r * b);
  }

  lemma Reduced(k: nat, x: nat)
    ensures (SIZE_RANGE * k + x) % SIZE_RANGE == x % SIZE_RANGE
  {
  }

  // The dimensions a rank counts: at most seven.
  function Counted(rank: int): nat {
    if rank <= 0 then 0 else if rank < MAX_RANK then rank else MAX_RANK
  }

  // There is a size to compute: a known element size and positive extents in
  // every dimension counted.
  predicate Sized(elementSize: nat, extents: Dims, rank: int) {
    elementSize > 0 && rank > 0 && forall d :: 0 <= d < Counted(rank) ==> extents[d] > 0
  }

  // The true size, without any wrap-around.
  ghost function TrueSize(elementSize: nat, extents: Dims, rank: int): nat {
    elementSize * |Indices(extents, Counted(rank))|
  }

  lemma {:induction false} ProductCounts(extents: Dims, rank: int, d: nat)
    requires d <= Counted(rank) && forall k :: 0 <= k < Counted(rank) ==> extents[k] > 0
    ensures Product(extents, rank, d, |Indices(extents, d)| % SIZE_RANGE)
         == Some(|Indices(extents, Counted(rank))| % SIZE_RANGE)
    decreases Counted(rank) - d
  {
    if d < Counted(rank) {
      ProductCounts(extents, rank, d + 1);
      ExtendedSize(Indices(extents, d), extents[d]);
      ModTimes(|Indices(extents, d)|, extents[d]);
    }
  }

  lemma {:induction false} ProductInvalid(extents: Dims, rank: int, d: nat, acc: nat, bad: nat)
    requires d <= bad < Counted(rank) && extents[bad] <= 0
    ensures Product(extents, rank, d, acc).None?
    decreases bad - d
  {
    if d < bad && extents[d] > 0 {
      ProductInvalid(extents, rank, d + 1, acc * extents[d] % SIZE_RANGE, bad);
    }
  }

  // The computed size is the true one, taken modulo 2^64, whenever there is
  // one.
  lemma PayloadMeaning(elementSize: nat, extents: Dims, rank: int, otherwise: nat)
    ensures PayloadBytes(elementSize, extents, rank, otherwise)
         == if Sized(elementSize, extents, rank) then TrueSize(elementSize, extents, rank) % SIZE_RANGE else otherwise
  {
    hide Product, Indices;
    if Sized(elementSize, extents, rank) {
      NoDimensions(extents);
      ProductCounts(extents, rank, 0);
      ModTimes(|Indices(extents, Counted(rank))|, elementSize);
    } else if elementSize > 0 && rank > 0 {
      var bad :| 0 <= bad < Counted(rank) && extents[bad] <= 0;
      ProductInvalid(extents, rank, 0, 1, bad);
    }
  }

  lemma NoDimensions(extents: Dims)
    ensures |Indices(extents, 0)| % SIZE_RANGE == 1
  {
  }

  // What a fetch has to hold: the selected box, else the whole record, and
  // nothing known if neither has a size.
  ghost function Wanted(src: Source, sel: Selection): nat {
    if sel.Some? && Sized(src.elementSize, sel.value.extents, sel.value.rank)
    then TrueSize(src.elementSize, sel.value.extents, sel.value.rank)
    else if Sized(src.elementSize, src.extents, src.rank) then TrueSize(src.elementSize, src.extents, src.rank)
    else 0
  }

  // A fetch asks for its true size, modulo 2^64, and for one nominal buffer
  // when that is nothing.
  lemma AcquireBytesMeaning(src: Source, sel: Selection, nominal: nat)
    ensures AcquireBytes(src, sel, nominal)
         == if Wanted(src, sel) % SIZE_RANGE > 0 then Wanted(src, sel) % SIZE_RANGE else nominal
  {
    hide PayloadBytes, TrueSize, Sized;
    PayloadMeaning(src.elementSize, src.extents, src.rank, 0);
    if sel.Some? {
      PayloadMeaning(src.elementSize, sel.value.extents, sel.value.rank,
                     PayloadBytes(src.elementSize, src.extents, src.rank, 0));
    }
  }
}
