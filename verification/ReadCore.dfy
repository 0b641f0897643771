// The read, view-release and close entry points as the object that holds the
// dataset records. Each method is one or two steps of ReadPath, whose
// invariant and runs say what they achieve together.
module ReadCores {
  import opened Collections
  import opened Staging
  import opened Prefetching
  import P = ReadPath
  import opened ReadPath
  import opened StagingPools

  datatype Status = Accepted | InvalidInput | Unavailable | ViewsOutstanding

  // ----- window validation -----

  // Every index the window selects in one dimension exists.
  ghost predicate SelectsInside(offset: int, extent: int, stride: int, size: int) {
    stride >= 1 && extent >= 1 && offset >= 0 && forall k :: 0 <= k < extent ==> offset + k * stride < size
  }

  // The window has the variable's rank and stays inside it.
  ghost predicate WindowOk(sel: Selection, rank: int, sizes: Dims) {
    sel.Some? ==>
      && sel.value.rank == rank
      && forall d :: 0 <= d < rank && d < MAX_RANK ==>
           SelectsInside(sel.value.offsets[d], sel.value.extents[d], sel.value.strides[d], sizes[d])
  }

  // It is enough to look at the last index.
  lemma LastIndex(offset: int, extent: int, stride: int, size: int)
    requires stride >= 1 && extent >= 1
    ensures (forall k :: 0 <= k < extent ==> offset + k * stride < size) <==> offset + (extent - 1) * stride < size
  {
    if offset + (extent - 1) * stride < size {
      forall k | 0 <= k < extent ensures offset + k * stride < size {
        assert (extent - 1 - k) * stride >= 0;
        assert (extent - 1) * stride == k * stride + (extent - 1 - k) * stride;
      }
    } else {
      assert offset + (extent - 1) * stride >= size;
    }
  }

  method ValidateBbox(sel: Selection, rank: int, sizes: Dims) returns (status: Status)
    requires rank <= MAX_RANK
    ensures status == if WindowOk(sel, rank, sizes) then Accepted else InvalidInput
  {
    if sel.None? {
      return Accepted;
    }
    var b := sel.value;
    if b.rank != rank {
      return InvalidInput;
    }
    var d := 0;
    while d < b.rank
      invariant 0 <= d <= MAX_RANK
      invariant forall e :: 0 <= e < d ==> SelectsInside(b.offsets[e], b.extents[e], b.strides[e], sizes[e])
    {
      if b.strides[d] < 1 {
        return InvalidInput;
      }
      if b.offsets[d] < 0 {
        return InvalidInput;
      }
      var last := b.offsets[d] + (b.extents[d] - 1) * b.strides[d];
      if b.extents[d] < 1 || last >= sizes[d] {
        if b.extents[d] >= 1 {
          LastIndex(b.offsets[d], b.extents[d], b.strides[d], sizes[d]);
        }
        assert !SelectsInside(b.offsets[d], b.extents[d], b.strides[d], sizes[d]);
        return InvalidInput;
      }
      LastIndex(b.offsets[d], b.extents[d], b.strides[d], sizes[d]);
      d := d + 1;
    }
    return Accepted;
  }

  // ----- the entry points -----

  predicate At(s: State, dataset: nat, name: Name, v: nat) {
    v < |s.vars| && s.vars[v].dataset == dataset && s.vars[v].name == name
  }

  class ReadCore {
    const pool: StagingPool
    var vars: seq<Var>
    var waiting: map<nat, Request>
    var hands: map<nat, Grant>
    var tokens: set<nat>
    var views: map<nat, Grant>
    var counted: map<nat, nat>
    var outstanding: map<nat, int>
    var closing: set<nat>

    ghost function State(): P.State
      reads this, pool
      requires Indexed(pool.State())
    {
      P.State(vars, pool.State(), waiting, hands, tokens, views, counted, outstanding, closing)
    }

    constructor (pool: StagingPool)
      requires Indexed(pool.State())
      ensures this.pool == pool && Indexed(pool.State()) && State() == Start(pool.State())
    {
      this.pool := pool;
      vars, waiting, hands, closing := [], map[], map[], {};
      tokens, views, counted, outstanding := {}, map[], map[], map[];
    }

    // The cached read state of a variable, or that of a fresh one if the
    // driver can describe it.
    method ResolveVariable(dataset: nat, name: Name, described: Option<Source>) returns (r: Option<nat>)
      requires Indexed(pool.State()) && dataset in outstanding
      modifies this`vars
      ensures r.None? <==> described.None? && !Resolved(old(State()), dataset, name)
      ensures State() == if described.Some? then P.After(old(State()), Resolve(dataset, name, described.value))
          else old(State())
      ensures r.Some? ==> At(State(), dataset, name, r.value)
    {
      for v := 0 to |vars|
        invariant forall u :: 0 <= u < v ==> !(vars[u].dataset == dataset && vars[u].name == name)
      {
        if vars[v].dataset == dataset && vars[v].name == name {
          assert Resolved(State(), dataset, name);
          return Some(v);
        }
      }
      if described.None? {
        return None;
      }
      vars := vars + [Var(dataset, name, described.value, EMPTY)];
      return Some(|vars| - 1);
    }

    // Everything read checks before it asks the queue, in the source's order,
    // and the request it then makes.
    method BeginRead(reader: nat, dataset: nat, readMode: bool, name: Name, t: int, sel: Selection,
        described: Option<Source>)
      returns (status: Status, v: nat)
      requires Indexed(pool.State()) && dataset in outstanding && reader !in waiting && reader !in hands
      requires described.Some? ==> described.value.rank <= MAX_RANK
      requires forall u :: 0 <= u < |vars| ==> vars[u].src.rank <= MAX_RANK
      modifies this
      ensures Indexed(pool.State())
      ensures name == "" || !readMode || t < 0 ==> status == InvalidInput && State() == old(State())
      ensures !(name == "" || !readMode || t < 0) ==>
        var s := if described.Some? then P.After(old(State()), Resolve(dataset, name, described.value))
            else old(State());
        if described.None? && !Resolved(old(State()), dataset, name) then status == Unavailable && State() == s
        else
          && At(s, dataset, name, v)
          && (status == Accepted
              <==> t < s.vars[v].src.total && WindowOk(sel, s.vars[v].src.rank, s.vars[v].src.extents))
          && (status == Accepted || status == InvalidInput)
          && State() == if status == Accepted then P.After(s, Ask(reader, Request(v, t, sel))) else s
    {
      v := 0;
      if name == "" {
        return InvalidInput, v;
      }
      if !readMode {
        return InvalidInput, v;
      }
      if t < 0 {
        return InvalidInput, v;
      }
      var found := ResolveVariable(dataset, name, described);
      if found.None? {
        return Unavailable, v;
      }
      v := found.value;
      if t >= vars[v].src.total {
        return InvalidInput, v;
      }
      status := ValidateBbox(sel, vars[v].src.rank, vars[v].src.extents);
      if status != Accepted {
        return;
      }
      vars := vars[v := vars[v].(q := vars[v].q.(latched := sel))];
      waiting := waiting[reader := Request(v, t, sel)];
    }

    // The buffer becomes a view under a fresh token of the handle table.
    method InsertView(reader: nat, token: nat)
      requires Indexed(pool.State()) && Enabled(State(), Mint(reader, token))
      modifies this
      ensures Indexed(pool.State()) && State() == P.After(old(State()), Mint(reader, token))
    {
      views := views[token := hands[reader]];
      tokens := tokens + {token};
      hands := hands - {reader};
    }

    method AddToCount(dataset: nat, change: int)
      modifies this`outstanding
      ensures outstanding == Count(old(outstanding), dataset, change)
    {
      if dataset in outstanding {
        outstanding := outstanding[dataset := outstanding[dataset] + change];
      }
    }

    // The end of a read: the view is inserted, then counted.
    method MintView(reader: nat, token: nat)
      requires Indexed(pool.State()) && Enabled(State(), Mint(reader, token)) && token !in counted
      modifies this
      ensures Indexed(pool.State())
      ensures State() == P.After(P.After(old(State()), Mint(reader, token)), CountView(token))
    {
      InsertView(reader, token);
      counted := counted[token := views[token].dataset];
      AddToCount(views[token].dataset, 1);
    }

    method ReturnBuffer(token: nat)
      requires Indexed(pool.State()) && Enabled(State(), P.ReleaseView(token))
      modifies this`views, pool
      ensures Indexed(pool.State()) && State() == P.After(old(State()), P.ReleaseView(token))
    {
      hide Release, InUse;
      pool.Drop(views[token].slot);
      views := views - {token};
    }

    method UncountView(token: nat)
      requires Indexed(pool.State()) && Enabled(State(), Uncount(token))
      modifies this`counted, this`outstanding
      ensures Indexed(pool.State()) && State() == P.After(old(State()), Uncount(token))
    {
      AddToCount(counted[token], -1);
      counted := counted - {token};
    }

    // The release of a view: its buffer first, then the count, then the token.
    method ReleaseView(token: nat)
      requires Indexed(pool.State()) && Enabled(State(), P.ReleaseView(token)) && token in tokens
      modifies this, pool
      ensures Indexed(pool.State())
      ensures State() == P.After(P.After(P.After(old(State()), P.ReleaseView(token)), Uncount(token)), FreeToken(token))
    {
      hide Drop, Release, InUse, Indexed;
      ReturnBuffer(token);
      UncountView(token);
      tokens := tokens - {token};
    }

    // The guard in front of every teardown.
    method BeginClose(dataset: nat) returns (status: Status)
      requires Indexed(pool.State()) && dataset in outstanding
      modifies this`closing
      ensures State() == P.After(old(State()), CheckClose(dataset))
      ensures status == if old(outstanding)[dataset] > 0 then ViewsOutstanding else Accepted
    {
      if outstanding[dataset] > 0 {
        return ViewsOutstanding;
      }
      closing := closing + {dataset};
      return Accepted;
    }
  }
}
