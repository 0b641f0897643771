// Validation of a pipeline's task graph: dangling references first, then
// Kahn's algorithm.
module DagValidation {
  import opened Collections
  import opened Graphs

  datatype Edge = Edge(producer: nat, consumer: nat)

  // How construction ends: the graph is usable, an edge names a task that does
  // not exist, or the count of sorted tasks falls short and up to two
  // unsorted tasks are named in the error.
  datatype Verdict = Accepted | Dangling(id: nat) | Cyclic(named: seq<nat>)

  predicate Valid(n: nat, e: Edge) {
    e.producer < n && e.consumer < n
  }

  predicate AllValid(n: nat, edges: seq<Edge>) {
    forall e :: e in edges ==> Valid(n, e)
  }

  // A closed walk along the configured edges.
  ghost predicate IsCycle(edges: seq<Edge>, path: seq<nat>) {
    && |path| >= 2 && path[0] == path[|path| - 1]
    && forall k :: 0 <= k < |path| - 1 ==> Edge(path[k], path[k + 1]) in edges
  }

  ghost predicate HasCycle(edges: seq<Edge>) {
    exists path :: IsCycle(edges, path)
  }

  ghost predicate Represents(g: Graph, n: nat, edges: seq<Edge>) {
    && |g| == n
    && forall p: nat, c: nat :: p < n ==> multiset(g[p])[c] == multiset(edges)[Edge(p, c)]
  }

  ghost predicate CountsEdges(g: Graph, done: set<nat>, inDegree: seq<nat>) {
    |inDegree| == |g| && forall d :: 0 <= d < |g| ==> inDegree[d] == Incoming(g, done, d, |g|)
  }

  lemma RepresentsEdges(g: Graph, n: nat, edges: seq<Edge>)
    requires Represents(g, n, edges) && AllValid(n, edges)
    ensures forall p: nat, c: nat :: HasEdge(g, p, c) <==> Edge(p, c) in edges
    ensures InRange(g)
  {
    forall p: nat, c: nat
      ensures HasEdge(g, p, c) <==> Edge(p, c) in edges
    {
      assert Edge(p, c) in edges <==> Edge(p, c) in multiset(edges);
      if p < n {
        assert c in g[p] <==> c in multiset(g[p]);
      }
    }
  }

  // Cycles of the edge list are exactly the failures of acyclicity of the
  // adjacency lists built from it.
  lemma SameCycles(g: Graph, n: nat, edges: seq<Edge>)
    requires Represents(g, n, edges) && AllValid(n, edges)
    ensures HasCycle(edges) <==> !Acyclic(g)
  {
    RepresentsEdges(g, n, edges);
    if HasCycle(edges) {
      var path :| IsCycle(edges, path);
      assert Connects(g, path, path[0], path[0]);
      assert Ancestor(g, path[0], path[0]);
    }
    if !Acyclic(g) {
      var v :| Ancestor(g, v, v);
      var path :| Connects(g, path, v, v);
      assert IsCycle(edges, path);
    }
  }

  lemma NoEdges(n: nat)
    ensures Represents(seq(n, _ => []), n, [])
    ensures CountsEdges(seq(n, _ => []), {}, seq(n, _ => 0))
  {
    var g: Graph := seq(n, _ => []);
    forall d | 0 <= d < n ensures Incoming(g, {}, d, n) == 0 {
      IncomingZero(g, {}, d, n);
    }
  }

  lemma AddEdge(g: Graph, n: nat, edges: seq<Edge>, inDegree: seq<nat>, e: Edge)
    requires Represents(g, n, edges) && CountsEdges(g, {}, inDegree) && Valid(n, e)
    ensures Represents(g[e.producer := g[e.producer] + [e.consumer]], n, edges + [e])
    ensures CountsEdges(g[e.producer := g[e.producer] + [e.consumer]], {},
        inDegree[e.consumer := inDegree[e.consumer] + 1])
  {
    forall d | 0 <= d < n
      ensures Incoming(g[e.producer := g[e.producer] + [e.consumer]], {}, d, n)
           == Incoming(g, {}, d, n) + if e.consumer == d then 1 else 0
    {
      IncomingAddEdge(g, e.producer, e.consumer, d, n);
    }
  }

  lemma AddEdgeAt(g: Graph, n: nat, edges: seq<Edge>, i: nat, inDegree: seq<nat>)
    requires i < |edges| && Represents(g, n, edges[..i]) && CountsEdges(g, {}, inDegree) && Valid(n, edges[i])
    ensures var e := edges[i];
      && Represents(g[e.producer := g[e.producer] + [e.consumer]], n, edges[..i + 1])
      && CountsEdges(g[e.producer := g[e.producer] + [e.consumer]], {},
           inDegree[e.consumer := inDegree[e.consumer] + 1])
  {
    AddEdge(g, n, edges[..i], inDegree, edges[i]);
    assert edges[..i + 1] == edges[..i] + [edges[i]];
  }

  // The shared first half of validation and of node population.
  method BuildAdjacency(n: nat, edges: seq<Edge>) returns (downstream: Graph, inDegree: seq<nat>)
    requires AllValid(n, edges)
    ensures Represents(downstream, n, edges)
    ensures CountsEdges(downstream, {}, inDegree)
  {
    downstream := seq(n, _ => []);
    inDegree := seq(n, _ => 0);
    NoEdges(n);
    for i := 0 to |edges|
      invariant Represents(downstream, n, edges[..i])
      invariant CountsEdges(downstream, {}, inDegree)
    {
      var e := edges[i];
      assert Valid(n, e);
      AddEdgeAt(downstream, n, edges, i, inDegree);
      inDegree := inDegree[e.consumer := inDegree[e.consumer] + 1];
      downstream := downstream[e.producer := downstream[e.producer] + [e.consumer]];
    }
    assert edges[..|edges|] == edges;
  }

  // A node with a cycle at or above it.
  ghost predicate BelowCycle(g: Graph, v: nat) {
    exists c :: Ancestor(g, c, c) && (c == v || Ancestor(g, c, v))
  }

  // What Kahn's loop knows: done nodes have positions that respect edges, and
  // a node is done or waiting in the queue exactly when no unfinished
  // producer points at it.
  ghost predicate Sorting(g: Graph, done: map<nat, nat>, queue: seq<nat>, inDegree: seq<nat>) {
    && CountsEdges(g, done.Keys, inDegree)
    && Distinct(queue)
    && (forall v :: v in done ==> v < |g| && done[v] < |done|)
    && (forall v :: v in queue ==> v < |g| && v !in done)
    && (forall v :: 0 <= v < |g| ==> (inDegree[v] == 0 <==> v in done || v in queue))
    && (forall p, c :: HasEdge(g, p, c) && c in done ==> p in done && done[p] < done[c])
  }

  lemma UnsortedIsBelowCycle(g: Graph, done: map<nat, nat>, inDegree: seq<nat>, v: nat)
    requires InRange(g) && Sorting(g, done, [], inDegree)
    requires v < |g| && inDegree[v] > 0
    ensures BelowCycle(g, v)
  {
    var above := set u | u in Below(|g|) && inDegree[u] > 0 && (u == v || Ancestor(g, u, v));
    forall d | d in above
      ensures HasProducerIn(g, above, d)
    {
      IncomingZero(g, done.Keys, d, |g|);
      var p :| 0 <= p < |g| && HasEdge(g, p, d) && p !in done;
      EdgeIsAncestor(g, p, d);
      if d != v {
        AncestorTrans(g, p, d, v);
      }
      assert p in above;
    }
    assert v in above;
    var c := BackwardClosedHasCycle(g, above);
  }

  // A sorted task has sorted ancestors only, each placed before it.
  lemma {:induction false} SortedAbove(g: Graph, done: map<nat, nat>, path: seq<nat>, a: nat, d: nat)
    requires forall p, c :: HasEdge(g, p, c) && c in done ==> p in done && done[p] < done[c]
    requires Connects(g, path, a, d) && d in done
    ensures a in done && done[a] < done[d]
    decreases |path|
  {
    var n := |path| - 1;
    assert HasEdge(g, path[n - 1], path[n]);
    if n > 1 {
      assert Connects(g, path[..n], a, path[n - 1]);
      SortedAbove(g, done, path[..n], a, path[n - 1]);
    }
  }

  // The converse of UnsortedIsBelowCycle: a cycle keeps everything on and
  // below it unsorted.
  lemma BelowCycleIsUnsorted(g: Graph, done: map<nat, nat>, inDegree: seq<nat>, v: nat)
    requires InRange(g) && Sorting(g, done, [], inDegree) && BelowCycle(g, v)
    ensures v < |g| && inDegree[v] > 0
  {
    var c :| Ancestor(g, c, c) && (c == v || Ancestor(g, c, v));
    var path :| Connects(g, path, c, v);
    var cycle :| Connects(g, cycle, c, c);
    assert HasEdge(g, path[|path| - 2], path[|path| - 2 + 1]);
    if v in done {
      SortedAbove(g, done, path, c, v);
      SortedAbove(g, done, cycle, c, c);
    }
  }

  lemma AncestorTrans(g: Graph, a: nat, m: nat, d: nat)
    requires Ancestor(g, a, m) && Ancestor(g, m, d)
    ensures Ancestor(g, a, d)
  {
    var front :| Connects(g, front, a, m);
    var back :| Connects(g, back, m, d);
    assert Connects(g, front + back[1..], a, d);
  }

  lemma SortedIsAcyclic(g: Graph, done: map<nat, nat>, inDegree: seq<nat>)
    requires InRange(g) && Sorting(g, done, [], inDegree)
    requires |done| == |g|
    ensures forall v :: 0 <= v < |g| ==> v in done
    ensures Acyclic(g)
  {
    assert done.Keys <= Below(|g|);
    SubsetOfSameSize(done.Keys, Below(|g|));
    forall v ensures !Ancestor(g, v, v) {
      if Ancestor(g, v, v) {
        var path :| Connects(g, path, v, v);
        PositionsIncrease(g, done, path, v, v);
      }
    }
  }

  // The state inside the inner loop: the finished node still owes one edge to
  // each consumer it has not reached yet.
  ghost predicate Finishing(g: Graph, done: map<nat, nat>, owed: seq<nat>, queue: seq<nat>, inDegree: seq<nat>) {
    && |inDegree| == |g|
    && (forall d :: 0 <= d < |g| ==> inDegree[d] == Incoming(g, done.Keys, d, |g|) + multiset(owed)[d])
    && Distinct(queue)
    && (forall v :: v in queue ==> v < |g| && v !in done)
    && (forall v :: 0 <= v < |g| ==> (inDegree[v] == 0 <==> v in done || v in queue))
  }

  lemma FrontOnce(queue: seq<nat>)
    requires Distinct(queue) && queue != []
    ensures Distinct(queue[1..])
    ensures forall v :: v in queue[1..] <==> v in queue && v != queue[0]
  {
    assert queue == [queue[0]] + queue[1..];
  }

  // A queued task has no unsorted producer, itself included.
  lemma FrontProducersDone(g: Graph, done: map<nat, nat>, queue: seq<nat>, inDegree: seq<nat>)
    requires InRange(g) && Sorting(g, done, queue, inDegree) && queue != [] && queue[0] < |g|
    ensures forall p :: HasEdge(g, p, queue[0]) ==> p in done && p != queue[0] && done[p] < |done|
  {
    assert queue[0] in queue;
    IncomingZero(g, done.Keys, queue[0], |g|);
  }

  lemma StartPositions(g: Graph, done: map<nat, nat>, queue: seq<nat>, inDegree: seq<nat>)
    requires InRange(g) && Sorting(g, done, queue, inDegree) && queue != [] && queue[0] < |g|
    ensures forall p, c :: HasEdge(g, p, c) && c in done[queue[0] := |done|] ==>
      p in done && done[p] < done[queue[0] := |done|][c] && p != queue[0]
  {
    hide CountsEdges, HasEdge, InRange;
    FrontProducersDone(g, done, queue, inDegree);
    assert queue[0] in queue;
  }

  lemma StartFinishing(g: Graph, done: map<nat, nat>, queue: seq<nat>, inDegree: seq<nat>)
    requires InRange(g) && Sorting(g, done, queue, inDegree) && queue != [] && queue[0] < |g|
    ensures Finishing(g, done[queue[0] := |done|], g[queue[0]], queue[1..], inDegree)
  {
    hide HasEdge;
    var node := queue[0];
    var done' := done[node := |done|];
    assert node in queue && done'.Keys == done.Keys + {node};
    forall d | 0 <= d < |g|
      ensures inDegree[d] == Incoming(g, done'.Keys, d, |g|) + multiset(g[node])[d]
    {
      IncomingFinish(g, done.Keys, node, d, |g|);
    }
    FrontOnce(queue);
  }

  lemma FinishEdge(g: Graph, done: map<nat, nat>, dep: nat, owed: seq<nat>, queue: seq<nat>, inDegree: seq<nat>)
    requires Finishing(g, done, [dep] + owed, queue, inDegree) && dep < |g|
    ensures inDegree[dep] > 0
    ensures Finishing(g, done, owed, if inDegree[dep] == 1 then queue + [dep]
        else queue, inDegree[dep := inDegree[dep] - 1])
  {
    assert multiset([dep] + owed) == multiset{dep} + multiset(owed);
    assert dep !in done && dep !in queue;
    var queue' := if inDegree[dep] == 1 then queue + [dep] else queue;
    forall v ensures v in queue' <==> v in queue || (v == dep && inDegree[dep] == 1) {
    }
  }

  lemma FinishEdgeAt(g: Graph, done: map<nat, nat>, deps: seq<nat>, k: nat, queue: seq<nat>, inDegree: seq<nat>)
    requires k < |deps| && Finishing(g, done, deps[k..], queue, inDegree) && deps[k] < |g|
    ensures inDegree[deps[k]] > 0
    ensures Finishing(g, done, deps[k + 1..], if inDegree[deps[k]] == 1 then queue + [deps[k]] else queue,
      inDegree[deps[k] := inDegree[deps[k]] - 1])
  {
    assert deps[k..] == [deps[k]] + deps[k + 1..];
    FinishEdge(g, done, deps[k], deps[k + 1..], queue, inDegree);
  }

  lemma DoneFinishing(g: Graph, done: map<nat, nat>, deps: seq<nat>, queue: seq<nat>, inDegree: seq<nat>)
    requires InRange(g) && Finishing(g, done, deps[|deps|..], queue, inDegree)
    requires forall v :: v in done ==> v < |g| && done[v] < |done|
    requires forall p, c :: HasEdge(g, p, c) && c in done ==> p in done && done[p] < done[c]
    ensures Sorting(g, done, queue, inDegree)
  {
    assert deps[|deps|..] == [];
  }

  // One pass of the inner loop: the finished node's consumers lose one
  // pending edge per occurrence, and those that reach zero join the queue.
  method FinishNode(g: Graph, ghost done: map<nat, nat>, queue: seq<nat>, inDegree: seq<nat>)
    returns (queue': seq<nat>, inDegree': seq<nat>)
    requires InRange(g) && Sorting(g, done, queue, inDegree) && queue != [] && queue[0] < |g|
    ensures Sorting(g, done[queue[0] := |done|], queue', inDegree')
  {
    var deps := g[queue[0]];
    ghost var done' := done[queue[0] := |done|];
    StartFinishing(g, done, queue, inDegree);
    StartPositions(g, done, queue, inDegree);
    queue', inDegree' := queue[1..], inDegree;
    for k := 0 to |deps|
      invariant Finishing(g, done', deps[k..], queue', inDegree')
    {
      var dep := deps[k];
      assert HasEdge(g, queue[0], dep);
      FinishEdgeAt(g, done', deps, k, queue', inDegree');
      inDegree' := inDegree'[dep := inDegree'[dep] - 1];
      if inDegree'[dep] == 0 {
        queue' := queue' + [dep];
      }
    }
    DoneFinishing(g, done', deps, queue', inDegree');
  }

  // The first edge that names a task outside the range, and the offending id.
  method FindDangling(n: nat, edges: seq<Edge>) returns (bad: Option<nat>)
    ensures bad.None? <==> AllValid(n, edges)
    ensures bad.Some? ==> FirstDangling(n, edges, bad.value)
  {
    for k := 0 to |edges|
      invariant AllValid(n, edges[..k])
    {
      if edges[k].producer >= n {
        assert edges[k] in edges && !Valid(n, edges[k]);
        return Some(edges[k].producer);
      }
      if edges[k].consumer >= n {
        assert edges[k] in edges && !Valid(n, edges[k]);
        return Some(edges[k].consumer);
      }
      assert edges[..k + 1] == edges[..k] + [edges[k]];
    }
    assert edges[..|edges|] == edges;
    return None;
  }

  ghost predicate FirstDangling(n: nat, edges: seq<Edge>, id: nat) {
    exists k :: 0 <= k < |edges| && AllValid(n, edges[..k]) && !Valid(n, edges[k])
             && id == if edges[k].producer >= n then edges[k].producer else edges[k].consumer
  }

  // The queue has run dry: count tasks are sorted and the rest are still owed
  // an edge.
  ghost predicate Sorted(g: Graph, inDegree: seq<nat>, count: nat) {
    exists done: map<nat, nat> :: Sorting(g, done, [], inDegree) && |done| == count <= |g|
  }

  // The nodes without incoming edges, and Kahn's loop over the queue.
  method SortNodes(g: Graph, degrees: seq<nat>) returns (sortedCount: nat, inDegree: seq<nat>)
    requires InRange(g) && CountsEdges(g, {}, degrees)
    ensures Sorted(g, inDegree, sortedCount)
  {
    inDegree := degrees;
    var queue: seq<nat> := [];
    for i := 0 to |g|
      invariant Distinct(queue)
      invariant forall v :: v in queue <==> 0 <= v < i && inDegree[v] == 0
    {
      if inDegree[i] == 0 {
        queue := queue + [i];
      }
    }
    ghost var done: map<nat, nat> := map[];
    assert done.Keys == {};
    sortedCount := 0;
    while queue != []
      invariant Sorting(g, done, queue, inDegree)
      invariant sortedCount == |done| <= |g|
      decreases |g| - sortedCount
    {
      var node := queue[0];
      assert node in queue;
      ghost var done' := done[node := |done|];
      queue, inDegree := FinishNode(g, done, queue, inDegree);
      sortedCount := sortedCount + 1;
      SubsetSize(done'.Keys, Below(|g|));
      done := done';
    }
  }

  // Kahn is exact, in both directions and in what it reports.
  method ValidateDag(n: nat, edges: seq<Edge>) returns (verdict: Verdict)
    ensures verdict.Accepted? <==> AllValid(n, edges) && !HasCycle(edges)
    ensures verdict.Cyclic? <==> AllValid(n, edges) && HasCycle(edges)
    ensures verdict.Dangling? ==> FirstDangling(n, edges, verdict.id)
    ensures verdict.Cyclic? ==>
      && 1 <= |verdict.named| <= 2 && (|verdict.named| == 2 ==> verdict.named[0] < verdict.named[1])
      && forall g, v :: Represents(g, n, edges) && v in verdict.named ==> v < n && BelowCycle(g, v)
    ensures verdict.Cyclic? ==>
      forall g, v: nat :: Represents(g, n, edges) && BelowCycle(g, v) ==>
        v in verdict.named || (|verdict.named| == 2 && v > verdict.named[1])
  {
    var bad := FindDangling(n, edges);
    if bad.Some? {
      return Dangling(bad.value);
    }
    var g, degrees := BuildAdjacency(n, edges);
    RepresentsEdges(g, n, edges);
    SameCycles(g, n, edges);
    var sortedCount, inDegree := SortNodes(g, degrees);
    ghost var done: map<nat, nat> :| Sorting(g, done, [], inDegree) && |done| == sortedCount <= |g|;
    if sortedCount != n {
      var named := NameUnsorted(g, done, inDegree);
      forall h, v: nat | Represents(h, n, edges)
        ensures v in named ==> v < n && BelowCycle(h, v)
        ensures BelowCycle(h, v) ==> v in named || (|named| == 2 && v > named[1])
      {
        SameAncestors(g, h, n, edges);
      }
      return Cyclic(named);
    }
    SortedIsAcyclic(g, done, inDegree);
    return Accepted;
  }

  lemma SameAncestors(g: Graph, h: Graph, n: nat, edges: seq<Edge>)
    requires Represents(g, n, edges) && Represents(h, n, edges) && AllValid(n, edges)
    ensures forall a, d :: Ancestor(g, a, d) <==> Ancestor(h, a, d)
  {
    RepresentsEdges(g, n, edges);
    RepresentsEdges(h, n, edges);
    forall path, a, d
      ensures Connects(g, path, a, d) <==> Connects(h, path, a, d)
    {
    }
  }

  lemma AllSorted(g: Graph, done: map<nat, nat>, inDegree: seq<nat>)
    requires Sorting(g, done, [], inDegree)
    requires forall v :: 0 <= v < |g| ==> inDegree[v] == 0
    ensures |done| == |g|
  {
    assert done.Keys == Below(|g|);
  }

  // The tasks named in the error: the first two left with a pending edge. No
  // other task up to the second one, or at all if there is only one, is left.
  method NameUnsorted(g: Graph, ghost done: map<nat, nat>, inDegree: seq<nat>) returns (named: seq<nat>)
    requires InRange(g) && Sorting(g, done, [], inDegree) && |done| != |g|
    ensures 1 <= |named| <= 2 && (|named| == 2 ==> named[0] < named[1])
    ensures forall v :: v in named ==> v < |g| && BelowCycle(g, v)
    ensures forall v: nat :: BelowCycle(g, v) ==> v in named || (|named| == 2 && v > named[1])
    ensures !Acyclic(g)
  {
    named := [];
    var i := 0;
    while i < |g| && |named| < 2
      invariant i <= |g| && |named| <= 2
      invariant forall v :: v in named ==> v < i && BelowCycle(g, v)
      invariant |named| == 2 ==> named[0] < named[1] == i - 1
      invariant |named| == 1 ==> named[0] < i
      invariant forall v :: 0 <= v < i && inDegree[v] > 0 ==> v in named
    {
      if inDegree[i] > 0 {
        UnsortedIsBelowCycle(g, done, inDegree, i);
        named := named + [i];
      }
      i := i + 1;
    }
    forall v: nat | BelowCycle(g, v) ensures v in named || (|named| == 2 && v > named[1]) {
      BelowCycleIsUnsorted(g, done, inDegree, v);
    }
    if named == [] {
      AllSorted(g, done, inDegree);
    } else {
      assert named[0] in named;
    }
  }
}
