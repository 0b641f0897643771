// Directed graphs in the form both DAGR graph builders produce: one list of
// consumers per producer, in which a repeated edge appears repeatedly.
module Graphs {
  type Graph = seq<seq<nat>>

  predicate HasEdge(g: Graph, p: nat, c: nat) {
    p < |g| && c in g[p]
  }

  ghost predicate InRange(g: Graph) {
    forall p: nat, c: nat :: HasEdge(g, p, c) ==> c < |g|
  }

  ghost predicate IsPath(g: Graph, path: seq<nat>) {
    forall k :: 0 <= k < |path| - 1 ==> HasEdge(g, path[k], path[k + 1])
  }

  // A path with at least one edge from a to d.
  ghost predicate Connects(g: Graph, path: seq<nat>, a: nat, d: nat) {
    |path| >= 2 && IsPath(g, path) && path[0] == a && path[|path| - 1] == d
  }

  ghost predicate Ancestor(g: Graph, a: nat, d: nat) {
    exists path :: Connects(g, path, a, d)
  }

  ghost predicate Acyclic(g: Graph) {
    forall v :: !Ancestor(g, v, v)
  }

  lemma EdgeIsAncestor(g: Graph, p: nat, c: nat)
    requires HasEdge(g, p, c)
    ensures Ancestor(g, p, c)
  {
    assert Connects(g, [p, c], p, c);
  }

  lemma AncestorStep(g: Graph, a: nat, p: nat, d: nat)
    requires Ancestor(g, a, p) && HasEdge(g, p, d)
    ensures Ancestor(g, a, d)
  {
    var path :| Connects(g, path, a, p);
    assert Connects(g, path + [d], a, d);
  }

  // Among more positions than values, two positions agree.
  lemma {:induction false} Pigeonhole(s: seq<nat>, values: set<nat>) returns (i: nat, j: nat)
    requires |s| > |values| && forall x :: x in s ==> x in values
    ensures i < j < |s| && s[i] == s[j]
  {
    var last := |s| - 1;
    if exists k :: 0 <= k < last && s[k] == s[last] {
      var k :| 0 <= k < last && s[k] == s[last];
      i, j := k, last;
    } else {
      assert s[last] in values;
      i, j := Pigeonhole(s[..last], values - {s[last]});
    }
  }

  ghost predicate HasProducerIn(g: Graph, nodes: set<nat>, d: nat) {
    exists p :: p in nodes && HasEdge(g, p, d)
  }

  ghost predicate BackwardClosed(g: Graph, nodes: set<nat>) {
    forall d {:trigger HasProducerIn(g, nodes, d)} :: d in nodes ==> HasProducerIn(g, nodes, d)
  }

  // A backward walk of any length that stays inside a set closed under
  // "has a producer in the set".
  lemma {:induction false} BackwardWalk(g: Graph, nodes: set<nat>, end: nat, length: nat) returns (path: seq<nat>)
    requires end in nodes && BackwardClosed(g, nodes)
    ensures |path| == length + 1 && IsPath(g, path) && path[length] == end
    ensures forall v :: v in path ==> v in nodes
    decreases length
  {
    if length == 0 {
      path := [end];
    } else {
      assert HasProducerIn(g, nodes, end);
      var p :| p in nodes && HasEdge(g, p, end);
      var shorter := BackwardWalk(g, nodes, p, length - 1);
      path := shorter + [end];
    }
  }

  // The one source of cycles in this project: finitely many nodes, each with
  // a producer among them, contain a cycle.
  lemma BackwardClosedHasCycle(g: Graph, nodes: set<nat>) returns (v: nat)
    requires nodes != {} && BackwardClosed(g, nodes)
    ensures v in nodes && Ancestor(g, v, v)
  {
    var end :| end in nodes;
    var path := BackwardWalk(g, nodes, end, |nodes|);
    var i, j := Pigeonhole(path, nodes);
    assert Connects(g, path[i..j + 1], path[i], path[i]);
    v := path[i];
    assert v in path;
  }

  // If positions[] strictly increases along every edge there is no cycle.
  lemma PositionsIncrease(g: Graph, position: map<nat, nat>, path: seq<nat>, a: nat, d: nat)
    requires forall p, c :: HasEdge(g, p, c) ==> p in position && c in position && position[p] < position[c]
    requires Connects(g, path, a, d)
    ensures a in position && d in position && position[a] < position[d]
  {
    var n := |path| - 1;
    assert HasEdge(g, path[n - 1], path[n]);
    if n > 1 {
      var front := path[..n];
      assert Connects(g, front, a, path[n - 1]);
      PositionsIncrease(g, position, front, a, path[n - 1]);
    }
  }

  // Number of edges into d from the producers below k that are not done.
  function Incoming(g: Graph, done: set<nat>, d: nat, k: nat): nat
    requires k <= |g|
  {
    if k == 0 then 0
    else Incoming(g, done, d, k - 1) + if k - 1 in done then 0 else multiset(g[k - 1])[d]
  }

  lemma {:induction false} IncomingZero(g: Graph, done: set<nat>, d: nat, k: nat)
    requires k <= |g|
    ensures Incoming(g, done, d, k) == 0 <==> forall p :: 0 <= p < k && HasEdge(g, p, d) ==> p in done
  {
    if k > 0 {
      IncomingZero(g, done, d, k - 1);
      assert HasEdge(g, k - 1, d) <==> multiset(g[k - 1])[d] > 0;
    }
  }

  // Finishing producer p removes exactly its edges from the count.
  lemma {:induction false} IncomingFinish(g: Graph, done: set<nat>, p: nat, d: nat, k: nat)
    requires k <= |g| && p < |g| && p !in done
    ensures Incoming(g, done, d, k) == Incoming(g, done + {p}, d, k) + if p < k then multiset(g[p])[d] else 0
  {
    if k > 0 {
      IncomingFinish(g, done, p, d, k - 1);
    }
  }

  lemma {:induction false} IncomingAddEdge(g: Graph, p: nat, c: nat, d: nat, k: nat)
    requires k <= |g| && p < |g|
    ensures Incoming(g[p := g[p] + [c]], {}, d, k) == Incoming(g, {}, d, k) + if p < k && c == d then 1 else 0
  {
    if k > 0 {
      IncomingAddEdge(g, p, c, d, k - 1);
    }
  }
}
