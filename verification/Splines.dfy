// The column spline over real numbers: the tridiagonal solve for the nodal
// slopes and the cubic evaluated between two nodes.
module Splines {
  import opened Reals

  const TINY: real := 0.000000000000001

  // The distance between nodes i - 1 and i; a gap that is not positive is
  // replaced by a tiny one.
  function Gap(x: seq<real>, i: nat): (g: real)
    requires 1 <= i < |x|
    ensures g > 0.0
  {
    if x[i] - x[i - 1] <= 0.0 then TINY else x[i] - x[i - 1]
  }

  function Slope(x: seq<real>, y: seq<real>, i: nat): real
    requires 1 <= i < |x| == |y|
  {
    (y[i] - y[i - 1]) / Gap(x, i)
  }

  // The gap before each node and the right-hand side at each interior node.
  datatype System = System(gap: seq<real>, rhs: seq<real>)

  function SystemOf(x: seq<real>, y: seq<real>): (sys: System)
    requires |x| == |y|
    ensures Proper(sys) && |sys.gap| == |x|
  {
    System(
      seq(|x|, i requires 0 <= i < |x| => if i == 0 then 0.0 else Gap(x, i)),
      seq(|x|, i requires 0 <= i < |x| =>
        if 1 <= i < |x| - 1 then 3.0 * (Slope(x, y, i + 1) - Slope(x, y, i)) else 0.0))
  }

  predicate Proper(sys: System) {
    |sys.gap| == |sys.rhs| && forall i :: 1 <= i < |sys.gap| ==> sys.gap[i] > 0.0
  }

  predicate Balanced(g1: real, g2: real, rhs: real, below: real, here: real, above: real) {
    g1 * below + 2.0 * (g1 + g2) * here + g2 * above == rhs
  }

  predicate SolvesAt(sys: System, s: seq<real>, i: nat)
    requires Proper(sys) && |s| == |sys.gap| && 1 <= i < |s| - 1
  {
    Balanced(sys.gap[i], sys.gap[i + 1], sys.rhs[i], s[i - 1], s[i], s[i + 1])
  }

  // Zero at both ends and the tridiagonal equation at every interior node.
  predicate Solves(sys: System, s: seq<real>)
    requires Proper(sys) && |s| == |sys.gap| >= 3
  {
    s[0] == 0.0 && s[|s| - 1] == 0.0 && forall i :: 1 <= i < |s| - 1 ==> SolvesAt(sys, s, i)
  }

  // ----- the only solution -----

  // The difference of two balanced rows, bounded from the side below.
  lemma RowShrinks(g1: real, g2: real, below: real, here: real, above: real)
    requires g1 > 0.0 && g2 > 0.0 && Balanced(g1, g2, 0.0, below, here, above)
    requires 2.0 * Abs(below) <= Abs(here)
    ensures 2.0 * Abs(here) <= Abs(above)
  {
    Triangle(g1, g2, below, here, above);
    Halves(g1, g2, Abs(below), Abs(here), Abs(above));
  }

  lemma Halves(g1: real, g2: real, u: real, v: real, w: real)
    requires g1 > 0.0 && g2 > 0.0 && v >= 0.0 && 2.0 * u <= v
    requires 2.0 * (g1 * v) + 2.0 * (g2 * v) <= g1 * u + g2 * w
    ensures 2.0 * v <= w
  {
    Times(g1, v, 2.0 * u);
    Twice(g1, u);
    assert g1 * v >= 0.0;
    Times(g2, w, 2.0 * v);
    Twice(g2, v);
  }

  lemma Triangle(g1: real, g2: real, below: real, here: real, above: real)
    requires g1 > 0.0 && g2 > 0.0 && Balanced(g1, g2, 0.0, below, here, above)
    ensures 2.0 * (g1 * Abs(here)) + 2.0 * (g2 * Abs(here)) <= g1 * Abs(below) + g2 * Abs(above)
  {
    AbsProduct(g1, below);
    AbsProduct(g2, above);
    AbsProduct(g1, here);
    AbsProduct(g2, here);
    assert 2.0 * (g1 + g2) * here == 2.0 * (g1 * here) + 2.0 * (g2 * here);
  }

  lemma AbsProduct(g: real, a: real)
    requires g > 0.0
    ensures g * Abs(a) == Abs(g * a) && (a >= 0.0 <==> g * a >= 0.0)
  {
    Times(g, a, 0.0);
    Times(g, 0.0, a);
  }

  lemma Times(p: real, a: real, b: real)
    requires p > 0.0
    ensures a < b <==> p * a < p * b
  {
    if a < b {
      assert p * (b - a) > 0.0;
    } else {
      assert p * (a - b) >= 0.0;
    }
  }

  lemma Twice(p: real, q: real)
    ensures p * (2.0 * q) == 2.0 * (p * q)
  {
  }

  lemma BalancedDifference(g1: real, g2: real, rhs: real, a: real, b: real, c: real, a': real, b': real, c': real)
    requires Balanced(g1, g2, rhs, a, b, c) && Balanced(g1, g2, rhs, a', b', c')
    ensures Balanced(g1, g2, 0.0, a - a', b - b', c - c')
  {
  }

  lemma {:induction false} DifferenceShrinks(sys: System, s: seq<real>, s': seq<real>, i: nat)
    requires Proper(sys) && |s| == |s'| == |sys.gap| >= 3 && Solves(sys, s) && Solves(sys, s') && i + 1 < |s|
    ensures 2.0 * Abs(s[i] - s'[i]) <= Abs(s[i + 1] - s'[i + 1])
  {
    if i > 0 {
      DifferenceShrinks(sys, s, s', i - 1);
      assert SolvesAt(sys, s, i) && SolvesAt(sys, s', i);
      BalancedDifference(sys.gap[i], sys.gap[i + 1], sys.rhs[i], s[i - 1], s[i], s[i + 1], s'[i - 1], s'[i], s'[i + 1]);
      RowShrinks(sys.gap[i], sys.gap[i + 1], s[i - 1] - s'[i - 1], s[i] - s'[i], s[i + 1] - s'[i + 1]);
    }
  }

  lemma {:induction false} SameFrom(sys: System, s: seq<real>, s': seq<real>, i: nat)
    requires Proper(sys) && |s| == |s'| == |sys.gap| >= 3 && Solves(sys, s) && Solves(sys, s') && i < |s|
    ensures s[i] == s'[i]
    decreases |s| - i
  {
    if i < |s| - 1 {
      SameFrom(sys, s, s', i + 1);
      DifferenceShrinks(sys, s, s', i);
    }
  }

  // The system has at most one solution.
  lemma SolutionUnique(sys: System, s: seq<real>, s': seq<real>)
    requires Proper(sys) && |s| == |s'| == |sys.gap| >= 3 && Solves(sys, s) && Solves(sys, s')
    ensures s == s'
  {
    forall i | 0 <= i < |s| ensures s[i] == s'[i] {
      SameFrom(sys, s, s', i);
    }
  }

  // ----- elimination -----

  function Pivot(g1: real, g2: real, c: real): real {
    2.0 * (g1 + g2) - g1 * c
  }

  // A row after elimination: its coefficient stays below one half, so the
  // pivot of the next row is positive.
  predicate Eliminated(g1: real, g2: real, rhs: real, c: real, e: real, c': real, e': real) {
    var p := Pivot(g1, g2, c);
    0.0 <= c' && 2.0 * c' < 1.0 && p > 0.0 && p * c' == g2 && p * e' == rhs - g1 * e
  }

  lemma PivotPositive(g1: real, g2: real, c: real)
    requires g1 > 0.0 && g2 > 0.0 && 0.0 <= c && 2.0 * c < 1.0
    ensures Pivot(g1, g2, c) > 2.0 * g2
  {
    Times(g1, 2.0 * c, 1.0);
    Twice(g1, c);
  }

  lemma RowEliminates(g1: real, g2: real, rhs: real, c: real, e: real, p: real, c': real, e': real)
    requires g1 > 0.0 && g2 > 0.0 && 0.0 <= c && 2.0 * c < 1.0
    requires p == Pivot(g1, g2, c) && p * c' == g2 && p * e' == rhs - g1 * e
    ensures Eliminated(g1, g2, rhs, c, e, c', e')
  {
    hide Pivot;
    PivotPositive(g1, g2, c);
    FactorBound(p, c', g2);
  }

  lemma Quotient(a: real, p: real)
    requires p > 0.0
    ensures p * (a / p) == a
  {
  }

  lemma FactorBound(p: real, q: real, g2: real)
    requires g2 > 0.0 && p > 2.0 * g2 && p * q == g2
    ensures 0.0 <= q && 2.0 * q < 1.0
  {
    Times(p, q, 0.0);
    Twice(p, q);
    Times(p, 2.0 * q, 1.0);
  }

  // Substituting the eliminated row from above turns the equation of a row
  // into its eliminated form.
  lemma RowSolved(g1: real, g2: real, rhs: real, c: real, e: real, c': real, e': real, below: real, here: real,
      above: real)
    requires Eliminated(g1, g2, rhs, c, e, c', e') && below == e - c * here && here == e' - c' * above
    ensures Balanced(g1, g2, rhs, below, here, above)
  {
    var p := Pivot(g1, g2, c);
    assert g1 * below == g1 * e - g1 * c * here;
    assert p * here == p * e' - p * c' * above;
  }

  // One turn of the elimination loop.
  method EliminateRow(x: seq<real>, y: seq<real>, i: nat, c: real, e: real) returns (c': real, e': real)
    requires 1 <= i && i + 1 < |x| == |y| && 0.0 <= c && 2.0 * c < 1.0
    ensures Eliminated(SystemOf(x, y).gap[i], SystemOf(x, y).gap[i + 1], SystemOf(x, y).rhs[i], c, e, c', e')
  {
    var dx1 := x[i] - x[i - 1];
    var dx2 := x[i + 1] - x[i];
    if dx1 <= 0.0 { dx1 := TINY; }
    if dx2 <= 0.0 { dx2 := TINY; }
    var dy1 := (y[i] - y[i - 1]) / dx1;
    var dy2 := (y[i + 1] - y[i]) / dx2;
    assert dx1 == SystemOf(x, y).gap[i] && dx2 == SystemOf(x, y).gap[i + 1];
    assert 3.0 * (dy2 - dy1) == SystemOf(x, y).rhs[i];
    c', e' := EliminateScalars(dx1, dx2, 3.0 * (dy2 - dy1), c, e);
  }

  method EliminateScalars(dx1: real, dx2: real, rhs: real, c: real, e: real) returns (c': real, e': real)
    requires dx1 > 0.0 && dx2 > 0.0 && 0.0 <= c && 2.0 * c < 1.0
    ensures Eliminated(dx1, dx2, rhs, c, e, c', e')
  {
    PivotPositive(dx1, dx2, c);
    var denom := 2.0 * (dx1 + dx2) - dx1 * c;
    if denom == 0.0 { denom := TINY; }
    c' := dx2 / denom;
    e' := (rhs - dx1 * e) / denom;
    Quotient(dx2, denom);
    Quotient(rhs - dx1 * e, denom);
    RowEliminates(dx1, dx2, rhs, c, e, denom, c', e');
  }

  // What elimination leaves in d and scratch.
  predicate Forward(sys: System, c: seq<real>, e: seq<real>, n: nat)
    requires Proper(sys) && n <= |c| && n <= |e| && n < |sys.gap|
  {
    && (n > 0 ==> c[0] == 0.0 && e[0] == 0.0)
    && forall k :: 1 <= k < n ==> Eliminated(sys.gap[k], sys.gap[k + 1], sys.rhs[k], c[k - 1], e[k - 1], c[k], e[k])
  }

  method Eliminate(x: seq<real>, y: seq<real>, d: array<real>, scratch: array<real>)
    requires |x| == |y| == d.Length == scratch.Length && |x| >= 3 && d != scratch
    modifies d, scratch
    ensures Forward(SystemOf(x, y), scratch[..], d[..], |x| - 1)
  {
    d[0] := 0.0;
    scratch[0] := 0.0;
    for i := 1 to |x| - 1
      invariant Forward(SystemOf(x, y), scratch[..], d[..], i)
      invariant 0.0 <= scratch[i - 1] && 2.0 * scratch[i - 1] < 1.0
    {
      scratch[i], d[i] := EliminateRow(x, y, i, scratch[i - 1], d[i - 1]);
    }
  }

  predicate Substituted(e: real, c: real, above: real, here: real) {
    here == e - c * above
  }

  method Substitute(d: array<real>, scratch: array<real>)
    requires d.Length == scratch.Length >= 3 && d != scratch
    modifies d
    ensures d[d.Length - 1] == 0.0
    ensures forall k :: 0 <= k < d.Length - 1 ==> Substituted(old(d[k]), scratch[k], d[k + 1], d[k])
  {
    var n := d.Length;
    d[n - 1] := 0.0;
    for i := n - 1 downto 0
      invariant d[n - 1] == 0.0 && forall k :: 0 <= k < i ==> d[k] == old(d[k])
      invariant forall k :: i <= k < n - 1 ==> Substituted(old(d[k]), scratch[k], d[k + 1], d[k])
    {
      d[i] := d[i] - scratch[i] * d[i + 1];
    }
  }

  lemma SubstitutedSolves(sys: System, c: seq<real>, e: seq<real>, s: seq<real>)
    requires Proper(sys) && |c| == |e| == |s| == |sys.gap| >= 3 && Forward(sys, c, e, |s| - 1)
    requires s[|s| - 1] == 0.0 && forall k :: 0 <= k < |s| - 1 ==> Substituted(e[k], c[k], s[k + 1], s[k])
    ensures Solves(sys, s)
  {
    assert Substituted(e[0], c[0], s[1], s[0]);
    assert c[0] * s[1] == 0.0;
    forall i | 1 <= i < |s| - 1 ensures SolvesAt(sys, s, i) {
      assert Substituted(e[i - 1], c[i - 1], s[i], s[i - 1]) && Substituted(e[i], c[i], s[i + 1], s[i]);
      RowSolved(sys.gap[i], sys.gap[i + 1], sys.rhs[i], c[i - 1], e[i - 1], c[i], e[i], s[i - 1], s[i], s[i + 1]);
    }
  }

  // The natural-spline solve: for three nodes and more the result is the one
  // solution of the system, for two the slope of the segment.
  method SolveColumnSpline(x: seq<real>, y: seq<real>, d: array<real>, scratch: array<real>)
    requires |x| == |y| == d.Length == scratch.Length && d != scratch
    requires |x| == 2 ==> x[1] != x[0]
    modifies d, scratch
    ensures |x| < 2 ==> d[..] == old(d[..])
    ensures |x| == 2 ==> d[0] == d[1] == (y[1] - y[0]) / (x[1] - x[0])
    ensures |x| >= 3 ==> Solves(SystemOf(x, y), d[..])
  {
    var n := |x|;
    if n < 2 {
      return;
    }
    if n == 2 {
      d[0] := (y[1] - y[0]) / (x[1] - x[0]);
      d[1] := d[0];
      return;
    }
    Eliminate(x, y, d, scratch);
    ghost var e := d[..];
    Substitute(d, scratch);
    SubstitutedSolves(SystemOf(x, y), scratch[..], e, d[..]);
  }

  // ----- evaluation without tension -----

  function Hermite(t: real, dx: real, y1: real, y2: real, d1: real, d2: real): real {
    var h00 := (1.0 + 2.0 * t) * (1.0 - t) * (1.0 - t);
    var h10 := t * (1.0 - t) * (1.0 - t);
    var h01 := t * t * (3.0 - 2.0 * t);
    var h11 := t * t * (t - 1.0);
    y1 * h00 + d1 * dx * h10 + y2 * h01 + d2 * dx * h11
  }

  function EvaluateSpline(x: real, x1: real, x2: real, y1: real, y2: real, d1: real, d2: real): real {
    if x2 - x1 <= 0.0 then y1 else Hermite((x - x1) / (x2 - x1), x2 - x1, y1, y2, d1, d2)
  }

  // The cubic passes through both nodes, whatever the slopes.
  lemma Interpolates(x1: real, x2: real, y1: real, y2: real, d1: real, d2: real)
    requires x1 < x2
    ensures EvaluateSpline(x1, x1, x2, y1, y2, d1, d2) == y1 && EvaluateSpline(x2, x1, x2, y1, y2, d1, d2) == y2
  {
    assert (x1 - x1) / (x2 - x1) == 0.0 && (x2 - x1) / (x2 - x1) == 1.0;
    assert Hermite(0.0, x2 - x1, y1, y2, d1, d2) == y1;
    assert Hermite(1.0, x2 - x1, y1, y2, d1, d2) == y2;
  }

  // With equal end slopes the cubic departs from the chord by the part of the
  // rise that the slope misses, times t(2t - 1)(t - 1).
  lemma Departure(t: real, dx: real, y1: real, y2: real, d: real)
    ensures Hermite(t, dx, y1, y2, d, d)
        == y1 + (y2 - y1) * t + (d * dx - (y2 - y1)) * (t * (2.0 * t - 1.0) * (t - 1.0))
  {
  }

  lemma ZeroProduct(a: real, b: real)
    ensures a * b == 0.0 <==> a == 0.0 || b == 0.0
  {
  }

  // Two nodes: their slope reproduces the line through them.
  lemma TwoNodesReproduceLines(x: real, x1: real, x2: real, y1: real, y2: real)
    requires x1 < x2
    ensures var d := (y2 - y1) / (x2 - x1);
      EvaluateSpline(x, x1, x2, y1, y2, d, d)
        == y1 + (y2 - y1) * ((x - x1) / (x2 - x1))
  {
    Departure((x - x1) / (x2 - x1), x2 - x1, y1, y2, (y2 - y1) / (x2 - x1));
  }

  predicate Affine(x: seq<real>, y: seq<real>, a: real, b: real)
    requires |x| == |y|
  {
    forall i :: 0 <= i < |x| ==> y[i] == a + b * x[i]
  }

  lemma AffineSlope(x1: real, x2: real, a: real, b: real)
    requires x1 < x2
    ensures ((a + b * x2) - (a + b * x1)) / (x2 - x1) == b
  {
    assert (a + b * x2) - (a + b * x1) == b * (x2 - x1);
    var q := (b * (x2 - x1)) / (x2 - x1);
    Quotient(b * (x2 - x1), x2 - x1);
    ZeroProduct(x2 - x1, q - b);
    assert (x2 - x1) * (q - b) == (x2 - x1) * q - b * (x2 - x1);
  }

  // On a line through three nodes and more, every solved slope is zero.
  lemma AffineSlopesVanish(x: seq<real>, y: seq<real>, a: real, b: real, s: seq<real>)
    requires |x| == |y| == |s| >= 3 && (forall i :: 1 <= i < |x| ==> x[i - 1] < x[i]) && Affine(x, y, a, b)
    requires Solves(SystemOf(x, y), s)
    ensures forall i :: 0 <= i < |s| ==> s[i] == 0.0
  {
    hide Solves, Affine;
    var zero := seq(|x|, _ => 0.0);
    ZeroSolves(x, y, a, b, zero);
    SolutionUnique(SystemOf(x, y), s, zero);
  }

  lemma LineSlope(x: seq<real>, y: seq<real>, a: real, b: real, i: nat)
    requires |x| == |y| && 1 <= i < |x| && x[i - 1] < x[i] && Affine(x, y, a, b)
    ensures Slope(x, y, i) == b
  {
    AffineSlope(x[i - 1], x[i], a, b);
  }

  lemma ZeroRow(g1: real, g2: real)
    ensures Balanced(g1, g2, 0.0, 0.0, 0.0, 0.0)
  {
  }

  // On a line the right-hand sides vanish, so zero solves the system.
  lemma ZeroSolves(x: seq<real>, y: seq<real>, a: real, b: real, zero: seq<real>)
    requires |x| == |y| == |zero| >= 3 && (forall i :: 1 <= i < |x| ==> x[i - 1] < x[i]) && Affine(x, y, a, b)
    requires forall i :: 0 <= i < |zero| ==> zero[i] == 0.0
    ensures Solves(SystemOf(x, y), zero)
  {
    hide Balanced, Affine, Slope;
    var sys := SystemOf(x, y);
    forall i | 1 <= i < |x| - 1 ensures SolvesAt(sys, zero, i) {
      var next := i + 1;
      assert x[i - 1] < x[i] && x[next - 1] < x[next];
      LineSlope(x, y, a, b, i);
      LineSlope(x, y, a, b, next);
      assert sys.rhs[i] == 0.0;
      ZeroRow(sys.gap[i], sys.gap[next]);
    }
  }

  // So solving and evaluating reproduces a line exactly when it is level, or
  // at the ends and the middle of an interval.
  lemma LinesReproducedExactlyWhen(x: seq<real>, y: seq<real>, a: real, b: real, s: seq<real>, i: nat, at: real)
    requires |x| == |y| == |s| >= 3 && (forall k :: 1 <= k < |x| ==> x[k - 1] < x[k]) && Affine(x, y, a, b)
    requires Solves(SystemOf(x, y), s) && i + 1 < |x|
    ensures EvaluateSpline(at, x[i], x[i + 1], y[i], y[i + 1], s[i], s[i + 1]) == a + b * at
      <==> b == 0.0 || at == x[i] || at == x[i + 1] || at == (x[i] + x[i + 1]) / 2.0
  {
    AffineSlopesVanish(x, y, a, b, s);
    var k := i + 1;
    assert x[k - 1] < x[k];
    LineAt(x[i], x[k], a, b, at);
  }

  lemma LineAt(x1: real, x2: real, a: real, b: real, at: real)
    requires x1 < x2
    ensures EvaluateSpline(at, x1, x2, a + b * x1, a + b * x2, 0.0, 0.0) == a + b * at
      <==> b == 0.0 || at == x1 || at == x2 || at == (x1 + x2) / 2.0
  {
    var dx := x2 - x1;
    var t := (at - x1) / dx;
    Quotient(at - x1, dx);
    var y1, y2 := a + b * x1, a + b * x2;
    Departure(t, dx, y1, y2, 0.0);
    hide Hermite;
    assert y2 - y1 == b * dx;
    assert y1 + (y2 - y1) * t == a + b * at by {
      assert b * dx * t == b * (dx * t);
    }
    ZeroProduct(-(b * dx), t * (2.0 * t - 1.0) * (t - 1.0));
    ZeroProduct(t * (2.0 * t - 1.0), t - 1.0);
    ZeroProduct(t, 2.0 * t - 1.0);
    ZeroProduct(b, dx);
    PlaceOf(t, x1, x2, at);
  }

  lemma PlaceOf(t: real, x1: real, x2: real, at: real)
    requires x1 < x2 && (x2 - x1) * t == at - x1
    ensures (t == 0.0 <==> at == x1) && (t == 1.0 <==> at == x2) && (2.0 * t == 1.0 <==> at == (x1 + x2) / 2.0)
  {
    ZeroProduct(x2 - x1, t);
    ZeroProduct(x2 - x1, t - 1.0);
    ZeroProduct(x2 - x1, 2.0 * t - 1.0);
    assert (x2 - x1) * (2.0 * t) == 2.0 * (at - x1);
  }
}
