// The gradients are least-squares fits, and the limiter scales them back no
// further than the range of the stencil demands.
module GradientFits {
  import opened Reals
  import opened Gradients

  // The squared misfit of gradient g over cell i's neighbours below k.
  function Misfit(m: Mesh, i: nat, k: nat, g: Vec): real
    requires Upto(m, i, k)
    decreases k
  {
    if k == m.offsets[i] then 0.0
    else
      var miss := Rise(m, i, k - 1) - Dot(g, Offset(m, i, k - 1));
      Misfit(m, i, k - 1, g) + miss * miss
  }

  function Plus(a: Vec, b: Vec): Vec {
    Vec(a.x + b.x, a.y + b.y, a.z + b.z)
  }

  // What g leaves of the right-hand side.
  function Slack(n: Sym, g: Vec, r: Vec): Vec {
    Vec(r.x - Row(n.xx, n.xy, n.xz, g.x, g.y, g.z), r.y - Row(n.xy, n.yy, n.yz, g.x, g.y, g.z),
        r.z - Row(n.xz, n.yz, n.zz, g.x, g.y, g.z))
  }

  lemma DotPlus(g: Vec, w: Vec, d: Vec)
    ensures Dot(Plus(g, w), d) == Dot(g, d) + Dot(w, d)
  {
  }

  lemma MissSquare(miss: real, move: real)
    ensures (miss - move) * (miss - move) == miss * miss - 2.0 * (miss * move) + move * move
  {
  }

  lemma SlackRow(r: real, p: real, row: real, row': real, f: real, e: real, left: real, left': real)
    requires row' == row + p * e && left == r - row && left' == r + p * f - row'
    ensures left' == left + p * (f - e)
  {
  }

  lemma SlackStep(n: Sym, g: Vec, r: Vec, d: Vec, f: real)
    ensures Slack(AddOuter(n, d), g, AddScaled(r, d, f))
         == AddScaled(Slack(n, g, r), d, f - Dot(g, d))
  {
    hide Row, Dot, AddOuter;
    var n', e := AddOuter(n, d), Dot(g, d);
    var s, s' := Slack(n, g, r), Slack(n', g, AddScaled(r, d, f));
    OuterRows(n, d, g);
    SlackRow(r.x, d.x, Row(n.xx, n.xy, n.xz, g.x, g.y, g.z), Row(n'.xx, n'.xy, n'.xz, g.x, g.y, g.z), f, e, s.x, s'.x);
    SlackRow(r.y, d.y, Row(n.xy, n.yy, n.yz, g.x, g.y, g.z), Row(n'.xy, n'.yy, n'.yz, g.x, g.y, g.z), f, e, s.y, s'.y);
    SlackRow(r.z, d.z, Row(n.xz, n.yz, n.zz, g.x, g.y, g.z), Row(n'.xz, n'.yz, n'.zz, g.x, g.y, g.z), f, e, s.z, s'.z);
  }

  lemma OuterRows(n: Sym, d: Vec, w: Vec)
    ensures var n' := AddOuter(n, d);
      && Row(n'.xx, n'.xy, n'.xz, w.x, w.y, w.z) == Row(n.xx, n.xy, n.xz, w.x, w.y, w.z) + d.x * Dot(w, d)
      && Row(n'.xy, n'.yy, n'.yz, w.x, w.y, w.z) == Row(n.xy, n.yy, n.yz, w.x, w.y, w.z) + d.y * Dot(w, d)
      && Row(n'.xz, n'.yz, n'.zz, w.x, w.y, w.z) == Row(n.xz, n.yz, n.zz, w.x, w.y, w.z) + d.z * Dot(w, d)
  {
    hide Row, Dot;
    var n' := AddOuter(n, d);
    OuterRow(n.xx, n.xy, n.xz, d, d.x, w, n'.xx, n'.xy, n'.xz);
    OuterRow(n.xy, n.yy, n.yz, d, d.y, w, n'.xy, n'.yy, n'.yz);
    OuterRow(n.xz, n.yz, n.zz, d, d.z, w, n'.xz, n'.yz, n'.zz);
  }

  lemma DotScaled(w: Vec, r: Vec, d: Vec, f: real)
    ensures Dot(w, AddScaled(r, d, f)) == Dot(w, r) + f * Dot(w, d)
  {
    assert w.x * (d.x * f) == f * (w.x * d.x) && w.y * (d.y * f) == f * (w.y * d.y)
        && w.z * (d.z * f) == f * (w.z * d.z);
  }

  // Moving from g by w changes the misfit by the form of the normal matrix,
  // less twice what the move gains against the slack.
  lemma {:induction false} MisfitMoves(m: Mesh, i: nat, k: nat, g: Vec, w: Vec)
    requires Upto(m, i, k)
    ensures Misfit(m, i, k, Plus(g, w)) == Misfit(m, i, k, g)
      - 2.0 * Dot(w, Slack(Normal(m, i, k), g, RightSide(m, i, k))) + Form(Normal(m, i, k), w)
    decreases k
  {
    hide Dot, Slack, Form, Plus, Offset, Rise;
    if k > m.offsets[i] {
      var n, r := Normal(m, i, k - 1), RightSide(m, i, k - 1);
      var d, f := Offset(m, i, k - 1), Rise(m, i, k - 1);
      MisfitMoves(m, i, k - 1, g, w);
      SlackStep(n, g, r, d, f);
      DotScaled(w, Slack(n, g, r), d, f - Dot(g, d));
      FormStep(n, d, w);
      DotPlus(g, w, d);
      MissSquare(f - Dot(g, d), Dot(w, d));
    } else {
      NoSlack(g, w);
    }
  }

  lemma NoSlack(g: Vec, w: Vec)
    ensures Dot(w, Slack(Sym(0.0, 0.0, 0.0, 0.0, 0.0, 0.0), g, ZERO)) == 0.0
    ensures Form(Sym(0.0, 0.0, 0.0, 0.0, 0.0, 0.0), w) == 0.0
  {
  }

  lemma SatisfiedSlack(n: Sym, g: Vec, r: Vec, w: Vec)
    requires Satisfies(n, g, r)
    ensures Dot(w, Slack(n, g, r)) == 0.0
  {
    assert Slack(n, g, r) == ZERO;
  }

  // No gradient fits cell i's neighbours better, and no other as well.
  ghost predicate BestFit(m: Mesh, i: nat, g: Vec)
    requires Valid(m) && i < |m.values|
  {
    var end := m.offsets[i + 1];
    forall h: Vec :: Misfit(m, i, end, g) <= Misfit(m, i, end, h)
      && (Misfit(m, i, end, h) == Misfit(m, i, end, g) ==> h == g)
  }

  // A cell has a fit to compute: three neighbours and a determinant that
  // passes the test.
  predicate Determined(m: Mesh, i: nat)
    requires Valid(m) && i < |m.values|
  {
    m.offsets[i + 1] - m.offsets[i] >= 3 && !Singular(Normal(m, i, m.offsets[i + 1]))
  }

  // The computed gradient is the least-squares fit over all the neighbours,
  // and zero where there is none to compute.
  lemma RawFits(m: Mesh, i: nat)
    requires Valid(m) && i < |m.values|
    ensures if Determined(m, i) then BestFit(m, i, Raw(m, i)) else Raw(m, i) == ZERO
  {
    if Determined(m, i) {
      var end, g := m.offsets[i + 1], Raw(m, i);
      CramerSatisfies(Normal(m, i, end), RightSide(m, i, end));
      forall h: Vec
        ensures Misfit(m, i, end, g) <= Misfit(m, i, end, h)
        ensures Misfit(m, i, end, h) == Misfit(m, i, end, g) ==> h == g
      {
        FitBeats(m, i, g, h);
      }
    }
  }

  lemma FitBeats(m: Mesh, i: nat, g: Vec, h: Vec)
    requires Valid(m) && i < |m.values|
    requires !Singular(Normal(m, i, m.offsets[i + 1]))
    requires Satisfies(Normal(m, i, m.offsets[i + 1]), g, RightSide(m, i, m.offsets[i + 1]))
    ensures var end := m.offsets[i + 1];
      Misfit(m, i, end, g) <= Misfit(m, i, end, h) && (Misfit(m, i, end, h) == Misfit(m, i, end, g) ==> h == g)
  {
    hide Det, Satisfies, Form, Dot, Slack, Misfit, Normal, RightSide, Flat, Offset;
    var end, w := m.offsets[i + 1], Minus(h, g);
    var n := Normal(m, i, end);
    assert Plus(g, w) == h;
    MisfitMoves(m, i, end, g, w);
    SatisfiedSlack(n, g, RightSide(m, i, end), w);
    FormVanishes(m, i, end, w);
    if Form(n, w) == 0.0 && w != ZERO {
      FlatWhenStill(m, i, w);
      DegenerateExactlyWhen(m, i);
    }
  }

  lemma FlatWhenStill(m: Mesh, i: nat, w: Vec)
    requires Valid(m) && i < |m.values| && w != ZERO
    requires forall j :: m.offsets[i] <= j < m.offsets[i + 1] ==> Dot(w, Offset(m, i, j)) == 0.0
    ensures Flat(m, i)
  {
    assert FlatAlong(m, i, w);
  }

  // ----- the limiter -----

  // The two ends of a cell's range are values of its stencil.
  lemma {:induction false} RangeAttained(m: Mesh, i: nat, k: nat)
    requires Upto(m, i, k)
    ensures Low(m, i, k) == m.values[i] || exists j :: m.offsets[i] <= j < k && Low(m, i, k) == m.values[m.indices[j]]
    ensures High(m, i, k) == m.values[i] || exists j :: m.offsets[i] <= j < k && High(m, i, k) == m.values[m.indices[j]]
    decreases k
  {
    if k > m.offsets[i] {
      RangeAttained(m, i, k - 1);
    }
  }

  predicate Significant(change: real) {
    Abs(change) > EPS
  }

  lemma UpTo(f: real, bound: real, change: real)
    requires change > 0.0
    ensures f <= bound / change <==> f * change <= bound
  {
    var q := bound / change;
    assert q * change == bound;
    assert (q - f) * change == q * change - f * change;
    if f > q {
      Positive(f - q, change);
    }
  }

  lemma DownTo(f: real, bound: real, change: real)
    requires change < 0.0
    ensures f <= bound / change <==> bound <= f * change
  {
    UpTo(f, -bound, -change);
    RatioSign(bound, change);
    Opposite(f, change);
  }

  lemma LimitExact(change: real, below: real, above: real, phi: real, f: real)
    requires below <= 0.0 <= above && 0.0 <= f <= 1.0
    ensures f <= Limit(change, below, above, phi)
      <==> f <= phi && (Significant(change) ==> below <= f * change <= above)
  {
    if change > EPS {
      UpTo(f, above, change);
      ScaledBetween(0.0, f, change);
    } else if change < -EPS {
      DownTo(f, below, change);
      ScaledBetween(0.0, f, change);
    }
  }

  // Scaled by f, the change at neighbour j, if it is significant, stays within
  // the range of the stencil.
  predicate Stays(m: Mesh, i: nat, g: Vec, f: real, j: nat)
    requires Neighbour(m, i, j)
  {
    Significant(Change(m, i, g, j)) ==> Below(m, i) <= f * Change(m, i, g, j) <= Above(m, i)
  }

  // The factor is the largest in [0, 1] under which every neighbour's stays.
  lemma {:induction false} FactorLargest(m: Mesh, i: nat, g: Vec, k: nat, f: real)
    requires Upto(m, i, k) && 0.0 <= f <= 1.0
    ensures f <= Factor(m, i, g, k) <==> forall j :: m.offsets[i] <= j < k ==> Stays(m, i, g, f, j)
    decreases k
  {
    if k > m.offsets[i] {
      FactorLargest(m, i, g, k - 1, f);
      StaysWhen(m, i, g, f, k - 1);
      hide Stays, Limit;
      assert (forall j :: m.offsets[i] <= j < k ==> Stays(m, i, g, f, j)) <==>
        (forall j :: m.offsets[i] <= j < k - 1 ==> Stays(m, i, g, f, j)) && Stays(m, i, g, f, k - 1);
    }
  }

  lemma StaysWhen(m: Mesh, i: nat, g: Vec, f: real, j: nat)
    requires Neighbour(m, i, j) && 0.0 <= f <= 1.0
    ensures f <= Factor(m, i, g, j + 1) <==> f <= Factor(m, i, g, j) && Stays(m, i, g, f, j)
  {
    hide Change, Limit, Significant, Below, Above;
    StencilRange(m, i);
    LimitExact(Change(m, i, g, j), Below(m, i), Above(m, i), Factor(m, i, g, j), f);
  }

  lemma StencilRange(m: Mesh, i: nat)
    requires Valid(m) && i < |m.values|
    ensures Below(m, i) <= 0.0 <= Above(m, i)
  {
    RangeMeaning(m, i, m.offsets[i + 1]);
  }
}
