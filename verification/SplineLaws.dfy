// What the spline's two halves mean as calculus: evaluation is the cubic with
// the given values and slopes, and the solved system is that of the natural
// cubic spline.
module SplineLaws {
  import opened Splines

  // a + b u + c u^2 + e u^3, where u is the distance from the lower node.
  datatype Cubic = Cubic(a: real, b: real, c: real, e: real)

  function Value(q: Cubic, u: real): real {
    q.a + q.b * u + q.c * (u * u) + q.e * (u * u * u)
  }

  // The first and second derivative of Value in u.
  function First(q: Cubic, u: real): real {
    q.b + 2.0 * q.c * u + 3.0 * q.e * (u * u)
  }

  function Second(q: Cubic, u: real): real {
    2.0 * q.c + 6.0 * q.e * u
  }

  // The four basis polynomials reproduce 1, t, t^2 and t^3.
  lemma Basis(t: real, h00: real, h10: real, h01: real, h11: real)
    requires h00 == (1.0 + 2.0 * t) * (1.0 - t) * (1.0 - t) && h10 == t * (1.0 - t) * (1.0 - t)
    requires h01 == t * t * (3.0 - 2.0 * t) && h11 == t * t * (t - 1.0)
    ensures h00 + h01 == 1.0 && h10 + h01 + h11 == t && h01 + 2.0 * h11 == t * t && h01 + 3.0 * h11 == t * t * t
  {
  }

  lemma Collect(q: Cubic, dx: real, p0: real, p1: real, r0: real, r1: real, b0: real, b1: real, b2: real, b3: real)
    requires b0 == p0 + r0 && b1 == p1 + r0 + r1 && b2 == r0 + 2.0 * r1 && b3 == r0 + 3.0 * r1
    ensures q.a * p0 + q.b * dx * p1 + Value(q, dx) * r0 + First(q, dx) * dx * r1
      == q.a * b0 + q.b * dx * b1 + q.c * (dx * dx) * b2 + q.e * (dx * dx * dx) * b3
  {
  }

  lemma Powers(q: Cubic, t: real, dx: real, u: real)
    requires u == t * dx
    ensures Value(q, u) == q.a + q.b * dx * t + q.c * (dx * dx) * (t * t) + q.e * (dx * dx * dx) * (t * t * t)
  {
  }

  // Every cubic is what its values and slopes at the two ends evaluate to.
  lemma HermiteIsCubic(q: Cubic, t: real, dx: real, u: real)
    requires u == t * dx
    ensures Hermite(t, dx, Value(q, 0.0), Value(q, dx), First(q, 0.0), First(q, dx)) == Value(q, u)
  {
    var h00, h10 := (1.0 + 2.0 * t) * (1.0 - t) * (1.0 - t), t * (1.0 - t) * (1.0 - t);
    var h01, h11 := t * t * (3.0 - 2.0 * t), t * t * (t - 1.0);
    assert Value(q, 0.0) == q.a && First(q, 0.0) == q.b;
    hide Value, First;
    Basis(t, h00, h10, h01, h11);
    Collect(q, dx, h00, h10, h01, h11, 1.0, t, t * t, t * t * t);
    Powers(q, t, dx, u);
  }

  lemma Fraction(p: real, d: real)
    requires d > 0.0
    ensures p == p / d * d
  {
  }

  // Between two nodes the evaluation is the cubic that has the given values
  // and the given slopes there; an interval that is empty yields the lower
  // value.
  lemma EvaluatesCubic(x: real, x1: real, x2: real, q: Cubic, y1: real, y2: real, d1: real, d2: real)
    requires Value(q, 0.0) == y1 && Value(q, x2 - x1) == y2 && First(q, 0.0) == d1 && First(q, x2 - x1) == d2
    ensures EvaluateSpline(x, x1, x2, y1, y2, d1, d2) == if x1 < x2 then Value(q, x - x1) else y1
  {
    hide Hermite, Value, First;
    if x1 < x2 {
      Fraction(x - x1, x2 - x1);
      HermiteIsCubic(q, (x - x1) / (x2 - x1), x2 - x1, x - x1);
    }
  }

  // There is such a cubic for any values and slopes.
  lemma CubicExists(h: real, y1: real, y2: real, d1: real, d2: real) returns (q: Cubic)
    requires h > 0.0
    ensures Value(q, 0.0) == y1 && Value(q, h) == y2 && First(q, 0.0) == d1 && First(q, h) == d2
  {
    var rise := (y2 - y1) / h;
    var c := (3.0 * rise - 2.0 * d1 - d2) / h;
    var twist := (d1 + d2 - 2.0 * rise) / h;
    var e := twist / h;
    Quotient(y2 - y1, h);
    Quotient(3.0 * rise - 2.0 * d1 - d2, h);
    Quotient(d1 + d2 - 2.0 * rise, h);
    Quotient(twist, h);
    q := Cubic(y1, d1, c, e);
    CubicEnds(q, h, rise, twist);
  }

  lemma CubicEnds(q: Cubic, h: real, rise: real, twist: real)
    requires h * q.c + h * twist + q.b == rise && h * q.e == twist
    ensures Value(q, h) == q.a + h * rise && First(q, h) == q.b + 2.0 * (h * q.c) + 3.0 * (h * twist)
  {
    assert q.c * (h * h) == h * (h * q.c);
    assert q.e * (h * h * h) == h * (h * (h * q.e)) && 3.0 * q.e * (h * h) == 3.0 * (h * (h * q.e));
  }

  // ----- the natural spline -----

  // A segment through both of its nodes with second derivatives 2 s there.
  predicate Bends(q: Cubic, h: real, y1: real, y2: real, s1: real, s2: real) {
    Value(q, 0.0) == y1 && Value(q, h) == y2 && Second(q, 0.0) == 2.0 * s1 && Second(q, h) == 2.0 * s2
  }

  // Segment i runs from node i to node i + 1.
  predicate Segments(x: seq<real>, y: seq<real>, s: seq<real>, qs: seq<Cubic>)
    requires |x| == |y| == |s| == |qs| + 1
  {
    forall i :: 0 <= i < |qs| ==> Bends(qs[i], x[i + 1] - x[i], y[i], y[i + 1], s[i], s[i + 1])
  }

  // The slope is continuous at interior node i.
  predicate Smooth(x: seq<real>, qs: seq<Cubic>, i: nat)
    requires |x| == |qs| + 1 && 1 <= i < |qs|
  {
    First(qs[i - 1], x[i] - x[i - 1]) == First(qs[i], 0.0)
  }

  // s holds half the second derivatives of the natural cubic spline through
  // the nodes: pieces that join with continuous slope and do not bend at
  // either end.
  ghost predicate Natural(x: seq<real>, y: seq<real>, s: seq<real>)
    requires |x| == |y| == |s| >= 3
  {
    && s[0] == 0.0 && s[|s| - 1] == 0.0
    && exists qs: seq<Cubic> ::
         |qs| == |x| - 1 && Segments(x, y, s, qs) && forall i :: 1 <= i < |qs| ==> Smooth(x, qs, i)
  }

  function Segment(h: real, y1: real, y2: real, s1: real, s2: real): Cubic
    requires h > 0.0
  {
    var e := (s2 - s1) / (3.0 * h);
    Cubic(y1, (y2 - y1) / h - h * s1 - h * h * e, s1, e)
  }

  lemma SegmentBends(h: real, y1: real, y2: real, s1: real, s2: real)
    requires h > 0.0
    ensures Bends(Segment(h, y1, y2, s1, s2), h, y1, y2, s1, s2)
  {
    var e := (s2 - s1) / (3.0 * h);
    Quotient(s2 - s1, 3.0 * h);
    Quotient(y2 - y1, h);
    var q := Segment(h, y1, y2, s1, s2);
    assert q.b * h == (y2 - y1) - h * s1 * h - h * h * e * h;
    assert q.c * (h * h) == h * s1 * h && q.e * (h * h * h) == h * h * e * h;
    assert 6.0 * q.e * h == 2.0 * (3.0 * h * e);
  }

  // The slopes at the two ends of a segment.
  lemma EndSlopes(q: Cubic, h: real, y1: real, y2: real, s1: real, s2: real)
    requires h > 0.0 && Bends(q, h, y1, y2, s1, s2)
    ensures 3.0 * First(q, 0.0) == 3.0 * ((y2 - y1) / h) - h * (2.0 * s1 + s2)
    ensures 3.0 * First(q, h) == 3.0 * ((y2 - y1) / h) + h * (s1 + 2.0 * s2)
  {
    var d := (y2 - y1) / h;
    Quotient(y2 - y1, h);
    assert q.c == s1 && 3.0 * (q.e * h) == s2 - s1;
    var rest := q.b + s1 * h + q.e * (h * h);
    assert h * d == h * rest by {
      assert q.c * (h * h) == h * (s1 * h) && q.e * (h * h * h) == h * (q.e * (h * h));
    }
    ZeroProduct(h, d - rest);
    assert h * (d - rest) == 0.0;
    assert 3.0 * (q.e * (h * h)) == h * (3.0 * (q.e * h));
    assert h * (s2 - s1) == h * s2 - h * s1;
  }

  lemma SmoothWhen(q: Cubic, q': Cubic, g1: real, g2: real, y0: real, y1: real, y2: real, s0: real, s1: real, s2: real)
    requires g1 > 0.0 && g2 > 0.0 && Bends(q, g1, y0, y1, s0, s1) && Bends(q', g2, y1, y2, s1, s2)
    ensures First(q, g1) == First(q', 0.0)
      <==> Balanced(g1, g2, 3.0 * ((y2 - y1) / g2 - (y1 - y0) / g1), s0, s1, s2)
  {
    hide Bends;
    EndSlopes(q, g1, y0, y1, s0, s1);
    EndSlopes(q', g2, y1, y2, s1, s2);
    hide First;
    assert 2.0 * (g1 + g2) * s1 == 2.0 * (g1 * s1) + 2.0 * (g2 * s1);
    assert g1 * (s0 + 2.0 * s1) == g1 * s0 + 2.0 * (g1 * s1);
    assert g2 * (2.0 * s1 + s2) == 2.0 * (g2 * s1) + g2 * s2;
  }

  predicate Increasing(x: seq<real>) {
    forall i :: 0 <= i < |x| - 1 ==> x[i] < x[i + 1]
  }

  // At an interior node, continuity of the slope is the equation of its row.
  lemma SmoothIsRow(x: seq<real>, y: seq<real>, s: seq<real>, qs: seq<Cubic>, i: nat)
    requires |x| == |y| == |s| == |qs| + 1 >= 3 && Increasing(x) && Segments(x, y, s, qs) && 1 <= i < |qs|
    ensures Smooth(x, qs, i) <==> SolvesAt(SystemOf(x, y), s, i)
  {
    hide Bends, Balanced;
    var j := i - 1;
    assert x[j] < x[j + 1] && x[i] < x[i + 1];
    assert Bends(qs[j], x[j + 1] - x[j], y[j], y[j + 1], s[j], s[j + 1]);
    SmoothWhen(qs[j], qs[i], x[i] - x[j], x[i + 1] - x[i], y[j], y[i], y[i + 1], s[j], s[i], s[i + 1]);
  }

  // So the solver's result is half the second derivatives of the natural
  // cubic spline, and nothing else is.
  lemma SolvesIsNatural(x: seq<real>, y: seq<real>, s: seq<real>)
    requires |x| == |y| == |s| >= 3 && Increasing(x)
    ensures Solves(SystemOf(x, y), s) <==> Natural(x, y, s)
  {
    hide Bends, SolvesAt;
    if Solves(SystemOf(x, y), s) {
      var qs := Pieces(x, y, s);
      forall i | 1 <= i < |qs| ensures Smooth(x, qs, i) {
        SmoothIsRow(x, y, s, qs, i);
      }
    }
    if Natural(x, y, s) {
      var qs :| |qs| == |x| - 1 && Segments(x, y, s, qs) && forall i :: 1 <= i < |qs| ==> Smooth(x, qs, i);
      forall i | 1 <= i < |s| - 1 ensures SolvesAt(SystemOf(x, y), s, i) {
        SmoothIsRow(x, y, s, qs, i);
        assert Smooth(x, qs, i);
      }
    }
  }

  lemma Pieces(x: seq<real>, y: seq<real>, s: seq<real>) returns (qs: seq<Cubic>)
    requires |x| == |y| == |s| >= 3 && Increasing(x)
    ensures |qs| == |x| - 1 && Segments(x, y, s, qs)
  {
    qs := seq(|x| - 1, i requires 0 <= i < |x| - 1 && Increasing(x) && |x| == |y| == |s| =>
      Segment(x[i + 1] - x[i], y[i], y[i + 1], s[i], s[i + 1]));
    forall i | 0 <= i < |qs| ensures Bends(qs[i], x[i + 1] - x[i], y[i], y[i + 1], s[i], s[i + 1]) {
      assert x[i] < x[i + 1];
      SegmentBends(x[i + 1] - x[i], y[i], y[i + 1], s[i], s[i + 1]);
    }
  }

  // x' is x with every gap that is not positive made 1e-15 wide.
  predicate Pushed(x: seq<real>, x': seq<real>) {
    && |x'| == |x|
    && forall i :: 0 <= i < |x| - 1 ==>
         x'[i + 1] - x'[i] == if x[i] < x[i + 1] then x[i + 1] - x[i] else 0.000000000000001
  }

  // For nodes in any order it is the natural spline through the nodes pushed
  // apart.
  lemma SolvesIsNaturalPushed(x: seq<real>, x': seq<real>, y: seq<real>, s: seq<real>)
    requires |x| == |y| == |s| >= 3 && Pushed(x, x')
    ensures Solves(SystemOf(x, y), s) <==> Natural(x', y, s)
  {
    hide Solves, Natural;
    forall i | 1 <= i < |x| ensures Gap(x, i) == Gap(x', i) {
      var j := i - 1;
      assert x'[j + 1] - x'[j] > 0.0;
    }
    assert SystemOf(x, y).gap == SystemOf(x', y).gap;
    assert SystemOf(x, y).rhs == SystemOf(x', y).rhs;
    forall i | 0 <= i < |x'| - 1 ensures x'[i] < x'[i + 1] {
    }
    SolvesIsNatural(x', y, s);
  }
}
