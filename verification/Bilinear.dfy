// Bilinear weights from a rectilinear grid with uneven spacing, over real
// numbers.
module Bilinear {
  import opened Arithmetic
  import opened Reals

  datatype Point = Point(x: real, y: real)

  predicate Increasing(s: seq<real>) {
    forall i, j :: 0 <= i < j < |s| ==> s[i] < s[j]
  }

  function Middle(a: real, b: real): real {
    0.5 * (a + b)
  }

  // The centres of the cells between consecutive edges, each as far from the
  // one as from the other.
  function Centres(edges: seq<real>): (c: seq<real>)
    requires |edges| >= 1
    ensures |c| == |edges| - 1 && forall i :: 0 <= i < |c| ==> c[i] == Middle(edges[i], edges[i + 1])
    ensures forall i :: 0 <= i < |c| ==> c[i] - edges[i] == edges[i + 1] - c[i]
  {
    seq(|edges| - 1, i requires 0 <= i < |edges| - 1 => Middle(edges[i], edges[i + 1]))
  }

  lemma CentresIncrease(edges: seq<real>)
    requires |edges| >= 1 && Increasing(edges)
    ensures Increasing(Centres(edges))
  {
  }

  // The interval [i, i + 1] of centres around v, an end one outside the hull.
  predicate Encloses(c: seq<real>, v: real, i: int) {
    && 0 <= i && i + 1 < |c|
    && (i == 0 || c[i] <= v)
    && (i + 2 == |c| || v < c[i + 1])
  }

  // The position within the interval, clamped to it.
  function Fraction(c: seq<real>, v: real, i: nat): real
    requires i + 1 < |c| && c[i] < c[i + 1]
  {
    Max(0.0, Min(1.0, (v - c[i]) / (c[i + 1] - c[i])))
  }

  function ClampTo(c: seq<real>, v: real): real
    requires |c| >= 1
  {
    if v < c[0] then c[0] else if v > c[|c| - 1] then c[|c| - 1] else v
  }

  // It is the value in the hull of the centres that is nearest.
  lemma ClampIsNearest(c: seq<real>, v: real, w: real)
    requires Increasing(c) && |c| >= 1 && c[0] <= w <= c[|c| - 1]
    ensures c[0] <= ClampTo(c, v) <= c[|c| - 1]
    ensures Abs(ClampTo(c, v) - v) <= Abs(w - v) && (w != ClampTo(c, v) ==> Abs(ClampTo(c, v) - v) < Abs(w - v))
  {
  }

  function Along(a: real, b: real, t: real): real {
    a + t * (b - a)
  }

  lemma Ratio(a: real, b: real)
    requires b > 0.0
    ensures a / b * b == a && (a < 0.0 <==> a / b < 0.0) && (a > b <==> a / b > 1.0)
  {
    var q := a / b;
    assert q * b == a;
    if q > 1.0 {
      assert (q - 1.0) * b > 0.0;
    } else {
      assert (1.0 - q) * b >= 0.0;
    }
  }

  // The clamped position stands for the clamped value.
  lemma FractionMeaning(c: seq<real>, v: real, i: nat)
    requires Increasing(c) && Encloses(c, v, i)
    ensures 0.0 <= Fraction(c, v, i) <= 1.0
    ensures Along(c[i], c[i + 1], Fraction(c, v, i)) == ClampTo(c, v)
  {
    var w := c[i + 1] - c[i];
    Ratio(v - c[i], w);
    assert i > 0 ==> c[0] < c[i];
    assert i + 2 < |c| ==> c[i + 1] < c[|c| - 1];
  }

  // ----- one destination row -----

  // Four columns and their weights: the corners (i, j), (i + 1, j),
  // (i, j + 1), (i + 1, j + 1).
  datatype Stencil = Stencil(i: nat, j: nat, tx: real, ty: real)

  function Weight(s: Stencil, k: nat): real {
    match k
    case 0 => (1.0 - s.tx) * (1.0 - s.ty)
    case 1 => s.tx * (1.0 - s.ty)
    case 2 => (1.0 - s.tx) * s.ty
    case _ => s.tx * s.ty
  }

  function Column(s: Stencil, k: nat, ni: nat): nat {
    match k
    case 0 => s.j * ni + s.i
    case 1 => s.j * ni + (s.i + 1)
    case 2 => (s.j + 1) * ni + s.i
    case _ => (s.j + 1) * ni + (s.i + 1)
  }

  ghost predicate StencilOf(cx: seq<real>, cy: seq<real>, p: Point, s: Stencil) {
    && |cx| >= 2 && |cy| >= 2 && Increasing(cx) && Increasing(cy)
    && Encloses(cx, p.x, s.i) && Encloses(cy, p.y, s.j)
    && s.tx == Fraction(cx, p.x, s.i) && s.ty == Fraction(cy, p.y, s.j)
  }

  // At most one interval answers to a value.
  lemma EnclosesOnce(c: seq<real>, v: real, i: int, j: int)
    requires Increasing(c) && Encloses(c, v, i) && Encloses(c, v, j)
    ensures i == j
  {
  }

  lemma ColumnInRange(i: nat, j: nat, ni: nat, nj: nat)
    requires i < ni && j < nj
    ensures j * ni + i < nj * ni && (j * ni + i) % ni == i && (j * ni + i) / ni == j
  {
    ModUnique(j * ni + i, j, i, ni);
    Monotone(j + 1, nj, ni);
  }

  lemma WeightsArePartition(cx: seq<real>, cy: seq<real>, p: Point, s: Stencil)
    requires StencilOf(cx, cy, p, s)
    ensures forall k :: 0 <= k < 4 ==> Weight(s, k) >= 0.0 && Column(s, k, |cx|) < |cy| * |cx|
    ensures Weight(s, 0) + Weight(s, 1) + Weight(s, 2) + Weight(s, 3) == 1.0
  {
    hide Increasing, Fraction, Weight, Column;
    FractionMeaning(cx, p.x, s.i);
    FractionMeaning(cy, p.y, s.j);
    WeightsPartition(s);
    ColumnsInRange(s, |cx|, |cy|);
  }

  lemma ColumnsInRange(s: Stencil, ni: nat, nj: nat)
    requires s.i + 1 < ni && s.j + 1 < nj
    ensures forall k :: 0 <= k < 4 ==> Column(s, k, ni) < nj * ni
  {
    ColumnInRange(s.i, s.j, ni, nj);
    ColumnInRange(s.i + 1, s.j, ni, nj);
    ColumnInRange(s.i, s.j + 1, ni, nj);
    ColumnInRange(s.i + 1, s.j + 1, ni, nj);
  }

  lemma Product(a: real, b: real)
    requires a >= 0.0 && b >= 0.0
    ensures a * b >= 0.0
  {
  }

  lemma Partition(tx: real, ty: real)
    requires 0.0 <= tx <= 1.0 && 0.0 <= ty <= 1.0
    ensures (1.0 - tx) * (1.0 - ty) >= 0.0 && tx * (1.0 - ty) >= 0.0 && (1.0 - tx) * ty >= 0.0 && tx * ty >= 0.0
    ensures (1.0 - tx) * (1.0 - ty) + tx * (1.0 - ty) + (1.0 - tx) * ty + tx * ty == 1.0
  {
    Product(1.0 - tx, 1.0 - ty);
    Product(tx, 1.0 - ty);
    Product(1.0 - tx, ty);
    Product(tx, ty);
  }

  lemma WeightsPartition(s: Stencil)
    requires 0.0 <= s.tx <= 1.0 && 0.0 <= s.ty <= 1.0
    ensures forall k: nat :: k < 4 ==> Weight(s, k) >= 0.0
    ensures Weight(s, 0) + Weight(s, 1) + Weight(s, 2) + Weight(s, 3) == 1.0
  {
    Partition(s.tx, s.ty);
  }

  // ----- exactness -----

  datatype Field = Field(a: real, b: real, c: real, d: real)

  function At(f: Field, x: real, y: real): real {
    f.a + f.b * x + f.c * y + f.d * x * y
  }

  // The field sampled at every cell centre, row by row.
  predicate Samples(f: Field, cx: seq<real>, cy: seq<real>, src: seq<real>) {
    && |src| == |cy| * |cx|
    && forall i, j :: 0 <= i < |cx| && 0 <= j < |cy| ==> SampleAt(f, cx, cy, src, i, j)
  }

  predicate SampleAt(f: Field, cx: seq<real>, cy: seq<real>, src: seq<real>, i: nat, j: nat)
    requires i < |cx| && j < |cy| && |src| == |cy| * |cx|
  {
    ColumnInRange(i, j, |cx|, |cy|);
    src[j * |cx| + i] == At(f, cx[i], cy[j])
  }

  function Combine(tx: real, ty: real, q0: real, q1: real, q2: real, q3: real): real {
    (1.0 - tx) * (1.0 - ty) * q0 + tx * (1.0 - ty) * q1 + (1.0 - tx) * ty * q2 + tx * ty * q3
  }

  lemma AlongX(f: Field, x0: real, x1: real, y: real, t: real)
    ensures At(f, Along(x0, x1, t), y) == Along(At(f, x0, y), At(f, x1, y), t)
  {
    assert f.d * Along(x0, x1, t) * y == f.d * x0 * y + t * (f.d * x1 * y - f.d * x0 * y);
  }

  lemma AlongY(f: Field, x: real, y0: real, y1: real, t: real)
    ensures At(f, x, Along(y0, y1, t)) == Along(At(f, x, y0), At(f, x, y1), t)
  {
    assert f.d * x * Along(y0, y1, t) == f.d * x * y0 + t * (f.d * x * y1 - f.d * x * y0);
  }

  lemma CombineTwice(tx: real, ty: real, q0: real, q1: real, q2: real, q3: real)
    ensures Combine(tx, ty, q0, q1, q2, q3) == Along(Along(q0, q1, tx), Along(q2, q3, tx), ty)
  {
  }

  lemma BilinearExact(f: Field, x0: real, x1: real, y0: real, y1: real, tx: real, ty: real)
    ensures Combine(tx, ty, At(f, x0, y0), At(f, x1, y0), At(f, x0, y1), At(f, x1, y1))
      == At(f, Along(x0, x1, tx), Along(y0, y1, ty))
  {
    CombineTwice(tx, ty, At(f, x0, y0), At(f, x1, y0), At(f, x0, y1), At(f, x1, y1));
    AlongX(f, x0, x1, y0, tx);
    AlongX(f, x0, x1, y1, tx);
    AlongY(f, Along(x0, x1, tx), y0, y1, ty);
  }

  // What a row of the matrix makes of the source field.
  function Weighted(s: Stencil, k: nat, ni: nat, src: seq<real>): real
    requires Column(s, k, ni) < |src|
  {
    Weight(s, k) * src[Column(s, k, ni)]
  }

  function RowValue(s: Stencil, ni: nat, src: seq<real>): real
    requires forall k :: 0 <= k < 4 ==> Column(s, k, ni) < |src|
  {
    Weighted(s, 0, ni, src) + Weighted(s, 1, ni, src) + Weighted(s, 2, ni, src) + Weighted(s, 3, ni, src)
  }

  lemma RowIsCombination(s: Stencil, ni: nat, src: seq<real>, q0: real, q1: real, q2: real, q3: real)
    requires forall k :: 0 <= k < 4 ==> Column(s, k, ni) < |src|
    requires src[Column(s, 0, ni)] == q0 && src[Column(s, 1, ni)] == q1 && src[Column(s, 2, ni)] == q2
        && src[Column(s, 3, ni)] == q3
    ensures RowValue(s, ni, src) == Combine(s.tx, s.ty, q0, q1, q2, q3)
  {
  }

  lemma CornerValues(f: Field, cx: seq<real>, cy: seq<real>, src: seq<real>, s: Stencil)
    requires Samples(f, cx, cy, src) && s.i + 1 < |cx| && s.j + 1 < |cy|
    ensures forall k :: 0 <= k < 4 ==> Column(s, k, |cx|) < |src|
    ensures src[Column(s, 0, |cx|)] == At(f, cx[s.i], cy[s.j]) && src[Column(s, 1, |cx|)] == At(f, cx[s.i + 1], cy[s.j])
    ensures src[Column(s, 2, |cx|)] == At(f, cx[s.i], cy[s.j + 1])
        && src[Column(s, 3, |cx|)] == At(f, cx[s.i + 1], cy[s.j + 1])
  {
    ColumnsInRange(s, |cx|, |cy|);
    assert SampleAt(f, cx, cy, src, s.i, s.j) && SampleAt(f, cx, cy, src, s.i + 1, s.j);
    assert SampleAt(f, cx, cy, src, s.i, s.j + 1) && SampleAt(f, cx, cy, src, s.i + 1, s.j + 1);
  }

  // Every field a + bx + cy + dxy is reproduced at the point, clamped to the
  // hull of the centres.
  lemma RowExact(f: Field, cx: seq<real>, cy: seq<real>, src: seq<real>, p: Point, s: Stencil)
    requires StencilOf(cx, cy, p, s) && Samples(f, cx, cy, src)
    ensures forall k :: 0 <= k < 4 ==> Column(s, k, |cx|) < |src|
    ensures RowValue(s, |cx|, src) == At(f, ClampTo(cx, p.x), ClampTo(cy, p.y))
  {
    var x0, x1, y0, y1 := cx[s.i], cx[s.i + 1], cy[s.j], cy[s.j + 1];
    CornerValues(f, cx, cy, src, s);
    RowIsCombination(s, |cx|, src, At(f, x0, y0), At(f, x1, y0), At(f, x0, y1), At(f, x1, y1));
    BilinearExact(f, x0, x1, y0, y1, s.tx, s.ty);
    FractionMeaning(cx, p.x, s.i);
    FractionMeaning(cy, p.y, s.j);
  }

  // ----- the matrix -----

  // Entries in the order they are pushed.
  datatype Matrix = Matrix(weights: seq<real>, rows: seq<nat>, cols: seq<nat>)

  // Four entries a row, from one stencil a destination point.
  ghost predicate Built(m: Matrix, ni: nat, stencils: seq<Stencil>) {
    && |m.weights| == |m.rows| == |m.cols| == 4 * |stencils|
    && forall c, k :: 0 <= c < |stencils| && 0 <= k < 4 ==> EntryIs(m, ni, stencils[c], c, k)
  }

  ghost predicate EntryIs(m: Matrix, ni: nat, s: Stencil, c: nat, k: nat)
    requires k < 4 && |m.weights| == |m.rows| == |m.cols| && 4 * c + k < |m.weights|
  {
    m.weights[4 * c + k] == Weight(s, k) && m.rows[4 * c + k] == c && m.cols[4 * c + k] == Column(s, k, ni)
  }

  predicate InBounds(m: Matrix, src: seq<real>) {
    |m.weights| == |m.rows| == |m.cols| && forall e :: 0 <= e < |m.cols| ==> m.cols[e] < |src|
  }

  function Term(m: Matrix, src: seq<real>, c: nat, e: nat): real
    requires InBounds(m, src) && e < |m.weights|
  {
    if m.rows[e] == c then m.weights[e] * src[m.cols[e]] else 0.0
  }

  // Row c of the product with a source field, over the first n entries.
  function Applied(m: Matrix, src: seq<real>, c: nat, n: nat): real
    requires InBounds(m, src) && n <= |m.weights|
  {
    if n == 0 then 0.0 else Applied(m, src, c, n - 1) + Term(m, src, c, n - 1)
  }

  lemma FourTerms(m: Matrix, src: seq<real>, c: nat, n: nat)
    requires InBounds(m, src) && n + 4 <= |m.weights|
    ensures Applied(m, src, c, n + 4)
      == Applied(m, src, c, n) + Term(m, src, c, n) + Term(m, src, c, n + 1) + Term(m, src, c, n + 2)
          + Term(m, src, c, n + 3)
  {
    assert Applied(m, src, c, n + 2) == Applied(m, src, c, n) + Term(m, src, c, n) + Term(m, src, c, n + 1);
  }

  lemma TermOfEntry(m: Matrix, ni: nat, s: Stencil, src: seq<real>, c: nat, r: nat, k: nat)
    requires InBounds(m, src) && 4 * r + 4 <= |m.weights| && k < 4 && EntryIs(m, ni, s, r, k)
    ensures Column(s, k, ni) < |src|
    ensures Term(m, src, c, 4 * r + k) == if r == c then Weighted(s, k, ni, src) else 0.0
  {
    assert m.cols[4 * r + k] == Column(s, k, ni);
  }

  lemma TermsOfRow(m: Matrix, ni: nat, s: Stencil, src: seq<real>, c: nat, r: nat)
    requires InBounds(m, src) && 4 * r + 4 <= |m.weights|
    requires forall k :: 0 <= k < 4 ==> EntryIs(m, ni, s, r, k)
    ensures forall k :: 0 <= k < 4 ==> Column(s, k, ni) < |src|
    ensures Term(m, src, c, 4 * r) + Term(m, src, c, 4 * r + 1) + Term(m, src, c, 4 * r + 2)
        + Term(m, src, c, 4 * r + 3)
      == if r == c then RowValue(s, ni, src) else 0.0
  {
    TermOfEntry(m, ni, s, src, c, r, 0);
    TermOfEntry(m, ni, s, src, c, r, 1);
    TermOfEntry(m, ni, s, src, c, r, 2);
    TermOfEntry(m, ni, s, src, c, r, 3);
  }

  // Each row of the product sees its own four entries and no others.
  lemma {:induction false} AppliedRows(m: Matrix, ni: nat, stencils: seq<Stencil>, src: seq<real>, c: nat, r: nat)
    requires Built(m, ni, stencils) && c < |stencils| && r <= |stencils| && InBounds(m, src)
    requires forall k :: 0 <= k < 4 ==> Column(stencils[c], k, ni) < |src|
    ensures Applied(m, src, c, 4 * r) == if c < r then RowValue(stencils[c], ni, src) else 0.0
    decreases r
  {
    if r > 0 {
      AppliedRows(m, ni, stencils, src, c, r - 1);
      FourTerms(m, src, c, 4 * (r - 1));
      TermsOfRow(m, ni, stencils[r - 1], src, c, r - 1);
    }
  }

  // The whole matrix, applied to samples of a field: row c gives the field at
  // destination c's centroid, clamped to the hull of the centres.
  lemma MatrixExact(m: Matrix, f: Field, cx: seq<real>, cy: seq<real>, src: seq<real>, points: seq<Point>,
      stencils: seq<Stencil>, c: nat)
    requires |points| == |stencils| && Built(m, |cx|, stencils) && Samples(f, cx, cy, src)
    requires forall r :: 0 <= r < |stencils| ==> StencilOf(cx, cy, points[r], stencils[r])
    requires |cx| >= 2 && |cy| >= 2 && c < |points|
    ensures InBounds(m, src)
    ensures Applied(m, src, c, |m.weights|) == At(f, ClampTo(cx, points[c].x), ClampTo(cy, points[c].y))
  {
    forall e | 0 <= e < |m.cols| ensures m.cols[e] < |src| {
      var r, k := e / 4, e % 4;
      assert EntryIs(m, |cx|, stencils[r], r, k);
      CornerValues(f, cx, cy, src, stencils[r]);
    }
    RowExact(f, cx, cy, src, points[c], stencils[c]);
    AppliedRows(m, |cx|, stencils, src, c, |stencils|);
  }

  // ----- the generator -----

  datatype Mesh = Mesh(offsets: seq<nat>, indices: seq<nat>, coords: seq<Point>)

  predicate ValidMesh(m: Mesh) {
    && |m.offsets| >= 1
    && (forall c, c' :: 0 <= c < c' < |m.offsets| ==> m.offsets[c] < m.offsets[c'])
    && (forall c :: 0 <= c < |m.offsets| ==> m.offsets[c] <= |m.indices|)
    && (forall v :: 0 <= v < |m.indices| ==> m.indices[v] < |m.coords|)
  }

  function Total(m: Mesh, start: nat, v: nat): Point
    requires ValidMesh(m) && start <= v <= |m.indices|
  {
    if v == start then Point(0.0, 0.0)
    else
      var p, q := Total(m, start, v - 1), m.coords[m.indices[v - 1]];
      Point(p.x + q.x, p.y + q.y)
  }

  // The mean of a cell's vertices.
  function Centroid(m: Mesh, c: nat): Point
    requires ValidMesh(m) && c + 1 < |m.offsets|
  {
    var n := (m.offsets[c + 1] - m.offsets[c]) as real;
    var t := Total(m, m.offsets[c], m.offsets[c + 1]);
    Point(t.x / n, t.y / n)
  }

  // How far the vertices of a cell lie from a point, added up.
  function Deviation(m: Mesh, start: nat, v: nat, p: Point): Point
    requires ValidMesh(m) && start <= v <= |m.indices|
  {
    if v == start then Point(0.0, 0.0)
    else
      var d, q := Deviation(m, start, v - 1, p), m.coords[m.indices[v - 1]];
      Point(d.x + (q.x - p.x), d.y + (q.y - p.y))
  }

  function Times(n: real, x: real): real {
    n * x
  }

  lemma OneTimeMore(n: real, x: real)
    ensures Times(n, x) == Times(n - 1.0, x) + x && Times(0.0, x) == 0.0
  {
  }

  lemma {:induction false} DeviationIs(m: Mesh, start: nat, v: nat, p: Point, n: real)
    requires ValidMesh(m) && start <= v <= |m.indices| && n == (v - start) as real
    ensures Deviation(m, start, v, p).x == Total(m, start, v).x - Times(n, p.x)
    ensures Deviation(m, start, v, p).y == Total(m, start, v).y - Times(n, p.y)
    decreases v
  {
    hide Times;
    OneTimeMore(n, p.x);
    OneTimeMore(n, p.y);
    if v > start {
      DeviationIs(m, start, v - 1, p, n - 1.0);
    }
  }

  lemma MeanIs(n: real, t: real, x: real)
    requires n > 0.0
    ensures t - n * x == 0.0 <==> x == t / n
  {
    assert t / n * n == t;
    if x != t / n {
      assert (t / n - x) * n == t - n * x;
    }
  }

  // The centroid is the one point the vertices lie evenly around.
  lemma CentroidBalances(m: Mesh, c: nat, p: Point)
    requires ValidMesh(m) && c + 1 < |m.offsets|
    ensures Deviation(m, m.offsets[c], m.offsets[c + 1], p) == Point(0.0, 0.0) <==> p == Centroid(m, c)
  {
    var n := (m.offsets[c + 1] - m.offsets[c]) as real;
    var t := Total(m, m.offsets[c], m.offsets[c + 1]);
    DeviationIs(m, m.offsets[c], m.offsets[c + 1], p, n);
    MeanIs(n, t.x, p.x);
    MeanIs(n, t.y, p.y);
  }

  method CellCentroid(m: Mesh, c: nat) returns (p: Point)
    requires ValidMesh(m) && c + 1 < |m.offsets|
    ensures p == Centroid(m, c)
  {
    var start, end := m.offsets[c], m.offsets[c + 1];
    var x, y := 0.0, 0.0;
    for v := start to end
      invariant Point(x, y) == Total(m, start, v)
    {
      var q := m.coords[m.indices[v]];
      x, y := x + q.x, y + q.y;
    }
    var n := (end - start) as real;
    return Point(x / n, y / n);
  }

  method CellCentres(edges: seq<real>) returns (c: seq<real>)
    requires |edges| >= 1
    ensures c == Centres(edges)
  {
    c := [];
    for i := 0 to |edges| - 1
      invariant c == Centres(edges)[..i]
    {
      c := c + [0.5 * (edges[i] + edges[i + 1])];
    }
  }

  // The number of leading elements that do not exceed v.
  method UpperBound(c: seq<real>, v: real) returns (r: nat)
    requires Increasing(c)
    ensures r <= |c|
    ensures forall i :: 0 <= i < r ==> c[i] <= v
    ensures forall i :: r <= i < |c| ==> c[i] > v
  {
    var low, high := 0, |c|;
    while low < high
      invariant 0 <= low <= high <= |c|
      invariant forall i :: 0 <= i < low ==> c[i] <= v
      invariant forall i :: high <= i < |c| ==> c[i] > v
    {
      var mid := (low + high) / 2;
      if c[mid] <= v { low := mid + 1; } else { high := mid; }
    }
    return low;
  }

  method Locate(c: seq<real>, v: real) returns (i: nat)
    requires Increasing(c) && |c| >= 2
    ensures Encloses(c, v, i)
  {
    var bound := UpperBound(c, v);
    var k := bound as int - 1;
    if k < 0 { k := 0; }
    if k >= |c| - 1 { k := |c| - 2; }
    if k < 0 { k := 0; }
    return k;
  }

  method StencilFor(cx: seq<real>, cy: seq<real>, p: Point) returns (s: Stencil)
    requires |cx| >= 2 && |cy| >= 2 && Increasing(cx) && Increasing(cy)
    ensures StencilOf(cx, cy, p, s)
  {
    var i := Locate(cx, p.x);
    var j := Locate(cy, p.y);
    var tx := (p.x - cx[i]) / (cx[i + 1] - cx[i]);
    var ty := (p.y - cy[j]) / (cy[j + 1] - cy[j]);
    tx := Max(0.0, Min(1.0, tx));
    ty := Max(0.0, Min(1.0, ty));
    return Stencil(i, j, tx, ty);
  }

  function Push(m: Matrix, weight: real, row: nat, col: nat): Matrix {
    Matrix(m.weights + [weight], m.rows + [row], m.cols + [col])
  }

  // Push the four entries of one row.
  method PushRow(m: Matrix, ghost stencils: seq<Stencil>, ni: nat, c: nat, s: Stencil) returns (r: Matrix)
    requires Built(m, ni, stencils) && c == |stencils|
    ensures Built(r, ni, stencils + [s])
  {
    r := m;
    for k := 0 to 4
      invariant |r.weights| == |r.rows| == |r.cols| == 4 * c + k
      invariant r.weights[..4 * c] == m.weights && r.rows[..4 * c] == m.rows && r.cols[..4 * c] == m.cols
      invariant forall e :: 0 <= e < k ==> EntryIs(r, ni, s, c, e)
    {
      var next := Push(r, Weight(s, k), c, Column(s, k, ni));
      forall e | 0 <= e < k ensures EntryIs(next, ni, s, c, e) {
        assert EntryIs(r, ni, s, c, e);
      }
      r := next;
    }
    forall b, k | 0 <= b < c && 0 <= k < 4 ensures EntryIs(r, ni, stencils[b], b, k) {
      assert EntryIs(m, ni, stencils[b], b, k);
      assert r.weights[..4 * c][4 * b + k] == r.weights[4 * b + k];
      assert r.rows[..4 * c][4 * b + k] == r.rows[4 * b + k];
      assert r.cols[..4 * c][4 * b + k] == r.cols[4 * b + k];
    }
  }

  ghost predicate StencilsOf(cx: seq<real>, cy: seq<real>, dst: Mesh, stencils: seq<Stencil>)
    requires ValidMesh(dst) && |stencils| < |dst.offsets|
  {
    forall c :: 0 <= c < |stencils| ==> StencilOf(cx, cy, Centroid(dst, c), stencils[c])
  }

  lemma OneMore(cx: seq<real>, cy: seq<real>, dst: Mesh, stencils: seq<Stencil>, s: Stencil)
    requires ValidMesh(dst) && |stencils| + 1 < |dst.offsets| && StencilsOf(cx, cy, dst, stencils)
    requires StencilOf(cx, cy, Centroid(dst, |stencils|), s)
    ensures StencilsOf(cx, cy, dst, stencils + [s])
  {
  }

  // The matrix of one grid and one destination mesh: row by row, the four
  // entries of the stencil of each destination's centroid.
  ghost predicate Generated(m: Matrix, cx: seq<real>, cy: seq<real>, dst: Mesh) {
    && ValidMesh(dst)
    && exists stencils: seq<Stencil> ::
         |stencils| == |dst.offsets| - 1 && StencilsOf(cx, cy, dst, stencils) && Built(m, |cx|, stencils)
  }

  function Centroids(dst: Mesh): seq<Point>
    requires ValidMesh(dst)
  {
    seq(|dst.offsets| - 1, c requires 0 <= c < |dst.offsets| - 1 => Centroid(dst, c))
  }

  // What the generator is for: applied to samples of any a + bx + cy + dxy at
  // the cell centres, row c returns that function at destination c's
  // centroid, clamped to the hull of the centres.
  lemma GeneratedExact(m: Matrix, f: Field, cx: seq<real>, cy: seq<real>, src: seq<real>, dst: Mesh, c: nat)
    requires |cx| >= 2 && |cy| >= 2 && Generated(m, cx, cy, dst) && Samples(f, cx, cy, src) && c + 1 < |dst.offsets|
    ensures InBounds(m, src)
    ensures Applied(m, src, c, |m.weights|) == At(f, ClampTo(cx, Centroid(dst, c).x), ClampTo(cy, Centroid(dst, c).y))
  {
    var stencils: seq<Stencil> :|
      |stencils| == |dst.offsets| - 1 && StencilsOf(cx, cy, dst, stencils) && Built(m, |cx|, stencils);
    MatrixExact(m, f, cx, cy, src, Centroids(dst), stencils, c);
  }

  method Generate(lons: seq<real>, lats: seq<real>, dst: Mesh) returns (m: Matrix)
    requires |lons| >= 3 && |lats| >= 3 && Increasing(lons) && Increasing(lats) && ValidMesh(dst)
    ensures Generated(m, Centres(lons), Centres(lats), dst)
  {
    CentresIncrease(lons);
    CentresIncrease(lats);
    var cx := CellCentres(lons);
    var cy := CellCentres(lats);
    m := Matrix([], [], []);
    ghost var stencils: seq<Stencil> := [];
    for c := 0 to |dst.offsets| - 1
      invariant |stencils| == c && Built(m, |cx|, stencils)
      invariant StencilsOf(cx, cy, dst, stencils)
    {
      var p := CellCentroid(dst, c);
      var s := StencilFor(cx, cy, p);
      OneMore(cx, cy, dst, stencils, s);
      m := PushRow(m, stencils, |cx|, c, s);
      stencils := stencils + [s];
    }
  }
}
