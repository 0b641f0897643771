// Least-squares gradients over real numbers: normal equations, Cramer's rule
// and the limiter.
module Gradients {
  import opened Reals

  const EPS: real := 0.000000000000000000000000000001

  datatype Vec = Vec(x: real, y: real, z: real)

  const ZERO := Vec(0.0, 0.0, 0.0)

  // The upper triangle of a symmetric matrix.
  datatype Sym = Sym(xx: real, xy: real, xz: real, yy: real, yz: real, zz: real)

  function Dot(a: Vec, b: Vec): real {
    a.x * b.x + a.y * b.y + a.z * b.z
  }

  function Minus(a: Vec, b: Vec): Vec {
    Vec(a.x - b.x, a.y - b.y, a.z - b.z)
  }

  function Scale(a: Vec, f: real): Vec {
    Vec(a.x * f, a.y * f, a.z * f)
  }

  // ----- the 3 x 3 solve -----

  function Det(n: Sym): real {
    n.xx * (n.yy * n.zz - n.yz * n.yz) - n.xy * (n.xy * n.zz - n.yz * n.xz) + n.xz * (n.xy * n.yz - n.yy * n.xz)
  }

  // The determinants with one column replaced by the right-hand side.
  function DetX(n: Sym, r: Vec): real {
    r.x * (n.yy * n.zz - n.yz * n.yz) - n.xy * (r.y * n.zz - n.yz * r.z) + n.xz * (r.y * n.yz - n.yy * r.z)
  }

  function DetY(n: Sym, r: Vec): real {
    n.xx * (r.y * n.zz - n.yz * r.z) - r.x * (n.xy * n.zz - n.yz * n.xz) + n.xz * (n.xy * r.z - r.y * n.xz)
  }

  function DetZ(n: Sym, r: Vec): real {
    n.xx * (n.yy * r.z - r.y * n.yz) - n.xy * (n.xy * r.z - r.y * n.xz) + r.x * (n.xy * n.yz - n.yy * n.xz)
  }

  predicate Singular(n: Sym) {
    Abs(Det(n)) < EPS
  }

  function Quotients(d: real, x: real, y: real, z: real): Vec
    requires d != 0.0
  {
    var inv := 1.0 / d;
    Vec(inv * x, inv * y, inv * z)
  }

  function Cramer(n: Sym, r: Vec): Vec {
    if Singular(n) then ZERO else Quotients(Det(n), DetX(n, r), DetY(n, r), DetZ(n, r))
  }

  function Row(a: real, b: real, c: real, x: real, y: real, z: real): real {
    a * x + b * y + c * z
  }

  predicate Solved(a: real, b: real, c: real, g: Vec, rhs: real) {
    Row(a, b, c, g.x, g.y, g.z) == rhs
  }

  predicate Satisfies(n: Sym, g: Vec, r: Vec) {
    && Solved(n.xx, n.xy, n.xz, g, r.x)
    && Solved(n.xy, n.yy, n.yz, g, r.y)
    && Solved(n.xz, n.yz, n.zz, g, r.z)
  }

  predicate Expands(a: real, b: real, c: real, dx: real, dy: real, dz: real, det: real, rhs: real) {
    Row(a, b, c, dx, dy, dz) == det * rhs
  }

  function Cofactors(n: Sym): Sym {
    Sym(n.yy * n.zz - n.yz * n.yz, n.yz * n.xz - n.xy * n.zz, n.xy * n.yz - n.yy * n.xz,
        n.zz * n.xx - n.xz * n.xz, n.xz * n.xy - n.yz * n.xx, n.xx * n.yy - n.xy * n.xy)
  }

  // A cross product is orthogonal to its factors.
  lemma Orthogonal(p1: real, p2: real, p3: real, q1: real, q2: real, q3: real, u: real, v: real, w: real)
    requires u == p2 * q3 - p3 * q2 && v == p3 * q1 - p1 * q3 && w == p1 * q2 - p2 * q1
    ensures Row(p1, p2, p3, u, v, w) == 0.0
  {
    assert p1 * u == p1 * p2 * q3 - p1 * p3 * q2;
    assert p2 * v == p2 * p3 * q1 - p1 * p2 * q3;
    assert p3 * w == p1 * p3 * q2 - p2 * p3 * q1;
  }

  lemma CrossOrthogonal(p1: real, p2: real, p3: real, q1: real, q2: real, q3: real, u: real, v: real, w: real)
    requires u == p2 * q3 - p3 * q2 && v == p3 * q1 - p1 * q3 && w == p1 * q2 - p2 * q1
    ensures Row(p1, p2, p3, u, v, w) == 0.0 && Row(q1, q2, q3, u, v, w) == 0.0
  {
    hide Row;
    Orthogonal(p1, p2, p3, q1, q2, q3, u, v, w);
    Orthogonal(q1, q2, q3, p1, p2, p3, -u, -v, -w);
    Negated(q1, q2, q3, u, v, w);
  }

  lemma Negated(a: real, b: real, c: real, x: real, y: real, z: real)
    ensures Row(a, b, c, -x, -y, -z) == -Row(a, b, c, x, y, z)
  {
  }

  // The determinant by its first, second and third row.
  lemma Determinant(n: Sym)
    ensures Row(n.xx, n.xy, n.xz, Cofactors(n).xx, Cofactors(n).xy, Cofactors(n).xz) == Det(n)
  {
  }

  lemma DeterminantByY(n: Sym)
    ensures Row(n.xy, n.yy, n.yz, Cofactors(n).xy, Cofactors(n).yy, Cofactors(n).yz) == Det(n)
  {
  }

  lemma DeterminantByZ(n: Sym)
    ensures Row(n.xz, n.yz, n.zz, Cofactors(n).xz, Cofactors(n).yz, Cofactors(n).zz) == Det(n)
  {
  }

  lemma Commute(a: real, b: real)
    ensures a * b == b * a
  {
  }

  // The cofactors as cross products of two rows.
  lemma FirstCross(n: Sym)
    ensures var c := Cofactors(n);
      && c.xx == n.yy * n.zz - n.yz * n.yz && c.xy == n.yz * n.xz - n.xy * n.zz && c.xz == n.xy * n.yz - n.yy * n.xz
  {
  }

  lemma SecondCross(n: Sym)
    ensures var c := Cofactors(n);
      && c.xy == n.yz * n.xz - n.zz * n.xy && c.yy == n.zz * n.xx - n.xz * n.xz && c.yz == n.xz * n.xy - n.yz * n.xx
  {
    Commute(n.xy, n.zz);
  }

  lemma ThirdCross(n: Sym)
    ensures var c := Cofactors(n);
      && c.xz == n.xy * n.yz - n.xz * n.yy && c.yz == n.xz * n.xy - n.xx * n.yz && c.zz == n.xx * n.yy - n.xy * n.xy
  {
    Commute(n.yy, n.xz);
    Commute(n.yz, n.xx);
  }

  // The rows of the matrix times a row of its cofactors.
  lemma FirstCofactors(n: Sym)
    ensures var c := Cofactors(n);
      && Row(n.xx, n.xy, n.xz, c.xx, c.xy, c.xz) == Det(n)
      && Row(n.xy, n.yy, n.yz, c.xx, c.xy, c.xz) == 0.0
      && Row(n.xz, n.yz, n.zz, c.xx, c.xy, c.xz) == 0.0
  {
    hide Row, Det, Cofactors;
    var c := Cofactors(n);
    Determinant(n);
    FirstCross(n);
    CrossOrthogonal(n.xy, n.yy, n.yz, n.xz, n.yz, n.zz, c.xx, c.xy, c.xz);
  }

  lemma SecondCofactors(n: Sym)
    ensures var c := Cofactors(n);
      && Row(n.xx, n.xy, n.xz, c.xy, c.yy, c.yz) == 0.0
      && Row(n.xy, n.yy, n.yz, c.xy, c.yy, c.yz) == Det(n)
      && Row(n.xz, n.yz, n.zz, c.xy, c.yy, c.yz) == 0.0
  {
    hide Row, Det, Cofactors;
    var c := Cofactors(n);
    DeterminantByY(n);
    SecondCross(n);
    CrossOrthogonal(n.xz, n.yz, n.zz, n.xx, n.xy, n.xz, c.xy, c.yy, c.yz);
  }

  lemma ThirdCofactors(n: Sym)
    ensures var c := Cofactors(n);
      && Row(n.xx, n.xy, n.xz, c.xz, c.yz, c.zz) == 0.0
      && Row(n.xy, n.yy, n.yz, c.xz, c.yz, c.zz) == 0.0
      && Row(n.xz, n.yz, n.zz, c.xz, c.yz, c.zz) == Det(n)
  {
    hide Row, Det, Cofactors;
    var c := Cofactors(n);
    DeterminantByZ(n);
    ThirdCross(n);
    CrossOrthogonal(n.xx, n.xy, n.xz, n.xy, n.yy, n.yz, c.xz, c.yz, c.zz);
  }

  lemma ByCofactors(n: Sym, r: Vec)
    ensures var c := Cofactors(n);
      && Row(c.xx, c.xy, c.xz, r.x, r.y, r.z) == DetX(n, r)
      && Row(c.xy, c.yy, c.yz, r.x, r.y, r.z) == DetY(n, r)
      && Row(c.xz, c.yz, c.zz, r.x, r.y, r.z) == DetZ(n, r)
  {
  }

  lemma ScaleRow(a: real, p: real, q: real, s: real, x: real, y: real, z: real)
    ensures a * Row(p, q, s, x, y, z) == Row(a * p, a * q, a * s, x, y, z)
  {
    assert a * p * x == a * (p * x) && a * q * y == a * (q * y) && a * s * z == a * (s * z);
  }

  lemma SumRows(p: real, q: real, s: real, p': real, q': real, s': real, x: real, y: real, z: real)
    ensures Row(p, q, s, x, y, z) + Row(p', q', s', x, y, z) == Row(p + p', q + q', s + s', x, y, z)
  {
    assert (p + p') * x == p * x + p' * x && (q + q') * y == q * y + q' * y && (s + s') * z == s * z + s' * z;
  }

  // A row times a symmetric matrix times a column, either product first.
  lemma Reassociate(a: real, b: real, c: real, m: Sym, x: real, y: real, z: real)
    ensures Row(a, b, c, Row(m.xx, m.xy, m.xz, x, y, z), Row(m.xy, m.yy, m.yz, x, y, z), Row(m.xz, m.yz, m.zz, x, y, z))
      == Row(Row(a, b, c, m.xx, m.xy, m.xz), Row(a, b, c, m.xy, m.yy, m.yz), Row(a, b, c, m.xz, m.yz, m.zz), x, y, z)
  {
    hide Row;
    var u, v, w := Row(m.xx, m.xy, m.xz, x, y, z), Row(m.xy, m.yy, m.yz, x, y, z), Row(m.xz, m.yz, m.zz, x, y, z);
    RowSum(a, b, c, u, v, w);
    ScaleRow(a, m.xx, m.xy, m.xz, x, y, z);
    ScaleRow(b, m.xy, m.yy, m.yz, x, y, z);
    ScaleRow(c, m.xz, m.yz, m.zz, x, y, z);
    SumRows(a * m.xx, a * m.xy, a * m.xz, b * m.xy, b * m.yy, b * m.yz, x, y, z);
    SumRows(a * m.xx + b * m.xy, a * m.xy + b * m.yy, a * m.xz + b * m.yz, c * m.xz, c * m.yz, c * m.zz, x, y, z);
    RowSum(a, b, c, m.xx, m.xy, m.xz);
    RowSum(a, b, c, m.xy, m.yy, m.yz);
    RowSum(a, b, c, m.xz, m.yz, m.zz);
  }

  lemma RowSum(a: real, b: real, c: real, x: real, y: real, z: real)
    ensures Row(a, b, c, x, y, z) == a * x + b * y + c * z
  {
  }

  lemma Units(d: real, x: real, y: real, z: real)
    ensures Row(d, 0.0, 0.0, x, y, z) == d * x && Row(0.0, d, 0.0, x, y, z) == d * y
        && Row(0.0, 0.0, d, x, y, z) == d * z
  {
  }

  lemma Expansion(n: Sym, r: Vec)
    ensures Expands(n.xx, n.xy, n.xz, DetX(n, r), DetY(n, r), DetZ(n, r), Det(n), r.x)
    ensures Expands(n.xy, n.yy, n.yz, DetX(n, r), DetY(n, r), DetZ(n, r), Det(n), r.y)
    ensures Expands(n.xz, n.yz, n.zz, DetX(n, r), DetY(n, r), DetZ(n, r), Det(n), r.z)
  {
    hide Det, DetX, DetY, DetZ, Cofactors, Row;
    var c := Cofactors(n);
    FirstCofactors(n);
    SecondCofactors(n);
    ThirdCofactors(n);
    ByCofactors(n, r);
    Units(Det(n), r.x, r.y, r.z);
    Reassociate(n.xx, n.xy, n.xz, c, r.x, r.y, r.z);
    Reassociate(n.xy, n.yy, n.yz, c, r.x, r.y, r.z);
    Reassociate(n.xz, n.yz, n.zz, c, r.x, r.y, r.z);
  }

  lemma Elimination(n: Sym, g: Vec, r: Vec)
    requires Satisfies(n, g, r)
    ensures DetX(n, r) == Det(n) * g.x && DetY(n, r) == Det(n) * g.y && DetZ(n, r) == Det(n) * g.z
  {
    hide Det, DetX, DetY, DetZ, Cofactors, Row;
    var c := Cofactors(n);
    FirstCofactors(n);
    SecondCofactors(n);
    ThirdCofactors(n);
    ByCofactors(n, r);
    Units(Det(n), g.x, g.y, g.z);
    Reassociate(c.xx, c.xy, c.xz, n, g.x, g.y, g.z);
    Reassociate(c.xy, c.yy, c.yz, n, g.x, g.y, g.z);
    Reassociate(c.xz, c.yz, c.zz, n, g.x, g.y, g.z);
    Transposed(c, n);
  }

  // Rows times columns and columns times rows are the same numbers.
  lemma Transposed(c: Sym, n: Sym)
    ensures Row(c.xx, c.xy, c.xz, n.xx, n.xy, n.xz) == Row(n.xx, n.xy, n.xz, c.xx, c.xy, c.xz)
    ensures Row(c.xx, c.xy, c.xz, n.xy, n.yy, n.yz) == Row(n.xy, n.yy, n.yz, c.xx, c.xy, c.xz)
    ensures Row(c.xx, c.xy, c.xz, n.xz, n.yz, n.zz) == Row(n.xz, n.yz, n.zz, c.xx, c.xy, c.xz)
    ensures Row(c.xy, c.yy, c.yz, n.xx, n.xy, n.xz) == Row(n.xx, n.xy, n.xz, c.xy, c.yy, c.yz)
    ensures Row(c.xy, c.yy, c.yz, n.xy, n.yy, n.yz) == Row(n.xy, n.yy, n.yz, c.xy, c.yy, c.yz)
    ensures Row(c.xy, c.yy, c.yz, n.xz, n.yz, n.zz) == Row(n.xz, n.yz, n.zz, c.xy, c.yy, c.yz)
    ensures Row(c.xz, c.yz, c.zz, n.xx, n.xy, n.xz) == Row(n.xx, n.xy, n.xz, c.xz, c.yz, c.zz)
    ensures Row(c.xz, c.yz, c.zz, n.xy, n.yy, n.yz) == Row(n.xy, n.yy, n.yz, c.xz, c.yz, c.zz)
    ensures Row(c.xz, c.yz, c.zz, n.xz, n.yz, n.zz) == Row(n.xz, n.yz, n.zz, c.xz, c.yz, c.zz)
  {
  }

  lemma Divided(d: real, p: real, q: real)
    requires d != 0.0 && p == d * q
    ensures 1.0 / d * p == q
  {
    var inv := 1.0 / d;
    assert inv * d == 1.0;
    assert inv * (d * q) == inv * d * q;
  }

  lemma DividedVec(d: real, x: real, y: real, z: real, g: Vec)
    requires d != 0.0 && x == d * g.x && y == d * g.y && z == d * g.z
    ensures Quotients(d, x, y, z) == g
  {
    Divided(d, x, g.x);
    Divided(d, y, g.y);
    Divided(d, z, g.z);
  }

  lemma CramerRow(a: real, b: real, c: real, dx: real, dy: real, dz: real, det: real, rhs: real)
    requires det != 0.0 && Expands(a, b, c, dx, dy, dz, det, rhs)
    ensures Solved(a, b, c, Quotients(det, dx, dy, dz), rhs)
  {
    var inv := 1.0 / det;
    assert a * (inv * dx) + b * (inv * dy) + c * (inv * dz) == inv * (a * dx + b * dy + c * dz);
    Divided(det, det * rhs, rhs);
  }

  lemma CramerSatisfies(n: Sym, r: Vec)
    requires !Singular(n)
    ensures Satisfies(n, Cramer(n, r), r)
  {
    Expansion(n, r);
    var dx, dy, dz, det := DetX(n, r), DetY(n, r), DetZ(n, r), Det(n);
    CramerRow(n.xx, n.xy, n.xz, dx, dy, dz, det, r.x);
    CramerRow(n.xy, n.yy, n.yz, dx, dy, dz, det, r.y);
    CramerRow(n.xz, n.yz, n.zz, dx, dy, dz, det, r.z);
  }

  lemma CramerUnique(n: Sym, g: Vec, r: Vec)
    requires !Singular(n) && Satisfies(n, g, r)
    ensures g == Cramer(n, r)
  {
    hide Det, DetX, DetY, DetZ, Satisfies, Quotients;
    Elimination(n, g, r);
    DividedVec(Det(n), DetX(n, r), DetY(n, r), DetZ(n, r), g);
  }

  // Unless the determinant test fails, Cramer's rule finds the one solution.
  lemma CramerSolves(n: Sym, r: Vec)
    requires !Singular(n)
    ensures forall g :: Satisfies(n, g, r) <==> g == Cramer(n, r)
  {
    CramerSatisfies(n, r);
    forall g | Satisfies(n, g, r) ensures g == Cramer(n, r) {
      CramerUnique(n, g, r);
    }
  }

  // ----- the mesh and its normal equations -----

  // Cell i's neighbours are indices[offsets[i]..offsets[i + 1]].
  datatype Mesh = Mesh(values: seq<real>, centroids: seq<Vec>, offsets: seq<nat>, indices: seq<nat>)

  predicate Valid(m: Mesh) {
    && |m.centroids| == |m.values| && |m.offsets| == |m.values| + 1
    && (forall i, j :: 0 <= i < j < |m.offsets| ==> m.offsets[i] <= m.offsets[j])
    && (forall i :: 0 <= i < |m.offsets| ==> m.offsets[i] <= |m.indices|)
    && (forall k :: 0 <= k < |m.indices| ==> m.indices[k] < |m.values|)
  }

  predicate Upto(m: Mesh, i: nat, k: nat) {
    Valid(m) && i < |m.values| && m.offsets[i] <= k <= m.offsets[i + 1]
  }

  // The k-th adjacency entry, one of cell i's.
  predicate Neighbour(m: Mesh, i: nat, k: nat) {
    Upto(m, i, k) && k < m.offsets[i + 1]
  }

  function Offset(m: Mesh, i: nat, k: nat): Vec
    requires Neighbour(m, i, k)
  {
    Minus(m.centroids[m.indices[k]], m.centroids[i])
  }

  function Rise(m: Mesh, i: nat, k: nat): real
    requires Neighbour(m, i, k)
  {
    m.values[m.indices[k]] - m.values[i]
  }

  function AddOuter(n: Sym, d: Vec): Sym {
    Sym(n.xx + d.x * d.x, n.xy + d.x * d.y, n.xz + d.x * d.z, n.yy + d.y * d.y, n.yz + d.y * d.z, n.zz + d.z * d.z)
  }

  function AddScaled(r: Vec, d: Vec, f: real): Vec {
    Vec(r.x + d.x * f, r.y + d.y * f, r.z + d.z * f)
  }

  function Normal(m: Mesh, i: nat, k: nat): Sym
    requires Upto(m, i, k)
    decreases k
  {
    if k == m.offsets[i] then Sym(0.0, 0.0, 0.0, 0.0, 0.0, 0.0) else AddOuter(Normal(m, i, k - 1), Offset(m, i, k - 1))
  }

  function RightSide(m: Mesh, i: nat, k: nat): Vec
    requires Upto(m, i, k)
    decreases k
  {
    if k == m.offsets[i] then ZERO else AddScaled(RightSide(m, i, k - 1), Offset(m, i, k - 1), Rise(m, i, k - 1))
  }

  function Raw(m: Mesh, i: nat): Vec
    requires Valid(m) && i < |m.values|
  {
    var end := m.offsets[i + 1];
    if end - m.offsets[i] < 3 then ZERO else Cramer(Normal(m, i, end), RightSide(m, i, end))
  }

  // The values of cell i and of its neighbours are affine in the centroids.
  predicate Affine(m: Mesh, i: nat, g: Vec, b: real)
    requires Valid(m) && i < |m.values|
  {
    && m.values[i] == b + Dot(g, m.centroids[i])
    && forall k :: m.offsets[i] <= k < m.offsets[i + 1] ==>
         m.values[m.indices[k]] == b + Dot(g, m.centroids[m.indices[k]])
  }

  lemma AffineRise(m: Mesh, g: Vec, b: real, i: nat, k: nat)
    requires Neighbour(m, i, k) && Affine(m, i, g, b)
    ensures Rise(m, i, k) == Dot(g, Offset(m, i, k))
  {
  }

  lemma AddToRow(a: real, b: real, c: real, g: Vec, rhs: real, d: Vec, f: real, a': real, b': real, c': real,
      rhs': real)
    requires Solved(a, b, c, g, rhs) && rhs' == rhs + f * Dot(g, d)
    requires a' == a + d.x * f && b' == b + d.y * f && c' == c + d.z * f
    ensures Solved(a', b', c', g, rhs')
  {
    assert f * Dot(g, d) == d.x * f * g.x + d.y * f * g.y + d.z * f * g.z;
    assert a' * g.x == a * g.x + d.x * f * g.x;
    assert b' * g.y == b * g.y + d.y * f * g.y;
    assert c' * g.z == c * g.z + d.z * f * g.z;
  }

  lemma AddNeighbour(n: Sym, r: Vec, d: Vec, g: Vec)
    requires Satisfies(n, g, r)
    ensures Satisfies(AddOuter(n, d), g, AddScaled(r, d, Dot(g, d)))
  {
    hide Solved, Dot;
    var n', r' := AddOuter(n, d), AddScaled(r, d, Dot(g, d));
    AddToRow(n.xx, n.xy, n.xz, g, r.x, d, d.x, n'.xx, n'.xy, n'.xz, r'.x);
    AddToRow(n.xy, n.yy, n.yz, g, r.y, d, d.y, n'.xy, n'.yy, n'.yz, r'.y);
    AddToRow(n.xz, n.yz, n.zz, g, r.z, d, d.z, n'.xz, n'.yz, n'.zz, r'.z);
  }

  lemma {:induction false} AffineSatisfies(m: Mesh, g: Vec, b: real, i: nat, k: nat)
    requires Upto(m, i, k) && Affine(m, i, g, b)
    ensures Satisfies(Normal(m, i, k), g, RightSide(m, i, k))
    decreases k
  {
    if k > m.offsets[i] {
      AffineSatisfies(m, g, b, i, k - 1);
      AffineRise(m, g, b, i, k - 1);
      AddNeighbour(Normal(m, i, k - 1), RightSide(m, i, k - 1), Offset(m, i, k - 1), g);
    } else {
      NothingSatisfied(g);
    }
  }

  lemma NothingSatisfied(g: Vec)
    ensures Satisfies(Sym(0.0, 0.0, 0.0, 0.0, 0.0, 0.0), g, ZERO)
  {
  }

  // On affine data the normal equations give back the coefficients exactly.
  lemma ExactOnAffine(m: Mesh, g: Vec, b: real, i: nat)
    requires Valid(m) && i < |m.values| && Affine(m, i, g, b)
    requires m.offsets[i + 1] - m.offsets[i] >= 3 && !Singular(Normal(m, i, m.offsets[i + 1]))
    ensures Raw(m, i) == g
  {
    var end := m.offsets[i + 1];
    AffineSatisfies(m, g, b, i, end);
    CramerSolves(Normal(m, i, end), RightSide(m, i, end));
  }

  // ----- degenerate stencils -----

  // Every neighbour lies in the plane through the cell's centroid that is
  // normal to w.
  ghost predicate FlatAlong(m: Mesh, i: nat, w: Vec)
    requires Valid(m) && i < |m.values|
  {
    forall k :: m.offsets[i] <= k < m.offsets[i + 1] ==> Dot(w, Offset(m, i, k)) == 0.0
  }

  ghost predicate Flat(m: Mesh, i: nat)
    requires Valid(m) && i < |m.values|
  {
    exists w :: w != ZERO && FlatAlong(m, i, w)
  }

  lemma {:induction false} FlatSatisfies(m: Mesh, i: nat, k: nat, w: Vec)
    requires Upto(m, i, k) && FlatAlong(m, i, w)
    ensures Satisfies(Normal(m, i, k), w, ZERO)
    decreases k
  {
    hide Satisfies, Dot, Offset;
    if k > m.offsets[i] {
      FlatSatisfies(m, i, k - 1, w);
      var d := Offset(m, i, k - 1);
      AddNeighbour(Normal(m, i, k - 1), ZERO, d, w);
      assert Dot(w, d) == 0.0 && AddScaled(ZERO, d, 0.0) == ZERO;
    } else {
      NothingSatisfied(w);
    }
  }

  lemma ProductZero(a: real, b: real)
    requires a * b == 0.0
    ensures a == 0.0 || b == 0.0
  {
  }

  lemma KernelSingular(n: Sym, w: Vec)
    requires Satisfies(n, w, ZERO) && w != ZERO
    ensures Det(n) == 0.0
  {
    hide Det, Satisfies;
    Elimination(n, w, ZERO);
    assert DetX(n, ZERO) == 0.0 && DetY(n, ZERO) == 0.0 && DetZ(n, ZERO) == 0.0;
    ProductZero(Det(n), w.x);
    ProductZero(Det(n), w.y);
    ProductZero(Det(n), w.z);
  }

  // A row of cofactors, or what is left when they all vanish.
  function Kernel(n: Sym): Vec {
    var c := Cofactors(n);
    if Vec(c.xx, c.xy, c.xz) != ZERO then Vec(c.xx, c.xy, c.xz)
    else if Vec(c.xy, c.yy, c.yz) != ZERO then Vec(c.xy, c.yy, c.yz)
    else if Vec(c.xz, c.yz, c.zz) != ZERO then Vec(c.xz, c.yz, c.zz)
    else if n.xx != 0.0 then Vec(-n.xy, n.xx, 0.0)
    else Vec(1.0, 0.0, 0.0)
  }

  lemma RankOneKernel(n: Sym)
    requires Cofactors(n) == Sym(0.0, 0.0, 0.0, 0.0, 0.0, 0.0)
    ensures n.xx != 0.0 ==> Satisfies(n, Vec(-n.xy, n.xx, 0.0), ZERO)
    ensures n.xx == 0.0 ==> Satisfies(n, Vec(1.0, 0.0, 0.0), ZERO)
  {
    if n.xx == 0.0 {
      ProductZero(n.xy, n.xy);
      ProductZero(n.xz, n.xz);
    }
  }

  lemma SingularKernel(n: Sym)
    requires Det(n) == 0.0
    ensures Kernel(n) != ZERO && Satisfies(n, Kernel(n), ZERO)
  {
    hide Det, Cofactors, Row;
    FirstCofactors(n);
    SecondCofactors(n);
    ThirdCofactors(n);
    if Cofactors(n) == Sym(0.0, 0.0, 0.0, 0.0, 0.0, 0.0) {
      RankOneKernel(n);
    }
  }

  // The quadratic form of the normal matrix is the sum of the squares of the
  // offsets along w.
  function Form(n: Sym, w: Vec): real {
    w.x * Row(n.xx, n.xy, n.xz, w.x, w.y, w.z) + w.y * Row(n.xy, n.yy, n.yz, w.x, w.y, w.z)
    + w.z * Row(n.xz, n.yz, n.zz, w.x, w.y, w.z)
  }

  lemma OuterRow(a: real, b: real, c: real, d: Vec, f: real, w: Vec, x: real, y: real, z: real)
    requires x == a + f * d.x && y == b + f * d.y && z == c + f * d.z
    ensures Row(x, y, z, w.x, w.y, w.z) == Row(a, b, c, w.x, w.y, w.z) + f * Dot(w, d)
  {
    assert x * w.x == a * w.x + f * (w.x * d.x);
    assert y * w.y == b * w.y + f * (w.y * d.y);
    assert z * w.z == c * w.z + f * (w.z * d.z);
  }

  lemma Squared(d: Vec, w: Vec)
    ensures w.x * (d.x * Dot(w, d)) + w.y * (d.y * Dot(w, d)) + w.z * (d.z * Dot(w, d)) == Dot(w, d) * Dot(w, d)
  {
    var f := Dot(w, d);
    assert w.x * (d.x * f) == (w.x * d.x) * f && w.y * (d.y * f) == (w.y * d.y) * f
        && w.z * (d.z * f) == (w.z * d.z) * f;
  }

  lemma Spread(a: real, p: real, q: real)
    ensures a * (p + q) == a * p + a * q
  {
  }

  lemma FormStep(n: Sym, d: Vec, w: Vec)
    ensures Form(AddOuter(n, d), w) == Form(n, w) + Dot(w, d) * Dot(w, d)
  {
    hide Row, Dot;
    var n', f := AddOuter(n, d), Dot(w, d);
    OuterRow(n.xx, n.xy, n.xz, d, d.x, w, n'.xx, n'.xy, n'.xz);
    OuterRow(n.xy, n.yy, n.yz, d, d.y, w, n'.xy, n'.yy, n'.yz);
    OuterRow(n.xz, n.yz, n.zz, d, d.z, w, n'.xz, n'.yz, n'.zz);
    Spread(w.x, Row(n.xx, n.xy, n.xz, w.x, w.y, w.z), d.x * f);
    Spread(w.y, Row(n.xy, n.yy, n.yz, w.x, w.y, w.z), d.y * f);
    Spread(w.z, Row(n.xz, n.yz, n.zz, w.x, w.y, w.z), d.z * f);
    Squared(d, w);
  }

  lemma Positive(a: real, b: real)
    requires a > 0.0 && b > 0.0
    ensures a * b > 0.0
  {
  }

  lemma Square(a: real)
    ensures a * a >= 0.0 && (a * a == 0.0 <==> a == 0.0)
  {
    if a > 0.0 {
      Positive(a, a);
    }
    if a < 0.0 {
      Positive(-a, -a);
      assert (-a) * (-a) == a * a;
    }
    if a * a == 0.0 {
      ProductZero(a, a);
    }
  }

  lemma {:induction false} FormVanishes(m: Mesh, i: nat, k: nat, w: Vec)
    requires Upto(m, i, k)
    ensures Form(Normal(m, i, k), w) >= 0.0
    ensures Form(Normal(m, i, k), w) == 0.0 ==>
      forall j :: m.offsets[i] <= j < k ==> Dot(w, Offset(m, i, j)) == 0.0
    decreases k
  {
    hide Form, Dot, Offset;
    if k > m.offsets[i] {
      FormVanishes(m, i, k - 1, w);
      FormStep(Normal(m, i, k - 1), Offset(m, i, k - 1), w);
      Square(Dot(w, Offset(m, i, k - 1)));
    } else {
      FormOfNothing(w);
    }
  }

  lemma FormOfNothing(w: Vec)
    ensures Form(Sym(0.0, 0.0, 0.0, 0.0, 0.0, 0.0), w) == 0.0
  {
  }

  // The normal matrix is singular exactly on flat stencils.
  lemma DegenerateExactlyWhen(m: Mesh, i: nat)
    requires Valid(m) && i < |m.values|
    ensures Det(Normal(m, i, m.offsets[i + 1])) == 0.0 <==> Flat(m, i)
  {
    hide Det, Dot, Offset, Kernel;
    var end := m.offsets[i + 1];
    var n := Normal(m, i, end);
    if Flat(m, i) {
      var w :| w != ZERO && FlatAlong(m, i, w);
      FlatSatisfies(m, i, end, w);
      KernelSingular(n, w);
    }
    if Det(n) == 0.0 {
      SingularKernel(n);
      KernelForm(n, Kernel(n));
      FormVanishes(m, i, end, Kernel(n));
      assert FlatAlong(m, i, Kernel(n));
    }
  }

  lemma KernelForm(n: Sym, w: Vec)
    requires Satisfies(n, w, ZERO)
    ensures Form(n, w) == 0.0
  {
  }

  // On a flat stencil the gradient is zero, whatever the data.
  lemma FlatIsZero(m: Mesh, i: nat)
    requires Valid(m) && i < |m.values| && Flat(m, i)
    ensures Raw(m, i) == ZERO
  {
    hide Det, Flat;
    DegenerateExactlyWhen(m, i);
  }

  // So affine data are reproduced exactly when there are enough neighbours and
  // the test passes, or the data are constant.
  lemma AffineExactlyWhen(m: Mesh, g: Vec, b: real, i: nat)
    requires Valid(m) && i < |m.values| && Affine(m, i, g, b)
    ensures Raw(m, i) == g <==>
      g == ZERO || (m.offsets[i + 1] - m.offsets[i] >= 3 && !Singular(Normal(m, i, m.offsets[i + 1])))
  {
    hide Singular, Affine;
    if m.offsets[i + 1] - m.offsets[i] >= 3 && !Singular(Normal(m, i, m.offsets[i + 1])) {
      ExactOnAffine(m, g, b, i);
    }
  }

  // ----- the limiter -----

  function Low(m: Mesh, i: nat, k: nat): real
    requires Upto(m, i, k)
    decreases k
  {
    if k == m.offsets[i] then m.values[i] else Min(Low(m, i, k - 1), m.values[m.indices[k - 1]])
  }

  function High(m: Mesh, i: nat, k: nat): real
    requires Upto(m, i, k)
    decreases k
  {
    if k == m.offsets[i] then m.values[i] else Max(High(m, i, k - 1), m.values[m.indices[k - 1]])
  }

  // How far the cell's values may go up and down.
  function Above(m: Mesh, i: nat): real
    requires Valid(m) && i < |m.values|
  {
    High(m, i, m.offsets[i + 1]) - m.values[i]
  }

  function Below(m: Mesh, i: nat): real
    requires Valid(m) && i < |m.values|
  {
    Low(m, i, m.offsets[i + 1]) - m.values[i]
  }

  // One neighbour's limit on the factor.
  function Limit(change: real, below: real, above: real, phi: real): real {
    if change > EPS then Min(phi, Min(1.0, above / change))
    else if change < -EPS then Min(phi, Min(1.0, below / change))
    else phi
  }

  // What the gradient says happens on the way to the k-th neighbour.
  function Change(m: Mesh, i: nat, g: Vec, k: nat): real
    requires Neighbour(m, i, k)
  {
    Dot(g, Offset(m, i, k))
  }

  function Factor(m: Mesh, i: nat, g: Vec, k: nat): real
    requires Upto(m, i, k)
    decreases k
  {
    if k == m.offsets[i] then 1.0
    else Limit(Change(m, i, g, k - 1), Below(m, i), Above(m, i), Factor(m, i, g, k - 1))
  }

  function Limited(m: Mesh, i: nat, g: Vec): Vec
    requires Valid(m) && i < |m.values|
  {
    if m.offsets[i + 1] == m.offsets[i] then g
    else Scale(g, Max(0.0, Min(1.0, Factor(m, i, g, m.offsets[i + 1]))))
  }

  lemma {:induction false} RangeMeaning(m: Mesh, i: nat, k: nat)
    requires Upto(m, i, k)
    ensures Low(m, i, k) <= m.values[i] <= High(m, i, k)
    ensures forall j: nat :: Neighbour(m, i, j) && j < k ==> Low(m, i, k) <= m.values[m.indices[j]] <= High(m, i, k)
    decreases k
  {
    if k > m.offsets[i] {
      RangeMeaning(m, i, k - 1);
    }
  }

  predicate InRange(move: real, below: real, above: real) {
    below - EPS <= move <= above + EPS
  }

  // The factor keeps this change within the range.
  predicate Within(phi: real, change: real, below: real, above: real) {
    InRange(phi * change, below, above)
  }

  predicate Towards(move: real, bound: real) {
    0.0 <= move <= bound || bound <= move <= 0.0
  }

  lemma TowardsInRange(move: real, bound: real, below: real, above: real)
    requires below <= 0.0 <= above && Towards(move, bound) && InRange(bound, below, above)
    ensures InRange(move, below, above)
  {
  }

  // One factor below a ratio: the move stays between zero and the bound.
  lemma BelowRatio(f: real, bound: real, change: real, below: real, above: real)
    requires change != 0.0 && 0.0 <= f <= bound / change
    requires below <= 0.0 <= above && InRange(bound, below, above)
    ensures Within(f, change, below, above)
  {
    assert bound / change * change == bound;
    ScaledBetween(f, bound / change, change);
    TowardsInRange(f * change, bound, below, above);
  }

  lemma RatioNonNegative(a: real, b: real)
    requires b != 0.0 && (a == 0.0 || (a > 0.0) == (b > 0.0))
    ensures a / b >= 0.0
  {
  }

  lemma LimitWithin(change: real, below: real, above: real, phi: real)
    requires below <= 0.0 <= above && 0.0 <= phi <= 1.0
    ensures var f := Limit(change, below, above, phi); 0.0 <= f <= phi && Within(f, change, below, above)
  {
    var f := Limit(change, below, above, phi);
    if change > EPS {
      RatioNonNegative(above, change);
      BelowRatio(f, above, change, below, above);
    } else if change < -EPS {
      RatioNonNegative(below, change);
      BelowRatio(f, below, change, below, above);
    } else {
      ScaledBetween(f, 1.0, change);
      TowardsInRange(f * change, change, below, above);
    }
  }

  // A smaller factor moves less far.
  lemma ScaledBetween(f: real, phi: real, change: real)
    requires 0.0 <= f <= phi
    ensures Towards(f * change, phi * change)
  {
    if change >= 0.0 {
      Shrink(f, phi, change);
    } else {
      Shrink(f, phi, -change);
      Opposite(f, change);
      Opposite(phi, change);
    }
  }

  lemma RatioSign(a: real, b: real)
    requires b != 0.0
    ensures a / b == -a / -b
  {
  }

  lemma Shrink(f: real, q: real, b: real)
    requires 0.0 <= f <= q && b >= 0.0
    ensures 0.0 <= f * b <= q * b
  {
    assert (q - f) * b >= 0.0;
    assert (q - f) * b == q * b - f * b;
  }

  lemma Opposite(f: real, c: real)
    ensures f * -c == -(f * c)
  {
  }

  lemma WithinSmaller(f: real, phi: real, change: real, below: real, above: real)
    requires 0.0 <= f <= phi && below <= 0.0 <= above && Within(phi, change, below, above)
    ensures Within(f, change, below, above)
  {
    ScaledBetween(f, phi, change);
    TowardsInRange(f * change, phi * change, below, above);
  }

  predicate AllWithin(m: Mesh, i: nat, g: Vec, k: nat, phi: real)
    requires Upto(m, i, k)
  {
    forall j :: m.offsets[i] <= j < k ==> Within(phi, Change(m, i, g, j), Below(m, i), Above(m, i))
  }

  lemma AllWithinSmaller(m: Mesh, i: nat, g: Vec, k: nat, phi: real, f: real)
    requires Upto(m, i, k) && AllWithin(m, i, g, k, phi) && 0.0 <= f <= phi
    requires Below(m, i) <= 0.0 <= Above(m, i)
    ensures AllWithin(m, i, g, k, f)
  {
    forall j | m.offsets[i] <= j < k ensures Within(f, Change(m, i, g, j), Below(m, i), Above(m, i)) {
      WithinSmaller(f, phi, Change(m, i, g, j), Below(m, i), Above(m, i));
    }
  }

  lemma {:induction false} FactorWithin(m: Mesh, i: nat, g: Vec, k: nat)
    requires Upto(m, i, k)
    ensures 0.0 <= Factor(m, i, g, k) <= 1.0 && AllWithin(m, i, g, k, Factor(m, i, g, k))
    decreases k
  {
    if k > m.offsets[i] {
      FactorWithin(m, i, g, k - 1);
      RangeMeaning(m, i, m.offsets[i + 1]);
      var phi := Factor(m, i, g, k - 1);
      LimitWithin(Change(m, i, g, k - 1), Below(m, i), Above(m, i), phi);
      AllWithinSmaller(m, i, g, k - 1, phi, Factor(m, i, g, k));
    }
  }

  lemma ScaledChange(g: Vec, d: Vec, f: real)
    ensures Dot(Scale(g, f), d) == f * Dot(g, d)
  {
  }

  lemma ScaledInRange(g: Vec, d: Vec, f: real, below: real, above: real)
    requires Within(f, Dot(g, d), below, above)
    ensures InRange(Dot(Scale(g, f), d), below, above)
  {
    ScaledChange(g, d, f);
  }

  // With the limiter on, the value reconstructed at each neighbour's centroid
  // lies between the smallest and largest value of the stencil, up to EPS.
  lemma LimiterBounds(m: Mesh, i: nat, g: Vec, k: nat)
    requires Neighbour(m, i, k)
    ensures Low(m, i, m.offsets[i + 1]) - EPS
      <= m.values[i] + Change(m, i, Limited(m, i, g), k)
      <= High(m, i, m.offsets[i + 1]) + EPS
  {
    LimitedInRange(m, i, g, k);
    var move := Change(m, i, Limited(m, i, g), k);
    assert InRange(move, Below(m, i), Above(m, i));
  }

  lemma LimitedInRange(m: Mesh, i: nat, g: Vec, k: nat)
    requires Neighbour(m, i, k)
    ensures InRange(Change(m, i, Limited(m, i, g), k), Below(m, i), Above(m, i))
  {
    var phi := Factor(m, i, g, m.offsets[i + 1]);
    FactorWithin(m, i, g, m.offsets[i + 1]);
    assert Within(phi, Change(m, i, g, k), Below(m, i), Above(m, i));
    ScaledInRange(g, Offset(m, i, k), phi, Below(m, i), Above(m, i));
    assert Limited(m, i, g) == Scale(g, phi);
  }

  lemma RatioAtLeastOne(a: real, b: real)
    requires a >= b > 0.0
    ensures a / b >= 1.0
  {
  }

  // The limiter leaves alone a gradient that already stays in range.
  lemma {:induction false} NothingToLimit(m: Mesh, i: nat, g: Vec, k: nat)
    requires Upto(m, i, k)
    requires forall j: nat :: Neighbour(m, i, j) ==> Below(m, i) <= Change(m, i, g, j) <= Above(m, i)
    ensures Factor(m, i, g, k) == 1.0
    decreases k
  {
    if k > m.offsets[i] {
      NothingToLimit(m, i, g, k - 1);
      var change := Change(m, i, g, k - 1);
      if change > EPS {
        RatioAtLeastOne(Above(m, i), change);
      } else if change < -EPS {
        RatioAtLeastOne(-Below(m, i), -change);
        RatioSign(Below(m, i), change);
      }
    }
  }

  // On affine data the limited gradient is still exact.
  lemma LimitedExactOnAffine(m: Mesh, g: Vec, b: real, i: nat)
    requires Valid(m) && i < |m.values| && Affine(m, i, g, b)
    ensures Limited(m, i, g) == g
  {
    var end := m.offsets[i + 1];
    RangeMeaning(m, i, end);
    forall j: nat | Neighbour(m, i, j) ensures Below(m, i) <= Change(m, i, g, j) <= Above(m, i) {
      AffineRise(m, g, b, i, j);
    }
    NothingToLimit(m, i, g, end);
  }

  // ----- the loops -----

  method CellGradient(m: Mesh, i: nat) returns (g: Vec)
    requires Valid(m) && i < |m.values|
    ensures g == Raw(m, i)
  {
    var start, end := m.offsets[i], m.offsets[i + 1];
    if end - start < 3 {
      return ZERO;
    }
    var n, r := Sym(0.0, 0.0, 0.0, 0.0, 0.0, 0.0), ZERO;
    for k := start to end
      invariant n == Normal(m, i, k) && r == RightSide(m, i, k)
    {
      var j := m.indices[k];
      var d := Minus(m.centroids[j], m.centroids[i]);
      var dv := m.values[j] - m.values[i];
      n := AddOuter(n, d);
      r := AddScaled(r, d, dv);
    }
    g := Cramer(n, r);
  }

  method CellRange(m: Mesh, i: nat) returns (low: real, high: real)
    requires Valid(m) && i < |m.values|
    ensures low == Low(m, i, m.offsets[i + 1]) && high == High(m, i, m.offsets[i + 1])
  {
    low, high := m.values[i], m.values[i];
    for k := m.offsets[i] to m.offsets[i + 1]
      invariant low == Low(m, i, k) && high == High(m, i, k)
    {
      var v := m.values[m.indices[k]];
      low := Min(low, v);
      high := Max(high, v);
    }
  }

  method LimitCell(m: Mesh, i: nat, g: Vec) returns (r: Vec)
    requires Valid(m) && i < |m.values|
    ensures r == Limited(m, i, g)
  {
    var start, end := m.offsets[i], m.offsets[i + 1];
    if end == start {
      return g;
    }
    var low, high := CellRange(m, i);
    var phi := 1.0;
    for k := start to end
      invariant phi == Factor(m, i, g, k)
    {
      var change := Dot(g, Minus(m.centroids[m.indices[k]], m.centroids[i]));
      if change > EPS {
        phi := Min(phi, Min(1.0, (high - m.values[i]) / change));
      } else if change < -EPS {
        phi := Min(phi, Min(1.0, (low - m.values[i]) / change));
      }
    }
    phi := Max(0.0, Min(1.0, phi));
    r := Scale(g, phi);
  }

  method Compute(m: Mesh, grad: array<Vec>, useLimiter: bool)
    requires Valid(m) && grad.Length == |m.values|
    modifies grad
    ensures forall i :: 0 <= i < grad.Length ==>
      grad[i] == if useLimiter then Limited(m, i, Raw(m, i)) else Raw(m, i)
  {
    for i := 0 to grad.Length
      invariant forall k :: 0 <= k < i ==> grad[k] == Raw(m, k)
    {
      grad[i] := CellGradient(m, i);
    }
    if !useLimiter {
      return;
    }
    for i := 0 to grad.Length
      invariant forall k :: 0 <= k < i ==> grad[k] == Limited(m, k, Raw(m, k))
      invariant forall k :: i <= k < grad.Length ==> grad[k] == Raw(m, k)
    {
      grad[i] := LimitCell(m, i, grad[i]);
    }
  }
}
