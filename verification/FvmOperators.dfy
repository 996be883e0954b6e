/** The gradient, divergence, Laplacian and filter kernels: exact on polynomials up to
    the domain boundary, conservative on a periodic box. */
module FvmOperators {
  import opened Stencils
  import opened FvmSweeps
  import opened BoxSums
  import opened IndexVectors

  // ------------------------------------------------------------------ kernels

  /** A row of coefficients applied to the values around a cell. */
  function Weigh(r: Row, next: real, same: real, prev: real): real {
    r.next * next + r.same * same + r.prev * prev
  }

  function AlongX(r: Row, phi: CellField, i: int, j: int, k: int): real {
    Weigh(r, phi(i + 1, j, k), phi(i, j, k), phi(i - 1, j, k))
  }

  function AlongY(r: Row, phi: CellField, i: int, j: int, k: int): real {
    Weigh(r, phi(i, j + 1, k), phi(i, j, k), phi(i, j - 1, k))
  }

  function AlongZ(r: Row, phi: CellField, i: int, j: int, k: int): real {
    Weigh(r, phi(i, j, k + 1), phi(i, j, k), phi(i, j, k - 1))
  }

  datatype Vector = Vector(x: real, y: real, z: real)

  function GradientOf(t: Table, phi: CellField, idx: Inverse, i: int, j: int, k: int): Vector {
    Vector(AlongX(t.c.x, phi, i, j, k) * idx.x, AlongY(t.c.y, phi, i, j, k) * idx.y,
           AlongZ(t.c.z, phi, i, j, k) * idx.z)
  }

  function DivergenceOf(t: Table, u: CellField, v: CellField, w: CellField, idx: Inverse, i: int, j: int,
                        k: int): real
  {
    AlongX(t.c.x, u, i, j, k) * idx.x + AlongY(t.c.y, v, i, j, k) * idx.y + AlongZ(t.c.z, w, i, j, k) * idx.z
  }

  /** The kernel takes its three second derivatives from three components. */
  function LaplacianOf(t: Table, u: CellField, v: CellField, w: CellField, idx: Inverse, i: int, j: int, k: int): real {
    AlongX(t.s.x, u, i, j, k) * idx.x * idx.x + AlongY(t.s.y, v, i, j, k) * idx.y * idx.y
    + AlongZ(t.s.z, w, i, j, k) * idx.z * idx.z
  }

  function FilterOf(t: Table, phi: CellField, i: int, j: int, k: int): real {
    1.0 / 3.0 * (AlongX(t.f.x, phi, i, j, k) + AlongY(t.f.y, phi, i, j, k) + AlongZ(t.f.z, phi, i, j, k))
  }

  // ---------------------------------------------------- exactness in one direction

  function Parabola(a: real, b: real, c: real, x: real): real { a * (x * x) + b * x + c }

  /** The values that a stencil reads sit one cell away, or half a cell away on the
      face when they are in a ghost cell. */
  function NextAt(s: Side, x: real, h: real): real { if s.Hi? then x + h / 2.0 else x + h }

  function PrevAt(s: Side, x: real, h: real): real { if s.Lo? then x - h / 2.0 else x - h }

  lemma SquareOfSum(x: real, e: real)
    ensures (x + e) * (x + e) == x * x + 2.0 * (x * e) + e * e
    ensures (x - e) * (x - e) == x * x - 2.0 * (x * e) + e * e
    ensures (x + e / 2.0) * (x + e / 2.0) == x * x + x * e + e * e / 4.0
    ensures (x - e / 2.0) * (x - e / 2.0) == x * x - x * e + e * e / 4.0
  {
  }

  lemma ParabolaNear(s: Side, a: real, b: real, c: real, x: real, h: real)
    ensures Parabola(a, b, c, NextAt(s, x, h)) == Parabola(a, b, c, x)
            + (if s.Hi? then a * (x * h) + a * (h * h) / 4.0 + b * h / 2.0
               else 2.0 * (a * (x * h)) + a * (h * h) + b * h)
    ensures Parabola(a, b, c, PrevAt(s, x, h)) == Parabola(a, b, c, x)
            + (if s.Lo? then -(a * (x * h)) + a * (h * h) / 4.0 - b * h / 2.0
               else -2.0 * (a * (x * h)) + a * (h * h) - b * h)
  {
    SquareOfSum(x, h);
    var p, q, r := x * x, x * h, h * h;
    assert a * (p + 2.0 * q + r) == a * p + 2.0 * (a * q) + a * r;
    assert a * (p - 2.0 * q + r) == a * p - 2.0 * (a * q) + a * r;
    assert a * (p + q + r / 4.0) == a * p + a * q + a * r / 4.0;
    assert a * (p - q + r / 4.0) == a * p - a * q + a * r / 4.0;
    assert b * (x + h) == b * x + b * h && b * (x - h) == b * x - b * h;
    assert b * (x + h / 2.0) == b * x + b * h / 2.0 && b * (x - h / 2.0) == b * x - b * h / 2.0;
  }

  /** The three values that a stencil reads are samples of the parabola. */
  predicate Samples(next: real, same: real, prev: real, s: Side, a: real, b: real, c: real, x: real, h: real) {
    && next == Parabola(a, b, c, NextAt(s, x, h)) && same == Parabola(a, b, c, x)
    && prev == Parabola(a, b, c, PrevAt(s, x, h))
  }

  lemma RowsOnParabola(s: Side, a: real, b: real, c: real, x: real, h: real, next: real, same: real, prev: real)
    requires Samples(next, same, prev, s, a, b, c, x, h)
    ensures Weigh(FirstRow(s), next, same, prev) == 2.0 * (a * (x * h)) + b * h
    ensures Weigh(SecondRow(s), next, same, prev) == 2.0 * (a * (h * h))
    ensures a == 0.0 ==> Weigh(FilterRow(s), next, same, prev) == same
    ensures Weigh(FilterRow(s), next, same, prev) == same + Smoothing(s) * (a * (h * h))
  {
    ParabolaNear(s, a, b, c, x, h);
  }

  /** How much of the curvature per cell the filter adds: half of it inside, three
      sixteenths next to an end. */
  function Smoothing(s: Side): real { if s.Mid? then 0.5 else 0.1875 }

  lemma PerCell(a: real, b: real, x: real, h: real, e: real)
    requires h * e == 1.0
    ensures (2.0 * (a * (x * h)) + b * h) * e == 2.0 * a * x + b
  {
    assert (2.0 * (a * (x * h)) + b * h) * e == (2.0 * a * x + b) * (h * e);
  }

  lemma PerCellSquared(a: real, h: real, e: real)
    requires h * e == 1.0
    ensures 2.0 * (a * (h * h)) * e * e == 2.0 * a
  {
    var t := h * e;
    assert 2.0 * (a * (h * h)) * e * e == 2.0 * a * (t * t);
  }

  /** One-dimensional exactness: derivatives of any parabola, values of any line. */
  lemma ExactAlongLine(s: Side, a: real, b: real, c: real, x: real, h: real, e: real, next: real, same: real,
                       prev: real)
    requires Samples(next, same, prev, s, a, b, c, x, h) && h * e == 1.0
    ensures Weigh(FirstRow(s), next, same, prev) * e == 2.0 * a * x + b
    ensures Weigh(SecondRow(s), next, same, prev) * e * e == 2.0 * a
    ensures a == 0.0 ==> Weigh(FilterRow(s), next, same, prev) == same
  {
    RowsOnParabola(s, a, b, c, x, h, next, same, prev);
    PerCell(a, b, x, h, e);
    PerCellSquared(a, h, e);
  }

  // ------------------------------------------------- exactness on the whole domain

  /** Where the domain lies and how large its cells are. */
  datatype Grid = Grid(d: Domain, p: Periodic, x0: real, y0: real, z0: real, hx: real, hy: real, hz: real)

  /** Position of a stored value: the cell centre, or the face of the domain for the
      ghost cell behind a non-periodic end. */
  function Position(i: int, lo: int, hi: int, periodic: bool, o: real, h: real): real {
    if !periodic && i == lo - 1 then o
    else if !periodic && i == hi + 1 then o + (hi - lo + 1) as real * h
    else o + ((i - lo) as real + 0.5) * h
  }

  lemma NeighbourPositions(i: int, lo: int, hi: int, periodic: bool, o: real, h: real)
    requires lo <= i <= hi && (!periodic ==> lo < hi)
    ensures var s, x := SideAt(i, lo, hi, periodic), Position(i, lo, hi, periodic, o, h);
      && Position(i + 1, lo, hi, periodic, o, h) == NextAt(s, x, h)
      && Position(i - 1, lo, hi, periodic, o, h) == PrevAt(s, x, h)
  {
    var n := (i - lo) as real;
    assert (n + 1.0 + 0.5) * h == (n + 0.5) * h + h && (n - 1.0 + 0.5) * h == (n + 0.5) * h - h;
    assert (n + 1.0) * h == (n + 0.5) * h + h / 2.0;
    assert (i + 1 - lo) as real == n + 1.0 && (i - 1 - lo) as real == n - 1.0;
  }

  function PositionX(g: Grid, i: int): real { Position(i, g.d.ilo, g.d.ihi, g.p.x, g.x0, g.hx) }

  function PositionY(g: Grid, j: int): real { Position(j, g.d.jlo, g.d.jhi, g.p.y, g.y0, g.hy) }

  function PositionZ(g: Grid, k: int): real { Position(k, g.d.klo, g.d.khi, g.p.z, g.z0, g.hz) }

  /** Coefficients of the parabola that a field follows along one line of cells. */
  datatype Coefficients = Coefficients(a: real, b: real, c: real)

  function On(p: Coefficients, x: real): real { Parabola(p.a, p.b, p.c, x) }

  /** The stored values on the line through a cell follow the parabola `p`: at cell
      centres, and on the end faces for ghost cells. */
  ghost predicate FollowsX(phi: CellField, g: Grid, j: int, k: int, p: Coefficients) {
    forall i :: g.d.ilo - 1 <= i <= g.d.ihi + 1 ==> phi(i, j, k) == On(p, PositionX(g, i))
  }

  ghost predicate FollowsY(phi: CellField, g: Grid, i: int, k: int, p: Coefficients) {
    forall j :: g.d.jlo - 1 <= j <= g.d.jhi + 1 ==> phi(i, j, k) == On(p, PositionY(g, j))
  }

  ghost predicate FollowsZ(phi: CellField, g: Grid, i: int, j: int, p: Coefficients) {
    forall k :: g.d.klo - 1 <= k <= g.d.khi + 1 ==> phi(i, j, k) == On(p, PositionZ(g, k))
  }

  predicate InGrid(g: Grid, i: int, j: int, k: int) {
    InDomain(i, j, k, g.d) && TwoCells(g.d, g.p)
  }

  predicate Inverts(idx: Inverse, g: Grid) {
    g.hx * idx.x == 1.0 && g.hy * idx.y == 1.0 && g.hz * idx.z == 1.0
  }

  function TableAt(g: Grid, i: int, j: int, k: int): Table {
    TableFor(DirectionalSides(i, j, k, g.d, g.p))
  }

  /** The three rows of a side are exact: first and second derivative for a parabola,
      the value itself for a straight line. */
  ghost predicate Exact(s: Side, p: Coefficients, x: real, e: real, next: real, same: real, prev: real) {
    && Weigh(FirstRow(s), next, same, prev) * e == 2.0 * p.a * x + p.b
    && Weigh(SecondRow(s), next, same, prev) * e * e == 2.0 * p.a
    && (p.a == 0.0 ==> Weigh(FilterRow(s), next, same, prev) == same)
  }

  lemma ExactBetween(s: Side, p: Coefficients, h: real, e: real, xnext: real, x: real, xprev: real,
                     next: real, same: real, prev: real)
    requires h * e == 1.0 && xnext == NextAt(s, x, h) && xprev == PrevAt(s, x, h)
    requires next == On(p, xnext) && same == On(p, x) && prev == On(p, xprev)
    ensures Exact(s, p, x, e, next, same, prev)
  {
    ExactAlongLine(s, p.a, p.b, p.c, x, h, e, next, same, prev);
  }

  lemma ExactAt(i: int, lo: int, hi: int, periodic: bool, o: real, h: real, e: real, p: Coefficients,
                next: real, same: real, prev: real)
    requires lo <= i <= hi && (!periodic ==> lo < hi) && h * e == 1.0
    requires next == On(p, Position(i + 1, lo, hi, periodic, o, h))
    requires same == On(p, Position(i, lo, hi, periodic, o, h))
    requires prev == On(p, Position(i - 1, lo, hi, periodic, o, h))
    ensures Exact(SideAt(i, lo, hi, periodic), p, Position(i, lo, hi, periodic, o, h), e, next, same, prev)
  {
    NeighbourPositions(i, lo, hi, periodic, o, h);
    ExactBetween(SideAt(i, lo, hi, periodic), p, h, e, Position(i + 1, lo, hi, periodic, o, h),
                 Position(i, lo, hi, periodic, o, h), Position(i - 1, lo, hi, periodic, o, h), next, same, prev);
  }

  lemma ExactInX(phi: CellField, g: Grid, e: real, i: int, j: int, k: int, p: Coefficients)
    requires InGrid(g, i, j, k) && g.hx * e == 1.0 && FollowsX(phi, g, j, k, p)
    ensures Exact(SideAt(i, g.d.ilo, g.d.ihi, g.p.x), p, PositionX(g, i), e,
                  phi(i + 1, j, k), phi(i, j, k), phi(i - 1, j, k))
  {
    ExactAt(i, g.d.ilo, g.d.ihi, g.p.x, g.x0, g.hx, e, p, phi(i + 1, j, k), phi(i, j, k), phi(i - 1, j, k));
  }

  lemma ExactInY(phi: CellField, g: Grid, e: real, i: int, j: int, k: int, p: Coefficients)
    requires InGrid(g, i, j, k) && g.hy * e == 1.0 && FollowsY(phi, g, i, k, p)
    ensures Exact(SideAt(j, g.d.jlo, g.d.jhi, g.p.y), p, PositionY(g, j), e,
                  phi(i, j + 1, k), phi(i, j, k), phi(i, j - 1, k))
  {
    ExactAt(j, g.d.jlo, g.d.jhi, g.p.y, g.y0, g.hy, e, p, phi(i, j + 1, k), phi(i, j, k), phi(i, j - 1, k));
  }

  lemma ExactInZ(phi: CellField, g: Grid, e: real, i: int, j: int, k: int, p: Coefficients)
    requires InGrid(g, i, j, k) && g.hz * e == 1.0 && FollowsZ(phi, g, i, j, p)
    ensures Exact(SideAt(k, g.d.klo, g.d.khi, g.p.z), p, PositionZ(g, k), e,
                  phi(i, j, k + 1), phi(i, j, k), phi(i, j, k - 1))
  {
    ExactAt(k, g.d.klo, g.d.khi, g.p.z, g.z0, g.hz, e, p, phi(i, j, k + 1), phi(i, j, k), phi(i, j, k - 1));
  }

  /** The rows used in the three directions at a cell are exact. */
  ghost predicate ExactRows(u: CellField, v: CellField, w: CellField, g: Grid, idx: Inverse, i: int, j: int, k: int,
                            px: Coefficients, py: Coefficients, pz: Coefficients) {
    && Exact(SideAt(i, g.d.ilo, g.d.ihi, g.p.x), px, PositionX(g, i), idx.x, u(i + 1, j, k), u(i, j, k), u(i - 1, j, k))
    && Exact(SideAt(j, g.d.jlo, g.d.jhi, g.p.y), py, PositionY(g, j), idx.y, v(i, j + 1, k), v(i, j, k), v(i, j - 1, k))
    && Exact(SideAt(k, g.d.klo, g.d.khi, g.p.z), pz, PositionZ(g, k), idx.z, w(i, j, k + 1), w(i, j, k), w(i, j, k - 1))
  }

  lemma RowsAreExact(u: CellField, v: CellField, w: CellField, g: Grid, idx: Inverse, i: int, j: int, k: int,
                     px: Coefficients, py: Coefficients, pz: Coefficients)
    requires InGrid(g, i, j, k) && Inverts(idx, g)
    requires FollowsX(u, g, j, k, px) && FollowsY(v, g, i, k, py) && FollowsZ(w, g, i, j, pz)
    ensures ExactRows(u, v, w, g, idx, i, j, k, px, py, pz)
  {
    ExactInX(u, g, idx.x, i, j, k, px);
    ExactInY(v, g, idx.y, i, j, k, py);
    ExactInZ(w, g, idx.z, i, j, k, pz);
  }

  /** Slope of a parabola. */
  function Slope(p: Coefficients, x: real): real { 2.0 * p.a * x + p.b }

  lemma GradientFromRows(phi: CellField, g: Grid, idx: Inverse, i: int, j: int, k: int,
                         px: Coefficients, py: Coefficients, pz: Coefficients)
    requires ExactRows(phi, phi, phi, g, idx, i, j, k, px, py, pz)
    ensures GradientOf(TableAt(g, i, j, k), phi, idx, i, j, k)
            == Vector(Slope(px, PositionX(g, i)), Slope(py, PositionY(g, j)), Slope(pz, PositionZ(g, k)))
  {
  }

  /** The gradient is exact for every field that is quadratic along each axis, in
      every cell, the cells at faces, edges and corners of the domain included. */
  lemma GradientExact(phi: CellField, g: Grid, idx: Inverse, i: int, j: int, k: int,
                      px: Coefficients, py: Coefficients, pz: Coefficients)
    requires InGrid(g, i, j, k) && Inverts(idx, g)
    requires FollowsX(phi, g, j, k, px) && FollowsY(phi, g, i, k, py) && FollowsZ(phi, g, i, j, pz)
    ensures GradientOf(TableAt(g, i, j, k), phi, idx, i, j, k)
            == Vector(Slope(px, PositionX(g, i)), Slope(py, PositionY(g, j)), Slope(pz, PositionZ(g, k)))
  {
    RowsAreExact(phi, phi, phi, g, idx, i, j, k, px, py, pz);
    GradientFromRows(phi, g, idx, i, j, k, px, py, pz);
  }

  lemma DivergenceFromRows(u: CellField, v: CellField, w: CellField, g: Grid, idx: Inverse, i: int, j: int, k: int,
                           px: Coefficients, py: Coefficients, pz: Coefficients)
    requires ExactRows(u, v, w, g, idx, i, j, k, px, py, pz)
    ensures DivergenceOf(TableAt(g, i, j, k), u, v, w, idx, i, j, k)
            == Slope(px, PositionX(g, i)) + Slope(py, PositionY(g, j)) + Slope(pz, PositionZ(g, k))
    ensures LaplacianOf(TableAt(g, i, j, k), u, v, w, idx, i, j, k) == 2.0 * px.a + 2.0 * py.a + 2.0 * pz.a
  {
  }

  /** So are the divergence of a vector of such fields and the Laplacian kernel. */
  lemma DivergenceExact(u: CellField, v: CellField, w: CellField, g: Grid, idx: Inverse, i: int, j: int, k: int,
                        px: Coefficients, py: Coefficients, pz: Coefficients)
    requires InGrid(g, i, j, k) && Inverts(idx, g)
    requires FollowsX(u, g, j, k, px) && FollowsY(v, g, i, k, py) && FollowsZ(w, g, i, j, pz)
    ensures DivergenceOf(TableAt(g, i, j, k), u, v, w, idx, i, j, k)
            == Slope(px, PositionX(g, i)) + Slope(py, PositionY(g, j)) + Slope(pz, PositionZ(g, k))
    ensures LaplacianOf(TableAt(g, i, j, k), u, v, w, idx, i, j, k) == 2.0 * px.a + 2.0 * py.a + 2.0 * pz.a
  {
    RowsAreExact(u, v, w, g, idx, i, j, k, px, py, pz);
    DivergenceFromRows(u, v, w, g, idx, i, j, k, px, py, pz);
  }

  lemma FilterFromRows(phi: CellField, g: Grid, idx: Inverse, i: int, j: int, k: int,
                       px: Coefficients, py: Coefficients, pz: Coefficients)
    requires ExactRows(phi, phi, phi, g, idx, i, j, k, px, py, pz) && px.a == py.a == pz.a == 0.0
    ensures FilterOf(TableAt(g, i, j, k), phi, i, j, k) == phi(i, j, k)
  {
  }

  /** The filter reproduces every field that is affine along each axis. */
  lemma FilterReproducesAffine(phi: CellField, g: Grid, idx: Inverse, i: int, j: int, k: int,
                               px: Coefficients, py: Coefficients, pz: Coefficients)
    requires InGrid(g, i, j, k) && Inverts(idx, g) && px.a == py.a == pz.a == 0.0
    requires FollowsX(phi, g, j, k, px) && FollowsY(phi, g, i, k, py) && FollowsZ(phi, g, i, j, pz)
    ensures FilterOf(TableAt(g, i, j, k), phi, i, j, k) == phi(i, j, k)
  {
    RowsAreExact(phi, phi, phi, g, idx, i, j, k, px, py, pz);
    FilterFromRows(phi, g, idx, i, j, k, px, py, pz);
  }

  /** What the filter adds along an axis to a field that is a parabola along it. */
  function Added(s: Side, p: Coefficients, h: real): real { Smoothing(s) * (p.a * (h * h)) }

  /** A row of the filter adds its share of the curvature. */
  predicate Smooths(s: Side, p: Coefficients, h: real, next: real, same: real, prev: real) {
    Weigh(FilterRow(s), next, same, prev) == same + Added(s, p, h)
  }

  lemma SmoothBetween(s: Side, p: Coefficients, h: real, xnext: real, x: real, xprev: real,
                      next: real, same: real, prev: real)
    requires xnext == NextAt(s, x, h) && xprev == PrevAt(s, x, h)
    requires next == On(p, xnext) && same == On(p, x) && prev == On(p, xprev)
    ensures Smooths(s, p, h, next, same, prev)
  {
    RowsOnParabola(s, p.a, p.b, p.c, x, h, next, same, prev);
  }

  lemma SmoothAt(i: int, lo: int, hi: int, periodic: bool, o: real, h: real, p: Coefficients,
                 next: real, same: real, prev: real)
    requires lo <= i <= hi && (!periodic ==> lo < hi)
    requires next == On(p, Position(i + 1, lo, hi, periodic, o, h))
    requires same == On(p, Position(i, lo, hi, periodic, o, h))
    requires prev == On(p, Position(i - 1, lo, hi, periodic, o, h))
    ensures Smooths(SideAt(i, lo, hi, periodic), p, h, next, same, prev)
  {
    NeighbourPositions(i, lo, hi, periodic, o, h);
    SmoothBetween(SideAt(i, lo, hi, periodic), p, h, Position(i + 1, lo, hi, periodic, o, h),
                  Position(i, lo, hi, periodic, o, h), Position(i - 1, lo, hi, periodic, o, h), next, same, prev);
  }

  lemma SmoothInX(phi: CellField, g: Grid, i: int, j: int, k: int, p: Coefficients)
    requires InGrid(g, i, j, k) && FollowsX(phi, g, j, k, p)
    ensures Smooths(SideAt(i, g.d.ilo, g.d.ihi, g.p.x), p, g.hx, phi(i + 1, j, k), phi(i, j, k), phi(i - 1, j, k))
  {
    SmoothAt(i, g.d.ilo, g.d.ihi, g.p.x, g.x0, g.hx, p, phi(i + 1, j, k), phi(i, j, k), phi(i - 1, j, k));
  }

  lemma SmoothInY(phi: CellField, g: Grid, i: int, j: int, k: int, p: Coefficients)
    requires InGrid(g, i, j, k) && FollowsY(phi, g, i, k, p)
    ensures Smooths(SideAt(j, g.d.jlo, g.d.jhi, g.p.y), p, g.hy, phi(i, j + 1, k), phi(i, j, k), phi(i, j - 1, k))
  {
    SmoothAt(j, g.d.jlo, g.d.jhi, g.p.y, g.y0, g.hy, p, phi(i, j + 1, k), phi(i, j, k), phi(i, j - 1, k));
  }

  lemma SmoothInZ(phi: CellField, g: Grid, i: int, j: int, k: int, p: Coefficients)
    requires InGrid(g, i, j, k) && FollowsZ(phi, g, i, j, p)
    ensures Smooths(SideAt(k, g.d.klo, g.d.khi, g.p.z), p, g.hz, phi(i, j, k + 1), phi(i, j, k), phi(i, j, k - 1))
  {
    SmoothAt(k, g.d.klo, g.d.khi, g.p.z, g.z0, g.hz, p, phi(i, j, k + 1), phi(i, j, k), phi(i, j, k - 1));
  }

  /** On a field that is quadratic along each axis the filter adds a third of the smoothing
      along each of them, in every cell. */
  lemma FilterSmoothes(phi: CellField, g: Grid, i: int, j: int, k: int,
                       px: Coefficients, py: Coefficients, pz: Coefficients)
    requires InGrid(g, i, j, k)
    requires FollowsX(phi, g, j, k, px) && FollowsY(phi, g, i, k, py) && FollowsZ(phi, g, i, j, pz)
    ensures var s := DirectionalSides(i, j, k, g.d, g.p);
      3.0 * (FilterOf(TableAt(g, i, j, k), phi, i, j, k) - phi(i, j, k))
      == Added(s.x, px, g.hx) + Added(s.y, py, g.hy) + Added(s.z, pz, g.hz)
  {
    var s := DirectionalSides(i, j, k, g.d, g.p);
    SmoothInX(phi, g, i, j, k, px);
    SmoothInY(phi, g, i, j, k, py);
    SmoothInZ(phi, g, i, j, k, pz);
    ThirdOfRows(TableAt(g, i, j, k), s, phi, i, j, k, Added(s.x, px, g.hx), Added(s.y, py, g.hy), Added(s.z, pz, g.hz));
  }

  lemma ThirdOfRows(t: Table, s: Sides, phi: CellField, i: int, j: int, k: int, x: real, y: real, z: real)
    requires t == TableFor(s)
    requires Weigh(FilterRow(s.x), phi(i + 1, j, k), phi(i, j, k), phi(i - 1, j, k)) == phi(i, j, k) + x
    requires Weigh(FilterRow(s.y), phi(i, j + 1, k), phi(i, j, k), phi(i, j - 1, k)) == phi(i, j, k) + y
    requires Weigh(FilterRow(s.z), phi(i, j, k + 1), phi(i, j, k), phi(i, j, k - 1)) == phi(i, j, k) + z
    ensures 3.0 * (FilterOf(t, phi, i, j, k) - phi(i, j, k)) == x + y + z
  {
    assert t.f.x == FilterRow(s.x) && t.f.y == FilterRow(s.y) && t.f.z == FilterRow(s.z);
  }

  // ------------------------------------------------- quadratic polynomials in space

  datatype Poly = Poly(c: real, lx: real, ly: real, lz: real, cxx: real, cyy: real, czz: real,
                       cxy: real, cxz: real, cyz: real)

  function Value(q: Poly, x: real, y: real, z: real): real {
    q.cxx * (x * x) + q.cyy * (y * y) + q.czz * (z * z) + q.cxy * (x * y) + q.cxz * (x * z) + q.cyz * (y * z)
    + q.lx * x + q.ly * y + q.lz * z + q.c
  }

  /** The polynomial along a line in x; likewise in y and z. */
  function SliceX(q: Poly, y: real, z: real): Coefficients {
    Coefficients(q.cxx, q.lx + q.cxy * y + q.cxz * z, Value(q, 0.0, y, z))
  }

  function SliceY(q: Poly, x: real, z: real): Coefficients {
    Coefficients(q.cyy, q.ly + q.cxy * x + q.cyz * z, Value(q, x, 0.0, z))
  }

  function SliceZ(q: Poly, x: real, y: real): Coefficients {
    Coefficients(q.czz, q.lz + q.cxz * x + q.cyz * y, Value(q, x, y, 0.0))
  }

  lemma SlopeTimes(b: real, c: real, e: real, x: real, y: real, z: real)
    ensures (b + c * y + e * z) * x == b * x + c * (x * y) + e * (x * z)
    ensures (b + c * y + e * z) * x == b * x + c * (y * x) + e * (x * z)
    ensures (b + c * y + e * z) * x == b * x + c * (y * x) + e * (z * x)
  {
  }

  /** Slicing a quadratic polynomial along an axis leaves a parabola. */
  lemma SlicesAreParabolas(q: Poly, x: real, y: real, z: real)
    ensures Value(q, x, y, z) == On(SliceX(q, y, z), x)
    ensures Value(q, x, y, z) == On(SliceY(q, x, z), y)
    ensures Value(q, x, y, z) == On(SliceZ(q, x, y), z)
  {
    SliceXIsParabola(q, x, y, z);
    SliceYIsParabola(q, x, y, z);
    SliceZIsParabola(q, x, y, z);
  }

  lemma SliceXIsParabola(q: Poly, x: real, y: real, z: real)
    ensures Value(q, x, y, z) == On(SliceX(q, y, z), x)
  {
    SlopeTimes(q.lx, q.cxy, q.cxz, x, y, z);
  }

  lemma SliceYIsParabola(q: Poly, x: real, y: real, z: real)
    ensures Value(q, x, y, z) == On(SliceY(q, x, z), y)
  {
    SlopeTimes(q.ly, q.cxy, q.cyz, y, x, z);
  }

  lemma SliceZIsParabola(q: Poly, x: real, y: real, z: real)
    ensures Value(q, x, y, z) == On(SliceZ(q, x, y), z)
  {
    SlopeTimes(q.lz, q.cxz, q.cyz, z, x, y);
  }

  /** Stored values are samples of a polynomial: at cell centres, and on the faces of
      the domain for ghost cells. */
  ghost predicate SampledFrom(phi: CellField, g: Grid, q: Poly) {
    forall i, j, k :: InReach(g.d, i, j, k) ==>
      phi(i, j, k) == Value(q, PositionX(g, i), PositionY(g, j), PositionZ(g, k))
  }

  /** A cell of the domain or of the layer of ghost cells around it. */
  predicate InReach(d: Domain, i: int, j: int, k: int) {
    d.ilo - 1 <= i <= d.ihi + 1 && d.jlo - 1 <= j <= d.jhi + 1 && d.klo - 1 <= k <= d.khi + 1
  }

  lemma SamplesFollowSlices(phi: CellField, g: Grid, q: Poly, i: int, j: int, k: int)
    requires SampledFrom(phi, g, q) && InDomain(i, j, k, g.d)
    ensures FollowsX(phi, g, j, k, SliceX(q, PositionY(g, j), PositionZ(g, k)))
    ensures FollowsY(phi, g, i, k, SliceY(q, PositionX(g, i), PositionZ(g, k)))
    ensures FollowsZ(phi, g, i, j, SliceZ(q, PositionX(g, i), PositionY(g, j)))
  {
    forall m | g.d.ilo - 1 <= m <= g.d.ihi + 1
      ensures phi(m, j, k) == On(SliceX(q, PositionY(g, j), PositionZ(g, k)), PositionX(g, m))
    {
      SliceXIsParabola(q, PositionX(g, m), PositionY(g, j), PositionZ(g, k));
    }
    forall m | g.d.jlo - 1 <= m <= g.d.jhi + 1
      ensures phi(i, m, k) == On(SliceY(q, PositionX(g, i), PositionZ(g, k)), PositionY(g, m))
    {
      SliceYIsParabola(q, PositionX(g, i), PositionY(g, m), PositionZ(g, k));
    }
    forall m | g.d.klo - 1 <= m <= g.d.khi + 1
      ensures phi(i, j, m) == On(SliceZ(q, PositionX(g, i), PositionY(g, j)), PositionZ(g, m))
    {
      SliceZIsParabola(q, PositionX(g, i), PositionY(g, j), PositionZ(g, m));
    }
  }

  /** The partial derivatives of a polynomial. */
  function Derivative(q: Poly, x: real, y: real, z: real): Vector {
    Vector(2.0 * q.cxx * x + (q.lx + q.cxy * y + q.cxz * z), 2.0 * q.cyy * y + (q.ly + q.cxy * x + q.cyz * z),
           2.0 * q.czz * z + (q.lz + q.cxz * x + q.cyz * y))
  }

  /** The gradient of every quadratic polynomial is exact in every cell. */
  lemma QuadraticGradientExact(phi: CellField, g: Grid, idx: Inverse, q: Poly, i: int, j: int, k: int)
    requires InGrid(g, i, j, k) && Inverts(idx, g) && SampledFrom(phi, g, q)
    ensures GradientOf(TableAt(g, i, j, k), phi, idx, i, j, k)
            == Derivative(q, PositionX(g, i), PositionY(g, j), PositionZ(g, k))
  {
    var x, y, z := PositionX(g, i), PositionY(g, j), PositionZ(g, k);
    assert GradientOf(TableAt(g, i, j, k), phi, idx, i, j, k) == SlopesOfSlices(q, x, y, z) by {
      SamplesFollowSlices(phi, g, q, i, j, k);
      GradientExact(phi, g, idx, i, j, k, SliceX(q, y, z), SliceY(q, x, z), SliceZ(q, x, y));
    }
    SlopesAreDerivative(q, x, y, z);
  }

  function SlopesOfSlices(q: Poly, x: real, y: real, z: real): Vector {
    Vector(Slope(SliceX(q, y, z), x), Slope(SliceY(q, x, z), y), Slope(SliceZ(q, x, y), z))
  }

  lemma SlopesAreDerivative(q: Poly, x: real, y: real, z: real)
    ensures SlopesOfSlices(q, x, y, z) == Derivative(q, x, y, z)
  {
  }

  // ------------------------------------------------------ conservation when periodic

  function Cells(d: Domain): Box {
    Box(d.ilo, d.ihi + 1, d.jlo, d.jhi + 1, d.klo, d.khi + 1)
  }

  /** Ghost cells repeat the values at the other end of the box along an axis. */
  ghost predicate RepeatsAlong(f: CellField, b: Box, a: Axis) {
    var lo, hi := SmallEnd(b, a), BigEnd(b, a);
    forall c :: Across(b, c, a) ==>
      && ValueAt(f, Moved(c, a, lo - 1)) == ValueAt(f, Moved(c, a, hi))
      && ValueAt(f, Moved(c, a, hi + 1)) == ValueAt(f, Moved(c, a, lo))
  }

  ghost predicate Repeats(f: CellField, b: Box) {
    RepeatsAlong(f, b, AxisX) && RepeatsAlong(f, b, AxisY) && RepeatsAlong(f, b, AxisZ)
  }

  const ALL_PERIODIC := Periodic(true, true, true)

  const INNER := TableFor(Sides(Mid, Mid, Mid))

  lemma PeriodicTable(d: Domain, i: int, j: int, k: int)
    ensures TableFor(DirectionalSides(i, j, k, d, ALL_PERIODIC)) == INNER
  {
  }

  lemma CentralDifference(e: real, next: real, same: real, prev: real)
    ensures Weigh(FirstRow(Mid), next, same, prev) * e == -0.5 * (same + prev) * e - -0.5 * (next + same) * e
  {
  }

  lemma SameMean(p: real, q: real, r: real, s: real, e: real)
    requires p == r && q == s
    ensures -0.5 * (p + q) * e == -0.5 * (r + s) * e
  {
  }

  /** A third of what a row of the filter adds to its middle value. */
  function Spread3(next: real, same: real, prev: real): real { (next - 2.0 * same + prev) / 12.0 }

  lemma SecondDifference(next: real, same: real, prev: real)
    ensures Spread3(next, same, prev) == (prev - same) / 12.0 - (same - next) / 12.0
  {
  }

  /** The row applied along an axis. */
  function Along(a: Axis, r: Row, u: CellField, c: IntVect): real {
    Weigh(r, ValueAt(u, Ahead(c, a)), ValueAt(u, c), ValueAt(u, Back(c, a)))
  }

  lemma StepThereAndBack(c: IntVect, a: Axis, x: int)
    ensures Back(Ahead(c, a), a) == c
    ensures Back(Moved(c, a, x), a) == Moved(c, a, x - 1)
  {
  }

  /** A face value whose differences along an axis are central differences of a field. */
  function MeanAt(u: CellField, a: Axis, e: real, c: IntVect): real {
    -0.5 * (ValueAt(u, c) + ValueAt(u, Back(c, a))) * e
  }

  function Mean(u: CellField, a: Axis, e: real): CellField { (i, j, k) => MeanAt(u, a, e, IntVect(i, j, k)) }

  lemma MeanCloses(u: CellField, a: Axis, e: real, b: Box)
    requires RepeatsAlong(u, b, a)
    ensures Closes(Mean(u, a, e), b, a)
  {
    var lo, hi := SmallEnd(b, a), BigEnd(b, a);
    forall c | Across(b, c, a)
      ensures ValueAt(Mean(u, a, e), Moved(c, a, lo)) == ValueAt(Mean(u, a, e), Moved(c, a, hi + 1))
    {
      StepThereAndBack(c, a, lo);
      StepThereAndBack(c, a, hi + 1);
      SameMean(ValueAt(u, Moved(c, a, lo)), ValueAt(u, Moved(c, a, lo - 1)),
               ValueAt(u, Moved(c, a, hi + 1)), ValueAt(u, Moved(c, a, hi)), e);
    }
  }

  lemma MeanSteps(u: CellField, a: Axis, e: real, c: IntVect)
    ensures Along(a, FirstRow(Mid), u, c) * e == MeanAt(u, a, e, c) - MeanAt(u, a, e, Ahead(c, a))
  {
    StepThereAndBack(c, a, 0);
    CentralDifference(e, ValueAt(u, Ahead(c, a)), ValueAt(u, c), ValueAt(u, Back(c, a)));
  }

  /** A field holds the central differences of another along an axis. */
  ghost predicate IsDerivative(u: CellField, a: Axis, e: real, d: CellField, b: Box) {
    forall c {:trigger ValueAt(d, c)} :: Inside(b, c) ==> ValueAt(d, c) == Along(a, FirstRow(Mid), u, c) * e
  }

  /** Central differences of a field that repeats along their axis add up to nothing. */
  lemma DerivativeVanishes(u: CellField, a: Axis, e: real, d: CellField, b: Box)
    requires Proper(b) && RepeatsAlong(u, b, a) && IsDerivative(u, a, e, d, b)
    ensures Total(d, b) == 0.0
  {
    var f := Mean(u, a, e);
    forall c | Inside(b, c)
      ensures ValueAt(d, c) == ValueAt(f, c) - ValueAt(f, Ahead(c, a))
    {
      MeanSteps(u, a, e, c);
    }
    MeanCloses(u, a, e, b);
    ClosedSteps(f, d, b, a);
  }

  /** What the filter adds to a cell along an axis. */
  function SpreadAt(phi: CellField, a: Axis, c: IntVect): real {
    Spread3(ValueAt(phi, Ahead(c, a)), ValueAt(phi, c), ValueAt(phi, Back(c, a)))
  }

  function JumpAt(phi: CellField, a: Axis, c: IntVect): real {
    (ValueAt(phi, Back(c, a)) - ValueAt(phi, c)) / 12.0
  }

  function Jump(phi: CellField, a: Axis): CellField { (i, j, k) => JumpAt(phi, a, IntVect(i, j, k)) }

  lemma JumpCloses(phi: CellField, a: Axis, b: Box)
    requires RepeatsAlong(phi, b, a)
    ensures Closes(Jump(phi, a), b, a)
  {
    var lo, hi := SmallEnd(b, a), BigEnd(b, a);
    forall c | Across(b, c, a)
      ensures ValueAt(Jump(phi, a), Moved(c, a, lo)) == ValueAt(Jump(phi, a), Moved(c, a, hi + 1))
    {
      StepThereAndBack(c, a, lo);
      StepThereAndBack(c, a, hi + 1);
    }
  }

  lemma JumpSteps(phi: CellField, a: Axis, c: IntVect)
    ensures SpreadAt(phi, a, c) == JumpAt(phi, a, c) - JumpAt(phi, a, Ahead(c, a))
  {
    StepThereAndBack(c, a, 0);
    SecondDifference(ValueAt(phi, Ahead(c, a)), ValueAt(phi, c), ValueAt(phi, Back(c, a)));
  }

  /** A field holds what the filter adds along an axis. */
  ghost predicate IsSpread(phi: CellField, a: Axis, d: CellField, b: Box) {
    forall c {:trigger ValueAt(d, c)} :: Inside(b, c) ==> ValueAt(d, c) == SpreadAt(phi, a, c)
  }

  lemma SpreadVanishes(phi: CellField, a: Axis, d: CellField, b: Box)
    requires Proper(b) && RepeatsAlong(phi, b, a) && IsSpread(phi, a, d, b)
    ensures Total(d, b) == 0.0
  {
    var f := Jump(phi, a);
    forall c | Inside(b, c)
      ensures ValueAt(d, c) == ValueAt(f, c) - ValueAt(f, Ahead(c, a))
    {
      JumpSteps(phi, a, c);
    }
    JumpCloses(phi, a, b);
    ClosedSteps(f, d, b, a);
  }

  /** In the interior the three directions use the same rows. */
  lemma InnerRows()
    ensures INNER.c == Rows(FirstRow(Mid), FirstRow(Mid), FirstRow(Mid))
    ensures INNER.f == Rows(FilterRow(Mid), FilterRow(Mid), FilterRow(Mid))
  {
  }

  /** On a periodic box of any size each component of the gradient adds up to zero:
      `dx`, `dy` and `dz` are the components it leaves in the cells. */
  lemma PeriodicGradientVanishes(phi: CellField, idx: Inverse, dx: CellField, dy: CellField, dz: CellField, d: Domain)
    requires Proper(Cells(d)) && Repeats(phi, Cells(d)) && IsGradient(phi, idx, dx, dy, dz, Cells(d))
    ensures Total(dx, Cells(d)) == 0.0 && Total(dy, Cells(d)) == 0.0 && Total(dz, Cells(d)) == 0.0
  {
    GradientParts(phi, idx, dx, dy, dz, Cells(d));
    DerivativeVanishes(phi, AxisX, idx.x, dx, Cells(d));
    DerivativeVanishes(phi, AxisY, idx.y, dy, Cells(d));
    DerivativeVanishes(phi, AxisZ, idx.z, dz, Cells(d));
  }

  /** The three fields hold the interior gradient of `phi`. */
  ghost predicate IsGradient(phi: CellField, idx: Inverse, dx: CellField, dy: CellField, dz: CellField, b: Box) {
    forall i, j, k :: In(b, i, j, k) ==>
      GradientOf(INNER, phi, idx, i, j, k) == Vector(dx(i, j, k), dy(i, j, k), dz(i, j, k))
  }

  lemma InnerGradient(phi: CellField, idx: Inverse, i: int, j: int, k: int)
    ensures var c, r := IntVect(i, j, k), FirstRow(Mid);
      GradientOf(INNER, phi, idx, i, j, k)
      == Vector(Along(AxisX, r, phi, c) * idx.x, Along(AxisY, r, phi, c) * idx.y, Along(AxisZ, r, phi, c) * idx.z)
  {
    InnerRows();
  }

  lemma GradientParts(phi: CellField, idx: Inverse, dx: CellField, dy: CellField, dz: CellField, b: Box)
    requires IsGradient(phi, idx, dx, dy, dz, b)
    ensures IsDerivative(phi, AxisX, idx.x, dx, b)
    ensures IsDerivative(phi, AxisY, idx.y, dy, b)
    ensures IsDerivative(phi, AxisZ, idx.z, dz, b)
  {
    forall c | Inside(b, c)
      ensures Vector(ValueAt(dx, c), ValueAt(dy, c), ValueAt(dz, c))
              == Vector(Along(AxisX, FirstRow(Mid), phi, c) * idx.x, Along(AxisY, FirstRow(Mid), phi, c) * idx.y,
                        Along(AxisZ, FirstRow(Mid), phi, c) * idx.z)
    {
      InnerGradient(phi, idx, c.i, c.j, c.k);
      assert GradientOf(INNER, phi, idx, c.i, c.j, c.k) == Vector(ValueAt(dx, c), ValueAt(dy, c), ValueAt(dz, c));
    }
  }

  function PartAt(u: CellField, a: Axis, e: real, i: int, j: int, k: int): real {
    Along(a, FirstRow(Mid), u, IntVect(i, j, k)) * e
  }

  function Part(u: CellField, a: Axis, e: real): CellField { (i, j, k) => PartAt(u, a, e, i, j, k) }

  lemma PartIsDerivative(u: CellField, a: Axis, e: real, b: Box)
    ensures IsDerivative(u, a, e, Part(u, a, e), b)
  {
  }

  ghost predicate IsDivergence(u: CellField, v: CellField, w: CellField, idx: Inverse, div: CellField, b: Box) {
    forall i, j, k {:trigger div(i, j, k)} :: In(b, i, j, k) ==>
      div(i, j, k) == DivergenceOf(INNER, u, v, w, idx, i, j, k)
  }

  lemma InnerDivergence(u: CellField, v: CellField, w: CellField, idx: Inverse, i: int, j: int, k: int)
    ensures DivergenceOf(INNER, u, v, w, idx, i, j, k)
            == PartAt(u, AxisX, idx.x, i, j, k) + PartAt(v, AxisY, idx.y, i, j, k) + PartAt(w, AxisZ, idx.z, i, j, k)
  {
    InnerRows();
  }

  /** And so does the divergence. */
  lemma PeriodicDivergenceVanishes(u: CellField, v: CellField, w: CellField, idx: Inverse, div: CellField, d: Domain)
    requires Proper(Cells(d)) && Repeats(u, Cells(d)) && Repeats(v, Cells(d)) && Repeats(w, Cells(d))
    requires IsDivergence(u, v, w, idx, div, Cells(d))
    ensures Total(div, Cells(d)) == 0.0
  {
    var b, p, q, r := Cells(d), Part(u, AxisX, idx.x), Part(v, AxisY, idx.y), Part(w, AxisZ, idx.z);
    forall i, j, k | In(b, i, j, k)
      ensures div(i, j, k) == p(i, j, k) + q(i, j, k) + r(i, j, k)
    {
      InnerDivergence(u, v, w, idx, i, j, k);
    }
    TotalAdd3(p, q, r, div, b);
    PartVanishes(u, AxisX, idx.x, b);
    PartVanishes(v, AxisY, idx.y, b);
    PartVanishes(w, AxisZ, idx.z, b);
  }

  lemma PartVanishes(u: CellField, a: Axis, e: real, b: Box)
    requires Proper(b) && RepeatsAlong(u, b, a)
    ensures Total(Part(u, a, e), b) == 0.0
  {
    PartIsDerivative(u, a, e, b);
    DerivativeVanishes(u, a, e, Part(u, a, e), b);
  }

  function SpreadOf(phi: CellField, a: Axis, i: int, j: int, k: int): real { SpreadAt(phi, a, IntVect(i, j, k)) }

  function Spread(phi: CellField, a: Axis): CellField { (i, j, k) => SpreadOf(phi, a, i, j, k) }

  lemma SpreadTotal(phi: CellField, a: Axis, b: Box)
    requires Proper(b) && RepeatsAlong(phi, b, a)
    ensures Total(Spread(phi, a), b) == 0.0
  {
    assert IsSpread(phi, a, Spread(phi, a), b);
    SpreadVanishes(phi, a, Spread(phi, a), b);
  }

  lemma FilterIdentity(s: real, xn: real, xp: real, yn: real, yp: real, zn: real, zp: real)
    ensures 1.0 / 3.0 * (Weigh(FilterRow(Mid), xn, s, xp) + Weigh(FilterRow(Mid), yn, s, yp)
                         + Weigh(FilterRow(Mid), zn, s, zp))
            == s + (Spread3(xn, s, xp) + Spread3(yn, s, yp) + Spread3(zn, s, zp))
  {
  }

  lemma FilterByRows(t: Table, r: Row, phi: CellField, i: int, j: int, k: int)
    requires t.f == Rows(r, r, r)
    ensures FilterOf(t, phi, i, j, k)
            == 1.0 / 3.0 * (Weigh(r, phi(i + 1, j, k), phi(i, j, k), phi(i - 1, j, k))
                            + Weigh(r, phi(i, j + 1, k), phi(i, j, k), phi(i, j - 1, k))
                            + Weigh(r, phi(i, j, k + 1), phi(i, j, k), phi(i, j, k - 1)))
  {
  }

  lemma FilterSpreads(phi: CellField, i: int, j: int, k: int)
    ensures FilterOf(INNER, phi, i, j, k)
            == phi(i, j, k) + (SpreadOf(phi, AxisX, i, j, k) + SpreadOf(phi, AxisY, i, j, k)
                               + SpreadOf(phi, AxisZ, i, j, k))
  {
    InnerRows();
    FilterByRows(INNER, FilterRow(Mid), phi, i, j, k);
    FilterIdentity(phi(i, j, k), phi(i + 1, j, k), phi(i - 1, j, k), phi(i, j + 1, k), phi(i, j - 1, k),
                   phi(i, j, k + 1), phi(i, j, k - 1));
  }

  ghost predicate IsFiltered(phi: CellField, filtered: CellField, b: Box) {
    forall i, j, k {:trigger filtered(i, j, k)} :: In(b, i, j, k) ==> filtered(i, j, k) == FilterOf(INNER, phi, i, j, k)
  }

  /** On a periodic box of any size the filter keeps the total of the field. */
  lemma PeriodicFilterKeepsTotal(phi: CellField, filtered: CellField, d: Domain)
    requires Proper(Cells(d)) && Repeats(phi, Cells(d)) && IsFiltered(phi, filtered, Cells(d))
    ensures Total(filtered, Cells(d)) == Total(phi, Cells(d))
  {
    var b, p, q, r := Cells(d), Spread(phi, AxisX), Spread(phi, AxisY), Spread(phi, AxisZ);
    forall i, j, k | In(b, i, j, k)
      ensures filtered(i, j, k) == phi(i, j, k) + (p(i, j, k) + q(i, j, k) + r(i, j, k))
    {
      FilterSpreads(phi, i, j, k);
    }
    TotalAdd4(phi, p, q, r, filtered, b);
    SpreadTotal(phi, AxisX, b);
    SpreadTotal(phi, AxisY, b);
    SpreadTotal(phi, AxisZ, b);
  }

  // ----------------------------------------------------- the operators as swept

  /** What an array holds for the cells of a domain, or a part of it, as a field. */
  ghost function FieldOf<T>(out: array3<T>, d: Domain, part: T -> real): (f: CellField)
    requires Fitted(out, d)
    reads out
    ensures forall i, j, k :: InDomain(i, j, k, d) ==> f(i, j, k) == part(At(out, d, i, j, k))
  {
    var m := imap i, j, k | InDomain(i, j, k, d) :: (i, j, k) := part(At(out, d, i, j, k));
    (i, j, k) => if InDomain(i, j, k, d) then m[(i, j, k)] else 0.0
  }

  function Itself(x: real): real { x }

  function PartX(v: Vector): real { v.x }

  function PartY(v: Vector): real { v.y }

  function PartZ(v: Vector): real { v.z }

  /** An array that the sweeps have filled with the gradient. */
  ghost predicate HoldsGradient(out: array3<Vector>, phi: CellField, idx: Inverse, d: Domain, p: Periodic)
    requires Fitted(out, d)
    reads out
  {
    forall i, j, k :: InDomain(i, j, k, d) ==>
      At(out, d, i, j, k) == GradientOf(TableFor(EndSides(i, j, k, d, p)), phi, idx, i, j, k)
  }

  ghost predicate HoldsDivergence(out: array3<real>, u: CellField, v: CellField, w: CellField, idx: Inverse,
                                  d: Domain, p: Periodic)
    requires Fitted(out, d)
    reads out
  {
    forall i, j, k :: InDomain(i, j, k, d) ==>
      At(out, d, i, j, k) == DivergenceOf(TableFor(EndSides(i, j, k, d, p)), u, v, w, idx, i, j, k)
  }

  ghost predicate HoldsFilter(out: array3<real>, phi: CellField, d: Domain, p: Periodic)
    requires Fitted(out, d)
    reads out
  {
    forall i, j, k :: InDomain(i, j, k, d) ==>
      At(out, d, i, j, k) == FilterOf(TableFor(EndSides(i, j, k, d, p)), phi, i, j, k)
  }

  lemma PeriodicEnds(d: Domain, i: int, j: int, k: int)
    requires InDomain(i, j, k, d)
    ensures TableFor(EndSides(i, j, k, d, ALL_PERIODIC)) == INNER
  {
    EndsAreDirectional(d, ALL_PERIODIC, i, j, k);
    PeriodicTable(d, i, j, k);
  }

  /** The components of the gradient in the array add up to nothing on a periodic box. */
  lemma FilledGradientVanishes(out: array3<Vector>, phi: CellField, idx: Inverse, d: Domain)
    requires Fitted(out, d) && HoldsGradient(out, phi, idx, d, ALL_PERIODIC) && Repeats(phi, Cells(d))
    ensures Total(FieldOf(out, d, PartX), Cells(d)) == 0.0
    ensures Total(FieldOf(out, d, PartY), Cells(d)) == 0.0
    ensures Total(FieldOf(out, d, PartZ), Cells(d)) == 0.0
  {
    var dx, dy, dz := FieldOf(out, d, PartX), FieldOf(out, d, PartY), FieldOf(out, d, PartZ);
    forall i, j, k | In(Cells(d), i, j, k)
      ensures GradientOf(INNER, phi, idx, i, j, k) == Vector(dx(i, j, k), dy(i, j, k), dz(i, j, k))
    {
      PeriodicEnds(d, i, j, k);
      assert At(out, d, i, j, k) == GradientOf(INNER, phi, idx, i, j, k);
    }
    PeriodicGradientVanishes(phi, idx, dx, dy, dz, d);
  }

  lemma FilledDivergenceVanishes(out: array3<real>, u: CellField, v: CellField, w: CellField, idx: Inverse, d: Domain)
    requires Fitted(out, d) && HoldsDivergence(out, u, v, w, idx, d, ALL_PERIODIC)
    requires Repeats(u, Cells(d)) && Repeats(v, Cells(d)) && Repeats(w, Cells(d))
    ensures Total(FieldOf(out, d, Itself), Cells(d)) == 0.0
  {
    var div := FieldOf(out, d, Itself);
    forall i, j, k | In(Cells(d), i, j, k)
      ensures div(i, j, k) == DivergenceOf(INNER, u, v, w, idx, i, j, k)
    {
      PeriodicEnds(d, i, j, k);
      assert At(out, d, i, j, k) == DivergenceOf(INNER, u, v, w, idx, i, j, k);
    }
    PeriodicDivergenceVanishes(u, v, w, idx, div, d);
  }

  lemma FilledFilterKeepsTotal(out: array3<real>, phi: CellField, d: Domain)
    requires Fitted(out, d) && HoldsFilter(out, phi, d, ALL_PERIODIC) && Repeats(phi, Cells(d))
    ensures Total(FieldOf(out, d, Itself), Cells(d)) == Total(phi, Cells(d))
  {
    var filtered := FieldOf(out, d, Itself);
    forall i, j, k | In(Cells(d), i, j, k)
      ensures filtered(i, j, k) == FilterOf(INNER, phi, i, j, k)
    {
      PeriodicEnds(d, i, j, k);
      assert At(out, d, i, j, k) == FilterOf(INNER, phi, i, j, k);
    }
    PeriodicFilterKeepsTotal(phi, filtered, d);
  }

  /** Of a sampled polynomial the array holds the derivatives. */
  lemma FilledGradientExact(out: array3<Vector>, phi: CellField, idx: Inverse, g: Grid, q: Poly)
    requires Fitted(out, g.d) && HoldsGradient(out, phi, idx, g.d, g.p) && TwoCells(g.d, g.p)
    requires Inverts(idx, g) && SampledFrom(phi, g, q)
    ensures HoldsDerivative(out, g, q)
  {
    forall i, j, k | InDomain(i, j, k, g.d)
      ensures At(out, g.d, i, j, k) == Derivative(q, PositionX(g, i), PositionY(g, j), PositionZ(g, k))
    {
      EndsAreDirectional(g.d, g.p, i, j, k);
      QuadraticGradientExact(phi, g, idx, q, i, j, k);
    }
  }

  ghost predicate HoldsDerivative(out: array3<Vector>, g: Grid, q: Poly)
    requires Fitted(out, g.d)
    reads out
  {
    forall i, j, k :: InDomain(i, j, k, g.d) ==>
      At(out, g.d, i, j, k) == Derivative(q, PositionX(g, i), PositionY(g, j), PositionZ(g, k))
  }

  /** The swept operators hold, in every cell, the kernel with the rows that the sweeps
      leave there; these are the rows of the directions when the sides fit. On a periodic
      box the totals of the filled arrays are those of the theorems above, and a sampled
      polynomial gets its derivatives. */
  method Gradient(phi: CellField, idx: Inverse, d: Domain, p: Periodic, out: array3<Vector>)
    requires Fitted(out, d)
    modifies out
    ensures HoldsGradient(out, phi, idx, d, p)
    ensures SidesFit(d, p) ==> forall i, j, k :: InDomain(i, j, k, d) ==>
              At(out, d, i, j, k) == GradientOf(TableFor(DirectionalSides(i, j, k, d, p)), phi, idx, i, j, k)
    ensures p == ALL_PERIODIC && Repeats(phi, Cells(d)) ==>
              && Total(FieldOf(out, d, PartX), Cells(d)) == 0.0
              && Total(FieldOf(out, d, PartY), Cells(d)) == 0.0
              && Total(FieldOf(out, d, PartZ), Cells(d)) == 0.0
    ensures forall g: Grid, q :: g.d == d && g.p == p && TwoCells(d, p) && Inverts(idx, g) && SampledFrom(phi, g, q) ==>
              HoldsDerivative(out, g, q)
  {
    Apply((t, i, j, k) => GradientOf(t, phi, idx, i, j, k), d, p, out);
    if p == ALL_PERIODIC && Repeats(phi, Cells(d)) {
      FilledGradientVanishes(out, phi, idx, d);
    }
    forall g: Grid, q | g.d == d && g.p == p && TwoCells(d, p) && Inverts(idx, g) && SampledFrom(phi, g, q)
      ensures HoldsDerivative(out, g, q)
    {
      FilledGradientExact(out, phi, idx, g, q);
    }
  }

  method Divergence(u: CellField, v: CellField, w: CellField, idx: Inverse, d: Domain, p: Periodic, out: array3<real>)
    requires Fitted(out, d)
    modifies out
    ensures HoldsDivergence(out, u, v, w, idx, d, p)
    ensures SidesFit(d, p) ==> forall i, j, k :: InDomain(i, j, k, d) ==>
              At(out, d, i, j, k) == DivergenceOf(TableFor(DirectionalSides(i, j, k, d, p)), u, v, w, idx, i, j, k)
    ensures p == ALL_PERIODIC && Repeats(u, Cells(d)) && Repeats(v, Cells(d)) && Repeats(w, Cells(d)) ==>
              Total(FieldOf(out, d, Itself), Cells(d)) == 0.0
  {
    Apply((t, i, j, k) => DivergenceOf(t, u, v, w, idx, i, j, k), d, p, out);
    if p == ALL_PERIODIC && Repeats(u, Cells(d)) && Repeats(v, Cells(d)) && Repeats(w, Cells(d)) {
      FilledDivergenceVanishes(out, u, v, w, idx, d);
    }
  }

  method Filter(phi: CellField, d: Domain, p: Periodic, out: array3<real>)
    requires Fitted(out, d)
    modifies out
    ensures HoldsFilter(out, phi, d, p)
    ensures SidesFit(d, p) ==> forall i, j, k :: InDomain(i, j, k, d) ==>
              At(out, d, i, j, k) == FilterOf(TableFor(DirectionalSides(i, j, k, d, p)), phi, i, j, k)
    ensures p == ALL_PERIODIC && Repeats(phi, Cells(d)) ==>
              Total(FieldOf(out, d, Itself), Cells(d)) == Total(phi, Cells(d))
  {
    Apply((t, i, j, k) => FilterOf(t, phi, i, j, k), d, p, out);
    if p == ALL_PERIODIC && Repeats(phi, Cells(d)) {
      FilledFilterKeepsTotal(out, phi, d);
    }
  }
}
