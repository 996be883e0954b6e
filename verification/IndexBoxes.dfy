/** Real boxes and the boxes of cell indices that stand for them on a mesh. */
module IndexBoxes {
  import opened Basics
  import opened IndexVectors

  datatype Span = Span(lo: real, hi: real)

  datatype RealBox = RealBox(x: Span, y: Span, z: Span)

  function Along(b: RealBox, a: Axis): Span {
    match a
    case AxisX => b.x
    case AxisY => b.y
    case AxisZ => b.z
  }

  /** The domain along one axis and its cell size. */
  datatype Extent = Extent(lo: real, hi: real, dx: real)

  datatype Geometry = Geometry(x: Extent, y: Extent, z: Extent)

  function Direction(g: Geometry, a: Axis): Extent {
    match a
    case AxisX => g.x
    case AxisY => g.y
    case AxisZ => g.z
  }

  predicate Meshed(g: Geometry) { g.x.dx > 0.0 && g.y.dx > 0.0 && g.z.dx > 0.0 }

  lemma DirectionMeshed(g: Geometry, a: Axis)
    requires Meshed(g)
    ensures Direction(g, a).dx > 0.0
  {
  }

  function Ceil(q: real): int { -((-q).Floor) }

  /** First and last index of the cells that stand for a span: it is cut to the domain
      and rounded outwards. */
  function FirstIndex(s: Span, e: Extent): int
    requires e.dx > 0.0
  {
    ((Max(s.lo, e.lo) - e.lo) / e.dx).Floor
  }

  function LastIndex(s: Span, e: Extent): int
    requires e.dx > 0.0
  {
    Ceil((Min(s.hi, e.hi) - e.lo) / e.dx)
  }

  predicate HoldsAlong(b: RealBox, g: Geometry, c: IntVect, a: Axis)
    requires Meshed(g)
  {
    DirectionMeshed(g, a);
    FirstIndex(Along(b, a), Direction(g, a)) <= Coord(c, a) <= LastIndex(Along(b, a), Direction(g, a))
  }

  /** The index box of a real box holds this cell. */
  predicate HoldsCell(b: RealBox, g: Geometry, c: IntVect)
    requires Meshed(g)
  {
    HoldsAlong(b, g, c, AxisX) && HoldsAlong(b, g, c, AxisY) && HoldsAlong(b, g, c, AxisZ)
  }

  function LowFace(e: Extent, i: int): real { e.lo + i as real * e.dx }

  function HighFace(e: Extent, i: int): real { e.lo + (i + 1) as real * e.dx }

  lemma QuotientAgainst(t: real, dx: real, n: int)
    requires dx > 0.0
    ensures t / dx < n as real <==> t < n as real * dx
    ensures t / dx > n as real <==> t > n as real * dx
  {
    var q := t / dx;
    assert q * dx == t;
    assert q < n as real ==> (n as real - q) * dx > 0.0;
    assert q > n as real ==> (q - n as real) * dx > 0.0;
  }

  lemma FaceSteps(e: Extent, i: int)
    ensures (i - 1) as real * e.dx == LowFace(e, i) - e.lo - e.dx
    ensures HighFace(e, i) == LowFace(e, i) + e.dx
  {
  }

  /** A cell is among those of a span exactly when it reaches beyond the span's low end
      and begins less than one cell beyond the high end, both cut to the domain. */
  lemma HoldsAlongIff(s: Span, e: Extent, i: int)
    requires e.dx > 0.0
    ensures FirstIndex(s, e) <= i <==> HighFace(e, i) > Max(s.lo, e.lo)
    ensures i <= LastIndex(s, e) <==> LowFace(e, i) < Min(s.hi, e.hi) + e.dx
  {
    QuotientAgainst(Max(s.lo, e.lo) - e.lo, e.dx, i + 1);
    QuotientAgainst(Min(s.hi, e.hi) - e.lo, e.dx, i - 1);
    FaceSteps(e, i);
  }

  // ------------------------------------------------------------ boxes of a level

  /** A box of cells, both corners included. */
  datatype CellBox = CellBox(lo: IntVect, hi: IntVect)

  predicate InBox(cb: CellBox, c: IntVect) {
    cb.lo.i <= c.i <= cb.hi.i && cb.lo.j <= c.j <= cb.hi.j && cb.lo.k <= c.k <= cb.hi.k
  }

  predicate MeetsAlong(cb: CellBox, b: RealBox, g: Geometry, a: Axis)
    requires Meshed(g)
  {
    DirectionMeshed(g, a);
    var first, last := FirstIndex(Along(b, a), Direction(g, a)), LastIndex(Along(b, a), Direction(g, a));
    (if first < Coord(cb.lo, a) then Coord(cb.lo, a) else first)
    <= (if last < Coord(cb.hi, a) then last else Coord(cb.hi, a))
  }

  /** The index box of a real box meets a box of cells. */
  predicate Meets(cb: CellBox, b: RealBox, g: Geometry)
    requires Meshed(g)
  {
    MeetsAlong(cb, b, g, AxisX) && MeetsAlong(cb, b, g, AxisY) && MeetsAlong(cb, b, g, AxisZ)
  }

  lemma MeetsIff(cb: CellBox, b: RealBox, g: Geometry)
    requires Meshed(g)
    ensures Meets(cb, b, g) <==> exists c :: InBox(cb, c) && HoldsCell(b, g, c)
  {
    if Meets(cb, b, g) {
      var c := IntVect(LaterFirst(cb, b, g, AxisX), LaterFirst(cb, b, g, AxisY), LaterFirst(cb, b, g, AxisZ));
      assert InBox(cb, c) && HoldsCell(b, g, c);
    }
  }

  /** The first index that the two boxes can share along an axis. */
  function LaterFirst(cb: CellBox, b: RealBox, g: Geometry, a: Axis): int
    requires Meshed(g)
  {
    DirectionMeshed(g, a);
    var first := FirstIndex(Along(b, a), Direction(g, a));
    if first < Coord(cb.lo, a) then Coord(cb.lo, a) else first
  }
}
