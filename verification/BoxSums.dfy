/** Sums of cell values over three-dimensional boxes, and how differences between
    the faces of neighbouring cells collapse to the faces of the box. */
module BoxSums {
  import opened IndexVectors

  type CellField = (int, int, int) -> real

  /** A box of cells, upper ends excluded. */
  datatype Box = Box(ilo: int, ihi: int, jlo: int, jhi: int, klo: int, khi: int)

  predicate In(b: Box, i: int, j: int, k: int) {
    b.ilo <= i < b.ihi && b.jlo <= j < b.jhi && b.klo <= k < b.khi
  }

  predicate Proper(b: Box) {
    b.ilo <= b.ihi && b.jlo <= b.jhi && b.klo <= b.khi
  }

  predicate Inside(b: Box, c: IntVect) { In(b, c.i, c.j, c.k) }

  /** First and last index of a box of cells along an axis. */
  function SmallEnd(b: Box, a: Axis): int {
    match a
    case AxisX => b.ilo
    case AxisY => b.jlo
    case AxisZ => b.klo
  }

  function BigEnd(b: Box, a: Axis): int {
    match a
    case AxisX => b.ihi - 1
    case AxisY => b.jhi - 1
    case AxisZ => b.khi - 1
  }

  /** The index lies within the box in the two other directions. */
  predicate Across(b: Box, c: IntVect, a: Axis) {
    && (a.AxisX? || b.ilo <= c.i < b.ihi)
    && (a.AxisY? || b.jlo <= c.j < b.jhi)
    && (a.AxisZ? || b.klo <= c.k < b.khi)
  }

  function ValueAt(f: CellField, c: IntVect): real { f(c.i, c.j, c.k) }

  function Line(f: CellField, i: int, j: int, klo: int, khi: int): real
    decreases khi - klo
  {
    if khi <= klo then 0.0 else Line(f, i, j, klo, khi - 1) + f(i, j, khi - 1)
  }

  function Plane(f: CellField, i: int, jlo: int, jhi: int, klo: int, khi: int): real
    decreases jhi - jlo
  {
    if jhi <= jlo then 0.0 else Plane(f, i, jlo, jhi - 1, klo, khi) + Line(f, i, jhi - 1, klo, khi)
  }

  function Block(f: CellField, ilo: int, ihi: int, jlo: int, jhi: int, klo: int, khi: int): real
    decreases ihi - ilo
  {
    if ihi <= ilo then 0.0 else Block(f, ilo, ihi - 1, jlo, jhi, klo, khi) + Plane(f, ihi - 1, jlo, jhi, klo, khi)
  }

  /** Total of a cell field over a box. */
  function Total(f: CellField, b: Box): real {
    Block(f, b.ilo, b.ihi, b.jlo, b.jhi, b.klo, b.khi)
  }

  // --------------------------------------------------------------- linearity

  lemma {:induction false} LineAdd(f: CellField, g: CellField, h: CellField, i: int, j: int, klo: int, khi: int)
    requires forall k :: klo <= k < khi ==> h(i, j, k) == f(i, j, k) + g(i, j, k)
    ensures Line(h, i, j, klo, khi) == Line(f, i, j, klo, khi) + Line(g, i, j, klo, khi)
    decreases khi - klo
  {
    if klo < khi {
      LineAdd(f, g, h, i, j, klo, khi - 1);
    }
  }

  lemma {:induction false} PlaneAdd(f: CellField, g: CellField, h: CellField, i: int, jlo: int, jhi: int, klo: int,
                                    khi: int)
    requires forall j, k :: jlo <= j < jhi && klo <= k < khi ==> h(i, j, k) == f(i, j, k) + g(i, j, k)
    ensures Plane(h, i, jlo, jhi, klo, khi) == Plane(f, i, jlo, jhi, klo, khi) + Plane(g, i, jlo, jhi, klo, khi)
    decreases jhi - jlo
  {
    if jlo < jhi {
      PlaneAdd(f, g, h, i, jlo, jhi - 1, klo, khi);
      LineAdd(f, g, h, i, jhi - 1, klo, khi);
    }
  }

  lemma {:induction false} TotalAdd(f: CellField, g: CellField, h: CellField, b: Box)
    requires forall i, j, k :: In(b, i, j, k) ==> h(i, j, k) == f(i, j, k) + g(i, j, k)
    ensures Total(h, b) == Total(f, b) + Total(g, b)
    decreases b.ihi - b.ilo
  {
    if b.ilo < b.ihi {
      var c := b.(ihi := b.ihi - 1);
      assert forall i, j, k :: In(c, i, j, k) ==> In(b, i, j, k);
      TotalAdd(f, g, h, c);
      assert forall j, k :: b.jlo <= j < b.jhi && b.klo <= k < b.khi ==> In(b, c.ihi, j, k);
      PlaneAdd(f, g, h, c.ihi, b.jlo, b.jhi, b.klo, b.khi);
    }
  }

  lemma {:induction false} LineScale(f: CellField, h: CellField, p: real, i: int, j: int, klo: int, khi: int)
    requires forall k :: klo <= k < khi ==> h(i, j, k) == p * f(i, j, k)
    ensures Line(h, i, j, klo, khi) == p * Line(f, i, j, klo, khi)
    decreases khi - klo
  {
    if klo < khi {
      LineScale(f, h, p, i, j, klo, khi - 1);
      Spread(p, Line(f, i, j, klo, khi - 1), f(i, j, khi - 1), Line(h, i, j, klo, khi - 1), h(i, j, khi - 1));
    }
  }

  lemma Spread(p: real, x: real, y: real, px: real, py: real)
    requires px == p * x && py == p * y
    ensures px + py == p * (x + y)
  {
  }

  lemma {:induction false} PlaneScale(f: CellField, h: CellField, p: real, i: int, jlo: int, jhi: int, klo: int,
                                      khi: int)
    requires forall j, k :: jlo <= j < jhi && klo <= k < khi ==> h(i, j, k) == p * f(i, j, k)
    ensures Plane(h, i, jlo, jhi, klo, khi) == p * Plane(f, i, jlo, jhi, klo, khi)
    decreases jhi - jlo
  {
    if jlo < jhi {
      PlaneScale(f, h, p, i, jlo, jhi - 1, klo, khi);
      LineScale(f, h, p, i, jhi - 1, klo, khi);
      Spread(p, Plane(f, i, jlo, jhi - 1, klo, khi), Line(f, i, jhi - 1, klo, khi),
             Plane(h, i, jlo, jhi - 1, klo, khi), Line(h, i, jhi - 1, klo, khi));
    }
  }

  lemma {:induction false} TotalScale(f: CellField, h: CellField, p: real, b: Box)
    requires forall i, j, k :: In(b, i, j, k) ==> h(i, j, k) == p * f(i, j, k)
    ensures Total(h, b) == p * Total(f, b)
    decreases b.ihi - b.ilo
  {
    if b.ilo < b.ihi {
      var c := b.(ihi := b.ihi - 1);
      assert forall i, j, k :: In(c, i, j, k) ==> In(b, i, j, k);
      TotalScale(f, h, p, c);
      assert forall j, k :: b.jlo <= j < b.jhi && b.klo <= k < b.khi ==> In(b, c.ihi, j, k);
      PlaneScale(f, h, p, c.ihi, b.jlo, b.jhi, b.klo, b.khi);
      Spread(p, Total(f, c), Plane(f, c.ihi, b.jlo, b.jhi, b.klo, b.khi),
             Total(h, c), Plane(h, c.ihi, b.jlo, b.jhi, b.klo, b.khi));
    }
  }

  // ------------------------------------------------- values on faces of cells

  /** Total over the faces with normal x and index `i`; likewise for y and z. */
  function XFaces(f: CellField, i: int, b: Box): real {
    Plane(f, i, b.jlo, b.jhi, b.klo, b.khi)
  }

  function YFaces(f: CellField, j: int, b: Box): real
    decreases b.ihi - b.ilo
  {
    if b.ihi <= b.ilo then 0.0 else YFaces(f, j, b.(ihi := b.ihi - 1)) + Line(f, b.ihi - 1, j, b.klo, b.khi)
  }

  function Column(f: CellField, i: int, k: int, jlo: int, jhi: int): real
    decreases jhi - jlo
  {
    if jhi <= jlo then 0.0 else Column(f, i, k, jlo, jhi - 1) + f(i, jhi - 1, k)
  }

  function ZFaces(f: CellField, k: int, b: Box): real
    decreases b.ihi - b.ilo
  {
    if b.ihi <= b.ilo then 0.0 else ZFaces(f, k, b.(ihi := b.ihi - 1)) + Column(f, b.ihi - 1, k, b.jlo, b.jhi)
  }

  lemma {:induction false} LineDifference(f: CellField, d: CellField, i: int, j: int, i': int, j': int, klo: int,
                                          khi: int)
    requires forall k {:trigger d(i, j, k)} :: klo <= k < khi ==> d(i, j, k) == f(i, j, k) - f(i', j', k)
    ensures Line(d, i, j, klo, khi) == Line(f, i, j, klo, khi) - Line(f, i', j', klo, khi)
    decreases khi - klo
  {
    if klo < khi {
      LineDifference(f, d, i, j, i', j', klo, khi - 1);
    }
  }

  lemma {:induction false} PlaneDifference(f: CellField, d: CellField, i: int, jlo: int, jhi: int, klo: int, khi: int)
    requires forall j, k {:trigger d(i, j, k)} :: jlo <= j < jhi && klo <= k < khi ==>
               d(i, j, k) == f(i, j, k) - f(i + 1, j, k)
    ensures Plane(d, i, jlo, jhi, klo, khi) == Plane(f, i, jlo, jhi, klo, khi) - Plane(f, i + 1, jlo, jhi, klo, khi)
    decreases jhi - jlo
  {
    if jlo < jhi {
      PlaneDifference(f, d, i, jlo, jhi - 1, klo, khi);
      LineDifference(f, d, i, jhi - 1, i + 1, jhi - 1, klo, khi);
    }
  }

  /** Differences along x collapse to the two end faces of the box. */
  lemma {:induction false} XTelescopes(f: CellField, d: CellField, b: Box)
    requires Proper(b)
    requires forall i, j, k {:trigger d(i, j, k)} :: In(b, i, j, k) ==> d(i, j, k) == f(i, j, k) - f(i + 1, j, k)
    ensures Total(d, b) == XFaces(f, b.ilo, b) - XFaces(f, b.ihi, b)
    decreases b.ihi - b.ilo
  {
    if b.ilo < b.ihi {
      var c := b.(ihi := b.ihi - 1);
      assert forall i, j, k :: In(c, i, j, k) ==> In(b, i, j, k);
      XTelescopes(f, d, c);
      assert forall j, k :: b.jlo <= j < b.jhi && b.klo <= k < b.khi ==> In(b, c.ihi, j, k);
      PlaneDifference(f, d, c.ihi, b.jlo, b.jhi, b.klo, b.khi);
    }
  }

  lemma {:induction false} PlaneTelescopes(f: CellField, d: CellField, i: int, jlo: int, jhi: int, klo: int, khi: int)
    requires jlo <= jhi
    requires forall j, k {:trigger d(i, j, k)} :: jlo <= j < jhi && klo <= k < khi ==>
               d(i, j, k) == f(i, j, k) - f(i, j + 1, k)
    ensures Plane(d, i, jlo, jhi, klo, khi) == Line(f, i, jlo, klo, khi) - Line(f, i, jhi, klo, khi)
    decreases jhi - jlo
  {
    if jlo < jhi {
      PlaneTelescopes(f, d, i, jlo, jhi - 1, klo, khi);
      LineDifference(f, d, i, jhi - 1, i, jhi, klo, khi);
    }
  }

  lemma {:induction false} YTelescopes(f: CellField, d: CellField, b: Box)
    requires Proper(b)
    requires forall i, j, k {:trigger d(i, j, k)} :: In(b, i, j, k) ==> d(i, j, k) == f(i, j, k) - f(i, j + 1, k)
    ensures Total(d, b) == YFaces(f, b.jlo, b) - YFaces(f, b.jhi, b)
    decreases b.ihi - b.ilo
  {
    if b.ilo < b.ihi {
      var c := b.(ihi := b.ihi - 1);
      assert forall i, j, k :: In(c, i, j, k) ==> In(b, i, j, k);
      YTelescopes(f, d, c);
      assert forall j, k :: b.jlo <= j < b.jhi && b.klo <= k < b.khi ==> In(b, c.ihi, j, k);
      PlaneTelescopes(f, d, c.ihi, b.jlo, b.jhi, b.klo, b.khi);
    }
  }

  lemma {:induction false} LineTelescopes(f: CellField, d: CellField, i: int, j: int, klo: int, khi: int)
    requires klo <= khi
    requires forall k {:trigger d(i, j, k)} :: klo <= k < khi ==> d(i, j, k) == f(i, j, k) - f(i, j, k + 1)
    ensures Line(d, i, j, klo, khi) == f(i, j, klo) - f(i, j, khi)
    decreases khi - klo
  {
    if klo < khi {
      LineTelescopes(f, d, i, j, klo, khi - 1);
    }
  }

  lemma {:induction false} ColumnsTelescope(f: CellField, d: CellField, i: int, jlo: int, jhi: int, klo: int, khi: int)
    requires klo <= khi
    requires forall j, k {:trigger d(i, j, k)} :: jlo <= j < jhi && klo <= k < khi ==>
               d(i, j, k) == f(i, j, k) - f(i, j, k + 1)
    ensures Plane(d, i, jlo, jhi, klo, khi) == Column(f, i, klo, jlo, jhi) - Column(f, i, khi, jlo, jhi)
    decreases jhi - jlo
  {
    if jlo < jhi {
      ColumnsTelescope(f, d, i, jlo, jhi - 1, klo, khi);
      LineTelescopes(f, d, i, jhi - 1, klo, khi);
    }
  }

  lemma {:induction false} ZTelescopes(f: CellField, d: CellField, b: Box)
    requires Proper(b)
    requires forall i, j, k {:trigger d(i, j, k)} :: In(b, i, j, k) ==> d(i, j, k) == f(i, j, k) - f(i, j, k + 1)
    ensures Total(d, b) == ZFaces(f, b.klo, b) - ZFaces(f, b.khi, b)
    decreases b.ihi - b.ilo
  {
    if b.ilo < b.ihi {
      var c := b.(ihi := b.ihi - 1);
      assert forall i, j, k :: In(c, i, j, k) ==> In(b, i, j, k);
      ZTelescopes(f, d, c);
      assert forall j, k :: b.jlo <= j < b.jhi && b.klo <= k < b.khi ==> In(b, c.ihi, j, k);
      ColumnsTelescope(f, d, c.ihi, b.jlo, b.jhi, b.klo, b.khi);
    }
  }

  // ------------------------------------------------------- periodic closure

  lemma {:induction false} LineSame(f: CellField, g: CellField, i: int, j: int, i': int, j': int, klo: int, khi: int)
    requires forall k :: klo <= k < khi ==> f(i, j, k) == g(i', j', k)
    ensures Line(f, i, j, klo, khi) == Line(g, i', j', klo, khi)
    decreases khi - klo
  {
    if klo < khi {
      LineSame(f, g, i, j, i', j', klo, khi - 1);
    }
  }

  /** The first and the last face of the box along an axis carry the same values. */
  ghost predicate Closes(f: CellField, b: Box, a: Axis) {
    forall c :: Across(b, c, a) ==> ValueAt(f, Moved(c, a, SmallEnd(b, a))) == ValueAt(f, Moved(c, a, BigEnd(b, a) + 1))
  }

  lemma {:induction false} PlaneSame(f: CellField, g: CellField, i: int, i': int, jlo: int, jhi: int, klo: int,
                                     khi: int)
    requires forall j, k :: jlo <= j < jhi && klo <= k < khi ==> f(i, j, k) == g(i', j, k)
    ensures Plane(f, i, jlo, jhi, klo, khi) == Plane(g, i', jlo, jhi, klo, khi)
    decreases jhi - jlo
  {
    if jlo < jhi {
      PlaneSame(f, g, i, i', jlo, jhi - 1, klo, khi);
      LineSame(f, g, i, jhi - 1, i', jhi - 1, klo, khi);
    }
  }

  lemma {:induction false} YFacesSame(f: CellField, g: CellField, j: int, j': int, b: Box)
    requires forall i, k :: b.ilo <= i < b.ihi && b.klo <= k < b.khi ==> f(i, j, k) == g(i, j', k)
    ensures YFaces(f, j, b) == YFaces(g, j', b)
    decreases b.ihi - b.ilo
  {
    if b.ilo < b.ihi {
      YFacesSame(f, g, j, j', b.(ihi := b.ihi - 1));
      LineSame(f, g, b.ihi - 1, j, b.ihi - 1, j', b.klo, b.khi);
    }
  }

  lemma {:induction false} ColumnSame(f: CellField, g: CellField, i: int, k: int, k': int, jlo: int, jhi: int)
    requires forall j :: jlo <= j < jhi ==> f(i, j, k) == g(i, j, k')
    ensures Column(f, i, k, jlo, jhi) == Column(g, i, k', jlo, jhi)
    decreases jhi - jlo
  {
    if jlo < jhi {
      ColumnSame(f, g, i, k, k', jlo, jhi - 1);
    }
  }

  lemma {:induction false} ZFacesSame(f: CellField, g: CellField, k: int, k': int, b: Box)
    requires forall i, j :: b.ilo <= i < b.ihi && b.jlo <= j < b.jhi ==> f(i, j, k) == g(i, j, k')
    ensures ZFaces(f, k, b) == ZFaces(g, k', b)
    decreases b.ihi - b.ilo
  {
    if b.ilo < b.ihi {
      ZFacesSame(f, g, k, k', b.(ihi := b.ihi - 1));
      ColumnSame(f, g, b.ihi - 1, k, k', b.jlo, b.jhi);
    }
  }

  /** What enters through the low faces of the box less what leaves by the high ones. */
  function NetInflow(fx: CellField, fy: CellField, fz: CellField, b: Box): real {
    (XFaces(fx, b.ilo, b) - XFaces(fx, b.ihi, b)) + (YFaces(fy, b.jlo, b) - YFaces(fy, b.jhi, b))
    + (ZFaces(fz, b.klo, b) - ZFaces(fz, b.khi, b))
  }

  lemma XFacesClose(f: CellField, b: Box)
    requires Closes(f, b, AxisX)
    ensures XFaces(f, b.ilo, b) == XFaces(f, b.ihi, b)
  {
    forall j, k | b.jlo <= j < b.jhi && b.klo <= k < b.khi
      ensures f(b.ilo, j, k) == f(b.ihi, j, k)
    {
      assert Across(b, IntVect(0, j, k), AxisX);
    }
    PlaneSame(f, f, b.ilo, b.ihi, b.jlo, b.jhi, b.klo, b.khi);
  }

  lemma YFacesClose(f: CellField, b: Box)
    requires Closes(f, b, AxisY)
    ensures YFaces(f, b.jlo, b) == YFaces(f, b.jhi, b)
  {
    forall i, k | b.ilo <= i < b.ihi && b.klo <= k < b.khi
      ensures f(i, b.jlo, k) == f(i, b.jhi, k)
    {
      assert Across(b, IntVect(i, 0, k), AxisY);
    }
    YFacesSame(f, f, b.jlo, b.jhi, b);
  }

  lemma ZFacesClose(f: CellField, b: Box)
    requires Closes(f, b, AxisZ)
    ensures ZFaces(f, b.klo, b) == ZFaces(f, b.khi, b)
  {
    forall i, j | b.ilo <= i < b.ihi && b.jlo <= j < b.jhi
      ensures f(i, j, b.klo) == f(i, j, b.khi)
    {
      assert Across(b, IntVect(i, j, 0), AxisZ);
    }
    ZFacesSame(f, f, b.klo, b.khi, b);
  }

  lemma NothingThroughClosedFaces(fx: CellField, fy: CellField, fz: CellField, b: Box)
    requires Closes(fx, b, AxisX) && Closes(fy, b, AxisY) && Closes(fz, b, AxisZ)
    ensures NetInflow(fx, fy, fz, b) == 0.0
  {
    XFacesClose(fx, b);
    YFacesClose(fy, b);
    ZFacesClose(fz, b);
  }

  /** Two fields agree on the first and on the last face of the box along an axis. */
  ghost predicate AgreeOnEnds(f: CellField, g: CellField, b: Box, a: Axis) {
    forall c :: Across(b, c, a) ==>
      && ValueAt(f, Moved(c, a, SmallEnd(b, a))) == ValueAt(g, Moved(c, a, SmallEnd(b, a)))
      && ValueAt(f, Moved(c, a, BigEnd(b, a) + 1)) == ValueAt(g, Moved(c, a, BigEnd(b, a) + 1))
  }

  lemma XFacesAgree(f: CellField, g: CellField, b: Box)
    requires AgreeOnEnds(f, g, b, AxisX)
    ensures XFaces(f, b.ilo, b) == XFaces(g, b.ilo, b) && XFaces(f, b.ihi, b) == XFaces(g, b.ihi, b)
  {
    forall j, k | b.jlo <= j < b.jhi && b.klo <= k < b.khi
      ensures f(b.ilo, j, k) == g(b.ilo, j, k) && f(b.ihi, j, k) == g(b.ihi, j, k)
    {
      assert Across(b, IntVect(0, j, k), AxisX);
    }
    PlaneSame(f, g, b.ilo, b.ilo, b.jlo, b.jhi, b.klo, b.khi);
    PlaneSame(f, g, b.ihi, b.ihi, b.jlo, b.jhi, b.klo, b.khi);
  }

  lemma YFacesAgree(f: CellField, g: CellField, b: Box)
    requires AgreeOnEnds(f, g, b, AxisY)
    ensures YFaces(f, b.jlo, b) == YFaces(g, b.jlo, b) && YFaces(f, b.jhi, b) == YFaces(g, b.jhi, b)
  {
    forall i, k | b.ilo <= i < b.ihi && b.klo <= k < b.khi
      ensures f(i, b.jlo, k) == g(i, b.jlo, k) && f(i, b.jhi, k) == g(i, b.jhi, k)
    {
      assert Across(b, IntVect(i, 0, k), AxisY);
    }
    YFacesSame(f, g, b.jlo, b.jlo, b);
    YFacesSame(f, g, b.jhi, b.jhi, b);
  }

  lemma ZFacesAgree(f: CellField, g: CellField, b: Box)
    requires AgreeOnEnds(f, g, b, AxisZ)
    ensures ZFaces(f, b.klo, b) == ZFaces(g, b.klo, b) && ZFaces(f, b.khi, b) == ZFaces(g, b.khi, b)
  {
    forall i, j | b.ilo <= i < b.ihi && b.jlo <= j < b.jhi
      ensures f(i, j, b.klo) == g(i, j, b.klo) && f(i, j, b.khi) == g(i, j, b.khi)
    {
      assert Across(b, IntVect(i, j, 0), AxisZ);
    }
    ZFacesSame(f, g, b.klo, b.klo, b);
    ZFacesSame(f, g, b.khi, b.khi, b);
  }

  /** The inflow depends on the outer faces alone. */
  lemma SameNetInflow(fx: CellField, fy: CellField, fz: CellField, gx: CellField, gy: CellField, gz: CellField, b: Box)
    requires AgreeOnEnds(fx, gx, b, AxisX) && AgreeOnEnds(fy, gy, b, AxisY) && AgreeOnEnds(fz, gz, b, AxisZ)
    ensures NetInflow(fx, fy, fz, b) == NetInflow(gx, gy, gz, b)
  {
    XFacesAgree(fx, gx, b);
    YFacesAgree(fy, gy, b);
    ZFacesAgree(fz, gz, b);
  }

  function XStepAt(f: CellField, i: int, j: int, k: int): real { f(i, j, k) - f(i + 1, j, k) }

  function XStep(f: CellField): CellField { (i, j, k) => XStepAt(f, i, j, k) }

  function YStepAt(f: CellField, i: int, j: int, k: int): real { f(i, j, k) - f(i, j + 1, k) }

  function YStep(f: CellField): CellField { (i, j, k) => YStepAt(f, i, j, k) }

  function ZStepAt(f: CellField, i: int, j: int, k: int): real { f(i, j, k) - f(i, j, k + 1) }

  function ZStep(f: CellField): CellField { (i, j, k) => ZStepAt(f, i, j, k) }

  function Plus(f: CellField, g: CellField): CellField { (i, j, k) => f(i, j, k) + g(i, j, k) }

  lemma TotalAdd3(p: CellField, q: CellField, r: CellField, d: CellField, b: Box)
    requires forall i, j, k :: In(b, i, j, k) ==> d(i, j, k) == p(i, j, k) + q(i, j, k) + r(i, j, k)
    ensures Total(d, b) == Total(p, b) + Total(q, b) + Total(r, b)
  {
    var pq := Plus(p, q);
    TotalAdd(p, q, pq, b);
    TotalAdd(pq, r, d, b);
  }

  lemma XStepTotal(f: CellField, b: Box)
    requires Proper(b)
    ensures Total(XStep(f), b) == XFaces(f, b.ilo, b) - XFaces(f, b.ihi, b)
  {
    XTelescopes(f, XStep(f), b);
  }

  lemma YStepTotal(f: CellField, b: Box)
    requires Proper(b)
    ensures Total(YStep(f), b) == YFaces(f, b.jlo, b) - YFaces(f, b.jhi, b)
  {
    YTelescopes(f, YStep(f), b);
  }

  lemma ZStepTotal(f: CellField, b: Box)
    requires Proper(b)
    ensures Total(ZStep(f), b) == ZFaces(f, b.klo, b) - ZFaces(f, b.khi, b)
  {
    ZTelescopes(f, ZStep(f), b);
  }

  /** A cell field made of face differences in the three directions adds up to what
      enters the box less what leaves it. */
  lemma NetThroughFaces(fx: CellField, fy: CellField, fz: CellField, d: CellField, b: Box)
    requires Proper(b)
    requires forall i, j, k :: In(b, i, j, k) ==>
               d(i, j, k) == XStepAt(fx, i, j, k) + YStepAt(fy, i, j, k) + ZStepAt(fz, i, j, k)
    ensures Total(d, b) == NetInflow(fx, fy, fz, b)
  {
    TotalAdd3(XStep(fx), YStep(fy), ZStep(fz), d, b);
    XStepTotal(fx, b);
    YStepTotal(fy, b);
    ZStepTotal(fz, b);
  }

  /** A field holds the differences of another one along an axis. */
  ghost predicate StepsAlong(f: CellField, d: CellField, b: Box, a: Axis) {
    forall c {:trigger ValueAt(d, c)} :: Inside(b, c) ==> ValueAt(d, c) == ValueAt(f, c) - ValueAt(f, Ahead(c, a))
  }

  lemma StepAt(f: CellField, d: CellField, b: Box, a: Axis, i: int, j: int, k: int)
    requires StepsAlong(f, d, b, a) && In(b, i, j, k)
    ensures d(i, j, k) == f(i, j, k) - ValueAt(f, Ahead(IntVect(i, j, k), a))
  {
    assert ValueAt(d, IntVect(i, j, k)) == d(i, j, k);
  }

  /** Steps of a field that closes on itself add up to nothing. */
  lemma ClosedSteps(f: CellField, d: CellField, b: Box, a: Axis)
    requires Proper(b) && Closes(f, b, a) && StepsAlong(f, d, b, a)
    ensures Total(d, b) == 0.0
  {
    forall i, j, k | In(b, i, j, k)
      ensures d(i, j, k) == f(i, j, k) - ValueAt(f, Ahead(IntVect(i, j, k), a))
    {
      StepAt(f, d, b, a, i, j, k);
    }
    match a
    case AxisX =>
      XTelescopes(f, d, b);
      XFacesClose(f, b);
    case AxisY =>
      YTelescopes(f, d, b);
      YFacesClose(f, b);
    case AxisZ =>
      ZTelescopes(f, d, b);
      ZFacesClose(f, b);
  }

  lemma TotalAdd4(f: CellField, p: CellField, q: CellField, r: CellField, h: CellField, b: Box)
    requires forall i, j, k :: In(b, i, j, k) ==> h(i, j, k) == f(i, j, k) + (p(i, j, k) + q(i, j, k) + r(i, j, k))
    ensures Total(h, b) == Total(f, b) + (Total(p, b) + Total(q, b) + Total(r, b))
  {
    var fp := Plus(f, p);
    TotalAdd(f, p, fp, b);
    TotalAdd3(fp, q, r, h, b);
  }
}
