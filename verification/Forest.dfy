/** Point-cloud forests: orientation of the hull, its half-space edges, the
    point-in-hull test and the flattened storage of several clouds. */
module Forest {
  import opened Basics
  import opened Plane
  import opened ConvexHull
  import opened IndexVectors
  import opened IndexBoxes

  // -------------------------------------------------- orientation of the hull

  function Term(h: seq<Point>, v: nat): real
    requires v < |h|
  {
    var vn := (v + 1) % |h|;
    h[v].x * h[vn].y - h[vn].x * h[v].y
  }

  /** The shoelace sum over the first `n` edges of the closed polygon. */
  function Shoelace(h: seq<Point>, n: nat): real
    requires n <= |h|
  {
    if n == 0 then 0.0 else Shoelace(h, n - 1) + Term(h, n - 1)
  }

  method OrientCcw(hull: seq<Point>) returns (h: seq<Point>)
    ensures h == if Shoelace(hull, |hull|) < 0.0 then Reverse(hull) else hull
  {
    var twiceArea := 0.0;
    for v := 0 to |hull|
      invariant twiceArea == Shoelace(hull, v)
    {
      var vn := (v + 1) % |hull|;
      twiceArea := twiceArea + (hull[v].x * hull[vn].y - hull[vn].x * hull[v].y);
    }
    h := if twiceArea < 0.0 then Reverse(hull) else hull;
  }

  lemma FanTriangle(o: Point, a: Point, b: Point)
    ensures Wedge(a, b) + Wedge(b, o) == Wedge(a, o) + Cross(o, a, b)
  {
  }

  lemma {:induction false} FanArea(h: seq<Point>, n: nat)
    requires StrictlyConvex(h) && 1 <= n < |h|
    ensures Shoelace(h, n) + Wedge(h[n], h[0]) >= 0.0
    ensures n >= 2 ==> Shoelace(h, n) + Wedge(h[n], h[0]) > 0.0
  {
    NextIndex(n - 1, |h|);
    assert Term(h, n - 1) == Wedge(h[n - 1], h[n]);
    if n == 1 {
      WedgeAntisymmetric(h[0], h[1]);
      assert Shoelace(h, 1) == Shoelace(h, 0) + Term(h, 0);
    } else {
      FanArea(h, n - 1);
      FanTriangle(h[0], h[n - 1], h[n]);
      assert Cross(h[0], h[n - 1], h[n]) > 0.0;
    }
  }

  lemma LastTerm(h: seq<Point>)
    requires |h| >= 1
    ensures Term(h, |h| - 1) == Wedge(h[|h| - 1], h[0])
  {
    NextIndex(|h| - 1, |h|);
  }

  /** The computed hull already runs counter-clockwise: its shoelace sum is
      positive, so the branch that reverses it is never taken. */
  lemma HullIsCounterClockwise(h: seq<Point>)
    requires StrictlyConvex(h) && |h| >= 3
    ensures Shoelace(h, |h|) > 0.0
  {
    var n := |h| - 1;
    FanArea(h, n);
    LastTerm(h);
    assert Shoelace(h, n + 1) == Shoelace(h, n) + Term(h, n);
  }

  // ------------------------------------------------------------- half spaces

  datatype HullEdge = HullEdge(nx: real, ny: real, d: real, tolScale: real)

  function SignedDistance(e: HullEdge, p: Point): real {
    e.nx * p.x + e.ny * p.y - e.d
  }

  function EdgeBetween(a: Point, b: Point): HullEdge {
    var nx, ny := -(b.y - a.y), b.x - a.x;
    HullEdge(nx, ny, nx * a.x + ny * a.y, Abs(nx) + Abs(ny) + 1.0)
  }

  /** The stored half space measures the oriented area against its own edge. */
  lemma EdgeMeasuresArea(a: Point, b: Point, p: Point)
    ensures SignedDistance(EdgeBetween(a, b), p) == Cross(a, b, p)
    ensures EdgeBetween(a, b).tolScale >= 1.0
  {
  }

  ghost predicate EdgesOf(edges: seq<HullEdge>, h: seq<Point>) {
    |edges| == |h| && forall v :: 0 <= v < |h| ==> edges[v] == EdgeBetween(h[v], h[(v + 1) % |h|])
  }

  method HullEdges(h: seq<Point>) returns (edges: seq<HullEdge>)
    ensures EdgesOf(edges, h)
  {
    edges := [];
    for v := 0 to |h|
      invariant |edges| == v
      invariant forall i :: 0 <= i < v ==> edges[i] == EdgeBetween(h[i], h[(i + 1) % |h|])
    {
      var vn := (v + 1) % |h|;
      var ex, ey := h[vn].x - h[v].x, h[vn].y - h[v].y;
      var nx, ny := -ey, ex;
      edges := edges + [HullEdge(nx, ny, nx * h[v].x + ny * h[v].y, Abs(nx) + Abs(ny) + 1.0)];
    }
  }

  // ------------------------------------------------------ point-in-hull test

  datatype Record = Record(id: int, cd: real, pointOffset: nat, pointCount: nat, edgeOffset: nat, edgeCount: nat,
                           box: RealBox)

  predicate WithinTolerance(e: HullEdge, p: Point, tol: real) {
    SignedDistance(e, p) >= -tol * e.tolScale
  }

  /** Within the tolerance of a point along either axis. */
  predicate NearBy(p: Point, q: Point, tol: real) {
    -tol <= q.x - p.x <= tol && -tol <= q.y - p.y <= tol
  }

  lemma ShiftAgainst(n: real, d: real, tol: real)
    requires -tol <= d <= tol
    ensures n * d <= tol * Abs(n)
  {
    if n >= 0.0 {
      Scaled(n, tol - d);
      assert n * (tol - d) == n * tol - n * d;
    } else {
      Scaled(-n, tol + d);
      assert -n * (tol + d) == -(n * tol) - n * d;
    }
  }

  lemma DistanceOfShifted(e: HullEdge, p: Point, x: real, y: real)
    ensures SignedDistance(e, Point(p.x + x, p.y + y)) == SignedDistance(e, p) + e.nx * x + e.ny * y
  {
  }

  /** What the tolerance of the test means: a point passes an edge exactly when some point
      that is within the tolerance of it along either axis is on the inner side, up to the
      tolerance again in terms of the area. */
  lemma ToleranceIff(a: Point, b: Point, p: Point, tol: real)
    requires tol >= 0.0
    ensures WithinTolerance(EdgeBetween(a, b), p, tol) <==> exists q :: NearBy(p, q, tol) && Cross(a, b, q) >= -tol
  {
    forall q | NearBy(p, q, tol) && Cross(a, b, q) >= -tol
      ensures WithinTolerance(EdgeBetween(a, b), p, tol)
    {
      EdgeMeasuresArea(a, b, q);
      NearBySuffices(EdgeBetween(a, b), p, q, tol);
    }
    if WithinTolerance(EdgeBetween(a, b), p, tol) {
      var q := FarthestIn(EdgeBetween(a, b), p, tol);
      EdgeMeasuresArea(a, b, q);
    }
  }

  lemma NearBySuffices(e: HullEdge, p: Point, q: Point, tol: real)
    requires tol >= 0.0 && e.tolScale == Abs(e.nx) + Abs(e.ny) + 1.0
    requires NearBy(p, q, tol) && SignedDistance(e, q) >= -tol
    ensures WithinTolerance(e, p, tol)
  {
    DistanceOfShifted(e, p, q.x - p.x, q.y - p.y);
    ShiftAgainst(e.nx, q.x - p.x, tol);
    ShiftAgainst(e.ny, q.y - p.y, tol);
    ToleranceSum(tol, Abs(e.nx), Abs(e.ny));
  }

  lemma FarthestIn(e: HullEdge, p: Point, tol: real) returns (q: Point)
    requires tol >= 0.0 && e.tolScale == Abs(e.nx) + Abs(e.ny) + 1.0 && WithinTolerance(e, p, tol)
    ensures NearBy(p, q, tol) && SignedDistance(e, q) >= -tol
  {
    var x, y := if e.nx >= 0.0 then tol else -tol, if e.ny >= 0.0 then tol else -tol;
    q := Point(p.x + x, p.y + y);
    DistanceOfShifted(e, p, x, y);
    ToleranceSum(tol, Abs(e.nx), Abs(e.ny));
    FullShift(e.nx, tol);
    FullShift(e.ny, tol);
  }

  lemma FullShift(n: real, tol: real)
    ensures n * (if n >= 0.0 then tol else -tol) == tol * Abs(n)
  {
  }

  lemma ToleranceSum(tol: real, x: real, y: real)
    ensures -tol * (x + y + 1.0) == -(tol * x) - tol * y - tol
  {
  }

  method PointInOnHull(f: Record, p: Point, hullEdges: seq<HullEdge>, tol: real) returns (inside: bool)
    requires f.edgeOffset + f.edgeCount <= |hullEdges|
    ensures inside <==>
            forall i :: f.edgeOffset <= i < f.edgeOffset + f.edgeCount ==> WithinTolerance(hullEdges[i], p, tol)
  {
    if f.edgeCount <= 0 {
      return true;
    }
    for i := 0 to f.edgeCount
      invariant forall j :: f.edgeOffset <= j < f.edgeOffset + i ==> WithinTolerance(hullEdges[j], p, tol)
    {
      var e := hullEdges[f.edgeOffset + i];
      var signedDist := e.nx * p.x + e.ny * p.y - e.d;
      if signedDist < -tol * e.tolScale {
        assert !WithinTolerance(hullEdges[f.edgeOffset + i], p, tol);
        return false;
      }
    }
    return true;
  }

  ghost predicate LeftOfAll(h: seq<Point>, p: Point) {
    forall i :: 0 <= i < |h| ==> OnLeft(h, i, p)
  }

  lemma LeftPassesEdge(h: seq<Point>, i: nat, p: Point, tol: real)
    requires i < |h| && OnLeft(h, i, p) && tol >= 0.0
    ensures WithinTolerance(EdgeBetween(h[i], h[(i + 1) % |h|]), p, tol)
  {
    EdgeMeasuresArea(h[i], h[(i + 1) % |h|], p);
    Scaled(tol, EdgeBetween(h[i], h[(i + 1) % |h|]).tolScale);
  }

  /** `p` is the average of `a`, `b` and `c` under the given weights. */
  predicate IsAverage(p: Point, a: Point, b: Point, c: Point, wa: real, wb: real, wc: real) {
    && wa >= 0.0 && wb >= 0.0 && wc >= 0.0 && wa + wb + wc == 1.0
    && p.x == wa * a.x + wb * b.x + wc * c.x
    && p.y == wa * a.y + wb * b.y + wc * c.y
  }

  ghost predicate InTriangleOf(points: seq<Point>, p: Point) {
    exists a, b, c, wa, wb, wc :: a in points && b in points && c in points && IsAverage(p, a, b, c, wa, wb, wc)
  }

  lemma AreaOfAverage(o: Point, n: Point, p: Point, a: Point, b: Point, c: Point, wa: real, wb: real, wc: real)
    requires IsAverage(p, a, b, c, wa, wb, wc)
    ensures Cross(o, n, p) == wa * Cross(o, n, a) + wb * Cross(o, n, b) + wc * Cross(o, n, c)
  {
    var e := EdgeBetween(o, n);
    EdgeMeasuresArea(o, n, p);
    EdgeMeasuresArea(o, n, a);
    EdgeMeasuresArea(o, n, b);
    EdgeMeasuresArea(o, n, c);
    LinearInPoint(e.nx, e.ny, e.d, p, a, b, c, wa, wb, wc);
  }

  lemma LinearInPoint(k: real, l: real, d: real, p: Point, a: Point, b: Point, c: Point, wa: real, wb: real, wc: real)
    requires IsAverage(p, a, b, c, wa, wb, wc)
    ensures k * p.x + l * p.y - d ==
            wa * (k * a.x + l * a.y - d) + wb * (k * b.x + l * b.y - d) + wc * (k * c.x + l * c.y - d)
  {
    assert k * p.x == wa * (k * a.x) + wb * (k * b.x) + wc * (k * c.x);
    assert l * p.y == wa * (l * a.y) + wb * (l * b.y) + wc * (l * c.y);
    assert d == wa * d + wb * d + wc * d;
  }

  lemma AverageIsInside(points: seq<Point>, h: seq<Point>, p: Point)
    requires IsHull(points, h) && InTriangleOf(points, p)
    ensures LeftOfAll(h, p)
  {
    var a, b, c, wa, wb, wc :| a in points && b in points && c in points && IsAverage(p, a, b, c, wa, wb, wc);
    forall i | 0 <= i < |h|
      ensures OnLeft(h, i, p)
    {
      assert OnLeft(h, i, a) && OnLeft(h, i, b) && OnLeft(h, i, c);
      var n := h[(i + 1) % |h|];
      AreaOfAverage(h[i], n, p, a, b, c, wa, wb, wc);
      Scaled(wa, Cross(h[i], n, a));
      Scaled(wb, Cross(h[i], n, b));
      Scaled(wc, Cross(h[i], n, c));
    }
  }

  lemma Barycentric(a: Point, b: Point, c: Point, p: Point)
    ensures Cross(a, b, c) == Cross(b, c, p) + Cross(c, a, p) + Cross(a, b, p)
    ensures Cross(a, b, c) * p.x == Cross(b, c, p) * a.x + Cross(c, a, p) * b.x + Cross(a, b, p) * c.x
    ensures Cross(a, b, c) * p.y == Cross(b, c, p) * a.y + Cross(c, a, p) * b.y + Cross(a, b, p) * c.y
  {
  }

  lemma DividedAverage(s: real, r: real, x: real, y: real, z: real, u: real, v: real, w: real)
    requires s > 0.0 && s * r == x * u + y * v + z * w
    ensures r == x / s * u + y / s * v + z / s * w
  {
    assert x / s * u == x * u / s && y / s * v == y * v / s && z / s * w == z * w / s;
    assert s * r / s == r;
  }

  lemma TriangleHolds(a: Point, b: Point, c: Point, p: Point)
    requires Cross(a, b, c) > 0.0
    requires Cross(b, c, p) >= 0.0 && Cross(c, a, p) >= 0.0 && Cross(a, b, p) >= 0.0
    ensures var s := Cross(a, b, c); IsAverage(p, a, b, c, Cross(b, c, p) / s, Cross(c, a, p) / s, Cross(a, b, p) / s)
  {
    var s, x, y, z := Cross(a, b, c), Cross(b, c, p), Cross(c, a, p), Cross(a, b, p);
    Barycentric(a, b, c, p);
    DividedAverage(s, p.x, x, y, z, a.x, b.x, c.x);
    DividedAverage(s, p.y, x, y, z, a.y, b.y, c.y);
    DividedAverage(s, 1.0, x, y, z, 1.0, 1.0, 1.0);
  }

  /** Looking from the first vertex, some fan triangle has `p` between its sides. */
  lemma {:induction false} FindFan(h: seq<Point>, p: Point, n: nat) returns (i: nat)
    requires 1 <= n < |h| - 1 || (n == |h| - 1 && |h| >= 3)
    requires Cross(h[0], h[1], p) >= 0.0 && Cross(h[0], h[n], p) <= 0.0 && n >= 2
    ensures 1 <= i < n && Cross(h[0], h[i], p) >= 0.0 && Cross(h[0], h[i + 1], p) <= 0.0
    decreases n
  {
    if n == 2 || Cross(h[0], h[n - 1], p) >= 0.0 {
      i := n - 1;
    } else {
      i := FindFan(h, p, n - 1);
    }
  }

  lemma InsideIsAverage(points: seq<Point>, h: seq<Point>, p: Point)
    requires IsHull(points, h) && |h| >= 3 && LeftOfAll(h, p)
    ensures InTriangleOf(points, p)
  {
    var n := |h| - 1;
    NextIndex(0, |h|);
    NextIndex(n, |h|);
    assert OnLeft(h, 0, p) && OnLeft(h, n, p);
    CrossRotates(h[n], h[0], p);
    CrossRotates(h[0], h[n], p);
    var i := FindFan(h, p, n);
    NextIndex(i, |h|);
    assert OnLeft(h, i, p);
    CrossRotates(h[0], h[i + 1], p);
    CrossRotates(h[i + 1], h[0], p);
    assert Cross(h[0], h[i], h[i + 1]) > 0.0;
    TriangleHolds(h[0], h[i], h[i + 1], p);
    assert h[0] in h && h[i] in h && h[i + 1] in h;
  }

  /** Being left of every edge of the hull is exactly being an average of points
      of the cloud: the half spaces cut out the convex hull and nothing else. */
  lemma HullIsExact(points: seq<Point>, h: seq<Point>, p: Point)
    requires IsHull(points, h) && |h| >= 3
    ensures LeftOfAll(h, p) <==> InTriangleOf(points, p)
  {
    if LeftOfAll(h, p) {
      InsideIsAverage(points, h, p);
    }
    if InTriangleOf(points, p) {
      AverageIsInside(points, h, p);
    }
  }

  /** A point passes every one of a list of edges. */
  ghost predicate PassesAll(edges: seq<HullEdge>, p: Point, tol: real) {
    forall i :: 0 <= i < |edges| ==> WithinTolerance(edges[i], p, tol)
  }

  /** With zero tolerance the stored edges let exactly the averages pass. */
  lemma StoredEdgesAreExact(points: seq<Point>, h: seq<Point>, edges: seq<HullEdge>, p: Point)
    requires IsHull(points, h) && |h| >= 3 && EdgesOf(edges, h)
    ensures PassesAll(edges, p, 0.0) <==> InTriangleOf(points, p)
  {
    HullIsExact(points, h, p);
    forall i | 0 <= i < |h|
      ensures WithinTolerance(edges[i], p, 0.0) <==> OnLeft(h, i, p)
    {
      ExactEdge(h, i, p);
    }
    if PassesAll(edges, p, 0.0) {
      assert LeftOfAll(h, p);
    }
  }

  lemma ExactEdge(h: seq<Point>, i: nat, p: Point)
    requires i < |h|
    ensures WithinTolerance(EdgeBetween(h[i], h[(i + 1) % |h|]), p, 0.0) <==> OnLeft(h, i, p)
  {
    EdgeMeasuresArea(h[i], h[(i + 1) % |h|], p);
  }

  // ------------------------------------------------------- reading the clouds

  datatype Sample = Sample(at: Point, z: real, lad: real)

  /** A line of a point-cloud file: blank or comment, four numbers, or neither. */
  datatype Row = Skipped | Malformed | Data(sample: Sample)

  datatype CloudFile = Missing | Rows(rows: seq<Row>)

  datatype Fault = CannotFind | BadEntry | NoPoints | TooFewPoints

  datatype Clouds = Clouds(forests: seq<Record>, points: seq<Sample>, edges: seq<HullEdge>)

  datatype ReadResult = Read(clouds: Clouds) | Abort(file: nat, fault: Fault)

  function SamplesOf(rows: seq<Row>): seq<Sample> {
    if rows == [] then [] else
      SamplesOf(rows[..|rows| - 1]) + (if rows[|rows| - 1].Data? then [rows[|rows| - 1].sample] else [])
  }

  /** How many of the first rows hold a sample. */
  function DataBefore(rows: seq<Row>, n: nat): nat
    requires n <= |rows|
  {
    if n == 0 then 0 else DataBefore(rows, n - 1) + if rows[n - 1].Data? then 1 else 0
  }

  lemma {:induction false} DataBeforeIn(rows: seq<Row>, more: seq<Row>, n: nat)
    requires n <= |rows|
    ensures DataBefore(rows + more, n) == DataBefore(rows, n)
  {
    if n > 0 {
      DataBeforeIn(rows, more, n - 1);
    }
  }

  /** Every row of numbers is a sample, in the order of the file, and there are no others. */
  lemma {:induction false} SamplesInOrder(rows: seq<Row>)
    ensures |SamplesOf(rows)| == DataBefore(rows, |rows|)
    ensures forall i :: 0 <= i < |rows| && rows[i].Data? ==>
              DataBefore(rows, i) < |SamplesOf(rows)| && SamplesOf(rows)[DataBefore(rows, i)] == rows[i].sample
  {
    if rows != [] {
      var n := |rows| - 1;
      SamplesInOrder(rows[..n]);
      assert rows == rows[..n] + rows[n..];
      forall i | 0 <= i <= n
        ensures DataBefore(rows, i) == DataBefore(rows[..n], i)
      {
        DataBeforeIn(rows[..n], rows[n..], i);
      }
      assert forall i :: 0 <= i < n ==> rows[i] == rows[..n][i];
    }
  }

  function Plan(samples: seq<Sample>): (xy: seq<Point>)
    ensures |xy| == |samples| && forall i :: 0 <= i < |xy| ==> xy[i] == samples[i].at
  {
    seq(|samples|, i requires 0 <= i < |samples| => samples[i].at)
  }

  function Footprint(file: CloudFile): seq<Point>
    requires file.Rows?
  {
    Plan(SamplesOf(file.rows))
  }

  /** What is wrong with a file, in the order in which the reader finds out. */
  ghost predicate HasFault(file: CloudFile, fault: Fault) {
    match file
    case Missing => fault.CannotFind?
    case Rows(rows) =>
      if Malformed in rows then fault.BadEntry?
      else if SamplesOf(rows) == [] then fault.NoPoints?
      else Collinear(Footprint(file)) && fault.TooFewPoints?
  }

  ghost predicate Sound(file: CloudFile) {
    forall fault :: !HasFault(file, fault)
  }

  function Place(s: Sample, a: Axis): real {
    match a
    case AxisX => s.at.x
    case AxisY => s.at.y
    case AxisZ => s.z
  }

  /** All samples lie within the span along an axis, and some on either end of it. */
  ghost predicate SpansAlong(r: Span, samples: seq<Sample>, a: Axis) {
    && (forall p :: p in samples ==> r.lo <= Place(p, a) <= r.hi)
    && (exists p :: p in samples && Place(p, a) == r.lo) && (exists p :: p in samples && Place(p, a) == r.hi)
  }

  /** The extents of a cloud. */
  ghost predicate Spans(b: RealBox, samples: seq<Sample>) {
    SpansAlong(b.x, samples, AxisX) && SpansAlong(b.y, samples, AxisY) && SpansAlong(b.z, samples, AxisZ)
  }

  function WidenedSpan(r: Span, v: real): Span { Span(Min(r.lo, v), Max(r.hi, v)) }

  function Widened(b: RealBox, s: Sample): RealBox {
    RealBox(WidenedSpan(b.x, s.at.x), WidenedSpan(b.y, s.at.y), WidenedSpan(b.z, s.z))
  }

  function BoxAt(s: Sample): RealBox {
    RealBox(Span(s.at.x, s.at.x), Span(s.at.y, s.at.y), Span(s.z, s.z))
  }

  lemma WidenedSpansAlong(r: Span, samples: seq<Sample>, s: Sample, a: Axis)
    requires SpansAlong(r, samples, a)
    ensures SpansAlong(WidenedSpan(r, Place(s, a)), samples + [s], a)
  {
    var p :| p in samples && Place(p, a) == r.lo;
    var q :| q in samples && Place(q, a) == r.hi;
    assert p in samples + [s] && q in samples + [s] && s in samples + [s];
  }

  lemma WidenedSpans(b: RealBox, samples: seq<Sample>, s: Sample)
    requires samples != [] ==> Spans(b, samples)
    ensures Spans(if samples == [] then BoxAt(s) else Widened(b, s), samples + [s])
  {
    if samples == [] {
      assert s in samples + [s];
    } else {
      WidenedSpansAlong(b.x, samples, s, AxisX);
      WidenedSpansAlong(b.y, samples, s, AxisY);
      WidenedSpansAlong(b.z, samples, s, AxisZ);
    }
  }

  method ReadRows(file: CloudFile) returns (ok: bool, samples: seq<Sample>, extents: RealBox)
    requires file.Rows?
    ensures ok <==> Malformed !in file.rows
    ensures ok ==> samples == SamplesOf(file.rows) && (samples != [] ==> Spans(extents, samples))
  {
    samples := [];
    extents := RealBox(Span(0.0, 0.0), Span(0.0, 0.0), Span(0.0, 0.0));
    for i := 0 to |file.rows|
      invariant Malformed !in file.rows[..i]
      invariant samples == SamplesOf(file.rows[..i])
      invariant samples != [] ==> Spans(extents, samples)
    {
      var row := file.rows[i];
      assert file.rows[..i + 1][..i] == file.rows[..i];
      match row {
        case Skipped =>
        case Malformed => return false, samples, extents;
        case Data(sample) =>
          WidenedSpans(extents, samples, sample);
          extents := if samples == [] then BoxAt(sample) else Widened(extents, sample);
          samples := samples + [sample];
      }
    }
    assert file.rows[..|file.rows|] == file.rows;
    ok := true;
  }

  /** Half the mean cell size, by which the extents of a cloud are padded. */
  function Pad(g: Geometry): real { 0.5 * (g.x.dx + g.y.dx + g.z.dx) / 3.0 }

  function Padded(b: RealBox, pad: real): RealBox {
    RealBox(Span(b.x.lo - pad, b.x.hi + pad), Span(b.y.lo - pad, b.y.hi + pad), Span(b.z.lo - pad, b.z.hi + pad))
  }

  /** The record's box is that of the samples, padded on all sides. */
  ghost predicate Boxed(f: Record, samples: seq<Sample>, g: Geometry) {
    Spans(Padded(f.box, -Pad(g)), samples)
  }

  /** The slices that a record names hold its own file's samples, and the edges of
      a hull of them. */
  ghost predicate Describes(f: Record, file: CloudFile, c: Clouds) {
    && file.Rows?
    && f.pointOffset + f.pointCount <= |c.points| && f.edgeOffset + f.edgeCount <= |c.edges|
    && c.points[f.pointOffset..f.pointOffset + f.pointCount] == SamplesOf(file.rows)
    && exists h :: HullOf(file, h) && EdgesOf(c.edges[f.edgeOffset..f.edgeOffset + f.edgeCount], h)
  }

  ghost predicate HullOf(file: CloudFile, h: seq<Point>)
    requires file.Rows?
  {
    IsHull(Footprint(file), h) && |h| >= 3
  }

  function PointsBefore(all: seq<Record>, k: nat): nat
    requires k <= |all|
  {
    if k == 0 then 0 else PointsBefore(all, k - 1) + all[k - 1].pointCount
  }

  function EdgesBefore(all: seq<Record>, k: nat): nat
    requires k <= |all|
  {
    if k == 0 then 0 else EdgesBefore(all, k - 1) + all[k - 1].edgeCount
  }

  lemma {:induction false} BeforeInPrefix(all: seq<Record>, f: Record, k: nat)
    requires k <= |all|
    ensures PointsBefore(all + [f], k) == PointsBefore(all, k)
    ensures EdgesBefore(all + [f], k) == EdgesBefore(all, k)
  {
    if k > 0 {
      BeforeInPrefix(all, f, k - 1);
    }
  }

  predicate OffsetsFollow(all: seq<Record>, k: nat)
    requires k < |all|
  {
    all[k].pointOffset == PointsBefore(all, k) && all[k].edgeOffset == EdgesBefore(all, k)
  }

  /** The slices are adjacent and fill the flattened arrays from the front. */
  ghost predicate Tiled(all: seq<Record>, c: Clouds) {
    && (forall k :: 0 <= k < |all| ==> OffsetsFollow(all, k))
    && |c.points| == PointsBefore(all, |all|) && |c.edges| == EdgesBefore(all, |all|)
  }

  ghost predicate DescribesAt(all: seq<Record>, files: seq<CloudFile>, cds: seq<real>, c: Clouds, g: Geometry, k: nat)
    requires k < |all| <= |files| == |cds|
  {
    && all[k].id == k && all[k].cd == cds[k]
    && Describes(all[k], files[k], c) && Boxed(all[k], SamplesOf(files[k].rows), g)
  }

  /** Records of the first files, kept or not, each numbered by its file. */
  ghost predicate Described(all: seq<Record>, files: seq<CloudFile>, cds: seq<real>, c: Clouds, g: Geometry) {
    && |all| <= |files| == |cds|
    && forall k :: 0 <= k < |all| ==> DescribesAt(all, files, cds, c, g, k)
  }

  /** A record's index box meets one of the level's boxes. */
  predicate Near(f: Record, g: Geometry, boxes: seq<CellBox>) {
    Meshed(g) && exists m :: 0 <= m < |boxes| && Meets(boxes[m], f.box, g)
  }

  function NearTo(g: Geometry, boxes: seq<CellBox>): Record -> bool { f => Near(f, g, boxes) }

  /** Of the first `n` records those that are near. */
  function Keep(all: seq<Record>, n: nat, near: Record -> bool): seq<Record>
    requires n <= |all|
  {
    if n == 0 then [] else Keep(all, n - 1, near) + (if near(all[n - 1]) then [all[n - 1]] else [])
  }

  lemma {:induction false} KeepInPrefix(all: seq<Record>, f: Record, n: nat, near: Record -> bool)
    requires n <= |all|
    ensures Keep(all + [f], n, near) == Keep(all, n, near)
  {
    if n > 0 {
      KeepInPrefix(all, f, n - 1, near);
    }
  }

  lemma DescribesAfterAppend(f: Record, file: CloudFile, c: Clouds, samples: seq<Sample>, edges: seq<HullEdge>)
    requires Describes(f, file, c)
    ensures Describes(f, file, c.(points := c.points + samples, edges := c.edges + edges))
  {
    var c' := c.(points := c.points + samples, edges := c.edges + edges);
    var p, e := f.pointOffset + f.pointCount, f.edgeOffset + f.edgeCount;
    assert c'.points[f.pointOffset..p] == c.points[f.pointOffset..p];
    assert c'.edges[f.edgeOffset..e] == c.edges[f.edgeOffset..e];
  }

  lemma NewRecordDescribes(f: Record, file: CloudFile, c: Clouds, samples: seq<Sample>, edges: seq<HullEdge>)
    requires file.Rows? && samples == SamplesOf(file.rows)
    requires exists h :: HullOf(file, h) && EdgesOf(edges, h)
    requires f.pointOffset == |c.points| && f.pointCount == |samples|
    requires f.edgeOffset == |c.edges| && f.edgeCount == |edges|
    ensures Describes(f, file, c.(points := c.points + samples, edges := c.edges + edges))
  {
    assert (c.points + samples)[f.pointOffset..f.pointOffset + f.pointCount] == samples;
    assert (c.edges + edges)[f.edgeOffset..f.edgeOffset + f.edgeCount] == edges;
  }

  lemma DescribedExtends(all: seq<Record>, files: seq<CloudFile>, cds: seq<real>, c: Clouds, g: Geometry,
                         f: Record, samples: seq<Sample>, edges: seq<HullEdge>)
    requires Described(all, files, cds, c, g) && |all| < |files|
    requires f.id == |all| && f.cd == cds[|all|]
    requires Describes(f, files[|all|], c.(points := c.points + samples, edges := c.edges + edges))
    requires Boxed(f, SamplesOf(files[|all|].rows), g)
    ensures Described(all + [f], files, cds, c.(points := c.points + samples, edges := c.edges + edges), g)
  {
    var c' := c.(points := c.points + samples, edges := c.edges + edges);
    forall k | 0 <= k < |all| + 1
      ensures DescribesAt(all + [f], files, cds, c', g, k)
    {
      if k < |all| {
        assert DescribesAt(all, files, cds, c, g, k);
        DescribesAfterAppend(all[k], files[k], c, samples, edges);
      }
    }
  }

  lemma PaddedIsBoxed(f: Record, extents: RealBox, samples: seq<Sample>, g: Geometry)
    requires Spans(extents, samples) && f.box == Padded(extents, Pad(g))
    ensures Boxed(f, samples, g)
  {
    assert Padded(f.box, -Pad(g)) == extents;
  }

  lemma TiledExtends(all: seq<Record>, c: Clouds, f: Record, samples: seq<Sample>, edges: seq<HullEdge>)
    requires Tiled(all, c)
    requires f.pointOffset == |c.points| && f.pointCount == |samples|
    requires f.edgeOffset == |c.edges| && f.edgeCount == |edges|
    ensures Tiled(all + [f], c.(points := c.points + samples, edges := c.edges + edges))
  {
    forall k | 0 <= k < |all| + 1
      ensures OffsetsFollow(all + [f], k)
    {
      BeforeInPrefix(all, f, k);
      assert k < |all| ==> OffsetsFollow(all, k);
    }
    BeforeInPrefix(all, f, |all|);
  }

  lemma FewPointsCollinear(points: seq<Point>)
    requires |points| < 3
    ensures Collinear(points)
  {
    forall o, a, b | o in points && a in points && b in points
      ensures Cross(o, a, b) == 0.0
    {
      assert o == a || a == b || o == b;
      CrossOfRepeated(o, b);
      CrossOfRepeated(o, a);
    }
  }

  /** One trip of the reader's loop over files. */
  method ReadCloud(file: CloudFile, tol: real)
      returns (fault: seq<Fault>, samples: seq<Sample>, edges: seq<HullEdge>, extents: RealBox)
    requires file.Rows? ==> Resolved(Footprint(file), tol)
    ensures |fault| <= 1 && (forall r :: HasFault(file, r) <==> r in fault)
    ensures fault == [] ==> file.Rows? && samples == SamplesOf(file.rows) && |edges| >= 3 && Spans(extents, samples)
    ensures fault == [] ==> exists h :: HullOf(file, h) && EdgesOf(edges, h)
  {
    samples, edges := [], [];
    extents := RealBox(Span(0.0, 0.0), Span(0.0, 0.0), Span(0.0, 0.0));
    if file.Missing? {
      return [CannotFind], samples, edges, extents;
    }
    var ok;
    ok, samples, extents := ReadRows(file);
    if !ok {
      return [BadEntry], samples, edges, extents;
    }
    if |samples| == 0 {
      return [NoPoints], samples, edges, extents;
    }
    var xy := Plan(samples);
    var hull := ComputeConvexHull2d(xy, tol);
    if |hull| < 3 {
      if |xy| < 3 {
        FewPointsCollinear(xy);
      }
      return [TooFewPoints], samples, edges, extents;
    }
    HullIsCounterClockwise(hull);
    hull := OrientCcw(hull);
    edges := HullEdges(hull);
    assert !Collinear(xy);
    assert HullOf(file, hull);
    fault := [];
  }

  /** Appends one file's samples and edges to the flattened arrays. */
  method AppendCloud(files: seq<CloudFile>, cds: seq<real>, c: Clouds, ghost all: seq<Record>, i: nat, g: Geometry,
                     tol: real)
      returns (fault: seq<Fault>, f: Record, c': Clouds)
    requires |cds| == |files| && i == |all| < |files|
    requires files[i].Rows? ==> Resolved(Footprint(files[i]), tol)
    requires Described(all, files, cds, c, g) && Tiled(all, c)
    ensures |fault| <= 1 && (forall r :: HasFault(files[i], r) <==> r in fault)
    ensures fault == [] ==> Described(all + [f], files, cds, c', g) && Tiled(all + [f], c') && c'.forests == c.forests
  {
    var samples, edges, extents;
    fault, samples, edges, extents := ReadCloud(files[i], tol);
    f := Record(i, cds[i], |c.points|, |samples|, |c.edges|, |edges|, Padded(extents, Pad(g)));
    c' := c.(points := c.points + samples, edges := c.edges + edges);
    if fault == [] {
      NewRecordDescribes(f, files[i], c, samples, edges);
      PaddedIsBoxed(f, extents, samples, g);
      DescribedExtends(all, files, cds, c, g, f, samples, edges);
      TiledExtends(all, c, f, samples, edges);
    }
  }

  lemma KeepsForests(all: seq<Record>, files: seq<CloudFile>, cds: seq<real>, c: Clouds, g: Geometry,
                      forests: seq<Record>)
    requires Described(all, files, cds, c, g) && Tiled(all, c)
    ensures Described(all, files, cds, c.(forests := forests), g) && Tiled(all, c.(forests := forests))
  {
    forall k | 0 <= k < |all|
      ensures DescribesAt(all, files, cds, c.(forests := forests), g, k)
    {
      assert DescribesAt(all, files, cds, c, g, k);
    }
  }

  /** The reader stops at the first unsound file; otherwise it has described every
      file and kept the records whose boxes meet a box of the level. */
  method ReadPointCloudForests(files: seq<CloudFile>, cds: seq<real>, g: Geometry, boxes: seq<CellBox>, tol: real)
      returns (r: ReadResult, ghost all: seq<Record>)
    requires |cds| == |files| && Meshed(g)
    requires forall i :: 0 <= i < |files| && files[i].Rows? ==> Resolved(Footprint(files[i]), tol)
    ensures r.Abort? ==> r.file < |files| && HasFault(files[r.file], r.fault)
    ensures forall i :: 0 <= i < (if r.Abort? then r.file else |files|) ==> Sound(files[i])
    ensures r.Read? ==> |all| == |files| && Described(all, files, cds, r.clouds, g) && Tiled(all, r.clouds)
    ensures r.Read? ==> r.clouds.forests == Keep(all, |all|, NearTo(g, boxes))
  {
    var c := Clouds([], [], []);
    all := [];
    for i := 0 to |files|
      invariant |all| == i && Described(all, files, cds, c, g) && Tiled(all, c)
      invariant c.forests == Keep(all, |all|, NearTo(g, boxes))
      invariant forall j :: 0 <= j < i ==> Sound(files[j])
    {
      var fault, f, c' := AppendCloud(files, cds, c, all, i, g, tol);
      if fault != [] {
        assert fault[0] in fault;
        return Abort(i, fault[0]), all;
      }
      KeepInPrefix(all, f, i, NearTo(g, boxes));
      all := all + [f];
      c := c';
      if Near(f, g, boxes) {
        KeepsForests(all, files, cds, c, g, c.forests + [f]);
        c := c.(forests := c.forests + [f]);
      }
    }
    r := Read(c);
  }

  ghost predicate OwnEdge(f: Record, c: Clouds, h: seq<Point>, i: nat)
    requires i < |h|
  {
    f.edgeOffset + i < |c.edges| && c.edges[f.edgeOffset + i] == EdgeBetween(h[i], h[(i + 1) % |h|])
  }

  /** The edges that a record names are those of a hull of its footprint. */
  lemma OwnHull(f: Record, file: CloudFile, c: Clouds) returns (h: seq<Point>)
    requires Describes(f, file, c)
    ensures HullOf(file, h) && f.edgeCount == |h|
    ensures forall i :: 0 <= i < |h| ==> OwnEdge(f, c, h, i)
  {
    var edges := c.edges[f.edgeOffset..f.edgeOffset + f.edgeCount];
    h :| HullOf(file, h) && EdgesOf(edges, h);
    forall i | 0 <= i < |h|
      ensures OwnEdge(f, c, h, i)
    {
      assert edges[i] == c.edges[f.edgeOffset + i];
    }
  }

  lemma SampleIsLeft(file: CloudFile, h: seq<Point>, i: nat, s: Sample)
    requires file.Rows? && HullOf(file, h) && i < |h| && s in SamplesOf(file.rows)
    ensures OnLeft(h, i, s.at)
  {
    var samples := SamplesOf(file.rows);
    var n :| 0 <= n < |samples| && samples[n] == s;
    assert Footprint(file)[n] == s.at;
  }

  lemma OwnEdgePasses(f: Record, file: CloudFile, c: Clouds, h: seq<Point>, i: nat, tol: real, s: Sample)
    requires file.Rows? && HullOf(file, h) && i < |h| && s in SamplesOf(file.rows) && tol >= 0.0 && OwnEdge(f, c, h, i)
    ensures WithinTolerance(c.edges[f.edgeOffset + i], s.at, tol)
  {
    SampleIsLeft(file, h, i, s);
    LeftPassesEdge(h, i, s.at, tol);
  }

  /** Every sample of a cloud passes the hull test of its own record's edge slice. */
  lemma OwnPointsPass(f: Record, file: CloudFile, c: Clouds, tol: real, s: Sample)
    requires Describes(f, file, c) && s in SamplesOf(file.rows) && tol >= 0.0
    ensures forall i :: f.edgeOffset <= i < f.edgeOffset + f.edgeCount ==> WithinTolerance(c.edges[i], s.at, tol)
  {
    var h := OwnHull(f, file, c);
    forall i | f.edgeOffset <= i < f.edgeOffset + f.edgeCount
      ensures WithinTolerance(c.edges[i], s.at, tol)
    {
      assert OwnEdge(f, c, h, i - f.edgeOffset);
      OwnEdgePasses(f, file, c, h, i - f.edgeOffset, tol, s);
    }
  }
}
