/** What the restriction of the drag kernel to the boxes of forests changes: the choice of
    forests for a level, and the trimming of cells to a forest's own box. */
module CanopyTrim {
  import opened Plane
  import opened ConvexHull
  import opened IndexVectors
  import opened IndexBoxes
  import opened Forest
  import opened Canopy

  // -------------------------------------------- forests kept for a level's boxes

  /** The contributions of the records that are kept. */
  function KeptLads(all: seq<Record>, lads: seq<real>, n: nat, near: Record -> bool): seq<real>
    requires n <= |all| && n <= |lads|
  {
    if n == 0 then [] else KeptLads(all, lads, n - 1, near) + (if near(all[n - 1]) then [lads[n - 1]] else [])
  }

  lemma {:induction false} SumsOfPrefix(forests: seq<Record>, lads: seq<real>, f: Record, lad: real, n: nat)
    requires n <= |forests| && n <= |lads|
    ensures Drag(forests + [f], lads + [lad], n) == Drag(forests, lads, n)
    ensures Owner(forests + [f], lads + [lad], n) == Owner(forests, lads, n)
  {
    if n > 0 {
      SumsOfPrefix(forests, lads, f, lad, n - 1);
    }
  }

  lemma SumsOfNext(forests: seq<Record>, lads: seq<real>, f: Record, lad: real)
    requires |forests| == |lads|
    ensures var n := |forests|;
      && Drag(forests + [f], lads + [lad], n + 1) == Drag(forests, lads, n) + (if lad > 0.0 then f.cd * lad else 0.0)
      && Owner(forests + [f], lads + [lad], n + 1) == if lad > 0.0 then f.id else Owner(forests, lads, n)
  {
    var n := |forests|;
    SumsOfPrefix(forests, lads, f, lad, n);
    assert (forests + [f])[n] == f && (lads + [lad])[n] == lad;
  }

  /** What is left out contributes nothing. */
  ghost predicate OnlyNearCount(all: seq<Record>, lads: seq<real>, near: Record -> bool)
    requires |all| == |lads|
  {
    forall n :: 0 <= n < |all| ==> near(all[n]) || lads[n] == 0.0
  }

  lemma {:induction false} KeptSums(all: seq<Record>, lads: seq<real>, n: nat, near: Record -> bool)
    requires n <= |all| == |lads| && OnlyNearCount(all, lads, near)
    ensures var k, l := Keep(all, n, near), KeptLads(all, lads, n, near);
      |k| == |l| && Drag(k, l, |k|) == Drag(all, lads, n) && Owner(k, l, |k|) == Owner(all, lads, n)
  {
    if n > 0 {
      KeptSums(all, lads, n - 1, near);
      var k, l := Keep(all, n - 1, near), KeptLads(all, lads, n - 1, near);
      if near(all[n - 1]) {
        SumsOfNext(k, l, all[n - 1], lads[n - 1]);
      } else {
        assert Keep(all, n, near) == k && KeptLads(all, lads, n, near) == l;
      }
    }
  }

  ghost predicate ContributeUpTo(v: IntVect, g: Geometry, forests: seq<Record>, c: Clouds, o: Settings, lads: seq<real>)
    requires Usable(o) && Meshed(g)
  {
    |lads| == |forests| && forall n :: 0 <= n < |lads| ==>
      Stored(forests[n], c) && KernelLad(v, g, forests[n], c, o, lads[n])
  }

  lemma {:induction false} KeptContribute(v: IntVect, g: Geometry, all: seq<Record>, c: Clouds, o: Settings,
                                          lads: seq<real>, n: nat, near: Record -> bool)
    requires Usable(o) && Meshed(g) && n <= |all| && ContributeUpTo(v, g, all, c, o, lads)
    ensures ContributeUpTo(v, g, Keep(all, n, near), c, o, KeptLads(all, lads, n, near))
  {
    if n > 0 {
      KeptContribute(v, g, all, c, o, lads, n - 1, near);
    }
  }

  lemma OthersDoNotReach(v: IntVect, g: Geometry, all: seq<Record>, c: Clouds, o: Settings, boxes: seq<CellBox>,
                         cb: CellBox, lads: seq<real>)
    requires Usable(o) && Meshed(g) && cb in boxes && InBox(cb, v) && ContributeUpTo(v, g, all, c, o, lads)
    ensures OnlyNearCount(all, lads, NearTo(g, boxes))
  {
    forall n | 0 <= n < |all|
      ensures NearTo(g, boxes)(all[n]) || lads[n] == 0.0
    {
      if HoldsCell(all[n].box, g, v) {
        MeetsIff(cb, all[n].box, g);
      } else {
        assert KernelLad(v, g, all[n], c, o, lads[n]);
      }
    }
  }

  lemma AreContributions(v: IntVect, g: Geometry, c: Clouds, o: Settings, lads: seq<real>)
    requires Usable(o) && Meshed(g) && ContributeUpTo(v, g, c.forests, c, o, lads)
    ensures Contributions(v, g, c, o, lads)
  {
  }

  /** A cell of the level's own boxes has the drag and the owner that all forests
      together give it: those that were not kept do not reach it. */
  lemma KeptForestsSuffice(v: IntVect, g: Geometry, all: seq<Record>, c: Clouds, o: Settings, boxes: seq<CellBox>,
                           cb: CellBox, lads: seq<real>, kept: seq<real>)
    requires Usable(o) && Meshed(g) && cb in boxes && InBox(cb, v) && c.forests == Keep(all, |all|, NearTo(g, boxes))
    requires ContributeUpTo(v, g, all, c, o, lads) && Contributions(v, g, c, o, kept)
    ensures Drag(c.forests, kept, |kept|) == Drag(all, lads, |lads|)
    ensures Owner(c.forests, kept, |kept|) == Owner(all, lads, |lads|)
  {
    assert kept == KeptLads(all, lads, |all|, NearTo(g, boxes)) by {
      KeptContribute(v, g, all, c, o, lads, |all|, NearTo(g, boxes));
      AreContributions(v, g, c, o, KeptLads(all, lads, |all|, NearTo(g, boxes)));
      ContributionsAreUnique(v, g, c, o, kept, KeptLads(all, lads, |all|, NearTo(g, boxes)));
    }
    assert OnlyNearCount(all, lads, NearTo(g, boxes)) by {
      OthersDoNotReach(v, g, all, c, o, boxes, cb, lads);
    }
    KeptSums(all, lads, |all|, NearTo(g, boxes));
  }

  lemma {:induction false} KeptAreNear(all: seq<Record>, n: nat, near: Record -> bool, f: Record)
    requires n <= |all|
    ensures f in Keep(all, n, near) <==> exists k :: 0 <= k < n && all[k] == f && near(f)
  {
    if n > 0 {
      KeptAreNear(all, n - 1, near, f);
    }
  }

  /** A forest is kept for a level exactly when its index box and some box of the level
      share a cell. */
  lemma KeptIffShared(g: Geometry, all: seq<Record>, boxes: seq<CellBox>, f: Record)
    requires Meshed(g) && f in all
    ensures f in Keep(all, |all|, NearTo(g, boxes))
            <==> exists cb, v :: cb in boxes && InBox(cb, v) && HoldsCell(f.box, g, v)
  {
    KeptAreNear(all, |all|, NearTo(g, boxes), f);
    if NearTo(g, boxes)(f) {
      var cb :| cb in boxes && Meets(cb, f.box, g);
      MeetsIff(cb, f.box, g);
    }
    forall cb, v | cb in boxes && InBox(cb, v) && HoldsCell(f.box, g, v)
      ensures NearTo(g, boxes)(f)
    {
      MeetsIff(cb, f.box, g);
    }
  }

  // ------------------------------------------------- what trimming to the box changes

  /** No density is negative; some may be zero. */
  predicate NonNegative(samples: seq<Sample>) {
    forall s :: s in samples ==> s.lad >= 0.0
  }

  /** Some neighbour has leaves. */
  predicate Bears(samples: seq<Sample>, idx: seq<nat>)
    requires Lists(samples, idx)
  {
    exists m :: 0 <= m < |idx| && samples[idx[m]].lad > 0.0
  }

  /** The cell meets leaves: those of the sample that it is on, or those of a neighbour
      below whose canopy it lies. */
  predicate Reached(cell: Cell, samples: seq<Sample>, idx: seq<nat>, o: Settings)
    requires Lists(samples, idx)
  {
    && |idx| > 0
    && if OnSample(cell, samples, idx, o) then samples[idx[0]].lad > 0.0
       else UnderCanopy(cell, samples, idx) && Bears(samples, idx)
  }

  lemma {:induction false} DotVanishes(w: seq<real>, v: seq<real>, n: nat)
    requires |w| == |v| && n <= |w| && forall m :: 0 <= m < |w| ==> w[m] > 0.0 && v[m] >= 0.0
    ensures Dot(w, v, n) >= 0.0
    ensures Dot(w, v, n) != 0.0 <==> exists m :: 0 <= m < n && v[m] > 0.0
  {
    if n > 0 {
      DotVanishes(w, v, n - 1);
      ProductVanishes(w[n - 1], v[n - 1]);
    }
  }

  lemma ProductVanishes(w: real, v: real)
    requires w > 0.0 && v >= 0.0
    ensures w * v >= 0.0 && (w * v != 0.0 <==> v > 0.0)
  {
    assert v > 0.0 ==> w * v > 0.0;
  }

  lemma QuotientVanishes(num: real, den: real)
    requires den > 0.0
    ensures num / den != 0.0 <==> num != 0.0
  {
    assert num / den * den == num;
  }

  lemma MeanVanishes(w: seq<real>, v: seq<real>)
    requires |w| == |v| && forall m :: 0 <= m < |w| ==> w[m] > 0.0 && v[m] >= 0.0
    ensures WeightedMean(w, v) != 0.0 <==> exists m :: 0 <= m < |v| && v[m] > 0.0
  {
    DotVanishes(w, v, |w|);
    if |w| > 0 {
      SumIsPositive(w, |w|);
      QuotientVanishes(Dot(w, v, |w|), Sum(w, |w|));
    }
  }

  /** The interpolated density is zero exactly where the cell meets no leaves. */
  lemma LadWhereReached(cell: Cell, samples: seq<Sample>, idx: seq<nat>, o: Settings)
    requires Usable(o) && Lists(samples, idx) && NonNegative(samples)
    ensures LadAt(cell, samples, idx, o) != 0.0 <==> Reached(cell, samples, idx, o)
  {
    var v := Lads(samples, idx);
    MeanVanishes(Weights(cell, samples, idx, o), v);
    assert Bears(samples, idx) <==> exists m :: 0 <= m < |v| && v[m] > 0.0;
  }

  /** Exactly which cells are changed by the trimming, in the domain or in its ghost
      layers: covered ones outside the box that meet leaves. `lad` is what the kernel
      adds, `whole` what it would add without the box. */
  lemma TrimmingChanges(v: IntVect, g: Geometry, f: Record, c: Clouds, o: Settings, lad: real, whole: real,
                        idx: seq<nat>)
    requires Usable(o) && Meshed(g) && Stored(f, c) && NonNegative(OwnSamples(f, c))
    requires KernelLad(v, g, f, c, o, lad) && IsContribution(CellAt(g, v), f, c, o, whole)
    requires Lists(OwnSamples(f, c), idx) && KNearest(Distances(CellAt(g, v), OwnSamples(f, c)), o.k, o.huge, idx)
    ensures lad != whole <==>
            && !HoldsCell(f.box, g, v) && Covers(f, c, Point(Centre(g.x, v.i), Centre(g.y, v.j)), o.tol)
            && Reached(CellAt(g, v), OwnSamples(f, c), idx, o)
  {
    var cell, samples := CellAt(g, v), OwnSamples(f, c);
    LadWhereReached(cell, samples, idx, o);
    if HoldsCell(f.box, g, v) {
      ContributionIsUnique(cell, f, c, o, lad, whole);
    } else if f.pointCount > 0 && Covers(f, c, Point(cell.x, cell.y), o.tol) {
      NearestLadFrom(cell, samples, o, whole, idx);
    }
  }

  lemma NearestLadFrom(cell: Cell, samples: seq<Sample>, o: Settings, lad: real, idx: seq<nat>)
    requires Usable(o) && IsNearestLad(cell, samples, o, lad)
    requires Lists(samples, idx) && KNearest(Distances(cell, samples), o.k, o.huge, idx)
    ensures lad == LadAt(cell, samples, idx, o)
  {
    LadIffDensity(cell, samples, idx, o, LadAt(cell, samples, idx, o));
    NearestLadIsUnique(cell, samples, o, lad, LadAt(cell, samples, idx, o));
  }

  lemma {:induction false} TopBounds(samples: seq<Sample>, idx: seq<nat>, n: nat, top: real)
    requires Lists(samples, idx) && n <= |idx|
    requires forall s :: s in samples ==> s.z <= top
    ensures 0.0 <= CanopyTop(samples, idx, n)
    ensures CanopyTop(samples, idx, n) <= top || CanopyTop(samples, idx, n) == 0.0
    ensures forall m :: 0 <= m < n ==> samples[idx[m]].z <= CanopyTop(samples, idx, n)
  {
    if n > 0 {
      TopBounds(samples, idx, n - 1, top);
    }
  }

  lemma SquareBelow(d: real, e: real)
    requires e >= 0.0 && d * d < e * e
    ensures -e < d < e
  {
    assert d >= e ==> (d - e) * (d + e) >= 0.0;
    assert -d >= e ==> (-d - e) * (e - d) >= 0.0;
    assert (d - e) * (d + e) == d * d - e * e;
    assert (-d - e) * (e - d) == d * d - e * e;
  }

  lemma OnSampleIsNear(cell: Cell, s: Sample, pad: real, eps2: real)
    requires Distance2(cell, s) < eps2 <= pad * pad && pad >= 0.0
    ensures -pad < cell.z - s.z < pad
  {
    var x, y, z := cell.x - s.at.x, cell.y - s.at.y, cell.z - s.z;
    assert x * x >= 0.0 && y * y >= 0.0;
    SquareBelow(z, pad);
  }

  /** A cell of the domain itself. */
  predicate InExtent(e: Extent, i: int) { e.lo <= LowFace(e, i) && HighFace(e, i) <= e.hi }

  predicate CellOfDomain(g: Geometry, v: IntVect) {
    InExtent(g.x, v.i) && InExtent(g.y, v.j) && InExtent(g.z, v.k)
  }

  /** The vertical range beyond the box: the cell ends below the padded samples; or it
      begins a cell above them though still not above the ground, with all samples
      below the ground. */
  predicate BeyondBox(f: Record, g: Geometry, k: int) {
    || HighFace(g.z, k) <= f.box.z.lo
    || (f.box.z.hi + g.z.dx <= LowFace(g.z, k) && LowFace(g.z, k) <= 0.0)
  }

  lemma CentreOfFaces(e: Extent, i: int)
    ensures Centre(e, i) - 0.5 * e.dx == LowFace(e, i) && Centre(e, i) + 0.5 * e.dx == HighFace(e, i)
  {
  }

  /** Across: a domain cell whose centre lies within the extents is in the box. */
  lemma HeldWithin(r: Span, e: Extent, i: int, pad: real)
    requires e.dx > 0.0 && pad >= 0.0 && InExtent(e, i) && r.lo <= Centre(e, i) <= r.hi
    ensures FirstIndex(Span(r.lo - pad, r.hi + pad), e) <= i <= LastIndex(Span(r.lo - pad, r.hi + pad), e)
  {
    HoldsAlongIff(Span(r.lo - pad, r.hi + pad), e, i);
    CentreOfFaces(e, i);
    FaceSteps(e, i);
  }

  /** On a mesh of cubes a domain cell is in the box of a cloud along an axis exactly when
      its centre is less than one cell below the samples, or less than two above. */
  lemma HeldByCentre(f: Record, samples: seq<Sample>, g: Geometry, v: IntVect, a: Axis, r: Span)
    requires Meshed(g) && g.x.dx == g.y.dx == g.z.dx && Boxed(f, samples, g) && SpansAlong(r, samples, a)
    requires InExtent(Direction(g, a), Coord(v, a))
    ensures var e := Direction(g, a);
      HoldsAlong(f.box, g, v, a) <==> r.lo - e.dx < Centre(e, Coord(v, a)) < r.hi + 2.0 * e.dx
  {
    var e, i := Direction(g, a), Coord(v, a);
    assert Along(f.box, a) == Span(r.lo - 0.5 * e.dx, r.hi + 0.5 * e.dx) by {
      SamplesBoxed(f, samples, g, a, r);
    }
    HoldsAlongIff(Along(f.box, a), e, i);
    CentreOfFaces(e, i);
    FaceSteps(e, i);
  }

  lemma SamplesBoxed(f: Record, samples: seq<Sample>, g: Geometry, a: Axis, r: Span)
    requires g.x.dx == g.y.dx == g.z.dx && Boxed(f, samples, g) && SpansAlong(r, samples, a)
    ensures Along(f.box, a) == Span(r.lo - 0.5 * Direction(g, a).dx, r.hi + 0.5 * Direction(g, a).dx)
  {
    var s := Along(Padded(f.box, -Pad(g)), a);
    assert SpansAlong(s, samples, a);
    var p :| p in samples && Place(p, a) == r.lo;
    var q :| q in samples && Place(q, a) == r.hi;
    assert s == r;
  }

  /** Upwards: a domain cell is outside the box exactly when it ends below it, or begins a
      cell above it. */
  lemma OutsideUpwards(r: Span, e: Extent, k: int)
    requires e.dx > 0.0 && InExtent(e, k)
    ensures FirstIndex(r, e) <= k <= LastIndex(r, e) <==> HighFace(e, k) > r.lo && LowFace(e, k) < r.hi + e.dx
  {
    HoldsAlongIff(r, e, k);
    FaceSteps(e, k);
  }

  /** The box holds the cell's column. */
  predicate HeldAcross(v: IntVect, g: Geometry, f: Record)
    requires Meshed(g)
  {
    HoldsAlong(f.box, g, v, AxisX) && HoldsAlong(f.box, g, v, AxisY)
  }

  /** The record's box is that of the samples, and holds the cell across. */
  ghost predicate OverCloud(v: IntVect, g: Geometry, f: Record, samples: seq<Sample>)
    requires Meshed(g)
  {
    Boxed(f, samples, g) && HeldAcross(v, g, f)
  }

  lemma BoxLeavesHeight(v: IntVect, g: Geometry, f: Record, samples: seq<Sample>)
    requires Meshed(g) && CellOfDomain(g, v) && OverCloud(v, g, f, samples)
    ensures HoldsCell(f.box, g, v) <==> HighFace(g.z, v.k) > f.box.z.lo && LowFace(g.z, v.k) < f.box.z.hi + g.z.dx
  {
    OutsideUpwards(f.box.z, g.z, v.k);
  }

  /** An average of points is in every half plane that holds the points. */
  lemma AverageInHalfPlane(k: real, l: real, d: real, q: Point, p1: Point, p2: Point, p3: Point,
                           w1: real, w2: real, w3: real)
    requires IsAverage(q, p1, p2, p3, w1, w2, w3)
    requires k * p1.x + l * p1.y >= d && k * p2.x + l * p2.y >= d && k * p3.x + l * p3.y >= d
    ensures k * q.x + l * q.y >= d
  {
    LinearInPoint(k, l, d, q, p1, p2, p3, w1, w2, w3);
    Scaled(w1, k * p1.x + l * p1.y - d);
    Scaled(w2, k * p2.x + l * p2.y - d);
    Scaled(w3, k * p3.x + l * p3.y - d);
  }

  predicate InPlan(b: RealBox, q: Point) { b.x.lo <= q.x <= b.x.hi && b.y.lo <= q.y <= b.y.hi }

  lemma AverageInBox(b: RealBox, q: Point, p1: Point, p2: Point, p3: Point, w1: real, w2: real, w3: real)
    requires IsAverage(q, p1, p2, p3, w1, w2, w3) && InPlan(b, p1) && InPlan(b, p2) && InPlan(b, p3)
    ensures InPlan(b, q)
  {
    AverageInHalfPlane(1.0, 0.0, b.x.lo, q, p1, p2, p3, w1, w2, w3);
    AverageInHalfPlane(-1.0, 0.0, -b.x.hi, q, p1, p2, p3, w1, w2, w3);
    AverageInHalfPlane(0.0, 1.0, b.y.lo, q, p1, p2, p3, w1, w2, w3);
    AverageInHalfPlane(0.0, -1.0, -b.y.hi, q, p1, p2, p3, w1, w2, w3);
  }

  lemma FootprintWithin(b: RealBox, file: CloudFile, q: Point)
    requires file.Rows? && Spans(b, SamplesOf(file.rows)) && q in Footprint(file)
    ensures InPlan(b, q)
  {
    var n :| 0 <= n < |Footprint(file)| && Footprint(file)[n] == q;
    var s := SamplesOf(file.rows)[n];
    assert Place(s, AxisX) == q.x && Place(s, AxisY) == q.y;
  }

  /** An average of points of the footprint lies within its extents. */
  lemma TriangleWithin(b: RealBox, file: CloudFile, q: Point)
    requires file.Rows? && Spans(b, SamplesOf(file.rows)) && InTriangleOf(Footprint(file), q)
    ensures InPlan(b, q)
  {
    var xy := Footprint(file);
    var p1, p2, p3, w1, w2, w3 :| p1 in xy && p2 in xy && p3 in xy && IsAverage(q, p1, p2, p3, w1, w2, w3);
    FootprintWithin(b, file, p1);
    FootprintWithin(b, file, p2);
    FootprintWithin(b, file, p3);
    AverageInBox(b, q, p1, p2, p3, w1, w2, w3);
  }

  lemma CoveredIsAverage(f: Record, file: CloudFile, c: Clouds, q: Point)
    requires Describes(f, file, c) && Stored(f, c) && Covers(f, c, q, 0.0)
    ensures InTriangleOf(Footprint(file), q)
  {
    var h := OwnHull(f, file, c);
    HullIsExact(Footprint(file), h, q);
    forall i | 0 <= i < |h|
      ensures OnLeft(h, i, q)
    {
      assert OwnEdge(f, c, h, i) && WithinTolerance(c.edges[f.edgeOffset + i], q, 0.0);
      ExactEdge(h, i, q);
    }
  }

  /** Whatever the tolerance, averages of the footprint are covered. */
  lemma AverageIsCovered(f: Record, file: CloudFile, c: Clouds, q: Point, tol: real)
    requires Describes(f, file, c) && Stored(f, c) && InTriangleOf(Footprint(file), q) && tol >= 0.0
    ensures Covers(f, c, q, tol)
  {
    var h := OwnHull(f, file, c);
    assert LeftOfAll(h, q) by {
      HullIsExact(Footprint(file), h, q);
    }
    forall i | f.edgeOffset <= i < f.edgeOffset + f.edgeCount
      ensures WithinTolerance(c.edges[i], q, tol)
    {
      assert OwnEdge(f, c, h, i - f.edgeOffset) && OnLeft(h, i - f.edgeOffset, q);
      LeftPassesEdge(h, i - f.edgeOffset, q, tol);
    }
  }

  lemma WithinIsHeldAcross(v: IntVect, g: Geometry, f: Record)
    requires Meshed(g) && CellOfDomain(g, v)
    requires f.box.x.lo + Pad(g) <= Centre(g.x, v.i) <= f.box.x.hi - Pad(g)
    requires f.box.y.lo + Pad(g) <= Centre(g.y, v.j) <= f.box.y.hi - Pad(g)
    ensures HeldAcross(v, g, f)
  {
    var pad := Pad(g);
    HeldWithin(Span(f.box.x.lo + pad, f.box.x.hi - pad), g.x, v.i, pad);
    HeldWithin(Span(f.box.y.lo + pad, f.box.y.hi - pad), g.y, v.j, pad);
  }

  /** The box holds every domain cell across whose centre is over the cloud. */
  lemma AverageIsHeldAcross(v: IntVect, g: Geometry, f: Record, file: CloudFile)
    requires Meshed(g) && CellOfDomain(g, v) && file.Rows? && Boxed(f, SamplesOf(file.rows), g)
    requires InTriangleOf(Footprint(file), Point(Centre(g.x, v.i), Centre(g.y, v.j)))
    ensures HeldAcross(v, g, f)
  {
    TriangleWithin(Padded(f.box, -Pad(g)), file, Point(Centre(g.x, v.i), Centre(g.y, v.j)));
    WithinIsHeldAcross(v, g, f);
  }

  lemma SamplesWithinHeight(f: Record, samples: seq<Sample>, g: Geometry, s: Sample)
    requires Boxed(f, samples, g) && s in samples
    ensures f.box.z.lo + Pad(g) <= s.z <= f.box.z.hi - Pad(g)
  {
    assert Place(s, AxisZ) == s.z;
  }

  lemma NearSampleIsHeld(v: IntVect, g: Geometry, f: Record, samples: seq<Sample>, s: Sample)
    requires Meshed(g) && CellOfDomain(g, v) && OverCloud(v, g, f, samples) && s in samples
    requires -Pad(g) < Centre(g.z, v.k) - s.z < Pad(g)
    ensures HoldsCell(f.box, g, v)
  {
    BoxLeavesHeight(v, g, f, samples);
    CentreOfFaces(g.z, v.k);
    SamplesWithinHeight(f, samples, g, s);
  }

  lemma TopWithinHeight(v: IntVect, g: Geometry, f: Record, samples: seq<Sample>, idx: seq<nat>)
    requires Boxed(f, samples, g) && Lists(samples, idx) && |idx| > 0
    ensures var top := CanopyTop(samples, idx, |idx|);
      && top >= 0.0 && top >= f.box.z.lo + Pad(g) && (top <= f.box.z.hi - Pad(g) || top == 0.0)
  {
    forall p | p in samples
      ensures p.z <= f.box.z.hi - Pad(g)
    {
      SamplesWithinHeight(f, samples, g, p);
    }
    SamplesWithinHeight(f, samples, g, samples[idx[0]]);
    TopBounds(samples, idx, |idx|, f.box.z.hi - Pad(g));
  }

  /** Below the top of the canopy a domain cell is outside the box where it lies beyond
      it, and only there. */
  lemma CanopyAndBox(v: IntVect, g: Geometry, f: Record, samples: seq<Sample>, idx: seq<nat>)
    requires Meshed(g) && CellOfDomain(g, v) && OverCloud(v, g, f, samples) && Lists(samples, idx) && |idx| > 0
    ensures !HoldsCell(f.box, g, v) && UnderCanopy(CellAt(g, v), samples, idx) <==> BeyondBox(f, g, v.k)
  {
    BoxLeavesHeight(v, g, f, samples);
    CentreOfFaces(g.z, v.k);
    TopWithinHeight(v, g, f, samples, idx);
    HighIsAboveLow(g.z, v.k);
  }

  lemma HighIsAboveLow(e: Extent, i: int)
    requires e.dx > 0.0
    ensures HighFace(e, i) == LowFace(e, i) + e.dx > LowFace(e, i)
  {
    FaceSteps(e, i);
  }

  lemma OnSampleIsHeld(v: IntVect, g: Geometry, f: Record, samples: seq<Sample>, s: Sample, eps2: real)
    requires Meshed(g) && CellOfDomain(g, v) && OverCloud(v, g, f, samples) && s in samples
    requires Distance2(CellAt(g, v), s) < eps2 <= Pad(g) * Pad(g)
    ensures HoldsCell(f.box, g, v)
  {
    NearInHeight(v, g, s, eps2);
    NearSampleIsHeld(v, g, f, samples, s);
  }

  lemma NearInHeight(v: IntVect, g: Geometry, s: Sample, eps2: real)
    requires Meshed(g) && Distance2(CellAt(g, v), s) < eps2 <= Pad(g) * Pad(g)
    ensures -Pad(g) < Centre(g.z, v.k) - s.z < Pad(g)
  {
    OnSampleIsNear(CellAt(g, v), s, Pad(g), eps2);
  }

  /** Leaves are met outside the box exactly beyond it, where a neighbour has any. */
  lemma ReachedIffBeyond(v: IntVect, g: Geometry, f: Record, samples: seq<Sample>, idx: seq<nat>, o: Settings)
    requires Meshed(g) && CellOfDomain(g, v) && o.eps2 <= Pad(g) * Pad(g) && OverCloud(v, g, f, samples)
    requires Lists(samples, idx)
    ensures !HoldsCell(f.box, g, v) && Reached(CellAt(g, v), samples, idx, o)
            <==> BeyondBox(f, g, v.k) && Bears(samples, idx)
  {
    if |idx| > 0 {
      if OnSample(CellAt(g, v), samples, idx, o) {
        OnSampleIsHeld(v, g, f, samples, samples[idx[0]], o.eps2);
      }
      CanopyAndBox(v, g, f, samples, idx);
    }
  }

  /** Exactly which domain cells lose drag by the trimming to the forest's box: covered
      ones that the box holds across and that lie beyond it, where a neighbour has
      leaves; and covered ones that the box does not hold across, where they meet leaves.
      `lad` is what the kernel adds, `whole` what it would add without the box. */
  lemma TrimmedIffBeyond(v: IntVect, g: Geometry, f: Record, c: Clouds, o: Settings, lad: real, whole: real,
                         idx: seq<nat>)
    requires Usable(o) && Meshed(g) && Stored(f, c) && CellOfDomain(g, v) && o.eps2 <= Pad(g) * Pad(g)
    requires Boxed(f, OwnSamples(f, c), g) && NonNegative(OwnSamples(f, c))
    requires KernelLad(v, g, f, c, o, lad) && IsContribution(CellAt(g, v), f, c, o, whole)
    requires Lists(OwnSamples(f, c), idx) && KNearest(Distances(CellAt(g, v), OwnSamples(f, c)), o.k, o.huge, idx)
    ensures lad != whole <==>
            && Covers(f, c, Point(Centre(g.x, v.i), Centre(g.y, v.j)), o.tol)
            && if HeldAcross(v, g, f) then BeyondBox(f, g, v.k) && Bears(OwnSamples(f, c), idx)
               else Reached(CellAt(g, v), OwnSamples(f, c), idx, o)
  {
    TrimmingChanges(v, g, f, c, o, lad, whole, idx);
    if HeldAcross(v, g, f) {
      ReachedIffBeyond(v, g, f, OwnSamples(f, c), idx, o);
    }
  }

  lemma CoveredOrNot(f: Record, file: CloudFile, c: Clouds, q: Point, tol: real)
    requires Describes(f, file, c) && Stored(f, c) && tol >= 0.0
    ensures if InTriangleOf(Footprint(file), q) then Covers(f, c, q, tol) else Covers(f, c, q, tol) ==> tol > 0.0
  {
    if InTriangleOf(Footprint(file), q) {
      AverageIsCovered(f, file, c, q, tol);
    } else if tol == 0.0 && Covers(f, c, q, tol) {
      CoveredIsAverage(f, file, c, q);
    }
  }

  /** Of a cloud as it was read: a domain cell over the cloud loses its drag exactly
      beyond the box, where a neighbour has leaves. Cells that are not over the cloud
      are trimmed only where the tolerance of the hull test covers them. */
  lemma TrimmedIffBeyondCloud(v: IntVect, g: Geometry, f: Record, file: CloudFile, c: Clouds, o: Settings,
                              lad: real, whole: real, idx: seq<nat>)
    requires Usable(o) && Meshed(g) && CellOfDomain(g, v) && o.eps2 <= Pad(g) * Pad(g)
    requires Describes(f, file, c) && Boxed(f, SamplesOf(file.rows), g) && NonNegative(SamplesOf(file.rows))
    requires KernelLad(v, g, f, c, o, lad) && IsContribution(CellAt(g, v), f, c, o, whole)
    requires Lists(OwnSamples(f, c), idx) && KNearest(Distances(CellAt(g, v), OwnSamples(f, c)), o.k, o.huge, idx)
    ensures var q := Point(Centre(g.x, v.i), Centre(g.y, v.j));
      if InTriangleOf(Footprint(file), q) then lad != whole <==> BeyondBox(f, g, v.k) && Bears(OwnSamples(f, c), idx)
      else lad != whole ==> o.tol > 0.0 && Covers(f, c, q, o.tol)
  {
    var q := Point(Centre(g.x, v.i), Centre(g.y, v.j));
    CoveredOrNot(f, file, c, q, o.tol);
    if InTriangleOf(Footprint(file), q) {
      AverageIsHeldAcross(v, g, f, file);
    }
    TrimmedIffBeyond(v, g, f, c, o, lad, whole, idx);
  }

  // ------------------------------------------------------------------ an example

  const UNIT := Extent(0.0, 20.0, 1.0)

  const CROWNS := [Sample(Point(0.0, 0.0), 10.0, 1.0), Sample(Point(4.0, 0.0), 10.0, 1.0),
                   Sample(Point(0.0, 4.0), 10.0, 1.0)]

  const CROWN_EDGES := [HullEdge(0.0, 4.0, 0.0, 5.0), HullEdge(-4.0, -4.0, -16.0, 9.0), HullEdge(4.0, 0.0, 0.0, 5.0)]

  /** Three crowns at height ten over a triangle. */
  ghost predicate Grove(f: Record, c: Clouds) {
    && f.pointOffset == 0 && f.pointCount == 3 && c.points == CROWNS
    && f.edgeOffset == 0 && f.edgeCount == 3 && c.edges == CROWN_EDGES
    && f.box == Padded(RealBox(Span(0.0, 4.0), Span(0.0, 4.0), Span(10.0, 10.0)), 0.5)
  }

  lemma EdgesHold(tol: real)
    requires tol >= 0.0
    ensures forall e :: e in CROWN_EDGES ==> WithinTolerance(e, Point(1.5, 1.5), tol)
  {
  }

  lemma GroveCovers(f: Record, c: Clouds, tol: real)
    requires Grove(f, c) && Stored(f, c) && tol >= 0.0
    ensures Covers(f, c, Point(1.5, 1.5), tol)
  {
    EdgesHold(tol);
  }

  lemma CrownsLad(o: Settings)
    requires Usable(o) && o.k == 4 && o.huge > 100.0
    ensures IsNearestLad(Cell(1.5, 1.5, 1.5, 1.0), CROWNS, o, 1.0)
  {
    var cell, idx := Cell(1.5, 1.5, 1.5, 1.0), [0, 1, 2];
    CrownsNearest(o);
    TopBounds(CROWNS, idx, 3, 10.0);
    assert CROWNS[idx[0]].z <= CanopyTop(CROWNS, idx, 3);
    assert UnderCanopy(cell, CROWNS, idx);
    LadIsMean(cell, CROWNS, idx, o, 1.0, 1.0);
    assert LadAt(cell, CROWNS, idx, o) == 1.0;
    LadIffDensity(cell, CROWNS, idx, o, 1.0);
  }

  lemma CrownsNearest(o: Settings)
    requires o.k == 4 && o.huge > 100.0
    ensures KNearest(Distances(Cell(1.5, 1.5, 1.5, 1.0), CROWNS), o.k, o.huge, [0, 1, 2])
  {
    assert Distances(Cell(1.5, 1.5, 1.5, 1.0), CROWNS) == [76.75, 80.75, 80.75];
  }

  lemma GroveIsAbove(f: Record, c: Clouds)
    requires Grove(f, c)
    ensures !HoldsCell(f.box, Geometry(UNIT, UNIT, UNIT), IntVect(1, 1, 1))
  {
    assert FirstIndex(Span(9.5, 10.5), UNIT) == 9;
  }

  lemma GroundCell()
    ensures CellAt(Geometry(UNIT, UNIT, UNIT), IntVect(1, 1, 1)) == Cell(1.5, 1.5, 1.5, 1.0)
  {
  }

  lemma WholeInGrove(f: Record, c: Clouds, o: Settings)
    requires Grove(f, c) && Stored(f, c) && Usable(o) && o.k == 4 && o.huge > 100.0
    ensures IsContribution(Cell(1.5, 1.5, 1.5, 1.0), f, c, o, 1.0)
  {
    GroveCovers(f, c, o.tol);
    CrownsLad(o);
    assert OwnSamples(f, c) == CROWNS;
  }

  /** A cell near the ground below the crowns would have the density one, but is not in
      the box, which begins at height nine and a half. */
  lemma GroundCellIsTrimmed(f: Record, c: Clouds, o: Settings)
    requires Grove(f, c) && Stored(f, c) && Usable(o) && o.k == 4 && o.huge > 100.0
    ensures var g, v := Geometry(UNIT, UNIT, UNIT), IntVect(1, 1, 1);
      IsContribution(CellAt(g, v), f, c, o, 1.0) && KernelLad(v, g, f, c, o, 0.0)
  {
    GroundCell();
    WholeInGrove(f, c, o);
    GroveIsAbove(f, c);
  }
}
