/** Method-of-lines convective fluxes: which kernel a tile uses, what that leaves on
    its faces, and what the convective rates of all tiles add up to. */
module MolFluxes {
  import opened BoxSums
  import opened IndexVectors

  function SurroundingNodes(b: Box, a: Axis): Box {
    match a
    case AxisX => b.(ihi := b.ihi + 1)
    case AxisY => b.(jhi := b.jhi + 1)
    case AxisZ => b.(khi := b.khi + 1)
  }

  // ------------------------------------------------------- boundary conditions

  datatype BcType = ExtDir | HoExtrap | OtherBc

  /** Types at the low and high ends of each axis, for one component. */
  datatype BcRec = BcRec(xlo: BcType, xhi: BcType, ylo: BcType, yhi: BcType, zlo: BcType, zhi: BcType)

  function Lo(bc: BcRec, a: Axis): BcType {
    match a
    case AxisX => bc.xlo
    case AxisY => bc.ylo
    case AxisZ => bc.zlo
  }

  function Hi(bc: BcRec, a: Axis): BcType {
    match a
    case AxisX => bc.xhi
    case AxisY => bc.yhi
    case AxisZ => bc.zhi
  }

  /** Boundary types whose value sits on the face or is extrapolated to it. */
  predicate OnFace(t: BcType) { t.ExtDir? || t.HoExtrap? }

  predicate AnyLo(bcs: seq<BcRec>, a: Axis) { exists n :: 0 <= n < |bcs| && OnFace(Lo(bcs[n], a)) }

  predicate AnyHi(bcs: seq<BcRec>, a: Axis) { exists n :: 0 <= n < |bcs| && OnFace(Hi(bcs[n], a)) }

  method HasExtdirOrHo(bcs: seq<BcRec>, a: Axis) returns (first: bool, second: bool)
    ensures first <==> AnyLo(bcs, a)
    ensures second <==> AnyHi(bcs, a)
  {
    first, second := false, false;
    for n := 0 to |bcs|
      invariant first <==> exists m :: 0 <= m < n && OnFace(Lo(bcs[m], a))
      invariant second <==> exists m :: 0 <= m < n && OnFace(Hi(bcs[m], a))
    {
      first := first || Lo(bcs[n], a).ExtDir? || Lo(bcs[n], a).HoExtrap?;
      second := second || Hi(bcs[n], a).ExtDir? || Hi(bcs[n], a).HoExtrap?;
    }
  }

  // ------------------------------------------------------------ the two kernels

  /** Second-order slopes of the advected quantity at a cell, given by the mesh
      library: the plain one, and the one that knows whether the two ends of the
      domain carry values on their faces. */
  datatype Slopes = Slopes(plain: (Axis, IntVect, nat) -> real, extdir: (Axis, IntVect, nat, bool, bool) -> real)

  /** The boundary-aware slope differs from the plain one only in the first and last
      cell of the domain, and there only when that end is flagged. */
  ghost predicate SlopesAgree(s: Slopes, d: Box) {
    forall a, c, n, lo, hi :: s.extdir(a, c, n, lo, hi) == s.plain(a, c, n)
                              || (lo && Coord(c, a) == SmallEnd(d, a)) || (hi && Coord(c, a) == BigEnd(d, a))
  }

  /** What the kernels read: domain, threshold velocity, boundary types of all
      components, advected quantity, face velocities, slopes. */
  datatype Setting = Setting(d: Box, smallVel: real, bcs: seq<BcRec>, q: CompField,
                             mac: (Axis, IntVect) -> real, slopes: Slopes)

  function Upwind(u: real, small: real, qmns: real, qpls: real): real {
    if u > small then qmns else if u < -small then qpls else 0.5 * (qmns + qpls)
  }

  function PlainFlux(s: Setting, a: Axis, c: IntVect, n: nat): real {
    var qpls := s.q(c, n) - 0.5 * s.slopes.plain(a, c, n);
    var qmns := s.q(Back(c, a), n) + 0.5 * s.slopes.plain(a, Back(c, a), n);
    Upwind(s.mac(a, c), s.smallVel, qmns, qpls) * s.mac(a, c)
  }

  function BoundaryFlux(s: Setting, a: Axis, c: IntVect, n: nat): real
    requires n < |s.bcs|
  {
    var lo, hi := OnFace(Lo(s.bcs[n], a)), OnFace(Hi(s.bcs[n], a));
    var qs :=
      if Coord(c, a) <= SmallEnd(s.d, a) && Lo(s.bcs[n], a).ExtDir? then s.q(Moved(c, a, SmallEnd(s.d, a) - 1), n)
      else if Coord(c, a) >= BigEnd(s.d, a) + 1 && Hi(s.bcs[n], a).ExtDir? then s.q(Moved(c, a, BigEnd(s.d, a) + 1), n)
      else
        var qpls := s.q(c, n) - 0.5 * s.slopes.extdir(a, c, n, lo, hi);
        var qmns := s.q(Back(c, a), n) + 0.5 * s.slopes.extdir(a, Back(c, a), n, lo, hi);
        Upwind(s.mac(a, c), s.smallVel, qmns, qpls);
    qs * s.mac(a, c)
  }

  /** Whether a tile runs the boundary-aware kernel along an axis. */
  predicate ChoosesBoundary(s: Setting, a: Axis, tile: Box) {
    var faces := SurroundingNodes(tile, a);
    || (AnyLo(s.bcs, a) && SmallEnd(s.d, a) >= SmallEnd(faces, a) - 1)
    || (AnyHi(s.bcs, a) && BigEnd(s.d, a) <= BigEnd(faces, a))
  }

  /** The flux that a tile puts on one of its faces. */
  function TileFlux(s: Setting, a: Axis, tile: Box, c: IntVect, n: nat): real
    requires n < |s.bcs|
  {
    if ChoosesBoundary(s, a, tile) then BoundaryFlux(s, a, c, n) else PlainFlux(s, a, c, n)
  }

  /** A face with this coordinate reads the slope of a flagged end cell. */
  predicate ReadsFlagged(s: Setting, a: Axis, x: int) {
    || (AnyLo(s.bcs, a) && (x == SmallEnd(s.d, a) || x - 1 == SmallEnd(s.d, a)))
    || (AnyHi(s.bcs, a) && (x == BigEnd(s.d, a) || x - 1 == BigEnd(s.d, a)))
  }

  /** For a tile of the domain the choice is exact: the boundary-aware kernel runs if
      and only if some face of the tile reads the slope of a flagged end cell. */
  lemma BoundaryKernelOnlyWhenNeeded(s: Setting, a: Axis, tile: Box)
    requires SmallEnd(s.d, a) <= SmallEnd(tile, a) <= BigEnd(tile, a) <= BigEnd(s.d, a)
    ensures ChoosesBoundary(s, a, tile)
            <==> exists x :: SmallEnd(tile, a) <= x <= BigEnd(tile, a) + 1 && ReadsFlagged(s, a, x)
  {
    var p, r := SmallEnd(tile, a), BigEnd(tile, a) + 1;
    if ChoosesBoundary(s, a, tile) {
      assert ReadsFlagged(s, a, p) || ReadsFlagged(s, a, r);
    }
  }

  lemma FlaggedComponent(bcs: seq<BcRec>, a: Axis, n: nat)
    requires n < |bcs|
    ensures OnFace(Lo(bcs[n], a)) ==> AnyLo(bcs, a)
    ensures OnFace(Hi(bcs[n], a)) ==> AnyHi(bcs, a)
  {
  }

  /** The flux on a face does not depend on the tile that computes it: it is the one
      boundary-aware formula, whichever kernel the tile chose. */
  lemma TileDoesNotMatter(s: Setting, a: Axis, tile: Box, c: IntVect, n: nat)
    requires n < |s.bcs| && SlopesAgree(s.slopes, s.d) && Inside(SurroundingNodes(tile, a), c)
    ensures TileFlux(s, a, tile, c, n) == BoundaryFlux(s, a, c, n)
  {
    FlaggedComponent(s.bcs, a, n);
    if !ChoosesBoundary(s, a, tile) {
      var lo, hi := OnFace(Lo(s.bcs[n], a)), OnFace(Hi(s.bcs[n], a));
      var b := Back(c, a);
      assert lo ==> SmallEnd(s.d, a) < Coord(b, a) < Coord(c, a);
      assert hi ==> Coord(b, a) < Coord(c, a) < BigEnd(s.d, a);
      assert s.slopes.extdir(a, c, n, lo, hi) == s.slopes.plain(a, c, n);
      assert s.slopes.extdir(a, b, n, lo, hi) == s.slopes.plain(a, b, n);
    }
  }

  // ------------------------------------------------------- what the formula means

  /** The face takes its value from the boundary rather than from a reconstruction. */
  predicate FromBoundary(s: Setting, a: Axis, c: IntVect, n: nat)
    requires n < |s.bcs|
  {
    || (Coord(c, a) <= SmallEnd(s.d, a) && Lo(s.bcs[n], a).ExtDir?)
    || (Coord(c, a) >= BigEnd(s.d, a) + 1 && Hi(s.bcs[n], a).ExtDir?)
  }

  function SlopeOf(s: Setting, a: Axis, c: IntVect, n: nat): real
    requires n < |s.bcs|
  {
    s.slopes.extdir(a, c, n, OnFace(Lo(s.bcs[n], a)), OnFace(Hi(s.bcs[n], a)))
  }

  /** Where the two cells around a face lie on a straight line with slope `g`, the
      flux is the value of that line on the face times the velocity, upwind or not. */
  lemma LinearFieldIsCarried(s: Setting, a: Axis, c: IntVect, n: nat, face: real, g: real)
    requires n < |s.bcs| && !FromBoundary(s, a, c, n)
    requires s.q(c, n) == face + 0.5 * g && s.q(Back(c, a), n) == face - 0.5 * g
    requires SlopeOf(s, a, c, n) == g && SlopeOf(s, a, Back(c, a), n) == g
    ensures BoundaryFlux(s, a, c, n) == face * s.mac(a, c)
  {
  }

  /** Away from boundary values the face takes the reconstruction from the cell upstream
      above the threshold velocity, and the mean of both sides below it. The slopes know
      whether the ends carry values on their faces, be they given or extrapolated. */
  lemma FaceTakesUpstream(s: Setting, a: Axis, c: IntVect, n: nat, left: real, right: real, lo: bool, hi: bool)
    requires n < |s.bcs| && !FromBoundary(s, a, c, n) && s.smallVel >= 0.0
    requires lo <==> Lo(s.bcs[n], a).ExtDir? || Lo(s.bcs[n], a).HoExtrap?
    requires hi <==> Hi(s.bcs[n], a).ExtDir? || Hi(s.bcs[n], a).HoExtrap?
    requires left == s.q(Back(c, a), n) + 0.5 * s.slopes.extdir(a, Back(c, a), n, lo, hi)
    requires right == s.q(c, n) - 0.5 * s.slopes.extdir(a, c, n, lo, hi)
    ensures s.mac(a, c) > s.smallVel ==> BoundaryFlux(s, a, c, n) == left * s.mac(a, c)
    ensures s.mac(a, c) < -s.smallVel ==> BoundaryFlux(s, a, c, n) == right * s.mac(a, c)
    ensures -s.smallVel <= s.mac(a, c) <= s.smallVel ==> 2.0 * BoundaryFlux(s, a, c, n) == (left + right) * s.mac(a, c)
  {
  }

  /** Above the threshold velocity the flux depends on the upstream cell alone. */
  lemma UpstreamOnly(s: Setting, t: Setting, a: Axis, c: IntVect, n: nat)
    requires n < |s.bcs| && t.bcs == s.bcs && t.d == s.d && t.smallVel == s.smallVel >= 0.0
    requires t.mac(a, c) == s.mac(a, c)
    requires !FromBoundary(s, a, c, n)
    requires var up := if s.mac(a, c) > 0.0 then Back(c, a) else c;
      t.q(up, n) == s.q(up, n) && SlopeOf(t, a, up, n) == SlopeOf(s, a, up, n)
    requires s.mac(a, c) > s.smallVel || s.mac(a, c) < -s.smallVel
    ensures BoundaryFlux(t, a, c, n) == BoundaryFlux(s, a, c, n)
  {
    var lo, hi := OnFace(Lo(s.bcs[n], a)), OnFace(Hi(s.bcs[n], a));
    FaceTakesUpstream(s, a, c, n, s.q(Back(c, a), n) + 0.5 * SlopeOf(s, a, Back(c, a), n),
                      s.q(c, n) - 0.5 * SlopeOf(s, a, c, n), lo, hi);
    FaceTakesUpstream(t, a, c, n, t.q(Back(c, a), n) + 0.5 * SlopeOf(t, a, Back(c, a), n),
                      t.q(c, n) - 0.5 * SlopeOf(t, a, c, n), lo, hi);
  }

  // ----------------------------------------------- faces with values from outside

  /** The domain has cells. */
  predicate HasCells(b: Box) { b.ilo < b.ihi && b.jlo < b.jhi && b.klo < b.khi }

  /** On the first and on the last face of the domain along x, where the end has an
      external type, a flux is the value stored beyond the face times the face velocity. */
  predicate CarriesX(s: Setting, c: IntVect, n: nat, flux: real)
    requires n < |s.bcs|
  {
    && (c.i == s.d.ilo && s.bcs[n].xlo.ExtDir? ==> flux == s.q(IntVect(s.d.ilo - 1, c.j, c.k), n) * s.mac(AxisX, c))
    && (c.i == s.d.ihi && s.bcs[n].xhi.ExtDir? ==> flux == s.q(IntVect(s.d.ihi, c.j, c.k), n) * s.mac(AxisX, c))
  }

  /** Likewise along y and z. */
  predicate CarriesY(s: Setting, c: IntVect, n: nat, flux: real)
    requires n < |s.bcs|
  {
    && (c.j == s.d.jlo && s.bcs[n].ylo.ExtDir? ==> flux == s.q(IntVect(c.i, s.d.jlo - 1, c.k), n) * s.mac(AxisY, c))
    && (c.j == s.d.jhi && s.bcs[n].yhi.ExtDir? ==> flux == s.q(IntVect(c.i, s.d.jhi, c.k), n) * s.mac(AxisY, c))
  }

  predicate CarriesZ(s: Setting, c: IntVect, n: nat, flux: real)
    requires n < |s.bcs|
  {
    && (c.k == s.d.klo && s.bcs[n].zlo.ExtDir? ==> flux == s.q(IntVect(c.i, c.j, s.d.klo - 1), n) * s.mac(AxisZ, c))
    && (c.k == s.d.khi && s.bcs[n].zhi.ExtDir? ==> flux == s.q(IntVect(c.i, c.j, s.d.khi), n) * s.mac(AxisZ, c))
  }

  lemma BoundaryFluxCarries(s: Setting, c: IntVect, n: nat)
    requires n < |s.bcs| && HasCells(s.d)
    ensures CarriesX(s, c, n, BoundaryFlux(s, AxisX, c, n))
    ensures CarriesY(s, c, n, BoundaryFlux(s, AxisY, c, n))
    ensures CarriesZ(s, c, n, BoundaryFlux(s, AxisZ, c, n))
  {
  }

  // ---------------------------------------------------------------- flux arrays

  /** An array covers the points of a box, with one entry per component. */
  ghost predicate Covers(f: array4<real>, b: Box, ncomp: nat) {
    f.Length0 == b.ihi - b.ilo && f.Length1 == b.jhi - b.jlo && f.Length2 == b.khi - b.klo && f.Length3 == ncomp
  }

  function At(f: array4<real>, b: Box, ncomp: nat, c: IntVect, n: nat): real
    requires Covers(f, b, ncomp) && Inside(b, c) && n < ncomp
    reads f
  {
    f[c.i - b.ilo, c.j - b.jlo, c.k - b.klo, n]
  }

  /** A field with several components, as a value. */
  type CompField = (IntVect, nat) -> real

  /** What an array holds in the points of its box, as a value. */
  ghost function CompFieldOf(f: array4<real>, b: Box, ncomp: nat): (r: CompField)
    requires Covers(f, b, ncomp)
    reads f
    ensures forall c, n :: Inside(b, c) && 0 <= n < ncomp ==> r(c, n) == At(f, b, ncomp, c, n)
  {
    var m := imap c: IntVect, n: nat | Inside(b, c) && n < ncomp :: (c, n) := At(f, b, ncomp, c, n);
    (c, n) => if Inside(b, c) && n < ncomp then m[(c, n)] else 0.0
  }

  function CompAt(f: CompField, n: nat, i: int, j: int, k: int): real { f(IntVect(i, j, k), n) }

  /** One component of a field. */
  function Comp(f: CompField, n: nat): CellField { (i, j, k) => CompAt(f, n, i, j, k) }

  /** One axis of the flux computation. */
  method FacesAlong(s: Setting, a: Axis, tile: Box, f: array4<real>)
    requires Covers(f, SurroundingNodes(tile, a), |s.bcs|)
    modifies f
    ensures forall c, n :: Inside(SurroundingNodes(tile, a), c) && 0 <= n < |s.bcs| ==>
              At(f, SurroundingNodes(tile, a), |s.bcs|, c, n) == TileFlux(s, a, tile, c, n)
  {
    var faces := SurroundingNodes(tile, a);
    var hasLo, hasHi := HasExtdirOrHo(s.bcs, a);
    if (hasLo && SmallEnd(s.d, a) >= SmallEnd(faces, a) - 1) || (hasHi && BigEnd(s.d, a) <= BigEnd(faces, a)) {
      forall x, y, z, n | 0 <= x < f.Length0 && 0 <= y < f.Length1 && 0 <= z < f.Length2 && 0 <= n < f.Length3 {
        f[x, y, z, n] := BoundaryFlux(s, a, IntVect(x + faces.ilo, y + faces.jlo, z + faces.klo), n);
      }
    } else {
      forall x, y, z, n | 0 <= x < f.Length0 && 0 <= y < f.Length1 && 0 <= z < f.Length2 && 0 <= n < f.Length3 {
        f[x, y, z, n] := PlainFlux(s, a, IntVect(x + faces.ilo, y + faces.jlo, z + faces.klo), n);
      }
    }
  }

  /** Every face array of the tile ends up with the boundary-aware flux. */
  ghost predicate HoldsFluxes(s: Setting, a: Axis, tile: Box, f: array4<real>)
    requires Covers(f, SurroundingNodes(tile, a), |s.bcs|)
    reads f
  {
    forall c, n :: Inside(SurroundingNodes(tile, a), c) && 0 <= n < |s.bcs| ==>
      At(f, SurroundingNodes(tile, a), |s.bcs|, c, n) == BoundaryFlux(s, a, c, n)
  }

  method FluxesAlong(s: Setting, a: Axis, tile: Box, f: array4<real>)
    requires Covers(f, SurroundingNodes(tile, a), |s.bcs|) && SlopesAgree(s.slopes, s.d)
    modifies f
    ensures HoldsFluxes(s, a, tile, f)
  {
    FacesAlong(s, a, tile, f);
    forall c, n | Inside(SurroundingNodes(tile, a), c) && 0 <= n < |s.bcs|
      ensures At(f, SurroundingNodes(tile, a), |s.bcs|, c, n) == BoundaryFlux(s, a, c, n)
    {
      TileDoesNotMatter(s, a, tile, c, n);
    }
  }

  ghost predicate CoversFaces(fx: array4<real>, fy: array4<real>, fz: array4<real>, b: Box, ncomp: nat) {
    && Covers(fx, SurroundingNodes(b, AxisX), ncomp) && Covers(fy, SurroundingNodes(b, AxisY), ncomp)
    && Covers(fz, SurroundingNodes(b, AxisZ), ncomp)
  }

  /** What the three face arrays of a tile hold on faces of the domain with an external
      type. */
  ghost predicate HoldsBoundaryValues(s: Setting, tile: Box, fx: array4<real>, fy: array4<real>, fz: array4<real>)
    requires CoversFaces(fx, fy, fz, tile, |s.bcs|)
    reads fx, fy, fz
  {
    && (forall c, n :: Inside(SurroundingNodes(tile, AxisX), c) && 0 <= n < |s.bcs| ==>
          CarriesX(s, c, n, At(fx, SurroundingNodes(tile, AxisX), |s.bcs|, c, n)))
    && (forall c, n :: Inside(SurroundingNodes(tile, AxisY), c) && 0 <= n < |s.bcs| ==>
          CarriesY(s, c, n, At(fy, SurroundingNodes(tile, AxisY), |s.bcs|, c, n)))
    && (forall c, n :: Inside(SurroundingNodes(tile, AxisZ), c) && 0 <= n < |s.bcs| ==>
          CarriesZ(s, c, n, At(fz, SurroundingNodes(tile, AxisZ), |s.bcs|, c, n)))
  }

  lemma FluxesHoldBoundaryValues(s: Setting, tile: Box, fx: array4<real>, fy: array4<real>, fz: array4<real>)
    requires CoversFaces(fx, fy, fz, tile, |s.bcs|) && HasCells(s.d)
    requires HoldsFluxes(s, AxisX, tile, fx) && HoldsFluxes(s, AxisY, tile, fy) && HoldsFluxes(s, AxisZ, tile, fz)
    ensures HoldsBoundaryValues(s, tile, fx, fy, fz)
  {
    forall c, n | 0 <= n < |s.bcs|
      ensures CarriesX(s, c, n, BoundaryFlux(s, AxisX, c, n))
      ensures CarriesY(s, c, n, BoundaryFlux(s, AxisY, c, n))
      ensures CarriesZ(s, c, n, BoundaryFlux(s, AxisZ, c, n))
    {
      BoundaryFluxCarries(s, c, n);
    }
  }

  /** Two settings have the same velocity on a face and the same value in a ghost cell. */
  predicate SameFace(s: Setting, t: Setting, a: Axis, c: IntVect, ghostCell: IntVect, n: nat) {
    s.q(ghostCell, n) == t.q(ghostCell, n) && s.mac(a, c) == t.mac(a, c)
  }

  /** On such faces the arrays of two settings agree where the value beyond the face and
      the velocity on it do, whatever the interior holds. */
  lemma OutsideDecidesFace(s: Setting, t: Setting, tile: Box, fx: array4<real>, fy: array4<real>, fz: array4<real>,
                           gx: array4<real>, gy: array4<real>, gz: array4<real>, c: IntVect, n: nat)
    requires t.d == s.d && t.bcs == s.bcs && n < |s.bcs|
    requires CoversFaces(fx, fy, fz, tile, |s.bcs|) && HoldsBoundaryValues(s, tile, fx, fy, fz)
    requires CoversFaces(gx, gy, gz, tile, |t.bcs|) && HoldsBoundaryValues(t, tile, gx, gy, gz)
    ensures var b := SurroundingNodes(tile, AxisX);
      Inside(b, c)
      && ((c.i == s.d.ilo && s.bcs[n].xlo.ExtDir? && SameFace(s, t, AxisX, c, IntVect(s.d.ilo - 1, c.j, c.k), n))
          || (c.i == s.d.ihi && s.bcs[n].xhi.ExtDir? && SameFace(s, t, AxisX, c, IntVect(s.d.ihi, c.j, c.k), n)))
      ==> At(fx, b, |s.bcs|, c, n) == At(gx, b, |t.bcs|, c, n)
    ensures var b := SurroundingNodes(tile, AxisY);
      Inside(b, c)
      && ((c.j == s.d.jlo && s.bcs[n].ylo.ExtDir? && SameFace(s, t, AxisY, c, IntVect(c.i, s.d.jlo - 1, c.k), n))
          || (c.j == s.d.jhi && s.bcs[n].yhi.ExtDir? && SameFace(s, t, AxisY, c, IntVect(c.i, s.d.jhi, c.k), n)))
      ==> At(fy, b, |s.bcs|, c, n) == At(gy, b, |t.bcs|, c, n)
    ensures var b := SurroundingNodes(tile, AxisZ);
      Inside(b, c)
      && ((c.k == s.d.klo && s.bcs[n].zlo.ExtDir? && SameFace(s, t, AxisZ, c, IntVect(c.i, c.j, s.d.klo - 1), n))
          || (c.k == s.d.khi && s.bcs[n].zhi.ExtDir? && SameFace(s, t, AxisZ, c, IntVect(c.i, c.j, s.d.khi), n)))
      ==> At(fz, b, |s.bcs|, c, n) == At(gz, b, |t.bcs|, c, n)
  {
  }

  method ComputeConvectiveFluxes(s: Setting, tile: Box, fx: array4<real>, fy: array4<real>, fz: array4<real>)
    requires SlopesAgree(s.slopes, s.d) && fx != fy && fx != fz && fy != fz
    requires CoversFaces(fx, fy, fz, tile, |s.bcs|)
    modifies fx, fy, fz
    ensures HoldsFluxes(s, AxisX, tile, fx) && HoldsFluxes(s, AxisY, tile, fy) && HoldsFluxes(s, AxisZ, tile, fz)
    ensures HasCells(s.d) ==> HoldsBoundaryValues(s, tile, fx, fy, fz)
  {
    FluxesAlong(s, AxisX, tile, fx);
    FluxesAlong(s, AxisY, tile, fy);
    FluxesAlong(s, AxisZ, tile, fz);
    if HasCells(s.d) {
      FluxesHoldBoundaryValues(s, tile, fx, fy, fz);
    }
  }

  // ------------------------------------------------------------ convective rates

  /** The rate of a cell from the fluxes on its six faces. */
  function RateFrom(dxinv: Inverse, xlo: real, xhi: real, ylo: real, yhi: real, zlo: real, zhi: real): real {
    dxinv.x * (xlo - xhi) + dxinv.y * (ylo - yhi) + dxinv.z * (zlo - zhi)
  }

  /** The rate of a cell from the three flux arrays. */
  function RateAt(b: Box, ncomp: nat, dxinv: Inverse, fx: array4<real>, fy: array4<real>, fz: array4<real>,
                  c: IntVect, n: nat): real
    requires CoversFaces(fx, fy, fz, b, ncomp) && Inside(b, c) && n < ncomp
    reads fx, fy, fz
  {
    var sx, sy, sz := SurroundingNodes(b, AxisX), SurroundingNodes(b, AxisY), SurroundingNodes(b, AxisZ);
    RateFrom(dxinv, At(fx, sx, ncomp, c, n), At(fx, sx, ncomp, Ahead(c, AxisX), n),
             At(fy, sy, ncomp, c, n), At(fy, sy, ncomp, Ahead(c, AxisY), n),
             At(fz, sz, ncomp, c, n), At(fz, sz, ncomp, Ahead(c, AxisZ), n))
  }

  /** A tile is part of the box of an array. */
  predicate PartOf(tile: Box, b: Box) {
    && b.ilo <= tile.ilo && tile.ihi <= b.ihi && b.jlo <= tile.jlo && tile.jhi <= b.jhi
    && b.klo <= tile.klo && tile.khi <= b.khi
  }

  /** Every cell of the tile holds its rate, in an array over the box `b`. */
  ghost predicate HoldsRates(tile: Box, ncomp: nat, dxinv: Inverse, fx: array4<real>, fy: array4<real>,
                             fz: array4<real>, b: Box, dUdt: array4<real>)
    requires CoversFaces(fx, fy, fz, tile, ncomp) && Covers(dUdt, b, ncomp) && PartOf(tile, b)
    reads fx, fy, fz, dUdt
  {
    forall c, n :: Inside(tile, c) && 0 <= n < ncomp ==>
      At(dUdt, b, ncomp, c, n) == RateAt(tile, ncomp, dxinv, fx, fy, fz, c, n)
  }

  /** Cells outside the tile are as they were. */
  twostate predicate KeepsOutside(tile: Box, ncomp: nat, b: Box, dUdt: array4<real>)
    requires Covers(dUdt, b, ncomp)
    reads dUdt
  {
    forall c, n :: Inside(b, c) && !Inside(tile, c) && 0 <= n < ncomp ==>
      At(dUdt, b, ncomp, c, n) == old(At(dUdt, b, ncomp, c, n))
  }

  method ComputeConvectiveRate(tile: Box, ncomp: nat, dxinv: Inverse, fx: array4<real>, fy: array4<real>,
                               fz: array4<real>, b: Box, dUdt: array4<real>)
    requires CoversFaces(fx, fy, fz, tile, ncomp) && Covers(dUdt, b, ncomp) && PartOf(tile, b)
    requires dUdt != fx && dUdt != fy && dUdt != fz
    modifies dUdt
    ensures HoldsRates(tile, ncomp, dxinv, fx, fy, fz, b, dUdt)
    ensures KeepsOutside(tile, ncomp, b, dUdt)
  {
    forall i, j, k, n | tile.ilo <= i < tile.ihi && tile.jlo <= j < tile.jhi && tile.klo <= k < tile.khi
                        && 0 <= n < ncomp {
      dUdt[i - b.ilo, j - b.jlo, k - b.klo, n] := RateAt(tile, ncomp, dxinv, fx, fy, fz, IntVect(i, j, k), n);
    }
  }

  /** Fluxes of one component on all faces. */
  type Fluxes = (Axis, IntVect) -> real

  function RateOf(f: Fluxes, dxinv: Inverse, c: IntVect): real {
    RateFrom(dxinv, f(AxisX, c), f(AxisX, Ahead(c, AxisX)), f(AxisY, c), f(AxisY, Ahead(c, AxisY)),
             f(AxisZ, c), f(AxisZ, Ahead(c, AxisZ)))
  }

  function BoundaryFluxes(s: Setting, n: nat): Fluxes
    requires n < |s.bcs|
  {
    (a, c) => BoundaryFlux(s, a, c, n)
  }

  lemma ArraysGiveRate(s: Setting, tile: Box, dxinv: Inverse, fx: array4<real>, fy: array4<real>, fz: array4<real>,
                       c: IntVect, n: nat)
    requires CoversFaces(fx, fy, fz, tile, |s.bcs|) && Inside(tile, c) && n < |s.bcs|
    requires HoldsFluxes(s, AxisX, tile, fx) && HoldsFluxes(s, AxisY, tile, fy) && HoldsFluxes(s, AxisZ, tile, fz)
    ensures RateAt(tile, |s.bcs|, dxinv, fx, fy, fz, c, n) == RateOf(BoundaryFluxes(s, n), dxinv, c)
  {
  }

  /** Every cell of a tile holds the rate of the boundary-aware fluxes, in an array over
      the box `b`. */
  ghost predicate HoldsTileRates(s: Setting, tile: Box, dxinv: Inverse, b: Box, dUdt: array4<real>)
    requires Covers(dUdt, b, |s.bcs|) && PartOf(tile, b)
    reads dUdt
  {
    forall c, n :: Inside(tile, c) && 0 <= n < |s.bcs| ==>
      At(dUdt, b, |s.bcs|, c, n) == RateOf(BoundaryFluxes(s, n), dxinv, c)
  }

  function ProductAt(rho: IntVect -> real, phi: CompField, c: IntVect, n: nat): real { rho(c) * phi(c, n) }

  /** The setting in which the field `s.q` is advected: times the density if the equation
      multiplies by it. */
  function Carrying(s: Setting, multiplyRho: bool, rho: IntVect -> real): Setting {
    if multiplyRho then s.(q := (c: IntVect, n: nat) => ProductAt(rho, s.q, c, n)) else s
  }

  /** On an inflow face the product with the density in the ghost cell is carried, where
      the equation multiplies by the density, and the value itself where it does not. */
  lemma InflowOfProduct(s: Setting, multiplyRho: bool, rho: IntVect -> real, c: IntVect, n: nat)
    requires n < |s.bcs| && HasCells(s.d)
    ensures var f := BoundaryFluxes(Carrying(s, multiplyRho, rho), n);
      var factor := (b: IntVect) => if multiplyRho then rho(b) else 1.0;
      && (c.i == s.d.ilo && s.bcs[n].xlo.ExtDir? ==>
            var b := IntVect(s.d.ilo - 1, c.j, c.k); f(AxisX, c) == factor(b) * s.q(b, n) * s.mac(AxisX, c))
      && (c.j == s.d.jlo && s.bcs[n].ylo.ExtDir? ==>
            var b := IntVect(c.i, s.d.jlo - 1, c.k); f(AxisY, c) == factor(b) * s.q(b, n) * s.mac(AxisY, c))
      && (c.k == s.d.klo && s.bcs[n].zlo.ExtDir? ==>
            var b := IntVect(c.i, c.j, s.d.klo - 1); f(AxisZ, c) == factor(b) * s.q(b, n) * s.mac(AxisZ, c))
  {
    BoundaryFluxCarries(Carrying(s, multiplyRho, rho), c, n);
  }

  /** One tile of the advection operator: the product with the density where the equation
      asks for it, fluxes into work arrays, rates from them. */
  method AdvectTile(s: Setting, multiplyRho: bool, rho: IntVect -> real, tile: Box, dxinv: Inverse, b: Box,
                    dUdt: array4<real>)
    requires Proper(tile) && PartOf(tile, b) && SlopesAgree(s.slopes, s.d) && Covers(dUdt, b, |s.bcs|)
    modifies dUdt
    ensures HoldsTileRates(Carrying(s, multiplyRho, rho), tile, dxinv, b, dUdt)
    ensures KeepsOutside(tile, |s.bcs|, b, dUdt)
  {
    var t := Carrying(s, multiplyRho, rho);
    var nx, ny, nz := tile.ihi - tile.ilo, tile.jhi - tile.jlo, tile.khi - tile.klo;
    var fx := new real[nx + 1, ny, nz, |s.bcs|];
    var fy := new real[nx, ny + 1, nz, |s.bcs|];
    var fz := new real[nx, ny, nz + 1, |s.bcs|];
    ComputeConvectiveFluxes(t, tile, fx, fy, fz);
    ComputeConvectiveRate(tile, |s.bcs|, dxinv, fx, fy, fz, b, dUdt);
    forall c, n | Inside(tile, c) && 0 <= n < |s.bcs|
      ensures At(dUdt, b, |s.bcs|, c, n) == RateOf(BoundaryFluxes(t, n), dxinv, c)
    {
      ArraysGiveRate(t, tile, dxinv, fx, fy, fz, c, n);
    }
  }

  function Scaled(f: Fluxes, a: Axis, p: real, i: int, j: int, k: int): real { p * f(a, IntVect(i, j, k)) }

  /** The fluxes through faces normal to one axis, per unit length along it. */
  function Per(f: Fluxes, a: Axis, p: real): CellField { (i, j, k) => Scaled(f, a, p, i, j, k) }

  lemma RateIdentity(dxinv: Inverse, xlo: real, xhi: real, ylo: real, yhi: real, zlo: real, zhi: real)
    ensures RateFrom(dxinv, xlo, xhi, ylo, yhi, zlo, zhi)
            == (dxinv.x * xlo - dxinv.x * xhi) + (dxinv.y * ylo - dxinv.y * yhi) + (dxinv.z * zlo - dxinv.z * zhi)
  {
  }

  lemma RateSteps(f: Fluxes, dxinv: Inverse, i: int, j: int, k: int)
    ensures RateOf(f, dxinv, IntVect(i, j, k))
            == (Scaled(f, AxisX, dxinv.x, i, j, k) - Scaled(f, AxisX, dxinv.x, i + 1, j, k))
               + (Scaled(f, AxisY, dxinv.y, i, j, k) - Scaled(f, AxisY, dxinv.y, i, j + 1, k))
               + (Scaled(f, AxisZ, dxinv.z, i, j, k) - Scaled(f, AxisZ, dxinv.z, i, j, k + 1))
  {
    var c := IntVect(i, j, k);
    RateIdentity(dxinv, f(AxisX, c), f(AxisX, Ahead(c, AxisX)), f(AxisY, c), f(AxisY, Ahead(c, AxisY)),
                 f(AxisZ, c), f(AxisZ, Ahead(c, AxisZ)));
  }

  /** What fluxes carry into a box less what they carry out of it. */
  function Inflow(f: Fluxes, dxinv: Inverse, b: Box): real {
    NetInflow(Per(f, AxisX, dxinv.x), Per(f, AxisY, dxinv.y), Per(f, AxisZ, dxinv.z), b)
  }

  ghost predicate IsRate(f: Fluxes, dxinv: Inverse, rate: CellField, b: Box) {
    forall i, j, k {:trigger rate(i, j, k)} :: In(b, i, j, k) ==> rate(i, j, k) == RateOf(f, dxinv, IntVect(i, j, k))
  }

  /** Fluxes through faces inside the box cancel. */
  lemma RatesTelescope(f: Fluxes, dxinv: Inverse, rate: CellField, b: Box)
    requires Proper(b) && IsRate(f, dxinv, rate, b)
    ensures Total(rate, b) == Inflow(f, dxinv, b)
  {
    var fx, fy, fz := Per(f, AxisX, dxinv.x), Per(f, AxisY, dxinv.y), Per(f, AxisZ, dxinv.z);
    forall i, j, k | In(b, i, j, k)
      ensures rate(i, j, k) == XStepAt(fx, i, j, k) + YStepAt(fy, i, j, k) + ZStepAt(fz, i, j, k)
    {
      RateSteps(f, dxinv, i, j, k);
    }
    NetThroughFaces(fx, fy, fz, rate, b);
  }

  /** The tiles of a box, and cells in them. */
  ghost predicate TilesOf(tiles: seq<Box>, b: Box) {
    forall m :: 0 <= m < |tiles| ==> Proper(tiles[m]) && PartOf(tiles[m], b)
  }

  /** Every cell of a box is in some tile. */
  ghost predicate Tiled(tiles: seq<Box>, b: Box) {
    forall c :: Inside(b, c) ==> InSomeTile(tiles, c)
  }

  ghost predicate InSomeTile(tiles: seq<Box>, c: IntVect) {
    exists m :: 0 <= m < |tiles| && Inside(tiles[m], c)
  }

  /** The array holds the rates in the first tiles. */
  ghost predicate HoldsFirst(s: Setting, tiles: seq<Box>, m: nat, dxinv: Inverse, b: Box, dUdt: array4<real>)
    requires Covers(dUdt, b, |s.bcs|) && TilesOf(tiles, b) && m <= |tiles|
    reads dUdt
  {
    forall l :: 0 <= l < m ==> HoldsTileRates(s, tiles[l], dxinv, b, dUdt)
  }

  lemma TilesHoldAll(s: Setting, tiles: seq<Box>, dxinv: Inverse, b: Box, dUdt: array4<real>)
    requires Covers(dUdt, b, |s.bcs|) && TilesOf(tiles, b) && Tiled(tiles, b)
    requires HoldsFirst(s, tiles, |tiles|, dxinv, b, dUdt)
    ensures HoldsTileRates(s, b, dxinv, b, dUdt)
  {
    forall c, n | Inside(b, c) && 0 <= n < |s.bcs|
      ensures At(dUdt, b, |s.bcs|, c, n) == RateOf(BoundaryFluxes(s, n), dxinv, c)
    {
      assert InSomeTile(tiles, c);
      var m :| 0 <= m < |tiles| && Inside(tiles[m], c);
      assert HoldsTileRates(s, tiles[m], dxinv, b, dUdt);
    }
  }

  lemma FilledIsRate(s: Setting, n: nat, dxinv: Inverse, b: Box, dUdt: array4<real>)
    requires Covers(dUdt, b, |s.bcs|) && n < |s.bcs| && HoldsTileRates(s, b, dxinv, b, dUdt)
    ensures IsRate(BoundaryFluxes(s, n), dxinv, Comp(CompFieldOf(dUdt, b, |s.bcs|), n), b)
  {
    var rate := Comp(CompFieldOf(dUdt, b, |s.bcs|), n);
    forall i, j, k | In(b, i, j, k)
      ensures rate(i, j, k) == RateOf(BoundaryFluxes(s, n), dxinv, IntVect(i, j, k))
    {
      assert rate(i, j, k) == At(dUdt, b, |s.bcs|, IntVect(i, j, k), n);
    }
  }

  /** The values that an array holds for one component add up to what the boundary-aware
      flux carries into the box less what it carries out. */
  ghost predicate AddsUp(s: Setting, n: nat, dxinv: Inverse, b: Box, dUdt: array4<real>)
    requires Covers(dUdt, b, |s.bcs|) && n < |s.bcs|
    reads dUdt
  {
    Total(Comp(CompFieldOf(dUdt, b, |s.bcs|), n), b) == Inflow(BoundaryFluxes(s, n), dxinv, b)
  }

  /** Conservation for any tiling of any box: however the cells are shared out and
      whichever kernel each tile picked, the rates in the array add up to the net inflow. */
  lemma TilingConserves(s: Setting, tiles: seq<Box>, n: nat, dxinv: Inverse, b: Box, dUdt: array4<real>)
    requires Covers(dUdt, b, |s.bcs|) && TilesOf(tiles, b) && Tiled(tiles, b) && n < |s.bcs|
    requires HoldsFirst(s, tiles, |tiles|, dxinv, b, dUdt)
    ensures AddsUp(s, n, dxinv, b, dUdt)
  {
    TilesHoldAll(s, tiles, dxinv, b, dUdt);
    FilledIsRate(s, n, dxinv, b, dUdt);
    RatesTelescope(BoundaryFluxes(s, n), dxinv, Comp(CompFieldOf(dUdt, b, |s.bcs|), n), b);
  }

  /** One more tile. */
  method AdvectNext(s: Setting, multiplyRho: bool, rho: IntVect -> real, tiles: seq<Box>, m: nat, dxinv: Inverse,
                    b: Box, dUdt: array4<real>)
    requires SlopesAgree(s.slopes, s.d) && Covers(dUdt, b, |s.bcs|) && TilesOf(tiles, b) && m < |tiles|
    requires HoldsFirst(Carrying(s, multiplyRho, rho), tiles, m, dxinv, b, dUdt)
    modifies dUdt
    ensures HoldsFirst(Carrying(s, multiplyRho, rho), tiles, m + 1, dxinv, b, dUdt)
  {
    AdvectTile(s, multiplyRho, rho, tiles[m], dxinv, b, dUdt);
    ghost var t := Carrying(s, multiplyRho, rho);
    forall l | 0 <= l < m
      ensures HoldsTileRates(t, tiles[l], dxinv, b, dUdt)
    {
      assert old(HoldsTileRates(t, tiles[l], dxinv, b, dUdt));
    }
  }

  /** The advection operator on one array: tile after tile, each by its own choice of
      kernels. A cell that is in two tiles gets the same rate from both. */
  method Advect(s: Setting, multiplyRho: bool, rho: IntVect -> real, tiles: seq<Box>, dxinv: Inverse, b: Box,
                dUdt: array4<real>)
    requires SlopesAgree(s.slopes, s.d) && Covers(dUdt, b, |s.bcs|) && TilesOf(tiles, b)
    modifies dUdt
    ensures HoldsFirst(Carrying(s, multiplyRho, rho), tiles, |tiles|, dxinv, b, dUdt)
    ensures Tiled(tiles, b) ==> HoldsTileRates(Carrying(s, multiplyRho, rho), b, dxinv, b, dUdt)
    ensures Tiled(tiles, b) ==>
              forall n :: 0 <= n < |s.bcs| ==> AddsUp(Carrying(s, multiplyRho, rho), n, dxinv, b, dUdt)
  {
    ghost var t := Carrying(s, multiplyRho, rho);
    for m := 0 to |tiles|
      invariant HoldsFirst(t, tiles, m, dxinv, b, dUdt)
    {
      AdvectNext(s, multiplyRho, rho, tiles, m, dxinv, b, dUdt);
    }
    if Tiled(tiles, b) {
      TilesHoldAll(t, tiles, dxinv, b, dUdt);
      forall n | 0 <= n < |s.bcs|
        ensures AddsUp(t, n, dxinv, b, dUdt)
      {
        TilingConserves(t, tiles, n, dxinv, b, dUdt);
      }
    }
  }

  // --------------------------------------------------------------- periodic boxes

  /** The first and the last face of the box carry the same flux along every axis. */
  ghost predicate FluxesClose(f: Fluxes, b: Box) {
    forall a: Axis, c: IntVect {:trigger Across(b, c, a)} ::
      Across(b, c, a) ==> f(a, Moved(c, a, SmallEnd(b, a))) == f(a, Moved(c, a, BigEnd(b, a) + 1))
  }

  lemma ScaledCloses(f: Fluxes, a: Axis, p: real, b: Box)
    requires FluxesClose(f, b)
    ensures Closes(Per(f, a, p), b, a)
  {
    forall c | Across(b, c, a)
      ensures ValueAt(Per(f, a, p), Moved(c, a, SmallEnd(b, a))) == ValueAt(Per(f, a, p), Moved(c, a, BigEnd(b, a) + 1))
    {
      ScaledAt(f, a, p, Moved(c, a, SmallEnd(b, a)));
      ScaledAt(f, a, p, Moved(c, a, BigEnd(b, a) + 1));
    }
  }

  lemma ScaledAt(f: Fluxes, a: Axis, p: real, c: IntVect)
    ensures ValueAt(Per(f, a, p), c) == p * f(a, c)
  {
  }

  /** Such fluxes bring nothing in. */
  lemma ClosedFluxesBringNothing(f: Fluxes, dxinv: Inverse, b: Box)
    requires FluxesClose(f, b)
    ensures Inflow(f, dxinv, b) == 0.0
  {
    ScaledCloses(f, AxisX, dxinv.x, b);
    ScaledCloses(f, AxisY, dxinv.y, b);
    ScaledCloses(f, AxisZ, dxinv.z, b);
    NothingThroughClosedFaces(Per(f, AxisX, dxinv.x), Per(f, AxisY, dxinv.y), Per(f, AxisZ, dxinv.z), b);
  }

  /** Along one line of cells the ghost cells next to the two ends repeat the cells at
      the other ends, with value and slope, and both end faces have one velocity. */
  ghost predicate RepeatsAlong(s: Setting, a: Axis, c: IntVect, n: nat) {
    var lo, hi := SmallEnd(s.d, a), BigEnd(s.d, a);
    && s.q(Moved(c, a, lo - 1), n) == s.q(Moved(c, a, hi), n)
    && s.q(Moved(c, a, hi + 1), n) == s.q(Moved(c, a, lo), n)
    && s.slopes.plain(a, Moved(c, a, lo - 1), n) == s.slopes.plain(a, Moved(c, a, hi), n)
    && s.slopes.plain(a, Moved(c, a, hi + 1), n) == s.slopes.plain(a, Moved(c, a, lo), n)
    && s.mac(a, Moved(c, a, lo)) == s.mac(a, Moved(c, a, hi + 1))
  }

  /** Component `n` is periodic in all directions: no end has a type with values on the
      face, and the data repeat. */
  ghost predicate PeriodicIn(s: Setting, n: nat) {
    && n < |s.bcs|
    && (forall a: Axis :: !OnFace(Lo(s.bcs[n], a)) && !OnFace(Hi(s.bcs[n], a)))
    && (forall a: Axis, c: IntVect {:trigger Across(s.d, c, a)} :: Across(s.d, c, a) ==> RepeatsAlong(s, a, c, n))
  }

  lemma MovedBack(c: IntVect, a: Axis, x: int)
    ensures Back(Moved(c, a, x), a) == Moved(c, a, x - 1)
    ensures Coord(Moved(c, a, x), a) == x
  {
  }

  /** Without values on faces the flux is the plain one, from values and plain slopes. */
  lemma FluxWithoutFaces(s: Setting, a: Axis, c: IntVect, n: nat)
    requires n < |s.bcs| && SlopesAgree(s.slopes, s.d)
    requires !OnFace(Lo(s.bcs[n], a)) && !OnFace(Hi(s.bcs[n], a))
    ensures BoundaryFlux(s, a, c, n) == PlainFlux(s, a, c, n)
  {
    assert s.slopes.extdir(a, c, n, false, false) == s.slopes.plain(a, c, n);
    assert s.slopes.extdir(a, Back(c, a), n, false, false) == s.slopes.plain(a, Back(c, a), n);
  }

  lemma RepeatedFlux(s: Setting, a: Axis, c: IntVect, n: nat)
    requires RepeatsAlong(s, a, c, n)
    ensures PlainFlux(s, a, Moved(c, a, SmallEnd(s.d, a)), n) == PlainFlux(s, a, Moved(c, a, BigEnd(s.d, a) + 1), n)
  {
    MovedBack(c, a, SmallEnd(s.d, a));
    MovedBack(c, a, BigEnd(s.d, a) + 1);
  }

  /** Periodic data have closed fluxes. */
  lemma PeriodicFluxesClose(s: Setting, n: nat)
    requires PeriodicIn(s, n) && SlopesAgree(s.slopes, s.d)
    ensures FluxesClose(BoundaryFluxes(s, n), s.d)
  {
    var f := BoundaryFluxes(s, n);
    forall a: Axis, c: IntVect {:trigger Across(s.d, c, a)} | Across(s.d, c, a)
      ensures f(a, Moved(c, a, SmallEnd(s.d, a))) == f(a, Moved(c, a, BigEnd(s.d, a) + 1))
    {
      FluxWithoutFaces(s, a, Moved(c, a, SmallEnd(s.d, a)), n);
      FluxWithoutFaces(s, a, Moved(c, a, BigEnd(s.d, a) + 1), n);
      RepeatedFlux(s, a, c, n);
    }
  }

  lemma PeriodicInflow(s: Setting, n: nat, dxinv: Inverse)
    requires PeriodicIn(s, n) && SlopesAgree(s.slopes, s.d)
    ensures Inflow(BoundaryFluxes(s, n), dxinv, s.d) == 0.0
  {
    PeriodicFluxesClose(s, n);
    ClosedFluxesBringNothing(BoundaryFluxes(s, n), dxinv, s.d);
  }

  /** Convection of periodic data conserves the total over the domain, however it is
      tiled: the values in the array add up to nothing. */
  lemma PeriodicTilingConserves(s: Setting, tiles: seq<Box>, n: nat, dxinv: Inverse, dUdt: array4<real>)
    requires PeriodicIn(s, n) && SlopesAgree(s.slopes, s.d) && Covers(dUdt, s.d, |s.bcs|)
    requires TilesOf(tiles, s.d) && Tiled(tiles, s.d) && HoldsFirst(s, tiles, |tiles|, dxinv, s.d, dUdt)
    ensures Total(Comp(CompFieldOf(dUdt, s.d, |s.bcs|), n), s.d) == 0.0
  {
    TilingConserves(s, tiles, n, dxinv, s.d, dUdt);
    PeriodicInflow(s, n, dxinv);
  }

  // ------------------------------------------------------- boxes with external ends

  /** All ends of a component have an external type. */
  predicate ExternalIn(s: Setting, n: nat) {
    && n < |s.bcs|
    && s.bcs[n] == BcRec(ExtDir, ExtDir, ExtDir, ExtDir, ExtDir, ExtDir)
  }

  /** Two settings have the same values beyond the ends of the domain, and the same
      velocities on its outer faces. */
  ghost predicate SameOutside(s: Setting, t: Setting, n: nat) {
    forall a: Axis, c: IntVect {:trigger Across(s.d, c, a)} :: Across(s.d, c, a) ==>
      && s.q(Moved(c, a, SmallEnd(s.d, a) - 1), n) == t.q(Moved(c, a, SmallEnd(s.d, a) - 1), n)
      && s.q(Moved(c, a, BigEnd(s.d, a) + 1), n) == t.q(Moved(c, a, BigEnd(s.d, a) + 1), n)
      && s.mac(a, Moved(c, a, SmallEnd(s.d, a))) == t.mac(a, Moved(c, a, SmallEnd(s.d, a)))
      && s.mac(a, Moved(c, a, BigEnd(s.d, a) + 1)) == t.mac(a, Moved(c, a, BigEnd(s.d, a) + 1))
  }

  lemma MovedAgain(c: IntVect, a: Axis, x: int, y: int)
    ensures Moved(Moved(c, a, x), a, y) == Moved(c, a, y) && Coord(Moved(c, a, x), a) == x
  {
  }

  lemma ExternalTypes(s: Setting, n: nat, a: Axis)
    requires ExternalIn(s, n) && HasCells(s.d)
    ensures Lo(s.bcs[n], a).ExtDir? && Hi(s.bcs[n], a).ExtDir? && SmallEnd(s.d, a) <= BigEnd(s.d, a)
  {
  }

  /** The flux on the outer faces, along any axis. */
  lemma OuterFlux(s: Setting, n: nat, a: Axis, c: IntVect)
    requires ExternalIn(s, n) && HasCells(s.d)
    ensures var first, last := SmallEnd(s.d, a), BigEnd(s.d, a) + 1;
      && BoundaryFlux(s, a, Moved(c, a, first), n) == s.q(Moved(c, a, first - 1), n) * s.mac(a, Moved(c, a, first))
      && BoundaryFlux(s, a, Moved(c, a, last), n) == s.q(Moved(c, a, last), n) * s.mac(a, Moved(c, a, last))
  {
    var first, last := SmallEnd(s.d, a), BigEnd(s.d, a) + 1;
    ExternalTypes(s, n, a);
    MovedAgain(c, a, first, first - 1);
    MovedAgain(c, a, last, last);
  }

  lemma OuterFluxesAgree(s: Setting, t: Setting, n: nat, a: Axis, p: real)
    requires ExternalIn(s, n) && ExternalIn(t, n) && t.d == s.d && HasCells(s.d) && SameOutside(s, t, n)
    ensures AgreeOnEnds(Per(BoundaryFluxes(s, n), a, p), Per(BoundaryFluxes(t, n), a, p), s.d, a)
  {
    forall c | Across(s.d, c, a)
      ensures ValueAt(Per(BoundaryFluxes(s, n), a, p), Moved(c, a, SmallEnd(s.d, a)))
              == ValueAt(Per(BoundaryFluxes(t, n), a, p), Moved(c, a, SmallEnd(s.d, a)))
      ensures ValueAt(Per(BoundaryFluxes(s, n), a, p), Moved(c, a, BigEnd(s.d, a) + 1))
              == ValueAt(Per(BoundaryFluxes(t, n), a, p), Moved(c, a, BigEnd(s.d, a) + 1))
    {
      OuterFlux(s, n, a, c);
      OuterFlux(t, n, a, c);
      SamePer(s, t, n, a, p, Moved(c, a, SmallEnd(s.d, a)));
      SamePer(s, t, n, a, p, Moved(c, a, BigEnd(s.d, a) + 1));
    }
  }

  lemma SamePer(s: Setting, t: Setting, n: nat, a: Axis, p: real, c: IntVect)
    requires n < |s.bcs| && n < |t.bcs|
    ensures BoundaryFlux(s, a, c, n) == BoundaryFlux(t, a, c, n) ==>
              ValueAt(Per(BoundaryFluxes(s, n), a, p), c) == ValueAt(Per(BoundaryFluxes(t, n), a, p), c)
  {
    ScaledAt(BoundaryFluxes(s, n), a, p, c);
    ScaledAt(BoundaryFluxes(t, n), a, p, c);
  }

  /** With external ends all around, what the rates in the array add up to depends on the
      values given beyond the ends and on the velocities of the outer faces alone: neither
      the interior nor the tiling matters. */
  lemma OutsideDecidesTotal(s: Setting, t: Setting, n: nat, dxinv: Inverse, sUdt: array4<real>, tUdt: array4<real>)
    requires ExternalIn(s, n) && ExternalIn(t, n) && t.d == s.d && HasCells(s.d) && SameOutside(s, t, n)
    requires Covers(sUdt, s.d, |s.bcs|) && HoldsTileRates(s, s.d, dxinv, s.d, sUdt)
    requires Covers(tUdt, t.d, |t.bcs|) && HoldsTileRates(t, t.d, dxinv, t.d, tUdt)
    ensures Total(Comp(CompFieldOf(sUdt, s.d, |s.bcs|), n), s.d) == Total(Comp(CompFieldOf(tUdt, t.d, |t.bcs|), n), t.d)
  {
    FilledIsRate(s, n, dxinv, s.d, sUdt);
    FilledIsRate(t, n, dxinv, t.d, tUdt);
    RatesTelescope(BoundaryFluxes(s, n), dxinv, Comp(CompFieldOf(sUdt, s.d, |s.bcs|), n), s.d);
    RatesTelescope(BoundaryFluxes(t, n), dxinv, Comp(CompFieldOf(tUdt, t.d, |t.bcs|), n), t.d);
    SameInflow(s, t, n, dxinv);
  }

  lemma SameInflow(s: Setting, t: Setting, n: nat, dxinv: Inverse)
    requires ExternalIn(s, n) && ExternalIn(t, n) && t.d == s.d && HasCells(s.d) && SameOutside(s, t, n)
    ensures Inflow(BoundaryFluxes(s, n), dxinv, s.d) == Inflow(BoundaryFluxes(t, n), dxinv, t.d)
  {
    var f, g := BoundaryFluxes(s, n), BoundaryFluxes(t, n);
    OuterFluxesAgree(s, t, n, AxisX, dxinv.x);
    OuterFluxesAgree(s, t, n, AxisY, dxinv.y);
    OuterFluxesAgree(s, t, n, AxisZ, dxinv.z);
    SameNetInflow(Per(f, AxisX, dxinv.x), Per(f, AxisY, dxinv.y), Per(f, AxisZ, dxinv.z),
                  Per(g, AxisX, dxinv.x), Per(g, AxisY, dxinv.y), Per(g, AxisZ, dxinv.z), s.d);
  }
}
