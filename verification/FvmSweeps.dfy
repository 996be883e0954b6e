/** The ordered sweeps of a finite-volume operator, each overwriting part of the same
    output array, against the stencil chosen direction by direction. */
module FvmSweeps {
  import opened Stencils

  datatype Periodic = Periodic(x: bool, y: bool, z: bool)

  // ------------------------------------------------------- order of the sweeps

  function If<T>(c: bool, s: seq<T>): seq<T> { if c then s else [] }

  const XFACES := [Ilo, Ihi]
  const YFACES := [Jlo, Jhi]
  const ZFACES := [Klo, Khi]
  const XYEDGES := [IhiJlo, IhiJhi, IloJlo, IloJhi]
  const XZEDGES := [IhiKlo, IhiKhi, IloKlo, IloKhi]
  const YZEDGES := [JhiKlo, JhiKhi, JloKlo, JloKhi]
  const LOWCORNERS := [IloJloKlo, IloJloKhi, IloJhiKlo, IloJhiKhi]
  const HIGHCORNERS := [IhiJloKlo, IhiJloKhi, IhiJhiKlo, IhiJhiKhi]

  function Faces(p: Periodic): seq<Stencil> {
    If(!p.x, XFACES) + If(!p.y, YFACES) + If(!p.z, ZFACES)
  }

  function Edges(p: Periodic): seq<Stencil> {
    If(!p.x && !p.y, XYEDGES) + If(!p.x && !p.z, XZEDGES) + If(!p.y && !p.z, YZEDGES)
  }

  function Corners(p: Periodic): seq<Stencil> {
    If(!p.x && !p.y && !p.z, LOWCORNERS + HIGHCORNERS)
  }

  function Schedule(p: Periodic): seq<Stencil> {
    [Interior] + Faces(p) + Edges(p) + Corners(p)
  }

  /** Directions in which the stencil is one-sided. */
  function Rank(s: Sides): nat {
    (if s.x.Mid? then 0 else 1) + (if s.y.Mid? then 0 else 1) + (if s.z.Mid? then 0 else 1)
  }

  /** The stencil is one-sided only in directions that are not periodic. */
  predicate Allowed(st: Stencil, p: Periodic) {
    var s := SidesOf(st);
    (p.x ==> s.x.Mid?) && (p.y ==> s.y.Mid?) && (p.z ==> s.z.Mid?)
  }

  function HiBit(s: Side): nat { if s.Hi? then 1 else 0 }

  function LoBit(s: Side): nat { if s.Lo? then 1 else 0 }

  /** Place of a stencil with these sides among all 27: faces run from low to high, edges
      have the high side of their first direction before the low one, and corners run
      from low to high again. */
  function Turn(s: Sides): nat {
    if s.x.Mid? && s.y.Mid? then (if s.z.Mid? then 0 else 5 + HiBit(s.z))
    else if s.x.Mid? && s.z.Mid? then 3 + HiBit(s.y)
    else if s.y.Mid? && s.z.Mid? then 1 + HiBit(s.x)
    else if s.z.Mid? then 7 + 2 * LoBit(s.x) + HiBit(s.y)
    else if s.y.Mid? then 11 + 2 * LoBit(s.x) + HiBit(s.z)
    else if s.x.Mid? then 15 + 2 * LoBit(s.y) + HiBit(s.z)
    else 19 + 4 * HiBit(s.x) + 2 * HiBit(s.y) + HiBit(s.z)
  }

  function TurnOf(st: Stencil): nat { Turn(SidesOf(st)) }

  /** A list in the order of its turns, all of them from `lo` up to below `hi`. */
  ghost predicate Rising<T>(turn: T -> nat, s: seq<T>, lo: nat, hi: nat) {
    && (forall m :: 0 <= m < |s| ==> lo <= turn(s[m]) < hi)
    && (forall m, n :: 0 <= m < n < |s| ==> turn(s[m]) < turn(s[n]))
  }

  ghost predicate TurnsFrom<T>(turn: T -> nat, s: seq<T>, from: nat) {
    forall m :: 0 <= m < |s| ==> turn(s[m]) == from + m
  }

  lemma RisingIf<T>(turn: T -> nat, c: bool, s: seq<T>, lo: nat, hi: nat)
    requires TurnsFrom(turn, s, lo) && hi == lo + |s|
    ensures Rising(turn, If(c, s), lo, hi)
  {
  }

  lemma RisingJoin<T>(turn: T -> nat, s: seq<T>, t: seq<T>, lo: nat, mid: nat, hi: nat)
    requires Rising(turn, s, lo, mid) && Rising(turn, t, mid, hi) && lo <= mid <= hi
    ensures Rising(turn, s + t, lo, hi)
  {
    forall m | 0 <= m < |s + t|
      ensures (s + t)[m] == if m < |s| then s[m] else t[m - |s|]
    {
    }
  }

  lemma ThreeRise<T>(turn: T -> nat, s: seq<T>, t: seq<T>, u: seq<T>, a: nat, b: nat, c: nat, e: nat)
    requires Rising(turn, s, a, b) && Rising(turn, t, b, c) && Rising(turn, u, c, e) && a <= b <= c <= e
    ensures Rising(turn, s + t + u, a, e)
  {
    RisingJoin(turn, s, t, a, b, c);
    RisingJoin(turn, s + t, u, a, c, e);
  }

  lemma FaceTurns()
    ensures TurnsFrom(TurnOf, XFACES, 1) && TurnsFrom(TurnOf, YFACES, 3) && TurnsFrom(TurnOf, ZFACES, 5)
  {
  }

  lemma FourTurns<T>(turn: T -> nat, a: T, b: T, c: T, e: T, from: nat)
    requires turn(a) == from && turn(b) == from + 1 && turn(c) == from + 2 && turn(e) == from + 3
    ensures TurnsFrom(turn, [a, b, c, e], from)
  {
  }

  lemma XyTurns()
    ensures TurnsFrom(TurnOf, XYEDGES, 7)
  {
    FourTurns(TurnOf, IhiJlo, IhiJhi, IloJlo, IloJhi, 7);
  }

  lemma XzTurns()
    ensures TurnsFrom(TurnOf, XZEDGES, 11)
  {
    FourTurns(TurnOf, IhiKlo, IhiKhi, IloKlo, IloKhi, 11);
  }

  lemma YzTurns()
    ensures TurnsFrom(TurnOf, YZEDGES, 15)
  {
    FourTurns(TurnOf, JhiKlo, JhiKhi, JloKlo, JloKhi, 15);
  }

  lemma JoinTurns<T>(turn: T -> nat, s: seq<T>, t: seq<T>, from: nat)
    requires TurnsFrom(turn, s, from) && TurnsFrom(turn, t, from + |s|)
    ensures TurnsFrom(turn, s + t, from)
  {
  }

  lemma LowCornerTurns()
    ensures TurnsFrom(TurnOf, LOWCORNERS, 19)
  {
    FourTurns(TurnOf, IloJloKlo, IloJloKhi, IloJhiKlo, IloJhiKhi, 19);
  }

  lemma HighCornerTurns()
    ensures TurnsFrom(TurnOf, HIGHCORNERS, 23)
  {
    FourTurns(TurnOf, IhiJloKlo, IhiJloKhi, IhiJhiKlo, IhiJhiKhi, 23);
  }

  lemma FacesRise(p: Periodic)
    ensures Rising(TurnOf, Faces(p), 1, 7)
  {
    FaceTurns();
    RisingIf(TurnOf, !p.x, XFACES, 1, 3);
    RisingIf(TurnOf, !p.y, YFACES, 3, 5);
    RisingIf(TurnOf, !p.z, ZFACES, 5, 7);
    ThreeRise(TurnOf, If(!p.x, XFACES), If(!p.y, YFACES), If(!p.z, ZFACES), 1, 3, 5, 7);
  }

  lemma BlockRises<T>(turn: T -> nat, c: bool, s: seq<T>, lo: nat)
    requires TurnsFrom(turn, s, lo) && |s| == 4
    ensures Rising(turn, If(c, s), lo, lo + 4)
  {
    RisingIf(turn, c, s, lo, lo + 4);
  }

  lemma EdgesRise(p: Periodic)
    ensures Rising(TurnOf, Edges(p), 7, 19)
  {
    var xy, xz, yz := If(!p.x && !p.y, XYEDGES), If(!p.x && !p.z, XZEDGES), If(!p.y && !p.z, YZEDGES);
    assert Rising(TurnOf, xy, 7, 11) by { XyTurns(); BlockRises(TurnOf, !p.x && !p.y, XYEDGES, 7); }
    assert Rising(TurnOf, xz, 11, 15) by { XzTurns(); BlockRises(TurnOf, !p.x && !p.z, XZEDGES, 11); }
    assert Rising(TurnOf, yz, 15, 19) by { YzTurns(); BlockRises(TurnOf, !p.y && !p.z, YZEDGES, 15); }
    ThreeRise(TurnOf, xy, xz, yz, 7, 11, 15, 19);
  }

  lemma BlocksRise<T>(turn: T -> nat, a: seq<T>, b: seq<T>, c: seq<T>, e: seq<T>)
    requires Rising(turn, a, 0, 1) && Rising(turn, b, 1, 7) && Rising(turn, c, 7, 19) && Rising(turn, e, 19, 27)
    ensures Rising(turn, a + b + c + e, 0, 27)
  {
    ThreeRise(turn, a, b, c, 0, 1, 7, 19);
    RisingJoin(turn, a + b + c, e, 0, 19, 27);
  }

  lemma CornersRise(p: Periodic)
    ensures Rising(TurnOf, Corners(p), 19, 27)
  {
    LowCornerTurns();
    HighCornerTurns();
    JoinTurns(TurnOf, LOWCORNERS, HIGHCORNERS, 19);
    RisingIf(TurnOf, !p.x && !p.y && !p.z, LOWCORNERS + HIGHCORNERS, 19, 27);
  }

  /** The sweeps of every schedule take their turns in one and the same order, from the
      interior over faces and edges to corners. */
  lemma ScheduleRises(p: Periodic)
    ensures Rising(TurnOf, Schedule(p), 0, 27)
  {
    FacesRise(p);
    EdgesRise(p);
    CornersRise(p);
    BlocksRise(TurnOf, [Interior], Faces(p), Edges(p), Corners(p));
  }

  /** Later sweeps are never less specific than earlier ones. */
  lemma LaterIsMoreSpecific(p: Periodic, m: nat, n: nat)
    requires m <= n < |Schedule(p)|
    ensures Rank(SidesOf(Schedule(p)[m])) <= Rank(SidesOf(Schedule(p)[n]))
  {
    ScheduleRises(p);
    RankFollowsTurn(SidesOf(Schedule(p)[m]), SidesOf(Schedule(p)[n]));
  }

  lemma RankFollowsTurn(s: Sides, t: Sides)
    requires Turn(s) <= Turn(t)
    ensures Rank(s) <= Rank(t)
  {
  }

  lemma InJoin(st: Stencil, a: seq<Stencil>, b: seq<Stencil>, c: seq<Stencil>, e: seq<Stencil>)
    ensures st in a + b + c + e <==> st in a || st in b || st in c || st in e
  {
  }

  /** Exactly the stencils that are one-sided in no periodic direction are swept. */
  lemma ScheduledIffAllowed(st: Stencil, p: Periodic)
    ensures st in Schedule(p) <==> Allowed(st, p)
  {
    InJoin(st, [Interior], Faces(p), Edges(p), Corners(p));
    InFaces(st, p);
    InEdges(st, p);
    InCorners(st, p);
  }

  lemma InFaces(st: Stencil, p: Periodic)
    ensures st in Faces(p) <==> Rank(SidesOf(st)) == 1 && Allowed(st, p)
  {
    assert st in Faces(p) <==> st in If(!p.x, XFACES) || st in If(!p.y, YFACES) || st in If(!p.z, ZFACES);
    InOneFace(st);
  }

  lemma InOneFace(st: Stencil)
    ensures st in XFACES <==> !SidesOf(st).x.Mid? && SidesOf(st).y.Mid? && SidesOf(st).z.Mid?
    ensures st in YFACES <==> SidesOf(st).x.Mid? && !SidesOf(st).y.Mid? && SidesOf(st).z.Mid?
    ensures st in ZFACES <==> SidesOf(st).x.Mid? && SidesOf(st).y.Mid? && !SidesOf(st).z.Mid?
  {
    assert st in XFACES <==> st == Ilo || st == Ihi;
    assert st in YFACES <==> st == Jlo || st == Jhi;
    assert st in ZFACES <==> st == Klo || st == Khi;
  }

  lemma InEdges(st: Stencil, p: Periodic)
    ensures st in Edges(p) <==> Rank(SidesOf(st)) == 2 && Allowed(st, p)
  {
    var xy, xz, yz := !p.x && !p.y, !p.x && !p.z, !p.y && !p.z;
    assert st in Edges(p) <==> st in If(xy, XYEDGES) || st in If(xz, XZEDGES) || st in If(yz, YZEDGES);
    InXy(st);
    InXz(st);
    InYz(st);
  }

  lemma InXy(st: Stencil)
    ensures st in XYEDGES <==> !SidesOf(st).x.Mid? && !SidesOf(st).y.Mid? && SidesOf(st).z.Mid?
  {
    assert st in XYEDGES <==> st == IhiJlo || st == IhiJhi || st == IloJlo || st == IloJhi;
  }

  lemma InXz(st: Stencil)
    ensures st in XZEDGES <==> !SidesOf(st).x.Mid? && SidesOf(st).y.Mid? && !SidesOf(st).z.Mid?
  {
    assert st in XZEDGES <==> st == IhiKlo || st == IhiKhi || st == IloKlo || st == IloKhi;
  }

  lemma InYz(st: Stencil)
    ensures st in YZEDGES <==> SidesOf(st).x.Mid? && !SidesOf(st).y.Mid? && !SidesOf(st).z.Mid?
  {
    assert st in YZEDGES <==> st == JhiKlo || st == JhiKhi || st == JloKlo || st == JloKhi;
  }

  lemma InCorners(st: Stencil, p: Periodic)
    ensures st in Corners(p) <==> Rank(SidesOf(st)) == 3 && Allowed(st, p)
  {
    assert st in LOWCORNERS + HIGHCORNERS <==> st in LOWCORNERS || st in HIGHCORNERS;
    InLowCorners(st);
    InHighCorners(st);
  }

  lemma InLowCorners(st: Stencil)
    ensures st in LOWCORNERS <==> SidesOf(st).x.Lo? && !SidesOf(st).y.Mid? && !SidesOf(st).z.Mid?
  {
    assert st in LOWCORNERS <==> st == IloJloKlo || st == IloJloKhi || st == IloJhiKlo || st == IloJhiKhi;
  }

  lemma InHighCorners(st: Stencil)
    ensures st in HIGHCORNERS <==> SidesOf(st).x.Hi? && !SidesOf(st).y.Mid? && !SidesOf(st).z.Mid?
  {
    assert st in HIGHCORNERS <==> st == IhiJloKlo || st == IhiJloKhi || st == IhiJhiKlo || st == IhiJhiKhi;
  }

  // --------------------------------------------------- what the last sweep leaves

  /** The last of the first `n` sweeps that writes the cell. */
  function LastApplying(s: seq<Stencil>, n: nat, i: int, j: int, k: int, d: Domain): Stencil
    requires 1 <= n <= |s| && s[0] == Interior
  {
    if n == 1 || AppliesTo(s[n - 1], i, j, k, d) then s[n - 1] else LastApplying(s, n - 1, i, j, k, d)
  }

  function SideAt(i: int, lo: int, hi: int, periodic: bool): Side {
    if periodic then Mid else if i == lo then Lo else if i == hi then Hi else Mid
  }

  /** The stencil chosen in each direction on its own, by position and periodicity. */
  function DirectionalSides(i: int, j: int, k: int, d: Domain, p: Periodic): Sides {
    Sides(SideAt(i, d.ilo, d.ihi, p.x), SideAt(j, d.jlo, d.jhi, p.y), SideAt(k, d.klo, d.khi, p.z))
  }

  predicate InDomain(i: int, j: int, k: int, d: Domain) {
    d.ilo <= i <= d.ihi && d.jlo <= j <= d.jhi && d.klo <= k <= d.khi
  }

  /** At least two cells in every direction that is not periodic. */
  predicate TwoCells(d: Domain, p: Periodic) {
    (!p.x ==> d.ilo < d.ihi) && (!p.y ==> d.jlo < d.jhi) && (!p.z ==> d.klo < d.khi)
  }

  lemma {:induction false} LastIs(s: seq<Stencil>, m: nat, n: nat, i: int, j: int, k: int, d: Domain)
    requires m < n <= |s| && s[0] == Interior && AppliesTo(s[m], i, j, k, d)
    requires forall l :: m < l < n ==> !AppliesTo(s[l], i, j, k, d)
    ensures LastApplying(s, n, i, j, k, d) == s[m]
    decreases n
  {
    if n > m + 1 {
      LastIs(s, m, n - 1, i, j, k, d);
    }
  }

  /** The sides of the stencil that the whole schedule leaves in a cell. */
  function SidesLeft(i: int, j: int, k: int, d: Domain, p: Periodic): Sides {
    SidesOf(LastApplying(Schedule(p), |Schedule(p)|, i, j, k, d))
  }

  /** The cell lies at an end of a direction that is not periodic. */
  predicate AtEnd(i: int, lo: int, hi: int, periodic: bool) {
    !periodic && (i == lo || i == hi)
  }

  function LowFirst(i: int, lo: int, hi: int): Side {
    if i == lo then Lo else Hi
  }

  function HighFirst(i: int, lo: int, hi: int): Side {
    if i == hi then Hi else Lo
  }

  /** What is left, direction by direction: the low side comes first only in the earlier
      of exactly two directions at whose ends the cell lies. */
  function EndSides(i: int, j: int, k: int, d: Domain, p: Periodic): Sides {
    var x, y, z := AtEnd(i, d.ilo, d.ihi, p.x), AtEnd(j, d.jlo, d.jhi, p.y), AtEnd(k, d.klo, d.khi, p.z);
    Sides(
      if !x then Mid else if y != z then LowFirst(i, d.ilo, d.ihi) else HighFirst(i, d.ilo, d.ihi),
      if !y then Mid else if !x && z then LowFirst(j, d.jlo, d.jhi) else HighFirst(j, d.jlo, d.jhi),
      if !z then Mid else HighFirst(k, d.klo, d.khi))
  }

  /** No stencil that is swept and applies to the cell has a later turn. */
  lemma NoLaterTurn(s: Sides, i: int, j: int, k: int, d: Domain, p: Periodic)
    requires (p.x ==> s.x.Mid?) && (p.y ==> s.y.Mid?) && (p.z ==> s.z.Mid?)
    requires Meets(s.x, i, d.ilo, d.ihi) && Meets(s.y, j, d.jlo, d.jhi) && Meets(s.z, k, d.klo, d.khi)
    ensures Turn(s) <= Turn(EndSides(i, j, k, d, p))
  {
  }

  /** What the sweeps leave in any cell of any domain. */
  lemma SweepsLeave(i: int, j: int, k: int, d: Domain, p: Periodic)
    ensures SidesLeft(i, j, k, d, p) == EndSides(i, j, k, d, p)
  {
    var s, left := Schedule(p), StencilFor(EndSides(i, j, k, d, p));
    ScheduledIffAllowed(left, p);
    var m :| 0 <= m < |s| && s[m] == left;
    ScheduleRises(p);
    forall l | m < l < |s|
      ensures !AppliesTo(s[l], i, j, k, d)
    {
      ScheduledIffAllowed(s[l], p);
      if AppliesTo(s[l], i, j, k, d) {
        NoLaterTurn(SidesOf(s[l]), i, j, k, d, p);
      }
    }
    LastIs(s, m, |s|, i, j, k, d);
  }

  /** With two cells in each non-periodic direction, the sweeps leave in every cell
      the stencil chosen in each direction on its own. */
  lemma SweepsChooseByDirection(i: int, j: int, k: int, d: Domain, p: Periodic)
    requires TwoCells(d, p)
    ensures SidesLeft(i, j, k, d, p) == DirectionalSides(i, j, k, d, p)
  {
    SweepsLeave(i, j, k, d, p);
  }

  ghost predicate ChoosesByDirection(d: Domain, p: Periodic) {
    forall i, j, k :: InDomain(i, j, k, d) ==> SidesLeft(i, j, k, d, p) == DirectionalSides(i, j, k, d, p)
  }

  predicate NonEmpty(d: Domain) {
    d.ilo <= d.ihi && d.jlo <= d.jhi && d.klo <= d.khi
  }

  /** A direction that is not periodic and has exactly two cells, so that every cell lies
      at one of its ends. */
  predicate EndsOnly(lo: int, hi: int, periodic: bool) {
    !periodic && hi == lo + 1
  }

  /** No direction that is not periodic has a single cell; or x alone does, one of the
      others is periodic and the third consists of two end cells; or y alone does, x is
      periodic and z consists of two end cells. */
  predicate SidesFit(d: Domain, p: Periodic) {
    || TwoCells(d, p)
    || (!p.x && d.ilo == d.ihi
        && ((p.y && EndsOnly(d.klo, d.khi, p.z)) || (p.z && EndsOnly(d.jlo, d.jhi, p.y))))
    || (!p.y && d.jlo == d.jhi && p.x && EndsOnly(d.klo, d.khi, p.z))
  }

  /** The sweeps choose by direction in all cells of a domain under exactly this
      condition on its sizes and periodicity. */
  lemma ChooseByDirectionIff(d: Domain, p: Periodic)
    requires NonEmpty(d)
    ensures ChoosesByDirection(d, p) <==> SidesFit(d, p)
  {
    if SidesFit(d, p) {
      forall i, j, k | InDomain(i, j, k, d)
        ensures SidesLeft(i, j, k, d, p) == DirectionalSides(i, j, k, d, p)
      {
        SweepsLeave(i, j, k, d, p);
      }
    } else {
      var (i, j, k) := MixedCell(d, p);
      SweepsLeave(i, j, k, d, p);
    }
  }

  /** A low end cell; or its neighbour, where that lies at no end, so that the direction
      does not count. */
  function Inner(lo: int, hi: int): int {
    if lo + 1 < hi then lo + 1 else lo
  }

  /** Where the condition fails, a cell whose sides are not those of its directions. */
  function MixedCell(d: Domain, p: Periodic): (c: (int, int, int))
    requires NonEmpty(d) && !SidesFit(d, p)
    ensures InDomain(c.0, c.1, c.2, d)
    ensures EndSides(c.0, c.1, c.2, d, p) != DirectionalSides(c.0, c.1, c.2, d, p)
  {
    if !p.z && d.klo == d.khi then (d.ilo, d.jlo, d.klo)
    else if !p.y && d.jlo == d.jhi then (d.ilo, d.jlo, Inner(d.klo, d.khi))
    else if p.y == p.z then (d.ilo, d.jlo, d.klo)
    else (d.ilo, Inner(d.jlo, d.jhi), Inner(d.klo, d.khi))
  }

  /** A single cell across a direction that is not periodic: the sweeps treat the same x
      index as a high end away from the y ends and as a low end at them. */
  lemma OneCellMixesSides()
    ensures var d, p := Domain(0, 0, 0, 2, 0, 0), Periodic(false, false, true);
      && !SidesFit(d, p)
      && SidesLeft(0, 1, 0, d, p).x == Hi
      && SidesLeft(0, 0, 0, d, p).x == Lo
  {
    var d, p := Domain(0, 0, 0, 2, 0, 0), Periodic(false, false, true);
    SweepsLeave(0, 1, 0, d, p);
    SweepsLeave(0, 0, 0, d, p);
  }

  // ------------------------------------------------------------- the sweeps

  /** An operator: what it writes to a cell when it uses a given table. */
  type Kernel<!T> = (Table, int, int, int) -> T

  ghost predicate Fitted<T>(out: array3<T>, d: Domain) {
    && d.ilo <= d.ihi && d.jlo <= d.jhi && d.klo <= d.khi
    && out.Length0 == d.ihi - d.ilo + 1 && out.Length1 == d.jhi - d.jlo + 1 && out.Length2 == d.khi - d.klo + 1
  }

  function At<T>(out: array3<T>, d: Domain, i: int, j: int, k: int): T
    requires Fitted(out, d) && InDomain(i, j, k, d)
    reads out
  {
    out[i - d.ilo, j - d.jlo, k - d.klo]
  }

  lemma EndsAreDirectional(d: Domain, p: Periodic, i: int, j: int, k: int)
    requires InDomain(i, j, k, d) && SidesFit(d, p)
    ensures EndSides(i, j, k, d, p) == DirectionalSides(i, j, k, d, p)
  {
    ChooseByDirectionIff(d, p);
    SweepsLeave(i, j, k, d, p);
  }

  /** One sweep: all cells to which the stencil applies are written, no others. */
  method Sweep<T>(st: Stencil, kernel: Kernel<T>, d: Domain, out: array3<T>)
    requires Fitted(out, d)
    modifies out
    ensures forall i, j, k :: InDomain(i, j, k, d) ==>
              At(out, d, i, j, k) == if AppliesTo(st, i, j, k, d) then kernel(TableOf(st), i, j, k)
                                     else old(At(out, d, i, j, k))
  {
    forall a, b, c | 0 <= a < out.Length0 && 0 <= b < out.Length1 && 0 <= c < out.Length2
                     && AppliesTo(st, a + d.ilo, b + d.jlo, c + d.klo, d) {
      out[a, b, c] := kernel(TableOf(st), a + d.ilo, b + d.jlo, c + d.klo);
    }
  }

  /** The operator on one level: its sweeps in order over the same output. */
  method Apply<T>(kernel: Kernel<T>, d: Domain, p: Periodic, out: array3<T>)
    requires Fitted(out, d)
    modifies out
    ensures forall i, j, k :: InDomain(i, j, k, d) ==>
              At(out, d, i, j, k) == kernel(TableFor(EndSides(i, j, k, d, p)), i, j, k)
    ensures SidesFit(d, p) ==> forall i, j, k :: InDomain(i, j, k, d) ==>
              At(out, d, i, j, k) == kernel(TableFor(DirectionalSides(i, j, k, d, p)), i, j, k)
  {
    var s := Schedule(p);
    Sweep(s[0], kernel, d, out);
    for n := 1 to |s|
      invariant forall i, j, k :: InDomain(i, j, k, d) ==>
                  At(out, d, i, j, k) == kernel(TableOf(LastApplying(s, n, i, j, k, d)), i, j, k)
    {
      Sweep(s[n], kernel, d, out);
    }
    forall i, j, k | InDomain(i, j, k, d)
      ensures At(out, d, i, j, k) == kernel(TableFor(EndSides(i, j, k, d, p)), i, j, k)
    {
      SweepsLeave(i, j, k, d, p);
      TablesAreDirectional(LastApplying(s, |s|, i, j, k, d));
    }
    if SidesFit(d, p) {
      forall i, j, k | InDomain(i, j, k, d)
        ensures EndSides(i, j, k, d, p) == DirectionalSides(i, j, k, d, p)
      {
        EndsAreDirectional(d, p, i, j, k);
      }
    }
  }
}
