/** Boundary planes on nested levels: cell sizes, index boxes, bounds, refinement. */
module BoundaryPlane {
  import opened MeshBoxes

  /** Faces of the domain: low x, y, z, then high x, y, z. */
  type Orientation = o: int | 0 <= o < 6

  function Normal(ori: Orientation): (n: nat)
    ensures n < 3
  {
    ori % 3
  }

  predicate IsLow(ori: Orientation) { ori < 3 }

  // ------------------------------------------------------------ products of ratios

  function Pow(b: int, e: nat): int { if e == 0 then 1 else Pow(b, e - 1) * b }

  /** How much finer level `n` is than level 0. */
  function Prod(ratios: seq<int>, n: nat): int
    requires n <= |ratios|
  {
    if n == 0 then 1 else Prod(ratios, n - 1) * ratios[n - 1]
  }

  ghost predicate Positive(ratios: seq<int>) { forall k :: 0 <= k < |ratios| ==> ratios[k] >= 1 }

  lemma {:induction false} PowIsPositive(b: int, e: nat)
    requires b >= 1
    ensures Pow(b, e) >= 1
  {
    if e > 0 {
      PowIsPositive(b, e - 1);
    }
  }

  lemma {:induction false} ProdIsPositive(ratios: seq<int>, n: nat)
    requires Positive(ratios) && n <= |ratios|
    ensures Prod(ratios, n) >= 1
  {
    if n > 0 {
      ProdIsPositive(ratios, n - 1);
    }
  }

  lemma ProductGrows(x: int, y: int, a: int, b: int)
    requires 1 <= x <= y && 1 <= a < b
    ensures x * a < y * b
  {
    assert x * a < x * b;
    assert x * b <= y * b;
  }

  lemma {:induction false} PowGrows(a: int, b: int, e: nat)
    requires 1 <= a < b && e >= 1
    ensures Pow(a, e) < Pow(b, e)
  {
    PowIsPositive(a, e - 1);
    if e > 1 {
      PowGrows(a, b, e - 1);
    }
    ProductGrows(Pow(a, e - 1), Pow(b, e - 1), a, b);
  }

  lemma PowIsInjective(a: int, b: int, e: nat)
    requires a >= 1 && b >= 1 && e >= 1 && Pow(a, e) == Pow(b, e)
    ensures a == b
  {
    if a < b {
      PowGrows(a, b, e);
    } else if b < a {
      PowGrows(b, a, e);
    }
  }

  ghost predicate Uniform(ratios: seq<int>, n: nat)
    requires n <= |ratios|
  {
    forall k :: 0 <= k < n ==> ratios[k] == ratios[0]
  }

  lemma {:induction false} UniformProd(ratios: seq<int>, n: nat)
    requires n <= |ratios| && Uniform(ratios, n) && n >= 1
    ensures Prod(ratios, n) == Pow(ratios[0], n)
  {
    if n > 1 {
      UniformProd(ratios, n - 1);
    }
  }

  /** The power that the cell size of a level divides by. */
  function Divisor(ratios: seq<int>, lev: nat): int
    requires lev <= |ratios|
  {
    if lev == 0 then 1 else Pow(ratios[lev - 1], lev)
  }

  /** The last ratio to the power of the level is the product of the ratios, at every
      level up to `n`, exactly when all ratios up to there are the same. */
  lemma {:induction false} DivisorIsProduct(ratios: seq<int>, n: nat)
    requires Positive(ratios) && n <= |ratios|
    ensures (forall lev :: 0 <= lev <= n ==> Divisor(ratios, lev) == Prod(ratios, lev)) <==> Uniform(ratios, n)
  {
    if n > 0 {
      DivisorIsProduct(ratios, n - 1);
      if Uniform(ratios, n) {
        UniformProd(ratios, n);
      } else if Uniform(ratios, n - 1) && n > 1 {
        UniformProd(ratios, n - 1);
        var q, r := ratios[0], ratios[n - 1];
        assert Prod(ratios, n) == Pow(q, n - 1) * r && Divisor(ratios, n) == Pow(r, n - 1) * r;
        if Divisor(ratios, n) == Prod(ratios, n) {
          SameFactor(Pow(q, n - 1), Pow(r, n - 1), r);
          PowIsInjective(q, r, n - 1);
        }
      }
    }
  }

  lemma SameFactor(x: int, y: int, r: int)
    requires x * r == y * r && r >= 1
    ensures x == y
  {
    assert (x - y) * r == 0;
  }

  // ------------------------------------------------------------- planes on levels

  function Count(b: Box, i: nat): int
    requires i < 3
  {
    b.bigEnd[i] - b.smallEnd[i] + 1
  }

  ghost predicate HasCells(n: IVec) { n[0] > 0 && n[1] > 0 && n[2] > 0 }

  function CoarseSize(lo: RVec, hi: RVec, n: IVec, i: nat): real
    requires i < 3 && n[i] > 0
  {
    (hi[i] - lo[i]) / n[i] as real
  }

  lemma DivisorIsPositive(ratios: seq<int>, lev: nat)
    requires Positive(ratios) && lev <= |ratios|
    ensures Divisor(ratios, lev) >= 1
  {
    if lev > 0 {
      PowIsPositive(ratios[lev - 1], lev);
    }
  }

  /** Cell sizes of all levels, as the input file gives them. */
  ghost predicate SizesByFormula(cs: seq<RVec>, lo: RVec, hi: RVec, n: IVec, ratios: seq<int>)
    requires HasCells(n) && Positive(ratios)
  {
    |cs| <= |ratios| + 1 && forall lev, i :: 0 <= lev < |cs| && 0 <= i < 3 ==>
      cs[lev][i] == SizeAt(lo, hi, n, ratios, lev, i)
  }

  function SizeAt(lo: RVec, hi: RVec, n: IVec, ratios: seq<int>, lev: nat, i: nat): real
    requires i < 3 && n[i] > 0 && lev <= |ratios| && Positive(ratios)
  {
    DivisorIsPositive(ratios, lev);
    CoarseSize(lo, hi, n, i) / Divisor(ratios, lev) as real
  }

  method CellSizes(lo: RVec, hi: RVec, n: IVec, nlevels: nat, ratios: seq<int>) returns (cs: seq<RVec>)
    requires HasCells(n) && Positive(ratios) && nlevels <= |ratios| + 1
    ensures |cs| == nlevels && SizesByFormula(cs, lo, hi, n, ratios)
  {
    cs := [];
    for ilev := 0 to nlevels
      invariant |cs| == ilev && SizesByFormula(cs, lo, hi, n, ratios)
    {
      DivisorIsPositive(ratios, ilev);
      var x, y, z := CoarseSize(lo, hi, n, 0), CoarseSize(lo, hi, n, 1), CoarseSize(lo, hi, n, 2);
      if ilev > 0 {
        var d := Pow(ratios[ilev - 1], ilev) as real;
        x, y, z := x / d, y / d, z / d;
      }
      var size: RVec := [x, y, z];
      assert size[0] == SizeAt(lo, hi, n, ratios, ilev, 0) && size[1] == SizeAt(lo, hi, n, ratios, ilev, 1)
             && size[2] == SizeAt(lo, hi, n, ratios, ilev, 2);
      cs := cs + [size];
    }
  }

  /** Index of the cell inside the boundary on a high face. */
  function HighIndex(n: int, ratios: seq<int>, lev: nat): int
    requires lev <= |ratios|
  {
    if lev == 0 then n - 1 else HighIndex(n, ratios, lev - 1) * ratios[lev - 1] + 1
  }

  function NormalIndex(ori: Orientation, n: IVec, ratios: seq<int>, lev: nat): int
    requires lev <= |ratios|
  {
    if IsLow(ori) then -1 else HighIndex(n[Normal(ori)], ratios, lev)
  }

  /** The box of a level: all cells along the plane, two cells across it. */
  ghost predicate BoxAt(b: Box, ori: Orientation, n: IVec, ratios: seq<int>, lev: nat)
    requires lev <= |ratios|
  {
    && (forall p :: 0 <= p < 3 && p != Normal(ori) ==>
          b.smallEnd[p] == 0 && b.bigEnd[p] == n[p] * Prod(ratios, lev) - 1)
    && b.smallEnd[Normal(ori)] == NormalIndex(ori, n, ratios, lev)
    && b.bigEnd[Normal(ori)] == NormalIndex(ori, n, ratios, lev) + 1
  }

  function Perpendicular(ori: Orientation): (r: seq<nat>)
    ensures |r| == 2 && r[0] != r[1] && forall p :: p in r <==> 0 <= p < 3 && p != Normal(ori)
  {
    if Normal(ori) == 0 then [1, 2] else if Normal(ori) == 1 then [0, 2] else [0, 1]
  }

  method Domain(ori: Orientation, n: IVec) returns (b: Box)
    ensures BoxAt(b, ori, n, [], 0)
  {
    var normal := Normal(ori);
    var lo: IVec := [0, 0, 0];
    var hi: IVec := [n[0] - 1, n[1] - 1, n[2] - 1];
    lo := lo[normal := if IsLow(ori) then -1 else hi[normal]];
    hi := hi[normal := if IsLow(ori) then 0 else hi[normal] + 1];
    b := Box(lo, hi);
  }

  /** An index box with `r` times the cells along the plane, and the same across it. */
  function RefinedEnds(ori: Orientation, b: Box, r: int): Box {
    var m := Normal(ori);
    Box([b.smallEnd[0] * r, b.smallEnd[1] * r, b.smallEnd[2] * r][m := b.smallEnd[m]],
        [(b.bigEnd[0] + 1) * r - 1, (b.bigEnd[1] + 1) * r - 1, (b.bigEnd[2] + 1) * r - 1][m := b.bigEnd[m]])
  }

  lemma EndsAt(ori: Orientation, b: Box, r: int, i: nat)
    requires i < 3
    ensures RefinedEnds(ori, b, r).smallEnd[i] == if i == Normal(ori) then b.smallEnd[i] else b.smallEnd[i] * r
    ensures RefinedEnds(ori, b, r).bigEnd[i] == if i == Normal(ori) then b.bigEnd[i] else (b.bigEnd[i] + 1) * r - 1
  {
  }

  /** The index box of one level, one direction along the plane after the other. */
  method RefineEnds(ori: Orientation, b: Box, r: int) returns (fine: Box)
    ensures fine == RefinedEnds(ori, b, r)
  {
    var perp := Perpendicular(ori);
    var smallEnd: IVec, bigEnd: IVec := b.smallEnd, b.bigEnd;
    for k := 0 to 2
      invariant forall p :: 0 <= p < 3 ==>
                  if p in perp[..k] then smallEnd[p] == b.smallEnd[p] * r && bigEnd[p] == (b.bigEnd[p] + 1) * r - 1
                  else smallEnd[p] == b.smallEnd[p] && bigEnd[p] == b.bigEnd[p]
    {
      var p := perp[k];
      smallEnd := smallEnd[p := smallEnd[p] * r];
      bigEnd := bigEnd[p := (bigEnd[p] + 1) * r - 1];
    }
    assert perp[..2] == perp;
    fine := Box(smallEnd, bigEnd);
    forall i | 0 <= i < 3
      ensures fine.smallEnd[i] == RefinedEnds(ori, b, r).smallEnd[i]
      ensures fine.bigEnd[i] == RefinedEnds(ori, b, r).bigEnd[i]
    {
      EndsAt(ori, b, r, i);
    }
  }

  lemma NextEnd(b: int, n: int, p: int, r: int)
    requires b == n * p - 1
    ensures (b + 1) * r - 1 == n * (p * r) - 1
  {
  }

  method NextBox(ori: Orientation, b: Box, r: int) returns (next: Box)
    ensures forall p :: 0 <= p < 3 && p != Normal(ori) ==>
              next.smallEnd[p] == b.smallEnd[p] * r && next.bigEnd[p] == (b.bigEnd[p] + 1) * r - 1
    ensures var m := Normal(ori);
      if IsLow(ori) then next.smallEnd[m] == b.smallEnd[m] && next.bigEnd[m] == b.bigEnd[m]
      else next.smallEnd[m] == b.smallEnd[m] * r + 1 && next.bigEnd[m] == next.smallEnd[m] + 1
  {
    var normal := Normal(ori);
    var refined := RefineEnds(ori, b, r);
    var smallEnd: IVec, bigEnd: IVec := refined.smallEnd, refined.bigEnd;
    forall i | 0 <= i < 3
      ensures smallEnd[i] == if i == normal then b.smallEnd[i] else b.smallEnd[i] * r
      ensures bigEnd[i] == if i == normal then b.bigEnd[i] else (b.bigEnd[i] + 1) * r - 1
    {
      EndsAt(ori, b, r, i);
    }
    if !IsLow(ori) {
      smallEnd := smallEnd[normal := smallEnd[normal] * r + 1];
      bigEnd := bigEnd[normal := smallEnd[normal] + 1];
    }
    next := Box(smallEnd, bigEnd);
  }

  lemma NextBoxAt(b: Box, next: Box, ori: Orientation, n: IVec, ratios: seq<int>, lev: nat)
    requires lev < |ratios| && BoxAt(b, ori, n, ratios, lev)
    requires forall p :: 0 <= p < 3 && p != Normal(ori) ==>
               next.smallEnd[p] == b.smallEnd[p] * ratios[lev] && next.bigEnd[p] == (b.bigEnd[p] + 1) * ratios[lev] - 1
    requires var m := Normal(ori);
      if IsLow(ori) then next.smallEnd[m] == b.smallEnd[m] && next.bigEnd[m] == b.bigEnd[m]
      else next.smallEnd[m] == b.smallEnd[m] * ratios[lev] + 1 && next.bigEnd[m] == next.smallEnd[m] + 1
    ensures BoxAt(next, ori, n, ratios, lev + 1)
  {
    forall p | 0 <= p < 3 && p != Normal(ori)
      ensures next.smallEnd[p] == 0 && next.bigEnd[p] == n[p] * Prod(ratios, lev + 1) - 1
    {
      assert b.smallEnd[p] == 0 && b.bigEnd[p] == n[p] * Prod(ratios, lev) - 1;
      NextEnd(b.bigEnd[p], n[p], Prod(ratios, lev), ratios[lev]);
    }
  }

  /** The boxes of all levels. */
  method LevelBoxes(ori: Orientation, n: IVec, nlevels: nat, ratios: seq<int>) returns (boxes: seq<Box>)
    requires 1 <= nlevels <= |ratios| + 1
    ensures |boxes| == nlevels && forall lev :: 0 <= lev < nlevels ==> BoxAt(boxes[lev], ori, n, ratios, lev)
  {
    var domain := Domain(ori, n);
    assert BoxAt(domain, ori, n, ratios, 0);
    boxes := [domain];
    for ilev := 1 to nlevels
      invariant |boxes| == ilev && forall lev :: 0 <= lev < ilev ==> BoxAt(boxes[lev], ori, n, ratios, lev)
    {
      var next := NextBox(ori, boxes[ilev - 1], ratios[ilev - 1]);
      NextBoxAt(boxes[ilev - 1], next, ori, n, ratios, ilev - 1);
      boxes := boxes + [next];
    }
  }

  // ------------------------------------------------- when the formulas are right

  lemma QuotientOfProduct(n: int, p: int, d: int, e: real)
    requires n >= 1 && p >= 1 && d >= 1
    ensures (n * p) as real * (e / n as real / d as real) == e * (p as real / d as real)
  {
    var x, y, z := n as real, p as real, d as real;
    assert (n * p) as real == x * y;
    var q := e / x;
    assert q * x == e;
    assert x * y * (q / z) == (q * x) * (y / z);
  }

  lemma QuotientIsOne(e: real, p: int, d: int)
    requires e != 0.0 && p >= 1 && d >= 1
    ensures e * (p as real / d as real) == e <==> p == d
  {
    var q := p as real / d as real;
    assert q * d as real == p as real;
    if e * q == e {
      assert e * (q - 1.0) == 0.0;
      assert q == 1.0;
    }
  }

  /** Length of a row of cells. */
  function Length(count: int, size: real): real { count as real * size }

  lemma FillsIff(c: int, s: real, n: int, p: int, d: int, e: real)
    requires n >= 1 && p >= 1 && d >= 1 && e != 0.0 && c == n * p && s == e / n as real / d as real
    ensures Length(c, s) == e <==> p == d
  {
    QuotientOfProduct(n, p, d, e);
    QuotientIsOne(e, p, d);
  }

  lemma CountAlong(b: Box, ori: Orientation, n: IVec, ratios: seq<int>, lev: nat, p: nat)
    requires lev <= |ratios| && BoxAt(b, ori, n, ratios, lev) && p < 3 && p != Normal(ori)
    ensures Count(b, p) == n[p] * Prod(ratios, lev)
  {
    assert b.smallEnd[p] == 0;
  }

  /** Along the plane, the cells of a level fill its extent exactly when the power in
      the cell size is the product of the ratios. */
  lemma CellsFillExtent(b: Box, ori: Orientation, lo: RVec, hi: RVec, n: IVec, ratios: seq<int>, lev: nat, p: nat,
                        size: real)
    requires HasCells(n) && Positive(ratios) && lev <= |ratios| && BoxAt(b, ori, n, ratios, lev)
    requires p < 3 && p != Normal(ori) && lo[p] < hi[p] && size == SizeAt(lo, hi, n, ratios, lev, p)
    ensures Spanned(b, p, size) == hi[p] - lo[p] <==> Divisor(ratios, lev) == Prod(ratios, lev)
  {
    ProdIsPositive(ratios, lev);
    DivisorIsPositive(ratios, lev);
    CountAlong(b, ori, n, ratios, lev, p);
    FillsIff(Count(b, p), size, n[p], Prod(ratios, lev), Divisor(ratios, lev), hi[p] - lo[p]);
  }

  /** Length that the cells of a box span. */
  function Spanned(b: Box, p: nat, size: real): real
    requires p < 3
  {
    Length(Count(b, p), size)
  }

  ghost predicate Fills(b: Box, ori: Orientation, lo: RVec, hi: RVec, size: RVec) {
    forall p :: 0 <= p < 3 && p != Normal(ori) ==> Spanned(b, p, size[p]) == hi[p] - lo[p]
  }

  lemma LevelFills(b: Box, ori: Orientation, lo: RVec, hi: RVec, size: RVec, n: IVec, ratios: seq<int>, lev: nat)
    requires HasCells(n) && Positive(ratios) && lev <= |ratios| && BoxAt(b, ori, n, ratios, lev)
    requires lo[0] < hi[0] && lo[1] < hi[1] && lo[2] < hi[2]
    requires forall i :: 0 <= i < 3 ==> size[i] == SizeAt(lo, hi, n, ratios, lev, i)
    ensures Fills(b, ori, lo, hi, size) <==> Divisor(ratios, lev) == Prod(ratios, lev)
  {
    forall p | 0 <= p < 3 && p != Normal(ori)
      ensures Spanned(b, p, size[p]) == hi[p] - lo[p] <==> Divisor(ratios, lev) == Prod(ratios, lev)
    {
      CellsFillExtent(b, ori, lo, hi, n, ratios, lev, p, size[p]);
    }
    var p := if Normal(ori) == 0 then 1 else 0;
    assert Fills(b, ori, lo, hi, size) ==> Spanned(b, p, size[p]) == hi[p] - lo[p];
  }

  /** The cells of every level fill the plane exactly when all refinement ratios are the
      same: the cell size divides by a power of the last ratio, not by their product. */
  lemma SizesFitIffUniform(cs: seq<RVec>, boxes: seq<Box>, ori: Orientation, lo: RVec, hi: RVec, n: IVec,
                           ratios: seq<int>)
    requires HasCells(n) && Positive(ratios) && |cs| == |boxes| == |ratios| + 1
    requires lo[0] < hi[0] && lo[1] < hi[1] && lo[2] < hi[2] && SizesByFormula(cs, lo, hi, n, ratios)
    requires forall lev :: 0 <= lev < |boxes| ==> BoxAt(boxes[lev], ori, n, ratios, lev)
    ensures (forall lev :: 0 <= lev < |boxes| ==> Fills(boxes[lev], ori, lo, hi, cs[lev]))
            <==> Uniform(ratios, |ratios|)
  {
    forall lev | 0 <= lev < |boxes|
      ensures Fills(boxes[lev], ori, lo, hi, cs[lev]) <==> Divisor(ratios, lev) == Prod(ratios, lev)
    {
      LevelFills(boxes[lev], ori, lo, hi, cs[lev], n, ratios, lev);
    }
    DivisorIsProduct(ratios, |ratios|);
  }

  /** On a level, the two cells of the plane across it lie on either side of the face. */
  predicate Straddles(n: int, ratios: seq<int>, lev: nat)
    requires lev <= |ratios|
  {
    HighIndex(n, ratios, lev) == n * Prod(ratios, lev) - 1
  }

  lemma NextStraddles(n: int, ratios: seq<int>, lev: nat)
    requires lev < |ratios| && Straddles(n, ratios, lev)
    ensures Straddles(n, ratios, lev + 1) <==> ratios[lev] == 2
  {
    var p, r := Prod(ratios, lev), ratios[lev];
    assert n * (p * r) == (n * p) * r;
    assert (n * p - 1) * r == (n * p) * r - r;
  }

  /** On high faces the normal indices straddle the boundary on every level exactly when
      every refinement ratio is two. */
  lemma {:induction false} StraddlesIffTwo(n: int, ratios: seq<int>, m: nat)
    requires m <= |ratios|
    ensures (forall lev :: 0 <= lev <= m ==> Straddles(n, ratios, lev)) <==> forall k :: 0 <= k < m ==> ratios[k] == 2
  {
    if m > 0 {
      StraddlesIffTwo(n, ratios, m - 1);
      if Straddles(n, ratios, m - 1) {
        NextStraddles(n, ratios, m - 1);
      }
    }
  }

  // ---------------------------------------------------------- bounds of the plane

  /** Bounds that reach a given distance to either side of the face across the plane. */
  function Around(ori: Orientation, lo: RVec, hi: RVec, x: real): Extent {
    var m := Normal(ori);
    var face := if IsLow(ori) then lo[m] else hi[m];
    Extent(lo[m := face - x], hi[m := face + x])
  }

  /** Two cells across the plane, on either side of its face; nothing else changes. */
  method AdjustPlane(ori: Orientation, lo: RVec, hi: RVec, n: IVec) returns (lo': RVec, hi': RVec, n': IVec)
    requires HasCells(n)
    ensures var m := Normal(ori);
      && n' == n[m := 2] && lo' == lo[m := lo'[m]] && hi' == hi[m := hi'[m]]
      && (lo'[m] + hi'[m]) / 2.0 == (if IsLow(ori) then lo[m] else hi[m])
      && hi'[m] - lo'[m] == 2.0 * CoarseSize(lo, hi, n, m)
    ensures Extent(lo', hi') == Around(ori, lo, hi, CoarseSize(lo, hi, n, Normal(ori)))
  {
    var normal := Normal(ori);
    var dx := CoarseSize(lo, hi, n, normal);
    n' := n[normal := 2];
    lo' := lo[normal := if IsLow(ori) then lo[normal] - dx else hi[normal] - dx];
    hi' := hi[normal := if IsLow(ori) then lo[normal] + dx else hi[normal] + dx];
  }

  /** The cell sizes that the plot file works out from the adjusted bounds and the boxes
      of the plane are those of the whole domain, across the plane as well. */
  lemma PlaneKeepsCellSizes(ori: Orientation, lo: RVec, hi: RVec, n: IVec, lo': RVec, hi': RVec, b: Box, i: nat)
    requires HasCells(n) && i < 3 && BoxAt(b, ori, n, [], 0)
    requires forall j :: 0 <= j < 3 && j != Normal(ori) ==> lo'[j] == lo[j] && hi'[j] == hi[j]
    requires hi'[Normal(ori)] - lo'[Normal(ori)] == 2.0 * CoarseSize(lo, hi, n, Normal(ori))
    ensures Count(b, i) > 0 && (hi'[i] - lo'[i]) / Count(b, i) as real == CoarseSize(lo, hi, n, i)
  {
    if i == Normal(ori) {
      assert Count(b, i) == 2;
    } else {
      assert b.smallEnd[i] == 0 && b.bigEnd[i] == n[i] * 1 - 1;
    }
  }

  // ------------------------------------------------------------------ refinement

  /** The geometry of a plane: bounds, and per level the cell size, the index box and
      the extents of the grids. */
  datatype Geometry = Geometry(probLo: RVec, probHi: RVec, sizes: seq<RVec>, domains: seq<Box>, grids: seq<seq<Extent>>)

  ghost predicate Levelled(g: Geometry) { |g.sizes| == |g.domains| == |g.grids| >= 1 }

  function RefinedSize(s: RVec, r: int): RVec
    requires r != 0
  {
    [s[0] / r as real, s[1] / r as real, s[2] / r as real]
  }

  /** The same centre along a direction, with a given distance to either end. */
  function Recentred(lo: RVec, hi: RVec, m: nat, dx: real): Extent
    requires m < 3
  {
    var offset := (hi[m] + lo[m]) / 2.0;
    Extent(lo[m := offset - dx], hi[m := offset + dx])
  }

  function RefinedGrids(ori: Orientation, grids: seq<Extent>, dx: real): (r: seq<Extent>)
    ensures |r| == |grids| && forall g :: 0 <= g < |r| ==> r[g] == Recentred(grids[g].lo, grids[g].hi, Normal(ori), dx)
  {
    seq(|grids|, g requires 0 <= g < |grids| => Recentred(grids[g].lo, grids[g].hi, Normal(ori), dx))
  }

  /** `fine` is `g` refined by `r` along the plane: cell sizes are divided in all
      directions, and the two cells across the plane shrink around its centre. */
  ghost predicate IsRefined(ori: Orientation, g: Geometry, fine: Geometry, r: int)
    requires Levelled(g) && r != 0
  {
    && Levelled(fine) && |fine.sizes| == |g.sizes|
    && (forall lev :: 0 <= lev < |g.sizes| ==> fine.sizes[lev] == RefinedSize(g.sizes[lev], r))
    && (forall lev :: 0 <= lev < |g.sizes| ==> fine.domains[lev] == RefinedEnds(ori, g.domains[lev], r))
    && (forall lev :: 0 <= lev < |g.sizes| ==>
          fine.grids[lev] == RefinedGrids(ori, g.grids[lev], RefinedSize(g.sizes[lev], r)[Normal(ori)]))
    && Extent(fine.probLo, fine.probHi)
       == Recentred(g.probLo, g.probHi, Normal(ori), RefinedSize(g.sizes[0], r)[Normal(ori)])
  }

  lemma SizeTwice(x: real, r: int, q: int)
    requires r >= 1 && q >= 1
    ensures r * q >= 1 && x / r as real / q as real == x / (r * q) as real
  {
    var a, b := r as real, q as real;
    assert (r * q) as real == a * b;
    var y := x / a;
    var z := y / b;
    assert x == y * a && y == z * b;
    assert x == z * (a * b);
  }

  lemma EndTwice(s: int, b: int, r: int, q: int)
    ensures s * r * q == s * (r * q) && ((b + 1) * r - 1 + 1) * q - 1 == (b + 1) * (r * q) - 1
  {
  }

  lemma SizesTwice(s: RVec, r: int, q: int)
    requires r >= 1 && q >= 1
    ensures r * q >= 1 && RefinedSize(RefinedSize(s, r), q) == RefinedSize(s, r * q)
  {
    SizeTwice(s[0], r, q);
    SizeTwice(s[1], r, q);
    SizeTwice(s[2], r, q);
  }

  lemma EndsTwice(ori: Orientation, b: Box, r: int, q: int)
    ensures RefinedEnds(ori, RefinedEnds(ori, b, r), q) == RefinedEnds(ori, b, r * q)
  {
    var x, y := RefinedEnds(ori, RefinedEnds(ori, b, r), q), RefinedEnds(ori, b, r * q);
    forall i | 0 <= i < 3
      ensures x.smallEnd[i] == y.smallEnd[i] && x.bigEnd[i] == y.bigEnd[i]
    {
      EndsAt(ori, b, r, i);
      EndsAt(ori, b, r * q, i);
      EndsAt(ori, RefinedEnds(ori, b, r), q, i);
      EndTwice(b.smallEnd[i], b.bigEnd[i], r, q);
    }
  }

  lemma RecentredTwice(lo: RVec, hi: RVec, m: nat, x: real, y: real)
    requires m < 3
    ensures var e := Recentred(lo, hi, m, x); Recentred(e.lo, e.hi, m, y) == Recentred(lo, hi, m, y)
  {
  }

  lemma GridsTwice(ori: Orientation, grids: seq<Extent>, x: real, y: real)
    ensures RefinedGrids(ori, RefinedGrids(ori, grids, x), y) == RefinedGrids(ori, grids, y)
  {
    forall g | 0 <= g < |grids|
      ensures RefinedGrids(ori, RefinedGrids(ori, grids, x), y)[g] == RefinedGrids(ori, grids, y)[g]
    {
      RecentredTwice(grids[g].lo, grids[g].hi, Normal(ori), x, y);
    }
  }

  /** Refining by `r` and then by `q` is refining by `r * q`. */
  lemma RefineTwice(ori: Orientation, g: Geometry, mid: Geometry, fine: Geometry, once: Geometry, r: int, q: int)
    requires Levelled(g) && r >= 1 && q >= 1 && r * q >= 1
    requires IsRefined(ori, g, mid, r) && IsRefined(ori, mid, fine, q) && IsRefined(ori, g, once, r * q)
    ensures fine == once
  {
    var m := Normal(ori);
    forall lev | 0 <= lev < |g.sizes|
      ensures fine.sizes[lev] == once.sizes[lev] && fine.domains[lev] == once.domains[lev]
      ensures fine.grids[lev] == once.grids[lev]
    {
      SizesTwice(g.sizes[lev], r, q);
      EndsTwice(ori, g.domains[lev], r, q);
      GridsTwice(ori, g.grids[lev], mid.sizes[lev][m], fine.sizes[lev][m]);
    }
    RecentredTwice(g.probLo, g.probHi, m, mid.sizes[0][m], fine.sizes[0][m]);
  }

  // ------------------------------------------- refined planes and finer inputs

  /** The geometry of a plane that is defined from an input: the adjusted bounds, and on
      every level cell sizes and box by their formulas, and one grid with two cells across
      the plane. */
  ghost predicate IsDefined(ori: Orientation, lo: RVec, hi: RVec, n: IVec, ratios: seq<int>, g: Geometry)
    requires HasCells(n) && Positive(ratios)
  {
    && Levelled(g) && SizesByFormula(g.sizes, lo, hi, n, ratios)
    && Extent(g.probLo, g.probHi) == Around(ori, lo, hi, CoarseSize(lo, hi, n, Normal(ori)))
    && forall lev :: 0 <= lev < |g.sizes| ==>
         && BoxAt(g.domains[lev], ori, n, ratios, lev)
         && g.grids[lev] == [Around(ori, lo, hi, g.sizes[lev][Normal(ori)])]
  }

  /** The same domain with `r` times the cells in every direction. */
  function Finer(n: IVec, r: int): (fine: IVec)
    ensures HasCells(n) && r >= 1 ==> HasCells(fine)
  {
    [n[0] * r, n[1] * r, n[2] * r]
  }

  lemma SizeOfFiner(e: real, n: int, d: int, r: int)
    requires n >= 1 && d >= 1 && r >= 1
    ensures n * r >= 1 && e / n as real / d as real / r as real == e / (n * r) as real / d as real
  {
    var x, y, z := n as real, d as real, r as real;
    assert (n * r) as real == x * z;
    var q := e / x / y / z;
    assert e == q * z * y * x;
    assert q * z * y * x == q * y * (x * z);
    assert q * y == e / (x * z);
  }

  lemma SizesOfFiner(lo: RVec, hi: RVec, n: IVec, ratios: seq<int>, lev: nat, r: int, i: nat)
    requires HasCells(n) && Positive(ratios) && lev <= |ratios| && r >= 1 && i < 3
    ensures SizeAt(lo, hi, n, ratios, lev, i) / r as real == SizeAt(lo, hi, Finer(n, r), ratios, lev, i)
  {
    DivisorIsPositive(ratios, lev);
    SizeOfFiner(hi[i] - lo[i], n[i], Divisor(ratios, lev), r);
  }

  lemma AroundRecentred(ori: Orientation, lo: RVec, hi: RVec, x: real, y: real)
    ensures var e := Around(ori, lo, hi, x); Recentred(e.lo, e.hi, Normal(ori), y) == Around(ori, lo, hi, y)
  {
  }

  /** Refined by `r`, the box of a level has the cells that `r` times the input cells give
      it, and it has their normal indices on low faces, and on high faces not. */
  lemma EndsOfFiner(ori: Orientation, b: Box, c: Box, n: IVec, ratios: seq<int>, lev: nat, r: int)
    requires lev <= |ratios| && BoxAt(b, ori, n, ratios, lev) && BoxAt(c, ori, Finer(n, r), ratios, lev)
    ensures RefinedEnds(ori, b, r) == c
            <==> NormalIndex(ori, n, ratios, lev) == NormalIndex(ori, Finer(n, r), ratios, lev)
  {
    var f := RefinedEnds(ori, b, r);
    forall p | 0 <= p < 3 && p != Normal(ori)
      ensures f.smallEnd[p] == c.smallEnd[p] && f.bigEnd[p] == c.bigEnd[p]
    {
      assert b.smallEnd[p] == 0 && c.smallEnd[p] == 0;
      EndsAt(ori, b, r, p);
      EndOfFiner(n[p], Prod(ratios, lev), r);
    }
    EndsAt(ori, b, r, Normal(ori));
  }

  lemma EndOfFiner(n: int, p: int, r: int)
    ensures (n * p - 1 + 1) * r - 1 == n * r * p - 1
  {
  }

  lemma SameIndices(ori: Orientation, n: IVec, ratios: seq<int>, lev: nat, r: int)
    requires lev <= |ratios| && (IsLow(ori) || r == 1)
    ensures NormalIndex(ori, n, ratios, lev) == NormalIndex(ori, Finer(n, r), ratios, lev)
  {
    assert r == 1 ==> Finer(n, r) == n;
  }

  lemma CoarseIndices(n: int, r: int)
    requires n >= 1 && r >= 1 && n - 1 == n * r - 1
    ensures r == 1
  {
    assert n * (r - 1) == 0;
  }

  /** What refinement gets right for every plane: sizes, bounds and extents of grids. */
  lemma RefinedIsFinerButForEnds(ori: Orientation, lo: RVec, hi: RVec, n: IVec, ratios: seq<int>, g: Geometry,
                                 fine: Geometry, finer: Geometry, r: int)
    requires HasCells(n) && Positive(ratios) && r >= 1 && IsDefined(ori, lo, hi, n, ratios, g)
    requires IsRefined(ori, g, fine, r) && IsDefined(ori, lo, hi, Finer(n, r), ratios, finer)
    requires |finer.sizes| == |g.sizes|
    ensures fine.(domains := finer.domains) == finer
  {
    var m := Normal(ori);
    forall lev | 0 <= lev < |g.sizes|
      ensures fine.sizes[lev] == finer.sizes[lev] && fine.grids[lev] == finer.grids[lev]
    {
      forall i | 0 <= i < 3
        ensures fine.sizes[lev][i] == finer.sizes[lev][i]
      {
        SizesOfFiner(lo, hi, n, ratios, lev, r, i);
      }
      AroundRecentred(ori, lo, hi, g.sizes[lev][m], fine.sizes[lev][m]);
    }
    SizesOfFiner(lo, hi, n, ratios, 0, r, m);
    AroundRecentred(ori, lo, hi, CoarseSize(lo, hi, n, m), fine.sizes[0][m]);
  }

  /** Refining a plane by `r` gives the geometry that the plane would have from an input
      with `r` times the cells exactly on low faces or for ratio one: on high faces the
      refined boxes keep the coarse indices across the plane. */
  lemma RefinedIsFinerIff(ori: Orientation, lo: RVec, hi: RVec, n: IVec, ratios: seq<int>, g: Geometry,
                          fine: Geometry, finer: Geometry, r: int)
    requires HasCells(n) && Positive(ratios) && r >= 1 && IsDefined(ori, lo, hi, n, ratios, g)
    requires IsRefined(ori, g, fine, r) && IsDefined(ori, lo, hi, Finer(n, r), ratios, finer)
    requires |finer.sizes| == |g.sizes|
    ensures fine == finer <==> IsLow(ori) || r == 1
  {
    RefinedIsFinerButForEnds(ori, lo, hi, n, ratios, g, fine, finer, r);
    if IsLow(ori) || r == 1 {
      forall lev | 0 <= lev < |g.sizes|
        ensures fine.domains[lev] == finer.domains[lev]
      {
        SameIndices(ori, n, ratios, lev, r);
        EndsOfFiner(ori, g.domains[lev], finer.domains[lev], n, ratios, lev, r);
      }
    } else if fine == finer {
      EndsOfFiner(ori, g.domains[0], finer.domains[0], n, ratios, 0, r);
      CoarseIndices(n[Normal(ori)], r);
    }
  }

  lemma LengthKept(c: int, s: real, r: int)
    requires r >= 1
    ensures Length(c * r, s / r as real) == Length(c, s)
  {
    var q := s / r as real;
    assert s == q * r as real;
    assert (c * r) as real == c as real * r as real;
    assert (c as real * r as real) * q == c as real * (q * r as real);
  }

  /** Refinement keeps what the cells span along the plane, on every level, and the
      centre of the plane across it. */
  lemma RefineKeepsExtent(ori: Orientation, g: Geometry, fine: Geometry, r: int, lev: nat, p: nat)
    requires Levelled(g) && r >= 1 && IsRefined(ori, g, fine, r) && lev < |g.sizes| && p < 3 && p != Normal(ori)
    ensures Spanned(fine.domains[lev], p, fine.sizes[lev][p]) == Spanned(g.domains[lev], p, g.sizes[lev][p])
    ensures fine.probLo[p] == g.probLo[p] && fine.probHi[p] == g.probHi[p]
    ensures fine.probLo[Normal(ori)] + fine.probHi[Normal(ori)] == g.probLo[Normal(ori)] + g.probHi[Normal(ori)]
  {
    var b, c := g.domains[lev], fine.domains[lev];
    assert c == RefinedEnds(ori, b, r) && fine.sizes[lev] == RefinedSize(g.sizes[lev], r);
    CountRefined(ori, b, r, p);
    LengthKept(Count(b, p), g.sizes[lev][p], r);
  }

  lemma CountRefined(ori: Orientation, b: Box, r: int, p: nat)
    requires p < 3 && p != Normal(ori)
    ensures Count(RefinedEnds(ori, b, r), p) == Count(b, p) * r
  {
    assert RefinedEnds(ori, b, r).smallEnd[p] == b.smallEnd[p] * r;
    assert RefinedEnds(ori, b, r).bigEnd[p] == (b.bigEnd[p] + 1) * r - 1;
  }

  // ---------------------------------------------------------------- the plane itself

  function Counts(b: Box): IVec { [Count(b, 0), Count(b, 1), Count(b, 2)] }

  /** Sizes worked out from the plane's own bounds and box are those of the input. */
  lemma PlaneSizes(ori: Orientation, lo: RVec, hi: RVec, n: IVec, lo': RVec, hi': RVec, b: Box, ratios: seq<int>,
                   cs: seq<RVec>)
    requires HasCells(n) && HasCells(Counts(b)) && Positive(ratios) && BoxAt(b, ori, n, [], 0)
    requires forall j :: 0 <= j < 3 && j != Normal(ori) ==> lo'[j] == lo[j] && hi'[j] == hi[j]
    requires hi'[Normal(ori)] - lo'[Normal(ori)] == 2.0 * CoarseSize(lo, hi, n, Normal(ori))
    requires SizesByFormula(cs, lo', hi', Counts(b), ratios)
    ensures SizesByFormula(cs, lo, hi, n, ratios)
  {
    forall lev, i | 0 <= lev < |cs| && 0 <= i < 3
      ensures SizeAt(lo', hi', Counts(b), ratios, lev, i) == SizeAt(lo, hi, n, ratios, lev, i)
    {
      PlaneKeepsCellSizes(ori, lo, hi, n, lo', hi', b, i);
      assert Counts(b)[i] == Count(b, i);
    }
  }

  lemma PlaneHasCells(ori: Orientation, n: IVec, b: Box)
    requires HasCells(n) && BoxAt(b, ori, n, [], 0)
    ensures HasCells(Counts(b))
  {
    forall i | 0 <= i < 3
      ensures Counts(b)[i] > 0
    {
      assert i != Normal(ori) ==> b.smallEnd[i] == 0 && b.bigEnd[i] == n[i] * 1 - 1;
    }
  }

  /** One grid per level, with two of its cells across the plane. */
  method LevelGrids(ori: Orientation, lo: RVec, hi: RVec, cs: seq<RVec>) returns (grids: seq<seq<Extent>>)
    ensures |grids| == |cs|
    ensures forall lev :: 0 <= lev < |cs| ==> grids[lev] == [Recentred(lo, hi, Normal(ori), cs[lev][Normal(ori)])]
  {
    grids := [];
    var normal := Normal(ori);
    for ilev := 0 to |cs|
      invariant |grids| == ilev
      invariant forall lev :: 0 <= lev < ilev ==> grids[lev] == [Recentred(lo, hi, normal, cs[lev][normal])]
    {
      var offset := (lo[normal] + hi[normal]) / 2.0;
      grids := grids + [[Extent(lo[normal := offset - cs[ilev][normal]], hi[normal := offset + cs[ilev][normal]])]];
    }
  }

  class NativeBoundaryPlane {
    const ori: Orientation
    var probLo: RVec
    var probHi: RVec
    var cellSizes: seq<RVec>
    var probDomain: seq<Box>
    var glohis: seq<seq<Extent>>

    ghost function Contents(): Geometry
      reads this
    {
      Geometry(probLo, probHi, cellSizes, probDomain, glohis)
    }

    /** Defines the plane from an input file. */
    constructor FromFile(o: Orientation, lo: RVec, hi: RVec, n: IVec, nlevels: nat, ratios: seq<int>)
      requires HasCells(n) && Positive(ratios) && 1 <= nlevels <= |ratios| + 1
      ensures ori == o && |cellSizes| == nlevels && IsDefined(ori, lo, hi, n, ratios, Contents())
    {
      var cs := CellSizes(lo, hi, n, nlevels, ratios);
      var boxes := LevelBoxes(o, n, nlevels, ratios);
      var lo', hi', _ := AdjustPlane(o, lo, hi, n);
      var grids := LevelGrids(o, lo', hi', cs);
      PlaneHasCells(o, n, boxes[0]);
      var sizes := CellSizes(lo', hi', Counts(boxes[0]), nlevels, ratios);
      PlaneSizes(o, lo, hi, n, lo', hi', boxes[0], ratios, sizes);
      forall lev | 0 <= lev < nlevels
        ensures grids[lev] == [Around(o, lo, hi, sizes[lev][Normal(o)])]
      {
        AroundRecentred(o, lo, hi, CoarseSize(lo, hi, n, Normal(o)), cs[lev][Normal(o)]);
      }
      ori := o;
      probLo, probHi, cellSizes, probDomain, glohis := lo', hi', sizes, boxes, grids;
    }

    method RefineSizes(r: int)
      requires r >= 1
      modifies this`cellSizes
      ensures |cellSizes| == |old(cellSizes)|
      ensures forall lev :: 0 <= lev < |cellSizes| ==> cellSizes[lev] == RefinedSize(old(cellSizes[lev]), r)
    {
      for ilev := 0 to |cellSizes|
        invariant |cellSizes| == |old(cellSizes)|
        invariant forall lev :: 0 <= lev < ilev ==> cellSizes[lev] == RefinedSize(old(cellSizes[lev]), r)
        invariant forall lev :: ilev <= lev < |cellSizes| ==> cellSizes[lev] == old(cellSizes[lev])
      {
        var s := cellSizes[ilev];
        cellSizes := cellSizes[ilev := [s[0] / r as real, s[1] / r as real, s[2] / r as real]];
      }
    }

    method RefineDomains(r: int)
      modifies this`probDomain
      ensures |probDomain| == |old(probDomain)|
      ensures forall lev :: 0 <= lev < |probDomain| ==> probDomain[lev] == RefinedEnds(ori, old(probDomain[lev]), r)
    {
      for ilev := 0 to |probDomain|
        invariant |probDomain| == |old(probDomain)|
        invariant forall lev :: 0 <= lev < ilev ==> probDomain[lev] == RefinedEnds(ori, old(probDomain[lev]), r)
        invariant forall lev :: ilev <= lev < |probDomain| ==> probDomain[lev] == old(probDomain[lev])
      {
        var b := RefineEnds(ori, probDomain[ilev], r);
        probDomain := probDomain[ilev := b];
      }
    }

    /** The grids of one level. */
    method RefineGrids(ilev: nat, dx: real)
      requires ilev < |glohis|
      modifies this`glohis
      ensures glohis == old(glohis)[ilev := RefinedGrids(ori, old(glohis[ilev]), dx)]
    {
      var grids := glohis[ilev];
      for igrid := 0 to |grids|
        invariant |grids| == |old(glohis[ilev])|
        invariant forall g :: 0 <= g < igrid ==> grids[g] == RefinedGrids(ori, old(glohis[ilev]), dx)[g]
        invariant forall g :: igrid <= g < |grids| ==> grids[g] == old(glohis[ilev])[g]
      {
        var glo, ghi := grids[igrid].lo[Normal(ori)], grids[igrid].hi[Normal(ori)];
        var offset := (ghi + glo) / 2.0;
        var lo, hi := grids[igrid].lo[Normal(ori) := offset - dx], grids[igrid].hi[Normal(ori) := offset + dx];
        grids := grids[igrid := Extent(lo, hi)];
      }
      assert grids == RefinedGrids(ori, old(glohis[ilev]), dx);
      glohis := glohis[ilev := grids];
    }

    /** Refines the plane by an integer ratio. */
    method Refine(r: int)
      requires Levelled(Contents()) && r >= 1
      modifies this
      ensures IsRefined(ori, old(Contents()), Contents(), r)
    {
      ghost var g := Contents();
      RefineSizes(r);
      var normal := Normal(ori);
      var offset := (probHi[normal] + probLo[normal]) / 2.0;
      probLo := probLo[normal := offset - cellSizes[0][normal]];
      probHi := probHi[normal := offset + cellSizes[0][normal]];
      RefineDomains(r);
      for ilev := 0 to |cellSizes|
        invariant |glohis| == |g.grids|
        invariant forall lev :: 0 <= lev < ilev ==>
                    glohis[lev] == RefinedGrids(ori, g.grids[lev], RefinedSize(g.sizes[lev], r)[normal])
        invariant forall lev :: ilev <= lev < |glohis| ==> glohis[lev] == g.grids[lev]
        modifies this`glohis
      {
        RefineGrids(ilev, cellSizes[ilev][normal]);
      }
    }
  }
}
