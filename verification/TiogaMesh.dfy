/** Numbering of the mesh patches for the overset library. */
module TiogaMesh {
  import opened IndexVectors

  datatype RealVect = RealVect(x: real, y: real, z: real)

  /** A box of a level and the rank that owns it. */
  datatype Patch = Patch(lo: IntVect, hi: IntVect, rank: nat)

  datatype Level = Level(patches: seq<Patch>, dx: RealVect)

  /** One entry of the list of all patches. */
  datatype Entry = Entry(lev: nat, patch: Patch, dx: RealVect)

  // ---------------------------------------------------------- the list of patches

  function EntriesOf(level: Level, lev: nat): (r: seq<Entry>)
    ensures |r| == |level.patches| && forall d :: 0 <= d < |r| ==> r[d] == Entry(lev, level.patches[d], level.dx)
  {
    seq(|level.patches|, d requires 0 <= d < |level.patches| => Entry(lev, level.patches[d], level.dx))
  }

  /** All patches of the first `n` levels, level after level. */
  function Flat(levels: seq<Level>, n: nat): seq<Entry>
    requires n <= |levels|
  {
    if n == 0 then [] else Flat(levels, n - 1) + EntriesOf(levels[n - 1], n - 1)
  }

  lemma {:induction false} FlatPrefix(levels: seq<Level>, m: nat, n: nat)
    requires m <= n <= |levels|
    ensures Flat(levels, m) <= Flat(levels, n)
    decreases n
  {
    if m < n {
      FlatPrefix(levels, m, n - 1);
    }
  }

  /** Where the patches of a level are in the list of all patches. */
  lemma FlatAt(levels: seq<Level>, lev: nat, d: nat)
    requires lev < |levels| && d < |levels[lev].patches|
    ensures |Flat(levels, lev)| + d < |Flat(levels, |levels|)|
    ensures Flat(levels, |levels|)[|Flat(levels, lev)| + d] == Entry(lev, levels[lev].patches[d], levels[lev].dx)
  {
    FlatPrefix(levels, lev + 1, |levels|);
    assert Flat(levels, lev + 1)[|Flat(levels, lev)| + d] == EntriesOf(levels[lev], lev)[d];
  }

  /** How many of the first `n` patches a rank owns. */
  function Owned(flat: seq<Entry>, rank: nat, n: nat): (r: nat)
    requires n <= |flat|
    ensures r <= n
  {
    if n == 0 then 0 else Owned(flat, rank, n - 1) + if flat[n - 1].patch.rank == rank then 1 else 0
  }

  lemma {:induction false} OwnedGrows(flat: seq<Entry>, rank: nat, m: nat, n: nat)
    requires m <= n <= |flat|
    ensures Owned(flat, rank, m) <= Owned(flat, rank, n)
    ensures m < n && flat[m].patch.rank == rank ==> Owned(flat, rank, m) < Owned(flat, rank, n)
    decreases n
  {
    if m < n {
      OwnedGrows(flat, rank, m, n - 1);
    }
  }

  /** Local ids: a patch is numbered by how many patches its rank owns before it. */
  function LocalId(flat: seq<Entry>, g: nat): nat
    requires g < |flat|
  {
    Owned(flat, flat[g].patch.rank, g)
  }

  /** No two patches of a rank share a local id. */
  lemma LocalIdsAreUnique(flat: seq<Entry>, g: nat, h: nat)
    requires g < |flat| && h < |flat| && flat[g].patch.rank == flat[h].patch.rank
    requires LocalId(flat, g) == LocalId(flat, h)
    ensures g == h
  {
    if g < h {
      OwnedGrows(flat, flat[g].patch.rank, g, h);
    } else if h < g {
      OwnedGrows(flat, flat[g].patch.rank, h, g);
    }
  }

  /** Local ids leave no gaps: every number below the count of a rank's patches is the
      local id of one of them, and no other number is. */
  lemma {:induction false} LocalIdsHaveNoGaps(flat: seq<Entry>, rank: nat, l: nat, n: nat)
    requires n <= |flat|
    ensures l < Owned(flat, rank, n) <==> exists g :: 0 <= g < n && flat[g].patch.rank == rank && LocalId(flat, g) == l
    decreases n
  {
    if n > 0 {
      LocalIdsHaveNoGaps(flat, rank, l, n - 1);
      var last := n - 1;
      if flat[last].patch.rank == rank {
        assert LocalId(flat, last) == Owned(flat, rank, last);
      }
    }
  }

  // --------------------------------------------------------------- the numbering

  class AMROversetInfo {
    const level: array<int>
    const mpiRank: array<int>
    const localId: array<int>
    const ilow: array<int>
    const ihigh: array<int>
    const dims: array<int>
    const xlo: array<real>
    const dx: array<real>
    const globalIdmap: array<int>

    constructor (nglobal: nat, nlocal: nat)
      ensures level.Length == mpiRank.Length == localId.Length == nglobal && globalIdmap.Length == nlocal
      ensures ilow.Length == ihigh.Length == dims.Length == xlo.Length == dx.Length == 3 * nglobal
      ensures fresh(level) && fresh(mpiRank) && fresh(localId) && fresh(ilow) && fresh(ihigh) && fresh(dims)
      ensures fresh(xlo) && fresh(dx) && fresh(globalIdmap) && Separate()
    {
      level := new int[nglobal];
      mpiRank := new int[nglobal];
      localId := new int[nglobal];
      ilow := new int[3 * nglobal];
      ihigh := new int[3 * nglobal];
      dims := new int[3 * nglobal];
      xlo := new real[3 * nglobal];
      dx := new real[3 * nglobal];
      globalIdmap := new int[nlocal];
    }

    /** No two of the integer arrays, nor of the real ones, are the same. */
    predicate Separate() {
      && level != mpiRank && level != localId && level != ilow && level != ihigh && level != dims
      && level != globalIdmap
      && mpiRank != localId && mpiRank != ilow && mpiRank != ihigh && mpiRank != dims && mpiRank != globalIdmap
      && localId != ilow && localId != ihigh && localId != dims && localId != globalIdmap
      && ilow != ihigh && ilow != dims && ilow != globalIdmap && ihigh != dims && ihigh != globalIdmap
      && dims != globalIdmap && xlo != dx
    }
  }

  function Comp(v: IntVect, i: nat): int
    requires i < 3
  {
    match i
    case 0 => v.i
    case 1 => v.j
    case _ => v.k
  }

  function RealComp(v: RealVect, i: nat): real
    requires i < 3
  {
    match i
    case 0 => v.x
    case 1 => v.y
    case _ => v.z
  }

  ghost predicate Sized(info: AMROversetInfo) {
    && info.Separate() && info.level.Length == info.mpiRank.Length == info.localId.Length
    && info.ilow.Length == info.ihigh.Length == info.dims.Length == info.xlo.Length == info.dx.Length
    && info.dx.Length == 3 * info.level.Length
  }

  /** The arrays have room for all patches, and for those of this rank. */
  ghost predicate Covers(info: AMROversetInfo, flat: seq<Entry>, iproc: nat) {
    Sized(info) && info.level.Length == |flat| && info.globalIdmap.Length == Owned(flat, iproc, |flat|)
  }

  // Level, rank and local id of the first `n` patches.
  ghost predicate HoldsIds(info: AMROversetInfo, flat: seq<Entry>, n: nat)
    requires Sized(info) && n <= info.level.Length == |flat|
    reads info.level, info.mpiRank, info.localId
  {
    forall g :: 0 <= g < n ==>
      info.level[g] == flat[g].lev && info.mpiRank[g] == flat[g].patch.rank && info.localId[g] == LocalId(flat, g)
  }

  method RecordIds(info: AMROversetInfo, ghost flat: seq<Entry>, iix: nat, lev: nat, rank: nat, id: int)
    requires Sized(info) && iix < info.level.Length == |flat| && HoldsIds(info, flat, iix)
    requires flat[iix].lev == lev && flat[iix].patch.rank == rank && id == LocalId(flat, iix)
    modifies info.level, info.mpiRank, info.localId
    ensures HoldsIds(info, flat, iix + 1)
  {
    info.level[iix] := lev;
    info.mpiRank[iix] := rank;
    info.localId[iix] := id;
  }

  /** Corners, size and position of a patch along one axis, recorded at index `x`. */
  ghost predicate HoldsAxis(info: AMROversetInfo, x: nat, e: Entry, i: nat, problo: RealVect)
    requires Sized(info) && x < info.ilow.Length && i < 3
    reads info.ilow, info.ihigh, info.dims, info.xlo, info.dx
  {
    && info.ilow[x] == Comp(e.patch.lo, i) && info.ihigh[x] == Comp(e.patch.hi, i)
    && info.dims[x] == Comp(e.patch.hi, i) - Comp(e.patch.lo, i) + 1
    && info.xlo[x] == RealComp(problo, i) + Comp(e.patch.lo, i) as real * RealComp(e.dx, i)
    && info.dx[x] == RealComp(e.dx, i)
  }

  /** The geometry of the first `n` patches, three numbers per patch. */
  ghost predicate HoldsGeometry(info: AMROversetInfo, flat: seq<Entry>, n: nat, problo: RealVect)
    requires Sized(info) && n <= info.level.Length == |flat|
    reads info.ilow, info.ihigh, info.dims, info.xlo, info.dx
  {
    forall x :: 0 <= x < 3 * n ==> HoldsAxis(info, x, flat[x / 3], x % 3, problo)
  }

  /** The recorded box of a patch reaches from the lower face of its first cell to the
      upper face of its last one: size times cell size beyond its position is there. */
  lemma GeometrySpansPatch(info: AMROversetInfo, flat: seq<Entry>, problo: RealVect, g: nat, i: nat)
    requires Sized(info) && g < info.level.Length == |flat| && i < 3 && HoldsGeometry(info, flat, |flat|, problo)
    ensures var x := 3 * g + i;
      && info.xlo[x] - RealComp(problo, i) == Comp(flat[g].patch.lo, i) as real * RealComp(flat[g].dx, i)
      && info.xlo[x] + info.dims[x] as real * info.dx[x]
         == RealComp(problo, i) + (Comp(flat[g].patch.hi, i) + 1) as real * RealComp(flat[g].dx, i)
      && info.ihigh[x] - info.ilow[x] + 1 == info.dims[x]
  {
    var x := 3 * g + i;
    assert x / 3 == g && x % 3 == i;
    assert HoldsAxis(info, x, flat[x / 3], x % 3, problo);
    SpanOfCells(RealComp(problo, i), Comp(flat[g].patch.lo, i), Comp(flat[g].patch.hi, i), RealComp(flat[g].dx, i));
  }

  lemma SpanOfCells(o: real, lo: int, hi: int, dx: real)
    ensures o + lo as real * dx + (hi - lo + 1) as real * dx == o + (hi + 1) as real * dx
  {
    assert (hi - lo + 1) as real == (hi + 1) as real - lo as real;
  }

  method RecordGeometry(info: AMROversetInfo, ghost flat: seq<Entry>, iix: nat, patch: Patch, dx: RealVect,
                        problo: RealVect)
    requires Sized(info) && iix < info.level.Length == |flat| && HoldsGeometry(info, flat, iix, problo)
    requires flat[iix].patch == patch && flat[iix].dx == dx
    modifies info.ilow, info.ihigh, info.dims, info.xlo, info.dx
    ensures HoldsGeometry(info, flat, iix + 1, problo)
  {
    var ioff := 3 * iix;
    for i := 0 to 3
      invariant forall x :: 0 <= x < ioff + i ==> HoldsAxis(info, x, flat[x / 3], x % 3, problo)
    {
      info.ilow[ioff + i] := Comp(patch.lo, i);
      info.ihigh[ioff + i] := Comp(patch.hi, i);
      info.dims[ioff + i] := (Comp(patch.hi, i) - Comp(patch.lo, i)) + 1;
      info.xlo[ioff + i] := RealComp(problo, i) + Comp(patch.lo, i) as real * RealComp(dx, i);
      info.dx[ioff + i] := RealComp(dx, i);
    }
  }

  /** The id map takes the local ids of this rank's patches back to their positions. */
  ghost predicate Inverted(info: AMROversetInfo, flat: seq<Entry>, n: nat, iproc: nat)
    requires n <= |flat|
    reads info.globalIdmap
  {
    forall g :: 0 <= g < n && flat[g].patch.rank == iproc ==>
      LocalId(flat, g) < info.globalIdmap.Length && info.globalIdmap[LocalId(flat, g)] == g
  }

  lemma EarlierIdsAreSmaller(flat: seq<Entry>, iproc: nat, n: nat)
    requires n <= |flat|
    ensures forall g :: 0 <= g < n && flat[g].patch.rank == iproc ==> LocalId(flat, g) < Owned(flat, iproc, n)
  {
    forall g | 0 <= g < n && flat[g].patch.rank == iproc
      ensures LocalId(flat, g) < Owned(flat, iproc, n)
    {
      OwnedGrows(flat, iproc, g, n);
    }
  }

  method MapLocalId(info: AMROversetInfo, ghost flat: seq<Entry>, igp: nat, ilp: nat, rank: nat, iproc: nat)
    returns (next: nat)
    requires Covers(info, flat, iproc) && igp < |flat| && flat[igp].patch.rank == rank
    requires Inverted(info, flat, igp, iproc) && ilp == Owned(flat, iproc, igp)
    modifies info.globalIdmap
    ensures Inverted(info, flat, igp + 1, iproc) && next == Owned(flat, iproc, igp + 1)
  {
    next := ilp;
    if iproc == rank {
      EarlierIdsAreSmaller(flat, iproc, igp);
      OwnedGrows(flat, iproc, igp, |flat|);
      info.globalIdmap[next] := igp;
      next := next + 1;
    }
  }

  ghost predicate Counters(lgridId: array<int>, flat: seq<Entry>, n: nat)
    requires n <= |flat|
    reads lgridId
  {
    forall r :: 0 <= r < lgridId.Length ==> lgridId[r] == Owned(flat, r, n)
  }

  method CountLocal(lgridId: array<int>, ghost flat: seq<Entry>, n: nat, rank: nat)
    requires n < |flat| && rank < lgridId.Length && flat[n].patch.rank == rank && Counters(lgridId, flat, n)
    modifies lgridId
    ensures Counters(lgridId, flat, n + 1)
  {
    lgridId[rank] := lgridId[rank] + 1;
  }

  /** Everything that the numbering loop keeps after `n` patches. */
  ghost predicate Numbered(info: AMROversetInfo, flat: seq<Entry>, n: nat, iproc: nat, problo: RealVect)
    requires Covers(info, flat, iproc) && n <= |flat|
    reads info.level, info.mpiRank, info.localId, info.ilow, info.ihigh, info.dims, info.xlo, info.dx, info.globalIdmap
  {
    HoldsIds(info, flat, n) && HoldsGeometry(info, flat, n, problo) && Inverted(info, flat, n, iproc)
  }

  ghost predicate Apart(info: AMROversetInfo, lgridId: array<int>) {
    && lgridId != info.level && lgridId != info.mpiRank && lgridId != info.localId && lgridId != info.ilow
    && lgridId != info.ihigh && lgridId != info.dims && lgridId != info.globalIdmap
  }

  method RecordPatch(info: AMROversetInfo, lgridId: array<int>, ghost flat: seq<Entry>, iix: nat, ilp: nat, lev: nat,
                     patch: Patch, dx: RealVect, iproc: nat, problo: RealVect) returns (next: nat)
    requires Covers(info, flat, iproc) && Apart(info, lgridId) && iix < |flat| && flat[iix] == Entry(lev, patch, dx)
    requires patch.rank < lgridId.Length && Counters(lgridId, flat, iix) && ilp == Owned(flat, iproc, iix)
    requires Numbered(info, flat, iix, iproc, problo)
    modifies info.level, info.mpiRank, info.localId, info.ilow, info.ihigh, info.dims, info.xlo, info.dx
    modifies info.globalIdmap, lgridId
    ensures Numbered(info, flat, iix + 1, iproc, problo) && Counters(lgridId, flat, iix + 1)
    ensures next == Owned(flat, iproc, iix + 1)
  {
    RecordIds(info, flat, iix, lev, patch.rank, lgridId[patch.rank]);
    RecordGeometry(info, flat, iix, patch, dx, problo);
    next := MapLocalId(info, flat, iix, ilp, patch.rank, iproc);
    CountLocal(lgridId, flat, iix, patch.rank);
  }

  method CountGrids(levels: seq<Level>, iproc: nat) returns (nglobal: nat, nlocal: nat)
    ensures nglobal == |Flat(levels, |levels|)| && nlocal == Owned(Flat(levels, |levels|), iproc, nglobal)
  {
    ghost var flat := Flat(levels, |levels|);
    nglobal, nlocal := 0, 0;
    for lev := 0 to |levels|
      invariant nglobal == |Flat(levels, lev)| <= |flat| && nlocal == Owned(flat, iproc, nglobal)
    {
      FlatPrefix(levels, lev + 1, |levels|);
      for d := 0 to |levels[lev].patches|
        invariant nglobal + d <= |flat| && nlocal == Owned(flat, iproc, nglobal + d)
      {
        FlatAt(levels, lev, d);
        if levels[lev].patches[d].rank == iproc {
          nlocal := nlocal + 1;
        }
      }
      nglobal := nglobal + |levels[lev].patches|;
    }
  }

  /** Owners are ranks of the run. */
  ghost predicate Distributed(levels: seq<Level>, nproc: nat) {
    forall lev, d :: 0 <= lev < |levels| && 0 <= d < |levels[lev].patches| ==> levels[lev].patches[d].rank < nproc
  }

  /** The patches of a level follow at index `first` of the list. */
  ghost predicate LevelAt(flat: seq<Entry>, first: nat, level: Level, lev: nat) {
    && first + |level.patches| <= |flat|
    && forall d :: 0 <= d < |level.patches| ==> flat[first + d] == Entry(lev, level.patches[d], level.dx)
  }

  lemma LevelInFlat(levels: seq<Level>, lev: nat)
    requires lev < |levels|
    ensures LevelAt(Flat(levels, |levels|), |Flat(levels, lev)|, levels[lev], lev)
    ensures |Flat(levels, lev + 1)| == |Flat(levels, lev)| + |levels[lev].patches|
  {
    FlatPrefix(levels, lev + 1, |levels|);
    forall d | 0 <= d < |levels[lev].patches|
      ensures Flat(levels, |levels|)[|Flat(levels, lev)| + d] == Entry(lev, levels[lev].patches[d], levels[lev].dx)
    {
      FlatAt(levels, lev, d);
    }
  }

  method RecordLevel(info: AMROversetInfo, lgridId: array<int>, ghost flat: seq<Entry>, level: Level, lev: nat,
                     iix0: nat, ilp0: nat, iproc: nat, problo: RealVect)
    returns (iix: nat, ilp: nat)
    requires LevelAt(flat, iix0, level, lev)
    requires forall d :: 0 <= d < |level.patches| ==> level.patches[d].rank < lgridId.Length
    requires Covers(info, flat, iproc) && Apart(info, lgridId) && Numbered(info, flat, iix0, iproc, problo)
    requires Counters(lgridId, flat, iix0) && ilp0 == Owned(flat, iproc, iix0)
    modifies info.level, info.mpiRank, info.localId, info.ilow, info.ihigh, info.dims, info.xlo, info.dx
    modifies info.globalIdmap, lgridId
    ensures iix == iix0 + |level.patches| && Numbered(info, flat, iix, iproc, problo)
    ensures Counters(lgridId, flat, iix) && ilp == Owned(flat, iproc, iix)
  {
    iix, ilp := iix0, ilp0;
    for d := 0 to |level.patches|
      invariant iix == iix0 + d <= |flat|
      invariant Numbered(info, flat, iix, iproc, problo) && Counters(lgridId, flat, iix)
      invariant ilp == Owned(flat, iproc, iix)
    {
      ilp := RecordPatch(info, lgridId, flat, iix, ilp, lev, level.patches[d], level.dx, iproc, problo);
      iix := iix + 1;
    }
  }

  /** Records every patch under its level, rank, local id and geometry, and maps the
      local ids of this rank back to positions in the list of all patches. */
  method AmrToTiogaMesh(levels: seq<Level>, iproc: nat, nproc: nat, problo: RealVect) returns (info: AMROversetInfo)
    requires Distributed(levels, nproc)
    ensures Covers(info, Flat(levels, |levels|), iproc)
    ensures Numbered(info, Flat(levels, |levels|), |Flat(levels, |levels|)|, iproc, problo)
  {
    ghost var flat := Flat(levels, |levels|);
    var ngridsGlobal, ngridsLocal := CountGrids(levels, iproc);
    info := new AMROversetInfo(ngridsGlobal, ngridsLocal);
    var lgridId := new int[nproc](_ => 0);
    var ilp, iix := 0, 0;
    for lev := 0 to |levels|
      invariant iix == |Flat(levels, lev)| <= |flat|
      invariant Covers(info, flat, iproc) && Apart(info, lgridId)
      invariant Numbered(info, flat, iix, iproc, problo) && Counters(lgridId, flat, iix)
      invariant ilp == Owned(flat, iproc, iix)
    {
      LevelInFlat(levels, lev);
      iix, ilp := RecordLevel(info, lgridId, flat, levels[lev], lev, iix, ilp, iproc, problo);
    }
  }

  // ------------------------------------------------------------- patch data

  /** Where a patch is: its level and its place there. */
  datatype Place = Place(lev: nat, d: nat)

  function Position(levels: seq<Level>, p: Place): nat
    requires p.lev <= |levels|
  {
    |Flat(levels, p.lev)| + p.d
  }

  /** A place holds the patch with local id `l` of a rank, among the first `n` patches. */
  ghost predicate HoldsLocal(levels: seq<Level>, flat: seq<Entry>, iproc: nat, n: nat, p: Place, l: nat)
    requires n <= |flat|
  {
    && p.lev < |levels| && Position(levels, p) < n
    && flat[Position(levels, p)].patch.rank == iproc && LocalId(flat, Position(levels, p)) == l
  }

  /** The data of this rank's patches among the first `n`, in the order of their local ids. */
  ghost predicate Lined(data: seq<Place>, levels: seq<Level>, flat: seq<Entry>, iproc: nat, n: nat)
    requires n <= |flat|
  {
    |data| == Owned(flat, iproc, n) && forall l :: 0 <= l < |data| ==> HoldsLocal(levels, flat, iproc, n, data[l], l)
  }

  function Visited(data: seq<Place>, p: Place, owned: bool): seq<Place> { if owned then data + [p] else data }

  lemma LinedNext(data: seq<Place>, levels: seq<Level>, flat: seq<Entry>, iproc: nat, n: nat, p: Place)
    requires n < |flat| && Lined(data, levels, flat, iproc, n) && p.lev < |levels| && Position(levels, p) == n
    ensures Lined(Visited(data, p, flat[n].patch.rank == iproc), levels, flat, iproc, n + 1)
  {
    var next := Visited(data, p, flat[n].patch.rank == iproc);
    forall l | 0 <= l < |next|
      ensures HoldsLocal(levels, flat, iproc, n + 1, next[l], l)
    {
      assert l < |data| ==> HoldsLocal(levels, flat, iproc, n, data[l], l);
    }
  }

  /** An iteration over one level visits the patches that this rank owns, in order. */
  method LocalDataOf(levels: seq<Level>, lev: nat, ghost flat: seq<Entry>, ghost first: nat, before: seq<Place>,
                     iproc: nat)
    returns (data: seq<Place>)
    requires lev < |levels| && LevelAt(flat, first, levels[lev], lev) && first == |Flat(levels, lev)|
    requires Lined(before, levels, flat, iproc, first)
    ensures Lined(data, levels, flat, iproc, first + |levels[lev].patches|)
  {
    data := before;
    for d := 0 to |levels[lev].patches|
      invariant Lined(data, levels, flat, iproc, first + d)
    {
      var owned := levels[lev].patches[d].rank == iproc;
      assert flat[first + d].patch.rank == levels[lev].patches[d].rank;
      LinedNext(data, levels, flat, iproc, first + d, Place(lev, d));
      data := Visited(data, Place(lev, d), owned);
    }
  }

  /** The data pointers that are handed over, level after level. */
  method LocalData(levels: seq<Level>, iproc: nat) returns (data: seq<Place>)
    ensures Lined(data, levels, Flat(levels, |levels|), iproc, |Flat(levels, |levels|)|)
  {
    ghost var flat := Flat(levels, |levels|);
    data := [];
    ghost var n := 0;
    for lev := 0 to |levels|
      invariant n == |Flat(levels, lev)| <= |flat| && Lined(data, levels, flat, iproc, n)
    {
      LevelInFlat(levels, lev);
      data := LocalDataOf(levels, lev, flat, n, data, iproc);
      n := n + |levels[lev].patches|;
    }
  }

  /** The data handed over for a local id belong to the patch that the id map names. */
  lemma DataMatchIds(info: AMROversetInfo, levels: seq<Level>, iproc: nat, data: seq<Place>, l: nat)
    requires Covers(info, Flat(levels, |levels|), iproc)
    requires Inverted(info, Flat(levels, |levels|), |Flat(levels, |levels|)|, iproc)
    requires Lined(data, levels, Flat(levels, |levels|), iproc, |Flat(levels, |levels|)|) && l < |data|
    ensures |data| == info.globalIdmap.Length && data[l].lev < |levels|
    ensures info.globalIdmap[l] == Position(levels, data[l])
  {
    var flat := Flat(levels, |levels|);
    assert HoldsLocal(levels, flat, iproc, |flat|, data[l], l);
    var g := Position(levels, data[l]);
    assert flat[g].patch.rank == iproc && LocalId(flat, g) == l;
  }
}
