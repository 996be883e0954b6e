/** The drag of point-cloud forests in one cell: the bounded nearest-neighbour scan
    over fixed-size arrays, the inverse-distance interpolation, and the accumulation
    over forests. */
module Canopy {
  import opened Plane
  import opened Forest
  import opened IndexVectors
  import opened IndexBoxes

  const MAX_NEIGHBORS := 8

  datatype Cell = Cell(x: real, y: real, z: real, dz: real)

  function Distance2(cell: Cell, s: Sample): real {
    var dxp, dyp, dzp := cell.x - s.at.x, cell.y - s.at.y, cell.z - s.z;
    dxp * dxp + dyp * dyp + dzp * dzp
  }

  function Distances(cell: Cell, samples: seq<Sample>): (d: seq<real>)
    ensures |d| == |samples| && forall p :: 0 <= p < |d| ==> d[p] == Distance2(cell, samples[p])
  {
    seq(|samples|, p requires 0 <= p < |samples| => Distance2(cell, samples[p]))
  }

  // ---------------------------------------------- what the scan is to compute

  /** Sample `a` is nearer than sample `b`; equal distances keep file order. */
  predicate Nearer(d: seq<real>, a: nat, b: nat)
    requires a < |d| && b < |d|
  {
    d[a] < d[b] || (d[a] == d[b] && a < b)
  }

  predicate Candidate(d: seq<real>, huge: real, p: nat) {
    p < |d| && d[p] < huge
  }

  /** `idx` lists, nearest first, the `k` nearest samples closer than `huge`, or all
      of these when there are fewer. */
  ghost predicate KNearest(d: seq<real>, k: nat, huge: real, idx: seq<nat>) {
    && |idx| <= k
    && (forall i :: 0 <= i < |idx| ==> Candidate(d, huge, idx[i]))
    && (forall i, j :: 0 <= i < j < |idx| ==> Nearer(d, idx[i], idx[j]))
    && (forall p :: Candidate(d, huge, p) && p !in idx ==> |idx| == k && (k > 0 ==> Nearer(d, idx[k - 1], p)))
  }

  lemma FirstDifference(d: seq<real>, k: nat, huge: real, idx: seq<nat>, other: seq<nat>, i: nat)
    requires KNearest(d, k, huge, idx) && KNearest(d, k, huge, other)
    requires i < |idx| && i < |other| && idx[..i] == other[..i]
    ensures !Nearer(d, idx[i], other[i])
  {
    var p := idx[i];
    assert forall m :: 0 <= m < i ==> other[..i][m] == idx[..i][m];
    assert forall m :: 0 <= m < i ==> other[m] != p;
    if p in other {
      var j :| 0 <= j < |other| && other[j] == p;
      assert j > i ==> Nearer(d, other[i], other[j]);
    } else {
      assert Nearer(d, other[k - 1], p);
      assert i < k - 1 ==> Nearer(d, other[i], other[k - 1]);
    }
  }

  lemma {:induction false} AgreeUpTo(d: seq<real>, k: nat, huge: real, idx: seq<nat>, other: seq<nat>, i: nat)
    requires KNearest(d, k, huge, idx) && KNearest(d, k, huge, other)
    requires i <= |idx| && i <= |other|
    ensures idx[..i] == other[..i]
  {
    if i > 0 {
      AgreeUpTo(d, k, huge, idx, other, i - 1);
      FirstDifference(d, k, huge, idx, other, i - 1);
      FirstDifference(d, k, huge, other, idx, i - 1);
      assert idx[..i] == idx[..i - 1] + [idx[i - 1]] && other[..i] == other[..i - 1] + [other[i - 1]];
    }
  }

  lemma NextIsNew(d: seq<real>, k: nat, huge: real, idx: seq<nat>, n: nat)
    requires KNearest(d, k, huge, idx) && n < |idx|
    ensures Candidate(d, huge, idx[n]) && idx[n] !in idx[..n]
  {
    assert forall m :: 0 <= m < n ==> Nearer(d, idx[m], idx[n]);
  }

  lemma NotShorter(d: seq<real>, k: nat, huge: real, idx: seq<nat>, other: seq<nat>)
    requires KNearest(d, k, huge, idx) && KNearest(d, k, huge, other)
    ensures |idx| >= |other|
  {
    var n := if |idx| < |other| then |idx| else |other|;
    if n < |other| {
      NextIsNew(d, k, huge, other, n);
    }
    AgreeUpTo(d, k, huge, idx, other, n);
    assert n == |idx| ==> idx[..n] == idx;
  }

  /** The neighbours are determined by the distances alone. */
  lemma KNearestIsUnique(d: seq<real>, k: nat, huge: real, idx: seq<nat>, other: seq<nat>)
    requires KNearest(d, k, huge, idx) && KNearest(d, k, huge, other)
    ensures idx == other
  {
    NotShorter(d, k, huge, idx, other);
    NotShorter(d, k, huge, other, idx);
    AgreeUpTo(d, k, huge, idx, other, |idx|);
    assert idx[..|idx|] == idx && other[..|idx|] == other;
  }

  /** How many of `idx` are no farther than `r`. */
  ghost predicate SplitsAt(d: seq<real>, idx: seq<nat>, r: real, at: nat)
    requires forall i :: 0 <= i < |idx| ==> idx[i] < |d|
  {
    && at <= |idx|
    && (forall i :: 0 <= i < at ==> d[idx[i]] <= r)
    && (forall i :: at <= i < |idx| ==> r < d[idx[i]])
  }

  function Inserted<T>(s: seq<T>, at: nat, t: T, k: nat): seq<T>
    requires at <= |s|
  {
    var r := s[..at] + [t] + s[at..];
    if |r| <= k then r else r[..k]
  }

  lemma InsertedAt<T>(s: seq<T>, at: nat, t: T, k: nat, i: nat)
    requires at <= |s| && i < |Inserted(s, at, t, k)|
    ensures Inserted(s, at, t, k)[i] == if i < at then s[i] else if i == at then t else s[i - 1]
  {
  }

  lemma InsertedOrdered(d: seq<real>, k: nat, huge: real, idx: seq<nat>, r: real, at: nat)
    requires KNearest(d, k, huge, idx) && SplitsAt(d, idx, r, at) && r < huge
    ensures var d', idx' := d + [r], Inserted(idx, at, |d|, k);
      && (forall i :: 0 <= i < |idx'| ==> Candidate(d', huge, idx'[i]))
      && (forall i, j :: 0 <= i < j < |idx'| ==> Nearer(d', idx'[i], idx'[j]))
  {
    var d', idx' := d + [r], Inserted(idx, at, |d|, k);
    forall i | 0 <= i < |idx'|
      ensures Candidate(d', huge, idx'[i])
    {
      InsertedAt(idx, at, |d|, k, i);
    }
    forall i, j | 0 <= i < j < |idx'|
      ensures Nearer(d', idx'[i], idx'[j])
    {
      InsertedAt(idx, at, |d|, k, i);
      InsertedAt(idx, at, |d|, k, j);
      var m, n := if i < at then i else i - 1, if j < at then j else j - 1;
      assert i != at && j != at ==> Nearer(d, idx[m], idx[n]);
    }
  }

  /** Making room pushes out at most the farthest neighbour. */
  lemma InsertedKeeps(idx: seq<nat>, at: nat, t: nat, k: nat, p: nat)
    requires at <= |idx| <= k && p in idx
    ensures p in Inserted(idx, at, t, k) || (|idx| == k && idx[k - 1] == p)
  {
    var n :| 0 <= n < |idx| && idx[n] == p;
    var m := if n < at then n else n + 1;
    if m < |Inserted(idx, at, t, k)| {
      InsertedAt(idx, at, t, k, m);
      assert Inserted(idx, at, t, k)[m] == p;
    }
  }

  lemma InsertKeepsNearest(d: seq<real>, k: nat, huge: real, idx: seq<nat>, r: real, at: nat)
    requires KNearest(d, k, huge, idx) && SplitsAt(d, idx, r, at) && r < huge && at < k
    ensures KNearest(d + [r], k, huge, Inserted(idx, at, |d|, k))
  {
    var d', idx' := d + [r], Inserted(idx, at, |d|, k);
    InsertedOrdered(d, k, huge, idx, r, at);
    InsertedAt(idx, at, |d|, k, at);
    forall p: nat | Candidate(d', huge, p) && p !in idx'
      ensures |idx'| == k && Nearer(d', idx'[k - 1], p)
    {
      assert Candidate(d, huge, p);
      if p in idx {
        InsertedKeeps(idx, at, |d|, k, p);
      }
      assert |idx| == k && (p == idx[k - 1] || Nearer(d, idx[k - 1], p));
      InsertedAt(idx, at, |d|, k, k - 1);
      assert at < k - 1 ==> Nearer(d, idx[k - 2], idx[k - 1]);
    }
  }

  lemma SkipKeepsNearest(d: seq<real>, k: nat, huge: real, idx: seq<nat>, r: real)
    requires KNearest(d, k, huge, idx) && k > 0
    requires (if |idx| == k then d[idx[k - 1]] else huge) <= r
    ensures KNearest(d + [r], k, huge, idx)
  {
    var d' := d + [r];
    forall p: nat | Candidate(d', huge, p) && p !in idx
      ensures |idx| == k && Nearer(d', idx[k - 1], p)
    {
      assert p < |d| ==> Candidate(d, huge, p);
    }
  }

  // ------------------------------------------------------------------ the scan

  /** The three parallel arrays hold the samples listed by `idx`, then padding. */
  ghost predicate Holds(nd2: seq<real>, nlad: seq<real>, nz: seq<real>, k: nat, huge: real,
                        cell: Cell, samples: seq<Sample>, idx: seq<nat>)
    requires k <= |nd2| && k <= |nlad| && k <= |nz|
  {
    && |idx| <= k && (forall n :: 0 <= n < |idx| ==> idx[n] < |samples|)
    && (forall n :: 0 <= n < |idx| ==> nd2[n] == Distance2(cell, samples[idx[n]]))
    && (forall n :: 0 <= n < |idx| ==> nlad[n] == samples[idx[n]].lad)
    && (forall n :: 0 <= n < |idx| ==> nz[n] == samples[idx[n]].z)
    && (forall n :: |idx| <= n < k ==> nd2[n] == huge && nlad[n] == 0.0 && nz[n] == 0.0)
  }

  /** Where a sample at squared distance `r` goes among the first `k` slots. */
  ghost predicate IsSlot(nd2: seq<real>, k: nat, r: real, at: nat)
    requires k <= |nd2|
  {
    && at <= k
    && (forall n :: 0 <= n < at ==> nd2[n] <= r)
    && (forall n :: at <= n < k ==> r < nd2[n])
  }

  ghost predicate Ascending(s: seq<real>, k: nat)
    requires k <= |s|
  {
    forall m, n :: 0 <= m <= n < k ==> s[m] <= s[n]
  }

  function Shifted(s: seq<real>, at: nat, v: real, n: nat): real
    requires n < |s|
  {
    if n < at then s[n] else if n == at then v else s[n - 1]
  }

  /** The shifting insertion: slots from `at` on move up by one. */
  method InsertSample(nd2: array<real>, nlad: array<real>, nz: array<real>, k: nat, d2: real, lad: real, z: real)
      returns (at: nat)
    requires nd2.Length == nlad.Length == nz.Length && 1 <= k <= nd2.Length
    requires nd2 != nlad && nd2 != nz && nlad != nz
    requires Ascending(nd2[..], k)
    modifies nd2, nlad, nz
    ensures IsSlot(old(nd2[..]), k, d2, at)
    ensures forall n :: 0 <= n < k ==> nd2[n] == Shifted(old(nd2[..]), at, d2, n)
    ensures forall n :: 0 <= n < k ==> nlad[n] == Shifted(old(nlad[..]), at, lad, n)
    ensures forall n :: 0 <= n < k ==> nz[n] == Shifted(old(nz[..]), at, z, n)
  {
    at := k;
    if d2 < nd2[k - 1] {
      var insert := k - 1;
      while insert > 0 && d2 < nd2[insert - 1]
        invariant 0 <= insert < k
        invariant forall n :: 0 <= n <= insert ==>
                    nd2[n] == old(nd2[n]) && nlad[n] == old(nlad[n]) && nz[n] == old(nz[n])
        invariant forall n :: insert < n < k ==>
                    nd2[n] == old(nd2[n - 1]) && nlad[n] == old(nlad[n - 1]) && nz[n] == old(nz[n - 1])
        invariant forall n :: insert <= n < k ==> d2 < old(nd2[n])
      {
        nd2[insert] := nd2[insert - 1];
        nlad[insert] := nlad[insert - 1];
        nz[insert] := nz[insert - 1];
        insert := insert - 1;
      }
      nd2[insert] := d2;
      nlad[insert] := lad;
      nz[insert] := z;
      at := insert;
    }
  }

  lemma HeldAscends(nd2: seq<real>, nlad: seq<real>, nz: seq<real>, k: nat, huge: real,
                    cell: Cell, samples: seq<Sample>, idx: seq<nat>)
    requires k <= |nd2| && k <= |nlad| && k <= |nz|
    requires KNearest(Distances(cell, samples), k, huge, idx)
    requires Holds(nd2, nlad, nz, k, huge, cell, samples, idx)
    ensures Ascending(nd2, k)
  {
    var d := Distances(cell, samples);
    forall m, n | 0 <= m <= n < k
      ensures nd2[m] <= nd2[n]
    {
      if m < n < |idx| {
        assert Nearer(d, idx[m], idx[n]);
      } else if m < |idx| {
        assert Candidate(d, huge, idx[m]);
      }
    }
  }

  /** What one trip of the scan does to the listed neighbours. */
  function NextNeighbours(idx: seq<nat>, at: nat, p: nat, k: nat): seq<nat>
  {
    if at < k && at <= |idx| then Inserted(idx, at, p, k) else idx
  }

  lemma ScanStep(nd2: seq<real>, nlad: seq<real>, nz: seq<real>, k: nat, huge: real,
                 cell: Cell, samples: seq<Sample>, idx: seq<nat>, s: Sample, at: nat)
    requires 1 <= k <= |nd2| && k <= |nlad| && k <= |nz|
    requires KNearest(Distances(cell, samples), k, huge, idx)
    requires Holds(nd2, nlad, nz, k, huge, cell, samples, idx)
    requires IsSlot(nd2, k, Distance2(cell, s), at)
    ensures at < k ==> at <= |idx|
    ensures KNearest(Distances(cell, samples + [s]), k, huge, NextNeighbours(idx, at, |samples|, k))
  {
    var d, r := Distances(cell, samples), Distance2(cell, s);
    assert Distances(cell, samples + [s]) == d + [r];
    assert forall n :: 0 <= n < |idx| ==> Candidate(d, huge, idx[n]) && nd2[n] == d[idx[n]];
    assert |idx| < k ==> nd2[|idx|] == huge;
    if at < k {
      assert r < nd2[at] && r < nd2[k - 1] && nd2[k - 1] <= huge;
      InsertKeepsNearest(d, k, huge, idx, r, at);
    } else {
      assert nd2[k - 1] <= r;
      SkipKeepsNearest(d, k, huge, idx, r);
    }
  }

  /** After the shift the arrays hold the next list of neighbours. */
  lemma ShiftHolds(od2: seq<real>, olad: seq<real>, oz: seq<real>, nd2: seq<real>, nlad: seq<real>, nz: seq<real>,
                   k: nat, huge: real, cell: Cell, samples: seq<Sample>, idx: seq<nat>, s: Sample, at: nat)
    requires |od2| == |olad| == |oz| == |nd2| == |nlad| == |nz| && 1 <= k <= |od2|
    requires Holds(od2, olad, oz, k, huge, cell, samples, idx)
    requires at <= k && (at < k ==> at <= |idx|)
    requires forall n :: 0 <= n < k ==> nd2[n] == Shifted(od2, at, Distance2(cell, s), n)
    requires forall n :: 0 <= n < k ==> nlad[n] == Shifted(olad, at, s.lad, n)
    requires forall n :: 0 <= n < k ==> nz[n] == Shifted(oz, at, s.z, n)
    ensures Holds(nd2, nlad, nz, k, huge, cell, samples + [s], NextNeighbours(idx, at, |samples|, k))
  {
    var idx' := NextNeighbours(idx, at, |samples|, k);
    forall n | 0 <= n < |idx'|
      ensures idx'[n] < |samples| + 1 && nd2[n] == Distance2(cell, (samples + [s])[idx'[n]])
      ensures nlad[n] == (samples + [s])[idx'[n]].lad && nz[n] == (samples + [s])[idx'[n]].z
    {
      if at < k {
        InsertedAt(idx, at, |samples|, k, n);
      }
      if n != at {
        var m := if n < at then n else n - 1;
        assert idx'[n] == idx[m] && od2[m] == Distance2(cell, samples[idx[m]]);
      }
    }
    forall n | |idx'| <= n < k
      ensures nd2[n] == huge && nlad[n] == 0.0 && nz[n] == 0.0
    {
      assert od2[if n < at then n else n - 1] == huge;
    }
  }

  /** The slots are right for the samples seen so far. */
  ghost predicate Scanned(nd2: seq<real>, nlad: seq<real>, nz: seq<real>, k: nat, huge: real,
                          cell: Cell, samples: seq<Sample>, idx: seq<nat>)
    requires k <= |nd2| && k <= |nlad| && k <= |nz|
  {
    && KNearest(Distances(cell, samples), k, huge, idx)
    && Holds(nd2, nlad, nz, k, huge, cell, samples, idx)
  }

  method ClearSlots(cell: Cell, k: nat, huge: real, nd2: array<real>, nlad: array<real>, nz: array<real>)
    requires k <= MAX_NEIGHBORS
    requires nd2.Length == nlad.Length == nz.Length == MAX_NEIGHBORS
    requires nd2 != nlad && nd2 != nz && nlad != nz
    modifies nd2, nlad, nz
    ensures Scanned(nd2[..], nlad[..], nz[..], k, huge, cell, [], [])
  {
    for n := 0 to MAX_NEIGHBORS
      invariant forall m :: 0 <= m < n ==> nd2[m] == huge && nlad[m] == 0.0 && nz[m] == 0.0
    {
      nd2[n], nlad[n], nz[n] := huge, 0.0, 0.0;
    }
  }

  method ScanPoint(cell: Cell, pt: Sample, k: nat, huge: real, nd2: array<real>, nlad: array<real>, nz: array<real>,
                   ghost seen: seq<Sample>, ghost idx: seq<nat>) returns (ghost idx': seq<nat>)
    requires nd2.Length == nlad.Length == nz.Length == MAX_NEIGHBORS && 1 <= k <= MAX_NEIGHBORS
    requires nd2 != nlad && nd2 != nz && nlad != nz
    requires Scanned(nd2[..], nlad[..], nz[..], k, huge, cell, seen, idx)
    modifies nd2, nlad, nz
    ensures Scanned(nd2[..], nlad[..], nz[..], k, huge, cell, seen + [pt], idx')
  {
    ghost var od2, olad, oz := nd2[..], nlad[..], nz[..];
    HeldAscends(od2, olad, oz, k, huge, cell, seen, idx);
    var at := InsertSample(nd2, nlad, nz, k, Distance2(cell, pt), pt.lad, pt.z);
    ScanStep(od2, olad, oz, k, huge, cell, seen, idx, pt, at);
    ShiftHolds(od2, olad, oz, nd2[..], nlad[..], nz[..], k, huge, cell, seen, idx, pt, at);
    idx' := NextNeighbours(idx, at, |seen|, k);
  }

  /** Scans one forest's slice of the flattened points.  Afterwards the first `k`
      slots hold its `k` nearest samples in order, and padding if it has fewer. */
  method ScanNearest(cell: Cell, points: seq<Sample>, pstart: nat, pend: nat, k: nat, huge: real,
                     nd2: array<real>, nlad: array<real>, nz: array<real>) returns (ghost idx: seq<nat>)
    requires nd2.Length == nlad.Length == nz.Length == MAX_NEIGHBORS && 1 <= k <= MAX_NEIGHBORS
    requires nd2 != nlad && nd2 != nz && nlad != nz
    requires pstart <= pend <= |points|
    modifies nd2, nlad, nz
    ensures Scanned(nd2[..], nlad[..], nz[..], k, huge, cell, points[pstart..pend], idx)
  {
    ClearSlots(cell, k, huge, nd2, nlad, nz);
    idx := [];
    ghost var seen := [];
    for p := pstart to pend
      invariant seen == points[pstart..p]
      invariant Scanned(nd2[..], nlad[..], nz[..], k, huge, cell, seen, idx)
    {
      idx := ScanPoint(cell, points[p], k, huge, nd2, nlad, nz, seen, idx);
      seen := seen + [points[p]];
    }
  }

  // ------------------------------------------------------------- interpolation

  /** What is needed of the library's square root. */
  ghost predicate IsRoot(root: real -> real) {
    forall t :: t > 0.0 ==> root(t) > 0.0 && root(t) * root(t) == t
  }

  lemma DistanceNotNegative(cell: Cell, s: Sample)
    ensures Distance2(cell, s) >= 0.0
  {
  }

  /** `eps2` is the square of the interpolation length. */
  datatype Settings = Settings(k: nat, huge: real, eps2: real, tol: real, root: real -> real)

  ghost predicate Usable(o: Settings) {
    1 <= o.k <= MAX_NEIGHBORS && o.eps2 > 0.0 && o.tol >= 0.0 && IsRoot(o.root)
  }

  ghost predicate Lists(samples: seq<Sample>, idx: seq<nat>) {
    forall n :: 0 <= n < |idx| ==> idx[n] < |samples|
  }

  function Weight(d2: real, o: Settings): (w: real)
    requires Usable(o) && d2 >= 0.0
    ensures w > 0.0
  {
    assert o.root(d2 + o.eps2) > 0.0;
    1.0 / o.root(d2 + o.eps2)
  }

  function WeightOf(cell: Cell, s: Sample, o: Settings): (w: real)
    requires Usable(o)
    ensures w > 0.0
  {
    DistanceNotNegative(cell, s);
    Weight(Distance2(cell, s), o)
  }

  function Sum(w: seq<real>, n: nat): real
    requires n <= |w|
  {
    if n == 0 then 0.0 else Sum(w, n - 1) + w[n - 1]
  }

  function Dot(w: seq<real>, v: seq<real>, n: nat): real
    requires n <= |w| && n <= |v|
  {
    if n == 0 then 0.0 else Dot(w, v, n - 1) + w[n - 1] * v[n - 1]
  }

  function Weights(cell: Cell, samples: seq<Sample>, idx: seq<nat>, o: Settings): (w: seq<real>)
    requires Usable(o) && Lists(samples, idx)
    ensures |w| == |idx| && forall n :: 0 <= n < |w| ==> w[n] == WeightOf(cell, samples[idx[n]], o)
  {
    seq(|idx|, n requires 0 <= n < |idx| => WeightOf(cell, samples[idx[n]], o))
  }

  function Lads(samples: seq<Sample>, idx: seq<nat>): (v: seq<real>)
    requires Lists(samples, idx)
    ensures |v| == |idx| && forall n :: 0 <= n < |v| ==> v[n] == samples[idx[n]].lad
  {
    seq(|idx|, n requires 0 <= n < |idx| => samples[idx[n]].lad)
  }

  /** Height of the canopy among the neighbours; never below the ground. */
  function CanopyTop(samples: seq<Sample>, idx: seq<nat>, n: nat): real
    requires Lists(samples, idx) && n <= |idx|
  {
    if n == 0 then 0.0 else
      var rest, z := CanopyTop(samples, idx, n - 1), samples[idx[n - 1]].z;
      if rest < z then z else rest
  }

  predicate OnSample(cell: Cell, samples: seq<Sample>, idx: seq<nat>, o: Settings)
    requires |idx| > 0 && idx[0] < |samples|
  {
    Distance2(cell, samples[idx[0]]) < o.eps2
  }

  predicate UnderCanopy(cell: Cell, samples: seq<Sample>, idx: seq<nat>)
    requires Lists(samples, idx)
  {
    cell.z - 0.5 * cell.dz <= CanopyTop(samples, idx, |idx|)
  }

  /** Leaf-area density seen by a cell whose neighbours are `idx`. */
  function LadAt(cell: Cell, samples: seq<Sample>, idx: seq<nat>, o: Settings): real
    requires Usable(o) && Lists(samples, idx)
  {
    var n := |idx|;
    if n == 0 then 0.0
    else if OnSample(cell, samples, idx, o) then samples[idx[0]].lad
    else if UnderCanopy(cell, samples, idx) then WeightedMean(Weights(cell, samples, idx, o), Lads(samples, idx))
    else 0.0
  }

  function WeightedMean(w: seq<real>, v: seq<real>): real
    requires |w| == |v|
  {
    if Sum(w, |w|) > 0.0 then Dot(w, v, |w|) / Sum(w, |w|) else 0.0
  }

  lemma {:induction false} WeightsBound(w: seq<real>, v: seq<real>, n: nat, lo: real, hi: real)
    requires |w| == |v| && n <= |w|
    requires forall m :: 0 <= m < |w| ==> w[m] > 0.0 && lo <= v[m] <= hi
    ensures Sum(w, n) >= 0.0 && (n > 0 ==> Sum(w, n) > 0.0)
    ensures lo * Sum(w, n) <= Dot(w, v, n) <= hi * Sum(w, n)
  {
    if n > 0 {
      WeightsBound(w, v, n - 1, lo, hi);
      Scaled(w[n - 1], v[n - 1] - lo);
      Scaled(w[n - 1], hi - v[n - 1]);
      DistributeBounds(lo, hi, Sum(w, n - 1), w[n - 1], v[n - 1]);
    }
  }

  lemma DistributeBounds(lo: real, hi: real, sum: real, w: real, lad: real)
    ensures lo * (sum + w) == lo * sum + w * lo && hi * (sum + w) == hi * sum + w * hi
    ensures w * (lad - lo) == w * lad - w * lo && w * (hi - lad) == w * hi - w * lad
  {
  }

  lemma QuotientBounds(lo: real, hi: real, num: real, den: real)
    requires den > 0.0 && lo * den <= num <= hi * den
    ensures lo <= num / den <= hi
  {
    var q := num / den;
    assert q * den == num;
    Scaled(den, q - lo);
    Scaled(den, hi - q);
  }

  lemma MeanIsBetween(w: seq<real>, v: seq<real>, lo: real, hi: real)
    requires |w| == |v| > 0
    requires forall m :: 0 <= m < |w| ==> w[m] > 0.0 && lo <= v[m] <= hi
    ensures lo <= WeightedMean(w, v) <= hi
  {
    WeightsBound(w, v, |w|, lo, hi);
    QuotientBounds(lo, hi, Dot(w, v, |w|), Sum(w, |w|));
  }

  /** When either interpolation branch fires the result is a mean of the neighbours'
      densities and lies between any bounds on these; otherwise it is zero. */
  lemma LadIsMean(cell: Cell, samples: seq<Sample>, idx: seq<nat>, o: Settings, lo: real, hi: real)
    requires Usable(o) && Lists(samples, idx) && |idx| > 0
    requires forall m :: 0 <= m < |idx| ==> lo <= samples[idx[m]].lad <= hi
    ensures if OnSample(cell, samples, idx, o) || UnderCanopy(cell, samples, idx)
            then lo <= LadAt(cell, samples, idx, o) <= hi
            else LadAt(cell, samples, idx, o) == 0.0
  {
    MeanIsBetween(Weights(cell, samples, idx, o), Lads(samples, idx), lo, hi);
  }

  // ------------------------------------- what the mean is, without its weights

  /** How hard values pull on `l`, each by its distance `rho` and the closer the harder. */
  function Pull(v: seq<real>, rho: seq<real>, l: real, n: nat): real
    requires n <= |v| && n <= |rho| && forall m :: 0 <= m < |rho| ==> rho[m] > 0.0
  {
    if n == 0 then 0.0 else Pull(v, rho, l, n - 1) + (v[n - 1] - l) / rho[n - 1]
  }

  /** Softened distances: the roots of squared distances plus the square of a length. */
  ghost predicate AreRoots(rho: seq<real>, d: seq<real>, eps2: real) {
    |rho| == |d| && forall m :: 0 <= m < |d| ==> rho[m] > 0.0 && rho[m] * rho[m] == d[m] + eps2
  }

  /** Values at squared distances `d` pull on `l` equally from both sides. */
  ghost predicate Balances(d: seq<real>, v: seq<real>, eps2: real, l: real)
    requires |d| == |v|
  {
    forall rho :: AreRoots(rho, d, eps2) ==> Pull(v, rho, l, |v|) == 0.0
  }

  ghost predicate NotNegative(d: seq<real>) { forall m :: 0 <= m < |d| ==> d[m] >= 0.0 }

  /** The weights at given squared distances. */
  function WeightsAt(d: seq<real>, o: Settings): (w: seq<real>)
    requires Usable(o) && NotNegative(d)
    ensures |w| == |d| && forall m :: 0 <= m < |d| ==> w[m] == Weight(d[m], o)
  {
    seq(|d|, m requires 0 <= m < |d| => Weight(d[m], o))
  }

  lemma RootIsUnique(x: real, y: real)
    requires x > 0.0 && y > 0.0 && x * x == y * y
    ensures x == y
  {
    assert (x - y) * (x + y) == 0.0;
  }

  /** One more value, whose weight is the inverse of its distance. */
  lemma NextPull(dot: real, sum: real, a: real, l: real, rho: real, w: real)
    requires rho > 0.0 && w == 1.0 / rho
    ensures dot - l * sum + (a - l) / rho == dot + w * a - l * (sum + w)
  {
    assert w * rho == 1.0;
    assert (w * a - l * w) * rho == (a - l) * (w * rho);
    assert l * (sum + w) == l * sum + l * w;
  }

  /** Weights that are the inverses of distances. */
  ghost predicate InverseTo(w: seq<real>, rho: seq<real>) {
    |w| == |rho| && forall m :: 0 <= m < |rho| ==> rho[m] > 0.0 && w[m] == 1.0 / rho[m]
  }

  lemma {:induction false} PullByWeights(w: seq<real>, v: seq<real>, rho: seq<real>, l: real, n: nat)
    requires InverseTo(w, rho) && n <= |v| == |w|
    ensures Pull(v, rho, l, n) == Dot(w, v, n) - l * Sum(w, n)
  {
    if n > 0 {
      PullByWeights(w, v, rho, l, n - 1);
      NextPull(Dot(w, v, n - 1), Sum(w, n - 1), v[n - 1], l, rho[n - 1], w[n - 1]);
    }
  }

  lemma WeightsInvert(d: seq<real>, rho: seq<real>, o: Settings)
    requires Usable(o) && NotNegative(d) && AreRoots(rho, d, o.eps2)
    ensures InverseTo(WeightsAt(d, o), rho)
  {
    forall m | 0 <= m < |d|
      ensures WeightsAt(d, o)[m] == 1.0 / rho[m]
    {
      RootIsUnique(o.root(d[m] + o.eps2), rho[m]);
    }
  }

  function Roots(d: seq<real>, o: Settings): (rho: seq<real>)
    requires Usable(o) && NotNegative(d)
    ensures AreRoots(rho, d, o.eps2)
  {
    seq(|d|, m requires 0 <= m < |d| => o.root(d[m] + o.eps2))
  }

  lemma {:induction false} SumIsPositive(w: seq<real>, n: nat)
    requires 0 < n <= |w| && forall m :: 0 <= m < |w| ==> w[m] > 0.0
    ensures Sum(w, n) > 0.0
  {
    if n > 1 {
      SumIsPositive(w, n - 1);
    }
  }

  lemma QuotientSolves(num: real, den: real, l: real)
    requires den > 0.0
    ensures l == num / den <==> num - l * den == 0.0
  {
    var q := num / den;
    assert q * den == num;
    assert (l - q) * den == l * den - num;
  }

  /** The weighted mean is the one value on which all values pull equally, by the inverse
      of their distances. */
  lemma MeanIffBalances(d: seq<real>, v: seq<real>, o: Settings, l: real)
    requires Usable(o) && NotNegative(d) && |d| == |v| > 0
    ensures l == WeightedMean(WeightsAt(d, o), v) <==> Balances(d, v, o.eps2, l)
  {
    var w := WeightsAt(d, o);
    var num, den := Dot(w, v, |v|), Sum(w, |v|);
    SumIsPositive(w, |v|);
    QuotientSolves(num, den, l);
    PullsAlike(d, v, o, l, num - l * den);
    assert AreRoots(Roots(d, o), d, o.eps2);
  }

  lemma PullsAlike(d: seq<real>, v: seq<real>, o: Settings, l: real, total: real)
    requires Usable(o) && NotNegative(d) && |d| == |v|
    requires total == Dot(WeightsAt(d, o), v, |v|) - l * Sum(WeightsAt(d, o), |v|)
    ensures forall rho :: AreRoots(rho, d, o.eps2) ==> Pull(v, rho, l, |v|) == total
  {
    forall rho | AreRoots(rho, d, o.eps2)
      ensures Pull(v, rho, l, |v|) == total
    {
      WeightsInvert(d, rho, o);
      PullByWeights(WeightsAt(d, o), v, rho, l, |v|);
    }
  }

  /** The density that a cell with neighbours `idx` is to have: that of the sample it is
      on; below the canopy the one that balances the neighbours by inverse distance;
      otherwise none. */
  ghost predicate IsDensity(cell: Cell, samples: seq<Sample>, idx: seq<nat>, o: Settings, lad: real)
    requires Lists(samples, idx)
  {
    if |idx| == 0 then lad == 0.0
    else if OnSample(cell, samples, idx, o) then lad == samples[idx[0]].lad
    else if UnderCanopy(cell, samples, idx) then
      Balances(NeighbourDistances(cell, samples, idx), Lads(samples, idx), o.eps2, lad)
    else lad == 0.0
  }

  function NeighbourDistances(cell: Cell, samples: seq<Sample>, idx: seq<nat>): (d: seq<real>)
    requires Lists(samples, idx)
    ensures |d| == |idx| && forall n :: 0 <= n < |d| ==> d[n] == Distance2(cell, samples[idx[n]])
  {
    seq(|idx|, n requires 0 <= n < |idx| => Distance2(cell, samples[idx[n]]))
  }

  lemma DistancesNotNegative(cell: Cell, samples: seq<Sample>, idx: seq<nat>)
    requires Lists(samples, idx)
    ensures NotNegative(NeighbourDistances(cell, samples, idx))
  {
    forall n | 0 <= n < |idx|
      ensures NeighbourDistances(cell, samples, idx)[n] >= 0.0
    {
      DistanceNotNegative(cell, samples[idx[n]]);
    }
  }

  lemma SameWeights(cell: Cell, samples: seq<Sample>, idx: seq<nat>, o: Settings)
    requires Usable(o) && Lists(samples, idx)
    ensures NotNegative(NeighbourDistances(cell, samples, idx))
    ensures Weights(cell, samples, idx, o) == WeightsAt(NeighbourDistances(cell, samples, idx), o)
  {
    DistancesNotNegative(cell, samples, idx);
  }

  /** The interpolation computes that density, and no other value is it. */
  lemma LadIffDensity(cell: Cell, samples: seq<Sample>, idx: seq<nat>, o: Settings, lad: real)
    requires Usable(o) && Lists(samples, idx)
    ensures lad == LadAt(cell, samples, idx, o) <==> IsDensity(cell, samples, idx, o, lad)
  {
    SameWeights(cell, samples, idx, o);
    if |idx| > 0 {
      MeanIffBalances(NeighbourDistances(cell, samples, idx), Lads(samples, idx), o, lad);
    }
  }

  function Apart(x: real, y: real): real { if x < y then y - x else x - y }

  lemma RootOrder(x: real, y: real)
    requires x > 0.0 && y > 0.0 && x * x < y * y
    ensures x < y
  {
    assert (y - x) * (x + y) > 0.0;
  }

  /** Between two neighbours the density is strictly closer to that of the strictly nearer
      one. */
  lemma NearerCountsMore(cell: Cell, samples: seq<Sample>, idx: seq<nat>, o: Settings, lad: real)
    requires Usable(o) && Lists(samples, idx) && |idx| == 2 && IsDensity(cell, samples, idx, o, lad)
    requires !OnSample(cell, samples, idx, o) && UnderCanopy(cell, samples, idx)
    requires var s, t := samples[idx[0]], samples[idx[1]];
      Distance2(cell, s) < Distance2(cell, t) && s.lad != t.lad
    ensures Apart(lad, samples[idx[0]].lad) < Apart(lad, samples[idx[1]].lad)
  {
    DistancesNotNegative(cell, samples, idx);
    var v, rho := Lads(samples, idx), Roots(NeighbourDistances(cell, samples, idx), o);
    RootOrder(rho[0], rho[1]);
    assert Pull(v, rho, lad, 2) == Pull(v, rho, lad, 1) + (v[1] - lad) / rho[1];
    assert Pull(v, rho, lad, 1) == Pull(v, rho, lad, 0) + (v[0] - lad) / rho[0];
    CloserToNearer(v[0], v[1], lad, rho[0], rho[1]);
  }

  lemma CloserToNearer(a: real, b: real, l: real, x: real, y: real)
    requires 0.0 < x < y && a != b && (a - l) / x + (b - l) / y == 0.0
    ensures Apart(l, a) < Apart(l, b)
  {
    var q := (a - l) / x;
    assert a - l == q * x;
    assert b - l == (b - l) / y * y == -q * y;
    assert q == 0.0 ==> q * x == 0.0 && q * y == 0.0;
    if q > 0.0 {
      assert q * x < q * y;
    } else if q < 0.0 {
      assert -q * x < -q * y;
    }
  }

  method TopOfNeighbours(nz: array<real>, k: nat, ghost samples: seq<Sample>, ghost idx: seq<nat>) returns (top: real)
    requires k <= nz.Length && |idx| <= k && Lists(samples, idx)
    requires forall n :: 0 <= n < k ==> nz[n] == if n < |idx| then samples[idx[n]].z else 0.0
    ensures top == CanopyTop(samples, idx, |idx|)
  {
    top := 0.0;
    for n := 0 to k
      invariant top == CanopyTop(samples, idx, if n < |idx| then n else |idx|)
      invariant top >= 0.0
    {
      top := if top < nz[n] then nz[n] else top;
    }
  }

  method InverseDistance(d2: real, o: Settings) returns (wn: real)
    requires Usable(o) && d2 >= 0.0
    ensures wn == Weight(d2, o)
  {
    assert o.root(d2 + o.eps2) > 0.0;
    wn := 1.0 / o.root(d2 + o.eps2);
  }

  /** The inverse-distance loop; `w` and `v` are the weights and densities that it meets. */
  method MeanOfNeighbours(nd2: array<real>, nlad: array<real>, o: Settings, ghost w: seq<real>, ghost v: seq<real>)
      returns (lad: real)
    requires Usable(o) && nd2.Length == nlad.Length == MAX_NEIGHBORS && |w| == |v| <= o.k
    requires forall n :: 0 <= n < |w| ==> 0.0 <= nd2[n] < o.huge && w[n] == Weight(nd2[n], o) && v[n] == nlad[n]
    requires forall n :: |w| <= n < o.k ==> nd2[n] >= o.huge
    ensures lad == WeightedMean(w, v)
  {
    var sumW, sumLad := 0.0, 0.0;
    for n := 0 to o.k
      invariant sumW == Sum(w, if n < |w| then n else |w|)
      invariant sumLad == Dot(w, v, if n < |w| then n else |w|)
    {
      if nd2[n] >= o.huge {
        continue;
      }
      var wn := InverseDistance(nd2[n], o);
      sumW := sumW + wn;
      sumLad := sumLad + wn * nlad[n];
    }
    lad := if sumW > 0.0 then sumLad / sumW else 0.0;
  }

  /** From the slots: `d` and `v` are the squared distances and the densities in them. */
  method WeighNeighbours(nd2: array<real>, nlad: array<real>, o: Settings, ghost d: seq<real>, ghost v: seq<real>)
      returns (lad: real)
    requires Usable(o) && nd2.Length == nlad.Length == MAX_NEIGHBORS && |d| == |v| <= o.k && NotNegative(d)
    requires forall n :: 0 <= n < |d| ==> d[n] == nd2[n] < o.huge && v[n] == nlad[n]
    requires forall n :: |d| <= n < o.k ==> nd2[n] >= o.huge
    ensures if |d| > 0 then Balances(d, v, o.eps2, lad) else lad == 0.0
  {
    lad := MeanOfNeighbours(nd2, nlad, o, WeightsAt(d, o), v);
    if |d| > 0 {
      MeanIffBalances(d, v, o, lad);
    }
  }

  method InterpolateLad(nd2: array<real>, nlad: array<real>, nz: array<real>, cell: Cell, o: Settings,
                        ghost samples: seq<Sample>, ghost idx: seq<nat>) returns (lad: real)
    requires Usable(o) && nd2.Length == nlad.Length == nz.Length == MAX_NEIGHBORS
    requires Scanned(nd2[..], nlad[..], nz[..], o.k, o.huge, cell, samples, idx)
    ensures Lists(samples, idx) && IsDensity(cell, samples, idx, o, lad)
  {
    var top := TopOfNeighbours(nz, o.k, samples, idx);
    ghost var d, v := NeighbourDistances(cell, samples, idx), Lads(samples, idx);
    ScannedDistances(nd2[..], nlad[..], nz[..], cell, o, samples, idx);
    DistancesNotNegative(cell, samples, idx);
    lad := 0.0;
    if nd2[0] < o.eps2 {
      lad := nlad[0];
    } else if cell.z - 0.5 * cell.dz <= top {
      lad := WeighNeighbours(nd2, nlad, o, d, v);
    }
  }

  lemma ScannedDistances(nd2: seq<real>, nlad: seq<real>, nz: seq<real>, cell: Cell, o: Settings,
                         samples: seq<Sample>, idx: seq<nat>)
    requires Usable(o) && o.k <= |nd2| && o.k <= |nlad| && o.k <= |nz|
    requires Scanned(nd2, nlad, nz, o.k, o.huge, cell, samples, idx)
    ensures var d, v := NeighbourDistances(cell, samples, idx), Lads(samples, idx);
      && (forall n :: 0 <= n < |idx| ==> 0.0 <= d[n] == nd2[n] < o.huge && v[n] == nlad[n])
      && (forall n :: |idx| <= n < o.k ==> nd2[n] == o.huge)
  {
    var d := Distances(cell, samples);
    forall n | 0 <= n < |idx|
      ensures 0.0 <= nd2[n] < o.huge
    {
      assert Candidate(d, o.huge, idx[n]);
      DistanceNotNegative(cell, samples[idx[n]]);
    }
  }

  // ------------------------------------------------------ drag over all forests

  ghost predicate Stored(f: Record, c: Clouds) {
    && f.pointOffset + f.pointCount <= |c.points|
    && f.edgeOffset + f.edgeCount <= |c.edges|
  }

  ghost predicate Covers(f: Record, c: Clouds, p: Point, tol: real)
    requires Stored(f, c)
  {
    forall i :: f.edgeOffset <= i < f.edgeOffset + f.edgeCount ==> WithinTolerance(c.edges[i], p, tol)
  }

  function OwnSamples(f: Record, c: Clouds): seq<Sample>
    requires Stored(f, c)
  {
    c.points[f.pointOffset..f.pointOffset + f.pointCount]
  }

  /** The density a forest contributes to a cell: that of the nearest samples inside
      its hull, none outside. */
  ghost predicate IsContribution(cell: Cell, f: Record, c: Clouds, o: Settings, lad: real)
    requires Usable(o) && Stored(f, c)
  {
    if f.pointCount > 0 && Covers(f, c, Point(cell.x, cell.y), o.tol) then
      IsNearestLad(cell, OwnSamples(f, c), o, lad)
    else lad == 0.0
  }

  ghost predicate IsNearestLad(cell: Cell, samples: seq<Sample>, o: Settings, lad: real)
    requires Usable(o)
  {
    exists idx :: Lists(samples, idx) && KNearest(Distances(cell, samples), o.k, o.huge, idx)
                  && IsDensity(cell, samples, idx, o, lad)
  }

  /** Scan and interpolation for a cell inside a forest's footprint. */
  method NearestLad(cell: Cell, f: Record, c: Clouds, o: Settings) returns (lad: real)
    requires Usable(o) && Stored(f, c)
    ensures IsNearestLad(cell, OwnSamples(f, c), o, lad)
  {
    var nd2, nlad, nz := new real[MAX_NEIGHBORS], new real[MAX_NEIGHBORS], new real[MAX_NEIGHBORS];
    ghost var idx := ScanNearest(cell, c.points, f.pointOffset, f.pointOffset + f.pointCount, o.k, o.huge,
                                 nd2, nlad, nz);
    lad := InterpolateLad(nd2, nlad, nz, cell, o, OwnSamples(f, c), idx);
  }

  method ForestLad(cell: Cell, f: Record, c: Clouds, o: Settings) returns (lad: real)
    requires Usable(o) && Stored(f, c)
    ensures IsContribution(cell, f, c, o, lad)
  {
    var inside := PointInOnHull(f, Point(cell.x, cell.y), c.edges, o.tol);
    if f.pointCount <= 0 || !inside {
      return 0.0;
    }
    lad := NearestLad(cell, f, c, o);
  }

  function Drag(forests: seq<Record>, lads: seq<real>, n: nat): real
    requires n <= |forests| && n <= |lads|
  {
    if n == 0 then 0.0 else
      Drag(forests, lads, n - 1) + (if lads[n - 1] > 0.0 then forests[n - 1].cd * lads[n - 1] else 0.0)
  }

  /** The last forest that contributes owns the cell; -1 if none does. */
  function Owner(forests: seq<Record>, lads: seq<real>, n: nat): int
    requires n <= |forests| && n <= |lads|
  {
    if n == 0 then -1 else if lads[n - 1] > 0.0 then forests[n - 1].id else Owner(forests, lads, n - 1)
  }

  function Centre(e: Extent, i: int): real { e.lo + (i as real + 0.5) * e.dx }

  function CellAt(g: Geometry, c: IntVect): Cell {
    Cell(Centre(g.x, c.i), Centre(g.y, c.j), Centre(g.z, c.k), g.z.dx)
  }

  /** What the kernel adds for a forest at a cell: nothing outside the forest's index
      box, and the forest's contribution inside it. */
  ghost predicate KernelLad(v: IntVect, g: Geometry, f: Record, c: Clouds, o: Settings, lad: real)
    requires Usable(o) && Stored(f, c) && Meshed(g)
  {
    if HoldsCell(f.box, g, v) then IsContribution(CellAt(g, v), f, c, o, lad) else lad == 0.0
  }

  ghost predicate ContributesAt(v: IntVect, g: Geometry, c: Clouds, o: Settings, lads: seq<real>, n: nat)
    requires Usable(o) && Meshed(g) && n < |lads| && n < |c.forests|
  {
    Stored(c.forests[n], c) && KernelLad(v, g, c.forests[n], c, o, lads[n])
  }

  /** The densities that all forests contribute to a cell, in file order. */
  ghost predicate Contributions(v: IntVect, g: Geometry, c: Clouds, o: Settings, lads: seq<real>)
    requires Usable(o) && Meshed(g)
  {
    |lads| == |c.forests| && forall n :: 0 <= n < |lads| ==> ContributesAt(v, g, c, o, lads, n)
  }

  lemma NearestLadIsUnique(cell: Cell, samples: seq<Sample>, o: Settings, lad: real, other: real)
    requires Usable(o) && IsNearestLad(cell, samples, o, lad) && IsNearestLad(cell, samples, o, other)
    ensures lad == other
  {
    var idx :| Lists(samples, idx) && KNearest(Distances(cell, samples), o.k, o.huge, idx)
               && IsDensity(cell, samples, idx, o, lad);
    LadIffDensity(cell, samples, idx, o, lad);
    var idy :| Lists(samples, idy) && KNearest(Distances(cell, samples), o.k, o.huge, idy)
               && IsDensity(cell, samples, idy, o, other);
    LadIffDensity(cell, samples, idy, o, other);
    KNearestIsUnique(Distances(cell, samples), o.k, o.huge, idx, idy);
  }

  /** Clouds and cell determine the contributions. */
  lemma ContributionsAreUnique(v: IntVect, g: Geometry, c: Clouds, o: Settings, lads: seq<real>, others: seq<real>)
    requires Usable(o) && Meshed(g) && Contributions(v, g, c, o, lads) && Contributions(v, g, c, o, others)
    ensures lads == others
  {
    forall n | 0 <= n < |lads|
      ensures lads[n] == others[n]
    {
      assert ContributesAt(v, g, c, o, lads, n) && ContributesAt(v, g, c, o, others, n);
      if HoldsCell(c.forests[n].box, g, v) {
        ContributionIsUnique(CellAt(g, v), c.forests[n], c, o, lads[n], others[n]);
      }
    }
  }

  lemma ContributionIsUnique(cell: Cell, f: Record, c: Clouds, o: Settings, lad: real, other: real)
    requires Usable(o) && Stored(f, c) && IsContribution(cell, f, c, o, lad) && IsContribution(cell, f, c, o, other)
    ensures lad == other
  {
    if f.pointCount > 0 && Covers(f, c, Point(cell.x, cell.y), o.tol) {
      NearestLadIsUnique(cell, OwnSamples(f, c), o, lad, other);
    }
  }

  /** Drag and owner of one cell after all forests have been visited whose index box
      holds it: those of the contributions, which exist and are the only ones. */
  method CellDrag(v: IntVect, g: Geometry, c: Clouds, o: Settings) returns (id: int, drag: real)
    requires Usable(o) && Meshed(g) && forall n :: 0 <= n < |c.forests| ==> Stored(c.forests[n], c)
    ensures exists lads :: Contributions(v, g, c, o, lads)
    ensures forall lads :: Contributions(v, g, c, o, lads) ==>
              drag == Drag(c.forests, lads, |lads|) && id == Owner(c.forests, lads, |lads|)
  {
    id, drag := -1, 0.0;
    ghost var seen := [];
    for n := 0 to |c.forests|
      invariant |seen| == n
      invariant forall m :: 0 <= m < n ==> ContributesAt(v, g, c, o, seen, m)
      invariant drag == Drag(c.forests, seen, n) && id == Owner(c.forests, seen, n)
    {
      var lad := 0.0;
      if HoldsCell(c.forests[n].box, g, v) {
        lad := ForestLad(CellAt(g, v), c.forests[n], c, o);
        if lad > 0.0 {
          id := c.forests[n].id;
          drag := drag + c.forests[n].cd * lad;
        }
      }
      VisitedSoFar(c.forests, seen, lad, n);
      AppendContribution(v, g, c, o, seen, lad);
      seen := seen + [lad];
    }
    assert Contributions(v, g, c, o, seen);
    forall lads | Contributions(v, g, c, o, lads)
      ensures lads == seen
    {
      ContributionsAreUnique(v, g, c, o, lads, seen);
    }
  }

  lemma AppendContribution(v: IntVect, g: Geometry, c: Clouds, o: Settings, lads: seq<real>, lad: real)
    requires Usable(o) && Meshed(g) && |lads| < |c.forests| && Stored(c.forests[|lads|], c)
    requires forall m :: 0 <= m < |lads| ==> ContributesAt(v, g, c, o, lads, m)
    requires KernelLad(v, g, c.forests[|lads|], c, o, lad)
    ensures forall m :: 0 <= m < |lads| + 1 ==> ContributesAt(v, g, c, o, lads + [lad], m)
  {
    forall m | 0 <= m < |lads| + 1
      ensures ContributesAt(v, g, c, o, lads + [lad], m)
    {
      assert m < |lads| ==> ContributesAt(v, g, c, o, lads, m);
    }
  }

  lemma {:induction false} VisitedSoFar(forests: seq<Record>, lads: seq<real>, lad: real, n: nat)
    requires n <= |forests| && n <= |lads|
    ensures Drag(forests, lads + [lad], n) == Drag(forests, lads, n)
    ensures Owner(forests, lads + [lad], n) == Owner(forests, lads, n)
  {
    if n > 0 {
      VisitedSoFar(forests, lads, lad, n - 1);
    }
  }

  lemma NearestLadBounds(cell: Cell, samples: seq<Sample>, o: Settings, lad: real, hi: real)
    requires Usable(o) && IsNearestLad(cell, samples, o, lad)
    requires hi >= 0.0 && forall s :: s in samples ==> 0.0 <= s.lad <= hi
    ensures 0.0 <= lad <= hi
  {
    var idx :| Lists(samples, idx) && KNearest(Distances(cell, samples), o.k, o.huge, idx)
               && IsDensity(cell, samples, idx, o, lad);
    LadIffDensity(cell, samples, idx, o, lad);
    if |idx| > 0 {
      LadIsMean(cell, samples, idx, o, 0.0, hi);
    }
  }

  lemma ContributionBounds(cell: Cell, f: Record, c: Clouds, o: Settings, lad: real, hi: real)
    requires Usable(o) && Stored(f, c) && IsContribution(cell, f, c, o, lad)
    requires hi >= 0.0 && forall s :: s in OwnSamples(f, c) ==> 0.0 <= s.lad <= hi
    ensures 0.0 <= lad <= hi
    ensures !Covers(f, c, Point(cell.x, cell.y), o.tol) ==> lad == 0.0
  {
    if f.pointCount > 0 && Covers(f, c, Point(cell.x, cell.y), o.tol) {
      NearestLadBounds(cell, OwnSamples(f, c), o, lad, hi);
    }
  }

  function TotalCd(forests: seq<Record>, n: nat): real
    requires n <= |forests|
  {
    if n == 0 then 0.0 else TotalCd(forests, n - 1) + forests[n - 1].cd
  }

  lemma {:induction false} DragWithin(forests: seq<Record>, lads: seq<real>, hi: real, n: nat)
    requires |lads| == |forests| && n <= |lads|
    requires forall m :: 0 <= m < |lads| ==> 0.0 <= lads[m] <= hi && forests[m].cd >= 0.0
    ensures 0.0 <= Drag(forests, lads, n) <= hi * TotalCd(forests, n)
  {
    if n > 0 {
      DragWithin(forests, lads, hi, n - 1);
      var cd, lad := forests[n - 1].cd, lads[n - 1];
      Scaled(cd, lad);
      Scaled(cd, hi - lad);
      DistributeBounds(hi, hi, TotalCd(forests, n - 1), cd, lad);
    }
  }

  lemma {:induction false} NoDrag(forests: seq<Record>, lads: seq<real>, n: nat)
    requires |lads| == |forests| && n <= |lads|
    requires forall m :: 0 <= m < n ==> lads[m] == 0.0
    ensures Drag(forests, lads, n) == 0.0 && Owner(forests, lads, n) == -1
  {
    if n > 0 {
      NoDrag(forests, lads, n - 1);
    }
  }

  /** The drag is made of shares: without its density a forest takes away its coefficient
      times that density, and nothing else changes. */
  lemma {:induction false} DragWithout(forests: seq<Record>, lads: seq<real>, m: nat, n: nat)
    requires |lads| == |forests| && m < n <= |lads| && lads[m] >= 0.0
    ensures Drag(forests, lads, n) == Drag(forests, lads[m := 0.0], n) + forests[m].cd * lads[m]
  {
    if m == n - 1 {
      SameBefore(forests, lads, m);
    } else {
      DragWithout(forests, lads, m, n - 1);
    }
  }

  lemma {:induction false} SameBeforeUpTo(forests: seq<Record>, lads: seq<real>, m: nat, n: nat)
    requires |lads| == |forests| && n <= m < |lads|
    ensures Drag(forests, lads[m := 0.0], n) == Drag(forests, lads, n)
  {
    if n > 0 {
      SameBeforeUpTo(forests, lads, m, n - 1);
    }
  }

  lemma SameBefore(forests: seq<Record>, lads: seq<real>, m: nat)
    requires |lads| == |forests| && m < |lads| && lads[m] >= 0.0
    ensures Drag(forests, lads, m + 1) == Drag(forests, lads[m := 0.0], m + 1) + forests[m].cd * lads[m]
  {
    SameBeforeUpTo(forests, lads, m, m);
  }

  /** The owner is the last forest with a density; without any there is none. */
  lemma {:induction false} OwnerIsLast(forests: seq<Record>, lads: seq<real>, m: nat, n: nat)
    requires |lads| == |forests| && m < n <= |lads|
    requires lads[m] > 0.0 && forall l :: m < l < n ==> lads[l] <= 0.0
    ensures Owner(forests, lads, n) == forests[m].id
  {
    if m < n - 1 {
      OwnerIsLast(forests, lads, m, n - 1);
    }
  }

  /** Of every forest the cell is outside the hull or the index box. */
  ghost predicate InTheOpen(v: IntVect, g: Geometry, c: Clouds, o: Settings)
    requires Meshed(g)
  {
    forall m :: 0 <= m < |c.forests| ==> ClearOf(v, g, c.forests[m], c, o)
  }

  ghost predicate ClearOf(v: IntVect, g: Geometry, f: Record, c: Clouds, o: Settings)
    requires Meshed(g)
  {
    Stored(f, c) && (HoldsCell(f.box, g, v) ==> !Covers(f, c, Point(Centre(g.x, v.i), Centre(g.y, v.j)), o.tol))
  }

  lemma KernelLadBounds(v: IntVect, g: Geometry, f: Record, c: Clouds, o: Settings, lad: real, hi: real)
    requires Usable(o) && Meshed(g) && Stored(f, c) && KernelLad(v, g, f, c, o, lad)
    requires hi >= 0.0 && forall s :: s in c.points ==> 0.0 <= s.lad <= hi
    ensures 0.0 <= lad <= hi && (ClearOf(v, g, f, c, o) ==> lad == 0.0)
  {
    if HoldsCell(f.box, g, v) {
      assert forall s :: s in OwnSamples(f, c) ==> s in c.points;
      ContributionBounds(CellAt(g, v), f, c, o, lad, hi);
    }
  }

  /** Drag never exceeds the largest density times the sum of the coefficients, and
      a cell outside every footprint has none and no owner. */
  lemma DragBounds(v: IntVect, g: Geometry, c: Clouds, o: Settings, lads: seq<real>, hi: real)
    requires Usable(o) && Meshed(g) && Contributions(v, g, c, o, lads) && hi >= 0.0
    requires forall s :: s in c.points ==> 0.0 <= s.lad <= hi
    requires forall m :: 0 <= m < |lads| ==> c.forests[m].cd >= 0.0
    ensures 0.0 <= Drag(c.forests, lads, |lads|) <= hi * TotalCd(c.forests, |lads|)
    ensures InTheOpen(v, g, c, o) ==> Drag(c.forests, lads, |lads|) == 0.0 && Owner(c.forests, lads, |lads|) == -1
  {
    forall m | 0 <= m < |lads|
      ensures 0.0 <= lads[m] <= hi && (InTheOpen(v, g, c, o) ==> lads[m] == 0.0)
    {
      assert ContributesAt(v, g, c, o, lads, m);
      KernelLadBounds(v, g, c.forests[m], c, o, lads[m], hi);
    }
    DragWithin(c.forests, lads, hi, |lads|);
    if InTheOpen(v, g, c, o) {
      NoDrag(c.forests, lads, |lads|);
    }
  }
}
