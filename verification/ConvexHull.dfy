/** The monotone-chain convex hull of a point cloud: the sort, the two popping
    loops that build the lower and upper chains, and their concatenation. */
module ConvexHull {
  import opened Plane

  // ---------------------------------------------------------------- sorting

  /** The comparator handed to the sort. */
  predicate SortsBefore(a: Point, b: Point, tol: real) {
    a.x < b.x || (Abs(a.x - b.x) < tol && a.y < b.y)
  }

  /** The tolerance separates the data from rounding noise: abscissae that differ
      do so by at least `tol`, and a triple that turns left does so by more than
      `tol`. */
  ghost predicate Resolved(points: seq<Point>, tol: real) {
    && tol > 0.0
    && (forall a, b :: a in points && b in points ==> a.x == b.x || Abs(a.x - b.x) >= tol)
    && (forall o, a, b :: o in points && a in points && b in points ==>
         Cross(o, a, b) <= 0.0 || Cross(o, a, b) > tol)
  }

  predicate OnGrid(p: Point) { p.x == p.x.Floor as real && p.y == p.y.Floor as real }

  lemma WedgeOnGrid(a: int, b: int, c: int, d: int, u: Point, v: Point)
    requires u == Point(a as real, b as real) && v == Point(c as real, d as real)
    ensures Wedge(u, v) <= 0.0 || Wedge(u, v) >= 1.0
  {
    assert u.x * v.y == (a * d) as real && u.y * v.x == (b * c) as real;
    assert Wedge(u, v) == (a * d - b * c) as real;
  }

  lemma GridTripleResolved(o: Point, a: Point, b: Point, tol: real)
    requires OnGrid(o) && OnGrid(a) && OnGrid(b) && tol < 1.0
    ensures Cross(o, a, b) <= 0.0 || Cross(o, a, b) > tol
  {
    CrossIsWedge(o, a, b);
    WedgeOnGrid(a.x.Floor - o.x.Floor, a.y.Floor - o.y.Floor, b.x.Floor - o.x.Floor, b.y.Floor - o.y.Floor,
                Sub(a, o), Sub(b, o));
  }

  lemma WholeNumbersApart(m: int, n: int, x: real, y: real, tol: real)
    requires x == m as real && y == n as real && tol < 1.0
    ensures m == n || Abs(x - y) >= tol
  {
    assert m < n ==> x + 1.0 <= y;
    assert n < m ==> y + 1.0 <= x;
  }

  lemma GridPairResolved(a: Point, b: Point, tol: real)
    requires OnGrid(a) && OnGrid(b) && tol < 1.0
    ensures a.x == b.x || Abs(a.x - b.x) >= tol
  {
    WholeNumbersApart(a.x.Floor, b.x.Floor, a.x, b.x, tol);
  }

  /** Points with integer coordinates are resolved by every tolerance below one. */
  lemma GridPointsResolved(points: seq<Point>, tol: real)
    requires 0.0 < tol < 1.0 && forall p :: p in points ==> OnGrid(p)
    ensures Resolved(points, tol)
  {
    forall a, b | a in points && b in points
      ensures a.x == b.x || Abs(a.x - b.x) >= tol
    {
      GridPairResolved(a, b, tol);
    }
    forall o, a, b | o in points && a in points && b in points
      ensures Cross(o, a, b) <= 0.0 || Cross(o, a, b) > tol
    {
      GridTripleResolved(o, a, b, tol);
    }
  }

  ghost predicate Ordered(s: seq<Point>, rev: bool) {
    forall i, j :: 0 <= i <= j < |s| ==> Before(s[i], s[j], rev)
  }

  lemma MultisetIn(s: seq<Point>, t: seq<Point>)
    requires multiset(s) == multiset(t)
    ensures forall p :: p in s <==> p in t
  {
    assert forall p :: p in s <==> p in multiset(s);
    assert forall p :: p in t <==> p in multiset(t);
  }

  lemma SortsBeforeIsLexicographic(points: seq<Point>, tol: real, a: Point, b: Point)
    requires Resolved(points, tol) && a in points && b in points
    ensures SortsBefore(a, b, tol) <==> LexLess(a, b)
  {
  }

  method FindSlot(s: seq<Point>, p: Point, tol: real) returns (at: nat)
    requires Ordered(s, false) && Resolved(s + [p], tol)
    ensures at <= |s|
    ensures forall i :: 0 <= i < at ==> Before(s[i], p, false)
    ensures forall i :: at <= i < |s| ==> Before(p, s[i], false)
  {
    at := |s|;
    while at > 0 && SortsBefore(p, s[at - 1], tol)
      invariant at <= |s|
      invariant forall i :: at <= i < |s| ==> Before(p, s[i], false)
    {
      at := at - 1;
      SortsBeforeIsLexicographic(s + [p], tol, p, s[at]);
    }
    if at > 0 {
      SortsBeforeIsLexicographic(s + [p], tol, p, s[at - 1]);
      assert forall i :: 0 <= i < at ==> Before(s[i], s[at - 1], false);
    }
  }

  lemma InsertKeepsOrder(s: seq<Point>, p: Point, at: nat)
    requires Ordered(s, false) && at <= |s|
    requires forall i :: 0 <= i < at ==> Before(s[i], p, false)
    requires forall i :: at <= i < |s| ==> Before(p, s[i], false)
    ensures Ordered(s[..at] + [p] + s[at..], false)
  {
    var r := s[..at] + [p] + s[at..];
    forall i, j | 0 <= i <= j < |r|
      ensures Before(r[i], r[j], false)
    {
      var m, n := if i < at then i else i - 1, if j < at then j else j - 1;
      if i != at && j != at {
        assert r[i] == s[m] && r[j] == s[n] && Before(s[m], s[n], false);
      }
    }
  }

  lemma InsertAdds(s: seq<Point>, p: Point, at: nat)
    requires at <= |s|
    ensures multiset(s[..at] + [p] + s[at..]) == multiset(s) + multiset{p}
  {
    assert s == s[..at] + s[at..];
  }

  /** Stands for the library sort: an insertion sort under the same comparator. */
  method SortPoints(points: seq<Point>, tol: real) returns (s: seq<Point>)
    requires Resolved(points, tol)
    ensures multiset(s) == multiset(points)
    ensures Ordered(s, false)
  {
    s := [];
    for k := 0 to |points|
      invariant multiset(s) == multiset(points[..k])
      invariant Ordered(s, false)
    {
      MultisetIn(s, points[..k]);
      assert forall q :: q in s + [points[k]] ==> q in points[..k] || q == points[k];
      var at := FindSlot(s, points[k], tol);
      InsertKeepsOrder(s, points[k], at);
      InsertAdds(s, points[k], at);
      assert points[..k + 1] == points[..k] + [points[k]];
      s := s[..at] + [points[k]] + s[at..];
    }
    assert points[..|points|] == points;
  }

  // ------------------------------------------------------- one monotone chain

  /** `c` runs through some of `pts` from the first to the last, always turning
      left, and leaves none of `pts` on the right of any of its edges. */
  ghost predicate IsChain(pts: seq<Point>, c: seq<Point>, rev: bool) {
    && |pts| >= 1 && |c| >= 1
    && c[0] == pts[0] && c[|c| - 1] == pts[|pts| - 1]
    && Supports(pts, c, rev)
  }

  ghost predicate Supports(pts: seq<Point>, c: seq<Point>, rev: bool) {
    && (forall v :: v in c ==> v in pts)
    && (forall i :: 0 <= i < |c| - 1 ==> Before(c[i], c[i + 1], rev))
    && TurnsLeft(c) && AllOnLeft(pts, c)
  }

  ghost predicate TurnsLeft(c: seq<Point>) {
    forall i :: 0 <= i < |c| - 2 ==> Cross(c[i], c[i + 1], c[i + 2]) > 0.0
  }

  ghost predicate AllOnLeft(pts: seq<Point>, c: seq<Point>) {
    forall i, q :: 0 <= i < |c| - 1 && q in pts ==> Cross(c[i], c[i + 1], q) >= 0.0
  }

  lemma EdgeOnLeft(pts: seq<Point>, c: seq<Point>, i: nat, q: Point)
    requires AllOnLeft(pts, c) && i < |c| - 1 && q in pts
    ensures Cross(c[i], c[i + 1], q) >= 0.0
  {
  }

  /** The chain while points are popped to make room for `p`: what was seen
      beyond its end is on the left of the edge that `p` would add. */
  ghost predicate MakesRoom(seen: seq<Point>, c: seq<Point>, p: Point, rev: bool) {
    && |seen| >= 1 && |c| >= 1 && c[0] == seen[0]
    && Supports(seen, c, rev)
    && (forall q :: q in seen ==> Before(q, p, rev))
    && (forall q :: q in seen && Before(c[|c| - 1], q, rev) ==> Cross(c[|c| - 1], p, q) >= 0.0)
  }

  lemma PoppedEdge(a: Point, b: Point, p: Point, q: Point, rev: bool)
    requires Before(a, b, rev) && Before(b, p, rev) && Before(a, q, rev)
    requires Cross(a, b, p) <= 0.0 <= Cross(a, b, q)
    requires Before(b, q, rev) ==> Cross(b, p, q) >= 0.0
    ensures Cross(a, p, q) >= 0.0
  {
    if Before(b, q, rev) {
      FourPoints(a, b, p, q);
    } else if a == b {
    } else {
      var u, r, v := Sub(b, a), Sub(q, a), Sub(p, a);
      BeforeIsWeakly(a, b, rev);
      BeforeIsWeakly(a, q, rev);
      BeforeIsWeakly(a, p, rev);
      CrossIsWedge(a, b, p);
      WedgeAntisymmetric(v, u);
      CrossIsWedge(a, b, q);
      CrossIsWedge(a, p, q);
      WedgeTransitive(v, u, r, rev);
    }
  }

  lemma PushedEdge(r: Point, t: Point, p: Point, q: Point, rev: bool)
    requires Before(r, t, rev) && Before(t, p, rev) && Before(q, t, rev)
    requires Cross(r, t, p) > 0.0 && Cross(r, t, q) >= 0.0
    ensures Cross(t, p, q) >= 0.0
  {
    var z, u, w := Sub(t, q), Sub(t, r), Sub(p, t);
    BeforeIsWeakly(q, t, rev);
    BeforeIsWeakly(r, t, rev);
    BeforeIsWeakly(t, p, rev);
    CrossIsWedge(r, t, q);
    CrossIsWedge(r, t, p);
    CrossIsWedge(t, p, q);
    WedgeTransitive(z, u, w, rev);
  }

  lemma EarlierEdge(a: Point, b: Point, c: Point, p: Point, rev: bool)
    requires Before(a, b, rev) && Before(b, c, rev) && Before(c, p, rev)
    requires Cross(a, b, c) > 0.0 && Cross(b, c, p) > 0.0
    ensures Cross(a, b, p) > 0.0
  {
    var u, v, w := Sub(b, a), Sub(c, b), Sub(p, b);
    BeforeIsWeakly(a, b, rev);
    BeforeIsWeakly(b, c, rev);
    BeforeIsWeakly(b, p, rev);
    CrossIsWedge(a, b, c);
    CrossIsWedge(b, c, p);
    CrossIsWedge(a, b, p);
    WedgeTransitive(u, v, w, rev);
  }

  /** A point ahead of the chain and left of its last edge is left of every edge. */
  lemma {:induction false} LeftOfWholeChain(seen: seq<Point>, c: seq<Point>, p: Point, rev: bool, i: nat)
    requires Supports(seen, c, rev) && i < |c| - 1
    requires forall q :: q in seen ==> Before(q, p, rev)
    requires Cross(c[|c| - 2], c[|c| - 1], p) > 0.0
    ensures Cross(c[i], c[i + 1], p) > 0.0
    decreases |c| - i
  {
    if i < |c| - 2 {
      LeftOfWholeChain(seen, c, p, rev, i + 1);
      assert c[i + 2] in c;
      EarlierEdge(c[i], c[i + 1], c[i + 2], p, rev);
    }
  }

  lemma PopSupports(seen: seq<Point>, c: seq<Point>, rev: bool)
    requires Supports(seen, c, rev) && |c| >= 1
    ensures Supports(seen, c[..|c| - 1], rev)
  {
    var c' := c[..|c| - 1];
    forall i, q | 0 <= i < |c'| - 1 && q in seen
      ensures Cross(c'[i], c'[i + 1], q) >= 0.0
    {
      EdgeOnLeft(seen, c, i, q);
    }
    forall i | 0 <= i < |c'| - 2
      ensures Cross(c'[i], c'[i + 1], c'[i + 2]) > 0.0
    {
      assert Cross(c[i], c[i + 1], c[i + 2]) > 0.0;
    }
  }

  lemma PopMakesRoom(seen: seq<Point>, c: seq<Point>, p: Point, rev: bool)
    requires MakesRoom(seen, c, p, rev) && |c| >= 2
    requires Cross(c[|c| - 2], c[|c| - 1], p) <= 0.0
    ensures MakesRoom(seen, c[..|c| - 1], p, rev)
  {
    var a, b := c[|c| - 2], c[|c| - 1];
    assert a in c && b in c;
    PopSupports(seen, c, rev);
    forall q | q in seen && Before(a, q, rev)
      ensures Cross(a, p, q) >= 0.0
    {
      EdgeOnLeft(seen, c, |c| - 2, q);
      PoppedEdge(a, b, p, q, rev);
    }
  }

  lemma PushedPointSeen(seen: seq<Point>, c: seq<Point>, p: Point, rev: bool, i: nat)
    requires MakesRoom(seen, c, p, rev) && i < |c|
    requires |c| >= 2 ==> Cross(c[|c| - 2], c[|c| - 1], p) > 0.0
    ensures Cross(c[i], (c + [p])[i + 1], p) >= 0.0
  {
    if i < |c| - 1 {
      LeftOfWholeChain(seen, c, p, rev, i);
    }
  }

  lemma FirstComesFirst(seen: seq<Point>, q: Point, rev: bool)
    requires Ordered(seen, rev) && q in seen
    ensures Before(seen[0], q, rev)
  {
    var n :| 0 <= n < |seen| && seen[n] == q;
    assert Before(seen[0], seen[n], rev);
  }

  lemma PushedEdgeSupports(seen: seq<Point>, c: seq<Point>, p: Point, rev: bool, q: Point)
    requires MakesRoom(seen, c, p, rev) && Ordered(seen, rev) && q in seen
    requires |c| >= 2 ==> Cross(c[|c| - 2], c[|c| - 1], p) > 0.0
    ensures Cross(c[|c| - 1], p, q) >= 0.0
  {
    var t := c[|c| - 1];
    assert t in c;
    FirstComesFirst(seen, q, rev);
    if !Before(t, q, rev) && |c| >= 2 {
      assert c[|c| - 2] in c;
      PushedEdge(c[|c| - 2], t, p, q, rev);
    }
  }

  lemma PushTurnsLeft(seen: seq<Point>, c: seq<Point>, p: Point, rev: bool)
    requires MakesRoom(seen, c, p, rev)
    requires |c| >= 2 ==> Cross(c[|c| - 2], c[|c| - 1], p) > 0.0
    ensures TurnsLeft(c + [p])
  {
    var c' := c + [p];
    forall i | 0 <= i < |c'| - 2
      ensures Cross(c'[i], c'[i + 1], c'[i + 2]) > 0.0
    {
      if i < |c| - 2 {
        assert Cross(c[i], c[i + 1], c[i + 2]) > 0.0;
      }
    }
  }

  lemma PushHasAllOnLeft(seen: seq<Point>, c: seq<Point>, p: Point, rev: bool)
    requires MakesRoom(seen, c, p, rev) && Ordered(seen, rev)
    requires |c| >= 2 ==> Cross(c[|c| - 2], c[|c| - 1], p) > 0.0
    ensures AllOnLeft(seen + [p], c + [p])
  {
    var c' := c + [p];
    forall i, q | 0 <= i < |c'| - 1 && q in seen + [p]
      ensures Cross(c'[i], c'[i + 1], q) >= 0.0
    {
      if q == p {
        PushedPointSeen(seen, c, p, rev, i);
      } else if i == |c| - 1 {
        PushedEdgeSupports(seen, c, p, rev, q);
      } else {
        assert Cross(c[i], c[i + 1], q) >= 0.0;
      }
    }
  }

  lemma PushExtends(seen: seq<Point>, c: seq<Point>, p: Point, rev: bool)
    requires MakesRoom(seen, c, p, rev) && Ordered(seen, rev)
    requires |c| >= 2 ==> Cross(c[|c| - 2], c[|c| - 1], p) > 0.0
    ensures IsChain(seen + [p], c + [p], rev)
  {
    assert c[|c| - 1] in c;
    PushTurnsLeft(seen, c, p, rev);
    PushHasAllOnLeft(seen, c, p, rev);
  }

  lemma ChainMakesRoom(seen: seq<Point>, c: seq<Point>, p: Point, rev: bool)
    requires IsChain(seen, c, rev) && Ordered(seen + [p], rev)
    ensures MakesRoom(seen, c, p, rev)
  {
    forall q | q in seen
      ensures Before(q, p, rev) && Before(q, c[|c| - 1], rev)
    {
      var n :| 0 <= n < |seen| && seen[n] == q;
      var s := seen + [p];
      assert s[n] == q && Before(s[n], s[|seen|], rev) && Before(s[n], s[|seen| - 1], rev);
    }
  }

  /** One trip of the outer loop: pop while the last turn is not to the left, push. */
  method AddPoint(ghost seen: seq<Point>, c: seq<Point>, p: Point, tol: real, ghost rev: bool)
      returns (c': seq<Point>)
    requires IsChain(seen, c, rev) && Ordered(seen + [p], rev) && Resolved(seen + [p], tol)
    ensures IsChain(seen + [p], c', rev) && |c'| >= 2
  {
    ChainMakesRoom(seen, c, p, rev);
    c' := c;
    while |c'| >= 2 && Cross(c'[|c'| - 2], c'[|c'| - 1], p) <= tol
      invariant MakesRoom(seen, c', p, rev)
    {
      assert c'[|c'| - 2] in c' && c'[|c'| - 1] in c';
      PopMakesRoom(seen, c', p, rev);
      c' := c'[..|c'| - 1];
    }
    assert forall i, j :: 0 <= i <= j < |seen| ==> (seen + [p])[i] == seen[i] && (seen + [p])[j] == seen[j];
    PushExtends(seen, c', p, rev);
    c' := c' + [p];
  }

  lemma PrefixKeepsOrder(pts: seq<Point>, tol: real, rev: bool, k: nat)
    requires k <= |pts| && Ordered(pts, rev) && Resolved(pts, tol)
    ensures Ordered(pts[..k], rev) && Resolved(pts[..k], tol)
  {
    assert forall q :: q in pts[..k] ==> q in pts;
  }

  /** One popping loop; it is run over the sorted points and over their reverse. */
  method BuildChain(pts: seq<Point>, tol: real, ghost rev: bool) returns (c: seq<Point>)
    requires |pts| >= 2 && Ordered(pts, rev) && Resolved(pts, tol)
    ensures IsChain(pts, c, rev) && |c| >= 2
  {
    c := [pts[0]];
    for k := 1 to |pts|
      invariant IsChain(pts[..k], c, rev) && (k >= 2 ==> |c| >= 2)
    {
      assert pts[..k + 1] == pts[..k] + [pts[k]];
      PrefixKeepsOrder(pts, tol, rev, k + 1);
      c := AddPoint(pts[..k], c, pts[k], tol, rev);
    }
    assert pts[..|pts|] == pts;
  }

  // ------------------------------------------------- convexity across a chain

  lemma EdgePointsForward(pts: seq<Point>, c: seq<Point>, rev: bool, i: nat)
    requires IsChain(pts, c, rev) && |c| >= 3 && i < |c| - 1
    ensures Forward(Sub(c[i + 1], c[i]), rev)
  {
    if i > 0 {
      CrossOfRepeated(c[i - 1], c[i]);
    } else {
      CrossOfRepeated(c[i], c[i + 2]);
    }
    BeforeIsWeakly(c[i], c[i + 1], rev);
  }

  lemma {:induction false} EdgesTurn(pts: seq<Point>, c: seq<Point>, rev: bool, i: nat, j: nat)
    requires IsChain(pts, c, rev) && i < j < |c| - 1
    ensures Wedge(Sub(c[i + 1], c[i]), Sub(c[j + 1], c[j])) > 0.0
    decreases j - i
  {
    if j == i + 1 {
      CrossIsWedge(c[i], c[j], c[j + 1]);
      assert Cross(c[i], c[i + 1], c[i + 2]) > 0.0;
    } else {
      EdgesTurn(pts, c, rev, i, i + 1);
      EdgesTurn(pts, c, rev, i + 1, j);
      EdgePointsForward(pts, c, rev, i);
      EdgePointsForward(pts, c, rev, i + 1);
      EdgePointsForward(pts, c, rev, j);
      WedgeTransitive(Sub(c[i + 1], c[i]), Sub(c[i + 2], c[i + 1]), Sub(c[j + 1], c[j]), rev);
    }
  }

  lemma WedgeSplitsRight(u: Point, a: Point, b: Point, c: Point)
    ensures Wedge(u, Sub(c, a)) == Wedge(u, Sub(b, a)) + Wedge(u, Sub(c, b))
  {
  }

  lemma WedgeSplitsLeft(w: Point, a: Point, b: Point, c: Point)
    ensures Wedge(Sub(c, a), w) == Wedge(Sub(b, a), w) + Wedge(Sub(c, b), w)
  {
  }

  lemma {:induction false} EdgeMeetsChord(pts: seq<Point>, c: seq<Point>, rev: bool, i: nat, j: nat, k: nat)
    requires IsChain(pts, c, rev) && i < j < k < |c|
    ensures Wedge(Sub(c[i + 1], c[i]), Sub(c[k], c[j])) > 0.0
    decreases k
  {
    EdgesTurn(pts, c, rev, i, k - 1);
    if k > j + 1 {
      EdgeMeetsChord(pts, c, rev, i, j, k - 1);
      WedgeSplitsRight(Sub(c[i + 1], c[i]), c[j], c[k - 1], c[k]);
    }
  }

  lemma {:induction false} ChordsTurn(pts: seq<Point>, c: seq<Point>, rev: bool, i: nat, j: nat, k: nat)
    requires IsChain(pts, c, rev) && i < j < k < |c|
    ensures Wedge(Sub(c[j], c[i]), Sub(c[k], c[j])) > 0.0
    decreases j - i
  {
    EdgeMeetsChord(pts, c, rev, i, j, k);
    if j > i + 1 {
      ChordsTurn(pts, c, rev, i + 1, j, k);
      WedgeSplitsLeft(Sub(c[k], c[j]), c[i], c[i + 1], c[j]);
    }
  }

  /** Any three vertices of a chain, taken in order, turn strictly left. */
  lemma ChainTriple(pts: seq<Point>, c: seq<Point>, rev: bool, i: nat, j: nat, k: nat)
    requires IsChain(pts, c, rev) && i < j < k < |c|
    ensures Cross(c[i], c[j], c[k]) > 0.0
  {
    ChordsTurn(pts, c, rev, i, j, k);
    CrossIsWedge(c[i], c[j], c[k]);
  }

  lemma {:induction false} ChainAdvances(pts: seq<Point>, c: seq<Point>, rev: bool, i: nat, j: nat)
    requires IsChain(pts, c, rev) && i <= j < |c|
    ensures Before(c[i], c[j], rev)
    decreases j - i
  {
    if i < j {
      ChainAdvances(pts, c, rev, i + 1, j);
    }
  }

  /** A vertex is never left of the chord from the chain's first to its last point. */
  lemma VertexBelowBase(pts: seq<Point>, c: seq<Point>, rev: bool, i: nat)
    requires IsChain(pts, c, rev) && i < |c|
    ensures Cross(c[0], c[|c| - 1], c[i]) <= 0.0
    ensures 0 < i < |c| - 1 ==> Cross(c[0], c[|c| - 1], c[i]) < 0.0
  {
    if 0 < i < |c| - 1 {
      ChainTriple(pts, c, rev, 0, i, |c| - 1);
      CrossRotates(c[0], c[i], c[|c| - 1]);
    }
  }

  /** A point of the cloud strictly on the far side of the base `m`-`n`, between
      `a` and `b` in the sweep, is left of the chord `a`-`b` when these two are not. */
  lemma AboveBaseAboveChord(m: Point, n: Point, a: Point, b: Point, q: Point, rev: bool)
    requires Before(m, n, rev) && Before(a, q, rev) && Before(q, b, rev) && Before(a, b, rev)
    requires m != n && a != b
    requires Cross(m, n, a) <= 0.0 && Cross(m, n, b) <= 0.0 < Cross(m, n, q)
    ensures Cross(a, b, q) > 0.0
  {
    var d, u, r, t := Sub(n, m), Sub(b, a), Sub(q, a), Sub(b, q);
    BeforeIsWeakly(m, n, rev);
    BeforeIsWeakly(a, b, rev);
    BeforeIsWeakly(a, q, rev);
    BeforeIsWeakly(q, b, rev);
    if Cross(a, b, q) <= 0.0 {
      CrossIsWedge(a, b, q);
      WedgeAntisymmetric(r, u);
      CrossMoves(a, b, b, q);
      CrossOfRepeated(a, b);
      CrossMoves(m, n, a, q);
      WedgeAntisymmetric(r, d);
      CrossMoves(m, n, b, q);
      WedgeAntisymmetric(u, d);
      if Wedge(d, u) <= 0.0 {
        WedgeTransitive(r, u, d, rev);
      } else {
        WedgeTransitive(d, u, t, rev);
      }
    }
  }

  lemma BeyondChord(a: Point, b: Point, next: Point, q: Point, rev: bool)
    requires Before(a, b, rev) && Before(b, next, rev) && Before(b, q, rev) && q != b
    requires Cross(a, b, next) > 0.0 && Cross(b, next, q) >= 0.0
    ensures Cross(a, b, q) > 0.0
  {
    BeforeIsWeakly(a, b, rev);
    BeforeIsWeakly(b, next, rev);
    BeforeIsWeakly(b, q, rev);
    CrossIsWedge(a, b, next);
    CrossIsWedge(b, next, q);
    CrossIsWedge(a, b, q);
    WedgeTransitive(Sub(b, a), Sub(next, b), Sub(q, b), rev);
  }

  lemma ShortOfChord(prev: Point, a: Point, b: Point, q: Point, rev: bool)
    requires Before(prev, a, rev) && Before(a, b, rev) && Before(q, a, rev) && q != a
    requires Cross(prev, a, b) > 0.0 && Cross(prev, a, q) >= 0.0
    ensures Cross(a, b, q) > 0.0
  {
    BeforeIsWeakly(prev, a, rev);
    BeforeIsWeakly(a, b, rev);
    BeforeIsWeakly(q, a, rev);
    var z, w, u := Sub(a, q), Sub(a, prev), Sub(b, a);
    CrossIsWedge(prev, a, q);
    CrossIsWedge(prev, a, b);
    CrossIsWedge(a, b, q);
    WedgeTransitive(z, w, u, rev);
  }

  /** A cloud point strictly across the base is strictly left of every chord. */
  lemma LeftOfChord(pts: seq<Point>, c: seq<Point>, rev: bool, i: nat, j: nat, q: Point)
    requires IsChain(pts, c, rev) && i < j < |c| && q in pts
    requires Before(c[0], q, rev) && Before(q, c[|c| - 1], rev)
    requires Cross(c[0], c[|c| - 1], q) > 0.0
    ensures Cross(c[i], c[j], q) > 0.0
  {
    var l := |c| - 1;
    VertexBelowBase(pts, c, rev, i);
    VertexBelowBase(pts, c, rev, j);
    ChainAdvances(pts, c, rev, i, j);
    ChainAdvances(pts, c, rev, 0, l);
    if Before(c[j], q, rev) {
      if j < l {
        ChainTriple(pts, c, rev, i, j, j + 1);
        BeyondChord(c[i], c[j], c[j + 1], q, rev);
      }
    } else if Before(q, c[i], rev) {
      if i > 0 {
        ChainTriple(pts, c, rev, i - 1, i, j);
        ShortOfChord(c[i - 1], c[i], c[j], q, rev);
      }
    } else {
      AboveBaseAboveChord(c[0], c[l], c[i], c[j], q, rev);
    }
  }

  // -------------------------------------------------------------- the polygon

  /** Every three vertices, taken in order, turn strictly left: the vertices are
      distinct, in convex position, and run once around counter-clockwise. */
  ghost predicate StrictlyConvex(h: seq<Point>) {
    forall i, j, k :: 0 <= i < j < k < |h| ==> Cross(h[i], h[j], h[k]) > 0.0
  }

  /** No point of `points` is to the right of an edge of the closed polygon `h`. */
  ghost predicate Encloses(h: seq<Point>, points: seq<Point>) {
    forall i, q :: 0 <= i < |h| && q in points ==> OnLeft(h, i, q)
  }

  predicate OnLeft(h: seq<Point>, i: nat, q: Point)
    requires i < |h|
  {
    Cross(h[i], h[(i + 1) % |h|], q) >= 0.0
  }

  ghost predicate IsHull(points: seq<Point>, h: seq<Point>) {
    && (forall v :: v in h ==> v in points)
    && StrictlyConvex(h) && Encloses(h, points)
  }

  ghost predicate Collinear(points: seq<Point>) {
    forall o, a, b :: o in points && a in points && b in points ==> Cross(o, a, b) == 0.0
  }

  ghost predicate Closed(s: seq<Point>, lo: seq<Point>, r: seq<Point>, up: seq<Point>) {
    && IsChain(s, lo, false) && IsChain(r, up, true) && |lo| >= 2 && |up| >= 2
    && (forall p :: p in s <==> p in r) && s[0] == r[|r| - 1] && s[|s| - 1] == r[0]
    && (forall p :: p in s ==> Before(s[0], p, false) && Before(p, s[|s| - 1], false))
  }

  function Join(lo: seq<Point>, up: seq<Point>): seq<Point>
    requires |lo| >= 1 && |up| >= 1
  {
    lo[..|lo| - 1] + up[..|up| - 1]
  }

  lemma JoinAt(lo: seq<Point>, up: seq<Point>, i: nat)
    requires |lo| >= 2 && |up| >= 2 && lo[|lo| - 1] == up[0] && i < |Join(lo, up)|
    ensures i <= |lo| - 1 ==> Join(lo, up)[i] == lo[i]
    ensures i >= |lo| - 1 ==> Join(lo, up)[i] == up[i - (|lo| - 1)]
  {
  }

  /** Two lower vertices and one of the upper chain's inner vertices. */
  lemma TwoLowerOneUpper(s: seq<Point>, lo: seq<Point>, r: seq<Point>, up: seq<Point>, i: nat, j: nat, k: nat)
    requires Closed(s, lo, r, up) && i < j < |lo| && 0 < k < |up| - 1
    ensures Cross(lo[i], lo[j], up[k]) > 0.0
  {
    var q := up[k];
    assert q in up;
    ChainTriple(r, up, true, 0, k, |up| - 1);
    CrossRotates(up[0], q, up[|up| - 1]);
    LeftOfChord(s, lo, false, i, j, q);
  }

  lemma OneLowerTwoUpper(s: seq<Point>, lo: seq<Point>, r: seq<Point>, up: seq<Point>, i: nat, j: nat, k: nat)
    requires Closed(s, lo, r, up) && i < |lo| - 1 && j < k < |up| - 1
    ensures Cross(lo[i], up[j], up[k]) > 0.0
  {
    var q := lo[i];
    assert q in lo && q in s;
    CrossRotates(q, up[j], up[k]);
    if i == 0 {
      ChainTriple(r, up, true, j, k, |up| - 1);
    } else {
      ChainTriple(s, lo, false, 0, i, |lo| - 1);
      CrossRotates(lo[0], q, lo[|lo| - 1]);
      assert Before(up[0], q, true) && Before(q, up[|up| - 1], true);
      LeftOfChord(r, up, true, j, k, q);
    }
  }

  lemma JoinTriple(s: seq<Point>, lo: seq<Point>, r: seq<Point>, up: seq<Point>, i: nat, j: nat, k: nat)
    requires Closed(s, lo, r, up) && i < j < k < |Join(lo, up)|
    ensures Cross(Join(lo, up)[i], Join(lo, up)[j], Join(lo, up)[k]) > 0.0
  {
    var n := |lo| - 1;
    JoinAt(lo, up, i);
    JoinAt(lo, up, j);
    JoinAt(lo, up, k);
    if k <= n {
      ChainTriple(s, lo, false, i, j, k);
    } else if i >= n {
      ChainTriple(r, up, true, i - n, j - n, k - n);
    } else if j < n {
      TwoLowerOneUpper(s, lo, r, up, i, j, k - n);
    } else {
      OneLowerTwoUpper(s, lo, r, up, i, j - n, k - n);
    }
  }

  lemma NextIndex(i: nat, n: nat)
    requires i < n
    ensures (i + 1) % n == if i + 1 < n then i + 1 else 0
  {
  }

  lemma JoinOnLeft(s: seq<Point>, lo: seq<Point>, r: seq<Point>, up: seq<Point>, i: nat, q: Point)
    requires Closed(s, lo, r, up) && i < |Join(lo, up)| && q in s
    ensures OnLeft(Join(lo, up), i, q)
  {
    var n, h := |lo| - 1, Join(lo, up);
    NextIndex(i, |h|);
    JoinAt(lo, up, i);
    JoinAt(lo, up, (i + 1) % |h|);
    if i < n {
      EdgeOnLeft(s, lo, i, q);
    } else {
      assert q in r;
      EdgeOnLeft(r, up, i - n, q);
    }
  }

  lemma JoinIsHull(s: seq<Point>, lo: seq<Point>, r: seq<Point>, up: seq<Point>)
    requires Closed(s, lo, r, up)
    ensures IsHull(s, Join(lo, up))
  {
    var h := Join(lo, up);
    forall v | v in h
      ensures v in s
    {
      assert v in lo || v in up;
    }
    forall i, j, k | 0 <= i < j < k < |h|
      ensures Cross(h[i], h[j], h[k]) > 0.0
    {
      JoinTriple(s, lo, r, up, i, j, k);
    }
    forall i, q | 0 <= i < |h| && q in s
      ensures OnLeft(h, i, q)
    {
      JoinOnLeft(s, lo, r, up, i, q);
    }
  }

  lemma ParallelDifferences(d: Point, u: Point, w: Point)
    requires d != Point(0.0, 0.0) && Wedge(d, u) == 0.0 && Wedge(d, w) == 0.0
    ensures Wedge(u, w) == 0.0
  {
    assert d.x * Wedge(u, w) == u.x * Wedge(d, w) - w.x * Wedge(d, u);
    assert d.y * Wedge(u, w) == u.y * Wedge(d, w) - w.y * Wedge(d, u);
  }

  lemma OnOneLine(m: Point, n: Point, s: seq<Point>)
    requires m != n && forall q :: q in s ==> Cross(m, n, q) == 0.0
    ensures Collinear(s)
  {
    forall o, a, b | o in s && a in s && b in s
      ensures Cross(o, a, b) == 0.0
    {
      var d, u, w := Sub(n, m), Sub(a, o), Sub(b, o);
      CrossMoves(m, n, o, a);
      CrossMoves(m, n, o, b);
      ParallelDifferences(d, u, w);
      CrossIsWedge(o, a, b);
    }
  }

  lemma AllAlike(m: Point, s: seq<Point>)
    requires forall q :: q in s ==> q == m
    ensures Collinear(s)
  {
  }

  lemma TwoVerticesCollinear(s: seq<Point>, lo: seq<Point>, r: seq<Point>, up: seq<Point>)
    requires Closed(s, lo, r, up) && |lo| == |up| == 2
    ensures Collinear(s)
  {
    var m, n := lo[0], lo[1];
    assert up[0] == n && up[1] == m;
    forall q | q in s
      ensures Cross(m, n, q) == 0.0
    {
      assert q in r && Cross(lo[0], lo[1], q) >= 0.0 && Cross(up[0], up[1], q) >= 0.0;
      CrossRotates(m, n, q);
      CrossRotates(n, m, q);
    }
    if m == n {
      AllAlike(m, s);
    } else {
      OnOneLine(m, n, s);
    }
  }

  lemma DegenerateIffCollinear(s: seq<Point>, lo: seq<Point>, r: seq<Point>, up: seq<Point>)
    requires Closed(s, lo, r, up) && IsHull(s, Join(lo, up))
    ensures |Join(lo, up)| < 3 <==> Collinear(s)
  {
    var h := Join(lo, up);
    if |h| >= 3 {
      assert h[0] in h && h[1] in h && h[2] in h;
      assert Cross(h[0], h[1], h[2]) > 0.0;
    } else {
      TwoVerticesCollinear(s, lo, r, up);
    }
  }

  function Reverse(s: seq<Point>): (r: seq<Point>)
    ensures |r| == |s| && forall i :: 0 <= i < |s| ==> r[i] == s[|s| - 1 - i]
    ensures forall p :: p in s <==> p in r
  {
    if s == [] then [] else
      var r := Reverse(s[1..]) + [s[0]];
      assert forall p :: p in s <==> p == s[0] || p in s[1..];
      r
  }

  lemma ReverseIsOrdered(s: seq<Point>, tol: real)
    requires Ordered(s, false) && Resolved(s, tol)
    ensures Ordered(Reverse(s), true) && Resolved(Reverse(s), tol)
  {
    var r := Reverse(s);
    forall i, j | 0 <= i <= j < |r|
      ensures Before(r[i], r[j], true)
    {
      assert Before(s[|s| - 1 - j], s[|s| - 1 - i], false);
    }
  }

  lemma SortedSpans(s: seq<Point>)
    requires Ordered(s, false) && |s| > 0
    ensures forall p :: p in s ==> Before(s[0], p, false) && Before(p, s[|s| - 1], false)
  {
  }

  lemma SamePoints(s: seq<Point>, points: seq<Point>, h: seq<Point>)
    requires forall p :: p in s <==> p in points
    ensures IsHull(s, h) ==> IsHull(points, h)
    ensures Collinear(s) <==> Collinear(points)
  {
  }

  /** The hull of three or more points: their lower chain followed by their upper
      chain, each without its last point. */
  method ComputeConvexHull2d(points: seq<Point>, tol: real) returns (hull: seq<Point>)
    requires Resolved(points, tol)
    ensures |points| < 3 ==> hull == points
    ensures |points| >= 3 ==> IsHull(points, hull) && |hull| >= 2
    ensures |points| >= 3 ==> (|hull| < 3 <==> Collinear(points))
  {
    if |points| < 3 {
      return points;
    }
    var s := SortPoints(points, tol);
    MultisetIn(s, points);
    assert |multiset(s)| == |multiset(points)|;
    var lower := BuildChain(s, tol, false);
    ghost var r := Reverse(s);
    ReverseIsOrdered(s, tol);
    var upper := BuildChain(Reverse(s), tol, true);
    SortedSpans(s);
    assert Closed(s, lower, r, upper);
    JoinIsHull(s, lower, r, upper);
    DegenerateIffCollinear(s, lower, r, upper);
    SamePoints(s, points, Join(lower, upper));
    hull := lower[..|lower| - 1] + upper[..|upper| - 1];
  }
}
