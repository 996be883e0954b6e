/** Points of the x-y plane, the oriented area of a triple of points, and the
    lexicographic direction of travel used by the monotone-chain hull.  The facts
    about four or fewer points that the hull proof rests on are collected here. */
module Plane {

  datatype Point = Point(x: real, y: real)

  function Sub(a: Point, b: Point): Point {
    Point(a.x - b.x, a.y - b.y)
  }

  function Wedge(u: Point, v: Point): real {
    u.x * v.y - u.y * v.x
  }

  /** Twice the signed area of the triangle o, a, b; positive for a left turn. */
  function Cross(o: Point, a: Point, b: Point): real {
    (a.x - o.x) * (b.y - o.y) - (a.y - o.y) * (b.x - o.x)
  }

  function Abs(r: real): real {
    if r < 0.0 then -r else r
  }

  predicate LexLess(a: Point, b: Point) {
    a.x < b.x || (a.x == b.x && a.y < b.y)
  }

  /** `a` comes no later than `b` when the plane is swept left to right or, with
      `rev`, right to left. */
  predicate Before(a: Point, b: Point, rev: bool) {
    a == b || if rev then LexLess(b, a) else LexLess(a, b)
  }

  /** The direction `u` points strictly forward in the sweep. */
  predicate Forward(u: Point, rev: bool) {
    if rev then LexLess(u, Point(0.0, 0.0)) else LexLess(Point(0.0, 0.0), u)
  }

  predicate Weakly(u: Point, rev: bool) {
    u == Point(0.0, 0.0) || Forward(u, rev)
  }

  lemma BeforeIsWeakly(a: Point, b: Point, rev: bool)
    ensures Before(a, b, rev) <==> Weakly(Sub(b, a), rev)
    ensures Before(a, b, rev) && a != b <==> Forward(Sub(b, a), rev)
  {
  }

  /** The oriented area as a wedge of differences, in the four ways needed below. */
  lemma CrossIsWedge(o: Point, a: Point, b: Point)
    ensures Cross(o, a, b) == Wedge(Sub(a, o), Sub(b, o))
    ensures Cross(o, a, b) == Wedge(Sub(a, o), Sub(b, a))
    ensures Cross(o, a, b) == Wedge(Sub(a, b), Sub(a, o))
    ensures Cross(o, a, b) == Wedge(Sub(o, b), Sub(a, o))
  {
  }

  lemma CrossOfRepeated(a: Point, b: Point)
    ensures Cross(a, a, b) == 0.0 && Cross(a, b, b) == 0.0 && Cross(a, b, a) == 0.0
  {
  }

  lemma WedgeAntisymmetric(u: Point, v: Point)
    ensures Wedge(u, v) == -Wedge(v, u)
  {
  }

  lemma FourPoints(a: Point, b: Point, p: Point, q: Point)
    ensures Cross(a, p, q) == Cross(a, b, q) - Cross(a, b, p) + Cross(b, p, q)
  {
  }

  /** Moving the third point of a triple changes the area by a wedge. */
  lemma CrossMoves(m: Point, n: Point, a: Point, q: Point)
    ensures Cross(m, n, q) == Cross(m, n, a) + Wedge(Sub(n, m), Sub(q, a))
    ensures Cross(m, n, q) == Cross(m, n, a) - Wedge(Sub(n, m), Sub(a, q))
  {
  }

  lemma CrossRotates(o: Point, a: Point, b: Point)
    ensures Cross(o, a, b) == Cross(a, b, o) == Cross(b, o, a)
    ensures Cross(o, a, b) == -Cross(o, b, a)
  {
  }

  /** Sign of a product whose first factor is not negative. */
  lemma Scaled(k: real, r: real)
    requires k >= 0.0
    ensures r >= 0.0 ==> k * r >= 0.0
    ensures k > 0.0 && r > 0.0 ==> k * r > 0.0
    ensures k > 0.0 && r < 0.0 ==> k * r < 0.0
    ensures k == 0.0 || r == 0.0 ==> k * r == 0.0
  {
  }

  lemma WedgeIdentity(u: Point, v: Point, w: Point)
    ensures v.x * Wedge(u, w) == Wedge(u, v) * w.x + Wedge(v, w) * u.x
  {
  }

  /** Signs with a direction that points straight up. */
  lemma WedgeUpright(u: Point, v: Point)
    requires v.x == 0.0
    ensures Wedge(u, v) == u.x * v.y && Wedge(v, u) == -(v.y * u.x)
  {
  }

  lemma WedgeRightward(u: Point, v: Point, w: Point)
    requires Weakly(u, false) && v.x > 0.0 && Weakly(w, false)
    requires Wedge(u, v) >= 0.0 && Wedge(v, w) >= 0.0
    ensures Wedge(u, w) >= 0.0
    ensures Wedge(u, v) > 0.0 && Forward(w, false) ==> Wedge(u, w) > 0.0
    ensures Wedge(v, w) > 0.0 && Forward(u, false) ==> Wedge(u, w) > 0.0
  {
    WedgeIdentity(u, v, w);
    Scaled(Wedge(u, v), w.x);
    Scaled(Wedge(v, w), u.x);
    Scaled(v.x, Wedge(u, w));
    if w.x == 0.0 && Wedge(u, v) > 0.0 && Forward(w, false) {
      WedgeUpright(u, w);
      if u.x == 0.0 {
        WedgeUpright(v, u);
        Scaled(v.x, u.y);
      }
      Scaled(u.x, w.y);
    }
    if u.x == 0.0 && Wedge(v, w) > 0.0 && Forward(u, false) {
      WedgeUpright(w, u);
      if w.x == 0.0 {
        WedgeUpright(v, w);
        Scaled(v.x, w.y);
      }
      Scaled(u.y, w.x);
    }
  }

  lemma WedgeNegated(u: Point, v: Point)
    ensures Wedge(Point(-u.x, -u.y), Point(-v.x, -v.y)) == Wedge(u, v)
  {
  }

  /** Among directions of one half plane, "not to the right of" is transitive. */
  lemma WedgeTransitive(u: Point, v: Point, w: Point, rev: bool)
    requires Weakly(u, rev) && Forward(v, rev) && Weakly(w, rev)
    requires Wedge(u, v) >= 0.0 && Wedge(v, w) >= 0.0
    ensures Wedge(u, w) >= 0.0
    ensures Wedge(u, v) > 0.0 && Forward(w, rev) ==> Wedge(u, w) > 0.0
    ensures Wedge(v, w) > 0.0 && Forward(u, rev) ==> Wedge(u, w) > 0.0
    decreases rev
  {
    if rev {
      var u', v', w' := Point(-u.x, -u.y), Point(-v.x, -v.y), Point(-w.x, -w.y);
      WedgeNegated(u, v);
      WedgeNegated(v, w);
      WedgeNegated(u, w);
      WedgeTransitive(u', v', w', false);
    } else if v.x > 0.0 {
      WedgeRightward(u, v, w);
    } else {
      WedgeUpright(u, v);
      WedgeUpright(w, v);
      Scaled(v.y, w.x);
      Scaled(v.y, u.x);
      WedgeUpright(u, w);
      Scaled(u.x, w.y);
    }
  }
}
