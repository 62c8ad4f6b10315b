/** Track geometry of the Three.js race demo (js/track.js): closing a
    sampled boundary polygon in place and the even-odd point-in-polygon test
    used for the off-track rule. */
module Tracks {
  import opened Vectors

  /** Squared distance above which the first and last points count as apart. */
  const Tolerance: real := 0.000001
  /** The constant added to every edge's Y difference in the crossing test. */
  const Eps: real := 0.000001

  /** A boundary polygon: the point array the source keeps in a module
      variable and extends in place. */
  class Polygon {
    var points: seq<Vec2>

    constructor (points: seq<Vec2>)
      ensures this.points == points
    {
      this.points := points;
    }
  }

  // ---------------------------------------------------------------------------
  // Closing a polygon

  /** The points after `closePolygon`: a copy of the first point is appended
      when it lies farther than the tolerance from the last one. */
  function Closed(s: seq<Vec2>): (r: seq<Vec2>)
    ensures |s| < 2 ==> r == s
    ensures r == s || r == s + [s[0]]
    ensures |s| >= 2 ==> DistSq2(r[0], r[|r| - 1]) <= Tolerance
    ensures r != s <==> |s| >= 2 && DistSq2(s[0], s[|s| - 1]) > Tolerance
  {
    if |s| < 2 then s
    else if DistSq2(s[0], s[|s| - 1]) > Tolerance then s + [s[0]]
    else s
  }

  /** Closing twice is closing once. */
  lemma ClosedIsIdempotent(s: seq<Vec2>)
    ensures Closed(Closed(s)) == Closed(s)
  {
  }

  /** `closePolygon(points)`: pushes a clone of the first point onto the array. */
  method ClosePolygon(polygon: Polygon)
    modifies polygon
    ensures polygon.points == Closed(old(polygon.points))
  {
    if |polygon.points| < 2 {
      return;
    }
    if DistSq2(polygon.points[0], polygon.points[|polygon.points| - 1]) > Tolerance {
      polygon.points := polygon.points + [polygon.points[0]];
    }
  }

  // ---------------------------------------------------------------------------
  // The even-odd test

  /** Index of the vertex before vertex `i`, wrapping from 0 to the last one. */
  function Prev(i: nat, n: nat): nat
    requires i < n
  {
    if i == 0 then n - 1 else i - 1
  }

  /** The edge from `a` (vertex j) to `b` (vertex i) straddles the horizontal
      line through `p`: exactly one endpoint lies strictly above it. */
  predicate Straddles(p: Vec2, a: Vec2, b: Vec2) {
    (b.y > p.y) != (a.y > p.y)
  }

  /** The test's division is defined on this edge. */
  predicate EdgeDefined(p: Vec2, a: Vec2, b: Vec2) {
    Straddles(p, a, b) ==> (a.y - b.y) + Eps != 0.0
  }

  /** Every edge's division is defined. */
  predicate Computable(p: Vec2, poly: seq<Vec2>) {
    forall i :: 0 <= i < |poly| ==> EdgeDefined(p, poly[Prev(i, |poly|)], poly[i])
  }

  /** The source's `intersect` for the edge from `a` (vertex j) to `b`
      (vertex i): it straddles the line through `p` and `p` lies left of the
      point the (slightly flattened) edge crosses that line at. */
  predicate Crosses(p: Vec2, a: Vec2, b: Vec2)
    requires EdgeDefined(p, a, b)
  {
    Straddles(p, a, b) && p.x < CrossingX(p, a, b)
  }

  /** Where the edge from `a` to `b`, with its Y difference widened by Eps,
      meets the horizontal line through `p`. */
  function CrossingX(p: Vec2, a: Vec2, b: Vec2): real
    requires (a.y - b.y) + Eps != 0.0
  {
    (a.x - b.x) * (p.y - b.y) / ((a.y - b.y) + Eps) + b.x
  }

  /** The number of edges ending at vertices 0 .. n-1 that the test counts. */
  function CrossCount(p: Vec2, poly: seq<Vec2>, n: nat): nat
    requires n <= |poly| && Computable(p, poly)
  {
    if n == 0 then 0
    else CrossCount(p, poly, n - 1) + (if Crosses(p, poly[Prev(n - 1, |poly|)], poly[n - 1]) then 1 else 0)
  }

  /** The even-odd rule: inside when an odd number of edges is crossed. */
  predicate Inside(p: Vec2, poly: seq<Vec2>)
    requires Computable(p, poly)
  {
    CrossCount(p, poly, |poly|) % 2 == 1
  }

  /** `isPointInPolygon(point, polygon)`: walks the edges (j, i) with j
      trailing i and starting at the last vertex, toggling on each crossing. */
  method IsPointInPolygon(point: Vec2, polygon: Polygon) returns (inside: bool)
    requires Computable(point, polygon.points)
    ensures inside == Inside(point, polygon.points)
  {
    inside := false;
    var x, y := point.x, point.y;
    var pts := polygon.points;
    var i, j := 0, |pts| - 1;
    while i < |pts|
      invariant 0 <= i <= |pts|
      invariant i < |pts| ==> j == Prev(i, |pts|)
      invariant inside == (CrossCount(point, pts, i) % 2 == 1)
    {
      var yi, yj := pts[i].y, pts[j].y;
      assert EdgeDefined(point, pts[j], pts[i]);
      var intersect := ((yi > y) != (yj > y)) && (x < CrossingX(point, pts[j], pts[i]));
      if intersect {
        inside := !inside;
      }
      j, i := i, i + 1;
    }
  }

  // ---------------------------------------------------------------------------
  // Properties of the test

  /** An edge that does not straddle the line through the point never counts. */
  lemma NonStraddlingEdgeNeverCounts(p: Vec2, a: Vec2, b: Vec2)
    requires (a.y > p.y && b.y > p.y) || (a.y <= p.y && b.y <= p.y)
    ensures EdgeDefined(p, a, b) && !Crosses(p, a, b)
  {
  }

  /** A point whose horizontal line passes above or below every vertex is
      outside; in particular the empty polygon contains nothing. */
  lemma {:induction false} LineMissingPolygonIsOutside(p: Vec2, poly: seq<Vec2>, n: nat)
    requires n <= |poly|
    requires (forall i :: 0 <= i < |poly| ==> poly[i].y > p.y) ||
             (forall i :: 0 <= i < |poly| ==> poly[i].y <= p.y)
    ensures Computable(p, poly) && CrossCount(p, poly, n) == 0
    ensures n == |poly| ==> !Inside(p, poly)
  {
    if n > 0 {
      LineMissingPolygonIsOutside(p, poly, n - 1);
    }
  }

  /** On the prefix shared with the original, the closed polygon has crossed
      the same edges except the original's wrap-around edge, which it has
      replaced by the degenerate edge from the appended copy to the first point. */
  lemma {:induction false} ClosedCountsAlign(p: Vec2, s: seq<Vec2>, k: nat)
    requires |s| >= 1 && 1 <= k <= |s| && Computable(p, s)
    requires Computable(p, s + [s[0]])
    ensures var c := s + [s[0]];
            CrossCount(p, c, k) + (if Crosses(p, s[Prev(0, |s|)], s[0]) then 1 else 0) == CrossCount(p, s, k)
  {
    var c := s + [s[0]];
    if k == 1 {
      assert c[Prev(0, |c|)] == s[0] && c[0] == s[0];
      assert !Straddles(p, c[Prev(0, |c|)], c[0]);
    } else {
      ClosedCountsAlign(p, s, k - 1);
      assert c[Prev(k - 1, |c|)] == s[Prev(k - 1, |s|)] && c[k - 1] == s[k - 1];
    }
  }

  /** Closing a polygon does not change which points are inside it. */
  lemma ClosingPreservesInside(p: Vec2, s: seq<Vec2>)
    requires Computable(p, s)
    ensures Computable(p, Closed(s)) && (Inside(p, Closed(s)) <==> Inside(p, s))
  {
    if Closed(s) != s {
      var c := s + [s[0]];
      var n := |s|;
      forall i | 0 <= i < |c| ensures EdgeDefined(p, c[Prev(i, |c|)], c[i]) {
        if i == 0 {
          assert c[Prev(i, |c|)] == s[0] == c[0];
        } else if i == n {
          assert c[Prev(i, |c|)] == s[Prev(0, n)] && c[i] == s[0];
        } else {
          assert c[Prev(i, |c|)] == s[Prev(i, n)] && c[i] == s[i];
        }
      }
      ClosedCountsAlign(p, s, n);
      assert c[Prev(n, |c|)] == s[n - 1] && c[n] == s[0];
      assert CrossCount(p, c, n + 1) == CrossCount(p, s, n);
    }
  }
}
