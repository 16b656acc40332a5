/**
 * Visibility and depth ordering in src/view.h: the backface test, the
 * bubble depth sort of the polygon list by distance, and the pairwise
 * painter's-order tests (extent overlaps and the plane-side tests that
 * should_be_swapped combines).
 *
 * The float plane coefficients and surface values are computed exactly
 * over the integers: the coordinates they start from are integers.
 */
module ViewSort {
  import opened Common
  import opened Poly

  /** The list of polygons to draw, filled by make_polygon_list. */
  class PolygonList {
    var numberOfPolygons: int
    var polygon: array<Polygon>

    constructor (capacity: nat)
      ensures numberOfPolygons == 0 && polygon.Length == capacity && fresh(polygon)
    {
      numberOfPolygons := 0;
      polygon := new Polygon[capacity];
    }
  }

  // ---------------------------------------------------------------------
  // Planes
  // ---------------------------------------------------------------------

  /** The plane a x + b y + c z + d = 0. */
  datatype Plane = Plane(a: int, b: int, c: int, d: int)

  /** The coefficients the source derives from three corners of a polygon. */
  function PlaneOf(p1: Point3, p2: Point3, p3: Point3): Plane
  {
    Plane(p1.y * (p2.z - p3.z) + p2.y * (p3.z - p1.z) + p3.y * (p1.z - p2.z),
          p1.z * (p2.x - p3.x) + p2.z * (p3.x - p1.x) + p3.z * (p1.x - p2.x),
          p1.x * (p2.y - p3.y) + p2.x * (p3.y - p1.y) + p3.x * (p1.y - p2.y),
          -p1.x * (p2.y * p3.z - p3.y * p2.z) - p2.x * (p3.y * p1.z - p1.y * p3.z) - p3.x * (p1.y * p2.z - p2.y * p1.z))
  }

  /** The plane equation evaluated at p. */
  function SurfaceAt(pl: Plane, p: Point3): int
  {
    pl.a * p.x + pl.b * p.y + pl.c * p.z + pl.d
  }

  /** Distributes k over one cofactor sum of PlaneOf. */
  lemma ExpandCofactor(k: int, u1: int, u2: int, u3: int, v1: int, v2: int, v3: int)
    ensures k * (u1 * (v2 - v3) + u2 * (v3 - v1) + u3 * (v1 - v2))
         == k * u1 * v2 - k * u1 * v3 + k * u2 * v3 - k * u2 * v1 + k * u3 * v1 - k * u3 * v2
  {
  }

  /** The first corner satisfies the plane equation (a cubic identity). */
  lemma FirstCornerOnPlane(x1: int, y1: int, z1: int, x2: int, y2: int, z2: int, x3: int, y3: int, z3: int)
    ensures SurfaceAt(PlaneOf(Point3(x1, y1, z1), Point3(x2, y2, z2), Point3(x3, y3, z3)), Point3(x1, y1, z1)) == 0
  {
    ExpandCofactor(x1, y1, y2, y3, z1, z2, z3);
    ExpandCofactor(y1, z1, z2, z3, x1, x2, x3);
    ExpandCofactor(z1, x1, x2, x3, y1, y2, y3);
  }

  /** The coefficients do not depend on which corner is named first. */
  lemma PlaneOfRotates(p1: Point3, p2: Point3, p3: Point3)
    ensures PlaneOf(p1, p2, p3) == PlaneOf(p2, p3, p1)
  {
  }

  /** The plane through three corners passes through each of them. */
  lemma PlaneThroughCorners(p1: Point3, p2: Point3, p3: Point3)
    ensures SurfaceAt(PlaneOf(p1, p2, p3), p1) == 0
    ensures SurfaceAt(PlaneOf(p1, p2, p3), p2) == 0
    ensures SurfaceAt(PlaneOf(p1, p2, p3), p3) == 0
  {
    FirstCornerOnPlane(p1.x, p1.y, p1.z, p2.x, p2.y, p2.z, p3.x, p3.y, p3.z);
    FirstCornerOnPlane(p2.x, p2.y, p2.z, p3.x, p3.y, p3.z, p1.x, p1.y, p1.z);
    FirstCornerOnPlane(p3.x, p3.y, p3.z, p1.x, p1.y, p1.z, p2.x, p2.y, p2.z);
    PlaneOfRotates(p1, p2, p3);
    PlaneOfRotates(p2, p3, p1);
  }

  // ---------------------------------------------------------------------
  // backface
  // ---------------------------------------------------------------------

  /** The quantity backface computes from the first three aligned corners. */
  function BackfaceValue(v0: Point3, v1: Point3, v2: Point3): int
  {
    v2.x * (v0.z * v1.y - v0.y * v1.z) + v2.y * (v0.x * v1.z - v0.z * v1.x) + v2.z * (v0.y * v1.x - v0.x * v1.y)
  }

  /** A polygon with a plane: at least three corners, all naming vertices of vs. */
  predicate Drawable(p: Polygon, vs: seq<Vertex>)
  {
    |p.vertex| >= 3 && p.IndicesBelow(|vs|)
  }

  /**
   * backface: a polygon faces away when the viewer, at the origin of the
   * aligned coordinates, lies on the negative side of its plane.
   */
  function Backface(p: Polygon, vs: seq<Vertex>): bool
    requires Drawable(p, vs)
  {
    var c := Corners(p, vs);
    BackfaceValue(c[0], c[1], c[2]) < 0
  }

  /** backface holds exactly when the viewer is on the negative side of the polygon's plane. */
  lemma BackfaceMeansViewerBehind(p: Polygon, vs: seq<Vertex>)
    requires Drawable(p, vs)
    ensures var c := Corners(p, vs);
      Backface(p, vs) <==> SurfaceAt(PlaneOf(c[0], c[1], c[2]), Point3(0, 0, 0)) < 0
  {
    var c := Corners(p, vs);
    BackfaceIsPlaneOffset(c[0], c[1], c[2]);
  }

  lemma BackfaceIsPlaneOffset(v0: Point3, v1: Point3, v2: Point3)
    ensures BackfaceValue(v0, v1, v2) == SurfaceAt(PlaneOf(v0, v1, v2), Point3(0, 0, 0))
  {
  }

  /** Reversing the winding (swapping the second and third corner) negates the value. */
  lemma BackfaceWindingFlips(v0: Point3, v1: Point3, v2: Point3)
    ensures BackfaceValue(v0, v2, v1) == -BackfaceValue(v0, v1, v2)
    ensures BackfaceValue(v0, v1, v2) != 0 ==> (BackfaceValue(v0, v2, v1) < 0 <==> !(BackfaceValue(v0, v1, v2) < 0))
  {
    calc {
      BackfaceValue(v0, v2, v1);
      v1.x * (v0.z * v2.y - v0.y * v2.z) + v1.y * (v0.x * v2.z - v0.z * v2.x) + v1.z * (v0.y * v2.x - v0.x * v2.y);
      -(v2.x * (v0.z * v1.y - v0.y * v1.z) + v2.y * (v0.x * v1.z - v0.z * v1.x) + v2.z * (v0.y * v1.x - v0.x * v1.y));
    }
  }

  // ---------------------------------------------------------------------
  // Extent overlaps
  // ---------------------------------------------------------------------

  /** z_overlap: 0 when one polygon's zmin is at or beyond the other's zmax, -1 otherwise. */
  function ZOverlap(p1: Polygon, p2: Polygon): (r: int)
    ensures r == 0 || r == -1
  {
    if p1.zmin >= p2.zmax || p2.zmin >= p1.zmax then 0 else -1
  }

  /** Whether (x, y) lies in the closed x-y bounding box of p. */
  predicate InBox(p: Polygon, x: int, y: int)
  {
    p.xmin <= x <= p.xmax && p.ymin <= y <= p.ymax
  }

  /** The x-y extent of p is a (possibly single-point) box. */
  predicate ProperBox(p: Polygon)
  {
    p.xmin <= p.xmax && p.ymin <= p.ymax
  }

  /**
   * xy_overlap: for proper boxes, non-zero exactly when the closed x-y
   * bounding boxes share a point, so boxes that only touch overlap.
   */
  function XYOverlap(p1: Polygon, p2: Polygon): (r: int)
    ensures r == 0 || r == -1
    ensures ProperBox(p1) && ProperBox(p2) ==> (r != 0 <==> exists x, y :: InBox(p1, x, y) && InBox(p2, x, y))
  {
    if p1.xmin > p2.xmax || p2.xmin > p1.xmax then 0
    else if p1.ymin > p2.ymax || p2.ymin > p1.ymax then 0
    else
      assert ProperBox(p1) && ProperBox(p2) ==> InBox(p1, Max(p1.xmin, p2.xmin), Max(p1.ymin, p2.ymin));
      -1
  }

  /** Both overlap tests are symmetric in their arguments. */
  lemma OverlapsSymmetric(p1: Polygon, p2: Polygon)
    ensures ZOverlap(p1, p2) == ZOverlap(p2, p1)
    ensures XYOverlap(p1, p2) == XYOverlap(p2, p1)
  {
  }

  /** Whether depth z lies strictly inside the z extent of p. */
  predicate InDepth(p: Polygon, z: real)
  {
    p.zmin as real < z < p.zmax as real
  }

  /**
   * For polygons of some depth, z_overlap is non-zero exactly when their
   * open z extents share a point.
   */
  lemma ZOverlapMeansCommonDepth(p1: Polygon, p2: Polygon)
    requires p1.zmin < p1.zmax && p2.zmin < p2.zmax
    ensures ZOverlap(p1, p2) != 0 <==>
      exists z: real :: InDepth(p1, z) && InDepth(p2, z)
  {
    if ZOverlap(p1, p2) != 0 {
      var lo := Max(p1.zmin, p2.zmin) as real;
      var hi := Min(p1.zmax, p2.zmax) as real;
      var z := (lo + hi) / 2.0;
      assert InDepth(p1, z) && InDepth(p2, z);
    }
  }

  // ---------------------------------------------------------------------
  // Plane-side tests and should_be_swapped
  // ---------------------------------------------------------------------

  /** Every corner of pts is on the non-negative side of pl. */
  predicate AllOnOrAbove(pl: Plane, pts: seq<Point3>)
  {
    forall k :: 0 <= k < |pts| ==> SurfaceAt(pl, pts[k]) >= 0
  }

  /** Every corner of pts is on the non-positive side of pl. */
  predicate AllOnOrBelow(pl: Plane, pts: seq<Point3>)
  {
    forall k :: 0 <= k < |pts| ==> SurfaceAt(pl, pts[k]) <= 0
  }

  /** The plane through the first three corners of p. */
  function PolygonPlane(p: Polygon, vs: seq<Vertex>): Plane
    requires Drawable(p, vs)
  {
    var c := Corners(p, vs);
    PlaneOf(c[0], c[1], c[2])
  }

  /**
   * surface_outside: true (the source's 1) when no corner of poly1 lies on
   * the negative side of poly2's plane; the scan stops at the first that does.
   */
  method SurfaceOutside(poly1: Polygon, verts1: array<Vertex>, poly2: Polygon, verts2: array<Vertex>)
    returns (outside: bool)
    requires poly1.IndicesBelow(verts1.Length)
    requires |poly2.vertex| >= 3 && poly2.IndicesBelow(verts2.Length)
    ensures outside <==> AllOnOrAbove(PolygonPlane(poly2, verts2[..]), Corners(poly1, verts1[..]))
  {
    ghost var pts := Corners(poly1, verts1[..]);
    var q1, q2, q3 := verts2[poly2.vertex[0]], verts2[poly2.vertex[1]], verts2[poly2.vertex[2]];
    var pl := PlaneOf(Point3(q1.ax, q1.ay, q1.az), Point3(q2.ax, q2.ay, q2.az), Point3(q3.ax, q3.ay, q3.az));
    assert pl == PolygonPlane(poly2, verts2[..]);
    var flunked := false;
    var v := 0;
    while v < |poly1.vertex|
      invariant 0 <= v <= |poly1.vertex|
      invariant !flunked && forall k :: 0 <= k < v ==> SurfaceAt(pl, pts[k]) >= 0
    {
      var w := verts1[poly1.vertex[v]];
      if SurfaceAt(pl, Point3(w.ax, w.ay, w.az)) < 0 {
        assert pts[v] == Point3(w.ax, w.ay, w.az);
        flunked := true;
        break;
      }
      v := v + 1;
    }
    outside := !flunked;
  }

  /**
   * surface_inside: true when no corner of poly2 lies on the positive side
   * of poly1's plane.
   */
  method SurfaceInside(poly1: Polygon, verts1: array<Vertex>, poly2: Polygon, verts2: array<Vertex>)
    returns (inside: bool)
    requires |poly1.vertex| >= 3 && poly1.IndicesBelow(verts1.Length)
    requires poly2.IndicesBelow(verts2.Length)
    ensures inside <==> AllOnOrBelow(PolygonPlane(poly1, verts1[..]), Corners(poly2, verts2[..]))
  {
    ghost var pts := Corners(poly2, verts2[..]);
    var q1, q2, q3 := verts1[poly1.vertex[0]], verts1[poly1.vertex[1]], verts1[poly1.vertex[2]];
    var pl := PlaneOf(Point3(q1.ax, q1.ay, q1.az), Point3(q2.ax, q2.ay, q2.az), Point3(q3.ax, q3.ay, q3.az));
    assert pl == PolygonPlane(poly1, verts1[..]);
    var flunked := false;
    var v := 0;
    while v < |poly2.vertex|
      invariant 0 <= v <= |poly2.vertex|
      invariant !flunked && forall k :: 0 <= k < v ==> SurfaceAt(pl, pts[k]) <= 0
    {
      var w := verts2[poly2.vertex[v]];
      if SurfaceAt(pl, Point3(w.ax, w.ay, w.az)) > 0 {
        assert pts[v] == Point3(w.ax, w.ay, w.az);
        flunked := true;
        break;
      }
      v := v + 1;
    }
    inside := !flunked;
  }

  /**
   * should_be_swapped: non-zero only when the bounding boxes overlap and
   * both plane-side tests fail.
   */
  method ShouldBeSwapped(poly1: Polygon, verts1: array<Vertex>, poly2: Polygon, verts2: array<Vertex>)
    returns (r: int)
    requires |poly1.vertex| >= 3 && poly1.IndicesBelow(verts1.Length)
    requires |poly2.vertex| >= 3 && poly2.IndicesBelow(verts2.Length)
    ensures r == 0 || r == -1
    ensures r != 0 <==>
      XYOverlap(poly1, poly2) != 0 &&
      !AllOnOrAbove(PolygonPlane(poly2, verts2[..]), Corners(poly1, verts1[..])) &&
      !AllOnOrBelow(PolygonPlane(poly1, verts1[..]), Corners(poly2, verts2[..]))
    ensures XYOverlap(poly1, poly2) == 0 ==> r == 0
  {
    if XYOverlap(poly1, poly2) == 0 {
      return 0;
    }
    var outside := SurfaceOutside(poly1, verts1, poly2, verts2);
    if outside {
      return 0;
    }
    var inside := SurfaceInside(poly1, verts1, poly2, verts2);
    if inside {
      return 0;
    }
    return -1;
  }

  /** A triangle never needs swapping with itself: it lies in its own plane. */
  lemma TriangleNotSwappedWithItself(p: Polygon, vs: seq<Vertex>)
    requires |p.vertex| == 3 && p.IndicesBelow(|vs|)
    ensures AllOnOrAbove(PolygonPlane(p, vs), Corners(p, vs))
    ensures AllOnOrBelow(PolygonPlane(p, vs), Corners(p, vs))
  {
    var c := Corners(p, vs);
    PlaneThroughCorners(c[0], c[1], c[2]);
  }

  // ---------------------------------------------------------------------
  // z_sort
  // ---------------------------------------------------------------------

  /** Distances never increase along s: farthest first. */
  predicate SortedByDistance(s: seq<Polygon>)
  {
    forall i, j :: 0 <= i < j < |s| ==> s[i].distance >= s[j].distance
  }

  /** Every adjacent pair of the first n entries is in order. */
  predicate AdjacentInOrder(s: seq<Polygon>, n: int)
    requires 0 <= n <= |s|
  {
    forall i :: 0 <= i < n - 1 ==> s[i].distance >= s[i + 1].distance
  }

  lemma {:induction false} AdjacentInOrderSorted(s: seq<Polygon>, n: int)
    requires 0 <= n <= |s| && AdjacentInOrder(s, n)
    ensures SortedByDistance(s[..n])
  {
    if n > 1 {
      AdjacentInOrderSorted(s, n - 1);
      forall i, j | 0 <= i < j < n
        ensures s[i].distance >= s[j].distance
      {
        if j == n - 1 && i < n - 2 {
          assert s[i].distance >= s[n - 2].distance;
        }
      }
    }
  }

  /**
   * The last k of the first n entries are in order, and each of them is no
   * farther than any entry before them: they are where the sort leaves them.
   */
  ghost predicate Settled(s: seq<Polygon>, n: int, k: int)
    requires 0 <= k <= n <= |s|
  {
    (forall i, j :: n - k <= i < j < n ==> s[i].distance >= s[j].distance) &&
    (forall i, j :: 0 <= i < n - k <= j < n ==> s[i].distance >= s[j].distance)
  }

  /** s with entries i and i + 1 exchanged. */
  function Exchanged(s: seq<Polygon>, i: int): (t: seq<Polygon>)
    requires 0 <= i && i + 1 < |s|
    ensures |t| == |s| && multiset(t) == multiset(s)
    ensures t[i] == s[i + 1] && t[i + 1] == s[i]
    ensures forall j :: 0 <= j < |s| && j != i && j != i + 1 ==> t[j] == s[j]
  {
    s[i := s[i + 1]][i + 1 := s[i]]
  }

  /** Exchanges entries i and i + 1. */
  method Swap(a: array<Polygon>, i: int)
    requires 0 <= i && i + 1 < a.Length
    modifies a
    ensures a[..] == Exchanged(old(a[..]), i)
  {
    var temp := a[i];
    a[i] := a[i + 1];
    a[i + 1] := temp;
  }

  /**
   * What holds after the first i pairs of a sweep over the first n entries,
   * the last k of which are settled: settled entries stay settled, the
   * entry at i is the nearest seen so far until it reaches the settled
   * part, an exchange means at least two entries were unsettled, and with
   * no exchange every pair passed was in order.
   */
  ghost predicate SweepInvariant(s: seq<Polygon>, n: int, k: int, i: int, swapped: bool)
    requires 0 <= k <= n <= |s|
  {
    0 <= i <= n && (n >= 1 ==> i <= n - 1) &&
    Settled(s, n, k) &&
    (i < n - k ==> forall j :: 0 <= j < i ==> s[j].distance >= s[i].distance) &&
    (n - k >= 1 && i >= n - k ==> forall j :: 0 <= j < n - k - 1 ==> s[j].distance >= s[n - k - 1].distance) &&
    (swapped ==> n - k >= 2) &&
    (!swapped ==> forall j :: 0 <= j < i ==> s[j].distance >= s[j + 1].distance)
  }

  /** A pair that reaches into the settled entries is in order. */
  lemma SettledPairInOrder(s: seq<Polygon>, n: int, k: int, i: int)
    requires 0 <= k <= n <= |s| && 0 <= i < n - 1
    requires Settled(s, n, k)
    ensures i + 1 >= n - k ==> s[i].distance >= s[i + 1].distance
  {
  }

  /** A pair out of order lies wholly before the settled entries; exchanging it keeps the invariant. */
  lemma SweepExchanges(s: seq<Polygon>, n: int, k: int, i: int, swapped: bool)
    requires 0 <= k <= n <= |s| && 0 <= i < n - 1
    requires SweepInvariant(s, n, k, i, swapped)
    requires s[i].distance < s[i + 1].distance
    ensures i + 1 < n - k
    ensures SweepInvariant(Exchanged(s, i), n, k, i + 1, true)
  {
    SettledPairInOrder(s, n, k, i);
    var t := Exchanged(s, i);
    var p := n - k;
    forall a, b | 0 <= a < p <= b < n
      ensures t[a].distance >= t[b].distance
    {
      if a == i {
        assert t[a] == s[i + 1];
      } else if a == i + 1 {
        assert t[a] == s[i];
      }
    }
  }

  /** A pair in order is left alone and the invariant moves past it. */
  lemma SweepKeeps(s: seq<Polygon>, n: int, k: int, i: int, swapped: bool)
    requires 0 <= k <= n <= |s| && 0 <= i < n - 1
    requires SweepInvariant(s, n, k, i, swapped)
    requires s[i].distance >= s[i + 1].distance
    ensures SweepInvariant(s, n, k, i + 1, swapped)
  {
  }

  /** At the end of a sweep one more entry is settled. */
  lemma SweepSettles(s: seq<Polygon>, n: int, k: int, i: int, swapped: bool)
    requires 0 <= k < n <= |s| && !(i < n - 1)
    requires SweepInvariant(s, n, k, i, swapped)
    ensures Settled(s, n, k + 1)
  {
    var p := n - k;
    forall a, b | 0 <= a < p - 1 <= b < n
      ensures s[a].distance >= s[b].distance
    {
      if b >= p {
        assert s[a].distance >= s[b].distance;
      } else if i < p {
        assert s[a].distance >= s[i].distance;
      }
    }
  }

  /** Compares entries i and i + 1 and exchanges them when the nearer comes first. */
  method SweepStep(a: array<Polygon>, n: int, ghost k: int, i: int, swapped: bool) returns (swapped': bool)
    requires 0 <= k <= n <= a.Length && 0 <= i < n - 1
    requires SweepInvariant(a[..], n, k, i, swapped)
    modifies a
    ensures SweepInvariant(a[..], n, k, i + 1, swapped')
    ensures multiset(a[..]) == multiset(old(a[..]))
    ensures a[n..] == old(a[n..])
  {
    if a[i].distance < a[i + 1].distance {
      SweepExchanges(a[..], n, k, i, swapped);
      Swap(a, i);
      swapped' := true;
    } else {
      SweepKeeps(a[..], n, k, i, swapped);
      swapped' := swapped;
    }
  }

  /**
   * One sweep of z_sort over the first n entries, exchanging every adjacent
   * pair whose distances increase. A sweep moves the nearest unsettled
   * entry down behind the others, and exchanges nothing among settled entries.
   */
  method BubblePass(a: array<Polygon>, n: int, ghost k: int) returns (swapped: bool)
    requires 0 <= k <= n <= a.Length
    requires Settled(a[..], n, k)
    modifies a
    ensures multiset(a[..]) == multiset(old(a[..]))
    ensures a[n..] == old(a[n..])
    ensures Settled(a[..], n, k)
    ensures k < n ==> Settled(a[..], n, k + 1)
    ensures swapped ==> k + 2 <= n
    ensures !swapped ==> AdjacentInOrder(a[..], n)
  {
    swapped := false;
    var i := 0;
    while i < n - 1
      invariant SweepInvariant(a[..], n, k, i, swapped)
      invariant multiset(a[..]) == multiset(old(a[..]))
      invariant a[n..] == old(a[n..])
    {
      swapped := SweepStep(a, n, k, i, swapped);
      i := i + 1;
    }
    if k < n {
      SweepSettles(a[..], n, k, i, swapped);
    }
  }

  /**
   * z_sort: repeated sweeps until one exchanges nothing. The list ends up a
   * permutation of what it was, farthest polygon first; the entries past
   * number_of_polygons are not touched.
   */
  method ZSort(list: PolygonList)
    requires 0 <= list.numberOfPolygons <= list.polygon.Length
    modifies list.polygon
    ensures SortedByDistance(list.polygon[..list.numberOfPolygons])
    ensures multiset(list.polygon[..]) == multiset(old(list.polygon[..]))
    ensures list.polygon[list.numberOfPolygons..] == old(list.polygon[list.numberOfPolygons..])
  {
    var a, n := list.polygon, list.numberOfPolygons;
    var swapflag := true;
    ghost var k := 0;
    while swapflag
      invariant 0 <= k <= n
      invariant multiset(a[..]) == multiset(old(a[..]))
      invariant a[n..] == old(a[n..])
      invariant Settled(a[..], n, k)
      invariant !swapflag ==> AdjacentInOrder(a[..], n)
      decreases swapflag, n - k
    {
      swapflag := BubblePass(a, n, k);
      if k < n {
        k := k + 1;
      }
    }
    AdjacentInOrderSorted(a[..], n);
  }
}
