/**
 * The clipping stages of src/view.h: Sutherland-Hodgman clipping of a
 * polygon against the near plane z = 2 (zclip) and of the projected
 * polygon against the four sides of the viewport (xyclip), both done in
 * the fixed 20-slot vertex buffer of a clipped polygon.
 *
 * Each stage is specified by a function on the list of corners; the
 * methods are proved to leave exactly that list in the buffer. The float
 * interpolation of crossing points is computed in exact real arithmetic
 * and truncated to an integer when stored, as the assignment to a long does.
 */
module ViewClip {
  import opened Common
  import opened Poly

  /** Number of vertex slots in a clipped polygon. */
  const CLIP_CAPACITY: int := 20

  /** The near plane: points with z below this are behind the viewer's front plane. */
  const ZMIN: int := 2

  /** A polygon being clipped: a colour, a bounding box and 20 vertex slots. */
  class ClippedPolygon {
    var numberOfVertices: int
    var color: int
    const vertex: array<ClipVertex>
    var zmax: int
    var zmin: int
    var xmax: int
    var xmin: int
    var ymax: int
    var ymin: int

    ghost predicate Valid()
    {
      vertex.Length == CLIP_CAPACITY
    }

    constructor ()
      ensures Valid() && fresh(vertex) && numberOfVertices == 0
    {
      numberOfVertices := 0;
      vertex := new ClipVertex[CLIP_CAPACITY];
    }
  }

  // ---------------------------------------------------------------------
  // zclip
  // ---------------------------------------------------------------------

  predicate InFront(p: Point3)
  {
    p.z >= ZMIN
  }

  /** Where the edge from a to b crosses the near plane. */
  function ZCrossing(a: Point3, b: Point3): (c: Point3)
    requires InFront(a) != InFront(b)
    ensures c.z == ZMIN
  {
    var t := (ZMIN - a.z) as real / (b.z - a.z) as real;
    Point3(Trunc(a.x as real + (b.x - a.x) as real * t), Trunc(a.y as real + (b.y - a.y) as real * t), ZMIN)
  }

  /** What the edge from a to b contributes to the near-clipped polygon. */
  function ZEdge(a: Point3, b: Point3): (e: seq<Point3>)
    ensures |e| <= 2
  {
    if InFront(a) && InFront(b) then [b]
    else if !InFront(a) && !InFront(b) then []
    else if InFront(a) then [ZCrossing(a, b)]
    else [ZCrossing(a, b), b]
  }

  /** The corner before corner i, the last one coming before the first. */
  function Prev<P>(pts: seq<P>, i: int): P
    requires 0 <= i < |pts|
  {
    if i == 0 then pts[|pts| - 1] else pts[i - 1]
  }

  /** The near-clipped corners that the edges ending at corners 0..i-1 contribute. */
  function ZClippedUpTo(pts: seq<Point3>, i: int): seq<Point3>
    requires 0 <= i <= |pts|
  {
    if i == 0 then [] else ZClippedUpTo(pts, i - 1) + ZEdge(Prev(pts, i - 1), pts[i - 1])
  }

  /** The polygon pts clipped against the near plane. */
  function ZClipped(pts: seq<Point3>): seq<Point3>
  {
    ZClippedUpTo(pts, |pts|)
  }

  lemma {:induction false} ZClippedGrows(pts: seq<Point3>, i: int, j: int)
    requires 0 <= i <= j <= |pts|
    ensures |ZClippedUpTo(pts, i)| <= |ZClippedUpTo(pts, j)|
    decreases j
  {
    if i < j {
      ZClippedGrows(pts, i, j - 1);
    }
  }

  /** A polygon entirely in front of the near plane comes through unchanged, from corner 0 on. */
  lemma {:induction false} ZClipAllInFront(pts: seq<Point3>)
    requires forall k :: 0 <= k < |pts| ==> InFront(pts[k])
    ensures ZClipped(pts) == pts
  {
    ZClipAllInFrontUpTo(pts, |pts|);
  }

  lemma {:induction false} ZClipAllInFrontUpTo(pts: seq<Point3>, i: int)
    requires 0 <= i <= |pts|
    requires forall k :: 0 <= k < |pts| ==> InFront(pts[k])
    ensures ZClippedUpTo(pts, i) == pts[..i]
  {
    if i > 0 {
      ZClipAllInFrontUpTo(pts, i - 1);
      assert pts[..i] == pts[..i - 1] + [pts[i - 1]];
    }
  }

  /** A polygon entirely behind the near plane is clipped away. */
  lemma {:induction false} ZClipAllBehind(pts: seq<Point3>)
    requires forall k :: 0 <= k < |pts| ==> !InFront(pts[k])
    ensures ZClipped(pts) == []
  {
    ZClipAllBehindUpTo(pts, |pts|);
  }

  lemma {:induction false} ZClipAllBehindUpTo(pts: seq<Point3>, i: int)
    requires 0 <= i <= |pts|
    requires forall k :: 0 <= k < |pts| ==> !InFront(pts[k])
    ensures ZClippedUpTo(pts, i) == []
  {
    if i > 0 {
      ZClipAllBehindUpTo(pts, i - 1);
    }
  }

  /**
   * Every corner of the clipped polygon is in front of the near plane, and
   * is either a corner of the input or a crossing lying exactly on the
   * plane; there are at most twice as many corners as before.
   */
  lemma {:induction false} ZClipBounds(pts: seq<Point3>, i: int)
    requires 0 <= i <= |pts|
    ensures |ZClippedUpTo(pts, i)| <= 2 * i
    ensures forall k :: 0 <= k < |ZClippedUpTo(pts, i)| ==> InFront(ZClippedUpTo(pts, i)[k])
    ensures forall k :: 0 <= k < |ZClippedUpTo(pts, i)| ==>
      ZClippedUpTo(pts, i)[k] in pts || ZClippedUpTo(pts, i)[k].z == ZMIN
  {
    if i > 0 {
      ZClipBounds(pts, i - 1);
    }
  }

  /** slots with the x, y, z of its first |pts| entries replaced by pts. */
  function PlacedXYZ(slots: seq<ClipVertex>, pts: seq<Point3>): (r: seq<ClipVertex>)
    requires |pts| <= |slots|
    ensures |r| == |slots|
  {
    seq(|slots|, k requires 0 <= k < |slots| =>
      if k < |pts| then slots[k].(x := pts[k].x, y := pts[k].y, z := pts[k].z) else slots[k])
  }

  /**
   * zclip: the colour and (with the source's repeated overwriting) the
   * bounding box are copied, and the slots receive the near-clipped corners.
   */
  method ZClip(polygon: Polygon, verts: array<Vertex>, clip: ClippedPolygon)
    requires clip.Valid() && polygon.IndicesBelow(verts.Length)
    requires |ZClipped(Corners(polygon, verts[..]))| <= CLIP_CAPACITY
    modifies clip, clip.vertex
    ensures clip.color == polygon.color
    ensures clip.xmin == polygon.ymin && clip.xmax == polygon.ymax
    ensures clip.ymin == old(clip.ymin) && clip.ymax == old(clip.ymax)
    ensures clip.zmin == old(clip.zmin) && clip.zmax == old(clip.zmax)
    ensures clip.numberOfVertices == |ZClipped(Corners(polygon, verts[..]))|
    ensures clip.vertex[..] == PlacedXYZ(old(clip.vertex[..]), ZClipped(Corners(polygon, verts[..])))
  {
    clip.color := polygon.color;
    clip.xmin := polygon.xmin;
    clip.xmax := polygon.xmax;
    clip.xmin := polygon.zmin;
    clip.xmax := polygon.zmax;
    clip.xmin := polygon.ymin;
    clip.xmax := polygon.ymax;

    var cp := NearClipSlots(polygon, verts, clip);
    clip.numberOfVertices := cp;
  }

  /** The loop of zclip: the near-clipped corners go into the x, y, z of the first slots. */
  method NearClipSlots(polygon: Polygon, verts: array<Vertex>, clip: ClippedPolygon) returns (cp: int)
    requires clip.Valid() && polygon.IndicesBelow(verts.Length)
    requires |ZClipped(Corners(polygon, verts[..]))| <= CLIP_CAPACITY
    modifies clip.vertex
    ensures cp == |ZClipped(Corners(polygon, verts[..]))|
    ensures clip.vertex[..] == PlacedXYZ(old(clip.vertex[..]), ZClipped(Corners(polygon, verts[..])))
  {
    ghost var pts := Corners(polygon, verts[..]);
    ghost var before := clip.vertex[..];
    cp := 0;
    var n := |polygon.vertex|;
    var v1 := n - 1;
    for v2 := 0 to n
      modifies clip.vertex
      invariant v1 == if v2 == 0 then n - 1 else v2 - 1
      invariant cp == |ZClippedUpTo(pts, v2)| <= CLIP_CAPACITY
      invariant clip.vertex[..] == PlacedXYZ(before, ZClippedUpTo(pts, v2))
    {
      hide PlacedXYZ;
      ZClippedGrows(pts, v2 + 1, n);
      var w1 := verts[polygon.vertex[v1]];
      var w2 := verts[polygon.vertex[v2]];
      var a, b := Point3(w1.ax, w1.ay, w1.az), Point3(w2.ax, w2.ay, w2.az);
      assert a == Prev(pts, v2) && b == pts[v2];
      ghost var done := ZClippedUpTo(pts, v2);
      var e := ZEdgeOutput(a, b);
      PutXYZ(clip, cp, e, before, done);
      cp := cp + |e|;
      v1 := v2;
    }
  }

  /** The four case tests of one edge against the near plane, in the source's order. */
  method ZEdgeOutput(a: Point3, b: Point3) returns (e: seq<Point3>)
    ensures e == ZEdge(a, b)
  {
    e := [];
    if a.z >= ZMIN && b.z >= ZMIN {
      // Entirely in front: keep the end point.
      e := e + [b];
    }
    if a.z >= ZMIN && b.z < ZMIN {
      // Leaving: keep the crossing.
      e := e + [ZCrossing(a, b)];
    }
    if a.z < ZMIN && b.z >= ZMIN {
      // Entering: keep the crossing, then the end point.
      e := e + [ZCrossing(a, b), b];
    }
  }

  lemma PlacedXYZStep(slots: seq<ClipVertex>, done: seq<Point3>, p: Point3)
    requires |done| < |slots|
    ensures PlacedXYZ(slots, done)[|done| := PlacedXYZ(slots, done)[|done|].(x := p.x, y := p.y, z := p.z)]
         == PlacedXYZ(slots, done + [p])
  {
  }

  /** Writes the corners e into the (x, y, z) of the slots from |done| on. */
  method PutXYZ(clip: ClippedPolygon, cp: int, e: seq<Point3>, ghost before: seq<ClipVertex>, ghost done: seq<Point3>)
    requires clip.Valid() && |before| == CLIP_CAPACITY && cp == |done| && cp + |e| <= CLIP_CAPACITY
    requires clip.vertex[..] == PlacedXYZ(before, done)
    modifies clip.vertex
    ensures clip.vertex[..] == PlacedXYZ(before, done + e)
  {
    for t := 0 to |e|
      invariant clip.vertex[..] == PlacedXYZ(before, done + e[..t])
    {
      PlacedXYZStep(before, done + e[..t], e[t]);
      clip.vertex[cp + t] := clip.vertex[cp + t].(x := e[t].x, y := e[t].y, z := e[t].z);
      assert done + e[..t + 1] == (done + e[..t]) + [e[t]];
    }
    assert e[..|e|] == e;
  }

  // ---------------------------------------------------------------------
  // xyclip
  // ---------------------------------------------------------------------

  datatype Point2 = Point2(x: int, y: int)

  /** The four sides of the viewport, in the order xyclip clips against them. */
  datatype Side = Left | Right | Top | Bottom

  /** Whether p is on the kept side of the viewport edge at `bound`. */
  predicate Inside(side: Side, p: Point2, bound: int)
  {
    match side
    case Left => p.x >= bound
    case Right => p.x <= bound
    case Top => p.y >= bound
    case Bottom => p.y <= bound
  }

  /**
   * Where the edge from a to b crosses the viewport edge: it carries the
   * boundary coordinate exactly. A vertical edge crossing the top or the
   * bottom keeps the x of a.
   */
  function Crossing(side: Side, a: Point2, b: Point2, bound: int): (c: Point2)
    requires Inside(side, a, bound) != Inside(side, b, bound)
    ensures side.Left? || side.Right? ==> c.x == bound
    ensures side.Top? || side.Bottom? ==> c.y == bound
  {
    if side.Left? || side.Right? then
      var m := (b.y - a.y) as real / (b.x - a.x) as real;
      Point2(bound, Trunc(a.y as real + m * (bound - a.x) as real))
    else if b.x - a.x != 0 then
      var m := (b.y - a.y) as real / (b.x - a.x) as real;
      NonZeroSlope(b.y - a.y, b.x - a.x);
      Point2(Trunc(a.x as real + (bound - a.y) as real / m), bound)
    else
      Point2(a.x, bound)
  }

  lemma NonZeroSlope(dy: int, dx: int)
    requires dy != 0 && dx != 0
    ensures dy as real / dx as real != 0.0
  {
    if dy as real / dx as real == 0.0 {
      assert dy as real == (dy as real / dx as real) * dx as real;
    }
  }

  /** a + t·(b − a) for t in [0, 1] lies between a and b. */
  lemma Interpolated(a: int, b: int, t: real)
    requires 0.0 <= t <= 1.0
    ensures Min(a, b) as real <= a as real + (b - a) as real * t <= Max(a, b) as real
  {
    var d := (b - a) as real;
    assert d * t + d * (1.0 - t) == d;
    if a <= b {
      RealProductNonNegative(d, t);
      RealProductNonNegative(d, 1.0 - t);
    } else {
      RealProductNonNegative(-d, t);
      RealProductNonNegative(-d, 1.0 - t);
    }
  }

  lemma RealProductNonNegative(x: real, y: real)
    requires 0.0 <= x && 0.0 <= y
    ensures 0.0 <= x * y
  {
  }

  /** The fraction of the way from p to q at which `bound` lies, when it lies between them. */
  lemma Fraction(p: int, q: int, bound: int) returns (t: real)
    requires p != q && Between(bound, p, q)
    ensures 0.0 <= t <= 1.0 && t * (q - p) as real == (bound - p) as real
  {
    t := (bound - p) as real / (q - p) as real;
  }

  lemma QuotientTimes(p: real, q: real)
    requires q != 0.0
    ensures (p / q) * q == p
  {
  }

  lemma ScaledFraction(m: real, d: real, t: real, u: real)
    requires u == t * d
    ensures m * u == (m * d) * t
  {
  }

  /** Dividing by the slope dy/dx is taking the same fraction of dx as u is of dy. */
  lemma OverSlope(u: real, dx: real, dy: real, t: real)
    requires dx != 0.0 && dy != 0.0 && u == t * dy
    ensures u / (dy / dx) == dx * t
  {
    var m := dy / dx;
    QuotientTimes(dy, dx);
    assert m != 0.0;
    var q := u / m;
    QuotientTimes(u, m);
    assert q * m == (dx * t) * m;
    CancelFactor(q, dx * t, m);
  }

  lemma CancelFactor(x: real, y: real, m: real)
    requires m != 0.0 && x * m == y * m
    ensures x == y
  {
    assert (x - y) * m == 0.0;
  }

  /** Where the line from (x0, y0) to (x1, y1) meets column `bound`, before truncation, between y0 and y1. */
  lemma HeightAt(x0: int, y0: int, x1: int, y1: int, bound: int)
    requires x0 != x1 && Between(bound, x0, x1)
    ensures Min(y0, y1) as real <= y0 as real + (y1 - y0) as real / (x1 - x0) as real * (bound - x0) as real <= Max(y0, y1) as real
  {
    var t := Fraction(x0, x1, bound);
    var m := (y1 - y0) as real / (x1 - x0) as real;
    QuotientTimes((y1 - y0) as real, (x1 - x0) as real);
    ScaledFraction(m, (x1 - x0) as real, t, (bound - x0) as real);
    Interpolated(y0, y1, t);
  }

  /** Where the line from (x0, y0) to (x1, y1) meets row `bound`, before truncation, between x0 and x1. */
  lemma WidthAt(x0: int, y0: int, x1: int, y1: int, bound: int)
    requires x0 != x1 && y0 != y1 && Between(bound, y0, y1)
    ensures Min(x0, x1) as real <= x0 as real + (bound - y0) as real / ((y1 - y0) as real / (x1 - x0) as real) <= Max(x0, x1) as real
  {
    var t := Fraction(y0, y1, bound);
    OverSlope((bound - y0) as real, (x1 - x0) as real, (y1 - y0) as real, t);
    Interpolated(x0, x1, t);
  }

  /** The crossing of a left or right edge lies on the edge from a to b. */
  lemma CrossingBetweenColumns(side: Side, a: Point2, b: Point2, bound: int)
    requires side.Left? || side.Right?
    requires Inside(side, a, bound) != Inside(side, b, bound)
    ensures Between(Crossing(side, a, b, bound).x, a.x, b.x)
    ensures Between(Crossing(side, a, b, bound).y, a.y, b.y)
  {
    hide Crossing;
    ColumnCrossing(side, a, b, bound);
    HeightAt(a.x, a.y, b.x, b.y, bound);
    TruncBetween(a.y as real + (b.y - a.y) as real / (b.x - a.x) as real * (bound - a.x) as real, a.y, b.y);
  }

  /** The crossing of a left or right edge, written out. */
  lemma ColumnCrossing(side: Side, a: Point2, b: Point2, bound: int)
    requires side.Left? || side.Right?
    requires Inside(side, a, bound) != Inside(side, b, bound)
    ensures Between(bound, a.x, b.x) && a.x != b.x
    ensures Crossing(side, a, b, bound)
         == Point2(bound, Trunc(a.y as real + (b.y - a.y) as real / (b.x - a.x) as real * (bound - a.x) as real))
  {
  }

  /** The crossing of a top or bottom edge lies on the edge from a to b. */
  lemma CrossingBetweenRows(side: Side, a: Point2, b: Point2, bound: int)
    requires side.Top? || side.Bottom?
    requires Inside(side, a, bound) != Inside(side, b, bound)
    ensures Between(Crossing(side, a, b, bound).x, a.x, b.x)
    ensures Between(Crossing(side, a, b, bound).y, a.y, b.y)
  {
    hide Crossing;
    RowCrossing(side, a, b, bound);
    if b.x - a.x != 0 {
      WidthAt(a.x, a.y, b.x, b.y, bound);
      TruncBetween(a.x as real + (bound - a.y) as real / ((b.y - a.y) as real / (b.x - a.x) as real), a.x, b.x);
    }
  }

  /** The crossing of a top or bottom edge, written out. */
  lemma RowCrossing(side: Side, a: Point2, b: Point2, bound: int)
    requires side.Top? || side.Bottom?
    requires Inside(side, a, bound) != Inside(side, b, bound)
    ensures Between(bound, a.y, b.y) && a.y != b.y
    ensures b.x == a.x ==> Crossing(side, a, b, bound) == Point2(a.x, bound)
    ensures b.x != a.x ==> (b.y - a.y) as real / (b.x - a.x) as real != 0.0
    ensures b.x != a.x ==>
      (Crossing(side, a, b, bound)
       == Point2(Trunc(a.x as real + (bound - a.y) as real / ((b.y - a.y) as real / (b.x - a.x) as real)), bound))
  {
    if b.x != a.x {
      NonZeroSlope(b.y - a.y, b.x - a.x);
    }
  }

  /**
   * A crossing lies on the edge between its end points: each of its
   * coordinates is between theirs.
   */
  lemma CrossingBetween(side: Side, a: Point2, b: Point2, bound: int)
    requires Inside(side, a, bound) != Inside(side, b, bound)
    ensures Between(Crossing(side, a, b, bound).x, a.x, b.x)
    ensures Between(Crossing(side, a, b, bound).y, a.y, b.y)
  {
    if side.Left? || side.Right? {
      CrossingBetweenColumns(side, a, b, bound);
    } else {
      CrossingBetweenRows(side, a, b, bound);
    }
  }

  /** What the edge from a to b contributes to one pass. */
  function PassEdge(side: Side, a: Point2, b: Point2, bound: int): (e: seq<Point2>)
    ensures |e| <= 2
  {
    if Inside(side, a, bound) && Inside(side, b, bound) then [b]
    else if !Inside(side, a, bound) && !Inside(side, b, bound) then []
    else if Inside(side, a, bound) then [Crossing(side, a, b, bound)]
    else [Crossing(side, a, b, bound), b]
  }

  function PassUpTo(side: Side, pts: seq<Point2>, bound: int, i: int): seq<Point2>
    requires 0 <= i <= |pts|
  {
    if i == 0 then [] else PassUpTo(side, pts, bound, i - 1) + PassEdge(side, Prev(pts, i - 1), pts[i - 1], bound)
  }

  /** One Sutherland-Hodgman pass: pts clipped against one viewport edge. */
  function Pass(side: Side, pts: seq<Point2>, bound: int): seq<Point2>
  {
    PassUpTo(side, pts, bound, |pts|)
  }

  lemma {:induction false} PassGrows(side: Side, pts: seq<Point2>, bound: int, i: int, j: int)
    requires 0 <= i <= j <= |pts|
    ensures |PassUpTo(side, pts, bound, i)| <= |PassUpTo(side, pts, bound, j)|
    decreases j
  {
    if i < j {
      PassGrows(side, pts, bound, i, j - 1);
    }
  }

  /**
   * A pass keeps only the inside of its edge, and every corner it emits is
   * either an input corner or a crossing on the edge itself.
   */
  lemma {:induction false} PassInside(side: Side, pts: seq<Point2>, bound: int, i: int)
    requires 0 <= i <= |pts|
    ensures forall k :: 0 <= k < |PassUpTo(side, pts, bound, i)| ==>
      Inside(side, PassUpTo(side, pts, bound, i)[k], bound)
    ensures forall k :: 0 <= k < |PassUpTo(side, pts, bound, i)| ==>
      var c := PassUpTo(side, pts, bound, i)[k];
      c in pts || (if side.Left? || side.Right? then c.x == bound else c.y == bound)
  {
    if i > 0 {
      PassInside(side, pts, bound, i - 1);
    }
  }

  /** A polygon wholly inside the edge passes through unchanged. */
  lemma {:induction false} PassAllInside(side: Side, pts: seq<Point2>, bound: int, i: int)
    requires 0 <= i <= |pts|
    requires forall k :: 0 <= k < |pts| ==> Inside(side, pts[k], bound)
    ensures PassUpTo(side, pts, bound, i) == pts[..i]
  {
    if i > 0 {
      PassAllInside(side, pts, bound, i - 1);
      assert pts[..i] == pts[..i - 1] + [pts[i - 1]];
    }
  }

  /** The four passes in xyclip's order: left, right, top, bottom. */
  function XYClipped(pts: seq<Point2>, xmin: int, ymin: int, xmax: int, ymax: int): seq<Point2>
  {
    Pass(Bottom, Pass(Top, Pass(Right, Pass(Left, pts, xmin), xmax), ymin), ymax)
  }

  /** A point between two points on the kept side of an edge is on that side too. */
  lemma BetweenInside(side: Side, a: Point2, b: Point2, c: Point2, bound: int)
    requires Inside(side, a, bound) && Inside(side, b, bound)
    requires Between(c.x, a.x, b.x) && Between(c.y, a.y, b.y)
    ensures Inside(side, c, bound)
  {
  }

  /**
   * A pass keeps every other half-plane its input lies in: the corners it
   * emits are input corners or points on input edges.
   */
  lemma {:induction false} PassKeepsHalf(side: Side, pts: seq<Point2>, bound: int, i: int, side2: Side, bound2: int)
    requires 0 <= i <= |pts|
    requires forall k :: 0 <= k < |pts| ==> Inside(side2, pts[k], bound2)
    ensures forall k :: 0 <= k < |PassUpTo(side, pts, bound, i)| ==> Inside(side2, PassUpTo(side, pts, bound, i)[k], bound2)
  {
    if i > 0 {
      PassKeepsHalf(side, pts, bound, i - 1, side2, bound2);
      var a, b := Prev(pts, i - 1), pts[i - 1];
      assert Inside(side2, a, bound2);
      if Inside(side, a, bound) != Inside(side, b, bound) {
        CrossingBetween(side, a, b, bound);
        BetweenInside(side2, a, b, Crossing(side, a, b, bound), bound2);
      }
    }
  }

  /** One pass of the four keeps the halves the earlier ones established, and adds its own. */
  lemma PassWindow(side: Side, pts: seq<Point2>, bound: int, xlo: Option<int>, xhi: Option<int>, ylo: Option<int>, yhi: Option<int>)
    requires forall k :: 0 <= k < |pts| ==> InOptWindow(pts[k], xlo, xhi, ylo, yhi)
    ensures forall k :: 0 <= k < |Pass(side, pts, bound)| ==> InOptWindow(Pass(side, pts, bound)[k], xlo, xhi, ylo, yhi)
    ensures forall k :: 0 <= k < |Pass(side, pts, bound)| ==> Inside(side, Pass(side, pts, bound)[k], bound)
  {
    PassInside(side, pts, bound, |pts|);
    if xlo.Some? {
      PassKeepsHalf(side, pts, bound, |pts|, Left, xlo.value);
    }
    if xhi.Some? {
      PassKeepsHalf(side, pts, bound, |pts|, Right, xhi.value);
    }
    if ylo.Some? {
      PassKeepsHalf(side, pts, bound, |pts|, Top, ylo.value);
    }
    if yhi.Some? {
      PassKeepsHalf(side, pts, bound, |pts|, Bottom, yhi.value);
    }
  }

  /** p is on the kept side of every edge that is given. */
  predicate InOptWindow(p: Point2, xlo: Option<int>, xhi: Option<int>, ylo: Option<int>, yhi: Option<int>)
  {
    (xlo.Some? ==> Inside(Left, p, xlo.value)) && (xhi.Some? ==> Inside(Right, p, xhi.value)) &&
    (ylo.Some? ==> Inside(Top, p, ylo.value)) && (yhi.Some? ==> Inside(Bottom, p, yhi.value))
  }

  /** Every corner xyclip leaves lies in the viewport [xmin, xmax] × [ymin, ymax]. */
  lemma XYClippedInWindow(pts: seq<Point2>, xmin: int, ymin: int, xmax: int, ymax: int)
    ensures forall k :: 0 <= k < |XYClipped(pts, xmin, ymin, xmax, ymax)| ==>
      var p := XYClipped(pts, xmin, ymin, xmax, ymax)[k];
      xmin <= p.x <= xmax && ymin <= p.y <= ymax
  {
    var l := Pass(Left, pts, xmin);
    PassWindow(Left, pts, xmin, None, None, None, None);
    var r := Pass(Right, l, xmax);
    PassWindow(Right, l, xmax, Some(xmin), None, None, None);
    var t := Pass(Top, r, ymin);
    PassWindow(Top, r, ymin, Some(xmin), Some(xmax), None, None);
    PassWindow(Bottom, t, ymax, Some(xmin), Some(xmax), Some(ymin), None);
  }

  /** No pass of xyclip needs more than the 20 slots. */
  predicate XYFits(pts: seq<Point2>, xmin: int, ymin: int, xmax: int, ymax: int)
  {
    var l := Pass(Left, pts, xmin);
    var r := Pass(Right, l, xmax);
    var t := Pass(Top, r, ymin);
    |l| <= CLIP_CAPACITY && |r| <= CLIP_CAPACITY && |t| <= CLIP_CAPACITY &&
    |Pass(Bottom, t, ymax)| <= CLIP_CAPACITY
  }

  /** The (x, y) pairs of the first n slots. */
  function SlotsXY(slots: seq<ClipVertex>, n: int): (r: seq<Point2>)
    requires 0 <= n <= |slots|
    ensures |r| == n
  {
    seq(n, k requires 0 <= k < n => Point2(slots[k].x, slots[k].y))
  }

  /** The (x1, y1) pairs of the first n slots. */
  function SlotsX1Y1(slots: seq<ClipVertex>, n: int): (r: seq<Point2>)
    requires 0 <= n <= |slots|
    ensures |r| == n
  {
    seq(n, k requires 0 <= k < n => Point2(slots[k].x1, slots[k].y1))
  }

  /** slots with the (x, y) of its first |pts| entries replaced by pts. */
  function PlacedXY(slots: seq<ClipVertex>, pts: seq<Point2>): (r: seq<ClipVertex>)
    requires |pts| <= |slots|
    ensures |r| == |slots|
  {
    seq(|slots|, k requires 0 <= k < |slots| =>
      if k < |pts| then slots[k].(x := pts[k].x, y := pts[k].y) else slots[k])
  }

  /** slots with the (x1, y1) of its first |pts| entries replaced by pts. */
  function PlacedX1Y1(slots: seq<ClipVertex>, pts: seq<Point2>): (r: seq<ClipVertex>)
    requires |pts| <= |slots|
    ensures |r| == |slots|
  {
    seq(|slots|, k requires 0 <= k < |slots| =>
      if k < |pts| then slots[k].(x1 := pts[k].x, y1 := pts[k].y) else slots[k])
  }

  /** The slots' depths agree: the screen-space passes leave z alone. */
  ghost predicate SameDepths(a: seq<ClipVertex>, b: seq<ClipVertex>)
  {
    |a| == |b| && forall k :: 0 <= k < |a| ==> a[k].z == b[k].z
  }

  /** Placing (x1, y1) pairs: they read back, and the depths stay. */
  lemma PlacedX1Y1Reads(slots: seq<ClipVertex>, pts: seq<Point2>)
    requires |pts| <= |slots|
    ensures SlotsX1Y1(PlacedX1Y1(slots, pts), |pts|) == pts
    ensures SameDepths(slots, PlacedX1Y1(slots, pts))
  {
  }

  /** Placing (x, y) pairs: they read back, and the depths stay. */
  lemma PlacedXYReads(slots: seq<ClipVertex>, pts: seq<Point2>)
    requires |pts| <= |slots|
    ensures SlotsXY(PlacedXY(slots, pts), |pts|) == pts
    ensures SameDepths(slots, PlacedXY(slots, pts))
  {
  }

  lemma SameDepthsTrans(a: seq<ClipVertex>, b: seq<ClipVertex>, c: seq<ClipVertex>)
    requires SameDepths(a, b) && SameDepths(b, c)
    ensures SameDepths(a, c)
  {
  }

  /**
   * A left or top pass: reads the (x, y) pairs and writes the (x1, y1)
   * pairs, so no write clobbers a corner still to be read.
   */
  method PassIntoX1Y1(clip: ClippedPolygon, side: Side, bound: int)
    requires clip.Valid() && 0 <= clip.numberOfVertices <= CLIP_CAPACITY
    requires |Pass(side, SlotsXY(clip.vertex[..], clip.numberOfVertices), bound)| <= CLIP_CAPACITY
    modifies clip`numberOfVertices, clip.vertex
    ensures clip.numberOfVertices == |Pass(side, SlotsXY(old(clip.vertex[..]), old(clip.numberOfVertices)), bound)|
    ensures clip.vertex[..] == PlacedX1Y1(old(clip.vertex[..]), Pass(side, SlotsXY(old(clip.vertex[..]), old(clip.numberOfVertices)), bound))
    ensures clip.color == old(clip.color)
    ensures SameDepths(old(clip.vertex[..]), clip.vertex[..])
  {
    var cp := ClipSlotsIntoX1Y1(clip, clip.numberOfVertices, side, bound);
    clip.numberOfVertices := cp;
  }

  /** One pass from the (x, y) pairs of the first n slots into their (x1, y1) pairs. */
  method ClipSlotsIntoX1Y1(clip: ClippedPolygon, n: int, side: Side, bound: int) returns (cp: int)
    requires clip.Valid() && 0 <= n <= CLIP_CAPACITY
    requires |Pass(side, SlotsXY(clip.vertex[..], n), bound)| <= CLIP_CAPACITY
    modifies clip.vertex
    ensures cp == |Pass(side, SlotsXY(old(clip.vertex[..]), n), bound)|
    ensures clip.vertex[..] == PlacedX1Y1(old(clip.vertex[..]), Pass(side, SlotsXY(old(clip.vertex[..]), n), bound))
  {
    ghost var before := clip.vertex[..];
    ghost var pts := SlotsXY(before, n);
    cp := 0;
    var v1 := n - 1;
    for v2 := 0 to n
      modifies clip.vertex
      invariant v1 == if v2 == 0 then n - 1 else v2 - 1
      invariant cp == |PassUpTo(side, pts, bound, v2)| <= CLIP_CAPACITY
      invariant clip.vertex[..] == PlacedX1Y1(before, PassUpTo(side, pts, bound, v2))
    {
      PassGrows(side, pts, bound, v2 + 1, n);
      var a := Point2(clip.vertex[v1].x, clip.vertex[v1].y);
      var b := Point2(clip.vertex[v2].x, clip.vertex[v2].y);
      assert a == Prev(pts, v2) && b == pts[v2];
      ghost var done := PassUpTo(side, pts, bound, v2);
      var e := EdgeOutput(side, a, b, bound);
      assert e == PassEdge(side, a, b, bound);
      PutX1Y1(clip, cp, e, before, done);
      cp := cp + |e|;
      v1 := v2;
    }
  }

  /**
   * A right or bottom pass: reads the (x1, y1) pairs and writes the (x, y)
   * pairs.
   */
  method PassIntoXY(clip: ClippedPolygon, side: Side, bound: int)
    requires clip.Valid() && 0 <= clip.numberOfVertices <= CLIP_CAPACITY
    requires |Pass(side, SlotsX1Y1(clip.vertex[..], clip.numberOfVertices), bound)| <= CLIP_CAPACITY
    modifies clip`numberOfVertices, clip.vertex
    ensures clip.numberOfVertices == |Pass(side, SlotsX1Y1(old(clip.vertex[..]), old(clip.numberOfVertices)), bound)|
    ensures clip.vertex[..] == PlacedXY(old(clip.vertex[..]), Pass(side, SlotsX1Y1(old(clip.vertex[..]), old(clip.numberOfVertices)), bound))
    ensures clip.color == old(clip.color)
    ensures SameDepths(old(clip.vertex[..]), clip.vertex[..])
  {
    var cp := ClipSlotsIntoXY(clip, clip.numberOfVertices, side, bound);
    clip.numberOfVertices := cp;
  }

  /** One pass from the (x1, y1) pairs of the first n slots into their (x, y) pairs. */
  method ClipSlotsIntoXY(clip: ClippedPolygon, n: int, side: Side, bound: int) returns (cp: int)
    requires clip.Valid() && 0 <= n <= CLIP_CAPACITY
    requires |Pass(side, SlotsX1Y1(clip.vertex[..], n), bound)| <= CLIP_CAPACITY
    modifies clip.vertex
    ensures cp == |Pass(side, SlotsX1Y1(old(clip.vertex[..]), n), bound)|
    ensures clip.vertex[..] == PlacedXY(old(clip.vertex[..]), Pass(side, SlotsX1Y1(old(clip.vertex[..]), n), bound))
  {
    ghost var before := clip.vertex[..];
    ghost var pts := SlotsX1Y1(before, n);
    cp := 0;
    var v1 := n - 1;
    for v2 := 0 to n
      modifies clip.vertex
      invariant v1 == if v2 == 0 then n - 1 else v2 - 1
      invariant cp == |PassUpTo(side, pts, bound, v2)| <= CLIP_CAPACITY
      invariant clip.vertex[..] == PlacedXY(before, PassUpTo(side, pts, bound, v2))
    {
      PassGrows(side, pts, bound, v2 + 1, n);
      var a := Point2(clip.vertex[v1].x1, clip.vertex[v1].y1);
      var b := Point2(clip.vertex[v2].x1, clip.vertex[v2].y1);
      assert a == Prev(pts, v2) && b == pts[v2];
      ghost var done := PassUpTo(side, pts, bound, v2);
      var e := EdgeOutput(side, a, b, bound);
      assert e == PassEdge(side, a, b, bound);
      PutXY(clip, cp, e, before, done);
      cp := cp + |e|;
      v1 := v2;
    }
  }

  lemma PlacedX1Y1Step(slots: seq<ClipVertex>, done: seq<Point2>, p: Point2)
    requires |done| < |slots|
    ensures PlacedX1Y1(slots, done)[|done| := PlacedX1Y1(slots, done)[|done|].(x1 := p.x, y1 := p.y)]
         == PlacedX1Y1(slots, done + [p])
  {
  }

  lemma PlacedXYStep(slots: seq<ClipVertex>, done: seq<Point2>, p: Point2)
    requires |done| < |slots|
    ensures PlacedXY(slots, done)[|done| := PlacedXY(slots, done)[|done|].(x := p.x, y := p.y)]
         == PlacedXY(slots, done + [p])
  {
  }

  /** Writes the corners e into the (x1, y1) pairs of the slots from |done| on. */
  method PutX1Y1(clip: ClippedPolygon, cp: int, e: seq<Point2>, ghost before: seq<ClipVertex>, ghost done: seq<Point2>)
    requires clip.Valid() && |before| == CLIP_CAPACITY && cp == |done| && cp + |e| <= CLIP_CAPACITY
    requires clip.vertex[..] == PlacedX1Y1(before, done)
    modifies clip.vertex
    ensures clip.vertex[..] == PlacedX1Y1(before, done + e)
  {
    for t := 0 to |e|
      invariant clip.vertex[..] == PlacedX1Y1(before, done + e[..t])
    {
      PlacedX1Y1Step(before, done + e[..t], e[t]);
      clip.vertex[cp + t] := clip.vertex[cp + t].(x1 := e[t].x, y1 := e[t].y);
      assert done + e[..t + 1] == (done + e[..t]) + [e[t]];
    }
    assert e[..|e|] == e;
  }

  /** Writes the corners e into the (x, y) pairs of the slots from |done| on. */
  method PutXY(clip: ClippedPolygon, cp: int, e: seq<Point2>, ghost before: seq<ClipVertex>, ghost done: seq<Point2>)
    requires clip.Valid() && |before| == CLIP_CAPACITY && cp == |done| && cp + |e| <= CLIP_CAPACITY
    requires clip.vertex[..] == PlacedXY(before, done)
    modifies clip.vertex
    ensures clip.vertex[..] == PlacedXY(before, done + e)
  {
    for t := 0 to |e|
      invariant clip.vertex[..] == PlacedXY(before, done + e[..t])
    {
      PlacedXYStep(before, done + e[..t], e[t]);
      clip.vertex[cp + t] := clip.vertex[cp + t].(x := e[t].x, y := e[t].y);
      assert done + e[..t + 1] == (done + e[..t]) + [e[t]];
    }
    assert e[..|e|] == e;
  }

  /** The four case tests of one edge, in the source's order. */
  method EdgeOutput(side: Side, a: Point2, b: Point2, bound: int) returns (e: seq<Point2>)
    ensures e == PassEdge(side, a, b, bound)
  {
    e := [];
    if Inside(side, a, bound) && Inside(side, b, bound) {
      e := e + [b];
    }
    if Inside(side, a, bound) && !Inside(side, b, bound) {
      e := e + [Crossing(side, a, b, bound)];
    }
    if !Inside(side, a, bound) && Inside(side, b, bound) {
      e := e + [Crossing(side, a, b, bound), b];
    }
  }

  /**
   * xyclip: clips against the left, right, top and bottom edges in turn;
   * the final corners are left in the (x, y) pairs of the first slots.
   */
  method XYClip(clip: ClippedPolygon, xmin: int, ymin: int, xmax: int, ymax: int)
    requires clip.Valid() && 0 <= clip.numberOfVertices <= CLIP_CAPACITY
    requires XYFits(SlotsXY(clip.vertex[..], clip.numberOfVertices), xmin, ymin, xmax, ymax)
    modifies clip`numberOfVertices, clip.vertex
    ensures 0 <= clip.numberOfVertices <= CLIP_CAPACITY
    ensures SlotsXY(clip.vertex[..], clip.numberOfVertices)
         == XYClipped(SlotsXY(old(clip.vertex[..]), old(clip.numberOfVertices)), xmin, ymin, xmax, ymax)
    ensures clip.color == old(clip.color)
    ensures SameDepths(old(clip.vertex[..]), clip.vertex[..])
  {
    hide SameDepths; hide PlacedXY; hide PlacedX1Y1; hide SlotsXY; hide SlotsX1Y1; hide Pass;
    ghost var v0 := clip.vertex[..];
    ghost var pts := SlotsXY(clip.vertex[..], clip.numberOfVertices);
    ghost var l := Pass(Left, pts, xmin);
    ghost var r := Pass(Right, l, xmax);
    ghost var t := Pass(Top, r, ymin);
    PassIntoX1Y1(clip, Left, xmin);
    PlacedX1Y1Reads(v0, l);
    ghost var v1 := clip.vertex[..];
    PassIntoXY(clip, Right, xmax);
    PlacedXYReads(v1, r);
    SameDepthsTrans(v0, v1, clip.vertex[..]);
    ghost var v2 := clip.vertex[..];
    PassIntoX1Y1(clip, Top, ymin);
    PlacedX1Y1Reads(v2, t);
    SameDepthsTrans(v0, v2, clip.vertex[..]);
    ghost var v3 := clip.vertex[..];
    PassIntoXY(clip, Bottom, ymax);
    PlacedXYReads(v3, Pass(Bottom, t, ymax));
    SameDepthsTrans(v0, v3, clip.vertex[..]);
  }
}
