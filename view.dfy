/**
 * The render pipeline of src/view.h around the clipping and sorting steps:
 * the window set-up, the per-object world transform (update), the
 * viewer alignment (alignview), the polygon list with bounding boxes and
 * distances (make_polygon_list), the perspective projection (cproject)
 * and the draw loop (draw_polygon_list).
 *
 * The poly.h matrix globals are a Transformer; the view.h globals are the
 * fields of a Viewer.
 */
module View {
  import opened Common
  import opened Poly
  import opened ViewClip
  import opened ViewSort
  import opened DrawPoly

  // ---------------------------------------------------------------------
  // update
  // ---------------------------------------------------------------------

  /** The master matrix update builds: scale, then rotate, then translate. */
  ghost function PoseMatrix(t: Transformer, xs: int, ys: int, zs: int, ax: int, ay: int, az: int,
                            x: int, y: int, z: int): (m: Mat)
    ensures Is4x4(m)
  {
    Product(t.Rotated(Product(ScaleMatrix(xs as real, ys as real, zs as real, t.shiftMult, t.one), Identity(t.one), t.shift),
                      ax, ay, az),
            TranslationMatrix(x, y, z, t.shift, t.shiftMult, t.one), t.shift)
  }

  /**
   * update: an object whose update flag is set gets its world coordinates
   * recomputed from its scale, orientation and position, and the flag is
   * cleared; an object without the flag is left as it is.
   */
  method Update(t: Transformer, obj: Object)
    requires t.Valid() && 0 <= obj.numberOfVertices <= obj.vertex.Length
    modifies t.matrix, t.smat, t.xmat, t.ymat, t.zmat, t.tmat, obj`update, obj.vertex
    ensures obj.update == 0
    ensures old(obj.update) != 0 ==>
      Value(t.matrix) == PoseMatrix(t, obj.xscale, obj.yscale, obj.zscale, obj.xangle, obj.yangle, obj.zangle, obj.x, obj.y, obj.z) &&
      obj.vertex[..] == AllWorlded(old(obj.vertex[..]), obj.numberOfVertices,
        PoseMatrix(t, obj.xscale, obj.yscale, obj.zscale, obj.xangle, obj.yangle, obj.zangle, obj.x, obj.y, obj.z), t.shift)
    ensures old(obj.update) == 0 ==>
      unchanged(obj.vertex) && unchanged(t.matrix, t.smat, t.xmat, t.ymat, t.zmat, t.tmat)
  {
    if obj.update != 0 {
      t.InitTrans();
      t.Scale(obj.xscale as real, obj.yscale as real, obj.zscale as real);
      t.Rotate(obj.xangle, obj.yangle, obj.zangle);
      t.Translate(obj.x, obj.y, obj.z);
      t.Transform(obj);
      obj.update := 0;
    }
  }

  /** The table conventions under which the fixed-point matrices are exact. */
  ghost predicate ExactTables(t: Transformer)
  {
    t.one == Pow2(t.shift) && t.shiftMult == t.one && t.cos(0) == t.one && t.sin(0) == 0
  }

  /** Unit scale and no rotation leave only the translation. */
  lemma UnitPoseIsTranslation(t: Transformer, x: int, y: int, z: int)
    requires ExactTables(t)
    ensures PoseMatrix(t, 1, 1, 1, 0, 0, 0, x, y, z) == TranslationMatrix(x, y, z, t.shift, t.shiftMult, t.one)
  {
    var P := t.one;
    WholeScaleMatrix(1, 1, 1, P, P);
    assert ScaleMatrix(1 as real, 1 as real, 1 as real, P, P) == Identity(P);
    ProductIdentityLeft(Identity(P), t.shift);
    RotationByZero(Identity(P), t.shift);
    ProductIdentityLeft(TranslationMatrix(x, y, z, t.shift, t.shiftMult, t.one), t.shift);
  }

  /** An object of unit scale with no rotation has its vertices moved by its position. */
  lemma UnitPoseMovesByPosition(t: Transformer, v: Vertex, x: int, y: int, z: int)
    requires ExactTables(t)
    ensures var w := Worlded(v, PoseMatrix(t, 1, 1, 1, 0, 0, 0, x, y, z), t.shift);
      w.wx == v.lx + x && w.wy == v.ly + y && w.wz == v.lz + z
  {
    UnitPoseIsTranslation(t, x, y, z);
    ApplyTranslation(Point3(v.lx, v.ly, v.lz), x, y, z, t.shift);
  }

  // ---------------------------------------------------------------------
  // alignview
  // ---------------------------------------------------------------------

  /** The counts of every object agree with its arrays, and no two objects share storage. */
  ghost predicate Separate(world: World)
    reads world, world.obj, set i | 0 <= i < world.obj.Length :: world.obj[i]
  {
    0 <= world.numberOfObjects <= world.obj.Length &&
    (forall i :: 0 <= i < world.numberOfObjects ==>
      0 <= world.obj[i].numberOfVertices <= world.obj[i].vertex.Length &&
      0 <= world.obj[i].numberOfPolygons <= world.obj[i].polygon.Length) &&
    (forall i, j :: 0 <= i < j < world.numberOfObjects ==>
      world.obj[i] != world.obj[j] && world.obj[i].vertex != world.obj[j].vertex &&
      world.obj[i].polygon != world.obj[j].polygon)
  }

  /** The vertex arrays of the objects in use. */
  ghost function VertexArrays(world: World): set<array<Vertex>>
    reads world, world.obj, set i | 0 <= i < world.obj.Length :: world.obj[i]
  {
    set i | 0 <= i < world.numberOfObjects && i < world.obj.Length :: world.obj[i].vertex
  }

  /** The polygon arrays of the objects in use. */
  ghost function PolygonArrays(world: World): set<array<Polygon>>
    reads world, world.obj, set i | 0 <= i < world.obj.Length :: world.obj[i]
  {
    set i | 0 <= i < world.numberOfObjects && i < world.obj.Length :: world.obj[i].polygon
  }

  /** The negation alignview applies to the viewer's position and angles. */
  function Neg(x: int): int
  {
    -x
  }

  /** Translation by (xt, yt, zt) followed by the rotations by ax, ay and az. */
  ghost function AlignMatrix(t: Transformer, xt: int, yt: int, zt: int, ax: int, ay: int, az: int): (m: Mat)
    ensures Is4x4(m)
  {
    t.Rotated(Product(Identity(t.one), TranslationMatrix(xt, yt, zt, t.shift, t.shiftMult, t.one), t.shift), ax, ay, az)
  }

  /** The matrix alignview builds: move the viewer to the origin, then undo its rotation. */
  ghost function ViewMatrix(t: Transformer, view: View): (m: Mat)
    ensures Is4x4(m)
  {
    AlignMatrix(t, Neg(view.copx), Neg(view.copy), Neg(view.copz), Neg(view.xangle), Neg(view.yangle), Neg(view.zangle))
  }

  /** The matrix calls of alignview. */
  method SetAlignMatrix(t: Transformer, xt: int, yt: int, zt: int, ax: int, ay: int, az: int)
    requires t.Valid()
    modifies t.matrix, t.xmat, t.ymat, t.zmat, t.tmat
    ensures Value(t.matrix) == AlignMatrix(t, xt, yt, zt, ax, ay, az)
  {
    t.InitTrans();
    t.Translate(xt, yt, zt);
    t.Rotate(ax, ay, az);
  }

  /** alignview: every object's aligned coordinates are its world coordinates seen from the viewer. */
  method AlignView(t: Transformer, world: World, view: View)
    requires t.Valid() && Separate(world)
    modifies t.matrix, t.xmat, t.ymat, t.zmat, t.tmat, VertexArrays(world)
    ensures Value(t.matrix) == ViewMatrix(t, view)
    ensures forall i :: 0 <= i < world.numberOfObjects ==>
      world.obj[i].vertex[..] == AllAligned(old(world.obj[i].vertex[..]), world.obj[i].numberOfVertices, ViewMatrix(t, view), t.shift)
  {
    SetAlignMatrix(t, Neg(view.copx), Neg(view.copy), Neg(view.copz), Neg(view.xangle), Neg(view.yangle), Neg(view.zangle));
    AlignObjects(t, world);
  }

  /** The object loop of alignview: atransform on every object with the current master matrix. */
  method AlignObjects(t: Transformer, world: World)
    requires t.Valid() && Separate(world)
    modifies VertexArrays(world)
    ensures forall i :: 0 <= i < world.numberOfObjects ==>
      world.obj[i].vertex[..] == AllAligned(old(world.obj[i].vertex[..]), world.obj[i].numberOfVertices, Value(t.matrix), t.shift)
  {
    for i := 0 to world.numberOfObjects
      invariant forall j :: 0 <= j < i ==>
        world.obj[j].vertex[..] == AllAligned(old(world.obj[j].vertex[..]), world.obj[j].numberOfVertices, Value(t.matrix), t.shift)
      invariant forall j :: i <= j < world.numberOfObjects ==> world.obj[j].vertex[..] == old(world.obj[j].vertex[..])
    {
      t.ATransform(world.obj[i]);
    }
  }

  /** A viewer looking straight ahead only moves the world by minus its position. */
  lemma LevelViewIsTranslation(t: Transformer, copx: int, copy: int, copz: int)
    requires ExactTables(t)
    ensures ViewMatrix(t, View(copx, copy, copz, 0, 0, 0))
         == TranslationMatrix(Neg(copx), Neg(copy), Neg(copz), t.shift, t.shiftMult, t.one)
  {
    var T := TranslationMatrix(Neg(copx), Neg(copy), Neg(copz), t.shift, t.shiftMult, t.one);
    ProductIdentityLeft(T, t.shift);
    RotationByZero(T, t.shift);
  }

  /** A viewer looking straight ahead sees every point moved by minus its own position. */
  lemma LevelViewSubtractsPosition(t: Transformer, p: Point3, copx: int, copy: int, copz: int)
    requires ExactTables(t)
    ensures Apply(p, ViewMatrix(t, View(copx, copy, copz, 0, 0, 0)), t.shift) == Point3(p.x - copx, p.y - copy, p.z - copz)
  {
    LevelViewIsTranslation(t, copx, copy, copz);
    ApplyTranslation(p, Neg(copx), Neg(copy), Neg(copz), t.shift);
  }

  // ---------------------------------------------------------------------
  // make_polygon_list
  // ---------------------------------------------------------------------

  /** The running extremes of make_polygon_list's vertex loop. */
  datatype Box = Box(xmin: int, xmax: int, ymin: int, ymax: int, zmin: int, zmax: int)

  /** The sentinels the extremes start from: nothing seen yet. */
  const EMPTY_BOX: Box := Box(32767, -32767, 32767, -32767, 32767, -32767)

  /** b widened to take in p. */
  function Widened(b: Box, p: Point3): Box
  {
    Box(if p.x < b.xmin then p.x else b.xmin, if p.x > b.xmax then p.x else b.xmax,
        if p.y < b.ymin then p.y else b.ymin, if p.y > b.ymax then p.y else b.ymax,
        if p.z < b.zmin then p.z else b.zmin, if p.z > b.zmax then p.z else b.zmax)
  }

  /** The extremes after the loop has seen the corners c in order. */
  function Extent(c: seq<Point3>): Box
    decreases |c|
  {
    if |c| == 0 then EMPTY_BOX else Widened(Extent(c[..|c| - 1]), c[|c| - 1])
  }

  predicate InsideBox(b: Box, p: Point3)
  {
    b.xmin <= p.x <= b.xmax && b.ymin <= p.y <= b.ymax && b.zmin <= p.z <= b.zmax
  }

  /** Every corner lies within the extent. */
  lemma {:induction false} ExtentEncloses(c: seq<Point3>)
    ensures forall k :: 0 <= k < |c| ==> InsideBox(Extent(c), c[k])
    decreases |c|
  {
    if |c| > 0 {
      var front := c[..|c| - 1];
      ExtentEncloses(front);
      assert forall k :: 0 <= k < |front| ==> front[k] == c[k];
    }
  }

  /** Every coordinate within the sentinels. */
  predicate WithinSentinels(p: Point3)
  {
    -32767 <= p.x <= 32767 && -32767 <= p.y <= 32767 && -32767 <= p.z <= 32767
  }

  /** Each bound of the extent of some corners, all within the sentinels, is a coordinate of one of them. */
  lemma {:induction false} ExtentIsAttained(c: seq<Point3>)
    requires |c| > 0 && forall k :: 0 <= k < |c| ==> WithinSentinels(c[k])
    ensures exists k :: 0 <= k < |c| && Extent(c).xmin == c[k].x
    ensures exists k :: 0 <= k < |c| && Extent(c).xmax == c[k].x
    ensures exists k :: 0 <= k < |c| && Extent(c).ymin == c[k].y
    ensures exists k :: 0 <= k < |c| && Extent(c).ymax == c[k].y
    ensures exists k :: 0 <= k < |c| && Extent(c).zmin == c[k].z
    ensures exists k :: 0 <= k < |c| && Extent(c).zmax == c[k].z
    decreases |c|
  {
    var front, last := c[..|c| - 1], c[|c| - 1];
    assert forall k :: 0 <= k < |front| ==> front[k] == c[k];
    assert Extent(c) == Widened(Extent(front), last);
    if |front| > 0 {
      ExtentIsAttained(front);
    } else {
      assert Extent(c) == Widened(EMPTY_BOX, last);
    }
  }

  /** The squared distance from the viewer to the centre of the box. */
  function CentreDistance(xmin: int, xmax: int, ymin: int, ymax: int, zmin: int, zmax: int): (d: real)
    ensures d >= 0.0
  {
    var xcen := (xmin + xmax) as real / 2.0;
    var ycen := (ymin + ymax) as real / 2.0;
    var zcen := (zmin + zmax) as real / 2.0;
    xcen * xcen + ycen * ycen + zcen * zcen
  }

  /**
   * p with its aligned bounding box and centre distance recorded; the
   * extremes start from the sentinels +-32767. Nothing else changes.
   */
  function Bounded(p: Polygon, vs: seq<Vertex>): Polygon
    requires p.IndicesBelow(|vs|)
  {
    var b := Extent(Corners(p, vs));
    p.(xmin := b.xmin, xmax := b.xmax, ymin := b.ymin, ymax := b.ymax, zmin := b.zmin, zmax := b.zmax,
       distance := CentreDistance(b.xmin, b.xmax, b.ymin, b.ymax, b.zmin, b.zmax))
  }

  /**
   * The recorded box holds every corner and the distance is that of its
   * centre; no other field changes.
   */
  lemma BoundedEnclosesCorners(p: Polygon, vs: seq<Vertex>)
    requires p.IndicesBelow(|vs|)
    ensures var q := Bounded(p, vs);
      q.(xmin := p.xmin, xmax := p.xmax, ymin := p.ymin, ymax := p.ymax,
         zmin := p.zmin, zmax := p.zmax, distance := p.distance) == p
    ensures var q := Bounded(p, vs); var c := Corners(p, vs);
      forall k :: 0 <= k < |c| ==>
        q.xmin <= c[k].x <= q.xmax && q.ymin <= c[k].y <= q.ymax && q.zmin <= c[k].z <= q.zmax
    ensures var q := Bounded(p, vs);
      q.distance == CentreDistance(q.xmin, q.xmax, q.ymin, q.ymax, q.zmin, q.zmax)
  {
    ExtentEncloses(Corners(p, vs));
  }

  /** A non-backface polygon that reaches in front of the view plane goes into the list. */
  predicate Listable(p: Polygon, vs: seq<Vertex>)
    requires Drawable(p, vs)
  {
    !Backface(p, vs) && Bounded(p, vs).zmax > 1
  }

  /** The list entries one object contributes, in polygon order. */
  function ListedFrom(ps: seq<Polygon>, vs: seq<Vertex>): (r: seq<Polygon>)
    requires forall j :: 0 <= j < |ps| ==> Drawable(ps[j], vs)
    ensures |r| <= |ps|
    decreases |ps|
  {
    if |ps| == 0 then []
    else
      var last := ps[|ps| - 1];
      ListedFrom(ps[..|ps| - 1], vs) + if Listable(last, vs) then [Bounded(last, vs)] else []
  }

  /** Every entry of the list is a bounded non-backface polygon of the object, in front of the view plane. */
  lemma {:induction false} ListedFromSound(ps: seq<Polygon>, vs: seq<Vertex>, i: int)
    requires forall j :: 0 <= j < |ps| ==> Drawable(ps[j], vs)
    requires 0 <= i < |ListedFrom(ps, vs)|
    ensures ListedFrom(ps, vs)[i].zmax > 1
    ensures exists j :: 0 <= j < |ps| && !Backface(ps[j], vs) && ListedFrom(ps, vs)[i] == Bounded(ps[j], vs)
    decreases |ps|
  {
    var front, last := ps[..|ps| - 1], ps[|ps| - 1];
    var tail := if Listable(last, vs) then [Bounded(last, vs)] else [];
    assert ListedFrom(ps, vs) == ListedFrom(front, vs) + tail;
    if i < |ListedFrom(front, vs)| {
      ListedFromSound(front, vs, i);
      var j :| 0 <= j < |front| && !Backface(front[j], vs) && ListedFrom(front, vs)[i] == Bounded(front[j], vs);
      assert front[j] == ps[j];
    } else {
      assert ListedFrom(ps, vs)[i] == Bounded(last, vs);
    }
  }

  /** Every polygon that qualifies is in the list. */
  lemma {:induction false} ListedFromComplete(ps: seq<Polygon>, vs: seq<Vertex>, j: int)
    requires forall i :: 0 <= i < |ps| ==> Drawable(ps[i], vs)
    requires 0 <= j < |ps| && Listable(ps[j], vs)
    ensures Bounded(ps[j], vs) in ListedFrom(ps, vs)
    decreases |ps|
  {
    if j < |ps| - 1 {
      ListedFromComplete(ps[..|ps| - 1], vs, j);
    }
  }

  /** What one polygon becomes: a non-backface polygon gets its box and distance. */
  function MarkedOne(p: Polygon, vs: seq<Vertex>): Polygon
    requires Drawable(p, vs)
  {
    if Backface(p, vs) then p else Bounded(p, vs)
  }

  /** What an object's polygons become, polygon by polygon. */
  function Marked(ps: seq<Polygon>, vs: seq<Vertex>): (r: seq<Polygon>)
    requires forall j :: 0 <= j < |ps| ==> Drawable(ps[j], vs)
    ensures |r| == |ps|
    decreases |ps|
  {
    if |ps| == 0 then [] else Marked(ps[..|ps| - 1], vs) + [MarkedOne(ps[|ps| - 1], vs)]
  }

  /** Marking changes each polygon on its own: the backfaces stay as they were, the others get their box. */
  lemma {:induction false} MarkedAt(ps: seq<Polygon>, vs: seq<Vertex>, j: int)
    requires forall i :: 0 <= i < |ps| ==> Drawable(ps[i], vs)
    requires 0 <= j < |ps|
    ensures Marked(ps, vs)[j] == if Backface(ps[j], vs) then ps[j] else Bounded(ps[j], vs)
    decreases |ps|
  {
    if j < |ps| - 1 {
      MarkedAt(ps[..|ps| - 1], vs, j);
    }
  }

  /** What make_polygon_list reads of one object: its polygons in use and its vertices. */
  datatype Shape = Shape(polygons: seq<Polygon>, vertices: seq<Vertex>)

  /** Every polygon of every shape can be looked at. */
  predicate AllReady(shapes: seq<Shape>)
  {
    forall i, j :: 0 <= i < |shapes| && 0 <= j < |shapes[i].polygons| ==>
      Drawable(shapes[i].polygons[j], shapes[i].vertices)
  }

  /** The first n objects, as values. */
  ghost function Shapes(world: World, n: int): (r: seq<Shape>)
    requires Separate(world) && 0 <= n <= world.numberOfObjects
    reads world, world.obj, set i | 0 <= i < world.obj.Length :: world.obj[i]
    reads PolygonArrays(world), VertexArrays(world)
    ensures |r| == n
    ensures forall i :: 0 <= i < n ==>
      r[i] == Shape(world.obj[i].polygon[..world.obj[i].numberOfPolygons], world.obj[i].vertex[..])
    decreases n
  {
    if n == 0 then []
    else
      var o := world.obj[n - 1];
      Shapes(world, n - 1) + [Shape(o.polygon[..o.numberOfPolygons], o.vertex[..])]
  }

  /** The objects in use, as values. */
  ghost function Scene(world: World): (r: seq<Shape>)
    requires Separate(world)
    reads world, world.obj, set i | 0 <= i < world.obj.Length :: world.obj[i]
    reads PolygonArrays(world), VertexArrays(world)
  {
    Shapes(world, world.numberOfObjects)
  }

  /** Every polygon of the world can be looked at. */
  ghost predicate SceneReady(world: World)
    reads world, world.obj, set i | 0 <= i < world.obj.Length :: world.obj[i]
    reads PolygonArrays(world), VertexArrays(world)
  {
    Separate(world) && AllReady(Scene(world))
  }

  /** The polygon arrays of the first n objects, in object order. */
  ghost function PolygonArrayList(world: World, n: int): (r: seq<array<Polygon>>)
    requires Separate(world) && 0 <= n <= world.numberOfObjects
    reads world, world.obj, set i | 0 <= i < world.obj.Length :: world.obj[i]
    ensures |r| == n
    ensures forall i :: 0 <= i < n ==> r[i] == world.obj[i].polygon
    decreases n
  {
    if n == 0 then [] else PolygonArrayList(world, n - 1) + [world.obj[n - 1].polygon]
  }

  /** The same array never appears twice. */
  ghost predicate Distinct(arrays: seq<array<Polygon>>)
  {
    forall i, j :: 0 <= i < j < |arrays| ==> arrays[i] != arrays[j]
  }

  /** The list entries of the first k shapes, shape by shape. */
  function ListedUpTo(shapes: seq<Shape>, k: int): seq<Polygon>
    requires AllReady(shapes) && 0 <= k <= |shapes|
  {
    if k == 0 then [] else
      var sh := shapes[k - 1];
      assert forall j :: 0 <= j < |sh.polygons| ==> Drawable(sh.polygons[j], sh.vertices);
      ListedUpTo(shapes, k - 1) + ListedFrom(sh.polygons, sh.vertices)
  }

  /** The number of polygons of the first k shapes. */
  function TotalUpTo(shapes: seq<Shape>, k: int): nat
    requires 0 <= k <= |shapes|
  {
    if k == 0 then 0 else TotalUpTo(shapes, k - 1) + |shapes[k - 1].polygons|
  }

  /** The list never holds more entries than there are polygons. */
  lemma {:induction false} ListedWithinTotal(shapes: seq<Shape>, k: int)
    requires AllReady(shapes) && 0 <= k <= |shapes|
    ensures |ListedUpTo(shapes, k)| <= TotalUpTo(shapes, k)
  {
    if k > 0 {
      ListedWithinTotal(shapes, k - 1);
    }
  }

  /** Counting more shapes never gives fewer polygons. */
  lemma {:induction false} TotalGrows(shapes: seq<Shape>, k: int, m: int)
    requires 0 <= k <= m <= |shapes|
    ensures TotalUpTo(shapes, k) <= TotalUpTo(shapes, m)
    decreases m - k
  {
    if k < m {
      TotalGrows(shapes, k, m - 1);
    }
  }

  /** The running extremes of the source's vertex loop and the distance of the box centre. */
  method BoundPolygon(p: Polygon, verts: array<Vertex>) returns (q: Polygon)
    requires p.IndicesBelow(verts.Length)
    ensures q == Bounded(p, verts[..])
  {
    ghost var c := Corners(p, verts[..]);
    var pxmax, pxmin, pymax, pymin, pzmax, pzmin := -32767, 32767, -32767, 32767, -32767, 32767;
    for v := 0 to |p.vertex|
      invariant Box(pxmin, pxmax, pymin, pymax, pzmin, pzmax) == Extent(c[..v])
    {
      var w := verts[p.vertex[v]];
      assert c[..v + 1][..v] == c[..v] && c[v] == Point3(w.ax, w.ay, w.az);
      if w.ax > pxmax { pxmax := w.ax; }
      if w.ax < pxmin { pxmin := w.ax; }
      if w.ay > pymax { pymax := w.ay; }
      if w.ay < pymin { pymin := w.ay; }
      if w.az > pzmax { pzmax := w.az; }
      if w.az < pzmin { pzmin := w.az; }
    }
    assert c[..|p.vertex|] == c;
    q := p.(xmin := pxmin, xmax := pxmax, ymin := pymin, ymax := pymax, zmin := pzmin, zmax := pzmax);
    q := q.(distance := CentreDistance(pxmin, pxmax, pymin, pymax, pzmin, pzmax));
  }

  /** The first i polygons of P are the first i of ps marked; the rest are as in P0. */
  ghost predicate MarkedUpTo(P: seq<Polygon>, P0: seq<Polygon>, ps: seq<Polygon>, vs: seq<Vertex>, i: int)
    requires forall j :: 0 <= j < |ps| ==> Drawable(ps[j], vs)
  {
    0 <= i <= |ps| <= |P| && |P| == |P0| && P[..i] == Marked(ps[..i], vs) && P[i..] == P0[i..]
  }

  /** L holds the entries of L0 before count, then the entries the first i polygons of ps contribute. */
  ghost predicate ListedUpToHere(L: seq<Polygon>, L0: seq<Polygon>, ps: seq<Polygon>, vs: seq<Vertex>,
                                 count: int, i: int, c: int)
    requires forall j :: 0 <= j < |ps| ==> Drawable(ps[j], vs)
  {
    0 <= i <= |ps| && |L| == |L0| && 0 <= count && count + |ps| <= |L| &&
    c == count + |ListedFrom(ps[..i], vs)| && c <= |L| &&
    L[..c] == L0[..count] + ListedFrom(ps[..i], vs) && L[c..] == L0[c..]
  }

  /** Marking polygon i extends the marked prefix by one. */
  lemma MarkedAdvance(P: seq<Polygon>, P0: seq<Polygon>, ps: seq<Polygon>, vs: seq<Vertex>, i: int)
    requires forall j :: 0 <= j < |ps| ==> Drawable(ps[j], vs)
    requires MarkedUpTo(P, P0, ps, vs, i) && i < |ps| && P0[i] == ps[i]
    ensures P[i] == ps[i]
    ensures MarkedUpTo(P, P0, ps, vs, i + 1) <== Backface(ps[i], vs)
    ensures MarkedUpTo(P[i := Bounded(ps[i], vs)], P0, ps, vs, i + 1) <== !Backface(ps[i], vs)
  {
    assert P[i] == P[i..][0];
    var x := MarkedOne(ps[i], vs);
    var Q := P[i := x];
    assert ps[..i + 1][..i] == ps[..i];
    assert Q[..i + 1] == P[..i] + [x];
    assert Q[i + 1..] == P0[i + 1..] by {
      assert Q[i + 1..] == P[i..][1..];
    }
  }

  /** Looking at polygon i extends the list by its entry, if it has one. */
  lemma ListedAdvance(L: seq<Polygon>, L0: seq<Polygon>, ps: seq<Polygon>, vs: seq<Vertex>, count: int, i: int, c: int)
    requires forall j :: 0 <= j < |ps| ==> Drawable(ps[j], vs)
    requires ListedUpToHere(L, L0, ps, vs, count, i, c) && i < |ps|
    ensures c < |L|
    ensures ListedUpToHere(L[c := Bounded(ps[i], vs)], L0, ps, vs, count, i + 1, c + 1) <== Listable(ps[i], vs)
    ensures ListedUpToHere(L, L0, ps, vs, count, i + 1, c) <== !Listable(ps[i], vs)
  {
    assert ps[..i + 1][..i] == ps[..i];
    assert ListedFrom(ps[..i + 1], vs) == ListedFrom(ps[..i], vs) + if Listable(ps[i], vs) then [Bounded(ps[i], vs)] else [];
    if Listable(ps[i], vs) {
      var M := L[c := Bounded(ps[i], vs)];
      assert M[..c + 1] == L[..c] + [Bounded(ps[i], vs)];
      assert M[c + 1..] == L0[c + 1..] by {
        assert M[c + 1..] == L[c..][1..];
      }
    }
  }

  /** One pass of the polygon loop of make_polygon_list. */
  method ListPolygon(obj: Object, list: PolygonList, polynum: int, c: int,
                     ghost P0: seq<Polygon>, ghost L0: seq<Polygon>, ghost ps: seq<Polygon>, ghost vs: seq<Vertex>,
                     ghost count: int) returns (c': int)
    requires forall j :: 0 <= j < |ps| ==> Drawable(ps[j], vs)
    requires obj.polygon != list.polygon && vs == obj.vertex[..] && polynum < |ps| <= |P0| && P0[..|ps|] == ps
    requires MarkedUpTo(obj.polygon[..], P0, ps, vs, polynum)
    requires ListedUpToHere(list.polygon[..], L0, ps, vs, count, polynum, c)
    modifies obj.polygon, list.polygon
    ensures MarkedUpTo(obj.polygon[..], P0, ps, vs, polynum + 1)
    ensures ListedUpToHere(list.polygon[..], L0, ps, vs, count, polynum + 1, c')
  {
    ghost var P, L := obj.polygon[..], list.polygon[..];
    assert P0[polynum] == ps[polynum];
    MarkedAdvance(P, P0, ps, vs, polynum);
    ListedAdvance(L, L0, ps, vs, count, polynum, c);
    c' := c;
    var p := obj.polygon[polynum];
    assert p == ps[polynum];
    if !Backface(p, obj.vertex[..]) {
      var q := BoundPolygon(p, obj.vertex);
      obj.polygon[polynum] := q;
      assert obj.polygon[..] == P[polynum := q];
      if q.zmax > 1 {
        list.polygon[c] := q;
        assert list.polygon[..] == L[c := q];
        c' := c + 1;
      } else {
        assert !Listable(p, vs);
      }
    } else {
      assert !Listable(p, vs);
    }
  }

  /**
   * The polygons of one object: each non-backface polygon gets its box
   * and distance, and is appended to the list when it reaches in front of
   * the view plane.
   */
  method ListObject(obj: Object, list: PolygonList, count: int) returns (count': int)
    requires 0 <= obj.numberOfPolygons <= obj.polygon.Length
    requires forall j :: 0 <= j < obj.numberOfPolygons ==> Drawable(obj.polygon[j], obj.vertex[..])
    requires obj.polygon != list.polygon
    requires 0 <= count && count + obj.numberOfPolygons <= list.polygon.Length
    modifies obj.polygon, list.polygon
    ensures obj.polygon[..obj.numberOfPolygons] == Marked(old(obj.polygon[..obj.numberOfPolygons]), obj.vertex[..])
    ensures obj.polygon[obj.numberOfPolygons..] == old(obj.polygon[obj.numberOfPolygons..])
    ensures count' == count + |ListedFrom(old(obj.polygon[..obj.numberOfPolygons]), obj.vertex[..])|
    ensures list.polygon[..count'] == old(list.polygon[..count]) + ListedFrom(old(obj.polygon[..obj.numberOfPolygons]), obj.vertex[..])
    ensures list.polygon[count'..] == old(list.polygon[count'..])
  {
    ghost var P0, L0 := obj.polygon[..], list.polygon[..];
    ghost var ps := obj.polygon[..obj.numberOfPolygons];
    ghost var vs := obj.vertex[..];
    count' := count;
    for polynum := 0 to obj.numberOfPolygons
      invariant MarkedUpTo(obj.polygon[..], P0, ps, vs, polynum)
      invariant ListedUpToHere(list.polygon[..], L0, ps, vs, count, polynum, count')
    {
      count' := ListPolygon(obj, list, polynum, count', P0, L0, ps, vs, count);
    }
    assert ps[..obj.numberOfPolygons] == ps;
  }

  /** The first count entries of L are the list entries of the first k shapes. */
  ghost predicate ListedBefore(L: array<Polygon>, count: int, shapes: seq<Shape>, k: int)
    reads L
  {
    0 <= k <= |shapes| && AllReady(shapes) &&
    0 <= count <= TotalUpTo(shapes, k) && count <= L.Length && L[..count] == ListedUpTo(shapes, k)
  }

  /** The polygon arrays of the first k shapes hold them marked, the others hold them as they were. */
  ghost predicate MarkedBefore(arrays: seq<array<Polygon>>, shapes: seq<Shape>, k: int)
    reads arrays
  {
    0 <= k <= |shapes| == |arrays| && AllReady(shapes) &&
    (forall j :: 0 <= j < |arrays| ==> |shapes[j].polygons| <= arrays[j].Length) &&
    (forall j :: 0 <= j < k ==> arrays[j][..|shapes[j].polygons|] == Marked(shapes[j].polygons, shapes[j].vertices)) &&
    (forall j :: k <= j < |arrays| ==> arrays[j][..|shapes[j].polygons|] == shapes[j].polygons)
  }

  /** One pass of the object loop of make_polygon_list: object objnum, whose value is shapes[objnum]. */
  method ListShape(obj: Object, list: PolygonList, count: int,
                   ghost shapes: seq<Shape>, ghost arrays: seq<array<Polygon>>, ghost objnum: int)
    returns (count': int)
    requires ListedBefore(list.polygon, count, shapes, objnum) && objnum < |shapes| == |arrays|
    requires Distinct(arrays) && list.polygon !in arrays && obj.polygon == arrays[objnum]
    requires TotalUpTo(shapes, |shapes|) <= list.polygon.Length && obj.polygon != list.polygon
    requires 0 <= obj.numberOfPolygons <= obj.polygon.Length
    requires shapes[objnum] == Shape(obj.polygon[..obj.numberOfPolygons], obj.vertex[..])
    modifies obj.polygon, list.polygon
    ensures ListedBefore(list.polygon, count', shapes, objnum + 1)
    ensures obj.polygon[..obj.numberOfPolygons] == Marked(shapes[objnum].polygons, shapes[objnum].vertices)
    ensures forall j :: 0 <= j < |arrays| && j != objnum ==> arrays[j][..] == old(arrays[j][..])
  {
    ghost var sh := shapes[objnum];
    assert forall j :: 0 <= j < obj.numberOfPolygons ==> Drawable(obj.polygon[j], obj.vertex[..]) by {
      assert forall j :: 0 <= j < |sh.polygons| ==> Drawable(sh.polygons[j], sh.vertices);
      forall j | 0 <= j < obj.numberOfPolygons
        ensures Drawable(obj.polygon[j], obj.vertex[..])
      {
        assert obj.polygon[j] == sh.polygons[j];
      }
    }
    TotalGrows(shapes, objnum + 1, |shapes|);
    ghost var before := list.polygon[..count];
    count' := ListObject(obj, list, count);
    ListedWithinTotal(shapes, objnum + 1);
    assert list.polygon[..count'] == before + ListedFrom(sh.polygons, sh.vertices);
    assert forall j :: 0 <= j < |arrays| && j != objnum ==> arrays[j] != arrays[objnum];
  }

  /**
   * make_polygon_list: the list holds, object by object and in polygon
   * order, every non-backface polygon reaching in front of the view plane,
   * with its bounding box and distance; every non-backface polygon of the
   * world gets its box and distance too.
   */
  method MakePolygonList(world: World, list: PolygonList)
    requires SceneReady(world)
    requires list.polygon !in PolygonArrays(world)
    requires TotalUpTo(Scene(world), world.numberOfObjects) <= list.polygon.Length
    modifies list`numberOfPolygons, list.polygon, PolygonArrays(world)
    ensures 0 <= list.numberOfPolygons <= list.polygon.Length
    ensures list.polygon[..list.numberOfPolygons] == ListedUpTo(old(Scene(world)), world.numberOfObjects)
    ensures forall i :: 0 <= i < world.numberOfObjects ==>
      world.obj[i].polygon[..world.obj[i].numberOfPolygons]
        == Marked(old(Scene(world))[i].polygons, old(Scene(world))[i].vertices)
  {
    ghost var shapes := Scene(world);
    ghost var arrays := PolygonArrayList(world, world.numberOfObjects);
    SceneArrays(world);
    assert list.polygon !in arrays;
    var objs := world.obj;
    var count := ListObjects(objs, world.numberOfObjects, list, shapes, arrays);
    assert list.polygon[..count] == ListedUpTo(shapes, |shapes|);
    assert world.obj == objs;
    list.numberOfPolygons := count;
  }

  /** The polygon arrays of a scene are distinct and hold the scene's polygons. */
  lemma SceneArrays(world: World)
    requires SceneReady(world)
    ensures var arrays := PolygonArrayList(world, world.numberOfObjects);
      var shapes := Scene(world);
      MarkedBefore(arrays, shapes, 0) && Distinct(arrays) &&
      (forall j :: 0 <= j < world.numberOfObjects ==>
        world.obj[j].polygon == arrays[j] && world.obj[j].numberOfPolygons == |shapes[j].polygons| &&
        world.obj[j].vertex[..] == shapes[j].vertices)
  {
  }

  /** The object loop of make_polygon_list, over the first n objects of objs. */
  method ListObjects(objs: array<Object>, n: int, list: PolygonList,
                     ghost shapes: seq<Shape>, ghost arrays: seq<array<Polygon>>) returns (count: int)
    requires 0 <= n <= objs.Length && MarkedBefore(arrays, shapes, 0) && |shapes| == n
    requires Distinct(arrays) && list.polygon !in arrays
    requires forall j :: 0 <= j < n ==>
      objs[j].polygon == arrays[j] && objs[j].numberOfPolygons == |shapes[j].polygons| &&
      objs[j].vertex[..] == shapes[j].vertices
    requires TotalUpTo(shapes, n) <= list.polygon.Length
    modifies arrays, list.polygon
    ensures 0 <= count <= list.polygon.Length && list.polygon[..count] == ListedUpTo(shapes, n)
    ensures MarkedBefore(arrays, shapes, n)
    ensures forall j :: 0 <= j < n ==> objs[j].polygon == arrays[j] && objs[j].numberOfPolygons == |shapes[j].polygons|
  {
    count := 0;
    for objnum := 0 to n
      invariant ListedBefore(list.polygon, count, shapes, objnum)
      invariant MarkedBefore(arrays, shapes, objnum)
    {
      var objptr := objs[objnum];
      count := ListShape(objptr, list, count, shapes, arrays, objnum);
    }
  }

  // ---------------------------------------------------------------------
  // The view window, cproject and draw_polygon_list
  // ---------------------------------------------------------------------

  /** cproject on one corner: x and y scaled by distance / |z|, then moved to the screen origin. */
  function Project(c: ClipVertex, distance: int, xorigin: int, yorigin: int): (r: ClipVertex)
    requires c.z != 0
    ensures r.(x := c.x, y := c.y) == c
  {
    var z := Abs(c.z) as real;
    c.(x := Trunc(distance as real * (c.x as real / z) + xorigin as real),
       y := Trunc(distance as real * (c.y as real / z) + yorigin as real))
  }

  /** A point as far away as the screen keeps its offsets from the screen origin. */
  lemma ProjectAtScreenDistance(c: ClipVertex, xorigin: int, yorigin: int)
    requires c.z > 0
    ensures var r := Project(c, c.z, xorigin, yorigin); r.x == c.x + xorigin && r.y == c.y + yorigin
  {
    var z := c.z as real;
    assert z * (c.x as real / z) + xorigin as real == (c.x + xorigin) as real;
    assert z * (c.y as real / z) + yorigin as real == (c.y + yorigin) as real;
    TruncWhole(c.x + xorigin);
    TruncWhole(c.y + yorigin);
  }

  /** The first n slots projected. */
  function ProjectedSlots(slots: seq<ClipVertex>, n: int, distance: int, xorigin: int, yorigin: int): (r: seq<ClipVertex>)
    requires 0 <= n <= |slots| && forall k :: 0 <= k < n ==> slots[k].z != 0
    ensures |r| == |slots|
  {
    seq(|slots|, k requires 0 <= k < |slots| => if k < n then Project(slots[k], distance, xorigin, yorigin) else slots[k])
  }

  /** Near-clipped corners projected, as xyclip reads them. */
  function ProjectAll(pts: seq<Point3>, distance: int, xorigin: int, yorigin: int): (r: seq<Point2>)
    requires forall k :: 0 <= k < |pts| ==> pts[k].z != 0
    ensures |r| == |pts|
  {
    seq(|pts|, k requires 0 <= k < |pts| =>
      var c := Project(ClipVertex(pts[k].x, pts[k].y, pts[k].z, 0, 0, 0), distance, xorigin, yorigin);
      Point2(c.x, c.y))
  }

  /** Projecting the slots zclip filled gives the projected near-clipped corners. */
  lemma ProjectedClip(slots: seq<ClipVertex>, zc: seq<Point3>, distance: int, xorigin: int, yorigin: int)
    requires |zc| <= |slots| && forall k :: 0 <= k < |zc| ==> zc[k].z != 0
    ensures forall k :: 0 <= k < |zc| ==> PlacedXYZ(slots, zc)[k].z != 0
    ensures SlotsXY(ProjectedSlots(PlacedXYZ(slots, zc), |zc|, distance, xorigin, yorigin), |zc|)
         == ProjectAll(zc, distance, xorigin, yorigin)
  {
    var placed := PlacedXYZ(slots, zc);
    var lhs := SlotsXY(ProjectedSlots(placed, |zc|, distance, xorigin, yorigin), |zc|);
    forall k | 0 <= k < |zc|
      ensures lhs[k] == ProjectAll(zc, distance, xorigin, yorigin)[k]
    {
      assert placed[k] == slots[k].(x := zc[k].x, y := zc[k].y, z := zc[k].z);
    }
  }

  /**
   * What draw_polygon_list asks of a polygon and never checks: its near
   * clipped outline fits the 20 clip slots, and so does every xyclip pass
   * of its projection.
   */
  ghost predicate ClipsWithin(p: Polygon, vs: seq<Vertex>, distance: int, xorigin: int, yorigin: int,
                              xmin: int, ymin: int, xmax: int, ymax: int)
    requires p.IndicesBelow(|vs|)
  {
    var zc := ZClipped(Corners(p, vs));
    |zc| <= CLIP_CAPACITY && (forall k :: 0 <= k < |zc| ==> zc[k].z != 0) &&
    XYFits(ProjectAll(zc, distance, xorigin, yorigin), xmin, ymin, xmax, ymax)
  }

  /** The colours of a list of polygons, as bytes. */
  function Colours(ps: seq<Polygon>): (r: seq<Byte>)
    ensures |r| == |ps| && forall i :: 0 <= i < |ps| ==> r[i] == ToByte(ps[i].color)
  {
    seq(|ps|, i requires 0 <= i < |ps| => ToByte(ps[i].color))
  }

  /** Every byte kept its value or took one of the colours. */
  ghost predicate PaintedWith(before: seq<Byte>, after: seq<Byte>, colours: seq<Byte>)
  {
    |after| == |before| && forall k :: 0 <= k < |before| ==> after[k] == before[k] || after[k] in colours
  }

  /** What is left of a polygon's outline after the near clip, the projection and the window clip. */
  ghost function WindowOutline(p: Polygon, vs: seq<Vertex>, distance: int, xorigin: int, yorigin: int,
                               xmin: int, ymin: int, xmax: int, ymax: int): seq<Point2>
    requires p.IndicesBelow(|vs|) && ClipsWithin(p, vs, distance, xorigin, yorigin, xmin, ymin, xmax, ymax)
  {
    XYClipped(ProjectAll(ZClipped(Corners(p, vs)), distance, xorigin, yorigin), xmin, ymin, xmax, ymax)
  }

  /** Every span lies on row ymin or below and in the columns xmin..xmax. */
  predicate InView(spans: seq<Span>, xmin: int, ymin: int, xmax: int)
  {
    forall i :: 0 <= i < |spans| ==> ymin <= spans[i].row && spans[i].InColumns(xmin, xmax)
  }

  lemma PaintedWithStep(a: seq<Byte>, b: seq<Byte>, d: seq<Byte>, colours: seq<Byte>, c: Byte)
    requires PaintedWith(a, b, colours) && OnlyColour(b, d, c) && c in colours
    ensures PaintedWith(a, d, colours)
  {
  }

  /**
   * The buffer after polygons are drawn in list order: each one's spans
   * painted with its colour over what the earlier ones left.
   */
  ghost function Layers(s: seq<Byte>, drawn: seq<seq<Span>>, colours: seq<Byte>): (r: seq<Byte>)
    requires |drawn| <= |colours|
    ensures |r| == |s|
    decreases |drawn|
  {
    if drawn == [] then s
    else Paint(Layers(s, drawn[..|drawn| - 1], colours), drawn[|drawn| - 1], colours[|drawn| - 1])
  }

  /** Before any polygon is drawn the buffer is as it was. */
  lemma LayersNone(s: seq<Byte>, colours: seq<Byte>)
    ensures Layers(s, [], colours) == s
  {
  }

  /** Drawing one more polygon paints its spans over the layers so far. */
  lemma LayersStep(s: seq<Byte>, drawn: seq<seq<Span>>, colours: seq<Byte>, sp: seq<Span>)
    requires |drawn| < |colours|
    ensures Layers(s, drawn + [sp], colours) == Paint(Layers(s, drawn, colours), sp, colours[|drawn|])
  {
    assert (drawn + [sp])[..|drawn|] == drawn;
  }

  /**
   * Painter's order: a byte shows the colour of the last polygon drawn
   * over it, whatever the earlier ones painted there.
   */
  lemma {:induction false} LastCoverWins(s: seq<Byte>, drawn: seq<seq<Span>>, colours: seq<Byte>, i: int, k: int)
    requires |drawn| <= |colours| && 0 <= i < |drawn| && 0 <= k < |s|
    requires AnyCovers(drawn[i], k)
    requires forall j :: i < j < |drawn| ==> !AnyCovers(drawn[j], k)
    ensures Layers(s, drawn, colours)[k] == colours[i]
  {
    var n := |drawn| - 1;
    if i < n {
      assert !AnyCovers(drawn[n], k);
      assert forall j :: i < j < n ==> drawn[..n][j] == drawn[j];
      LastCoverWins(s, drawn[..n], colours, i, k);
    }
  }

  /** A byte no drawn polygon covers keeps its value. */
  lemma {:induction false} UncoveredKept(s: seq<Byte>, drawn: seq<seq<Span>>, colours: seq<Byte>, k: int)
    requires |drawn| <= |colours| && 0 <= k < |s|
    requires forall j :: 0 <= j < |drawn| ==> !AnyCovers(drawn[j], k)
    ensures Layers(s, drawn, colours)[k] == s[k]
  {
    if drawn != [] {
      var n := |drawn| - 1;
      assert !AnyCovers(drawn[n], k);
      assert forall j :: 0 <= j < n ==> drawn[..n][j] == drawn[j];
      UncoveredKept(s, drawn[..n], colours, k);
    }
  }

  /** The file-scope state of view.h: the window, the viewer distance, the colours and the list. */
  class Viewer {
    var xorigin: int
    var yorigin: int
    var xmin: int
    var ymin: int
    var xmax: int
    var ymax: int
    var distance: int
    var ground: int
    var sky: int
    var screenBuffer: array<Byte>
    var screenWidth: int
    var screenHeight: int
    var polylist: PolygonList

    constructor (screen: array<Byte>)
      ensures screenBuffer == screen && polylist.numberOfPolygons == 0 && fresh(polylist)
    {
      xorigin, yorigin, xmin, ymin, xmax, ymax := 0, 0, 0, 0, 0, 0;
      distance, ground, sky, screenWidth, screenHeight := 0, 0, 0, 0, 0;
      screenBuffer := screen;
      polylist := new PolygonList(0);
    }

    /**
     * setview: the window corners, screen origin, viewer distance, colours
     * and buffer, with half the window's width and height (C division).
     */
    method SetView(xo: int, yo: int, xmn: int, ymn: int, xmx: int, ymx: int, dist: int, grnd: int, sk: int,
                   screenBuf: array<Byte>)
      modifies this
      ensures xorigin == xo && yorigin == yo && xmin == xmn && ymin == ymn && xmax == xmx && ymax == ymx
      ensures distance == dist && ground == grnd && sky == sk && screenBuffer == screenBuf
      ensures screenWidth == TruncDiv(xmx - xmn, 2) && screenHeight == TruncDiv(ymx - ymn, 2)
      ensures polylist == old(polylist)
    {
      xorigin := xo;
      yorigin := yo;
      xmin := xmn;
      xmax := xmx;
      ymin := ymn;
      ymax := ymx;
      distance := dist;
      ground := grnd;
      sky := sk;
      screenBuffer := screenBuf;
      var w, h := xmax - xmin, ymax - ymin;
      screenWidth := if w >= 0 then w / 2 else -((-w) / 2);
      screenHeight := if h >= 0 then h / 2 else -((-h) / 2);
    }

    /** initworld: a fresh polygon list array with room for polycount polygons. */
    method InitWorld(polycount: int)
      requires polycount >= 0
      modifies polylist
      ensures fresh(polylist.polygon) && polylist.polygon.Length == polycount
      ensures polylist.numberOfPolygons == old(polylist.numberOfPolygons)
    {
      polylist.polygon := new Polygon[polycount];
    }

    /** cproject: the first number_of_vertices slots get their perspective screen x and y. */
    method CProject(clip: ClippedPolygon)
      requires clip.Valid() && 0 <= clip.numberOfVertices <= CLIP_CAPACITY
      requires forall k :: 0 <= k < clip.numberOfVertices ==> clip.vertex[k].z != 0
      modifies clip.vertex
      ensures clip.vertex[..] == ProjectedSlots(old(clip.vertex[..]), clip.numberOfVertices, distance, xorigin, yorigin)
    {
      ghost var before := clip.vertex[..];
      for v := 0 to clip.numberOfVertices
        invariant clip.vertex[..] == ProjectedSlots(before, v, distance, xorigin, yorigin)
      {
        clip.vertex[v] := Project(clip.vertex[v], distance, xorigin, yorigin);
        assert clip.vertex[..] == ProjectedSlots(before, v, distance, xorigin, yorigin)[v := Project(before[v], distance, xorigin, yorigin)];
      }
    }

    /**
     * draw_polygon_list: each polygon of the list is near-clipped; if
     * anything is left it is projected and clipped to the window, and if
     * anything is still left it is drawn. The buffer ends up as the
     * polygons' spans painted in list order, so the later polygons of the
     * depth-sorted list cover the earlier ones; and it only ever receives
     * colours of listed polygons.
     */
    method DrawPolygonList(list: PolygonList, world: World, screen: array<Byte>)
      returns (ghost drawn: seq<seq<Span>>)
      requires 0 <= list.numberOfPolygons <= list.polygon.Length
      requires 0 <= world.numberOfObjects <= world.obj.Length
      requires forall i :: 0 <= i < list.numberOfPolygons ==>
        list.polygon[i].owner < world.numberOfObjects &&
        list.polygon[i].IndicesBelow(world.obj[list.polygon[i].owner].vertex.Length) &&
        ClipsWithin(list.polygon[i], world.obj[list.polygon[i].owner].vertex[..], distance, xorigin, yorigin, xmin, ymin, xmax, ymax)
      modifies screen
      ensures |drawn| == list.numberOfPolygons
      ensures screen[..] == Layers(old(screen[..]), drawn, Colours(list.polygon[..list.numberOfPolygons]))
      ensures PaintedWith(old(screen[..]), screen[..], Colours(list.polygon[..list.numberOfPolygons]))
      ensures forall i :: 0 <= i < list.numberOfPolygons ==> InView(drawn[i], xmin, ymin, xmax)
    {
      hide Layers; hide Paint; hide InView; hide WindowOutline;
      ghost var colours := Colours(list.polygon[..list.numberOfPolygons]);
      var clip := new ClippedPolygon();
      drawn := [];
      LayersNone(screen[..], colours);
      for i := 0 to list.numberOfPolygons
        invariant clip.Valid() && fresh(clip.vertex)
        invariant |drawn| == i
        invariant screen[..] == Layers(old(screen[..]), drawn, colours)
        invariant PaintedWith(old(screen[..]), screen[..], colours)
        invariant forall k :: 0 <= k < i ==> InView(drawn[k], xmin, ymin, xmax)
      {
        var p := list.polygon[i];
        var verts := world.obj[p.owner].vertex;
        ghost var before := screen[..];
        ghost var sp := DrawListed(p, verts, clip, screen);
        assert ToByte(p.color) == colours[i];
        PaintedWithStep(old(screen[..]), before, screen[..], colours, ToByte(p.color));
        LayersStep(old(screen[..]), drawn, colours, sp);
        drawn := drawn + [sp];
      }
    }

    /** One pass of the loop of draw_polygon_list: near clip, project, clip to the window, draw. */
    method DrawListed(p: Polygon, verts: array<Vertex>, clip: ClippedPolygon, screen: array<Byte>)
      returns (ghost spans: seq<Span>)
      requires clip.Valid() && p.IndicesBelow(verts.Length)
      requires ClipsWithin(p, verts[..], distance, xorigin, yorigin, xmin, ymin, xmax, ymax)
      modifies clip, clip.vertex, screen
      ensures clip.Valid()
      ensures screen[..] == Paint(old(screen[..]), spans, ToByte(p.color))
      ensures OnlyColour(old(screen[..]), screen[..], ToByte(p.color))
      ensures ZClipped(Corners(p, verts[..])) == [] ==> spans == []
      ensures WindowOutline(p, verts[..], distance, xorigin, yorigin, xmin, ymin, xmax, ymax) == [] ==> spans == []
      ensures InView(spans, xmin, ymin, xmax)
    {
      ghost var zc := ZClipped(Corners(p, verts[..]));
      ghost var slots := clip.vertex[..];
      spans := [];
      PaintNone(screen[..], ToByte(p.color));
      ZClip(p, verts, clip);
      if clip.numberOfVertices > 0 {
        ProjectedClip(slots, zc, distance, xorigin, yorigin);
        CProject(clip);
        ghost var projected := SlotsXY(clip.vertex[..], clip.numberOfVertices);
        assert projected == ProjectAll(zc, distance, xorigin, yorigin);
        XYClip(clip, xmin, ymin, xmax, ymax);
        if clip.numberOfVertices > 0 {
          ClippedCornersInWindow(clip, projected);
          ghost var top, fills;
          top, fills, spans := DrawPolygon(clip, screen, xmin, xmax);
        }
      }
    }

    /** After xyclip, every corner left lies in the window. */
    lemma ClippedCornersInWindow(clip: ClippedPolygon, pts: seq<Point2>)
      requires clip.Valid() && 0 <= clip.numberOfVertices <= CLIP_CAPACITY
      requires SlotsXY(clip.vertex[..], clip.numberOfVertices) == XYClipped(pts, xmin, ymin, xmax, ymax)
      ensures forall v :: 0 <= v < clip.numberOfVertices ==>
        xmin <= clip.vertex[v].x <= xmax && ymin <= clip.vertex[v].y <= ymax
    {
      XYClippedInWindow(pts, xmin, ymin, xmax, ymax);
      forall v | 0 <= v < clip.numberOfVertices
        ensures xmin <= clip.vertex[v].x <= xmax && ymin <= clip.vertex[v].y <= ymax
      {
        assert SlotsXY(clip.vertex[..], clip.numberOfVertices)[v] == Point2(clip.vertex[v].x, clip.vertex[v].y);
      }
    }
  }
}
