/**
 * The shape data and the fixed-point transformation engine of src/poly.h:
 * vertices with their local, world, view-aligned and screen coordinates,
 * polygons referring to the vertices of their object, the seven global
 * 4x4 matrices, and the operations that compose the master matrix and
 * apply it to an object's vertices.
 *
 * The fixed-point constants SHIFT, ONE and SHIFT_MULT and the COS/SIN
 * tables come from a header that is not part of this model; they are the
 * constant fields of a `Transformer`.
 */
module Poly {
  import opened Common

  // ---------------------------------------------------------------------
  // Shape data
  // ---------------------------------------------------------------------

  /** One vertex: local (l), world (w), view-aligned (a) and screen (s) coordinates. */
  datatype Vertex = Vertex(lx: int, ly: int, lz: int, lt: int,
                           wx: int, wy: int, wz: int, wt: int,
                           ax: int, ay: int, az: int, at: int,
                           sx: int, sy: int, st: int)

  /** A slot of a clipped polygon: two coordinate pairs that the clipping passes alternate between. */
  datatype ClipVertex = ClipVertex(x: int, y: int, z: int, x1: int, y1: int, z1: int)

  /**
   * A polygon of an object. Its corners are indices into the vertex array
   * of the object numbered `owner`, which is what the pointers into that
   * array amount to; the number of vertices is the number of indices.
   */
  datatype Polygon = Polygon(owner: nat, vertex: seq<nat>, numberOfClippedVertices: int, color: int,
                             zmax: int, zmin: int, xmax: int, xmin: int, ymax: int, ymin: int,
                             distance: real, sortflag: int)
  {
    function NumberOfVertices(): nat { |vertex| }

    /** Every corner names a vertex of an object with `count` vertices. */
    predicate IndicesBelow(count: int)
    {
      forall k :: 0 <= k < |vertex| ==> vertex[k] < count
    }
  }

  /** An object of the world: its placement, its polygons and the vertices they share. */
  class Object {
    var numberOfVertices: int
    var numberOfPolygons: int
    var x: int
    var y: int
    var z: int
    var xangle: int
    var yangle: int
    var zangle: int
    var xscale: int
    var yscale: int
    var zscale: int
    var polygon: array<Polygon>
    var vertex: array<Vertex>
    var convex: int
    var update: int

    /** The counts agree with the arrays and every polygon refers to this object's vertices. */
    ghost predicate Valid()
      reads this, polygon
    {
      0 <= numberOfVertices <= vertex.Length &&
      0 <= numberOfPolygons <= polygon.Length &&
      forall p :: 0 <= p < numberOfPolygons ==> polygon[p].IndicesBelow(numberOfVertices)
    }

    constructor ()
      ensures numberOfVertices == 0 && numberOfPolygons == 0 && update == 0
      ensures vertex.Length == 0 && polygon.Length == 0
      ensures fresh(vertex) && fresh(polygon)
      ensures Valid()
    {
      numberOfVertices, numberOfPolygons, update := 0, 0, 0;
      vertex := new Vertex[0];
      polygon := new Polygon[0];
    }

    /** An object filled in from its record in an object file; the one scale applies to all three axes. */
    constructor Filled(x: int, y: int, z: int, xangle: int, yangle: int, zangle: int, scale: int,
                       vertex: array<Vertex>, polygon: array<Polygon>, convex: int)
      ensures this.x == x && this.y == y && this.z == z
      ensures this.xangle == xangle && this.yangle == yangle && this.zangle == zangle
      ensures xscale == scale && yscale == scale && zscale == scale
      ensures numberOfVertices == vertex.Length && this.vertex == vertex
      ensures numberOfPolygons == polygon.Length && this.polygon == polygon
      ensures this.convex == convex && update == 1
    {
      this.x, this.y, this.z := x, y, z;
      this.xangle, this.yangle, this.zangle := xangle, yangle, zangle;
      xscale := scale;
      yscale := scale;
      zscale := scale;
      numberOfVertices, this.vertex := vertex.Length, vertex;
      numberOfPolygons, this.polygon := polygon.Length, polygon;
      this.convex, update := convex, 1;
    }
  }

  /** All objects of the scene. */
  class World {
    var numberOfObjects: int
    var obj: array<Object>

    constructor ()
      ensures numberOfObjects == 0 && obj.Length == 0 && fresh(obj)
    {
      numberOfObjects := 0;
      obj := new Object[0];
    }
  }

  /** Position and orientation of the viewer. */
  datatype View = View(copx: int, copy: int, copz: int, xangle: int, yangle: int, zangle: int)

  // ---------------------------------------------------------------------
  // Matrices as values
  // ---------------------------------------------------------------------

  /** A matrix value, row by row. */
  type Mat = seq<seq<int>>

  datatype Point3 = Point3(x: int, y: int, z: int)

  predicate Is4x4(m: Mat)
  {
    |m| == 4 && forall i :: 0 <= i < 4 ==> |m[i]| == 4
  }

  /** Row i of a times column j of b. */
  function Dot(a: Mat, b: Mat, i: int, j: int): int
    requires Is4x4(a) && Is4x4(b) && 0 <= i < 4 && 0 <= j < 4
  {
    a[i][0] * b[0][j] + a[i][1] * b[1][j] + a[i][2] * b[2][j] + a[i][3] * b[3][j]
  }

  /** The fixed-point product: every entry of a x b shifted right by `shift`. */
  function Product(a: Mat, b: Mat, shift: nat): (m: Mat)
    requires Is4x4(a) && Is4x4(b)
    ensures Is4x4(m)
  {
    seq(4, i requires 0 <= i < 4 => seq(4, j requires 0 <= j < 4 => Shr(Dot(a, b, i, j), shift)))
  }

  /** The matrix with d0..d3 on the diagonal and 0 elsewhere. */
  function Diagonal(d0: int, d1: int, d2: int, d3: int): (m: Mat)
    ensures Is4x4(m)
  {
    [[d0, 0, 0, 0], [0, d1, 0, 0], [0, 0, d2, 0], [0, 0, 0, d3]]
  }

  function Identity(one: int): (m: Mat)
    ensures Is4x4(m)
  {
    Diagonal(one, one, one, one)
  }

  /** The scaling matrix: the z factor in the first row and the x factor in the third. */
  function ScaleMatrix(xs: real, ys: real, zs: real, shiftMult: int, one: int): (m: Mat)
    ensures Is4x4(m)
  {
    Diagonal(ScaleEntry(zs, shiftMult), ScaleEntry(ys, shiftMult), ScaleEntry(xs, shiftMult), one)
  }

  /** A scale factor as a fixed-point integer: the float product truncated. */
  function ScaleEntry(f: real, shiftMult: int): int
  {
    Trunc(f * shiftMult as real)
  }

  function ReflectMatrix(xr: int, yr: int, zr: int, shift: nat, one: int): (m: Mat)
    ensures Is4x4(m)
  {
    Diagonal(Shr(xr, shift), Shr(yr, shift), Shr(zr, shift), one)
  }

  /** Rotation about the y axis, given the fixed-point cosine and sine of the angle. */
  function YRotation(c: int, s: int, one: int): (m: Mat)
    ensures Is4x4(m)
  {
    [[c, 0, -s, 0], [0, one, 0, 0], [s, 0, c, 0], [0, 0, 0, one]]
  }

  function XRotation(c: int, s: int, one: int): (m: Mat)
    ensures Is4x4(m)
  {
    [[one, 0, 0, 0], [0, c, s, 0], [0, -s, c, 0], [0, 0, 0, one]]
  }

  function ZRotation(c: int, s: int, one: int): (m: Mat)
    ensures Is4x4(m)
  {
    [[c, s, 0, 0], [-s, c, 0, 0], [0, 0, one, 0], [0, 0, 0, one]]
  }

  /** Identity on the upper 3x3; the offsets sit in the bottom row. */
  function TranslationMatrix(xt: int, yt: int, zt: int, shift: nat, shiftMult: int, one: int): (m: Mat)
    ensures Is4x4(m)
  {
    [[one, 0, 0, 0], [0, one, 0, 0], [0, 0, one, 0], [Shl(xt, shift), Shl(yt, shift), zt * shiftMult, one]]
  }

  /** A point as a row vector (x, y, z, 1) times m, each coordinate shifted right. */
  function Apply(p: Point3, m: Mat, shift: nat): Point3
    requires Is4x4(m)
  {
    Point3(Shr(p.x * m[0][0] + p.y * m[1][0] + p.z * m[2][0] + m[3][0], shift),
           Shr(p.x * m[0][1] + p.y * m[1][1] + p.z * m[2][1] + m[3][1], shift),
           Shr(p.x * m[0][2] + p.y * m[1][2] + p.z * m[2][2] + m[3][2], shift))
  }

  /** v with its world coordinates computed from its local ones; no other field changes. */
  function Worlded(v: Vertex, m: Mat, shift: nat): (r: Vertex)
    requires Is4x4(m)
    ensures r.(wx := v.wx, wy := v.wy, wz := v.wz) == v
    ensures Point3(r.wx, r.wy, r.wz) == Apply(Point3(v.lx, v.ly, v.lz), m, shift)
  {
    var p := Apply(Point3(v.lx, v.ly, v.lz), m, shift);
    v.(wx := p.x, wy := p.y, wz := p.z)
  }

  /** v with its view-aligned coordinates computed from its world ones; no other field changes. */
  function Aligned(v: Vertex, m: Mat, shift: nat): (r: Vertex)
    requires Is4x4(m)
    ensures r.(ax := v.ax, ay := v.ay, az := v.az) == v
    ensures Point3(r.ax, r.ay, r.az) == Apply(Point3(v.wx, v.wy, v.wz), m, shift)
  {
    var p := Apply(Point3(v.wx, v.wy, v.wz), m, shift);
    v.(ax := p.x, ay := p.y, az := p.z)
  }

  /** The first n vertices of vs with world coordinates recomputed. */
  function AllWorlded(vs: seq<Vertex>, n: int, m: Mat, shift: nat): (r: seq<Vertex>)
    requires Is4x4(m)
    ensures |r| == |vs|
  {
    seq(|vs|, k requires 0 <= k < |vs| => if k < n then Worlded(vs[k], m, shift) else vs[k])
  }

  /** The first n vertices of vs with view-aligned coordinates recomputed. */
  function AllAligned(vs: seq<Vertex>, n: int, m: Mat, shift: nat): (r: seq<Vertex>)
    requires Is4x4(m)
    ensures |r| == |vs|
  {
    seq(|vs|, k requires 0 <= k < |vs| => if k < n then Aligned(vs[k], m, shift) else vs[k])
  }

  /** The view-aligned coordinates of a polygon's corners, taken from its object's vertices. */
  function Corners(p: Polygon, vs: seq<Vertex>): (c: seq<Point3>)
    requires p.IndicesBelow(|vs|)
    ensures |c| == |p.vertex|
  {
    seq(|p.vertex|, k requires 0 <= k < |p.vertex| => Point3(vs[p.vertex[k]].ax, vs[p.vertex[k]].ay, vs[p.vertex[k]].az))
  }

  // ---------------------------------------------------------------------
  // What the matrices mean
  // ---------------------------------------------------------------------

  lemma ShrShl(x: int, n: nat)
    ensures Shr(Shl(x, n), n) == x
  {
    var p := Pow2(n);
    DivBetween0(x, p);
  }

  lemma DivBetween0(x: int, p: int)
    requires p > 0
    ensures (x * p) / p == x
  {
    var q, r := (x * p) / p, (x * p) % p;
    assert x * p == q * p + r && 0 <= r < p;
    assert (x - q) * p == r;
    if x - q >= 1 {
      MulMonotone(1, x - q, p);
    } else if x - q <= -1 {
      MulMonotone(x - q, -1, p);
    }
  }

  /** With ONE = 2^SHIFT the identity is neutral on the left of a fixed-point product. */
  lemma ProductIdentityLeft(m: Mat, shift: nat)
    requires Is4x4(m)
    ensures Product(Identity(Pow2(shift)), m, shift) == m
  {
    var r := Product(Identity(Pow2(shift)), m, shift);
    forall i | 0 <= i < 4
      ensures r[i] == m[i]
    {
      forall j | 0 <= j < 4
        ensures r[i][j] == m[i][j]
      {
        assert Dot(Identity(Pow2(shift)), m, i, j) == Shl(m[i][j], shift);
        ShrShl(m[i][j], shift);
      }
    }
  }

  /** ... and on its right. */
  lemma ProductIdentityRight(m: Mat, shift: nat)
    requires Is4x4(m)
    ensures Product(m, Identity(Pow2(shift)), shift) == m
  {
    var r := Product(m, Identity(Pow2(shift)), shift);
    forall i | 0 <= i < 4
      ensures r[i] == m[i]
    {
      forall j | 0 <= j < 4
        ensures r[i][j] == m[i][j]
      {
        assert Dot(m, Identity(Pow2(shift)), i, j) == Shl(m[i][j], shift);
        ShrShl(m[i][j], shift);
      }
    }
  }

  /** Applying the identity gives the point back. */
  lemma ApplyIdentity(p: Point3, shift: nat)
    ensures Apply(p, Identity(Pow2(shift)), shift) == p
  {
    ShrShl(p.x, shift);
    ShrShl(p.y, shift);
    ShrShl(p.z, shift);
  }

  /**
   * With SHIFT_MULT = ONE = 2^SHIFT the translation matrix moves a point by
   * exactly (xt, yt, zt).
   */
  lemma ApplyTranslation(p: Point3, xt: int, yt: int, zt: int, shift: nat)
    ensures Apply(p, TranslationMatrix(xt, yt, zt, shift, Pow2(shift), Pow2(shift)), shift)
         == Point3(p.x + xt, p.y + yt, p.z + zt)
  {
    var P := Pow2(shift);
    assert p.x * P + Shl(xt, shift) == Shl(p.x + xt, shift);
    assert p.y * P + Shl(yt, shift) == Shl(p.y + yt, shift);
    assert p.z * P + zt * P == Shl(p.z + zt, shift);
    ShrShl(p.x + xt, shift);
    ShrShl(p.y + yt, shift);
    ShrShl(p.z + zt, shift);
  }

  /**
   * The scaling matrix multiplies x by the z factor and z by the x factor:
   * the axes are swapped relative to the parameter names.
   */
  lemma ApplyScaleSwapsAxes(p: Point3, xs: int, ys: int, zs: int, shift: nat, one: int)
    ensures Apply(p, ScaleMatrix(xs as real, ys as real, zs as real, Pow2(shift), one), shift)
         == Point3(p.x * zs, p.y * ys, p.z * xs)
  {
    var P := Pow2(shift);
    WholeScaleMatrix(xs, ys, zs, P, one);
    ApplyDiagonal(p, zs * P, ys * P, xs * P, one, shift);
    ScaledCoordinate(p.x, zs, shift);
    ScaledCoordinate(p.y, ys, shift);
    ScaledCoordinate(p.z, xs, shift);
  }

  lemma WholeScaleMatrix(xs: int, ys: int, zs: int, P: int, one: int)
    ensures ScaleMatrix(xs as real, ys as real, zs as real, P, one) == Diagonal(zs * P, ys * P, xs * P, one)
  {
    WholeScaleEntry(zs, P);
    WholeScaleEntry(ys, P);
    WholeScaleEntry(xs, P);
  }

  lemma WholeScaleEntry(n: int, mult: int)
    ensures ScaleEntry(n as real, mult) == n * mult
  {
    assert n as real * mult as real == (n * mult) as real;
  }

  lemma ApplyDiagonal(p: Point3, a: int, b: int, c: int, d: int, shift: nat)
    ensures Apply(p, Diagonal(a, b, c, d), shift) == Point3(Shr(p.x * a, shift), Shr(p.y * b, shift), Shr(p.z * c, shift))
  {
  }

  lemma ScaledCoordinate(c: int, f: int, shift: nat)
    ensures Shr(c * (f * Pow2(shift)), shift) == c * f
  {
    assert c * (f * Pow2(shift)) == Shl(c * f, shift);
    ShrShl(c * f, shift);
  }

  /** A rotation about y leaves the y coordinate alone; likewise x about x and z about z. */
  lemma RotationsKeepTheirAxis(p: Point3, c: int, s: int, shift: nat)
    ensures Apply(p, YRotation(c, s, Pow2(shift)), shift).y == p.y
    ensures Apply(p, XRotation(c, s, Pow2(shift)), shift).x == p.x
    ensures Apply(p, ZRotation(c, s, Pow2(shift)), shift).z == p.z
  {
    assert p.y * Pow2(shift) == Shl(p.y, shift);
    assert p.x * Pow2(shift) == Shl(p.x, shift);
    assert p.z * Pow2(shift) == Shl(p.z, shift);
    ShrShl(p.x, shift);
    ShrShl(p.y, shift);
    ShrShl(p.z, shift);
  }

  /** When cos 0 = ONE and sin 0 = 0, rotating by zero angles leaves any matrix as it is. */
  lemma RotationByZero(m: Mat, shift: nat)
    requires Is4x4(m)
    ensures Product(Product(Product(m, YRotation(Pow2(shift), 0, Pow2(shift)), shift),
                            XRotation(Pow2(shift), 0, Pow2(shift)), shift),
                    ZRotation(Pow2(shift), 0, Pow2(shift)), shift) == m
  {
    var one := Pow2(shift);
    assert YRotation(one, 0, one) == Identity(one);
    assert XRotation(one, 0, one) == Identity(one);
    assert ZRotation(one, 0, one) == Identity(one);
    ProductIdentityRight(m, shift);
  }

  // ---------------------------------------------------------------------
  // The global matrices and the operations on them
  // ---------------------------------------------------------------------

  /** The entries of a 4x4 array as a matrix value. */
  ghost function Value(m: array2<int>): (v: Mat)
    requires m.Length0 == 4 && m.Length1 == 4
    reads m
    ensures Is4x4(v)
    ensures forall i, j :: 0 <= i < 4 && 0 <= j < 4 ==> v[i][j] == m[i, j]
  {
    seq(4, i requires 0 <= i < 4 reads m => seq(4, j requires 0 <= j < 4 reads m => m[i, j]))
  }

  predicate Is4x4Array(m: array2<int>)
  {
    m.Length0 == 4 && m.Length1 == 4
  }

  /** Two matrices with the same entries are the same value. */
  lemma SameEntries(a: Mat, b: Mat)
    requires Is4x4(a) && Is4x4(b)
    requires forall i, j :: 0 <= i < 4 && 0 <= j < 4 ==> a[i][j] == b[i][j]
    ensures a == b
  {
    forall i | 0 <= i < 4
      ensures a[i] == b[i]
    {
    }
  }

  /** matmult: result becomes the fixed-point product mat1 x mat2. */
  method MatMult(result: array2<int>, mat1: array2<int>, mat2: array2<int>, shift: nat)
    requires Is4x4Array(result) && Is4x4Array(mat1) && Is4x4Array(mat2)
    requires result != mat1 && result != mat2
    modifies result
    ensures Value(result) == Product(Value(mat1), Value(mat2), shift)
  {
    ghost var a, b := Value(mat1), Value(mat2);
    for i := 0 to 4
      invariant forall i', j :: 0 <= i' < i && 0 <= j < 4 ==> result[i', j] == Shr(Dot(a, b, i', j), shift)
    {
      for j := 0 to 4
        invariant forall i', j' :: 0 <= i' < i && 0 <= j' < 4 ==> result[i', j'] == Shr(Dot(a, b, i', j'), shift)
        invariant forall j' :: 0 <= j' < j ==> result[i, j'] == Shr(Dot(a, b, i, j'), shift)
      {
        result[i, j] := Shr(mat1[i, 0] * mat2[0, j] + mat1[i, 1] * mat2[1, j] +
                            mat1[i, 2] * mat2[2, j] + mat1[i, 3] * mat2[3, j], shift);
      }
    }
    SameEntries(Value(result), Product(a, b, shift));
  }

  /** matcopy: dest takes every entry of source. */
  method MatCopy(dest: array2<int>, source: array2<int>)
    requires Is4x4Array(dest) && Is4x4Array(source)
    modifies dest
    ensures Value(dest) == old(Value(source))
  {
    ghost var s := Value(source);
    if dest == source {
      return;
    }
    for i := 0 to 4
      invariant forall i', j :: 0 <= i' < i && 0 <= j < 4 ==> dest[i', j] == s[i'][j]
    {
      for j := 0 to 4
        invariant forall i', j' :: 0 <= i' < i && 0 <= j' < 4 ==> dest[i', j'] == s[i'][j']
        invariant forall j' :: 0 <= j' < j ==> dest[i, j'] == s[i][j']
      {
        dest[i, j] := source[i, j];
      }
    }
    SameEntries(Value(dest), s);
  }

  /** Fills m with the given rows. */
  method SetMatrix(m: array2<int>, v: Mat)
    requires Is4x4Array(m) && Is4x4(v)
    modifies m
    ensures Value(m) == v
  {
    for i := 0 to 4
      invariant forall i', j :: 0 <= i' < i && 0 <= j < 4 ==> m[i', j] == v[i'][j]
    {
      for j := 0 to 4
        invariant forall i', j' :: 0 <= i' < i && 0 <= j' < 4 ==> m[i', j'] == v[i'][j']
        invariant forall j' :: 0 <= j' < j ==> m[i, j'] == v[i][j']
      {
        m[i, j] := v[i][j];
      }
    }
    SameEntries(Value(m), v);
  }

  /**
   * The global transformation matrices with the fixed-point constants and
   * the COS/SIN tables they are built with.
   */
  class Transformer {
    const shift: nat
    const one: int
    const shiftMult: int
    const cos: int -> int
    const sin: int -> int

    const matrix: array2<int>
    const smat: array2<int>
    const rmat: array2<int>
    const zmat: array2<int>
    const xmat: array2<int>
    const ymat: array2<int>
    const tmat: array2<int>

    /** Seven distinct 4x4 arrays. */
    ghost predicate Valid()
    {
      Is4x4Array(matrix) && Is4x4Array(smat) && Is4x4Array(rmat) && Is4x4Array(zmat) &&
      Is4x4Array(xmat) && Is4x4Array(ymat) && Is4x4Array(tmat) &&
      matrix != smat && matrix != rmat && matrix != zmat && matrix != xmat &&
      matrix != ymat && matrix != tmat &&
      xmat != ymat && xmat != zmat && ymat != zmat
    }

    constructor (shift: nat, one: int, shiftMult: int, cos: int -> int, sin: int -> int)
      ensures Valid()
      ensures this.shift == shift && this.one == one && this.shiftMult == shiftMult
      ensures this.cos == cos && this.sin == sin
    {
      this.shift, this.one, this.shiftMult := shift, one, shiftMult;
      this.cos, this.sin := cos, sin;
      matrix := new int[4, 4];
      smat := new int[4, 4];
      rmat := new int[4, 4];
      zmat := new int[4, 4];
      xmat := new int[4, 4];
      ymat := new int[4, 4];
      tmat := new int[4, 4];
    }

    /** inittrans: the master matrix becomes the identity, ONE on the diagonal. */
    method InitTrans()
      requires Valid()
      modifies matrix
      ensures Value(matrix) == Identity(one)
    {
      SetMatrix(matrix, Identity(one));
    }

    /** scale: the scaling matrix is multiplied on the LEFT of the master matrix. */
    method Scale(xs: real, ys: real, zs: real)
      requires Valid()
      modifies smat, matrix
      ensures Value(smat) == ScaleMatrix(xs, ys, zs, shiftMult, one)
      ensures Value(matrix) == Product(ScaleMatrix(xs, ys, zs, shiftMult, one), old(Value(matrix)), shift)
    {
      SetMatrix(smat, ScaleMatrix(xs, ys, zs, shiftMult, one));
      var mat := new int[4, 4];
      MatMult(mat, smat, matrix, shift);
      MatCopy(matrix, mat);
    }

    /** reflect: the reflection matrix is multiplied on the right of the master matrix. */
    method Reflect(xr: int, yr: int, zr: int)
      requires Valid()
      modifies rmat, matrix
      ensures Value(rmat) == ReflectMatrix(xr, yr, zr, shift, one)
      ensures Value(matrix) == Product(old(Value(matrix)), ReflectMatrix(xr, yr, zr, shift, one), shift)
    {
      SetMatrix(rmat, ReflectMatrix(xr, yr, zr, shift, one));
      var mat := new int[4, 4];
      MatMult(mat, matrix, rmat, shift);
      MatCopy(matrix, mat);
    }

    /** The master matrix after rotate: m x ymat x xmat x zmat, in that order. */
    ghost function Rotated(m: Mat, ax: int, ay: int, az: int): (r: Mat)
      requires Is4x4(m)
      ensures Is4x4(r)
    {
      Product(Product(Product(m, YRotation(cos(ay), sin(ay), one), shift),
                      XRotation(cos(ax), sin(ax), one), shift),
              ZRotation(cos(az), sin(az), one), shift)
    }

    /** rotate: y, then x, then z rotation, each multiplied on the right of the master matrix. */
    method Rotate(ax: int, ay: int, az: int)
      requires Valid()
      modifies ymat, xmat, zmat, matrix
      ensures Value(ymat) == YRotation(cos(ay), sin(ay), one)
      ensures Value(xmat) == XRotation(cos(ax), sin(ax), one)
      ensures Value(zmat) == ZRotation(cos(az), sin(az), one)
      ensures Value(matrix) == Rotated(old(Value(matrix)), ax, ay, az)
    {
      SetMatrix(ymat, YRotation(cos(ay), sin(ay), one));
      SetMatrix(xmat, XRotation(cos(ax), sin(ax), one));
      SetMatrix(zmat, ZRotation(cos(az), sin(az), one));
      var mat1 := new int[4, 4];
      var mat2 := new int[4, 4];
      MatMult(mat1, matrix, ymat, shift);
      MatMult(mat2, mat1, xmat, shift);
      MatMult(matrix, mat2, zmat, shift);
    }

    /** translate: the translation matrix is multiplied on the right of the master matrix. */
    method Translate(xt: int, yt: int, zt: int)
      requires Valid()
      modifies tmat, matrix
      ensures Value(tmat) == TranslationMatrix(xt, yt, zt, shift, shiftMult, one)
      ensures Value(matrix) == Product(old(Value(matrix)), TranslationMatrix(xt, yt, zt, shift, shiftMult, one), shift)
    {
      SetMatrix(tmat, TranslationMatrix(xt, yt, zt, shift, shiftMult, one));
      var mat := new int[4, 4];
      MatMult(mat, matrix, tmat, shift);
      MatCopy(matrix, mat);
    }

    /** transform: every vertex of the object gets world coordinates from its local ones. */
    method Transform(obj: Object)
      requires Valid() && 0 <= obj.numberOfVertices <= obj.vertex.Length
      modifies obj.vertex
      ensures obj.vertex[..] == AllWorlded(old(obj.vertex[..]), obj.numberOfVertices, Value(matrix), shift)
    {
      ghost var m := Value(matrix);
      ghost var before := obj.vertex[..];
      var v := 0;
      while v < obj.numberOfVertices
        invariant 0 <= v <= obj.numberOfVertices
        invariant obj.vertex[..] == AllWorlded(before, v, m, shift)
      {
        var vp := obj.vertex[v];
        obj.vertex[v] := vp.(
          wx := Shr(vp.lx * matrix[0, 0] + vp.ly * matrix[1, 0] + vp.lz * matrix[2, 0] + matrix[3, 0], shift),
          wy := Shr(vp.lx * matrix[0, 1] + vp.ly * matrix[1, 1] + vp.lz * matrix[2, 1] + matrix[3, 1], shift),
          wz := Shr(vp.lx * matrix[0, 2] + vp.ly * matrix[1, 2] + vp.lz * matrix[2, 2] + matrix[3, 2], shift));
        v := v + 1;
        assert obj.vertex[..] == AllWorlded(before, v, m, shift);
      }
    }

    /** atransform: every vertex of the object gets view-aligned coordinates from its world ones. */
    method ATransform(obj: Object)
      requires Valid() && 0 <= obj.numberOfVertices <= obj.vertex.Length
      modifies obj.vertex
      ensures obj.vertex[..] == AllAligned(old(obj.vertex[..]), obj.numberOfVertices, Value(matrix), shift)
    {
      ghost var m := Value(matrix);
      ghost var before := obj.vertex[..];
      var v := 0;
      while v < obj.numberOfVertices
        invariant 0 <= v <= obj.numberOfVertices
        invariant obj.vertex[..] == AllAligned(before, v, m, shift)
      {
        var vp := obj.vertex[v];
        obj.vertex[v] := vp.(
          ax := Shr(vp.wx * matrix[0, 0] + vp.wy * matrix[1, 0] + vp.wz * matrix[2, 0] + matrix[3, 0], shift),
          ay := Shr(vp.wx * matrix[0, 1] + vp.wy * matrix[1, 1] + vp.wz * matrix[2, 1] + matrix[3, 1], shift),
          az := Shr(vp.wx * matrix[0, 2] + vp.wy * matrix[1, 2] + vp.wz * matrix[2, 2] + matrix[3, 2], shift));
        v := v + 1;
        assert obj.vertex[..] == AllAligned(before, v, m, shift);
      }
    }
  }
}
