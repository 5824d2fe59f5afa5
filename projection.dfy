/**
 * The projector and the wireframe renderer of the Headphones exercise
 * (computeCoordinates and renderObject).
 *
 * A world point is moved into camera space, projected onto the canvas at
 * the near plane (screen space, camera looking down -Z), normalised to
 * [0, 1] x [0, 1] (NDC) by the right and top canvas bounds, and scaled to
 * raster pixels with the Y axis flipped and a C++ int cast. The point is
 * visible when its screen coordinates lie inside the canvas, bounds
 * included. The raster point is produced whether or not it is visible.
 *
 * The world-to-camera transform (multVecMatrix with the inverse of the
 * camera-to-world matrix) is a parameter: the matrix inverse belongs to the
 * geometry header, which is not part of this model.
 */
module Projection {
  import opened Geometry

  /** The projection of a camera-space point onto the canvas at distance `near`. */
  function ScreenPoint(pCamera: Vec3f, near: real): Vec2f
    requires pCamera.z != 0.0
  {
    Vec2f(pCamera.x / -pCamera.z * near, pCamera.y / -pCamera.z * near)
  }

  /** Screen coordinates rescaled by the right and top canvas bounds. */
  function Ndc(screen: Vec2f, r: real, t: real): Vec2f
    requires r != 0.0 && t != 0.0
  {
    Vec2f((screen.x + r) / (2.0 * r), (screen.y + t) / (2.0 * t))
  }

  /** NDC scaled to the image, Y flipped, each coordinate cast to int. */
  function RasterOf(ndc: Vec2f, imageWidth: nat, imageHeight: nat): Vec2i {
    Vec2i(Trunc(ndc.x * imageWidth as real), Trunc((1.0 - ndc.y) * imageHeight as real))
  }

  /** The visibility test: not left of, right of, below or above the canvas. */
  predicate InCanvas(screen: Vec2f, b: real, l: real, t: real, r: real) {
    !(screen.x < l || screen.x > r || screen.y < b || screen.y > t)
  }

  /** The raster point written to the out-parameter, and whether the point is visible. */
  datatype Projected = Projected(raster: Vec2i, visible: bool)

  function ComputeCoordinates(pWorld: Vec3f, worldToCamera: Vec3f -> Vec3f,
                              b: real, l: real, t: real, r: real, near: real,
                              imageWidth: nat, imageHeight: nat): (p: Projected)
    requires worldToCamera(pWorld).z != 0.0 && r != 0.0 && t != 0.0
    ensures var s := ScreenPoint(worldToCamera(pWorld), near);
      p.visible <==> l <= s.x <= r && b <= s.y <= t
  {
    var pCamera := worldToCamera(pWorld);
    var pScreen := ScreenPoint(pCamera, near);
    var pNDC := Ndc(pScreen, r, t);
    Projected(RasterOf(pNDC, imageWidth, imageHeight), InCanvas(pScreen, b, l, t, r))
  }

  /** The canvas bounds at the near plane. */
  datatype Canvas = Canvas(top: real, bottom: real, right: real, left: real)

  /**
   * The canvas of a camera with focal length `fLength` and film aperture
   * `fAW` x `fAH`, at near-plane distance `nCP`.
   */
  function CanvasBounds(fLength: real, fAW: real, fAH: real, nCP: real): (c: Canvas)
    requires fLength != 0.0
    ensures c.bottom == -c.top && c.left == -c.right
    ensures c.top * fLength == fAH / 2.0 * nCP
    ensures c.right * fLength == fAW / 2.0 * nCP
    ensures fAH != 0.0 && nCP != 0.0 ==> c.top != 0.0
    ensures fAW != 0.0 && nCP != 0.0 ==> c.right != 0.0
    ensures fLength > 0.0 && fAW > 0.0 && fAH > 0.0 && nCP > 0.0 ==> c.top > 0.0 && c.right > 0.0
  {
    var top := (fAH / 2.0) / fLength * nCP;
    var right := (fAW / 2.0) / fLength * nCP;
    Canvas(top, -top, right, -right)
  }

  // Properties of a single projection

  /** The raster point does not depend on the left and bottom bounds: it is produced whatever the visibility. */
  lemma RasterIndependentOfVisibility(pWorld: Vec3f, worldToCamera: Vec3f -> Vec3f,
                                      b1: real, l1: real, b2: real, l2: real, t: real, r: real, near: real,
                                      imageWidth: nat, imageHeight: nat)
    requires worldToCamera(pWorld).z != 0.0 && r != 0.0 && t != 0.0
    ensures ComputeCoordinates(pWorld, worldToCamera, b1, l1, t, r, near, imageWidth, imageHeight).raster
            == ComputeCoordinates(pWorld, worldToCamera, b2, l2, t, r, near, imageWidth, imageHeight).raster
  {
  }

  /** A screen coordinate inside [-bound, bound] has its NDC coordinate in [0, 1]. */
  lemma NdcInUnit(sc: real, bound: real)
    requires bound > 0.0 && -bound <= sc <= bound
    ensures 0.0 <= (sc + bound) / (2.0 * bound) <= 1.0
  {
    var n := (sc + bound) / (2.0 * bound);
    assert n * (2.0 * bound) == sc + bound;
  }

  lemma ScaledUnitInRange(n: real, size: nat)
    requires 0.0 <= n <= 1.0
    ensures 0 <= Trunc(n * size as real) <= size
  {
    assert 0.0 <= n * size as real <= size as real;
    TruncMonotone(n * size as real, size as real);
  }

  /**
   * On a canvas symmetric about the origin, a visible point lands within
   * [0, width] x [0, height]; a point on the right or bottom bound lands one
   * past the last pixel.
   */
  lemma VisibleLandsOnImage(pWorld: Vec3f, worldToCamera: Vec3f -> Vec3f, t: real, r: real, near: real,
                            imageWidth: nat, imageHeight: nat)
    requires worldToCamera(pWorld).z != 0.0 && r > 0.0 && t > 0.0
    ensures var p := ComputeCoordinates(pWorld, worldToCamera, -t, -r, t, r, near, imageWidth, imageHeight);
      p.visible ==> 0 <= p.raster.x <= imageWidth && 0 <= p.raster.y <= imageHeight
  {
    var s := ScreenPoint(worldToCamera(pWorld), near);
    if -r <= s.x <= r && -t <= s.y <= t {
      var n := Ndc(s, r, t);
      NdcInUnit(s.x, r);
      NdcInUnit(s.y, t);
      ScaledUnitInRange(n.x, imageWidth);
      ScaledUnitInRange(1.0 - n.y, imageHeight);
    }
  }

  /** A point right of the canvas lands at or beyond the image's right edge. */
  lemma RightOfCanvasLandsOffImage(pWorld: Vec3f, worldToCamera: Vec3f -> Vec3f, b: real, l: real, t: real, r: real,
                                   near: real, imageWidth: nat, imageHeight: nat)
    requires worldToCamera(pWorld).z != 0.0 && r > 0.0 && t != 0.0
    requires ScreenPoint(worldToCamera(pWorld), near).x > r
    ensures var p := ComputeCoordinates(pWorld, worldToCamera, b, l, t, r, near, imageWidth, imageHeight);
      !p.visible && p.raster.x >= imageWidth
  {
    var s := ScreenPoint(worldToCamera(pWorld), near);
    var n := (s.x + r) / (2.0 * r);
    assert n * (2.0 * r) == s.x + r;
    assert n > 1.0;
    assert n * imageWidth as real >= imageWidth as real;
    TruncMonotone(imageWidth as real, n * imageWidth as real);
  }

  /**
   * A point on the optical axis in front of the camera lands at the
   * centre of the image, (trunc(width / 2), trunc(height / 2)), and on a
   * symmetric canvas it is visible.
   */
  lemma AxisLandsAtCentre(pWorld: Vec3f, worldToCamera: Vec3f -> Vec3f, t: real, r: real, near: real,
                          imageWidth: nat, imageHeight: nat)
    requires worldToCamera(pWorld).x == 0.0 && worldToCamera(pWorld).y == 0.0 && worldToCamera(pWorld).z < 0.0
    requires r > 0.0 && t > 0.0
    ensures var p := ComputeCoordinates(pWorld, worldToCamera, -t, -r, t, r, near, imageWidth, imageHeight);
      p.raster == Vec2i(Trunc(imageWidth as real / 2.0), Trunc(imageHeight as real / 2.0)) && p.visible
  {
    var s := ScreenPoint(worldToCamera(pWorld), near);
    assert s == Vec2f(0.0, 0.0);
    assert Ndc(s, r, t) == Vec2f(0.5, 0.5);
  }

  /** For the program's 512 x 512 image, the axis point lands at pixel (256, 256). */
  lemma AxisLandsAtPixel256(pWorld: Vec3f, worldToCamera: Vec3f -> Vec3f, t: real, r: real, near: real)
    requires worldToCamera(pWorld).x == 0.0 && worldToCamera(pWorld).y == 0.0 && worldToCamera(pWorld).z < 0.0
    requires r > 0.0 && t > 0.0
    ensures ComputeCoordinates(pWorld, worldToCamera, -t, -r, t, r, near, ImageWidth, ImageHeight).raster
            == Vec2i(256, 256)
  {
    AxisLandsAtCentre(pWorld, worldToCamera, t, r, near, ImageWidth, ImageHeight);
  }

  /** The canvas bounds are inclusive: a point exactly on the top-right corner is visible. */
  lemma CornerIsVisible(pWorld: Vec3f, worldToCamera: Vec3f -> Vec3f, b: real, l: real, t: real, r: real,
                        near: real, imageWidth: nat, imageHeight: nat)
    requires worldToCamera(pWorld).z != 0.0 && r != 0.0 && t != 0.0 && l <= r && b <= t
    requires ScreenPoint(worldToCamera(pWorld), near) == Vec2f(r, t)
    ensures ComputeCoordinates(pWorld, worldToCamera, b, l, t, r, near, imageWidth, imageHeight).visible
  {
  }

  /** The NDC map (sc + bound) / (2 bound) is increasing. */
  lemma NdcMonotone(s1: Vec2f, s2: Vec2f, r: real, t: real)
    requires r > 0.0 && t > 0.0
    requires s1.x <= s2.x && s1.y <= s2.y
    ensures Ndc(s1, r, t).x <= Ndc(s2, r, t).x
    ensures Ndc(s1, r, t).y <= Ndc(s2, r, t).y
  {
    RescaleMonotone(s1.x, s2.x, r);
    RescaleMonotone(s1.y, s2.y, t);
  }

  /** One axis of the NDC map: (a + bound) / 2 bound grows with a. */
  lemma RescaleMonotone(a: real, b: real, bound: real)
    requires bound > 0.0 && a <= b
    ensures (a + bound) / (2.0 * bound) <= (b + bound) / (2.0 * bound)
  {
    var na, nb := (a + bound) / (2.0 * bound), (b + bound) / (2.0 * bound);
    assert na * (2.0 * bound) == a + bound && nb * (2.0 * bound) == b + bound;
    assert (nb - na) * (2.0 * bound) == b - a;
  }

  /**
   * Raster X grows with screen X while raster Y shrinks as screen Y grows:
   * the raster origin is the top-left corner.
   */
  lemma RasterOrientation(s1: Vec2f, s2: Vec2f, t: real, r: real, imageWidth: nat, imageHeight: nat)
    requires r > 0.0 && t > 0.0
    requires s1.x <= s2.x && s1.y <= s2.y
    ensures RasterOf(Ndc(s1, r, t), imageWidth, imageHeight).x <= RasterOf(Ndc(s2, r, t), imageWidth, imageHeight).x
    ensures RasterOf(Ndc(s1, r, t), imageWidth, imageHeight).y >= RasterOf(Ndc(s2, r, t), imageWidth, imageHeight).y
  {
    NdcMonotone(s1, s2, r, t);
    RasterXMonotone(Ndc(s1, r, t), Ndc(s2, r, t), imageWidth, imageHeight);
    RasterYReversed(Ndc(s1, r, t), Ndc(s2, r, t), imageWidth, imageHeight);
  }

  lemma RasterXMonotone(n1: Vec2f, n2: Vec2f, imageWidth: nat, imageHeight: nat)
    requires n1.x <= n2.x
    ensures RasterOf(n1, imageWidth, imageHeight).x <= RasterOf(n2, imageWidth, imageHeight).x
  {
    var x1, x2 := Trunc(n1.x * imageWidth as real), Trunc(n2.x * imageWidth as real);
    ScaleMonotone(n1.x, n2.x, imageWidth);
    assert x1 <= x2;
    assert RasterOf(n1, imageWidth, imageHeight).x == x1;
    assert RasterOf(n2, imageWidth, imageHeight).x == x2;
  }

  lemma RasterYReversed(n1: Vec2f, n2: Vec2f, imageWidth: nat, imageHeight: nat)
    requires n1.y <= n2.y
    ensures RasterOf(n1, imageWidth, imageHeight).y >= RasterOf(n2, imageWidth, imageHeight).y
  {
    var y1, y2 := Trunc((1.0 - n1.y) * imageHeight as real), Trunc((1.0 - n2.y) * imageHeight as real);
    FlipMonotone(n1.y, n2.y, imageHeight);
    assert y2 <= y1;
    assert RasterOf(n1, imageWidth, imageHeight).y == y1;
    assert RasterOf(n2, imageWidth, imageHeight).y == y2;
  }

  lemma ScaleMonotone(a: real, b: real, size: nat)
    requires a <= b
    ensures Trunc(a * size as real) <= Trunc(b * size as real)
  {
    var s := size as real;
    var u, v := a * s, b * s;
    assert v - u == (b - a) * s;
    TruncMonotone(u, v);
  }

  lemma FlipMonotone(a: real, b: real, size: nat)
    requires a <= b
    ensures Trunc((1.0 - b) * size as real) <= Trunc((1.0 - a) * size as real)
  {
    var s := size as real;
    var u, v := (1.0 - b) * s, (1.0 - a) * s;
    assert v - u == (b - a) * s;
    TruncMonotone(u, v);
  }

  // The wireframe renderer

  /** The image size renderObject uses. */
  const ImageWidth: nat := 512
  const ImageHeight: nat := 512

  /** One SVG line: from one raster point to another, in the red intensity `colour`. */
  datatype Edge = Edge(from: Vec2i, to: Vec2i, colour: int)

  /**
   * What renderObject relies on without checking: every index of a
   * complete triangle names a vertex, and no such vertex lies in the
   * camera's plane.
   */
  predicate ValidScene(vertices: seq<Vec3f>, triangles: seq<int>, worldToCamera: Vec3f -> Vec3f) {
    forall k :: 0 <= k < |triangles| / 3 * 3 ==>
      0 <= triangles[k] < |vertices| && worldToCamera(vertices[triangles[k]]).z != 0.0
  }

  /** The projection of the vertex named by `triangles[k]`. */
  function ProjectIndex(vertices: seq<Vec3f>, triangles: seq<int>, k: nat, worldToCamera: Vec3f -> Vec3f,
                        c: Canvas, near: real, imageWidth: nat, imageHeight: nat): Projected
    requires ValidScene(vertices, triangles, worldToCamera) && k < |triangles| / 3 * 3
    requires c.top != 0.0 && c.right != 0.0
  {
    ComputeCoordinates(vertices[triangles[k]], worldToCamera, c.bottom, c.left, c.top, c.right,
                       near, imageWidth, imageHeight)
  }

  /** The colour of a triangle: 0 (black) when all three vertices are visible, 255 (red) otherwise. */
  function Colour(visible: bool): int {
    if visible then 0 else 255
  }

  /** The three edges of a triangle, v0 to v1, v1 to v2 and v2 to v0, all in one colour. */
  function TriangleEdges(p0: Projected, p1: Projected, p2: Projected): seq<Edge> {
    var colour := Colour(p0.visible && p1.visible && p2.visible);
    [Edge(p0.raster, p1.raster, colour), Edge(p1.raster, p2.raster, colour), Edge(p2.raster, p0.raster, colour)]
  }

  /** The edges of triangle i. */
  function TriangleAt(vertices: seq<Vec3f>, triangles: seq<int>, i: nat, worldToCamera: Vec3f -> Vec3f,
                      c: Canvas, near: real, imageWidth: nat, imageHeight: nat): seq<Edge>
    requires ValidScene(vertices, triangles, worldToCamera) && i < |triangles| / 3
    requires c.top != 0.0 && c.right != 0.0
  {
    TriangleEdges(ProjectIndex(vertices, triangles, 3 * i, worldToCamera, c, near, imageWidth, imageHeight),
                  ProjectIndex(vertices, triangles, 3 * i + 1, worldToCamera, c, near, imageWidth, imageHeight),
                  ProjectIndex(vertices, triangles, 3 * i + 2, worldToCamera, c, near, imageWidth, imageHeight))
  }

  /** The edges of the first n triangles, in order. */
  function Wireframe(vertices: seq<Vec3f>, triangles: seq<int>, n: nat, worldToCamera: Vec3f -> Vec3f,
                     c: Canvas, near: real, imageWidth: nat, imageHeight: nat): seq<Edge>
    requires ValidScene(vertices, triangles, worldToCamera) && n <= |triangles| / 3
    requires c.top != 0.0 && c.right != 0.0
  {
    if n == 0 then []
    else Wireframe(vertices, triangles, n - 1, worldToCamera, c, near, imageWidth, imageHeight)
         + TriangleAt(vertices, triangles, n - 1, worldToCamera, c, near, imageWidth, imageHeight)
  }

  /** The three edges at positions 3i, 3i+1, 3i+2. */
  function EdgesOf(edges: seq<Edge>, i: nat): seq<Edge>
    requires 3 * i + 3 <= |edges|
  {
    edges[3 * i..3 * i + 3]
  }

  /**
   * The wireframe of n triangles holds exactly three edges per triangle,
   * triangle i's at positions 3i to 3i+2.
   */
  lemma {:induction false} WireframeLayout(vertices: seq<Vec3f>, triangles: seq<int>, n: nat, worldToCamera: Vec3f -> Vec3f,
                                           c: Canvas, near: real, imageWidth: nat, imageHeight: nat)
    requires ValidScene(vertices, triangles, worldToCamera) && n <= |triangles| / 3
    requires c.top != 0.0 && c.right != 0.0
    ensures var w := Wireframe(vertices, triangles, n, worldToCamera, c, near, imageWidth, imageHeight);
      |w| == 3 * n
      && forall i :: 0 <= i < n ==>
           EdgesOf(w, i) == TriangleAt(vertices, triangles, i, worldToCamera, c, near, imageWidth, imageHeight)
  {
    if n > 0 {
      WireframeLayout(vertices, triangles, n - 1, worldToCamera, c, near, imageWidth, imageHeight);
      var prev := Wireframe(vertices, triangles, n - 1, worldToCamera, c, near, imageWidth, imageHeight);
      var w := Wireframe(vertices, triangles, n, worldToCamera, c, near, imageWidth, imageHeight);
      forall i | 0 <= i < n
        ensures EdgesOf(w, i) == TriangleAt(vertices, triangles, i, worldToCamera, c, near, imageWidth, imageHeight)
      {
        if i < n - 1 {
          assert EdgesOf(w, i) == EdgesOf(prev, i);
        }
      }
    }
  }

  /**
   * A triangle's three edges form a closed loop v0, v1, v2 in winding
   * order and share one colour: black exactly when all three vertices are
   * visible, red as soon as one is not.
   */
  lemma TriangleEdgesMeaning(p0: Projected, p1: Projected, p2: Projected)
    ensures var e := TriangleEdges(p0, p1, p2);
      && |e| == 3
      && e[0].from == p0.raster && e[1].from == p1.raster && e[2].from == p2.raster
      && e[0].to == e[1].from && e[1].to == e[2].from && e[2].to == e[0].from
      && e[0].colour == e[1].colour == e[2].colour
      && (e[0].colour == 0 <==> p0.visible && p1.visible && p2.visible)
      && (!p0.visible || !p1.visible || !p2.visible <==> e[0].colour == 255)
  {
  }

  /** Renders the triangles: the loop of renderObject, producing its SVG lines as edges. */
  method RenderTriangles(vertices: seq<Vec3f>, triangles: seq<int>, worldToCamera: Vec3f -> Vec3f,
                         c: Canvas, near: real, imageWidth: nat, imageHeight: nat)
    returns (edges: seq<Edge>)
    requires ValidScene(vertices, triangles, worldToCamera)
    requires c.top != 0.0 && c.right != 0.0
    ensures edges == Wireframe(vertices, triangles, |triangles| / 3, worldToCamera, c, near, imageWidth, imageHeight)
  {
    edges := [];
    var i := 0;
    while i < |triangles| / 3
      invariant 0 <= i <= |triangles| / 3
      invariant edges == Wireframe(vertices, triangles, i, worldToCamera, c, near, imageWidth, imageHeight)
    {
      assert 3 * i + 3 <= |triangles| / 3 * 3;
      var v0World := vertices[triangles[3 * i]];
      var v1World := vertices[triangles[3 * i + 1]];
      var v2World := vertices[triangles[3 * i + 2]];
      var visible := true;
      var p0 := ComputeCoordinates(v0World, worldToCamera, c.bottom, c.left, c.top, c.right, near, imageWidth, imageHeight);
      visible := visible && p0.visible;
      var p1 := ComputeCoordinates(v1World, worldToCamera, c.bottom, c.left, c.top, c.right, near, imageWidth, imageHeight);
      visible := visible && p1.visible;
      var p2 := ComputeCoordinates(v2World, worldToCamera, c.bottom, c.left, c.top, c.right, near, imageWidth, imageHeight);
      visible := visible && p2.visible;
      var val := if visible then 0 else 255;
      edges := edges + [Edge(p0.raster, p1.raster, val), Edge(p1.raster, p2.raster, val), Edge(p2.raster, p0.raster, val)];
      i := i + 1;
    }
  }

  /**
   * renderObject: the canvas from the camera settings, a 512 x 512 image,
   * and the wireframe of every complete triangle. The far clipping plane
   * `fCP` is accepted and not used.
   */
  method RenderObject(fLength: real, fAW: real, fAH: real, nCP: real, fCP: real, worldToCamera: Vec3f -> Vec3f,
                      vertices: seq<Vec3f>, triangles: seq<int>)
    returns (edges: seq<Edge>)
    requires fLength != 0.0 && fAW != 0.0 && fAH != 0.0 && nCP != 0.0
    requires ValidScene(vertices, triangles, worldToCamera)
    ensures |edges| == 3 * (|triangles| / 3)
    ensures forall i :: 0 <= i < |triangles| / 3 ==>
      EdgesOf(edges, i) == TriangleAt(vertices, triangles, i, worldToCamera, CanvasBounds(fLength, fAW, fAH, nCP),
                                      nCP, ImageWidth, ImageHeight)
  {
    var c := CanvasBounds(fLength, fAW, fAH, nCP);
    edges := RenderTriangles(vertices, triangles, worldToCamera, c, nCP, ImageWidth, ImageHeight);
    WireframeLayout(vertices, triangles, |triangles| / 3, worldToCamera, c, nCP, ImageWidth, ImageHeight);
  }
}
