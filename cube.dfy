/**
 * The cube exercise: the corners of a 2 x 2 x 2 cube in front of a camera
 * at the origin are rotated about the X axis by a 3 x 3 matrix
 * (column-vector convention, point' = M * point) and projected onto a
 * 512 x 512 screen through a canvas at distance 1, without flipping Y.
 *
 * The cosine and sine of the rotation angle are parameters. Printing is
 * modelled by the list of numbered coordinate lines it would show.
 */
module Cube {

  datatype Point = Point(x: real, y: real, z: real)

  const ScreenWidth: int := 512
  const ScreenHeight: int := 512
  const CanvasDist: real := 1.0

  /** The coordinates of a point as the vector (x, y, z). */
  function Coords(p: Point): (v: seq<real>)
    ensures |v| == 3
  {
    [p.x, p.y, p.z]
  }

  /** row[0] * v[0] + ... + row[n-1] * v[n-1], accumulated from the left starting at 0. */
  function RowSum(row: seq<real>, v: seq<real>, n: nat): real
    requires n <= |row| && n <= |v|
  {
    if n == 0 then 0.0 else RowSum(row, v, n - 1) + row[n - 1] * v[n - 1]
  }

  /**
   * What applyTransformR3 indexes without checking: at least three rows
   * (the result is read at 0, 1 and 2), at most three columns (the
   * point has three coordinates), and every row as wide as the first.
   */
  predicate WellShaped(matrix: seq<seq<real>>) {
    |matrix| >= 3 && |matrix[0]| <= 3 && forall i :: 0 <= i < |matrix| ==> |matrix[i]| >= |matrix[0]|
  }

  /** The transformed point: coordinate i is row i of the matrix times the point, over the first row's width. */
  function Transform(matrix: seq<seq<real>>, p: Point): Point
    requires WellShaped(matrix)
  {
    var cols := |matrix[0]|;
    Point(RowSum(matrix[0], Coords(p), cols), RowSum(matrix[1], Coords(p), cols), RowSum(matrix[2], Coords(p), cols))
  }

  /** applyTransformR3: the nested accumulation loop over a zero-initialised result. */
  method ApplyTransformR3(matrix: seq<seq<real>>, point: Point) returns (result: Point)
    requires WellShaped(matrix)
    ensures result == Transform(matrix, point)
  {
    var vector := [point.x, point.y, point.z];
    var rows := |matrix|;
    var cols := |matrix[0]|;
    var acc := seq(rows, _ => 0.0);
    var i := 0;
    while i < rows
      invariant 0 <= i <= rows && |acc| == rows
      invariant forall k :: 0 <= k < i ==> acc[k] == RowSum(matrix[k], vector, cols)
      invariant forall k :: i <= k < rows ==> acc[k] == 0.0
    {
      var j := 0;
      while j < cols
        invariant 0 <= j <= cols && |acc| == rows
        invariant forall k :: 0 <= k < i ==> acc[k] == RowSum(matrix[k], vector, cols)
        invariant forall k :: i < k < rows ==> acc[k] == 0.0
        invariant acc[i] == RowSum(matrix[i], vector, j)
      {
        acc := acc[i := acc[i] + matrix[i][j] * vector[j]];
        j := j + 1;
      }
      i := i + 1;
    }
    result := Point(acc[0], acc[1], acc[2]);
  }

  /** The transform loop of main: every corner is transformed in place, in order. */
  method TransformCorners(matrix: seq<seq<real>>, corners: array<Point>)
    requires WellShaped(matrix)
    modifies corners
    ensures forall k :: 0 <= k < corners.Length ==> corners[k] == Transform(matrix, old(corners[k]))
  {
    for k := 0 to corners.Length
      invariant forall j :: 0 <= j < k ==> corners[j] == Transform(matrix, old(corners[j]))
      invariant forall j :: k <= j < corners.Length ==> corners[j] == old(corners[j])
    {
      corners[k] := ApplyTransformR3(matrix, corners[k]);
    }
  }

  function Identity3(): seq<seq<real>> {
    [[1.0, 0.0, 0.0], [0.0, 1.0, 0.0], [0.0, 0.0, 1.0]]
  }

  /** rot_x: the rotation about the X axis with cosine `c` and sine `s`. */
  function RotX3(c: real, s: real): seq<seq<real>> {
    [[1.0, 0.0, 0.0], [0.0, c, s], [0.0, -s, c]]
  }

  /** With three columns, the transform is the matrix-vector product over all three coordinates. */
  lemma Transform3x3(m: seq<seq<real>>, p: Point)
    requires |m| >= 3 && forall i :: 0 <= i < |m| ==> |m[i]| == 3
    ensures Transform(m, p) == Point(m[0][0] * p.x + m[0][1] * p.y + m[0][2] * p.z,
                                     m[1][0] * p.x + m[1][1] * p.y + m[1][2] * p.z,
                                     m[2][0] * p.x + m[2][1] * p.y + m[2][2] * p.z)
  {
    RowSumOfThree(m[0], Coords(p));
    RowSumOfThree(m[1], Coords(p));
    RowSumOfThree(m[2], Coords(p));
  }

  lemma RowSumOfThree(row: seq<real>, v: seq<real>)
    requires |row| == 3 && |v| == 3
    ensures RowSum(row, v, 3) == row[0] * v[0] + row[1] * v[1] + row[2] * v[2]
  {
    assert RowSum(row, v, 1) == row[0] * v[0];
  }

  /** The identity matrix leaves the point unchanged. */
  lemma IdentityKeepsPoint(p: Point)
    ensures WellShaped(Identity3()) && Transform(Identity3(), p) == p
  {
    Transform3x3(Identity3(), p);
  }

  /** rot_x never changes x and mixes y and z: y' = c y + s z, z' = -s y + c z. */
  lemma RotXMixesYZ(c: real, s: real, p: Point)
    ensures WellShaped(RotX3(c, s))
    ensures Transform(RotX3(c, s), p) == Point(p.x, c * p.y + s * p.z, -s * p.y + c * p.z)
  {
    Transform3x3(RotX3(c, s), p);
  }

  /** When c^2 + s^2 = 1, rot_x keeps the distance from the X axis. */
  lemma RotXKeepsRadius(c: real, s: real, p: Point)
    requires c * c + s * s == 1.0
    ensures var q := Transform(RotX3(c, s), p);
      q.y * q.y + q.z * q.z == p.y * p.y + p.z * p.z
  {
    RotXMixesYZ(c, s, p);
    var y, z := p.y, p.z;
    assert (c * y + s * z) * (c * y + s * z) == c * c * (y * y) + 2.0 * (c * s) * (y * z) + s * s * (z * z);
    assert (-s * y + c * z) * (-s * y + c * z) == s * s * (y * y) - 2.0 * (c * s) * (y * z) + c * c * (z * z);
    assert c * c * (y * y) + s * s * (y * y) == (c * c + s * s) * (y * y);
    assert s * s * (z * z) + c * c * (z * z) == (c * c + s * s) * (z * z);
  }

  function Add(p: Point, q: Point): Point {
    Point(p.x + q.x, p.y + q.y, p.z + q.z)
  }

  lemma {:induction false} RowSumAdditive(row: seq<real>, u: seq<real>, v: seq<real>, w: seq<real>, n: nat)
    requires n <= |row| && n <= |u| && n <= |v| && n <= |w|
    requires forall k :: 0 <= k < n ==> w[k] == u[k] + v[k]
    ensures RowSum(row, w, n) == RowSum(row, u, n) + RowSum(row, v, n)
  {
    if n > 0 {
      RowSumAdditive(row, u, v, w, n - 1);
      assert row[n - 1] * w[n - 1] == row[n - 1] * u[n - 1] + row[n - 1] * v[n - 1];
    }
  }

  /** The transform is linear: transforming a sum is the sum of the transforms. */
  lemma TransformAdditive(m: seq<seq<real>>, p: Point, q: Point)
    requires WellShaped(m)
    ensures Transform(m, Add(p, q)) == Add(Transform(m, p), Transform(m, q))
  {
    var cols := |m[0]|;
    RowSumAdditive(m[0], Coords(p), Coords(q), Coords(Add(p, q)), cols);
    RowSumAdditive(m[1], Coords(p), Coords(q), Coords(Add(p, q)), cols);
    RowSumAdditive(m[2], Coords(p), Coords(q), Coords(Add(p, q)), cols);
  }

  /** A matrix narrower than three columns ignores the coordinates it has no column for. */
  lemma NarrowMatrixIgnoresZ(m: seq<seq<real>>, p: Point, z: real)
    requires WellShaped(m) && |m[0]| <= 2
    ensures Transform(m, p) == Transform(m, p.(z := z))
  {
    var cols := |m[0]|;
    RowSumPrefix(m[0], Coords(p), Coords(p.(z := z)), cols);
    RowSumPrefix(m[1], Coords(p), Coords(p.(z := z)), cols);
    RowSumPrefix(m[2], Coords(p), Coords(p.(z := z)), cols);
  }

  lemma {:induction false} RowSumPrefix(row: seq<real>, u: seq<real>, v: seq<real>, n: nat)
    requires n <= |row| && n <= |u| && n <= |v| && u[..n] == v[..n]
    ensures RowSum(row, u, n) == RowSum(row, v, n)
  {
    if n > 0 {
      assert u[n - 1] == u[..n][n - 1] == v[..n][n - 1] == v[n - 1];
      assert u[..n - 1] == u[..n][..n - 1] == v[..n][..n - 1] == v[..n - 1];
      RowSumPrefix(row, u, v, n - 1);
    }
  }

  // Projection (printCoords)

  /** The screen x of a point: canvas x = x / -z * canvasDist, then scaled from [-1, 1] to [0, width]. */
  function ProjectX(p: Point): real
    requires p.z != 0.0
  {
    ScreenWidth as real * ((p.x / -p.z) * CanvasDist + 1.0) / 2.0
  }

  /** The screen y of a point: the same formula with the height, and no flip. */
  function ProjectY(p: Point): real
    requires p.z != 0.0
  {
    ScreenHeight as real * ((p.y / -p.z) * CanvasDist + 1.0) / 2.0
  }

  /** One printed line: the 1-based number of the point and its screen x and y. */
  datatype CoordLine = CoordLine(index: int, x: real, y: real)

  predicate OffCameraPlane(points: seq<Point>) {
    forall k :: 0 <= k < |points| ==> points[k].z != 0.0
  }

  /** printCoords: numbers the points from 1 and projects each onto the screen. */
  method PrintCoords(points: seq<Point>) returns (lines: seq<CoordLine>)
    requires OffCameraPlane(points)
    ensures |lines| == |points|
    ensures forall k :: 0 <= k < |points| ==>
      lines[k] == CoordLine(k + 1, ProjectX(points[k]), ProjectY(points[k]))
  {
    lines := [];
    var i := 0;
    for n := 0 to |points|
      invariant i == n == |lines|
      invariant forall k :: 0 <= k < n ==> lines[k] == CoordLine(k + 1, ProjectX(points[k]), ProjectY(points[k]))
    {
      var point := points[n];
      var xProj := (point.x / -point.z) * CanvasDist;
      var yProj := (point.y / -point.z) * CanvasDist;
      xProj := ScreenWidth as real * (xProj + 1.0) / 2.0;
      yProj := ScreenHeight as real * (yProj + 1.0) / 2.0;
      i := i + 1;
      lines := lines + [CoordLine(i, xProj, yProj)];
    }
  }

  /** A point straight ahead horizontally (x = 0) lands in the middle column, 256. */
  lemma CentreColumn(p: Point)
    requires p.z != 0.0 && p.x == 0.0
    ensures ProjectX(p) == 256.0
  {
  }

  /** Canvas x in [-1, 1] lands on screen x in [0, 512]. */
  lemma CanvasMapsOntoScreen(p: Point)
    requires p.z != 0.0 && -1.0 <= p.x / -p.z <= 1.0
    ensures 0.0 <= ProjectX(p) <= 512.0
  {
  }

  /**
   * Unlike a raster with its origin at the top, the screen y grows with
   * the point's y at a fixed depth in front of the camera.
   */
  lemma NoYFlip(p: Point, q: Point)
    requires p.z == q.z < 0.0 && p.y <= q.y
    ensures ProjectY(p) <= ProjectY(q)
  {
    var d := -p.z;
    assert p.y / d <= q.y / d by {
      assert (q.y / d - p.y / d) * d == q.y - p.y;
    }
  }

  // The program's cube

  /** The eight corners of the 2 x 2 x 2 cube, between depths 3 and 5 in front of the camera. */
  function CubeCorners(): seq<Point> {
    [Point(1.0, -1.0, -5.0), Point(1.0, -1.0, -3.0), Point(1.0, 1.0, -5.0), Point(1.0, 1.0, -3.0),
     Point(-1.0, -1.0, -5.0), Point(-1.0, -1.0, -3.0), Point(-1.0, 1.0, -5.0), Point(-1.0, 1.0, -3.0)]
  }

  /** The first corner, (1, -1, -5), is printed as x 307.2, y 204.8. */
  lemma FirstCornerOnScreen()
    ensures ProjectX(CubeCorners()[0]) == 307.2 && ProjectY(CubeCorners()[0]) == 204.8
  {
  }

  /**
   * For a rotation with 0 <= s <= c (such as pi/12), every rotated corner
   * stays in front of the camera, so its projection is defined.
   */
  lemma RotatedCubeInFront(c: real, s: real, k: nat)
    requires 0.0 <= s <= c && c > 0.0 && k < 8
    ensures Transform(RotX3(c, s), CubeCorners()[k]).z < 0.0
  {
    RotXMixesYZ(c, s, CubeCorners()[k]);
  }

  /**
   * main: prints the cube's corners, rotates them in place with rot_x and
   * prints them again.
   */
  method CubeProgram(c: real, s: real) returns (original: seq<CoordLine>, rotated: seq<CoordLine>)
    requires 0.0 <= s <= c && c > 0.0
    ensures |original| == 8 && |rotated| == 8
    ensures forall k :: 0 <= k < 8 ==>
      original[k] == CoordLine(k + 1, ProjectX(CubeCorners()[k]), ProjectY(CubeCorners()[k]))
    ensures forall k :: 0 <= k < 8 ==>
      var q := Transform(RotX3(c, s), CubeCorners()[k]);
      q.z < 0.0 && rotated[k] == CoordLine(k + 1, ProjectX(q), ProjectY(q))
  {
    var corners := new Point[8](k requires 0 <= k < 8 => CubeCorners()[k]);
    var rotX := RotX3(c, s);
    RotXMixesYZ(c, s, Point(0.0, 0.0, 0.0));
    assert corners[..] == CubeCorners();
    original := PrintCoords(corners[..]);
    TransformCorners(rotX, corners);
    forall k | 0 <= k < 8 ensures corners[k].z < 0.0 {
      RotatedCubeInFront(c, s, k);
    }
    rotated := PrintCoords(corners[..]);
  }
}
