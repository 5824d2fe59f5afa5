/**
 * The value types the pinhole-camera programs take from their geometry
 * header: float vectors (modelled over `real`), the integer raster point, the
 * 4x4 homogeneous matrix with its product, and the C++ float-to-int cast.
 */
module Geometry {

  /** A 3D point or vector of floats (Vec3f), modelled over `real`. */
  datatype Vec3f = Vec3f(x: real, y: real, z: real)

  /** A 2D point of floats (Vec2f): screen-space and NDC coordinates. */
  datatype Vec2f = Vec2f(x: real, y: real)

  /** A 2D integer point (Vec2i): raster coordinates, origin at the top left. */
  datatype Vec2i = Vec2i(x: int, y: int)

  ghost predicate IsMat4(m: seq<seq<real>>) {
    |m| == 4 && forall i :: 0 <= i < 4 ==> |m[i]| == 4
  }

  /** A 4x4 matrix in row-major order; points are row vectors multiplied on the left. */
  type Mat4 = m: seq<seq<real>> | IsMat4(m)
    witness [[0.0, 0.0, 0.0, 0.0], [0.0, 0.0, 0.0, 0.0], [0.0, 0.0, 0.0, 0.0], [0.0, 0.0, 0.0, 0.0]]

  function Identity4(): Mat4 {
    [[1.0, 0.0, 0.0, 0.0],
     [0.0, 1.0, 0.0, 0.0],
     [0.0, 0.0, 1.0, 0.0],
     [0.0, 0.0, 0.0, 1.0]]
  }

  /** Entry (i, j) of the product a * b: row i of a against column j of b. */
  function ProductEntry(a: Mat4, b: Mat4, i: nat, j: nat): real
    requires i < 4 && j < 4
  {
    a[i][0] * b[0][j] + a[i][1] * b[1][j] + a[i][2] * b[2][j] + a[i][3] * b[3][j]
  }

  /** The standard 4x4 matrix product a * b. */
  function Multiply(a: Mat4, b: Mat4): (c: Mat4)
    ensures forall i, j :: 0 <= i < 4 && 0 <= j < 4 ==> c[i][j] == ProductEntry(a, b, i, j)
  {
    seq(4, i requires 0 <= i < 4 =>
      seq(4, j requires 0 <= j < 4 => ProductEntry(a, b, i, j)))
  }

  /** Two matrices are equal when all sixteen entries agree. */
  lemma Mat4Ext(a: Mat4, b: Mat4)
    requires forall i, j :: 0 <= i < 4 && 0 <= j < 4 ==> a[i][j] == b[i][j]
    ensures a == b
  {
    forall i | 0 <= i < 4 ensures a[i] == b[i] {
      assert |a[i]| == 4 && |b[i]| == 4;
    }
  }

  /** The identity matrix is a two-sided unit of the product. */
  lemma MultiplyIdentity(m: Mat4)
    ensures Multiply(Identity4(), m) == m
    ensures Multiply(m, Identity4()) == m
  {
    Mat4Ext(Multiply(Identity4(), m), m);
    Mat4Ext(Multiply(m, Identity4()), m);
  }

  /**
   * The C++ cast `(int)f` of a float: truncation toward zero, which differs
   * from the floor for negative non-integers.
   */
  function Trunc(f: real): (n: int)
    ensures f >= 0.0 ==> n as real <= f < n as real + 1.0
    ensures f < 0.0 ==> n as real - 1.0 < f <= n as real
  {
    if f >= 0.0 then f.Floor else -((-f).Floor)
  }

  /** Truncation is monotone. */
  lemma TruncMonotone(f: real, g: real)
    requires f <= g
    ensures Trunc(f) <= Trunc(g)
  {
  }

  /** Truncation and the floor part ways just below zero. */
  lemma TruncIsNotFloor()
    ensures Trunc(-0.5) == 0
    ensures (-0.5).Floor == -1
  {
  }
}
