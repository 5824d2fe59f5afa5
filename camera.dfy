/**
 * The camera-to-world matrix of the Headphones exercise (getCameraToWorld):
 * rotations about X, Y and Z by angles in degrees, then a translation,
 * composed as rotX * rotY * rotZ * translation in the row-vector convention
 * (a point p maps to p * M). The Y rotation uses the negated angle.
 *
 * The degree-based cosine and sine are parameters: `cosDeg` and `sinDeg`
 * stand for the program's own float wrappers around cos and sin.
 */
module Camera {
  import opened Geometry

  function RotX(cosDeg: real -> real, sinDeg: real -> real, a: real): Mat4 {
    [[1.0, 0.0, 0.0, 0.0],
     [0.0, cosDeg(a), sinDeg(a), 0.0],
     [0.0, -sinDeg(a), cosDeg(a), 0.0],
     [0.0, 0.0, 0.0, 1.0]]
  }

  function RotY(cosDeg: real -> real, sinDeg: real -> real, a: real): Mat4 {
    [[cosDeg(-a), 0.0, sinDeg(-a), 0.0],
     [0.0, 1.0, 0.0, 0.0],
     [-sinDeg(-a), 0.0, cosDeg(-a), 0.0],
     [0.0, 0.0, 0.0, 1.0]]
  }

  function RotZ(cosDeg: real -> real, sinDeg: real -> real, a: real): Mat4 {
    [[cosDeg(a), sinDeg(a), 0.0, 0.0],
     [-sinDeg(a), cosDeg(a), 0.0, 0.0],
     [0.0, 0.0, 1.0, 0.0],
     [0.0, 0.0, 0.0, 1.0]]
  }

  function Translation(x: real, y: real, z: real): Mat4 {
    [[1.0, 0.0, 0.0, 0.0],
     [0.0, 1.0, 0.0, 0.0],
     [0.0, 0.0, 1.0, 0.0],
     [x, y, z, 1.0]]
  }

  /** The staged composition rotX * rotY * rotZ * translation. */
  function CameraToWorld(cosDeg: real -> real, sinDeg: real -> real,
                         s1: real, s2: real, s3: real, x: real, y: real, z: real): Mat4
  {
    var temp := Multiply(RotX(cosDeg, sinDeg, s1), RotY(cosDeg, sinDeg, s2));
    var temp2 := Multiply(temp, RotZ(cosDeg, sinDeg, s3));
    Multiply(temp2, Translation(x, y, z))
  }

  /**
   * The same matrix written out as one formula, from the cosines and sines
   * ca, sa (X), cb, sb (Y, of the negated angle) and cc, sc (Z).
   */
  function ClosedForm(ca: real, sa: real, cb: real, sb: real, cc: real, sc: real,
                      x: real, y: real, z: real): Mat4
  {
    RotationRows(ca, sa, cb, sb, cc, sc) + [[x, y, z, 1.0]]
  }

  /** The top three rows of the closed formula: the rotation part. */
  function RotationRows(ca: real, sa: real, cb: real, sb: real, cc: real, sc: real): (rows: seq<seq<real>>)
    ensures |rows| == 3 && forall i :: 0 <= i < 3 ==> |rows[i]| == 4
  {
    [[cb * cc, cb * sc, sb, 0.0],
     [-sa * sb * cc - ca * sc, -sa * sb * sc + ca * cc, sa * cb, 0.0],
     [-ca * sb * cc + sa * sc, -ca * sb * sc - sa * cc, ca * cb, 0.0]]
  }

  /** rotX * rotY written out. */
  function RotXY(ca: real, sa: real, cb: real, sb: real): Mat4 {
    [[cb, 0.0, sb, 0.0],
     [-sa * sb, ca, sa * cb, 0.0],
     [-ca * sb, -sa, ca * cb, 0.0],
     [0.0, 0.0, 0.0, 1.0]]
  }

  lemma RotXYProduct(cosDeg: real -> real, sinDeg: real -> real, s1: real, s2: real)
    ensures Multiply(RotX(cosDeg, sinDeg, s1), RotY(cosDeg, sinDeg, s2))
            == RotXY(cosDeg(s1), sinDeg(s1), cosDeg(-s2), sinDeg(-s2))
  {
    var a, b := RotX(cosDeg, sinDeg, s1), RotY(cosDeg, sinDeg, s2);
    var m := RotXY(cosDeg(s1), sinDeg(s1), cosDeg(-s2), sinDeg(-s2));
    forall i, j | 0 <= i < 4 && 0 <= j < 4 ensures Multiply(a, b)[i][j] == m[i][j] {
      assert Multiply(a, b)[i][j] == ProductEntry(a, b, i, j);
    }
    Mat4Ext(Multiply(a, b), m);
  }

  lemma RotXYZProduct(ca: real, sa: real, cb: real, sb: real, cosDeg: real -> real, sinDeg: real -> real, s3: real)
    ensures Multiply(RotXY(ca, sa, cb, sb), RotZ(cosDeg, sinDeg, s3))
            == ClosedForm(ca, sa, cb, sb, cosDeg(s3), sinDeg(s3), 0.0, 0.0, 0.0)
  {
    var a, b := RotXY(ca, sa, cb, sb), RotZ(cosDeg, sinDeg, s3);
    var m := ClosedForm(ca, sa, cb, sb, cosDeg(s3), sinDeg(s3), 0.0, 0.0, 0.0);
    forall i, j | 0 <= i < 4 && 0 <= j < 4 ensures Multiply(a, b)[i][j] == m[i][j] {
      assert Multiply(a, b)[i][j] == ProductEntry(a, b, i, j);
    }
    Mat4Ext(Multiply(a, b), m);
  }

  /** An affine matrix followed by a translation keeps its linear part and takes the translation as its bottom row. */
  lemma ThenTranslate(m: Mat4, x: real, y: real, z: real)
    requires m[0][3] == 0.0 && m[1][3] == 0.0 && m[2][3] == 0.0 && m[3] == [0.0, 0.0, 0.0, 1.0]
    ensures var r := Multiply(m, Translation(x, y, z));
      r[..3] == m[..3] && r[3] == [x, y, z, 1.0]
  {
    var t := Translation(x, y, z);
    var r := Multiply(m, t);
    forall i | 0 <= i < 3 ensures r[i] == m[i] {
      assert |r[i]| == 4;
      forall j | 0 <= j < 4 ensures r[i][j] == m[i][j] {
        assert r[i][j] == ProductEntry(m, t, i, j);
      }
    }
    assert r[3] == [x, y, z, 1.0] by {
      forall j | 0 <= j < 4 ensures r[3][j] == [x, y, z, 1.0][j] {
        assert r[3][j] == ProductEntry(m, t, 3, j);
      }
    }
  }

  /**
   * The staged product rotX * rotY * rotZ * translation equals the closed
   * formula; the Y rotation enters through the cosine and sine of -s2.
   */
  lemma CameraToWorldClosedForm(cosDeg: real -> real, sinDeg: real -> real,
                                s1: real, s2: real, s3: real, x: real, y: real, z: real)
    ensures CameraToWorld(cosDeg, sinDeg, s1, s2, s3, x, y, z)
            == ClosedForm(cosDeg(s1), sinDeg(s1), cosDeg(-s2), sinDeg(-s2), cosDeg(s3), sinDeg(s3), x, y, z)
  {
    var ca, sa, cb, sb := cosDeg(s1), sinDeg(s1), cosDeg(-s2), sinDeg(-s2);
    RotXYProduct(cosDeg, sinDeg, s1, s2);
    RotXYZProduct(ca, sa, cb, sb, cosDeg, sinDeg, s3);
    var r := ClosedForm(ca, sa, cb, sb, cosDeg(s3), sinDeg(s3), 0.0, 0.0, 0.0);
    ThenTranslate(r, x, y, z);
    var c := CameraToWorld(cosDeg, sinDeg, s1, s2, s3, x, y, z);
    var f := ClosedForm(ca, sa, cb, sb, cosDeg(s3), sinDeg(s3), x, y, z);
    assert r[..3] == f[..3];
    assert c == c[..3] + [c[3]];
  }

  /**
   * The camera-to-world matrix is affine: its last column is (0, 0, 0, 1)
   * and its bottom row is the camera position (x, y, z, 1).
   */
  lemma CameraToWorldAffine(cosDeg: real -> real, sinDeg: real -> real,
                            s1: real, s2: real, s3: real, x: real, y: real, z: real)
    ensures var m := CameraToWorld(cosDeg, sinDeg, s1, s2, s3, x, y, z);
      m[3] == [x, y, z, 1.0] && m[0][3] == 0.0 && m[1][3] == 0.0 && m[2][3] == 0.0
  {
    CameraToWorldClosedForm(cosDeg, sinDeg, s1, s2, s3, x, y, z);
  }

  /** With every cosine 1 and every sine 0 the camera is only translated. */
  lemma NoRotationIsTranslation(cosDeg: real -> real, sinDeg: real -> real,
                                s1: real, s2: real, s3: real, x: real, y: real, z: real)
    requires cosDeg(s1) == 1.0 && cosDeg(-s2) == 1.0 && cosDeg(s3) == 1.0
    requires sinDeg(s1) == 0.0 && sinDeg(-s2) == 0.0 && sinDeg(s3) == 0.0
    ensures CameraToWorld(cosDeg, sinDeg, s1, s2, s3, x, y, z) == Translation(x, y, z)
  {
    CameraToWorldClosedForm(cosDeg, sinDeg, s1, s2, s3, x, y, z);
  }

  /** A camera at the origin with no rotation has the identity as its camera-to-world matrix. */
  lemma OriginCameraIsIdentity(cosDeg: real -> real, sinDeg: real -> real)
    requires cosDeg(0.0) == 1.0 && sinDeg(0.0) == 0.0
    ensures CameraToWorld(cosDeg, sinDeg, 0.0, 0.0, 0.0, 0.0, 0.0, 0.0) == Identity4()
  {
    NoRotationIsTranslation(cosDeg, sinDeg, 0.0, 0.0, 0.0, 0.0, 0.0, 0.0);
  }
}
