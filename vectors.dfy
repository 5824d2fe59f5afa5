/**
 * The generic 2D and 3D vectors of the Leaf exercise (Vec2<T>, Vec3<T>),
 * instantiated at `int` (Vec2i, Vec3i), where every operation is exact.
 * Division is C++ integer division, which truncates toward zero.
 */
module Vectors {

  datatype Vec2 = Vec2(x: int, y: int)

  datatype Vec3 = Vec3(x: int, y: int, z: int)

  /** The default constructor Vec2(). */
  function Zero2(): Vec2 { Vec2(0, 0) }

  /** The default constructor Vec3(). */
  function Zero3(): Vec3 { Vec3(0, 0, 0) }

  function Dot2(a: Vec2, b: Vec2): int {
    a.x * b.x + a.y * b.y
  }

  function Add2(a: Vec2, b: Vec2): Vec2 {
    Vec2(a.x + b.x, a.y + b.y)
  }

  function Sub2(a: Vec2, b: Vec2): Vec2 {
    Vec2(a.x - b.x, a.y - b.y)
  }

  function Scale2(a: Vec2, k: int): Vec2 {
    Vec2(a.x * k, a.y * k)
  }

  /** C++ `/` on int: the quotient truncated toward zero. */
  function TruncDiv(a: int, b: int): (q: int)
    requires b != 0
    ensures Abs(a - q * b) < Abs(b)
    ensures a - q * b == 0 || (a - q * b > 0 <==> a > 0)
  {
    if a >= 0 then (if b > 0 then a / b else -(a / -b))
    else (if b > 0 then -((-a) / b) else (-a) / (-b))
  }

  function Abs(n: int): nat { if n < 0 then -n else n }

  function Div2(a: Vec2, k: int): Vec2
    requires k != 0
  {
    Vec2(TruncDiv(a.x, k), TruncDiv(a.y, k))
  }

  function Dot3(a: Vec3, b: Vec3): int {
    a.x * b.x + a.y * b.y + a.z * b.z
  }

  /** `a.cross(b)`: a crossed with b. */
  function Cross(a: Vec3, b: Vec3): Vec3 {
    Vec3(a.y * b.z - b.y * a.z, a.z * b.x - a.x * b.z, a.x * b.y - b.x * a.y)
  }

  function Neg3(a: Vec3): Vec3 {
    Vec3(-a.x, -a.y, -a.z)
  }

  /** The default constructors give the zero vector: the unit of `+`, absorbing for dot and cross. */
  lemma DefaultIsZero(a: Vec2, b: Vec3)
    ensures Add2(a, Zero2()) == a && Add2(Zero2(), a) == a && Sub2(a, Zero2()) == a
    ensures Dot2(a, Zero2()) == 0 && Dot2(Zero2(), a) == 0
    ensures Dot3(b, Zero3()) == 0 && Dot3(Zero3(), b) == 0
    ensures Cross(b, Zero3()) == Zero3() && Cross(Zero3(), b) == Zero3()
  {
  }

  lemma Dot2Symmetric(a: Vec2, b: Vec2)
    ensures Dot2(a, b) == Dot2(b, a)
  {
  }

  lemma Dot3Symmetric(a: Vec3, b: Vec3)
    ensures Dot3(a, b) == Dot3(b, a)
  {
  }

  /** Subtracting what was added gives back the original vector. */
  lemma AddSubInverse(a: Vec2, b: Vec2)
    ensures Sub2(Add2(a, b), b) == a
    ensures Add2(Sub2(a, b), b) == a
  {
  }

  /** Scaling distributes over `+`, and the dot product is linear in the scale. */
  lemma ScaleLinear(a: Vec2, b: Vec2, c: Vec2, k: int)
    ensures Scale2(Add2(a, b), k) == Add2(Scale2(a, k), Scale2(b, k))
    ensures Dot2(Scale2(a, k), b) == k * Dot2(a, b)
    ensures Dot2(a, Scale2(b, k)) == k * Dot2(a, b)
    ensures Dot2(Add2(a, b), c) == Dot2(a, c) + Dot2(b, c)
    ensures Dot2(c, Add2(a, b)) == Dot2(c, a) + Dot2(c, b)
  {
    calc {
      Dot2(Scale2(a, k), b);
      (a.x * k) * b.x + (a.y * k) * b.y;
      { assert (a.x * k) * b.x == k * (a.x * b.x); assert (a.y * k) * b.y == k * (a.y * b.y); }
      k * (a.x * b.x) + k * (a.y * b.y);
      k * Dot2(a, b);
    }
  }

  lemma MulBounds(x: int, d: int)
    requires d > 0
    ensures x >= 1 ==> x * d >= d
    ensures x <= -1 ==> x * d <= -d
  {
  }

  lemma EuclideanDivOfMultiple(m: nat, d: int)
    requires d > 0
    ensures (m * d) / d == m
  {
    var q, r := (m * d) / d, (m * d) % d;
    assert (m - q) * d == r;
    MulBounds(m - q, d);
  }

  lemma AbsOfProduct(n: int, k: int)
    ensures Abs(n * k) == Abs(n) * Abs(k)
    ensures n * k >= 0 <==> (n >= 0) == (k >= 0) || n == 0 || k == 0
  {
    if n < 0 && k < 0 {
      assert n * k == (-n) * (-k);
    } else if n < 0 {
      assert n * k == -((-n) * k);
    } else if k < 0 {
      assert n * k == -(n * (-k));
    }
  }

  lemma TruncDivOfMultiple(n: int, k: int)
    requires k != 0
    ensures TruncDiv(n * k, k) == n
  {
    AbsOfProduct(n, k);
    EuclideanDivOfMultiple(Abs(n), Abs(k));
    var a := n * k;
    assert Abs(a) / Abs(k) == Abs(n);
    if a >= 0 && k > 0 {
      assert a == Abs(a);
    } else if a >= 0 {
      assert -k == Abs(k) && a == Abs(a);
    } else if k > 0 {
      assert -a == Abs(a) && k == Abs(k);
    } else {
      assert -a == Abs(a) && -k == Abs(k);
    }
  }

  /** Dividing a scaled vector by the same non-zero scalar undoes the scaling. */
  lemma DivUndoesScale(a: Vec2, k: int)
    requires k != 0
    ensures Div2(Scale2(a, k), k) == a
  {
    TruncDivOfMultiple(a.x, k);
    TruncDivOfMultiple(a.y, k);
  }

  /** C++ division truncates: -7 / 2 is -3, not the floor -4. */
  lemma DivTruncatesTowardZero()
    ensures Div2(Vec2(-7, 7), 2) == Vec2(-3, 3)
  {
  }

  lemma CrossAnticommutative(a: Vec3, b: Vec3)
    ensures Cross(a, b) == Neg3(Cross(b, a))
  {
  }

  lemma CrossSelfZero(a: Vec3)
    ensures Cross(a, a) == Zero3()
  {
  }

  /** The cross product is perpendicular to both of its operands. */
  lemma CrossOrthogonal(a: Vec3, b: Vec3)
    ensures Dot3(a, Cross(a, b)) == 0
    ensures Dot3(b, Cross(a, b)) == 0
  {
    var c := Cross(a, b);
    assert a.x * c.x == a.x * a.y * b.z - a.x * b.y * a.z;
    assert a.y * c.y == a.y * a.z * b.x - a.y * a.x * b.z;
    assert a.z * c.z == a.z * a.x * b.y - a.z * b.x * a.y;
    assert b.x * c.x == b.x * a.y * b.z - b.x * b.y * a.z;
    assert b.y * c.y == b.y * a.z * b.x - b.y * a.x * b.z;
    assert b.z * c.z == b.z * a.x * b.y - b.z * b.x * a.y;
  }

  /** The unit axes are right-handed: x cross y is z, and cyclically. */
  lemma CrossUnitAxes()
    ensures Cross(Vec3(1, 0, 0), Vec3(0, 1, 0)) == Vec3(0, 0, 1)
    ensures Cross(Vec3(0, 1, 0), Vec3(0, 0, 1)) == Vec3(1, 0, 0)
    ensures Cross(Vec3(0, 0, 1), Vec3(1, 0, 0)) == Vec3(0, 1, 0)
  {
    var i, j, k := Vec3(1, 0, 0), Vec3(0, 1, 0), Vec3(0, 0, 1);
    assert i.x * j.y == 1 && j.y * k.z == 1 && k.z * i.x == 1;
    assert i.y * j.z == 0 && j.y * i.z == 0 && i.z * j.x == 0 && i.x * j.z == 0 && j.x * i.y == 0;
    assert j.z * k.x == 0 && k.y * j.z == 0 && j.z * k.x == 0 && j.x * k.z == 0 && k.x * j.y == 0;
    assert k.y * i.z == 0 && i.y * k.z == 0 && k.z * i.x == 1 && k.x * i.z == 0 && i.x * k.y == 0;
  }
}
