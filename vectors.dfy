/**
 * Real-valued 2- and 3-component vectors and the two interpolation
 * helpers of the 3D library that the camera rig and the cursor field use.
 * IEEE doubles are modelled as mathematical reals.
 */
module Vectors {
  datatype Vec2 = Vec2(x: real, y: real)
  datatype Vec3 = Vec3(x: real, y: real, z: real)

  const Zero2: Vec2 := Vec2(0.0, 0.0)
  const Zero3: Vec3 := Vec3(0.0, 0.0, 0.0)

  function Add(a: Vec3, b: Vec3): Vec3 {
    Vec3(a.x + b.x, a.y + b.y, a.z + b.z)
  }

  function Scale(a: Vec3, k: real): Vec3 {
    Vec3(a.x * k, a.y * k, a.z * k)
  }

  /** True when `r` lies in the closed interval spanned by `a` and `b`, whichever is smaller. */
  predicate Between(a: real, r: real, b: real) {
    (a <= b && a <= r <= b) || (b <= a && b <= r <= a)
  }

  /** The scalar step `a + (b - a) * alpha` that Vector3.lerp applies per component. */
  function Toward(a: real, b: real, alpha: real): (r: real)
    ensures 0.0 <= alpha <= 1.0 ==> Between(a, r, b)
    ensures alpha == 0.0 ==> r == a
    ensures alpha == 1.0 ==> r == b
    ensures a == b ==> r == a
  {
    if 0.0 <= alpha <= 1.0 then StepBetween(a, b, alpha); a + (b - a) * alpha
    else a + (b - a) * alpha
  }

  /** A step by a fraction in [0, 1] of the way from a to b stays between them. */
  lemma StepBetween(a: real, b: real, alpha: real)
    requires 0.0 <= alpha <= 1.0
    ensures Between(a, a + (b - a) * alpha, b)
  {
    var d := b - a;
    ScaleBetween(d, alpha);
    assert a + (b - a) * alpha == a + d * alpha;
    if d >= 0.0 {
      assert a <= a + d * alpha <= b;
    } else {
      assert b <= a + d * alpha <= a;
    }
  }

  /** Vector3.lerp(v, alpha): every component moves by the fraction alpha toward v. */
  function VLerp(a: Vec3, b: Vec3, alpha: real): (r: Vec3)
    ensures r == Vec3(Toward(a.x, b.x, alpha), Toward(a.y, b.y, alpha), Toward(a.z, b.z, alpha))
    ensures 0.0 <= alpha <= 1.0 ==> Between(a.x, r.x, b.x) && Between(a.y, r.y, b.y) && Between(a.z, r.z, b.z)
    ensures a == b ==> r == a
  {
    Vec3(a.x + (b.x - a.x) * alpha, a.y + (b.y - a.y) * alpha, a.z + (b.z - a.z) * alpha)
  }

  lemma MulNonneg(a: real, b: real)
    requires 0.0 <= a && 0.0 <= b
    ensures 0.0 <= a * b
  {
  }

  /** Scaling by a fraction in [0, 1] keeps a number between 0 and itself. */
  lemma ScaleBetween(d: real, t: real)
    requires 0.0 <= t <= 1.0
    ensures d >= 0.0 ==> 0.0 <= d * t <= d
    ensures d < 0.0 ==> d <= d * t <= 0.0
  {
    if d >= 0.0 {
      MulNonneg(d, t);
      MulNonneg(d, 1.0 - t);
    } else {
      MulNonneg(-d, t);
      MulNonneg(-d, 1.0 - t);
    }
  }

  lemma MulPos(a: real, b: real)
    requires 0.0 < a && 0.0 < b
    ensures 0.0 < a * b
  {
  }

  lemma DivNonneg(a: real, b: real)
    requires 0.0 <= a && 0.0 < b
    ensures 0.0 <= a / b
  {
    var f := a / b;
    assert f * b == a;
    if f < 0.0 {
      MulPos(b, -f);
      assert false;
    }
  }

  lemma MulLe(a: real, b: real, c: real)
    requires 0.0 <= a && b <= c
    ensures a * b <= a * c
  {
    MulNonneg(a, c - b);
  }

  /** Squaring is monotone on the non-negative reals. */
  lemma SquareMonotone(x: real, y: real)
    requires 0.0 <= x <= y
    ensures x * x <= y * y
  {
    MulLe(x, x, y);
    MulLe(y, x, y);
    assert x * y == y * x;
  }

  lemma SquareNonneg(a: real)
    ensures 0.0 <= a * a
  {
    if a < 0.0 { MulNonneg(-a, -a); } else { MulNonneg(a, a); }
  }

  /** MathUtils.lerp(x, y, t), written as the library writes it: (1 - t) * x + t * y. */
  function Lerp(x: real, y: real, t: real): (r: real)
    ensures 0.0 <= t <= 1.0 ==> Between(x, r, y)
    ensures x == y ==> r == x
    ensures r == Toward(x, y, t)
  {
    var r := (1.0 - t) * x + t * y;
    assert r == x + (y - x) * t == Toward(x, y, t);
    r
  }
}
