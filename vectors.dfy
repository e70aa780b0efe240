/** Three-component vectors over `real` (nalgebra's `Vector3<f64>`, read as
    exact arithmetic), the square root as an uninterpreted parameter, and the
    hit record `(point, distance)` that the shape files return. */
module Vectors {
  import opened Options

  datatype Vec3 = Vec3(x: real, y: real, z: real)

  const Zero := Vec3(0.0, 0.0, 0.0)

  function Add(a: Vec3, b: Vec3): Vec3 { Vec3(a.x + b.x, a.y + b.y, a.z + b.z) }

  function Sub(a: Vec3, b: Vec3): Vec3 { Vec3(a.x - b.x, a.y - b.y, a.z - b.z) }

  function Scale(v: Vec3, k: real): Vec3 { Vec3(v.x * k, v.y * k, v.z * k) }

  function Dot(a: Vec3, b: Vec3): real { a.x * b.x + a.y * b.y + a.z * b.z }

  /** `v[axis]` */
  function Component(v: Vec3, axis: nat): real
    requires axis < 3
  {
    if axis == 0 then v.x else if axis == 1 then v.y else v.z
  }

  /** `let mut n = Vector3::zeros(); n[axis] = value; n` */
  function AxisVector(axis: nat, value: real): (n: Vec3)
    requires axis < 3
    ensures forall k :: 0 <= k < 3 ==> Component(n, k) == if k == axis then value else 0.0
  {
    if axis == 0 then Vec3(value, 0.0, 0.0)
    else if axis == 1 then Vec3(0.0, value, 0.0)
    else Vec3(0.0, 0.0, value)
  }

  function Abs(x: real): real { if x < 0.0 then -x else x }

  /** The numerical routines the model does not interpret: `f64::sqrt`. */
  datatype Env = Env(sqrt: real -> real)

  /** The one fact about `sqrt` that some lemmas need, at one argument. */
  predicate SqrtAt(env: Env, x: real)
  {
    0.0 <= env.sqrt(x) && env.sqrt(x) * env.sqrt(x) == x
  }

  /** `v.norm()` */
  function Norm(env: Env, v: Vec3): real { env.sqrt(Dot(v, v)) }

  /** `v.normalize()`: `v / v.norm()`. A zero norm (IEEE gives a NaN vector)
      leaves `v` as it is. */
  function Normalize(env: Env, v: Vec3): Vec3
  {
    var n := Norm(env, v);
    if n == 0.0 then v else Scale(v, 1.0 / n)
  }

  lemma DotSelfZero(v: Vec3)
    requires Dot(v, v) == 0.0
    ensures v == Zero
  {
    var xx, yy, zz := v.x * v.x, v.y * v.y, v.z * v.z;
    SquareNonNegative(v.x, v.x, xx);
    SquareNonNegative(v.y, v.y, yy);
    SquareNonNegative(v.z, v.z, zz);
  }

  lemma MulPositive(a: real, b: real)
    requires a > 0.0 && b > 0.0
    ensures a * b > 0.0
  {
  }

  /** `aa` is the square `a * b` with `a == b` (two names keep the solver
      from rewriting the product into a power). */
  lemma SquareNonNegative(a: real, b: real, aa: real)
    requires a == b && aa == a * b
    ensures aa >= 0.0
    ensures a != 0.0 ==> aa > 0.0
  {
    if a < 0.0 {
      MulPositive(-a, -b);
      assert (-a) * (-b) == aa;
    } else if a > 0.0 {
      MulPositive(a, b);
      assert a * b == aa;
    }
  }

  lemma ProductWithZero(a: real, b: real, ab: real)
    requires a == 0.0 && ab == a * b
    ensures ab == 0.0
  {
  }

  lemma DotScaleLeft(a: Vec3, b: Vec3, k: real)
    ensures Dot(Scale(a, k), b) == k * Dot(a, b)
  {
  }

  lemma DotSymmetric(a: Vec3, b: Vec3)
    ensures Dot(a, b) == Dot(b, a)
  {
  }

  lemma DotSub(a: Vec3, b: Vec3, c: Vec3)
    ensures Dot(Sub(a, b), c) == Dot(a, c) - Dot(b, c)
  {
  }

  /** With a lawful square root, normalising a nonzero vector gives a unit vector. */
  lemma NormalizeIsUnit(env: Env, v: Vec3)
    requires v != Zero
    requires SqrtAt(env, Dot(v, v))
    ensures Dot(Normalize(env, v), Normalize(env, v)) == 1.0
  {
    var d := Dot(v, v);
    if d == 0.0 { DotSelfZero(v); }
    var n := env.sqrt(d);
    assert n != 0.0;
    var u := Scale(v, 1.0 / n);
    calc {
      Dot(u, u);
      { DotScaleLeft(v, u, 1.0 / n); }
      (1.0 / n) * Dot(v, u);
      { DotScaleLeft(v, v, 1.0 / n); }
      (1.0 / n) * ((1.0 / n) * d);
      d / (n * n);
      1.0;
    }
  }

  /** Normalising a nonzero vector keeps its direction: the result has a
      positive component along it. */
  lemma NormalizePositive(env: Env, v: Vec3)
    requires v != Zero
    requires SqrtAt(env, Dot(v, v))
    ensures Dot(Normalize(env, v), v) > 0.0
  {
    var d := Dot(v, v);
    if d == 0.0 { DotSelfZero(v); }
    DotPositive(v);
    var n := env.sqrt(d);
    assert n > 0.0;
    DotScaleLeft(v, v, 1.0 / n);
    MulPositive(1.0 / n, d);
  }

  lemma DotSelfNonNegative(v: Vec3)
    ensures Dot(v, v) >= 0.0
  {
    if v != Zero {
      DotPositive(v);
    }
  }

  lemma DotPositive(v: Vec3)
    requires v != Zero
    ensures Dot(v, v) > 0.0
  {
    var xx, yy, zz := v.x * v.x, v.y * v.y, v.z * v.z;
    SquareNonNegative(v.x, v.x, xx);
    SquareNonNegative(v.y, v.y, yy);
    SquareNonNegative(v.z, v.z, zz);
  }

  /** A ray–surface hit as the shape files return it: `(hit_point, distance)`. */
  datatype Hit = Hit(point: Vec3, distance: real)

  /** `origin + direction * t` */
  function PointAt(origin: Vec3, direction: Vec3, t: real): Vec3
  {
    Add(origin, Scale(direction, t))
  }
}
