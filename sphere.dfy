/** `src/objects/sphere.rs`: the ray–sphere test and the sphere normal. */
module Spheres {
  import opened Options
  import opened Vectors
  import opened Materials

  datatype Sphere = Sphere(center: Vec3, radius: real, color: Color)

  /** The quadratic `a t² + b t + c` whose roots are the hit distances. */
  function A(d: Vec3): real { Dot(d, d) }
  function B(s: Sphere, o: Vec3, d: Vec3): real { 2.0 * Dot(Sub(o, s.center), d) }
  function C(s: Sphere, o: Vec3): real { Dot(Sub(o, s.center), Sub(o, s.center)) - s.radius * s.radius }

  function Disc(s: Sphere, o: Vec3, d: Vec3): real
  {
    B(s, o, d) * B(s, o, d) - 4.0 * A(d) * C(s, o)
  }

  /** A positive discriminant needs a moving ray, so the roots are defined. */
  lemma PositiveDiscMovingRay(s: Sphere, o: Vec3, d: Vec3)
    requires Disc(s, o, d) > 0.0
    ensures A(d) != 0.0
  {
    StillRayNoLinearTerm(s, o, d);
    StillQuadratic(A(d), B(s, o, d), C(s, o), Disc(s, o, d));
  }

  lemma StillRayNoLinearTerm(s: Sphere, o: Vec3, d: Vec3)
    ensures A(d) == 0.0 ==> B(s, o, d) == 0.0
  {
    if A(d) == 0.0 {
      DotSelfZero(d);
      DotZeroRight(Sub(o, s.center), d);
    }
  }

  lemma StillQuadratic(a: real, b: real, c: real, disc: real)
    requires disc == b * b - 4.0 * a * c
    ensures a == 0.0 && b == 0.0 ==> disc == 0.0
  {
  }

  lemma DotZeroRight(u: Vec3, d: Vec3)
    requires d.x == 0.0 && d.y == 0.0 && d.z == 0.0
    ensures Dot(u, d) == 0.0
  {
  }

  /** The nearer root `(-b - √disc) / 2a`, the only one the source tries. */
  function NearRoot(s: Sphere, o: Vec3, d: Vec3, env: Env): real
    requires A(d) != 0.0
  {
    (-B(s, o, d) - env.sqrt(Disc(s, o, d))) / (2.0 * A(d))
  }

  function FarRoot(s: Sphere, o: Vec3, d: Vec3, env: Env): real
    requires A(d) != 0.0
  {
    (-B(s, o, d) + env.sqrt(Disc(s, o, d))) / (2.0 * A(d))
  }

  /** `Sphere::intersection`: a hit only for a strictly positive discriminant
      (a tangent ray misses) and a strictly positive nearer root; the point is
      `origin + direction * distance`. */
  function Intersection(s: Sphere, o: Vec3, d: Vec3, env: Env): (r: Option<Hit>)
    ensures r.Some? <==> Disc(s, o, d) > 0.0 && A(d) != 0.0 && NearRoot(s, o, d, env) > 0.0
    ensures r.Some? ==> r.value.distance == NearRoot(s, o, d, env) && r.value.distance > 0.0
    ensures r.Some? ==> r.value.point == PointAt(o, d, r.value.distance)
  {
    var disc := Disc(s, o, d);
    if disc > 0.0 then
      PositiveDiscMovingRay(s, o, d);
      var t := (-B(s, o, d) - env.sqrt(disc)) / (2.0 * A(d));
      if t > 0.0 then Some(Hit(PointAt(o, d, t), t)) else None
    else None
  }

  /** A ray that only grazes the sphere (discriminant zero) is a miss. */
  lemma TangentMisses(s: Sphere, o: Vec3, d: Vec3, env: Env)
    requires Disc(s, o, d) == 0.0
    ensures Intersection(s, o, d, env) == None
  {
  }

  lemma MulNegative(a: real, b: real)
    requires a < 0.0 && b > 0.0
    ensures a / b < 0.0
  {
  }

  lemma SquareLess(p: real, q: real, pp: real, qq: real)
    requires p >= 0.0 && q >= 0.0 && pp == p * p && qq == q * q && pp < qq
    ensures p < q
  {
  }

  /** From inside the sphere the nearer root is negative and the far one
      positive: only the nearer root is tried, so the ray misses although it
      leaves the sphere in front of its origin. */
  lemma OriginInsideMisses(s: Sphere, o: Vec3, d: Vec3, env: Env)
    requires C(s, o) < 0.0
    requires d != Zero
    requires SqrtAt(env, Disc(s, o, d))
    ensures Intersection(s, o, d, env) == None
    ensures A(d) != 0.0 && FarRoot(s, o, d, env) > 0.0
  {
    DotPositive(d);
    InsideRoots(A(d), B(s, o, d), C(s, o), Disc(s, o, d), env.sqrt(Disc(s, o, d)));
  }

  /** The roots of `a t² + b t + c` with `a > 0` and `c < 0` lie on both
      sides of zero. */
  lemma InsideRoots(a: real, b: real, c: real, disc: real, sq: real)
    requires a > 0.0 && c < 0.0 && disc == b * b - 4.0 * a * c
    requires sq >= 0.0 && sq * sq == disc
    ensures disc > 0.0
    ensures (-b - sq) / (2.0 * a) < 0.0 && (-b + sq) / (2.0 * a) > 0.0
  {
    DiscExceedsSquare(a, b, c, disc);
    RootsStraddleLinearTerm(b, sq, disc);
    MulNegative(-b - sq, 2.0 * a);
    MulPositiveQuotient(-b + sq, 2.0 * a);
  }

  /** With `a > 0` and `c < 0` the discriminant exceeds `b²`. */
  lemma DiscExceedsSquare(a: real, b: real, c: real, disc: real)
    requires a > 0.0 && c < 0.0 && disc == b * b - 4.0 * a * c
    ensures disc > b * b
  {
    var ac := a * c;
    MulNegativeFactor(a, c, ac);
    assert 4.0 * a * c == 4.0 * ac;
  }

  lemma MulNegativeFactor(a: real, c: real, ac: real)
    requires a > 0.0 && c < 0.0 && ac == a * c
    ensures ac < 0.0
  {
    MulPositive(a, -c);
    assert a * (-c) == -ac;
  }

  /** A root `sq` of a number above `b²` exceeds `|b|`. */
  lemma RootsStraddleLinearTerm(b: real, sq: real, disc: real)
    requires sq >= 0.0 && sq * sq == disc && disc > b * b
    ensures -b - sq < 0.0 && -b + sq > 0.0
  {
    var bb := b * b;
    var ab := if b < 0.0 then -b else b;
    assert ab * ab == bb;
    SquareNonNegative(ab, ab, bb);
    SquareLess(ab, sq, bb, disc);
  }

  lemma MulPositiveQuotient(a: real, b: real)
    requires a > 0.0 && b > 0.0
    ensures a / b > 0.0
  {
  }

  /** `normal_at(p)`: `normalize(p − center)`. At the centre it is the zero
      vector; elsewhere, with a lawful square root, it points from the centre
      towards `p`. */
  function NormalAt(s: Sphere, p: Vec3, env: Env): (n: Vec3)
    ensures p == s.center ==> n == Zero
    ensures p != s.center && SqrtAt(env, Dot(Sub(p, s.center), Sub(p, s.center))) ==> Dot(n, Sub(p, s.center)) > 0.0
  {
    var v := Sub(p, s.center);
    if p != s.center && SqrtAt(env, Dot(v, v)) then
      assert v != Zero;
      NormalizePositive(env, v);
      Normalize(env, v)
    else Normalize(env, v)
  }

  /** Away from the centre, and with a lawful square root, the normal has
      unit length and points from the centre towards `p`. */
  lemma NormalIsOutwardUnit(s: Sphere, p: Vec3, env: Env)
    requires p != s.center
    requires SqrtAt(env, Dot(Sub(p, s.center), Sub(p, s.center)))
    ensures Dot(NormalAt(s, p, env), NormalAt(s, p, env)) == 1.0
    ensures Dot(NormalAt(s, p, env), Sub(p, s.center)) > 0.0
  {
    var v := Sub(p, s.center);
    assert v != Zero;
    NormalizeIsUnit(env, v);
    NormalizePositive(env, v);
  }
}
