/** `src/objects/flat_plane.rs`: a disk whose plane normal is the
    normalized position of its centre. */
module FlatPlanes {
  import opened Options
  import opened Vectors
  import opened Materials

  datatype FlatPlane = FlatPlane(center: Vec3, radius: real, color: Color)

  /** The plane normal the source uses: `normalize(center)`, so it depends
      on where the centre lies relative to the world origin. */
  function Axis(fp: FlatPlane, env: Env): Vec3 { Normalize(env, fp.center) }

  /** `FlatPlane::intersection`: the plane parameter `t` must be strictly
      positive and the hit at most `radius` from the centre (inclusive).
      A ray parallel to the plane divides by zero; for a finite radius the
      IEEE outcome (an infinite or NaN `t` or point) is a miss, as here. */
  function Intersection(fp: FlatPlane, o: Vec3, d: Vec3, env: Env): (r: Option<Hit>)
    ensures r.Some? ==> Dot(d, Axis(fp, env)) != 0.0
    ensures r.Some? ==> r.value.distance == Dot(Sub(fp.center, o), Axis(fp, env)) / Dot(d, Axis(fp, env))
    ensures r.Some? ==> r.value.distance > 0.0
    ensures r.Some? ==> r.value.point == PointAt(o, d, r.value.distance)
    ensures r.Some? ==> Norm(env, Sub(r.value.point, fp.center)) <= fp.radius
    ensures Dot(d, Axis(fp, env)) != 0.0 && Dot(Sub(fp.center, o), Axis(fp, env)) / Dot(d, Axis(fp, env)) > 0.0 &&
      Norm(env, Sub(PointAt(o, d, Dot(Sub(fp.center, o), Axis(fp, env)) / Dot(d, Axis(fp, env))), fp.center)) <= fp.radius
      ==> r.Some?
  {
    var axis := Axis(fp, env);
    var denom := Dot(d, axis);
    if denom == 0.0 then None
    else
      var t := Dot(Sub(fp.center, o), axis) / denom;
      if t > 0.0 then
        var hitPoint := PointAt(o, d, t);
        if Norm(env, Sub(hitPoint, fp.center)) <= fp.radius then Some(Hit(hitPoint, t)) else None
      else None
  }

  lemma QuotientTimesDivisor(num: real, denom: real, t: real, td: real)
    requires denom != 0.0 && t == num / denom && td == t * denom
    ensures td == num
  {
  }

  /** A hit lies on the plane through the centre across `Axis`. */
  lemma HitLiesOnPlane(fp: FlatPlane, o: Vec3, d: Vec3, env: Env)
    ensures Intersection(fp, o, d, env).Some? ==>
      Dot(Sub(Intersection(fp, o, d, env).value.point, fp.center), Axis(fp, env)) == 0.0
  {
    var r := Intersection(fp, o, d, env);
    if r.Some? {
      var axis := Axis(fp, env);
      var t := r.value.distance;
      var denom := Dot(d, axis);
      var num := Dot(Sub(fp.center, o), axis);
      DotScaleLeft(d, axis, t);
      QuotientTimesDivisor(num, denom, t, t * denom);
      assert Sub(r.value.point, fp.center) == Add(Sub(o, fp.center), Scale(d, t));
    }
  }

  /** A disk whose centre is the world origin has no usable normal
      (`normalize` of zero) and is never hit. */
  lemma CenteredAtOriginMisses(fp: FlatPlane, o: Vec3, d: Vec3, env: Env)
    requires fp.center == Zero
    ensures Intersection(fp, o, d, env) == None
  {
    assert Axis(fp, env) == Zero by {
      var n := Norm(env, Zero);
      if n != 0.0 {
        assert Scale(Zero, 1.0 / n) == Zero;
      }
    }
    assert Dot(d, Zero) == 0.0;
  }

  /** `normal_at(p)`: `normalize(p − center)`. At the centre it is the zero
      vector; elsewhere, with a lawful square root, it points from the centre
      towards `p`. */
  function NormalAt(fp: FlatPlane, p: Vec3, env: Env): (n: Vec3)
    ensures p == fp.center ==> n == Zero
    ensures p != fp.center && SqrtAt(env, Dot(Sub(p, fp.center), Sub(p, fp.center))) ==> Dot(n, Sub(p, fp.center)) > 0.0
  {
    var v := Sub(p, fp.center);
    if p != fp.center && SqrtAt(env, Dot(v, v)) then
      assert v != Zero;
      NormalizePositive(env, v);
      Normalize(env, v)
    else Normalize(env, v)
  }

  /** For a point of the plane the returned normal lies in the plane, across
      from the plane normal `Axis`, not along it. */
  lemma NormalLiesInPlane(fp: FlatPlane, p: Vec3, env: Env)
    requires Dot(Sub(p, fp.center), Axis(fp, env)) == 0.0
    ensures Dot(NormalAt(fp, p, env), Axis(fp, env)) == 0.0
  {
    var v := Sub(p, fp.center);
    var n := Norm(env, v);
    if n != 0.0 {
      DotScaleLeft(v, Axis(fp, env), 1.0 / n);
    }
  }
}
