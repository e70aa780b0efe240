/** `src/objects/cylinder.rs`: the y-aligned cylinder, its lateral and cap
    candidates and its normal. */
module Cylinders {
  import opened Options
  import opened Vectors
  import opened Materials

  datatype Cylinder = Cylinder(center: Vec3, radius: real, height: real, color: Color)

  /** What `Vector3::len()` returns: the number of elements, not the length. */
  const VECTOR3_LEN: nat := 3
  const Up := Vec3(0.0, 1.0, 0.0)

  function Bottom(cy: Cylinder): Vec3 { cy.center }
  function Top(cy: Cylinder): Vec3 { Vec3(cy.center.x, cy.center.y + cy.height, cy.center.z) }

  /** The cylinder axis, `normalize(top - bottom)`. */
  function Axis(cy: Cylinder, env: Env): Vec3 { Normalize(env, Sub(Top(cy), Bottom(cy))) }

  /** The quadratic of the ray projected onto the plane across the axis. */
  datatype Quadratic = Quadratic(a: real, b: real, c: real, disc: real)

  /** The lateral quadratic: `a` is the squared length of the direction
      across the axis, so never negative, and `disc` is `b² − 4ac`. */
  function Lateral(cy: Cylinder, o: Vec3, d: Vec3, env: Env): (q: Quadratic)
    ensures q.a >= 0.0
    ensures q.disc == q.b * q.b - 4.0 * q.a * q.c
  {
    var axis := Axis(cy, env);
    var toRay := Sub(o, Bottom(cy));
    var projection := Scale(axis, Dot(toRay, axis));
    var effectiveDirection := Sub(d, Scale(axis, Dot(d, axis)));
    var effectiveOrigin := Sub(toRay, projection);
    var a := Dot(effectiveDirection, effectiveDirection);
    DotSelfNonNegative(effectiveDirection);
    var b := 2.0 * Dot(effectiveOrigin, effectiveDirection);
    var c := Dot(effectiveOrigin, effectiveOrigin) - cy.radius * cy.radius;
    Quadratic(a, b, c, b * b - 4.0 * a * c)
  }

  /** The two lateral roots `t1`, `t2`. With `a == 0` the source divides by
      zero and both roots are NaN, which no height test accepts: no roots.
      Otherwise there are two, and when `a > 0` (always, for a ray not
      parallel to the axis) and the root is non-negative the nearer one
      comes first. */
  function Roots(q: Quadratic, env: Env): (ts: seq<real>)
    ensures q.a == 0.0 <==> ts == []
    ensures q.a != 0.0 ==> |ts| == 2
    ensures q.a > 0.0 && 0.0 <= env.sqrt(q.disc) ==> ts[0] <= ts[1]
    ensures q.a != 0.0 ==> ts[0] == (-q.b - env.sqrt(q.disc)) / (2.0 * q.a)
    ensures q.a != 0.0 ==> ts[1] == (-q.b + env.sqrt(q.disc)) / (2.0 * q.a)
  {
    if q.a == 0.0 then []
    else
      var root := env.sqrt(q.disc);
      var t1, t2 := (-q.b - root) / (2.0 * q.a), (-q.b + root) / (2.0 * q.a);
      if q.a > 0.0 && 0.0 <= root then
        DivideMonotone(-q.b - root, -q.b + root, 2.0 * q.a);
        [t1, t2]
      else [t1, t2]
  }

  lemma DivideMonotone(x: real, y: real, k: real)
    requires x <= y && k > 0.0
    ensures x / k <= y / k
  {
  }

  /** With a lawful square root of the discriminant `b² − 4ac`, each root
      solves `a t² + b t + c = 0`. */
  lemma RootsSolveLateral(q: Quadratic, env: Env)
    requires q.disc == q.b * q.b - 4.0 * q.a * q.c && SqrtAt(env, q.disc)
    ensures forall t :: t in Roots(q, env) ==> q.a * t * t + q.b * t + q.c == 0.0
  {
    if q.a != 0.0 {
      var s := env.sqrt(q.disc);
      QuadraticRoot(q.a, q.b, q.c, s, -q.b - s);
      QuadraticRoot(q.a, q.b, q.c, s, -q.b + s);
    }
  }

  /** `u / 2a` solves the quadratic when `u = −b ± s` and `s² = b² − 4ac`. */
  lemma QuadraticRoot(a: real, b: real, c: real, s: real, u: real)
    requires a != 0.0 && s * s == b * b - 4.0 * a * c && (u == -b - s || u == -b + s)
    ensures var t := u / (2.0 * a); a * t * t + b * t + c == 0.0
  {
    var t := u / (2.0 * a);
    assert u == 2.0 * a * t;
    var e := a * t * t + b * t + c;
    assert u * u + 2.0 * b * u + 4.0 * a * c == 4.0 * a * e;
    assert u * u + 2.0 * b * u == s * s - b * b;
    assert 4.0 * a * e == 0.0;
    assert e == (4.0 * a * e) / (4.0 * a);
  }

  /** The height along the axis of the point at parameter `t`. */
  function AxialHeight(cy: Cylinder, o: Vec3, d: Vec3, env: Env, t: real): real
  {
    Dot(Sub(PointAt(o, d, t), Bottom(cy)), Axis(cy, env))
  }

  predicate LateralAccepts(cy: Cylinder, o: Vec3, d: Vec3, env: Env, t: real)
  {
    0.0 < AxialHeight(cy, o, d, env, t) < cy.height
  }

  /** The roots the height test keeps, in order; `t` itself is not tested. */
  function Accepted(cy: Cylinder, o: Vec3, d: Vec3, env: Env, ts: seq<real>): seq<Hit>
  {
    if |ts| == 0 then []
    else
      var rest := Accepted(cy, o, d, env, ts[..|ts| - 1]);
      var t := ts[|ts| - 1];
      if LateralAccepts(cy, o, d, env, t) then rest + [Hit(PointAt(o, d, t), t)] else rest
  }

  /** Exactly the roots of `ts` whose height lies strictly inside
      `(0, height)` become candidates, each at its own point. */
  lemma {:induction false} AcceptedIsFilter(cy: Cylinder, o: Vec3, d: Vec3, env: Env, ts: seq<real>)
    ensures forall h :: h in Accepted(cy, o, d, env, ts) ==>
      h.distance in ts && LateralAccepts(cy, o, d, env, h.distance) && h.point == PointAt(o, d, h.distance)
    ensures forall t :: t in ts && LateralAccepts(cy, o, d, env, t) ==> Hit(PointAt(o, d, t), t) in Accepted(cy, o, d, env, ts)
  {
    if |ts| > 0 {
      var prefix := ts[..|ts| - 1];
      AcceptedIsFilter(cy, o, d, env, prefix);
      assert ts == prefix + [ts[|ts| - 1]];
    }
  }

  /** The closure `check_plane_intersection`: the cap plane through
      `planeCenter` with normal `Up`, hit at `t > 0`, accepted when
      `Vector3::len()` (always 3) is at most the radius. A ray with
      `d.y == 0` divides by zero and is taken as missing the cap. */
  function CapHit(cy: Cylinder, o: Vec3, d: Vec3, planeCenter: Vec3): (r: Option<Hit>)
    ensures r.Some? <==> Dot(d, Up) != 0.0 && Dot(Sub(planeCenter, o), Up) / Dot(d, Up) > 0.0 && VECTOR3_LEN as real <= cy.radius
    ensures r.Some? ==> r.value.distance > 0.0 && r.value.point == PointAt(o, d, r.value.distance)
  {
    var denom := Dot(d, Up);
    if denom == 0.0 then None
    else
      var t := Dot(Sub(planeCenter, o), Up) / denom;
      if t > 0.0 then
        var hitPoint := PointAt(o, d, t);
        if VECTOR3_LEN as real <= cy.radius then Some(Hit(hitPoint, t)) else None
      else None
  }

  /** The bottom cap, then the top cap. */
  function CapHits(cy: Cylinder, o: Vec3, d: Vec3): seq<Hit>
  {
    var bottom := CapHit(cy, o, d, Bottom(cy));
    var top := CapHit(cy, o, d, Top(cy));
    (if bottom.Some? then [bottom.value] else []) + (if top.Some? then [top.value] else [])
  }

  /** A cap is never accepted on a cylinder of radius below 3, wherever the
      ray crosses the cap plane, and on radius 3 or more a cap plane crossed
      ahead of the origin always is. */
  lemma CapsDependOnlyOnRadius(cy: Cylinder, o: Vec3, d: Vec3)
    ensures cy.radius < 3.0 ==> CapHits(cy, o, d) == []
    ensures 3.0 <= cy.radius && d.y != 0.0 && (Bottom(cy).y - o.y) / d.y > 0.0 ==>
      CapHits(cy, o, d) != [] && CapHits(cy, o, d)[0].distance == (Bottom(cy).y - o.y) / d.y
  {
  }

  /** `min_by` on the distances: a least candidate, the first of equal ones. */
  function MinByFirst(hs: seq<Hit>): (m: Option<Hit>)
    ensures m.None? <==> hs == []
    ensures m.Some? ==> m.value in hs
  {
    if |hs| == 0 then None
    else
      var m := MinByFirst(hs[..|hs| - 1]);
      var last := hs[|hs| - 1];
      if m.None? || last.distance < m.value.distance then Some(last) else m
  }

  /** Every candidate before `i` is strictly farther than candidate `i`. */
  predicate FirstLeast(hs: seq<Hit>, i: nat)
    requires i < |hs|
  {
    forall j :: 0 <= j < i ==> hs[j].distance > hs[i].distance
  }

  lemma {:induction false} MinByFirstIsFirstLeast(hs: seq<Hit>)
    ensures MinByFirst(hs).None? <==> hs == []
    ensures MinByFirst(hs).Some? ==> exists i :: 0 <= i < |hs| && hs[i] == MinByFirst(hs).value && FirstLeast(hs, i)
    ensures MinByFirst(hs).Some? ==> forall j :: 0 <= j < |hs| ==> MinByFirst(hs).value.distance <= hs[j].distance
  {
    if |hs| > 0 {
      var prefix := hs[..|hs| - 1];
      MinByFirstIsFirstLeast(prefix);
      assert forall j :: 0 <= j < |hs| - 1 ==> prefix[j] == hs[j];
      var m := MinByFirst(prefix);
      if m.Some? && !(hs[|hs| - 1].distance < m.value.distance) {
        var i :| 0 <= i < |prefix| && prefix[i] == m.value && FirstLeast(prefix, i);
        assert hs[i] == m.value && FirstLeast(hs, i);
      }
    }
  }

  /** All candidates in the order the source collects them: the accepted
      lateral roots `t1`, `t2`, then the bottom and top caps. */
  function Candidates(cy: Cylinder, o: Vec3, d: Vec3, env: Env): seq<Hit>
  {
    Accepted(cy, o, d, env, Roots(Lateral(cy, o, d, env), env)) + CapHits(cy, o, d)
  }

  /** What `Cylinder::intersection` returns: nothing on a negative lateral
      discriminant, else one of the candidates, if there is any. */
  function IntersectionOf(cy: Cylinder, o: Vec3, d: Vec3, env: Env): (r: Option<Hit>)
    ensures Lateral(cy, o, d, env).disc < 0.0 ==> r == None
    ensures Lateral(cy, o, d, env).disc >= 0.0 ==> (r.None? <==> Candidates(cy, o, d, env) == [])
    ensures r.Some? ==> r.value in Candidates(cy, o, d, env)
  {
    if Lateral(cy, o, d, env).disc < 0.0 then None else MinByFirst(Candidates(cy, o, d, env))
  }

  /** `Cylinder::intersection`: the lateral roots are pushed in a loop, the
      caps by the plane closure, and the least distance is taken. */
  method Intersection(cy: Cylinder, o: Vec3, d: Vec3, env: Env) returns (r: Option<Hit>)
    ensures r == IntersectionOf(cy, o, d, env)
  {
    var q := Lateral(cy, o, d, env);
    if q.disc < 0.0 {
      return None;
    }
    var ts := Roots(q, env);
    var valid: seq<Hit> := [];
    for k := 0 to |ts|
      invariant valid == Accepted(cy, o, d, env, ts[..k])
    {
      var t := ts[k];
      var point := PointAt(o, d, t);
      var height := Dot(Sub(point, Bottom(cy)), Axis(cy, env));
      assert ts[..k + 1][..k] == ts[..k] && ts[..k + 1][k] == t;
      assert height == AxialHeight(cy, o, d, env, t);
      if 0.0 < height < cy.height {
        valid := valid + [Hit(point, t)];
      }
    }
    assert ts[..|ts|] == ts;
    assert valid == Accepted(cy, o, d, env, Roots(q, env));
    var caps: seq<Hit> := [];
    var bottom := CapHit(cy, o, d, Bottom(cy));
    if bottom.Some? {
      caps := caps + [bottom.value];
    }
    var top := CapHit(cy, o, d, Top(cy));
    if top.Some? {
      caps := caps + [top.value];
    }
    assert caps == CapHits(cy, o, d);
    valid := valid + caps;
    r := MinByFirst(valid);
  }

  /** A negative lateral discriminant misses, whatever the caps would give. */
  lemma NegativeDiscriminantMisses(cy: Cylinder, o: Vec3, d: Vec3, env: Env)
    requires Lateral(cy, o, d, env).disc < 0.0
    ensures IntersectionOf(cy, o, d, env) == None
  {
  }

  /** A hit is a candidate of least distance: a lateral one strictly inside
      the height, or a cap ahead of the origin on a cylinder of radius at
      least 3. */
  lemma IntersectionIsLeastCandidate(cy: Cylinder, o: Vec3, d: Vec3, env: Env)
    ensures IntersectionOf(cy, o, d, env).Some? ==> IntersectionOf(cy, o, d, env).value in Candidates(cy, o, d, env)
    ensures IntersectionOf(cy, o, d, env).Some? ==>
      var h := IntersectionOf(cy, o, d, env).value;
      h.point == PointAt(o, d, h.distance) &&
      (LateralAccepts(cy, o, d, env, h.distance) || (h.distance > 0.0 && 3.0 <= cy.radius)) &&
      forall g :: g in Candidates(cy, o, d, env) ==> h.distance <= g.distance
  {
    if IntersectionOf(cy, o, d, env).Some? {
      var cs := Candidates(cy, o, d, env);
      MinByFirstIsFirstLeast(cs);
      var h := MinByFirst(cs).value;
      var i :| 0 <= i < |cs| && cs[i] == h && FirstLeast(cs, i);
      CandidateShape(cy, o, d, env, cs[i]);
    }
  }

  /** Every candidate lies on the ray: a lateral one strictly inside the
      height, a cap one ahead of the origin on a radius of at least 3. */
  lemma CandidateShape(cy: Cylinder, o: Vec3, d: Vec3, env: Env, g: Hit)
    requires g in Candidates(cy, o, d, env)
    ensures g.point == PointAt(o, d, g.distance)
    ensures LateralAccepts(cy, o, d, env, g.distance) || (g.distance > 0.0 && 3.0 <= cy.radius)
  {
    var ts := Roots(Lateral(cy, o, d, env), env);
    AcceptedIsFilter(cy, o, d, env, ts);
    if g !in Accepted(cy, o, d, env, ts) {
      assert g in CapHits(cy, o, d);
    }
  }

  /** `normal_at`: the top-cap normal when `len()` (3) is at most the radius,
      else the normalized radial direction, which has no y component and,
      off the axis and with a lawful square root, points from the axis
      towards `p`. */
  function NormalAt(cy: Cylinder, p: Vec3, env: Env): (n: Vec3)
    ensures n == Up <==> VECTOR3_LEN as real <= cy.radius
    ensures cy.radius < 3.0 ==> n.y == 0.0
    ensures cy.radius < 3.0 && Radial(cy, p) != Zero && SqrtAt(env, Dot(Radial(cy, p), Radial(cy, p))) ==>
      Dot(n, Radial(cy, p)) > 0.0
    ensures n != Vec3(0.0, -1.0, 0.0)
  {
    if VECTOR3_LEN as real <= cy.radius then Up
    else
      var projection := Scale(Up, Dot(Sub(p, cy.center), Up));
      var radial := Sub(Sub(p, cy.center), projection);
      assert radial.y == 0.0;
      assert radial == Radial(cy, p);
      if radial != Zero && SqrtAt(env, Dot(radial, radial)) then
        NormalizePositive(env, radial);
        Normalize(env, radial)
      else Normalize(env, radial)
  }

  /** The offset of `p` from the cylinder's axis, across the axis. */
  function Radial(cy: Cylinder, p: Vec3): Vec3
  {
    Vec3(p.x - cy.center.x, 0.0, p.z - cy.center.z)
  }
}
