/** `src/objects/cube.rs`: the six-face hit test of an axis-aligned cube and
    its normal. */
module Cubes {
  import opened Options
  import opened Vectors
  import opened Materials

  datatype Cube = Cube(center: Vec3, size: real, color: Color, texture: Texture)

  /** A face counts as parallel to the ray below this `|normal · direction|`. */
  const PARALLEL_EPSILON: real := 0.000001
  /** The bound check allows `half_size * 1.0001 * 1.0001`. */
  const TOLERANCE: real := 1.0001

  /** The sign of face `f`: faces are visited as −x, +x, −y, +y, −z, +z. */
  function FaceSign(f: nat): real { if f % 2 == 0 then -1.0 else 1.0 }

  function Bound(c: Cube): real { c.size / 2.0 * TOLERANCE * TOLERANCE }

  /** Every coordinate of `local` within `bound` in absolute value. */
  predicate WithinBounds(local: Vec3, bound: real)
  {
    Abs(local.x) <= bound && Abs(local.y) <= bound && Abs(local.z) <= bound
  }

  lemma DotAxisVector(axis: nat, sign: real, v: Vec3)
    requires axis < 3
    ensures Dot(AxisVector(axis, sign), v) == sign * Component(v, axis)
  {
  }

  /** The candidate hit on the face with outward normal `sign` along `axis`:
      none when the ray runs parallel to it, when the face plane lies behind
      the origin, or when the plane point lies outside the cube. */
  function FaceHit(c: Cube, o: Vec3, d: Vec3, axis: nat, sign: real): (r: Option<Hit>)
    requires axis < 3
    ensures Abs(sign * Component(d, axis)) <= PARALLEL_EPSILON ==> r.None?
    ensures r.Some? ==> r.value.distance >= 0.0
    ensures r.Some? ==> r.value.point == PointAt(o, d, r.value.distance)
    ensures r.Some? ==> WithinBounds(Sub(r.value.point, c.center), Bound(c))
  {
    var normal := AxisVector(axis, sign);
    DotAxisVector(axis, sign, d);
    var faceCenter := Add(c.center, Scale(normal, c.size / 2.0));
    var denom := Dot(normal, d);
    if Abs(denom) > PARALLEL_EPSILON then
      var distance := Dot(Sub(faceCenter, o), normal) / denom;
      if distance >= 0.0 then
        var point := PointAt(o, d, distance);
        if WithinBounds(Sub(point, c.center), c.size / 2.0 * TOLERANCE * TOLERANCE) then
          Some(Hit(point, distance))
        else None
      else None
    else None
  }

  lemma FaceIndex(axis: nat, j: nat)
    requires axis < 3 && j < 2
    ensures (2 * axis + j) / 2 == axis
    ensures FaceSign(2 * axis + j) == [-1.0, 1.0][j]
  {
    if axis == 0 { } else if axis == 1 { } else { }
  }

  /** The six face candidates in the order the nested loops visit them:
      the axis in the outer loop, the sign `-1.0` then `1.0` in the inner one. */
  function Faces(c: Cube, o: Vec3, d: Vec3): (fs: seq<Option<Hit>>)
    ensures |fs| == 6
    ensures forall axis, j :: 0 <= axis < 3 && 0 <= j < 2 ==> fs[2 * axis + j] == FaceHit(c, o, d, axis, [-1.0, 1.0][j])
    ensures forall f :: 0 <= f < 6 ==> fs[f] == FaceHit(c, o, d, f / 2, FaceSign(f))
  {
    var fs := seq(6, f requires 0 <= f < 6 => FaceHit(c, o, d, f / 2, FaceSign(f)));
    assert forall axis, j :: 0 <= axis < 3 && 0 <= j < 2 ==> fs[2 * axis + j] == FaceHit(c, o, d, axis, [-1.0, 1.0][j]) by {
      forall axis, j | 0 <= axis < 3 && 0 <= j < 2
        ensures fs[2 * axis + j] == FaceHit(c, o, d, axis, [-1.0, 1.0][j])
      {
        FaceIndex(axis, j);
      }
    }
    fs
  }

  /** The update of the scan: a candidate replaces the kept hit only when the
      kept one is strictly farther. */
  function Keep(best: Option<Hit>, candidate: Option<Hit>): Option<Hit>
  {
    if candidate.Some? && (best.None? || best.value.distance > candidate.value.distance) then candidate
    else best
  }

  /** Every candidate before `f` is strictly farther than candidate `f`. */
  predicate FirstNearest(cs: seq<Option<Hit>>, f: nat)
    requires f < |cs| && cs[f].Some?
  {
    forall g :: 0 <= g < f && cs[g].Some? ==> cs[g].value.distance > cs[f].value.distance
  }

  /** The hit a left-to-right scan of `cs` keeps. */
  function Nearest(cs: seq<Option<Hit>>): (r: Option<Hit>)
    ensures r.Some? ==> r in cs
  {
    if |cs| == 0 then None else Keep(Nearest(cs[..|cs| - 1]), cs[|cs| - 1])
  }

  /** The scan keeps the nearest candidate, and of equally near ones the
      first; it finds none exactly when there is none. */
  lemma {:induction false} NearestIsFirstMinimum(cs: seq<Option<Hit>>)
    ensures Nearest(cs).None? <==> forall f :: 0 <= f < |cs| ==> cs[f].None?
    ensures Nearest(cs).Some? ==> exists f :: 0 <= f < |cs| && cs[f] == Nearest(cs) && FirstNearest(cs, f)
    ensures Nearest(cs).Some? ==> forall g :: 0 <= g < |cs| && cs[g].Some? ==> Nearest(cs).value.distance <= cs[g].value.distance
  {
    if |cs| > 0 {
      var prefix := cs[..|cs| - 1];
      NearestIsFirstMinimum(prefix);
      assert forall f :: 0 <= f < |cs| - 1 ==> prefix[f] == cs[f];
      var last := |cs| - 1;
      var best := Nearest(prefix);
      if cs[last].Some? && (best.None? || best.value.distance > cs[last].value.distance) {
        assert FirstNearest(cs, last);
      } else if best.Some? {
        var f :| 0 <= f < |prefix| && prefix[f] == best && FirstNearest(prefix, f);
        assert FirstNearest(cs, f);
      }
    }
  }

  /** What `Cube::intersection` returns: the hit on one of the faces, if
      any face is hit, and so on the ray, ahead of the origin and in bounds. */
  function Closest(c: Cube, o: Vec3, d: Vec3): (r: Option<Hit>)
    ensures r.Some? ==> r in Faces(c, o, d)
    ensures r.Some? ==> r.value.distance >= 0.0 && r.value.point == PointAt(o, d, r.value.distance)
    ensures r.Some? ==> WithinBounds(Sub(r.value.point, c.center), Bound(c))
  {
    var fs := Faces(c, o, d);
    var r := Nearest(fs);
    if r.Some? then
      assert exists f :: 0 <= f < 6 && fs[f] == r;
      r
    else r
  }

  /** `Cube::intersection`: the nested axis/sign loops of the source. */
  method Intersection(c: Cube, o: Vec3, d: Vec3) returns (r: Option<Hit>)
    ensures r == Closest(c, o, d)
  {
    ghost var fs := Faces(c, o, d);
    var closest: Option<Hit> := None;
    for axis := 0 to 3
      invariant closest == Nearest(fs[..2 * axis])
    {
      var signs := [-1.0, 1.0];
      for j := 0 to 2
        invariant closest == Nearest(fs[..2 * axis + j])
      {
        var sign := signs[j];
        ghost var k := 2 * axis + j;
        ghost var before := closest;
        var candidate := FaceHit(c, o, d, axis, sign);
        if candidate.Some? && (closest.None? || closest.value.distance > candidate.value.distance) {
          closest := candidate;
        }
        assert closest == Keep(before, fs[k]);
        NearestStep(fs, k);
      }
    }
    assert fs[..6] == fs;
    r := closest;
  }

  /** One more candidate: the scan of the longer prefix keeps or replaces. */
  lemma NearestStep(cs: seq<Option<Hit>>, k: nat)
    requires k < |cs|
    ensures Nearest(cs[..k + 1]) == Keep(Nearest(cs[..k]), cs[k])
  {
    assert cs[..k + 1][..k] == cs[..k];
  }

  /** A cube hit lies ahead of the origin, on the ray, inside the tolerated
      bounds, and no face is hit nearer. */
  lemma ClosestIsNearestFace(c: Cube, o: Vec3, d: Vec3)
    ensures Closest(c, o, d).Some? ==>
      var h := Closest(c, o, d).value;
      h.distance >= 0.0 && h.point == PointAt(o, d, h.distance) &&
      WithinBounds(Sub(h.point, c.center), Bound(c)) &&
      forall f :: 0 <= f < 6 && FaceHit(c, o, d, f / 2, FaceSign(f)).Some? ==>
        h.distance <= FaceHit(c, o, d, f / 2, FaceSign(f)).value.distance
  {
    var fs := Faces(c, o, d);
    NearestIsFirstMinimum(fs);
    if Closest(c, o, d).Some? {
      var f :| 0 <= f < 6 && fs[f] == Closest(c, o, d) && FirstNearest(fs, f);
      assert fs[f] == FaceHit(c, o, d, f / 2, FaceSign(f));
    }
  }

  /** A ray that runs parallel to every face never hits the cube. */
  lemma ParallelMisses(c: Cube, o: Vec3, d: Vec3)
    requires Abs(d.x) <= PARALLEL_EPSILON && Abs(d.y) <= PARALLEL_EPSILON && Abs(d.z) <= PARALLEL_EPSILON
    ensures Closest(c, o, d) == None
  {
    var fs := Faces(c, o, d);
    forall f | 0 <= f < 6 ensures fs[f].None? {
      var axis := f / 2;
      assert Abs(FaceSign(f) * Component(d, axis)) == Abs(Component(d, axis));
    }
    NearestIsFirstMinimum(fs);
  }

  /** `max_by` over the absolute coordinates: a largest element, and the last
      of equal largest ones (`Iterator::max_by` keeps the later of equals). */
  function MaxByLast(s: seq<real>): (i: nat)
    requires |s| > 0
    ensures i < |s|
    ensures forall j :: 0 <= j < |s| ==> s[j] <= s[i]
    ensures forall j :: i < j < |s| ==> s[j] < s[i]
  {
    if |s| == 1 then 0
    else
      var k := MaxByLast(s[..|s| - 1]);
      assert forall j :: 0 <= j < |s| - 1 ==> s[..|s| - 1][j] == s[j];
      if s[k] > s[|s| - 1] then k else |s| - 1
  }

  /** `f64::signum` on a non-NaN: −1 for negatives, +1 otherwise (`+0.0`
      gives +1; `-0.0` is not distinguished from `+0.0` over the reals). */
  function Signum(x: real): real { if x < 0.0 then -1.0 else 1.0 }

  function AbsCoordinates(v: Vec3): seq<real> { [Abs(v.x), Abs(v.y), Abs(v.z)] }

  /** The face axis `normal_at` picks: a largest `|local coordinate|`, the
      last one of a tie. */
  function NormalAxis(c: Cube, p: Vec3): (k: nat)
    ensures k < 3
    ensures forall j :: 0 <= j < 3 ==> Abs(Component(Sub(p, c.center), j)) <= Abs(Component(Sub(p, c.center), k))
    ensures forall j :: k < j < 3 ==> Abs(Component(Sub(p, c.center), j)) < Abs(Component(Sub(p, c.center), k))
  {
    var local := Sub(p, c.center);
    var s := AbsCoordinates(local);
    assert forall j :: 0 <= j < 3 ==> s[j] == Abs(Component(local, j));
    MaxByLast(s)
  }

  /** `normal_at`: a unit vector along `NormalAxis`, with the sign of the
      local coordinate there; the other two components are zero. */
  function NormalAt(c: Cube, p: Vec3): (n: Vec3)
    ensures Component(n, NormalAxis(c, p)) == Signum(Component(Sub(p, c.center), NormalAxis(c, p)))
    ensures forall j :: 0 <= j < 3 && j != NormalAxis(c, p) ==> Component(n, j) == 0.0
    ensures Abs(Component(n, NormalAxis(c, p))) == 1.0
  {
    var local := Sub(p, c.center);
    var axis := NormalAxis(c, p);
    AxisVector(axis, Signum(Component(local, axis)))
  }

  /** On an edge or corner (equal largest coordinates) the last axis wins. */
  lemma CornerPicksLastAxis(c: Cube, p: Vec3)
    requires Abs(p.x - c.center.x) == Abs(p.y - c.center.y) == Abs(p.z - c.center.z)
    ensures NormalAxis(c, p) == 2
    ensures NormalAt(c, p) == Vec3(0.0, 0.0, Signum(p.z - c.center.z))
  {
    var k := NormalAxis(c, p);
    if k < 2 {
      assert false;
    }
  }
}
