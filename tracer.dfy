/** `src/raytracer/ray.rs`: the recursive path tracer of the revision whose
    colours are `u8` triples. A scene object is seen through the `Object`
    trait only; it is modelled as the record of what the trait returns. */
module Rays {
  import opened Options
  import opened Vectors
  import opened Materials

  const NUM_SECONDARY_RAYS: nat := 5
  const SMALL_OFFSET: real := 0.001
  /** Secondary rays are spawned only while `depth + 1 < DEPTH_LIMIT`. */
  const DEPTH_LIMIT: nat := 5

  /** A `Box<dyn Object>`: its hit test for a ray `(origin, direction)`,
      its normal at a point, its colour and its texture. */
  datatype SceneObject = SceneObject(
    intersect: (Vec3, Vec3) -> Option<Hit>,
    normalAt: Vec3 -> Vec3,
    color: Color,
    texture: Texture)

  /** The hemisphere sampler `generate_new_direction`. Its random draws are
      not modelled: each call is told the path of the ray it serves (the
      indices of the secondaries from the primary ray down), the normal at
      the hit and the incoming direction, so every ray may get its own
      direction. */
  type Sampler = (seq<nat>, Vec3, Vec3) -> Vec3

  /** The scene's object list together with the uninterpreted numerics. */
  datatype World = World(objects: seq<SceneObject>, env: Env, sampler: Sampler)

  /** One channel of `modify_color_based_on_normal`: `(channel as f64 * k) as u8`. */
  function ShadeChannel(channel: Byte, k: real): (b: Byte)
    ensures 0.0 <= k <= 1.0 ==> b <= channel
    ensures k == 0.0 ==> b == 0
  {
    var p := channel as real * k;
    if 0.0 <= k <= 1.0 then
      ProductWithin(channel as real, k, p);
      CastU8(p)
    else CastU8(p)
  }

  lemma ProductWithin(a: real, k: real, p: real)
    requires 0.0 <= a && 0.0 <= k <= 1.0 && p == a * k
    ensures 0.0 <= p <= a
  {
    if a == 0.0 || k == 0.0 {
      assert p == 0.0;
    } else {
      MulPositive(a, k);
      assert 0.0 <= p;
      var q := a * (1.0 - k);
      assert q == a - p;
      if k < 1.0 {
        MulPositive(a, 1.0 - k);
        assert 0.0 <= q;
      } else {
        assert k == 1.0 && p == a;
      }
    }
  }

  /** `modify_color_based_on_normal`: each channel scaled by
      `|normal · normalize(direction)|`. A cosine of at most 1 never
      brightens, and a normal across the ray gives black. */
  function Shade(env: Env, normal: Vec3, direction: Vec3, c: Color): (r: Color)
    ensures Abs(Dot(normal, Normalize(env, direction))) <= 1.0 ==> r.r <= c.r && r.g <= c.g && r.b <= c.b
    ensures Dot(normal, Normalize(env, direction)) == 0.0 ==> r == Color(0, 0, 0)
  {
    var dot := Abs(Dot(normal, Normalize(env, direction)));
    Color(ShadeChannel(c.r, dot), ShadeChannel(c.g, dot), ShadeChannel(c.b, dot))
  }

  /** `reflect`: `d − 2 (d · n) n`. Against a unit normal it is a mirror,
      so the length of the direction is kept. */
  function Reflect(d: Vec3, n: Vec3): (r: Vec3)
    ensures Dot(n, n) == 1.0 ==> Dot(r, r) == Dot(d, d)
  {
    var k := Dot(d, n);
    var m := Scale(n, 2.0 * k);
    var r := Sub(d, m);
    if Dot(n, n) == 1.0 then
      MirrorKeepsLength(d, n, k, m, r);
      r
    else r
  }

  lemma MirrorKeepsLength(d: Vec3, n: Vec3, k: real, m: Vec3, r: Vec3)
    requires Dot(n, n) == 1.0 && k == Dot(d, n) && m == Scale(n, 2.0 * k) && r == Sub(d, m)
    ensures Dot(r, r) == Dot(d, d)
  {
    DotScaleLeft(n, n, 2.0 * k);
    DotSub(d, m, n);
    assert Dot(r, n) == -k;
    DotSub(d, m, r);
    DotScaleLeft(n, r, 2.0 * k);
    DotSymmetric(n, r);
    assert Dot(m, r) == -2.0 * k * k;
    DotSymmetric(d, r);
    DotSub(d, m, d);
    DotScaleLeft(n, d, 2.0 * k);
    DotSymmetric(n, d);
    assert Dot(r, d) == Dot(d, d) - 2.0 * k * k;
  }

  /** Against a unit normal, reflection flips the normal component. */
  lemma ReflectFlipsNormalComponent(d: Vec3, n: Vec3)
    requires Dot(n, n) == 1.0
    ensures Dot(Reflect(d, n), n) == -Dot(d, n)
  {
    DotScaleLeft(n, n, 2.0 * Dot(d, n));
    DotSub(d, Scale(n, 2.0 * Dot(d, n)), n);
  }

  /** Against a unit normal, reflecting twice gives the direction back. */
  lemma ReflectTwice(d: Vec3, n: Vec3)
    requires Dot(n, n) == 1.0
    ensures Reflect(Reflect(d, n), n) == d
  {
    ReflectFlipsNormalComponent(d, n);
  }

  /** The recorded best hit of the object scan and the object it belongs to. */
  datatype Best = Best(index: nat, hit: Hit)

  /** The state of the obj scan: the best hit so far, the colours pushed,
      and whether a light was hit (which ends the trace). */
  datatype Scan = Scan(best: Option<Best>, pushed: seq<Color>, lit: bool)

  /** The scan over the first `n` objects of the scene. */
  function ScanPrefix(w: World, o: Vec3, d: Vec3, n: nat): (s: Scan)
    requires n <= |w.objects|
    ensures s.best.Some? ==> s.best.value.index < n
  {
    if n == 0 then Scan(None, [], false)
    else
      var s := ScanPrefix(w, o, d, n - 1);
      var obj := w.objects[n - 1];
      var candidate := obj.intersect(o, d);
      if s.lit || candidate.None? then s
      else
        var h := candidate.value;
        if s.best.None? || h.distance < s.best.value.hit.distance then
          if obj.texture.Light? then Scan(Some(Best(n - 1, h)), s.pushed + [obj.color], true)
          else Scan(Some(Best(n - 1, h)), s.pushed + [Shade(w.env, obj.normalAt(h.point), d, obj.color)], false)
        else s
  }

  /** What a trace adds to its ray: the colours and the light flag. */
  datatype Traced = Traced(collisions: seq<Color>, lit: bool)

  function Budget(depth: nat): nat { if depth < DEPTH_LIMIT then DEPTH_LIMIT - depth else 0 }

  /** `Ray::trace` from `origin` along `d` at `depth`, as a value. */
  function TraceOf(w: World, o: Vec3, d: Vec3, depth: nat, path: seq<nat>): (t: Traced)
    ensures t.lit ==> ScanPrefix(w, o, d, |w.objects|).lit || depth + 1 < DEPTH_LIMIT
    decreases Budget(depth), 1, 0
  {
    var s := ScanPrefix(w, o, d, |w.objects|);
    if s.lit || s.best.None? then Traced(s.pushed, s.lit)
    else
      var best := s.best.value;
      var normal := w.objects[best.index].normalAt(best.hit.point);
      var more := Secondaries(w, best.hit.point, normal, d, depth, path, NUM_SECONDARY_RAYS);
      Traced(s.pushed + more.collisions, more.lit)
  }

  /** The first `k` iterations of the secondary-ray loop: a child is traced
      only while `depth + 1 < 5`, and its colours are kept, and the flag
      raised, only if it hit a light. */
  function Secondaries(w: World, hitPoint: Vec3, normal: Vec3, d: Vec3, depth: nat, path: seq<nat>, k: nat): (t: Traced)
    ensures t.lit ==> depth + 1 < DEPTH_LIMIT
    decreases Budget(depth), 0, k
  {
    if k == 0 then Traced([], false)
    else
      var prev := Secondaries(w, hitPoint, normal, d, depth, path, k - 1);
      if depth + 1 >= DEPTH_LIMIT then prev
      else
        Gather(prev, ChildTrace(w, hitPoint, normal, d, depth, path, k - 1))
  }

  /** One iteration of the secondary-ray loop: a child that hit a light
      contributes its colours and raises the flag; any other is dropped. */
  function Gather(prev: Traced, child: Traced): Traced
  {
    if child.lit then Traced(prev.collisions + child.collisions, true) else prev
  }

  /** The trace of secondary ray `i`, started a small offset off the hit. */
  function ChildTrace(w: World, hitPoint: Vec3, normal: Vec3, d: Vec3, depth: nat, path: seq<nat>, i: nat): Traced
    requires depth + 1 < DEPTH_LIMIT
    decreases Budget(depth), 0, 0
  {
    var direction := w.sampler(path + [i], normal, d);
    TraceOf(w, Add(hitPoint, Scale(direction, SMALL_OFFSET)), direction, depth + 1, path + [i])
  }

  /** The scan's local variables hold its best hit, and no light was hit. */
  predicate Mirrors(s: Scan, closestIntersection: Option<Hit>, closestObject: Option<nat>)
  {
    !s.lit &&
    (s.best.None? ==> closestIntersection.None? && closestObject.None?) &&
    (s.best.Some? ==> closestIntersection == Some(s.best.value.hit) && closestObject == Some(s.best.value.index))
  }

  const PRIMARY_WEIGHT: real := 0.8
  const SECONDARY_WEIGHT: real := 0.2
  const LIGHT_SOURCE_BOOST: real := 1.0

  function Channel(c: Color, ch: nat): Byte
    requires ch < 3
  {
    if ch == 0 then c.r else if ch == 1 then c.g else c.b
  }

  /** `(channel as f64 * weight) as u32` for a weight in `[0, 1]`. */
  function Weighted(channel: Byte, weight: real): (n: nat)
    requires 0.0 <= weight <= 1.0
    ensures n as real <= channel as real * weight
    ensures n <= channel
  {
    var p := channel as real * weight;
    ProductWithin(channel as real, weight, p);
    Truncate(p)
  }

  /** The secondary contributions to one channel, each weighted by
      `weight`, summed in order. */
  function SecondarySum(cs: seq<Color>, ch: nat, weight: real): nat
    requires ch < 3 && 0.0 <= weight <= 1.0
  {
    if |cs| == 0 then 0
    else SecondarySum(cs[..|cs| - 1], ch, weight) + Weighted(Channel(cs[|cs| - 1], ch), weight)
  }

  /** The `u32` total of one channel for two or more collisions: the first
      weighted by 0.8, each further one by `0.2 / n`. */
  function ChannelTotal(cs: seq<Color>, ch: nat): nat
    requires ch < 3 && |cs| >= 2
  {
    var secondary := cs[1..];
    var n := |secondary|;
    PerColorWeight(n);
    Weighted(Channel(cs[0], ch), PRIMARY_WEIGHT) + SecondarySum(secondary, ch, SECONDARY_WEIGHT / n as real * LIGHT_SOURCE_BOOST)
  }

  lemma PerColorWeight(n: nat)
    requires n > 0
    ensures 0.0 < SECONDARY_WEIGHT / n as real <= SECONDARY_WEIGHT
  {
  }

  /** What `average_color` returns for a list of collisions: the single
      colour itself, a panic on the empty list (it reads `collisions[0]`),
      else the weighted totals divided by `0.8 + 0.2` and cast to `u8`. */
  function AverageOf(cs: seq<Color>): (r: Outcome<Color>)
    ensures r.Panic? <==> cs == []
    ensures |cs| == 1 ==> r == Ok(cs[0])
  {
    if |cs| == 1 then Ok(cs[0])
    else if |cs| == 0 then Panic
    else
      var divisor := PRIMARY_WEIGHT + SECONDARY_WEIGHT;
      Ok(Color(CastU8(ChannelTotal(cs, 0) as real / divisor),
               CastU8(ChannelTotal(cs, 1) as real / divisor),
               CastU8(ChannelTotal(cs, 2) as real / divisor)))
  }

  /** The object loop of `Ray::trace` for a ray from `o` along `d`: every
      hit nearer than the best so far becomes the best and adds a colour to
      `pushed`; the first such hit on a light adds the light's colour and
      ends the loop with `lit` set. */
  method ScanObjects(w: World, o: Vec3, d: Vec3)
    returns (closestIntersection: Option<Hit>, closestObject: Option<nat>, pushed: seq<Color>, lit: bool)
    ensures pushed == ScanPrefix(w, o, d, |w.objects|).pushed
    ensures lit == ScanPrefix(w, o, d, |w.objects|).lit
    ensures !lit ==> Mirrors(ScanPrefix(w, o, d, |w.objects|), closestIntersection, closestObject)
  {
    closestIntersection := None;
    closestObject := None;
    pushed := [];
    for i := 0 to |w.objects|
      invariant Mirrors(ScanPrefix(w, o, d, i), closestIntersection, closestObject)
      invariant pushed == ScanPrefix(w, o, d, i).pushed
    {
      var obj := w.objects[i];
      var hit := obj.intersect(o, d);
      if hit.Some? {
        var h := hit.value;
        if closestIntersection.None? || h.distance < closestIntersection.value.distance {
          closestIntersection := Some(h);
          closestObject := Some(i);
          var color := obj.color;
          if obj.texture.Light? {
            pushed := pushed + [color];
            LitScanStops(w, o, d, i + 1, |w.objects|);
            return closestIntersection, closestObject, pushed, true;
          } else {
            color := Shade(w.env, obj.normalAt(h.point), d, color);
            pushed := pushed + [color];
          }
        }
      }
    }
    lit := false;
  }

  class Ray {
    var origin: Vec3
    var direction: Vec3
    var collisions: seq<Color>
    var hitLightSource: bool

    /** `Ray::new`: no collisions yet and no light hit. */
    constructor (origin: Vec3, direction: Vec3)
      ensures this.origin == origin && this.direction == direction
      ensures collisions == [] && !hitLightSource
    {
      this.origin := origin;
      this.direction := direction;
      collisions := [];
      hitLightSource := false;
    }

    /** `Ray::trace`: the nearest-hit scan with its early return on a light,
        then the depth-limited secondary rays. */
    method Trace(w: World, depth: nat, path: seq<nat>)
      modifies this
      decreases Budget(depth), 2
      ensures origin == old(origin) && direction == old(direction)
      ensures collisions == old(collisions) + TraceOf(w, origin, direction, depth, path).collisions
      ensures hitLightSource == (old(hitLightSource) || TraceOf(w, origin, direction, depth, path).lit)
    {
      var closestIntersection, closestObject, pushed, lit := ScanObjects(w, origin, direction);
      collisions := collisions + pushed;
      if lit {
        hitLightSource := true;
        return;
      }
      if closestObject.Some? {
        var obj := w.objects[closestObject.value];
        var firstHitPoint := closestIntersection.value.point;
        Spawn(w, depth, path, firstHitPoint, obj.normalAt(firstHitPoint));
      }
    }

    /** The secondary-ray loop of `Ray::trace` after a hit at
        `firstHitPoint` with normal `normal`: `NUM_SECONDARY_RAYS` passes,
        each skipped once `depth + 1 >= 5`. */
    method Spawn(w: World, depth: nat, path: seq<nat>, firstHitPoint: Vec3, normal: Vec3)
      modifies this
      decreases Budget(depth), 1
      ensures origin == old(origin) && direction == old(direction)
      ensures collisions == old(collisions) + Secondaries(w, firstHitPoint, normal, direction, depth, path, NUM_SECONDARY_RAYS).collisions
      ensures hitLightSource == (old(hitLightSource) || Secondaries(w, firstHitPoint, normal, direction, depth, path, NUM_SECONDARY_RAYS).lit)
    {
      for k := 0 to NUM_SECONDARY_RAYS
        invariant origin == old(origin) && direction == old(direction)
        invariant collisions == old(collisions) + Secondaries(w, firstHitPoint, normal, direction, depth, path, k).collisions
        invariant hitLightSource == (old(hitLightSource) || Secondaries(w, firstHitPoint, normal, direction, depth, path, k).lit)
      {
        if depth + 1 >= DEPTH_LIMIT {
          continue;
        }
        ghost var prev := Secondaries(w, firstHitPoint, normal, direction, depth, path, k);
        var child := TraceSecondary(w, depth, path, k, firstHitPoint, normal);
        if child.lit {
          assert old(collisions) + prev.collisions + child.collisions == old(collisions) + (prev.collisions + child.collisions);
          collisions := collisions + child.collisions;
          hitLightSource := true;
        }
      }
    }

    /** `Ray::average_color`, its accumulation loop over the secondary
        colours included. */
    method AverageColor() returns (r: Outcome<Color>)
      ensures r == AverageOf(collisions)
    {
      if |collisions| == 1 {
        return Ok(collisions[0]);
      }
      if |collisions| == 0 {
        return Panic;
      }
      var primaryColor := collisions[0];
      var secondaryColors := collisions[1..];
      var totalR := Weighted(primaryColor.r, PRIMARY_WEIGHT);
      var totalG := Weighted(primaryColor.g, PRIMARY_WEIGHT);
      var totalB := Weighted(primaryColor.b, PRIMARY_WEIGHT);
      var numberOfColors := |secondaryColors| as real;
      var perColor := SECONDARY_WEIGHT / numberOfColors;
      PerColorWeight(|secondaryColors|);
      for i := 0 to |secondaryColors|
        invariant totalR == Weighted(primaryColor.r, PRIMARY_WEIGHT) + SecondarySum(secondaryColors[..i], 0, perColor * LIGHT_SOURCE_BOOST)
        invariant totalG == Weighted(primaryColor.g, PRIMARY_WEIGHT) + SecondarySum(secondaryColors[..i], 1, perColor * LIGHT_SOURCE_BOOST)
        invariant totalB == Weighted(primaryColor.b, PRIMARY_WEIGHT) + SecondarySum(secondaryColors[..i], 2, perColor * LIGHT_SOURCE_BOOST)
      {
        var color := secondaryColors[i];
        assert secondaryColors[..i + 1][..i] == secondaryColors[..i];
        totalR := totalR + Weighted(color.r, perColor * LIGHT_SOURCE_BOOST);
        totalG := totalG + Weighted(color.g, perColor * LIGHT_SOURCE_BOOST);
        totalB := totalB + Weighted(color.b, perColor * LIGHT_SOURCE_BOOST);
      }
      assert secondaryColors[..|secondaryColors|] == secondaryColors;
      var divisor := PRIMARY_WEIGHT + SECONDARY_WEIGHT;
      r := Ok(Color(CastU8(totalR as real / divisor), CastU8(totalG as real / divisor), CastU8(totalB as real / divisor)));
    }

    /** One pass of the secondary-ray loop of `Ray::trace`: a fresh ray off
        the hit point along the sampled direction, traced one level deeper;
        what it collected and whether it hit a light. */
    method TraceSecondary(w: World, depth: nat, path: seq<nat>, k: nat, firstHitPoint: Vec3, normal: Vec3)
      returns (child: Traced)
      requires depth + 1 < DEPTH_LIMIT
      decreases Budget(depth), 0
      ensures child == ChildTrace(w, firstHitPoint, normal, direction, depth, path, k)
    {
      var newDirection := w.sampler(path + [k], normal, direction);
      var secondary := new Ray(Add(firstHitPoint, Scale(newDirection, SMALL_OFFSET)), newDirection);
      secondary.Trace(w, depth + 1, path + [k]);
      child := Traced(secondary.collisions, secondary.hitLightSource);
    }
  }

  /** Once a light has been hit the scan changes nothing more. */
  lemma {:induction false} LitScanStops(w: World, o: Vec3, d: Vec3, k: nat, n: nat)
    requires k <= n <= |w.objects|
    requires ScanPrefix(w, o, d, k).lit
    ensures ScanPrefix(w, o, d, n) == ScanPrefix(w, o, d, k)
    decreases n
  {
    if n > k {
      LitScanStops(w, o, d, k, n - 1);
    }
  }

  /** The object scan changes its state only on a strictly nearer hit, and
      then pushes exactly one colour: the object's own for a light, its
      shaded colour otherwise. */
  lemma ScanStep(w: World, o: Vec3, d: Vec3, k: nat)
    requires k < |w.objects|
    ensures var before, after := ScanPrefix(w, o, d, k), ScanPrefix(w, o, d, k + 1);
      after == before ||
      (!before.lit && w.objects[k].intersect(o, d).Some? &&
       (before.best.None? || w.objects[k].intersect(o, d).value.distance < before.best.value.hit.distance) &&
       after.best == Some(Best(k, w.objects[k].intersect(o, d).value)) &&
       after.lit == w.objects[k].texture.Light? &&
       |after.pushed| == |before.pushed| + 1 && after.pushed[..|before.pushed|] == before.pushed &&
       (after.lit ==> after.pushed[|before.pushed|] == w.objects[k].color))
  {
    var before, after := ScanPrefix(w, o, d, k), ScanPrefix(w, o, d, k + 1);
    if after != before {
      assert after.pushed[..|before.pushed|] == before.pushed;
    }
  }

  /** The scan pushes at most one colour per object. */
  lemma {:induction false} ScanPushesAtMostOnePerObject(w: World, o: Vec3, d: Vec3, n: nat)
    requires n <= |w.objects|
    ensures |ScanPrefix(w, o, d, n).pushed| <= n
  {
    if n > 0 {
      ScanPushesAtMostOnePerObject(w, o, d, n - 1);
      ScanStep(w, o, d, n - 1);
    }
  }

  /** Every object before `i` that is hit at all is hit strictly farther
      than `dist`. */
  predicate FartherBefore(w: World, o: Vec3, d: Vec3, i: nat, dist: real)
    requires i <= |w.objects|
  {
    forall j :: 0 <= j < i && w.objects[j].intersect(o, d).Some? ==> w.objects[j].intersect(o, d).value.distance > dist
  }

  /** Every object before `n` that is hit at all is hit no nearer than `dist`. */
  predicate NoNearer(w: World, o: Vec3, d: Vec3, n: nat, dist: real)
    requires n <= |w.objects|
  {
    forall j :: 0 <= j < n && w.objects[j].intersect(o, d).Some? ==> w.objects[j].intersect(o, d).value.distance >= dist
  }

  /** The best hit of the scan is a real hit of its object, nearer than the
      hits of all objects scanned before it and, unless the scan stopped at
      a light, no farther than any hit among the first `n` objects; there
      is none exactly when none of them is hit. A scan that stopped did so
      at a light, whose colour it pushed last. */
  lemma {:induction false} ScanFindsFirstNearest(w: World, o: Vec3, d: Vec3, n: nat)
    requires n <= |w.objects|
    ensures var s := ScanPrefix(w, o, d, n);
      (s.best.None? <==> forall j :: 0 <= j < n ==> w.objects[j].intersect(o, d).None?) &&
      (s.best.Some? ==>
        w.objects[s.best.value.index].intersect(o, d) == Some(s.best.value.hit) &&
        FartherBefore(w, o, d, s.best.value.index, s.best.value.hit.distance) &&
        (!s.lit ==> NoNearer(w, o, d, n, s.best.value.hit.distance))) &&
      (s.lit ==> (s.best.Some? && w.objects[s.best.value.index].texture.Light? &&
        s.pushed != [] && s.pushed[|s.pushed| - 1] == w.objects[s.best.value.index].color))
  {
    if n > 0 {
      ScanFindsFirstNearest(w, o, d, n - 1);
      var s := ScanPrefix(w, o, d, n - 1);
      var h := w.objects[n - 1].intersect(o, d);
      if !s.lit && h.Some? && (s.best.None? || h.value.distance < s.best.value.hit.distance) {
        assert FartherBefore(w, o, d, n - 1, h.value.distance);
      }
    }
  }

  /** A ray that hits nothing collects nothing and hits no light. */
  lemma MissCollectsNothing(w: World, o: Vec3, d: Vec3, depth: nat, path: seq<nat>)
    requires forall j :: 0 <= j < |w.objects| ==> w.objects[j].intersect(o, d).None?
    ensures TraceOf(w, o, d, depth, path) == Traced([], false)
  {
    MissScanIsEmpty(w, o, d, |w.objects|);
  }

  lemma {:induction false} MissScanIsEmpty(w: World, o: Vec3, d: Vec3, n: nat)
    requires n <= |w.objects|
    requires forall j :: 0 <= j < n ==> w.objects[j].intersect(o, d).None?
    ensures ScanPrefix(w, o, d, n) == Scan(None, [], false)
  {
    if n > 0 {
      MissScanIsEmpty(w, o, d, n - 1);
    }
  }

  /** A first improving hit on a light ends the trace: its colours are the
      scan's, no secondary ray is traced, and the flag is raised. */
  lemma LitScanEndsTrace(w: World, o: Vec3, d: Vec3, depth: nat, path: seq<nat>)
    requires ScanPrefix(w, o, d, |w.objects|).lit
    ensures TraceOf(w, o, d, depth, path) == Traced(ScanPrefix(w, o, d, |w.objects|).pushed, true)
  {
  }

  /** Once `depth + 1 >= 5` no secondary ray is traced at all. */
  lemma {:induction false} DeepRaysDoNotBranch(w: World, hitPoint: Vec3, normal: Vec3, d: Vec3, depth: nat, path: seq<nat>, k: nat)
    requires depth + 1 >= DEPTH_LIMIT
    ensures Secondaries(w, hitPoint, normal, d, depth, path, k) == Traced([], false)
  {
    if k > 0 {
      DeepRaysDoNotBranch(w, hitPoint, normal, d, depth, path, k - 1);
    }
  }

  /** At depth 4 or deeper a trace is its object scan alone. */
  lemma DeepTraceIsScan(w: World, o: Vec3, d: Vec3, depth: nat, path: seq<nat>)
    requires depth + 1 >= DEPTH_LIMIT
    ensures TraceOf(w, o, d, depth, path) ==
      Traced(ScanPrefix(w, o, d, |w.objects|).pushed, ScanPrefix(w, o, d, |w.objects|).lit)
  {
    var s := ScanPrefix(w, o, d, |w.objects|);
    if !s.lit && s.best.Some? {
      var normal := w.objects[s.best.value.index].normalAt(s.best.value.hit.point);
      DeepRaysDoNotBranch(w, s.best.value.hit.point, normal, d, depth, path, NUM_SECONDARY_RAYS);
    }
  }

  /** The secondaries contribute only when one of them hit a light; exactly
      then the flag is raised. */
  lemma {:induction false} SecondariesLitIffChildLit(w: World, hitPoint: Vec3, normal: Vec3, d: Vec3, depth: nat, path: seq<nat>, k: nat)
    requires depth + 1 < DEPTH_LIMIT
    ensures Secondaries(w, hitPoint, normal, d, depth, path, k).lit <==>
      exists i :: 0 <= i < k && ChildTrace(w, hitPoint, normal, d, depth, path, i).lit
    ensures !Secondaries(w, hitPoint, normal, d, depth, path, k).lit ==> Secondaries(w, hitPoint, normal, d, depth, path, k).collisions == []
  {
    if k > 0 {
      SecondariesLitIffChildLit(w, hitPoint, normal, d, depth, path, k - 1);
      if ChildTrace(w, hitPoint, normal, d, depth, path, k - 1).lit {
        assert exists i :: 0 <= i < k && ChildTrace(w, hitPoint, normal, d, depth, path, i).lit;
      }
    }
  }

  /** A trace that did not hit a light keeps only the colours of its own
      object scan. */
  lemma UnlitTraceKeepsScan(w: World, o: Vec3, d: Vec3, depth: nat, path: seq<nat>)
    ensures !TraceOf(w, o, d, depth, path).lit ==> TraceOf(w, o, d, depth, path).collisions == ScanPrefix(w, o, d, |w.objects|).pushed
  {
    var s := ScanPrefix(w, o, d, |w.objects|);
    if !s.lit && s.best.Some? {
      var normal := w.objects[s.best.value.index].normalAt(s.best.value.hit.point);
      if depth + 1 < DEPTH_LIMIT {
        SecondariesLitIffChildLit(w, s.best.value.hit.point, normal, d, depth, path, NUM_SECONDARY_RAYS);
      } else {
        DeepRaysDoNotBranch(w, s.best.value.hit.point, normal, d, depth, path, NUM_SECONDARY_RAYS);
      }
    }
  }

  /** The colour is that of a light object of the scene. */
  predicate IsLightColor(w: World, c: Color)
  {
    exists j :: 0 <= j < |w.objects| && w.objects[j].texture.Light? && w.objects[j].color == c
  }

  /** Every trace that hit a light, directly or through its secondaries,
      ends with the colour of a light of the scene. */
  lemma {:induction false} LitTraceEndsAtLight(w: World, o: Vec3, d: Vec3, depth: nat, path: seq<nat>)
    decreases Budget(depth), 1, 0
    ensures var t := TraceOf(w, o, d, depth, path);
      t.lit ==> t.collisions != [] && IsLightColor(w, t.collisions[|t.collisions| - 1])
  {
    var s := ScanPrefix(w, o, d, |w.objects|);
    ScanFindsFirstNearest(w, o, d, |w.objects|);
    if !s.lit && s.best.Some? {
      var best := s.best.value;
      var normal := w.objects[best.index].normalAt(best.hit.point);
      LitSecondariesEndAtLight(w, best.hit.point, normal, d, depth, path, NUM_SECONDARY_RAYS);
    }
  }

  lemma {:induction false} LitSecondariesEndAtLight(w: World, hitPoint: Vec3, normal: Vec3, d: Vec3, depth: nat, path: seq<nat>, k: nat)
    decreases Budget(depth), 0, k
    ensures var t := Secondaries(w, hitPoint, normal, d, depth, path, k);
      t.lit ==> t.collisions != [] && IsLightColor(w, t.collisions[|t.collisions| - 1])
  {
    if k > 0 {
      LitSecondariesEndAtLight(w, hitPoint, normal, d, depth, path, k - 1);
      if depth + 1 < DEPTH_LIMIT {
        var direction := w.sampler(path + [k - 1], normal, d);
        LitTraceEndsAtLight(w, Add(hitPoint, Scale(direction, SMALL_OFFSET)), direction, depth + 1, path + [k - 1]);
        var prev := Secondaries(w, hitPoint, normal, d, depth, path, k - 1);
        var child := ChildTrace(w, hitPoint, normal, d, depth, path, k - 1);
        if child.lit {
          var all := prev.collisions + child.collisions;
          assert all[|all| - 1] == child.collisions[|child.collisions| - 1];
        }
      }
    }
  }

  lemma MulMonotone(a: real, b: real, k: real, ak: real, bk: real)
    requires a <= b && k >= 0.0 && ak == a * k && bk == b * k
    ensures ak <= bk
  {
    if a < b && k > 0.0 {
      MulPositive(b - a, k);
      assert (b - a) * k == bk - ak;
    }
  }

  /** Every colour of `cs` contributes at most `cap` to the secondary sum,
      stated by recursion on the last element, as `SecondarySum` is. */
  predicate ContributionsAtMost(cs: seq<Color>, ch: nat, weight: real, cap: real)
    requires ch < 3 && 0.0 <= weight <= 1.0
  {
    |cs| == 0
    || (Weighted(Channel(cs[|cs| - 1], ch), weight) as real <= cap
        && ContributionsAtMost(cs[..|cs| - 1], ch, weight, cap))
  }

  /** Every colour of `cs` has channel `ch` at most `m`, by the same recursion. */
  predicate AllAtMost(cs: seq<Color>, ch: nat, m: nat)
    requires ch < 3
  {
    |cs| == 0 || (Channel(cs[|cs| - 1], ch) <= m && AllAtMost(cs[..|cs| - 1], ch, m))
  }

  lemma {:induction false} ForallGivesAllAtMost(cs: seq<Color>, ch: nat, m: nat)
    requires ch < 3
    requires forall c :: c in cs ==> Channel(c, ch) <= m
    ensures AllAtMost(cs, ch, m)
  {
    if |cs| > 0 {
      var prefix := cs[..|cs| - 1];
      assert forall c :: c in prefix ==> c in cs;
      ForallGivesAllAtMost(prefix, ch, m);
    }
  }

  /** With every channel at most `m`, every contribution is at most `m × weight`. */
  lemma {:induction false} ContributionsBelow(cs: seq<Color>, ch: nat, m: nat, weight: real, cap: real)
    requires ch < 3 && 0.0 <= weight <= 1.0 && cap == m as real * weight
    requires AllAtMost(cs, ch, m)
    ensures ContributionsAtMost(cs, ch, weight, cap)
  {
    if |cs| > 0 {
      var prefix := cs[..|cs| - 1];
      ContributionsBelow(prefix, ch, m, weight, cap);
      WeightedBelow(Channel(cs[|cs| - 1], ch), m, weight, cap);
    }
  }

  /** `k × cap` written as a sum, so that the induction below stays linear. */
  function Repeat(k: nat, cap: real): real
  {
    if k == 0 then 0.0 else Repeat(k - 1, cap) + cap
  }

  lemma {:induction false} RepeatIsProduct(k: nat, cap: real)
    ensures Repeat(k, cap) == k as real * cap
  {
    if k > 0 {
      RepeatIsProduct(k - 1, cap);
      OneMore((k - 1) as real, k as real, cap, Repeat(k - 1, cap), k as real * cap);
    }
  }

  lemma OneMore(k: real, k1: real, cap: real, a: real, b: real)
    requires k1 == k + 1.0 && a == k * cap && b == k1 * cap
    ensures b == a + cap
  {
  }

  /** When every colour contributes at most `cap`, the secondary sum is at
      most `|cs| × cap`. */
  lemma {:induction false} SecondarySumBound(cs: seq<Color>, ch: nat, weight: real, cap: real)
    requires ch < 3 && 0.0 <= weight <= 1.0
    requires ContributionsAtMost(cs, ch, weight, cap)
    ensures SecondarySum(cs, ch, weight) as real <= Repeat(|cs|, cap)
  {
    if |cs| > 0 {
      SecondarySumBound(cs[..|cs| - 1], ch, weight, cap);
    }
  }

  /** `n × (m × w)` is `m × 0.2` when `n × w` is `0.2`. */
  lemma SpreadWeight(n: real, m: real, w: real, cap: real, total: real)
    requires n * w == SECONDARY_WEIGHT && cap == m * w && total == n * cap
    ensures total == m * SECONDARY_WEIGHT
  {
    assert n * (m * w) == m * (n * w);
  }

  /** The cap `m × weight` on each contribution; `n` of them add up to `0.2 m`
      when `n × weight` is `0.2`. */
  lemma SecondaryCap(n: nat, m: nat, weight: real) returns (cap: real)
    requires n as real * weight == SECONDARY_WEIGHT
    ensures cap == m as real * weight
    ensures Repeat(n, cap) == m as real * SECONDARY_WEIGHT
  {
    cap := m as real * weight;
    RepeatIsProduct(n, cap);
    SpreadWeight(n as real, m as real, weight, cap, n as real * cap);
  }

  /** A cap for the secondary colours' contributions whose `n`-fold sum is `0.2 m`. */
  lemma SecondaryContributions(rest: seq<Color>, ch: nat, m: nat, weight: real) returns (cap: real)
    requires ch < 3 && 0.0 <= weight <= 1.0 && |rest| as real * weight == SECONDARY_WEIGHT
    requires AllAtMost(rest, ch, m)
    ensures ContributionsAtMost(rest, ch, weight, cap)
    ensures Repeat(|rest|, cap) == m as real * SECONDARY_WEIGHT
  {
    cap := SecondaryCap(|rest|, m, weight);
    ContributionsBelow(rest, ch, m, weight, cap);
  }

  lemma SecondaryWithinShare(rest: seq<Color>, ch: nat, m: nat, weight: real, cap: real)
    requires ch < 3 && 0.0 <= weight <= 1.0
    requires Repeat(|rest|, cap) == m as real * SECONDARY_WEIGHT
    requires ContributionsAtMost(rest, ch, weight, cap)
    ensures SecondarySum(rest, ch, weight) as real <= m as real * SECONDARY_WEIGHT
  {
    SecondarySumBound(rest, ch, weight, cap);
  }

  /** The `n` secondary colours, each weighted `0.2/n`, contribute at most `0.2 m`. */
  lemma SecondaryPartBound(rest: seq<Color>, ch: nat, m: nat, weight: real)
    requires ch < 3 && 0.0 <= weight <= 1.0 && |rest| as real * weight == SECONDARY_WEIGHT
    requires AllAtMost(rest, ch, m)
    ensures SecondarySum(rest, ch, weight) as real <= m as real * SECONDARY_WEIGHT
  {
    var cap := SecondaryContributions(rest, ch, m, weight);
    SecondaryWithinShare(rest, ch, m, weight, cap);
  }

  /** `n × (0.2/n × 1.0)` is `0.2`. */
  lemma PerColorTimesCount(n: nat, weight: real)
    requires n > 0 && weight == SECONDARY_WEIGHT / n as real * LIGHT_SOURCE_BOOST
    ensures n as real * weight == SECONDARY_WEIGHT
  {
  }

  /** The weights `0.8` and `n × 0.2/n` add up to the divisor `1.0`. */
  lemma WeightsSumToDivisor(n: nat)
    requires n > 0
    ensures PRIMARY_WEIGHT + n as real * (SECONDARY_WEIGHT / n as real) == PRIMARY_WEIGHT + SECONDARY_WEIGHT == 1.0
  {
  }

  /** The primary colour contributes at most `0.8 m`. */
  lemma PrimaryPartBound(first: Byte, m: nat)
    requires first <= m
    ensures Weighted(first, PRIMARY_WEIGHT) as real <= m as real * PRIMARY_WEIGHT
  {
    WeightedBelow(first, m, PRIMARY_WEIGHT, m as real * PRIMARY_WEIGHT);
  }

  /** With every channel at most `m`, so is each channel total. */
  lemma ChannelTotalBound(cs: seq<Color>, ch: nat, m: nat)
    requires ch < 3 && |cs| >= 2
    requires Channel(cs[0], ch) <= m && AllAtMost(cs[1..], ch, m)
    ensures ChannelTotal(cs, ch) <= m
  {
    var rest := cs[1..];
    var n := |rest|;
    PrimaryPartBound(Channel(cs[0], ch), m);
    var weight := SECONDARY_WEIGHT / n as real * LIGHT_SOURCE_BOOST;
    PerColorWeight(n);
    PerColorTimesCount(n, weight);
    SecondaryPartBound(rest, ch, m, weight);
  }

  lemma WeightedBelow(channel: Byte, m: nat, weight: real, cap: real)
    requires channel <= m && 0.0 <= weight <= 1.0 && cap == m as real * weight
    ensures Weighted(channel, weight) as real <= cap
  {
    MulMonotone(channel as real, m as real, weight, channel as real * weight, cap);
  }

  /** `average_color` never brightens a channel beyond the brightest
      collision, so the final `as u8` never saturates; it fails exactly on an
      empty list and returns a single collision unchanged. */
  lemma AverageNeverExceedsBrightest(cs: seq<Color>, ch: nat, m: nat)
    requires ch < 3
    requires forall c :: c in cs ==> Channel(c, ch) <= m
    ensures AverageOf(cs).Panic? <==> cs == []
    ensures |cs| == 1 ==> AverageOf(cs) == Ok(cs[0])
    ensures AverageOf(cs).Ok? ==> Channel(AverageOf(cs).value, ch) <= m
  {
    if |cs| >= 2 {
      assert forall c :: c in cs[1..] ==> c in cs;
      ForallGivesAllAtMost(cs[1..], ch, m);
      ChannelTotalBound(cs, ch, m);
      var total := ChannelTotal(cs, ch);
      assert total as real / (PRIMARY_WEIGHT + SECONDARY_WEIGHT) == total as real;
    }
  }
}
