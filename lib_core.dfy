/** The discrete logic of `src/lib.rs`: constants, `near_zero`, the colour
    presets that the rest of the model uses, `objects::discriminant`, the
    `Texture` variants, and the `Ray` methods `diffusive`, `reflective` and
    `average_color` of that revision. */
module Lib {
  import opened Options
  import opened Vectors

  const MAX_DEPTH: nat := 50
  const NUM_SECONDARY_RAYS: nat := 2
  /** `depth` is a `u8` */
  const U8_LIMIT: nat := 256

  /** `Color`, `Point`, `Direction` are all `Vector3<f64>` in this revision. */
  type Color = Vec3
  type Point = Vec3
  type Direction = Vec3

  function Up(): Vec3 { Vec3(0.0, 1.0, 0.0) }
  function Down(): Vec3 { Vec3(0.0, -1.0, 0.0) }

  function White(): Color { Vec3(255.0, 255.0, 255.0) }
  function Black(): Color { Vec3(0.0, 0.0, 0.0) }

  const NEAR_ZERO: real := 0.00000001

  /** `Directions::near_zero`: a degenerate direction, every component inside
      the open interval (-1e-8, 1e-8). */
  function NearZero(v: Vec3): (r: bool)
    ensures r <==> (-NEAR_ZERO < v.x < NEAR_ZERO && -NEAR_ZERO < v.y < NEAR_ZERO && -NEAR_ZERO < v.z < NEAR_ZERO)
  {
    Abs(v.x) < NEAR_ZERO && Abs(v.y) < NEAR_ZERO && Abs(v.z) < NEAR_ZERO
  }

  /** `objects::discriminant(a, b, c)`: `b² − 4ac` when it is not negative. */
  function Discriminant(a: real, b: real, c: real): (r: Option<real>)
    ensures r.Some? <==> 4.0 * a * c <= b * b
    ensures r.Some? ==> r.value >= 0.0 && r.value + 4.0 * a * c == b * b
  {
    var d := b * b - 4.0 * a * c;
    if d >= 0.0 then Some(d) else None
  }

  /** The tangent case is a hit with discriminant zero, not a miss. */
  lemma TangentDiscriminant(a: real, b: real, c: real)
    requires b * b == 4.0 * a * c
    ensures Discriminant(a, b, c) == Some(0.0)
  {
  }

  datatype Texture = Light(color: Color) | Diffusive(color: Color) | Glossy(color: Color) | Reflective

  /** The number of secondary rays `diffusive` spawns at a given depth:
      never more than `NUM_SECONDARY_RAYS`, and none exactly at depth 2. */
  function FanOut(depth: nat): (n: nat)
    ensures n <= NUM_SECONDARY_RAYS
    ensures n == 0 <==> depth == 2
  {
    match depth
    case 0 => NUM_SECONDARY_RAYS
    case 1 => NUM_SECONDARY_RAYS / 2
    case 2 => NUM_SECONDARY_RAYS / 4
    case _ => 1
  }

  /** Two rays at depth 0, one at depth 1, none at depth 2 (`2 / 4 == 0`),
      one at every deeper level; never more than `NUM_SECONDARY_RAYS`. */
  lemma FanOutSchedule(depth: nat)
    ensures FanOut(0) == 2 && FanOut(1) == 1 && FanOut(2) == 0
    ensures depth >= 3 ==> FanOut(depth) == 1
    ensures FanOut(depth) <= NUM_SECONDARY_RAYS
  {
  }

  /** The state a secondary ray is left in by `trace`. */
  datatype Traced = Traced(collisions: seq<Color>, hitLight: bool)

  /** The `trace` of this `src/lib.rs` revision is not modelled; what it does
      to a child ray is this parameter, `trace(origin, direction, depth, k)` for the
      `k`-th ray spawned by the same call (tracing consumes randomness, so two
      such rays may end differently). */
  type Tracer = (Point, Direction, nat, nat) -> Traced

  /** The colours of the first `n` secondary rays, in spawn order. */
  function Spawned(trace: Tracer, origin: Point, direction: Direction, depth: nat, n: nat): seq<Color>
  {
    if n == 0 then [] else Spawned(trace, origin, direction, depth, n - 1) + trace(origin, direction, depth, n - 1).collisions
  }

  /** Some of the first `n` secondary rays hit a light source. */
  predicate AnyLit(trace: Tracer, origin: Point, direction: Direction, depth: nat, n: nat)
  {
    exists k :: 0 <= k < n && trace(origin, direction, depth, k).hitLight
  }

  /** The spawned colours are exactly those of the children, each child's
      list kept whole and in spawn order. */
  lemma {:induction false} SpawnedLength(trace: Tracer, origin: Point, direction: Direction, depth: nat, n: nat)
    ensures |Spawned(trace, origin, direction, depth, n)| == SumLengths(trace, origin, direction, depth, n)
  {
    if n > 0 {
      SpawnedLength(trace, origin, direction, depth, n - 1);
    }
  }

  function SumLengths(trace: Tracer, origin: Point, direction: Direction, depth: nat, n: nat): nat
  {
    if n == 0 then 0 else SumLengths(trace, origin, direction, depth, n - 1) + |trace(origin, direction, depth, n - 1).collisions|
  }

  /** Tinting `total` by one colour: `total.x *= color.x / 255.` and so on.
      White leaves the total as it is and black makes it black. */
  function Tint(total: Color, c: Color): (t: Color)
    ensures c == White() ==> t == total
    ensures c == Black() ==> t == Black()
  {
    Vec3(total.x * (c.x / 255.0), total.y * (c.y / 255.0), total.z * (c.z / 255.0))
  }

  /** `collisions.iter().rev().for_each(tint)`: the last colour first. A
      black start stays black, and white collisions change nothing. */
  function Attenuate(total: Color, cs: seq<Color>): (r: Color)
    ensures total == Black() ==> r == Black()
    ensures (forall i :: 0 <= i < |cs| ==> cs[i] == White()) ==> r == total
    decreases |cs|
  {
    if cs == [] then total else Attenuate(Tint(total, cs[|cs| - 1]), cs[..|cs| - 1])
  }

  predicate InByteRange(c: Color)
  {
    0.0 <= c.x <= 255.0 && 0.0 <= c.y <= 255.0 && 0.0 <= c.z <= 255.0
  }

  lemma ScaleDown(t: real, c: real)
    requires 0.0 <= t && 0.0 <= c <= 255.0
    ensures 0.0 <= t * (c / 255.0) <= t
  {
    var f := c / 255.0;
    assert 0.0 <= f <= 1.0;
    assert t * f <= t * 1.0;
  }

  /** `ScaleDown` with the product given a name, so that the caller's term
      and the lemma's are the same. */
  lemma ScaledChannel(t: real, c: real, p: real)
    requires 0.0 <= t && 0.0 <= c <= 255.0 && p == t * (c / 255.0)
    ensures 0.0 <= p <= t
  {
    ScaleDown(t, c);
  }

  lemma TintNeverBrightens(total: Color, c: Color)
    requires 0.0 <= total.x && 0.0 <= total.y && 0.0 <= total.z
    requires InByteRange(c)
    ensures var t := Tint(total, c);
      0.0 <= t.x <= total.x && 0.0 <= t.y <= total.y && 0.0 <= t.z <= total.z
  {
    var t := Tint(total, c);
    ScaledChannel(total.x, c.x, t.x);
    ScaledChannel(total.y, c.y, t.y);
    ScaledChannel(total.z, c.z, t.z);
  }

  /** With every colour channel in 0..255 and a non-negative start, tinting
      never brightens: each channel ends between 0 and its starting value. */
  lemma {:induction false} AttenuateNeverBrightens(total: Color, cs: seq<Color>)
    requires 0.0 <= total.x && 0.0 <= total.y && 0.0 <= total.z
    requires forall i :: 0 <= i < |cs| ==> InByteRange(cs[i])
    ensures var r := Attenuate(total, cs);
      0.0 <= r.x <= total.x && 0.0 <= r.y <= total.y && 0.0 <= r.z <= total.z
    decreases |cs|
  {
    if cs != [] {
      var last := cs[|cs| - 1];
      TintNeverBrightens(total, last);
      var rest := cs[..|cs| - 1];
      assert forall i :: 0 <= i < |rest| ==> InByteRange(rest[i]) by {
        forall i | 0 <= i < |rest| ensures InByteRange(rest[i]) { assert rest[i] == cs[i]; }
      }
      AttenuateNeverBrightens(Tint(total, last), rest);
      assert Attenuate(total, cs) == Attenuate(Tint(total, last), rest);
    }
  }

  const LIGHT_BOOST: real := 10.0
  const AMBIENT_LIGHT_BOOST: real := LIGHT_BOOST / 2.0

  class Ray {
    var origin: Point
    var direction: Direction
    var collisions: seq<Color>
    var hitLightSource: bool
    var depth: nat

    ghost predicate Valid()
      reads this
    {
      depth < U8_LIMIT
    }

    /** `Ray::new(origin, direction, depth)`: no colours yet, no light hit. */
    constructor (origin: Point, direction: Direction, depth: nat)
      requires depth < U8_LIMIT
      ensures Valid()
      ensures this.origin == origin && this.direction == direction && this.depth == depth
      ensures collisions == [] && !hitLightSource
    {
      this.origin := origin;
      this.direction := direction;
      this.depth := depth;
      collisions := [];
      hitLightSource := false;
    }

    /** The `trace` of this `src/lib.rs` revision is not modelled; what it does
        to a child ray is the `Tracer` parameter: the ray ends as it says, as the
      `k`-th secondary of its parent. */
    method Trace(trace: Tracer, k: nat)
      modifies this
      ensures origin == old(origin) && direction == old(direction) && depth == old(depth)
      ensures collisions == old(collisions) + trace(origin, direction, depth, k).collisions
      ensures hitLightSource == (old(hitLightSource) || trace(origin, direction, depth, k).hitLight)
    {
      var t := trace(origin, direction, depth, k);
      collisions := collisions + t.collisions;
      hitLightSource := hitLightSource || t.hitLight;
    }

    /** `diffusive`: `FanOut(depth)` secondary rays at `depth + 1`, each
        traced and its colours appended; the light flag is OR-ed upward and
        never cleared. */
    method Diffusive(origin: Point, direction: Direction, trace: Tracer)
      requires Valid()
      requires depth + 1 < U8_LIMIT
      modifies this
      ensures Valid()
      ensures this.origin == old(this.origin) && this.direction == old(this.direction) && depth == old(depth)
      ensures collisions == old(collisions) + Spawned(trace, origin, direction, depth + 1, FanOut(depth))
      ensures hitLightSource == (old(hitLightSource) || AnyLit(trace, origin, direction, depth + 1, FanOut(depth)))
    {
      var newRays := FanOut(depth);
      for i := 0 to newRays
        invariant this.origin == old(this.origin) && this.direction == old(this.direction) && depth == old(depth)
        invariant collisions == old(collisions) + Spawned(trace, origin, direction, depth + 1, i)
        invariant hitLightSource == (old(hitLightSource) || AnyLit(trace, origin, direction, depth + 1, i))
      {
        var secondary := new Ray(origin, direction, depth + 1);
        secondary.Trace(trace, i);
        collisions := collisions + secondary.collisions;
        if secondary.hitLightSource {
          hitLightSource := true;
        }
        assert hitLightSource == (old(hitLightSource) || AnyLit(trace, origin, direction, depth + 1, i + 1)) by {
          if secondary.hitLightSource {
            assert trace(origin, direction, depth + 1, i).hitLight;
          } else {
            assert !trace(origin, direction, depth + 1, i).hitLight;
          }
        }
      }
    }

    /** `reflective`: exactly one secondary ray at `depth + 1`. */
    method Reflective(origin: Point, direction: Direction, trace: Tracer)
      requires Valid()
      requires depth + 1 < U8_LIMIT
      modifies this
      ensures Valid()
      ensures this.origin == old(this.origin) && this.direction == old(this.direction) && depth == old(depth)
      ensures collisions == old(collisions) + Spawned(trace, origin, direction, depth + 1, 1)
      ensures hitLightSource == (old(hitLightSource) || trace(origin, direction, depth + 1, 0).hitLight)
    {
      var secondary := new Ray(origin, direction, depth + 1);
      secondary.Trace(trace, 0);
      collisions := collisions + secondary.collisions;
      if secondary.hitLightSource {
        hitLightSource := true;
      }
    }

    /** `average_color`. One collision: returned as is. Otherwise, with the
        light flag set, the last collision is popped (a panic when there is
        none) and boosted tenfold; without it the start is the background
        boosted fivefold. The remaining colours then tint the start, last
        first. */
    method AverageColor(background: Color) returns (r: Outcome<Color>)
      modifies this
      ensures origin == old(origin) && direction == old(direction) && depth == old(depth)
      ensures hitLightSource == old(hitLightSource)
      ensures |old(collisions)| == 1 ==> collisions == old(collisions) && r == Ok(old(collisions)[0])
      ensures |old(collisions)| == 0 && hitLightSource ==> collisions == old(collisions) && r == Panic
      ensures |old(collisions)| >= 2 && hitLightSource ==>
        collisions == old(collisions)[..|old(collisions)| - 1] &&
        r == Ok(Attenuate(Scale(old(collisions)[|old(collisions)| - 1], LIGHT_BOOST), collisions))
      ensures |old(collisions)| != 1 && !hitLightSource ==>
        collisions == old(collisions) && r == Ok(Attenuate(Scale(background, AMBIENT_LIGHT_BOOST), collisions))
    {
      if |collisions| == 1 {
        return Ok(collisions[0]);
      }
      var total: Color;
      if hitLightSource {
        if collisions == [] {
          return Panic;
        }
        var last := collisions[|collisions| - 1];
        collisions := collisions[..|collisions| - 1];
        total := Scale(last, LIGHT_BOOST);
      } else {
        total := Scale(background, AMBIENT_LIGHT_BOOST);
      }
      ghost var start := total;
      var i := |collisions|;
      assert collisions[..i] == collisions;
      while i > 0
        invariant 0 <= i <= |collisions|
        invariant Attenuate(total, collisions[..i]) == Attenuate(start, collisions)
      {
        assert collisions[..i][..i - 1] == collisions[..i - 1];
        var color := collisions[i - 1];
        assert Attenuate(total, collisions[..i]) == Attenuate(Tint(total, color), collisions[..i - 1]);
        total := Tint(total, color);
        i := i - 1;
      }
      assert collisions[..0] == [];
      r := Ok(total);
    }
  }
}
