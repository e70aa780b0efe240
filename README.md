# Ray tracer core, modelled in Dafny

This project models the discrete logic of the Rust ray tracer `rt`:

- the path tracer's control flow: the object scan, the early return on a light, depth-limited secondary rays, the `collisions` list and the `hit_light_source` flag;
- the two `average_color` variants;
- the per-shape hit tests and normals: sphere, cube, cylinder and flat plane;
- the GUI's input validators and its scene assembly;
- the `SceneBuilder` defaults.

Arithmetic is over `real`. The square root and `str::parse::<f64>` are parameters that the model does not interpret. The repository's files come from different revisions, so each file has its own datatypes:

- `Lib` follows `src/lib.rs`: a colour is a `Vector3<f64>`, and `Texture` carries a colour.
- `Rays` and the shape modules follow `src/raytracer/ray.rs`: a colour is three `u8` channels (`Materials`), and a hit is `(point, distance)` (`Vectors.Hit`).

Modules:

- `Options`: `Option`, and `Outcome`, a value or a panic.
- `Vectors`: `Vec3`, dot product, `Normalize` built from the `sqrt` parameter, and `Hit`.
- `Materials`: `u8` colours and the `as u8` / `as u32` casts.
- `Lib`: `src/lib.rs`.
- `Rays`: `src/raytracer/ray.rs`.
- `Spheres`, `Cubes`, `Cylinders`, `FlatPlanes`: `src/objects/*.rs`.
- `GuiConfig`: the configuration records that the GUI modules read.
- `GuiValidate`: `src/gui/validate.rs`.
- `GuiHelper`: `src/gui/helper.rs`.
- `State`: `src/state.rs`.

How stateful code is modelled:

- Code that changes state is a method.
  - `Rays.Ray` and `Lib.Ray` are classes whose methods update `collisions` and the light flag.
  - `State.SceneBuilder` is a class whose `AddObjects` and `AddLightSources` replace a field.
  - The source's `for` loops are `for` loops with invariants. The reversed `iter().rev().for_each` of `src/lib.rs:294` is a `while` loop counting down (`Lib.Ray.AverageColor`).
  - The iterator `all` over the three coordinates is the predicate `Cubes.WithinBounds`. The iterator calls `max_by` and `min_by` are the recursive functions `Cubes.MaxByLast` and `Cylinders.MinByFirst`.
  - The loops' results are specified by recursive definitions over prefixes: `Cubes.Nearest`, `Rays.ScanPrefix`, `Rays.Secondaries` and `GuiHelper.Mapped`.
- Each method is proved against a function of its inputs:
  - `Rays.TraceOf`, `Rays.Secondaries` and `Rays.ScanPrefix`;
  - `Rays.AverageOf`;
  - `Cubes.Closest` and `Cylinders.IntersectionOf`;
  - `GuiHelper.GuiScene` and `State.Built`.
- Lemmas then prove what the source promises about those functions.

In three places the model follows the code where a reader might expect otherwise:

- Cube normal ties go to the LAST axis, because `Iterator::max_by` returns the last of equal maxima.
- The cylinder caps compare `Vector3::len()`, which is the element count 3, with the radius.
- A tangent ray misses a sphere, because the test is `discriminant > 0.0`.

## Model

| member | source | states |
|---|---|---|
| Lib.NearZero | src/lib.rs:67-70 | a direction is degenerate exactly when each component lies strictly inside (−1e-8, 1e-8) |
| Lib.Discriminant | src/lib.rs:346-353 | `Some` exactly when `4ac <= b²`; the value is then non-negative and equals `b² − 4ac` |
| Lib.TangentDiscriminant | src/lib.rs:346-353 | the tangent case `b² == 4ac` gives `Some(0)`, not `None` |
| Lib.FanOut | src/lib.rs:402-407 | never more than `NUM_SECONDARY_RAYS` rays, and none exactly at depth 2 |
| Lib.FanOutSchedule | src/lib.rs:402-407 | `diffusive` spawns 2 rays at depth 0, 1 at depth 1, none at depth 2 (`2 / 4 == 0`), 1 at every deeper level, never more than `NUM_SECONDARY_RAYS` |
| Lib.SpawnedLength | src/lib.rs:410-418 | the colours gathered from the secondaries number exactly the sum of the children's list lengths |
| Lib.Ray.constructor | src/lib.rs:411 | a secondary ray starts at the given origin, direction and depth, with no colours and no light flag |
| Lib.Ray.Trace | src/lib.rs:414 | the `trace` of this `src/lib.rs` revision is not modelled; what it does to a child ray is the `Lib.Tracer` parameter: the ray's list grows by what `trace` yields and its flag is OR-ed with that run's flag |
| Lib.Ray.Diffusive | src/lib.rs:401-423 | `FanOut(depth)` rays at `depth + 1`; the new list is the old one followed by each child's list in spawn order; the flag is the old flag OR any child's flag, never cleared; depth, origin and direction unchanged |
| Lib.Ray.Reflective | src/lib.rs:424-434 | exactly one ray at `depth + 1`; its list is appended and its flag OR-ed in |
| Lib.Ray.AverageColor | src/lib.rs:281-301 | one collision: returned, list unchanged; light flag set: the last colour is popped (the list shrinks by one; an empty list panics) and boosted ×10; no flag: the background boosted ×5, list unchanged; the rest then tint the start, last colour first |
| Lib.Tint | src/lib.rs:295-297 | tinting by white leaves the total unchanged; tinting by black makes it black |
| Lib.Attenuate | src/lib.rs:294-298 | a black start stays black whatever the collisions; a list of white collisions leaves the start unchanged |
| Lib.AttenuateNeverBrightens | src/lib.rs:294-298 | with colour channels in 0..255, tinting never raises a non-negative channel and never makes one negative |
| Materials.CastU8 | src/raytracer/ray.rs:99-101 | `as u8` of a finite value truncates toward zero inside 0..256 and saturates at 0 and 255 |
| Materials.Truncate | src/raytracer/ray.rs:117-119 | `as u32` of a non-negative value is its integer part |
| Rays.ShadeChannel | src/raytracer/ray.rs:99-101 | a factor in [0, 1] never brightens a channel; factor 0 gives 0 |
| Rays.Shade | src/raytracer/ray.rs:96-103 | with `|n · normalize(d)| <= 1` no channel grows; a normal across the ray gives black |
| Rays.Reflect | src/raytracer/ray.rs:137-139 | against a unit normal the reflected direction has the length of the incoming one |
| Rays.ReflectFlipsNormalComponent | src/raytracer/ray.rs:137-139 | for a unit normal, `reflect(n) · n == −(d · n)` |
| Rays.ReflectTwice | src/raytracer/ray.rs:137-139 | for a unit normal, reflecting twice gives the direction back |
| Rays.Ray.constructor | src/raytracer/ray.rs:21-28 | `Ray::new` stores origin and direction, with empty `collisions` and `hit_light_source == false` |
| Rays.ScanPrefix | src/raytracer/ray.rs:44-64 | the best hit of the scan over the first `n` objects belongs to one of them |
| Rays.ScanObjects | src/raytracer/ray.rs:40-64 | the object loop: its pushed colours and light flag are the scan's; without a light, its locals `closest_intersection`/`closest_object` hold the scan's best hit |
| Rays.ScanStep | src/raytracer/ray.rs:45-62 | an object changes the scan only on a strictly nearer hit while no light was hit; it then becomes the best, adds exactly one colour (the light's own on a light) and sets the flag exactly for a light |
| Rays.ScanPushesAtMostOnePerObject | src/raytracer/ray.rs:44-64 | the scan adds at most one entry per object |
| Rays.ScanFindsFirstNearest | src/raytracer/ray.rs:44-64 | there is no best hit exactly when no object is hit; the best hit is a real hit of its object, strictly nearer than every earlier hit and, unless stopped at a light, no farther than any hit; a stopped scan stopped at a light, whose colour it pushed last |
| Rays.LitScanStops | src/raytracer/ray.rs:53-56 | once a light is hit, later objects change nothing |
| Rays.LitScanEndsTrace | src/raytracer/ray.rs:53-56 | a light hit ends the trace: only the scan's colours, no secondaries, the flag set |
| Rays.MissCollectsNothing | src/raytracer/ray.rs:44-66 | a ray that hits nothing collects nothing and raises no flag |
| Rays.TraceOf | src/raytracer/ray.rs:30-95 | the reference trace the `Ray.Trace` method is proved equal to: a trace is lit only by its own scan or, below the depth limit, by a secondary ray |
| Rays.Secondaries | src/raytracer/ray.rs:66-94 | the reference secondary loop the `Ray.Spawn` method is proved equal to: it can raise the flag only while `depth + 1 < 5` |
| Rays.Ray.Trace | src/raytracer/ray.rs:30-95 | the ray's list grows by exactly `TraceOf`'s colours and its flag is OR-ed with `TraceOf`'s flag; origin and direction unchanged |
| Rays.Ray.Spawn | src/raytracer/ray.rs:66-94 | the secondary-ray loop adds exactly `Secondaries`' colours and flag |
| Rays.Ray.TraceSecondary | src/raytracer/ray.rs:75-86 | a fresh ray off the hit point along the sampled direction, traced one level deeper, ends as `ChildTrace` says |
| Rays.DeepRaysDoNotBranch | src/raytracer/ray.rs:70-73 | once `depth + 1 >= 5` no secondary ray is traced, so no trace runs deeper than 4 |
| Rays.DeepTraceIsScan | src/raytracer/ray.rs:66-94 | at depth 4 or more a trace is its object scan alone |
| Rays.SecondariesLitIffChildLit | src/raytracer/ray.rs:86-92 | the secondaries raise the flag exactly when some child hit a light, and otherwise contribute no colour |
| Rays.UnlitTraceKeepsScan | src/raytracer/ray.rs:89-92 | a trace that hit no light keeps only its own scan's colours: unlit children are dropped |
| Rays.LitTraceEndsAtLight | src/raytracer/ray.rs:44-94 | every trace that hit a light, directly or through a child, ends with the colour of a light object of the scene |
| Rays.LitSecondariesEndAtLight | src/raytracer/ray.rs:66-94 | the same for the gathered secondaries |
| Rays.Weighted | src/raytracer/ray.rs:117-119 | `(channel × weight) as u32` with weight in [0, 1] is at most the channel and at most the product |
| Rays.PerColorWeight | src/raytracer/ray.rs:121-122 | the per-secondary weight `0.2 / n` lies in (0, 0.2] |
| Rays.WeightsSumToDivisor | src/raytracer/ray.rs:114-134 | `0.8 + n × (0.2 / n)` and the divisor `0.8 + 0.2` are both 1.0 |
| Rays.ChannelTotalBound | src/raytracer/ray.rs:117-128 | if every channel is at most `m`, so is the `u32` total of the weighted contributions, which therefore never overflows |
| Rays.AverageOf | src/raytracer/ray.rs:105-135 | the reference the `Ray.AverageColor` loop is proved equal to: it panics exactly on the empty list (`collisions[0]`), and a single collision comes back unchanged |
| Rays.Ray.AverageColor | src/raytracer/ray.rs:105-135 | the accumulation loop computes `AverageOf(collisions)`: the single colour itself, a panic on the empty list, else the weighted totals over 1.0 cast to `u8` |
| Rays.AverageNeverExceedsBrightest | src/raytracer/ray.rs:105-135 | the result panics exactly on an empty list; a single collision comes back unchanged; no channel exceeds the brightest collision's, so the `u8` cast never saturates |
| Cubes.FaceHit | src/objects/cube.rs:51-74 | a face is skipped when `|normal · direction| <= 1e-6`; a kept hit has distance `>= 0`, lies on the ray and within `half_size × 1.0001²` of the centre on every axis |
| Cubes.Faces | src/objects/cube.rs:49-53 | the candidate at index `2 × axis + j` is the face on `axis` with sign `[-1.0, 1.0][j]`, the order of the nested loops: −x, +x, −y, +y, −z, +z |
| Cubes.Nearest | src/objects/cube.rs:68-73 | the kept hit, if any, is one of the candidates |
| Cubes.Closest | src/objects/cube.rs:44-80 | the reference the `Cube::intersection` loops are proved equal to: a hit is one of the six face candidates, ahead of the origin, on the ray and within the tolerated bounds |
| Cubes.NearestIsFirstMinimum | src/objects/cube.rs:69-73 | the scan keeps a least distance and, of equal ones, the earliest face (strict `>`); none exactly when no face is hit |
| Cubes.Intersection | src/objects/cube.rs:44-80 | the nested axis/sign loops return the scan's result `Closest` |
| Cubes.ClosestIsNearestFace | src/objects/cube.rs:44-80 | a hit is ahead of the origin, on the ray, within the tolerated bounds, and no face is hit nearer |
| Cubes.ParallelMisses | src/objects/cube.rs:55-56 | a ray parallel to every face gives `None` |
| Cubes.MaxByLast | src/objects/cube.rs:88 | `max_by` gives a largest element, and the last of equal largest ones |
| Cubes.NormalAxis | src/objects/cube.rs:85-88 | the chosen axis has the largest absolute local coordinate; every later axis has a strictly smaller one |
| Cubes.NormalAt | src/objects/cube.rs:83-93 | exactly one nonzero component, ±1, on the chosen axis, with the `signum` of the local coordinate there |
| Cubes.CornerPicksLastAxis | src/objects/cube.rs:88 | on a corner (all coordinates tied) the z axis wins |
| Cylinders.Lateral | src/objects/cylinder.rs:28-43 | `a` is the squared length of the direction across the axis, so never negative, and the discriminant is `b² − 4ac` |
| Cylinders.Roots | src/objects/cylinder.rs:49-51 | none exactly when `a == 0`; otherwise `t1`, `t2` in that order, and with `a > 0` and a non-negative root the nearer root `t1` comes first, so the first-wins `min_by` prefers it on a tie |
| Cylinders.RootsSolveLateral | src/objects/cylinder.rs:43-51 | with a lawful square root, each root solves `a t² + b t + c = 0` |
| Cylinders.AcceptedIsFilter | src/objects/cylinder.rs:53-61 | a root is kept exactly when its axial height is strictly between 0 and `height`; `t` itself is not tested |
| Cylinders.CapHit | src/objects/cylinder.rs:73-82 | a cap hit needs `t > 0` and `3 <= radius` (`len()` is the element count), and lies on the ray |
| Cylinders.CapsDependOnlyOnRadius | src/objects/cylinder.rs:78 | radius below 3: no cap is ever accepted; radius 3 or more: a cap plane ahead of the origin always is, wherever the hit lands |
| Cylinders.MinByFirst | src/objects/cylinder.rs:95-97 | `None` exactly for an empty list; otherwise one of the candidates |
| Cylinders.MinByFirstIsFirstLeast | src/objects/cylinder.rs:95-97 | `min_by` gives a least candidate, the first of equal ones, and `None` only for an empty list |
| Cylinders.Intersection | src/objects/cylinder.rs:27-98 | the root loop, the cap closure and the final `min_by` return `IntersectionOf` |
| Cylinders.IntersectionOf | src/objects/cylinder.rs:27-98 | the reference the `Cylinder::intersection` method is proved equal to: `None` on a negative discriminant; otherwise `None` exactly when there is no candidate, and else one of the candidates |
| Cylinders.NegativeDiscriminantMisses | src/objects/cylinder.rs:45-47 | a negative lateral discriminant gives `None` before the caps are examined |
| Cylinders.CandidateShape | src/objects/cylinder.rs:53-86 | every candidate lies on the ray and is a lateral root strictly inside the height or a cap ahead of the origin with radius at least 3 |
| Cylinders.IntersectionIsLeastCandidate | src/objects/cylinder.rs:93-97 | the hit has the least distance of all lateral and cap candidates, and is one of them |
| Cylinders.NormalAt | src/objects/cylinder.rs:100-116 | `(0, 1, 0)` exactly when `radius >= 3`; below that it is the normalized radial direction: no y component and, off the axis with a lawful square root, pointing from the axis towards the point; never the downward cap normal |
| Spheres.Intersection | src/objects/sphere.rs:25-46 | a hit exactly when the discriminant is `> 0` and the nearer root is `> 0`; the distance is that root and the point `origin + direction × distance` |
| Spheres.PositiveDiscMovingRay | src/objects/sphere.rs:35-37 | a positive discriminant implies `a != 0`, so the root's division is defined |
| Spheres.TangentMisses | src/objects/sphere.rs:35-45 | a zero discriminant (tangent ray) misses |
| Spheres.OriginInsideMisses | src/objects/sphere.rs:36-38 | from inside the sphere the near root is negative, so the ray misses although the far root is positive |
| Spheres.InsideRoots | src/objects/sphere.rs:36-37 | with `a > 0` and `c < 0` the discriminant is positive and the roots lie on both sides of 0 |
| Spheres.NormalAt | src/objects/sphere.rs:48-50 | the zero vector at the centre; elsewhere, with a lawful square root, it points from the centre towards the point |
| Spheres.NormalIsOutwardUnit | src/objects/sphere.rs:48-50 | away from the centre, `normalize(p − center)` has unit length and points away from the centre |
| FlatPlanes.Intersection | src/objects/flat_plane.rs:25-35 | a hit exactly when `t > 0` and the point is at most `radius` from the centre (inclusive), for the normal `normalize(center)`; `t` and the point are as computed |
| FlatPlanes.HitLiesOnPlane | src/objects/flat_plane.rs:26-29 | a hit point satisfies `(hit − center) · axis == 0` |
| FlatPlanes.CenteredAtOriginMisses | src/objects/flat_plane.rs:26-27 | a disk centred at the world origin has a zero normal and is never hit |
| FlatPlanes.NormalAt | src/objects/flat_plane.rs:37-39 | the zero vector at the disk's centre; elsewhere, with a lawful square root, it points from the centre towards the point |
| FlatPlanes.NormalLiesInPlane | src/objects/flat_plane.rs:37-39 | on the plane, `normalize(p − center)` lies in the plane, across the plane normal |
| GuiValidate.IsValidNumber | src/gui/validate.rs:79-81 | an empty entry is always accepted; any other entry exactly when it parses |
| GuiValidate.EmptyIsValidNumber | src/gui/validate.rs:79-81 | the empty text is a valid number |
| GuiValidate.ValidateSpheres | src/gui/validate.rs:4-20 | true exactly when every sphere's x, y, z and radius texts are valid numbers (so true on an empty list) |
| GuiValidate.ValidateCylinders | src/gui/validate.rs:22-40 | the same, with the height text too |
| GuiValidate.ValidateCubes | src/gui/validate.rs:42-58 | true exactly when every cube's four texts are valid numbers |
| GuiValidate.ValidateFlatPlanes | src/gui/validate.rs:60-76 | true exactly when every flat plane's four texts are valid numbers |
| GuiValidate.FirstInvalidSphereDecides | src/gui/validate.rs:11-17 | one invalid sphere makes the result false, whatever surrounds it |
| GuiValidate.CylinderHeightMatters | src/gui/validate.rs:28-34 | an invalid height alone rejects a cylinder |
| GuiHelper.IsValidFloat | src/gui/helper.rs:13-22 | an accepted text is also a valid number for the validators, and never empty; a text with a `.` is accepted exactly when it parses |
| GuiHelper.NoPointNoFloat | src/gui/helper.rs:13-22 | `"1"`, `"1e5"` and every text without a `.` are rejected, whatever the parser accepts |
| GuiHelper.ParseOr | src/gui/helper.rs:34-39 | the parsed value when the text parses, the default otherwise |
| GuiHelper.Mapped | src/gui/helper.rs:33-66 | one object per configuration |
| GuiHelper.MappedAt | src/gui/helper.rs:33-66 | the `i`-th object is made from the `i`-th configuration |
| GuiHelper.DefaultLight | src/gui/helper.rs:28-30 | the built-in object is a sphere with a white `Light` texture |
| GuiHelper.GuiScene | src/gui/helper.rs:24-192 | the reference the `update_scene_from_gui` loops are proved equal to: one object per configuration plus the light, and the light first |
| GuiHelper.GuiSceneLayout | src/gui/helper.rs:24-192 | the object count is 1 + the four group sizes; the light is first; then spheres, cylinders, cubes and flat planes, each in configuration order, with positions defaulting to 0 and sizes to 1 |
| GuiHelper.GuiSceneDiffusive | src/gui/helper.rs:28-188 | the first object is a light, and every configured object is `Diffusive` whatever material was chosen |
| GuiHelper.UpdateSceneFromGui | src/gui/helper.rs:24-192 | the object list built by pushing the light and then the four groups is `GuiScene` |
| GuiHelper.PushSpheres | src/gui/helper.rs:33-66 | the sphere loop appends one sphere per configuration, in order |
| GuiHelper.PushCylinders | src/gui/helper.rs:69-113 | the cylinder loop appends one cylinder per configuration, in order |
| GuiHelper.PushCubes | src/gui/helper.rs:116-149 | the cube loop appends one cube per configuration, in order |
| GuiHelper.PushFlatPlanes | src/gui/helper.rs:152-189 | the flat-plane loop appends one flat plane per configuration, in order |
| State.UnwrapOrEmpty | src/state.rs:55-56 | an unset list becomes empty; a set one is kept |
| State.Built | src/state.rs:51-58 | the dimensions are copied unchanged; an unset list becomes empty, a set one is kept whole |
| State.UnsetBuildsEmpty | src/state.rs:51-58 | a builder given no lists builds an empty scene of its dimensions |
| State.SceneBuilder.constructor | src/state.rs:23-30 | the dimensions are stored and both lists are unset |
| State.SceneBuilder.AddObjects | src/state.rs:31-33 | replaces the objects list; nothing else changes |
| State.SceneBuilder.AddLightSources | src/state.rs:35-37 | replaces the light-source list; nothing else changes |
| State.SceneBuilder.Build | src/state.rs:51-58 | returns `Built` of the builder's fields |
| State.BuildAfterTwoAdds | src/state.rs:23-58 | for any lists, adding objects twice keeps only the second list, and the light sources are those given, whether they were added before, between or after |

## Left out

- Floating point: arithmetic is exact over `real`.
  - NaN, infinities, rounding and `-0.0` are not modelled.
  - The `partial_cmp().unwrap()` panics on NaN (`src/objects/cube.rs:88`, `src/objects/cylinder.rs:66, 97`) cannot occur.
- `sqrt`, `norm` and `normalize` are uninterpreted.
  - `sqrt` is a field of `Vectors.Env`. Lemmas that need its one law state it at the argument they use (`SqrtAt`).
  - A zero-norm `normalize`, NaN in IEEE, leaves the vector as it is.
- Cylinders.CapHit: a ray with zero y-direction gets an infinite `t` in IEEE, and on radius 3 or more that infinite candidate is pushed. The model treats such a cap as missed, so a ray whose only candidate is that cap gets `None` here.
- Cylinders.Roots: with `a == 0` the source's roots are NaN or infinite, and no height test accepts them, so the model has no roots.
- `src/objects/cylinder.rs:63-66`: the first `min_by`, whose result is discarded, is not modelled.
- `src/objects/cylinder.rs:89-91`: the debug `println!` is not modelled.
- `generate_new_direction` (`src/raytracer/ray.rs:141-166`) draws random numbers, so it is the `Rays.Sampler` parameter. It is told the ray's path, so each secondary may get its own direction.
- `RGB::random` is not modelled.
- `correct_gamma` (`powf`) is not modelled.
- Lib.Ray.Trace: the `trace` of this `src/lib.rs` revision is not modelled; what it does to a child ray is the `Lib.Tracer` parameter, so the contract only passes that result on.
- Lib.Ray.Diffusive: requires `depth + 1 < 256`. The source's `u8` addition `depth + 1` panics there with overflow checks on (debug builds) and wraps to 0 otherwise; neither is modelled as an outcome.
- Lib.Ray.Reflective: has the same `u8` precondition.
- The `Object` trait objects are a record of their results (`Rays.SceneObject`): hit test, normal, colour and texture. `color()`/`texture()` of the shapes are the datatype fields, so they return what was stored by construction.
- Rays.Ray.Trace:
  - The object loop runs in `Rays.ScanObjects` on local variables, and its pushed colours are appended to `collisions` afterwards. The source pushes into `self.collisions` as it goes; the resulting list is the same.
  - The secondary loop is `Spawn`, and one pass of it is `TraceSecondary`.
  - The recursion is bounded by the depth limit's `Budget`.
- GuiHelper.UpdateSceneFromGui: each group loop is its own method. They push onto the same list in turn.
  - The GTK entries and colour buttons are reduced to the entry texts and the chosen colour.
  - The returned `Scene { objects }` is the object list.
- `str::parse::<f64>` is the `GuiConfig.Parser` parameter.
- The GTK GUI is not modelled: `src/gui/interface.rs`, `src/gui/components/*` and `src/main.rs`.
  - The older `is_valid_float` / `update_scene_from_gui` duplicates in `interface.rs` are not modelled.
- `src/raytracer/camera.rs`, `src/raytracer/viewport.rs`, `src/raytracer/scene.rs`, `src/light_sources/ceiling.rs` and `src/objects/object.rs` are declarations, constructors or a literal demo list, and are not part of this model.
- The camera constants and the rayon/PPM code of `src/lib.rs` (lines 16-31) are not part of this model.
- Cube's unused helper `_check_plane_intersection` is not modelled.
- `Scene::build` takes the builder by value; here it is a method on the builder that leaves it unchanged.
- Rust's `Option<T>` types are `Options.Option`. A panic (an `unwrap` of `None`, an out-of-range index) is `Options.Outcome.Panic`.
