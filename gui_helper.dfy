/** `src/gui/helper.rs`: the float check and the assembly of the scene from
    the GUI's configuration records. This revision's shapes carry a
    `Texture` with a colour, as in `src/lib.rs`. */
module GuiHelper {
  import opened Options
  import opened Vectors
  import opened GuiConfig
  import Lib
  import GuiValidate

  /** `is_valid_float`: the text parses as a float and contains a `.`. It is
      stricter than the validator: it refuses the empty entry, and every
      float it accepts is a valid number. */
  predicate IsValidFloat(parse: Parser, input: string): (b: bool)
    ensures b ==> GuiValidate.IsValidNumber(parse, input)
    ensures input == [] ==> !b
    ensures '.' in input ==> (b <==> parse(input).Some?)
  {
    parse(input).Some? && '.' in input
  }

  /** Integers and exponent forms without a point are refused, whatever the
      parser accepts. */
  lemma NoPointNoFloat(parse: Parser)
    ensures !IsValidFloat(parse, "1")
    ensures !IsValidFloat(parse, "1e5")
    ensures forall s :: '.' !in s ==> !IsValidFloat(parse, s)
  {
  }

  /** The objects `update_scene_from_gui` builds. */
  datatype GuiObject =
    | SphereObject(center: Vec3, radius: real, texture: Lib.Texture)
    | CylinderObject(center: Vec3, radius: real, height: real, texture: Lib.Texture)
    | CubeObject(center: Vec3, size: real, texture: Lib.Texture)
    | FlatPlaneObject(center: Vec3, radius: real, texture: Lib.Texture)

  /** `parse::<f64>().unwrap_or(default)` */
  function ParseOr(parse: Parser, input: string, default: real): (v: real)
    ensures parse(input).Some? ==> v == parse(input).value
    ensures parse(input).None? ==> v == default
  {
    match parse(input)
    case Some(x) => x
    case None => default
  }

  /** The built-in light: a white sphere of radius 2 at (−5, −6, −10). */
  function DefaultLight(): (l: GuiObject)
    ensures l.SphereObject? && l.texture.Light? && l.texture.color == Lib.White()
  {
    SphereObject(Vec3(-5.0, -6.0, -10.0), 2.0, Lib.Light(Lib.White()))
  }

  /** Positions default to 0 and sizes to 1; the texture is always
      `Diffusive` with the chosen colour. */
  function SphereFrom(parse: Parser, c: SphereConfig): GuiObject
  {
    SphereObject(Vec3(ParseOr(parse, c.posX, 0.0), ParseOr(parse, c.posY, 0.0), ParseOr(parse, c.posZ, 0.0)),
                 ParseOr(parse, c.radius, 1.0), Lib.Diffusive(c.color))
  }

  function CylinderFrom(parse: Parser, c: CylinderConfig): GuiObject
  {
    CylinderObject(Vec3(ParseOr(parse, c.posX, 0.0), ParseOr(parse, c.posY, 0.0), ParseOr(parse, c.posZ, 0.0)),
                   ParseOr(parse, c.radius, 1.0), ParseOr(parse, c.height, 1.0), Lib.Diffusive(c.color))
  }

  function CubeFrom(parse: Parser, c: CubeConfig): GuiObject
  {
    CubeObject(Vec3(ParseOr(parse, c.posX, 0.0), ParseOr(parse, c.posY, 0.0), ParseOr(parse, c.posZ, 0.0)),
               ParseOr(parse, c.radius, 1.0), Lib.Diffusive(c.color))
  }

  function FlatPlaneFrom(parse: Parser, c: FlatPlaneConfig): GuiObject
  {
    FlatPlaneObject(Vec3(ParseOr(parse, c.posX, 0.0), ParseOr(parse, c.posY, 0.0), ParseOr(parse, c.posZ, 0.0)),
                    ParseOr(parse, c.radius, 1.0), Lib.Diffusive(c.color))
  }

  function TextureOf(o: GuiObject): Lib.Texture { o.texture }

  /** One object per configuration, in configuration order. */
  function Mapped<C>(f: C -> GuiObject, xs: seq<C>): (ys: seq<GuiObject>)
    ensures |ys| == |xs|
  {
    if |xs| == 0 then [] else Mapped(f, xs[..|xs| - 1]) + [f(xs[|xs| - 1])]
  }

  /** The `i`-th object is made from the `i`-th configuration. */
  lemma {:induction false} MappedAt<C>(f: C -> GuiObject, xs: seq<C>)
    ensures forall i :: 0 <= i < |xs| ==> Mapped(f, xs)[i] == f(xs[i])
  {
    if |xs| > 0 {
      MappedAt(f, xs[..|xs| - 1]);
    }
  }

  function SphereMaker(parse: Parser): SphereConfig -> GuiObject { c => SphereFrom(parse, c) }
  function CylinderMaker(parse: Parser): CylinderConfig -> GuiObject { c => CylinderFrom(parse, c) }
  function CubeMaker(parse: Parser): CubeConfig -> GuiObject { c => CubeFrom(parse, c) }
  function FlatPlaneMaker(parse: Parser): FlatPlaneConfig -> GuiObject { c => FlatPlaneFrom(parse, c) }

  /** The scene the GUI describes: the light first, then one object per
      configuration, group by group (spheres, cylinders, cubes, flat planes). */
  function GuiScene(parse: Parser, state: AppState): (objects: seq<GuiObject>)
    ensures |objects| == 1 + |state.spheres| + |state.cylinders| + |state.cubes| + |state.flatPlanes|
    ensures objects[0] == DefaultLight() && objects[0].texture.Light?
  {
    [DefaultLight()] + Mapped(SphereMaker(parse), state.spheres) + Mapped(CylinderMaker(parse), state.cylinders)
      + Mapped(CubeMaker(parse), state.cubes) + Mapped(FlatPlaneMaker(parse), state.flatPlanes)
  }

  /** Where each configuration lands in the scene, and that every object
      after the light is diffusive. */
  lemma GuiSceneLayout(parse: Parser, state: AppState)
    ensures var objects := GuiScene(parse, state);
      |objects| == 1 + |state.spheres| + |state.cylinders| + |state.cubes| + |state.flatPlanes| &&
      objects[0] == DefaultLight() &&
      (forall i :: 0 <= i < |state.spheres| ==> objects[1 + i] == SphereFrom(parse, state.spheres[i])) &&
      (forall i :: 0 <= i < |state.cylinders| ==>
        objects[1 + |state.spheres| + i] == CylinderFrom(parse, state.cylinders[i])) &&
      (forall i :: 0 <= i < |state.cubes| ==>
        objects[1 + |state.spheres| + |state.cylinders| + i] == CubeFrom(parse, state.cubes[i])) &&
      (forall i :: 0 <= i < |state.flatPlanes| ==>
        objects[1 + |state.spheres| + |state.cylinders| + |state.cubes| + i] == FlatPlaneFrom(parse, state.flatPlanes[i]))
  {
    MappedAt(SphereMaker(parse), state.spheres);
    MappedAt(CylinderMaker(parse), state.cylinders);
    MappedAt(CubeMaker(parse), state.cubes);
    MappedAt(FlatPlaneMaker(parse), state.flatPlanes);
  }

  /** Only the light is not diffusive: every configured object is. */
  lemma GuiSceneDiffusive(parse: Parser, state: AppState)
    ensures TextureOf(GuiScene(parse, state)[0]).Light?
    ensures forall i :: 1 <= i < |GuiScene(parse, state)| ==> TextureOf(GuiScene(parse, state)[i]).Diffusive?
  {
    GuiSceneLayout(parse, state);
    var objects := GuiScene(parse, state);
    var n1, n2, n3 := 1 + |state.spheres|, 1 + |state.spheres| + |state.cylinders|,
      1 + |state.spheres| + |state.cylinders| + |state.cubes|;
    forall i | 1 <= i < |objects|
      ensures TextureOf(objects[i]).Diffusive?
    {
      if i < n1 {
        assert objects[i] == SphereFrom(parse, state.spheres[i - 1]);
      } else if i < n2 {
        assert objects[i] == CylinderFrom(parse, state.cylinders[i - n1]);
      } else if i < n3 {
        assert objects[i] == CubeFrom(parse, state.cubes[i - n2]);
      } else {
        assert objects[i] == FlatPlaneFrom(parse, state.flatPlanes[i - n3]);
      }
    }
  }

  /** `update_scene_from_gui`: the light, then each group pushed in turn
      onto the same list. */
  method UpdateSceneFromGui(parse: Parser, state: AppState) returns (objects: seq<GuiObject>)
    ensures objects == GuiScene(parse, state)
  {
    objects := [DefaultLight()];
    objects := PushSpheres(parse, objects, state.spheres);
    objects := PushCylinders(parse, objects, state.cylinders);
    objects := PushCubes(parse, objects, state.cubes);
    objects := PushFlatPlanes(parse, objects, state.flatPlanes);
  }

  /** The sphere loop of `update_scene_from_gui`. */
  method PushSpheres(parse: Parser, base: seq<GuiObject>, configs: seq<SphereConfig>) returns (objects: seq<GuiObject>)
    ensures objects == base + Mapped(SphereMaker(parse), configs)
  {
    objects := base;
    for i := 0 to |configs|
      invariant objects == base + Mapped(SphereMaker(parse), configs[..i])
    {
      var sphereConfig := configs[i];
      var posX := ParseOr(parse, sphereConfig.posX, 0.0);
      var posY := ParseOr(parse, sphereConfig.posY, 0.0);
      var posZ := ParseOr(parse, sphereConfig.posZ, 0.0);
      var radius := ParseOr(parse, sphereConfig.radius, 1.0);
      var sphereTexture := Lib.Diffusive(sphereConfig.color);
      var sphere := SphereObject(Vec3(posX, posY, posZ), radius, sphereTexture);
      assert sphere == SphereMaker(parse)(sphereConfig);
      assert configs[..i + 1][..i] == configs[..i];
      objects := objects + [sphere];
    }
    assert configs[..|configs|] == configs;
  }

  /** The cylinder loop of `update_scene_from_gui`. */
  method PushCylinders(parse: Parser, base: seq<GuiObject>, configs: seq<CylinderConfig>) returns (objects: seq<GuiObject>)
    ensures objects == base + Mapped(CylinderMaker(parse), configs)
  {
    objects := base;
    for i := 0 to |configs|
      invariant objects == base + Mapped(CylinderMaker(parse), configs[..i])
    {
      var cylinderConfig := configs[i];
      var posX := ParseOr(parse, cylinderConfig.posX, 0.0);
      var posY := ParseOr(parse, cylinderConfig.posY, 0.0);
      var posZ := ParseOr(parse, cylinderConfig.posZ, 0.0);
      var radius := ParseOr(parse, cylinderConfig.radius, 1.0);
      var height := ParseOr(parse, cylinderConfig.height, 1.0);
      var cylinderTexture := Lib.Diffusive(cylinderConfig.color);
      var cylinder := CylinderObject(Vec3(posX, posY, posZ), radius, height, cylinderTexture);
      assert cylinder == CylinderMaker(parse)(cylinderConfig);
      assert configs[..i + 1][..i] == configs[..i];
      objects := objects + [cylinder];
    }
    assert configs[..|configs|] == configs;
  }

  /** The cube loop of `update_scene_from_gui`. */
  method PushCubes(parse: Parser, base: seq<GuiObject>, configs: seq<CubeConfig>) returns (objects: seq<GuiObject>)
    ensures objects == base + Mapped(CubeMaker(parse), configs)
  {
    objects := base;
    for i := 0 to |configs|
      invariant objects == base + Mapped(CubeMaker(parse), configs[..i])
    {
      var cubeConfig := configs[i];
      var posX := ParseOr(parse, cubeConfig.posX, 0.0);
      var posY := ParseOr(parse, cubeConfig.posY, 0.0);
      var posZ := ParseOr(parse, cubeConfig.posZ, 0.0);
      var radius := ParseOr(parse, cubeConfig.radius, 1.0);
      var cubeTexture := Lib.Diffusive(cubeConfig.color);
      var cube := CubeObject(Vec3(posX, posY, posZ), radius, cubeTexture);
      assert cube == CubeMaker(parse)(cubeConfig);
      assert configs[..i + 1][..i] == configs[..i];
      objects := objects + [cube];
    }
    assert configs[..|configs|] == configs;
  }

  /** The flat-plane loop of `update_scene_from_gui`. */
  method PushFlatPlanes(parse: Parser, base: seq<GuiObject>, configs: seq<FlatPlaneConfig>) returns (objects: seq<GuiObject>)
    ensures objects == base + Mapped(FlatPlaneMaker(parse), configs)
  {
    objects := base;
    for i := 0 to |configs|
      invariant objects == base + Mapped(FlatPlaneMaker(parse), configs[..i])
    {
      var flatPlaneConfig := configs[i];
      var posX := ParseOr(parse, flatPlaneConfig.posX, 0.0);
      var posY := ParseOr(parse, flatPlaneConfig.posY, 0.0);
      var posZ := ParseOr(parse, flatPlaneConfig.posZ, 0.0);
      var radius := ParseOr(parse, flatPlaneConfig.radius, 1.0);
      var flatPlaneTexture := Lib.Diffusive(flatPlaneConfig.color);
      var flatPlane := FlatPlaneObject(Vec3(posX, posY, posZ), radius, flatPlaneTexture);
      assert flatPlane == FlatPlaneMaker(parse)(flatPlaneConfig);
      assert configs[..i + 1][..i] == configs[..i];
      objects := objects + [flatPlane];
    }
    assert configs[..|configs|] == configs;
  }
}
