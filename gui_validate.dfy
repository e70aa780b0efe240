/** `src/gui/validate.rs`: the numeric-field validators. */
module GuiValidate {
  import opened Options
  import opened GuiConfig

  /** `is_valid_number`: an empty entry is accepted (the default is used);
      any other entry must parse as a float. */
  predicate IsValidNumber(parse: Parser, input: string): (b: bool)
    ensures input == [] ==> b
    ensures input != [] ==> (b <==> parse(input).Some?)
  {
    input == [] || parse(input).Some?
  }

  lemma EmptyIsValidNumber(parse: Parser)
    ensures IsValidNumber(parse, "")
  {
  }

  predicate SphereValid(parse: Parser, c: SphereConfig)
  {
    IsValidNumber(parse, c.posX) && IsValidNumber(parse, c.posY) && IsValidNumber(parse, c.posZ) &&
    IsValidNumber(parse, c.radius)
  }

  /** A cylinder also needs a valid height. */
  predicate CylinderValid(parse: Parser, c: CylinderConfig)
  {
    IsValidNumber(parse, c.posX) && IsValidNumber(parse, c.posY) && IsValidNumber(parse, c.posZ) &&
    IsValidNumber(parse, c.radius) && IsValidNumber(parse, c.height)
  }

  predicate CubeValid(parse: Parser, c: CubeConfig)
  {
    IsValidNumber(parse, c.posX) && IsValidNumber(parse, c.posY) && IsValidNumber(parse, c.posZ) &&
    IsValidNumber(parse, c.radius)
  }

  predicate FlatPlaneValid(parse: Parser, c: FlatPlaneConfig)
  {
    IsValidNumber(parse, c.posX) && IsValidNumber(parse, c.posY) && IsValidNumber(parse, c.posZ) &&
    IsValidNumber(parse, c.radius)
  }

  /** `validate_spheres`: true exactly when every sphere's four fields are
      valid numbers; the loop returns false at the first invalid sphere. */
  method ValidateSpheres(parse: Parser, spheres: seq<SphereConfig>) returns (ok: bool)
    ensures ok <==> forall i :: 0 <= i < |spheres| ==> SphereValid(parse, spheres[i])
  {
    for i := 0 to |spheres|
      invariant forall j :: 0 <= j < i ==> SphereValid(parse, spheres[j])
    {
      var sphere := spheres[i];
      if !IsValidNumber(parse, sphere.posX) || !IsValidNumber(parse, sphere.posY) ||
         !IsValidNumber(parse, sphere.posZ) || !IsValidNumber(parse, sphere.radius) {
        return false;
      }
    }
    return true;
  }

  /** `validate_cylinders`: as for spheres, with the height field too. */
  method ValidateCylinders(parse: Parser, cylinders: seq<CylinderConfig>) returns (ok: bool)
    ensures ok <==> forall i :: 0 <= i < |cylinders| ==> CylinderValid(parse, cylinders[i])
  {
    for i := 0 to |cylinders|
      invariant forall j :: 0 <= j < i ==> CylinderValid(parse, cylinders[j])
    {
      var cylinder := cylinders[i];
      if !IsValidNumber(parse, cylinder.posX) || !IsValidNumber(parse, cylinder.posY) ||
         !IsValidNumber(parse, cylinder.posZ) || !IsValidNumber(parse, cylinder.radius) ||
         !IsValidNumber(parse, cylinder.height) {
        return false;
      }
    }
    return true;
  }

  /** `validate_cubes` */
  method ValidateCubes(parse: Parser, cubes: seq<CubeConfig>) returns (ok: bool)
    ensures ok <==> forall i :: 0 <= i < |cubes| ==> CubeValid(parse, cubes[i])
  {
    for i := 0 to |cubes|
      invariant forall j :: 0 <= j < i ==> CubeValid(parse, cubes[j])
    {
      var cube := cubes[i];
      if !IsValidNumber(parse, cube.posX) || !IsValidNumber(parse, cube.posY) ||
         !IsValidNumber(parse, cube.posZ) || !IsValidNumber(parse, cube.radius) {
        return false;
      }
    }
    return true;
  }

  /** `validate_flat_planes` */
  method ValidateFlatPlanes(parse: Parser, flatPlanes: seq<FlatPlaneConfig>) returns (ok: bool)
    ensures ok <==> forall i :: 0 <= i < |flatPlanes| ==> FlatPlaneValid(parse, flatPlanes[i])
  {
    for i := 0 to |flatPlanes|
      invariant forall j :: 0 <= j < i ==> FlatPlaneValid(parse, flatPlanes[j])
    {
      var flatPlane := flatPlanes[i];
      if !IsValidNumber(parse, flatPlane.posX) || !IsValidNumber(parse, flatPlane.posY) ||
         !IsValidNumber(parse, flatPlane.posZ) || !IsValidNumber(parse, flatPlane.radius) {
        return false;
      }
    }
    return true;
  }

  /** One invalid sphere decides the outcome, whatever comes before or after it. */
  lemma FirstInvalidSphereDecides(parse: Parser, before: seq<SphereConfig>, bad: SphereConfig, after: seq<SphereConfig>)
    requires !SphereValid(parse, bad)
    ensures !(forall i :: 0 <= i < |before + [bad] + after| ==> SphereValid(parse, (before + [bad] + after)[i]))
  {
    assert (before + [bad] + after)[|before|] == bad;
  }

  /** A cylinder is rejected for an invalid height alone. */
  lemma CylinderHeightMatters(parse: Parser, c: CylinderConfig)
    requires !IsValidNumber(parse, c.height)
    ensures !CylinderValid(parse, c)
  {
  }
}
