/** Colours and textures of the revision that `src/raytracer/ray.rs` and the
    shape files belong to: `Color` is a struct of three `u8` channels and
    `Texture::Light` carries no colour. */
module Materials {

  type Byte = x: nat | x < 256

  datatype Color = Color(r: Byte, g: Byte, b: Byte)

  datatype Texture = Light | Diffusive | Glossy | Reflective

  /** `x as u8` for a finite `f64`: truncation toward zero, saturating at 0
      and at 255. */
  function CastU8(x: real): (b: Byte)
    ensures 0.0 <= x < 256.0 ==> b as real <= x < b as real + 1.0
    ensures x < 0.0 ==> b == 0
    ensures x >= 256.0 ==> b == 255
  {
    if x <= 0.0 then 0 else if x >= 255.0 then 255 else x.Floor
  }

  /** `x as u32` for a finite, non-negative `f64`: truncation toward zero. */
  function Truncate(x: real): (n: nat)
    requires x >= 0.0
    ensures n as real <= x < n as real + 1.0
  {
    x.Floor
  }
}
